/** The persisted state: one table per model, held as a sequence of rows, and the
    counter that stands for the random identifiers (`uuid4`) rows get when they
    are built. The database constraints the source declares (primary keys,
    `unique=True` columns, `unique_together`, the obligation's foreign key to its
    contribution type) are stated by `Valid`; a save that would break one fails
    with an IntegrityError and changes nothing. */
module Store {
  import opened Base
  import opened Types

  ghost predicate AccountsValid(s: seq<Account>, bound: nat)
  {
    UniqueBy(s, AccountId) && UniqueBy(s, AccountUsername) && KeysBelow(s, AccountId, bound)
  }

  /** `Family.leader` is a one-to-one field: no two families have the same
      leader; any number of families may have none. */
  ghost predicate LeadersDistinct(s: seq<Family>)
  {
    forall i, j :: 0 <= i < j < |s| && s[i].leader.Some? ==> s[i].leader != s[j].leader
  }

  ghost predicate FamiliesValid(s: seq<Family>, bound: nat)
  {
    UniqueBy(s, FamilyId) && UniqueBy(s, FamilyName) && UniqueBy(s, FamilySlug)
    && LeadersDistinct(s) && KeysBelow(s, FamilyId, bound)
  }

  ghost predicate TypesValid(s: seq<ContributionType>, bound: nat)
  {
    UniqueBy(s, TypeId) && UniqueBy(s, TypeSlug) && KeysBelow(s, TypeId, bound)
  }

  /** Obligations: unique ids, unique (account, contribution type, due date), and
      every obligation's contribution type is a stored row. */
  ghost predicate ObligationsValid(s: seq<MemberContribution>, types: seq<ContributionType>, bound: nat)
  {
    UniqueBy(s, ObligationId) && UniqueBy(s, KeyOfObligation) && KeysBelow(s, ObligationId, bound)
    && forall i :: 0 <= i < |s| ==> s[i].contributionType in Keys(types, TypeId)
  }

  ghost predicate PaymentsValid(s: seq<Payment>, bound: nat)
  {
    UniqueBy(s, PaymentId) && KeysBelow(s, PaymentId, bound)
  }

  ghost predicate DocumentsValid(s: seq<ClanDocument>, bound: nat)
  {
    UniqueBy(s, DocumentId) && UniqueBy(s, DocumentSlug) && KeysBelow(s, DocumentId, bound)
  }

  ghost predicate MeetingsValid(s: seq<Meeting>, bound: nat)
  {
    UniqueBy(s, MeetingId) && UniqueBy(s, MeetingSlug) && KeysBelow(s, MeetingId, bound)
  }

  class Database {
    var accounts: seq<Account>
    var families: seq<Family>
    var types: seq<ContributionType>
    var obligations: seq<MemberContribution>
    var payments: seq<Payment>
    var documents: seq<ClanDocument>
    var meetings: seq<Meeting>
    var nextId: nat

    ghost predicate Valid()
      reads this
    {
      AccountsValid(accounts, nextId) && FamiliesValid(families, nextId)
      && TypesValid(types, nextId) && ObligationsValid(obligations, types, nextId)
      && PaymentsValid(payments, nextId) && DocumentsValid(documents, nextId)
      && MeetingsValid(meetings, nextId)
    }

    constructor ()
      ensures Valid()
      ensures accounts == [] && families == [] && types == [] && obligations == []
      ensures payments == [] && documents == [] && meetings == [] && nextId == 0
    {
      accounts, families, types, obligations := [], [], [], [];
      payments, documents, meetings, nextId := [], [], [], 0;
    }

    /** A fresh identifier, distinct from every stored one. */
    method FreshId() returns (id: Id)
      requires Valid()
      modifies this`nextId
      ensures Valid() && id == old(nextId) && nextId == id + 1
    {
      id := nextId;
      nextId := nextId + 1;
    }

    /** `n` fresh identifiers, `first` to `first + n - 1`. */
    method Reserve(n: nat) returns (first: Id)
      requires Valid()
      modifies this`nextId
      ensures Valid() && first == old(nextId) && nextId == first + n
    {
      first := nextId;
      nextId := nextId + n;
    }
  }
}
