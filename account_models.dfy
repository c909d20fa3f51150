/** The family and account models: the family slug, and the paid and unpaid
    totals of a family's and of an account's obligations. An obligation belongs
    to a family through its account's family. */
module AccountModels {
  import opened Base
  import opened Types
  import opened Text
  import opened Store

  /** The family of the account `id`; None when the account has no family or is
      not stored. */
  function FamilyOfAccount(accounts: seq<Account>, id: Id): (r: Option<Id>)
    ensures r.Some? ==> exists i :: 0 <= i < |accounts| && accounts[i].id == id && accounts[i].family == r
    ensures (forall i :: 0 <= i < |accounts| ==> accounts[i].id != id) ==> r.None?
    ensures UniqueBy(accounts, AccountId) ==>
      forall i :: 0 <= i < |accounts| && accounts[i].id == id ==> r == accounts[i].family
  {
    match IndexOfKey(accounts, AccountId, id)
    case None => None
    case Some(i) => accounts[i].family
  }

  /** Obligations of the members of family `familyId` (`account__family=self`). */
  function InFamily(accounts: seq<Account>, familyId: Id): MemberContribution -> bool
  {
    (o: MemberContribution) => FamilyOfAccount(accounts, o.account) == Some(familyId)
  }

  /** ... that also have status `status`. */
  function InFamilyWith(accounts: seq<Account>, familyId: Id, status: PaymentStatus): MemberContribution -> bool
  {
    (o: MemberContribution) => FamilyOfAccount(accounts, o.account) == Some(familyId) && o.status == status
  }

  /** Obligations of the account `accountId` with status `status`. */
  function OwnedWith(accountId: Id, status: PaymentStatus): MemberContribution -> bool
  {
    (o: MemberContribution) => o.account == accountId && o.status == status
  }

  /** `Family.total_unpaid` and `Family.total_paid`: the amounts due of the
      family's obligations with the given status, 0 when there are none. */
  function FamilyTotal(accounts: seq<Account>, os: seq<MemberContribution>, familyId: Id, status: PaymentStatus): Cents
  {
    SumWhere(os, InFamilyWith(accounts, familyId, status), ObligationDue)
  }

  /** `Account.total_unpaid` and `Account.total_paid`. */
  function AccountTotal(os: seq<MemberContribution>, accountId: Id, status: PaymentStatus): Cents
  {
    SumWhere(os, OwnedWith(accountId, status), ObligationDue)
  }

  function FamilyTotalUnpaid(accounts: seq<Account>, os: seq<MemberContribution>, familyId: Id): Cents
  {
    FamilyTotal(accounts, os, familyId, NotPaid)
  }

  function FamilyTotalPaid(accounts: seq<Account>, os: seq<MemberContribution>, familyId: Id): Cents
  {
    FamilyTotal(accounts, os, familyId, Paid)
  }

  function AccountTotalUnpaid(os: seq<MemberContribution>, accountId: Id): Cents
  {
    AccountTotal(os, accountId, NotPaid)
  }

  function AccountTotalPaid(os: seq<MemberContribution>, accountId: Id): Cents
  {
    AccountTotal(os, accountId, Paid)
  }

  /** Each total adds, over the table, the amount due of every obligation that
      matches: one more obligation adds its amount when it matches and nothing
      otherwise. */
  lemma {:induction false} FamilyTotalStep(accounts: seq<Account>, os: seq<MemberContribution>, o: MemberContribution, familyId: Id, status: PaymentStatus)
    ensures FamilyTotal(accounts, os + [o], familyId, status) == FamilyTotal(accounts, os, familyId, status)
      + (if FamilyOfAccount(accounts, o.account) == Some(familyId) && o.status == status then o.amountDue else 0)
    ensures AccountTotal(os + [o], o.account, status) == AccountTotal(os, o.account, status)
      + (if o.status == status then o.amountDue else 0)
  {
    SumWhereAppend(os, [o], InFamilyWith(accounts, familyId, status), ObligationDue);
    SumWhereAppend(os, [o], OwnedWith(o.account, status), ObligationDue);
    assert [o][1..] == [];
  }

  /** PENDING, PARTIALLY_PAID and CANCELLED obligations count in neither total,
      and an obligation whose account has no family counts toward no family. */
  lemma {:induction false} TotalsIgnore(accounts: seq<Account>, os: seq<MemberContribution>, o: MemberContribution, familyId: Id)
    requires o.status in {Pending, PartiallyPaid, Cancelled} || FamilyOfAccount(accounts, o.account).None?
    ensures FamilyTotalPaid(accounts, os + [o], familyId) == FamilyTotalPaid(accounts, os, familyId)
    ensures FamilyTotalUnpaid(accounts, os + [o], familyId) == FamilyTotalUnpaid(accounts, os, familyId)
    ensures o.status in {Pending, PartiallyPaid, Cancelled} ==>
      AccountTotalPaid(os + [o], o.account) == AccountTotalPaid(os, o.account)
      && AccountTotalUnpaid(os + [o], o.account) == AccountTotalUnpaid(os, o.account)
  {
    FamilyTotalStep(accounts, os, o, familyId, Paid);
    FamilyTotalStep(accounts, os, o, familyId, NotPaid);
  }

  /** Any total is 0 when no obligation matches. */
  lemma FamilyTotalNone(accounts: seq<Account>, os: seq<MemberContribution>, familyId: Id, status: PaymentStatus)
    requires forall i :: 0 <= i < |os| ==> FamilyOfAccount(accounts, os[i].account) != Some(familyId) || os[i].status != status
    ensures FamilyTotal(accounts, os, familyId, status) == 0
  {
    SumWhereNone(os, InFamilyWith(accounts, familyId, status), ObligationDue);
  }

  /** With non-negative amounts, paid plus unpaid is at most the family's whole
      amount due. */
  lemma FamilyPaidPlusUnpaid(accounts: seq<Account>, os: seq<MemberContribution>, familyId: Id)
    requires forall i :: 0 <= i < |os| ==> os[i].amountDue >= 0
    ensures FamilyTotalPaid(accounts, os, familyId) + FamilyTotalUnpaid(accounts, os, familyId)
      <= SumWhere(os, InFamily(accounts, familyId), ObligationDue)
  {
    SumWhereDisjoint(os, InFamilyWith(accounts, familyId, Paid), InFamilyWith(accounts, familyId, NotPaid),
                     InFamily(accounts, familyId), ObligationDue);
  }

  /** With non-negative amounts, a member's total is at most the family's. */
  lemma AccountWithinFamily(accounts: seq<Account>, os: seq<MemberContribution>, k: nat, familyId: Id, status: PaymentStatus)
    requires UniqueBy(accounts, AccountId) && k < |accounts| && accounts[k].family == Some(familyId)
    requires forall i :: 0 <= i < |os| ==> os[i].amountDue >= 0
    ensures AccountTotal(os, accounts[k].id, status) <= FamilyTotal(accounts, os, familyId, status)
  {
    IndexOfKeyUnique(accounts, AccountId, k);
    SumWhereMono(os, OwnedWith(accounts[k].id, status), InFamilyWith(accounts, familyId, status), ObligationDue);
  }

  // ---- Family.save ----

  /** The row `Family.save` writes: the slug is recomputed from the name on every
      save, whatever it held before. */
  function FamilyRow(f: Family): (r: Family)
    ensures r.slug == Slugify(f.name) && r.(slug := f.slug) == f
  {
    f.(slug := Slugify(f.name))
  }

  /** Another stored family already holds `row`'s name, slug or leader. */
  predicate ClashesWith(other: Family, row: Family)
  {
    other.id != row.id
    && (other.name == row.name || other.slug == row.slug || (row.leader.Some? && other.leader == row.leader))
  }

  /** The family table after a save: IntegrityError when another family already
      has the name, the slug (both columns are unique, and no suffix is added
      to the slug) or the leader (a one-to-one field), otherwise the row is
      inserted or updated. */
  function SaveFamilyRows(families: seq<Family>, f: Family): (r: Result<seq<Family>, Error>)
    ensures r.Err? ==> r.error == IntegrityError
    ensures r.Err? <==>
      exists j :: 0 <= j < |families| && families[j].id != f.id
        && (families[j].name == f.name || families[j].slug == Slugify(f.name)
            || (f.leader.Some? && families[j].leader == f.leader))
    ensures r.Ok? ==> r.value == Upsert(families, FamilyRow(f), FamilyId)
  {
    var row := FamilyRow(f);
    if exists j :: 0 <= j < |families| && ClashesWith(families[j], row)
    then Err(IntegrityError)
    else Ok(Upsert(families, row, FamilyId))
  }

  /** A second family led by someone who already leads one is refused. */
  lemma LeaderClashRejected(families: seq<Family>, f: Family, j: nat)
    requires j < |families| && families[j].id != f.id
    requires f.leader.Some? && families[j].leader == f.leader
    ensures SaveFamilyRows(families, f) == Err(IntegrityError)
  {
    assert ClashesWith(families[j], FamilyRow(f));
  }

  /** Saving a row whose leader no other family has keeps leaders distinct. */
  lemma UpsertKeepsLeadersDistinct(families: seq<Family>, row: Family)
    requires UniqueBy(families, FamilyId) && LeadersDistinct(families)
    requires forall j :: 0 <= j < |families| && row.leader.Some? && families[j].leader == row.leader ==> families[j].id == row.id
    ensures LeadersDistinct(Upsert(families, row, FamilyId))
  {
    var r := Upsert(families, row, FamilyId);
    match IndexOfKey(families, FamilyId, row.id)
    case Some(k) =>
      assert r == families[k := row];
      forall a, b | 0 <= a < b < |r| && r[a].leader.Some? ensures r[a].leader != r[b].leader {
        if a == k {
          assert FamilyId(families[k]) != FamilyId(families[b]);
        } else if b == k {
          assert FamilyId(families[a]) != FamilyId(families[k]);
        }
      }
    case None =>
      assert r == families + [row];
      forall a, b | 0 <= a < b < |r| && r[a].leader.Some? ensures r[a].leader != r[b].leader {
        if b == |families| {
          assert FamilyId(families[a]) != row.id;
        }
      }
  }

  /** Two families whose names slugify alike cannot both be stored: saving the
      second fails however its name differs. */
  lemma SlugClashRejected(families: seq<Family>, f: Family, j: nat)
    requires j < |families| && families[j].id != f.id && families[j].slug == Slugify(families[j].name)
    requires Slugify(families[j].name) == Slugify(f.name)
    ensures SaveFamilyRows(families, f) == Err(IntegrityError)
  {
  }

  /** A successful save keeps the family table's constraints, and the stored row
      carries the slug of its name. */
  lemma SaveFamilyKeepsValid(families: seq<Family>, f: Family, bound: nat)
    requires FamiliesValid(families, bound) && f.id < bound && SaveFamilyRows(families, f).Ok?
    ensures FamiliesValid(SaveFamilyRows(families, f).value, bound)
    ensures FamilyRow(f) in SaveFamilyRows(families, f).value
  {
    var row := FamilyRow(f);
    UpsertContents(families, row, FamilyId);
    UpsertKeepsUnique(families, row, FamilyId, FamilyName);
    UpsertKeepsUnique(families, row, FamilyId, FamilySlug);
    UpsertKeepsBelow(families, row, FamilyId, bound);
    forall j | 0 <= j < |families| && row.leader.Some? && families[j].leader == row.leader
      ensures families[j].id == row.id
    {
      assert !ClashesWith(families[j], row);
    }
    UpsertKeepsLeadersDistinct(families, row);
  }

  /** `Family.save`: `f.id` is the row's identifier, a fresh one for a new
      family. */
  method SaveFamily(db: Database, f: Family) returns (r: Result<Family, Error>)
    requires db.Valid() && f.id < db.nextId
    modifies db`families
    ensures db.Valid()
    ensures r.Err? <==> SaveFamilyRows(old(db.families), f).Err?
    ensures r.Err? ==> r.error == IntegrityError && db.families == old(db.families)
    ensures r.Ok? ==> r.value == FamilyRow(f) && db.families == SaveFamilyRows(old(db.families), f).value
  {
    match SaveFamilyRows(db.families, f)
    case Err(e) =>
      r := Err(e);
    case Ok(rows) =>
      SaveFamilyKeepsValid(db.families, f, db.nextId);
      db.families := rows;
      r := Ok(FamilyRow(f));
  }
}
