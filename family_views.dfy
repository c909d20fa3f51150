/** The family detail view: the family's members, its five newest obligations,
    what its members have paid, what they still owe, and its documents. */
module FamilyViews {
  import opened Base
  import opened Types
  import opened AccountModels
  import opened MemberContributionViews

  /** Payments made by members of family `familyId`. */
  function PaidByFamily(accounts: seq<Account>, familyId: Id): Payment -> bool
  {
    (p: Payment) => FamilyOfAccount(accounts, p.account) == Some(familyId)
  }

  function IsMemberOf(familyId: Id): Account -> bool
  {
    (a: Account) => a.family == Some(familyId)
  }

  function DocumentOf(familyId: Id): ClanDocument -> bool
  {
    (d: ClanDocument) => d.family == Some(familyId)
  }

  datatype FamilyContext = FamilyContext(
    family: Family,
    members: seq<Account>,
    documents: seq<ClanDocument>,
    totalContributed: Cents,
    totalUnpaid: Cents,
    contributions: seq<MemberContribution>)

  /** The newest five of the family's obligations. */
  function NewestFive(accounts: seq<Account>, os: seq<MemberContribution>, familyId: Id): (r: seq<MemberContribution>)
    ensures var all := Filter(os, InFamily(accounts, familyId));
      |r| == Min(5, |all|) && SortedDesc(r, ObligationCreated) && multiset(r) <= multiset(all)
      && forall x, j :: x in multiset(all) - multiset(r) && 0 <= j < |r| ==> x.created <= r[j].created
  {
    var all := Filter(os, InFamily(accounts, familyId));
    var sorted := SortDesc(all, ObligationCreated);
    TakeLargest(all, ObligationCreated, 5);
    sorted[..Min(5, |sorted|)]
  }

  /** `get_family`: 404 for a slug no family has. The context carries no total of
      all amounts due: the view computes it and leaves it out. */
  function GetFamily(families: seq<Family>, accounts: seq<Account>, os: seq<MemberContribution>,
                     payments: seq<Payment>, documents: seq<ClanDocument>, slug: string): (r: Result<FamilyContext, Error>)
    ensures r.Err? <==> FindFamilyBySlug(families, slug).None?
    ensures r.Err? ==> r.error == NotFound
    ensures r.Ok? ==>
      var c := r.value;
      var fid := c.family.id;
      c.family in families && c.family.slug == slug
      && (forall i :: 0 <= i < |accounts| ==> (accounts[i] in c.members <==> accounts[i].family == Some(fid)))
      && (forall i :: 0 <= i < |c.members| ==> c.members[i] in accounts)
      && c.contributions == NewestFive(accounts, os, fid)
      && c.totalContributed == SumWhere(payments, PaidByFamily(accounts, fid), PaymentAmount)
      && c.totalUnpaid == FamilyTotalUnpaid(accounts, os, fid)
      && multiset(c.documents) == multiset(Filter(documents, DocumentOf(fid)))
      && SortedDesc(c.documents, DocumentCreated)
  {
    match FindFamilyBySlug(families, slug)
    case None => Err(NotFound)
    case Some(f) =>
      Ok(FamilyContext(
        f,
        Filter(accounts, IsMemberOf(f.id)),
        SortDesc(Filter(documents, DocumentOf(f.id)), DocumentCreated),
        SumWhere(payments, PaidByFamily(accounts, f.id), PaymentAmount),
        SumWhere(os, InFamilyWith(accounts, f.id, NotPaid), ObligationDue),
        NewestFive(accounts, os, f.id)))
  }

  /** What a family has contributed counts payments, not obligations: a new
      payment by a member adds its amount whatever it pays for, one by anyone
      else adds nothing, and the obligations play no part. */
  lemma FamilyContributedCountsPayments(families: seq<Family>, accounts: seq<Account>, os: seq<MemberContribution>, os2: seq<MemberContribution>,
                                        payments: seq<Payment>, documents: seq<ClanDocument>, slug: string, p: Payment)
    requires GetFamily(families, accounts, os, payments, documents, slug).Ok?
    ensures var c := GetFamily(families, accounts, os, payments, documents, slug).value;
      var c2 := GetFamily(families, accounts, os2, payments + [p], documents, slug).value;
      c2.totalContributed == c.totalContributed
        + (if FamilyOfAccount(accounts, p.account) == Some(c.family.id) then p.amount else 0)
  {
    var c := GetFamily(families, accounts, os, payments, documents, slug).value;
    SumWhereAppend(payments, [p], PaidByFamily(accounts, c.family.id), PaymentAmount);
    assert [p][1..] == [];
  }

  /** The family's unpaid total is the NOT PAID part of the obligations the
      family list view shows for it. */
  lemma FamilyUnpaidMatchesList(families: seq<Family>, accounts: seq<Account>, os: seq<MemberContribution>,
                                payments: seq<Payment>, documents: seq<ClanDocument>, slug: string)
    requires |slug| > 0 && GetFamily(families, accounts, os, payments, documents, slug).Ok?
    ensures ContributionList(families, accounts, os, Some(slug)).Ok?
    ensures GetFamily(families, accounts, os, payments, documents, slug).value.totalUnpaid
      == ContributionList(families, accounts, os, Some(slug)).value.totalDue
  {
    FamilyListTotals(families, accounts, os, slug);
  }
}
