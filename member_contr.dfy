/** The obligation list views: the list of all obligations or of one family's,
    with its three totals, and a member's own list. Both lists come in the
    obligations' default order, newest first. */
module MemberContributionViews {
  import opened Base
  import opened Types
  import opened AccountModels

  function FindFamilyBySlug(families: seq<Family>, slug: string): (r: Option<Family>)
    ensures r.Some? ==> r.value in families && r.value.slug == slug
    ensures r.None? ==> forall i :: 0 <= i < |families| ==> families[i].slug != slug
  {
    match IndexOfKey(families, FamilySlug, slug)
    case None => None
    case Some(i) => Some(families[i])
  }

  function HasStatus(status: PaymentStatus): MemberContribution -> bool
  {
    (o: MemberContribution) => o.status == status
  }

  function AnyObligation(o: MemberContribution): bool { true }

  datatype ListContext = ListContext(
    contributions: seq<MemberContribution>,
    family: Option<Family>,
    totalContributed: Cents,
    totalDue: Cents,
    grandTotal: Cents)

  /** The obligations listed: a family's, or all of them. */
  function Listed(accounts: seq<Account>, os: seq<MemberContribution>, family: Option<Family>): seq<MemberContribution>
  {
    match family
    case None => os
    case Some(f) => Filter(os, InFamily(accounts, f.id))
  }

  /** `member_contributions_list`. An empty or absent slug lists every obligation,
      whoever asks; a slug no family has is 404. The totals are the PAID, the
      NOT PAID and all amounts due of the listed obligations. */
  function ContributionList(families: seq<Family>, accounts: seq<Account>, os: seq<MemberContribution>, familySlug: Option<string>): (r: Result<ListContext, Error>)
    ensures r.Err? <==> familySlug.Some? && |familySlug.value| > 0 && FindFamilyBySlug(families, familySlug.value).None?
    ensures r.Err? ==> r.error == NotFound
    ensures r.Ok? ==> (r.value.family.None? <==> familySlug.None? || |familySlug.value| == 0)
    ensures r.Ok? && r.value.family.Some? ==> r.value.family.value in families && r.value.family.value.slug == familySlug.value
    ensures r.Ok? ==>
      multiset(r.value.contributions) == multiset(Listed(accounts, os, r.value.family))
      && SortedDesc(r.value.contributions, ObligationCreated)
    ensures r.Ok? ==> forall i :: 0 <= i < |os| ==>
      (os[i] in r.value.contributions <==> r.value.family.None? || InFamily(accounts, r.value.family.value.id)(os[i]))
    ensures r.Ok? ==>
      r.value.grandTotal == SumBy(r.value.contributions, ObligationDue)
      && r.value.totalContributed == SumWhere(r.value.contributions, HasStatus(Paid), ObligationDue)
      && r.value.totalDue == SumWhere(r.value.contributions, HasStatus(NotPaid), ObligationDue)
  {
    var family := if familySlug.None? || |familySlug.value| == 0 then None else FindFamilyBySlug(families, familySlug.value);
    if familySlug.Some? && |familySlug.value| > 0 && family.None? then Err(NotFound)
    else
      var listed := Listed(accounts, os, family);
      var sorted := SortDesc(listed, ObligationCreated);
      SumBySort(listed, ObligationCreated, ObligationDue);
      SumWhereSort(listed, ObligationCreated, HasStatus(Paid), ObligationDue);
      SumWhereSort(listed, ObligationCreated, HasStatus(NotPaid), ObligationDue);
      assert forall i :: 0 <= i < |os| ==> (os[i] in sorted <==> os[i] in multiset(listed));
      Ok(ListContext(sorted, family,
                     SumWhere(listed, HasStatus(Paid), ObligationDue),
                     SumWhere(listed, HasStatus(NotPaid), ObligationDue),
                     SumBy(listed, ObligationDue)))
  }

  /** With non-negative amounts, what is contributed plus what is due is at
      most the grand total (PENDING and the rest count in neither). */
  lemma ListTotalsBounded(families: seq<Family>, accounts: seq<Account>, os: seq<MemberContribution>, familySlug: Option<string>)
    requires forall i :: 0 <= i < |os| ==> os[i].amountDue >= 0
    requires ContributionList(families, accounts, os, familySlug).Ok?
    ensures var c := ContributionList(families, accounts, os, familySlug).value;
      c.totalContributed + c.totalDue <= c.grandTotal
  {
    var c := ContributionList(families, accounts, os, familySlug).value;
    forall i | 0 <= i < |c.contributions| ensures c.contributions[i].amountDue >= 0 {
      assert c.contributions[i] in multiset(Listed(accounts, os, c.family));
    }
    SumWhereDisjoint(c.contributions, HasStatus(Paid), HasStatus(NotPaid), AnyObligation, ObligationDue);
    SumWhereFilter(c.contributions, AnyObligation, ObligationDue);
    FilterAll(c.contributions, AnyObligation);
  }

  /** A family's list totals are that family's `total_paid` and `total_unpaid`. */
  lemma FamilyListTotals(families: seq<Family>, accounts: seq<Account>, os: seq<MemberContribution>, slug: string)
    requires |slug| > 0 && ContributionList(families, accounts, os, Some(slug)).Ok?
    ensures var c := ContributionList(families, accounts, os, Some(slug)).value;
      c.totalContributed == FamilyTotalPaid(accounts, os, c.family.value.id)
      && c.totalDue == FamilyTotalUnpaid(accounts, os, c.family.value.id)
  {
    var c := ContributionList(families, accounts, os, Some(slug)).value;
    var fid := c.family.value.id;
    var listed := Filter(os, InFamily(accounts, fid));
    SumWhereSort(listed, ObligationCreated, HasStatus(Paid), ObligationDue);
    SumWhereSort(listed, ObligationCreated, HasStatus(NotPaid), ObligationDue);
    SumWhereOfFilter(os, InFamily(accounts, fid), HasStatus(Paid), InFamilyWith(accounts, fid, Paid), ObligationDue);
    SumWhereOfFilter(os, InFamily(accounts, fid), HasStatus(NotPaid), InFamilyWith(accounts, fid, NotPaid), ObligationDue);
  }

  /** The username of the account `id`, None when it is not stored. */
  function UsernameOf(accounts: seq<Account>, id: Id): Option<string>
  {
    match IndexOfKey(accounts, AccountId, id)
    case None => None
    case Some(i) => Some(accounts[i].username)
  }

  /** `my_member_contributions_list`: the obligations whose account's username is
      the requester's. The username in the URL is not used. */
  function MyContributions(accounts: seq<Account>, os: seq<MemberContribution>, requester: Account, username: string): (r: seq<MemberContribution>)
    ensures SortedDesc(r, ObligationCreated)
    ensures multiset(r) <= multiset(os)
  {
    var mine := Filter(os, (o: MemberContribution) => UsernameOf(accounts, o.account) == Some(requester.username));
    SortDesc(mine, ObligationCreated)
  }

  /** For a stored requester, the list holds exactly the requester's own
      obligations, whatever username the URL names. */
  lemma MyContributionsOwn(accounts: seq<Account>, os: seq<MemberContribution>, requester: Account, username: string, other: string, k: nat)
    requires UniqueBy(accounts, AccountId) && UniqueBy(accounts, AccountUsername)
    requires k < |accounts| && accounts[k] == requester
    ensures MyContributions(accounts, os, requester, username) == MyContributions(accounts, os, requester, other)
    ensures forall i :: 0 <= i < |os| ==>
      (os[i] in MyContributions(accounts, os, requester, username) <==> os[i].account == requester.id)
  {
    var keep := (o: MemberContribution) => UsernameOf(accounts, o.account) == Some(requester.username);
    forall o: MemberContribution ensures keep(o) <==> o.account == requester.id {
      IndexOfKeyUnique(accounts, AccountId, k);
      match IndexOfKey(accounts, AccountId, o.account)
      case None =>
      case Some(m) =>
        if m < k { assert AccountUsername(accounts[m]) != AccountUsername(accounts[k]); }
        if m > k { assert AccountUsername(accounts[k]) != AccountUsername(accounts[m]); }
    }
    var mine := Filter(os, keep);
    assert forall i :: 0 <= i < |os| ==>
      (os[i] in MyContributions(accounts, os, requester, username) <==> os[i] in multiset(mine));
  }
}
