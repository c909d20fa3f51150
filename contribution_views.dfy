/** The contribution type detail view and the view that creates a contribution
    type. */
module ContributionViews {
  import opened Base
  import opened Dates
  import opened Types
  import opened Store
  import opened ContributionModels
  import opened ContributionForms

  function FindTypeBySlug(types: seq<ContributionType>, slug: string): (r: Option<ContributionType>)
    ensures r.Some? ==> r.value in types && r.value.slug == slug
    ensures r.None? ==> forall i :: 0 <= i < |types| ==> types[i].slug != slug
  {
    match IndexOfKey(types, TypeSlug, slug)
    case None => None
    case Some(i) => Some(types[i])
  }

  /** The name of the family of the account `id` (`account__family__name`); None
      when the account has no family. */
  function FamilyNameOfAccount(accounts: seq<Account>, families: seq<Family>, id: Id): Option<string>
  {
    match IndexOfKey(accounts, AccountId, id)
    case None => None
    case Some(i) =>
      match accounts[i].family
      case None => None
      case Some(fid) =>
        match IndexOfKey(families, FamilyId, fid)
        case None => None
        case Some(j) => Some(families[j].name)
  }

  function PaymentFamilyName(accounts: seq<Account>, families: seq<Family>): Payment -> Option<string>
  {
    (p: Payment) => FamilyNameOfAccount(accounts, families, p.account)
  }

  /** NOT PAID obligations of a type. */
  function Outstanding(typeId: Id): MemberContribution -> bool
  {
    (o: MemberContribution) => o.contributionType == typeId && o.status == NotPaid
  }

  /** The type's payments, newest payment date first. */
  function PaymentsOfType(payments: seq<Payment>, typeId: Id): (r: seq<Payment>)
    ensures multiset(r) == multiset(Filter(payments, OfType(typeId)))
    ensures SortedDesc(r, PaymentDateKey)
    ensures forall i :: 0 <= i < |payments| ==> (payments[i] in r <==> payments[i].contributionType == Some(typeId))
    ensures SumBy(r, PaymentAmount) == TotalCollected(payments, typeId)
  {
    var ofType := Filter(payments, OfType(typeId));
    var r := SortDesc(ofType, PaymentDateKey);
    assert forall i :: 0 <= i < |payments| ==> (payments[i] in r <==> payments[i] in multiset(ofType));
    SumBySort(ofType, PaymentDateKey, PaymentAmount);
    SumWhereFilter(payments, OfType(typeId), PaymentAmount);
    r
  }

  /** The type's NOT PAID obligations, newest first. */
  function OutstandingsOf(os: seq<MemberContribution>, typeId: Id): (r: seq<MemberContribution>)
    ensures multiset(r) == multiset(Filter(os, Outstanding(typeId)))
    ensures SortedDesc(r, ObligationCreated)
    ensures forall i :: 0 <= i < |os| ==> (os[i] in r <==> os[i].contributionType == typeId && os[i].status == NotPaid)
    ensures SumBy(r, ObligationDue) == SumWhere(os, Outstanding(typeId), ObligationDue)
  {
    var open := Filter(os, Outstanding(typeId));
    var r := SortDesc(open, ObligationCreated);
    assert forall i :: 0 <= i < |os| ==> (os[i] in r <==> os[i] in multiset(open));
    SumBySort(open, ObligationCreated, ObligationDue);
    SumWhereFilter(os, Outstanding(typeId), ObligationDue);
    r
  }

  /** `values("account__family__name").annotate(total=Sum("amount"))
      .order_by("-total")`: one row per family name, largest total first. */
  function TotalsByFamily(ps: seq<Payment>, accounts: seq<Account>, families: seq<Family>): (r: seq<Group<Option<string>>>)
    ensures multiset(r) == multiset(GroupSum(ps, PaymentFamilyName(accounts, families), PaymentAmount))
    ensures SortedDesc(r, GroupTotal)
    ensures SumBy(r, GroupTotal) == SumBy(ps, PaymentAmount)
  {
    var groups := GroupSum(ps, PaymentFamilyName(accounts, families), PaymentAmount);
    GroupSumTotal(ps, PaymentFamilyName(accounts, families), PaymentAmount);
    SumBySort(groups, GroupTotal, GroupTotal);
    SortDesc(groups, GroupTotal)
  }

  /** Each row totals exactly the payments by members of families of that name
      (payments by members without a family form the row with no name), every
      row's name occurs among the payments, and no name appears twice. */
  lemma TotalsByFamilyRows(ps: seq<Payment>, accounts: seq<Account>, families: seq<Family>)
    ensures var rows := TotalsByFamily(ps, accounts, families);
      var name := PaymentFamilyName(accounts, families);
      (forall g :: g in rows ==>
        g.total == SumWhere(ps, KeyIs(name, g.key), PaymentAmount)
        && exists j :: 0 <= j < |ps| && name(ps[j]) == g.key)
      && (forall j :: 0 <= j < |ps| ==> exists g :: g in rows && g.key == name(ps[j]))
      && UniqueBy(rows, GroupKey)
  {
    var name := PaymentFamilyName(accounts, families);
    GroupSumGroups(ps, name, PaymentAmount);
    GroupingRearranged(ps, name, PaymentAmount, GroupSum(ps, name, PaymentAmount), TotalsByFamily(ps, accounts, families));
  }

  datatype ContributionContext = ContributionContext(
    contribution: ContributionType,
    payments: seq<Payment>,
    outstandings: seq<MemberContribution>,
    unpaidAmount: Cents,
    totalCollected: Cents,
    totalsByFamily: seq<Group<Option<string>>>)

  /** `get_contribution`: 404 for a slug no type has; otherwise the type's payments
      newest first, its NOT PAID obligations and their sum, the total collected
      from its payments, and the payments' totals per family name, which add up
      to the total collected. */
  function GetContribution(types: seq<ContributionType>, os: seq<MemberContribution>, payments: seq<Payment>,
                           accounts: seq<Account>, families: seq<Family>, slug: string): (r: Result<ContributionContext, Error>)
    ensures r.Err? <==> FindTypeBySlug(types, slug).None?
    ensures r.Err? ==> r.error == NotFound
    ensures r.Ok? ==>
      var c := r.value;
      c.contribution in types && c.contribution.slug == slug
      && c.payments == PaymentsOfType(payments, c.contribution.id)
      && c.outstandings == OutstandingsOf(os, c.contribution.id)
      && c.unpaidAmount == SumBy(c.outstandings, ObligationDue)
      && c.totalCollected == TotalCollected(payments, c.contribution.id)
      && c.totalsByFamily == TotalsByFamily(c.payments, accounts, families)
      && SumBy(c.totalsByFamily, GroupTotal) == c.totalCollected
  {
    match FindTypeBySlug(types, slug)
    case None => Err(NotFound)
    case Some(t) =>
      var ps := PaymentsOfType(payments, t.id);
      var outstandings := OutstandingsOf(os, t.id);
      Ok(ContributionContext(t, ps, outstandings,
                             SumWhere(os, Outstanding(t.id), ObligationDue),
                             SumBy(ps, PaymentAmount),
                             TotalsByFamily(ps, accounts, families)))
  }

  datatype AddOutcome = AddFormShown | AddFormErrors | Added(contribution: ContributionType)

  /** Restating the fan-out's result for an equal first identifier. */
  lemma FirstIdShift(after: seq<MemberContribution>, before: seq<MemberContribution>, targets: seq<Account>, t: ContributionType,
                     due: Option<Date>, first: Id, first': Id, now: nat, notified: seq<Id>)
    requires first == first'
    requires after == before + Signals.Obligations(targets, t, due, first, now)
    requires notified == seq(|targets|, i => first + i)
    ensures after == before + Signals.Obligations(targets, t, due, first', now)
    ensures notified == seq(|targets|, i => first' + i)
  {
  }

  /** Saving a new type with a blank slug never fails: it gets the first
      free slug and its fan-out, numbered from the next identifier. */
  method SaveFreshType(db: Database, row: ContributionType, today: Date, now: nat)
    returns (t: ContributionType, notified: seq<Id>)
    requires db.Valid() && ValidDate(today) && row.id < db.nextId
    requires row.id !in Keys(db.types, TypeId) && row.slug == ""
    modifies db`types, db`obligations, db`nextId
    ensures db.Valid()
    ensures t == row.(slug := t.slug) && db.types == old(db.types) + [t]
    ensures FirstFree(SlugBase(t.name), OtherSlugs(old(db.types), t.id), t.slug)
    ensures db.obligations == old(db.obligations)
      + Signals.Obligations(Signals.Targets(db.accounts, t), t, Signals.DueFor(t, today), old(db.nextId), now)
    ensures notified == seq(|Signals.Targets(db.accounts, t)|, i => old(db.nextId) + i)
  {
    assert !KeepsSlug(row.slug, SlugBase(row.name));
    var r;
    r, notified := SaveContributionType(db, row, today, now);
    assert r.Ok?;
    t := r.value;
    assert IndexOfKey(old(db.types), TypeId, t.id).None?;
  }

  /** The valid-form path of `add_contribution`: a fresh type built from the
      form, with the requester as creator, saved with a blank slug. */
  method CreateFromForm(db: Database, requester: Account, data: TypeFormData, today: Date, now: nat)
    returns (t: ContributionType, notified: seq<Id>)
    requires db.Valid() && ValidDate(today)
    modifies db`types, db`obligations, db`nextId
    ensures db.Valid()
    ensures t == TypeFromForm(old(db.nextId), data).(createdBy := Some(requester.id), slug := t.slug)
    ensures t.id !in Keys(old(db.types), TypeId) && db.types == old(db.types) + [t]
    ensures FirstFree(SlugBase(t.name), OtherSlugs(old(db.types), t.id), t.slug)
    ensures db.obligations == old(db.obligations)
      + Signals.Obligations(Signals.Targets(db.accounts, t), t, Signals.DueFor(t, today), old(db.nextId) + 1, now)
    ensures notified == seq(|Signals.Targets(db.accounts, t)|, i => old(db.nextId) + 1 + i)
  {
    var id := db.FreshId();
    var row := TypeFromForm(id, data).(createdBy := Some(requester.id));
    ghost var obligations0, next0 := db.obligations, db.nextId;
    assert id !in Keys(db.types, TypeId) && next0 == old(db.nextId) + 1;
    t, notified := SaveFreshType(db, row, today, now);
    FirstIdShift(db.obligations, obligations0, Signals.Targets(db.accounts, t), t, Signals.DueFor(t, today),
                 next0, old(db.nextId) + 1, now, notified);
  }

  /** `add_contribution`: a valid form builds a new type, records the requester
      as its creator, and saves it (slug, then the fan-out). `form` is the
      validated form, None when it did not validate. */
  method AddContribution(db: Database, requester: Account, isPost: bool, form: Option<TypeFormData>, today: Date, now: nat)
    returns (outcome: AddOutcome, notified: seq<Id>)
    requires db.Valid() && ValidDate(today)
    modifies db`types, db`obligations, db`nextId
    ensures db.Valid()
    ensures !(isPost && form.Some?) ==>
      outcome == (if isPost then AddFormErrors else AddFormShown)
      && db.types == old(db.types) && db.obligations == old(db.obligations) && notified == []
    ensures isPost && form.Some? ==> outcome.Added?
    ensures outcome.Added? ==>
      var t := outcome.contribution;
      t == TypeFromForm(old(db.nextId), form.value).(createdBy := Some(requester.id), slug := t.slug)
      && t.id !in Keys(old(db.types), TypeId)
      && db.types == old(db.types) + [t]
      && FirstFree(SlugBase(t.name), OtherSlugs(old(db.types), t.id), t.slug)
    ensures outcome.Added? ==>
      var t := outcome.contribution;
      var targets := Signals.Targets(db.accounts, t);
      db.obligations == old(db.obligations)
        + Signals.Obligations(targets, t, Signals.DueFor(t, today), old(db.nextId) + 1, now)
      && notified == seq(|targets|, i => old(db.nextId) + 1 + i)
  {
    if !isPost {
      return AddFormShown, [];
    }
    if form.None? {
      return AddFormErrors, [];
    }
    var t;
    t, notified := CreateFromForm(db, requester, form.value, today, now);
    outcome := Added(t);
  }
}
