/** The contribution models: the scope/family rule, the amount collected for a
    type, an obligation's balance, the slug loop of a contribution type's save,
    and the status recompute that runs whenever a payment is saved. */
module ContributionModels {
  import opened Base
  import opened Dates
  import opened Types
  import opened Text
  import opened Store
  import Signals

  const FamilyRequired: string := "A family must be selected when scope is 'Specific Family'."
  const FamilyNotAllowed: string := "Family should only be set for 'Specific Family' scope."

  /** `ContributionType.clean`: a family is required for the family scope and
      refused for every other scope. */
  function Clean(t: ContributionType): (r: Result<(), Error>)
    ensures r.Ok? <==> (t.scope == FamilyScope <==> t.family.Some?)
    ensures t.scope == FamilyScope && t.family.None? ==> r == Err(ValidationError(FamilyRequired))
    ensures t.scope != FamilyScope && t.family.Some? ==> r == Err(ValidationError(FamilyNotAllowed))
  {
    if t.scope == FamilyScope && t.family.None? then Err(ValidationError(FamilyRequired))
    else if t.scope != FamilyScope && t.family.Some? then Err(ValidationError(FamilyNotAllowed))
    else Ok(())
  }

  /** Payments recorded against a contribution type. */
  function OfType(typeId: Id): Payment -> bool
  {
    (p: Payment) => p.contributionType == Some(typeId)
  }

  /** Payments linked to an obligation. */
  function LinkedTo(mcId: Id): Payment -> bool
  {
    (p: Payment) => p.memberContribution == Some(mcId)
  }

  /** `total_collected`: the amounts of the type's payments, 0 when none. */
  function TotalCollected(payments: seq<Payment>, typeId: Id): Cents
  {
    SumWhere(payments, OfType(typeId), PaymentAmount)
  }

  lemma TotalCollectedNone(payments: seq<Payment>, typeId: Id)
    requires forall i :: 0 <= i < |payments| ==> payments[i].contributionType != Some(typeId)
    ensures TotalCollected(payments, typeId) == 0
  {
    SumWhereNone(payments, OfType(typeId), PaymentAmount);
  }

  /** Recording one more payment adds its amount exactly when it is of the type. */
  lemma TotalCollectedAppend(payments: seq<Payment>, p: Payment, typeId: Id)
    ensures TotalCollected(payments + [p], typeId)
      == TotalCollected(payments, typeId) + (if p.contributionType == Some(typeId) then p.amount else 0)
  {
    SumWhereAppend(payments, [p], OfType(typeId), PaymentAmount);
  }

  /** Sum of the payments linked to an obligation, 0 when none. */
  function TotalPaid(payments: seq<Payment>, mcId: Id): Cents
  {
    SumWhere(payments, LinkedTo(mcId), PaymentAmount)
  }

  /** `MemberContribution.balance`. */
  function Balance(o: MemberContribution, payments: seq<Payment>): Cents
  {
    o.amountDue - TotalPaid(payments, o.id)
  }

  /** With no linked payment the balance is the amount due. */
  lemma BalanceWithoutPayments(o: MemberContribution, payments: seq<Payment>)
    requires forall i :: 0 <= i < |payments| ==> payments[i].memberContribution != Some(o.id)
    ensures Balance(o, payments) == o.amountDue
  {
    SumWhereNone(payments, LinkedTo(o.id), PaymentAmount);
  }

  /** A linked payment lowers the balance by its amount; any other payment leaves
      it alone. */
  lemma BalanceAfterPayment(o: MemberContribution, payments: seq<Payment>, p: Payment)
    ensures Balance(o, payments + [p])
      == Balance(o, payments) - (if p.memberContribution == Some(o.id) then p.amount else 0)
  {
    SumWhereAppend(payments, [p], LinkedTo(o.id), PaymentAmount);
  }

  /** The status the recompute derives from the amount paid and the amount due. */
  function Recompute(total: Cents, due: Cents): (r: PaymentStatus)
    ensures r == Paid <==> total >= due
    ensures r == PartiallyPaid <==> 0 < total < due
    ensures r == NotPaid <==> total <= 0 && total < due
  {
    if total >= due then Paid
    else if total > 0 then PartiallyPaid
    else NotPaid
  }

  /** The recompute as written: PARTIALLY_PAID is not a member of PaymentStatus,
      so a partial sum raises AttributeError, and the transaction that also holds
      the payment's own insert rolls back. */
  function RecomputeAsWritten(total: Cents, due: Cents): (r: Result<PaymentStatus, Error>)
    ensures r.Err? <==> 0 < total < due
    ensures r.Err? ==> r.error == AttributeError
    ensures r.Ok? ==> r.value == Recompute(total, due) && DeclaredStatus(r.value)
  {
    if total >= due then Ok(Paid)
    else if total > 0 then Err(AttributeError)
    else Ok(NotPaid)
  }

  /** A first instalment of R50 towards R100 cannot be saved as written. */
  lemma PartialPaymentRaises(o: MemberContribution, p: Payment)
    requires o.amountDue == 10000 && p.memberContribution == Some(o.id) && p.amount == 5000
    ensures RecomputeAsWritten(TotalPaid([p], o.id), o.amountDue) == Err(AttributeError)
  {
    assert [p][1..] == [];
    assert LinkedTo(o.id)(p);
    assert SumWhere([p], LinkedTo(o.id), PaymentAmount) == 5000 + SumWhere([p][1..], LinkedTo(o.id), PaymentAmount);
  }

  /** The obligation row after the recompute for `mcId`: written, with a new
      `updated` stamp, only when the derived status differs from the stored one. */
  function Reconcile(os: seq<MemberContribution>, payments: seq<Payment>, mcId: Id, now: nat): (r: seq<MemberContribution>)
    ensures |r| == |os|
  {
    match IndexOfKey(os, ObligationId, mcId)
    case None => os
    case Some(i) =>
      var status := Recompute(TotalPaid(payments, mcId), os[i].amountDue);
      if os[i].status == status then os else os[i := os[i].(status := status, updated := now)]
  }

  /** The one position holding a key in a table with unique keys. */
  lemma IndexOfUnique(os: seq<MemberContribution>, mcId: Id, i: nat)
    requires UniqueBy(os, ObligationId) && i < |os| && os[i].id == mcId
    ensures IndexOfKey(os, ObligationId, mcId) == Some(i)
  {
  }

  /** After the recompute the obligation is PAID, PARTIALLY_PAID or NOT PAID from
      its linked payments alone, whatever it held before (PENDING and CANCELLED
      included); nothing else about it changes but the stamp, and no other row
      changes. */
  lemma {:induction false} ReconcileSetsStatus(os: seq<MemberContribution>, payments: seq<Payment>, mcId: Id, now: nat, i: nat)
    requires UniqueBy(os, ObligationId) && i < |os| && os[i].id == mcId
    ensures var r := Reconcile(os, payments, mcId, now);
      r[i].status == Recompute(TotalPaid(payments, mcId), os[i].amountDue)
      && r[i] == os[i].(status := r[i].status, updated := r[i].updated)
      && (forall j :: 0 <= j < |os| && j != i ==> r[j] == os[j])
      && (os[i].status == r[i].status ==> r == os)
  {
    IndexOfUnique(os, mcId, i);
  }

  /** The recompute keeps every row's identifier, so identifiers stay unique. */
  lemma ReconcileKeepsUnique(os: seq<MemberContribution>, payments: seq<Payment>, mcId: Id, now: nat)
    requires UniqueBy(os, ObligationId)
    ensures UniqueBy(Reconcile(os, payments, mcId, now), ObligationId)
    ensures forall j :: 0 <= j < |os| ==> Reconcile(os, payments, mcId, now)[j].id == os[j].id
  {
    var r := Reconcile(os, payments, mcId, now);
    assert forall j :: 0 <= j < |os| ==> r[j].id == os[j].id;
    forall a, b | 0 <= a < b < |r| ensures ObligationId(r[a]) != ObligationId(r[b]) {
      assert ObligationId(r[a]) == ObligationId(os[a]) && ObligationId(r[b]) == ObligationId(os[b]);
    }
  }

  /** The status write keeps every row's identifier, so identifiers stay unique. */
  lemma SetStatusKeepsUnique(os: seq<MemberContribution>, link: Option<Id>, status: PaymentStatus, now: nat)
    requires UniqueBy(os, ObligationId)
    ensures UniqueBy(SetStatus(os, link, status, now), ObligationId)
    ensures forall j :: 0 <= j < |os| ==> SetStatus(os, link, status, now)[j].id == os[j].id
  {
    var r := SetStatus(os, link, status, now);
    assert forall j :: 0 <= j < |os| ==> r[j].id == os[j].id;
    forall a, b | 0 <= a < b < |r| ensures ObligationId(r[a]) != ObligationId(r[b]) {
      assert ObligationId(r[a]) == ObligationId(os[a]) && ObligationId(r[b]) == ObligationId(os[b]);
    }
  }

  /** A second recompute with no new payment writes nothing. */
  lemma {:induction false} ReconcileIdempotent(os: seq<MemberContribution>, payments: seq<Payment>, mcId: Id, now1: nat, now2: nat)
    requires UniqueBy(os, ObligationId)
    ensures Reconcile(Reconcile(os, payments, mcId, now1), payments, mcId, now2) == Reconcile(os, payments, mcId, now1)
  {
    match IndexOfKey(os, ObligationId, mcId)
    case None =>
    case Some(i) =>
      var r := Reconcile(os, payments, mcId, now1);
      ReconcileSetsStatus(os, payments, mcId, now1, i);
      ReconcileKeepsUnique(os, payments, mcId, now1);
      ReconcileSetsStatus(r, payments, mcId, now2, i);
  }

  /** The obligation table after saving a payment with link `link`: unchanged
      without a link. */
  function AfterPaymentSave(os: seq<MemberContribution>, payments: seq<Payment>, link: Option<Id>, now: nat): seq<MemberContribution>
  {
    match link
    case None => os
    case Some(id) => Reconcile(os, payments, id, now)
  }

  /** `update_member_contribution_status`: nothing without a link, otherwise the
      obligation is set to `status` and written, changed or not. */
  function SetStatus(os: seq<MemberContribution>, link: Option<Id>, status: PaymentStatus, now: nat): (r: seq<MemberContribution>)
    ensures |r| == |os|
  {
    match link
    case None => os
    case Some(id) =>
      match IndexOfKey(os, ObligationId, id)
      case None => os
      case Some(i) => os[i := os[i].(status := status, updated := now)]
  }

  lemma SetStatusSets(os: seq<MemberContribution>, id: Id, status: PaymentStatus, now: nat, i: nat)
    requires UniqueBy(os, ObligationId) && i < |os| && os[i].id == id
    ensures var r := SetStatus(os, Some(id), status, now);
      r[i] == os[i].(status := status, updated := now)
      && forall j :: 0 <= j < |os| && j != i ==> r[j] == os[j]
  {
    IndexOfUnique(os, id, i);
  }

  /** Rewriting one obligation row without touching its identifier, its
      uniqueness key or its type keeps the table's constraints. */
  lemma ReplaceKeepsValid(os: seq<MemberContribution>, types: seq<ContributionType>, bound: nat, i: nat, x: MemberContribution)
    requires ObligationsValid(os, types, bound) && i < |os|
    requires x.id == os[i].id && KeyOfObligation(x) == KeyOfObligation(os[i])
    ensures ObligationsValid(os[i := x], types, bound)
  {
    var r := os[i := x];
    forall a, b | 0 <= a < b < |r|
      ensures ObligationId(r[a]) != ObligationId(r[b]) && KeyOfObligation(r[a]) != KeyOfObligation(r[b])
    {
      assert ObligationId(r[a]) == ObligationId(os[a]) && ObligationId(r[b]) == ObligationId(os[b]);
      assert KeyOfObligation(r[a]) == KeyOfObligation(os[a]) && KeyOfObligation(r[b]) == KeyOfObligation(os[b]);
    }
  }

  lemma AfterPaymentSaveKeepsValid(os: seq<MemberContribution>, types: seq<ContributionType>, bound: nat, payments: seq<Payment>, link: Option<Id>, now: nat)
    requires ObligationsValid(os, types, bound)
    ensures ObligationsValid(AfterPaymentSave(os, payments, link, now), types, bound)
  {
    if link.Some? {
      match IndexOfKey(os, ObligationId, link.value)
      case None =>
      case Some(i) =>
        var status := Recompute(TotalPaid(payments, link.value), os[i].amountDue);
        ReplaceKeepsValid(os, types, bound, i, os[i].(status := status, updated := now));
    }
  }

  lemma SetStatusKeepsValid(os: seq<MemberContribution>, types: seq<ContributionType>, bound: nat, link: Option<Id>, status: PaymentStatus, now: nat)
    requires ObligationsValid(os, types, bound)
    ensures ObligationsValid(SetStatus(os, link, status, now), types, bound)
  {
    if link.Some? {
      match IndexOfKey(os, ObligationId, link.value)
      case None =>
      case Some(i) => ReplaceKeepsValid(os, types, bound, i, os[i].(status := status, updated := now));
    }
  }

  /** The payment row a save writes: a new payment is dated today
      (`auto_now_add`); an existing one keeps its date. */
  function Stamped(payments: seq<Payment>, p: Payment, today: Date): Payment
  {
    if IndexOfKey(payments, PaymentId, p.id).None? then p.(paymentDate := today) else p
  }

  /** `Payment.save`: write the payment, then recompute its obligation's status
      from the sum of that obligation's payments. */
  method SavePayment(db: Database, p: Payment, today: Date, now: nat) returns (saved: Payment)
    requires db.Valid() && p.id < db.nextId
    modifies db`payments, db`obligations
    ensures db.Valid()
    ensures saved == Stamped(old(db.payments), p, today)
    ensures db.payments == Upsert(old(db.payments), saved, PaymentId)
    ensures db.obligations == AfterPaymentSave(old(db.obligations), db.payments, p.memberContribution, now)
  {
    saved := Stamped(db.payments, p, today);
    UpsertContents(db.payments, saved, PaymentId);
    UpsertKeepsBelow(db.payments, saved, PaymentId, db.nextId);
    db.payments := Upsert(db.payments, saved, PaymentId);
    AfterPaymentSaveKeepsValid(db.obligations, db.types, db.nextId, db.payments, p.memberContribution, now);
    if p.memberContribution.Some? {
      db.obligations := Reconcile(db.obligations, db.payments, p.memberContribution.value, now);
    }
  }

  /** `update_member_contribution_status`, as a write to the obligation table. */
  method UpdateMemberContributionStatus(db: Database, p: Payment, status: PaymentStatus, now: nat)
    requires db.Valid()
    modifies db`obligations
    ensures db.Valid()
    ensures db.obligations == SetStatus(old(db.obligations), p.memberContribution, status, now)
  {
    SetStatusKeepsValid(db.obligations, db.types, db.nextId, p.memberContribution, status, now);
    db.obligations := SetStatus(db.obligations, p.memberContribution, status, now);
  }

  /** Saving a new payment linked to an obligation leaves it PAID exactly when
      the linked payments, this one included, reach the amount due. */
  lemma NewPaymentStatus(os: seq<MemberContribution>, payments: seq<Payment>, p: Payment, now: nat, i: nat)
    requires UniqueBy(os, ObligationId) && i < |os|
    requires p.memberContribution == Some(os[i].id)
    requires forall j :: 0 <= j < |payments| ==> payments[j].id != p.id
    ensures var after := payments + [p];
      Upsert(payments, p, PaymentId) == after
      && (AfterPaymentSave(os, after, p.memberContribution, now)[i].status == Paid
          <==> TotalPaid(payments, os[i].id) + p.amount >= os[i].amountDue)
  {
    assert IndexOfKey(payments, PaymentId, p.id).None?;
    SumWhereAppend(payments, [p], LinkedTo(os[i].id), PaymentAmount);
    ReconcileSetsStatus(os, payments + [p], os[i].id, now, i);
  }

  // ---- ContributionType.save: the slug ----

  /** `slugify(name) or "contribution"`. */
  function SlugBase(name: string): (r: string)
    ensures |r| > 0
  {
    var s := Slugify(name);
    if |s| == 0 then "contribution" else s
  }

  /** The stored slug is kept when it is non-empty and slugifies to the base. */
  predicate KeepsSlug(slug: string, base: string)
  {
    |slug| > 0 && Slugify(slug) == base
  }

  /** Slugs of the other contribution types (the loop's `exclude(pk=...)`). */
  function OtherSlugs(types: seq<ContributionType>, id: Id): (r: seq<string>)
    ensures forall i :: 0 <= i < |types| && types[i].id != id ==> types[i].slug in r
    ensures forall s :: s in r ==> exists i :: 0 <= i < |types| && types[i].id != id && types[i].slug == s
  {
    if |types| == 0 then []
    else
      var rest := OtherSlugs(types[1..], id);
      assert forall i :: 1 <= i < |types| ==> types[i] == types[1..][i - 1];
      if types[0].id != id then [types[0].slug] + rest else rest
  }

  /** `slug` is the first of base, base-1, base-2, ... that is not taken. */
  ghost predicate FirstFree(base: string, taken: seq<string>, slug: string)
  {
    slug !in taken
    && exists k: nat :: slug == SlugCandidate(base, k) && forall j :: 0 <= j < k ==> SlugCandidate(base, j) in taken
  }

  /** The first `n` strings the slug loop tries. */
  ghost function TriedSlugs(base: string, n: nat): set<string>
  {
    set j: nat | j < n :: SlugCandidate(base, j)
  }

  /** The first `n` tries are `n` different strings. */
  lemma {:induction false} TriedSlugsCard(base: string, n: nat)
    ensures |TriedSlugs(base, n)| == n
  {
    if n > 0 {
      TriedSlugsCard(base, n - 1);
      assert TriedSlugs(base, n) == TriedSlugs(base, n - 1) + {SlugCandidate(base, n - 1)};
      if SlugCandidate(base, n - 1) in TriedSlugs(base, n - 1) {
        var j: nat :| j < n - 1 && SlugCandidate(base, j) == SlugCandidate(base, n - 1);
        SlugCandidateInjective(base, j, n - 1);
      }
    }
  }

  /** When the first `n` tries are all taken there are at least `n` taken
      strings, which bounds the number of rounds. */
  lemma TriedBound(base: string, taken: seq<string>, n: nat)
    requires forall j :: 0 <= j < n ==> SlugCandidate(base, j) in taken
    ensures n <= |set x | x in taken|
  {
    TriedSlugsCard(base, n);
    SubsetCard(TriedSlugs(base, n), set x | x in taken);
  }

  /** The slug loop. It ends because every attempt tries a string it has not
      tried before, and only taken strings make it go on. */
  method UniqueSlug(base: string, taken: seq<string>) returns (slug: string)
    ensures slug !in taken
    ensures FirstFree(base, taken, slug)
  {
    slug := base;
    var counter: nat := 1;
    ghost var pool := set x | x in taken;
    while slug in taken
      invariant counter >= 1
      invariant slug == SlugCandidate(base, counter - 1)
      invariant forall j :: 0 <= j < counter - 1 ==> SlugCandidate(base, j) in taken
      decreases |pool| - (counter - 1)
    {
      TriedBound(base, taken, counter);
      slug := base + "-" + NatToString(counter);
      counter := counter + 1;
    }
  }

  /** The saved row's slug: kept, or chosen by the loop. */
  method ChooseSlug(types: seq<ContributionType>, t: ContributionType) returns (slug: string)
    ensures KeepsSlug(t.slug, SlugBase(t.name)) ==> slug == t.slug
    ensures !KeepsSlug(t.slug, SlugBase(t.name)) ==> FirstFree(SlugBase(t.name), OtherSlugs(types, t.id), slug)
  {
    var base := SlugBase(t.name);
    if KeepsSlug(t.slug, base) {
      slug := t.slug;
    } else {
      slug := UniqueSlug(base, OtherSlugs(types, t.id));
    }
  }

  /** Storing a type whose slug no other type holds keeps the constraints of the
      type table and the obligations' references to it; when the type is new, no
      obligation is of it yet. */
  lemma TypeUpsertKeepsValid(types: seq<ContributionType>, os: seq<MemberContribution>, bound: nat, row: ContributionType)
    requires TypesValid(types, bound) && ObligationsValid(os, types, bound) && row.id < bound
    requires row.slug !in OtherSlugs(types, row.id)
    ensures TypesValid(Upsert(types, row, TypeId), bound)
    ensures ObligationsValid(os, Upsert(types, row, TypeId), bound)
    ensures row.id in Keys(Upsert(types, row, TypeId), TypeId)
    ensures IndexOfKey(types, TypeId, row.id).None? <==> row.id !in Keys(types, TypeId)
    ensures row.id !in Keys(types, TypeId) ==> forall i :: 0 <= i < |os| ==> os[i].contributionType != row.id
  {
    forall y | y in types && TypeSlug(y) == TypeSlug(row) ensures TypeId(y) == TypeId(row) {
      var i :| 0 <= i < |types| && types[i] == y;
    }
    UpsertContents(types, row, TypeId);
    UpsertKeepsUnique(types, row, TypeId, TypeSlug);
    UpsertKeepsBelow(types, row, TypeId, bound);
    UpsertKeys(types, row, TypeId);
    if IndexOfKey(types, TypeId, row.id).Some? {
      var i := IndexOfKey(types, TypeId, row.id).value;
      assert TypeId(types[i]) == row.id;
    }
  }

  /** `ContributionType.save` followed by its post-save fan-out. A kept slug that
      another type already holds breaks the column's uniqueness: IntegrityError,
      nothing written. */
  method SaveContributionType(db: Database, t: ContributionType, today: Date, now: nat)
    returns (r: Result<ContributionType, Error>, notified: seq<Id>)
    requires db.Valid() && ValidDate(today) && t.id < db.nextId
    modifies db`types, db`obligations, db`nextId
    ensures db.Valid()
    ensures r.Err? <==> KeepsSlug(t.slug, SlugBase(t.name)) && t.slug in OtherSlugs(old(db.types), t.id)
    ensures r.Err? ==>
      r.error == IntegrityError && notified == []
      && db.types == old(db.types) && db.obligations == old(db.obligations)
    ensures r.Ok? ==>
      r.value == t.(slug := r.value.slug)
      && r.value.slug !in OtherSlugs(old(db.types), t.id)
      && (KeepsSlug(t.slug, SlugBase(t.name)) ==> r.value.slug == t.slug)
      && (!KeepsSlug(t.slug, SlugBase(t.name)) ==> FirstFree(SlugBase(t.name), OtherSlugs(old(db.types), t.id), r.value.slug))
      && db.types == Upsert(old(db.types), r.value, TypeId)
    ensures r.Ok? && t.id in Keys(old(db.types), TypeId) ==>
      db.obligations == old(db.obligations) && notified == []
    ensures r.Ok? && t.id !in Keys(old(db.types), TypeId) ==>
      var targets := Signals.Targets(db.accounts, r.value);
      db.obligations == old(db.obligations)
        + Signals.Obligations(targets, r.value, Signals.DueFor(r.value, today), old(db.nextId), now)
      && notified == seq(|targets|, i => old(db.nextId) + i)
  {
    var slug := ChooseSlug(db.types, t);
    var others := OtherSlugs(db.types, t.id);
    if slug in others {
      return Err(IntegrityError), [];
    }
    var row := t.(slug := slug);
    var created := IndexOfKey(db.types, TypeId, t.id).None?;
    TypeUpsertKeepsValid(db.types, db.obligations, db.nextId, row);
    db.types := Upsert(db.types, row, TypeId);
    notified := Signals.CreateMemberContributions(db, row, created, today, now);
    r := Ok(row);
  }
}
