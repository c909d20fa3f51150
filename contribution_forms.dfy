/** The payment checkout form (its choice restriction, its field checks and its
    cross-field `clean`) and the fields the contribution type form exposes. */
module ContributionForms {
  import opened Base
  import opened Dates
  import opened Types
  import opened Text
  import ContributionModels

  /** The obligations the form offers: with a user, that user's NOT PAID ones;
      without one, all of them. */
  function SelectableObligations(os: seq<MemberContribution>, user: Option<Account>): (r: seq<MemberContribution>)
    ensures user.None? ==> r == os
    ensures user.Some? ==>
      (forall i :: 0 <= i < |r| ==> r[i] in os && r[i].account == user.value.id && r[i].status == NotPaid)
      && (forall i :: 0 <= i < |os| && os[i].account == user.value.id && os[i].status == NotPaid ==> os[i] in r)
  {
    match user
    case None => os
    case Some(u) => Filter(os, (o: MemberContribution) => o.account == u.id && o.status == NotPaid)
  }

  const TypeMismatch: string := "The selected member contribution does not match the contribution type."
  /** The two amount messages; both quote the submitted amount, not the amount
      due, and each says the opposite of the case it reports. */
  function AmountBelowDue(amount: Cents): string
  {
    "Payment exceeds outstanding balance (Required: R" + CentsToDecimal(amount) + ")."
  }

  function AmountAboveDue(amount: Cents): string
  {
    "Payment below outstanding balance (Required: R" + CentsToDecimal(amount) + ")."
  }

  /** `PaymentCheckoutForm.clean` on the cleaned values (None where a field is
      empty or failed its own check). With both an obligation and a type it
      checks that they agree and that the amount is exactly the amount due; a
      missing amount then reaches a comparison with None, a TypeError. */
  function CleanCheckout(mc: Option<MemberContribution>, ct: Option<ContributionType>, amount: Option<Cents>): (r: Result<(), Error>)
    ensures (mc.None? || ct.None?) ==> r == Ok(())
    ensures mc.Some? && ct.Some? && mc.value.contributionType != ct.value.id ==> r == Err(ValidationError(TypeMismatch))
    ensures mc.Some? && ct.Some? && mc.value.contributionType == ct.value.id && amount.None? ==> r == Err(TypeError)
    ensures mc.Some? && ct.Some? && mc.value.contributionType == ct.value.id && amount.Some? ==>
      (r.Ok? <==> amount.value == mc.value.amountDue)
      && (amount.value < mc.value.amountDue ==> r == Err(ValidationError(AmountBelowDue(amount.value))))
      && (amount.value > mc.value.amountDue ==> r == Err(ValidationError(AmountAboveDue(amount.value))))
  {
    if mc.Some? && ct.Some? then
      if mc.value.contributionType != ct.value.id then Err(ValidationError(TypeMismatch))
      else if amount.None? then Err(TypeError)
      else if mc.value.amountDue > amount.value then Err(ValidationError(AmountBelowDue(amount.value)))
      else if mc.value.amountDue < amount.value then Err(ValidationError(AmountAboveDue(amount.value)))
      else Ok(())
    else Ok(())
  }

  /** What a checkout POST submits: identifiers of the chosen rows (None when the
      field is empty), the amount in cents (None when empty or not a decimal with
      at most two places) and the payment method's text. */
  datatype CheckoutSubmission = CheckoutSubmission(
    contributionType: Option<Id>,
    memberContribution: Option<Id>,
    amount: Option<Cents>,
    paymentMethod: string)

  /** The validated form: the chosen rows, the amount and the method. */
  datatype CheckoutData = CheckoutData(
    contributionType: ContributionType,
    memberContribution: Option<MemberContribution>,
    amount: Cents,
    paymentMethod: PaymentMethod)

  /** Outcome of validating the form: valid, invalid (field or clean errors), or
      an exception raised by `clean`. */
  datatype FormOutcome = FormValid(data: CheckoutData) | FormInvalid | FormRaised(error: Error)

  function FindType(types: seq<ContributionType>, id: Id): (r: Option<ContributionType>)
    ensures r.Some? ==> r.value in types && r.value.id == id
    ensures r.None? ==> forall i :: 0 <= i < |types| ==> types[i].id != id
  {
    match IndexOfKey(types, TypeId, id)
    case None => None
    case Some(i) => Some(types[i])
  }

  function FindObligation(os: seq<MemberContribution>, id: Id): (r: Option<MemberContribution>)
    ensures r.Some? ==> r.value in os && r.value.id == id
    ensures r.None? ==> forall i :: 0 <= i < |os| ==> os[i].id != id
  {
    match IndexOfKey(os, ObligationId, id)
    case None => None
    case Some(i) => Some(os[i])
  }

  /** The cleaned contribution type: required, and one of the stored types. */
  function CleanedType(types: seq<ContributionType>, s: CheckoutSubmission): Option<ContributionType>
  {
    if s.contributionType.None? then None else FindType(types, s.contributionType.value)
  }

  /** The cleaned obligation: optional, and one of the selectable ones. */
  function CleanedObligation(os: seq<MemberContribution>, user: Option<Account>, s: CheckoutSubmission): Option<MemberContribution>
  {
    if s.memberContribution.None? then None
    else FindObligation(SelectableObligations(os, user), s.memberContribution.value)
  }

  /** The cleaned amount: required, and within ten digits with two decimals. */
  function CleanedAmount(s: CheckoutSubmission): Option<Cents>
  {
    if s.amount.Some? && -MaxCents < s.amount.value < MaxCents then s.amount else None
  }

  /** Whether every field passed its own check. */
  predicate FieldsValid(os: seq<MemberContribution>, types: seq<ContributionType>, user: Option<Account>, s: CheckoutSubmission)
  {
    CleanedType(types, s).Some?
    && (s.memberContribution.None? || CleanedObligation(os, user, s).Some?)
    && CleanedAmount(s).Some?
    && ParseMethod(s.paymentMethod).Some?
  }

  /** `is_valid()`: the field checks, then `clean` on what passed them (Django
      runs `clean` even after a field error). */
  function ValidateCheckout(os: seq<MemberContribution>, types: seq<ContributionType>, user: Option<Account>, s: CheckoutSubmission): (r: FormOutcome)
    ensures r.FormValid? ==> FieldsValid(os, types, user, s)
    ensures r.FormValid? ==> r.data.contributionType in types && r.data.paymentMethod == ParseMethod(s.paymentMethod).value
    ensures r.FormValid? && r.data.memberContribution.Some? ==>
      r.data.memberContribution.value in SelectableObligations(os, user)
      && r.data.memberContribution.value.contributionType == r.data.contributionType.id
      && r.data.amount == r.data.memberContribution.value.amountDue
  {
    var ct := CleanedType(types, s);
    var mc := CleanedObligation(os, user, s);
    var amount := CleanedAmount(s);
    match CleanCheckout(mc, ct, amount)
    case Err(TypeError) => FormRaised(TypeError)
    case Err(_) => FormInvalid
    case Ok(_) =>
      if FieldsValid(os, types, user, s) then
        FormValid(CheckoutData(ct.value, mc, amount.value, ParseMethod(s.paymentMethod).value))
      else FormInvalid
  }

  /** A requester choosing an obligation that is not their own NOT PAID one never
      gets a valid form: this is what a staff member paying for someone else
      meets, since the view restricts the choices to the requester. */
  lemma ForeignObligationRejected(os: seq<MemberContribution>, types: seq<ContributionType>, requester: Account, s: CheckoutSubmission, i: nat)
    requires i < |os| && s.memberContribution == Some(os[i].id) && UniqueBy(os, ObligationId)
    requires os[i].account != requester.id
    ensures !ValidateCheckout(os, types, Some(requester), s).FormValid?
  {
    var sel := SelectableObligations(os, Some(requester));
    var found := FindObligation(sel, os[i].id);
    if found.Some? {
      var v := found.value;
      assert v in os && v.id == os[i].id && v.account == requester.id;
      var j :| 0 <= j < |os| && os[j] == v;
    }
  }

  /** With the optional obligation field left blank, `clean` has nothing to
      compare, so any amount within the field's range passes: this is the
      only way a staff member gets a valid form when paying for someone else,
      and the payment then links no obligation. */
  lemma BlankObligationSkipsAmountCheck(os: seq<MemberContribution>, types: seq<ContributionType>, user: Option<Account>,
                                        s: CheckoutSubmission, k: nat)
    requires k < |types| && s.contributionType == Some(types[k].id) && s.memberContribution.None?
    requires s.amount.Some? && -MaxCents < s.amount.value < MaxCents && ParseMethod(s.paymentMethod).Some?
    ensures var v := ValidateCheckout(os, types, user, s);
      v.FormValid? && v.data.memberContribution.None? && v.data.amount == s.amount.value
  {
    assert FindType(types, types[k].id).Some?;
  }

  /** The fields of the contribution type form. */
  const ContributionTypeFormFields: seq<string> := ["name", "description", "category", "amount", "recurrence", "due_date"]

  /** The validated values of that form the model keeps. */
  datatype TypeFormData = TypeFormData(name: string, amount: Cents, recurrence: Recurrence, dueDate: Option<Date>)

  /** A contribution type built from that form: scope and family are not among
      its fields, so they keep their defaults (clan, no family), and the slug
      starts blank. */
  function TypeFromForm(id: Id, data: TypeFormData): ContributionType
  {
    ContributionType(id, data.name, "", data.amount, data.recurrence, ClanScope, data.dueDate, None, None)
  }

  /** Every type created through the form passes `clean`. */
  lemma FormTypesPassClean(id: Id, data: TypeFormData)
    ensures "scope" !in ContributionTypeFormFields && "family" !in ContributionTypeFormFields
    ensures ContributionModels.Clean(TypeFromForm(id, data)).Ok?
  {
  }
}
