/** The payment entry paths: the member checkout, the payment gateway's callback
    and the treasurer's manual log. Each view's `transaction.atomic` block is a
    single step that either commits both of its writes or, when it raises, leaves
    the tables as they were. Rendering, messages, redirects and the queued
    emails are reduced to the outcome each path returns. */
module Checkout {
  import opened Base
  import opened Dates
  import opened Types
  import opened Text
  import opened Store
  import opened ContributionModels
  import opened ContributionForms

  // ---- checkout ----

  /** Only the obligation's owner, or staff, may pay it. */
  predicate CanPay(requester: Account, mc: MemberContribution)
  {
    mc.account == requester.id || requester.isStaff
  }

  /** The account the payment is recorded for: the owner when staff pays someone
      else's obligation, otherwise the requester. */
  function Payer(requester: Account, mc: MemberContribution): Id
  {
    if requester.isStaff && mc.account != requester.id then mc.account else requester.id
  }

  /** Whenever paying is allowed, the payer is the obligation's owner. */
  lemma PayerIsOwner(requester: Account, mc: MemberContribution)
    requires CanPay(requester, mc)
    ensures Payer(requester, mc) == mc.account
    ensures requester.isStaff && mc.account != requester.id ==> Payer(requester, mc) != requester.id
  {
  }

  datatype CheckoutOutcome =
    | CheckoutNotFound
    | OnlyOwnContributions
    | CheckoutFormShown
    | CheckoutFormErrors
    | CheckoutServerError(error: Error)
    | RecordingFailed
    | PaymentDetailsSent(mcId: Id)
    | YocoCheckoutRedirect(paymentId: Id)
    | InvalidMethodRedirect(mcId: Id)

  /** Everything the view decides before its atomic block: stop with an outcome,
      or go on with the validated form, the obligation of the URL and the payer. */
  datatype CheckoutGate =
    | Stop(outcome: CheckoutOutcome)
    | Proceed(data: CheckoutData, urlObligation: MemberContribution, payer: Id)

  function Gate(os: seq<MemberContribution>, types: seq<ContributionType>, requester: Account, mcId: Id, isPost: bool, s: CheckoutSubmission): (g: CheckoutGate)
    ensures g.Proceed? ==>
      isPost && g.urlObligation in os && g.urlObligation.id == mcId
      && CanPay(requester, g.urlObligation) && g.payer == Payer(requester, g.urlObligation)
      && ValidateCheckout(os, types, Some(requester), s) == FormValid(g.data)
  {
    match FindObligation(os, mcId)
    case None => Stop(CheckoutNotFound)
    case Some(mc) =>
      if !CanPay(requester, mc) then Stop(OnlyOwnContributions)
      else if !isPost then Stop(CheckoutFormShown)
      else
        match ValidateCheckout(os, types, Some(requester), s)
        case FormInvalid => Stop(CheckoutFormErrors)
        case FormRaised(e) => Stop(CheckoutServerError(e))
        case FormValid(data) => Proceed(data, mc, Payer(requester, mc))
  }

  /** A requester who is neither the owner nor staff is turned away before any
      form is looked at. */
  lemma NonOwnerRejected(os: seq<MemberContribution>, types: seq<ContributionType>, requester: Account, mcId: Id, isPost: bool, s: CheckoutSubmission, i: nat)
    requires UniqueBy(os, ObligationId) && i < |os| && os[i].id == mcId
    requires os[i].account != requester.id && !requester.isStaff
    ensures Gate(os, types, requester, mcId, isPost, s) == Stop(OnlyOwnContributions)
  {
    IndexOfUnique(os, mcId, i);
  }

  /** The payment row the atomic block builds. */
  function CheckoutPayment(id: Id, data: CheckoutData, payer: Id, requester: Account, methodText: string, reference: Option<string>, today: Date): Payment
  {
    Payment(
      id, payer, Some(data.contributionType.id),
      if data.memberContribution.Some? then Some(data.memberContribution.value.id) else None,
      data.paymentMethod, data.amount, reference, today, Some(requester.id), Some(methodText), None)
  }

  /** Staff paying for someone else records the payment for the owner and
      themselves as recorder; anyone else is both. */
  lemma CheckoutPaymentParties(id: Id, data: CheckoutData, requester: Account, mc: MemberContribution, methodText: string, today: Date)
    requires CanPay(requester, mc)
    ensures var p := CheckoutPayment(id, data, Payer(requester, mc), requester, methodText, mc.reference, today);
      p.account == mc.account && p.recordedBy == Some(requester.id) && p.reference == mc.reference
      && (mc.account == requester.id ==> p.account == requester.id)
  {
  }

  /** The obligation table after the block commits: the payment save's
      recompute, and then the explicit PENDING write. */
  function AfterCheckout(os: seq<MemberContribution>, payments: seq<Payment>, link: Option<Id>, now: nat): seq<MemberContribution>
  {
    SetStatus(AfterPaymentSave(os, payments, link, now), link, Pending, now)
  }

  /** A committed checkout leaves its obligation PENDING, whatever the sum of its
      payments: the explicit write comes after the recompute. Other rows keep
      what the recompute gave them, which for them is nothing. */
  lemma {:induction false} CheckoutLeavesPending(os: seq<MemberContribution>, payments: seq<Payment>, id: Id, now: nat, i: nat)
    requires UniqueBy(os, ObligationId) && i < |os| && os[i].id == id
    ensures var r := AfterCheckout(os, payments, Some(id), now);
      |r| == |os| && r[i].status == Pending && r[i].amountDue == os[i].amountDue
      && forall j :: 0 <= j < |os| && j != i ==> r[j] == os[j]
  {
    var mid := Reconcile(os, payments, id, now);
    ReconcileSetsStatus(os, payments, id, now, i);
    ReconcileKeepsUnique(os, payments, id, now);
    SetStatusSets(mid, id, Pending, now, i);
  }

  /** Where the view sends the requester once the block has committed. */
  function Route(m: PaymentMethod, urlMcId: Id, paymentId: Id): CheckoutOutcome
  {
    match m
    case Cash => PaymentDetailsSent(urlMcId)
    case Bank => PaymentDetailsSent(urlMcId)
    case Mobile => YocoCheckoutRedirect(paymentId)
    case OtherMethod => InvalidMethodRedirect(urlMcId)
  }

  /** The checkout as written: the block assigns `Payment.LogPaymentStatus`,
      which the Payment model does not declare, before it saves anything, so
      every attempt that passes the form ends in the except branch with nothing
      recorded. */
  function CheckoutOutcomeAsWritten(os: seq<MemberContribution>, types: seq<ContributionType>, requester: Account, mcId: Id, isPost: bool, s: CheckoutSubmission): (r: CheckoutOutcome)
    ensures !r.PaymentDetailsSent? && !r.YocoCheckoutRedirect? && !r.InvalidMethodRedirect?
    ensures Gate(os, types, requester, mcId, isPost, s).Proceed? ==> r == RecordingFailed
  {
    match Gate(os, types, requester, mcId, isPost, s)
    case Stop(o) => o
    case Proceed(_, _, _) => RecordingFailed
  }

  /** An owner paying the exact amount due by cash still gets the failure
      message as written. */
  lemma CheckoutAlwaysFailsAsWritten(os: seq<MemberContribution>, types: seq<ContributionType>, requester: Account, s: CheckoutSubmission, i: nat, k: nat)
    requires UniqueBy(os, ObligationId) && i < |os| && k < |types|
    requires os[i].account == requester.id && os[i].status == NotPaid && os[i].contributionType == types[k].id
    requires -MaxCents < os[i].amountDue < MaxCents
    requires UniqueBy(types, TypeId)
    requires s == CheckoutSubmission(Some(types[k].id), Some(os[i].id), Some(os[i].amountDue), "cash")
    ensures Gate(os, types, requester, os[i].id, true, s).Proceed?
    ensures CheckoutOutcomeAsWritten(os, types, requester, os[i].id, true, s) == RecordingFailed
  {
    IndexOfKeyUnique(os, ObligationId, i);
    IndexOfKeyUnique(types, TypeId, k);
    var sel := SelectableObligations(os, Some(requester));
    FilterKeepsUnique(os, (o: MemberContribution) => o.account == requester.id && o.status == NotPaid, ObligationId);
    assert os[i] in sel;
    var j :| 0 <= j < |sel| && sel[j] == os[i];
    IndexOfKeyUnique(sel, ObligationId, j);
  }

  /** The view never compares the obligation of its URL with the one chosen in
      the form. Staff opening another member's obligation may choose one of
      their own: the payment is then recorded for the URL obligation's owner,
      with that obligation's reference, but links the staff member's own
      obligation, and the block leaves that one PENDING and the URL's
      untouched. */
  lemma CheckoutLinksFormObligation(os: seq<MemberContribution>, types: seq<ContributionType>, payments: seq<Payment>,
                                    requester: Account, s: CheckoutSubmission, u: nat, i: nat, k: nat, id: Id, today: Date, now: nat)
    requires UniqueBy(os, ObligationId) && UniqueBy(types, TypeId) && u < |os| && i < |os| && k < |types|
    requires requester.isStaff && os[u].account != requester.id
    requires os[i].account == requester.id && os[i].status == NotPaid && os[i].contributionType == types[k].id
    requires -MaxCents < os[i].amountDue < MaxCents
    requires s == CheckoutSubmission(Some(types[k].id), Some(os[i].id), Some(os[i].amountDue), "cash")
    ensures var g := Gate(os, types, requester, os[u].id, true, s);
      g.Proceed? && g.urlObligation == os[u] && g.payer == os[u].account
      && var p := CheckoutPayment(id, g.data, g.payer, requester, s.paymentMethod, g.urlObligation.reference, today);
         p.account == os[u].account && p.reference == os[u].reference && p.memberContribution == Some(os[i].id)
         && var r := AfterCheckout(os, payments, p.memberContribution, now);
            r[i].status == Pending && r[u] == os[u]
  {
    OwnSelectionValidates(os, types, requester, s, i, k);
    IndexOfKeyUnique(os, ObligationId, u);
    assert FindObligation(os, os[u].id) == Some(os[u]);
    CheckoutLeavesPending(os, payments, os[i].id, now, i);
  }

  /** A requester's own NOT PAID obligation, chosen with its amount due, passes
      the checkout form. */
  lemma OwnSelectionValidates(os: seq<MemberContribution>, types: seq<ContributionType>, requester: Account,
                              s: CheckoutSubmission, i: nat, k: nat)
    requires UniqueBy(os, ObligationId) && UniqueBy(types, TypeId) && i < |os| && k < |types|
    requires os[i].account == requester.id && os[i].status == NotPaid && os[i].contributionType == types[k].id
    requires -MaxCents < os[i].amountDue < MaxCents
    requires s == CheckoutSubmission(Some(types[k].id), Some(os[i].id), Some(os[i].amountDue), "cash")
    ensures ValidateCheckout(os, types, Some(requester), s) == FormValid(CheckoutData(types[k], Some(os[i]), os[i].amountDue, Cash))
  {
    IndexOfKeyUnique(types, TypeId, k);
    var sel := SelectableObligations(os, Some(requester));
    FilterKeepsUnique(os, (o: MemberContribution) => o.account == requester.id && o.status == NotPaid, ObligationId);
    assert os[i] in sel;
    var j :| 0 <= j < |sel| && sel[j] == os[i];
    IndexOfKeyUnique(sel, ObligationId, j);
  }

  /** The checkout's atomic block, with the undeclared approval assignment left
      out: save the new payment (which recomputes its obligation), then write
      PENDING to the obligation. */
  method RecordCheckout(db: Database, data: CheckoutData, payer: Id, requester: Account, methodText: string,
                        reference: Option<string>, today: Date, now: nat) returns (p: Payment)
    requires db.Valid()
    modifies db`payments, db`obligations, db`nextId
    ensures db.Valid()
    ensures p == CheckoutPayment(old(db.nextId), data, payer, requester, methodText, reference, today)
    ensures db.payments == old(db.payments) + [p]
    ensures db.obligations == AfterCheckout(old(db.obligations), db.payments, p.memberContribution, now)
  {
    var id := db.FreshId();
    p := CheckoutPayment(id, data, payer, requester, methodText, reference, today);
    UpsertFresh(db.payments, p, PaymentId, id);
    var saved := SavePayment(db, p, today, now);
    UpdateMemberContributionStatus(db, p, Pending, now);
  }

  /** `checkout`. A committed block appends the payment and leaves its
      obligation PENDING; nothing is written on any other path. */
  method Checkout(db: Database, requester: Account, mcId: Id, isPost: bool, s: CheckoutSubmission, today: Date, now: nat)
    returns (outcome: CheckoutOutcome)
    requires db.Valid()
    modifies db`payments, db`obligations, db`nextId
    ensures db.Valid()
    ensures var g := Gate(old(db.obligations), old(db.types), requester, mcId, isPost, s);
      (g.Stop? ==> outcome == g.outcome && db.payments == old(db.payments) && db.obligations == old(db.obligations))
      && (g.Proceed? ==>
            var p := CheckoutPayment(old(db.nextId), g.data, g.payer, requester, s.paymentMethod, g.urlObligation.reference, today);
            db.payments == old(db.payments) + [p]
            && db.obligations == AfterCheckout(old(db.obligations), db.payments, p.memberContribution, now)
            && outcome == Route(g.data.paymentMethod, mcId, p.id))
  {
    var g := Gate(db.obligations, db.types, requester, mcId, isPost, s);
    if g.Stop? {
      return g.outcome;
    }
    var p := RecordCheckout(db, g.data, g.payer, requester, s.paymentMethod, g.urlObligation.reference, today, now);
    outcome := Route(g.data.paymentMethod, mcId, p.id);
  }

  // ---- yoco_callback ----

  /** The posted callback fields; None where a field is absent. */
  datatype CallbackRequest = CallbackRequest(transactionId: Option<string>, status: Option<string>, signature: Option<string>)

  datatype CallbackOutcome =
    | CallbackBadRequest
    | CallbackForbidden
    | CallbackNotFound
    | CallbackServerError
    | CallbackPaid(mcId: Id)
    | CallbackFailed(mcId: Id)

  /** Before the atomic block: reject with a status code, or settle one payment. */
  datatype CallbackStep = Reject(outcome: CallbackOutcome) | Settle(payment: Payment, success: bool)

  /** The payment a transaction identifier finds: among the payments whose
      masked-card field holds it, the first in the default order, newest payment
      date first. */
  function PaymentForTransaction(payments: seq<Payment>, txn: string): (r: Option<Payment>)
    ensures r.None? <==> forall i :: 0 <= i < |payments| ==> payments[i].maskedCard != Some(txn)
    ensures r.Some? ==> r.value in payments && r.value.maskedCard == Some(txn)
    ensures r.Some? ==> forall i :: 0 <= i < |payments| && payments[i].maskedCard == Some(txn) ==>
      DateKey(payments[i].paymentDate) <= DateKey(r.value.paymentDate)
  {
    var matches := Filter(payments, (p: Payment) => p.maskedCard == Some(txn));
    if |matches| == 0 then None
    else
      var sorted := SortDesc(matches, PaymentDateKey);
      assert sorted[0] in multiset(matches);
      assert forall i :: 0 <= i < |payments| && payments[i].maskedCard == Some(txn) ==> payments[i] in multiset(sorted);
      Some(sorted[0])
  }

  /** The decision table. `sigMatches(secret, txn, status, signature)` stands for
      the HMAC-SHA256 comparison. The status is compared in lower case; the
      signature is checked only when both a secret and a signature are present. */
  function CallbackDecision(payments: seq<Payment>, secret: string, req: CallbackRequest,
                            sigMatches: (string, string, string, string) -> bool): CallbackStep
  {
    var txn := if req.transactionId.Some? then req.transactionId.value else "";
    var status := LowerAscii(if req.status.Some? then req.status.value else "");
    if |txn| == 0 || |status| == 0 then Reject(CallbackBadRequest)
    else if |secret| > 0 && req.signature.Some? && |req.signature.value| > 0
         && !sigMatches(secret, txn, status, req.signature.value) then Reject(CallbackForbidden)
    else
      match PaymentForTransaction(payments, txn)
      case None => Reject(CallbackNotFound)
      case Some(p) => Settle(p, status == "success")
  }

  /** Missing fields give 400; a present secret and signature that do not match
      give 403; a missing signature or secret skips the check altogether. */
  lemma CallbackRejections(payments: seq<Payment>, secret: string, req: CallbackRequest,
                           sigA: (string, string, string, string) -> bool, sigB: (string, string, string, string) -> bool)
    ensures (req.transactionId.None? || req.status.None?) ==>
      CallbackDecision(payments, secret, req, sigA) == Reject(CallbackBadRequest)
    ensures (req.transactionId.Some? && req.status.Some? && |req.transactionId.value| > 0 && |req.status.value| > 0
             && |secret| > 0 && req.signature.Some? && |req.signature.value| > 0
             && !sigA(secret, req.transactionId.value, LowerAscii(req.status.value), req.signature.value)) ==>
      CallbackDecision(payments, secret, req, sigA) == Reject(CallbackForbidden)
    ensures (|secret| == 0 || req.signature.None?) ==>
      CallbackDecision(payments, secret, req, sigA) == CallbackDecision(payments, secret, req, sigB)
  {
  }

  /** An unknown transaction is 404; a known one is settled as a success exactly
      when the lower-cased status is "success". */
  lemma CallbackSettles(payments: seq<Payment>, secret: string, txn: string, status: string,
                        sig: Option<string>, sigMatches: (string, string, string, string) -> bool)
    requires |txn| > 0 && |status| > 0
    requires |secret| == 0 || sig.None? || |sig.value| == 0 || sigMatches(secret, txn, LowerAscii(status), sig.value)
    ensures var d := CallbackDecision(payments, secret, CallbackRequest(Some(txn), Some(status), sig), sigMatches);
      (PaymentForTransaction(payments, txn).None? ==> d == Reject(CallbackNotFound))
      && (PaymentForTransaction(payments, txn).Some? ==>
            d == Settle(PaymentForTransaction(payments, txn).value, LowerAscii(status) == "success"))
  {
    var req := CallbackRequest(Some(txn), Some(status), sig);
    assert req.transactionId.value == txn && req.status.value == status;
    var st := LowerAscii(status);
    assert |st| == |status| > 0;
    var d := CallbackDecision(payments, secret, req, sigMatches);
    assert d == (match PaymentForTransaction(payments, txn)
                 case None => Reject(CallbackNotFound)
                 case Some(p) => Settle(p, st == "success"));
  }

  /** The obligation table after a settled callback with a linked obligation:
      the payment save's recompute, then PAID on success, NOT PAID otherwise. */
  function AfterCallback(os: seq<MemberContribution>, payments: seq<Payment>, link: Option<Id>, success: bool, now: nat): seq<MemberContribution>
  {
    SetStatus(AfterPaymentSave(os, payments, link, now), link, if success then Paid else NotPaid, now)
  }

  /** The failure branch as written: NOT PAID is written first and the payment
      save's recompute runs after it, so the recompute has the last word. */
  function FailureAsWritten(os: seq<MemberContribution>, payments: seq<Payment>, link: Option<Id>, now: nat): seq<MemberContribution>
  {
    AfterPaymentSave(SetStatus(os, link, NotPaid, now), payments, link, now)
  }

  /** As written, a failed transaction on an obligation whose payments already
      cover it leaves the obligation PAID. */
  lemma {:induction false} FailedCallbackEndsPaidAsWritten(os: seq<MemberContribution>, payments: seq<Payment>, id: Id, now: nat, i: nat)
    requires UniqueBy(os, ObligationId) && i < |os| && os[i].id == id
    requires TotalPaid(payments, id) >= os[i].amountDue
    ensures FailureAsWritten(os, payments, Some(id), now)[i].status == Paid
  {
    var mid := SetStatus(os, Some(id), NotPaid, now);
    SetStatusSets(os, id, NotPaid, now, i);
    SetStatusKeepsUnique(os, Some(id), NotPaid, now);
    ReconcileSetsStatus(mid, payments, id, now, i);
  }

  /** With the save moved before the status write, the callback's own verdict
      decides: PAID on success, NOT PAID on failure. */
  lemma {:induction false} CallbackVerdictStands(os: seq<MemberContribution>, payments: seq<Payment>, id: Id, success: bool, now: nat, i: nat)
    requires UniqueBy(os, ObligationId) && i < |os| && os[i].id == id
    ensures var r := AfterCallback(os, payments, Some(id), success, now);
      r[i].status == (if success then Paid else NotPaid)
      && forall j :: 0 <= j < |os| && j != i ==> r[j] == os[j]
  {
    var mid := Reconcile(os, payments, id, now);
    ReconcileSetsStatus(os, payments, id, now, i);
    ReconcileKeepsUnique(os, payments, id, now);
    SetStatusSets(mid, id, if success then Paid else NotPaid, now, i);
  }

  /** `yoco_callback`, with the failure branch saving the payment before it
      writes NOT PAID. A payment with no obligation fails on the redirect inside
      the block, which then rolls back. */
  method YocoCallback(db: Database, secret: string, req: CallbackRequest,
                      sigMatches: (string, string, string, string) -> bool, today: Date, now: nat)
    returns (outcome: CallbackOutcome)
    requires db.Valid()
    modifies db`payments, db`obligations
    ensures db.Valid()
    ensures var d := CallbackDecision(old(db.payments), secret, req, sigMatches);
      (d.Reject? ==> outcome == d.outcome && db.payments == old(db.payments) && db.obligations == old(db.obligations))
      && (d.Settle? && d.payment.memberContribution.None? ==>
            outcome == CallbackServerError && db.payments == old(db.payments) && db.obligations == old(db.obligations))
      && (d.Settle? && d.payment.memberContribution.Some? ==>
            db.payments == Upsert(old(db.payments), d.payment, PaymentId)
            && db.obligations == AfterCallback(old(db.obligations), db.payments, d.payment.memberContribution, d.success, now)
            && outcome == (if d.success then CallbackPaid(d.payment.memberContribution.value)
                           else CallbackFailed(d.payment.memberContribution.value)))
  {
    var d := CallbackDecision(db.payments, secret, req, sigMatches);
    if d.Reject? {
      return d.outcome;
    }
    var p := d.payment;
    if p.memberContribution.None? {
      return CallbackServerError;
    }
    assert p in db.payments;
    assert p.id < db.nextId;
    assert IndexOfKey(db.payments, PaymentId, p.id).Some?;
    var saved := SavePayment(db, p, today, now);
    UpdateMemberContributionStatus(db, saved, if d.success then Paid else NotPaid, now);
    outcome := if d.success then CallbackPaid(p.memberContribution.value) else CallbackFailed(p.memberContribution.value);
  }

  // ---- log_payment ----

  /** Who may log a payment by hand: treasurers and staff. */
  predicate MayLogPayment(user: Account)
  {
    user.role == Treasurer || user.isStaff
  }

  /** The guard as written: `Role.TREASURER` is evaluated before `is_staff`.
      When the name resolves, the guard turns away exactly the users who may
      not log payments; when it does not, the guard raises. */
  function LogPaymentGuardAsWritten(user: Account): (r: Result<bool, Error>)
    ensures r.Err? <==> RoleAttr("TREASURER").Err?
    ensures r.Err? ==> r.error == AttributeError
    ensures r.Ok? ==> (r.value <==> !MayLogPayment(user))
  {
    match RoleAttr("TREASURER")
    case Err(e) => Err(e)
    case Ok(treasurer) => Ok(user.role != treasurer && !user.isStaff)
  }

  /** A staff member, whom the guard means to let in, is turned away by an
      exception as written, because Role declares no TREASURER. */
  lemma StaffCannotLogAsWritten(user: Account)
    requires user.isStaff
    ensures MayLogPayment(user) && LogPaymentGuardAsWritten(user) == Err(AttributeError)
  {
  }

  /** The fields of the manual log form the block uses. */
  datatype LogPaymentData = LogPaymentData(contributionType: Option<Id>, amount: Cents, paymentMethod: PaymentMethod)

  datatype LogOutcome = OnlyTreasurers | LogNotFound | LogFormShown | LogFormErrors | Logged(mcId: Id)

  /** The payment the manual log records. */
  function LoggedPayment(id: Id, data: LogPaymentData, mc: MemberContribution, recorder: Account, today: Date): Payment
  {
    Payment(id, mc.account, data.contributionType, Some(mc.id), data.paymentMethod, data.amount,
            mc.reference, today, Some(recorder.id), None, None)
  }

  /** The logged payment belongs to the obligation's owner, is linked to the
      obligation, carries its reference, and names the logging user. */
  lemma LoggedPaymentLinks(id: Id, data: LogPaymentData, mc: MemberContribution, recorder: Account, today: Date)
    ensures var p := LoggedPayment(id, data, mc, recorder, today);
      p.account == mc.account && p.memberContribution == Some(mc.id)
      && p.reference == mc.reference && p.recordedBy == Some(recorder.id)
  {
  }

  /** `log_payment`, for the guard the view means (treasurer or staff) and with
      the undeclared approval assignment left out. `form` is the validated form,
      None when it did not validate. */
  method LogPayment(db: Database, requester: Account, mcId: Id, isPost: bool, form: Option<LogPaymentData>, today: Date, now: nat)
    returns (outcome: LogOutcome)
    requires db.Valid()
    modifies db`payments, db`obligations, db`nextId
    ensures db.Valid()
    ensures !MayLogPayment(requester) ==>
      outcome == OnlyTreasurers && db.payments == old(db.payments) && db.obligations == old(db.obligations)
    ensures MayLogPayment(requester) && FindObligation(old(db.obligations), mcId).None? ==>
      outcome == LogNotFound && db.payments == old(db.payments) && db.obligations == old(db.obligations)
    ensures outcome.Logged? <==> MayLogPayment(requester) && FindObligation(old(db.obligations), mcId).Some? && isPost && form.Some?
    ensures !outcome.Logged? ==> db.payments == old(db.payments) && db.obligations == old(db.obligations)
    ensures outcome.Logged? ==>
      var p := LoggedPayment(old(db.nextId), form.value, FindObligation(old(db.obligations), mcId).value, requester, today);
      outcome.mcId == mcId
      && db.payments == old(db.payments) + [p]
      && db.obligations == AfterPaymentSave(old(db.obligations), db.payments, Some(mcId), now)
  {
    if !MayLogPayment(requester) {
      return OnlyTreasurers;
    }
    var found := FindObligation(db.obligations, mcId);
    if found.None? {
      return LogNotFound;
    }
    if !isPost {
      return LogFormShown;
    }
    if form.None? {
      return LogFormErrors;
    }
    var id := db.FreshId();
    var p := LoggedPayment(id, form.value, found.value, requester, today);
    UpsertFresh(db.payments, p, PaymentId, id);
    var saved := SavePayment(db, p, today, now);
    outcome := Logged(mcId);
  }
}
