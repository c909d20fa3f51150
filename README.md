# Bakgomong clan contribution tracker, modelled in Dafny

This project models the bookkeeping core of the Bakgomong clan contribution
tracker, a Django application: a clan records **contribution types** (a
monthly fee, a funeral fund, ...). Creating one fans out one **member
contribution** (an obligation) to every eligible account. Members pay through
a checkout, a card gateway callback, or a treasurer's manual log. Each saved
**payment** recomputes the status of its obligation. Around that core sit the
aggregate views (per type, per family, per list), the access rules for clan
documents, the meeting audience helpers and the user-form validators.

Layout (one module per source file, plus shared modules):

- `base.dfy` (`Base`) holds the generic table operations: lookup and upsert by key, descending insertion sort (Django's `order_by("-field")`), keyed sums and a group-by.
- `dates.dfy` (`Dates`) holds calendar dates and the month, year and day shifts.
- `text.dfy` (`Text`) holds an ASCII model of `slugify`, lower-casing, number and amount rendering, and the numbered slug candidates.
- `types.dfy` (`Types`) holds the records and their choice sets.
- `store.dfy` (`Store`) holds the persisted state, a `Database` class with one sequence per table. Its `Valid()` states the declared database constraints: primary keys, the `unique=True` columns of the modelled fields (except the two listed under "## Left out"), the one-to-one family leader, `unique_together`, and the obligation's foreign key.
- The remaining modules follow the source files: `ContributionModels`, `Signals`, `ContributionForms`, `Checkout`, `AccountModels`, `MemberContributionViews`, `ContributionViews`, `FamilyViews`, `Dashboard`, `AccountForms`.

Modelling conventions:

- Money is integer cents, identifiers are natural numbers, and `today` and `now` are parameters.
- The random `uuid4` keys become a counter (`Database.nextId`).
- A save that breaks a database constraint yields `Err(IntegrityError)` and writes nothing.
- An exception raised inside `transaction.atomic()` rolls the block back; it is modelled as a result in which the tables are unchanged.
- The HMAC signature check of the gateway callback is the abstract predicate `sigMatches`.
- A meeting's `%Y%m%d%H%M` date stamp is taken as given.

Where the source refers to names its own declarations lack, the model follows
what the code does. This applies to `PaymentStatus.PARTIALLY_PAID`, to five
roles of `Role`, and to `Payment.LogPaymentStatus`; each is an
AttributeError when evaluated. Each such spot has a member that models the
code as written, a lemma showing the consequence, and a corrected member that
the rest of the model uses (see "## Findings").

Two behaviours are modelled exactly as written. The checkout form's two amount
messages say the opposite of the case they report: an amount below the amount
due gets "Payment exceeds outstanding balance". The checkout form also offers
only the requester's own obligations. Staff paying on another member's
obligation therefore fail validation when they select it
(`ContributionForms.ForeignObligationRejected`). They still pass in two ways.
With the optional obligation field blank, no amount check applies and the
payment links no obligation (`ContributionForms.BlankObligationSkipsAmountCheck`).
With one of their own NOT PAID obligations selected, the view never compares it
with the obligation of the URL: the payment is recorded for the URL
obligation's owner with that obligation's reference, but links, and leaves
PENDING, the staff member's own obligation
(`Checkout.CheckoutLinksFormObligation`). An owner who selects another of their
own obligations gets the same mismatch.

## Model

| member | source | states |
|---|---|---|
| Types.RoleAttr | accounts/utils/abstracts.py:26-29 | `Role.<name>` resolves exactly for the names of the three declared roles, to the role the name stands for; every other name is an AttributeError |
| Types.ParseMethod | contributions/models.py:19-23 | a submitted payment method is accepted exactly when it is one of the four stored values |
| ContributionModels.Clean | contributions/models.py:105-116 | accepts iff (scope is FAMILY ⇔ a family is set); each violation gets its own message |
| ContributionModels.TotalCollectedNone | contributions/models.py:118-122 | with no payment of the type the total collected is 0 |
| ContributionModels.TotalCollectedAppend | contributions/models.py:118-122 | one more payment raises the total by its amount exactly when it is of the type |
| ContributionModels.BalanceWithoutPayments | contributions/models.py:151-156 | with no linked payment the balance is the amount due |
| ContributionModels.BalanceAfterPayment | contributions/models.py:151-156 | a linked payment lowers the balance by its amount; any other payment leaves it |
| ContributionModels.Recompute | contributions/models.py:207-211 | PAID iff paid ≥ due, PARTIALLY_PAID iff 0 < paid < due, NOT PAID otherwise |
| ContributionModels.RecomputeAsWritten | contributions/models.py:208-211 | as written the partial case raises AttributeError; every other case agrees with the recompute and yields a declared status |
| ContributionModels.PartialPaymentRaises | contributions/models.py:207-211 | a first R50 payment towards R100 cannot be saved as written |
| ContributionModels.ReconcileSetsStatus | contributions/models.py:205-215 | after the recompute the obligation holds the status derived from its payment sum, other rows are untouched, and nothing is written when the status is unchanged |
| ContributionModels.ReconcileIdempotent | contributions/models.py:213-215 | a second recompute with no new payment writes nothing |
| ContributionModels.SetStatusSets | contributions/models.py:191-198 | the status update sets exactly the given status on the linked obligation and changes no other row |
| ContributionModels.AfterPaymentSaveKeepsValid | contributions/models.py:200-215 | the recompute keeps every obligation-table constraint |
| ContributionModels.SavePayment | contributions/models.py:200-215 | the payment is upserted by id (a new one dated today) and the obligation table becomes the recompute of its link; constraints hold |
| ContributionModels.UpdateMemberContributionStatus | contributions/models.py:191-198 | without a link nothing changes; otherwise the linked obligation gets the status |
| ContributionModels.NewPaymentStatus | contributions/models.py:200-215 | saving a new linked payment leaves its obligation PAID iff earlier payments plus this amount reach the amount due |
| ContributionModels.SlugBase | contributions/models.py:95 | the slug base is never empty (falls back to "contribution") |
| ContributionModels.OtherSlugs | contributions/models.py:99 | exactly the slugs of the other contribution types |
| ContributionModels.UniqueSlug | contributions/models.py:97-101 | the loop ends, and returns the first of base, base-1, base-2, ... that no other type holds |
| ContributionModels.ChooseSlug | contributions/models.py:95-102 | a non-empty slug that slugifies to the base is kept; otherwise the first free candidate is chosen |
| ContributionModels.TypeUpsertKeepsValid | contributions/models.py:93-103 | storing a type whose slug no other type holds keeps the type and obligation constraints; a new type has no obligations yet |
| ContributionModels.SaveContributionType | contributions/models.py:93-103 | a kept slug held by another type is an IntegrityError with no change; otherwise the row is stored with a unique slug, and a newly created type gets its fan-out |
| Signals.DueDateMeaning | contributions/signals.py:16-26 | monthly is the next month's same day clamped to its length, annual is a year on (29 Feb to 28 Feb), once-off is 7 days on, anything else is today |
| Signals.Targets | contributions/signals.py:39-73 | exactly the accounts eligible for the type's scope |
| Signals.TargetsUnique | contributions/signals.py:41-70 | the targets are distinct accounts |
| Signals.TargetsByScope | contributions/signals.py:40-73 | clan: the active approved accounts; family: those in the type's family (none without a family); family leaders: role FAMILY LEADER; executives: the seven listed roles; unknown scope: none |
| Signals.ExecutiveRoleNamesMean | contributions/signals.py:61-69 | the seven names of the executives list stand for exactly the executive roles |
| Signals.RoleList | contributions/signals.py:61-69 | evaluating a list of role references raises iff one name is undeclared; otherwise each position holds the role its name stands for |
| Signals.TargetsAsWritten | contributions/signals.py:39-73 | as written, the member filter raises iff the scope is executives and its role list names an undeclared role; when it does not raise, it is the targets |
| Signals.ExecutivesScopeRaises | contributions/signals.py:57-70 | an executives type never reaches the obligation loop as written, although an active chairperson is a target |
| Signals.DueFor | contributions/signals.py:79-89 | every obligation gets the type's own due date, else the computed one |
| Signals.Obligations | contributions/signals.py:83-92 | one obligation per target, in order, with consecutive fresh identifiers |
| Signals.BuildContributions | contributions/signals.py:83-92 | the loop builds exactly that list |
| Signals.ObligationsShape | contributions/signals.py:84-91 | each created obligation belongs to its target, is for this type, owes the type's amount, is NOT PAID and carries the common due date |
| Signals.IdsOfType | contributions/signals.py:97 | the identifiers of exactly the obligations of the type |
| Signals.IdsOfBuilt | contributions/signals.py:94-98 | the notification list of the built obligations is their identifiers in order |
| Signals.NotifyAll | contributions/signals.py:97-98 | one notification per obligation of the type |
| Signals.FanoutKeysFresh | contributions/signals.py:83-94 | for a new type and distinct targets the (account, type, due date) key is never duplicated |
| Signals.FanoutKeepsValid | contributions/signals.py:94 | the bulk insert keeps every obligation-table constraint |
| Signals.FanoutNotified | contributions/signals.py:94-98 | after the insert the notification loop visits exactly the new rows |
| Signals.CreateMemberContributions | contributions/signals.py:30-98 | no creation means no change and no notification; otherwise exactly the targets' obligations are appended and each new one is notified |
| ContributionForms.SelectableObligations | contributions/forms.py:95-98 | with a user, exactly that user's NOT PAID obligations; without one, all of them |
| ContributionForms.CleanCheckout | contributions/forms.py:100-121 | without both an obligation and a type it accepts; a type mismatch is rejected; otherwise it accepts iff amount == amount due, rejects below and above with their messages, and a missing amount is a TypeError |
| ContributionForms.FindType | contributions/forms.py:92 | the chosen type is a stored one with that id, or none exists |
| ContributionForms.FindObligation | contributions/forms.py:96-98 | the chosen obligation is a selectable one with that id, or none exists |
| ContributionForms.ValidateCheckout | contributions/forms.py:87-121 | a valid form has passed every field check; its obligation is selectable, of the chosen type and exactly paid off by the amount |
| ContributionForms.ForeignObligationRejected | contributions/forms.py:95-98 | a submitted obligation that is not the requester's own never validates |
| ContributionForms.BlankObligationSkipsAmountCheck | contributions/forms.py:100-121 | with the obligation field blank, any amount in range and a valid type and method give a valid form with no obligation |
| ContributionForms.FormTypesPassClean | contributions/forms.py:28-34 | the type form exposes neither scope nor family, and every type it creates passes `clean` |
| Checkout.PayerIsOwner | contributions/views/checkout.py:28-30 | whenever paying is allowed the payer is the obligation's owner, which differs from a staff requester paying for someone else |
| Checkout.Gate | contributions/views/checkout.py:20-34 | the view only proceeds on a POST for an existing obligation the requester may pay, with a valid form, and with the owner as payer |
| Checkout.NonOwnerRejected | contributions/views/checkout.py:24-26 | a requester who is neither owner nor staff is turned away before any form is read |
| Checkout.CheckoutPaymentParties | contributions/views/checkout.py:39-44 | the payment belongs to the owner, is recorded by the requester and carries the obligation's reference |
| Checkout.CheckoutLeavesPending | contributions/views/checkout.py:45-47 | a committed checkout leaves its obligation PENDING whatever its payment sum, and no other row changes |
| Checkout.CheckoutOutcomeAsWritten | contributions/views/checkout.py:37-45 | as written every checkout that passes the form ends in the error branch, and no payment route is ever reached |
| Checkout.CheckoutLinksFormObligation | contributions/views/checkout.py:20-47 | staff on another member's obligation may select their own: the payment is recorded for the URL's owner with the URL's reference, links the selected obligation, which ends PENDING, and leaves the URL's obligation untouched |
| Checkout.CheckoutAlwaysFailsAsWritten | contributions/views/checkout.py:43 | an owner paying the exact amount by cash passes every check and still fails as written |
| Checkout.RecordCheckout | contributions/views/checkout.py:38-47 | the block appends the new payment and leaves the obligations as the recompute followed by the PENDING write |
| Checkout.Checkout | contributions/views/checkout.py:16-101 | every stop leaves the tables unchanged; a committed block appends the payment, leaves its obligation PENDING and routes by method |
| Checkout.PaymentForTransaction | contributions/views/checkout.py:158 | none iff no payment carries the transaction; otherwise a carrying payment with the newest payment date |
| Checkout.CallbackRejections | contributions/views/checkout.py:137-155 | missing fields give 400; a present secret and signature that do not match give 403; without a secret or a signature the signature plays no part |
| Checkout.CallbackSettles | contributions/views/checkout.py:158-175 | an unknown transaction gives 404; a known one settles as a success iff the lower-cased status is "success" |
| Checkout.FailedCallbackEndsPaidAsWritten | contributions/views/checkout.py:172-176 | as written a failed transaction on an obligation already covered by its payments leaves it PAID |
| Checkout.CallbackVerdictStands | contributions/views/checkout.py:163-176 | with the save first, the callback's verdict decides: PAID on success, NOT PAID otherwise, no other row changes |
| Checkout.YocoCallback | contributions/views/checkout.py:127-183 | rejections change nothing; a payment without an obligation rolls back with 500; otherwise the payment is saved and its obligation set by the verdict (the corrected order of the failure branch) |
| Checkout.LogPaymentGuardAsWritten | contributions/views/checkout.py:195 | as written the guard raises iff `Role.TREASURER` does not resolve; when it resolves, it turns away exactly the users who may not log payments |
| Checkout.StaffCannotLogAsWritten | contributions/views/checkout.py:194-197 | staff, whom the guard means to admit, are turned away as written |
| Checkout.LoggedPaymentLinks | contributions/views/checkout.py:207-212 | the logged payment belongs to the owner, links the obligation, carries its reference and names the logging user |
| Checkout.LogPayment | contributions/views/checkout.py:188-258 | only treasurers or staff, and only for an existing obligation; a payment is logged iff the guard, the lookup, the POST and the form all pass, and then it is appended with the recompute; otherwise nothing changes |
| AccountModels.FamilyOfAccount | accounts/models.py:51 | the family found is the stored family of that account; an unknown account gives none; with unique ids, a stored account's family is always found |
| AccountModels.FamilyTotalStep | accounts/models.py:32-42 | one more obligation adds its amount to a family or account total exactly when it belongs there with that status |
| AccountModels.TotalsIgnore | accounts/models.py:32-42 | PENDING, PARTIALLY_PAID and CANCELLED obligations, and accounts without a family, add to no family total |
| AccountModels.FamilyTotalNone | accounts/models.py:32-42 | with no matching obligation a family total is 0 |
| AccountModels.FamilyPaidPlusUnpaid | accounts/models.py:32-42 | for non-negative amounts, paid plus unpaid is at most the family's whole amount due |
| AccountModels.AccountWithinFamily | accounts/models.py:64-74 | a member's own total never exceeds the family total for the same status |
| AccountModels.FamilyRow | accounts/models.py:28-30 | the saved row's slug is slugify(name), recomputed on every save; nothing else changes |
| AccountModels.SaveFamilyRows | accounts/models.py:14-30 | IntegrityError iff another family has the same name, the recomputed slug or the same (non-null) leader; otherwise the row is upserted |
| AccountModels.LeaderClashRejected | accounts/models.py:17 | a second family with a leader who already leads one is refused |
| AccountModels.UpsertKeepsLeadersDistinct | accounts/models.py:17 | saving a family whose leader no other family has keeps every leader to one family |
| AccountModels.SlugClashRejected | accounts/models.py:15-30 | two family names with the same slug cannot both be stored (no collision suffix) |
| AccountModels.SaveFamilyKeepsValid | accounts/models.py:14-30 | a successful save keeps the family constraints: unique ids, names and slugs, one family per leader, and the stored row carries its slug |
| AccountModels.SaveFamily | accounts/models.py:14-30 | the save writes the slugged row or fails with IntegrityError (name, slug or leader taken) and no change |
| MemberContributionViews.FindFamilyBySlug | contributions/views/member_contr.py:25 | the family found has that slug, or none does |
| MemberContributionViews.ContributionList | contributions/views/member_contr.py:12-48 | 404 iff an unknown family slug; otherwise the list is that family's obligations (or all), newest first, with PAID, NOT PAID and grand totals over it |
| MemberContributionViews.ListTotalsBounded | contributions/views/member_contr.py:35-37 | for non-negative amounts, contributed plus due is at most the grand total |
| MemberContributionViews.FamilyListTotals | contributions/views/member_contr.py:35-36 | for a family the list's totals equal the family's paid and unpaid totals |
| MemberContributionViews.MyContributions | contributions/views/member_contr.py:51-54 | the list is a newest-first selection of the obligations |
| MemberContributionViews.MyContributionsOwn | contributions/views/member_contr.py:52-53 | it holds exactly the requester's obligations and does not depend on the username argument |
| ContributionViews.FindTypeBySlug | contributions/views/contributions.py:17 | the type found has that slug, or none does |
| ContributionViews.PaymentsOfType | contributions/views/contributions.py:20-25 | exactly the type's payments, newest payment date first, summing to the type's total collected |
| ContributionViews.OutstandingsOf | contributions/views/contributions.py:27-35 | exactly the type's NOT PAID obligations, newest first, with their amount due summed |
| ContributionViews.TotalsByFamily | contributions/views/contributions.py:41-45 | the family groups, largest total first, adding up to the payments' total |
| ContributionViews.TotalsByFamilyRows | contributions/views/contributions.py:41-45 | one row per family name that occurs, each holding the sum of that family's payments |
| ContributionViews.GetContribution | contributions/views/contributions.py:15-56 | 404 iff the slug is unknown; otherwise the context holds the type, its payments, outstandings, unpaid amount, total collected and family totals, which add up to the total collected |
| ContributionViews.AddContribution | contributions/views/contributions.py:59-74 | a valid POST stores a new type from the form with the requester as creator and the first free slug, appends its targets' obligations numbered after it and notifies each; otherwise nothing changes |
| FamilyViews.NewestFive | accounts/views/family.py:27 | the five newest of the family's obligations (fewer if there are fewer), and none left out is newer |
| FamilyViews.GetFamily | accounts/views/family.py:21-66 | 404 iff the slug is unknown; otherwise the context holds exactly the family's members, the newest five obligations, the payments of its accounts summed, the NOT PAID total and its documents newest first |
| FamilyViews.FamilyContributedCountsPayments | accounts/views/family.py:33-38 | total contributed counts payment amounts: a new payment by a family account raises it by the payment amount, whatever the obligations |
| FamilyViews.FamilyUnpaidMatchesList | accounts/views/family.py:40-45 | the family page's unpaid total equals the family list's total due |
| Dashboard.UserHasAccess | dashboard/models.py:67-93 | anonymous never; chairperson or superuser always; others: clan documents, and family documents of their own family only |
| Dashboard.EnsureUserHasAccess | dashboard/models.py:95-102 | returns true iff access is granted, and raises PermissionDenied otherwise |
| Dashboard.PrivateForAdminsOnly | dashboard/models.py:89-93 | private documents, unknown visibilities and family documents with no family are for admins only |
| Dashboard.AdminQueryset | dashboard/admin.py:14-30 | a sub-collection: everything for admins; clan or own-family for leaders; clan or own-family-visible for everyone else |
| Dashboard.MemberListMatchesAccess | dashboard/admin.py:26-30 | for a plain member the admin list contains every accessible document and nothing else, except family documents with no family when the member has none |
| Dashboard.LeaderListsPrivate | dashboard/admin.py:22-24 | a family leader's admin list shows their family's private documents, which the access rule denies |
| Dashboard.FileName | dashboard/models.py:104-105 | the text after the last '/' of the stored name |
| Dashboard.DocumentRow | dashboard/models.py:59-62 | the slug is set from the title only when empty |
| Dashboard.RenameKeepsSlug | dashboard/models.py:59-62 | an existing slug survives a rename |
| Dashboard.SaveDocumentRows | dashboard/models.py:59-62 | IntegrityError iff another document holds the slug; otherwise the row is upserted |
| Dashboard.SaveDocumentKeepsValid | dashboard/models.py:59-62 | a successful save keeps the document constraints |
| Dashboard.SaveDocument | dashboard/models.py:59-62 | the save writes the row or fails with IntegrityError and no change |
| Dashboard.MeetingRow | dashboard/models.py:166-169 | the slug is set from title and date stamp only when empty |
| Dashboard.SaveMeetingRows | dashboard/models.py:166-169 | IntegrityError iff another meeting holds the slug; otherwise the row is upserted |
| Dashboard.SaveMeetingKeepsValid | dashboard/models.py:166-169 | a successful save keeps the meeting constraints |
| Dashboard.SaveMeeting | dashboard/models.py:166-169 | the save writes the row or fails with IntegrityError and no change |
| Dashboard.AudienceDisplayName | dashboard/models.py:192-202 | each audience gets its label; a family meeting gets "<name> Family"; "—" iff an unknown audience or a family audience with no family |
| Dashboard.AudienceHelpersAgree | dashboard/models.py:186-202 | is_for_clan and is_for_family hold exactly when the display name says so |
| AccountForms.FormInitial.OverFields | accounts/forms.py:45-51 | the loop over the fields leaves the initial values blanked as `BlankFields` describes |
| AccountForms.FormInitial.OverItems | accounts/forms.py:154-158 | the loop over the items leaves every None initial value blank |
| AccountForms.BlankFieldsComplete | accounts/forms.py:48-51 | after the constructor every field has a non-None value, present values are kept, and only the fields are added |
| AccountForms.BlankFieldsIdempotent | accounts/forms.py:48-51 | blanking twice is blanking once |
| AccountForms.BlankNonesComplete | accounts/forms.py:154-158 | the keys stay, no None is left, other values are kept, and over the form's own fields it agrees with the field-wise blanking |
| AccountForms.CleanEmail | accounts/forms.py:53-61 | rejected with its message iff some user holds the email; otherwise returned unchanged |
| AccountForms.CleanEmailKeepsDistinct | accounts/forms.py:117-125 | an email that passed the check keeps emails distinct when the new account is added |
| AccountForms.InsertAccountRows | accounts/forms.py:71-72 | inserting an account is an IntegrityError iff its username is taken; otherwise it is appended |
| AccountForms.InsertAccountKeepsValid | accounts/forms.py:71-72 | a successful insert keeps the account constraints |
| AccountForms.RegisteredFoundByEmail | accounts/forms.py:63-69 | the registered account is the one a username lookup by its email finds |
| AccountForms.CleanEmailDoesNotGuardUsername | accounts/forms.py:57-67 | an email no user holds can still be another user's username, and then the registration's save fails |
| AccountForms.SaveNewAccount | accounts/forms.py:71-72 | the row is appended with the next id, or the save is an IntegrityError with no change |
| AccountForms.Register | accounts/forms.py:53-75 | a held email is rejected with no change; otherwise the account with username = email is saved, failing only on a taken username |
| AccountForms.CleanUsername | accounts/forms.py:78-81 | the inherited username check rejects iff a stored username equals it up to letter case |
| AccountForms.CleanUsernameGuardsInsert | accounts/forms.py:127-136 | a username that passed the check makes the insert succeed |
| AccountForms.CaseVariantUsernameRejected | accounts/forms.py:78-81 | with "thabo" on file, "Thabo" is refused |
| AccountForms.AddMember | accounts/forms.py:117-136 | a case-insensitively taken username, then a held email, is rejected with no change; otherwise the account with the submitted username and email is saved, and the save cannot fail |
| AccountForms.GeneralEditClean | accounts/forms.py:183-193 | another user with the username is rejected first, then another user with the email; otherwise the data is returned unchanged |
| AccountForms.OwnUsernameAccepted | accounts/forms.py:187-188 | a user keeping their own username never meets the username error |
| AccountForms.GeneralEditKeepsValid | accounts/forms.py:183-199 | an edit that passed `clean` keeps usernames unique, so its save cannot fail |
| AccountForms.GeneralEdit | accounts/forms.py:183-201 | a rejected edit changes nothing; an accepted one replaces the user's username and email in place |

## Left out

- Email, SMS and notification delivery, message flashes, logging, templates and redirects: `NotifyAll` returns the identifiers that would be notified, and view outcomes are datatypes.
- Signals.NotifyAll: gives the notifications in table order; the source iterates the queryset under the `-created` ordering, newest first, so the order is not modelled.
- Checkout.YocoCallback: models the failure branch in the corrected order (save, then NOT PAID). As written, the save's recompute has the last word (`FailureAsWritten`).
- Checkout.FailureAsWritten: uses the corrected recompute; as written, a partial sum in that branch raises AttributeError, and the callback answers 500 with the block rolled back.
- AccountForms.AddMember: keeps only the first form error (username before email), where the form reports all of them. The case-insensitive comparison folds ASCII letters only.
- AccountForms.CleanUsername: models the check of Django 4.2 and later; older releases compare the username exactly.
- Dates: years are unbounded, where Python's `date` ends at 9999-12-31 and a due date past it raises OverflowError.
- Store.Database.Valid: states no foreign key from a payment to its obligation, so a payment linked to a missing obligation is stored and its recompute does nothing, where the database would refuse the row.
- The HMAC-SHA256 computation of the callback signature is the parameter `sigMatches`.
- Checkout.YocoCallback: the `@login_required` decorator (contributions/views/checkout.py:127) and Django's CSRF check of POST requests (the view carries no exemption) are not modelled; the request is taken as having reached the view body. A gateway call without a session or CSRF token would be turned away before it.
- `timezone.now()`, the clock behind `created` and `updated` and the `strftime` date stamp are parameters; `Meeting.date_time_formatter` is not modelled (local time formatting).
- Concurrency and locking: an atomic block is one sequential step that commits or leaves the tables as they were.
- Passwords (`password1`/`password2`, hashing, Django's password validators), the login form, widget attributes such as `autocomplete`, and the profile fields the model does not keep (title, gender, phone, address, biography, images). The unique `phone` column is therefore not among the account constraints.
- MemberContribution.reference: its `unique=True` constraint is not part of the obligation constraints, because every created obligation leaves it empty and the model never writes it.
- Payment.checkout_id: the column and its `unique=True` constraint are not modelled, because no modelled operation writes it.
- The default ordering of accounts and families is not modelled; orderings are modelled where they decide what a view shows (newest first, largest total first, top five).
- The import of `LogPaymentForm` at the top of the checkout views fails, since the forms module defines no such class; the model treats the views as importable and the manual log form as given (`LogPaymentData`).
- Checkout.LogPayment: the undeclared `is_approved` assignment is left out, as at checkout; as written it raises after the guard.
- Checkout.Checkout: models the block with the undeclared approval assignment removed; the as-written behaviour is `CheckoutOutcomeAsWritten`.
- Slugify: an ASCII model (lower-case, drop punctuation, collapse whitespace and hyphen runs, strip hyphens and underscores); no Unicode normalisation.
- Field cleaning is taken as given: a cleaned value is an `Option`, None where the field failed. Only the amount's ten-digit bound and the payment-method choice are modelled.
- The family page computes `total_due` but never places it in its context, so `FamilyContext` has no such field.
- `Meeting.is_online` is the predicate `Dashboard.IsOnline` and needs no lemma.
- The second `MemberContributionForm`, the trivial listing views and the CRUD views that only call `form.save()` are not part of this model.

## Findings

| source | as written | input that shows it | evidently intended | confidence | as-written member | corrected member |
|---|---|---|---|---|---|---|
| contributions/models.py:211 | `PaymentStatus.PARTIALLY_PAID` is not a member of PaymentStatus, so the partial branch raises AttributeError and the payment save rolls back | an obligation of R100 and a first payment of R50 | a partial total records PARTIALLY_PAID | high (not executed) | ContributionModels.PartialPaymentRaises | ContributionModels.Recompute |
| contributions/signals.py:61-69 | the executives filter names five roles that Role does not declare, so the post-save handler raises | any new contribution type with scope "executives" | the seven executive roles are targeted | high (not executed) | Signals.ExecutivesScopeRaises | Signals.Targets |
| contributions/views/checkout.py:195 | `Role.TREASURER` is not declared, so the guard raises for every user, staff included | a staff user opening the log page | treasurers and staff may log payments | high (not executed) | Checkout.StaffCannotLogAsWritten | Checkout.LogPayment |
| contributions/views/checkout.py:172-176 | the failure branch writes NOT PAID and then saves the payment, whose recompute overwrites it | a failed transaction on an obligation whose payments already cover its amount | a failed transaction leaves the obligation NOT PAID | medium (not executed) | Checkout.FailedCallbackEndsPaidAsWritten | Checkout.CallbackVerdictStands |
| contributions/views/checkout.py:43 | `Payment.LogPaymentStatus` is not declared, so every checkout that passes the form ends in the error branch with nothing recorded | an owner paying the exact amount due by cash | the payment is recorded and the obligation set PENDING | high (not executed) | Checkout.CheckoutAlwaysFailsAsWritten | Checkout.Checkout |
