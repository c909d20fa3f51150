/** The records of the clan contribution tracker and the choice sets their fields
    draw from. Money is held in integer cents (the source's DecimalField with two
    decimal places); identifiers are natural numbers. */
module Types {
  import opened Base
  import opened Dates

  type Id = nat

  /** An amount of money in cents. */
  type Cents = int

  /** Largest magnitude (exclusive) a DecimalField(max_digits=10, decimal_places=2)
      holds, in cents: eight digits before the point, two after. */
  const MaxCents: int := 10_000_000_000

  /** Roles as the logic uses them. The source's Role choices declare only
      ClanChairperson, FamilyLeader and Member; the other five are referred to by
      the fan-out and by the treasurer check but are not declared. */
  datatype Role =
    | ClanChairperson
    | DepChairperson
    | Secretary
    | DepSecretary
    | Treasurer
    | Kgosana
    | FamilyLeader
    | Member

  /** The roles the source's Role choice set actually declares. */
  predicate DeclaredRole(r: Role)
  {
    r == ClanChairperson || r == FamilyLeader || r == Member
  }

  /** What each `Role.<name>` reference in the code stands for, the five
      undeclared names included. */
  function RoleNamed(name: string): Option<Role>
  {
    match name
    case "CLAN_CHAIRPERSON" => Some(ClanChairperson)
    case "DEP_CHAIRPERSON" => Some(DepChairperson)
    case "SECRETARY" => Some(Secretary)
    case "DEP_SECRETARY" => Some(DepSecretary)
    case "TREASURER" => Some(Treasurer)
    case "KGOSANA" => Some(Kgosana)
    case "FAMILY_LEADER" => Some(FamilyLeader)
    case "MEMBER" => Some(Member)
    case _ => None
  }

  /** `Role.<name>` evaluated: an attribute of the Role choice class, which has
      only its three declared members; any other name raises AttributeError. */
  function RoleAttr(name: string): (r: Result<Role, Error>)
    ensures r.Ok? <==> RoleNamed(name).Some? && DeclaredRole(RoleNamed(name).value)
    ensures r.Ok? ==> RoleNamed(name) == Some(r.value)
    ensures r.Err? ==> r.error == AttributeError
  {
    match name
    case "CLAN_CHAIRPERSON" => Ok(ClanChairperson)
    case "FAMILY_LEADER" => Ok(FamilyLeader)
    case "MEMBER" => Ok(Member)
    case _ => Err(AttributeError)
  }

  /** Obligation status. The source's PaymentStatus declares Paid, Pending,
      NotPaid (stored as the text "NOT PAID") and Cancelled; PartiallyPaid is used
      by the payment recompute but not declared. */
  datatype PaymentStatus = Paid | Pending | NotPaid | PartiallyPaid | Cancelled

  predicate DeclaredStatus(s: PaymentStatus)
  {
    s != PartiallyPaid
  }

  /** Payment methods; OtherMethod is the declared choice "other". */
  datatype PaymentMethod = Cash | Bank | Mobile | OtherMethod

  /** Parse a submitted payment method: a choice field accepts exactly the four
      stored values. */
  function ParseMethod(s: string): (r: Option<PaymentMethod>)
    ensures r.Some? <==> s in {"cash", "bank", "mobile", "other"}
  {
    if s == "cash" then Some(Cash)
    else if s == "bank" then Some(Bank)
    else if s == "mobile" then Some(Mobile)
    else if s == "other" then Some(OtherMethod)
    else None
  }

  /** Who a contribution type targets. UnknownScope stands for any stored value
      outside the four choices. */
  datatype Scope = ClanScope | FamilyLeadersScope | FamilyScope | ExecutivesScope | UnknownScope

  /** Recurrence of a contribution type. UnknownRecurrence stands for any value
      outside the three choices. */
  datatype Recurrence = OnceOff | Monthly | Annual | UnknownRecurrence

  datatype Account = Account(
    id: Id,
    username: string,
    email: string,
    firstName: string,
    lastName: string,
    role: Role,
    family: Option<Id>,
    isActive: bool,
    isApproved: bool,
    isStaff: bool,
    isSuperuser: bool)

  datatype Family = Family(
    id: Id,
    name: string,
    slug: string,
    leader: Option<Id>,
    isApproved: bool)

  datatype ContributionType = ContributionType(
    id: Id,
    name: string,
    slug: string,
    amount: Cents,
    recurrence: Recurrence,
    scope: Scope,
    dueDate: Option<Date>,
    family: Option<Id>,
    createdBy: Option<Id>)

  /** One member's obligation for one contribution cycle. `created` and `updated`
      are the auto-maintained timestamps; `updated` changes on every row write. */
  datatype MemberContribution = MemberContribution(
    id: Id,
    account: Id,
    contributionType: Id,
    amountDue: Cents,
    reference: Option<string>,
    dueDate: Option<Date>,
    status: PaymentStatus,
    created: nat,
    updated: nat)

  /** A payment. `methodType` and `maskedCard` are the gateway fields of the
      abstract payment record; the callback looks payments up by `maskedCard`. */
  datatype Payment = Payment(
    id: Id,
    account: Id,
    contributionType: Option<Id>,
    memberContribution: Option<Id>,
    paymentMethod: PaymentMethod,
    amount: Cents,
    reference: Option<string>,
    paymentDate: Date,
    recordedBy: Option<Id>,
    methodType: Option<string>,
    maskedCard: Option<string>)

  /** Visibility of a document; VisOther stands for a stored value outside the
      three choices. */
  datatype Visibility = VisClan | VisFamily | VisPrivate | VisOther

  /** A clan document. `fileName` is the stored file's path; `created` the
      creation stamp that orders documents, newest first. */
  datatype ClanDocument = ClanDocument(
    id: Id,
    title: string,
    slug: string,
    fileName: string,
    family: Option<Id>,
    visibility: Visibility,
    created: nat)

  datatype MeetingType = Online | InPerson | OtherMeetingType

  datatype Audience = AudClan | AudFamilyLeaders | AudExecutives | AudFamily | AudOther

  /** A meeting. `dateStamp` is the meeting date formatted as %Y%m%d%H%M, which the
      model takes as given. */
  datatype Meeting = Meeting(
    id: Id,
    title: string,
    slug: string,
    meetingType: MeetingType,
    audience: Audience,
    family: Option<Id>,
    dateStamp: string)

  /** The exceptions and database errors whose effects the model keeps apart.
      AttributeError is an access to a name a class does not declare; TypeError
      a comparison with a missing value. */
  datatype Error =
    | IntegrityError
    | AttributeError
    | TypeError
    | NotFound
    | PermissionDenied
    | ValidationError(message: string)

  /** The columns of `unique_together` on member contributions. */
  datatype ObligationKey = ObligationKey(account: Id, contributionType: Id, dueDate: Option<Date>)

  function KeyOfObligation(o: MemberContribution): ObligationKey
  {
    ObligationKey(o.account, o.contributionType, o.dueDate)
  }

  /** The requesting user: anonymous or a signed-in account. */
  datatype User = Anonymous | SignedIn(account: Account)

  // Key functions used to state uniqueness and to look rows up.
  function AccountId(a: Account): Id { a.id }
  function AccountUsername(a: Account): string { a.username }
  function AccountEmail(a: Account): string { a.email }
  function FamilyId(f: Family): Id { f.id }
  function FamilySlug(f: Family): string { f.slug }
  function FamilyName(f: Family): string { f.name }
  function TypeId(t: ContributionType): Id { t.id }
  function TypeSlug(t: ContributionType): string { t.slug }
  function ObligationId(o: MemberContribution): Id { o.id }
  function ObligationType(o: MemberContribution): Id { o.contributionType }
  function ObligationCreated(o: MemberContribution): int { o.created }
  function PaymentId(p: Payment): Id { p.id }
  function PaymentAmount(p: Payment): int { p.amount }
  function ObligationDue(o: MemberContribution): int { o.amountDue }
  function PaymentDateKey(p: Payment): int { DateKey(p.paymentDate) }
  function DocumentId(d: ClanDocument): Id { d.id }
  function DocumentSlug(d: ClanDocument): string { d.slug }
  function DocumentCreated(d: ClanDocument): int { d.created }
  function MeetingId(m: Meeting): Id { m.id }
  function MeetingSlug(m: Meeting): string { m.slug }
}
