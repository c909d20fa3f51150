/** The fan-out that runs after a contribution type is saved: the due date rule
    and the creation of one NOT PAID obligation per eligible account, followed by
    one notification per obligation of the new type. The notification itself
    (a background task that sends an email) is modelled as the list of obligation
    identifiers it is queued for. */
module Signals {
  import opened Base
  import opened Dates
  import opened Types
  import opened Store

  /** `calculate_due_date`: today plus one calendar month, one calendar year or
      seven days, by recurrence; today for any other value. */
  function CalculateDueDate(recurrence: Recurrence, today: Date): Date
    requires ValidDate(today)
  {
    match recurrence
    case Monthly => AddOneMonth(today)
    case Annual => AddOneYear(today)
    case OnceOff => AddDays(today, 7)
    case UnknownRecurrence => today
  }

  /** What each recurrence yields, in calendar terms. */
  lemma DueDateMeaning(recurrence: Recurrence, today: Date)
    requires ValidDate(today)
    ensures ValidDate(CalculateDueDate(recurrence, today))
    ensures recurrence == Monthly ==>
      var r := CalculateDueDate(recurrence, today);
      MonthIndex(r) == MonthIndex(today) + 1
      && r.day == Min(today.day, DaysInMonth(r.year, r.month))
    ensures recurrence == Annual ==>
      var r := CalculateDueDate(recurrence, today);
      r.year == today.year + 1 && r.month == today.month
      && r.day == (if today.month == 2 && today.day == 29 then 28 else today.day)
    ensures recurrence == OnceOff ==>
      Ordinal(CalculateDueDate(recurrence, today)) == Ordinal(today) + 7
    ensures recurrence == UnknownRecurrence ==> CalculateDueDate(recurrence, today) == today
  {
    AddDaysOrdinal(today, 7);
  }

  /** Active and approved: the filter every scope starts from. */
  predicate ActiveMember(a: Account)
  {
    a.isActive && a.isApproved
  }

  /** The seven roles the executives scope lists. */
  predicate ExecutiveRole(r: Role)
  {
    r in {ClanChairperson, DepChairperson, DepSecretary, Kgosana, Secretary, Treasurer, FamilyLeader}
  }

  /** Whether an account is a target of a contribution type, by its scope. The
      family scope with no family set falls through to the empty case. */
  predicate Eligible(t: ContributionType, a: Account)
  {
    ActiveMember(a)
    && match t.scope
       case ClanScope => true
       case FamilyScope => t.family.Some? && a.family == t.family
       case FamilyLeadersScope => a.role == FamilyLeader
       case ExecutivesScope => ExecutiveRole(a.role)
       case UnknownScope => false
  }

  /** The accounts the fan-out creates obligations for. */
  function Targets(accounts: seq<Account>, t: ContributionType): (r: seq<Account>)
    ensures forall i :: 0 <= i < |r| ==> r[i] in accounts && Eligible(t, r[i])
    ensures forall i :: 0 <= i < |accounts| && Eligible(t, accounts[i]) ==> accounts[i] in r
  {
    Filter(accounts, (a: Account) => Eligible(t, a))
  }

  lemma TargetsUnique(accounts: seq<Account>, t: ContributionType)
    requires UniqueBy(accounts, AccountId)
    ensures UniqueBy(Targets(accounts, t), AccountId)
  {
    FilterKeepsUnique(accounts, (a: Account) => Eligible(t, a), AccountId);
  }

  /** The role list of the executives filter, in the order the source gives it. */
  const ExecutiveRoleNames: seq<string> :=
    ["CLAN_CHAIRPERSON", "DEP_CHAIRPERSON", "DEP_SECRETARY", "KGOSANA", "SECRETARY", "TREASURER", "FAMILY_LEADER"]

  /** The executive roles are exactly what the names of that list stand for. */
  lemma ExecutiveRoleNamesMean(role: Role)
    ensures ExecutiveRole(role) <==> exists i :: 0 <= i < |ExecutiveRoleNames| && RoleNamed(ExecutiveRoleNames[i]) == Some(role)
  {
    var names := ExecutiveRoleNames;
    match role
    case ClanChairperson => assert RoleNamed(names[0]) == Some(role);
    case DepChairperson => assert RoleNamed(names[1]) == Some(role);
    case DepSecretary => assert RoleNamed(names[2]) == Some(role);
    case Kgosana => assert RoleNamed(names[3]) == Some(role);
    case Secretary => assert RoleNamed(names[4]) == Some(role);
    case Treasurer => assert RoleNamed(names[5]) == Some(role);
    case FamilyLeader => assert RoleNamed(names[6]) == Some(role);
    case Member =>
      forall i | 0 <= i < |names|
        ensures RoleNamed(names[i]) != Some(Member)
      {
      }
  }

  /** A list of `Role.<name>` references evaluated left to right: the first
      undeclared name raises, otherwise each name gives the role it stands for. */
  function RoleList(names: seq<string>): (r: Result<seq<Role>, Error>)
    ensures r.Err? <==> exists i :: 0 <= i < |names| && RoleAttr(names[i]).Err?
    ensures r.Err? ==> r.error == AttributeError
    ensures r.Ok? ==> |r.value| == |names| && forall i :: 0 <= i < |names| ==> RoleNamed(names[i]) == Some(r.value[i])
  {
    if |names| == 0 then Ok([])
    else
      assert forall i :: 1 <= i < |names| ==> names[i] == names[1..][i - 1];
      match RoleAttr(names[0])
      case Err(e) => Err(e)
      case Ok(role) =>
        match RoleList(names[1..])
        case Err(e) => Err(e)
        case Ok(rest) => Ok([role] + rest)
  }

  /** The member filter as written: the executives branch first evaluates its
      role list, which raises at the first undeclared name; once every name
      resolves, the list holds the executive roles and the filter is the
      targets. */
  function TargetsAsWritten(accounts: seq<Account>, t: ContributionType): (r: Result<seq<Account>, Error>)
    ensures r.Err? <==>
      t.scope == ExecutivesScope && exists i :: 0 <= i < |ExecutiveRoleNames| && RoleAttr(ExecutiveRoleNames[i]).Err?
    ensures r.Err? ==> r.error == AttributeError
    ensures r.Ok? ==> r.value == Targets(accounts, t)
  {
    if t.scope != ExecutivesScope then Ok(Targets(accounts, t))
    else
      match RoleList(ExecutiveRoleNames)
      case Err(e) => Err(e)
      case Ok(_) => Ok(Targets(accounts, t))
  }

  /** An executives-scoped type never reaches the obligation loop as written, even
      when an account holds one of the listed roles: the second name of the list
      is not a declared role. */
  lemma ExecutivesScopeRaises(accounts: seq<Account>, t: ContributionType, i: nat)
    requires t.scope == ExecutivesScope && i < |accounts|
    requires ActiveMember(accounts[i]) && accounts[i].role == ClanChairperson
    ensures TargetsAsWritten(accounts, t) == Err(AttributeError)
    ensures accounts[i] in Targets(accounts, t)
  {
    assert RoleAttr(ExecutiveRoleNames[1]).Err?;
  }

  /** Targets scope by scope: clan is every active approved account; family adds
      the family match; a family scope without a family, or an unknown scope,
      targets no one; family leaders and executives filter by role. */
  lemma TargetsByScope(accounts: seq<Account>, t: ContributionType, a: Account)
    requires a in accounts
    ensures t.scope == ClanScope ==> (a in Targets(accounts, t) <==> ActiveMember(a))
    ensures t.scope == FamilyScope && t.family.Some? ==>
      (a in Targets(accounts, t) <==> ActiveMember(a) && a.family == t.family)
    ensures t.scope == FamilyScope && t.family.None? ==> Targets(accounts, t) == []
    ensures t.scope == UnknownScope ==> Targets(accounts, t) == []
    ensures t.scope == FamilyLeadersScope ==>
      (a in Targets(accounts, t) <==> ActiveMember(a) && a.role == FamilyLeader)
    ensures t.scope == ExecutivesScope ==>
      (a in Targets(accounts, t) <==> ActiveMember(a) && ExecutiveRole(a.role))
  {
    if (t.scope == FamilyScope && t.family.None?) || t.scope == UnknownScope {
      FilterNone(accounts, a => Eligible(t, a));
    }
  }

  /** The due date every created obligation gets: the type's own, else the
      computed one. */
  function DueFor(t: ContributionType, today: Date): (r: Option<Date>)
    requires ValidDate(today)
    ensures r.Some?
    ensures t.dueDate.Some? ==> r == t.dueDate
    ensures t.dueDate.None? ==> r == Some(CalculateDueDate(t.recurrence, today))
  {
    if t.dueDate.Some? then t.dueDate else Some(CalculateDueDate(t.recurrence, today))
  }

  /** One obligation as the loop builds it. */
  function NewObligation(a: Account, t: ContributionType, due: Option<Date>, id: Id, now: nat): MemberContribution
  {
    MemberContribution(id, a.id, t.id, t.amount, None, due, NotPaid, now, now)
  }

  /** The obligations built for `members`, numbered from `firstId`. */
  function Obligations(members: seq<Account>, t: ContributionType, due: Option<Date>, firstId: Id, now: nat): (r: seq<MemberContribution>)
    ensures |r| == |members|
    ensures forall i :: 0 <= i < |r| ==> r[i] == NewObligation(members[i], t, due, firstId + i, now)
    decreases |members|
  {
    if |members| == 0 then []
    else [NewObligation(members[0], t, due, firstId, now)] + Obligations(members[1..], t, due, firstId + 1, now)
  }

  /** The loop that builds the list handed to `bulk_create`. */
  method BuildContributions(members: seq<Account>, t: ContributionType, due: Option<Date>, firstId: Id, now: nat)
    returns (contributions: seq<MemberContribution>)
    ensures contributions == Obligations(members, t, due, firstId, now)
  {
    contributions := [];
    var i := 0;
    while i < |members|
      invariant 0 <= i <= |members|
      invariant |contributions| == i
      invariant forall k :: 0 <= k < i ==> contributions[k] == NewObligation(members[k], t, due, firstId + k, now)
    {
      contributions := contributions + [NewObligation(members[i], t, due, firstId + i, now)];
      i := i + 1;
    }
  }

  /** Every created obligation belongs to one target, is for this type, is due
      the type's amount on the common due date, and starts NOT PAID. */
  lemma ObligationsShape(members: seq<Account>, t: ContributionType, due: Option<Date>, firstId: Id, now: nat, i: nat)
    requires i < |members|
    ensures var o := Obligations(members, t, due, firstId, now)[i];
      o.account == members[i].id && o.contributionType == t.id && o.amountDue == t.amount
      && o.status == NotPaid && o.dueDate == due && o.id == firstId + i
  {
  }

  /** Identifiers of the obligations of one type, in table order: what the
      notification loop walks. */
  function IdsOfType(os: seq<MemberContribution>, typeId: Id): (r: seq<Id>)
    ensures |r| <= |os|
    ensures forall i :: 0 <= i < |os| && os[i].contributionType == typeId ==> os[i].id in r
    ensures forall x :: x in r ==> exists i :: 0 <= i < |os| && os[i].contributionType == typeId && os[i].id == x
  {
    if |os| == 0 then []
    else
      var rest := IdsOfType(os[1..], typeId);
      assert forall i :: 1 <= i < |os| ==> os[i] == os[1..][i - 1];
      if os[0].contributionType == typeId then [os[0].id] + rest else rest
  }

  lemma {:induction false} IdsOfTypeAppend(a: seq<MemberContribution>, b: seq<MemberContribution>, typeId: Id)
    ensures IdsOfType(a + b, typeId) == IdsOfType(a, typeId) + IdsOfType(b, typeId)
  {
    if |a| == 0 {
      assert a + b == b;
    } else {
      assert (a + b)[1..] == a[1..] + b;
      IdsOfTypeAppend(a[1..], b, typeId);
    }
  }

  lemma {:induction false} IdsOfTypeNone(os: seq<MemberContribution>, typeId: Id)
    requires forall i :: 0 <= i < |os| ==> os[i].contributionType != typeId
    ensures IdsOfType(os, typeId) == []
  {
    if |os| > 0 {
      IdsOfTypeNone(os[1..], typeId);
    }
  }

  /** The obligations built for a type are all of that type, so the notification
      loop visits exactly them, in order. */
  lemma {:induction false} IdsOfBuilt(members: seq<Account>, t: ContributionType, due: Option<Date>, firstId: Id, now: nat)
    ensures IdsOfType(Obligations(members, t, due, firstId, now), t.id) == seq(|members|, i => firstId + i)
    decreases |members|
  {
    if |members| > 0 {
      IdsOfBuilt(members[1..], t, due, firstId + 1, now);
      var os := Obligations(members, t, due, firstId, now);
      assert os[1..] == Obligations(members[1..], t, due, firstId + 1, now);
    }
  }

  /** The notification loop: one message per obligation of the type. */
  method NotifyAll(os: seq<MemberContribution>, typeId: Id) returns (sent: seq<Id>)
    ensures sent == IdsOfType(os, typeId)
  {
    sent := [];
    var i := 0;
    while i < |os|
      invariant 0 <= i <= |os|
      invariant sent == IdsOfType(os[..i], typeId)
    {
      assert os[..i + 1] == os[..i] + [os[i]];
      IdsOfTypeAppend(os[..i], [os[i]], typeId);
      if os[i].contributionType == typeId {
        sent := sent + [os[i].id];
      }
      i := i + 1;
    }
    assert os[..i] == os;
  }

  /** Accounts with distinct identifiers give obligations with distinct
      (account, type, due date) keys; none of them collides with an existing
      obligation when no existing one is of this type. */
  lemma FanoutKeysFresh(existing: seq<MemberContribution>, members: seq<Account>, t: ContributionType, due: Option<Date>, firstId: Id, now: nat)
    requires UniqueBy(existing, KeyOfObligation)
    requires UniqueBy(members, AccountId)
    requires forall i :: 0 <= i < |existing| ==> existing[i].contributionType != t.id
    ensures UniqueBy(existing + Obligations(members, t, due, firstId, now), KeyOfObligation)
  {
    var built := Obligations(members, t, due, firstId, now);
    var all := existing + built;
    forall i, j | 0 <= i < j < |all|
      ensures KeyOfObligation(all[i]) != KeyOfObligation(all[j])
    {
      if j >= |existing| {
        if i >= |existing| {
          assert all[i] == built[i - |existing|] && all[j] == built[j - |existing|];
          assert AccountId(members[i - |existing|]) != AccountId(members[j - |existing|]);
        } else {
          assert all[j] == built[j - |existing|];
        }
      }
    }
  }

  /** Appending the built obligations keeps the obligation table's constraints
      when the identifiers are fresh and no existing obligation is of the type. */
  lemma FanoutKeepsValid(os: seq<MemberContribution>, types: seq<ContributionType>, bound: nat,
                         members: seq<Account>, t: ContributionType, due: Option<Date>, now: nat)
    requires ObligationsValid(os, types, bound) && UniqueBy(members, AccountId)
    requires t.id in Keys(types, TypeId)
    requires forall i :: 0 <= i < |os| ==> os[i].contributionType != t.id
    ensures ObligationsValid(os + Obligations(members, t, due, bound, now), types, bound + |members|)
  {
    var built := Obligations(members, t, due, bound, now);
    var all := os + built;
    FanoutKeysFresh(os, members, t, due, bound, now);
    forall i | 0 <= i < |all|
      ensures all[i].contributionType in Keys(types, TypeId) && all[i].id < bound + |members|
    {
      if i >= |os| {
        assert all[i] == built[i - |os|];
      }
    }
    forall i, j | 0 <= i < j < |all|
      ensures all[i].id != all[j].id
    {
      if j >= |os| {
        assert all[j] == built[j - |os|];
        if i >= |os| {
          assert all[i] == built[i - |os|];
        }
      }
    }
  }

  /** After the bulk insert, the notification loop visits exactly the new
      obligations, in order. */
  lemma FanoutNotified(before: seq<MemberContribution>, members: seq<Account>, t: ContributionType, due: Option<Date>, firstId: Id, now: nat)
    requires forall i :: 0 <= i < |before| ==> before[i].contributionType != t.id
    ensures IdsOfType(before + Obligations(members, t, due, firstId, now), t.id) == seq(|members|, i => firstId + i)
  {
    IdsOfTypeAppend(before, Obligations(members, t, due, firstId, now), t.id);
    IdsOfTypeNone(before, t.id);
    IdsOfBuilt(members, t, due, firstId, now);
  }

  /** `create_member_contributions`: nothing unless the type was just created;
      otherwise one obligation per target, bulk-inserted, then one notification
      per obligation of the type. The bulk insert cannot break the uniqueness
      constraints (FanoutKeysFresh), so its error path is not reachable. */
  method CreateMemberContributions(db: Database, t: ContributionType, created: bool, today: Date, now: nat)
    returns (notified: seq<Id>)
    requires db.Valid() && ValidDate(today)
    requires t.id in Keys(db.types, TypeId)
    requires created ==> forall i :: 0 <= i < |db.obligations| ==> db.obligations[i].contributionType != t.id
    modifies db`obligations, db`nextId
    ensures db.Valid()
    ensures !created ==> db.obligations == old(db.obligations) && db.nextId == old(db.nextId) && notified == []
    ensures created ==>
      var targets := Targets(db.accounts, t);
      db.obligations == old(db.obligations) + Obligations(targets, t, DueFor(t, today), old(db.nextId), now)
      && db.nextId == old(db.nextId) + |targets|
      && notified == seq(|targets|, i => old(db.nextId) + i)
  {
    if !created {
      return [];
    }
    var members := Targets(db.accounts, t);
    if |members| == 0 {
      assert Obligations(members, t, DueFor(t, today), db.nextId, now) == [];
      return [];
    }
    TargetsUnique(db.accounts, t);
    notified := InsertObligations(db, members, t, DueFor(t, today), now);
  }

  /** The bulk insert of the built obligations, then the notification loop
      over the obligations of the type. */
  method InsertObligations(db: Database, members: seq<Account>, t: ContributionType, due: Option<Date>, now: nat)
    returns (notified: seq<Id>)
    requires db.Valid() && UniqueBy(members, AccountId)
    requires t.id in Keys(db.types, TypeId)
    requires forall i :: 0 <= i < |db.obligations| ==> db.obligations[i].contributionType != t.id
    modifies db`obligations, db`nextId
    ensures db.Valid()
    ensures db.obligations == old(db.obligations) + Obligations(members, t, due, old(db.nextId), now)
    ensures db.nextId == old(db.nextId) + |members|
    ensures notified == seq(|members|, i => old(db.nextId) + i)
  {
    ghost var before := db.obligations;
    FanoutKeepsValid(before, db.types, db.nextId, members, t, due, now);
    FanoutNotified(before, members, t, due, db.nextId, now);
    var firstId := db.Reserve(|members|);
    var contributions := BuildContributions(members, t, due, firstId, now);
    db.obligations := db.obligations + contributions;
    notified := NotifyAll(db.obligations, t.id);
  }
}
