/** The account forms: the blanking of missing initial values their constructors
    perform, the email and username uniqueness checks, and what their `save`
    methods write. Passwords, widgets and the profile fields the model does not
    keep (title, gender, phone, address, ...) are not modelled. */
module AccountForms {
  import opened Base
  import opened Types
  import opened Store
  import opened Text

  /** A form's initial values: field name to value, None standing for Python's
      None. */
  type Initial = map<string, Option<string>>

  /** Whether the constructor of RegistrationForm, MemberForm or FamilyForm
      replaces the initial value of field `k`: `self.initial.get(k) is None`. */
  predicate MissingOrNone(initial: Initial, k: string)
  {
    k !in initial || initial[k].None?
  }

  /** The initial values after those constructors: every field whose initial
      value is missing or None gets the empty string; nothing else changes. */
  function BlankFields(fields: seq<string>, initial: Initial): Initial
  {
    map k | k in initial.Keys + (set f | f in fields) :: if k in fields && MissingOrNone(initial, k) then Some("") else initial[k]
  }

  /** The initial values after the constructors of AccountUpdateForm and
      GeneralEditForm, which walk the initial items only: each None value becomes
      the empty string. */
  function BlankNones(initial: Initial): Initial
  {
    map k | k in initial :: if initial[k].None? then Some("") else initial[k]
  }

  /** After blanking, every field has a value that is not None; a value that
      was present stays, and the keys are the old keys plus the fields. */
  lemma BlankFieldsComplete(fields: seq<string>, initial: Initial)
    ensures forall k :: k in fields ==> k in BlankFields(fields, initial) && BlankFields(fields, initial)[k].Some?
    ensures forall k :: k in initial && initial[k].Some? ==> BlankFields(fields, initial)[k] == initial[k]
    ensures forall k :: k in initial && k !in fields ==> BlankFields(fields, initial)[k] == initial[k]
    ensures forall k :: k in BlankFields(fields, initial) <==> k in initial || k in fields
  {
  }

  /** Blanking twice is blanking once. */
  lemma BlankFieldsIdempotent(fields: seq<string>, initial: Initial)
    ensures BlankFields(fields, BlankFields(fields, initial)) == BlankFields(fields, initial)
  {
    var once := BlankFields(fields, initial);
    var twice := BlankFields(fields, once);
    assert twice.Keys == once.Keys;
    forall k | k in once
      ensures twice[k] == once[k]
    {
    }
  }

  /** Walking the items keeps the keys, leaves no None value and changes only
      the None values; over the form's own fields it agrees with the other
      constructors' blanking. */
  lemma BlankNonesComplete(fields: seq<string>, initial: Initial)
    ensures BlankNones(initial).Keys == initial.Keys
    ensures forall k :: k in initial ==> BlankNones(initial)[k].Some?
    ensures forall k :: k in initial && initial[k].Some? ==> BlankNones(initial)[k] == initial[k]
    ensures (forall k :: k in fields <==> k in initial) ==> BlankNones(initial) == BlankFields(fields, initial)
  {
    if forall k :: k in fields <==> k in initial {
      assert BlankNones(initial).Keys == BlankFields(fields, initial).Keys;
    }
  }

  /** `BlankFields` over one more field is the previous map with that field
      blanked when it is missing or None. */
  lemma BlankFieldsSnoc(fields: seq<string>, name: string, initial: Initial)
    ensures var prev := BlankFields(fields, initial);
      BlankFields(fields + [name], initial) == if MissingOrNone(prev, name) then prev[name := Some("")] else prev
  {
    var prev := BlankFields(fields, initial);
    var next := BlankFields(fields + [name], initial);
    var expected := if MissingOrNone(prev, name) then prev[name := Some("")] else prev;
    assert forall k :: k in fields + [name] <==> k in fields || k == name;
    assert next.Keys == expected.Keys;
    forall k | k in next
      ensures next[k] == expected[k]
    {
    }
  }

  /** The field names of the forms. */
  const RegistrationFields: seq<string> := ["email", "first_name", "last_name", "password1", "password2"]
  const MemberFields: seq<string> := ["username", "title", "role", "profile_image", "first_name", "last_name", "maiden_name", "biography", "gender", "email", "phone", "address", "password1", "password2"]
  const AccountUpdateFields: seq<string> := ["username", "title", "profile_image", "first_name", "last_name", "maiden_name", "biography", "gender", "email", "phone", "address"]
  const GeneralEditFields: seq<string> := ["username", "email", "phone", "address"]
  const FamilyFields: seq<string> := ["name", "leader"]

  /** A bound form's field list and initial values. */
  class FormInitial {
    const fields: seq<string>
    var initial: Initial

    /** The constructor of RegistrationForm, MemberForm and FamilyForm: for each
        field in turn, a missing or None initial value becomes "". */
    constructor OverFields(fields: seq<string>, initial: Initial)
      ensures this.fields == fields && this.initial == BlankFields(fields, initial)
    {
      this.fields := fields;
      this.initial := initial;
      new;
      assert this.initial == BlankFields([], initial);
      var i := 0;
      while i < |fields|
        invariant 0 <= i <= |fields|
        invariant this.initial == BlankFields(fields[..i], initial)
      {
        var name := fields[i];
        BlankFieldsSnoc(fields[..i], name, initial);
        assert fields[..i + 1] == fields[..i] + [name];
        if MissingOrNone(this.initial, name) {
          this.initial := this.initial[name := Some("")];
        }
        i := i + 1;
      }
      assert fields[..|fields|] == fields;
    }

    /** The constructor of AccountUpdateForm and GeneralEditForm: for each
        initial item, a None value becomes "". */
    constructor OverItems(fields: seq<string>, initial: Initial)
      ensures this.fields == fields && this.initial == BlankNones(initial)
    {
      this.fields := fields;
      this.initial := initial;
      new;
      var todo := initial.Keys;
      while todo != {}
        invariant todo <= initial.Keys
        invariant this.initial.Keys == initial.Keys
        invariant forall k :: k in initial ==> this.initial[k] == if k in todo then initial[k] else BlankNones(initial)[k]
        decreases todo
      {
        var k :| k in todo;
        if this.initial[k].None? {
          this.initial := this.initial[k := Some("")];
        }
        todo := todo - {k};
      }
      assert this.initial.Keys == BlankNones(initial).Keys;
    }
  }

  /** The accounts whose `field` equals `v`: `filter(field=v)`. */
  function Holding(users: seq<Account>, field: Account -> string, v: string): (r: seq<Account>)
    ensures |r| > 0 <==> exists i :: 0 <= i < |users| && field(users[i]) == v
  {
    var r := Filter(users, (a: Account) => field(a) == v);
    assert |r| > 0 ==> r[0] in users;
    r
  }

  /** The accounts other than the form's instance: `exclude(pk=instance.pk)`;
      an unsaved instance has no key and excludes nothing. */
  function Others(users: seq<Account>, instance: Option<Id>): (r: seq<Account>)
    ensures forall a :: a in r <==> a in users && (instance.None? || a.id != instance.value)
  {
    Filter(users, (a: Account) => instance.None? || a.id != instance.value)
  }

  /** Some account other than `instance` holds `v` in `field`. */
  ghost predicate HeldByOther(users: seq<Account>, instance: Option<Id>, field: Account -> string, v: string)
  {
    exists i :: 0 <= i < |users| && (instance.None? || users[i].id != instance.value) && field(users[i]) == v
  }

  /** Looking `v` up among the other accounts finds a row exactly when another
      account holds it. */
  lemma HoldingOthers(users: seq<Account>, instance: Option<Id>, field: Account -> string, v: string)
    ensures |Holding(Others(users, instance), field, v)| > 0 <==> HeldByOther(users, instance, field, v)
  {
    var others := Others(users, instance);
    if |Holding(others, field, v)| > 0 {
      var k :| 0 <= k < |others| && field(others[k]) == v;
      assert others[k] in users;
      var i :| 0 <= i < |users| && users[i] == others[k];
    }
    if HeldByOther(users, instance, field, v) {
      var i :| 0 <= i < |users| && (instance.None? || users[i].id != instance.value) && field(users[i]) == v;
      assert users[i] in others;
      var k :| 0 <= k < |others| && others[k] == users[i];
    }
  }

  function EmailRegistered(email: string): string
  {
    "This email (" + email + ") is already registered."
  }

  /** `clean_email` of RegistrationForm and MemberForm: the cleaned email (None
      when the field itself failed) is rejected when any user holds it, and is
      otherwise kept. No user's email is null, so a None email is kept. */
  function CleanEmail(users: seq<Account>, email: Option<string>): (r: Result<Option<string>, Error>)
    ensures r.Err? <==> email.Some? && exists i :: 0 <= i < |users| && users[i].email == email.value
    ensures r.Err? ==> r.error == ValidationError(EmailRegistered(email.value))
    ensures r.Ok? ==> r.value == email
  {
    if email.Some? && |Holding(users, AccountEmail, email.value)| > 0 then Err(ValidationError(EmailRegistered(email.value)))
    else Ok(email)
  }

  /** An email that passed `clean_email` is held by no user, so adding an
      account with it keeps emails distinct wherever they were. */
  lemma CleanEmailKeepsDistinct(users: seq<Account>, e: string, a: Account)
    requires UniqueBy(users, AccountEmail)
    requires CleanEmail(users, Some(e)).Ok? && a.email == e
    ensures UniqueBy(users + [a], AccountEmail)
  {
    var s := users + [a];
    forall i, j | 0 <= i < j < |s|
      ensures s[i].email != s[j].email
    {
      if j == |users| {
        assert s[i] == users[i];
      } else {
        assert s[i] == users[i] && s[j] == users[j];
      }
    }
  }

  /** The validated values of RegistrationForm the model keeps. */
  datatype RegistrationData = RegistrationData(email: string, firstName: string, lastName: string)

  /** The validated values of MemberForm the model keeps. */
  datatype MemberData = MemberData(username: string, email: string, firstName: string, lastName: string, role: Role)

  /** The account `RegistrationForm.save` builds: the email is also the
      username; the other columns keep their defaults (role MEMBER, no family,
      active, not approved, neither staff nor superuser). */
  function RegistrationUser(id: Id, data: RegistrationData): Account
  {
    Account(id, data.email, data.email, data.firstName, data.lastName, Member, None, true, false, false, false)
  }

  /** The account `MemberForm.save` builds: the submitted username, email,
      names and role. */
  function MemberUser(id: Id, data: MemberData): Account
  {
    Account(id, data.username, data.email, data.firstName, data.lastName, data.role, None, true, false, false, false)
  }

  /** Inserting a new account row: the username column is unique, so a taken
      username is an IntegrityError. */
  function InsertAccountRows(accounts: seq<Account>, a: Account): (r: Result<seq<Account>, Error>)
    ensures r.Err? <==> exists i :: 0 <= i < |accounts| && accounts[i].username == a.username
    ensures r.Err? ==> r.error == IntegrityError
    ensures r.Ok? ==> r.value == accounts + [a]
  {
    match IndexOfKey(accounts, AccountUsername, a.username)
    case Some(_) => Err(IntegrityError)
    case None => Ok(accounts + [a])
  }

  lemma InsertAccountKeepsValid(accounts: seq<Account>, a: Account, bound: nat)
    requires AccountsValid(accounts, bound) && a.id == bound
    requires InsertAccountRows(accounts, a).Ok?
    ensures AccountsValid(InsertAccountRows(accounts, a).value, bound + 1)
  {
    var s := accounts + [a];
    forall i, j | 0 <= i < j < |s|
      ensures s[i].id != s[j].id && s[i].username != s[j].username
    {
      if j == |accounts| {
        assert s[i] == accounts[i];
      } else {
        assert s[i] == accounts[i] && s[j] == accounts[j];
      }
    }
  }

  /** The registered account is the one a lookup by its email as username
      finds. */
  lemma RegisteredFoundByEmail(accounts: seq<Account>, id: Id, data: RegistrationData, bound: nat)
    requires AccountsValid(accounts, bound) && id == bound
    requires InsertAccountRows(accounts, RegistrationUser(id, data)).Ok?
    ensures var rows := InsertAccountRows(accounts, RegistrationUser(id, data)).value;
      IndexOfKey(rows, AccountUsername, data.email) == Some(|accounts|)
      && rows[|accounts|] == RegistrationUser(id, data)
  {
    var rows := accounts + [RegistrationUser(id, data)];
    InsertAccountKeepsValid(accounts, RegistrationUser(id, data), bound);
    IndexOfKeyUnique(rows, AccountUsername, |accounts|);
  }

  /** `clean_email` does not guard the username column: an email no user holds
      can still be another user's username (a member created through MemberForm
      may have any username), and then the registration's save fails. */
  lemma CleanEmailDoesNotGuardUsername()
    ensures var other := Account(0, "thabo@example.org", "thabo@work.example", "Thabo", "Molefe", Member, None, true, false, false, false);
      var data := RegistrationData("thabo@example.org", "Thabo", "Molefe");
      CleanEmail([other], Some(data.email)).Ok?
      && InsertAccountRows([other], RegistrationUser(1, data)) == Err(IntegrityError)
  {
    var other := Account(0, "thabo@example.org", "thabo@work.example", "Thabo", "Molefe", Member, None, true, false, false, false);
    assert other.email != "thabo@example.org";
  }

  /** Write a new account row, with the next identifier. */
  method SaveNewAccount(db: Database, a: Account) returns (r: Result<Account, Error>)
    requires db.Valid() && a.id == db.nextId
    modifies db`accounts, db`nextId
    ensures db.Valid()
    ensures r.Err? <==> InsertAccountRows(old(db.accounts), a).Err?
    ensures r.Err? ==> r.error == IntegrityError && db.accounts == old(db.accounts) && db.nextId == old(db.nextId)
    ensures r.Ok? ==> r.value == a && db.accounts == old(db.accounts) + [a] && db.nextId == old(db.nextId) + 1
  {
    match InsertAccountRows(db.accounts, a)
    case Err(e) =>
      r := Err(e);
    case Ok(rows) =>
      InsertAccountKeepsValid(db.accounts, a, db.nextId);
      db.accounts := rows;
      db.nextId := db.nextId + 1;
      r := Ok(a);
  }

  /** RegistrationForm, validated and saved: `clean_email` first, then the row
      with the email as username. */
  method Register(db: Database, data: RegistrationData) returns (r: Result<Account, Error>)
    requires db.Valid()
    modifies db`accounts, db`nextId
    ensures db.Valid()
    ensures CleanEmail(old(db.accounts), Some(data.email)).Err? ==>
      r == Err(ValidationError(EmailRegistered(data.email))) && db.accounts == old(db.accounts)
    ensures CleanEmail(old(db.accounts), Some(data.email)).Ok? ==>
      (r.Err? <==> exists i :: 0 <= i < |old(db.accounts)| && old(db.accounts)[i].username == data.email)
    ensures r.Err? ==> db.accounts == old(db.accounts)
    ensures r.Ok? ==> r.value == RegistrationUser(old(db.nextId), data) && db.accounts == old(db.accounts) + [r.value]
  {
    match CleanEmail(db.accounts, Some(data.email))
    case Err(e) =>
      r := Err(e);
    case Ok(_) =>
      r := SaveNewAccount(db, RegistrationUser(db.nextId, data));
  }

  const UsernameTaken: string := "A user with that username already exists."

  /** A username with its letters folded to lower case, as the
      case-insensitive lookup compares it. */
  function FoldedUsername(a: Account): string
  {
    LowerAscii(a.username)
  }

  /** The username check MemberForm inherits from UserCreationForm: a username
      that equals a stored one up to letter case is rejected. RegistrationForm
      has no username field, so it never runs there. */
  function CleanUsername(users: seq<Account>, username: string): (r: Result<string, Error>)
    ensures r.Err? <==> exists i :: 0 <= i < |users| && LowerAscii(users[i].username) == LowerAscii(username)
    ensures r.Err? ==> r.error == ValidationError(UsernameTaken)
    ensures r.Ok? ==> r.value == username
  {
    if |Holding(users, FoldedUsername, LowerAscii(username))| > 0 then Err(ValidationError(UsernameTaken))
    else Ok(username)
  }

  /** A username that passed the form's check is not taken, so the save of
      MemberForm cannot fail on the unique username column. */
  lemma CleanUsernameGuardsInsert(users: seq<Account>, a: Account)
    requires CleanUsername(users, a.username).Ok?
    ensures InsertAccountRows(users, a) == Ok(users + [a])
  {
    forall i | 0 <= i < |users|
      ensures users[i].username != a.username
    {
      assert LowerAscii(users[i].username) != LowerAscii(a.username);
    }
  }

  /** The check compares without letter case: with a member "thabo" on file, the
      username "Thabo" is refused although no row holds it exactly. */
  lemma CaseVariantUsernameRejected()
    ensures var thabo := Account(0, "thabo", "thabo@example.org", "Thabo", "Molefe", Member, None, true, false, false, false);
      thabo.username != "Thabo" && CleanUsername([thabo], "Thabo") == Err(ValidationError(UsernameTaken))
  {
    var thabo := Account(0, "thabo", "thabo@example.org", "Thabo", "Molefe", Member, None, true, false, false, false);
    assert LowerChar('T') == 't';
    assert LowerAscii("Thabo") == "thabo" by {
      assert LowerAscii("Thabo")[0] == 't';
    }
    assert LowerAscii("thabo") == "thabo";
    assert LowerAscii([thabo][0].username) == LowerAscii("Thabo");
  }

  /** MemberForm, validated and saved: the username check, then `clean_email`,
      then the row with the submitted username, whose save cannot fail once
      the username check passed. */
  method AddMember(db: Database, data: MemberData) returns (r: Result<Account, Error>)
    requires db.Valid()
    modifies db`accounts, db`nextId
    ensures db.Valid()
    ensures CleanUsername(old(db.accounts), data.username).Err? ==>
      r == Err(ValidationError(UsernameTaken))
    ensures CleanUsername(old(db.accounts), data.username).Ok? && CleanEmail(old(db.accounts), Some(data.email)).Err? ==>
      r == Err(ValidationError(EmailRegistered(data.email)))
    ensures r.Ok? <==> CleanUsername(old(db.accounts), data.username).Ok? && CleanEmail(old(db.accounts), Some(data.email)).Ok?
    ensures r.Err? ==> db.accounts == old(db.accounts)
    ensures r.Ok? ==> r.value == MemberUser(old(db.nextId), data) && db.accounts == old(db.accounts) + [r.value]
  {
    match CleanUsername(db.accounts, data.username)
    case Err(e) =>
      r := Err(e);
    case Ok(_) =>
      match CleanEmail(db.accounts, Some(data.email))
      case Err(e) =>
        r := Err(e);
      case Ok(_) =>
        CleanUsernameGuardsInsert(db.accounts, MemberUser(db.nextId, data));
        r := SaveNewAccount(db, MemberUser(db.nextId, data));
  }

  function UsernameInUse(username: string): string
  {
    "This username: " + username + " is already in use."
  }

  function EmailInUse(email: string): string
  {
    "This email: " + email + " is already in use."
  }

  /** `GeneralEditForm.clean`: the username is checked first, then the email,
      each against the users other than the form's instance; on success the
      cleaned values are returned unchanged. A None value matches no user (no
      column is null). */
  function GeneralEditClean(users: seq<Account>, instance: Option<Id>, username: Option<string>, email: Option<string>): (r: Result<(Option<string>, Option<string>), Error>)
    ensures username.Some? && HeldByOther(users, instance, AccountUsername, username.value) ==>
      r == Err(ValidationError(UsernameInUse(username.value)))
    ensures ((username.None? || !HeldByOther(users, instance, AccountUsername, username.value))
             && email.Some? && HeldByOther(users, instance, AccountEmail, email.value)) ==>
      r == Err(ValidationError(EmailInUse(email.value)))
    ensures r.Ok? <==>
      (username.None? || !HeldByOther(users, instance, AccountUsername, username.value))
      && (email.None? || !HeldByOther(users, instance, AccountEmail, email.value))
    ensures r.Ok? ==> r.value == (username, email)
  {
    var others := Others(users, instance);
    HoldingOthers(users, instance, AccountUsername, if username.Some? then username.value else "");
    HoldingOthers(users, instance, AccountEmail, if email.Some? then email.value else "");
    if username.Some? && |Holding(others, AccountUsername, username.value)| > 0 then
      Err(ValidationError(UsernameInUse(username.value)))
    else if email.Some? && |Holding(others, AccountEmail, email.value)| > 0 then
      Err(ValidationError(EmailInUse(email.value)))
    else Ok((username, email))
  }

  /** A user resubmitting their own username never meets the username error:
      their own row is excluded, and no other row holds it. */
  lemma OwnUsernameAccepted(users: seq<Account>, i: nat)
    requires i < |users| && UniqueBy(users, AccountId) && UniqueBy(users, AccountUsername)
    ensures !HeldByOther(users, Some(users[i].id), AccountUsername, users[i].username)
  {
    forall j | 0 <= j < |users| && users[j].id != users[i].id
      ensures users[j].username != users[i].username
    {
      assert j != i;
    }
  }

  /** The account row after a general edit of `users[i]`. */
  function EditedAccount(a: Account, username: string, email: string): Account
  {
    a.(username := username, email := email)
  }

  /** A general edit that passed `clean` keeps usernames unique, so its save
      cannot fail on the username column. */
  lemma GeneralEditKeepsValid(users: seq<Account>, i: nat, username: string, email: string, bound: nat)
    requires AccountsValid(users, bound) && i < |users|
    requires GeneralEditClean(users, Some(users[i].id), Some(username), Some(email)).Ok?
    ensures AccountsValid(Upsert(users, EditedAccount(users[i], username, email), AccountId), bound)
  {
    var a := EditedAccount(users[i], username, email);
    forall y | y in users && y.username == a.username
      ensures y.id == a.id
    {
      var j :| 0 <= j < |users| && users[j] == y;
    }
    UpsertKeepsUnique(users, a, AccountId, AccountUsername);
    UpsertContents(users, a, AccountId);
    UpsertKeepsBelow(users, a, AccountId, bound);
  }

  /** GeneralEditForm on the signed-in account `users[i]`, validated and
      saved: on success its username and email are replaced in place; on a
      clean error nothing is written. */
  method GeneralEdit(db: Database, i: nat, username: string, email: string) returns (r: Result<Account, Error>)
    requires db.Valid() && i < |db.accounts|
    modifies db`accounts
    ensures db.Valid()
    ensures r.Err? <==> GeneralEditClean(old(db.accounts), Some(old(db.accounts)[i].id), Some(username), Some(email)).Err?
    ensures r.Err? ==> db.accounts == old(db.accounts)
    ensures r.Ok? ==>
      r.value == EditedAccount(old(db.accounts)[i], username, email) && db.accounts == old(db.accounts)[i := r.value]
  {
    var a := db.accounts[i];
    match GeneralEditClean(db.accounts, Some(a.id), Some(username), Some(email))
    case Err(e) =>
      r := Err(e);
    case Ok(_) =>
      var row := EditedAccount(a, username, email);
      GeneralEditKeepsValid(db.accounts, i, username, email, db.nextId);
      IndexOfKeyUnique(db.accounts, AccountId, i);
      db.accounts := Upsert(db.accounts, row, AccountId);
      r := Ok(row);
  }
}
