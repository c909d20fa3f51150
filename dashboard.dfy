/** Clan documents and meetings: who may open a document, the document list the
    admin shows each role, the slugs both models fill in on save, and the
    meeting's audience helpers. */
module Dashboard {
  import opened Base
  import opened Types
  import opened Text
  import opened Store

  /** Users who see every document. */
  predicate IsAdmin(a: Account)
  {
    a.role == ClanChairperson || a.isSuperuser
  }

  /** `ClanDocument.user_has_access`. */
  function UserHasAccess(d: ClanDocument, user: User): (r: bool)
    ensures user.Anonymous? ==> !r
    ensures user.SignedIn? && IsAdmin(user.account) ==> r
    ensures user.SignedIn? && !IsAdmin(user.account) ==>
      (r <==> d.visibility == VisClan || (d.visibility == VisFamily && d.family.Some? && user.account.family == d.family))
  {
    match user
    case Anonymous => false
    case SignedIn(a) =>
      if IsAdmin(a) then true
      else if d.visibility == VisClan then true
      else if d.visibility == VisFamily then d.family.Some? && a.family == d.family
      else false
  }

  /** `ensure_user_has_access`: True, or PermissionDenied. */
  function EnsureUserHasAccess(d: ClanDocument, user: User): (r: Result<bool, Error>)
    ensures r == Ok(true) <==> UserHasAccess(d, user)
    ensures r.Err? <==> !UserHasAccess(d, user)
    ensures r.Err? ==> r.error == PermissionDenied
  {
    if !UserHasAccess(d, user) then Err(PermissionDenied) else Ok(true)
  }

  /** Private documents are for administrators only; a family document without
      a family is for administrators only too. */
  lemma PrivateForAdminsOnly(d: ClanDocument, user: User)
    requires d.visibility == VisPrivate || d.visibility == VisOther || (d.visibility == VisFamily && d.family.None?)
    ensures UserHasAccess(d, user) <==> user.SignedIn? && IsAdmin(user.account)
  {
  }

  /** The admin's filter for a non-administrator (`Q(family=user.family)`
      compares null with null as equal). */
  function AdminKeeps(user: Account): ClanDocument -> bool
  {
    if user.role == FamilyLeader then
      (d: ClanDocument) => d.visibility == VisClan || d.family == user.family
    else
      (d: ClanDocument) => d.visibility == VisClan || (d.family == user.family && d.visibility == VisFamily)
  }

  /** `ClanDocumentAdmin.get_queryset`: every document for administrators; clan
      documents and those of their family for family leaders; clan documents and
      their family's family documents for everyone else. */
  function AdminQueryset(docs: seq<ClanDocument>, user: Account): (r: seq<ClanDocument>)
    ensures multiset(r) <= multiset(docs)
    ensures IsAdmin(user) ==> r == docs
    ensures !IsAdmin(user) && user.role == FamilyLeader ==> forall i :: 0 <= i < |docs| ==>
      (docs[i] in r <==> docs[i].visibility == VisClan || docs[i].family == user.family)
    ensures !IsAdmin(user) && user.role != FamilyLeader ==> forall i :: 0 <= i < |docs| ==>
      (docs[i] in r <==> docs[i].visibility == VisClan || (docs[i].family == user.family && docs[i].visibility == VisFamily))
  {
    if IsAdmin(user) then docs else Filter(docs, AdminKeeps(user))
  }

  /** For members the admin list and the access rule agree: the list holds every
      document the member may open, and every listed document the member may
      not open is a family document of no family shown to a member of no
      family. */
  lemma MemberListMatchesAccess(docs: seq<ClanDocument>, user: Account, i: nat)
    requires !IsAdmin(user) && user.role != FamilyLeader && i < |docs|
    ensures UserHasAccess(docs[i], SignedIn(user)) ==> docs[i] in AdminQueryset(docs, user)
    ensures docs[i] in AdminQueryset(docs, user) && !UserHasAccess(docs[i], SignedIn(user)) ==>
      docs[i].visibility == VisFamily && docs[i].family.None? && user.family.None?
  {
  }

  /** Family leaders are listed their family's private documents, which the
      access rule refuses them. */
  lemma LeaderListsPrivate(docs: seq<ClanDocument>, user: Account, i: nat)
    requires user.role == FamilyLeader && !user.isSuperuser && i < |docs|
    requires docs[i].visibility == VisPrivate && docs[i].family == user.family
    ensures docs[i] in AdminQueryset(docs, user) && !UserHasAccess(docs[i], SignedIn(user))
  {
  }

  /** `file_name`: the part of the stored path after its last slash. */
  function FileName(d: ClanDocument): (r: string)
    ensures '/' !in r
    ensures |r| <= |d.fileName| && r == d.fileName[|d.fileName| - |r|..]
    ensures |r| < |d.fileName| ==> d.fileName[|d.fileName| - |r| - 1] == '/'
  {
    AfterLastSlash(d.fileName)
  }

  /** The document row `ClanDocument.save` writes: a blank slug is filled from
      the title; a slug once set is kept. */
  function DocumentRow(d: ClanDocument): (r: ClanDocument)
    ensures |d.slug| > 0 ==> r == d
    ensures |d.slug| == 0 ==> r == d.(slug := Slugify(d.title))
  {
    if |d.slug| == 0 then d.(slug := Slugify(d.title)) else d
  }

  /** Renaming a saved document keeps its slug. */
  lemma RenameKeepsSlug(d: ClanDocument, title: string)
    requires |d.slug| > 0
    ensures DocumentRow(d.(title := title)).slug == DocumentRow(d).slug == d.slug
  {
  }

  /** The document table after a save: IntegrityError when another document
      already has the slug, otherwise the row is inserted or updated. */
  function SaveDocumentRows(docs: seq<ClanDocument>, d: ClanDocument): (r: Result<seq<ClanDocument>, Error>)
    ensures r.Err? <==> exists j :: 0 <= j < |docs| && docs[j].id != d.id && docs[j].slug == DocumentRow(d).slug
    ensures r.Err? ==> r.error == IntegrityError
    ensures r.Ok? ==> r.value == Upsert(docs, DocumentRow(d), DocumentId)
  {
    var row := DocumentRow(d);
    if exists j :: 0 <= j < |docs| && docs[j].id != d.id && docs[j].slug == row.slug then Err(IntegrityError)
    else Ok(Upsert(docs, row, DocumentId))
  }

  lemma SaveDocumentKeepsValid(docs: seq<ClanDocument>, d: ClanDocument, bound: nat)
    requires DocumentsValid(docs, bound) && d.id < bound && SaveDocumentRows(docs, d).Ok?
    ensures DocumentsValid(SaveDocumentRows(docs, d).value, bound)
    ensures DocumentRow(d) in SaveDocumentRows(docs, d).value
  {
    var row := DocumentRow(d);
    UpsertContents(docs, row, DocumentId);
    UpsertKeepsUnique(docs, row, DocumentId, DocumentSlug);
    UpsertKeepsBelow(docs, row, DocumentId, bound);
  }

  /** `ClanDocument.save`. */
  method SaveDocument(db: Database, d: ClanDocument) returns (r: Result<ClanDocument, Error>)
    requires db.Valid() && d.id < db.nextId
    modifies db`documents
    ensures db.Valid()
    ensures r.Err? <==> SaveDocumentRows(old(db.documents), d).Err?
    ensures r.Err? ==> r.error == IntegrityError && db.documents == old(db.documents)
    ensures r.Ok? ==> r.value == DocumentRow(d) && db.documents == SaveDocumentRows(old(db.documents), d).value
  {
    match SaveDocumentRows(db.documents, d)
    case Err(e) =>
      r := Err(e);
    case Ok(rows) =>
      SaveDocumentKeepsValid(db.documents, d, db.nextId);
      db.documents := rows;
      r := Ok(DocumentRow(d));
  }

  // ---- Meeting ----

  /** The meeting row `Meeting.save` writes: a blank slug becomes the slug of
      the title followed by the meeting's date stamp. */
  function MeetingRow(m: Meeting): (r: Meeting)
    ensures |m.slug| > 0 ==> r == m
    ensures |m.slug| == 0 ==> r == m.(slug := Slugify(m.title + "-" + m.dateStamp))
  {
    if |m.slug| == 0 then m.(slug := Slugify(m.title + "-" + m.dateStamp)) else m
  }

  function SaveMeetingRows(ms: seq<Meeting>, m: Meeting): (r: Result<seq<Meeting>, Error>)
    ensures r.Err? <==> exists j :: 0 <= j < |ms| && ms[j].id != m.id && ms[j].slug == MeetingRow(m).slug
    ensures r.Err? ==> r.error == IntegrityError
    ensures r.Ok? ==> r.value == Upsert(ms, MeetingRow(m), MeetingId)
  {
    var row := MeetingRow(m);
    if exists j :: 0 <= j < |ms| && ms[j].id != m.id && ms[j].slug == row.slug then Err(IntegrityError)
    else Ok(Upsert(ms, row, MeetingId))
  }

  lemma SaveMeetingKeepsValid(ms: seq<Meeting>, m: Meeting, bound: nat)
    requires MeetingsValid(ms, bound) && m.id < bound && SaveMeetingRows(ms, m).Ok?
    ensures MeetingsValid(SaveMeetingRows(ms, m).value, bound)
    ensures MeetingRow(m) in SaveMeetingRows(ms, m).value
  {
    var row := MeetingRow(m);
    UpsertContents(ms, row, MeetingId);
    UpsertKeepsUnique(ms, row, MeetingId, MeetingSlug);
    UpsertKeepsBelow(ms, row, MeetingId, bound);
  }

  /** `Meeting.save`. */
  method SaveMeeting(db: Database, m: Meeting) returns (r: Result<Meeting, Error>)
    requires db.Valid() && m.id < db.nextId
    modifies db`meetings
    ensures db.Valid()
    ensures r.Err? <==> SaveMeetingRows(old(db.meetings), m).Err?
    ensures r.Err? ==> r.error == IntegrityError && db.meetings == old(db.meetings)
    ensures r.Ok? ==> r.value == MeetingRow(m) && db.meetings == SaveMeetingRows(old(db.meetings), m).value
  {
    match SaveMeetingRows(db.meetings, m)
    case Err(e) =>
      r := Err(e);
    case Ok(rows) =>
      SaveMeetingKeepsValid(db.meetings, m, db.nextId);
      db.meetings := rows;
      r := Ok(MeetingRow(m));
  }

  predicate IsOnline(m: Meeting) { m.meetingType == Online }
  predicate IsForClan(m: Meeting) { m.audience == AudClan }
  predicate IsForFamily(m: Meeting) { m.audience == AudFamily && m.family.Some? }

  /** `get_audience_display_name`. `familyName` is the name of the meeting's
      family when it has one. */
  function AudienceDisplayName(m: Meeting, familyName: string): (r: string)
    ensures m.audience == AudClan ==> r == "Entire Clan"
    ensures m.audience == AudExecutives ==> r == "Clan Executives"
    ensures m.audience == AudFamilyLeaders ==> r == "Family Leaders"
    ensures IsForFamily(m) ==> r == familyName + " Family"
    ensures r == "—" <==> m.audience == AudOther || (m.audience == AudFamily && m.family.None?)
  {
    match m.audience
    case AudClan => "Entire Clan"
    case AudExecutives => "Clan Executives"
    case AudFamilyLeaders => "Family Leaders"
    case AudFamily =>
      if m.family.Some? then
        assert |familyName + " Family"| >= 7;
        familyName + " Family"
      else "—"
    case AudOther => "—"
  }

  /** The helpers agree with the display name: a meeting is for the clan exactly
      when it is shown as for the entire clan, and for a family exactly when it
      is shown with a family's name. */
  lemma AudienceHelpersAgree(m: Meeting, familyName: string)
    ensures IsForClan(m) <==> AudienceDisplayName(m, familyName) == "Entire Clan"
    ensures IsForFamily(m) <==> AudienceDisplayName(m, familyName) == familyName + " Family"
  {
    var r := AudienceDisplayName(m, familyName);
    var fam := familyName + " Family";
    assert fam[|fam| - 7..] == " Family";
  }
}
