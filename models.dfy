/** backend/api/models.py: the upload session and equipment record tables, their defaults,
    default ordering and string forms, and the two cascading foreign keys (a session belongs
    to a user, an equipment record to a session). A whole database is a `Db` value. */
module Models {
  import opened Sequences

  /** The declared `max_length` of the character columns. */
  const FileNameMaxLength: nat := 255
  const NameMaxLength: nat := 255
  const TypeMaxLength: nat := 100

  /** A `created_at` value: the instant it orders by, and its two renderings. `strText` is
      Python's `str(datetime)` (`2024-05-01 10:00:00.123456+00:00`), used by `__str__`;
      `isoText` is the ISO 8601 text REST framework's `DateTimeField` emits
      (`2024-05-01T10:00:00.123456Z`). Both are supplied with the instant, since the
      formatting itself is not part of this model. */
  datatype Timestamp = Timestamp(instant: int, strText: string, isoText: string)

  /** The fields of Django's `User` that the views read or write. */
  datatype AuthUser = AuthUser(id: nat, username: string, password: string, email: string)

  datatype UploadSession = UploadSession(
    id: nat,
    user: nat,
    createdAt: Timestamp,
    fileName: string,
    totalCount: int,
    avgFlowrate: real,
    avgPressure: real,
    avgTemperature: real,
    equipmentDistribution: seq<(string, nat)>)

  datatype EquipmentData = EquipmentData(
    id: nat,
    session: nat,
    name: string,
    equipmentType: string,
    flowrate: real,
    pressure: real,
    temperature: real)

  /** A session created with only its required fields: every other column takes its default
      (counts and averages zero, an empty distribution). */
  function NewUploadSession(id: nat, user: nat, createdAt: Timestamp, fileName: string): (s: UploadSession)
    ensures s.id == id && s.user == user && s.createdAt == createdAt && s.fileName == fileName
    ensures s.totalCount == 0 && s.avgFlowrate == 0.0 && s.avgPressure == 0.0 && s.avgTemperature == 0.0
    ensures s.equipmentDistribution == []
  {
    UploadSession(id, user, createdAt, fileName, 0, 0.0, 0.0, 0.0, [])
  }

  /** The character columns are within their declared widths. */
  predicate SessionFits(s: UploadSession) {
    |s.fileName| <= FileNameMaxLength
  }

  predicate ItemFits(e: EquipmentData) {
    |e.name| <= NameMaxLength && |e.equipmentType| <= TypeMaxLength
  }

  /** The key of the default ordering `-created_at`. */
  function CreatedKey(s: UploadSession): int {
    s.createdAt.instant
  }

  predicate NewestFirst(ss: seq<UploadSession>) {
    Descending(ss, CreatedKey)
  }

  /** `UploadSession.objects.all()` in the default ordering. */
  function DefaultOrder(ss: seq<UploadSession>): (r: seq<UploadSession>)
    ensures NewestFirst(r) && multiset(r) == multiset(ss)
  {
    SortDescending(ss, CreatedKey)
  }

  /** `str(session)`: the file name, " - ", and the creation time. */
  function SessionString(s: UploadSession): (r: string)
    ensures |r| == |s.fileName| + 3 + |s.createdAt.strText|
    ensures r[..|s.fileName|] == s.fileName && r[|s.fileName|..|s.fileName| + 3] == " - "
    ensures r[|s.fileName| + 3..] == s.createdAt.strText
  {
    s.fileName + " - " + s.createdAt.strText
  }

  /** `str(item)`: the name and the type in parentheses. */
  function ItemString(e: EquipmentData): (r: string)
    ensures |r| == |e.name| + 3 + |e.equipmentType|
    ensures r[..|e.name|] == e.name && r[|e.name|..|e.name| + 2] == " ("
    ensures r[|e.name| + 2..|r| - 1] == e.equipmentType && r[|r| - 1] == ')'
  {
    e.name + " (" + e.equipmentType + ")"
  }

  /** Two sessions with file names of one length have the same string form only when file
      name and creation text agree: the form loses nothing once the name's length is known. */
  lemma SessionStringInjective(a: UploadSession, b: UploadSession)
    requires |a.fileName| == |b.fileName| && SessionString(a) == SessionString(b)
    ensures a.fileName == b.fileName && a.createdAt.strText == b.createdAt.strText
  {
    assert SessionString(a)[..|a.fileName|] == SessionString(b)[..|b.fileName|];
    assert SessionString(a)[|a.fileName| + 3..] == SessionString(b)[|b.fileName| + 3..];
  }

  /** The tables, and the next value of each auto-increment id. */
  datatype Db = Db(
    users: seq<AuthUser>,
    sessions: seq<UploadSession>,
    items: seq<EquipmentData>,
    nextUserId: nat,
    nextSessionId: nat,
    nextItemId: nat)

  predicate HasUser(users: seq<AuthUser>, id: nat) {
    exists i :: 0 <= i < |users| && users[i].id == id
  }

  predicate HasSession(sessions: seq<UploadSession>, id: nat) {
    exists i :: 0 <= i < |sessions| && sessions[i].id == id
  }

  /** Some session with this id belongs to this user. */
  predicate SessionOf(sessions: seq<UploadSession>, id: nat, user: nat) {
    exists i :: 0 <= i < |sessions| && sessions[i].id == id && sessions[i].user == user
  }

  /** Every foreign key points at an existing row. */
  predicate Linked(db: Db) {
    && (forall i :: 0 <= i < |db.sessions| ==> HasUser(db.users, db.sessions[i].user))
    && (forall i :: 0 <= i < |db.items| ==> HasSession(db.sessions, db.items[i].session))
  }

  /** Deleting a user cascades to their sessions and to those sessions' items. */
  function DeleteUser(db: Db, user: nat): (r: Db)
    ensures forall i :: 0 <= i < |r.users| ==> r.users[i].id != user
    ensures forall i :: 0 <= i < |r.sessions| ==> r.sessions[i].user != user
    ensures forall i :: 0 <= i < |r.items| ==> !SessionOf(db.sessions, r.items[i].session, user)
    ensures forall u :: multiset(r.users)[u] == if u.id != user then multiset(db.users)[u] else 0
    ensures forall s :: multiset(r.sessions)[s] == if s.user != user then multiset(db.sessions)[s] else 0
    ensures forall e :: multiset(r.items)[e] ==
              if !SessionOf(db.sessions, e.session, user) then multiset(db.items)[e] else 0
  {
    db.(users := Filter(db.users, (u: AuthUser) => u.id != user),
        sessions := Filter(db.sessions, (s: UploadSession) => s.user != user),
        items := Filter(db.items, (e: EquipmentData) => !SessionOf(db.sessions, e.session, user)))
  }

  /** Deleting a session cascades to its items. */
  function DeleteSession(db: Db, id: nat): (r: Db)
    ensures r.users == db.users
    ensures forall i :: 0 <= i < |r.sessions| ==> r.sessions[i].id != id
    ensures forall i :: 0 <= i < |r.items| ==> r.items[i].session != id
    ensures forall s :: multiset(r.sessions)[s] == if s.id != id then multiset(db.sessions)[s] else 0
    ensures forall e :: multiset(r.items)[e] == if e.session != id then multiset(db.items)[e] else 0
  {
    db.(sessions := Filter(db.sessions, (s: UploadSession) => s.id != id),
        items := Filter(db.items, (e: EquipmentData) => e.session != id))
  }

  /** An element of a sequence is counted by its multiset. */
  lemma InFromMultiset<T>(x: T, s: seq<T>)
    requires multiset(s)[x] > 0
    ensures exists i :: 0 <= i < |s| && s[i] == x
  {
    assert x in multiset(s);
    assert x in s;
  }

  /** After a user's deletion no foreign key dangles. */
  lemma DeleteUserKeepsLinked(db: Db, user: nat)
    requires Linked(db)
    ensures Linked(DeleteUser(db, user))
  {
    var r := DeleteUser(db, user);
    forall i | 0 <= i < |r.sessions|
      ensures HasUser(r.users, r.sessions[i].user)
    {
      KeptSessionHasUser(db, user, r, r.sessions[i]);
    }
    forall i | 0 <= i < |r.items|
      ensures HasSession(r.sessions, r.items[i].session)
    {
      KeptItemHasSession(db, user, r, r.items[i]);
    }
  }

  lemma KeptSessionHasUser(db: Db, user: nat, r: Db, s: UploadSession)
    requires Linked(db) && r == DeleteUser(db, user) && s in r.sessions
    ensures HasUser(r.users, s.user)
  {
    assert s in multiset(r.sessions);
    InFromMultiset(s, db.sessions);
    var j :| 0 <= j < |db.users| && db.users[j].id == s.user;
    assert multiset(r.users)[db.users[j]] > 0 by {
      assert db.users[j] in multiset(db.users);
    }
    InFromMultiset(db.users[j], r.users);
  }

  lemma KeptItemHasSession(db: Db, user: nat, r: Db, e: EquipmentData)
    requires Linked(db) && r == DeleteUser(db, user) && e in r.items
    ensures HasSession(r.sessions, e.session)
  {
    assert e in multiset(r.items);
    InFromMultiset(e, db.items);
    assert !SessionOf(db.sessions, e.session, user);
    var j :| 0 <= j < |db.sessions| && db.sessions[j].id == e.session;
    assert db.sessions[j].user != user;
    assert multiset(r.sessions)[db.sessions[j]] > 0 by {
      assert db.sessions[j] in multiset(db.sessions);
    }
    InFromMultiset(db.sessions[j], r.sessions);
  }

  /** After a session's deletion no foreign key dangles. */
  lemma DeleteSessionKeepsLinked(db: Db, id: nat)
    requires Linked(db)
    ensures Linked(DeleteSession(db, id))
  {
    var r := DeleteSession(db, id);
    forall i | 0 <= i < |r.sessions|
      ensures HasUser(r.users, r.sessions[i].user)
    {
      var s := r.sessions[i];
      assert s in multiset(r.sessions);
      InFromMultiset(s, db.sessions);
    }
    forall i | 0 <= i < |r.items|
      ensures HasSession(r.sessions, r.items[i].session)
    {
      SurvivingItemHasSession(db, id, r, r.items[i]);
    }
  }

  lemma SurvivingItemHasSession(db: Db, id: nat, r: Db, e: EquipmentData)
    requires Linked(db) && r == DeleteSession(db, id) && e in r.items
    ensures HasSession(r.sessions, e.session)
  {
    assert e in multiset(r.items);
    InFromMultiset(e, db.items);
    var j :| 0 <= j < |db.sessions| && db.sessions[j].id == e.session;
    assert multiset(r.sessions)[db.sessions[j]] > 0 by {
      assert db.sessions[j] in multiset(db.sessions);
    }
    InFromMultiset(db.sessions[j], r.sessions);
  }
}
