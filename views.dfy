/** backend/api/views.py: the upload session endpoints (the five-entry history, the CSV
    upload) and user registration. The parsed CSV table, the request's authenticated user,
    the clock and a failing database write are parameters; the database is a `Models.Db`. */
module Views {
  import opened Wrappers
  import opened Sequences
  import opened Models
  import opened Serializers
  import PieGeometry
  import AuthHook

  const Ok200: int := 200
  const Created201: int := 201
  const BadRequest400: int := 400
  const Unauthorized401: int := 401

  const HistoryLimit: nat := 5
  const NoFile: string := "No file provided"
  const RequiredColumns: seq<string> := ["Equipment Name", "Type", "Flowrate", "Pressure", "Temperature"]
  /** The message names every required column, whichever are missing. */
  const MissingColumns: string :=
    "Missing required columns: ['Equipment Name', 'Type', 'Flowrate', 'Pressure', 'Temperature']"
  const CredentialsRequired: string := "Username and password required"
  const UsernameTaken: string := "Username already exists"
  const NotAuthenticated: string := "Authentication credentials were not provided."

  datatype Response = Response(status: int, body: Json)

  function ErrorResponse(message: string): (r: Response)
    ensures r.status == BadRequest400 && r.body == JObj([("error", JStr(message))])
  {
    Response(BadRequest400, JObj([("error", JStr(message))]))
  }

  /** The permission check's rejection of a request without credentials. */
  const Unauthenticated: Response := Response(Unauthorized401, JObj([("detail", JStr(NotAuthenticated))]))

  // ---------------------------------------------------------------------------------------
  // History: `filter(user=...).order_by('-created_at')[:5]`

  function OwnedBy(sessions: seq<UploadSession>, user: nat): (r: seq<UploadSession>)
    ensures forall s :: multiset(r)[s] == if s.user == user then multiset(sessions)[s] else 0
  {
    Filter(sessions, (s: UploadSession) => s.user == user)
  }

  /** `get_queryset`. */
  function History(sessions: seq<UploadSession>, user: nat): seq<UploadSession> {
    Take(SortDescending(OwnedBy(sessions, user), CreatedKey), HistoryLimit)
  }

  /** The history holds only the user's own sessions, newest first, as many as they have up
      to five, and every session of theirs it leaves out is no newer than its last entry. */
  lemma HistoryIsLatestFive(sessions: seq<UploadSession>, user: nat)
    ensures var r := History(sessions, user);
            && (forall i :: 0 <= i < |r| ==> r[i].user == user && r[i] in sessions)
            && NewestFirst(r)
            && |r| == (if |OwnedBy(sessions, user)| < HistoryLimit then |OwnedBy(sessions, user)| else HistoryLimit)
            && forall s :: s in sessions && s.user == user && s !in r ==>
                 |r| == HistoryLimit && s.createdAt.instant <= r[|r| - 1].createdAt.instant
  {
    var sorted := SortDescending(OwnedBy(sessions, user), CreatedKey);
    TakeDescending(sorted, HistoryLimit, CreatedKey);
    HistoryEntriesOwned(sessions, user);
    HistoryOmitsOnlyOlder(sessions, user);
  }

  lemma HistoryEntriesOwned(sessions: seq<UploadSession>, user: nat)
    ensures var r := History(sessions, user);
            forall i :: 0 <= i < |r| ==> r[i].user == user && r[i] in sessions
  {
    var owned := OwnedBy(sessions, user);
    var sorted := SortDescending(owned, CreatedKey);
    var r := History(sessions, user);
    forall i | 0 <= i < |r|
      ensures r[i].user == user && r[i] in sessions
    {
      assert r[i] == sorted[i];
      assert sorted[i] in multiset(sorted);
      assert multiset(owned)[r[i]] > 0;
      assert r[i] in multiset(sessions);
    }
  }

  lemma HistoryOmitsOnlyOlder(sessions: seq<UploadSession>, user: nat)
    ensures var r := History(sessions, user);
            forall s :: s in sessions && s.user == user && s !in r ==>
              |r| == HistoryLimit && s.createdAt.instant <= r[|r| - 1].createdAt.instant
  {
    var sorted := SortDescending(OwnedBy(sessions, user), CreatedKey);
    var r := History(sessions, user);
    TakeDescending(sorted, HistoryLimit, CreatedKey);
    forall s | s in sessions && s.user == user && s !in r
      ensures |r| == HistoryLimit && s.createdAt.instant <= r[|r| - 1].createdAt.instant
    {
      assert s in multiset(sessions);
      assert s in multiset(sorted);
      assert CreatedKey(s) == s.createdAt.instant;
    }
  }

  /** The `history` action: the serialized history of the requesting user. */
  function HistoryReply(db: Db, caller: Option<nat>): (r: Response)
    ensures caller.None? ==> r == Unauthenticated
    ensures caller.Some? ==>
              && r.status == Ok200 && r.body.JArr?
              && |r.body.elems| == |History(db.sessions, caller.value)|
              && forall i :: 0 <= i < |r.body.elems| ==>
                   r.body.elems[i] == SessionJson(History(db.sessions, caller.value)[i], db.items)
  {
    match caller
    case None => Unauthenticated
    case Some(user) =>
      var h := History(db.sessions, user);
      Response(Ok200, JArr(seq(|h|, i requires 0 <= i < |h| => SessionJson(h[i], db.items))))
  }

  // ---------------------------------------------------------------------------------------
  // The per-Type counts: `df['Type'].value_counts().to_dict()`

  type Entry = PieGeometry.Entry

  predicate DistinctKeys(d: seq<Entry>) {
    forall i, j :: 0 <= i < j < |d| ==> d[i].0 != d[j].0
  }

  predicate HasKey(d: seq<Entry>, k: string) {
    exists i :: 0 <= i < |d| && d[i].0 == k
  }

  /** The count stored under a key, 0 when it is absent. */
  function ValueOf(d: seq<Entry>, k: string): (v: nat)
    ensures !HasKey(d, k) ==> v == 0
    ensures DistinctKeys(d) ==> forall i :: 0 <= i < |d| && d[i].0 == k ==> v == d[i].1
  {
    if |d| == 0 then 0
    else if d[0].0 == k then d[0].1
    else
      var v := ValueOf(d[1..], k);
      assert forall i :: 1 <= i < |d| ==> d[i] == d[1..][i - 1];
      assert !HasKey(d, k) ==> !HasKey(d[1..], k);
      v
  }

  /** `total([x] + s)` unfolds from the front as well as from the back. */
  lemma {:induction false} TotalCons(x: Entry, s: seq<Entry>)
    ensures PieGeometry.Total([x] + s) == x.1 + PieGeometry.Total(s)
    decreases |s|
  {
    if |s| > 0 {
      var init := s[..|s| - 1];
      assert ([x] + s)[..|s|] == [x] + init;
      TotalCons(x, init);
    }
  }

  /** Counts one more row of type `t`: its entry goes up by one, or is appended. */
  function AddOne(d: seq<Entry>, t: string): (r: seq<Entry>)
    ensures |r| == |d| || |r| == |d| + 1
  {
    if |d| == 0 then [(t, 1)]
    else if d[0].0 == t then [(t, d[0].1 + 1)] + d[1..]
    else [d[0]] + AddOne(d[1..], t)
  }

  lemma HasKeyCons(x: Entry, d: seq<Entry>, k: string)
    ensures HasKey([x] + d, k) <==> x.0 == k || HasKey(d, k)
  {
    assert ([x] + d)[0].0 == x.0;
    if HasKey(d, k) {
      var i :| 0 <= i < |d| && d[i].0 == k;
      assert ([x] + d)[i + 1].0 == k;
    }
    if HasKey([x] + d, k) && x.0 != k {
      var i :| 0 <= i < |[x] + d| && ([x] + d)[i].0 == k;
      assert d[i - 1].0 == k;
    }
  }

  lemma {:induction false} AddOneKeys(d: seq<Entry>, t: string, k: string)
    ensures HasKey(AddOne(d, t), k) <==> HasKey(d, k) || k == t
    decreases |d|
  {
    if |d| == 0 {
      assert AddOne(d, t)[0].0 == t;
    } else {
      assert d == [d[0]] + d[1..];
      HasKeyCons(d[0], d[1..], k);
      if d[0].0 == t {
        HasKeyCons((t, d[0].1 + 1), d[1..], k);
      } else {
        AddOneKeys(d[1..], t, k);
        HasKeyCons(d[0], AddOne(d[1..], t), k);
      }
    }
  }

  lemma {:induction false} AddOneDistinct(d: seq<Entry>, t: string)
    requires DistinctKeys(d)
    ensures DistinctKeys(AddOne(d, t))
    decreases |d|
  {
    if |d| > 0 && d[0].0 != t {
      var rest := AddOne(d[1..], t);
      assert DistinctKeys(d[1..]);
      AddOneDistinct(d[1..], t);
      AddOneKeys(d[1..], t, d[0].0);
      assert !HasKey(d[1..], d[0].0);
      assert !HasKey(rest, d[0].0);
    }
  }

  lemma {:induction false} AddOneValue(d: seq<Entry>, t: string, k: string)
    ensures ValueOf(AddOne(d, t), k) == ValueOf(d, k) + (if k == t then 1 else 0)
    decreases |d|
  {
    if |d| > 0 && d[0].0 != t {
      AddOneValue(d[1..], t, k);
    }
  }

  lemma {:induction false} AddOneTotal(d: seq<Entry>, t: string)
    ensures PieGeometry.Total(AddOne(d, t)) == PieGeometry.Total(d) + 1
    decreases |d|
  {
    if |d| > 0 {
      assert d == [d[0]] + d[1..];
      TotalCons(d[0], d[1..]);
      if d[0].0 == t {
        TotalCons((t, d[0].1 + 1), d[1..]);
      } else {
        AddOneTotal(d[1..], t);
        TotalCons(d[0], AddOne(d[1..], t));
      }
    }
  }

  /** The counts in first-appearance order: one entry per distinct type, holding the number
      of rows of that type. */
  function Tally(types: seq<string>): (r: seq<Entry>)
    ensures DistinctKeys(r)
    ensures forall k :: HasKey(r, k) <==> k in types
    ensures forall k :: ValueOf(r, k) == multiset(types)[k]
    ensures PieGeometry.Total(r) == |types|
    decreases |types|
  {
    if |types| == 0 then []
    else
      var init := types[..|types| - 1];
      var t := types[|types| - 1];
      assert types == init + [t];
      var r := AddOne(Tally(init), t);
      AddOneDistinct(Tally(init), t);
      AddOneTotal(Tally(init), t);
      assert forall k :: (HasKey(r, k) <==> k in types) && ValueOf(r, k) == multiset(types)[k] by {
        forall k ensures (HasKey(r, k) <==> k in types) && ValueOf(r, k) == multiset(types)[k] {
          AddOneKeys(Tally(init), t, k);
          AddOneValue(Tally(init), t, k);
        }
      }
      r
  }

  function CountKey(e: Entry): int {
    e.1
  }

  /** An entry with distinct keys occurs once. */
  lemma {:induction false} OccursOnce(d: seq<Entry>, i: nat)
    requires DistinctKeys(d) && i < |d|
    ensures multiset(d)[d[i]] == 1
    decreases |d|
  {
    assert d == [d[0]] + d[1..];
    assert forall j :: 1 <= j < |d| ==> d[j] == d[1..][j - 1];
    if i == 0 {
      assert d[0] !in d[1..];
    } else {
      assert d[i] != d[0];
      OccursOnce(d[1..], i - 1);
    }
  }

  lemma OccursTwice<T>(s: seq<T>, i: nat, j: nat)
    requires i < j < |s| && s[i] == s[j]
    ensures multiset(s)[s[i]] >= 2
  {
    assert s == s[..j] + [s[j]] + s[j + 1..];
    assert s[..j][i] == s[i];
    assert s[i] in multiset(s[..j]);
  }

  /** Reordering a list with distinct keys keeps its keys distinct. */
  lemma DistinctByPermutation(a: seq<Entry>, b: seq<Entry>)
    requires DistinctKeys(a) && multiset(a) == multiset(b)
    ensures DistinctKeys(b)
  {
    forall i, j | 0 <= i < j < |b|
      ensures b[i].0 != b[j].0
    {
      assert b[i] in multiset(a) && b[j] in multiset(a);
      var p :| 0 <= p < |a| && a[p] == b[i];
      var q :| 0 <= q < |a| && a[q] == b[j];
      if b[i].0 == b[j].0 {
        OccursTwice(b, i, j);
        OccursOnce(a, p);
      }
    }
  }

  /** Reordering keeps the keys present. */
  lemma KeysByPermutation(a: seq<Entry>, b: seq<Entry>, k: string)
    requires multiset(a) == multiset(b)
    ensures HasKey(a, k) ==> HasKey(b, k)
  {
    if HasKey(a, k) {
      var i :| 0 <= i < |a| && a[i].0 == k;
      assert a[i] in multiset(b);
      var j :| 0 <= j < |b| && b[j] == a[i];
    }
  }

  lemma {:induction false} TotalInsert(x: Entry, s: seq<Entry>)
    requires Descending(s, CountKey)
    ensures PieGeometry.Total(Insert(x, s, CountKey)) == x.1 + PieGeometry.Total(s)
    decreases |s|
  {
    if |s| == 0 {
      assert Insert(x, s, CountKey) == [x] + s;
    } else if CountKey(x) >= CountKey(s[0]) {
      TotalCons(x, s);
    } else {
      assert s == [s[0]] + s[1..];
      TotalInsert(x, s[1..]);
      TotalCons(s[0], Insert(x, s[1..], CountKey));
      TotalCons(s[0], s[1..]);
    }
  }

  /** Sorting keeps the sum of the counts. */
  lemma {:induction false} TotalSort(s: seq<Entry>)
    ensures PieGeometry.Total(SortDescending(s, CountKey)) == PieGeometry.Total(s)
    decreases |s|
  {
    if |s| > 0 {
      assert s == [s[0]] + s[1..];
      TotalSort(s[1..]);
      TotalInsert(s[0], SortDescending(s[1..], CountKey));
      TotalCons(s[0], s[1..]);
    }
  }

  /** `value_counts().to_dict()`: the per-type counts, largest first. */
  function Distribution(types: seq<string>): seq<Entry> {
    SortDescending(Tally(types), CountKey)
  }

  /** The distribution has one entry per distinct type holding its number of rows, largest
      count first (ties in first-appearance order), and its counts sum to the row count. */
  lemma DistributionIsValueCounts(types: seq<string>)
    ensures var r := Distribution(types);
            && DistinctKeys(r)
            && (forall k :: HasKey(r, k) <==> k in types)
            && (forall i :: 0 <= i < |r| ==> r[i].1 == multiset(types)[r[i].0])
            && Descending(r, CountKey)
            && PieGeometry.Total(r) == |types|
  {
    var t := Tally(types);
    var r := SortDescending(t, CountKey);
    DistinctByPermutation(t, r);
    forall k
      ensures HasKey(r, k) <==> HasKey(t, k)
    {
      KeysByPermutation(t, r, k);
      KeysByPermutation(r, t, k);
    }
    forall i | 0 <= i < |r|
      ensures r[i].1 == multiset(types)[r[i].0]
    {
      assert r[i] in multiset(t);
      var j :| 0 <= j < |t| && t[j] == r[i];
    }
    TotalSort(t);
  }

  // ---------------------------------------------------------------------------------------
  // Upload

  /** One CSV row's required cells. */
  datatype Row = Row(name: string, equipmentType: string, flowrate: real, pressure: real, temperature: real)

  /** The three column means as pandas computes them. */
  datatype Means = Means(flowrate: real, pressure: real, temperature: real)

  /** The frame `read_csv` yields: its header and its rows. */
  datatype Table = Table(columns: seq<string>, rows: seq<Row>, means: Means)

  /** Reading the file, and computing the analytics, either yields a table or raises. */
  datatype Parse = Parsed(table: Table) | ParseFailed(message: string)

  /** The uploaded `file` part: its name and what reading it gives. */
  datatype Upload = Upload(name: string, parse: Parse)

  /** A database write that raises, if any: creating the session, or the record of one row. */
  datatype Fault = NoFault | SessionFault(message: string) | RowFault(row: nat, message: string)

  predicate HasColumns(columns: seq<string>) {
    forall c :: c in RequiredColumns ==> c in columns
  }

  function TypesOf(rows: seq<Row>): (ts: seq<string>)
    ensures |ts| == |rows| && forall i :: 0 <= i < |rows| ==> ts[i] == rows[i].equipmentType
  {
    seq(|rows|, i requires 0 <= i < |rows| => rows[i].equipmentType)
  }

  /** The session `upload_csv` creates. */
  function NewSession(db: Db, user: nat, name: string, table: Table, now: Timestamp): (s: UploadSession)
    ensures s.id == db.nextSessionId && s.user == user && s.createdAt == now && s.fileName == name
    ensures s.totalCount == |table.rows|
    ensures s.equipmentDistribution == Distribution(TypesOf(table.rows))
  {
    UploadSession(db.nextSessionId, user, now, name, |table.rows|,
                  table.means.flowrate, table.means.pressure, table.means.temperature,
                  Distribution(TypesOf(table.rows)))
  }

  /** The records created for `rows`, ids counting up from `first`, all linked to `session`. */
  function ItemsFor(session: nat, first: nat, rows: seq<Row>): (r: seq<EquipmentData>)
    ensures |r| == |rows|
    ensures forall i :: 0 <= i < |rows| ==>
              r[i] == EquipmentData(first + i, session, rows[i].name, rows[i].equipmentType,
                                    rows[i].flowrate, rows[i].pressure, rows[i].temperature)
  {
    seq(|rows|, i requires 0 <= i < |rows| =>
      EquipmentData(first + i, session, rows[i].name, rows[i].equipmentType,
                    rows[i].flowrate, rows[i].pressure, rows[i].temperature))
  }

  /** How many rows get their record before the loop stops. */
  function Inserted(fault: Fault, rows: nat): (n: nat)
    ensures n <= rows
    ensures n < rows <==> fault.RowFault? && fault.row < rows
  {
    if fault.RowFault? && fault.row < rows then fault.row else rows
  }

  /** The upload is read, has the columns and its session can be written. */
  predicate Accepted(caller: Option<nat>, file: Option<Upload>, fault: Fault) {
    && caller.Some? && file.Some? && file.value.parse.Parsed?
    && HasColumns(file.value.parse.table.columns) && !fault.SessionFault?
  }

  /** The database once the session `s` and the records of the first `n` rows are written. */
  function AcceptedDb(db: Db, s: UploadSession, rows: seq<Row>, n: nat): (r: Db)
    requires n <= |rows|
    ensures r.users == db.users && r.nextUserId == db.nextUserId
    ensures r.sessions == db.sessions + [s] && r.nextSessionId == db.nextSessionId + 1
    ensures r.items == db.items + ItemsFor(s.id, db.nextItemId, rows[..n])
    ensures r.nextItemId == db.nextItemId + n
  {
    db.(sessions := db.sessions + [s], nextSessionId := db.nextSessionId + 1,
        items := db.items + ItemsFor(s.id, db.nextItemId, rows[..n]),
        nextItemId := db.nextItemId + n)
  }

  /** `upload_csv`: the state after the request and the response. */
  function UploadStep(db: Db, caller: Option<nat>, file: Option<Upload>, now: Timestamp, fault: Fault): (r: (Db, Response))
    ensures !Accepted(caller, file, fault) ==> r.0 == db
    ensures caller.None? ==> r.1 == Unauthenticated
    ensures caller.Some? && file.None? ==> r.1 == ErrorResponse(NoFile)
    ensures caller.Some? && file.Some? && file.value.parse.ParseFailed? ==> r.1 == ErrorResponse(file.value.parse.message)
    ensures caller.Some? && file.Some? && file.value.parse.Parsed? && !HasColumns(file.value.parse.table.columns) ==>
              r.1 == ErrorResponse(MissingColumns)
    ensures (caller.Some? && file.Some? && file.value.parse.Parsed? && HasColumns(file.value.parse.table.columns)
             && fault.SessionFault?) ==> r.1 == ErrorResponse(fault.message)
    ensures Accepted(caller, file, fault) ==>
              var rows := file.value.parse.table.rows;
              var s := NewSession(db, caller.value, file.value.name, file.value.parse.table, now);
              var n := Inserted(fault, |rows|);
              && r.0 == AcceptedDb(db, s, rows, n)
              && (n < |rows| ==> r.1 == ErrorResponse(fault.message))
              && (n == |rows| ==> r.1 == Response(Created201, SessionJson(s, r.0.items)))
  {
    if caller.None? then (db, Unauthenticated)
    else if file.None? then (db, ErrorResponse(NoFile))
    else match file.value.parse
      case ParseFailed(m) => (db, ErrorResponse(m))
      case Parsed(table) =>
        if !HasColumns(table.columns) then (db, ErrorResponse(MissingColumns))
        else if fault.SessionFault? then (db, ErrorResponse(fault.message))
        else AcceptStep(db, caller.value, file.value.name, table, now, fault)
  }

  /** The accepted upload: the session, then the records until the loop ends or a write
      fails. */
  function AcceptStep(db: Db, user: nat, name: string, table: Table, now: Timestamp, fault: Fault): (r: (Db, Response))
    ensures var s := NewSession(db, user, name, table, now);
            var n := Inserted(fault, |table.rows|);
            && r.0 == AcceptedDb(db, s, table.rows, n)
            && (n < |table.rows| ==> r.1 == ErrorResponse(fault.message))
            && (n == |table.rows| ==> r.1 == Response(Created201, SessionJson(s, r.0.items)))
  {
    var s := NewSession(db, user, name, table, now);
    var n := Inserted(fault, |table.rows|);
    var db1 := AcceptedDb(db, s, table.rows, n);
    if n < |table.rows| then (db1, ErrorResponse(fault.message))
    else (db1, Response(Created201, SessionJson(s, db1.items)))
  }

  /** The ids the counters hand out are unused, and every foreign key resolves. */
  predicate Fresh(db: Db) {
    && Linked(db)
    && (forall i :: 0 <= i < |db.users| ==> db.users[i].id < db.nextUserId)
    && (forall i :: 0 <= i < |db.sessions| ==> db.sessions[i].id < db.nextSessionId)
    && (forall i :: 0 <= i < |db.items| ==> db.items[i].id < db.nextItemId)
  }

  lemma {:induction false} ItemsOfAll(b: seq<EquipmentData>, session: nat)
    requires forall i :: 0 <= i < |b| ==> b[i].session == session
    ensures ItemsOf(b, session) == b
    decreases |b|
  {
    if |b| > 0 {
      ItemsOfAll(b[1..], session);
      assert b == [b[0]] + b[1..];
    }
  }

  lemma {:induction false} ItemsOfAppend(a: seq<EquipmentData>, b: seq<EquipmentData>, session: nat)
    requires forall i :: 0 <= i < |a| ==> a[i].session != session
    requires forall i :: 0 <= i < |b| ==> b[i].session == session
    ensures ItemsOf(a + b, session) == b
    decreases |a|
  {
    if |a| == 0 {
      assert a + b == b;
      ItemsOfAll(b, session);
    } else {
      assert (a + b)[0] == a[0];
      assert (a + b)[1..] == a[1..] + b;
      ItemsOfAppend(a[1..], b, session);
    }
  }

  /** A successful upload by an existing user creates one session whose count is the row
      count and whose per-type counts sum to it; its serialized items are exactly one record
      per row, in order, and the database stays linked with its counters fresh. */
  lemma UploadCreatesOneRecordPerRow(db: Db, user: nat, upload: Upload, now: Timestamp)
    requires Fresh(db) && HasUser(db.users, user)
    requires upload.parse.Parsed? && HasColumns(upload.parse.table.columns)
    ensures var (db1, resp) := UploadStep(db, Some(user), Some(upload), now, NoFault);
            var rows := upload.parse.table.rows;
            var s := db1.sessions[|db1.sessions| - 1];
            && resp.status == Created201
            && |db1.sessions| == |db.sessions| + 1 && s.user == user
            && s.totalCount == |rows|
            && PieGeometry.Total(s.equipmentDistribution) == |rows|
            && ItemsOf(db1.items, s.id) == ItemsFor(s.id, db.nextItemId, rows)
            && |db1.items| == |db.items| + |rows|
            && Fresh(db1)
  {
    var rows := upload.parse.table.rows;
    var s := NewSession(db, user, upload.name, upload.parse.table, now);
    var step := UploadStep(db, Some(user), Some(upload), now, NoFault);
    assert step == AcceptStep(db, user, upload.name, upload.parse.table, now, NoFault);
    assert Inserted(NoFault, |rows|) == |rows|;
    assert step.0 == AcceptedDb(db, s, rows, |rows|);
    assert step.0.sessions[|step.0.sessions| - 1] == s;
    DistributionIsValueCounts(TypesOf(rows));
    AcceptedDbFresh(db, s, rows);
  }

  lemma AcceptedDbFresh(db: Db, s: UploadSession, rows: seq<Row>)
    requires Fresh(db) && HasUser(db.users, s.user) && s.id == db.nextSessionId
    ensures var db1 := AcceptedDb(db, s, rows, |rows|);
            && ItemsOf(db1.items, s.id) == ItemsFor(s.id, db.nextItemId, rows)
            && Fresh(db1)
  {
    AcceptedDbOwnItems(db, s, rows);
    AcceptedDbLinked(db, s, rows);
    AcceptedDbIds(db, s, rows);
  }

  /** The new session's records are exactly the ones written for its rows. */
  lemma AcceptedDbOwnItems(db: Db, s: UploadSession, rows: seq<Row>)
    requires Fresh(db) && s.id == db.nextSessionId
    ensures ItemsOf(AcceptedDb(db, s, rows, |rows|).items, s.id) == ItemsFor(s.id, db.nextItemId, rows)
  {
    assert rows[..|rows|] == rows;
    var added := ItemsFor(s.id, db.nextItemId, rows);
    forall i | 0 <= i < |db.items|
      ensures db.items[i].session != s.id
    {
      assert HasSession(db.sessions, db.items[i].session);
      var j :| 0 <= j < |db.sessions| && db.sessions[j].id == db.items[i].session;
    }
    ItemsOfAppend(db.items, added, s.id);
  }

  /** The counters stay ahead of every id in use. */
  lemma AcceptedDbIds(db: Db, s: UploadSession, rows: seq<Row>)
    requires Fresh(db) && s.id == db.nextSessionId
    ensures var db1 := AcceptedDb(db, s, rows, |rows|);
            && (forall i :: 0 <= i < |db1.users| ==> db1.users[i].id < db1.nextUserId)
            && (forall i :: 0 <= i < |db1.sessions| ==> db1.sessions[i].id < db1.nextSessionId)
            && (forall i :: 0 <= i < |db1.items| ==> db1.items[i].id < db1.nextItemId)
  {
    var db1 := AcceptedDb(db, s, rows, |rows|);
    var added := ItemsFor(s.id, db.nextItemId, rows[..|rows|]);
    forall i | 0 <= i < |db1.sessions|
      ensures db1.sessions[i].id < db1.nextSessionId
    {
      if i < |db.sessions| { assert db1.sessions[i] == db.sessions[i]; }
    }
    forall i | 0 <= i < |db1.items|
      ensures db1.items[i].id < db1.nextItemId
    {
      if i < |db.items| { assert db1.items[i] == db.items[i]; }
      else { assert db1.items[i] == added[i - |db.items|]; }
    }
  }

  lemma AcceptedDbLinked(db: Db, s: UploadSession, rows: seq<Row>)
    requires Linked(db) && HasUser(db.users, s.user)
    ensures Linked(AcceptedDb(db, s, rows, |rows|))
  {
    var db1 := AcceptedDb(db, s, rows, |rows|);
    assert rows[..|rows|] == rows;
    var added := ItemsFor(s.id, db.nextItemId, rows);
    forall i | 0 <= i < |db1.sessions|
      ensures HasUser(db1.users, db1.sessions[i].user)
    {
      if i < |db.sessions| { assert db1.sessions[i] == db.sessions[i]; }
    }
    forall i | 0 <= i < |db1.items|
      ensures HasSession(db1.sessions, db1.items[i].session)
    {
      if i < |db.items| {
        assert db1.items[i] == db.items[i];
        var j :| 0 <= j < |db.sessions| && db.sessions[j].id == db.items[i].session;
        assert db1.sessions[j] == db.sessions[j];
      } else {
        assert db1.items[i] == added[i - |db.items|];
        assert db1.sessions[|db.sessions|] == s;
      }
    }
  }

  /** A failing record write stops the loop halfway: the response is a 400, yet the session
      and the records of the rows before the failing one stay in the database. */
  lemma UploadFailureKeepsEarlierRows(db: Db, user: nat, upload: Upload, now: Timestamp, k: nat, message: string)
    requires upload.parse.Parsed? && HasColumns(upload.parse.table.columns)
    requires k < |upload.parse.table.rows|
    ensures var (db1, resp) := UploadStep(db, Some(user), Some(upload), now, RowFault(k, message));
            && resp == ErrorResponse(message)
            && |db1.sessions| == |db.sessions| + 1
            && db1.items == db.items + ItemsFor(db.nextSessionId, db.nextItemId, upload.parse.table.rows[..k])
  {
  }

  // ---------------------------------------------------------------------------------------
  // Registration

  function Lookup(data: map<string, string>, key: string): (v: Option<string>)
    ensures v.Some? <==> key in data
    ensures v.Some? ==> v.value == data[key]
  {
    if key in data then Some(data[key]) else None
  }

  predicate UsernameExists(users: seq<AuthUser>, username: string) {
    exists i :: 0 <= i < |users| && users[i].username == username
  }

  predicate UniqueUsernames(users: seq<AuthUser>) {
    forall i, j :: 0 <= i < j < |users| ==> users[i].username != users[j].username
  }

  /** Both credentials present and non-empty. */
  predicate HasCredentials(data: map<string, string>) {
    Truthy(Lookup(data, "username")) && Truthy(Lookup(data, "password"))
  }

  /** The body of the `register` action. */
  function RegisterBody(db: Db, data: map<string, string>): (r: (Db, Response))
    ensures !HasCredentials(data) ==> r == (db, ErrorResponse(CredentialsRequired))
    ensures HasCredentials(data) && UsernameExists(db.users, data["username"]) ==>
              r == (db, ErrorResponse(UsernameTaken))
    ensures HasCredentials(data) && !UsernameExists(db.users, data["username"]) ==>
              && r.0 == db.(users := db.users + [AuthUser(db.nextUserId, data["username"], data["password"],
                                                          Lookup(data, "email").GetOr(""))],
                            nextUserId := db.nextUserId + 1)
              && r.1 == Response(Created201, JObj([("id", JInt(db.nextUserId)), ("username", JStr(data["username"]))]))
  {
    var username := Lookup(data, "username");
    var password := Lookup(data, "password");
    var email := Lookup(data, "email").GetOr("");
    if !Truthy(username) || !Truthy(password) then (db, ErrorResponse(CredentialsRequired))
    else if UsernameExists(db.users, username.value) then (db, ErrorResponse(UsernameTaken))
    else
      var user := AuthUser(db.nextUserId, username.value, password.value, email);
      (db.(users := db.users + [user], nextUserId := db.nextUserId + 1),
       Response(Created201, JObj([("id", JInt(user.id)), ("username", JStr(user.username))])))
  }

  /** The view as written: the viewset's `IsAuthenticated` also guards `register`. */
  function RegisterReply(db: Db, caller: Option<nat>, data: map<string, string>): (r: (Db, Response))
    ensures caller.None? ==> r == (db, Unauthenticated)
    ensures caller.Some? ==> r == RegisterBody(db, data)
  {
    if caller.None? then (db, Unauthenticated) else RegisterBody(db, data)
  }

  /** The view as intended: registration open to callers without credentials. */
  function OpenRegisterReply(db: Db, caller: Option<nat>, data: map<string, string>): (r: (Db, Response))
    ensures r == RegisterBody(db, data)
  {
    RegisterBody(db, data)
  }

  /** The missing-credentials check comes first: a request without a password is refused
      with that message even when its username is taken. */
  lemma CredentialsCheckedFirst(db: Db, caller: Option<nat>, username: string)
    requires UsernameExists(db.users, username)
    ensures OpenRegisterReply(db, caller, map["username" := username]).1 == ErrorResponse(CredentialsRequired)
    ensures OpenRegisterReply(db, caller, map["username" := username, "password" := ""]).1 == ErrorResponse(CredentialsRequired)
  {
  }

  /** Registration keeps usernames unique, and a success adds exactly one user, with the
      given credentials and the email defaulting to empty. */
  lemma RegisterKeepsUsernamesUnique(db: Db, caller: Option<nat>, data: map<string, string>)
    requires UniqueUsernames(db.users)
    ensures var (db1, resp) := OpenRegisterReply(db, caller, data);
            && UniqueUsernames(db1.users)
            && (resp.status == Created201 <==> HasCredentials(data) && !UsernameExists(db.users, data["username"]))
            && (resp.status == Created201 ==>
                  && db1.users[..|db.users|] == db.users && |db1.users| == |db.users| + 1
                  && db1.users[|db.users|].username == data["username"]
                  && ("email" !in data ==> db1.users[|db.users|].email == ""))
            && (resp.status != Created201 ==> db1 == db)
  {
    var (db1, resp) := OpenRegisterReply(db, caller, data);
    if resp.status == Created201 {
      assert db1.users[..|db.users|] == db.users;
    }
  }

  /** With the permission as written, sign-up without credentials is always refused, even for
      a fresh username and a password, and nothing is stored. */
  lemma AnonymousSignUpRejected(db: Db, username: string, password: string)
    requires username != "" && password != "" && !UsernameExists(db.users, username)
    ensures var data := map["username" := username, "password" := password];
            && RegisterReply(db, None, data) == (db, Unauthenticated)
            && RegisterReply(db, None, data).1.status == Unauthorized401
  {
  }

  /** With registration open, the same request succeeds and adds that user. */
  lemma AnonymousSignUpAccepted(db: Db, username: string, password: string)
    requires username != "" && password != "" && !UsernameExists(db.users, username)
    ensures var data := map["username" := username, "password" := password];
            var (db1, resp) := OpenRegisterReply(db, None, data);
            && resp.status == Created201
            && db1.users == db.users + [AuthUser(db.nextUserId, username, password, "")]
  {
    var data := map["username" := username, "password" := password];
    assert HasCredentials(data);
  }

  /** The response as the browser's auth session receives it: any 2xx status is ok; an error
      body's "error" field, when it is a string, is its message. */
  function AsReply(resp: Response): (r: Reply<Json>)
    ensures r.Ok? <==> 200 <= resp.status < 300
    ensures r.Ok? ==> r.data == resp.body
  {
    if 200 <= resp.status < 300 then Ok(resp.body)
    else
      var error := if resp.body.JObj? && |resp.body.fields| > 0 && resp.body.fields[0].0 == "error"
                      && resp.body.fields[0].1.JStr?
                   then Some(resp.body.fields[0].1.s) else None;
      NotOk(ErrorBody(error))
  }

  /** What the sign-up form sees for the refused request: the refusal carries no "error"
      field, so the auth session reports its fallback message. */
  lemma BrowserSignUpFails(db: Db, username: string, password: string)
    requires username != "" && password != "" && !UsernameExists(db.users, username)
    ensures var data := map["username" := username, "password" := password];
            AuthHook.RegisterOutcome(AsReply(RegisterReply(db, None, data).1)) == Failed(AuthHook.RegistrationFailed)
  {
  }

  // ---------------------------------------------------------------------------------------
  // The database behind the viewsets

  class Store {
    var users: seq<AuthUser>
    var sessions: seq<UploadSession>
    var items: seq<EquipmentData>
    var nextUserId: nat
    var nextSessionId: nat
    var nextItemId: nat

    function View(): Db
      reads this
    {
      Db(users, sessions, items, nextUserId, nextSessionId, nextItemId)
    }

    /** An empty database; ids start at 1. */
    constructor ()
      ensures View() == Db([], [], [], 1, 1, 1)
    {
      users, sessions, items := [], [], [];
      nextUserId, nextSessionId, nextItemId := 1, 1, 1;
    }

    /** `upload_csv`: the session is created first, then one record per row in a loop. */
    method UploadCsv(caller: Option<nat>, file: Option<Upload>, now: Timestamp, fault: Fault) returns (resp: Response)
      modifies this
      ensures (View(), resp) == UploadStep(old(View()), caller, file, now, fault)
    {
      if caller.None? {
        return Unauthenticated;
      }
      if file.None? {
        return ErrorResponse(NoFile);
      }
      match file.value.parse {
        case ParseFailed(m) =>
          return ErrorResponse(m);
        case Parsed(table) =>
          if !HasColumns(table.columns) {
            return ErrorResponse(MissingColumns);
          }
          if fault.SessionFault? {
            return ErrorResponse(fault.message);
          }
          resp := Accept(caller.value, file.value.name, table, now, fault);
      }
    }

    method Accept(user: nat, name: string, table: Table, now: Timestamp, fault: Fault) returns (resp: Response)
      modifies this
      ensures (View(), resp) == AcceptStep(old(View()), user, name, table, now, fault)
    {
      ghost var db0 := View();
      var session := NewSession(View(), user, name, table, now);
      sessions := sessions + [session];
      nextSessionId := nextSessionId + 1;
      var stop := if fault.RowFault? && fault.row < |table.rows| then fault.row else |table.rows|;
      InsertRows(session.id, table.rows, stop);
      ghost var accepted := AcceptedDb(db0, session, table.rows, stop);
      assert items == accepted.items && sessions == accepted.sessions && users == accepted.users;
      assert nextItemId == accepted.nextItemId && nextSessionId == accepted.nextSessionId;
      assert View() == accepted;
      if stop < |table.rows| {
        return ErrorResponse(fault.message);
      }
      resp := Response(Created201, SessionJson(session, items));
    }

    /** The loop over the rows: one record each for the first `stop` rows. */
    method InsertRows(session: nat, rows: seq<Row>, stop: nat)
      requires stop <= |rows|
      modifies this
      ensures items == old(items) + ItemsFor(session, old(nextItemId), rows[..stop])
      ensures nextItemId == old(nextItemId) + stop
      ensures users == old(users) && nextUserId == old(nextUserId)
      ensures sessions == old(sessions) && nextSessionId == old(nextSessionId)
    {
      ghost var first := nextItemId;
      var i := 0;
      while i < stop
        invariant 0 <= i <= stop
        invariant items == old(items) + ItemsFor(session, first, rows[..i])
        invariant nextItemId == first + i
        invariant users == old(users) && nextUserId == old(nextUserId)
        invariant sessions == old(sessions) && nextSessionId == old(nextSessionId)
      {
        var row := rows[i];
        items := items + [EquipmentData(nextItemId, session, row.name, row.equipmentType,
                                        row.flowrate, row.pressure, row.temperature)];
        nextItemId := nextItemId + 1;
        assert ItemsFor(session, first, rows[..i + 1]) == ItemsFor(session, first, rows[..i]) + [items[|items| - 1]];
        i := i + 1;
      }
    }

    /** `register`, with registration open to callers without credentials. */
    method Register(caller: Option<nat>, data: map<string, string>) returns (resp: Response)
      modifies this
      ensures (View(), resp) == OpenRegisterReply(old(View()), caller, data)
    {
      var username := if "username" in data then data["username"] else "";
      var password := if "password" in data then data["password"] else "";
      if username == "" || password == "" {
        return ErrorResponse(CredentialsRequired);
      }
      if UsernameExists(users, username) {
        return ErrorResponse(UsernameTaken);
      }
      var email := if "email" in data then data["email"] else "";
      var user := AuthUser(nextUserId, username, password, email);
      users := users + [user];
      nextUserId := nextUserId + 1;
      resp := Response(Created201, JObj([("id", JInt(user.id)), ("username", JStr(user.username))]));
    }
  }
}
