/** The database service: the decisions it makes around the server calls. The
    server itself is a value of inputs (its catalog, what it reports per
    database, what each backup file's header lists, its backup history, and
    which commands it accepts); every operation returns the commands it sent
    and how it ended. */
module DbService {
  import opened Types
  import opened Text

  /** What the service can observe of the server and the file system. */
  datatype Server = Server(
    catalog: seq<string>,
    info: string -> Option<DatabaseInfo>,
    headers: string -> Option<seq<BackupRecord>>,
    history: string -> seq<BackupRecord>,
    accepts: Command -> bool)

  /** The commands an operation sent, in order, and how it ended. */
  datatype Attempt = Attempt(sent: seq<Command>, outcome: Outcome)

  /** Sends one command; the server either runs it or raises. */
  function Execute(s: Server, c: Command): (a: Attempt)
    ensures a.sent == [c]
    ensures a.outcome.Pass? <==> s.accepts(c)
  {
    Attempt([c], if s.accepts(c) then Pass else Fail(ServerRejected(c)))
  }

  // ---------------------------------------------------------------------------
  // Backup records

  /** `GetBackupInfoFromFile(fileName)`: the backup sets a file's header lists,
      or a failure when the file cannot be read. */
  function ReadHeaders(s: Server, file: string): (r: Result<seq<BackupRecord>>)
    ensures r.Success? <==> s.headers(file).Some?
    ensures r.Success? ==> r.value == s.headers(file).value
  {
    match s.headers(file)
    case None => Failure(FileUnreadable(file))
    case Some(records) => Success(records)
  }

  /** The records of one database, by name ignoring case, in their order. */
  function FilterByName(records: seq<BackupRecord>, db: string): (r: seq<BackupRecord>)
    ensures forall x :: x in r <==> x in records && EqualsIgnoreCase(x.databaseName, db)
    ensures |r| <= |records|
  {
    if records == [] then []
    else
      var rest := FilterByName(records[1..], db);
      if EqualsIgnoreCase(records[0].databaseName, db) then [records[0]] + rest else rest
  }

  /** `GetBackupInfoFromFile(dbName, fileName)`. */
  function BackupInfoFromFile(s: Server, db: string, file: string): (r: Result<seq<BackupRecord>>)
    ensures r.Success? <==> s.headers(file).Some?
    ensures r.Success? ==> r.value == FilterByName(s.headers(file).value, db)
  {
    var records :- ReadHeaders(s, file);
    Success(FilterByName(records, db))
  }

  /** Keeping the records of one database commutes with joining record lists,
      so their relative order is kept. */
  lemma {:induction false} FilterByNameDistributes(a: seq<BackupRecord>, b: seq<BackupRecord>, db: string)
    ensures FilterByName(a + b, db) == FilterByName(a, db) + FilterByName(b, db)
  {
    if a != [] {
      assert (a + b)[1..] == a[1..] + b;
      FilterByNameDistributes(a[1..], b, db);
    } else {
      assert a + b == b;
    }
  }

  /** Filtering twice by the same name is filtering once. */
  lemma {:induction false} FilterByNameIdempotent(records: seq<BackupRecord>, db: string)
    ensures FilterByName(FilterByName(records, db), db) == FilterByName(records, db)
  {
    if records != [] {
      FilterByNameIdempotent(records[1..], db);
      var rest := FilterByName(records[1..], db);
      if EqualsIgnoreCase(records[0].databaseName, db) {
        assert ([records[0]] + rest)[1..] == rest;
      }
    }
  }

  /** `Where(m => m.BackupType == backupType)`. */
  function OfType(records: seq<BackupRecord>, kind: BackupType): (r: seq<BackupRecord>)
    ensures forall x :: x in r <==> x in records && x.backupType == kind
    ensures |r| <= |records|
  {
    if records == [] then []
    else
      var rest := OfType(records[1..], kind);
      if records[0].backupType == kind then [records[0]] + rest else rest
  }

  // ---------------------------------------------------------------------------
  // `OrderByDescending(m => m.FileId)`, a stable insertion sort

  predicate Descending(xs: seq<BackupRecord>) {
    forall i, j :: 0 <= i < j < |xs| ==> xs[i].fileId >= xs[j].fileId
  }

  /** Puts `x` in front of the first entry whose id is not larger. */
  function InsertDesc(x: BackupRecord, ys: seq<BackupRecord>): (r: seq<BackupRecord>)
    ensures multiset(r) == multiset(ys) + multiset{x}
  {
    if ys == [] || ys[0].fileId <= x.fileId then [x] + ys
    else
      assert ys == [ys[0]] + ys[1..];
      [ys[0]] + InsertDesc(x, ys[1..])
  }

  /** A record followed by a descending list no entry of which exceeds it is
      descending. */
  lemma ConsDescending(h: BackupRecord, t: seq<BackupRecord>)
    requires Descending(t)
    requires forall i :: 0 <= i < |t| ==> t[i].fileId <= h.fileId
    ensures Descending([h] + t)
  {
    var r := [h] + t;
    forall i, j | 0 <= i < j < |r|
      ensures r[i].fileId >= r[j].fileId
    {
      assert r[j] == t[j - 1];
      if i > 0 {
        assert r[i] == t[i - 1];
      }
    }
  }

  /** Inserting keeps every id under a bound that all the entries respect. */
  lemma {:induction false} InsertBounded(x: BackupRecord, ys: seq<BackupRecord>, v: int32)
    requires x.fileId <= v
    requires forall i :: 0 <= i < |ys| ==> ys[i].fileId <= v
    ensures forall i :: 0 <= i < |InsertDesc(x, ys)| ==> InsertDesc(x, ys)[i].fileId <= v
  {
    if ys != [] && ys[0].fileId > x.fileId {
      InsertBounded(x, ys[1..], v);
      var tail := InsertDesc(x, ys[1..]);
      assert forall i :: 1 <= i < |tail| + 1 ==> ([ys[0]] + tail)[i] == tail[i - 1];
    } else {
      assert forall i :: 1 <= i < |ys| + 1 ==> ([x] + ys)[i] == ys[i - 1];
    }
  }

  lemma {:induction false} InsertKeepsDescending(x: BackupRecord, ys: seq<BackupRecord>)
    requires Descending(ys)
    ensures Descending(InsertDesc(x, ys))
  {
    if ys == [] || ys[0].fileId <= x.fileId {
      ConsDescending(x, ys);
    } else {
      assert Descending(ys[1..]);
      InsertKeepsDescending(x, ys[1..]);
      assert forall i :: 0 <= i < |ys[1..]| ==> ys[1..][i] == ys[i + 1];
      InsertBounded(x, ys[1..], ys[0].fileId);
      ConsDescending(ys[0], InsertDesc(x, ys[1..]));
    }
  }

  /** Sorting keeps exactly the records it was given. */
  lemma SortKeepsMembers(xs: seq<BackupRecord>)
    ensures forall x :: x in SortByFileIdDesc(xs) <==> x in xs
  {
    var r := SortByFileIdDesc(xs);
    forall x
      ensures x in r <==> x in xs
    {
      assert x in r <==> x in multiset(r);
      assert x in xs <==> x in multiset(xs);
    }
  }

  /** The records ordered by descending id, as a permutation of the input. */
  function SortByFileIdDesc(xs: seq<BackupRecord>): (r: seq<BackupRecord>)
    ensures multiset(r) == multiset(xs)
    ensures Descending(r)
  {
    if xs == [] then []
    else
      assert xs == [xs[0]] + xs[1..];
      var sorted := SortByFileIdDesc(xs[1..]);
      InsertKeepsDescending(xs[0], sorted);
      InsertDesc(xs[0], sorted)
  }

  /** How many records have an id larger than `v`. */
  function CountAbove(xs: seq<BackupRecord>, v: int): nat {
    if xs == [] then 0 else (if xs[0].fileId as int > v then 1 else 0) + CountAbove(xs[1..], v)
  }

  /** How many records have an id of at least `v`. */
  function CountAtLeast(xs: seq<BackupRecord>, v: int): nat {
    if xs == [] then 0 else (if xs[0].fileId as int >= v then 1 else 0) + CountAtLeast(xs[1..], v)
  }

  lemma {:induction false} InsertCounts(x: BackupRecord, ys: seq<BackupRecord>, v: int)
    ensures CountAbove(InsertDesc(x, ys), v) == CountAbove(ys, v) + (if x.fileId as int > v then 1 else 0)
    ensures CountAtLeast(InsertDesc(x, ys), v) == CountAtLeast(ys, v) + (if x.fileId as int >= v then 1 else 0)
  {
    if ys != [] && ys[0].fileId > x.fileId {
      InsertCounts(x, ys[1..], v);
      assert ([ys[0]] + InsertDesc(x, ys[1..]))[1..] == InsertDesc(x, ys[1..]);
    } else {
      assert ([x] + ys)[1..] == ys;
    }
  }

  lemma {:induction false} SortCounts(xs: seq<BackupRecord>, v: int)
    ensures CountAbove(SortByFileIdDesc(xs), v) == CountAbove(xs, v)
    ensures CountAtLeast(SortByFileIdDesc(xs), v) == CountAtLeast(xs, v)
  {
    if xs != [] {
      SortCounts(xs[1..], v);
      InsertCounts(xs[0], SortByFileIdDesc(xs[1..]), v);
    }
  }

  lemma {:induction false} NoneAbove(xs: seq<BackupRecord>, v: int)
    requires forall i :: 0 <= i < |xs| ==> xs[i].fileId as int <= v
    ensures CountAbove(xs, v) == 0
  {
    if xs != [] {
      NoneAbove(xs[1..], v);
    }
  }

  /** In a descending list, the entry at index `k` has at most `k` entries with
      a larger id and at least `k + 1` entries with an id at least as large. */
  lemma {:induction false} DescendingRank(xs: seq<BackupRecord>, k: nat)
    requires Descending(xs) && k < |xs|
    ensures CountAbove(xs, xs[k].fileId as int) <= k
    ensures CountAtLeast(xs, xs[k].fileId as int) >= k + 1
  {
    var v := xs[k].fileId as int;
    if k == 0 {
      NoneAbove(xs, v);
    } else {
      assert Descending(xs[1..]);
      assert xs[1..][k - 1] == xs[k];
      DescendingRank(xs[1..], k - 1);
    }
  }

  // ---------------------------------------------------------------------------
  // Backup-id resolution (`Restore`, the four-argument overload)

  /** The candidates as the code selects them: every record of the requested
      type, whatever database it belongs to, newest id first. */
  function RestoreCandidatesAsWritten(records: seq<BackupRecord>, kind: BackupType): (r: seq<BackupRecord>)
    ensures forall x :: x in r <==> x in records && x.backupType == kind
    ensures Descending(r)
  {
    SortKeepsMembers(OfType(records, kind));
    SortByFileIdDesc(OfType(records, kind))
  }

  /** The candidates the failure message describes: the records of the
      requested type that belong to the database, newest id first. */
  function RestoreCandidates(records: seq<BackupRecord>, db: string, kind: BackupType): (r: seq<BackupRecord>)
    ensures forall x :: x in r <==> x in records && x.backupType == kind && EqualsIgnoreCase(x.databaseName, db)
    ensures Descending(r)
  {
    SortKeepsMembers(OfType(FilterByName(records, db), kind));
    SortByFileIdDesc(OfType(FilterByName(records, db), kind))
  }

  /** The backup-set id a restore uses: a positive id as it is; 0 and -1 the
      newest candidate's id; -n (n > 1) the id of the n-th newest candidate.
      Fails when there is no candidate, when the offset runs past the
      candidates, and when the offset has no absolute value in 32 bits. */
  function ResolveBackupId(cands: seq<BackupRecord>, id: int32): (r: Result<int32>)
    ensures cands == [] ==> r == Failure(NoMatchingBackup)
    ensures r.Success? <==> cands != [] && (id > -2 || (id as int != MinInt32 && -(id as int) <= |cands|))
    ensures r.Success? && id > 0 ==> r.value == id
    ensures r.Success? && (id == 0 || id == -1) ==> r.value == cands[0].fileId
    ensures r.Success? && id < -1 ==> r.value == cands[-(id as int) - 1].fileId
    ensures cands != [] && id as int == MinInt32 ==> r == Failure(OffsetOverflow)
  {
    if |cands| == 0 then Failure(NoMatchingBackup)
    else if id >= 1 then Success(id)
    else if id == 0 || id == -1 then Success(cands[0].fileId)
    else if id as int == MinInt32 then Failure(OffsetOverflow)
    else
      var skip := -(id as int) - 1;
      if skip < |cands| then Success(cands[skip].fileId)
      else Failure(NegativeOffsetTooBig(id))
  }

  /** Id 0 or -1 picks the largest id among the matching records. */
  lemma LatestIsNewest(records: seq<BackupRecord>, db: string, kind: BackupType, id: int32)
    requires id == 0 || id == -1
    requires ResolveBackupId(RestoreCandidates(records, db, kind), id).Success?
    ensures var v := ResolveBackupId(RestoreCandidates(records, db, kind), id).value;
      && (exists x :: x in records && x.backupType == kind && EqualsIgnoreCase(x.databaseName, db) && x.fileId == v)
      && (forall x :: x in records && x.backupType == kind && EqualsIgnoreCase(x.databaseName, db) ==> x.fileId <= v)
  {
    var cands := RestoreCandidates(records, db, kind);
    assert cands[0] in cands;
    forall x | x in records && x.backupType == kind && EqualsIgnoreCase(x.databaseName, db)
      ensures x.fileId <= cands[0].fileId
    {
      assert x in cands;
      var k :| 0 <= k < |cands| && cands[k] == x;
    }
  }

  /** An offset -n (n > 1) picks the n-th largest id among the matching records,
      counting repeated ids: fewer than n records have a larger id, and at least
      n have an id at least as large. */
  lemma OffsetSelectsNthNewest(records: seq<BackupRecord>, db: string, kind: BackupType, id: int32)
    requires id < -1
    requires ResolveBackupId(RestoreCandidates(records, db, kind), id).Success?
    ensures var v := ResolveBackupId(RestoreCandidates(records, db, kind), id).value as int;
      var matching := OfType(FilterByName(records, db), kind);
      CountAbove(matching, v) < -(id as int) <= CountAtLeast(matching, v)
  {
    var matching := OfType(FilterByName(records, db), kind);
    var cands := RestoreCandidates(records, db, kind);
    assert cands == SortByFileIdDesc(matching);
    var k := -(id as int) - 1;
    assert ResolveBackupId(cands, id).value == cands[k].fileId;
    DescendingRank(cands, k);
    SortCounts(matching, cands[k].fileId as int);
  }

  /** Two databases backed up into one file: restoring the first one's latest
      backup picks, as written, the other database's newer backup set; the
      corrected selection picks its own. */
  lemma CandidatesMixDatabasesAsWritten()
    ensures var a := BackupRecord("A", 0, 1, 0, "f", Database, Full, 1);
      var b := BackupRecord("B", 0, 2, 0, "f", Database, Full, 2);
      && ResolveBackupId(RestoreCandidatesAsWritten([a, b], Database), 0) == Success(2)
      && ResolveBackupId(RestoreCandidates([a, b], "A", Database), 0) == Success(1)
  {
    var a := BackupRecord("A", 0, 1, 0, "f", Database, Full, 1);
    var b := BackupRecord("B", 0, 2, 0, "f", Database, Full, 2);
    assert [a, b][1..] == [b];
    assert OfType([a, b], Database) == [a, b];
    assert InsertDesc(b, []) == [b];
    assert SortByFileIdDesc([a, b]) == [b, a];
    assert ToUpper("A") == "A" && ToUpper("B") == "B";
    assert FilterByName([a, b], "A") == [a];
    assert OfType([a], Database) == [a];
    assert SortByFileIdDesc([a]) == [a];
  }

  // ---------------------------------------------------------------------------
  // The restore batch

  /** The statements of a restore batch: disconnect and reconnect around the
      restore when `bracket` holds. */
  function RestoreStatements(kind: BackupType, replace: bool, bracket: bool): seq<RestoreStatement> {
    (if bracket then [DisconnectOthers] else [])
    + [RestoreFrom(kind, replace)]
    + (if bracket then [ReconnectOthers] else [])
  }

  /** The command `Restore` sends, or the failure it raises first. The database
      info is read before the file; an unreadable file and the id resolution
      fail before anything is sent. */
  function RestorePlan(s: Server, db: string, file: string, kind: BackupType, id: int32): Result<Command> {
    var info := s.info(db);
    var records :- ReadHeaders(s, file);
    var backupId :- ResolveBackupId(RestoreCandidates(records, db, kind), id);
    var bracket := info.Some? && info.value.state == OnlineState;
    Success(RestoreBatch(db, file, RestoreStatements(kind, info.None?, bracket), backupId))
  }

  /** The plan with the candidates as the code selects them. */
  function RestorePlanAsWritten(s: Server, db: string, file: string, kind: BackupType, id: int32): Result<Command> {
    var info := s.info(db);
    var records :- ReadHeaders(s, file);
    var backupId :- ResolveBackupId(RestoreCandidatesAsWritten(records, kind), id);
    var bracket := info.Some? && info.value.state == OnlineState;
    Success(RestoreBatch(db, file, RestoreStatements(kind, info.None?, bracket), backupId))
  }

  /** The whole restore: the planned command is sent, or nothing when planning
      failed. */
  function RestoreOutcome(s: Server, db: string, file: string, kind: BackupType, id: int32): Attempt {
    match RestorePlan(s, db, file, kind, id)
    case Failure(e) => Attempt([], Fail(e))
    case Success(c) => Execute(s, c)
  }

  /** The shape of the batch: one restore statement of the requested type; it
      overwrites exactly when the database does not exist; it is bracketed by
      disconnect-others first and reconnect last exactly when the database
      exists and is online. */
  lemma RestoreScriptShape(s: Server, db: string, file: string, kind: BackupType, id: int32)
    requires RestorePlan(s, db, file, kind, id).Success?
    ensures var c := RestorePlan(s, db, file, kind, id).value;
      var info := s.info(db);
      var online := info.Some? && info.value.state == OnlineState;
      && c.RestoreBatch? && c.db == db && c.file == file
      && |c.statements| == (if online then 3 else 1)
      && (c.statements[0] == DisconnectOthers <==> online)
      && (c.statements[|c.statements| - 1] == ReconnectOthers <==> online)
      && (forall k :: 0 <= k < |c.statements| && c.statements[k].RestoreFrom? <==>
            k == (if online then 1 else 0))
      && c.statements[if online then 1 else 0] == RestoreFrom(kind, info.None?)
  {
  }

  /** The batch is sent exactly when the file is readable and the id resolves;
      the restore then passes exactly when the server accepts it. */
  lemma RestoreSendsAtMostOnce(s: Server, db: string, file: string, kind: BackupType, id: int32)
    ensures var a := RestoreOutcome(s, db, file, kind, id);
      && |a.sent| <= 1
      && (|a.sent| == 1 <==>
            (s.headers(file).Some? &&
             ResolveBackupId(RestoreCandidates(s.headers(file).value, db, kind), id).Success?))
      && (a.outcome.Pass? <==> |a.sent| == 1 && s.accepts(a.sent[0]))
  {
  }

  /** The id resolution of `Restore`, step by step on the local `backupId`. */
  method ResolveId(backupInfo: seq<BackupRecord>, id: int32) returns (r: Result<int32>)
    ensures r == ResolveBackupId(backupInfo, id)
  {
    if |backupInfo| == 0 {
      return Failure(NoMatchingBackup);
    }
    var backupId := id;
    if backupId < 1 {
      if backupId == 0 || backupId == -1 {
        backupId := backupInfo[0].fileId;
      } else {
        if backupId as int == MinInt32 {
          return Failure(OffsetOverflow);
        }
        var skip := -(backupId as int) - 1;
        if skip >= |backupInfo| {
          return Failure(NegativeOffsetTooBig(backupId));
        }
        backupId := backupInfo[skip].fileId;
      }
    }
    return Success(backupId);
  }

  /** The statement list of `Restore`, appended to one statement at a time. */
  method AssembleStatements(kind: BackupType, info: Option<DatabaseInfo>) returns (commands: seq<RestoreStatement>)
    ensures commands == RestoreStatements(kind, info.None?, info.Some? && info.value.state == OnlineState)
  {
    var disconnectAll := false;
    commands := [];
    var sql := RestoreFrom(kind, info == None);
    if info != None {
      disconnectAll := info.value.state == OnlineState;
    }
    if disconnectAll {
      commands := commands + [DisconnectOthers];
    }
    commands := commands + [sql];
    if disconnectAll {
      commands := commands + [ReconnectOthers];
    }
  }

  /** `Restore(dbName, fileName, backupType, backupId)`: reads the database
      info, selects and resolves the backup, and assembles the batch before
      sending it. */
  method Restore(s: Server, db: string, file: string, kind: BackupType, id: int32) returns (a: Attempt)
    ensures a == RestoreOutcome(s, db, file, kind, id)
  {
    var info := s.info(db);
    var headers := ReadHeaders(s, file);
    if headers.Failure? {
      return Attempt([], Fail(headers.error));
    }
    var backupInfo := RestoreCandidates(headers.value, db, kind);
    var backupId := ResolveId(backupInfo, id);
    if backupId.Failure? {
      return Attempt([], Fail(backupId.error));
    }
    var commands := AssembleStatements(kind, info);
    a := Execute(s, RestoreBatch(db, file, commands, backupId.value));
  }

  // ---------------------------------------------------------------------------
  // Restore of the latest backup of a database (two-argument overload)

  /** `MaxBy(m => m.BackupEnd)`: the first record with the latest end. */
  function LatestByEnd(xs: seq<BackupRecord>): (r: Option<BackupRecord>)
    ensures r.None? <==> xs == []
    ensures r.Some? ==> r.value in xs
    ensures r.Some? ==> forall x :: x in xs ==> x.backupEnd <= r.value.backupEnd
  {
    if xs == [] then None
    else
      match LatestByEnd(xs[1..])
      case None => Some(xs[0])
      case Some(m) => if m.backupEnd > xs[0].backupEnd then Some(m) else Some(xs[0])
  }

  /** Of several records with the latest end, the first one is picked. */
  lemma {:induction false} LatestIsFirstOfLatest(xs: seq<BackupRecord>, k: nat)
    requires k < |xs| && LatestByEnd(xs).Some?
    requires xs[k] == LatestByEnd(xs).value
    requires forall j :: 0 <= j < k ==> xs[j] != xs[k]
    ensures forall j :: 0 <= j < k ==> xs[j].backupEnd < xs[k].backupEnd
  {
    if k > 0 {
      var m := LatestByEnd(xs);
      var rest := LatestByEnd(xs[1..]);
      assert rest.Some? && rest.value == m.value;
      assert xs[1..][k - 1] == xs[k];
      LatestIsFirstOfLatest(xs[1..], k - 1);
      assert forall j :: 1 <= j < k ==> xs[j] == xs[1..][j - 1];
    }
  }

  /** `Restore(dbName, fileName)`: restores the database's own backup set with
      the latest end, by its type and absolute id. */
  function RestoreLatest(s: Server, db: string, file: string): (a: Attempt)
    ensures s.headers(file).None? ==> a == Attempt([], Fail(FileUnreadable(file)))
    ensures s.headers(file).Some? && FilterByName(s.headers(file).value, db) == [] ==>
      a == Attempt([], Fail(NoBackupOfDatabase))
  {
    match BackupInfoFromFile(s, db, file)
    case Failure(e) => Attempt([], Fail(e))
    case Success(infos) =>
      match LatestByEnd(infos)
      case None => Attempt([], Fail(NoBackupOfDatabase))
      case Some(latest) => RestoreOutcome(s, db, file, latest.backupType, latest.fileId)
  }

  /** A latest backup with a positive id is restored under exactly that id, as
      a backup of the database it names. */
  lemma RestoreLatestUsesLatest(s: Server, db: string, file: string)
    requires s.headers(file).Some?
    requires var infos := FilterByName(s.headers(file).value, db);
      infos != [] && LatestByEnd(infos).value.fileId > 0
    ensures var latest := LatestByEnd(FilterByName(s.headers(file).value, db)).value;
      var a := RestoreLatest(s, db, file);
      && EqualsIgnoreCase(latest.databaseName, db)
      && |a.sent| == 1 && a.sent[0].RestoreBatch?
      && a.sent[0].backupId == latest.fileId
      && RestoreFrom(latest.backupType, s.info(db).None?) in a.sent[0].statements
  {
    var infos := FilterByName(s.headers(file).value, db);
    var latest := LatestByEnd(infos).value;
    assert latest in infos;
    var cands := RestoreCandidates(s.headers(file).value, db, latest.backupType);
    assert latest in cands;
  }

  // ---------------------------------------------------------------------------
  // Backup

  /** The backup set name the tool gives each backup type. */
  function BackupName(db: string, kind: BackupType): string {
    match kind
    case Database => db + "-Full Database Backup"
    case Log => db + "-Transaction Log Backup"
  }

  function BackupDescription(kind: BackupType): string {
    match kind
    case Database => "Full backup of the entire database"
    case Log => "Transaction log backup"
  }

  /** `Backup`: only an existing, online database is backed up; the backup is
      verified afterwards when asked to, and only when it succeeded. */
  function Backup(s: Server, db: string, file: string, kind: BackupType, verify: bool): (a: Attempt)
    ensures s.info(db).None? ==> a == Attempt([], Fail(DatabaseNotFound))
    ensures s.info(db).Some? && s.info(db).value.state != OnlineState ==>
      a == Attempt([], Fail(DatabaseNotOnline(s.info(db).value.state)))
    ensures s.info(db).Some? && s.info(db).value.state == OnlineState ==>
      && 1 <= |a.sent| <= 2
      && a.sent[0] == BackupCommand(db, file, kind, BackupName(db, kind), BackupDescription(kind))
      && (|a.sent| == 2 <==> verify && s.accepts(a.sent[0]))
      && (|a.sent| == 2 ==> a.sent[1] == VerifyCommand(db, file))
      && (a.outcome.Pass? <==> forall c :: c in a.sent ==> s.accepts(c))
  {
    match s.info(db)
    case None => Attempt([], Fail(DatabaseNotFound))
    case Some(info) =>
      if info.state != OnlineState then Attempt([], Fail(DatabaseNotOnline(info.state)))
      else
        var backup := Execute(s, BackupCommand(db, file, kind, BackupName(db, kind), BackupDescription(kind)));
        if backup.outcome.Fail? || !verify then backup
        else
          var check := Execute(s, VerifyCommand(db, file));
          Attempt(backup.sent + check.sent, check.outcome)
  }

  // ---------------------------------------------------------------------------
  // Recovery model, offline, online, history

  /** The keyword `ALTER DATABASE ... SET RECOVERY` takes for each model. */
  function RecoveryKeyword(model: DbRecoveryModel): string {
    match model
    case Simple => "SIMPLE"
    case BulkLogged => "BULK_LOGGED"
    case Full => "FULL"
  }

  /** `SetRecoveryMode`: a missing database fails; a database already in the
      model is left alone; otherwise one command sets the model's keyword. */
  function SetRecoveryMode(s: Server, db: string, model: DbRecoveryModel): (a: Attempt)
    ensures s.info(db).None? ==> a == Attempt([], Fail(DatabaseNotFound))
    ensures s.info(db).Some? && s.info(db).value.recoveryModel == model ==> a == Attempt([], Pass)
    ensures s.info(db).Some? && s.info(db).value.recoveryModel != model ==>
      a.sent == [SetRecoveryCommand(db, RecoveryKeyword(model))]
      && (a.outcome.Pass? <==> s.accepts(a.sent[0]))
  {
    match s.info(db)
    case None => Attempt([], Fail(DatabaseNotFound))
    case Some(info) =>
      if info.recoveryModel == model then Attempt([], Pass)
      else Execute(s, SetRecoveryCommand(db, RecoveryKeyword(model)))
  }

  /** `TakeOffline`: one command, no check of the current state. */
  function TakeOffline(s: Server, db: string): (a: Attempt)
    ensures a.sent == [TakeOfflineCommand(db)]
    ensures a.outcome.Pass? <==> s.accepts(TakeOfflineCommand(db))
  {
    Execute(s, TakeOfflineCommand(db))
  }

  /** `TakeOnline`: one command, no check of the current state. */
  function TakeOnline(s: Server, db: string): (a: Attempt)
    ensures a.sent == [TakeOnlineCommand(db)]
    ensures a.outcome.Pass? <==> s.accepts(TakeOnlineCommand(db))
  {
    Execute(s, TakeOnlineCommand(db))
  }

  /** `DeleteBackupHistory`: one command, whether or not the database exists. */
  function DeleteBackupHistory(s: Server, db: string): (a: Attempt)
    ensures a.sent == [DeleteHistoryCommand(db)]
    ensures a.outcome.Pass? <==> s.accepts(DeleteHistoryCommand(db))
  {
    Execute(s, DeleteHistoryCommand(db))
  }

  // ---------------------------------------------------------------------------
  // Backup file names

  /** The platform's file-name rules: the characters a file name may not
      contain, and the directory separator. */
  datatype Platform = Platform(invalid: seq<char>, separator: char)

  /** `string.Replace(c, '_')`. */
  function ReplaceChar(s: string, c: char): (r: string)
    ensures |r| == |s|
    ensures forall i :: 0 <= i < |s| ==> r[i] == if s[i] == c then '_' else s[i]
  {
    seq(|s|, i requires 0 <= i < |s| => if s[i] == c then '_' else s[i])
  }

  /** Every character of `chars` replaced by an underscore. */
  function Sanitize(s: string, chars: seq<char>): (r: string)
    ensures |r| == |s|
    ensures forall i :: 0 <= i < |s| ==> r[i] == if s[i] in chars then '_' else s[i]
  {
    seq(|s|, i requires 0 <= i < |s| => if s[i] in chars then '_' else s[i])
  }

  /** A simple join: no separator is added after an empty directory or one that
      already ends with the separator. */
  function Combine(dir: string, name: string, sep: char): (r: string)
    ensures r == dir + name || r == dir + [sep] + name
  {
    if dir == [] || dir[|dir| - 1] == sep then dir + name else dir + [sep] + name
  }

  /** `GetBackupFileName` as a function. */
  function BackupFileName(db: string, dir: string, p: Platform): string {
    Combine(dir, Trim(Sanitize(db, p.invalid)) + ".db.bak", p.separator)
  }

  /** The backup file lies in the directory, ends in `.db.bak`, and its own name
      holds no invalid character other than the underscore that replaced them. */
  lemma BackupFileNameShape(db: string, dir: string, p: Platform)
    ensures var r := BackupFileName(db, dir, p);
      exists name ::
        && (r == dir + name || r == dir + [p.separator] + name)
        && |name| >= 7 && name[|name| - 7..] == ".db.bak"
        && (forall k :: 0 <= k < |name| - 7 ==> name[k] !in p.invalid || name[k] == '_')
  {
    var clean := Sanitize(db, p.invalid);
    var t := Trim(clean);
    TrimDropsOnlyWhiteSpace(clean);
    var pre, post :| clean == pre + t + post && IsBlank(pre) && IsBlank(post);
    forall k | 0 <= k < |t|
      ensures t[k] !in p.invalid || t[k] == '_'
    {
      assert t[k] == clean[|pre| + k];
    }
    var name := t + ".db.bak";
    assert forall k :: 0 <= k < |t| ==> name[k] == t[k];
    assert name[|name| - 7..] == ".db.bak";
    assert BackupFileName(db, dir, p) == Combine(dir, name, p.separator);
  }

  /** `GetBackupFileName`: every invalid character in turn is replaced by an
      underscore, then the name is trimmed, suffixed and placed in the
      directory. */
  method GetBackupFileName(db: string, dir: string, p: Platform) returns (path: string)
    ensures path == BackupFileName(db, dir, p)
  {
    var name := db;
    var k := 0;
    while k < |p.invalid|
      invariant 0 <= k <= |p.invalid|
      invariant name == Sanitize(db, p.invalid[..k])
    {
      name := ReplaceChar(name, p.invalid[k]);
      k := k + 1;
      assert p.invalid[..k] == p.invalid[..k - 1] + [p.invalid[k - 1]];
    }
    assert p.invalid[..k] == p.invalid;
    path := Combine(dir, Trim(name) + ".db.bak", p.separator);
  }
}
