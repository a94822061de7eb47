/** The command-line program: the database list a selection stands for, the
    backup file of each database, the per-database loops of the modes, the
    backup information listing and the exit code. The loops keep going past a
    failing database and return the number of databases that failed. */
module Program {
  import opened Types
  import opened Text
  import A = Arguments
  import D = DbService
  import ParsedArgs
  import ArgumentParser

  // ---------------------------------------------------------------------------
  // The database list

  /** LINQ `Except` with a case-insensitive comparer: the entries of `xs` in
      their order, without those matching an excluded name, each kept only the
      first time it (ignoring case) occurs. */
  function ExceptIgnoreCase(xs: seq<string>, excluded: seq<string>): seq<string>
    decreases |xs|
  {
    if xs == [] then []
    else if ContainsIgnoreCase(excluded, xs[0]) then ExceptIgnoreCase(xs[1..], excluded)
    else [xs[0]] + ExceptIgnoreCase(xs[1..], excluded + [xs[0]])
  }

  lemma NotContainedInPrefix(e: seq<string>, y: string, z: string)
    requires !ContainsIgnoreCase(e + [y], z)
    ensures !ContainsIgnoreCase(e, z) && !EqualsIgnoreCase(y, z)
  {
    assert (e + [y])[|e|] == y;
    forall i | 0 <= i < |e|
      ensures !EqualsIgnoreCase(e[i], z)
    {
      assert (e + [y])[i] == e[i];
    }
  }

  lemma NotContainedExtend(e: seq<string>, y: string, z: string)
    requires !ContainsIgnoreCase(e, z) && !EqualsIgnoreCase(y, z)
    ensures !ContainsIgnoreCase(e + [y], z)
  {
  }

  /** Every kept entry comes from `xs` and matches no excluded name. */
  lemma {:induction false} ExceptSound(xs: seq<string>, excluded: seq<string>)
    ensures forall z :: z in ExceptIgnoreCase(xs, excluded) ==> z in xs && !ContainsIgnoreCase(excluded, z)
    decreases |xs|
  {
    if xs != [] {
      if ContainsIgnoreCase(excluded, xs[0]) {
        ExceptSound(xs[1..], excluded);
      } else {
        ExceptSound(xs[1..], excluded + [xs[0]]);
        forall z | z in ExceptIgnoreCase(xs[1..], excluded + [xs[0]])
          ensures !ContainsIgnoreCase(excluded, z)
        {
          NotContainedInPrefix(excluded, xs[0], z);
        }
        if !ContainsIgnoreCase(excluded, xs[0]) {
        }
      }
    }
  }

  /** Every entry of `xs` that matches no excluded name is kept, up to case. */
  lemma {:induction false} ExceptComplete(xs: seq<string>, excluded: seq<string>, x: string)
    requires x in xs && !ContainsIgnoreCase(excluded, x)
    ensures ContainsIgnoreCase(ExceptIgnoreCase(xs, excluded), x)
    decreases |xs|
  {
    var r := ExceptIgnoreCase(xs, excluded);
    if ContainsIgnoreCase(excluded, xs[0]) {
      assert x != xs[0];
      assert x in xs[1..];
      ExceptComplete(xs[1..], excluded, x);
      assert r == ExceptIgnoreCase(xs[1..], excluded);
    } else if EqualsIgnoreCase(xs[0], x) {
      assert r[0] == xs[0];
    } else {
      assert x in xs[1..];
      NotContainedExtend(excluded, xs[0], x);
      ExceptComplete(xs[1..], excluded + [xs[0]], x);
      var rest := ExceptIgnoreCase(xs[1..], excluded + [xs[0]]);
      var i :| 0 <= i < |rest| && EqualsIgnoreCase(rest[i], x);
      assert r[i + 1] == rest[i];
    }
  }

  /** No two kept entries are equal ignoring case. */
  lemma {:induction false} ExceptDistinct(xs: seq<string>, excluded: seq<string>)
    ensures NoDupIgnoreCase(ExceptIgnoreCase(xs, excluded))
    decreases |xs|
  {
    if xs != [] && !ContainsIgnoreCase(excluded, xs[0]) {
      var rest := ExceptIgnoreCase(xs[1..], excluded + [xs[0]]);
      ExceptDistinct(xs[1..], excluded + [xs[0]]);
      ExceptSound(xs[1..], excluded + [xs[0]]);
      var r := [xs[0]] + rest;
      forall i, j | 0 <= i < j < |r|
        ensures !EqualsIgnoreCase(r[i], r[j])
      {
        assert r[j] == rest[j - 1];
        assert rest[j - 1] in rest;
        NotContainedInPrefix(excluded, xs[0], rest[j - 1]);
        if i > 0 {
          assert r[i] == rest[i - 1];
        }
      }
    } else if xs != [] {
      ExceptDistinct(xs[1..], excluded);
    }
  }

  /** The kept entries of a joined list are those of the first part followed by
      those of the second part that match neither an excluded name nor an entry
      already kept: the order of `xs` is kept, and of entries equal ignoring
      case the first one is the one kept. */
  lemma {:induction false} ExceptAppend(xs: seq<string>, ys: seq<string>, excluded: seq<string>)
    ensures ExceptIgnoreCase(xs + ys, excluded) ==
      ExceptIgnoreCase(xs, excluded) + ExceptIgnoreCase(ys, excluded + ExceptIgnoreCase(xs, excluded))
    decreases |xs|
  {
    if xs == [] {
      assert xs + ys == ys;
      assert excluded + [] == excluded;
    } else {
      assert (xs + ys)[0] == xs[0];
      assert (xs + ys)[1..] == xs[1..] + ys;
      if ContainsIgnoreCase(excluded, xs[0]) {
        ExceptAppend(xs[1..], ys, excluded);
      } else {
        var e := excluded + [xs[0]];
        ExceptAppend(xs[1..], ys, e);
        var kept := ExceptIgnoreCase(xs[1..], e);
        assert e + kept == excluded + ([xs[0]] + kept);
        var later := ExceptIgnoreCase(ys, e + kept);
        assert ([xs[0]] + kept) + later == [xs[0]] + (kept + later);
      }
    }
  }

  /** `GetDbList`: no selection gives no database, /DB its names in their
      order, /ALL the server's catalog less the names after it. */
  function DbList(a: A.Args, catalog: seq<string>): seq<string> {
    match a.useAllDb
    case None => []
    case Some(all) => if all then ExceptIgnoreCase(catalog, a.databases) else a.databases
  }

  /** With /ALL the list follows the catalog's order: the databases of a
      catalog's first part come first, then those of the rest that are neither
      excluded nor already listed up to case. */
  lemma DbListKeepsCatalogOrder(a: A.Args, first: seq<string>, rest: seq<string>)
    requires a.useAllDb == Some(true)
    ensures DbList(a, first + rest) ==
      DbList(a, first) + ExceptIgnoreCase(rest, a.databases + DbList(a, first))
  {
    ExceptAppend(first, rest, a.databases);
  }

  /** With /ALL a database is worked on exactly when the catalog holds it and it
      is not excluded (up to case), and at most once; with /DB exactly the
      listed names are, in their order. */
  lemma DbListMeaning(a: A.Args, catalog: seq<string>, x: string)
    ensures a.useAllDb == None ==> DbList(a, catalog) == []
    ensures a.useAllDb == Some(false) ==> DbList(a, catalog) == a.databases
    ensures a.useAllDb == Some(true) && x in DbList(a, catalog) ==> x in catalog && !ContainsIgnoreCase(a.databases, x)
    ensures a.useAllDb == Some(true) && x in catalog && !ContainsIgnoreCase(a.databases, x) ==>
      ContainsIgnoreCase(DbList(a, catalog), x)
    ensures a.useAllDb == Some(true) ==> NoDupIgnoreCase(DbList(a, catalog))
  {
    if a.useAllDb == Some(true) {
      ExceptSound(catalog, a.databases);
      ExceptDistinct(catalog, a.databases);
      if x in catalog && !ContainsIgnoreCase(a.databases, x) {
        ExceptComplete(catalog, a.databases, x);
      }
    }
  }

  // ---------------------------------------------------------------------------
  // The backup file of a database

  /** `GetBackupFile`: a /FILE location is used for every database, a /DIR
      location gets a per-database file name; no location fails. */
  function BackupFile(a: A.Args, db: string, p: D.Platform): (r: Result<string>)
    ensures r.Success? <==> a.backupLocation.Some?
    ensures r.Success? && !a.isDirectory ==> r.value == a.backupLocation.value
    ensures r.Success? && a.isDirectory ==> r.value == D.BackupFileName(db, a.backupLocation.value, p)
  {
    match a.backupLocation
    case None => Failure(BackupPathNotSet)
    case Some(location) => Success(if a.isDirectory then D.BackupFileName(db, location, p) else location)
  }

  /** `GetBackupFile`, computing the directory file name with the service's
      replacement loop. */
  method GetBackupFile(a: A.Args, db: string, p: D.Platform) returns (r: Result<string>)
    ensures r == BackupFile(a, db, p)
  {
    if a.backupLocation == None {
      return Failure(BackupPathNotSet);
    }
    if a.isDirectory {
      var name := D.GetBackupFileName(db, a.backupLocation.value, p);
      return Success(name);
    }
    return Success(a.backupLocation.value);
  }

  /** A /DIR location puts each database's backup in a file of that directory
      named after the database. */
  lemma DirectoryFilesLieInDirectory(a: A.Args, db: string, p: D.Platform)
    requires a.backupLocation.Some? && a.isDirectory
    ensures var f := BackupFile(a, db, p).value;
      var dir := a.backupLocation.value;
      |f| >= |dir| + 7 && f[..|dir|] == dir && f[|f| - 7..] == ".db.bak"
  {
    var dir := a.backupLocation.value;
    var name := Trim(D.Sanitize(db, p.invalid)) + ".db.bak";
    var f := BackupFile(a, db, p).value;
    assert f == D.Combine(dir, name, p.separator);
    if f == dir + name {
      assert f[|f| - 7..] == name[|name| - 7..];
    } else {
      assert f == dir + [p.separator] + name;
      assert f[|f| - 7..] == name[|name| - 7..];
    }
  }

  // ---------------------------------------------------------------------------
  // The per-database loops

  /** What the body of a mode's loop does to one database. */
  datatype Action =
    | SetModel(model: DbRecoveryModel)
    | GoOffline
    | GoOnline
    | Purge
    | Describe
    | BackUp(kind: BackupType, verify: bool)
    | RestoreFromFile(kind: BackupType, id: int32)

  /** The `try` block of a loop round; whatever it raises is caught. */
  function Act(s: D.Server, a: A.Args, p: D.Platform, action: Action, db: string): D.Attempt {
    match action
    case SetModel(model) => D.SetRecoveryMode(s, db, model)
    case GoOffline => D.TakeOffline(s, db)
    case GoOnline => D.TakeOnline(s, db)
    case Purge => D.DeleteBackupHistory(s, db)
    case Describe =>
      if s.info(db).None? then D.Attempt([], Fail(DatabaseNotFound)) else D.Attempt([], Pass)
    case BackUp(kind, verify) =>
      (match BackupFile(a, db, p)
       case Failure(e) => D.Attempt([], Fail(e))
       case Success(file) => D.Backup(s, db, file, kind, verify))
    case RestoreFromFile(kind, id) =>
      (match BackupFile(a, db, p)
       case Failure(e) => D.Attempt([], Fail(e))
       case Success(file) => D.RestoreOutcome(s, db, file, kind, id))
  }

  /** The commands a loop sends for `names`, in order. */
  function Sent(s: D.Server, a: A.Args, p: D.Platform, action: Action, names: seq<string>): seq<Command>
    decreases |names|
  {
    if names == [] then []
    else Sent(s, a, p, action, names[..|names| - 1]) + Act(s, a, p, action, names[|names| - 1]).sent
  }

  /** How many rounds of a loop over `names` fail. */
  function Failures(s: D.Server, a: A.Args, p: D.Platform, action: Action, names: seq<string>): nat
    decreases |names|
  {
    if names == [] then 0
    else
      Failures(s, a, p, action, names[..|names| - 1])
      + (if Act(s, a, p, action, names[|names| - 1]).outcome.Fail? then 1 else 0)
  }

  /** The failure count is at most the number of databases, and it is zero
      exactly when every database's round passed. */
  lemma {:induction false} FailuresCount(s: D.Server, a: A.Args, p: D.Platform, action: Action, names: seq<string>)
    ensures Failures(s, a, p, action, names) <= |names|
    ensures Failures(s, a, p, action, names) == 0 <==>
      forall k :: 0 <= k < |names| ==> Act(s, a, p, action, names[k]).outcome.Pass?
    decreases |names|
  {
    if names != [] {
      FailuresCount(s, a, p, action, names[..|names| - 1]);
    }
    if forall k :: 0 <= k < |names| ==> Act(s, a, p, action, names[k]).outcome.Pass? {
      AllPassedNoFailures(s, a, p, action, names);
    } else {
      var k :| 0 <= k < |names| && !Act(s, a, p, action, names[k]).outcome.Pass?;
      FailedRoundCounts(s, a, p, action, names, k);
    }
  }

  /** When every round passes, no failure is counted. */
  lemma {:induction false} AllPassedNoFailures(s: D.Server, a: A.Args, p: D.Platform, action: Action, names: seq<string>)
    requires forall k :: 0 <= k < |names| ==> Act(s, a, p, action, names[k]).outcome.Pass?
    ensures Failures(s, a, p, action, names) == 0
    decreases |names|
  {
    if names != [] {
      var init := names[..|names| - 1];
      forall k | 0 <= k < |init|
        ensures Act(s, a, p, action, init[k]).outcome.Pass?
      {
        assert init[k] == names[k];
      }
      AllPassedNoFailures(s, a, p, action, init);
      assert Act(s, a, p, action, names[|names| - 1]).outcome.Pass?;
    }
  }

  /** A round that fails is counted. */
  lemma {:induction false} FailedRoundCounts(s: D.Server, a: A.Args, p: D.Platform, action: Action, names: seq<string>, k: nat)
    requires k < |names| && !Act(s, a, p, action, names[k]).outcome.Pass?
    ensures Failures(s, a, p, action, names) > 0
    decreases |names|
  {
    var init := names[..|names| - 1];
    var last := Act(s, a, p, action, names[|names| - 1]);
    assert Failures(s, a, p, action, names) == Failures(s, a, p, action, init) + (if last.outcome.Fail? then 1 else 0);
    if k < |init| {
      assert init[k] == names[k];
      FailedRoundCounts(s, a, p, action, init, k);
    } else {
      assert names[k] == names[|names| - 1];
    }
  }

  /** The one command a round of /OFFLINE, /ONLINE or /PURGE sends. */
  function CommandOf(action: Action, db: string): Command
    requires action.GoOffline? || action.GoOnline? || action.Purge?
  {
    match action
    case GoOffline => TakeOfflineCommand(db)
    case GoOnline => TakeOnlineCommand(db)
    case Purge => DeleteHistoryCommand(db)
  }

  /** /OFFLINE, /ONLINE and /PURGE send one command per selected database, in
      the selection's order, whatever the earlier ones did. */
  lemma {:induction false} OneCommandPerTarget(s: D.Server, a: A.Args, p: D.Platform, action: Action, names: seq<string>)
    requires action.GoOffline? || action.GoOnline? || action.Purge?
    ensures |Sent(s, a, p, action, names)| == |names|
    ensures forall k :: 0 <= k < |names| ==> Sent(s, a, p, action, names)[k] == CommandOf(action, names[k])
    decreases |names|
  {
    if names != [] {
      var init := names[..|names| - 1];
      OneCommandPerTarget(s, a, p, action, init);
      var last := Act(s, a, p, action, names[|names| - 1]);
      assert last.sent == [CommandOf(action, names[|names| - 1])];
      var all := Sent(s, a, p, action, names);
      assert all == Sent(s, a, p, action, init) + last.sent;
      forall k | 0 <= k < |names|
        ensures all[k] == CommandOf(action, names[k])
      {
        if k < |init| {
          assert all[k] == Sent(s, a, p, action, init)[k];
          assert init[k] == names[k];
        }
      }
    }
  }

  /** A loop round's body: the backup file is computed and the restore issued by
      the service's own methods. */
  method Perform(s: D.Server, a: A.Args, p: D.Platform, action: Action, db: string) returns (at: D.Attempt)
    ensures at == Act(s, a, p, action, db)
  {
    match action {
      case RestoreFromFile(kind, id) =>
        var file := GetBackupFile(a, db, p);
        if file.Failure? {
          return D.Attempt([], Fail(file.error));
        }
        at := D.Restore(s, db, file.value, kind, id);
      case BackUp(kind, verify) =>
        var file := GetBackupFile(a, db, p);
        if file.Failure? {
          return D.Attempt([], Fail(file.error));
        }
        at := D.Backup(s, db, file.value, kind, verify);
      case _ =>
        at := Act(s, a, p, action, db);
    }
  }

  /** One more round appends its commands and, when it fails, counts one
      more failure. */
  lemma RoundStep(s: D.Server, a: A.Args, p: D.Platform, action: Action, names: seq<string>, i: nat)
    requires i < |names|
    ensures Sent(s, a, p, action, names[..i + 1]) == Sent(s, a, p, action, names[..i]) + Act(s, a, p, action, names[i]).sent
    ensures Failures(s, a, p, action, names[..i + 1]) ==
      Failures(s, a, p, action, names[..i]) + (if Act(s, a, p, action, names[i]).outcome.Fail? then 1 else 0)
  {
    var done := names[..i + 1];
    assert done[..i] == names[..i] && done[i] == names[i];
  }

  /** The `foreach` of a mode: every database gets its round, a failing round
      counts one error and the loop goes on. */
  method RunBatch(s: D.Server, a: A.Args, p: D.Platform, action: Action, names: seq<string>)
    returns (sent: seq<Command>, ret: int)
    ensures sent == Sent(s, a, p, action, names)
    ensures ret == Failures(s, a, p, action, names)
  {
    sent := [];
    ret := 0;
    var i := 0;
    while i < |names|
      invariant 0 <= i <= |names|
      invariant sent == Sent(s, a, p, action, names[..i])
      invariant ret == Failures(s, a, p, action, names[..i])
    {
      var at := Perform(s, a, p, action, names[i]);
      RoundStep(s, a, p, action, names, i);
      sent := sent + at.sent;
      if at.outcome.Fail? {
        ret := ret + 1;
      }
      i := i + 1;
    }
    assert names[..i] == names;
  }

  // ---------------------------------------------------------------------------
  // Backup information

  /** The backup information read from the files of the named databases,
      each file filtered to its database; the first failure stops the listing. */
  function InfoFromFiles(s: D.Server, a: A.Args, p: D.Platform, names: seq<string>): Result<seq<BackupRecord>>
    decreases |names|
  {
    if names == [] then Success([])
    else
      var before :- InfoFromFiles(s, a, p, names[..|names| - 1]);
      var db := names[|names| - 1];
      var file :- BackupFile(a, db, p);
      var records :- D.BackupInfoFromFile(s, db, file);
      Success(before + records)
  }

  /** A failure on a prefix of the names is the failure of the whole listing. */
  lemma {:induction false} InfoFailurePersists(s: D.Server, a: A.Args, p: D.Platform, names: seq<string>, i: nat)
    requires i <= |names|
    requires InfoFromFiles(s, a, p, names[..i]).Failure?
    ensures InfoFromFiles(s, a, p, names) == InfoFromFiles(s, a, p, names[..i])
    decreases |names| - i
  {
    if i < |names| {
      assert names[..i + 1][..i] == names[..i];
      InfoFailurePersists(s, a, p, names, i + 1);
    } else {
      assert names[..i] == names;
    }
  }

  /** One more database's file extends the listing, or ends it with its
      failure. */
  lemma InfoFromFilesStep(s: D.Server, a: A.Args, p: D.Platform, names: seq<string>, i: nat, infos: seq<BackupRecord>)
    requires a.backupLocation.Some? && i < |names|
    requires InfoFromFiles(s, a, p, names[..i]) == Success(infos)
    ensures var records := D.BackupInfoFromFile(s, names[i], BackupFile(a, names[i], p).value);
      InfoFromFiles(s, a, p, names[..i + 1])
        == if records.Failure? then Failure(records.error) else Success(infos + records.value)
  {
    assert names[..i + 1][..i] == names[..i];
  }

  /** The backup history the server keeps for the named databases. */
  function InfoFromServer(s: D.Server, names: seq<string>): seq<BackupRecord>
    decreases |names|
  {
    if names == [] then [] else InfoFromServer(s, names[..|names| - 1]) + s.history(names[|names| - 1])
  }

  /** `DoBackupInfo`: from the files when a location is given (the whole file
      when no database is selected), otherwise from the server's history; with
      neither a location nor a database it fails. */
  function BackupInfoListing(s: D.Server, a: A.Args, p: D.Platform): Result<seq<BackupRecord>> {
    var names := DbList(a, s.catalog);
    if a.backupLocation.Some? then
      if |names| > 0 then InfoFromFiles(s, a, p, names)
      else D.ReadHeaders(s, a.backupLocation.value)
    else if |names| > 0 then Success(InfoFromServer(s, names))
    else Failure(NoDatabasesSpecified)
  }

  /** What read from the files of named databases lists belongs to those
      databases only. */
  lemma {:induction false} FileInfoBelongsToNames(s: D.Server, a: A.Args, p: D.Platform, names: seq<string>)
    requires InfoFromFiles(s, a, p, names).Success?
    ensures forall x :: x in InfoFromFiles(s, a, p, names).value ==>
      exists k :: 0 <= k < |names| && EqualsIgnoreCase(x.databaseName, names[k])
    decreases |names|
  {
    if names != [] {
      var init := names[..|names| - 1];
      var db := names[|names| - 1];
      FileInfoBelongsToNames(s, a, p, init);
      var before := InfoFromFiles(s, a, p, init).value;
      var file := BackupFile(a, db, p).value;
      var records := D.BackupInfoFromFile(s, db, file).value;
      forall x | x in InfoFromFiles(s, a, p, names).value
        ensures exists k :: 0 <= k < |names| && EqualsIgnoreCase(x.databaseName, names[k])
      {
        if x in before {
          var k :| 0 <= k < |init| && EqualsIgnoreCase(x.databaseName, init[k]);
          assert names[k] == init[k];
        } else {
          assert x in records;
          assert EqualsIgnoreCase(x.databaseName, names[|names| - 1]);
        }
      }
    }
  }

  /** The `foreach` over the named databases' files, adding each file's
      records of its database; a failure escapes at once. */
  method ReadFiles(s: D.Server, a: A.Args, p: D.Platform, dbNames: seq<string>) returns (r: Result<seq<BackupRecord>>)
    requires a.backupLocation.Some?
    ensures r == InfoFromFiles(s, a, p, dbNames)
  {
    var infos: seq<BackupRecord> := [];
    var i := 0;
    while i < |dbNames|
      invariant 0 <= i <= |dbNames|
      invariant InfoFromFiles(s, a, p, dbNames[..i]) == Success(infos)
    {
      var db := dbNames[i];
      InfoFromFilesStep(s, a, p, dbNames, i, infos);
      var file := GetBackupFile(a, db, p);
      var records := D.BackupInfoFromFile(s, db, file.value);
      if records.Failure? {
        InfoFailurePersists(s, a, p, dbNames, i + 1);
        return Failure(records.error);
      }
      infos := infos + records.value;
      i := i + 1;
    }
    assert dbNames[..i] == dbNames;
    return Success(infos);
  }

  /** The `foreach` over the named databases' server history. */
  method ReadHistory(s: D.Server, dbNames: seq<string>) returns (infos: seq<BackupRecord>)
    ensures infos == InfoFromServer(s, dbNames)
  {
    infos := [];
    var i := 0;
    while i < |dbNames|
      invariant 0 <= i <= |dbNames|
      invariant infos == InfoFromServer(s, dbNames[..i])
    {
      assert dbNames[..i + 1][..i] == dbNames[..i];
      infos := infos + s.history(dbNames[i]);
      i := i + 1;
    }
    assert dbNames[..i] == dbNames;
  }

  /** `DoBackupInfo`: the records of the selected databases' files, of the
      whole file, or of the server's history. */
  method DoBackupInfo(s: D.Server, a: A.Args, p: D.Platform) returns (r: Result<seq<BackupRecord>>)
    ensures r == BackupInfoListing(s, a, p)
  {
    var dbNames := DbList(a, s.catalog);
    if a.backupLocation != None {
      if |dbNames| > 0 {
        r := ReadFiles(s, a, p, dbNames);
      } else {
        r := D.ReadHeaders(s, a.backupLocation.value);
      }
    } else {
      if |dbNames| > 0 {
        var infos := ReadHistory(s, dbNames);
        r := Success(infos);
      } else {
        r := Failure(NoDatabasesSpecified);
      }
    }
  }

  // ---------------------------------------------------------------------------
  // Dispatch and exit code

  /** How the process ends: with an exit code, or with an exception nothing
      catches. */
  datatype Exit = Code(code: int) | Unhandled(error: Error)

  /** A run of the program: the commands it sent, the backup records it
      listed, and how it ended. */
  datatype Run = Run(sent: seq<Command>, listed: seq<BackupRecord>, exit: Exit)

  /** The loop a mode runs per database, if it is one of the looping modes. */
  function ActionOf(a: A.Args): Option<Action> {
    match a.mode
    case ChangeMode => if a.recoveryModel.Some? then Some(SetModel(a.recoveryModel.value)) else None
    case Offline => Some(GoOffline)
    case Online => Some(GoOnline)
    case PurgeBackup => Some(Purge)
    case DbInfo => Some(Describe)
    case Backup => Some(BackUp(if a.doLogBackup then Log else Database, a.verify))
    case Restore => Some(RestoreFromFile(if a.doLogBackup then Log else Database, a.fileIndex))
    case _ => None
  }

  /** The handler the mode table names, run on the parsed arguments. */
  function Dispatch(s: D.Server, a: A.Args, p: D.Platform): Run {
    match a.mode
    case ListDb => Run([], [], Code(0))
    case BackupInfo =>
      (match BackupInfoListing(s, a, p)
       case Failure(e) => Run([], [], Unhandled(e))
       case Success(infos) => Run([], infos, Code(0)))
    case ChangeMode =>
      if a.recoveryModel.None? then Run([], [], Unhandled(RecoveryModeNotSet))
      else
        var names := DbList(a, s.catalog);
        var action := SetModel(a.recoveryModel.value);
        Run(Sent(s, a, p, action, names), [], Code(Failures(s, a, p, action, names)))
    case _ =>
      if ActionOf(a).None? then Run([], [], Unhandled(ModeNotImplemented))
      else
        var names := DbList(a, s.catalog);
        var action := ActionOf(a).value;
        Run(Sent(s, a, p, action, names), [], Code(Failures(s, a, p, action, names)))
  }

  /** The whole program on a command line: a parse failure exits with 1, help
      with 0; an empty connection string escapes as an exception; otherwise the
      mode's handler decides. */
  function ProgramRun(s: D.Server, args: seq<string>, p: D.Platform): Run {
    match ArgumentParser.Scan(args)
    case Failure(_) => Run([], [], Code(1))
    case Success(a) =>
      if a.mode == Help then Run([], [], Code(0))
      else if a.connectionString.None? || a.connectionString.value == [] then
        Run([], [], Unhandled(EmptyConnectionString))
      else Dispatch(s, a, p)
  }

  /** The handler of a mode, run with the loops and the listing above. */
  method Handle(s: D.Server, a: A.Args, p: D.Platform) returns (r: Run)
    ensures r == Dispatch(s, a, p)
  {
    if a.mode == ListDb {
      return Run([], [], Code(0));
    }
    if a.mode == BackupInfo {
      var infos := DoBackupInfo(s, a, p);
      if infos.Failure? {
        return Run([], [], Unhandled(infos.error));
      }
      return Run([], infos.value, Code(0));
    }
    if a.mode == ChangeMode && a.recoveryModel == None {
      return Run([], [], Unhandled(RecoveryModeNotSet));
    }
    var action := ActionOf(a);
    if action == None {
      return Run([], [], Unhandled(ModeNotImplemented));
    }
    var sent, ret := RunBatch(s, a, p, action.value, DbList(a, s.catalog));
    r := Run(sent, [], Code(ret));
  }

  /** `Main`: parses the command line into a fresh argument object, then runs
      the mode. */
  method RunProgram(s: D.Server, args: seq<string>, p: D.Platform) returns (r: Run)
    ensures r == ProgramRun(s, args, p)
  {
    var parsed := ArgumentParser.Parse(args);
    if parsed.Failure? {
      return Run([], [], Code(1));
    }
    var a := parsed.value.Snapshot();
    if a.mode == Help {
      return Run([], [], Code(0));
    }
    if a.connectionString == None || a.connectionString.value == [] {
      return Run([], [], Unhandled(EmptyConnectionString));
    }
    r := Handle(s, a, p);
  }

  /** A looping mode exits with the number of databases that failed: between 0
      and the number of selected databases, and 0 exactly when every one
      passed. */
  lemma LoopExitCode(s: D.Server, args: seq<string>, p: D.Platform)
    requires ArgumentParser.Scan(args).Success?
    requires var a := ArgumentParser.Scan(args).value;
      a.mode != Help && a.connectionString.Some? && a.connectionString.value != [] && ActionOf(a).Some?
    ensures var a := ArgumentParser.Scan(args).value;
      var names := DbList(a, s.catalog);
      var action := ActionOf(a).value;
      var r := ProgramRun(s, args, p);
      && r.exit.Code?
      && 0 <= r.exit.code <= |names|
      && (r.exit.code == 0 <==> forall k :: 0 <= k < |names| ==> Act(s, a, p, action, names[k]).outcome.Pass?)
  {
    var a := ArgumentParser.Scan(args).value;
    FailuresCount(s, a, p, ActionOf(a).value, DbList(a, s.catalog));
  }

  /** /MODE without a recovery model stops before any database is touched. */
  lemma ModeWithoutModelTouchesNothing(s: D.Server, a: A.Args, p: D.Platform)
    requires a.mode == ChangeMode && a.recoveryModel.None?
    ensures Dispatch(s, a, p) == Run([], [], Unhandled(RecoveryModeNotSet))
  {
  }

  /** The backup information sources: a location without selected databases
      lists the whole file unfiltered; neither a location nor a database fails;
      otherwise the listing exits with 0 and sends nothing. */
  lemma BackupInfoSources(s: D.Server, a: A.Args, p: D.Platform)
    requires a.mode == BackupInfo
    ensures a.backupLocation.Some? && DbList(a, s.catalog) == [] ==>
      BackupInfoListing(s, a, p) == D.ReadHeaders(s, a.backupLocation.value)
    ensures a.backupLocation.None? && DbList(a, s.catalog) == [] ==>
      Dispatch(s, a, p) == Run([], [], Unhandled(NoDatabasesSpecified))
    ensures a.backupLocation.None? && DbList(a, s.catalog) != [] ==>
      Dispatch(s, a, p) == Run([], InfoFromServer(s, DbList(a, s.catalog)), Code(0))
    ensures BackupInfoListing(s, a, p).Success? ==>
      Dispatch(s, a, p) == Run([], BackupInfoListing(s, a, p).value, Code(0))
  {
  }

  /** A command line that does not parse exits with 1 and sends nothing. */
  lemma ParseFailureExitsOne(s: D.Server, args: seq<string>, p: D.Platform)
    requires ArgumentParser.Scan(args).Failure?
    ensures ProgramRun(s, args, p) == Run([], [], Code(1))
  {
  }

  /** An empty command line shows the help and exits with 0. */
  lemma NoArgumentsShowHelp(s: D.Server, p: D.Platform)
    ensures ProgramRun(s, [], p) == Run([], [], Code(0))
  {
    ArgumentParser.EmptyArgumentsMeanHelp();
  }

  /** Every mode that passes validation, other than help, has a handler. */
  lemma CompleteModesHaveHandlers(a: A.Args)
    requires A.Complete(a) && a.mode != Help
    ensures a.mode in {ListDb, BackupInfo} || ActionOf(a).Some?
  {
  }

  /** Reading the files of named databases can only fail on an unreadable file. */
  lemma {:induction false} FileInfoErrors(s: D.Server, a: A.Args, p: D.Platform, names: seq<string>)
    requires a.backupLocation.Some?
    requires InfoFromFiles(s, a, p, names).Failure?
    ensures InfoFromFiles(s, a, p, names).error.FileUnreadable?
    decreases |names|
  {
    if InfoFromFiles(s, a, p, names[..|names| - 1]).Failure? {
      FileInfoErrors(s, a, p, names[..|names| - 1]);
    }
  }

  /** The listing fails only on an unreadable file, or when neither a location
      nor a database is given. */
  lemma ListingErrors(s: D.Server, a: A.Args, p: D.Platform)
    requires BackupInfoListing(s, a, p).Failure?
    ensures var e := BackupInfoListing(s, a, p).error;
      e.FileUnreadable? || (e == NoDatabasesSpecified && a.backupLocation.None? && DbList(a, s.catalog) == [])
  {
    if a.backupLocation.Some? && |DbList(a, s.catalog)| > 0 {
      FileInfoErrors(s, a, p, DbList(a, s.catalog));
    }
  }

  /** Of the validated modes other than help, only the backup information
      listing can end in an exception, and only with the listing's failure. */
  lemma DispatchHandles(s: D.Server, a: A.Args, p: D.Platform)
    requires A.Complete(a) && a.mode != Help
    ensures var r := Dispatch(s, a, p);
      r.exit.Unhandled? ==>
        a.mode == BackupInfo && BackupInfoListing(s, a, p).Failure?
        && r.exit.error == BackupInfoListing(s, a, p).error
  {
    CompleteModesHaveHandlers(a);
    if a.mode !in {ListDb, BackupInfo, ChangeMode} {
      var names := DbList(a, s.catalog);
      var action := ActionOf(a).value;
      assert Dispatch(s, a, p) == Run(Sent(s, a, p, action, names), [], Code(Failures(s, a, p, action, names)));
    }
  }

  /** A command line that parses ends in an exception only when the connection
      string is empty, or when the backup information cannot be listed: an
      unreadable file, or neither a location nor a database. In particular
      every validated mode has a handler. */
  lemma UnhandledOnlyFrom(s: D.Server, args: seq<string>, p: D.Platform)
    requires ArgumentParser.Scan(args).Success?
    ensures var r := ProgramRun(s, args, p);
      r.exit.Unhandled? ==>
        r.exit.error == EmptyConnectionString || r.exit.error.FileUnreadable?
        || r.exit.error == NoDatabasesSpecified
  {
    var a := ArgumentParser.Scan(args).value;
    if args != [] {
      ArgumentParser.ParseShape(args);
      if a.mode != Help && a.connectionString.Some? && a.connectionString.value != [] {
        DispatchHandles(s, a, p);
        if BackupInfoListing(s, a, p).Failure? {
          ListingErrors(s, a, p);
        }
      }
    } else {
      ArgumentParser.EmptyArgumentsMeanHelp();
    }
  }
}
