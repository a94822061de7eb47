/** The mutable argument object the scanner fills in. Each setter checks the
    mode first, then its own field, and changes nothing when it fails; each is
    proved to do exactly what the matching function of `Arguments` says. */
module ParsedArgs {
  import opened Types
  import opened Text
  import Numbers
  import A = Arguments

  /** A setter call ended as its specification says: on success the state is the
      specified new one, on failure the specified error is raised and the state
      is what it was. */
  predicate Followed(spec: Result<A.Args>, r: Outcome, before: A.Args, after: A.Args) {
    match spec
    case Success(next) => r == Pass && after == next
    case Failure(e) => r == Fail(e) && after == before
  }

  class ParsedArguments {
    var mode: OpMode
    var recoveryModel: Option<DbRecoveryModel>
    var useAllDb: Option<bool>
    var databases: seq<string>
    var connectionString: Option<string>
    var backupLocation: Option<string>
    var isDirectory: bool
    var fileIndex: int32
    var verify: bool
    var doLogBackup: bool
    var dismountDb: bool

    /** The current state as a value. */
    function Snapshot(): A.Args
      reads this
    {
      A.Args(mode, recoveryModel, useAllDb, databases, connectionString, backupLocation,
             isDirectory, fileIndex, verify, doLogBackup, dismountDb)
    }

    constructor ()
      ensures Snapshot() == A.Initial
    {
      mode := NoMode;
      recoveryModel := None;
      useAllDb := None;
      databases := [];
      connectionString := None;
      backupLocation := None;
      isDirectory := false;
      fileIndex := 0;
      verify := false;
      doLogBackup := false;
      dismountDb := false;
    }

    /** `EnsureMode()`. */
    method EnsureMode() returns (r: Outcome)
      ensures r.Pass? <==> mode != NoMode
      ensures r == A.EnsureModeSet(Snapshot())
    {
      if mode == NoMode {
        return Fail(ModeNotSpecified);
      }
      return Pass;
    }

    /** `EnsureMode(params modes)`. */
    method EnsureModeIn(modes: set<OpMode>) returns (r: Outcome)
      ensures r.Pass? <==> mode != NoMode && mode in modes
      ensures r == A.EnsureModeIn(Snapshot(), modes)
    {
      r := EnsureMode();
      if r.Fail? {
        return;
      }
      if mode !in modes {
        return Fail(NotValidForMode);
      }
    }

    method SetUseAllDb() returns (r: Outcome)
      modifies this
      ensures Followed(A.SetUseAllDb(old(Snapshot())), r, old(Snapshot()), Snapshot())
    {
      r := EnsureModeIn(A.LegalModes(A.Selection));
      if r.Fail? {
        return;
      }
      if useAllDb == None {
        useAllDb := Some(true);
        return;
      }
      if useAllDb.value {
        return Fail(DuplicateAll);
      }
      return Fail(AllAfterDb);
    }

    method ClearUseAllDb() returns (r: Outcome)
      modifies this
      ensures Followed(A.ClearUseAllDb(old(Snapshot())), r, old(Snapshot()), Snapshot())
    {
      r := EnsureModeIn(A.LegalModes(A.Selection));
      if r.Fail? {
        return;
      }
      if useAllDb == None {
        useAllDb := Some(false);
        return;
      }
      if !useAllDb.value {
        return Fail(DuplicateDb);
      }
      return Fail(DbAfterAll);
    }

    method AddDb(dbName: string) returns (r: Outcome)
      modifies this
      ensures Followed(A.AddDb(old(Snapshot()), dbName), r, old(Snapshot()), Snapshot())
      ensures NoDupIgnoreCase(old(databases)) ==> NoDupIgnoreCase(databases)
    {
      r := EnsureModeIn(A.LegalModes(A.Selection));
      if r.Fail? {
        return;
      }
      if ContainsIgnoreCase(databases, dbName) {
        return Fail(DatabaseAlreadyListed(dbName));
      }
      databases := databases + [dbName];
    }

    method SetConnectionString(connStr: string) returns (r: Outcome)
      modifies this
      ensures Followed(A.SetConnectionString(old(Snapshot()), connStr), r, old(Snapshot()), Snapshot())
    {
      r := EnsureMode();
      if r.Fail? {
        return;
      }
      if connectionString == None {
        connectionString := Some(A.ResolveAlias(connStr));
      } else {
        r := Fail(ConnectionStringAlreadySet);
      }
    }

    method SetLocation(location: string, isDir: bool) returns (r: Outcome)
      modifies this
      ensures Followed(A.SetLocation(old(Snapshot()), location, isDir), r, old(Snapshot()), Snapshot())
    {
      if location == [] {
        return Fail(EmptyLocation);
      }
      r := EnsureModeIn(A.LegalModes(A.Location));
      if r.Fail? {
        return;
      }
      if backupLocation == None {
        backupLocation := Some(location);
        isDirectory := isDir;
      } else {
        r := Fail(LocationAlreadySet);
      }
    }

    method SetFileIndex(index: string) returns (r: Outcome)
      modifies this
      ensures Followed(A.SetFileIndex(old(Snapshot()), index), r, old(Snapshot()), Snapshot())
    {
      r := EnsureModeIn(A.LegalModes(A.FileIndex));
      if r.Fail? {
        return;
      }
      var parsed := Numbers.TryParseInt32(index);
      if parsed == None {
        return Fail(NotAnInteger(index));
      }
      if fileIndex != 0 {
        return Fail(FileIndexAlreadySet);
      }
      if parsed.value == 0 {
        return Fail(FileIndexZero);
      }
      fileIndex := parsed.value;
    }

    method SetVerify() returns (r: Outcome)
      modifies this
      ensures Followed(A.SetVerify(old(Snapshot())), r, old(Snapshot()), Snapshot())
    {
      r := EnsureModeIn(A.LegalModes(A.Verify));
      if r.Fail? {
        return;
      }
      if verify {
        return Fail(DuplicateVerify);
      }
      verify := true;
    }

    method SetLogBackup() returns (r: Outcome)
      modifies this
      ensures Followed(A.SetLogBackup(old(Snapshot())), r, old(Snapshot()), Snapshot())
    {
      r := EnsureModeIn(A.LegalModes(A.LogBackup));
      if r.Fail? {
        return;
      }
      if doLogBackup {
        return Fail(DuplicateLog);
      }
      doLogBackup := true;
    }

    method SetDismount() returns (r: Outcome)
      modifies this
      ensures Followed(A.SetDismount(old(Snapshot())), r, old(Snapshot()), Snapshot())
    {
      r := EnsureModeIn(A.LegalModes(A.Dismount));
      if r.Fail? {
        return;
      }
      if dismountDb {
        return Fail(DuplicateDismount);
      }
      dismountDb := true;
    }

    method SetRecoveryModel(arg: string) returns (r: Outcome)
      modifies this
      ensures Followed(A.SetRecoveryModel(old(Snapshot()), arg), r, old(Snapshot()), Snapshot())
    {
      r := EnsureModeIn(A.LegalModes(A.RecoveryModel));
      if r.Fail? {
        return;
      }
      if recoveryModel.Some? {
        return Fail(RecoveryModelAlreadySet);
      }
      var model := A.RecoveryToken(arg);
      if model == None {
        return Fail(NotARecoveryModel(arg));
      }
      recoveryModel := model;
    }

    method SetMode(arg: string) returns (r: Outcome)
      modifies this
      ensures Followed(A.SetMode(old(Snapshot()), arg), r, old(Snapshot()), Snapshot())
    {
      if mode != NoMode {
        return Fail(ModeAlreadySet);
      }
      var m := A.ModeToken(arg);
      if m == None {
        return Fail(NotAValidMode(arg));
      }
      mode := m.value;
      r := Pass;
    }

    method RequirePath() returns (r: Outcome)
      ensures r.Pass? <==> A.HasLocation(Snapshot())
      ensures r == A.RequirePath(Snapshot())
    {
      if backupLocation == None || IsBlank(backupLocation.value) {
        return Fail(LocationRequired);
      }
      return Pass;
    }

    method RequireDb() returns (r: Outcome)
      ensures r.Pass? <==> A.Resolvable(Snapshot())
      ensures r == A.RequireDb(Snapshot())
    {
      if useAllDb == None {
        return Fail(SelectionRequired);
      }
      if useAllDb == Some(false) && |databases| == 0 {
        return Fail(SelectionEmpty);
      }
      return Pass;
    }

    method RequireDbOrPath() returns (r: Outcome)
      ensures r.Pass? <==> A.Resolvable(Snapshot()) || A.HasLocation(Snapshot())
      ensures r == A.RequireDbOrPath(Snapshot())
    {
      r := RequireDb();
      if r.Fail? {
        r := RequirePath();
        if r.Fail? {
          r := Fail(DatabaseOrFileRequired);
        }
      }
    }

    method RequireConnstr() returns (r: Outcome)
      ensures r.Pass? <==> connectionString.Some?
      ensures r == A.RequireConnstr(Snapshot())
    {
      if connectionString == None {
        return Fail(ConnectionStringRequired);
      }
      return Pass;
    }

    /** The read-only completeness check run after the last token. */
    method Validate() returns (r: Outcome)
      ensures r.Pass? <==> A.Complete(Snapshot())
      ensures r == A.Validate(Snapshot())
    {
      r := EnsureMode();
      if r.Fail? {
        return;
      }
      match mode {
        case Invalid =>
          return Fail(NoModeSpecified);
        case NoMode =>
          return Fail(NoModeSpecified);
        case Backup =>
          r := RequirePath();
          if r.Pass? {
            r := RequireDb();
          }
        case Restore =>
          r := RequirePath();
          if r.Pass? {
            r := RequireDb();
          }
        case ChangeMode =>
          r := RequireDb();
          if r.Pass? && recoveryModel == None {
            r := Fail(RecoveryModelRequired);
          }
        case BackupInfo =>
          r := RequireDbOrPath();
        case DbInfo =>
          r := RequireDb();
        case PurgeBackup =>
          r := RequireDb();
        case Offline =>
          r := RequireDb();
        case Online =>
          r := RequireDb();
        case Help =>
          r := Pass;
        case ListDb =>
          r := Pass;
      }
      if r.Fail? {
        return;
      }
      if mode != Help {
        r := RequireConnstr();
      }
    }
  }
}
