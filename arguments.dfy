/** The parsed command line as a value, and every change the argument setters
    make to it as a function from the old value to the new one or to the failure
    raised. The class `ParsedArgs.ParsedArguments` keeps the same state in fields
    and is proved to follow these functions. */
module Arguments {
  import opened Types
  import opened Text
  import Numbers

  datatype Args = Args(
    mode: OpMode,
    recoveryModel: Option<DbRecoveryModel>,
    useAllDb: Option<bool>,
    databases: seq<string>,
    connectionString: Option<string>,
    backupLocation: Option<string>,
    isDirectory: bool,
    fileIndex: int32,
    verify: bool,
    doLogBackup: bool,
    dismountDb: bool)

  /** A freshly constructed argument set: nothing chosen yet. */
  const Initial: Args := Args(NoMode, None, None, [], None, None, false, 0, false, false, false)

  /** Modes that accept a database selection (/ALL, /DB and the names after them). */
  const DbModes: set<OpMode> := {Backup, BackupInfo, ChangeMode, PurgeBackup, Restore, Offline, Online, DbInfo}

  /** Modes that accept /DIR or /FILE. */
  const LocationModes: set<OpMode> := {Backup, BackupInfo, Restore}

  /** The connection descriptors behind the two aliases; their exact text is the
      server's business, the model only needs two fixed strings. */
  const SqlExpressDefault: string := "Server=.\\SQLEXPRESS;Integrated Security=true;Encrypt=false"
  const LocalDbDefault: string := "Server=(localdb)\\MSSQLLocalDB;Integrated Security=true;Encrypt=false"

  /** The mode-specific fields, each guarded by the set of modes it is legal in. */
  datatype Field = Selection | Location | FileIndex | Verify | LogBackup | Dismount | RecoveryModel

  /** The legality table: which modes accept which field. /LOG is accepted in
      /RESTORE as well as /BACKUP (see `LegalModesAsWritten`). */
  function LegalModes(f: Field): set<OpMode> {
    match f
    case Selection => DbModes
    case Location => LocationModes
    case FileIndex => {Restore}
    case Verify => {Backup}
    case LogBackup => {Backup, Restore}
    case Dismount => {Restore}
    case RecoveryModel => {ChangeMode}
  }

  /** The table as the setters have it: /LOG only in /BACKUP. */
  function LegalModesAsWritten(f: Field): set<OpMode> {
    if f == LogBackup then {Backup} else LegalModes(f)
  }

  /** `EnsureMode()`: some mode has been chosen. */
  function EnsureModeSet(a: Args): (r: Outcome)
    ensures r.Pass? <==> a.mode != NoMode
  {
    if a.mode == NoMode then Fail(ModeNotSpecified) else Pass
  }

  /** `EnsureMode(modes)`: a mode has been chosen and it is one of `modes`. */
  function EnsureModeIn(a: Args, modes: set<OpMode>): (r: Outcome)
    ensures r.Pass? <==> a.mode != NoMode && a.mode in modes
    ensures a.mode == NoMode ==> r == Fail(ModeNotSpecified)
  {
    var g := EnsureModeSet(a);
    if g.Fail? then g
    else if a.mode !in modes then Fail(NotValidForMode)
    else Pass
  }

  /** The mode keywords, upper-cased, and the mode each selects. */
  const ModeNames: seq<(string, OpMode)> := [
    ("/?", Help), ("/HELP", Help), ("/LIST", ListDb), ("/BACKUP", Backup),
    ("/RESTORE", Restore), ("/MODE", ChangeMode), ("/INFO", BackupInfo),
    ("/DBINFO", DbInfo), ("/PURGE", PurgeBackup), ("/OFFLINE", Offline),
    ("/ONLINE", Online)]

  /** The recovery-model switches, upper-cased. */
  const RecoveryNames: seq<(string, DbRecoveryModel)> :=
    [("/FULL", Full), ("/BULK", BulkLogged), ("/SIMPLE", Simple)]

  /** The mode a first token selects, compared without regard to case; never
      the two internal placeholders. */
  function ModeToken(arg: string): (m: Option<OpMode>)
    ensures m.Some? ==> m.value !in {NoMode, Invalid}
  {
    if Lookup(arg, ModeNames).Some? then LookupFound(arg, ModeNames); Lookup(arg, ModeNames)
    else None
  }

  /** The recovery model a switch names, compared without regard to case. */
  function RecoveryToken(arg: string): Option<DbRecoveryModel> {
    Lookup(arg, RecoveryNames)
  }

  /** The alias lookup of `SetConnectionString`: LOCAL and EXPRESS in any case
      stand for fixed descriptors, anything else is kept verbatim. */
  function ResolveAlias(s: string): string {
    if UpperMatches(s, "EXPRESS") then SqlExpressDefault
    else if UpperMatches(s, "LOCAL") then LocalDbDefault
    else s
  }

  function SetMode(a: Args, arg: string): (r: Result<Args>)
    ensures r.Success? <==> a.mode == NoMode && ModeToken(arg).Some?
    ensures r.Success? ==> r.value == a.(mode := ModeToken(arg).value)
  {
    if a.mode != NoMode then Failure(ModeAlreadySet)
    else match ModeToken(arg)
      case None => Failure(NotAValidMode(arg))
      case Some(m) => Success(a.(mode := m))
  }

  /** /ALL: the selection goes from unset to "all except the listed names". */
  function SetUseAllDb(a: Args): (r: Result<Args>)
    ensures r.Success? <==> a.mode in DbModes && a.useAllDb == None
    ensures r.Success? ==> r.value == a.(useAllDb := Some(true))
  {
    var g := EnsureModeIn(a, LegalModes(Selection));
    if g.Fail? then Failure(g.error)
    else if a.useAllDb == None then Success(a.(useAllDb := Some(true)))
    else if a.useAllDb.value then Failure(DuplicateAll)
    else Failure(AllAfterDb)
  }

  /** /DB: the selection goes from unset to "only the listed names". */
  function ClearUseAllDb(a: Args): (r: Result<Args>)
    ensures r.Success? <==> a.mode in DbModes && a.useAllDb == None
    ensures r.Success? ==> r.value == a.(useAllDb := Some(false))
  {
    var g := EnsureModeIn(a, LegalModes(Selection));
    if g.Fail? then Failure(g.error)
    else if a.useAllDb == None then Success(a.(useAllDb := Some(false)))
    else if !a.useAllDb.value then Failure(DuplicateDb)
    else Failure(DbAfterAll)
  }

  /** Appends a database name unless one equal to it ignoring case is listed. */
  function AddDb(a: Args, name: string): (r: Result<Args>)
    ensures r.Success? <==> a.mode in DbModes && !ContainsIgnoreCase(a.databases, name)
    ensures r.Success? ==> r.value == a.(databases := a.databases + [name])
    ensures r.Success? && NoDupIgnoreCase(a.databases) ==> NoDupIgnoreCase(r.value.databases)
  {
    var g := EnsureModeIn(a, LegalModes(Selection));
    if g.Fail? then Failure(g.error)
    else if ContainsIgnoreCase(a.databases, name) then Failure(DatabaseAlreadyListed(name))
    else Success(a.(databases := a.databases + [name]))
  }

  function SetConnectionString(a: Args, connStr: string): (r: Result<Args>)
    ensures r.Success? <==> a.mode != NoMode && a.connectionString == None
    ensures r.Success? ==> r.value == a.(connectionString := Some(ResolveAlias(connStr)))
  {
    var g := EnsureModeSet(a);
    if g.Fail? then Failure(g.error)
    else if a.connectionString == None then Success(a.(connectionString := Some(ResolveAlias(connStr))))
    else Failure(ConnectionStringAlreadySet)
  }

  /** /DIR and /FILE. The empty location is refused before the mode is looked at. */
  function SetLocation(a: Args, location: string, isDirectory: bool): (r: Result<Args>)
    ensures location == [] ==> r == Failure(EmptyLocation)
    ensures r.Success? <==> location != [] && a.mode in LocationModes && a.backupLocation == None
    ensures r.Success? ==> r.value == a.(backupLocation := Some(location), isDirectory := isDirectory)
  {
    if location == [] then Failure(EmptyLocation)
    else
      var g := EnsureModeIn(a, LegalModes(Location));
      if g.Fail? then Failure(g.error)
      else if a.backupLocation == None then Success(a.(backupLocation := Some(location), isDirectory := isDirectory))
      else Failure(LocationAlreadySet)
  }

  /** /ID: not an integer, already set, and zero are refused, in that order. */
  function SetFileIndex(a: Args, index: string): (r: Result<Args>)
    ensures r.Success? <==> a.mode == Restore && a.fileIndex == 0
                            && Numbers.TryParseInt32(index).Some? && Numbers.TryParseInt32(index).value != 0
    ensures r.Success? ==> r.value == a.(fileIndex := Numbers.TryParseInt32(index).value) && r.value.fileIndex != 0
    ensures a.mode == Restore && Numbers.TryParseInt32(index) == None ==> r == Failure(NotAnInteger(index))
  {
    var g := EnsureModeIn(a, LegalModes(FileIndex));
    if g.Fail? then Failure(g.error)
    else match Numbers.TryParseInt32(index)
      case None => Failure(NotAnInteger(index))
      case Some(parsed) =>
        if a.fileIndex != 0 then Failure(FileIndexAlreadySet)
        else if parsed == 0 then Failure(FileIndexZero)
        else Success(a.(fileIndex := parsed))
  }

  function SetVerify(a: Args): (r: Result<Args>)
    ensures r.Success? <==> a.mode == Backup && !a.verify
    ensures r.Success? ==> r.value == a.(verify := true)
  {
    var g := EnsureModeIn(a, LegalModes(Verify));
    if g.Fail? then Failure(g.error)
    else if a.verify then Failure(DuplicateVerify)
    else Success(a.(verify := true))
  }

  /** /LOG, accepted in /BACKUP and /RESTORE. */
  function SetLogBackup(a: Args): (r: Result<Args>)
    ensures r.Success? <==> a.mode in {Backup, Restore} && !a.doLogBackup
    ensures r.Success? ==> r.value == a.(doLogBackup := true)
  {
    var g := EnsureModeIn(a, LegalModes(LogBackup));
    if g.Fail? then Failure(g.error)
    else if a.doLogBackup then Failure(DuplicateLog)
    else Success(a.(doLogBackup := true))
  }

  /** /LOG as the setter is written: accepted in /BACKUP only. */
  function SetLogBackupAsWritten(a: Args): (r: Result<Args>)
    ensures r.Success? <==> a.mode == Backup && !a.doLogBackup
    ensures r.Success? ==> r.value == a.(doLogBackup := true)
  {
    var g := EnsureModeIn(a, LegalModesAsWritten(LogBackup));
    if g.Fail? then Failure(g.error)
    else if a.doLogBackup then Failure(DuplicateLog)
    else Success(a.(doLogBackup := true))
  }

  /** The setter as written turns /LOG away in /RESTORE, so a log restore can
      never be asked for, although the restore loop reads the flag; the
      corrected setter accepts it. */
  lemma LogRejectedInRestoreAsWritten()
    ensures var a := Initial.(mode := Restore);
      && SetLogBackupAsWritten(a) == Failure(NotValidForMode)
      && SetLogBackup(a) == Success(a.(doLogBackup := true))
  {
  }

  function SetDismount(a: Args): (r: Result<Args>)
    ensures r.Success? <==> a.mode == Restore && !a.dismountDb
    ensures r.Success? ==> r.value == a.(dismountDb := true)
  {
    var g := EnsureModeIn(a, LegalModes(Dismount));
    if g.Fail? then Failure(g.error)
    else if a.dismountDb then Failure(DuplicateDismount)
    else Success(a.(dismountDb := true))
  }

  function SetRecoveryModel(a: Args, arg: string): (r: Result<Args>)
    ensures r.Success? <==> a.mode == ChangeMode && a.recoveryModel == None && RecoveryToken(arg).Some?
    ensures r.Success? ==> r.value == a.(recoveryModel := RecoveryToken(arg))
  {
    var g := EnsureModeIn(a, LegalModes(RecoveryModel));
    if g.Fail? then Failure(g.error)
    else if a.recoveryModel.Some? then Failure(RecoveryModelAlreadySet)
    else match RecoveryToken(arg)
      case None => Failure(NotARecoveryModel(arg))
      case Some(m) => Success(a.(recoveryModel := Some(m)))
  }

  // ---------------------------------------------------------------------------
  // Validation

  /** A backup location that is present and not blank. */
  predicate HasLocation(a: Args) {
    a.backupLocation.Some? && !IsBlank(a.backupLocation.value)
  }

  /** The selection names at least one database: /ALL, or /DB with a name. */
  predicate Resolvable(a: Args) {
    a.useAllDb.Some? && (a.useAllDb.value || a.databases != [])
  }

  /** What each mode needs once all tokens are read. */
  predicate Complete(a: Args) {
    && a.mode !in {NoMode, Invalid}
    && (a.mode in {Backup, Restore} ==> HasLocation(a) && Resolvable(a))
    && (a.mode == ChangeMode ==> Resolvable(a) && a.recoveryModel.Some?)
    && (a.mode == BackupInfo ==> Resolvable(a) || HasLocation(a))
    && (a.mode in {DbInfo, PurgeBackup, Offline, Online} ==> Resolvable(a))
    && (a.mode != Help ==> a.connectionString.Some?)
  }

  function RequirePath(a: Args): (r: Outcome)
    ensures r.Pass? <==> HasLocation(a)
  {
    if a.backupLocation == None || IsBlank(a.backupLocation.value) then Fail(LocationRequired) else Pass
  }

  function RequireDb(a: Args): (r: Outcome)
    ensures r.Pass? <==> Resolvable(a)
  {
    if a.useAllDb == None then Fail(SelectionRequired)
    else if a.useAllDb == Some(false) && a.databases == [] then Fail(SelectionEmpty)
    else Pass
  }

  /** Either check may pass; when both fail only a combined failure is reported. */
  function RequireDbOrPath(a: Args): (r: Outcome)
    ensures r.Pass? <==> Resolvable(a) || HasLocation(a)
    ensures r.Fail? ==> r.error == DatabaseOrFileRequired
  {
    if RequireDb(a).Pass? then Pass
    else if RequirePath(a).Pass? then Pass
    else Fail(DatabaseOrFileRequired)
  }

  function RequireConnstr(a: Args): (r: Outcome)
    ensures r.Pass? <==> a.connectionString.Some?
  {
    if a.connectionString == None then Fail(ConnectionStringRequired) else Pass
  }

  /** The final check: the first missing requirement fails. */
  function Validate(a: Args): (r: Outcome)
    ensures r.Pass? <==> Complete(a)
    ensures a.mode == NoMode ==> r == Fail(ModeNotSpecified)
  {
    var g := EnsureModeSet(a);
    if g.Fail? then g
    else
      var byMode :=
        match a.mode
        case Invalid => Fail(NoModeSpecified)
        case NoMode => Fail(NoModeSpecified)
        case Backup => if RequirePath(a).Fail? then RequirePath(a) else RequireDb(a)
        case Restore => if RequirePath(a).Fail? then RequirePath(a) else RequireDb(a)
        case ChangeMode =>
          if RequireDb(a).Fail? then RequireDb(a)
          else if a.recoveryModel == None then Fail(RecoveryModelRequired)
          else Pass
        case BackupInfo => RequireDbOrPath(a)
        case DbInfo => RequireDb(a)
        case PurgeBackup => RequireDb(a)
        case Offline => RequireDb(a)
        case Online => RequireDb(a)
        case Help => Pass
        case ListDb => Pass;
      if byMode.Fail? then byMode
      else if a.mode != Help then RequireConnstr(a)
      else Pass
  }

  // ---------------------------------------------------------------------------
  // The setters as one family of mutations

  /** One call of a setter, with its argument. */
  datatype Mutation =
    | ModeArg(arg: string)
    | UseAll
    | ClearUseAll
    | AddName(name: string)
    | ConnStr(connStr: string)
    | Place(location: string, isDirectory: bool)
    | Index(text: string)
    | VerifyFlag
    | LogFlag
    | DismountFlag
    | Recovery(arg: string)

  function Apply(a: Args, m: Mutation): Result<Args> {
    match m
    case ModeArg(arg) => SetMode(a, arg)
    case UseAll => SetUseAllDb(a)
    case ClearUseAll => ClearUseAllDb(a)
    case AddName(name) => AddDb(a, name)
    case ConnStr(s) => SetConnectionString(a, s)
    case Place(loc, isDir) => SetLocation(a, loc, isDir)
    case Index(text) => SetFileIndex(a, text)
    case VerifyFlag => SetVerify(a)
    case LogFlag => SetLogBackup(a)
    case DismountFlag => SetDismount(a)
    case Recovery(arg) => SetRecoveryModel(a, arg)
  }

  /** The set of modes a mutation is legal in (the connection string: any chosen mode). */
  function LegalFor(m: Mutation): set<OpMode> {
    match m
    case ModeArg(_) => {NoMode}
    case UseAll => LegalModes(Selection)
    case ClearUseAll => LegalModes(Selection)
    case AddName(_) => LegalModes(Selection)
    case ConnStr(_) => {Help, Invalid, ListDb, Backup, Restore, ChangeMode, BackupInfo, DbInfo, PurgeBackup, Offline, Online}
    case Place(_, _) => LegalModes(Location)
    case Index(_) => LegalModes(FileIndex)
    case VerifyFlag => LegalModes(Verify)
    case LogFlag => LegalModes(LogBackup)
    case DismountFlag => LegalModes(Dismount)
    case Recovery(_) => LegalModes(RecoveryModel)
  }

  /** The state every sequence of successful mutations from `Initial` keeps. */
  predicate Consistent(a: Args) {
    && NoDupIgnoreCase(a.databases)
    && a.mode != Invalid
    && (a.mode == NoMode ==> a == Initial)
    && (a.useAllDb.Some? || a.databases != [] ==> a.mode in DbModes)
    && (a.backupLocation.Some? ==> a.mode in LocationModes && a.backupLocation.value != [])
    && (a.fileIndex != 0 ==> a.mode == Restore)
    && (a.verify ==> a.mode == Backup)
    && (a.doLogBackup ==> a.mode in {Backup, Restore})
    && (a.dismountDb ==> a.mode == Restore)
    && (a.recoveryModel.Some? ==> a.mode == ChangeMode)
  }

  /** Only the mode token sets the mode, and only a name changes the list. */
  lemma ApplyKeepsModeAndList(a: Args, m: Mutation)
    requires !m.ModeArg? && Apply(a, m).Success?
    ensures Apply(a, m).value.mode == a.mode
    ensures Apply(a, m).value.databases == a.databases + (if m.AddName? then [m.name] else [])
  {
    match m {
      case UseAll =>
      case ClearUseAll =>
      case AddName(_) =>
      case ConnStr(_) =>
      case Place(_, _) =>
      case Index(_) =>
      case VerifyFlag =>
      case LogFlag =>
      case DismountFlag =>
      case Recovery(_) =>
    }
  }

  /** A mutation outside its legal modes fails (and so changes nothing). */
  lemma GuardedByMode(a: Args, m: Mutation)
    requires a.mode !in LegalFor(m)
    requires !m.Place? || m.location != []
    ensures Apply(a, m).Failure?
    ensures a.mode == NoMode && !m.ModeArg? ==> Apply(a, m) == Failure(ModeNotSpecified)
  {
  }

  /** Every setter is write-once: repeating a successful call fails. For a
      database name, the repeat is a duplicate. */
  lemma NoMutationTwice(a: Args, m: Mutation)
    requires Apply(a, m).Success?
    ensures Apply(Apply(a, m).value, m).Failure?
  {
    if m.AddName? {
      var b := Apply(a, m).value;
      assert b.databases[|b.databases| - 1] == m.name;
      assert ContainsIgnoreCase(b.databases, m.name);
    }
  }

  /** /ALL and /DB exclude each other: after either one succeeded both fail, and
      the selection keeps its value. */
  lemma SelectionIsTriState(a: Args)
    requires a.useAllDb.Some?
    ensures SetUseAllDb(a).Failure? && ClearUseAllDb(a).Failure?
    ensures a.mode in DbModes && a.useAllDb == Some(true) ==>
      SetUseAllDb(a) == Failure(DuplicateAll) && ClearUseAllDb(a) == Failure(DbAfterAll)
    ensures a.mode in DbModes && a.useAllDb == Some(false) ==>
      SetUseAllDb(a) == Failure(AllAfterDb) && ClearUseAllDb(a) == Failure(DuplicateDb)
  {
  }

  /** Each successful mutation keeps the state consistent, so in particular the
      database list never holds two names equal ignoring case. */
  lemma ApplyKeepsConsistent(a: Args, m: Mutation)
    requires Consistent(a)
    requires Apply(a, m).Success?
    ensures Consistent(Apply(a, m).value)
  {
    var b := Apply(a, m).value;
    match m
    case AddName(name) =>
      assert b.databases == a.databases + [name];
    case _ =>
  }

  /** The aliases resolve to the same descriptor every time: resolving again
      changes nothing, and any other string is kept exactly as given. */
  lemma AliasResolutionIsStable(s: string)
    ensures ResolveAlias(ResolveAlias(s)) == ResolveAlias(s)
    ensures !EqualsIgnoreCase(s, "LOCAL") && !EqualsIgnoreCase(s, "EXPRESS") ==> ResolveAlias(s) == s
    ensures EqualsIgnoreCase(s, "local") ==> ResolveAlias(s) == LocalDbDefault
  {
    var r := ResolveAlias(s);
    UpperMatchesIsToUpper(s, "EXPRESS");
    UpperMatchesIsToUpper(s, "LOCAL");
    UpperMatchesIsToUpper(r, "EXPRESS");
    UpperMatchesIsToUpper(r, "LOCAL");
    assert ToUpper("EXPRESS") == "EXPRESS" && ToUpper("LOCAL") == "LOCAL" && ToUpper("local") == "LOCAL";
    if r == SqlExpressDefault || r == LocalDbDefault {
      assert |ToUpper(r)| != |"EXPRESS"| && |ToUpper(r)| != |"LOCAL"|;
    }
  }

  /** Keywords differ in case only from what the tables list. */
  lemma ModeTokenIgnoresCase(s: string, t: string)
    requires EqualsIgnoreCase(s, t)
    ensures ModeToken(s) == ModeToken(t) && RecoveryToken(s) == RecoveryToken(t)
  {
    LookupIgnoresCase(s, t, ModeNames);
    LookupIgnoresCase(s, t, RecoveryNames);
  }
}
