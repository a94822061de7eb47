/** Value types shared by the whole model: the enums of the tool, the two records
    the server hands back, the named failures, and the wrappers that carry them. */
module Types {

  /** 32-bit signed integers, the width of C#'s `int`. */
  newtype int32 = x: int | -0x8000_0000 <= x < 0x8000_0000

  const MinInt32: int := -0x8000_0000
  const MaxInt32: int := 0x7FFF_FFFF

  datatype Option<+T> = None | Some(value: T)

  /** The operation selected by the first command-line token. */
  datatype OpMode =
    | NoMode | Help | Invalid | ListDb | Backup | Restore | ChangeMode
    | BackupInfo | DbInfo | PurgeBackup | Offline | Online

  datatype DbRecoveryModel = Full | BulkLogged | Simple

  datatype BackupType = Database | Log

  /** The database states SQL Server reports in `sys.databases`. */
  datatype DbState =
    | OnlineState | RestoringState | RecoveringState | RecoveryPendingState
    | SuspectState | EmergencyState | OfflineState

  datatype AccessType = MultiUser | SingleUser | RestrictedUser

  /** One backup set (the source's `BackupInfo` record), as read from a backup file header or from the server's history.
      Timestamps are abstract instants. */
  datatype BackupRecord = BackupRecord(
    databaseName: string,
    backupStart: int,
    backupEnd: int,
    size: int,
    fileName: string,
    backupType: BackupType,
    recoveryModel: DbRecoveryModel,
    fileId: int32)

  /** What the server reports about one database (the source's `DbInfo` record). */
  datatype DatabaseInfo = DatabaseInfo(
    databaseName: string,
    createdAt: int,
    accessType: AccessType,
    state: DbState,
    recoveryModel: DbRecoveryModel,
    isReadonly: bool)

  /** One statement of a restore batch. */
  datatype RestoreStatement =
    | DisconnectOthers
    | RestoreFrom(kind: BackupType, replace: bool)
    | ReconnectOthers

  /** A command sent to the server; the SQL text itself is not modelled. */
  datatype Command =
    | BackupCommand(db: string, file: string, kind: BackupType, name: string, description: string)
    | VerifyCommand(db: string, file: string)
    | RestoreBatch(db: string, file: string, statements: seq<RestoreStatement>, backupId: int32)
    | SetRecoveryCommand(db: string, keyword: string)
    | TakeOfflineCommand(db: string)
    | TakeOnlineCommand(db: string)
    | DeleteHistoryCommand(db: string)

  /** Every failure the tool can raise, by kind; message texts are not modelled. */
  datatype Error =
    // argument state (ParsedArguments)
    | ModeAlreadySet
    | NotAValidMode(arg: string)
    | ModeNotSpecified
    | NotValidForMode
    | DuplicateAll
    | AllAfterDb
    | DuplicateDb
    | DbAfterAll
    | DatabaseAlreadyListed(name: string)
    | ConnectionStringAlreadySet
    | EmptyLocation
    | LocationAlreadySet
    | NotAnInteger(text: string)
    | FileIndexAlreadySet
    | FileIndexZero
    | DuplicateVerify
    | DuplicateLog
    | DuplicateDismount
    | RecoveryModelAlreadySet
    | NotARecoveryModel(arg: string)
    // token scanner
    | UnknownArgument(arg: string)
    | MissingValue(flag: string)
    // validation
    | NoModeSpecified
    | LocationRequired
    | SelectionRequired
    | SelectionEmpty
    | RecoveryModelRequired
    | DatabaseOrFileRequired
    | ConnectionStringRequired
    // per-database work and dispatch
    | BackupPathNotSet
    | DatabaseNotFound
    | DatabaseNotOnline(state: DbState)
    | NoMatchingBackup
    | NegativeOffsetTooBig(id: int32)
    | OffsetOverflow
    | NoBackupOfDatabase
    | FileUnreadable(path: string)
    | ServerRejected(command: Command)
    | RecoveryModeNotSet
    | NoDatabasesSpecified
    | EmptyConnectionString
    | ModeNotImplemented

  /** A value or the failure raised instead of it. */
  datatype Result<+T> = Success(value: T) | Failure(error: Error) {
    predicate IsFailure() { Failure? }
    function PropagateFailure<U>(): Result<U> requires Failure? { Failure(error) }
    function Extract(): T requires Success? { value }
  }

  /** Completion of an action without a value: it passed or it raised `error`. */
  datatype Outcome = Pass | Fail(error: Error)
}
