# SqlBackup decision logic in Dafny

SqlBackup is a command-line front end for SQL Server backup and restore. It
works in five steps:

1. It reads a mode (`/BACKUP`, `/RESTORE`, `/MODE`, `/INFO`, …) and a set of
   switches into a `ParsedArguments` object.
2. It validates that object.
3. It resolves the database selection: `/DB` names, or `/ALL` with
   exclusions.
4. For each selected database it calls the database service inside its own
   failure boundary.
5. It exits with the number of databases that failed.

This project models those decisions and proves what they promise. The server is
an abstract value: its catalog, the info it reports per database, the backup
sets each file's header lists, its backup history, and which commands it
accepts. Every failure the tool raises is a named `Error`. A server call
returns the commands it sent and how it ended.

Modules:

- `Types`: the enums, the `BackupInfo` and `DbInfo` records, commands, errors,
  and `Result`/`Outcome`.
- `Text`: invariant upper-casing, case-insensitive comparison,
  `char.IsWhiteSpace` and `string.Trim`.
- `Numbers`: `int.TryParse` with the invariant culture.
- `Arguments`: the argument state as a value, and every setter as a function
  to the new state or the error raised.
- `ParsedArgs`: the class `ParsedArguments`. Its fields are updated in place,
  and every method is proved to follow the matching `Arguments` function.
- `ArgumentParser`:
  - the token scanner as a function (`Scan`);
  - the imperative `Parse` loop, proved equal to `Scan`;
  - a reference tokenisation (`Lex`) that states which words become database
    names.
- `DbService`:
  - backup-id resolution and restore batch assembly;
  - the latest-backup restore;
  - backup, recovery model, offline, online and history purge;
  - the name filter and the backup file name.
- `Program`:
  - `GetDbList` and `GetBackupFile`;
  - the per-database loops;
  - the backup-information sources;
  - dispatch and the exit code.

## Model

| member | source | states |
|---|---|---|
| Arguments.EnsureModeSet | SqlBackup/ParsedArguments.cs:306-312 | passes exactly when a mode has been chosen |
| Arguments.EnsureModeIn | SqlBackup/ParsedArguments.cs:314-321 | passes exactly when a mode is chosen and it is in the given set; an unset mode fails as "mode not specified" first |
| Arguments.LegalModes | SqlBackup/ParsedArguments.cs:10-25 | the legal-mode set of each field: the database modes, the location modes, Restore for /ID and /DISMOUNT, Backup for /VERIFY, ChangeMode for the recovery model, and Backup and Restore for /LOG (corrected, see Findings) |
| Arguments.ModeToken | SqlBackup/ParsedArguments.cs:197-211 | the eleven mode keywords map, ignoring case, to their modes, never to the two internal placeholders |
| Arguments.ModeTokenIgnoresCase | SqlBackup/ParsedArguments.cs:182-211 | tokens equal ignoring case select the same mode and the same recovery model |
| Arguments.SetMode | SqlBackup/ParsedArguments.cs:191-212 | succeeds exactly when no mode is set and the token is a mode keyword, and then sets only the mode |
| Arguments.SetUseAllDb | SqlBackup/ParsedArguments.cs:54-67 | /ALL succeeds exactly in a database mode with the selection unset, and sets it to "all" |
| Arguments.ClearUseAllDb | SqlBackup/ParsedArguments.cs:69-82 | /DB succeeds exactly in a database mode with the selection unset, and sets it to "only these" |
| Arguments.SelectionIsTriState | SqlBackup/ParsedArguments.cs:54-82 | once the selection is set, both /ALL and /DB fail, each with the duplicate or the conflict error as appropriate |
| Arguments.AddDb | SqlBackup/ParsedArguments.cs:84-92 | appends at the end exactly when no listed name is equal ignoring case; keeps the list free of duplicates that differ only in case |
| Arguments.SetConnectionString | SqlBackup/ParsedArguments.cs:94-109 | write-once in any chosen mode; stores the alias-resolved string |
| Arguments.AliasResolutionIsStable | SqlBackup/ParsedArguments.cs:27-31 | LOCAL in any case gives the local descriptor; a string that is neither alias is kept verbatim; resolving twice changes nothing |
| Arguments.SetLocation | SqlBackup/ParsedArguments.cs:111-124 | an empty location fails before the mode check; otherwise the location and its kind are set once, in the location modes |
| Arguments.SetFileIndex | SqlBackup/ParsedArguments.cs:126-142 | in Restore, a non-integer fails; then an already-set index fails; then zero fails; on success the index is the parsed non-zero value |
| Arguments.SetVerify | SqlBackup/ParsedArguments.cs:144-152 | succeeds exactly once, in Backup |
| Arguments.SetLogBackup | SqlBackup/ParsedArguments.cs:154-162 | the corrected /LOG: succeeds exactly once, in Backup or Restore |
| Arguments.SetLogBackupAsWritten | SqlBackup/ParsedArguments.cs:154-162 | /LOG as written: succeeds exactly once, in Backup only |
| Arguments.LogRejectedInRestoreAsWritten | SqlBackup/ParsedArguments.cs:154-162 | in Restore mode the as-written setter fails with "not valid for mode", while the corrected one sets the flag |
| Arguments.SetDismount | SqlBackup/ParsedArguments.cs:164-172 | succeeds exactly once, in Restore |
| Arguments.SetRecoveryModel | SqlBackup/ParsedArguments.cs:174-189 | succeeds exactly once, in ChangeMode, with /FULL, /BULK or /SIMPLE in any case |
| Arguments.GuardedByMode | SqlBackup/ParsedArguments.cs:306-321 | every setter fails outside its legal modes; with no mode set, it fails with "mode not specified" |
| Arguments.NoMutationTwice | SqlBackup/ParsedArguments.cs:54-189 | repeating any successful setter call fails: every field is write-once and a repeated name is a duplicate |
| Arguments.ApplyKeepsModeAndList | SqlBackup/ParsedArguments.cs:54-189 | no setter but `SetMode` changes the mode, and only `AddDb` changes the list, by appending its name |
| Arguments.ApplyKeepsConsistent | SqlBackup/ParsedArguments.cs:54-189 | every successful setter keeps the invariant: no duplicate names; each field set only in a mode that allows it |
| Arguments.RequirePath | SqlBackup/ParsedArguments.cs:278-284 | passes exactly when the location is present and not blank |
| Arguments.RequireDb | SqlBackup/ParsedArguments.cs:286-296 | passes exactly when the selection is resolvable: it is set, and /DB lists a name |
| Arguments.RequireDbOrPath | SqlBackup/ParsedArguments.cs:259-276 | passes when either check passes; otherwise fails with the combined error |
| Arguments.RequireConnstr | SqlBackup/ParsedArguments.cs:298-304 | passes exactly when a connection string is set |
| Arguments.Validate | SqlBackup/ParsedArguments.cs:214-257 | passes exactly when the per-mode requirements hold (`Complete`); an unset mode fails first |
| ParsedArgs.ParsedArguments.constructor | SqlBackup/ParsedArguments.cs:32-52 | the fresh object holds the initial state |
| ParsedArgs.ParsedArguments.EnsureMode | SqlBackup/ParsedArguments.cs:306-312 | same outcome as `Arguments.EnsureModeSet` on the fields |
| ParsedArgs.ParsedArguments.EnsureModeIn | SqlBackup/ParsedArguments.cs:314-321 | same outcome as `Arguments.EnsureModeIn` on the fields |
| ParsedArgs.ParsedArguments.SetMode | SqlBackup/ParsedArguments.cs:191-212 | updates the fields to `Arguments.SetMode`'s state, or raises its error and changes nothing |
| ParsedArgs.ParsedArguments.SetUseAllDb | SqlBackup/ParsedArguments.cs:54-67 | follows `Arguments.SetUseAllDb` in the same way |
| ParsedArgs.ParsedArguments.ClearUseAllDb | SqlBackup/ParsedArguments.cs:69-82 | follows `Arguments.ClearUseAllDb` |
| ParsedArgs.ParsedArguments.AddDb | SqlBackup/ParsedArguments.cs:84-92 | follows `Arguments.AddDb`; the in-place list stays free of duplicates that differ only in case |
| ParsedArgs.ParsedArguments.SetConnectionString | SqlBackup/ParsedArguments.cs:94-109 | follows `Arguments.SetConnectionString` |
| ParsedArgs.ParsedArguments.SetLocation | SqlBackup/ParsedArguments.cs:111-124 | follows `Arguments.SetLocation` |
| ParsedArgs.ParsedArguments.SetFileIndex | SqlBackup/ParsedArguments.cs:126-142 | follows `Arguments.SetFileIndex` |
| ParsedArgs.ParsedArguments.SetVerify | SqlBackup/ParsedArguments.cs:144-152 | follows `Arguments.SetVerify` |
| ParsedArgs.ParsedArguments.SetLogBackup | SqlBackup/ParsedArguments.cs:154-162 | follows the corrected `Arguments.SetLogBackup` |
| ParsedArgs.ParsedArguments.SetDismount | SqlBackup/ParsedArguments.cs:164-172 | follows `Arguments.SetDismount` |
| ParsedArgs.ParsedArguments.SetRecoveryModel | SqlBackup/ParsedArguments.cs:174-189 | follows `Arguments.SetRecoveryModel` |
| ParsedArgs.ParsedArguments.RequirePath | SqlBackup/ParsedArguments.cs:278-284 | passes exactly when the stored location is present and not blank |
| ParsedArgs.ParsedArguments.RequireDb | SqlBackup/ParsedArguments.cs:286-296 | passes exactly when the stored selection is resolvable |
| ParsedArgs.ParsedArguments.RequireDbOrPath | SqlBackup/ParsedArguments.cs:259-276 | passes exactly when the selection is resolvable or the location is present |
| ParsedArgs.ParsedArguments.RequireConnstr | SqlBackup/ParsedArguments.cs:298-304 | passes exactly when a connection string is stored |
| ParsedArgs.ParsedArguments.Validate | SqlBackup/ParsedArguments.cs:214-257 | read-only; passes exactly when the stored state is `Complete` |
| Numbers.ParseFormatRoundTrip | SqlBackup/ParsedArguments.cs:129 | every 32-bit integer, printed, parses back to itself |
| Numbers.ParseIgnoresPadding | SqlBackup/ParsedArguments.cs:129 | any run of number white space before and any run after the text leave the parse unchanged |
| Numbers.ParseRejectsNonDigits | SqlBackup/ParsedArguments.cs:129 | text without a decimal digit is never an integer |
| Text.TrimDropsOnlyWhiteSpace | SqlBackup/ArgumentParser.cs:17 | the trimmed token is the original less a blank prefix and a blank suffix |
| Text.TrimEnds | SqlBackup/ArgumentParser.cs:17 | a trimmed token neither starts nor ends with white space |
| Text.LookupIgnoresCase | SqlBackup/ArgumentParser.cs:22 | keyword tables answer the same for tokens equal ignoring case |
| ArgumentParser.Decide | SqlBackup/ArgumentParser.cs:17-67 | one token either raises an error or calls one setter other than `SetMode`, consuming one token or, for a value switch, two that exist (which setter, with which value: `ArgumentParser.DecideIsTokenMutation`) |
| ArgumentParser.DecideIsTokenMutation | SqlBackup/ArgumentParser.cs:22-67 | the setter a step calls is the one its reference token stands for: /DB `ClearUseAllDb`, /ALL `SetUseAllDb`, /LOG, /VERIFY and /DISMOUNT their flag setters, /FULL, /BULK and /SIMPLE `SetRecoveryModel` with the token, /C, /DIR, /FILE and /ID their setters with the raw next token, and a bare word `AddDb` |
| ArgumentParser.ClassifiedStartsWithSlash | SqlBackup/ArgumentParser.cs:18-57 | every recognised switch starts with `/`, so a recognised switch always closes the database list |
| ArgumentParser.EmptyArgumentsMeanHelp | SqlBackup/ArgumentParser.cs:8-12 | no tokens give Help mode with nothing else set, and no error |
| ArgumentParser.UnknownModeFails | SqlBackup/ArgumentParser.cs:13 | an unrecognised first token fails the parse with "not a valid mode" |
| ArgumentParser.ParseSetsFields | SqlBackup/ArgumentParser.cs:13-70 | after a successful parse each field comes from the first switch naming it and is unset when none does: the selection from /DB or /ALL; the connection string from /C, alias-resolved; the location, verbatim, and the directory flag from /DIR or /FILE; the index from /ID, non-zero and equal to its token's parse; the /VERIFY, /LOG and /DISMOUNT flags exactly when the switch appears; the recovery model named by /FULL, /BULK or /SIMPLE |
| ArgumentParser.ScanFromBuilds | SqlBackup/ArgumentParser.cs:15-69 | a successful scan holds the state the reference tokens' setters build, one after the other |
| ArgumentParser.TokenStep | SqlBackup/ArgumentParser.cs:22-57 | one token's setter changes only its own field, and only when that field was unset (or the flag off) beforehand |
| ArgumentParser.BuiltSelection | SqlBackup/ParsedArguments.cs:54-82 | the first /DB or /ALL fixes the selection, and once it is set no other may follow |
| ArgumentParser.BuiltConnection | SqlBackup/ParsedArguments.cs:94-109 | the first /C stores its alias-resolved value, and once it is set no other may follow |
| ArgumentParser.BuiltLocation | SqlBackup/ParsedArguments.cs:111-124 | the first /DIR or /FILE stores its location verbatim and the directory flag, and once it is set no other may follow |
| ArgumentParser.BuiltFileIndex | SqlBackup/ParsedArguments.cs:126-142 | the first /ID stores the non-zero integer its token parses to, and once it is set no other may follow |
| ArgumentParser.BuiltFlags | SqlBackup/ParsedArguments.cs:144-172 | /VERIFY, /LOG and /DISMOUNT turn their flags on exactly when they appear, each at most once |
| ArgumentParser.BuiltRecovery | SqlBackup/ParsedArguments.cs:174-189 | the first recovery switch stores the model it names, and once it is set no other may follow |
| ArgumentParser.ParseShape | SqlBackup/ArgumentParser.cs:13-70 | a successful parse has: the first token's mode; a state that passed validation and is consistent; names equal to the bare words, trimmed, in input order; each name placed right after /DB, /ALL or another name and not starting with `/`; no value switch at the end (each other field: `ArgumentParser.ParseSetsFields`) |
| ArgumentParser.ParseBuilds | SqlBackup/ArgumentParser.cs:13-69 | a successful parse holds the state that the first token's mode and then the setters of the remaining tokens build |
| ArgumentParser.MalformedTokenFails | SqlBackup/ArgumentParser.cs:43-66 | a value switch with no following token, or an unknown `/…` token, fails the parse |
| ArgumentParser.ScanFromNames | SqlBackup/ArgumentParser.cs:24-61 | scanning from any point appends exactly the bare words to the list and keeps the mode |
| ArgumentParser.ScanFromConsistent | SqlBackup/ArgumentParser.cs:15-69 | the scan loop keeps the argument-state invariant |
| ArgumentParser.ScanToken | SqlBackup/ArgumentParser.cs:17-67 | one round of the loop on the object: the error `Decide` names with nothing changed, or the setter's new state, the next index and the new list context |
| ArgumentParser.ScanTokens | SqlBackup/ArgumentParser.cs:14-69 | the `for` loop leaves the object in the state `ScanFrom` computes, or raises its error |
| ArgumentParser.Parse | SqlBackup/ArgumentParser.cs:5-72 | returns a fresh object holding `Scan`'s state, or `Scan`'s error |
| DbService.ReadHeaders | SqlBackup/DbService.cs:349-383 | the file's backup sets, or "unreadable file" |
| DbService.FilterByName | SqlBackup/DbService.cs:385-390 | keeps exactly the records whose database name equals the name ignoring case |
| DbService.FilterByNameDistributes | SqlBackup/DbService.cs:385-390 | filtering commutes with joining record lists, so the original order is kept |
| DbService.FilterByNameIdempotent | SqlBackup/DbService.cs:385-390 | filtering twice by one name is filtering once |
| DbService.BackupInfoFromFile | SqlBackup/DbService.cs:385-390 | fails exactly when the file is unreadable; otherwise the file's records of that database |
| DbService.OfType | SqlBackup/DbService.cs:206 | keeps exactly the records of the requested backup type |
| DbService.SortByFileIdDesc | SqlBackup/DbService.cs:207 | a permutation of its input, ordered by descending id |
| DbService.InsertKeepsDescending | SqlBackup/DbService.cs:207 | inserting into a descending list keeps it descending |
| DbService.SortCounts | SqlBackup/DbService.cs:207 | sorting keeps the number of records above and at or above any id |
| DbService.DescendingRank | SqlBackup/DbService.cs:221 | in a descending list, index k has at most k larger ids and at least k+1 ids at least as large |
| DbService.RestoreCandidatesAsWritten | SqlBackup/DbService.cs:205-208 | as written: every record of the requested type, of any database, newest id first |
| DbService.RestoreCandidates | SqlBackup/DbService.cs:205-212 | corrected: exactly the records of the requested type and database, newest id first |
| DbService.CandidatesMixDatabasesAsWritten | SqlBackup/DbService.cs:205-208 | for a file with database A's set 1 and database B's set 2, restoring A's latest resolves to 2 as written and to 1 when corrected |
| DbService.ResolveBackupId | SqlBackup/DbService.cs:209-225 | no candidate fails whatever the id; a positive id passes through; 0 and -1 give the first candidate; -n gives candidate n-1; fails exactly past the candidates or at the 32-bit minimum |
| DbService.LatestIsNewest | SqlBackup/DbService.cs:213-218 | id 0 or -1 resolves to the largest id among the matching records, and that id exists among them |
| DbService.OffsetSelectsNthNewest | SqlBackup/DbService.cs:219-224 | id -n resolves to the n-th largest matching id: fewer than n records are above it, and at least n are at or above it |
| DbService.ResolveId | SqlBackup/DbService.cs:209-225 | the step-by-step reassignment of `backupId` computes `ResolveBackupId` |
| DbService.AssembleStatements | SqlBackup/DbService.cs:227-260 | the list built by appends is the bracketed restore statement |
| DbService.RestoreScriptShape | SqlBackup/DbService.cs:227-261 | one restore statement of the requested type; REPLACE exactly when the database is missing; disconnect first and reconnect last exactly when it exists and is online |
| DbService.RestoreSendsAtMostOnce | SqlBackup/DbService.cs:197-265 | at most one batch is sent, exactly when the file is readable and the id resolves; the restore passes exactly when the server accepts it |
| DbService.Restore | SqlBackup/DbService.cs:197-265 | the imperative restore returns what `RestoreOutcome` specifies |
| DbService.LatestByEnd | SqlBackup/DbService.cs:192-193 | none exactly for no records; otherwise one of them whose end is not before any other's |
| DbService.LatestIsFirstOfLatest | SqlBackup/DbService.cs:192 | among equally late records, the first one is picked |
| DbService.RestoreLatest | SqlBackup/DbService.cs:189-195 | an unreadable file and a file with no set of the database fail before anything is sent |
| DbService.RestoreLatestUsesLatest | SqlBackup/DbService.cs:189-195 | the latest set of the database is restored under its own id and type |
| DbService.Backup | SqlBackup/DbService.cs:131-169 | a missing database and a database that is not online fail before sending; otherwise the typed backup is sent and the verification follows exactly when asked for and the backup passed |
| DbService.SetRecoveryMode | SqlBackup/DbService.cs:267-291 | a missing database fails; a database already in the model is left alone with nothing sent; otherwise one command with the model's keyword |
| DbService.TakeOffline | SqlBackup/DbService.cs:293-298 | one command; passes exactly when the server accepts it |
| DbService.TakeOnline | SqlBackup/DbService.cs:300-305 | one command; passes exactly when the server accepts it |
| DbService.DeleteBackupHistory | SqlBackup/DbService.cs:307-313 | one command; passes exactly when the server accepts it |
| DbService.Sanitize | SqlBackup/DbService.cs:399-402 | each character that is invalid in a file name becomes `_`; all others are kept |
| DbService.BackupFileNameShape | SqlBackup/DbService.cs:397-404 | the path is the directory, possibly a separator, then a name ending in `.db.bak` with no invalid character except `_` |
| DbService.GetBackupFileName | SqlBackup/DbService.cs:397-404 | the replacement loop computes `BackupFileName` |
| Program.ExceptSound | SqlBackup/Program.cs:59-61 | every name /ALL keeps is in the catalog and matches no excluded name |
| Program.ExceptComplete | SqlBackup/Program.cs:59-61 | every catalog name that matches no excluded name is kept, up to case |
| Program.ExceptDistinct | SqlBackup/Program.cs:59-61 | the kept names are distinct ignoring case |
| Program.ExceptAppend | SqlBackup/Program.cs:59-61 | the kept names of a joined list are those of its first part followed by those of the rest that match neither an exclusion nor a name already kept, so the order is kept and the first of names equal ignoring case wins |
| Program.DbListMeaning | SqlBackup/Program.cs:49-62 | no selection gives no database; /DB gives the listed names in order; /ALL gives the catalog less the exclusions, with no duplicates |
| Program.DbListKeepsCatalogOrder | SqlBackup/Program.cs:59-61 | with /ALL the list follows the catalog's order: a catalog's first part yields its databases first, then the rest adds those neither excluded nor already listed |
| Program.BackupFile | SqlBackup/Program.cs:64-73 | fails exactly without a location; /FILE gives the location verbatim, /DIR the per-database file name |
| Program.GetBackupFile | SqlBackup/Program.cs:64-73 | computes `BackupFile` with the replacement loop |
| Program.DirectoryFilesLieInDirectory | SqlBackup/Program.cs:70-71 | with /DIR each backup file starts with the directory and ends in `.db.bak` |
| Program.FailuresCount | SqlBackup/Program.cs:106-125 | a loop's failure count is at most the number of databases, and zero exactly when every round passed |
| Program.OneCommandPerTarget | SqlBackup/Program.cs:106-167 | /OFFLINE, /ONLINE and /PURGE send one command per selected database, in order, whatever earlier rounds did |
| Program.Perform | SqlBackup/Program.cs:262-300 | a round's body, including the backup file and the imperative restore, computes `Act` |
| Program.RunBatch | SqlBackup/Program.cs:106-125 | the `foreach` sends every round's commands in order and returns the number of failed rounds |
| Program.ModeWithoutModelTouchesNothing | SqlBackup/Program.cs:84-87 | /MODE without a recovery model raises before any database is touched |
| Program.BackupInfoListing | SqlBackup/Program.cs:203-238 | the records of the selected databases' files, of the whole file, or of the server history; neither a location nor a database fails |
| Program.FileInfoBelongsToNames | SqlBackup/Program.cs:209-214 | what is read from the files of named databases belongs to those databases |
| Program.ListingErrors | SqlBackup/Program.cs:203-238 | the listing fails only on an unreadable file, or with neither a location nor a database |
| Program.BackupInfoSources | SqlBackup/Program.cs:207-255 | a location with no database lists the whole file unfiltered; nothing at all fails; otherwise exit 0 |
| Program.ReadFiles | SqlBackup/Program.cs:211-214 | the `AddRange` loop over the files computes `InfoFromFiles` |
| Program.ReadHistory | SqlBackup/Program.cs:225-228 | the `AddRange` loop over the server history computes `InfoFromServer` |
| Program.DoBackupInfo | SqlBackup/Program.cs:203-238 | computes `BackupInfoListing` |
| Program.Handle | SqlBackup/Program.cs:9-20 | the mode table's handler computes `Dispatch` |
| Program.RunProgram | SqlBackup/Program.cs:22-47 | parsing and dispatch compute `ProgramRun` |
| Program.ParseFailureExitsOne | SqlBackup/Program.cs:25-34 | a command line that fails to parse or validate exits with 1 and sends nothing |
| Program.NoArgumentsShowHelp | SqlBackup/Program.cs:35-39 | an empty command line exits with 0 and sends nothing |
| Program.LoopExitCode | SqlBackup/Program.cs:41-45 | a looping mode exits with its failure count, between 0 and the number of databases, and 0 exactly when every database passed |
| Program.DispatchHandles | SqlBackup/Program.cs:41-46 | of the validated modes, only /INFO can raise, and only with its listing's failure |
| Program.UnhandledOnlyFrom | SqlBackup/Program.cs:22-47 | a command line that parses raises only for an empty connection string, an unreadable file, or an /INFO with neither location nor database, so the "not implemented" branch is unreachable |

## Left out

- SQL text, connections and data-reader decoding are not modelled:
  - the server is the `Server` value;
  - a command is a datatype, not its SQL;
  - `GetDatabases`, `GetDatabaseInfo`, the row loops of the two `GetBackupInfo*` readers and `Verify` are its fields or its `accepts` answer;
  - the dictionary lookups that decode backup types and recovery models from rows are not modelled.
- The console is not modelled: the help text, the progress and error messages, the printed listings of `/LIST`, `/DBINFO` and `/INFO`, `FormatSize` (floating point) and the `Stopwatch` timings.
- Exception types and message texts are not modelled. Each failure is an `Error` kind. An exception escaping `Main` is `Unhandled`.
- Case folding is ASCII-only: invariant-culture upper-casing of non-ASCII letters is not modelled.
- `Path.GetInvalidFileNameChars` and `Path.Combine` are abstract:
  - the invalid characters and the separator are a `Platform` parameter;
  - the join adds a separator unless the directory is empty or already ends with one;
  - rooted file names and other `Path.Combine` special cases are not modelled.
- The descriptors behind the LOCAL and EXPRESS aliases are two fixed strings.
- `int.TryParse` accepts only ASCII white space, an optional sign and decimal digits. Other culture-dependent forms are not modelled.
- Timestamps are integers. Sizes are unbounded integers.
- `BackupSystem` and `RestoreSystem` are not modelled: they are unused wrappers over fixed names.
- `Dispose` and `using` scoping are not modelled.
- `Enum.IsDefined` in `SetRecoveryMode` and the "invalid backup type" branches of `Backup` and `Restore` are not modelled: the datatypes hold only the defined values.
- Program.RunBatch: the failure counter is an unbounded integer. The source's 32-bit `ret` cannot overflow for fewer than 2^31 databases.
- `DbInfo` output and the "no history" message of `/INFO` are not modelled. Only whether the info exists, and the records listed, are.
- `/DISMOUNT` is parsed and stored, but nothing in the program reads it.
- The code and the written description differ on exit codes, and the model follows the code:
  - a batch with exactly one failed database also exits with 1, the same code as a parse or validation failure (`Program.LoopExitCode`, `Program.ParseFailureExitsOne`);
  - an empty `/C ""` passes validation, after which `Main` raises (`Unhandled(EmptyConnectionString)`);
  - the `/INFO` failures escape `Main` rather than giving an exit code.

## Findings

| source | as written | input that shows it | evidently intended | confidence | as-written member | corrected member |
|---|---|---|---|---|---|---|
| SqlBackup/ParsedArguments.cs:154-162 | `SetLogBackup` accepts /LOG in Backup mode only. | `/RESTORE /C x /FILE f.bak /DB a /LOG` fails with "not valid for mode". | /LOG is also accepted in Restore mode. The help text lists /LOG under /RESTORE (Program.cs:447-468), and `DoRestore` reads the flag to choose a log restore (Program.cs:292). | not executed; high | Arguments.SetLogBackupAsWritten, Arguments.LogRejectedInRestoreAsWritten | Arguments.SetLogBackup |
| SqlBackup/DbService.cs:205-208 | Restore candidates are filtered by backup type only, not by database name. | A file holds database A's full backup as set 1 and database B's as set 2. Restoring A with id 0 or -1 resolves to set 2, B's backup. | Only the database's own sets are candidates. The failure message speaks of a backup that "matches database". | not executed; high | DbService.RestoreCandidatesAsWritten, DbService.CandidatesMixDatabasesAsWritten | DbService.RestoreCandidates |

The rest of the model uses the corrected members:

- the argument class, the parser and the program accept /LOG in Restore mode;
- `DbService.Restore` selects only the database's own backup sets.
