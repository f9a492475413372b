# MySQL backup and restore: a Dafny model

This models the core of a pair of command-line tools. They back up a MySQL
database into GPG-encrypted files, rotate old backups, and restore a backup
into a scratch database.

- `Retention` (retention.dfy) is the keep rule of `rotiraj_varnostne_kopije`. A file's
  age is `(zdaj - cas).days`. It has a daily window, a weekly window anchored on Mondays
  and a monthly window anchored on the 1st, with 30-day months. The rule also fixes the
  newest-first order of a pass.
- `Backup` (backup.dfy) is the backup run, class `VarnostnoKopiranje`:
  - the dump and encrypted file names;
  - the backup directory as an object whose entries the steps create and remove;
  - the rotation pass with its two loops;
  - the sequencing of `izvedi`.
- `Restore` (restore.dfy) is the restore run, class `ObnavljanjeBaze`:
  - the ".gpg" check and strip of `desifriraj_datoteko`;
  - the default scratch database name;
  - the sequencing and cleanup of `izvedi_obnovo`.
- `Helpers` (helpers.dfy) is pomocne_funkcije.py:
  - the `%Y%m%d_%H%M%S_%Z` stamp, with a parser proving it reads back;
  - the name of a run's log file;
  - how `zapisi_v_dnevnik` appends one entry to a JSON log file;
  - how Python binds the arguments of a call to it.
- `Text` (text.dfy) holds the Python string and path semantics the rest relies on:
  - `str.endswith`;
  - `<` on strings;
  - zero-padded decimal rendering;
  - `os.path.join`.

The model replaces everything a run cannot decide itself with a parameter:

- the clocks: the two UTC readings of a backup run as `DateTime`s, one naming the log and one stamping the dump, and the local "now" as whole seconds;
- each file's modification time, weekday and day of the month;
- the exit status of every external tool (mysqldump, gpg, mysql) as a boolean;
- every file-system refusal (listing, removal, reading or rewriting a log) as a boolean or a set of names.

A job's calls to the log are recorded in order in its `trace`, as a level
and an event. `Helpers.LogStore.Write` is what one such call does to the
JSON file.

## Model

| member | source | states |
|---|---|---|
| Retention.CandidateSplit | varnostno_kopiranje.py:254 | the files a pass considers are exactly the names made of some stem followed by ".gpg" |
| Retention.Keep | varnostno_kopiranje.py:268-275 | a file younger than the daily window is kept; a kept file is inside at least one of the three windows; a kept file outside the daily window is a Monday or a 1st-of-month file |
| Retention.PurgeSet | varnostno_kopiranje.py:264-279 | a completed pass removes only names the directory holds, each a ".gpg" file no younger than the daily window |
| Retention.AgeDays | varnostno_kopiranje.py:265-266 | a file's age is the whole number of days between its time and now, rounded down, so it is negative for a file dated in the future |
| Retention.AgeDaysUnique | varnostno_kopiranje.py:266 | only one whole number of days satisfies the rounding-down bounds, so the age is determined by them |
| Retention.AgeDaysMonotone | varnostno_kopiranje.py:261-266 | a later clock never gives a file a smaller age |
| Retention.FutureFileKept | varnostno_kopiranje.py:266-271 | a file dated after now has age -1 or less and is kept whenever the daily window is not negative |
| Retention.WindowBoundsAreStrict | varnostno_kopiranje.py:270-275 | a file whose age equals a window's length is outside that window (all three comparisons are strict) |
| Retention.NonPositiveWindowsRetainNothing | varnostno_kopiranje.py:270-275 | a window of zero or fewer days retains no file of non-negative age |
| Retention.KeepOnlyShrinks | varnostno_kopiranje.py:264-275 | a file that is not kept at some time is not kept at any later time |
| Retention.PurgeSetGrows | varnostno_kopiranje.py:264-279 | a pass run later purges at least every file an earlier pass would purge |
| Retention.KeepMonotoneInWindows | varnostno_kopiranje.py:270-275 | widening any of the three windows keeps every file the narrower configuration keeps |
| Retention.PurgeIsPerFile | varnostno_kopiranje.py:264-279 | whether a file is purged depends only on its own name and times, not on the other files |
| Retention.SecondPassPurgesNothing | varnostno_kopiranje.py:264-279 | once a pass has removed its purge set, a second pass at the same time finds nothing more to remove |
| Retention.NewBackupSurvives | varnostno_kopiranje.py:264-275 | a backup less than a day old has age 0, so it survives exactly when the daily window is positive, or the weekly window is positive and it is a Monday file, or the monthly window is positive and it is a 1st-of-month file |
| Retention.InsertNewestFirst | varnostno_kopiranje.py:259 | inserting a file into a newest-first list gives a newest-first list with the same files plus the new one |
| Retention.SortNewestFirst | varnostno_kopiranje.py:259 | sorting by modification time in reverse gives a newest-first list that is a permutation of the listing |
| Backup.DumpName | varnostno_kopiranje.py:62-70 | the dump is named `{ime_baze}_backup_{stamp}.sql`; it ends in ".sql", so rotation never treats it as a candidate |
| Backup.DumpNameOrder | varnostno_kopiranje.py:70 | dumps of one database taken at times with four-digit years sort by name in the order they were taken |
| Backup.EncryptedName | varnostno_kopiranje.py:109 | the encrypted copy is the dump's name plus ".gpg": a rotation candidate whose name starts with the dump's name |
| Backup.AfterBackupOverwrite | varnostno_kopiranje.py:109-127 | once the plain dump is removed, it makes no difference whether a file of the dump's name existed before the dump |
| Backup.WriteThenRemove | varnostno_kopiranje.py:118-127 | writing the encrypted copy and then removing the plain dump leaves the directory as before, minus the dump, plus the encrypted copy |
| Backup.EncryptedPath | varnostno_kopiranje.py:71-109 | the path returned for the encrypted copy is the backup directory joined with the encrypted name |
| Backup.Directory.ListCandidates | varnostno_kopiranje.py:252-257 | the listing holds each ".gpg" entry of the directory once, with its times, and nothing else |
| Backup.Directory.Create | varnostno_kopiranje.py:88 | `open(path, 'w')` creates the entry or truncates it to the new times, and leaves every other entry alone |
| Backup.Directory.Remove | varnostno_kopiranje.py:278 | removal succeeds exactly when the entry exists and is not refused, and then only that entry goes |
| Backup.ListedDistinct | varnostno_kopiranje.py:253-257 | a listing of directory entries names no file twice |
| Backup.SortKeepsListing | varnostno_kopiranje.py:259 | sorting the listing keeps it a listing of the same directory, now newest first |
| Backup.StoppedAtFailure | varnostno_kopiranje.py:264-287 | a pass stopped at a file that could not be removed removed only purgeable files, none older than that file, and every purgeable file newer than it |
| Backup.CompletedPass | varnostno_kopiranje.py:264-279 | a pass that visited every listed file removed exactly the purge set |
| Backup.BackupJob.RemoveUnkept | varnostno_kopiranje.py:262-279 | when no removal fails: the directory loses exactly the purge set and the count is its size; when one fails: the pass stops there (`StoppedAt`) |
| Backup.BackupJob.Rotate | varnostno_kopiranje.py:244-287 | logs the start; a failed listing changes nothing and logs an error; a pass with no refused removal deletes exactly the purge set and logs its size; otherwise the pass stops at a refused purgeable file and logs its full path as the error, with no summary |
| Backup.BackupJob.CheckTools | varnostno_kopiranje.py:48-58 | succeeds exactly when no tool is missing, and otherwise logs the missing tools as an error |
| Backup.BackupJob.CreateDump | varnostno_kopiranje.py:60-104 | the start is logged before the file is opened; a file that cannot be opened is not created; an opened file is created before mysqldump runs, so it stays behind when mysqldump fails; either failure is logged at level "napaka" and returns no path; the name's stamp comes from the clock read by this step |
| Backup.BackupJob.Encrypt | varnostno_kopiranje.py:106-139 | returns `{path}.gpg` exactly when gpg and the removal of the plain dump both succeed; gpg failing leaves the directory as it was, and a failed removal leaves both files |
| Backup.FirstFailureStops | varnostno_kopiranje.py:301-311 | the first failing step ends the preparation: missing tools leave the directory as it was and log only the missing tools; a failed dump logs the failure and no encryption; no step removes an existing file other than the dump's own name; after a failure the only new rotation candidate is the encrypted copy of a dump whose plain file could not be removed; success replaces the dump by its encrypted copy and logs it |
| Backup.BackupJob.Prepare | varnostno_kopiranje.py:301-311 | succeeds exactly when the tools are there and the dump and its encryption succeed; the directory and the log afterwards are those of the steps up to and including the first failure (`Staged`, `PrepareLog`): a missing tool stops before the dump, a failed dump before the encryption |
| Backup.BackupJob.RotateAndClose | varnostno_kopiranje.py:317-326 | the directory afterwards is the rotation outcome (`Rotated`: unchanged after a failed listing, minus the purge set after a full pass, stopped at the refused file otherwise), and the log gains exactly the two rotation lines (`RotationLog`: the start, then the failure or the number removed) followed by the closing separator, message and separator |
| Backup.BackupJob.Run | varnostno_kopiranje.py:289-328 | opens the log named after the first UTC reading; returns true exactly when the tools, the dump and the encryption succeed, whatever distribution reports; on failure the directory and the log are exactly those of the steps up to the first failure after the opening lines, so nothing is rotated; on success the directory is the rotation outcome on the new backup, and the log is the opening lines, the preparation lines, the two rotation lines and the closing lines; after a listed pass with no refused removal the directory is the new backup minus the purge set |
| Helpers.Compact | pomocne_funkcije.py:16 | `%Y%m%d_%H%M%S` of a time with a four-digit year is eight digits, an underscore and six digits |
| Helpers.Stamp | pomocne_funkcije.py:61-63 | the UTC stamp ends in "_UTC" and, for four-digit years, has the fixed 19-character shape |
| Helpers.ParseStamp | pomocne_funkcije.py:61-63 | reading a stamp gives a valid time with a four-digit year, or nothing |
| Helpers.StampRoundTrip | pomocne_funkcije.py:61-63 | reading a stamp back gives the time it was made from |
| Helpers.CompactOrder | pomocne_funkcije.py:16 | compact times with four-digit years, followed by the same text, compare as strings exactly as the times compare |
| Helpers.StampOrder | pomocne_funkcije.py:61-63 | stamps of times with four-digit years sort as strings in time order |
| Helpers.LogBaseName | pomocne_funkcije.py:16-17 | the log file is named `dnevnik_{time}.json` |
| Helpers.LogFileName | pomocne_funkcije.py:11-19 | the log path ends in ".json" and is the log directory, a separator and the name when the directory does not already end in one |
| Helpers.LogFileOrder | pomocne_funkcije.py:11-19 | the log files of one directory sort by name in the order their runs started |
| Helpers.Truthy | pomocne_funkcije.py:29 | Python truthiness of an optional string: present and not empty. It is a definition, used by `IsEntry` for the extra data and by `Restore.TestDbName` for the given name |
| Helpers.BindLogArgs | pomocne_funkcije.py:22 | a call of the log function binds exactly when it passes two to four arguments: the file and the message, with the level defaulting to "INFO" |
| Helpers.LogStore.Write | pomocne_funkcije.py:22-47 | the write succeeds exactly when the file is new or readable and can be rewritten; it then appends one entry with time, level and message, plus extra data only when that is truthy, keeping the earlier entries and the other files; a failure changes nothing |
| Text.EndsWithSplit | varnostno_kopiranje.py:254 | `s.endswith(suffix)` holds exactly when `s` is some string followed by `suffix` |
| Text.LexLess | varnostno_kopiranje.py:70 | Python's `<` on the names: only a non-empty string is above another, and a proper prefix is below the string it starts |
| Text.LexLessAsymmetric | varnostno_kopiranje.py:70 | of two names, at most one is below the other |
| Text.PathJoin | varnostno_kopiranje.py:71 | a join ends with the joined name, and puts exactly one separator between a directory without a trailing "/" and a relative name |
| Text.JoinThenAppend | varnostno_kopiranje.py:109 | appending ".gpg" to a joined path is the same as joining the name with ".gpg" appended |
| Restore.DecryptedPath | obnova.py:29-33 | a path ending in ".gpg" gives the path without those four characters, and nothing else gives a path |
| Restore.DecryptedPathInvertsEncryptedName | obnova.py:33 | stripping the encrypted name of a dump gives back the dump's name (a round trip with varnostno_kopiranje.py:109) |
| Restore.TestDbName | obnova.py:65-66 | the scratch database is the given name when that is truthy, and `{ime_baze}_test` otherwise; it is never empty |
| Restore.RestoreJob.Decrypt | obnova.py:27-59 | a name without ".gpg" is refused without logging; otherwise the attempt is logged, and on success the plain file exists beside the encrypted one and its path is returned; a gpg failure is logged as an error |
| Restore.RestoreJob.RestoreDb | obnova.py:61-110 | succeeds exactly when both creating the database and the import succeed, and logs the database name before and the outcome after |
| Restore.RestoreJob.RunAsWritten | obnova.py:112-117 | as written, every restore raises TypeError at its first log call, before anything is decrypted |
| Restore.RestoreJob.RemovePlainAndClose | obnova.py:127-136 | a plain file still present is removed and the removal logged, then the closing lines are logged; a refused removal raises with nothing more logged; an absent file is left alone |
| Restore.RestoreJob.Run | obnova.py:112-138 | with the separator lines logged as messages, the log and the files on every path: a name without ".gpg" logs only the opening lines; a failed decryption logs the attempt and the error; an empty decrypted path returns false after decrypting; otherwise the restore runs and logs its two lines, then the plain file is removed whether or not the restore succeeded, the removal and the closing lines are logged, and the restore's result is returned; a failing removal raises with the file left and nothing more logged |

## Left out

- Loading the YAML configuration and validating it against the JSON schema is not modelled. A run starts from typed settings, and missing keys are not modelled.
- External tools are reduced to one boolean exit status each: `preveri_orodja` (`which` via `os.system`), mysqldump, gpg and mysql. Their arguments, their stderr text and the dump contents are not modelled.
- Email, SFTP and S3 distribution are results that `izvedi` ignores: they appear only as inputs. Their messages and network behaviour are not modelled.
- `velikost_datoteke_berljivo` is not modelled, nor the size text in the log messages. `Backup.BackupJob.CreateDump` and `Backup.BackupJob.Encrypt` treat a failure in it as impossible.
- `Backup.BackupJob.CreateDump`: a file that opens but cannot be written is folded into `dumpOk`.
- `Backup.BackupJob.Encrypt`: a failed gpg run is assumed to leave no partial output file behind.
- Log messages are events rather than the Slovenian text. Decrypting logs the full path, not its base name, and printing to standard output is left out.
- Calendar arithmetic is not modelled:
  - the weekday and day of the month of a file's local time are inputs;
  - so is the local "now" in whole seconds;
  - time zones and daylight-saving shifts are not modelled.
- `Retention.AgeDays`: the clock and the modification times are whole seconds, not the microseconds Python keeps. `timedelta.days` floors the exact difference, so dropping the fractions can shift an age by one day when the two times are within a second of a whole number of days apart: now = 86400.2 and mtime = 0.6 give age 0 in Python and 1 in the model.
- `Helpers.Compact`: the year is rendered as glibc's `%Y` does, without padding. The length, shape, round-trip and order properties are stated only for four-digit years.
- `os.makedirs` of missing backup and log directories is not modelled.
- `Helpers.LogStore.Write`: a log file that does not hold a JSON list is folded into `readOk`. The time text is an input. A file truncated by a write that then fails is not modelled.
- `Retention.SortNewestFirst`: the sort is proved ordered and a permutation. That it is stable is not stated.
- `Backup.BackupJob.Rotate`: the first failed removal ends the pass; later files are not visited and no summary is logged. Removal failures are not isolated per file.
- `Backup.BackupJob.Rotate`: a failure to read a file's modification time is folded into `listOk`.
- `Restore.RestoreJob.Decrypt`: a failed gpg run is assumed to leave no plain file behind. Whether gpg overwrites an existing output file is not modelled.
- The command-line entry points (`main` of both tools) are not modelled: they read `sys.argv` and exit.

## Findings

| source | as written | input that shows it | evidently intended | confidence | as-written member | corrected member |
|---|---|---|---|---|---|---|
| obnova.py:117 | `zapisi_v_dnevnik(self.ime_dnevnika)` passes one argument; the message parameter has no default (pomocne_funkcije.py:22), so Python raises TypeError. The same call appears at lines 120, 133 and 136. | any backup path, e.g. `db_backup_20240101_000000_UTC.sql.gpg`: the run raises before decryption | a separator line logged as a message, as `izvedi` does at varnostno_kopiranje.py:294-299 | high, not executed | Restore.RestoreJob.RunAsWritten | Restore.RestoreJob.Run |
