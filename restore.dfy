/**
 * The restore run (class `ObnavljanjeBaze` in obnova.py): decrypt one
 * backup next to itself, load it into a scratch database, and remove the
 * decrypted plain file again.
 */
module Restore {
  import opened Wrappers
  import opened Text
  import opened Helpers
  import Backup

  /** `desifriraj_datoteko`'s output path: the input without its ".gpg"; None for any other name. */
  function DecryptedPath(p: string): (r: Option<string>)
    ensures r.Some? <==> EndsWith(p, ".gpg")
    ensures r.Some? ==> r.value + ".gpg" == p
    ensures r.Some? ==> |r.value| + 4 == |p| && r.value == p[..|r.value|]
  {
    if EndsWith(p, ".gpg") then Some(p[..|p| - 4]) else None
  }

  /** Decrypting undoes the naming of encryption: the encrypted name of `p` strips back to `p`. */
  lemma DecryptedPathInvertsEncryptedName(p: string)
    ensures DecryptedPath(Backup.EncryptedName(p)) == Some(p)
  {
    var e := Backup.EncryptedName(p);
    assert e[..|e| - 4] == p;
  }

  /** `obnovi_bazo`'s scratch database: the given name when it is truthy, otherwise `{ime_baze}_test`. */
  function TestDbName(db: string, given: Option<string>): (r: string)
    ensures r != ""
    ensures Truthy(given) ==> r == given.value
    ensures !Truthy(given) ==> r == db + "_test" && EndsWith(r, "_test")
  {
    if Truthy(given) then given.value
    else
      EndsWithAppended(db, "_test");
      db + "_test"
  }

  /** What the messages of a restore report. */
  datatype Event =
    | Separator
    | RestoreStarting
    | RestoreFinished
    | Decrypting(file: string)
    | Decrypted(file: string)
    | DecryptFailed
    | Restoring(db: string)
    | Restored(db: string)
    | RestoreFailed
    | PlainRemoved

  /** The lines `izvedi_obnovo` logs first: a separator, the start message, a separator. */
  const Opening: seq<Logged<Event>> := [Logged(DefaultLevel, Separator), Logged(DefaultLevel, RestoreStarting), Logged(DefaultLevel, Separator)]

  /** The lines it logs last: a separator, the end message, a separator. */
  const Closing: seq<Logged<Event>> := [Logged(DefaultLevel, Separator), Logged(DefaultLevel, RestoreFinished), Logged(DefaultLevel, Separator)]

  /** The two ways out of `izvedi_obnovo`: a return value, or an exception its caller sees. */
  datatype PyError = MissingArgument | RemoveError
  datatype Outcome = Returned(value: bool) | Raised(error: PyError)

  /** The outcomes of what a restore cannot decide itself. */
  datatype RestoreInputs = RestoreInputs(
    utcNow: DateTime,   // datetime.now(pytz.UTC), for the log name
    gpgOk: bool,        // gpg --decrypt exits with 0
    createOk: bool,     // mysql -e "CREATE DATABASE IF NOT EXISTS ..." exits with 0
    importOk: bool,     // the dump can be opened and mysql loads it with exit 0
    removeOk: bool)     // os.remove of the decrypted file succeeds

  class RestoreJob {
    const dbName: string
    const logDir: string
    /** `self.ime_dnevnika`. */
    var logName: Option<string>
    /** The calls this job has made to the log, oldest first. */
    var trace: seq<Logged<Event>>
    /** The paths of the plain files on disk that the restore steps create and remove. */
    var files: set<string>

    constructor (dbName: string, logDir: string, files: set<string>)
      ensures this.dbName == dbName && this.logDir == logDir && this.files == files
      ensures logName == None && trace == []
    {
      this.dbName := dbName;
      this.logDir := logDir;
      this.files := files;
      logName := None;
      trace := [];
    }

    /**
     * `desifriraj_datoteko`: a name without ".gpg" is refused before gpg is
     * run (only printed, not logged); otherwise gpg writes the plain file
     * next to the encrypted one.
     */
    method Decrypt(path: string, gpgOk: bool) returns (plain: Option<string>)
      modifies this`trace, this`files
      ensures !EndsWith(path, ".gpg") ==> plain == None && files == old(files) && trace == old(trace)
      ensures EndsWith(path, ".gpg") ==>
        var out := DecryptedPath(path).value;
        && plain == (if gpgOk then Some(out) else None)
        && files == (if gpgOk then old(files) + {out} else old(files))
        && trace == old(trace) + [Logged(DefaultLevel, Decrypting(path)),
                                  if gpgOk then Logged(DefaultLevel, Decrypted(out)) else Logged(ErrorLevel, DecryptFailed)]
    {
      if !EndsWith(path, ".gpg") {
        return None;
      }
      var potDesifrirane := path[..|path| - 4];
      trace := trace + [Logged(DefaultLevel, Decrypting(path))];
      if !gpgOk {
        trace := trace + [Logged(ErrorLevel, DecryptFailed)];
        return None;
      }
      files := files + {potDesifrirane};
      trace := trace + [Logged(DefaultLevel, Decrypted(potDesifrirane))];
      plain := Some(potDesifrirane);
    }

    /**
     * `obnovi_bazo`: create the scratch database if it does not exist and
     * load the dump into it; true only when both succeed.
     */
    method RestoreDb(sqlPath: string, given: Option<string>, createOk: bool, importOk: bool) returns (ok: bool)
      modifies this`trace
      ensures ok == (createOk && importOk)
      ensures trace == old(trace) + [Logged(DefaultLevel, Restoring(TestDbName(dbName, given))),
        if ok then Logged(DefaultLevel, Restored(TestDbName(dbName, given))) else Logged(ErrorLevel, RestoreFailed)]
    {
      var imeTestneBaze := TestDbName(dbName, given);
      trace := trace + [Logged(DefaultLevel, Restoring(imeTestneBaze))];
      if !createOk || !importOk {
        trace := trace + [Logged(ErrorLevel, RestoreFailed)];
        return false;
      }
      trace := trace + [Logged(DefaultLevel, Restored(imeTestneBaze))];
      ok := true;
    }

    /**
     * `izvedi_obnovo` as it is written: its first log call passes only the
     * file name, so Python raises TypeError for the missing message before
     * anything is decrypted, whatever the backup.
     */
    method RunAsWritten(backupPath: string, given: Option<string>, env: RestoreInputs) returns (r: Outcome)
      requires ValidDateTime(env.utcNow)
      modifies this`logName
      ensures logName == Some(LogFileName(logDir, env.utcNow))
      ensures r == Raised(MissingArgument)
    {
      logName := Some(LogFileName(logDir, env.utcNow));
      var separator := BindLogArgs([logName.value]);
      assert separator == None;
      r := Raised(MissingArgument);
    }

    /**
     * The tail of `izvedi_obnovo`: remove the decrypted dump if it is still
     * there, then log the closing separator, message and separator. A failed
     * removal raises, and nothing more is logged.
     */
    method RemovePlainAndClose(sqlPath: string, removeOk: bool) returns (raised: bool)
      modifies this`trace, this`files
      ensures raised == (sqlPath in old(files) && !removeOk)
      ensures files == if sqlPath in old(files) && removeOk then old(files) - {sqlPath} else old(files)
      ensures |old(trace)| <= |trace| && trace[..|old(trace)|] == old(trace)
      ensures raised ==> trace == old(trace)
      ensures !raised ==>
        trace == old(trace) + (if sqlPath in old(files) then [Logged(DefaultLevel, PlainRemoved)] else []) + Closing
    {
      if sqlPath in files {
        if !removeOk {
          return true;
        }
        files := files - {sqlPath};
        trace := trace + [Logged(DefaultLevel, PlainRemoved)];
      }
      trace := trace + Closing;
      raised := false;
    }

    /**
     * `izvedi_obnovo` with its separator lines logged as messages: decrypt;
     * when that gives no path, return false without restoring; otherwise
     * restore, then remove the plain file whether or not the restore
     * succeeded, and return the restore's result. A failing removal raises.
     */
    method Run(backupPath: string, given: Option<string>, env: RestoreInputs) returns (r: Outcome)
      requires ValidDateTime(env.utcNow)
      modifies this
      ensures logName == Some(LogFileName(logDir, env.utcNow))
      ensures !EndsWith(backupPath, ".gpg") ==> r == Returned(false) && files == old(files) && trace == old(trace) + Opening
      ensures EndsWith(backupPath, ".gpg") && !env.gpgOk ==>
        r == Returned(false) && files == old(files)
        && trace == old(trace) + Opening + [Logged(DefaultLevel, Decrypting(backupPath)), Logged(ErrorLevel, DecryptFailed)]
      ensures EndsWith(backupPath, ".gpg") && env.gpgOk && DecryptedPath(backupPath).value == "" ==>
        r == Returned(false) && files == old(files) + {""}
        && trace == old(trace) + Opening + [Logged(DefaultLevel, Decrypting(backupPath)), Logged(DefaultLevel, Decrypted(""))]
      ensures EndsWith(backupPath, ".gpg") && env.gpgOk && DecryptedPath(backupPath).value != "" ==>
        var out := DecryptedPath(backupPath).value;
        var db := TestDbName(dbName, given);
        var restoring := old(trace) + Opening + [Logged(DefaultLevel, Decrypting(backupPath)), Logged(DefaultLevel, Decrypted(out))]
          + [Logged(DefaultLevel, Restoring(db)),
             if env.createOk && env.importOk then Logged(DefaultLevel, Restored(db)) else Logged(ErrorLevel, RestoreFailed)];
        && r == (if env.removeOk then Returned(env.createOk && env.importOk) else Raised(RemoveError))
        && files == (if env.removeOk then old(files) - {out} else old(files) + {out})
        && trace == (if env.removeOk then restoring + [Logged(DefaultLevel, PlainRemoved)] + Closing else restoring)
    {
      logName := Some(LogFileName(logDir, env.utcNow));
      trace := trace + Opening;
      var potSql := Decrypt(backupPath, env.gpgOk);
      if potSql.None? || potSql.value == "" {
        return Returned(false);
      }
      var uspeh := RestoreDb(potSql.value, given, env.createOk, env.importOk);
      var raised := RemovePlainAndClose(potSql.value, env.removeOk);
      r := if raised then Raised(RemoveError) else Returned(uspeh);
    }
  }
}
