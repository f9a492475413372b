/**
 * The backup run (class `VarnostnoKopiranje` in varnostno_kopiranje.py):
 * dump the database into the backup directory, encrypt the dump, and rotate
 * the encrypted backups. The directory is an object whose entries the steps
 * create and remove; each step's calls to the log are kept in `trace`.
 */
module Backup {
  import opened Wrappers
  import opened Text
  import opened Helpers
  import opened Retention

  /** The parts of the configuration a run reads. */
  datatype Settings = Settings(dbName: string, recipient: string, backupDir: string, logDir: string, rotation: Config)

  datatype RotationError = ListingFailed | RemoveFailed(path: string)

  /** What the messages of a run report. */
  datatype Event =
    | Banner
    | BackupStarting
    | BackupFinished
    | ToolsMissing(tools: seq<string>)
    | DumpStarting(db: string)
    | DumpCreated(file: string)
    | DumpFailed
    | Encrypting(recipient: string)
    | Encrypted(file: string)
    | EncryptFailed
    | RotationStarting
    | RotationFinished(deleted: nat)
    | RotationFailed(cause: RotationError)

  /**
   * The outcomes of everything a run cannot decide itself: the clocks, the
   * external tools, the network and the file system's refusals.
   */
  datatype RunInputs = RunInputs(
    utcNow: DateTime,            // datetime.now(pytz.UTC) in nastavi_dnevnik, for the log name
    dumpUtcNow: DateTime,        // datetime.now(pytz.UTC) in ustvari_časovni_zig, for the dump name
    localNow: int,               // datetime.now() at rotation, in local wall-clock seconds
    created: Meta,               // the times the new dump and encrypted files get
    missingTools: seq<string>,   // what preveri_orodja reports missing
    openOk: bool,                // open(polna_pot, 'w') succeeds
    dumpOk: bool,                // mysqldump exits with 0
    encryptOk: bool,             // gpg --encrypt exits with 0
    removePlainOk: bool,         // os.remove of the plain dump succeeds
    emailOk: bool,               // the three distribution results
    sftpOk: bool,
    s3Ok: bool,
    listOk: bool,                // os.listdir of the backup directory succeeds
    undeletable: set<string>)    // entries os.remove refuses to delete

  /** `{ime_baze}_backup_{casovni_zig}.sql`. */
  function DumpName(db: string, t: DateTime): (r: string)
    requires ValidDateTime(t)
    ensures EndsWith(r, ".sql") && !IsCandidate(r)
  {
    EndsWithAppended(db + "_backup_" + Stamp(t), ".sql");
    db + "_backup_" + Stamp(t) + ".sql"
  }

  /** Dumps of one database taken at four-digit-year times sort by name in the order they were taken. */
  lemma DumpNameOrder(db: string, a: DateTime, b: DateTime)
    requires ValidDateTime(a) && ValidDateTime(b) && 1000 <= a.year && 1000 <= b.year
    ensures LexLess(DumpName(db, a), DumpName(db, b)) <==> Before(a, b)
  {
    var p := db + "_backup_";
    assert DumpName(db, a) == p + (Compact(a) + "_UTC.sql");
    assert DumpName(db, b) == p + (Compact(b) + "_UTC.sql");
    LexLessConcat(p, Compact(a) + "_UTC.sql", p, Compact(b) + "_UTC.sql");
    LexLessIrreflexive(p);
    CompactOrder(a, b, "_UTC.sql");
  }

  /** The directory after a successful dump and encryption: the plain dump gone, its encrypted copy there. */
  function AfterBackup(entries: map<string, Meta>, dump: string, created: Meta): (r: map<string, Meta>)
  {
    (entries - {dump})[EncryptedName(dump) := created]
  }

  /** Whether the dump's name was taken before does not matter once the dump is gone. */
  lemma AfterBackupOverwrite(entries: map<string, Meta>, dump: string, created: Meta)
    ensures AfterBackup(entries[dump := created], dump, created) == AfterBackup(entries, dump, created)
  {
    assert entries[dump := created] - {dump} == entries - {dump};
  }

  /** Writing the encrypted copy and then removing the dump gives the directory after a backup. */
  lemma WriteThenRemove(entries: map<string, Meta>, dump: string, created: Meta)
    ensures entries[EncryptedName(dump) := created] - {dump} == AfterBackup(entries, dump, created)
  {
    assert EncryptedName(dump) != dump;
  }

  /** The full path of the encrypted copy: `os.path.join(pot, ime)` followed by ".gpg". */
  function EncryptedPath(backupDir: string, dump: string): (r: string)
    ensures r == PathJoin(backupDir, EncryptedName(dump))
  {
    JoinThenAppend(backupDir, dump, ".gpg");
    PathJoin(backupDir, dump) + ".gpg"
  }

  /** The three lines `izvedi` logs first: a separator, the start message, a separator. */
  const Opening: seq<Logged<Event>> := [Logged(DefaultLevel, Banner), Logged(DefaultLevel, BackupStarting), Logged(DefaultLevel, Banner)]

  /** The three lines a successful `izvedi` logs last. */
  const Closing: seq<Logged<Event>> := [Logged(DefaultLevel, Banner), Logged(DefaultLevel, BackupFinished), Logged(DefaultLevel, Banner)]

  /** The tools are there, and the dump and its encryption succeed. */
  predicate PrepareSucceeds(env: RunInputs) {
    env.missingTools == [] && env.openOk && env.dumpOk && env.encryptOk && env.removePlainOk
  }

  /**
   * The backup directory after the steps of `izvedi` before distribution:
   * nothing happens after a missing tool or a dump file that cannot be
   * opened; a failed dump or gpg run leaves the dump; a failed removal
   * leaves the dump and its encrypted copy.
   */
  function Staged(entries: map<string, Meta>, name: string, env: RunInputs): map<string, Meta>
  {
    if env.missingTools != [] || !env.openOk then entries
    else if !env.dumpOk || !env.encryptOk then entries[name := env.created]
    else if !env.removePlainOk then entries[name := env.created][EncryptedName(name) := env.created]
    else AfterBackup(entries, name, env.created)
  }

  /** What `ustvari_varnostno_kopijo` logs: the start, then the new file or the failure. */
  function DumpLog(dbName: string, name: string, ok: bool): seq<Logged<Event>>
  {
    [Logged(DefaultLevel, DumpStarting(dbName)),
     if ok then Logged(DefaultLevel, DumpCreated(name)) else Logged("napaka", DumpFailed)]
  }

  /** What `sifriraj_datoteko` logs: the recipient, then the encrypted file or the failure. */
  function EncryptLog(recipient: string, name: string, ok: bool): seq<Logged<Event>>
  {
    [Logged(DefaultLevel, Encrypting(recipient)),
     if ok then Logged(DefaultLevel, Encrypted(EncryptedName(name))) else Logged(ErrorLevel, EncryptFailed)]
  }

  /** What those steps log, up to and including the first failure. */
  function PrepareLog(s: Settings, name: string, env: RunInputs): seq<Logged<Event>>
  {
    if env.missingTools != [] then [Logged(ErrorLevel, ToolsMissing(env.missingTools))]
    else if !(env.openOk && env.dumpOk) then DumpLog(s.dbName, name, false)
    else DumpLog(s.dbName, name, true) + EncryptLog(s.recipient, name, env.encryptOk && env.removePlainOk)
  }

  /**
   * The first failing step ends the preparation: a missing tool leaves the
   * directory as it was and logs only the missing tools; a failed dump logs
   * no encryption; no step removes an existing file other than the dump's
   * own name; and the only new rotation candidate after a failure is the
   * encrypted copy of a dump whose plain file could not be removed.
   */
  lemma FirstFailureStops(entries: map<string, Meta>, s: Settings, env: RunInputs)
    requires ValidDateTime(env.dumpUtcNow)
    ensures var name := DumpName(s.dbName, env.dumpUtcNow);
      var staged, log := Staged(entries, name, env), PrepareLog(s, name, env);
      && (env.missingTools != [] ==> staged == entries && log == [Logged(ErrorLevel, ToolsMissing(env.missingTools))])
      && (env.missingTools == [] && !(env.openOk && env.dumpOk) ==>
            |log| == 2 && log[1] == Logged("napaka", DumpFailed) && staged.Keys <= entries.Keys + {name})
      && entries.Keys - {name} <= staged.Keys
      && (!PrepareSucceeds(env) ==>
            forall n :: n in staged && n !in entries && IsCandidate(n) ==>
              env.encryptOk && !env.removePlainOk && n == EncryptedName(name))
      && (PrepareSucceeds(env) ==> staged == AfterBackup(entries, name, env.created) && Logged(DefaultLevel, Encrypted(EncryptedName(name))) in log)
  {
    var name := DumpName(s.dbName, env.dumpUtcNow);
    assert !IsCandidate(name);
  }

  /** `f"{pot_datoteke}.gpg"`: the name gpg writes the encrypted copy to. */
  function EncryptedName(path: string): (r: string)
    ensures IsCandidate(r) && |r| == |path| + 4 && r[..|path|] == path
  {
    EndsWithAppended(path, ".gpg");
    path + ".gpg"
  }

  /** The backup directory: entry name to what `os.path.getmtime` and the calendar tell of it. */
  class Directory {
    var entries: map<string, Meta>

    constructor (entries: map<string, Meta>)
      ensures this.entries == entries
    {
      this.entries := entries;
    }

    /** Creates or truncates the file `name` (`open(path, 'w')`, `gpg --output`). */
    method Create(name: string, m: Meta)
      modifies this
      ensures entries == old(entries)[name := m]
    {
      entries := entries[name := m];
    }

    /**
     * The loop over `os.listdir` that keeps the names ending in ".gpg" with
     * their times; the listing comes in no particular order.
     */
    method ListCandidates() returns (datoteke: seq<Artifact>)
      ensures Listed(datoteke, entries)
    {
      datoteke := [];
      var unlisted := entries.Keys;
      while unlisted != {}
        invariant unlisted <= entries.Keys
        invariant forall a :: a in datoteke <==>
          a.name in entries && a.name !in unlisted && IsCandidate(a.name) && a.meta == entries[a.name]
        invariant forall a :: multiset(datoteke)[a] <= 1
        decreases unlisted
      {
        var ime :| ime in unlisted;
        if IsCandidate(ime) {
          datoteke := datoteke + [Artifact(ime, entries[ime])];
        }
        unlisted := unlisted - {ime};
      }
    }

    /** `os.remove`: fails when the file is not there or the system refuses (`denied`). */
    method Remove(name: string, denied: bool) returns (ok: bool)
      modifies this
      ensures ok == (name in old(entries) && !denied)
      ensures entries == if ok then old(entries) - {name} else old(entries)
    {
      ok := name in entries && !denied;
      if ok {
        entries := entries - {name};
      }
    }
  }

  /**
   * A pass that stopped at the purgeable file `f`, which could not be
   * removed: it removed only purgeable files, none of them older than `f`,
   * and every purgeable file strictly newer than `f`; everything else is as
   * it was.
   */
  ghost predicate StoppedAt(before: map<string, Meta>, after: map<string, Meta>, f: string,
                            now: int, cfg: Config, denied: set<string>)
  {
    var purge := PurgeSet(before, now, cfg);
    && f in purge && f in denied && f in after
    && after == before - (before.Keys - after.Keys)
    && before.Keys - after.Keys <= purge - denied
    && (forall n :: n in before && n !in after ==> before[n].mtime >= before[f].mtime)
    && (forall n :: n in purge && before[n].mtime > before[f].mtime ==> n !in after)
  }

  /** A pass can only stop at a file it had to remove but could not. */
  lemma StoppedAtBlocked(before: map<string, Meta>, after: map<string, Meta>, f: string,
                         now: int, cfg: Config, denied: set<string>)
    requires StoppedAt(before, after, f, now, cfg, denied)
    ensures !(PurgeSet(before, now, cfg) !! denied)
  {
    assert f in PurgeSet(before, now, cfg) * denied;
  }

  /**
   * The directory after `rotiraj_varnostne_kopije` ran on `before`: unchanged
   * when the listing failed; minus the purge set when no removal was refused;
   * otherwise stopped at the refused file `stoppedAt`.
   */
  ghost predicate Rotated(cfg: Config, before: map<string, Meta>, after: map<string, Meta>, now: int,
                          listOk: bool, denied: set<string>, stoppedAt: Option<string>)
  {
    if !listOk then stoppedAt.None? && after == before
    else if stoppedAt.None? then PurgeSet(before, now, cfg) !! denied && after == before - PurgeSet(before, now, cfg)
    else StoppedAt(before, after, stoppedAt.value, now, cfg, denied)
  }

  /** What that pass logs: its start, then the failure or the number removed. */
  function RotationLog(s: Settings, before: map<string, Meta>, now: int, listOk: bool,
                       stoppedAt: Option<string>): seq<Logged<Event>>
  {
    [Logged(DefaultLevel, RotationStarting),
     if !listOk then Logged(ErrorLevel, RotationFailed(ListingFailed))
     else if stoppedAt.Some? then Logged(ErrorLevel, RotationFailed(RemoveFailed(PathJoin(s.backupDir, stoppedAt.value))))
     else Logged(DefaultLevel, RotationFinished(|PurgeSet(before, now, s.rotation)|))]
  }

  /** What the pass has listed: one entry per ".gpg" file, as the directory held it. */
  ghost predicate Listed(s: seq<Artifact>, entries: map<string, Meta>) {
    && (forall a :: a in s <==> a.name in entries && IsCandidate(a.name) && a.meta == entries[a.name])
    && (forall a :: multiset(s)[a] <= 1)
  }

  predicate DistinctNames(s: seq<Artifact>) {
    forall i, j :: 0 <= i < j < |s| ==> s[i].name != s[j].name
  }

  lemma ListedDistinct(s: seq<Artifact>, entries: map<string, Meta>)
    requires Listed(s, entries)
    ensures DistinctNames(s)
  {
    forall i, j | 0 <= i < j < |s|
      ensures s[i].name != s[j].name
    {
      assert s == s[..j] + s[j..];
      assert s[i] in s[..j];
      assert s[j] in s[j..];
      assert multiset(s)[s[j]] == multiset(s[..j])[s[j]] + multiset(s[j..])[s[j]];
      assert s[j] !in s[..j];
    }
  }

  /** The ordering of a listing does not change what it lists. */
  lemma SortKeepsListing(s: seq<Artifact>, entries: map<string, Meta>)
    requires Listed(s, entries)
    ensures Listed(SortNewestFirst(s), entries) && NewestFirst(SortNewestFirst(s))
  {
    var r := SortNewestFirst(s);
    forall a ensures a in r <==> a in s {
      assert a in r <==> a in multiset(r);
      assert a in s <==> a in multiset(s);
    }
  }

  /** The loop over the sorted list, stopped at position `i`, which could not be removed. */
  lemma StoppedAtFailure(before: map<string, Meta>, s: seq<Artifact>, i: int, removed: set<string>,
                         now: int, cfg: Config, denied: set<string>)
    requires Listed(s, before) && NewestFirst(s) && DistinctNames(s)
    requires 0 <= i < |s| && !Keep(now, s[i].meta, cfg) && s[i].name in denied
    requires removed <= PurgeSet(before, now, cfg) - denied
    requires forall k :: 0 <= k < i ==> (s[k].name in removed <==> !Keep(now, s[k].meta, cfg))
    requires forall k :: i <= k < |s| ==> s[k].name !in removed
    ensures StoppedAt(before, before - removed, s[i].name, now, cfg, denied)
  {
    var after := before - removed;
    var f := s[i].name;
    assert s[i] in s;
    assert before.Keys - after.Keys == removed;
    forall n | n in before && n !in after
      ensures before[n].mtime >= before[f].mtime
    {
      var k :| 0 <= k < |s| && s[k] == Artifact(n, before[n]);
    }
    forall n | n in PurgeSet(before, now, cfg) && before[n].mtime > before[f].mtime
      ensures n !in after
    {
      assert Artifact(n, before[n]) in s;
      var k :| 0 <= k < |s| && s[k] == Artifact(n, before[n]);
    }
  }

  /** The loop over the sorted list, run to its end, removed exactly the purgeable files. */
  lemma CompletedPass(before: map<string, Meta>, s: seq<Artifact>, removed: set<string>,
                      now: int, cfg: Config, denied: set<string>)
    requires Listed(s, before)
    requires removed <= PurgeSet(before, now, cfg) - denied
    requires forall k :: 0 <= k < |s| ==> (s[k].name in removed <==> !Keep(now, s[k].meta, cfg))
    ensures removed == PurgeSet(before, now, cfg)
  {
    forall n | n in PurgeSet(before, now, cfg)
      ensures n in removed
    {
      assert Artifact(n, before[n]) in s;
      var k :| 0 <= k < |s| && s[k] == Artifact(n, before[n]);
    }
  }

  class BackupJob {
    const settings: Settings
    const dir: Directory
    /** `self.ime_dnevnika`: the log file of the current run. */
    var logName: Option<string>
    /** The calls this job has made to the log, oldest first. */
    var trace: seq<Logged<Event>>

    constructor (settings: Settings, dir: Directory)
      ensures this.settings == settings && this.dir == dir
      ensures logName == None && trace == []
    {
      this.settings := settings;
      this.dir := dir;
      logName := None;
      trace := [];
    }

    /**
     * The second loop of `rotiraj_varnostne_kopije`: visit the listed files
     * in order and remove each one that no tier keeps, stopping at the first
     * removal that fails. Returns the number removed and the failing name.
     */
    method RemoveUnkept(datoteke: seq<Artifact>, now: int, denied: set<string>)
      returns (izbrisane: nat, failed: Option<string>)
      requires Listed(datoteke, dir.entries) && NewestFirst(datoteke)
      modifies dir
      ensures failed.None? ==>
        var purge := PurgeSet(old(dir.entries), now, settings.rotation);
        purge !! denied && dir.entries == old(dir.entries) - purge && izbrisane == |purge|
      ensures failed.Some? ==> StoppedAt(old(dir.entries), dir.entries, failed.value, now, settings.rotation, denied)
    {
      var cfg := settings.rotation;
      ghost var before := dir.entries;
      ListedDistinct(datoteke, before);
      izbrisane := 0;
      ghost var removed: set<string> := {};
      var i := 0;
      while i < |datoteke|
        invariant 0 <= i <= |datoteke|
        invariant dir.entries == before - removed
        invariant izbrisane == |removed|
        invariant removed <= PurgeSet(before, now, cfg) - denied
        invariant forall k :: 0 <= k < i ==> (datoteke[k].name in removed <==> !Keep(now, datoteke[k].meta, cfg))
        invariant forall k :: i <= k < |datoteke| ==> datoteke[k].name !in removed
      {
        var cas := datoteke[i].meta;
        var starost := AgeDays(now, cas.mtime);
        var ohrani := false;
        if starost < cfg.daily {
          ohrani := true;
        } else if starost < cfg.weekly * 7 && cas.weekday == 0 {
          ohrani := true;
        } else if starost < cfg.monthly * 30 && cas.day == 1 {
          ohrani := true;
        }
        assert ohrani == Keep(now, cas, cfg);
        if !ohrani {
          var ime := datoteke[i].name;
          assert datoteke[i] in datoteke;
          var ok := dir.Remove(ime, ime in denied);
          if !ok {
            StoppedAtFailure(before, datoteke, i, removed, now, cfg, denied);
            return izbrisane, Some(ime);
          }
          removed := removed + {ime};
          izbrisane := izbrisane + 1;
        }
        i := i + 1;
      }
      CompletedPass(before, datoteke, removed, now, cfg, denied);
      failed := None;
    }

    /**
     * `rotiraj_varnostne_kopije`: list the ".gpg" files, sort them newest
     * first and remove each one no tier keeps. The first failure (listing
     * the directory, removing a file) ends the pass: it is logged, files
     * after the failing one are not visited and no summary is logged.
     * `stoppedAt` names, for the contract only, the file a removal failed on.
     */
    method Rotate(now: int, listOk: bool, denied: set<string>) returns (ghost stoppedAt: Option<string>)
      modifies this`trace, dir
      ensures |trace| == |old(trace)| + 2 && trace[..|old(trace)|] == old(trace)
      ensures trace[|old(trace)|] == Logged(DefaultLevel, RotationStarting)
      ensures !listOk ==>
        stoppedAt == None && dir.entries == old(dir.entries)
        && trace == old(trace) + [Logged(DefaultLevel, RotationStarting), Logged(ErrorLevel, RotationFailed(ListingFailed))]
      ensures listOk && stoppedAt.None? ==>
        var purge := PurgeSet(old(dir.entries), now, settings.rotation);
        purge !! denied && dir.entries == old(dir.entries) - purge
        && trace == old(trace) + [Logged(DefaultLevel, RotationStarting), Logged(DefaultLevel, RotationFinished(|purge|))]
      ensures stoppedAt.Some? ==>
        listOk && StoppedAt(old(dir.entries), dir.entries, stoppedAt.value, now, settings.rotation, denied)
        && trace == old(trace) + [Logged(DefaultLevel, RotationStarting),
                                  Logged(ErrorLevel, RotationFailed(RemoveFailed(PathJoin(settings.backupDir, stoppedAt.value))))]
    {
      stoppedAt := None;
      trace := trace + [Logged(DefaultLevel, RotationStarting)];
      var last: Logged<Event>;
      if !listOk {
        last := Logged(ErrorLevel, RotationFailed(ListingFailed));
      } else {
        var datoteke := dir.ListCandidates();
        SortKeepsListing(datoteke, dir.entries);
        datoteke := SortNewestFirst(datoteke);
        var izbrisane, failed := RemoveUnkept(datoteke, now, denied);
        stoppedAt := failed;
        if failed.Some? {
          last := Logged(ErrorLevel, RotationFailed(RemoveFailed(PathJoin(settings.backupDir, failed.value))));
        } else {
          last := Logged(DefaultLevel, RotationFinished(izbrisane));
        }
      }
      trace := trace + [last];
    }

    /** `preveri_zahteve`: fails, and logs the missing tools, when any is missing. */
    method CheckTools(missing: seq<string>) returns (ok: bool)
      modifies this`trace
      ensures ok == (missing == [])
      ensures trace == if ok then old(trace) else old(trace) + [Logged(ErrorLevel, ToolsMissing(missing))]
    {
      if missing != [] {
        trace := trace + [Logged(ErrorLevel, ToolsMissing(missing))];
        return false;
      }
      ok := true;
    }

    /**
     * `ustvari_varnostno_kopijo`: dump the database into
     * `{ime_baze}_backup_{stamp}.sql` in the backup directory. The file is
     * created before mysqldump runs, so a failed dump leaves it behind; when
     * the file cannot be created, mysqldump is not run. Returns the entry
     * name of the dump, or None when either failed.
     */
    method CreateDump(utcNow: DateTime, created: Meta, openOk: bool, dumpOk: bool) returns (dump: Option<string>)
      requires ValidDateTime(utcNow)
      modifies this`trace, dir
      ensures var name := DumpName(settings.dbName, utcNow);
        && dir.entries == (if openOk then old(dir.entries)[name := created] else old(dir.entries))
        && dump == (if openOk && dumpOk then Some(name) else None)
        && trace == old(trace) + DumpLog(settings.dbName, name, openOk && dumpOk)
    {
      var casovniZig := Stamp(utcNow);
      var imeDatoteke := settings.dbName + "_backup_" + casovniZig + ".sql";
      trace := trace + [Logged(DefaultLevel, DumpStarting(settings.dbName))];
      if !openOk {
        trace := trace + [Logged("napaka", DumpFailed)];
        return None;
      }
      dir.Create(imeDatoteke, created);
      if !dumpOk {
        trace := trace + [Logged("napaka", DumpFailed)];
        return None;
      }
      trace := trace + [Logged(DefaultLevel, DumpCreated(imeDatoteke))];
      dump := Some(imeDatoteke);
    }

    /**
     * `sifriraj_datoteko`: encrypt the dump `name` of the backup directory
     * into `name + ".gpg"` beside it, then remove the plain dump. Returns the
     * encrypted file's path, or None when gpg or the removal failed.
     */
    method Encrypt(name: string, created: Meta, encryptOk: bool, removePlainOk: bool) returns (encrypted: Option<string>)
      requires name in dir.entries
      modifies this`trace, dir
      ensures encrypted.Some? <==> encryptOk && removePlainOk
      ensures encrypted.Some? ==> encrypted.value == PathJoin(settings.backupDir, EncryptedName(name))
      ensures dir.entries ==
        if !encryptOk then old(dir.entries)
        else if !removePlainOk then old(dir.entries)[EncryptedName(name) := created]
        else AfterBackup(old(dir.entries), name, created)
      ensures trace == old(trace) + EncryptLog(settings.recipient, name, encrypted.Some?)
    {
      var potSifrirane := EncryptedPath(settings.backupDir, name);
      trace := trace + [Logged(DefaultLevel, Encrypting(settings.recipient))];
      encrypted := None;
      if encryptOk {
        ghost var before := dir.entries;
        dir.Create(EncryptedName(name), created);
        var removed := dir.Remove(name, !removePlainOk);
        if removed {
          WriteThenRemove(before, name, created);
          encrypted := Some(potSifrirane);
        }
      }
      // the `except` branch logs the failure of gpg or of the removal
      trace := trace + [if encrypted.Some? then Logged(DefaultLevel, Encrypted(EncryptedName(name)))
                        else Logged(ErrorLevel, EncryptFailed)];
    }

    /**
     * The steps of `izvedi` before distribution: check the tools, dump and
     * encrypt, stopping at the first that fails. Returns the encrypted
     * file's path when all three succeed.
     */
    method Prepare(env: RunInputs) returns (encrypted: Option<string>)
      requires ValidDateTime(env.dumpUtcNow)
      modifies this`trace, dir
      ensures encrypted.Some? <==> PrepareSucceeds(env)
      ensures dir.entries == Staged(old(dir.entries), DumpName(settings.dbName, env.dumpUtcNow), env)
      ensures trace == old(trace) + PrepareLog(settings, DumpName(settings.dbName, env.dumpUtcNow), env)
    {
      ghost var name := DumpName(settings.dbName, env.dumpUtcNow);
      var toolsOk := CheckTools(env.missingTools);
      if !toolsOk {
        return None;
      }
      ghost var entries0, trace0 := dir.entries, trace;
      var potKopije := CreateDump(env.dumpUtcNow, env.created, env.openOk, env.dumpOk);
      if potKopije.None? {
        assert trace == trace0 + PrepareLog(settings, name, env);
        return None;
      }
      encrypted := Encrypt(potKopije.value, env.created, env.encryptOk, env.removePlainOk);
      LogsInOrder(trace0, DumpLog(settings.dbName, name, true), EncryptLog(settings.recipient, name, encrypted.Some?));
      AfterBackupOverwrite(entries0, potKopije.value, env.created);
    }

    /**
     * The tail of a successful `izvedi`: rotate, then log the closing
     * separator, message and separator, whatever the rotation did.
     */
    method RotateAndClose(now: int, listOk: bool, denied: set<string>) returns (ghost stoppedAt: Option<string>)
      modifies this`trace, dir
      ensures Rotated(settings.rotation, old(dir.entries), dir.entries, now, listOk, denied, stoppedAt)
      ensures trace == old(trace) + RotationLog(settings, old(dir.entries), now, listOk, stoppedAt) + Closing
    {
      stoppedAt := Rotate(now, listOk, denied);
      trace := trace + Closing;
    }

    /**
     * `izvedi`: open a new log, then check the tools, dump, encrypt,
     * distribute and rotate. The first of the check, the dump and the
     * encryption to fail ends the run with false, before anything is
     * rotated; the distribution results are not looked at. `stoppedAt`
     * names, for the contract only, the file the rotation stopped at.
     */
    method Run(env: RunInputs) returns (ok: bool, ghost stoppedAt: Option<string>)
      requires ValidDateTime(env.utcNow) && ValidDateTime(env.dumpUtcNow)
      modifies this, dir
      ensures logName == Some(LogFileName(settings.logDir, env.utcNow))
      ensures ok == PrepareSucceeds(env)
      ensures !ok ==>
        var name := DumpName(settings.dbName, env.dumpUtcNow);
        stoppedAt.None? && dir.entries == Staged(old(dir.entries), name, env)
        && trace == old(trace) + Opening + PrepareLog(settings, name, env)
      ensures ok ==>
        var name := DumpName(settings.dbName, env.dumpUtcNow);
        var staged := Staged(old(dir.entries), name, env);
        Rotated(settings.rotation, staged, dir.entries, env.localNow, env.listOk, env.undeletable, stoppedAt)
        && trace == old(trace) + Opening + PrepareLog(settings, name, env)
                    + RotationLog(settings, staged, env.localNow, env.listOk, stoppedAt) + Closing
      ensures ok && env.listOk ==>
        var staged := Staged(old(dir.entries), DumpName(settings.dbName, env.dumpUtcNow), env);
        var purge := PurgeSet(staged, env.localNow, settings.rotation);
        purge !! env.undeletable ==> dir.entries == staged - purge
    {
      logName := Some(LogFileName(settings.logDir, env.utcNow));
      stoppedAt := None;
      ghost var entries0 := dir.entries;
      ghost var name := DumpName(settings.dbName, env.dumpUtcNow);
      trace := trace + Opening;
      var potSifrirane := Prepare(env);
      assert dir.entries == Staged(entries0, name, env);
      if potSifrirane.None? {
        return false, stoppedAt;
      }
      // poslji_po_emailu, poslji_na_sftp, poslji_na_aws_s3: their results are not used
      ghost var staged := dir.entries;
      stoppedAt := RotateAndClose(env.localNow, env.listOk, env.undeletable);
      if stoppedAt.Some? {
        StoppedAtBlocked(staged, dir.entries, stoppedAt.value, env.localNow, settings.rotation, env.undeletable);
      }
      ok := true;
    }
  }
}
