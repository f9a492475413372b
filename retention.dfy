/**
 * The retention rule of the backup rotation (`rotiraj_varnostne_kopije` in
 * varnostno_kopiranje.py): which encrypted backups a rotation pass keeps,
 * and the newest-first order in which it visits them.
 */
module Retention {
  import opened Text

  /** The `rotacija` settings: daily window in days, weekly in weeks, monthly in 30-day months. */
  datatype Config = Config(daily: int, weekly: int, monthly: int)

  /**
   * What a pass learns of one file: its modification time, as whole seconds
   * of local wall-clock time, and the weekday (Monday = 0) and day of the
   * month of that local time.
   */
  datatype Meta = Meta(mtime: int, weekday: int, day: int)

  /** One entry of the list the pass builds: file name and what it read of it. */
  datatype Artifact = Artifact(name: string, meta: Meta)

  const SecondsPerDay := 86400

  /** `(zdaj - cas).days`: whole days from `mtime` to `now`, rounded down (negative for a future file). */
  function AgeDays(now: int, mtime: int): (age: int)
    ensures age * SecondsPerDay <= now - mtime < (age + 1) * SecondsPerDay
  {
    (now - mtime) / SecondsPerDay
  }

  /** Only one whole number of days satisfies the rounding-down bounds. */
  lemma AgeDaysUnique(now: int, mtime: int, k: int)
    requires k * SecondsPerDay <= now - mtime < (k + 1) * SecondsPerDay
    ensures AgeDays(now, mtime) == k
  {
  }

  /** A later clock never makes a file younger. */
  lemma AgeDaysMonotone(now1: int, now2: int, mtime: int)
    requires now1 <= now2
    ensures AgeDays(now1, mtime) <= AgeDays(now2, mtime)
  {
  }

  predicate DailyTier(age: int, cfg: Config) {
    age < cfg.daily
  }

  predicate WeeklyTier(age: int, m: Meta, cfg: Config) {
    age < cfg.weekly * 7 && m.weekday == 0
  }

  predicate MonthlyTier(age: int, m: Meta, cfg: Config) {
    age < cfg.monthly * 30 && m.day == 1
  }

  /** A file is kept when at least one tier retains it; every comparison is strict. */
  predicate Keep(now: int, m: Meta, cfg: Config)
    ensures AgeDays(now, m.mtime) < cfg.daily ==> Keep(now, m, cfg)
    ensures Keep(now, m, cfg) ==>
      AgeDays(now, m.mtime) < cfg.daily || AgeDays(now, m.mtime) < cfg.weekly * 7 || AgeDays(now, m.mtime) < cfg.monthly * 30
    ensures Keep(now, m, cfg) && AgeDays(now, m.mtime) >= cfg.daily ==> m.weekday == 0 || m.day == 1
  {
    var age := AgeDays(now, m.mtime);
    DailyTier(age, cfg) || WeeklyTier(age, m, cfg) || MonthlyTier(age, m, cfg)
  }

  /** Only names ending in ".gpg" are looked at; every other directory entry is left alone. */
  predicate IsCandidate(name: string)
  {
    EndsWith(name, ".gpg")
  }

  /** The rotated files are exactly the names made of some stem followed by ".gpg". */
  lemma CandidateSplit(name: string)
    ensures IsCandidate(name) <==> |name| >= 4 && name[..|name| - 4] + ".gpg" == name
  {
    EndsWithSplit(name, ".gpg");
  }

  /** The names a completed pass at time `now` removes from a directory with these entries. */
  function PurgeSet(entries: map<string, Meta>, now: int, cfg: Config): (r: set<string>)
    ensures r <= entries.Keys
    ensures forall n :: n in r ==> IsCandidate(n) && AgeDays(now, entries[n].mtime) >= cfg.daily
  {
    set n | n in entries && IsCandidate(n) && !Keep(now, entries[n], cfg)
  }

  /** A file dated after `now` has a negative age and is kept whenever the daily window is not negative. */
  lemma FutureFileKept(now: int, m: Meta, cfg: Config)
    requires m.mtime > now && cfg.daily >= 0
    ensures AgeDays(now, m.mtime) <= -1
    ensures Keep(now, m, cfg)
  {
  }

  /** An age equal to a window is outside that window. */
  lemma WindowBoundsAreStrict(m: Meta, cfg: Config, age: int)
    ensures age == cfg.daily ==> !DailyTier(age, cfg)
    ensures age == cfg.weekly * 7 ==> !WeeklyTier(age, m, cfg)
    ensures age == cfg.monthly * 30 ==> !MonthlyTier(age, m, cfg)
  {
  }

  /** A window of zero or less never retains a file of non-negative age. */
  lemma NonPositiveWindowsRetainNothing(m: Meta, cfg: Config, age: int)
    requires age >= 0
    ensures cfg.daily <= 0 ==> !DailyTier(age, cfg)
    ensures cfg.weekly <= 0 ==> !WeeklyTier(age, m, cfg)
    ensures cfg.monthly <= 0 ==> !MonthlyTier(age, m, cfg)
  {
  }

  /** A file that fails to be kept at some time is not kept at any later time either. */
  lemma KeepOnlyShrinks(now1: int, now2: int, m: Meta, cfg: Config)
    requires now1 <= now2
    ensures Keep(now2, m, cfg) ==> Keep(now1, m, cfg)
  {
    AgeDaysMonotone(now1, now2, m.mtime);
  }

  /** A pass run later purges at least what an earlier pass would have purged. */
  lemma PurgeSetGrows(entries: map<string, Meta>, now1: int, now2: int, cfg: Config)
    requires now1 <= now2
    ensures PurgeSet(entries, now1, cfg) <= PurgeSet(entries, now2, cfg)
  {
    forall n | n in PurgeSet(entries, now1, cfg)
      ensures n in PurgeSet(entries, now2, cfg)
    {
      KeepOnlyShrinks(now1, now2, entries[n], cfg);
    }
  }

  /** Wider windows keep every file that narrower ones keep. */
  lemma KeepMonotoneInWindows(now: int, m: Meta, c1: Config, c2: Config)
    requires c1.daily <= c2.daily && c1.weekly <= c2.weekly && c1.monthly <= c2.monthly
    ensures Keep(now, m, c1) ==> Keep(now, m, c2)
  {
  }

  /** A file's fate depends only on its own entry, not on what else is in the directory. */
  lemma PurgeIsPerFile(e1: map<string, Meta>, e2: map<string, Meta>, n: string, now: int, cfg: Config)
    requires n in e1 && n in e2 && e1[n] == e2[n]
    ensures n in PurgeSet(e1, now, cfg) <==> n in PurgeSet(e2, now, cfg)
  {
  }

  /** After a completed pass, a second pass with the same clock finds nothing to remove. */
  lemma SecondPassPurgesNothing(entries: map<string, Meta>, now: int, cfg: Config)
    ensures PurgeSet(entries - PurgeSet(entries, now, cfg), now, cfg) == {}
  {
  }

  /**
   * A backup made less than a day before the pass has age 0: it survives
   * exactly when some window is positive and its anchor (if any) matches.
   */
  lemma NewBackupSurvives(now: int, m: Meta, cfg: Config)
    requires 0 <= now - m.mtime < SecondsPerDay
    ensures Keep(now, m, cfg) <==>
      cfg.daily > 0 || (cfg.weekly > 0 && m.weekday == 0) || (cfg.monthly > 0 && m.day == 1)
  {
    AgeDaysUnique(now, m.mtime, 0);
  }

  /** Files are visited newest first: modification times never increase along the list. */
  predicate NewestFirst(s: seq<Artifact>) {
    forall i, j :: 0 <= i < j < |s| ==> s[i].meta.mtime >= s[j].meta.mtime
  }

  lemma ConsNewestFirst(x: Artifact, t: seq<Artifact>)
    requires NewestFirst(t)
    requires forall y :: y in t ==> y.meta.mtime <= x.meta.mtime
    ensures NewestFirst([x] + t)
  {
    forall i, j | 0 <= i < j < |[x] + t|
      ensures ([x] + t)[i].meta.mtime >= ([x] + t)[j].meta.mtime
    {
      if i > 0 {
        assert ([x] + t)[i] == t[i - 1] && ([x] + t)[j] == t[j - 1];
      } else {
        assert ([x] + t)[j] == t[j - 1];
      }
    }
  }

  /** In a newest-first list, no file after the first is newer than it. */
  lemma HeadIsNewest(s: seq<Artifact>)
    requires NewestFirst(s) && |s| > 0
    ensures forall y :: y in s[1..] ==> y.meta.mtime <= s[0].meta.mtime
  {
    forall y | y in s[1..]
      ensures y.meta.mtime <= s[0].meta.mtime
    {
      var k :| 0 <= k < |s[1..]| && s[1..][k] == y;
      assert s[k + 1] == y;
    }
  }

  /** A list holding the files of `t` and `a` has no file newer than a bound they all respect. */
  lemma BoundedPermutation(r: seq<Artifact>, t: seq<Artifact>, a: Artifact, top: int)
    requires multiset(r) == multiset(t) + multiset{a}
    requires a.meta.mtime <= top && forall y :: y in t ==> y.meta.mtime <= top
    ensures forall y :: y in r ==> y.meta.mtime <= top
  {
    forall y | y in r
      ensures y.meta.mtime <= top
    {
      assert y in multiset(r);
      assert y == a || y in multiset(t);
    }
  }

  /** Puts `a` in front of the first file that is not newer than it. */
  function InsertNewestFirst(a: Artifact, s: seq<Artifact>): (r: seq<Artifact>)
    requires NewestFirst(s)
    ensures NewestFirst(r)
    ensures multiset(r) == multiset(s) + multiset{a}
  {
    if s == [] || s[0].meta.mtime <= a.meta.mtime then
      ConsNewestFirst(a, s);
      [a] + s
    else
      var rest := InsertNewestFirst(a, s[1..]);
      HeadIsNewest(s);
      BoundedPermutation(rest, s[1..], a, s[0].meta.mtime);
      ConsNewestFirst(s[0], rest);
      assert s == [s[0]] + s[1..];
      [s[0]] + rest
  }

  /** `datoteke.sort(key=lambda x: x[1], reverse=True)`: a stable sort, newest first. */
  function SortNewestFirst(s: seq<Artifact>): (r: seq<Artifact>)
    ensures NewestFirst(r)
    ensures multiset(r) == multiset(s)
  {
    if s == [] then []
    else
      assert s == [s[0]] + s[1..];
      InsertNewestFirst(s[0], SortNewestFirst(s[1..]))
  }
}
