/**
 * The shared helpers of the backup and restore tools (pomocne_funkcije.py):
 * the UTC timestamp put into dump names, the name of a run's log file, and
 * the append-only JSON log that every step writes to.
 */
module Helpers {
  import opened Wrappers
  import opened Text

  /** A calendar time as `datetime` holds it, to the second. */
  datatype DateTime = DateTime(year: int, month: int, day: int, hour: int, minute: int, second: int)

  predicate IsLeapYear(y: int) {
    y % 4 == 0 && (y % 100 != 0 || y % 400 == 0)
  }

  function DaysInMonth(y: int, m: int): int
    requires 1 <= m <= 12
  {
    if m == 2 then (if IsLeapYear(y) then 29 else 28)
    else if m == 4 || m == 6 || m == 9 || m == 11 then 30
    else 31
  }

  /** The values `datetime` accepts (years 1 to 9999). */
  predicate ValidDateTime(t: DateTime) {
    && 1 <= t.year <= 9999
    && 1 <= t.month <= 12
    && 1 <= t.day <= DaysInMonth(t.year, t.month)
    && 0 <= t.hour < 24
    && 0 <= t.minute < 60
    && 0 <= t.second < 60
  }

  /** `a` is strictly earlier than `b`. */
  predicate Before(a: DateTime, b: DateTime) {
    a.year < b.year || (a.year == b.year &&
    (a.month < b.month || (a.month == b.month &&
    (a.day < b.day || (a.day == b.day &&
    (a.hour < b.hour || (a.hour == b.hour &&
    (a.minute < b.minute || (a.minute == b.minute &&
    a.second < b.second)))))))))
  }

  /**
   * `strftime("%Y%m%d_%H%M%S")`. Month, day, hour, minute and second take two
   * digits with a leading zero; the year is printed as C's strftime prints it
   * on glibc, without padding.
   */
  function Compact(t: DateTime): (r: string)
    requires ValidDateTime(t)
    ensures 1000 <= t.year ==> |r| == 15 && AllDigits(r[..8]) && r[8] == '_' && AllDigits(r[9..])
  {
    var date := Decimal(t.year) + Padded(t.month, 2) + Padded(t.day, 2);
    var clock := Padded(t.hour, 2) + Padded(t.minute, 2) + Padded(t.second, 2);
    AllDigitsConcat(Decimal(t.year), Padded(t.month, 2));
    AllDigitsConcat(Decimal(t.year) + Padded(t.month, 2), Padded(t.day, 2));
    AllDigitsConcat(Padded(t.hour, 2), Padded(t.minute, 2));
    AllDigitsConcat(Padded(t.hour, 2) + Padded(t.minute, 2), Padded(t.second, 2));
    if 1000 <= t.year then
      DecimalFourDigits(t.year);
      SplitAt(date, "_", clock);
      date + "_" + clock
    else
      date + "_" + clock
  }

  /** `ustvari_časovni_zig`: the UTC time as `%Y%m%d_%H%M%S_%Z`; `%Z` of a UTC time is "UTC". */
  function Stamp(t: DateTime): (r: string)
    requires ValidDateTime(t)
    ensures EndsWith(r, "_UTC")
    ensures 1000 <= t.year ==> |r| == 19 && AllDigits(r[..8]) && r[8] == '_' && AllDigits(r[9..15])
  {
    var r := Compact(t) + "_UTC";
    EndsWithAppended(Compact(t), "_UTC");
    assert 1000 <= t.year ==> r[..15] == Compact(t);
    r
  }

  /** Reads a stamp with a four-digit year back; the inverse of `Stamp`. */
  function ParseStamp(s: string): (r: Option<DateTime>)
    ensures r.Some? ==> ValidDateTime(r.value) && 1000 <= r.value.year
  {
    if |s| == 19 && AllDigits(s[..8]) && s[8] == '_' && AllDigits(s[9..15]) && s[15..] == "_UTC" then
      var t := DateTime(DigitsValue(s[..4]), DigitsValue(s[4..6]), DigitsValue(s[6..8]),
                        DigitsValue(s[9..11]), DigitsValue(s[11..13]), DigitsValue(s[13..15]));
      if ValidDateTime(t) && 1000 <= t.year then Some(t) else None
    else None
  }

  lemma StampRoundTrip(t: DateTime)
    requires ValidDateTime(t) && 1000 <= t.year
    ensures ParseStamp(Stamp(t)) == Some(t)
  {
    StampDateValues(t);
    StampClockValues(t);
  }

  /** The shape of a stamp: the date fields, an underscore, the clock fields and "_UTC". */
  lemma StampParts(t: DateTime)
    requires ValidDateTime(t) && 1000 <= t.year
    ensures var s := Stamp(t);
      |s| == 19 && s[..8] == DateFields(t) && s[9..15] == ClockFields(t)
  {
    assert Pow10(2) == 100 && Pow10(4) == 10000;
    CompactFields(t);
    assert Stamp(t)[..15] == Compact(t);
    SplitAt(DateFields(t), "_", ClockFields(t));
  }

  lemma StampDateValues(t: DateTime)
    requires ValidDateTime(t) && 1000 <= t.year
    ensures var s := Stamp(t);
      |s| == 19 && DigitsValue(s[..4]) == t.year && DigitsValue(s[4..6]) == t.month && DigitsValue(s[6..8]) == t.day
  {
    var s, date := Stamp(t), DateFields(t);
    StampParts(t);
    assert Pow10(2) == 100 && Pow10(4) == 10000;
    ReadFields(t.year, t.month, t.day, 4, 2, 2);
    assert s[..4] == date[..4] && s[4..6] == date[4..6] && s[6..8] == date[6..];
  }

  lemma StampClockValues(t: DateTime)
    requires ValidDateTime(t) && 1000 <= t.year
    ensures var s := Stamp(t);
      |s| == 19 && DigitsValue(s[9..11]) == t.hour && DigitsValue(s[11..13]) == t.minute && DigitsValue(s[13..15]) == t.second
  {
    var s, clock := Stamp(t), ClockFields(t);
    StampParts(t);
    assert Pow10(2) == 100;
    ReadFields(t.hour, t.minute, t.second, 2, 2, 2);
    assert s[9..11] == clock[..2] && s[11..13] == clock[2..4] && s[13..15] == clock[4..];
  }

  /** The three fields of a rendering read back as the numbers written. */
  lemma ReadFields(x1: nat, x2: nat, x3: nat, w1: nat, w2: nat, w3: nat)
    requires x1 < Pow10(w1) && x2 < Pow10(w2) && x3 < Pow10(w3)
    ensures var f := Fields(x1, x2, x3, w1, w2, w3);
      && |f| == w1 + w2 + w3
      && DigitsValue(f[..w1]) == x1
      && DigitsValue(f[w1..w1 + w2]) == x2
      && DigitsValue(f[w1 + w2..]) == x3
  {
    SplitAt(Padded(x1, w1), Padded(x2, w2), Padded(x3, w3));
    PaddedValue(x1, w1);
    PaddedValue(x2, w2);
    PaddedValue(x3, w3);
  }

  /** One fixed-width field followed by the rest. */
  lemma FieldOrder(x: nat, y: nat, w: nat, s: string, t: string)
    requires x < Pow10(w) && y < Pow10(w)
    ensures LexLess(Padded(x, w) + s, Padded(y, w) + t) <==> x < y || (x == y && LexLess(s, t))
  {
    LexLessConcat(Padded(x, w), s, Padded(y, w), t);
    PaddedOrder(x, y, w);
    PaddedInjective(x, y, w);
  }

  /** Three fixed-width fields written one after the other. */
  function Fields(x1: nat, x2: nat, x3: nat, w1: nat, w2: nat, w3: nat): string
    requires x1 < Pow10(w1) && x2 < Pow10(w2) && x3 < Pow10(w3)
  {
    Padded(x1, w1) + Padded(x2, w2) + Padded(x3, w3)
  }

  /** Three fixed-width fields followed by the rest compare field by field, then by the rest. */
  lemma FieldsOrder(x1: nat, x2: nat, x3: nat, y1: nat, y2: nat, y3: nat, w1: nat, w2: nat, w3: nat,
                    s: string, t: string)
    requires x1 < Pow10(w1) && y1 < Pow10(w1) && x2 < Pow10(w2) && y2 < Pow10(w2) && x3 < Pow10(w3) && y3 < Pow10(w3)
    ensures LexLess(Fields(x1, x2, x3, w1, w2, w3) + s, Fields(y1, y2, y3, w1, w2, w3) + t) <==>
      x1 < y1 || (x1 == y1 && (x2 < y2 || (x2 == y2 && (x3 < y3 || (x3 == y3 && LexLess(s, t))))))
  {
    var a3, b3 := Padded(x3, w3) + s, Padded(y3, w3) + t;
    var a2, b2 := Padded(x2, w2) + a3, Padded(y2, w2) + b3;
    FieldOrder(x3, y3, w3, s, t);
    FieldOrder(x2, y2, w2, a3, b3);
    FieldOrder(x1, y1, w1, a2, b2);
    Regroup(Padded(x1, w1), Padded(x2, w2), Padded(x3, w3), s);
    Regroup(Padded(y1, w1), Padded(y2, w2), Padded(y3, w3), t);
  }

  /** The date fields `%Y%m%d` of a time with a four-digit year. */
  function DateFields(t: DateTime): string
    requires ValidDateTime(t) && 1000 <= t.year
  {
    assert Pow10(2) == 100 && Pow10(4) == 10000;
    Fields(t.year, t.month, t.day, 4, 2, 2)
  }

  /** The clock fields `%H%M%S` of a time. */
  function ClockFields(t: DateTime): string
    requires ValidDateTime(t)
  {
    assert Pow10(2) == 100;
    Fields(t.hour, t.minute, t.second, 2, 2, 2)
  }

  /** With a four-digit year, the compact time is the date fields, an underscore and the clock fields. */
  lemma CompactFields(t: DateTime)
    requires ValidDateTime(t) && 1000 <= t.year
    ensures Compact(t) == DateFields(t) + "_" + ClockFields(t)
  {
    DecimalFourDigits(t.year);
  }

  lemma CompactThen(t: DateTime, suffix: string)
    requires ValidDateTime(t) && 1000 <= t.year
    ensures Compact(t) + suffix == DateFields(t) + ("_" + (ClockFields(t) + suffix))
  {
    CompactFields(t);
    Regroup(DateFields(t), "_", ClockFields(t), suffix);
  }

  lemma ClockOrder(a: DateTime, b: DateTime, suffix: string)
    requires ValidDateTime(a) && ValidDateTime(b)
    ensures LexLess("_" + (ClockFields(a) + suffix), "_" + (ClockFields(b) + suffix)) <==>
      a.hour < b.hour || (a.hour == b.hour && (a.minute < b.minute || (a.minute == b.minute && a.second < b.second)))
  {
    assert Pow10(2) == 100;
    LexLessIrreflexive(suffix);
    FieldsOrder(a.hour, a.minute, a.second, b.hour, b.minute, b.second, 2, 2, 2, suffix, suffix);
    LexLessConcat("_", ClockFields(a) + suffix, "_", ClockFields(b) + suffix);
  }

  /**
   * With four-digit years, compact times followed by the same suffix sort as
   * strings in chronological order.
   */
  lemma CompactOrder(a: DateTime, b: DateTime, suffix: string)
    requires ValidDateTime(a) && ValidDateTime(b) && 1000 <= a.year && 1000 <= b.year
    ensures LexLess(Compact(a) + suffix, Compact(b) + suffix) <==> Before(a, b)
  {
    CompactThen(a, suffix);
    CompactThen(b, suffix);
    ClockOrder(a, b, suffix);
    assert Pow10(2) == 100 && Pow10(4) == 10000;
    FieldsOrder(a.year, a.month, a.day, b.year, b.month, b.day, 4, 2, 2,
                "_" + (ClockFields(a) + suffix), "_" + (ClockFields(b) + suffix));
  }

  /** Stamps with four-digit years sort as strings exactly in chronological order. */
  lemma StampOrder(a: DateTime, b: DateTime)
    requires ValidDateTime(a) && ValidDateTime(b) && 1000 <= a.year && 1000 <= b.year
    ensures LexLess(Stamp(a), Stamp(b)) <==> Before(a, b)
  {
    CompactOrder(a, b, "_UTC");
  }

  /** The base name of the log file of a run started at `t`. */
  function LogBaseName(t: DateTime): (r: string)
    requires ValidDateTime(t)
    ensures |r| > 0 && r[0] == 'd' && EndsWith(r, ".json")
  {
    EndsWithAppended("dnevnik_" + Compact(t), ".json");
    "dnevnik_" + Compact(t) + ".json"
  }

  /** `nastavi_dnevnik`: the log file of a run started at UTC time `t` (creating the directory is not modelled). */
  function LogFileName(logDir: string, t: DateTime): (r: string)
    requires ValidDateTime(t)
    ensures EndsWith(r, ".json")
    ensures logDir != "" && !EndsWith(logDir, "/") ==> r == logDir + "/" + LogBaseName(t)
  {
    var name := LogBaseName(t);
    var r := PathJoin(logDir, name);
    EndsWithTransitive(r, name, ".json");
    r
  }

  lemma LogBaseNameOrder(a: DateTime, b: DateTime)
    requires ValidDateTime(a) && ValidDateTime(b) && 1000 <= a.year && 1000 <= b.year
    ensures LexLess(LogBaseName(a), LogBaseName(b)) <==> Before(a, b)
  {
    var ca, cb := Compact(a), Compact(b);
    assert LogBaseName(a) == "dnevnik_" + (ca + ".json");
    assert LogBaseName(b) == "dnevnik_" + (cb + ".json");
    LexLessConcat("dnevnik_", ca + ".json", "dnevnik_", cb + ".json");
    CompactOrder(a, b, ".json");
  }

  /** Log files of one directory sort by name in the order their runs started. */
  lemma LogFileOrder(logDir: string, a: DateTime, b: DateTime)
    requires ValidDateTime(a) && ValidDateTime(b) && 1000 <= a.year && 1000 <= b.year
    ensures LexLess(LogFileName(logDir, a), LogFileName(logDir, b)) <==> Before(a, b)
  {
    var p := JoinPrefix(logDir);
    var na, nb := LogBaseName(a), LogBaseName(b);
    assert LogFileName(logDir, a) == p + na && LogFileName(logDir, b) == p + nb;
    LexLessConcat(p, na, p, nb);
    LexLessIrreflexive(p);
    LogBaseNameOrder(a, b);
  }

  /** One JSON object of the log: key to value. */
  type Entry = map<string, string>

  const DefaultLevel := "INFO"
  const ErrorLevel := "NAPAKA"

  /** One call of `zapisi_v_dnevnik` made by a step: the level it passes and what its message reports. */
  datatype Logged<E> = Logged(level: string, event: E)

  /** Two steps logged one after the other log what they log together. */
  lemma LogsInOrder<E>(log: seq<Logged<E>>, first: seq<Logged<E>>, second: seq<Logged<E>>)
    ensures log + first + second == log + (first + second)
  {
  }

  /** A log that only grew still starts with any prefix it had. */
  lemma PrefixOfPrefix<E>(before: seq<Logged<E>>, after: seq<Logged<E>>, k: nat)
    requires k <= |before| <= |after| && after[..|before|] == before
    ensures after[..k] == before[..k]
  {
    assert after[..k] == after[..|before|][..k];
  }

  /** Python truthiness of the optional extra data: absent or empty is false. */
  predicate Truthy(extra: Option<string>)
  {
    extra.Some? && extra.value != ""
  }

  /** `e` is the entry `zapisi_v_dnevnik` builds for these arguments at time `time`. */
  predicate IsEntry(e: Entry, time: string, level: string, message: string, extra: Option<string>) {
    && e.Keys == {"casovni_zig", "raven", "sporocilo"} + (if Truthy(extra) then {"dodatni_podatki"} else {})
    && e["casovni_zig"] == time
    && e["raven"] == level
    && e["sporocilo"] == message
    && (Truthy(extra) ==> e["dodatni_podatki"] == extra.value)
  }

  /** The arguments of one call of `zapisi_v_dnevnik(ime_datoteke, sporocilo, raven="INFO", dodatni_podatki=None)`. */
  datatype LogArgs = LogArgs(file: string, message: string, level: string, extra: Option<string>)

  /**
   * How Python binds positional arguments to `zapisi_v_dnevnik`: the file
   * and the message are required, at most four are accepted, and a call
   * that breaks either rule raises TypeError (None here).
   */
  function BindLogArgs(args: seq<string>): (r: Option<LogArgs>)
    ensures r.Some? <==> 2 <= |args| <= 4
    ensures r.Some? ==> r.value.file == args[0] && r.value.message == args[1]
    ensures r.Some? && |args| == 2 ==> r.value.level == DefaultLevel && r.value.extra == None
  {
    if 2 <= |args| <= 4 then
      Some(LogArgs(args[0], args[1],
                   if |args| >= 3 then args[2] else DefaultLevel,
                   if |args| == 4 then Some(args[3]) else None))
    else None
  }

  /** The entries a log file holds before a write; a file that does not exist counts as an empty list. */
  function Previous(files: map<string, seq<Entry>>, name: string): seq<Entry> {
    if name in files then files[name] else []
  }

  /** The log files on disk, each a JSON list of entries. */
  class LogStore {
    var files: map<string, seq<Entry>>

    constructor (files: map<string, seq<Entry>>)
      ensures this.files == files
    {
      this.files := files;
    }

    /**
     * `zapisi_v_dnevnik`. `time` is the UTC `isoformat()` the clock gives;
     * `readOk` says whether an existing file parses as a JSON list and
     * `writeOk` whether it can be rewritten. A failure is swallowed: the
     * caller sees only that nothing changed.
     */
    method Write(name: string, time: string, message: string, level: string, extra: Option<string>,
                 readOk: bool, writeOk: bool) returns (written: bool)
      modifies this
      ensures written == ((name !in old(files) || readOk) && writeOk)
      ensures !written ==> files == old(files)
      ensures written ==> name in files && files == old(files)[name := files[name]]
      ensures written ==> var prev := Previous(old(files), name);
        |files[name]| == |prev| + 1 && files[name][..|prev|] == prev
        && IsEntry(files[name][|prev|], time, level, message, extra)
    {
      var vnos: Entry := map["casovni_zig" := time, "raven" := level, "sporocilo" := message];
      if Truthy(extra) {
        vnos := vnos["dodatni_podatki" := extra.value];
      }
      var vnosi: seq<Entry>;
      if name in files {
        if !readOk {
          return false;
        }
        vnosi := files[name];
      } else {
        vnosi := [];
      }
      vnosi := vnosi + [vnos];
      if !writeOk {
        return false;
      }
      files := files[name := vnosi];
      written := true;
    }
  }
}
