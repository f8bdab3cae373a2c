/**
 * The public id given to an uploaded image: the local date and time on a
 * 12-hour clock and a random number, joined with dashes
 * (`month-date-year-hours-minutes-seconds-ampm-randomId`).
 * The clock and `Math.random` are inputs here.
 */
module UploadFileName {
  import opened Wrappers
  import opened Decimal

  /** The fields read from a `Date`; `month0` is `getMonth()`, counted from 0. */
  datatype Clock = Clock(year: nat, month0: nat, date: nat, hours: nat, minutes: nat, seconds: nat)

  /** The ranges a `Date` guarantees for its local-time getters. */
  predicate ValidClock(c: Clock) {
    c.month0 < 12 && 1 <= c.date <= 31 && c.hours < 24 && c.minutes < 60 && c.seconds < 60
  }

  /** The largest value of `Math.floor(Math.random() * 1000000)`. */
  const MaxRandomId := 999999

  /** The hour on a 12-hour clock: `hours % 12 || 12`. */
  function DisplayHour(hours: nat): (h: nat)
    ensures 1 <= h <= 12
    ensures h % 12 == hours % 12
    ensures hours % 12 == 0 <==> h == 12
  {
    var h := hours % 12;
    if h != 0 then h else 12
  }

  /** The suffix: "pm" from noon on, "am" before. */
  function AmPm(hours: nat): (s: string)
    ensures s == "pm" <==> hours >= 12
    ensures s == "am" <==> hours < 12
  {
    if hours >= 12 then "pm" else "am"
  }

  /** Two-digit form: `n.toString().padStart(2, "0")`. */
  function TwoDigits(n: nat): (s: string)
    ensures |s| >= 2 && AllDigits(s)
  {
    ParsePadded(NatToString(n), 2);
    PadStart(NatToString(n), 2, '0')
  }

  /**
   * The template literal: the fields in order, joined with "-". The name is a
   * faithful record: the month counted from 1, the date, the year, the
   * 12-hour hour, the minutes, the seconds, the suffix and the random number
   * can all be read back from it.
   */
  function GenerateFileName(c: Clock, randomId: nat): (name: string)
    requires ValidClock(c) && randomId <= MaxRandomId
    ensures ParseFileName(name) ==
      Some(Stamp(c.month0 + 1, c.date, c.year, DisplayHour(c.hours), c.minutes, c.seconds,
                 AmPm(c.hours), randomId))
  {
    NameSplits(c, randomId);
    FieldsRead(c, randomId);
    JoinDash(NameFields(c, randomId))
  }

  /** The fields of the name, in order; the hour and the year are not padded. */
  function NameFields(c: Clock, randomId: nat): seq<string> {
    [TwoDigits(c.month0 + 1), TwoDigits(c.date), NatToString(c.year),
     NatToString(DisplayHour(c.hours)), TwoDigits(c.minutes), TwoDigits(c.seconds),
     AmPm(c.hours), NatToString(randomId)]
  }

  /** `parts.join("-")`. */
  function JoinDash(parts: seq<string>): string {
    if parts == [] then ""
    else if |parts| == 1 then parts[0]
    else parts[0] + "-" + JoinDash(parts[1..])
  }

  // ---------------------------------------------------------------------------
  // Reading a name back

  /** Splitting on "-", as `name.split("-")` does. */
  function SplitDash(s: string): (parts: seq<string>)
    ensures |parts| >= 1
    decreases |s|
  {
    if s == [] then [""]
    else
      var rest := SplitDash(s[1..]);
      if s[0] == '-' then [""] + rest else [[s[0]] + rest[0]] + rest[1..]
  }

  /** No character is a dash (stated from the front, as the name is split). */
  predicate NoDash(s: string) {
    s == [] || (s[0] != '-' && NoDash(s[1..]))
  }

  lemma {:induction false} NoDashSnoc(s: string, c: char)
    requires NoDash(s) && c != '-'
    ensures NoDash(s + [c])
    decreases |s|
  {
    if s != [] {
      NoDashSnoc(s[1..], c);
      assert (s + [c])[1..] == s[1..] + [c];
    }
  }

  lemma {:induction false} SplitNoDash(s: string, t: string)
    requires NoDash(s)
    ensures SplitDash(s + t) == [s + SplitDash(t)[0]] + SplitDash(t)[1..]
    decreases |s|
  {
    var T := SplitDash(t);
    if s == [] {
      assert s + t == t && s + T[0] == T[0];
      assert [T[0]] + T[1..] == T;
    } else {
      SplitNoDash(s[1..], t);
      assert (s + t)[1..] == s[1..] + t;
      assert (s + t)[0] == s[0] != '-';
      var rest := SplitDash(s[1..] + t);
      assert rest[0] == s[1..] + T[0] && rest[1..] == T[1..];
      assert [s[0]] + (s[1..] + T[0]) == s + T[0];
    }
  }

  /** What a name says, once read back. */
  datatype Stamp = Stamp(month: nat, date: nat, year: nat, hour12: nat, minutes: nat, seconds: nat, ampm: string, randomId: nat)

  function ReadNumber(s: string): Option<nat> {
    if s != [] && AllDigits(s) then Some(ParseDigits(s)) else None
  }

  /** Parses a name of eight dash-separated fields. */
  function ParseFileName(name: string): Option<Stamp> {
    var f := SplitDash(name);
    if |f| == 8 then StampOf(f) else None
  }

  function StampOf(f: seq<string>): Option<Stamp>
    requires |f| == 8
  {
    var month, date, year := ReadNumber(f[0]), ReadNumber(f[1]), ReadNumber(f[2]);
    var hour, minutes, seconds := ReadNumber(f[3]), ReadNumber(f[4]), ReadNumber(f[5]);
    var randomId := ReadNumber(f[7]);
    if month.Some? && date.Some? && year.Some? && hour.Some? && minutes.Some? &&
       seconds.Some? && randomId.Some?
    then Some(Stamp(month.value, date.value, year.value, hour.value, minutes.value,
                    seconds.value, f[6], randomId.value))
    else None
  }

  /** Splitting a "-"-join of dash-free parts gives the parts back. */
  lemma {:induction false} SplitJoin(parts: seq<string>)
    requires |parts| >= 1
    requires forall i :: 0 <= i < |parts| ==> NoDash(parts[i])
    ensures SplitDash(JoinDash(parts)) == parts
    decreases |parts|
  {
    if |parts| == 1 {
      SplitLast(parts[0]);
    } else {
      SplitJoin(parts[1..]);
      SplitStep(parts[0], JoinDash(parts[1..]));
      assert parts == [parts[0]] + parts[1..];
    }
  }

  lemma SplitEight(a: string, b: string, c: string, d: string, e: string, f: string, g: string, h: string)
    requires NoDash(a) && NoDash(b) && NoDash(c) && NoDash(d)
    requires NoDash(e) && NoDash(f) && NoDash(g) && NoDash(h)
    ensures SplitDash(JoinDash([a, b, c, d, e, f, g, h])) == [a, b, c, d, e, f, g, h]
  {
    SplitJoin([a, b, c, d, e, f, g, h]);
  }

  lemma SplitLast(s: string)
    requires NoDash(s)
    ensures SplitDash(s) == [s]
  {
    SplitNoDash(s, "");
    assert s + "" == s;
  }

  lemma SplitStep(s: string, t: string)
    requires NoDash(s)
    ensures SplitDash(s + "-" + t) == [s] + SplitDash(t)
  {
    SplitNoDash(s, "-" + t);
    assert s + "-" + t == s + ("-" + t);
    assert ("-" + t)[1..] == t;
    assert s + "" == s;
  }

  lemma StampOfNumbers(a: string, b: string, c: string, d: string, e: string, f: string, g: string, h: string,
                       month: nat, date: nat, year: nat, hour: nat, minutes: nat, seconds: nat, randomId: nat)
    requires ReadNumber(a) == Some(month) && ReadNumber(b) == Some(date)
    requires ReadNumber(c) == Some(year) && ReadNumber(d) == Some(hour)
    requires ReadNumber(e) == Some(minutes) && ReadNumber(f) == Some(seconds)
    requires ReadNumber(h) == Some(randomId)
    ensures StampOf([a, b, c, d, e, f, g, h]) == Some(Stamp(month, date, year, hour, minutes, seconds, g, randomId))
  {
  }

  lemma {:induction false} DigitsNoDash(s: string)
    requires AllDigits(s)
    ensures NoDash(s)
    decreases |s|
  {
    if s != [] {
      DigitsNoDash(s[..|s| - 1]);
      NoDashSnoc(s[..|s| - 1], s[|s| - 1]);
      assert s[..|s| - 1] + [s[|s| - 1]] == s;
    }
  }

  lemma ReadTwoDigits(n: nat)
    ensures ReadNumber(TwoDigits(n)) == Some(n)
  {
    ParsePadded(NatToString(n), 2);
    ParseNatToString(n);
  }

  lemma ReadNat(n: nat)
    ensures ReadNumber(NatToString(n)) == Some(n)
  {
    ParseNatToString(n);
  }

  /** The name splits back into its eight fields. */
  lemma NameSplits(c: Clock, randomId: nat)
    ensures SplitDash(JoinDash(NameFields(c, randomId))) == NameFields(c, randomId)
  {
    TwoDigitsNoDash(c.month0 + 1);
    TwoDigitsNoDash(c.date);
    NatNoDash(c.year);
    NatNoDash(DisplayHour(c.hours));
    TwoDigitsNoDash(c.minutes);
    TwoDigitsNoDash(c.seconds);
    AmPmNoDash(c.hours);
    NatNoDash(randomId);
    SplitEight(TwoDigits(c.month0 + 1), TwoDigits(c.date), NatToString(c.year),
               NatToString(DisplayHour(c.hours)), TwoDigits(c.minutes), TwoDigits(c.seconds),
               AmPm(c.hours), NatToString(randomId));
  }

  lemma TwoDigitsNoDash(n: nat)
    ensures NoDash(TwoDigits(n))
  {
    DigitsNoDash(TwoDigits(n));
  }

  lemma AmPmNoDash(hours: nat)
    ensures NoDash(AmPm(hours))
  {
  }

  lemma NatNoDash(n: nat)
    ensures NoDash(NatToString(n))
  {
    DigitsNoDash(NatToString(n));
  }

  /** Each numeric field reads back as the number it renders. */
  lemma FieldsRead(c: Clock, randomId: nat)
    ensures StampOf(NameFields(c, randomId)) ==
      Some(Stamp(c.month0 + 1, c.date, c.year, DisplayHour(c.hours), c.minutes, c.seconds,
                 AmPm(c.hours), randomId))
  {
    ReadTwoDigits(c.month0 + 1);
    ReadTwoDigits(c.date);
    ReadNat(c.year);
    ReadNat(DisplayHour(c.hours));
    ReadTwoDigits(c.minutes);
    ReadTwoDigits(c.seconds);
    ReadNat(randomId);
    StampOfNumbers(TwoDigits(c.month0 + 1), TwoDigits(c.date), NatToString(c.year),
                   NatToString(DisplayHour(c.hours)), TwoDigits(c.minutes), TwoDigits(c.seconds),
                   AmPm(c.hours), NatToString(randomId),
                   c.month0 + 1, c.date, c.year, DisplayHour(c.hours), c.minutes, c.seconds, randomId);
  }

  /** Month, date, minutes and seconds are padded to exactly two characters. */
  lemma {:induction false} TwoDigitsWidth(n: nat)
    requires n < 100
    ensures |TwoDigits(n)| == 2
  {
    if n >= 10 {
      assert NatToString(n) == NatToString(n / 10) + [DigitChar(n % 10)];
    }
  }

  /** The hour is not padded: a one-digit hour takes one character. */
  lemma HourWidth(hours: nat)
    ensures |NatToString(DisplayHour(hours))| == (if DisplayHour(hours) < 10 then 1 else 2)
  {
    var h := DisplayHour(hours);
    if h >= 10 {
      assert NatToString(h) == NatToString(h / 10) + [DigitChar(h % 10)];
    }
  }

  /** The random suffix has between one and six digits. */
  lemma {:induction false} RandomIdWidth(randomId: nat)
    requires randomId <= MaxRandomId
    ensures 1 <= |NatToString(randomId)| <= 6
  {
    NatToStringBelow(randomId, 6);
  }

  lemma {:induction false} NatToStringBelow(n: nat, k: nat)
    requires n < Pow10(k)
    ensures |NatToString(n)| <= if k == 0 then 1 else k
    decreases k
  {
    if n >= 10 {
      assert k >= 2;
      NatToStringBelow(n / 10, k - 1);
    }
  }

  function Pow10(k: nat): (p: nat)
    ensures p >= 1
  {
    if k == 0 then 1 else 10 * Pow10(k - 1)
  }
}
