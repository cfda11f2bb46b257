/** The `"HH:MM"` text the entry editors keep in their time fields: how a
    `Date` is turned into it (`toTimeString().substring(0, 5)`) and how it is
    read back (`split(':').map(Number)`). */
module TimeText {
  import opened Seqs
  import opened CalendarTime

  predicate IsDigit(c: char) { '0' <= c <= '9' }

  predicate AllDigits(s: string) { forall i :: 0 <= i < |s| ==> IsDigit(s[i]) }

  function DigitChar(n: nat): (c: char)
    requires n < 10
    ensures IsDigit(c) && c as int - '0' as int == n
  {
    ('0' as int + n) as char
  }

  /** The decimal value of a string of digits. */
  function DigitsValue(s: string): nat
    requires AllDigits(s)
  {
    if s == [] then 0
    else DigitsValue(s[..|s| - 1]) * 10 + (s[|s| - 1] as int - '0' as int)
  }

  /** The value of two digits. */
  lemma TwoDigitsValue(s: string)
    requires |s| == 2 && AllDigits(s)
    ensures DigitsValue(s) == (s[0] as int - '0' as int) * 10 + (s[1] as int - '0' as int)
  {
    var first := s[..1];
    assert first[0] == s[0] && first[..0] == [];
    assert DigitsValue(first) == s[0] as int - '0' as int;
  }

  /** A number below 100 written with two digits, a leading zero if needed. */
  function Pad2(n: nat): (r: string)
    requires n < 100
    ensures |r| == 2 && AllDigits(r) && DigitsValue(r) == n
  {
    var r := [DigitChar(n / 10), DigitChar(n % 10)];
    TwoDigitsValue(r);
    r
  }

  /** The clock text `"HH:MM"` of an hour and a minute. */
  function ClockText(h: Hour, m: Minute): string {
    Pad2(h) + ":" + Pad2(m)
  }

  /** `formatTime(date)`: the first five characters of `toTimeString()`,
      which are the local hours and minutes. */
  function FormatTime(d: Date): (r: string)
    ensures |r| == 5 && r[2] == ':'
    ensures AllDigits(r[..2]) && AllDigits(r[3..])
    ensures DigitsValue(r[..2]) == d.hour && DigitsValue(r[3..]) == d.minute
  {
    var r := ClockText(d.hour, d.minute);
    assert r[..2] == Pad2(d.hour) && r[3..] == Pad2(d.minute);
    r
  }

  /** The text a time input of an editor can hold: two digits, a colon, two
      digits, naming an hour of the day and a minute of the hour. */
  predicate WellFormedTime(s: string) {
    && |s| == 5 && s[2] == ':'
    && AllDigits(s[..2]) && AllDigits(s[3..])
    && DigitsValue(s[..2]) < 24 && DigitsValue(s[3..]) < 60
  }

  /** The hours of a well-formed clock text. */
  function HoursOf(s: string): Hour
    requires WellFormedTime(s)
  {
    DigitsValue(s[..2])
  }

  /** The minutes of a well-formed clock text. */
  function MinutesOf(s: string): Minute
    requires WellFormedTime(s)
  {
    DigitsValue(s[3..])
  }

  /** `parts.join(sep)`. */
  function Join(parts: seq<string>, sep: char): string {
    if parts == [] then ""
    else if |parts| == 1 then parts[0]
    else parts[0] + [sep] + Join(parts[1..], sep)
  }

  /** `s.split(sep)`: the pieces between separators, never an empty list;
      joining them back with the separator gives `s` again. */
  function Split(s: string, sep: char): (parts: seq<string>)
    ensures |parts| >= 1
    ensures forall i :: 0 <= i < |parts| ==> sep !in parts[i]
    ensures Join(parts, sep) == s
  {
    if s == [] then [""]
    else
      var rest := Split(s[1..], sep);
      if s[0] == sep then
        assert s == [sep] + s[1..];
        [""] + rest
      else
        var parts := [[s[0]] + rest[0]] + rest[1..];
        assert parts[1..] == rest[1..];
        assert s == [s[0]] + s[1..];
        parts
  }

  /** JavaScript's `Number(s)` on the pieces a time field's value splits
      into: the empty string is 0 and a string of digits is its value. Every
      other string gives `None` (`NaN` for most of them; signs, spaces,
      decimals and exponents are outside what a time field produces). */
  function JsNumber(s: string): (r: Option<nat>)
    ensures AllDigits(s) <==> r.Some?
    ensures r.Some? ==> r.value == DigitsValue(s)
  {
    if AllDigits(s) then Some(DigitsValue(s)) else None
  }

  /** `const [h, m] = s.split(':').map(Number)`, as the arguments handed to
      `setHours`: `None` when either one is `NaN` or missing. Pieces after
      the second are ignored, as the destructuring ignores them. */
  function ParseTime(s: string): Option<(nat, nat)> {
    var parts := Split(s, ':');
    if |parts| < 2 then None
    else match (JsNumber(parts[0]), JsNumber(parts[1]))
      case (Some(h), Some(m)) => Some((h, m))
      case _ => None
  }

  /** Split on text without the separator is that text alone. */
  lemma SplitWithout(s: string, sep: char)
    requires sep !in s
    ensures Split(s, sep) == [s]
  {
  }

  /** Split on the first separator, when the text before it has none. */
  lemma {:induction false} SplitFirst(x: string, sep: char, y: string)
    requires sep !in x
    ensures Split(x + [sep] + y, sep) == [x] + Split(y, sep)
  {
    if x == [] {
      assert x + [sep] + y == [sep] + y;
    } else {
      SplitFirst(x[1..], sep, y);
      assert (x + [sep] + y)[1..] == x[1..] + [sep] + y;
      assert (x + [sep] + y)[0] == x[0];
      assert [x[0]] + x[1..] == x;
    }
  }

  /** Reading a well-formed clock text gives its hours and minutes. */
  lemma ParseWellFormed(s: string)
    requires WellFormedTime(s)
    ensures ParseTime(s) == Some((HoursOf(s), MinutesOf(s)))
  {
    var hh, mm := s[..2], s[3..];
    assert s == hh + [':'] + mm;
    assert ':' !in hh && ':' !in mm by {
      assert forall i :: 0 <= i < |hh| ==> IsDigit(hh[i]);
      assert forall i :: 0 <= i < |mm| ==> IsDigit(mm[i]);
    }
    SplitFirst(hh, ':', mm);
    SplitWithout(mm, ':');
    assert Split(s, ':') == [hh, mm];
  }

  /** `formatTime` yields well-formed clock text, and reading it back gives
      the hours and minutes of the date it came from. */
  lemma FormatTimeRoundTrip(d: Date)
    ensures WellFormedTime(FormatTime(d))
    ensures HoursOf(FormatTime(d)) == d.hour && MinutesOf(FormatTime(d)) == d.minute
    ensures ParseTime(FormatTime(d)) == Some((d.hour as nat, d.minute as nat))
  {
    ParseWellFormed(FormatTime(d));
  }

  /** A well-formed clock text is the `formatTime` of any date at that time. */
  lemma WellFormedIsFormatted(s: string, d: Date)
    requires WellFormedTime(s)
    ensures FormatTime(d.(hour := HoursOf(s), minute := MinutesOf(s))) == s
  {
    var r := FormatTime(d.(hour := HoursOf(s), minute := MinutesOf(s)));
    TwoDigitsDetermined(r[..2], s[..2]);
    TwoDigitsDetermined(r[3..], s[3..]);
    assert r == r[..2] + [':'] + r[3..];
    assert s == s[..2] + [':'] + s[3..];
  }

  /** Two two-digit strings with the same value are the same string. */
  lemma TwoDigitsDetermined(a: string, b: string)
    requires |a| == 2 && |b| == 2 && AllDigits(a) && AllDigits(b)
    requires DigitsValue(a) == DigitsValue(b)
    ensures a == b
  {
  }
}
