/** The elapsed time since startup, as `startup_elapsed_flag` prints it. */
module ElapsedStamp {
  import opened Numerals

  const MILLI: nat := 1_000_000
  const SECOND: nat := 1000 * MILLI
  const MINUTE: nat := 60 * SECOND
  const HOUR: nat := 60 * MINUTE

  datatype Fields = Fields(hours: nat, minutes: nat, seconds: nat, millis: nat)

  /** From nanoseconds; every field but the first is taken modulo the next larger unit. */
  function Split(elapsed: nat): Fields {
    Fields(elapsed / HOUR, elapsed / MINUTE % 60, elapsed / SECOND % 60, elapsed / MILLI % 1000)
  }

  function Stamp(elapsed: nat): string {
    var f := Split(elapsed);
    "+" +
    if elapsed >= HOUR then
      Print(f.hours, 10) + ("h" + (Padded(f.minutes, 10, 2) + ("m" +
        (Padded(f.seconds, 10, 2) + ("." + (Padded(f.millis, 10, 3) + "s"))))))
    else if elapsed >= MINUTE then
      Print(f.minutes, 10) + ("m" + (Padded(f.seconds, 10, 2) + ("." + (Padded(f.millis, 10, 3) + "s"))))
    else
      Print(f.seconds, 10) + ("." + (Padded(f.millis, 10, 3) + "s"))
  }

  /** The fields recombine to the whole milliseconds, and the chosen format omits only fields that are zero. */
  lemma SplitRecombines(elapsed: nat)
    ensures var f := Split(elapsed);
      && ((f.hours * 60 + f.minutes) * 60 + f.seconds) * 1000 + f.millis == elapsed / 1_000_000
      && f.minutes < 60 && f.seconds < 60 && f.millis < 1000
      && (elapsed < 3_600_000_000_000 <==> f.hours == 0)
      && (elapsed < 60_000_000_000 <==> f.hours == 0 && f.minutes == 0)
  {
    Nested(elapsed, MILLI, 1000);
    Nested(elapsed, SECOND, 60);
    Nested(elapsed, MINUTE, 60);
  }

  /** Dividing twice is dividing by the product. */
  lemma Nested(n: nat, a: nat, b: nat)
    requires a > 0 && b > 0
    ensures a * b > 0
    ensures n / a / b == n / (a * b)
    ensures n / a == n / (a * b) * b + n / a % b
  {
    var q, r := n / a, n % a;
    NestedProduct(n, a, b, q, r, q / b, q % b);
    Unique(n, a * b, q / b, q % b * a + r);
  }

  lemma NestedProduct(n: nat, a: nat, b: nat, q: nat, r: nat, q': nat, r': nat)
    requires n == q * a + r && r < a && q == q' * b + r' && r' < b
    ensures n == q' * (a * b) + (r' * a + r)
    ensures 0 <= r' * a + r < a * b
  {
    assert (q' * b + r') * a == (q' * b) * a + r' * a;
    Commute(q', b, a);
    Below(r', b, a);
  }

  lemma Commute(x: nat, y: nat, z: nat)
    ensures (x * y) * z == x * (z * y)
  {
  }

  lemma Below(x: nat, y: nat, a: nat)
    requires x < y && a > 0
    ensures 0 <= x * a && x * a + a <= a * y
  {
    assert (x + 1) * a <= y * a;
    assert (x + 1) * a == x * a + a;
  }

  lemma Unique(n: nat, d: nat, q: nat, r: nat)
    requires d > 0 && n == q * d + r && r < d
    ensures n / d == q
  {
    var q' := n / d;
    Scale(q, q', d);
    Scale(q', q, d);
  }

  lemma Scale(x: int, y: int, d: nat)
    ensures x < y ==> (x + 1) * d <= y * d
    ensures (x + 1) * d == x * d + d
  {
  }

  // ---------------------------------------------------------------------------------------------
  // Reading a stamp

  /** The number at the start of a text, the character behind it and the rest. */
  function Field(t: string): (int, char, string) {
    var n := Span(t, 10);
    (Value(t[..n], 10), if n < |t| then t[n] else '?', if n < |t| then t[n + 1..] else [])
  }

  function Pow10(n: nat): (p: nat)
    ensures p > 0
  {
    if n == 0 then 1 else 10 * Pow10(n - 1)
  }

  /** The digits behind the point are a decimal fraction of a second. */
  function ReadMillis(seconds: int, t: string): int {
    seconds * 1000 + Field(t).0 * 1000 / Pow10(Span(t, 10))
  }

  function ReadSeconds(minutes: int, t: string): int {
    var f := Field(t);
    ReadMillis(minutes * 60 + f.0, f.2)
  }

  function ReadMinutes(hours: int, t: string): int {
    var f := Field(t);
    ReadSeconds(hours * 60 + f.0, f.2)
  }

  /** The whole milliseconds that a stamp says; only the text is read. */
  function Read(stamp: string): int {
    if stamp == [] then -1
    else
      var f := Field(stamp[1..]);
      if f.1 == 'h' then ReadMinutes(f.0, f.2)
      else if f.1 == 'm' then ReadSeconds(f.0, f.2)
      else ReadMillis(f.0, f.2)
  }

  lemma FieldOf(s: string, c: char, rest: string)
    requires Numeral(s, 10) && !(0 <= Digit(c) < 10)
    ensures Field(s + ([c] + rest)) == (Value(s, 10), c, rest)
  {
    var t := s + ([c] + rest);
    SpanOf(s, [c] + rest, 10);
    assert t[..|s|] == s && t[|s|] == c;
    assert t[|s| + 1..] == rest;
  }

  lemma MillisOf(seconds: int, millis: nat)
    requires millis < 1000
    ensures ReadMillis(seconds, Padded(millis, 10, 3) + "s") == seconds * 1000 + millis
  {
    PaddedIsNumeral(millis, 10, 3);
    assert "s" == ['s'] + [];
    FieldOf(Padded(millis, 10, 3), 's', []);
    ThreeDigits(millis);
    SpanOf(Padded(millis, 10, 3), "s", 10);
    assert Pow10(3) == 10 * Pow10(2) == 100 * Pow10(1) == 1000;
  }

  lemma ThreeDigits(n: nat)
    requires n < 1000
    ensures |Padded(n, 10, 3)| == 3
  {
    PaddedIsNumeral(n, 10, 3);
    PrintIsShort(n, 3);
  }

  lemma TwoDigits(n: nat)
    requires n < 60
    ensures |Padded(n, 10, 2)| == 2
  {
    PaddedIsNumeral(n, 10, 2);
    PrintIsShort(n, 2);
  }

  lemma {:induction false} PrintIsShort(n: nat, width: nat)
    requires n < Pow10(width) && width >= 1
    ensures |Print(n, 10)| <= width
    decreases width
  {
    assert width == 1 ==> Pow10(width - 1) == 1;
    if n >= 10 {
      PrintIsShort(n / 10, width - 1);
    }
  }

  lemma SecondsOf(minutes: int, seconds: nat, rest: string)
    ensures ReadSeconds(minutes, Padded(seconds, 10, 2) + ("." + rest)) == ReadMillis(minutes * 60 + seconds, rest)
  {
    PaddedIsNumeral(seconds, 10, 2);
    FieldOf(Padded(seconds, 10, 2), '.', rest);
  }

  lemma MinutesOf(hours: int, minutes: nat, rest: string)
    ensures ReadMinutes(hours, Padded(minutes, 10, 2) + ("m" + rest)) == ReadSeconds(hours * 60 + minutes, rest)
  {
    PaddedIsNumeral(minutes, 10, 2);
    FieldOf(Padded(minutes, 10, 2), 'm', rest);
  }

  lemma FirstOf(n: nat, c: char, rest: string)
    requires c == 'h' || c == 'm' || c == '.'
    ensures Read("+" + (Print(n, 10) + ([c] + rest))) ==
      if c == 'h' then ReadMinutes(n, rest) else if c == 'm' then ReadSeconds(n, rest) else ReadMillis(n, rest)
  {
    PrintIsNumeral(n, 10);
    FieldOf(Print(n, 10), c, rest);
    var t := Print(n, 10) + ([c] + rest);
    assert ("+" + t)[1..] == t;
  }

  // ---------------------------------------------------------------------------------------------
  // The theorems

  /** The stamp loses nothing above a millisecond. */
  lemma StampReads(elapsed: nat)
    ensures Read(Stamp(elapsed)) == elapsed / 1_000_000
  {
    var f := Split(elapsed);
    SplitRecombines(elapsed);
    var millis := Padded(f.millis, 10, 3) + "s";
    var seconds := Padded(f.seconds, 10, 2) + ("." + millis);
    var minutes := Padded(f.minutes, 10, 2) + ("m" + seconds);
    if elapsed >= HOUR {
      FirstOf(f.hours, 'h', minutes);
      MinutesOf(f.hours, f.minutes, seconds);
      SecondsOf(f.hours * 60 + f.minutes, f.seconds, millis);
      MillisOf((f.hours * 60 + f.minutes) * 60 + f.seconds, f.millis);
    } else if elapsed >= MINUTE {
      FirstOf(f.minutes, 'm', seconds);
      SecondsOf(f.minutes, f.seconds, millis);
      MillisOf(f.minutes * 60 + f.seconds, f.millis);
    } else {
      FirstOf(f.seconds, '.', millis);
      MillisOf(f.seconds, f.millis);
    }
  }

  /** A number and the letter behind it: of exactly two digits behind a larger unit, without leading zeros in front. */
  ghost predicate Unit(t: string, n: nat, letter: char, padded: bool) {
    var x := t[..Span(t, 10)];
    && |x| < |t| && t[|x|] == letter && Value(x, 10) == n
    && if padded then |x| == 2 else x != [] && (|x| > 1 ==> x[0] != '0')
  }

  function Behind(t: string): string {
    var n := Span(t, 10);
    if n < |t| then t[n + 1..] else []
  }

  /** Seconds, and a decimal fraction of three digits. */
  ghost predicate SecondsRead(t: string, seconds: nat, millis: nat, padded: bool) {
    var x := Behind(t)[..Span(Behind(t), 10)];
    && Unit(t, seconds, '.', padded)
    && Behind(t) == x + "s" && |x| == 3 && Value(x, 10) * 1000 == millis * Pow10(|x|)
  }

  ghost predicate MinutesRead(t: string, minutes: nat, seconds: nat, millis: nat, padded: bool) {
    Unit(t, minutes, 'm', padded) && SecondsRead(Behind(t), seconds, millis, true)
  }

  ghost predicate HoursRead(t: string, hours: nat, minutes: nat, seconds: nat, millis: nat) {
    Unit(t, hours, 'h', false) && MinutesRead(Behind(t), minutes, seconds, millis, true)
  }

  lemma UnitOf(x: string, n: nat, letter: char, rest: string, padded: bool)
    requires Numeral(x, 10) && Value(x, 10) == n && !(0 <= Digit(letter) < 10)
    requires if padded then |x| == 2 else x != [] && (|x| > 1 ==> x[0] != '0')
    ensures Unit(x + ([letter] + rest), n, letter, padded) && Behind(x + ([letter] + rest)) == rest
  {
    var t := x + ([letter] + rest);
    SpanOf(x, [letter] + rest, 10);
    assert t[..|x|] == x && t[|x|] == letter && t[|x| + 1..] == rest;
  }

  lemma FirstUnit(n: nat, letter: char, rest: string)
    requires !(0 <= Digit(letter) < 10)
    ensures Unit(Print(n, 10) + ([letter] + rest), n, letter, false)
    ensures Behind(Print(n, 10) + ([letter] + rest)) == rest
  {
    PrintIsNumeral(n, 10);
    PrintIsMinimal(n, 10);
    UnitOf(Print(n, 10), n, letter, rest, false);
  }

  lemma NextUnit(n: nat, letter: char, rest: string)
    requires n < 60 && !(0 <= Digit(letter) < 10)
    ensures Unit(Padded(n, 10, 2) + ([letter] + rest), n, letter, true)
    ensures Behind(Padded(n, 10, 2) + ([letter] + rest)) == rest
  {
    PaddedIsNumeral(n, 10, 2);
    TwoDigits(n);
    UnitOf(Padded(n, 10, 2), n, letter, rest, true);
  }

  lemma FractionOf(millis: nat)
    requires millis < 1000
    ensures var x := Padded(millis, 10, 3);
      Span(x + "s", 10) == 3 == |x| && Value(x, 10) * 1000 == millis * Pow10(3) && (x + "s")[..3] == x
  {
    PaddedIsNumeral(millis, 10, 3);
    ThreeDigits(millis);
    SpanOf(Padded(millis, 10, 3), "s", 10);
    assert Pow10(3) == 10 * Pow10(2) == 100 * Pow10(1) == 1000;
  }

  /** The text itself: a plus, then only the units the duration reaches, each with its digits, its letter and the digits
  of the smaller ones padded, and the milliseconds as a decimal fraction. */
  lemma StampForm(elapsed: nat)
    ensures var t := Stamp(elapsed);
      var hours, minutes := elapsed / 3_600_000_000_000, elapsed / 60_000_000_000 % 60;
      var seconds, millis := elapsed / 1_000_000_000 % 60, elapsed / 1_000_000 % 1000;
      && t != [] && t[0] == '+'
      && if elapsed >= 3_600_000_000_000 then HoursRead(t[1..], hours, minutes, seconds, millis)
         else if elapsed >= 60_000_000_000 then MinutesRead(t[1..], minutes, seconds, millis, false)
         else SecondsRead(t[1..], seconds, millis, false)
  {
    var f := Split(elapsed);
    SplitRecombines(elapsed);
    var fraction := Padded(f.millis, 10, 3) + "s";
    var seconds := Padded(f.seconds, 10, 2) + ("." + fraction);
    var minutes := Padded(f.minutes, 10, 2) + ("m" + seconds);
    FractionOf(f.millis);
    assert Stamp(elapsed)[0] == '+';
    if elapsed >= HOUR {
      FirstUnit(f.hours, 'h', minutes);
      NextUnit(f.minutes, 'm', seconds);
      NextUnit(f.seconds, '.', fraction);
      assert Stamp(elapsed)[1..] == Print(f.hours, 10) + ("h" + minutes);
    } else if elapsed >= MINUTE {
      FirstUnit(f.minutes, 'm', seconds);
      NextUnit(f.seconds, '.', fraction);
      assert Stamp(elapsed)[1..] == Print(f.minutes, 10) + ("m" + seconds);
    } else {
      FirstUnit(f.seconds, '.', fraction);
      assert Stamp(elapsed)[1..] == Print(f.seconds, 10) + ("." + fraction);
    }
  }

  /** Two durations print alike exactly when their whole milliseconds agree. */
  lemma StampsAgree(d: nat, e: nat)
    ensures Stamp(d) == Stamp(e) <==> d / 1_000_000 == e / 1_000_000
  {
    StampReads(d);
    StampReads(e);
    if d / MILLI == e / MILLI {
      FieldsFromMillis(d);
      FieldsFromMillis(e);
      SplitRecombines(d);
      SplitRecombines(e);
    }
  }

  lemma FieldsFromMillis(elapsed: nat)
    ensures var m := elapsed / MILLI;
      Split(elapsed) == Fields(m / 3_600_000, m / 60_000 % 60, m / 1000 % 60, m % 1000)
  {
    Nested(elapsed, MILLI, 1000);
    Nested(elapsed, MILLI, 60_000);
    Nested(elapsed, MILLI, 3_600_000);
  }
}
