/** The string operations the order message is built from, each with the
    parser that reads its output back: decimal integers as template literals
    print them, `toFixed(2)` on an amount that is exact in cents, and
    `join`/`split` on a separator character. */
module Text {
  import opened Catalog

  predicate IsDigit(c: char) {
    '0' <= c <= '9'
  }

  predicate AllDigits(s: string) {
    forall i :: 0 <= i < |s| ==> IsDigit(s[i])
  }

  function DigitChar(d: nat): char
    requires d < 10
  {
    ('0' as int + d) as char
  }

  function DigitValue(c: char): nat
    requires IsDigit(c)
  {
    (c as int - '0' as int) as nat
  }

  lemma DigitRoundTrip(d: nat)
    requires d < 10
    ensures IsDigit(DigitChar(d)) && DigitValue(DigitChar(d)) == d
  {
  }

  /** The decimal digits of n, most significant first, without leading zeros. */
  function NatToString(n: nat): (s: string)
    decreases n
  {
    if n < 10 then [DigitChar(n)] else NatToString(n / 10) + [DigitChar(n % 10)]
  }

  /** How `${i}` prints an integer-valued number. */
  function IntToString(i: int): string {
    if i < 0 then "-" + NatToString(-i) else NatToString(i)
  }

  /** The value of a string of decimal digits. */
  function DigitsValue(s: string): nat
    requires AllDigits(s)
  {
    if s == [] then 0 else DigitsValue(s[..|s| - 1]) * 10 + DigitValue(s[|s| - 1])
  }

  /** Printing a natural number gives a non-empty run of digits whose value
      is that number, with no leading zero unless the number is zero. */
  lemma {:induction false} NatToStringRoundTrip(n: nat)
    ensures |NatToString(n)| >= 1 && AllDigits(NatToString(n))
    ensures DigitsValue(NatToString(n)) == n
    ensures NatToString(n)[0] == '0' ==> n == 0
    decreases n
  {
    var s := NatToString(n);
    if n < 10 {
      DigitRoundTrip(n);
    } else {
      NatToStringRoundTrip(n / 10);
      DigitRoundTrip(n % 10);
      assert s[..|s| - 1] == NatToString(n / 10);
    }
  }

  /** The length of the run of digits at the head of s. */
  function LeadingDigits(s: string): (n: nat)
    ensures n <= |s|
  {
    if s == [] || !IsDigit(s[0]) then 0 else 1 + LeadingDigits(s[1..])
  }

  lemma {:induction false} LeadingDigitsOf(digits: string, rest: string)
    requires AllDigits(digits)
    requires rest == [] || !IsDigit(rest[0])
    ensures LeadingDigits(digits + rest) == |digits|
  {
    if digits == [] {
      assert digits + rest == rest;
    } else {
      assert (digits + rest)[1..] == digits[1..] + rest;
      LeadingDigitsOf(digits[1..], rest);
    }
  }

  /** The length of the integer literal at the head of s: an optional minus
      sign and the digits after it. */
  function NumberLength(s: string): (n: nat)
    ensures n <= |s|
  {
    if s != [] && s[0] == '-' then 1 + LeadingDigits(s[1..]) else LeadingDigits(s)
  }

  /** Reads an integer printed by IntToString. */
  function ParseInt(s: string): Option<int> {
    if s != [] && s[0] == '-' then
      if |s| > 1 && AllDigits(s[1..]) then var v: int := DigitsValue(s[1..]); Some(-v) else None
    else if s != [] && AllDigits(s) then Some(DigitsValue(s))
    else None
  }

  /** Reading a printed integer back gives the integer, and the literal ends
      exactly where the next non-digit starts. */
  lemma IntToStringRoundTrip(i: int, rest: string)
    requires rest == [] || !IsDigit(rest[0])
    ensures ParseInt(IntToString(i)) == Some(i)
    ensures NumberLength(IntToString(i) + rest) == |IntToString(i)|
    ensures |IntToString(i)| >= 1 && '\n' !in IntToString(i)
  {
    var s := IntToString(i);
    if i < 0 {
      NatToStringRoundTrip(-i);
      assert s[1..] == NatToString(-i);
      assert (s + rest)[1..] == NatToString(-i) + rest;
      LeadingDigitsOf(NatToString(-i), rest);
      assert IsDigit(s[1]);
    } else {
      NatToStringRoundTrip(i);
      LeadingDigitsOf(NatToString(i), rest);
      assert IsDigit(s[0]);
    }
  }

  /** The magnitude of an amount of cents, printed with two decimals. */
  function MagnitudeText(magnitude: nat): string {
    NatToString(magnitude / 100) + "." + [DigitChar(magnitude % 100 / 10), DigitChar(magnitude % 10)]
  }

  /** `toFixed(2)` on an amount of `cents / 100` euros. */
  function ToFixed2(cents: int): string {
    if cents < 0 then "-" + MagnitudeText(-cents) else MagnitudeText(cents)
  }

  /** Reads back digits, a point and two decimals, in cents. */
  function ParseMagnitude(body: string): Option<nat> {
    if |body| >= 4 && body[|body| - 3] == '.' && AllDigits(body[..|body| - 3]) &&
       IsDigit(body[|body| - 2]) && IsDigit(body[|body| - 1])
    then
      Some(DigitsValue(body[..|body| - 3]) * 100 + DigitValue(body[|body| - 2]) * 10 + DigitValue(body[|body| - 1]))
    else None
  }

  /** Reads back an amount printed with two decimals, in cents. */
  function ParseFixed2(s: string): Option<int> {
    if s != [] && s[0] == '-' then
      match ParseMagnitude(s[1..])
      case Some(m) => var v: int := m; Some(-v)
      case None => None
    else
      match ParseMagnitude(s)
      case Some(m) => Some(m)
      case None => None
  }

  lemma MagnitudeRoundTrip(magnitude: nat)
    ensures ParseMagnitude(MagnitudeText(magnitude)) == Some(magnitude)
    ensures MagnitudeText(magnitude)[0] != '-'
  {
    var whole := NatToString(magnitude / 100);
    NatToStringRoundTrip(magnitude / 100);
    DigitRoundTrip(magnitude % 100 / 10);
    DigitRoundTrip(magnitude % 10);
    var body := MagnitudeText(magnitude);
    assert body[..|body| - 3] == whole;
    assert body[0] == whole[0];
    assert magnitude / 100 * 100 + magnitude % 100 / 10 * 10 + magnitude % 10 == magnitude;
  }

  /** The two-decimal text denotes the amount exactly. */
  lemma ToFixed2RoundTrip(cents: int)
    ensures ParseFixed2(ToFixed2(cents)) == Some(cents)
  {
    if cents < 0 {
      NegativeRoundTrip(cents);
    } else {
      PositiveRoundTrip(cents);
    }
  }

  /** A negative amount reads back through its sign and its magnitude. */
  lemma NegativeRoundTrip(cents: int)
    requires cents < 0
    ensures ParseFixed2(ToFixed2(cents)) == Some(cents)
  {
    var s := ToFixed2(cents);
    var m: nat := -cents;
    MagnitudeRoundTrip(m);
    assert s[0] == '-' && s[1..] == MagnitudeText(m);
    assert ParseMagnitude(s[1..]) == Some(m);
  }

  /** A non-negative amount reads back through its magnitude alone. */
  lemma PositiveRoundTrip(cents: int)
    requires cents >= 0
    ensures ParseFixed2(ToFixed2(cents)) == Some(cents)
  {
    MagnitudeRoundTrip(cents);
    assert ToFixed2(cents) == MagnitudeText(cents);
  }

  /** `lines.join([sep])`. */
  function Join(lines: seq<string>, sep: char): string {
    if lines == [] then ""
    else if |lines| == 1 then lines[0]
    else lines[0] + [sep] + Join(lines[1..], sep)
  }

  /** `s.split(sep)`: the pieces between separators; at least one piece. */
  function Split(s: string, sep: char): (r: seq<string>)
    ensures |r| >= 1
  {
    if s == [] then [""]
    else if s[0] == sep then [""] + Split(s[1..], sep)
    else
      var t := Split(s[1..], sep);
      [[s[0]] + t[0]] + t[1..]
  }

  lemma {:induction false} SplitPiece(a: string, sep: char)
    requires sep !in a
    ensures Split(a, sep) == [a]
  {
    if a != [] {
      SplitPiece(a[1..], sep);
      assert [a[0]] + a[1..] == a;
    }
  }

  lemma {:induction false} SplitAfterPiece(a: string, sep: char, rest: string)
    requires sep !in a
    ensures Split(a + [sep] + rest, sep) == [a] + Split(rest, sep)
  {
    if a == [] {
      assert a + [sep] + rest == [sep] + rest;
      assert ([sep] + rest)[1..] == rest;
    } else {
      var s := a + [sep] + rest;
      assert s[0] == a[0] && s[1..] == a[1..] + [sep] + rest;
      SplitAfterPiece(a[1..], sep, rest);
      assert [a[0]] + a[1..] == a;
    }
  }

  /** Splitting a join gives the lines back, as long as no line holds the
      separator. */
  lemma {:induction false} SplitJoin(lines: seq<string>, sep: char)
    requires |lines| >= 1
    requires forall i :: 0 <= i < |lines| ==> sep !in lines[i]
    ensures Split(Join(lines, sep), sep) == lines
  {
    if |lines| == 1 {
      SplitPiece(lines[0], sep);
    } else {
      SplitJoin(lines[1..], sep);
      SplitAfterPiece(lines[0], sep, Join(lines[1..], sep));
      assert [lines[0]] + lines[1..] == lines;
    }
  }

  /** The joined text is empty only when no line is given or the one line
      is empty. */
  lemma {:induction false} JoinEmpty(lines: seq<string>, sep: char)
    requires forall i :: 0 <= i < |lines| ==> lines[i] != ""
    ensures Join(lines, sep) == "" <==> lines == []
  {
    if |lines| == 1 {
    } else if |lines| > 1 {
      assert |Join(lines, sep)| >= |lines[0]| + 1;
    }
  }
}
