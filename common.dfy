/** Java library behaviour the TMM pipeline relies on: optional values, results,
    IEEE doubles with their special values, `String.split` with a one-character
    literal delimiter, `Integer.parseInt` and integer-to-text conversion. */
module Common {

  datatype Option<T> = None | Some(value: T)

  datatype Result<T, E> = Ok(value: T) | Err(error: E)

  /** A Java `double`: a finite value or one of the IEEE special values.
      Finite values are exact reals; rounding is not modelled. */
  datatype JDouble = Finite(v: real) | PosInfinity | NegInfinity | NaN

  /** Java's `x / d` where the divisor is a finite double; a zero divisor is +0.0. */
  function Divide(x: JDouble, d: real): (r: JDouble)
    ensures d != 0.0 && x.Finite? ==> r == Finite(x.v / d)
    ensures d == 0.0 && x.Finite? && x.v > 0.0 ==> r == PosInfinity
    ensures x.NaN? ==> r.NaN?
  {
    match x
    case NaN => NaN
    case Finite(a) =>
      if d != 0.0 then Finite(a / d)
      else if a > 0.0 then PosInfinity
      else if a < 0.0 then NegInfinity
      else NaN
    case PosInfinity => if d < 0.0 then NegInfinity else PosInfinity
    case NegInfinity => if d < 0.0 then PosInfinity else NegInfinity
  }

  /** Bounds of Java's 32-bit `int`. */
  const IntMin: int := -0x8000_0000
  const IntMax: int := 0x7FFF_FFFF

  /** Java's `Double.MAX_VALUE`, (2 - 2^-52) * 2^1023. */
  const MaxDouble: real := 179769313486231570814527423731704356798070567525844996598917476803157260780028538760589558632766878171540458953514382464234321326889464182768467546703537516986049910576551282076245490090389328944075868508455133942304583236903222948165808559332123348274797826204144723168738177180919299881250404026184124858368.0

  predicate Distinct<T(==)>(q: seq<T>)
  {
    forall p, r :: 0 <= p < r < |q| ==> q[p] != q[r]
  }

  /** `q` lists every element of `s` once, in some order. */
  predicate Enumerates<T(==)>(q: seq<T>, s: set<T>)
  {
    |q| == |s| && Distinct(q) && (forall x :: x in q ==> x in s) && forall x :: x in s ==> x in q
  }

  /** Iteration over a `HashMap` key set: every key once, in an order the
      model leaves open. */
  method Enumerate<T(==)>(s: set<T>) returns (q: seq<T>)
    ensures Enumerates(q, s)
  {
    q := [];
    var rest := s;
    while rest != {}
      invariant rest <= s && |q| + |rest| == |s| && Distinct(q)
      invariant forall x :: x in q <==> x in s && x !in rest
      decreases |rest|
    {
      var x :| x in rest;
      q := q + [x];
      rest := rest - {x};
    }
  }

  /** The first of `samples` missing from `seen`, the sample a
      validator's final loop reports. */
  function FirstMissing(samples: seq<string>, seen: set<string>): (r: Option<string>)
    ensures r.None? <==> forall s :: s in samples ==> s in seen
    ensures r.Some? ==> r.value in samples && r.value !in seen
  {
    if |samples| == 0 then None
    else if samples[0] !in seen then Some(samples[0])
    else FirstMissing(samples[1..], seen)
  }

  /** The final loop of the file validators: scans `samples` in order and
      stops at the first one missing from `seen`. */
  method FindMissing(samples: seq<string>, seen: set<string>) returns (r: Option<string>)
    ensures r == FirstMissing(samples, seen)
  {
    var i := 0;
    while i < |samples|
      invariant 0 <= i <= |samples|
      invariant FirstMissing(samples, seen) == FirstMissing(samples[i..], seen)
    {
      if samples[i] !in seen {
        return Some(samples[i]);
      }
      assert samples[i..][1..] == samples[i + 1..];
      i := i + 1;
    }
    return None;
  }

  // ---------------------------------------------------------------------
  // String.split
  // ---------------------------------------------------------------------

  /** Every piece between occurrences of `d`, empty pieces included. */
  function Pieces(s: string, d: char): (r: seq<string>)
    ensures |r| >= 1
  {
    if |s| == 0 then [""]
    else
      var rest := Pieces(s[1..], d);
      if s[0] == d then [""] + rest
      else [[s[0]] + rest[0]] + rest[1..]
  }

  /** Removes the empty strings at the end of `t`, and only those. */
  function DropTrailingEmpty(t: seq<string>): (r: seq<string>)
    ensures |r| <= |t| && r == t[..|r|]
    ensures |r| > 0 ==> r[|r| - 1] != ""
    ensures forall k :: |r| <= k < |t| ==> t[k] == ""
  {
    if |t| == 0 then []
    else if t[|t| - 1] == "" then DropTrailingEmpty(t[..|t| - 1])
    else t
  }

  /** Java's `s.split(d)` for a delimiter that is not a regular-expression
      metacharacter: no match gives `[s]` (so `""` gives `[""]`); otherwise the
      pieces with trailing empty pieces removed (`"a\t\t"` gives `["a"]`). */
  function Split(s: string, d: char): seq<string>
  {
    if d !in s then [s] else DropTrailingEmpty(Pieces(s, d))
  }

  lemma {:induction false} PiecesWithout(x: string, d: char)
    requires d !in x
    ensures Pieces(x, d) == [x]
  {
    if |x| > 0 {
      PiecesWithout(x[1..], d);
      assert [x[0]] + x[1..] == x;
    }
  }

  lemma {:induction false} PiecesAfter(x: string, d: char, y: string)
    requires d !in x
    ensures Pieces(x + [d] + y, d) == [x] + Pieces(y, d)
  {
    var s := x + [d] + y;
    if |x| == 0 {
      assert s[1..] == y;
    } else {
      assert s[1..] == x[1..] + [d] + y;
      PiecesAfter(x[1..], d, y);
      assert [x[0]] + x[1..] == x;
    }
  }

  lemma {:induction false} PiecesAppend(s: string, d: char, y: string)
    requires d !in y
    ensures Pieces(s + [d] + y, d) == Pieces(s, d) + [y]
  {
    if |s| == 0 {
      assert s + [d] + y == [d] + y;
      assert ([d] + y)[1..] == y;
      PiecesWithout(y, d);
    } else {
      assert (s + [d] + y)[1..] == s[1..] + [d] + y;
      PiecesAppend(s[1..], d, y);
    }
  }

  /** The `i`-th field of `line` split on `d`, or "" when there is none. */
  function Field(line: string, d: char, i: nat): string
  {
    var t := Split(line, d);
    if i < |t| then t[i] else ""
  }

  /** A line made of three tab-free fields splits back into those fields,
      provided the last one is not empty. */
  lemma SplitThree(a: string, b: string, c: string, d: char)
    requires d !in a && d !in b && d !in c && c != ""
    ensures Split(a + [d] + b + [d] + c, d) == [a, b, c]
  {
    var s := a + [d] + b + [d] + c;
    assert s == a + [d] + (b + [d] + c);
    PiecesAfter(a, d, b + [d] + c);
    PiecesAfter(b, d, c);
    PiecesWithout(c, d);
    assert s[|a|] == d;
  }

  /** A line made of two tab-free fields splits back into those fields,
      provided the last one is not empty. */
  lemma SplitTwo(a: string, b: string, d: char)
    requires d !in a && d !in b && b != ""
    ensures Split(a + [d] + b, d) == [a, b]
  {
    PiecesAfter(a, d, b);
    PiecesWithout(b, d);
    assert (a + [d] + b)[|a|] == d;
  }

  /** Java's `String.contains` for a substring. */
  predicate Contains(s: string, t: string)
    decreases |s|
  {
    |t| <= |s| && (s[..|t|] == t || Contains(s[1..], t))
  }

  /** Concatenation of a sequence of strings. */
  function Concat(ss: seq<string>): string
  {
    if |ss| == 0 then "" else Concat(ss[..|ss| - 1]) + ss[|ss| - 1]
  }

  /** The text a `PrintWriter` produces when each line is followed by `sep`. */
  function Render(lines: seq<string>, sep: string): string
  {
    if |lines| == 0 then "" else Render(lines[..|lines| - 1], sep) + lines[|lines| - 1] + sep
  }

  /** Rendering one more line appends it and the separator. */
  lemma RenderStep(lines: seq<string>, n: nat, sep: string)
    requires n < |lines|
    ensures Render(lines[..n + 1], sep) == Render(lines[..n], sep) + lines[n] + sep
  {
    assert lines[..n + 1][..n] == lines[..n];
  }

  // ---------------------------------------------------------------------
  // Integers as text
  // ---------------------------------------------------------------------

  function DigitChar(n: nat): char
    requires n < 10
  {
    "0123456789"[n]
  }

  predicate IsDigit(c: char) { '0' <= c <= '9' }

  predicate AllDigits(s: string) { forall k :: 0 <= k < |s| ==> IsDigit(s[k]) }

  /** Decimal value of a string of ASCII digits. */
  function DecimalValue(s: string): nat
    requires AllDigits(s)
  {
    if |s| == 0 then 0
    else DecimalValue(s[..|s| - 1]) * 10 + (s[|s| - 1] as int - '0' as int)
  }

  /** Java's `Integer.toString` for a non-negative value. */
  function NatToString(n: nat): (s: string)
    ensures |s| >= 1 && AllDigits(s)
  {
    if n < 10 then [DigitChar(n)] else NatToString(n / 10) + [DigitChar(n % 10)]
  }

  /** Java's `"" + i` for an `int`. */
  function IntToString(i: int): string
  {
    if i < 0 then "-" + NatToString(-i) else NatToString(i)
  }

  /** Java's `Integer.parseInt(s)`: an optional sign, at least one decimal digit,
      and a value inside the 32-bit range; anything else is a NumberFormatException. */
  function ParseInt(s: string): (r: Option<int>)
    ensures r.Some? ==> IntMin <= r.value <= IntMax
  {
    if |s| == 0 then None
    else
      var signed := s[0] == '-' || s[0] == '+';
      var digits := if signed then s[1..] else s;
      if |digits| == 0 || !AllDigits(digits) then None
      else
        var magnitude: int := DecimalValue(digits);
        var value := if s[0] == '-' then -magnitude else magnitude;
        if IntMin <= value <= IntMax then Some(value) else None
  }

  lemma {:induction false} DecimalOfNatToString(n: nat)
    ensures DecimalValue(NatToString(n)) == n
  {
    if n >= 10 {
      var s := NatToString(n / 10) + [DigitChar(n % 10)];
      assert s[..|s| - 1] == NatToString(n / 10);
      DecimalOfNatToString(n / 10);
    }
  }

  lemma ParseUnsigned(s: string)
    requires |s| > 0 && AllDigits(s) && DecimalValue(s) <= IntMax
    ensures ParseInt(s) == Some(DecimalValue(s))
  {
    assert IsDigit(s[0]);
  }

  lemma ParseNegative(s: string)
    requires |s| > 0 && AllDigits(s) && DecimalValue(s) <= -IntMin
    ensures ParseInt("-" + s) == Some(-(DecimalValue(s) as int))
  {
    assert ("-" + s)[1..] == s;
  }

  /** Writing an `int` and parsing it back gives the same `int`. */
  lemma ParseIntToString(i: int)
    requires IntMin <= i <= IntMax
    ensures ParseInt(IntToString(i)) == Some(i)
  {
    if i < 0 {
      DecimalOfNatToString(-i);
      ParseNegative(NatToString(-i));
    } else {
      DecimalOfNatToString(i);
      ParseUnsigned(NatToString(i));
    }
  }
}
