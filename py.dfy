/** The few Python built-ins the agents lean on, as total functions:
    `str.split(sep)`, `str.split(sep, maxsplit)`, `sep.join(...)`, `str.strip()`,
    `int(...)` and `float(...)` on strings. A built-in that raises in Python
    returns `None` here; the agent modules turn that into a raised error. */
module Py {

  datatype Option<T> = None | Some(value: T)

  /** The exceptions the agents can raise from a message handler. */
  datatype PyError =
    | ValueError      // wrong number of fields to unpack, or a number that does not parse
    | IntegrityError  // sqlite primary-key violation

  /** How a handler's `run` ended: normally, or by raising. */
  datatype Outcome = Completed | Raised(error: PyError)

  // ---------------------------------------------------------------------------
  // str.split / str.join for a one-character separator
  // ---------------------------------------------------------------------------

  /** How many times `sep` occurs in `s`. */
  function Count(s: string, sep: char): nat
  {
    if s == [] then 0 else (if s[0] == sep then 1 else 0) + Count(s[1..], sep)
  }

  /** `s.split(sep)`: the pieces between the separators, one more piece than
      there are separators, and no piece holds the separator. */
  function Split(s: string, sep: char): (r: seq<string>)
    ensures |r| == Count(s, sep) + 1
    ensures forall i :: 0 <= i < |r| ==> sep !in r[i]
    decreases |s|
  {
    if s == [] then [""]
    else if s[0] == sep then [""] + Split(s[1..], sep)
    else
      var t := Split(s[1..], sep);
      [[s[0]] + t[0]] + t[1..]
  }

  /** `s.split(sep, n)`: at most `n` splits, made at the leftmost separators;
      the last piece keeps the rest of the string, separators included. */
  function SplitMax(s: string, sep: char, n: nat): (r: seq<string>)
    ensures 1 <= |r| <= n + 1
    ensures forall i :: 0 <= i < |r| - 1 ==> sep !in r[i]
    decreases |s|
  {
    if n == 0 || s == [] then [s]
    else if s[0] == sep then [""] + SplitMax(s[1..], sep, n - 1)
    else
      var t := SplitMax(s[1..], sep, n);
      [[s[0]] + t[0]] + t[1..]
  }

  /** `sep.join(parts)` (also what an f-string with `sep` between fields builds). */
  function Join(parts: seq<string>, sep: char): string
  {
    if |parts| == 0 then ""
    else if |parts| == 1 then parts[0]
    else parts[0] + [sep] + Join(parts[1..], sep)
  }

  predicate NoSeparator(parts: seq<string>, sep: char)
  {
    forall i :: 0 <= i < |parts| ==> sep !in parts[i]
  }

  lemma CountConcat(a: string, b: string, sep: char)
    ensures Count(a + b, sep) == Count(a, sep) + Count(b, sep)
  {
    if a == [] {
      assert a + b == b;
    } else {
      assert (a + b)[1..] == a[1..] + b;
      CountConcat(a[1..], b, sep);
    }
  }

  /** Joining `parts` puts at least one separator between each neighbouring pair. */
  lemma {:induction false} CountJoin(parts: seq<string>, sep: char)
    ensures Count(Join(parts, sep), sep) >= |parts| - 1
  {
    if |parts| > 1 {
      CountJoin(parts[1..], sep);
      CountConcat(parts[0] + [sep], Join(parts[1..], sep), sep);
      CountConcat(parts[0], [sep], sep);
    }
  }

  /** Splitting a joined list yields at least as many pieces as were joined,
      whatever the pieces hold. */
  lemma SplitJoinLength(parts: seq<string>, sep: char)
    ensures |Split(Join(parts, sep), sep)| >= |parts|
  {
    CountJoin(parts, sep);
  }

  lemma {:induction false} SplitWithoutSeparator(s: string, sep: char)
    requires sep !in s
    ensures Split(s, sep) == [s]
    decreases |s|
  {
    if s != [] {
      SplitWithoutSeparator(s[1..], sep);
      assert [s[0]] + s[1..] == s;
    }
  }

  lemma {:induction false} SplitAfterPiece(a: string, rest: string, sep: char)
    requires sep !in a
    ensures Split(a + [sep] + rest, sep) == [a] + Split(rest, sep)
    decreases |a|
  {
    var s := a + [sep] + rest;
    if a == [] {
      assert s[1..] == rest;
    } else {
      assert s[1..] == a[1..] + [sep] + rest;
      SplitAfterPiece(a[1..], rest, sep);
      assert [s[0]] + a[1..] == a;
    }
  }

  /** `sep.join` followed by `split(sep)` gives the pieces back, provided
      there is at least one piece and none holds the separator. */
  lemma {:induction false} SplitJoin(parts: seq<string>, sep: char)
    requires |parts| >= 1 && NoSeparator(parts, sep)
    ensures Split(Join(parts, sep), sep) == parts
  {
    if |parts| == 1 {
      SplitWithoutSeparator(parts[0], sep);
    } else {
      SplitAfterPiece(parts[0], Join(parts[1..], sep), sep);
      SplitJoin(parts[1..], sep);
      assert parts == [parts[0]] + parts[1..];
    }
  }

  /** `split(sep)` followed by `sep.join` gives the string back. */
  lemma {:induction false} JoinSplit(s: string, sep: char)
    ensures Join(Split(s, sep), sep) == s
    decreases |s|
  {
    if s != [] {
      JoinSplit(s[1..], sep);
      var t := Split(s[1..], sep);
      if s[0] != sep && |t| > 1 {
        assert Join(t, sep) == t[0] + [sep] + Join(t[1..], sep);
        assert t[1..][1..] == t[2..];
      }
    }
  }

  lemma {:induction false} SplitMaxWithoutSeparator(s: string, sep: char, n: nat)
    requires sep !in s
    ensures SplitMax(s, sep, n) == [s]
    decreases |s|
  {
    if n > 0 && s != [] {
      SplitMaxWithoutSeparator(s[1..], sep, n);
      assert [s[0]] + s[1..] == s;
    }
  }

  lemma {:induction false} SplitMaxAfterPiece(a: string, rest: string, sep: char, n: nat)
    requires sep !in a
    ensures SplitMax(a + [sep] + rest, sep, n + 1) == [a] + SplitMax(rest, sep, n)
    decreases |a|
  {
    var s := a + [sep] + rest;
    if a == [] {
      assert s[1..] == rest;
    } else {
      assert s[1..] == a[1..] + [sep] + rest;
      SplitMaxAfterPiece(a[1..], rest, sep, n);
      assert [s[0]] + a[1..] == a;
    }
  }

  /** `split(sep, n)` on `n + 1` joined pieces gives them back when only the
      LAST piece may hold the separator: this is what lets a free-text field
      ride at the end of a message body. */
  lemma {:induction false} SplitMaxJoin(parts: seq<string>, sep: char, n: nat)
    requires |parts| == n + 1
    requires forall i :: 0 <= i < n ==> sep !in parts[i]
    ensures SplitMax(Join(parts, sep), sep, n) == parts
    decreases n
  {
    if n > 0 {
      SplitMaxAfterPiece(parts[0], Join(parts[1..], sep), sep, n - 1);
      SplitMaxJoin(parts[1..], sep, n - 1);
      assert parts == [parts[0]] + parts[1..];
    }
  }

  // ---------------------------------------------------------------------------
  // str.strip()
  // ---------------------------------------------------------------------------

  /** The characters `str.isspace()` accepts, which `str.strip()` removes. */
  predicate IsSpace(c: char)
  {
    || ('\t' <= c <= '\r')
    || ('\U{1c}' <= c <= ' ')
    || c == '\U{85}' || c == '\U{a0}' || c == '\U{1680}'
    || ('\U{2000}' <= c <= '\U{200a}')
    || c == '\U{2028}' || c == '\U{2029}' || c == '\U{202f}' || c == '\U{205f}' || c == '\U{3000}'
  }

  /** How many whitespace characters `s` begins with: where `s.lstrip()` starts. */
  function LeadingSpaces(s: string): (n: nat)
    ensures n <= |s|
    ensures forall k :: 0 <= k < n ==> IsSpace(s[k])
    ensures n < |s| ==> !IsSpace(s[n])
  {
    if s != [] && IsSpace(s[0]) then 1 + LeadingSpaces(s[1..]) else 0
  }

  /** Where the whitespace that `s` ends with begins: where `s.rstrip()` stops. */
  function TrailingStart(s: string): (n: nat)
    ensures n <= |s|
    ensures forall k :: n <= k < |s| ==> IsSpace(s[k])
    ensures n > 0 ==> !IsSpace(s[n - 1])
  {
    if s != [] && IsSpace(s[|s| - 1]) then TrailingStart(s[..|s| - 1]) else |s|
  }

  /** `s.strip()`: the text between the leading and the trailing whitespace. */
  function Strip(s: string): string
  {
    var i, j := LeadingSpaces(s), TrailingStart(s);
    if i < j then s[i..j] else []
  }

  /** `strip()` leaves nothing exactly when the text is all whitespace. */
  lemma StripEmpty(s: string)
    ensures Strip(s) == [] <==> forall k :: 0 <= k < |s| ==> IsSpace(s[k])
  {
    var i, j := LeadingSpaces(s), TrailingStart(s);
    if i < |s| {
      assert !IsSpace(s[i]);
    }
  }

  /** Whatever `strip()` leaves begins and ends with a non-space. */
  lemma StripEnds(s: string)
    ensures Strip(s) != [] ==> !IsSpace(Strip(s)[0]) && !IsSpace(Strip(s)[|Strip(s)| - 1])
  {
  }

  /** Whitespace around a word is exactly what `strip()` removes. */
  lemma StripPadded(pre: string, w: string, post: string)
    requires forall k :: 0 <= k < |pre| ==> IsSpace(pre[k])
    requires forall k :: 0 <= k < |post| ==> IsSpace(post[k])
    requires w != [] && !IsSpace(w[0]) && !IsSpace(w[|w| - 1])
    ensures Strip(pre + w + post) == w
  {
    var s := pre + w + post;
    var i, j := LeadingSpaces(s), TrailingStart(s);
    assert s[|pre|] == w[0] && s[|pre| + |w| - 1] == w[|w| - 1];
    assert forall k :: 0 <= k < |pre| ==> s[k] == pre[k];
    assert forall k :: |pre| + |w| <= k < |s| ==> s[k] == post[k - |pre| - |w|];
    assert i == |pre| && j == |pre| + |w|;
    assert s[i..j] == w;
  }

  // ---------------------------------------------------------------------------
  // int(...) and float(...) on strings
  // ---------------------------------------------------------------------------

  predicate IsDigit(c: char) { '0' <= c <= '9' }

  predicate AllDigits(s: string)
  {
    forall k :: 0 <= k < |s| ==> IsDigit(s[k])
  }

  /** The value of a string of decimal digits. */
  function DigitsValue(s: string): nat
    requires AllDigits(s)
  {
    if s == [] then 0 else 10 * DigitsValue(s[..|s| - 1]) + (s[|s| - 1] - '0') as nat
  }

  /** The decimal numeral of `n`, without sign or leading zeros. */
  function Decimal(n: nat): (r: string)
    ensures r != [] && AllDigits(r)
  {
    if n < 10 then ['0' + n as char] else Decimal(n / 10) + ['0' + (n % 10) as char]
  }

  lemma {:induction false} DecimalValue(n: nat)
    ensures DigitsValue(Decimal(n)) == n
  {
    var d := Decimal(n);
    if n >= 10 {
      DecimalValue(n / 10);
      assert d[..|d| - 1] == Decimal(n / 10);
    }
  }

  /** `int(s)` for a string: surrounding whitespace, an optional sign, then
      one or more ASCII digits. */
  function ParseInt(s: string): Option<int>
  {
    var t := Strip(s);
    if t != [] && (t[0] == '-' || t[0] == '+') then
      if |t| > 1 && AllDigits(t[1..]) then
        Some(if t[0] == '-' then -(DigitsValue(t[1..]) as int) else DigitsValue(t[1..]))
      else None
    else if t != [] && AllDigits(t) then Some(DigitsValue(t))
    else None
  }

  /** `int` reads back the numeral `str` writes for a natural number. */
  lemma ParseIntDecimal(n: nat)
    ensures ParseInt(Decimal(n)) == Some(n)
  {
    var d := Decimal(n);
    StripPadded([], d, []);
    assert [] + d + [] == d;
    assert Strip(d) == d;
    assert IsDigit(d[0]);
    assert d[0] != '-' && d[0] != '+';
    DecimalValue(n);
  }

  /** `float(s)` for a string: surrounding whitespace, an optional sign, then
      digits with at most one decimal point and at least one digit. */
  function ParseFloat(s: string): Option<real>
  {
    var t := Strip(s);
    var neg := t != [] && t[0] == '-';
    var m := if t != [] && (t[0] == '-' || t[0] == '+') then t[1..] else t;
    var dot := Split(m, '.');
    if |dot| == 1 && m != [] && AllDigits(m) then
      Some(if neg then -(DigitsValue(m) as real) else DigitsValue(m) as real)
    else if |dot| == 2 && dot[0] + dot[1] != [] && AllDigits(dot[0]) && AllDigits(dot[1]) then
      var v := DigitsValue(dot[0]) as real + Fraction(dot[1]);
      Some(if neg then -v else v)
    else None
  }

  /** The value of the digits after a decimal point: `frac` over ten to its length. */
  function Fraction(frac: string): (r: real)
    requires AllDigits(frac)
    ensures 0.0 <= r
  {
    DigitsValue(frac) as real / Pow10(|frac|) as real
  }

  function Pow10(k: nat): (r: nat)
    ensures r >= 1
  {
    if k == 0 then 1 else 10 * Pow10(k - 1)
  }

  lemma DigitsWithoutPoint(s: string)
    requires AllDigits(s)
    ensures '.' !in s
  {
    assert forall k :: 0 <= k < |s| ==> s[k] != '.';
  }

  /** On the text of an integer, `float()` and `int()` agree. */
  lemma ParseFloatInt(s: string)
    ensures ParseInt(s).Some? ==> ParseFloat(s) == Some(ParseInt(s).value as real)
  {
    var t := Strip(s);
    if ParseInt(s).Some? {
      var m := if t[0] == '-' || t[0] == '+' then t[1..] else t;
      DigitsWithoutPoint(m);
      SplitWithoutSeparator(m, '.');
    }
  }

  /** `float()` reads back the numeral `str` writes for a natural number. */
  lemma ParseFloatDecimal(n: nat)
    ensures ParseFloat(Decimal(n)) == Some(n as real)
  {
    ParseIntDecimal(n);
    ParseFloatInt(Decimal(n));
  }

  /** The pieces of `n.frac` around its point. */
  lemma PointSplit(n: nat, frac: string)
    requires AllDigits(frac)
    ensures Strip(Decimal(n) + "." + frac) == Decimal(n) + "." + frac
    ensures Split(Decimal(n) + "." + frac, '.') == [Decimal(n), frac]
  {
    var d := Decimal(n);
    var s := d + "." + frac;
    assert s[0] == d[0];
    assert s[|s| - 1] == '.' || s[|s| - 1] == frac[|frac| - 1];
    StripPadded([], s, []);
    assert [] + s + [] == s;
    DigitsWithoutPoint(d);
    DigitsWithoutPoint(frac);
    SplitAfterPiece(d, frac, '.');
    SplitWithoutSeparator(frac, '.');
  }

  /** `float()` of `n.frac` is `n` plus the fraction the digits of `frac` denote. */
  lemma ParseFloatPoint(n: nat, frac: string)
    requires AllDigits(frac)
    ensures ParseFloat(Decimal(n) + "." + frac)
         == Some(n as real + Fraction(frac))
  {
    var d := Decimal(n);
    var s := d + "." + frac;
    PointSplit(n, frac);
    DecimalValue(n);
    assert Strip(s)[0] == d[0];
  }

  /** No key twice: what the insertion order of a dict's keys always is. */
  predicate Distinct<T(==)>(s: seq<T>)
  {
    forall i, j :: 0 <= i < j < |s| ==> s[i] != s[j]
  }
}
