/**
 * The JavaScript string operations the models rely on, over `seq<char>`:
 * the `\s` character class (which `String.prototype.trim` also uses),
 * `trim`, `split`, `indexOf`, `slice(-n)`, `padStart`, the decimal form of
 * a non-negative integer, and the e-mail pattern shared by the order schema
 * and the checkout form.
 */
module Text {
  import opened Wrappers

  /** The characters matched by the `\s` class and removed by `trim`. */
  predicate IsJsSpace(c: char)
  {
    || ('\t' <= c <= '\r')
    || c == ' '
    || c == '\U{A0}'
    || c == '\U{1680}'
    || ('\U{2000}' <= c <= '\U{200A}')
    || c == '\U{2028}'
    || c == '\U{2029}'
    || c == '\U{202F}'
    || c == '\U{205F}'
    || c == '\U{3000}'
    || c == '\U{FEFF}'
  }

  /** The `\d` class: ASCII digits only. */
  predicate IsAsciiDigit(c: char)
  {
    '0' <= c <= '9'
  }

  predicate AllDigits(s: string)
  {
    forall k :: 0 <= k < |s| ==> IsAsciiDigit(s[k])
  }

  function DigitValue(c: char): (d: nat)
    requires IsAsciiDigit(c)
    ensures d < 10
  {
    c as int - '0' as int
  }

  function DigitChar(d: nat): (c: char)
    requires d < 10
    ensures IsAsciiDigit(c) && DigitValue(c) == d
  {
    ('0' as int + d) as char
  }

  /** `n.toString()` for a non-negative integer `n`. */
  function DecimalString(n: nat): (s: string)
    ensures 1 <= |s| && AllDigits(s)
    ensures s[0] == '0' ==> n == 0
    ensures n < 10 ==> |s| == 1
    ensures 10 <= n < 100 ==> |s| == 2
    ensures 100 <= n < 1000 ==> |s| == 3
    ensures 1000 <= n ==> |s| >= 4
    decreases n
  {
    (if n < 10 then [] else DecimalString(n / 10)) + [DigitChar(n % 10)]
  }

  function Pow10(k: nat): (r: nat)
    ensures r >= 1
  {
    if k == 0 then 1 else 10 * Pow10(k - 1)
  }

  /** A number of at least 10^k has more than k digits. */
  lemma {:induction false} DecimalStringLength(n: nat, k: nat)
    ensures n >= Pow10(k) ==> |DecimalString(n)| > k
    decreases k
  {
    if k > 0 && n >= Pow10(k) {
      assert n / 10 >= Pow10(k - 1);
      DecimalStringLength(n / 10, k - 1);
    }
  }

  /** A number below 10^k (k at least one) has at most k digits. */
  lemma {:induction false} DecimalStringWithin(n: nat, k: nat)
    ensures 1 <= k && n < Pow10(k) ==> |DecimalString(n)| <= k
    decreases k
  {
    if 1 < k && n < Pow10(k) && n >= 10 {
      assert n / 10 < Pow10(k - 1);
      DecimalStringWithin(n / 10, k - 1);
    }
  }

  /** The number a string of decimal digits spells (leading zeros allowed). */
  function DecimalValue(s: string): nat
    requires AllDigits(s)
  {
    if s == [] then 0 else DecimalValue(s[..|s| - 1]) * 10 + DigitValue(s[|s| - 1])
  }

  /** Reading back the decimal form of `n` gives `n`. */
  lemma {:induction false} DecimalRoundTrip(n: nat)
    ensures DecimalValue(DecimalString(n)) == n
    decreases n
  {
    var s := DecimalString(n);
    if n >= 10 {
      assert s[..|s| - 1] == DecimalString(n / 10);
      DecimalRoundTrip(n / 10);
    } else {
      assert s[..|s| - 1] == [];
    }
  }

  function Repeat(c: char, k: nat): (r: string)
    ensures |r| == k && forall i :: 0 <= i < k ==> r[i] == c
  {
    if k == 0 then [] else [c] + Repeat(c, k - 1)
  }

  /** Leading zeros do not change the value of a digit string. */
  lemma {:induction false} LeadingZerosValue(k: nat, s: string)
    requires AllDigits(s)
    ensures AllDigits(Repeat('0', k) + s)
    ensures DecimalValue(Repeat('0', k) + s) == DecimalValue(s)
    decreases k
  {
    if k > 0 {
      assert Repeat('0', k) + s == ['0'] + (Repeat('0', k - 1) + s);
      LeadingZerosValue(k - 1, s);
      ZeroPrefixValue(Repeat('0', k - 1) + s);
    } else {
      assert Repeat('0', k) + s == s;
    }
  }

  lemma {:induction false} ZeroPrefixValue(s: string)
    requires AllDigits(s)
    ensures AllDigits(['0'] + s)
    ensures DecimalValue(['0'] + s) == DecimalValue(s)
    decreases |s|
  {
    var t := ['0'] + s;
    if s == [] {
      assert t[..|t| - 1] == [];
    } else {
      assert t[..|t| - 1] == ['0'] + s[..|s| - 1];
      ZeroPrefixValue(s[..|s| - 1]);
    }
  }

  /** `s.padStart(width, c)` with a one-character filler. */
  function PadStart(s: string, width: nat, c: char): (r: string)
    ensures |r| == if |s| >= width then |s| else width
    ensures r[|r| - |s|..] == s
    ensures forall k :: 0 <= k < |r| - |s| ==> r[k] == c
  {
    if |s| >= width then s else Repeat(c, width - |s|) + s
  }

  /** A zero-padded decimal keeps its value and has at least `width` digits. */
  lemma PaddedDecimal(n: nat, width: nat)
    ensures AllDigits(PadStart(DecimalString(n), width, '0'))
    ensures |PadStart(DecimalString(n), width, '0')| >= width
    ensures DecimalValue(PadStart(DecimalString(n), width, '0')) == n
  {
    DecimalRoundTrip(n);
    PaddedDigits(DecimalString(n), width);
  }

  /** Zero-padding any digit string keeps it a digit string of the same value. */
  lemma PaddedDigits(s: string, width: nat)
    requires AllDigits(s)
    ensures AllDigits(PadStart(s, width, '0'))
    ensures DecimalValue(PadStart(s, width, '0')) == DecimalValue(s)
  {
    if |s| < width {
      LeadingZerosValue(width - |s|, s);
    }
  }

  /** Padding to `width` gives exactly `width` digits while `n` is below
      10^width, and more once it is not. */
  lemma PaddedWidth(n: nat, width: nat)
    requires 1 <= width
    ensures |PadStart(DecimalString(n), width, '0')| == width <==> n < Pow10(width)
  {
    DecimalStringWithin(n, width);
    DecimalStringLength(n, width);
  }

  /** `s.slice(-n)` for `n >= 1`: the last `n` characters, or all of `s` when it is
      shorter. At `n == 0` this gives "", whereas `s.slice(-0)` is all of `s`; the
      order numbers only take the last two and the last six characters. */
  function LastChars(s: string, n: nat): (r: string)
    ensures |r| == if |s| <= n then |s| else n
    ensures r == s[|s| - |r|..]
  {
    if |s| <= n then s else s[|s| - n..]
  }

  lemma {:induction false} Pow10AtLeastTen(k: nat)
    requires 1 <= k
    ensures Pow10(k) >= 10
    decreases k
  {
    if k > 1 {
      Pow10AtLeastTen(k - 1);
    }
  }

  /** Taking the last `k` characters commutes with appending one more. */
  lemma LastCharsSnoc(t: string, c: char, k: nat)
    requires 1 <= k
    ensures LastChars(t + [c], k) == LastChars(t, k - 1) + [c]
  {
    var s := t + [c];
    if |t| > k - 1 {
      assert s[|s| - k..] == t[|t| - (k - 1)..] + [c];
    }
  }

  /** `n.toString().slice(-k)` is all digits and reads as `n % 10^k`. */
  predicate LastDigitsReadAsRemainder(n: nat, k: nat)
  {
    AllDigits(LastChars(DecimalString(n), k)) && DecimalValue(LastChars(DecimalString(n), k)) == n % Pow10(k)
  }

  lemma {:induction false} LastDigitsValue(n: nat, k: nat)
    ensures LastDigitsReadAsRemainder(n, k)
    decreases k
  {
    if k == 0 {
      NoDigitsValue(n);
    } else if n < 10 {
      SingleDigitValue(n, k);
    } else {
      LastDigitsValue(n / 10, k - 1);
      LastDigitsStep(n, k);
    }
  }

  lemma NoDigitsValue(n: nat)
    ensures LastDigitsReadAsRemainder(n, 0)
  {
    assert LastChars(DecimalString(n), 0) == [];
  }

  lemma SingleDigitValue(n: nat, k: nat)
    requires n < 10 && 1 <= k
    ensures LastDigitsReadAsRemainder(n, k)
  {
    var s := DecimalString(n);
    Pow10AtLeastTen(k);
    assert LastChars(s, k) == s == [] + [DigitChar(n)];
    AppendDigitValue([], DigitChar(n));
    DivModUnique(n, Pow10(k), 0, n);
  }

  /** One more digit at the end of `n`: from the last `k - 1` digits of
      `n / 10` to the last `k` digits of `n`. */
  lemma LastDigitsStep(n: nat, k: nat)
    requires n >= 10 && 1 <= k
    requires LastDigitsReadAsRemainder(n / 10, k - 1)
    ensures LastDigitsReadAsRemainder(n, k)
  {
    var t, lo := DecimalString(n / 10), DigitChar(n % 10);
    var x := LastChars(t, k - 1);
    assert DecimalString(n) == t + [lo];
    LastCharsSnoc(t, lo, k);
    assert LastChars(DecimalString(n), k) == x + [lo];
    AppendDigitValue(x, lo);
    var p, tenP := Pow10(k - 1), Pow10(k);
    DigitsModArith(n, p, tenP);
    RemainderStep(DecimalValue(x + [lo]), DecimalValue(x), (n / 10) % p, n % 10, n % tenP);
  }

  lemma RemainderStep(y: int, x: int, q: int, d: int, m: int)
    requires y == x * 10 + d && x == q && m == q * 10 + d
    ensures y == m
  {
  }

  /** Appending a digit multiplies the value by ten and adds the digit. */
  lemma AppendDigitValue(x: string, c: char)
    requires AllDigits(x) && IsAsciiDigit(c)
    ensures AllDigits(x + [c])
    ensures DecimalValue(x + [c]) == DecimalValue(x) * 10 + DigitValue(c)
  {
    var y := x + [c];
    assert y[..|y| - 1] == x;
  }

  /** Division with remainder has one answer. */
  lemma DivModUnique(n: int, d: int, h: int, r: int)
    requires 0 < d && 0 <= r < d && n == d * h + r
    ensures n / d == h && n % d == r
  {
    var q, m := n / d, n % d;
    assert n == d * q + m && 0 <= m < d;
    if h > q {
      MulAtLeast(d, h, q);
      assert false;
    } else if h < q {
      MulAtLeast(d, q, h);
      assert false;
    }
  }

  lemma MulAtLeast(d: int, x: int, y: int)
    requires 0 < d && y < x
    ensures d * x >= d * y + d
  {
    var e := x - y;
    MulGe(d, e);
    assert d * x == d * e + d * y;
  }

  lemma {:induction false} MulGe(d: nat, e: nat)
    requires 1 <= e
    ensures d * e >= d
    decreases e
  {
    if e > 1 {
      MulGe(d, e - 1);
      assert d * e == d * (e - 1) + d;
    }
  }

  lemma DigitsModArith(n: nat, p: nat, tenP: nat)
    requires 1 <= p && tenP == 10 * p
    ensures n % tenP == ((n / 10) % p) * 10 + n % 10
  {
    var q, b := n / 10, n % 10;
    var h, a := q / p, q % p;
    assert n == 10 * q + b;
    assert q == p * h + a;
    assert n == (10 * p) * h + (10 * a + b);
    DivModUnique(n, tenP, h, 10 * a + b);
  }

  /** The last two digits of a year of at least two digits spell `year % 100`. */
  lemma TwoDigitYear(year: nat)
    requires year >= 10
    ensures var y := LastChars(DecimalString(year), 2);
      |y| == 2 && AllDigits(y) && DecimalValue(y) == year % 100
  {
    DecimalStringLength(year, 1);
    LastDigitsValue(year, 2);
    assert Pow10(2) == 100;
  }

  // ---------------------------------------------------------------------
  // indexOf, split, join

  /** `s.indexOf(c)`, with a missing character as `None`. */
  function IndexOf(s: string, c: char): (r: Option<nat>)
    ensures r.None? <==> c !in s
    ensures r.Some? ==> r.value < |s| && s[r.value] == c && c !in s[..r.value]
  {
    if s == [] then None
    else if s[0] == c then Some(0)
    else match IndexOf(s[1..], c)
      case None => None
      case Some(i) =>
        assert s[..i + 1] == [s[0]] + s[1..][..i];
        Some(i + 1)
  }

  /** `s.split(sep)` for a one-character separator. */
  function Split(s: string, sep: char): (parts: seq<string>)
    ensures |parts| >= 1
    ensures forall k :: 0 <= k < |parts| ==> sep !in parts[k]
    decreases |s|
  {
    match IndexOf(s, sep)
    case None => [s]
    case Some(i) => [s[..i]] + Split(s[i + 1..], sep)
  }

  /** `parts.join(sep)`. */
  function Join(parts: seq<string>, sep: char): string
  {
    if parts == [] then []
    else if |parts| == 1 then parts[0]
    else parts[0] + [sep] + Join(parts[1..], sep)
  }

  /** Splitting and joining again gives back the original string. */
  lemma {:induction false} JoinSplit(s: string, sep: char)
    ensures Join(Split(s, sep), sep) == s
    decreases |s|
  {
    match IndexOf(s, sep)
    case None =>
    case Some(i) =>
      var rest := Split(s[i + 1..], sep);
      JoinSplit(s[i + 1..], sep);
      assert Split(s, sep) == [s[..i]] + rest;
      assert ([s[..i]] + rest)[1..] == rest;
      assert s == s[..i] + [sep] + s[i + 1..];
  }

  /** Joining pieces free of the separator and splitting again gives back the pieces. */
  lemma {:induction false} SplitJoin(parts: seq<string>, sep: char)
    requires |parts| >= 1
    requires forall k :: 0 <= k < |parts| ==> sep !in parts[k]
    ensures Split(Join(parts, sep), sep) == parts
    decreases |parts|
  {
    if |parts| > 1 {
      var p := parts[0];
      var s := Join(parts, sep);
      var rest := Join(parts[1..], sep);
      assert s == p + [sep] + rest;
      assert s[..|p|] == p;
      assert sep !in s[..|p|];
      assert s[|p|] == sep;
      FirstIndex(s, sep, |p|);
      assert s[|p| + 1..] == rest;
      SplitJoin(parts[1..], sep);
      assert [p] + parts[1..] == parts;
    }
  }

  // ---------------------------------------------------------------------
  // trim

  predicate NoEdgeSpace(s: string)
  {
    s == [] || (!IsJsSpace(s[0]) && !IsJsSpace(s[|s| - 1]))
  }

  /** Every character of `s` from position `lo` up to `hi` is white space. */
  predicate AllSpace(s: string, lo: int, hi: int)
  {
    forall k :: 0 <= k < |s| && lo <= k < hi ==> IsJsSpace(s[k])
  }

  /** One white-space character in front of a run of them. */
  lemma SpaceThenSpaces(s: string, n: int)
    requires s != [] && IsJsSpace(s[0]) && AllSpace(s[1..], 0, n - 1)
    ensures AllSpace(s, 0, n)
  {
    forall k | 0 <= k < |s| && 0 <= k < n
      ensures IsJsSpace(s[k])
    {
      if k > 0 {
        assert s[k] == s[1..][k - 1];
      }
    }
  }

  /** A run of white space followed by one more. */
  lemma SpacesThenSpace(s: string, n: int)
    requires s != [] && IsJsSpace(s[|s| - 1]) && AllSpace(s[..|s| - 1], n, |s| - 1)
    ensures AllSpace(s, n, |s|)
  {
    forall k | 0 <= k < |s| && n <= k < |s|
      ensures IsJsSpace(s[k])
    {
      if k < |s| - 1 {
        assert s[k] == s[..|s| - 1][k];
      }
    }
  }

  /** `trimStart`: drop the leading white space. */
  function TrimStart(s: string): (r: string)
    ensures |r| <= |s| && r == s[|s| - |r|..]
    ensures r == [] || !IsJsSpace(r[0])
    ensures AllSpace(s, 0, |s| - |r|)
  {
    if s != [] && IsJsSpace(s[0]) then
      var r := TrimStart(s[1..]);
      SpaceThenSpaces(s, |s| - |r|);
      r
    else s
  }

  /** `trimEnd`: drop the trailing white space. */
  function TrimEnd(s: string): (r: string)
    ensures |r| <= |s| && r == s[..|r|]
    ensures r == [] || !IsJsSpace(r[|r| - 1])
    ensures AllSpace(s, |r|, |s|)
  {
    if s != [] && IsJsSpace(s[|s| - 1]) then
      var r := TrimEnd(s[..|s| - 1]);
      SpacesThenSpace(s, |r|);
      r
    else s
  }

  /** `r` is the slice of `s` starting at `i`, and everything of `s` before
      and after that slice is white space. */
  predicate InnerPart(s: string, i: int, r: string)
  {
    && 0 <= i && i + |r| <= |s| && r == s[i..i + |r|]
    && AllSpace(s, 0, i) && AllSpace(s, i + |r|, |s|)
  }

  /** `s.trim()`: the result has no white space at either end, and a string
      with none there is left as it is. It is the slice of `s` left once the
      white space at the two ends is taken away, and nothing else. */
  function Trim(s: string): (r: string)
    ensures NoEdgeSpace(r)
    ensures NoEdgeSpace(s) ==> r == s
    ensures |r| <= |s|
    ensures forall c :: c in r ==> c in s
    ensures InnerPart(s, |s| - |TrimStart(s)|, r)
  {
    var t := TrimStart(s);
    var r := TrimEnd(t);
    TrimmedSlice(s, t, r);
    r
  }

  /** What the two passes of `trim` leave, from what each pass promises:
      `t` is `s` without its leading white space, `r` is `t` without its
      trailing white space. */
  lemma TrimmedSlice(s: string, t: string, r: string)
    requires |t| <= |s| && t == s[|s| - |t|..] && (t == [] || !IsJsSpace(t[0]))
    requires AllSpace(s, 0, |s| - |t|)
    requires |r| <= |t| && r == t[..|r|] && (r == [] || !IsJsSpace(r[|r| - 1]))
    requires AllSpace(t, |r|, |t|)
    ensures NoEdgeSpace(r)
    ensures NoEdgeSpace(s) ==> r == s
    ensures |r| <= |s|
    ensures forall c :: c in r ==> c in s
    ensures InnerPart(s, |s| - |t|, r)
  {
    var i := |s| - |t|;
    assert r == s[i..i + |r|];
    forall k | i + |r| <= k < |s|
      ensures IsJsSpace(s[k])
    {
      assert s[k] == t[k - i];
    }
  }

  // ---------------------------------------------------------------------
  // the e-mail pattern /^[^\s@]+@[^\s@]+\.[^\s@]+$/

  predicate IsEmailChar(c: char)
  {
    !IsJsSpace(c) && c != '@'
  }

  predicate AllEmailChars(s: string)
  {
    forall k :: 0 <= k < |s| ==> IsEmailChar(s[k])
  }

  /** The pattern read off literally: three non-empty runs of characters
      other than white space and '@', joined by '@' and by '.'. */
  ghost predicate MatchesEmailPattern(s: string)
  {
    exists i, j ::
      && 0 < i && i + 1 < j && j + 1 < |s|
      && s[i] == '@' && s[j] == '.'
      && AllEmailChars(s[..i]) && AllEmailChars(s[i + 1..j]) && AllEmailChars(s[j + 1..])
  }

  /** The test the validators run: one '@' with a non-empty local part before it,
      and a '.' after it that is neither its first nor the last character. */
  predicate IsEmail(s: string)
  {
    match IndexOf(s, '@')
    case None => false
    case Some(i) =>
      var d := s[i + 1..];
      0 < i && AllEmailChars(s[..i]) && AllEmailChars(d) && 3 <= |d| && '.' in d[1..|d| - 1]
  }

  /** The pattern and the validators' test accept exactly the same strings. */
  lemma IsEmailMatchesPattern(s: string)
    ensures IsEmail(s) <==> MatchesEmailPattern(s)
  {
    if IsEmail(s) {
      EmailTestImpliesPattern(s);
    }
    if MatchesEmailPattern(s) {
      var i, j :| && 0 < i && i + 1 < j && j + 1 < |s|
        && s[i] == '@' && s[j] == '.'
        && AllEmailChars(s[..i]) && AllEmailChars(s[i + 1..j]) && AllEmailChars(s[j + 1..]);
      PatternImpliesEmailTest(s, i, j);
    }
  }

  lemma EmailTestImpliesPattern(s: string)
    requires IsEmail(s)
    ensures MatchesEmailPattern(s)
  {
    var i := IndexOf(s, '@').value;
    var d := s[i + 1..];
    assert 0 < i && AllEmailChars(s[..i]) && AllEmailChars(d) && 3 <= |d|;
    var m := d[1..|d| - 1];
    var k :| 0 <= k < |m| && m[k] == '.';
    var j := i + 2 + k;
    assert m[k] == d[k + 1] == s[j];
    assert s[i + 1..j] == d[..k + 1];
    assert s[j + 1..] == d[k + 2..];
    assert AllEmailChars(s[i + 1..j]);
    assert AllEmailChars(s[j + 1..]);
  }

  lemma PatternImpliesEmailTest(s: string, i: nat, j: nat)
    requires 0 < i && i + 1 < j && j + 1 < |s|
    requires s[i] == '@' && s[j] == '.'
    requires AllEmailChars(s[..i]) && AllEmailChars(s[i + 1..j]) && AllEmailChars(s[j + 1..])
    ensures IsEmail(s)
  {
    assert '@' !in s[..i];
    FirstIndex(s, '@', i);
    var d := s[i + 1..];
    assert d == s[i + 1..j] + ['.'] + s[j + 1..];
    assert AllEmailChars(d);
    assert d[1..|d| - 1][j - i - 2] == '.';
  }

  /** The first occurrence of `c` is the one `IndexOf` reports. */
  lemma FirstIndex(s: string, c: char, i: nat)
    requires i < |s| && s[i] == c && c !in s[..i]
    ensures IndexOf(s, c) == Some(i)
  {
    var r := IndexOf(s, c);
    assert r.Some?;
  }
}
