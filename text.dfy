/**
 * The JavaScript string operations the application relies on, as functions on `seq<char>`:
 * case mapping, `trim`, `includes`, `padStart`, `Number.prototype.toString(radix)`,
 * `Array.prototype.join` and, as its partner, splitting on a separator.
 */
module Text {

  // ---------------------------------------------------------------------------
  // Case mapping (ASCII letters; every other character maps to itself)
  // ---------------------------------------------------------------------------

  function LowerChar(c: char): char {
    if 'A' <= c <= 'Z' then (c as int + 32) as char else c
  }

  function UpperChar(c: char): char {
    if 'a' <= c <= 'z' then (c as int - 32) as char else c
  }

  /** `s.toLowerCase()` */
  function ToLower(s: string): (r: string)
    ensures |r| == |s|
    ensures forall i :: 0 <= i < |s| ==> r[i] == LowerChar(s[i])
  {
    seq(|s|, i requires 0 <= i < |s| => LowerChar(s[i]))
  }

  /** `s.toUpperCase()` */
  function ToUpper(s: string): (r: string)
    ensures |r| == |s|
    ensures forall i :: 0 <= i < |s| ==> r[i] == UpperChar(s[i])
  {
    seq(|s|, i requires 0 <= i < |s| => UpperChar(s[i]))
  }

  /** Lower-casing forgets every earlier case mapping: comparisons after `toLowerCase()` ignore case. */
  lemma LowerForgetsCase(s: string)
    ensures ToLower(ToLower(s)) == ToLower(s)
    ensures ToLower(ToUpper(s)) == ToLower(s)
  {
    assert forall i :: 0 <= i < |s| ==> ToLower(ToLower(s))[i] == ToLower(s)[i];
    assert forall i :: 0 <= i < |s| ==> ToLower(ToUpper(s))[i] == ToLower(s)[i];
  }

  // ---------------------------------------------------------------------------
  // String.prototype.trim
  // ---------------------------------------------------------------------------

  /** The WhiteSpace and LineTerminator code points that `trim` removes. */
  predicate IsJsSpace(c: char) {
    c == '\t' || c == '\n' || c == '\U{B}' || c == '\U{C}' || c == '\r' || c == ' '
    || c == '\U{A0}' || c == '\U{1680}' || ('\U{2000}' <= c <= '\U{200A}')
    || c == '\U{2028}' || c == '\U{2029}' || c == '\U{202F}' || c == '\U{205F}'
    || c == '\U{3000}' || c == '\U{FEFF}'
  }

  predicate AllSpace(s: string) {
    forall i :: 0 <= i < |s| ==> IsJsSpace(s[i])
  }

  /** Drops leading white space: the result is the suffix of `s` that starts at its first non-space. */
  function TrimStart(s: string): (r: string)
    ensures |r| <= |s| && r == s[|s| - |r|..]
    ensures AllSpace(s[..|s| - |r|])
    ensures r == [] || !IsJsSpace(r[0])
  {
    if |s| > 0 && IsJsSpace(s[0]) then
      var r := TrimStart(s[1..]);
      assert s[..|s| - |r|] == [s[0]] + s[1..][..|s[1..]| - |r|];
      r
    else s
  }

  /** Drops trailing white space: the result is the prefix of `s` that ends at its last non-space. */
  function TrimEnd(s: string): (r: string)
    ensures |r| <= |s| && r == s[..|r|]
    ensures AllSpace(s[|r|..])
    ensures r == [] || !IsJsSpace(r[|r| - 1])
  {
    if |s| > 0 && IsJsSpace(s[|s| - 1]) then
      var r := TrimEnd(s[..|s| - 1]);
      assert s[|r|..] == s[..|s| - 1][|r|..] + [s[|s| - 1]];
      r
    else s
  }

  /** `s.trim()` */
  function Trim(s: string): string {
    TrimEnd(TrimStart(s))
  }

  /** `!s.trim()` holds exactly for the strings made only of white space (the empty string included). */
  lemma {:induction false} TrimEmptyIffBlank(s: string)
    ensures Trim(s) == [] <==> AllSpace(s)
  {
    var t := TrimStart(s);
    if Trim(s) == [] {
      assert AllSpace(t[0..]);
      assert s == s[..|s| - |t|] + t;
    } else {
      assert !IsJsSpace(Trim(s)[0]);
      assert Trim(s)[0] == t[0];
      assert t[0] == s[|s| - |t|];
    }
  }

  /** Nothing but white space, read one character at a time. */
  predicate Blank(s: string)
    decreases |s|
  {
    |s| == 0 || (IsJsSpace(s[0]) && Blank(s[1..]))
  }

  /** `s.trim()` is falsy exactly for the blank strings. */
  lemma {:induction false} BlankIffTrimEmpty(s: string)
    ensures Blank(s) <==> Trim(s) == []
  {
    TrimEmptyIffBlank(s);
    BlankIffAllSpace(s);
  }

  lemma {:induction false} BlankIffAllSpace(s: string)
    ensures Blank(s) <==> AllSpace(s)
    decreases |s|
  {
    if |s| > 0 {
      BlankIffAllSpace(s[1..]);
      assert forall i | 1 <= i < |s| :: s[i] == s[1..][i - 1];
    }
  }

  // ---------------------------------------------------------------------------
  // String.prototype.includes
  // ---------------------------------------------------------------------------

  predicate OccursAt(hay: string, needle: string, i: nat) {
    i + |needle| <= |hay| && hay[i..i + |needle|] == needle
  }

  /** `hay.includes(needle)`: the needle occurs at some position of the haystack. */
  function Includes(hay: string, needle: string): (r: bool)
    ensures r <==> exists i: nat :: OccursAt(hay, needle, i)
    decreases |hay|
  {
    if needle <= hay then
      assert OccursAt(hay, needle, 0);
      true
    else if hay == [] then
      assert forall i: nat :: !OccursAt(hay, needle, i);
      false
    else
      var r := Includes(hay[1..], needle);
      if r then
        var i: nat :| OccursAt(hay[1..], needle, i);
        assert hay[i + 1..i + 1 + |needle|] == hay[1..][i..i + |needle|];
        assert OccursAt(hay, needle, i + 1);
        true
      else
        forall i: nat | OccursAt(hay, needle, i) ensures false {
          if i > 0 {
            assert hay[1..][i - 1..i - 1 + |needle|] == hay[i..i + |needle|];
            assert OccursAt(hay[1..], needle, i - 1);
          }
        }
        false
  }

  // ---------------------------------------------------------------------------
  // Number.prototype.toString(radix) and its inverse
  // ---------------------------------------------------------------------------

  const DECIMAL_DIGITS := "0123456789"
  const BASE36_DIGITS := "0123456789abcdefghijklmnopqrstuvwxyz"

  predicate DistinctChars(digits: string) {
    forall i, j :: 0 <= i < j < |digits| ==> digits[i] != digits[j]
  }

  /** The positional representation of `n` with the digit alphabet `digits` (radix |digits|, 10 or 36). */
  function ToRadix(n: nat, digits: string): (r: string)
    requires IsRadix(|digits|)
    ensures 1 <= |r|
    ensures forall i :: 0 <= i < |r| ==> r[i] in digits
    decreases n
  {
    var b := |digits|;
    if n < b then [digits[n]]
    else
      DivStep(n, b);
      ToRadix(n / b, digits) + [digits[n % b]]
  }

  /** One step of positional notation: the quotient is a smaller positive number, the remainder a digit. */
  lemma DivStep(n: nat, b: nat)
    requires IsRadix(b) && b <= n
    ensures 1 <= n / b < n && 0 <= n % b < b
    ensures n == (n / b) * b + n % b
  {
  }

  /** The two radixes the application uses: decimal and base 36. */
  predicate IsRadix(b: nat) {
    b == 10 || b == 36
  }

  /** The position of `c` in the digit alphabet (|digits| when it is not a digit). */
  function DigitValue(c: char, digits: string): nat
    ensures DigitValue(c, digits) <= |digits|
  {
    if digits == [] then 0
    else if digits[0] == c then 0
    else 1 + DigitValue(c, digits[1..])
  }

  /** Reads a positional representation back into a number. */
  function FromRadix(s: string, digits: string): nat
    requires IsRadix(|digits|)
  {
    if s == [] then 0
    else FromRadix(s[..|s| - 1], digits) * |digits| + DigitValue(s[|s| - 1], digits)
  }

  lemma {:induction false} DigitValueAt(digits: string, k: nat)
    requires DistinctChars(digits) && k < |digits|
    ensures DigitValue(digits[k], digits) == k
  {
    if k > 0 {
      assert digits[0] != digits[k];
      assert digits[1..][k - 1] == digits[k];
      DigitValueAt(digits[1..], k - 1);
    }
  }

  /** Reading back what `ToRadix` wrote gives the number that was written. */
  lemma {:induction false} FromRadixToRadix(n: nat, digits: string)
    requires IsRadix(|digits|) && DistinctChars(digits)
    ensures FromRadix(ToRadix(n, digits), digits) == n
    decreases n
  {
    var b := |digits|;
    if n < b {
      DigitValueAt(digits, n);
      assert ToRadix(n, digits)[..0] == [];
    } else {
      var q := ToRadix(n / b, digits);
      var s := q + [digits[n % b]];
      assert s[..|s| - 1] == q;
      DivStep(n, b);
      FromRadixToRadix(n / b, digits);
      DigitValueAt(digits, n % b);
    }
  }

  /** The base-36 alphabet: ten digits, then the lower-case letters in order. */
  lemma Base36Alphabet()
    ensures |BASE36_DIGITS| == 36
    ensures forall i | 0 <= i < 36 :: BASE36_DIGITS[i] as int == if i < 10 then 48 + i else 87 + i
    ensures DistinctChars(BASE36_DIGITS)
  {
    var d := BASE36_DIGITS;
    assert forall i | 0 <= i < 36 :: d[i] as int == if i < 10 then 48 + i else 87 + i;
  }

  /** An upper-cased base-36 numeral reads back, once lower-cased, as the number written. */
  lemma UpperBase36ReadBack(n: nat)
    ensures FromRadix(ToLower(ToUpper(Base36(n))), BASE36_DIGITS) == n
  {
    Base36CaseRoundTrip(n);
    Base36Alphabet();
    FromRadixToRadix(n, BASE36_DIGITS);
  }

  /** Upper-casing a base-36 numeral loses nothing: lower-casing it again gives the numeral back. */
  lemma {:induction false} Base36CaseRoundTrip(n: nat)
    ensures ToLower(ToUpper(ToRadix(n, BASE36_DIGITS))) == ToRadix(n, BASE36_DIGITS)
  {
    Base36Alphabet();
    var s := ToRadix(n, BASE36_DIGITS);
    forall i | 0 <= i < |s| ensures LowerChar(UpperChar(s[i])) == s[i] {
      var k :| 0 <= k < 36 && BASE36_DIGITS[k] == s[i];
      assert s[i] as int == if k < 10 then 48 + k else 87 + k;
    }
  }

  /** `String(n)` for a non-negative integer. */
  function Decimal(n: nat): string {
    ToRadix(n, DECIMAL_DIGITS)
  }

  /** `n.toString(36)`. */
  function Base36(n: nat): string {
    ToRadix(n, BASE36_DIGITS)
  }

  predicate IsDecimalDigit(c: char) {
    '0' <= c <= '9'
  }

  /** The number of decimal digits of `n`, for the four ranges the application meets. */
  lemma {:induction false} DecimalLengthByRange(n: nat)
    ensures n < 10 ==> |Decimal(n)| == 1
    ensures 10 <= n < 100 ==> |Decimal(n)| == 2
    ensures 100 <= n < 1000 ==> |Decimal(n)| == 3
    ensures 1000 <= n < 10000 ==> |Decimal(n)| == 4
  {
    assert |DECIMAL_DIGITS| == 10;
    if n >= 10 {
      DecimalLengthByRange(n / 10);
      assert Decimal(n) == Decimal(n / 10) + [DECIMAL_DIGITS[n % 10]];
    }
  }

  /** A number below 1000 has at most three decimal digits; one from 1000 to 9999 has exactly four; all are digits. */
  lemma DecimalLength(n: nat)
    ensures n < 1000 ==> |Decimal(n)| <= 3
    ensures 1000 <= n < 10000 ==> |Decimal(n)| == 4
    ensures forall i :: 0 <= i < |Decimal(n)| ==> IsDecimalDigit(Decimal(n)[i])
  {
    DecimalLengthByRange(n);
    var d := DECIMAL_DIGITS;
    assert forall c :: c in d ==> IsDecimalDigit(c);
  }

  // ---------------------------------------------------------------------------
  // String.prototype.padStart
  // ---------------------------------------------------------------------------

  /** `s.padStart(width, c)`: left-fill with `c` up to `width` characters; longer strings are unchanged. */
  function PadStart(s: string, width: nat, c: char): (r: string)
    ensures |r| == if |s| >= width then |s| else width
    ensures r[|r| - |s|..] == s
    ensures forall i :: 0 <= i < |r| - |s| ==> r[i] == c
  {
    if |s| >= width then s else seq(width - |s|, _ => c) + s
  }

  // ---------------------------------------------------------------------------
  // Array.prototype.join and its partner, splitting on a separator
  // ---------------------------------------------------------------------------

  /** `parts.join(sep)` for a one-character separator. */
  function Join(parts: seq<string>, sep: char): string {
    if |parts| == 0 then ""
    else if |parts| == 1 then parts[0]
    else parts[0] + [sep] + Join(parts[1..], sep)
  }

  /** `s.split(sep)`: the maximal runs between separators (always at least one, possibly empty). */
  function Split(s: string, sep: char): (r: seq<string>)
    ensures |r| >= 1
  {
    if s == [] then [""]
    else
      var rest := Split(s[1..], sep);
      if s[0] == sep then [""] + rest else [[s[0]] + rest[0]] + rest[1..]
  }

  lemma {:induction false} SplitAfterRun(p: string, q: string, sep: char)
    requires sep !in p
    ensures Split(p + q, sep) == [p + Split(q, sep)[0]] + Split(q, sep)[1..]
  {
    if p != [] {
      assert (p + q)[1..] == p[1..] + q;
      SplitAfterRun(p[1..], q, sep);
      assert [p[0]] + (p[1..] + Split(q, sep)[0]) == p + Split(q, sep)[0];
    } else {
      assert p + q == q;
      assert p + Split(q, sep)[0] == Split(q, sep)[0];
      assert Split(q, sep) == [Split(q, sep)[0]] + Split(q, sep)[1..];
    }
  }

  /** Splitting a join recovers the parts, provided no part contains the separator. */
  lemma {:induction false} SplitJoin(parts: seq<string>, sep: char)
    requires |parts| >= 1
    requires forall i :: 0 <= i < |parts| ==> sep !in parts[i]
    ensures Split(Join(parts, sep), sep) == parts
  {
    if |parts| == 1 {
      SplitAfterRun(parts[0], "", sep);
      assert parts[0] + "" == parts[0];
    } else {
      var tail := Join(parts[1..], sep);
      SplitJoin(parts[1..], sep);
      assert parts[0] + [sep] + tail == parts[0] + ([sep] + tail);
      SplitAfterRun(parts[0], [sep] + tail, sep);
      assert ([sep] + tail)[1..] == tail;
      assert Split([sep] + tail, sep) == [""] + parts[1..];
      assert parts[0] + "" == parts[0];
    }
  }
}
