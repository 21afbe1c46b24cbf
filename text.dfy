/** Character classes, runs and decimal numbers as Go's RE2 regular expressions and
    strconv see them. Strings are sequences of code points. */
module Text {

  /** The two character classes the router's patterns use. */
  datatype CharClass = Word | Digit

  /** `\d` in RE2: ASCII digits only. */
  predicate IsDigit(c: char) { '0' <= c <= '9' }

  /** `\w` in RE2: `[0-9A-Za-z_]`. */
  predicate IsWordChar(c: char) { IsDigit(c) || 'A' <= c <= 'Z' || 'a' <= c <= 'z' || c == '_' }

  predicate InClass(c: char, cls: CharClass)
  {
    match cls
    case Word => IsWordChar(c)
    case Digit => IsDigit(c)
  }

  predicate AllIn(s: string, cls: CharClass)
  {
    forall i :: 0 <= i < |s| ==> InClass(s[i], cls)
  }

  predicate IsPrefix(p: string, s: string)
  {
    |p| <= |s| && s[..|p|] == p
  }

  /** `lit` occurs in `s` starting at position `i`. */
  predicate OccursAt(s: string, i: nat, lit: string)
    decreases |lit|
  {
    i + |lit| <= |s| && (lit == [] || (s[i] == lit[0] && OccursAt(s, i + 1, lit[1..])))
  }

  lemma {:induction false} OccursAtSlice(s: string, i: nat, lit: string)
    ensures OccursAt(s, i, lit) <==> i + |lit| <= |s| && s[i..i + |lit|] == lit
    decreases |lit|
  {
    if lit != [] && i + |lit| <= |s| {
      OccursAtSlice(s, i + 1, lit[1..]);
      assert s[i..i + |lit|] == [s[i]] + s[i + 1..i + |lit|];
    }
  }

  /** End of the longest run of `cls` characters that starts at `from`: what a greedy
      `\w+` or `\d+` consumes when nothing follows it in the pattern. */
  function RunEnd(s: string, cls: CharClass, from: nat): (r: nat)
    requires from <= |s|
    decreases |s| - from
    ensures from <= r <= |s|
    ensures forall i :: from <= i < r ==> InClass(s[i], cls)
    ensures r < |s| ==> !InClass(s[r], cls)
  {
    if from < |s| && InClass(s[from], cls) then RunEnd(s, cls, from + 1) else from
  }

  /** A run that ends at a character outside the class is the run RunEnd finds. */
  lemma {:induction false} RunEndUnique(s: string, cls: CharClass, from: nat, k: nat)
    requires from <= k <= |s|
    requires forall i :: from <= i < k ==> InClass(s[i], cls)
    requires k < |s| ==> !InClass(s[k], cls)
    ensures RunEnd(s, cls, from) == k
    decreases k - from
  {
    if from < k {
      RunEndUnique(s, cls, from + 1, k);
    }
  }

  function DigitValue(c: char): (r: nat)
    requires IsDigit(c)
    ensures r < 10
  {
    (c as int) - ('0' as int)
  }

  function DigitChar(d: nat): (c: char)
    requires d < 10
    ensures IsDigit(c) && DigitValue(c) == d
  {
    (('0' as int) + d) as char
  }

  /** The value of a string of decimal digits, most significant first. */
  function DecimalValue(s: string): (r: nat)
    requires AllIn(s, Digit)
    ensures |s| > 0 && s[0] != '0' ==> r > 0
  {
    if s == [] then 0
    else
      DecimalValue(s[..|s| - 1]) * 10 + DigitValue(s[|s| - 1])
  }

  /** `%d` of a non-negative number: shortest decimal spelling. */
  function DecimalString(n: nat): (s: string)
    ensures |s| > 0 && AllIn(s, Digit)
    ensures |s| > 1 ==> s[0] != '0'
  {
    if n < 10 then [DigitChar(n)] else DecimalString(n / 10) + [DigitChar(n % 10)]
  }

  /** `%d` of any int. */
  function FormatInt(n: int): (s: string)
    ensures |s| > 0
    ensures n >= 0 <==> s[0] != '-'
  {
    if n < 0 then "-" + DecimalString(-n) else DecimalString(n)
  }

  /** Reading back what `%d` writes gives the number again. */
  lemma {:induction false} DecimalRoundTrip(n: nat)
    ensures DecimalValue(DecimalString(n)) == n
  {
    var s := DecimalString(n);
    if n >= 10 {
      DecimalRoundTrip(n / 10);
      assert s[..|s| - 1] == DecimalString(n / 10);
    }
  }

  const MaxInt64: nat := 0x7fff_ffff_ffff_ffff

  /** `strconv.Atoi` on a string of digits with its error ignored: the value, clamped to
      the largest 64-bit int when it does not fit (Go returns that value with ErrRange). */
  function Atoi(s: string): (r: nat)
    requires AllIn(s, Digit)
    ensures r <= MaxInt64
    ensures DecimalValue(s) <= MaxInt64 ==> r == DecimalValue(s)
    ensures DecimalValue(s) > MaxInt64 ==> r == MaxInt64
  {
    var v := DecimalValue(s);
    if v <= MaxInt64 then v else MaxInt64
  }
}
