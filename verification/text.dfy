/**
 * The `java.lang.String` operations the client relies on, written out over
 * `seq<char>`: `trim`, `toLowerCase` (ASCII letters only), `Integer.toString`
 * for non-negative values, `contains`, `endsWith`, `replace` and `substring`.
 */
module Text {
  import opened Common

  // ---------------------------------------------------------------- trim

  /** `String.trim` strips every character whose code is at most U+0020. */
  predicate IsBlank(c: char) {
    c <= ' '
  }

  function TrimStart(s: string): (r: string)
    ensures |r| <= |s| && r == s[|s| - |r|..]
    ensures forall i :: 0 <= i < |s| - |r| ==> IsBlank(s[i])
    ensures r != [] ==> !IsBlank(r[0])
    decreases |s|
  {
    if s != [] && IsBlank(s[0]) then TrimStart(s[1..]) else s
  }

  function TrimEnd(s: string): (r: string)
    ensures |r| <= |s| && r == s[..|r|]
    ensures forall i :: |r| <= i < |s| ==> IsBlank(s[i])
    ensures r != [] ==> !IsBlank(r[|r| - 1])
    decreases |s|
  {
    if s != [] && IsBlank(s[|s| - 1]) then TrimEnd(s[..|s| - 1]) else s
  }

  /**
   * The trimmed string is empty exactly when every character is blank;
   * otherwise it starts and ends with a non-blank character. (That it is a
   * slice of `s` is stated by `TrimStart` and `TrimEnd`.)
   */
  function Trim(s: string): (r: string)
    ensures r == [] <==> forall i :: 0 <= i < |s| ==> IsBlank(s[i])
    ensures r != [] ==> !IsBlank(r[0]) && !IsBlank(r[|r| - 1])
    ensures |r| <= |s|
  {
    TrimEnd(TrimStart(s))
  }

  // --------------------------------------------------------- toLowerCase

  predicate IsUpper(c: char) {
    'A' <= c <= 'Z'
  }

  function LowerChar(c: char): char {
    if IsUpper(c) then (c as int + 32) as char else c
  }

  /**
   * `toLowerCase(Locale.getDefault())`, restricted to the ASCII letters:
   * no upper-case letter survives and every other character is kept.
   */
  function Lower(s: string): (r: string)
    ensures |r| == |s|
    ensures forall i :: 0 <= i < |r| ==> !IsUpper(r[i])
    ensures forall i :: 0 <= i < |s| && !IsUpper(s[i]) ==> r[i] == s[i]
  {
    seq(|s|, i requires 0 <= i < |s| => LowerChar(s[i]))
  }

  /** Lower-casing twice is lower-casing once. */
  lemma LowerIdempotent(s: string)
    ensures Lower(Lower(s)) == Lower(s)
  {
    var once := Lower(s);
    assert forall i :: 0 <= i < |once| ==> Lower(once)[i] == once[i];
  }

  /** A string without upper-case letters is its own lower-case form. */
  lemma LowerKeepsLowerCase(s: string)
    requires forall i :: 0 <= i < |s| ==> !IsUpper(s[i])
    ensures Lower(s) == s
  {
    assert forall i :: 0 <= i < |s| ==> Lower(s)[i] == s[i];
  }

  // ------------------------------------------------------ decimal numbers

  predicate IsDigit(c: char) {
    '0' <= c <= '9'
  }

  function Digit(d: nat): (c: char)
    requires d < 10
    ensures IsDigit(c)
  {
    ('0' as int + d) as char
  }

  function DigitValue(c: char): nat
    requires IsDigit(c)
  {
    c as int - '0' as int
  }

  /** A non-empty run of decimal digits. */
  predicate IsDecimal(s: string) {
    s != [] && forall i :: 0 <= i < |s| ==> IsDigit(s[i])
  }

  /**
   * `Integer.toString(n)` for `n >= 0`: decimal digits with no padding,
   * so the first digit is '0' only for zero itself.
   */
  function DecimalString(n: nat): (r: string)
    ensures IsDecimal(r)
    ensures r[0] == '0' <==> n == 0
    ensures n < 10 <==> |r| == 1
  {
    if n < 10 then [Digit(n)] else DecimalString(n / 10) + [Digit(n % 10)]
  }

  /** The number a string of decimal digits denotes. */
  function DecimalValue(s: string): nat
    requires forall i :: 0 <= i < |s| ==> IsDigit(s[i])
  {
    if s == [] then 0 else DecimalValue(s[..|s| - 1]) * 10 + DigitValue(s[|s| - 1])
  }

  /** Reading back the decimal form of `n` gives `n`. */
  lemma {:induction false} DecimalRoundTrip(n: nat)
    ensures DecimalValue(DecimalString(n)) == n
  {
    if n >= 10 {
      var r := DecimalString(n);
      assert r[..|r| - 1] == DecimalString(n / 10);
      DecimalRoundTrip(n / 10);
    }
  }

  /** Distinct numbers have distinct decimal forms. */
  lemma DecimalStringInjective(m: nat, n: nat)
    ensures DecimalString(m) == DecimalString(n) ==> m == n
  {
    DecimalRoundTrip(m);
    DecimalRoundTrip(n);
  }

  /** A decimal form has no letters, so lower-casing leaves it unchanged. */
  lemma LowerDecimal(n: nat)
    ensures Lower(DecimalString(n)) == DecimalString(n)
  {
    LowerKeepsLowerCase(DecimalString(n));
  }

  // ------------------------------------------- contains, replace, endsWith

  predicate StartsWith(s: string, prefix: string) {
    |prefix| <= |s| && s[..|prefix|] == prefix
  }

  predicate EndsWith(s: string, suffix: string) {
    |suffix| <= |s| && s[|s| - |suffix|..] == suffix
  }

  /** `s.contains(pat)`: `pat` occurs at some position of `s`. */
  predicate Contains(s: string, pat: string)
    decreases |s|
  {
    StartsWith(s, pat) || (s != [] && Contains(s[1..], pat))
  }

  /**
   * `s.replace(pat, rep)` for a non-empty `pat`: scanning left to right,
   * every occurrence that does not overlap an earlier replaced one is
   * replaced. Where `pat` does not occur, nothing changes.
   */
  function ReplaceAll(s: string, pat: string, rep: string): (r: string)
    requires pat != []
    ensures !Contains(s, pat) ==> r == s
    decreases |s|
  {
    if |s| < |pat| then s
    else if StartsWith(s, pat) then rep + ReplaceAll(s[|pat|..], pat, rep)
    else [s[0]] + ReplaceAll(s[1..], pat, rep)
  }

  /** A string that lacks some character of `pat` does not contain `pat`. */
  lemma {:induction false} LacksCharOf(s: string, pat: string, k: nat)
    requires k < |pat| && forall i :: 0 <= i < |s| ==> s[i] != pat[k]
    ensures !Contains(s, pat)
    decreases |s|
  {
    if s != [] {
      assert !StartsWith(s, pat) by {
        if |pat| <= |s| {
          assert s[..|pat|][k] == s[k];
        }
      }
      LacksCharOf(s[1..], pat, k);
    }
  }

  /** A string that ends with `pat` contains it. */
  lemma {:induction false} ContainsAppended(s: string, pat: string)
    ensures Contains(s + pat, pat)
    decreases |s|
  {
    if s == [] {
      assert s + pat == pat;
      assert StartsWith(pat, pat);
    } else {
      assert (s + pat)[1..] == s[1..] + pat;
      ContainsAppended(s[1..], pat);
    }
  }

  /**
   * Appending `pat` to a string that lacks its first character and then
   * replacing `pat` by `rep` replaces exactly the appended copy.
   */
  lemma {:induction false} ReplaceAppended(s: string, pat: string, rep: string)
    requires pat != [] && forall i :: 0 <= i < |s| ==> s[i] != pat[0]
    ensures ReplaceAll(s + pat, pat, rep) == s + rep
    decreases |s|
  {
    if s == [] {
      assert s + pat == pat;
      assert pat[|pat|..] == [];
    } else {
      assert !StartsWith(s + pat, pat) by {
        assert (s + pat)[..|pat|][0] == s[0];
      }
      assert (s + pat)[1..] == s[1..] + pat;
      ReplaceAppended(s[1..], pat, rep);
      assert [s[0]] + (s[1..] + rep) == s + rep;
    }
  }

  // ----------------------------------------------------------- substring

  /**
   * `s.substring(begin, end)`: `None` stands for the
   * `StringIndexOutOfBoundsException` thrown when the bounds are not
   * `0 <= begin <= end <= length`.
   */
  function Substring(s: string, begin: int, end: int): (r: Option<string>)
    ensures r.Some? <==> 0 <= begin <= end <= |s|
    ensures r.Some? ==> |r.value| == end - begin
                        && forall i :: 0 <= i < end - begin ==> r.value[i] == s[begin + i]
  {
    if 0 <= begin <= end <= |s| then Some(s[begin..end]) else None
  }

  /** `s.substring(begin)`, that is `s.substring(begin, s.length())`. */
  function SubstringFrom(s: string, begin: int): (r: Option<string>)
    ensures r.Some? <==> 0 <= begin <= |s|
    ensures r.Some? ==> r.value == s[begin..]
  {
    Substring(s, begin, |s|)
  }
}
