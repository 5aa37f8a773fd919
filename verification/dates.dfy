/**
 * The string surgery of `DateSerializer.deserialize`: an ISO-8601 date as
 * .NET writes it is rewritten into the 28-character shape
 * "yyyy-MM-ddTHH:mm:ss.SSS+0000" that Java's date formatter is given
 * next. The rewriting goes through a 29-character intermediate form
 * "yyyy-MM-ddTHH:mm:ss.SSS+00:00" and finally drops the colon of the
 * offset, at index 26.
 */
module Dates {
  import opened Common
  import opened Text

  /** The length of "yyyy-MM-ddTHH:mm:ss.SSS+00:00". */
  const FullLength := 29

  /** The UTC offset .NET appends, and the one the rewriting introduces. */
  const Utc := "+00:00"

  /** The message of the `IndexOutOfBoundsException` raised for a short string. */
  function LengthError(s: string): string {
    "Invalid length for: " + s
  }

  function Zeros(n: nat): (r: string)
    ensures |r| == n && forall i :: 0 <= i < n ==> r[i] == '0'
  {
    seq(n, _ => '0')
  }

  /**
   * The first rewriting: every "+00:00" is removed; then a bare
   * 19-character date-time gets ".+00:00", and otherwise ".Z", or failing
   * that "Z", is replaced by ".+00:00". A string that is not 19 characters
   * long and holds none of the three patterns passes unchanged.
   */
  function Adapt(strVal: string): (r: string)
    ensures !Contains(strVal, Utc) && |strVal| == 19 ==> r == strVal + "." + Utc
    ensures !Contains(strVal, Utc) && |strVal| != 19 && !Contains(strVal, ".Z") && !Contains(strVal, "Z") ==> r == strVal
  {
    var v := if Contains(strVal, Utc) then ReplaceAll(strVal, Utc, "") else strVal;
    if |v| == 19 then v + "." + Utc
    else if Contains(v, ".Z") then ReplaceAll(v, ".Z", "." + Utc)
    else ReplaceAll(v, "Z", "." + Utc)
  }

  /**
   * The 29-character form: a longer string keeps its first 23 characters
   * (date-time, point and three fraction digits) and its last 6 (the
   * offset); a shorter one gets `29 - |s|` zeros inserted before its last 6.
   */
  function Fixed(s: string): (r: string)
    requires |s| >= 6
    ensures |r| == FullLength
    ensures r[23..] == s[|s| - 6..]
    ensures |s| >= FullLength ==> r[..23] == s[..23]
    ensures |s| == FullLength ==> r == s
    ensures |s| < FullLength ==> r[..|s| - 6] == s[..|s| - 6]
                                 && forall i :: |s| - 6 <= i < 23 ==> r[i] == '0'
  {
    if |s| > FullLength then s[..23] + s[|s| - 6..]
    else if |s| < FullLength then
      var dif := FullLength - |s|;
      s[..20 + (3 - dif)] + Zeros(dif) + s[|s| - 6..]
    else s
  }

  /**
   * The string handed to the formatter: the 29-character form without its
   * character at index 26, or the length error when the string is too
   * short to cut (fewer than 6 characters).
   */
  function Canonical(s: string): (r: Result<string, string>)
    ensures r.Ok? <==> |s| >= 6
    ensures r.Err? ==> r.error == LengthError(s)
    ensures r.Ok? ==> |r.value| == FullLength - 1
                      && r.value[..26] == Fixed(s)[..26]
                      && r.value[26..] == Fixed(s)[27..]
  {
    if |s| < 6 then Err(LengthError(s))
    else
      var f := Fixed(s);
      Ok(f[..26] + f[27..])
  }

  /**
   * The whole normalisation, as a function of the input: it fails, with
   * the rewritten string in the message, exactly when the rewriting leaves
   * fewer than 6 characters, and otherwise yields 28 characters.
   */
  function Normalise(strVal: string): (r: Result<string, string>)
    ensures r.Ok? <==> |Adapt(strVal)| >= 6
    ensures r.Err? ==> r.error == LengthError(Adapt(strVal))
    ensures r.Ok? ==> |r.value| == FullLength - 1
  {
    Canonical(Adapt(strVal))
  }

  /**
   * `deserialize` up to the formatter call: the local string is rewritten
   * step by step and the zero padding is built one character at a time.
   * The result is the normalised string, or the length error.
   */
  method Deserialize(strVal: string) returns (r: Result<string, string>)
    ensures r == Normalise(strVal)
    ensures r.Ok? <==> |Adapt(strVal)| >= 6
    ensures r.Ok? ==> |r.value| == FullLength - 1
  {
    var v := strVal;
    if Contains(v, Utc) {
      v := ReplaceAll(v, Utc, "");
    }
    var s: string;
    if |v| == 19 {
      s := v + "." + Utc;
    } else if Contains(v, ".Z") {
      s := ReplaceAll(v, ".Z", "." + Utc);
    } else {
      s := ReplaceAll(v, "Z", "." + Utc);
    }
    ghost var adapted := s;
    if |s| > FullLength {
      s := s[..23] + s[|s| - 6..];
    } else if |s| < FullLength {
      var dif := FullLength - |s|;
      var zeros := "";
      for i := 0 to dif
        invariant zeros == Zeros(i)
      {
        zeros := zeros + "0";
      }
      var head := Substring(s, 0, 20 + (3 - dif));
      var tail := SubstringFrom(s, |s| - 6);
      if head.None? || tail.None? {
        return Err(LengthError(s));
      }
      s := head.value + zeros + tail.value;
    }
    assert s == Fixed(adapted);
    s := s[..26] + s[27..];
    return Ok(s);
  }

  // ------------------------------------------------ well-formed inputs

  predicate DateTimeChar(c: char) {
    IsDigit(c) || c == '-' || c == 'T' || c == ':'
  }

  /** "yyyy-MM-ddTHH:mm:ss": 19 characters, none of them '.', 'Z' or '+'. */
  predicate IsDateTime(dt: string) {
    |dt| == 19 && forall i :: 0 <= i < |dt| ==> DateTimeChar(dt[i])
  }

  predicate IsDigits(f: string) {
    forall i :: 0 <= i < |f| ==> IsDigit(f[i])
  }

  /** A 29-character form ending in "+00:00" loses the offset's colon. */
  lemma CanonicalOfFixed(s: string, head: string)
    requires |s| >= 6 && |head| == 23 && Fixed(s) == head + Utc
    ensures Canonical(s) == Ok(head + "+0000")
  {
    var f := Fixed(s);
    var out := f[..26] + f[27..];
    forall i | 0 <= i < |out|
      ensures out[i] == (head + "+0000")[i]
    {
      if i < 26 {
        assert out[i] == f[i];
      } else {
        assert out[i] == f[i + 1];
      }
    }
    assert out == head + "+0000";
  }

  /**
   * Removing "+00:00" comes first: appending it to a string without '+'
   * changes nothing.
   */
  lemma OffsetRemovedFirst(s: string)
    requires forall i :: 0 <= i < |s| ==> s[i] != '+'
    ensures Adapt(s + Utc) == Adapt(s)
  {
    ContainsAppended(s, Utc);
    ReplaceAppended(s, Utc, "");
    assert s + "" == s;
    LacksCharOf(s, Utc, 0);
  }

  /**
   * A date-time without a fraction, bare or followed by "Z", ".Z" or
   * "+00:00", gets a zero fraction and the offset "+0000".
   */
  lemma WholeSecondsNormalised(dt: string)
    requires IsDateTime(dt)
    ensures Normalise(dt) == Ok(dt + ".000+0000")
    ensures Normalise(dt + "Z") == Ok(dt + ".000+0000")
    ensures Normalise(dt + ".Z") == Ok(dt + ".000+0000")
    ensures Normalise(dt + Utc) == Ok(dt + ".000+0000")
  {
    PaddedWholeSeconds(dt);
    AdaptBare(dt);
    AdaptZulu(dt);
    AdaptDotZulu(dt);
    OffsetRemovedFirst(dt);
  }

  /** The 26-character form of a whole-seconds date gets three zeros. */
  lemma PaddedWholeSeconds(dt: string)
    requires IsDateTime(dt)
    ensures Canonical(dt + "." + Utc) == Ok(dt + ".000+0000")
  {
    var padded := dt + "." + Utc;
    var f := Fixed(padded);
    assert f[..20] == dt + ".";
    assert f[20..23] == "000";
    assert f == (dt + ".000") + Utc;
    CanonicalOfFixed(padded, dt + ".000");
    assert (dt + ".000") + "+0000" == dt + (".000" + "+0000");
    assert ".000" + "+0000" == ".000+0000";
  }

  lemma AdaptBare(dt: string)
    requires IsDateTime(dt)
    ensures Adapt(dt) == dt + "." + Utc
  {
    LacksCharOf(dt, Utc, 0);
  }

  lemma AdaptZulu(dt: string)
    requires IsDateTime(dt)
    ensures Adapt(dt + "Z") == dt + "." + Utc
  {
    LacksCharOf(dt + "Z", Utc, 0);
    LacksCharOf(dt + "Z", ".Z", 0);
    ReplaceAppended(dt, "Z", "." + Utc);
  }

  lemma AdaptDotZulu(dt: string)
    requires IsDateTime(dt)
    ensures Adapt(dt + ".Z") == dt + "." + Utc
  {
    LacksCharOf(dt + ".Z", Utc, 0);
    ContainsAppended(dt, ".Z");
    ReplaceAppended(dt, ".Z", "." + Utc);
  }

  /** "2014-01-01T12:00:00" becomes "2014-01-01T12:00:00.000+0000". */
  lemma WorkedExample(strVal: string)
    requires strVal == "2014-01-01T12:00:00"
    ensures Normalise(strVal) == Ok(strVal + ".000+0000")
  {
    assert IsDateTime(strVal) by {
      assert forall i :: 0 <= i < |strVal| ==> DateTimeChar(strVal[i]);
    }
    WholeSecondsNormalised(strVal);
  }

  /**
   * A fraction of three or more digits followed by "Z" is cut to its first
   * three digits.
   */
  lemma MillisecondsNormalised(dt: string, fraction: string)
    requires IsDateTime(dt) && IsDigits(fraction) && |fraction| >= 3
    ensures Normalise(dt + "." + fraction + "Z") == Ok(dt + "." + fraction[..3] + "+0000")
  {
    var stem := dt + "." + fraction;
    ZuluFractionAdapted(dt, fraction);
    var adapted := stem + "." + Utc;
    var head := dt + "." + fraction[..3];
    assert adapted[..23] == head;
    assert Fixed(adapted) == head + Utc;
    CanonicalOfFixed(adapted, head);
  }

  /** A date-time, a point and digits, then "Z": ".Z" never occurs. */
  lemma ShortFractionHasNoDotZ(dt: string, fraction: string)
    requires IsDateTime(dt) && IsDigits(fraction) && |fraction| >= 1
    ensures !Contains(dt + "." + fraction + "Z", ".Z")
  {
    var s := dt + "." + fraction + "Z";
    LacksPair(s, '.', 'Z');
    assert ".Z" == ['.', 'Z'];
  }

  /** A string with no `a` directly followed by `b` does not contain "ab". */
  lemma {:induction false} LacksPair(s: string, a: char, b: char)
    requires forall i :: 0 <= i < |s| - 1 ==> !(s[i] == a && s[i + 1] == b)
    ensures !Contains(s, [a, b])
    decreases |s|
  {
    if s != [] {
      assert !StartsWith(s, [a, b]) by {
        if 2 <= |s| {
          assert s[..2] == [s[0], s[1]];
        }
      }
      LacksPair(s[1..], a, b);
    }
  }

  // ---------------------------------------------------------- findings

  /**
   * As written, a fraction of one or two digits before "Z" keeps the point
   * that the "Z" rewriting adds, and the zero padding goes after it: the
   * result holds a second '.' where a digit belongs, unlike the intended
   * normalisation.
   */
  lemma ShortFractionMisplacesPadding(dt: string, fraction: string)
    requires IsDateTime(dt) && IsDigits(fraction) && 1 <= |fraction| <= 2
    ensures Normalise(dt + "." + fraction + "Z")
            == Ok(dt + "." + fraction + "." + Zeros(2 - |fraction|) + "+0000")
    ensures Normalise(dt + "." + fraction + "Z") != IntendedNormalise(dt + "." + fraction + "Z")
  {
    ShortFractionWritten(dt, fraction);
    IntendedOfZuluFraction(dt, fraction);
    var written := dt + "." + fraction + "." + Zeros(2 - |fraction|) + "+0000";
    var intended := dt + "." + Millis(fraction) + "+0000";
    assert written != intended by {
      assert written[20 + |fraction|] == '.';
      assert intended[20 + |fraction|] == Millis(fraction)[|fraction|];
      assert IsDigit(Millis(fraction)[|fraction|]);
    }
  }

  /** The intended value of a fraction followed by "Z". */
  lemma IntendedOfZuluFraction(dt: string, fraction: string)
    requires IsDateTime(dt) && IsDigits(fraction) && |fraction| >= 1
    ensures IntendedNormalise(dt + "." + fraction + "Z") == Ok(dt + "." + Millis(fraction) + "+0000")
  {
    IntendedNormalised(dt, fraction, "Z");
    assert Stamp(dt, fraction, "Z") == dt + "." + fraction + "Z";
  }

  /** The value the written rewriting gives a one- or two-digit fraction. */
  lemma ShortFractionWritten(dt: string, fraction: string)
    requires IsDateTime(dt) && IsDigits(fraction) && 1 <= |fraction| <= 2
    ensures Normalise(dt + "." + fraction + "Z")
            == Ok(dt + "." + fraction + "." + Zeros(2 - |fraction|) + "+0000")
  {
    var stem := dt + "." + fraction;
    ZuluFractionAdapted(dt, fraction);
    var head := stem + "." + Zeros(2 - |fraction|);
    ShortFractionPadded(stem, head);
    CanonicalOfFixed(stem + "." + Utc, head);
  }

  /** A fraction followed by "Z" gets ".+00:00" in place of the "Z". */
  lemma ZuluFractionAdapted(dt: string, fraction: string)
    requires IsDateTime(dt) && IsDigits(fraction) && |fraction| >= 1
    ensures Adapt(dt + "." + fraction + "Z") == dt + "." + fraction + "." + Utc
  {
    var stem := dt + "." + fraction;
    LacksCharOf(stem + "Z", Utc, 0);
    ShortFractionHasNoDotZ(dt, fraction);
    ReplaceAppended(stem, "Z", "." + Utc);
  }

  /** The padding lands after the point the "Z" rewriting added. */
  lemma ShortFractionPadded(stem: string, head: string)
    requires 21 <= |stem| <= 22 && head == stem + "." + Zeros(22 - |stem|)
    ensures Fixed(stem + "." + Utc) == head + Utc
  {
    var adapted := stem + "." + Utc;
    var f := Fixed(adapted);
    assert f[..|adapted| - 6] == stem + ".";
    assert f[..23] == head;
    assert f[23..] == Utc;
    assert f == f[..23] + f[23..];
  }

  /**
   * A half second written ".5Z", as in "2014-01-01T12:00:00.5Z", comes out
   * as ".5.0+0000" where ".500+0000" is meant.
   */
  lemma HalfSecondExample(dt: string)
    requires IsDateTime(dt)
    ensures Normalise(dt + ".5Z") == Ok(dt + ".5.0+0000")
  {
    assert Zeros(1) == "0";
    assert dt + ".5Z" == dt + "." + "5" + "Z" by {
      assert "." + "5" + "Z" == ".5Z";
      assert dt + "." + "5" + "Z" == dt + ("." + "5" + "Z");
    }
    assert dt + "." + "5" + "." + Zeros(1) + "+0000" == dt + ".5.0+0000" by {
      assert "." + "5" + "." + "0" + "+0000" == ".5.0+0000";
      assert dt + "." + "5" + "." + "0" + "+0000" == dt + ("." + "5" + "." + "0" + "+0000");
    }
    ShortFractionMisplacesPadding(dt, "5");
  }

  /** The intended rewriting reads ".5Z" as half a second: ".500+0000". */
  lemma HalfSecondIntended(dt: string)
    requires IsDateTime(dt)
    ensures IntendedNormalise(dt + ".5Z") == Ok(dt + ".500+0000")
  {
    HalfSecondStamp(dt);
    HalfSecondMillis(dt);
    IntendedNormalised(dt, "5", "Z");
  }

  lemma HalfSecondStamp(dt: string)
    ensures Stamp(dt, "5", "Z") == dt + ".5Z"
  {
    assert "." + "5" + "Z" == ".5Z";
    assert dt + ("." + "5") + "Z" == dt + ("." + "5" + "Z");
  }

  lemma HalfSecondMillis(dt: string)
    ensures dt + "." + Millis("5") + "+0000" == dt + ".500+0000"
  {
    assert Millis("5") == "500" by {
      assert Zeros(2) == "00";
    }
    assert "." + "500" + "+0000" == ".500+0000";
    assert dt + "." + "500" + "+0000" == dt + ("." + "500" + "+0000");
  }

  /**
   * As written, a three-digit fraction followed by "+00:00" loses the
   * offset first and is then padded as if it were too short: six zeros land
   * inside the seconds and the first fraction digit is dropped.
   */
  lemma FractionWithOffsetMangled(dt: string, fraction: string)
    requires IsDateTime(dt) && IsDigits(fraction) && |fraction| == 3
    ensures Normalise(dt + "." + fraction + Utc)
            == Ok(dt[..17] + Zeros(6) + dt[17..] + "." + fraction[1..])
    ensures Normalise(dt + "." + fraction + Utc) != IntendedNormalise(dt + "." + fraction + Utc)
  {
    var stem := dt + "." + fraction;
    OffsetFractionAdapted(stem);
    var f := Fixed(stem);
    WrittenPadding(stem);
    var out := dt[..17] + Zeros(6) + dt[17..] + "." + fraction[1..];
    assert f[..26] + f[27..] == out by {
      assert f[..26] == stem[..17] + Zeros(6) + stem[17..20];
      assert f[27..] == stem[21..];
      assert stem[..17] == dt[..17] && stem[17..20] == dt[17..] + ".";
      assert stem[21..] == fraction[1..];
    }
    IntendedOfOffsetFraction(dt, fraction);
    var intended := dt + "." + Millis(fraction) + "+0000";
    assert out != intended by {
      assert out[19] == '0' && intended[19] == '.';
    }
  }

  /** The intended value of a fraction followed by "+00:00". */
  lemma IntendedOfOffsetFraction(dt: string, fraction: string)
    requires IsDateTime(dt) && IsDigits(fraction) && |fraction| >= 1
    ensures IntendedNormalise(dt + "." + fraction + Utc) == Ok(dt + "." + Millis(fraction) + "+0000")
  {
    IntendedNormalised(dt, fraction, Utc);
    assert Stamp(dt, fraction, Utc) == dt + "." + fraction + Utc;
  }

  /** With no '+' or 'Z' in the date, removing the offset leaves the bare date. */
  lemma OffsetFractionAdapted(stem: string)
    requires |stem| == 23
    requires forall i :: 0 <= i < |stem| ==> stem[i] != '+' && stem[i] != 'Z'
    ensures Adapt(stem + Utc) == stem
  {
    OffsetRemovedFirst(stem);
    LacksCharOf(stem, Utc, 0);
    LacksCharOf(stem, ".Z", 1);
    LacksCharOf(stem, "Z", 0);
  }

  /** A 23-character string gets six zeros after its first 17 characters. */
  lemma WrittenPadding(s: string)
    requires |s| == 23
    ensures Fixed(s) == s[..17] + Zeros(6) + s[17..]
  {
    var f := Fixed(s);
    assert f[..17] == s[..17];
    assert f[17..23] == Zeros(6);
    assert f[23..] == s[17..];
    assert f == f[..17] + f[17..23] + f[23..];
  }

  /** Three digits or the fraction padded with zeros to three digits. */
  function Millis(fraction: string): (r: string)
    ensures |r| == 3
    ensures IsDigits(fraction) ==> IsDigits(r)
    ensures r[..if |fraction| < 3 then |fraction| else 3] == fraction[..if |fraction| < 3 then |fraction| else 3]
  {
    if |fraction| >= 3 then fraction[..3] else fraction + Zeros(3 - |fraction|)
  }

  /** An ISO-8601 date: date-time, optional fraction, then "", "Z" or "+00:00". */
  function Stamp(dt: string, fraction: string, suffix: string): string {
    dt + (if fraction == [] then "" else "." + fraction) + suffix
  }

  /** The shape the formatter pattern "yyyy-MM-dd'T'HH:mm:ss'.'SSSZ" reads. */
  predicate IsFormatterInput(s: string) {
    && |s| == FullLength - 1
    && IsDateTime(s[..19])
    && s[19] == '.'
    && IsDigits(s[20..23])
    && s[23..] == "+0000"
  }

  /**
   * The normalisation the rewriting evidently intends: the offset or "Z" is
   * taken off, and the date-time is followed by the fraction cut or padded
   * to three digits and "+0000".
   */
  function IntendedNormalise(strVal: string): (r: Result<string, string>)
    ensures r.Ok? ==> |r.value| == FullLength - 1 && EndsWith(r.value, "+0000") && r.value[19] == '.'
  {
    var v := StripZone(strVal);
    if |v| < 19 || (|v| > 19 && v[19] != '.') then Err(LengthError(strVal))
    else
      var fraction := if |v| == 19 then "" else v[20..];
      Ok(v[..19] + "." + Millis(fraction) + "+0000")
  }

  /** The input without a trailing "+00:00" or "Z". */
  function StripZone(strVal: string): string {
    if EndsWith(strVal, Utc) then strVal[..|strVal| - 6]
    else if EndsWith(strVal, "Z") then strVal[..|strVal| - 1]
    else strVal
  }

  /** Taking the zone off a date without '+' or 'Z' leaves the date. */
  lemma StripZoneOfStamp(body: string, suffix: string)
    requires forall i :: 0 <= i < |body| ==> body[i] != '+' && body[i] != 'Z'
    requires suffix == "" || suffix == "Z" || suffix == Utc
    ensures StripZone(body + suffix) == body
  {
    var s := body + suffix;
    if suffix == "" {
      assert s == body;
      assert !EndsWith(s, Utc) by {
        if |Utc| <= |s| {
          assert s[|s| - 6..][0] == s[|s| - 6];
        }
      }
      assert !EndsWith(s, "Z") by {
        if s != [] {
          assert s[|s| - 1..][0] == s[|s| - 1];
        }
      }
    } else if suffix == "Z" {
      assert !EndsWith(s, Utc) by {
        if |Utc| <= |s| {
          assert s[|s| - 6..][5] == s[|s| - 1] == 'Z';
        }
      }
      assert EndsWith(s, "Z");
      assert s[..|s| - 1] == body;
    } else {
      assert EndsWith(s, Utc);
      assert s[..|s| - 6] == body;
    }
  }

  /**
   * Every well-formed date normalises, under the intended rewriting, to
   * its date-time, its fraction as three digits and "+0000".
   */
  lemma IntendedNormalised(dt: string, fraction: string, suffix: string)
    requires IsDateTime(dt) && IsDigits(fraction)
    requires suffix == "" || suffix == "Z" || suffix == Utc
    ensures IntendedNormalise(Stamp(dt, fraction, suffix)) == Ok(dt + "." + Millis(fraction) + "+0000")
  {
    var body := dt + (if fraction == [] then "" else "." + fraction);
    assert Stamp(dt, fraction, suffix) == body + suffix;
    forall i | 0 <= i < |body|
      ensures body[i] != '+' && body[i] != 'Z'
    {
      if i >= 19 && i != 19 {
        assert body[i] == fraction[i - 20];
      }
    }
    StripZoneOfStamp(body, suffix);
    assert body[..19] == dt;
    if fraction != [] {
      assert body[19] == '.';
      assert body[20..] == fraction;
    }
  }

  /** What the intended rewriting yields is a string the formatter pattern reads. */
  lemma IntendedIsFormatterInput(dt: string, fraction: string)
    requires IsDateTime(dt) && IsDigits(fraction)
    ensures IsFormatterInput(dt + "." + Millis(fraction) + "+0000")
  {
    var out := dt + "." + Millis(fraction) + "+0000";
    assert out[..19] == dt && out[20..23] == Millis(fraction) && out[23..] == "+0000";
  }

  /**
   * Where the written rewriting gets a date without a fraction right (bare,
   * or followed by "Z" or "+00:00") it agrees with the intended one.
   */
  lemma WholeSecondsAgree(dt: string, suffix: string)
    requires IsDateTime(dt)
    requires suffix == "" || suffix == "Z" || suffix == Utc
    ensures Normalise(Stamp(dt, "", suffix)) == IntendedNormalise(Stamp(dt, "", suffix))
  {
    WholeSecondsIntended(dt, suffix);
    var s := Stamp(dt, "", suffix);
    assert s == dt + suffix;
    WholeSecondsNormalised(dt);
    if suffix == "" {
      assert s == dt;
    }
  }

  /** Under the intended rewriting a date without a fraction gets ".000+0000". */
  lemma WholeSecondsIntended(dt: string, suffix: string)
    requires IsDateTime(dt)
    requires suffix == "" || suffix == "Z" || suffix == Utc
    ensures IntendedNormalise(Stamp(dt, "", suffix)) == Ok(dt + ".000+0000")
  {
    IntendedNormalised(dt, "", suffix);
    ZeroMillis(dt);
  }

  /** No fraction reads as zero milliseconds. */
  lemma ZeroMillis(dt: string)
    ensures dt + "." + Millis("") + "+0000" == dt + ".000+0000"
  {
    assert Millis("") == "000" by {
      assert Zeros(3) == "000";
      assert "" + Zeros(3) == Zeros(3);
    }
    assert "." + "000" + "+0000" == ".000+0000";
    assert dt + "." + "000" + "+0000" == dt + ("." + "000" + "+0000");
  }

  /**
   * A fraction of three or more digits before "Z" is also read alike by the
   * written and the intended rewriting.
   */
  lemma MillisecondsAgree(dt: string, fraction: string)
    requires IsDateTime(dt) && IsDigits(fraction) && |fraction| >= 3
    ensures Normalise(Stamp(dt, fraction, "Z")) == IntendedNormalise(Stamp(dt, fraction, "Z"))
  {
    assert Stamp(dt, fraction, "Z") == dt + "." + fraction + "Z";
    IntendedNormalised(dt, fraction, "Z");
    MillisecondsNormalised(dt, fraction);
  }
}
