/**
 * The argument and flag helpers of internal/utils: membership, exact arity
 * and required-flag checks. The Go helpers receive their slice by pointer and
 * only read it; here the slice is a `seq`, a value the helpers cannot change.
 */
module Utils {
  import opened Common

  /** `Contains`: a scan for `str` that stops at the first match. */
  method Contains(s: seq<string>, str: string) returns (found: bool)
    ensures found <==> exists i :: 0 <= i < |s| && s[i] == str
  {
    var i := 0;
    while i < |s|
      invariant 0 <= i <= |s|
      invariant forall j :: 0 <= j < i ==> s[j] != str
    {
      if s[i] == str {
        return true;
      }
      i := i + 1;
    }
    return false;
  }

  /**
   * `ValidateLength`: nil exactly when the slice has the expected length,
   * otherwise an error whose text states both counts.
   */
  function ValidateLength(s: seq<string>, expected: int): (err: Option<Error>)
    ensures err.None? <==> |s| == expected
    ensures err.Some? ==> err.value.ArityError?
    ensures err.Some? ==> ParseArityMessage(err.value.Message()) == Some((|s|, expected))
  {
    if |s| != expected then
      ArityMessageRoundTrip(|s|, expected);
      Some(ArityError(|s|, expected))
    else
      None
  }

  /** `RequiredFlagVerification`: true unless some flag is the empty string. */
  method RequiredFlagVerification(flags: seq<string>) returns (ok: bool)
    ensures ok <==> forall i :: 0 <= i < |flags| ==> |flags[i]| > 0
  {
    var i := 0;
    while i < |flags|
      invariant 0 <= i <= |flags|
      invariant forall j :: 0 <= j < i ==> |flags[j]| > 0
    {
      if |flags[i]| == 0 {
        return false;
      }
      i := i + 1;
    }
    return true;
  }

  // ---------------------------------------------------------------------
  // Reading the arity error text back: the message determines both counts.
  // ---------------------------------------------------------------------

  const ArityPrefix: string := "error: "
  const AritySeparator: string := " arguments does not match required "

  /** The value of a string of decimal digits (most significant first). */
  function DigitsToNat(s: string): nat
  {
    if s == [] then 0 else DigitsToNat(s[..|s| - 1]) * 10 + DigitValue(s[|s| - 1])
  }

  /** Reads back what `IntToString` writes. */
  function ParseInt(s: string): int
  {
    if |s| > 0 && s[0] == '-' then -(DigitsToNat(s[1..]) as int) else DigitsToNat(s)
  }

  /** The number of decimal digits at the start of `s`. */
  function LeadingDigits(s: string): (k: nat)
    ensures k <= |s|
    ensures forall i :: 0 <= i < k ==> IsDigit(s[i])
    ensures k < |s| ==> !IsDigit(s[k])
  {
    if s == [] || !IsDigit(s[0]) then 0 else 1 + LeadingDigits(s[1..])
  }

  /** Splits an arity error text into its received and required counts. */
  function ParseArityMessage(m: string): Option<(nat, int)>
  {
    if |m| < |ArityPrefix| || m[..|ArityPrefix|] != ArityPrefix then None
    else
      var rest := m[|ArityPrefix|..];
      var k := LeadingDigits(rest);
      var tail := rest[k..];
      if k == 0 || |tail| < |AritySeparator| || tail[..|AritySeparator|] != AritySeparator then None
      else Some((DigitsToNat(rest[..k]), ParseInt(tail[|AritySeparator|..])))
  }

  lemma DigitRoundTrip(d: nat)
    requires d < 10
    ensures DigitValue(DigitChar(d)) == d
  {
  }

  lemma {:induction false} NatRoundTrip(n: nat)
    ensures DigitsToNat(NatToString(n)) == n
  {
    var s := NatToString(n);
    if n < 10 {
      DigitRoundTrip(n);
      assert s[..|s| - 1] == [];
    } else {
      NatRoundTrip(n / 10);
      DigitRoundTrip(n % 10);
      assert s[..|s| - 1] == NatToString(n / 10);
    }
  }

  lemma IntRoundTrip(i: int)
    ensures ParseInt(IntToString(i)) == i
  {
    var s := IntToString(i);
    if i < 0 {
      var n := NatToString(-i);
      assert s == "-" + n;
      assert s[1..] == n;
      NatRoundTrip(-i);
    } else {
      assert s == NatToString(i);
      NatRoundTrip(i);
    }
  }

  lemma {:induction false} LeadingDigitsOfConcat(d: string, rest: string)
    requires forall i :: 0 <= i < |d| ==> IsDigit(d[i])
    requires rest == [] || !IsDigit(rest[0])
    ensures LeadingDigits(d + rest) == |d|
  {
    if d != [] {
      assert (d + rest)[1..] == d[1..] + rest;
      LeadingDigitsOfConcat(d[1..], rest);
    }
  }

  /** The arity error text can be read back into exactly the two counts it was built from. */
  lemma ArityMessageRoundTrip(got: nat, want: int)
    ensures ParseArityMessage(ArityError(got, want).Message()) == Some((got, want))
  {
    var g, w := NatToString(got), IntToString(want);
    var m := ArityError(got, want).Message();
    assert m == ArityPrefix + (g + (AritySeparator + w));
    var rest := m[|ArityPrefix|..];
    assert m[..|ArityPrefix|] == ArityPrefix;
    assert rest == g + (AritySeparator + w);
    LeadingDigitsOfConcat(g, AritySeparator + w);
    assert rest[..|g|] == g;
    var tail := rest[|g|..];
    assert tail == AritySeparator + w;
    assert tail[..|AritySeparator|] == AritySeparator;
    assert tail[|AritySeparator|..] == w;
    NatRoundTrip(got);
    IntRoundTrip(want);
  }

  /** Two arity errors with the same text report the same counts. */
  lemma ArityMessageInjective(g1: nat, w1: int, g2: nat, w2: int)
    requires ArityError(g1, w1).Message() == ArityError(g2, w2).Message()
    ensures g1 == g2 && w1 == w2
  {
    ArityMessageRoundTrip(g1, w1);
    ArityMessageRoundTrip(g2, w2);
  }

  /** The arity message spelled out with the decimal texts of both counts. */
  lemma ArityText(got: nat, want: int, g: string, w: string)
    requires NatToString(got) == g && IntToString(want) == w
    ensures ArityError(got, want).Message() == "error: " + g + " arguments does not match required " + w
  {
  }

  /** The text the controller tests expect for one surplus argument to `name`. */
  lemma OneArgumentForNoneText()
    ensures ValidateLength(["fail"], 0).value.Message() == "error: 1 arguments does not match required 0"
  {
    assert NatToString(1) == "1" && IntToString(0) == "0";
    ArityText(1, 0, "1", "0");
    Text1();
    assert ValidateLength(["fail"], 0) == Some(ArityError(1, 0));
  }

  /** The text the controller tests expect for four arguments to `transferfrom`. */
  lemma FourArgumentsForThreeText()
    ensures ValidateLength(["a", "b", "c", "d"], 3).value.Message() == "error: 4 arguments does not match required 3"
  {
    assert NatToString(4) == "4" && IntToString(3) == "3";
    ArityText(4, 3, "4", "3");
    Text4();
    assert ValidateLength(["a", "b", "c", "d"], 3) == Some(ArityError(4, 3));
  }

  /** The pieces of the one-for-none message joined (kept apart so the solver sees the literal alone). */
  lemma Text1()
    ensures "error: " + "1" + " arguments does not match required " + "0" == "error: 1 arguments does not match required 0"
  {
  }

  /** The pieces of the four-for-three message joined. */
  lemma Text4()
    ensures "error: " + "4" + " arguments does not match required " + "3" == "error: 4 arguments does not match required 3"
  {
  }
}
