/** `parseDurationToMs` (apps/api/src/common/timeUtil.js): a duration such as
    "15m" or "180d" in milliseconds, 0 for anything it does not recognise. */
module TimeUtil {
  import opened Common

  /** The argument of `parseDurationToMs`: a JavaScript number, or any other
      value, which the code turns into text with `String(value)`. */
  datatype DurationValue = Number(n: int) | Text(s: string)

  predicate IsDigit(c: char) { '0' <= c <= '9' }

  predicate AllDigits(s: string) {
    forall i :: 0 <= i < |s| ==> IsDigit(s[i])
  }

  /** A unit letter of the pattern `[smhd]` under the `i` flag. */
  predicate IsUnit(c: char) {
    c in "smhdSMHD"
  }

  /** The whole text matches `^(\d+)([smhd])$` with the `i` flag. */
  predicate MatchesDuration(s: string) {
    |s| >= 2 && AllDigits(s[..|s| - 1]) && IsUnit(s[|s| - 1])
  }

  /** `Number(digits)` for a string of decimal digits. */
  function DigitsValue(s: string): (r: nat)
    requires AllDigits(s)
    ensures r == 0 <==> forall i :: 0 <= i < |s| ==> s[i] == '0'
    decreases |s|
  {
    if s == [] then 0 else DigitsValue(s[..|s| - 1]) * 10 + (s[|s| - 1] as int - '0' as int)
  }

  /** The multiplier table, looked up with the lower-cased unit letter. */
  function UnitMultiplier(unit: char): (r: nat)
    requires IsUnit(unit)
    ensures r > 0
  {
    match LowerChar(unit)
    case 's' => 1000
    case 'm' => 60 * 1000
    case 'h' => 60 * 60 * 1000
    case 'd' => 24 * 60 * 60 * 1000
  }

  function ParseDurationToMs(value: DurationValue): (r: int)
    ensures value.Number? ==> r == value.n
    ensures value.Text? ==> r >= 0
    ensures value.Text? && !MatchesDuration(value.s) ==> r == 0
    ensures value.Text? && MatchesDuration(value.s) ==>
      r == DigitsValue(value.s[..|value.s| - 1]) * UnitMultiplier(value.s[|value.s| - 1])
  {
    match value
    case Number(n) => n
    case Text(s) =>
      if !MatchesDuration(s) then 0
      else
        var amount := DigitsValue(s[..|s| - 1]);
        amount * UnitMultiplier(s[|s| - 1])
  }

  /** Reading back the decimal rendering of `n` gives `n`. */
  lemma {:induction false} DigitsValueOfNatToString(n: nat)
    ensures AllDigits(NatToString(n)) && DigitsValue(NatToString(n)) == n
    decreases n
  {
    var s := NatToString(n);
    if n < 10 {
      assert s == [DigitChar(n)];
      assert s[..0] == [];
    } else {
      DigitsValueOfNatToString(n / 10);
      assert s[..|s| - 1] == NatToString(n / 10);
      assert s[|s| - 1] == DigitChar(n % 10);
    }
  }

  /** `"<n>s"`, `"<n>m"`, `"<n>h"` and `"<n>d"` are n seconds, minutes,
      hours and days, in either letter case. */
  lemma ParseUnits(n: nat, unit: char)
    requires unit in "smhdSMHD"
    ensures ParseDurationToMs(Text(NatToString(n) + [unit])) ==
      n * (match LowerChar(unit)
           case 's' => 1000
           case 'm' => 60000
           case 'h' => 3600000
           case _ => 86400000)
  {
    var s := NatToString(n) + [unit];
    DigitsValueOfNatToString(n);
    assert s[..|s| - 1] == NatToString(n);
    assert MatchesDuration(s);
  }

  /** The unit letter is case-insensitive: upper-casing it changes nothing. */
  lemma UnitCaseInsensitive(digits: string, unit: char)
    requires unit in "smhd"
    ensures ParseDurationToMs(Text(digits + [UpperChar(unit)])) == ParseDurationToMs(Text(digits + [unit]))
  {
    var lower, upper := digits + [unit], digits + [UpperChar(unit)];
    assert lower[..|lower| - 1] == digits == upper[..|upper| - 1];
  }

  /** The match is anchored and strict: these all give 0. */
  lemma RejectedExamples()
    ensures ParseDurationToMs(Text("bad")) == 0
    ensures ParseDurationToMs(Text("10w")) == 0
    ensures ParseDurationToMs(Text(" 15m")) == 0
    ensures ParseDurationToMs(Text("15m ")) == 0
    ensures ParseDurationToMs(Text("-5s")) == 0
    ensures ParseDurationToMs(Text("1.5h")) == 0
    ensures ParseDurationToMs(Text("m")) == 0
    ensures ParseDurationToMs(Text("")) == 0
  {
    RejectedPadding();
    RejectedCharacters();
  }

  lemma RejectedPadding()
    ensures ParseDurationToMs(Text(" 15m")) == 0
    ensures ParseDurationToMs(Text("15m ")) == 0
    ensures ParseDurationToMs(Text("m")) == 0
    ensures ParseDurationToMs(Text("")) == 0
  {
    assert !IsDigit(" 15m"[0]);
    assert !IsUnit("15m "[3]);
  }

  lemma RejectedCharacters()
    ensures ParseDurationToMs(Text("bad")) == 0
    ensures ParseDurationToMs(Text("10w")) == 0
    ensures ParseDurationToMs(Text("-5s")) == 0
    ensures ParseDurationToMs(Text("1.5h")) == 0
  {
    assert !IsDigit("-5s"[0]);
    assert !IsDigit("1.5h"[1]);
    assert !IsUnit("10w"[2]);
    assert !IsDigit("bad"[0]);
  }

  /** The examples the unit tests pin down. */
  lemma AcceptedExamples()
    ensures ParseDurationToMs(Text("10s")) == 10000
    ensures ParseDurationToMs(Text("2h")) == 7200000
    ensures ParseDurationToMs(Text("180d")) == 15552000000
    ensures ParseDurationToMs(Number(5)) == 5
  {
    TenSeconds();
    TwoHours();
    HundredEightyDays();
  }

  lemma TenSeconds()
    ensures ParseDurationToMs(Text("10s")) == 10000
  {
    assert "10s"[..2] == "10" && "10"[..1] == "1" && "1"[..0] == [];
    assert DigitsValue("10") == 10;
  }

  lemma TwoHours()
    ensures ParseDurationToMs(Text("2h")) == 7200000
  {
    assert "2h"[..1] == "2" && "2"[..0] == [];
    assert DigitsValue("2") == 2;
    assert MatchesDuration("2h");
  }

  lemma HundredEightyDays()
    ensures ParseDurationToMs(Text("180d")) == 15552000000
  {
    assert "180d"[..3] == "180" && "180"[..2] == "18" && "18"[..1] == "1" && "1"[..0] == [];
    assert DigitsValue("18") == 18;
    assert DigitsValue("180") == 180;
    assert MatchesDuration("180d");
  }
}
