/**
 * The pure helpers of src/lib/utils.ts: the vehicle range model, the
 * hour-to-bucket classification, the integer formatters, `clamp` and `cn`.
 * The polyline decoder of the same file is module Polyline.
 */
module Utils {
  import opened Wrappers
  import opened Types
  import opened Constants
  import opened Lists

  // ---------------------------------------------------------------------
  // Vehicle range model
  // ---------------------------------------------------------------------

  /** Miles left in the tank: the gallons on board times miles per gallon. */
  function CalculateRemainingRange(v: VehicleProfile): real {
    var fuelGallons := v.tankCapacityGallons * v.currentFuelLevel;
    fuelGallons * v.fuelEfficiencyMpg
  }

  /** The fuel is low when the level is at or below the safety buffer (the boundary counts as low). */
  predicate IsFuelLow(v: VehicleProfile) {
    v.currentFuelLevel <= v.safetyBufferPercent
  }

  /** The range is linear in the fuel level: a level `k` gives `k` times the range of a full tank. */
  lemma RemainingRangeIsLinear(v: VehicleProfile, k: real)
    ensures CalculateRemainingRange(v.(currentFuelLevel := k))
         == k * CalculateRemainingRange(v.(currentFuelLevel := 1.0))
  {
    var c, m := v.tankCapacityGallons, v.fuelEfficiencyMpg;
    calc {
      CalculateRemainingRange(v.(currentFuelLevel := k));
      (c * k) * m;
      { assert (c * k) * m == k * (c * m); }
      k * (c * m);
      k * ((c * 1.0) * m);
    }
  }

  /**
   * For a real vehicle (positive capacity and efficiency) the fuel is low
   * exactly when the remaining range is at most the range the safety buffer
   * alone would give.
   */
  lemma FuelLowIffRangeWithinBuffer(v: VehicleProfile)
    requires v.tankCapacityGallons > 0.0 && v.fuelEfficiencyMpg > 0.0
    ensures IsFuelLow(v)
        <==> CalculateRemainingRange(v) <= CalculateRemainingRange(v.(currentFuelLevel := v.safetyBufferPercent))
  {
    var full := v.tankCapacityGallons * v.fuelEfficiencyMpg;
    assert full > 0.0;
    RemainingRangeIsLinear(v, v.currentFuelLevel);
    RemainingRangeIsLinear(v, v.safetyBufferPercent);
    assert v == v.(currentFuelLevel := v.currentFuelLevel);
    var a, b := v.currentFuelLevel, v.safetyBufferPercent;
    if a <= b {
      assert a * full <= b * full;
    } else {
      assert a * full > b * full;
    }
  }

  /** A full default tank (14 gallons at 30 mpg) reaches 420 miles. */
  lemma DefaultVehicleRange()
    ensures CalculateRemainingRange(DefaultVehicle) == 420.0
    ensures !IsFuelLow(DefaultVehicle)
  {
  }

  /** The worked scenario: 10% of a 14-gallon, 30 mpg tank is 42 miles, and low against a 20% buffer. */
  lemma LowFuelScenario()
    ensures var v := DefaultVehicle.(currentFuelLevel := 0.1);
            CalculateRemainingRange(v) == 42.0 && IsFuelLow(v)
  {
  }

  // ---------------------------------------------------------------------
  // Time of day
  // ---------------------------------------------------------------------

  /** The bucket of an hour of the day (the hour of a Date, 0..23). */
  function GetTimeOfDay(hour: int): (t: TimeOfDay)
    ensures t == Morning <==> 5 <= hour <= 10
    ensures t == Midday <==> 11 <= hour <= 13
    ensures t == Afternoon <==> 14 <= hour <= 16
    ensures t == Evening <==> 17 <= hour <= 20
    ensures t == Night <==> hour <= 4 || 21 <= hour
  {
    if 5 <= hour < 11 then Morning
    else if 11 <= hour < 14 then Midday
    else if 14 <= hour < 17 then Afternoon
    else if 17 <= hour < 21 then Evening
    else Night
  }

  // ---------------------------------------------------------------------
  // Integers as text
  // ---------------------------------------------------------------------

  predicate IsDigit(c: char) {
    '0' <= c <= '9'
  }

  predicate AllDigits(s: string) {
    forall i :: 0 <= i < |s| ==> IsDigit(s[i])
  }

  function DigitChar(d: nat): char
    requires d < 10
  {
    ('0' as int + d) as char
  }

  /** Decimal rendering of a non-negative integer, as a template literal prints it. */
  function NatToString(n: nat): (s: string)
    ensures |s| >= 1 && AllDigits(s)
    ensures s[0] == '0' ==> n == 0
    decreases n
  {
    if n < 10 then [DigitChar(n)] else NatToString(n / 10) + [DigitChar(n % 10)]
  }

  /** Decimal rendering of an integer, with a leading '-' when it is negative. */
  function IntToString(i: int): string {
    if i < 0 then "-" + NatToString(-i) else NatToString(i)
  }

  /** The number a string of decimal digits denotes. */
  function DigitsValue(s: string): int {
    if s == [] then 0 else 10 * DigitsValue(s[..|s| - 1]) + (s[|s| - 1] as int - '0' as int)
  }

  /** Reading the digits of NatToString(n) gives back n. */
  lemma {:induction false} NatToStringRoundTrip(n: nat)
    ensures DigitsValue(NatToString(n)) == n
    decreases n
  {
    if n >= 10 {
      NatToStringRoundTrip(n / 10);
      var s := NatToString(n);
      assert s[..|s| - 1] == NatToString(n / 10);
    }
  }

  /** Length of the longest prefix of `s` made of decimal digits. */
  function DigitRun(s: string): (k: nat)
    ensures k <= |s|
  {
    if s == [] || !IsDigit(s[0]) then 0 else 1 + DigitRun(s[1..])
  }

  /** The digit run of a digit string followed by a non-digit is exactly that digit string. */
  lemma {:induction false} DigitRunOfNumber(d: string, t: string)
    requires |d| >= 1 && AllDigits(d)
    requires t == [] || !IsDigit(t[0])
    ensures DigitRun(d + t) == |d| && (d + t)[..|d|] == d && (d + t)[|d|..] == t
    decreases |d|
  {
    var s := d + t;
    assert IsDigit(s[0]) && s[1..] == d[1..] + t;
    if |d| == 1 {
      assert s[1..] == t;
    } else {
      DigitRunOfNumber(d[1..], t);
    }
  }

  // ---------------------------------------------------------------------
  // formatDuration
  // ---------------------------------------------------------------------

  /**
   * A whole number of minutes as "m min", "h hr" or "h hr m min".
   * For whole minutes the source's Math.round is the identity, and for
   * minutes >= 60 Math.floor(minutes / 60) is Euclidean division.
   */
  function FormatDuration(minutes: int): string {
    if minutes < 60 then IntToString(minutes) + " min"
    else
      var hours := minutes / 60;
      var mins := minutes % 60;
      if mins == 0 then NatToString(hours) + " hr"
      else NatToString(hours) + " hr " + NatToString(mins) + " min"
  }

  /** The leading run of digits of `s` as a number, and the text after it; None when `s` starts with no digit. */
  function ParseNumber(s: string): Option<(int, string)> {
    var k := DigitRun(s);
    if k == 0 then None else Some((DigitsValue(s[..k]), s[k..]))
  }

  /** Digits followed by text that does not start with a digit read as their number and that text. */
  lemma ParseNumberOf(d: string, t: string)
    requires |d| >= 1 && AllDigits(d)
    requires t == [] || !IsDigit(t[0])
    ensures ParseNumber(d + t) == Some((DigitsValue(d), t))
  {
    DigitRunOfNumber(d, t);
  }

  /** Reads back a text of the forms FormatDuration produces, as a number of minutes. */
  function ParseDuration(s: string): Option<int> {
    if |s| > 0 && s[0] == '-' then
      var number := ParseNumber(s[1..]);
      if number.Some? && number.value.1 == " min" then Some(-number.value.0) else None
    else
      var number := ParseNumber(s);
      if number.Some? then UnitSuffix(number.value.0, number.value.1) else None
  }

  /** What follows an unsigned number: " min", " hr", or " hr " and a number of minutes. */
  function UnitSuffix(n: int, rest: string): Option<int> {
    if rest == " min" then Some(n)
    else if rest == " hr" then Some(60 * n)
    else if |rest| > 4 && rest[..4] == " hr " then
      var minutes := ParseNumber(rest[4..]);
      if minutes.Some? && minutes.value.1 == " min" then Some(60 * n + minutes.value.0) else None
    else None
  }

  /** FormatDuration loses nothing: its text reads back as the same number of minutes. */
  lemma FormatDurationRoundTrip(minutes: int)
    ensures ParseDuration(FormatDuration(minutes)) == Some(minutes)
  {
    if minutes < 0 {
      NegativeDurationRoundTrip(minutes);
    } else if minutes < 60 {
      ShortDurationRoundTrip(minutes);
    } else if minutes % 60 == 0 {
      WholeHoursRoundTrip(minutes);
    } else {
      HoursAndMinutesRoundTrip(minutes);
    }
  }

  /** A '-' followed by a number of minutes reads as its negation. */
  lemma NegatedDuration(s: string, n: int)
    requires |s| > 0 && s[0] == '-'
    requires ParseNumber(s[1..]) == Some((n, " min"))
    ensures ParseDuration(s) == Some(-n)
  {
  }

  lemma NegativeDurationRoundTrip(minutes: int)
    requires minutes < 0
    ensures ParseDuration(FormatDuration(minutes)) == Some(minutes)
  {
    var s := FormatDuration(minutes);
    var d := NatToString(-minutes);
    assert s == "-" + (d + " min");
    assert s[1..] == d + " min";
    ParseNumberOf(d, " min");
    NatToStringRoundTrip(-minutes);
    NegatedDuration(s, -minutes);
  }

  lemma ShortDurationRoundTrip(minutes: int)
    requires 0 <= minutes < 60
    ensures ParseDuration(FormatDuration(minutes)) == Some(minutes)
  {
    var s := FormatDuration(minutes);
    var d := NatToString(minutes);
    assert s == d + " min";
    assert IsDigit(s[0]);
    ParseNumberOf(d, " min");
    NatToStringRoundTrip(minutes);
  }

  lemma WholeHoursRoundTrip(minutes: int)
    requires minutes >= 60 && minutes % 60 == 0
    ensures ParseDuration(FormatDuration(minutes)) == Some(minutes)
  {
    var s := FormatDuration(minutes);
    var h := NatToString(minutes / 60);
    assert s == h + " hr";
    assert IsDigit(s[0]);
    ParseNumberOf(h, " hr");
    NatToStringRoundTrip(minutes / 60);
  }

  /** After an hours number, " hr " and a number of minutes ending in " min" read as 60 H + M. */
  lemma MinutesAfterHours(n: int, rest: string, minutes: int)
    requires rest != " min" && rest != " hr" && |rest| > 4 && rest[..4] == " hr "
    requires ParseNumber(rest[4..]) == Some((minutes, " min"))
    ensures UnitSuffix(n, rest) == Some(60 * n + minutes)
  {
  }

  /** The minutes part of "H hr M min": " hr " then M then " min" reads as 60 H + M. */
  lemma HoursSuffix(n: int, m: string, value: int, rest: string)
    requires ParseNumber(m + " min") == Some((value, " min"))
    requires rest == " hr " + m + " min"
    ensures UnitSuffix(n, rest) == Some(60 * n + value)
  {
    assert |rest| == |m| + 8;
    assert rest[..4] == " hr " && rest[4..] == m + " min";
    MinutesAfterHours(n, rest, value);
  }

  /** A text that does not start with '-' reads as its leading number followed by a unit suffix. */
  lemma UnsignedDuration(s: string, n: int, rest: string)
    requires |s| > 0 && s[0] != '-'
    requires ParseNumber(s) == Some((n, rest))
    ensures ParseDuration(s) == UnitSuffix(n, rest)
  {
  }

  lemma HoursAndMinutesRoundTrip(minutes: int)
    requires minutes >= 60 && minutes % 60 != 0
    ensures ParseDuration(FormatDuration(minutes)) == Some(minutes)
  {
    var s := FormatDuration(minutes);
    var h := NatToString(minutes / 60);
    var m := NatToString(minutes % 60);
    var rest := " hr " + m + " min";
    assert s == h + rest;
    ParseNumberOf(h, rest);
    ParseNumberOf(m, " min");
    HoursSuffix(DigitsValue(h), m, DigitsValue(m), rest);
    assert s[0] == h[0];
    UnsignedDuration(s, DigitsValue(h), rest);
    NatToStringRoundTrip(minutes / 60);
    NatToStringRoundTrip(minutes % 60);
  }

  // ---------------------------------------------------------------------
  // formatPriceLevel
  // ---------------------------------------------------------------------

  /** `c` repeated `n` times (String.prototype.repeat). */
  function Repeat(c: char, n: nat): (r: string)
    ensures |r| == n && forall i :: 0 <= i < n ==> r[i] == c
  {
    if n == 0 then [] else [c] + Repeat(c, n - 1)
  }

  /** "N/A" when there is no price level, otherwise one '$' more than the level. */
  function FormatPriceLevel(level: Option<nat>): string {
    match level
    case None => "N/A"
    case Some(l) => Repeat('$', l + 1)
  }

  /** Reads back a text of the forms FormatPriceLevel produces. */
  function ParsePriceLevel(s: string): Option<Option<nat>> {
    if s == "N/A" then Some(None)
    else if |s| >= 1 && forall i :: 0 <= i < |s| ==> s[i] == '$' then Some(Some(|s| - 1))
    else None
  }

  /** FormatPriceLevel loses nothing: its text reads back as the same level. */
  lemma FormatPriceLevelRoundTrip(level: Option<nat>)
    ensures ParsePriceLevel(FormatPriceLevel(level)) == Some(level)
  {
    if level.Some? {
      var s := FormatPriceLevel(level);
      assert s[0] == '$';
      assert s != "N/A" by { assert "N/A"[0] == 'N'; }
    }
  }

  // ---------------------------------------------------------------------
  // clamp
  // ---------------------------------------------------------------------

  /** Math.min(Math.max(value, min), max). */
  function Clamp(value: real, min: real, max: real): (r: real)
    ensures min <= max ==> min <= r <= max
    ensures min <= value <= max ==> r == value
    ensures max < min ==> r == max
  {
    var raised := if value >= min then value else min;
    if raised <= max then raised else max
  }

  /** Clamping twice to the same bounds is clamping once. */
  lemma ClampIdempotent(value: real, min: real, max: real)
    ensures Clamp(Clamp(value, min, max), min, max) == Clamp(value, min, max)
  {
  }

  // ---------------------------------------------------------------------
  // cn
  // ---------------------------------------------------------------------

  /**
   * A `cn` argument: `Some(s)` is a class string, `None` one of undefined,
   * null or false. A string is kept only if it is truthy, that is non-empty.
   */
  predicate Truthy(c: Option<string>) {
    c.Some? && c.value != ""
  }

  /** `classes.filter(Boolean)`: the truthy strings, in order. */
  function Kept(classes: seq<Option<string>>): (r: seq<string>)
    ensures |r| <= |classes|
    ensures forall w :: w in r ==> w != ""
    ensures r == [] <==> forall i :: 0 <= i < |classes| ==> !Truthy(classes[i])
  {
    if classes == [] then []
    else (if Truthy(classes[0]) then [classes[0].value] else []) + Kept(classes[1..])
  }

  /**
   * `filter(Boolean)` keeps exactly the truthy arguments, in order: there are as
   * many kept strings as truthy arguments, and the i-th kept string is the
   * value of the i-th truthy argument.
   */
  lemma {:induction false} KeptSpec(classes: seq<Option<string>>)
    ensures |Kept(classes)| == |Filter(classes, Truthy)|
    ensures forall i :: 0 <= i < |Kept(classes)| ==> Filter(classes, Truthy)[i] == Some(Kept(classes)[i])
  {
    if classes != [] {
      KeptSpec(classes[1..]);
      var rest := Kept(classes[1..]);
      var truthyRest := Filter(classes[1..], Truthy);
      if Truthy(classes[0]) {
        assert Kept(classes) == [classes[0].value] + rest;
        assert Filter(classes, Truthy) == [classes[0]] + truthyRest;
        forall i | 0 <= i < |Kept(classes)|
          ensures Filter(classes, Truthy)[i] == Some(Kept(classes)[i])
        {
          if i > 0 {
            assert Kept(classes)[i] == rest[i - 1];
            assert Filter(classes, Truthy)[i] == truthyRest[i - 1];
          }
        }
      } else {
        assert Kept(classes) == rest;
        assert Filter(classes, Truthy) == truthyRest;
      }
    }
  }

  /** A string is kept iff some argument is that string and it is non-empty. */
  lemma KeptMembers(classes: seq<Option<string>>)
    ensures forall w :: w in Kept(classes) <==> Some(w) in classes && w != ""
  {
    KeptSpec(classes);
    FilterMembers(classes, Truthy);
    var truthy := Filter(classes, Truthy);
    forall w
      ensures w in Kept(classes) <==> Some(w) in classes && w != ""
    {
      if w in Kept(classes) {
        var i :| 0 <= i < |Kept(classes)| && Kept(classes)[i] == w;
        assert truthy[i] in truthy;
      }
      if Some(w) in classes && w != "" {
        assert Some(w) in truthy;
        var i :| 0 <= i < |truthy| && truthy[i] == Some(w);
        assert Kept(classes)[i] == w;
      }
    }
  }

  /** `words.join(" ")`. */
  function Join(words: seq<string>): string {
    if |words| == 0 then ""
    else if |words| == 1 then words[0]
    else words[0] + " " + Join(words[1..])
  }

  /** Joins the truthy class strings with single spaces. */
  function Cn(classes: seq<Option<string>>): string {
    Join(Kept(classes))
  }

  lemma {:induction false} KeptAppend(a: seq<Option<string>>, b: seq<Option<string>>)
    ensures Kept(a + b) == Kept(a) + Kept(b)
  {
    if a != [] {
      var head := if Truthy(a[0]) then [a[0].value] else [];
      assert (a + b)[0] == a[0];
      assert (a + b)[1..] == a[1..] + b;
      KeptAppend(a[1..], b);
      calc {
        Kept(a + b);
        head + Kept(a[1..] + b);
        head + (Kept(a[1..]) + Kept(b));
        (head + Kept(a[1..])) + Kept(b);
        Kept(a) + Kept(b);
      }
    } else {
      assert a + b == b;
    }
  }

  lemma {:induction false} JoinAppend(x: seq<string>, y: seq<string>)
    requires x != [] && y != []
    ensures Join(x + y) == Join(x) + " " + Join(y)
  {
    if |x| > 1 {
      assert (x + y)[1..] == x[1..] + y;
      JoinAppend(x[1..], y);
    }
  }

  lemma {:induction false} JoinEmptyIff(words: seq<string>)
    requires forall w :: w in words ==> w != ""
    ensures Join(words) == "" <==> words == []
  {
    if |words| > 1 {
      assert words[0] in words;
    } else if |words| == 1 {
      assert words[0] in words;
    }
  }

  /** `cn` yields "" exactly when no argument is a non-empty string. */
  lemma CnEmptyIff(classes: seq<Option<string>>)
    ensures Cn(classes) == "" <==> forall i :: 0 <= i < |classes| ==> !Truthy(classes[i])
  {
    JoinEmptyIff(Kept(classes));
  }

  /** Splitting the arguments of `cn` in two splits its text at one space (or none if a side is empty). */
  lemma CnAppend(a: seq<Option<string>>, b: seq<Option<string>>)
    ensures Cn(a + b) == if Cn(a) == "" then Cn(b)
                         else if Cn(b) == "" then Cn(a)
                         else Cn(a) + " " + Cn(b)
  {
    KeptAppend(a, b);
    JoinEmptyIff(Kept(a));
    JoinEmptyIff(Kept(b));
    if Kept(a) == [] {
      assert Kept(a + b) == Kept(b);
    } else if Kept(b) == [] {
      assert Kept(a + b) == Kept(a);
    } else {
      JoinAppend(Kept(a), Kept(b));
    }
  }
}
