/**
 * Auto-advance delays: validation into whole seconds in [1,300], conversion
 * to milliseconds, a short human-readable rendering, the total running time
 * of a deck and a progress percentage.
 */
module SlideTimer {
  import opened JsValue
  import opened Text

  const MinDelay: int := 1
  const MaxDelay: int := 300
  const DefaultDelay: int := 5

  /**
   * A delay in whole seconds: 5 for anything that is not a number (or NaN),
   * 1 below 1, 300 above 300, and otherwise the nearest integer.
   */
  function ValidateDelay(delay: Value): (r: int)
    ensures MinDelay <= r <= MaxDelay
    ensures !delay.Num? ==> r == DefaultDelay
    ensures delay.Num? && delay.n < 1.0 ==> r == MinDelay
    ensures delay.Num? && delay.n > 300.0 ==> r == MaxDelay
    ensures delay.Num? && 1.0 <= delay.n <= 300.0 ==>
              delay.n - 0.5 < r as real <= delay.n + 0.5
  {
    match delay
    case Num(n) =>
      if n < MinDelay as real then MinDelay
      else if n > MaxDelay as real then MaxDelay
      else Round(n)
    case _ => DefaultDelay
  }

  /** A validated delay is a fixed point of validation. */
  lemma ValidateDelayIdempotent(delay: Value)
    ensures ValidateDelay(Num(ValidateDelay(delay) as real)) == ValidateDelay(delay)
  {
    RoundOfInteger(ValidateDelay(delay));
  }

  /** The validated delay in milliseconds: a whole number of seconds between 1 s and 5 min. */
  function SecondsToMs(seconds: Value): (ms: int)
    ensures 1000 <= ms <= 300000
    ensures ms % 1000 == 0 && ms / 1000 == ValidateDelay(seconds)
  {
    ValidateDelay(seconds) * 1000
  }

  /** "Ns" under a minute, "Mm" for whole minutes, "Mm Ss" otherwise. */
  function FormatSeconds(v: nat): string
  {
    if v < 60 then ShowNat(v) + "s"
    else if v % 60 == 0 then ShowNat(v / 60) + "m"
    else ShowNat(v / 60) + "m " + ShowNat(v % 60) + "s"
  }

  /**
   * `formatTime`: the validated delay rendered by `FormatSeconds`. The label
   * ends in a unit letter and mentions minutes exactly from one minute up.
   */
  function FormatTime(seconds: Value): (shown: string)
    ensures |shown| >= 2 && (shown[|shown| - 1] == 's' || shown[|shown| - 1] == 'm')
    ensures 'm' in shown <==> ValidateDelay(seconds) >= 60
  {
    var v := ValidateDelay(seconds);
    var m := ShowNat(v / 60);
    assert !IsDigit('m') && !IsDigit('s');
    if v < 60 then
      assert FormatSeconds(v)[|ShowNat(v)|] == 's';
      FormatSeconds(v)
    else if v % 60 == 0 then
      assert FormatSeconds(v)[|m|] == 'm';
      FormatSeconds(v)
    else
      assert FormatSeconds(v)[|m|] == 'm';
      FormatSeconds(v)
  }

  /** Length of the longest prefix of `s` made of digits. */
  function DigitPrefixLength(s: string): (k: nat)
    ensures k <= |s| && AllDigits(s[..k])
    ensures k < |s| ==> !IsDigit(s[k])
  {
    if s == [] || !IsDigit(s[0]) then 0
    else
      var k := 1 + DigitPrefixLength(s[1..]);
      assert s[..k] == [s[0]] + s[1..][..k - 1];
      k
  }

  /** Reads a rendering back as a number of seconds ("90" in "1m 30s"). */
  function ParseDuration(s: string): Option<nat>
  {
    var k := DigitPrefixLength(s);
    if k == 0 then None else ParseUnit(ParseDigits(s[..k]), s[k..])
  }

  /** What follows the leading number `n`: "s", "m", or "m " and a seconds part. */
  function ParseUnit(n: nat, rest: string): Option<nat>
  {
    if rest == "s" then Some(n)
    else if rest == "m" then Some(60 * n)
    else if |rest| >= 2 && rest[..2] == "m " then ParseSecondsPart(n, rest[2..])
    else None
  }

  /** The "Ss" part after `n` whole minutes. */
  function ParseSecondsPart(n: nat, t: string): Option<nat>
  {
    var j := DigitPrefixLength(t);
    if j > 0 && t[j..] == "s" then Some(60 * n + ParseDigits(t[..j])) else None
  }

  lemma {:induction false} DigitsThenStop(d: string, rest: string)
    requires AllDigits(d)
    requires rest == [] || !IsDigit(rest[0])
    ensures DigitPrefixLength(d + rest) == |d|
    decreases |d|
  {
    if d == [] {
      assert d + rest == rest;
    } else {
      assert (d + rest)[1..] == d[1..] + rest;
      DigitsThenStop(d[1..], rest);
    }
  }

  /** A rendered number followed by a non-digit is read back whole. */
  lemma ParseShowThen(n: nat, rest: string)
    requires rest == [] || !IsDigit(rest[0])
    ensures var s := ShowNat(n) + rest;
            var k := DigitPrefixLength(s);
            k == |ShowNat(n)| && s[..k] == ShowNat(n) && s[k..] == rest
            && ParseDigits(s[..k]) == n
  {
    DigitsThenStop(ShowNat(n), rest);
    var s := ShowNat(n) + rest;
    assert s[..|ShowNat(n)|] == ShowNat(n);
    assert s[|ShowNat(n)|..] == rest;
    ParseShowNat(n);
  }

  lemma ParseDurationShow(n: nat, rest: string)
    requires rest == [] || !IsDigit(rest[0])
    ensures ParseDuration(ShowNat(n) + rest) == ParseUnit(n, rest)
  {
    ParseShowThen(n, rest);
  }

  lemma ParseSecondsShow(m: nat, sec: nat)
    ensures ParseSecondsPart(m, ShowNat(sec) + "s") == Some(60 * m + sec)
  {
    ParseShowThen(sec, "s");
  }

  lemma ParseMinutesSeconds(m: nat, sec: nat)
    ensures ParseDuration(ShowNat(m) + "m " + ShowNat(sec) + "s") == Some(60 * m + sec)
  {
    var tail := ShowNat(sec) + "s";
    var rest := "m " + tail;
    assert ShowNat(m) + "m " + ShowNat(sec) + "s" == ShowNat(m) + rest;
    ParseDurationShow(m, rest);
    assert rest[..2] == "m " && rest[2..] == tail;
    ParseSecondsShow(m, sec);
  }

  /** The rendering denotes exactly the validated number of seconds. */
  lemma FormatSecondsRoundTrip(v: nat)
    ensures ParseDuration(FormatSeconds(v)) == Some(v)
  {
    var m, sec := v / 60, v % 60;
    assert v == 60 * m + sec;
    if v < 60 {
      ParseDurationShow(v, "s");
    } else if sec == 0 {
      ParseDurationShow(m, "m");
    } else {
      assert FormatSeconds(v) == ShowNat(m) + "m " + ShowNat(sec) + "s";
      ParseMinutesSeconds(m, sec);
    }
  }

  lemma FormatTimeRoundTrip(seconds: Value)
    ensures ParseDuration(FormatTime(seconds)) == Some(ValidateDelay(seconds))
    ensures var v := ParseDuration(FormatTime(seconds)).value; 1 <= v <= 300
  {
    FormatSecondsRoundTrip(ValidateDelay(seconds));
  }

  lemma FormatTimeExamples()
    ensures FormatTime(Num(45.0)) == "45s"
    ensures FormatTime(Num(120.0)) == "2m"
    ensures FormatTime(Num(90.0)) == "1m 30s"
    ensures FormatTime(Num(1000.0)) == "5m"
    ensures FormatTime(Num(0.0)) == "1s"
  {
    assert ValidateDelay(Num(45.0)) == 45 && ValidateDelay(Num(120.0)) == 120;
    assert ValidateDelay(Num(90.0)) == 90 && ValidateDelay(Num(1000.0)) == 300;
    assert ValidateDelay(Num(0.0)) == 1;
    assert ShowNat(45) == "45";
    assert ShowNat(30) == "30";
  }

  /** The delay a slide contributes: 0 unless it auto-advances; a stored 0 counts as 5. */
  function GetSlideDelay(slide: Option<Record>): (r: int)
    ensures slide.None? || !Truthy(Get(slide.value, "autoAdvance")) ==> r == 0
    ensures slide.Some? && Truthy(Get(slide.value, "autoAdvance")) ==>
              MinDelay <= r <= MaxDelay
              && (!Truthy(Get(slide.value, "autoAdvanceDelay")) ==> r == DefaultDelay)
  {
    if slide.None? || !Truthy(Get(slide.value, "autoAdvance")) then 0
    else ValidateDelay(Or(Get(slide.value, "autoAdvanceDelay"), Num(DefaultDelay as real)))
  }

  /** The reducer of `calculateTotalPresentationTime`, as a left fold. */
  function ReduceDelays(total: int, slides: seq<Record>): int
    decreases |slides|
  {
    if slides == [] then total
    else
      var slide := slides[0];
      var step := if Truthy(Get(slide, "autoAdvance"))
                  then total + ValidateDelay(Or(Get(slide, "autoAdvanceDelay"), Num(DefaultDelay as real)))
                  else total;
      ReduceDelays(step, slides[1..])
  }

  /** 0 for something that is not an array or is empty; otherwise the fold. */
  function CalculateTotalPresentationTime(slides: Option<seq<Record>>): (total: int)
    ensures 0 <= total
    ensures slides.Some? ==> total <= MaxDelay * |slides.value|
  {
    if slides.None? || |slides.value| == 0 then 0
    else
      ReduceIsSum(0, slides.value);
      SumSlideDelaysBounds(slides.value);
      ReduceDelays(0, slides.value)
  }

  /** The sum of the per-slide delays, as a reference definition. */
  function SumSlideDelays(slides: seq<Record>): int
  {
    if slides == [] then 0 else GetSlideDelay(Some(slides[0])) + SumSlideDelays(slides[1..])
  }

  lemma {:induction false} ReduceIsSum(total: int, slides: seq<Record>)
    ensures ReduceDelays(total, slides) == total + SumSlideDelays(slides)
    decreases |slides|
  {
    if slides != [] {
      ReduceIsSum(total + GetSlideDelay(Some(slides[0])), slides[1..]);
    }
  }

  lemma {:induction false} SumSlideDelaysBounds(slides: seq<Record>)
    ensures 0 <= SumSlideDelays(slides) <= MaxDelay * |slides|
  {
    if slides != [] {
      SumSlideDelaysBounds(slides[1..]);
    }
  }

  /**
   * The total is 0 for a missing or empty list and otherwise the sum of the
   * slides' delays, never more than 300 seconds per slide.
   */
  lemma TotalPresentationTime(slides: Option<seq<Record>>)
    ensures slides.None? ==> CalculateTotalPresentationTime(slides) == 0
    ensures slides.Some? ==> CalculateTotalPresentationTime(slides) == SumSlideDelays(slides.value)
    ensures slides.Some? ==> 0 <= CalculateTotalPresentationTime(slides) <= MaxDelay * |slides.value|
  {
    if slides.Some? {
      ReduceIsSum(0, slides.value);
      SumSlideDelaysBounds(slides.value);
    }
  }

  /** Only a literal `true` enables auto-advance here. */
  predicate IsAutoAdvanceEnabled(slide: Option<Record>): (enabled: bool)
    ensures enabled ==> slide.Some? && Truthy(Get(slide.value, "autoAdvance"))
    ensures slide.Some? && Get(slide.value, "autoAdvance").Num? ==> !enabled
  {
    slide.Some? && Get(slide.value, "autoAdvance") == Bool(true)
  }

  /**
   * `isAutoAdvanceEnabled` is stricter than the truthiness test of
   * `getSlideDelay`: enabled slides have a delay, but a truthy non-boolean
   * such as 1 gives a delay while not counting as enabled.
   */
  lemma EnabledIsStricter(slide: Option<Record>)
    ensures IsAutoAdvanceEnabled(slide) ==> GetSlideDelay(slide) >= MinDelay
    ensures var s := map["autoAdvance" := Num(1.0)];
            !IsAutoAdvanceEnabled(Some(s)) && GetSlideDelay(Some(s)) == DefaultDelay
  {
  }

  /** Elapsed time as a percentage of the total, within [0,100]; 0 when there is no total. */
  function CalculateProgress(elapsed: real, total: real): (r: real)
    ensures 0.0 <= r <= 100.0
    ensures total <= 0.0 ==> r == 0.0
    ensures total > 0.0 && 0.0 <= elapsed <= total ==> r * total == elapsed * 100.0
    ensures total > 0.0 && elapsed >= total ==> r == 100.0
    ensures total > 0.0 && elapsed <= 0.0 ==> r == 0.0
  {
    if total <= 0.0 then 0.0
    else
      assert elapsed >= total ==> elapsed / total >= 1.0;
      Min(100.0, Max(0.0, elapsed / total * 100.0))
  }

  lemma ProgressMonotone(e1: real, e2: real, total: real)
    requires e1 <= e2
    ensures CalculateProgress(e1, total) <= CalculateProgress(e2, total)
  {
    if total > 0.0 {
      assert e2 / total - e1 / total == (e2 - e1) / total;
      assert (e2 - e1) / total >= 0.0;
    }
  }

  datatype Preset = Preset(value: int, text: string)

  function GetTimePresets(): (presets: seq<Preset>)
    ensures |presets| == 9
    ensures forall i, j :: 0 <= i < j < |presets| ==> presets[i].value < presets[j].value
    ensures forall i :: 0 <= i < |presets| ==>
              ValidateDelay(Num(presets[i].value as real)) == presets[i].value
  {
    var ps := [
      Preset(3, "3 segundos (Rápido)"),
      Preset(5, "5 segundos (Normal)"),
      Preset(10, "10 segundos (Pausado)"),
      Preset(15, "15 segundos"),
      Preset(30, "30 segundos"),
      Preset(60, "1 minuto"),
      Preset(120, "2 minutos"),
      Preset(180, "3 minutos"),
      Preset(300, "5 minutos")
    ];
    forall i | 0 <= i < |ps| ensures ValidateDelay(Num(ps[i].value as real)) == ps[i].value {
      RoundOfInteger(ps[i].value);
    }
    ps
  }
}
