/**
 * The auto-advance hook: a guard chain decides whether the current slide
 * schedules a timer and for how many milliseconds; the effect keeps at most
 * one pending timer, cancelled and rescheduled whenever its inputs change.
 */
module AutoAdvance {
  import opened JsValue
  import opened SlideTimer

  /**
   * The delay of the timer the effect schedules, or `None` when it schedules
   * nothing: not playing, no (or an empty) slide list, no slide at the index,
   * or a falsy `autoAdvance`.  The raw `autoAdvanceDelay` is validated without
   * an `|| 5` fallback.
   */
  function ScheduledDelay(slides: Option<seq<Record>>, index: int, isPlaying: bool): (r: Option<int>)
    ensures r.Some? <==>
              isPlaying && slides.Some? && 0 <= index < |slides.value|
              && Truthy(Get(slides.value[index], "autoAdvance"))
    ensures r.Some? ==> 1000 <= r.value <= 300000 && r.value % 1000 == 0
    ensures r.Some? ==> r.value / 1000 == ValidateDelay(Get(slides.value[index], "autoAdvanceDelay"))
  {
    if !isPlaying || slides.None? || |slides.value| == 0 then None
    else if !(0 <= index < |slides.value|) then None
    else if !Truthy(Get(slides.value[index], "autoAdvance")) then None
    else Some(SecondsToMs(Get(slides.value[index], "autoAdvanceDelay")))
  }

  /**
   * Without the fallback of `getSlideDelay`, a missing delay waits 5 s but a
   * stored 0 waits 1 s, although `getSlideDelay` counts both as 5 s.
   */
  lemma ZeroDelayDiffers()
    ensures var missing := map["autoAdvance" := Bool(true)];
            ScheduledDelay(Some([missing]), 0, true) == Some(5000)
            && GetSlideDelay(Some(missing)) == 5
    ensures var zero := map["autoAdvance" := Bool(true), "autoAdvanceDelay" := Num(0.0)];
            ScheduledDelay(Some([zero]), 0, true) == Some(1000)
            && GetSlideDelay(Some(zero)) == 5
  {
  }

  /** When the slide has a truthy delay the hook and `getSlideDelay` agree. */
  lemma AgreesWithSlideDelay(slides: seq<Record>, index: int)
    requires 0 <= index < |slides|
    requires Truthy(Get(slides[index], "autoAdvance")) && Truthy(Get(slides[index], "autoAdvanceDelay"))
    ensures ScheduledDelay(Some(slides), index, true) == Some(GetSlideDelay(Some(slides[index])) * 1000)
  {
  }

  /** The effect of the hook: the one timer it may have pending. */
  class Effect {
    /** Delay in milliseconds of the pending timer, if one is pending. */
    var pending: Option<int>

    constructor ()
      ensures pending == None
    {
      pending := None;
    }

    /**
     * The effect re-runs after its dependencies changed: the previous
     * timer is cleared by the cleanup, then the guard chain decides again.
     */
    method Run(slides: Option<seq<Record>>, index: int, isPlaying: bool)
      modifies this
      ensures pending == ScheduledDelay(slides, index, isPlaying)
    {
      pending := None;
      pending := ScheduledDelay(slides, index, isPlaying);
    }

    /** Unmounting clears the pending timer. */
    method Unmount()
      modifies this
      ensures pending == None
    {
      pending := None;
    }

    /** The pending timer elapses: `onNext` is called once and nothing stays pending. */
    method Fire() returns (callsOnNext: nat)
      modifies this
      ensures callsOnNext == if old(pending).Some? then 1 else 0
      ensures pending == None
    {
      callsOnNext := 0;
      if pending.Some? {
        callsOnNext := callsOnNext + 1;
        pending := None;
      }
    }
  }
}
