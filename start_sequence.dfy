/** The start-flag sequence of script.js. A click on the flag shows the
    overlay, mutes the background track and starts a one-second interval that
    lights the five light units one per tick with a beep; the tick after the
    fifth clears the interval and arms a one-shot timeout of random length,
    whose callback turns every bulb off, starts the engine sound, unmutes the
    track, unlocks scrolling, hides the overlay and scrolls to the content.

    The page's shared state is a `Page`; each click creates its own `Run`,
    holding what the click handler's closure holds (the light counter and the
    two timers). Timer callbacks are the events `Run.Tick` and `Run.Fire`;
    `Math.random()` is the parameter `r`. */
module StartSequence {

  /** Light units the interval walks through (the literal 5 of the tick). */
  const UnitCount: nat := 5
  /** Period of the interval, in ms. */
  const CadenceMs: real := 1000.0
  /** The suspense delay is `r * DelaySpanMs + MinDelayMs` for `r` in [0, 1). */
  const MinDelayMs: real := 500.0
  const DelaySpanMs: real := 1500.0
  /** Track volume while the lights count down, and after lights out. */
  const MutedVolume: real := 0.0
  const RaceVolume: real := 0.5

  /** Every bulb of one unit carries the `on` class. */
  ghost predicate AllOn(unit: seq<bool>)
  {
    forall b :: 0 <= b < |unit| ==> unit[b]
  }

  /** No bulb of the page carries the `on` class. */
  ghost predicate AllDark(bulbs: seq<seq<bool>>)
  {
    forall u, b :: 0 <= u < |bulbs| && 0 <= b < |bulbs[u]| ==> !bulbs[u][b]
  }

  /** Same number of units, and the same number of bulbs in each. */
  ghost predicate SameShape(a: seq<seq<bool>>, b: seq<seq<bool>>)
  {
    |a| == |b| && forall u :: 0 <= u < |a| ==> |a[u]| == |b[u]|
  }

  /** Turning on both (all) bulbs of unit `u`. */
  function LitUnit(bulbs: seq<seq<bool>>, u: nat): (r: seq<seq<bool>>)
    requires u < |bulbs|
    ensures SameShape(r, bulbs) && AllOn(r[u])
    ensures forall v :: 0 <= v < |bulbs| && v != u ==> r[v] == bulbs[v]
  {
    bulbs[u := seq(|bulbs[u]|, _ => true)]
  }

  /** Removing the `on` class from every bulb of the document. */
  function LightsOff(bulbs: seq<seq<bool>>): (r: seq<seq<bool>>)
    ensures SameShape(r, bulbs) && AllDark(r)
  {
    seq(|bulbs|, u requires 0 <= u < |bulbs| => seq(|bulbs[u]|, _ => false))
  }

  /** The bulbs after the first `n` lighting ticks of a single run. */
  function Countdown(bulbs: seq<seq<bool>>, n: nat): (r: seq<seq<bool>>)
    requires n <= |bulbs|
    ensures SameShape(r, bulbs)
  {
    if n == 0 then bulbs else LitUnit(Countdown(bulbs, n - 1), n - 1)
  }

  /** After `n` lighting ticks units 0 .. n-1 are fully on; every other unit
      is as it was (which may already be lit: a click does not reset the
      bulbs, and another run may have lit them). */
  lemma {:induction false} CountdownAt(bulbs: seq<seq<bool>>, n: nat, u: nat)
    requires n <= |bulbs| && u < |bulbs|
    ensures u < n ==> AllOn(Countdown(bulbs, n)[u])
    ensures n <= u ==> Countdown(bulbs, n)[u] == bulbs[u]
  {
    if n > 0 {
      CountdownAt(bulbs, n - 1, u);
    }
  }

  /** From a dark gantry whose units each hold a bulb, the lit units after `n`
      lighting ticks are exactly units 0 .. n-1. */
  lemma CountdownFromDark(bulbs: seq<seq<bool>>, n: nat, u: nat)
    requires n <= |bulbs| && u < |bulbs|
    requires AllDark(bulbs)
    requires forall v :: 0 <= v < |bulbs| ==> |bulbs[v]| > 0
    ensures AllOn(Countdown(bulbs, n)[u]) <==> u < n
  {
    CountdownAt(bulbs, n, u);
    if n <= u {
      assert !bulbs[u][0];
    }
  }

  /** Lighting never turns a bulb off: a bulb lit after `m` ticks is still lit
      after any later tick. */
  lemma {:induction false} CountdownGrows(bulbs: seq<seq<bool>>, m: nat, n: nat, u: nat, b: nat)
    requires m <= n <= |bulbs|
    requires u < |bulbs| && b < |bulbs[u]|
    requires Countdown(bulbs, m)[u][b]
    ensures Countdown(bulbs, n)[u][b]
  {
    if m < n {
      CountdownGrows(bulbs, m, n - 1, u, b);
    }
  }

  /** The random suspense delay, in ms. */
  function SuspenseDelay(r: real): (d: real)
    requires 0.0 <= r < 1.0
    ensures MinDelayMs <= d < MinDelayMs + DelaySpanMs
  {
    r * DelaySpanMs + MinDelayMs
  }

  /** Every delay in [500, 2000) ms is produced by some random draw. */
  lemma SuspenseDelayCovers(d: real)
    requires MinDelayMs <= d < MinDelayMs + DelaySpanMs
    ensures exists r :: 0.0 <= r < 1.0 && SuspenseDelay(r) == d
  {
    var r := (d - MinDelayMs) / DelaySpanMs;
    assert SuspenseDelay(r) == d;
  }

  /** Time from the click to lights out in a run with five units: the interval
      is cleared on its sixth tick, then the delay runs. */
  function LightsOutMs(r: real): (t: real)
    requires 0.0 <= r < 1.0
    ensures 6500.0 <= t < 8000.0
  {
    (UnitCount + 1) as real * CadenceMs + SuspenseDelay(r)
  }

  /** The optional `#race-audio` element. */
  class AudioElement {
    var volume: real
    var currentTime: real
    /** `play()` requests issued (their promise is not modelled). */
    var playRequests: nat

    constructor (volume: real, currentTime: real)
      ensures this.volume == volume && this.currentTime == currentTime && playRequests == 0
    {
      this.volume := volume;
      this.currentTime := currentTime;
      playRequests := 0;
    }
  }

  /** The page state shared by every run. The click handler only exists when
      both the flag and the overlay exist, so the overlay is always present. */
  class Page {
    /** bulbs[u][b]: bulb b of light unit u carries the `on` class. */
    var bulbs: seq<seq<bool>>
    var overlayHidden: bool
    /** `document.body` carries the `scroll-locked` class. */
    var scrollLocked: bool
    const audio: AudioElement?
    /** Whether the `#vibe` scroll target exists. */
    const hasTarget: bool
    /** Effects issued: audio contexts created, beeps, engine sounds, smooth scrolls. */
    var audioContexts: nat
    var beeps: nat
    var engineStarts: nat
    var scrollRequests: nat

    constructor (bulbs: seq<seq<bool>>, audio: AudioElement?, hasTarget: bool,
                 scrollLocked: bool, overlayHidden: bool)
      ensures this.bulbs == bulbs && this.audio == audio && this.hasTarget == hasTarget
      ensures this.scrollLocked == scrollLocked && this.overlayHidden == overlayHidden
      ensures audioContexts == 0 && beeps == 0 && engineStarts == 0 && scrollRequests == 0
    {
      this.bulbs := bulbs;
      this.audio := audio;
      this.hasTarget := hasTarget;
      this.scrollLocked := scrollLocked;
      this.overlayHidden := overlayHidden;
      audioContexts, beeps, engineStarts, scrollRequests := 0, 0, 0, 0;
    }

    /** The flag's click handler. Nothing stops a second click while a run is
        in flight: every click starts a fresh run of its own. */
    method Click() returns (run: Run)
      modifies this, audio
      ensures fresh(run) && run.Valid() && run.page == this
      ensures run.activeLight == 0 && run.intervalRunning && !run.timeoutPending
      ensures run.ticks == 0 && run.elapsedMs == 0.0 && !run.lightsOut
      ensures !overlayHidden
      ensures audio != null ==> audio.volume == MutedVolume && audio.playRequests == old(audio.playRequests) + 1
      ensures audio != null ==> audio.currentTime == old(audio.currentTime)
      ensures audioContexts == old(audioContexts) + 1
      ensures bulbs == old(bulbs) && scrollLocked == old(scrollLocked)
      ensures beeps == old(beeps) && engineStarts == old(engineStarts) && scrollRequests == old(scrollRequests)
    {
      overlayHidden := false;
      if audio != null {
        audio.volume := MutedVolume;
        audio.playRequests := audio.playRequests + 1;
      }
      audioContexts := audioContexts + 1;
      run := new Run(this);
    }

    /** Adds the `on` class to each bulb of light unit `u`, one bulb at a time. */
    method LightUnit(u: nat)
      requires u < |bulbs|
      modifies this
      ensures bulbs == LitUnit(old(bulbs), u)
      ensures overlayHidden == old(overlayHidden) && scrollLocked == old(scrollLocked)
      ensures audioContexts == old(audioContexts) && beeps == old(beeps)
      ensures engineStarts == old(engineStarts) && scrollRequests == old(scrollRequests)
    {
      var n := |bulbs[u]|;
      var b := 0;
      while b < n
        invariant 0 <= b <= n
        invariant |bulbs| == |old(bulbs)| && |bulbs[u]| == n
        invariant forall v :: 0 <= v < |bulbs| && v != u ==> bulbs[v] == old(bulbs)[v]
        invariant forall j :: 0 <= j < b ==> bulbs[u][j]
        invariant unchanged(this`overlayHidden, this`scrollLocked, this`audioContexts)
        invariant unchanged(this`beeps, this`engineStarts, this`scrollRequests)
      {
        bulbs := bulbs[u := bulbs[u][b := true]];
        b := b + 1;
      }
      assert bulbs[u] == seq(n, _ => true);
    }

    /** Removes the `on` class from every bulb in the document, one bulb at a time. */
    method AllLightsOut()
      modifies this
      ensures bulbs == LightsOff(old(bulbs))
      ensures overlayHidden == old(overlayHidden) && scrollLocked == old(scrollLocked)
      ensures audioContexts == old(audioContexts) && beeps == old(beeps)
      ensures engineStarts == old(engineStarts) && scrollRequests == old(scrollRequests)
    {
      var u := 0;
      while u < |bulbs|
        invariant 0 <= u <= |bulbs| == |old(bulbs)|
        invariant forall v :: 0 <= v < u ==> bulbs[v] == seq(|old(bulbs)[v]|, _ => false)
        invariant forall v :: u <= v < |bulbs| ==> bulbs[v] == old(bulbs)[v]
        invariant unchanged(this`overlayHidden, this`scrollLocked, this`audioContexts)
        invariant unchanged(this`beeps, this`engineStarts, this`scrollRequests)
      {
        ghost var prev := bulbs;
        var n := |bulbs[u]|;
        var b := 0;
        while b < n
          invariant 0 <= b <= n
          invariant |bulbs| == |old(bulbs)| && |bulbs[u]| == n == |old(bulbs)[u]|
          invariant forall v :: 0 <= v < |bulbs| && v != u ==> bulbs[v] == prev[v]
          invariant forall j :: 0 <= j < b ==> !bulbs[u][j]
          invariant unchanged(this`overlayHidden, this`scrollLocked, this`audioContexts)
          invariant unchanged(this`beeps, this`engineStarts, this`scrollRequests)
        {
          bulbs := bulbs[u := bulbs[u][b := false]];
          b := b + 1;
        }
        assert bulbs[u] == seq(n, _ => false);
        u := u + 1;
      }
    }
  }

  /** One click's sequence: the closure's `activeLight` counter and its two
      timers (the interval, then the suspense timeout). */
  class Run {
    const page: Page
    var activeLight: nat
    var intervalRunning: bool
    var timeoutPending: bool
    /** The suspense delay drawn when the interval was cleared. */
    var delay: real
    /** Interval ticks so far, time since the click, and whether lights out happened. */
    ghost var ticks: nat
    ghost var elapsedMs: real
    ghost var lightsOut: bool
    /** The bulbs as lights out found them. */
    ghost var bulbsAtLightsOut: seq<seq<bool>>

    /** The phases a run moves through: the interval is live while units are
        lit; once it is cleared all five units have been lit and the timeout
        is pending until it fires. */
    ghost predicate Valid()
      reads this
    {
      && activeLight <= UnitCount
      && activeLight <= ticks
      && elapsedMs >= ticks as real * CadenceMs
      && (intervalRunning ==> !timeoutPending && !lightsOut && elapsedMs == ticks as real * CadenceMs)
      && (!intervalRunning ==>
            && activeLight == UnitCount && ticks > UnitCount
            && MinDelayMs <= delay < MinDelayMs + DelaySpanMs
            && timeoutPending != lightsOut
            && (timeoutPending ==> elapsedMs == ticks as real * CadenceMs)
            && (lightsOut ==> elapsedMs == ticks as real * CadenceMs + delay))
    }

    constructor (page: Page)
      ensures Valid() && this.page == page
      ensures activeLight == 0 && intervalRunning && !timeoutPending
      ensures ticks == 0 && elapsedMs == 0.0 && !lightsOut
    {
      this.page := page;
      activeLight := 0;
      intervalRunning := true;
      timeoutPending := false;
      delay := 0.0;
      ticks := 0;
      elapsedMs := 0.0;
      lightsOut := false;
      bulbsAtLightsOut := [];
    }

    /** One firing of the one-second interval; `r` is what `Math.random()`
        returns if the tick draws the delay. With fewer than five light units
        the unit looked up is missing and the callback throws before
        any effect: `threw` reports that, and the interval keeps running. */
    method Tick(r: real) returns (threw: bool)
      requires Valid() && intervalRunning
      requires 0.0 <= r < 1.0
      modifies this, page
      ensures Valid()
      ensures ticks == old(ticks) + 1
      ensures threw <==> old(activeLight) < UnitCount && old(activeLight) >= |old(page.bulbs)|
      // a lighting tick: exactly the next unit comes on, with one beep
      ensures old(activeLight) < UnitCount && !threw ==>
                && page.bulbs == LitUnit(old(page.bulbs), old(activeLight))
                && activeLight == old(activeLight) + 1
                && page.beeps == old(page.beeps) + 1
                && intervalRunning && !timeoutPending
      // a throwing tick changes nothing
      ensures threw ==>
                && page.bulbs == old(page.bulbs) && page.beeps == old(page.beeps)
                && activeLight == old(activeLight) && intervalRunning && !timeoutPending
      // the tick that finds all five lit clears the interval and arms the timeout
      ensures old(activeLight) == UnitCount ==>
                && page.bulbs == old(page.bulbs) && page.beeps == old(page.beeps)
                && activeLight == UnitCount
                && !intervalRunning && timeoutPending && delay == SuspenseDelay(r)
      ensures page.overlayHidden == old(page.overlayHidden) && page.scrollLocked == old(page.scrollLocked)
      ensures page.audioContexts == old(page.audioContexts) && page.engineStarts == old(page.engineStarts)
      ensures page.scrollRequests == old(page.scrollRequests)
    {
      threw := false;
      if activeLight < UnitCount {
        if activeLight < |page.bulbs| {
          page.LightUnit(activeLight);
          page.beeps := page.beeps + 1;
          activeLight := activeLight + 1;
        } else {
          threw := true;
        }
      } else {
        intervalRunning := false;
        delay := SuspenseDelay(r);
        timeoutPending := true;
      }
      ticks := ticks + 1;
      elapsedMs := elapsedMs + CadenceMs;
    }

    /** The suspense timeout's callback: lights out, engine sound, music,
        scroll unlock, overlay hidden, scroll to `#vibe`. */
    method Fire()
      requires Valid() && timeoutPending
      modifies this, page, page.audio
      ensures Valid() && lightsOut && !timeoutPending && !intervalRunning
      // it only fires once all five units were lit, after the sixth tick and the delay
      ensures old(activeLight) == UnitCount && ticks == old(ticks) > UnitCount
      ensures elapsedMs == ticks as real * CadenceMs + delay
      ensures page.bulbs == LightsOff(old(page.bulbs))
      ensures page.engineStarts == old(page.engineStarts) + 1
      ensures page.audio != null ==> page.audio.currentTime == 0.0 && page.audio.volume == RaceVolume
      ensures page.audio != null ==> page.audio.playRequests == old(page.audio.playRequests)
      ensures !page.scrollLocked && page.overlayHidden
      ensures page.scrollRequests == old(page.scrollRequests) + (if page.hasTarget then 1 else 0)
      ensures page.beeps == old(page.beeps) && page.audioContexts == old(page.audioContexts)
      ensures activeLight == old(activeLight) && delay == old(delay)
      ensures bulbsAtLightsOut == old(page.bulbs)
    {
      bulbsAtLightsOut := page.bulbs;
      page.AllLightsOut();
      page.engineStarts := page.engineStarts + 1;
      if page.audio != null {
        page.audio.currentTime := 0.0;
        page.audio.volume := RaceVolume;
      }
      page.scrollLocked := false;
      page.overlayHidden := true;
      if page.hasTarget {
        page.scrollRequests := page.scrollRequests + 1;
      }
      timeoutPending := false;
      lightsOut := true;
      elapsedMs := elapsedMs + delay;
    }
  }

  /** One click followed by the timer events the browser delivers when no
      second click interferes: six interval ticks, then the timeout. */
  method UninterruptedRun(page: Page, r: real) returns (run: Run)
    requires |page.bulbs| >= UnitCount
    requires 0.0 <= r < 1.0
    modifies page, page.audio
    ensures fresh(run) && run.page == page && run.Valid() && run.lightsOut
    // before lights out, exactly the five units were lit, each once, in order
    ensures run.bulbsAtLightsOut == Countdown(old(page.bulbs), UnitCount)
    ensures forall u :: 0 <= u < UnitCount ==> AllOn(run.bulbsAtLightsOut[u])
    ensures page.beeps == old(page.beeps) + UnitCount
    ensures run.ticks == UnitCount + 1 && run.elapsedMs == LightsOutMs(r)
    // afterwards every bulb is off and the page is unlocked
    ensures page.bulbs == LightsOff(old(page.bulbs)) && AllDark(page.bulbs)
    ensures page.engineStarts == old(page.engineStarts) + 1
    ensures page.audioContexts == old(page.audioContexts) + 1
    ensures !page.scrollLocked && page.overlayHidden
    ensures page.audio != null ==> page.audio.currentTime == 0.0 && page.audio.volume == RaceVolume
  {
    ghost var bulbs0 := page.bulbs;
    ghost var beeps0 := page.beeps;
    run := page.Click();
    while run.intervalRunning
      invariant run.Valid() && run.page == page && fresh(run)
      invariant |page.bulbs| == |bulbs0|
      invariant run.intervalRunning ==> run.ticks == run.activeLight
      invariant !run.intervalRunning ==> run.ticks == UnitCount + 1 && run.delay == SuspenseDelay(r)
      invariant page.bulbs == Countdown(bulbs0, run.activeLight)
      invariant page.beeps == beeps0 + run.activeLight
      invariant page.engineStarts == old(page.engineStarts)
      invariant page.audioContexts == old(page.audioContexts) + 1
      invariant run.timeoutPending != run.intervalRunning
      decreases UnitCount + 1 - run.ticks
    {
      var threw := run.Tick(r);
    }
    run.Fire();
    forall u | 0 <= u < UnitCount
      ensures AllOn(run.bulbsAtLightsOut[u])
    {
      CountdownAt(bulbs0, UnitCount, u);
    }
  }
}
