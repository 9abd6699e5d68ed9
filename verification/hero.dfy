/**
 * The typewriter line of `HeroSection` (components/portfolio/hero-section.tsx):
 * an 80 ms interval shows ever longer prefixes of a fixed text, then clears
 * itself. Also the orbit radius clamp of the hero 3D scene.
 */
module Hero {
  import opened Common

  /** The text the hero section types out. */
  const FullText: string := "Full-Stack Developer"

  /** The `index` counter after `ticks` interval firings: it stops at `|fullText| + 1`. */
  function IndexAfter(fullText: string, ticks: nat): (index: nat)
    ensures index <= ticks && index <= |fullText| + 1
    ensures ticks <= |fullText| + 1 ==> index == ticks
  {
    Min(ticks, |fullText| + 1)
  }

  /** `displayText` after `ticks` firings: tick `t` shows `fullText.slice(0, t - 1)`. */
  function TextAfter(fullText: string, ticks: nat): (shown: string)
    ensures shown <= fullText
  {
    if ticks == 0 then "" else fullText[..IndexAfter(fullText, ticks) - 1]
  }

  /** The shown text grows by exactly one character per tick until it is complete. */
  lemma TextGrowsByOne(fullText: string, ticks: nat)
    requires 1 <= ticks <= |fullText| + 1
    ensures |TextAfter(fullText, ticks)| == ticks - 1
    ensures ticks >= 2 ==> TextAfter(fullText, ticks) == TextAfter(fullText, ticks - 1) + [fullText[ticks - 2]]
  {
    if ticks >= 2 {
      assert fullText[..ticks - 1] == fullText[..ticks - 2] + [fullText[ticks - 2]];
    }
  }

  /** Later ticks only extend what earlier ticks showed. */
  lemma TextOnlyGrows(fullText: string, t1: nat, t2: nat)
    requires t1 <= t2
    ensures TextAfter(fullText, t1) <= TextAfter(fullText, t2)
  {
  }

  /** From tick `|fullText| + 1` on, the whole text is shown. */
  lemma TextCompletes(fullText: string, ticks: nat)
    requires ticks >= |fullText| + 1
    ensures TextAfter(fullText, ticks) == fullText
    ensures IndexAfter(fullText, ticks) == |fullText| + 1
  {
  }

  /**
   * The interval closure of the `useEffect`: its `index` counter, the
   * `displayText` state it writes, and whether the interval is still set.
   * The ghost `ticks` counts firings while it was set.
   */
  class Typewriter {
    const fullText: string
    var displayText: string
    var index: nat
    var intervalSet: bool
    ghost var ticks: nat

    ghost predicate Valid()
      reads this
    {
      && index == IndexAfter(fullText, ticks)
      && displayText == TextAfter(fullText, ticks)
      && (intervalSet ==> ticks <= |fullText| + 1)
    }

    /** Mount: empty text, counter at 0, interval set. */
    constructor (text: string)
      ensures Valid() && fullText == text
      ensures displayText == "" && index == 0 && intervalSet && ticks == 0
    {
      fullText := text;
      displayText := "";
      index := 0;
      intervalSet := true;
      ticks := 0;
    }

    /**
     * One firing of the interval: while `index <= fullText.length` show the
     * prefix of length `index` and count up; otherwise clear the interval.
     * A cleared interval no longer fires.
     */
    method Tick()
      requires Valid()
      modifies this
      ensures Valid()
      ensures old(intervalSet) ==> ticks == old(ticks) + 1
      ensures !old(intervalSet) ==> ticks == old(ticks) && !intervalSet && displayText == old(displayText)
      ensures intervalSet == (old(intervalSet) && old(index) <= |fullText|)
      ensures old(displayText) <= displayText && displayText <= fullText
      ensures index <= |fullText| + 1
    {
      if !intervalSet {
        return;
      }
      if index <= |fullText| {
        displayText := fullText[..index];
        index := index + 1;
      } else {
        intervalSet := false;
      }
      ticks := ticks + 1;
    }

    /** Unmount: the cleanup clears the interval. */
    method Unmount()
      requires Valid()
      modifies this`intervalSet
      ensures Valid() && !intervalSet
    {
      intervalSet := false;
    }
  }

  /** Running the interval `|fullText| + 2` times types the whole text and clears the interval. */
  method TypeOut(w: Typewriter)
    requires w.Valid() && w.intervalSet && w.ticks == 0
    modifies w
    ensures w.Valid() && w.displayText == w.fullText && !w.intervalSet
  {
    var n := 0;
    while w.intervalSet
      invariant w.Valid()
      invariant w.intervalSet ==> w.ticks == n
      invariant n <= |w.fullText| + 2
      invariant !w.intervalSet ==> w.ticks == |w.fullText| + 2
      decreases |w.fullText| + 2 - n
    {
      w.Tick();
      n := n + 1;
    }
    TextCompletes(w.fullText, w.ticks);
  }

  /** The hero section's own typewriter ends showing its whole title, "Full-Stack Developer". */
  method TypeTitle() returns (shown: string)
    ensures shown == FullText && |shown| == 20
  {
    var w := new Typewriter(FullText);
    TypeOut(w);
    shown := w.displayText;
  }

  /** `Math.min(2.2, viewport.width * 0.35)`: the hero orbit radius never exceeds 2.2. */
  function OrbitRadius(viewportWidth: real): (r: real)
    ensures r <= 2.2
    ensures r <= viewportWidth * 0.35
    ensures r == 2.2 || r == viewportWidth * 0.35
  {
    MinReal(2.2, viewportWidth * 0.35)
  }
}
