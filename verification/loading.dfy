/**
 * `LoadingSequence` (components/portfolio/loading-sequence.tsx): four timers
 * started together move `phase` from 0 to 3 and then call `onComplete`; the
 * overlay, the star pattern, the name and the progress bar are read off `phase`.
 */
module Loading {

  /** The four timers, in the order of their delays. */
  datatype Timer = ShowStars | ShowName | Finish | FadeOut

  const Timers: seq<Timer> := [ShowStars, ShowName, Finish, FadeOut]

  /** Delay of each timer in milliseconds. */
  function Delay(t: Timer): nat {
    match t
    case ShowStars => 500
    case ShowName => 1500
    case Finish => 2500
    case FadeOut => 3000
  }

  /** Timers are listed in strictly increasing delay order. */
  lemma TimersOrderedByDelay()
    ensures |Timers| == 4
    ensures forall i, j :: 0 <= i < j < |Timers| ==> Delay(Timers[i]) < Delay(Timers[j])
    ensures forall t: Timer :: t in Timers
  {
    forall t: Timer ensures t in Timers {
      assert t == Timers[0] || t == Timers[1] || t == Timers[2] || t == Timers[3];
    }
  }

  /** The phase a timer's callback sets (`FadeOut` calls `onComplete` and sets none). */
  function PhaseSetBy(t: Timer): nat {
    match t
    case ShowStars => 1
    case ShowName => 2
    case Finish => 3
    case FadeOut => 0
  }

  /** `phase` after the callbacks of `fired` ran in order, starting from 0. */
  function PhaseAfter(fired: seq<Timer>): (phase: nat)
    ensures phase <= 3
  {
    if fired == [] then 0
    else if fired[|fired| - 1] == FadeOut then PhaseAfter(fired[..|fired| - 1])
    else PhaseSetBy(fired[|fired| - 1])
  }

  /** Firing the timers in delay order, the first `k` give phase `min(k, 3)`. */
  lemma PhaseAfterInOrder(k: nat)
    requires k <= |Timers|
    ensures PhaseAfter(Timers[..k]) == if k <= 3 then k else 3
  {
    if k == 4 {
      assert Timers[..4][..3] == Timers[..3];
    }
  }

  /** In delay order, the phase never goes down and stays within 0..3. */
  lemma PhaseMonotone(k1: nat, k2: nat)
    requires k1 <= k2 <= |Timers|
    ensures PhaseAfter(Timers[..k1]) <= PhaseAfter(Timers[..k2]) <= 3
  {
    PhaseAfterInOrder(k1);
    PhaseAfterInOrder(k2);
  }

  /** The timers still pending after the first `k` fired. */
  function PendingFrom(k: nat): set<Timer>
    requires k <= |Timers|
  {
    set i | k <= i < |Timers| :: Timers[i]
  }

  // ---------------------------------------------------------------------
  // Views derived from the phase
  // ---------------------------------------------------------------------

  /** The overlay is rendered while `phase < 3`. */
  predicate OverlayShown(phase: nat) { phase < 3 }

  /** The star pattern is scaled in from phase 1. */
  predicate StarsShown(phase: nat) { phase >= 1 }

  /** The name is faded in from phase 2. */
  predicate NameShown(phase: nat) { phase >= 2 }

  /** Progress bar width in percent: `(phase / 3) * 100`. */
  function BarWidth(phase: nat): (width: real)
    ensures phase <= 3 ==> 0.0 <= width <= 100.0
  {
    (phase as real / 3.0) * 100.0
  }

  /** The bar is empty at phase 0, full exactly at phase 3, and within 0..100 on the way. */
  lemma BarWidthBounds(phase: nat)
    requires phase <= 3
    ensures 0.0 <= BarWidth(phase) <= 100.0
    ensures BarWidth(phase) == 0.0 <==> phase == 0
    ensures BarWidth(phase) == 100.0 <==> phase == 3
  {
  }

  /** A later phase never shows a shorter bar. */
  lemma BarWidthIncreasing(p1: nat, p2: nat)
    requires p1 < p2
    ensures BarWidth(p1) < BarWidth(p2)
  {
  }

  /** The reveals nest: the name implies the stars, and the overlay goes only once the name is in. */
  lemma RevealsNest(phase: nat)
    requires phase <= 3
    ensures NameShown(phase) ==> StarsShown(phase)
    ensures !OverlayShown(phase) <==> phase == 3
    ensures !OverlayShown(phase) ==> NameShown(phase) && BarWidth(phase) == 100.0
  {
  }

  // ---------------------------------------------------------------------
  // The component state
  // ---------------------------------------------------------------------

  /**
   * The mounted component: `phase`, the timers still pending, and how often
   * `onComplete` was called. The ghost `fired` lists the callbacks that ran.
   */
  class LoadingSequence {
    var phase: nat
    var pending: set<Timer>
    var completions: nat
    ghost var fired: seq<Timer>

    ghost predicate Valid()
      reads this
    {
      && |fired| <= |Timers|
      && fired == Timers[..|fired|]
      && phase == PhaseAfter(fired)
      && completions == (if |fired| == |Timers| then 1 else 0)
      && (pending == {} || pending == PendingFrom(|fired|))
    }

    /** Mount: phase 0, all four timers pending. */
    constructor ()
      ensures Valid()
      ensures phase == 0 && completions == 0 && pending == {ShowStars, ShowName, Finish, FadeOut}
    {
      phase := 0;
      completions := 0;
      fired := [];
      pending := {ShowStars, ShowName, Finish, FadeOut};
      assert Timers[..0] == [];
      assert PendingFrom(0) == {ShowStars, ShowName, Finish, FadeOut} by {
        assert Timers[0] == ShowStars && Timers[1] == ShowName && Timers[2] == Finish && Timers[3] == FadeOut;
      }
    }

    /**
     * The pending timer with the smallest delay fires (timers started together
     * fire in delay order): it sets its phase, or the last one calls `onComplete`.
     */
    method Fire(t: Timer)
      requires Valid()
      requires t in pending
      requires forall u :: u in pending ==> Delay(t) <= Delay(u)
      modifies this
      ensures Valid()
      ensures pending == old(pending) - {t}
      ensures old(phase) <= phase <= 3
      ensures t != FadeOut ==> phase == PhaseSetBy(t) && completions == old(completions)
      ensures t == FadeOut ==> phase == 3 && completions == old(completions) + 1
    {
      var k := |fired|;
      assert t == Timers[k] by {
        var i :| k <= i < |Timers| && Timers[i] == t;
        assert Timers[k] in pending;
        TimersOrderedByDelay();
      }
      PhaseAfterInOrder(k);
      PhaseAfterInOrder(k + 1);
      assert Timers[..k + 1] == fired + [t];
      fired := fired + [t];
      if t == FadeOut {
        completions := completions + 1;
      } else {
        phase := PhaseSetBy(t);
      }
      pending := pending - {t};
      assert pending == PendingFrom(k + 1) by {
        TimersOrderedByDelay();
        assert forall i, j :: 0 <= i < j < |Timers| ==> Timers[i] != Timers[j];
      }
    }

    /** Unmount: the cleanup clears all four timers; nothing fires afterwards. */
    method Unmount()
      requires Valid()
      modifies this`pending
      ensures Valid() && pending == {}
    {
      pending := {};
    }
  }

  /**
   * Mounting and letting the four timers fire in delay order ends at phase 3
   * with `onComplete` called exactly once and no timer left pending.
   */
  method RunToCompletion() returns (l: LoadingSequence)
    ensures l.Valid()
    ensures l.phase == 3 && l.completions == 1 && l.pending == {}
  {
    l := new LoadingSequence();
    l.Fire(ShowStars);
    assert l.phase == 1;
    l.Fire(ShowName);
    assert l.phase == 2;
    l.Fire(Finish);
    l.Fire(FadeOut);
  }
}
