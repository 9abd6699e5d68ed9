/**
 * `StarBackground` (components/portfolio/star-background.tsx): a canvas-wide
 * field of 150 stars that twinkle and drift downwards, one step per animation
 * frame, reappearing at the top at a random column once they fall off the
 * bottom. Every `Math.random()` value is an input in [0, 1).
 */
module Stars {
  import opened Common

  /** One star; its fields are mutated by each frame. */
  datatype Star = Star(x: real, y: real, size: real, opacity: real, speed: real)

  /** The five `Math.random()` values drawn, in order, to create one star. */
  datatype StarDraw = StarDraw(x: real, y: real, size: real, opacity: real, speed: real)

  /** Size of the pool. */
  const NumStars: nat := 150

  /** A value `Math.random()` can return. */
  predicate IsRandom(r: real) { 0.0 <= r < 1.0 }

  predicate IsDraw(d: StarDraw) {
    IsRandom(d.x) && IsRandom(d.y) && IsRandom(d.size) && IsRandom(d.opacity) && IsRandom(d.speed)
  }

  predicate AllRandom(rs: seq<real>) { forall i :: 0 <= i < |rs| ==> IsRandom(rs[i]) }

  /** A random value scaled by a non-negative extent lies in [0, extent), or is 0 for an empty extent. */
  lemma ScaleBelow(r: real, extent: real)
    ensures IsRandom(r) && extent >= 0.0 ==> 0.0 <= r * extent
    ensures IsRandom(r) && extent > 0.0 ==> r * extent < extent
  {
    if IsRandom(r) && extent > 0.0 {
      assert (1.0 - r) * extent > 0.0;
    }
  }

  /**
   * The bounds every star keeps for its whole life: size in [0.5, 2.5),
   * speed in [0.1, 0.6), opacity in [0.2, 1] and a position that is never negative.
   */
  predicate InRange(s: Star) {
    0.5 <= s.size < 2.5 && 0.1 <= s.speed < 0.6 && 0.2 <= s.opacity <= 1.0
    && 0.0 <= s.x && 0.0 <= s.y
  }

  /** A star created from five random draws on a `width` x `height` canvas. */
  function NewStar(d: StarDraw, width: nat, height: nat): (s: Star)
    ensures IsDraw(d) ==> InRange(s) && s.opacity < 1.0
    ensures IsDraw(d) && width > 0 ==> s.x < width as real
    ensures IsDraw(d) && height > 0 ==> s.y < height as real
  {
    ScaleBelow(d.x, width as real);
    ScaleBelow(d.y, height as real);
    Star(d.x * width as real, d.y * height as real, d.size * 2.0 + 0.5, d.opacity * 0.8 + 0.2, d.speed * 0.5 + 0.1)
  }

  /** The opacity after one twinkle: nudged by at most 0.01 either way, then clamped to [0.2, 1]. */
  function Twinkle(opacity: real, r: real): (o: real)
    ensures 0.2 <= o <= 1.0
    ensures IsRandom(r) && 0.2 <= opacity <= 1.0 ==> -0.01 <= o - opacity <= 0.01
  {
    MaxReal(0.2, MinReal(1.0, opacity + (r - 0.5) * 0.02))
  }

  /** Whether a star falls off the bottom of a `height`-tall canvas in this frame. */
  predicate FallsOff(s: Star, height: nat) {
    s.y + s.speed * 0.1 > height as real
  }

  /**
   * One frame for one star: twinkle with `rTwinkle`, drift down by a tenth of
   * its speed, and, if that takes it below the canvas, restart at the top at
   * column `rX * width`.
   */
  function StepStar(s: Star, rTwinkle: real, rX: real, width: nat, height: nat): (t: Star)
    ensures t.size == s.size && t.speed == s.speed
    ensures 0.2 <= t.opacity <= 1.0
    ensures t.y <= height as real
  {
    var opacity := Twinkle(s.opacity, rTwinkle);
    if FallsOff(s, height) then Star(rX * width as real, 0.0, s.size, opacity, s.speed)
    else Star(s.x, s.y + s.speed * 0.1, s.size, opacity, s.speed)
  }

  /** A star keeps its bounds through a frame, and sits on the canvas afterwards. */
  lemma StepStarInRange(s: Star, rTwinkle: real, rX: real, width: nat, height: nat)
    requires InRange(s) && IsRandom(rTwinkle) && IsRandom(rX)
    ensures var t := StepStar(s, rTwinkle, rX, width, height);
      InRange(t) && t.y <= height as real
      && (width > 0 && (FallsOff(s, height) || s.x < width as real) ==> t.x < width as real)
  {
    ScaleBelow(rX, width as real);
  }

  /**
   * A star that stays on the canvas moves straight down by between 0.01 and
   * 0.06 and keeps its column; one that falls off restarts on the top edge.
   */
  lemma StepStarDrifts(s: Star, rTwinkle: real, rX: real, width: nat, height: nat)
    requires InRange(s)
    ensures var t := StepStar(s, rTwinkle, rX, width, height);
      (!FallsOff(s, height) ==> t.x == s.x && 0.01 <= t.y - s.y < 0.06)
      && (FallsOff(s, height) ==> t.y == 0.0 && t.x == rX * width as real)
  {
  }

  /** One frame changes a star's opacity by at most 0.01 either way. */
  lemma StepStarOpacityNudged(s: Star, rTwinkle: real, rX: real, width: nat, height: nat)
    requires InRange(s) && IsRandom(rTwinkle)
    ensures var t := StepStar(s, rTwinkle, rX, width, height);
      -0.01 <= t.opacity - s.opacity <= 0.01
  {
  }

  /** The pool created from one draw per star. */
  function Pool(draws: seq<StarDraw>, width: nat, height: nat): (stars: seq<Star>)
    ensures |stars| == |draws|
    ensures forall i :: 0 <= i < |draws| ==> stars[i] == NewStar(draws[i], width, height)
  {
    seq(|draws|, i requires 0 <= i < |draws| => NewStar(draws[i], width, height))
  }

  /** One frame over the whole pool: every star steps with its own two random values. */
  function FrameOf(stars: seq<Star>, twinkle: seq<real>, respawn: seq<real>, width: nat, height: nat): (next: seq<Star>)
    requires |twinkle| == |stars| && |respawn| == |stars|
    ensures |next| == |stars|
    ensures forall i :: 0 <= i < |stars| ==> next[i] == StepStar(stars[i], twinkle[i], respawn[i], width, height)
  {
    seq(|stars|, i requires 0 <= i < |stars| => StepStar(stars[i], twinkle[i], respawn[i], width, height))
  }

  predicate AllInRange(stars: seq<Star>) { forall i :: 0 <= i < |stars| ==> InRange(stars[i]) }

  predicate AllOnCanvas(stars: seq<Star>, height: nat) { forall i :: 0 <= i < |stars| ==> stars[i].y <= height as real }

  /** Every freshly created star is in range and inside the canvas it was created for. */
  lemma PoolInRange(draws: seq<StarDraw>, width: nat, height: nat)
    requires forall i :: 0 <= i < |draws| ==> IsDraw(draws[i])
    ensures AllInRange(Pool(draws, width, height))
    ensures AllOnCanvas(Pool(draws, width, height), height)
  {
    var p := Pool(draws, width, height);
    forall i | 0 <= i < |p| ensures InRange(p[i]) && p[i].y <= height as real {
      assert p[i] == NewStar(draws[i], width, height);
    }
  }

  /** A frame keeps every star in range and leaves all of them on the canvas. */
  lemma FrameInRange(stars: seq<Star>, twinkle: seq<real>, respawn: seq<real>, width: nat, height: nat)
    requires |twinkle| == |stars| && |respawn| == |stars|
    requires AllInRange(stars) && AllRandom(twinkle) && AllRandom(respawn)
    ensures AllInRange(FrameOf(stars, twinkle, respawn, width, height))
    ensures AllOnCanvas(FrameOf(stars, twinkle, respawn, width, height), height)
  {
    var next := FrameOf(stars, twinkle, respawn, width, height);
    forall i | 0 <= i < |stars| ensures InRange(next[i]) {
      StepStarInRange(stars[i], twinkle[i], respawn[i], width, height);
    }
  }

  /** The alpha of a star's dot (`opacity * 0.6`), which stays within [0.12, 0.6]. */
  function DotAlpha(s: Star): (a: real)
    ensures InRange(s) ==> 0.12 <= a <= 0.6
  {
    s.opacity * 0.6
  }

  /** The radius of a star's glow (`size * 3`), which stays within [1.5, 7.5). */
  function GlowRadius(s: Star): (r: real)
    ensures InRange(s) ==> 1.5 <= r < 7.5 && r == 3.0 * s.size
  {
    s.size * 3.0
  }

  /** The creation loop: one star per iteration, pushed in order. */
  method CreatePool(draws: seq<StarDraw>, width: nat, height: nat) returns (stars: array<Star>)
    requires |draws| == NumStars
    ensures fresh(stars)
    ensures stars[..] == Pool(draws, width, height)
  {
    stars := new Star[NumStars];
    for i := 0 to NumStars
      invariant forall j :: 0 <= j < i ==> stars[j] == NewStar(draws[j], width, height)
    {
      stars[i] := NewStar(draws[i], width, height);
    }
  }

  /** The mounted component: its canvas size, its star pool, and whether its listeners and frames are live. */
  class StarField {
    var stars: array<Star>
    var width: nat
    var height: nat
    /** The resize listener is registered and an animation frame is scheduled. */
    var running: bool

    ghost predicate Valid()
      reads this, stars
    {
      (running ==> stars.Length == NumStars) && AllInRange(stars[..])
    }

    /**
     * The effect at mount. Without a canvas or a 2D context it returns before
     * doing anything; otherwise it sizes the canvas to the viewport, creates
     * the pool and runs the first frame at once.
     */
    constructor (hasCanvas: bool, hasContext: bool, viewportWidth: nat, viewportHeight: nat,
                 draws: seq<StarDraw>, twinkle: seq<real>, respawn: seq<real>)
      requires |draws| == NumStars && forall i :: 0 <= i < |draws| ==> IsDraw(draws[i])
      requires |twinkle| == NumStars && |respawn| == NumStars && AllRandom(twinkle) && AllRandom(respawn)
      ensures Valid() && fresh(stars)
      ensures running <==> hasCanvas && hasContext
      ensures !running ==> stars.Length == 0
      ensures running ==> width == viewportWidth && height == viewportHeight
      ensures running ==>
        stars[..] == FrameOf(Pool(draws, viewportWidth, viewportHeight), twinkle, respawn, viewportWidth, viewportHeight)
    {
      if !hasCanvas || !hasContext {
        stars := new Star[0];
        width := 0;
        height := 0;
        running := false;
      } else {
        width := viewportWidth;
        height := viewportHeight;
        var pool := CreatePool(draws, viewportWidth, viewportHeight);
        stars := pool;
        running := true;
      }
      new;
      if running {
        PoolInRange(draws, width, height);
        Frame(twinkle, respawn);
      }
    }

    /** One animation frame: twinkle, drift and wrap every star, in place. */
    method Frame(twinkle: seq<real>, respawn: seq<real>)
      requires Valid() && running
      requires |twinkle| == stars.Length && |respawn| == stars.Length
      requires AllRandom(twinkle) && AllRandom(respawn)
      modifies stars
      ensures Valid()
      ensures stars[..] == FrameOf(old(stars[..]), twinkle, respawn, width, height)
      ensures AllOnCanvas(stars[..], height)
    {
      ghost var before := stars[..];
      FrameInRange(before, twinkle, respawn, width, height);
      for i := 0 to stars.Length
        invariant forall j :: 0 <= j < i ==> stars[j] == StepStar(before[j], twinkle[j], respawn[j], width, height)
        invariant forall j :: i <= j < stars.Length ==> stars[j] == before[j]
      {
        stars[i] := StepStar(stars[i], twinkle[i], respawn[i], width, height);
      }
    }

    /** The resize listener: the canvas follows the viewport and the pool is left as it is. */
    method Resize(viewportWidth: nat, viewportHeight: nat)
      requires Valid() && running
      modifies this
      ensures Valid() && running
      ensures width == viewportWidth && height == viewportHeight
      ensures stars == old(stars) && stars[..] == old(stars[..])
    {
      width := viewportWidth;
      height := viewportHeight;
    }

    /** The effect's cleanup: the listener is removed and the pending frame cancelled. */
    method Unmount()
      requires Valid()
      modifies this
      ensures Valid() && !running
      ensures stars == old(stars) && width == old(width) && height == old(height)
    {
      running := false;
    }
  }
}
