/** Small shared vocabulary: an optional value, counting, and boolean toggles. */
module Common {

  /** A value that may be absent (a JavaScript `null`, `undefined` or `NaN`). */
  datatype Option<+T> = None | Some(value: T)

  /** No two positions of `s` hold the same value. */
  predicate Unique<T(==)>(s: seq<T>) {
    forall i, j :: 0 <= i < j < |s| ==> s[i] != s[j]
  }

  /** Number of positions of `s` that hold `true`. */
  function CountTrue(s: seq<bool>): (n: nat)
    ensures n <= |s|
  {
    if s == [] then 0 else CountTrue(s[..|s| - 1]) + (if s[|s| - 1] then 1 else 0)
  }

  /** For each position of `s`, whether it holds `x` (one `activeId === item.id` test per item). */
  function MatchesOf<T(==)>(s: seq<T>, x: T): (m: seq<bool>)
    ensures |m| == |s|
    ensures forall i :: 0 <= i < |s| ==> (m[i] <==> s[i] == x)
  {
    if s == [] then [] else MatchesOf(s[..|s| - 1], x) + [s[|s| - 1] == x]
  }

  /** In a sequence without repeats, a value matches exactly once if present and never otherwise. */
  lemma {:induction false} UniqueMatchCount<T>(s: seq<T>, x: T)
    requires Unique(s)
    ensures CountTrue(MatchesOf(s, x)) == (if x in s then 1 else 0)
  {
    if s != [] {
      var init := s[..|s| - 1];
      assert MatchesOf(s, x)[..|s| - 1] == MatchesOf(init, x);
      UniqueMatchCount(init, x);
      if s[|s| - 1] == x {
        assert x !in init by {
          forall i | 0 <= i < |init| ensures init[i] != x {
            assert s[i] == init[i];
          }
        }
      } else {
        assert x in s <==> x in init by {
          if x in s {
            var i :| 0 <= i < |s| && s[i] == x;
            assert init[i] == x;
          }
        }
      }
    }
  }

  /** A flag after `setFlag(prev => !prev)` runs once for each `true` of `flips`, in order. */
  function FlipEach(flag: bool, flips: seq<bool>): bool {
    if flips == [] then flag
    else
      var before := FlipEach(flag, flips[..|flips| - 1]);
      if flips[|flips| - 1] then !before else before
  }

  /** A flag flipped once per `true` ends flipped iff their count is odd; two flips restore it. */
  lemma {:induction false} FlipEachParity(flag: bool, flips: seq<bool>)
    ensures FlipEach(flag, flips) == (if CountTrue(flips) % 2 == 0 then flag else !flag)
  {
    if flips != [] {
      FlipEachParity(flag, flips[..|flips| - 1]);
    }
  }

  /** The smaller of two integers. */
  function Min(a: int, b: int): int { if a <= b then a else b }

  /** `Math.min` and `Math.max` on reals. */
  function MinReal(a: real, b: real): real { if a <= b then a else b }
  function MaxReal(a: real, b: real): real { if a >= b then a else b }
}
