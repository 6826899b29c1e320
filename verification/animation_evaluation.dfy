/**
 * How the engine evaluates the demo's animations. The engine's
 * InterpolationFactory, TransformationFactory and AnimationFactory are not
 * part of this model: everything in this module is an ASSUMPTION about
 * them, namely that a linear interpolation is the clamped fraction of
 * its duration elapsed, that a translation moves by its offset scaled by that
 * progress, and that a composite's translations add up.
 */
module AnimationEvaluation {
  import opened JavaInt
  import opened Engine
  import opened States
  import opened StateFactory
  import StateMachine

  function Add(v: Vec3, w: Vec3): Vec3
  {
    Vec3(v.x + w.x, v.y + w.y, v.z + w.z)
  }

  function Scale(v: Vec3, p: real): Vec3
  {
    Vec3(p * v.x, p * v.y, p * v.z)
  }

  /** Assumed: the progress of a linear interpolation at time `t`, clamped to [0, 1]. */
  function Progress(i: Interpolation, t: int): (p: real)
    ensures 0.0 <= p <= 1.0
    ensures t <= i.start ==> p == 0.0
    ensures t >= i.start + i.duration && t > i.start ==> p == 1.0
  {
    if t <= i.start then 0.0
    else if t >= i.start + i.duration then 1.0
    else
      FractionBounds((t - i.start) as real, i.duration as real);
      (t - i.start) as real / i.duration as real
  }

  /** A proper fraction of a positive whole lies in [0, 1]. */
  lemma FractionBounds(n: real, d: real)
    requires 0.0 < n < d
    ensures 0.0 <= n / d <= 1.0
  {
    assert (n / d) * d == n;
  }

  /** Progress never decreases as time passes. */
  lemma ProgressMonotonic(i: Interpolation, t1: int, t2: int)
    requires t1 <= t2
    ensures Progress(i, t1) <= Progress(i, t2)
  {
    if i.start < t1 && t2 < i.start + i.duration {
      DivideMonotonic((t1 - i.start) as real, (t2 - i.start) as real, i.duration as real);
    }
  }

  lemma DivideMonotonic(a: real, b: real, d: real)
    requires a <= b && d > 0.0
    ensures a / d <= b / d
  {
    assert (b / d - a / d) * d == b - a;
  }

  /** Assumed: the translation an animation applies at time `t`. */
  function Displacement(a: Animation, t: int): Vec3
    decreases a, 1
  {
    match a
    case Static(v) => v
    case Dynamic(Translate(v, i)) => Scale(v, Progress(i, t))
    case Composite(parts) => DisplacementFrom(parts, 0, t)
  }

  /** The translations of a composite's parts from index `k` on, added in order. */
  function DisplacementFrom(parts: seq<Animation>, k: nat, t: int): Vec3
    decreases parts, |parts| - k
  {
    if k >= |parts| then Vec3(0.0, 0.0, 0.0)
    else Add(Displacement(parts[k], t), DisplacementFrom(parts, k + 1, t))
  }

  /** createFirstAnimation's translation applies in full at every instant. */
  lemma FirstAnimationImmediate(x: real, y: real, t: int)
    ensures Displacement(FirstAnimation(x, y), t) == Vec3(x, y, 0.0)
  {
  }

  /**
   * createSecondAnimation's translation is nothing up to `start`, the full
   * (x, y, 0) from `start + DURATION` on, and a scaling of it in between.
   */
  lemma SecondAnimationGlides(start: Int64, x: real, y: real, t: int)
    ensures var p := Progress(Linear(start, DURATION), t);
      Displacement(SecondAnimation(start, x, y), t) == Vec3(p * x, p * y, 0.0)
    ensures t <= start ==> Displacement(SecondAnimation(start, x, y), t) == Vec3(0.0, 0.0, 0.0)
    ensures t >= start + DURATION ==> Displacement(SecondAnimation(start, x, y), t) == Vec3(x, y, 0.0)
  {
  }

  /** A mirrored animation moves the opposite way at every instant. */
  lemma {:induction false} MirrorDisplacement(a: Animation, t: int)
    ensures Displacement(Mirror(a), t) == Negate(Displacement(a, t))
    decreases a, 1
  {
    match a
    case Static(v) =>
    case Dynamic(Translate(v, i)) =>
    case Composite(parts) => MirrorDisplacementFrom(parts, 0, t);
  }

  lemma {:induction false} MirrorDisplacementFrom(parts: seq<Animation>, k: nat, t: int)
    ensures DisplacementFrom(MirrorAll(parts), k, t) == Negate(DisplacementFrom(parts, k, t))
    decreases parts, |parts| - k
  {
    if k < |parts| {
      var ms := MirrorAll(parts);
      var a := Displacement(parts[k], t);
      var b := DisplacementFrom(parts, k + 1, t);
      assert ms[k] == Mirror(parts[k]);
      MirrorDisplacement(parts[k], t);
      MirrorDisplacementFrom(parts, k + 1, t);
      calc {
        DisplacementFrom(ms, k, t);
        Add(Displacement(ms[k], t), DisplacementFrom(ms, k + 1, t));
        Add(Negate(a), Negate(b));
        Negate(Add(a, b));
      }
    }
  }

  /** A two-part composite moves by the sum of its parts' translations. */
  lemma PairDisplacement(first: Animation, second: Animation, t: int)
    ensures Displacement(Composite([first, second]), t)
      == Add(Displacement(first, t), Add(Displacement(second, t), Vec3(0.0, 0.0, 0.0)))
  {
    var parts := [first, second];
    assert Displacement(Composite(parts), t) == DisplacementFrom(parts, 0, t);
    assert DisplacementFrom(parts, 2, t) == Vec3(0.0, 0.0, 0.0);
    assert DisplacementFrom(parts, 1, t) == Add(Displacement(second, t), Vec3(0.0, 0.0, 0.0));
  }

  /** The box of a Left state sits at x = 1 - 2p for the progress p of its glide. */
  lemma LeftPath(start: Int64, t: int)
    ensures var p := Progress(Linear(start, DURATION), t);
      Displacement(LeftAnimation(start), t) == Vec3(1.0 - 2.0 * p, 0.0, 0.0)
  {
    PairDisplacement(FirstAnimation(1.0, 0.0), SecondAnimation(start, -2.0, 0.0), t);
  }

  /** Left's box jumps to x = 1 at `start` and reaches x = -1 after DURATION. */
  lemma LeftEnds(start: Int64, t: int)
    ensures t <= start ==> Displacement(LeftAnimation(start), t) == Vec3(1.0, 0.0, 0.0)
    ensures t >= start + DURATION ==> Displacement(LeftAnimation(start), t) == Vec3(-1.0, 0.0, 0.0)
  {
    LeftPath(start, t);
  }

  /** The box of a Right state sits at x = 2p - 1: Left's path, negated. */
  lemma RightPath(start: Int64, t: int)
    ensures var p := Progress(Linear(start, DURATION), t);
      Displacement(RightAnimation(start), t) == Vec3(2.0 * p - 1.0, 0.0, 0.0)
  {
    RightMirrorsLeft(start);
    MirrorDisplacement(LeftAnimation(start), t);
    LeftPath(start, t);
  }

  /** Right's box jumps to x = -1 at `start` and reaches x = 1 after DURATION. */
  lemma RightEnds(start: Int64, t: int)
    ensures t <= start ==> Displacement(RightAnimation(start), t) == Vec3(-1.0, 0.0, 0.0)
    ensures t >= start + DURATION ==> Displacement(RightAnimation(start), t) == Vec3(1.0, 0.0, 0.0)
  {
    RightPath(start, t);
  }

  /**
   * The oscillation is continuous: once a Right glide has run its course, the
   * Left state the animation event creates starts exactly where the box is.
   */
  lemma FlipIsSeamless(s: State, start: Int64, t: Int64, d: Draws)
    requires s.Right? && s.box.animation == RightAnimation(start) && t >= start + DURATION
    ensures var r := StateMachine.Update(s, AnimationEvent(t), d);
      r.Left? && Displacement(r.box.animation, t) == Displacement(s.box.animation, t)
  {
    RightEnds(start, t);
    LeftEnds(t, t);
  }

  /** A released touch restarts Right: at the touch's time the box sits at the static offset only. */
  lemma TapRestarts(s: State, t: Int64, d: Draws)
    requires s.Right?
    ensures var r := StateMachine.Update(s, TouchEvent(Up, t), d);
      r.Right? && Displacement(r.box.animation, t) == Vec3(-1.0, 0.0, 0.0)
  {
    RightEnds(t, t);
  }
}
