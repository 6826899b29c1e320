/**
 * StateFactory: builds each state with its label, box, colour and animation.
 * The static Random generator is replaced by the three values its nextInt
 * calls return (Draws), and the Android context is left out.
 */
module StateFactory {
  import opened JavaInt
  import opened Engine
  import opened Boxes
  import opened Labels
  import opened States

  /** A position at the centre of the screen. */
  const CENTER: Vec3 := Vec3(0.0, 0.0, 0.0)

  /** A position at the bottom of the screen. */
  const BOTTOM: Vec3 := Vec3(0.0, -2.0, 0.0)

  /** The duration of each moving state, in milliseconds. */
  const DURATION: Int64 := 2000

  /** Color.DEPTH, the number of levels per channel. */
  const DEPTH: int := 256

  /** The results of the three RANDOM.nextInt() calls createRandomColor makes, in order. */
  datatype Draws = Draws(red: Int32, green: Int32, blue: Int32)

  /**
   * One channel: `Math.abs(draw) % (DEPTH - 1)`. It lies in 0..DEPTH-2 for every
   * draw but Integer.MIN_VALUE, whose absolute value stays negative.
   */
  function Channel(draw: Int32): (c: int)
    ensures 0 <= c <= DEPTH - 2 <==> draw != MIN_INT
    ensures draw != MIN_INT ==> c == (if draw < 0 then -draw else draw) % (DEPTH - 1)
    ensures draw == MIN_INT ==> c == -128
  {
    Rem(Abs(draw), DEPTH - 1)
  }

  /** createRandomColor: an opaque colour whose channels come from the three draws. */
  function RandomColor(d: Draws): (c: Color)
    ensures c.alpha == DEPTH - 1
    ensures c.red == Channel(d.red) && c.green == Channel(d.green) && c.blue == Channel(d.blue)
  {
    Color(Channel(d.red), Channel(d.green), Channel(d.blue), DEPTH - 1)
  }

  /** createFirstAnimation: an immediate translation by (x, y, 0). */
  function FirstAnimation(x: real, y: real): Animation
  {
    Static(Vec3(x, y, 0.0))
  }

  /** createSecondAnimation: a translation by (x, y, 0) over DURATION ms from `start`. */
  function SecondAnimation(start: Int64, x: real, y: real): Animation
  {
    Dynamic(Translate(Vec3(x, y, 0.0), Linear(start, DURATION)))
  }

  /** createLeftAnimation: jump one unit right, then glide two units left. */
  function LeftAnimation(start: Int64): Animation
  {
    Composite([FirstAnimation(1.0, 0.0), SecondAnimation(start, -2.0, 0.0)])
  }

  /** createRightAnimation: jump one unit left, then glide two units right. */
  function RightAnimation(start: Int64): Animation
  {
    Composite([FirstAnimation(-1.0, 0.0), SecondAnimation(start, 2.0, 0.0)])
  }

  /** The left animation: a static (+1, 0, 0) first, then (-2, 0, 0) over DURATION from `start`. */
  lemma LeftAnimationParts(start: Int64)
    ensures var a := LeftAnimation(start);
      a.Composite? && |a.parts| == 2 && a.parts[0].Static? && a.parts[1].Dynamic? &&
      a.parts[0].translation == Vec3(1.0, 0.0, 0.0) &&
      a.parts[1].transformation == Translate(Vec3(-2.0, 0.0, 0.0), Linear(start, DURATION))
  {
  }

  /** The right animation: a static (-1, 0, 0) first, then (+2, 0, 0) over DURATION from `start`. */
  lemma RightAnimationParts(start: Int64)
    ensures var a := RightAnimation(start);
      a.Composite? && |a.parts| == 2 && a.parts[0].Static? && a.parts[1].Dynamic? &&
      a.parts[0].translation == Vec3(-1.0, 0.0, 0.0) &&
      a.parts[1].transformation == Translate(Vec3(2.0, 0.0, 0.0), Linear(start, DURATION))
  {
  }

  /** createInitial. */
  function CreateInitial(): (s: State)
    ensures s.Initial?
  {
    Initial
  }

  /** createSplash: a "Hello" label at the centre; the frame size is passed through. */
  function CreateSplash(d: Draws, width: Int32, height: Int32): (s: State)
    ensures s.Splash? && s.width == width && s.height == height
    ensures s.caption == NewLabel(CENTER, RandomColor(d), "Hello")
  {
    Splash(NewLabel(CENTER, RandomColor(d), "Hello"), width, height)
  }

  /** createLeft: a box at the centre and a "Left" label at the bottom, in one colour. */
  function CreateLeft(d: Draws, start: Int64, width: Int32, height: Int32): (s: State)
    ensures s.Left? && s.width == width && s.height == height
    ensures s.box.position == CENTER && s.box.animation == LeftAnimation(start)
    ensures s.caption.position == BOTTOM && s.caption.symbols == "Left"
    ensures s.box.color == s.caption.color == RandomColor(d)
  {
    var color := RandomColor(d);
    Left(Box(CENTER, LeftAnimation(start), color), NewLabel(BOTTOM, color, "Left"), width, height)
  }

  /** createRight: a box at the centre and a "Right" label at the bottom, in one colour. */
  function CreateRight(d: Draws, start: Int64, width: Int32, height: Int32): (s: State)
    ensures s.Right? && s.width == width && s.height == height
    ensures s.box.position == CENTER && s.box.animation == RightAnimation(start)
    ensures s.caption.position == BOTTOM && s.caption.symbols == "Right"
    ensures s.box.color == s.caption.color == RandomColor(d)
  {
    var color := RandomColor(d);
    Right(Box(CENTER, RightAnimation(start), color), NewLabel(BOTTOM, color, "Right"), width, height)
  }

  function Negate(v: Vec3): Vec3
  {
    Vec3(-v.x, -v.y, -v.z)
  }

  /** The same animation with every offset negated, the interpolation kept. */
  function Mirror(a: Animation): Animation
    decreases a, 1
  {
    match a
    case Static(v) => Static(Negate(v))
    case Dynamic(Translate(v, i)) => Dynamic(Translate(Negate(v), i))
    case Composite(parts) => Composite(MirrorAll(parts))
  }

  /** Mirror applied to each animation of a composite, in order. */
  function MirrorAll(parts: seq<Animation>): (ms: seq<Animation>)
    ensures |ms| == |parts|
    ensures forall k :: 0 <= k < |parts| ==> ms[k] == Mirror(parts[k])
    decreases parts, 0
  {
    if parts == [] then [] else [Mirror(parts[0])] + MirrorAll(parts[1..])
  }

  /** Mirroring twice gives back the animation. */
  lemma {:induction false} MirrorInvolutive(a: Animation)
    ensures Mirror(Mirror(a)) == a
    decreases a, 1
  {
    match a
    case Static(v) =>
    case Dynamic(t) =>
    case Composite(parts) => MirrorAllInvolutive(parts);
  }

  lemma {:induction false} MirrorAllInvolutive(parts: seq<Animation>)
    ensures MirrorAll(MirrorAll(parts)) == parts
    decreases parts, 0
  {
    if parts != [] {
      var ms := MirrorAll(parts);
      assert ms[0] == Mirror(parts[0]) && ms[1..] == MirrorAll(parts[1..]);
      MirrorInvolutive(parts[0]);
      MirrorAllInvolutive(parts[1..]);
    }
  }

  /** Right's animation is Left's with both offsets negated, over the same interpolation. */
  lemma RightMirrorsLeft(start: Int64)
    ensures RightAnimation(start) == Mirror(LeftAnimation(start))
  {
  }

  /** Left's animation is Right's mirrored: the mirror relation holds both ways. */
  lemma LeftMirrorsRight(start: Int64)
    ensures LeftAnimation(start) == Mirror(RightAnimation(start))
  {
    RightMirrorsLeft(start);
    MirrorInvolutive(LeftAnimation(start));
  }

  /** Every character of every label the factory creates has a glyph in the label's font. */
  lemma LabelsHaveTheirGlyphs(d: Draws, start: Int64, width: Int32, height: Int32)
    ensures var l := CreateSplash(d, width, height).caption; CharsOf(l.symbols) <= l.font.glyphs
    ensures var l := CreateLeft(d, start, width, height).caption; CharsOf(l.symbols) <= l.font.glyphs
    ensures var l := CreateRight(d, start, width, height).caption; CharsOf(l.symbols) <= l.font.glyphs
  {
    GlyphsCoverLabelTexts();
  }

  /** The start time reaches only the box's animation: every other field ignores it. */
  lemma StartOnlyTimesTheAnimation(d: Draws, s1: Int64, s2: Int64, width: Int32, height: Int32)
    ensures var l := CreateLeft(d, s1, width, height);
      Left(Box(l.box.position, LeftAnimation(s2), l.box.color), l.caption, l.width, l.height)
        == CreateLeft(d, s2, width, height)
    ensures var r := CreateRight(d, s1, width, height);
      Right(Box(r.box.position, RightAnimation(s2), r.box.color), r.caption, r.width, r.height)
        == CreateRight(d, s2, width, height)
  {
  }
}
