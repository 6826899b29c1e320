/**
 * MovingState, the common part of Left and Right: a box and a label redrawn
 * at about 60 frames per second.
 */
module MovingState {
  import opened JavaInt
  import opened Engine
  import opened Boxes
  import opened Labels
  import opened Frames
  import opened States
  import opened StateFactory

  /** The background colour of the frame. */
  const BACKGROUND: Color := Color(0, 0, 0, 255)

  /** The refresh interval, `1000L / 60L` in Java's truncating long division. */
  const INTERVAL: int := Quot(1000, 60)

  /** A Left or Right state. */
  predicate IsMoving(s: State)
  {
    s.Left? || s.Right?
  }

  /** getWidth. */
  function GetWidth(s: State): Int32
    requires IsMoving(s)
  {
    s.width
  }

  /** getHeight. */
  function GetHeight(s: State): Int32
    requires IsMoving(s)
  {
    s.height
  }

  /** createCamera: the same fixed camera as the splash screen's, written out again. */
  function CreateCamera(width: Int32, height: Int32): (c: Camera)
    ensures c.view == LookAt(Vec3(0.0, 0.0, 5.0), Vec3(0.0, 0.0, 0.0), Vec3(0.0, 1.0, 0.0))
    ensures c.projection.bottom == -c.projection.top == -3.0
    ensures c.projection.near == 0.0 && c.projection.far == 6.0
    ensures c.projection.halfWidth == Aspect(3.0, width, height)
  {
    var h := 3.0;
    StaticCamera(
      Orthographic(Aspect(h, width, height), -h, h, 0.0, 6.0),
      LookAt(Vec3(0.0, 0.0, 5.0), Vec3(0.0, 0.0, 0.0), Vec3(0.0, 1.0, 0.0)))
  }

  /** createBatches: the box first, then the label. */
  function CreateBatches(box: Box, caption: Label): (bs: seq<Batch>)
    ensures |bs| == 2
    ensures bs[0].BoxBatch? && bs[0].box == box
    ensures bs[1].LabelBatch? && bs[1].caption == caption
  {
    [BoxBatch(box), LabelBatch(caption)]
  }

  /** createScenes: one scene seen through the camera for the frame size. */
  function CreateScenes(box: Box, caption: Label, width: Int32, height: Int32): (ss: seq<Scene>)
    ensures |ss| == 1 && ss[0].camera == CreateCamera(width, height)
    ensures ss[0].batches == CreateBatches(box, caption)
  {
    [Scene(CreateCamera(width, height), CreateBatches(box, caption))]
  }

  /** render: a frame on black, of the state's size, redrawn every 16 ms, box then label. */
  function Render(s: State): (f: Frame)
    requires IsMoving(s)
    ensures f.refresh == Every(16)
    ensures f.background == BACKGROUND && f.width == s.width && f.height == s.height
    ensures |f.scenes| == 1 && f.scenes[0].batches == [BoxBatch(s.box), LabelBatch(s.caption)]
  {
    Frame(CreateScenes(s.box, s.caption, GetWidth(s), GetHeight(s)), BACKGROUND, GetWidth(s), GetHeight(s), Every(INTERVAL))
  }

  /** getWidth and getHeight return what createLeft and createRight were given. */
  lemma SizeAsCreated(d: Draws, start: Int64, width: Int32, height: Int32)
    ensures GetWidth(CreateLeft(d, start, width, height)) == width
    ensures GetHeight(CreateLeft(d, start, width, height)) == height
    ensures GetWidth(CreateRight(d, start, width, height)) == width
    ensures GetHeight(CreateRight(d, start, width, height)) == height
  {
  }
}
