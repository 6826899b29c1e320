/**
 * SplashState: shows a "Hello" label and asks to be woken two seconds later by
 * an action named "Start", which moves the machine to the Left state.
 */
module SplashState {
  import opened JavaInt
  import opened Engine
  import opened Labels
  import opened Frames
  import opened States
  import opened StateFactory

  /** The background colour of the frame. */
  const BACKGROUND: Color := Color(0, 0, 0, 255)

  /** The name of the action that moves this state on. */
  const ACTION: string := "Start"

  /** The delay before that action fires, in milliseconds. */
  const DELAY: Int64 := 2000

  /** update: only an action event named "Start" moves on, to Left started at the event's time. */
  function Update(s: State, e: Event, d: Draws): (r: State)
    requires s.Splash?
    ensures r.Left? <==> e.ActionEvent? && e.name == ACTION
    ensures r.Left? ==> r == CreateLeft(d, e.time, s.width, s.height)
    ensures !r.Left? ==> r == s
  {
    if e.ActionEvent? && e.name == ACTION then CreateLeft(d, e.time, s.width, s.height) else s
  }

  /**
   * schedule: the "Start" action, due DELAY ms after `now` (the clock read).
   * The long addition wraps, so a clock within DELAY of Long.MAX_VALUE yields a past time.
   */
  function Schedule(now: Int64): (a: Action)
    ensures a.name == ACTION
    ensures a.time == now + DELAY <==> now <= MAX_LONG - DELAY
    ensures now > MAX_LONG - DELAY ==> a.time < now
  {
    Delayed(ACTION, AddLong(now, DELAY))
  }

  /** createCamera: eye (0, 0, 5) looking at the origin, y in [-3, 3], z in [0, 6]. */
  function CreateCamera(width: Int32, height: Int32): (c: Camera)
    ensures c.view == LookAt(Vec3(0.0, 0.0, 5.0), Vec3(0.0, 0.0, 0.0), Vec3(0.0, 1.0, 0.0))
    ensures c.projection.bottom == -c.projection.top == -3.0
    ensures c.projection.near == 0.0 && c.projection.far == 6.0
    ensures c.projection.halfWidth == Aspect(3.0, width, height)
  {
    var h := 3.0;
    StaticCamera(
      Orthographic(Aspect(h, width, height), -h, h, 0.0, 6.0),
      LookAt(Vec3(0.0, 0.0, 5.0), Vec3(0.0, 0.0, 0.0), Vec3(0.0, 1.0, 0.0)))
  }

  /** createBatches: the label alone. */
  function CreateBatches(caption: Label): (bs: seq<Batch>)
    ensures |bs| == 1 && bs[0].LabelBatch? && bs[0].caption == caption
  {
    [LabelBatch(caption)]
  }

  /** createScenes: one scene seen through the camera for the frame size. */
  function CreateScenes(caption: Label, width: Int32, height: Int32): (ss: seq<Scene>)
    ensures |ss| == 1 && ss[0].camera == CreateCamera(width, height) && ss[0].batches == CreateBatches(caption)
  {
    [Scene(CreateCamera(width, height), CreateBatches(caption))]
  }

  /** render: a one-shot frame on black, of the state's size, showing only the label. */
  function Render(s: State): (f: Frame)
    requires s.Splash?
    ensures f.refresh == OneShot
    ensures f.background == BACKGROUND && f.width == s.width && f.height == s.height
    ensures |f.scenes| == 1 && f.scenes[0].batches == [LabelBatch(s.caption)]
  {
    Frame(CreateScenes(s.caption, s.width, s.height), BACKGROUND, s.width, s.height, OneShot)
  }

  /** Handing the scheduled action's name back as an action event always moves on to Left. */
  lemma ScheduleRoundTrip(s: State, now: Int64, time: Int64, d: Draws)
    requires s.Splash?
    ensures Update(s, ActionEvent(Schedule(now).name, time), d) == CreateLeft(d, time, s.width, s.height)
  {
  }
}
