/**
 * The application's state machine as the engine drives it: every event goes
 * to the current state's update, whose result replaces it; a renderable state
 * is drawn and a schedulable state's action is registered.
 */
module StateMachine {
  import opened JavaInt
  import opened Engine
  import opened Frames
  import opened States
  import opened StateFactory
  import InitialState
  import SplashState
  import MovingState
  import RightState

  datatype Option<T> = None | Some(value: T)

  /** The four state classes. */
  datatype Kind = InitialKind | SplashKind | LeftKind | RightKind

  function KindOf(s: State): Kind
  {
    match s
    case Initial => InitialKind
    case Splash(_, _, _) => SplashKind
    case Left(_, _, _, _) => LeftKind
    case Right(_, _, _, _) => RightKind
  }

  /**
   * The transition table: the kind of state an event leads to, or None where
   * the state returns itself. Left's row is ASSUMED to mirror Right's.
   */
  function Table(k: Kind, e: Event): (r: Option<Kind>)
    ensures r.Some? ==> r.value != InitialKind
    ensures k != InitialKind && e.ViewEvent? ==> r.None?
  {
    match k
    case InitialKind => if e.ViewEvent? then Some(SplashKind) else None
    case SplashKind => if e.ActionEvent? && e.name == "Start" then Some(LeftKind) else None
    case LeftKind =>
      if e.TouchEvent? && e.input == Up then Some(LeftKind)
      else if e.AnimationEvent? then Some(RightKind)
      else None
    case RightKind =>
      if e.TouchEvent? && e.input == Up then Some(RightKind)
      else if e.AnimationEvent? then Some(LeftKind)
      else None
  }

  /**
   * LeftState's update. LeftState.java is not part of this model: this rule is
   * ASSUMED to mirror RightState's:
   * Touch UP restarts Left, any animation event flips to Right.
   */
  function LeftUpdate(s: State, e: Event, d: Draws): (r: State)
    requires s.Left?
    ensures e.TouchEvent? && e.input == Up ==> r == CreateLeft(d, e.time, s.width, s.height)
    ensures e.AnimationEvent? ==> r == CreateRight(d, e.time, s.width, s.height)
    ensures !(e.TouchEvent? && e.input == Up) && !e.AnimationEvent? ==> r == s
  {
    if e.TouchEvent? && e.input == Up then
      CreateLeft(d, e.time, MovingState.GetWidth(s), MovingState.GetHeight(s))
    else if e.AnimationEvent? then
      CreateRight(d, e.time, MovingState.GetWidth(s), MovingState.GetHeight(s))
    else
      s
  }

  /**
   * Updatable.update, dispatched on the state's class. An event the state does
   * not handle returns the state itself; a handled one yields a fresh state of
   * the kind the table names, of the same frame size unless it leaves Initial.
   */
  function Update(s: State, e: Event, d: Draws): (r: State)
    ensures Table(KindOf(s), e).None? ==> r == s
    ensures Table(KindOf(s), e).Some? ==> KindOf(r) == Table(KindOf(s), e).value
    ensures !s.Initial? ==> !r.Initial? && r.width == s.width && r.height == s.height
    ensures s.Initial? && e.ViewEvent? ==> r.width == e.width && r.height == e.height
  {
    match s
    case Initial => InitialState.Update(e, d)
    case Splash(_, _, _) => SplashState.Update(s, e, d)
    case Left(_, _, _, _) => LeftUpdate(s, e, d)
    case Right(_, _, _, _) => RightState.Update(s, e, d)
  }

  /** Renderable.render, where the state is renderable: every state but Initial. */
  function Render(s: State): (f: Option<Frame>)
    ensures f.None? <==> s.Initial?
    ensures f.Some? ==> f.value.width == s.width && f.value.height == s.height
    ensures f.Some? ==> (f.value.refresh.Every? <==> !s.Splash?)
  {
    match s
    case Initial => None
    case Splash(_, _, _) => Some(SplashState.Render(s))
    case Left(_, _, _, _) => Some(MovingState.Render(s))
    case Right(_, _, _, _) => Some(MovingState.Render(s))
  }

  /** Schedulable.schedule, where the state is schedulable: only Splash. */
  function Schedule(s: State, now: Int64): (a: Option<Action>)
    ensures a.Some? <==> s.Splash?
    ensures a.Some? ==> a.value.name == SplashState.ACTION
  {
    if s.Splash? then Some(SplashState.Schedule(now)) else None
  }

  /** One delivered event, with the random draws any state it creates consumes. */
  datatype Step = Step(event: Event, draws: Draws)

  /** The state after delivering the events one at a time. */
  function Run(s: State, steps: seq<Step>): State
    decreases |steps|
  {
    if steps == [] then s else Run(Update(s, steps[0].event, steps[0].draws), steps[1..])
  }

  /** The size of the first view event, if any. */
  function FirstView(steps: seq<Step>): Option<(Int32, Int32)>
    decreases |steps|
  {
    if steps == [] then None
    else if steps[0].event.ViewEvent? then Some((steps[0].event.width, steps[0].event.height))
    else FirstView(steps[1..])
  }

  /** Once out of Initial the machine never returns to it, and the frame size never changes. */
  lemma {:induction false} RunKeepsSize(s: State, steps: seq<Step>)
    requires !s.Initial?
    ensures !Run(s, steps).Initial?
    ensures Run(s, steps).width == s.width && Run(s, steps).height == s.height
    decreases |steps|
  {
    if steps != [] {
      RunKeepsSize(Update(s, steps[0].event, steps[0].draws), steps[1..]);
    }
  }

  /** From Initial, the machine leaves Initial exactly when a view event arrives, and takes its size. */
  lemma {:induction false} RunFromInitial(steps: seq<Step>)
    ensures Run(Initial, steps).Initial? <==> FirstView(steps).None?
    ensures FirstView(steps).Some? ==>
      Run(Initial, steps).width == FirstView(steps).value.0 &&
      Run(Initial, steps).height == FirstView(steps).value.1
    decreases |steps|
  {
    if steps != [] {
      var next := Update(Initial, steps[0].event, steps[0].draws);
      if steps[0].event.ViewEvent? {
        RunKeepsSize(next, steps[1..]);
      } else {
        RunFromInitial(steps[1..]);
      }
    }
  }

  /** Two animation events from Right come back to a Right started at the second event. */
  lemma Oscillation(s: State, t1: Int64, t2: Int64, d1: Draws, d2: Draws)
    requires s.Right?
    ensures Update(s, AnimationEvent(t1), d1) == CreateLeft(d1, t1, s.width, s.height)
    ensures Update(Update(s, AnimationEvent(t1), d1), AnimationEvent(t2), d2) == CreateRight(d2, t2, s.width, s.height)
  {
  }

  /**
   * From Initial, a view event, then the splash screen's own scheduled action,
   * reach a Left state drawn every 16 ms with the box and the label.
   */
  lemma StartUp(w: Int32, h: Int32, now: Int64, t: Int64, d1: Draws, d2: Draws)
    ensures var splash := Update(Initial, ViewEvent(w, h), d1);
      splash.Splash? && Schedule(splash, now).Some? &&
      var left := Update(splash, ActionEvent(Schedule(splash, now).value.name, t), d2);
      left == CreateLeft(d2, t, w, h) &&
      Render(left).Some? && Render(left).value.refresh == Every(16) &&
      Render(left).value.scenes[0].batches == [BoxBatch(left.box), LabelBatch(left.caption)]
  {
  }

  /** The two copies of createCamera build the same camera for the same frame size. */
  lemma CamerasAgree(width: Int32, height: Int32)
    ensures MovingState.CreateCamera(width, height) == SplashState.CreateCamera(width, height)
  {
  }
}
