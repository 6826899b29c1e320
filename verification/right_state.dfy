/**
 * RightState: the box glides right. A released touch restarts the glide;
 * the engine's animation event turns the box back to the left.
 */
module RightState {
  import opened Engine
  import opened States
  import opened StateFactory
  import opened MovingState

  /** update: Touch UP restarts Right, any animation event flips to Left, both at the event's time. */
  function Update(s: State, e: Event, d: Draws): (r: State)
    requires s.Right?
    ensures e.TouchEvent? && e.input == Up ==> r == CreateRight(d, e.time, GetWidth(s), GetHeight(s))
    ensures e.AnimationEvent? ==> r == CreateLeft(d, e.time, GetWidth(s), GetHeight(s))
    ensures !(e.TouchEvent? && e.input == Up) && !e.AnimationEvent? ==> r == s
  {
    if e.TouchEvent? && e.input == Up then
      CreateRight(d, e.time, GetWidth(s), GetHeight(s))
    else if e.AnimationEvent? then
      CreateLeft(d, e.time, GetWidth(s), GetHeight(s))
    else
      s
  }

  /** Every transition out of Right keeps the frame size and stays a moving state. */
  lemma UpdateKeepsSize(s: State, e: Event, d: Draws)
    requires s.Right?
    ensures IsMoving(Update(s, e, d))
    ensures GetWidth(Update(s, e, d)) == s.width && GetHeight(Update(s, e, d)) == s.height
  {
  }
}
