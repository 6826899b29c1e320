/** InitialState: waits for the view to be sized, then shows the splash screen. */
module InitialState {
  import opened Engine
  import opened States
  import opened StateFactory

  /**
   * update: a view event moves to a Splash of the view's size, taken as given
   * (a zero height is accepted); any other event leaves the field-less Initial.
   */
  function Update(e: Event, d: Draws): (r: State)
    ensures r.Splash? <==> e.ViewEvent?
    ensures e.ViewEvent? ==> r == CreateSplash(d, e.width, e.height)
    ensures !e.ViewEvent? ==> r == Initial
  {
    if e.ViewEvent? then CreateSplash(d, e.width, e.height) else Initial
  }

  /** Initial has no fields, so there is exactly one Initial value. */
  lemma InitialIsUnique(s: State)
    ensures s.Initial? <==> s == CreateInitial()
  {
  }
}
