/** The header bar: the greeting by hour and which of its buttons are shown. */
module Header {

  const Morning := "Good morning"
  const Afternoon := "Good afternoon"
  const Evening := "Good evening"

  /** The greeting for the current hour (`getHours`, which is 0..23 in practice). */
  function Greeting(hour: int): (g: string)
    ensures hour < 12 ==> g == Morning
    ensures 12 <= hour < 18 ==> g == Afternoon
    ensures 18 <= hour ==> g == Evening
  {
    if hour < 12 then Morning
    else if hour < 18 then Afternoon
    else Evening
  }

  /** The position of a greeting in the day. */
  function Phase(g: string): nat {
    if g == Morning then 0 else if g == Afternoon then 1 else 2
  }

  /** Over a day the greeting is always one of the three, and never steps back. */
  lemma GreetingNeverGoesBack(h1: int, h2: int)
    requires 0 <= h1 <= h2 < 24
    ensures Greeting(h1) in {Morning, Afternoon, Evening}
    ensures Phase(Greeting(h1)) <= Phase(Greeting(h2))
  {
  }

  /** Which optional header buttons are rendered. */
  datatype HeaderButtons = HeaderButtons(editToggle: bool, lock: bool, reload: bool)

  /**
   * The Edit/Done toggle is rendered when there are user shortcuts; the lock
   * and reload buttons when the corresponding callback is supplied.
   */
  function Buttons(hasCustomApps: bool, lockSupplied: bool, reloadSupplied: bool): (b: HeaderButtons)
    ensures b.editToggle <==> hasCustomApps
    ensures b.lock <==> lockSupplied
    ensures b.reload <==> reloadSupplied
  {
    HeaderButtons(hasCustomApps, lockSupplied, reloadSupplied)
  }
}
