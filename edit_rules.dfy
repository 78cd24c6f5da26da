/** How one press changes the value being edited on a settings screen.

    Timers are whole seconds.  The Current and Temp screens of main.py hold
    JSON values: integers, floats and strings.  A float is kept here in
    thousandths (every float the firmware writes or steps by is a whole
    number of thousandths), so 3.3 is Milli(3300). */
module EditRules {
  import opened Wrappers

  /** The largest value the wrapping timer editors show. */
  const TimerMax := 999

  /** `Next` on the timers screen of main.py and `Up` in r0.5: one more,
      back to 0 past 999. */
  function WrapUp(v: int): (r: int)
    ensures 0 <= v <= TimerMax ==> 0 <= r <= TimerMax && r == (v + 1) % (TimerMax + 1)
    ensures v >= TimerMax ==> r == 0
  {
    if v + 1 > TimerMax then 0 else v + 1
  }

  /** `Previous` on the timers screen of main.py and `Down` in r0.5: one
      less, up to 999 below 0. */
  function WrapDown(v: int): (r: int)
    ensures 0 <= v <= TimerMax ==> 0 <= r <= TimerMax && r == (v - 1) % (TimerMax + 1)
    ensures v <= 0 ==> r == TimerMax
  {
    if v - 1 < 0 then TimerMax else v - 1
  }

  /** On 0..999 the two wrapping steps undo each other. */
  lemma WrapInverse(v: int)
    requires 0 <= v <= TimerMax
    ensures WrapDown(WrapUp(v)) == v
    ensures WrapUp(WrapDown(v)) == v
  {
  }

  /** `Down` in v0.1: one less, and floored at 0 (from 0 or below it gives 0). */
  function FloorDown(v: int): (r: int)
    ensures r >= 0
    ensures v >= 1 ==> r == v - 1
    ensures v <= 1 ==> r == 0
  {
    if v - 1 <= 0 then 0 else v - 1
  }

  /** `Up` in v0.1 has no bound, and Down brings a non-negative value back. */
  lemma FloorDownUndoesUp(v: int)
    requires v >= 0
    ensures FloorDown(v + 1) == v
  {
  }

  /** A JSON value of the Current and Temp groups. */
  datatype Value = Num(n: int) | Milli(m: int) | Text(s: string)

  /** The amount of a number, in thousandths. */
  function Amount(v: Value): int
    requires !v.Text?
  {
    if v.Num? then 1000 * v.n else v.m
  }

  /** Which of main.py's group screens is open. */
  datatype Screen = CurrentScreen | TempScreen

  const Active := Text("Active")
  const Inactive := Text("Inactive")

  /** The Status toggle: Inactive becomes Active, anything else Inactive. */
  function Toggle(v: Value): (r: Value)
    ensures r == Active || r == Inactive
    ensures v == Active ==> r == Inactive
    ensures v == Inactive ==> r == Active
  {
    if v == Inactive then Active else Inactive
  }

  /** Toggling twice gives back a status that was Active or Inactive. */
  lemma ToggleTwice(v: Value)
    requires v == Active || v == Inactive
    ensures Toggle(Toggle(v)) == v
  {
  }

  /** The keys edited as integers: Factor on both screens, N_lectures on
      the Current screen. */
  predicate IntKey(screen: Screen, key: string) {
    key == "Factor" || (screen == CurrentScreen && key == "N_lectures")
  }

  /** The keys edited as floats. */
  predicate FloatKey(key: string) {
    key == "V_max" || key == "V0_ref"
  }

  /** The step of a float key in thousandths: 0.001 on Current, 0.01 on Temp. */
  function FloatStep(screen: Screen): nat {
    if screen == CurrentScreen then 1 else 10
  }

  /** `value += 1` on an integer key; a string raises TypeError. */
  function AddOne(v: Value): (r: Option<Value>)
    ensures r.None? <==> v.Text?
    ensures r.Some? ==> r.value.Num? == v.Num? && !r.value.Text? && Amount(r.value) == Amount(v) + 1000
  {
    match v
    case Num(n) => Some(Num(n + 1))
    case Milli(m) => Some(Milli(m + 1000))
    case Text(_) => None
  }

  /** `value -= 1 if int(value) >= 1 else 0`; a string raises. */
  function SubOneFloored(v: Value): (r: Option<Value>)
    ensures r.None? <==> v.Text?
    ensures r.Some? ==> r.value.Num? == v.Num? && !r.value.Text?
    ensures r.Some? ==> Amount(r.value) == if Amount(v) >= 1000 then Amount(v) - 1000 else Amount(v)
  {
    match v
    case Num(n) => Some(if n >= 1 then Num(n - 1) else v)
    case Milli(m) => Some(if m >= 1000 then Milli(m - 1000) else v)
    case Text(_) => None
  }

  /** `value += step` on a float key: the result is a float. */
  function AddStep(v: Value, step: nat): (r: Option<Value>)
    ensures r.None? <==> v.Text?
    ensures r.Some? ==> r.value.Milli? && Amount(r.value) == Amount(v) + step
  {
    match v
    case Num(n) => Some(Milli(1000 * n + step))
    case Milli(m) => Some(Milli(m + step))
    case Text(_) => None
  }

  /** `value -= step if float(value) >= step else 0`. */
  function SubStepFloored(v: Value, step: nat): (r: Option<Value>)
    ensures r.None? <==> v.Text?
    ensures r.Some? ==> !r.value.Text? && Amount(r.value) == if Amount(v) >= step then Amount(v) - step else Amount(v)
  {
    match v
    case Num(n) => Some(if 1000 * n >= step then Milli(1000 * n - step) else v)
    case Milli(m) => Some(if m >= step then Milli(m - step) else v)
    case Text(_) => None
  }

  /** One Up (`up`) or Down press on the Current or Temp screen of main.py.
      None is the TypeError or ValueError of stepping a string.  Status
      toggles whichever the press; a number steps by one unit (1, or 0.001
      on Current and 0.01 on Temp for the floats) and Down never takes a
      non-negative number below 0; any other key keeps its value. */
  function Edit(screen: Screen, key: string, v: Value, up: bool): (r: Option<Value>)
    ensures key == "Status" ==> r == Some(Toggle(v))
    ensures key != "Status" && !IntKey(screen, key) && !FloatKey(key) ==> r == Some(v)
    ensures r.None? <==> key != "Status" && (IntKey(screen, key) || FloatKey(key)) && v.Text?
    ensures key != "Status" && !v.Text? ==> r.Some? && !r.value.Text?
    ensures key != "Status" && !v.Text? && Amount(v) >= 0 ==> Amount(r.value) >= 0
  {
    if key == "Status" then Some(Toggle(v))
    else if IntKey(screen, key) then (if up then AddOne(v) else SubOneFloored(v))
    else if FloatKey(key) then (if up then AddStep(v, FloatStep(screen)) else SubStepFloored(v, FloatStep(screen)))
    else Some(v)
  }

  /** The size of one step of a numeric key, in thousandths. */
  function Unit(screen: Screen, key: string): nat {
    if IntKey(screen, key) then 1000 else if FloatKey(key) then FloatStep(screen) else 0
  }

  /** On a number, Up adds one unit, and Down takes one off when the number
      is at least one unit and leaves it otherwise. */
  lemma EditSteps(screen: Screen, key: string, v: Value)
    requires key != "Status" && !v.Text?
    ensures Amount(Edit(screen, key, v, true).value) == Amount(v) + Unit(screen, key)
    ensures Amount(Edit(screen, key, v, false).value) ==
      if Amount(v) >= Unit(screen, key) then Amount(v) - Unit(screen, key) else Amount(v)
  {
  }

  /** Down undoes Up on a non-negative number (as an amount: an integer
      stepped on a float key comes back as a float). */
  lemma EditInverse(screen: Screen, key: string, v: Value)
    requires key != "Status" && !v.Text? && Amount(v) >= 0
    ensures Amount(Edit(screen, key, Edit(screen, key, v, true).value, false).value) == Amount(v)
  {
    EditSteps(screen, key, v);
    EditSteps(screen, key, Edit(screen, key, v, true).value);
  }
}
