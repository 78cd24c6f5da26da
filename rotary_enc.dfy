/** Half-step quadrature decoder of the rotary encoder (lib/rotary_enc.py).
    The decoder state is a byte: the low three bits select a row of the
    transition table, bits 4 and 5 flag a completed clockwise or
    counter-clockwise step. */
module RotaryEnc {
  import opened Wrappers

  const DirCw: bv8 := 0x10
  const DirCcw: bv8 := 0x20

  const RStart: bv8 := 0x0
  const RCw1: bv8 := 0x1
  const RCw2: bv8 := 0x2
  const RCw3: bv8 := 0x3
  const RCcw1: bv8 := 0x4
  const RCcw2: bv8 := 0x5

  const StateMask: bv8 := 0x07
  const DirMask: bv8 := 0x30

  /** Number of rows of the half-step table. */
  const Rows := 6

  /** A digital pin level as returned by Pin.value(). */
  type Bit = b: int | 0 <= b <= 1

  /** The half-step transition table, one row per decoder state and one
      column per two-bit sample CLK/DT = 00, 01, 10, 11. */
  const HalfStepTable: seq<seq<bv8>> := [
    [RCw3,          RCw2,  RCw1,  RStart],
    [RCw3 | DirCcw, RStart, RCw1,  RStart],
    [RCw3 | DirCw,  RCw2,  RStart, RStart],
    [RCw3,          RCcw2, RCcw1, RStart],
    [RCw3,          RCw2,  RCcw1, RStart | DirCw],
    [RCw3,          RCcw2, RCw3,  RStart | DirCcw]]

  /** The table column for a sample: (clk << 1) | dt. */
  function Column(clk: Bit, dt: Bit): (c: bv8)
    ensures c <= 3
    ensures c as int == 2 * clk + dt
  {
    ((clk as bv8) << 1) | (dt as bv8)
  }

  /** A state whose masked row index is a row of the table. */
  predicate InTable(s: bv8) {
    (s & StateMask) as int < Rows
  }

  /** The row lookup `table[state & 0x07][column]`.  A row index of 6 or 7
      would be an IndexError in the source: None. */
  function Lookup(s: bv8, col: bv8): (r: Option<bv8>)
    requires col <= 3
    ensures r.Some? <==> InTable(s)
  {
    var row := (s & StateMask) as int;
    if row < |HalfStepTable| then Some(HalfStepTable[row][col]) else None
  }

  /** Every entry of the table names a row of the table again, so a decoder
      that starts in a row never reaches the IndexError of Lookup. */
  lemma {:induction false} TableClosed(s: bv8, col: bv8)
    requires InTable(s) && col <= 3
    ensures Lookup(s, col).Some? && InTable(Lookup(s, col).value)
  {
    var row := s & StateMask;
    assert row == 0 || row == 1 || row == 2 || row == 3 || row == 4 || row == 5;
    assert col == 0 || col == 1 || col == 2 || col == 3;
  }

  /** The decoder step on a state known to be in the table. */
  function Next(s: bv8, col: bv8): (r: bv8)
    requires InTable(s) && col <= 3
    ensures InTable(r)
    ensures Lookup(s, col) == Some(r)
  {
    TableClosed(s, col);
    Lookup(s, col).value
  }

  /** The increment that `value()` returns for the state it has just entered. */
  function Increment(s: bv8): (incr: int)
    ensures incr == -1 || incr == 0 || incr == 1
    ensures incr == 1 <==> s & DirMask == DirCw
    ensures incr == -1 <==> s & DirMask == DirCcw
  {
    var direction := s & DirMask;
    if direction == DirCw then 1
    else if direction == DirCcw then -1
    else 0
  }

  /** Exactly four transitions of the table emit a direction: leaving CW_1
      or CW_2 on 00, and leaving CCW_1 or CCW_2 on 11. */
  lemma {:induction false} DirectionalTransitions(row: bv8, col: bv8)
    requires row < 6 && col <= 3
    ensures Increment(Next(row, col)) == 1 <==> (row == RCw2 && col == 0) || (row == RCcw1 && col == 3)
    ensures Increment(Next(row, col)) == -1 <==> (row == RCw1 && col == 0) || (row == RCcw2 && col == 3)
  {
    assert row & StateMask == row;
    assert row == 0 || row == 1 || row == 2 || row == 3 || row == 4 || row == 5;
    assert col == 0 || col == 1 || col == 2 || col == 3;
  }

  /** The increments emitted by a sequence of samples, starting in state s. */
  function Run(s: bv8, cols: seq<bv8>): (out: seq<int>)
    requires InTable(s)
    requires forall i :: 0 <= i < |cols| ==> cols[i] <= 3
    ensures |out| == |cols|
    ensures forall i :: 0 <= i < |out| ==> -1 <= out[i] <= 1
    decreases |cols|
  {
    if cols == [] then []
    else
      var t := Next(s, cols[0]);
      [Increment(t)] + Run(t, cols[1..])
  }

  /** The state reached after a sequence of samples; it is always a row of the table. */
  function Final(s: bv8, cols: seq<bv8>): (r: bv8)
    requires InTable(s)
    requires forall i :: 0 <= i < |cols| ==> cols[i] <= 3
    ensures InTable(r)
    decreases |cols|
  {
    if cols == [] then s else Final(Next(s, cols[0]), cols[1..])
  }

  /** From START, 01 then 00 gives 0 then +1, and 10 then 00 gives 0 then -1. */
  lemma HalfDetentsFromStart()
    ensures Run(RStart, [1, 0]) == [0, 1]
    ensures Run(RStart, [2, 0]) == [0, -1]
  {
    assert Next(RStart, 1) == RCw2 && Next(RCw2, 0) == RCw3 | DirCw;
    assert Next(RStart, 2) == RCw1 && Next(RCw1, 0) == RCw3 | DirCcw;
  }

  /** From CW_3 (both lines low), 10 then 11 gives 0 then +1, and 01 then 11
      gives 0 then -1; both end back in START. */
  lemma HalfDetentsFromCw3()
    ensures Run(RCw3, [2, 3]) == [0, 1] && Final(RCw3, [2, 3]) == RStart | DirCw
    ensures Run(RCw3, [1, 3]) == [0, -1] && Final(RCw3, [1, 3]) == RStart | DirCcw
  {
    assert Next(RCw3, 2) == RCcw1 && Next(RCcw1, 3) == RStart | DirCw;
    assert Next(RCw3, 1) == RCcw2 && Next(RCcw2, 3) == RStart | DirCcw;
  }

  /** Bounce rejection: from START, 01 then 11, or 10 then 11, returns to
      START without a direction, and 11 keeps START. */
  lemma BounceRejected()
    ensures Run(RStart, [1, 3]) == [0, 0] && Final(RStart, [1, 3]) == RStart
    ensures Run(RStart, [2, 3]) == [0, 0] && Final(RStart, [2, 3]) == RStart
    ensures Run(RStart, [3]) == [0] && Final(RStart, [3]) == RStart
  {
    assert Next(RStart, 1) == RCw2 && Next(RCw2, 3) == RStart;
    assert Next(RStart, 2) == RCw1 && Next(RCw1, 3) == RStart;
    assert Next(RStart, 3) == RStart;
  }

  /** A full electrical cycle each way emits two steps of one sign, one per half detent. */
  lemma FullCycles()
    ensures Run(RStart, [1, 0, 2, 3]) == [0, 1, 0, 1]
    ensures Run(RStart, [2, 0, 1, 3]) == [0, -1, 0, -1]
  {
    assert Next(RStart, 1) == RCw2 && Next(RCw2, 0) == RCw3 | DirCw;
    assert Next(RCw3 | DirCw, 2) == RCcw1 && Next(RCcw1, 3) == RStart | DirCw;
    assert Next(RStart, 2) == RCw1 && Next(RCw1, 0) == RCw3 | DirCcw;
    assert Next(RCw3 | DirCcw, 1) == RCcw2 && Next(RCcw2, 3) == RStart | DirCcw;
  }

  /** The encoder object: the decoder state, the value that `reset` clears
      and the last reading of the push switch.  The pins are parameters. */
  class Rotary {
    var state: bv8
    var value: int
    var selected: bool

    /** The decoder state always selects a row of the table. */
    ghost predicate Valid()
      reads this
    {
      InTable(state)
    }

    constructor ()
      ensures Valid()
      ensures state == RStart && value == 0 && !selected
    {
      state := RStart;
      value := 0;
      selected := false;
    }

    /** `reset` clears the stored value and nothing else. */
    method Reset()
      modifies this`value
      ensures value == 0
    {
      value := 0;
    }

    /** `select` records whether the switch pin reads high and returns it. */
    method Select(sw: Bit) returns (r: bool)
      modifies this`selected
      ensures selected == (sw != 0) && r == selected
    {
      selected := sw != 0;
      r := selected;
    }

    /** `value` takes one sample of both lines, steps the table and returns
        +1, -1 or 0 for the direction flag of the new state. */
    method Value(clk: Bit, dt: Bit) returns (incr: int)
      requires Valid()
      modifies this`state
      ensures Valid()
      ensures Lookup(old(state), Column(clk, dt)) == Some(state)
      ensures incr == Increment(state)
      ensures incr == 1 <==> state & DirMask == DirCw
      ensures incr == -1 <==> state & DirMask == DirCcw
      ensures incr == 0 <==> state & DirMask != DirCw && state & DirMask != DirCcw
    {
      var col := Column(clk, dt);
      state := Next(state, col);
      var direction := state & DirMask;
      incr := 0;
      if direction == DirCw {
        incr := 1;
      } else if direction == DirCcw {
        incr := -1;
      }
    }
  }
}
