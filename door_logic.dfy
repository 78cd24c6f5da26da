/** The pure part of `Logic_loop`, shared by the three firmware revisions:
    main.py (version 7.1), pico/harmonie_r0.5.py (version 0.5) and
    pico/main.py (version 0.1).  One pass of the loop moves the door state
    on the confirmed reads of the buttons and limit switches:

      0 idle, 1 closed (waiting on the close limit), 2 open before the
      mid-stop (waiting on the open limit), 3 at the mid-stop, 4 open after
      the mid-stop.  Any other value is an error state that never changes. */
module DoorLogic {
  import opened Inputs

  /** Which firmware file the controller follows. */
  datatype Revision =
    | V01  // pico/main.py: raw pin reads, always takes the mid-stop, no debounce in the handler
    | R05  // pico/harmonie_r0.5.py
    | V71  // main.py

  /** The confirmed reads one pass may look at. */
  datatype Reads = Reads(close: bool, open: bool, closeLmt: bool, openLmt: bool)

  /** One pass of `Logic_loop`: the next state from the current one, the
      reads and Timers['Mid'].  A pass only looks at the reads its state
      needs.  The states 0..4 are closed under a pass, and any other state
      is fixed. */
  function NextState(rev: Revision, s: int, r: Reads, mid: int): (n: int)
    ensures 0 <= s <= 4 ==> 0 <= n <= 4
    ensures !(0 <= s <= 4) ==> n == s
  {
    if s == 0 then (if r.close then 1 else if r.open then 2 else 0)
    else if s == 1 then (if r.closeLmt then 2 else 1)
    else if s == 2 then (if !r.openLmt then 2 else if rev != V01 && mid == 0 then 1 else 3)
    else if s == 3 then 4
    else if s == 4 then (if r.openLmt then 1 else 4)
    else s
  }

  /** Whether the pass in state s runs its countdown (states 1..4) and pulses a motor output. */
  predicate Fires(s: int, r: Reads) {
    (s == 0 && (r.close || r.open)) || (s == 1 && r.closeLmt) || (s == 2 && r.openLmt) || s == 3 || (s == 4 && r.openLmt)
  }

  /** The motor output the pass in state s pulses when it fires. */
  function DrivenPin(s: int, r: Reads): OutPin {
    if s == 0 then (if r.close then CloseOut else OpenOut)
    else if s == 1 || s == 3 then OpenOut
    else CloseOut
  }

  /** The timer whose countdown the pass in state s (1..4) shows. */
  function TimerOf(s: int): string {
    if s == 1 then "Cls" else if s == 2 then "Opn1" else if s == 3 then "Mid" else "Opn2"
  }

  /** A pass in a valid state moves the door exactly when it fires; only the
      mid-stop leaves its state unconditionally. */
  lemma MovesIffFires(rev: Revision, s: int, r: Reads, mid: int)
    requires 0 <= s <= 4
    ensures NextState(rev, s, r, mid) != s <==> Fires(s, r)
    ensures s == 3 ==> Fires(s, r)
  {
  }

  /** The cycle each revision follows from a fired pass: 0 goes to 1 on
      Close (even when Open is pressed as well) and to 2 on Open, 1 to 2,
      2 to 3 (or to 1 in main.py and r0.5 when Mid is 0), 3 to 4 and 4 to 1. */
  lemma FiredTransitions(rev: Revision, r: Reads, mid: int)
    ensures r.close ==> NextState(rev, 0, r, mid) == 1
    ensures !r.close && r.open ==> NextState(rev, 0, r, mid) == 2
    ensures r.closeLmt ==> NextState(rev, 1, r, mid) == 2
    ensures r.openLmt ==> NextState(rev, 2, r, mid) == (if rev != V01 && mid == 0 then 1 else 3)
    ensures NextState(rev, 3, r, mid) == 4
    ensures r.openLmt ==> NextState(rev, 4, r, mid) == 1
  {
  }

  /** The states visited by successive passes, one read record per pass:
      each is NextState of the one before (of s for the first) on its reads. */
  function Trace(rev: Revision, s: int, rs: seq<Reads>, mid: int): (t: seq<int>)
    ensures |t| == |rs|
    ensures |rs| > 0 ==> t[0] == NextState(rev, s, rs[0], mid)
    ensures forall i :: 0 < i < |rs| ==> t[i] == NextState(rev, t[i - 1], rs[i], mid)
    decreases |rs|
  {
    if rs == [] then [] else
      var n := NextState(rev, s, rs[0], mid);
      [n] + Trace(rev, n, rs[1..], mid)
  }

  /** Whatever the inputs, a run from a valid state never leaves 0..4. */
  lemma {:induction false} TraceInRange(rev: Revision, s: int, rs: seq<Reads>, mid: int)
    requires 0 <= s <= 4
    ensures forall i :: 0 <= i < |rs| ==> 0 <= Trace(rev, s, rs, mid)[i] <= 4
    decreases |rs|
  {
    if rs != [] {
      TraceInRange(rev, NextState(rev, s, rs[0], mid), rs[1..], mid);
    }
  }

  /** With Mid at 0, main.py and r0.5 skip the mid-stop: a run from 0, 1 or 2
      never reaches 3 or 4. */
  lemma {:induction false} NoMidStopWhenDisabled(rev: Revision, s: int, rs: seq<Reads>)
    requires rev != V01 && 0 <= s <= 2
    ensures forall i :: 0 <= i < |rs| ==> 0 <= Trace(rev, s, rs, 0)[i] <= 2
    decreases |rs|
  {
    if rs != [] {
      NoMidStopWhenDisabled(rev, NextState(rev, s, rs[0], 0), rs[1..]);
    }
  }

  /** The state after successive passes (the start state after none). */
  function Final(rev: Revision, s: int, rs: seq<Reads>, mid: int): int {
    if rs == [] then s else Trace(rev, s, rs, mid)[|rs| - 1]
  }

  /** One pass more: the trace grows by the next state of the final one. */
  lemma {:induction false} TraceSnoc(rev: Revision, s: int, rs: seq<Reads>, r: Reads, mid: int)
    ensures Trace(rev, s, rs + [r], mid) == Trace(rev, s, rs, mid) + [NextState(rev, Final(rev, s, rs, mid), r, mid)]
    decreases |rs|
  {
    if rs != [] {
      var n := NextState(rev, s, rs[0], mid);
      assert (rs + [r])[1..] == rs[1..] + [r];
      TraceSnoc(rev, n, rs[1..], r, mid);
      if rs[1..] == [] {
        assert rs == [rs[0]];
      } else {
        assert Trace(rev, s, rs, mid)[|rs| - 1] == Trace(rev, n, rs[1..], mid)[|rs| - 2];
      }
    }
  }

  /** Hence the final state after one pass more is one NextState further. */
  lemma FinalSnoc(rev: Revision, s: int, rs: seq<Reads>, r: Reads, mid: int)
    ensures Final(rev, s, rs + [r], mid) == NextState(rev, Final(rev, s, rs, mid), r, mid)
  {
    TraceSnoc(rev, s, rs, r, mid);
  }

  /** The final state of any run from 0..4 is in 0..4; with Mid 0 in main.py
      and r0.5 a run from 0..2 ends in 0..2; a run from any other state ends
      where it began. */
  lemma FinalRange(rev: Revision, s: int, rs: seq<Reads>, mid: int)
    ensures 0 <= s <= 4 ==> 0 <= Final(rev, s, rs, mid) <= 4
    ensures rev != V01 && mid == 0 && 0 <= s <= 2 ==> 0 <= Final(rev, s, rs, mid) <= 2
    ensures !(0 <= s <= 4) ==> Final(rev, s, rs, mid) == s
  {
    if 0 <= s <= 4 {
      TraceInRange(rev, s, rs, mid);
    }
    if rev != V01 && mid == 0 && 0 <= s <= 2 {
      NoMidStopWhenDisabled(rev, s, rs);
    }
    if !(0 <= s <= 4) {
      TraceFixed(rev, s, rs, mid);
    }
  }

  /** A run from a state outside 0..4 stays there. */
  lemma {:induction false} TraceFixed(rev: Revision, s: int, rs: seq<Reads>, mid: int)
    requires !(0 <= s <= 4)
    ensures forall i :: 0 <= i < |rs| ==> Trace(rev, s, rs, mid)[i] == s
    decreases |rs|
  {
    if rs != [] {
      TraceFixed(rev, s, rs[1..], mid);
    }
  }

  /** Version 0.1 has no such switch: Mid 0 still goes through the mid-stop. */
  lemma V01AlwaysMidStops(r: Reads, mid: int)
    requires r.openLmt
    ensures NextState(V01, 2, r, mid) == 3
    ensures Trace(V01, 2, [r, r], mid) == [3, 4]
  {
  }

  const NoReads := Reads(false, false, false, false)

  /** A full cycle with a mid-stop: Close pressed, the close limit, the open
      limit, the mid-stop (no read needed) and the open limit again. */
  lemma CycleWithMidStop(rev: Revision, mid: int)
    requires rev == V01 || mid != 0
    ensures Trace(rev, 0, [NoReads.(close := true), NoReads.(closeLmt := true), NoReads.(openLmt := true),
                           NoReads, NoReads.(openLmt := true)], mid) == [1, 2, 3, 4, 1]
  {
    var b, c := NoReads.(closeLmt := true), NoReads.(openLmt := true);
    assert Trace(rev, 4, [c], mid) == [1];
    assert Trace(rev, 3, [NoReads, c], mid) == [4, 1];
    assert Trace(rev, 2, [c, NoReads, c], mid) == [3, 4, 1];
    assert Trace(rev, 1, [b, c, NoReads, c], mid) == [2, 3, 4, 1];
  }

  /** The same cycle with the mid-stop disabled in main.py and r0.5. */
  lemma CycleWithoutMidStop(rev: Revision)
    requires rev != V01
    ensures Trace(rev, 0, [NoReads.(close := true), NoReads.(closeLmt := true), NoReads.(openLmt := true)], 0) == [1, 2, 1]
  {
    var b, c := NoReads.(closeLmt := true), NoReads.(openLmt := true);
    assert Trace(rev, 2, [c], 0) == [1];
    assert Trace(rev, 1, [b, c], 0) == [2, 1];
  }

  /** The countdown shown on the LCD: duration, duration - 1, ... (k values). */
  function Descending(duration: int, k: nat): (r: seq<int>)
    ensures |r| == k
  {
    if k == 0 then [] else Descending(duration, k - 1) + [duration - (k - 1)]
  }

  /** Value i of a countdown is duration - i. */
  lemma {:induction false} DescendingAt(duration: int, k: nat, i: nat)
    requires i < k
    ensures Descending(duration, k)[i] == duration - i
  {
    if i < k - 1 {
      DescendingAt(duration, k - 1, i);
    }
  }

  /** A countdown of k <= duration values is strictly decreasing, starts at
      the duration and never shows a value below 1; a full one ends at 1. */
  lemma DescendingShape(duration: int, k: nat)
    requires k <= Max0(duration)
    ensures forall i, j :: 0 <= i < j < k ==> Descending(duration, k)[i] > Descending(duration, k)[j]
    ensures k > 0 ==> Descending(duration, k)[0] == duration
    ensures forall i :: 0 <= i < k ==> 1 <= Descending(duration, k)[i] <= duration
    ensures k == Max0(duration) && k > 0 ==> Descending(duration, k)[k - 1] == 1
  {
    forall i | 0 <= i < k
      ensures Descending(duration, k)[i] == duration - i
    {
      DescendingAt(duration, k, i);
    }
  }
}
