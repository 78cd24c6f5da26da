/** Digital inputs of the gate operator, replaced by streams of samples.
    Every input pin is wired with a pull-down, so a stream that has run out
    reads low.  Shared by the door controller and the settings screens of
    all three firmware revisions. */
module Inputs {

  datatype InPin = OpenBtn | CloseBtn | StopBtn | OpenLmt | CloseLmt | ProgBtn | UpBtn | DownBtn

  datatype OutPin = OpenOut | CloseOut | StopOut | SpareOut

  function Max0(n: int): nat { if n < 0 then 0 else n }

  /** Reading number i (from 0) of a stream. */
  function Sample(s: seq<bool>, i: nat): bool {
    i < |s| && s[i]
  }

  /** The stream after n readings. */
  function Drop(s: seq<bool>, n: nat): (r: seq<bool>)
    ensures forall i: nat :: Sample(r, i) == Sample(s, n + i)
  {
    if n <= |s| then s[n..] else []
  }

  lemma DropDrop(s: seq<bool>, m: nat, n: nat)
    ensures Drop(Drop(s, m), n) == Drop(s, m + n)
  {
  }

  /** readPin's verdict: each of `counter` readings was high.  With a
      counter of 0 this holds vacuously; a negative counter takes no
      reading and fails, since the count 0 differs from the counter. */
  predicate Confirmed(s: seq<bool>, counter: int) {
    counter >= 0 && forall i :: 0 <= i < counter ==> Sample(s, i)
  }

  /** The first n readings were all high, counted one reading at a time as
      readPin's loop does. */
  predicate AllHigh(s: seq<bool>, n: nat) {
    n == 0 || (AllHigh(s, n - 1) && Sample(s, n - 1))
  }

  /** Counting readings one at a time gives readPin's verdict. */
  lemma {:induction false} AllHighConfirmed(s: seq<bool>, n: nat)
    ensures AllHigh(s, n) == Confirmed(s, n)
  {
    if n > 0 {
      AllHighConfirmed(s, n - 1);
      assert Confirmed(s, n) == (Confirmed(s, n - 1) && Sample(s, n - 1));
    }
  }

  /** The readings before position n end in at least d consecutive highs. */
  predicate HeldFor(s: seq<bool>, n: nat, d: int)
    requires n <= |s|
  {
    d <= n && forall i :: n - d <= i < n ==> s[i]
  }

  /** The number of consecutive high readings just before position n. */
  function RunEnd(s: seq<bool>, n: nat): (r: nat)
    requires n <= |s|
    ensures r <= n
  {
    if n == 0 || !s[n - 1] then 0 else RunEnd(s, n - 1) + 1
  }

  /** The hold counter reaches d exactly when the last d readings were high. */
  lemma {:induction false} RunEndHeld(s: seq<bool>, n: nat, d: int)
    requires n <= |s|
    ensures RunEnd(s, n) >= d <==> HeldFor(s, n, d)
    decreases n
  {
    if d > 0 && n > 0 && s[n - 1] {
      RunEndHeld(s, n - 1, d - 1);
    } else if d > 0 && n > 0 {
      assert !HeldFor(s, n, d) by { assert n - d <= n - 1 < n; }
    }
  }

  /** The press-and-hold loop that opens the programming mode: the counter
      grows on each high reading of the Prog button, falls back to 0 on a
      low one, and the mode is entered once it reaches `delay`.  The
      firmware keeps waiting for ever; here the loop also ends when the
      readings run out.  Returns whether the mode was entered and how many
      readings were used. */
  method EnterProgMode(readings: seq<bool>, delay: int) returns (entered: bool, used: nat)
    ensures used <= |readings|
    ensures entered ==> HeldFor(readings, used, delay)
    ensures entered ==> forall n :: 0 <= n < used ==> !HeldFor(readings, n, delay)
    ensures !entered ==> used == |readings| && forall n :: 0 <= n <= |readings| ==> !HeldFor(readings, n, delay)
  {
    var holdCounter := 0;
    used := 0;
    entered := false;
    while true
      invariant used <= |readings|
      invariant holdCounter == RunEnd(readings, used)
      invariant forall n :: 0 <= n < used ==> !HeldFor(readings, n, delay)
      decreases |readings| - used
    {
      RunEndHeld(readings, used, delay);
      if holdCounter >= delay {
        entered := true;
        break;
      }
      if used == |readings| {
        break;
      }
      if readings[used] {
        holdCounter := holdCounter + 1;
      } else {
        holdCounter := 0;
      }
      used := used + 1;
    }
  }
}
