/** The door controller of the three firmware revisions.  The module
    globals of the firmware (`state`, `stop_request`, `is_running`,
    `Timers`, the output pins) are the fields of one Controller object;
    `in_prog_mode` and the menu globals belong to Settings.Panel.  Input
    pins are streams of samples, the LCD is the record of countdown values
    shown, every write to an output pin is recorded, and the stop
    interrupt is an oracle polled at each sleep. */
module Door {
  import opened Inputs
  import opened Outputs
  import opened DoorLogic

  /** `counter_readPin`: readings per readPin call. */
  const CounterReadPin := 1

  /** The attribute `Input['Stop'].value` taken without calling it: a bound
      method object, which is always truthy. */
  const BoundMethodTruth := true

  /** `m` with n samples of pin p's stream used up. */
  function Consumed(m: map<InPin, seq<bool>>, p: InPin, n: nat): map<InPin, seq<bool>>
    requires p in m
  {
    m[p := Drop(m[p], n)]
  }

  lemma ConsumedTwice(m: map<InPin, seq<bool>>, p: InPin, a: nat, b: nat)
    requires p in m
    ensures Consumed(Consumed(m, p, a), p, b) == Consumed(m, p, a + b)
  {
    DropDrop(m[p], a, b);
  }

  lemma ConsumedNone(m: map<InPin, seq<bool>>, p: InPin)
    requires p in m
    ensures Consumed(m, p, 0) == m
  {
    assert Drop(m[p], 0) == m[p];
  }

  /** Pin streams with a stream for every input pin. */
  predicate Complete(m: map<InPin, seq<bool>>) {
    forall p: InPin :: p in m
  }

  /** Whether the stream of pin p in m confirms a read, as revision rev
      reads it: readPin in main.py and r0.5, a single raw read in v0.1 (the
      same verdict, since counter_readPin is 1). */
  function HeardIn(rev: Revision, m: map<InPin, seq<bool>>, p: InPin): bool
    requires Complete(m)
  {
    if rev == V01 then Sample(m[p], 0) else Confirmed(m[p], CounterReadPin)
  }

  /** The reads a pass of `Logic_loop` may look at, as the streams m would give them. */
  function ReadsOf(rev: Revision, m: map<InPin, seq<bool>>): Reads
    requires Complete(m)
  {
    Reads(HeardIn(rev, m, CloseBtn), HeardIn(rev, m, OpenBtn), HeardIn(rev, m, CloseLmt), HeardIn(rev, m, OpenLmt))
  }

  /** The stop interlock over the write record w: when a stop is pending,
      no motor output has been driven high since the write at `mark`. */
  predicate Interlocked(stop: bool, mark: nat, w: seq<PinWrite>) {
    mark <= |w| && (stop ==> forall i :: mark <= i < |w| ==> !(Motor(w[i].pin) && w[i].level == 1))
  }

  /** How the stop request, its mark and the write record may move from
      (s0, m0, w0) to (s, m, w): writes are only appended; a pending
      request stays pending and keeps its mark; a request raised on the
      way is marked at the first Stop-high write appended; and no Stop-high
      write is appended while no request is raised. */
  predicate MarkFrame(s0: bool, m0: nat, w0: seq<PinWrite>, s: bool, m: nat, w: seq<PinWrite>) {
    |w0| <= |w| && w[..|w0|] == w0 &&
    (s0 ==> s && m == m0) &&
    (!s0 && s ==> |w0| <= m < |w| && w[m] == PinWrite(StopOut, 1) &&
                  forall i :: |w0| <= i < m ==> w[i] != PinWrite(StopOut, 1)) &&
    (!s ==> forall i :: |w0| <= i < |w| ==> w[i] != PinWrite(StopOut, 1))
  }

  lemma MarkTrans(s0: bool, m0: nat, w0: seq<PinWrite>, s1: bool, m1: nat, w1: seq<PinWrite>, s2: bool, m2: nat, w2: seq<PinWrite>)
    requires MarkFrame(s0, m0, w0, s1, m1, w1) && MarkFrame(s1, m1, w1, s2, m2, w2)
    ensures MarkFrame(s0, m0, w0, s2, m2, w2)
  {
    assert w2[..|w0|] == w2[..|w1|][..|w0|];
    forall i | |w0| <= i < |w1|
      ensures w2[i] == w1[i]
    {
      assert w2[..|w1|][i] == w1[i];
    }
  }

  /** Writes with level 0 move no mark: neither a Stop-high write nor a
      motor driven high. */
  lemma MarkQuiet(s: bool, m: nat, w: seq<PinWrite>, x: seq<PinWrite>)
    requires forall i :: 0 <= i < |x| ==> x[i].level == 0
    ensures MarkFrame(s, m, w, s, m, w + x)
    ensures Interlocked(s, m, w) ==> Interlocked(s, m, w + x)
  {
    assert (w + x)[..|w|] == w;
    assert forall i :: |w| <= i < |w + x| ==> (w + x)[i] == x[i - |w|];
  }

  /** The close-limit readings the state-3 countdown of `d` seconds takes
      from the stream s when no stop arrives: one per value shown, up to
      and including the first high reading. */
  function CountDownReads(s: seq<bool>, d: int): (n: nat)
    ensures n <= Max0(d)
    decreases Max0(d)
  {
    if d <= 0 then 0 else if Sample(s, 0) then 1 else 1 + CountDownReads(Drop(s, 1), d - 1)
  }

  /** CountDownReads is where the countdown leaves: with the first n
      readings low, n + 1 when reading n is high and inside the countdown,
      and n when those n readings fill the countdown. */
  lemma {:induction false} CountDownReadsAt(s: seq<bool>, d: int, n: nat)
    requires n <= Max0(d) && forall k :: 0 <= k < n ==> !Sample(s, k)
    requires n < Max0(d) ==> Sample(s, n)
    ensures CountDownReads(s, d) == if n < Max0(d) then n + 1 else n
    decreases n
  {
    if n > 0 {
      assert !Sample(s, 0);
      CountDownReadsAt(Drop(s, 1), d - 1, n - 1);
    }
  }

  /** The streams m leave after a pass of `Logic_loop` in state s during
      which no stop arrives: every confirmed read takes one sample of its
      pin, writePin on a motor output one sample of its limit switch, and
      the mid-stop countdown its CountDownReads of the close limit. */
  function PassPins(rev: Revision, s: int, m: map<InPin, seq<bool>>, mid: int): map<InPin, seq<bool>>
    requires Complete(m)
  {
    var r := ReadsOf(rev, m);
    if s == 0 then
      (if r.close then Consumed(Consumed(m, CloseBtn, 1), CloseLmt, 1)
       else if r.open then Consumed(Consumed(Consumed(m, CloseBtn, 1), OpenBtn, 1), OpenLmt, 1)
       else Consumed(Consumed(m, CloseBtn, 1), OpenBtn, 1))
    else if s == 1 then
      (if r.closeLmt then Consumed(Consumed(m, CloseLmt, 1), OpenLmt, 1) else Consumed(m, CloseLmt, 1))
    else if s == 2 || s == 4 then
      (if r.openLmt then Consumed(Consumed(m, OpenLmt, 1), CloseLmt, 1) else Consumed(m, OpenLmt, 1))
    else if s == 3 then Consumed(Consumed(m, CloseLmt, CountDownReads(m[CloseLmt], mid)), OpenLmt, 1)
    else m
  }

  /** A run of `Logic_loop` from state s0: pass i started from the streams
      ps[i] and took the reads they give; it left the streams PassPins of
      them (from the final state of the passes before it), except that the
      last pass is only bound to do so when `last` holds (no stop pending
      at its end). */
  predicate Run(rev: Revision, mid: int, s0: int, rs: seq<Reads>, ps: seq<map<InPin, seq<bool>>>, last: bool) {
    |ps| == |rs| + 1 &&
    forall i :: 0 <= i < |rs| ==>
      Complete(ps[i]) && rs[i] == ReadsOf(rev, ps[i]) &&
      (i + 1 < |rs| || last ==> ps[i + 1] == PassPins(rev, Final(rev, s0, rs[..i], mid), ps[i], mid))
  }

  /** One pass more extends a run: the new pass takes the reads of the
      streams the run left, and leaves PassPins of them when no stop is
      pending at its end. */
  lemma RunSnoc(rev: Revision, mid: int, s0: int, rs: seq<Reads>, ps: seq<map<InPin, seq<bool>>>, p: map<InPin, seq<bool>>, last: bool)
    requires Run(rev, mid, s0, rs, ps, true) && Complete(ps[|rs|])
    requires last ==> p == PassPins(rev, Final(rev, s0, rs, mid), ps[|rs|], mid)
    ensures Run(rev, mid, s0, rs + [ReadsOf(rev, ps[|rs|])], ps + [p], last)
  {
    var rs', ps' := rs + [ReadsOf(rev, ps[|rs|])], ps + [p];
    forall i | 0 <= i < |rs'|
      ensures Complete(ps'[i]) && rs'[i] == ReadsOf(rev, ps'[i])
      ensures i + 1 < |rs'| || last ==> ps'[i + 1] == PassPins(rev, Final(rev, s0, rs'[..i], mid), ps'[i], mid)
    {
      assert rs'[..i] == rs[..i];
      if i == |rs| {
        assert rs[..i] == rs;
      }
    }
  }

  class Controller {
    const rev: Revision
    var state: int
    var stopRequest: bool
    var isRunning: bool
    var timers: map<string, int>
    var levels: Levels
    var writes: seq<PinWrite>
    var shown: seq<int>
    var pins: map<InPin, seq<bool>>
    var irqs: seq<bool>
    /** Where the write record stood when the stop request was raised. */
    ghost var stopMark: nat

    /** Every input pin has a stream. */
    ghost predicate Valid()
      reads this`pins
    {
      forall p: InPin :: p in pins
    }

    /** The stop interlock: since the stop request was raised, no motor
        output has been driven high. */
    ghost predicate Safe()
      reads this`stopRequest, this`stopMark, this`writes
    {
      Interlocked(stopRequest, stopMark, writes)
    }

    /** Since the snapshot (s0, m0, w0) of the request, its mark and the
        write record, the mark has moved only as MarkFrame allows, so Safe
        speaks about every motor write since the request was raised. */
    ghost predicate MarkedSince(s0: bool, m0: nat, w0: seq<PinWrite>)
      reads this`stopRequest, this`stopMark, this`writes
    {
      MarkFrame(s0, m0, w0, stopRequest, stopMark, writes)
    }

    /** The durations the state machine and `initialize` read are present
        (the firmware raises KeyError otherwise). */
    ghost predicate TimersReady()
      reads this`timers
    {
      "Opn1" in timers && "Cls" in timers && "Mid" in timers && "Opn2" in timers
    }

    /** The fields the stop interrupt touches, as one value. */
    function IrqView(): IrqSide
      reads this`irqs, this`stopRequest, this`writes, this`levels
    {
      IrqSide(irqs, stopRequest, writes, levels)
    }

    /** The module-level starting values, with the given Timers, input
        samples and interrupt oracle (the output pins start low). */
    constructor (rev: Revision, timers: map<string, int>, pins: map<InPin, seq<bool>>, irqs: seq<bool>)
      requires forall p: InPin :: p in pins
      ensures Valid() && Safe()
      ensures this.rev == rev && this.timers == timers && this.pins == pins && this.irqs == irqs
      ensures state == 0 && !stopRequest && !isRunning
      ensures levels == AllLow && writes == [] && shown == []
    {
      this.rev := rev;
      this.timers := timers;
      this.pins := pins;
      this.irqs := irqs;
      state := 0;
      stopRequest := false;
      isRunning := false;
      levels := AllLow;
      writes := [];
      shown := [];
      stopMark := 0;
    }

    /** Whether the current stream of pin p confirms a read. */
    function Heard(p: InPin): bool
      reads this`pins
      requires Valid()
    {
      HeardIn(rev, pins, p)
    }

    /** The reads a pass of `Logic_loop` may look at, as the current streams
        would give them. */
    function CurrentReads(): Reads
      reads this`pins
      requires Valid()
    {
      ReadsOf(rev, pins)
    }

    /** `initialize`: state 0, no stop request, not running, all outputs
        written low (in the order of the Output dictionary), and in main.py
        and r0.5 Opn2 forced to 0 when Mid is 0. */
    method Initialize()
      requires TimersReady() && Safe()
      modifies this`state, this`stopRequest, this`isRunning, this`levels, this`writes, this`timers
      ensures TimersReady() && Safe()
      ensures state == 0 && !stopRequest && !isRunning
      ensures levels == AllLow
      ensures writes == old(writes) + [PinWrite(OpenOut, 0), PinWrite(CloseOut, 0), PinWrite(StopOut, 0), PinWrite(SpareOut, 0)]
      ensures rev != V01 && old(timers)["Mid"] == 0 ==> timers == old(timers)["Opn2" := 0]
      ensures rev == V01 || old(timers)["Mid"] != 0 ==> timers == old(timers)
    {
      state := 0;
      stopRequest := false;
      isRunning := false;
      var outputs := [OpenOut, CloseOut, StopOut, SpareOut];
      for k := 0 to 4
        invariant writes == old(writes) + seq(k, i requires 0 <= i < k => PinWrite(outputs[i], 0))
        invariant forall i :: 0 <= i < k ==> levels.Get(outputs[i]) == 0
        invariant state == 0 && !stopRequest && !isRunning && timers == old(timers)
        invariant Safe()
      {
        levels := levels.Set(outputs[k], 0);
        writes := writes + [PinWrite(outputs[k], 0)];
      }
      assert levels.Get(outputs[0]) == 0 && levels.Get(outputs[1]) == 0;
      assert levels.Get(outputs[2]) == 0 && levels.Get(outputs[3]) == 0;
      if rev != V01 {
        timers := timers["Opn2" := if timers["Mid"] == 0 then 0 else timers["Opn2"]];
      }
    }

    /** A raw read `Input[p].value()`: takes one sample of the stream. */
    method Sense(p: InPin) returns (high: bool)
      requires Valid()
      modifies this`pins
      ensures Valid()
      ensures high == Sample(old(pins[p]), 0)
      ensures pins == Consumed(old(pins), p, 1)
    {
      high := Sample(pins[p], 0);
      pins := pins[p := Drop(pins[p], 1)];
    }

    /** `stop_signal_handler`.  In main.py and r0.5 the debounce loop tests
        the attribute `Input['Stop'].value` without calling it, so every
        pass counts and the request is always confirmed, whatever the Stop
        pin reads; v0.1 has no loop at all.  Either way the request is
        raised and the Stop output pulsed, and no input is read. */
    method StopSignalHandler()
      requires Safe()
      modifies this`stopRequest, this`levels, this`writes, this`stopMark
      ensures Safe()
      ensures MarkedSince(old(stopRequest), old(stopMark), old(writes))
      ensures IrqView() == Handled(old(IrqView()))
    {
      var confirmed := true;
      if rev != V01 {
        var readCount := 0;
        for i := 0 to CounterReadPin
          invariant readCount == i
        {
          if BoundMethodTruth {
            readCount := readCount + 1;
          }
        }
        confirmed := readCount == CounterReadPin;
      }
      if confirmed {
        if !stopRequest {
          stopMark := |writes|;
        }
        stopRequest := true;
        levels := levels.Set(StopOut, 1);
        writes := writes + [PinWrite(StopOut, 1)];
        levels := levels.Set(StopOut, 0);
        writes := writes + [PinWrite(StopOut, 0)];
      }
    }

    /** A sleep of the main flow, during which the stop interrupt may run. */
    method Pause()
      requires Safe()
      modifies this`irqs, this`stopRequest, this`levels, this`writes, this`stopMark
      ensures Safe()
      ensures MarkedSince(old(stopRequest), old(stopMark), old(writes))
      ensures IrqView() == Poll(old(IrqView()))
    {
      var fired := Sample(irqs, 0);
      irqs := Drop(irqs, 1);
      if fired {
        StopSignalHandler();
      }
    }

    /** One reading of readPin's loop and the sleep after it. */
    method ReadAndSleep(p: InPin) returns (high: bool)
      requires Valid() && Safe()
      modifies this`pins, this`irqs, this`stopRequest, this`levels, this`writes, this`stopMark
      ensures Valid() && Safe()
      ensures MarkedSince(old(stopRequest), old(stopMark), old(writes))
      ensures high == Sample(old(pins[p]), 0)
      ensures pins == Consumed(old(pins), p, 1)
      ensures IrqView() == Poll(old(IrqView()))
    {
      high := Sense(p);
      Pause();
    }


    /** `readPin(pin, counter)`: reads the pin `counter` times, sleeping
        after each reading, and is True iff every reading was high. */
    method ReadPin(p: InPin, counter: int) returns (high: bool)
      requires Valid() && Safe()
      modifies this`pins, this`irqs, this`stopRequest, this`levels, this`writes, this`stopMark
      ensures Valid() && Safe()
      ensures MarkedSince(old(stopRequest), old(stopMark), old(writes))
      ensures high == Confirmed(old(pins[p]), counter)
      ensures pins == Consumed(old(pins), p, Max0(counter))
      ensures IrqView() == AfterPolls(old(IrqView()), Max0(counter))
    {
      ghost var s0, v0 := pins[p], IrqView();
      ConsumedNone(pins, p);
      var readCount := 0;
      var i := 0;
      while i < counter
        invariant Safe() && MarkedSince(old(stopRequest), old(stopMark), old(writes))
        invariant 0 <= i <= Max0(counter)
        invariant readCount <= i
        invariant readCount == i <==> AllHigh(s0, i)
        invariant pins == Consumed(old(pins), p, i)
        invariant IrqView() == AfterPolls(v0, i)
      {
        assert pins[p] == Drop(s0, i);
        ghost var s1, m1, w1 := stopRequest, stopMark, writes;
        var v := ReadAndSleep(p);
        MarkTrans(old(stopRequest), old(stopMark), old(writes), s1, m1, w1, stopRequest, stopMark, writes);
        ConsumedTwice(old(pins), p, i, 1);
        assert v == Sample(s0, i);
        assert IrqView() == AfterPolls(v0, i + 1);
        if v {
          readCount := readCount + 1;
        }
        assert AllHigh(s0, i + 1) == (AllHigh(s0, i) && v);
        i := i + 1;
      }
      assert i == Max0(counter);
      AllHighConfirmed(s0, i);
      high := readCount == counter;
    }

    /** The number of sleeps of one confirmed read: v0.1 reads the pin raw. */
    function ReadPolls(): nat {
      if rev == V01 then 0 else CounterReadPin
    }

    /** A confirmed read as the state machine takes it: `readPin(p)` in
        main.py and r0.5, `Input[p].value()` in v0.1. */
    method ReadInput(p: InPin) returns (high: bool)
      requires Valid() && Safe()
      modifies this`pins, this`irqs, this`stopRequest, this`levels, this`writes, this`stopMark
      ensures Valid() && Safe()
      ensures MarkedSince(old(stopRequest), old(stopMark), old(writes))
      ensures high == old(Heard(p))
      ensures pins == Consumed(old(pins), p, 1)
      ensures IrqView() == AfterPolls(old(IrqView()), ReadPolls())
      ensures StopFrom(old(stopRequest), old(irqs), stopRequest, irqs)
    {
      if rev == V01 {
        high := Sense(p);
      } else {
        high := ReadPin(p, CounterReadPin);
      }
      ViewStop(old(IrqView()), IrqView(), ReadPolls());
    }

    /** `writePin(pin, delay)`: unless a stop is pending, drives a motor
        output high when its limit switch reads low, sleeps, and writes the
        pin low again.  With a stop pending nothing is read or written. */
    method WritePin(p: OutPin)
      requires Valid() && Safe()
      modifies this`pins, this`irqs, this`stopRequest, this`levels, this`writes, this`stopMark
      ensures Valid() && Safe()
      ensures MarkedSince(old(stopRequest), old(stopMark), old(writes))
      ensures old(stopRequest) ==> pins == old(pins) && IrqView() == old(IrqView())
      ensures !old(stopRequest) && Motor(p) ==>
        pins == Consumed(old(pins), LimitOf(p), 1) &&
        IrqView() == Pulsed(old(IrqView()), p, !Sample(old(pins[LimitOf(p)]), 0))
      ensures !old(stopRequest) && !Motor(p) ==>
        pins == old(pins) && IrqView() == Pulsed(old(IrqView()), p, false)
      ensures p != StopOut ==> ExtendsWith(old(writes), writes, {p})
    {
      ghost var v0 := IrqView();
      if !stopRequest {
        var drive := false;
        if p == OpenOut {
          var limit := Sense(OpenLmt);
          drive := !limit;
        } else if p == CloseOut {
          var limit := Sense(CloseLmt);
          drive := !limit;
        }
        Pulse(p, drive);
        if p != StopOut {
          PulsedWrites(v0, p, drive);
        }
      }
    }

    /** The writes of writePin once the interlocks are passed: p high if
        `drive` (only a motor output is ever driven), the sleep, p low. */
    method Pulse(p: OutPin, drive: bool)
      requires Safe() && !stopRequest && (drive ==> Motor(p))
      modifies this`irqs, this`stopRequest, this`levels, this`writes, this`stopMark
      ensures Safe()
      ensures MarkedSince(old(stopRequest), old(stopMark), old(writes))
      ensures IrqView() == Pulsed(old(IrqView()), p, drive)
    {
      ghost var m0, w0 := stopMark, writes;
      if drive {
        levels := levels.Set(p, 1);
        writes := writes + [PinWrite(p, 1)];
        assert writes[..|w0|] == w0;
      }
      ghost var w1 := writes;
      Pause();
      MarkTrans(false, m0, w0, false, m0, w1, stopRequest, stopMark, writes);
      ghost var s2, m2, w2 := stopRequest, stopMark, writes;
      levels := levels.Set(p, 0);
      writes := writes + [PinWrite(p, 0)];
      MarkQuiet(s2, m2, w2, [PinWrite(p, 0)]);
      MarkTrans(false, m0, w0, s2, m2, w2, stopRequest, stopMark, writes);
    }

    /** writePin on a motor output after a stretch that wrote only Stop
        pulses since `a`: unless a stop is pending the output is pulsed,
        driven high exactly when its limit switch reads low. */
    method PulseMotor(p: OutPin, ghost a: seq<PinWrite>)
      requires Valid() && Safe() && Motor(p) && ExtendsWith(a, writes, {})
      modifies this`pins, this`irqs, this`stopRequest, this`levels, this`writes, this`stopMark
      ensures Valid() && Safe()
      ensures MarkedSince(old(stopRequest), old(stopMark), old(writes))
      ensures ExtendsWith(a, writes, {p})
      ensures !stopRequest ==> PulseOf(a, writes, p, !Sample(old(pins[LimitOf(p)]), 0))
      ensures old(stopRequest) ==> pins == old(pins) && IrqView() == old(IrqView())
      ensures !old(stopRequest) ==> pins == Consumed(old(pins), LimitOf(p), 1)
      ensures StopFrom(old(stopRequest), old(irqs), stopRequest, irqs)
    {
      ghost var v := IrqView();
      PulseAfterStops(a, v, p, !Sample(pins[LimitOf(p)], 0));
      ghost var w := writes;
      WritePin(p);
      ExtendsTrans(a, w, writes, {}, {p});
      if v.stop {
        StopStill(stopRequest, irqs);
      } else {
        PulsedStop(v, p, !Sample(old(pins[LimitOf(p)]), 0));
      }
    }

    /** One pass of the countdown loop: show the value, leave if a stop is
        pending or (in state 3) the close limit reads high, else sleep. */
    method CountDownTick(i: int) returns (leave: bool)
      requires Valid() && Safe()
      modifies this`shown, this`pins, this`irqs, this`stopRequest, this`levels, this`writes, this`stopMark
      ensures Valid() && Safe()
      ensures MarkedSince(old(stopRequest), old(stopMark), old(writes))
      ensures shown == old(shown) + [i]
      ensures leave == (old(stopRequest) || (state == 3 && Sample(old(pins[CloseLmt]), 0)))
      ensures pins == if !old(stopRequest) && state == 3 then Consumed(old(pins), CloseLmt, 1) else old(pins)
      ensures leave ==> IrqView() == old(IrqView())
      ensures !leave ==> IrqView() == Poll(old(IrqView()))
    {
      shown := shown + [i];
      if stopRequest {
        return true;
      } else if state == 3 {
        var closed := Sense(CloseLmt);
        if closed {
          return true;
        }
      }
      Pause();
      leave := false;
    }

    /** The countdown has shown n values and slept after each of them,
        with no stop pending at any of those sleeps. */
    ghost predicate Counting(duration: int, p0: map<InPin, seq<bool>>, s0: seq<int>, v0: IrqSide, n: nat)
      reads this
    {
      Valid() && Safe() && CloseLmt in p0 && n <= Max0(duration) &&
      shown == s0 + Descending(duration, n) &&
      IrqView() == AfterPolls(v0, n) &&
      (v0.stop ==> n == 0) && (n == 0 || !Fired(v0.irqs, n - 1)) &&
      pins == Consumed(p0, CloseLmt, if state == 3 && !v0.stop then n else 0) &&
      (state == 3 ==> forall k :: 0 <= k < n ==> !Sample(p0[CloseLmt], k))
    }

    /** One value of the countdown, as the loop of lcd_count_down takes it. */
    method CountDownStep(i: int, ghost duration: int, ghost p0: map<InPin, seq<bool>>, ghost s0: seq<int>, ghost v0: IrqSide, ghost n: nat)
      returns (leave: bool)
      requires Counting(duration, p0, s0, v0, n) && i == duration - n && i > 0
      modifies this`shown, this`pins, this`irqs, this`stopRequest, this`levels, this`writes, this`stopMark
      ensures Valid() && Safe()
      ensures MarkedSince(old(stopRequest), old(stopMark), old(writes))
      ensures !leave ==> Counting(duration, p0, s0, v0, n + 1)
      ensures leave ==> shown == s0 + Descending(duration, n + 1) && IrqView() == AfterPolls(v0, n)
      ensures leave ==> stopRequest || (state == 3 && Sample(p0[CloseLmt], n))
      ensures leave ==> pins == Consumed(p0, CloseLmt, if state == 3 && !v0.stop then (if stopRequest then n else n + 1) else 0)
    {
      PollsKeepStop(v0, n);
      leave := CountDownTick(i);
      if state == 3 && !v0.stop && !old(stopRequest) {
        ConsumedTwice(p0, CloseLmt, n, 1);
      }
    }

    /** `lcd_count_down(duration)`: shows duration, duration - 1, ..., 1,
        sleeping one second after each value.  It leaves right after showing
        a value when a stop is pending, or in state 3 when the close limit
        reads high.  `ticks` counts the values shown, `polls` the sleeps.
        In state 3 with no stop pending at the end it has taken the close
        limit's CountDownReads. */
    method LcdCountDown(duration: int) returns (ghost ticks: nat, ghost polls: nat)
      requires Valid() && Safe()
      modifies this`shown, this`pins, this`irqs, this`stopRequest, this`levels, this`writes, this`stopMark
      ensures Valid() && Safe()
      ensures MarkedSince(old(stopRequest), old(stopMark), old(writes))
      ensures ticks <= Max0(duration) && shown == old(shown) + Descending(duration, ticks)
      ensures duration >= 1 ==> ticks >= 1
      ensures polls <= ticks <= polls + 1
      ensures ticks < Max0(duration) ==> ticks == polls + 1
      ensures IrqView() == AfterPolls(old(IrqView()), polls)
      ensures old(stopRequest) ==> polls == 0
      ensures polls == 0 || !Fired(old(irqs), polls - 1)
      ensures ticks == polls + 1 ==> stopRequest || (state == 3 && Sample(old(pins[CloseLmt]), polls))
      ensures state != 3 || old(stopRequest) ==> pins == old(pins)
      ensures state == 3 && !old(stopRequest) ==>
        pins == Consumed(old(pins), CloseLmt, if ticks == polls + 1 && stopRequest then polls else ticks)
      ensures state == 3 ==> forall k :: 0 <= k < polls ==> !Sample(old(pins[CloseLmt]), k)
      ensures state == 3 && !stopRequest ==> pins == Consumed(old(pins), CloseLmt, CountDownReads(old(pins[CloseLmt]), duration))
    {
      ghost var cl, v0, p0, s0 := pins[CloseLmt], IrqView(), pins, shown;
      ConsumedNone(pins, CloseLmt);
      polls := 0;
      var i := duration;
      while i > 0
        invariant Counting(duration, p0, s0, v0, polls) && i == duration - polls
        invariant MarkedSince(old(stopRequest), old(stopMark), old(writes))
      {
        ghost var s1, m1, w1 := stopRequest, stopMark, writes;
        var leave := CountDownStep(i, duration, p0, s0, v0, polls);
        MarkTrans(old(stopRequest), old(stopMark), old(writes), s1, m1, w1, stopRequest, stopMark, writes);
        if leave {
          if state == 3 && !stopRequest {
            CountDownReadsAt(cl, duration, polls);
          }
          return polls + 1, polls;
        }
        polls := polls + 1;
        i := i - 1;
      }
      ticks := polls;
      if state == 3 && !stopRequest {
        CountDownReadsAt(cl, duration, polls);
      }
    }

    /** State 0 of `Logic_loop`: Close is read first and wins; Open is read
        only when Close is not confirmed.  The pressed button's output is
        pulsed. */
    method IdlePass()
      requires Valid() && Safe()
      modifies this`state, this`pins, this`irqs, this`stopRequest, this`levels, this`writes, this`stopMark
      ensures Valid() && Safe()
      ensures MarkedSince(old(stopRequest), old(stopMark), old(writes))
      ensures state == (if old(Heard(CloseBtn)) then 1 else if old(Heard(OpenBtn)) then 2 else old(state))
      ensures old(Heard(CloseBtn)) ==> ExtendsWith(old(writes), writes, {CloseOut})
      ensures !old(Heard(CloseBtn)) && old(Heard(OpenBtn)) ==> ExtendsWith(old(writes), writes, {OpenOut})
      ensures !old(Heard(CloseBtn)) && !old(Heard(OpenBtn)) ==> ExtendsWith(old(writes), writes, {})
      ensures old(Heard(CloseBtn)) && !stopRequest ==>
        PulseOf(old(writes), writes, CloseOut, !Sample(old(pins[CloseLmt]), 0))
      ensures !old(Heard(CloseBtn)) && old(Heard(OpenBtn)) && !stopRequest ==>
        PulseOf(old(writes), writes, OpenOut, !Sample(old(pins[OpenLmt]), 0))
      ensures !stopRequest ==> pins == PassPins(rev, 0, old(pins), 0)
      ensures StopFrom(old(stopRequest), old(irqs), stopRequest, irqs)
    {
      ghost var w0, o0, p0 := writes, Heard(OpenBtn), pins;
      ghost var s0, m0 := stopRequest, stopMark;
      var close := ButtonPass(CloseBtn, CloseOut, 1, w0);
      if !close {
        assert Heard(OpenBtn) == o0 && pins[OpenLmt] == p0[OpenLmt];
        ghost var s1, m1, w1, q1 := stopRequest, stopMark, writes, irqs;
        var _ := ButtonPass(OpenBtn, OpenOut, 2, w0);
        MarkTrans(s0, m0, w0, s1, m1, w1, stopRequest, stopMark, writes);
        StopFromTrans(s0, old(irqs), s1, q1, stopRequest, irqs);
      }
    }

    /** One button of state 0: when `btn` is confirmed, its motor output
        `out` is pulsed and the state becomes `next`.  `a` is a record
        since which only Stop pulses were written. */
    method ButtonPass(btn: InPin, out: OutPin, next: int, ghost a: seq<PinWrite>) returns (pressed: bool)
      requires Valid() && Safe() && Motor(out) && LimitOf(out) != btn && ExtendsWith(a, writes, {})
      modifies this`state, this`pins, this`irqs, this`stopRequest, this`levels, this`writes, this`stopMark
      ensures Valid() && Safe()
      ensures MarkedSince(old(stopRequest), old(stopMark), old(writes))
      ensures StopFrom(old(stopRequest), old(irqs), stopRequest, irqs)
      ensures pressed == old(Heard(btn))
      ensures state == if pressed then next else old(state)
      ensures ExtendsWith(a, writes, if pressed then {out} else {})
      ensures pressed && !stopRequest ==> PulseOf(a, writes, out, !Sample(old(pins[LimitOf(out)]), 0))
      ensures !pressed ==> pins == Consumed(old(pins), btn, 1)
      ensures pressed && !stopRequest ==> pins == Consumed(Consumed(old(pins), btn, 1), LimitOf(out), 1)
    {
      ghost var w0, p0, s0, m0 := writes, pins, stopRequest, stopMark;
      PollsOnStop(IrqView(), ReadPolls());
      pressed := ReadInput(btn);
      ExtendsTrans(a, w0, writes, {}, {});
      if pressed {
        ghost var s1, m1, w1, q1 := stopRequest, stopMark, writes, irqs;
        assert pins[LimitOf(out)] == p0[LimitOf(out)];
        PulseMotor(out, a);
        assert !stopRequest ==> !s1;
        MarkTrans(s0, m0, w0, s1, m1, w1, stopRequest, stopMark, writes);
        StopFromTrans(s0, old(irqs), s1, q1, stopRequest, irqs);
        state := next;
      }
    }

    /** What a confirmed pass does: `lcd_count_down` of the timer `key`,
        `writePin(out, ...)` and the move to `next`.  `a` is the record at
        the start of the pass, since when only Stop pulses were written.
        In the mid-stop (state 3) the countdown also reads CloseLmt. */
    method Fire(key: string, out: OutPin, next: int, ghost a: seq<PinWrite>) returns (ghost ticks: nat)
      requires Valid() && Safe() && key in timers && Motor(out) && ExtendsWith(a, writes, {})
      requires state == 3 ==> LimitOf(out) != CloseLmt
      modifies this`state, this`shown, this`pins, this`irqs, this`stopRequest, this`levels, this`writes, this`stopMark
      ensures Valid() && Safe()
      ensures MarkedSince(old(stopRequest), old(stopMark), old(writes))
      ensures state == next
      ensures ExtendsWith(a, writes, {out})
      ensures ticks <= Max0(timers[key]) && shown == old(shown) + Descending(timers[key], ticks)
      ensures timers[key] >= 1 ==> ticks >= 1
      ensures !stopRequest ==> PulseOf(a, writes, out, !Sample(old(pins[LimitOf(out)]), 0))
      ensures !stopRequest && old(state) != 3 ==> pins == Consumed(old(pins), LimitOf(out), 1)
      ensures !stopRequest && old(state) == 3 ==>
        pins == Consumed(Consumed(old(pins), CloseLmt, CountDownReads(old(pins[CloseLmt]), timers[key])), LimitOf(out), 1)
      ensures StopFrom(old(stopRequest), old(irqs), stopRequest, irqs)
    {
      ghost var w0, v0, p0 := writes, IrqView(), pins;
      ghost var s0, m0 := stopRequest, stopMark;
      ghost var polls;
      ticks, polls := LcdCountDown(timers[key]);
      PollsOnStop(v0, polls);
      ExtendsTrans(a, w0, writes, {}, {});
      assert pins[LimitOf(out)] == p0[LimitOf(out)];
      ViewStop(v0, IrqView(), polls);
      ghost var s1, m1, w1, q1 := stopRequest, stopMark, writes, irqs;
      PulseMotor(out, a);
      assert !stopRequest ==> !s1;
      MarkTrans(s0, m0, w0, s1, m1, w1, stopRequest, stopMark, writes);
      StopFromTrans(s0, old(irqs), s1, q1, stopRequest, irqs);
      state := next;
    }

    /** States 1, 2 and 4 of `Logic_loop`: when the limit switch `lmt` is
        confirmed, count down the timer `key`, pulse `out` and go to `next`. */
    method LimitPass(lmt: InPin, key: string, out: OutPin, next: int) returns (fired: bool, ghost ticks: nat)
      requires Valid() && Safe() && key in timers && Motor(out) && LimitOf(out) != lmt && state != 3
      modifies this`state, this`shown, this`pins, this`irqs, this`stopRequest, this`levels, this`writes, this`stopMark
      ensures Valid() && Safe()
      ensures MarkedSince(old(stopRequest), old(stopMark), old(writes))
      ensures fired == old(Heard(lmt))
      ensures fired && !stopRequest ==> PulseOf(old(writes), writes, out, !Sample(old(pins[LimitOf(out)]), 0))
      ensures state == if fired then next else old(state)
      ensures ExtendsWith(old(writes), writes, if fired then {out} else {})
      ensures fired ==> ticks <= Max0(timers[key]) && shown == old(shown) + Descending(timers[key], ticks)
      ensures fired && timers[key] >= 1 ==> ticks >= 1
      ensures !fired ==> shown == old(shown)
      ensures !stopRequest ==>
        pins == if fired then Consumed(Consumed(old(pins), lmt, 1), LimitOf(out), 1) else Consumed(old(pins), lmt, 1)
      ensures StopFrom(old(stopRequest), old(irqs), stopRequest, irqs)
    {
      ghost var w0, p0 := writes, pins;
      ghost var s0, m0 := stopRequest, stopMark;
      PollsOnStop(IrqView(), ReadPolls());
      fired := ReadInput(lmt);
      ticks := 0;
      if fired {
        ghost var s1, m1, w1, q1 := stopRequest, stopMark, writes, irqs;
        assert pins[LimitOf(out)] == p0[LimitOf(out)];
        ticks := Fire(key, out, next, w0);
        MarkTrans(s0, m0, w0, s1, m1, w1, stopRequest, stopMark, writes);
        StopFromTrans(s0, old(irqs), s1, q1, stopRequest, irqs);
      }
    }

    /** State 3 of `Logic_loop`, the mid-stop: count down Mid (cut short
        when the close limit reads high), pulse Open and go to 4. */
    method MidPass() returns (ghost ticks: nat)
      requires Valid() && Safe() && "Mid" in timers && state == 3
      modifies this`state, this`shown, this`pins, this`irqs, this`stopRequest, this`levels, this`writes, this`stopMark
      ensures Valid() && Safe()
      ensures MarkedSince(old(stopRequest), old(stopMark), old(writes))
      ensures state == 4
      ensures ExtendsWith(old(writes), writes, {OpenOut})
      ensures ticks <= Max0(timers["Mid"]) && shown == old(shown) + Descending(timers["Mid"], ticks)
      ensures timers["Mid"] >= 1 ==> ticks >= 1
      ensures !stopRequest ==> PulseOf(old(writes), writes, OpenOut, !Sample(old(pins[OpenLmt]), 0))
      ensures !stopRequest ==>
        pins == Consumed(Consumed(old(pins), CloseLmt, CountDownReads(old(pins[CloseLmt]), timers["Mid"])), OpenLmt, 1)
      ensures StopFrom(old(stopRequest), old(irqs), stopRequest, irqs)
    {
      ticks := Fire("Mid", OpenOut, 4, writes);
    }

    /** One pass of the `while not stop_request` loop of `Logic_loop`.  The
        new state is NextState of the reads the pass starts from; when the
        pass fires only the Stop output and the motor output it drives
        are written, the countdown of its timer is shown, and any other
        pass writes only Stop pulses.  With no stop pending at its end the
        pass has left the streams PassPins of those it started from.  A
        state outside 0..4 (the firmware prints ERREUR) changes nothing. */
    method Step() returns (ghost ticks: nat)
      requires Valid() && Safe() && TimersReady()
      modifies this`state, this`shown, this`pins, this`irqs, this`stopRequest, this`levels, this`writes, this`stopMark
      ensures Valid() && Safe()
      ensures MarkedSince(old(stopRequest), old(stopMark), old(writes))
      ensures state == NextState(rev, old(state), old(CurrentReads()), timers["Mid"])
      ensures Fires(old(state), old(CurrentReads())) ==>
        ExtendsWith(old(writes), writes, {DrivenPin(old(state), old(CurrentReads()))})
      ensures !Fires(old(state), old(CurrentReads())) ==> ExtendsWith(old(writes), writes, {})
      ensures Fires(old(state), old(CurrentReads())) && !stopRequest ==>
        var out := DrivenPin(old(state), old(CurrentReads()));
        PulseOf(old(writes), writes, out, !Sample(old(pins[LimitOf(out)]), 0))
      ensures 1 <= old(state) <= 4 && Fires(old(state), old(CurrentReads())) ==>
        var d := timers[TimerOf(old(state))];
        ticks <= Max0(d) && shown == old(shown) + Descending(d, ticks) && (d >= 1 ==> ticks >= 1)
      ensures !(1 <= old(state) <= 4 && Fires(old(state), old(CurrentReads()))) ==> shown == old(shown)
      ensures !stopRequest ==> pins == PassPins(rev, old(state), old(pins), timers["Mid"])
      ensures !(0 <= old(state) <= 4) ==> pins == old(pins) && IrqView() == old(IrqView())
      ensures StopFrom(old(stopRequest), old(irqs), stopRequest, irqs)
    {
      ticks := 0;
      if state == 0 {
        IdlePass();
      } else if state == 1 {
        var _, t := LimitPass(CloseLmt, "Cls", OpenOut, 2);
        ticks := t;
      } else if state == 2 {
        var _, t := LimitPass(OpenLmt, "Opn1", CloseOut, if rev != V01 && timers["Mid"] == 0 then 1 else 3);
        ticks := t;
      } else if state == 3 {
        ticks := MidPass();
      } else if state == 4 {
        var _, t := LimitPass(OpenLmt, "Opn2", CloseOut, 1);
        ticks := t;
      } else {
        StopStill(stopRequest, irqs);
      }
    }

    /** `Logic_loop`: marks the controller running and makes passes while no
        stop is pending.  The firmware loops until a stop arrives; here at
        most `rounds` passes are made.  `rs` records the reads each pass
        started from and `ps` the pin streams at the start of each pass and
        after the last: they form a Run from the streams given to the
        streams left, the state is the final state of the run of NextState
        over those reads, and only the motor outputs and Stop are written. */
    method LogicLoop(rounds: nat) returns (steps: nat, ghost rs: seq<Reads>, ghost ps: seq<map<InPin, seq<bool>>>)
      requires Valid() && Safe() && TimersReady()
      modifies this`isRunning, this`state, this`shown, this`pins, this`irqs, this`stopRequest, this`levels, this`writes, this`stopMark
      ensures Valid() && Safe() && isRunning
      ensures MarkedSince(old(stopRequest), old(stopMark), old(writes))
      ensures steps == |rs| <= rounds
      ensures stopRequest || steps == rounds
      ensures old(stopRequest) ==> steps == 0 && state == old(state) && pins == old(pins) && IrqView() == old(IrqView())
      ensures Run(rev, timers["Mid"], old(state), rs, ps, !stopRequest) && ps[0] == old(pins) && ps[|rs|] == pins
      ensures state == Final(rev, old(state), rs, timers["Mid"])
      ensures ExtendsWith(old(writes), writes, {OpenOut, CloseOut})
      ensures StopFrom(old(stopRequest), old(irqs), stopRequest, irqs)
    {
      isRunning := true;
      StopStill(stopRequest, irqs);
      steps, rs, ps := 0, [], [pins];
      while !stopRequest && steps < rounds
        invariant Valid() && Safe() && MarkedSince(old(stopRequest), old(stopMark), old(writes))
        invariant StopFrom(old(stopRequest), old(irqs), stopRequest, irqs)
        invariant isRunning && steps == |rs| <= rounds
        invariant Run(rev, timers["Mid"], old(state), rs, ps, !stopRequest) && ps[0] == old(pins) && ps[|rs|] == pins
        invariant state == Final(rev, old(state), rs, timers["Mid"])
        invariant ExtendsWith(old(writes), writes, {OpenOut, CloseOut})
        invariant old(stopRequest) ==> steps == 0 && state == old(state) && pins == old(pins) && IrqView() == old(IrqView())
      {
        ghost var r := LoopPass(old(state), old(stopRequest), old(stopMark), old(writes), old(irqs), rs, ps);
        rs, ps := rs + [r], ps + [pins];
        steps := steps + 1;
      }
    }

    /** One pass of the loop of `Logic_loop`, with what the loop keeps
        since it started in state st0, with records s0, m0, w0 and the
        oracle q0: the run grows by the reads the pass starts from and the
        streams it leaves. */
    method LoopPass(ghost st0: int, ghost s0: bool, ghost m0: nat, ghost w0: seq<PinWrite>, ghost q0: seq<bool>,
                    ghost rs: seq<Reads>, ghost ps: seq<map<InPin, seq<bool>>>) returns (ghost r: Reads)
      requires Valid() && Safe() && TimersReady() && !stopRequest
      requires MarkFrame(s0, m0, w0, stopRequest, stopMark, writes) && StopFrom(s0, q0, stopRequest, irqs)
      requires Run(rev, timers["Mid"], st0, rs, ps, true) && ps[|rs|] == pins
      requires state == Final(rev, st0, rs, timers["Mid"])
      requires ExtendsWith(w0, writes, {OpenOut, CloseOut})
      modifies this`state, this`shown, this`pins, this`irqs, this`stopRequest, this`levels, this`writes, this`stopMark
      ensures Valid() && Safe()
      ensures MarkFrame(s0, m0, w0, stopRequest, stopMark, writes) && StopFrom(s0, q0, stopRequest, irqs)
      ensures Run(rev, timers["Mid"], st0, rs + [r], ps + [pins], !stopRequest)
      ensures state == Final(rev, st0, rs + [r], timers["Mid"])
      ensures ExtendsWith(w0, writes, {OpenOut, CloseOut})
    {
      r := CurrentReads();
      ghost var s, w := state, writes;
      ghost var s1, m1, q1 := stopRequest, stopMark, irqs;
      var _ := Step();
      MarkTrans(s0, m0, w0, s1, m1, w, stopRequest, stopMark, writes);
      StopFromTrans(s0, q0, s1, q1, stopRequest, irqs);
      FinalSnoc(rev, st0, rs, r, timers["Mid"]);
      RunSnoc(rev, timers["Mid"], st0, rs, ps, pins, !stopRequest);
      if Fires(s, r) {
        ExtendsWeaken(w, writes, {DrivenPin(s, r)}, {OpenOut, CloseOut});
      } else {
        ExtendsWeaken(w, writes, {}, {OpenOut, CloseOut});
      }
      ExtendsTrans(w0, w, writes, {OpenOut, CloseOut}, {OpenOut, CloseOut});
    }

    /** The start buttons of `main`'s loop: Close, and Open only when
        Close is not confirmed.  The Prog stream is left as it was. */
    method ReadStart() returns (go: bool)
      requires Valid() && Safe()
      modifies this`pins, this`irqs, this`stopRequest, this`levels, this`writes, this`stopMark
      ensures Valid() && Safe()
      ensures MarkedSince(old(stopRequest), old(stopMark), old(writes))
      ensures go == (old(Heard(CloseBtn)) || old(Heard(OpenBtn)))
      ensures pins == if old(Heard(CloseBtn)) then Consumed(old(pins), CloseBtn, 1)
                      else Consumed(Consumed(old(pins), CloseBtn, 1), OpenBtn, 1)
      ensures Heard(ProgBtn) == old(Heard(ProgBtn))
      ensures StopFrom(old(stopRequest), old(irqs), stopRequest, irqs)
    {
      ghost var o := Heard(OpenBtn);
      go := ReadInput(CloseBtn);
      if !go {
        assert Heard(OpenBtn) == o;
        ghost var s1, m1, w1, q1 := stopRequest, stopMark, writes, irqs;
        go := ReadInput(OpenBtn);
        MarkTrans(old(stopRequest), old(stopMark), old(writes), s1, m1, w1, stopRequest, stopMark, writes);
        StopFromTrans(old(stopRequest), old(irqs), s1, q1, stopRequest, irqs);
      }
    }

    /** The `if not is_running` branch of `main`'s loop: a confirmed Close
        or Open (Open read only when Close is not) starts `Logic_loop`, and
        otherwise a confirmed Prog asks for the programming screens (`prog`,
        run by the caller).  `rs` and `ps` are the run of `Logic_loop`
        (empty when it did not run), from the streams the button reads
        left. */
    method Dispatch(rounds: nat) returns (prog: bool, steps: nat, ghost rs: seq<Reads>, ghost ps: seq<map<InPin, seq<bool>>>)
      requires Valid() && Safe() && TimersReady() && !isRunning
      modifies this`isRunning, this`state, this`shown, this`pins, this`irqs, this`stopRequest, this`levels, this`writes, this`stopMark
      ensures Valid() && Safe()
      ensures MarkedSince(old(stopRequest), old(stopMark), old(writes))
      ensures prog <==> !old(Heard(CloseBtn)) && !old(Heard(OpenBtn)) && old(Heard(ProgBtn))
      ensures old(Heard(CloseBtn)) || old(Heard(OpenBtn)) ==> !prog && (stopRequest || (isRunning && steps == rounds))
      ensures steps == |rs| <= rounds
      ensures steps > 0 ==> old(Heard(CloseBtn)) || old(Heard(OpenBtn))
      ensures !old(Heard(CloseBtn)) && !old(Heard(OpenBtn)) ==>
        steps == 0 && pins == Consumed(Consumed(Consumed(old(pins), CloseBtn, 1), OpenBtn, 1), ProgBtn, 1)
      ensures Run(rev, timers["Mid"], old(state), rs, ps, !stopRequest) && ps[|rs|] == pins
      ensures old(Heard(CloseBtn)) || old(Heard(OpenBtn)) ==>
        ps[0] == if old(Heard(CloseBtn)) then Consumed(old(pins), CloseBtn, 1)
                 else Consumed(Consumed(old(pins), CloseBtn, 1), OpenBtn, 1)
      ensures state == Final(rev, old(state), rs, timers["Mid"])
      ensures StopFrom(old(stopRequest), old(irqs), stopRequest, irqs)
    {
      prog, steps, rs, ps := false, 0, [], [pins];
      var go := ReadStart();
      ghost var s2, m2, w2, q2 := stopRequest, stopMark, writes, irqs;
      if go {
        steps, rs, ps := LogicLoop(rounds);
      } else {
        prog := ReadInput(ProgBtn);
        ps := [pins];
      }
      MarkTrans(old(stopRequest), old(stopMark), old(writes), s2, m2, w2, stopRequest, stopMark, writes);
      StopFromTrans(old(stopRequest), old(irqs), s2, q2, stopRequest, irqs);
    }

    /** One pass of the `while True` loop of `main`: Dispatch when the door
        is not running, while a running controller reads nothing.
        `stopped` says that a stop was pending at the end of the pass;
        `initialize` then puts the controller back at state 0 with the
        outputs low.  Until then the stop interlock held. */
    method MainPass(rounds: nat) returns (prog: bool, steps: nat, ghost stopped: bool, ghost rs: seq<Reads>, ghost ps: seq<map<InPin, seq<bool>>>)
      requires Valid() && Safe() && TimersReady()
      modifies this`isRunning, this`state, this`shown, this`pins, this`irqs, this`stopRequest, this`levels, this`writes, this`stopMark, this`timers
      ensures Valid() && Safe() && TimersReady() && !stopRequest
      ensures Interlocked(stopped, stopMark, writes)
      ensures MarkFrame(old(stopRequest), old(stopMark), old(writes), stopped, stopMark, writes)
      ensures StopFrom(old(stopRequest), old(irqs), stopped, irqs)
      ensures prog <==> !old(isRunning) && !old(Heard(CloseBtn)) && !old(Heard(OpenBtn)) && old(Heard(ProgBtn))
      ensures !old(isRunning) && (old(Heard(CloseBtn)) || old(Heard(OpenBtn))) ==>
        !prog && (stopped || (isRunning && steps == rounds))
      ensures steps > 0 ==> !old(isRunning) && (old(Heard(CloseBtn)) || old(Heard(OpenBtn)))
      ensures steps == |rs| <= rounds
      ensures old(isRunning) ==> steps == 0 && !prog && stopped == old(stopRequest) && pins == old(pins)
      ensures !old(isRunning) && !old(Heard(CloseBtn)) && !old(Heard(OpenBtn)) ==>
        steps == 0 && pins == Consumed(Consumed(Consumed(old(pins), CloseBtn, 1), OpenBtn, 1), ProgBtn, 1)
      ensures Run(rev, old(timers)["Mid"], old(state), rs, ps, !stopped) && ps[|rs|] == pins
      ensures !old(isRunning) && (old(Heard(CloseBtn)) || old(Heard(OpenBtn))) ==>
        ps[0] == if old(Heard(CloseBtn)) then Consumed(old(pins), CloseBtn, 1)
                 else Consumed(Consumed(old(pins), CloseBtn, 1), OpenBtn, 1)
      ensures !stopped ==> state == Final(rev, old(state), rs, old(timers)["Mid"])
      ensures old(stopRequest) ==> stopped
      ensures stopped ==> state == 0 && !isRunning && levels == AllLow
      ensures stopped ==> timers == if rev != V01 && old(timers)["Mid"] == 0 then old(timers)["Opn2" := 0] else old(timers)
      ensures !stopped ==> timers == old(timers)
    {
      prog, steps, rs, ps := false, 0, [], [pins];
      if !isRunning {
        prog, steps, rs, ps := Dispatch(rounds);
      } else {
        StopStill(stopRequest, irqs);
      }
      ghost var s3, m3, w3 := stopRequest, stopMark, writes;
      stopped := Recover();
      MarkTrans(old(stopRequest), old(stopMark), old(writes), s3, m3, w3, stopped, stopMark, writes);
    }

    /** The end of a pass of `main`'s loop: a pending stop request runs
        `initialize`, which writes every output low and so keeps the stop
        interlock of the request it clears; otherwise nothing happens. */
    method Recover() returns (ghost stopped: bool)
      requires Safe() && TimersReady()
      modifies this`state, this`stopRequest, this`isRunning, this`levels, this`writes, this`timers
      ensures TimersReady() && Safe() && !stopRequest
      ensures stopped == old(stopRequest)
      ensures Interlocked(stopped, stopMark, writes)
      ensures MarkFrame(stopped, stopMark, old(writes), stopped, stopMark, writes)
      ensures stopped ==> state == 0 && !isRunning && levels == AllLow
      ensures stopped ==> timers == if rev != V01 && old(timers)["Mid"] == 0 then old(timers)["Opn2" := 0] else old(timers)
      ensures !stopped ==> state == old(state) && isRunning == old(isRunning) && levels == old(levels)
      ensures !stopped ==> writes == old(writes) && timers == old(timers)
    {
      stopped := stopRequest;
      if stopRequest {
        Initialize();
        MarkQuiet(stopped, stopMark, old(writes), [PinWrite(OpenOut, 0), PinWrite(CloseOut, 0), PinWrite(StopOut, 0), PinWrite(SpareOut, 0)]);
      }
    }
  }
}
