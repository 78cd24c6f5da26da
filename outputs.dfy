/** The output side of the controller and what the stop-button interrupt
    does to it.  Every write to an output pin is recorded in order, and the
    level last written to each pin is kept.

    The interrupt is an oracle: a stream with one entry per sleep of the
    main flow, saying whether `stop_signal_handler` ran during that sleep.
    An exhausted oracle never fires. */
module Outputs {
  import opened Inputs

  datatype PinWrite = PinWrite(pin: OutPin, level: int)

  /** The levels last written to the four output pins. */
  datatype Levels = Levels(open: int, close: int, stop: int, spare: int) {
    function Get(p: OutPin): int {
      match p
      case OpenOut => open
      case CloseOut => close
      case StopOut => stop
      case SpareOut => spare
    }

    function Set(p: OutPin, v: int): (r: Levels)
      ensures r.Get(p) == v
      ensures forall q :: q != p ==> r.Get(q) == Get(q)
    {
      match p
      case OpenOut => this.(open := v)
      case CloseOut => this.(close := v)
      case StopOut => this.(stop := v)
      case SpareOut => this.(spare := v)
    }
  }

  const AllLow := Levels(0, 0, 0, 0)

  /** What the stop handler writes: the Stop output pulsed high then low. */
  const StopPulse := [PinWrite(StopOut, 1), PinWrite(StopOut, 0)]

  predicate Motor(p: OutPin) {
    p == OpenOut || p == CloseOut
  }

  /** The limit switch that blocks a motor output. */
  function LimitOf(p: OutPin): InPin
    requires Motor(p)
  {
    if p == OpenOut then OpenLmt else CloseLmt
  }

  /** Everything the interrupt can touch: the oracle, the stop request, the
      write record and the output levels. */
  datatype IrqSide = IrqSide(irqs: seq<bool>, stop: bool, writes: seq<PinWrite>, levels: Levels)

  /** `Output[p].value(level)`. */
  function Drive(v: IrqSide, p: OutPin, level: int): IrqSide {
    v.(writes := v.writes + [PinWrite(p, level)], levels := v.levels.Set(p, level))
  }

  /** A confirmed `stop_signal_handler`: the request raised and the Stop output pulsed. */
  function Handled(v: IrqSide): (r: IrqSide)
    ensures r.stop && r.irqs == v.irqs
    ensures r.writes == v.writes + StopPulse
    ensures r.levels.Get(StopOut) == 0 && forall p :: p != StopOut ==> r.levels.Get(p) == v.levels.Get(p)
  {
    Drive(Drive(v.(stop := true), StopOut, 1), StopOut, 0)
  }

  /** One sleep of the main flow: the oracle advances one poll and the
      handler runs if that poll fired. */
  function Poll(v: IrqSide): (r: IrqSide)
    ensures r.irqs == Drop(v.irqs, 1)
    ensures r.stop == (v.stop || Sample(v.irqs, 0))
    ensures r.writes == v.writes + (if Sample(v.irqs, 0) then StopPulse else [])
    ensures !Sample(v.irqs, 0) ==> r.levels == v.levels
  {
    var rest := v.(irqs := Drop(v.irqs, 1));
    if Sample(v.irqs, 0) then Handled(rest) else rest
  }

  /** n sleeps in a row. */
  function AfterPolls(v: IrqSide, n: nat): IrqSide {
    if n == 0 then v else Poll(AfterPolls(v, n - 1))
  }

  /** Whether one of the first n polls of the oracle q fired. */
  function Fired(q: seq<bool>, n: nat): bool {
    n > 0 && (Fired(q, n - 1) || Sample(q, n - 1))
  }

  /** Fired means what it says: some poll before n fired. */
  lemma {:induction false} FiredMeans(q: seq<bool>, n: nat)
    ensures Fired(q, n) <==> exists k :: 0 <= k < n && Sample(q, k)
  {
    if n > 0 {
      FiredMeans(q, n - 1);
    }
  }

  /** The first a + b polls fired iff one of the first a did or one of the
      b after them did. */
  lemma {:induction false} FiredSplit(q: seq<bool>, a: nat, b: nat)
    requires a <= |q|
    ensures Fired(q, a + b) == (Fired(q, a) || Fired(q[a..], b))
  {
    if b > 0 {
      FiredSplit(q, a, b - 1);
      assert Sample(q[a..], b - 1) == Sample(q, a + b - 1);
    }
  }

  /** Polls past the end of the oracle never fire. */
  lemma {:induction false} FiredPast(q: seq<bool>, n: nat)
    requires |q| <= n
    ensures Fired(q, n) == Fired(q, |q|)
    decreases n
  {
    if n > |q| {
      FiredPast(q, n - 1);
    }
  }

  /** How the stop request moves with the interrupt oracle from (s0, q0)
      to (s, q): the oracle is only consumed, and the request is pending
      exactly when it was or one of the polls consumed fired.  Only the
      handler, run from a poll, raises the request. */
  predicate StopFrom(s0: bool, q0: seq<bool>, s: bool, q: seq<bool>) {
    |q| <= |q0| && Suffix(q, q0) && s == (s0 || Fired(q0, |q0| - |q|))
  }

  /** q is what is left of q0 once some of it has been consumed. */
  predicate Suffix(q: seq<bool>, q0: seq<bool>)
    decreases |q0|
  {
    q == q0 || (|q| < |q0| && Suffix(q, q0[1..]))
  }

  lemma {:induction false} SuffixMeans(q: seq<bool>, q0: seq<bool>)
    ensures Suffix(q, q0) <==> |q| <= |q0| && q == q0[|q0| - |q|..]
    decreases |q0|
  {
    if |q| < |q0| {
      SuffixMeans(q, q0[1..]);
      assert q0[1..][|q0| - 1 - |q|..] == q0[|q0| - |q|..];
    } else if |q| == |q0| {
      assert q0[0..] == q0;
    }
  }

  /** Nothing polled, nothing raised. */
  lemma StopStill(s: bool, q: seq<bool>)
    ensures StopFrom(s, q, s, q)
  {
  }

  lemma StopFromTrans(s0: bool, q0: seq<bool>, s1: bool, q1: seq<bool>, s2: bool, q2: seq<bool>)
    requires StopFrom(s0, q0, s1, q1) && StopFrom(s1, q1, s2, q2)
    ensures StopFrom(s0, q0, s2, q2)
  {
    var a, b := |q0| - |q1|, |q1| - |q2|;
    SuffixMeans(q1, q0);
    SuffixMeans(q2, q1);
    assert q2 == q0[a + b..];
    SuffixMeans(q2, q0);
    FiredSplit(q0, a, b);
  }

  /** n sleeps move the request only as StopFrom allows. */
  lemma PolledStop(v: IrqSide, n: nat)
    ensures StopFrom(v.stop, v.irqs, AfterPolls(v, n).stop, AfterPolls(v, n).irqs)
  {
    AfterPollsClosed(v, n);
    if n > |v.irqs| {
      FiredPast(v.irqs, n);
      assert v.irqs[|v.irqs|..] == [];
    }
    SuffixMeans(AfterPolls(v, n).irqs, v.irqs);
  }

  /** The writes the handler makes over the first n polls: one Stop pulse
      per poll that fired. */
  function PulsesOf(q: seq<bool>, n: nat): (r: seq<PinWrite>)
    ensures !Fired(q, n) ==> r == []
  {
    if n == 0 then [] else PulsesOf(q, n - 1) + (if Sample(q, n - 1) then StopPulse else [])
  }

  /** The closed form of n sleeps: the oracle is n polls further on, the
      request is raised iff it was or a poll fired, one Stop pulse is
      recorded per poll that fired, and the Stop output is left low once any
      poll fired (Closed). */
  lemma {:induction false} AfterPollsClosed(v: IrqSide, n: nat)
    ensures AfterPolls(v, n) == Closed(v, n)
  {
    if n > 0 {
      AfterPollsClosed(v, n - 1);
      PollClosed(v, n - 1);
    }
  }

  /** The right-hand side of AfterPollsClosed. */
  function Closed(v: IrqSide, n: nat): IrqSide {
    IrqSide(Drop(v.irqs, n), v.stop || Fired(v.irqs, n), v.writes + PulsesOf(v.irqs, n),
            if Fired(v.irqs, n) then v.levels.Set(StopOut, 0) else v.levels)
  }

  /** One sleep more in the closed form. */
  lemma PollClosed(v: IrqSide, n: nat)
    ensures Poll(Closed(v, n)) == Closed(v, n + 1)
  {
    var c := Closed(v, n);
    DropDrop(v.irqs, n, 1);
    assert Sample(c.irqs, 0) == Sample(v.irqs, n);
    if Sample(v.irqs, n) {
      assert v.writes + PulsesOf(v.irqs, n + 1) == c.writes + StopPulse;
    }
  }

  /** `new_` extends `old_` by writes to the Stop output and the pins of m only. */
  predicate ExtendsWith(old_: seq<PinWrite>, new_: seq<PinWrite>, m: set<OutPin>) {
    |old_| <= |new_| && new_[..|old_|] == old_ &&
    forall i :: |old_| <= i < |new_| ==> new_[i].pin == StopOut || new_[i].pin in m
  }

  lemma ExtendsTrans(a: seq<PinWrite>, b: seq<PinWrite>, c: seq<PinWrite>, m: set<OutPin>, n: set<OutPin>)
    requires ExtendsWith(a, b, m) && ExtendsWith(b, c, n)
    ensures ExtendsWith(a, c, m + n)
  {
    assert c[..|a|] == c[..|b|][..|a|];
  }

  lemma ExtendsWeaken(a: seq<PinWrite>, b: seq<PinWrite>, m: set<OutPin>, n: set<OutPin>)
    requires ExtendsWith(a, b, m) && m <= n
    ensures ExtendsWith(a, b, n)
  {
  }

  /** The handler only ever writes the Stop output. */
  lemma {:induction false} PulsesOnStop(a: seq<PinWrite>, q: seq<bool>, n: nat)
    ensures ExtendsWith(a, a + PulsesOf(q, n), {})
  {
    if n > 0 {
      PulsesOnStop(a, q, n - 1);
      var b := a + PulsesOf(q, n - 1);
      var tail := if Sample(q, n - 1) then StopPulse else [];
      assert a + PulsesOf(q, n) == b + tail;
      assert ExtendsWith(b, b + tail, {});
      ExtendsTrans(a, b, b + tail, {}, {});
    }
  }

  /** Sleeping only adds Stop writes. */
  lemma PollsOnStop(v: IrqSide, n: nat)
    ensures ExtendsWith(v.writes, AfterPolls(v, n).writes, {})
  {
    AfterPollsClosed(v, n);
    PulsesOnStop(v.writes, v.irqs, n);
  }

  /** A raised request stays raised through any number of sleeps. */
  lemma PollsKeepStop(v: IrqSide, n: nat)
    ensures v.stop ==> AfterPolls(v, n).stop
    ensures AfterPolls(v, n).stop == (v.stop || Fired(v.irqs, n))
  {
    AfterPollsClosed(v, n);
  }

  /** `writePin(p)` when no stop is pending: drive p high if `drive`, sleep,
      then write p low. */
  function Pulsed(v: IrqSide, p: OutPin, drive: bool): IrqSide {
    Drive(Poll(if drive then Drive(v, p, 1) else v), p, 0)
  }

  /** The same, for a side reached from v by n sleeps. */
  lemma ViewStop(v: IrqSide, w: IrqSide, n: nat)
    requires w == AfterPolls(v, n)
    ensures StopFrom(v.stop, v.irqs, w.stop, w.irqs)
  {
    PolledStop(v, n);
  }

  /** writePin's one sleep moves the request only as StopFrom allows. */
  lemma PulsedStop(v: IrqSide, p: OutPin, drive: bool)
    ensures StopFrom(v.stop, v.irqs, Pulsed(v, p, drive).stop, Pulsed(v, p, drive).irqs)
  {
    var a := if drive then Drive(v, p, 1) else v;
    assert Poll(a) == AfterPolls(a, 1);
    PolledStop(a, 1);
  }

  /** writePin on a motor or spare output writes only p and the Stop
      output, ends with p written low, and writes 1 to p at most once, as
      its first write, exactly when it drives. */
  lemma PulsedWrites(v: IrqSide, p: OutPin, drive: bool)
    requires p != StopOut
    ensures ExtendsWith(v.writes, Pulsed(v, p, drive).writes, {p})
    ensures var w := Pulsed(v, p, drive).writes;
      w[|w| - 1] == PinWrite(p, 0) && Pulsed(v, p, drive).levels.Get(p) == 0 &&
      (drive <==> w[|v.writes|] == PinWrite(p, 1)) &&
      forall i :: |v.writes| < i < |w| ==> w[i] != PinWrite(p, 1)
  {
    var a := if drive then Drive(v, p, 1) else v;
    PollsOnStop(a, 1);
    assert Poll(a) == AfterPolls(a, 1);
  }

  /** Over the writes added since `old_`, motor output p was pulsed: its
      last write is 0, and one of them is a 1 exactly when `high`. */
  predicate PulseOf(old_: seq<PinWrite>, new_: seq<PinWrite>, p: OutPin, high: bool) {
    |old_| < |new_| && new_[|new_| - 1] == PinWrite(p, 0) &&
    ((exists i :: |old_| <= i < |new_| && new_[i] == PinWrite(p, 1)) <==> high)
  }

  /** Stop pulses, then writePin's pulse of p: p was pulsed, and driven high
      exactly when writePin drove it. */
  lemma PulseAfterStops(a: seq<PinWrite>, v: IrqSide, p: OutPin, drive: bool)
    requires ExtendsWith(a, v.writes, {}) && p != StopOut
    ensures PulseOf(a, Pulsed(v, p, drive).writes, p, drive)
  {
    PulsedWrites(v, p, drive);
    var w := Pulsed(v, p, drive).writes;
    if drive {
      assert w[|v.writes|] == PinWrite(p, 1);
    } else {
      forall i | |a| <= i < |w|
        ensures w[i] != PinWrite(p, 1)
      {
        if i < |v.writes| {
          assert w[i] == v.writes[i];
        }
      }
    }
  }
}
