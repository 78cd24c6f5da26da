/** The timer store and the `change_timers` screen of the two pico
    revisions: pico/harmonie_r0.5.py (R05) and pico/main.py (V01).
    Timers are merged from the file on load and written back whole.  The
    screen walks the timers in the dict's iteration order (`order`), Prog
    shows the next one, holding Up or Down steps its value once per
    confirmed reading, and a change is committed on the next Prog.

    Prog, Up and Down are sample streams as in the door controller.  The
    loop test is a stream of its own: the Stop input read raw in v0.1, the
    `stop_request` flag in r0.5. */
module PicoTimers {
  import opened Wrappers
  import opened Inputs
  import opened DoorLogic
  import opened EditRules
  import opened Settings

  /** The built-in timers of each revision. */
  function DefaultTimers(rev: Revision): map<string, int> {
    if rev == V01 then map["Opn1" := 5, "Opn2" := 5, "Cls" := 10, "Mid" := 9]
    else map["Opn1" := 5, "Cls" := 5, "Mid" := 6, "Opn2" := 8]
  }

  /** `prog_mode_delay` of both pico revisions. */
  const PicoProgDelay := 3

  /** One confirmed Up reading: wraps past 999 in r0.5, has no bound in v0.1. */
  function UpStep(rev: Revision, v: int): int {
    if rev == V01 then v + 1 else WrapUp(v)
  }

  /** One confirmed Down reading: wraps below 0 in r0.5, floors at 0 in v0.1. */
  function DownStep(rev: Revision, v: int): int {
    if rev == V01 then FloorDown(v) else WrapDown(v)
  }

  /** n Up steps in a row. */
  function Ups(rev: Revision, v: int, n: nat): int {
    if n == 0 then v else UpStep(rev, Ups(rev, v, n - 1))
  }

  /** n Down steps in a row. */
  function Downs(rev: Revision, v: int, n: nat): int {
    if n == 0 then v else DownStep(rev, Downs(rev, v, n - 1))
  }

  /** Holding Up for n readings in r0.5 adds n modulo 1000, so the value
      stays in 0..999. */
  lemma {:induction false} WrapHoldUp(rev: Revision, v: int, n: nat)
    requires rev != V01 && 0 <= v <= TimerMax
    ensures Ups(rev, v, n) == (v + n) % (TimerMax + 1)
  {
    if n > 0 {
      WrapHoldUp(rev, v, n - 1);
      WrapUpMod(v + n - 1);
    }
  }

  /** Holding Down for n readings in r0.5 subtracts n modulo 1000. */
  lemma {:induction false} WrapHoldDown(rev: Revision, v: int, n: nat)
    requires rev != V01 && 0 <= v <= TimerMax
    ensures Downs(rev, v, n) == (v - n) % (TimerMax + 1)
  {
    if n > 0 {
      WrapHoldDown(rev, v, n - 1);
      WrapDownMod(v - n + 1);
    }
  }

  lemma WrapUpMod(a: int)
    ensures WrapUp(a % (TimerMax + 1)) == (a + 1) % (TimerMax + 1)
  {
    ModStep(a, 1);
  }

  lemma WrapDownMod(a: int)
    ensures WrapDown(a % (TimerMax + 1)) == (a - 1) % (TimerMax + 1)
  {
    ModStep(a, -1);
  }

  /** (a % m + d) % m == (a + d) % m for the modulus 1000. */
  lemma ModStep(a: int, d: int)
    ensures (a % (TimerMax + 1) + d) % (TimerMax + 1) == (a + d) % (TimerMax + 1)
  {
    var m := TimerMax + 1;
    var q := a / m;
    assert a == q * m + a % m;
    assert a + d == q * m + (a % m + d);
    ModShift(a % m + d, q);
  }

  lemma ModShift(x: int, q: int)
    ensures (q * (TimerMax + 1) + x) % (TimerMax + 1) == x % (TimerMax + 1)
  {
  }

  /** In v0.1 holding Up for n readings adds n, and holding Down from a
      non-negative value subtracts n but not below 0. */
  lemma {:induction false} FloorHold(v: int, n: nat)
    requires v >= 0
    ensures Ups(V01, v, n) == v + n
    ensures Downs(V01, v, n) == Max0(v - n)
  {
    if n > 0 {
      FloorHold(v, n - 1);
    }
  }

  /** The number of high readings at the head of a stream. */
  function Leading(s: seq<bool>): (r: nat)
    ensures r <= |s|
  {
    if |s| > 0 && s[0] then 1 + Leading(s[1..]) else 0
  }

  /** Every timer is non-negative. */
  predicate Natural(m: map<string, int>) {
    forall k :: k in m ==> m[k] >= 0
  }

  /** The invariant each revision's editing keeps: 0..999 in r0.5, at
      least 0 in v0.1. */
  predicate Kept(rev: Revision, m: map<string, int>) {
    if rev == V01 then Natural(m) else InRange(m)
  }

  /** The value shown keeps the invariant of its revision. */
  predicate KeptValue(rev: Revision, v: int) {
    if rev == V01 then v >= 0 else 0 <= v <= TimerMax
  }

  /** The field shown once Prog has been read: as it was when Prog reads
      low; otherwise the first timer when none was shown, else the one
      after it (m: the timers after any commit). */
  function AfterProg(order: seq<string>, f: Option<Field<int>>, m: map<string, int>, prog: bool): Option<Field<int>>
    requires Lists(order, m) && (f.Some? ==> f.value.pos <= |order|)
  {
    if !prog then f else if f.None? then First(order, m) else Some(Advanced(order, f.value, m))
  }

  /** Prog pressed past the last timer, or with none: `next` raises
      StopIteration, the iterator restarts and the pass ends. */
  predicate Restarts(order: seq<string>, f: Option<Field<int>>, prog: bool) {
    prog && if f.None? then |order| == 0 else f.value.pos == |order|
  }

  /** Field h after holding Up on the stream up, then Down on the stream down. */
  function Held(rev: Revision, h: Field<int>, up: seq<bool>, down: seq<bool>): Field<int> {
    h.(value := Downs(rev, Ups(rev, h.value, Leading(up)), Leading(down)),
       modified := h.modified || Leading(up) + Leading(down) > 0)
  }

  /** The field one pass of the programming loop leaves, from field f on
      the timers m, with Prog read as prog and the Up and Down streams. */
  function PassField(rev: Revision, order: seq<string>, f: Option<Field<int>>, m: map<string, int>,
                     prog: bool, up: seq<bool>, down: seq<bool>): Option<Field<int>>
    requires Lists(order, m) && (f.Some? ==> f.value.pos <= |order|)
  {
    var h := AfterProg(order, f, m, prog);
    if Restarts(order, f, prog) || h.None? then h else Some(Held(rev, h.value, up, down))
  }

  /** The streams one pass leaves: one Prog sample; nothing more on a
      restart; with no field shown, the Up sample (and the Down sample when
      Up read low) before the error; otherwise the two holds. */
  function PassStreams(order: seq<string>, f: Option<Field<int>>, m: map<string, int>,
                       pins: map<InPin, seq<bool>>): map<InPin, seq<bool>>
    requires Lists(order, m) && (f.Some? ==> f.value.pos <= |order|)
    requires ProgBtn in pins && UpBtn in pins && DownBtn in pins
  {
    var prog := Sample(pins[ProgBtn], 0);
    var p := pins[ProgBtn := Drop(pins[ProgBtn], 1)];
    var up, down := pins[UpBtn], pins[DownBtn];
    if Restarts(order, f, prog) then p
    else if AfterProg(order, f, m, prog).None? then
      (if Sample(up, 0) then p[UpBtn := Drop(up, 1)] else p[UpBtn := Drop(up, 1)][DownBtn := Drop(down, 1)])
    else p[UpBtn := Drop(up, Leading(up) + 1)][DownBtn := Drop(down, Leading(down) + 1)]
  }

  /** Prog read high on a modified field: the pass commits it. */
  predicate Commits(f: Option<Field<int>>, m: map<InPin, seq<bool>>) {
    ProgBtn in m && Sample(m[ProgBtn], 0) && f.Some? && f.value.modified
  }

  /** Up or Down read high while no timer is shown and Prog read low:
      `value` is unbound and the pass raises. */
  predicate Crashes(f: Option<Field<int>>, m: map<InPin, seq<bool>>) {
    ProgBtn in m && UpBtn in m && DownBtn in m &&
    f.None? && !Sample(m[ProgBtn], 0) && (Sample(m[UpBtn], 0) || Sample(m[DownBtn], 0))
  }

  /** One pass of the programming loop, from field f, timers t and streams
      m, leaves field f2, timers t2 and streams m2: a commit writes only
      the shown key, the field is PassField over the committed timers and
      the streams are PassStreams. */
  predicate PassFrom(rev: Revision, order: seq<string>,
                     f: Option<Field<int>>, t: map<string, int>, m: map<InPin, seq<bool>>,
                     f2: Option<Field<int>>, t2: map<string, int>, m2: map<InPin, seq<bool>>) {
    Lists(order, t) && (f.Some? ==> f.value.pos <= |order|) && ProgBtn in m && UpBtn in m && DownBtn in m &&
    var prog := Sample(m[ProgBtn], 0);
    t2 == (if Commits(f, m) then t[f.value.key := f.value.value] else t) &&
    Lists(order, t2) &&
    f2 == PassField(rev, order, f, t2, prog, m[UpBtn], m[DownBtn]) &&
    m2 == PassStreams(order, f, t2, m)
  }

  /** A session of passes: pass i goes from the snapshot i to snapshot
      i + 1 of the field shown, the timers and the streams, and no pass
      before the last one raised. */
  predicate Passes(rev: Revision, order: seq<string>, fs: seq<Option<Field<int>>>,
                   ts: seq<map<string, int>>, ms: seq<map<InPin, seq<bool>>>) {
    |fs| == |ts| == |ms| > 0 &&
    forall i :: 0 <= i < |fs| - 1 ==>
      PassFrom(rev, order, fs[i], ts[i], ms[i], fs[i + 1], ts[i + 1], ms[i + 1]) &&
      (i < |fs| - 2 ==> !Crashes(fs[i], ms[i]))
  }

  /** A session grows by a pass that did not follow a raising one. */
  lemma PassesSnoc(rev: Revision, order: seq<string>, fs: seq<Option<Field<int>>>,
                   ts: seq<map<string, int>>, ms: seq<map<InPin, seq<bool>>>,
                   f: Option<Field<int>>, t: map<string, int>, m: map<InPin, seq<bool>>)
    requires Passes(rev, order, fs, ts, ms)
    requires |fs| > 1 ==> !Crashes(fs[|fs| - 2], ms[|fs| - 2])
    requires PassFrom(rev, order, fs[|fs| - 1], ts[|fs| - 1], ms[|fs| - 1], f, t, m)
    ensures Passes(rev, order, fs + [f], ts + [t], ms + [m])
  {
    var fs2, ts2, ms2 := fs + [f], ts + [t], ms + [m];
    var n := |fs|;
    forall i | 0 <= i < n
      ensures PassFrom(rev, order, fs2[i], ts2[i], ms2[i], fs2[i + 1], ts2[i + 1], ms2[i + 1])
      ensures i < n - 1 ==> !Crashes(fs2[i], ms2[i])
    {
      assert fs2[i] == fs[i] && ts2[i] == ts[i] && ms2[i] == ms[i];
      if i < n - 1 {
        assert fs2[i + 1] == fs[i + 1] && ts2[i + 1] == ts[i + 1] && ms2[i + 1] == ms[i + 1];
      }
    }
  }

  class TimerScreen {
    const rev: Revision
    /** The global `Timers`. */
    var timers: map<string, int>
    /** The settings file; None when it does not exist. */
    var file: Option<map<string, int>>
    var inProgMode: bool
    var pins: map<InPin, seq<bool>>
    /** The loop test of each pass. */
    var stops: seq<bool>

    ghost predicate Valid()
      reads this
    {
      rev != V71 && ProgBtn in pins && UpBtn in pins && DownBtn in pins
    }

    constructor (rev: Revision, file: Option<map<string, int>>, pins: map<InPin, seq<bool>>, stops: seq<bool>)
      requires rev != V71 && ProgBtn in pins && UpBtn in pins && DownBtn in pins
      ensures Valid()
      ensures this.rev == rev && timers == DefaultTimers(rev) && this.file == file && !inProgMode
      ensures this.pins == pins && this.stops == stops
    {
      this.rev := rev;
      timers := DefaultTimers(rev);
      this.file := file;
      inProgMode := false;
      this.pins := pins;
      this.stops := stops;
    }

    /** `load_file`: `Timers[p] = data[p]` for each key of the file, in the
        file dict's order; keys missing from the file keep their values.  A
        missing file raises OSError (ok false). */
    method LoadFile(order: seq<string>) returns (ok: bool)
      requires file.Some? ==> Lists(order, file.value)
      modifies this`timers
      ensures ok == file.Some?
      ensures timers == if ok then old(timers) + file.value else old(timers)
      ensures ok ==> forall k :: k in timers <==> k in old(timers) || k in file.value
      ensures ok ==> forall k :: k in timers ==> timers[k] == if k in file.value then file.value[k] else old(timers)[k]
    {
      if file.None? {
        return false;
      }
      ok := true;
      var data := file.value;
      for i := 0 to |order|
        invariant forall k :: k in timers <==> k in old(timers) || k in order[..i]
        invariant forall k :: k in timers ==> timers[k] == if k in order[..i] then data[k] else old(timers)[k]
      {
        assert order[..i + 1] == order[..i] + [order[i]];
        timers := timers[order[i] := data[order[i]]];
      }
      assert order[..|order|] == order;
    }

    /** `write_file`: the file gets the timers. */
    method WriteFile()
      modifies this`file
      ensures file == Some(timers)
    {
      file := Some(timers);
    }

    /** The start of `main`: load the file, or write it when it is missing
        (these revisions do not load it again). */
    method Boot(order: seq<string>)
      requires file.Some? ==> Lists(order, file.value)
      modifies this`timers, this`file
      ensures old(file).Some? ==> file == old(file) && timers == old(timers) + file.value
      ensures old(file).None? ==> file == Some(timers) && timers == old(timers)
    {
      var ok := LoadFile(order);
      if !ok {
        WriteFile();
      }
    }

    /** One reading of pin p. */
    method Sense(p: InPin) returns (high: bool)
      requires Valid() && p in pins
      modifies this`pins
      ensures Valid()
      ensures high == Sample(old(pins[p]), 0)
      ensures pins == old(pins)[p := Drop(old(pins[p]), 1)]
    {
      high := Sample(pins[p], 0);
      pins := pins[p := Drop(pins[p], 1)];
    }

    /** The press-and-hold loop: Prog read raw until PicoProgDelay readings
        in a row are high, then the programming mode.  The firmware waits
        for ever; here the wait also ends when the readings run out. */
    method HoldProg() returns (entered: bool, used: nat)
      requires Valid()
      modifies this`pins, this`inProgMode
      ensures Valid()
      ensures used <= |old(pins[ProgBtn])|
      ensures var s := old(pins[ProgBtn]);
        entered ==> HeldFor(s, used, PicoProgDelay) && forall n :: 0 <= n < used ==> !HeldFor(s, n, PicoProgDelay)
      ensures var s := old(pins[ProgBtn]);
        !entered ==> forall n :: 0 <= n <= |s| ==> !HeldFor(s, n, PicoProgDelay)
      ensures pins == old(pins)[ProgBtn := Drop(old(pins[ProgBtn]), used)]
      ensures inProgMode == (old(inProgMode) || entered)
    {
      entered, used := EnterProgMode(pins[ProgBtn], PicoProgDelay);
      pins := pins[ProgBtn := Drop(pins[ProgBtn], used)];
      if entered {
        inProgMode := true;
      }
    }

    /** `while readPin('Up')` (raw reads in v0.1): one step per high reading,
        up to and including the first low one. */
    method HoldUp(f: Field<int>) returns (g: Field<int>, ghost n: nat)
      requires Valid()
      modifies this`pins
      ensures Valid()
      ensures n == Leading(old(pins[UpBtn]))
      ensures pins == old(pins)[UpBtn := Drop(old(pins[UpBtn]), n + 1)]
      ensures g == f.(value := Ups(rev, f.value, n), modified := f.modified || n > 0)
    {
      ghost var s0 := pins[UpBtn];
      g, n := f, 0;
      var high := Sense(UpBtn);
      assert s0[0..] == s0;
      while high
        invariant Valid()
        invariant n <= |s0| && Leading(s0) == n + Leading(s0[n..])
        invariant high == Sample(s0, n)
        invariant pins == old(pins)[UpBtn := Drop(s0, n + 1)]
        invariant g == f.(value := Ups(rev, f.value, n), modified := f.modified || n > 0)
        decreases |s0| - n
      {
        assert s0[n..][1..] == s0[n + 1..];
        g := g.(value := UpStep(rev, g.value), modified := true);
        n := n + 1;
        high := Sense(UpBtn);
        DropDrop(s0, n, 1);
      }
    }

    /** `while readPin('Down')`, the mirror of HoldUp. */
    method HoldDown(f: Field<int>) returns (g: Field<int>, ghost n: nat)
      requires Valid()
      modifies this`pins
      ensures Valid()
      ensures n == Leading(old(pins[DownBtn]))
      ensures pins == old(pins)[DownBtn := Drop(old(pins[DownBtn]), n + 1)]
      ensures g == f.(value := Downs(rev, f.value, n), modified := f.modified || n > 0)
    {
      ghost var s0 := pins[DownBtn];
      g, n := f, 0;
      var high := Sense(DownBtn);
      assert s0[0..] == s0;
      while high
        invariant Valid()
        invariant n <= |s0| && Leading(s0) == n + Leading(s0[n..])
        invariant high == Sample(s0, n)
        invariant pins == old(pins)[DownBtn := Drop(s0, n + 1)]
        invariant g == f.(value := Downs(rev, f.value, n), modified := f.modified || n > 0)
        decreases |s0| - n
      {
        assert s0[n..][1..] == s0[n + 1..];
        g := g.(value := DownStep(rev, g.value), modified := true);
        n := n + 1;
        high := Sense(DownBtn);
        DropDrop(s0, n, 1);
      }
    }

    /** Holding Up, then holding Down, on a shown timer: the key stays, the
        value takes every step, and it stays in its revision's range. */
    method HoldKeys(f: Field<int>) returns (g: Field<int>, ghost ups: nat, ghost downs: nat)
      requires Valid()
      modifies this`pins
      ensures Valid()
      ensures ups == Leading(old(pins[UpBtn])) && downs == Leading(old(pins[DownBtn]))
      ensures pins == old(pins)[UpBtn := Drop(old(pins[UpBtn]), ups + 1)][DownBtn := Drop(old(pins[DownBtn]), downs + 1)]
      ensures g == f.(value := Downs(rev, Ups(rev, f.value, ups), downs), modified := f.modified || ups + downs > 0)
      ensures KeptValue(rev, f.value) ==> KeptValue(rev, g.value)
    {
      var h;
      h, ups := HoldUp(f);
      g, downs := HoldDown(h);
      if KeptValue(rev, f.value) {
        Keeps(h.value, f.value, ups, true);
        Keeps(g.value, h.value, downs, false);
      }
    }

    /** Holding a key keeps the value in its revision's range. */
    lemma Keeps(after: int, before: int, n: nat, up: bool)
      requires after == if up then Ups(rev, before, n) else Downs(rev, before, n)
      requires KeptValue(rev, before)
      ensures KeptValue(rev, after)
    {
      if rev == V01 {
        FloorHold(before, n);
      } else {
        if up {
          WrapHoldUp(rev, before, n);
        } else {
          WrapHoldDown(rev, before, n);
        }
      }
    }

    /** Up or Down read high before any timer was shown: `value` is unbound
        and the session ends with an error (crashed). */
    method Unshown() returns (crashed: bool)
      requires Valid()
      modifies this`pins
      ensures Valid()
      ensures crashed == (Sample(old(pins[UpBtn]), 0) || Sample(old(pins[DownBtn]), 0))
      ensures pins == if Sample(old(pins[UpBtn]), 0) then old(pins)[UpBtn := Drop(old(pins[UpBtn]), 1)]
                      else old(pins)[UpBtn := Drop(old(pins[UpBtn]), 1)][DownBtn := Drop(old(pins[DownBtn]), 1)]
    {
      crashed := Sense(UpBtn);
      if !crashed {
        crashed := Sense(DownBtn);
      }
    }

    /** `Timers.update({key : value})`, then the timers written to the file
        and loaded back, which leaves them as they are. */
    method Commit(order: seq<string>, key: string, value: int)
      requires Lists(order, timers) && key in timers
      modifies this`timers, this`file
      ensures timers == old(timers)[key := value] && file == Some(timers)
      ensures Lists(order, timers)
      ensures Kept(rev, old(timers)) && KeptValue(rev, value) ==> Kept(rev, timers)
    {
      if Kept(rev, timers) && KeptValue(rev, value) {
        KeptUpdate(rev, timers, key, value);
      }
      timers := timers[key := value];
      ListsUpdate(order, old(timers), key, value);
      WriteFile();
      var _ := LoadFile(order);
      assert timers + timers == timers;
    }

    /** Prog on the screen: a changed value is committed under its key
        only (`Timers.update`, write, load), then the next timer is shown.
        Past the last timer (or with no timers) `next` raises StopIteration
        (restarted): the iterator starts again and the pass ends there. */
    method ProgPress(order: seq<string>, f: Option<Field<int>>) returns (g: Option<Field<int>>, restarted: bool, committed: bool)
      requires Lists(order, timers) && (f.Some? ==> Tracks(order, f.value, timers))
      modifies this`timers, this`file
      ensures Lists(order, timers) && (g.Some? ==> Tracks(order, g.value, timers))
      ensures committed == (f.Some? && f.value.modified)
      ensures !committed ==> timers == old(timers) && file == old(file)
      ensures committed ==> timers == old(timers)[f.value.key := f.value.value] && file == Some(timers)
      ensures f.None? ==> g == First(order, timers) && restarted == (|order| == 0)
      ensures f.Some? ==> g == Some(Advanced(order, f.value, timers)) && restarted == (f.value.pos == |order|)
      ensures Kept(rev, old(timers)) && (f.Some? ==> KeptValue(rev, f.value.value)) ==>
        Kept(rev, timers) && (g.Some? ==> KeptValue(rev, g.value.value))
    {
      committed := f.Some? && f.value.modified;
      if committed {
        Commit(order, f.value.key, f.value.value);
      }
      if f.None? {
        g := First(order, timers);
        restarted := |order| == 0;
      } else {
        g := Some(Advanced(order, f.value, timers));
        restarted := f.value.pos == |order|;
      }
      if g.Some? && Kept(rev, timers) && g.value.value == timers[g.value.key] {
        KeptAt(rev, timers, g.value.key);
      }
    }

    /** One pass of the programming loop: Prog, then holding Up, then
        holding Down.  Up or Down before any timer is shown raises an error
        (crashed). */
    method Pass(order: seq<string>, f: Option<Field<int>>) returns (g: Option<Field<int>>, crashed: bool, committed: bool)
      requires Valid() && Lists(order, timers) && (f.Some? ==> Tracks(order, f.value, timers))
      modifies this`pins, this`timers, this`file
      ensures Valid() && Lists(order, timers) && (g.Some? ==> Tracks(order, g.value, timers))
      ensures !committed ==> timers == old(timers) && file == old(file)
      ensures committed ==> f.Some? && f.value.modified && timers == old(timers)[f.value.key := f.value.value] && file == Some(timers)
      ensures crashed <==> f.None? && !Sample(old(pins[ProgBtn]), 0) && (Sample(old(pins[UpBtn]), 0) || Sample(old(pins[DownBtn]), 0))
      ensures crashed ==> g.None?
      ensures Kept(rev, old(timers)) && (f.Some? ==> KeptValue(rev, f.value.value)) ==>
        Kept(rev, timers) && (g.Some? ==> KeptValue(rev, g.value.value))
      ensures committed == (Sample(old(pins[ProgBtn]), 0) && f.Some? && f.value.modified)
      ensures g == PassField(rev, order, f, timers, Sample(old(pins[ProgBtn]), 0), old(pins[UpBtn]), old(pins[DownBtn]))
      ensures pins == PassStreams(order, f, timers, old(pins))
      ensures PassFrom(rev, order, f, old(timers), old(pins), g, timers, pins)
    {
      var p := Sense(ProgBtn);
      var restarted;
      g, restarted, committed := f, false, false;
      if p {
        g, restarted, committed := ProgPress(order, f);
      }
      assert g == AfterProg(order, f, timers, p) && restarted == Restarts(order, f, p);
      g, crashed := Holds(order, g, restarted);
    }

    /** The rest of a pass once Prog has been read: nothing more after a
        restart; with no timer shown, Up or Down high is the error; else
        holding Up, then holding Down, on the shown timer. */
    method Holds(order: seq<string>, f: Option<Field<int>>, restarted: bool) returns (g: Option<Field<int>>, crashed: bool)
      requires Valid() && Lists(order, timers) && (f.Some? ==> Tracks(order, f.value, timers))
      modifies this`pins
      ensures Valid() && (g.Some? ==> Tracks(order, g.value, timers))
      ensures g == if restarted || f.None? then f else Some(Held(rev, f.value, old(pins[UpBtn]), old(pins[DownBtn])))
      ensures crashed == (!restarted && f.None? && (Sample(old(pins[UpBtn]), 0) || Sample(old(pins[DownBtn]), 0)))
      ensures f.Some? && KeptValue(rev, f.value.value) ==> g.Some? && KeptValue(rev, g.value.value)
      ensures var up, down := old(pins[UpBtn]), old(pins[DownBtn]);
        pins == if restarted then old(pins)
                else if f.None? then
                  (if Sample(up, 0) then old(pins)[UpBtn := Drop(up, 1)] else old(pins)[UpBtn := Drop(up, 1)][DownBtn := Drop(down, 1)])
                else old(pins)[UpBtn := Drop(up, Leading(up) + 1)][DownBtn := Drop(down, Leading(down) + 1)]
    {
      g, crashed := f, false;
      if restarted {
      } else if f.None? {
        crashed := Unshown();
      } else {
        var h, _, _ := HoldKeys(f.value);
        g := Some(h);
      }
    }

    /** One turn of `while not Input['Stop'].value()`: the loop test, and a
        pass when it reads false; nothing else changes when it reads true. */
    method Round(order: seq<string>, f: Option<Field<int>>) returns (stop: bool, g: Option<Field<int>>, crashed: bool, committed: bool)
      requires Valid() && Lists(order, timers) && (f.Some? ==> Tracks(order, f.value, timers))
      modifies this`pins, this`timers, this`file, this`stops
      ensures Valid() && Lists(order, timers) && (g.Some? ==> Tracks(order, g.value, timers))
      ensures stop == Sample(old(stops), 0) && stops == Drop(old(stops), 1)
      ensures stop ==> g == f && !crashed && !committed && pins == old(pins) && timers == old(timers) && file == old(file)
      ensures !stop ==> PassFrom(rev, order, f, old(timers), old(pins), g, timers, pins)
      ensures !stop ==> crashed == Crashes(f, old(pins))
      ensures !stop ==> committed == Commits(f, old(pins))
      ensures !committed ==> timers == old(timers) && file == old(file)
      ensures committed ==> file == Some(timers)
      ensures Kept(rev, old(timers)) && (f.Some? ==> KeptValue(rev, f.value.value)) ==>
        Kept(rev, timers) && (g.Some? ==> KeptValue(rev, g.value.value))
    {
      stop := Sample(stops, 0);
      stops := Drop(stops, 1);
      g, crashed, committed := f, false, false;
      if !stop {
        g, crashed, committed := Pass(order, f);
      }
    }

    /** The snapshots of a session so far: its passes, the last snapshot
        is the field shown, the timers and the streams now, and `saved`
        says whether some pass committed. */
    ghost predicate Session(order: seq<string>, f: Option<Field<int>>, fs: seq<Option<Field<int>>>,
                            ts: seq<map<string, int>>, ms: seq<map<InPin, seq<bool>>>, saved: bool)
      reads this`timers, this`pins
    {
      Passes(rev, order, fs, ts, ms) && fs[|fs| - 1] == f && ts[|fs| - 1] == timers && ms[|fs| - 1] == pins &&
      (saved <==> exists i :: 0 <= i < |fs| - 1 && Commits(fs[i], ms[i]))
    }

    /** A Round inside a session: when the loop test reads false the pass
        made is appended to the snapshots. */
    method SessionRound(order: seq<string>, f: Option<Field<int>>, ghost fs: seq<Option<Field<int>>>,
                        ghost ts: seq<map<string, int>>, ghost ms: seq<map<InPin, seq<bool>>>, ghost saved: bool)
      returns (stop: bool, g: Option<Field<int>>, crashed: bool, committed: bool,
               ghost fs2: seq<Option<Field<int>>>, ghost ts2: seq<map<string, int>>, ghost ms2: seq<map<InPin, seq<bool>>>)
      requires Valid() && Lists(order, timers) && (f.Some? ==> Tracks(order, f.value, timers))
      requires Session(order, f, fs, ts, ms, saved)
      requires |fs| > 1 ==> !Crashes(fs[|fs| - 2], ms[|fs| - 2])
      modifies this`pins, this`timers, this`file, this`stops
      ensures Valid() && Lists(order, timers) && (g.Some? ==> Tracks(order, g.value, timers))
      ensures stop == Sample(old(stops), 0) && stops == Drop(old(stops), 1)
      ensures stop ==> g == f && !crashed && !committed && pins == old(pins) && timers == old(timers) && file == old(file)
      ensures stop ==> fs2 == fs && ts2 == ts && ms2 == ms
      ensures !stop ==> fs2 == fs + [g] && ts2 == ts + [timers] && ms2 == ms + [pins]
      ensures !stop ==> Session(order, g, fs2, ts2, ms2, saved || committed) && crashed == Crashes(f, old(pins))
      ensures !committed ==> timers == old(timers) && file == old(file)
      ensures committed ==> file == Some(timers)
      ensures Kept(rev, old(timers)) && (f.Some? ==> KeptValue(rev, f.value.value)) ==>
        Kept(rev, timers) && (g.Some? ==> KeptValue(rev, g.value.value))
    {
      ghost var m0 := pins;
      stop, g, crashed, committed := Round(order, f);
      fs2, ts2, ms2 := fs, ts, ms;
      if !stop {
        PassesSnoc(rev, order, fs, ts, ms, g, timers, pins);
        SavedSnoc(fs, ms, f, m0, g, pins, saved, committed);
        fs2, ts2, ms2 := fs + [g], ts + [timers], ms + [pins];
      }
    }

    /** `change_timers`: the press-and-hold wait, then the programming
        loop.  Without the wait completed nothing else is read or changed. */
    method ChangeTimers(order: seq<string>, rounds: nat)
      returns (entered: bool, crashed: bool, saved: bool, passes: nat, ghost used: nat,
               ghost fs: seq<Option<Field<int>>>, ghost ts: seq<map<string, int>>, ghost ms: seq<map<InPin, seq<bool>>>)
      requires Valid() && Lists(order, timers)
      modifies this`pins, this`timers, this`file, this`inProgMode, this`stops
      ensures Valid() && Lists(order, timers)
      ensures inProgMode == (old(inProgMode) || entered)
      ensures var s := old(pins[ProgBtn]);
        used <= |s| && (entered ==> HeldFor(s, used, PicoProgDelay) && forall n :: 0 <= n < used ==> !HeldFor(s, n, PicoProgDelay))
      ensures var s := old(pins[ProgBtn]);
        !entered ==> forall n :: 0 <= n <= |s| ==> !HeldFor(s, n, PicoProgDelay)
      ensures !entered ==> !crashed && !saved && passes == 0 && stops == old(stops) && timers == old(timers) && file == old(file)
      ensures !entered ==> pins == old(pins)[ProgBtn := Drop(old(pins[ProgBtn]), used)]
      ensures entered ==> Programmed(order, rounds, crashed, saved, passes, fs, ts, ms,
                                     old(pins)[ProgBtn := Drop(old(pins[ProgBtn]), used)], old(timers), old(file), old(stops))
    {
      entered, used := HoldProg();
      if !entered {
        crashed, saved, passes := false, false, 0;
        fs, ts, ms := [None], [timers], [pins];
        return;
      }
      crashed, saved, passes, fs, ts, ms := ProgLoop(order, rounds);
    }

    /** What the programming loop did, from the streams p0, the timers t0,
        the file file0 and the loop tests q0: `passes` passes, each made on
        a loop test that read false, form a session from no timer shown;
        `crashed` says the last one raised and `saved` that some pass
        committed.  The session ends on the first loop test that reads
        true, on an error, or after `rounds` passes.  The timer keys stay
        the same, each revision's range is kept, and once anything is
        committed the file equals the timers. */
    ghost predicate Programmed(order: seq<string>, rounds: nat, crashed: bool, saved: bool, passes: nat,
                               fs: seq<Option<Field<int>>>, ts: seq<map<string, int>>, ms: seq<map<InPin, seq<bool>>>,
                               p0: map<InPin, seq<bool>>, t0: map<string, int>, file0: Option<map<string, int>>, q0: seq<bool>)
      reads this`timers, this`pins, this`file, this`stops
    {
      |fs| == passes + 1 && Passes(rev, order, fs, ts, ms) &&
      fs[0] == None && ts[0] == t0 && ms[0] == p0 && ts[passes] == timers && ms[passes] == pins &&
      (crashed <==> passes > 0 && Crashes(fs[passes - 1], ms[passes - 1])) &&
      (saved <==> exists i :: 0 <= i < passes && Commits(fs[i], ms[i])) &&
      (Kept(rev, t0) ==> Kept(rev, timers)) &&
      (!saved ==> timers == t0 && file == file0) && (saved ==> file == Some(timers)) &&
      passes <= rounds && (forall k :: 0 <= k < passes ==> !Sample(q0, k)) &&
      (!crashed && passes < rounds ==> Sample(q0, passes) && stops == Drop(q0, passes + 1)) &&
      (crashed || passes == rounds ==> stops == Drop(q0, passes))
    }

    /** What the programming loop keeps, from the streams p0, the timers
        t0, the file file0 and the loop tests q0, with field f shown after
        `passes` passes; `done` says the loop has ended, on a loop test
        that read true or on an error. */
    ghost predicate Looping(order: seq<string>, rounds: nat, f: Option<Field<int>>, crashed: bool, saved: bool,
                            passes: nat, done: bool,
                            fs: seq<Option<Field<int>>>, ts: seq<map<string, int>>, ms: seq<map<InPin, seq<bool>>>,
                            p0: map<InPin, seq<bool>>, t0: map<string, int>, file0: Option<map<string, int>>, q0: seq<bool>)
      reads this`timers, this`pins, this`file, this`stops
    {
      LoopStore(order, f, saved, t0, file0) &&
      LoopRecord(order, f, crashed, saved, passes, fs, ts, ms, p0, t0) &&
      LoopTests(rounds, crashed, passes, done, q0)
    }

    /** The timers and the file: keys, ranges and commits. */
    ghost predicate LoopStore(order: seq<string>, f: Option<Field<int>>, saved: bool,
                              t0: map<string, int>, file0: Option<map<string, int>>)
      reads this`timers, this`file
    {
      Lists(order, timers) && (f.Some? ==> Tracks(order, f.value, timers)) &&
      (Kept(rev, t0) ==> Kept(rev, timers) && (f.Some? ==> KeptValue(rev, f.value.value))) &&
      (!saved ==> timers == t0 && file == file0) && (saved ==> file == Some(timers))
    }

    /** The snapshots: a session of `passes` passes from no timer shown. */
    ghost predicate LoopRecord(order: seq<string>, f: Option<Field<int>>, crashed: bool, saved: bool, passes: nat,
                               fs: seq<Option<Field<int>>>, ts: seq<map<string, int>>, ms: seq<map<InPin, seq<bool>>>,
                               p0: map<InPin, seq<bool>>, t0: map<string, int>)
      reads this`timers, this`pins
    {
      |fs| == passes + 1 && Session(order, f, fs, ts, ms, saved) && fs[0] == None && ts[0] == t0 && ms[0] == p0 &&
      (crashed <==> passes > 0 && Crashes(fs[passes - 1], ms[passes - 1]))
    }

    /** The loop tests: one read false before each pass, and the loop ends
        on a true one, on an error, or after `rounds` passes. */
    ghost predicate LoopTests(rounds: nat, crashed: bool, passes: nat, done: bool, q0: seq<bool>)
      reads this`stops
    {
      passes <= rounds && (forall k :: 0 <= k < passes ==> !Sample(q0, k)) &&
      (!done ==> !crashed && stops == Drop(q0, passes)) &&
      (done && crashed ==> stops == Drop(q0, passes)) &&
      (done && !crashed ==> passes < rounds && Sample(q0, passes) && stops == Drop(q0, passes + 1))
    }

    /** One turn of the programming loop: the loop test, and a pass when it
        reads false; the loop ends on a true test or an error. */
    method LoopRound(order: seq<string>, rounds: nat, f: Option<Field<int>>, saved: bool, passes: nat,
                     ghost fs: seq<Option<Field<int>>>, ghost ts: seq<map<string, int>>, ghost ms: seq<map<InPin, seq<bool>>>,
                     ghost p0: map<InPin, seq<bool>>, ghost t0: map<string, int>, ghost file0: Option<map<string, int>>, ghost q0: seq<bool>)
      returns (g: Option<Field<int>>, crashed: bool, saved2: bool, passes2: nat, done: bool,
               ghost fs2: seq<Option<Field<int>>>, ghost ts2: seq<map<string, int>>, ghost ms2: seq<map<InPin, seq<bool>>>)
      requires Valid() && passes < rounds
      requires Looping(order, rounds, f, false, saved, passes, false, fs, ts, ms, p0, t0, file0, q0)
      modifies this`pins, this`timers, this`file, this`stops
      ensures Valid()
      ensures LoopStore(order, g, saved2, t0, file0)
      ensures LoopRecord(order, g, crashed, saved2, passes2, fs2, ts2, ms2, p0, t0)
      ensures LoopTests(rounds, crashed, passes2, done, q0)
      ensures passes <= passes2 && (!done ==> passes2 == passes + 1)
    {
      var stop, committed;
      stop, g, crashed, committed, fs2, ts2, ms2 := SessionRound(order, f, fs, ts, ms, saved);
      DropDrop(q0, passes, 1);
      assert stop == Sample(q0, passes);
      saved2, passes2, done := saved, passes, stop;
      if !stop {
        assert forall k :: 0 <= k < passes + 1 ==> !Sample(q0, k);
        saved2 := saved || committed;
        passes2 := passes + 1;
        done := crashed;
      }
    }

    /** `while not Input['Stop'].value()` (`while not stop_request` in
        r0.5) of change_timers, from no timer shown, for at most `rounds`
        passes. */
    method ProgLoop(order: seq<string>, rounds: nat)
      returns (crashed: bool, saved: bool, passes: nat,
               ghost fs: seq<Option<Field<int>>>, ghost ts: seq<map<string, int>>, ghost ms: seq<map<InPin, seq<bool>>>)
      requires Valid() && Lists(order, timers)
      modifies this`pins, this`timers, this`file, this`stops
      ensures Valid() && Lists(order, timers)
      ensures Programmed(order, rounds, crashed, saved, passes, fs, ts, ms, old(pins), old(timers), old(file), old(stops))
    {
      crashed, saved, passes := false, false, 0;
      var f: Option<Field<int>> := None;
      var done := false;
      fs, ts, ms := [f], [timers], [pins];
      assert Drop(stops, 0) == stops;
      while passes < rounds && !done
        invariant Valid()
        invariant Looping(order, rounds, f, crashed, saved, passes, done, fs, ts, ms, old(pins), old(timers), old(file), old(stops))
        decreases rounds - passes, !done
      {
        f, crashed, saved, passes, done, fs, ts, ms :=
          LoopRound(order, rounds, f, saved, passes, fs, ts, ms, old(pins), old(timers), old(file), old(stops));
      }
    }
  }

  /** Whether some pass of the session committed, one pass more. */
  lemma SavedSnoc(fs: seq<Option<Field<int>>>, ms: seq<map<InPin, seq<bool>>>,
                  f: Option<Field<int>>, m: map<InPin, seq<bool>>, g: Option<Field<int>>, m2: map<InPin, seq<bool>>,
                  saved: bool, committed: bool)
    requires |fs| == |ms| > 0 && fs[|fs| - 1] == f && ms[|ms| - 1] == m
    requires saved <==> exists i :: 0 <= i < |fs| - 1 && Commits(fs[i], ms[i])
    requires committed == Commits(f, m)
    ensures (saved || committed) <==> exists i :: 0 <= i < |fs| && Commits((fs + [g])[i], (ms + [m2])[i])
  {
    if saved {
      var i :| 0 <= i < |fs| - 1 && Commits(fs[i], ms[i]);
      assert (fs + [g])[i] == fs[i] && (ms + [m2])[i] == ms[i];
    }
    if committed {
      var i := |fs| - 1;
      assert (fs + [g])[i] == f && (ms + [m2])[i] == m;
    }
    if exists i :: 0 <= i < |fs| && Commits((fs + [g])[i], (ms + [m2])[i]) {
      var i :| 0 <= i < |fs| && Commits((fs + [g])[i], (ms + [m2])[i]);
      assert (fs + [g])[i] == fs[i] && (ms + [m2])[i] == ms[i];
    }
  }

  lemma KeptUpdate(rev: Revision, m: map<string, int>, k: string, v: int)
    requires Kept(rev, m) && KeptValue(rev, v)
    ensures Kept(rev, m[k := v])
  {
  }

  lemma KeptAt(rev: Revision, m: map<string, int>, k: string)
    requires Kept(rev, m) && k in m
    ensures KeptValue(rev, m[k])
  {
  }
}
