/** The programming side of main.py: the settings store (`config`, the
    live groups `Timers`, `Current` and `Temp`, the JSON file), the three
    edit screens `Config_Timers`, `Config_Current` and `Config_Temp`, and
    the `Configuration` menu.

    The screens walk a group's keys in the iteration order of its dict,
    which MicroPython does not fix: it is a parameter (`order`).  A screen
    runs until a stop request arrives; here it runs over the presses it is
    given, and the stop comes after the last one. */
module Settings {
  import opened Wrappers
  import opened Inputs
  import opened Window
  import opened EditRules

  /** The three groups of the settings file, and of the module-level `config`. */
  datatype Config = Config(timers: map<string, int>, current: map<string, Value>, temp: map<string, Value>)

  /** main.py's `config` as loaded: the factory settings. */
  const Defaults := Config(
    map["Opn1" := 5, "Cls" := 5, "Mid" := 6, "Opn2" := 8],
    map["Status" := Active, "N_lectures" := Num(5), "V_max" := Milli(3300), "V0_ref" := Milli(1512), "Factor" := Num(60)],
    map["Status" := Inactive, "V_max" := Milli(3300), "V0_ref" := Milli(500), "Factor" := Num(10)])

  const Menu := ["Minuterie", "Courant", "Temperature", "ChavTha", "Dan", "Manaras", "Harmonie"]

  /** `menu_total_lines`: min(I2C_NUM_ROWS, len(menu)) with a 4-row display. */
  const MenuTotalLines := Min(4, |Menu|)

  /** `prog_mode_delay`: readings of Prog held before the menu opens. */
  const ProgModeDelay := 2

  /** Python's reading of a list index: a negative one counts from the end. */
  function PyIndex(i: int, n: nat): int {
    if i < 0 then i + n else i
  }

  lemma MenuShape()
    ensures |Menu| == 7 && MenuTotalLines == 4
  {
  }

  /** The number of menu entries that open an edit screen (the rest only
      show text). */
  const EditScreens := 3

  /** The group a Current or Temp screen edits. */
  function Group(c: Config, screen: Screen): map<string, Value> {
    if screen == CurrentScreen then c.current else c.temp
  }

  function WithGroup(c: Config, screen: Screen, g: map<string, Value>): (r: Config)
    ensures Group(r, screen) == g
    ensures r.timers == c.timers
    ensures screen == CurrentScreen ==> r.temp == c.temp
    ensures screen == TempScreen ==> r.current == c.current
  {
    if screen == CurrentScreen then c.(current := g) else c.(temp := g)
  }

  /** `config` after a commit on the timers screen: main.py updates the
      live Timers, stores them in `config`, writes `config` to the file and
      reloads every group from it. */
  function TimersCommitted(config: Config, live: Config, key: string, value: int): Config {
    config.(timers := live.timers[key := value])
  }

  /** The same for a commit on the Current or Temp screen. */
  function GroupCommitted(config: Config, live: Config, screen: Screen, key: string, value: Value): Config {
    WithGroup(config, screen, Group(live, screen)[key := value])
  }

  /** A commit changes only the edited key of the edited group, relative to
      the live settings; the other groups come back from `config`, not from
      the live settings, so whatever the file gave them at boot is
      replaced by the factory settings unless their own screen committed
      earlier in the session. */
  lemma CommitKeepsOthers(config: Config, live: Config, key: string, value: int, screen: Screen, v: Value)
    ensures TimersCommitted(config, live, key, value).timers == live.timers[key := value]
    ensures TimersCommitted(config, live, key, value).current == config.current
    ensures TimersCommitted(config, live, key, value).temp == config.temp
    ensures Group(GroupCommitted(config, live, screen, key, v), screen) == Group(live, screen)[key := v]
    ensures GroupCommitted(config, live, screen, key, v).timers == config.timers
  {
  }

  /** The loss in numbers: a file with Factor 70 for the current sensor is
      loaded at boot; one timer commit later the live Factor is 60 again. */
  lemma CommitRevertsLoadedFactor()
    ensures var file := Defaults.(current := Defaults.current["Factor" := Num(70)]);
      file.current["Factor"] == Num(70) &&
      TimersCommitted(Defaults, file, "Cls", 7).current["Factor"] == Num(60)
  {
  }

  /** `order` lists the keys of m, each once: the iteration order of a dict. */
  predicate Lists<V>(order: seq<string>, m: map<string, V>) {
    (forall i :: 0 <= i < |order| ==> order[i] in m) &&
    (forall k :: k in m ==> k in order) &&
    (forall i, j :: 0 <= i < j < |order| ==> order[i] != order[j])
  }

  /** Editing a key that is there keeps the listed keys. */
  lemma ListsUpdate<V>(order: seq<string>, m: map<string, V>, k: string, v: V)
    requires Lists(order, m) && k in m
    ensures Lists(order, m[k := v])
  {
  }

  /** The state of a screen: how many keys its iterator has yielded, the
      key and value shown, and `is_value_modified`. */
  datatype Field<V> = Field(pos: nat, key: string, value: V, modified: bool)

  /** The field matches the group: the key shown is the last one yielded
      (the restarted iterator keeps showing the old key), and an unmodified
      value is the stored one. */
  predicate Tracks<V(==)>(order: seq<string>, f: Field<V>, m: map<string, V>) {
    f.pos <= |order| && f.key in m && (f.pos > 0 ==> order[f.pos - 1] == f.key) &&
    (!f.modified ==> f.value == m[f.key])
  }

  /** `key, value = next(items)` after Select, with `except StopIteration`
      restarting the iterator: past the last key the screen keeps the
      last key until the next Select.  (The iterator runs over the dict
      as it was before any reload, whose values agree with the live group
      on every key not yet visited.) */
  function Advanced<V>(order: seq<string>, f: Field<V>, m: map<string, V>): (g: Field<V>)
    requires f.pos <= |order| && forall i :: 0 <= i < |order| ==> order[i] in m
    ensures !g.modified
    ensures f.pos < |order| ==> g.pos == f.pos + 1 && g.key == order[f.pos] && g.value == m[g.key]
    ensures f.pos == |order| ==> g.pos == 0 && g.key == f.key && g.value == f.value
  {
    if f.pos < |order| then Field(f.pos + 1, order[f.pos], m[order[f.pos]], false)
    else f.(pos := 0, modified := false)
  }

  /** Two Selects past the last key show the first one again. */
  lemma AdvancedWraps<V>(order: seq<string>, f: Field<V>, m: map<string, V>)
    requires f.pos == |order| && |order| > 0 && forall i :: 0 <= i < |order| ==> order[i] in m
    ensures Advanced(order, Advanced(order, f, m), m).key == order[0]
    ensures Advanced(order, Advanced(order, f, m), m).pos == 1
  {
  }

  /** The first `next(items)` of a screen; None is the StopIteration an
      empty group raises outside the screen's try. */
  function First<V>(order: seq<string>, m: map<string, V>): (r: Option<Field<V>>)
    requires forall i :: 0 <= i < |order| ==> order[i] in m
    ensures r.Some? <==> |order| > 0
    ensures r.Some? ==> r.value.pos == 1 && r.value.key == order[0] && r.value.value == m[order[0]] && !r.value.modified
  {
    if |order| == 0 then None else Some(Field(1, order[0], m[order[0]], false))
  }

  /** What `rotary_switch` returns. */
  datatype Turn = Select | Next | Previous

  /** The confirmed reads of one pass of `Config_Current` or `Config_Temp`:
      Up is looked at only when Prog is low, Down only when both are. */
  datatype Keys = Keys(prog: bool, up: bool, down: bool)

  /** The confirmed reads of one pass of the `Configuration` menu loop: Up,
      then Down when Up is low; when either was high, Up again, then Down
      again when that is low; then Prog. */
  datatype MenuReads = MenuReads(up: bool, down: bool, upAgain: bool, downAgain: bool, prog: bool)

  /** Every timer is in 0..999. */
  predicate InRange(m: map<string, int>) {
    forall k :: k in m ==> 0 <= m[k] <= TimerMax
  }

  /** No number of a group is negative. */
  predicate NonNegative(m: map<string, Value>) {
    forall k :: k in m && !m[k].Text? ==> Amount(m[k]) >= 0
  }

  /** What the edit screens change: `config`, the live groups and the file. */
  datatype Store = Store(config: Config, live: Config, file: Option<Config>)

  /** A commit: `config` becomes c, is written to the file and loaded back. */
  function Saved(c: Config): Store {
    Store(c, c, Some(c))
  }

  /** One turn on the timers screen, from field f and store s: Next and
      Previous step the value with wrap-around and mark it modified;
      Select commits a modified value under its key, then shows the next
      key of the committed timers. */
  function TimersStep(order: seq<string>, t: Turn, f: Field<int>, s: Store): (r: (Field<int>, Store))
    requires Lists(order, s.live.timers) && Tracks(order, f, s.live.timers)
    ensures Lists(order, r.1.live.timers) && Tracks(order, r.0, r.1.live.timers)
  {
    match t
    case Next => (f.(value := WrapUp(f.value), modified := true), s)
    case Previous => (f.(value := WrapDown(f.value), modified := true), s)
    case Select =>
      if f.modified then
        var c := TimersCommitted(s.config, s.live, f.key, f.value);
        (Advanced(order, f, c.timers), Saved(c))
      else (Advanced(order, f, s.live.timers), s)
  }

  /** The turns one after the other. */
  function TimersRun(order: seq<string>, turns: seq<Turn>, f: Field<int>, s: Store): (r: (Field<int>, Store))
    requires Lists(order, s.live.timers) && Tracks(order, f, s.live.timers)
    ensures Lists(order, r.1.live.timers) && Tracks(order, r.0, r.1.live.timers)
    decreases |turns|
  {
    if turns == [] then (f, s) else
      var n := TimersStep(order, turns[0], f, s);
      TimersRun(order, turns[1..], n.0, n.1)
  }

  /** A session without a Select saves nothing: the store is as it was. */
  lemma {:induction false} TimersRunNoSelect(order: seq<string>, turns: seq<Turn>, f: Field<int>, s: Store)
    requires Lists(order, s.live.timers) && Tracks(order, f, s.live.timers)
    requires Select !in turns
    ensures TimersRun(order, turns, f, s).1 == s
    decreases |turns|
  {
    if turns != [] {
      assert turns[0] in turns;
      var n := TimersStep(order, turns[0], f, s);
      assert Select !in turns[1..] by {
        forall t | t in turns[1..] ensures t in turns { }
      }
      TimersRunNoSelect(order, turns[1..], n.0, n.1);
    }
  }

  /** The Current and Temp screens redraw the value shown at the end of
      every pass with `format_str`: none before the first Prog (Bare),
      `{2:<8}` (Padded) or `{2:<8.3f}` (Fixed3).  A key outside the
      screen's lists keeps the format of the key shown before it. */
  datatype Format = Bare | Padded | Fixed3

  /** The keys a screen shows with `{2:<8}`. */
  predicate PaddedKey(screen: Screen, key: string) {
    key == "Status" || key == "Factor" ||
    (screen == CurrentScreen && key == "N_lectures") || (screen == TempScreen && key == "Type")
  }

  /** `format_str` once `key` is shown, from the format `fmt` before. */
  function KeyFormat(screen: Screen, key: string, fmt: Format): Format {
    if PaddedKey(screen, key) then Padded
    else if key == "V_max" || key == "V0_ref" then Fixed3
    else fmt
  }

  /** The redraw succeeds: formatting a string with `.3f` raises
      ValueError, and any value takes the other formats. */
  predicate Shows(fmt: Format, v: Value) {
    !(fmt == Fixed3 && v.Text?)
  }

  /** One pass of the Current or Temp screen, from field f, format fmt and
      store s: Prog commits a modified value under its key, then shows the
      next key and sets its format (a StopIteration restarts the iterator
      and skips the redraw); Up or Down edits the value by the screen's
      rule and marks it modified, or raises (None) on a string; then the
      value is redrawn, which raises on a string under Fixed3. */
  function GroupStep(screen: Screen, order: seq<string>, k: Keys, f: Field<Value>, fmt: Format, s: Store)
    : (r: (Option<Field<Value>>, Format, Store))
    requires Lists(order, Group(s.live, screen)) && Tracks(order, f, Group(s.live, screen))
    ensures Lists(order, Group(r.2.live, screen)) && (r.0.Some? ==> Tracks(order, r.0.value, Group(r.2.live, screen)))
  {
    if k.prog then
      var s2 := if f.modified then Saved(GroupCommitted(s.config, s.live, screen, f.key, f.value)) else s;
      var g := Advanced(order, f, Group(s2.live, screen));
      if f.pos == |order| then (Some(g), fmt, s2)
      else
        var fmt2 := KeyFormat(screen, g.key, fmt);
        (if Shows(fmt2, g.value) then Some(g) else None, fmt2, s2)
    else if k.up || k.down then
      var e := Edit(screen, f.key, f.value, k.up);
      (if e.None? || !Shows(fmt, e.value) then None else Some(f.(value := e.value, modified := true)), fmt, s)
    else (if Shows(fmt, f.value) then Some(f) else None, fmt, s)
  }

  /** The passes one after the other, up to the first that raises:
      whether one raised, and the store left. */
  function GroupRun(screen: Screen, order: seq<string>, ks: seq<Keys>, f: Field<Value>, fmt: Format, s: Store): (r: (bool, Store))
    requires Lists(order, Group(s.live, screen)) && Tracks(order, f, Group(s.live, screen))
    ensures Lists(order, Group(r.1.live, screen))
    decreases |ks|
  {
    if ks == [] then (false, s) else
      var n := GroupStep(screen, order, ks[0], f, fmt, s);
      if n.0.None? then (true, n.2) else GroupRun(screen, order, ks[1..], n.0.value, n.1, n.2)
  }

  /** A session in which Prog never reads high saves nothing. */
  lemma {:induction false} GroupRunNoProg(screen: Screen, order: seq<string>, ks: seq<Keys>, f: Field<Value>, fmt: Format, s: Store)
    requires Lists(order, Group(s.live, screen)) && Tracks(order, f, Group(s.live, screen))
    requires forall i :: 0 <= i < |ks| ==> !ks[i].prog
    ensures GroupRun(screen, order, ks, f, fmt, s).1 == s
    decreases |ks|
  {
    if ks != [] {
      var n := GroupStep(screen, order, ks[0], f, fmt, s);
      if n.0.Some? {
        GroupRunNoProg(screen, order, ks[1..], n.0.value, n.1, n.2);
      }
    }
  }

  /** Every string of the group sits under a key shown with `{2:<8}`. */
  predicate TextPadded(screen: Screen, m: map<string, Value>) {
    forall key :: key in m && m[key].Text? ==> PaddedKey(screen, key)
  }

  /** What GroupRunNoRaise keeps from pass to pass: every string of the
      group, and the value shown, sit under a padded key, and the value
      shown can be redrawn. */
  predicate Redrawable(screen: Screen, f: Field<Value>, fmt: Format, m: map<string, Value>) {
    TextPadded(screen, m) && (f.value.Text? ==> PaddedKey(screen, f.key)) && Shows(fmt, f.value)
  }

  /** A Prog pass or a pass with no key read does not raise from a
      Redrawable state, and leaves one. */
  lemma GroupStepNoRaise(screen: Screen, order: seq<string>, k: Keys, f: Field<Value>, fmt: Format, s: Store)
    requires Lists(order, Group(s.live, screen)) && Tracks(order, f, Group(s.live, screen))
    requires k.prog || (!k.up && !k.down)
    requires Redrawable(screen, f, fmt, Group(s.live, screen))
    ensures var n := GroupStep(screen, order, k, f, fmt, s);
      n.0.Some? && Redrawable(screen, n.0.value, n.1, Group(n.2.live, screen))
  {
    var n := GroupStep(screen, order, k, f, fmt, s);
    var m2 := Group(n.2.live, screen);
    if k.prog {
      if f.modified {
        assert m2 == Group(s.live, screen)[f.key := f.value];
      }
      assert TextPadded(screen, m2);
      if f.pos < |order| {
        assert n.0 == Some(Advanced(order, f, m2));
      }
    }
  }

  /** Without Up or Down read alone, a pass raises only at the redraw.
      So a session with no such pass ends without an exception when every
      string of the group, and the value shown, sit under a padded key
      and the value shown can be redrawn. */
  lemma {:induction false} GroupRunNoRaise(screen: Screen, order: seq<string>, ks: seq<Keys>, f: Field<Value>, fmt: Format, s: Store)
    requires Lists(order, Group(s.live, screen)) && Tracks(order, f, Group(s.live, screen))
    requires forall i :: 0 <= i < |ks| ==> ks[i].prog || (!ks[i].up && !ks[i].down)
    requires Redrawable(screen, f, fmt, Group(s.live, screen))
    ensures !GroupRun(screen, order, ks, f, fmt, s).0
    decreases |ks|
  {
    if ks != [] {
      assert ks[0].prog || (!ks[0].up && !ks[0].down);
      GroupStepNoRaise(screen, order, ks[0], f, fmt, s);
      var n := GroupStep(screen, order, ks[0], f, fmt, s);
      GroupRunNoRaise(screen, order, ks[1..], n.0.value, n.1, n.2);
    }
  }

  /** A string under V_max raises at the redraw once Prog moves onto it:
      the Current screen on N_lectures, then V_max holding "3.3". */
  lemma TextUnderFixedRaises()
    ensures var m := map["N_lectures" := Num(5), "V_max" := Text("3.3")];
      var order := ["N_lectures", "V_max"];
      var c := Config(map[], m, map[]);
      GroupRun(CurrentScreen, order, [Keys(true, false, false)], First(order, m).value, Bare, Saved(c)).0
  {
    var m := map["N_lectures" := Num(5), "V_max" := Text("3.3")];
    var order := ["N_lectures", "V_max"];
    var c := Config(map[], m, map[]);
    var f := First(order, m).value;
    assert f == Field(1, "N_lectures", Num(5), false);
    assert GroupStep(CurrentScreen, order, Keys(true, false, false), f, Bare, Saved(c)).0.None?;
  }

  /** The state of the `Configuration` menu: cursor and level. */
  datatype MenuAt = MenuAt(cursor: Cursor, level: int)

  /** One pass of the menu loop: Up or Down opens level 1 and moves the
      cursor by the window rule; then Prog at level 1 picks entry
      `shift + line - 1` as Python indexes it. */
  function MenuStep(m: MenuAt, r: MenuReads): (res: (Option<int>, MenuAt))
  {
    var n := if r.up || r.down then
      MenuAt(if r.upAgain then Advance(m.cursor, MenuTotalLines, |Menu|) else if r.downAgain then Retreat(m.cursor) else m.cursor, 1)
      else m;
    (if r.prog && n.level == 1 then Some(PyIndex(Selected(n.cursor), |Menu|)) else None, n)
  }

  /** The menu passes one after the other, up to the first that picks an
      edit screen: that pick (None when no pass made one) and the menu
      state left.  Picks of the text-only entries go on to the next pass. */
  function MenuRun(m: MenuAt, rs: seq<MenuReads>): (res: (Option<int>, MenuAt))
    ensures res.0.Some? ==> res.0.value < EditScreens
    decreases |rs|
  {
    if rs == [] then (None, m) else
      var n := MenuStep(m, rs[0]);
      if n.0.Some? && n.0.value < EditScreens then n else MenuRun(n.1, rs[1..])
  }

  /** The menu state after the passes rs, taken one after the other. */
  function MenuAfter(m: MenuAt, rs: seq<MenuReads>): MenuAt
    decreases |rs|
  {
    if rs == [] then m else MenuAfter(MenuStep(m, rs[0]).1, rs[1..])
  }

  /** A pick of an edit screen. */
  predicate Picks(c: Option<int>) {
    c.Some? && c.value < EditScreens
  }

  /** What pass i would pick after the passes before it. */
  function PickAt(m: MenuAt, rs: seq<MenuReads>, i: nat): Option<int>
    requires i < |rs|
  {
    MenuStep(MenuAfter(m, rs[..i]), rs[i]).0
  }

  /** Pass i + 1 of rs is pass i of the passes after the first one. */
  lemma PickAtCons(m: MenuAt, rs: seq<MenuReads>, i: nat)
    requires i + 1 < |rs|
    ensures PickAt(m, rs, i + 1) == PickAt(MenuStep(m, rs[0]).1, rs[1..], i)
  {
    assert rs[..i + 1][0] == rs[0] && rs[..i + 1][1..] == rs[1..][..i];
  }

  /** MenuRun picks an edit screen exactly when some pass does, and then
      the pick of the first such pass. */
  lemma {:induction false} MenuRunFirst(m: MenuAt, rs: seq<MenuReads>)
    ensures MenuRun(m, rs).0.Some? <==> exists i :: 0 <= i < |rs| && Picks(PickAt(m, rs, i))
    ensures MenuRun(m, rs).0.Some? ==>
      exists i :: 0 <= i < |rs| && PickAt(m, rs, i) == MenuRun(m, rs).0 && (forall j :: 0 <= j < i ==> !Picks(PickAt(m, rs, j)))
    decreases |rs|
  {
    if rs != [] {
      var n := MenuStep(m, rs[0]);
      assert PickAt(m, rs, 0) == n.0 by { assert rs[..0] == []; }
      if !Picks(n.0) {
        var m1, rs1 := n.1, rs[1..];
        MenuRunFirst(m1, rs1);
        forall i | 0 <= i < |rs1|
          ensures PickAt(m, rs, i + 1) == PickAt(m1, rs1, i)
        {
          PickAtCons(m, rs, i);
        }
        if exists i :: 0 <= i < |rs| && Picks(PickAt(m, rs, i)) {
          var i :| 0 <= i < |rs| && Picks(PickAt(m, rs, i));
          assert i > 0 && Picks(PickAt(m1, rs1, i - 1));
        }
        if MenuRun(m, rs).0.Some? {
          var i :| 0 <= i < |rs1| && PickAt(m1, rs1, i) == MenuRun(m1, rs1).0 && (forall j :: 0 <= j < i ==> !Picks(PickAt(m1, rs1, j)));
          assert PickAt(m, rs, i + 1) == MenuRun(m, rs).0;
          forall j | 0 <= j < i + 1
            ensures !Picks(PickAt(m, rs, j))
          {
            if j > 0 {
              assert PickAt(m, rs, j) == PickAt(m1, rs1, j - 1);
            }
          }
        }
      }
    }
  }

  class Panel {
    /** The module-level `config`. */
    var config: Config
    /** The module globals `Timers`, `Current` and `Temp`. */
    var live: Config
    /** The settings file; None when it does not exist. */
    var file: Option<Config>
    /** `menu_current_line`, `menu_shift`, `menu_current_level`. */
    var line: int
    var shift: int
    var level: int
    var inProgMode: bool

    /** The menu cursor stays on the screen (line 0, after `initialize`,
        points at no line) and the window inside the menu. */
    ghost predicate MenuOk()
      reads this
    {
      0 <= line <= MenuTotalLines && 0 <= shift <= |Menu| - MenuTotalLines && (line == 0 ==> shift == 0)
    }

    /** The settings the edit screens change, as one value. */
    function Stored(): Store
      reads this`config, this`live, this`file
    {
      Store(config, live, file)
    }

    /** The module's starting values: factory `config`, empty live groups
        until the file is loaded, the menu cursor on line 1. */
    constructor (file: Option<Config>)
      ensures config == Defaults && live == Config(map[], map[], map[]) && this.file == file
      ensures line == 1 && shift == 0 && level == 0 && !inProgMode
      ensures MenuOk()
    {
      config := Defaults;
      live := Config(map[], map[], map[]);
      this.file := file;
      line, shift, level := 1, 0, 0;
      inProgMode := false;
    }

    /** `load_file`: every group is replaced by the file's; a missing file
        raises OSError (ok false) and changes nothing. */
    method LoadFile() returns (ok: bool)
      modifies this`live
      ensures ok == file.Some?
      ensures live == if ok then file.value else old(live)
    {
      if file.Some? {
        live := file.value;
        ok := true;
      } else {
        ok := false;
      }
    }

    /** `write_file`: the file gets `config` (not the live groups). */
    method WriteFile()
      modifies this`file
      ensures file == Some(config)
    {
      file := Some(config);
    }

    /** The start of `main`: load the file, or when it is missing write
        `config` and load that. */
    method Boot()
      modifies this`live, this`file
      ensures file == if old(file).Some? then old(file) else Some(config)
      ensures file.Some? && live == file.value
    {
      var ok := LoadFile();
      if !ok {
        WriteFile();
        ok := LoadFile();
      }
    }

    /** The menu part of `initialize`: cursor, shift and level all 0, and
        the programming mode left. */
    method ResetMenu()
      modifies this`line, this`shift, this`level, this`inProgMode
      ensures line == 0 && shift == 0 && level == 0 && !inProgMode
      ensures MenuOk()
    {
      line, shift, level := 0, 0, 0;
      inProgMode := false;
    }

    /** A commit on the timers screen: update, store in `config`, write the
        file, reload. */
    method CommitTimers(key: string, value: int)
      modifies this`live, this`config, this`file
      ensures config == TimersCommitted(old(config), old(live), key, value)
      ensures file == Some(config) && live == config
    {
      live := live.(timers := live.timers[key := value]);
      config := config.(timers := live.timers);
      WriteFile();
      var _ := LoadFile();
    }

    /** A commit on the Current or Temp screen. */
    method CommitGroup(screen: Screen, key: string, value: Value)
      modifies this`live, this`config, this`file
      ensures config == GroupCommitted(old(config), old(live), screen, key, value)
      ensures file == Some(config) && live == config
    {
      live := WithGroup(live, screen, Group(live, screen)[key := value]);
      config := WithGroup(config, screen, Group(live, screen));
      WriteFile();
      var _ := LoadFile();
    }

    /** One turn on the timers screen.  Next and Previous wrap within 0..999
        and mark the value modified; Select commits only a modified value,
        and only under its key, then shows the next key. */
    method TimersTurn(order: seq<string>, t: Turn, f: Field<int>) returns (g: Field<int>, ghost committed: bool)
      requires Lists(order, live.timers) && Tracks(order, f, live.timers)
      modifies this`live, this`config, this`file
      ensures Lists(order, live.timers) && Tracks(order, g, live.timers)
      ensures t == Next ==> g == f.(value := WrapUp(f.value), modified := true)
      ensures t == Previous ==> g == f.(value := WrapDown(f.value), modified := true)
      ensures committed == (t == Select && f.modified)
      ensures !committed ==> live == old(live) && config == old(config) && file == old(file)
      ensures committed ==>
        config == TimersCommitted(old(config), old(live), f.key, f.value) && file == Some(config) && live == config
      ensures t == Select ==> g == Advanced(order, f, live.timers)
      ensures InRange(old(live.timers)) && 0 <= f.value <= TimerMax ==> InRange(live.timers) && 0 <= g.value <= TimerMax
      ensures (g, Stored()) == TimersStep(order, t, f, old(Stored()))
    {
      committed := t == Select && f.modified;
      match t
      case Next =>
        g := f.(value := WrapUp(f.value), modified := true);
      case Previous =>
        g := f.(value := WrapDown(f.value), modified := true);
      case Select =>
        if f.modified {
          CommitTimers(f.key, f.value);
          ListsUpdate(order, old(live).timers, f.key, f.value);
        }
        g := Advanced(order, f, live.timers);
    }

    /** `Config_Timers`: shows the first timer and handles the turns until
        the stop request.  An empty Timers group raises StopIteration.  The
        timer keys stay the same, the timers stay in 0..999 when they start
        there, and once anything is committed the live groups and the file
        equal `config`, whose other groups are unchanged. */
    method TimersSession(order: seq<string>, turns: seq<Turn>) returns (crashed: bool, ghost saved: bool)
      requires Lists(order, live.timers)
      modifies this`live, this`config, this`file, this`level
      ensures level == 2
      ensures crashed <==> order == []
      ensures Lists(order, live.timers)
      ensures InRange(old(live.timers)) ==> InRange(live.timers)
      ensures !saved ==> live == old(live) && config == old(config) && file == old(file)
      ensures saved ==> file == Some(config) && live == config
      ensures config.current == old(config.current) && config.temp == old(config.temp)
      ensures !crashed ==> Stored() == TimersRun(order, turns, First(order, old(live.timers)).value, old(Stored())).1
      ensures crashed ==> Stored() == old(Stored())
    {
      level := 2;
      saved := false;
      var first := First(order, live.timers);
      if first.None? {
        return true, false;
      }
      crashed := false;
      var f := first.value;
      ghost var inRange := InRange(live.timers);
      ghost var run := TimersRun(order, turns, f, Stored());
      for i := 0 to |turns|
        invariant level == 2
        invariant Lists(order, live.timers) && Tracks(order, f, live.timers)
        invariant inRange ==> InRange(live.timers) && 0 <= f.value <= TimerMax
        invariant !saved ==> live == old(live) && config == old(config) && file == old(file)
        invariant saved ==> file == Some(config) && live == config
        invariant config.current == old(config.current) && config.temp == old(config.temp)
        invariant TimersRun(order, turns[i..], f, Stored()) == run
      {
        ghost var committed;
        assert turns[i..][0] == turns[i] && turns[i..][1..] == turns[i + 1..];
        f, committed := TimersTurn(order, turns[i], f);
        saved := saved || committed;
      }
    }

    /** One pass of `Config_Current` or `Config_Temp`.  Prog commits a
        modified value under its key only, then shows the next key and
        takes its format; Up and Down edit by the rules of the screen and
        mark the value modified; then the value is redrawn.  None is the
        exception stepping a string raises, or the one the redraw raises
        on a string under `{2:<8.3f}`. */
    method GroupPass(screen: Screen, order: seq<string>, k: Keys, f: Field<Value>, fmt: Format)
      returns (g: Option<Field<Value>>, fmt2: Format, ghost committed: bool)
      requires Lists(order, Group(live, screen)) && Tracks(order, f, Group(live, screen))
      modifies this`live, this`config, this`file
      ensures Lists(order, Group(live, screen))
      ensures g.Some? ==> Tracks(order, g.value, Group(live, screen))
      ensures !k.prog && (k.up || k.down) ==>
        (fmt2 == fmt &&
         g == (var e := Edit(screen, f.key, f.value, k.up);
               if e.None? || !Shows(fmt, e.value) then None else Some(f.(value := e.value, modified := true))))
      ensures !k.prog && !k.up && !k.down ==> fmt2 == fmt && (g.Some? <==> Shows(fmt, f.value)) && (g.Some? ==> g.value == f)
      ensures committed == (k.prog && f.modified)
      ensures !committed ==> live == old(live) && config == old(config) && file == old(file)
      ensures committed ==>
        config == GroupCommitted(old(config), old(live), screen, f.key, f.value) && file == Some(config) && live == config
      ensures k.prog && f.pos == |order| ==> fmt2 == fmt && g == Some(Advanced(order, f, Group(live, screen)))
      ensures k.prog && f.pos < |order| ==>
        fmt2 == KeyFormat(screen, order[f.pos], fmt) && (g.Some? <==> Shows(fmt2, Group(live, screen)[order[f.pos]])) &&
        (g.Some? ==> g.value == Advanced(order, f, Group(live, screen)))
      ensures NonNegative(Group(old(live), screen)) && (!f.value.Text? ==> Amount(f.value) >= 0) ==>
        NonNegative(Group(live, screen)) && (g.Some? && !g.value.value.Text? ==> Amount(g.value.value) >= 0)
      ensures (g, fmt2, Stored()) == GroupStep(screen, order, k, f, fmt, old(Stored()))
    {
      ghost var step := GroupStep(screen, order, k, f, fmt, Stored());
      committed := k.prog && f.modified;
      fmt2 := fmt;
      var redraw := true;
      if k.prog {
        if f.modified {
          CommitGroup(screen, f.key, f.value);
          ListsUpdate(order, Group(old(live), screen), f.key, f.value);
        }
        g := Some(Advanced(order, f, Group(live, screen)));
        if f.pos == |order| {
          redraw := false;
        } else {
          fmt2 := KeyFormat(screen, g.value.key, fmt);
        }
      } else if k.up || k.down {
        var e := Edit(screen, f.key, f.value, k.up);
        if e.None? {
          g := None;
          redraw := false;
        } else {
          g := Some(f.(value := e.value, modified := true));
        }
      } else {
        g := Some(f);
      }
      if redraw && !Shows(fmt2, g.value.value) {
        g := None;
      }
      assert step == (g, fmt2, Stored());
    }

    /** `Config_Current` (screen CurrentScreen) or `Config_Temp`: shows the
        first key with no format yet and handles the passes until the stop
        request, or until an exception (crashed).  The keys stay the same,
        a group with no negative number keeps none, and once anything is
        committed the live groups and the file equal `config`. */
    method GroupSession(screen: Screen, order: seq<string>, passes: seq<Keys>) returns (crashed: bool, ghost saved: bool)
      requires Lists(order, Group(live, screen))
      modifies this`live, this`config, this`file
      ensures Lists(order, Group(live, screen))
      ensures order == [] ==> crashed
      ensures NonNegative(Group(old(live), screen)) ==> NonNegative(Group(live, screen))
      ensures !saved ==> live == old(live) && config == old(config) && file == old(file)
      ensures saved ==> file == Some(config) && live == config
      ensures config.timers == old(config.timers)
      ensures order != [] ==>
        (crashed, Stored()) == GroupRun(screen, order, passes, First(order, Group(old(live), screen)).value, Bare, old(Stored()))
      ensures order == [] ==> Stored() == old(Stored())
    {
      saved := false;
      var first := First(order, Group(live, screen));
      if first.None? {
        return true, false;
      }
      crashed := false;
      var f := first.value;
      var fmt := Bare;
      ghost var sane := NonNegative(Group(live, screen));
      ghost var run := GroupRun(screen, order, passes, f, fmt, Stored());
      var i := 0;
      while i < |passes|
        invariant i <= |passes|
        invariant Lists(order, Group(live, screen)) && Tracks(order, f, Group(live, screen))
        invariant sane ==> NonNegative(Group(live, screen)) && (!f.value.Text? ==> Amount(f.value) >= 0)
        invariant !saved ==> live == old(live) && config == old(config) && file == old(file)
        invariant saved ==> file == Some(config) && live == config
        invariant config.timers == old(config.timers)
        invariant GroupRun(screen, order, passes[i..], f, fmt, Stored()) == run
      {
        assert passes[i..][0] == passes[i] && passes[i..][1..] == passes[i + 1..];
        var g;
        ghost var committed;
        g, fmt, committed := GroupPass(screen, order, passes[i], f, fmt);
        saved := saved || committed;
        if g.None? {
          return true, saved;
        }
        f := g.value;
        i := i + 1;
      }
    }

    /** The press-and-hold loop of `Configuration`: the menu opens after
        ProgModeDelay consecutive confirmed Prog readings. */
    method EnterProg(hold: seq<bool>) returns (entered: bool, used: nat)
      modifies this`inProgMode
      ensures used <= |hold|
      ensures entered ==> HeldFor(hold, used, ProgModeDelay) && forall n :: 0 <= n < used ==> !HeldFor(hold, n, ProgModeDelay)
      ensures !entered ==> forall n :: 0 <= n <= |hold| ==> !HeldFor(hold, n, ProgModeDelay)
      ensures inProgMode == (old(inProgMode) || entered)
    {
      entered, used := EnterProgMode(hold, ProgModeDelay);
      if entered {
        inProgMode := true;
      }
    }

    /** One pass of the menu loop of `Configuration`: Up or Down puts the
        menu at level 1 and moves the cursor by the window rule (Up moves
        down the list, Down up it); then Prog at level 1 runs entry
        `menu_fct[shift + line - 1]`: the item under the cursor once the
        cursor has moved, and, when Up or Down was high only on the first
        read right after `initialize` (line 0), entry -1, which Python
        takes as the last one. */
    method MenuPass(r: MenuReads) returns (chosen: Option<int>)
      requires MenuOk()
      modifies this`line, this`shift, this`level
      ensures MenuOk()
      ensures (r.up || r.down) ==> (level == 1 &&
        Cursor(line, shift) == (var c := Cursor(old(line), old(shift));
          if r.upAgain then Advance(c, MenuTotalLines, |Menu|) else if r.downAgain then Retreat(c) else c))
      ensures !(r.up || r.down) ==> level == old(level) && line == old(line) && shift == old(shift)
      ensures line != 0 ==> InBounds(Cursor(line, shift), MenuTotalLines, |Menu|)
      ensures chosen == if r.prog && level == 1 then Some(PyIndex(Selected(Cursor(line, shift)), |Menu|)) else None
      ensures chosen.Some? ==> 0 <= chosen.value < |Menu|
      ensures chosen.Some? && line != 0 ==> Menu[chosen.value] == View(Menu, Cursor(line, shift), MenuTotalLines)[line - 1]
      ensures chosen.Some? && line == 0 ==> chosen.value == |Menu| - 1
      ensures (chosen, MenuAt(Cursor(line, shift), level)) == MenuStep(MenuAt(Cursor(old(line), old(shift)), old(level)), r)
    {
      ghost var step := MenuStep(MenuAt(Cursor(line, shift), level), r);
      MenuShape();
      if r.up || r.down {
        level := 1;
        var c := Cursor(line, shift);
        if r.upAgain {
          AdvanceInBounds(c, MenuTotalLines, |Menu|);
          c := Advance(c, MenuTotalLines, |Menu|);
        } else if r.downAgain {
          RetreatInBounds(c, MenuTotalLines, |Menu|);
          c := Retreat(c);
        }
        line, shift := c.line, c.shift;
      }
      assert step.1 == MenuAt(Cursor(line, shift), level);
      chosen := None;
      if r.prog && level == 1 {
        var c := Cursor(line, shift);
        if line != 0 {
          SelectedIsIndex(c, MenuTotalLines, |Menu|);
          ViewShowsSelected(Menu, c, MenuTotalLines);
        }
        chosen := Some(PyIndex(Selected(c), |Menu|));
      }
    }

    /** `Configuration`: the press-and-hold wait, then menu passes until an
        edit screen is chosen (its session then runs until the stop
        request) or the passes end.  The text-only entries just show and
        return to the menu. */
    method Configuration(hold: seq<bool>, passes: seq<MenuReads>) returns (entered: bool, screen: Option<int>)
      requires MenuOk()
      modifies this`inProgMode, this`line, this`shift, this`level
      ensures MenuOk()
      ensures entered ==> inProgMode
      ensures !entered ==> screen.None? && line == old(line) && shift == old(shift) && level == old(level)
      ensures screen.Some? ==> (0 <= screen.value < EditScreens && level == 1 && line != 0 &&
        screen.value == Selected(Cursor(line, shift)))
      ensures entered ==> (screen, MenuAt(Cursor(line, shift), level)) == MenuRun(MenuAt(Cursor(old(line), old(shift)), old(level)), passes)
    {
      var used;
      entered, used := EnterProg(hold);
      screen := None;
      if !entered {
        return;
      }
      var i := 0;
      while i < |passes|
        invariant i <= |passes|
        invariant MenuOk() && inProgMode && screen.None?
        invariant MenuRun(MenuAt(Cursor(line, shift), level), passes[i..]) == MenuRun(MenuAt(Cursor(old(line), old(shift)), old(level)), passes)
      {
        assert passes[i..][0] == passes[i] && passes[i..][1..] == passes[i + 1..];
        var chosen := MenuPass(passes[i]);
        if chosen.Some? && chosen.value < EditScreens {
          screen := chosen;
          return;
        }
        i := i + 1;
      }
    }
  }
}
