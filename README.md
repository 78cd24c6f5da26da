# Gate operator firmware, modelled in Dafny

The firmware drives a gate motor through a fixed cycle: idle, closing onto the
close limit, open before the mid-stop, the mid-stop, and open after it. Each
phase waits on a limit switch, counts a timer down on the LCD, and pulses a
motor output. A Stop button interrupt raises a stop request. While that
request is pending no motor output is driven, and `initialize` clears it.
A Prog button opens the programming screens, where the timers (and, in
version 7.1, the current and temperature sensor settings) are edited and
saved to a JSON file.

Three revisions of the controller are modelled side by side:
- `main.py`, version 7.1 (`V71`);
- `pico/harmonie_r0.5.py`, version 0.5 (`R05`);
- `pico/main.py`, version 0.1 (`V01`).

The model also covers the half-step rotary decoder of `lib/rotary_enc.py`
and the two scrolling `Menu` classes of `lib/menu.py` and `menu.py`.

Modules:
- `Inputs`: the pins, sample streams (an exhausted stream reads low, as a
  pull-down input does), readPin's verdict, and the press-and-hold loop.
- `Outputs`: the output levels, the record of every pin write, and the stop
  interrupt. The interrupt is an oracle polled at every sleep of the main
  flow.
- `DoorLogic`: the pure state machine of `Logic_loop` and its traces.
- `Door`: class `Controller`, holding the firmware's module globals.
  Methods: `initialize`, `readPin`, `writePin`, `lcd_count_down`,
  `stop_signal_handler`, one pass of `Logic_loop`, `Logic_loop` itself, and
  one pass of `main`.
- `EditRules`: how one press changes a value (wrap, floor, toggle, float
  steps in thousandths).
- `Settings`: class `Panel`, for `main.py`'s settings store, its edit
  screens and its `Configuration` menu. Each screen's loop is specified
  by a function for one pass (`TimersStep`, `GroupStep`, `MenuStep`) and
  one for the passes in a row (`TimersRun`, `GroupRun`, `MenuRun`).
- `PicoTimers`: class `TimerScreen`, for the pico revisions' timer store and
  `change_timers`. The passes of its loop are recorded as snapshots of the
  field shown, the timers and the pin streams, chained by `PassFrom`.
- In `Door`, every method that sleeps states how the stop request moved
  (`StopFrom`): the oracle is only consumed, and a stop is pending at the
  end exactly when one was before or one of the method's polls fired.
- `Window`: the scrolling rule shared by both Menu classes and
  `Configuration`.
- `LibMenu`, `RootMenu`: the two Menu classes.
- `RotaryEnc`: the decoder table and the `Rotary` class.
- `Wrappers`: `Option`.

Where the code and the system's specification disagree, the model follows
the code:
- **No cycle counter.** The specification describes a cycle counter, a
  mid-stop every N-th cycle, and a `Parametres` group. These source files
  have none of them. The mid-stop is taken on every cycle, or, in 7.1 and
  0.5, never when `Mid` is 0.
- **No stop debounce.** `stop_signal_handler` in 7.1 and 0.5 tests
  `Input['Stop'].value` without calling it (`main.py:213`,
  `pico/harmonie_r0.5.py:184`). A bound method is always truthy, so the
  "debounce" always confirms. Version 0.1 has no debounce loop at all.
- **Commits revert the other groups in 7.1.** `write_file` in 7.1 dumps the
  module-level `config`, and `load_file` never updates it. So a commit on
  one screen reloads the other groups with the factory settings, unless
  their own screen committed earlier in the session.
  `Settings.CommitRevertsLoadedFactor` shows this with numbers.
- **The menu line can be 0.** After `initialize` the menu line is 0. In
  `Configuration`, a read of Up or Down that is high only the first time
  sets the menu level to 1 without moving the cursor. A Prog read then runs
  `menu_fct[shift + 0 - 1]`; Python takes index -1 as the last entry
  (`Harmonie`, text only). So "after any Up/Down the line is in
  1..menu_total_lines" holds only once the cursor has moved. The index
  leaves 0..len-1 only as a negative Python index.
  `Settings.Panel.MenuPass` states both facts.
- **The window index has `- 1`.** The item under the menu cursor is
  `shift + line - 1`, not `shift + line`.

## Model

| member | source | states |
|---|---|---|
| Inputs.AllHighConfirmed | main.py:147-159 | counting high readings one at a time, as readPin's loop does, gives True exactly when all `counter` readings are high |
| Inputs.RunEndHeld | main.py:545-553 | the hold counter (reset on a low reading) reaches d exactly when the last d readings were all high |
| Inputs.EnterProgMode | main.py:543-554 | the programming mode is entered at the first point where `delay` consecutive Prog readings were high, and never when no such point exists |
| Outputs.AfterPollsClosed | main.py:205-221 | n sleeps: the oracle moves n polls on, the stop request is raised iff it was raised or a poll fired, one Stop pulse is recorded per fired poll, and the Stop output ends low once any poll fired |
| Outputs.PollsOnStop | main.py:217-221 | any number of sleeps only adds writes to the Stop output, which is all the interrupt writes |
| Outputs.PollsKeepStop | main.py:218 | once raised, the stop request stays raised through any number of sleeps |
| Outputs.PulsedWrites | main.py:164-177 | writePin past its interlocks writes only its pin and Stop, writes 1 to its pin only as its first write and only when it drives, and leaves the pin at 0 |
| Outputs.Handled | main.py:217-221 | a confirmed handler raises the request, appends the Stop pulse 1, 0 to the writes, leaves Stop low and the other levels alone, and takes no poll |
| Outputs.Poll | main.py:154 | one sleep: the oracle moves one poll on, the request is raised iff it was or the poll fired, and a Stop pulse is recorded exactly when it fired |
| Outputs.PulseAfterStops | main.py:164-177 | after a stretch of Stop pulses, writePin past its interlocks leaves its pin pulsed: written 0 last, and written 1 in the stretch exactly when it drives |
| Outputs.FiredMeans | main.py:205-221 | a stop was raised by the first n polls exactly when one of those n oracle samples is high |
| Outputs.StopFromTrans | main.py:205-221 | the oracle tie composes: two stretches of polls in a row move the request as their sequence does |
| Outputs.PolledStop | main.py:154 | n sleeps consume n polls (or the rest of the oracle) and raise the request exactly when one of them fired |
| Outputs.PulsedStop | main.py:164-177 | writePin's one sleep moves the request only by its own poll |
| DoorLogic.NextState | main.py:258-307 | one pass of the state machine: states 0..4 stay in 0..4 after a pass; any other state never changes |
| DoorLogic.MovesIffFires | main.py:258-305 | from a valid state the door moves exactly when the pass fires; the mid-stop always fires |
| DoorLogic.FiredTransitions | main.py:258-305 | 0 goes to 1 on Close (Close wins over Open) and to 2 on Open; 1 goes to 2; 2 goes to 3, or to 1 in 7.1 and 0.5 when Mid is 0; 3 goes to 4; 4 goes to 1 |
| DoorLogic.Trace | main.py:256-307 | the states of successive passes: one per read record, each NextState of the one before (of the start state for the first) on its reads |
| DoorLogic.TraceInRange | main.py:256-307 | every state of a run from 0..4 is in 0..4, whatever the reads |
| DoorLogic.NoMidStopWhenDisabled | main.py:288 | with Mid 0 in 7.1 and 0.5, a run from 0, 1 or 2 never reaches 3 or 4 |
| DoorLogic.TraceFixed | main.py:306-307 | a run from a state outside 0..4 (the ERREUR branch) stays in that state |
| DoorLogic.FinalSnoc | main.py:256 | the state after one pass more is one NextState further on |
| DoorLogic.FinalRange | main.py:256-307 | the final state of a run from 0..4 is in 0..4, from 0..2 with Mid 0 (7.1, 0.5) in 0..2, and from any other state is that state |
| DoorLogic.V01AlwaysMidStops | pico/main.py:166-180 | in 0.1 the open limit always leads to the mid-stop, even when Mid is 0 |
| DoorLogic.CycleWithMidStop | main.py:258-305 | Close, close limit, open limit, mid-stop and open limit visit 1, 2, 3, 4, 1 |
| DoorLogic.CycleWithoutMidStop | main.py:288 | with Mid 0 in 7.1 and 0.5 the same cycle visits 1, 2, 1 |
| DoorLogic.DescendingAt | main.py:196-197 | value i of a countdown is duration - i |
| DoorLogic.DescendingShape | main.py:196-202 | a countdown of at most `duration` values is strictly decreasing, starts at duration, shows only 1..duration, and a full one ends at 1 |
| Door.Controller.constructor | main.py:80-83 | the module-level starting values: state 0, no stop request, not running, outputs low, nothing written |
| Door.MarkTrans | main.py:164-177 | the stop-mark frame composes: the frame of two calls in a row is the frame of their sequence |
| Door.MarkQuiet | main.py:131-132 | writes of level 0 (initialize's outputs low) neither raise the mark nor break the interlock |
| Door.CountDownReads | main.py:196-202 | the number of CloseLmt readings the state-3 countdown takes is at most its number of values |
| Door.CountDownReadsAt | main.py:196-202 | the state-3 countdown with no stop leaves at the first high CloseLmt reading inside it (after n + 1 readings), or after all its values |
| Door.RunSnoc | main.py:256-307 | a run grows by one pass: the pass takes the reads of the streams the run left, and leaves PassPins of them unless a stop cut it |
| Door.Controller.Initialize | main.py:114-134 | state 0, no stop request, not running, all four outputs written low, in the fixed order Open, Close, Stop, Spare; in 7.1 and 0.5, Opn2 is forced to 0 exactly when Mid is 0, and 0.1 leaves the timers alone |
| Door.Controller.StopSignalHandler | main.py:205-221 | the request is raised and the Stop output pulsed high then low whatever the Stop pin reads (the uncalled `.value`); a request it raises is marked at its Stop-high write, and a pending one keeps its mark |
| Door.Controller.Sense | main.py:152 | a raw `Input[p].value()` is the first sample of p's stream and uses it up |
| Door.Controller.Pause | main.py:154 | a sleep of the main flow is one poll of the interrupt oracle |
| Door.Controller.ReadPin | main.py:147-159 | True iff all `counter` readings are high (vacuously for 0, never for a negative counter), using `counter` samples and one interrupt poll per reading |
| Door.Controller.ReadInput | pico/main.py:149-167 | 0.1 reads a pin raw without sleeping, and the debounced revisions call readPin; both give the same verdict |
| Door.Controller.WritePin | main.py:161-177 | with a stop pending nothing is read or written; otherwise Open (Close) is driven high only when OpenLmt (CloseLmt) reads low, the sleep may run the interrupt, and the pin is written 0 |
| Door.Controller.Pulse | main.py:165-177 | past the stop interlock: the pin written 1 when it drives (only a motor output is driven), the sleep (one poll), the pin written 0; the stop mark moves only as the interrupt moves it |
| Door.Controller.PulseMotor | main.py:164-177 | writePin on a motor output after Stop-only writes: with no stop pending at the end, the output was pulsed and driven high exactly when its limit read low; with a stop pending at the start nothing is read or written |
| Door.Controller.CountDownTick | main.py:196-202 | one value of the countdown: it is shown; the loop leaves on a pending stop, or in state 3 when CloseLmt reads high, and sleeps otherwise |
| Door.Controller.CountDownStep | main.py:196-202 | one iteration keeps the countdown invariant: the values shown so far descend from duration, one poll per value shown, no poll fired before, CloseLmt samples used only in state 3 |
| Door.Controller.LcdCountDown | main.py:183-202 | shows duration, duration-1, ... (at most duration values, at least one when duration >= 1); stops right after a value when a stop is pending, or in state 3 when CloseLmt reads high; never sleeps past a fired poll; in state 3 with no stop pending at the end it has taken the CountDownReads of CloseLmt |
| Door.Controller.IdlePass | main.py:258-264 | Close is read first and wins, Open is read only otherwise; only the chosen output may be written; no motor is driven high after a stop request (mark framed); with no stop pending at the end the output was pulsed, driven high exactly when its limit read low, and the streams left are PassPins of state 0; the stop request moves only as StopFrom allows: the interrupt oracle is only consumed, and a stop is pending at the end exactly when one was at the start or a poll the method made fired |
| Door.Controller.Fire | main.py:294-296 | a confirmed pass: the timer's countdown is shown, the state moves to `next`, only the given motor output (and Stop) is written, no motor high after a stop request; with no stop pending at the end that output was pulsed, driven high exactly when its limit read low, and one sample of its limit was taken after the countdown's CloseLmt readings (state 3 only); the stop request moves only as StopFrom allows: the interrupt oracle is only consumed, and a stop is pending at the end exactly when one was at the start or a poll the method made fired |
| Door.Controller.LimitPass | main.py:265-288 | when its limit is confirmed: counts its timer down, moves to the next state and writes only its output; no motor is driven high after a stop request; with no stop pending at the end that output was pulsed, driven high exactly when its limit read low, and the pass took one sample of its limit and (when it fired) one of the output's limit; the stop request moves only as StopFrom allows: the interrupt oracle is only consumed, and a stop is pending at the end exactly when one was at the start or a poll the method made fired |
| Door.Controller.MidPass | main.py:289-296 | the mid-stop counts Mid down and goes to 4 unconditionally; no motor is driven high after a stop request; with no stop pending at the end Open was pulsed, driven high exactly when OpenLmt read low, and the pass took the CountDownReads of CloseLmt and one sample of OpenLmt; the stop request moves only as StopFrom allows: the interrupt oracle is only consumed, and a stop is pending at the end exactly when one was at the start or a poll the method made fired |
| Door.Controller.Step | main.py:256-307 | one pass moves the state by NextState of the reads it starts from; a firing pass writes only Stop and the output it drives and shows its timer's countdown; no motor is driven high after a stop request (mark framed); with no stop pending at the end it pulsed that output (high exactly when its limit read low) and left the streams PassPins of those it started from; a state outside 0..4 changes nothing; the stop request moves only as StopFrom allows: the interrupt oracle is only consumed, and a stop is pending at the end exactly when one was at the start or a poll the method made fired |
| Door.Controller.LogicLoop | main.py:248-307 | the controller is marked running; passes run until a stop is pending (or `rounds` are made), none when one is pending at the start; the reads and streams of the passes form a Run: each pass took the reads of the streams it started from and left PassPins of them, all but a last pass cut by a stop; the state is the final state of NextState over those reads; only Open, Close and Stop are written, and no motor high after a stop request; the stop request moves only as StopFrom allows: the interrupt oracle is only consumed, and a stop is pending at the end exactly when one was at the start or a poll the method made fired |
| Door.Controller.ReadStart | main.py:599 | `readPin('Close') or readPin('Open')`: Open is read only when Close is not confirmed; one sample of each pin read, Prog left alone; the stop request moves only as StopFrom allows: the interrupt oracle is only consumed, and a stop is pending at the end exactly when one was at the start or a poll the method made fired |
| Door.Controller.Dispatch | main.py:598-602 | a confirmed Close or Open runs Logic_loop, which ends on a stop or after `rounds` passes, and a run is made only then; otherwise Prog is read and reported, nothing else is read, and the state does not move; the stop request moves only as StopFrom allows: the interrupt oracle is only consumed, and a stop is pending at the end exactly when one was at the start or a poll the method made fired |
| Door.Controller.MainPass | main.py:597-604 | when not running, Dispatch; a running controller reads nothing; the run of Logic_loop it made starts from the streams the button reads left, and with no stop the state is its final state (the start state when it did not run); no motor is driven high after a stop request up to `initialize`, which clears a stop pending at the end (always when one was at the start): state 0, not running, outputs low, the Opn2 rule applied; otherwise the timers are unchanged; `stopped` (the request `initialize` then clears) was pending at the start or raised by one of the pass's own interrupt polls |
| Door.Controller.Recover | main.py:603-604 | a pending stop request runs `initialize`: request cleared, state 0, not running, outputs low, the Opn2 rule applied, and the interlock of the cleared request kept (only level-0 writes); with none pending nothing changes |
| EditRules.WrapUp | main.py:359-361 | Next on the timers screen adds one modulo 1000 on 0..999, and anything from 999 up gives 0 |
| EditRules.WrapDown | main.py:365-367 | Previous subtracts one modulo 1000 on 0..999, and anything from 0 down gives 999 |
| EditRules.WrapInverse | main.py:358-368 | on 0..999 Next and Previous undo each other |
| EditRules.FloorDown | pico/main.py:233-237 | Down in 0.1 subtracts one and never goes below 0 |
| EditRules.FloorDownUndoesUp | pico/main.py:228-237 | in 0.1 Down undoes Up on a non-negative value |
| EditRules.AddOne | main.py:423-424 | `value += 1`: a string raises; a number gains one whole unit and an integer stays an integer |
| EditRules.SubOneFloored | main.py:432-433 | `value -= 1 if int(value) >= 1 else 0`: a string raises; a number loses one whole unit when at least 1 and is kept otherwise |
| EditRules.AddStep | main.py:425-426 | `value += 0.001` (0.01 on Temp): a string raises; the result is a float one step larger |
| EditRules.SubStepFloored | main.py:434-435 | `value -= step if float(value) >= step else 0`: a string raises; a number loses one step when at least one step and is kept otherwise |
| EditRules.Toggle | main.py:421-422 | Status: Inactive becomes Active and anything else Inactive |
| EditRules.ToggleTwice | main.py:430-431 | toggling twice restores Active or Inactive |
| EditRules.Edit | main.py:420-437 | Status toggles on Up and Down; unknown keys keep their value; stepping a string is an error exactly on a numeric key; numbers stay numbers, and Down never takes a non-negative number below 0 |
| EditRules.EditSteps | main.py:483-500 | Up adds one unit (1, or 0.001 on Current and 0.01 on Temp for V_max/V0_ref); Down subtracts it when the number is at least one unit and otherwise leaves it |
| EditRules.EditInverse | main.py:420-437 | Down undoes Up on a non-negative number |
| Settings.MenuShape | main.py:90-94 | the menu has 7 entries and shows 4 lines |
| Settings.CommitKeepsOthers | main.py:348-352 | a timers commit sets only the edited key of the live timers and takes the other groups from `config`; a group commit likewise |
| Settings.CommitRevertsLoadedFactor | main.py:109-112 | a Factor of 70 loaded from the file is back at 60 after a timer commit |
| Settings.Advanced | main.py:355 | Select shows the next key and its stored value; past the last key StopIteration restarts the iterator, and the screen keeps the last key |
| Settings.AdvancedWraps | main.py:375-376 | two Selects past the last key show the first key again |
| Settings.First | main.py:339-340 | the first key is shown; an empty group raises StopIteration |
| Settings.TimersStep | main.py:347-368 | one turn of Config_Timers on field and store: the field keeps tracking its key in the live timers and the keys are kept |
| Settings.TimersRun | main.py:345-376 | the turns one after the other, keeping the keys and the tracked field |
| Settings.TimersRunNoSelect | main.py:347-353 | turns without a Select leave `config`, the live groups and the file as they were |
| Settings.GroupStep | main.py:392-443 | one pass of Config_Current or Config_Temp on field, `format_str` and store: the keys are kept and a field shown keeps tracking its key; a pass raises on a string stepped by Up or Down, or at the redraw of a string under `{2:<8.3f}` |
| Settings.GroupRun | main.py:392-443 | the passes one after the other up to the first that raises (a stepped string or the redraw), keeping the keys |
| Settings.GroupRunNoProg | main.py:394-400 | passes in which Prog never reads high leave the store as it was |
| Settings.GroupStepNoRaise | main.py:394-439 | a Prog pass or a pass with no key read does not raise from such a state, and leaves one: a commit stores a value that may be redrawn, and a key shown with a string takes the padded format |
| Settings.GroupRunNoRaise | main.py:392-443 | with no pass reading Up or Down alone, nothing raises as long as every string of the group and the value shown sit under a key shown with `{2:<8}` and the value shown can be redrawn |
| Settings.TextUnderFixedRaises | main.py:415-439 | the Current screen on N_lectures with V_max holding the string "3.3": one Prog pass raises at the redraw |
| Settings.MenuRun | main.py:558-578 | menu passes up to the first that picks an edit screen; a pick it returns is below EditScreens |
| Settings.MenuRunFirst | main.py:577-578 | MenuRun picks exactly when some pass picks an edit screen, and then it is the pick of the first such pass, no earlier pass picking one |
| Settings.Panel.constructor | main.py:89-98 | factory `config`, empty live groups, menu line 1, shift 0, level 0 |
| Settings.Panel.LoadFile | main.py:100-107 | every group is replaced by the file's; a missing file changes nothing |
| Settings.Panel.WriteFile | main.py:109-112 | the file receives `config`, not the live groups |
| Settings.Panel.Boot | main.py:587-591 | an existing file is loaded; a missing one is written from `config` and loaded |
| Settings.Panel.ResetMenu | main.py:120-126 | menu line, shift and level 0 and the programming mode left |
| Settings.Panel.CommitTimers | main.py:349-353 | update, store in `config`, write, reload: live groups and file equal the new `config` |
| Settings.Panel.CommitGroup | main.py:396-400 | the same for the Current or Temp group |
| Settings.Panel.TimersTurn | main.py:347-368 | equals TimersStep on the field and the store (`config`, live groups, file): Next and Previous wrap in 0..999 and mark the value modified; Select commits only a modified value and only under its key, then shows the next key; 0..999 is kept |
| Settings.Panel.TimersSession | main.py:331-376 | an empty group crashes and changes nothing; otherwise the store left is TimersRun of the turns from the first key, keys and 0..999 are kept, nothing changes until the first commit, after which file and live groups equal `config` |
| Settings.Panel.GroupPass | main.py:394-441 | equals GroupStep on the field, the format and the store: Prog commits only a modified value under its key, shows the next and takes its format (none when the iterator restarts, and then no redraw); Up and Down edit by Edit and mark modified; stepping a string raises, and so does redrawing a string under `{2:<8.3f}`; no number goes negative |
| Settings.Panel.GroupSession | main.py:379-506 | Config_Current and Config_Temp: an empty group crashes and changes nothing; otherwise whether it raised and the store left are GroupRun of the passes from the first key with no format yet; keys kept, no number of the group goes negative, and after a commit file and live groups equal `config` |
| Settings.Panel.EnterProg | main.py:543-554 | the menu opens only after 2 consecutive confirmed Prog readings |
| Settings.Panel.MenuPass | main.py:558-578 | equals MenuStep on the cursor and level: Up or Down sets level 1 and moves the cursor by the window rule; once moved the cursor is in bounds; Prog at level 1 picks the item under the cursor, or the last entry from line 0 |
| Settings.Panel.Configuration | main.py:539-578 | after the hold, the pick and the cursor and level left are MenuRun of the passes: the first pass whose pick is an edit screen (one of the first three entries), none before it; menu bounds are kept; without the hold nothing moves |
| PicoTimers.WrapHoldUp | pico/harmonie_r0.5.py:299-305 | holding Up for n readings in 0.5 adds n modulo 1000 |
| PicoTimers.WrapHoldDown | pico/harmonie_r0.5.py:306-312 | holding Down for n readings in 0.5 subtracts n modulo 1000 |
| PicoTimers.FloorHold | pico/main.py:228-239 | in 0.1 holding Up adds n, unbounded, and holding Down subtracts n but not below 0 |
| PicoTimers.TimerScreen.constructor | pico/harmonie_r0.5.py:17-23 | the built-in timers of each revision |
| PicoTimers.TimerScreen.LoadFile | pico/harmonie_r0.5.py:77-83 | the merge: a key is in the timers afterwards iff it was before or is in the file, and has the file's value if the file has it and its old value otherwise; a missing file changes nothing |
| PicoTimers.TimerScreen.WriteFile | pico/harmonie_r0.5.py:85-88 | the file receives the timers |
| PicoTimers.TimerScreen.Boot | pico/harmonie_r0.5.py:324-327 | an existing file is merged in; a missing file is written from the built-in timers, with no reload |
| PicoTimers.TimerScreen.Sense | pico/harmonie_r0.5.py:275 | a raw read is the first sample of the pin's stream and uses it up |
| PicoTimers.TimerScreen.HoldProg | pico/harmonie_r0.5.py:267-279 | raw Prog readings from the Prog stream; the mode opens at the first point with 3 consecutive high readings |
| PicoTimers.TimerScreen.HoldUp | pico/harmonie_r0.5.py:299-305 | one step per leading high Up reading, up to and including the first low one; modified iff it stepped |
| PicoTimers.TimerScreen.HoldDown | pico/harmonie_r0.5.py:306-312 | the same for Down |
| PicoTimers.TimerScreen.HoldKeys | pico/main.py:228-239 | Up then Down keep the key and keep the value in its revision's range |
| PicoTimers.TimerScreen.Keeps | pico/harmonie_r0.5.py:299-312 | holding a key keeps 0..999 in 0.5 and non-negativity in 0.1 |
| PicoTimers.TimerScreen.Unshown | pico/harmonie_r0.5.py:299-306 | Up or Down read high before any timer was shown ends the session with an error |
| PicoTimers.TimerScreen.Commit | pico/harmonie_r0.5.py:288-291 | update one key, write, merge back: the timers get the new value under that key only and the file equals them |
| PicoTimers.TimerScreen.ProgPress | pico/harmonie_r0.5.py:287-298 | Prog commits only when changed and only the shown key, then shows the next timer; past the last (or with none) the iterator restarts and the pass ends |
| PicoTimers.TimerScreen.Pass | pico/main.py:215-240 | Prog, then held Up, then held Down; a commit exactly when Prog reads high on a modified field; the field left is PassField (AfterProg of Prog, then Held over the Up and Down streams unless the iterator restarted or no timer is shown) and the streams left are PassStreams (one Prog sample, the Up and Down samples those holds take); an error exactly when Up or Down is high before any timer was shown; keys and ranges are kept; PassFrom holds from before to after |
| PicoTimers.TimerScreen.Holds | pico/main.py:228-240 | after a restart nothing is read; with no timer shown the first Up or Down high is the error (unbound `value`); otherwise the shown timer takes every Up step then every Down step, keeps its key and its range, and the holds take Leading + 1 samples of each key |
| PicoTimers.TimerScreen.Round | pico/main.py:214-240 | one reading of the loop test; it consumes one Stop sample; when it reads true nothing else changes, otherwise one pass is made: PassFrom holds from the field, timers and streams before to those after, it commits exactly when Commits and raises exactly when Crashes |
| PicoTimers.TimerScreen.ChangeTimers | pico/harmonie_r0.5.py:263-314 | without the hold only the Prog readings are used; after it, Programmed: `passes` passes form a session (Passes) from no timer shown, each made after a loop test that read false; `crashed` iff the last raised, `saved` iff some pass committed; the session ends on the first true test (consumed), on an error or after `rounds`; keys and ranges kept; with no commit timers and file unchanged, after one the file equals the timers |
| PicoTimers.TimerScreen.SessionRound | pico/main.py:214-240 | a Round inside a session: on a false test the pass made is appended to the snapshots and the session (Passes, commits seen) still holds |
| PicoTimers.TimerScreen.LoopRound | pico/harmonie_r0.5.py:285-314 | one turn of the programming loop keeps the store, the session record and the loop tests, adding one pass when it does not end |
| PicoTimers.TimerScreen.ProgLoop | pico/harmonie_r0.5.py:285-314 | the programming loop from no timer shown ends in Programmed |
| PicoTimers.PassesSnoc | pico/main.py:214-240 | a session grows by one pass made from its last snapshot after a pass that did not raise |
| PicoTimers.SavedSnoc | pico/main.py:216-221 | a session committed something after one pass more iff it had before or that pass committed |
| Window.PySlice | lib/menu.py:11 | Python slicing with clamped bounds, equal to the Dafny slice when the bounds are in range |
| Window.AdvanceMovesOne | lib/menu.py:17-21 | next moves the cursor if it is above the last line, else scrolls while the window is short of the end, and never both |
| Window.RetreatMovesOne | lib/menu.py:24-30 | previous maps line 0 to 1, moves the cursor up when above line 1, else scrolls back while shift > 0 |
| Window.AdvanceInBounds | menu.py:14-18 | from line 0..total and a window in the list, next lands on a visible line with the window in the list |
| Window.RetreatInBounds | menu.py:21-27 | the same for previous, which takes line 0 to line 1 |
| Window.SelectedIsIndex | lib/menu.py:17-32 | when the window fits the list, shift + line - 1 is a valid index |
| Window.SelectedMoves | main.py:560-573 | seen through the selected index, Up is a counter stopping at the last item and Down one stopping at the first |
| Window.ViewShape | lib/menu.py:10-11 | under the shift bound the view has min(total, len) items, item k being items[shift + k] |
| Window.ViewShowsSelected | main.py:533-536 | the line under the cursor shows the selected item |
| LibMenu.Menu.constructor | lib/menu.py:4-8 | line 1, shift 0, items and total stored as given |
| LibMenu.Menu.Show | lib/menu.py:10-11 | the visible slice, of min(total, len) items under the shift bound |
| LibMenu.Menu.Update | lib/menu.py:13-15 | replaces the items, keeping line and shift |
| LibMenu.Menu.Next | lib/menu.py:17-22 | one Advance step; the bounds are kept; returns what show returns afterwards |
| LibMenu.Menu.Previous | lib/menu.py:24-32 | one Retreat step; the bounds are kept; returns what show returns afterwards |
| RootMenu.Menu.constructor | menu.py:4-9 | line 1, level 1, shift 0 |
| RootMenu.Menu.Show | menu.py:11-12 | the visible slice |
| RootMenu.Menu.Next | menu.py:14-19 | one Advance step, leaving the list and the level alone; bounds kept; returns the new view |
| RootMenu.Menu.Previous | menu.py:21-29 | one Retreat step, leaving the list and the level alone; bounds kept; returns the new view |
| RotaryEnc.Column | lib/rotary_enc.py:70 | the column of a sample is 2·clk + dt, in 0..3 |
| RotaryEnc.Lookup | lib/rotary_enc.py:71 | the lookup succeeds exactly when the masked state is one of the 6 rows |
| RotaryEnc.TableClosed | lib/rotary_enc.py:41-47 | every entry of the table, masked with 0x07, is a row again |
| RotaryEnc.Next | lib/rotary_enc.py:71 | the table step on a state in the table: the lookup succeeds with it, and it is in the table again |
| RotaryEnc.Increment | lib/rotary_enc.py:72-81 | +1 exactly for the CW flag, -1 exactly for the CCW flag, else 0 |
| RotaryEnc.DirectionalTransitions | lib/rotary_enc.py:41-47 | only (CW_2, 00) and (CCW_1, 11) give +1, and only (CW_1, 00) and (CCW_2, 11) give -1 |
| RotaryEnc.Run | lib/rotary_enc.py:69-81 | successive value() calls, each giving -1, 0 or +1 |
| RotaryEnc.HalfDetentsFromStart | lib/rotary_enc.py:42-44 | from START, 01 then 00 gives 0, +1, and 10 then 00 gives 0, -1 |
| RotaryEnc.HalfDetentsFromCw3 | lib/rotary_enc.py:45-47 | from CW_3, 10 then 11 gives 0, +1, and 01 then 11 gives 0, -1 |
| RotaryEnc.BounceRejected | lib/rotary_enc.py:42-44 | from START, 01-11 and 10-11 return to START with no step, and 11 keeps START |
| RotaryEnc.FullCycles | lib/rotary_enc.py:41-47 | a full electrical cycle each way gives two steps of the same sign |
| RotaryEnc.Rotary.constructor | lib/rotary_enc.py:54-60 | START, value 0, not selected |
| RotaryEnc.Rotary.Reset | lib/rotary_enc.py:62-63 | clears the value and nothing else |
| RotaryEnc.Rotary.Select | lib/rotary_enc.py:65-67 | records and returns whether the switch reads high, touching nothing else |
| RotaryEnc.Rotary.Value | lib/rotary_enc.py:69-81 | steps the table on one sample of both lines and returns +1, -1 or 0 by the new state's flag; the state stays a row |

## Left out

- LCD output, I2C and the display text: the countdown is kept as the record of values shown, and all other display writes are omitted. Of the value redraw on the Current and Temp screens only its format and the ValueError it raises on a string are kept.
- ADC readings (`read_current`, `read_temp`, `read_temps`), the `current_timer` callbacks and `Current['Status']` checks in writePin: these are floating-point sensor conversions driven by hardware timers.
- Floating-point rounding: V_max and V0_ref are kept in whole thousandths, which covers every value the firmware writes or steps by.
- Sleep durations, `machine.freq` and `gc.collect`: only the fact that a sleep happens is kept, as the point where the interrupt may run.
- Interrupt timing: the interrupt runs only at the sleeps of the main flow, not between two statements. It is not polled during initialize's 2-second pause or the sleeps of the programming screens.
- JSON parsing and file contents: the file is an abstract stored value, assumed well-formed, so a malformed file is not modelled.
- Dictionary iteration order: MicroPython does not fix it, so it is a parameter (`order`) of the screens and of the merge.
- `rotary_switch` (main.py:310-328): its reads of the Down and Up pins have no timing model, so the timers screen takes its results as Turn events. Repeated calls in one if/elif chain count as one turn.
- `Chavtha`, `Dan`, `Manaras`, `Harmonie`, `show_menu`: these only write text. `Settings.Panel.Configuration` returns to the menu after them.
- Demo scripts (`rotary_encoder.py`, `pico/test.py`, `pico/test_json.py`, `pico/lcd_test_2.py`, `main` of `lib/rotary_enc.py`): polling and printing only.
- Missing timer keys: the KeyError raised for a missing Cls, Opn1, Mid or Opn2 is outside the model. The door methods require the keys (`TimersReady`).
- Door.Controller.Step: when a stop arrives during a pass, the streams it leaves are not stated. How far the pass got depends on the sleep in which the interrupt fired. The same holds for the last pass of `Door.Controller.LogicLoop` and `Door.Controller.MainPass`, and for `IdlePass`, `LimitPass` and `MidPass`.
- Door.Controller.timers, Settings.Panel.live, PicoTimers.TimerScreen.timers: the firmware has one global `Timers`; the model keeps three unlinked fields. So the model does not carry these links: initialize's `Opn2 = 0` is what Config_Timers shows (main.py:134, 339); a commit saves the Timers that initialize changed (main.py:350-351); and committed edits are what the next Logic_loop counts down.
- Door.Controller.Initialize: writes the outputs low in the fixed order Open, Close, Stop, Spare. The firmware iterates the Output dictionary, whose order MicroPython does not fix; only the order of these four writes depends on it.
- Door.Controller.LogicLoop: makes at most `rounds` passes. The firmware loops until a stop arrives, including the busy ERREUR loop of an invalid state.
- Door.Controller.MainPass: reports a confirmed Prog as `prog` and does not run `Configuration` or `change_timers` itself. Those are `Settings.Panel.Configuration` and `PicoTimers.TimerScreen.ChangeTimers`.
- Inputs.EnterProgMode: the firmware waits for ever for the hold; here the wait also ends when the readings run out. The same applies to `Settings.Panel.EnterProg` and `PicoTimers.TimerScreen.HoldProg`.
- Settings.Panel.TimersSession: runs over the turns it is given, and the stop request comes after the last one. `Settings.Panel.GroupSession` does the same with its passes.
- Settings.Panel.Configuration: takes its hold readings and menu passes as separate inputs, and ends at the chosen edit screen instead of running it.
- PicoTimers.TimerScreen.ChangeTimers: makes at most `rounds` passes.
- Door.Controller.ReadPin: the `delay_readPin` sleep after each reading is one interrupt poll, and its length is left out.
