/**
 * The input listener: the raw-event taxonomy, the per-session metrics, the
 * state machine that updates them on each event, and the listener object
 * that runs it and pushes one serialized snapshot per event into the shared
 * activity queue whenever a foreground window is known.
 */
module Input {
  import opened Wrappers
  import opened Activity
  import opened Capture

  /** Two presses of one button closer together than this many milliseconds make a double click. */
  const DoubleClickWindow: nat := 500

  /** The keys the listener tells apart; `Other` stands for every other key of the hook. */
  datatype Key =
    | ControlLeft | ControlRight | Alt | AltGr | ShiftLeft | ShiftRight
    | Return | Backspace
    | LeftArrow | RightArrow | UpArrow | DownArrow | Home | End | PageUp | PageDown
    | F1 | F2 | F3 | F4 | F5 | F6 | F7 | F8 | F9 | F10 | F11 | F12
    | KeyC | KeyV
    | Other(code: nat)

  datatype Button = Left | Right | Middle | Unknown(code: nat)

  /** One raw event of the global hook; the pointer coordinates and wheel deltas it carries are never read, so they are not kept. */
  datatype EventType =
    | KeyPress(key: Key)
    | KeyRelease(key: Key)
    | ButtonPress(button: Button)
    | ButtonRelease(button: Button)
    | MouseMove
    | Wheel

  datatype ModStats = ModStats(alt: nat, shift: nat, ctrl: nat)
  datatype NavKeys = NavKeys(pgupPgdn: nat, arrows: nat, homeEnd: nat)
  datatype FunctionKeys = FunctionKeys(f1F12: nat)
  datatype MouseStats = MouseStats(
    leftClicks: nat, rightClicks: nat, middleClicks: nat,
    scrolls: nat, moves: nat, doubleClicks: nat, drags: nat)

  /** The running counters of one listener session. */
  datatype Metrics = Metrics(
    kpm: nat, charCount: nat, backspaceCount: nat, enterCount: nat,
    copyCount: nat, pasteCount: nat,
    mods: ModStats, navKeys: NavKeys, functionKeys: FunctionKeys, mouse: MouseStats)

  /** `Metrics::default()`: every counter zero. */
  const ZeroMetrics: Metrics := Metrics(
    0, 0, 0, 0, 0, 0,
    ModStats(0, 0, 0), NavKeys(0, 0, 0), FunctionKeys(0), MouseStats(0, 0, 0, 0, 0, 0, 0))

  /** Everything the listener's callback remembers between events. */
  datatype ListenerState = ListenerState(
    metrics: Metrics,
    ctrlPressed: bool,
    mousePressed: bool,
    lastClickTime: nat,
    lastClickButton: Button)

  /** The listener's state before its first event. */
  const Initial: ListenerState := ListenerState(ZeroMetrics, false, false, 0, Left)

  /** The foreground window as the window lookup reports it: `(app, process, title, pid)`. */
  datatype WindowInfo = WindowInfo(appName: string, processName: string, windowTitle: string, pid: nat)

  /** The record serialized into the queue: the window, a timestamp and the metrics snapshot. */
  datatype ActivityEvent = ActivityEvent(
    appName: string, windowTitle: string, processName: string, pid: nat,
    timestamp: string, metrics: Metrics)

  /** The callback's effect of a key press: one counter advances, and a Ctrl key sets `ctrlPressed`. */
  function KeyPressed(s: ListenerState, key: Key): ListenerState
  {
    var m := s.metrics;
    match key
    case ControlLeft | ControlRight =>
      s.(ctrlPressed := true, metrics := m.(mods := m.mods.(ctrl := m.mods.ctrl + 1)))
    case Alt | AltGr => s.(metrics := m.(mods := m.mods.(alt := m.mods.alt + 1)))
    case ShiftLeft | ShiftRight => s.(metrics := m.(mods := m.mods.(shift := m.mods.shift + 1)))
    case Return => s.(metrics := m.(enterCount := m.enterCount + 1))
    case Backspace => s.(metrics := m.(backspaceCount := m.backspaceCount + 1))
    case LeftArrow | RightArrow | UpArrow | DownArrow =>
      s.(metrics := m.(navKeys := m.navKeys.(arrows := m.navKeys.arrows + 1)))
    case Home | End => s.(metrics := m.(navKeys := m.navKeys.(homeEnd := m.navKeys.homeEnd + 1)))
    case PageUp | PageDown => s.(metrics := m.(navKeys := m.navKeys.(pgupPgdn := m.navKeys.pgupPgdn + 1)))
    case F1 | F2 | F3 | F4 | F5 | F6 | F7 | F8 | F9 | F10 | F11 | F12 =>
      s.(metrics := m.(functionKeys := m.functionKeys.(f1F12 := m.functionKeys.f1F12 + 1)))
    case KeyC =>
      if s.ctrlPressed then s.(metrics := m.(copyCount := m.copyCount + 1))
      else s.(metrics := m.(charCount := m.charCount + 1))
    case KeyV =>
      if s.ctrlPressed then s.(metrics := m.(pasteCount := m.pasteCount + 1))
      else s.(metrics := m.(charCount := m.charCount + 1))
    case Other(_) => s.(metrics := m.(charCount := m.charCount + 1))
  }

  /**
   * The callback's effect on its state for one event at time `ts`. A button
   * press subtracts the previous press time from `ts`, so it needs a clock
   * that has not gone back since that press.
   */
  function Step(s: ListenerState, event: EventType, ts: nat): ListenerState
    requires event.ButtonPress? ==> s.lastClickTime <= ts
  {
    var m := s.metrics;
    match event
    case KeyPress(key) => KeyPressed(s, key)
    case KeyRelease(key) =>
      if key == ControlLeft || key == ControlRight then s.(ctrlPressed := false) else s
    case ButtonPress(button) =>
      var isDouble := ts - s.lastClickTime < DoubleClickWindow && button == s.lastClickButton;
      var m1 := if isDouble then m.(mouse := m.mouse.(doubleClicks := m.mouse.doubleClicks + 1)) else m;
      var m2 :=
        (match button
        case Left => m1.(mouse := m1.mouse.(leftClicks := m1.mouse.leftClicks + 1))
        case Right => m1.(mouse := m1.mouse.(rightClicks := m1.mouse.rightClicks + 1))
        case Middle => m1.(mouse := m1.mouse.(middleClicks := m1.mouse.middleClicks + 1))
        case Unknown(_) => m1);
      s.(metrics := m2, mousePressed := true, lastClickTime := ts, lastClickButton := button)
    case ButtonRelease(_) => s.(mousePressed := false)
    case MouseMove =>
      var m1 := m.(mouse := m.mouse.(moves := m.mouse.moves + 1));
      if s.mousePressed then s.(metrics := m1.(mouse := m1.mouse.(drags := m1.mouse.drags + 1)))
      else s.(metrics := m1)
    case Wheel => s.(metrics := m.(mouse := m.mouse.(scrolls := m.mouse.scrolls + 1)))
  }

  /** The names of the individual counters of `Metrics`. */
  datatype Counter =
    | Kpm | Chars | Backspaces | Enters | Copies | Pastes
    | AltPresses | ShiftPresses | CtrlPresses
    | PgUpPgDn | Arrows | HomeEnd | FunctionKeyPresses
    | LeftClicks | RightClicks | MiddleClicks | Scrolls | Moves | DoubleClicks | Drags

  /** The value of one counter. */
  function Count(m: Metrics, c: Counter): nat {
    match c
    case Kpm => m.kpm
    case Chars => m.charCount
    case Backspaces => m.backspaceCount
    case Enters => m.enterCount
    case Copies => m.copyCount
    case Pastes => m.pasteCount
    case AltPresses => m.mods.alt
    case ShiftPresses => m.mods.shift
    case CtrlPresses => m.mods.ctrl
    case PgUpPgDn => m.navKeys.pgupPgdn
    case Arrows => m.navKeys.arrows
    case HomeEnd => m.navKeys.homeEnd
    case FunctionKeyPresses => m.functionKeys.f1F12
    case LeftClicks => m.mouse.leftClicks
    case RightClicks => m.mouse.rightClicks
    case MiddleClicks => m.mouse.middleClicks
    case Scrolls => m.mouse.scrolls
    case Moves => m.mouse.moves
    case DoubleClicks => m.mouse.doubleClicks
    case Drags => m.mouse.drags
  }

  const CtrlKeys: set<Key> := {ControlLeft, ControlRight}
  const FunctionKeySet: set<Key> := {F1, F2, F3, F4, F5, F6, F7, F8, F9, F10, F11, F12}

  /** The one counter a key press is meant to advance, given whether Ctrl is held. */
  function KeyCounter(key: Key, ctrlPressed: bool): Counter {
    if key in CtrlKeys then CtrlPresses
    else if key in {Alt, AltGr} then AltPresses
    else if key in {ShiftLeft, ShiftRight} then ShiftPresses
    else if key == Return then Enters
    else if key == Backspace then Backspaces
    else if key in {LeftArrow, RightArrow, UpArrow, DownArrow} then Arrows
    else if key in {Home, End} then HomeEnd
    else if key in {PageUp, PageDown} then PgUpPgDn
    else if key in FunctionKeySet then FunctionKeyPresses
    else if ctrlPressed && key == KeyC then Copies
    else if ctrlPressed && key == KeyV then Pastes
    else Chars
  }

  /** The click counter of a button, if it has one. */
  function ClickCounters(button: Button): set<Counter> {
    if button == Left then {LeftClicks}
    else if button == Right then {RightClicks}
    else if button == Middle then {MiddleClicks}
    else {}
  }

  /**
   * Reference statement of which counters one event advances: exactly the
   * key's counter for a key press; the double-click counter (when the same
   * button was pressed less than `DoubleClickWindow` ms before) and the
   * button's click counter for a button press; moves, plus drags while a
   * button is held, for a move; scrolls for the wheel; none for a release.
   */
  function Bumped(s: ListenerState, event: EventType, ts: nat): set<Counter> {
    match event
    case KeyPress(key) => {KeyCounter(key, s.ctrlPressed)}
    case KeyRelease(_) => {}
    case ButtonPress(button) =>
      (if button == s.lastClickButton && ts < s.lastClickTime + DoubleClickWindow then {DoubleClicks} else {})
      + ClickCounters(button)
    case ButtonRelease(_) => {}
    case MouseMove => {Moves} + (if s.mousePressed then {Drags} else {})
    case Wheel => {Scrolls}
  }

  /** The metrics with counter `c` advanced by one. */
  function Bump(m: Metrics, c: Counter): Metrics {
    match c
    case Kpm => m.(kpm := m.kpm + 1)
    case Chars => m.(charCount := m.charCount + 1)
    case Backspaces => m.(backspaceCount := m.backspaceCount + 1)
    case Enters => m.(enterCount := m.enterCount + 1)
    case Copies => m.(copyCount := m.copyCount + 1)
    case Pastes => m.(pasteCount := m.pasteCount + 1)
    case AltPresses => m.(mods := m.mods.(alt := m.mods.alt + 1))
    case ShiftPresses => m.(mods := m.mods.(shift := m.mods.shift + 1))
    case CtrlPresses => m.(mods := m.mods.(ctrl := m.mods.ctrl + 1))
    case PgUpPgDn => m.(navKeys := m.navKeys.(pgupPgdn := m.navKeys.pgupPgdn + 1))
    case Arrows => m.(navKeys := m.navKeys.(arrows := m.navKeys.arrows + 1))
    case HomeEnd => m.(navKeys := m.navKeys.(homeEnd := m.navKeys.homeEnd + 1))
    case FunctionKeyPresses => m.(functionKeys := m.functionKeys.(f1F12 := m.functionKeys.f1F12 + 1))
    case LeftClicks => m.(mouse := m.mouse.(leftClicks := m.mouse.leftClicks + 1))
    case RightClicks => m.(mouse := m.mouse.(rightClicks := m.mouse.rightClicks + 1))
    case MiddleClicks => m.(mouse := m.mouse.(middleClicks := m.mouse.middleClicks + 1))
    case Scrolls => m.(mouse := m.mouse.(scrolls := m.mouse.scrolls + 1))
    case Moves => m.(mouse := m.mouse.(moves := m.mouse.moves + 1))
    case DoubleClicks => m.(mouse := m.mouse.(doubleClicks := m.mouse.doubleClicks + 1))
    case Drags => m.(mouse := m.mouse.(drags := m.mouse.drags + 1))
  }

  /** Advancing counter `c` changes counter `d` by one when they are the same and not at all otherwise. */
  lemma CountBumpAt(m: Metrics, c: Counter, d: Counter)
    ensures Count(Bump(m, c), d) == Count(m, d) + (if d == c then 1 else 0)
  {
  }

  /** Advancing one counter changes that counter by one and no other. */
  lemma CountBump(m: Metrics, c: Counter)
    ensures forall d :: Count(Bump(m, c), d) == Count(m, d) + (if d == c then 1 else 0)
  {
    forall d
      ensures Count(Bump(m, c), d) == Count(m, d) + (if d == c then 1 else 0)
    {
      CountBumpAt(m, c, d);
    }
  }

  /** A key press advances exactly one counter, the one `KeyCounter` names, and never `kpm`. */
  lemma KeyPressBumpsOne(s: ListenerState, key: Key, ts: nat)
    ensures KeyCounter(key, s.ctrlPressed) != Kpm
    ensures Step(s, KeyPress(key), ts).metrics == Bump(s.metrics, KeyCounter(key, s.ctrlPressed))
    ensures forall c :: Count(Step(s, KeyPress(key), ts).metrics, c)
                        == Count(s.metrics, c) + (if c == KeyCounter(key, s.ctrlPressed) then 1 else 0)
  {
    CountBump(s.metrics, KeyCounter(key, s.ctrlPressed));
  }

  /** A button press advances the double-click counter when it repeats the last button within the window, and the button's click counter. */
  lemma ButtonPressBumps(s: ListenerState, button: Button, ts: nat)
    requires s.lastClickTime <= ts
    ensures forall c :: Count(Step(s, ButtonPress(button), ts).metrics, c)
                        == Count(s.metrics, c) + (if c in Bumped(s, ButtonPress(button), ts) then 1 else 0)
  {
    var m := s.metrics;
    var isDouble := ts - s.lastClickTime < DoubleClickWindow && button == s.lastClickButton;
    var m1 := if isDouble then Bump(m, DoubleClicks) else m;
    CountBump(m, DoubleClicks);
    var m2 := Step(s, ButtonPress(button), ts).metrics;
    match button {
      case Left =>
        assert m2 == Bump(m1, LeftClicks);
        CountBump(m1, LeftClicks);
      case Right =>
        assert m2 == Bump(m1, RightClicks);
        CountBump(m1, RightClicks);
      case Middle =>
        assert m2 == Bump(m1, MiddleClicks);
        CountBump(m1, MiddleClicks);
      case Unknown(_) =>
        assert m2 == m1;
    }
  }

  /** A move advances the move counter, and the drag counter while a button is held. */
  lemma MouseMoveBumps(s: ListenerState, ts: nat)
    ensures forall c :: Count(Step(s, MouseMove, ts).metrics, c)
                        == Count(s.metrics, c) + (if c in Bumped(s, MouseMove, ts) then 1 else 0)
  {
    var m1 := Bump(s.metrics, Moves);
    CountBump(s.metrics, Moves);
    CountBump(m1, Drags);
    assert Step(s, MouseMove, ts).metrics == if s.mousePressed then Bump(m1, Drags) else m1;
  }

  /**
   * One event advances by exactly one each of the counters `Bumped` names and
   * leaves every other counter, `kpm` among them, as it was.
   */
  lemma StepBumpsExactly(s: ListenerState, event: EventType, ts: nat)
    requires event.ButtonPress? ==> s.lastClickTime <= ts
    ensures Kpm !in Bumped(s, event, ts)
    ensures forall c :: Count(Step(s, event, ts).metrics, c)
                        == Count(s.metrics, c) + (if c in Bumped(s, event, ts) then 1 else 0)
  {
    match event
    case KeyPress(key) =>
      KeyPressBumpsOne(s, key, ts);
    case KeyRelease(_) =>
      assert Step(s, event, ts).metrics == s.metrics;
    case ButtonPress(button) =>
      ButtonPressBumps(s, button, ts);
    case ButtonRelease(_) =>
      assert Step(s, event, ts).metrics == s.metrics;
    case MouseMove =>
      MouseMoveBumps(s, ts);
    case Wheel =>
      assert Step(s, event, ts).metrics == Bump(s.metrics, Scrolls);
      CountBump(s.metrics, Scrolls);
  }

  /**
   * The flags and the last-click record: Ctrl presses set and Ctrl releases
   * clear `ctrlPressed`; a button press sets and any button release clears
   * `mousePressed`; every button press, and nothing else, overwrites the
   * last-click record.
   */
  lemma StepTracksFlags(s: ListenerState, event: EventType, ts: nat)
    requires event.ButtonPress? ==> s.lastClickTime <= ts
    ensures Step(s, event, ts).ctrlPressed ==
      if event.KeyPress? && event.key in CtrlKeys then true
      else if event.KeyRelease? && event.key in CtrlKeys then false
      else s.ctrlPressed
    ensures Step(s, event, ts).mousePressed ==
      if event.ButtonPress? then true
      else if event.ButtonRelease? then false
      else s.mousePressed
    ensures (Step(s, event, ts).lastClickTime, Step(s, event, ts).lastClickButton) ==
      if event.ButtonPress? then (ts, event.button) else (s.lastClickTime, s.lastClickButton)
  {
  }

  /**
   * Two presses of the same button count one double click exactly when the
   * second comes less than `DoubleClickWindow` ms after the first.
   */
  lemma DoubleClickPair(s: ListenerState, button: Button, t1: nat, t2: nat)
    requires s.lastClickTime <= t1 <= t2
    ensures Step(Step(s, ButtonPress(button), t1), ButtonPress(button), t2).metrics.mouse.doubleClicks
            == Step(s, ButtonPress(button), t1).metrics.mouse.doubleClicks + (if t2 - t1 < DoubleClickWindow then 1 else 0)
  {
  }

  /** A raw event with its arrival time in milliseconds. */
  datatype Input = Input(event: EventType, ts: nat)

  /**
   * No button press comes earlier than the press before it, the first one
   * being compared with `lastClick`. Other events may carry any time: the
   * callback compares times only on a button press.
   */
  predicate PressesChronological(lastClick: nat, inputs: seq<Input>)
    decreases |inputs|
  {
    inputs == [] ||
    if inputs[0].event.ButtonPress? then
      lastClick <= inputs[0].ts && PressesChronological(inputs[0].ts, inputs[1..])
    else
      PressesChronological(lastClick, inputs[1..])
  }

  /** A step moves the last-click time to the press just handled, or leaves it. */
  lemma StepLastClick(s: ListenerState, event: EventType, ts: nat)
    requires event.ButtonPress? ==> s.lastClickTime <= ts
    ensures Step(s, event, ts).lastClickTime == if event.ButtonPress? then ts else s.lastClickTime
  {
  }

  /** The listener's state after a sequence of events. */
  function Run(s: ListenerState, inputs: seq<Input>): ListenerState
    requires PressesChronological(s.lastClickTime, inputs)
    decreases |inputs|
  {
    if inputs == [] then s
    else
      StepLastClick(s, inputs[0].event, inputs[0].ts);
      Run(Step(s, inputs[0].event, inputs[0].ts), inputs[1..])
  }

  /** Over any sequence of events no counter ever decreases, and `kpm` never changes. */
  lemma {:induction false} RunNeverDecreases(s: ListenerState, inputs: seq<Input>)
    requires PressesChronological(s.lastClickTime, inputs)
    ensures forall c :: Count(s.metrics, c) <= Count(Run(s, inputs).metrics, c)
    ensures Run(s, inputs).metrics.kpm == s.metrics.kpm
    decreases |inputs|
  {
    if inputs != [] {
      StepLastClick(s, inputs[0].event, inputs[0].ts);
      var s' := Step(s, inputs[0].event, inputs[0].ts);
      StepBumpsExactly(s, inputs[0].event, inputs[0].ts);
      assert Count(s'.metrics, Kpm) == Count(s.metrics, Kpm);
      RunNeverDecreases(s', inputs[1..]);
    }
  }

  /** Every input is a press of an ordinary key. */
  predicate AllOrdinaryKeyPresses(inputs: seq<Input>) {
    forall i :: 0 <= i < |inputs| ==> inputs[i].event.KeyPress? && inputs[i].event.key.Other?
  }

  /** A burst of `n` ordinary key presses adds exactly `n` to the character count and nothing else. */
  lemma {:induction false} TypingCountsChars(s: ListenerState, inputs: seq<Input>)
    requires AllOrdinaryKeyPresses(inputs)
    ensures PressesChronological(s.lastClickTime, inputs)
    ensures Run(s, inputs) == s.(metrics := s.metrics.(charCount := s.metrics.charCount + |inputs|))
    decreases |inputs|
  {
    if inputs != [] {
      var s' := Step(s, inputs[0].event, inputs[0].ts);
      assert inputs[0].event.key.Other?;
      assert s' == s.(metrics := s.metrics.(charCount := s.metrics.charCount + 1));
      assert AllOrdinaryKeyPresses(inputs[1..]) by {
        forall i | 0 <= i < |inputs[1..]|
          ensures inputs[1..][i].event.KeyPress? && inputs[1..][i].event.key.Other?
        {
          assert inputs[1..][i] == inputs[i + 1];
        }
      }
      TypingCountsChars(s', inputs[1..]);
    }
  }

  /**
   * The input listener thread's state, with the shared capture state it
   * writes to: the last-input timestamp and the activity queue.
   */
  class Listener {
    const handle: CaptureHandle
    var metrics: Metrics
    var ctrlPressed: bool
    var mousePressed: bool
    var lastClickTime: nat
    var lastClickButton: Button

    function State(): ListenerState
      reads this
    {
      ListenerState(metrics, ctrlPressed, mousePressed, lastClickTime, lastClickButton)
    }

    constructor (handle: CaptureHandle)
      ensures this.handle == handle && State() == Initial
    {
      this.handle := handle;
      metrics := ZeroMetrics;
      ctrlPressed := false;
      mousePressed := false;
      lastClickTime := 0;
      lastClickButton := Left;
    }

    /** The key-press arm of the callback. */
    method OnKeyPress(key: Key)
      modifies this
      ensures State() == KeyPressed(old(State()), key)
    {
      match key {
        case ControlLeft | ControlRight =>
          ctrlPressed := true;
          metrics := metrics.(mods := metrics.mods.(ctrl := metrics.mods.ctrl + 1));
        case Alt | AltGr =>
          metrics := metrics.(mods := metrics.mods.(alt := metrics.mods.alt + 1));
        case ShiftLeft | ShiftRight =>
          metrics := metrics.(mods := metrics.mods.(shift := metrics.mods.shift + 1));
        case Return =>
          metrics := metrics.(enterCount := metrics.enterCount + 1);
        case Backspace =>
          metrics := metrics.(backspaceCount := metrics.backspaceCount + 1);
        case LeftArrow | RightArrow | UpArrow | DownArrow =>
          metrics := metrics.(navKeys := metrics.navKeys.(arrows := metrics.navKeys.arrows + 1));
        case Home | End =>
          metrics := metrics.(navKeys := metrics.navKeys.(homeEnd := metrics.navKeys.homeEnd + 1));
        case PageUp | PageDown =>
          metrics := metrics.(navKeys := metrics.navKeys.(pgupPgdn := metrics.navKeys.pgupPgdn + 1));
        case F1 | F2 | F3 | F4 | F5 | F6 | F7 | F8 | F9 | F10 | F11 | F12 =>
          metrics := metrics.(functionKeys := metrics.functionKeys.(f1F12 := metrics.functionKeys.f1F12 + 1));
        case KeyC =>
          if ctrlPressed {
            metrics := metrics.(copyCount := metrics.copyCount + 1);
          } else {
            metrics := metrics.(charCount := metrics.charCount + 1);
          }
        case KeyV =>
          if ctrlPressed {
            metrics := metrics.(pasteCount := metrics.pasteCount + 1);
          } else {
            metrics := metrics.(charCount := metrics.charCount + 1);
          }
        case Other(_) =>
          metrics := metrics.(charCount := metrics.charCount + 1);
      }
    }

    /** The counter and flag updates of the callback, arm by arm. */
    method Advance(event: EventType, ts: nat)
      requires event.ButtonPress? ==> lastClickTime <= ts
      modifies this
      ensures State() == Step(old(State()), event, ts)
    {
      match event {
        case KeyPress(key) =>
          OnKeyPress(key);
        case KeyRelease(key) =>
          if key == ControlLeft || key == ControlRight {
            ctrlPressed := false;
          }
        case ButtonPress(button) =>
          mousePressed := true;
          if ts - lastClickTime < DoubleClickWindow && button == lastClickButton {
            metrics := metrics.(mouse := metrics.mouse.(doubleClicks := metrics.mouse.doubleClicks + 1));
          }
          lastClickTime := ts;
          lastClickButton := button;
          match button {
            case Left =>
              metrics := metrics.(mouse := metrics.mouse.(leftClicks := metrics.mouse.leftClicks + 1));
            case Right =>
              metrics := metrics.(mouse := metrics.mouse.(rightClicks := metrics.mouse.rightClicks + 1));
            case Middle =>
              metrics := metrics.(mouse := metrics.mouse.(middleClicks := metrics.mouse.middleClicks + 1));
            case Unknown(_) =>
          }
        case ButtonRelease(_) =>
          mousePressed := false;
        case MouseMove =>
          metrics := metrics.(mouse := metrics.mouse.(moves := metrics.mouse.moves + 1));
          if mousePressed {
            metrics := metrics.(mouse := metrics.mouse.(drags := metrics.mouse.drags + 1));
          }
        case Wheel =>
          metrics := metrics.(mouse := metrics.mouse.(scrolls := metrics.mouse.scrolls + 1));
      }
    }

    /**
     * The hook callback for one event at time `ts`. `window` is what the
     * foreground-window lookup returns, `stamp` the formatted wall-clock time
     * and `encode` the JSON serialization. The timestamp is stored, the
     * counters and flags advance as `Step` says, and, when a window is known,
     * one snapshot of the updated metrics is pushed into the queue.
     */
    method OnEvent(event: EventType, ts: nat, window: Option<WindowInfo>, stamp: string,
                   encode: ActivityEvent -> string)
      requires event.ButtonPress? ==> lastClickTime <= ts
      modifies this, handle`lastInputTs, handle.activity
      ensures State() == Step(old(State()), event, ts)
      ensures handle.lastInputTs == ts
      ensures handle.activity.entries ==
        match window
        case None => old(handle.activity.entries)
        case Some(w) =>
          Pushed(old(handle.activity.entries),
                 encode(ActivityEvent(w.appName, w.windowTitle, w.processName, w.pid, stamp, metrics)))
      ensures old(handle.activity.Valid()) ==> handle.activity.Valid()
    {
      handle.lastInputTs := ts;
      Advance(event, ts);

      match window {
        case Some(w) =>
          var json := encode(ActivityEvent(w.appName, w.windowTitle, w.processName, w.pid, stamp, metrics));
          handle.activity.Push(json);
        case None =>
      }
    }
  }

  /**
   * Right after the callback has run for an event at time `ts`, the idle
   * check at that same time reports not idle, whatever the threshold.
   */
  method IdleAfterInput(listener: Listener, event: EventType, ts: nat, window: Option<WindowInfo>,
                        stamp: string, encode: ActivityEvent -> string, thresholdSecs: nat)
      returns (idle: bool)
    requires event.ButtonPress? ==> listener.lastClickTime <= ts
    requires thresholdSecs * 1000 <= U64Max
    modifies listener, listener.handle`lastInputTs, listener.handle.activity
    ensures !idle
  {
    listener.OnEvent(event, ts, window, stamp, encode);
    idle := IsIdle(listener.handle.lastInputTs, ts, thresholdSecs);
  }
}
