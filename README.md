# Activity telemetry agent: the sequential core, in Dafny

This project models the sequential heart of a desktop activity-telemetry
agent (a Tauri application whose back end is `src-tauri/src/main.rs`). The
agent hooks global keyboard and mouse input and keeps per-session counters.
After each input event it pushes a serialized snapshot of those counters,
together with the foreground window, into a bounded queue of recent
activity, provided the foreground-window lookup returns a window. It can
also capture screenshots on demand in a background loop guarded by a run
flag.

What is modelled, one module per component:

- `Activity` (`activity.dfy`): the bounded activity queue (`VecDeque<String>`,
  capacity 200) as the class `ActivityQueue`, with `push_event`'s queue half
  (`Push`) and `clear_activity` (`Clear`); the read-back command
  `get_recent_activity` as the pure function `RecentActivity`; and a reference
  definition `Newest` (drop the oldest entry until at most `n` remain) against
  which pushes and reads are proved.
- `Capture` (`capture.dfy`): the shared `CaptureHandle` (run flag, presence of
  a worker's join handle, last-input timestamp, the queue) with
  `start_capture`, `stop_capture`, `capture_status` and `clear_activity`; and
  `is_idle` as the pure function `IsIdle` over timestamps passed in.
- `Input` (`input.dfy`): the key, button and event taxonomy, `Metrics` with
  its nested `ModStats`, `NavKeys`, `FunctionKeys` and `MouseStats`, the
  callback's state machine as the pure function `Step`, and the listener
  object `Listener` whose `OnEvent` method is the hook callback. `Bumped` is
  an independent statement of which counters an event advances; the lemmas
  connect it with `Step`.
- `Pixels` (`pixels.dfy`): the BGRA to RGBA conversion loop of the screenshot
  worker, as a method that extends its output four bytes per pixel.
- `Wrappers` (`wrappers.dfy`): `Option` and `Result`.

Inputs from the outside world are parameters: the clock reading (`ts`,
`now`), the result of the foreground-window lookup (`Option<WindowInfo>`),
the formatted wall-clock timestamp string, the JSON serializer (an opaque
function `ActivityEvent -> string`) and the outcome of creating the output
directory (`Option<string>`, the error message when it fails).

Behaviour of the code worth stating up front:

- The callback has no mouse-move throttling and no batching of flushes:
  every event, releases included, goes through the callback's match and then
  attempts one flush, which pushes a snapshot exactly when the window lookup
  returns a window. Releases change no counter. `Input.Listener.OnEvent`
  states this.
- `stop_capture` always clears the flag and returns `Ok("Capture stopped")`,
  so repeated stops succeed.
- `start_capture` can also fail after the run-flag check, when the output
  directory cannot be created; the flag then stays clear.
- `get_recent_activity` does not cap the limit at 200; the queue simply never
  holds more than 200 entries.

## Model

| member | source | states |
|---|---|---|
| `Activity.NewestIsSuffix` | src-tauri/src/main.rs:229-230 | evicting the oldest entry until at most n remain leaves exactly the last min(n, len) entries, in order |
| `Activity.NewestOfNewest` | src-tauri/src/main.rs:227-232 | trimming to the newest n before appending more entries keeps the same newest n as trimming once afterwards |
| `Activity.PushedBounded` | src-tauri/src/main.rs:227-232 | a push onto a queue of at most 200 entries leaves at most 200, min(len + 1, 200) of them, with the pushed entry last |
| `Activity.PushedWhenFull` | src-tauri/src/main.rs:228-231 | a push onto a full queue drops exactly the oldest entry; the others keep their order and the new entry is last |
| `Activity.PushedWhenNotFull` | src-tauri/src/main.rs:228-229 | a push onto a queue that is not full only appends |
| `Activity.PushedKeepsNewest` | src-tauri/src/main.rs:227-232 | a push onto a queue of at most 200 entries leaves exactly the newest 200 entries of the sequence old contents + [new entry], i.e. `Newest(q + [json], 200)` |
| `Activity.PushAllKeepsNewest` | src-tauri/src/main.rs:227-232 | after any sequence of pushes the queue holds the newest 200 of all entries ever pushed, in push order, and never more than 200 |
| `Activity.RecentActivity` | src-tauri/src/main.rs:335-344 | the read returns the newest min(limit, len) entries in insertion order, limit defaulting to 50 |
| `Activity.PushedEventsReadBack` | src-tauri/src/main.rs:335-340 | the last k pushed entries (k at most 200) read back verbatim and in order with limit k |
| `Activity.ClearedReadsEmpty` | src-tauri/src/main.rs:354-357 | an emptied queue reads back empty whatever the limit |
| `Activity.ActivityQueue.constructor` | src-tauri/src/main.rs:141 | the queue starts empty |
| `Activity.ActivityQueue.Push` | src-tauri/src/main.rs:227-232 | the new contents are the pushed-and-evicted contents of `Pushed`; the 200-entry bound is preserved |
| `Activity.ActivityQueue.Clear` | src-tauri/src/main.rs:354-358 | the queue becomes empty |
| `Capture.IsIdle` | src-tauri/src/main.rs:347-351 | idle iff the last input lies in the past and more than threshold * 1000 ms ago |
| `Capture.NotIdleAtLastInput` | src-tauri/src/main.rs:347-351 | never idle at or before the time of the last input (the saturating subtraction gives 0) |
| `Capture.IdleStaysIdle` | src-tauri/src/main.rs:350 | idleness persists as time passes without input |
| `Capture.IdleLongerThresholdImpliesShorter` | src-tauri/src/main.rs:350 | idle for a longer threshold implies idle for any shorter one |
| `Capture.CaptureHandle.constructor` | src-tauri/src/main.rs:136-144 | flag clear, no worker, last input at the current time, queue empty |
| `Capture.CaptureHandle.StartCapture` | src-tauri/src/main.rs:386-434 | when running: error "Capture already running", still running; when the directory fails: that error, flag still clear; otherwise `Ok("Capture started")`, flag set and a worker recorded; success iff the flag goes from clear to set; afterwards `CaptureStatus()` (`capture_status`) is true iff the capture was running or the directory was created |
| `Capture.CaptureHandle.StopCapture` | src-tauri/src/main.rs:438-449 | always `Ok("Capture stopped")`, flag clear, worker handle taken; afterwards `CaptureStatus()` (`capture_status`) is false |
| `Capture.CaptureHandle.ClearActivity` | src-tauri/src/main.rs:354-358 | empties the shared queue and changes nothing else (its frame is the queue alone) |
| `Capture.StartStopSequence` | src-tauri/src/main.rs:387-449 | through `CaptureStatus()` (`capture_status`, the flag read): start then start is rejected with status still true; stop then stop both succeed and leave status false; a start after a stop succeeds again |
| `Input.StepBumpsExactly` | src-tauri/src/main.rs:243-311 | one event advances by exactly one each counter `Bumped` names and no other counter, never `kpm` |
| `Input.KeyPressBumpsOne` | src-tauri/src/main.rs:244-274 | a key press advances exactly one counter: Ctrl, Alt/AltGr, Shift, Enter, Backspace, arrows, Home/End, PgUp/PgDn, F1-F12, copy or paste under Ctrl, else characters |
| `Input.ButtonPressBumps` | src-tauri/src/main.rs:280-297 | a button press advances the double-click counter iff it repeats the last button less than 500 ms later, plus the left, right or middle click counter (none for other buttons), and nothing else |
| `Input.MouseMoveBumps` | src-tauri/src/main.rs:301-308 | a move advances the move counter, and the drag counter iff a button is held, and nothing else |
| `Input.StepTracksFlags` | src-tauri/src/main.rs:244-300 | Ctrl press sets and Ctrl release clears `ctrl_pressed`; button press sets and any button release clears `mouse_pressed`; every button press and nothing else overwrites the last-click time and button |
| `Input.DoubleClickPair` | src-tauri/src/main.rs:283-289 | two presses of the same button count one double click iff they are less than 500 ms apart |
| `Input.RunNeverDecreases` | src-tauri/src/main.rs:239-312 | over any sequence of events whose button presses never go back in time no counter decreases and `kpm` never changes |
| `Input.TypingCountsChars` | src-tauri/src/main.rs:273 | n presses of ordinary keys, at any timestamps, add exactly n to the character count and change nothing else |
| `Input.Listener.constructor` | src-tauri/src/main.rs:217-221 | zero metrics, both flags clear, last click at time 0 with the left button |
| `Input.Listener.OnKeyPress` | src-tauri/src/main.rs:244-274 | the key-press arm updates the state as `KeyPressed` |
| `Input.Listener.Advance` | src-tauri/src/main.rs:243-312 | the callback's counter and flag updates equal `Step` |
| `Input.Listener.OnEvent` | src-tauri/src/main.rs:239-325 | stores `ts` as the last input time, advances the state by `Step`, and pushes exactly one serialized snapshot of the updated metrics when a window is known, none otherwise; the queue bound is preserved |
| `Input.IdleAfterInput` | src-tauri/src/main.rs:241 | right after an input at time `ts` the idle check at `ts` is false for every threshold |
| `Pixels.BgraToRgba` | src-tauri/src/main.rs:417-420 | output length 4 * (len / 4); pixel i of the output is (in[4i+2], in[4i+1], in[4i], 255) |

## Left out

- `start_video_capture` (the ffmpeg loop): an external subprocess driven in a loop with no stop flag; nothing beyond building its argument list.
- `login`: a fixed credential comparison outside the core.
- `get_active_window_info`: Win32 foreground-window and process-snapshot calls; the model takes its result as an `Option<WindowInfo>` input.
- Threads, join handles, `Arc`, `Mutex` and atomic orderings, and the `rdev::listen` hook: the flag, the timestamp and the queue are plain sequential state. The branches for a poisoned mutex (the push skipped, `get_recent_activity` returning an empty list) are therefore not modelled.
- The screenshot worker loop itself: display and capturer acquisition, the retry on a frame that is not ready, `ImageBuffer::from_raw`, saving the PNG and the sleep; only its pixel conversion is modelled.
- The activity log file (opening, the locked `writeln!` and flush in `push_event`) and the log-file lock.
- JSON serialization and timestamp formatting: the serializer is an opaque function parameter and the timestamp an opaque string.
- Clock reads (`current_ts_millis`): timestamps are parameters.
- Pointer coordinates of mouse moves and wheel deltas: the callback never reads them, so `MouseMove` and `Wheel` carry no fields.
- Counters are unbounded naturals: the `u64` overflow of `+= 1` is not modelled, since no session reaches 2^64 events.
- Input.Step: requires that a button press comes no earlier than the previous one, because the `u64` subtraction `ts - last_click_time` would underflow (a panic in debug builds) if the clock went back; the same precondition is on `Input.Listener.OnEvent` and `Input.Listener.Advance`, and `Input.Run` (with `Input.RunNeverDecreases`) requires it of every button press in the sequence through `PressesChronological`; key, move, wheel and release events may carry any timestamp.
- Capture.IsIdle: requires `threshold_secs * 1000` to fit in a `u64` instead of modelling the multiplication's overflow.
