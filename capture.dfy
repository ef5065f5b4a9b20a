/**
 * The shared capture state and the commands that read or change it: the
 * screenshot run flag (start, stop, status), the idle check and the
 * clearing of the activity queue.
 */
module Capture {
  import opened Wrappers
  import opened Activity

  /** Largest value of the unsigned 64-bit integers the source computes in. */
  const U64Max: nat := 0xFFFF_FFFF_FFFF_FFFF

  const AlreadyRunning: string := "Capture already running"
  const Started: string := "Capture started"
  const Stopped: string := "Capture stopped"

  /**
   * `is_idle`: the milliseconds since the last input, saturating at zero when
   * the last input is not in the past, exceed the threshold in milliseconds.
   * The threshold must not overflow a `u64` once multiplied by 1000.
   */
  function IsIdle(last: nat, now: nat, thresholdSecs: nat): (r: bool)
    requires thresholdSecs * 1000 <= U64Max
    ensures r <==> last < now && now - last > thresholdSecs * 1000
  {
    var elapsed := if now >= last then now - last else 0;
    elapsed > thresholdSecs * 1000
  }

  /** The machine is never idle at or before the moment of the last input. */
  lemma NotIdleAtLastInput(last: nat, now: nat, thresholdSecs: nat)
    requires thresholdSecs * 1000 <= U64Max
    requires now <= last
    ensures !IsIdle(last, now, thresholdSecs)
  {
  }

  /** Once idle, the machine stays idle as time passes without input. */
  lemma IdleStaysIdle(last: nat, now: nat, later: nat, thresholdSecs: nat)
    requires thresholdSecs * 1000 <= U64Max
    requires now <= later
    ensures IsIdle(last, now, thresholdSecs) ==> IsIdle(last, later, thresholdSecs)
  {
  }

  /** A longer threshold is harder to exceed. */
  lemma IdleLongerThresholdImpliesShorter(last: nat, now: nat, shorter: nat, longer: nat)
    requires longer * 1000 <= U64Max
    requires shorter <= longer
    ensures shorter * 1000 <= U64Max
    ensures IsIdle(last, now, longer) ==> IsIdle(last, now, shorter)
  {
  }

  /** `CaptureHandle`: the state the commands and the input listener share. */
  class CaptureHandle {
    /** `running`: whether the screenshot loop is meant to keep going. */
    var running: bool
    /** Whether `join_handle` holds a worker thread. */
    var hasWorker: bool
    /** `last_input_ts`, in milliseconds since the epoch. */
    var lastInputTs: nat
    /** `activity_queue`, shared with the input listener. */
    const activity: ActivityQueue

    /** `CaptureHandle::new`, with the clock reading passed in as `now`. */
    constructor (now: nat)
      ensures !running && !hasWorker && lastInputTs == now
      ensures fresh(activity) && activity.Valid() && activity.entries == []
    {
      running := false;
      hasWorker := false;
      lastInputTs := now;
      activity := new ActivityQueue();
    }

    /**
     * `start_capture`. `dirError` is the outcome of creating the output
     * directory: `None` on success, the error message otherwise. A running
     * capture is rejected before the directory is touched; a failed
     * directory creation returns its error and leaves the flag clear.
     */
    method StartCapture(dirError: Option<string>) returns (r: Result<string, string>)
      modifies this`running, this`hasWorker
      ensures old(running) ==> r == Err(AlreadyRunning) && running && hasWorker == old(hasWorker)
      ensures !old(running) && dirError.Some? ==> r == Err(dirError.value) && !running && hasWorker == old(hasWorker)
      ensures !old(running) && dirError.None? ==> r == Ok(Started) && running && hasWorker
      ensures r.Ok? <==> !old(running) && running
      ensures CaptureStatus() <==> old(running) || dirError.None?
    {
      if running {
        return Err(AlreadyRunning);
      }
      if dirError.Some? {
        return Err(dirError.value);
      }
      running := true;
      hasWorker := true;
      r := Ok(Started);
    }

    /** `stop_capture`: always clears the flag, joins any worker, and succeeds. */
    method StopCapture() returns (r: Result<string, string>)
      modifies this`running, this`hasWorker
      ensures r == Ok(Stopped) && !running && !hasWorker
      ensures !CaptureStatus()
    {
      running := false;
      if hasWorker {
        hasWorker := false;
      }
      r := Ok(Stopped);
    }

    /** `capture_status`: the run flag. */
    function CaptureStatus(): bool
      reads this
    {
      running
    }

    /** `clear_activity`: empties the shared queue and nothing else. */
    method ClearActivity()
      modifies activity
      ensures activity.Valid() && activity.entries == []
    {
      activity.Clear();
    }
  }

  /**
   * The command sequences the run flag is meant to allow: a second start is
   * rejected and keeps the capture running, a stop always ends it, and a
   * second stop succeeds again.
   */
  method StartStopSequence(h: CaptureHandle)
    modifies h
    ensures !h.CaptureStatus()
  {
    var first := h.StartCapture(None);
    assert h.CaptureStatus() && (first.Ok? || first == Err(AlreadyRunning));
    var second := h.StartCapture(None);
    assert second == Err(AlreadyRunning) && h.CaptureStatus();
    var stop := h.StopCapture();
    assert stop.Ok? && !h.CaptureStatus();
    var again := h.StopCapture();
    assert again == Ok(Stopped) && !h.CaptureStatus();
    var restart := h.StartCapture(None);
    assert restart == Ok(Started);
    var last := h.StopCapture();
    assert last == Ok(Stopped);
  }
}
