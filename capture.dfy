/** The webcam analysis cycle shared by the assistant and the behaviour visualiser.

    Four flags gate it: `running` (the camera is on), `analysis_running` (analysis is
    enabled), `paused` (the user paused it) and `processing` (a cycle is in flight).
    A trigger starts a capture only when the gate is open; a capture hands the frames
    to an analysis thread and keeps `processing` set until that thread ends, which
    re-arms the trigger. Timers (`app.after(ms, f)`) are returned as `Scheduled`
    values; the camera read and the analysis thread's work are parameters and events.

    The two programs differ in two places: the assistant skips the analysis when no
    current frame was captured, and re-arms 1 s after an analysis; the visualiser
    always starts the analysis thread and re-arms 10 s after it. */
module Capture {
  import opened Text

  /** A call that `app.after` will make `delayMs` milliseconds after it was scheduled. */
  datatype Scheduled = Scheduled(delayMs: nat, dueAt: real)

  function After(now: real, delayMs: nat): (t: Scheduled)
    ensures t.delayMs == delayMs && t.dueAt >= now
  {
    Scheduled(delayMs, now + (delayMs as real) / 1000.0)
  }

  /** Which program the handler belongs to. */
  datatype Variant = Assistant | Visualizer

  const FirstCaptureDelayMs: nat := 2000
  const ErrorRetryDelayMs: nat := 2000
  const NoFrameRetryDelayMs: nat := 1000
  const ResumeDelayMs: nat := 500

  /** The `finally` re-arm delay after an analysis thread. */
  function NextCaptureDelayMs(v: Variant): nat
  {
    match v
    case Assistant => 1000
    case Visualizer => 10000
  }

  /** How opening the camera in `start` went. */
  datatype CameraStart = CannotOpen | FailsAfterOpen | Opens

  /** What `_capture_screenshots` produced (or that it raised). */
  datatype Snapshot = Captured | NoCurrentFrame | CaptureFailed

  datatype GateState = GateState(running: bool, analysisRunning: bool, paused: bool, processing: bool)

  /** What a trigger or a capture led to. */
  datatype CaptureEffect =
    | NoEffect
      /** An analysis thread was started, under this placeholder id in the assistant. */
    | AnalysisStarted(placeholderId: Option<string>)
    | Rearmed(next: Scheduled)

  /** The assistant's placeholder id for an analysis started at time `now`. */
  function PlaceholderId(now: real): (id: string)
    ensures StartsWith(id, "img_")
  {
    "img_" + IntToString(Truncate(now))
  }

  predicate GateOpen(g: GateState)
  {
    g.running && g.analysisRunning && !g.paused && !g.processing
  }

  function StartSpec(g: GateState, camera: CameraStart, now: real): (GateState, bool, Option<Scheduled>)
  {
    if g.running then (g, false, None)
    else match camera
      case CannotOpen => (g, false, None)
      case FailsAfterOpen => (g.(running := true), false, None)
      case Opens => (g.(running := true, analysisRunning := true), true, Some(After(now, FirstCaptureDelayMs)))
  }

  function StopSpec(g: GateState): GateState
  {
    g.(running := false, analysisRunning := false)
  }

  function CaptureSpec(v: Variant, g: GateState, snapshot: Snapshot, now: real): (GateState, CaptureEffect)
  {
    if g.processing || g.paused then (g, NoEffect)
    else match snapshot
      case CaptureFailed => (g.(processing := false), Rearmed(After(now, ErrorRetryDelayMs)))
      case NoCurrentFrame =>
        if v == Assistant then (g.(processing := false), Rearmed(After(now, NoFrameRetryDelayMs)))
        else (g.(processing := true), AnalysisStarted(None))
      case Captured =>
        var id := if v == Assistant then Some(PlaceholderId(now)) else None;
        (g.(processing := true), AnalysisStarted(id))
  }

  function TriggerSpec(v: Variant, g: GateState, snapshot: Snapshot, now: real): (GateState, CaptureEffect)
  {
    if GateOpen(g) then CaptureSpec(v, g, snapshot, now) else (g, NoEffect)
  }

  /** The `finally` block of `_analyze_screenshots`. */
  function FinishSpec(v: Variant, g: GateState, now: real): (GateState, Scheduled)
  {
    (g.(processing := false), After(now, NextCaptureDelayMs(v)))
  }

  function ToggleSpec(g: GateState, now: real): (GateState, Option<Scheduled>)
  {
    var g' := g.(paused := !g.paused);
    if !g'.paused && !g'.processing then (g', Some(After(now, ResumeDelayMs))) else (g', None)
  }

  class WebcamHandler {
    const variant: Variant
    var running: bool
    var analysisRunning: bool
    var paused: bool
    var processing: bool

    function State(): GateState
      reads this
    {
      GateState(running, analysisRunning, paused, processing)
    }

    constructor (v: Variant)
      ensures variant == v && State() == GateState(false, false, false, false)
    {
      variant := v;
      running := false;
      analysisRunning := false;
      paused := false;
      processing := false;
    }

    method Start(camera: CameraStart, now: real) returns (started: bool, next: Option<Scheduled>)
      modifies this
      ensures (State(), started, next) == StartSpec(old(State()), camera, now)
    {
      started := false;
      next := None;
      if !running {
        if camera == CannotOpen {
          return;
        }
        running := true;
        if camera == FailsAfterOpen {
          return;
        }
        analysisRunning := true;
        next := Some(After(now, FirstCaptureDelayMs));
        started := true;
      }
    }

    method Stop()
      modifies this
      ensures State() == StopSpec(old(State()))
    {
      running := false;
      analysisRunning := false;
    }

    method TriggerNextCapture(snapshot: Snapshot, now: real) returns (effect: CaptureEffect)
      modifies this
      ensures (State(), effect) == TriggerSpec(variant, old(State()), snapshot, now)
    {
      effect := NoEffect;
      if running && analysisRunning && !paused && !processing {
        effect := CaptureAndAnalyze(snapshot, now);
      }
    }

    method CaptureAndAnalyze(snapshot: Snapshot, now: real) returns (effect: CaptureEffect)
      modifies this
      ensures (State(), effect) == CaptureSpec(variant, old(State()), snapshot, now)
    {
      if processing || paused {
        return NoEffect;
      }
      processing := true;
      if snapshot == CaptureFailed {
        processing := false;
        return Rearmed(After(now, ErrorRetryDelayMs));
      }
      if variant == Assistant {
        if snapshot == Captured {
          effect := AnalysisStarted(Some(PlaceholderId(now)));
        } else {
          processing := false;
          effect := Rearmed(After(now, NoFrameRetryDelayMs));
        }
      } else {
        effect := AnalysisStarted(None);
      }
    }

    method FinishAnalysis(now: real) returns (next: Scheduled)
      modifies this
      ensures (State(), next) == FinishSpec(variant, old(State()), now)
    {
      processing := false;
      next := After(now, NextCaptureDelayMs(variant));
    }

    method TogglePause(now: real) returns (next: Option<Scheduled>)
      modifies this
      ensures (State(), next) == ToggleSpec(old(State()), now)
    {
      paused := !paused;
      next := None;
      if !paused && !processing {
        next := Some(After(now, ResumeDelayMs));
      }
    }
  }

  /** `start` succeeds only for a stopped handler whose camera opens; it then enables
      analysis and schedules the first trigger 2 s later. */
  lemma StartOutcome(g: GateState, camera: CameraStart, now: real)
    ensures var (g', started, next) := StartSpec(g, camera, now);
            (started <==> !g.running && camera == Opens)
            && (next.Some? <==> started)
            && (started ==> g'.running && g'.analysisRunning && next == Some(Scheduled(2000, now + 2.0)))
            && g'.paused == g.paused && g'.processing == g.processing
  {
  }

  /** A trigger reaches the capture only through an open gate. */
  lemma TriggerNeedsOpenGate(v: Variant, g: GateState, snapshot: Snapshot, now: real)
    ensures !GateOpen(g) ==> TriggerSpec(v, g, snapshot, now) == (g, NoEffect)
    ensures TriggerSpec(v, g, snapshot, now).1.AnalysisStarted? ==> GateOpen(g)
    ensures GateOpen(g) ==> TriggerSpec(v, g, snapshot, now) == CaptureSpec(v, g, snapshot, now)
  {
  }

  /** A capture does nothing while a cycle is in flight or the cycle is paused; otherwise
      it starts an analysis and keeps `processing` set, or gives up at once with
      `processing` clear and a retry scheduled. Only `processing` ever changes. */
  lemma CaptureOutcome(v: Variant, g: GateState, snapshot: Snapshot, now: real)
    ensures var (g', e) := CaptureSpec(v, g, snapshot, now);
            (g.processing || g.paused ==> g' == g && e == NoEffect)
            && (!g.processing && !g.paused ==>
                  e != NoEffect && g' == g.(processing := e.AnalysisStarted?)
                  && (e.Rearmed? ==> e.next.delayMs == (if snapshot == CaptureFailed then 2000 else 1000)))
  {
  }

  /** The assistant analyses only a captured frame, under an "img_" placeholder made
      from the time; the visualiser analyses whatever the capture returned. */
  lemma CaptureVariants(g: GateState, snapshot: Snapshot, now: real)
    requires !g.processing && !g.paused
    ensures CaptureSpec(Assistant, g, snapshot, now).1.AnalysisStarted? <==> snapshot == Captured
    ensures snapshot == Captured ==>
              CaptureSpec(Assistant, g, snapshot, now).1 == AnalysisStarted(Some("img_" + IntToString(Truncate(now))))
    ensures CaptureSpec(Visualizer, g, snapshot, now).1.AnalysisStarted? <==> snapshot != CaptureFailed
    ensures CaptureSpec(Visualizer, g, snapshot, now).1.AnalysisStarted? ==>
              CaptureSpec(Visualizer, g, snapshot, now).1.placeholderId.None?
  {
  }

  /** Every analysis ends by clearing `processing` and re-arming: after 1 s in the
      assistant, after 10 s in the visualiser. */
  lemma FinishRearms(v: Variant, g: GateState, now: real)
    ensures var (g', next) := FinishSpec(v, g, now);
            !g'.processing && g' == g.(processing := false)
            && next.delayMs == (if v == Assistant then 1000 else 10000)
            && next.dueAt == now + (if v == Assistant then 1.0 else 10.0)
  {
  }

  /** `toggle_pause` flips `paused` and schedules a trigger half a second later exactly
      when it unpauses an idle cycle. */
  lemma ToggleOutcome(g: GateState, now: real)
    ensures var (g', next) := ToggleSpec(g, now);
            g' == g.(paused := !g.paused)
            && (next.Some? <==> g.paused && !g.processing)
            && (next.Some? ==> next.value == Scheduled(500, now + 0.5))
    ensures ToggleSpec(ToggleSpec(g, now).0, now).0 == g
  {
  }

  /** What happens to the handler, one callback at a time. `Finish` is the end of an
      analysis thread, which only a started analysis has. */
  datatype Event =
    | StartEvent(camera: CameraStart)
    | StopEvent
    | TriggerEvent(snapshot: Snapshot)
    | CaptureEvent(snapshot: Snapshot)
    | FinishEvent
    | ToggleEvent

  /** The handler's flags and the number of analysis threads still running. */
  datatype Cycle = Cycle(gate: GateState, inFlight: nat)

  function Step(v: Variant, c: Cycle, e: Event, now: real): Cycle
  {
    match e
    case StartEvent(camera) => c.(gate := StartSpec(c.gate, camera, now).0)
    case StopEvent => c.(gate := StopSpec(c.gate))
    case TriggerEvent(snapshot) =>
      var (g', eff) := TriggerSpec(v, c.gate, snapshot, now);
      Cycle(g', if eff.AnalysisStarted? then c.inFlight + 1 else c.inFlight)
    case CaptureEvent(snapshot) =>
      var (g', eff) := CaptureSpec(v, c.gate, snapshot, now);
      Cycle(g', if eff.AnalysisStarted? then c.inFlight + 1 else c.inFlight)
    case FinishEvent =>
      if c.inFlight == 0 then c else Cycle(FinishSpec(v, c.gate, now).0, c.inFlight - 1)
    case ToggleEvent => c.(gate := ToggleSpec(c.gate, now).0)
  }

  /** Runs the events in order, each at its own time. */
  function Run(v: Variant, c: Cycle, events: seq<(Event, real)>): Cycle
    decreases |events|
  {
    if events == [] then c else Run(v, Step(v, c, events[0].0, events[0].1), events[1..])
  }

  /** At most one analysis is in flight, and while one is, `processing` is set. */
  predicate OneInFlight(c: Cycle)
  {
    c.inFlight <= 1 && (c.inFlight == 1 ==> c.gate.processing)
  }

  lemma StepKeepsOneInFlight(v: Variant, c: Cycle, e: Event, now: real)
    requires OneInFlight(c)
    ensures OneInFlight(Step(v, c, e, now))
  {
  }

  /** However the callbacks interleave, no second analysis starts while one is running. */
  lemma {:induction false} RunKeepsOneInFlight(v: Variant, c: Cycle, events: seq<(Event, real)>)
    requires OneInFlight(c)
    ensures OneInFlight(Run(v, c, events))
    decreases |events|
  {
    if events != [] {
      StepKeepsOneInFlight(v, c, events[0].0, events[0].1);
      RunKeepsOneInFlight(v, Step(v, c, events[0].0, events[0].1), events[1..]);
    }
  }

  /** Until the running analysis ends, triggers, captures, pauses and stops start nothing. */
  lemma {:induction false} NoCycleBeforeFinish(v: Variant, c: Cycle, events: seq<(Event, real)>)
    requires OneInFlight(c) && c.inFlight == 1
    requires forall k | 0 <= k < |events| :: !events[k].0.FinishEvent?
    ensures Run(v, c, events).inFlight == 1 && Run(v, c, events).gate.processing
    decreases |events|
  {
    if events != [] {
      StepKeepsOneInFlight(v, c, events[0].0, events[0].1);
      NoCycleBeforeFinish(v, Step(v, c, events[0].0, events[0].1), events[1..]);
    }
  }
}
