/** The voice activity detector of the assistant: an energy gate over microphone chunks.

    A chunk's energy (the mean absolute sample value, computed elsewhere) is compared
    with a threshold that is the fixed `energy_threshold`, raised to 2.5 times the mean
    of the recorded background levels when there are any. A detected utterance is
    collected chunk by chunk, closed by 0.8 s of silence or by a 30 s length cap, and
    handed on for transcription when it lasted more than 0.5 s. While the assistant
    plays its own speech, no chunk counts as speech.

    Clock readings (`time.time()`) are the `now` parameters and whether audio is
    playing is the `isPlayingAudio` parameter; the transcription thread a handoff
    starts is the returned frames. */
module Vad {
  import opened Text

  /** A raw PCM chunk as read from the input stream. */
  type Chunk = seq<bv8>

  const InitialEnergyThreshold: real := 80.0
  const DynamicThreshold: bool := true
  const SilenceThreshold: real := 0.8
  const MinSpeechDuration: real := 0.3
  const MaxSpeechDuration: real := 30.0
  const MaxNoiseLevels: nat := 100
  const NoiseFactor: real := 2.5
  const CalibratedFloor: real := 100.0
  /** The extra length check `_process_speech` applies before a handoff. */
  const HandoffMinDuration: real := 0.5

  datatype VadState = VadState(
    energyThreshold: real,
    isCalibrating: bool,
    noiseLevels: seq<real>,
    isSpeaking: bool,
    speechStarted: real,
    silenceStarted: real,
    speechFrames: seq<Chunk>)

  /** The detector as constructed: calibrating, threshold 80, nothing recorded. */
  const Initial: VadState := VadState(InitialEnergyThreshold, true, [], false, 0.0, 0.0, [])

  function Sum(xs: seq<real>): real
  {
    if xs == [] then 0.0 else Sum(xs[..|xs| - 1]) + xs[|xs| - 1]
  }

  /** `sum(xs) / len(xs)`. */
  function Mean(xs: seq<real>): real
    requires xs != []
  {
    Sum(xs) / (|xs| as real)
  }

  function Max(a: real, b: real): real
  {
    if a >= b then a else b
  }

  /** The threshold `_is_speech` compares a chunk's energy with. */
  function Threshold(s: VadState): (t: real)
    ensures t >= s.energyThreshold
  {
    if DynamicThreshold && s.noiseLevels != [] then Max(s.energyThreshold, Mean(s.noiseLevels) * NoiseFactor)
    else s.energyThreshold
  }

  /** `_is_speech`: the new state and the verdict. */
  function IsSpeechSpec(s: VadState, energy: real, isPlayingAudio: bool): (VadState, bool)
  {
    if isPlayingAudio then (s, false)
    else if s.isCalibrating then (s.(noiseLevels := s.noiseLevels + [energy]), false)
    else (s, energy > Threshold(s))
  }

  /** The start of `_calibrate_microphone`: calibration mode with an empty noise record. */
  function CalibrateBeginSpec(s: VadState): VadState
  {
    s.(isCalibrating := true, noiseLevels := [])
  }

  /** The end of `_calibrate_microphone`, once its wait is over. */
  function CalibrateFinishSpec(s: VadState): VadState
  {
    var t := if s.noiseLevels != [] then Max(CalibratedFloor, Mean(s.noiseLevels) * NoiseFactor) else s.energyThreshold;
    s.(energyThreshold := t, isCalibrating := false)
  }

  /** `_process_speech` at time `now`: the new state and the frames handed on, if any. */
  function ProcessSpeechSpec(s: VadState, now: real): (VadState, Option<seq<Chunk>>)
  {
    var duration := now - s.speechStarted;
    var cleared := s.(isSpeaking := false, silenceStarted := 0.0, speechFrames := []);
    if duration >= MinSpeechDuration && |s.speechFrames| > 0 then
      if s.isSpeaking && duration > HandoffMinDuration then (cleared, Some(s.speechFrames))
      else (cleared, None)
    else (cleared, None)
  }

  /** The loop's own noise sampling: an idle detector records the energy while its
      record holds fewer than 100 entries. */
  function RecordNoise(s: VadState, energy: real): VadState
  {
    if !s.isSpeaking && |s.noiseLevels| < MaxNoiseLevels then s.(noiseLevels := s.noiseLevels + [energy]) else s
  }

  /** One pass of the `_monitor_audio` loop over a chunk with the given energy. */
  function MonitorStepSpec(s: VadState, chunk: Chunk, energy: real, now: real, isPlayingAudio: bool): (VadState, Option<seq<Chunk>>)
  {
    var s1 := RecordNoise(s, energy);
    var (s2, speech) := IsSpeechSpec(s1, energy, isPlayingAudio);
    if speech then
      var s3 := if !s2.isSpeaking then s2.(isSpeaking := true, speechStarted := now, speechFrames := []) else s2;
      var s4 := s3.(silenceStarted := 0.0, speechFrames := s3.speechFrames + [chunk]);
      if now - s4.speechStarted > MaxSpeechDuration then ProcessSpeechSpec(s4, now) else (s4, None)
    else if s2.isSpeaking then
      var s3 := if s2.silenceStarted == 0.0 then s2.(silenceStarted := now) else s2;
      var s4 := s3.(speechFrames := s3.speechFrames + [chunk]);
      if now - s4.silenceStarted > SilenceThreshold then ProcessSpeechSpec(s4, now) else (s4, None)
    else (s2, None)
  }

  /** What the detector keeps consistent between chunks: it is speaking exactly when
      it holds frames, and a silence timer runs only inside an utterance. */
  predicate Valid(s: VadState)
  {
    (s.isSpeaking <==> s.speechFrames != []) && (!s.isSpeaking ==> s.silenceStarted == 0.0)
  }

  class VoiceActivityDetector {
    var running: bool
    var energyThreshold: real
    var isCalibrating: bool
    var noiseLevels: seq<real>
    var isSpeaking: bool
    var speechStarted: real
    var silenceStarted: real
    var speechFrames: seq<Chunk>
    var calibrationStartTime: real

    function State(): VadState
      reads this
    {
      VadState(energyThreshold, isCalibrating, noiseLevels, isSpeaking, speechStarted, silenceStarted, speechFrames)
    }

    constructor ()
      ensures State() == Initial && !running && calibrationStartTime == 0.0
    {
      running := false;
      energyThreshold := InitialEnergyThreshold;
      isCalibrating := true;
      noiseLevels := [];
      isSpeaking := false;
      speechStarted := 0.0;
      silenceStarted := 0.0;
      speechFrames := [];
      calibrationStartTime := 0.0;
    }

    /** `start_monitoring`: marks the detector running (the listening thread is not modelled). */
    method StartMonitoring()
      modifies this
      ensures running && State() == old(State()) && calibrationStartTime == old(calibrationStartTime)
    {
      if !running {
        running := true;
      }
    }

    /** `stop_monitoring`: the loop stops at its next check. */
    method StopMonitoring()
      modifies this
      ensures !running && State() == old(State()) && calibrationStartTime == old(calibrationStartTime)
    {
      running := false;
    }

    method IsSpeech(energy: real, isPlayingAudio: bool) returns (speech: bool)
      modifies this
      ensures (State(), speech) == IsSpeechSpec(old(State()), energy, isPlayingAudio)
      ensures running == old(running) && calibrationStartTime == old(calibrationStartTime)
    {
      if isPlayingAudio {
        return false;
      }
      if isCalibrating {
        noiseLevels := noiseLevels + [energy];
        return false;
      }
      var threshold := energyThreshold;
      if DynamicThreshold && |noiseLevels| > 0 {
        var noiseAvg := Sum(noiseLevels) / (|noiseLevels| as real);
        threshold := Max(threshold, noiseAvg * NoiseFactor);
      }
      speech := energy > threshold;
    }

    method CalibrateBegin(now: real)
      modifies this
      ensures State() == CalibrateBeginSpec(old(State())) && running == old(running)
      ensures calibrationStartTime == now
    {
      calibrationStartTime := now;
      isCalibrating := true;
      noiseLevels := [];
    }

    method CalibrateFinish()
      modifies this
      ensures State() == CalibrateFinishSpec(old(State())) && running == old(running)
      ensures calibrationStartTime == old(calibrationStartTime)
    {
      if |noiseLevels| > 0 {
        var avgNoise := Sum(noiseLevels) / (|noiseLevels| as real);
        energyThreshold := Max(CalibratedFloor, avgNoise * NoiseFactor);
      }
      isCalibrating := false;
    }

    method ProcessSpeech(now: real) returns (handoff: Option<seq<Chunk>>)
      modifies this
      ensures (State(), handoff) == ProcessSpeechSpec(old(State()), now) && running == old(running)
      ensures calibrationStartTime == old(calibrationStartTime)
    {
      var speechDuration := now - speechStarted;
      if speechDuration >= MinSpeechDuration && |speechFrames| > 0 {
        var isSpeakingWas := isSpeaking;
        isSpeaking := false;
        silenceStarted := 0.0;
        var framesCopy := speechFrames;
        speechFrames := [];
        if isSpeakingWas && speechDuration > HandoffMinDuration {
          handoff := Some(framesCopy);
        } else {
          handoff := None;
        }
      } else {
        isSpeaking := false;
        silenceStarted := 0.0;
        speechFrames := [];
        handoff := None;
      }
    }

    /** One iteration of `_monitor_audio`'s loop body. */
    method MonitorStep(chunk: Chunk, energy: real, now: real, isPlayingAudio: bool) returns (handoff: Option<seq<Chunk>>)
      modifies this
      ensures (State(), handoff) == MonitorStepSpec(old(State()), chunk, energy, now, isPlayingAudio)
      ensures running == old(running) && calibrationStartTime == old(calibrationStartTime)
    {
      if !isSpeaking && |noiseLevels| < MaxNoiseLevels {
        noiseLevels := noiseLevels + [energy];
      }
      var speech := IsSpeech(energy, isPlayingAudio);
      handoff := None;
      if speech {
        if !isSpeaking {
          isSpeaking := true;
          speechStarted := now;
          speechFrames := [];
        }
        silenceStarted := 0.0;
        speechFrames := speechFrames + [chunk];
        if now - speechStarted > MaxSpeechDuration {
          handoff := ProcessSpeech(now);
        }
      } else if isSpeaking {
        if silenceStarted == 0.0 {
          silenceStarted := now;
        }
        speechFrames := speechFrames + [chunk];
        if now - silenceStarted > SilenceThreshold {
          handoff := ProcessSpeech(now);
        }
      }
    }
  }

  /** While the assistant's own audio plays, no chunk is speech and nothing changes. */
  lemma PlaybackSuppressesSpeech(s: VadState, energy: real)
    ensures IsSpeechSpec(s, energy, true) == (s, false)
  {
  }

  /** During calibration a chunk is never speech; its energy joins the noise record. */
  lemma CalibratingRecordsNoise(s: VadState, energy: real)
    requires s.isCalibrating
    ensures var (s', speech) := IsSpeechSpec(s, energy, false);
            !speech && s'.noiseLevels == s.noiseLevels + [energy]
            && s' == s.(noiseLevels := s'.noiseLevels)
  {
  }

  /** Outside calibration and playback, a chunk is speech exactly when its energy beats
      the fixed threshold and, if noise has been recorded, 2.5 times its mean. */
  lemma SpeechDecision(s: VadState, energy: real)
    requires !s.isCalibrating
    ensures var (s', speech) := IsSpeechSpec(s, energy, false);
            s' == s
            && (speech <==> energy > s.energyThreshold
                            && (s.noiseLevels == [] || energy > Mean(s.noiseLevels) * NoiseFactor))
  {
  }

  /** Noise levels 40, 50 and 60 under a threshold of 100 give a dynamic threshold of
      125, which an energy of 130 exceeds. */
  lemma DynamicThresholdExample()
    ensures var s := VadState(100.0, false, [40.0, 50.0, 60.0], false, 0.0, 0.0, []);
            Threshold(s) == 125.0 && IsSpeechSpec(s, 130.0, false).1 && !IsSpeechSpec(s, 125.0, false).1
  {
    var s := VadState(100.0, false, [40.0, 50.0, 60.0], false, 0.0, 0.0, []);
    assert [40.0][..0] == [];
    assert [40.0, 50.0][..1] == [40.0];
    assert s.noiseLevels[..2] == [40.0, 50.0];
    assert Sum([40.0, 50.0]) == 90.0;
  }

  /** A calibration that recorded samples sets the threshold to 2.5 times their mean but
      never below 100; one that recorded none keeps the threshold. Either way it ends. */
  lemma CalibrationOutcome(s: VadState)
    ensures var s' := CalibrateFinishSpec(s);
            !s'.isCalibrating && s'.noiseLevels == s.noiseLevels
            && (s.noiseLevels == [] ==> s'.energyThreshold == s.energyThreshold)
            && (s.noiseLevels != [] ==> s'.energyThreshold >= CalibratedFloor
                                        && s'.energyThreshold >= Mean(s.noiseLevels) * NoiseFactor
                                        && (s'.energyThreshold == CalibratedFloor
                                            || s'.energyThreshold == Mean(s.noiseLevels) * NoiseFactor))
  {
  }

  /** `_monitor_audio` calibrates on the same thread that would read the chunks, so no
      sample arrives between the start and the end of calibration: the detector leaves
      calibration with an empty noise record and its threshold as it was (80 at first). */
  lemma MonitorCalibrationKeepsThreshold(s: VadState)
    ensures var s' := CalibrateFinishSpec(CalibrateBeginSpec(s));
            !s'.isCalibrating && s'.noiseLevels == [] && s'.energyThreshold == s.energyThreshold
    ensures CalibrateFinishSpec(CalibrateBeginSpec(Initial)).energyThreshold == InitialEnergyThreshold
  {
  }

  /** `_process_speech` always ends the utterance, and hands its frames on exactly when it
      lasted at least 0.3 s and more than 0.5 s, held frames, and was in progress. */
  lemma ProcessSpeechOutcome(s: VadState, now: real)
    ensures var (s', handoff) := ProcessSpeechSpec(s, now);
            !s'.isSpeaking && s'.silenceStarted == 0.0 && s'.speechFrames == []
            && s'.noiseLevels == s.noiseLevels && s'.energyThreshold == s.energyThreshold
            && (handoff.Some? <==> now - s.speechStarted > HandoffMinDuration && s.speechFrames != [] && s.isSpeaking)
            && (handoff.Some? ==> handoff.value == s.speechFrames)
  {
  }

  /** Every monitor step keeps the detector consistent. */
  lemma MonitorStepValid(s: VadState, chunk: Chunk, energy: real, now: real, isPlayingAudio: bool)
    requires Valid(s)
    ensures Valid(MonitorStepSpec(s, chunk, energy, now, isPlayingAudio).0)
  {
  }

  /** The noise record grows by at most the current energy, only between utterances, and
      never past 100 entries through the loop: the `pop(0)` after the append cannot run. */
  lemma NoiseWindow(s: VadState, chunk: Chunk, energy: real, now: real, isPlayingAudio: bool)
    requires !s.isCalibrating
    ensures var s' := MonitorStepSpec(s, chunk, energy, now, isPlayingAudio).0;
            (s'.noiseLevels == s.noiseLevels
             || (s'.noiseLevels == s.noiseLevels + [energy] && !s.isSpeaking && |s.noiseLevels| < MaxNoiseLevels))
            && |s'.noiseLevels| <= if |s.noiseLevels| > MaxNoiseLevels then |s.noiseLevels| else MaxNoiseLevels
  {
  }

  /** A handoff carries the utterance so far plus the current chunk, only after more
      than 0.5 s, and leaves the detector idle. */
  lemma MonitorHandoff(s: VadState, chunk: Chunk, energy: real, now: real, isPlayingAudio: bool)
    requires Valid(s)
    ensures var (s', handoff) := MonitorStepSpec(s, chunk, energy, now, isPlayingAudio);
            handoff.Some? ==>
              s.isSpeaking && handoff.value == s.speechFrames + [chunk]
              && now - s.speechStarted > HandoffMinDuration
              && !s'.isSpeaking && s'.speechFrames == []
  {
  }

  /** While the assistant's audio plays, an idle detector stays idle and hands nothing on. */
  lemma PlaybackKeepsIdle(s: VadState, chunk: Chunk, energy: real, now: real)
    requires !s.isSpeaking
    ensures var (s', handoff) := MonitorStepSpec(s, chunk, energy, now, true);
            !s'.isSpeaking && handoff.None? && s'.speechFrames == s.speechFrames
  {
  }

  /** An utterance followed by more than 0.8 s of quiet chunks is handed on, provided it
      has run for more than 0.5 s by then. */
  lemma SilenceClosesUtterance(s: VadState, chunk: Chunk, energy: real, now: real, isPlayingAudio: bool)
    requires Valid(s) && s.isSpeaking && !s.isCalibrating
    requires isPlayingAudio || energy <= Threshold(s)
    requires s.silenceStarted != 0.0 && now - s.silenceStarted > SilenceThreshold
    requires now - s.speechStarted > HandoffMinDuration
    ensures MonitorStepSpec(s, chunk, energy, now, isPlayingAudio) ==
            (s.(isSpeaking := false, silenceStarted := 0.0, speechFrames := []), Some(s.speechFrames + [chunk]))
  {
  }

  /** Speech running past 30 s is cut and handed on at the next loud chunk. */
  lemma LongSpeechIsCut(s: VadState, chunk: Chunk, energy: real, now: real)
    requires Valid(s) && s.isSpeaking && !s.isCalibrating
    requires energy > Threshold(s) && now - s.speechStarted > MaxSpeechDuration
    ensures MonitorStepSpec(s, chunk, energy, now, false) ==
            (s.(isSpeaking := false, silenceStarted := 0.0, speechFrames := []), Some(s.speechFrames + [chunk]))
  {
  }

  /** An idle detector outside calibration starts an utterance on a loud chunk while no
      audio plays: the chunk is its first frame, its clock starts now, no silence is
      timed, and nothing is handed on. */
  lemma SpeechOnset(s: VadState, chunk: Chunk, energy: real, now: real)
    requires !s.isSpeaking && !s.isCalibrating
    requires energy > Threshold(RecordNoise(s, energy))
    ensures MonitorStepSpec(s, chunk, energy, now, false) ==
            (RecordNoise(s, energy).(isSpeaking := true, speechStarted := now, silenceStarted := 0.0, speechFrames := [chunk]), None)
  {
    var s1 := RecordNoise(s, energy);
    assert IsSpeechSpec(s1, energy, false) == (s1, true);
    assert [] + [chunk] == [chunk];
  }

  /** Inside an utterance every chunk joins its frames unless the utterance is closed; a
      loud chunk stops the silence timer, and a quiet one starts it if it was not running. */
  lemma SpeakingAppends(s: VadState, chunk: Chunk, energy: real, now: real, isPlayingAudio: bool)
    requires Valid(s) && s.isSpeaking
    ensures var (s', handoff) := MonitorStepSpec(s, chunk, energy, now, isPlayingAudio);
            (s'.isSpeaking ==> s'.speechFrames == s.speechFrames + [chunk]
                               && s'.speechStarted == s.speechStarted && handoff.None?)
            && (!s'.isSpeaking ==> s'.speechFrames == [] && s'.silenceStarted == 0.0)
    ensures var (s', handoff) := MonitorStepSpec(s, chunk, energy, now, isPlayingAudio);
            var speech := IsSpeechSpec(s, energy, isPlayingAudio).1;
            s'.isSpeaking ==>
              s'.silenceStarted == (if speech then 0.0 else if s.silenceStarted == 0.0 then now else s.silenceStarted)
  {
  }
}
