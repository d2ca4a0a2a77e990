/** The assistant's text-to-speech player: a priority queue of speech requests that
    holds at most one entry, a consumer that speaks the most urgent entry unless it has
    gone stale, and the flags that let the user barge in.

    Requests are `(priority, timestamp, text)` tuples in a `queue.PriorityQueue`, so the
    entry taken out is the least one in Python's tuple order: priority first (1, the
    answer to the user's voice, before 2, an image comment), then age, then the text.
    Speech synthesis and the audio device are outside the model: whether synthesis
    produced audio is a parameter, and the end of playback is its own step. The app's
    `is_playing_audio` flag, which the player and the app both write, is kept here. */
module Playback {
  import opened Text

  const MaxQueueSize: nat := 1
  /** Requests other than priority 1 older than this many seconds are not spoken. */
  const StaleAfter: real := 10.0
  const VoiceReplyPriority: int := 1
  const DefaultPriority: int := 2

  datatype TtsRequest = TtsRequest(priority: int, timestamp: real, text: string)

  /** Python's `<` on two `str` values: code point by code point, a proper prefix first. */
  function StringLess(a: string, b: string): bool
  {
    if a == [] then b != []
    else if b == [] then false
    else if a[0] != b[0] then a[0] < b[0]
    else StringLess(a[1..], b[1..])
  }

  /** Python's `<` on request tuples. */
  predicate RequestLess(x: TtsRequest, y: TtsRequest)
  {
    x.priority < y.priority
    || (x.priority == y.priority
        && (x.timestamp < y.timestamp || (x.timestamp == y.timestamp && StringLess(x.text, y.text))))
  }

  lemma {:induction false} StringLessTransitive(a: string, b: string, c: string)
    requires StringLess(a, b) && StringLess(b, c)
    ensures StringLess(a, c)
    decreases |a|
  {
    if a != [] && b != [] && c != [] && a[0] == b[0] && b[0] == c[0] {
      StringLessTransitive(a[1..], b[1..], c[1..]);
    }
  }

  lemma {:induction false} StringLessTotal(a: string, b: string)
    ensures a == b || StringLess(a, b) || StringLess(b, a)
    ensures !(StringLess(a, b) && StringLess(b, a))
    decreases |a|
  {
    if a != [] && b != [] && a[0] == b[0] {
      StringLessTotal(a[1..], b[1..]);
      if a[1..] == b[1..] {
        assert a == [a[0]] + a[1..] && b == [b[0]] + b[1..];
      }
    }
  }

  /** Tuple order is a strict total order on requests, so "the least entry" is well defined. */
  lemma RequestOrder(x: TtsRequest, y: TtsRequest, z: TtsRequest)
    ensures !RequestLess(x, x)
    ensures x == y || RequestLess(x, y) || RequestLess(y, x)
    ensures !(RequestLess(x, y) && RequestLess(y, x))
    ensures RequestLess(x, y) && RequestLess(y, z) ==> RequestLess(x, z)
  {
    StringLessTotal(x.text, x.text);
    StringLessTotal(x.text, y.text);
    if RequestLess(x, y) && RequestLess(y, z) && x.priority == y.priority == z.priority
       && x.timestamp == y.timestamp == z.timestamp {
      StringLessTransitive(x.text, y.text, z.text);
    }
  }

  /** Where the least entry sits (the first of equal least entries). */
  function MinIndex(q: seq<TtsRequest>): (i: nat)
    requires q != []
    ensures i < |q| && forall j | 0 <= j < |q| :: !RequestLess(q[j], q[i])
  {
    if |q| == 1 then
      RequestOrder(q[0], q[0], q[0]);
      0
    else
      var m := MinIndex(q[1..]) + 1;
      if RequestLess(q[0], q[m]) then
        assert forall j | 0 <= j < |q| :: !RequestLess(q[j], q[0]) by {
          forall j | 0 <= j < |q| ensures !RequestLess(q[j], q[0]) {
            RequestOrder(q[j], q[0], q[m]);
            if j > 0 { assert q[j] == q[1..][j - 1]; }
          }
        }
        0
      else
        assert forall j | 0 <= j < |q| :: !RequestLess(q[j], q[m]) by {
          forall j | 0 <= j < |q| ensures !RequestLess(q[j], q[m]) {
            if j > 0 { assert q[j] == q[1..][j - 1]; }
          }
        }
        m
  }

  function RemoveAt<T>(q: seq<T>, i: nat): (r: seq<T>)
    requires i < |q|
    ensures |r| == |q| - 1 && multiset(r) + multiset{q[i]} == multiset(q)
  {
    assert q == q[..i] + [q[i]] + q[i + 1..];
    q[..i] + q[i + 1..]
  }

  datatype PlayerState = PlayerState(
    queue: seq<TtsRequest>,
    playing: bool,
    skipRequested: bool,
    ttsRunning: bool,
    isPlayingAudio: bool)

  /** What one pass of the consumer loop did. */
  datatype Consumed =
    | Waited
    | DroppedStale(request: TtsRequest)
    | Spoken(request: TtsRequest)
    | SynthesisFailed(request: TtsRequest)

  predicate Blank(text: string)
  {
    Strip(text) == []
  }

  /** `play_text(text, priority)` at time `now`. */
  function PlayTextSpec(s: PlayerState, text: string, priority: int, now: real): PlayerState
  {
    if text == [] || |Strip(text)| == 0 then s
    else
      var cleaned := if priority == VoiceReplyPriority || |s.queue| >= MaxQueueSize then CleanQueueSpec(s, priority) else s;
      cleaned.(ttsRunning := true, queue := cleaned.queue + [TtsRequest(priority, now, text)])
  }

  /** `_clean_queue`: a barge-in purge for priority 1, eviction down to below the size
      limit otherwise; with a limit of 1 both leave the queue empty. */
  function CleanQueueSpec(s: PlayerState, newPriority: int): PlayerState
  {
    s.(queue := [])
  }

  /** One pass of `_process_tts_queue` at time `now`; `synthesized` says whether the
      synthesiser returned audio. */
  function ConsumeSpec(s: PlayerState, now: real, synthesized: bool): (PlayerState, Consumed)
  {
    if s.queue == [] || s.playing then (s, Waited)
    else
      var i := MinIndex(s.queue);
      var r := s.queue[i];
      var rest := s.(queue := RemoveAt(s.queue, i));
      if r.priority > 1 && now - r.timestamp > StaleAfter then (rest, DroppedStale(r))
      else if !synthesized then (rest.(isPlayingAudio := false), SynthesisFailed(r))
      else (rest.(skipRequested := false, playing := true, isPlayingAudio := true), Spoken(r))
  }

  /** The end of `_play_audio`, whether the clip ran out, was skipped or failed to load. */
  function PlaybackEndedSpec(s: PlayerState): PlayerState
  {
    s.(playing := false, isPlayingAudio := false)
  }

  function SkipCurrentSpec(s: PlayerState): PlayerState
  {
    if s.playing then s.(skipRequested := true, isPlayingAudio := false) else s
  }

  function StopSpec(s: PlayerState): PlayerState
  {
    SkipCurrentSpec(s).(ttsRunning := false, queue := [])
  }

  class AudioPlayer {
    var queue: seq<TtsRequest>
    var playing: bool
    var skipRequested: bool
    var ttsRunning: bool
    var isPlayingAudio: bool

    function State(): PlayerState
      reads this
    {
      PlayerState(queue, playing, skipRequested, ttsRunning, isPlayingAudio)
    }

    constructor ()
      ensures State() == PlayerState([], false, false, false, false)
    {
      queue := [];
      playing := false;
      skipRequested := false;
      ttsRunning := false;
      isPlayingAudio := false;
    }

    /** `get_nowait()` / `get()` on a non-empty queue: takes out the least entry. */
    method Get() returns (r: TtsRequest)
      requires queue != []
      modifies this
      ensures r == old(queue)[MinIndex(old(queue))]
      ensures State() == old(State()).(queue := RemoveAt(old(queue), MinIndex(old(queue))))
    {
      var i := MinIndex(queue);
      r := queue[i];
      queue := RemoveAt(queue, i);
    }

    method CleanQueue(newPriority: int)
      modifies this
      ensures State() == CleanQueueSpec(old(State()), newPriority)
    {
      if |queue| == 0 {
        return;
      }
      if newPriority == VoiceReplyPriority {
        while |queue| != 0
          invariant State() == old(State()).(queue := queue)
          decreases |queue|
        {
          var _ := Get();
        }
        return;
      }
      while |queue| >= MaxQueueSize
        invariant State() == old(State()).(queue := queue)
        decreases |queue|
      {
        var _ := Get();
      }
    }

    method PlayText(text: string, priority: int, now: real)
      modifies this
      ensures State() == PlayTextSpec(old(State()), text, priority, now)
    {
      if text == [] || |Strip(text)| == 0 {
        return;
      }
      if priority == VoiceReplyPriority || |queue| >= MaxQueueSize {
        CleanQueue(priority);
      }
      if !ttsRunning {
        ttsRunning := true;
      }
      queue := queue + [TtsRequest(priority, now, text)];
    }

    method Consume(now: real, synthesized: bool) returns (c: Consumed)
      modifies this
      ensures (State(), c) == ConsumeSpec(old(State()), now, synthesized)
    {
      if queue == [] || playing {
        return Waited;
      }
      var r := Get();
      if r.priority > 1 && now - r.timestamp > StaleAfter {
        return DroppedStale(r);
      }
      isPlayingAudio := true;
      if !synthesized {
        isPlayingAudio := false;
        return SynthesisFailed(r);
      }
      skipRequested := false;
      playing := true;
      isPlayingAudio := true;
      c := Spoken(r);
    }

    method PlaybackEnded()
      modifies this
      ensures State() == PlaybackEndedSpec(old(State()))
    {
      playing := false;
      isPlayingAudio := false;
    }

    method SkipCurrent()
      modifies this
      ensures State() == SkipCurrentSpec(old(State()))
    {
      if playing {
        skipRequested := true;
        isPlayingAudio := false;
      }
    }

    method Stop()
      modifies this
      ensures State() == StopSpec(old(State()))
    {
      SkipCurrent();
      ttsRunning := false;
      while queue != []
        invariant State() == SkipCurrentSpec(old(State())).(ttsRunning := false, queue := queue)
        decreases |queue|
      {
        var _ := Get();
      }
    }
  }

  /** Empty and whitespace-only text is ignored. */
  lemma BlankTextIgnored(s: PlayerState, text: string, priority: int, now: real)
    ensures Blank(text) ==> PlayTextSpec(s, text, priority, now) == s
    ensures (forall k | 0 <= k < |text| :: IsSpace(text[k])) ==> PlayTextSpec(s, text, priority, now) == s
  {
    StripEmptyIffBlank(text);
  }

  /** Any other text replaces whatever was pending, even a pending priority-1 answer,
      so the queue then holds exactly the new request, and the consumer is running. */
  lemma PlayTextReplacesPending(s: PlayerState, text: string, priority: int, now: real)
    requires !Blank(text)
    ensures var s' := PlayTextSpec(s, text, priority, now);
            s'.queue == [TtsRequest(priority, now, text)] && s'.ttsRunning
            && s'.playing == s.playing && s'.isPlayingAudio == s.isPlayingAudio
  {
  }

  /** The queue never holds more than one request. */
  lemma QueueBounded(s: PlayerState, text: string, priority: int, now: real, synthesized: bool)
    requires |s.queue| <= MaxQueueSize
    ensures |PlayTextSpec(s, text, priority, now).queue| <= MaxQueueSize
    ensures |ConsumeSpec(s, now, synthesized).0.queue| <= MaxQueueSize
    ensures |SkipCurrentSpec(s).queue| <= MaxQueueSize && |PlaybackEndedSpec(s).queue| <= MaxQueueSize
    ensures StopSpec(s).queue == []
  {
    if s.queue != [] && !s.playing {
      assert |RemoveAt(s.queue, MinIndex(s.queue))| < |s.queue|;
    }
  }

  /** A pending request always has a running consumer: `play_text` starts the consumer
      whenever it queues, and `stop` empties the queue when it stops the consumer. So the
      `while self.tts_running` guard of the consumer loop holds whenever there is work,
      and `ConsumeSpec` need not test it. */
  lemma PendingHasConsumer(s: PlayerState, text: string, priority: int, now: real, synthesized: bool)
    requires s.queue != [] ==> s.ttsRunning
    ensures var s' := PlayTextSpec(s, text, priority, now); s'.queue != [] ==> s'.ttsRunning
    ensures var s' := ConsumeSpec(s, now, synthesized).0; s'.queue != [] ==> s'.ttsRunning
    ensures var s' := SkipCurrentSpec(s); s'.queue != [] ==> s'.ttsRunning
    ensures var s' := PlaybackEndedSpec(s); s'.queue != [] ==> s'.ttsRunning
    ensures var s' := StopSpec(s); s'.queue == [] && !s'.ttsRunning
  {
  }

  /** The consumer waits while a clip plays; otherwise it takes out a least request and
      nothing else, and speaks only a fresh or priority-1 request. */
  lemma ConsumeTakesLeast(s: PlayerState, now: real, synthesized: bool)
    ensures var (s', c) := ConsumeSpec(s, now, synthesized);
            (c.Waited? <==> s.queue == [] || s.playing)
            && (c.Waited? ==> s' == s)
            && (!c.Waited? ==> c.request in s.queue
                               && (forall j | 0 <= j < |s.queue| :: !RequestLess(s.queue[j], c.request))
                               && multiset(s'.queue) + multiset{c.request} == multiset(s.queue))
            && (c.Spoken? ==> (c.request.priority <= 1 || now - c.request.timestamp <= StaleAfter)
                              && s'.playing && s'.isPlayingAudio && !s'.skipRequested)
  {
  }

  /** A request other than priority 1 that waited more than 10 s is discarded unspoken,
      leaving the playback flags alone; a priority-1 request is never discarded. */
  lemma StaleRequestDropped(s: PlayerState, now: real, synthesized: bool, r: TtsRequest)
    requires s.queue == [r] && !s.playing
    ensures r.priority > 1 && now - r.timestamp > StaleAfter ==>
              ConsumeSpec(s, now, synthesized) == (s.(queue := []), DroppedStale(r))
    ensures r.priority == VoiceReplyPriority ==> !ConsumeSpec(s, now, synthesized).1.DroppedStale?
  {
  }

  /** A barge-in skips only a clip that is playing, and releases the microphone gate. */
  lemma SkipReleasesGate(s: PlayerState)
    ensures s.playing ==> SkipCurrentSpec(s) == s.(skipRequested := true, isPlayingAudio := false)
    ensures !s.playing ==> SkipCurrentSpec(s) == s
    ensures !StopSpec(s).ttsRunning && StopSpec(s).queue == []
  {
  }
}
