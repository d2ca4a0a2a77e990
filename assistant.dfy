/** The assistant application's own state and what each of its handlers does to it.

    The app keeps a priority queue of messages `(priority, message_id, message)`, a
    counter that numbers both queued messages and generated placeholder ids, a map from
    placeholder ids to chat rows, the observation history, the chat context, the
    behaviour tracker and the last image analysis; the speech player's state is part of
    it because the handlers drive the player. The replies of the chat model, the vision
    model's analysis and the speech recogniser's transcript are parameters (`None` when
    the call raised or returned nothing).

    Two paths lead from a camera analysis to the app. The webcam handler posts an
    "img_" placeholder and, once the analysis is back, appends an observation (without
    the 20-entry cap) and updates the placeholder, which asks the chat model about the
    analysis alone. The queued "image_analysis" message without a placeholder goes
    through `process_image_analysis`, the only path that feeds the behaviour tracker,
    the reminders and the shared chat context. */
module Assistant {
  import opened Text
  import Classify
  import SpeechTags
  import opened Tracker
  import opened Conversation
  import Playback

  datatype MessageKind = ImageAnalysis | VoiceInput

  datatype Message = Message(kind: MessageKind, content: string, placeholderId: Option<string>)

  /** An entry of `message_queue`. */
  datatype QueuedMessage = QueuedMessage(priority: int, msgId: nat, message: Message)

  const VoiceMessagePriority: int := 1
  const ImageMessagePriority: int := 2
  /** Voice transcripts shorter than this, once stripped, are taken for noise. */
  const MinTranscriptLength: nat := 2

  datatype AppState = AppState(
    messageId: nat,
    placeholderMap: map<string, nat>,
    chatRow: nat,
    queue: seq<QueuedMessage>,
    history: seq<Observation>,
    context: seq<ChatMessage>,
    tracker: TrackerState,
    lastImageAnalysis: string,
    player: Playback.PlayerState,
    lastTimestamp: real)

  /** A Python value that is true in a condition: a present, non-empty string. */
  predicate Truthy(id: Option<string>)
  {
    id.Some? && id.value != []
  }

  /** Seconds between two timestamp rows in the chat. */
  const TimestampInterval: real := 60.0

  /** The app right after construction at time `now`: the welcome message took chat
      row 0, the context holds the system prompt, the sitting timer started now, and
      the constructor's own `check_timestamp` call ran against a last timestamp of 0. */
  function InitialApp(now: real): AppState
  {
    CheckTimestampSpec(AppState(0, map[], 1, [], [], [SystemPrompt], InitialTracker(now), "",
                                Playback.PlayerState([], false, false, false, false), 0.0), now)
  }

  /** `check_timestamp` at time `now`: once a minute has passed since the last
      timestamp, `add_timestamp` takes the next chat row and the time is noted. */
  function CheckTimestampSpec(s: AppState, now: real): AppState
  {
    if now - s.lastTimestamp >= TimestampInterval then s.(chatRow := s.chatRow + 1, lastTimestamp := now)
    else s
  }

  /** The invariant the handlers keep: queued ids are below the counter and increase
      along the queue; each placeholder has its own row, below the next row; the
      context starts with the system prompt and holds at most 21 messages; every
      tracker entry exists; the speech queue holds at most one request. */
  predicate Valid(s: AppState)
  {
    (forall k | 0 <= k < |s.queue| :: s.queue[k].msgId < s.messageId)
    && (forall i, j | 0 <= i < j < |s.queue| :: s.queue[i].msgId < s.queue[j].msgId)
    && (forall id | id in s.placeholderMap :: s.placeholderMap[id] < s.chatRow)
    && (forall a, b | a in s.placeholderMap && b in s.placeholderMap && a != b ::
          s.placeholderMap[a] != s.placeholderMap[b])
    && s.context != [] && s.context[0] == SystemPrompt && |s.context| <= MaxContext + 1
    && Complete(s.tracker)
    && |s.player.queue| <= Playback.MaxQueueSize
  }

  // ---------------------------------------------------------------------------
  // Chat rows and placeholders

  /** `add_ai_message`: takes the next chat row; a placeholder without an id gets
      "ai_<message_id>" and advances the counter; a placeholder is mapped to its row.
      Returns the placeholder's id, or `None` for an ordinary message. */
  function AddAiMessageSpec(s: AppState, isPlaceholder: bool, id: Option<string>): (AppState, Option<string>)
  {
    var generate := isPlaceholder && !Truthy(id);
    var key := if generate then "ai_" + NatToString(s.messageId) else if id.Some? then id.value else [];
    var pm := if isPlaceholder then s.placeholderMap[key := s.chatRow] else s.placeholderMap;
    (s.(messageId := if generate then s.messageId + 1 else s.messageId, placeholderMap := pm, chatRow := s.chatRow + 1),
     if isPlaceholder then Some(key) else None)
  }

  /** `add_user_message`: first drops the placeholder it replaces, then behaves like
      `add_ai_message` with "user_" ids. */
  function AddUserMessageSpec(s: AppState, isPlaceholder: bool, replace: Option<string>, id: Option<string>): (AppState, Option<string>)
  {
    var pm0 := if Truthy(replace) && replace.value in s.placeholderMap then s.placeholderMap - {replace.value} else s.placeholderMap;
    var generate := isPlaceholder && !Truthy(id);
    var key := if generate then "user_" + NatToString(s.messageId) else if id.Some? then id.value else [];
    var pm := if isPlaceholder then pm0[key := s.chatRow] else pm0;
    (s.(messageId := if generate then s.messageId + 1 else s.messageId, placeholderMap := pm, chatRow := s.chatRow + 1),
     if isPlaceholder then Some(key) else None)
  }

  /** `update_placeholder(id, content)`: only an "img_" placeholder still in the map is
      acted on; it records the analysis, posts and speaks (at the default priority) the
      chat model's comment when there is one, and leaves the map. */
  function UpdatePlaceholderSpec(s: AppState, id: string, content: string, reply: Option<string>, now: real): AppState
  {
    if id in s.placeholderMap && StartsWith(id, "img_") then
      var s1 := s.(lastImageAnalysis := content);
      var s2 := if reply.Some? then
                  var a := AddAiMessageSpec(s1, false, None).0;
                  a.(player := Playback.PlayTextSpec(a.player, reply.value, Playback.DefaultPriority, now))
                else s1;
      s2.(placeholderMap := s2.placeholderMap - {id})
    else s
  }

  // ---------------------------------------------------------------------------
  // The two handlers

  /** `process_image_analysis(text)` at time `now` with the chat model's `reply`. */
  function ProcessImageAnalysisSpec(s: AppState, text: string, reply: Option<string>, now: real): AppState
    requires Complete(s.tracker)
  {
    var (num, desc) := Classify.ExtractBehaviorType(text);
    var (t, d) := ObserveSpec(s.tracker, num, now);
    var s1 := s.(history := AppendCapped(s.history, Observation(now, num, desc, text)), tracker := t, lastImageAnalysis := text);
    var s2 := AddAiMessageSpec(s1, false, None).0;
    var ctx := TrimContext(s2.context + [ObservationPrompt(text, InstructionFor(d, desc))]);
    if reply.None? then s2.(context := ctx)
    else
      var s3 := AddAiMessageSpec(s2.(context := ctx + [AssistantReply(reply.value)]), false, None).0;
      if d.reminder.Some? || d.encourage then
        s3.(player := Playback.PlayTextSpec(s3.player, reply.value, Playback.DefaultPriority, now))
      else s3
  }

  /** `process_voice_input(text)` at time `now` with the chat model's `reply`. The
      speech gate is read after the barge-in and restored only when the chat call
      fails. */
  function ProcessVoiceInputSpec(s: AppState, text: string, reply: Option<string>, now: real): AppState
  {
    var p0 := Playback.SkipCurrentSpec(s.player);
    var was := p0.isPlayingAudio;
    var s1 := AddUserMessageSpec(s.(player := p0.(isPlayingAudio := true)), false, None, None).0;
    var filter := BehaviorFilter(text);
    var h := RecoverySpec(s1.history, s1.tracker.counters, filter, now);
    var ctx := TrimContext(s1.context + [VoicePrompt(text, RelevanceFor(h, s1.tracker.counters, filter), Recent(h))]);
    var s2 := s1.(history := h, context := ctx);
    if reply.None? then s2.(player := s2.player.(isPlayingAudio := was))
    else
      var s3 := AddAiMessageSpec(s2.(context := ctx + [AssistantReply(reply.value)]), false, None).0;
      s3.(player := Playback.PlayTextSpec(s3.player, reply.value, Playback.VoiceReplyPriority, now))
  }

  /** `handle_message`: an image analysis with a placeholder updates it, one without
      is processed in full (without a placeholder), a voice input is answered. */
  function HandleMessageSpec(s: AppState, m: Message, reply: Option<string>, now: real): AppState
    requires Complete(s.tracker)
  {
    match m.kind
    case ImageAnalysis =>
      if Truthy(m.placeholderId) then UpdatePlaceholderSpec(s, m.placeholderId.value, m.content, reply, now)
      else ProcessImageAnalysisSpec(s, m.content, reply, now)
    case VoiceInput => ProcessVoiceInputSpec(s, m.content, reply, now)
  }

  // ---------------------------------------------------------------------------
  // The message queue

  /** Python's tuple order on two entries whose ids differ: priority, then id. */
  predicate Before(a: QueuedMessage, b: QueuedMessage)
  {
    a.priority < b.priority || (a.priority == b.priority && a.msgId < b.msgId)
  }

  /** The position of the entry `get()` takes out. */
  function MinMessage(q: seq<QueuedMessage>): (i: nat)
    requires q != []
    decreases |q|
    ensures i < |q| && forall j | 0 <= j < |q| :: !Before(q[j], q[i])
  {
    if |q| == 1 then 0
    else
      var m := MinMessage(q[1..]) + 1;
      assert forall j | 1 <= j < |q| :: q[j] == q[1..][j - 1];
      if Before(q[m], q[0]) then m else 0
  }

  /** `message_queue.put((priority, message_id, message))` followed by `message_id += 1`. */
  function Put(s: AppState, priority: int, m: Message): (r: AppState)
    ensures r.queue == s.queue + [QueuedMessage(priority, s.messageId, m)] && r.messageId == s.messageId + 1
  {
    s.(queue := s.queue + [QueuedMessage(priority, s.messageId, m)], messageId := s.messageId + 1)
  }

  /** One turn of `process_message_queue`: the least entry is taken out and handled.
      Returns the entry, or `None` when the queue was empty. */
  function ProcessNextSpec(s: AppState, reply: Option<string>, now: real): (AppState, Option<QueuedMessage>)
    requires Complete(s.tracker)
  {
    if s.queue == [] then (s, None)
    else
      var i := MinMessage(s.queue);
      (HandleMessageSpec(s.(queue := Playback.RemoveAt(s.queue, i)), s.queue[i].message, reply, now), Some(s.queue[i]))
  }

  /** `analyze_images`: with image urls and an analysis back from the vision model, the
      analysis is queued at priority 2. */
  function AnalyzeImagesSpec(s: AppState, haveUrls: bool, analysis: Option<string>, placeholderId: Option<string>): AppState
  {
    if !haveUrls || analysis.None? then s
    else Put(s, ImageMessagePriority, Message(ImageAnalysis, analysis.value, placeholderId))
  }

  /** The transcript `transcribe_audio` keeps from the recogniser's raw text `heard`
      (`None` for a missing or empty file or no result): the content after the tags,
      unless it is shorter than two characters once stripped. A text on which the
      tag-stripping loop never ends yields nothing. */
  function Transcript(heard: Option<string>): (r: Option<string>)
    ensures r.Some? ==> |Strip(r.value)| >= MinTranscriptLength
  {
    if heard.None? then None
    else
      match SpeechTags.ExtractContent(heard.value)
      case None => None
      case Some(x) => if |Strip(x)| < MinTranscriptLength then None else Some(x)
  }

  /** `transcribe_audio`: the kept transcript is queued, at priority 1 for the voice
      detector's recordings (which also barge in on the player) and 2 otherwise. */
  function TranscribeSpec(s: AppState, heard: Option<string>, priority: bool, placeholderId: Option<string>): AppState
  {
    QueueTranscriptSpec(s, Transcript(heard), priority, placeholderId)
  }

  /** The queueing half of `transcribe_audio`, for the transcript it kept. */
  function QueueTranscriptSpec(s: AppState, kept: Option<string>, priority: bool, placeholderId: Option<string>): AppState
  {
    match kept
    case None => s
    case Some(x) =>
      var s1 := Put(s, if priority then VoiceMessagePriority else ImageMessagePriority, Message(VoiceInput, x, placeholderId));
      if priority then s1.(player := Playback.SkipCurrentSpec(s1.player)) else s1
  }

  /** The app's side of the webcam handler's `_analyze_screenshots`: a non-empty
      analysis is appended to the history and handed to `update_placeholder`. */
  function WebcamAnalysisSpec(s: AppState, placeholderId: string, analysis: Option<string>, reply: Option<string>, now: real): AppState
  {
    if !Truthy(analysis) then s
    else
      var (num, desc) := Classify.ExtractBehaviorType(analysis.value);
      var s1 := s.(history := s.history + [Observation(now, num, desc, analysis.value)]);
      UpdatePlaceholderSpec(s1, placeholderId, analysis.value, reply, now)
  }

  // ---------------------------------------------------------------------------
  // Properties

  /** Every chat message takes a fresh row. A placeholder is mapped to that row, under
      the id it was given or under "ai_<counter>" (the counter then advancing); an
      ordinary message leaves the map and the counter alone. */
  lemma AddAiMessageOutcome(s: AppState, isPlaceholder: bool, id: Option<string>)
    ensures var (s', r) := AddAiMessageSpec(s, isPlaceholder, id);
            s'.chatRow == s.chatRow + 1
            && (isPlaceholder <==> r.Some?)
            && (r.Some? ==> r.value in s'.placeholderMap && s'.placeholderMap[r.value] == s.chatRow)
            && (r.Some? && Truthy(id) ==> r == id && s'.messageId == s.messageId)
            && (r.Some? && !Truthy(id) ==> r.value == "ai_" + NatToString(s.messageId) && s'.messageId == s.messageId + 1)
            && (r.None? ==> s'.placeholderMap == s.placeholderMap && s'.messageId == s.messageId)
            && (forall k | k in s.placeholderMap && (r.None? || k != r.value) :: k in s'.placeholderMap && s'.placeholderMap[k] == s.placeholderMap[k])
  {
  }

  /** A user message drops the placeholder it replaces and otherwise takes its row like
      an AI message; plain text from the voice handler only takes a row. */
  lemma AddUserMessageOutcome(s: AppState, replace: string)
    ensures var (s', r) := AddUserMessageSpec(s, false, Some(replace), None);
            r.None? && s'.chatRow == s.chatRow + 1 && s'.messageId == s.messageId
            && (replace != [] ==> s'.placeholderMap == s.placeholderMap - {replace})
    ensures AddUserMessageSpec(s, false, None, None).0 == s.(chatRow := s.chatRow + 1)
    ensures var (s', r) := AddUserMessageSpec(s, true, None, None);
            r == Some("user_" + NatToString(s.messageId)) && s'.placeholderMap[r.value] == s.chatRow
  {
  }

  /** Updating a placeholder retires an "img_" id, whether or not the chat model
      answered; a "voice_" id, an id of another kind or an unknown id changes nothing. */
  lemma UpdatePlaceholderOutcome(s: AppState, id: string, content: string, reply: Option<string>, now: real)
    ensures var s' := UpdatePlaceholderSpec(s, id, content, reply, now);
            (id in s.placeholderMap && StartsWith(id, "img_") ==>
               id !in s'.placeholderMap && s'.placeholderMap == s.placeholderMap - {id}
               && s'.lastImageAnalysis == content
               && s'.chatRow == (if reply.Some? then s.chatRow + 1 else s.chatRow)
               && (reply.Some? && !Playback.Blank(reply.value) ==>
                     s'.player.queue == [Playback.TtsRequest(Playback.DefaultPriority, now, reply.value)]))
            && (id !in s.placeholderMap || !StartsWith(id, "img_") ==> s' == s)
  {
  }

  /** The context invariant: the system prompt stays first and the context never holds
      more than 21 messages, across both handlers. */
  lemma HandlersKeepContext(s: AppState, text: string, reply: Option<string>, now: real)
    requires s.context != [] && s.context[0] == SystemPrompt && |s.context| <= MaxContext + 1
    requires Complete(s.tracker)
    ensures var s' := ProcessImageAnalysisSpec(s, text, reply, now);
            s'.context[0] == SystemPrompt && |s'.context| <= MaxContext + 1
    ensures var s' := ProcessVoiceInputSpec(s, text, reply, now);
            s'.context[0] == SystemPrompt && |s'.context| <= MaxContext + 1
  {
    var (num, desc) := Classify.ExtractBehaviorType(text);
    var d := ObserveSpec(s.tracker, num, now).1;
    TurnKeepsContext(s.context, ObservationPrompt(text, InstructionFor(d, desc)), reply);
    var h := RecoverySpec(s.history, s.tracker.counters, BehaviorFilter(text), now);
    TurnKeepsContext(s.context, VoicePrompt(text, RelevanceFor(h, s.tracker.counters, BehaviorFilter(text)), Recent(h)), reply);
  }

  /** An image analysis is recorded as the newest observation, with the behaviour the
      classifier found; the history stays within 20 entries, the tracker takes the same
      step as `ObserveSpec`, and the analysis and the reply each take a chat row. */
  lemma ProcessImageAnalysisRecords(s: AppState, text: string, reply: string, now: real)
    requires Complete(s.tracker) && |s.history| <= MaxObservations
    ensures var s' := ProcessImageAnalysisSpec(s, text, Some(reply), now);
            var (num, desc) := Classify.ExtractBehaviorType(text);
            |s'.history| <= MaxObservations
            && s'.history[|s'.history| - 1] == Observation(now, num, desc, text)
            && s'.tracker == ObserveSpec(s.tracker, num, now).0 && s'.lastImageAnalysis == text
            && s'.chatRow == s.chatRow + 2 && s'.placeholderMap == s.placeholderMap
  {
    var (num, desc) := Classify.ExtractBehaviorType(text);
    AppendCappedBounded(s.history, Observation(now, num, desc, text));
  }

  /** The observation goes to the chat model with the instruction the tracker's decision
      calls for, the reply follows it in the context, and the reply is spoken (at
      priority 2) exactly when a reminder or an encouragement was decided. */
  lemma ProcessImageAnalysisSpeaks(s: AppState, text: string, reply: string, now: real)
    requires Complete(s.tracker)
    ensures var s' := ProcessImageAnalysisSpec(s, text, Some(reply), now);
            var (num, desc) := Classify.ExtractBehaviorType(text);
            var d := ObserveSpec(s.tracker, num, now).1;
            s'.context[|s'.context| - 1] == AssistantReply(reply)
            && s'.context[|s'.context| - 2] == ObservationPrompt(text, InstructionFor(d, desc))
            && (d.reminder.None? && !d.encourage ==> s'.player == s.player)
            && ((d.reminder.Some? || d.encourage) && !Playback.Blank(reply) ==>
                  s'.player.queue == [Playback.TtsRequest(Playback.DefaultPriority, now, reply)])
  {
    var (num, desc) := Classify.ExtractBehaviorType(text);
    var (t, d) := ObserveSpec(s.tracker, num, now);
    var s1 := s.(history := AppendCapped(s.history, Observation(now, num, desc, text)), tracker := t, lastImageAnalysis := text);
    var s2 := s1.(chatRow := s1.chatRow + 1);
    PlainAiMessage(s1);
    var ctx := TrimContext(s2.context + [ObservationPrompt(text, InstructionFor(d, desc))]);
    TrimContextKeeps(s2.context + [ObservationPrompt(text, InstructionFor(d, desc))]);
    var s3 := s2.(context := ctx + [AssistantReply(reply)], chatRow := s2.chatRow + 1);
    PlainAiMessage(s2.(context := ctx + [AssistantReply(reply)]));
    assert ProcessImageAnalysisSpec(s, text, Some(reply), now) ==
           if d.reminder.Some? || d.encourage
           then s3.(player := Playback.PlayTextSpec(s3.player, reply, Playback.DefaultPriority, now))
           else s3;
  }

  /** An ordinary chat message only takes the next row. */
  lemma PlainAiMessage(s: AppState)
    ensures AddAiMessageSpec(s, false, None).0 == s.(chatRow := s.chatRow + 1)
  {
  }

  /** A voice question barges in on the player and closes the speech gate; a reply is
      queued for speech at priority 1 with the gate still closed, and a failed chat call
      reopens the gate to what it was after the barge-in. */
  lemma ProcessVoiceInputGate(s: AppState, text: string, reply: Option<string>, now: real)
    ensures var s' := ProcessVoiceInputSpec(s, text, reply, now);
            var p0 := Playback.SkipCurrentSpec(s.player);
            (reply.None? ==> s'.player == p0 && s'.chatRow == s.chatRow + 1)
            && (reply.Some? ==>
                  s'.player.isPlayingAudio && s'.chatRow == s.chatRow + 2
                  && s'.context[|s'.context| - 1] == AssistantReply(reply.value))
            && (reply.Some? && !Playback.Blank(reply.value) ==>
                  s'.player.queue == [Playback.TtsRequest(Playback.VoiceReplyPriority, now, reply.value)])
            && s'.messageId == s.messageId && s'.placeholderMap == s.placeholderMap && s'.tracker == s.tracker
  {
  }

  /** What a voice question puts before the chat model: the history lines about the
      behaviour it asks for (restored from the counter when the history is empty), and
      the five latest observations. */
  lemma ProcessVoiceInputPrompt(s: AppState, text: string, reply: Option<string>, now: real)
    ensures var s' := ProcessVoiceInputSpec(s, text, reply, now);
            var filter := BehaviorFilter(text);
            var h := RecoverySpec(s.history, s.tracker.counters, filter, now);
            s'.history == h
            && var t := TrimContext(s.context + [VoicePrompt(text, RelevanceFor(h, s.tracker.counters, filter), Recent(h))]);
               t[|t| - 1] == VoicePrompt(text, RelevanceFor(h, s.tracker.counters, filter), Recent(h))
               && s'.context == (if reply.Some? then t + [AssistantReply(reply.value)] else t)
  {
    var filter := BehaviorFilter(text);
    var h := RecoverySpec(s.history, s.tracker.counters, filter, now);
    var ctx := s.context + [VoicePrompt(text, RelevanceFor(h, s.tracker.counters, filter), Recent(h))];
    if |ctx| > MaxContext {
      assert ctx != [];
    }
  }

  /** The next message handled is the entry with the smallest priority and, among
      those, the one put first: no other entry is before it. */
  lemma NextIsMostUrgentOldest(q: seq<QueuedMessage>)
    requires q != []
    requires forall i, j | 0 <= i < j < |q| :: q[i].msgId < q[j].msgId
    ensures var i := MinMessage(q);
            (forall j | 0 <= j < |q| :: q[i].priority <= q[j].priority)
            && (forall j | 0 <= j < |q| && q[j].priority == q[i].priority :: i <= j)
            && (forall j | 0 <= j < |q| && j != i :: Before(q[i], q[j]))
  {
    var i := MinMessage(q);
    forall j | 0 <= j < |q| && j != i ensures Before(q[i], q[j]) {
      assert !Before(q[j], q[i]);
      if j < i { assert q[j].msgId < q[i].msgId; } else { assert q[i].msgId < q[j].msgId; }
    }
  }

  /** A queued voice input of priority 1 is always handled before any image analysis
      (priority 2), however long the analysis has waited. */
  lemma VoiceBeforeImage(q: seq<QueuedMessage>, v: nat)
    requires v < |q| && q[v].priority == VoiceMessagePriority
    requires forall k | 0 <= k < |q| :: q[k].priority in {VoiceMessagePriority, ImageMessagePriority}
    ensures q[MinMessage(q)].priority == VoiceMessagePriority
  {
    assert !Before(q[v], q[MinMessage(q)]);
  }

  /** An analysis from the vision model is queued at priority 2 under the counter's
      current value, which then advances; without urls or an analysis nothing happens. */
  lemma AnalyzeImagesQueues(s: AppState, haveUrls: bool, analysis: Option<string>, placeholderId: Option<string>)
    ensures var s' := AnalyzeImagesSpec(s, haveUrls, analysis, placeholderId);
            (!haveUrls || analysis.None? ==> s' == s)
            && (haveUrls && analysis.Some? ==>
                  s'.queue == s.queue + [QueuedMessage(ImageMessagePriority, s.messageId, Message(ImageAnalysis, analysis.value, placeholderId))]
                  && s'.messageId == s.messageId + 1 && s'.player == s.player)
  {
  }

  /** A transcript is kept exactly when the tags can be stripped and at least two
      characters remain once it is stripped; a kept transcript is queued under the
      counter's value, at priority 1 with a barge-in when the voice detector recorded
      it, and at priority 2 without one otherwise. */
  lemma TranscribeQueues(s: AppState, heard: Option<string>, priority: bool, placeholderId: Option<string>)
    ensures Transcript(heard).Some? <==>
              heard.Some? && SpeechTags.ExtractContent(heard.value).Some?
              && |Strip(SpeechTags.ExtractContent(heard.value).value)| >= MinTranscriptLength
    ensures Transcript(heard).Some? ==> Transcript(heard) == SpeechTags.ExtractContent(heard.value)
    ensures var s' := TranscribeSpec(s, heard, priority, placeholderId);
            (Transcript(heard).None? ==> s' == s)
            && (Transcript(heard).Some? ==>
                  s'.messageId == s.messageId + 1
                  && s'.queue == s.queue + [QueuedMessage(if priority then VoiceMessagePriority else ImageMessagePriority,
                                                         s.messageId, Message(VoiceInput, Transcript(heard).value, placeholderId))]
                  && s'.player == (if priority then Playback.SkipCurrentSpec(s.player) else s.player))
  {
  }

  /** The transcript kept from a recognised text, given the content extracted from it. */
  lemma TranscriptOf(heard: string, extracted: Option<string>)
    requires extracted == SpeechTags.ExtractContent(heard)
    ensures Transcript(Some(heard)) ==
              if extracted.None? || |Strip(extracted.value)| < MinTranscriptLength then None else extracted
  {
  }

  /** Noise is dropped: a transcript that is blank, or one character once stripped. */
  lemma NoiseIgnored(s: AppState, heard: string, priority: bool, placeholderId: Option<string>)
    requires SpeechTags.ExtractContent(heard).Some? && |Strip(SpeechTags.ExtractContent(heard).value)| < 2
    ensures TranscribeSpec(s, Some(heard), priority, placeholderId) == s
  {
  }

  /** The webcam path records every non-empty analysis without the 20-entry cap and
      never touches the tracker or the shared context. */
  lemma WebcamAnalysisBypassesTracker(s: AppState, placeholderId: string, analysis: string, reply: Option<string>, now: real)
    requires analysis != []
    ensures var s' := WebcamAnalysisSpec(s, placeholderId, Some(analysis), reply, now);
            |s'.history| == |s.history| + 1
            && s'.history[|s.history|].analysis == analysis
            && s'.tracker == s.tracker && s'.context == s.context
            && (StartsWith(placeholderId, "img_") && placeholderId in s.placeholderMap ==> placeholderId !in s'.placeholderMap)
  {
  }

  /** Every step of the app keeps `Valid`. */
  lemma AddMessagesKeepValid(s: AppState, isPlaceholder: bool, replace: Option<string>, id: Option<string>)
    requires Valid(s)
    ensures Valid(AddAiMessageSpec(s, isPlaceholder, id).0)
    ensures Valid(AddUserMessageSpec(s, isPlaceholder, replace, id).0)
  {
  }

  lemma UpdatePlaceholderKeepsValid(s: AppState, id: string, content: string, reply: Option<string>, now: real)
    requires Valid(s)
    ensures Valid(UpdatePlaceholderSpec(s, id, content, reply, now))
  {
    if id in s.placeholderMap && StartsWith(id, "img_") && reply.Some? {
      Playback.QueueBounded(s.player, reply.value, Playback.DefaultPriority, now, false);
    }
  }

  lemma ImageAnalysisKeepsValid(s: AppState, text: string, reply: Option<string>, now: real)
    requires Valid(s)
    ensures Valid(ProcessImageAnalysisSpec(s, text, reply, now))
  {
    var (num, desc) := Classify.ExtractBehaviorType(text);
    var (t, d) := ObserveSpec(s.tracker, num, now);
    ObserveComplete(s.tracker, num, now);
    var s1 := s.(history := AppendCapped(s.history, Observation(now, num, desc, text)), tracker := t, lastImageAnalysis := text);
    var s2 := AddAiMessageSpec(s1, false, None).0;
    PlainAiMessage(s1);
    assert Valid(s2);
    TurnKeepsContext(s2.context, ObservationPrompt(text, InstructionFor(d, desc)), reply);
    if reply.Some? {
      var ctx := TrimContext(s2.context + [ObservationPrompt(text, InstructionFor(d, desc))]);
      var s3 := AddAiMessageSpec(s2.(context := ctx + [AssistantReply(reply.value)]), false, None).0;
      PlainAiMessage(s2.(context := ctx + [AssistantReply(reply.value)]));
      assert Valid(s3);
      Playback.QueueBounded(s3.player, reply.value, Playback.DefaultPriority, now, false);
    }
  }

  lemma VoiceInputKeepsValid(s: AppState, text: string, reply: Option<string>, now: real)
    requires Valid(s)
    ensures Valid(ProcessVoiceInputSpec(s, text, reply, now))
  {
    var p0 := Playback.SkipCurrentSpec(s.player);
    Playback.QueueBounded(s.player, [], 0, 0.0, false);
    var s1 := AddUserMessageSpec(s.(player := p0.(isPlayingAudio := true)), false, None, None).0;
    assert Valid(s1);
    var filter := BehaviorFilter(text);
    var h := RecoverySpec(s1.history, s1.tracker.counters, filter, now);
    var prompt := VoicePrompt(text, RelevanceFor(h, s1.tracker.counters, filter), Recent(h));
    TurnKeepsContext(s1.context, prompt, reply);
    var ctx := TrimContext(s1.context + [prompt]);
    var s2 := s1.(history := h, context := ctx);
    if reply.Some? {
      var s3 := AddAiMessageSpec(s2.(context := ctx + [AssistantReply(reply.value)]), false, None).0;
      PlainAiMessage(s2.(context := ctx + [AssistantReply(reply.value)]));
      assert Valid(s3);
      Playback.QueueBounded(s3.player, reply.value, Playback.VoiceReplyPriority, now, false);
    } else {
      assert Valid(s2);
    }
  }

  /** Taking any entry out of the queue keeps `Valid`. */
  lemma RemoveKeepsValid(s: AppState, i: nat)
    requires Valid(s) && i < |s.queue|
    ensures Valid(s.(queue := Playback.RemoveAt(s.queue, i)))
  {
    var q := Playback.RemoveAt(s.queue, i);
    assert forall k | 0 <= k < |q| :: q[k] == (if k < i then s.queue[k] else s.queue[k + 1]);
  }

  lemma ProcessNextKeepsValid(s: AppState, reply: Option<string>, now: real)
    requires Valid(s)
    ensures Valid(ProcessNextSpec(s, reply, now).0)
  {
    if s.queue != [] {
      var i := MinMessage(s.queue);
      var s1 := s.(queue := Playback.RemoveAt(s.queue, i));
      RemoveKeepsValid(s, i);
      var m := s.queue[i].message;
      match m.kind
      case ImageAnalysis =>
        if Truthy(m.placeholderId) {
          UpdatePlaceholderKeepsValid(s1, m.placeholderId.value, m.content, reply, now);
        } else {
          ImageAnalysisKeepsValid(s1, m.content, reply, now);
        }
      case VoiceInput =>
        VoiceInputKeepsValid(s1, m.content, reply, now);
    }
  }

  lemma PutKeepsValid(s: AppState, priority: int, m: Message)
    requires Valid(s)
    ensures Valid(Put(s, priority, m))
  {
  }

  lemma AnalyzeImagesKeepsValid(s: AppState, haveUrls: bool, analysis: Option<string>, placeholderId: Option<string>)
    requires Valid(s)
    ensures Valid(AnalyzeImagesSpec(s, haveUrls, analysis, placeholderId))
  {
    if haveUrls && analysis.Some? {
      PutKeepsValid(s, ImageMessagePriority, Message(ImageAnalysis, analysis.value, placeholderId));
    }
  }

  lemma TranscribeKeepsValid(s: AppState, heard: Option<string>, priority: bool, placeholderId: Option<string>)
    requires Valid(s)
    ensures Valid(TranscribeSpec(s, heard, priority, placeholderId))
  {
    var t := Transcript(heard);
    if t.Some? {
      var p := if priority then VoiceMessagePriority else ImageMessagePriority;
      var s1 := Put(s, p, Message(VoiceInput, t.value, placeholderId));
      PutKeepsValid(s, p, Message(VoiceInput, t.value, placeholderId));
      BargeInKeepsValid(s1);
    }
  }

  lemma BargeInKeepsValid(s: AppState)
    requires Valid(s)
    ensures Valid(s.(player := Playback.SkipCurrentSpec(s.player)))
  {
  }

  lemma WebcamAnalysisKeepsValid(s: AppState, placeholderId: string, analysis: Option<string>, reply: Option<string>, now: real)
    requires Valid(s)
    ensures Valid(WebcamAnalysisSpec(s, placeholderId, analysis, reply, now))
  {
    if Truthy(analysis) {
      var (num, desc) := Classify.ExtractBehaviorType(analysis.value);
      UpdatePlaceholderKeepsValid(s.(history := s.history + [Observation(now, num, desc, analysis.value)]), placeholderId, analysis.value, reply, now);
    }
  }

  lemma InitialValid(now: real)
    ensures Valid(InitialApp(now))
  {
  }

  /** Any clock reading a minute or more past the epoch leaves the constructed app with
      the welcome message in row 0, the first timestamp in row 1, and row 2 next. */
  lemma InitialRows(now: real)
    requires now >= TimestampInterval
    ensures InitialApp(now).chatRow == 2 && InitialApp(now).lastTimestamp == now
    ensures InitialApp(now).placeholderMap == map[] && InitialApp(now).queue == []
  {
  }

  /** A timestamp check takes at most one row and touches nothing but the row counter
      and the time of the last timestamp; it keeps the invariant. */
  lemma TimestampKeepsValid(s: AppState, now: real)
    requires Valid(s)
    ensures var s' := CheckTimestampSpec(s, now);
            Valid(s') && s.chatRow <= s'.chatRow <= s.chatRow + 1
            && s' == s.(chatRow := s'.chatRow, lastTimestamp := s'.lastTimestamp)
            && (s'.chatRow == s.chatRow + 1 <==> now - s.lastTimestamp >= TimestampInterval)
  {
  }

  /** Two checks less than a minute apart post at most one timestamp between them. */
  lemma OneTimestampPerMinute(s: AppState, t1: real, t2: real)
    requires t1 <= t2 < t1 + TimestampInterval
    ensures CheckTimestampSpec(CheckTimestampSpec(s, t1), t2).chatRow <= s.chatRow + 1
  {
  }
}
