/** The assistant application object: its fields, and its handlers as methods that
    update them in place, each proved to take the step its specification in
    `Assistant` describes and to keep `Assistant.Valid`. */
module AssistantApp {
  import opened Text
  import Classify
  import SpeechTags
  import opened Tracker
  import opened Conversation
  import Playback
  import opened Assistant

  class MultimediaAssistantApp {
    var messageId: nat
    var placeholderMap: map<string, nat>
    var chatRow: nat
    var messageQueue: seq<QueuedMessage>
    var observationHistory: seq<Observation>
    var chatContext: seq<ChatMessage>
    var behaviorCounters: map<Behavior, nat>
    var lastBehavior: Option<Behavior>
    var continuousBehaviorTime: real
    var sittingStartTime: real
    var lastReminderTime: map<Cooldown, real>
    var lastImageAnalysis: string
    var lastTimestamp: real
    const player: Playback.AudioPlayer

    function TrackerOf(): TrackerState
      reads this
    {
      TrackerState(behaviorCounters, lastBehavior, continuousBehaviorTime, sittingStartTime, lastReminderTime)
    }

    function State(): AppState
      reads this, player
    {
      AppState(messageId, placeholderMap, chatRow, messageQueue, observationHistory, chatContext,
               TrackerOf(), lastImageAnalysis, player.State(), lastTimestamp)
    }

    /** The app as constructed at time `now`, after its welcome message. */
    constructor (now: real)
      ensures fresh(player)
      ensures State() == InitialApp(now) && Valid(State())
    {
      messageId := 0;
      placeholderMap := map[];
      chatRow := 0;
      messageQueue := [];
      observationHistory := [];
      chatContext := [SystemPrompt];
      var t := InitialTracker(now);
      behaviorCounters := t.counters;
      lastBehavior := None;
      continuousBehaviorTime := 0.0;
      sittingStartTime := now;
      lastReminderTime := t.lastReminderTime;
      lastImageAnalysis := "";
      lastTimestamp := 0.0;
      player := new Playback.AudioPlayer();
      new;
      chatRow := chatRow + 1;
      CheckTimestamp(now);
      InitialValid(now);
    }

    /** `check_timestamp`; its rescheduling every 5 s is the caller's. */
    method CheckTimestamp(now: real)
      modifies this
      ensures State() == CheckTimestampSpec(old(State()), now)
    {
      if now - lastTimestamp >= TimestampInterval {
        chatRow := chatRow + 1;
        lastTimestamp := now;
      }
    }

    method AddAiMessage(isPlaceholder: bool, id: Option<string>) returns (r: Option<string>)
      modifies this
      ensures (State(), r) == AddAiMessageSpec(old(State()), isPlaceholder, id)
    {
      var key := if id.Some? then id.value else [];
      if isPlaceholder && !Truthy(id) {
        key := "ai_" + NatToString(messageId);
        messageId := messageId + 1;
      }
      if isPlaceholder {
        placeholderMap := placeholderMap[key := chatRow];
      }
      chatRow := chatRow + 1;
      r := if isPlaceholder then Some(key) else None;
    }

    method AddUserMessage(isPlaceholder: bool, replace: Option<string>, id: Option<string>) returns (r: Option<string>)
      modifies this
      ensures (State(), r) == AddUserMessageSpec(old(State()), isPlaceholder, replace, id)
    {
      if Truthy(replace) && replace.value in placeholderMap {
        placeholderMap := placeholderMap - {replace.value};
      }
      var key := if id.Some? then id.value else [];
      if isPlaceholder && !Truthy(id) {
        key := "user_" + NatToString(messageId);
        messageId := messageId + 1;
      }
      if isPlaceholder {
        placeholderMap := placeholderMap[key := chatRow];
      }
      chatRow := chatRow + 1;
      r := if isPlaceholder then Some(key) else None;
    }

    method UpdatePlaceholder(id: string, content: string, reply: Option<string>, now: real)
      requires Valid(State())
      modifies this, player
      ensures State() == UpdatePlaceholderSpec(old(State()), id, content, reply, now)
      ensures Valid(State())
    {
      ghost var s0 := State();
      UpdatePlaceholderKeepsValid(s0, id, content, reply, now);
      if id in placeholderMap && StartsWith(id, "img_") {
        lastImageAnalysis := content;
        if reply.Some? {
          var _ := AddAiMessage(false, None);
          player.PlayText(reply.value, Playback.DefaultPriority, now);
        }
        placeholderMap := placeholderMap - {id};
      }
    }

    /** The tracking steps of `process_image_analysis`, field by field. */
    method TrackBehavior(num: string, now: real) returns (d: Decision)
      requires Complete(TrackerOf())
      modifies this
      ensures (TrackerOf(), d) == ObserveSpec(old(TrackerOf()), num, now)
      ensures messageId == old(messageId) && placeholderMap == old(placeholderMap) && chatRow == old(chatRow)
      ensures messageQueue == old(messageQueue) && observationHistory == old(observationHistory)
      ensures chatContext == old(chatContext) && lastImageAnalysis == old(lastImageAnalysis)
      ensures lastTimestamp == old(lastTimestamp)
    {
      var b := BehaviorOf(num);
      var duration := Advance(b, now);
      var sittingDuration := if sittingStartTime > 0.0 then now - sittingStartTime else 0.0;
      var reminder := StampReminder(b, sittingDuration, now);
      var encourage := false;
      if (b == Work && duration > WorkPraiseAfter)
         || (b == DrinkingWater && now - lastReminderTime[EncouragementCooldown] > ReminderInterval) {
        encourage := true;
        lastReminderTime := lastReminderTime[EncouragementCooldown := now];
      }
      d := Decision(b, duration, sittingDuration, reminder, encourage);
    }

    /** The counter, the run timer and the sitting timer. */
    method Advance(b: Behavior, now: real) returns (duration: real)
      requires Complete(TrackerOf())
      modifies this
      ensures (TrackerOf(), duration) == AdvanceSpec(old(TrackerOf()), b, now)
      ensures messageId == old(messageId) && placeholderMap == old(placeholderMap) && chatRow == old(chatRow)
      ensures messageQueue == old(messageQueue) && observationHistory == old(observationHistory)
      ensures chatContext == old(chatContext) && lastImageAnalysis == old(lastImageAnalysis)
      ensures lastTimestamp == old(lastTimestamp)
    {
      behaviorCounters := behaviorCounters[b := behaviorCounters[b] + 1];
      if lastBehavior == Some(b) {
        duration := now - continuousBehaviorTime;
      } else {
        continuousBehaviorTime := now;
        duration := 0.0;
      }
      lastBehavior := Some(b);
      if b != Other {
        if sittingStartTime == 0.0 {
          sittingStartTime := now;
        }
      } else {
        sittingStartTime := 0.0;
      }
    }

    /** The reminder chain: the first due reminder is chosen and its time stamped. */
    method StampReminder(b: Behavior, sittingDuration: real, now: real) returns (reminder: Option<Reminder>)
      requires Complete(TrackerOf())
      modifies this
      ensures reminder == ChooseReminder(old(TrackerOf()), b, sittingDuration, now)
      ensures TrackerOf() == old(TrackerOf()).(lastReminderTime :=
                if reminder.Some? then old(lastReminderTime)[CooldownOf(reminder.value) := now] else old(lastReminderTime))
      ensures messageId == old(messageId) && placeholderMap == old(placeholderMap) && chatRow == old(chatRow)
      ensures messageQueue == old(messageQueue) && observationHistory == old(observationHistory)
      ensures chatContext == old(chatContext) && lastImageAnalysis == old(lastImageAnalysis)
      ensures lastTimestamp == old(lastTimestamp)
    {
      reminder := None;
      if b == Eating && behaviorCounters[Eating] >= EatingThreshold
         && now - lastReminderTime[EatingCooldown] > ReminderInterval {
        reminder := Some(EatingReminder);
      } else if b == DrinkingBeverage && behaviorCounters[DrinkingBeverage] >= BeverageThreshold
                && now - lastReminderTime[BeverageCooldown] > ReminderInterval {
        reminder := Some(BeverageReminder);
      } else if b == Phone && behaviorCounters[Phone] >= PhoneThreshold
                && now - lastReminderTime[PhoneCooldown] > ReminderInterval {
        reminder := Some(PhoneReminder);
      } else if sittingDuration > SittingThreshold && now - lastReminderTime[SittingCooldown] > ReminderInterval {
        reminder := Some(SittingReminder);
      }
      if reminder.Some? {
        lastReminderTime := lastReminderTime[CooldownOf(reminder.value) := now];
      }
    }

    method ProcessImageAnalysis(text: string, reply: Option<string>, now: real)
      requires Valid(State())
      modifies this, player
      ensures State() == ProcessImageAnalysisSpec(old(State()), text, reply, now)
      ensures Valid(State())
    {
      ghost var s0 := State();
      ImageAnalysisKeepsValid(s0, text, reply, now);
      var (num, desc) := Classify.ExtractBehaviorType(text);
      observationHistory := AppendCapped(observationHistory, Observation(now, num, desc, text));
      var d := TrackBehavior(num, now);
      lastImageAnalysis := text;
      var _ := AddAiMessage(false, None);
      chatContext := TrimContext(chatContext + [ObservationPrompt(text, InstructionFor(d, desc))]);
      if reply.Some? {
        chatContext := chatContext + [AssistantReply(reply.value)];
        var _ := AddAiMessage(false, None);
        if d.reminder.Some? || d.encourage {
          player.PlayText(reply.value, Playback.DefaultPriority, now);
        }
      }
    }

    /** The reversed scan of the history for observations with the asked-about code. */
    static method FindRelevant(h: seq<Observation>, code: string) returns (found: seq<Observation>)
      ensures found == Matching(h, code)
    {
      found := [];
      var i := |h|;
      assert h[..i] == h;
      while i > 0
        invariant 0 <= i <= |h|
        invariant found + Matching(h[..i], code) == Matching(h, code)
      {
        var obs := h[i - 1];
        assert h[..i][..i - 1] == h[..i - 1];
        if obs.behaviorNum == code {
          found := found + [obs];
        }
        i := i - 1;
      }
      assert h[..0] == [];
    }

    /** The reversed walk over the last five observations. */
    static method RecentObservations(h: seq<Observation>) returns (r: seq<Observation>)
      ensures r == Recent(h)
    {
      var tail := if |h| < 5 then h else h[|h| - 5..];
      r := [];
      var k := |tail|;
      while k > 0
        invariant 0 <= k <= |tail| && |r| == |tail| - k
        invariant forall j | 0 <= j < |r| :: r[j] == tail[|tail| - 1 - j]
      {
        r := r + [tail[k - 1]];
        k := k - 1;
      }
    }

    /** The recovery step: an empty history is given one observation restored from
        the counter of the behaviour asked about. */
    method RecoverHistory(filter: Option<string>, now: real)
      modifies this
      ensures State() == old(State()).(history := RecoverySpec(old(observationHistory), behaviorCounters, filter, now))
    {
      if filter.Some? && |observationHistory| == 0 && CountOf(behaviorCounters, CounterFor(filter.value)) > 0 {
        var desc := DescOf(filter.value, "未知行为");
        observationHistory := observationHistory
          + [Observation(now - 300.0, filter.value, desc, "系统检测到用户在从事" + desc + "活动（从行为计数器恢复的记录）")];
      }
    }

    /** The history lines about the behaviour asked for, or the counter-based fallback. */
    static method Relevant(h: seq<Observation>, counters: map<Behavior, nat>, filter: Option<string>) returns (relevance: Relevance)
      ensures relevance == RelevanceFor(h, counters, filter)
    {
      relevance := NotAsked;
      if filter.Some? {
        var found := FindRelevant(h, filter.value);
        if found != [] {
          relevance := Matches(found);
        } else if CountOf(counters, CounterFor(filter.value)) > 0 {
          relevance := InferredFromCounter(DescOf(filter.value, "未知"));
        } else {
          relevance := NotFound(DescOf(filter.value, "未知"));
        }
      }
    }

    method ProcessVoiceInput(text: string, reply: Option<string>, now: real)
      requires Valid(State())
      modifies this, player
      ensures State() == ProcessVoiceInputSpec(old(State()), text, reply, now)
      ensures Valid(State())
    {
      ghost var s0 := State();
      VoiceInputKeepsValid(s0, text, reply, now);
      player.SkipCurrent();
      var was := player.isPlayingAudio;
      player.isPlayingAudio := true;
      var _ := AddUserMessage(false, None, None);
      ghost var s1 := State();
      var filter := BehaviorFilter(text);
      RecoverHistory(filter, now);
      var relevance := Relevant(observationHistory, behaviorCounters, filter);
      var recent := RecentObservations(observationHistory);
      chatContext := TrimContext(chatContext + [VoicePrompt(text, relevance, recent)]);
      ghost var s2 := State();
      assert s2 == s1.(history := RecoverySpec(s1.history, s1.tracker.counters, filter, now),
                       context := TrimContext(s1.context + [VoicePrompt(text, RelevanceFor(s2.history, s1.tracker.counters, filter), Recent(s2.history))]));
      if reply.Some? {
        chatContext := chatContext + [AssistantReply(reply.value)];
        var _ := AddAiMessage(false, None);
        player.PlayText(reply.value, Playback.VoiceReplyPriority, now);
      } else {
        player.isPlayingAudio := was;
      }
    }

    method HandleMessage(m: Message, reply: Option<string>, now: real)
      requires Valid(State())
      modifies this, player
      ensures State() == HandleMessageSpec(old(State()), m, reply, now)
      ensures Valid(State())
    {
      match m.kind
      case ImageAnalysis =>
        if Truthy(m.placeholderId) {
          UpdatePlaceholder(m.placeholderId.value, m.content, reply, now);
        } else {
          ProcessImageAnalysis(m.content, reply, now);
        }
      case VoiceInput =>
        ProcessVoiceInput(m.content, reply, now);
    }

    /** One turn of the message loop. */
    method ProcessNextMessage(reply: Option<string>, now: real) returns (handled: Option<QueuedMessage>)
      requires Valid(State())
      modifies this, player
      ensures (State(), handled) == ProcessNextSpec(old(State()), reply, now)
      ensures Valid(State())
    {
      if messageQueue == [] {
        handled := None;
        return;
      }
      var i := MinMessage(messageQueue);
      handled := Some(messageQueue[i]);
      RemoveKeepsValid(State(), i);
      messageQueue := Playback.RemoveAt(messageQueue, i);
      HandleMessage(handled.value.message, reply, now);
    }

    method AnalyzeImages(haveUrls: bool, analysis: Option<string>, placeholderId: Option<string>)
      requires Valid(State())
      modifies this
      ensures State() == AnalyzeImagesSpec(old(State()), haveUrls, analysis, placeholderId)
      ensures Valid(State())
    {
      AnalyzeImagesKeepsValid(State(), haveUrls, analysis, placeholderId);
      if !haveUrls {
        return;
      }
      if analysis.Some? {
        messageQueue := messageQueue + [QueuedMessage(ImageMessagePriority, messageId, Message(ImageAnalysis, analysis.value, placeholderId))];
        messageId := messageId + 1;
      }
    }

    method TranscribeAudio(heard: Option<string>, priority: bool, placeholderId: Option<string>)
      requires Valid(State())
      modifies this, player
      ensures State() == TranscribeSpec(old(State()), heard, priority, placeholderId)
      ensures Valid(State())
    {
      TranscribeKeepsValid(State(), heard, priority, placeholderId);
      var kept: Option<string> := None;
      if heard.Some? {
        var extracted := SpeechTags.ExtractLanguageEmotionContent(heard.value);
        TranscriptOf(heard.value, extracted);
        if extracted.Some? && |Strip(extracted.value)| >= MinTranscriptLength {
          kept := extracted;
        }
      }
      QueueTranscript(kept, priority, placeholderId);
    }

    method QueueTranscript(kept: Option<string>, priority: bool, placeholderId: Option<string>)
      modifies this, player
      ensures State() == QueueTranscriptSpec(old(State()), kept, priority, placeholderId)
    {
      if kept.None? {
        return;
      }
      var level := if priority then VoiceMessagePriority else ImageMessagePriority;
      messageQueue := messageQueue + [QueuedMessage(level, messageId, Message(VoiceInput, kept.value, placeholderId))];
      messageId := messageId + 1;
      if priority {
        player.SkipCurrent();
      }
    }

    /** The app's part of the webcam handler's analysis thread. */
    method ReceiveWebcamAnalysis(placeholderId: string, analysis: Option<string>, reply: Option<string>, now: real)
      requires Valid(State())
      modifies this, player
      ensures State() == WebcamAnalysisSpec(old(State()), placeholderId, analysis, reply, now)
      ensures Valid(State())
    {
      WebcamAnalysisKeepsValid(State(), placeholderId, analysis, reply, now);
      if !Truthy(analysis) {
        return;
      }
      var (num, desc) := Classify.ExtractBehaviorType(analysis.value);
      observationHistory := observationHistory + [Observation(now, num, desc, analysis.value)];
      UpdatePlaceholder(placeholderId, analysis.value, reply, now);
    }
  }
}
