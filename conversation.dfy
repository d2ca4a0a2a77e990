/** The assistant's conversation memory: the observation history, the chat context
    sent to the chat model, and what a spoken question about past behaviour pulls out
    of them.

    Prompt wording is not modelled; a chat message records which facts it carries
    (the observation and the instruction kind, or the spoken text with the history
    lines chosen for it). */
module Conversation {
  import opened Text
  import opened Tracker
  import Classify

  /** One entry of `observation_history`. */
  datatype Observation = Observation(timestamp: real, behaviorNum: string, behaviorDesc: string, analysis: string)

  const MaxObservations: nat := 20
  /** `chat_context` is trimmed once it is longer than this ... */
  const MaxContext: nat := 20
  /** ... down to the system prompt and this many latest messages. */
  const ContextTail: nat := 19

  /** The instruction `process_image_analysis` attaches to an observation. */
  datatype Instruction =
    | RemindInstruction(reminder: Reminder)
    | EncourageWorkInstruction
    | EncourageWaterInstruction
    | GeneralInstruction(behaviorDesc: string)
      /** The empty instruction of an encouragement for a behaviour other than work or water. */
    | NoInstruction

  /** What a voice question retrieved from the history about one behaviour. */
  datatype Relevance =
    | NotAsked
    | Matches(found: seq<Observation>)
    | InferredFromCounter(behaviorDesc: string)
    | NotFound(behaviorDesc: string)

  datatype ChatMessage =
    | SystemPrompt
    | ObservationPrompt(analysis: string, instruction: Instruction)
    | VoicePrompt(text: string, relevance: Relevance, recent: seq<Observation>)
    | AssistantReply(reply: string)

  /** `process_image_analysis`'s append followed by a single `pop(0)` past 20 entries. */
  function AppendCapped(h: seq<Observation>, o: Observation): (r: seq<Observation>)
    ensures |r| == if |h| + 1 > MaxObservations then |h| else |h| + 1
    ensures r != [] && r[|r| - 1] == o
    ensures r == (h + [o])[|h| + 1 - |r|..]
  {
    var h' := h + [o];
    if |h'| > MaxObservations then h'[1..] else h'
  }

  /** A history of at most 20 entries stays within 20 and keeps the latest ones in order. */
  lemma AppendCappedBounded(h: seq<Observation>, o: Observation)
    requires |h| <= MaxObservations
    ensures |AppendCapped(h, o)| <= MaxObservations
    ensures |h| < MaxObservations ==> AppendCapped(h, o) == h + [o]
    ensures |h| == MaxObservations ==> AppendCapped(h, o) == h[1..] + [o]
  {
    if |h| == MaxObservations {
      assert (h + [o])[1..] == h[1..] + [o];
    }
  }

  /** The trim after a user message: the system prompt and the 19 latest messages. */
  function TrimContext(ctx: seq<ChatMessage>): (r: seq<ChatMessage>)
    ensures |ctx| > MaxContext ==> |r| == MaxContext
    ensures |ctx| <= MaxContext ==> r == ctx
  {
    if |ctx| > MaxContext then [ctx[0]] + ctx[|ctx| - ContextTail..] else ctx
  }

  /** Trimming keeps the first message and the latest ones, in order. */
  lemma TrimContextKeeps(ctx: seq<ChatMessage>)
    requires ctx != []
    ensures var r := TrimContext(ctx);
            r != [] && r[0] == ctx[0] && |r| <= |ctx|
            && r[|r| - 1] == ctx[|ctx| - 1]
            && (forall k | 1 <= k < |r| :: r[k] == ctx[|ctx| - |r| + k])
  {
    var r := TrimContext(ctx);
    if |ctx| > MaxContext {
      var tail := ctx[|ctx| - ContextTail..];
      assert r == [ctx[0]] + tail;
      forall k | 1 <= k < |r| ensures r[k] == ctx[|ctx| - |r| + k] {
        assert r[k] == tail[k - 1];
      }
    }
  }

  /** With the system prompt first and at most 21 messages before a turn, appending the
      user message, trimming and appending the reply keeps both facts. */
  lemma TurnKeepsContext(ctx: seq<ChatMessage>, user: ChatMessage, reply: Option<string>)
    requires ctx != [] && ctx[0] == SystemPrompt && |ctx| <= MaxContext + 1
    ensures var t := TrimContext(ctx + [user]);
            var after := if reply.Some? then t + [AssistantReply(reply.value)] else t;
            after[0] == SystemPrompt && |after| <= MaxContext + 1 && t[|t| - 1] == user
  {
    TrimContextKeeps(ctx + [user]);
  }

  /** The instruction chosen for an observation: a due reminder first, then
      encouragement, then the general one naming the behaviour. */
  function InstructionFor(d: Decision, behaviorDesc: string): (i: Instruction)
    ensures d.reminder.Some? ==> i == RemindInstruction(d.reminder.value)
    ensures d.reminder.None? && !d.encourage ==> i == GeneralInstruction(behaviorDesc)
  {
    if d.reminder.Some? then RemindInstruction(d.reminder.value)
    else if d.encourage then
      if d.behavior == Work then EncourageWorkInstruction
      else if d.behavior == DrinkingWater then EncourageWaterInstruction
      else NoInstruction
    else GeneralInstruction(behaviorDesc)
  }

  /** The tracker encourages only work and water drinking, so an observed decision never
      leaves the instruction empty: praise goes to work or water, a due reminder is
      named, and everything else gets the general instruction. */
  lemma ObservedInstruction(t: TrackerState, num: string, now: real, behaviorDesc: string)
    requires Complete(t)
    ensures var d := ObserveSpec(t, num, now).1;
            var i := InstructionFor(d, behaviorDesc);
            i != NoInstruction
            && (d.reminder.None? && d.encourage && d.behavior == Work ==> i == EncourageWorkInstruction)
            && (d.reminder.None? && d.encourage && d.behavior == DrinkingWater ==> i == EncourageWaterInstruction)
  {
    ObserveEncouragement(t, num, now);
  }

  /** Questions about each behaviour, as phrases the spoken text may contain. */
  const BeverageQuestions: seq<string> := ["有没有喝饮料", "喝饮料了吗", "喝了什么", "喝过饮料"]
  const EatingQuestions: seq<string> := ["有没有吃东西", "吃东西了吗", "吃了什么", "吃过东西"]
  const PhoneQuestions: seq<string> := ["有没有玩手机", "玩手机了吗", "用过手机"]
  const GeneralQuestion: string := "我做了什么"

  predicate MentionsAny(text: string, phrases: seq<string>)
  {
    exists k | 0 <= k < |phrases| :: Contains(text, phrases[k])
  }

  predicate IsAskingAboutBehavior(text: string)
  {
    MentionsAny(text, BeverageQuestions) || MentionsAny(text, EatingQuestions)
    || MentionsAny(text, PhoneQuestions) || Contains(text, GeneralQuestion)
  }

  /** The behaviour code a question is about: drinks first, then eating, then the phone. */
  function BehaviorFilter(text: string): (f: Option<string>)
    ensures f.Some? ==> f.value in ["2", "4", "5"] && IsAskingAboutBehavior(text)
    ensures f.None? <==> !MentionsAny(text, BeverageQuestions) && !MentionsAny(text, EatingQuestions)
                         && !MentionsAny(text, PhoneQuestions)
  {
    if MentionsAny(text, BeverageQuestions) then Some("4")
    else if MentionsAny(text, EatingQuestions) then Some("2")
    else if MentionsAny(text, PhoneQuestions) then Some("5")
    else None
  }

  /** The counter a behaviour code is checked against in `process_voice_input`. */
  function CounterFor(code: string): Behavior
  {
    if code == "2" then Eating
    else if code == "3" then DrinkingWater
    else if code == "4" then DrinkingBeverage
    else if code == "5" then Phone
    else if code == "6" then Sleeping
    else Other
  }

  /** `behavior_map.get(code, fallback)` in `process_voice_input`: the keyword for codes
      1 to 7. */
  function DescOf(code: string, fallback: string): (desc: string)
    ensures (exists t | 0 <= t < 7 :: code == Classify.Codes[t]) ==> desc in Classify.Keywords
  {
    if code == "1" then Classify.Keywords[0]
    else if code == "2" then Classify.Keywords[1]
    else if code == "3" then Classify.Keywords[2]
    else if code == "4" then Classify.Keywords[3]
    else if code == "5" then Classify.Keywords[4]
    else if code == "6" then Classify.Keywords[5]
    else if code == "7" then Classify.Keywords[6]
    else fallback
  }

  /** The recovery step: with a question about a behaviour, an empty history and a
      non-zero counter for it, a synthetic observation five minutes old is added. */
  function RecoverySpec(h: seq<Observation>, counters: map<Behavior, nat>, filter: Option<string>, now: real): seq<Observation>
  {
    if filter.Some? && h == [] && CountOf(counters, CounterFor(filter.value)) > 0 then
      var desc := DescOf(filter.value, "未知行为");
      [Observation(now - 300.0, filter.value, desc, "系统检测到用户在从事" + desc + "活动（从行为计数器恢复的记录）")]
    else h
  }

  /** The observations with a given code, latest first. */
  function Matching(h: seq<Observation>, code: string): (r: seq<Observation>)
    decreases |h|
    ensures |r| <= |h|
    ensures forall k | 0 <= k < |r| :: r[k].behaviorNum == code && r[k] in h
  {
    if h == [] then []
    else
      var last := h[|h| - 1];
      var rest := Matching(h[..|h| - 1], code);
      if last.behaviorNum == code then [last] + rest else rest
  }

  /** `Matching` misses no match, and its first entry is the latest one. */
  lemma {:induction false} MatchingComplete(h: seq<Observation>, code: string)
    decreases |h|
    ensures Matching(h, code) == [] <==> forall k | 0 <= k < |h| :: h[k].behaviorNum != code
    ensures Matching(h, code) != [] ==>
              exists j | 0 <= j < |h| :: Matching(h, code)[0] == h[j] && h[j].behaviorNum == code
                && forall k | j < k < |h| :: h[k].behaviorNum != code
  {
    if h != [] {
      var init := h[..|h| - 1];
      MatchingComplete(init, code);
      if h[|h| - 1].behaviorNum != code && Matching(h, code) != [] {
        var j :| 0 <= j < |init| && Matching(init, code)[0] == init[j] && init[j].behaviorNum == code
                 && forall k | j < k < |init| :: init[k].behaviorNum != code;
        assert h[j] == init[j];
      }
      if Matching(h, code) == [] {
        forall k | 0 <= k < |h| ensures h[k].behaviorNum != code {
          if k < |init| { assert h[k] == init[k]; }
        }
      }
    }
  }

  /** The history lines a question retrieves, or the counter-based fallback. */
  function RelevanceFor(h: seq<Observation>, counters: map<Behavior, nat>, filter: Option<string>): (r: Relevance)
    ensures filter.None? <==> r == NotAsked
  {
    match filter
    case None => NotAsked
    case Some(code) =>
      var found := Matching(h, code);
      if found != [] then Matches(found)
      else if CountOf(counters, CounterFor(code)) > 0 then InferredFromCounter(DescOf(code, "未知"))
      else NotFound(DescOf(code, "未知"))
  }

  /** `reversed(observation_history[-5:])`: up to five latest observations, latest first. */
  function Recent(h: seq<Observation>): (r: seq<Observation>)
    ensures |r| == if |h| < 5 then |h| else 5
    ensures forall k | 0 <= k < |r| :: r[k] == h[|h| - 1 - k]
  {
    var tail := if |h| < 5 then h else h[|h| - 5..];
    seq(|tail|, k requires 0 <= k < |tail| => tail[|tail| - 1 - k])
  }

  /** A question about a behaviour the history holds gets those observations; otherwise a
      non-zero counter yields the inferred line and a zero counter the "not found" line. */
  lemma RelevanceCases(h: seq<Observation>, counters: map<Behavior, nat>, code: string)
    ensures var r := RelevanceFor(h, counters, Some(code));
            ((exists k | 0 <= k < |h| :: h[k].behaviorNum == code) ==> r.Matches? && r.found == Matching(h, code))
            && ((forall k | 0 <= k < |h| :: h[k].behaviorNum != code) ==>
                  (r.InferredFromCounter? <==> CountOf(counters, CounterFor(code)) > 0)
                  && (r.NotFound? <==> CountOf(counters, CounterFor(code)) == 0))
  {
    MatchingComplete(h, code);
  }

  /** Recovery fills only an empty history, with one observation of the asked-about
      behaviour, which the search then finds. */
  lemma RecoveryFindsItself(counters: map<Behavior, nat>, code: string, now: real)
    requires code in ["2", "4", "5"] && CountOf(counters, CounterFor(code)) > 0
    ensures var h := RecoverySpec([], counters, Some(code), now);
            |h| == 1 && h[0].behaviorNum == code && h[0].timestamp == now - 300.0
            && h[0].behaviorDesc in Classify.Keywords
            && RelevanceFor(h, counters, Some(code)) == Matches(h)
  {
    var h := RecoverySpec([], counters, Some(code), now);
    assert h[..0] == [];
    assert code == Classify.Codes[1] || code == Classify.Codes[3] || code == Classify.Codes[4];
  }

  /** Recovery leaves a non-empty history, and a statement that asks nothing, alone. */
  lemma RecoveryOnlyWhenEmpty(h: seq<Observation>, counters: map<Behavior, nat>, filter: Option<string>, now: real)
    requires h != [] || filter.None?
    ensures RecoverySpec(h, counters, filter, now) == h
  {
  }
}
