# Learn-pal-Mind multimodal assistant — a Dafny model

Learn-pal-Mind watches a user through a webcam, classifies what they are doing, keeps
count of their behaviour, and talks to them: it reminds them about snacks, sugary
drinks, phones and long sitting, praises long work and water drinking, and answers
spoken questions about what they did. `Deepseek-with-camera/dscamera.py` is the
assistant. `Deepseek-with-camera/diagram.py` is a companion behaviour visualiser that
shares the classifier and the capture cycle.

The model covers the decision and bookkeeping core of both programs.

- `Text` holds the Python string primitives the core relies on: `find` with negative
  starts, `strip`, substring tests, `int()` truncation and `str()` of an integer.
- `Classify` models `extract_behavior_type`. It maps analysis text to a code and one of
  seven descriptions, or to `("0", "未识别")`. The numbered regular expression is
  modelled literally as a leftmost search. The fallback scans the keywords in order.
  The function is identical in both programs.
- `SpeechTags` models `extract_language_emotion_content`, which pulls the utterance out
  of a SenseVoice transcription. Its tag-stripping `while` loop never ends on a
  leading `<|` that has no `>` after it. The model returns `None` for that input. It
  also defines, apart from the loop, the indices where the loop's rounds start, and
  proves that the loop hangs exactly when one of those rounds starts at such a tag.
- `Vad` models the voice activity detector as a class. It covers the energy threshold
  (fixed, raised to 2.5 times the mean background level), calibration, one pass of the
  monitoring loop, and the handoff of an utterance. Self-playback suppresses speech.
- `Playback` models the speech player as a class. Requests sit in a priority queue
  of at most one entry, ordered by Python tuple order. Priority 1 (the answer to a
  voice question) purges the queue. Requests that are not priority 1 go stale after
  10 s. Barge-in (skipping the current clip) releases the microphone gate
  `is_playing_audio`.
- `Capture` models the webcam capture cycle as a class, for both programs. The
  `running`, `analysis_running`, `paused` and `processing` flags gate each trigger, and
  timers are returned as scheduled calls. Over any interleaving of callbacks, at most
  one analysis is ever in flight.
- `Tracker` models the behaviour tracker in `process_image_analysis`. It covers the
  counters, the continuous-behaviour timer, the sitting timer, the if/elif reminder
  chain with one cooldown per kind, and encouragement.
- `Conversation` models the observation history (capped at 20) and the chat context
  (the system prompt plus the 19 latest messages). It also models what a spoken
  question pulls out of the history:
  - which behaviour is asked about;
  - recovery of a record from the counters when the history is empty;
  - the matching records, latest first, or a fallback based on the counters;
  - the five latest observations.
- `Assistant` holds the whole application state as a value and one function per
  handler. It also holds `Valid`, the invariant every handler keeps:
  - queued ids are fresh and increasing;
  - each placeholder has its own chat row;
  - the context starts with the system prompt and is bounded;
  - the tracker is complete;
  - the speech queue holds at most one request.

  The handlers are the chat row and placeholder bookkeeping, the minute timestamp rows
  of `check_timestamp` (the constructor runs it once, so the first messages go to row
  2), `update_placeholder`,
  `process_image_analysis`, `process_voice_input`, `handle_message`, one turn of
  `process_message_queue`, `analyze_images` and `transcribe_audio`.
  `AssistantApp.MultimediaAssistantApp` is the application object. Its fields mirror
  the program's, and each method is proved to produce exactly the new state that its
  handler function describes.
- `Visualizer` models the visualiser's sample history (capped at 100), the per-code
  counts that truncation never lowers, the pie chart data, and the visualiser app's own
  capped observation history.

The outside world enters as parameters:
- clock readings are `now`;
- the replies of the chat model, the vision model's analysis and the speech
  recogniser's text are `Option` values (`None` when the call raised or returned
  nothing);
- whether the camera opened and what a capture produced are small enumerations;
- speech synthesis success is a boolean;
- the end of playback is its own step.

Two observations about the code are kept in the model as written:

- **The webcam path bypasses the tracker.** The webcam handler always posts an `img_`
  placeholder (`dscamera.py:946-951`). When the analysis comes back, it appends an
  observation without the 20-entry cap and hands the placeholder to
  `update_placeholder` (`dscamera.py:1013-1023`). That path asks the chat model about
  the analysis alone. It never touches the counters, the reminders or the shared chat
  context. Only a queued `image_analysis` message without a placeholder reaches
  `process_image_analysis`. Such messages are produced only by `analyze_images`, which
  the capture cycle does not call. `Assistant.WebcamAnalysisBypassesTracker` states
  this.
- **How encouragement is grouped.** The comment above the encouragement rule
  (`dscamera.py:2568-2571`) lists the cooldown as a condition for praise in general.
  The condition at `dscamera.py:2576-2578` parses as `work > 10 min or (water and
  cooldown over)`. The model follows the code: `Tracker.ObserveEncouragement` states
  the condition and `Tracker.WorkPraiseIgnoresCooldown` its consequence. A long work
  run is praised at every observation.

## Model

| member | source | states |
|---|---|---|
| Text.FindChar | Deepseek-with-camera/dscamera.py:86-96 | `str.find(c, start)`: -1 exactly when `c` does not occur from the normalised start on (a negative start counts from the end), otherwise the first such index |
| Text.StripEmptyIffBlank | Deepseek-with-camera/dscamera.py:1223 | `text.strip()` is empty exactly when every character is whitespace |
| Text.Truncate | Deepseek-with-camera/dscamera.py:948 | `int()` of a time truncates toward zero: within one of `x`, on the side of zero |
| Text.IntToString | Deepseek-with-camera/dscamera.py:948 | `str()` of a non-negative int is a decimal numeral without leading zeros whose value is the int; a negative int gets a `-` before the numeral of its magnitude |
| Text.NatToStringValue | Deepseek-with-camera/dscamera.py:2726 | the digits of a message id spell the id in base 10, without leading zeros |
| Classify.NumberedMatchAt | Deepseek-with-camera/dscamera.py:109 | the numbered pattern tried at one position yields a non-empty digit run and one of the seven keywords, which occurs in the text |
| Classify.NumberedSearch | Deepseek-with-camera/dscamera.py:109-115 | `re.search` finds nothing exactly when no position matches, and otherwise returns the match at the leftmost matching position |
| Classify.KeywordScanResult | Deepseek-with-camera/dscamera.py:118-132 | the fallback scan returns the unclassified pair or a (code, keyword) pair of the table |
| Classify.KeywordScanInVocabulary | Deepseek-with-camera/dscamera.py:118-132 | the fallback scan never leaves the table or the unclassified pair |
| Classify.KeywordScanNoneIff | Deepseek-with-camera/dscamera.py:128-132 | the scan falls through to the unclassified pair exactly when no keyword occurs |
| Classify.KeywordScanFirstHit | Deepseek-with-camera/dscamera.py:128-130 | when a keyword occurs, the scan returns the first one in table order that occurs |
| Classify.NumberedClassified | Deepseek-with-camera/dscamera.py:110-115 | a numbered match returns a keyword that occurs in the text, so the result is never the unclassified pair |
| Classify.ExtractBehaviorType | Deepseek-with-camera/dscamera.py:106-132 | the result is `("0", "未识别")` or carries one of the seven descriptions |
| Classify.ExtractUnclassifiedIff | Deepseek-with-camera/dscamera.py:106-132 | the classifier returns `("0", "未识别")` exactly when none of the seven keywords occurs in the text |
| Classify.ExtractNumbered | Deepseek-with-camera/dscamera.py:109-115 | a numbered match yields its digit string and a keyword that occurs in the text |
| Classify.ExtractFirstKeyword | Deepseek-with-camera/dscamera.py:117-130 | without a numbered match, the first keyword in the order 1..7 that occurs decides the code and description |
| SpeechTags.ContentStart | Deepseek-with-camera/dscamera.py:86-96 | the content starts one past the `>` after the emotion field, within the text |
| SpeechTags.StripTags | Deepseek-with-camera/dscamera.py:100-102 | when the loop ends, what remains is a suffix of the content that does not start with `<|` |
| SpeechTags.CleanContent | Deepseek-with-camera/dscamera.py:100-104 | the cleaned content is no longer than the content |
| SpeechTags.ExtractLanguageEmotionContent | Deepseek-with-camera/dscamera.py:83-104 | the loop on the reassigned local computes `ExtractContent`, a result no longer than the input |
| SpeechTags.StripTagsUntagged | Deepseek-with-camera/dscamera.py:100 | content without a leading `<|` is left as it is |
| SpeechTags.ReachedRoundAgrees | Deepseek-with-camera/dscamera.py:100-102 | every round the loop reaches (by `Reaches`, which follows the `find` steps over indices) leads to the same outcome as the whole content |
| SpeechTags.HangReachesStuck | Deepseek-with-camera/dscamera.py:100-102 | from a reached round whose outcome is a hang, the loop reaches a round that starts at a `<|` with no `>` after it |
| SpeechTags.StepAgrees | Deepseek-with-camera/dscamera.py:101-102 | one `content = content[end_tag:]` step leaves the loop's outcome unchanged |
| SpeechTags.StripTagsHangs | Deepseek-with-camera/dscamera.py:100-102 | the loop fails to end exactly when one of the rounds it reaches starts at a `<|` with no `>` from index 2 on |
| SpeechTags.ContentAfterHeader | Deepseek-with-camera/dscamera.py:86-97 | after a well-formed `<|lang|><|emotion|>` header, the content starts right behind it |
| SpeechTags.LanguageFinds | Deepseek-with-camera/dscamera.py:86-87 | on a well-formed header, the `find` calls locate the language field's bars |
| SpeechTags.EmotionFinds | Deepseek-with-camera/dscamera.py:91-96 | on a well-formed header, the `find` calls locate the emotion field's bars and the closing `>` |
| SpeechTags.CleanContentCases | Deepseek-with-camera/dscamera.py:100-104 | a stuck tag hangs the extraction, untagged content is only stripped, and a hang happens exactly when a round the loop reaches starts at a stuck tag |
| Vad.Threshold | Deepseek-with-camera/dscamera.py:464-470 | the effective threshold is never below the fixed one |
| Vad.VoiceActivityDetector.constructor | Deepseek-with-camera/dscamera.py:309-366 | a new detector is stopped and calibrating, with threshold 80 and nothing recorded |
| Vad.VoiceActivityDetector.StartMonitoring | Deepseek-with-camera/dscamera.py:368-378 | monitoring starts, the detector state is unchanged |
| Vad.VoiceActivityDetector.StopMonitoring | Deepseek-with-camera/dscamera.py:380-382 | monitoring stops, the detector state is unchanged |
| Vad.VoiceActivityDetector.IsSpeech | Deepseek-with-camera/dscamera.py:431-489 | `_is_speech` on the fields computes `IsSpeechSpec` |
| Vad.VoiceActivityDetector.CalibrateBegin | Deepseek-with-camera/dscamera.py:524-529 | calibration starts with an empty noise record, and its start time is recorded |
| Vad.VoiceActivityDetector.CalibrateFinish | Deepseek-with-camera/dscamera.py:543-555 | the end of calibration on the fields computes `CalibrateFinishSpec` |
| Vad.VoiceActivityDetector.ProcessSpeech | Deepseek-with-camera/dscamera.py:710-752 | `_process_speech` on the fields computes `ProcessSpeechSpec`, including the frames handed on |
| Vad.VoiceActivityDetector.MonitorStep | Deepseek-with-camera/dscamera.py:603-661 | one loop pass on the fields computes `MonitorStepSpec` |
| Vad.PlaybackSuppressesSpeech | Deepseek-with-camera/dscamera.py:437-445 | while audio plays, no chunk is speech and nothing changes |
| Vad.CalibratingRecordsNoise | Deepseek-with-camera/dscamera.py:456-458 | during calibration a chunk is never speech and its energy joins the noise record, nothing else changing |
| Vad.SpeechDecision | Deepseek-with-camera/dscamera.py:464-489 | outside calibration, a chunk is speech exactly when its energy beats the fixed threshold and 2.5 times the noise mean when noise is recorded |
| Vad.DynamicThresholdExample | Deepseek-with-camera/dscamera.py:466-470 | noise 40, 50, 60 over a threshold of 100 give 125; energy 130 is speech and 125 is not |
| Vad.CalibrationOutcome | Deepseek-with-camera/dscamera.py:543-555 | calibration ends; with samples the threshold is the larger of 100 and 2.5 times their mean, without samples it is kept |
| Vad.MonitorCalibrationKeepsThreshold | Deepseek-with-camera/dscamera.py:524-555 | calibration run on the monitoring thread records no sample, so the initial threshold of 80 stays |
| Vad.ProcessSpeechOutcome | Deepseek-with-camera/dscamera.py:710-752 | the utterance always ends; its frames are handed on exactly when it held frames, was in progress and lasted more than 0.5 s |
| Vad.MonitorStepValid | Deepseek-with-camera/dscamera.py:624-661 | a loop pass keeps "speaking iff holding frames" and "silence timer only while speaking" |
| Vad.NoiseWindow | Deepseek-with-camera/dscamera.py:614-620 | the noise record grows only between utterances, by the current energy, and never past 100 through the loop |
| Vad.MonitorHandoff | Deepseek-with-camera/dscamera.py:624-661 | a handoff carries the utterance plus the current chunk, only after more than 0.5 s, and leaves the detector idle |
| Vad.PlaybackKeepsIdle | Deepseek-with-camera/dscamera.py:437-445 | during playback an idle detector stays idle and hands nothing on |
| Vad.SilenceClosesUtterance | Deepseek-with-camera/dscamera.py:648-661 | more than 0.8 s of quiet closes an utterance of more than 0.5 s and hands it on |
| Vad.LongSpeechIsCut | Deepseek-with-camera/dscamera.py:641-646 | speech running past 30 s is cut and handed on at the next loud chunk |
| Vad.SpeechOnset | Deepseek-with-camera/dscamera.py:624-646 | an idle detector outside calibration, with no audio playing, starts an utterance on a loud chunk: speaking, started now, no silence timed, the chunk as its only frame, nothing handed on |
| Vad.SpeakingAppends | Deepseek-with-camera/dscamera.py:624-661 | inside an utterance every chunk joins the frames unless the utterance closes (then the frames are empty); a loud chunk stops the silence timer and a quiet one starts it if it was not running |
| Playback.RequestOrder | Deepseek-with-camera/dscamera.py:1247 | tuple order on `(priority, timestamp, text)` is a strict total order |
| Playback.MinIndex | Deepseek-with-camera/dscamera.py:1196 | `get()` takes out an entry no other entry precedes |
| Playback.AudioPlayer.constructor | Deepseek-with-camera/dscamera.py:1157-1177 | a new player has an empty queue and every flag clear |
| Playback.AudioPlayer.Get | Deepseek-with-camera/dscamera.py:1196 | taking out an entry removes the least one and nothing else |
| Playback.AudioPlayer.CleanQueue | Deepseek-with-camera/dscamera.py:1249-1274 | both purge loops leave the size-1 queue empty and the flags alone |
| Playback.AudioPlayer.PlayText | Deepseek-with-camera/dscamera.py:1219-1247 | `play_text` on the fields computes `PlayTextSpec` |
| Playback.AudioPlayer.Consume | Deepseek-with-camera/dscamera.py:1191-1212 | one consumer pass on the fields computes `ConsumeSpec` |
| Playback.AudioPlayer.PlaybackEnded | Deepseek-with-camera/dscamera.py:1443-1445 | the end of a clip clears `playing` and the microphone gate |
| Playback.AudioPlayer.SkipCurrent | Deepseek-with-camera/dscamera.py:1455-1464 | `skip_current` on the fields computes `SkipCurrentSpec` |
| Playback.AudioPlayer.Stop | Deepseek-with-camera/dscamera.py:1466-1478 | `stop` skips, stops the consumer and empties the queue |
| Playback.BlankTextIgnored | Deepseek-with-camera/dscamera.py:1223-1225 | empty or whitespace-only text changes nothing |
| Playback.PlayTextReplacesPending | Deepseek-with-camera/dscamera.py:1231-1247 | any other text replaces whatever was pending, so the queue holds exactly the new request, and the consumer runs |
| Playback.QueueBounded | Deepseek-with-camera/dscamera.py:1177 | no player operation grows the queue past one entry; `stop` empties it |
| Playback.PendingHasConsumer | Deepseek-with-camera/dscamera.py:1179-1247 | every player operation keeps "a queued request means the consumer is running", so the consumer loop's `tts_running` guard always holds when there is work; `stop` leaves no queue and no consumer |
| Playback.ConsumeTakesLeast | Deepseek-with-camera/dscamera.py:1193-1212 | the consumer waits exactly while nothing is queued or a clip plays; otherwise it removes a least request and speaks only a fresh or priority-1 one |
| Playback.StaleRequestDropped | Deepseek-with-camera/dscamera.py:1200-1205 | a request other than priority 1 that waited more than 10 s is dropped unspoken; a priority-1 request never is |
| Playback.SkipReleasesGate | Deepseek-with-camera/dscamera.py:1455-1472 | barge-in acts only on a playing clip and releases the gate; `stop` leaves no consumer and no queue |
| Capture.After | Deepseek-with-camera/dscamera.py:865 | `app.after(ms, f)` schedules `f` with that delay, no earlier than now |
| Capture.PlaceholderId | Deepseek-with-camera/dscamera.py:948 | a capture's placeholder id starts with `img_` |
| Capture.WebcamHandler.constructor | Deepseek-with-camera/dscamera.py:826-837 | a new handler has every gate flag clear |
| Capture.WebcamHandler.Start | Deepseek-with-camera/dscamera.py:842-871 | `start` on the flags computes `StartSpec` |
| Capture.WebcamHandler.Stop | Deepseek-with-camera/dscamera.py:883-886 | `stop` clears `running` and `analysis_running` |
| Capture.WebcamHandler.TriggerNextCapture | Deepseek-with-camera/dscamera.py:927-931 | a trigger on the flags computes `TriggerSpec` |
| Capture.WebcamHandler.CaptureAndAnalyze | Deepseek-with-camera/dscamera.py:933-975 | a capture on the flags computes `CaptureSpec` |
| Capture.WebcamHandler.FinishAnalysis | Deepseek-with-camera/dscamera.py:1034-1038 | the analysis thread's `finally` clears `processing` and re-arms |
| Capture.WebcamHandler.TogglePause | Deepseek-with-camera/dscamera.py:1075-1084 | `toggle_pause` on the flags computes `ToggleSpec` |
| Capture.StartOutcome | Deepseek-with-camera/dscamera.py:842-871 | `start` succeeds exactly for a stopped handler whose camera opens, and then enables analysis and schedules a trigger 2 s later |
| Capture.TriggerNeedsOpenGate | Deepseek-with-camera/dscamera.py:927-931 | a trigger does nothing unless running, enabled, not paused and idle, and otherwise is a capture |
| Capture.CaptureOutcome | Deepseek-with-camera/dscamera.py:933-975 | a capture does nothing while busy or paused; otherwise it starts an analysis (keeping `processing`) or retries after 2 s on error and 1 s without a frame |
| Capture.CaptureVariants | Deepseek-with-camera/diagram.py:671-703 | the assistant analyses only a captured frame under `img_<time>`; the visualiser starts the analysis unless the capture raised |
| Capture.FinishRearms | Deepseek-with-camera/diagram.py:764-769 | every analysis ends by clearing `processing` and re-arming, 1 s later in the assistant and 10 s later in the visualiser |
| Capture.ToggleOutcome | Deepseek-with-camera/diagram.py:849-863 | pausing flips the flag and schedules a trigger 0.5 s later exactly when it unpauses an idle cycle; toggling twice restores the flags |
| Capture.StepKeepsOneInFlight | Deepseek-with-camera/dscamera.py:927-1038 | each callback keeps at most one analysis in flight, with `processing` set while one is |
| Capture.RunKeepsOneInFlight | Deepseek-with-camera/dscamera.py:927-1038 | however the callbacks interleave, no second analysis starts while one runs |
| Capture.NoCycleBeforeFinish | Deepseek-with-camera/dscamera.py:933-975 | until the running analysis ends, no event starts another or clears `processing` |
| Tracker.BehaviorOf | Deepseek-with-camera/dscamera.py:2487-2496 | unknown codes map to "other" |
| Tracker.InitialTracker | Deepseek-with-camera/dscamera.py:1540-1571 | the constructor creates every counter and every cooldown entry |
| Tracker.EveryKeyListed | Deepseek-with-camera/dscamera.py:1540-1569 | the constructor's key lists name every behaviour and every cooldown |
| Tracker.ObserveComplete | Deepseek-with-camera/dscamera.py:2497 | observing keeps every counter and cooldown entry present |
| Tracker.ObserveCountsOnce | Deepseek-with-camera/dscamera.py:2487-2512 | exactly the observed behaviour's counter goes up by one, and it becomes the last behaviour |
| Tracker.ObserveDuration | Deepseek-with-camera/dscamera.py:2505-2512 | the duration is 0 and the run restarts now on a change of behaviour, and is the run's age otherwise |
| Tracker.ObserveSitting | Deepseek-with-camera/dscamera.py:2519-2533 | only "other" resets the sitting timer; anything else starts it when stopped and keeps it otherwise |
| Tracker.ObserveReminder | Deepseek-with-camera/dscamera.py:2543-2565 | a reminder fires only with its threshold reached and its cooldown over, stamps only its own time, and leaves the other kinds' times alone |
| Tracker.ObserveReminderOrder | Deepseek-with-camera/dscamera.py:2543-2565 | a behaviour's own due reminder wins over sitting; the sitting reminder fires exactly when no behaviour reminder is due and sitting is due |
| Tracker.ObserveEncouragement | Deepseek-with-camera/dscamera.py:2576-2580 | encouragement fires exactly for a work run of more than ten minutes, or for water with the cooldown over, and then stamps its time |
| Tracker.WorkPraiseIgnoresCooldown | Deepseek-with-camera/dscamera.py:2576-2580 | a work run past ten minutes is praised again at once, right after being praised |
| Conversation.AppendCapped | Deepseek-with-camera/dscamera.py:2476-2483 | the new observation is last, after the latest earlier ones, and one is dropped only past 20 |
| Conversation.AppendCappedBounded | Deepseek-with-camera/dscamera.py:2476-2483 | a history of at most 20 stays within 20, dropping the oldest only when full |
| Conversation.TrimContext | Deepseek-with-camera/dscamera.py:2622-2624 | a context longer than 20 is cut to 20; a shorter one is kept |
| Conversation.TrimContextKeeps | Deepseek-with-camera/dscamera.py:2374-2375 | trimming keeps the first message and the latest ones in order |
| Conversation.TurnKeepsContext | Deepseek-with-camera/dscamera.py:2618-2644 | a turn keeps the system prompt first, at most 21 messages, and the user message last before the reply |
| Conversation.InstructionFor | Deepseek-with-camera/dscamera.py:2598-2615 | a due reminder is named first; with neither reminder nor praise the general instruction names the behaviour |
| Conversation.ObservedInstruction | Deepseek-with-camera/dscamera.py:2598-2615 | for a tracker decision the instruction is never empty, and praise goes to work or water |
| Conversation.BehaviorFilter | Deepseek-with-camera/dscamera.py:2220-2244 | a question about drinks, eating or the phone yields code 4, 2 or 5 in that precedence, and none exactly when no such phrase occurs |
| Conversation.DescOf | Deepseek-with-camera/dscamera.py:2199-2207 | codes 1 to 7 map to the seven descriptions |
| Conversation.Matching | Deepseek-with-camera/dscamera.py:2286-2295 | the records found all carry the asked code and come from the history |
| Conversation.MatchingComplete | Deepseek-with-camera/dscamera.py:2288-2295 | none is found exactly when no record carries the code, and the first found is the latest such record |
| Conversation.RelevanceFor | Deepseek-with-camera/dscamera.py:2286-2314 | nothing is retrieved exactly when nothing was asked |
| Conversation.Recent | Deepseek-with-camera/dscamera.py:2319-2324 | up to five latest observations, latest first |
| Conversation.RelevanceCases | Deepseek-with-camera/dscamera.py:2298-2314 | matching records when there are any; otherwise the counter decides between the inferred and the not-found line |
| Conversation.RecoveryFindsItself | Deepseek-with-camera/dscamera.py:2250-2279 | an empty history with a non-zero counter gets one record, five minutes old, of the asked behaviour, which the search then finds |
| Conversation.RecoveryOnlyWhenEmpty | Deepseek-with-camera/dscamera.py:2250 | recovery leaves a non-empty history, or a statement that asks nothing, alone |
| Assistant.MinMessage | Deepseek-with-camera/dscamera.py:1908 | `get()` takes an entry no other entry precedes |
| Assistant.Put | Deepseek-with-camera/dscamera.py:3012-3024 | a put appends the entry under the current counter and advances it |
| Assistant.Transcript | Deepseek-with-camera/dscamera.py:3080-3089 | a kept transcript has at least two characters once stripped |
| Assistant.AddAiMessageOutcome | Deepseek-with-camera/dscamera.py:2725-2749 | every message takes a fresh row; a placeholder is mapped to it under its id or `ai_<counter>` (the counter advancing), and other entries are kept |
| Assistant.AddUserMessageOutcome | Deepseek-with-camera/dscamera.py:2862-2885 | the replaced placeholder leaves the map; a plain message only takes a row; a new placeholder gets `user_<counter>` |
| Assistant.UpdatePlaceholderOutcome | Deepseek-with-camera/dscamera.py:2012-2122 | a known `img_` placeholder is retired, the analysis recorded and a reply posted and queued for speech; any other id changes nothing |
| Assistant.HandlersKeepContext | Deepseek-with-camera/dscamera.py:2370-2375 | both handlers keep the system prompt first and at most 21 messages |
| Assistant.ProcessImageAnalysisRecords | Deepseek-with-camera/dscamera.py:2457-2593 | the analysis becomes the newest observation under its classified behaviour, the tracker observes it, the history stays within 20, and two rows are used |
| Assistant.ProcessImageAnalysisSpeaks | Deepseek-with-camera/dscamera.py:2598-2651 | the observation goes out with the tracker's instruction, and the reply is spoken only with a reminder or praise |
| Assistant.ProcessVoiceInputGate | Deepseek-with-camera/dscamera.py:2180-2410 | a voice question barges in and closes the gate; a reply is spoken at priority 1; a failed call restores the gate |
| Assistant.ProcessVoiceInputPrompt | Deepseek-with-camera/dscamera.py:2232-2375 | the prompt carries the text, the retrieved records and the recent ones; the recovered history is kept |
| Assistant.NextIsMostUrgentOldest | Deepseek-with-camera/dscamera.py:1906-1911 | the next message is of the smallest priority and the oldest among those |
| Assistant.VoiceBeforeImage | Deepseek-with-camera/dscamera.py:3096-3110 | a queued priority-1 voice input is handled before any image analysis |
| Assistant.AnalyzeImagesQueues | Deepseek-with-camera/dscamera.py:2966-3024 | an analysis is queued at priority 2 under the counter exactly when there were urls and an analysis |
| Assistant.TranscribeQueues | Deepseek-with-camera/dscamera.py:3080-3116 | a transcript is kept exactly when extraction ends with at least two characters; it is queued at priority 1 (with barge-in) or 2 |
| Assistant.TranscriptOf | Deepseek-with-camera/dscamera.py:3082-3089 | the kept transcript is the extracted content unless it is missing or too short |
| Assistant.NoiseIgnored | Deepseek-with-camera/dscamera.py:3086-3089 | a transcript of fewer than two characters once stripped queues nothing |
| Assistant.WebcamAnalysisBypassesTracker | Deepseek-with-camera/dscamera.py:992-1023 | the webcam path appends every non-empty analysis uncapped, leaves the tracker and the chat context alone, and retires its placeholder |
| Assistant.AddMessagesKeepValid | Deepseek-with-camera/dscamera.py:2709-2910 | adding chat messages keeps the app invariant |
| Assistant.UpdatePlaceholderKeepsValid | Deepseek-with-camera/dscamera.py:2008-2122 | `update_placeholder` keeps the app invariant |
| Assistant.ImageAnalysisKeepsValid | Deepseek-with-camera/dscamera.py:2442-2655 | `process_image_analysis` keeps the app invariant |
| Assistant.VoiceInputKeepsValid | Deepseek-with-camera/dscamera.py:2153-2410 | `process_voice_input` keeps the app invariant |
| Assistant.RemoveKeepsValid | Deepseek-with-camera/dscamera.py:1908 | taking any entry out of the queue keeps the invariant |
| Assistant.ProcessNextKeepsValid | Deepseek-with-camera/dscamera.py:1900-1923 | a turn of the message loop keeps the invariant |
| Assistant.PutKeepsValid | Deepseek-with-camera/dscamera.py:3012-3024 | a put keeps ids fresh and increasing |
| Assistant.AnalyzeImagesKeepsValid | Deepseek-with-camera/dscamera.py:2955-3029 | `analyze_images` keeps the invariant |
| Assistant.TranscribeKeepsValid | Deepseek-with-camera/dscamera.py:3031-3125 | `transcribe_audio` keeps the invariant |
| Assistant.BargeInKeepsValid | Deepseek-with-camera/dscamera.py:3114-3116 | barge-in keeps the invariant |
| Assistant.WebcamAnalysisKeepsValid | Deepseek-with-camera/dscamera.py:978-1038 | the webcam analysis path keeps the invariant |
| Assistant.InitialValid | Deepseek-with-camera/dscamera.py:1495-1757 | the constructed app satisfies the invariant |
| Assistant.InitialRows | Deepseek-with-camera/dscamera.py:1579-1642 | after construction (the last timestamp starts at 0 and `check_timestamp` runs once) the welcome message holds row 0 and the first timestamp row 1, so the next row is 2 and the timestamp time is the construction time |
| Assistant.TimestampKeepsValid | Deepseek-with-camera/dscamera.py:2670-2689 | a timestamp check takes one row exactly when 60 s have passed since the last timestamp, changes nothing but the row counter and that time, and keeps the invariant |
| Assistant.OneTimestampPerMinute | Deepseek-with-camera/dscamera.py:2670-2675 | two checks less than a minute apart add at most one timestamp row |
| Assistant.PlainAiMessage | Deepseek-with-camera/dscamera.py:2725-2749 | an ordinary (non-placeholder) AI message takes the next chat row and changes nothing else |
| AssistantApp.MultimediaAssistantApp.constructor | Deepseek-with-camera/dscamera.py:1491-1757 | the constructed object is the initial app (welcome message and first timestamp row included), which is valid |
| AssistantApp.MultimediaAssistantApp.CheckTimestamp | Deepseek-with-camera/dscamera.py:2670-2689 | the new fields equal `CheckTimestampSpec` |
| AssistantApp.MultimediaAssistantApp.AddAiMessage | Deepseek-with-camera/dscamera.py:2709-2749 | `add_ai_message` on the fields computes `AddAiMessageSpec` |
| AssistantApp.MultimediaAssistantApp.AddUserMessage | Deepseek-with-camera/dscamera.py:2848-2910 | `add_user_message` on the fields computes `AddUserMessageSpec` |
| AssistantApp.MultimediaAssistantApp.UpdatePlaceholder | Deepseek-with-camera/dscamera.py:2008-2122 | `update_placeholder` computes `UpdatePlaceholderSpec` and keeps the invariant |
| AssistantApp.MultimediaAssistantApp.TrackBehavior | Deepseek-with-camera/dscamera.py:2487-2580 | the field-by-field tracking computes `ObserveSpec` and touches nothing else |
| AssistantApp.MultimediaAssistantApp.Advance | Deepseek-with-camera/dscamera.py:2496-2525 | the counter and timer updates compute `AdvanceSpec` |
| AssistantApp.MultimediaAssistantApp.StampReminder | Deepseek-with-camera/dscamera.py:2543-2565 | the if/elif chain chooses `ChooseReminder` and stamps only that cooldown |
| AssistantApp.MultimediaAssistantApp.ProcessImageAnalysis | Deepseek-with-camera/dscamera.py:2442-2655 | `process_image_analysis` computes `ProcessImageAnalysisSpec` and keeps the invariant |
| AssistantApp.MultimediaAssistantApp.FindRelevant | Deepseek-with-camera/dscamera.py:2286-2295 | the reversed scan returns exactly `Matching` |
| AssistantApp.MultimediaAssistantApp.RecentObservations | Deepseek-with-camera/dscamera.py:2319-2324 | the reversed walk over the last five returns exactly `Recent` |
| AssistantApp.MultimediaAssistantApp.RecoverHistory | Deepseek-with-camera/dscamera.py:2250-2279 | only the history changes, to `RecoverySpec` |
| AssistantApp.MultimediaAssistantApp.Relevant | Deepseek-with-camera/dscamera.py:2286-2314 | the search with its fallback returns exactly `RelevanceFor` |
| AssistantApp.MultimediaAssistantApp.ProcessVoiceInput | Deepseek-with-camera/dscamera.py:2153-2410 | `process_voice_input` computes `ProcessVoiceInputSpec` and keeps the invariant |
| AssistantApp.MultimediaAssistantApp.HandleMessage | Deepseek-with-camera/dscamera.py:1925-1964 | the dispatch computes `HandleMessageSpec` and keeps the invariant |
| AssistantApp.MultimediaAssistantApp.ProcessNextMessage | Deepseek-with-camera/dscamera.py:1904-1913 | a loop turn computes `ProcessNextSpec` and keeps the invariant |
| AssistantApp.MultimediaAssistantApp.AnalyzeImages | Deepseek-with-camera/dscamera.py:2955-3029 | `analyze_images` computes `AnalyzeImagesSpec` and keeps the invariant |
| AssistantApp.MultimediaAssistantApp.TranscribeAudio | Deepseek-with-camera/dscamera.py:3031-3125 | `transcribe_audio` computes `TranscribeSpec` and keeps the invariant |
| AssistantApp.MultimediaAssistantApp.QueueTranscript | Deepseek-with-camera/dscamera.py:3096-3116 | the queueing half computes `QueueTranscriptSpec` |
| AssistantApp.MultimediaAssistantApp.ReceiveWebcamAnalysis | Deepseek-with-camera/dscamera.py:992-1023 | the app's side of the webcam analysis computes `WebcamAnalysisSpec` and keeps the invariant |
| Visualizer.KeepLast | Deepseek-with-camera/diagram.py:310-311 | `h[-n:]` keeps the last `n` entries, or all of them |
| Visualizer.InitialVisualizer | Deepseek-with-camera/diagram.py:190-191 | no samples and a zero count for exactly the seven codes |
| Visualizer.PieSizes | Deepseek-with-camera/diagram.py:428 | seven slices, the counts of codes 1 to 7 in order |
| Visualizer.AddSampleCounts | Deepseek-with-camera/diagram.py:307 | exactly the sample's count goes up by one (from zero for a new code) and no other changes |
| Visualizer.AddSampleHistory | Deepseek-with-camera/diagram.py:304-311 | the history keeps the latest 100 samples in order, the new one last |
| Visualizer.CountsCoverHistory | Deepseek-with-camera/diagram.py:300-311 | truncation never lowers a count: each count stays at least the samples of its code still held |
| Visualizer.CountsMatchShortHistory | Deepseek-with-camera/diagram.py:300-311 | before truncation starts, the counts equal the occurrences in the history |
| Visualizer.InitialCountsMatch | Deepseek-with-camera/diagram.py:190-191 | the initial counts match the empty history |
| Visualizer.PieChartCases | Deepseek-with-camera/diagram.py:428-447 | the pie waits exactly when codes 1 to 7 are all zero; a code outside them never changes the pie |
| Visualizer.BehaviorVisualizer.constructor | Deepseek-with-camera/diagram.py:166-191 | a new visualiser is the initial state |
| Visualizer.BehaviorVisualizer.AddBehaviorData | Deepseek-with-camera/diagram.py:300-317 | `add_behavior_data` on the fields computes `AddSampleSpec` |
| Visualizer.BehaviorVisualizer.UpdatePieChart | Deepseek-with-camera/diagram.py:416-460 | a drawn pie has seven slices with a positive total |
| Visualizer.AddBehaviorDataOutcome | Deepseek-with-camera/diagram.py:1150-1177 | the app keeps the latest 100 observations in order, the new one last, and shows its description |
| Visualizer.AnalysisReceivedOutcome | Deepseek-with-camera/diagram.py:731-750 | a non-empty analysis shows a known description and counts under its own code |
| Visualizer.BehaviorVisualizationApp.constructor | Deepseek-with-camera/diagram.py:994-997 | a new app has no observations and the behaviour "未知" |
| Visualizer.BehaviorVisualizationApp.AddBehaviorData | Deepseek-with-camera/diagram.py:1150-1178 | `add_behavior_data` computes `AddBehaviorDataSpec` |
| Visualizer.BehaviorVisualizationApp.AnalysisReceived | Deepseek-with-camera/diagram.py:731-750 | the analysis thread's success branch computes `AnalysisReceivedSpec` |

## Left out

- Device and network I/O are not modelled: the camera, the microphone stream, uploads,
  the vision, chat and speech-synthesis services, the ASR model, and files. Their
  results are parameters.
- `_get_energy` (`dscamera.py:408-429`) is not modelled. The energy of a chunk is a
  parameter, because it is a floating-point mean over decoded samples.
- Times are `real`. Floating-point rounding of `time.time()` arithmetic is not modelled.
- Threads, `daemon` flags, `join`, `sleep` and `app.after` delays are modelled as
  separate steps and returned schedules. The model does not cover the real
  interleaving of the TTS consumer, the playback thread, the message loop and the
  capture thread with each other. Only the capture cycle's interleavings are modelled.
- `check_timestamp` reschedules itself every 5 s with `after`. Each run is a call of
  `CheckTimestamp`; the schedule is the caller's.
- `start_tts_thread`: only the `tts_running` flag is kept. The liveness check on the
  thread object is not modelled.
- The camera preview loop, `CameraWindow`, screenshots, avatars, chat widgets,
  scrolling, status lines and colours are not modelled.
- In the visualiser, the line chart, the statistics panel and the refresh thread are
  not modelled. The pie chart is modelled as the data it draws.
- Prompt wording, log lines and the timestamp text of history lines are not modelled.
  A chat message records which facts it carries: the observation with its instruction
  kind, or the question with the records chosen for it. The 100- and 150-character
  cuts of analysis text in those lines are not modelled.
- Classify.ExtractBehaviorType: `\d` is taken as the ASCII digits 0-9. Python's `str`
  regex also matches other Unicode decimal digits.
- SpeechTags.ExtractLanguageEmotionContent: the input on which the loop never ends is
  reported as `None`, so `transcribe_audio` queues nothing. The program hangs its
  thread there instead.
- The `placeholder_id` of a voice message is carried in the queue, but
  `process_voice_input` does nothing with it (`dscamera.py:2153`). The manual
  recording path (`AudioRecorder`, `start_voice_recording` and `stop_voice_recording`)
  is not modelled.
- Exceptions raised inside handlers are modelled only where they decide the outcome,
  namely a failed chat, vision or ASR call. Exceptions from UI calls are not modelled.
