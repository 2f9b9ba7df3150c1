# flutter_tts on Android: the plugin's state machine

The flutter_tts plugin answers method calls from the Dart side on Android by driving the
operating system's `TextToSpeech` engine. Most of `FlutterTtsPlugin` only passes calls through
to the engine. Inside it, though, is a small state machine that this project models and
reasons about:

- **Deferred calls.** Until the engine has reported its initialisation status (`ttsStatus`),
  every incoming call is parked in `pendingMethodCalls`, and creating the engine is started
  at most once. `onInit` records the status and replays the parked calls in order through
  a fail-fast `for` loop. The loop throws ConcurrentModificationException when a replayed
  call parks itself again. After a normal end the list is cleared.
- **Pause emulation.** `pauseText`, `currentText`, `lastProgress` and `isPaused` emulate a
  pause the engine does not have. `pause` trims the remembered text to the part after the
  last range-start offset. A later `speak` of the same text speaks that tail. `onDone`,
  `stop` and dispose reset the bookkeeping.
- **Held results.** `speakResult`, `synthResult` and `engineResult` hold a Flutter `Result`
  until a completion, stop or error callback answers it and clears the field.
- **Utterance ids.** Ids starting with `SIL_` (silence) and `STF_` (synthesize to file) are
  routed apart from plain speak ids. `utterances` maps each id to its text, and that text
  gives the word reported in progress events.

Files:

- `types.dfy` (module `TtsTypes`): method calls, answers, events, engine calls, constants.
- `spec.dfy` (module `TtsSpec`): the fields as a `PluginState` value, plus one pure function
  per source function. The state also records what the plugin has sent out: `replies` (answers
  given to `Result` objects), `events` (`invokeMethod` calls) and `engineCalls` (calls on
  `TextToSpeech`).
- `plugin.dfy` (module `FlutterTts`): the class `FlutterTtsPlugin`, whose fields are the
  source's fields. Its methods update them step by step, and the drain keeps the source's
  loop. Each method is proved to change the state exactly as the matching `TtsSpec` function
  says.
- `properties.dfy` (module `TtsProperties`): the behaviour of deferral, drain, speak, pause,
  stop, dispose and the callbacks.
- `invariants.dfy` (module `TtsInvariants`): every run of the plugin, modelled as a sequence
  of method calls and engine callbacks. A run ends before its first input whose handler
  throws. Up to that point no `Result` is answered twice, none is answered while it is
  still held, and the pause text is always a tail of the current text.

The engine and the runtime are an oracle. For each dispatched call, an `Oracle` value gives
the UUID the call draws, whether the reflective probe finds the service connection usable,
and the status that `TextToSpeech.speak` returns. A handler that throws in Kotlin returns
`Thrown(e)` with the state it had reached. A run stops before the first input whose handler
throws. The `setSilence` branch sets `silencems` and never answers its `Result`; the model
keeps that behaviour.

## Model

| member | source | states |
|---|---|---|
| FlutterTts.FlutterTtsPlugin.constructor | android/src/main/kotlin/com/tundralabs/fluttertts/FlutterTtsPlugin.kt:35-58 | equal to `TtsSpec.Initial`: a new plugin has no engine, no status, no held result, an empty queue and QUEUE_FLUSH mode |
| FlutterTts.FlutterTtsPlugin.Respond | android/src/main/kotlin/com/tundralabs/fluttertts/FlutterTtsPlugin.kt:235-257 | proved equal to `TtsSpec.Respond`: answering a `Result` appends exactly that reply and changes no field |
| FlutterTts.FlutterTtsPlugin.InvokeMethod | android/src/main/kotlin/com/tundralabs/fluttertts/FlutterTtsPlugin.kt:664-671 | proved equal to `TtsSpec.Emit`: sending an event to Dart appends exactly that event |
| FlutterTts.FlutterTtsPlugin.Command | android/src/main/kotlin/com/tundralabs/fluttertts/FlutterTtsPlugin.kt:615-633 | proved equal to `TtsSpec.Command`: an engine call is recorded and nothing else changes |
| FlutterTts.FlutterTtsPlugin.SpeakCompletion | android/src/main/kotlin/com/tundralabs/fluttertts/FlutterTtsPlugin.kt:235-240 | proved equal to `TtsSpec.SpeakCompletion`: a held speak result is answered with the code once, then cleared |
| FlutterTts.FlutterTtsPlugin.SynthCompletion | android/src/main/kotlin/com/tundralabs/fluttertts/FlutterTtsPlugin.kt:242-247 | proved equal to `TtsSpec.SynthCompletion`: a held synth result is answered with the code once, then cleared |
| FlutterTts.FlutterTtsPlugin.EngineCompletion | android/src/main/kotlin/com/tundralabs/fluttertts/FlutterTtsPlugin.kt:248-257 | proved equal to `TtsSpec.EngineCompletion`: a held engine result is answered once (an error message makes it an "EngineError"), then cleared |
| FlutterTts.FlutterTtsPlugin.Stop | android/src/main/kotlin/com/tundralabs/fluttertts/FlutterTtsPlugin.kt:635-639 | proved equal to `TtsSpec.StopTts`: the engine is stopped and held speak and synth results are answered with 0 and cleared |
| FlutterTts.FlutterTtsPlugin.ShutdownTts | android/src/main/kotlin/com/tundralabs/fluttertts/FlutterTtsPlugin.kt:103-110 | `tts?.shutdown(); tts = null`: a shutdown is sent only if an engine exists, and afterwards there is none |
| FlutterTts.FlutterTtsPlugin.DisposeTextToSpeech | android/src/main/kotlin/com/tundralabs/fluttertts/FlutterTtsPlugin.kt:103-110 | proved equal to `TtsSpec.Dispose`: the plugin forgets its status and its pause state, stops and shuts the engine down |
| FlutterTts.FlutterTtsPlugin.InitTextToSpeech | android/src/main/kotlin/com/tundralabs/fluttertts/FlutterTtsPlugin.kt:90-101 | proved equal to `TtsSpec.InitTts`: an existing engine is disposed, a new one is created for the chosen engine and initialisation is marked as started |
| FlutterTts.FlutterTtsPlugin.Speak | android/src/main/kotlin/com/tundralabs/fluttertts/FlutterTtsPlugin.kt:615-633 | proved equal to `TtsSpec.SpeakUtterance`: the utterance is recorded under its UUID; it is sent (after a silence when `silencems > 0`) only over a usable connection; otherwise a new engine is started; the returned flag is whether the engine accepted it |
| FlutterTts.FlutterTtsPlugin.HandleSpeak | android/src/main/kotlin/com/tundralabs/fluttertts/FlutterTtsPlugin.kt:280-316 | proved equal to `TtsSpec.DispatchSpeak`: the "speak" branch: pause bookkeeping picks the text, then the call is replied to, held or parked |
| FlutterTts.FlutterTtsPlugin.SpeakAndReply | android/src/main/kotlin/com/tundralabs/fluttertts/FlutterTtsPlugin.kt:296-316 | proved equal to `TtsSpec.SpeakAndReply`: the reply half of the "speak" branch |
| FlutterTts.FlutterTtsPlugin.DeferCall | android/src/main/kotlin/com/tundralabs/fluttertts/FlutterTtsPlugin.kt:267-277 | proved equal to `TtsSpec.Defer`: the call is appended to the queue, and the engine is created unless initialisation has already started |
| FlutterTts.FlutterTtsPlugin.HandleSynthesizeToFile | android/src/main/kotlin/com/tundralabs/fluttertts/FlutterTtsPlugin.kt:334-346 | proved equal to `TtsSpec.Synthesize`: a running synthesis is stopped first; the result is held or answered with 1; the file is requested under an `STF_` id; with no engine the call throws |
| FlutterTts.FlutterTtsPlugin.HandlePause | android/src/main/kotlin/com/tundralabs/fluttertts/FlutterTtsPlugin.kt:348-355 | proved equal to `TtsSpec.PauseCall`: marks the plugin paused and trims the pause text at `lastProgress` (throws when that offset is outside the text), then stops and answers 1 |
| FlutterTts.FlutterTtsPlugin.HandleStop | android/src/main/kotlin/com/tundralabs/fluttertts/FlutterTtsPlugin.kt:357-361 | proved equal to `TtsSpec.StopCall`: stops, resets `lastProgress` to 0 and answers 1 |
| FlutterTts.FlutterTtsPlugin.SetEngine | android/src/main/kotlin/com/tundralabs/fluttertts/FlutterTtsPlugin.kt:472-476 | proved equal to `TtsSpec.SetEngineCall`: the engine name is remembered, the result is held for `onInit`, and the engine is re-created |
| FlutterTts.FlutterTtsPlugin.OnMethodCall | android/src/main/kotlin/com/tundralabs/fluttertts/FlutterTtsPlugin.kt:265-436 | proved equal to `TtsSpec.Dispatch`: parks the call while there is no status, else runs the branch for the method name |
| FlutterTts.FlutterTtsPlugin.HandleAwaitSpeakCompletion | android/src/main/kotlin/com/tundralabs/fluttertts/FlutterTtsPlugin.kt:319-322 | proved equal to that branch of `TtsSpec.Handle`: sets the flag and answers 1 |
| FlutterTts.FlutterTtsPlugin.HandleAwaitSynthCompletion | android/src/main/kotlin/com/tundralabs/fluttertts/FlutterTtsPlugin.kt:324-327 | proved equal to that branch of `TtsSpec.Handle`: sets the flag and answers 1 |
| FlutterTts.FlutterTtsPlugin.HandleSetQueueMode | android/src/main/kotlin/com/tundralabs/fluttertts/FlutterTtsPlugin.kt:428-432 | proved equal to that branch of `TtsSpec.Handle`: sets the queue mode and answers 1 |
| FlutterTts.FlutterTtsPlugin.HandleQuery | android/src/main/kotlin/com/tundralabs/fluttertts/FlutterTtsPlugin.kt:392-434 | proved equal to that branch of `TtsSpec.Handle`: `setSharedInstance` answers 1; `getCurrentEngine` answers the chosen engine or the default one; pass-through queries answer engine data; unknown names answer "not implemented" |
| FlutterTts.FlutterTtsPlugin.RunPendingCalls | android/src/main/kotlin/com/tundralabs/fluttertts/FlutterTtsPlugin.kt:115-121 | proved equal to `TtsSpec.Drain`: the `for` loop over the parked calls runs them in order and clears the list; it throws ConcurrentModificationException once a replayed call changes the list |
| FlutterTts.FlutterTtsPlugin.OnInit | android/src/main/kotlin/com/tundralabs/fluttertts/FlutterTtsPlugin.kt:112-133 | proved equal to `TtsSpec.OnInit`: records the status, ends initialisation, drains the queue, then installs the listener and answers a held `setEngine` with 1, or with an error on failure |
| FlutterTts.FlutterTtsPlugin.FinishInit | android/src/main/kotlin/com/tundralabs/fluttertts/FlutterTtsPlugin.kt:124-132 | proved equal to `TtsSpec.FinishInit`: after the drain, a successful status installs the progress listener and answers the engine result with 1; any other status answers it with an "EngineError" naming the status |
| FlutterTts.FlutterTtsPlugin.OnProgress | android/src/main/kotlin/com/tundralabs/fluttertts/FlutterTtsPlugin.kt:192-202 | proved equal to `TtsSpec.OnProgress`: `STF_` ids are ignored; otherwise emits the progress event with the spoken word; an unknown id or an out-of-range span throws |
| FlutterTts.FlutterTtsPlugin.OnStart | android/src/main/kotlin/com/tundralabs/fluttertts/FlutterTtsPlugin.kt:139-154 | proved equal to `TtsSpec.OnStart`: routes the start event by prefix and pause state; below SDK 26 it also reports progress over the whole text |
| FlutterTts.FlutterTtsPlugin.OnDone | android/src/main/kotlin/com/tundralabs/fluttertts/FlutterTtsPlugin.kt:156-172 | proved equal to `TtsSpec.OnDone`: `SIL_` ids change nothing; otherwise answers the held result, emits the completion and resets the pause bookkeeping |
| FlutterTts.FlutterTtsPlugin.ForgetUtterance | android/src/main/kotlin/com/tundralabs/fluttertts/FlutterTtsPlugin.kt:169-171 | resets `lastProgress` and `pauseText` and removes the id from `utterances` |
| FlutterTts.FlutterTtsPlugin.OnStop | android/src/main/kotlin/com/tundralabs/fluttertts/FlutterTtsPlugin.kt:174-190 | proved equal to `TtsSpec.OnStop`: answers held synth and speak results with 0 and emits pause or cancel |
| FlutterTts.FlutterTtsPlugin.OnRangeStart | android/src/main/kotlin/com/tundralabs/fluttertts/FlutterTtsPlugin.kt:205-211 | proved equal to `TtsSpec.OnRangeStart`: for a non-`STF_` id, records `startAt` as `lastProgress` and reports progress |
| FlutterTts.FlutterTtsPlugin.OnError | android/src/main/kotlin/com/tundralabs/fluttertts/FlutterTtsPlugin.kt:214-232 | proved equal to `TtsSpec.OnError`: by prefix, answers the held synth or speak result with 0 and emits the matching error event |
| TtsSpec.SelectText | android/src/main/kotlin/com/tundralabs/fluttertts/FlutterTtsPlugin.kt:280-295 | with no pause text, the new text becomes both texts; paused on the text last asked for, the old pause text is spoken and the state is left as it was; paused on another text, both texts are replaced and `lastProgress` reset; not paused, nothing changes |
| TtsProperties.InitTtsCreatesOne | android/src/main/kotlin/com/tundralabs/fluttertts/FlutterTtsPlugin.kt:90-101 | `initTextToSpeech` creates exactly one engine |
| TtsProperties.DeferredWhileUninitialised | android/src/main/kotlin/com/tundralabs/fluttertts/FlutterTtsPlugin.kt:265-277 | with no status, a call is not run: exactly one pending call is appended, no event is sent, and an engine is created only if initialisation was not already under way (and then last) |
| TtsProperties.DeferredDuringInitialisation | android/src/main/kotlin/com/tundralabs/fluttertts/FlutterTtsPlugin.kt:267-277 | during initialisation a call only appends itself to the queue |
| TtsProperties.InitStartedAtMostOnce | android/src/main/kotlin/com/tundralabs/fluttertts/FlutterTtsPlugin.kt:90-92 | any number of calls before the status arrives are all queued in order, and in total they create at most one engine |
| TtsProperties.SpeakUtteranceControl | android/src/main/kotlin/com/tundralabs/fluttertts/FlutterTtsPlugin.kt:615-633 | speaking never touches the queue; an accepted utterance keeps the status, the initialisation flag, the held speak, synth and engine results, both await flags and the queue mode |
| TtsProperties.SpeakAndReplyQueue | android/src/main/kotlin/com/tundralabs/fluttertts/FlutterTtsPlugin.kt:296-316 | the speak reply either keeps control state or parks exactly this call |
| TtsProperties.SelectTextControl | android/src/main/kotlin/com/tundralabs/fluttertts/FlutterTtsPlugin.kt:280-295 | the pause bookkeeping changes no control state |
| TtsProperties.SpeakBranchQueue | android/src/main/kotlin/com/tundralabs/fluttertts/FlutterTtsPlugin.kt:280-316 | the "speak" branch either keeps control state or parks exactly this call |
| TtsProperties.SynthesizeBranchControl | android/src/main/kotlin/com/tundralabs/fluttertts/FlutterTtsPlugin.kt:334-346 | the "synthesizeToFile" branch keeps queue, status and initialisation flag |
| TtsProperties.PauseBranchControl | android/src/main/kotlin/com/tundralabs/fluttertts/FlutterTtsPlugin.kt:348-355 | the "pause" branch keeps queue, status and initialisation flag |
| TtsProperties.StopBranchControl | android/src/main/kotlin/com/tundralabs/fluttertts/FlutterTtsPlugin.kt:357-361 | the "stop" branch keeps queue, status and initialisation flag |
| TtsProperties.OptionBranchesControl | android/src/main/kotlin/com/tundralabs/fluttertts/FlutterTtsPlugin.kt:319-432 | the option setters keep queue, status and initialisation flag |
| TtsProperties.QueryBranchesControl | android/src/main/kotlin/com/tundralabs/fluttertts/FlutterTtsPlugin.kt:392-434 | the queries keep queue, status and initialisation flag |
| TtsProperties.HandleQueue | android/src/main/kotlin/com/tundralabs/fluttertts/FlutterTtsPlugin.kt:265-436 | a dispatched call leaves the queue as it was or appends itself; if it appends nothing (and is not `setEngine`), control state is kept |
| TtsProperties.DispatchQueue | android/src/main/kotlin/com/tundralabs/fluttertts/FlutterTtsPlugin.kt:265-277 | every call leaves the queue as it was or appends itself, and with no status it always appends itself |
| TtsProperties.RunInOrderQueueGrows | android/src/main/kotlin/com/tundralabs/fluttertts/FlutterTtsPlugin.kt:115-121 | running calls one after another only appends to the queue |
| TtsProperties.DrainMatchesRunInOrder | android/src/main/kotlin/com/tundralabs/fluttertts/FlutterTtsPlugin.kt:115-121 | the drain ends normally exactly when running the parked calls in order leaves the queue unchanged, and then it gives that run's state with the queue emptied |
| TtsProperties.OnInitRunsParkedCallsInOrder | android/src/main/kotlin/com/tundralabs/fluttertts/FlutterTtsPlugin.kt:112-122 | `onInit` runs all parked calls in insertion order after recording the status; on a normal end the queue is empty |
| TtsProperties.FinishInitKeepsQueue | android/src/main/kotlin/com/tundralabs/fluttertts/FlutterTtsPlugin.kt:124-132 | the code after the drain keeps queue, status and initialisation flag |
| TtsProperties.DrainKeepsStatus | android/src/main/kotlin/com/tundralabs/fluttertts/FlutterTtsPlugin.kt:115-121 | replaying calls other than `setEngine` keeps status and flag and ends with an empty queue |
| TtsProperties.OnInitSetsStatus | android/src/main/kotlin/com/tundralabs/fluttertts/FlutterTtsPlugin.kt:112-122 | after a normal `onInit` whose queue held no `setEngine`, the status is the reported one, initialisation is over and the queue is empty |
| TtsProperties.SetEngineRestartsInit | android/src/main/kotlin/com/tundralabs/fluttertts/FlutterTtsPlugin.kt:472-476 | with an engine, `setEngine` holds its result, disposes the engine (clearing the status), keeps the queue and creates the named engine as its newest engine call |
| TtsProperties.ReplayedSetEngineAnsweredEarly | android/src/main/kotlin/com/tundralabs/fluttertts/FlutterTtsPlugin.kt:112-132 | when a `setEngine` is the only parked call, `onInit` replays it and ends normally without a status and initialising again; the named engine is the newest creation (followed only by the listener on success), and the `setEngine` result is answered at once (1, or the error for a failed status) before the new engine reports |
| TtsProperties.ReplayedSetEngineThenCallThrows | android/src/main/kotlin/com/tundralabs/fluttertts/FlutterTtsPlugin.kt:115-121 | when a parked `setEngine` is followed by any other parked call, `onInit` throws ConcurrentModificationException: the later call parks itself again because the status is gone, and the `setEngine` result stays held, unanswered |
| TtsProperties.SpeakUtteranceSends | android/src/main/kotlin/com/tundralabs/fluttertts/FlutterTtsPlugin.kt:615-633 | accepted exactly when there is an engine, a usable connection and SUCCESS; an accepted text is recorded under its UUID and sent last, in QUEUE_ADD after a silence; the silence goes first under the `SIL_` id; an unusable connection re-creates the engine |
| TtsProperties.SelectTextFrame | android/src/main/kotlin/com/tundralabs/fluttertts/FlutterTtsPlugin.kt:280-295 | the pause bookkeeping changes only the two texts and `lastProgress` |
| TtsProperties.SpeakAndReplyCases | android/src/main/kotlin/com/tundralabs/fluttertts/FlutterTtsPlugin.kt:296-316 | in QUEUE_FLUSH with a held speak result the call is answered 0; a refused utterance parks the call; an accepted one is held when awaiting completion in QUEUE_FLUSH, else answered 1 |
| TtsProperties.SpeakWhileSpeakingReplies | android/src/main/kotlin/com/tundralabs/fluttertts/FlutterTtsPlugin.kt:296-302 | in QUEUE_FLUSH with a held speak result, "speak" answers 0 and sends nothing to the engine |
| TtsProperties.SpeakReplies | android/src/main/kotlin/com/tundralabs/fluttertts/FlutterTtsPlugin.kt:280-316 | otherwise "speak" returns normally; it is accepted exactly on engine, connection and SUCCESS; refused calls are parked unanswered; accepted ones are recorded and sent, then held or answered 1 |
| TtsProperties.SelectTextSpeaksTail | android/src/main/kotlin/com/tundralabs/fluttertts/FlutterTtsPlugin.kt:280-295 | if the pause text was a tail of the current text, the text spoken is a tail of the requested text, and the relation still holds |
| TtsProperties.PauseTrimsText | android/src/main/kotlin/com/tundralabs/fluttertts/FlutterTtsPlugin.kt:348-355 | "pause" throws exactly when `lastProgress` is outside the pause text; otherwise it sets `isPaused`, trims the pause text at `lastProgress`, answers held results with 0 and the call with 1 |
| TtsProperties.PauseThenResume | android/src/main/kotlin/com/tundralabs/fluttertts/FlutterTtsPlugin.kt:280-295 | "pause" and then "speak" of the same text return normally and speak exactly the tail of the remembered text from `lastProgress` on; when the engine accepts, that tail is the last text sent to it |
| TtsProperties.StopResets | android/src/main/kotlin/com/tundralabs/fluttertts/FlutterTtsPlugin.kt:357-361 | "stop" resets `lastProgress` to 0, keeps the pause text and flag, answers held results with 0 and the call with 1 |
| TtsProperties.RangeStartRecordsProgress | android/src/main/kotlin/com/tundralabs/fluttertts/FlutterTtsPlugin.kt:205-211 | `STF_` ids change nothing; otherwise `lastProgress` becomes `startAt`; the handler returns normally exactly for a known id and an in-range span, and then emits one progress event whose word is that span |
| TtsProperties.DisposeResets | android/src/main/kotlin/com/tundralabs/fluttertts/FlutterTtsPlugin.kt:103-110 | dispose leaves no status, no pause, no pause text, no engine and no held speak or synth result, answering those with 0 |
| TtsProperties.CallAfterDisposeIsDeferred | android/src/main/kotlin/com/tundralabs/fluttertts/FlutterTtsPlugin.kt:103-110 | after dispose every call is parked again and sends no event |
| TtsProperties.SilenceDoneIgnored | android/src/main/kotlin/com/tundralabs/fluttertts/FlutterTtsPlugin.kt:156-158 | `onDone` for a `SIL_` id changes nothing |
| TtsProperties.SpeakDoneResets | android/src/main/kotlin/com/tundralabs/fluttertts/FlutterTtsPlugin.kt:156-172 | `onDone` for a speak id resets `lastProgress` and `pauseText`, removes the id, answers a held speak result with 1 only in QUEUE_FLUSH, and emits completion |
| TtsProperties.SynthDoneResets | android/src/main/kotlin/com/tundralabs/fluttertts/FlutterTtsPlugin.kt:156-172 | `onDone` for an `STF_` id resets the bookkeeping, answers a held synth result with 1, keeps the speak result and emits the synth completion |
| TtsProperties.StartRouting | android/src/main/kotlin/com/tundralabs/fluttertts/FlutterTtsPlugin.kt:139-150 | from SDK 26: `STF_` ids emit `synth.onStart`; otherwise a paused plugin emits `speak.onContinue` and clears `isPaused`, else `speak.onStart` |
| TtsProperties.StartBeforeOreoNeedsUtterance | android/src/main/kotlin/com/tundralabs/fluttertts/FlutterTtsPlugin.kt:151-153 | below SDK 26, `onStart` throws a null-pointer exception exactly for ids not in `utterances` |
| TtsProperties.StopRouting | android/src/main/kotlin/com/tundralabs/fluttertts/FlutterTtsPlugin.kt:174-190 | `onStop` answers held synth and speak results with 0 and emits `speak.onPause` if paused, else `speak.onCancel` |
| TtsProperties.SynthErrorRouting | android/src/main/kotlin/com/tundralabs/fluttertts/FlutterTtsPlugin.kt:214-232 | an error on an `STF_` id answers the synth result with 0, keeps the speak result and emits `synth.onError` with the code |
| TtsProperties.SpeakErrorRouting | android/src/main/kotlin/com/tundralabs/fluttertts/FlutterTtsPlugin.kt:214-232 | an error on any other id answers the speak result with 0, keeps the synth result and emits `speak.onError` with the code |
| TtsProperties.UuidRouting | android/src/main/kotlin/com/tundralabs/fluttertts/FlutterTtsPlugin.kt:61-62 | a plain UUID has neither prefix, and the `SIL_` and `STF_` ids built from it carry exactly their own prefix |
| TtsInvariants.SpeakCompletionFrame | android/src/main/kotlin/com/tundralabs/fluttertts/FlutterTtsPlugin.kt:235-240 | the speak completion keeps the answered-or-held set, the queue and the pause state |
| TtsInvariants.SynthCompletionFrame | android/src/main/kotlin/com/tundralabs/fluttertts/FlutterTtsPlugin.kt:242-247 | the synth completion keeps them and the held speak result |
| TtsInvariants.EmitFrame | android/src/main/kotlin/com/tundralabs/fluttertts/FlutterTtsPlugin.kt:664-671 | sending an event keeps them |
| TtsInvariants.StopTtsFrame | android/src/main/kotlin/com/tundralabs/fluttertts/FlutterTtsPlugin.kt:635-639 | `stop()` keeps them and leaves no held speak or synth result |
| TtsInvariants.InitTtsFrame | android/src/main/kotlin/com/tundralabs/fluttertts/FlutterTtsPlugin.kt:90-101 | `initTextToSpeech` keeps them |
| TtsInvariants.SpeakUtteranceFrame | android/src/main/kotlin/com/tundralabs/fluttertts/FlutterTtsPlugin.kt:615-633 | speaking keeps them; an accepted utterance also keeps the held results, queue mode and await flag |
| TtsInvariants.SpeakWhileSpeakingFrame | android/src/main/kotlin/com/tundralabs/fluttertts/FlutterTtsPlugin.kt:296-302 | the refusal with 0 claims only the new result |
| TtsInvariants.SpeakRefusedFrame | android/src/main/kotlin/com/tundralabs/fluttertts/FlutterTtsPlugin.kt:303-310 | an engine refusal parks exactly this call and claims nothing |
| TtsInvariants.SpeakHeldFrame | android/src/main/kotlin/com/tundralabs/fluttertts/FlutterTtsPlugin.kt:303-313 | holding the speak result claims only the new result |
| TtsInvariants.SpeakAnsweredFrame | android/src/main/kotlin/com/tundralabs/fluttertts/FlutterTtsPlugin.kt:303-316 | answering the speak call with 1 claims only the new result |
| TtsInvariants.SpeakAndReplyFrame | android/src/main/kotlin/com/tundralabs/fluttertts/FlutterTtsPlugin.kt:296-316 | the speak reply claims only the new result or parks this call, and keeps the pause state |
| TtsInvariants.SynthesisResultFrame | android/src/main/kotlin/com/tundralabs/fluttertts/FlutterTtsPlugin.kt:335-342 | stopping a running synthesis and holding or answering the new one claims only the new result |
| TtsInvariants.SynthesizeFrame | android/src/main/kotlin/com/tundralabs/fluttertts/FlutterTtsPlugin.kt:334-346 | "synthesizeToFile" claims only the new result |
| TtsInvariants.PauseFrame | android/src/main/kotlin/com/tundralabs/fluttertts/FlutterTtsPlugin.kt:348-355 | "pause" claims only the new result and keeps the pause text a tail of the current text |
| TtsInvariants.StopFrame | android/src/main/kotlin/com/tundralabs/fluttertts/FlutterTtsPlugin.kt:357-361 | "stop" claims only the new result |
| TtsInvariants.SetEngineFrame | android/src/main/kotlin/com/tundralabs/fluttertts/FlutterTtsPlugin.kt:364-367 | "setEngine" claims only the new result |
| TtsInvariants.OptionBranchesFrame | android/src/main/kotlin/com/tundralabs/fluttertts/FlutterTtsPlugin.kt:319-432 | the option setters claim at most the new result |
| TtsInvariants.QueryBranchesFrame | android/src/main/kotlin/com/tundralabs/fluttertts/FlutterTtsPlugin.kt:392-434 | the queries claim only the new result |
| TtsInvariants.DeferFrame | android/src/main/kotlin/com/tundralabs/fluttertts/FlutterTtsPlugin.kt:267-277 | deferring parks exactly this call and claims nothing |
| TtsInvariants.SelectTextClaims | android/src/main/kotlin/com/tundralabs/fluttertts/FlutterTtsPlugin.kt:280-295 | the pause bookkeeping claims nothing and keeps the queue |
| TtsInvariants.DispatchSpeakFrame | android/src/main/kotlin/com/tundralabs/fluttertts/FlutterTtsPlugin.kt:280-316 | the "speak" branch claims only the new result or parks it, and keeps the pause text a tail |
| TtsInvariants.DispatchFrame | android/src/main/kotlin/com/tundralabs/fluttertts/FlutterTtsPlugin.kt:265-436 | every dispatched call either claims at most its own result or parks it, and keeps the pause text a tail of the current text |
| TtsInvariants.FinishInitFrame | android/src/main/kotlin/com/tundralabs/fluttertts/FlutterTtsPlugin.kt:124-132 | the code after the drain keeps the answered-or-held set and the queue |
| TtsInvariants.OnProgressFrame | android/src/main/kotlin/com/tundralabs/fluttertts/FlutterTtsPlugin.kt:192-202 | progress reports change no held or answered result |
| TtsInvariants.OnStartFrame | android/src/main/kotlin/com/tundralabs/fluttertts/FlutterTtsPlugin.kt:139-154 | `onStart` changes no held or answered result |
| TtsInvariants.OnRangeStartFrame | android/src/main/kotlin/com/tundralabs/fluttertts/FlutterTtsPlugin.kt:205-211 | `onRangeStart` changes no held or answered result |
| TtsInvariants.OnDoneSynthFrame | android/src/main/kotlin/com/tundralabs/fluttertts/FlutterTtsPlugin.kt:156-172 | `onDone` for `STF_` ids keeps the answered-or-held set |
| TtsInvariants.OnDoneSpeakFrame | android/src/main/kotlin/com/tundralabs/fluttertts/FlutterTtsPlugin.kt:156-172 | `onDone` for speak ids keeps the answered-or-held set |
| TtsInvariants.OnDoneFrame | android/src/main/kotlin/com/tundralabs/fluttertts/FlutterTtsPlugin.kt:156-172 | `onDone` keeps the answered-or-held set, the queue and the pause invariant |
| TtsInvariants.OnStopFrame | android/src/main/kotlin/com/tundralabs/fluttertts/FlutterTtsPlugin.kt:174-190 | `onStop` keeps them |
| TtsInvariants.OnErrorSynthFrame | android/src/main/kotlin/com/tundralabs/fluttertts/FlutterTtsPlugin.kt:214-232 | errors on `STF_` ids keep them |
| TtsInvariants.OnErrorSpeakFrame | android/src/main/kotlin/com/tundralabs/fluttertts/FlutterTtsPlugin.kt:214-232 | errors on other ids keep them |
| TtsInvariants.OnErrorFrame | android/src/main/kotlin/com/tundralabs/fluttertts/FlutterTtsPlugin.kt:214-232 | `onError` keeps them |
| TtsInvariants.DispatchKeepsAtMostOnce | android/src/main/kotlin/com/tundralabs/fluttertts/FlutterTtsPlugin.kt:265-436 | a call with a fresh result keeps every result answered or held at most once, and adds at most that result |
| TtsInvariants.DrainKeepsAtMostOnce | android/src/main/kotlin/com/tundralabs/fluttertts/FlutterTtsPlugin.kt:115-121 | replaying the parked calls keeps every result answered or held at most once |
| TtsInvariants.OnInitKeepsAtMostOnce | android/src/main/kotlin/com/tundralabs/fluttertts/FlutterTtsPlugin.kt:112-133 | `onInit` keeps every result answered or held at most once, and adds none |
| TtsInvariants.CallbackKeeps | android/src/main/kotlin/com/tundralabs/fluttertts/FlutterTtsPlugin.kt:139-232 | a callback that keeps the claims keeps the invariants |
| TtsInvariants.AtMostOnceNotAnswered | android/src/main/kotlin/com/tundralabs/fluttertts/FlutterTtsPlugin.kt:235-257 | a held or parked result has not been answered yet |
| TtsInvariants.AtMostOnceNoDoubleAnswer | android/src/main/kotlin/com/tundralabs/fluttertts/FlutterTtsPlugin.kt:235-257 | no result appears twice among the answers |
| TtsInvariants.NextKeepsInvariants | android/src/main/kotlin/com/tundralabs/fluttertts/FlutterTtsPlugin.kt:112-232 | every method call and engine callback keeps the invariants |
| TtsInvariants.SetEngineBeforeInitThrows | android/src/main/kotlin/com/tundralabs/fluttertts/FlutterTtsPlugin.kt:112-121 | a fresh plugin given `setEngine` and then any call before its first status throws in that `onInit`, leaving the second call parked twice, so the at-most-once invariant fails in the state the throw leaves |
| TtsInvariants.RunKeepsInvariants | android/src/main/kotlin/com/tundralabs/fluttertts/FlutterTtsPlugin.kt:112-436 | every run keeps the invariants |
| TtsInvariants.NoResultAnsweredTwice | android/src/main/kotlin/com/tundralabs/fluttertts/FlutterTtsPlugin.kt:235-257 | in every run from a fresh plugin, no `Result` is answered twice, none is answered while held as a speak, synth or engine result, and the pause text is a tail of the current text |

Proof steps used by the lemmas above, stated with their own contracts:

- `TtsSpec.DrainStep`: one iteration of the drain loop: a throw ends it, a changed list size makes the next step throw, otherwise the loop goes on
- `TtsProperties.CountCreatesAppend`: the number of engine creations in a log adds up over concatenation
- `TtsProperties.HelpersKeepControl`: stop, dispose and init leave the queue alone; stop keeps status and initialisation flag; init marks initialisation
- `TtsProperties.SuffixOfSuffix`: a suffix of a tail is a tail
- `TtsInvariants.ClaimedWhenAnswered`: answering a non-held result adds exactly that result to the answered-or-held set
- `TtsInvariants.ClaimedWhenStopped`: stopping moves held results to answered without adding any
- `TtsInvariants.ClaimedWhenSpeakAnswered`: completing a held speak result adds no new claim
- `TtsInvariants.ClaimedWhenSynthAnswered`: completing a held synth result adds no new claim
- `TtsInvariants.ClaimedWhenEngineAnswered`: completing a held engine result adds no new claim

## Left out

- The `TextToSpeech` engine itself is an oracle. Its calls are recorded, not simulated: speak, silence, synthesize to file, stop, shutdown and the listener.
- Pass-through queries (voices, languages, engines, rate range, `getMaxSpeechInputLength`, `isLanguageAvailable`, ...) collapse into `EngineQuery`, which answers with opaque engine data. The null-pointer exceptions thrown by `tts!!` inside those getters are not modelled.
- Setters that only forward to the engine (rate, volume, pitch, language, voice) are not modelled. Their float handling (the `* 2.0f` rate mapping, the volume and pitch range checks) is out too.
- Argument parsing (`toInt`, `toFloat`, `parseBoolean`, `text!!`, `fileName!!`) is not modelled: calls arrive already decoded.
- The reflection probe `ismServiceConnectionUsable` is not modelled; its answer is the oracle's `connectionUsable`.
- `UUID.randomUUID()` becomes the oracle's `uuid`; `IsUuid` only states the format.
- `Handler.post` and the `synchronized` blocks are out: completions and `invokeMethod` run at once and in order.
- Texts are sequences of Unicode code points, and the engine's `startAt`/`endAt` and `lastProgress` are read as offsets into them. Kotlin's `substring` counts UTF-16 code units, so texts with characters outside the Basic Multilingual Plane (emoji, for example) are not modelled: offsets into them, and cuts through a surrogate pair, differ from the source.
- TtsSpec.Synthesize: models the posted completions as running at once. In the source, `stop()` inside "synthesizeToFile" posts `synthCompletion(0)` to the main thread, and that block runs only after the new result has been stored. So during a synthesis with `awaitSynthCompletion` set, the source answers the NEW call with 0 and never answers the old one. The model answers the old result with 0 and holds the new one. The same holds for two such calls replayed by the drain.
- `onInit` always arrives as a callback of its own. An engine that calls it from inside its constructor is not modelled.
- The file and path handling of `synthesizeToFile` and the logging of its result code are not modelled.
- Plugin attach and detach, the `MethodChannel` wiring and its null check are out. So is the `bundle` that `initInstance` sets, and the error reply the channel sends after `onMethodCall` throws.
- The invariants follow a run only up to its first handler that throws; the channel's recovery after an exception is not modelled. This case arises from ordinary input: `setEngine` followed by any other call before the engine first reports its status makes that `onInit` throw a ConcurrentModificationException. At that point the second call is parked twice and the `setEngine` result is never answered (`TtsInvariants.SetEngineBeforeInitThrows`). So the at-most-once result holds for every handled prefix of a run, not for the state a throw leaves.
- Logging is not modelled, and neither is the `interrupted` flag of `onStop`, which only goes to the log.
