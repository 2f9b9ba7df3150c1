/** The plugin's state machine as pure functions over a snapshot of its fields.
    Each function follows one function of FlutterTtsPlugin.kt; the class in
    plugin.dfy is proved to change its fields exactly as these functions say. */
module TtsSpec {
  import opened TtsTypes

  /** The fields of FlutterTtsPlugin, plus what it has sent out so far: the answers
      given to `Result` objects, the events sent to Dart and the engine calls made.
      `hasTts` stands for `tts != null`. */
  datatype PluginState = PluginState(
    speakResult: Option<ResultId>,
    synthResult: Option<ResultId>,
    engineResult: Option<ResultId>,
    awaitSpeakCompletion: bool,
    awaitSynthCompletion: bool,
    hasTts: bool,
    pendingMethodCalls: seq<PendingCall>,
    utterances: map<string, string>,
    silencems: int,
    lastProgress: int,
    currentEngine: Option<string>,
    currentText: Option<string>,
    pauseText: Option<string>,
    isPaused: bool,
    queueMode: int,
    ttsStatus: Option<int>,
    isInitializing: bool,
    replies: seq<Reply>,
    events: seq<Event>,
    engineCalls: seq<EngineCall>)

  /** The new state after a handler, and whether the handler threw. */
  datatype Step = Step(state: PluginState, outcome: Outcome)

  /** The state of a freshly attached plugin. */
  function Initial(): PluginState {
    PluginState(None, None, None, false, false, false, [], map[], 0, 0, None, None, None,
                false, QUEUE_FLUSH, None, false, [], [], [])
  }

  predicate Speaking(s: PluginState) { s.speakResult.Some? }
  predicate Synthesizing(s: PluginState) { s.synthResult.Some? }

  function Respond(s: PluginState, r: ResultId, a: Answer): PluginState {
    s.(replies := s.replies + [Reply(r, a)])
  }

  function Emit(s: PluginState, name: string, arg: EventArg): PluginState {
    s.(events := s.events + [Event(name, arg)])
  }

  function Command(s: PluginState, c: EngineCall): PluginState {
    s.(engineCalls := s.engineCalls + [c])
  }

  /** The answer list for a held result: one reply if the field is set. */
  function AnswerHeld(held: Option<ResultId>, a: Answer): seq<Reply> {
    if held.Some? then [Reply(held.value, a)] else []
  }

  /** `speakCompletion`: answer the held speak result, then forget it. */
  function SpeakCompletion(s: PluginState, success: int): PluginState {
    s.(replies := s.replies + AnswerHeld(s.speakResult, Success(success)), speakResult := None)
  }

  /** `synthCompletion` */
  function SynthCompletion(s: PluginState, success: int): PluginState {
    s.(replies := s.replies + AnswerHeld(s.synthResult, Success(success)), synthResult := None)
  }

  /** `engineCompletion`: an error message turns the answer into an "EngineError". */
  function EngineCompletion(s: PluginState, success: int, error: Option<string>): PluginState {
    var answer := if error.Some? then EngineError("EngineError", error.value) else Success(success);
    s.(replies := s.replies + AnswerHeld(s.engineResult, answer), engineResult := None)
  }

  /** The private `stop()`: stop the engine (`tts?.stop()`), answer the held speak
      and synth results with 0. The guards `if (speaking)` and `if (synthesizing)`
      are built into the completions, which do nothing when no result is held. */
  function StopTts(s: PluginState): PluginState {
    s.(engineCalls := s.engineCalls + (if s.hasTts then [StopEngine] else []),
       replies := s.replies + AnswerHeld(s.speakResult, Success(0)) + AnswerHeld(s.synthResult, Success(0)),
       speakResult := None, synthResult := None)
  }

  /** `disposeTextToSpeech`: forget the status and the pause state, `stop()`, shut the engine down. */
  function Dispose(s: PluginState): PluginState {
    var s1 := StopTts(s.(ttsStatus := None, isPaused := false, pauseText := None));
    s1.(hasTts := false, engineCalls := s1.engineCalls + (if s.hasTts then [ShutdownEngine] else []))
  }

  /** `initTextToSpeech`: dispose of an engine that exists, create a new one; its
      `onInit` answer arrives later, as its own event. */
  function InitTts(s: PluginState): PluginState {
    var s1 := if s.hasTts then Dispose(s) else s;
    s1.(isInitializing := true, hasTts := true,
        engineCalls := s1.engineCalls + [CreateEngine(s.currentEngine)])
  }

  datatype Spoken = Spoken(state: PluginState, accepted: bool)

  /** The private `speak(text)`: record the utterance under a fresh UUID and hand it
      to the engine, or start a new engine when the service connection is unusable. */
  function SpeakUtterance(s: PluginState, text: string, o: Oracle): Spoken {
    var s1 := s.(utterances := s.utterances[o.uuid := text]);
    if s1.hasTts && o.connectionUsable then
      if s1.silencems > 0 then
        var s2 := Command(s1, PlaySilence(s1.silencems, QUEUE_FLUSH, SILENCE_PREFIX + o.uuid));
        Spoken(Command(s2, SpeakText(text, QUEUE_ADD, o.uuid)), o.speakStatus == SUCCESS)
      else
        Spoken(Command(s1, SpeakText(text, s1.queueMode, o.uuid)), o.speakStatus == SUCCESS)
    else
      Spoken(InitTts(s1), false)
  }

  datatype Selected = Selected(state: PluginState, text: string)

  /** The pause bookkeeping at the head of the "speak" branch: which text is spoken. */
  function SelectText(s: PluginState, text: string): (r: Selected)
    ensures s.pauseText.None? && !s.isPaused ==>
              r.state == s.(pauseText := Some(text), currentText := Some(text)) && r.text == text
    ensures s.isPaused && (s.pauseText.None? || s.currentText == Some(text)) ==>
              r.state.pauseText.Some? && r.text == r.state.pauseText.value &&
              r.state.currentText == Some(text) && r.state.lastProgress == s.lastProgress
    ensures s.isPaused && s.pauseText.Some? && s.currentText != Some(text) ==>
              r.state == s.(pauseText := Some(text), currentText := Some(text), lastProgress := 0) &&
              r.text == text
    ensures !s.isPaused && s.pauseText.Some? ==> r == Selected(s, text)
    ensures s.isPaused && s.pauseText.Some? && s.currentText == Some(text) ==>
              r == Selected(s, s.pauseText.value)
    ensures s.isPaused && s.pauseText.None? ==>
              r == Selected(s.(pauseText := Some(text), currentText := Some(text)), text)
  {
    var s1 := if s.pauseText.None? then s.(pauseText := Some(text), currentText := Some(text)) else s;
    if s1.isPaused then
      if s1.currentText == Some(text) then Selected(s1, s1.pauseText.value)
      else Selected(s1.(pauseText := Some(text), currentText := Some(text), lastProgress := 0), text)
    else Selected(s1, text)
  }

  /** The rest of the "speak" branch, speaking `spoken` for the call `Speak(text)`:
      in QUEUE_FLUSH mode a held speak result refuses the call with 0; an engine that
      refuses the utterance gets the call parked again; otherwise the result is held
      (awaitSpeakCompletion in QUEUE_FLUSH mode) or answered with 1. */
  function SpeakAndReply(s: PluginState, text: string, spoken: string, r: ResultId, o: Oracle): PluginState {
    if Speaking(s) && s.queueMode == QUEUE_FLUSH then Respond(s, r, Success(0))
    else
      var sp := SpeakUtterance(s, spoken, o);
      if !sp.accepted then
        sp.state.(pendingMethodCalls := sp.state.pendingMethodCalls + [PendingCall(Speak(text), r)])
      else if sp.state.awaitSpeakCompletion && sp.state.queueMode == QUEUE_FLUSH then
        sp.state.(speakResult := Some(r))
      else Respond(sp.state, r, Success(1))
  }

  /** The "speak" branch of `onMethodCall`, once the engine has a status. */
  function DispatchSpeak(s: PluginState, text: string, r: ResultId, o: Oracle): PluginState {
    var sel := SelectText(s, text);
    SpeakAndReply(sel.state, text, sel.text, r, o)
  }

  /** The "synthesizeToFile" branch: a running synthesis is stopped first, the
      result is held or answered, then `tts!!.synthesizeToFile` is called. */
  function Synthesize(s: PluginState, text: string, fileName: string, r: ResultId, o: Oracle): Step {
    var s1 := if Synthesizing(s) then StopTts(s) else s;
    var s2 := if s1.awaitSynthCompletion then s1.(synthResult := Some(r)) else Respond(s1, r, Success(1));
    if !s2.hasTts then Step(s2, Thrown(NullPointer))
    else Step(Command(s2, SynthesizeFile(text, fileName, SYNTHESIZE_TO_FILE_PREFIX + o.uuid)), Normal)
  }

  /** The "pause" branch: `pauseText!!.substring(lastProgress)` throws when
      `lastProgress` lies outside the remembered text. */
  function PauseCall(s: PluginState, r: ResultId): Step {
    var s1 := s.(isPaused := true);
    if s1.pauseText.Some? && !(0 <= s1.lastProgress <= |s1.pauseText.value|) then
      Step(s1, Thrown(StringIndexOutOfBounds))
    else
      var s2 := if s1.pauseText.Some? then s1.(pauseText := Some(s1.pauseText.value[s1.lastProgress..])) else s1;
      Step(Respond(StopTts(s2), r, Success(1)), Normal)
  }

  /** The "stop" branch. */
  function StopCall(s: PluginState, r: ResultId): PluginState {
    Respond(StopTts(s).(lastProgress := 0), r, Success(1))
  }

  /** The "setEngine" branch (`setEngine(engine, result)`). */
  function SetEngineCall(s: PluginState, e: string, r: ResultId): PluginState {
    InitTts(s.(currentEngine := Some(e), engineResult := Some(r)))
  }

  /** `onMethodCall` once `ttsStatus` is set: the `when (call.method)` branches. */
  function Handle(s: PluginState, c: MethodCall, r: ResultId, o: Oracle): Step {
    match c
    case Speak(text) => Step(DispatchSpeak(s, text, r, o), Normal)
    case AwaitSpeakCompletion(b) => Step(Respond(s.(awaitSpeakCompletion := b), r, Success(1)), Normal)
    case AwaitSynthCompletion(b) => Step(Respond(s.(awaitSynthCompletion := b), r, Success(1)), Normal)
    case SynthesizeToFile(text, fileName) => Synthesize(s, text, fileName, r, o)
    case Pause => PauseCall(s, r)
    case Stop => Step(StopCall(s, r), Normal)
    case SetEngine(e) => Step(SetEngineCall(s, e, r), Normal)
    case SetQueueMode(m) => Step(Respond(s.(queueMode := m), r, Success(1)), Normal)
    case SetSilence(ms) => Step(s.(silencems := ms), Normal)
    case SetSharedInstance => Step(Respond(s, r, Success(1)), Normal)
    case GetCurrentEngine =>
      if s.currentEngine.Some? then Step(Respond(s, r, SuccessText(s.currentEngine.value)), Normal)
      else Step(Respond(s, r, EngineData("getDefaultEngine")), Normal)
    case EngineQuery(m) => Step(Respond(s, r, EngineData(m)), Normal)
    case Unknown(_) => Step(Respond(s, r, NotImplemented), Normal)
  }

  /** The deferral at the head of `onMethodCall`: the call is parked, and the engine
      is created unless that has already been started. */
  function Defer(s: PluginState, c: MethodCall, r: ResultId): PluginState {
    var s1 := if !s.isInitializing then InitTts(s) else s;
    s1.(pendingMethodCalls := s1.pendingMethodCalls + [PendingCall(c, r)])
  }

  /** `onMethodCall` */
  function Dispatch(s: PluginState, c: MethodCall, r: ResultId, o: Oracle): Step {
    if s.ttsStatus.None? then Step(Defer(s, c, r), Normal) else Handle(s, c, r, o)
  }

  /** The `for (call in pendingMethodCalls)` loop from position `i` on. The list's
      iterator is fail-fast: once a replayed call has added to the list, the next
      step of the iteration throws ConcurrentModificationException. A normal
      end clears the list. */
  function Drain(s: PluginState, n: nat, oracles: seq<Oracle>, i: nat): Step
    requires i <= n == |s.pendingMethodCalls| <= |oracles|
    decreases n - i
  {
    if i == n then Step(s.(pendingMethodCalls := []), Normal)
    else
      var p := s.pendingMethodCalls[i];
      var st := Dispatch(s, p.call, p.result, oracles[i]);
      if st.outcome.Thrown? then st
      else if |st.state.pendingMethodCalls| != n then Step(st.state, Thrown(ConcurrentModification))
      else Drain(st.state, n, oracles, i + 1)
  }

  /** One step of the loop, stated once so that callers need not unfold Dispatch. */
  lemma DrainStep(s: PluginState, n: nat, oracles: seq<Oracle>, i: nat, st: Step)
    requires i < n == |s.pendingMethodCalls| <= |oracles|
    requires st == Dispatch(s, s.pendingMethodCalls[i].call, s.pendingMethodCalls[i].result, oracles[i])
    ensures st.outcome.Thrown? ==> Drain(s, n, oracles, i) == st
    ensures st.outcome.Normal? && |st.state.pendingMethodCalls| != n ==>
              Drain(s, n, oracles, i) == Step(st.state, Thrown(ConcurrentModification))
    ensures st.outcome.Normal? && |st.state.pendingMethodCalls| == n ==>
              Drain(s, n, oracles, i) == Drain(st.state, n, oracles, i + 1)
  {
  }

  /** The part of `onInitListener` after the drain. */
  function FinishInit(s: PluginState, status: int): PluginState {
    if status == SUCCESS && s.hasTts then EngineCompletion(Command(s, SetProgressListener), 1, None)
    else EngineCompletion(s, 0, Some("Failed to initialize TextToSpeech with status: " + IntToString(status)))
  }

  /** `onInitListener`: record the status, replay the parked calls in order, empty the
      queue and answer a pending `setEngine`. `oracles[i]` decides for the i-th call. */
  function OnInit(s: PluginState, status: int, oracles: seq<Oracle>): Step
    requires |oracles| == |s.pendingMethodCalls|
  {
    var s1 := s.(ttsStatus := Some(status), isInitializing := false);
    var d := Drain(s1, |s1.pendingMethodCalls|, oracles, 0);
    if d.outcome.Thrown? then d else Step(FinishInit(d.state, status), Normal)
  }

  /** The private `onProgress`: `text!!.substring(startAt, endAt)` throws on an
      unknown id or a range outside the text. */
  function OnProgress(s: PluginState, id: string, startAt: int, endAt: int): Step {
    if StartsWith(id, SYNTHESIZE_TO_FILE_PREFIX) then Step(s, Normal)
    else if id !in s.utterances then Step(s, Thrown(NullPointer))
    else
      var text := s.utterances[id];
      if !(0 <= startAt <= endAt <= |text|) then Step(s, Thrown(StringIndexOutOfBounds))
      else Step(Emit(s, "speak.onProgress",
                     Progress(text, IntToString(startAt), IntToString(endAt), text[startAt..endAt])), Normal)
  }

  /** `onStart`; below SDK 26 it also reports progress over the whole utterance,
      reading `utterances[utteranceId]!!` first. */
  function OnStart(s: PluginState, sdk: int, id: string): Step {
    var s1 :=
      if StartsWith(id, SYNTHESIZE_TO_FILE_PREFIX) then Emit(s, "synth.onStart", Flag(true))
      else if s.isPaused then Emit(s, "speak.onContinue", Flag(true)).(isPaused := false)
      else Emit(s, "speak.onStart", Flag(true));
    if sdk < SDK_O then
      if id !in s1.utterances then Step(s1, Thrown(NullPointer))
      else OnProgress(s1, id, 0, |s1.utterances[id]|)
    else Step(s1, Normal)
  }

  /** `onDone` */
  function OnDone(s: PluginState, id: string): PluginState {
    if StartsWith(id, SILENCE_PREFIX) then s
    else
      var s1 :=
        if StartsWith(id, SYNTHESIZE_TO_FILE_PREFIX) then
          Emit(if Synthesizing(s) then SynthCompletion(s, 1) else s, "synth.onComplete", Flag(true))
        else
          Emit(if Speaking(s) && s.queueMode == QUEUE_FLUSH then SpeakCompletion(s, 1) else s,
               "speak.onComplete", Flag(true));
      s1.(lastProgress := 0, pauseText := None, utterances := s1.utterances - {id})
  }

  /** `onStop`; `interrupted` only goes to the log. */
  function OnStop(s: PluginState, id: string, interrupted: bool): PluginState {
    var s1 := if Synthesizing(s) then SynthCompletion(s, 0) else s;
    var s2 := if Speaking(s1) then SpeakCompletion(s1, 0) else s1;
    if s2.isPaused then Emit(s2, "speak.onPause", Flag(true)) else Emit(s2, "speak.onCancel", Flag(true))
  }

  /** `onRangeStart` */
  function OnRangeStart(s: PluginState, id: string, startAt: int, endAt: int): Step {
    if StartsWith(id, SYNTHESIZE_TO_FILE_PREFIX) then Step(s, Normal)
    else OnProgress(s.(lastProgress := startAt), id, startAt, endAt)
  }

  /** Both `onError` overloads; `errorCode` is None for the deprecated one. */
  function OnError(s: PluginState, id: string, errorCode: Option<int>): PluginState {
    var suffix := if errorCode.Some? then " - " + IntToString(errorCode.value) else "";
    if StartsWith(id, SYNTHESIZE_TO_FILE_PREFIX) then
      var s1 := if Synthesizing(s) then SynthCompletion(s, 0) else s;
      Emit(s1, "synth.onError", Message("Error from TextToSpeech (synth)" + suffix))
    else
      var s1 := if Speaking(s) then SpeakCompletion(s, 0) else s;
      Emit(s1, "speak.onError", Message("Error from TextToSpeech (speak)" + suffix))
  }
}
