/** FlutterTtsPlugin as a class: its fields, its handlers for channel calls and
    engine callbacks, and the private helpers they share. Engine callbacks and
    `handler.post` blocks run as ordinary sequential calls. Every method is proved
    to change the fields exactly as the matching function of TtsSpec says. */
module FlutterTts {
  import opened TtsTypes
  import TtsSpec

  class FlutterTtsPlugin {
    /** Build.VERSION.SDK_INT of the device. */
    const sdkInt: int

    var speakResult: Option<ResultId>
    var synthResult: Option<ResultId>
    var engineResult: Option<ResultId>
    var awaitSpeakCompletion: bool
    var awaitSynthCompletion: bool
    /** `tts != null` */
    var hasTts: bool
    var pendingMethodCalls: seq<PendingCall>
    var utterances: map<string, string>
    var silencems: int
    var lastProgress: int
    var currentEngine: Option<string>
    var currentText: Option<string>
    var pauseText: Option<string>
    var isPaused: bool
    var queueMode: int
    var ttsStatus: Option<int>
    var isInitializing: bool
    /** What has gone out: answers to `Result`s, events to Dart, calls on the engine. */
    var replies: seq<Reply>
    var events: seq<Event>
    var engineCalls: seq<EngineCall>

    function Abs(): TtsSpec.PluginState
      reads this
    {
      TtsSpec.PluginState(speakResult, synthResult, engineResult, awaitSpeakCompletion,
                          awaitSynthCompletion, hasTts, pendingMethodCalls, utterances, silencems,
                          lastProgress, currentEngine, currentText, pauseText, isPaused, queueMode,
                          ttsStatus, isInitializing, replies, events, engineCalls)
    }

    constructor (sdk: int)
      ensures Abs() == TtsSpec.Initial() && sdkInt == sdk
    {
      sdkInt := sdk;
      speakResult, synthResult, engineResult := None, None, None;
      awaitSpeakCompletion, awaitSynthCompletion := false, false;
      hasTts := false;
      pendingMethodCalls := [];
      utterances := map[];
      silencems, lastProgress := 0, 0;
      currentEngine, currentText, pauseText := None, None, None;
      isPaused := false;
      queueMode := QUEUE_FLUSH;
      ttsStatus := None;
      isInitializing := false;
      replies, events, engineCalls := [], [], [];
    }

    method Respond(result: ResultId, answer: Answer)
      modifies this
      ensures Abs() == TtsSpec.Respond(old(Abs()), result, answer)
    {
      replies := replies + [Reply(result, answer)];
    }

    method InvokeMethod(name: string, arg: EventArg)
      modifies this
      ensures Abs() == TtsSpec.Emit(old(Abs()), name, arg)
    {
      events := events + [Event(name, arg)];
    }

    method Command(c: EngineCall)
      modifies this
      ensures Abs() == TtsSpec.Command(old(Abs()), c)
    {
      engineCalls := engineCalls + [c];
    }

    method SpeakCompletion(success: int)
      modifies this
      ensures Abs() == TtsSpec.SpeakCompletion(old(Abs()), success)
    {
      if speakResult.Some? {
        Respond(speakResult.value, Success(success));
      }
      speakResult := None;
    }

    method SynthCompletion(success: int)
      modifies this
      ensures Abs() == TtsSpec.SynthCompletion(old(Abs()), success)
    {
      if synthResult.Some? {
        Respond(synthResult.value, Success(success));
      }
      synthResult := None;
    }

    method EngineCompletion(success: int, error: Option<string>)
      modifies this
      ensures Abs() == TtsSpec.EngineCompletion(old(Abs()), success, error)
    {
      if engineResult.Some? {
        if error.Some? {
          Respond(engineResult.value, EngineError("EngineError", error.value));
        } else {
          Respond(engineResult.value, Success(success));
        }
        engineResult := None;
      }
    }

    /** The private `stop()`. */
    method Stop()
      modifies this
      ensures Abs() == TtsSpec.StopTts(old(Abs()))
    {
      if hasTts {
        Command(StopEngine);
      }
      if speakResult.Some? {
        SpeakCompletion(0);
      }
      if synthResult.Some? {
        SynthCompletion(0);
      }
    }

    /** `tts?.shutdown(); tts = null` */
    method ShutdownTts()
      modifies this
      ensures Abs() == old(Abs()).(hasTts := false,
                                   engineCalls := old(engineCalls) + (if old(hasTts) then [ShutdownEngine] else []))
    {
      if hasTts {
        Command(ShutdownEngine);
      } else {
        assert engineCalls + [] == engineCalls;
      }
      hasTts := false;
    }

    method DisposeTextToSpeech()
      modifies this
      ensures Abs() == TtsSpec.Dispose(old(Abs()))
    {
      ghost var s0 := old(Abs()).(ttsStatus := None, isPaused := false, pauseText := None);
      ttsStatus := None;
      isPaused := false;
      pauseText := None;
      assert Abs() == s0;
      Stop();
      ShutdownTts();
    }

    method InitTextToSpeech()
      modifies this
      ensures Abs() == TtsSpec.InitTts(old(Abs()))
    {
      isInitializing := true;
      if hasTts {
        DisposeTextToSpeech();
      }
      Command(CreateEngine(currentEngine));
      hasTts := true;
    }

    /** The private `speak(text)`. */
    method Speak(text: string, o: Oracle) returns (accepted: bool)
      modifies this
      ensures TtsSpec.SpeakUtterance(old(Abs()), text, o) == TtsSpec.Spoken(Abs(), accepted)
    {
      utterances := utterances[o.uuid := text];
      if hasTts && o.connectionUsable {
        if silencems > 0 {
          Command(PlaySilence(silencems, QUEUE_FLUSH, SILENCE_PREFIX + o.uuid));
          Command(SpeakText(text, QUEUE_ADD, o.uuid));
        } else {
          Command(SpeakText(text, queueMode, o.uuid));
        }
        accepted := o.speakStatus == SUCCESS;
      } else {
        InitTextToSpeech();
        accepted := false;
      }
    }

    /** The "speak" branch of `onMethodCall`. */
    method HandleSpeak(call: MethodCall, result: ResultId, o: Oracle)
      requires call.Speak?
      modifies this
      ensures Abs() == TtsSpec.DispatchSpeak(old(Abs()), call.text, result, o)
    {
      var text := call.text;
      if pauseText.None? {
        pauseText := Some(text);
        currentText := pauseText;
      }
      if isPaused {
        if currentText == Some(text) {
          text := pauseText.value;
        } else {
          pauseText := Some(text);
          currentText := pauseText;
          lastProgress := 0;
        }
      }
      assert TtsSpec.SelectText(old(Abs()), call.text) == TtsSpec.Selected(Abs(), text);
      SpeakAndReply(call, result, text, o);
    }

    /** The "speak" branch after the text is chosen: `call` is parked again if the
        engine refuses `text`. */
    method SpeakAndReply(call: MethodCall, result: ResultId, text: string, o: Oracle)
      requires call.Speak?
      modifies this
      ensures Abs() == TtsSpec.SpeakAndReply(old(Abs()), call.text, text, result, o)
    {
      if speakResult.Some? && queueMode == QUEUE_FLUSH {
        Respond(result, Success(0));
        return;
      }
      var b := Speak(text, o);
      if !b {
        pendingMethodCalls := pendingMethodCalls + [PendingCall(call, result)];
        return;
      }
      if awaitSpeakCompletion && queueMode == QUEUE_FLUSH {
        speakResult := Some(result);
      } else {
        Respond(result, Success(1));
      }
    }

    /** The head of `onMethodCall` while `ttsStatus == null`. */
    method DeferCall(call: MethodCall, result: ResultId)
      modifies this
      ensures Abs() == TtsSpec.Defer(old(Abs()), call, result)
    {
      if !isInitializing {
        InitTextToSpeech();
      }
      pendingMethodCalls := pendingMethodCalls + [PendingCall(call, result)];
    }

    /** The "synthesizeToFile" branch of `onMethodCall`. */
    method HandleSynthesizeToFile(text: string, fileName: string, result: ResultId, o: Oracle)
      returns (outcome: Outcome)
      modifies this
      ensures TtsSpec.Synthesize(old(Abs()), text, fileName, result, o) == TtsSpec.Step(Abs(), outcome)
    {
      if synthResult.Some? {
        Stop();
      }
      if awaitSynthCompletion {
        synthResult := Some(result);
      } else {
        Respond(result, Success(1));
      }
      if !hasTts {
        outcome := Thrown(NullPointer);
        return;
      }
      Command(SynthesizeFile(text, fileName, SYNTHESIZE_TO_FILE_PREFIX + o.uuid));
      outcome := Normal;
    }

    /** The "pause" branch of `onMethodCall`. */
    method HandlePause(result: ResultId) returns (outcome: Outcome)
      modifies this
      ensures TtsSpec.PauseCall(old(Abs()), result) == TtsSpec.Step(Abs(), outcome)
    {
      isPaused := true;
      if pauseText.Some? {
        if !(0 <= lastProgress <= |pauseText.value|) {
          outcome := Thrown(StringIndexOutOfBounds);
          return;
        }
        pauseText := Some(pauseText.value[lastProgress..]);
      }
      Stop();
      Respond(result, Success(1));
      outcome := Normal;
    }

    /** The "stop" branch of `onMethodCall`. */
    method HandleStop(result: ResultId)
      modifies this
      ensures Abs() == TtsSpec.StopCall(old(Abs()), result)
    {
      Stop();
      lastProgress := 0;
      Respond(result, Success(1));
    }

    /** The private `setEngine(engine, result)`. */
    method SetEngine(engine: string, result: ResultId)
      modifies this
      ensures Abs() == TtsSpec.SetEngineCall(old(Abs()), engine, result)
    {
      currentEngine := Some(engine);
      engineResult := Some(result);
      assert Abs() == old(Abs()).(currentEngine := Some(engine), engineResult := Some(result));
      InitTextToSpeech();
    }

    method OnMethodCall(call: MethodCall, result: ResultId, o: Oracle) returns (outcome: Outcome)
      modifies this
      ensures TtsSpec.Dispatch(old(Abs()), call, result, o) == TtsSpec.Step(Abs(), outcome)
    {
      outcome := Normal;
      if ttsStatus.None? {
        DeferCall(call, result);
        return;
      }
      match call
      case Speak(_) =>
        HandleSpeak(call, result, o);
      case SynthesizeToFile(text, fileName) =>
        outcome := HandleSynthesizeToFile(text, fileName, result, o);
      case Pause =>
        outcome := HandlePause(result);
      case Stop =>
        HandleStop(result);
      case SetEngine(e) =>
        SetEngine(e, result);
      case AwaitSpeakCompletion(b) =>
        HandleAwaitSpeakCompletion(b, result);
      case AwaitSynthCompletion(b) =>
        HandleAwaitSynthCompletion(b, result);
      case SetQueueMode(m) =>
        HandleSetQueueMode(m, result);
      case SetSilence(ms) =>
        silencems := ms;
      case _ =>
        HandleQuery(call, result, o);
    }

    /** The "awaitSpeakCompletion" branch of `onMethodCall`. */
    method HandleAwaitSpeakCompletion(enabled: bool, result: ResultId)
      modifies this
      ensures Abs() == TtsSpec.Respond(old(Abs()).(awaitSpeakCompletion := enabled), result, Success(1))
    {
      awaitSpeakCompletion := enabled;
      Respond(result, Success(1));
    }

    /** The "awaitSynthCompletion" branch. */
    method HandleAwaitSynthCompletion(enabled: bool, result: ResultId)
      modifies this
      ensures Abs() == TtsSpec.Respond(old(Abs()).(awaitSynthCompletion := enabled), result, Success(1))
    {
      awaitSynthCompletion := enabled;
      Respond(result, Success(1));
    }

    /** The "setQueueMode" branch. */
    method HandleSetQueueMode(mode: int, result: ResultId)
      modifies this
      ensures Abs() == TtsSpec.Respond(old(Abs()).(queueMode := mode), result, Success(1))
    {
      queueMode := mode;
      Respond(result, Success(1));
    }

    /** The branches of `onMethodCall` that only answer. */
    method HandleQuery(call: MethodCall, result: ResultId, o: Oracle)
      requires call.SetSharedInstance? || call.GetCurrentEngine? || call.EngineQuery? || call.Unknown?
      modifies this
      ensures TtsSpec.Handle(old(Abs()), call, result, o) == TtsSpec.Step(Abs(), Normal)
    {
      match call
      case SetSharedInstance =>
        Respond(result, Success(1));
      case GetCurrentEngine =>
        if currentEngine.Some? {
          Respond(result, SuccessText(currentEngine.value));
        } else {
          Respond(result, EngineData("getDefaultEngine"));
        }
      case EngineQuery(m) =>
        Respond(result, EngineData(m));
      case Unknown(_) =>
        Respond(result, NotImplemented);
    }

    /** The `for (call in pendingMethodCalls)` loop of `onInitListener`, followed by
        `pendingMethodCalls.clear()`. */
    method RunPendingCalls(oracles: seq<Oracle>) returns (outcome: Outcome)
      requires |oracles| == |pendingMethodCalls|
      modifies this
      ensures TtsSpec.Drain(old(Abs()), |old(pendingMethodCalls)|, oracles, 0) == TtsSpec.Step(Abs(), outcome)
    {
      ghost var s0 := Abs();
      var n := |pendingMethodCalls|;
      var i := 0;
      while i < n
        invariant 0 <= i <= n == |pendingMethodCalls|
        invariant TtsSpec.Drain(s0, n, oracles, 0) == TtsSpec.Drain(Abs(), n, oracles, i)
      {
        var p := pendingMethodCalls[i];
        ghost var before := Abs();
        outcome := OnMethodCall(p.call, p.result, oracles[i]);
        TtsSpec.DrainStep(before, n, oracles, i, TtsSpec.Step(Abs(), outcome));
        if outcome.Thrown? {
          return;
        }
        if |pendingMethodCalls| != n {
          outcome := Thrown(ConcurrentModification);
          return;
        }
        i := i + 1;
      }
      pendingMethodCalls := [];
      outcome := Normal;
    }

    /** `onInitListener`; `oracles[i]` decides for the i-th parked call. */
    method OnInit(status: int, oracles: seq<Oracle>) returns (outcome: Outcome)
      requires |oracles| == |pendingMethodCalls|
      modifies this
      ensures TtsSpec.OnInit(old(Abs()), status, oracles) == TtsSpec.Step(Abs(), outcome)
    {
      ttsStatus := Some(status);
      isInitializing := false;
      ghost var s1 := Abs();
      assert s1 == old(Abs()).(ttsStatus := Some(status), isInitializing := false);
      outcome := RunPendingCalls(oracles);
      ghost var d := TtsSpec.Step(Abs(), outcome);
      assert d == TtsSpec.Drain(s1, |s1.pendingMethodCalls|, oracles, 0);
      if outcome.Thrown? {
        return;
      }
      FinishInit(status);
    }

    /** The end of `onInitListener`: install the progress listener on success, and
        answer a pending `setEngine`. */
    method FinishInit(status: int)
      modifies this
      ensures Abs() == TtsSpec.FinishInit(old(Abs()), status)
    {
      if status == SUCCESS && hasTts {
        Command(SetProgressListener);
        EngineCompletion(1, None);
      } else {
        EngineCompletion(0, Some("Failed to initialize TextToSpeech with status: " + IntToString(status)));
      }
    }

    /** The listener's private `onProgress`. */
    method OnProgress(id: string, startAt: int, endAt: int) returns (outcome: Outcome)
      modifies this
      ensures TtsSpec.OnProgress(old(Abs()), id, startAt, endAt) == TtsSpec.Step(Abs(), outcome)
    {
      outcome := Normal;
      if !StartsWith(id, SYNTHESIZE_TO_FILE_PREFIX) {
        if id !in utterances {
          outcome := Thrown(NullPointer);
          return;
        }
        var text := utterances[id];
        if !(0 <= startAt <= endAt <= |text|) {
          outcome := Thrown(StringIndexOutOfBounds);
          return;
        }
        InvokeMethod("speak.onProgress",
                     Progress(text, IntToString(startAt), IntToString(endAt), text[startAt..endAt]));
      }
    }

    method OnStart(id: string) returns (outcome: Outcome)
      modifies this
      ensures TtsSpec.OnStart(old(Abs()), sdkInt, id) == TtsSpec.Step(Abs(), outcome)
    {
      if StartsWith(id, SYNTHESIZE_TO_FILE_PREFIX) {
        InvokeMethod("synth.onStart", Flag(true));
      } else if isPaused {
        InvokeMethod("speak.onContinue", Flag(true));
        isPaused := false;
      } else {
        InvokeMethod("speak.onStart", Flag(true));
      }
      outcome := Normal;
      if sdkInt < SDK_O {
        if id !in utterances {
          outcome := Thrown(NullPointer);
          return;
        }
        outcome := OnProgress(id, 0, |utterances[id]|);
      }
    }

    method OnDone(id: string)
      modifies this
      ensures Abs() == TtsSpec.OnDone(old(Abs()), id)
    {
      if StartsWith(id, SILENCE_PREFIX) {
        return;
      }
      if StartsWith(id, SYNTHESIZE_TO_FILE_PREFIX) {
        if synthResult.Some? {
          SynthCompletion(1);
        }
        InvokeMethod("synth.onComplete", Flag(true));
      } else {
        if speakResult.Some? && queueMode == QUEUE_FLUSH {
          SpeakCompletion(1);
        }
        InvokeMethod("speak.onComplete", Flag(true));
      }
      ForgetUtterance(id);
    }

    /** The end of `onDone`: progress and pause text are reset, the utterance dropped. */
    method ForgetUtterance(id: string)
      modifies this
      ensures Abs() == old(Abs()).(lastProgress := 0, pauseText := None, utterances := old(utterances) - {id})
    {
      lastProgress := 0;
      pauseText := None;
      utterances := utterances - {id};
    }

    method OnStop(id: string, interrupted: bool)
      modifies this
      ensures Abs() == TtsSpec.OnStop(old(Abs()), id, interrupted)
    {
      if synthResult.Some? {
        SynthCompletion(0);
      }
      if speakResult.Some? {
        SpeakCompletion(0);
      }
      if isPaused {
        InvokeMethod("speak.onPause", Flag(true));
      } else {
        InvokeMethod("speak.onCancel", Flag(true));
      }
    }

    /** `onRangeStart`; `frame` is not used by the plugin. */
    method OnRangeStart(id: string, startAt: int, endAt: int, frame: int) returns (outcome: Outcome)
      modifies this
      ensures TtsSpec.OnRangeStart(old(Abs()), id, startAt, endAt) == TtsSpec.Step(Abs(), outcome)
    {
      outcome := Normal;
      if !StartsWith(id, SYNTHESIZE_TO_FILE_PREFIX) {
        lastProgress := startAt;
        outcome := OnProgress(id, startAt, endAt);
      }
    }

    /** Both `onError` overloads; `errorCode` is None for the deprecated one. */
    method OnError(id: string, errorCode: Option<int>)
      modifies this
      ensures Abs() == TtsSpec.OnError(old(Abs()), id, errorCode)
    {
      var suffix := if errorCode.Some? then " - " + IntToString(errorCode.value) else "";
      if StartsWith(id, SYNTHESIZE_TO_FILE_PREFIX) {
        if synthResult.Some? {
          SynthCompletion(0);
        }
        InvokeMethod("synth.onError", Message("Error from TextToSpeech (synth)" + suffix));
      } else {
        if speakResult.Some? {
          SpeakCompletion(0);
        }
        InvokeMethod("speak.onError", Message("Error from TextToSpeech (speak)" + suffix));
      }
    }
  }
}
