/** Properties of the plugin's state machine: deferral of calls before the engine
    is ready, the replay of parked calls, the pause emulation, the routing of
    utterance ids and the at-most-once answer of every Flutter `Result`. */
module TtsProperties {
  import opened TtsTypes
  import opened TtsSpec

  /* ---------------------------------------------------------------------------
     Counting engine creations
     --------------------------------------------------------------------------- */

  function CountCreates(cs: seq<EngineCall>): nat
    decreases |cs|
  {
    if cs == [] then 0
    else CountCreates(cs[..|cs| - 1]) + (if cs[|cs| - 1].CreateEngine? then 1 else 0)
  }

  lemma {:induction false} CountCreatesAppend(a: seq<EngineCall>, b: seq<EngineCall>)
    ensures CountCreates(a + b) == CountCreates(a) + CountCreates(b)
    decreases |b|
  {
    if b == [] {
      assert a + b == a;
    } else {
      var b' := b[..|b| - 1];
      assert (a + b)[..|a + b| - 1] == a + b';
      CountCreatesAppend(a, b');
    }
  }

  lemma InitTtsCreatesOne(s: PluginState)
    ensures CountCreates(InitTts(s).engineCalls) == CountCreates(s.engineCalls) + 1
  {
    var tail := (if s.hasTts then [StopEngine, ShutdownEngine] else []) + [CreateEngine(s.currentEngine)];
    assert InitTts(s).engineCalls == s.engineCalls + tail;
    CountCreatesAppend(s.engineCalls, tail);
    assert CountCreates(tail) == 1 by {
      if s.hasTts {
        assert tail[..2] == [StopEngine, ShutdownEngine];
        assert [StopEngine, ShutdownEngine][..1] == [StopEngine];
        assert [StopEngine][..0] == [];
      } else {
        assert tail[..0] == [];
      }
    }
  }

  /** The last call made on the engine is `c`. */
  predicate LastCall(cs: seq<EngineCall>, c: EngineCall) {
    |cs| > 0 && cs[|cs| - 1] == c
  }

  /* ---------------------------------------------------------------------------
     Deferral while the engine has no status
     --------------------------------------------------------------------------- */

  /** While `ttsStatus` is null a call is not dispatched: it is appended to the
      queue, nothing is sent to Dart, and the engine is created only when no
      initialisation is under way. */
  lemma DeferredWhileUninitialised(s: PluginState, c: MethodCall, r: ResultId, o: Oracle)
    requires s.ttsStatus.None?
    ensures var st := Dispatch(s, c, r, o);
      st.outcome == Normal &&
      st.state.pendingMethodCalls == s.pendingMethodCalls + [PendingCall(c, r)] &&
      st.state.ttsStatus.None? && st.state.isInitializing &&
      st.state.events == s.events &&
      CountCreates(st.state.engineCalls) == CountCreates(s.engineCalls) + (if s.isInitializing then 0 else 1) &&
      (!s.isInitializing ==> LastCall(st.state.engineCalls, CreateEngine(s.currentEngine)))
  {
    if !s.isInitializing {
      InitTtsCreatesOne(s);
    }
  }

  /** While an initialisation is under way, a call changes nothing but the queue. */
  lemma DeferredDuringInitialisation(s: PluginState, c: MethodCall, r: ResultId, o: Oracle)
    requires s.ttsStatus.None? && s.isInitializing
    ensures Dispatch(s, c, r, o) ==
      Step(s.(pendingMethodCalls := s.pendingMethodCalls + [PendingCall(c, r)]), Normal)
  {
  }

  /** A series of `onMethodCall` events with nothing in between. */
  function DeliverAll(s: PluginState, calls: seq<PendingCall>, o: Oracle): PluginState
    decreases |calls|
  {
    if calls == [] then s
    else DeliverAll(Dispatch(s, calls[0].call, calls[0].result, o).state, calls[1..], o)
  }

  /** However many calls arrive before the engine reports its status, they are all
      parked in arrival order and the engine is created at most once. */
  lemma {:induction false} InitStartedAtMostOnce(s: PluginState, calls: seq<PendingCall>, o: Oracle)
    requires s.ttsStatus.None?
    ensures var t := DeliverAll(s, calls, o);
      t.pendingMethodCalls == s.pendingMethodCalls + calls &&
      t.ttsStatus.None? && t.events == s.events &&
      CountCreates(t.engineCalls) ==
        CountCreates(s.engineCalls) + (if !s.isInitializing && calls != [] then 1 else 0) &&
      (calls != [] ==> t.isInitializing)
    decreases |calls|
  {
    if calls != [] {
      var c0 := calls[0];
      var rest := calls[1..];
      assert Dispatch(s, c0.call, c0.result, o) == Step(Defer(s, c0.call, c0.result), Normal);
      var s1 := Defer(s, c0.call, c0.result);
      assert DeliverAll(s, calls, o) == DeliverAll(s1, rest, o);
      DeferredWhileUninitialised(s, c0.call, c0.result, o);
      InitStartedAtMostOnce(s1, rest, o);
      assert calls == [c0] + rest;
      assert (s.pendingMethodCalls + [c0]) + rest == s.pendingMethodCalls + calls;
      if s.isInitializing {
        assert CountCreates(s1.engineCalls) == CountCreates(s.engineCalls);
      } else {
        assert CountCreates(s1.engineCalls) == CountCreates(s.engineCalls) + 1;
      }
    }
  }

  /* ---------------------------------------------------------------------------
     Replaying the parked calls
     --------------------------------------------------------------------------- */

  /** The helpers that `onMethodCall` builds on leave the queue, the status and the
      initialisation flag alone, except that `initTextToSpeech` starts one. */
  lemma HelpersKeepControl(s: PluginState)
    ensures StopTts(s).pendingMethodCalls == s.pendingMethodCalls
    ensures StopTts(s).ttsStatus == s.ttsStatus && StopTts(s).isInitializing == s.isInitializing
    ensures Dispose(s).pendingMethodCalls == s.pendingMethodCalls
    ensures InitTts(s).pendingMethodCalls == s.pendingMethodCalls && InitTts(s).isInitializing
  {
  }

  lemma SpeakUtteranceControl(s: PluginState, text: string, o: Oracle)
    ensures SpeakUtterance(s, text, o).state.pendingMethodCalls == s.pendingMethodCalls
    ensures var t := SpeakUtterance(s, text, o).state;
      SpeakUtterance(s, text, o).accepted ==>
        SameControl(t, s) &&
        t.speakResult == s.speakResult && t.synthResult == s.synthResult && t.engineResult == s.engineResult &&
        t.awaitSpeakCompletion == s.awaitSpeakCompletion && t.awaitSynthCompletion == s.awaitSynthCompletion &&
        t.queueMode == s.queueMode
  {
  }

  /** The queue, the status and the initialisation flag are the same in both states. */
  ghost predicate SameControl(a: PluginState, b: PluginState) {
    a.pendingMethodCalls == b.pendingMethodCalls && a.ttsStatus == b.ttsStatus &&
    a.isInitializing == b.isInitializing
  }

  lemma SpeakAndReplyQueue(s: PluginState, text: string, spoken: string, r: ResultId, o: Oracle)
    ensures var t := SpeakAndReply(s, text, spoken, r, o);
      SameControl(t, s) ||
      t.pendingMethodCalls == s.pendingMethodCalls + [PendingCall(Speak(text), r)]
  {
    if !(Speaking(s) && s.queueMode == QUEUE_FLUSH) {
      var sp := SpeakUtterance(s, spoken, o);
      SpeakUtteranceControl(s, spoken, o);
      if sp.accepted {
        assert SameControl(sp.state, s);
      }
    }
  }

  lemma SelectTextControl(s: PluginState, text: string)
    ensures SameControl(SelectText(s, text).state, s)
  {
  }

  lemma SpeakBranchQueue(s: PluginState, text: string, r: ResultId, o: Oracle)
    ensures var t := DispatchSpeak(s, text, r, o);
      SameControl(t, s) || t.pendingMethodCalls == s.pendingMethodCalls + [PendingCall(Speak(text), r)]
  {
    SelectTextControl(s, text);
    var sel := SelectText(s, text);
    SpeakAndReplyQueue(sel.state, text, sel.text, r, o);
  }

  lemma SynthesizeBranchControl(s: PluginState, text: string, fileName: string, r: ResultId, o: Oracle)
    ensures SameControl(Synthesize(s, text, fileName, r, o).state, s)
  {
    HelpersKeepControl(s);
  }

  lemma PauseBranchControl(s: PluginState, r: ResultId)
    ensures SameControl(PauseCall(s, r).state, s)
  {
  }

  lemma StopBranchControl(s: PluginState, r: ResultId)
    ensures SameControl(StopCall(s, r), s)
  {
    HelpersKeepControl(s);
  }

  /** The branches that set an option. */
  lemma OptionBranchesControl(s: PluginState, c: MethodCall, r: ResultId, o: Oracle)
    requires c.AwaitSpeakCompletion? || c.AwaitSynthCompletion? || c.SetQueueMode? || c.SetSilence?
    ensures SameControl(Handle(s, c, r, o).state, s)
  {
    match c
    case AwaitSpeakCompletion(b) =>
      assert Handle(s, c, r, o) == Step(Respond(s.(awaitSpeakCompletion := b), r, Success(1)), Normal);
    case AwaitSynthCompletion(b) =>
      assert Handle(s, c, r, o) == Step(Respond(s.(awaitSynthCompletion := b), r, Success(1)), Normal);
    case SetQueueMode(m) =>
      assert Handle(s, c, r, o) == Step(Respond(s.(queueMode := m), r, Success(1)), Normal);
    case SetSilence(ms) =>
      assert Handle(s, c, r, o) == Step(s.(silencems := ms), Normal);
  }

  /** The branches that only answer. */
  lemma QueryBranchesControl(s: PluginState, c: MethodCall, r: ResultId, o: Oracle)
    requires c.SetSharedInstance? || c.GetCurrentEngine? || c.EngineQuery? || c.Unknown?
    ensures SameControl(Handle(s, c, r, o).state, s)
  {
    match c
    case SetSharedInstance =>
      assert Handle(s, c, r, o) == Step(Respond(s, r, Success(1)), Normal);
    case GetCurrentEngine =>
      if s.currentEngine.Some? {
        assert Handle(s, c, r, o) == Step(Respond(s, r, SuccessText(s.currentEngine.value)), Normal);
      } else {
        assert Handle(s, c, r, o) == Step(Respond(s, r, EngineData("getDefaultEngine")), Normal);
      }
    case EngineQuery(m) =>
      assert Handle(s, c, r, o) == Step(Respond(s, r, EngineData(m)), Normal);
    case Unknown(m) =>
      assert Handle(s, c, r, o) == Step(Respond(s, r, NotImplemented), Normal);
  }

  /** Every branch of `onMethodCall` leaves the queue alone or appends the call
      itself; a branch other than "setEngine" that leaves the queue alone also
      leaves the status alone. */
  lemma HandleQueue(s: PluginState, c: MethodCall, r: ResultId, o: Oracle)
    ensures var q := Handle(s, c, r, o).state.pendingMethodCalls;
      q == s.pendingMethodCalls || q == s.pendingMethodCalls + [PendingCall(c, r)]
    ensures !c.SetEngine? && Handle(s, c, r, o).state.pendingMethodCalls == s.pendingMethodCalls ==>
      SameControl(Handle(s, c, r, o).state, s)
  {
    if c.Speak? {
      assert Handle(s, c, r, o) == Step(DispatchSpeak(s, c.text, r, o), Normal);
      SpeakBranchQueue(s, c.text, r, o);
    } else if c.SynthesizeToFile? {
      assert Handle(s, c, r, o) == Synthesize(s, c.text, c.fileName, r, o);
      SynthesizeBranchControl(s, c.text, c.fileName, r, o);
    } else if c.Pause? {
      assert Handle(s, c, r, o) == PauseCall(s, r);
      PauseBranchControl(s, r);
    } else if c.Stop? {
      assert Handle(s, c, r, o) == Step(StopCall(s, r), Normal);
      StopBranchControl(s, r);
    } else if c.SetEngine? {
      assert Handle(s, c, r, o) == Step(SetEngineCall(s, c.engine, r), Normal);
      HelpersKeepControl(s.(currentEngine := Some(c.engine), engineResult := Some(r)));
    } else if c.AwaitSpeakCompletion? || c.AwaitSynthCompletion? || c.SetQueueMode? || c.SetSilence? {
      OptionBranchesControl(s, c, r, o);
    } else {
      QueryBranchesControl(s, c, r, o);
    }
  }

  lemma DispatchQueue(s: PluginState, c: MethodCall, r: ResultId, o: Oracle)
    ensures var q := Dispatch(s, c, r, o).state.pendingMethodCalls;
      q == s.pendingMethodCalls || q == s.pendingMethodCalls + [PendingCall(c, r)]
    ensures s.ttsStatus.None? ==>
      Dispatch(s, c, r, o).state.pendingMethodCalls == s.pendingMethodCalls + [PendingCall(c, r)]
  {
    if s.ttsStatus.Some? {
      HandleQueue(s, c, r, o);
    } else {
      HelpersKeepControl(s);
    }
  }

  /** The reference meaning of "run the parked calls in insertion order": one
      `onMethodCall` after the other, stopping at the first exception. */
  function RunInOrder(s: PluginState, calls: seq<PendingCall>, oracles: seq<Oracle>): Step
    requires |oracles| == |calls|
    decreases |calls|
  {
    if calls == [] then Step(s, Normal)
    else
      var st := Dispatch(s, calls[0].call, calls[0].result, oracles[0]);
      if st.outcome.Thrown? then st else RunInOrder(st.state, calls[1..], oracles[1..])
  }

  lemma {:induction false} RunInOrderQueueGrows(s: PluginState, calls: seq<PendingCall>, oracles: seq<Oracle>)
    requires |oracles| == |calls|
    ensures var q := RunInOrder(s, calls, oracles).state.pendingMethodCalls;
      |s.pendingMethodCalls| <= |q| && q[..|s.pendingMethodCalls|] == s.pendingMethodCalls
    decreases |calls|
  {
    if calls != [] {
      var st := Dispatch(s, calls[0].call, calls[0].result, oracles[0]);
      DispatchQueue(s, calls[0].call, calls[0].result, oracles[0]);
      if st.outcome.Normal? {
        RunInOrderQueueGrows(st.state, calls[1..], oracles[1..]);
        var q := RunInOrder(st.state, calls[1..], oracles[1..]).state.pendingMethodCalls;
        var p := s.pendingMethodCalls;
        assert st.state.pendingMethodCalls[..|p|] == p;
        assert q[..|p|] == q[..|st.state.pendingMethodCalls|][..|p|];
      }
    }
  }

  lemma {:induction false} DrainMatchesRunInOrder(s: PluginState, n: nat, oracles: seq<Oracle>, i: nat)
    requires i <= n == |s.pendingMethodCalls| == |oracles|
    ensures var d := Drain(s, n, oracles, i);
      var ref := RunInOrder(s, s.pendingMethodCalls[i..], oracles[i..]);
      (d.outcome.Normal? <==> ref.outcome.Normal? && ref.state.pendingMethodCalls == s.pendingMethodCalls) &&
      (d.outcome.Normal? ==> d.state == ref.state.(pendingMethodCalls := []))
    decreases n - i
  {
    var calls := s.pendingMethodCalls[i..];
    if i < n {
      var p := s.pendingMethodCalls[i];
      var st := Dispatch(s, p.call, p.result, oracles[i]);
      assert calls[0] == p && calls[1..] == s.pendingMethodCalls[i + 1..];
      assert oracles[i..][0] == oracles[i] && oracles[i..][1..] == oracles[i + 1..];
      DispatchQueue(s, p.call, p.result, oracles[i]);
      if st.outcome.Normal? {
        if |st.state.pendingMethodCalls| != n {
          RunInOrderQueueGrows(st.state, calls[1..], oracles[i + 1..]);
        } else {
          DrainMatchesRunInOrder(st.state, n, oracles, i + 1);
        }
      }
    }
  }

  /** `onInitListener` runs the parked calls in insertion order and afterwards the
      queue is empty; it ends normally exactly when no replayed call threw and none
      was parked again (a re-parked call makes the fail-fast iterator throw). */
  lemma OnInitRunsParkedCallsInOrder(s: PluginState, status: int, oracles: seq<Oracle>)
    requires |oracles| == |s.pendingMethodCalls|
    ensures var s1 := s.(ttsStatus := Some(status), isInitializing := false);
      var ref := RunInOrder(s1, s.pendingMethodCalls, oracles);
      var st := OnInit(s, status, oracles);
      (st.outcome.Normal? <==> ref.outcome.Normal? && ref.state.pendingMethodCalls == s.pendingMethodCalls) &&
      (st.outcome.Normal? ==>
         st.state.pendingMethodCalls == [] &&
         st.state == FinishInit(ref.state.(pendingMethodCalls := []), status))
  {
    var s1 := s.(ttsStatus := Some(status), isInitializing := false);
    assert s1.pendingMethodCalls[0..] == s.pendingMethodCalls;
    assert oracles[0..] == oracles;
    var d := Drain(s1, |s1.pendingMethodCalls|, oracles, 0);
    DrainMatchesRunInOrder(s1, |s1.pendingMethodCalls|, oracles, 0);
    if d.outcome.Normal? {
      FinishInitKeepsQueue(d.state, status);
    }
  }

  lemma FinishInitKeepsQueue(s: PluginState, status: int)
    ensures SameControl(FinishInit(s, status), s)
  {
    if status == SUCCESS && s.hasTts {
      assert FinishInit(s, status) == EngineCompletion(Command(s, SetProgressListener), 1, None);
    } else {
      var msg := "Failed to initialize TextToSpeech with status: " + IntToString(status);
      assert FinishInit(s, status) == EngineCompletion(s, 0, Some(msg));
    }
  }

  lemma {:induction false} DrainKeepsStatus(s: PluginState, n: nat, oracles: seq<Oracle>, i: nat)
    requires i <= n == |s.pendingMethodCalls| <= |oracles| && s.ttsStatus.Some?
    requires forall k :: i <= k < n ==> !s.pendingMethodCalls[k].call.SetEngine?
    ensures var d := Drain(s, n, oracles, i);
      d.outcome.Normal? ==>
        d.state.ttsStatus == s.ttsStatus && d.state.isInitializing == s.isInitializing &&
        d.state.pendingMethodCalls == []
    decreases n - i
  {
    if i < n {
      var p := s.pendingMethodCalls[i];
      var st := Dispatch(s, p.call, p.result, oracles[i]);
      DispatchQueue(s, p.call, p.result, oracles[i]);
      if st.outcome.Normal? && |st.state.pendingMethodCalls| == n {
        HandleQueue(s, p.call, p.result, oracles[i]);
        DrainKeepsStatus(st.state, n, oracles, i + 1);
      }
    }
  }

  /** After a normal `onInitListener` with no parked `setEngine`, the status is the
      reported one and no initialisation is under way. */
  lemma OnInitSetsStatus(s: PluginState, status: int, oracles: seq<Oracle>)
    requires |oracles| == |s.pendingMethodCalls|
    requires forall k :: 0 <= k < |s.pendingMethodCalls| ==> !s.pendingMethodCalls[k].call.SetEngine?
    ensures OnInit(s, status, oracles).outcome.Normal? ==>
      OnInit(s, status, oracles).state.ttsStatus == Some(status) &&
      !OnInit(s, status, oracles).state.isInitializing &&
      OnInit(s, status, oracles).state.pendingMethodCalls == []
  {
    var s1 := s.(ttsStatus := Some(status), isInitializing := false);
    var d := Drain(s1, |s1.pendingMethodCalls|, oracles, 0);
    DrainKeepsStatus(s1, |s1.pendingMethodCalls|, oracles, 0);
    if d.outcome.Normal? {
      assert OnInit(s, status, oracles) == Step(FinishInit(d.state, status), Normal);
      assert SameControl(FinishInit(d.state, status), d.state);
    }
  }

  /** `setEngine` on a plugin with an engine: the result is held, the old engine is
      disposed (which clears the status) and a new one is being created. */
  lemma SetEngineRestartsInit(s: PluginState, e: string, r: ResultId)
    requires s.hasTts
    ensures var t := SetEngineCall(s, e, r);
      t.pendingMethodCalls == s.pendingMethodCalls && t.hasTts && t.engineResult == Some(r) &&
      t.ttsStatus.None? && t.isInitializing && LastCall(t.engineCalls, CreateEngine(Some(e)))
  {
    var d := Dispose(s.(currentEngine := Some(e), engineResult := Some(r)));
    assert d.ttsStatus.None? && d.engineResult == Some(r) && d.pendingMethodCalls == s.pendingMethodCalls;
    assert SetEngineCall(s, e, r) ==
      d.(isInitializing := true, hasTts := true, engineCalls := d.engineCalls + [CreateEngine(Some(e))]);
  }

  /** A parked `setEngine` replayed by the drain re-creates the engine, which clears
      the status and starts a new initialisation; the code after the drain then
      answers the `setEngine` result at once, for the old engine's status, before
      the new engine has reported its own. */
  lemma ReplayedSetEngineAnsweredEarly(s: PluginState, e: string, r: ResultId, status: int, o: Oracle)
    requires s.hasTts && s.pendingMethodCalls == [PendingCall(SetEngine(e), r)]
    ensures var st := OnInit(s, status, [o]);
      st.outcome == Normal &&
      st.state.ttsStatus.None? && st.state.isInitializing && st.state.pendingMethodCalls == [] &&
      st.state.engineResult.None? &&
      (var cs := st.state.engineCalls;
       var k := if status == SUCCESS then 2 else 1;
       |cs| >= k && cs[|cs| - k] == CreateEngine(Some(e)) &&
       (status == SUCCESS ==> cs[|cs| - 1] == SetProgressListener)) &&
      |st.state.replies| > 0 &&
      st.state.replies[|st.state.replies| - 1] ==
        Reply(r, if status == SUCCESS then Success(1)
                 else EngineError("EngineError", "Failed to initialize TextToSpeech with status: " + IntToString(status)))
  {
    var s1 := s.(ttsStatus := Some(status), isInitializing := false);
    var t := SetEngineCall(s1, e, r);
    SetEngineRestartsInit(s1, e, r);
    assert Dispatch(s1, SetEngine(e), r, o) == Step(t, Normal);
    DrainStep(s1, 1, [o], 0, Dispatch(s1, SetEngine(e), r, o));
    var u := t.(pendingMethodCalls := []);
    assert OnInit(s, status, [o]) == Step(FinishInit(u, status), Normal);
    if status == SUCCESS {
      assert FinishInit(u, status) == EngineCompletion(Command(u, SetProgressListener), 1, None);
    } else {
      assert FinishInit(u, status) ==
        EngineCompletion(u, 0, Some("Failed to initialize TextToSpeech with status: " + IntToString(status)));
    }
  }

  /** A parked `setEngine` followed by any other parked call: replaying `setEngine`
      clears the status, so the next replayed call parks itself again and the
      fail-fast iteration throws. The code after the drain never runs, and the
      `setEngine` result stays held. */
  lemma ReplayedSetEngineThenCallThrows(s: PluginState, e: string, r: ResultId, p: PendingCall,
                                        rest: seq<PendingCall>, status: int, oracles: seq<Oracle>)
    requires s.hasTts && s.pendingMethodCalls == [PendingCall(SetEngine(e), r), p] + rest
    requires |oracles| == |s.pendingMethodCalls|
    ensures var st := OnInit(s, status, oracles);
      st.outcome == Thrown(ConcurrentModification) &&
      st.state.ttsStatus.None? && st.state.isInitializing &&
      st.state.engineResult == Some(r) &&
      st.state.pendingMethodCalls == s.pendingMethodCalls + [p]
  {
    var n := |s.pendingMethodCalls|;
    var s1 := s.(ttsStatus := Some(status), isInitializing := false);
    var t := SetEngineCall(s1, e, r);
    SetEngineRestartsInit(s1, e, r);
    assert s1.pendingMethodCalls[0] == PendingCall(SetEngine(e), r);
    assert Dispatch(s1, SetEngine(e), r, oracles[0]) == Step(t, Normal);
    DrainStep(s1, n, oracles, 0, Dispatch(s1, SetEngine(e), r, oracles[0]));
    assert t.pendingMethodCalls[1] == p;
    var u := t.(pendingMethodCalls := t.pendingMethodCalls + [p]);
    assert Dispatch(t, p.call, p.result, oracles[1]) == Step(u, Normal);
    DrainStep(t, n, oracles, 1, Dispatch(t, p.call, p.result, oracles[1]));
    assert OnInit(s, status, oracles) == Step(u, Thrown(ConcurrentModification));
  }

  /* ---------------------------------------------------------------------------
     Speaking and replying
     --------------------------------------------------------------------------- */

  /** The private `speak`: the engine accepts exactly when it exists, its service
      connection is usable and it returns SUCCESS; an accepted utterance is recorded
      under its UUID and sent last, after a silence when silencems is set. */
  lemma SpeakUtteranceSends(s: PluginState, text: string, o: Oracle)
    ensures var sp := SpeakUtterance(s, text, o);
      (sp.accepted <==> s.hasTts && o.connectionUsable && o.speakStatus == SUCCESS) &&
      (sp.accepted ==>
         sp.state.utterances == s.utterances[o.uuid := text] &&
         LastCall(sp.state.engineCalls, SpeakText(text, if s.silencems > 0 then QUEUE_ADD else s.queueMode, o.uuid)) &&
         sp.state.replies == s.replies && sp.state.speakResult == s.speakResult &&
         sp.state.pendingMethodCalls == s.pendingMethodCalls) &&
      (s.hasTts && o.connectionUsable && s.silencems > 0 ==>
         sp.state.engineCalls == s.engineCalls + [PlaySilence(s.silencems, QUEUE_FLUSH, SILENCE_PREFIX + o.uuid),
                                                  SpeakText(text, QUEUE_ADD, o.uuid)]) &&
      (!(s.hasTts && o.connectionUsable) ==>
         sp.state == InitTts(s.(utterances := s.utterances[o.uuid := text])))
  {
  }

  /** The selection only touches the pause bookkeeping. */
  lemma SelectTextFrame(s: PluginState, text: string)
    ensures var t := SelectText(s, text).state;
      t == s.(pauseText := t.pauseText, currentText := t.currentText, lastProgress := t.lastProgress)
  {
  }

  lemma SpeakAndReplyCases(s: PluginState, text: string, spoken: string, r: ResultId, o: Oracle)
    ensures var st := SpeakAndReply(s, text, spoken, r, o);
      var sp := SpeakUtterance(s, spoken, o);
      (Speaking(s) && s.queueMode == QUEUE_FLUSH ==> st == Respond(s, r, Success(0))) &&
      (!(Speaking(s) && s.queueMode == QUEUE_FLUSH) ==>
         (!sp.accepted ==>
            st.pendingMethodCalls == s.pendingMethodCalls + [PendingCall(Speak(text), r)] &&
            st.replies == sp.state.replies) &&
         (sp.accepted ==> st.utterances == sp.state.utterances && st.engineCalls == sp.state.engineCalls) &&
         (sp.accepted && s.awaitSpeakCompletion && s.queueMode == QUEUE_FLUSH ==>
            st.speakResult == Some(r) && st.replies == s.replies) &&
         (sp.accepted && !(s.awaitSpeakCompletion && s.queueMode == QUEUE_FLUSH) ==>
            st.replies == s.replies + [Reply(r, Success(1))]))
  {
    SpeakUtteranceSends(s, spoken, o);
  }

  /** How "speak" answers: 0 at once when a speak result is held in QUEUE_FLUSH mode
      (nothing is spoken); no answer and the call parked again when the engine
      refuses; otherwise the selected text is sent and the result is held exactly
      when awaitSpeakCompletion is on in QUEUE_FLUSH mode, and answered with 1 if not. */
  lemma SpeakWhileSpeakingReplies(s: PluginState, text: string, r: ResultId, o: Oracle)
    requires s.ttsStatus.Some? && Speaking(s) && s.queueMode == QUEUE_FLUSH
    ensures Dispatch(s, Speak(text), r, o) == Step(Respond(SelectText(s, text).state, r, Success(0)), Normal)
    ensures Dispatch(s, Speak(text), r, o).state.engineCalls == s.engineCalls
  {
    var sel := SelectText(s, text);
    SelectTextFrame(s, text);
    assert Dispatch(s, Speak(text), r, o) == Step(SpeakAndReply(sel.state, text, sel.text, r, o), Normal);
    assert Speaking(sel.state) && sel.state.queueMode == QUEUE_FLUSH;
  }

  lemma SpeakReplies(s: PluginState, text: string, r: ResultId, o: Oracle)
    requires s.ttsStatus.Some? && !(Speaking(s) && s.queueMode == QUEUE_FLUSH)
    ensures var st := Dispatch(s, Speak(text), r, o);
      var sel := SelectText(s, text);
      var sp := SpeakUtterance(sel.state, sel.text, o);
      st.outcome == Normal &&
      (sp.accepted <==> s.hasTts && o.connectionUsable && o.speakStatus == SUCCESS) &&
      (!sp.accepted ==>
         st.state.pendingMethodCalls == s.pendingMethodCalls + [PendingCall(Speak(text), r)] &&
         st.state.replies == sp.state.replies) &&
      (sp.accepted ==>
         st.state.utterances == s.utterances[o.uuid := sel.text] &&
         LastCall(st.state.engineCalls, SpeakText(sel.text, if s.silencems > 0 then QUEUE_ADD else s.queueMode, o.uuid))) &&
      (sp.accepted && s.awaitSpeakCompletion && s.queueMode == QUEUE_FLUSH ==>
         st.state.speakResult == Some(r) && st.state.replies == s.replies) &&
      (sp.accepted && !(s.awaitSpeakCompletion && s.queueMode == QUEUE_FLUSH) ==>
         st.state.replies == s.replies + [Reply(r, Success(1))])
  {
    var sel := SelectText(s, text);
    SelectTextFrame(s, text);
    assert Dispatch(s, Speak(text), r, o) == Step(SpeakAndReply(sel.state, text, sel.text, r, o), Normal);
    assert !(Speaking(sel.state) && sel.state.queueMode == QUEUE_FLUSH);
    SpeakAndReplyCases(sel.state, text, sel.text, r, o);
    SpeakUtteranceSends(sel.state, sel.text, o);
  }

  /** When resuming, the text spoken is the tail of the requested text that was
      left unspoken; in every case it is a tail of the requested text. */
  lemma SelectTextSpeaksTail(s: PluginState, text: string)
    requires PauseSuffix(s)
    ensures IsSuffix(SelectText(s, text).text, text)
    ensures PauseSuffix(SelectText(s, text).state)
  {
  }

  /* ---------------------------------------------------------------------------
     Pause, stop, dispose
     --------------------------------------------------------------------------- */

  /** The pause text is always a tail of the text whose speaking it records. */
  ghost predicate PauseSuffix(s: PluginState) {
    s.pauseText.Some? ==> s.currentText.Some? && IsSuffix(s.pauseText.value, s.currentText.value)
  }

  lemma SuffixOfSuffix(a: string, b: string, k: int)
    requires IsSuffix(a, b) && 0 <= k <= |a|
    ensures IsSuffix(a[k..], b)
  {
    assert b[|b| - |a[k..]|..] == b[|b| - |a|..][k..];
  }

  /** "pause" marks the plugin paused, trims the pause text to what follows the last
      reported range start, stops the engine (answering held results with 0) and
      answers 1. It throws exactly when that offset lies outside the pause text. */
  lemma PauseTrimsText(s: PluginState, r: ResultId, o: Oracle)
    requires s.ttsStatus.Some?
    ensures var st := Dispatch(s, Pause, r, o);
      (st.outcome == Thrown(StringIndexOutOfBounds) <==>
         s.pauseText.Some? && !(0 <= s.lastProgress <= |s.pauseText.value|)) &&
      (st.outcome.Thrown? ==> st.state == s.(isPaused := true)) &&
      (st.outcome.Normal? ==>
         st.state.isPaused &&
         st.state.pauseText == (if s.pauseText.Some? then Some(s.pauseText.value[s.lastProgress..]) else None) &&
         st.state.lastProgress == s.lastProgress &&
         st.state.speakResult.None? && st.state.synthResult.None? &&
         st.state.replies == s.replies + AnswerHeld(s.speakResult, Success(0)) +
                             AnswerHeld(s.synthResult, Success(0)) + [Reply(r, Success(1))])
  {
  }

  /** Pausing and then asking to speak the same text again speaks the tail that the
      pause left: the remembered text from the last range-start offset on. */
  lemma PauseThenResume(s: PluginState, c: string, r1: ResultId, o1: Oracle, r2: ResultId, o2: Oracle)
    requires s.ttsStatus.Some? && s.currentText == Some(c) && s.pauseText.Some?
    requires 0 <= s.lastProgress <= |s.pauseText.value|
    ensures Dispatch(s, Pause, r1, o1).outcome == Normal
    ensures var t := Dispatch(s, Pause, r1, o1).state;
      var tail := s.pauseText.value[s.lastProgress..];
      SelectText(t, c) == Selected(t, tail) &&
      Dispatch(t, Speak(c), r2, o2).outcome == Normal &&
      (s.hasTts && o2.connectionUsable && o2.speakStatus == SUCCESS ==>
         LastCall(Dispatch(t, Speak(c), r2, o2).state.engineCalls,
                  SpeakText(tail, if s.silencems > 0 then QUEUE_ADD else s.queueMode, o2.uuid)))
  {
    PauseTrimsText(s, r1, o1);
    var t := Dispatch(s, Pause, r1, o1).state;
    var tail := s.pauseText.value[s.lastProgress..];
    assert t == Respond(StopTts(s.(isPaused := true, pauseText := Some(tail))), r1, Success(1));
    assert t.isPaused && t.pauseText == Some(tail) && t.currentText == Some(c);
    assert !Speaking(t);
    SpeakReplies(t, c, r2, o2);
  }

  /** "stop" answers held results with 0, forgets the progress offset and answers 1. */
  lemma StopResets(s: PluginState, r: ResultId, o: Oracle)
    requires s.ttsStatus.Some?
    ensures var st := Dispatch(s, Stop, r, o);
      st.outcome == Normal &&
      st.state.lastProgress == 0 && st.state.speakResult.None? && st.state.synthResult.None? &&
      st.state.pauseText == s.pauseText && st.state.isPaused == s.isPaused &&
      st.state.replies == s.replies + AnswerHeld(s.speakResult, Success(0)) +
                          AnswerHeld(s.synthResult, Success(0)) + [Reply(r, Success(1))]
  {
  }

  /** `onRangeStart` records the range start for every non-STF_ id, whatever
      happens next; STF_ ids change nothing. */
  lemma RangeStartRecordsProgress(s: PluginState, id: string, startAt: int, endAt: int)
    ensures StartsWith(id, SYNTHESIZE_TO_FILE_PREFIX) ==> OnRangeStart(s, id, startAt, endAt) == Step(s, Normal)
    ensures !StartsWith(id, SYNTHESIZE_TO_FILE_PREFIX) ==>
      OnRangeStart(s, id, startAt, endAt).state.lastProgress == startAt
    ensures !StartsWith(id, SYNTHESIZE_TO_FILE_PREFIX) ==>
      (OnRangeStart(s, id, startAt, endAt).outcome.Normal? <==>
         id in s.utterances && 0 <= startAt <= endAt <= |s.utterances[id]|)
    ensures !StartsWith(id, SYNTHESIZE_TO_FILE_PREFIX) && OnRangeStart(s, id, startAt, endAt).outcome.Normal? ==>
      var ev := OnRangeStart(s, id, startAt, endAt).state.events;
      ev == s.events + [Event("speak.onProgress", ev[|ev| - 1].arg)] &&
      ev[|ev| - 1].arg.word == s.utterances[id][startAt..endAt]
  {
  }

  /** `disposeTextToSpeech` leaves no status, no pause and no engine, and answers
      held speak and synth results with 0. */
  lemma DisposeResets(s: PluginState)
    ensures var d := Dispose(s);
      d.ttsStatus.None? && !d.isPaused && d.pauseText.None? && !d.hasTts &&
      d.speakResult.None? && d.synthResult.None? &&
      d.replies == s.replies + AnswerHeld(s.speakResult, Success(0)) + AnswerHeld(s.synthResult, Success(0))
  {
  }

  /** ... so that any call after it is parked again. */
  lemma CallAfterDisposeIsDeferred(s: PluginState, c: MethodCall, r: ResultId, o: Oracle)
    ensures Dispatch(Dispose(s), c, r, o).state.pendingMethodCalls ==
            Dispose(s).pendingMethodCalls + [PendingCall(c, r)]
    ensures Dispatch(Dispose(s), c, r, o).state.events == s.events
  {
    DeferredWhileUninitialised(Dispose(s), c, r, o);
  }

  /* ---------------------------------------------------------------------------
     Utterance callbacks and id routing
     --------------------------------------------------------------------------- */

  /** `onDone` ignores the silences played before an utterance. */
  lemma SilenceDoneIgnored(s: PluginState, id: string)
    requires StartsWith(id, SILENCE_PREFIX)
    ensures OnDone(s, id) == s
  {
  }

  /** `onDone` for an utterance: the progress offset and the pause text are cleared
      and the id is dropped from `utterances`; a held speak result is answered with
      1 only in QUEUE_FLUSH mode; "speak.onComplete" is reported. */
  lemma SpeakDoneResets(s: PluginState, id: string)
    requires !StartsWith(id, SILENCE_PREFIX) && !StartsWith(id, SYNTHESIZE_TO_FILE_PREFIX)
    ensures var d := OnDone(s, id);
      d.lastProgress == 0 && d.pauseText.None? && d.utterances == s.utterances - {id} &&
      (d.speakResult.None? <==> s.speakResult.None? || s.queueMode == QUEUE_FLUSH) &&
      d.replies == s.replies + (if s.queueMode == QUEUE_FLUSH then AnswerHeld(s.speakResult, Success(1)) else []) &&
      d.events == s.events + [Event("speak.onComplete", Flag(true))]
  {
    if Speaking(s) && s.queueMode == QUEUE_FLUSH {} else {}
  }

  /** `onDone` for a file synthesis answers a held synth result with 1 and reports
      "synth.onComplete"; it also clears the progress offset and the pause text. */
  lemma SynthDoneResets(s: PluginState, id: string)
    requires !StartsWith(id, SILENCE_PREFIX) && StartsWith(id, SYNTHESIZE_TO_FILE_PREFIX)
    ensures var d := OnDone(s, id);
      d.lastProgress == 0 && d.pauseText.None? && d.utterances == s.utterances - {id} &&
      d.synthResult.None? && d.speakResult == s.speakResult &&
      d.replies == s.replies + AnswerHeld(s.synthResult, Success(1)) &&
      d.events == s.events + [Event("synth.onComplete", Flag(true))]
  {
    if Synthesizing(s) {} else {}
  }

  /** `onStart` reports a resumed speech as "speak.onContinue" and ends the pause;
      otherwise "speak.onStart", or "synth.onStart" for STF_ ids. */
  lemma StartRouting(s: PluginState, sdk: int, id: string)
    requires sdk >= SDK_O
    ensures var st := OnStart(s, sdk, id);
      st.outcome == Normal &&
      (StartsWith(id, SYNTHESIZE_TO_FILE_PREFIX) ==>
         st.state == s.(events := s.events + [Event("synth.onStart", Flag(true))])) &&
      (!StartsWith(id, SYNTHESIZE_TO_FILE_PREFIX) && s.isPaused ==>
         st.state == s.(events := s.events + [Event("speak.onContinue", Flag(true))], isPaused := false)) &&
      (!StartsWith(id, SYNTHESIZE_TO_FILE_PREFIX) && !s.isPaused ==>
         st.state == s.(events := s.events + [Event("speak.onStart", Flag(true))]))
  {
  }

  /** Below SDK 26 `onStart` reads the utterance text for its progress report and
      throws for any id the plugin did not speak, such as STF_ and SIL_ ids. */
  lemma StartBeforeOreoNeedsUtterance(s: PluginState, sdk: int, id: string)
    requires sdk < SDK_O
    ensures OnStart(s, sdk, id).outcome == Thrown(NullPointer) <==> id !in s.utterances
  {
  }

  /** `onStop` answers held results with 0 and reports "speak.onPause" when paused,
      "speak.onCancel" otherwise. */
  lemma StopRouting(s: PluginState, id: string, interrupted: bool)
    ensures OnStop(s, id, interrupted).speakResult.None? && OnStop(s, id, interrupted).synthResult.None?
    ensures OnStop(s, id, interrupted).replies ==
              s.replies + AnswerHeld(s.synthResult, Success(0)) + AnswerHeld(s.speakResult, Success(0))
    ensures OnStop(s, id, interrupted).events ==
              s.events + [Event(if s.isPaused then "speak.onPause" else "speak.onCancel", Flag(true))]
  {
    var s1 := if Synthesizing(s) then SynthCompletion(s, 0) else s;
    assert s1.events == s.events && s1.isPaused == s.isPaused && s1.speakResult == s.speakResult;
    var s2 := if Speaking(s1) then SpeakCompletion(s1, 0) else s1;
    assert s2.events == s.events && s2.isPaused == s.isPaused;
    assert s2.replies == s.replies + AnswerHeld(s.synthResult, Success(0)) + AnswerHeld(s.speakResult, Success(0));
    assert OnStop(s, id, interrupted) == (if s2.isPaused then Emit(s2, "speak.onPause", Flag(true))
                                          else Emit(s2, "speak.onCancel", Flag(true)));
  }

  /** `onError` for an STF_ id answers a held synth result with 0 and reports
      "synth.onError" with the error code, if any, appended to the message. */
  lemma SynthErrorRouting(s: PluginState, id: string, errorCode: Option<int>)
    requires StartsWith(id, SYNTHESIZE_TO_FILE_PREFIX)
    ensures var d := OnError(s, id, errorCode);
      d.synthResult.None? && d.speakResult == s.speakResult &&
      d.replies == s.replies + AnswerHeld(s.synthResult, Success(0)) &&
      d.events == s.events + [Event("synth.onError", Message("Error from TextToSpeech (synth)" +
                                      if errorCode.Some? then " - " + IntToString(errorCode.value) else ""))]
  {
    if Synthesizing(s) {} else {}
  }

  /** `onError` for any other id answers a held speak result with 0 and reports
      "speak.onError". */
  lemma SpeakErrorRouting(s: PluginState, id: string, errorCode: Option<int>)
    requires !StartsWith(id, SYNTHESIZE_TO_FILE_PREFIX)
    ensures var d := OnError(s, id, errorCode);
      d.speakResult.None? && d.synthResult == s.synthResult &&
      d.replies == s.replies + AnswerHeld(s.speakResult, Success(0)) &&
      d.events == s.events + [Event("speak.onError", Message("Error from TextToSpeech (speak)" +
                                      if errorCode.Some? then " - " + IntToString(errorCode.value) else ""))]
  {
    if Speaking(s) {} else {}
  }

  /** The ids the plugin itself creates route as intended: a UUID is a plain speech
      id, "SIL_" + UUID a silence and "STF_" + UUID a file synthesis. */
  lemma UuidRouting(u: string)
    requires IsUuid(u)
    ensures !StartsWith(u, SILENCE_PREFIX) && !StartsWith(u, SYNTHESIZE_TO_FILE_PREFIX)
    ensures StartsWith(SILENCE_PREFIX + u, SILENCE_PREFIX) && !StartsWith(SILENCE_PREFIX + u, SYNTHESIZE_TO_FILE_PREFIX)
    ensures StartsWith(SYNTHESIZE_TO_FILE_PREFIX + u, SYNTHESIZE_TO_FILE_PREFIX) &&
            !StartsWith(SYNTHESIZE_TO_FILE_PREFIX + u, SILENCE_PREFIX)
  {
    assert u[0] in HEX_DIGITS;
    assert (SILENCE_PREFIX + u)[..4] == SILENCE_PREFIX;
    assert (SYNTHESIZE_TO_FILE_PREFIX + u)[..4] == SYNTHESIZE_TO_FILE_PREFIX;
  }
}
