/** Invariants of every run of the plugin: each Flutter `Result` object is answered
    at most once, and the remembered pause text is always a tail of the text being
    spoken. */
module TtsInvariants {
  import opened TtsTypes
  import opened TtsSpec
  import opened TtsProperties

  /* ---------------------------------------------------------------------------
     The results the plugin has a claim on
     --------------------------------------------------------------------------- */

  function ReplyResults(rs: seq<Reply>): seq<ResultId> {
    seq(|rs|, k requires 0 <= k < |rs| => rs[k].result)
  }

  function PendingResults(ps: seq<PendingCall>): seq<ResultId> {
    seq(|ps|, k requires 0 <= k < |ps| => ps[k].result)
  }

  function ReplyIds(rs: seq<Reply>): multiset<ResultId> {
    multiset(ReplyResults(rs))
  }

  function PendingIds(ps: seq<PendingCall>): multiset<ResultId> {
    multiset(PendingResults(ps))
  }

  function OptIds(held: Option<ResultId>): multiset<ResultId> {
    if held.Some? then multiset{held.value} else multiset{}
  }

  /** Results held in a field or already answered. */
  ghost function Claimed(s: PluginState): multiset<ResultId> {
    OptIds(s.speakResult) + OptIds(s.synthResult) + OptIds(s.engineResult) + ReplyIds(s.replies)
  }

  /** Every result the plugin has been handed and not dropped: held, parked or answered. */
  ghost function Ids(s: PluginState): multiset<ResultId> {
    Claimed(s) + PendingIds(s.pendingMethodCalls)
  }

  ghost predicate Once(m: multiset<ResultId>) {
    forall x :: m[x] <= 1
  }

  /** No result is held, parked or answered twice. */
  ghost predicate AtMostOnce(s: PluginState) {
    Once(Ids(s))
  }

  lemma ReplyIdsAppend(a: seq<Reply>, b: seq<Reply>)
    ensures ReplyIds(a + b) == ReplyIds(a) + ReplyIds(b)
  {
    assert ReplyResults(a + b) == ReplyResults(a) + ReplyResults(b);
  }

  lemma ReplyIdsHas(rs: seq<Reply>, k: int)
    requires 0 <= k < |rs|
    ensures rs[k].result in ReplyIds(rs)
  {
    assert ReplyResults(rs)[k] == rs[k].result;
  }

  lemma PendingIdsAppendOne(ps: seq<PendingCall>, p: PendingCall)
    ensures PendingIds(ps + [p]) == PendingIds(ps) + multiset{p.result}
  {
    assert PendingResults(ps + [p]) == PendingResults(ps) + [p.result];
  }

  lemma PendingIdsTail(ps: seq<PendingCall>, i: nat)
    requires i < |ps|
    ensures PendingIds(ps[i..]) == multiset{ps[i].result} + PendingIds(ps[i + 1..])
  {
    assert PendingResults(ps[i..]) == [ps[i].result] + PendingResults(ps[i + 1..]);
  }

  lemma AnswerHeldIds(rs: seq<Reply>, held: Option<ResultId>, a: Answer)
    ensures ReplyIds(rs + AnswerHeld(held, a)) == ReplyIds(rs) + OptIds(held)
  {
    ReplyIdsAppend(rs, AnswerHeld(held, a));
    if held.Some? {
      assert ReplyResults(AnswerHeld(held, a)) == [held.value];
    } else {
      assert ReplyResults(AnswerHeld(held, a)) == [];
    }
  }

  /* ---------------------------------------------------------------------------
     What each step does to the claims and to the pause text
     --------------------------------------------------------------------------- */

  /** The pause text is dropped, or it and the current text are left alone. */
  ghost predicate KeepsPause(s: PluginState, t: PluginState) {
    t.pauseText.None? || (t.pauseText == s.pauseText && t.currentText == s.currentText)
  }


  /** The fields the claims and the pause invariant are made of are unchanged. */
  ghost predicate SameClaims(s: PluginState, t: PluginState) {
    t.speakResult == s.speakResult && t.synthResult == s.synthResult && t.engineResult == s.engineResult &&
    t.replies == s.replies && t.pendingMethodCalls == s.pendingMethodCalls &&
    t.pauseText == s.pauseText && t.currentText == s.currentText
  }

  /* How the claims move, stated on the four fields they are made of. */

  lemma ClaimedWhenAnswered(s: PluginState, t: PluginState, r: ResultId, a: Answer)
    requires t.speakResult == s.speakResult && t.synthResult == s.synthResult && t.engineResult == s.engineResult
    requires t.replies == s.replies + [Reply(r, a)]
    ensures Claimed(t) == Claimed(s) + multiset{r}
  {
    AnswerHeldIds(s.replies, Some(r), a);
    assert AnswerHeld(Some(r), a) == [Reply(r, a)];
  }

  lemma ClaimedWhenStopped(s: PluginState, t: PluginState, a: Answer)
    requires t.speakResult.None? && t.synthResult.None? && t.engineResult == s.engineResult
    requires t.replies == s.replies + AnswerHeld(s.speakResult, a) + AnswerHeld(s.synthResult, a)
    ensures Claimed(t) == Claimed(s)
  {
    AnswerHeldIds(s.replies, s.speakResult, a);
    AnswerHeldIds(s.replies + AnswerHeld(s.speakResult, a), s.synthResult, a);
  }

  lemma ClaimedWhenSpeakAnswered(s: PluginState, t: PluginState, a: Answer)
    requires t.speakResult.None? && t.synthResult == s.synthResult && t.engineResult == s.engineResult
    requires t.replies == s.replies + AnswerHeld(s.speakResult, a)
    ensures Claimed(t) == Claimed(s)
  {
    AnswerHeldIds(s.replies, s.speakResult, a);
  }

  lemma ClaimedWhenSynthAnswered(s: PluginState, t: PluginState, a: Answer)
    requires t.synthResult.None? && t.speakResult == s.speakResult && t.engineResult == s.engineResult
    requires t.replies == s.replies + AnswerHeld(s.synthResult, a)
    ensures Claimed(t) == Claimed(s)
  {
    AnswerHeldIds(s.replies, s.synthResult, a);
  }

  lemma ClaimedWhenEngineAnswered(s: PluginState, t: PluginState, a: Answer)
    requires t.engineResult.None? && t.speakResult == s.speakResult && t.synthResult == s.synthResult
    requires t.replies == s.replies + AnswerHeld(s.engineResult, a)
    ensures Claimed(t) == Claimed(s)
  {
    AnswerHeldIds(s.replies, s.engineResult, a);
  }

  /** Nothing is claimed or parked anew and the pause text stays put or is dropped. */
  ghost predicate Balanced(s: PluginState, t: PluginState) {
    t.pendingMethodCalls == s.pendingMethodCalls && Claimed(t) == Claimed(s) && KeepsPause(s, t)
  }

  /** No call is parked, and no result but `r` is newly claimed. */
  ghost predicate ClaimsAtMost(s: PluginState, t: PluginState, r: ResultId) {
    t.pendingMethodCalls == s.pendingMethodCalls && Claimed(t) <= Claimed(s) + multiset{r}
  }

  /** The call `p` is parked, and no result is newly claimed. */
  ghost predicate Parks(s: PluginState, t: PluginState, p: PendingCall) {
    t.pendingMethodCalls == s.pendingMethodCalls + [p] && Claimed(t) <= Claimed(s)
  }

  /** The claims depend on the three held results and the replies alone. */
  lemma ClaimedFields(s: PluginState, t: PluginState)
    requires t.speakResult == s.speakResult && t.synthResult == s.synthResult && t.engineResult == s.engineResult
    requires t.replies == s.replies
    ensures Claimed(t) == Claimed(s)
  {
  }

  lemma BalancedThen(s: PluginState, s1: PluginState, t: PluginState)
    requires Balanced(s, s1) && Balanced(s1, t)
    ensures Balanced(s, t)
  {
  }

  lemma ClaimsAfterBalanced(s: PluginState, s1: PluginState, t: PluginState, r: ResultId)
    requires Balanced(s, s1) && ClaimsAtMost(s1, t, r) && KeepsPause(s1, t)
    ensures ClaimsAtMost(s, t, r) && KeepsPause(s, t)
  {
  }

  lemma ParksAfterBalanced(s: PluginState, s1: PluginState, t: PluginState, p: PendingCall)
    requires Balanced(s, s1) && Parks(s1, t, p) && KeepsPause(s1, t)
    ensures Parks(s, t, p) && KeepsPause(s, t)
  {
  }

  /* What the handlers' helpers do to those fields. */

  lemma SpeakCompletionFrame(s: PluginState, success: int)
    ensures Balanced(s, SpeakCompletion(s, success)) && SpeakCompletion(s, success).isPaused == s.isPaused
  {
    ClaimedWhenSpeakAnswered(s, SpeakCompletion(s, success), Success(success));
  }

  lemma SynthCompletionFrame(s: PluginState, success: int)
    ensures Balanced(s, SynthCompletion(s, success))
    ensures SynthCompletion(s, success).isPaused == s.isPaused
    ensures SynthCompletion(s, success).speakResult == s.speakResult
  {
    ClaimedWhenSynthAnswered(s, SynthCompletion(s, success), Success(success));
  }

  lemma EmitFrame(s: PluginState, name: string, arg: EventArg)
    ensures Balanced(s, Emit(s, name, arg))
  {
    assert SameClaims(s, Emit(s, name, arg));
  }

  lemma StopTtsFrame(s: PluginState)
    ensures Balanced(s, StopTts(s))
    ensures StopTts(s).speakResult.None? && StopTts(s).synthResult.None?
  {
    ClaimedWhenStopped(s, StopTts(s), Success(0));
  }

  lemma InitTtsFrame(s: PluginState)
    ensures Balanced(s, InitTts(s))
  {
    if s.hasTts {
      var d := Dispose(s);
      assert d.speakResult.None? && d.synthResult.None? && d.engineResult == s.engineResult;
      assert d.replies == StopTts(s).replies;
      ClaimedWhenStopped(s, InitTts(s), Success(0));
    } else {
      assert SameClaims(s, InitTts(s));
    }
  }

  lemma SpeakUtteranceFrame(s: PluginState, text: string, o: Oracle)
    ensures Balanced(s, SpeakUtterance(s, text, o).state)
    ensures var t := SpeakUtterance(s, text, o).state;
      SpeakUtterance(s, text, o).accepted ==>
        SameClaims(s, t) && t.queueMode == s.queueMode && t.awaitSpeakCompletion == s.awaitSpeakCompletion
  {
    var s1 := s.(utterances := s.utterances[o.uuid := text]);
    if s1.hasTts && o.connectionUsable {
      if s1.silencems > 0 {
        var s2 := Command(s1, PlaySilence(s1.silencems, QUEUE_FLUSH, SILENCE_PREFIX + o.uuid));
        assert SpeakUtterance(s, text, o).state == Command(s2, SpeakText(text, QUEUE_ADD, o.uuid));
      } else {
        assert SpeakUtterance(s, text, o).state == Command(s1, SpeakText(text, s1.queueMode, o.uuid));
      }
    } else {
      assert SameClaims(s, s1);
      InitTtsFrame(s1);
      assert SpeakUtterance(s, text, o).state == InitTts(s1);
    }
  }

  /* The four ways the rest of the "speak" branch can go. */

  lemma SpeakWhileSpeakingFrame(s: PluginState, text: string, spoken: string, r: ResultId, o: Oracle)
    requires Speaking(s) && s.queueMode == QUEUE_FLUSH
    ensures var t := SpeakAndReply(s, text, spoken, r, o);
      ClaimsAtMost(s, t, r) && KeepsPause(s, t)
  {
    ClaimedWhenAnswered(s, SpeakAndReply(s, text, spoken, r, o), r, Success(0));
  }

  lemma SpeakRefusedFrame(s: PluginState, text: string, spoken: string, r: ResultId, o: Oracle)
    requires !(Speaking(s) && s.queueMode == QUEUE_FLUSH) && !SpeakUtterance(s, spoken, o).accepted
    ensures var t := SpeakAndReply(s, text, spoken, r, o);
      Parks(s, t, PendingCall(Speak(text), r)) && KeepsPause(s, t)
  {
    var sp := SpeakUtterance(s, spoken, o).state;
    SpeakUtteranceFrame(s, spoken, o);
    var t := sp.(pendingMethodCalls := sp.pendingMethodCalls + [PendingCall(Speak(text), r)]);
    assert SpeakAndReply(s, text, spoken, r, o) == t;
    assert Claimed(t) == Claimed(sp);
  }

  lemma SpeakHeldFrame(s: PluginState, text: string, spoken: string, r: ResultId, o: Oracle)
    requires !(Speaking(s) && s.queueMode == QUEUE_FLUSH) && SpeakUtterance(s, spoken, o).accepted
    requires SpeakUtterance(s, spoken, o).state.awaitSpeakCompletion && SpeakUtterance(s, spoken, o).state.queueMode == QUEUE_FLUSH
    ensures var t := SpeakAndReply(s, text, spoken, r, o);
      ClaimsAtMost(s, t, r) && KeepsPause(s, t)
  {
    var sp := SpeakUtterance(s, spoken, o).state;
    SpeakUtteranceFrame(s, spoken, o);
    assert s.speakResult.None? && sp.speakResult.None?;
    assert SpeakAndReply(s, text, spoken, r, o) == sp.(speakResult := Some(r));
    assert Claimed(sp.(speakResult := Some(r))) == Claimed(sp) + multiset{r};
  }

  lemma SpeakAnsweredFrame(s: PluginState, text: string, spoken: string, r: ResultId, o: Oracle)
    requires !(Speaking(s) && s.queueMode == QUEUE_FLUSH) && SpeakUtterance(s, spoken, o).accepted
    requires !(SpeakUtterance(s, spoken, o).state.awaitSpeakCompletion && SpeakUtterance(s, spoken, o).state.queueMode == QUEUE_FLUSH)
    ensures var t := SpeakAndReply(s, text, spoken, r, o);
      ClaimsAtMost(s, t, r) && KeepsPause(s, t)
  {
    var sp := SpeakUtterance(s, spoken, o).state;
    SpeakUtteranceFrame(s, spoken, o);
    assert SpeakAndReply(s, text, spoken, r, o) == Respond(sp, r, Success(1));
    ClaimedWhenAnswered(sp, Respond(sp, r, Success(1)), r, Success(1));
  }

  lemma SpeakAndReplyFrame(s: PluginState, text: string, spoken: string, r: ResultId, o: Oracle)
    ensures var t := SpeakAndReply(s, text, spoken, r, o);
      KeepsPause(s, t) && (ClaimsAtMost(s, t, r) || Parks(s, t, PendingCall(Speak(text), r)))
  {
    var sp := SpeakUtterance(s, spoken, o);
    if Speaking(s) && s.queueMode == QUEUE_FLUSH {
      SpeakWhileSpeakingFrame(s, text, spoken, r, o);
    } else if !sp.accepted {
      SpeakRefusedFrame(s, text, spoken, r, o);
    } else if sp.state.awaitSpeakCompletion && sp.state.queueMode == QUEUE_FLUSH {
      SpeakHeldFrame(s, text, spoken, r, o);
    } else {
      SpeakAnsweredFrame(s, text, spoken, r, o);
    }
  }

  /** The running synthesis is stopped, then the new result is held or answered. */
  lemma SynthesisResultFrame(s: PluginState, r: ResultId)
    ensures var s1 := if Synthesizing(s) then StopTts(s) else s;
      var s2 := if s1.awaitSynthCompletion then s1.(synthResult := Some(r)) else Respond(s1, r, Success(1));
      ClaimsAtMost(s, s2, r) && KeepsPause(s, s2)
  {
    var s1 := if Synthesizing(s) then StopTts(s) else s;
    StopTtsFrame(s);
    assert Balanced(s, s1) && s1.synthResult.None?;
    if s1.awaitSynthCompletion {
      var s2 := s1.(synthResult := Some(r));
      assert Claimed(s2) == Claimed(s1) + multiset{r};
      ClaimsAfterBalanced(s, s1, s2, r);
    } else {
      var s2 := Respond(s1, r, Success(1));
      ClaimedWhenAnswered(s1, s2, r, Success(1));
      ClaimsAfterBalanced(s, s1, s2, r);
    }
  }

  lemma SynthesizeFrame(s: PluginState, text: string, fileName: string, r: ResultId, o: Oracle)
    ensures var t := Synthesize(s, text, fileName, r, o).state;
      ClaimsAtMost(s, t, r) && KeepsPause(s, t)
  {
    var s1 := if Synthesizing(s) then StopTts(s) else s;
    var s2 := if s1.awaitSynthCompletion then s1.(synthResult := Some(r)) else Respond(s1, r, Success(1));
    SynthesisResultFrame(s, r);
    if s2.hasTts {
      var t := Command(s2, SynthesizeFile(text, fileName, SYNTHESIZE_TO_FILE_PREFIX + o.uuid));
      assert Synthesize(s, text, fileName, r, o).state == t;
      ClaimedFields(s2, t);
    } else {
      assert Synthesize(s, text, fileName, r, o).state == s2;
    }
  }

  lemma PauseFrame(s: PluginState, r: ResultId)
    requires PauseSuffix(s)
    ensures ClaimsAtMost(s, PauseCall(s, r).state, r) && PauseSuffix(PauseCall(s, r).state)
  {
    var s1 := s.(isPaused := true);
    if s1.pauseText.Some? && !(0 <= s1.lastProgress <= |s1.pauseText.value|) {
      assert PauseCall(s, r) == Step(s1, Thrown(StringIndexOutOfBounds));
      assert SameClaims(s, s1);
    } else {
      var s2 := if s1.pauseText.Some? then s1.(pauseText := Some(s1.pauseText.value[s1.lastProgress..])) else s1;
      if s1.pauseText.Some? {
        SuffixOfSuffix(s1.pauseText.value, s1.currentText.value, s1.lastProgress);
      }
      assert PauseSuffix(s2) && Claimed(s2) == Claimed(s) && s2.pendingMethodCalls == s.pendingMethodCalls;
      StopTtsFrame(s2);
      assert PauseCall(s, r) == Step(Respond(StopTts(s2), r, Success(1)), Normal);
      ClaimedWhenAnswered(StopTts(s2), Respond(StopTts(s2), r, Success(1)), r, Success(1));
    }
  }

  lemma StopFrame(s: PluginState, r: ResultId)
    ensures ClaimsAtMost(s, StopCall(s, r), r) && KeepsPause(s, StopCall(s, r))
  {
    StopTtsFrame(s);
    var s1 := StopTts(s).(lastProgress := 0);
    assert Balanced(s, s1);
    ClaimedWhenAnswered(s1, StopCall(s, r), r, Success(1));
  }

  lemma SetEngineFrame(s: PluginState, e: string, r: ResultId)
    ensures ClaimsAtMost(s, SetEngineCall(s, e, r), r) && KeepsPause(s, SetEngineCall(s, e, r))
  {
    var s1 := s.(currentEngine := Some(e), engineResult := Some(r));
    InitTtsFrame(s1);
    assert Claimed(s1) + OptIds(s.engineResult) == Claimed(s) + multiset{r};
  }

  /** The branches that set an option answer with 1 at once, except "setSilence". */
  lemma OptionBranchesFrame(s: PluginState, c: MethodCall, r: ResultId, o: Oracle)
    requires c.AwaitSpeakCompletion? || c.AwaitSynthCompletion? || c.SetQueueMode? || c.SetSilence?
    ensures ClaimsAtMost(s, Handle(s, c, r, o).state, r) && KeepsPause(s, Handle(s, c, r, o).state)
  {
    match c
    case SetSilence(ms) =>
      assert Handle(s, c, r, o) == Step(s.(silencems := ms), Normal);
      ClaimedFields(s, s.(silencems := ms));
    case AwaitSpeakCompletion(b) =>
      var t := Respond(s.(awaitSpeakCompletion := b), r, Success(1));
      assert Handle(s, c, r, o) == Step(t, Normal);
      ClaimedWhenAnswered(s, t, r, Success(1));
    case AwaitSynthCompletion(b) =>
      var t := Respond(s.(awaitSynthCompletion := b), r, Success(1));
      assert Handle(s, c, r, o) == Step(t, Normal);
      ClaimedWhenAnswered(s, t, r, Success(1));
    case SetQueueMode(m) =>
      var t := Respond(s.(queueMode := m), r, Success(1));
      assert Handle(s, c, r, o) == Step(t, Normal);
      ClaimedWhenAnswered(s, t, r, Success(1));
  }

  /** The branches that only answer do so at once. */
  lemma QueryBranchesFrame(s: PluginState, c: MethodCall, r: ResultId, o: Oracle)
    requires c.SetSharedInstance? || c.GetCurrentEngine? || c.EngineQuery? || c.Unknown?
    ensures ClaimsAtMost(s, Handle(s, c, r, o).state, r) && KeepsPause(s, Handle(s, c, r, o).state)
  {
    var a :=
      match c
      case SetSharedInstance => Success(1)
      case GetCurrentEngine =>
        if s.currentEngine.Some? then SuccessText(s.currentEngine.value) else EngineData("getDefaultEngine")
      case EngineQuery(m) => EngineData(m)
      case Unknown(_) => NotImplemented;
    assert Handle(s, c, r, o) == Step(Respond(s, r, a), Normal);
    ClaimedWhenAnswered(s, Respond(s, r, a), r, a);
  }

  lemma KeepsPauseSuffix(s: PluginState, t: PluginState)
    requires PauseSuffix(s) && KeepsPause(s, t)
    ensures PauseSuffix(t)
  {
  }

  lemma DeferFrame(s: PluginState, c: MethodCall, r: ResultId)
    ensures Parks(s, Defer(s, c, r), PendingCall(c, r)) && KeepsPause(s, Defer(s, c, r))
  {
    var s1 := if !s.isInitializing then InitTts(s) else s;
    InitTtsFrame(s);
    assert Balanced(s, s1);
    var t := s1.(pendingMethodCalls := s1.pendingMethodCalls + [PendingCall(c, r)]);
    assert Defer(s, c, r) == t;
    assert Claimed(t) == Claimed(s1);
  }

  /** Choosing the text to speak changes nothing claimed and keeps the pause text a tail. */
  lemma SelectTextClaims(s: PluginState, text: string)
    ensures Claimed(SelectText(s, text).state) == Claimed(s)
    ensures SelectText(s, text).state.pendingMethodCalls == s.pendingMethodCalls
  {
    var t := SelectText(s, text).state;
    SelectTextFrame(s, text);
    assert t.speakResult == s.speakResult && t.synthResult == s.synthResult && t.engineResult == s.engineResult;
    assert t.replies == s.replies && t.pendingMethodCalls == s.pendingMethodCalls;
    ClaimedFields(s, t);
  }

  lemma DispatchSpeakFrame(s: PluginState, text: string, r: ResultId, o: Oracle)
    requires PauseSuffix(s)
    ensures var t := DispatchSpeak(s, text, r, o);
      PauseSuffix(t) && (ClaimsAtMost(s, t, r) || Parks(s, t, PendingCall(Speak(text), r)))
  {
    var sel := SelectText(s, text);
    var t := SpeakAndReply(sel.state, text, sel.text, r, o);
    assert DispatchSpeak(s, text, r, o) == t;
    SelectTextSpeaksTail(s, text);
    SelectTextClaims(s, text);
    SpeakAndReplyFrame(sel.state, text, sel.text, r, o);
    KeepsPauseSuffix(sel.state, t);
    if ClaimsAtMost(sel.state, t, r) {
      assert Claimed(t) <= Claimed(sel.state) + multiset{r};
    } else {
      assert Claimed(t) <= Claimed(sel.state);
    }
  }

  /** One `onMethodCall`: the call's result is claimed now, or the call is parked
      with it; no other result is newly claimed; the pause text stays a tail. */
  lemma DispatchFrame(s: PluginState, c: MethodCall, r: ResultId, o: Oracle)
    requires PauseSuffix(s)
    ensures var t := Dispatch(s, c, r, o).state;
      PauseSuffix(t) && (ClaimsAtMost(s, t, r) || Parks(s, t, PendingCall(c, r)))
  {
    var t := Dispatch(s, c, r, o).state;
    if s.ttsStatus.None? {
      assert t == Defer(s, c, r);
      DeferFrame(s, c, r);
      KeepsPauseSuffix(s, t);
    } else if c.Speak? {
      assert t == DispatchSpeak(s, c.text, r, o);
      DispatchSpeakFrame(s, c.text, r, o);
    } else if c.SynthesizeToFile? {
      assert t == Synthesize(s, c.text, c.fileName, r, o).state;
      SynthesizeFrame(s, c.text, c.fileName, r, o);
      KeepsPauseSuffix(s, t);
    } else if c.Pause? {
      assert t == PauseCall(s, r).state;
      PauseFrame(s, r);
    } else if c.Stop? {
      assert t == StopCall(s, r);
      StopFrame(s, r);
      KeepsPauseSuffix(s, t);
    } else if c.SetEngine? {
      assert t == SetEngineCall(s, c.engine, r);
      SetEngineFrame(s, c.engine, r);
      KeepsPauseSuffix(s, t);
    } else if c.AwaitSpeakCompletion? || c.AwaitSynthCompletion? || c.SetQueueMode? || c.SetSilence? {
      assert t == Handle(s, c, r, o).state;
      OptionBranchesFrame(s, c, r, o);
      KeepsPauseSuffix(s, t);
    } else {
      assert t == Handle(s, c, r, o).state;
      QueryBranchesFrame(s, c, r, o);
      KeepsPauseSuffix(s, t);
    }
  }

  lemma FinishInitFrame(s: PluginState, status: int)
    ensures Balanced(s, FinishInit(s, status))
  {
    if status == SUCCESS && s.hasTts {
      ClaimedWhenEngineAnswered(s, FinishInit(s, status), Success(1));
    } else {
      var msg := "Failed to initialize TextToSpeech with status: " + IntToString(status);
      ClaimedWhenEngineAnswered(s, FinishInit(s, status), EngineError("EngineError", msg));
    }
  }

  lemma OnProgressFrame(s: PluginState, id: string, startAt: int, endAt: int)
    ensures SameClaims(s, OnProgress(s, id, startAt, endAt).state)
  {
    if StartsWith(id, SYNTHESIZE_TO_FILE_PREFIX) {
    } else if id !in s.utterances {
    } else if !(0 <= startAt <= endAt <= |s.utterances[id]|) {
    } else {
    }
  }

  lemma OnStartFrame(s: PluginState, sdk: int, id: string)
    ensures SameClaims(s, OnStart(s, sdk, id).state)
  {
    var s1 :=
      if StartsWith(id, SYNTHESIZE_TO_FILE_PREFIX) then Emit(s, "synth.onStart", Flag(true))
      else if s.isPaused then Emit(s, "speak.onContinue", Flag(true)).(isPaused := false)
      else Emit(s, "speak.onStart", Flag(true));
    assert SameClaims(s, s1);
    if sdk < SDK_O && id in s1.utterances {
      OnProgressFrame(s1, id, 0, |s1.utterances[id]|);
    }
  }

  lemma OnRangeStartFrame(s: PluginState, id: string, startAt: int, endAt: int)
    ensures SameClaims(s, OnRangeStart(s, id, startAt, endAt).state)
  {
    if !StartsWith(id, SYNTHESIZE_TO_FILE_PREFIX) {
      OnProgressFrame(s.(lastProgress := startAt), id, startAt, endAt);
    }
  }

  lemma OnDoneSynthFrame(s: PluginState, id: string)
    requires !StartsWith(id, SILENCE_PREFIX) && StartsWith(id, SYNTHESIZE_TO_FILE_PREFIX)
    ensures Balanced(s, OnDone(s, id))
  {
    var s0 := if Synthesizing(s) then SynthCompletion(s, 1) else s;
    SynthCompletionFrame(s, 1);
    var s1 := Emit(s0, "synth.onComplete", Flag(true));
    EmitFrame(s0, "synth.onComplete", Flag(true));
    BalancedThen(s, s0, s1);
    var t := s1.(lastProgress := 0, pauseText := None, utterances := s1.utterances - {id});
    assert OnDone(s, id) == t;
    ClaimedFields(s1, t);
  }

  lemma OnDoneSpeakFrame(s: PluginState, id: string)
    requires !StartsWith(id, SILENCE_PREFIX) && !StartsWith(id, SYNTHESIZE_TO_FILE_PREFIX)
    ensures Balanced(s, OnDone(s, id))
  {
    var s0 := if Speaking(s) && s.queueMode == QUEUE_FLUSH then SpeakCompletion(s, 1) else s;
    SpeakCompletionFrame(s, 1);
    var s1 := Emit(s0, "speak.onComplete", Flag(true));
    EmitFrame(s0, "speak.onComplete", Flag(true));
    BalancedThen(s, s0, s1);
    var t := s1.(lastProgress := 0, pauseText := None, utterances := s1.utterances - {id});
    assert OnDone(s, id) == t;
    ClaimedFields(s1, t);
  }

  lemma OnDoneFrame(s: PluginState, id: string)
    ensures Balanced(s, OnDone(s, id))
  {
    if StartsWith(id, SILENCE_PREFIX) {
      assert OnDone(s, id) == s;
    } else if StartsWith(id, SYNTHESIZE_TO_FILE_PREFIX) {
      OnDoneSynthFrame(s, id);
    } else {
      OnDoneSpeakFrame(s, id);
    }
  }

  lemma OnStopFrame(s: PluginState, id: string, interrupted: bool)
    ensures Balanced(s, OnStop(s, id, interrupted))
  {
    var s1 := if Synthesizing(s) then SynthCompletion(s, 0) else s;
    SynthCompletionFrame(s, 0);
    assert Balanced(s, s1) && s1.isPaused == s.isPaused;
    var s2 := if Speaking(s1) then SpeakCompletion(s1, 0) else s1;
    SpeakCompletionFrame(s1, 0);
    BalancedThen(s, s1, s2);
    var name := if s2.isPaused then "speak.onPause" else "speak.onCancel";
    assert OnStop(s, id, interrupted) == Emit(s2, name, Flag(true));
    EmitFrame(s2, name, Flag(true));
    BalancedThen(s, s2, Emit(s2, name, Flag(true)));
  }

  lemma OnErrorSynthFrame(s: PluginState, id: string, errorCode: Option<int>)
    requires StartsWith(id, SYNTHESIZE_TO_FILE_PREFIX)
    ensures Balanced(s, OnError(s, id, errorCode))
  {
    var suffix := if errorCode.Some? then " - " + IntToString(errorCode.value) else "";
    var s1 := if Synthesizing(s) then SynthCompletion(s, 0) else s;
    SynthCompletionFrame(s, 0);
    var msg := Message("Error from TextToSpeech (synth)" + suffix);
    assert OnError(s, id, errorCode) == Emit(s1, "synth.onError", msg);
    EmitFrame(s1, "synth.onError", msg);
    BalancedThen(s, s1, Emit(s1, "synth.onError", msg));
  }

  lemma OnErrorSpeakFrame(s: PluginState, id: string, errorCode: Option<int>)
    requires !StartsWith(id, SYNTHESIZE_TO_FILE_PREFIX)
    ensures Balanced(s, OnError(s, id, errorCode))
  {
    var suffix := if errorCode.Some? then " - " + IntToString(errorCode.value) else "";
    var s1 := if Speaking(s) then SpeakCompletion(s, 0) else s;
    SpeakCompletionFrame(s, 0);
    var msg := Message("Error from TextToSpeech (speak)" + suffix);
    assert OnError(s, id, errorCode) == Emit(s1, "speak.onError", msg);
    EmitFrame(s1, "speak.onError", msg);
    BalancedThen(s, s1, Emit(s1, "speak.onError", msg));
  }

  lemma OnErrorFrame(s: PluginState, id: string, errorCode: Option<int>)
    ensures Balanced(s, OnError(s, id, errorCode))
  {
    if StartsWith(id, SYNTHESIZE_TO_FILE_PREFIX) {
      OnErrorSynthFrame(s, id, errorCode);
    } else {
      OnErrorSpeakFrame(s, id, errorCode);
    }
  }

  /* ---------------------------------------------------------------------------
     At most one answer per result
     --------------------------------------------------------------------------- */

  lemma OnceBelow(m: multiset<ResultId>, n: multiset<ResultId>)
    requires m <= n && Once(n)
    ensures Once(m)
  {
    forall x ensures m[x] <= 1 {
      assert m[x] <= n[x];
    }
  }

  /** A call handed a result the plugin has never seen keeps every result claimed
      at most once, and claims nothing but that result. */
  lemma DispatchKeepsAtMostOnce(s: PluginState, c: MethodCall, r: ResultId, o: Oracle)
    requires AtMostOnce(s) && PauseSuffix(s) && r !in Ids(s)
    ensures var t := Dispatch(s, c, r, o).state;
      AtMostOnce(t) && PauseSuffix(t) && Ids(t) <= Ids(s) + multiset{r}
  {
    var t := Dispatch(s, c, r, o).state;
    DispatchFrame(s, c, r, o);
    if t.pendingMethodCalls != s.pendingMethodCalls {
      PendingIdsAppendOne(s.pendingMethodCalls, PendingCall(c, r));
    }
    assert Ids(t) <= Ids(s) + multiset{r};
    OnceBelow(Ids(t), Ids(s) + multiset{r});
  }

  /** While the queue is replayed, the results of the calls still to come are each
      claimed at most once together with everything claimed so far. */
  lemma {:induction false} DrainKeepsAtMostOnce(s: PluginState, n: nat, oracles: seq<Oracle>, i: nat)
    requires i <= n == |s.pendingMethodCalls| <= |oracles|
    requires Once(Claimed(s) + PendingIds(s.pendingMethodCalls[i..])) && PauseSuffix(s)
    ensures var d := Drain(s, n, oracles, i);
      d.outcome.Normal? ==>
        AtMostOnce(d.state) && PauseSuffix(d.state) &&
        Ids(d.state) <= Claimed(s) + PendingIds(s.pendingMethodCalls[i..])
    decreases n - i
  {
    var rest := s.pendingMethodCalls[i..];
    if i == n {
      assert rest == [];
      assert Ids(Drain(s, n, oracles, i).state) == Claimed(s);
    } else {
      var p := s.pendingMethodCalls[i];
      var st := Dispatch(s, p.call, p.result, oracles[i]);
      DrainStep(s, n, oracles, i, st);
      PendingIdsTail(s.pendingMethodCalls, i);
      DispatchFrame(s, p.call, p.result, oracles[i]);
      if st.outcome.Normal? && |st.state.pendingMethodCalls| == n {
        assert st.state.pendingMethodCalls == s.pendingMethodCalls;
        var m := Claimed(st.state) + PendingIds(st.state.pendingMethodCalls[i + 1..]);
        assert m <= Claimed(s) + PendingIds(rest);
        OnceBelow(m, Claimed(s) + PendingIds(rest));
        DrainKeepsAtMostOnce(st.state, n, oracles, i + 1);
      }
    }
  }

  /** `onInitListener` keeps every result claimed at most once and claims no new one. */
  lemma OnInitKeepsAtMostOnce(s: PluginState, status: int, oracles: seq<Oracle>)
    requires |oracles| == |s.pendingMethodCalls|
    requires AtMostOnce(s) && PauseSuffix(s)
    ensures var st := OnInit(s, status, oracles);
      st.outcome.Normal? ==> AtMostOnce(st.state) && PauseSuffix(st.state) && Ids(st.state) <= Ids(s)
  {
    var s1 := s.(ttsStatus := Some(status), isInitializing := false);
    assert s1.pendingMethodCalls[0..] == s.pendingMethodCalls;
    ClaimedFields(s, s1);
    assert Ids(s) == Claimed(s1) + PendingIds(s1.pendingMethodCalls[0..]);
    var d := Drain(s1, |s1.pendingMethodCalls|, oracles, 0);
    DrainKeepsAtMostOnce(s1, |s1.pendingMethodCalls|, oracles, 0);
    if d.outcome.Normal? {
      assert OnInit(s, status, oracles) == Step(FinishInit(d.state, status), Normal);
      FinishInitFrame(d.state, status);
      CallbackKeeps(d.state, FinishInit(d.state, status));
    }
  }

  /** A callback that claims nothing new keeps both invariants. */
  lemma CallbackKeeps(s: PluginState, t: PluginState)
    requires AtMostOnce(s) && PauseSuffix(s)
    requires Balanced(s, t)
    ensures AtMostOnce(t) && PauseSuffix(t) && Ids(t) == Ids(s)
  {
  }

  lemma SameClaimsBalanced(s: PluginState, t: PluginState)
    requires SameClaims(s, t)
    ensures Balanced(s, t)
  {
  }

  /** A result that is held or parked has not been answered. */
  lemma AtMostOnceNotAnswered(s: PluginState, x: ResultId)
    requires AtMostOnce(s)
    requires x in OptIds(s.speakResult) + OptIds(s.synthResult) + OptIds(s.engineResult) + PendingIds(s.pendingMethodCalls)
    ensures forall k :: 0 <= k < |s.replies| ==> s.replies[k].result != x
  {
    var h := OptIds(s.speakResult) + OptIds(s.synthResult) + OptIds(s.engineResult) + PendingIds(s.pendingMethodCalls);
    assert Ids(s) == h + ReplyIds(s.replies);
    assert Ids(s)[x] <= 1;
    assert x !in ReplyIds(s.replies);
    forall k | 0 <= k < |s.replies|
      ensures s.replies[k].result != x
    {
      ReplyIdsHas(s.replies, k);
    }
  }

  /** Two positions of a sequence in which a value occurs at most once differ in value. */
  lemma DistinctWhenOnce(xs: seq<ResultId>, j: int, k: int)
    requires 0 <= j < k < |xs| && multiset(xs)[xs[k]] <= 1
    ensures xs[j] != xs[k]
  {
    assert xs == xs[..k] + xs[k..];
    assert xs[..k][j] == xs[j] && xs[k..][0] == xs[k];
    assert multiset(xs) == multiset(xs[..k]) + multiset(xs[k..]);
    assert xs[k] in multiset(xs[k..]);
    assert xs[k] !in multiset(xs[..k]);
    assert xs[j] in multiset(xs[..k]);
  }

  /** No result has been answered twice. */
  lemma AtMostOnceNoDoubleAnswer(s: PluginState)
    requires AtMostOnce(s)
    ensures forall j, k :: 0 <= j < k < |s.replies| ==> s.replies[j].result != s.replies[k].result
  {
    var xs := ReplyResults(s.replies);
    forall j, k | 0 <= j < k < |s.replies|
      ensures s.replies[j].result != s.replies[k].result
    {
      assert Ids(s)[xs[k]] <= 1;
      assert multiset(xs)[xs[k]] <= Ids(s)[xs[k]];
      DistinctWhenOnce(xs, j, k);
    }
  }

  /* ---------------------------------------------------------------------------
     Runs
     --------------------------------------------------------------------------- */

  /** One event the plugin reacts to: a method call from Dart (with what the engine
      decides for it), the engine's initialisation status, or an utterance callback. */
  datatype Input =
    | Call(call: MethodCall, oracle: Oracle)
    | InitStatus(status: int, oracles: seq<Oracle>)
    | Started(id: string)
    | Done(id: string)
    | Stopped(id: string, interrupted: bool)
    | RangeStarted(id: string, startAt: int, endAt: int)
    | Failed(id: string, errorCode: Option<int>)

  /** The reaction to one input; a call receives the result `issued`. An init status
      whose decisions do not match the queue is not a possible input and is ignored. */
  function Next(s: PluginState, sdk: int, issued: ResultId, input: Input): Step {
    match input
    case Call(c, o) => Dispatch(s, c, issued, o)
    case InitStatus(status, oracles) =>
      if |oracles| == |s.pendingMethodCalls| then OnInit(s, status, oracles) else Step(s, Normal)
    case Started(id) => OnStart(s, sdk, id)
    case Done(id) => Step(OnDone(s, id), Normal)
    case Stopped(id, interrupted) => Step(OnStop(s, id, interrupted), Normal)
    case RangeStarted(id, startAt, endAt) => OnRangeStart(s, id, startAt, endAt)
    case Failed(id, errorCode) => Step(OnError(s, id, errorCode), Normal)
  }

  /** The state after the inputs, each received by a handler that returned normally;
      the run stops before the first input whose handler throws. The k-th input's call
      gets the result `next + k`. */
  function Run(s: PluginState, sdk: int, next: ResultId, inputs: seq<Input>): PluginState
    decreases |inputs|
  {
    if inputs == [] then s
    else
      var st := Next(s, sdk, next, inputs[0]);
      if st.outcome.Thrown? then s else Run(st.state, sdk, next + 1, inputs[1..])
  }

  /** Every result the plugin knows was handed out before `next`. */
  ghost predicate IssuedBefore(s: PluginState, next: ResultId) {
    forall x :: x in Ids(s) ==> x < next
  }

  lemma NextKeepsInvariants(s: PluginState, sdk: int, next: ResultId, input: Input)
    requires AtMostOnce(s) && PauseSuffix(s) && IssuedBefore(s, next)
    ensures var st := Next(s, sdk, next, input);
      st.outcome.Normal? ==> AtMostOnce(st.state) && PauseSuffix(st.state) && IssuedBefore(st.state, next + 1)
  {
    var t := Next(s, sdk, next, input).state;
    match input
    case Call(c, o) =>
      assert next !in Ids(s);
      DispatchKeepsAtMostOnce(s, c, next, o);
      forall x | x in Ids(t) ensures x < next + 1 {
        assert x in Ids(s) + multiset{next};
      }
    case InitStatus(status, oracles) =>
      if |oracles| == |s.pendingMethodCalls| {
        OnInitKeepsAtMostOnce(s, status, oracles);
        if Next(s, sdk, next, input).outcome.Normal? {
          forall x | x in Ids(t) ensures x < next + 1 {
            assert x in Ids(s);
          }
        }
      }
    case Started(id) =>
      OnStartFrame(s, sdk, id);
      SameClaimsBalanced(s, t);
      CallbackKeeps(s, t);
    case Done(id) =>
      OnDoneFrame(s, id);
      CallbackKeeps(s, t);
    case Stopped(id, interrupted) =>
      OnStopFrame(s, id, interrupted);
      CallbackKeeps(s, t);
    case RangeStarted(id, startAt, endAt) =>
      OnRangeStartFrame(s, id, startAt, endAt);
      SameClaimsBalanced(s, t);
      CallbackKeeps(s, t);
    case Failed(id, errorCode) =>
      OnErrorFrame(s, id, errorCode);
      CallbackKeeps(s, t);
  }

  /** Why a run stops at its first throw: a fresh plugin that receives `setEngine`
      and then any other call before the engine reports its status throws in that
      `onInit`, and the state it leaves has the second call parked twice. */
  lemma SetEngineBeforeInitThrows(sdk: int, e: string, c: MethodCall, o0: Oracle, o1: Oracle,
                                  status: int, q0: Oracle, q1: Oracle)
    ensures var s := Run(Initial(), sdk, 0, [Call(SetEngine(e), o0), Call(c, o1)]);
      var st := Next(s, sdk, 2, InitStatus(status, [q0, q1]));
      s.pendingMethodCalls == [PendingCall(SetEngine(e), 0), PendingCall(c, 1)] &&
      st.outcome == Thrown(ConcurrentModification) && !AtMostOnce(st.state)
  {
    var inputs := [Call(SetEngine(e), o0), Call(c, o1)];
    var s0 := Initial();
    var s1 := Defer(s0, SetEngine(e), 0);
    assert Next(s0, sdk, 0, inputs[0]) == Step(s1, Normal);
    var s2 := Defer(s1, c, 1);
    assert s1.isInitializing && s1.ttsStatus.None? && s1.hasTts;
    assert Next(s1, sdk, 1, inputs[1]) == Step(s2, Normal);
    assert inputs[1..] == [Call(c, o1)] && inputs[1..][1..] == [];
    assert Run(s1, sdk, 1, inputs[1..]) == Run(s2, sdk, 2, []);
    assert Run(s0, sdk, 0, inputs) == Run(s1, sdk, 1, inputs[1..]);
    assert s2.pendingMethodCalls == [PendingCall(SetEngine(e), 0), PendingCall(c, 1)] + [];
    ReplayedSetEngineThenCallThrows(s2, e, 0, PendingCall(c, 1), [], status, [q0, q1]);
    var u := OnInit(s2, status, [q0, q1]).state;
    assert Next(s2, sdk, 2, InitStatus(status, [q0, q1])) == OnInit(s2, status, [q0, q1]);
    var ps := s2.pendingMethodCalls;
    PendingIdsAppendOne(ps, PendingCall(c, 1));
    assert PendingResults(ps)[1] == 1;
    assert 1 in PendingIds(ps);
    assert PendingIds(u.pendingMethodCalls)[1] >= 2;
    assert Ids(u)[1] >= 2;
  }

  lemma {:induction false} RunKeepsInvariants(s: PluginState, sdk: int, next: ResultId, inputs: seq<Input>)
    requires AtMostOnce(s) && PauseSuffix(s) && IssuedBefore(s, next)
    ensures AtMostOnce(Run(s, sdk, next, inputs)) && PauseSuffix(Run(s, sdk, next, inputs))
    decreases |inputs|
  {
    if inputs != [] {
      var st := Next(s, sdk, next, inputs[0]);
      NextKeepsInvariants(s, sdk, next, inputs[0]);
      if st.outcome.Normal? {
        RunKeepsInvariants(st.state, sdk, next + 1, inputs[1..]);
      }
    }
  }

  /** In every run of a freshly attached plugin, however the engine and the
      callbacks behave, no `Result` is answered twice, a held result is not yet
      answered, and the pause text is a tail of the current text. */
  lemma NoResultAnsweredTwice(sdk: int, inputs: seq<Input>)
    ensures var t := Run(Initial(), sdk, 0, inputs);
      PauseSuffix(t) &&
      (forall j, k :: 0 <= j < k < |t.replies| ==> t.replies[j].result != t.replies[k].result) &&
      (forall k :: 0 <= k < |t.replies| ==> Some(t.replies[k].result) != t.speakResult) &&
      (forall k :: 0 <= k < |t.replies| ==> Some(t.replies[k].result) != t.synthResult) &&
      (forall k :: 0 <= k < |t.replies| ==> Some(t.replies[k].result) != t.engineResult)
  {
    assert ReplyResults(Initial().replies) == [] && PendingResults(Initial().pendingMethodCalls) == [];
    assert Ids(Initial()) == multiset{};
    RunKeepsInvariants(Initial(), sdk, 0, inputs);
    var t := Run(Initial(), sdk, 0, inputs);
    AtMostOnceNoDoubleAnswer(t);
    if t.speakResult.Some? {
      AtMostOnceNotAnswered(t, t.speakResult.value);
    }
    if t.synthResult.Some? {
      AtMostOnceNotAnswered(t, t.synthResult.value);
    }
    if t.engineResult.Some? {
      AtMostOnceNotAnswered(t, t.engineResult.value);
    }
  }
}
