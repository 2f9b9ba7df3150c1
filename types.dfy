/** Values exchanged between the flutter_tts Android plugin, the Flutter method
    channel and the operating system's TextToSpeech engine. */
module TtsTypes {

  datatype Option<+T> = None | Some(value: T)

  /** A pending Flutter `Result` object, identified by the channel. */
  type ResultId = nat

  /** An incoming method call, already decoded from the channel's arguments. */
  datatype MethodCall =
    | Speak(text: string)
    | Pause
    | Stop
    | AwaitSpeakCompletion(enabled: bool)
    | AwaitSynthCompletion(enabled: bool)
    | SynthesizeToFile(text: string, fileName: string)
    | SetEngine(engine: string)
    | SetQueueMode(mode: int)
    | SetSilence(ms: int)
    | SetSharedInstance
    | GetCurrentEngine
      /** a call whose answer is copied from the engine (voices, languages, rate, ...) */
    | EngineQuery(name: string)
      /** a method name the plugin does not know */
    | Unknown(name: string)

  /** A call parked until the engine has reported its initialisation status. */
  datatype PendingCall = PendingCall(call: MethodCall, result: ResultId)

  /** What a `Result` is answered with. */
  datatype Answer =
    | Success(code: int)
    | SuccessText(text: string)
      /** data produced by the engine for a pass-through call */
    | EngineData(name: string)
    | EngineError(errorCode: string, message: string)
    | NotImplemented

  datatype Reply = Reply(result: ResultId, answer: Answer)

  /** Argument of an event sent back to the Dart side with `invokeMethod`. */
  datatype EventArg =
    | Flag(flag: bool)
    | Message(text: string)
    | Progress(text: string, start: string, end: string, word: string)

  datatype Event = Event(name: string, arg: EventArg)

  /** The calls the plugin makes on the TextToSpeech engine. */
  datatype EngineCall =
    | CreateEngine(engine: Option<string>)
    | ShutdownEngine
    | StopEngine
    | SpeakText(text: string, queueMode: int, utteranceId: string)
    | PlaySilence(ms: int, queueMode: int, utteranceId: string)
    | SynthesizeFile(text: string, fileName: string, utteranceId: string)
    | SetProgressListener

  /** What the engine and the runtime decide for one dispatched call: the UUID the
      call would draw, whether the reflective probe finds the service connection
      usable, and the status code `TextToSpeech.speak` returns. */
  datatype Oracle = Oracle(uuid: string, connectionUsable: bool, speakStatus: int)

  datatype JvmException = NullPointer | StringIndexOutOfBounds | ConcurrentModification

  /** Whether a handler returned normally or threw. */
  datatype Outcome = Normal | Thrown(exception: JvmException)

  const QUEUE_FLUSH: int := 0
  const QUEUE_ADD: int := 1
  const SUCCESS: int := 0
  /** Build.VERSION_CODES.O, the first SDK with `onRangeStart` */
  const SDK_O: int := 26

  const SILENCE_PREFIX: string := "SIL_"
  const SYNTHESIZE_TO_FILE_PREFIX: string := "STF_"

  predicate StartsWith(s: string, prefix: string) {
    |prefix| <= |s| && s[..|prefix|] == prefix
  }

  /** `b` ends with `a` */
  predicate IsSuffix(a: string, b: string) {
    |a| <= |b| && b[|b| - |a|..] == a
  }

  const HEX_DIGITS: string := "0123456789abcdef"

  /** The shape of `UUID.randomUUID().toString()`: 8-4-4-4-12 lower-case hex digits. */
  predicate IsUuid(u: string) {
    |u| == 36 &&
    forall i :: 0 <= i < 36 ==>
      if i == 8 || i == 13 || i == 18 || i == 23 then u[i] == '-' else u[i] in HEX_DIGITS
  }

  function DigitChar(d: nat): char
    requires d < 10
  {
    "0123456789"[d]
  }

  /** Decimal form of `n`, as Kotlin's `toString` writes it. */
  function NatToString(n: nat): string
    decreases n
  {
    if n < 10 then [DigitChar(n)] else NatToString(n / 10) + [DigitChar(n % 10)]
  }

  function IntToString(i: int): string {
    if i < 0 then "-" + NatToString(-i) else NatToString(i)
  }
}
