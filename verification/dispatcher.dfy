// How the MRCP applications react to what the server sends
// (app-unimrcp/app_msg_process_dispatcher.c): the response and event
// tables of the recognizer and verifier channels, the channel-added
// callback and the audio source that feeds recognition.

module Dispatcher {
  import opened Text
  import opened AudioQueue
  import opened SpeechChannel
  import opened ChannelMethods

  datatype MessageType = Response | Event | OtherMessageType

  /** The request state of a response (section 5.3 of RFC 6787). */
  datatype RequestState = Complete | InProgress | Pending | OtherRequestState

  /**
   * Method names of the synthesizer (section 8 of RFC 6787), recognizer
   * (section 9) and verifier (section 11) resources, requests and events
   * alike; what a handler does not name is `OtherMethod`.
   */
  datatype Method =
    | Speak | SynthStop | BargeInOccurred | SpeakComplete
    | Recognize | RecogStop | RecogStartInputTimers | DefineGrammar
    | RecognitionComplete | RecogStartOfInput
    | Verify | VerifyFromBuffer | StartSession | VerifStartInputTimers
    | VerifyRollback | ClearBuffer | VerificationComplete | VerifStartOfInput
    | OtherMethod

  /**
   * A received message: its type, method, request state and status code,
   * the Completion-Cause header (`causeKnown` is false when it holds the
   * library's "unknown" value), the body and the Waveform-URI header.
   */
  datatype Message = Message(mtype: MessageType, methodId: Method, requestState: RequestState,
                             statusCode: int, cause: int, causeKnown: bool,
                             body: string, waveformUri: string)

  /** What a handler does: results recorded first, then flags, then the new state. */
  datatype Effect = Effect(results: Option<(int, string, string)>, timersStarted: bool,
                           startOfInput: bool, newState: Option<ChannelState>)

  const NoEffect := Effect(None, false, false, None)

  predicate Success(code: int) {
    200 <= code <= 299
  }

  /** The results a failed request records: its completion cause, when the server named one. */
  function FailureResults(m: Message): Option<(int, string, string)> {
    if m.causeKnown then Some((m.cause, "", "")) else None
  }

  /** The table of `recog_on_message_receive`. */
  function RecogEffect(m: Message): Effect {
    match m.mtype
    case Response =>
      (match m.methodId
       case Recognize =>
         (match m.requestState
          case InProgress => NoEffect.(newState := Some(Processing))
          case Complete => Effect(FailureResults(m), false, false, Some(Error))
          case Pending => NoEffect
          case OtherRequestState => NoEffect.(newState := Some(Error)))
       case RecogStop =>
         NoEffect.(newState := Some(if m.requestState == Complete then Ready else Error))
       case RecogStartInputTimers =>
         NoEffect.(timersStarted := m.requestState == Complete && Success(m.statusCode))
       case DefineGrammar =>
         if m.requestState != Complete then NoEffect
         else if Success(m.statusCode) then NoEffect.(newState := Some(Ready))
         else Effect(FailureResults(m), false, false, Some(Error))
       case _ => NoEffect.(newState := Some(Error)))
    case Event =>
      (match m.methodId
       case RecognitionComplete =>
         Effect(Some((m.cause, m.body, m.waveformUri)), false, false, Some(Ready))
       case RecogStartOfInput => NoEffect.(startOfInput := true)
       case _ => NoEffect.(newState := Some(Error)))
    case OtherMessageType => NoEffect.(newState := Some(Error))
  }

  /** The table of `verif_on_message_receive`. */
  function VerifEffect(m: Message): Effect {
    match m.mtype
    case Response =>
      (match m.methodId
       case Verify => VerifyResponseEffect(m)
       case VerifyFromBuffer => VerifyResponseEffect(m)
       case StartSession =>
         NoEffect.(newState := Some(if m.requestState == Complete then Ready else Error))
       case VerifStartInputTimers =>
         NoEffect.(timersStarted := m.requestState == Complete && Success(m.statusCode))
       case VerifyRollback => BufferResponseEffect(m)
       case ClearBuffer => BufferResponseEffect(m)
       case _ => NoEffect.(newState := Some(Error)))
    case Event =>
      (match m.methodId
       case VerificationComplete =>
         Effect(Some((m.cause, m.body, m.waveformUri)), false, false, Some(Ready))
       case VerifStartOfInput => NoEffect.(startOfInput := true)
       case _ => NoEffect.(newState := Some(Error)))
    case OtherMessageType => NoEffect.(newState := Some(Error))
  }

  /** VERIFY and VERIFY-FROM-BUFFER responses are handled as RECOGNIZE responses. */
  function VerifyResponseEffect(m: Message): Effect {
    match m.requestState
    case InProgress => NoEffect.(newState := Some(Processing))
    case Complete => Effect(FailureResults(m), false, false, Some(Error))
    case Pending => NoEffect
    case OtherRequestState => NoEffect.(newState := Some(Error))
  }

  /** CLEAR-BUFFER and VERIFY-ROLLBACK: once complete, the status code is recorded as the cause; 2xx means READY. */
  function BufferResponseEffect(m: Message): Effect {
    if m.requestState != Complete then NoEffect
    else Effect(Some((m.statusCode, "", "")), false, false, if Success(m.statusCode) then Some(Ready) else None)
  }

  /**
   * The recognizer table as the source states it, read row by row: which
   * messages move the channel to PROCESSING, to READY, or leave its state
   * alone, and which record results.
   */
  lemma RecogTable(m: Message)
    ensures RecogEffect(m).newState == Some(Processing) <==>
      m.mtype == Response && m.methodId == Recognize && m.requestState == InProgress
    ensures RecogEffect(m).newState == Some(Ready) <==>
      (m.mtype == Response && m.methodId == RecogStop && m.requestState == Complete) ||
      (m.mtype == Response && m.methodId == DefineGrammar && m.requestState == Complete && Success(m.statusCode)) ||
      (m.mtype == Event && m.methodId == RecognitionComplete)
    ensures RecogEffect(m).newState == None <==>
      (m.mtype == Response && m.methodId == Recognize && m.requestState == Pending) ||
      (m.mtype == Response && m.methodId == RecogStartInputTimers) ||
      (m.mtype == Response && m.methodId == DefineGrammar && m.requestState != Complete) ||
      (m.mtype == Event && m.methodId == RecogStartOfInput)
    ensures RecogEffect(m).results.Some? <==>
      (m.mtype == Event && m.methodId == RecognitionComplete) ||
      (m.mtype == Response && m.causeKnown && m.requestState == Complete &&
       (m.methodId == Recognize || (m.methodId == DefineGrammar && !Success(m.statusCode))))
    ensures RecogEffect(m).timersStarted ==>
      m.methodId == RecogStartInputTimers && Success(m.statusCode) && RecogEffect(m).newState == None
  {
  }

  /** The verifier table read row by row, as `RecogTable`; buffer operations never move the channel to ERROR. */
  lemma VerifTable(m: Message)
    ensures VerifEffect(m).newState == Some(Processing) <==>
      m.mtype == Response && (m.methodId == Verify || m.methodId == VerifyFromBuffer) && m.requestState == InProgress
    ensures VerifEffect(m).newState == Some(Ready) <==>
      (m.mtype == Response && m.methodId == StartSession && m.requestState == Complete) ||
      (m.mtype == Response && (m.methodId == VerifyRollback || m.methodId == ClearBuffer) &&
       m.requestState == Complete && Success(m.statusCode)) ||
      (m.mtype == Event && m.methodId == VerificationComplete)
    ensures m.mtype == Response && (m.methodId == VerifyRollback || m.methodId == ClearBuffer) ==>
      VerifEffect(m).newState != Some(Error) &&
      (VerifEffect(m).results.Some? <==> m.requestState == Complete) &&
      (m.requestState == Complete ==> VerifEffect(m).results.value.0 == m.statusCode)
    ensures VerifEffect(m).timersStarted ==>
      m.methodId == VerifStartInputTimers && Success(m.statusCode) && VerifEffect(m).newState == None
  {
  }

  /** Messages of the other resource are unexpected on each channel and move it to ERROR. */
  lemma ForeignMethodsAreErrors(m: Message)
    ensures m.methodId in {Verify, VerifyFromBuffer, StartSession, VerifyRollback, ClearBuffer,
                         VerificationComplete, VerifStartOfInput, VerifStartInputTimers} ==>
      RecogEffect(m).newState == Some(Error)
    ensures m.methodId in {Recognize, RecogStop, DefineGrammar, RecognitionComplete,
                         RecogStartOfInput, RecogStartInputTimers} ==>
      VerifEffect(m).newState == Some(Error)
  {
  }

  /** Carries out an effect on the channel: the calls `channel_set_results`, `channel_set_*` and `speech_channel_set_state` in that order. */
  method Apply(ch: SpeechChannel, e: Effect)
    requires ch.Valid()
    modifies ch`state, ch.queue.buffer`used, ch.data
    ensures ch.Valid()
    ensures ch.state == (if e.newState.Some? then e.newState.value else old(ch.state))
    ensures ch.queue.Contents() ==
      (if old(ch.state) == Processing && e.newState.Some? && e.newState.value != Processing then []
       else old(ch.queue.Contents()))
    ensures ch.data != null ==>
      ch.data.grammars == old(ch.data.grammars) && ch.data.lastGrammar == old(ch.data.lastGrammar) &&
      ch.data.Record() == ApplyToRecord(old(ch.data.Record()), e)
  {
    if e.results.Some? {
      var (cause, result, uri) := e.results.value;
      var _ := ChannelSetResults(ch, cause, result, uri);
    }
    if e.timersStarted {
      var _ := ChannelSetTimersStarted(ch);
    }
    if e.startOfInput {
      var _ := ChannelSetStartOfInput(ch);
    }
    if e.newState.Some? {
      ch.SetStateUnlocked(e.newState.value);
    }
  }

  /** What an effect does to the result record. */
  function ApplyToRecord(rec: ResultRecord, e: Effect): ResultRecord {
    var r1 := if e.results.Some? then AcceptResults(rec, e.results.value.0, e.results.value.1, e.results.value.2).1 else rec;
    var r2 := if e.timersStarted then r1.(timersStarted := 1) else r1;
    if e.startOfInput then r2.(startOfInput := 1) else r2
  }

  /**
   * A RECOGNITION-COMPLETE or VERIFICATION-COMPLETE arriving after the
   * request was started (cause -1) is what the application reads back: its
   * cause as three digits, its body and its waveform URI.
   */
  lemma CompletionIsReadBack(rec: ResultRecord, m: Message)
    requires m.mtype == Event && m.methodId == RecognitionComplete
    requires rec.completionCause == -1 && m.cause >= 0 && |m.body| > 0 && |m.waveformUri| > 0
    ensures var after := ApplyToRecord(rec, RecogEffect(m));
      var got := TakeResults(after, true, true, true);
      Atoi(got.1.value) == m.cause && got.2 == Some(m.body) && got.3 == Some(m.waveformUri)
  {
    var e := RecogEffect(m);
    assert e == Effect(Some((m.cause, m.body, m.waveformUri)), false, false, Some(Ready));
    assert ApplyToRecord(rec, e) == AcceptResults(rec, m.cause, m.body, m.waveformUri).1;
    SetThenGetRoundTrip(rec, m.cause, m.body, m.waveformUri);
  }

  /** A failed RECOGNIZE whose cause was recorded keeps it against a later RECOGNITION-COMPLETE. */
  lemma FirstCauseWins(rec: ResultRecord, failed: Message, late: Message)
    requires rec.completionCause < 0
    requires failed.mtype == Response && failed.methodId == Recognize && failed.requestState == Complete
    requires failed.causeKnown && failed.cause >= 0
    requires late.mtype == Event && late.methodId == RecognitionComplete
    ensures var r1 := ApplyToRecord(rec, RecogEffect(failed));
      r1.completionCause == failed.cause && ApplyToRecord(r1, RecogEffect(late)) == r1
  {
  }

  /** `recog_on_message_receive`: always TRUE once there is a channel and a message. */
  method RecogOnMessageReceive(ch: SpeechChannel, m: Message) returns (handled: bool)
    requires ch.Valid()
    modifies ch`state, ch.queue.buffer`used, ch.data
    ensures ch.Valid() && handled
    ensures var e := RecogEffect(m);
      ch.state == (if e.newState.Some? then e.newState.value else old(ch.state)) &&
      (ch.data != null ==> ch.data.Record() == ApplyToRecord(old(ch.data.Record()), e))
  {
    Apply(ch, RecogEffect(m));
    handled := true;
  }

  /** `verif_on_message_receive`: always TRUE once there is a channel and a message. */
  method VerifOnMessageReceive(ch: SpeechChannel, m: Message) returns (handled: bool)
    requires ch.Valid()
    modifies ch`state, ch.queue.buffer`used, ch.data
    ensures ch.Valid() && handled
    ensures var e := VerifEffect(m);
      ch.state == (if e.newState.Some? then e.newState.value else old(ch.state)) &&
      (ch.data != null ==> ch.data.Record() == ApplyToRecord(old(ch.data.Record()), e))
  {
    Apply(ch, VerifEffect(m));
    handled := true;
  }

  /**
   * `speech_on_channel_add`: on success the codec descriptor (`rate`, None
   * when there is none) must be there; its sampling rate becomes the
   * channel's, the server's session id is kept unless the channel already
   * has one, and the channel is READY. A missing descriptor gives ERROR and
   * FALSE, a failure status ERROR and TRUE.
   */
  method SpeechOnChannelAdd(ch: SpeechChannel, success: bool, rate: Option<nat>, serverSessionId: Option<string>)
    returns (ok: bool)
    requires ch.Valid()
    modifies ch`state, ch`rate, ch`sessionId, ch.queue.buffer`used
    ensures ch.Valid()
    ensures ok <==> !success || rate.Some?
    ensures ch.state == (if success && rate.Some? then Ready else Error)
    ensures ch.rate == (if success && rate.Some? then rate.value else old(ch.rate))
    ensures ch.sessionId ==
      (if success && rate.Some? && old(ch.sessionId).None? then serverSessionId else old(ch.sessionId))
  {
    if success {
      if rate.None? {
        ch.SetStateUnlocked(Error);
        return false;
      }
      ch.rate := rate.value;
      if ch.sessionId.None? {
        ch.sessionId := serverSessionId;
      }
      ch.SetStateUnlocked(Ready);
    } else {
      ch.SetStateUnlocked(Error);
    }
    ok := true;
  }

  /** `memset(buf + from, b, |buf| - from)` */
  method FillFrom(buf: array<byte>, from: nat, b: byte)
    requires from <= buf.Length
    modifies buf
    ensures buf[..from] == old(buf[..from])
    ensures forall i :: from <= i < buf.Length ==> buf[i] == b
  {
    var k := from;
    while k < buf.Length
      invariant from <= k <= buf.Length
      invariant buf[..from] == old(buf[..from])
      invariant forall i :: from <= i < k ==> buf[i] == b
    {
      buf[k] := b;
      k := k + 1;
    }
  }

  /**
   * `stream_read`: while the DTMF generator is sending, the frame is its
   * (not modelled) and nothing is read. Otherwise a PROCESSING channel
   * fills the frame from its audio queue without blocking and pads the
   * rest with its silence byte, and the frame is marked as audio; any
   * other channel leaves the frame alone.
   */
  method StreamRead(ch: SpeechChannel, frame: array<byte>, dtmfSending: bool) returns (ok: bool, audio: bool)
    requires ch.Valid() && frame != ch.queue.buffer.data
    modifies ch.queue`waiting, ch.queue`readBytes, ch.queue`writeBytes, ch.queue.buffer`used, ch.queue.buffer.data, frame
    ensures ch.Valid() && ok
    ensures audio <==> !dtmfSending && old(ch.state) == Processing
    ensures !audio ==> frame[..] == old(frame[..]) && ch.queue.Contents() == old(ch.queue.Contents())
    ensures audio ==>
      var n := Min(|old(ch.queue.Contents())|, frame.Length);
      (frame[..n], ch.queue.Contents()) == BufferRead(old(ch.queue.Contents()), n) &&
      (forall i :: n <= i < frame.Length ==> frame[i] == ch.silence)
  {
    ok := true;
    audio := false;
    if dtmfSending {
      return;
    }
    var status, n := ch.Read(frame, frame.Length, false, []);
    if status == 0 {
      ghost var got := frame[..n];
      FillFrom(frame, n, ch.silence);
      assert frame[..n] == got;
      audio := true;
    }
  }
}
