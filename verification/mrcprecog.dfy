// The MRCPRecog dialplan application (app-unimrcp/app_mrcprecog.c): its
// options, its prompt cursor, its strict result getter, its own copy of the
// recognizer message handler and the policies it derives from the options.

module MrcpRecog {
  import opened Text
  import opened AppOptions
  import opened SpeechChannel
  import opened ChannelMethods
  import opened Dispatcher
  import Nlsml
  import RecogDatastore
  import AppDatastore

  // ---------------------------------------------------------------------------
  // Options

  /** The flag keys of MRCPRecog, by lower-case key. */
  const FLAG_KEYS: map<string, Flag> := map[
    "p" := Profile, "i" := Interrupt, "f" := Filename, "b" := Bargein, "gd" := GrammarDelimiters,
    "epe" := ExitOnPlayError, "uer" := UriEncodedResults, "od" := OutputDelimiters, "sit" := InputTimers]

  /**
   * `mrcprecog_option_apply`: a recognizer header key stores its value
   * under its fixed header name in `recog_hfs`, a flag key sets its flag
   * and parameter, any other key changes nothing; keys compare ignoring case.
   */
  function Route(key: string): (r: seq<Action>)
    ensures Plain(r) && |r| <= 1
    ensures ToLower(key) in RECOG_HEADER_KEYS ==> r == [SetHeader(RecogHfs, RECOG_HEADER_KEYS[ToLower(key)])]
    ensures ToLower(key) in FLAG_KEYS ==> r == [SetFlag(FLAG_KEYS[ToLower(key)])]
    ensures r == [] <==> ToLower(key) !in RECOG_HEADER_KEYS && ToLower(key) !in FLAG_KEYS
  {
    var k := ToLower(key);
    FlagKeysSetNoHeader(k);
    HeaderFrom(RECOG_HEADER_KEYS, RecogHfs, k) + FlagFrom(FLAG_KEYS, k)
  }

  /** No flag key is a header key (small lemmas over a few keys each keep the proof cheap). */
  lemma FlagKeysSetNoHeader(k: string)
    ensures k in FLAG_KEYS ==> k !in RECOG_HEADER_KEYS
  {
    ProfileKeysSetNoHeader();
    PromptKeysSetNoHeader();
    ResultKeysSetNoHeader();
  }

  lemma ProfileKeysSetNoHeader()
    ensures "p" !in RECOG_HEADER_KEYS && "i" !in RECOG_HEADER_KEYS && "f" !in RECOG_HEADER_KEYS
  {
  }

  lemma PromptKeysSetNoHeader()
    ensures "b" !in RECOG_HEADER_KEYS && "gd" !in RECOG_HEADER_KEYS && "epe" !in RECOG_HEADER_KEYS
  {
  }

  lemma ResultKeysSetNoHeader()
    ensures "uer" !in RECOG_HEADER_KEYS && "od" !in RECOG_HEADER_KEYS && "sit" !in RECOG_HEADER_KEYS
  {
  }

  /** `t` (in any case) is the recognition timeout and `sit` the input-timer flag. */
  lemma RouteExamples(key: string)
    ensures EqualsIgnoreCase(key, "t") ==> Route(key) == [SetHeader(RecogHfs, "Recognition-Timeout")]
    ensures EqualsIgnoreCase(key, "spl") ==> Route(key) == [SetHeader(RecogHfs, "Speech-Language")]
    ensures EqualsIgnoreCase(key, "sit") ==> Route(key) == [SetFlag(InputTimers)]
    ensures EqualsIgnoreCase(key, "vm") ==> Route(key) == []
  {
    TimeoutKeyRoute(key);
    LanguageKeyRoute(key);
    InputTimersKeyRoute(key);
    ModeKeyRoute(key);
  }

  lemma TimeoutKeyRoute(key: string)
    ensures EqualsIgnoreCase(key, "t") ==> Route(key) == [SetHeader(RecogHfs, "Recognition-Timeout")]
  {
    FoldedKey(key, "t");
  }

  lemma LanguageKeyRoute(key: string)
    ensures EqualsIgnoreCase(key, "spl") ==> Route(key) == [SetHeader(RecogHfs, "Speech-Language")]
  {
    FoldedKey(key, "spl");
  }

  lemma InputTimersKeyRoute(key: string)
    ensures EqualsIgnoreCase(key, "sit") ==> Route(key) == [SetFlag(InputTimers)]
  {
    FoldedKey(key, "sit");
  }

  lemma ModeKeyRoute(key: string)
    ensures EqualsIgnoreCase(key, "vm") ==> Route(key) == []
  {
    FoldedKey(key, "vm");
  }

  /**
   * `mrcprecog_options_parse`: nothing without an option string; otherwise
   * the quoted splitting, each token applied in turn.
   */
  method ParseOptions(str: Option<string>) returns (o: Options, status: int)
    ensures status == 0
    ensures str.None? ==> o.State() == NO_OPTIONS
    ensures str.Some? ==> o.State() == ApplyTokens(NO_OPTIONS, Route, QuotedTokens(str.value))
  {
    o := new Options();
    if str.Some? {
      o.ParseQuoted(str.value, Route);
    }
    status := 0;
  }

  /** The value of the last token for a header key is the one the request carries. */
  lemma HeaderOptionStored(tokens: seq<string>, key: string, value: string)
    requires '=' !in key && ToLower(key) in RECOG_HEADER_KEYS
    ensures var st := ApplyTokens(NO_OPTIONS, Route, tokens + [key + "=" + value]);
      (RecogHfs, RECOG_HEADER_KEYS[ToLower(key)]) in st.hfs &&
      st.hfs[(RecogHfs, RECOG_HEADER_KEYS[ToLower(key)])] == value
  {
    LaterTokenWins(NO_OPTIONS, Route, tokens, key, value);
    assert SetHeader(RecogHfs, RECOG_HEADER_KEYS[ToLower(key)]) in Route(key);
  }

  /** A key MRCPRecog does not know is ignored. */
  lemma UnknownOptionIgnored(tokens: seq<string>, key: string, value: string)
    requires '=' !in key && ToLower(key) !in RECOG_HEADER_KEYS && ToLower(key) !in FLAG_KEYS
    ensures ApplyTokens(NO_OPTIONS, Route, tokens + [key + "=" + value]) == ApplyTokens(NO_OPTIONS, Route, tokens)
  {
    UnknownKeyIgnored(NO_OPTIONS, Route, tokens, key, value);
  }

  // ---------------------------------------------------------------------------
  // The session and its prompts

  /** `mrcprecog_session_t`: the recognition channel, the prompts to play, the cursor and the input-timer policy. */
  class Session {
    var schannel: SpeechChannel?
    var prompts: seq<string>
    var curPrompt: int
    var itPolicy: ItPolicy

    /** As `app_recog_exec` sets it up: no channel, no prompt, the automatic policy. */
    constructor ()
      ensures schannel == null && prompts == [] && curPrompt == 0 && itPolicy == ItAuto
    {
      schannel := null;
      prompts := [];
      curPrompt := 0;
      itPolicy := ItAuto;
    }

    /** `mrcprecog_prompts_available`: how many prompts are still to be played. */
    function PromptsAvailable(): (r: nat)
      reads this
      ensures r > 0 <==> curPrompt < |prompts|
      ensures 0 <= curPrompt < |prompts| ==> curPrompt + r == |prompts|
    {
      AppDatastore.PromptsRemaining(|prompts|, curPrompt)
    }

    /** `mrcprecog_prompts_advance`: -1 with no move once all are played, else one step and the number left. */
    method PromptsAdvance() returns (r: int)
      modifies this`curPrompt
      ensures old(curPrompt) >= |prompts| ==> r == -1 && curPrompt == old(curPrompt)
      ensures old(curPrompt) < |prompts| ==> curPrompt == old(curPrompt) + 1 && r == PromptsAvailable()
    {
      if curPrompt >= |prompts| {
        return -1;
      }
      curPrompt := curPrompt + 1;
      r := |prompts| - curPrompt;
    }

    /** `mrcprecog_prompt_play`: the file to stream, none when the cursor is out of bounds. */
    function PromptToPlay(): (r: Option<string>)
      reads this
      ensures r.Some? <==> 0 <= curPrompt < |prompts|
      ensures r.Some? ==> r.value == prompts[curPrompt]
    {
      if 0 <= curPrompt < |prompts| then Some(prompts[curPrompt]) else None
    }
  }

  /** The prompts of the `f` option, split at the `od` delimiters ("^" by default), empty pieces skipped. */
  function Prompts(st: OptState): seq<string> {
    if Param(st, Filename).None? then []
    else Tokens(Param(st, Filename).value, Delimiters(st, OutputDelimiters, "^"))
  }

  /** The grammars of the argument, split at the `gd` delimiters ("," by default) and named grammar-0, grammar-1, ... */
  function Grammars(arg: string, st: OptState): seq<(string, string)> {
    NamedGrammars(arg, Delimiters(st, GrammarDelimiters, ","))
  }

  /** Every grammar of the argument is loaded under a name of its own. */
  lemma GrammarNamesUnique(arg: string, st: OptState, m: nat, n: nat)
    requires m < n < |Grammars(arg, st)|
    ensures Grammars(arg, st)[m].0 != Grammars(arg, st)[n].0
    ensures Grammars(arg, st)[m].0 == "grammar-" + Decimal(m)
  {
    GrammarNamesDistinct(m, n);
  }

  // ---------------------------------------------------------------------------
  // Results

  /**
   * `recog_channel_get_results`: -1 without recognizer data or while the
   * cause is negative; otherwise the cause, result and waveform URI are
   * handed out and consumed, and a handed-out result is also stored, as
   * parsed (`parsed`), in the channel's recognition datastore, which is
   * made when missing if `allocOk`. URI encoding of the handed-out result
   * is left to Asterisk.
   */
  method GetResults(ch: SpeechChannel, wantCause: bool, wantResult: bool, wantUri: bool,
                    chan: RecogDatastore.Channel, parsed: Option<Nlsml.Result>, allocOk: bool)
    returns (status: int, cause: Option<string>, result: Option<string>, waveformUri: Option<string>)
    modifies ch.data, chan, chan.recogData
    ensures ch.data == null ==> status == -1 && chan.recogData == old(chan.recogData)
    ensures ch.data != null ==>
      (status, cause, result, waveformUri, ch.data.Record()) ==
        TakeResultsStrict(old(ch.data.Record()), wantCause, wantResult, wantUri) &&
      ch.data.grammars == old(ch.data.grammars) && ch.data.lastGrammar == old(ch.data.lastGrammar)
    ensures result.None? ==>
      chan.recogData == old(chan.recogData) &&
      (chan.recogData != null ==> chan.recogData.result == old(chan.recogData.result))
    ensures result.Some? && (old(chan.recogData) != null || allocOk) ==>
      chan.recogData != null && chan.recogData.result == parsed
  {
    status, cause, result, waveformUri := ChannelGetResultsStrict(ch, wantCause, wantResult, wantUri);
    if result.Some? {
      var _ := RecogDatastore.ResultSet(chan, parsed, allocOk);
    }
  }

  // ---------------------------------------------------------------------------
  // Messages

  /**
   * The table of MRCPRecog's own `recog_on_message_receive`: the shared
   * recognizer table, except that a RECOGNIZE that completes at once and a
   * failed DEFINE-GRAMMAR move the channel to ERROR without recording the
   * completion cause.
   */
  function RecogAppEffect(m: Message): (r: Effect) {
    match m.mtype
    case Response =>
      (match m.methodId
       case Recognize =>
         (match m.requestState
          case InProgress => NoEffect.(newState := Some(Processing))
          case Complete => NoEffect.(newState := Some(Error))
          case Pending => NoEffect
          case OtherRequestState => NoEffect.(newState := Some(Error)))
       case RecogStop =>
         NoEffect.(newState := Some(if m.requestState == Complete then Ready else Error))
       case RecogStartInputTimers =>
         NoEffect.(timersStarted := m.requestState == Complete && Success(m.statusCode))
       case DefineGrammar =>
         if m.requestState != Complete then NoEffect
         else NoEffect.(newState := Some(if Success(m.statusCode) then Ready else Error))
       case _ => NoEffect.(newState := Some(Error)))
    case Event =>
      (match m.methodId
       case RecognitionComplete =>
         Effect(Some((m.cause, m.body, m.waveformUri)), false, false, Some(Ready))
       case RecogStartOfInput => NoEffect.(startOfInput := true)
       case _ => NoEffect.(newState := Some(Error)))
    case OtherMessageType => NoEffect.(newState := Some(Error))
  }

  /**
   * Against the shared recognizer table: every message moves the channel to
   * the same state and sets the same flags; the results differ only for a
   * failed RECOGNIZE or DEFINE-GRAMMAR, whose cause MRCPRecog does not
   * record. Only RECOGNITION-COMPLETE records results here.
   */
  lemma AgreesWithDispatcher(m: Message)
    ensures RecogAppEffect(m).newState == RecogEffect(m).newState
    ensures RecogAppEffect(m).timersStarted == RecogEffect(m).timersStarted
    ensures RecogAppEffect(m).startOfInput == RecogEffect(m).startOfInput
    ensures RecogAppEffect(m).results != RecogEffect(m).results <==>
      m.mtype == Response && m.requestState == Complete && m.causeKnown &&
      (m.methodId == Recognize || (m.methodId == DefineGrammar && !Success(m.statusCode)))
    ensures RecogAppEffect(m).results.Some? <==> m.mtype == Event && m.methodId == RecognitionComplete
  {
  }

  /** MRCPRecog's `recog_on_message_receive` carried out on the channel. */
  method OnMessageReceive(ch: SpeechChannel, m: Message) returns (handled: bool)
    requires ch.Valid()
    modifies ch`state, ch.queue.buffer`used, ch.data
    ensures ch.Valid() && handled
    ensures var e := RecogAppEffect(m);
      ch.state == (if e.newState.Some? then e.newState.value else old(ch.state)) &&
      (ch.data != null ==> ch.data.Record() == ApplyToRecord(old(ch.data.Record()), e))
  {
    Apply(ch, RecogAppEffect(m));
    handled := true;
  }
}
