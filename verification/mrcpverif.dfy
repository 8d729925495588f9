// The MRCPVerif dialplan application (app-unimrcp/app_mrcpverif.c): its
// options and the session headers it cannot start without, its strict
// result getter, its verifier message handler, the session lifetime it
// chooses and its exit.

module MrcpVerif {
  import opened Text
  import opened AppOptions
  import opened SpeechChannel
  import opened ChannelMethods
  import opened Dispatcher
  import AppDatastore

  // ---------------------------------------------------------------------------
  // Options

  /** The flag keys of MRCPVerif, by lower-case key. */
  const FLAG_KEYS: map<string, Flag> := map[
    "p" := Profile, "i" := Interrupt, "f" := Filename, "b" := Bargein, "epe" := ExitOnPlayError,
    "uer" := UriEncodedResults, "od" := OutputDelimiters, "sit" := InputTimers,
    "plt" := PersistentLifetime, "nif" := InstanceFormat]

  /**
   * The keys that set verifier header fields of the VERIFY request
   * (section 11.4 of RFC 6787); `sw` sets Ver-Buffer-Utterance.
   */
  const VERIF_HEADER_KEYS: map<string, string> := map[
    "nit" := "No-Input-Timeout", "sct" := "Speech-Complete-Timeout", "sw" := "Ver-Buffer-Utterance",
    "iwu" := "Input-Waveform-URI", "vsp" := "Vendor-Specific-Parameters"]

  /**
   * `mrcpverif_option_apply`: session keys fill `verif_session_hfs`,
   * verifier keys `verif_hfs`, flag keys set their flag and parameter, any
   * other key (the DTMF timeouts among them) changes nothing. Keys compare
   * ignoring case.
   */
  function Route(key: string): (r: seq<Action>)
    ensures Plain(r) && |r| <= 1
    ensures ToLower(key) in VERIF_SESSION_KEYS ==> r == [SetHeader(VerifSessionHfs, VERIF_SESSION_KEYS[ToLower(key)])]
    ensures ToLower(key) in VERIF_HEADER_KEYS ==> r == [SetHeader(VerifHfs, VERIF_HEADER_KEYS[ToLower(key)])]
    ensures ToLower(key) in FLAG_KEYS ==> r == [SetFlag(FLAG_KEYS[ToLower(key)])]
    ensures forall a :: a in r && a.SetFlag? ==> ToLower(key) in FLAG_KEYS && a.flag == FLAG_KEYS[ToLower(key)]
    ensures r == [] <==>
      ToLower(key) !in VERIF_SESSION_KEYS && ToLower(key) !in VERIF_HEADER_KEYS && ToLower(key) !in FLAG_KEYS
  {
    var k := ToLower(key);
    HeaderKeysApart(k);
    SessionKeysApart(k);
    HeaderFrom(VERIF_SESSION_KEYS, VerifSessionHfs, k) + HeaderFrom(VERIF_HEADER_KEYS, VerifHfs, k) + FlagFrom(FLAG_KEYS, k)
  }

  /** A verifier header key is neither a session key nor a flag key. */
  lemma HeaderKeysApart(k: string)
    ensures k in VERIF_HEADER_KEYS ==> k !in VERIF_SESSION_KEYS && k !in FLAG_KEYS
  {
  }

  /** A session key is not a flag key. */
  lemma SessionKeysApart(k: string)
    ensures k in VERIF_SESSION_KEYS ==> k !in FLAG_KEYS
  {
  }

  /** `sw` asks to buffer the utterance, `vm` sets the verification mode, and `dit` is not an MRCPVerif key. */
  lemma RouteExamples(key: string)
    ensures EqualsIgnoreCase(key, "sw") ==> Route(key) == [SetHeader(VerifHfs, "Ver-Buffer-Utterance")]
    ensures EqualsIgnoreCase(key, "vm") ==> Route(key) == [SetHeader(VerifSessionHfs, "Verification-Mode")]
    ensures EqualsIgnoreCase(key, "dit") ==> Route(key) == []
  {
    BufferUtteranceKeyRoute(key);
    ModeKeyRoute(key);
    InterdigitKeyRoute(key);
  }

  lemma BufferUtteranceKeyRoute(key: string)
    ensures EqualsIgnoreCase(key, "sw") ==> Route(key) == [SetHeader(VerifHfs, "Ver-Buffer-Utterance")]
  {
    FoldedKey(key, "sw");
  }

  lemma ModeKeyRoute(key: string)
    ensures EqualsIgnoreCase(key, "vm") ==> Route(key) == [SetHeader(VerifSessionHfs, "Verification-Mode")]
  {
    FoldedKey(key, "vm");
  }

  lemma InterdigitKeyRoute(key: string)
    ensures EqualsIgnoreCase(key, "dit") ==> Route(key) == []
  {
    FoldedKey(key, "dit");
  }

  /**
   * `mrcpverif_options_parse`: nothing without an option string (0);
   * otherwise the quoted splitting, each token applied in turn, and then
   * -1 unless Verification-Mode, Repository-URI and Voiceprint-Identifier
   * are all among the session headers.
   */
  method ParseOptions(str: Option<string>) returns (o: Options, status: int)
    ensures str.None? ==> o.State() == NO_OPTIONS && status == 0
    ensures str.Some? ==> o.State() == ApplyTokens(NO_OPTIONS, Route, QuotedTokens(str.value))
    ensures str.Some? ==> (status == 0 <==> HasVerifSessionHeaders(o.State())) && (status == 0 || status == -1)
  {
    o := new Options();
    status := 0;
    if str.Some? {
      o.ParseQuoted(str.value, Route);
      var st := o.State();
      if (VerifSessionHfs, "Verification-Mode") !in st.hfs {
        return o, -1;
      }
      if (VerifSessionHfs, "Repository-URI") !in st.hfs {
        return o, -1;
      }
      if (VerifSessionHfs, "Voiceprint-Identifier") !in st.hfs {
        return o, -1;
      }
    }
  }

  /** The three mandatory keys route to their session headers. */
  lemma MandatoryKeysRoute()
    ensures Route("vm") == [SetHeader(VerifSessionHfs, "Verification-Mode")]
    ensures Route("rpuri") == [SetHeader(VerifSessionHfs, "Repository-URI")]
    ensures Route("vpid") == [SetHeader(VerifSessionHfs, "Voiceprint-Identifier")]
  {
    assert ToLower("vm") == "vm";
    assert ToLower("rpuri") == "rpuri";
    assert ToLower("vpid") == "vpid";
  }

  /** A session header stored by any token survives the tokens after it. */
  lemma HeaderTokenKept(st: OptState, tokens: seq<string>, i: nat, name: string, field: string, value: string)
    requires i < |tokens| && tokens[i] == name + "=" + value
    requires '=' !in name && Route(name) == [SetHeader(VerifSessionHfs, field)]
    ensures (VerifSessionHfs, field) in ApplyTokens(st, Route, tokens).hfs
  {
    var before, after := tokens[..i], tokens[i + 1..];
    assert tokens == before + ([tokens[i]] + after);
    ApplyTokensAppend(st, Route, before, [tokens[i]] + after);
    var s0 := ApplyTokens(st, Route, before);
    ApplyTokensAppend(s0, Route, [tokens[i]], after);
    LaterTokenWins(s0, Route, [], name, value);
    assert [] + [name + "=" + value] == [tokens[i]];
    HeadersPersist(ApplyTokens(s0, Route, [tokens[i]]), Route, after);
  }

  /**
   * Options that end with `vm`, `rpuri` and `vpid` always pass the
   * mandatory check, whatever came before them.
   */
  lemma MandatoryHeadersSuffice(tokens: seq<string>, mode: string, uri: string, id: string)
    ensures HasVerifSessionHeaders(
      ApplyTokens(NO_OPTIONS, Route, tokens + ["vm=" + mode, "rpuri=" + uri, "vpid=" + id]))
  {
    var all := tokens + ["vm=" + mode, "rpuri=" + uri, "vpid=" + id];
    var n := |tokens|;
    assert all[n] == "vm" + "=" + mode && all[n + 1] == "rpuri" + "=" + uri && all[n + 2] == "vpid" + "=" + id;
    MandatoryKeysRoute();
    HeaderTokenKept(NO_OPTIONS, all, n, "vm", "Verification-Mode", mode);
    HeaderTokenKept(NO_OPTIONS, all, n + 1, "rpuri", "Repository-URI", uri);
    HeaderTokenKept(NO_OPTIONS, all, n + 2, "vpid", "Voiceprint-Identifier", id);
  }

  /**
   * MRCPVerif reads a datastore-entry option but no key sets it: its
   * sessions always use the default entry, and they are persistent only
   * when `plt` asks for it.
   */
  lemma DefaultEntryOnly(tokens: seq<string>)
    ensures var (entry, lifetime) := AppDatastore.SessionLifetime(ApplyTokens(NO_OPTIONS, Route, tokens));
      entry == AppDatastore.DEFAULT_DATASTORE_ENTRY &&
      (lifetime == AppDatastore.Persistent ==> Param(ApplyTokens(NO_OPTIONS, Route, tokens), PersistentLifetime).Some?)
  {
    forall key
      ensures SetFlag(DatastoreEntry) !in Route(key)
    {
    }
    FlagNeverSet(NO_OPTIONS, Route, tokens, DatastoreEntry);
  }

  // ---------------------------------------------------------------------------
  // Results

  /**
   * `verif_channel_get_results`: -1 without recognizer data or while the
   * completion cause is negative; otherwise the cause, result and waveform
   * URI are handed out and consumed.
   */
  method GetResults(ch: SpeechChannel, wantCause: bool, wantResult: bool, wantUri: bool)
    returns (status: int, cause: Option<string>, result: Option<string>, waveformUri: Option<string>)
    modifies ch.data
    ensures ch.data == null ==> status == -1 && cause == None && result == None && waveformUri == None
    ensures ch.data != null ==>
      (status, cause, result, waveformUri, ch.data.Record()) ==
        TakeResultsStrict(old(ch.data.Record()), wantCause, wantResult, wantUri) &&
      ch.data.grammars == old(ch.data.grammars) && ch.data.lastGrammar == old(ch.data.lastGrammar)
  {
    status, cause, result, waveformUri := ChannelGetResultsStrict(ch, wantCause, wantResult, wantUri);
  }

  // ---------------------------------------------------------------------------
  // Messages

  /**
   * The table of MRCPVerif's own `verif_on_message_receive`: VERIFY,
   * START-SESSION and START-INPUT-TIMERS responses and the
   * VERIFICATION-COMPLETE and START-OF-INPUT events; every other message
   * moves the channel to ERROR.
   */
  function VerifAppEffect(m: Message): Effect {
    match m.mtype
    case Response =>
      (match m.methodId
       case Verify => VerifyResponseEffect(m)
       case StartSession =>
         NoEffect.(newState := Some(if m.requestState == Complete then Ready else Error))
       case VerifStartInputTimers =>
         NoEffect.(timersStarted := m.requestState == Complete && Success(m.statusCode))
       case _ => NoEffect.(newState := Some(Error)))
    case Event =>
      (match m.methodId
       case VerificationComplete =>
         Effect(Some((m.cause, m.body, m.waveformUri)), false, false, Some(Ready))
       case VerifStartOfInput => NoEffect.(startOfInput := true)
       case _ => NoEffect.(newState := Some(Error)))
    case OtherMessageType => NoEffect.(newState := Some(Error))
  }

  /**
   * Against the shared verifier table: the same effect on every message,
   * except responses to VERIFY-FROM-BUFFER, VERIFY-ROLLBACK and
   * CLEAR-BUFFER, which MRCPVerif never sends and treats as errors.
   */
  lemma AgreesWithDispatcher(m: Message)
    ensures m.mtype == Response && m.methodId in {VerifyFromBuffer, VerifyRollback, ClearBuffer} ==>
      VerifAppEffect(m) == NoEffect.(newState := Some(Error))
    ensures !(m.mtype == Response && m.methodId in {VerifyFromBuffer, VerifyRollback, ClearBuffer}) ==>
      VerifAppEffect(m) == VerifEffect(m)
  {
  }

  /** A VERIFY that fails at once keeps its known completion cause for the getter; the channel is in ERROR. */
  lemma FailedVerifyIsReadBack(rec: ResultRecord, m: Message)
    requires m.mtype == Response && m.methodId == Verify && m.requestState == Complete
    requires m.causeKnown && m.cause >= 0 && rec.completionCause < 0
    ensures VerifAppEffect(m).newState == Some(Error)
    ensures var got := TakeResultsStrict(ApplyToRecord(rec, VerifAppEffect(m)), true, false, false);
      got.0 == 0 && Atoi(got.1.value) == m.cause
  {
    Pad3RoundTrip(m.cause);
  }

  /** MRCPVerif's `verif_on_message_receive` carried out on the channel. */
  method OnMessageReceive(ch: SpeechChannel, m: Message) returns (handled: bool)
    requires ch.Valid()
    modifies ch`state, ch.queue.buffer`used, ch.data
    ensures ch.Valid() && handled
    ensures var e := VerifAppEffect(m);
      ch.state == (if e.newState.Some? then e.newState.value else old(ch.state)) &&
      (ch.data != null ==> ch.data.Record() == ApplyToRecord(old(ch.data.Record()), e))
  {
    Apply(ch, VerifAppEffect(m));
    handled := true;
  }

  // ---------------------------------------------------------------------------
  // Exit

  /**
   * `mrcpverif_exit`: always 0, whatever the status. The VERIF_SID variable
   * gets the verifier channel's session id, and the channel is released
   * only when the session is dynamic; a persistent session keeps it for
   * the next application.
   */
  method Exit(s: AppDatastore.AppSession?, status: AppStatus) returns (code: int, verifSid: Option<string>)
    modifies s
    ensures code == 0
    ensures s == null ==> verifSid == None
    ensures s != null ==>
      verifSid == (if old(s.verifChannel) != null then old(s.verifChannel.sessionId) else None) &&
      s.verifChannel == (if s.lifetime == AppDatastore.Dynamic then null else old(s.verifChannel)) &&
      s.lifetime == old(s.lifetime) && s.prompts == old(s.prompts) && s.curPrompt == old(s.curPrompt) &&
      s.recogChannel == old(s.recogChannel) && s.synthChannel == old(s.synthChannel)
  {
    verifSid := None;
    if s != null && s.verifChannel != null {
      verifSid := s.verifChannel.sessionId;
      if s.lifetime == AppDatastore.Dynamic {
        s.verifChannel := null;
      }
    }
    code := 0;
  }
}
