// The SynthAndRecog dialplan application (app-unimrcp/app_synthandrecog.c):
// its options, shared between the synthesizer and the recognizer, its
// prompt list and cursor, the way a prompt is started, its synthesizer
// message handler and its exit.

module SynthAndRecog {
  import opened Text
  import opened AppOptions
  import opened SpeechChannel
  import opened Dispatcher
  import MrcpSynth
  import AppDatastore
  import Framework

  // ---------------------------------------------------------------------------
  // Options

  /** The flag keys of SynthAndRecog other than `p`, by lower-case key. */
  const FLAG_KEYS: map<string, Flag> := map[
    "b" := Bargein, "gd" := GrammarDelimiters, "uer" := UriEncodedResults,
    "od" := OutputDelimiters, "sit" := InputTimers]

  /** The keys that set synthesizer header fields; `spl` also sets the recognizer's. */
  const SYNTH_HEADER_KEYS: map<string, string> := map[
    "spl" := "Speech-Language", "pv" := "Prosody-Volume", "pr" := "Prosody-Rate", "vn" := "Voice-Name",
    "vv" := "Voice-Variant", "vg" := "Voice-Gender", "a" := "Voice-Age"]

  /** `p` sets one profile for both channels. */
  function ProfileFrom(k: string): (r: seq<Action>)
    ensures k == "p" ==> r == [SetFlag(RecogProfile), SetFlag(SynthProfile)]
    ensures k != "p" ==> r == []
  {
    if k == "p" then [SetFlag(RecogProfile), SetFlag(SynthProfile)] else []
  }

  /**
   * `synthandrecog_option_apply`: recognizer header keys fill `recog_hfs`,
   * synthesizer header keys `synth_hfs` (`spl` both), `p` sets the recog
   * and the synth profile, the other flag keys their flag; any other key
   * changes nothing. Keys compare ignoring case.
   */
  function Route(key: string): (r: seq<Action>)
    ensures Plain(r) && |r| <= 2
    ensures ToLower(key) in RECOG_HEADER_KEYS ==> SetHeader(RecogHfs, RECOG_HEADER_KEYS[ToLower(key)]) in r
    ensures ToLower(key) in SYNTH_HEADER_KEYS ==> SetHeader(SynthHfs, SYNTH_HEADER_KEYS[ToLower(key)]) in r
    ensures forall a :: a in r && a.SetHeader? ==>
      (a.table == RecogHfs && ToLower(key) in RECOG_HEADER_KEYS) ||
      (a.table == SynthHfs && ToLower(key) in SYNTH_HEADER_KEYS)
    ensures ToLower(key) in FLAG_KEYS ==> r == [SetFlag(FLAG_KEYS[ToLower(key)])]
    ensures ToLower(key) == "p" ==> r == [SetFlag(RecogProfile), SetFlag(SynthProfile)]
    ensures r == [] <==>
      ToLower(key) !in RECOG_HEADER_KEYS && ToLower(key) !in SYNTH_HEADER_KEYS &&
      ToLower(key) !in FLAG_KEYS && ToLower(key) != "p"
  {
    var k := ToLower(key);
    TablesDisjoint(k);
    HeaderFrom(RECOG_HEADER_KEYS, RecogHfs, k) + HeaderFrom(SYNTH_HEADER_KEYS, SynthHfs, k) +
    ProfileFrom(k) + FlagFrom(FLAG_KEYS, k)
  }

  /** A flag key sets no header and is not `p`, and `p` sets no header. */
  lemma TablesDisjoint(k: string)
    ensures k in FLAG_KEYS ==> k !in RECOG_HEADER_KEYS && k !in SYNTH_HEADER_KEYS && k != "p"
    ensures k == "p" ==> k !in RECOG_HEADER_KEYS && k !in SYNTH_HEADER_KEYS
  {
    if k in FLAG_KEYS {
      FlagKeysSetNoHeader(k);
    }
  }

  /** No flag key is a header key (one small lemma per key keeps each proof cheap). */
  lemma FlagKeysSetNoHeader(k: string)
    requires k in FLAG_KEYS
    ensures k !in RECOG_HEADER_KEYS && k !in SYNTH_HEADER_KEYS
  {
    BargeinKeySetsNoHeader();
    GrammarDelimitersKeySetsNoHeader();
    UriEncodedResultsKeySetsNoHeader();
    OutputDelimitersKeySetsNoHeader();
    InputTimersKeySetsNoHeader();
  }

  lemma BargeinKeySetsNoHeader()
    ensures "b" !in RECOG_HEADER_KEYS && "b" !in SYNTH_HEADER_KEYS
  {
  }

  lemma GrammarDelimitersKeySetsNoHeader()
    ensures "gd" !in RECOG_HEADER_KEYS && "gd" !in SYNTH_HEADER_KEYS
  {
  }

  lemma UriEncodedResultsKeySetsNoHeader()
    ensures "uer" !in RECOG_HEADER_KEYS && "uer" !in SYNTH_HEADER_KEYS
  {
  }

  lemma OutputDelimitersKeySetsNoHeader()
    ensures "od" !in RECOG_HEADER_KEYS && "od" !in SYNTH_HEADER_KEYS
  {
  }

  lemma InputTimersKeySetsNoHeader()
    ensures "sit" !in RECOG_HEADER_KEYS && "sit" !in SYNTH_HEADER_KEYS
  {
  }

  /** `spl` (in any case) writes the language into both header maps. */
  lemma LanguageRoute(key: string)
    requires EqualsIgnoreCase(key, "spl")
    ensures Route(key) == [SetHeader(RecogHfs, "Speech-Language"), SetHeader(SynthHfs, "Speech-Language")]
  {
    FoldedKey(key, "spl");
  }

  /** `p` (in any case) sets the profile of both channels. */
  lemma ProfileRoute(key: string)
    requires EqualsIgnoreCase(key, "p")
    ensures Route(key) == [SetFlag(RecogProfile), SetFlag(SynthProfile)]
  {
    FoldedKey(key, "p");
  }

  /**
   * `synthandrecog_options_parse`: nothing without an option string;
   * otherwise the string is split at every '&' and each piece at its
   * first '='.
   */
  method ParseOptions(str: Option<string>) returns (o: Options, status: int)
    ensures status == 0
    ensures str.None? ==> o.State() == NO_OPTIONS
    ensures str.Some? ==> o.State() == ApplyTokens(NO_OPTIONS, Route, PlainTokens(str.value))
  {
    o := new Options();
    if str.Some? {
      o.ParsePlain(str.value, Route);
    }
    status := 0;
  }

  /** After `spl=v`, both the recognizer and the synthesizer requests carry Speech-Language v. */
  lemma LanguageForBoth(tokens: seq<string>, key: string, value: string)
    requires '=' !in key && EqualsIgnoreCase(key, "spl")
    ensures var st := ApplyTokens(NO_OPTIONS, Route, tokens + [key + "=" + value]);
      (RecogHfs, "Speech-Language") in st.hfs && st.hfs[(RecogHfs, "Speech-Language")] == value &&
      (SynthHfs, "Speech-Language") in st.hfs && st.hfs[(SynthHfs, "Speech-Language")] == value
  {
    LanguageRoute(key);
    LaterTokenWins(NO_OPTIONS, Route, tokens, key, value);
    assert SetHeader(RecogHfs, "Speech-Language") in Route(key);
    assert SetHeader(SynthHfs, "Speech-Language") in Route(key);
  }

  /** After `p=v`, both channels are opened with profile v. */
  lemma ProfileForBoth(tokens: seq<string>, key: string, value: string)
    requires '=' !in key && EqualsIgnoreCase(key, "p") && value != ""
    ensures var st := ApplyTokens(NO_OPTIONS, Route, tokens + [key + "=" + value]);
      Param(st, RecogProfile) == Some(value) && Param(st, SynthProfile) == Some(value)
  {
    ProfileRoute(key);
    LaterTokenWins(NO_OPTIONS, Route, tokens, key, value);
    assert SetFlag(RecogProfile) in Route(key);
    assert SetFlag(SynthProfile) in Route(key);
  }

  /** A key SynthAndRecog does not know is ignored. */
  lemma UnknownOptionIgnored(tokens: seq<string>, key: string, value: string)
    requires '=' !in key
    requires ToLower(key) !in RECOG_HEADER_KEYS && ToLower(key) !in SYNTH_HEADER_KEYS
    requires ToLower(key) !in FLAG_KEYS && ToLower(key) != "p"
    ensures ApplyTokens(NO_OPTIONS, Route, tokens + [key + "=" + value]) == ApplyTokens(NO_OPTIONS, Route, tokens)
  {
    UnknownKeyIgnored(NO_OPTIONS, Route, tokens, key, value);
  }

  // ---------------------------------------------------------------------------
  // Prompts

  /** `sar_prompt_item_t`: what to play, and whether it is an audio file rather than text to synthesize. */
  datatype PromptItem = PromptItem(content: string, isAudioFile: bool)

  /** The prompts of the prompt argument, split at the `od` delimiters ("^" by default), empty pieces skipped. */
  function PromptTexts(arg: string, st: OptState): (r: seq<string>)
    ensures forall k :: 0 <= k < |r| ==> |r[k]| > 0
  {
    Tokens(arg, Delimiters(st, OutputDelimiters, "^"))
  }

  /**
   * How `speech_channel_open` goes: whether the MRCP session could be
   * created, whether the termination and channel could be created and added,
   * the state seen when the wait for the server ends and the state seen after
   * the extra wait that follows an ERROR.
   */
  datatype OpenOutcome = OpenOutcome(sessionCreated: bool, channelAdded: bool,
                                     observed: ChannelState, afterError: ChannelState)

  /** The state a CLOSED channel is left in by an open that goes as `o` says. */
  function OpenedState(o: OpenOutcome): (r: ChannelState)
    ensures !o.sessionCreated || !o.channelAdded ==> r == Closed
    ensures o.sessionCreated && o.channelAdded && o.observed != Error ==> r == o.observed
    ensures o.sessionCreated && o.channelAdded && o.observed == Error ==> r == o.afterError
  {
    if !o.sessionCreated || !o.channelAdded then Closed
    else if o.observed == Error then o.afterError
    else o.observed
  }

  /** Whether `speech_channel_open` of a CLOSED channel returns 0 when it goes as `o` says. */
  predicate OpenWorks(o: OpenOutcome) {
    o.sessionCreated && o.channelAdded && OpenStatus(o.observed, o.afterError) == 0
  }

  /**
   * How `synth_channel_speak` goes: whether the SPEAK message and its
   * headers could be made, whether it was sent, and the state the response
   * handler left when the wait for IN-PROGRESS ended.
   */
  datatype SpeakOutcome = SpeakOutcome(messageCreated: bool, sent: bool, observed: ChannelState)

  /** Whether SPEAK succeeds on a channel in state `before` when it goes as `o` says. */
  predicate SpeakWorks(before: ChannelState, o: SpeakOutcome) {
    before == Ready && o.messageCreated && o.sent && o.observed == Processing
  }

  /**
   * `synth_channel_speak` of SynthAndRecog: only a READY channel takes a
   * SPEAK. Once the message is made the queued audio is dropped; `sent`
   * says whether it went out and `observed` is the state the response
   * handler left when the wait ended. It succeeds exactly when that state is
   * PROCESSING.
   */
  method SynthChannelSpeak(ch: SpeechChannel, messageCreated: bool, sent: bool, observed: ChannelState)
    returns (status: int)
    requires ch.Valid()
    modifies ch`state, ch.queue.buffer`used
    ensures ch.Valid()
    ensures status == 0 || status == -1
    ensures status == 0 <==> SpeakWorks(old(ch.state), SpeakOutcome(messageCreated, sent, observed))
    ensures status == 0 ==> ch.state == Processing
    ensures old(ch.state) != Ready || !messageCreated ==>
      ch.state == old(ch.state) && ch.queue.Contents() == old(ch.queue.Contents())
    ensures old(ch.state) == Ready && messageCreated ==>
      ch.queue.Contents() == [] && ch.state == (if sent then observed else Ready)
  {
    if ch.state != Ready || !messageCreated {
      return -1;
    }
    var _ := ch.queue.Clear();
    if !sent {
      return -1;
    }
    ch.state := observed;
    status := if observed == Processing then 0 else -1;
  }

  /** `sar_session_t`: the two channels, the prompts, the cursor, the open file stream and the input-timer policy. */
  class Session {
    const number: nat
    var recogChannel: SpeechChannel?
    var synthChannel: SpeechChannel?
    var prompts: seq<PromptItem>
    var curPrompt: nat
    var streaming: bool
    var itPolicy: ItPolicy

    /** As `app_synthandrecog_exec` sets it up: no channel, no prompt, no stream, the automatic policy. */
    constructor (number: nat)
      ensures this.number == number
      ensures recogChannel == null && synthChannel == null && prompts == [] && curPrompt == 0
      ensures !streaming && itPolicy == ItAuto
    {
      this.number := number;
      recogChannel := null;
      synthChannel := null;
      prompts := [];
      curPrompt := 0;
      streaming := false;
      itPolicy := ItAuto;
    }

    /** `synthandrecog_prompts_available`: how many prompts are still to be played. */
    function PromptsAvailable(): (r: nat)
      reads this
      ensures r > 0 <==> curPrompt < |prompts|
      ensures curPrompt < |prompts| ==> curPrompt + r == |prompts|
    {
      AppDatastore.PromptsRemaining(|prompts|, curPrompt)
    }

    /** `synthandrecog_prompts_advance`: -1 with no move once all are played, else one step and the number left. */
    method PromptsAdvance() returns (r: int)
      modifies this`curPrompt
      ensures old(curPrompt) >= |prompts| ==> r == -1 && curPrompt == old(curPrompt)
      ensures old(curPrompt) < |prompts| ==> curPrompt == old(curPrompt) + 1 && r == PromptsAvailable()
    {
      if curPrompt >= |prompts| {
        return -1;
      }
      curPrompt := curPrompt + 1;
      r := |prompts| - curPrompt;
    }

    /**
     * `synthandrecog_prompt_play`: starts the current prompt and returns it,
     * or none. Out of bounds nothing happens. An audio file is streamed
     * (`streamOk` says whether the stream opened) and, once it plays, a
     * synthesizer channel is released. Text needs a synthesizer channel: when
     * there is none, one named "TTS-<number>" is made (`createOk`) and opened
     * (`open`) with the synth profile (`synthProfile`, what
     * `get_synth_profile` found); a channel made but not opened stays. Then
     * SPEAK is sent on it (`speak`).
     */
    method PromptPlay(streamOk: bool, createOk: bool, synthProfile: Option<Framework.Profile>,
                      open: OpenOutcome, speak: SpeakOutcome)
      returns (item: Option<PromptItem>)
      requires synthChannel != null ==> synthChannel.Valid()
      modifies this`synthChannel, this`streaming
      modifies if synthChannel != null then {synthChannel, synthChannel.queue.buffer} else {}
      ensures old(curPrompt) >= |prompts| ==>
        item == None && synthChannel == old(synthChannel) && streaming == old(streaming) &&
        (synthChannel != null ==> synthChannel.state == old(synthChannel.state))
      ensures curPrompt < |prompts| && prompts[curPrompt].isAudioFile ==>
        streaming == streamOk && (item.Some? <==> streamOk) &&
        synthChannel == (if streamOk then null else old(synthChannel))
      ensures curPrompt < |prompts| && !prompts[curPrompt].isAudioFile ==>
        streaming == old(streaming) &&
        (old(synthChannel) != null ==>
           synthChannel == old(synthChannel) &&
           (item.Some? <==> SpeakWorks(old(synthChannel.state), speak))) &&
        (old(synthChannel) == null && !createOk ==> synthChannel == null && item == None) &&
        (old(synthChannel) == null && createOk ==>
           synthChannel != null && fresh(synthChannel) && synthChannel.kind == Synthesizer &&
           synthChannel.name == "TTS-" + Decimal(number) &&
           (synthProfile.None? ==> synthChannel.state == Closed && synthChannel.profile == null && item == None) &&
           (synthProfile.Some? ==> synthChannel.profile == synthProfile.value) &&
           (synthProfile.Some? && !OpenWorks(open) ==> synthChannel.state == OpenedState(open) && item == None) &&
           (synthProfile.Some? && OpenWorks(open) ==> (item.Some? <==> SpeakWorks(OpenedState(open), speak))))
      ensures item.Some? ==> item.value == prompts[curPrompt]
      ensures synthChannel != null ==> synthChannel.Valid()
      ensures item.Some? && !item.value.isAudioFile ==>
        synthChannel != null && synthChannel.state == Processing && synthChannel.queue.Contents() == []
    {
      if curPrompt >= |prompts| {
        return None;
      }
      var prompt := prompts[curPrompt];
      if prompt.isAudioFile {
        streaming := streamOk;
        if !streamOk {
          return None;
        }
        synthChannel := null;
      } else {
        if synthChannel == null {
          if !createOk {
            return None;
          }
          synthChannel := new SpeechChannel("TTS-" + Decimal(number), Synthesizer, "", 8000);
          if synthProfile.None? {
            return None;
          }
          var st := synthChannel.Open(synthProfile.value, open.sessionCreated, open.channelAdded,
                                      open.observed, open.afterError);
          if st != 0 {
            return None;
          }
        }
        var st := SynthChannelSpeak(synthChannel, speak.messageCreated, speak.sent, speak.observed);
        if st != 0 {
          return None;
        }
      }
      item := Some(prompt);
    }

    /**
     * `synthandrecog_exit`: the status code of the application (-1 only
     * for ERROR) and the RECOG_SID variable, the session id of the
     * recognition channel when there is one and it has an id.
     */
    method Exit(status: AppStatus) returns (code: int, recogSid: Option<string>)
      ensures code == ExitCode(status) && (code == -1 <==> status == StatusError)
      ensures recogSid == (if recogChannel != null then recogChannel.sessionId else None)
    {
      recogSid := None;
      if recogChannel != null {
        recogSid := recogChannel.sessionId;
      }
      code := if status != StatusError then 0 else -1;
    }
  }

  // ---------------------------------------------------------------------------
  // Messages

  /**
   * `synth_on_message_receive` of SynthAndRecog: the synthesizer table of
   * MRCPSynth, with no completion-cause variable.
   */
  method SynthOnMessageReceive(ch: SpeechChannel, m: Message) returns (handled: bool)
    requires ch.Valid()
    modifies ch`state, ch.queue.buffer`used
    ensures ch.Valid() && handled
    ensures ch.state == MrcpSynth.SynthState(m)
    ensures ch.queue.Contents() ==
      (if old(ch.state) == Processing && MrcpSynth.SynthState(m) != Processing then [] else old(ch.queue.Contents()))
  {
    ch.SetStateUnlocked(MrcpSynth.SynthState(m));
    handled := true;
  }

  /** When recognition starts: `sit` decides (0 never, 1 at once); otherwise only when no prompt is still playing. */
  lemma InputTimersRule(st: OptState, promptProcessing: bool)
    ensures var policy := InputTimersPolicy(st, ItAuto);
      (Param(st, InputTimers).None? ==> (StartInputTimers(policy, promptProcessing) <==> !promptProcessing)) &&
      (Param(st, InputTimers).Some? && Atoi(Param(st, InputTimers).value) == 0 ==> !StartInputTimers(policy, promptProcessing)) &&
      (Param(st, InputTimers).Some? && Atoi(Param(st, InputTimers).value) == 1 ==> StartInputTimers(policy, promptProcessing))
  {
  }
}
