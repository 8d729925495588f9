// The MRCPSynth dialplan application (app-unimrcp/app_mrcpsynth.c): its
// options, its DTMF policy, its synthesizer message handler and the loop
// that waits for the end of the synthesis.

module MrcpSynth {
  import opened Text
  import opened AppOptions
  import opened SpeechChannel
  import opened Dispatcher

  // ---------------------------------------------------------------------------
  // Options

  /** The flag keys of MRCPSynth, by lower-case key. */
  const FLAG_KEYS: map<string, Flag> := map["p" := Profile, "i" := Interrupt, "f" := Filename]

  /** The synthesizer header keys of MRCPSynth and the header fields they set (section 8.4 of RFC 6787). */
  const SYNTH_HEADER_KEYS: map<string, string> := map[
    "l" := "Speech-Language", "ll" := "Load-Lexicon", "pv" := "Prosody-Volume", "pr" := "Prosody-Rate",
    "v" := "Voice-Name", "vv" := "Voice-Variant", "g" := "Voice-Gender", "a" := "Voice-Age"]

  /**
   * `mrcpsynth_option_apply`: a header key stores its value in `synth_hfs`,
   * `p`, `i` and `f` set their flag and parameter, any other key changes
   * nothing; keys compare ignoring case.
   */
  function Route(key: string): (r: seq<Action>)
    ensures Plain(r) && |r| <= 1
    ensures ToLower(key) in SYNTH_HEADER_KEYS ==> r == [SetHeader(SynthHfs, SYNTH_HEADER_KEYS[ToLower(key)])]
    ensures ToLower(key) in FLAG_KEYS ==> r == [SetFlag(FLAG_KEYS[ToLower(key)])]
    ensures r == [] <==> ToLower(key) !in SYNTH_HEADER_KEYS && ToLower(key) !in FLAG_KEYS
  {
    HeaderFrom(SYNTH_HEADER_KEYS, SynthHfs, ToLower(key)) + FlagFrom(FLAG_KEYS, ToLower(key))
  }

  /** `v` (in any case) names the voice and `i` is the interrupt flag; `vn` is a key of SynthAndRecog only. */
  lemma RouteExamples(key: string)
    ensures EqualsIgnoreCase(key, "v") ==> Route(key) == [SetHeader(SynthHfs, "Voice-Name")]
    ensures EqualsIgnoreCase(key, "ll") ==> Route(key) == [SetHeader(SynthHfs, "Load-Lexicon")]
    ensures EqualsIgnoreCase(key, "i") ==> Route(key) == [SetFlag(Interrupt)]
    ensures EqualsIgnoreCase(key, "vn") ==> Route(key) == []
  {
    FoldedKey(key, "v");
    FoldedKey(key, "ll");
    FoldedKey(key, "i");
    FoldedKey(key, "vn");
  }

  /**
   * `mrcpsynth_options_parse`: nothing without an option string; otherwise
   * the string is split at every '&' and each piece at its first '='.
   */
  method ParseOptions(str: Option<string>) returns (o: Options, status: int)
    ensures status == 0
    ensures str.None? ==> o.State() == NO_OPTIONS
    ensures str.Some? ==> o.State() == ApplyTokens(NO_OPTIONS, Route, PlainTokens(str.value))
  {
    o := new Options();
    if str.Some? {
      o.ParsePlain(str.value, Route);
    }
    status := 0;
  }

  /** The value of the last token for a header key is the one the SPEAK request carries. */
  lemma HeaderOptionStored(tokens: seq<string>, key: string, value: string)
    requires '=' !in key && ToLower(key) in SYNTH_HEADER_KEYS
    ensures var st := ApplyTokens(NO_OPTIONS, Route, tokens + [key + "=" + value]);
      (SynthHfs, SYNTH_HEADER_KEYS[ToLower(key)]) in st.hfs &&
      st.hfs[(SynthHfs, SYNTH_HEADER_KEYS[ToLower(key)])] == value
  {
    LaterTokenWins(NO_OPTIONS, Route, tokens, key, value);
    assert SetHeader(SynthHfs, SYNTH_HEADER_KEYS[ToLower(key)]) in Route(key);
  }

  /** A key MRCPSynth does not know, such as a recognizer key, is ignored. */
  lemma UnknownOptionIgnored(tokens: seq<string>, key: string, value: string)
    requires '=' !in key && ToLower(key) !in SYNTH_HEADER_KEYS && ToLower(key) !in FLAG_KEYS
    ensures ApplyTokens(NO_OPTIONS, Route, tokens + [key + "=" + value]) == ApplyTokens(NO_OPTIONS, Route, tokens)
  {
    UnknownKeyIgnored(NO_OPTIONS, Route, tokens, key, value);
  }

  // ---------------------------------------------------------------------------
  // DTMF

  /**
   * The `i` option: DTMF is off unless it has a non-empty value; "any"
   * turns it on for every digit, "none" leaves it off, anything else
   * turns it on for the digits it lists. Also the interrupting digits.
   */
  function DtmfPolicy(st: OptState): (r: (bool, string))
    ensures Param(st, Interrupt).None? ==> !r.0
    ensures Param(st, Interrupt).Some? ==>
      var v := Param(st, Interrupt).value;
      (r.0 <==> !EqualsIgnoreCase(v, "none")) &&
      (EqualsIgnoreCase(v, "any") ==> r.1 == DIGIT_ANY) &&
      (!EqualsIgnoreCase(v, "any") ==> r.1 == v)
  {
    var p := Param(st, Interrupt);
    if p.None? then (false, "")
    else if EqualsIgnoreCase(p.value, "any") then (true, DIGIT_ANY)
    else if EqualsIgnoreCase(p.value, "none") then (false, p.value)
    else (true, p.value)
  }

  // ---------------------------------------------------------------------------
  // The synthesis loop

  /** What one read of the Asterisk channel gives: a hangup (no frame), a DTMF key or any other frame. */
  datatype Frame = Hangup | Dtmf(key: char) | OtherFrame

  /** One pass of the loop: the frame read and the synthesizer channel's state seen after it. */
  datatype Tick = Tick(frame: Frame, state: ChannelState)

  /** A key the caller pressed while interrupting DTMF is on and the key is one of the digits. */
  predicate Interrupts(enable: bool, digits: string, f: Frame) {
    enable && f.Dtmf? && f.key in digits
  }

  /** A pass after which the loop stops: a hangup, an interrupting key, or the end of the prompt. */
  predicate EndsLoop(enable: bool, digits: string, t: Tick) {
    t.frame == Hangup || Interrupts(enable, digits, t.frame) || t.state != Processing
  }

  /**
   * The loop of `app_synth_exec` after SPEAK was sent, over the passes the
   * channel gives it. It stops at the first pass that ends it (`n`, with
   * `outcome` the status the application exits with): INTERRUPTED on a
   * hangup or an interrupting key (which also sends BARGE-IN-OCCURRED), OK
   * once the prompt has ended. When no pass ends it, it is still running
   * (None) after all of them.
   */
  method SynthesisLoop(enable: bool, digits: string, ticks: seq<Tick>)
    returns (outcome: Option<AppStatus>, n: nat, bargeIn: bool)
    ensures n <= |ticks| && (outcome.Some? <==> n < |ticks|)
    ensures forall k :: 0 <= k < n ==> !EndsLoop(enable, digits, ticks[k])
    ensures outcome.Some? ==>
      EndsLoop(enable, digits, ticks[n]) &&
      (outcome.value == StatusInterrupted <==> ticks[n].frame == Hangup || Interrupts(enable, digits, ticks[n].frame)) &&
      (outcome.value != StatusInterrupted ==> outcome.value == StatusOk)
    ensures bargeIn <==> outcome.Some? && Interrupts(enable, digits, ticks[n].frame)
  {
    n := 0;
    while n < |ticks|
      invariant n <= |ticks|
      invariant forall k :: 0 <= k < n ==> !EndsLoop(enable, digits, ticks[k])
    {
      var t := ticks[n];
      if t.frame.Hangup? {
        return Some(StatusInterrupted), n, false;
      }
      var status := StatusOk;
      var running := true;
      bargeIn := false;
      if enable && t.frame.Dtmf? {
        if t.frame.key in digits {
          status := StatusInterrupted;
          running := false;
          bargeIn := true;
        }
      }
      if t.state != Processing {
        running := false;
      }
      if !running {
        return Some(status), n, bargeIn;
      }
      n := n + 1;
    }
    outcome, bargeIn := None, false;
  }

  /** With `i=any`, every DTMF digit the caller presses during the synthesis interrupts it. */
  lemma AnyDigitInterrupts(st: OptState, key: char)
    requires Param(st, Interrupt).Some? && EqualsIgnoreCase(Param(st, Interrupt).value, "any")
    requires key in DIGIT_ANY
    ensures Interrupts(DtmfPolicy(st).0, DtmfPolicy(st).1, Dtmf(key))
  {
    assert !EqualsIgnoreCase(Param(st, Interrupt).value, "none") by {
      var v := Param(st, Interrupt).value;
      assert Lower(v[0]) == 'a';
    }
  }

  /** Without the `i` option no key interrupts the synthesis. */
  lemma NoKeyInterruptsByDefault(st: OptState, f: Frame)
    requires Param(st, Interrupt).None?
    ensures !Interrupts(DtmfPolicy(st).0, DtmfPolicy(st).1, f)
  {
  }

  // ---------------------------------------------------------------------------
  // Messages

  /** The state `synth_on_message_receive` moves the synthesizer channel to: every message sets one. */
  function SynthState(m: Message): ChannelState {
    match m.mtype
    case Response =>
      (match m.methodId
       case Speak => if m.requestState == InProgress then Processing else Error
       case SynthStop => if m.requestState == Complete then Ready else Error
       case BargeInOccurred => if m.requestState == Complete then Ready else Error
       case _ => Error)
    case Event => if m.methodId == SpeakComplete then Ready else Error
    case OtherMessageType => Error
  }

  /**
   * The synthesizer table read row by row: only SPEAK in progress starts
   * processing, only a completed STOP or BARGE-IN-OCCURRED and the
   * SPEAK-COMPLETE event make the channel ready, everything else is an error.
   */
  lemma SynthTable(m: Message)
    ensures SynthState(m) == Processing <==>
      m.mtype == Response && m.methodId == Speak && m.requestState == InProgress
    ensures SynthState(m) == Ready <==>
      (m.mtype == Response && m.methodId in {SynthStop, BargeInOccurred} && m.requestState == Complete) ||
      (m.mtype == Event && m.methodId == SpeakComplete)
    ensures SynthState(m) != Closed
    ensures SynthState(m) == Error <==>
      !(m.mtype == Response && m.methodId == Speak && m.requestState == InProgress) &&
      !(m.mtype == Response && m.methodId in {SynthStop, BargeInOccurred} && m.requestState == Complete) &&
      !(m.mtype == Event && m.methodId == SpeakComplete)
  {
  }

  /** `%03d` of any int: at least three characters, the sign counted, zero padded. */
  function Format03d(n: int): (r: string)
    ensures n >= 0 ==> r == Pad3(n)
    ensures n < 0 ==> |r| >= 3 && r[0] == '-' && AllDigits(r[1..])
  {
    if n >= 0 then Pad3(n)
    else "-" + (if -n < 10 then "0" + Decimal(-n) else Decimal(-n))
  }

  /** `atoi` reads back what `%03d` printed. */
  lemma Format03dRoundTrip(n: int)
    ensures Atoi(Format03d(n)) == n
  {
    if n >= 0 {
      Pad3RoundTrip(n);
    } else {
      var k: nat := -n;
      var d := if k < 10 then "0" + Decimal(k) else Decimal(k);
      assert DigitsValue(d) == k by {
        DecimalValue(k);
        if k < 10 {
          LeadingZeroValue(Decimal(k));
        }
      }
      var s := "-" + d;
      assert s == Format03d(n);
      assert SpacePrefix(s) == 0;
      assert s[0..] == s && s[1..] == d;
      AllDigitsPrefix(d);
      assert d[..|d|] == d;
    }
  }

  /** The value of the SYNTH_COMPLETION_CAUSE variable a message sets, if it sets one. */
  function CauseVariable(m: Message): (r: Option<string>)
    ensures r.Some? <==> m.mtype == Event && m.methodId == SpeakComplete
  {
    if m.mtype == Event && m.methodId == SpeakComplete then Some(Format03d(m.cause)) else None
  }

  /** The variable set on SPEAK-COMPLETE reads back as the event's completion cause, in three digits for the causes of section 8.4.10 of RFC 6787. */
  lemma CauseVariableReadsBack(m: Message)
    requires m.mtype == Event && m.methodId == SpeakComplete
    ensures Atoi(CauseVariable(m).value) == m.cause
    ensures 0 <= m.cause < 1000 ==> |CauseVariable(m).value| == 3
  {
    Format03dRoundTrip(m.cause);
    if 0 <= m.cause {
      Pad3RoundTrip(m.cause);
    }
  }

  /**
   * `synth_on_message_receive` of MRCPSynth: the channel moves to the state
   * of the table (dropping queued audio when it leaves PROCESSING), and a
   * SPEAK-COMPLETE sets SYNTH_COMPLETION_CAUSE on the Asterisk channel
   * (`causeVariable`).
   */
  method OnMessageReceive(ch: SpeechChannel, m: Message) returns (handled: bool, causeVariable: Option<string>)
    requires ch.Valid()
    modifies ch`state, ch.queue.buffer`used
    ensures ch.Valid() && handled
    ensures ch.state == SynthState(m) && causeVariable == CauseVariable(m)
    ensures ch.queue.Contents() ==
      (if old(ch.state) == Processing && SynthState(m) != Processing then [] else old(ch.queue.Contents()))
  {
    causeVariable := None;
    if m.mtype == Event && m.methodId == SpeakComplete {
      causeVariable := Some(Format03d(m.cause));
    }
    ch.SetStateUnlocked(SynthState(m));
    handled := true;
  }
}
