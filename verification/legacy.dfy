// The original single-file application module (app-unimrcp/app_unimrcp.c):
// header validation for SPEAK and RECOGNIZE, routing of channel parameters
// to typed headers or vendor-specific pairs, its own recognizer result
// hand-off, the text stored for a body-less RECOGNITION-COMPLETE, the
// log-level and codec tables, and the parsing of the "&"-separated options
// of its MRCPSynth and MRCPRecog applications.

module LegacyApp {
  import opened Text
  import SpeechChannel
  import AppOptions

  // ---------------------------------------------------------------------------
  // Header values

  datatype Gender = Male | Female | Neutral
  datatype VolumeLabel = Silent | XSoft | Soft | VolumeMedium | Loud | XLoud | VolumeDefault
  datatype RateLabel = XSlow | Slow | RateMedium | Fast | XFast | RateDefault

  /**
   * The value a header field receives. Fields the C code fills with `atof`
   * keep the text that was parsed (floating point is not modelled).
   */
  datatype HeaderValue =
    | IntValue(n: int)
    | BoolValue(b: bool)
    | TextValue(s: string)
    | CharValue(c: char)
    | GenderValue(g: Gender)
    | NumericVolume(numeric: string)
    | RelativeVolume(relative: string)
    | LabelVolume(volume: VolumeLabel)
    | RelativeRate(rate: string)
    | LabelRate(rateLabel: RateLabel)
    | FloatText(float: string)

  /** The synthesizer header fields the parameter map knows. */
  datatype SynthHeader =
    | JumpSize | KillOnBargeIn | SpeakerProfile | SynthCompletionCause | SynthCompletionReason
    | VoiceGender | VoiceAge | VoiceVariant | VoiceName | ProsodyVolume | ProsodyRate
    | SpeechMarker | SynthSpeechLanguage | FetchHint | AudioFetchHint | SynthFailedUri
    | SynthFailedUriCause | SpeakRestart | SpeakLength | LoadLexicon | LexiconSearchOrder

  /** The recognizer header fields the parameter map knows. */
  datatype RecogHeader =
    | ConfidenceThreshold | SensitivityLevel | SpeedVsAccuracy | NBestListLength
    | NoInputTimeout | RecognitionTimeout | WaveformUri | RecogCompletionCause
    | RecognizerContextBlock | StartInputTimers | SpeechCompleteTimeout
    | SpeechIncompleteTimeout | DtmfInterdigitTimeout | DtmfTermTimeout | DtmfTermChar
    | RecogFailedUri | RecogFailedUriCause | SaveWaveform | NewAudioChannel
    | RecogSpeechLanguage | InputType | InputWaveformUri | RecogCompletionReason
    | MediaType | VerBufferUtterance | RecognitionMode | CancelIfQueue
    | HotwordMaxDuration | HotwordMinDuration | InterpretText | DtmfBufferTime
    | ClearDtmfBuffer | EarlyNoMatch

  /** The synthesizer parameter names (exact, case-sensitive) and their header fields. */
  const SYNTH_PARAM_IDS: map<string, SynthHeader> := map[
    "jump-size" := JumpSize, "kill-on-barge-in" := KillOnBargeIn,
    "speaker-profile" := SpeakerProfile, "completion-cause" := SynthCompletionCause,
    "completion-reason" := SynthCompletionReason, "voice-gender" := VoiceGender,
    "voice-age" := VoiceAge, "voice-variant" := VoiceVariant, "voice-name" := VoiceName,
    "prosody-volume" := ProsodyVolume, "prosody-rate" := ProsodyRate,
    "speech-marker" := SpeechMarker, "speech-language" := SynthSpeechLanguage,
    "fetch-hint" := FetchHint, "audio-fetch-hint" := AudioFetchHint,
    "failed-uri" := SynthFailedUri, "failed-uri-cause" := SynthFailedUriCause,
    "speak-restart" := SpeakRestart, "speak-length" := SpeakLength,
    "load-lexicon" := LoadLexicon, "lexicon-search-order" := LexiconSearchOrder]

  /** The recognizer parameter names (exact, case-sensitive) and their header fields. */
  const RECOG_PARAM_IDS: map<string, RecogHeader> := map[
    "confidence-threshold" := ConfidenceThreshold, "sensitivity-level" := SensitivityLevel,
    "speed-vs-accuracy" := SpeedVsAccuracy, "n-best-list-length" := NBestListLength,
    "no-input-timeout" := NoInputTimeout, "recognition-timeout" := RecognitionTimeout,
    "waveform-url" := WaveformUri, "completion-cause" := RecogCompletionCause,
    "recognizer-context-block" := RecognizerContextBlock, "start-input-timers" := StartInputTimers,
    "speech-complete-timeout" := SpeechCompleteTimeout,
    "speech-incomplete-timeout" := SpeechIncompleteTimeout,
    "dtmf-interdigit-timeout" := DtmfInterdigitTimeout, "dtmf-term-timeout" := DtmfTermTimeout,
    "dtmf-term-char" := DtmfTermChar, "failed-uri" := RecogFailedUri,
    "failed-uri-cause" := RecogFailedUriCause, "save-waveform" := SaveWaveform,
    "new-audio-channel" := NewAudioChannel, "speech-language" := RecogSpeechLanguage,
    "input-type" := InputType, "input-waveform-uri" := InputWaveformUri,
    "completion-reason" := RecogCompletionReason, "media-type" := MediaType,
    "ver-buffer-utterance" := VerBufferUtterance, "recognition-mode" := RecognitionMode,
    "cancel-if-queue" := CancelIfQueue, "hotword-max-duration" := HotwordMaxDuration,
    "hotword-min-duration" := HotwordMinDuration, "interpret-text" := InterpretText,
    "dtmf-buffer-time" := DtmfBufferTime, "clear-dtmf-buffer" := ClearDtmfBuffer,
    "early-no-match" := EarlyNoMatch]

  /** The name of each gender as the header takes it. */
  function GenderName(g: Gender): string {
    match g
    case Male => "male"
    case Female => "female"
    case Neutral => "neutral"
  }

  /** `strcasecmp("true", val) == 0` */
  predicate IsTrue(val: string) {
    EqualsIgnoreCase(val, "true")
  }

  /** The prosody volume: a number, a relative change, or one of the labels. */
  function VolumeValue(val: string): (r: Option<HeaderValue>)
    ensures |val| > 0 && (IsDigit(val[0]) || val[0] == '.') ==> r == Some(NumericVolume(val))
    ensures |val| > 0 && (val[0] == '+' || val[0] == '-') ==> r == Some(RelativeVolume(val))
    ensures val == [] ==> r == None
  {
    if |val| > 0 && (IsDigit(val[0]) || val[0] == '.') then Some(NumericVolume(val))
    else if |val| > 0 && (val[0] == '+' || val[0] == '-') then Some(RelativeVolume(val))
    else if EqualsIgnoreCase("silent", val) then Some(LabelVolume(Silent))
    else if EqualsIgnoreCase("x-soft", val) then Some(LabelVolume(XSoft))
    else if EqualsIgnoreCase("soft", val) then Some(LabelVolume(Soft))
    else if EqualsIgnoreCase("medium", val) then Some(LabelVolume(VolumeMedium))
    else if EqualsIgnoreCase("loud", val) then Some(LabelVolume(Loud))
    else if EqualsIgnoreCase("x-loud", val) then Some(LabelVolume(XLoud))
    else if EqualsIgnoreCase("default", val) then Some(LabelVolume(VolumeDefault))
    else None
  }

  /** The prosody rate: a relative number or one of the labels (no sign is accepted). */
  function RateValue(val: string): (r: Option<HeaderValue>)
    ensures |val| > 0 && (IsDigit(val[0]) || val[0] == '.') ==> r == Some(RelativeRate(val))
    ensures val == [] ==> r == None
  {
    if |val| > 0 && (IsDigit(val[0]) || val[0] == '.') then Some(RelativeRate(val))
    else if EqualsIgnoreCase("x-slow", val) then Some(LabelRate(XSlow))
    else if EqualsIgnoreCase("slow", val) then Some(LabelRate(Slow))
    else if EqualsIgnoreCase("medium", val) then Some(LabelRate(RateMedium))
    else if EqualsIgnoreCase("fast", val) then Some(LabelRate(Fast))
    else if EqualsIgnoreCase("x-fast", val) then Some(LabelRate(XFast))
    else if EqualsIgnoreCase("default", val) then Some(LabelRate(RateDefault))
    else None
  }

  /**
   * `synth_channel_set_header`: the value a synthesizer header field takes
   * from a parameter, or None when the value is invalid or the field is not
   * supported (the header is then left untouched).
   */
  function SynthHeaderValue(h: SynthHeader, val: string): (r: Option<HeaderValue>)
    ensures h == VoiceGender ==> r.Some? ==> r.value.GenderValue? && EqualsIgnoreCase(val, GenderName(r.value.g))
    ensures h == VoiceAge ==> (r.Some? <==> 0 < Atoi(val) < 1000) && (r.Some? ==> r.value == IntValue(Atoi(val)))
    ensures h == VoiceVariant ==> (r.Some? <==> Atoi(val) > 0) && (r.Some? ==> r.value == IntValue(Atoi(val)))
    ensures h == KillOnBargeIn || h == LoadLexicon ==> r == Some(BoolValue(IsTrue(val)))
    ensures h == VoiceName || h == SynthSpeechLanguage ==> r == Some(TextValue(val))
    ensures !SupportedSynthHeader(h) ==> r == None
  {
    match h
    case VoiceGender =>
      if EqualsIgnoreCase("male", val) then Some(GenderValue(Male))
      else if EqualsIgnoreCase("female", val) then Some(GenderValue(Female))
      else if EqualsIgnoreCase("neutral", val) then Some(GenderValue(Neutral))
      else None
    case VoiceAge => var age := Atoi(val); if 0 < age < 1000 then Some(IntValue(age)) else None
    case VoiceVariant => var v := Atoi(val); if v > 0 then Some(IntValue(v)) else None
    case VoiceName => Some(TextValue(val))
    case KillOnBargeIn => Some(BoolValue(IsTrue(val)))
    case ProsodyVolume => VolumeValue(val)
    case ProsodyRate => RateValue(val)
    case SynthSpeechLanguage => Some(TextValue(val))
    case LoadLexicon => Some(BoolValue(IsTrue(val)))
    case _ => None
  }

  /** The synthesizer fields this module sets. */
  predicate SupportedSynthHeader(h: SynthHeader) {
    h.VoiceGender? || h.VoiceAge? || h.VoiceVariant? || h.VoiceName? || h.KillOnBargeIn? ||
    h.ProsodyVolume? || h.ProsodyRate? || h.SynthSpeechLanguage? || h.LoadLexicon?
  }

  /** How `recog_channel_set_header` reads a field's value. */
  datatype FieldKind = PositiveInt | NonNegativeInt | SingleChar | Flag | Text | Float | NotSet

  function RecogKind(h: RecogHeader): FieldKind {
    match h
    case ConfidenceThreshold | SensitivityLevel | SpeedVsAccuracy => Float
    case NBestListLength => PositiveInt
    case NoInputTimeout | RecognitionTimeout | SpeechCompleteTimeout | SpeechIncompleteTimeout
      | DtmfInterdigitTimeout | DtmfTermTimeout | HotwordMaxDuration | HotwordMinDuration => NonNegativeInt
    case DtmfTermChar => SingleChar
    case StartInputTimers | SaveWaveform | NewAudioChannel | ClearDtmfBuffer | EarlyNoMatch => Flag
    case RecogSpeechLanguage | RecognitionMode | InputWaveformUri | MediaType => Text
    case _ => NotSet
  }

  /** An integer field that accepts values from `least` up. */
  function IntAtLeast(val: string, least: int): (r: Option<HeaderValue>)
    ensures r.Some? <==> Atoi(val) >= least
    ensures r.Some? ==> r.value == IntValue(Atoi(val))
  {
    var n := Atoi(val);
    if n >= least then Some(IntValue(n)) else None
  }

  /**
   * `recog_channel_set_header`: the value a recognizer header field takes
   * from a parameter, or None when the value is invalid or the field is not
   * one this module sets (server-side, automatic or method-specific headers).
   */
  function RecogHeaderValue(h: RecogHeader, val: string): (r: Option<HeaderValue>)
    ensures RecogKind(h) == PositiveInt ==> (r.Some? <==> Atoi(val) > 0) && (r.Some? ==> r.value == IntValue(Atoi(val)))
    ensures RecogKind(h) == NonNegativeInt ==> (r.Some? <==> Atoi(val) >= 0) && (r.Some? ==> r.value == IntValue(Atoi(val)))
    ensures RecogKind(h) == SingleChar ==> (r.Some? <==> |val| == 1) && (r.Some? ==> r.value == CharValue(val[0]))
    ensures RecogKind(h) == Flag ==> r == Some(BoolValue(IsTrue(val)))
    ensures RecogKind(h) == Text ==> r == Some(TextValue(val))
    ensures RecogKind(h) == Float ==> r == Some(FloatText(val))
    ensures RecogKind(h) == NotSet ==> r == None
  {
    match RecogKind(h)
    case Float => Some(FloatText(val))
    case PositiveInt => IntAtLeast(val, 1)
    case NonNegativeInt => IntAtLeast(val, 0)
    case SingleChar => if |val| == 1 then Some(CharValue(val[0])) else None
    case Flag => Some(BoolValue(IsTrue(val)))
    case Text => Some(TextValue(val))
    case NotSet => None
  }

  /** The headers the module leaves to the server, sets itself, or that belong to other methods. */
  lemma UnsupportedRecogHeaders(h: RecogHeader)
    ensures RecogKind(h) == NotSet <==>
      h in {WaveformUri, RecogCompletionCause, RecogFailedUri, RecogFailedUriCause, InputType,
            RecogCompletionReason, CancelIfQueue, RecognizerContextBlock, DtmfBufferTime,
            InterpretText, VerBufferUtterance}
  {
  }

  /** Every gender name, in any case, is read back as that gender; anything else is refused. */
  lemma GenderRoundTrip(g: Gender, val: string)
    ensures ToLower(val) == GenderName(g) ==> SynthHeaderValue(VoiceGender, val) == Some(GenderValue(g))
    ensures (forall g' :: ToLower(val) != GenderName(g')) ==> SynthHeaderValue(VoiceGender, val) == None
  {
    forall g' | true
      ensures EqualsIgnoreCase(GenderName(g'), val) <==> ToLower(val) == GenderName(g')
    {
      AppOptions.FoldedKey(val, GenderName(g'));
      assert EqualsIgnoreCase(GenderName(g'), val) <==> EqualsIgnoreCase(val, GenderName(g'));
    }
    assert GenderName(Male) == "male" && GenderName(Female) == "female" && GenderName(Neutral) == "neutral";
  }

  /** Numbers written in decimal are accepted exactly in the ranges the fields allow. */
  lemma NumericFieldsRoundTrip(n: nat)
    ensures SynthHeaderValue(VoiceAge, Decimal(n)) == (if 0 < n < 1000 then Some(IntValue(n)) else None)
    ensures SynthHeaderValue(VoiceVariant, Decimal(n)) == (if n > 0 then Some(IntValue(n)) else None)
    ensures RecogHeaderValue(NBestListLength, Decimal(n)) == (if n > 0 then Some(IntValue(n)) else None)
    ensures forall h :: RecogKind(h) == NonNegativeInt ==> RecogHeaderValue(h, Decimal(n)) == Some(IntValue(n))
  {
    DecimalRoundTrip(n);
  }

  /** A negative timeout is refused, whatever field it is for. */
  lemma NegativeTimeoutRefused(h: RecogHeader, n: nat)
    requires RecogKind(h) == NonNegativeInt && n > 0
    ensures RecogHeaderValue(h, "-" + Decimal(n)) == None
  {
    AtoiNegative(n, []);
    assert "-" + Decimal(n) + [] == "-" + Decimal(n);
  }

  // ---------------------------------------------------------------------------
  // Routing parameters

  /** The typed header fields set on a request and the vendor-specific pairs, in order. */
  datatype Request<H(==)> = Request(headers: map<H, HeaderValue>, vendor: seq<(string, string)>)

  /**
   * One parameter of the channel: skipped when its name or value is empty;
   * a name in the id map sets that header field when the value is valid;
   * any other name becomes a vendor-specific pair.
   */
  function RouteParam<H(==)>(req: Request<H>, ids: map<string, H>, check: (H, string) -> Option<HeaderValue>,
                             p: (string, string)): Request<H>
  {
    if p.0 == [] || p.1 == [] then req
    else if p.0 in ids then
      (var v := check(ids[p.0], p.1);
       if v.Some? then req.(headers := req.headers[ids[p.0] := v.value]) else req)
    else req.(vendor := req.vendor + [p])
  }

  /** The parameters in the order the table hands them out. */
  function RouteParams<H(==)>(ids: map<string, H>, check: (H, string) -> Option<HeaderValue>,
                              params: seq<(string, string)>): Request<H>
  {
    if params == [] then Request(map[], [])
    else RouteParam(RouteParams(ids, check, params[..|params| - 1]), ids, check, params[|params| - 1])
  }

  /**
   * `synth_channel_set_params` and `recog_channel_set_params`: the loop
   * over the channel's parameters.
   */
  method SetParams<H(==)>(ids: map<string, H>, check: (H, string) -> Option<HeaderValue>,
                          params: seq<(string, string)>) returns (req: Request<H>)
    ensures req == RouteParams(ids, check, params)
  {
    req := Request(map[], []);
    for k := 0 to |params|
      invariant req == RouteParams(ids, check, params[..k])
    {
      assert params[..k + 1][..k] == params[..k];
      var p := params[k];
      if |p.0| > 0 && |p.1| > 0 {
        if p.0 in ids {
          var v := check(ids[p.0], p.1);
          if v.Some? {
            req := req.(headers := req.headers[ids[p.0] := v.value]);
          }
        } else {
          req := req.(vendor := req.vendor + [p]);
        }
      }
    }
    assert params[..|params|] == params;
  }

  /** A parameter is sent as a vendor-specific pair exactly when both parts are set and its name is not in the map. */
  lemma {:induction false} VendorPairsExactly<H>(ids: map<string, H>, check: (H, string) -> Option<HeaderValue>,
                                                     params: seq<(string, string)>, p: (string, string))
    ensures p in RouteParams(ids, check, params).vendor <==> p in params && p.0 != [] && p.1 != [] && p.0 !in ids
    decreases |params|
  {
    if params != [] {
      var init := params[..|params| - 1];
      VendorPairsExactly(ids, check, init, p);
      assert params == init + [params[|params| - 1]];
    }
  }

  /** Every header field set comes from a parameter in the map whose value is valid for it. */
  lemma {:induction false} HeadersFromParams<H>(ids: map<string, H>, check: (H, string) -> Option<HeaderValue>,
                                                    params: seq<(string, string)>, h: H)
    requires h in RouteParams(ids, check, params).headers
    ensures exists i ::
      0 <= i < |params| && params[i].0 in ids && ids[params[i].0] == h &&
      check(h, params[i].1) == Some(RouteParams(ids, check, params).headers[h])
    decreases |params|
  {
    var init := params[..|params| - 1];
    var last := params[|params| - 1];
    var before := RouteParams(ids, check, init);
    if h in before.headers && RouteParams(ids, check, params).headers[h] == before.headers[h] {
      HeadersFromParams(ids, check, init, h);
      var i :| 0 <= i < |init| && init[i].0 in ids && ids[init[i].0] == h && check(h, init[i].1) == Some(before.headers[h]);
      assert params[i] == init[i];
    } else {
      assert params[|params| - 1] == last;
    }
  }

  /**
   * The last valid parameter for a field decides it: later parameters that
   * are invalid for it, skipped, or for other fields leave it as it was.
   */
  lemma {:induction false} LastValidParamWins<H>(ids: map<string, H>, check: (H, string) -> Option<HeaderValue>,
                                                     params: seq<(string, string)>, i: nat, v: HeaderValue)
    requires i < |params| && params[i].0 != [] && params[i].1 != [] && params[i].0 in ids
    requires check(ids[params[i].0], params[i].1) == Some(v)
    requires forall j :: i < j < |params| && params[j].0 != [] && params[j].1 != [] && params[j].0 in ids ==>
      ids[params[j].0] != ids[params[i].0] || check(ids[params[j].0], params[j].1).None?
    ensures ids[params[i].0] in RouteParams(ids, check, params).headers
    ensures RouteParams(ids, check, params).headers[ids[params[i].0]] == v
    decreases |params|
  {
    var init := params[..|params| - 1];
    if i < |params| - 1 {
      LastValidParamWins(ids, check, init, i, v);
    }
  }

  /** Synthesizer parameters, routed with the synthesizer map and checks. */
  function SynthParams(params: seq<(string, string)>): Request<SynthHeader> {
    RouteParams(SYNTH_PARAM_IDS, SynthHeaderValue, params)
  }

  /** Recognizer parameters, routed with the recognizer map and checks. */
  function RecogParams(params: seq<(string, string)>): Request<RecogHeader> {
    RouteParams(RECOG_PARAM_IDS, RecogHeaderValue, params)
  }

  /** An invalid voice age leaves the header as the earlier parameters set it. */
  lemma InvalidAgeKeepsHeader(params: seq<(string, string)>, val: string)
    requires val != [] && !(0 < Atoi(val) < 1000)
    ensures SynthParams(params + [("voice-age", val)]) == SynthParams(params)
  {
    var ps := params + [("voice-age", val)];
    assert ps[..|ps| - 1] == params;
    assert "voice-age" in SYNTH_PARAM_IDS && SYNTH_PARAM_IDS["voice-age"] == VoiceAge;
  }

  /** A parameter name the map does not hold is passed on untouched as a vendor-specific pair. */
  lemma UnknownParamIsVendorSpecific(params: seq<(string, string)>, name: string, val: string)
    requires name != [] && val != [] && name !in RECOG_PARAM_IDS
    ensures RecogParams(params + [(name, val)]).vendor == RecogParams(params).vendor + [(name, val)]
    ensures RecogParams(params + [(name, val)]).headers == RecogParams(params).headers
  {
    var ps := params + [(name, val)];
    assert ps[..|ps| - 1] == params;
  }

  // ---------------------------------------------------------------------------
  // Recognizer options handed to the channel

  /**
   * The channel parameter each recognizer option of MRCPRecog is handed
   * over as, in the order of its `speech_channel_set_param` calls, as
   * written: "iwu" goes out as "input-wave-uri" and "enm" as
   * "earlynomatch", names the recognizer parameter map does not hold.
   */
  const RECOG_OPTION_PARAMS_AS_WRITTEN: seq<(string, string)> := [
    ("t", "recognition-timeout"), ("ct", "confidence-threshold"), ("iwu", "input-wave-uri"),
    ("enm", "earlynomatch"), ("cdb", "clear-dtmf-buffer"), ("hmind", "hotword-min-duration"),
    ("hmaxd", "hotword-max-duration"), ("rm", "recognition-mode"), ("nac", "new-audio-channel"),
    ("sw", "save-waveform"), ("dttc", "dtmf-term-char"), ("dtt", "dtmf-term-timeout"),
    ("dit", "dtmf-interdigit-timeout"), ("sint", "speech-incomplete-timeout"),
    ("sct", "speech-complete-timeout"), ("sit", "start-input-timers"), ("nit", "no-input-timeout"),
    ("nb", "n-best-list-length"), ("sva", "speed-vs-accuracy"), ("mt", "media-type"),
    ("sl", "sensitivity-level")]

  /** The same table with the names the map holds for those two headers. */
  const RECOG_OPTION_PARAMS: seq<(string, string)> :=
    RECOG_OPTION_PARAMS_AS_WRITTEN[2 := ("iwu", "input-waveform-uri")][3 := ("enm", "early-no-match")]

  /**
   * The channel parameters a table of (option, parameter name) sets from
   * the parsed options: one per option with a non-empty value, in table
   * order (the channel keeps them in a hash table keyed by name, whose walk
   * order is not modelled).
   */
  function OptionParams(table: seq<(string, string)>, opts: map<string, string>): (r: seq<(string, string)>)
    ensures |r| <= |table|
    ensures forall p :: p in r ==> p.1 != [] && exists i :: 0 <= i < |table| && table[i].1 == p.0
  {
    if table == [] then []
    else
      var rest := OptionParams(table[1..], opts);
      assert forall p :: p in rest ==> exists i :: 0 <= i < |table| && table[i].1 == p.0 by {
        forall p | p in rest ensures exists i :: 0 <= i < |table| && table[i].1 == p.0 {
          var j :| 0 <= j < |table[1..]| && table[1..][j].1 == p.0;
          assert table[j + 1].1 == p.0;
        }
      }
      var (key, name) := table[0];
      if key in opts && opts[key] != [] then [(name, opts[key])] + rest else rest
  }

  /** An option with a value is handed over under its table name. */
  lemma {:induction false} OptionParamPresent(table: seq<(string, string)>, opts: map<string, string>, i: nat)
    requires i < |table| && table[i].0 in opts && opts[table[i].0] != []
    ensures (table[i].1, opts[table[i].0]) in OptionParams(table, opts)
    decreases i
  {
    if i > 0 {
      OptionParamPresent(table[1..], opts, i - 1);
    }
  }

  /** Every parameter name of the corrected table is one the recognizer map holds. */
  lemma OptionParamNamesMapped()
    ensures forall i :: 0 <= i < |RECOG_OPTION_PARAMS| ==> RECOG_OPTION_PARAMS[i].1 in RECOG_PARAM_IDS
  {
  }

  /** The two misnamed parameters of the table as written are not in the recognizer map. */
  lemma MisnamedParamsUnmapped()
    ensures "input-wave-uri" !in RECOG_PARAM_IDS && "earlynomatch" !in RECOG_PARAM_IDS
  {
  }

  /** An option with a value whose parameter name the map does not hold goes out as a vendor-specific pair. */
  lemma UnmappedOptionIsVendorPair(table: seq<(string, string)>, opts: map<string, string>, i: nat)
    requires i < |table| && table[i].0 in opts && opts[table[i].0] != []
    requires table[i].1 != [] && table[i].1 !in RECOG_PARAM_IDS
    ensures (table[i].1, opts[table[i].0]) in RecogParams(OptionParams(table, opts)).vendor
  {
    OptionParamPresent(table, opts, i);
    VendorPairsExactly(RECOG_PARAM_IDS, RecogHeaderValue, OptionParams(table, opts), (table[i].1, opts[table[i].0]));
  }

  /**
   * As written, a waveform URI or early-no-match option reaches the
   * server only as a vendor-specific pair, never as its header.
   */
  lemma MisnamedOptionsAreVendorPairs(opts: map<string, string>)
    ensures "iwu" in opts && opts["iwu"] != [] ==>
      ("input-wave-uri", opts["iwu"]) in RecogParams(OptionParams(RECOG_OPTION_PARAMS_AS_WRITTEN, opts)).vendor
    ensures "enm" in opts && opts["enm"] != [] ==>
      ("earlynomatch", opts["enm"]) in RecogParams(OptionParams(RECOG_OPTION_PARAMS_AS_WRITTEN, opts)).vendor
  {
    MisnamedParamsUnmapped();
    assert RECOG_OPTION_PARAMS_AS_WRITTEN[2] == ("iwu", "input-wave-uri");
    assert RECOG_OPTION_PARAMS_AS_WRITTEN[3] == ("enm", "earlynomatch");
    if "iwu" in opts && opts["iwu"] != [] {
      UnmappedOptionIsVendorPair(RECOG_OPTION_PARAMS_AS_WRITTEN, opts, 2);
    }
    if "enm" in opts && opts["enm"] != [] {
      UnmappedOptionIsVendorPair(RECOG_OPTION_PARAMS_AS_WRITTEN, opts, 3);
    }
  }

  /** With the names the map holds, no recognizer option ever goes out as a vendor-specific pair. */
  lemma OptionsNeverVendorSpecific(opts: map<string, string>)
    ensures RecogParams(OptionParams(RECOG_OPTION_PARAMS, opts)).vendor == []
  {
    var ps := OptionParams(RECOG_OPTION_PARAMS, opts);
    var vendor := RecogParams(ps).vendor;
    OptionParamNamesMapped();
    if vendor != [] {
      VendorPairsExactly(RECOG_PARAM_IDS, RecogHeaderValue, ps, vendor[0]);
    }
  }

  // ---------------------------------------------------------------------------
  // Recognizer results

  /** The result fields of the recognizer data: no result is the empty string. */
  datatype LegacyRecord = LegacyRecord(result: string, startOfInput: bool)

  /** `recog_channel_set_results` on the record: a result already held, or an empty one, is refused. */
  function AcceptResult(rec: LegacyRecord, result: string): (r: (int, LegacyRecord))
    ensures r.0 == 0 <==> rec.result == [] && result != []
    ensures r.0 == 0 || r.0 == -1
    ensures r.0 == 0 ==> r.1 == rec.(result := result)
    ensures r.0 != 0 ==> r.1 == rec
  {
    if rec.result != [] || result == [] then (-1, rec) else (0, rec.(result := result))
  }

  /**
   * `recog_channel_get_results` on the record: a held result is handed out
   * (0) and the record cleared; else a pending start of input is reported
   * (1) and cleared; else -1.
   */
  function TakeResult(rec: LegacyRecord): (r: (int, Option<string>, LegacyRecord))
    ensures r.0 == 0 <==> rec.result != []
    ensures r.0 == 1 <==> rec.result == [] && rec.startOfInput
    ensures r.0 in {-1, 0, 1}
    ensures r.1.Some? <==> r.0 == 0
    ensures r.0 == 0 ==> r.1 == Some(rec.result)
    ensures r.0 == -1 ==> r.2 == rec
    ensures r.0 != -1 ==> r.2 == LegacyRecord([], false)
  {
    if rec.result != [] then (0, Some(rec.result), LegacyRecord([], false))
    else if rec.startOfInput then (1, None, LegacyRecord([], false))
    else (-1, None, rec)
  }

  /** A result stored on a record without one is handed out once, and the next get finds nothing. */
  lemma ResultRoundTrip(rec: LegacyRecord, result: string)
    requires rec.result == [] && result != []
    ensures AcceptResult(rec, result).0 == 0
    ensures TakeResult(AcceptResult(rec, result).1) == (0, Some(result), LegacyRecord([], false))
    ensures TakeResult(TakeResult(AcceptResult(rec, result).1).2).0 == -1
  {
  }

  /** A second result is refused until the first has been taken. */
  lemma ResultWriteOnce(rec: LegacyRecord, first: string, second: string)
    requires rec.result == [] && first != []
    ensures AcceptResult(AcceptResult(rec, first).1, second) == (-1, AcceptResult(rec, first).1)
  {
  }

  /** The recognizer data of a channel (`recognizer_data_t`), reduced to its result fields. */
  class LegacyRecognizer {
    var result: string
    var startOfInput: bool

    constructor ()
      ensures result == [] && !startOfInput
    {
      result := [];
      startOfInput := false;
    }

    function Record(): LegacyRecord
      reads this
    {
      LegacyRecord(result, startOfInput)
    }
  }

  /** A channel as the result functions see it: its recognizer data may be missing. */
  class LegacyChannel {
    var data: LegacyRecognizer?

    constructor (d: LegacyRecognizer?)
      ensures data == d
    {
      data := d;
    }

    /** `recog_channel_set_results`: -1 without recognizer data. */
    method SetResults(result: string) returns (status: int)
      modifies data
      ensures data == old(data)
      ensures data == null ==> status == -1
      ensures data != null ==> (status, data.Record()) == AcceptResult(old(data.Record()), result)
    {
      if data == null {
        return -1;
      }
      if |data.result| > 0 || |result| == 0 {
        return -1;
      }
      data.result := result;
      status := 0;
    }

    /** `recog_channel_get_results`: -1 without recognizer data. */
    method GetResults() returns (status: int, result: Option<string>)
      modifies data
      ensures data == old(data)
      ensures data == null ==> status == -1 && result == None
      ensures data != null ==> (status, result, data.Record()) == TakeResult(old(data.Record()))
    {
      if data == null {
        return -1, None;
      }
      status, result := -1, None;
      if |data.result| > 0 {
        result := Some(data.result);
        data.result := [];
        data.startOfInput := false;
        status := 0;
      } else if data.startOfInput {
        status := 1;
        data.startOfInput := false;
      }
    }

    /** `recog_channel_set_start_of_input`: -1 without recognizer data. */
    method SetStartOfInput() returns (status: int)
      modifies data
      ensures data == old(data)
      ensures data == null ==> status == -1
      ensures data != null ==> status == 0 && data.Record() == old(data.Record()).(startOfInput := true)
    {
      if data == null {
        return -1;
      }
      data.startOfInput := true;
      status := 0;
    }
  }

  // ---------------------------------------------------------------------------
  // RECOGNITION-COMPLETE

  const COMPLETION_CAUSE_PREFIX := "Completion-Cause: "
  const WAVEFORM_URI_PREFIX := "Waveform-URI: "

  /**
   * The text stored for a RECOGNITION-COMPLETE without a body: the cause
   * in three digits, then, only when the event names a waveform URI, the
   * separator (',' or '|' depending on the Asterisk version built against)
   * and the URI, cut to the 255-character buffer it is printed into.
   */
  function CompletionCauseText(cause: nat, uri: string, sep: char): (r: string)
    ensures uri == [] ==> |r| < 511
    ensures uri != [] ==> |r| < 511 + 255
  {
    var head := CopyString(COMPLETION_CAUSE_PREFIX + Pad3(cause), 511);
    if |uri| > 0 then head + [sep] + CopyString(WAVEFORM_URI_PREFIX + uri, 255) else head
  }

  lemma DigitsWithoutNulOrSeparator(cause: nat, sep: char)
    requires sep == ',' || sep == '|'
    ensures var line := COMPLETION_CAUSE_PREFIX + Pad3(cause);
      NUL !in line && forall i :: 0 <= i < |line| ==> line[i] !in {sep}
  {
    var d := Pad3(cause);
    var line := COMPLETION_CAUSE_PREFIX + d;
    forall i | 0 <= i < |line|
      ensures line[i] != NUL && line[i] !in {sep}
    {
      if i >= |COMPLETION_CAUSE_PREFIX| {
        assert line[i] == d[i - |COMPLETION_CAUSE_PREFIX|];
      }
    }
  }

  lemma UriWithoutNul(uri: string)
    requires NUL !in uri
    ensures NUL !in WAVEFORM_URI_PREFIX + uri
  {
    var w := WAVEFORM_URI_PREFIX + uri;
    forall i | 0 <= i < |w|
      ensures w[i] != NUL
    {
      if i >= |WAVEFORM_URI_PREFIX| {
        assert w[i] == uri[i - |WAVEFORM_URI_PREFIX|];
      }
    }
  }

  /** The result text of a RECOGNITION-COMPLETE: the body as a C string, or the cause text when there is no body. */
  function CompletionResult(body: string, cause: nat, uri: string, sep: char): (r: string)
    ensures body != [] ==> r == CStr(body)
  {
    if |body| > 0 then CStr(body) else CompletionCauseText(cause, uri, sep)
  }

  /**
   * The cause text reads back: the cause line splits off at the separator,
   * `atoi` on what follows the prefix gives the cause, and the rest is the
   * waveform URI when it fits its buffer; without a URI there is no separator.
   */
  lemma CompletionCauseRoundTrip(cause: nat, uri: string, sep: char)
    requires cause < 1000 && (sep == ',' || sep == '|')
    requires NUL !in uri && |uri| < 255 - |WAVEFORM_URI_PREFIX|
    ensures var text := CompletionCauseText(cause, uri, sep);
      var (line, rest) := StrSep(text, {sep});
      line == COMPLETION_CAUSE_PREFIX + Pad3(cause) &&
      Atoi(line[|COMPLETION_CAUSE_PREFIX|..]) == cause &&
      rest == (if uri == [] then None else Some(WAVEFORM_URI_PREFIX + uri))
  {
    var line := COMPLETION_CAUSE_PREFIX + Pad3(cause);
    Pad3RoundTrip(cause);
    DigitsWithoutNulOrSeparator(cause, sep);
    CopyStringWhole(line, 511);
    assert line[|COMPLETION_CAUSE_PREFIX|..] == Pad3(cause);
    if uri == [] {
      StrSepNone(line, {sep});
    } else {
      var w := WAVEFORM_URI_PREFIX + uri;
      UriWithoutNul(uri);
      CopyStringWhole(w, 255);
      StrSepAt(line, sep, {sep}, w);
    }
  }

  // ---------------------------------------------------------------------------
  // Logging

  /** UniMRCP log priorities. */
  datatype LogPriority = Emergency | Alert | Critical | Error | Warning | Notice | Info | Debug

  function LogLevelName(p: LogPriority): string {
    match p
    case Emergency => "EMERGENCY"
    case Alert => "ALERT"
    case Critical => "CRITICAL"
    case Error => "ERROR"
    case Warning => "WARNING"
    case Notice => "NOTICE"
    case Info => "INFO"
    case Debug => "DEBUG"
  }

  /** `str_to_log_level`: the priority whose name matches in any case; DEBUG for any other text. */
  function StrToLogLevel(level: string): (r: LogPriority)
    ensures r != Debug ==> EqualsIgnoreCase(level, LogLevelName(r))
    ensures r == Debug ==> forall p :: p != Debug ==> !EqualsIgnoreCase(level, LogLevelName(p))
    ensures (forall p :: !EqualsIgnoreCase(level, LogLevelName(p))) ==> r == Debug
  {
    if EqualsIgnoreCase(level, "EMERGENCY") then Emergency
    else if EqualsIgnoreCase(level, "ALERT") then Alert
    else if EqualsIgnoreCase(level, "CRITICAL") then Critical
    else if EqualsIgnoreCase(level, "ERROR") then Error
    else if EqualsIgnoreCase(level, "WARNING") then Warning
    else if EqualsIgnoreCase(level, "NOTICE") then Notice
    else if EqualsIgnoreCase(level, "INFO") then Info
    else Debug
  }

  predicate UpperCase(s: string) {
    forall i :: 0 <= i < |s| ==> 'A' <= s[i] <= 'Z'
  }

  /** Between upper-case names, matching in any case is equality; folding the text first changes nothing. */
  lemma UpperCaseMatch(a: string, b: string)
    requires UpperCase(a) && UpperCase(b)
    ensures EqualsIgnoreCase(a, b) ==> a == b
    ensures EqualsIgnoreCase(ToLower(a), b) <==> EqualsIgnoreCase(a, b)
  {
    if EqualsIgnoreCase(a, b) {
      forall i | 0 <= i < |a|
        ensures a[i] == b[i]
      {
        assert Lower(a[i]) == Lower(b[i]);
      }
    }
  }

  lemma NamesUpperCase(p: LogPriority)
    ensures UpperCase(LogLevelName(p))
  {
  }

  /** No two priorities share a name. */
  lemma LogLevelNameInjective(p: LogPriority, q: LogPriority)
    ensures LogLevelName(p) == LogLevelName(q) ==> p == q
  {
  }

  /** Text matching one priority's name, in any case, is read as that priority. */
  lemma NameMatchDecides(s: string, p: LogPriority)
    requires EqualsIgnoreCase(s, LogLevelName(p))
    ensures StrToLogLevel(s) == p
  {
    forall q | EqualsIgnoreCase(s, LogLevelName(q))
      ensures q == p
    {
      NamesUpperCase(p);
      NamesUpperCase(q);
      assert EqualsIgnoreCase(LogLevelName(q), LogLevelName(p));
      UpperCaseMatch(LogLevelName(q), LogLevelName(p));
      LogLevelNameInjective(q, p);
    }
  }

  /** Each priority's name, in upper or lower case, is read back as that priority. */
  lemma LogLevelRoundTrip(p: LogPriority)
    ensures StrToLogLevel(LogLevelName(p)) == p
    ensures StrToLogLevel(ToLower(LogLevelName(p))) == p
  {
    var n := LogLevelName(p);
    NamesUpperCase(p);
    UpperCaseMatch(n, n);
    NameMatchDecides(n, p);
    NameMatchDecides(ToLower(n), p);
  }

  // ---------------------------------------------------------------------------
  // Codecs

  /**
   * `codec_to_str`, `codec_to_bytes_per_sample` and `codec_to_format`:
   * mu-law and A-law keep their 8-bit form, every other format becomes
   * 16-bit signed linear at 8 kHz.
   */
  lemma LegacyCodecTable(f: SpeechChannel.Format)
    ensures f == SpeechChannel.Ulaw ==>
      (SpeechChannel.FormatToStr(f), SpeechChannel.FormatToBytesPerSample(f), SpeechChannel.GetSpeechCodec(f)) == ("PCMU", 1, SpeechChannel.Ulaw)
    ensures f == SpeechChannel.Alaw ==>
      (SpeechChannel.FormatToStr(f), SpeechChannel.FormatToBytesPerSample(f), SpeechChannel.GetSpeechCodec(f)) == ("PCMA", 1, SpeechChannel.Alaw)
    ensures f != SpeechChannel.Ulaw && f != SpeechChannel.Alaw ==>
      (SpeechChannel.FormatToStr(f), SpeechChannel.FormatToBytesPerSample(f), SpeechChannel.GetSpeechCodec(f)) == ("L16", 2, SpeechChannel.Slinear)
  {
  }
}
