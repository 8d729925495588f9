// The MRCPRecogVerif dialplan application (app-unimrcp/app_recogverif.c):
// recognition and speaker verification in one run. Its options feed two
// header tables and two vendor-parameter lists; its verification result is
// read back only when the buffer handling asked for a verification.

module RecogVerif {
  import opened Text
  import opened AppOptions
  import opened SpeechChannel
  import opened ChannelMethods
  import AppDatastore

  // ---------------------------------------------------------------------------
  // Options

  /** The flag keys of MRCPRecogVerif, by lower-case key. */
  const FLAG_KEYS: map<string, Flag> := map[
    "p" := Profile, "i" := Interrupt, "f" := Filename, "b" := Bargein, "gd" := GrammarDelimiters,
    "epe" := ExitOnPlayError, "uer" := UriEncodedResults, "od" := OutputDelimiters, "sit" := InputTimers,
    "plt" := PersistentLifetime, "dse" := DatastoreEntry, "nif" := InstanceFormat, "bufh" := BufHnd]

  /** The recognizer header keys: those of MRCPRecog and `vbu`. */
  const RECOG_KEYS: map<string, string> := RECOG_HEADER_KEYS["vbu" := "Verify-Buffer-Utterance"]

  /** Vendor-specific parameters: `vsp` for both resources, `vsprec` and `vspver` for one. */
  function VendorFrom(k: string): (r: seq<Action>)
    ensures k == "vsp" ==> r == [SetVendor(RecVendorParams), SetVendor(VerVendorParams)]
    ensures k == "vsprec" ==> r == [SetVendor(RecVendorParams)]
    ensures k == "vspver" ==> r == [SetVendor(VerVendorParams)]
    ensures k != "vsp" && k != "vsprec" && k != "vspver" ==> r == []
  {
    if k == "vsp" then [SetVendor(RecVendorParams), SetVendor(VerVendorParams)]
    else if k == "vsprec" then [SetVendor(RecVendorParams)]
    else if k == "vspver" then [SetVendor(VerVendorParams)]
    else []
  }

  /**
   * `mrcprecogverif_option_apply`: recognizer keys fill `recog_hfs`,
   * session keys `verif_session_hfs`, vendor keys one or both vendor
   * lists, flag keys their flag; any other key changes nothing. Keys
   * compare ignoring case.
   */
  function Route(key: string): (r: seq<Action>)
    ensures ToLower(key) in RECOG_KEYS ==> SetHeader(RecogHfs, RECOG_KEYS[ToLower(key)]) in r
    ensures ToLower(key) in VERIF_SESSION_KEYS ==> SetHeader(VerifSessionHfs, VERIF_SESSION_KEYS[ToLower(key)]) in r
    ensures ToLower(key) in FLAG_KEYS ==> SetFlag(FLAG_KEYS[ToLower(key)]) in r
    ensures forall a :: a in r && a.SetFlag? ==> ToLower(key) in FLAG_KEYS && a.flag == FLAG_KEYS[ToLower(key)]
    ensures forall a :: a in r && a.SetHeader? ==>
      (a.table == RecogHfs && ToLower(key) in RECOG_KEYS && a.field == RECOG_KEYS[ToLower(key)]) ||
      (a.table == VerifSessionHfs && ToLower(key) in VERIF_SESSION_KEYS && a.field == VERIF_SESSION_KEYS[ToLower(key)])
    ensures r == [] <==>
      ToLower(key) !in RECOG_KEYS && ToLower(key) !in VERIF_SESSION_KEYS && ToLower(key) !in FLAG_KEYS &&
      ToLower(key) != "vsp" && ToLower(key) != "vsprec" && ToLower(key) != "vspver"
  {
    var k := ToLower(key);
    HeaderFrom(RECOG_KEYS, RecogHfs, k) + HeaderFrom(VERIF_SESSION_KEYS, VerifSessionHfs, k) +
    VendorFrom(k) + FlagFrom(FLAG_KEYS, k)
  }

  /** `vsp` (in any case) goes to both vendor lists. */
  lemma VendorRoute(key: string)
    requires EqualsIgnoreCase(key, "vsp")
    ensures Route(key) == [SetVendor(RecVendorParams), SetVendor(VerVendorParams)]
  {
    FoldedKey(key, "vsp");
    VspSetsNoHeader();
  }
  lemma VspSetsNoHeader()
    ensures "vsp" !in RECOG_KEYS && "vsp" !in VERIF_SESSION_KEYS && "vsp" !in FLAG_KEYS
  {
  }

  /** `bufh` (in any case) sets the buffer-handling flag. */
  lemma BufferHandlingRoute(key: string)
    requires EqualsIgnoreCase(key, "bufh")
    ensures Route(key) == [SetFlag(BufHnd)]
  {
    FoldedKey(key, "bufh");
    BufhSetsNoHeader();
  }
  lemma BufhSetsNoHeader()
    ensures "bufh" !in RECOG_KEYS && "bufh" !in VERIF_SESSION_KEYS
  {
  }

  /** `dse` (in any case) names the datastore entry. */
  lemma EntryRoute(key: string)
    requires EqualsIgnoreCase(key, "dse")
    ensures Route(key) == [SetFlag(DatastoreEntry)]
  {
    FoldedKey(key, "dse");
    DseSetsNoHeader();
  }
  lemma DseSetsNoHeader()
    ensures "dse" !in RECOG_KEYS && "dse" !in VERIF_SESSION_KEYS
  {
  }

  /** A key that folds to a lower-case word made of letters holds no '='. */
  lemma NoEqualsInKey(key: string, k: string)
    requires EqualsIgnoreCase(key, k) && IsLowerCase(k) && '=' !in k
    ensures '=' !in key
  {
    forall i | 0 <= i < |key|
      ensures key[i] != '='
    {
      assert Lower(key[i]) == Lower(k[i]);
    }
  }

  /** A `vsp` token applies its value to the recognizer's vendor list, then to the verifier's. */
  lemma VendorToken(s0: OptState, key: string, value: string)
    requires EqualsIgnoreCase(key, "vsp")
    ensures ApplyToken(s0, Route, key + "=" + value) ==
      Act(Act(s0, SetVendor(RecVendorParams), value), SetVendor(VerVendorParams), value)
  {
    var tok := key + "=" + value;
    VendorRoute(key);
    NoEqualsInKey(key, "vsp");
    assert tok == key + ['='] + value;
    StrSepAt(key, '=', {'='}, value);
    var acts := [SetVendor(RecVendorParams), SetVendor(VerVendorParams)];
    assert acts[..1] == [SetVendor(RecVendorParams)] && [SetVendor(RecVendorParams)][..0] == [];
  }

  /**
   * `vsp=name=value` stores the value under the name in both vendor
   * lists, whatever came before it.
   */
  lemma VendorParamToBoth(tokens: seq<string>, key: string, name: string, v: string)
    requires EqualsIgnoreCase(key, "vsp") && '=' !in name
    ensures var st := ApplyTokens(NO_OPTIONS, Route, tokens + [key + "=" + (name + "=" + v)]);
      (RecVendorParams, name) in st.hfs && st.hfs[(RecVendorParams, name)] == v &&
      (VerVendorParams, name) in st.hfs && st.hfs[(VerVendorParams, name)] == v
  {
    var value := name + "=" + v;
    ApplyTokensSnoc(NO_OPTIONS, Route, tokens, key + "=" + value);
    VendorToken(ApplyTokens(NO_OPTIONS, Route, tokens), key, value);
    assert value == name + ['='] + v;
    StrSepAt(name, '=', {'='}, v);
  }

  /** A vendor parameter without '=' in its value is dropped. */
  lemma VendorParamWithoutValueIgnored(tokens: seq<string>, key: string, value: string)
    requires EqualsIgnoreCase(key, "vsp") && '=' !in value
    ensures ApplyTokens(NO_OPTIONS, Route, tokens + [key + "=" + value]) == ApplyTokens(NO_OPTIONS, Route, tokens)
  {
    ApplyTokensSnoc(NO_OPTIONS, Route, tokens, key + "=" + value);
    VendorToken(ApplyTokens(NO_OPTIONS, Route, tokens), key, value);
    StrSepNone(value, {'='});
  }

  /** The recognizer header that asks the recognizer to buffer the utterance for the verifier. */
  const BUFFER_UTTERANCE := SetHeader(RecogHfs, "Ver-Buffer-Utterance")

  /**
   * `mrcprecogverif_options_parse`: nothing without an option string (0);
   * otherwise the quoted splitting and each token applied in turn; -1,
   * with the options as collected, unless Verification-Mode,
   * Repository-URI and Voiceprint-Identifier are set; on success the
   * recognizer header Ver-Buffer-Utterance is forced to "true". The
   * application goes on whatever the status.
   */
  method ParseOptions(str: Option<string>) returns (o: Options, status: int)
    ensures str.None? ==> o.State() == NO_OPTIONS && status == 0
    ensures str.Some? ==> var parsed := ApplyTokens(NO_OPTIONS, Route, QuotedTokens(str.value));
      (status == 0 <==> HasVerifSessionHeaders(parsed)) && (status == 0 || status == -1) &&
      o.State() == (if status == 0 then Act(parsed, BUFFER_UTTERANCE, "true") else parsed)
  {
    o := new Options();
    status := 0;
    if str.Some? {
      o.ParseQuoted(str.value, Route);
      if (VerifSessionHfs, "Verification-Mode") !in o.hfs {
        return o, -1;
      }
      if (VerifSessionHfs, "Repository-URI") !in o.hfs {
        return o, -1;
      }
      if (VerifSessionHfs, "Voiceprint-Identifier") !in o.hfs {
        return o, -1;
      }
      o.ApplyOption([BUFFER_UTTERANCE], "true");
      assert [BUFFER_UTTERANCE][..0] == [];
    }
  }

  /**
   * No key fills the verifier table or sets Ver-Buffer-Utterance (`vbu`
   * sets Verify-Buffer-Utterance).
   */
  lemma RouteNeverBuffers(key: string)
    ensures forall a :: a in Route(key) ==>
      a != BUFFER_UTTERANCE && !(a.SetHeader? && a.table == VerifHfs) && !(a.SetVendor? && a.vendor == RecogHfs)
  {
    NoKeyBuffers();
  }

  lemma NoKeyBuffers()
    ensures "Ver-Buffer-Utterance" !in RECOG_KEYS.Values
  {
  }

  /** Actions that cannot name the header leave it absent. */
  lemma {:induction false} ActsKeepAbsent(st: OptState, actions: seq<Action>, value: string)
    requires (RecogHfs, "Ver-Buffer-Utterance") !in st.hfs
    requires forall i :: 0 <= i < |actions| ==>
      actions[i] != BUFFER_UTTERANCE && !(actions[i].SetVendor? && actions[i].vendor == RecogHfs)
    ensures (RecogHfs, "Ver-Buffer-Utterance") !in Acts(st, actions, value).hfs
    decreases |actions|
  {
    if actions != [] {
      ActsKeepAbsent(st, actions[..|actions| - 1], value);
    }
  }

  /** No option can set Ver-Buffer-Utterance: before the forced "true" it is absent. */
  lemma {:induction false} BufferUtteranceOnlyForced(st: OptState, tokens: seq<string>)
    requires (RecogHfs, "Ver-Buffer-Utterance") !in st.hfs
    ensures (RecogHfs, "Ver-Buffer-Utterance") !in ApplyTokens(st, Route, tokens).hfs
    decreases |tokens|
  {
    if tokens != [] {
      var (name, value) := StrSep(tokens[0], {'='});
      if value.Some? {
        RouteNeverBuffers(name);
        ActsKeepAbsent(st, Route(name), value.value);
      }
      BufferUtteranceOnlyForced(ApplyToken(st, Route, tokens[0]), tokens[1..]);
    }
  }

  /** A non-empty `dse` names the session's datastore entry, unless a later `dse` replaces it. */
  lemma EntryOption(tokens: seq<string>, key: string, value: string)
    requires EqualsIgnoreCase(key, "dse") && |value| > 0
    ensures AppDatastore.SessionLifetime(ApplyTokens(NO_OPTIONS, Route, tokens + [key + "=" + value])).0 == value
  {
    EntryRoute(key);
    NoEqualsInKey(key, "dse");
    LaterTokenWins(NO_OPTIONS, Route, tokens, key, value);
    assert SetFlag(DatastoreEntry) in Route(key);
  }

  // ---------------------------------------------------------------------------
  // Buffer handling and results

  /** The buffer-handling option as `verif_channel_start` reads it: the raw parameter once `bufh` is set. */
  function BufferHandling(st: OptState): Option<string> {
    if BufHnd in st.flags && BufHnd in st.params then Some(st.params[BufHnd]) else None
  }

  /** `has_result`: no buffer handling, or one that begins with "verify". */
  predicate HasResult(st: OptState) {
    BufferHandling(st).None? || StartsWith(BufferHandling(st).value, "verify")
  }

  /**
   * `has_result` against the request `verif_channel_start` sends: a result
   * is expected after VERIFY-FROM-BUFFER and after VERIFY without buffer
   * handling, never after CLEAR-BUFFER or VERIFY-ROLLBACK; but a
   * buffer-handling value that names no operation sends a plain VERIFY and
   * still reads only the completion cause.
   */
  lemma HasResultAgainstRequest(st: OptState)
    ensures var (req, isBuffer) := VerifRequestFor(BufferHandling(st));
      (HasResult(st) <==> req == SendVerifyFromBuffer || BufferHandling(st).None?) &&
      (HasResult(st) ==> !isBuffer) &&
      (BufferHandling(st).Some? && req == SendVerify ==> !HasResult(st))
  {
  }

  /**
   * The verification results the application reads: with `has_result`,
   * `channel_get_results` on the verifier channel (cause, result and URI;
   * its record is dereferenced unchecked); otherwise only
   * `channel_get_completion_cause`, whose failure ends the application in
   * ERROR (`ok` false). Both write into the variables the recognition
   * phase filled (`recogCause`, `recogResult`: what they hold then, None
   * when never set), and only what the verifier has: a cause that is not
   * negative, a result that is not empty. So VERIF_COMPLETION_CAUSE
   * (`causeVar`, set only when Some) and VERIF_RESULT fall back to the
   * recognition's values, and VERIF_RESULT is "" when neither has one.
   */
  method FetchVerifResult(ch: SpeechChannel, st: OptState, recogCause: Option<string>, recogResult: Option<string>)
    returns (ok: bool, causeVar: Option<string>, resultVar: string)
    requires HasResult(st) ==> ch.data != null
    modifies ch.data
    ensures HasResult(st) ==>
      var got := TakeResults(old(ch.data.Record()), true, true, true);
      ok && causeVar == (if got.1.Some? then got.1 else recogCause) &&
      resultVar == (if got.2.Some? then got.2.value else if recogResult.Some? then recogResult.value else "") &&
      ch.data.Record() == got.4
    ensures !HasResult(st) && ch.data == null ==> !ok
    ensures !HasResult(st) && ch.data != null ==>
      var got := TakeCompletionCause(old(ch.data.Record()), true);
      (ok <==> got.0 == 0) &&
      (ok ==> causeVar == got.1 && resultVar == (if recogResult.Some? then recogResult.value else "") &&
              ch.data.Record() == got.2)
  {
    var cause, result := recogCause, recogResult;
    if HasResult(st) {
      var status, c, r, uri := ChannelGetResults(ch, true, true, true);
      if c.Some? {
        cause := c;
      }
      if r.Some? {
        result := r;
      }
      ok := status == 0;
    } else {
      var status, c := ChannelGetCompletionCause(ch, true);
      if status != 0 {
        return false, None, "";
      }
      if c.Some? {
        cause := c;
      }
      ok := true;
    }
    causeVar := cause;
    resultVar := if result.Some? then result.value else "";
  }

  // ---------------------------------------------------------------------------
  // Exit

  /**
   * `mrcprecog_exit` of MRCPRecogVerif: always 0. RECOG_SID and VERIF_SID
   * get the session ids of the two channels, and both channels are
   * released only when the session is dynamic.
   */
  method Exit(s: AppDatastore.AppSession?, status: AppStatus)
    returns (code: int, recogSid: Option<string>, verifSid: Option<string>)
    modifies s
    ensures code == 0
    ensures s == null ==> recogSid == None && verifSid == None
    ensures s != null ==>
      recogSid == (if old(s.recogChannel) != null then old(s.recogChannel.sessionId) else None) &&
      verifSid == (if old(s.verifChannel) != null then old(s.verifChannel.sessionId) else None) &&
      s.recogChannel == (if s.lifetime == AppDatastore.Dynamic then null else old(s.recogChannel)) &&
      s.verifChannel == (if s.lifetime == AppDatastore.Dynamic then null else old(s.verifChannel)) &&
      s.lifetime == old(s.lifetime) && s.prompts == old(s.prompts) && s.curPrompt == old(s.curPrompt) &&
      s.synthChannel == old(s.synthChannel)
  {
    recogSid, verifSid := None, None;
    if s != null {
      if s.recogChannel != null {
        recogSid := s.recogChannel.sessionId;
        if s.lifetime == AppDatastore.Dynamic {
          s.recogChannel := null;
        }
      }
      if s.verifChannel != null {
        verifSid := s.verifChannel.sessionId;
        if s.lifetime == AppDatastore.Dynamic {
          s.verifChannel := null;
        }
      }
    }
    code := 0;
  }
}
