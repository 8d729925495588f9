// The Asterisk speech engine backed by UniMRCP
// (res-speech-unimrcp/res_speech_unimrcp.c): speech-object numbering,
// grammar loading, the set of active grammars, the RECOGNIZE body, the
// in-progress flag and the handling of responses and events.

module ResSpeech {
  import opened Text
  import Dispatcher

  // ---------------------------------------------------------------------------
  // Speech-object numbering

  const UINT16_MAX: nat := 65535

  /** The index after `i`: one more, wrapping from APR_UINT16_MAX to 0. */
  function NextSpeechIndex(i: nat): (r: nat)
    requires i <= UINT16_MAX
    ensures r <= UINT16_MAX
    ensures r == (i + 1) % 0x1_0000
  {
    if i == UINT16_MAX then 0 else i + 1
  }

  /** The index after `k` calls. */
  function SpeechIndexAfter(i: nat, k: nat): (r: nat)
    requires i <= UINT16_MAX
    ensures r <= UINT16_MAX
  {
    if k == 0 then i else NextSpeechIndex(SpeechIndexAfter(i, k - 1))
  }

  lemma {:induction false} ModSucc(x: nat)
    ensures (x + 1) % 0x1_0000 == (if x % 0x1_0000 == UINT16_MAX then 0 else x % 0x1_0000 + 1)
    decreases x
  {
    if x >= 0x1_0000 {
      ModSucc(x - 0x1_0000);
      assert (x + 1) % 0x1_0000 == (x - 0x1_0000 + 1) % 0x1_0000;
      assert x % 0x1_0000 == (x - 0x1_0000) % 0x1_0000;
    }
  }

  lemma ModSmall(x: nat)
    requires x < 2 * 0x1_0000
    ensures x % 0x1_0000 == (if x < 0x1_0000 then x else x - 0x1_0000)
  {
    if x >= 0x1_0000 {
      assert (x - 0x1_0000) % 0x1_0000 == x - 0x1_0000;
    }
  }

  /** After `k` calls the index has moved on by `k` modulo 2^16. */
  lemma {:induction false} SpeechIndexAfterIsSum(i: nat, k: nat)
    requires i <= UINT16_MAX
    ensures SpeechIndexAfter(i, k) == (i + k) % 0x1_0000
  {
    if k > 0 {
      var prev := SpeechIndexAfter(i, k - 1);
      SpeechIndexAfterIsSum(i, k - 1);
      var x: nat := i + k - 1;
      ModSucc(x);
      assert SpeechIndexAfter(i, k) == (if prev == UINT16_MAX then 0 else prev + 1);
    }
  }

  /**
   * The speech objects created by 65536 consecutive calls get distinct
   * numbers (and so distinct names "RSU-n"); the next one reuses the first.
   */
  lemma SpeechIdsDistinct(i: nat, a: nat, b: nat)
    requires i <= UINT16_MAX && a < b <= UINT16_MAX + 1
    ensures b <= UINT16_MAX ==> SpeechIndexAfter(i, a) != SpeechIndexAfter(i, b)
    ensures b == UINT16_MAX + 1 ==> SpeechIndexAfter(i, b) == i
  {
    SpeechIndexAfterIsSum(i, a);
    SpeechIndexAfterIsSum(i, b);
    ModSmall(i + a);
    ModSmall(i + b);
  }

  /** `uni_engine_t`: the engine's current speech index. */
  class Engine {
    var currentSpeechIndex: nat

    predicate Valid()
      reads this
    {
      currentSpeechIndex <= UINT16_MAX
    }

    constructor ()
      ensures Valid() && currentSpeechIndex == 0
    {
      currentSpeechIndex := 0;
    }

    /** `uni_speech_id_get`: the current index, which then moves on. */
    method SpeechIdGet() returns (id: nat)
      requires Valid()
      modifies this
      ensures Valid()
      ensures id == old(currentSpeechIndex) && currentSpeechIndex == NextSpeechIndex(id)
    {
      id := currentSpeechIndex;
      if currentSpeechIndex == UINT16_MAX {
        currentSpeechIndex := 0;
      } else {
        currentSpeechIndex := currentSpeechIndex + 1;
      }
    }
  }

  // ---------------------------------------------------------------------------
  // Loading a grammar

  /**
   * Where a grammar's content comes from: given inline (the message body)
   * with its content type, or read from a file, with the content type
   * given before the colon or, without one, detected from the content.
   */
  datatype GrammarSource = Inline(contentType: string, body: string) | FromFile(declaredType: Option<string>, path: string)

  const URI_LIST := "text/uri-list"

  /**
   * The grammar path of `uni_recog_load_grammar`: with a ':' in it, a path
   * beginning "builtin" is sent whole as a URI list, one beginning "uri"
   * sends what follows the first colon, and any other names its content
   * type before the colon and its file after it; without a colon it is a
   * file whose type is detected.
   */
  function ParseGrammarPath(path: string): (r: GrammarSource)
    ensures ':' !in path ==> r == FromFile(None, path)
    ensures ':' in path && StartsWith(path, "builtin") ==> r == Inline(URI_LIST, path)
  {
    var (before, after) := StrSep(path, {':'});
    if after.None? then
      StrSepSplitsAtFirst(path);
      FromFile(None, path)
    else if StartsWith(path, "builtin") then Inline(URI_LIST, path)
    else if StartsWith(path, "uri") then Inline(URI_LIST, after.value)
    else FromFile(Some(before), after.value)
  }

  /** `strchr(path, ':')` finds a colon exactly when `strsep` splits. */
  lemma StrSepSplitsAtFirst(path: string)
    ensures StrSep(path, {':'}).1.None? <==> ':' !in path
  {
    var (before, after) := StrSep(path, {':'});
    if after.Some? {
      assert path[|before|] == ':';
    } else {
      assert path == before;
      assert forall i :: 0 <= i < |path| ==> path[i] != ':';
    }
  }

  /** A word without a colon that starts `t:p` already starts `t`. */
  lemma ColonPrefix(t: string, p: string, w: string)
    requires ':' !in t && ':' !in w
    ensures StartsWith(t + ":" + p, w) ==> StartsWith(t, w)
  {
    var s := t + ":" + p;
    if |t| >= |w| {
      assert s[..|w|] == t[..|w|];
    } else {
      assert s[|t|] == ':';
    }
  }

  /**
   * `type:path` round-trips: a type without a colon that begins with
   * neither "builtin" nor "uri" comes back as the content type, with the
   * rest (colons and all) as the file path; `uri:x` sends `x` inline.
   */
  lemma GrammarPathRoundTrip(t: string, p: string)
    requires ':' !in t
    ensures !StartsWith(t, "builtin") && !StartsWith(t, "uri") ==> ParseGrammarPath(t + ":" + p) == FromFile(Some(t), p)
    ensures ParseGrammarPath("uri:" + p) == Inline(URI_LIST, p)
    ensures ParseGrammarPath("builtin:" + p) == Inline(URI_LIST, "builtin:" + p)
  {
    assert forall i :: 0 <= i < |t| ==> t[i] !in {':'};
    assert t + ":" + p == t + [':'] + p;
    StrSepAt(t, ':', {':'}, p);
    ColonPrefix(t, p, "builtin");
    ColonPrefix(t, p, "uri");
    assert "uri:" + p == "uri" + [':'] + p;
    StrSepAt("uri", ':', {':'}, p);
    assert "uri" <= "uri:" + p;
    assert !StartsWith("uri:" + p, "builtin");
    assert "builtin:" + p == "builtin" + [':'] + p;
    StrSepAt("builtin", ':', {':'}, p);
    assert "builtin" <= "builtin:" + p;
    assert ("builtin:" + p)[7] == ':';
  }

  /** Without an explicit type: JSGF when "#JSGF" occurs, else ABNF when "#ABNF" occurs, else SRGS XML. */
  function DetectContentType(body: string): (r: string)
    ensures r in {"application/x-jsgf", "application/srgs", "application/srgs+xml"}
    ensures r == "application/x-jsgf" <==> Contains(body, "#JSGF")
    ensures r == "application/srgs" <==> !Contains(body, "#JSGF") && Contains(body, "#ABNF")
    ensures !Contains(body, "#JSGF") && !Contains(body, "#ABNF") ==> r == "application/srgs+xml"
  {
    if Contains(body, "#JSGF") then "application/x-jsgf"
    else if Contains(body, "#ABNF") then "application/srgs"
    else "application/srgs+xml"
  }

  /** The markers are found anywhere in the body; "#JSGF" wins over "#ABNF". */
  lemma DetectContentTypeFindsMarkers(before: string, after: string)
    ensures DetectContentType(before + "#JSGF" + after) == "application/x-jsgf"
    ensures !Contains(before + "#ABNF" + after, "#JSGF") ==>
      DetectContentType(before + "#ABNF" + after) == "application/srgs"
  {
    ContainsAt(before + "#JSGF" + after, "#JSGF", |before|);
    ContainsAt(before + "#ABNF" + after, "#ABNF", |before|);
  }

  /**
   * The DEFINE-GRAMMAR request `uni_recog_load_grammar` sends, as content
   * type and body: inline content as given; a file's content as read
   * (`file`, None when it cannot be opened or sized); no request at all
   * without content.
   */
  function GrammarRequest(path: string, file: Option<string>): (r: Option<(string, string)>)
    ensures ParseGrammarPath(path).Inline? ==>
      r == Some((ParseGrammarPath(path).contentType, ParseGrammarPath(path).body))
    ensures ParseGrammarPath(path).FromFile? ==> (r.Some? <==> file.Some?)
    ensures ParseGrammarPath(path).FromFile? && file.Some? ==>
      r.value.1 == file.value &&
      r.value.0 == (if ParseGrammarPath(path).declaredType.Some? then ParseGrammarPath(path).declaredType.value
                    else DetectContentType(file.value))
  {
    match ParseGrammarPath(path)
    case Inline(ct, body) => Some((ct, body))
    case FromFile(ct, _) =>
      if file.None? then None
      else Some((if ct.Some? then ct.value else DetectContentType(file.value), file.value))
  }

  // ---------------------------------------------------------------------------
  // The RECOGNIZE body

  /** The reference to a loaded grammar. */
  function SessionRef(name: string): string {
    "session:" + name
  }

  function SessionRefs(names: seq<string>): (r: seq<string>)
    ensures |r| == |names| && forall i :: 0 <= i < |names| ==> r[i] == SessionRef(names[i])
  {
    if names == [] then [] else SessionRefs(names[..|names| - 1]) + [SessionRef(names[|names| - 1])]
  }

  /** The strings with "\n" between each two of them. */
  function JoinLf(xs: seq<string>): string
    requires xs != []
  {
    if |xs| == 1 then xs[0] else JoinLf(xs[..|xs| - 1]) + "\n" + xs[|xs| - 1]
  }

  /** The same join, split off at the front. */
  lemma {:induction false} JoinLfFront(xs: seq<string>)
    requires |xs| >= 2
    ensures JoinLf(xs) == xs[0] + "\n" + JoinLf(xs[1..])
    decreases |xs|
  {
    if |xs| > 2 {
      var init := xs[..|xs| - 1];
      JoinLfFront(init);
      assert init[1..] == xs[1..][..|xs[1..]| - 1];
      assert init[0] == xs[0];
    } else {
      assert xs[1..] == [xs[1]];
      assert xs[..1] == [xs[0]];
    }
  }

  /** The pieces of a string between its '\n' characters, in order. */
  function SplitLines(s: string): (r: seq<string>)
    ensures r != []
    decreases |s|
  {
    var (line, rest) := StrSep(s, {'\n'});
    if rest.None? then [line] else [line] + SplitLines(rest.value)
  }

  /** Splitting the join gives back the strings, when none holds a '\n'. */
  lemma {:induction false} SplitJoinLf(xs: seq<string>)
    requires xs != [] && forall i, j :: 0 <= i < |xs| && 0 <= j < |xs[i]| ==> xs[i][j] != '\n'
    ensures SplitLines(JoinLf(xs)) == xs
    decreases |xs|
  {
    assert forall j :: 0 <= j < |xs[0]| ==> xs[0][j] !in {'\n'};
    if |xs| == 1 {
      StrSepNone(xs[0], {'\n'});
    } else {
      JoinLfFront(xs);
      assert xs[0] + "\n" + JoinLf(xs[1..]) == xs[0] + ['\n'] + JoinLf(xs[1..]);
      StrSepAt(xs[0], '\n', {'\n'}, JoinLf(xs[1..]));
      SplitJoinLf(xs[1..]);
    }
  }

  /** The body of RECOGNIZE for the active grammars in the order given: none when there is none. */
  function RecognizeBody(names: seq<string>): (r: Option<string>)
    ensures r.None? <==> names == []
  {
    if names == [] then None else Some(JoinLf(SessionRefs(names)))
  }

  /** Distinct grammar names give distinct references. */
  lemma SessionRefInjective(a: string, b: string)
    ensures SessionRef(a) == SessionRef(b) ==> a == b
  {
    assert SessionRef(a)[8..] == a && SessionRef(b)[8..] == b;
  }

  lemma SessionRefsNoLf(names: seq<string>)
    requires forall i, j :: 0 <= i < |names| && 0 <= j < |names[i]| ==> names[i][j] != '\n'
    ensures forall i, j :: 0 <= i < |names| && 0 <= j < |SessionRefs(names)[i]| ==> SessionRefs(names)[i][j] != '\n'
  {
    var refs := SessionRefs(names);
    forall i, j | 0 <= i < |names| && 0 <= j < |refs[i]|
      ensures refs[i][j] != '\n'
    {
      if j >= 8 {
        assert refs[i][j] == names[i][j - 8];
      }
    }
  }

  /**
   * The body lists every active grammar once, as "session:<name>", one per
   * line, whatever the order the table hands them out in.
   */
  lemma RecognizeBodyLists(names: seq<string>)
    requires names != [] && forall i, j :: 0 <= i < |names| && 0 <= j < |names[i]| ==> names[i][j] != '\n'
    ensures SplitLines(RecognizeBody(names).value) == SessionRefs(names)
    ensures forall g :: g in names <==> SessionRef(g) in SplitLines(RecognizeBody(names).value)
  {
    var refs := SessionRefs(names);
    SessionRefsNoLf(names);
    SplitJoinLf(refs);
    forall g
      ensures g in names <==> SessionRef(g) in refs
    {
      if SessionRef(g) in refs {
        var i :| 0 <= i < |refs| && refs[i] == SessionRef(g);
        SessionRefInjective(g, names[i]);
      }
      if g in names {
        var i :| 0 <= i < |names| && names[i] == g;
        assert refs[i] == SessionRef(g);
      }
    }
  }

  /**
   * The loop of `uni_recog_start` over the active-grammar table: the first
   * grammar opens the body, each later one appends "\nsession:<name>".
   */
  method BuildRecognizeBody(names: seq<string>) returns (content: Option<string>)
    ensures content == RecognizeBody(names)
  {
    content := None;
    if names == [] {
      return;
    }
    content := Some(SessionRef(names[0]));
    var k := 1;
    while k < |names|
      invariant 1 <= k <= |names|
      invariant content == Some(JoinLf(SessionRefs(names[..k])))
    {
      assert names[..k + 1][..k] == names[..k];
      content := Some(content.value + "\n" + SessionRef(names[k]));
      k := k + 1;
    }
    assert names[..k] == names;
  }

  // ---------------------------------------------------------------------------
  // Requests, responses and events

  /** MRCP status codes 200 and 201 (section 5.4 of RFC 6787). */
  const MRCP_STATUS_CODE_SUCCESS := 200
  const MRCP_STATUS_CODE_SUCCESS_WITH_IGNORE := 201
  /** The recognizer's Completion-Cause "success" (section 9.4.11 of RFC 6787). */
  const RECOGNIZER_COMPLETION_CAUSE_SUCCESS := 0

  /**
   * The verdict of `uni_recog_mrcp_request_send`: the request was sent and
   * a response arrived before the timeout (`arrived`, its status code)
   * with status 200 or 201.
   */
  function RequestSucceeded(sent: bool, arrived: Option<int>): (r: bool)
    ensures r ==> sent && arrived.Some? && Dispatcher.Success(arrived.value)
  {
    sent && arrived.Some? &&
    (arrived.value == MRCP_STATUS_CODE_SUCCESS || arrived.value == MRCP_STATUS_CODE_SUCCESS_WITH_IGNORE)
  }

  /** Stricter than the applications' 2xx: a 202 response fails here. */
  lemma StricterThanSuccess()
    ensures Dispatcher.Success(202) && !RequestSucceeded(true, Some(202))
    ensures forall code :: RequestSucceeded(true, Some(code)) <==> code == 200 || code == 201
  {
  }

  /** What one request exchange did: the message was created, sent, and which response arrived. */
  datatype Exchange = Exchange(created: bool, sent: bool, arrived: Option<int>)

  /** The states of an Asterisk speech object. */
  datatype SpeechState = NotReady | Ready | Wait | Done

  /** A RECOGNITION-COMPLETE event: whether it carries a Completion-Cause, the cause, and its body. */
  datatype RecogEvent = RecogEvent(causePresent: bool, cause: int, body: string)

  /** What the engine receives on its channel. */
  datatype Incoming = ResponseIn(statusCode: int) | RecognitionCompleteIn(event: RecogEvent) | StartOfInputIn | OtherEventIn

  /** The session-management commands. */
  datatype SigCommand = SessionUpdate | SessionTerminate | ChannelAdd | ChannelRemove | ResourceDiscover

  /**
   * What `uni_recog_get` hands to the NLSML result builder: the body of a
   * stored event that carries Completion-Cause success; nothing otherwise.
   */
  function EventResult(e: Option<RecogEvent>): (r: Option<string>)
    ensures r.Some? <==> e.Some? && e.value.causePresent && e.value.cause == RECOGNIZER_COMPLETION_CAUSE_SUCCESS
    ensures r.Some? ==> r.value == e.value.body
  {
    if e.None? || !e.value.causePresent || e.value.cause != RECOGNIZER_COMPLETION_CAUSE_SUCCESS then None
    else Some(e.value.body)
  }

  /** The event `on_message_receive` keeps: none once the speech object is NOT_READY. */
  function StoredEvent(state: SpeechState, e: RecogEvent): Option<RecogEvent> {
    if state != NotReady then Some(e) else None
  }

  /**
   * A RECOGNITION-COMPLETE yields a result exactly when it arrives while
   * the speech object is not NOT_READY and it reports success.
   */
  lemma CompletionYieldsResult(state: SpeechState, e: RecogEvent)
    ensures EventResult(StoredEvent(state, e)).Some? <==>
      state != NotReady && e.causePresent && e.cause == RECOGNIZER_COMPLETION_CAUSE_SUCCESS
  {
  }

  /**
   * What `uni_recog_stop` leaves of the state, the in-progress flag and the
   * stored event, given whether recognition was in progress and how the
   * STOP exchange `x` went: only a successful STOP ends the recognition and
   * makes the speech object NOT_READY, and the event is dropped once the
   * message exists.
   */
  predicate StoppedAs(wasInprogress: bool, state0: SpeechState, event0: Option<RecogEvent>, x: Exchange,
                      state: SpeechState, inprogress: bool, event: Option<RecogEvent>)
  {
    if !wasInprogress then state == state0 && !inprogress && event == event0
    else if x.created && RequestSucceeded(x.sent, x.arrived) then state == NotReady && !inprogress && event == None
    else state == state0 && inprogress && event == (if x.created then None else event0)
  }

  /** The response recorded after `uni_recog_stop`: STOP's, when it was sent. */
  function StopResponse(wasInprogress: bool, x: Exchange, response0: Option<int>): Option<int> {
    if wasInprogress && x.created && x.sent then x.arrived else response0
  }

  /** `uni_speech_t`: the engine-side state of one Asterisk speech object. */
  class Speech {
    var activeGrammars: set<string>
    var isInprogress: bool
    var state: SpeechState
    var quiet: bool
    var smRequest: SigCommand
    var smResponse: int
    var requestOutstanding: bool
    var mrcpResponse: Option<int>
    var mrcpEvent: Option<RecogEvent>
    var results: Option<string>

    /** The fields `uni_recog_create_internal` starts with. */
    constructor ()
      ensures activeGrammars == {} && !isInprogress && state == NotReady && !quiet
      ensures !requestOutstanding && mrcpResponse == None && mrcpEvent == None && results == None
    {
      activeGrammars := {};
      isInprogress := false;
      state := NotReady;
      quiet := false;
      smRequest := SessionUpdate;
      smResponse := 0;
      requestOutstanding := false;
      mrcpResponse := None;
      mrcpEvent := None;
      results := None;
    }

    /**
     * `uni_recog_mrcp_request_send`: the request is outstanding while the
     * response is awaited; the response that arrived (None on timeout) is
     * recorded, and the request succeeds only with status 200 or 201.
     */
    method MrcpRequestSend(sent: bool, arrived: Option<int>) returns (res: bool)
      modifies this`requestOutstanding, this`mrcpResponse
      ensures res == RequestSucceeded(sent, arrived)
      ensures !requestOutstanding
      ensures mrcpResponse == (if sent then arrived else old(mrcpResponse))
    {
      requestOutstanding := true;
      res := sent;
      if sent {
        mrcpResponse := arrived;
        if mrcpResponse.Some? {
          if mrcpResponse.value != MRCP_STATUS_CODE_SUCCESS && mrcpResponse.value != MRCP_STATUS_CODE_SUCCESS_WITH_IGNORE {
            res := false;
          }
        } else {
          res := false;
        }
      }
      requestOutstanding := false;
    }

    /**
     * `uni_recog_stop`: nothing to do (0) unless recognition is in
     * progress; otherwise STOP is sent and only its success ends the
     * recognition and makes the speech object NOT_READY. The stored event
     * is dropped once the message exists.
     */
    method Stop(x: Exchange) returns (status: int)
      modifies this
      ensures !old(isInprogress) ==> status == 0
      ensures old(isInprogress) ==>
        (status == 0 <==> x.created && RequestSucceeded(x.sent, x.arrived)) && (status == 0 || status == -1)
      ensures StoppedAs(old(isInprogress), old(state), old(mrcpEvent), x, state, isInprogress, mrcpEvent)
      ensures mrcpResponse == StopResponse(old(isInprogress), x, old(mrcpResponse))
      ensures activeGrammars == old(activeGrammars) && quiet == old(quiet) && results == old(results)
      ensures smRequest == old(smRequest) && smResponse == old(smResponse)
      ensures requestOutstanding == (old(requestOutstanding) && !(old(isInprogress) && x.created))
    {
      if !isInprogress {
        return 0;
      }
      if !x.created {
        return -1;
      }
      mrcpEvent := None;
      var ok := MrcpRequestSend(x.sent, x.arrived);
      if !ok {
        return -1;
      }
      state := NotReady;
      isInprogress := false;
      status := 0;
    }

    /** The step `if (is_inprogress) uni_recog_stop(...)` that precedes deactivation, unloading, a new start and reading results. */
    method StopIfInProgress(stop: Exchange)
      modifies this
      ensures StoppedAs(old(isInprogress), old(state), old(mrcpEvent), stop, state, isInprogress, mrcpEvent)
      ensures mrcpResponse == StopResponse(old(isInprogress), stop, old(mrcpResponse))
      ensures requestOutstanding == (old(requestOutstanding) && !(old(isInprogress) && stop.created))
      ensures activeGrammars == old(activeGrammars) && quiet == old(quiet) && results == old(results)
      ensures smRequest == old(smRequest) && smResponse == old(smResponse)
    {
      if isInprogress {
        var _ := Stop(stop);
      }
    }

    /** `uni_recog_activate_grammar`: the name joins the active set. */
    method ActivateGrammar(name: string) returns (status: int)
      modifies this`activeGrammars
      ensures status == 0 && activeGrammars == old(activeGrammars) + {name}
    {
      activeGrammars := activeGrammars + {name};
      status := 0;
    }

    /** `uni_recog_deactivate_grammar`: any recognition in progress is stopped first, then the name leaves the active set. */
    method DeactivateGrammar(name: string, stop: Exchange) returns (status: int)
      modifies this
      ensures status == 0 && activeGrammars == old(activeGrammars) - {name}
      ensures StoppedAs(old(isInprogress), old(state), old(mrcpEvent), stop, state, isInprogress, mrcpEvent)
      ensures mrcpResponse == StopResponse(old(isInprogress), stop, old(mrcpResponse))
      ensures quiet == old(quiet) && results == old(results)
      ensures smRequest == old(smRequest) && smResponse == old(smResponse)
      ensures requestOutstanding == (old(requestOutstanding) && !(old(isInprogress) && stop.created))
    {
      StopIfInProgress(stop);
      activeGrammars := activeGrammars - {name};
      status := 0;
    }

    /**
     * `uni_recog_unload_grammar`: as deactivation (a recognition in progress
     * is stopped first), then DEFINE-GRAMMAR with only the Content-Id is
     * sent; 0 only when it succeeds.
     */
    method UnloadGrammar(name: string, stop: Exchange, x: Exchange) returns (status: int)
      modifies this
      ensures activeGrammars == old(activeGrammars) - {name}
      ensures status == 0 <==> x.created && RequestSucceeded(x.sent, x.arrived)
      ensures status == 0 || status == -1
      ensures StoppedAs(old(isInprogress), old(state), old(mrcpEvent), stop, state, isInprogress, mrcpEvent)
      ensures mrcpResponse ==
        if x.created && x.sent then x.arrived else StopResponse(old(isInprogress), stop, old(mrcpResponse))
      ensures quiet == old(quiet) && results == old(results)
      ensures smRequest == old(smRequest) && smResponse == old(smResponse)
      ensures requestOutstanding == (old(requestOutstanding) && !(old(isInprogress) && stop.created) && !x.created)
    {
      StopIfInProgress(stop);
      activeGrammars := activeGrammars - {name};
      if !x.created {
        return -1;
      }
      var ok := MrcpRequestSend(x.sent, x.arrived);
      status := if ok then 0 else -1;
    }

    /**
     * `uni_recog_start`: a recognition in progress is stopped first; then
     * RECOGNIZE is sent with the body built from the active grammars
     * (`order` is the order the table hands them out in); only its success
     * makes the speech object READY with recognition in progress. The
     * stored event is dropped once the message exists.
     */
    method Start(stop: Exchange, x: Exchange, order: seq<string>) returns (status: int, body: Option<string>)
      requires |order| == |activeGrammars| && (set g | g in order) == activeGrammars
      modifies this
      ensures activeGrammars == old(activeGrammars)
      ensures !x.created ==> status == -1 && body == None
      ensures x.created ==>
        body == RecognizeBody(order) && mrcpEvent == None && (body.None? <==> activeGrammars == {})
      ensures status == 0 <==> x.created && RequestSucceeded(x.sent, x.arrived)
      ensures status == 0 ==> state == Ready && isInprogress
      ensures status == 0 || status == -1
      ensures !x.created ==>
        StoppedAs(old(isInprogress), old(state), old(mrcpEvent), stop, state, isInprogress, mrcpEvent)
      ensures x.created && status != 0 ==>
        exists ev :: StoppedAs(old(isInprogress), old(state), old(mrcpEvent), stop, state, isInprogress, ev)
      ensures mrcpResponse ==
        if x.created && x.sent then x.arrived else StopResponse(old(isInprogress), stop, old(mrcpResponse))
      ensures requestOutstanding == (old(requestOutstanding) && !(old(isInprogress) && stop.created) && !x.created)
      ensures quiet == old(quiet) && results == old(results)
      ensures smRequest == old(smRequest) && smResponse == old(smResponse)
    {
      StopIfInProgress(stop);
      ghost var stopped := mrcpEvent;
      status, body := SendRecognize(x, order);
      if x.created && status != 0 {
        assert StoppedAs(old(isInprogress), old(state), old(mrcpEvent), stop, state, isInprogress, stopped);
      }
    }

    /**
     * The RECOGNIZE step of `uni_recog_start`, once any recognition in
     * progress has been stopped: nothing changes unless the message exists;
     * then the stored event is dropped, and only a successful request makes
     * the object READY with recognition in progress.
     */
    method SendRecognize(x: Exchange, order: seq<string>) returns (status: int, body: Option<string>)
      requires |order| == |activeGrammars| && (set g | g in order) == activeGrammars
      modifies this
      ensures !x.created ==> status == -1 && body == None && mrcpEvent == old(mrcpEvent)
      ensures !x.created ==> mrcpResponse == old(mrcpResponse) && requestOutstanding == old(requestOutstanding)
      ensures x.created ==>
        body == RecognizeBody(order) && mrcpEvent == None && (body.None? <==> activeGrammars == {})
      ensures x.created ==>
        mrcpResponse == (if x.sent then x.arrived else old(mrcpResponse)) && !requestOutstanding
      ensures status == 0 <==> x.created && RequestSucceeded(x.sent, x.arrived)
      ensures status == 0 ==> state == Ready && isInprogress
      ensures status != 0 ==> status == -1 && state == old(state) && isInprogress == old(isInprogress)
      ensures activeGrammars == old(activeGrammars) && quiet == old(quiet) && results == old(results)
      ensures smRequest == old(smRequest) && smResponse == old(smResponse)
    {
      if !x.created {
        return -1, None;
      }
      body := BuildRecognizeBody(order);
      assert order == [] <==> activeGrammars == {} by {
        if order != [] {
          assert order[0] in activeGrammars;
        }
      }
      mrcpEvent := None;
      var ok := MrcpRequestSend(x.sent, x.arrived);
      if !ok {
        return -1, body;
      }
      state := Ready;
      isInprogress := true;
      status := 0;
    }

    /**
     * `on_message_receive`: a response is recorded only while a request is
     * outstanding; RECOGNITION-COMPLETE ends the recognition and is kept
     * (the object becomes DONE) unless the object is NOT_READY, where it
     * is dropped; START-OF-INPUT marks the object quiet.
     */
    method OnMessageReceive(m: Incoming) returns (handled: bool)
      modifies this
      ensures handled
      ensures activeGrammars == old(activeGrammars) && requestOutstanding == old(requestOutstanding)
      ensures m.ResponseIn? ==>
        mrcpResponse == (if old(requestOutstanding) then Some(m.statusCode) else old(mrcpResponse)) &&
        isInprogress == old(isInprogress) && state == old(state) && mrcpEvent == old(mrcpEvent)
      ensures m.RecognitionCompleteIn? ==>
        !isInprogress && mrcpEvent == StoredEvent(old(state), m.event) &&
        state == (if old(state) != NotReady then Done else NotReady)
      ensures m.StartOfInputIn? ==> quiet && isInprogress == old(isInprogress) && state == old(state) && mrcpEvent == old(mrcpEvent)
      ensures m.OtherEventIn? ==> isInprogress == old(isInprogress) && state == old(state) && mrcpEvent == old(mrcpEvent)
    {
      match m {
        case ResponseIn(code) =>
          if requestOutstanding {
            mrcpResponse := Some(code);
          }
        case RecognitionCompleteIn(e) =>
          isInprogress := false;
          if state != NotReady {
            mrcpEvent := Some(e);
            state := Done;
          } else {
            mrcpEvent := None;
            state := NotReady;
          }
        case StartOfInputIn =>
          quiet := true;
        case OtherEventIn =>
      }
      handled := true;
    }

    /** `uni_recog_sm_response_signal`: the status is recorded only for the request being awaited. */
    method SmResponseSignal(request: SigCommand, status: int) returns (handled: bool)
      modifies this`smResponse
      ensures handled
      ensures smResponse == (if request == smRequest then status else old(smResponse))
    {
      if smRequest == request {
        smResponse := status;
      }
      handled := true;
    }

    /**
     * `uni_recog_get`: a recognition in progress is stopped first; then
     * the stored event's body becomes the results only when it reports
     * success.
     */
    method Get(stop: Exchange) returns (r: Option<string>)
      modifies this
      ensures !old(isInprogress) ==> r == EventResult(old(mrcpEvent))
      ensures r == EventResult(mrcpEvent)
      ensures r.Some? ==> results == r
      ensures r.None? ==> results == old(results)
      ensures StoppedAs(old(isInprogress), old(state), old(mrcpEvent), stop, state, isInprogress, mrcpEvent)
      ensures mrcpResponse == StopResponse(old(isInprogress), stop, old(mrcpResponse))
      ensures requestOutstanding == (old(requestOutstanding) && !(old(isInprogress) && stop.created))
      ensures activeGrammars == old(activeGrammars) && quiet == old(quiet)
      ensures smRequest == old(smRequest) && smResponse == old(smResponse)
    {
      StopIfInProgress(stop);
      r := EventResult(mrcpEvent);
      if r.Some? {
        results := r;
      }
    }
  }
}
