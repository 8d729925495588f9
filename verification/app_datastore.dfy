// The application data store of app_datastore.c: the per-channel table of
// application sessions that MRCPRecog, MRCPVerif and MRCPRecogVerif share,
// and the RECOG_* dialplan functions that read the last NLSML result back.

module AppDatastore {
  import opened Text
  import opened Nlsml
  import AppOptions
  import Framework
  import SpeechChannel

  /** The entry used when the application is given no datastore entry. */
  const DEFAULT_DATASTORE_ENTRY: string := "_default"

  /** Whether the session's channels are destroyed after each request or kept with the Asterisk channel. */
  datatype Lifetime = Dynamic | Persistent

  /** How instance paths of RECOG_INSTANCE are resolved. */
  datatype InstanceFormat = Xml | Json

  // ---------------------------------------------------------------------------
  // Prompt cursor

  /**
   * The number of prompts still to play with `nelts` prompts and the
   * cursor at `cur`: none once the cursor has reached the end.
   */
  function PromptsRemaining(nelts: nat, cur: int): (r: nat)
    ensures r > 0 <==> cur < nelts
    ensures cur >= 0 && cur < nelts ==> cur + r == nelts
  {
    if cur >= nelts then 0 else nelts - cur
  }

  /** Advancing the cursor over a prompt leaves one fewer; from 0, `nelts` advances exhaust the list. */
  lemma {:induction false} PromptsCountDown(nelts: nat, cur: nat, k: nat)
    requires cur + k <= nelts
    ensures PromptsRemaining(nelts, cur + k) == PromptsRemaining(nelts, cur) - k
    ensures cur == 0 && k == nelts ==> PromptsRemaining(nelts, cur + k) == 0
  {
    if k > 0 {
      PromptsCountDown(nelts, cur, k - 1);
    }
  }

  /**
   * The datastore entry and session lifetime the options of MRCPVerif and
   * MRCPRecogVerif select (the same code in both applications): the
   * default entry and a dynamic session, unless a non-empty `dse` names the
   * entry and makes the session persistent; a non-empty `plt` then decides
   * alone (dynamic exactly when its number is 0).
   */
  function SessionLifetime(st: AppOptions.OptState): (r: (string, Lifetime))
    ensures var dse := AppOptions.Param(st, AppOptions.DatastoreEntry);
      r.0 == (if dse.Some? then dse.value else DEFAULT_DATASTORE_ENTRY)
    ensures var plt := AppOptions.Param(st, AppOptions.PersistentLifetime);
      (plt.Some? ==> (r.1 == Dynamic <==> Atoi(plt.value) == 0)) &&
      (plt.None? ==> (r.1 == Persistent <==> AppOptions.Param(st, AppOptions.DatastoreEntry).Some?))
  {
    var dse := AppOptions.Param(st, AppOptions.DatastoreEntry);
    var entry := if dse.Some? then dse.value else DEFAULT_DATASTORE_ENTRY;
    var lifetime := if dse.Some? then Persistent else Dynamic;
    var plt := AppOptions.Param(st, AppOptions.PersistentLifetime);
    if plt.None? then (entry, lifetime)
    else (entry, if Atoi(plt.value) == 0 then Dynamic else Persistent)
  }

  // ---------------------------------------------------------------------------
  // Sessions

  /** `app_session_t`: what a session keeps between the applications run on a channel. */
  class AppSession {
    var lifetime: Lifetime
    var schannelNumber: nat
    var recogChannel: SpeechChannel.SpeechChannel?
    var synthChannel: SpeechChannel.SpeechChannel?
    var verifChannel: SpeechChannel.SpeechChannel?
    var prompts: seq<string>
    var curPrompt: int
    var hasFilestream: bool
    var maxFilelength: int
    var itPolicy: int
    var nlsmlResult: Option<Result>
    var stopBargedSynth: bool
    var instanceFormat: InstanceFormat
    var replaceNewLines: char

    /** The fields a new session starts with, numbered `number`. */
    constructor (number: nat)
      ensures schannelNumber == number && lifetime == Dynamic
      ensures recogChannel == null && synthChannel == null && verifChannel == null
      ensures nlsmlResult == None && !stopBargedSynth && instanceFormat == Xml && replaceNewLines == NUL
      ensures prompts == [] && curPrompt == 0 && !hasFilestream && maxFilelength == 0 && itPolicy == 0
    {
      schannelNumber := number;
      lifetime := Dynamic;
      recogChannel, synthChannel, verifChannel := null, null, null;
      nlsmlResult := None;
      stopBargedSynth := false;
      instanceFormat := Xml;
      replaceNewLines := NUL;
      prompts, curPrompt := [], 0;
      hasFilestream, maxFilelength, itPolicy := false, 0, 0;
    }

    /** `mrcprecog_prompts_available` of app_recogverif.c (and its twin in app_mrcpverif.c). */
    function PromptsAvailable(): (r: nat)
      reads this
      ensures r > 0 <==> curPrompt < |prompts|
    {
      PromptsRemaining(|prompts|, curPrompt)
    }

    /**
     * `mrcprecog_prompts_advance`: -1 and no move once every prompt has been
     * played, else the cursor moves on and the number left is returned.
     */
    method PromptsAdvance() returns (r: int)
      modifies this`curPrompt
      ensures old(curPrompt) >= |prompts| ==> r == -1 && curPrompt == old(curPrompt)
      ensures old(curPrompt) < |prompts| ==> curPrompt == old(curPrompt) + 1 && r == PromptsAvailable()
    {
      if curPrompt >= |prompts| {
        return -1;
      }
      curPrompt := curPrompt + 1;
      r := |prompts| - curPrompt;
    }

    /** `mrcpverif_prompt_play` (and `mrcprecog_prompt_play`): the file to play next, none when out of bounds. */
    function PromptToPlay(): (r: Option<string>)
      reads this
      ensures r.Some? <==> 0 <= curPrompt < |prompts|
      ensures r.Some? ==> r.value == prompts[curPrompt]
    {
      if 0 <= curPrompt < |prompts| then Some(prompts[curPrompt]) else None
    }
  }

  /** `app_datastore_t`: the sessions of one Asterisk channel, by entry, and the entry recognised last. */
  class AppDatastore {
    const name: string
    var sessions: map<string, AppSession>
    var lastRecogEntry: Option<string>

    /** `app_datastore_get` on a channel without one: an empty table. */
    constructor (name: string)
      ensures this.name == name && sessions == map[] && lastRecogEntry == None
    {
      this.name := name;
      sessions := map[];
      lastRecogEntry := None;
    }
  }

  /**
   * `app_datastore_session_add`: nothing for a missing datastore or entry;
   * otherwise the session under the entry, made and inserted (numbered from
   * the global channel counter) if there was none. Either way its prompts,
   * cursor, file stream, file length limit and input-timer policy start over,
   * and nothing else about an existing session changes.
   */
  method SessionAdd(ds: AppDatastore?, entry: Option<string>, g: Framework.Globals) returns (s: AppSession?)
    requires g.Valid()
    modifies ds, g`speechChannelNumber
    modifies if ds != null && entry.Some? && entry.value in ds.sessions then {ds.sessions[entry.value]} else {}
    ensures g.Valid()
    ensures ds == null || entry.None? ==> s == null && g.speechChannelNumber == old(g.speechChannelNumber)
    ensures ds != null && entry.Some? ==>
      s != null && ds.sessions == old(ds.sessions)[entry.value := s] && ds.lastRecogEntry == old(ds.lastRecogEntry)
    ensures ds != null && entry.Some? ==>
      s.prompts == [] && s.curPrompt == 0 && !s.hasFilestream && s.maxFilelength == 0 && s.itPolicy == 0
    ensures ds != null && entry.Some? && entry.value in old(ds.sessions) ==>
      s == old(ds.sessions[entry.value]) && g.speechChannelNumber == old(g.speechChannelNumber) &&
      s.lifetime == old(s.lifetime) && s.schannelNumber == old(s.schannelNumber) &&
      s.recogChannel == old(s.recogChannel) && s.synthChannel == old(s.synthChannel) &&
      s.verifChannel == old(s.verifChannel) && s.nlsmlResult == old(s.nlsmlResult) &&
      s.stopBargedSynth == old(s.stopBargedSynth) && s.instanceFormat == old(s.instanceFormat) &&
      s.replaceNewLines == old(s.replaceNewLines)
    ensures ds != null && entry.Some? && entry.value !in old(ds.sessions) ==>
      fresh(s) && s.schannelNumber == old(g.speechChannelNumber) &&
      g.speechChannelNumber == Framework.NextChannelNumber(old(g.speechChannelNumber)) &&
      s.lifetime == Dynamic && s.recogChannel == null && s.synthChannel == null && s.verifChannel == null &&
      s.nlsmlResult == None && !s.stopBargedSynth && s.instanceFormat == Xml && s.replaceNewLines == NUL
  {
    if ds == null || entry.None? {
      return null;
    }
    var key := entry.value;
    if key in ds.sessions {
      s := ds.sessions[key];
    } else {
      var number := g.NextSpeechChannelNumber();
      s := new AppSession(number);
      ds.sessions := ds.sessions[key := s];
    }
    s.prompts := [];
    s.curPrompt := 0;
    s.hasFilestream := false;
    s.maxFilelength := 0;
    s.itPolicy := 0;
  }

  /** `app_datastore_session_find`: the session of the last recognition, if the datastore has one. */
  function SessionFind(ds: AppDatastore?): (r: AppSession?)
    reads ds
    ensures r != null <==> ds != null && ds.lastRecogEntry.Some? && ds.lastRecogEntry.value in ds.sessions
    ensures r != null ==> r == ds.sessions[ds.lastRecogEntry.value]
  {
    if ds == null || ds.lastRecogEntry.None? || ds.lastRecogEntry.value !in ds.sessions then null
    else ds.sessions[ds.lastRecogEntry.value]
  }

  // ---------------------------------------------------------------------------
  // Finding interpretations and instances

  /** The parsed NLSML result of a session, if there is a session and a result. */
  function SessionResult(s: AppSession?): Option<Result>
    reads s
  {
    if s == null then None else s.nlsmlResult
  }

  /** The interpretation an n-best argument names: `atoi` of it, 0 without one. */
  function NbestIndex(nbest: Option<string>): int {
    if nbest.None? then 0 else Atoi(nbest.value)
  }

  /** Instance `j` of interpretation `i`, if both exist. */
  function InstanceAt(res: Result, i: int, j: int): (r: Option<Instance>)
    ensures r.Some? <==> 0 <= i < |res| && 0 <= j < |res[i].instances|
    ensures r.Some? ==> r.value == res[i].instances[j]
  {
    match Nth(res, i)
    case None => None
    case Some(it) => Nth(it.instances, j)
  }

  /**
   * `recog_interpretation_find`: the interpretation the n-best argument
   * names, walked to from the first one; none without a session or result,
   * or when the index is negative or past the end.
   */
  method InterpretationFind(s: AppSession?, nbest: Option<string>) returns (r: Option<Interpretation>)
    ensures SessionResult(s).None? ==> r.None?
    ensures SessionResult(s).Some? ==> r == Nth(SessionResult(s).value, NbestIndex(nbest))
  {
    if s == null || s.nlsmlResult.None? {
      return None;
    }
    r := Walk(s.nlsmlResult.value, NbestIndex(nbest));
  }

  /**
   * `recog_instance_find`: the "i/j/path" selector picks interpretation i and
   * instance j of it, and hands back the path; an interpretation out of range
   * gives no instance.
   */
  method InstanceFind(s: AppSession?, num: Option<string>) returns (r: Option<Instance>, path: Option<string>)
    ensures SessionResult(s).None? ==> r.None? && path.None?
    ensures SessionResult(s).Some? ==>
      var (i, j, p) := ParseSelector(num);
      r == InstanceAt(SessionResult(s).value, i, j) && path == p
  {
    if s == null || s.nlsmlResult.None? {
      return None, None;
    }
    var (i, j, p) := ParseSelector(num);
    path := p;
    var it := Walk(s.nlsmlResult.value, i);
    if it.None? {
      return None, path;
    }
    r := Walk(it.value.instances, j);
  }

  /** Every instance of a result is reachable by the selector its indices print as. */
  lemma EveryInstanceSelectable(res: Result, i: nat, j: nat, path: string)
    requires i < |res| && j < |res[i].instances|
    ensures var sel := ParseSelector(Some(Decimal(i) + "/" + Decimal(j)));
      InstanceAt(res, sel.0, sel.1) == Some(res[i].instances[j]) && sel.2.None?
    ensures var sel := ParseSelector(Some(Decimal(i) + "/" + Decimal(j) + "/" + path));
      InstanceAt(res, sel.0, sel.1) == Some(res[i].instances[j]) && sel.2 == Some(path)
  {
    PairRoundTrip(i, j);
    SelectorRoundTrip(i, j, path);
  }

  // ---------------------------------------------------------------------------
  // Dialplan functions

  /** The interpretation a dialplan function over `ds` reads, given its argument. */
  function DialplanInterpretation(ds: AppDatastore?, data: Option<string>): Option<Interpretation>
    reads ds, SessionFind(ds)
  {
    var s := SessionFind(ds);
    if s == null || s.nlsmlResult.None? then None else Nth(s.nlsmlResult.value, NbestIndex(data))
  }

  /**
   * RECOG_CONFIDENCE(): -1 unless the interpretation exists; its confidence
   * is then printed with two decimals.
   */
  method RecogConfidence(ds: AppDatastore?, data: Option<string>) returns (status: int)
    ensures status == 0 <==> DialplanInterpretation(ds, data).Some?
    ensures status == 0 || status == -1
  {
    var s := SessionFind(ds);
    if s == null {
      return -1;
    }
    var it := InterpretationFind(s, data);
    status := if it.None? then -1 else 0;
  }

  /** RECOG_GRAMMAR(): the grammar of the interpretation, copied into a buffer of `len` characters. */
  method RecogGrammar(ds: AppDatastore?, data: Option<string>, len: nat) returns (status: int, buf: string)
    requires len > 0
    ensures var it := DialplanInterpretation(ds, data);
      (status == 0 <==> it.Some? && it.value.grammar.Some?) &&
      (status == 0 ==> buf == CopyString(it.value.grammar.value, len))
    ensures status == 0 || status == -1
  {
    var s := SessionFind(ds);
    if s == null {
      return -1, "";
    }
    var it := InterpretationFind(s, data);
    if it.None? || it.value.grammar.None? {
      return -1, "";
    }
    return 0, CopyString(it.value.grammar.value, len);
  }

  /** RECOG_INPUT(): the content of the interpretation's input. */
  method RecogInput(ds: AppDatastore?, data: Option<string>, len: nat) returns (status: int, buf: string)
    requires len > 0
    ensures var it := DialplanInterpretation(ds, data);
      (status == 0 <==> it.Some? && it.value.input.Some? && it.value.input.value.content.Some?) &&
      (status == 0 ==> buf == CopyString(it.value.input.value.content.value, len))
    ensures status == 0 || status == -1
  {
    var s := SessionFind(ds);
    if s == null {
      return -1, "";
    }
    var it := InterpretationFind(s, data);
    if it.None? || it.value.input.None? || it.value.input.value.content.None? {
      return -1, "";
    }
    return 0, CopyString(it.value.input.value.content.value, len);
  }

  /** RECOG_INPUT_MODE(): the mode of the interpretation's input. */
  method RecogInputMode(ds: AppDatastore?, data: Option<string>, len: nat) returns (status: int, buf: string)
    requires len > 0
    ensures var it := DialplanInterpretation(ds, data);
      (status == 0 <==> it.Some? && it.value.input.Some? && it.value.input.value.mode.Some?) &&
      (status == 0 ==> buf == CopyString(it.value.input.value.mode.value, len))
    ensures status == 0 || status == -1
  {
    var s := SessionFind(ds);
    if s == null {
      return -1, "";
    }
    var it := InterpretationFind(s, data);
    if it.None? || it.value.input.None? || it.value.input.value.mode.None? {
      return -1, "";
    }
    return 0, CopyString(it.value.input.value.mode.value, len);
  }

  /** RECOG_INPUT_CONFIDENCE(): -1 unless the interpretation has an input; its confidence is then printed. */
  method RecogInputConfidence(ds: AppDatastore?, data: Option<string>) returns (status: int)
    ensures var it := DialplanInterpretation(ds, data);
      status == 0 <==> it.Some? && it.value.input.Some?
    ensures status == 0 || status == -1
  {
    var s := SessionFind(ds);
    if s == null {
      return -1;
    }
    var it := InterpretationFind(s, data);
    status := if it.None? || it.value.input.None? then -1 else 0;
  }

  /**
   * The text RECOG_INSTANCE reads from an instance: without a path, the
   * instance's content; with one, under the XML format the inner text of
   * the element the path leads to, and under the JSON format the answer of
   * the JSON lookup, `jsonText`.
   */
  function InstanceText(format: InstanceFormat, inst: Instance, path: Option<string>, jsonText: Option<string>): Option<string> {
    if path.None? then inst.content
    else if format == Json then jsonText
    else if inst.elem.None? then None
    else
      match FindElem(inst.elem.value, path.value)
      case None => None
      case Some(c) => Some(c.inner)
  }

  /** The text RECOG_INSTANCE reads for the selector `data` from a session's result. */
  function SelectedText(res: Result, format: InstanceFormat, data: Option<string>, jsonText: Option<string>): Option<string> {
    var (i, j, path) := ParseSelector(data);
    var inst := InstanceAt(res, i, j);
    if inst.None? then None else InstanceText(format, inst.value, path, jsonText)
  }

  /** What RECOG_INSTANCE leaves in a buffer of `len` characters for `text`, given the replacement character. */
  function InstanceBuffer(text: string, len: nat, repl: char): string
    requires len > 0
  {
    if repl == NUL then CopyString(text, len) else Replaced(CopyString(text, len), '\n', repl)
  }

  /**
   * The copy into the buffer followed, when a replacement character is set,
   * by `recog_instance_replace_char` over the NUL-terminated buffer.
   */
  method CopyAndReplace(text: string, len: nat, repl: char) returns (buf: string)
    requires len > 0
    ensures buf == InstanceBuffer(text, len, repl)
  {
    var copied := CopyString(text, len);
    if repl == NUL {
      return copied;
    }
    var a := new char[|copied| + 1](k => if 0 <= k < |copied| then copied[k] else NUL);
    assert a[..|copied|] == copied;
    var _ := ReplaceChar(a, |copied|, '\n', repl);
    buf := a[..|copied|];
  }

  /**
   * RECOG_INSTANCE(): the text of the selected instance copied into the
   * buffer, with each newline replaced by the session's replacement
   * character when it has one; -1 when the session, instance or text is
   * missing.
   */
  method RecogInstance(ds: AppDatastore?, data: Option<string>, len: nat, jsonText: Option<string>)
    returns (status: int, buf: string)
    requires len > 0
    ensures status == 0 || status == -1
    ensures var s := SessionFind(ds);
      s == null || s.nlsmlResult.None? ==> status == -1
    ensures var s := SessionFind(ds);
      s != null && s.nlsmlResult.Some? ==>
        var text := SelectedText(s.nlsmlResult.value, s.instanceFormat, data, jsonText);
        (status == 0 <==> text.Some?) &&
        (status == 0 ==> buf == InstanceBuffer(text.value, len, s.replaceNewLines))
  {
    var s := SessionFind(ds);
    if s == null {
      return -1, "";
    }
    var inst, path := InstanceFind(s, data);
    if inst.None? {
      return -1, "";
    }
    var text := InstanceText(s.instanceFormat, inst.value, path, jsonText);
    if text.None? {
      return -1, "";
    }
    status := 0;
    buf := CopyAndReplace(text.value, len, s.replaceNewLines);
  }

  /** With a replacement character set, no newline survives into the buffer RECOG_INSTANCE fills. */
  lemma RecogInstanceHasNoNewline(text: string, len: nat, repl: char)
    requires len > 0 && repl != '\n' && repl != NUL
    ensures Occurrences(InstanceBuffer(text, len, repl), '\n') == 0
  {
    ReplacedRemovesAll(CopyString(text, len), '\n', repl);
  }
}
