// The option strings of the dialplan applications (MRCPRecog, MRCPVerif,
// MRCPRecogVerif, SynthAndRecog, MRCPSynth): splitting "key=value&..." into
// tokens, routing each key to a header field or to a flag and its parameter,
// and the policies the applications derive from the options. Each
// application's own routing table lives in its module; the splitting, the
// option record and the shared tables live here.

module AppOptions {
  import opened Text

  // ---------------------------------------------------------------------------
  // The option record

  /** The header tables an application fills: MRCP header fields by name, or vendor parameters. */
  datatype Table = RecogHfs | SynthHfs | VerifHfs | VerifSessionHfs | RecVendorParams | VerVendorParams

  /** The option flags; each goes with one parameter slot. */
  datatype Flag =
    | Profile | RecogProfile | SynthProfile | Interrupt | Filename | Bargein
    | GrammarDelimiters | ExitOnPlayError | UriEncodedResults | OutputDelimiters
    | InputTimers | PersistentLifetime | DatastoreEntry | InstanceFormat | BufHnd

  /**
   * What applying an option does with its value: store it in a header table
   * under a fixed field name, set a flag and keep the value as its
   * parameter, or split it at its first '=' into a vendor parameter name
   * and value (ignored when it has no '=').
   */
  datatype Action = SetHeader(table: Table, field: string) | SetFlag(flag: Flag) | SetVendor(vendor: Table)

  /** An application's routing: the actions for a key as given. */
  type Route = string -> seq<Action>

  /** The options collected so far: header values by (table, field), the flags set and their parameters. */
  datatype OptState = OptState(hfs: map<(Table, string), string>, flags: set<Flag>, params: map<Flag, string>)

  const NO_OPTIONS := OptState(map[], {}, map[])

  /** One action applied to a value. */
  function Act(st: OptState, a: Action, value: string): OptState {
    match a
    case SetHeader(t, f) => st.(hfs := st.hfs[(t, f) := value])
    case SetFlag(fl) => st.(flags := st.flags + {fl}, params := st.params[fl := value])
    case SetVendor(t) =>
      var (name, v) := StrSep(value, {'='});
      if v.None? then st else st.(hfs := st.hfs[(t, name) := v.value])
  }

  /** The actions of one key, in order. */
  function Acts(st: OptState, actions: seq<Action>, value: string): OptState
    decreases |actions|
  {
    if actions == [] then st
    else Act(Acts(st, actions[..|actions| - 1], value), actions[|actions| - 1], value)
  }

  /**
   * One token of an option string: its key is the text before the first
   * '=' and its value what follows; a token without '=' is ignored.
   */
  function ApplyToken(st: OptState, route: Route, token: string): OptState {
    var (name, value) := StrSep(token, {'='});
    if value.None? then st else Acts(st, route(name), value.value)
  }

  /** The tokens applied from first to last. */
  function ApplyTokens(st: OptState, route: Route, tokens: seq<string>): OptState
    decreases |tokens|
  {
    if tokens == [] then st else ApplyTokens(ApplyToken(st, route, tokens[0]), route, tokens[1..])
  }

  /** Applying one more token applies it to what the earlier ones left. */
  lemma {:induction false} ApplyTokensSnoc(st: OptState, route: Route, done: seq<string>, tok: string)
    ensures ApplyTokens(st, route, done + [tok]) == ApplyToken(ApplyTokens(st, route, done), route, tok)
    decreases |done|
  {
    if done == [] {
      assert [tok][1..] == [];
    } else {
      assert (done + [tok])[1..] == done[1..] + [tok];
      ApplyTokensSnoc(ApplyToken(st, route, done[0]), route, done[1..], tok);
    }
  }

  /** Actions that do not name flag `f` leave it unset. */
  lemma {:induction false} ActsKeepFlagUnset(st: OptState, actions: seq<Action>, value: string, f: Flag)
    requires f !in st.flags && SetFlag(f) !in actions
    ensures f !in Acts(st, actions, value).flags
    decreases |actions|
  {
    if actions != [] {
      assert SetFlag(f) !in actions[..|actions| - 1];
      ActsKeepFlagUnset(st, actions[..|actions| - 1], value, f);
    }
  }

  /** A flag that no key routes to is never set, whatever the option string. */
  lemma {:induction false} FlagNeverSet(st: OptState, route: Route, tokens: seq<string>, f: Flag)
    requires f !in st.flags
    requires forall key :: SetFlag(f) !in route(key)
    ensures f !in ApplyTokens(st, route, tokens).flags
    decreases |tokens|
  {
    if tokens != [] {
      var (name, value) := StrSep(tokens[0], {'='});
      if value.Some? {
        ActsKeepFlagUnset(st, route(name), value.value, f);
      }
      FlagNeverSet(ApplyToken(st, route, tokens[0]), route, tokens[1..], f);
    }
  }

  /** Applying tokens one list after another is applying both lists in order. */
  lemma {:induction false} ApplyTokensAppend(st: OptState, route: Route, a: seq<string>, b: seq<string>)
    ensures ApplyTokens(st, route, a + b) == ApplyTokens(ApplyTokens(st, route, a), route, b)
    decreases |a|
  {
    if a == [] {
      assert a + b == b;
    } else {
      assert (a + b)[0] == a[0] && (a + b)[1..] == a[1..] + b;
      ApplyTokensAppend(ApplyToken(st, route, a[0]), route, a[1..], b);
    }
  }

  /** Actions never remove a header. */
  lemma {:induction false} ActsKeepHeaders(st: OptState, actions: seq<Action>, value: string)
    ensures st.hfs.Keys <= Acts(st, actions, value).hfs.Keys
    decreases |actions|
  {
    if actions != [] {
      ActsKeepHeaders(st, actions[..|actions| - 1], value);
    }
  }

  /** A header set by an earlier token stays set, whatever the later tokens. */
  lemma {:induction false} HeadersPersist(st: OptState, route: Route, tokens: seq<string>)
    ensures st.hfs.Keys <= ApplyTokens(st, route, tokens).hfs.Keys
    decreases |tokens|
  {
    if tokens != [] {
      var (name, value) := StrSep(tokens[0], {'='});
      if value.Some? {
        ActsKeepHeaders(st, route(name), value.value);
      }
      HeadersPersist(ApplyToken(st, route, tokens[0]), route, tokens[1..]);
    }
  }

  /** A list of actions with no vendor action: every action stores the value as it is. */
  predicate Plain(actions: seq<Action>) {
    forall a :: a in actions ==> !a.SetVendor?
  }

  /**
   * Applying a key's actions stores the value in each header it names and
   * leaves every other header as it was.
   */
  lemma {:induction false} ActsStoreHeaders(st: OptState, actions: seq<Action>, value: string)
    requires Plain(actions)
    ensures var r := Acts(st, actions, value);
      (forall a :: a in actions && a.SetHeader? ==> (a.table, a.field) in r.hfs && r.hfs[(a.table, a.field)] == value) &&
      (forall key :: key in st.hfs && SetHeader(key.0, key.1) !in actions ==> key in r.hfs && r.hfs[key] == st.hfs[key]) &&
      (forall key :: key in r.hfs ==> key in st.hfs || SetHeader(key.0, key.1) in actions)
    decreases |actions|
  {
    if actions != [] {
      var init := actions[..|actions| - 1];
      var last := actions[|actions| - 1];
      assert actions == init + [last];
      assert !last.SetVendor?;
      ActsStoreHeaders(st, init, value);
    }
  }

  /**
   * Applying a key's actions sets each flag it names with the value as its
   * parameter and leaves every other flag and parameter as it was.
   */
  lemma {:induction false} ActsStoreFlags(st: OptState, actions: seq<Action>, value: string)
    requires Plain(actions)
    ensures var r := Acts(st, actions, value);
      (forall f :: f in r.flags <==> f in st.flags || SetFlag(f) in actions) &&
      (forall f :: SetFlag(f) in actions ==> f in r.params && r.params[f] == value) &&
      (forall f :: f in st.params && SetFlag(f) !in actions ==> f in r.params && r.params[f] == st.params[f]) &&
      (forall f :: f in r.params ==> f in st.params || SetFlag(f) in actions)
    decreases |actions|
  {
    if actions != [] {
      var init := actions[..|actions| - 1];
      var last := actions[|actions| - 1];
      assert actions == init + [last];
      assert !last.SetVendor?;
      ActsStoreFlags(st, init, value);
    }
  }

  /** A later token for the same key overwrites what an earlier one stored. */
  lemma LaterTokenWins(st: OptState, route: Route, tokens: seq<string>, name: string, value: string)
    requires '=' !in name && Plain(route(name))
    ensures var r := ApplyTokens(st, route, tokens + [name + "=" + value]);
      (forall a :: a in route(name) && a.SetHeader? ==> (a.table, a.field) in r.hfs && r.hfs[(a.table, a.field)] == value) &&
      (forall a :: a in route(name) && a.SetFlag? ==> a.flag in r.flags && a.flag in r.params && r.params[a.flag] == value)
  {
    ApplyTokensSnoc(st, route, tokens, name + "=" + value);
    assert name + "=" + value == name + ['='] + value;
    assert forall k :: 0 <= k < |name| ==> name[k] !in {'='};
    StrSepAt(name, '=', {'='}, value);
    ActsStoreHeaders(ApplyTokens(st, route, tokens), route(name), value);
    ActsStoreFlags(ApplyTokens(st, route, tokens), route(name), value);
  }

  /** A token without '=' changes nothing. */
  lemma TokenWithoutValueIgnored(st: OptState, route: Route, tokens: seq<string>, token: string)
    requires '=' !in token
    ensures ApplyTokens(st, route, tokens + [token]) == ApplyTokens(st, route, tokens)
  {
    ApplyTokensSnoc(st, route, tokens, token);
    assert forall k :: 0 <= k < |token| ==> token[k] !in {'='};
    StrSepNone(token, {'='});
  }

  /** A token whose key the route does not know changes nothing. */
  lemma UnknownKeyIgnored(st: OptState, route: Route, tokens: seq<string>, name: string, value: string)
    requires '=' !in name && route(name) == []
    ensures ApplyTokens(st, route, tokens + [name + "=" + value]) == ApplyTokens(st, route, tokens)
  {
    ApplyTokensSnoc(st, route, tokens, name + "=" + value);
    assert name + "=" + value == name + ['='] + value;
    assert forall k :: 0 <= k < |name| ==> name[k] !in {'='};
    StrSepAt(name, '=', {'='}, value);
  }

  /** A key already in lower case. */
  predicate IsLowerCase(k: string) {
    forall i :: 0 <= i < |k| ==> Lower(k[i]) == k[i]
  }

  /**
   * `strcasecmp(key, k) == 0` against a lower-case `k` is equality of the
   * folded key with `k`: so a table of lower-case keys looked up with the
   * folded key is the chain of `strcasecmp` tests of the applications.
   */
  lemma FoldedKey(key: string, k: string)
    requires IsLowerCase(k)
    ensures EqualsIgnoreCase(key, k) <==> ToLower(key) == k
  {
    if EqualsIgnoreCase(key, k) {
      assert forall i :: 0 <= i < |k| ==> ToLower(key)[i] == k[i];
    }
  }

  // ---------------------------------------------------------------------------
  // Splitting option strings

  /**
   * One step of the quoted splitting of MRCPRecog, MRCPVerif and
   * MRCPRecogVerif: leading white space is skipped; a token opened by '<'
   * runs to the next '>' (and may hold '&'), whatever follows up to the
   * next '&' being dropped; any other token runs to the next '&'. Also what
   * is left to split, if anything.
   */
  function QuotedStep(s: string): (r: (string, Option<string>))
    ensures r.1.Some? ==> |r.1.value| < |s|
  {
    var t := s[SpacePrefix(s)..];
    if |t| > 0 && t[0] == '<' then
      var (tok, after) := StrSep(t[1..], {'>'});
      if after.None? then (tok, None) else (tok, StrSep(after.value, {'&'}).1)
    else StrSep(t, {'&'})
  }

  /** The tokens of the quoted splitting, in order. */
  function QuotedTokens(s: string): (r: seq<string>)
    ensures |r| > 0
    decreases |s|
  {
    var (tok, rest) := QuotedStep(s);
    [tok] + if rest.None? then [] else QuotedTokens(rest.value)
  }

  /** The plain splitting of SynthAndRecog and MRCPSynth: every piece between '&'s, empty ones included. */
  function PlainTokens(s: string): (r: seq<string>)
    ensures |r| > 0
    decreases |s|
  {
    var (tok, rest) := StrSep(s, {'&'});
    [tok] + if rest.None? then [] else PlainTokens(rest.value)
  }

  /** A token free of '&' and not opened by white space or '<' is split off whole at the next '&'. */
  lemma QuotedTokensSplit(tok: string, rest: string)
    requires '&' !in tok && (|tok| > 0 ==> !IsSpace(tok[0]) && tok[0] != '<')
    ensures QuotedTokens(tok + "&" + rest) == [tok] + QuotedTokens(rest)
    ensures QuotedTokens(tok) == [tok]
  {
    assert tok + "&" + rest == tok + ['&'] + rest;
    assert forall k :: 0 <= k < |tok| ==> tok[k] !in {'&'};
    StrSepAt(tok, '&', {'&'}, rest);
    StrSepNone(tok, {'&'});
    assert SpacePrefix(tok + "&" + rest) == 0;
    assert SpacePrefix(tok) == 0;
  }

  /** A '<'-quoted token keeps its '&'s; what follows its '>' up to the next '&' is dropped. */
  lemma QuotedTokensQuote(tok: string, junk: string, rest: string)
    requires '>' !in tok && '&' !in junk
    ensures QuotedTokens("<" + tok + ">" + junk + "&" + rest) == [tok] + QuotedTokens(rest)
  {
    var s := "<" + tok + ">" + junk + "&" + rest;
    assert SpacePrefix(s) == 0;
    assert s[1..] == tok + ['>'] + (junk + "&" + rest);
    assert forall k :: 0 <= k < |tok| ==> tok[k] !in {'>'};
    StrSepAt(tok, '>', {'>'}, junk + "&" + rest);
    assert junk + "&" + rest == junk + ['&'] + rest;
    assert forall k :: 0 <= k < |junk| ==> junk[k] !in {'&'};
    StrSepAt(junk, '&', {'&'}, rest);
  }

  /** Splitting at '&' peels off the first piece. */
  lemma PlainTokensSplit(tok: string, rest: string)
    requires '&' !in tok
    ensures PlainTokens(tok + "&" + rest) == [tok] + PlainTokens(rest)
    ensures PlainTokens(tok) == [tok]
  {
    assert tok + "&" + rest == tok + ['&'] + rest;
    assert forall k :: 0 <= k < |tok| ==> tok[k] !in {'&'};
    StrSepAt(tok, '&', {'&'}, rest);
    StrSepNone(tok, {'&'});
  }

  lemma QuotedTokensStep(s: string)
    ensures QuotedStep(s).1.None? ==> QuotedTokens(s) == [QuotedStep(s).0]
    ensures QuotedStep(s).1.Some? ==> QuotedTokens(s) == [QuotedStep(s).0] + QuotedTokens(QuotedStep(s).1.value)
  {
  }

  lemma PlainTokensStep(s: string)
    ensures StrSep(s, {'&'}).1.None? ==> PlainTokens(s) == [StrSep(s, {'&'}).0]
    ensures StrSep(s, {'&'}).1.Some? ==> PlainTokens(s) == [StrSep(s, {'&'}).0] + PlainTokens(StrSep(s, {'&'}).1.value)
  {
  }

  /** `options` as the applications fill it: a record written option by option. */
  class Options {
    var hfs: map<(Table, string), string>
    var flags: set<Flag>
    var params: map<Flag, string>

    /** Empty header tables, no flag and no parameter. */
    constructor ()
      ensures State() == NO_OPTIONS
    {
      hfs, flags, params := map[], {}, map[];
    }

    function State(): OptState
      reads this
    {
      OptState(hfs, flags, params)
    }

    /** `*_option_apply`: each action of the key's route, in order. */
    method ApplyOption(actions: seq<Action>, value: string)
      modifies this
      ensures State() == Acts(old(State()), actions, value)
    {
      var k := 0;
      while k < |actions|
        invariant 0 <= k <= |actions|
        invariant State() == Acts(old(State()), actions[..k], value)
      {
        assert actions[..k + 1][..k] == actions[..k];
        match actions[k] {
          case SetHeader(t, f) =>
            hfs := hfs[(t, f) := value];
          case SetFlag(fl) =>
            flags := flags + {fl};
            params := params[fl := value];
          case SetVendor(t) =>
            var (name, v) := StrSep(value, {'='});
            if v.Some? {
              hfs := hfs[(t, name) := v.value];
            }
        }
        k := k + 1;
      }
      assert actions[..|actions|] == actions;
    }

    /** The key before the first '=' and the value after it; nothing without '='. */
    method ApplyTokenTo(token: string, route: Route)
      modifies this
      ensures State() == ApplyToken(old(State()), route, token)
    {
      var (name, value) := StrSep(token, {'='});
      if value.Some? {
        ApplyOption(route(name), value.value);
      }
    }

    /** The do/while loop of the quoted `*_options_parse`: split off a token, apply it, until nothing is left. */
    method ParseQuoted(str: string, route: Route)
      modifies this
      ensures State() == ApplyTokens(old(State()), route, QuotedTokens(str))
    {
      var rest := str;
      var more := true;
      while more
        invariant more ==> ApplyTokens(State(), route, QuotedTokens(rest)) == ApplyTokens(old(State()), route, QuotedTokens(str))
        invariant !more ==> State() == ApplyTokens(old(State()), route, QuotedTokens(str))
        decreases more, |rest|
      {
        var (tok, next) := QuotedStep(rest);
        QuotedTokensStep(rest);
        ghost var before := State();
        ApplyTokenTo(tok, route);
        if next.None? {
          assert QuotedTokens(rest) == [tok];
          assert ApplyTokens(before, route, [tok]) == State();
          more := false;
        } else {
          assert QuotedTokens(rest) == [tok] + QuotedTokens(next.value);
          assert ApplyTokens(before, route, QuotedTokens(rest)) == ApplyTokens(State(), route, QuotedTokens(next.value));
          rest := next.value;
        }
      }
    }

    /** The `while ((s = strsep(&str, "&")))` loop of the plain `*_options_parse`. */
    method ParsePlain(str: string, route: Route)
      modifies this
      ensures State() == ApplyTokens(old(State()), route, PlainTokens(str))
    {
      var rest := str;
      var more := true;
      while more
        invariant more ==> ApplyTokens(State(), route, PlainTokens(rest)) == ApplyTokens(old(State()), route, PlainTokens(str))
        invariant !more ==> State() == ApplyTokens(old(State()), route, PlainTokens(str))
        decreases more, |rest|
      {
        var (tok, next) := StrSep(rest, {'&'});
        PlainTokensStep(rest);
        ghost var before := State();
        ApplyTokenTo(tok, route);
        if next.None? {
          assert PlainTokens(rest) == [tok];
          assert ApplyTokens(before, route, [tok]) == State();
          more := false;
        } else {
          assert PlainTokens(rest) == [tok] + PlainTokens(next.value);
          assert ApplyTokens(before, route, PlainTokens(rest)) == ApplyTokens(State(), route, PlainTokens(next.value));
          rest := next.value;
        }
      }
    }
  }

  // ---------------------------------------------------------------------------
  // Shared routing tables

  /** The recognizer header fields MRCPRecog, MRCPRecogVerif and SynthAndRecog accept, by lower-case key. */
  const RECOG_HEADER_KEYS: map<string, string> := map[
    "ct" := "Confidence-Threshold", "sva" := "Speed-vs-Accuracy", "nb" := "N-Best-List-Length",
    "nit" := "No-Input-Timeout", "sct" := "Speech-Complete-Timeout", "sint" := "Speech-Incomplete-Timeout",
    "dit" := "Dtmf-Interdigit-Timeout", "dtt" := "Dtmf-Term-Timeout", "dttc" := "Dtmf-Term-Char",
    "sw" := "Save-Waveform", "nac" := "New-Audio-Channel", "rm" := "Recognition-Mode",
    "hmaxd" := "Hotword-Max-Duration", "hmind" := "Hotword-Min-Duration", "cdb" := "Clear-Dtmf-Buffer",
    "enm" := "Early-No-Match", "iwu" := "Input-Waveform-URI", "sl" := "Sensitivity-Level",
    "spl" := "Speech-Language", "mt" := "Media-Type", "t" := "Recognition-Timeout"]

  /** The verification session header fields of MRCPVerif and MRCPRecogVerif. */
  const VERIF_SESSION_KEYS: map<string, string> := map[
    "vc" := "Min-Verification-Score", "minph" := "Num-Min-Verification-Phrases",
    "maxph" := "Num-Max-Verification-Phrases", "vm" := "Verification-Mode",
    "rpuri" := "Repository-URI", "vpid" := "Voiceprint-Identifier"]

  /** The header fields a verification session cannot start without. */
  predicate HasVerifSessionHeaders(st: OptState) {
    (VerifSessionHfs, "Verification-Mode") in st.hfs &&
    (VerifSessionHfs, "Repository-URI") in st.hfs &&
    (VerifSessionHfs, "Voiceprint-Identifier") in st.hfs
  }

  /** Header actions for a key found in a key table. */
  function HeaderFrom(keys: map<string, string>, t: Table, k: string): (r: seq<Action>)
    ensures k in keys ==> r == [SetHeader(t, keys[k])]
    ensures k !in keys ==> r == []
  {
    if k in keys then [SetHeader(t, keys[k])] else []
  }

  /** Flag actions for a key found in a flag table. */
  function FlagFrom(keys: map<string, Flag>, k: string): (r: seq<Action>)
    ensures k in keys ==> r == [SetFlag(keys[k])]
    ensures k !in keys ==> r == []
  {
    if k in keys then [SetFlag(keys[k])] else []
  }

  /** `"grammar-%d"`: the name under which the n-th grammar of the argument is loaded. */
  function GrammarName(n: nat): string {
    "grammar-" + Decimal(n)
  }

  /** Distinct positions give distinct grammar names. */
  lemma GrammarNamesDistinct(m: nat, n: nat)
    requires m != n
    ensures GrammarName(m) != GrammarName(n)
  {
    var p := "grammar-";
    if GrammarName(m) == GrammarName(n) {
      assert Decimal(m) == GrammarName(m)[|p|..];
      assert Decimal(n) == GrammarName(n)[|p|..];
      DecimalRoundTrip(m);
      DecimalRoundTrip(n);
    }
  }

  /**
   * The grammars of an application argument: the pieces between the
   * delimiters, empty ones skipped (`apr_strtok`), each named after its
   * position.
   */
  function NamedGrammars(arg: string, delims: set<char>): (r: seq<(string, string)>)
    ensures |r| == |Tokens(arg, delims)|
    ensures forall k :: 0 <= k < |r| ==> r[k] == (GrammarName(k), Tokens(arg, delims)[k])
  {
    var toks := Tokens(arg, delims);
    seq(|toks|, k requires 0 <= k < |toks| => (GrammarName(k), toks[k]))
  }

  // ---------------------------------------------------------------------------
  // Policies derived from the options

  /** The parameter of a flag, when the flag is set and its parameter is non-empty (`!ast_strlen_zero`). */
  function Param(st: OptState, f: Flag): (r: Option<string>)
    ensures r.Some? <==> f in st.flags && f in st.params && |st.params[f]| > 0
    ensures r.Some? ==> r.value == st.params[f]
  {
    if f in st.flags && f in st.params && |st.params[f]| > 0 then Some(st.params[f]) else None
  }

  /** The delimiters an option names (`gd`, `od`), or the application's default. */
  function Delimiters(st: OptState, f: Flag, default: string): (r: set<char>)
    ensures Param(st, f).None? ==> r == CharSet(default)
    ensures Param(st, f).Some? ==> r == CharSet(Param(st, f).value)
  {
    var p := Param(st, f);
    if p.Some? then CharSet(p.value) else CharSet(default)
  }

  /** Barge-in: allowed (1) unless the `b` parameter reads as 0. */
  function BargeIn(st: OptState): (r: int)
    ensures r == 0 || r == 1
    ensures r == 0 <==> Param(st, Bargein).Some? && Atoi(Param(st, Bargein).value) == 0
  {
    var p := Param(st, Bargein);
    if p.Some? && Atoi(p.value) == 0 then 0 else 1
  }

  /**
   * `exit_on_playerror`: 0 unless the `epe` parameter is given; a value
   * outside 0..2 becomes 1.
   */
  function ExitOnPlayErrorPolicy(st: OptState): (r: int)
    ensures 0 <= r <= 2
    ensures Param(st, ExitOnPlayError).None? ==> r == 0
    ensures Param(st, ExitOnPlayError).Some? && 0 <= Atoi(Param(st, ExitOnPlayError).value) <= 2 ==>
      r == Atoi(Param(st, ExitOnPlayError).value)
  {
    var p := Param(st, ExitOnPlayError);
    if p.None? then 0
    else
      var v := Atoi(p.value);
      if v < 0 || v > 2 then 1 else v
  }

  // ---------------------------------------------------------------------------
  // DTMF

  /** Asterisk's `AST_DIGIT_ANY`: every DTMF digit, what the value "any" of an interrupt option stands for. */
  const DIGIT_ANY := "0123456789#*ABCD"

  /**
   * The `i` option of the recognition applications (MRCPRecog, MRCPVerif,
   * MRCPRecogVerif): DTMF digits go to the recognizer (2) by default; a
   * non-empty value makes them interrupt (1), on every digit for "any",
   * while "none" keeps the default and "disable" ignores them (0). Also the
   * digits that interrupt.
   */
  function RecogDtmfPolicy(st: OptState): (r: (int, string))
    ensures 0 <= r.0 <= 2
    ensures Param(st, Interrupt).None? ==> r.0 == 2
    ensures Param(st, Interrupt).Some? ==>
      var v := Param(st, Interrupt).value;
      (EqualsIgnoreCase(v, "any") ==> r == (1, DIGIT_ANY)) &&
      (EqualsIgnoreCase(v, "none") ==> r.0 == 2) &&
      (EqualsIgnoreCase(v, "disable") ==> r.0 == 0) &&
      (!EqualsIgnoreCase(v, "any") && !EqualsIgnoreCase(v, "none") && !EqualsIgnoreCase(v, "disable") ==> r == (1, v))
  {
    var p := Param(st, Interrupt);
    if p.None? then (2, "")
    else if EqualsIgnoreCase(p.value, "any") then (1, DIGIT_ANY)
    else if EqualsIgnoreCase(p.value, "none") then (2, p.value)
    else if EqualsIgnoreCase(p.value, "disable") then (0, p.value)
    else (1, p.value)
  }

  /** What a DTMF frame does during recognition. */
  datatype DtmfAction = KeyIgnored | KeyQueued | KeyInterrupts

  /**
   * The DTMF branch of the recognition loops as written: with interrupting
   * digits, a key interrupts when it is one of them or when the digits are
   * not "any" (`strcmp` returning non-zero).
   */
  function DtmfFrameAsWritten(enable: int, digits: string, key: char): DtmfAction {
    if enable == 0 then KeyIgnored
    else if enable == 2 then KeyQueued
    else if enable == 1 then (if key in digits || digits != "any" then KeyInterrupts else KeyIgnored)
    else KeyIgnored
  }

  /** The DTMF branch as intended: only an interrupting digit interrupts. */
  function DtmfFrame(enable: int, digits: string, key: char): (r: DtmfAction)
    ensures r == KeyInterrupts <==> enable == 1 && (key in digits || digits == "any")
    ensures r == KeyQueued <==> enable == 2
  {
    if enable == 0 then KeyIgnored
    else if enable == 2 then KeyQueued
    else if enable == 1 then (if key in digits || digits == "any" then KeyInterrupts else KeyIgnored)
    else KeyIgnored
  }

  /**
   * As written, once the `i` option makes digits interrupt, every key
   * interrupts: the digits are never "any" (that value was replaced by all
   * digits), so the `strcmp` test is always true. With `i=12`, the key 5
   * ends the application; as intended it does not.
   */
  lemma DtmfEveryKeyInterrupts(st: OptState, key: char)
    requires RecogDtmfPolicy(st).0 == 1
    ensures DtmfFrameAsWritten(1, RecogDtmfPolicy(st).1, key) == KeyInterrupts
  {
    var v := Param(st, Interrupt).value;
    if RecogDtmfPolicy(st).1 == "any" {
      assert !EqualsIgnoreCase(v, "any");
      assert v == "any";
      assert EqualsIgnoreCase(v, "any");
    }
  }

  lemma DtmfOtherKeyInterruptsAsWritten()
    ensures DtmfFrameAsWritten(1, "12", '5') == KeyInterrupts
    ensures DtmfFrame(1, "12", '5') == KeyIgnored
  {
    assert '5' !in "12";
  }

  /** When the input timers start: never, with the request, or once the prompts are over (the default). */
  datatype ItPolicy = ItOff | ItOn | ItAuto

  /** The `sit` parameter: 0 is off, 1 is on, anything else automatic; unset keeps `current`. */
  function InputTimersPolicy(st: OptState, current: ItPolicy): (r: ItPolicy)
    ensures Param(st, InputTimers).None? ==> r == current
    ensures Param(st, InputTimers).Some? ==>
      (r == ItOff <==> Atoi(Param(st, InputTimers).value) == 0) &&
      (r == ItOn <==> Atoi(Param(st, InputTimers).value) == 1)
  {
    var p := Param(st, InputTimers);
    if p.None? then current
    else if Atoi(p.value) == 0 then ItOff
    else if Atoi(p.value) == 1 then ItOn
    else ItAuto
  }

  /**
   * Whether RECOGNIZE starts the input timers: under the automatic policy,
   * only when no prompt is still to be played; otherwise as the policy says.
   */
  function StartInputTimers(policy: ItPolicy, promptProcessing: bool): (r: bool)
    ensures policy == ItAuto ==> (r <==> !promptProcessing)
    ensures policy != ItAuto ==> (r <==> policy == ItOn)
  {
    match policy
    case ItOff => false
    case ItOn => true
    case ItAuto => !promptProcessing
  }

  /** How an application run ends, as it reports it in its status variable. */
  datatype AppStatus = StatusOk | StatusError | StatusInterrupted

  /** `mrcprecog_exit`, `mrcpsynth_exit` and `synthandrecog_exit` return -1 for an error and 0 otherwise. */
  function ExitCode(status: AppStatus): (r: int)
    ensures r == -1 <==> status == StatusError
    ensures r == 0 <==> status != StatusError
  {
    if status == StatusError then -1 else 0
  }
}
