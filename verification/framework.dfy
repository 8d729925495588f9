// Module-wide configuration of the MRCP applications: the global settings
// read from mrcp.conf, the per-profile records, the speech-channel counter,
// profile lookup and the per-key dispatch used when profiles are handed to the
// MRCP client stack (app-unimrcp/ast_unimrcp_framework.c).

module Framework {
  import opened Text

  const UINT32_MAX: nat := 0xFFFF_FFFF
  /** apr_size_t is 64 bits wide. */
  const SIZE_T_MODULUS: nat := 0x1_0000_0000_0000_0000

  const DEFAULT_MAX_CONNECTION_COUNT: nat := 120
  const DEFAULT_OFFER_NEW_CONNECTION: bool := true
  const DEFAULT_LOG_LEVEL: string := "DEBUG"

  // ---------------------------------------------------------------------------
  // Speech channel numbering

  /** The value the channel counter takes after handing out `n`: it wraps to 0 after UINT32_MAX. */
  function NextChannelNumber(n: nat): (r: nat)
    requires n <= UINT32_MAX
    ensures r <= UINT32_MAX
    ensures r == (n + 1) % (UINT32_MAX + 1)
  {
    if n == UINT32_MAX then 0 else n + 1
  }

  /** The counter after `k` numbers have been handed out starting from `n`. */
  function CounterAfter(n: nat, k: nat): (r: nat)
    requires n <= UINT32_MAX
    ensures r <= UINT32_MAX
  {
    if k == 0 then n else NextChannelNumber(CounterAfter(n, k - 1))
  }

  /** Adding one modulo 2^32: the residue moves up by one, or wraps to 0 from UINT32_MAX. */
  lemma ModSucc(a: nat)
    ensures (a + 1) % (UINT32_MAX + 1) == if a % (UINT32_MAX + 1) == UINT32_MAX then 0 else a % (UINT32_MAX + 1) + 1
  {
  }

  /** Handing out `k` numbers moves the counter by `k` modulo 2^32. */
  lemma {:induction false} CounterIsModular(n: nat, k: nat)
    requires n <= UINT32_MAX
    ensures CounterAfter(n, k) == (n + k) % (UINT32_MAX + 1)
  {
    if k > 0 {
      CounterIsModular(n, k - 1);
      ModSucc(n + k - 1);
    }
  }

  /** Within one period the counter just counts up from `n`, wrapping once past UINT32_MAX. */
  lemma {:induction false} CounterWithinPeriod(n: nat, k: nat)
    requires n <= UINT32_MAX && k <= UINT32_MAX + 1
    ensures CounterAfter(n, k) == if n + k <= UINT32_MAX then n + k else n + k - (UINT32_MAX + 1)
  {
    if k > 0 {
      CounterWithinPeriod(n, k - 1);
    }
  }

  /** No channel number is handed out twice within 2^32 calls, and after 2^32 calls the counter is back where it started. */
  lemma ChannelNumbersDistinct(n: nat, i: nat, j: nat)
    requires n <= UINT32_MAX && i < j <= UINT32_MAX
    ensures CounterAfter(n, i) != CounterAfter(n, j)
    ensures CounterAfter(n, UINT32_MAX + 1) == n
  {
    CounterWithinPeriod(n, i);
    CounterWithinPeriod(n, j);
    CounterWithinPeriod(n, UINT32_MAX + 1);
  }

  // ---------------------------------------------------------------------------
  // Profiles

  /** The grammar and SSML media types a profile announces to its server. */
  datatype MimeTypes = MimeTypes(
    jsgf: string, gsl: string, srgsXml: string, srgs: string, ssml: string)

  const DEFAULT_MIME_TYPES: MimeTypes := MimeTypes(
    "application/x-jsgf", "application/x-nuance-gsl", "application/srgs+xml",
    "application/srgs", "application/ssml+xml")

  /** True iff `p` equals one of `keys` ignoring case. */
  predicate MatchesAny(p: string, keys: seq<string>) {
    exists i :: 0 <= i < |keys| && EqualsIgnoreCase(p, keys[i])
  }

  const PROFILE_KEYS: seq<string> := ["version", "jsgf-mime-type", "gsl-mime-type",
    "srgs-xml-mime-type", "srgs-mime-type", "ssml-mime-type"]

  const RTP_KEYS: seq<string> := ["rtp-ip", "rtp-ext-ip", "rtp-port-min", "rtp-port-max",
    "playout-delay", "min-playout-delay", "max-playout-delay", "codecs", "ptime", "rtcp",
    "rtcp-bye", "rtcp-tx-interval", "rtcp-rx-resolution"]

  const MRCPV1_KEYS: seq<string> := ["server-ip", "server-port", "resource-location",
    "sdp-origin", "max-connection-count", "force-destination", "speechsynth", "speechrecog"]

  const MRCPV2_KEYS: seq<string> := ["client-ip", "client-ext-ip", "client-port", "server-ip",
    "server-port", "server-username", "force-destination", "sip-transport", "ua-name",
    "sdp-origin", "sip-t1", "sip-t2", "sip-t4", "sip-t1x64", "sip-timer-c"]

  /**
   * `process_profile_config` on a present profile: "version" is claimed and
   * ignored, each MIME key overwrites exactly its own field, anything else is
   * not claimed and changes nothing.
   */
  function ProcessProfileConfig(m: MimeTypes, param: string, val: string): (r: (bool, MimeTypes))
    ensures r.0 <==> MatchesAny(param, PROFILE_KEYS)
    ensures !r.0 || EqualsIgnoreCase(param, "version") ==> r.1 == m
    ensures EqualsIgnoreCase(param, "jsgf-mime-type") ==> r.1 == m.(jsgf := val)
    ensures EqualsIgnoreCase(param, "gsl-mime-type") ==> r.1 == m.(gsl := val)
    ensures EqualsIgnoreCase(param, "srgs-xml-mime-type") ==> r.1 == m.(srgsXml := val)
    ensures EqualsIgnoreCase(param, "srgs-mime-type") ==> r.1 == m.(srgs := val)
    ensures EqualsIgnoreCase(param, "ssml-mime-type") ==> r.1 == m.(ssml := val)
  {
    if EqualsIgnoreCase(param, "version") then
      assert EqualsIgnoreCase(param, PROFILE_KEYS[0]);
      (true, m)
    else if EqualsIgnoreCase(param, "jsgf-mime-type") then
      assert Lower(param[0]) == 'j' && EqualsIgnoreCase(param, PROFILE_KEYS[1]);
      (true, m.(jsgf := val))
    else if EqualsIgnoreCase(param, "gsl-mime-type") then
      assert EqualsIgnoreCase(param, PROFILE_KEYS[2]);
      (true, m.(gsl := val))
    else if EqualsIgnoreCase(param, "srgs-xml-mime-type") then
      assert EqualsIgnoreCase(param, PROFILE_KEYS[3]);
      (true, m.(srgsXml := val))
    else if EqualsIgnoreCase(param, "srgs-mime-type") then
      assert Lower(param[1]) == 'r' && EqualsIgnoreCase(param, PROFILE_KEYS[4]);
      (true, m.(srgs := val))
    else if EqualsIgnoreCase(param, "ssml-mime-type") then
      assert EqualsIgnoreCase(param, PROFILE_KEYS[5]);
      (true, m.(ssml := val))
    else
      assert !MatchesAny(param, PROFILE_KEYS) by {
        forall i | 0 <= i < |PROFILE_KEYS| ensures !EqualsIgnoreCase(param, PROFILE_KEYS[i]) {
        }
      }
      (false, m)
  }

  /**
   * Whether one of the three dispatchers of `load_profiles` claims a
   * parameter of a profile of the given MRCP version, with the profile record
   * itself handed to `process_profile_config`.
   */
  predicate Claimed(version: string, param: string) {
    (if version == "1" then MatchesAny(param, MRCPV1_KEYS) else MatchesAny(param, MRCPV2_KEYS))
    || MatchesAny(param, RTP_KEYS)
    || MatchesAny(param, PROFILE_KEYS)
  }

  /**
   * The parameter loop of `load_profiles` with the profile record handed to
   * `process_profile_config`: the resulting MIME types and the parameters
   * reported as unknown, in order.
   */
  function ApplyProfileParams(version: string, m: MimeTypes, params: seq<(string, string)>)
    : (r: (MimeTypes, seq<string>))
    ensures forall i :: 0 <= i < |r.1| ==> !Claimed(version, r.1[i])
    ensures |r.1| <= |params|
    decreases |params|
  {
    if params == [] then (m, [])
    else
      var (name, val) := params[0];
      var v := if version == "1" then MatchesAny(name, MRCPV1_KEYS) else MatchesAny(name, MRCPV2_KEYS);
      var rtp := MatchesAny(name, RTP_KEYS);
      var m1 := if v || rtp then m else ProcessProfileConfig(m, name, val).1;
      var (m2, unknown) := ApplyProfileParams(version, m1, params[1..]);
      if Claimed(version, name) then (m2, unknown) else (m2, [name] + unknown)
  }

  /**
   * The same loop as `load_profiles` is written: the profile argument it
   * passes to `process_profile_config` is a local that is never assigned, and
   * that function claims every key when its profile is missing.
   */
  function ApplyProfileParamsAsWritten(version: string, m: MimeTypes, params: seq<(string, string)>)
    : (r: (MimeTypes, seq<string>))
    decreases |params|
  {
    if params == [] then (m, [])
    else
      var name := params[0].0;
      var v := if version == "1" then MatchesAny(name, MRCPV1_KEYS) else MatchesAny(name, MRCPV2_KEYS);
      var rtp := MatchesAny(name, RTP_KEYS);
      var missingProfileClaims := true;
      var (m2, unknown) := ApplyProfileParamsAsWritten(version, m, params[1..]);
      if v || rtp || missingProfileClaims then (m2, unknown) else (m2, [name] + unknown)
  }

  /** As written, no parameter is ever reported unknown and no MIME override ever reaches the profile. */
  lemma {:induction false} AsWrittenIgnoresProfileParams(version: string, m: MimeTypes, params: seq<(string, string)>)
    ensures ApplyProfileParamsAsWritten(version, m, params) == (m, [])
    decreases |params|
  {
    if params != [] {
      AsWrittenIgnoresProfileParams(version, m, params[1..]);
    }
  }

  /** With the profile handed over, a MIME override takes effect and a misspelt key is reported. */
  lemma ProfileParamsTakeEffect()
    ensures ApplyProfileParams("2", DEFAULT_MIME_TYPES, [("jsgf-mime-type", "application/jsgf")]).0.jsgf
      == "application/jsgf"
    ensures ApplyProfileParamsAsWritten("2", DEFAULT_MIME_TYPES, [("jsgf-mime-type", "application/jsgf")]).0.jsgf
      == "application/x-jsgf"
    ensures ApplyProfileParams("2", DEFAULT_MIME_TYPES, [("jsgf-mime-typ", "x")]).1 == ["jsgf-mime-typ"]
    ensures ApplyProfileParamsAsWritten("2", DEFAULT_MIME_TYPES, [("jsgf-mime-typ", "x")]).1 == []
  {
    assert EqualsIgnoreCase("jsgf-mime-type", "jsgf-mime-type");
    AsWrittenIgnoresProfileParams("2", DEFAULT_MIME_TYPES, [("jsgf-mime-type", "application/jsgf")]);
    AsWrittenIgnoresProfileParams("2", DEFAULT_MIME_TYPES, [("jsgf-mime-typ", "x")]);
    NotClaimed("2", "jsgf-mime-typ");
  }

  /** "jsgf-mime-typ" (a misspelling) is claimed by none of the dispatchers. */
  lemma NotClaimed(version: string, p: string)
    requires version == "2" && p == "jsgf-mime-typ"
    ensures !Claimed(version, p)
  {
    forall i | 0 <= i < |MRCPV2_KEYS| ensures !EqualsIgnoreCase(p, MRCPV2_KEYS[i]) {
      assert |p| != |MRCPV2_KEYS[i]| || Lower(p[0]) != Lower(MRCPV2_KEYS[i][0]);
    }
    forall i | 0 <= i < |RTP_KEYS| ensures !EqualsIgnoreCase(p, RTP_KEYS[i]) {
      assert |p| != |RTP_KEYS[i]| || Lower(p[0]) != Lower(RTP_KEYS[i][0]);
    }
    forall i | 0 <= i < |PROFILE_KEYS| ensures !EqualsIgnoreCase(p, PROFILE_KEYS[i]) {
      assert |p| != |PROFILE_KEYS[i]| || Lower(p[0]) != Lower(PROFILE_KEYS[i][0]);
    }
  }

  /** The parameters of a profile, in the order in which its configuration table is walked. */
  function Pairs(keys: seq<string>, cfg: map<string, string>): (r: seq<(string, string)>)
    requires forall i :: 0 <= i < |keys| ==> keys[i] in cfg
    ensures |r| == |keys|
    ensures forall i :: 0 <= i < |keys| ==> r[i] == (keys[i], cfg[keys[i]])
  {
    if keys == [] then [] else [(keys[0], cfg[keys[0]])] + Pairs(keys[1..], cfg)
  }

  /**
   * One parameter of the `load_profiles` loop: the MIME types after the
   * dispatch, and the unknown list grown by the name when nobody claims it.
   */
  function ProfileStep(version: string, st: (MimeTypes, seq<string>), name: string, val: string)
    : (r: (MimeTypes, seq<string>))
    ensures Claimed(version, name) <==> r.1 == st.1
    ensures !Claimed(version, name) ==> r.1 == st.1 + [name]
  {
    var v := if version == "1" then MatchesAny(name, MRCPV1_KEYS) else MatchesAny(name, MRCPV2_KEYS);
    var m2 := if v || MatchesAny(name, RTP_KEYS) then st.0 else ProcessProfileConfig(st.0, name, val).1;
    (m2, if Claimed(version, name) then st.1 else st.1 + [name])
  }

  /** Walking one more parameter is one more step. */
  lemma {:induction false} ApplyProfileParamsSnoc(version: string, m: MimeTypes, params: seq<(string, string)>,
                                                   name: string, val: string)
    ensures ApplyProfileParams(version, m, params + [(name, val)])
      == ProfileStep(version, ApplyProfileParams(version, m, params), name, val)
    decreases |params|
  {
    var x := (name, val);
    if params == [] {
      assert params + [x] == [x];
      assert [x][0] == x && [x][1..] == [];
      assert [name] + [] == [] + [name];
    } else {
      var (n0, v0) := params[0];
      var v := if version == "1" then MatchesAny(n0, MRCPV1_KEYS) else MatchesAny(n0, MRCPV2_KEYS);
      var m1 := if v || MatchesAny(n0, RTP_KEYS) then m else ProcessProfileConfig(m, n0, v0).1;
      assert (params + [x])[0] == params[0];
      assert (params + [x])[1..] == params[1..] + [x];
      ApplyProfileParamsSnoc(version, m1, params[1..], name, val);
      var (mA, uA) := ApplyProfileParams(version, m1, params[1..]);
      var (mB, uB) := ApplyProfileParams(version, m1, params[1..] + [x]);
      assert ApplyProfileParams(version, m, params) == (mA, if Claimed(version, n0) then uA else [n0] + uA);
      assert ApplyProfileParams(version, m, params + [x]) == (mB, if Claimed(version, n0) then uB else [n0] + uB);
      if !Claimed(version, name) {
        assert [n0] + (uA + [name]) == ([n0] + uA) + [name];
      }
    }
  }

  /** Walking the first `i + 1` keys of a configuration table is walking the first `i` and then key `i`. */
  lemma PairsStep(version: string, m: MimeTypes, keys: seq<string>, cfg: map<string, string>, i: nat)
    requires i < |keys| && forall k :: k in keys ==> k in cfg
    ensures ApplyProfileParams(version, m, Pairs(keys[..i + 1], cfg))
      == ProfileStep(version, ApplyProfileParams(version, m, Pairs(keys[..i], cfg)), keys[i], cfg[keys[i]])
  {
    assert Pairs(keys[..i + 1], cfg) == Pairs(keys[..i], cfg) + [(keys[i], cfg[keys[i]])];
    ApplyProfileParamsSnoc(version, m, Pairs(keys[..i], cfg), keys[i], cfg[keys[i]]);
  }

  /** The value of the last parameter whose name is `key` ignoring case, or `dflt` when no parameter names it. */
  function LastSetting(params: seq<(string, string)>, key: string, dflt: string): string
    decreases |params|
  {
    if params == [] then dflt
    else if EqualsIgnoreCase(params[|params| - 1].0, key) then params[|params| - 1].1
    else LastSetting(params[..|params| - 1], key, dflt)
  }

  /** The MIME types as one parameter leaves them: the field its name selects, ignoring case, takes its value. */
  function MimeAfter(m: MimeTypes, name: string, val: string): MimeTypes {
    MimeTypes(
      if EqualsIgnoreCase(name, "jsgf-mime-type") then val else m.jsgf,
      if EqualsIgnoreCase(name, "gsl-mime-type") then val else m.gsl,
      if EqualsIgnoreCase(name, "srgs-xml-mime-type") then val else m.srgsXml,
      if EqualsIgnoreCase(name, "srgs-mime-type") then val else m.srgs,
      if EqualsIgnoreCase(name, "ssml-mime-type") then val else m.ssml)
  }

  /** A name equal to `k` ignoring case that one of `keys` matches makes `k` match it too. */
  lemma MatchesAnyFolded(name: string, k: string, keys: seq<string>)
    requires EqualsIgnoreCase(name, k) && MatchesAny(name, keys)
    ensures MatchesAny(k, keys)
  {
    var i :| 0 <= i < |keys| && EqualsIgnoreCase(name, keys[i]);
    assert EqualsIgnoreCase(k, keys[i]);
  }

  /** No MIME key is claimed by the MRCP or the RTP dispatcher. */
  lemma MimeKeyNotTransport(k: string)
    requires k in PROFILE_KEYS[1..]
    ensures !MatchesAny(k, MRCPV1_KEYS) && !MatchesAny(k, MRCPV2_KEYS) && !MatchesAny(k, RTP_KEYS)
  {
    forall i | 0 <= i < |MRCPV1_KEYS| ensures !EqualsIgnoreCase(k, MRCPV1_KEYS[i]) {
      assert |k| != |MRCPV1_KEYS[i]|;
    }
    forall i | 0 <= i < |MRCPV2_KEYS| ensures !EqualsIgnoreCase(k, MRCPV2_KEYS[i]) {
      assert |k| != |MRCPV2_KEYS[i]| || Lower(k[0]) != Lower(MRCPV2_KEYS[i][0]);
    }
    forall i | 0 <= i < |RTP_KEYS| ensures !EqualsIgnoreCase(k, RTP_KEYS[i]) {
      assert |k| != |RTP_KEYS[i]| || Lower(k[0]) != Lower(RTP_KEYS[i][0]);
    }
  }

  /** A name equal to a MIME key ignoring case is claimed by neither the MRCP nor the RTP dispatcher. */
  lemma FoldedMimeKeyNotTransport(name: string, k: string)
    requires k in PROFILE_KEYS[1..] && EqualsIgnoreCase(name, k)
    ensures !MatchesAny(name, MRCPV1_KEYS) && !MatchesAny(name, MRCPV2_KEYS) && !MatchesAny(name, RTP_KEYS)
  {
    MimeKeyNotTransport(k);
    if MatchesAny(name, MRCPV1_KEYS) {
      MatchesAnyFolded(name, k, MRCPV1_KEYS);
    }
    if MatchesAny(name, MRCPV2_KEYS) {
      MatchesAnyFolded(name, k, MRCPV2_KEYS);
    }
    if MatchesAny(name, RTP_KEYS) {
      MatchesAnyFolded(name, k, RTP_KEYS);
    }
  }

  /** A name equals at most one MIME key ignoring case. */
  lemma MimeKeysApart(name: string)
    ensures EqualsIgnoreCase(name, "jsgf-mime-type") ==>
      !EqualsIgnoreCase(name, "gsl-mime-type") && !EqualsIgnoreCase(name, "srgs-xml-mime-type") &&
      !EqualsIgnoreCase(name, "srgs-mime-type") && !EqualsIgnoreCase(name, "ssml-mime-type")
    ensures EqualsIgnoreCase(name, "srgs-mime-type") ==>
      !EqualsIgnoreCase(name, "gsl-mime-type") && !EqualsIgnoreCase(name, "srgs-xml-mime-type") &&
      !EqualsIgnoreCase(name, "ssml-mime-type")
    ensures EqualsIgnoreCase(name, "ssml-mime-type") ==>
      !EqualsIgnoreCase(name, "gsl-mime-type") && !EqualsIgnoreCase(name, "srgs-xml-mime-type")
  {
    if |name| == 14 {
      assert Lower(name[0]) == 'j' ==> Lower(name[0]) != Lower("srgs-mime-type"[0]);
      assert Lower(name[1]) == 'r' ==> Lower(name[1]) != Lower("ssml-mime-type"[1]);
    }
  }

  /** A name that selects no MIME field is claimed elsewhere, is "version", or is unknown: the MIME types stay. */
  lemma OtherParamKeepsMimes(version: string, st: (MimeTypes, seq<string>), name: string, val: string)
    requires !EqualsIgnoreCase(name, "jsgf-mime-type") && !EqualsIgnoreCase(name, "gsl-mime-type")
    requires !EqualsIgnoreCase(name, "srgs-xml-mime-type") && !EqualsIgnoreCase(name, "srgs-mime-type")
    requires !EqualsIgnoreCase(name, "ssml-mime-type")
    ensures ProfileStep(version, st, name, val).0 == st.0
  {
    var r := ProcessProfileConfig(st.0, name, val);
    if r.0 {
      var i :| 0 <= i < |PROFILE_KEYS| && EqualsIgnoreCase(name, PROFILE_KEYS[i]);
      assert i == 0;
    }
  }

  /** One step of the corrected loop changes exactly the MIME field its name selects. */
  lemma MimeStep(version: string, st: (MimeTypes, seq<string>), name: string, val: string)
    ensures ProfileStep(version, st, name, val).0 == MimeAfter(st.0, name, val)
  {
    MimeKeysApart(name);
    if EqualsIgnoreCase(name, "jsgf-mime-type") {
      FoldedMimeKeyNotTransport(name, PROFILE_KEYS[1]);
    } else if EqualsIgnoreCase(name, "gsl-mime-type") {
      FoldedMimeKeyNotTransport(name, PROFILE_KEYS[2]);
    } else if EqualsIgnoreCase(name, "srgs-xml-mime-type") {
      FoldedMimeKeyNotTransport(name, PROFILE_KEYS[3]);
    } else if EqualsIgnoreCase(name, "srgs-mime-type") {
      FoldedMimeKeyNotTransport(name, PROFILE_KEYS[4]);
    } else if EqualsIgnoreCase(name, "ssml-mime-type") {
      FoldedMimeKeyNotTransport(name, PROFILE_KEYS[5]);
    } else {
      OtherParamKeepsMimes(version, st, name, val);
    }
  }

  /**
   * With the profile handed over, each MIME type is the value of the last
   * parameter whose name is its key ignoring case, and the given one when
   * no parameter names it.
   */
  lemma {:induction false} ProfileParamsSetMimes(version: string, m: MimeTypes, params: seq<(string, string)>)
    ensures ApplyProfileParams(version, m, params).0 == MimeTypes(
      LastSetting(params, "jsgf-mime-type", m.jsgf), LastSetting(params, "gsl-mime-type", m.gsl),
      LastSetting(params, "srgs-xml-mime-type", m.srgsXml), LastSetting(params, "srgs-mime-type", m.srgs),
      LastSetting(params, "ssml-mime-type", m.ssml))
    decreases |params|
  {
    if params != [] {
      var init := params[..|params| - 1];
      var (name, val) := params[|params| - 1];
      assert params == init + [(name, val)];
      ApplyProfileParamsSnoc(version, m, init, name, val);
      ProfileParamsSetMimes(version, m, init);
      MimeStep(version, ApplyProfileParams(version, m, init), name, val);
    }
  }

  /** With the profile handed over, a name is reported as unknown exactly when some parameter has it and no dispatcher claims it. */
  lemma {:induction false} ReportedIffUnclaimed(version: string, m: MimeTypes, params: seq<(string, string)>, p: string)
    ensures p in ApplyProfileParams(version, m, params).1 <==>
      !Claimed(version, p) && exists i :: 0 <= i < |params| && params[i].0 == p
    decreases |params|
  {
    if params != [] {
      var (n0, v0) := params[0];
      var v := if version == "1" then MatchesAny(n0, MRCPV1_KEYS) else MatchesAny(n0, MRCPV2_KEYS);
      var m1 := if v || MatchesAny(n0, RTP_KEYS) then m else ProcessProfileConfig(m, n0, v0).1;
      var rest := params[1..];
      ReportedIffUnclaimed(version, m1, rest, p);
      var u := ApplyProfileParams(version, m1, rest).1;
      assert ApplyProfileParams(version, m, params).1 == if Claimed(version, n0) then u else [n0] + u;
      if exists i :: 0 <= i < |params| && params[i].0 == p {
        var i :| 0 <= i < |params| && params[i].0 == p;
        if i > 0 {
          assert rest[i - 1].0 == p;
        }
      }
      if exists j :: 0 <= j < |rest| && rest[j].0 == p {
        var j :| 0 <= j < |rest| && rest[j].0 == p;
        assert params[j + 1].0 == p;
      }
    }
  }

  /** The checks of `load_profiles` that a profile passes: a name, a version of exactly "1" or "2", no empty parameter name. */
  predicate ProfileLoadable(name: string, version: string, cfg: map<string, string>) {
    |name| > 0 && |version| > 0 && (version == "1" || version == "2") && "" !in cfg
  }

  // ---------------------------------------------------------------------------
  // Connection-agent defaults of mod_unimrcp_client_create

  /**
   * max-connection-count as the source computes it: `atoi` of the setting
   * (0 when unset or empty) stored in an unsigned apr_size_t, replaced by the
   * default only when that unsigned value is 0.
   */
  function MaxConnectionCountAsWritten(value: Option<string>): nat {
    var parsed := if value.Some? && |value.value| > 0 then Atoi(value.value) else 0;
    var stored := parsed % SIZE_T_MODULUS;
    if stored <= 0 then DEFAULT_MAX_CONNECTION_COUNT else stored
  }

  /** A negative setting is not replaced by the default: it wraps to a huge count. */
  lemma NegativeCountWraps()
    ensures MaxConnectionCountAsWritten(Some("-5")) == SIZE_T_MODULUS - 5
  {
    assert Atoi("-5") == -5 by {
      assert SpacePrefix("-5") == 0;
      assert "-5"[0..] == "-5" && "-5"[1..] == "5";
      assert DigitPrefix("5") == 1 && "5"[..1] == "5";
      assert "5"[..0] == [];
    }
  }

  /** max-connection-count as evidently intended: the parsed value if positive, else 120. */
  function MaxConnectionCount(value: Option<string>): (r: nat)
    ensures r > 0
    ensures value.Some? && |value.value| > 0 && Atoi(value.value) > 0 ==> r == Atoi(value.value)
    ensures !(value.Some? && |value.value| > 0 && Atoi(value.value) > 0) ==> r == DEFAULT_MAX_CONNECTION_COUNT
  {
    var parsed := if value.Some? && |value.value| > 0 then Atoi(value.value) else 0;
    if parsed <= 0 then DEFAULT_MAX_CONNECTION_COUNT else parsed
  }

  /** Both readings agree on every setting that does not parse to a negative number. */
  lemma MaxConnectionCountAgrees(value: Option<string>)
    requires value.Some? && |value.value| > 0 ==> 0 <= Atoi(value.value) < SIZE_T_MODULUS
    ensures MaxConnectionCountAsWritten(value) == MaxConnectionCount(value)
  {
    var parsed := if value.Some? && |value.value| > 0 then Atoi(value.value) else 0;
    SmallSizeUnchanged(parsed);
  }

  /** A value that fits apr_size_t is stored unchanged. */
  lemma SmallSizeUnchanged(x: int)
    requires 0 <= x < SIZE_T_MODULUS
    ensures x % SIZE_T_MODULUS == x
  {
  }

  /** offer-new-connection: on by default; when set, on iff "true" (any case) or a number parsing to 1. */
  function OfferNewConnection(value: Option<string>): (r: bool)
    ensures value.None? ==> r == DEFAULT_OFFER_NEW_CONNECTION
    ensures value.Some? ==> (r <==> EqualsIgnoreCase(value.value, "true") || Atoi(value.value) == 1)
  {
    match value
    case None => DEFAULT_OFFER_NEW_CONNECTION
    case Some(v) => EqualsIgnoreCase(v, "true") || Atoi(v) == 1
  }

  // ---------------------------------------------------------------------------
  // Profile lookup

  /** The profile name an application option selects: no option or "default" (any case) selects the configured default. */
  function SelectedProfileName(option: Option<string>, defaultName: string): (r: string)
    ensures option.None? ==> r == defaultName
    ensures option.Some? ==> r == (if EqualsIgnoreCase(option.value, "default") then defaultName else option.value)
  {
    if option.Some? && !EqualsIgnoreCase(option.value, "default") then option.value else defaultName
  }

  /** `get_synth_profile` / `get_recog_profile`: look the selected name up in the profile table. */
  function LookupProfile(profiles: map<string, Profile>, option: Option<string>, defaultName: string)
    : (r: Option<Profile>)
    ensures r.Some? <==> SelectedProfileName(option, defaultName) in profiles
    ensures r.Some? ==> r.value == profiles[SelectedProfileName(option, defaultName)]
  {
    var name := SelectedProfileName(option, defaultName);
    if name in profiles then Some(profiles[name]) else None
  }

  /** "default" in any spelling is the same as giving no profile option at all. */
  lemma DefaultOptionSelectsDefault(profiles: map<string, Profile>, option: string, defaultName: string)
    requires EqualsIgnoreCase(option, "DEFAULT")
    ensures LookupProfile(profiles, Some(option), defaultName) == LookupProfile(profiles, None, defaultName)
  {
    assert EqualsIgnoreCase(option, "default") by {
      forall i | 0 <= i < |option| ensures Lower(option[i]) == Lower("default"[i]) {
        assert Lower("DEFAULT"[i]) == Lower("default"[i]);
      }
    }
  }

  // ---------------------------------------------------------------------------
  // Profile records (ast_mrcp_profile_t)

  class Profile {
    var name: string
    var version: string
    var mimes: MimeTypes
    var cfg: map<string, string>

    constructor (name: string, version: string)
      ensures this.name == name && this.version == version
      ensures mimes == DEFAULT_MIME_TYPES && cfg == map[]
    {
      this.name := name;
      this.version := version;
      mimes := DEFAULT_MIME_TYPES;
      cfg := map[];
    }

    /** `profile_create`: fails without a name or a version; a new profile carries the five default MIME types. */
    static method Create(name: Option<string>, version: Option<string>) returns (res: int, p: Profile?)
      ensures res == 0 <==> name.Some? && version.Some?
      ensures res != 0 ==> res == -1 && p == null
      ensures res == 0 ==> (p != null && fresh(p) && p.name == name.value && p.version == version.value
                            && p.mimes == DEFAULT_MIME_TYPES && p.cfg == map[])
    {
      if name.Some? && version.Some? {
        p := new Profile(name.value, version.value);
        res := 0;
      } else {
        p := null;
        res := -1;
      }
    }

    /** `process_profile_config` on this profile. */
    method ProcessConfig(param: string, val: string) returns (mine: bool)
      modifies this`mimes
      ensures (mine, mimes) == ProcessProfileConfig(old(mimes), param, val)
    {
      var r := ProcessProfileConfig(mimes, param, val);
      mine := r.0;
      mimes := r.1;
    }

    /**
     * One turn of the `load_profiles` loop on this profile, for the `i`-th
     * key of the walk: the MRCP and RTP dispatchers first, then
     * `process_profile_config` with this profile, and the name added to
     * `unknown` when none of them claims it.
     */
    method LoadParam(ghost m0: MimeTypes, keys: seq<string>, i: nat, unknown: seq<string>) returns (unknown': seq<string>)
      requires i < |keys| && forall k :: k in keys ==> k in cfg
      requires (mimes, unknown) == ApplyProfileParams(version, m0, Pairs(keys[..i], cfg))
      modifies this`mimes
      ensures (mimes, unknown') == ApplyProfileParams(version, m0, Pairs(keys[..i + 1], cfg))
    {
      PairsStep(version, m0, keys, cfg, i);
      var k := keys[i];
      unknown' := unknown;
      var v := if version == "1" then MatchesAny(k, MRCPV1_KEYS) else MatchesAny(k, MRCPV2_KEYS);
      if !v && !MatchesAny(k, RTP_KEYS) {
        var mine := ProcessConfig(k, cfg[k]);
        if !mine {
          unknown' := unknown + [k];
        }
      }
    }

    /**
     * The body of the `load_profiles` loop for this profile, registered under
     * `key`, walking its parameters in the order `keys`: the name, version and
     * parameter-name checks, and the per-parameter dispatch with this profile
     * handed to `process_profile_config`. Returns the status and the
     * parameters reported as unknown.
     */
    method Load(key: string, keys: seq<string>) returns (status: int, unknown: seq<string>)
      requires forall k :: k in cfg <==> k in keys
      modifies this`mimes
      ensures status == 0 || status == -1
      ensures status == 0 <==> ProfileLoadable(key, version, cfg)
      ensures status == 0 ==> (mimes, unknown) == ApplyProfileParams(version, old(mimes), Pairs(keys, cfg))
    {
      unknown := [];
      if |key| == 0 || |version| == 0 {
        return -1, unknown;
      }
      if version != "1" && version != "2" {
        return -1, unknown;
      }
      var i := 0;
      while i < |keys|
        invariant 0 <= i <= |keys|
        invariant "" !in keys[..i]
        invariant (mimes, unknown) == ApplyProfileParams(version, old(mimes), Pairs(keys[..i], cfg))
      {
        var k := keys[i];
        if |k| == 0 {
          assert "" in cfg by { assert keys[i] in keys; }
          return -1, unknown;
        }
        assert keys[..i + 1] == keys[..i] + [k];
        unknown := LoadParam(old(mimes), keys, i, unknown);
        i := i + 1;
      }
      assert keys[..|keys|] == keys;
      status := 0;
    }
  }

  // ---------------------------------------------------------------------------
  // Module globals (ast_mrcp_globals_t)

  /** An optional setting of the "general" category: its value when present, `current` otherwise. */
  function Setting(g: map<string, string>, key: string, current: Option<string>): (r: Option<string>)
    ensures key in g ==> r == Some(g[key])
    ensures key !in g ==> r == current
  {
    if key in g then Some(g[key]) else current
  }

  /** The same for a setting kept as plain text. */
  function TextSetting(g: map<string, string>, key: string, current: string): (r: string)
    ensures key in g ==> r == g[key]
    ensures key !in g ==> r == current
  {
    if key in g then g[key] else current
  }

  /** The "general" category of mrcp.conf; empty when the file has none. */
  function General(cfg: map<string, map<string, string>>): map<string, string> {
    if "general" in cfg then cfg["general"] else map[]
  }

  /** Every category of mrcp.conf other than "general" (any case) that sets a version describes a profile. */
  predicate IsProfileCategory(cfg: map<string, map<string, string>>, c: string) {
    c in cfg && !EqualsIgnoreCase(c, "general") && "version" in cfg[c]
  }

  /** `p` is the profile built for category `c`: its name, version and variables, and the default MIME types. */
  ghost predicate BuiltFor(cfg: map<string, map<string, string>>, c: string, p: Profile)
    reads p
  {
    IsProfileCategory(cfg, c) && p.name == c && p.version == cfg[c]["version"] &&
    p.cfg == cfg[c] && p.mimes == DEFAULT_MIME_TYPES
  }

  class Globals {
    var speechChannelNumber: nat
    var defaultSynthProfile: Option<string>
    var defaultRecogProfile: Option<string>
    var logLevel: string
    var maxConnectionCount: Option<string>
    var offerNewConnection: Option<string>
    var rxBufferSize: Option<string>
    var txBufferSize: Option<string>
    var requestTimeout: Option<string>
    var profiles: map<string, Profile>

    ghost predicate Valid()
      reads this
    {
      speechChannelNumber <= UINT32_MAX
    }

    /** `globals_init` after `globals_null`: nothing configured, counter at 0, empty profile table. */
    constructor ()
      ensures Valid() && speechChannelNumber == 0 && profiles == map[]
      ensures defaultSynthProfile.None? && defaultRecogProfile.None?
    {
      speechChannelNumber := 0;
      defaultSynthProfile, defaultRecogProfile := None, None;
      logLevel := DEFAULT_LOG_LEVEL;
      maxConnectionCount, offerNewConnection := None, None;
      rxBufferSize, txBufferSize, requestTimeout := None, None, None;
      profiles := map[];
    }

    /** `get_next_speech_channel_number`: hand out the current number and advance the counter, wrapping after UINT32_MAX. */
    method NextSpeechChannelNumber() returns (num: nat)
      requires Valid()
      modifies this`speechChannelNumber
      ensures Valid()
      ensures num == old(speechChannelNumber)
      ensures speechChannelNumber == NextChannelNumber(old(speechChannelNumber))
    {
      num := speechChannelNumber;
      if speechChannelNumber == UINT32_MAX {
        speechChannelNumber := 0;
      } else {
        speechChannelNumber := speechChannelNumber + 1;
      }
    }

    /** `get_synth_profile` */
    function GetSynthProfile(option: Option<string>): (r: Option<Profile>)
      reads this
      requires defaultSynthProfile.Some?
      ensures r == LookupProfile(profiles, option, defaultSynthProfile.value)
    {
      LookupProfile(profiles, option, defaultSynthProfile.value)
    }

    /** `get_recog_profile` */
    function GetRecogProfile(option: Option<string>): (r: Option<Profile>)
      reads this
      requires defaultRecogProfile.Some?
      ensures r == LookupProfile(profiles, option, defaultRecogProfile.value)
    {
      LookupProfile(profiles, option, defaultRecogProfile.value)
    }

    /**
     * `load_profiles`: walk the profile table (in the order `order`, each
     * profile's parameters in the order given beside it) and stop with -1 at
     * the first profile that fails its checks. Each profile is registered
     * under its own name, so the walk meets each profile once. `reports` are
     * the parameter names each walked profile reported as unknown.
     */
    method LoadProfiles(order: seq<string>, keyOrders: seq<seq<string>>) returns (status: int, reports: seq<seq<string>>)
      requires |order| == |keyOrders|
      requires forall i :: 0 <= i < |order| ==> order[i] in profiles
      requires forall i, j :: 0 <= i < j < |order| ==> order[i] != order[j]
      requires forall n :: n in profiles ==> profiles[n].name == n
      requires forall i, k :: 0 <= i < |order| ==> (k in profiles[order[i]].cfg <==> k in keyOrders[i])
      modifies profiles.Values`mimes
      ensures forall n :: n in profiles ==>
        profiles[n].name == old(profiles[n].name) && profiles[n].version == old(profiles[n].version) &&
        profiles[n].cfg == old(profiles[n].cfg)
      ensures status == 0 || status == -1
      ensures status == 0 <==> forall i :: 0 <= i < |order| ==>
        ProfileLoadable(order[i], profiles[order[i]].version, profiles[order[i]].cfg)
      ensures status == 0 ==> |reports| == |order| && forall i :: 0 <= i < |order| ==>
        (profiles[order[i]].mimes, reports[i]) ==
          ApplyProfileParams(old(profiles[order[i]].version), old(profiles[order[i]].mimes),
            Pairs(keyOrders[i], old(profiles[order[i]].cfg)))
      ensures forall n :: n in profiles && n !in order ==> profiles[n].mimes == old(profiles[n].mimes)
    {
      // The profiles the walk meets, each once, and what each is to become.
      var ps: seq<Profile> := [];
      ghost var want: seq<(MimeTypes, seq<string>)> := [];
      var k := 0;
      while k < |order|
        invariant 0 <= k <= |order| && |ps| == k && |want| == k
        invariant forall j :: 0 <= j < k ==> ps[j] == profiles[order[j]]
        invariant forall j :: 0 <= j < k ==>
          want[j] == ApplyProfileParams(old(ps[j].version), old(ps[j].mimes), Pairs(keyOrders[j], old(ps[j].cfg)))
      {
        var q := profiles[order[k]];
        ps := ps + [q];
        want := want + [ApplyProfileParams(q.version, q.mimes, Pairs(keyOrders[k], q.cfg))];
        k := k + 1;
      }
      forall a, b | 0 <= a < b < |ps|
        ensures ps[a] != ps[b]
      {
        assert ps[a].name == order[a] != order[b] == ps[b].name;
      }
      forall n | n in profiles && n !in order
        ensures profiles[n] !in ps
      {
        forall j | 0 <= j < |ps|
          ensures ps[j] != profiles[n]
        {
          assert ps[j].name == order[j] != n == profiles[n].name;
        }
      }
      status, reports := WalkProfiles(order, keyOrders, ps, want);
    }

    /**
     * The loop of `load_profiles` over the profiles it meets (`ps`, each
     * registered under the name beside it in `order`); `want` is what each
     * of them is to become: its MIME types and the names it reports.
     */
    method WalkProfiles(order: seq<string>, keyOrders: seq<seq<string>>, ps: seq<Profile>,
                        ghost want: seq<(MimeTypes, seq<string>)>)
      returns (status: int, reports: seq<seq<string>>)
      requires |order| == |keyOrders| == |ps| == |want|
      requires forall a, b :: 0 <= a < b < |ps| ==> ps[a] != ps[b]
      requires forall j, k :: 0 <= j < |ps| ==> (k in ps[j].cfg <==> k in keyOrders[j])
      requires forall j {:trigger keyOrders[j]} :: 0 <= j < |ps| ==>
        want[j] == ApplyProfileParams(ps[j].version, ps[j].mimes, Pairs(keyOrders[j], ps[j].cfg))
      modifies (set p | p in ps)`mimes
      ensures status == 0 || status == -1
      ensures status == 0 <==> forall j :: 0 <= j < |ps| ==> ProfileLoadable(order[j], ps[j].version, ps[j].cfg)
      ensures status == 0 ==>
        |reports| == |ps| && forall j :: 0 <= j < |ps| ==> ps[j].mimes == want[j].0 && reports[j] == want[j].1
    {
      reports := [];
      var i := 0;
      while i < |ps|
        invariant 0 <= i <= |ps| && |reports| == i
        invariant forall j :: 0 <= j < i ==> ps[j].mimes == want[j].0 && reports[j] == want[j].1
        invariant forall j :: i <= j < |ps| ==> ps[j].mimes == old(ps[j].mimes)
        invariant forall j :: 0 <= j < i ==> ProfileLoadable(order[j], ps[j].version, ps[j].cfg)
      {
        var p := ps[i];
        var st, unknown := p.Load(order[i], keyOrders[i]);
        if st != 0 {
          return -1, reports;
        }
        reports := reports + [unknown];
        i := i + 1;
      }
      status := 0;
    }

    /**
     * `load_mrcp_config` over the parsed configuration (`file` is None when
     * it could not be loaded), its categories walked in the order `cats`.
     */
    method LoadMrcpConfig(file: Option<map<string, map<string, string>>>, cats: seq<string>) returns (status: int)
      requires file.Some? ==> forall c :: c in file.value <==> c in cats
      modifies this
      ensures status == 0 || status == -1
      ensures file.None? ==> status == -1 && profiles == old(profiles)
      ensures file.Some? ==> Valid() && speechChannelNumber == 0
      ensures file.Some? ==>
        (status == 0 <==> "default-tts-profile" in General(file.value) && "default-asr-profile" in General(file.value))
      ensures status == 0 ==>
        file.Some? && GeneralLoaded(General(file.value), old(rxBufferSize), old(txBufferSize), old(requestTimeout))
      ensures file.Some? && status == -1 ==> profiles == map[]
      ensures status == 0 ==> file.Some? && ProfilesLoaded(file.value)
    {
      if file.None? {
        return -1;
      }
      var cfg := file.value;
      // globals_clear and globals_default
      profiles := map[];
      maxConnectionCount, offerNewConnection := None, None;
      logLevel := DEFAULT_LOG_LEVEL;
      speechChannelNumber := 0;
      status := LoadGeneral(General(cfg));
      if status == 0 {
        CreateProfiles(cfg, cats);
      }
    }

    /** The "general" settings in place: the two default profiles, the log level and the client settings. */
    ghost predicate GeneralLoaded(g: map<string, string>, rx: Option<string>, tx: Option<string>, rt: Option<string>)
      reads this`defaultSynthProfile, this`defaultRecogProfile, this`logLevel, this`maxConnectionCount,
        this`offerNewConnection, this`rxBufferSize, this`txBufferSize, this`requestTimeout
      requires "default-tts-profile" in g && "default-asr-profile" in g
    {
      defaultSynthProfile == Some(g["default-tts-profile"]) &&
      defaultRecogProfile == Some(g["default-asr-profile"]) &&
      logLevel == TextSetting(g, "log-level", DEFAULT_LOG_LEVEL) &&
      maxConnectionCount == Setting(g, "max-connection-count", None) &&
      offerNewConnection == Setting(g, "offer-new-connection", None) &&
      rxBufferSize == Setting(g, "rx-buffer-size", rx) &&
      txBufferSize == Setting(g, "tx-buffer-size", tx) &&
      requestTimeout == Setting(g, "request-timeout", rt)
    }

    /** Exactly the profile categories became profiles, each holding all of its variables and the default MIME types. */
    ghost predicate ProfilesLoaded(cfg: map<string, map<string, string>>)
      reads this`profiles, set c | c in profiles :: profiles[c]
    {
      (forall c :: c in profiles <==> IsProfileCategory(cfg, c)) &&
      (forall c :: c in profiles ==> BuiltFor(cfg, c, profiles[c]))
    }

    /** The "general" part of `load_mrcp_config`: both default profiles are mandatory. */
    method LoadGeneral(g: map<string, string>) returns (status: int)
      modifies this`defaultSynthProfile, this`defaultRecogProfile, this`logLevel, this`maxConnectionCount,
        this`offerNewConnection, this`rxBufferSize, this`txBufferSize, this`requestTimeout
      requires maxConnectionCount.None? && offerNewConnection.None? && logLevel == DEFAULT_LOG_LEVEL
      ensures status == 0 || status == -1
      ensures status == 0 <==> "default-tts-profile" in g && "default-asr-profile" in g
      ensures status == 0 ==> GeneralLoaded(g, old(rxBufferSize), old(txBufferSize), old(requestTimeout))
    {
      if "default-tts-profile" !in g {
        return -1;
      }
      defaultSynthProfile := Some(g["default-tts-profile"]);
      if "default-asr-profile" !in g {
        return -1;
      }
      defaultRecogProfile := Some(g["default-asr-profile"]);
      // Each optional setting replaces the current value only when present.
      logLevel := TextSetting(g, "log-level", logLevel);
      maxConnectionCount := Setting(g, "max-connection-count", maxConnectionCount);
      offerNewConnection := Setting(g, "offer-new-connection", offerNewConnection);
      rxBufferSize := Setting(g, "rx-buffer-size", rxBufferSize);
      txBufferSize := Setting(g, "tx-buffer-size", txBufferSize);
      requestTimeout := Setting(g, "request-timeout", requestTimeout);
      status := 0;
    }

    /** `profile_create` for category `c`, its variables copied into the new profile, and the profile registered under `c`. */
    method AddProfile(cfg: map<string, map<string, string>>, c: string)
      requires IsProfileCategory(cfg, c)
      modifies this`profiles
      ensures profiles.Keys == old(profiles).Keys + {c}
      ensures forall n :: n in old(profiles) && n != c ==> profiles[n] == old(profiles)[n]
      ensures fresh(profiles[c]) && BuiltFor(cfg, c, profiles[c])
    {
      var res, p := Profile.Create(Some(c), Some(cfg[c]["version"]));
      p.cfg := cfg[c];
      profiles := profiles[c := p];
    }

    /** The category loop of `load_mrcp_config`: one new profile per profile category. */
    method CreateProfiles(cfg: map<string, map<string, string>>, cats: seq<string>)
      requires forall c :: c in cfg <==> c in cats
      requires profiles == map[]
      modifies this`profiles
      ensures ProfilesLoaded(cfg)
      ensures forall c :: c in profiles ==> fresh(profiles[c])
    {
      var i := 0;
      while i < |cats|
        invariant 0 <= i <= |cats|
        invariant forall c :: c in profiles <==> c in cats[..i] && IsProfileCategory(cfg, c)
        invariant forall c :: c in profiles ==> fresh(profiles[c]) && BuiltFor(cfg, c, profiles[c])
      {
        var c := cats[i];
        assert cats[..i + 1] == cats[..i] + [c];
        if !EqualsIgnoreCase(c, "general") && "version" in cfg[c] {
          AddProfile(cfg, c);
        }
        i := i + 1;
      }
      assert cats[..|cats|] == cats;
    }
  }
}
