// The MRCP speech channel (app-unimrcp/speech_channel.c): the channel state
// machine and its audio queue, the prefix tests that classify grammars and
// synthesis text, the grammar-type to MIME mapping, the codec helpers and the
// in-place blank trimming of C strings.

module SpeechChannel {
  import opened Text
  import opened AudioQueue
  import opened Framework

  // ---------------------------------------------------------------------------
  // Enumerations

  datatype ChannelType = Synthesizer | Recognizer | Verifier

  datatype ChannelState = Closed | Ready | Processing | Error

  datatype GrammarType = Unknown | Uri | Srgs | SrgsXml | NuanceGsl | Jsgf

  /** A grammar as the recognizer keeps it: its name, type and body or URI. */
  datatype Grammar = Grammar(name: string, gtype: GrammarType, data: string)

  /** Asterisk media formats that reach the MRCP channel. */
  datatype Format =
    | Ulaw | Alaw | Slinear | Slinear16 | G723 | Gsm | G726 | G726Aal2 | Adpcm
    | Lpc10 | G729a | Speex | Ilbc | G722 | Siren7 | Siren14
    | OtherFormat(id: int)

  // ---------------------------------------------------------------------------
  // Prefix tests

  const XML_ID: string := "<?xml"
  const SRGS_ID: string := "<grammar"
  const SSML_ID: string := "<speak"
  const GSL_ID: string := ";GSL2.0"
  const ABNF_ID: string := "#ABNF"
  const JSGF_ID: string := "#JSGF"
  const BUILTIN_ID: string := "builtin:"
  const SESSION_ID: string := "session:"
  const HTTP_ID: string := "http://"
  const HTTPS_ID: string := "https://"
  const FILE_ID: string := "file://"
  const INLINE_ID: string := "inline:"
  const MIME_TYPE_PLAIN_TEXT: string := "text/plain"
  const MIME_TYPE_URI_LIST: string := "text/uri-list"

  /**
   * `text_starts_with`: the text is not empty and, once its leading white
   * space is skipped, is strictly longer than the prefix `pat` and begins with it.
   */
  predicate TextStartsWith(text: string, pat: string) {
    |text| > 0 &&
    var rest := text[SpacePrefix(text)..];
    |rest| > |pat| && pat <= rest
  }

  predicate AllSpace(ws: string) {
    forall i :: 0 <= i < |ws| ==> IsSpace(ws[i])
  }

  lemma {:induction false} SpacePrefixAfterSpaces(ws: string, text: string)
    requires AllSpace(ws)
    ensures SpacePrefix(ws + text) == |ws| + SpacePrefix(text)
  {
    if ws != [] {
      assert (ws + text)[0] == ws[0];
      assert (ws + text)[1..] == ws[1..] + text;
      SpacePrefixAfterSpaces(ws[1..], text);
    } else {
      assert ws + text == text;
    }
  }

  /** Leading white space never changes the outcome of the prefix test. */
  lemma LeadingSpaceIgnored(ws: string, text: string, pat: string)
    requires AllSpace(ws)
    ensures TextStartsWith(ws + text, pat) == TextStartsWith(text, pat)
  {
    SpacePrefixAfterSpaces(ws, text);
    assert (ws + text)[|ws| + SpacePrefix(text)..] == text[SpacePrefix(text)..];
  }

  /**
   * A text that is exactly the prefix does not start with it: something must
   * follow. With anything after it, it does.
   */
  lemma MatchNeedsMore(pat: string, more: string)
    requires |pat| > 0 && !IsSpace(pat[0])
    ensures !TextStartsWith(pat, pat)
    ensures TextStartsWith(pat + more, pat) <==> |more| > 0
  {
    assert SpacePrefix(pat) == 0;
    assert SpacePrefix(pat + more) == 0 by {
      assert (pat + more)[0] == pat[0];
    }
    assert pat[0..] == pat;
    assert (pat + more)[0..] == pat + more;
  }

  // ---------------------------------------------------------------------------
  // Grammar classification

  /** One of the five URI schemes the channel passes on by reference. */
  predicate IsUriData(d: string) {
    TextStartsWith(d, HTTP_ID) || TextStartsWith(d, HTTPS_ID) || TextStartsWith(d, BUILTIN_ID)
    || TextStartsWith(d, FILE_ID) || TextStartsWith(d, SESSION_ID)
  }

  /** How the body of an `inline:` grammar is classified. */
  function InlineType(d: string): GrammarType {
    if IsUriData(d) then Uri
    else if TextStartsWith(d, XML_ID) || TextStartsWith(d, SRGS_ID) then SrgsXml
    else if TextStartsWith(d, GSL_ID) then NuanceGsl
    else if TextStartsWith(d, ABNF_ID) then Srgs
    else if TextStartsWith(d, JSGF_ID) then Jsgf
    else Unknown
  }

  /**
   * `get_grammar_type` as written: the grammar content and its type. For
   * `inline:` data the content starts seven characters after the start of the
   * data as given, even when the prefix test skipped leading white space.
   */
  function GetGrammarType(d: string): (r: (string, GrammarType))
    ensures !TextStartsWith(d, INLINE_ID) ==> r.0 == d && r.1 != Unknown
    ensures TextStartsWith(d, INLINE_ID) ==> r.0 == d[|INLINE_ID|..]
  {
    if IsUriData(d) then (d, Uri)
    else if TextStartsWith(d, INLINE_ID) then
      var body := d[|INLINE_ID|..];
      (body, InlineType(body))
    else if TextStartsWith(d, ABNF_ID) then (d, Srgs)
    else (d, SrgsXml)
  }

  /**
   * `get_grammar_type` with the `inline:` content taken after the white space
   * that the prefix test skipped.
   */
  function GetGrammarTypeSkippingSpace(d: string): (r: (string, GrammarType))
    ensures !TextStartsWith(d, INLINE_ID) ==> r == GetGrammarType(d)
  {
    if !IsUriData(d) && TextStartsWith(d, INLINE_ID) then
      var body := d[SpacePrefix(d) + |INLINE_ID|..];
      (body, InlineType(body))
    else GetGrammarType(d)
  }

  lemma InlineIdNotUri(d: string)
    requires TextStartsWith(d, INLINE_ID)
    ensures !IsUriData(d)
  {
    var rest := d[SpacePrefix(d)..];
    assert rest[..7] == INLINE_ID;
    assert rest[0] == 'i';
  }

  /** Without leading white space the two readings agree. */
  lemma SkippingSpaceAgrees(d: string)
    requires |d| > 0 && !IsSpace(d[0])
    ensures GetGrammarTypeSkippingSpace(d) == GetGrammarType(d)
  {
  }

  /**
   * An `inline:` grammar, however much white space precedes it, yields its
   * body as content, classified by its own first characters.
   */
  lemma InlineBodyExtracted(ws: string, body: string)
    requires AllSpace(ws) && |body| > 0
    ensures GetGrammarTypeSkippingSpace(ws + INLINE_ID + body) == (body, InlineType(body))
  {
    var d := ws + INLINE_ID + body;
    assert d == ws + (INLINE_ID + body);
    SpacePrefixAfterSpaces(ws, INLINE_ID + body);
    assert SpacePrefix(INLINE_ID + body) == 0 by {
      assert (INLINE_ID + body)[0] == 'i';
    }
    assert d[|ws|..] == INLINE_ID + body;
    assert INLINE_ID <= INLINE_ID + body;
    assert TextStartsWith(d, INLINE_ID);
    InlineIdNotUri(d);
    assert d[|ws| + |INLINE_ID|..] == body;
  }

  /** Text that differs from the prefix at position `k`, with no white space in front, does not start with it. */
  lemma DiffersAt(d: string, pat: string, k: nat)
    requires |d| > 0 && !IsSpace(d[0]) && k < |pat| && k < |d| && d[k] != pat[k]
    ensures !TextStartsWith(d, pat)
  {
    assert SpacePrefix(d) == 0;
    assert d[0..] == d;
  }

  lemma UnknownWhenFirstCharMatchesNothing(e: string)
    requires |e| > 0 && !IsSpace(e[0]) && e[0] !in "hbfs<;#"
    ensures InlineType(e) == Unknown
  {
    DiffersAt(e, HTTP_ID, 0);
    DiffersAt(e, HTTPS_ID, 0);
    DiffersAt(e, BUILTIN_ID, 0);
    DiffersAt(e, FILE_ID, 0);
    DiffersAt(e, SESSION_ID, 0);
    DiffersAt(e, XML_ID, 0);
    DiffersAt(e, SRGS_ID, 0);
    DiffersAt(e, GSL_ID, 0);
    DiffersAt(e, ABNF_ID, 0);
    DiffersAt(e, JSGF_ID, 0);
  }

  /**
   * The as-written offset: with two spaces before `inline:` the content
   * starts at "e:" and matches no grammar format, whereas skipping the spaces
   * first yields the body itself.
   */
  lemma InlineOffsetIgnoresSpace(body: string)
    requires |body| > 0
    ensures GetGrammarType("  " + INLINE_ID + body) == ("e:" + body, Unknown)
    ensures GetGrammarTypeSkippingSpace("  " + INLINE_ID + body) == (body, InlineType(body))
  {
    AsWrittenOffsetMisses(body);
    InlineBodyExtracted("  ", body);
  }

  /** Dropping a prefix of the first part of a join. */
  lemma SliceOfJoin(a: string, b: string, i: nat)
    requires i <= |a|
    ensures (a + b)[i..] == a[i..] + b
  {
  }

  /** The as-written reading of `  inline:` followed by a body. */
  lemma AsWrittenOffsetMisses(body: string)
    requires |body| > 0
    ensures GetGrammarType("  " + INLINE_ID + body) == ("e:" + body, Unknown)
  {
    InlineAfterSpaces(body);
    RemainderAfterOffset(body);
    var e := "e:" + body;
    assert e[0] == 'e';
    UnknownWhenFirstCharMatchesNothing(e);
  }

  /** Two spaces before `inline:` still mark inline content, not a URI. */
  lemma InlineAfterSpaces(body: string)
    requires |body| > 0
    ensures TextStartsWith("  " + INLINE_ID + body, INLINE_ID) && !IsUriData("  " + INLINE_ID + body)
  {
    var d := "  " + INLINE_ID + body;
    var t := INLINE_ID + body;
    assert d == "  " + t;
    LeadingSpaceIgnored("  ", t, INLINE_ID);
    MatchNeedsMore(INLINE_ID, body);
    InlineIdNotUri(d);
  }

  /** Seven characters after the start of `  inline:` leaves "e:" in front of the body. */
  lemma RemainderAfterOffset(body: string)
    ensures ("  " + INLINE_ID + body)[|INLINE_ID|..] == "e:" + body
  {
    var pre := "  " + INLINE_ID;
    assert pre[7] == 'e' && pre[8] == ':';
    assert pre[7..] == "e:";
    SliceOfJoin(pre, body, 7);
  }

  /** A JSGF body is classified as JSGF. */
  lemma JsgfBodyIsJsgf(rest: string)
    requires |rest| > 0
    ensures InlineType(JSGF_ID + rest) == Jsgf
  {
    var b := JSGF_ID + rest;
    DiffersAt(b, HTTP_ID, 0);
    DiffersAt(b, HTTPS_ID, 0);
    DiffersAt(b, BUILTIN_ID, 0);
    DiffersAt(b, FILE_ID, 0);
    DiffersAt(b, SESSION_ID, 0);
    DiffersAt(b, XML_ID, 0);
    DiffersAt(b, SRGS_ID, 0);
    DiffersAt(b, GSL_ID, 0);
    DiffersAt(b, ABNF_ID, 1);
    MatchNeedsMore(JSGF_ID, rest);
  }

  /** `grammar_type_to_mime`, with the profile's configured MIME strings. */
  function GrammarTypeToMime(t: GrammarType, mimes: MimeTypes): (r: string)
    ensures t == Unknown <==> r == "" && t !in {Srgs, SrgsXml, NuanceGsl, Jsgf}
  {
    match t
    case Unknown => ""
    case Uri => MIME_TYPE_URI_LIST
    case Srgs => mimes.srgs
    case SrgsXml => mimes.srgsXml
    case NuanceGsl => mimes.gsl
    case Jsgf => mimes.jsgf
  }

  /** With the default MIME strings every known grammar type has its own, non-empty MIME type. */
  lemma DefaultMimesDistinct(s: GrammarType, t: GrammarType)
    requires s != Unknown && t != Unknown
    ensures GrammarTypeToMime(s, DEFAULT_MIME_TYPES) != ""
    ensures s != t ==> GrammarTypeToMime(s, DEFAULT_MIME_TYPES) != GrammarTypeToMime(t, DEFAULT_MIME_TYPES)
  {
    var m := DEFAULT_MIME_TYPES;
    assert m.jsgf[14] == 'j' && m.gsl[14] == 'n' && m.srgsXml[16] == '+';
    assert |m.srgs| == 16 && |m.srgsXml| == 20 && |MIME_TYPE_URI_LIST| == 13;
  }

  /**
   * `get_synth_content_type`: text that opens with an XML declaration or a
   * `<speak` element is sent as the profile's SSML type, anything else as
   * plain text.
   */
  function GetSynthContentType(text: string, mimes: MimeTypes): (r: string)
    ensures TextStartsWith(text, XML_ID) || TextStartsWith(text, SSML_ID) ==> r == mimes.ssml
    ensures !(TextStartsWith(text, XML_ID) || TextStartsWith(text, SSML_ID)) ==> r == MIME_TYPE_PLAIN_TEXT
  {
    if TextStartsWith(text, XML_ID) || TextStartsWith(text, SSML_ID) then mimes.ssml
    else MIME_TYPE_PLAIN_TEXT
  }

  /**
   * Markup is recognised behind leading white space and needs something
   * after the marker; any other text, markup-like or not, is plain.
   */
  lemma SynthContentTypeCases(ws: string, body: string, mimes: MimeTypes)
    requires AllSpace(ws) && (body == [] || !IsSpace(body[0]))
    ensures |body| > 0 ==> GetSynthContentType(ws + SSML_ID + body, mimes) == mimes.ssml
    ensures |body| > 0 ==> GetSynthContentType(ws + XML_ID + body, mimes) == mimes.ssml
    ensures GetSynthContentType(ws + SSML_ID, mimes) == MIME_TYPE_PLAIN_TEXT
    ensures !(XML_ID <= body) && !(SSML_ID <= body) ==>
      GetSynthContentType(ws + body, mimes) == MIME_TYPE_PLAIN_TEXT
  {
    assert ws + SSML_ID + body == ws + (SSML_ID + body);
    assert ws + XML_ID + body == ws + (XML_ID + body);
    LeadingSpaceIgnored(ws, SSML_ID + body, SSML_ID);
    LeadingSpaceIgnored(ws, XML_ID + body, XML_ID);
    MatchNeedsMore(SSML_ID, body);
    MatchNeedsMore(XML_ID, body);
    LeadingSpaceIgnored(ws, SSML_ID, SSML_ID);
    LeadingSpaceIgnored(ws, SSML_ID, XML_ID);
    assert !TextStartsWith(SSML_ID, XML_ID) by {
      DiffersAt(SSML_ID, XML_ID, 1);
    }
    LeadingSpaceIgnored(ws, body, XML_ID);
    LeadingSpaceIgnored(ws, body, SSML_ID);
    if body != [] {
      assert SpacePrefix(body) == 0;
      assert body[0..] == body;
    }
  }

  // ---------------------------------------------------------------------------
  // Codecs

  /** `get_speech_codec`: mu-law and A-law are kept, every other format becomes signed linear. */
  function GetSpeechCodec(f: Format): (r: Format)
    ensures r == Ulaw || r == Alaw || r == Slinear
    ensures (r == f) <==> (f == Ulaw || f == Alaw || f == Slinear)
  {
    match f
    case Ulaw => Ulaw
    case Alaw => Alaw
    case _ => Slinear
  }

  /** `format_to_str`: the MRCP codec name. */
  function FormatToStr(f: Format): (r: string)
    ensures r in {"PCMU", "PCMA", "L16"}
  {
    match f
    case Ulaw => "PCMU"
    case Alaw => "PCMA"
    case _ => "L16"
  }

  /** `format_to_bytes_per_sample` */
  function FormatToBytesPerSample(f: Format): (r: nat)
    ensures r == 1 || r == 2
  {
    match f
    case Ulaw => 1
    case Alaw => 1
    case _ => 2
  }

  /** The codec name a channel is created with when none is given. */
  function ChannelCodec(codec: string): (r: string)
    ensures |r| > 0
    ensures codec != [] ==> r == codec
  {
    if codec == [] then "L16" else codec
  }

  /** The channel name used when none is given. */
  function ChannelName(name: string): (r: string)
    ensures |r| > 0
    ensures name != [] ==> r == name
  {
    if name == [] then "TTS" else name
  }

  /** The silence byte: 0 when the codec name occurs in "L16", else 128 (8-bit G.711). */
  function SilenceByte(codec: string): byte {
    if Contains("L16", codec) then 0 else 128
  }

  lemma {:induction false} NotContainedWhenLonger(s: string, sub: string)
    requires |sub| > |s|
    ensures !Contains(s, sub)
    decreases |s|
  {
    if |s| > 0 {
      NotContainedWhenLonger(s[1..], sub);
    }
  }

  /**
   * The codec helpers agree on every format a channel can negotiate: the
   * negotiated format is one that `format_to_str` names exactly, 16-bit
   * linear has two bytes per sample and a zero silence byte, and the 8-bit
   * formats one byte and 128.
   */
  lemma CodecHelpersAgree(f: Format)
    ensures var g := GetSpeechCodec(f);
      GetSpeechCodec(g) == g &&
      (FormatToBytesPerSample(g) == 2 <==> FormatToStr(g) == "L16") &&
      SilenceByte(FormatToStr(g)) == (if FormatToBytesPerSample(g) == 2 then 0 else 128)
  {
    var g := GetSpeechCodec(f);
    if g == Slinear {
      assert "L16" <= "L16";
    } else {
      var c := FormatToStr(g);
      assert |c| == 4;
      NotContainedWhenLonger("L16", c);
    }
  }

  // ---------------------------------------------------------------------------
  // trimstr

  /** The string without its leading blanks. */
  function TrimLeft(s: string): (r: string)
    ensures |r| <= |s| && r == s[|s| - |r|..]
    ensures forall i :: 0 <= i < |s| - |r| ==> IsBlank(s[i])
    ensures r != [] ==> !IsBlank(r[0])
  {
    if s != [] && IsBlank(s[0]) then TrimLeft(s[1..]) else s
  }

  /** The string without its trailing blanks. */
  function TrimRight(s: string): (r: string)
    ensures |r| <= |s| && r == s[..|r|]
    ensures forall i :: |r| <= i < |s| ==> IsBlank(s[i])
    ensures r != [] ==> !IsBlank(r[|r| - 1])
  {
    if s != [] && IsBlank(s[|s| - 1]) then TrimRight(s[..|s| - 1]) else s
  }

  function Trim(s: string): string {
    TrimRight(TrimLeft(s))
  }

  predicate HasNonBlank(s: string) {
    exists i :: 0 <= i < |s| && !IsBlank(s[i])
  }

  /** The first non-blank position determines the left trim. */
  lemma {:induction false} TrimLeftAt(s: string, i: nat)
    requires i < |s| && !IsBlank(s[i]) && forall k :: 0 <= k < i ==> IsBlank(s[k])
    ensures TrimLeft(s) == s[i..]
  {
    if i > 0 {
      TrimLeftAt(s[1..], i - 1);
    }
  }

  /** The last non-blank position determines the right trim. */
  lemma {:induction false} TrimRightAt(s: string, m: nat)
    requires 0 < m <= |s| && !IsBlank(s[m - 1]) && forall k :: m <= k < |s| ==> IsBlank(s[k])
    ensures TrimRight(s) == s[..m]
  {
    if m < |s| {
      TrimRightAt(s[..|s| - 1], m);
      assert s[..|s| - 1][..m] == s[..m];
    }
  }

  /** Where the trimmed string starts within the original. */
  function TrimStart(s: string): nat {
    |s| - |TrimLeft(s)|
  }

  /**
   * The trimmed string is the middle of the original: only blanks are cut
   * off, on both sides, and it starts and ends with a non-blank.
   */
  lemma TrimIsInfix(s: string)
    ensures var t := Trim(s); var i := TrimStart(s);
      i + |t| <= |s| && s[i..i + |t|] == t &&
      (forall k :: 0 <= k < i ==> IsBlank(s[k])) &&
      (forall k :: i + |t| <= k < |s| ==> IsBlank(s[k])) &&
      (t != [] ==> !IsBlank(t[0]) && !IsBlank(t[|t| - 1]))
  {
    var l := TrimLeft(s);
    var t := TrimRight(l);
    var i := |s| - |l|;
    assert Trim(s) == t && TrimStart(s) == i;
    BlankTailInfix(s, l, t, i);
    if t != [] {
      assert t[0] == l[0];
    }
  }

  /** A prefix `t` of the suffix `l` of `s` sits in `s` where `l` starts; the blanks after `t` in `l` are blanks of `s`. */
  lemma BlankTailInfix(s: string, l: string, t: string, i: nat)
    requires i <= |s| && l == s[i..] && |t| <= |l| && t == l[..|t|]
    requires forall k :: |t| <= k < |l| ==> IsBlank(l[k])
    ensures i + |t| <= |s| && s[i..i + |t|] == t
    ensures forall k :: i + |t| <= k < |s| ==> IsBlank(s[k])
  {
    forall k | i + |t| <= k < |s|
      ensures IsBlank(s[k])
    {
      assert s[k] == l[k - i];
    }
  }

  /** Trimming leaves nothing exactly when the string is all blanks. */
  lemma TrimEmptyIffBlank(s: string)
    ensures Trim(s) != [] <==> HasNonBlank(s)
  {
    var l := TrimLeft(s);
    if HasNonBlank(s) {
      var j :| 0 <= j < |s| && !IsBlank(s[j]);
      assert l != [];
    }
  }

  /** Trimming twice changes nothing. */
  lemma TrimIdempotent(s: string)
    ensures Trim(Trim(s)) == Trim(s)
  {
    var t := Trim(s);
    TrimIsInfix(s);
    if t != [] {
      TrimLeftAt(t, 0);
      assert t[0..] == t;
      TrimRightAt(t, |t|);
      assert t[..|t|] == t;
    }
  }

  /** The first loop of `trimstr`: skip the leading blanks. */
  method SkipBlanks(a: array<char>, n: nat) returns (i: nat)
    requires n <= a.Length && HasNonBlank(a[..n])
    ensures i < n && TrimLeft(a[..n]) == a[i..n]
  {
    i := 0;
    while i < n && IsBlank(a[i])
      invariant 0 <= i <= n
      invariant forall k :: 0 <= k < i ==> IsBlank(a[..n][k])
    {
      i := i + 1;
    }
    TrimLeftAt(a[..n], i);
    assert a[..n][i..] == a[i..n];
  }

  /** The second and third loops of `trimstr`: move a[i..n] to the front and end it with NUL. */
  method ShiftDown(a: array<char>, i: nat, n: nat)
    requires i <= n < a.Length && a[n] == NUL
    modifies a
    ensures a[..n - i] == old(a[i..n]) && a[n - i] == NUL
  {
    var j := i;
    while j < n
      invariant i <= j <= n
      invariant forall k :: 0 <= k < j - i ==> a[k] == old(a[k + i])
      invariant forall k :: j <= k < a.Length ==> a[k] == old(a[k])
    {
      a[j - i] := a[j];
      j := j + 1;
    }
    if i > 0 {
      a[n - i] := NUL;
    }
  }

  /** The last loop of `trimstr`: overwrite the trailing blanks of the string of length `len` with NUL. */
  method CutTrailing(a: array<char>, len: nat) returns (m: nat)
    requires 0 < len < a.Length && a[len] == NUL && !IsBlank(a[0])
    modifies a
    ensures m <= len && a[m] == NUL && a[..m] == TrimRight(old(a[..len]))
  {
    ghost var l := a[..len];
    var t := len - 1;
    while IsBlank(a[t])
      invariant 0 <= t < len
      invariant a[..t + 1] == l[..t + 1]
      invariant forall k :: t < k < len ==> IsBlank(l[k])
      invariant a[t + 1] == NUL
      decreases t
    {
      a[t] := NUL;
      t := t - 1;
    }
    m := t + 1;
    TrimRightAt(l, m);
  }

  /**
   * `trimstr` on the C string of length `n` held in `a`: the blanks at both
   * ends are removed in place, the text moved to the front and terminated
   * by NUL. The string must hold a non-blank character.
   */
  method TrimStr(a: array<char>, n: nat) returns (m: nat)
    requires n < a.Length && a[n] == NUL && forall k :: 0 <= k < n ==> a[k] != NUL
    requires HasNonBlank(a[..n])
    modifies a
    ensures m < a.Length && a[m] == NUL
    ensures a[..m] == Trim(old(a[..n]))
  {
    ghost var s := a[..n];
    var i := SkipBlanks(a, n);
    ghost var l := TrimLeft(s);
    ShiftDown(a, i, n);
    assert a[..n - i] == l;
    assert a[0] == l[0];
    m := CutTrailing(a, n - i);
  }

  // ---------------------------------------------------------------------------
  // Channel

  /** The result fields of a recognizer record, as a value. */
  datatype ResultRecord = ResultRecord(
    result: Option<string>, completionCause: int, waveformUri: Option<string>,
    startOfInput: int, timersStarted: int)

  /** The per-channel data of a recognizer (`recognizer_data_t`). */
  class RecognizerData {
    var grammars: map<string, Grammar>
    var lastGrammar: Option<Grammar>
    var result: Option<string>
    var completionCause: int
    var waveformUri: Option<string>
    var startOfInput: int
    var timersStarted: int

    /** A zero-filled record with an empty grammar table, as `speech_channel_open` makes it. */
    constructor ()
      ensures grammars == map[] && lastGrammar == None && result == None
      ensures completionCause == 0 && waveformUri == None
      ensures startOfInput == 0 && timersStarted == 0
    {
      grammars := map[];
      lastGrammar := None;
      result := None;
      completionCause := 0;
      waveformUri := None;
      startOfInput := 0;
      timersStarted := 0;
    }

    function Record(): ResultRecord
      reads this
    {
      ResultRecord(result, completionCause, waveformUri, startOfInput, timersStarted)
    }

    /** The reset before a RECOGNIZE: no result, cause -1, no start of input, the given timers flag. */
    method ResetForRecognize(timers: int)
      modifies this
      ensures Record() == old(Record()).(result := None, completionCause := -1, startOfInput := 0, timersStarted := timers)
      ensures grammars == old(grammars) && lastGrammar == old(lastGrammar)
    {
      result := None;
      completionCause := -1;
      startOfInput := 0;
      timersStarted := timers;
    }
  }

  /** The status `speech_channel_open` reports for the state seen after the wait and, after ERROR, after the second wait. */
  function OpenStatus(observed: ChannelState, afterError: ChannelState): int {
    match observed
    case Ready => 0
    case Closed => -1
    case Error => if afterError == Closed then 2 else -1
    case Processing => 0
  }

  /** Open succeeds once the channel is usable; a retry (2) is offered only after an error whose session was cleaned up. */
  lemma OpenOutcomes(observed: ChannelState, afterError: ChannelState)
    ensures OpenStatus(observed, afterError) in {0, -1, 2}
    ensures OpenStatus(observed, afterError) == 0 <==> observed in {Ready, Processing}
    ensures OpenStatus(observed, afterError) == 2 <==> observed == Error && afterError == Closed
  {
  }

  /** The state left after `speech_channel_stop` waited on a request that it sent, seeing `observed`. */
  function StateAfterStop(observed: ChannelState): ChannelState {
    if observed == Processing then Error else observed
  }

  /** `speech_channel_stop` fails when the channel stays processing (timeout) or reports an error. */
  lemma StopOutcomes(observed: ChannelState)
    ensures StateAfterStop(observed) != Processing
    ensures StateAfterStop(observed) == Error <==> observed in {Processing, Error}
  {
  }

  class SpeechChannel {
    const name: string
    const kind: ChannelType
    const codec: string
    const silence: byte
    const queue: Queue
    var rate: nat
    var state: ChannelState
    var profile: Profile?
    var data: RecognizerData?
    var sessionId: Option<string>
    var hasVerifSession: bool

    ghost predicate Valid()
      reads this, queue, queue.buffer
    {
      queue.Valid()
    }

    /**
     * `speech_channel_create`: a CLOSED channel named "TTS" and using "L16"
     * when no name or codec is given, with an empty audio queue (named as
     * the caller named the channel), no profile and no recognizer data.
     */
    constructor (name: string, kind: ChannelType, codec: string, rate: nat)
      ensures Valid() && fresh(queue) && fresh(queue.buffer) && fresh(queue.buffer.data)
      ensures this.name == ChannelName(name) && this.codec == ChannelCodec(codec)
      ensures this.kind == kind && this.rate == rate && state == Closed
      ensures silence == SilenceByte(ChannelCodec(codec))
      ensures queue.Contents() == [] && queue.name == name
      ensures queue.readBytes == 0 && queue.writeBytes == 0
      ensures profile == null && data == null && sessionId == None && !hasVerifSession
    {
      this.name := ChannelName(name);
      this.codec := ChannelCodec(codec);
      this.kind := kind;
      this.rate := rate;
      silence := SilenceByte(ChannelCodec(codec));
      state := Closed;
      profile := null;
      data := null;
      sessionId := None;
      hasVerifSession := false;
      queue := new Queue(name);
    }

    /**
     * `speech_channel_set_state_unlocked`: leaving PROCESSING for another
     * state drops the queued audio (waking a blocked reader); the counters
     * and everything else are kept.
     */
    method SetStateUnlocked(s: ChannelState)
      requires Valid()
      modifies this`state, queue.buffer`used
      ensures Valid() && state == s
      ensures queue.Contents() ==
        (if old(state) == Processing && s != Processing then [] else old(queue.Contents()))
    {
      if state == Processing && s != Processing {
        var _ := queue.Clear();
      }
      state := s;
    }

    /**
     * `speech_channel_open` with `p`. `sessionCreated` is whether the MRCP
     * session could be created, `channelAdded` whether the termination and
     * channel could be created and added; `observed` is the state seen when
     * the wait for the server ends and `afterError` the state seen after the
     * extra wait that follows an ERROR.
     */
    method Open(p: Profile, sessionCreated: bool, channelAdded: bool,
                observed: ChannelState, afterError: ChannelState) returns (status: int)
      modifies this`state, this`profile, this`data
      ensures old(state) != Closed ==>
        status == -1 && state == old(state) && profile == old(profile) && data == old(data)
      ensures old(state) == Closed && !sessionCreated ==>
        status == 2 && state == Closed && profile == p && data == old(data)
      ensures old(state) == Closed && sessionCreated && !channelAdded ==>
        status == -1 && state == Closed && profile == p && data == old(data)
      ensures old(state) == Closed && sessionCreated && channelAdded ==>
        status == OpenStatus(observed, afterError) && profile == p &&
        state == (if observed == Error then afterError else observed) &&
        (kind == Recognizer ==>
           (data != null && fresh(data) && data.grammars == map[] &&
            data.result == None && data.completionCause == 0 && data.waveformUri == None &&
            data.startOfInput == 0 && data.timersStarted == 0)) &&
        (kind != Recognizer ==> data == old(data))
    {
      if state != Closed {
        return -1;
      }
      profile := p;
      if !sessionCreated {
        return 2;
      }
      if !channelAdded {
        return -1;
      }
      state := observed;
      status := 0;
      if state == Closed {
        status := -1;
      } else if state == Error {
        state := afterError;
        if state != Closed {
          status := -1;
        } else {
          status := 2;
        }
      }
      if kind == Recognizer {
        data := new RecognizerData();
      }
    }

    /**
     * `speech_channel_stop`: only a PROCESSING channel is stopped. When the
     * STOP message cannot be created the call fails with nothing changed;
     * once it is sent (`sent`), `observed` is the state the response
     * handler left before the wait ended. A channel still PROCESSING (the
     * wait timed out, or the message was not sent) or in ERROR ends in
     * ERROR with -1.
     */
    method Stop(messageCreated: bool, sent: bool, observed: ChannelState) returns (status: int)
      requires Valid()
      modifies this`state, queue.buffer`used
      ensures Valid()
      ensures old(state) != Processing ==>
        status == 0 && state == old(state) && queue.Contents() == old(queue.Contents())
      ensures old(state) == Processing && !messageCreated ==>
        status == -1 && state == Processing && queue.Contents() == old(queue.Contents())
      ensures old(state) == Processing && messageCreated ==>
        var seen := if sent then observed else Processing;
        state == StateAfterStop(seen) &&
        (status == -1 <==> state == Error) && (status == 0 || status == -1) &&
        queue.Contents() == (if seen != Processing then [] else old(queue.Contents()))
    {
      status := 0;
      if state == Processing {
        if !messageCreated {
          status := -1;
        } else {
          if sent {
            SetStateUnlocked(observed);
          }
          if state == Processing {
            state := Error;
            status := -1;
          } else if state == Error {
            status := -1;
          }
        }
      }
    }

    /**
     * `speech_channel_read`: audio is read from the queue only while
     * PROCESSING (0); otherwise nothing happens and 1 is returned.
     */
    method Read(dst: array<byte>, len: nat, block: bool, arrived: seq<byte>) returns (status: int, n: nat)
      requires Valid() && dst != queue.buffer.data && len <= dst.Length
      modifies queue`waiting, queue`readBytes, queue`writeBytes, queue.buffer`used, queue.buffer.data, dst
      ensures Valid()
      ensures status == (if old(state) == Processing then 0 else 1)
      ensures old(state) != Processing ==>
        n == len && queue.Contents() == old(queue.Contents()) && queue.readBytes == old(queue.readBytes) &&
        dst[..] == old(dst[..])
      ensures old(state) == Processing ==>
        n <= len && queue.readBytes == old(queue.readBytes) + n
      ensures old(state) == Processing && !block ==>
        n == Min(|old(queue.Contents())|, len) &&
        (dst[..n], queue.Contents()) == BufferRead(old(queue.Contents()), n)
    {
      if state == Processing {
        var _, got := queue.Read(dst, len, block, arrived);
        status, n := 0, got;
      } else {
        status, n := 1, len;
      }
    }

    /**
     * `speech_channel_write`: an empty write, or one while not PROCESSING,
     * fails with -1. Otherwise the bytes go to the queue and 0 is returned;
     * the length reports how much was queued (0 on overflow).
     */
    method Write(src: seq<byte>) returns (res: int, len: nat)
      requires Valid()
      modifies queue`writeBytes, queue.buffer`used, queue.buffer.data
      ensures Valid()
      ensures res == 0 <==> |src| > 0 && old(state) == Processing
      ensures res != 0 ==> res == -1 && len == |src| && queue.Contents() == old(queue.Contents())
      ensures res == 0 ==>
        var (after, r) := BufferWrite(old(queue.Contents()), AUDIO_QUEUE_SIZE, src);
        (r > 0 ==> len == |src| && queue.Contents() == after) &&
        (r == 0 ==> len == 0 && queue.Contents() == old(queue.Contents()))
    {
      len := |src|;
      if |src| == 0 || state != Processing {
        return -1, len;
      }
      var _, n := queue.Write(src);
      len := n;
      res := 0;
    }
  }
}
