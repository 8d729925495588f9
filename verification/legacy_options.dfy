// The option strings of the original single-file application module
// (app-unimrcp/app_unimrcp.c): the "&"-separated options of MRCPSynth and
// MRCPRecog copied into fixed-size buffers, the barge-in option and the
// grammar-type detection.

module LegacyOptions {
  import opened Text
  import SpeechChannel
  import AppOptions

  /** The size of the buffer that receives each MRCPSynth option, by lower-case key. */
  const SYNTH_OPTION_SIZES: map<string, nat> := map[
    "p" := 256, "i" := 64, "f" := 384, "l" := 16, "ll" := 16, "pv" := 32, "pr" := 32,
    "v" := 128, "vv" := 128, "g" := 16, "a" := 32]

  /** The size of the buffer that receives each MRCPRecog option, by lower-case key. */
  const RECOG_OPTION_SIZES: map<string, nat> := map[
    "ct" := 64, "sva" := 64, "nb" := 64, "nit" := 64, "sit" := 16, "sct" := 64, "sint" := 64,
    "dit" := 64, "dtt" := 64, "dttc" := 16, "sw" := 16, "nac" := 16, "rm" := 128,
    "hmaxd" := 64, "hmind" := 64, "cdb" := 16, "enm" := 16, "iwu" := 384, "sl" := 64,
    "mt" := 64, "p" := 256, "i" := 64, "f" := 384, "t" := 64, "b" := 32]

  /** The working buffer the option string is copied into. */
  const OPTIONS_BUFFER: nat := 1024

  /** Option tables: buffers with room for at least the terminator. */
  predicate ValidSizes(sizes: map<string, nat>) {
    forall k :: k in sizes ==> sizes[k] > 0
  }

  /** Option tables are keyed by lower-case names. */
  predicate LowerCaseKeys(sizes: map<string, nat>) {
    forall k :: k in sizes ==> AppOptions.IsLowerCase(k)
  }

  /** Both tables of this module are well formed. */
  lemma SynthTableValid()
    ensures ValidSizes(SYNTH_OPTION_SIZES) && LowerCaseKeys(SYNTH_OPTION_SIZES)
  {
    forall k | k in SYNTH_OPTION_SIZES
      ensures AppOptions.IsLowerCase(k)
    {
    }
  }

  lemma RecogTableValid()
    ensures ValidSizes(RECOG_OPTION_SIZES) && LowerCaseKeys(RECOG_OPTION_SIZES)
  {
    RecogKeysLowerCase();
  }

  lemma RecogKeysLowerCase()
    ensures LowerCaseKeys(RECOG_OPTION_SIZES)
  {
    forall k | k in RECOG_OPTION_SIZES
      ensures AppOptions.IsLowerCase(k)
    {
    }
  }

  /** The pieces between the '&' characters, empty ones included. */
  function Pieces(s: string): (r: seq<string>)
    ensures r != []
    decreases |s|
  {
    var (piece, rest) := StrSep(s, {'&'});
    if rest.None? then [piece] else [piece] + Pieces(rest.value)
  }

  /**
   * One piece read as an option: trimmed of blanks and split at its first
   * '='; the key is the trimmed text before it, folded to lower case (the
   * table is searched with `strcasecmp`), the value the trimmed text after
   * it, or None when the piece holds no '='.
   */
  function ParsePiece(piece: string): (string, Option<string>) {
    var (key, value) := StrSep(SpeechChannel.Trim(piece), {'='});
    (ToLower(SpeechChannel.Trim(key)), if value.Some? then Some(SpeechChannel.Trim(value.value)) else None)
  }

  function ParsePieces(pieces: seq<string>): (r: seq<(string, Option<string>)>)
    ensures |r| == |pieces|
  {
    MapSeq(ParsePiece, pieces)
  }

  function MapSeq<A, B>(f: A -> B, xs: seq<A>): (r: seq<B>)
    ensures |r| == |xs|
  {
    if xs == [] then [] else [f(xs[0])] + MapSeq(f, xs[1..])
  }

  lemma {:induction false} MapSeqSnoc<A, B>(f: A -> B, xs: seq<A>, x: A)
    ensures MapSeq(f, xs + [x]) == MapSeq(f, xs) + [f(x)]
    decreases |xs|
  {
    if xs != [] {
      assert (xs + [x])[1..] == xs[1..] + [x];
      MapSeqSnoc(f, xs[1..], x);
    }
  }

  lemma MapSeqCons<A, B>(f: A -> B, x: A, xs: seq<A>)
    ensures MapSeq(f, [x] + xs) == [f(x)] + MapSeq(f, xs)
  {
    assert ([x] + xs)[1..] == xs;
  }

  /**
   * A parsed option: a known key with a value is copied into its buffer,
   * cut to the buffer; a piece without '=' or with an unknown key changes
   * nothing.
   */
  function SetOption(opts: map<string, string>, sizes: map<string, nat>, p: (string, Option<string>)): map<string, string>
    requires ValidSizes(sizes)
  {
    if p.1.Some? && p.0 in sizes then opts[p.0 := CopyString(p.1.value, sizes[p.0])] else opts
  }

  function SetOptions(opts: map<string, string>, sizes: map<string, nat>, ps: seq<(string, Option<string>)>): map<string, string>
    requires ValidSizes(sizes)
    decreases |ps|
  {
    if ps == [] then opts else SetOptions(SetOption(opts, sizes, ps[0]), sizes, ps[1..])
  }

  /**
   * The options of MRCPSynth and MRCPRecog in this module: the string, cut
   * to the 1024-character working buffer and trimmed, is split at every '&'
   * and each piece applied in turn; an empty string sets nothing.
   */
  function LegacyOptions(sizes: map<string, nat>, options: string): (r: map<string, string>)
    requires ValidSizes(sizes)
  {
    if options == [] then map[]
    else SetOptions(map[], sizes, ParsePieces(Pieces(SpeechChannel.Trim(CopyString(options, OPTIONS_BUFFER)))))
  }

  /** Every value set fits its buffer. */
  predicate InBuffers(opts: map<string, string>, sizes: map<string, nat>) {
    forall k :: k in opts ==> k in sizes && |opts[k]| < sizes[k]
  }

  lemma OptionStaysInBuffers(opts: map<string, string>, sizes: map<string, nat>, p: (string, Option<string>))
    requires ValidSizes(sizes) && InBuffers(opts, sizes)
    ensures InBuffers(SetOption(opts, sizes, p), sizes)
  {
  }

  /** Only the table's keys are ever set, and every value fits its buffer. */
  lemma {:induction false} OptionsStayInBuffers(opts: map<string, string>, sizes: map<string, nat>, ps: seq<(string, Option<string>)>)
    requires ValidSizes(sizes) && InBuffers(opts, sizes)
    ensures InBuffers(SetOptions(opts, sizes, ps), sizes)
    decreases |ps|
  {
    if ps != [] {
      OptionStaysInBuffers(opts, sizes, ps[0]);
      OptionsStayInBuffers(SetOption(opts, sizes, ps[0]), sizes, ps[1..]);
    }
  }

  lemma LegacyOptionsInBuffers(sizes: map<string, nat>, options: string)
    requires ValidSizes(sizes)
    ensures InBuffers(LegacyOptions(sizes, options), sizes)
  {
    if options != [] {
      OptionsStayInBuffers(map[], sizes, ParsePieces(Pieces(SpeechChannel.Trim(CopyString(options, OPTIONS_BUFFER)))));
    }
  }

  /** A string with no blank at either end is its own trim. */
  lemma TrimmedWhole(s: string)
    requires s != [] && !IsBlank(s[0]) && !IsBlank(s[|s| - 1])
    ensures SpeechChannel.Trim(s) == s
  {
    SpeechChannel.TrimLeftAt(s, 0);
    assert s[0..] == s;
    SpeechChannel.TrimRightAt(s, |s|);
    assert s[..|s|] == s;
  }

  /** A key without '=' followed by "=value" splits back into the two. */
  lemma KeyValueSplit(key: string, value: string)
    requires '=' !in key
    ensures StrSep(key + "=" + value, {'='}) == (key, Some(value))
  {
    assert key + "=" + value == key + ['='] + value;
    assert forall i :: 0 <= i < |key| ==> key[i] !in {'='};
    StrSepAt(key, '=', {'='}, value);
  }

  /** A key and a value free of outer blanks, joined by '=', are read back as the folded key and the value. */
  lemma PieceParts(key: string, value: string)
    requires key != [] && value != [] && !IsBlank(key[0]) && !IsBlank(key[|key| - 1])
    requires !IsBlank(value[0]) && !IsBlank(value[|value| - 1]) && '=' !in key
    ensures ParsePiece(key + "=" + value) == (ToLower(key), Some(value))
  {
    var piece := key + "=" + value;
    assert piece[0] == key[0];
    assert piece[|piece| - 1] == value[|value| - 1];
    TrimmedWhole(piece);
    KeyValueSplit(key, value);
    TrimmedWhole(key);
    TrimmedWhole(value);
  }

  /** `strcasecmp` against a lower-case table key is equality after folding the key. */
  lemma TableKeysFold(sizes: map<string, nat>, key: string)
    requires LowerCaseKeys(sizes)
    ensures forall k :: k in sizes ==> (EqualsIgnoreCase(key, k) <==> ToLower(key) == k)
  {
    forall k | k in sizes
      ensures EqualsIgnoreCase(key, k) <==> ToLower(key) == k
    {
      AppOptions.FoldedKey(key, k);
    }
  }

  /**
   * A key written in any case, with a value that fits, sets that option to
   * the value (the key matches exactly when `strcasecmp` matches it against
   * the table's lower-case key, as TableKeysFold states).
   */
  lemma PieceSetsOption(opts: map<string, string>, sizes: map<string, nat>, key: string, value: string)
    requires ValidSizes(sizes) && ToLower(key) in sizes
    requires key != [] && value != [] && !IsBlank(key[0]) && !IsBlank(key[|key| - 1])
    requires !IsBlank(value[0]) && !IsBlank(value[|value| - 1])
    requires '=' !in key && NUL !in value && |value| < sizes[ToLower(key)]
    ensures SetOption(opts, sizes, ParsePiece(key + "=" + value)) == opts[ToLower(key) := value]
  {
    PieceParts(key, value);
    CopyStringWhole(value, sizes[ToLower(key)]);
    SetKnownOption(opts, sizes, ParsePiece(key + "=" + value), ToLower(key), value);
  }

  /** A known key whose value fits its buffer is set to that value. */
  lemma SetKnownOption(opts: map<string, string>, sizes: map<string, nat>, p: (string, Option<string>), k: string, v: string)
    requires ValidSizes(sizes) && k in sizes && p == (k, Some(v)) && CopyString(v, sizes[k]) == v
    ensures SetOption(opts, sizes, p) == opts[k := v]
  {
  }

  /** A parsed piece without a value sets nothing. */
  lemma SetNoValue(opts: map<string, string>, sizes: map<string, nat>, p: (string, Option<string>))
    requires ValidSizes(sizes) && p.1 == None
    ensures SetOption(opts, sizes, p) == opts
  {
  }

  /** Trimming a piece without '=' leaves none to split at. */
  lemma TrimmedHasNoEquals(piece: string)
    requires '=' !in piece
    ensures StrSep(SpeechChannel.Trim(piece), {'='}).1 == None
  {
    var t := SpeechChannel.Trim(piece);
    SpeechChannel.TrimIsInfix(piece);
    var i := SpeechChannel.TrimStart(piece);
    forall j | 0 <= j < |t|
      ensures t[j] !in {'='}
    {
      assert t[j] == piece[i + j];
    }
    StrSepNone(t, {'='});
  }

  /** A piece without '=' sets nothing. */
  lemma PieceWithoutValueIgnored(opts: map<string, string>, sizes: map<string, nat>, piece: string)
    requires ValidSizes(sizes) && '=' !in piece
    ensures ParsePiece(piece).1 == None
    ensures SetOption(opts, sizes, ParsePiece(piece)) == opts
  {
    TrimmedHasNoEquals(piece);
    assert ParsePiece(piece).1 == None;
    SetNoValue(opts, sizes, ParsePiece(piece));
  }

  lemma {:induction false} SetOptionsSnoc(opts: map<string, string>, sizes: map<string, nat>,
                                         ps: seq<(string, Option<string>)>, p: (string, Option<string>))
    requires ValidSizes(sizes)
    ensures SetOptions(opts, sizes, ps + [p]) == SetOption(SetOptions(opts, sizes, ps), sizes, p)
    decreases |ps|
  {
    if ps == [] {
      assert [] + [p] == [p];
    } else {
      assert (ps + [p])[1..] == ps[1..] + [p];
      SetOptionsSnoc(SetOption(opts, sizes, ps[0]), sizes, ps[1..], p);
    }
  }

  /** The last piece for an option wins over every earlier one. */
  lemma LaterPieceWins(opts: map<string, string>, sizes: map<string, nat>, pieces: seq<string>, key: string, value: string)
    requires ValidSizes(sizes) && ToLower(key) in sizes
    requires key != [] && value != [] && !IsBlank(key[0]) && !IsBlank(key[|key| - 1])
    requires !IsBlank(value[0]) && !IsBlank(value[|value| - 1])
    requires '=' !in key && NUL !in value && |value| < sizes[ToLower(key)]
    ensures SetOptions(opts, sizes, ParsePieces(pieces + [key + "=" + value])) ==
      SetOptions(opts, sizes, ParsePieces(pieces))[ToLower(key) := value]
  {
    var piece := key + "=" + value;
    MapSeqSnoc(ParsePiece, pieces, piece);
    SetOptionsSnoc(opts, sizes, ParsePieces(pieces), ParsePiece(piece));
    PieceSetsOption(SetOptions(opts, sizes, ParsePieces(pieces)), sizes, key, value);
  }

  /** Taking one piece off the front of the buffer leaves the pieces of the rest. */
  lemma PiecesCons(rest: string)
    ensures var (piece, next) := StrSep(rest, {'&'});
      Pieces(rest) == [piece] + if next.Some? then Pieces(next.value) else []
  {
  }

  lemma SetOptionsCons(opts: map<string, string>, sizes: map<string, nat>,
                       p: (string, Option<string>), ps: seq<(string, Option<string>)>)
    requires ValidSizes(sizes)
    ensures SetOptions(opts, sizes, [p] + ps) == SetOptions(SetOption(opts, sizes, p), sizes, ps)
  {
    assert ([p] + ps)[1..] == ps;
  }

  /**
   * The option loop of MRCPSynth and MRCPRecog: the pieces are taken off
   * the front of the working buffer, one '&' at a time, until none is left.
   */
  method ParseOptions(sizes: map<string, nat>, options: string) returns (opts: map<string, string>)
    requires ValidSizes(sizes)
    ensures opts == LegacyOptions(sizes, options)
    ensures InBuffers(opts, sizes)
  {
    LegacyOptionsInBuffers(sizes, options);
    opts := map[];
    if |options| == 0 {
      return;
    }
    var rest := SpeechChannel.Trim(CopyString(options, OPTIONS_BUFFER));
    var more := true;
    while more
      invariant more ==> SetOptions(opts, sizes, ParsePieces(Pieces(rest))) == LegacyOptions(sizes, options)
      invariant !more ==> opts == LegacyOptions(sizes, options)
      decreases |rest|, more
    {
      var (piece, next) := StrSep(rest, {'&'});
      var tail := if next.Some? then Pieces(next.value) else [];
      PiecesCons(rest);
      MapSeqCons(ParsePiece, piece, tail);
      SetOptionsCons(opts, sizes, ParsePiece(piece), ParsePieces(tail));
      opts := SetOption(opts, sizes, ParsePiece(piece));
      if next.None? {
        more := false;
      } else {
        rest := next.value;
      }
    }
  }

  /** `b` option: 1 when absent or outside 0..2, the number otherwise. */
  function LegacyBargeIn(value: string): (r: int)
    ensures 0 <= r <= 2
    ensures value != [] && 0 <= Atoi(value) <= 2 ==> r == Atoi(value)
    ensures value == [] || Atoi(value) < 0 || Atoi(value) > 2 ==> r == 1
  {
    if value == [] then 1
    else var b := Atoi(value); if b < 0 || b > 2 then 1 else b
  }

  /** Each allowed level reads back; "3" falls back to the default. */
  lemma BargeInLevels(n: nat)
    ensures LegacyBargeIn(Decimal(n)) == (if n <= 2 then n else 1)
  {
    DecimalRoundTrip(n);
  }

  /**
   * MRCPRecog's grammar argument: a URI when, after leading white space,
   * it starts with "http://", "https://" or "builtin:" and goes on after
   * it; an inline SRGS XML grammar otherwise.
   */
  function LegacyGrammarType(grammar: string): (r: SpeechChannel.GrammarType)
    ensures r == SpeechChannel.Uri || r == SpeechChannel.SrgsXml
    ensures r == SpeechChannel.Uri <==>
      SpeechChannel.TextStartsWith(grammar, SpeechChannel.HTTP_ID) ||
      SpeechChannel.TextStartsWith(grammar, SpeechChannel.HTTPS_ID) ||
      SpeechChannel.TextStartsWith(grammar, SpeechChannel.BUILTIN_ID)
  {
    if SpeechChannel.TextStartsWith(grammar, SpeechChannel.HTTP_ID) ||
       SpeechChannel.TextStartsWith(grammar, SpeechChannel.HTTPS_ID) ||
       SpeechChannel.TextStartsWith(grammar, SpeechChannel.BUILTIN_ID)
    then SpeechChannel.Uri
    else SpeechChannel.SrgsXml
  }

  /** A built-in grammar name is a URI, even after blanks; the bare prefix is not. */
  lemma BuiltinGrammarIsUri(ws: string, name: string)
    requires SpeechChannel.AllSpace(ws) && name != []
    ensures LegacyGrammarType(ws + SpeechChannel.BUILTIN_ID + name) == SpeechChannel.Uri
    ensures LegacyGrammarType(SpeechChannel.BUILTIN_ID) == SpeechChannel.SrgsXml
  {
    SpeechChannel.LeadingSpaceIgnored(ws, SpeechChannel.BUILTIN_ID + name, SpeechChannel.BUILTIN_ID);
    assert ws + SpeechChannel.BUILTIN_ID + name == ws + (SpeechChannel.BUILTIN_ID + name);
    SpeechChannel.MatchNeedsMore(SpeechChannel.BUILTIN_ID, name);
    assert !SpeechChannel.TextStartsWith(SpeechChannel.BUILTIN_ID, SpeechChannel.HTTP_ID);
    assert !SpeechChannel.TextStartsWith(SpeechChannel.BUILTIN_ID, SpeechChannel.HTTPS_ID);
  }
}
