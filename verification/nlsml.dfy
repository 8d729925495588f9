// The parts of an NLSML recognition result (section 6.3 of RFC 6787) that
// the dialplan functions of app-unimrcp/app_datastore.c and
// app-unimrcp/recog_datastore.c look at, and the lookups they share: the
// n-th element walk, the "i/j/path" selector, the element path walk and
// the in-place character replacement.

module Nlsml {
  import opened Text

  /** An XML element of an instance: its name, its children in document order and its inner text. */
  datatype Elem = Elem(name: string, children: seq<Elem>, inner: string)

  /** An instance: the text the library generates for it and, for XML content, its root element. */
  datatype Instance = Instance(content: Option<string>, elem: Option<Elem>)

  /** The input of an interpretation: its mode and the text the library generates for it. */
  datatype Input = Input(mode: Option<string>, content: Option<string>)

  /** An interpretation, best first in the result. Confidences are floating point and not modelled. */
  datatype Interpretation = Interpretation(grammar: Option<string>, input: Option<Input>, instances: seq<Instance>)

  type Result = seq<Interpretation>

  /** The element at `index`, if there is one. */
  function Nth<T>(xs: seq<T>, index: int): (r: Option<T>)
    ensures r.Some? <==> 0 <= index < |xs|
    ensures r.Some? ==> r.value == xs[index]
  {
    if 0 <= index < |xs| then Some(xs[index]) else None
  }

  /**
   * The walk of the `*_find` helpers: start at the first element and step
   * to the next one while decrementing the index, until it reaches 0 or the
   * list ends. A negative index never reaches 0.
   */
  method Walk<T>(xs: seq<T>, index: int) returns (r: Option<T>)
    ensures r == Nth(xs, index)
  {
    var i := index;
    var k := 0;
    while k < |xs|
      invariant 0 <= k <= |xs| && i == index - k
      invariant index >= 0 ==> k <= index
      decreases |xs| - k
    {
      if i == 0 {
        return Some(xs[k]);
      }
      i := i - 1;
      k := k + 1;
    }
    r := None;
  }

  // ---------------------------------------------------------------------------
  // Selectors

  /**
   * The "i/j/path" argument of RECOG_INSTANCE in app_datastore.c: with a
   * '/', `atoi` of the text before it is the interpretation and `atoi` of
   * the text after it the instance, and whatever follows a second '/' is
   * the path; without one, the interpretation is 0 and the whole argument
   * is the instance. No argument selects 0/0.
   */
  function ParseSelector(num: Option<string>): (r: (int, int, Option<string>))
    ensures num.None? ==> r == (0, 0, None)
    ensures r.2.Some? ==> num.Some? && Contains(num.value, "/")
  {
    if num.None? then (0, 0, None)
    else
      var (head, tail) := StrSep(num.value, {'/'});
      if tail.None? then (0, Atoi(num.value), None)
      else
        assert num.value[|head|..|head| + 1] == "/";
        ContainsAt(num.value, "/", |head|);
        (Atoi(head), Atoi(tail.value), StrSep(tail.value, {'/'}).1)
  }

  /** The "i/j" argument of RECOG_INSTANCE in recog_datastore.c: as above without the path. */
  function ParseIndexPair(num: Option<string>): (r: (int, int))
    ensures num.None? ==> r == (0, 0)
  {
    if num.None? then (0, 0)
    else
      var (head, tail) := StrSep(num.value, {'/'});
      if tail.None? then (0, Atoi(num.value)) else (Atoi(head), Atoi(tail.value))
  }

  /** The two selector parsers agree on the indices. */
  lemma SelectorsAgree(num: Option<string>)
    ensures ParseIndexPair(num) == (ParseSelector(num).0, ParseSelector(num).1)
  {
  }

  lemma DecimalHasNoSlash(n: nat)
    ensures forall k :: 0 <= k < |Decimal(n)| ==> Decimal(n)[k] !in {'/'}
  {
    var d := Decimal(n);
    forall k | 0 <= k < |d| ensures d[k] !in {'/'} { assert IsDigit(d[k]); }
  }

  lemma ParseSelectorSplit(s: string, head: string, tail: string)
    requires StrSep(s, {'/'}) == (head, Some(tail))
    ensures ParseSelector(Some(s)) == (Atoi(head), Atoi(tail), StrSep(tail, {'/'}).1)
  {
  }

  /** What `%d/%d/%s` prints, the selector reads back. */
  lemma SelectorRoundTrip(i: nat, j: nat, path: string)
    ensures ParseSelector(Some(Decimal(i) + "/" + Decimal(j) + "/" + path)) == (i, j, Some(path))
  {
    var di, dj := Decimal(i), Decimal(j);
    var tail := dj + "/" + path;
    var s := di + "/" + tail;
    assert StrSep(s, {'/'}) == (di, Some(tail)) by {
      DecimalHasNoSlash(i);
      assert "/" == ['/'];
      StrSepAt(di, '/', {'/'}, tail);
    }
    assert StrSep(tail, {'/'}) == (dj, Some(path)) by {
      DecimalHasNoSlash(j);
      assert "/" == ['/'];
      StrSepAt(dj, '/', {'/'}, path);
    }
    assert Atoi(di) == i by { DecimalRoundTrip(i); }
    assert Atoi(tail) == j by {
      Regroup3(dj, "/", path);
      AtoiStopsAtNonDigit(j, "/" + path);
    }
    SelectorOfParts(di, dj, path, i, j);
  }

  lemma SelectorOfParts(di: string, dj: string, path: string, i: int, j: int)
    requires StrSep(di + "/" + (dj + "/" + path), {'/'}) == (di, Some(dj + "/" + path))
    requires StrSep(dj + "/" + path, {'/'}) == (dj, Some(path))
    requires Atoi(di) == i && Atoi(dj + "/" + path) == j
    ensures ParseSelector(Some(di + "/" + dj + "/" + path)) == (i, j, Some(path))
  {
    ParseSelectorSplit(di + "/" + (dj + "/" + path), di, dj + "/" + path);
    Regroup(di, "/", dj, "/", path);
  }

  lemma Regroup3(a: string, b: string, c: string)
    ensures a + b + c == a + (b + c)
  {
  }

  lemma Regroup(a: string, b: string, c: string, d: string, e: string)
    ensures a + b + c + d + e == a + b + (c + d + e)
  {
  }

  /** What `%d/%d` prints, the selector reads back, with no path. */
  lemma PairRoundTrip(i: nat, j: nat)
    ensures ParseSelector(Some(Decimal(i) + "/" + Decimal(j))) == (i, j, None)
  {
    var di, dj := Decimal(i), Decimal(j);
    DecimalHasNoSlash(i);
    DecimalHasNoSlash(j);
    assert di + "/" + dj == di + ['/'] + dj;
    StrSepAt(di, '/', {'/'}, dj);
    StrSepNone(dj, {'/'});
    DecimalRoundTrip(i);
    DecimalRoundTrip(j);
  }

  /** A bare number selects that instance of the best interpretation. */
  lemma BareNumberSelectsInstance(j: nat)
    ensures ParseSelector(Some(Decimal(j))) == (0, j, None)
  {
    DecimalHasNoSlash(j);
    StrSepNone(Decimal(j), {'/'});
    DecimalRoundTrip(j);
  }

  // ---------------------------------------------------------------------------
  // Element paths

  /** The index of the first child whose name equals `name` ignoring case. */
  function FirstNamed(children: seq<Elem>, name: string): (r: Option<nat>)
    ensures r.Some? ==> r.value < |children| && EqualsIgnoreCase(children[r.value].name, name)
    ensures r.Some? ==> forall k :: 0 <= k < r.value ==> !EqualsIgnoreCase(children[k].name, name)
    ensures r.None? ==> forall k :: 0 <= k < |children| ==> !EqualsIgnoreCase(children[k].name, name)
  {
    if children == [] then None
    else if EqualsIgnoreCase(children[0].name, name) then Some(0)
    else
      var r := FirstNamed(children[1..], name);
      if r.None? then None else Some(r.value + 1)
  }

  /** The text after the last '/' of a path. */
  function LastSegment(path: string): string
    decreases |path|
  {
    var (_, tail) := StrSep(path, {'/'});
    if tail.None? then path else LastSegment(tail.value)
  }

  /**
   * `recog_instance_find_elem`: the path is split at its first '/'; the
   * first child named like the first segment (ignoring case) is taken, and
   * the rest of the path is followed from there. Only the first matching
   * child is tried. The element found is named like the last segment.
   */
  function FindElem(e: Elem, path: string): (r: Option<Elem>)
    ensures r.Some? ==> EqualsIgnoreCase(r.value.name, LastSegment(path))
    decreases e
  {
    var (head, tail) := StrSep(path, {'/'});
    var i := FirstNamed(e.children, head);
    if i.None? then None
    else if tail.None? then Some(e.children[i.value])
    else FindElem(e.children[i.value], tail.value)
  }

  /**
   * Following "a/rest" is following "a" and then "rest" from the element
   * found; a path without '/' names a child of the element itself.
   */
  lemma FindElemSteps(e: Elem, name: string, rest: string)
    requires forall k :: 0 <= k < |name| ==> name[k] != '/'
    ensures var step := FindElem(e, name);
      (step.Some? <==> exists k :: 0 <= k < |e.children| && EqualsIgnoreCase(e.children[k].name, name)) &&
      FindElem(e, name + "/" + rest) == if step.Some? then FindElem(step.value, rest) else None
  {
    StrSepNone(name, {'/'});
    assert name + "/" + rest == name + ['/'] + rest;
    StrSepAt(name, '/', {'/'}, rest);
    var i := FirstNamed(e.children, name);
    if i.Some? {
      assert EqualsIgnoreCase(e.children[i.value].name, name);
    }
  }

  // ---------------------------------------------------------------------------
  // Character replacement

  /** `s` with every `find` replaced by `repl`. */
  function Replaced(s: string, find: char, repl: char): (r: string)
    ensures |r| == |s|
    ensures forall i :: 0 <= i < |s| ==> r[i] == if s[i] == find then repl else s[i]
  {
    if s == [] then [] else Replaced(s[..|s| - 1], find, repl) + [if s[|s| - 1] == find then repl else s[|s| - 1]]
  }

  /** How often `c` occurs in `s`. */
  function Occurrences(s: string, c: char): nat {
    if s == [] then 0 else Occurrences(s[..|s| - 1], c) + (if s[|s| - 1] == c then 1 else 0)
  }

  /** After replacing every `find`, none is left, and replacing again changes nothing. */
  lemma ReplacedRemovesAll(s: string, find: char, repl: char)
    requires find != repl
    ensures Occurrences(Replaced(s, find, repl), find) == 0
    ensures Replaced(Replaced(s, find, repl), find, repl) == Replaced(s, find, repl)
  {
    ReplacedNoOccurrence(Replaced(s, find, repl), find);
  }

  lemma {:induction false} ReplacedNoOccurrence(s: string, c: char)
    requires forall i :: 0 <= i < |s| ==> s[i] != c
    ensures Occurrences(s, c) == 0
  {
    if s != [] {
      ReplacedNoOccurrence(s[..|s| - 1], c);
    }
  }

  /**
   * `recog_instance_replace_char` on the C string held in `a[..n]` (NUL at
   * `a[n]`): each `find` is overwritten by `repl` while scanning with
   * `strchr`, and the number of replacements is returned; the string keeps
   * its length.
   */
  method ReplaceChar(a: array<char>, n: nat, find: char, repl: char) returns (count: nat)
    requires n < a.Length && a[n] == NUL && find != NUL
    requires forall i :: 0 <= i < n ==> a[i] != NUL
    modifies a
    ensures a[..n] == Replaced(old(a[..n]), find, repl) && a[n..] == old(a[n..])
    ensures count == Occurrences(old(a[..n]), find)
  {
    ghost var s := a[..n];
    var p := 0;
    count := 0;
    while p < n
      invariant 0 <= p <= n
      invariant a[..p] == Replaced(s[..p], find, repl) && a[p..] == old(a[p..])
      invariant count == Occurrences(s[..p], find)
    {
      assert s[..p + 1][..p] == s[..p];
      if a[p] == find {
        a[p] := repl;
        count := count + 1;
      }
      assert a[..p + 1] == a[..p] + [a[p]];
      p := p + 1;
    }
    assert s[..n] == s;
  }

}
