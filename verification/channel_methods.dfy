// Requests and result bookkeeping shared by the MRCP applications
// (app-unimrcp/app_channel_methods.c): the write-once, consume-on-read result
// record of a recognizer or verifier channel, the input-timer request, the
// RECOGNIZE body built from the loaded grammars, grammar loading and the
// VERIFY request with its once-per-channel START-SESSION.

module ChannelMethods {
  import opened Text
  import opened AudioQueue
  import opened Framework
  import opened SpeechChannel

  /**
   * What became of one request sent to the server: whether the message
   * could be created, whether it could be sent, and the channel state seen
   * when the wait for the response ended.
   */
  datatype Exchange = Exchange(created: bool, sent: bool, observed: ChannelState)

  // ---------------------------------------------------------------------------
  // The result record

  /**
   * `channel_set_results` on the record: rejected (-1, nothing changed)
   * while a completion cause >= 0 is held; otherwise the cause is stored and
   * the result and waveform URI replace the old ones only when non-empty.
   */
  function AcceptResults(rec: ResultRecord, cause: int, result: string, waveformUri: string): (r: (int, ResultRecord))
    ensures r.0 == 0 || r.0 == -1
    ensures r.0 == -1 <==> rec.completionCause >= 0
    ensures r.0 == -1 ==> r.1 == rec
    ensures r.0 == 0 ==>
      r.1.completionCause == cause &&
      r.1.result == (if |result| > 0 then Some(result) else rec.result) &&
      r.1.waveformUri == (if |waveformUri| > 0 then Some(waveformUri) else rec.waveformUri) &&
      r.1.startOfInput == rec.startOfInput && r.1.timersStarted == rec.timersStarted
  {
    if rec.completionCause >= 0 then (-1, rec)
    else
      var res := if |result| > 0 then Some(result) else rec.result;
      var uri := if |waveformUri| > 0 then Some(waveformUri) else rec.waveformUri;
      (0, rec.(result := res, completionCause := cause, waveformUri := uri))
  }

  /**
   * `channel_get_completion_cause` on the record: fails while the cause is
   * negative; otherwise, when the caller asks for it, hands it out as three
   * zero-padded digits and resets it to 0.
   */
  function TakeCompletionCause(rec: ResultRecord, wanted: bool): (r: (int, Option<string>, ResultRecord))
    ensures r.0 == -1 <==> rec.completionCause < 0
    ensures r.0 == -1 ==> r.1 == None && r.2 == rec
    ensures r.0 != -1 ==> r.0 == 0 && (r.1.Some? <==> wanted)
    ensures r.0 == 0 && wanted ==>
      Atoi(r.1.value) == rec.completionCause && |r.1.value| >= 3 &&
      r.2 == rec.(completionCause := 0)
    ensures r.0 == 0 && !wanted ==> r.2 == rec
  {
    if rec.completionCause < 0 then (-1, None, rec)
    else if wanted then
      Pad3RoundTrip(rec.completionCause);
      (0, Some(Pad3(rec.completionCause)), rec.(completionCause := 0))
    else (0, None, rec)
  }

  /** A stored text counts only when it is non-empty (`strlen > 0`). */
  predicate Held(s: Option<string>) {
    s.Some? && |s.value| > 0
  }

  /**
   * `channel_get_results` on the record: the completion cause as above
   * (its failure is ignored), then the result and the waveform URI, each
   * handed out when asked for and held, and then cleared. Always 0.
   */
  function TakeResults(rec: ResultRecord, wantCause: bool, wantResult: bool, wantUri: bool)
    : (r: (int, Option<string>, Option<string>, Option<string>, ResultRecord))
    ensures r.0 == 0
    ensures r.1 == TakeCompletionCause(rec, wantCause).1
    ensures r.2 == (if wantResult && Held(rec.result) then rec.result else None)
    ensures r.3 == (if wantUri && Held(rec.waveformUri) then rec.waveformUri else None)
    ensures r.4.completionCause == TakeCompletionCause(rec, wantCause).2.completionCause
    ensures r.4.result == (if wantResult && Held(rec.result) then None else rec.result)
    ensures r.4.waveformUri == (if wantUri && Held(rec.waveformUri) then None else rec.waveformUri)
    ensures r.4.startOfInput == rec.startOfInput && r.4.timersStarted == rec.timersStarted
  {
    var (_, cause, rec1) := TakeCompletionCause(rec, wantCause);
    var res := if wantResult && Held(rec1.result) then rec1.result else None;
    var rec2 := if wantResult && Held(rec1.result) then rec1.(result := None) else rec1;
    var uri := if wantUri && Held(rec2.waveformUri) then rec2.waveformUri else None;
    var rec3 := if wantUri && Held(rec2.waveformUri) then rec2.(waveformUri := None) else rec2;
    (0, cause, res, uri, rec3)
  }

  /**
   * `recog_channel_get_results` of MRCPRecog and `verif_channel_get_results`
   * of MRCPVerif on the record: unlike the shared getter they
   * fail (-1, nothing handed out or changed) while the completion cause is
   * negative; otherwise they hand out and clear exactly what the shared
   * getter does.
   */
  function TakeResultsStrict(rec: ResultRecord, wantCause: bool, wantResult: bool, wantUri: bool)
    : (r: (int, Option<string>, Option<string>, Option<string>, ResultRecord))
    ensures rec.completionCause < 0 ==> r == (-1, None, None, None, rec)
    ensures rec.completionCause >= 0 ==> r == TakeResults(rec, wantCause, wantResult, wantUri)
  {
    if rec.completionCause < 0 then (-1, None, None, None, rec)
    else
      var cause := if wantCause then Some(Pad3(rec.completionCause)) else None;
      var rec1 := if wantCause then rec.(completionCause := 0) else rec;
      var res := if wantResult && Held(rec.result) then rec.result else None;
      var rec2 := if wantResult && Held(rec.result) then rec1.(result := None) else rec1;
      var uri := if wantUri && Held(rec.waveformUri) then rec.waveformUri else None;
      var rec3 := if wantUri && Held(rec.waveformUri) then rec2.(waveformUri := None) else rec2;
      (0, cause, res, uri, rec3)
  }

  /**
   * Before any result arrives (after RECOGNIZE reset the cause to -1) the
   * getter fails; after a result is set it reads back the cause, the
   * result and the URI, and a second get finds only "000".
   */
  lemma StrictGetRoundTrip(rec: ResultRecord, cause: nat, result: string, uri: string)
    requires rec.completionCause < 0 && |result| > 0 && |uri| > 0
    ensures TakeResultsStrict(rec, true, true, true).0 == -1
    ensures var rec1 := AcceptResults(rec, cause, result, uri).1;
      var got := TakeResultsStrict(rec1, true, true, true);
      got.0 == 0 && Atoi(got.1.value) == cause && got.2 == Some(result) && got.3 == Some(uri) &&
      var again := TakeResultsStrict(got.4, true, true, true);
      again.0 == 0 && again.1 == Some("000") && again.2 == None && again.3 == None
  {
    SetThenGetRoundTrip(rec, cause, result, uri);
  }

  /** Results are write-once: once a set is accepted, every further set is rejected and changes nothing. */
  lemma ResultsWriteOnce(rec: ResultRecord, cause: int, result: string, uri: string,
                         cause2: int, result2: string, uri2: string)
    requires cause >= 0 && AcceptResults(rec, cause, result, uri).0 == 0
    ensures var rec1 := AcceptResults(rec, cause, result, uri).1;
      AcceptResults(rec1, cause2, result2, uri2) == (-1, rec1)
  {
  }

  /**
   * What is set is what is read back, once: a set on a fresh record
   * followed by a get hands out the cause as three digits, the result and
   * the waveform URI; a second get finds the result and URI gone and the
   * cause reset to 0, so it reads "000".
   */
  lemma SetThenGetRoundTrip(rec: ResultRecord, cause: nat, result: string, uri: string)
    requires rec.completionCause < 0 && |result| > 0 && |uri| > 0
    ensures var rec1 := AcceptResults(rec, cause, result, uri).1;
      var got := TakeResults(rec1, true, true, true);
      Atoi(got.1.value) == cause && got.2 == Some(result) && got.3 == Some(uri) &&
      var again := TakeResults(got.4, true, true, true);
      again.1 == Some("000") && again.2 == None && again.3 == None
  {
    var rec1 := AcceptResults(rec, cause, result, uri).1;
    var got := TakeResults(rec1, true, true, true);
    assert got.4.completionCause == 0;
    assert Pad3(0) == "000";
  }

  /** `channel_set_results` on the channel's recognizer record; -1 without one. */
  method ChannelSetResults(ch: SpeechChannel, cause: int, result: string, waveformUri: string) returns (status: int)
    modifies ch.data
    ensures ch.data == null ==> status == -1
    ensures ch.data != null ==>
      (status, ch.data.Record()) == AcceptResults(old(ch.data.Record()), cause, result, waveformUri) &&
      ch.data.grammars == old(ch.data.grammars) && ch.data.lastGrammar == old(ch.data.lastGrammar)
  {
    var r := ch.data;
    if r == null {
      return -1;
    }
    if r.completionCause >= 0 {
      return -1;
    }
    if |result| > 0 {
      r.result := Some(result);
    }
    r.completionCause := cause;
    if |waveformUri| > 0 {
      r.waveformUri := Some(waveformUri);
    }
    status := 0;
  }

  /** `channel_get_completion_cause` on the channel's recognizer record; -1 without one. */
  method ChannelGetCompletionCause(ch: SpeechChannel, wanted: bool) returns (status: int, cause: Option<string>)
    modifies ch.data
    ensures ch.data == null ==> status == -1 && cause == None
    ensures ch.data != null ==>
      (status, cause, ch.data.Record()) == TakeCompletionCause(old(ch.data.Record()), wanted) &&
      ch.data.grammars == old(ch.data.grammars) && ch.data.lastGrammar == old(ch.data.lastGrammar)
  {
    var r := ch.data;
    if r == null {
      return -1, None;
    }
    if r.completionCause < 0 {
      return -1, None;
    }
    cause := None;
    if wanted {
      Pad3RoundTrip(r.completionCause);
      cause := Some(Pad3(r.completionCause));
      r.completionCause := 0;
    }
    status := 0;
  }

  /** `channel_get_results`: the record is dereferenced without a check, so the channel must have one. */
  method ChannelGetResults(ch: SpeechChannel, wantCause: bool, wantResult: bool, wantUri: bool)
    returns (status: int, cause: Option<string>, result: Option<string>, waveformUri: Option<string>)
    requires ch.data != null
    modifies ch.data
    ensures (status, cause, result, waveformUri, ch.data.Record()) ==
      TakeResults(old(ch.data.Record()), wantCause, wantResult, wantUri)
    ensures ch.data.grammars == old(ch.data.grammars) && ch.data.lastGrammar == old(ch.data.lastGrammar)
  {
    var _, c := ChannelGetCompletionCause(ch, wantCause);
    cause := c;
    var r := ch.data;
    result := None;
    if wantResult && r.result.Some? && |r.result.value| > 0 {
      result := r.result;
      r.result := None;
    }
    waveformUri := None;
    if wantUri && r.waveformUri.Some? && |r.waveformUri.value| > 0 {
      waveformUri := r.waveformUri;
      r.waveformUri := None;
    }
    status := 0;
  }

  /**
   * The getter MRCPRecog and MRCPVerif each define for themselves: -1
   * without a record or while the completion cause is negative; otherwise
   * the cause, result and waveform URI are handed out and consumed.
   */
  method ChannelGetResultsStrict(ch: SpeechChannel, wantCause: bool, wantResult: bool, wantUri: bool)
    returns (status: int, cause: Option<string>, result: Option<string>, waveformUri: Option<string>)
    modifies ch.data
    ensures ch.data == null ==> status == -1 && cause == None && result == None && waveformUri == None
    ensures ch.data != null ==>
      (status, cause, result, waveformUri, ch.data.Record()) ==
        TakeResultsStrict(old(ch.data.Record()), wantCause, wantResult, wantUri) &&
      ch.data.grammars == old(ch.data.grammars) && ch.data.lastGrammar == old(ch.data.lastGrammar)
  {
    var r := ch.data;
    if r == null || r.completionCause < 0 {
      return -1, None, None, None;
    }
    cause := None;
    if wantCause {
      cause := Some(Pad3(r.completionCause));
      r.completionCause := 0;
    }
    result := None;
    if wantResult && r.result.Some? && |r.result.value| > 0 {
      result := r.result;
      r.result := None;
    }
    waveformUri := None;
    if wantUri && r.waveformUri.Some? && |r.waveformUri.value| > 0 {
      waveformUri := r.waveformUri;
      r.waveformUri := None;
    }
    status := 0;
  }

  /** `channel_set_start_of_input` */
  method ChannelSetStartOfInput(ch: SpeechChannel) returns (status: int)
    modifies ch.data
    ensures ch.data == null ==> status == -1
    ensures ch.data != null ==>
      status == 0 && ch.data.Record() == old(ch.data.Record()).(startOfInput := 1) &&
      ch.data.grammars == old(ch.data.grammars) && ch.data.lastGrammar == old(ch.data.lastGrammar)
  {
    if ch.data == null {
      return -1;
    }
    ch.data.startOfInput := 1;
    status := 0;
  }

  /** `channel_set_timers_started` */
  method ChannelSetTimersStarted(ch: SpeechChannel) returns (status: int)
    modifies ch.data
    ensures ch.data == null ==> status == -1
    ensures ch.data != null ==>
      status == 0 && ch.data.Record() == old(ch.data.Record()).(timersStarted := 1) &&
      ch.data.grammars == old(ch.data.grammars) && ch.data.lastGrammar == old(ch.data.lastGrammar)
  {
    if ch.data == null {
      return -1;
    }
    ch.data.timersStarted := 1;
    status := 0;
  }

  /**
   * `channel_start_input_timers`: START-INPUT-TIMERS is sent only while the
   * channel is PROCESSING and the timers have not been started; otherwise
   * nothing happens and 0 is returned. Only a message that cannot be
   * created, or a missing record, fails.
   */
  method ChannelStartInputTimers(ch: SpeechChannel, created: bool) returns (status: int, sent: bool)
    ensures ch.data == null ==> status == -1 && !sent
    ensures ch.data != null ==>
      var due := ch.state == Processing && ch.data.timersStarted == 0;
      (sent <==> due && created) && (status == -1 <==> due && !created) && (status == 0 || status == -1)
  {
    if ch.data == null {
      return -1, false;
    }
    status, sent := 0, false;
    if ch.state == Processing && ch.data.timersStarted == 0 {
      if created {
        sent := true;
      } else {
        status := -1;
      }
    }
  }

  // ---------------------------------------------------------------------------
  // The RECOGNIZE body

  /** Size of the `grammar_refs` buffer; the body and its NUL must fit. */
  const GRAMMAR_REFS_SIZE: nat := 4096

  /** One step of the loop: "\r\n" goes before `d` unless the body is still empty. */
  function Appended(body: string, d: string): string {
    if |body| > 0 then body + "\r\n" + d else d
  }

  /** The body the loop builds when every grammar in `ds` fits. */
  function Joined(ds: seq<string>): string {
    if ds == [] then "" else Appended(Joined(ds[..|ds| - 1]), ds[|ds| - 1])
  }

  /** The usual join: the strings with "\r\n" between each two of them. */
  function JoinCrlf(xs: seq<string>): string {
    if xs == [] then ""
    else if |xs| == 1 then xs[0]
    else JoinCrlf(xs[..|xs| - 1]) + "\r\n" + xs[|xs| - 1]
  }

  /** The body is empty exactly when every grammar data taken is empty. */
  lemma {:induction false} JoinedEmpty(ds: seq<string>)
    ensures Joined(ds) == "" <==> forall i :: 0 <= i < |ds| ==> ds[i] == ""
  {
    if ds != [] {
      var init := ds[..|ds| - 1];
      JoinedEmpty(init);
      if Joined(ds) == "" {
        assert Joined(init) == "" && ds[|ds| - 1] == "";
        forall i | 0 <= i < |ds| ensures ds[i] == "" {
          if i < |ds| - 1 { assert ds[i] == init[i]; }
        }
      }
    }
  }

  /**
   * With no empty grammar data the loop's body is the usual "\r\n" join;
   * an empty one after a non-empty body still contributes its separator.
   */
  lemma {:induction false} JoinedIsJoin(ds: seq<string>)
    requires forall i :: 0 <= i < |ds| ==> |ds[i]| > 0
    ensures Joined(ds) == JoinCrlf(ds)
  {
    if |ds| > 1 {
      var init := ds[..|ds| - 1];
      JoinedIsJoin(init);
      assert |init[0]| > 0;
      JoinedEmpty(init);
    } else if |ds| == 1 {
      assert ds[..0] == [];
    }
  }

  /**
   * The body `recog_channel_start` builds from the grammar data taken in
   * table order, and how many grammars were taken: each is appended until
   * one would push the body past GRAMMAR_REFS_SIZE - 1 bytes counting two
   * bytes for the separator; that one and all later ones are dropped.
   */
  function BuildRefs(ds: seq<string>): (r: (string, nat))
    ensures r.1 <= |ds| && |r.0| < GRAMMAR_REFS_SIZE
    ensures r.0 == Joined(ds[..r.1])
    ensures r.1 < |ds| ==> |r.0| + |ds[r.1]| + 2 > GRAMMAR_REFS_SIZE - 1
  {
    if ds == [] then ("", 0)
    else
      var (body, taken) := BuildRefs(ds[..|ds| - 1]);
      var d := ds[|ds| - 1];
      assert ds[..|ds| - 1][..taken] == ds[..taken];
      if taken < |ds| - 1 || |body| + |d| + 2 > GRAMMAR_REFS_SIZE - 1 then
        (body, taken)
      else
        assert ds[..|ds|] == ds;
        (Appended(body, d), |ds|)
  }

  /** When every grammar fits, the body holds all of them. */
  lemma {:induction false} AllFit(ds: seq<string>)
    requires forall i :: 0 <= i < |ds| ==> |Joined(ds[..i])| + |ds[i]| + 2 < GRAMMAR_REFS_SIZE
    ensures BuildRefs(ds) == (Joined(ds), |ds|)
  {
    if ds != [] {
      var init := ds[..|ds| - 1];
      forall i | 0 <= i < |init|
        ensures |Joined(init[..i])| + |init[i]| + 2 < GRAMMAR_REFS_SIZE
      {
        assert init[..i] == ds[..i];
      }
      AllFit(init);
      assert ds[..|ds|] == ds;
    }
  }

  /** `keys` is an order in which the table can hand out the grammars of `m`: each key once. */
  ghost predicate IsOrderOf<V>(keys: seq<string>, m: map<string, V>) {
    (forall k :: k in m <==> k in keys) &&
    forall i, j :: 0 <= i < j < |keys| ==> keys[i] != keys[j]
  }

  /** The grammar data in the order the table hands the grammars out. */
  function DataInOrder(grammars: map<string, Grammar>, keys: seq<string>): (r: seq<string>)
    requires forall i :: 0 <= i < |keys| ==> keys[i] in grammars
    ensures |r| == |keys| && forall i :: 0 <= i < |keys| ==> r[i] == grammars[keys[i]].data
  {
    if keys == [] then [] else [grammars[keys[0]].data] + DataInOrder(grammars, keys[1..])
  }

  /** `memcpy(buf + at, s, |s|)` */
  method CopyInto(buf: array<char>, at: nat, s: string)
    requires at + |s| <= buf.Length
    modifies buf
    ensures buf[..at] == old(buf[..at]) && buf[at..at + |s|] == s
  {
    var k := 0;
    while k < |s|
      invariant 0 <= k <= |s|
      invariant buf[..at] == old(buf[..at])
      invariant buf[at..at + k] == s[..k]
    {
      buf[at + k] := s[k];
      k := k + 1;
      assert buf[at..at + k] == buf[at..at + k - 1] + [buf[at + k - 1]];
    }
  }

  /** The loop of `recog_channel_start` that fills `grammar_refs` with a running length. */
  method FillGrammarRefs(ds: seq<string>) returns (body: string)
    ensures body == BuildRefs(ds).0
  {
    var buf := new char[GRAMMAR_REFS_SIZE];
    var length := 0;
    var k := 0;
    while k < |ds|
      invariant 0 <= k <= |ds|
      invariant 0 <= length < GRAMMAR_REFS_SIZE == buf.Length
      invariant BuildRefs(ds[..k]) == (buf[..length], k)
    {
      var d := ds[k];
      if length + |d| + 2 > GRAMMAR_REFS_SIZE - 1 {
        StoppedStays(ds, k);
        break;
      }
      TakenStep(ds, k);
      length := AppendRef(buf, length, d);
      k := k + 1;
    }
    if k == |ds| {
      assert ds[..k] == ds;
    }
    body := buf[..length];
  }

  /** One turn of the loop: the separator when the body is not empty, then the grammar data. */
  method AppendRef(buf: array<char>, length: nat, d: string) returns (n: nat)
    requires length + |d| + 2 <= buf.Length
    modifies buf
    ensures n <= length + |d| + 2 && buf[..n] == Appended(old(buf[..length]), d)
  {
    n := length;
    if n > 0 {
      buf[n] := '\r';
      buf[n + 1] := '\n';
      assert buf[..n + 2] == old(buf[..length]) + "\r\n";
      n := n + 2;
    }
    CopyInto(buf, n, d);
    assert buf[..n + |d|] == buf[..n] + buf[n..n + |d|];
    n := n + |d|;
  }

  /** A grammar that fits is appended to the body built so far. */
  lemma TakenStep(ds: seq<string>, k: nat)
    requires k < |ds| && BuildRefs(ds[..k]).1 == k
    requires |BuildRefs(ds[..k]).0| + |ds[k]| + 2 <= GRAMMAR_REFS_SIZE - 1
    ensures BuildRefs(ds[..k + 1]) == (Appended(BuildRefs(ds[..k]).0, ds[k]), k + 1)
  {
    assert ds[..k + 1][..k] == ds[..k];
  }

  /** Once a grammar has been dropped, the rest of the table adds nothing. */
  lemma {:induction false} StoppedStays(ds: seq<string>, k: nat)
    requires k < |ds| && BuildRefs(ds[..k]).1 == k
    requires |BuildRefs(ds[..k]).0| + |ds[k]| + 2 > GRAMMAR_REFS_SIZE - 1
    ensures BuildRefs(ds) == BuildRefs(ds[..k])
    decreases |ds|
  {
    var init := ds[..|ds| - 1];
    if |ds| > k + 1 {
      assert init[..k] == ds[..k] && init[k] == ds[k];
      StoppedStays(init, k);
    } else {
      assert init == ds[..k];
    }
  }

  /**
   * `recog_channel_start`: only a READY channel with a recognizer record
   * starts. The record is reset (no result, cause -1, no start of input,
   * timers flag from the argument), the body is built from the grammars in
   * `keys`, any order the table may use, and an empty body fails. Once RECOGNIZE is sent the
   * audio queue is emptied, and the call succeeds when the channel is
   * PROCESSING after the wait.
   */
  method RecogChannelStart(ch: SpeechChannel, startInputTimers: int, keys: seq<string>, x: Exchange)
    returns (status: int, body: string)
    requires ch.Valid()
    requires ch.data != null ==> IsOrderOf(keys, ch.data.grammars)
    modifies ch`state, ch.queue.buffer`used, ch.data
    ensures ch.Valid() && (status == 0 || status == -1)
    ensures old(ch.state) != Ready || old(ch.data) == null ==>
      status == -1 && ch.state == old(ch.state) && ch.queue.Contents() == old(ch.queue.Contents()) &&
      (ch.data != null ==> ch.data.Record() == old(ch.data.Record()))
    ensures old(ch.state) == Ready && ch.data != null ==>
      ch.data.Record() == old(ch.data.Record()).(result := None, completionCause := -1,
                                                   startOfInput := 0, timersStarted := startInputTimers) &&
      ch.data.grammars == old(ch.data.grammars) &&
      body == BuildRefs(DataInOrder(ch.data.grammars, keys)).0 &&
      var reached := body != "" && x.created;
      (reached ==> ch.queue.Contents() == []) &&
      (!reached ==> ch.queue.Contents() == old(ch.queue.Contents())) &&
      ch.state == (if reached && x.sent then x.observed else Ready) &&
      (status == 0 <==> reached && x.sent && x.observed == Processing)
  {
    body := "";
    if ch.state != Ready || ch.data == null {
      return -1, body;
    }
    var r := ch.data;
    r.ResetForRecognize(startInputTimers);
    body := FillGrammarRefs(DataInOrder(r.grammars, keys));
    if |body| == 0 {
      return -1, body;
    }
    if !x.created {
      return -1, body;
    }
    var _ := ch.queue.Clear();
    if !x.sent {
      return -1, body;
    }
    ch.SetStateUnlocked(x.observed);
    status := if ch.state != Processing then -1 else 0;
  }

  /** The body of a RECOGNIZE stays below the buffer size and is empty only when all grammar data taken is empty. */
  lemma RecognizeBodyBounded(ds: seq<string>)
    ensures |BuildRefs(ds).0| <= GRAMMAR_REFS_SIZE - 1
    ensures BuildRefs(ds).0 == "" <==> forall i :: 0 <= i < BuildRefs(ds).1 ==> ds[i] == ""
  {
    var taken := BuildRefs(ds).1;
    JoinedEmpty(ds[..taken]);
  }

  // ---------------------------------------------------------------------------
  // Grammar loading

  /** `apr_snprintf(ldata, 255, "session:%s", name)`: at most 254 characters are kept. */
  function SessionRef(name: string): (r: string)
    ensures |r| <= 254 && r <= SESSION_ID + name
    ensures |name| <= 254 - |SESSION_ID| ==> r == SESSION_ID + name
  {
    var full := SESSION_ID + name;
    if |full| <= 254 then full else full[..254]
  }

  /** The MIME type of a grammar type for the channel's profile; only the four profile-configured types need one. */
  function ChannelMime(t: GrammarType, p: Profile?): string
    requires p != null || t == Unknown || t == Uri
    reads p
  {
    if p == null then (if t == Uri then MIME_TYPE_URI_LIST else "")
    else GrammarTypeToMime(t, p.mimes)
  }

  /**
   * `recog_channel_load_grammar`: a type without MIME type, or a channel
   * that is not READY, is refused. A URI grammar is stored as given; any
   * other is first sent in DEFINE-GRAMMAR (the channel PROCESSING meanwhile)
   * and, once the channel is READY again, stored as the URI
   * "session:<name>". The grammar is kept under its name.
   */
  method RecogChannelLoadGrammar(ch: SpeechChannel, name: string, gtype: GrammarType, gdata: string, x: Exchange)
    returns (status: int)
    requires ch.Valid()
    requires ch.profile != null || gtype == Unknown || gtype == Uri
    modifies ch`state, ch.queue.buffer`used, ch.data
    ensures ch.Valid() && (status == 0 || status == -1)
    ensures ChannelMime(gtype, ch.profile) == "" || old(ch.state) != Ready ==>
      status == -1 && ch.state == old(ch.state) && ch.queue.Contents() == old(ch.queue.Contents()) &&
      (ch.data != null ==> ch.data.grammars == old(ch.data.grammars))
    ensures ChannelMime(gtype, ch.profile) != "" && old(ch.state) == Ready && gtype == Uri ==>
      status == 0 && ch.state == Ready &&
      (ch.data != null ==> ch.data.grammars == old(ch.data.grammars)[name := Grammar(name, Uri, gdata)])
    ensures ChannelMime(gtype, ch.profile) != "" && old(ch.state) == Ready && gtype != Uri ==>
      ch.state == (if !x.created then Ready else if !x.sent then Processing else x.observed) &&
      (status == 0 <==> x.created && x.sent && x.observed == Ready) &&
      (ch.data != null ==>
         (ch.data.grammars ==
          if status == 0 then old(ch.data.grammars)[name := Grammar(name, Uri, SessionRef(name))]
          else old(ch.data.grammars)))
    ensures ch.data != null ==> ch.data.Record() == old(ch.data.Record())
  {
    var mime := ChannelMime(gtype, ch.profile);
    if |mime| == 0 {
      return -1;
    }
    if ch.state != Ready {
      return -1;
    }
    var t := gtype;
    var d := gdata;
    if t != Uri {
      if !x.created {
        return -1;
      }
      ch.SetStateUnlocked(Processing);
      if !x.sent {
        return -1;
      }
      ch.SetStateUnlocked(x.observed);
      if ch.state != Ready {
        return -1;
      }
      d := SessionRef(name);
      t := Uri;
    }
    if ch.data != null {
      ch.data.grammars := ch.data.grammars[name := Grammar(name, t, d)];
    }
    status := 0;
  }

  // ---------------------------------------------------------------------------
  // VERIFY

  datatype VerifRequest = SendVerify | SendVerifyFromBuffer | SendClearBuffer | SendVerifyRollback

  /**
   * The request `verif_channel_start` sends for the buffer-handling option
   * (None when the option is absent), and whether it is a buffer operation
   * that leaves the channel READY rather than PROCESSING.
   */
  function VerifRequestFor(bufferHandling: Option<string>): (r: (VerifRequest, bool))
    ensures r.1 <==> r.0 == SendClearBuffer || r.0 == SendVerifyRollback
    ensures bufferHandling.None? ==> r == (SendVerify, false)
  {
    if bufferHandling.None? then (SendVerify, false)
    else if StartsWith(bufferHandling.value, "verify") then (SendVerifyFromBuffer, false)
    else if StartsWith(bufferHandling.value, "clear") then (SendClearBuffer, true)
    else if StartsWith(bufferHandling.value, "rollback") then (SendVerifyRollback, true)
    else (SendVerify, false)
  }

  /** Any value not naming one of the three buffer operations falls back to a plain VERIFY. */
  lemma VerifRequestChoices(v: string)
    ensures VerifRequestFor(Some("verify" + v)).0 == SendVerifyFromBuffer
    ensures VerifRequestFor(Some("clear" + v)) == (SendClearBuffer, true)
    ensures VerifRequestFor(Some("rollback" + v)) == (SendVerifyRollback, true)
    ensures |v| > 0 && v[0] != 'v' && v[0] != 'c' && v[0] != 'r' ==> VerifRequestFor(Some(v)) == (SendVerify, false)
  {
    assert "verify" <= "verify" + v;
    assert "clear" <= "clear" + v;
    assert "rollback" <= "rollback" + v;
    assert "clear" + v != [] && ("clear" + v)[0] == 'c';
    assert ("rollback" + v)[0] == 'r';
  }

  /**
   * `verif_channel_start`: only a READY channel with a record starts; the
   * record is reset as for RECOGNIZE. START-SESSION is sent only while the
   * channel has no verification session (`session`); the audio queue is
   * emptied just before it is sent, and the channel remembers the session
   * once it is READY afterwards. Then the request that the buffer-handling
   * option selects is sent (`verify`); `causeSet` is the completion cause
   * the response handler recorded during the wait, if any. Without one, a
   * plain or from-buffer VERIFY must leave the channel PROCESSING and a
   * buffer operation READY.
   */
  method VerifChannelStart(ch: SpeechChannel, startInputTimers: int, bufferHandling: Option<string>,
                           session: Exchange, verify: Exchange, causeSet: Option<int>)
    returns (status: int, startedSession: bool)
    requires ch.Valid()
    modifies ch`state, ch`hasVerifSession, ch.queue.buffer`used, ch.data
    ensures ch.Valid() && (status == 0 || status == -1)
    ensures old(ch.state) != Ready || old(ch.data) == null ==>
      status == -1 && !startedSession && ch.state == old(ch.state) &&
      ch.hasVerifSession == old(ch.hasVerifSession) && ch.queue.Contents() == old(ch.queue.Contents()) &&
      (ch.data != null ==> ch.data.Record() == old(ch.data.Record()))
    ensures old(ch.state) == Ready && ch.data != null ==>
      var noSession := !old(ch.hasVerifSession);
      var sessionSent := noSession && session.created && session.sent;
      var sessionOk := !noSession || (sessionSent && session.observed == Ready);
      var verifySent := sessionOk && verify.created && verify.sent;
      var cause := if verifySent && causeSet.Some? then causeSet.value else -1;
      ch.data.Record() == old(ch.data.Record()).(result := None, completionCause := cause,
                                                   startOfInput := 0, timersStarted := startInputTimers) &&
      ch.data.grammars == old(ch.data.grammars) &&
      (startedSession <==> sessionSent) &&
      ch.hasVerifSession == (old(ch.hasVerifSession) || (sessionSent && session.observed == Ready)) &&
      ch.queue.Contents() == (if noSession && session.created then [] else old(ch.queue.Contents())) &&
      ch.state == (if sessionSent && session.observed != Ready then session.observed
                   else if verifySent then verify.observed else Ready) &&
      (status == 0 <==>
         verifySent && (cause >= 0 || verify.observed == (if VerifRequestFor(bufferHandling).1 then Ready else Processing)))
  {
    startedSession := false;
    if ch.state != Ready || ch.data == null {
      return -1, false;
    }
    var r := ch.data;
    r.ResetForRecognize(startInputTimers);
    if !ch.hasVerifSession {
      if !session.created {
        return -1, false;
      }
      var _ := ch.queue.Clear();
      if !session.sent {
        return -1, false;
      }
      startedSession := true;
      ch.SetStateUnlocked(session.observed);
      if ch.state != Ready {
        return -1, startedSession;
      }
      ch.hasVerifSession := true;
    }
    var (request, buffered) := VerifRequestFor(bufferHandling);
    if !verify.created || !verify.sent {
      return -1, startedSession;
    }
    ch.SetStateUnlocked(verify.observed);
    if causeSet.Some? {
      r.completionCause := causeSet.value;
    }
    status := 0;
    if r.completionCause < 0 {
      if !buffered && ch.state != Processing {
        status := -1;
      } else if buffered && ch.state != Ready {
        status := -1;
      }
    }
  }
}
