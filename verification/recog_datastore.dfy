// The recognition datastore of recog_datastore.c: the last NLSML result
// MRCPRecog stored on an Asterisk channel, and the RECOG_* dialplan
// functions that read it back.

module RecogDatastore {
  import opened Text
  import opened Nlsml
  import AppDatastore

  /** `recog_data_t`: the parsed result kept for one channel. */
  class RecogData {
    const name: string
    var result: Option<Result>

    constructor (name: string)
      ensures this.name == name && result == None
    {
      this.name := name;
      result := None;
    }
  }

  /** The part of an Asterisk channel this module touches: its name and its recognition datastore, if attached. */
  class Channel {
    const name: string
    var recogData: RecogData?

    constructor (name: string)
      ensures this.name == name && recogData == null
    {
      this.name := name;
      recogData := null;
    }
  }

  /**
   * `recog_datastore_result_set`: the channel's datastore is found or, when
   * it has none, made and attached (`allocOk` says whether allocating it
   * succeeded, else -1 and nothing changes); its result is then replaced by
   * the parse of the new result text, `parsed`, even when that parse failed.
   * A channel never gets a second datastore.
   */
  method ResultSet(chan: Channel, parsed: Option<Result>, allocOk: bool) returns (status: int)
    modifies chan, chan.recogData
    ensures old(chan.recogData) == null && !allocOk ==> status == -1 && chan.recogData == null
    ensures old(chan.recogData) != null || allocOk ==>
      status == 0 && chan.recogData != null && chan.recogData.result == parsed
    ensures old(chan.recogData) != null ==> chan.recogData == old(chan.recogData)
    ensures old(chan.recogData) == null && allocOk ==> fresh(chan.recogData) && chan.recogData.name == chan.name
  {
    var data := chan.recogData;
    if data == null {
      if !allocOk {
        return -1;
      }
      data := new RecogData(chan.name);
      chan.recogData := data;
    }
    data.result := parsed;
    status := 0;
  }

  /** The result a dialplan function reads: none without a datastore or a parsed result. */
  function StoredResult(rd: RecogData?): Option<Result>
    reads rd
  {
    if rd == null then None else rd.result
  }

  /** `recog_interpretation_find`: as in the application datastore, walked from the first interpretation. */
  method InterpretationFind(rd: RecogData?, nbest: Option<string>) returns (r: Option<Interpretation>)
    ensures StoredResult(rd).None? ==> r.None?
    ensures StoredResult(rd).Some? ==> r == Nth(StoredResult(rd).value, AppDatastore.NbestIndex(nbest))
  {
    if rd == null || rd.result.None? {
      return None;
    }
    r := Walk(rd.result.value, AppDatastore.NbestIndex(nbest));
  }

  /** `recog_instance_find`: the "i/j" argument selects instance j of interpretation i, with no path. */
  method InstanceFind(rd: RecogData?, num: Option<string>) returns (r: Option<Instance>)
    ensures StoredResult(rd).None? ==> r.None?
    ensures StoredResult(rd).Some? ==>
      r == AppDatastore.InstanceAt(StoredResult(rd).value, ParseIndexPair(num).0, ParseIndexPair(num).1)
  {
    if rd == null || rd.result.None? {
      return None;
    }
    var (i, j) := ParseIndexPair(num);
    var it := Walk(rd.result.value, i);
    if it.None? {
      return None;
    }
    r := Walk(it.value.instances, j);
  }

  /** Given the same result and argument, both datastores find the same instance. */
  lemma InstanceFindersAgree(res: Result, num: Option<string>)
    ensures var (i, j) := ParseIndexPair(num);
      var (i', j', _) := ParseSelector(num);
      AppDatastore.InstanceAt(res, i, j) == AppDatastore.InstanceAt(res, i', j')
  {
    SelectorsAgree(num);
  }

  /** The interpretation the dialplan functions read for `data`. */
  function DialplanInterpretation(rd: RecogData?, data: Option<string>): Option<Interpretation>
    reads rd
  {
    if StoredResult(rd).None? then None else Nth(StoredResult(rd).value, AppDatastore.NbestIndex(data))
  }

  /** RECOG_CONFIDENCE(): -1 unless the interpretation exists; its confidence is then printed with two decimals. */
  method RecogConfidence(rd: RecogData?, data: Option<string>) returns (status: int)
    ensures status == 0 <==> DialplanInterpretation(rd, data).Some?
    ensures status == 0 || status == -1
  {
    var it := InterpretationFind(rd, data);
    status := if it.None? then -1 else 0;
  }

  /** RECOG_GRAMMAR(): the grammar of the interpretation, copied into a buffer of `len` characters. */
  method RecogGrammar(rd: RecogData?, data: Option<string>, len: nat) returns (status: int, buf: string)
    requires len > 0
    ensures var it := DialplanInterpretation(rd, data);
      (status == 0 <==> it.Some? && it.value.grammar.Some?) &&
      (status == 0 ==> buf == CopyString(it.value.grammar.value, len))
    ensures status == 0 || status == -1
  {
    var it := InterpretationFind(rd, data);
    if it.None? || it.value.grammar.None? {
      return -1, "";
    }
    return 0, CopyString(it.value.grammar.value, len);
  }

  /** RECOG_INPUT(): the content of the interpretation's input. */
  method RecogInput(rd: RecogData?, data: Option<string>, len: nat) returns (status: int, buf: string)
    requires len > 0
    ensures var it := DialplanInterpretation(rd, data);
      (status == 0 <==> it.Some? && it.value.input.Some? && it.value.input.value.content.Some?) &&
      (status == 0 ==> buf == CopyString(it.value.input.value.content.value, len))
    ensures status == 0 || status == -1
  {
    var it := InterpretationFind(rd, data);
    if it.None? || it.value.input.None? || it.value.input.value.content.None? {
      return -1, "";
    }
    return 0, CopyString(it.value.input.value.content.value, len);
  }

  /** RECOG_INSTANCE(): the content of the selected instance. */
  method RecogInstance(rd: RecogData?, data: Option<string>, len: nat) returns (status: int, buf: string)
    requires len > 0
    ensures StoredResult(rd).None? ==> status == -1
    ensures StoredResult(rd).Some? ==>
      var inst := AppDatastore.InstanceAt(StoredResult(rd).value, ParseIndexPair(data).0, ParseIndexPair(data).1);
      (status == 0 <==> inst.Some? && inst.value.content.Some?) &&
      (status == 0 ==> buf == CopyString(inst.value.content.value, len))
    ensures status == 0 || status == -1
  {
    var inst := InstanceFind(rd, data);
    if inst.None? || inst.value.content.None? {
      return -1, "";
    }
    return 0, CopyString(inst.value.content.value, len);
  }

  /** After a result is stored, RECOG_INSTANCE("i/j") reads the content of instance j of interpretation i. */
  lemma StoredInstanceReadable(res: Result, i: nat, j: nat)
    requires i < |res| && j < |res[i].instances|
    ensures var sel := ParseIndexPair(Some(Decimal(i) + "/" + Decimal(j)));
      AppDatastore.InstanceAt(res, sel.0, sel.1) == Some(res[i].instances[j])
  {
    PairRoundTrip(i, j);
    SelectorsAgree(Some(Decimal(i) + "/" + Decimal(j)));
  }
}
