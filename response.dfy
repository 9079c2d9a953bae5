/**
 * The response models of src/app/schemas/response.py as validity predicates: each field's length bound,
 * whether it may be null, and (for lists) that no entry is null. A dictionary that fails a predicate is one
 * the model's constructor rejects with a validation error.
 *
 * The lemmas compose them with the dictionaries `search` and `generate_answer` build: only a matched
 * search and a clean generated answer make it through.
 */
module ResponseSchema {
  import opened Wrappers
  import opened Strings
  import opened Exceptions
  import opened RetrieverUtils
  import opened NerChain
  import opened GaiResponse

  /** A nullable string field bounded by `n` characters. */
  predicate FitsOpt(s: Option<string>, n: nat)
  {
    s.None? || |s.value| <= n
  }

  /** A required, non-null string field bounded by `n` characters. */
  predicate FitsReq(s: Option<string>, n: nat)
  {
    s.Some? && |s.value| <= n
  }

  /** `Optional[List[str]]` given a list: every entry a string. */
  predicate NoNulls(xs: seq<Option<string>>)
  {
    forall i :: 0 <= i < |xs| ==> xs[i].Some?
  }

  // ---------------------------------------------------------------------------------------------
  // MWHeader

  datatype MWHeader = MWHeader(MSGID: Option<string>, SOURCECHANNEL: string, TXNSEQ: string,
                               RETURNCODE: Option<string>, RETURNDESC: Option<string>,
                               ERRORHISTORY: Option<string>, O360SEQ: Option<string>)

  predicate MWHeaderValid(h: MWHeader)
  {
    && FitsOpt(h.MSGID, 20) && |h.SOURCECHANNEL| <= 20 && |h.TXNSEQ| <= 50
    && FitsOpt(h.RETURNCODE, 4) && FitsOpt(h.RETURNDESC, 50)
    && FitsOpt(h.ERRORHISTORY, 50) && FitsOpt(h.O360SEQ, 36)
  }

  /**
   * The header is validated on assignment; writing an application exception's code and description into
   * a valid header keeps it valid, whichever exception it is.
   */
  lemma DefinedErrorFitsHeader(h: MWHeader, cls: ErrorClass)
    requires MWHeaderValid(h)
    ensures MWHeaderValid(h.(RETURNCODE := Some(Code(cls)), RETURNDESC := Some(Describe(cls))))
  {
    CodesHaveFourCharacters(cls);
    DescriptionsFitFifty(cls);
  }

  // ---------------------------------------------------------------------------------------------
  // BaseGenaiTemplate, ChatTemplate, ChatTranRS

  /** `tid: constr(max_length=2)`: a string of at most two characters. */
  predicate TidFits(tid: Option<Value>)
  {
    tid.Some? && tid.value.Str? && |tid.value.s| <= 2
  }

  /** `blockReason: Optional[constr(max_length=2)]`: null, or a string (not an exception) of at most two characters. */
  predicate ReasonFits(r: Option<Reason>)
  {
    r.None? || (r.value.Said? && |r.value.text| <= 2)
  }

  predicate ChatTemplateValid(t: Template)
  {
    && TidFits(t.tid) && ReasonFits(t.blockReason)
    && FitsReq(t.startDate, 10) && FitsReq(t.endDate, 10)
    && NoNulls(t.storeName) && NoNulls(t.categoryName)
  }

  predicate ChatTranRSValid(r: ChatResponse)
  {
    |r.sessionId| <= 12 && |r.customerId| <= 10 && ChatTemplateValid(r.template)
  }

  /** A reason carrying the blocked marker is longer than the two characters a block reason may have. */
  lemma BlockedReasonNeverFits(reason: string)
    requires Contains(reason, Sentinel)
    ensures !ReasonFits(Some(Said(reason)))
  {
    ContainsLength(reason, Sentinel);
  }

  /** The low-confidence template is rejected twice over: a five-character reason and null dates. */
  lemma LowConfidenceRejected()
    ensures !ReasonFits(Render(LowConfidence).blockReason)
    ensures Render(LowConfidence).startDate == Render(LowConfidence).endDate == None
    ensures !ChatTemplateValid(Render(LowConfidence))
  {
  }

  /**
   * A rendered template passes the chat template model exactly when the search matched, the category id is
   * a string of at most two characters, both dates are present and short enough, and every name slot is filled.
   */
  lemma RenderedTemplateValidIff(d: Decision)
    ensures ChatTemplateValid(Render(d)) <==>
            && d.Matched?
            && d.category.Str? && |d.category.s| <= 2
            && FitsReq(d.startDate, 10) && FitsReq(d.endDate, 10)
            && d.store1.Some? && d.store2.Some? && d.categoryName.Some?
  {
    if d.Matched? {
      var t := Render(d);
      assert t.storeName == [d.store1, d.store2] && t.categoryName == [d.categoryName];
      if d.store1.Some? && d.store2.Some? && d.categoryName.Some? {
        assert NoNulls(t.storeName) && NoNulls(t.categoryName);
      } else if d.store1.None? {
        assert t.storeName[0].None?;
      } else if d.store2.None? {
        assert t.storeName[1].None?;
      } else {
        assert t.categoryName[0].None?;
      }
    }
  }

  /** End to end: a search response the chat response model accepts comes from a gate output without the marker. */
  lemma ValidSearchWasNotBlocked(sessionId: string, customerId: string, gate: Result<string, Fault>,
                                 ner: string -> Result<NerResult, Fault>)
    requires ChatTranRSValid(ChatResponse(sessionId, customerId, Render(Route(gate, ner))))
    ensures gate.Success? && !Contains(gate.value, Sentinel)
    ensures Route(gate, ner).Matched? && Render(Route(gate, ner)).message == Some(gate.value)
  {
    RenderedTemplateValidIff(Route(gate, ner));
    BlockedIffGateSentinel(gate, ner);
  }

  // ---------------------------------------------------------------------------------------------
  // GenAIModel, GenAIResponseTranRS

  predicate BaseGenaiTemplateValid(t: AnswerTemplate)
  {
    FitsReq(t.tid, 2) && ReasonFits(t.blockReason)
  }

  /** `message: str`: the message may not be null. */
  predicate GenAIModelValid(g: GenAI)
  {
    g.message.Some?
  }

  predicate GenAIResponseTranRSValid(r: AnswerResponse)
  {
    |r.sessionId| <= 12 && |r.customerId| <= 10 && GenAIModelValid(r.genAI) && BaseGenaiTemplateValid(r.template)
  }

  /**
   * An answer passes the answer response model exactly when the ids fit, the chain produced text without
   * the marker, and the caller's tid has at most two characters: refusals and faults never do.
   */
  lemma AnswerValidIff(sessionId: string, customerId: string, tid: string, generated: Result<string, Fault>)
    ensures GenAIResponseTranRSValid(Answer(sessionId, customerId, tid, generated)) <==>
            && |sessionId| <= 12 && |customerId| <= 10 && |tid| <= 2
            && generated.Success? && !Contains(generated.value, Sentinel)
  {
  }

  /** Only the template part: a refused answer's template is rejected by its reason alone. */
  lemma RefusedTemplateRejected(sessionId: string, customerId: string, tid: string, text: string)
    requires Contains(text, Sentinel)
    ensures !BaseGenaiTemplateValid(Answer(sessionId, customerId, tid, Success(text)).template)
  {
    BlockedReasonNeverFits(text);
  }
}
