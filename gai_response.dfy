/**
 * The answer builder of src/app/gai_executors/gai_response.py.
 *
 * `GenAIResponse` picks a tone label from the customer id when it is built; `generate_answer` runs the
 * answer chain on the prompt variables and fills a response: the generated text with the caller's tid,
 * or tid "98" with the text (when it carries the blocked marker) or the raised exception as the reason.
 *
 * The answer chain is a parameter: a function from the prompt variables to the generated text or a
 * fault. The description table the prompt looks the tone up in is a parameter too.
 */
module GaiResponse {
  import opened Wrappers
  import opened Strings
  import opened Exceptions

  const PremiumTone: string := "高端VIP用戶"
  const KeyAccountTone: string := "重點關心客戶"
  const RegularTone: string := "一般用戶"

  /** `_set_tone`: customers "A" and "B" get their own labels, every other id the regular one. */
  function SetTone(customerId: string): (tone: string)
    ensures tone == PremiumTone <==> customerId == "A"
    ensures tone == KeyAccountTone <==> customerId == "B"
    ensures tone == RegularTone <==> customerId != "A" && customerId != "B"
  {
    if customerId == "A" then PremiumTone
    else if customerId == "B" then KeyAccountTone
    else RegularTone
  }

  /** The variables the answer prompt is filled with. */
  datatype PromptVars = PromptVars(message: string, consumptionNumber: string, totalAmount: string,
                                   storeName: Option<seq<string>>, categoryName: Option<seq<string>>,
                                   tone: string, desc: Option<string>)

  /** The prompt variables for a request; the tone's description is looked up with `dict.get`. */
  function Prompt(message: string, consumptionNumber: string, totalAmount: string,
                  storeName: Option<seq<string>>, categoryName: Option<seq<string>>,
                  tone: string, custDesc: map<string, string>): (v: PromptVars)
    ensures v.tone == tone && v.message == message
    ensures v.consumptionNumber == consumptionNumber && v.totalAmount == totalAmount
    ensures v.storeName == storeName && v.categoryName == categoryName
    ensures v.desc.Some? <==> tone in custDesc
    ensures v.desc.Some? ==> v.desc.value == custDesc[tone]
  {
    PromptVars(message, consumptionNumber, totalAmount, storeName, categoryName, tone,
               if tone in custDesc then Some(custDesc[tone]) else None)
  }

  datatype GenAI = GenAI(message: Option<string>)
  datatype AnswerTemplate = AnswerTemplate(tid: Option<string>, blockReason: Option<Reason>)
  datatype AnswerResponse = AnswerResponse(sessionId: string, customerId: string,
                                           genAI: GenAI, template: AnswerTemplate)

  /** Reads the chain's outcome back from a response: a reason is the refused text or the fault. */
  function Recover(r: AnswerResponse): Option<Result<string, Fault>>
  {
    match r.template.blockReason
    case Some(Said(text)) => Some(Success(text))
    case Some(Caught(e)) => Some(Failure(e))
    case None => if r.genAI.message.Some? then Some(Success(r.genAI.message.value)) else None
  }

  /**
   * The response `generate_answer` returns for the chain's outcome `generated`. The generated text is
   * handed on only when it does not carry the marker, and then with the caller's tid; otherwise the tid is
   * "98" and the reason says why. Nothing is lost: the outcome can be read back from the response.
   */
  function Answer(sessionId: string, customerId: string, tid: string,
                  generated: Result<string, Fault>): (r: AnswerResponse)
    ensures r.sessionId == sessionId && r.customerId == customerId
    ensures r.genAI.message.Some? <==> generated.Success? && !Contains(generated.value, Sentinel)
    ensures r.genAI.message.Some? ==> r.genAI.message.value == generated.value
                                      && r.template == AnswerTemplate(Some(tid), None)
    ensures r.genAI.message.None? ==> r.template.tid == Some("98") && r.template.blockReason.Some?
    ensures Recover(r) == Some(generated)
  {
    match generated
    case Failure(e) =>
      AnswerResponse(sessionId, customerId, GenAI(None), AnswerTemplate(Some("98"), Some(Caught(e))))
    case Success(text) =>
      if Contains(text, Sentinel) then
        AnswerResponse(sessionId, customerId, GenAI(None), AnswerTemplate(Some("98"), Some(Said(text))))
      else
        AnswerResponse(sessionId, customerId, GenAI(Some(text)), AnswerTemplate(Some(tid), None))
  }

  /** A fault in the answer chain gives tid "98", the same tid as a refusal, never the search's "99". */
  lemma FaultAndRefusalShareTid(sessionId: string, customerId: string, tid: string, e: Fault, text: string)
    requires Contains(text, Sentinel)
    ensures Answer(sessionId, customerId, tid, Failure(e)).template.tid
            == Answer(sessionId, customerId, tid, Success(text)).template.tid == Some("98")
    ensures Answer(sessionId, customerId, tid, Failure(e)) != Answer(sessionId, customerId, tid, Success(text))
  {
  }

  class GenAIResponse {
    const sessionId: string
    const customerId: string
    const tone: string

    /** The tone is fixed once, from the customer id. */
    constructor (sessionId: string, customerId: string)
      ensures this.sessionId == sessionId && this.customerId == customerId
      ensures this.tone == SetTone(customerId)
    {
      this.sessionId := sessionId;
      this.customerId := customerId;
      this.tone := SetTone(customerId);
    }

    /**
     * `generate_answer`: starts from an empty response, runs the chain with the object's own tone and
     * fills the template and the message as the outcome dictates; the ids are always set.
     */
    method GenerateAnswer(tid: string, message: string, consumptionNumber: string, totalAmount: string,
                          storeName: Option<seq<string>>, categoryName: Option<seq<string>>,
                          chain: PromptVars -> Result<string, Fault>, custDesc: map<string, string>)
      returns (response: AnswerResponse)
      ensures response == Answer(sessionId, customerId, tid,
                                 chain(Prompt(message, consumptionNumber, totalAmount,
                                              storeName, categoryName, tone, custDesc)))
    {
      var genAI := GenAI(None);
      var template := AnswerTemplate(None, None);
      var outcome := chain(Prompt(message, consumptionNumber, totalAmount, storeName, categoryName, tone, custDesc));
      if outcome.Failure? {
        template := template.(tid := Some("98"));
        template := template.(blockReason := Some(Caught(outcome.error)));
      } else if Contains(outcome.value, Sentinel) {
        template := template.(tid := Some("98"));
        template := template.(blockReason := Some(Said(outcome.value)));
      } else {
        genAI := genAI.(message := Some(outcome.value));
        template := template.(tid := Some(tid));
        template := template.(blockReason := None);
      }
      response := AnswerResponse(sessionId, customerId, genAI, template);
    }
  }
}
