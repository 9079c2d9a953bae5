/**
 * The script variant of the answer builder (src/app/api2.py): the object keeps no tone of its own, the
 * caller passes one to `generate_answer`. Otherwise the response is built as in gai_response.py.
 */
module Api2 {
  import opened Wrappers
  import opened Strings
  import opened Exceptions
  import opened GaiResponse

  class GenAIResponse {
    const sessionId: string
    const customerId: string

    constructor (sessionId: string, customerId: string)
      ensures this.sessionId == sessionId && this.customerId == customerId
    {
      this.sessionId := sessionId;
      this.customerId := customerId;
    }

    /** `generate_answer` with the tone as an argument; the same response as the tone-keeping variant. */
    method GenerateAnswer(tid: string, message: string, consumptionNumber: string, totalAmount: string,
                          tone: string, storeName: Option<seq<string>>, categoryName: Option<seq<string>>,
                          chain: PromptVars -> Result<string, Fault>, custDesc: map<string, string>)
      returns (response: AnswerResponse)
      ensures response == Answer(sessionId, customerId, tid,
                                 chain(Prompt(message, consumptionNumber, totalAmount,
                                              storeName, categoryName, tone, custDesc)))
    {
      var genAI := GenAI(None);
      var template := AnswerTemplate(None, None);
      var outcome := chain(Prompt(message, consumptionNumber, totalAmount, storeName, categoryName, tone, custDesc));
      if outcome.Failure? {
        template := template.(tid := Some("98"));
        template := template.(blockReason := Some(Caught(outcome.error)));
      } else if Contains(outcome.value, Sentinel) {
        template := template.(tid := Some("98"));
        template := template.(blockReason := Some(Said(outcome.value)));
      } else {
        genAI := genAI.(message := Some(outcome.value));
        template := template.(tid := Some(tid));
        template := template.(blockReason := None);
      }
      response := AnswerResponse(sessionId, customerId, genAI, template);
    }
  }
}
