/**
 * The script variant of the pipeline (src/app/api1.py). Its `search` is the same as in chain_ner.py;
 * the only difference is that the reference date reaches the extraction step under the key "today".
 */
module Api1 {
  import opened Wrappers
  import opened Exceptions
  import opened RetrieverUtils
  import opened NerChain

  class ChainNer {
    const sessionId: string
    const customerId: string
    const today: string

    constructor (sessionId: string, customerId: string, today: string)
      requires IsTimestamp(today)
      ensures this.sessionId == sessionId && this.customerId == customerId
      ensures this.today == ConvertTimeFormat(today)
    {
      this.today := ConvertTimeFormat(today);
      this.sessionId := sessionId;
      this.customerId := customerId;
    }

    /** `search`: the same decision and template as chain_ner.py, with the prompt key "today". */
    method Search(userInput: string, gate: string -> Result<string, Fault>,
                  extract: map<string, string> -> Result<Keys, Fault>,
                  similarity: Option<string> -> Result<seq<(Metadata, int)>, Fault>)
      returns (response: ChatResponse)
      ensures response == ChatResponse(sessionId, customerId,
                                       Render(Route(gate(userInput), Ner("today", today, extract, similarity))))
    {
      response := SearchTemplate(sessionId, customerId, userInput, gate, Ner("today", today, extract, similarity));
    }
  }

  /** The zero-padded fields of 2024-05-01 14:00:03. */
  lemma ScriptTodayFields()
    ensures Pad(2024, 4) == "2024" && Pad(5, 2) == "05" && Pad(1, 2) == "01"
    ensures Pad(14, 2) == "14" && Pad(0, 2) == "00" && Pad(3, 2) == "03"
  {
    PadFour(2024);
    PadTwo(20);
    PadTwo(24);
    PadTwo(5);
    PadTwo(1);
    PadTwo(14);
    PadTwo(0);
    PadTwo(3);
  }

  /** The script's reference date is the timestamp rendering of 2024-05-01 14:00:03. */
  lemma ScriptTodayText()
    ensures FormatTimestamp(DateTime(2024, 5, 1, 14, 0, 3)) == "2024/05/01 14:00:03"
  {
    ScriptTodayFields();
    assert "2024" + "/" + "05" + "/" + "01" + " " + "14" + ":" + "00" + ":" + "03" == "2024/05/01 14:00:03";
  }

  lemma ScriptTodayDate()
    ensures FormatDate(DateTime(2024, 5, 1, 14, 0, 3)) == "2024-05-01"
  {
    ScriptTodayFields();
    assert "2024" + "-" + "05" + "-" + "01" == "2024-05-01";
  }

  /** A valid date-time whose renderings are `s` and `d`: `s` parses and converts to `d`. */
  lemma ConvertsTo(dt: DateTime, s: string, d: string)
    requires ValidDateTime(dt) && FormatTimestamp(dt) == s && FormatDate(dt) == d
    ensures IsTimestamp(s) && ConvertTimeFormat(s) == d
  {
    ConvertTimeFormatOfTimestamp(dt);
  }

  /** The script's reference date "2024/05/01 14:00:03" converts to "2024-05-01". */
  lemma ScriptTodayConverts()
    ensures IsTimestamp("2024/05/01 14:00:03")
    ensures ConvertTimeFormat("2024/05/01 14:00:03") == "2024-05-01"
  {
    ScriptTodayText();
    ScriptTodayDate();
    ConvertsTo(DateTime(2024, 5, 1, 14, 0, 3), "2024/05/01 14:00:03", "2024-05-01");
  }
}
