/**
 * The request models of src/app/schemas/payload.py as validity predicates, and the three example
 * requests their docstrings show.
 */
module PayloadSchema {
  import opened Wrappers
  import opened NerChain

  predicate FitsOpt(s: Option<string>, n: nat)
  {
    s.None? || |s.value| <= n
  }

  datatype RequestHeader = RequestHeader(MSGID: Option<string>, SOURCECHANNEL: string, TXNSEQ: string)

  predicate RequestHeaderValid(h: RequestHeader)
  {
    FitsOpt(h.MSGID, 20) && |h.SOURCECHANNEL| <= 20 && |h.TXNSEQ| <= 50
  }

  /** The fields every request body shares. */
  datatype BaseTranRq = BaseTranRq(sessionId: string, customerId: string, time: string)

  predicate BaseTranRqValid(b: BaseTranRq)
  {
    |b.sessionId| <= 12 && |b.customerId| <= 10 && |b.time| <= 20
  }

  datatype ChatTranRq = ChatTranRq(base: BaseTranRq, message: string)

  predicate ChatTranRqValid(r: ChatTranRq)
  {
    BaseTranRqValid(r.base)
  }

  /** A decimal number as its digits and exponent: the value is digits * 10^exponent. */
  datatype Decimal = Decimal(digits: seq<nat>, exponent: int)

  /** The number of digits a decimal is counted as having, and how many of them are decimal places. */
  function DigitCount(d: Decimal): (r: (nat, nat))
    ensures r.1 <= r.0
    ensures d.exponent >= 0 ==> r == (|d.digits| + d.exponent, 0)
    ensures d.exponent < 0 ==> r.1 == -d.exponent
    ensures d.exponent < 0 ==> r.0 == if -d.exponent > |d.digits| then -d.exponent else |d.digits|
  {
    if d.exponent >= 0 then (|d.digits| + d.exponent, 0)
    else if -d.exponent > |d.digits| then (-d.exponent, -d.exponent)
    else (|d.digits|, -d.exponent)
  }

  /** `condecimal(max_digits, decimal_places)`: total digits, decimal places and whole digits each within bounds. */
  predicate DecimalFits(d: Decimal, maxDigits: nat, decimalPlaces: nat)
    requires decimalPlaces <= maxDigits
  {
    && (forall i :: 0 <= i < |d.digits| ==> d.digits[i] < 10)
    && DigitCount(d).0 <= maxDigits
    && DigitCount(d).1 <= decimalPlaces
    && DigitCount(d).0 - DigitCount(d).1 <= maxDigits - decimalPlaces
  }

  datatype GenaiTranRq = GenaiTranRq(base: BaseTranRq, tid: string, consumptionNumber: int, totalAmount: Decimal,
                                     startDate: string, endDate: string,
                                     storeName: Option<seq<string>>, categoryName: Option<seq<string>>)

  predicate GenaiTranRqValid(r: GenaiTranRq)
  {
    && BaseTranRqValid(r.base)
    && |r.tid| <= 2
    && r.consumptionNumber >= 0
    && DecimalFits(r.totalAmount, 20, 2)
    && |r.startDate| <= 10 && |r.endDate| <= 10
  }

  datatype EvaluateTranRq = EvaluateTranRq(base: BaseTranRq, evaluate: bool)

  predicate EvaluateTranRqValid(r: EvaluateTranRq)
  {
    BaseTranRqValid(r.base)
  }

  /** An amount with more than two decimal places is rejected, however few digits it has in all. */
  lemma ThreeDecimalPlacesRejected(digits: seq<nat>)
    ensures !DecimalFits(Decimal(digits, -3), 20, 2)
  {
  }

  /** An amount of eighteen or fewer whole digits and up to two decimal places is accepted. */
  lemma {:induction false} AmountWithinBoundsAccepted(d: Decimal)
    requires forall i :: 0 <= i < |d.digits| ==> d.digits[i] < 10
    requires -2 <= d.exponent
    requires |d.digits| + d.exponent <= 18
    ensures DecimalFits(d, 20, 2)
  {
    var c := DigitCount(d);
    if d.exponent < 0 && -d.exponent > |d.digits| {
      assert c == (-d.exponent, -d.exponent);
    } else if d.exponent < 0 {
      assert c == (|d.digits|, -d.exponent);
    } else {
      assert c == (|d.digits| + d.exponent, 0);
    }
  }

  /**
   * Exactly the amounts `condecimal(max_digits=20, decimal_places=2)` admits: at most two decimal places
   * and at most eighteen digits before the point, trailing zeros included.
   */
  lemma AmountBoundsIff(d: Decimal)
    requires forall i :: 0 <= i < |d.digits| ==> d.digits[i] < 10
    ensures DecimalFits(d, 20, 2) <==> -2 <= d.exponent && |d.digits| + d.exponent <= 18
  {
    if -2 <= d.exponent && |d.digits| + d.exponent <= 18 {
      AmountWithinBoundsAccepted(d);
    }
  }

  /** Nineteen digits before the point are one too many, even with no decimal places. */
  lemma NineteenWholeDigitsRejected(digits: seq<nat>)
    requires |digits| == 19
    ensures !DecimalFits(Decimal(digits, 0), 20, 2)
  {
  }

  /** The time field is only bounded in length: a valid request may carry a time the pipeline cannot parse. */
  lemma BaseAdmitsUnparsableTime()
    ensures BaseTranRqValid(BaseTranRq("16574823aA", "E222222897", "")) && !IsTimestamp("")
  {
  }

  // ---------------------------------------------------------------------------------------------
  // The docstring examples

  const ExampleHeader: RequestHeader := RequestHeader(None, "CHAT-API", "008788888-da-aaa-dd")

  const ChatExample: ChatTranRq :=
    ChatTranRq(BaseTranRq("16574823aA", "E222222897", "2024/09/02 15:35:40"), "你好，你是什麼東西")

  /** 24000.38 */
  const ExampleAmount: Decimal := Decimal([2, 4, 0, 0, 0, 3, 8], -2)

  const GenaiExample: GenaiTranRq :=
    GenaiTranRq(BaseTranRq("16574823aA", "E222222897", "2024/09/02 16:35:40"), "99", 12, ExampleAmount,
                "2024/05/11", "2024/06/11", Some(["信義微風"]), Some(["百貨類別"]))

  const EvaluateExample: EvaluateTranRq :=
    EvaluateTranRq(BaseTranRq("16574823aA", "E222222897", "2024/09/02 15:35:40"), true)

  /** Every example request satisfies its model's bounds. */
  lemma ExamplesValid()
    ensures RequestHeaderValid(ExampleHeader)
    ensures ChatTranRqValid(ChatExample)
    ensures GenaiTranRqValid(GenaiExample)
    ensures EvaluateTranRqValid(EvaluateExample)
    ensures DigitCount(ExampleAmount) == (7, 2)
  {
    AmountWithinBoundsAccepted(ExampleAmount);
  }

  lemma FirstExampleFields()
    ensures Pad(2024, 4) == "2024" && Pad(9, 2) == "09" && Pad(2, 2) == "02"
    ensures Pad(15, 2) == "15" && Pad(35, 2) == "35" && Pad(40, 2) == "40"
  {
    PadFour(2024);
    PadTwo(20);
    PadTwo(24);
    PadTwo(9);
    PadTwo(2);
    PadTwo(15);
    PadTwo(35);
    PadTwo(40);
  }

  lemma SecondExampleFields()
    ensures Pad(16, 2) == "16"
  {
    PadTwo(16);
  }

  lemma FirstExampleText()
    ensures FormatTimestamp(DateTime(2024, 9, 2, 15, 35, 40)) == "2024/09/02 15:35:40"
  {
    FirstExampleFields();
    assert "2024" + "/" + "09" + "/" + "02" + " " + "15" + ":" + "35" + ":" + "40" == "2024/09/02 15:35:40";
  }

  lemma SecondExampleText()
    ensures FormatTimestamp(DateTime(2024, 9, 2, 16, 35, 40)) == "2024/09/02 16:35:40"
  {
    FirstExampleFields();
    SecondExampleFields();
    assert "2024" + "/" + "09" + "/" + "02" + " " + "16" + ":" + "35" + ":" + "40" == "2024/09/02 16:35:40";
  }

  lemma ExampleDate()
    ensures FormatDate(DateTime(2024, 9, 2, 15, 35, 40)) == "2024-09-02"
    ensures FormatDate(DateTime(2024, 9, 2, 16, 35, 40)) == "2024-09-02"
  {
    FirstExampleFields();
    assert "2024" + "-" + "09" + "-" + "02" == "2024-09-02";
  }

  /** The example times have the shape the pipeline parses, and both convert to the date "2024-09-02". */
  lemma ExampleTimesConvert()
    ensures IsTimestamp(ChatExample.base.time) && ConvertTimeFormat(ChatExample.base.time) == "2024-09-02"
    ensures IsTimestamp(GenaiExample.base.time) && ConvertTimeFormat(GenaiExample.base.time) == "2024-09-02"
  {
    FirstExampleText();
    SecondExampleText();
    ExampleDate();
    ConvertTimeFormatOfTimestamp(DateTime(2024, 9, 2, 15, 35, 40));
    ConvertTimeFormatOfTimestamp(DateTime(2024, 9, 2, 16, 35, 40));
  }
}
