/** The decision of the mock payment gateway (models.py, `PaymentGateway.process_payment`):
    a card number ending in `1111` is declined, every other payment succeeds. */
module Payments {
  import opened Results

  const CardNumberKey := "card_number"
  const DeclinedSuffix := "1111"

  /** `payment_info.get('card_number', '')`: the stored number, or the empty string when there
      is none. */
  function CardNumber(paymentInfo: map<string, string>): (r: string)
    ensures CardNumberKey in paymentInfo ==> r == paymentInfo[CardNumberKey]
    ensures CardNumberKey !in paymentInfo ==> r == ""
  {
    if CardNumberKey in paymentInfo then paymentInfo[CardNumberKey] else ""
  }

  /** `str.endswith`. */
  predicate EndsWith(s: string, suffix: string) {
    |suffix| <= |s| && s[|s| - |suffix|..] == suffix
  }

  /** `s.endswith(suffix)` holds exactly when `s` is something followed by `suffix`. */
  lemma EndsWithMeansSuffix(s: string, suffix: string)
    ensures EndsWith(s, suffix) <==> exists p :: s == p + suffix
  {
    if EndsWith(s, suffix) {
      assert s == s[..|s| - |suffix|] + suffix;
    }
    if exists p :: s == p + suffix {
      var p :| s == p + suffix;
      assert s[|s| - |suffix|..] == suffix;
    }
  }

  /** The dictionary `process_payment` returns. The transaction id is drawn at random by the
      gateway; here it is passed in. */
  datatype PaymentResult = PaymentResult(success: bool, message: string, transactionId: Option<string>)

  const Declined := PaymentResult(false, "Payment failed: Invalid card number", None)

  /** `process_payment(payment_info)` with `transactionId` standing for the gateway's
      `f"TXN{random.randint(100000, 999999)}"`. */
  function ProcessPayment(paymentInfo: map<string, string>, transactionId: string): (r: PaymentResult)
    ensures !r.success <==> exists p :: CardNumber(paymentInfo) == p + DeclinedSuffix
    ensures !r.success ==> r == Declined
    ensures r.success ==> r.transactionId == Some(transactionId) && r.message == "Payment processed successfully"
  {
    EndsWithMeansSuffix(CardNumber(paymentInfo), DeclinedSuffix);
    if EndsWith(CardNumber(paymentInfo), DeclinedSuffix) then Declined
    else PaymentResult(true, "Payment processed successfully", Some(transactionId))
  }

  /** A payment without a card number is processed as the empty number, which succeeds. */
  lemma MissingCardSucceeds(paymentInfo: map<string, string>, transactionId: string)
    requires CardNumberKey !in paymentInfo
    ensures ProcessPayment(paymentInfo, transactionId).success
  {
  }
}
