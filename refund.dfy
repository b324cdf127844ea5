/**
 * lib/Payout/Refund.php: `Refund::create` checks that a refund request carries
 * its required keys and passes the request through unchanged.
 */
module Refund {
  import opened Php

  const RefundRequired: seq<string> := ["checkout_id", "payout_id", "iban", "statement_descriptor"]

  /** `Refund::create($data)` */
  function Create(data: Value): (r: Result<Value>)
    ensures !IsArray(data) ==> r == Err(Exception(WrongParameters))
    ensures forall i :: IsArray(data) && FirstMissingAt(RefundRequired, data, i) ==>
              r == Err(Exception(MissingParameter(RefundRequired[i])))
    ensures r.Ok? <==> IsArray(data) && forall i :: 0 <= i < |RefundRequired| ==> HasKey(data, RefundRequired[i])
    ensures r.Ok? ==> r.value == data
  {
    if !IsArray(data) then Err(Exception(WrongParameters))
    else match FirstMissing(RefundRequired, data)
      case Some(k) =>
        Err(Exception(MissingParameter(k)))
      case None => Ok(data)
  }

  /** Corollary of `Create` returning its input: validation is idempotent, so
      a request that passed passes again, unchanged. */
  lemma CreateIdempotent(data: Value)
    requires Create(data).Ok?
    ensures Create(Create(data).value) == Create(data)
  {
  }
}
