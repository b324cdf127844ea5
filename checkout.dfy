/**
 * Payout/Checkout.php: `Checkout::create` validates raw checkout data and
 * builds the normalised payload that the client signs and posts.
 */
module Checkout {
  import opened Php

  const CheckoutRequired: seq<string> := ["amount", "currency", "customer", "external_id", "redirect_url"]
  const CustomerRequired: seq<string> := ["first_name", "last_name", "email"]

  /** The keys every built payload has; `metadata` may come on top. */
  const PayloadKeys: set<string> := {"amount", "currency", "customer", "external_id", "nonce", "redirect_url", "signature"}
  const CustomerKeys: set<string> := {"first_name", "last_name", "email"}

  /** `number_format($amount * 100, 0, '.', '')`: PHP's multiplication turns
      null and false into 0, true into 1 and a numeric string into the number
      it spells, and rejects other strings and arrays. */
  function AmountInCents(amount: Value): (r: Result<string>)
    ensures amount.Num? ==> r == Ok(IntToString(amount.hundredths))
    ensures amount.Null? ==> r == Ok("0")
    ensures amount.Str? && DecimalHundredths(amount.s).Some? ==> r == Ok(NatToString(DecimalHundredths(amount.s).value))
    ensures r.Err? <==> (amount.Str? && DecimalHundredths(amount.s).None?) || IsArray(amount)
  {
    match amount
    case Null => Ok("0")
    case Bool(b) => Ok(if b then "100" else "0")
    case Num(h) => Ok(IntToString(h))
    case Str(s) =>
      if DecimalHundredths(s).Some? then Ok(NatToString(DecimalHundredths(s).value))
      else Err(TypeError("Unsupported operand types: string * int"))
    case Arr(_) => Err(TypeError("Unsupported operand types: array * int"))
    case List(_) => Err(TypeError("Unsupported operand types: array * int"))
  }

  /** The amount in minor units is a string of digits only and reads back as
      the amount times 100. */
  lemma AmountIsMinorUnits(h: nat)
    ensures AmountInCents(Num(h)).Ok?
    ensures AllDigits(AmountInCents(Num(h)).value)
    ensures ParseNat(AmountInCents(Num(h)).value) == Some(h)
  {
    NatToStringRoundTrip(h);
  }

  /** An amount given as a string in PHP's own form gives the same
      minor-units amount as the number. */
  lemma NumericStringAmount(h: nat)
    ensures AmountInCents(Str(NumToString(h))) == AmountInCents(Num(h))
  {
    NumStringRoundTrip(h);
  }

  /** All that `create` demands of its input. */
  predicate Admissible(data: Value) {
    && IsArray(data)
    && (forall i :: 0 <= i < |CheckoutRequired| ==> HasKey(data, CheckoutRequired[i]))
    && IsArray(Get(data, "customer"))
    && (forall i :: 0 <= i < |CustomerRequired| ==> HasKey(Get(data, "customer"), CustomerRequired[i]))
    && AmountInCents(Get(data, "amount")).Ok?
  }

  /** `metadata` is copied when it is set and is an array. */
  predicate CopiesMetadata(data: Value) {
    IsArray(Get(data, "metadata"))
  }

  /** The payload `create` builds from admissible data and the amount in
      minor units. */
  function Payload(data: Value, cents: string): (p: Value)
    ensures p.Arr?
    ensures p.fields.Keys == PayloadKeys + (if CopiesMetadata(data) then {"metadata"} else {})
    ensures p.fields["amount"] == Str(cents)
    ensures p.fields["currency"] == Get(data, "currency")
    ensures p.fields["external_id"] == Str(StrVal(Get(data, "external_id")))
    ensures p.fields["redirect_url"] == Get(data, "redirect_url")
    ensures p.fields["nonce"] == Str("") && p.fields["signature"] == Str("")
    ensures CopiesMetadata(data) ==> p.fields["metadata"] == Get(data, "metadata")
    ensures p.fields["customer"].Arr? && p.fields["customer"].fields.Keys == CustomerKeys
    ensures forall k :: k in CustomerKeys ==> p.fields["customer"].fields[k] == Get(Get(data, "customer"), k)
  {
    var customer := Get(data, "customer");
    var payload := map[
      "amount" := Str(cents),
      "currency" := Get(data, "currency"),
      "customer" := Arr(map[
        "first_name" := Get(customer, "first_name"),
        "last_name" := Get(customer, "last_name"),
        "email" := Get(customer, "email")]),
      "external_id" := Str(StrVal(Get(data, "external_id"))),
      "nonce" := Str(""),
      "redirect_url" := Get(data, "redirect_url"),
      "signature" := Str("")];
    if CopiesMetadata(data) then Arr(payload["metadata" := Get(data, "metadata")])
    else Arr(payload)
  }

  /** `Checkout::create($data)` */
  function Create(data: Value): (r: Result<Value>)
    ensures !IsArray(data) ==> r == Err(Exception(WrongParameters))
    ensures forall i :: IsArray(data) && FirstMissingAt(CheckoutRequired, data, i) ==>
              r == Err(Exception(MissingParameter(CheckoutRequired[i])))
    ensures IsArray(data) && FirstMissing(CheckoutRequired, data).None? && !IsArray(Get(data, "customer")) ==>
              r.Err? && r.failure.TypeError?
    ensures forall i :: IsArray(data) && FirstMissing(CheckoutRequired, data).None?
                        && IsArray(Get(data, "customer"))
                        && FirstMissingAt(CustomerRequired, Get(data, "customer"), i) ==>
              r == Err(Exception(MissingParameter(CustomerRequired[i])))
    ensures r.Ok? <==> Admissible(data)
    ensures r.Ok? ==> r.value == Payload(data, AmountInCents(Get(data, "amount")).value)
  {
    if !IsArray(data) then Err(Exception(WrongParameters))
    else match FirstMissing(CheckoutRequired, data)
      case Some(k) =>
        Err(Exception(MissingParameter(k)))
      case None =>
        var customer := Get(data, "customer");
        if !IsArray(customer) then
          Err(TypeError("key_exists(): Argument #2 ($array) must be of type array"))
        else match FirstMissing(CustomerRequired, customer)
          case Some(k) =>
            Err(Exception(MissingParameter(k)))
          case None =>
            match AmountInCents(Get(data, "amount"))
            case Err(e) => Err(e)
            case Ok(cents) => Ok(Payload(data, cents))
  }

  /** Keys outside the payload — products, addresses, the idempotency key,
      the customer's phone — never reach the built payload. */
  lemma DropsUnlistedKeys(data: Value, k: string, c: string)
    requires Create(data).Ok?
    requires k !in PayloadKeys && k != "metadata"
    requires c !in CustomerKeys
    ensures k !in Create(data).value.fields
    ensures c !in Create(data).value.fields["customer"].fields
  {
  }
}
