/**
 * payout-gateway.php: the legacy gateway. Its callback, payment and
 * status-query handlers do what the current gateway does with a few
 * observable differences: comparisons are PHP's loose `==` and `!=`, the
 * notification's presence checks are fewer, an unknown order id is written
 * to and then crashes, the redirect URL takes one option only, and the
 * redirect URL is stored on the reuse path too.
 *
 * `process_refund` of this file reads the same options as the current
 * gateway and builds the same request, so `Gateway.RefundRequestFor` and
 * `Gateway.ProcessRefund` model both.
 */
module LegacyGateway {
  import opened Php
  import opened Signature
  import opened Orders
  import Http
  import ApiClient
  import Checkout
  import Gateway

  // ---------------------------------------------------------------------
  // payout_callback

  /** The checks before the signature: `data.object != "checkout"` returns,
      and only a notification with `external_id` and `data.status` set goes
      on. */
  predicate Admitted(n: Value) {
    && LooseEquals(Get(Gateway.Data(n), "object"), "checkout")
    && IsSet(Get(n, "external_id"))
    && IsSet(Get(Gateway.Data(n), "status"))
  }

  /** The status step with loose comparisons. */
  function LooseTransition(h: Host, id: nat, status: Value): (r: Host)
    requires id in h.orders
    ensures r.meta == h.meta && r.orders.Keys == h.orders.Keys
    ensures forall j :: j in h.orders && j != id ==> r.orders[j] == h.orders[j]
    ensures LooseEquals(status, "succeeded") ==> r == WithPaymentComplete(h, id)
    ensures !LooseEquals(status, "succeeded") && LooseEquals(status, "expired")
            && h.orders[id].status !in Gateway.CompletedStatuses ==>
              r.orders[id] == h.orders[id].(status := "failed")
    ensures !LooseEquals(status, "succeeded")
            && (!LooseEquals(status, "expired") || h.orders[id].status in Gateway.CompletedStatuses) ==>
              r == h
  {
    if LooseEquals(status, "succeeded") then WithPaymentComplete(h, id)
    else if LooseEquals(status, "expired") && h.orders[id].status !in Gateway.CompletedStatuses then WithStatus(h, id, "failed")
    else h
  }

  /** The two meta writes, made whether or not the order exists. */
  function Written(h: Host, id: nat, n: Value): (r: Host)
    ensures r.orders == h.orders
    ensures MetaOf(r, id, "payout_order_status") == Get(Gateway.Data(n), "status")
    ensures MetaOf(r, id, "payout_checkout_id") == Get(Gateway.Data(n), "id")
  {
    WithMeta(WithMeta(h, id, "payout_order_status", Get(Gateway.Data(n), "status")),
             id, "payout_checkout_id", Get(Gateway.Data(n), "id"))
  }

  /** `get_status()` on the `false` that `wc_get_order` returns for an
      unknown order. */
  const NoOrder := Fatal("Call to a member function get_status() on bool")

  /** The part of `payout_callback` after the signature holds. */
  function Delivered(n: Value, h: Host): (Gateway.Outcome, Host)
  {
    match OrderIdOf(Get(n, "external_id"))
    case None => (Gateway.Crashed(NoOrder), h)
    case Some(id) =>
      var written := Written(h, id, n);
      if id !in h.orders then (Gateway.Crashed(NoOrder), written)
      else (Gateway.Applied, LooseTransition(written, id, Get(Gateway.Data(n), "status")))
  }

  /** An admitted notification: the signature check, then `Delivered`. */
  function Checked(s: Gateway.Settings, sha256: string -> string, n: Value, h: Host): (Gateway.Outcome, Host)
  {
    match CheckSignature(sha256, s.clientSecret, Gateway.NotificationMessage(n), Get(n, "signature"))
    case Err(e) => (Gateway.Crashed(e), h)
    case Ok(valid) =>
      if !valid then (Gateway.Rejected401, h)
      else Delivered(n, h)
  }

  /** `payout_callback()` on notification `n` against host `h`. */
  function CallbackSpec(s: Gateway.Settings, sha256: string -> string, n: Value, h: Host): (Gateway.Outcome, Host)
  {
    if !Admitted(n) then (Gateway.Ignored, h) else Checked(s, sha256, n, h)
  }

  /** The outcomes of the legacy callback: nothing is written unless the
      notification is admitted and its signature holds; then the meta is
      written for the id it names, and only a known order goes on to the
      status step. */
  lemma CallbackOutcomes(s: Gateway.Settings, sha256: string -> string, n: Value, h: Host)
    ensures !Admitted(n) ==> CallbackSpec(s, sha256, n, h) == (Gateway.Ignored, h)
    ensures Admitted(n) && CheckSignature(sha256, s.clientSecret, Gateway.NotificationMessage(n), Get(n, "signature")) == Ok(false) ==>
              CallbackSpec(s, sha256, n, h) == (Gateway.Rejected401, h)
    ensures CallbackSpec(s, sha256, n, h).1 != h ==>
              && Admitted(n)
              && CheckSignature(sha256, s.clientSecret, Gateway.NotificationMessage(n), Get(n, "signature")) == Ok(true)
              && OrderIdOf(Get(n, "external_id")).Some?
    ensures var r := CallbackSpec(s, sha256, n, h);
            r.0.Applied? <==>
              && Admitted(n)
              && CheckSignature(sha256, s.clientSecret, Gateway.NotificationMessage(n), Get(n, "signature")) == Ok(true)
              && OrderIdOf(Get(n, "external_id")).Some?
              && OrderIdOf(Get(n, "external_id")).value in h.orders
  {
  }

  /** A verified notification for an order that does not exist still has
      its meta written under that id, and then the request dies. */
  lemma UnknownOrderWrittenThenCrashes(s: Gateway.Settings, sha256: string -> string, n: Value, h: Host, id: nat)
    requires Admitted(n)
    requires CheckSignature(sha256, s.clientSecret, Gateway.NotificationMessage(n), Get(n, "signature")) == Ok(true)
    requires OrderIdOf(Get(n, "external_id")) == Some(id) && id !in h.orders
    ensures CallbackSpec(s, sha256, n, h).0 == Gateway.Crashed(NoOrder)
    ensures MetaOf(CallbackSpec(s, sha256, n, h).1, id, "payout_order_status") == Get(Gateway.Data(n), "status")
    ensures CallbackSpec(s, sha256, n, h).1.orders == h.orders
    ensures Gateway.WellFormed(n) ==> Gateway.WebhookSpec(s, sha256, n, h) == (Gateway.Ignored, h)
  {
  }

  /** On a notification both versions accept, with a string status and a
      known order, the legacy callback and the current webhook agree. */
  lemma AgreesWithCurrent(s: Gateway.Settings, sha256: string -> string, n: Value, h: Host)
    requires Gateway.WellFormed(n) && Get(Gateway.Data(n), "status").Str?
    requires OrderIdOf(Get(n, "external_id")).Some? && OrderIdOf(Get(n, "external_id")).value in h.orders
    ensures CallbackSpec(s, sha256, n, h) == Gateway.WebhookSpec(s, sha256, n, h)
  {
    var id := OrderIdOf(Get(n, "external_id")).value;
    var status := Get(Gateway.Data(n), "status");
    assert Admitted(n);
    assert LooseEquals(status, "succeeded") <==> status == Str("succeeded");
    assert LooseEquals(status, "expired") <==> status == Str("expired");
    assert Written(h, id, n) == WithMeta(WithMeta(h, id, "payout_order_status", status), id, "payout_checkout_id", Get(Gateway.Data(n), "id"));
  }

  /** Loose comparison lets a status of `true` count as `succeeded`: the
      legacy callback completes the payment where the current webhook only
      records the meta. */
  lemma TrueStatusCompletesPayment(s: Gateway.Settings, sha256: string -> string, n: Value, h: Host, id: nat)
    requires Gateway.WellFormed(n) && Get(Gateway.Data(n), "status") == Bool(true)
    requires CheckSignature(sha256, s.clientSecret, Gateway.NotificationMessage(n), Get(n, "signature")) == Ok(true)
    requires OrderIdOf(Get(n, "external_id")) == Some(id) && id in h.orders
    requires h.orders[id].status in PayableStatuses
    ensures CallbackSpec(s, sha256, n, h).1.orders[id].paid
    ensures Gateway.WebhookSpec(s, sha256, n, h).1.orders[id] == h.orders[id]
  {
    assert Admitted(n);
    assert LooseEquals(Bool(true), "succeeded");
  }

  /** The callback against the order store. */
  method Callback(s: Gateway.Settings, sha256: string -> string, n: Value, store: OrderStore) returns (outcome: Gateway.Outcome)
    modifies store
    ensures (outcome, store.State()) == CallbackSpec(s, sha256, n, old(store.State()))
  {
    if !LooseEquals(Get(Gateway.Data(n), "object"), "checkout") {
      return Gateway.Ignored;
    }
    if !(IsSet(Get(n, "external_id")) && IsSet(Get(Gateway.Data(n), "status"))) {
      return Gateway.Ignored;
    }
    outcome := Check(s, sha256, n, store);
  }

  method Check(s: Gateway.Settings, sha256: string -> string, n: Value, store: OrderStore) returns (outcome: Gateway.Outcome)
    modifies store
    ensures (outcome, store.State()) == Checked(s, sha256, n, old(store.State()))
  {
    var check := Gateway.VerifyNotification(s, sha256, n);
    if check.Err? {
      return Gateway.Crashed(check.failure);
    }
    if !check.value {
      return Gateway.Rejected401;
    }
    outcome := Deliver(n, store);
  }

  /** Meta writes, the order lookup and the status step. */
  method Deliver(n: Value, store: OrderStore) returns (outcome: Gateway.Outcome)
    modifies store
    ensures (outcome, store.State()) == Delivered(n, old(store.State()))
  {
    var id := OrderIdOf(Get(n, "external_id"));
    if id.None? {
      return Gateway.Crashed(NoOrder);
    }
    var status := Get(Gateway.Data(n), "status");
    store.UpdateMeta(id.value, "payout_order_status", status);
    store.UpdateMeta(id.value, "payout_checkout_id", Get(Gateway.Data(n), "id"));
    if id.value !in store.orders {
      return Gateway.Crashed(NoOrder);
    }
    LooseApplyStatus(id.value, status, store);
    outcome := Gateway.Applied;
  }

  method LooseApplyStatus(id: nat, status: Value, store: OrderStore)
    requires id in store.orders
    modifies store
    ensures store.State() == LooseTransition(old(store.State()), id, status)
  {
    var current := store.orders[id].status;
    if LooseEquals(status, "succeeded") {
      store.PaymentComplete(id);
    } else if LooseEquals(status, "expired") && current !in Gateway.CompletedStatuses {
      store.UpdateStatus(id, "failed");
    }
  }

  // ---------------------------------------------------------------------
  // checkOrderStatus

  /** `checkOrderStatus()`: the text echoed for the posted `oid`, '' when
      `oid` names no post. */
  function CheckOrderStatus(oid: Value, h: Host): (text: string)
    ensures OrderIdOf(oid).Some? ==> text == StrVal(MetaOf(h, OrderIdOf(oid).value, "payout_order_status"))
    ensures OrderIdOf(oid).None? ==> text == ""
  {
    match OrderIdOf(oid)
    case None => ""
    case Some(id) => StrVal(MetaOf(h, id, "payout_order_status"))
  }

  /** After a verified notification the status query for the same id
      reports the notification's status, whether the order exists or not. */
  lemma StatusQueryReportsNotification(s: Gateway.Settings, sha256: string -> string, n: Value, h: Host)
    requires Admitted(n)
    requires CheckSignature(sha256, s.clientSecret, Gateway.NotificationMessage(n), Get(n, "signature")) == Ok(true)
    requires OrderIdOf(Get(n, "external_id")).Some?
    ensures CheckOrderStatus(Get(n, "external_id"), CallbackSpec(s, sha256, n, h).1)
            == StrVal(Get(Gateway.Data(n), "status"))
  {
    var id := OrderIdOf(Get(n, "external_id")).value;
    var w := Written(h, id, n);
    if id in h.orders {
      assert MetaOf(LooseTransition(w, id, Get(Gateway.Data(n), "status")), id, "payout_order_status")
             == MetaOf(w, id, "payout_order_status");
    }
  }

  // ---------------------------------------------------------------------
  // process_payment

  /** One product: `bcmul($product->get_price(), 100)` of a price in
      hundredths is that number of hundredths as a whole-number string. */
  function Product(item: Item): (p: Value)
    ensures p.Arr? && p.fields.Keys == {"name", "quantity", "unit_price"}
    ensures p.fields["name"] == Str(item.name) && p.fields["quantity"] == Num(100 * item.quantity)
    ensures p.fields["unit_price"] == Str(IntToString(item.price))
  {
    Arr(map["name" := Str(item.name), "quantity" := Num(100 * item.quantity), "unit_price" := Str(IntToString(item.price))])
  }

  /** The product list, one entry per item in item order. */
  function Products(items: seq<Item>): (ps: seq<Value>)
    ensures |ps| == |items|
    ensures forall i :: 0 <= i < |items| ==> ps[i] == Product(items[i])
  {
    seq(|items|, i requires 0 <= i < |items| => Product(items[i]))
  }

  /** The `foreach` over the order items that pushes each product. */
  method BuildProducts(items: seq<Item>) returns (products: seq<Value>)
    ensures products == Products(items)
  {
    products := [];
    for i := 0 to |items|
      invariant |products| == i
      invariant forall j :: 0 <= j < i ==> products[j] == Product(items[j])
    {
      products := products + [Product(items[i])];
    }
  }

  /** Billing address: sent only when line 1, city and postcode are all
      non-empty. */
  predicate SendsBilling(o: Order) {
    Truthy(Str(o.billing.line1)) && Truthy(Str(o.billing.city)) && Truthy(Str(o.billing.postcode))
  }

  /** Every key the legacy checkout data can have. */
  const CheckoutDataKeys: set<string> :=
    {"amount", "currency", "customer", "products", "external_id", "redirect_url",
     "billing_address", "shipping_address", "idempotency_key"}

  /** The checkout data of the legacy `process_payment`. Both addresses
      are named with the billing first and last name. */
  function CheckoutData(s: Gateway.Settings, id: nat, o: Order, products: seq<Value>): (d: Value)
    ensures d.Arr? && forall k :: k in d.fields ==> k in CheckoutDataKeys
    ensures && "amount" in d.fields && "currency" in d.fields && "customer" in d.fields && "products" in d.fields
            && "external_id" in d.fields && "redirect_url" in d.fields
    ensures "billing_address" in d.fields <==> SendsBilling(o)
    ensures "shipping_address" in d.fields <==> Truthy(Str(o.shipping.line1))
    ensures "idempotency_key" in d.fields <==> s.idempotencyKey == Str("yes")
    ensures d.fields["amount"] == Num(o.total) && d.fields["external_id"] == Num(100 * id)
    ensures d.fields["customer"] == Gateway.Customer(o)
    ensures Truthy(Str(o.shipping.line1)) ==>
              d.fields["shipping_address"] == Gateway.AddressData(o.shipping, o.billing.firstName + " " + o.billing.lastName)
  {
    var name := o.billing.firstName + " " + o.billing.lastName;
    var data := Gateway.BaseData(id, o, products);
    var withBilling := if SendsBilling(o) then data["billing_address" := Gateway.AddressData(o.billing, name)] else data;
    var withShipping :=
      if Truthy(Str(o.shipping.line1)) then withBilling["shipping_address" := Gateway.AddressData(o.shipping, name)]
      else withBilling;
    Arr(if s.idempotencyKey == Str("yes") then withShipping["idempotency_key" := Num(100 * id)] else withShipping)
  }

  /** The legacy checkout data also passes `Checkout::create`, and the
      order comes back from the notification's external id. */
  lemma CheckoutDataAdmissible(s: Gateway.Settings, id: nat, o: Order, products: seq<Value>)
    ensures Checkout.Create(CheckoutData(s, id, o, products)).Ok?
    ensures var p := Checkout.Create(CheckoutData(s, id, o, products)).value;
            && p.fields["amount"] == Str(IntToString(o.total))
            && OrderIdOf(p.fields["external_id"]) == Some(id)
  {
    Gateway.BuiltDataPasses(CheckoutData(s, id, o, products), id, o.total);
  }

  /** The redirect URL of a fresh checkout: `checkout_url`, replaced by
      `checkout_url?payment_method=…` when that option is set, and then by
      `checkout_url?locale=…` when the language is set. Nothing is
      URL-encoded. */
  function Redirect(s: Gateway.Settings, checkoutUrl: Value): (url: Value)
    ensures !LooseEquals(s.language, "") ==> url == Str(StrVal(checkoutUrl) + "?locale=" + StrVal(s.language))
    ensures LooseEquals(s.language, "") && !LooseEquals(s.paymentId, "") ==>
              url == Str(StrVal(checkoutUrl) + "?payment_method=" + StrVal(s.paymentId))
    ensures LooseEquals(s.language, "") && LooseEquals(s.paymentId, "") ==> url == checkoutUrl
  {
    if !LooseEquals(s.language, "") then Str(StrVal(checkoutUrl) + "?locale=" + StrVal(s.language))
    else if !LooseEquals(s.paymentId, "") then Str(StrVal(checkoutUrl) + "?payment_method=" + StrVal(s.paymentId))
    else checkoutUrl
  }

  /** The assignments to `$redirect_url` in source order. */
  method BuildRedirect(s: Gateway.Settings, checkoutUrl: Value) returns (url: Value)
    ensures url == Redirect(s, checkoutUrl)
  {
    url := checkoutUrl;
    if !LooseEquals(s.paymentId, "") {
      url := Str(StrVal(checkoutUrl) + "?payment_method=" + StrVal(s.paymentId));
    }
    if !LooseEquals(s.language, "") {
      url := Str(StrVal(checkoutUrl) + "?locale=" + StrVal(s.language));
    }
  }

  /** With both options set the language wins and the payment method is
      dropped, where the current gateway sends both. */
  lemma LanguageOverridesPaymentMethod(s: Gateway.Settings, checkoutUrl: string)
    requires s.paymentId.Str? && s.paymentId.s != "" && s.language.Str? && s.language.s != ""
    ensures Redirect(s, Str(checkoutUrl)) == Str(checkoutUrl + "?locale=" + s.language.s)
    ensures Redirect(s.(language := Str("")), Str(checkoutUrl)) == Str(checkoutUrl + "?payment_method=" + s.paymentId.s)
  {
  }

  /** `$order->get_address()` on the `false` of an unknown order. */
  const NoOrderForPayment := Fatal("Call to a member function get_address() on bool")

  /** The steps after a fresh `createCheckout` returned `response`. */
  function AfterCheckout(s: Gateway.Settings, id: nat, h: Host, response: Value): (r: (Gateway.Payment, Host))
    requires id in h.orders
    ensures r.0 == Gateway.Redirect(Redirect(s, Get(response, "checkout_url")))
    ensures MetaOf(r.1, id, "payout_redirect_url") == r.0.url
    ensures r.1.orders.Keys == h.orders.Keys
    ensures LooseEquals(Get(response, "status"), "processing") ==> r.1.orders[id] == h.orders[id].(status := "pending")
    ensures !LooseEquals(Get(response, "status"), "processing") ==> r.1.orders == h.orders
  {
    var marked := if LooseEquals(Get(response, "status"), "processing") then WithStatus(h, id, "pending") else h;
    var url := Redirect(s, Get(response, "checkout_url"));
    (Gateway.Redirect(url), WithMeta(marked, id, "payout_redirect_url", url))
  }

  /** `process_payment($order_id)` of the legacy gateway against host `h`. */
  function PaymentSpec(s: Gateway.Settings, sha256: string -> string, id: nat, h: Host,
                       authReply: Http.Exchange, reply: Http.Exchange): (Gateway.Payment, Host)
  {
    if id !in h.orders then (Gateway.PaymentCrashed(NoOrderForPayment), h)
    else
      var o := h.orders[id];
      var data := CheckoutData(s, id, o, Products(o.items));
      if o.total == 0 then (Gateway.PaymentFailed, h)
      else
        var stored := MetaOf(h, id, "payout_redirect_url");
        if Truthy(stored) then (Gateway.Redirect(stored), WithMeta(h, id, "payout_redirect_url", stored))
        else match ApiClient.FreshCreateCheckout(Gateway.ClientConfig(s), sha256, data, authReply, reply)
          case Err(e) => (Gateway.Caught(e), h)
          case Ok(response) => AfterCheckout(s, id, h, response)
  }

  /** `process_payment($order_id)` against the order store. */
  method ProcessPayment(s: Gateway.Settings, sha256: string -> string, id: nat, store: OrderStore, nonce: string,
                        authReply: Http.Exchange, reply: Http.Exchange)
    returns (result: Gateway.Payment)
    modifies store
    ensures (result, store.State()) == PaymentSpec(s, sha256, id, old(store.State()), authReply, reply)
  {
    var client := new ApiClient.Client(map["client_id" := s.clientId, "client_secret" := s.clientSecret, "sandbox" := s.sandbox]);
    if id !in store.orders {
      return Gateway.PaymentCrashed(NoOrderForPayment);
    }
    var order := store.orders[id];
    var products := BuildProducts(order.items);
    var data := CheckoutData(s, id, order, products);
    if order.total == 0 {
      return Gateway.PaymentFailed;
    }
    var stored := MetaOf(store.State(), id, "payout_redirect_url");
    if Truthy(stored) {
      store.UpdateMeta(id, "payout_redirect_url", stored);
      return Gateway.Redirect(stored);
    }
    var response := client.CreateCheckout(data, nonce, sha256, authReply, reply);
    if response.Err? {
      return Gateway.Caught(response.failure);
    }
    result := FinishCheckout(s, id, store, response.value);
  }

  method FinishCheckout(s: Gateway.Settings, id: nat, store: OrderStore, response: Value) returns (result: Gateway.Payment)
    requires id in store.orders
    modifies store
    ensures (result, store.State()) == AfterCheckout(s, id, old(store.State()), response)
  {
    if LooseEquals(Get(response, "status"), "processing") {
      store.UpdateStatus(id, "pending");
    }
    var redirect := BuildRedirect(s, Get(response, "checkout_url"));
    store.UpdateMeta(id, "payout_redirect_url", redirect);
    result := Gateway.Redirect(redirect);
  }

  /** An unknown order is fatal, a zero total returns `false`, and a stored
      redirect URL is returned again; none of these depends on the remote
      side or changes the store, although the reuse path writes the URL
      back. */
  lemma PaymentGuards(s: Gateway.Settings, sha256: string -> string, id: nat, h: Host,
                      a1: Http.Exchange, r1: Http.Exchange, a2: Http.Exchange, r2: Http.Exchange)
    requires id !in h.orders || h.orders[id].total == 0 || Truthy(MetaOf(h, id, "payout_redirect_url"))
    ensures PaymentSpec(s, sha256, id, h, a1, r1) == PaymentSpec(s, sha256, id, h, a2, r2)
    ensures PaymentSpec(s, sha256, id, h, a1, r1).1 == h
    ensures id !in h.orders ==> PaymentSpec(s, sha256, id, h, a1, r1).0 == Gateway.PaymentCrashed(NoOrderForPayment)
    ensures id in h.orders && h.orders[id].total == 0 ==> PaymentSpec(s, sha256, id, h, a1, r1).0 == Gateway.PaymentFailed
  {
    if id in h.orders && h.orders[id].total != 0 {
      assert id in h.meta && "payout_redirect_url" in h.meta[id];
      WithMetaSame(h, id, "payout_redirect_url");
    }
  }

  /** Whenever a redirect is returned, `payout_redirect_url` holds it
      afterwards, on the reuse path and on the fresh path alike. */
  lemma RedirectAlwaysStored(s: Gateway.Settings, sha256: string -> string, id: nat, h: Host, a: Http.Exchange, r: Http.Exchange)
    requires PaymentSpec(s, sha256, id, h, a, r).0.Redirect?
    ensures var (p, h1) := PaymentSpec(s, sha256, id, h, a, r);
            MetaOf(h1, id, "payout_redirect_url") == p.url
  {
  }
}
