/**
 * includes/class-wc-gateway-payout.php: the current WooCommerce gateway. The
 * webhook reconciles orders with checkout notifications, `process_payment`
 * creates (or reuses) a checkout and hands back its redirect URL, and
 * `process_refund` signs and posts a refund.
 *
 * The request body is a parameter (the decoded `php://input`), as are the
 * nonces and every remote reply. Header output and `exit` become an
 * `Outcome`; `wc_add_notice` and the logger are not modelled.
 */
module Gateway {
  import opened Php
  import opened Signature
  import opened Http
  import opened Orders
  import ApiClient
  import Checkout
  import Refund

  /** The options the core reads with `get_option`. */
  datatype Settings = Settings(
    clientId: Value,
    clientSecret: Value,
    sandbox: Value,
    paymentId: Value,
    language: Value,
    idempotencyKey: Value)

  /** The `$config` every `new Client($config)` of the gateway gets. */
  function ClientConfig(s: Settings): map<string, Value> {
    ApiClient.MergeConfig(map["client_id" := s.clientId, "client_secret" := s.clientSecret, "sandbox" := s.sandbox])
  }

  /** The client verifies with the gateway's own secret. */
  lemma ClientSecretIsSetting(s: Settings)
    ensures ApiClient.Setting(ClientConfig(s), "client_secret") == s.clientSecret
    ensures ApiClient.BaseUrlFor(ClientConfig(s)) == (if Truthy(s.sandbox) then ApiClient.ApiUrlSandbox else ApiClient.ApiUrl)
  {
  }

  // ---------------------------------------------------------------------
  // payout_webhook_callback

  /** What a notification request ends in. `Rejected401` is the 401
      response with `{"error":"Bad signature"}`; `Crashed` an uncaught
      error. */
  datatype Outcome = Ignored | Rejected401 | Applied | Crashed(failure: Failure)

  /** The order statuses an `expired` notification leaves alone. */
  const CompletedStatuses: set<string> :=
    {"processing", "packing", "completed", "shipping", "ready-for-pickup", "picked-up", "cancelled", "refunded", "failed"}

  function Data(n: Value): Value {
    Get(n, "data")
  }

  /** The presence checks that precede everything else. */
  predicate WellFormed(n: Value) {
    && IsSet(Get(Data(n), "object"))
    && Get(Data(n), "object") == Str("checkout")
    && IsSet(Get(Data(n), "status"))
    && IsSet(Get(Data(n), "id"))
    && IsSet(Get(n, "external_id"))
    && IsSet(Get(n, "type"))
    && IsSet(Get(n, "nonce"))
    && IsSet(Get(n, "signature"))
  }

  /** The fields a notification's signature covers, in order. */
  function NotificationMessage(n: Value): seq<Value> {
    [Get(n, "external_id"), Get(n, "type"), Get(n, "nonce")]
  }

  /** The status step: `succeeded` completes the payment, `expired` fails an
      order that is not already finished, anything else changes nothing. */
  function Transition(h: Host, id: nat, status: Value): (r: Host)
    requires id in h.orders
    ensures r.meta == h.meta && r.orders.Keys == h.orders.Keys
    ensures forall j :: j in h.orders && j != id ==> r.orders[j] == h.orders[j]
    ensures status == Str("succeeded") ==> r == WithPaymentComplete(h, id)
    ensures status == Str("expired") && h.orders[id].status !in CompletedStatuses ==>
              r.orders[id] == h.orders[id].(status := "failed")
    ensures status != Str("succeeded") && (status != Str("expired") || h.orders[id].status in CompletedStatuses) ==>
              r == h
  {
    if status == Str("succeeded") then WithPaymentComplete(h, id)
    else if status == Str("expired") && h.orders[id].status !in CompletedStatuses then WithStatus(h, id, "failed")
    else h
  }

  /** What an accepted notification does to a known order: the checkout's
      status and id are stored, then the status step. */
  function Reconciled(h: Host, id: nat, status: Value, checkoutId: Value): (r: Host)
    requires id in h.orders
    ensures MetaOf(r, id, "payout_order_status") == status && MetaOf(r, id, "payout_checkout_id") == checkoutId
  {
    Transition(WithMeta(WithMeta(h, id, "payout_order_status", status), id, "payout_checkout_id", checkoutId), id, status)
  }

  /** A notification whose signature holds: `wc_get_order` on its external
      id, and the writes when that finds an order. */
  function Delivered(n: Value, h: Host): (r: (Outcome, Host))
    ensures r.0.Applied? <==> OrderIdOf(Get(n, "external_id")).Some? && OrderIdOf(Get(n, "external_id")).value in h.orders
    ensures !r.0.Applied? ==> r == (Ignored, h)
    ensures r.0.Applied? ==>
              r.1 == Reconciled(h, OrderIdOf(Get(n, "external_id")).value, Get(Data(n), "status"), Get(Data(n), "id"))
  {
    match OrderIdOf(Get(n, "external_id"))
    case None => (Ignored, h)
    case Some(id) =>
      if id !in h.orders then (Ignored, h)
      else (Applied, Reconciled(h, id, Get(Data(n), "status"), Get(Data(n), "id")))
  }

  /** `payout_webhook_callback()` on notification `n` against host `h`. */
  function WebhookSpec(s: Settings, sha256: string -> string, n: Value, h: Host): (Outcome, Host)
  {
    if !WellFormed(n) then (Ignored, h)
    else match CheckSignature(sha256, s.clientSecret, NotificationMessage(n), Get(n, "signature"))
      case Err(e) => (Crashed(e), h)
      case Ok(valid) =>
        if !valid then (Rejected401, h)
        else Delivered(n, h)
  }

  /** The outcomes of the webhook: malformed notifications are ignored, a
      bad signature is answered with 401, and only a verified notification
      for a known order writes anything. */
  lemma WebhookOutcomes(s: Settings, sha256: string -> string, n: Value, h: Host)
    ensures var r := WebhookSpec(s, sha256, n, h);
            !WellFormed(n) ==> r == (Ignored, h)
    ensures var r := WebhookSpec(s, sha256, n, h);
            WellFormed(n) && CheckSignature(sha256, s.clientSecret, NotificationMessage(n), Get(n, "signature")) == Ok(false) ==>
              r == (Rejected401, h)
    ensures var r := WebhookSpec(s, sha256, n, h);
            !r.0.Applied? ==> r.1 == h
    ensures var r := WebhookSpec(s, sha256, n, h);
            r.0.Applied? <==>
              && WellFormed(n)
              && CheckSignature(sha256, s.clientSecret, NotificationMessage(n), Get(n, "signature")) == Ok(true)
              && OrderIdOf(Get(n, "external_id")).Some?
              && OrderIdOf(Get(n, "external_id")).value in h.orders
    ensures var r := WebhookSpec(s, sha256, n, h);
            r.0.Applied? ==>
              var id := OrderIdOf(Get(n, "external_id")).value;
              && MetaOf(r.1, id, "payout_order_status") == Get(Data(n), "status")
              && MetaOf(r.1, id, "payout_checkout_id") == Get(Data(n), "id")
              && r.1.orders.Keys == h.orders.Keys
              && (forall j :: j in h.orders && j != id ==> r.1.orders[j] == h.orders[j])
  {
  }

  /** The webhook against the order store. */
  method Webhook(s: Settings, sha256: string -> string, n: Value, store: OrderStore) returns (outcome: Outcome)
    modifies store
    ensures (outcome, store.State()) == WebhookSpec(s, sha256, n, old(store.State()))
  {
    if !WellFormed(n) {
      return Ignored;
    }
    var check := VerifyNotification(s, sha256, n);
    if check.Err? {
      return Crashed(check.failure);
    }
    if !check.value {
      return Rejected401;
    }
    outcome := Deliver(n, store);
  }

  /** A client built from the settings, and its `verifySignature` on the
      notification's fields. */
  method VerifyNotification(s: Settings, sha256: string -> string, n: Value) returns (check: Result<bool>)
    ensures check == CheckSignature(sha256, s.clientSecret, NotificationMessage(n), Get(n, "signature"))
  {
    var client := new ApiClient.Client(map["client_id" := s.clientId, "client_secret" := s.clientSecret, "sandbox" := s.sandbox]);
    ClientSecretIsSetting(s);
    check := CheckSignature(sha256, client.Secret(), NotificationMessage(n), Get(n, "signature"));
  }

  /** The part of the webhook after the signature check. */
  method Deliver(n: Value, store: OrderStore) returns (outcome: Outcome)
    modifies store
    ensures (outcome, store.State()) == Delivered(n, old(store.State()))
  {
    var id := OrderIdOf(Get(n, "external_id"));
    if id.None? || id.value !in store.orders {
      return Ignored;
    }
    Reconcile(id.value, Get(Data(n), "status"), Get(Data(n), "id"), store);
    outcome := Applied;
  }

  /** The writes of an accepted notification against the order store. */
  method Reconcile(id: nat, status: Value, checkoutId: Value, store: OrderStore)
    requires id in store.orders
    modifies store
    ensures store.State() == Reconciled(old(store.State()), id, status, checkoutId)
  {
    store.UpdateMeta(id, "payout_order_status", status);
    store.UpdateMeta(id, "payout_checkout_id", checkoutId);
    ApplyStatus(id, status, store);
  }

  /** The status step of the webhook against the order store. */
  method ApplyStatus(id: nat, status: Value, store: OrderStore)
    requires id in store.orders
    modifies store
    ensures store.State() == Transition(old(store.State()), id, status)
  {
    var current := store.orders[id].status;
    if status == Str("succeeded") {
      store.PaymentComplete(id);
    } else if status == Str("expired") && current !in CompletedStatuses {
      store.UpdateStatus(id, "failed");
    }
  }

  /** Replaying a notification reaches the state the first delivery
      reached, with the same outcome: the meta is rewritten with the same
      values, a paid order is not paid again, a failed order stays failed. */
  lemma WebhookReplay(s: Settings, sha256: string -> string, n: Value, h: Host)
    ensures WebhookSpec(s, sha256, n, WebhookSpec(s, sha256, n, h).1) == WebhookSpec(s, sha256, n, h)
  {
    var (o, h1) := WebhookSpec(s, sha256, n, h);
    if o.Applied? {
      var id := OrderIdOf(Get(n, "external_id")).value;
      var status := Get(Data(n), "status");
      var checkoutId := Get(Data(n), "id");
      var written := WithMeta(WithMeta(h, id, "payout_order_status", status), id, "payout_checkout_id", checkoutId);
      assert h1 == Reconciled(h, id, status, checkoutId) == Transition(written, id, status);
      WithMetaSame(h1, id, "payout_order_status");
      WithMetaSame(h1, id, "payout_checkout_id");
      var again := WithMeta(WithMeta(h1, id, "payout_order_status", status), id, "payout_checkout_id", checkoutId);
      assert again == h1;
      if status == Str("succeeded") {
        PaymentCompleteIdempotent(written.orders[id]);
        assert h1.orders[id := PaymentComplete(h1.orders[id])] == h1.orders;
      } else if status == Str("expired") && written.orders[id].status !in CompletedStatuses {
        assert h1.orders[id].status == "failed";
      }
      assert Transition(again, id, status) == h1;
      assert Reconciled(h1, id, status, checkoutId) == h1;
    }
  }

  /** An order that is already finished is never failed by `expired`; only
      `succeeded` can still move it, and only from a payable status. */
  lemma FinishedOrdersKeepStatus(s: Settings, sha256: string -> string, n: Value, h: Host, id: nat)
    requires OrderIdOf(Get(n, "external_id")) == Some(id) && id in h.orders
    requires h.orders[id].status in CompletedStatuses - PayableStatuses
    ensures WebhookSpec(s, sha256, n, h).1.orders == h.orders
  {
  }

  // ---------------------------------------------------------------------
  // float_to_cents, get_products_array

  /** `(int) round($a / $b * 100)` on amounts in hundredths: the quotient
      rounded half away from zero. `/` by zero throws DivisionByZeroError. */
  function RoundDiv(a: int, b: int): (r: Result<int>)
    ensures b == 0 <==> r.Err?
  {
    if b == 0 then Err(Fatal("Division by zero"))
    else
      var p := if a < 0 then -a else a;
      var q := if b < 0 then -b else b;
      var m := (2 * p + q) / (2 * q);
      Ok(if (a < 0) != (b < 0) then -m else m)
  }

  /** The rounded unit price is the nearest whole number of hundredths:
      off by at most half the quantity, with a tie rounded up. */
  lemma RoundDivNearest(a: int, b: int)
    requires a >= 0 && b > 0
    ensures RoundDiv(a, b).Ok?
    ensures var m := RoundDiv(a, b).value; -b <= 2 * (a - m * b) < b
  {
    var t := 2 * a + b;
    var d := 2 * b;
    var m := t / d;
    assert RoundDiv(a, b).value == m;
    var rem := t % d;
    assert t == d * m + rem && 0 <= rem < d;
    assert d * m == 2 * (m * b);
    assert 2 * (a - m * b) == rem - b;
  }

  lemma MulAtLeast(x: int, b: int)
    requires x >= 1 && b > 0
    ensures x * b >= b
  {
    assert x * b == b + (x - 1) * b;
  }

  /** A line total that is a whole multiple of the quantity gives the exact
      unit price. */
  lemma RoundDivExact(m: int, b: int)
    requires m >= 0 && b > 0
    ensures RoundDiv(m * b, b) == Ok(m)
  {
    RoundDivNearest(m * b, b);
    var r := RoundDiv(m * b, b).value;
    assert m * b - r * b == (m - r) * b;
    if r < m {
      MulAtLeast(m - r, b);
    } else if r > m {
      MulAtLeast(r - m, b);
    }
  }

  /** One entry of `get_products_array`. */
  function Product(item: Item): (r: Result<Value>)
    ensures r.Ok? <==> item.quantity != 0
    ensures r.Ok? ==> r.value.Arr? && r.value.fields.Keys == {"name", "quantity", "unit_price"}
    ensures r.Ok? ==> && r.value.fields["name"] == Str(item.name)
                      && r.value.fields["quantity"] == Num(100 * item.quantity)
                      && r.value.fields["unit_price"] == Num(100 * RoundDiv(item.total, item.quantity).value)
  {
    match RoundDiv(item.total, item.quantity)
    case Err(e) => Err(e)
    case Ok(cents) =>
      Ok(Arr(map["name" := Str(item.name), "quantity" := Num(100 * item.quantity), "unit_price" := Num(100 * cents)]))
  }

  /** An item whose line total is a whole number of cents per unit is sent
      with exactly that unit price. */
  lemma ProductExactUnitPrice(item: Item, m: int)
    requires m >= 0 && item.quantity > 0 && item.total == m * item.quantity
    ensures Product(item).Ok? && Product(item).value.fields["unit_price"] == Num(100 * m)
  {
    RoundDivExact(m, item.quantity);
  }

  /** The products of an order, one per item and in item order; the first
      item with a zero quantity aborts. */
  function ProductsArray(items: seq<Item>): (r: Result<seq<Value>>)
    ensures r.Ok? <==> forall i :: 0 <= i < |items| ==> Product(items[i]).Ok?
    ensures r.Ok? ==> |r.value| == |items| && forall i :: 0 <= i < |items| ==> r.value[i] == Product(items[i]).value
  {
    if items == [] then Ok([])
    else
      var init := items[..|items| - 1];
      match ProductsArray(init)
      case Err(e) =>
        assert !forall i :: 0 <= i < |init| ==> Product(init[i]).Ok?;
        Err(e)
      case Ok(ps) =>
        match Product(items[|items| - 1])
        case Err(e) => Err(e)
        case Ok(p) => Ok(ps + [p])
  }

  /** An error in a prefix is the error of the whole list. */
  lemma {:induction false} ProductsErrorPersists(items: seq<Item>, i: nat)
    requires i <= |items| && ProductsArray(items[..i]).Err?
    ensures ProductsArray(items) == ProductsArray(items[..i])
    decreases |items| - i
  {
    if i < |items| {
      assert items[..i + 1][..i] == items[..i];
      ProductsErrorPersists(items, i + 1);
    } else {
      assert items[..i] == items;
    }
  }

  /** `get_products_array($order)` */
  method GetProductsArray(items: seq<Item>) returns (r: Result<seq<Value>>)
    ensures r == ProductsArray(items)
  {
    var products: seq<Value> := [];
    for i := 0 to |items|
      invariant ProductsArray(items[..i]) == Ok(products)
    {
      assert items[..i + 1][..i] == items[..i];
      var p := Product(items[i]);
      if p.Err? {
        ProductsErrorPersists(items, i + 1);
        return Err(p.failure);
      }
      products := products + [p.value];
    }
    assert items[..|items|] == items;
    r := Ok(products);
  }

  // ---------------------------------------------------------------------
  // get_checkout_data

  /** An address entry of the checkout data. */
  function AddressData(a: Address, name: string): Value {
    Arr(map[
      "address_line_1" := Str(a.line1),
      "address_line_2" := Str(a.line2),
      "city" := Str(a.city),
      "country_code" := Str(a.country),
      "name" := Str(name),
      "postal_code" := Str(a.postcode)])
  }

  /** The customer entry: billing names, email and phone. */
  function Customer(o: Order): (c: Value)
    ensures c.Arr? && c.fields.Keys == {"first_name", "last_name", "email", "phone"}
  {
    Arr(map[
      "first_name" := Str(o.billing.firstName),
      "last_name" := Str(o.billing.lastName),
      "email" := Str(o.email),
      "phone" := Str(o.phone)])
  }

  /** The customer entry carries the billing first and last name and the
      order's email and phone. */
  lemma CustomerFromBilling(o: Order)
    ensures var c := Customer(o);
            && c.fields["first_name"] == Str(o.billing.firstName) && c.fields["last_name"] == Str(o.billing.lastName)
            && c.fields["email"] == Str(o.email) && c.fields["phone"] == Str(o.phone)
  {
  }

  /** The entries both gateways always send. */
  function BaseData(id: nat, o: Order, products: seq<Value>): (m: map<string, Value>)
    ensures m.Keys == {"amount", "currency", "customer", "products", "external_id", "redirect_url"}
    ensures m["amount"] == Num(o.total) && m["external_id"] == Num(100 * id) && m["customer"] == Customer(o)
  {
    map[
      "amount" := Num(o.total),
      "currency" := Str(o.currency),
      "customer" := Customer(o),
      "products" := List(products),
      "external_id" := Num(100 * id),
      "redirect_url" := Str(o.returnUrl)]
  }

  /** Every key the checkout data can have. */
  const CheckoutDataKeys: set<string> :=
    {"amount", "currency", "customer", "products", "external_id", "redirect_url",
     "billing_address", "shipping_address", "idempotency_key"}

  /** `get_checkout_data($order)` with the products already built. */
  function CheckoutData(s: Settings, id: nat, o: Order, products: seq<Value>): (d: Value)
    ensures d.Arr? && forall k :: k in d.fields ==> k in CheckoutDataKeys
    ensures && "amount" in d.fields && "currency" in d.fields && "customer" in d.fields && "products" in d.fields
            && "external_id" in d.fields && "redirect_url" in d.fields && "billing_address" in d.fields
    ensures "shipping_address" in d.fields <==> !Empty(Str(o.shipping.line1))
    ensures "idempotency_key" in d.fields <==> s.idempotencyKey == Str("yes")
    ensures d.fields["amount"] == Num(o.total) && d.fields["external_id"] == Num(100 * id)
    ensures d.fields["customer"] == Customer(o)
  {
    var data := BaseData(id, o, products)["billing_address" := AddressData(o.billing, o.billing.firstName + " " + o.billing.lastName)];
    var withShipping :=
      if !Empty(Str(o.shipping.line1))
      then data["shipping_address" := AddressData(o.shipping, o.shipping.firstName + " " + o.shipping.lastName)]
      else data;
    Arr(if s.idempotencyKey == Str("yes") then withShipping["idempotency_key" := Num(100 * id)] else withShipping)
  }

  /** What the gateway builds always passes `Checkout::create`, and the
      payload carries the order total in minor units and the order id as a
      string, which a notification maps back to the same order. */
  lemma CheckoutDataAdmissible(s: Settings, id: nat, o: Order, products: seq<Value>)
    ensures Checkout.Create(CheckoutData(s, id, o, products)).Ok?
    ensures var p := Checkout.Create(CheckoutData(s, id, o, products)).value;
            && p.fields["amount"] == Str(IntToString(o.total))
            && p.fields["external_id"] == Str(NatToString(id))
            && OrderIdOf(p.fields["external_id"]) == Some(id)
            && (forall k :: k in p.fields ==> k in Checkout.PayloadKeys)
  {
    var d := CheckoutData(s, id, o, products);
    BuiltDataPasses(d, id, o.total);
  }

  /** Checkout data with the keys the validator demands, an amount and an
      external id, and no metadata, passes `Checkout::create`; the payload
      carries the amount in minor units and the id as a string. */
  lemma BuiltDataPasses(d: Value, id: nat, total: int)
    requires d.Arr? && "metadata" !in d.fields
    requires "currency" in d.fields && "customer" in d.fields && "redirect_url" in d.fields
    requires "amount" in d.fields && d.fields["amount"] == Num(total)
    requires "external_id" in d.fields && d.fields["external_id"] == Num(100 * id)
    requires var c := d.fields["customer"];
             c.Arr? && "first_name" in c.fields && "last_name" in c.fields && "email" in c.fields
    ensures Checkout.Create(d).Ok?
    ensures var p := Checkout.Create(d).value;
            && p.fields["amount"] == Str(IntToString(total))
            && p.fields["external_id"] == Str(NatToString(id))
            && OrderIdOf(p.fields["external_id"]) == Some(id)
            && (forall k :: k in p.fields ==> k in Checkout.PayloadKeys)
  {
    var c := Get(d, "customer");
    assert forall i :: 0 <= i < |Checkout.CheckoutRequired| ==> HasKey(d, Checkout.CheckoutRequired[i]);
    assert forall i :: 0 <= i < |Checkout.CustomerRequired| ==> HasKey(c, Checkout.CustomerRequired[i]);
    assert Checkout.Admissible(d);
    var p := Checkout.Create(d).value;
    assert !Checkout.CopiesMetadata(d);
    assert p.fields["amount"] == Str(IntToString(total));
    IntegralNumString(id);
    ExternalIdRoundTrip(id);
  }

  // ---------------------------------------------------------------------
  // process_payment

  /** What `process_payment` returns: `false`, the success array with its
      redirect, or an uncaught error. */
  datatype Payment = PaymentFailed | Redirect(url: Value) | PaymentCrashed(failure: Failure)

  /** The text after the first '?' up to any '#'. */
  function UpToFragment(s: string): string {
    if s == [] || s[0] == '#' then "" else [s[0]] + UpToFragment(s[1..])
  }

  /** `parse_url($url, PHP_URL_QUERY)`: the query component, '' when the URL
      has none (a '?' inside the fragment does not count). */
  function QueryOf(url: string): string {
    if url == [] || url[0] == '#' then ""
    else if url[0] == '?' then UpToFragment(url[1..])
    else QueryOf(url[1..])
  }

  /** The options that go into a fresh redirect URL, `payment_method` first. */
  function QueryData(s: Settings): (q: seq<(string, string)>)
    ensures |q| <= 2
    ensures (|q| == 0) <==> Empty(s.paymentId) && Empty(s.language)
    ensures ("payment_method", StrVal(s.paymentId)) in q <==> !Empty(s.paymentId)
    ensures ("locale", StrVal(s.language)) in q <==> !Empty(s.language)
    ensures forall p :: p in q ==> p.0 == "payment_method" || p.0 == "locale"
    ensures |q| == 2 ==> q[0].0 == "payment_method" && q[1].0 == "locale"
  {
    (if !Empty(s.paymentId) then [("payment_method", StrVal(s.paymentId))] else [])
    + (if !Empty(s.language) then [("locale", StrVal(s.language))] else [])
  }

  /** The redirect URL built from a fresh checkout's `checkout_url`. */
  function FreshRedirect(s: Settings, urlencode: string -> string, checkoutUrl: Value): (url: Value)
    ensures QueryData(s) == [] ==> url == checkoutUrl
    ensures QueryData(s) != [] ==>
              var sep := if Truthy(Str(QueryOf(StrVal(checkoutUrl)))) then "&" else "?";
              url == Str(StrVal(checkoutUrl) + sep + BuildQuery(urlencode, QueryData(s)))
  {
    var query := QueryData(s);
    if query == [] then checkoutUrl
    else
      var sep := if Truthy(Str(QueryOf(StrVal(checkoutUrl)))) then "&" else "?";
      Str(StrVal(checkoutUrl) + sep + BuildQuery(urlencode, query))
  }

  /** With both options set the query lists `payment_method` and then
      `locale`; a URL without a query gets '?', one with a query '&'. */
  lemma RedirectWithBothOptions(s: Settings, urlencode: string -> string, checkoutUrl: string)
    requires !Empty(s.paymentId) && !Empty(s.language)
    ensures FreshRedirect(s, urlencode, Str(checkoutUrl)) ==
              Str(checkoutUrl + (if Truthy(Str(QueryOf(checkoutUrl))) then "&" else "?")
                  + urlencode("payment_method") + "=" + urlencode(StrVal(s.paymentId))
                  + "&" + urlencode("locale") + "=" + urlencode(StrVal(s.language)))
  {
    var q := QueryData(s);
    assert q == [("payment_method", StrVal(s.paymentId)), ("locale", StrVal(s.language))];
    TwoPairQuery(urlencode, q);
  }

  lemma TwoPairQuery(urlencode: string -> string, q: seq<(string, string)>)
    requires |q| == 2
    ensures BuildQuery(urlencode, q) ==
              urlencode(q[0].0) + "=" + urlencode(q[0].1) + "&" + urlencode(q[1].0) + "=" + urlencode(q[1].1)
  {
    assert |q[1..]| == 1 && q[1..][0] == q[1];
  }

  /** A URL without '?' has no query, so a fresh query is joined with '?'. */
  lemma {:induction false} NoQueryInPlainUrl(url: string)
    requires '?' !in url
    ensures QueryOf(url) == ""
  {
    if url != [] && url[0] != '#' {
      assert url == [url[0]] + url[1..];
      NoQueryInPlainUrl(url[1..]);
    }
  }

  /** The exceptions `process_payment` catches become `false`; errors pass. */
  function Caught(e: Failure): Payment {
    if e.Exception? then PaymentFailed else PaymentCrashed(e)
  }

  /** The part of `process_payment` after a fresh `createCheckout`
      returned `response`: a `processing` checkout sets the order pending,
      and the redirect URL is stored. */
  function AfterCheckout(s: Settings, urlencode: string -> string, id: nat, h: Host, response: Value): (r: (Payment, Host))
    requires id in h.orders
    ensures r.0 == Redirect(FreshRedirect(s, urlencode, Get(response, "checkout_url")))
    ensures MetaOf(r.1, id, "payout_redirect_url") == r.0.url
    ensures r.1.orders.Keys == h.orders.Keys
    ensures Get(response, "status") == Str("processing") ==> r.1.orders[id] == h.orders[id].(status := "pending")
    ensures Get(response, "status") != Str("processing") ==> r.1.orders == h.orders
  {
    var marked := if Get(response, "status") == Str("processing") then WithStatus(h, id, "pending") else h;
    var url := FreshRedirect(s, urlencode, Get(response, "checkout_url"));
    (Redirect(url), WithMeta(marked, id, "payout_redirect_url", url))
  }

  /** `process_payment($order_id)` against host `h`; `authReply` and `reply`
      are the exchanges a fresh checkout would make. */
  function ProcessPaymentSpec(s: Settings, f: Foreign, id: nat, h: Host, authReply: Exchange, reply: Exchange): (Payment, Host)
  {
    if id !in h.orders then (PaymentFailed, h)
    else
      var o := h.orders[id];
      if o.total == 0 then (PaymentFailed, h)
      else match ProductsArray(o.items)
        case Err(e) => (PaymentCrashed(e), h)
        case Ok(products) =>
          var stored := MetaOf(h, id, "payout_redirect_url");
          if !Empty(stored) then (Redirect(stored), h)
          else match ApiClient.FreshCreateCheckout(ClientConfig(s), f.sha256, CheckoutData(s, id, o, products), authReply, reply)
            case Err(e) => (Caught(e), h)
            case Ok(response) => AfterCheckout(s, f.urlencode, id, h, response)
  }

  /** The redirect URL of a fresh checkout: the options, then `?` or `&`
      and the query. */
  method BuildRedirect(s: Settings, urlencode: string -> string, checkoutUrl: Value) returns (url: Value)
    ensures url == FreshRedirect(s, urlencode, checkoutUrl)
  {
    url := checkoutUrl;
    var query: seq<(string, string)> := [];
    if !Empty(s.paymentId) {
      query := query + [("payment_method", StrVal(s.paymentId))];
    }
    if !Empty(s.language) {
      query := query + [("locale", StrVal(s.language))];
    }
    assert query == QueryData(s);
    if |query| > 0 {
      var sep := if Truthy(Str(QueryOf(StrVal(url)))) then "&" else "?";
      url := Str(StrVal(url) + sep + BuildQuery(urlencode, query));
    }
  }

  /** The steps after a fresh checkout, against the order store. */
  method FinishCheckout(s: Settings, urlencode: string -> string, id: nat, store: OrderStore, response: Value)
    returns (result: Payment)
    requires id in store.orders
    modifies store
    ensures (result, store.State()) == AfterCheckout(s, urlencode, id, old(store.State()), response)
  {
    if Get(response, "status") == Str("processing") {
      store.UpdateStatus(id, "pending");
    }
    var redirect := BuildRedirect(s, urlencode, Get(response, "checkout_url"));
    store.UpdateMeta(id, "payout_redirect_url", redirect);
    result := Redirect(redirect);
  }

  /** `process_payment($order_id)` against the order store. */
  method ProcessPayment(s: Settings, f: Foreign, id: nat, store: OrderStore, nonce: string, authReply: Exchange, reply: Exchange)
    returns (result: Payment)
    modifies store
    ensures (result, store.State()) == ProcessPaymentSpec(s, f, id, old(store.State()), authReply, reply)
  {
    if id !in store.orders {
      return PaymentFailed;
    }
    var order := store.orders[id];
    if order.total == 0 {
      return PaymentFailed;
    }
    var products := GetProductsArray(order.items);
    if products.Err? {
      return PaymentCrashed(products.failure);
    }
    var data := CheckoutData(s, id, order, products.value);
    var stored := MetaOf(store.State(), id, "payout_redirect_url");
    var client := new ApiClient.Client(map["client_id" := s.clientId, "client_secret" := s.clientSecret, "sandbox" := s.sandbox]);
    if !Empty(stored) {
      return Redirect(stored);
    }
    var response := client.CreateCheckout(data, nonce, f.sha256, authReply, reply);
    if response.Err? {
      return Caught(response.failure);
    }
    result := FinishCheckout(s, f.urlencode, id, store, response.value);
  }

  /** A zero total, or a redirect URL already stored, returns before any
      checkout is created: nothing depends on the exchanges and nothing is
      written. */
  lemma PaymentGuards(s: Settings, f: Foreign, id: nat, h: Host, a1: Exchange, r1: Exchange, a2: Exchange, r2: Exchange)
    requires id in h.orders
    requires h.orders[id].total == 0
             || (ProductsArray(h.orders[id].items).Ok? && !Empty(MetaOf(h, id, "payout_redirect_url")))
    ensures ProcessPaymentSpec(s, f, id, h, a1, r1) == ProcessPaymentSpec(s, f, id, h, a2, r2)
    ensures ProcessPaymentSpec(s, f, id, h, a1, r1).1 == h
    ensures h.orders[id].total == 0 ==> ProcessPaymentSpec(s, f, id, h, a1, r1).0 == PaymentFailed
    ensures h.orders[id].total != 0 ==>
              ProcessPaymentSpec(s, f, id, h, a1, r1).0 == Redirect(MetaOf(h, id, "payout_redirect_url"))
  {
  }

  /** Paying again for an order whose redirect URL was stored creates no
      second checkout: the second call returns the same URL and writes
      nothing, whatever the remote side would now answer. */
  lemma PaymentReplayReuses(s: Settings, f: Foreign, id: nat, h: Host, a1: Exchange, r1: Exchange, a2: Exchange, r2: Exchange)
    requires ProcessPaymentSpec(s, f, id, h, a1, r1).0.Redirect?
    requires !Empty(ProcessPaymentSpec(s, f, id, h, a1, r1).0.url)
    ensures var (p, h1) := ProcessPaymentSpec(s, f, id, h, a1, r1);
            ProcessPaymentSpec(s, f, id, h1, a2, r2) == (p, h1)
  {
    var (p, h1) := ProcessPaymentSpec(s, f, id, h, a1, r1);
    assert id in h.orders;
    var o := h.orders[id];
    assert o.total != 0 && ProductsArray(o.items).Ok?;
    if Empty(MetaOf(h, id, "payout_redirect_url")) {
      var response := ApiClient.FreshCreateCheckout(ClientConfig(s), f.sha256,
                        CheckoutData(s, id, o, ProductsArray(o.items).value), a1, r1);
      assert response.Ok?;
      assert (p, h1) == AfterCheckout(s, f.urlencode, id, h, response.value);
      assert h1.orders[id].total == o.total && h1.orders[id].items == o.items;
      assert MetaOf(h1, id, "payout_redirect_url") == p.url;
    }
  }

  // ---------------------------------------------------------------------
  // process_refund

  /** A `wp_remote_*` result: a WP_Error, or the response code, message,
      raw body and the body as `json_decode` reads it. */
  datatype Remote = WpError | Response(code: Value, message: Value, body: string, decoded: Value)

  /** The refund's signed fields, in order, before the secret. */
  function RefundMessage(cents: string, currency: string, id: nat, nonce: string): seq<Value> {
    [Str(cents), Str(currency), Num(100 * id), Str(""), Str(nonce)]
  }

  /** The refund request as sent: endpoints, bearer header and JSON body. */
  datatype RefundRequest = RefundRequest(authUrl: string, credentials: Value, refundUrl: string,
                                         authorization: string, body: Value)

  /** What `process_refund` returns: `true`, a WP_Error with its message, or
      an uncaught error. */
  datatype RefundResult = Refunded | RefundError(message: string) | RefundCrashed(failure: Failure)

  /** `bcmul($amount, 100)`: exact on hundredths; a missing amount is null,
      which bcmath reads as the empty numeral 0. */
  function RefundCents(amount: Option<int>): (c: string)
    ensures amount.None? ==> c == "0"
    ensures amount.Some? && amount.value >= 0 ==> ParseNat(c) == Some(amount.value)
  {
    if amount.None? then "0"
    else if amount.value >= 0 then
      NatToStringRoundTrip(amount.value);
      IntToString(amount.value)
    else IntToString(amount.value)
  }

  /** The request `process_refund` sends for a refund of `amount`
      hundredths, signed with nonce `nonce` and authorised by the token in
      `auth`. */
  function RefundRequestFor(s: Settings, sha256: string -> string, id: nat, amount: Option<int>, nonce: string,
                            h: Host, auth: Remote): (q: RefundRequest)
    requires id in h.orders && auth.Response?
    ensures q.body.Arr? && q.body.fields.Keys == {"amount", "checkout_id", "statement_descriptor", "nonce", "signature"}
    ensures q.body.fields["amount"] == Str(RefundCents(amount))
    ensures q.body.fields["checkout_id"] == MetaOf(h, id, "payout_checkout_id")
    ensures q.body.fields["statement_descriptor"] == Str("") && q.body.fields["nonce"] == Str(nonce)
    ensures var base := if Truthy(s.sandbox) then ApiClient.ApiUrlSandbox else ApiClient.ApiUrl;
            q.authUrl == base + "authorize" && q.refundUrl == base + "refunds"
    ensures q.credentials == Arr(map["client_id" := s.clientId, "client_secret" := s.clientSecret])
    ensures q.authorization == Bearer(Get(auth.decoded, "token"))
    ensures q.body.fields["signature"] ==
              Str(GetSignature(sha256, RefundMessage(RefundCents(amount), h.orders[id].currency, id, nonce) + [s.clientSecret]))
  {
    var cents := RefundCents(amount);
    var base := if Truthy(s.sandbox) then ApiClient.ApiUrlSandbox else ApiClient.ApiUrl;
    var signature := GetSignature(sha256, RefundMessage(cents, h.orders[id].currency, id, nonce) + [s.clientSecret]);
    RefundRequest(
      base + "authorize",
      Arr(map["client_id" := s.clientId, "client_secret" := s.clientSecret]),
      base + "refunds",
      Bearer(Get(auth.decoded, "token")),
      Arr(map[
        "amount" := Str(cents),
        "checkout_id" := MetaOf(h, id, "payout_checkout_id"),
        "statement_descriptor" := Str(""),
        "nonce" := Str(nonce),
        "signature" := Str(signature)]))
  }

  /** A refund without an amount is still sent, for amount "0" and signed
      over "0". */
  lemma MissingAmountRefundsZero(s: Settings, sha256: string -> string, id: nat, nonce: string, h: Host, auth: Remote)
    requires id in h.orders && auth.Response?
    ensures var q := RefundRequestFor(s, sha256, id, None, nonce, h, auth);
            q.body.fields["amount"] == Str("0")
            && q.body.fields["signature"] ==
                 Str(GetSignature(sha256, [Str("0"), Str(h.orders[id].currency), Num(100 * id), Str(""), Str(nonce), s.clientSecret]))
  {
    assert RefundMessage(RefundCents(None), h.orders[id].currency, id, nonce) + [s.clientSecret]
        == [Str("0"), Str(h.orders[id].currency), Num(100 * id), Str(""), Str(nonce), s.clientSecret];
  }

  /** `process_refund($order_id, $amount)`: the outcome, given the two
      remote replies; it does not depend on the amount. An unknown order or
      a WP_Error is fatal. */
  function ProcessRefund(id: nat, h: Host, auth: Remote, reply: Remote): (r: RefundResult)
    ensures r == Refunded <==>
              id in h.orders && auth.Response? && reply.Response?
              && LooseEquals(reply.message, "OK") && LooseEqualsInt(reply.code, 200)
    ensures r.RefundError? ==> reply.Response? && r.message == "Refund failed.- " + reply.body
    ensures r.RefundCrashed? <==> id !in h.orders || auth.WpError? || reply.WpError?
  {
    if id !in h.orders then RefundCrashed(Fatal("Call to a member function get_currency() on bool"))
    else if auth.WpError? || reply.WpError? then RefundCrashed(Fatal("Cannot use object of type WP_Error as array"))
    else if LooseEquals(reply.message, "OK") && LooseEqualsInt(reply.code, 200) then Refunded
    else RefundError("Refund failed.- " + reply.body)
  }

  /** Corollary of `RefundRequestFor` and `CheckSignature`: the refund
      signature follows the client's convention, so the API checks it as
      `verifySignature` over amount, currency, order id, the empty IBAN and
      the nonce. */
  lemma RefundSignatureVerifies(s: Settings, sha256: string -> string, id: nat, amount: Option<int>, nonce: string, h: Host, auth: Remote)
    requires id in h.orders && auth.Response?
    ensures var q := RefundRequestFor(s, sha256, id, amount, nonce, h, auth);
            CheckSignature(sha256, s.clientSecret, RefundMessage(RefundCents(amount), h.orders[id].currency, id, nonce),
                           q.body.fields["signature"]) == Ok(true)
  {
  }

  /** The body the gateway posts lacks `payout_id` and `iban`, so the
      library's own refund validator would refuse it, naming `payout_id`. */
  lemma RefundBodyFailsRefundValidator(s: Settings, sha256: string -> string, id: nat, amount: Option<int>, nonce: string, h: Host, auth: Remote)
    requires id in h.orders && auth.Response?
    ensures Refund.Create(RefundRequestFor(s, sha256, id, amount, nonce, h, auth).body)
            == Err(Exception(MissingParameter("payout_id")))
  {
    var b := RefundRequestFor(s, sha256, id, amount, nonce, h, auth).body;
    assert FirstMissingAt(Refund.RefundRequired, b, 1);
  }
}
