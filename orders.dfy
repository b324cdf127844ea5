/**
 * The part of WooCommerce the gateway drives: orders with a status, and the
 * per-order meta store. Orders are keyed by their numeric id; meta values
 * are PHP values keyed by meta key.
 */
module Orders {
  import opened Php

  datatype Address = Address(firstName: string, lastName: string, line1: string, line2: string,
                             city: string, country: string, postcode: string)

  /** A line item: `total` is the line total and `price` the product's unit
      price, both in hundredths. */
  datatype Item = Item(name: string, quantity: int, total: int, price: int)

  /** What the gateway reads from an order. `returnUrl` is what
      `get_return_url($order)` yields; `needsProcessing` and `paid` are the
      parts of the order `payment_complete` consults and sets. */
  datatype Order = Order(
    status: string,
    total: int,
    currency: string,
    billing: Address,
    email: string,
    phone: string,
    shipping: Address,
    items: seq<Item>,
    returnUrl: string,
    needsProcessing: bool,
    paid: bool)

  datatype Host = Host(orders: map<nat, Order>, meta: map<nat, map<string, Value>>)

  /** `get_post_meta($id, $key, true)`, also `$order->get_meta($key)`: ''
      when the key was never written. */
  function MetaOf(h: Host, id: nat, key: string): (v: Value)
    ensures id in h.meta && key in h.meta[id] ==> v == h.meta[id][key]
    ensures !(id in h.meta && key in h.meta[id]) ==> v == Str("")
  {
    if id in h.meta && key in h.meta[id] then h.meta[id][key] else Str("")
  }

  /** `update_post_meta($id, $key, $v)`: one meta entry changes, nothing
      else. */
  function WithMeta(h: Host, id: nat, key: string, v: Value): (r: Host)
    ensures r.orders == h.orders
    ensures MetaOf(r, id, key) == v
    ensures forall i: nat, k :: (i != id || k != key) ==> MetaOf(r, i, k) == MetaOf(h, i, k)
  {
    var entries := if id in h.meta then h.meta[id] else map[];
    Host(h.orders, h.meta[id := entries[key := v]])
  }

  /** Writing the value a meta entry already has changes nothing. */
  lemma WithMetaSame(h: Host, id: nat, key: string)
    requires id in h.meta && key in h.meta[id]
    ensures WithMeta(h, id, key, MetaOf(h, id, key)) == h
  {
    assert h.meta[id][key := h.meta[id][key]] == h.meta[id];
    assert h.meta[id := h.meta[id]] == h.meta;
  }

  /** `$order->update_status($status)` */
  function WithStatus(h: Host, id: nat, status: string): (r: Host)
    requires id in h.orders
    ensures r.meta == h.meta
    ensures r.orders == h.orders[id := h.orders[id].(status := status)]
  {
    Host(h.orders[id := h.orders[id].(status := status)], h.meta)
  }

  /** The statuses from which `payment_complete` takes an order. */
  const PayableStatuses: set<string> := {"on-hold", "pending", "failed", "cancelled"}

  /** `$order->payment_complete()` as WooCommerce defines it: a payable order
      becomes processing (or completed when nothing needs processing) and
      is marked paid; any other order is left alone. */
  function PaymentComplete(o: Order): (r: Order)
    ensures o.status in PayableStatuses ==>
              r == o.(status := if o.needsProcessing then "processing" else "completed", paid := true)
    ensures o.status !in PayableStatuses ==> r == o
    ensures r.status !in PayableStatuses
  {
    if o.status in PayableStatuses
    then o.(status := if o.needsProcessing then "processing" else "completed", paid := true)
    else o
  }

  /** A second `payment_complete` has no effect: an order is paid once. */
  lemma PaymentCompleteIdempotent(o: Order)
    ensures PaymentComplete(PaymentComplete(o)) == PaymentComplete(o)
  {
  }

  function WithPaymentComplete(h: Host, id: nat): (r: Host)
    requires id in h.orders
    ensures r.meta == h.meta
    ensures r.orders == h.orders[id := PaymentComplete(h.orders[id])]
  {
    Host(h.orders[id := PaymentComplete(h.orders[id])], h.meta)
  }

  /** The order id `wc_get_order` and `update_post_meta` read from a value:
      a whole number or a decimal numeral. */
  function OrderIdOf(v: Value): (r: Option<nat>)
    ensures v.Str? ==> r == ParseNat(v.s)
  {
    match v
    case Num(h) => if h >= 0 && h % 100 == 0 then Some(h / 100) else None
    case Str(s) => ParseNat(s)
    case _ => None
  }

  /** The external id a checkout carries for order `n` (its string form)
      designates order `n` again when a notification brings it back. */
  lemma ExternalIdRoundTrip(n: nat)
    ensures OrderIdOf(Str(StrVal(Num(100 * n)))) == Some(n)
    ensures OrderIdOf(Num(100 * n)) == Some(n)
  {
    var h := 100 * n;
    IntegralNumString(n);
    assert StrVal(Num(h)) == NatToString(n);
    NatToStringRoundTrip(n);
    assert OrderIdOf(Str(NatToString(n))) == Some(n);
    assert h % 100 == 0 && h / 100 == n;
  }

  /** The store the core writes through. */
  class OrderStore {
    var orders: map<nat, Order>
    var meta: map<nat, map<string, Value>>

    function State(): Host
      reads this
    {
      Host(orders, meta)
    }

    constructor (h: Host)
      ensures State() == h
    {
      orders := h.orders;
      meta := h.meta;
    }

    method UpdateMeta(id: nat, key: string, v: Value)
      modifies this
      ensures State() == WithMeta(old(State()), id, key, v)
    {
      var entries := if id in meta then meta[id] else map[];
      meta := meta[id := entries[key := v]];
    }

    method UpdateStatus(id: nat, status: string)
      requires id in orders
      modifies this
      ensures State() == WithStatus(old(State()), id, status)
    {
      orders := orders[id := orders[id].(status := status)];
    }

    method PaymentComplete(id: nat)
      requires id in orders
      modifies this
      ensures State() == WithPaymentComplete(old(State()), id)
    {
      var o := orders[id];
      if o.status in PayableStatuses {
        orders := orders[id := o.(status := if o.needsProcessing then "processing" else "completed", paid := true)];
      }
    }
  }
}
