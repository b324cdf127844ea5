/**
 * assets/js/payout-thank-you.js: the thank-you page polls the order's
 * payment status once per interval. A `succeeded` or `processing` answer
 * stops polling and shows the order; after more than `MaxChecks` other
 * answers polling stops and the browser goes to the payment page. A reply
 * that is not OK is skipped.
 *
 * Each run of the interval callback is one `Tick`; `clearInterval` is the
 * phase leaving `Polling`, after which the callback does not run again.
 */
module ThankYou {

  /** The interval between two status requests, in milliseconds. */
  const IntervalPeriod: nat := 1000

  /** The inconclusive answers tolerated before the redirect. */
  const MaxChecks: nat := 8

  /** The result of one status request: not OK, or OK with its text. */
  datatype Reply = NotOk | Text(data: string)

  /** Polling runs until it is done or has redirected. */
  datatype Phase = Polling | Done | Redirected

  datatype Poll = Poll(counter: nat, phase: Phase)

  /** An answer that ends polling with the order shown. */
  predicate Conclusive(r: Reply) {
    r.Text? && (r.data == "succeeded" || r.data == "processing")
  }

  /** An OK answer that is neither `succeeded` nor `processing`. */
  predicate Inconclusive(r: Reply) {
    r.Text? && !Conclusive(r)
  }

  /** One run of the interval callback. */
  function Step(p: Poll, r: Reply): (q: Poll)
    ensures p.phase != Polling ==> q == p
    ensures p.phase == Polling && r.NotOk? ==> q == p
    ensures p.phase == Polling && Conclusive(r) ==> q == Poll(p.counter, Done)
    ensures p.phase == Polling && Inconclusive(r) ==>
              q.counter == p.counter + 1 && (q.phase == Redirected <==> p.counter + 1 > MaxChecks)
    ensures q.phase == Polling ==> p.phase == Polling
  {
    if p.phase != Polling || r.NotOk? then p
    else if Conclusive(r) then Poll(p.counter, Done)
    else if p.counter + 1 > MaxChecks then Poll(p.counter + 1, Redirected)
    else Poll(p.counter + 1, Polling)
  }

  /** The state after the callback has run once per reply, in order. */
  function Run(p: Poll, rs: seq<Reply>): Poll
    decreases |rs|
  {
    if rs == [] then p else Step(Run(p, rs[..|rs| - 1]), rs[|rs| - 1])
  }

  /** The number of inconclusive answers among `rs`. */
  function Inconclusives(rs: seq<Reply>): (n: nat)
    ensures n <= |rs|
    decreases |rs|
  {
    if rs == [] then 0
    else Inconclusives(rs[..|rs| - 1]) + (if Inconclusive(rs[|rs| - 1]) then 1 else 0)
  }

  /** What polling can reach: the counter stays within `MaxChecks` until
      the redirect, which happens at `MaxChecks + 1`. */
  predicate Reachable(p: Poll) {
    if p.phase == Redirected then p.counter == MaxChecks + 1 else p.counter <= MaxChecks
  }

  lemma StepKeepsReachable(p: Poll, r: Reply)
    requires Reachable(p)
    ensures Reachable(Step(p, r))
  {
  }

  /** Once polling has stopped, no reply changes anything. */
  lemma {:induction false} StoppedIsFinal(p: Poll, rs: seq<Reply>)
    requires p.phase != Polling
    ensures Run(p, rs) == p
    decreases |rs|
  {
    if rs != [] {
      StoppedIsFinal(p, rs[..|rs| - 1]);
    }
  }

  /** Without a conclusive answer, polling from the start has counted
      every OK answer, and redirects exactly when there were more than
      `MaxChecks` of them: on the ninth. */
  lemma {:induction false} RedirectAfterMaxChecks(rs: seq<Reply>)
    requires forall i :: 0 <= i < |rs| ==> !Conclusive(rs[i])
    ensures Inconclusives(rs) <= MaxChecks ==> Run(Poll(0, Polling), rs) == Poll(Inconclusives(rs), Polling)
    ensures Inconclusives(rs) > MaxChecks ==> Run(Poll(0, Polling), rs) == Poll(MaxChecks + 1, Redirected)
    decreases |rs|
  {
    if rs != [] {
      var init := rs[..|rs| - 1];
      assert forall i :: 0 <= i < |init| ==> init[i] == rs[i];
      RedirectAfterMaxChecks(init);
    }
  }

  /** Polling shows the order only after a conclusive answer. */
  lemma DoneNeedsConclusive(p: Poll, r: Reply)
    requires p.phase == Polling && Step(p, r).phase == Done
    ensures Conclusive(r) && Step(p, r).counter == p.counter
  {
  }

  /** The thank-you page script, with the browser location it may
      replace. */
  class Poller {
    var counter: nat
    var phase: Phase
    var location: string
    const paymentUrl: string

    function State(): Poll
      reads this
    {
      Poll(counter, phase)
    }

    constructor (pageUrl: string, paymentUrl: string)
      ensures State() == Poll(0, Polling) && location == pageUrl && this.paymentUrl == paymentUrl
    {
      counter := 0;
      phase := Polling;
      location := pageUrl;
      this.paymentUrl := paymentUrl;
    }

    /** One interval callback, once its request has answered `r`. */
    method Tick(r: Reply)
      modifies this
      ensures State() == Step(old(State()), r)
      ensures location == (if State().phase == Redirected && old(phase) == Polling then paymentUrl else old(location))
    {
      if phase != Polling {
        return;
      }
      if r.NotOk? {
        return;
      }
      if r.data == "succeeded" || r.data == "processing" {
        phase := Done;
        return;
      }
      counter := counter + 1;
      if counter > MaxChecks {
        phase := Redirected;
        location := paymentUrl;
      }
    }
  }
}
