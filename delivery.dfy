/**
 * The delivery queue and its transport contract, shared by the browser and
 * the Node SDK objects.
 *
 * `_enqueue` appends at the tail and flushes once the length reaches
 * `batchSize`; `flush` splices up to `batchSize` events off the head and
 * hands them to the transport; `_sendOne` hands one event over without
 * touching the queue. The transport answers later: on success the events are
 * gone, on failure they are put back at the head with `unshift`, in their
 * original order. An accepted beacon counts as delivered at once.
 *
 * The ghost multisets account for every event: pending in `queue`, handed to
 * the transport and not yet answered (`inFlight`), or `delivered`. Their sum
 * is everything ever `accepted`, so the books never lose or double-count an
 * event. The transport's answer is the outcome of the whole promise chain,
 * reading the reply's JSON included: a reply that fails to parse counts as a
 * failure, and its events are queued again.
 */
module Delivery {
  import opened JsValues
  import opened Events

  /** What one flush or send handed to the transport. */
  datatype Dispatch = Idle | Beaconed(events: seq<Event>) | Posted(events: seq<Event>)

  /** `navigator.sendBeacon` when a flush asks for it: missing, accepted, or refused (false or a throw). */
  datatype Beacon = NoBeacon | Accepted | Refused

  /** `queue.splice(0, n)`: the batch taken off the head. */
  function Batch(q: seq<Event>, n: nat): seq<Event> {
    q[..Min(n, |q|)]
  }

  /** What `queue.splice(0, n)` leaves behind. */
  function Remainder(q: seq<Event>, n: nat): seq<Event> {
    q[Min(n, |q|)..]
  }

  /**
   * The batch is exactly the first `min(n, |q|)` events, in order; together
   * with the remainder it is the whole queue.
   */
  lemma BatchSplitsQueue(q: seq<Event>, n: nat)
    ensures |Batch(q, n)| == Min(n, |q|)
    ensures Batch(q, n) + Remainder(q, n) == q
    ensures multiset(Batch(q, n)) + multiset(Remainder(q, n)) == multiset(q)
    ensures n >= 1 && q != [] ==> Batch(q, n) != [] && Batch(q, n)[0] == q[0]
  {
    assert Batch(q, n) + Remainder(q, n) == q;
  }

  /**
   * A batch that fails after `later` events were appended comes back in
   * front of them: the queue reads as if the flush had never happened.
   */
  lemma FailedBatchRestoresOrder(q: seq<Event>, n: nat, later: seq<Event>)
    ensures Batch(q, n) + (Remainder(q, n) + later) == q + later
  {
    BatchSplitsQueue(q, n);
  }

  /** The queue after `_enqueue(ev)`, including the flush it may trigger. */
  function QueueAfterEnqueue(q: seq<Event>, ev: Event, n: nat): seq<Event> {
    if |q| + 1 >= n then Remainder(q + [ev], n) else q + [ev]
  }

  /** What `_enqueue(ev)` hands to the transport: a batch exactly when the length reaches `n`. */
  function EnqueueDispatch(q: seq<Event>, ev: Event, n: nat): Dispatch {
    if |q| + 1 >= n then Posted(Batch(q + [ev], n)) else Idle
  }

  /** How a tracking call handed its event over: sent on its own, or queued (with the flush it set off). */
  datatype Sent = Direct(ev: Event) | Queued(ev: Event, flush: Dispatch)

  /** The queue and the three ledgers at one moment. */
  datatype Books = Books(queue: seq<Event>, inFlight: multiset<Event>, delivered: multiset<Event>, accepted: multiset<Event>)

  /**
   * Handing `s` over moved the books from `b0` to `b1`: a direct send leaves
   * the queue alone and puts the event in flight; a queued event is appended
   * and, once the length reaches `n`, the batch at the head goes in flight.
   */
  predicate Handed(s: Sent, n: nat, b0: Books, b1: Books) {
    && b1.accepted == b0.accepted + multiset{s.ev}
    && b1.delivered == b0.delivered
    && match s
       case Direct(ev) =>
         b1.queue == b0.queue && b1.inFlight == b0.inFlight + multiset{ev}
       case Queued(ev, d) =>
         && b1.queue == QueueAfterEnqueue(b0.queue, ev, n)
         && d == EnqueueDispatch(b0.queue, ev, n)
         && b1.inFlight == b0.inFlight + (if d.Posted? then multiset(d.events) else multiset{})
  }

  /**
   * A `flush()` on the `fetch` path moved the books from `b0` to `b1`:
   * nothing on an empty queue; otherwise the batch at the head went in flight.
   */
  predicate FlushedBy(d: Dispatch, n: nat, b0: Books, b1: Books) {
    && b1.accepted == b0.accepted && b1.delivered == b0.delivered
    && (b0.queue == [] ==> d == Idle && b1 == b0)
    && (b0.queue != [] ==>
          && d == Posted(Batch(b0.queue, n)) && b1.queue == Remainder(b0.queue, n)
          && b1.inFlight == b0.inFlight + multiset(d.events))
  }

  class Outbox {
    var queue: seq<Event>
    ghost var inFlight: multiset<Event>
    ghost var delivered: multiset<Event>
    ghost var accepted: multiset<Event>

    /** No loss, no duplication: every accepted event is in exactly one place. */
    ghost predicate Valid()
      reads this
    {
      multiset(queue) + inFlight + delivered == accepted
    }

    ghost function Ledger(): Books
      reads this
    {
      Books(queue, inFlight, delivered, accepted)
    }

    constructor ()
      ensures Valid()
      ensures queue == [] && inFlight == multiset{} && delivered == multiset{} && accepted == multiset{}
    {
      queue := [];
      inFlight, delivered, accepted := multiset{}, multiset{}, multiset{};
    }

    /**
     * `flush(options)` and the synchronous part of `_sendBatch`: nothing on
     * an empty queue; otherwise the first `min(batchSize, |queue|)` events
     * leave the queue as one batch, delivered at once when a requested beacon
     * accepts it, and in flight on the `fetch` path otherwise.
     */
    method Flush(batchSize: nat, useBeacon: bool, beacon: Beacon) returns (d: Dispatch)
      requires Valid() && batchSize >= 1
      modifies this
      ensures Valid() && accepted == old(accepted)
      ensures old(queue) == [] ==> d == Idle && queue == [] && inFlight == old(inFlight) && delivered == old(delivered)
      ensures old(queue) != [] ==> !d.Idle? && d.events == Batch(old(queue), batchSize)
      ensures old(queue) != [] ==> queue == Remainder(old(queue), batchSize)
      ensures d.Beaconed? <==> old(queue) != [] && useBeacon && beacon == Accepted
      ensures d.Beaconed? ==> delivered == old(delivered) + multiset(d.events) && inFlight == old(inFlight)
      ensures d.Posted? ==> inFlight == old(inFlight) + multiset(d.events) && delivered == old(delivered)
    {
      if queue == [] {
        return Idle;
      }
      var batch := Batch(queue, batchSize);
      BatchSplitsQueue(queue, batchSize);
      queue := Remainder(queue, batchSize);
      if useBeacon && beacon == Accepted {
        delivered := delivered + multiset(batch);
        d := Beaconed(batch);
      } else {
        inFlight := inFlight + multiset(batch);
        d := Posted(batch);
      }
    }

    /**
     * `_enqueue(ev)`: append at the tail; when the new length reaches
     * `batchSize`, flush on the `fetch` path straight away.
     */
    method Enqueue(ev: Event, batchSize: nat) returns (d: Dispatch)
      requires Valid() && batchSize >= 1
      modifies this
      ensures Valid() && accepted == old(accepted) + multiset{ev}
      ensures queue == QueueAfterEnqueue(old(queue), ev, batchSize)
      ensures d == EnqueueDispatch(old(queue), ev, batchSize)
      ensures d.Idle? ==> inFlight == old(inFlight)
      ensures d.Posted? ==> inFlight == old(inFlight) + multiset(d.events)
      ensures delivered == old(delivered)
    {
      queue := queue + [ev];
      accepted := accepted + multiset{ev};
      if |queue| >= batchSize {
        d := Flush(batchSize, false, NoBeacon);
      } else {
        d := Idle;
      }
    }

    /** `_sendOne(ev)` up to the network call: the event is in flight, the queue untouched. */
    method SendNow(ev: Event)
      requires Valid()
      modifies this
      ensures Valid() && accepted == old(accepted) + multiset{ev}
      ensures queue == old(queue) && delivered == old(delivered)
      ensures inFlight == old(inFlight) + multiset{ev}
    {
      accepted := accepted + multiset{ev};
      inFlight := inFlight + multiset{ev};
    }

    /**
     * The transport's answer for events handed over earlier: gone on
     * success; on failure back at the head, `unshift(ev)` for one event and
     * `unshift(...events)` for a batch, in their original order.
     */
    method Settle(events: seq<Event>, ok: bool)
      requires Valid() && multiset(events) <= inFlight
      modifies this
      ensures Valid() && accepted == old(accepted)
      ensures inFlight == old(inFlight) - multiset(events)
      ensures ok ==> queue == old(queue) && delivered == old(delivered) + multiset(events)
      ensures !ok ==> queue == events + old(queue) && delivered == old(delivered)
    {
      inFlight := inFlight - multiset(events);
      if ok {
        delivered := delivered + multiset(events);
      } else {
        queue := events + queue;
      }
    }
  }
}
