/** The bounded fan-out of pipeline events to live subscribers (apps/api/api/events.py). */
module Events {
  import opened Wrappers

  type Event = string
  type Tenant = nat

  const CAPACITY := 256

  /** A subscriber's queue with its history: every event published to it, and the positions of
      those that were read. */
  datatype Inbox = Inbox(items: seq<Event>, sent: seq<Event>, got: seq<nat>)

  const NO_EVENTS := Inbox([], [], [])

  datatype Op = Put(event: Event) | Get

  /** How many of the published events are no longer queued. */
  function Gone(b: Inbox): int {
    |b.sent| - |b.items|
  }

  /** put_nowait, after dropping the oldest event of a full queue; get_nowait. */
  function Do(b: Inbox, op: Op): Inbox {
    match op
    case Put(e) => Inbox((if |b.items| == CAPACITY then b.items[1..] else b.items) + [e], b.sent + [e], b.got)
    case Get =>
      if b.items == [] || Gone(b) < 0 then b
      else Inbox(b.items[1..], b.sent, b.got + [Gone(b)])
  }

  function After(ops: seq<Op>): Inbox {
    if ops == [] then NO_EVENTS else Do(After(ops[..|ops| - 1]), ops[|ops| - 1])
  }

  ghost predicate Lost(b: Inbox, i: nat) {
    i < Gone(b) && i !in b.got
  }

  ghost predicate Good(b: Inbox) {
    && |b.items| <= CAPACITY && |b.items| <= |b.sent|
    && b.items == b.sent[Gone(b)..]
    && (forall k :: 0 <= k < |b.got| ==> b.got[k] < Gone(b))
    && (forall k, l :: 0 <= k < l < |b.got| ==> b.got[k] < b.got[l])
    && (forall i: nat :: Lost(b, i) ==> i + CAPACITY < |b.sent|)
  }

  lemma {:induction false} DoKeepsGood(b: Inbox, op: Op)
    requires Good(b)
    ensures Good(Do(b, op))
  {
    var u := Do(b, op);
    match op
    case Put(e) =>
      assert b.sent == b.sent[..Gone(b)] + b.items;
      assert u.items == u.sent[Gone(u)..];
      forall i: nat | Lost(u, i)
        ensures i + CAPACITY < |u.sent|
      {
        if i < Gone(b) { assert Lost(b, i); }
      }
    case Get =>
      if b.items != [] {
        forall i: nat | Lost(u, i)
          ensures i + CAPACITY < |u.sent|
        {
          assert u.got[|b.got|] == Gone(b);
          assert forall k :: 0 <= k < |b.got| ==> u.got[k] == b.got[k];
          assert Lost(b, i);
        }
      }
  }

  lemma {:induction false} NothingIsGood()
    ensures Good(NO_EVENTS)
  {
  }

  /** In every run of publishing and reading: the queue is a suffix of what was published since
      the subscription, of at most 256 events; what was read is an in-order subsequence; and an
      event that was neither read nor is queued has at least 256 newer ones. */
  lemma {:induction false} QueueIsTheLatest(ops: seq<Op>)
    ensures Good(After(ops))
  {
    if ops == [] {
      NothingIsGood();
    } else {
      QueueIsTheLatest(ops[..|ops| - 1]);
      DoKeepsGood(After(ops[..|ops| - 1]), ops[|ops| - 1]);
    }
  }

  /** The publication at step `n` of the run finds event `i` at the head of a full queue. */
  ghost predicate Overrun(ops: seq<Op>, n: nat, i: nat) {
    n < |ops| && ops[n].Put? && Gone(After(ops[..n])) == i && |After(ops[..n]).items| == CAPACITY
  }

  /** An event is lost exactly when it was the oldest of 256 unread ones as another came in. */
  lemma {:induction false} LostExactlyByOverrun(ops: seq<Op>, i: nat)
    ensures Lost(After(ops), i) <==> exists n: nat :: Overrun(ops, n, i)
  {
    if ops != [] {
      var m := |ops| - 1;
      var init := ops[..m];
      var b := After(init);
      QueueIsTheLatest(init);
      LostExactlyByOverrun(init, i);
      assert forall n :: 0 <= n <= m ==> init[..n] == ops[..n];
      assert forall n :: 0 <= n < m ==> (Overrun(ops, n, i) <==> Overrun(init, n, i));
      LostByOne(b, ops[m], i);
      if Lost(After(ops), i) {
        if !Lost(b, i) { assert Overrun(ops, m, i); }
      }
      if n: nat :| Overrun(ops, n, i) {
        if n < m { assert Overrun(init, n, i); }
      }
    }
  }

  lemma {:induction false} LostByOne(b: Inbox, op: Op, i: nat)
    requires Good(b)
    ensures Lost(Do(b, op), i) <==> Lost(b, i) || (op.Put? && |b.items| == CAPACITY && Gone(b) == i)
  {
    var u := Do(b, op);
    if op.Get? && b.items != [] {
      assert u.got[|b.got|] == Gone(b);
      assert forall k :: 0 <= k < |b.got| ==> u.got[k] == b.got[k];
    }
  }

  // ---- the broadcaster --------------------------------------------------------

  lemma {:induction false} OneMore(ops: seq<Op>, op: Op)
    ensures After(ops + [op]) == Do(After(ops), op)
  {
    assert (ops + [op])[..|ops|] == ops;
  }

  class EventQueue {
    var items: seq<Event>
    ghost var ops: seq<Op>       // what was done to it since it was created

    ghost predicate Valid()
      reads this
    {
      items == After(ops).items
    }

    constructor ()
      ensures Valid() && ops == []
    {
      items, ops := [], [];
    }

    method Offer(e: Event)
      requires Valid()
      modifies this
      ensures Valid() && ops == old(ops) + [Put(e)]
    {
      OneMore(ops, Put(e));
      if |items| == CAPACITY { items := items[1..]; }
      items := items + [e];
      ops := ops + [Put(e)];
    }

    /** The reader's side; nothing when the queue is empty. */
    method Take() returns (e: Option<Event>)
      requires Valid()
      modifies this
      ensures Valid() && ops == old(ops) + [Get]
      ensures e == if old(items) == [] then None else Some(old(items)[0])
    {
      OneMore(ops, Get);
      QueueIsTheLatest(ops);
      ops := ops + [Get];
      if items == [] { return None; }
      e := Some(items[0]);
      items := items[1..];
    }
  }

  class EventBroadcaster {
    var subscribers: map<Tenant, set<EventQueue>>
    ghost var repr: set<EventQueue>          // every queue in the map

    ghost function Of(tenant: Tenant): set<EventQueue>
      reads this
    {
      if tenant in subscribers then subscribers[tenant] else {}
    }

    /** Each queue belongs to one tenant, and no tenant is kept without subscribers. */
    ghost predicate Separate()
      reads this
    {
      && (forall t :: t in subscribers ==> subscribers[t] != {})
      && (forall t :: Of(t) <= repr)
      && (forall t, u :: t != u ==> Of(t) !! Of(u))
    }

    ghost predicate Valid()
      reads this, repr
    {
      Separate() && forall q <- repr :: q.Valid()
    }

    constructor ()
      ensures Valid() && subscribers == map[] && repr == {}
    {
      subscribers, repr := map[], {};
    }

    method Subscribe(tenant: Tenant) returns (queue: EventQueue)
      requires Valid()
      modifies this
      ensures Valid() && fresh(queue) && queue.ops == [] && repr == old(repr) + {queue}
      ensures Of(tenant) == old(Of(tenant)) + {queue}
      ensures forall t :: t != tenant ==> Of(t) == old(Of(t))
    {
      queue := new EventQueue();
      var subs := if tenant in subscribers then subscribers[tenant] else {};
      assert subs == Of(tenant) && forall t :: queue !in Of(t);
      assert queue in subs + {queue};
      subscribers := subscribers[tenant := subs + {queue}];
      repr := repr + {queue};
      assert forall t :: Of(t) == if t == tenant then subs + {queue} else old(Of(t));
    }

    method Unsubscribe(tenant: Tenant, queue: EventQueue)
      requires Valid()
      modifies this
      ensures Valid() && repr == old(repr)
      ensures Of(tenant) == old(Of(tenant)) - {queue}
      ensures forall t :: t != tenant ==> Of(t) == old(Of(t))
    {
      if tenant in subscribers {
        var subs := subscribers[tenant] - {queue};
        if subs == {} {
          subscribers := subscribers - {tenant};
        } else {
          subscribers := subscribers[tenant := subs];
        }
      }
      assert forall t :: Of(t) == if t == tenant then old(Of(t)) - {queue} else old(Of(t));
    }

    /** Every queue of the tenant gets the event, and no other queue changes. */
    method Publish(tenant: Tenant, event: Event)
      requires Valid()
      modifies Of(tenant)
      ensures Valid() && subscribers == old(subscribers) && repr == old(repr)
      ensures forall q <- Of(tenant) :: q.ops == old(q.ops) + [Put(event)]
      ensures forall t, q :: t != tenant && q in Of(t) ==> q.ops == old(q.ops) && q.items == old(q.items)
    {
      if tenant !in subscribers { return; }
      OfferAll(subscribers[tenant], event);
      assert subscribers == old(subscribers) && repr == old(repr);
      assert Separate() && forall t :: Of(t) == old(Of(t));
      assert forall q <- repr :: q !in Of(tenant) ==> old(q.Valid()) && q.ops == old(q.ops) && q.items == old(q.items);
    }
  }

  /** The loop over the tenant's queues, in any order. */
  method OfferAll(queues: set<EventQueue>, event: Event)
    requires forall q <- queues :: q.Valid()
    modifies queues
    ensures forall q <- queues :: q.Valid() && q.ops == old(q.ops) + [Put(event)]
  {
    var left := queues;
    while left != {}
      invariant left <= queues
      invariant forall q <- left :: q.ops == old(q.ops) && q.Valid()
      invariant forall q <- queues - left :: q.ops == old(q.ops) + [Put(event)] && q.Valid()
      decreases |left|
    {
      var q :| q in left;
      q.Offer(event);
      left := left - {q};
    }
    assert forall q <- queues :: q in queues - left;
  }
}
