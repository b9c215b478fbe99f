/** The hub of one worker and its subscribers' queues, proved against the values of `Mailboxes`. */
module Hub {
  import opened Model
  import opened Mailboxes

  class Subscriber {
    const id: nat
    const capacity: nat
    const aggregate: Option<ItemId>
    var cursor: nat
    var queue: seq<Entry>
    var overflowed: bool

    ghost function State(): Mailbox
      reads this
    {
      Mailbox(capacity, aggregate, cursor, queue, overflowed)
    }

    constructor (id: nat, capacity: nat, aggregate: Option<ItemId>, cursor: nat)
      ensures this.id == id && State() == Mailbox(capacity, aggregate, cursor, [], false)
    {
      this.id, this.capacity, this.aggregate, this.cursor := id, capacity, aggregate, cursor;
      queue, overflowed := [], false;
    }

    /** put_nowait: raises QueueFull on a full bounded queue. */
    method PutNowait(entry: Entry) returns (full: bool)
      modifies this`queue
      ensures full == Full(old(State()))
      ensures queue == if full then old(queue) else old(queue) + [entry]
    {
      full := 0 < capacity <= |queue|;
      if !full {
        queue := queue + [entry];
      }
    }

    method Offer(e: Envelope) returns (taken: bool)
      modifies this`queue, this`overflowed
      ensures State() == Mailboxes.Offer(old(State()), e)
      ensures taken <==> !old(overflowed) && (capacity == 0 || |old(queue)| < capacity)
      ensures queue == (if taken then old(queue) + [Carry(e)] else old(queue)) && overflowed == !taken
    {
      if overflowed {
        return false;
      }
      var full := PutNowait(Carry(e));
      if full {
        overflowed := true;
        return false;
      }
      return true;
    }

    /** The sentinel goes behind whatever is queued; a full queue overflows instead. */
    method Interrupt()
      modifies this`queue, this`overflowed
      ensures State() == Mailboxes.Interrupt(old(State()))
      ensures capacity == 0 || |old(queue)| < capacity ==> queue == old(queue) + [Stop] && overflowed == old(overflowed)
      ensures 0 < capacity <= |old(queue)| ==> queue == old(queue) && overflowed
    {
      var full := PutNowait(Stop);
      if full {
        overflowed := true;
      }
    }

    /** The head of the queue, or nothing when the heartbeat timeout passes first. */
    method NextEvent() returns (entry: Option<Entry>)
      modifies this`queue
      ensures State() == Play(old(State()), Taken)
      ensures entry == if old(queue) == [] then None else Some(old(queue)[0])
      ensures queue == if old(queue) == [] then [] else old(queue)[1..]
    {
      if queue == [] {
        return None;
      }
      entry := Some(queue[0]);
      queue := queue[1..];
    }
  }

  class StreamHub {
    const queueSize: nat
    var subscribers: map<nat, Subscriber>
    var shuttingDown: bool

    /** Registered under its own id, so no subscriber is registered twice. */
    ghost predicate Valid()
      reads this, subscribers.Values
    {
      forall i :: i in subscribers ==> subscribers[i].id == i
    }

    constructor (queueSize: nat)
      ensures Valid() && this.queueSize == queueSize && subscribers == map[] && !shuttingDown
    {
      this.queueSize, subscribers, shuttingDown := queueSize, map[], false;
    }

    /** `id` is the fresh UUID the subscriber draws. A hub that is shutting down still accepts. */
    method Subscribe(id: nat, aggregate: Option<ItemId>, cursor: nat) returns (s: Subscriber)
      requires Valid() && id !in subscribers
      modifies this`subscribers
      ensures Valid() && fresh(s) && s.State() == Mailbox(queueSize, aggregate, cursor, [], false)
      ensures subscribers == old(subscribers)[id := s]
    {
      s := new Subscriber(id, queueSize, aggregate, cursor);
      subscribers := subscribers[id := s];
    }

    /** Unsubscribing twice, or a subscriber this hub never had, changes nothing. */
    method Unsubscribe(s: Subscriber)
      requires Valid()
      modifies this`subscribers
      ensures Valid() && subscribers == old(subscribers) - {s.id}
    {
      subscribers := subscribers - {s.id};
    }

    /** One subscriber's share of a batch: the loop stops at the first envelope that does not fit. */
    method PublishTo(s: Subscriber, envelopes: seq<Envelope>)
      modifies s
      ensures s.State() == Deliver(old(s.State()), envelopes)
    {
      ghost var before := s.State();
      for n := 0 to |envelopes|
        invariant s.State() == Deliver(before, envelopes[..n])
      {
        assert envelopes[..n + 1][..n] == envelopes[..n];
        if !Wants(s.aggregate, envelopes[n]) {
          continue;
        }
        var taken := s.Offer(envelopes[n]);
        if !taken {
          OverflowIsFinal(before, envelopes, n + 1);
          return;
        }
        s.cursor := envelopes[n].pos;
      }
      assert envelopes[..|envelopes|] == envelopes;
    }

    /** Every subscriber gets the whole batch or overflows; a slow one costs the others nothing. */
    method Publish(envelopes: seq<Envelope>)
      requires Valid()
      modifies subscribers.Values
      ensures Valid()
      ensures forall i :: i in subscribers ==> subscribers[i].State() == Deliver(old(subscribers[i].State()), envelopes)
    {
      if envelopes == [] {
        return;
      }
      var todo := subscribers.Keys;
      while todo != {}
        invariant todo <= subscribers.Keys
        invariant forall i :: i in todo ==> subscribers[i].State() == old(subscribers[i].State())
        invariant forall i :: i in subscribers && i !in todo ==>
          subscribers[i].State() == Deliver(old(subscribers[i].State()), envelopes)
      {
        var i :| i in todo;
        PublishTo(subscribers[i], envelopes);
        todo := todo - {i};
      }
    }

    method Shutdown()
      requires Valid()
      modifies this`shuttingDown, subscribers.Values
      ensures Valid() && shuttingDown
      ensures forall i :: i in subscribers ==>
        subscribers[i].State() == Mailboxes.Interrupt(old(subscribers[i].State()))
      ensures forall i :: i in subscribers ==>
        var s := subscribers[i];
        if s.capacity == 0 || |old(s.queue)| < s.capacity
        then s.queue == old(s.queue) + [Stop] && s.overflowed == old(s.overflowed)
        else s.queue == old(s.queue) && s.overflowed
    {
      shuttingDown := true;
      var todo := subscribers.Keys;
      while todo != {}
        invariant shuttingDown && todo <= subscribers.Keys
        invariant forall i :: i in todo ==> subscribers[i].State() == old(subscribers[i].State())
        invariant forall i :: i in subscribers && i !in todo ==>
          subscribers[i].State() == Mailboxes.Interrupt(old(subscribers[i].State()))
      {
        var i :| i in todo;
        subscribers[i].Interrupt();
        todo := todo - {i};
      }
    }
  }
}
