/**
 The broadcast hub: live subscribers with bounded buffers, a full one dropped rather than waited for. The
 steps under the mutex are atomic, so an interleaving of goroutines is a sequence of `Op`s.

 `HubState` is the abstract state; class `Hub` refines it channel by channel. The theorems about streams
 hold after every sequence of steps from an empty hub.
 */
module Broadcast {

  // ---------------------------------------------------------------- the abstract hub

  /** One subscriber's channel: where its stream starts, what it took out, what it still holds. */
  datatype Stream<E> = Stream(start: nat, received: seq<E>, buffer: seq<E>, cap: nat, open: bool)

  /** `streams` has every subscriber there ever was; `log` is everything ever emitted. */
  datatype HubState<E> = HubState(streams: map<nat, Stream<E>>, next: nat, log: seq<E>)

  datatype Op<E> = Subscribe(buffer: nat) | Cancel(id: nat) | Emit(ev: E) | Receive(id: nat)

  /** Delivery without blocking: into the buffer, or dropped and closed when it is full. */
  function Deliver<E>(s: Stream<E>, ev: E): Stream<E> {
    if !s.open then s
    else if |s.buffer| < s.cap then s.(buffer := s.buffer + [ev])
    else s.(open := false)
  }

  function Take<E>(s: Stream<E>): Stream<E> {
    if s.buffer == [] then s else s.(received := s.received + [s.buffer[0]], buffer := s.buffer[1..])
  }

  function Next<E>(h: HubState<E>, op: Op<E>): HubState<E> {
    match op
    case Subscribe(buffer) =>
      h.(streams := h.streams[h.next := Stream(|h.log|, [], [], buffer, true)], next := h.next + 1)
    case Cancel(id) =>
      if id in h.streams then h.(streams := h.streams[id := h.streams[id].(open := false)]) else h
    case Emit(ev) =>
      h.(streams := map id | id in h.streams :: Deliver(h.streams[id], ev), log := h.log + [ev])
    case Receive(id) =>
      if id in h.streams then h.(streams := h.streams[id := Take(h.streams[id])]) else h
  }

  ghost function Play<E>(ops: seq<Op<E>>): HubState<E> {
    if ops == [] then HubState(map[], 0, []) else Next(Play(ops[..|ops| - 1]), ops[|ops| - 1])
  }

  // ---------------------------------------------------------------- streams over every interleaving

  function Seen<E>(s: Stream<E>): seq<E> { s.received + s.buffer }

  /** A gap-free in-order run of the log from the subscription on, complete while the channel is open. */
  ghost predicate InOrder<E>(log: seq<E>, s: Stream<E>) {
    && s.start + |Seen(s)| <= |log|
    && Seen(s) == log[s.start..s.start + |Seen(s)|]
    && (s.open ==> s.start + |Seen(s)| == |log|)
    && |s.buffer| <= s.cap
  }

  ghost predicate Sound<E>(h: HubState<E>) {
    && (forall id :: id in h.streams ==> id < h.next && InOrder(h.log, h.streams[id]))
  }

  /**
   An open channel with room gets the event behind what it holds and stays open; a full one is closed and keeps what
   it holds; a closed one is not touched.
   */
  ghost predicate Offered<E>(s: Stream<E>, s': Stream<E>, ev: E) {
    && s'.start == s.start && s'.cap == s.cap && s'.received == s.received
    && (s.open && |s.buffer| < s.cap ==> s'.open && s'.buffer == s.buffer + [ev])
    && (s.open && |s.buffer| >= s.cap ==> !s'.open && s'.buffer == s.buffer)
    && (!s.open ==> !s'.open && s'.buffer == s.buffer)
  }

  /** What each step does to one subscriber's channel, and that it does nothing to the others'. */
  lemma StepMeans<E>(h: HubState<E>, op: Op<E>, id: nat)
    requires Sound(h)
    ensures var h' := Next(h, op);
            && (op.Subscribe? ==>
                 && h.next !in h.streams && h'.next == h.next + 1
                 && h.next in h'.streams && h'.streams[h.next] == Stream(|h.log|, [], [], op.buffer, true)
                 && h'.streams.Keys == h.streams.Keys + {h.next})
            && (!op.Subscribe? ==> h'.streams.Keys == h.streams.Keys && h'.next == h.next)
            && h'.log == (if op.Emit? then h.log + [op.ev] else h.log)
            && (id in h.streams ==>
                 && (op.Subscribe? ==> h'.streams[id] == h.streams[id])
                 && (op.Emit? ==> Offered(h.streams[id], h'.streams[id], op.ev))
                 && (op.Cancel? ==> h'.streams[id] == if id == op.id then h.streams[id].(open := false) else h.streams[id])
                 && (op.Receive? && (id != op.id || h.streams[id].buffer == []) ==> h'.streams[id] == h.streams[id])
                 && (op.Receive? && id == op.id && h.streams[id].buffer != [] ==>
                      && h'.streams[id].received == h.streams[id].received + [h.streams[id].buffer[0]]
                      && [h.streams[id].buffer[0]] + h'.streams[id].buffer == h.streams[id].buffer
                      && h'.streams[id].open == h.streams[id].open))
  {
  }

  lemma DeliverInOrder<E>(log: seq<E>, s: Stream<E>, ev: E)
    requires InOrder(log, s)
    ensures InOrder(log + [ev], Deliver(s, ev))
  {
    var n := s.start + |Seen(s)|;
    assert (log + [ev])[s.start..n] == log[s.start..n];
    if s.open && |s.buffer| < s.cap {
      assert Seen(Deliver(s, ev)) == Seen(s) + [ev];
      assert (log + [ev])[s.start..n + 1] == log[s.start..n] + [ev];
    }
  }

  lemma TakeInOrder<E>(log: seq<E>, s: Stream<E>)
    requires InOrder(log, s)
    ensures InOrder(log, Take(s)) && Seen(Take(s)) == Seen(s)
  {
  }

  lemma NextSound<E>(h: HubState<E>, op: Op<E>)
    requires Sound(h)
    ensures Sound(Next(h, op))
  {
    match op
    case Subscribe(buffer) =>
    case Cancel(id) =>
    case Emit(ev) =>
      forall id | id in h.streams ensures InOrder(h.log + [ev], Deliver(h.streams[id], ev)) {
        DeliverInOrder(h.log, h.streams[id], ev);
      }
    case Receive(id) =>
      if id in h.streams { TakeInOrder(h.log, h.streams[id]); }
  }

  /** After every interleaving each subscriber has seen an unbroken run of the log since it subscribed. */
  lemma {:induction false} StreamsSound<E>(ops: seq<Op<E>>)
    ensures Sound(Play(ops))
  {
    if ops == [] {
    } else {
      StreamsSound(ops[..|ops| - 1]);
      NextSound(Play(ops[..|ops| - 1]), ops[|ops| - 1]);
    }
  }

  /** One stream before and after: it only grows, never changes what it showed, and never reopens. */
  ghost predicate Continues<E>(a: Stream<E>, b: Stream<E>) {
    && a.start == b.start && a.cap == b.cap
    && a.received <= b.received && Seen(a) <= Seen(b)
    && (b.open ==> a.open)
    && (!a.open ==> Seen(b) == Seen(a))
  }

  lemma NextContinues<E>(h: HubState<E>, op: Op<E>, id: nat)
    requires Sound(h) && id in h.streams
    ensures id in Next(h, op).streams && Continues(h.streams[id], Next(h, op).streams[id])
  {
    if op.Receive? && op.id == id { TakeInOrder(h.log, h.streams[id]); }
    if op.Emit? {
      var s := h.streams[id];
      if s.open && |s.buffer| < s.cap { assert Seen(Deliver(s, op.ev)) == Seen(s) + [op.ev]; }
    }
  }

  lemma ContinuesTrans<E>(a: Stream<E>, b: Stream<E>, c: Stream<E>)
    requires Continues(a, b) && Continues(b, c)
    ensures Continues(a, c)
  {
  }

  /** Whatever runs on, a channel closes at most once and nothing is sent to it after that. */
  lemma {:induction false} StreamsContinue<E>(ops: seq<Op<E>>, k: nat, id: nat)
    requires k <= |ops| && id in Play(ops[..k]).streams
    ensures id in Play(ops).streams && Continues(Play(ops[..k]).streams[id], Play(ops).streams[id])
    decreases |ops|
  {
    if k == |ops| {
      assert ops[..k] == ops;
    } else {
      var init := ops[..|ops| - 1];
      assert init[..k] == ops[..k];
      StreamsContinue(init, k, id);
      StreamsSound(init);
      NextContinues(Play(init), ops[|ops| - 1], id);
      ContinuesTrans(Play(ops[..k]).streams[id], Play(init).streams[id], Play(ops).streams[id]);
    }
  }

  // ---------------------------------------------------------------- the hub object

  class Channel<E> {
    const id: nat
    const cap: nat
    var buffer: seq<E>
    var closed: bool
    ghost const start: nat
    ghost var received: seq<E>

    constructor (id: nat, cap: nat, ghost start: nat)
      ensures this.id == id && View() == Stream(start, [], [], cap, true)
    {
      this.id, this.cap, this.start := id, cap, start;
      buffer, closed, received := [], false, [];
    }

    ghost function View(): Stream<E>
      reads this
    {
      Stream(start, received, buffer, cap, !closed)
    }

    /** A non-blocking send. */
    method TrySend(ev: E) returns (sent: bool)
      requires !closed
      modifies this
      ensures sent <==> |old(buffer)| < cap
      ensures View() == if sent then old(View()).(buffer := old(buffer) + [ev]) else old(View())
    {
      sent := |buffer| < cap;
      if sent { buffer := buffer + [ev]; }
    }

    /** Closing a closed channel panics in Go: callers must not. */
    method Close()
      requires !closed
      modifies this
      ensures View() == old(View()).(open := false)
    {
      closed := true;
    }

    /** Into the buffer without blocking; a full channel is closed instead. */
    method SendOrClose(ev: E) returns (kept: bool)
      requires !closed
      modifies this
      ensures View() == Deliver(old(View()), ev) && kept == !closed
    {
      kept := TrySend(ev);
      if !kept { Close(); }
    }

    /** The consumer's receive: an event if one is buffered; otherwise whether the channel is closed. */
    method Receive() returns (ev: seq<E>, ended: bool)
      modifies this
      ensures View() == Take(old(View()))
      ensures ev == (if old(buffer) == [] then [] else [old(buffer)[0]])
      ensures ended <==> old(buffer) == [] && closed
    {
      if |buffer| == 0 { return [], closed; }
      ev, ended := [buffer[0]], false;
      received := received + [buffer[0]];
      buffer := buffer[1..];
    }
  }

  class Hub<E> {
    var subs: map<nat, Channel<E>>
    var next: nat
    ghost var channels: map<nat, Channel<E>>
    ghost var log: seq<E>

    ghost predicate Valid()
      reads this, channels.Values
    {
      && (forall id :: id in channels ==> channels[id].id == id < next)
      && (forall id :: id in subs <==> id in channels && !channels[id].closed)
      && (forall id :: id in subs ==> subs[id] == channels[id])
    }

    ghost function View(): HubState<E>
      reads this, channels.Values
    {
      HubState(map id | id in channels :: channels[id].View(), next, log)
    }

    constructor ()
      ensures Valid() && View() == HubState(map[], 0, [])
    {
      subs, next, channels, log := map[], 0, map[], [];
    }

    method Subscribe(buffer: nat) returns (ch: Channel<E>, id: nat)
      requires Valid()
      modifies this
      ensures Valid() && fresh(ch) && id == old(next)
      ensures channels == old(channels)[id := ch]
      ensures View() == Next(old(View()), Op.Subscribe(buffer))
    {
      id := next;
      ch := new Channel(id, buffer, |log|);
      next := next + 1;
      subs := subs[id := ch];
      channels := channels[id := ch];
    }

    /** Idempotent, and safe after the hub dropped the subscriber. */
    method Cancel(id: nat)
      requires Valid()
      modifies this`subs, channels.Values
      ensures Valid() && View() == Next(old(View()), Op.Cancel(id))
    {
      if id in subs {
        var ch := subs[id];
        subs := subs - {id};
        ch.Close();
        assert forall k :: k in channels && k != id ==> channels[k] != ch;
      }
      assert View().streams == Next(old(View()), Op.Cancel(id)).streams;
    }

    /** Delivers to every subscriber in map order, dropping the full ones. Never blocks. */
    method Emit(ev: E)
      requires Valid()
      modifies this`subs, this`log, channels.Values
      ensures Valid() && View() == Next(old(View()), Op.Emit(ev))
      ensures forall id :: id in old(View()).streams ==> Offered(old(View()).streams[id], View().streams[id], ev)
    {
      OfferMeans(ev);
      OfferAll(ev);
      log := log + [ev];
    }

    lemma OfferMeans(ev: E)
      ensures forall id :: id in View().streams ==> Offered(View().streams[id], Deliver(View().streams[id], ev), ev)
    {
    }

    method OfferAll(ev: E)
      requires Valid()
      modifies this`subs, channels.Values
      ensures Valid()
      ensures View() == old(View()).(streams := map id | id in old(View()).streams :: Deliver(old(View()).streams[id], ev))
    {
      hide Deliver, Valid, View;
      ghost var v0 := View();
      var pending := subs.Keys;
      ClosedStay(ev);
      SubscribedOpen();
      while pending != {}
        invariant pending <= subs.Keys && pending <= channels.Keys && Valid()
        invariant View() == v0.(streams := View().streams) && View().streams.Keys == v0.streams.Keys
        invariant forall id :: id in v0.streams ==>
          View().streams[id] == if id in pending then v0.streams[id] else Deliver(v0.streams[id], ev)
        decreases pending
      {
        var id :| id in pending;
        pending := pending - {id};
        Offer(id, ev);
      }
    }

    /** A dropped or canceled channel is not touched by a delivery. */
    lemma ClosedStay(ev: E)
      requires Valid()
      ensures forall id :: id in View().streams && id !in subs ==> Deliver(View().streams[id], ev) == View().streams[id]
    {
    }

    lemma SubscribedOpen()
      requires Valid()
      ensures subs.Keys <= channels.Keys
    {
    }

    method Offer(id: nat, ev: E)
      requires Valid() && id in subs && id in channels
      modifies this`subs, channels[id]
      ensures Valid() && (forall k :: k in old(subs) && k != id ==> k in subs)
      ensures id in old(View()).streams && View() == old(View()).(streams := old(View()).streams[id := Deliver(old(View()).streams[id], ev)])
    {
      var ch := subs[id];
      assert forall k :: k in channels && k != id ==> channels[k] != ch;
      var kept := ch.SendOrClose(ev);
      if !kept { subs := subs - {id}; }
      assert View().streams == old(View()).streams[id := Deliver(old(View()).streams[id], ev)];
    }
  }
}
