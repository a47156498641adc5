/** The consumer loop: at most `workers` handlers at a time, each delivery settled once by what its handler returns. */
module ParallelConsumer {

  /** What happens on the loop's channels: a delivery comes in, or the handler of delivery `tag` returns. */
  datatype Event = Arrived | Returned(tag: nat, ok: bool)

  /** An Ack or, if the handler failed, a Nack without requeue. */
  datatype Settlement = Settlement(tag: nat, ack: bool)

  predicate SettledOnce(log: seq<Settlement>) {
    forall i, k :: 0 <= i < k < |log| ==> log[i].tag != log[k].tag
  }

  predicate IsSettled(log: seq<Settlement>, tag: nat) {
    exists i :: 0 <= i < |log| && log[i].tag == tag
  }

  // ---- the loop as a function of what happens on its channels ----

  /** Deliveries are numbered as they are taken; the last one may wait for a slot. */
  datatype Loop = Loop(received: nat, waiting: bool, running: set<nat>)

  /** No delivery is taken while one waits for a slot, and only running handlers return. */
  function Next(slots: nat, l: Loop, e: Event): Loop {
    match e
    case Arrived =>
      if l.waiting then l
      else if |l.running| < slots then Loop(l.received + 1, false, l.running + {l.received})
      else Loop(l.received + 1, true, l.running)
    case Returned(tag, _) =>
      if tag !in l.running then l
      else if l.waiting && l.received > 0 then Loop(l.received, false, l.running - {tag} + {l.received - 1})
      else Loop(l.received, false, l.running - {tag})
  }

  function After(slots: nat, events: seq<Event>): Loop {
    if events == [] then Loop(0, false, {}) else Next(slots, After(slots, events[..|events| - 1]), events[|events| - 1])
  }

  /** The `n`-th event is the return of the handler of `tag`, which runs at that time. */
  ghost predicate ReturnsAt(slots: nat, events: seq<Event>, n: nat, tag: nat) {
    n < |events| && events[n].Returned? && events[n].tag == tag && tag in After(slots, events[..n]).running
  }

  /** The settlement is what the handler returned: during the loop, else while the loop waits for it at the end. */
  ghost predicate Told(slots: nat, events: seq<Event>, atEnd: nat -> bool, x: Settlement) {
    && (forall n: nat :: ReturnsAt(slots, events, n, x.tag) ==> x.ack == events[n].ok)
    && ((forall n: nat :: !ReturnsAt(slots, events, n, x.tag)) ==> x.ack == atEnd(x.tag))
  }

  /** How many of the events are deliveries that come in while none waits for a slot. */
  function Arrivals(slots: nat, events: seq<Event>): nat {
    if events == [] then 0
    else
      var (init, e) := (events[..|events| - 1], events[|events| - 1]);
      Arrivals(slots, init) + if e.Arrived? && !After(slots, init).waiting then 1 else 0
  }

  /** Handlers run for deliveries that were taken, in no more than the slots; one waits only while all are in use. */
  ghost predicate WithinSlots(slots: nat, l: Loop) {
    && (forall tag :: tag in l.running ==> tag < l.received) && |l.running| <= slots
    && (l.waiting ==> |l.running| == slots && l.received > 0 && l.received - 1 !in l.running)
  }

  lemma NextStaysWithinSlots(slots: nat, l: Loop, e: Event)
    requires WithinSlots(slots, l)
    ensures WithinSlots(slots, Next(slots, l, e))
    ensures Next(slots, l, e).received == l.received + if e.Arrived? && !l.waiting then 1 else 0
  {
    if e.Returned? && e.tag in l.running && l.waiting {
      assert |l.running - {e.tag} + {l.received - 1}| == |l.running|;
    }
  }

  /** No delivery that comes in while none waits is missed. */
  lemma {:induction false} ArrivalsAreTaken(slots: nat, events: seq<Event>)
    ensures WithinSlots(slots, After(slots, events)) && After(slots, events).received == Arrivals(slots, events)
  {
    if events != [] {
      ArrivalsAreTaken(slots, events[..|events| - 1]);
      NextStaysWithinSlots(slots, After(slots, events[..|events| - 1]), events[|events| - 1]);
    }
  }

  lemma AfterOneMore(slots: nat, events: seq<Event>, n: nat)
    requires n < |events|
    ensures After(slots, events[..n + 1]) == Next(slots, After(slots, events[..n]), events[n])
  {
    assert events[..n + 1][..n] == events[..n];
  }

  // ---- where the deliveries are ----

  /** Where a delivery taken from the channel is: waiting for a slot, in its handler, or settled. */
  ghost predicate Accounted(received: nat, waiting: bool, running: set<nat>, log: seq<Settlement>) {
    && (waiting ==> received > 0)
    && forall tag: nat ::
         && (tag in running <==> tag < received && !(waiting && tag == received - 1) && !IsSettled(log, tag))
         && (IsSettled(log, tag) ==> tag < received && !(waiting && tag == received - 1))
  }

  lemma SettleOne(received: nat, waiting: bool, running: set<nat>, log: seq<Settlement>, tag: nat, ack: bool)
    requires Accounted(received, waiting, running, log) && SettledOnce(log) && tag in running
    ensures var log' := log + [Settlement(tag, ack)];
            && SettledOnce(log') && Accounted(received, waiting, running - {tag}, log')
            && (waiting ==> Accounted(received, false, running - {tag} + {received - 1}, log'))
  {
    var log' := log + [Settlement(tag, ack)];
    assert !IsSettled(log, tag);
    assert forall i :: 0 <= i < |log| ==> IsSettled(log, log[i].tag);
    forall t: nat ensures IsSettled(log', t) <==> IsSettled(log, t) || t == tag {
      if IsSettled(log, t) {
        var i :| 0 <= i < |log| && log[i].tag == t;
        assert log'[i].tag == t;
      }
      assert log'[|log|].tag == tag;
    }
  }

  lemma SlotIsFreed(running: set<nat>, tag: nat)
    requires tag in running
    ensures |running - {tag}| == |running| - 1
    ensures forall next: nat :: next !in running ==> |running - {tag} + {next}| == |running|
  {
  }

  lemma ReceiveOne(received: nat, running: set<nat>, log: seq<Settlement>)
    requires Accounted(received, false, running, log)
    ensures Accounted(received + 1, false, running + {received}, log) && Accounted(received + 1, true, running, log)
    ensures received !in running
  {
  }

  /** Of the first `n` events, each return of a running handler is in the log, and nothing else is. */
  ghost predicate LogsReturns(slots: nat, events: seq<Event>, n: nat, log: seq<Settlement>) {
    && (forall m: nat, tag :: m < n && ReturnsAt(slots, events, m, tag) ==> Settlement(tag, events[m].ok) in log)
    && (forall x :: x in log ==> exists m: nat :: m < n && ReturnsAt(slots, events, m, x.tag) && events[m].ok == x.ack)
  }

  lemma LogsOneReturn(slots: nat, events: seq<Event>, n: nat, log: seq<Settlement>)
    requires LogsReturns(slots, events, n, log) && n < |events| && events[n].Returned?
    requires events[n].tag in After(slots, events[..n]).running
    ensures LogsReturns(slots, events, n + 1, log + [Settlement(events[n].tag, events[n].ok)])
  {
    assert ReturnsAt(slots, events, n, events[n].tag);
  }

  lemma LogsNothing(slots: nat, events: seq<Event>, n: nat, log: seq<Settlement>)
    requires LogsReturns(slots, events, n, log) && n < |events|
    requires events[n].Arrived? || events[n].tag !in After(slots, events[..n]).running
    ensures LogsReturns(slots, events, n + 1, log)
  {
    assert forall tag :: !ReturnsAt(slots, events, n, tag);
  }

  /** What was settled in the loop was told by the handler, and what was not has not returned. */
  lemma LogIsTold(slots: nat, events: seq<Event>, atEnd: nat -> bool, log: seq<Settlement>)
    requires LogsReturns(slots, events, |events|, log) && SettledOnce(log)
    ensures forall x :: x in log ==> Told(slots, events, atEnd, x)
    ensures forall tag: nat :: !IsSettled(log, tag) ==> Told(slots, events, atEnd, Settlement(tag, atEnd(tag)))
  {
    forall x | x in log ensures Told(slots, events, atEnd, x) {
      forall n: nat | ReturnsAt(slots, events, n, x.tag) ensures x.ack == events[n].ok {
        var y := Settlement(x.tag, events[n].ok);
        assert y in log;
        var i :| 0 <= i < |log| && log[i] == x;
        var k :| 0 <= k < |log| && log[k] == y;
        assert i == k;
      }
    }
    forall tag: nat | !IsSettled(log, tag) ensures Told(slots, events, atEnd, Settlement(tag, atEnd(tag))) {
      assert forall x :: x in log ==> x.tag != tag;
      assert forall n: nat :: ReturnsAt(slots, events, n, tag) ==> Settlement(tag, events[n].ok) in log;
    }
  }

  /** What ran before and after each of the first `n` events. */
  ghost predicate Recorded(slots: nat, events: seq<Event>, n: nat, history: seq<set<nat>>) {
    && n <= |events| && |history| == n + 1
    && forall k :: 0 <= k <= n ==> history[k] == After(slots, events[..k]).running && |history[k]| <= slots
  }

  lemma RecordOneMore(slots: nat, events: seq<Event>, n: nat, history: seq<set<nat>>, running: set<nat>)
    requires Recorded(slots, events, n, history) && n < |events|
    requires running == After(slots, events[..n + 1]).running && |running| <= slots
    ensures Recorded(slots, events, n + 1, history + [running])
  {
  }

  /** The state the loop shares with its handlers. */
  class Session {
    const slots: nat
    var received: nat
    var waiting: bool
    var running: set<nat>
    var log: seq<Settlement>

    constructor (workers: int)
      ensures Valid() && slots == (if workers <= 0 then 1 else workers) && Now() == Loop(0, false, {}) && log == []
    {
      slots := if workers <= 0 then 1 else workers;
      received, waiting, running, log := 0, false, {}, [];
    }

    function Now(): Loop
      reads this
    {
      Loop(received, waiting, running)
    }

    ghost predicate Valid()
      reads this
    {
      && Accounted(received, waiting, running, log) && SettledOnce(log)
      && 1 <= slots && |running| <= slots && (waiting ==> |running| == slots)
    }

    /** A delivery takes a free slot, or makes the loop wait for one. */
    method Receive()
      requires Valid() && !waiting
      modifies this`received, this`waiting, this`running
      ensures Valid() && Now() == Next(slots, old(Now()), Arrived)
      ensures received == old(received) + 1 && (waiting <==> |old(running)| == slots)
      ensures running == if |old(running)| < slots then old(running) + {old(received)} else old(running)
    {
      ReceiveOne(received, running, log);
      if |running| < slots {
        running := running + {received};
      } else {
        waiting := true;
      }
      received := received + 1;
    }

    /** A handler returns: its delivery is settled, then its slot goes to the delivery that waits, if one does. */
    method Return(tag: nat, ok: bool)
      requires Valid() && tag in running
      modifies this`waiting, this`running, this`log
      ensures Valid() && Now() == Next(slots, old(Now()), Returned(tag, ok))
      ensures log == old(log) + [Settlement(tag, ok)]
      ensures !waiting && |running| == |old(running)| - if old(waiting) then 0 else 1
      ensures running == old(running) - {tag} + if old(waiting) then {received - 1} else {}
    {
      SettleOne(received, waiting, running, log, tag, ok);
      SlotIsFreed(running, tag);
      log := log + [Settlement(tag, ok)];
      running := running - {tag};
      if waiting {
        running := running + {received - 1};
        waiting := false;
      }
    }

    /**
     The loop, and then the wait for the handlers when the context ends or the channel closes. `history` holds the
     handlers that run before the first event, after each event, and after each return at the end. There are never
     more than slots, and every delivery taken is settled exactly once, by what its own handler returned.
     */
    method Consume(events: seq<Event>, atEnd: nat -> bool) returns (ghost history: seq<set<nat>>)
      requires Valid() && Now() == Loop(0, false, {}) && log == []
      modifies this`received, this`waiting, this`running, this`log
      ensures Valid() && running == {} && !waiting
      ensures SettledOnce(log) && forall tag: nat :: IsSettled(log, tag) <==> tag < received
      ensures received == Arrivals(slots, events)
      ensures forall x :: x in log ==> Told(slots, events, atEnd, x)
      ensures |history| > |events| && forall n :: 0 <= n <= |events| ==> history[n] == After(slots, events[..n]).running
      ensures forall n :: 0 <= n < |history| ==> |history[n]| <= slots
    {
      history := Select(events);
      LogIsTold(slots, events, atEnd, log);
      ArrivalsAreTaken(slots, events);
      assert events[..|events|] == events;
      history := Drain(events, atEnd, history);
    }

    /** The select loop. */
    method Select(events: seq<Event>) returns (ghost history: seq<set<nat>>)
      requires Valid() && Now() == Loop(0, false, {}) && log == []
      modifies this`received, this`waiting, this`running, this`log
      ensures Valid() && LogsReturns(slots, events, |events|, log)
      ensures Recorded(slots, events, |events|, history) && Now() == After(slots, events[..|events|])
    {
      history := [running];
      assert events[..0] == [];
      for n := 0 to |events|
        invariant Valid() && Now() == After(slots, events[..n]) && LogsReturns(slots, events, n, log)
        invariant Recorded(slots, events, n, history)
      {
        AfterOneMore(slots, events, n);
        Handle(events, n, events[n]);
        RecordOneMore(slots, events, n, history, running);
        history := history + [running];
      }
    }

    /** One round of the select. */
    method Handle(ghost events: seq<Event>, ghost n: nat, event: Event)
      requires n < |events| && events[n] == event
      requires Valid() && Now() == After(slots, events[..n]) && LogsReturns(slots, events, n, log)
      modifies this`received, this`waiting, this`running, this`log
      ensures Valid() && Now() == Next(slots, old(Now()), event) && LogsReturns(slots, events, n + 1, log)
    {
      match event {
        case Arrived => HandleArrival(events, n);
        case Returned(tag, ok) => HandleReturn(events, n, tag, ok);
      }
    }

    method HandleArrival(ghost events: seq<Event>, ghost n: nat)
      requires n < |events| && events[n].Arrived? && Valid() && LogsReturns(slots, events, n, log)
      modifies this`received, this`waiting, this`running
      ensures Valid() && Now() == Next(slots, old(Now()), Arrived) && LogsReturns(slots, events, n + 1, log)
    {
      LogsNothing(slots, events, n, log);
      if !waiting {
        Receive();
      }
    }

    method HandleReturn(ghost events: seq<Event>, ghost n: nat, tag: nat, ok: bool)
      requires n < |events| && events[n] == Returned(tag, ok)
      requires Valid() && running == After(slots, events[..n]).running && LogsReturns(slots, events, n, log)
      modifies this`waiting, this`running, this`log
      ensures Valid() && Now() == Next(slots, old(Now()), Returned(tag, ok)) && LogsReturns(slots, events, n + 1, log)
    {
      if tag in running {
        LogsOneReturn(slots, events, n, log);
        Return(tag, ok);
      } else {
        LogsNothing(slots, events, n, log);
      }
    }

    /** The wait group: the handlers that still run return one by one. */
    method Drain(ghost events: seq<Event>, atEnd: nat -> bool, ghost before: seq<set<nat>>)
      returns (ghost history: seq<set<nat>>)
      requires Valid() && forall n :: 0 <= n < |before| ==> |before[n]| <= slots
      requires forall x :: x in log ==> Told(slots, events, atEnd, x)
      requires forall tag: nat :: !IsSettled(log, tag) ==> Told(slots, events, atEnd, Settlement(tag, atEnd(tag)))
      modifies this`waiting, this`running, this`log
      ensures Valid() && running == {} && !waiting
      ensures before <= history && forall n :: 0 <= n < |history| ==> |history[n]| <= slots
      ensures forall x :: x in log ==> Told(slots, events, atEnd, x)
    {
      history := before;
      while running != {}
        invariant Valid() && before <= history && forall n :: 0 <= n < |history| ==> |history[n]| <= slots
        invariant forall x :: x in log ==> Told(slots, events, atEnd, x)
        invariant forall tag: nat :: !IsSettled(log, tag) ==> Told(slots, events, atEnd, Settlement(tag, atEnd(tag)))
        decreases |running| + if waiting then 1 else 0
      {
        var tag :| tag in running;
        ghost var settled := log;
        Return(tag, atEnd(tag));
        StillSettled(settled, log);
        history := history + [running];
      }
    }
  }

  lemma StillSettled(log: seq<Settlement>, log': seq<Settlement>)
    requires log <= log'
    ensures forall tag: nat :: IsSettled(log, tag) ==> IsSettled(log', tag)
  {
    forall tag: nat | IsSettled(log, tag) ensures IsSettled(log', tag) {
      var i :| 0 <= i < |log| && log[i].tag == tag;
      assert log'[i].tag == tag;
    }
  }
}
