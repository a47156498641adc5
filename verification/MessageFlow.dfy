/** The broker's books: no message is lost or invented, and no consumer holds more than its prefetch. */
module MessageFlow {
  import opened Types
  import opened System
  import opened Frames

  /** How many copies of a message are out with consumers. */
  function Copies(ds: seq<Delivery>, m: Message): nat {
    if ds == [] then 0 else Copies(ds[..|ds| - 1], m) + if ds[|ds| - 1].msg == m then 1 else 0
  }

  lemma AppendDelivery(ds: seq<Delivery>, d: Delivery, m: Message, w: WorkerId)
    ensures Copies(ds + [d], m) == Copies(ds, m) + if d.msg == m then 1 else 0
    ensures Outstanding(ds + [d], w) == Outstanding(ds, w) + if d.worker == w then 1 else 0
  {
    assert (ds + [d])[..|ds|] == ds;
  }

  lemma {:induction false} RemoveDelivery(ds: seq<Delivery>, i: nat, m: Message, w: WorkerId)
    requires i < |ds|
    ensures Copies(ds, m) == Copies(RemoveAt(ds, i), m) + if ds[i].msg == m then 1 else 0
    ensures Outstanding(ds, w) == Outstanding(RemoveAt(ds, i), w) + if ds[i].worker == w then 1 else 0
  {
    var n := |ds| - 1;
    if i == n {
      assert RemoveAt(ds, i) == ds[..n];
    } else {
      RemoveDelivery(ds[..n], i, m, w);
      assert RemoveAt(ds, i) == RemoveAt(ds[..n], i) + [ds[n]];
      AppendDelivery(RemoveAt(ds[..n], i), ds[n], m, w);
    }
  }

  lemma {:induction false} DecideDelivery(ds: seq<Delivery>, i: nat, verdict: Verdict, m: Message, w: WorkerId)
    requires i < |ds|
    ensures var ds' := ds[i := ds[i].(verdict := verdict)];
            Copies(ds', m) == Copies(ds, m) && Outstanding(ds', w) == Outstanding(ds, w)
  {
    var n := |ds| - 1;
    var ds' := ds[i := ds[i].(verdict := verdict)];
    if i == n {
      assert ds'[..n] == ds[..n];
    } else {
      DecideDelivery(ds[..n], i, verdict, m, w);
      assert ds'[..n] == ds[..n][i := ds[i].(verdict := verdict)];
    }
  }

  /** Every copy of a message that a relay got accepted is in exactly one place. */
  ghost predicate Balanced(b: Broker, m: Message) {
    b.sentMain[m] + b.sentRetry[m] == b.main[m] + b.retry[m] + Copies(b.unacked, m) + b.dlq[m] + b.acked[m]
  }

  ghost predicate WithinPrefetch(s: State, w: WorkerId) {
    Outstanding(s.broker.unacked, w) <= PrefetchLimit(s.cfg)
  }

  lemma QueueKeepsBalance(s: State, q: QueueStep, m: Message, w: WorkerId)
    requires Balanced(s.broker, m) && WithinPrefetch(s, w) && QueueEnabled(s, q)
    ensures Balanced(QueueApply(s, q).broker, m) && WithinPrefetch(QueueApply(s, q), w)
  {
    match q
    case Expire(_) =>
    case Deliver(v, n) => AppendDelivery(s.broker.unacked, Delivery(v, n, Undecided), m, w);
    case Settle(i, _) => RemoveDelivery(s.broker.unacked, i, m, w);
    case GiveUp(i, _) => RemoveDelivery(s.broker.unacked, i, m, w);
    case Redeliver(i, _) => RemoveDelivery(s.broker.unacked, i, m, w);
  }

  lemma ClaimKeepsBalance(s: State, c: ClaimStep, m: Message, w: WorkerId)
    requires Balanced(s.broker, m) && WithinPrefetch(s, w) && ClaimEnabled(s, c)
    ensures Balanced(ClaimApply(s, c).broker, m) && WithinPrefetch(ClaimApply(s, c), w)
  {
    ClaimFrame(s, c);
    if c.Claim? {
      var d := s.broker.unacked[c.delivery];
      DecideDelivery(s.broker.unacked, c.delivery, ClaimVerdict(s, d.msg.job, d.worker), m, w);
    }
  }

  lemma RelayKeepsBalance(s: State, r: RelayStep, m: Message, w: WorkerId)
    requires Balanced(s.broker, m) && WithinPrefetch(s, w) && RelayEnabled(s, r)
    ensures Balanced(RelayApply(s, r).broker, m) && WithinPrefetch(RelayApply(s, r), w)
  {
  }

  lemma StepKeepsBalance(s: State, l: Label, m: Message, w: WorkerId)
    requires Balanced(s.broker, m) && WithinPrefetch(s, w) && Enabled(s, l)
    ensures Balanced(Apply(s, l).broker, m) && WithinPrefetch(Apply(s, l), w)
  {
    match l
    case Queue(q) => QueueKeepsBalance(s, q, m, w);
    case Claiming(c) => ClaimKeepsBalance(s, c, m, w);
    case Relay(r) => RelayKeepsBalance(s, r, m, w);
    case _ => Frame(s, l);
  }

  /** Each queue step moves one copy: out of retry, to a worker, back to main, or out to where it is settled. */
  lemma QueueStepMoves(s: State, q: QueueStep)
    requires QueueEnabled(s, q)
    ensures var (b, b') := (s.broker, QueueApply(s, q).broker);
            match q
            case Expire(m) => b' == b.(retry := b.retry - multiset{m}, main := b.main + multiset{m})
            case Deliver(w, m) =>
              && b'.main == b.main - multiset{m} && |b'.unacked| == |b.unacked| + 1
              && b'.unacked[..|b.unacked|] == b.unacked && b'.unacked[|b.unacked|] == Delivery(w, m, Undecided)
            case Settle(i, ack) =>
              && b'.unacked == b.unacked[..i] + b.unacked[i + 1..] && b'.main == b.main
              && b'.acked == b.acked + (if ack then multiset{b.unacked[i].msg} else multiset{})
              && b'.dlq == b.dlq + if ack then multiset{} else multiset{b.unacked[i].msg}
            case GiveUp(i, _) =>
              && b'.unacked == b.unacked[..i] + b.unacked[i + 1..] && b'.main == b.main
              && b'.acked == b.acked && b'.dlq == b.dlq + multiset{b.unacked[i].msg}
            case Redeliver(i, _) =>
              && b'.unacked == b.unacked[..i] + b.unacked[i + 1..] && b'.main == b.main + multiset{b.unacked[i].msg}
              && b'.acked == b.acked && b'.dlq == b.dlq
  {
  }

  /** The deliveries a worker has in hand, by their places in the list. */
  function InHand(ds: seq<Delivery>, w: WorkerId): set<nat> {
    set i | 0 <= i < |ds| && ds[i].worker == w
  }

  lemma {:induction false} OutstandingIsCount(ds: seq<Delivery>, w: WorkerId)
    ensures Outstanding(ds, w) == |InHand(ds, w)|
  {
    if ds != [] {
      var last := |ds| - 1;
      OutstandingIsCount(ds[..last], w);
      assert InHand(ds, w) == InHand(ds[..last], w) + if ds[last].worker == w then {last} else {};
    }
  }

  /**
   The copies of a message accepted from relays equal those in main, in retry, with consumers, dead-lettered
   and acknowledged together, and no worker ever has more than its prefetch of deliveries in hand.
   */
  lemma {:induction false} MessagesAreConserved(cfg: Config, ls: seq<Label>, m: Message, w: WorkerId)
    requires Runs(Init(cfg), ls)
    ensures var s := Exec(Init(cfg), ls);
            && s.cfg == cfg
            && s.broker.sentMain[m] + s.broker.sentRetry[m]
               == s.broker.main[m] + s.broker.retry[m] + Copies(s.broker.unacked, m) + s.broker.dlq[m]
                   + s.broker.acked[m]
            && Outstanding(s.broker.unacked, w) <= PrefetchLimit(cfg)
            && |InHand(s.broker.unacked, w)| <= if cfg.prefetch <= 0 then 1 else cfg.prefetch
  {
    OutstandingIsCount(Exec(Init(cfg), ls).broker.unacked, w);
    if ls != [] {
      var (init, l) := (ls[..|ls| - 1], ls[|ls| - 1]);
      MessagesAreConserved(cfg, init, m, w);
      Frame(Exec(Init(cfg), init), l);
      StepKeepsBalance(Exec(Init(cfg), init), l, m, w);
    }
  }
}
