/**
 What a worker has on its channel and in its hands (message.go:506-606): only copies of its own queue, each
 of them unsettled on its channel as long as the channel is open and the queue has not been deleted; and
 how a worker that is told to leave leaves.
 */
module Hands {
  import opened Wrappers
  import opened ConsumerSystem
  import opened ConsumerControl
  import opened ConsumerResources
  import opened ConsumerTheorems
  import opened Settling
  import Continuations
  import Delivery

  /** The copy a worker has taken from its stream and not settled. */
  function Hand(pc: Pc): Option<nat> {
    match pc
    case Handling(m) => Some(m)
    case Settling(m, _) => Some(m)
    case _ => None
  }

  ghost predicate OfQueue(b: Delivery.Broker, q: string, m: nat) {
    m in b.published && b.published[m] == q
  }

  /** The copies that wait in the stream, and the one in hand, are different ones of the worker's queue;
      while the channel is open each of them is unsettled on it, unless it was dropped with the queue. */
  ghost predicate Tidy(b: Delivery.Broker, q: string, ch: Delivery.Channel, hand: Option<nat>) {
    && (ch.source.Some? ==> ch.source.value == q)
    && (forall m :: m in ch.unsettled ==> OfQueue(b, q, m))
    && (forall i :: 0 <= i < |ch.stream| ==> OfQueue(b, q, ch.stream[i]))
    && (forall i, j :: 0 <= i < j < |ch.stream| ==> ch.stream[i] != ch.stream[j])
    && (hand.Some? ==> OfQueue(b, q, hand.value) && hand.value !in ch.stream)
    && (ch.open ==> forall i :: 0 <= i < |ch.stream| ==> ch.stream[i] in ch.unsettled || ch.stream[i] in b.dropped)
    && (ch.open && hand.Some? ==> hand.value in ch.unsettled || hand.value in b.dropped)
    && (!ch.open ==> ch.unsettled == {})
  }

  ghost predicate Own(wk: Worker, b: Delivery.Broker) {
    && (wk.chan.Some? ==> wk.chan.value in b.channels && Tidy(b, wk.key, b.channels[wk.chan.value], Hand(wk.pc)))
    && (wk.chan.None? ==> Hand(wk.pc).None?)
    && (wk.pc.Done? && wk.chan.Some? ==> !b.channels[wk.chan.value].open)
    && (wk.told ==> Leaving(wk.pc))
  }

  /** No two workers have one channel. */
  ghost predicate OwnChannels(workers: map<nat, Worker>) {
    forall w, v :: w in workers && v in workers && w != v && workers[w].chan.Some? ==>
      workers[w].chan != workers[v].chan
  }

  ghost predicate HandsInv(workers: map<nat, Worker>, b: Delivery.Broker) {
    OwnChannels(workers) && forall w :: w in workers ==> Own(workers[w], b)
  }

  // ---- the broker's events -----------------------------------------------------------------

  /** Only the channel's own worker consumes on it, reads its stream and settles on it. */
  predicate OwnEvent(e: Delivery.Event, c: nat) {
    match e
    case Consume(d, _) => d == c
    case Receive(d) => d == c
    case Ack(d, _) => d == c
    case Requeue(d, _) => d == c
    case _ => false
  }

  lemma EventKeepsTidy(b: Delivery.Broker, e: Delivery.Event, q: string, c: nat, hand: Option<nat>)
    requires Delivery.Conserved(b) && Delivery.Enabled(b, e) && !OwnEvent(e, c)
    requires c in b.channels && Tidy(b, q, b.channels[c], hand)
    ensures var b' := Delivery.Apply(b, e);
      && c in b'.channels && Tidy(b', q, b'.channels[c], hand) && (b'.channels[c].open ==> b.channels[c].open)
  {
    match e {
      case Push(d, m) => PushKeepsTidy(b, d, m, q, c, hand);
      case DeleteQueue(p) => DeleteKeepsTidy(b, p, q, c, hand);
      case _ => QuietKeepsTidy(b, e, q, c, hand);
    }
  }

  lemma PushKeepsTidy(b: Delivery.Broker, d: nat, m: nat, q: string, c: nat, hand: Option<nat>)
    requires Delivery.Conserved(b) && Delivery.Enabled(b, Delivery.Push(d, m))
    requires c in b.channels && Tidy(b, q, b.channels[c], hand)
    ensures var b' := Delivery.Apply(b, Delivery.Push(d, m));
      && c in b'.channels && Tidy(b', q, b'.channels[c], hand) && b'.channels[c].open == b.channels[c].open
  {
    if d == c {
      ReadyIsNotHeld(b, c, m);
    }
  }

  /** A ready copy is not unsettled, and not dropped. */
  lemma ReadyIsNotHeld(b: Delivery.Broker, c: nat, m: nat)
    requires Delivery.Conserved(b) && Delivery.Enabled(b, Delivery.Push(c, m))
    ensures m !in b.channels[c].unsettled && m !in b.dropped
    ensures OfQueue(b, b.channels[c].source.value, m)
  {
    assert m in b.channels[c].unsettled ==> Delivery.UnsettledOn(b, c, m);
  }

  lemma DeleteKeepsTidy(b: Delivery.Broker, p: string, q: string, c: nat, hand: Option<nat>)
    requires Delivery.Conserved(b) && c in b.channels && Tidy(b, q, b.channels[c], hand)
    ensures var b' := Delivery.Apply(b, Delivery.DeleteQueue(p));
      && c in b'.channels && Tidy(b', q, b'.channels[c], hand) && b'.channels[c].open == b.channels[c].open
  {
    forall m | m in b.channels[c].unsettled && m in Delivery.Pending(b, p) ensures p in b.queues {
      assert Delivery.UnsettledOn(b, c, m);
    }
  }

  lemma QuietKeepsTidy(b: Delivery.Broker, e: Delivery.Event, q: string, c: nat, hand: Option<nat>)
    requires Delivery.Enabled(b, e) && !OwnEvent(e, c) && !e.Push? && !e.DeleteQueue?
    requires c in b.channels && Tidy(b, q, b.channels[c], hand)
    ensures var b' := Delivery.Apply(b, e);
      && c in b'.channels && Tidy(b', q, b'.channels[c], hand) && (b'.channels[c].open ==> b.channels[c].open)
  {
  }

  /** Taking the first copy of the stream into the hand. */
  lemma ReceiveKeepsTidy(b: Delivery.Broker, q: string, c: nat)
    requires Delivery.Enabled(b, Delivery.Receive(c)) && Tidy(b, q, b.channels[c], None)
    ensures var b' := Delivery.Apply(b, Delivery.Receive(c));
      Tidy(b', q, b'.channels[c], Some(b.channels[c].stream[0]))
  {
  }

  /** Settling the copy in hand. */
  lemma SettleKeepsTidy(b: Delivery.Broker, e: Delivery.Event, q: string, c: nat, m: nat)
    requires e == Delivery.Ack(c, m) || e == Delivery.Requeue(c, m)
    requires Delivery.Enabled(b, e) && Tidy(b, q, b.channels[c], Some(m))
    ensures var b' := Delivery.Apply(b, e); Tidy(b', q, b'.channels[c], None)
  {
  }

  lemma ConsumeKeepsTidy(b: Delivery.Broker, q: string, c: nat)
    requires Delivery.Enabled(b, Delivery.Consume(c, q)) && Tidy(b, q, b.channels[c], None)
    ensures var b' := Delivery.Apply(b, Delivery.Consume(c, q)); Tidy(b', q, b'.channels[c], None)
  {
  }

  // ---- the steps ---------------------------------------------------------------------------

  lemma EventKeepsOwn(wk: Worker, b: Delivery.Broker, e: Delivery.Event)
    requires Delivery.Conserved(b) && Delivery.Enabled(b, e) && Own(wk, b)
    requires wk.chan.Some? ==> !OwnEvent(e, wk.chan.value)
    ensures Own(wk, Delivery.Apply(b, e))
  {
    if wk.chan.Some? {
      EventKeepsTidy(b, e, wk.key, wk.chan.value, Hand(wk.pc));
    }
  }

  lemma OutsideKeepsHands(workers: map<nat, Worker>, b: Delivery.Broker, e: Delivery.Event)
    requires HandsInv(workers, b) && Delivery.Conserved(b) && Delivery.Enabled(b, e) && Outside(e)
    ensures HandsInv(workers, Delivery.Apply(b, e))
  {
    forall w | w in workers ensures Own(workers[w], Delivery.Apply(b, e)) {
      EventKeepsOwn(workers[w], b, e);
    }
  }

  /** Worker `w` changes, and the broker by an event on its channel at most. */
  lemma OneWorkerKeepsHands(workers: map<nat, Worker>, b: Delivery.Broker, w: nat, wk: Worker, b': Delivery.Broker)
    requires HandsInv(workers, b) && w in workers
    requires wk.chan == workers[w].chan || wk.chan.None? || wk.chan.value !in b.channels
    requires Own(wk, b') && forall v :: v in workers && v != w ==> Own(workers[v], b')
    ensures HandsInv(workers[w := wk], b')
  {
    var after := workers[w := wk];
    forall v, u | v in after && u in after && v != u && after[v].chan.Some? ensures after[v].chan != after[u].chan {
      assert v != w ==> Own(workers[v], b);
      assert u != w ==> Own(workers[u], b);
    }
  }

  lemma OthersKeepOwn(workers: map<nat, Worker>, b: Delivery.Broker, w: nat, e: Delivery.Event)
    requires HandsInv(workers, b) && w in workers && Delivery.Conserved(b) && Delivery.Enabled(b, e)
    requires forall c: nat :: OwnEvent(e, c) ==> workers[w].chan == Some(c)
    ensures forall v :: v in workers && v != w ==> Own(workers[v], Delivery.Apply(b, e))
  {
    forall v | v in workers && v != w ensures Own(workers[v], Delivery.Apply(b, e)) {
      EventKeepsOwn(workers[v], b, e);
    }
  }

  /** A step that leaves the broker, the channel and the hand alone. */
  ghost predicate Beside(p: Worker, q: Worker) {
    && q.key == p.key && q.chan == p.chan && Hand(q.pc) == Hand(p.pc) && !q.pc.Done?
    && (q.told ==> Leaving(q.pc))
  }

  lemma TableStepIsBeside(s: State, w: nat, st: WorkerStep, t: State)
    requires w in s.ctl.workers && DoTable(s, w, st) == Some(t)
    requires s.ctl.workers[w].told ==> Leaving(s.ctl.workers[w].pc)
    ensures w in t.ctl.workers && Beside(s.ctl.workers[w], t.ctl.workers[w])
  {
    TableStepMoves(s, w, st, t);
    TableStepTurns(s, w, st, t);
  }

  lemma PoolStepIsBeside(s: State, w: nat, st: WorkerStep, t: State)
    requires w in s.ctl.workers && DoPool(s, w, st) == Some(t)
    requires s.ctl.workers[w].told ==> Leaving(s.ctl.workers[w].pc)
    ensures w in t.ctl.workers && Beside(s.ctl.workers[w], t.ctl.workers[w])
  {
    PoolStepMoves(s, w, st, t);
  }

  lemma SignalStepIsBeside(s: State, w: nat, st: WorkerStep, t: State)
    requires w in s.ctl.workers && DoSignal(s, w, st) == Some(t)
    requires s.ctl.workers[w].told ==> Leaving(s.ctl.workers[w].pc)
    ensures w in t.ctl.workers && Beside(s.ctl.workers[w], t.ctl.workers[w])
  {
    match st {
      case TakeCommand => TakeCommandIsBeside(s, w, t);
      case SendExitOk =>
      case Process(_) =>
    }
  }

  lemma TakeCommandIsBeside(s: State, w: nat, t: State)
    requires w in s.ctl.workers && DoSignal(s, w, TakeCommand) == Some(t)
    requires s.ctl.workers[w].told ==> Leaving(s.ctl.workers[w].pc)
    ensures w in t.ctl.workers && Beside(s.ctl.workers[w], t.ctl.workers[w])
  {
  }

  lemma BesideKeepsHands(workers: map<nat, Worker>, b: Delivery.Broker, w: nat, wk: Worker)
    requires HandsInv(workers, b) && w in workers && Beside(workers[w], wk)
    ensures HandsInv(workers[w := wk], b)
  {
    assert Own(workers[w], b);
    OneWorkerKeepsHands(workers, b, w, wk, b);
  }

  /** A queue that is declared, or deleted and declared. */
  lemma RedeclaredKeepsOwn(wk: Worker, b: Delivery.Broker, q: string, deleted: bool, declared: bool)
    requires Delivery.Conserved(b) && Own(wk, b)
    ensures Own(wk, Redeclared(b, q, deleted, declared))
  {
    var b1 := if deleted then Delivery.Apply(b, Delivery.DeleteQueue(q)) else b;
    if deleted {
      Delivery.EventConserves(b, Delivery.DeleteQueue(q));
      EventKeepsOwn(wk, b, Delivery.DeleteQueue(q));
    }
    if declared {
      EventKeepsOwn(wk, b1, Delivery.DeclareQueue(q));
    }
  }

  lemma LadderKeepsHands(workers: map<nat, Worker>, b: Delivery.Broker, w: nat, st: WorkerStep, e: Effect)
    requires HandsInv(workers, b) && w in workers && Delivery.Conserved(b) && Ladder(workers[w], b, st) == Some(e)
    ensures HandsInv(workers[w := e.worker], e.brk)
  {
    var wk := workers[w];
    assert Own(wk, b);
    LadderMoves(wk, b, st, e);
    LadderHand(wk, b, st, e);
    match st {
      case OpenChannel(ok, c) =>
        if ok {
          OthersKeepOwn(workers, b, w, Delivery.OpenChannel(c));
        }
      case DeclareQueue(ok, deleted, declared) =>
        forall v | v in workers ensures Own(workers[v], e.brk) {
          RedeclaredKeepsOwn(workers[v], b, ItemKey(wk.item), deleted, declared);
        }
      case SetQos(ok) =>
        if ok {
          OthersKeepOwn(workers, b, w, Delivery.Qos(wk.chan.value, 1));
          EventKeepsOwn(wk, b, Delivery.Qos(wk.chan.value, 1));
        }
      case Consume(ok) =>
        if ok {
          OthersKeepOwn(workers, b, w, Delivery.Consume(wk.chan.value, wk.key));
          ConsumeKeepsTidy(b, wk.key, wk.chan.value);
        }
      case _ =>
    }
    OneWorkerKeepsHands(workers, b, w, e.worker, e.brk);
  }

  /** The ladder is climbed with empty hands. */
  lemma LadderHand(wk: Worker, b: Delivery.Broker, st: WorkerStep, e: Effect)
    requires Ladder(wk, b, st) == Some(e)
    ensures Hand(wk.pc) == None == Hand(e.worker.pc) && !e.worker.pc.Done? && !Leaving(wk.pc)
    ensures e.worker.chan == if st.OpenChannel? then (if st.ok then Some(st.channel) else None) else wk.chan
  {
  }

  lemma SettlementKeepsHands(workers: map<nat, Worker>, b: Delivery.Broker, w: nat, st: WorkerStep, e: Effect)
    requires HandsInv(workers, b) && w in workers && Delivery.Conserved(b) && Settlement(workers[w], b, st) == Some(e)
    ensures HandsInv(workers[w := e.worker], e.brk)
  {
    var wk := workers[w];
    assert Own(wk, b);
    SettlementShape(wk, b, st, e);
    match st {
      case TakeDelivery => OthersKeepOwn(workers, b, w, Delivery.Receive(wk.chan.value));
      case Settle(applied) =>
        if applied {
          OthersKeepOwn(workers, b, w, SettlingEvent(wk));
        }
      case CloseChannel =>
        if wk.chan.Some? {
          OthersKeepOwn(workers, b, w, Delivery.CloseChannel(wk.chan.value));
        }
      case _ =>
    }
    SettlementIsOwn(wk, b, st, e);
    OneWorkerKeepsHands(workers, b, w, e.worker, e.brk);
  }

  function SettlingEvent(wk: Worker): Delivery.Event
    requires wk.pc.Settling? && wk.chan.Some?
  {
    if wk.pc.ok then Delivery.Ack(wk.chan.value, wk.pc.copy) else Delivery.Requeue(wk.chan.value, wk.pc.copy)
  }

  lemma EmptyHandIsTidy(wk: Worker, b: Delivery.Broker)
    requires wk.chan.Some? && wk.chan.value in b.channels
    requires Tidy(b, wk.key, b.channels[wk.chan.value], Hand(wk.pc))
    ensures Tidy(b, wk.key, b.channels[wk.chan.value], None)
  {
  }

  lemma ClosedIsClosed(b: Delivery.Broker, c: nat)
    requires Delivery.Enabled(b, Delivery.CloseChannel(c))
    ensures !Delivery.Apply(b, Delivery.CloseChannel(c)).channels[c].open
  {
  }

  /** What a settlement step does. */
  ghost predicate Shape(wk: Worker, b: Delivery.Broker, st: WorkerStep, e: Effect) {
    && e.worker == wk.(pc := e.worker.pc)
    && match st
      case TakeDelivery =>
        && wk.chan.Some? && wk.pc.Selecting? && Delivery.Enabled(b, Delivery.Receive(wk.chan.value))
        && e.brk == Delivery.Apply(b, Delivery.Receive(wk.chan.value))
        && e.worker.pc == Handling(b.channels[wk.chan.value].stream[0])
      case StreamEnded => wk.pc.Selecting? && e.worker.pc.GivingUp? && e.brk == b
      case Settle(applied) =>
        && wk.chan.Some? && wk.pc.Settling? && e.worker.pc.LoopCheck?
        && if applied then Delivery.Enabled(b, SettlingEvent(wk)) && e.brk == Delivery.Apply(b, SettlingEvent(wk))
           else e.brk == b
      case CloseChannel =>
        && wk.pc.Closing? && e.worker.pc.Done?
        && if wk.chan.None? then e.brk == b
           else
             && Delivery.Enabled(b, Delivery.CloseChannel(wk.chan.value))
             && e.brk == Delivery.Apply(b, Delivery.CloseChannel(wk.chan.value))
      case _ => false
  }

  lemma SettlementShape(wk: Worker, b: Delivery.Broker, st: WorkerStep, e: Effect)
    requires Settlement(wk, b, st) == Some(e)
    ensures Shape(wk, b, st, e)
  {
  }

  lemma SettlementIsOwn(wk: Worker, b: Delivery.Broker, st: WorkerStep, e: Effect)
    requires Delivery.Conserved(b) && Own(wk, b) && Shape(wk, b, st, e)
    ensures Own(e.worker, e.brk)
  {
    match st {
      case TakeDelivery => ReceiveKeepsTidy(b, wk.key, wk.chan.value);
      case Settle(_) => SettleIsOwn(wk, b, st, e);
      case CloseChannel =>
        if wk.chan.Some? {
          EventKeepsOwn(wk, b, Delivery.CloseChannel(wk.chan.value));
          ClosedIsClosed(b, wk.chan.value);
        }
      case _ =>
    }
  }

  lemma SettleIsOwn(wk: Worker, b: Delivery.Broker, st: WorkerStep, e: Effect)
    requires Own(wk, b) && st.Settle? && Shape(wk, b, st, e)
    ensures Own(e.worker, e.brk)
  {
    if st.applied {
      SettleKeepsTidy(b, SettlingEvent(wk), wk.key, wk.chan.value, wk.pc.copy);
    } else {
      EmptyHandIsTidy(wk, b);
    }
  }

  // ---- every run ---------------------------------------------------------------------------

  lemma WorkerStepKeepsHands(s: State, w: nat, st: WorkerStep, t: State)
    requires Inv(s) && HandsInv(s.ctl.workers, s.brk) && w in s.ctl.workers && DoWorker(s, w, st) == Some(t)
    ensures HandsInv(t.ctl.workers, t.brk)
  {
    assert Own(s.ctl.workers[w], s.brk);
    if DoTable(s, w, st) == Some(t) {
      TableStepMoves(s, w, st, t);
      TableStepIsBeside(s, w, st, t);
      BesideKeepsHands(s.ctl.workers, s.brk, w, t.ctl.workers[w]);
    } else if DoPool(s, w, st) == Some(t) {
      PoolStepMoves(s, w, st, t);
      PoolStepIsBeside(s, w, st, t);
      BesideKeepsHands(s.ctl.workers, s.brk, w, t.ctl.workers[w]);
    } else if DoSignal(s, w, st) == Some(t) {
      SignalStepIsAside(s, w, st, t);
      SignalStepIsBeside(s, w, st, t);
      BesideKeepsHands(s.ctl.workers, s.brk, w, t.ctl.workers[w]);
    } else {
      BrokerStepKeepsHands(s, w, st, t);
    }
  }

  lemma BrokerStepKeepsHands(s: State, w: nat, st: WorkerStep, t: State)
    requires Delivery.Conserved(s.brk) && HandsInv(s.ctl.workers, s.brk)
    requires w in s.ctl.workers && DoBroker(s, w, st) == Some(t)
    ensures HandsInv(t.ctl.workers, t.brk)
  {
    var e := Effect(t.ctl.workers[w], t.brk);
    if st.TakeDelivery? || st.StreamEnded? || st.Settle? || st.CloseChannel? {
      SettlementKeepsHands(s.ctl.workers, s.brk, w, st, e);
    } else {
      LadderKeepsHands(s.ctl.workers, s.brk, w, st, e);
    }
    assert t.ctl.workers == s.ctl.workers[w := e.worker];
  }

  lemma ManagerKeepsHands(s: State, ms: ManagerStep, t: State)
    requires Do(s, ByManager(ms)) == Some(t) && HandsInv(s.ctl.workers, s.brk)
    ensures HandsInv(t.ctl.workers, t.brk)
  {
    ManagerAddsWorkers(s.ctl, ms, t.ctl);
    NewWorkersAreUntold(s.ctl, ms, t.ctl);
    forall w | w in t.ctl.workers ensures Own(t.ctl.workers[w], t.brk) {
      assert w in s.ctl.workers ==> Own(s.ctl.workers[w], s.brk);
    }
  }

  lemma NewWorkersAreUntold(c: Control, ms: ManagerStep, d: Control)
    requires DoManager(c, ms) == Some(d)
    ensures forall w :: w in d.workers && w !in c.workers ==> !d.workers[w].told
  {
  }

  lemma StepKeepsHands(s: State, st: Step, t: State)
    requires Inv(s) && HandsInv(s.ctl.workers, s.brk) && Do(s, st) == Some(t)
    ensures HandsInv(t.ctl.workers, t.brk)
  {
    match st {
      case ByCaller(cs) => CallerMoves(s.ctl, cs, t.ctl);
      case ByManager(ms) => ManagerKeepsHands(s, ms, t);
      case ByWorkerStep(w, ws) => WorkerStepKeepsHands(s, w, ws, t);
      case ByBroker(e) => OutsideKeepsHands(s.ctl.workers, s.brk, e);
      case ByPoolUser(op) =>
    }
  }

  lemma {:induction false} RunKeepsHands(states: seq<State>, steps: seq<Step>, i: nat)
    requires ConsumerSystem.Run(states, steps) && i < |states|
    ensures HandsInv(states[i].ctl.workers, states[i].brk)
  {
    if i > 0 {
      RunKeepsHands(states, steps, i - 1);
      RunKeepsInv(states, steps, i - 1);
      assert StepAt(states, steps, i - 1);
      StepKeepsHands(states[i - 1], steps[i - 1], states[i]);
    }
  }

  lemma ReachableHands(s: State)
    requires Reachable(s)
    ensures HandsInv(s.ctl.workers, s.brk)
  {
    var states, steps :| ConsumerSystem.Run(states, steps) && states[|steps|] == s;
    RunKeepsHands(states, steps, |steps|);
  }

  // ---- what it means -----------------------------------------------------------------------

  /** The copy that a worker has in hand is one of its own key's queue; it is unsettled on the worker's
      channel exactly as long as the channel is open and the copy has not been dropped with the queue. */
  lemma CopyInHand(s: State, w: nat, m: nat)
    requires Reachable(s) && w in s.ctl.workers && Hand(s.ctl.workers[w].pc) == Some(m)
    ensures var wk := s.ctl.workers[w];
      && wk.chan.Some? && wk.chan.value in s.brk.channels && OfQueue(s.brk, wk.key, m)
      && (Settling.Holds(s, w, m) <==> s.brk.channels[wk.chan.value].open && m !in s.brk.dropped)
  {
    ReachableHands(s);
    DeliveriesConserved(s);
    assert Own(s.ctl.workers[w], s.brk);
    if Settling.Holds(s, w, m) {
      HeldIsNotDropped(s, w, m);
    }
  }

  lemma HeldIsNotDropped(s: State, w: nat, m: nat)
    requires Delivery.Conserved(s.brk) && Settling.Holds(s, w, m)
    ensures m !in s.brk.dropped
  {
    HeldHasQueue(s.brk, s.ctl.workers[w].chan.value, m);
  }

  /** No copy is in the hands of two workers. */
  lemma OneHandPerCopy(s: State, w: nat, v: nat, m: nat)
    requires Reachable(s) && w in s.ctl.workers && v in s.ctl.workers
    requires Hand(s.ctl.workers[w].pc) == Some(m) == Hand(s.ctl.workers[v].pc)
    ensures w == v
  {
    CopyInHand(s, w, m);
    CopyInHand(s, v, m);
    OneLiveWorkerPerKey(s, w, v, s.ctl.workers[w].key);
  }

  /** From its select, with a copy waiting on its open channel, a worker can take it, process it with either
      outcome and settle it; then it is acknowledged, or ready again, and the worker goes on. */
  lemma DeliveryGoesThrough(s: State, w: nat, ok: bool) returns (s1: State, s2: State, t: State)
    requires Reachable(s) && w in s.ctl.workers && s.ctl.workers[w].pc.Selecting?
    requires var wk := s.ctl.workers[w];
      && wk.chan.Some? && wk.chan.value in s.brk.channels && s.brk.channels[wk.chan.value].open
      && s.brk.channels[wk.chan.value].stream != []
      && s.brk.channels[wk.chan.value].stream[0] !in s.brk.dropped
    ensures Do(s, ByWorkerStep(w, TakeDelivery)) == Some(s1)
    ensures Do(s1, ByWorkerStep(w, Process(ok))) == Some(s2)
    ensures Do(s2, ByWorkerStep(w, Settle(true))) == Some(t)
    ensures var m := s.brk.channels[s.ctl.workers[w].chan.value].stream[0];
      && (m in t.brk.acked <==> ok) && (Delivery.ReadySomewhere(t.brk, m) <==> !ok)
      && !Delivery.UnsettledSomewhere(t.brk, m) && m !in t.brk.dropped
      && w in t.ctl.workers && t.ctl.workers[w].pc.LoopCheck?
  {
    var m := s.brk.channels[s.ctl.workers[w].chan.value].stream[0];
    s1 := Takes(s, w);
    s2 := Processes(s1, w, m, ok);
    var next := Continuations.Extend(s, ByWorkerStep(w, TakeDelivery));
    next := Continuations.Extend(s1, ByWorkerStep(w, Process(ok)));
    CopyInHand(s2, w, m);
    SettlesIffHeld(s2, w, m, ok);
    t := Do(s2, ByWorkerStep(w, Settle(true))).value;
    SettleDecides(s2, w, m, ok, t);
    SettleEndsInLoop(s2, w, t);
  }

  /** The same from a copy that is ready in the worker's queue, while the worker waits on a subscribed
      channel with nothing else on it. */
  lemma ReadyCopyGoesThrough(s: State, w: nat, m: nat, ok: bool) returns (s0: State, s1: State, s2: State, t: State)
    requires Reachable(s) && w in s.ctl.workers && s.ctl.workers[w].pc.Selecting? && s.ctl.workers[w].chan.Some?
    requires var c := s.ctl.workers[w].chan.value;
      c in s.brk.channels && Subscribed(s.brk.channels[c], s.ctl.workers[w].key)
      && s.brk.channels[c].unsettled == {} && s.brk.channels[c].stream == []
    requires Delivery.ReadySomewhere(s.brk, m) && s.brk.published[m] == s.ctl.workers[w].key
    ensures Do(s, ByBroker(Delivery.Push(s.ctl.workers[w].chan.value, m))) == Some(s0)
    ensures Do(s0, ByWorkerStep(w, TakeDelivery)) == Some(s1)
    ensures Do(s1, ByWorkerStep(w, Process(ok))) == Some(s2)
    ensures Do(s2, ByWorkerStep(w, Settle(true))) == Some(t)
    ensures (m in t.brk.acked <==> ok) && (Delivery.ReadySomewhere(t.brk, m) <==> !ok)
    ensures w in t.ctl.workers && t.ctl.workers[w].pc.LoopCheck?
  {
    DeliveriesConserved(s);
    var c := s.ctl.workers[w].chan.value;
    assert Delivery.Enabled(s.brk, Delivery.Push(c, m));
    ReadyIsNotHeld(s.brk, c, m);
    s0 := Continuations.Extend(s, ByBroker(Delivery.Push(c, m)));
    s1, s2, t := DeliveryGoesThrough(s0, w, ok);
  }

  /** The channel is open and consumes from queue `q`, one copy at a time. */
  predicate Subscribed(ch: Delivery.Channel, q: string) {
    ch.open && !ch.ended && ch.source == Some(q) && ch.prefetch == 1
  }

  /** The last step of the ladder subscribes an open channel, that has not ended, to the worker's own queue. */
  lemma ConsumeSubscribes(s: State, w: nat, t: State)
    requires Reachable(s) && Do(s, ByWorkerStep(w, Consume(true))) == Some(t)
    ensures w in s.ctl.workers && s.ctl.workers[w].chan.Some?
    ensures var c := s.ctl.workers[w].chan.value;
      && c in s.brk.channels && c in t.brk.channels
      && (!s.brk.channels[c].ended ==> Subscribed(t.brk.channels[c], s.ctl.workers[w].key))
  {
    ReachableSetUp(s, w);
  }

  /** A worker gives up its stream exactly when the broker has ended it and every copy of it is taken. */
  lemma StreamEndsIff(s: State, w: nat)
    requires Reachable(s) && w in s.ctl.workers && s.ctl.workers[w].pc.Selecting?
    ensures var wk := s.ctl.workers[w];
      && wk.chan.Some? && wk.chan.value in s.brk.channels
      && (Do(s, ByWorkerStep(w, StreamEnded)).Some? <==>
           s.brk.channels[wk.chan.value].ended && s.brk.channels[wk.chan.value].stream == [])
  {
    ReachableSetUp(s, w);
  }

  /** A worker whose declaration deletes its queue loses every copy that was ready or unsettled there. */
  lemma RedeclaringLoses(s: State, w: nat, ok: bool, declared: bool, t: State, m: nat)
    requires Reachable(s) && Do(s, ByWorkerStep(w, ConsumerSystem.DeclareQueue(ok, true, declared))) == Some(t)
    requires OfQueue(s.brk, s.ctl.workers[w].key, m) && m !in s.brk.acked
    requires s.ctl.workers[w].key in s.brk.queues
    ensures m in t.brk.dropped && !Delivery.ReadySomewhere(t.brk, m) && !Delivery.UnsettledSomewhere(t.brk, m)
  {
    var next := Continuations.Extend(s, ByWorkerStep(w, ConsumerSystem.DeclareQueue(ok, true, declared)));
    DeliveriesConserved(t);
    ReachableControl(s);
    RedeclaredDrops(s.brk, s.ctl.workers[w].key, declared, m);
    DroppedIsNowhere(t.brk, m);
  }

  lemma RedeclaredDrops(b: Delivery.Broker, q: string, declared: bool, m: nat)
    requires OfQueue(b, q, m) && q in b.queues && m !in b.acked
    ensures m in Redeclared(b, q, true, declared).dropped
  {
  }

  lemma DroppedIsNowhere(b: Delivery.Broker, m: nat)
    requires Delivery.Conserved(b) && m in b.dropped
    ensures !Delivery.ReadySomewhere(b, m) && !Delivery.UnsettledSomewhere(b, m)
  {
  }

  lemma Takes(s: State, w: nat) returns (t: State)
    requires w in s.ctl.workers && s.ctl.workers[w].pc.Selecting?
    requires var wk := s.ctl.workers[w];
      wk.chan.Some? && wk.chan.value in s.brk.channels && s.brk.channels[wk.chan.value].stream != []
    ensures Do(s, ByWorkerStep(w, TakeDelivery)) == Some(t) && t.brk.dropped == s.brk.dropped
    ensures var c := s.ctl.workers[w].chan.value;
      && w in t.ctl.workers && t.ctl.workers[w] == s.ctl.workers[w].(pc := Handling(s.brk.channels[c].stream[0]))
      && c in t.brk.channels && t.brk.channels[c].open == s.brk.channels[c].open
  {
    t := Do(s, ByWorkerStep(w, TakeDelivery)).value;
  }

  lemma Processes(s: State, w: nat, m: nat, ok: bool) returns (t: State)
    requires w in s.ctl.workers && s.ctl.workers[w].pc == Handling(m)
    ensures Do(s, ByWorkerStep(w, Process(ok))) == Some(t) && t.brk == s.brk
    ensures w in t.ctl.workers && t.ctl.workers[w] == s.ctl.workers[w].(pc := ConsumerSystem.Settling(m, ok))
  {
    t := Do(s, ByWorkerStep(w, Process(ok))).value;
  }

  lemma SettleEndsInLoop(s: State, w: nat, t: State)
    requires Do(s, ByWorkerStep(w, Settle(true))) == Some(t)
    ensures w in t.ctl.workers && t.ctl.workers[w].pc.LoopCheck?
  {
  }

  // ---- leaving -----------------------------------------------------------------------------

  /** How far a worker that was told to leave has still to go. */
  function ToGo(pc: Pc): nat {
    match pc
    case ExitPut => 4
    case ExitSend => 3
    case Removing => 2
    case Closing => 1
    case _ => 0
  }

  /** A worker that takes a command is told to leave. */
  lemma CommandIsExit(s: State, w: nat, t: State)
    requires Reachable(s) && Do(s, ByWorkerStep(w, TakeCommand)) == Some(t)
    ensures w in t.ctl.workers && t.ctl.workers[w].told && t.ctl.workers[w].pc.ExitPut?
  {
    ReachableControl(s);
  }

  /** The step a leaving worker takes next. */
  function NextLeaving(pc: Pc): WorkerStep {
    match pc
    case ExitPut => ReturnConn(false)
    case ExitSend => SendExitOk
    case Removing => Remove
    case _ => CloseChannel
  }

  /** A worker that was told can always go on leaving, and does nothing else: it gives back its connection,
      answers, removes its entry and closes its channel. */
  lemma ToldWorkerLeaves(s: State, w: nat)
    requires Reachable(s) && w in s.ctl.workers && s.ctl.workers[w].told
    ensures Leaving(s.ctl.workers[w].pc)
    ensures !s.ctl.workers[w].pc.Done? ==> Do(s, ByWorkerStep(w, NextLeaving(s.ctl.workers[w].pc))).Some?
  {
    ReachableHands(s);
    assert Own(s.ctl.workers[w], s.brk);
    match s.ctl.workers[w].pc {
      case ExitPut => WorkerMayPut(s, w);
      case ExitSend => ExitOkNeverBlocks(s, w);
      case _ => EndIsPossible(s, w);
    }
  }

  lemma EndIsPossible(s: State, w: nat)
    requires w in s.ctl.workers && Own(s.ctl.workers[w], s.brk)
    ensures s.ctl.workers[w].pc.Removing? ==> Do(s, ByWorkerStep(w, Remove)).Some?
    ensures s.ctl.workers[w].pc.Closing? ==> Do(s, ByWorkerStep(w, CloseChannel)).Some?
  {
  }

  /** The moves of a leaving worker. */
  predicate LeavingTurn(p: Pc, q: Pc) {
    || (p.ExitPut? && q.ExitSend?) || (p.ExitSend? && q.Removing?) || (p.Removing? && q.Closing?)
    || (p.Closing? && q.Done?)
  }

  lemma LeavingGetsOn(s: State, w: nat, st: WorkerStep, t: State)
    requires w in s.ctl.workers && Leaving(s.ctl.workers[w].pc) && Do(s, ByWorkerStep(w, st)) == Some(t)
    ensures w in t.ctl.workers && LeavingTurn(s.ctl.workers[w].pc, t.ctl.workers[w].pc)
    ensures ToGo(t.ctl.workers[w].pc) == ToGo(s.ctl.workers[w].pc) - 1
  {
    WorkerGetsOn(s, w, st, t);
  }

  lemma WorkerGetsOn(s: State, w: nat, st: WorkerStep, t: State)
    requires w in s.ctl.workers && Leaving(s.ctl.workers[w].pc) && DoWorker(s, w, st) == Some(t)
    ensures w in t.ctl.workers && LeavingTurn(s.ctl.workers[w].pc, t.ctl.workers[w].pc)
  {
    if DoTable(s, w, st) == Some(t) {
      TableGetsOn(s, w, st, t);
    } else if DoPool(s, w, st) == Some(t) {
      PoolGetsOn(s, w, st, t);
    } else if DoSignal(s, w, st) == Some(t) {
      SignalGetsOn(s, w, st, t);
    } else {
      BrokerGetsOn(s, w, st, t);
    }
  }

  lemma TableGetsOn(s: State, w: nat, st: WorkerStep, t: State)
    requires w in s.ctl.workers && Leaving(s.ctl.workers[w].pc) && DoTable(s, w, st) == Some(t)
    ensures w in t.ctl.workers && LeavingTurn(s.ctl.workers[w].pc, t.ctl.workers[w].pc)
  {
    TableStepTurns(s, w, st, t);
  }

  lemma PoolGetsOn(s: State, w: nat, st: WorkerStep, t: State)
    requires w in s.ctl.workers && Leaving(s.ctl.workers[w].pc) && DoPool(s, w, st) == Some(t)
    ensures w in t.ctl.workers && LeavingTurn(s.ctl.workers[w].pc, t.ctl.workers[w].pc)
  {
    PoolStepMoves(s, w, st, t);
  }

  lemma SignalGetsOn(s: State, w: nat, st: WorkerStep, t: State)
    requires w in s.ctl.workers && Leaving(s.ctl.workers[w].pc) && DoSignal(s, w, st) == Some(t)
    ensures w in t.ctl.workers && LeavingTurn(s.ctl.workers[w].pc, t.ctl.workers[w].pc)
  {
  }

  lemma BrokerGetsOn(s: State, w: nat, st: WorkerStep, t: State)
    requires w in s.ctl.workers && Leaving(s.ctl.workers[w].pc) && DoBroker(s, w, st) == Some(t)
    ensures w in t.ctl.workers && LeavingTurn(s.ctl.workers[w].pc, t.ctl.workers[w].pc)
  {
    var e := Effect(t.ctl.workers[w], t.brk);
    if st.TakeDelivery? || st.StreamEnded? || st.Settle? || st.CloseChannel? {
      SettlementShape(s.ctl.workers[w], s.brk, st, e);
    } else {
      LadderHand(s.ctl.workers[w], s.brk, st, e);
    }
  }

  /** The answer to an "exit" is left in the channel made for it. */
  lemma ExitIsAnswered(s: State, w: nat, t: State)
    requires Reachable(s) && Do(s, ByWorkerStep(w, SendExitOk)) == Some(t)
    ensures var b := s.ctl.workers[w].item.box;
      && b in t.ctl.boxes && t.ctl.boxes[b].owner == s.ctl.workers[w].key && t.ctl.boxes[b].write == Some("exit_ok")
  {
    ReachableControl(s);
  }

  /** A worker that is gone holds no connection and nothing in hand; its channel is closed, and no copy is
      unsettled on it. */
  lemma GoneWorkerLeavesNothing(s: State, w: nat)
    requires Reachable(s) && w in s.ctl.workers && s.ctl.workers[w].pc.Done?
    ensures HeldBy(s.pool, w) == {} && Hand(s.ctl.workers[w].pc).None?
    ensures var wk := s.ctl.workers[w];
      wk.chan.Some? ==>
        && wk.chan.value in s.brk.channels && !s.brk.channels[wk.chan.value].open
        && s.brk.channels[wk.chan.value].unsettled == {}
  {
    ReachableHands(s);
    assert Own(s.ctl.workers[w], s.brk);
    OneConnectionPerWorker(s, w);
    NothingHeld(HeldBy(s.pool, w));
  }

  lemma NothingHeld(held: set<nat>)
    requires |held| == 0
    ensures held == {}
  {
  }
}
