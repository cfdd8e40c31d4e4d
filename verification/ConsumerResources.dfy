/**
 The rest of the invariant of ConsumerSystem: the pairing of commands and answers
 (message.go:358-374, 449, 611-629), the leases of pooled connections (message.go:499-583) and
 the settling of deliveries (message.go:546-606).
 */
module ConsumerResources {
  import opened Wrappers
  import opened PoolLedger
  import opened ConsumerSystem
  import opened ConsumerControl
  import Delivery

  // ---- commands and answers ------------------------------------------------------------

  predicate Matches(cmd: Command, r: Reply) {
    if cmd.action == "status" then r.LastTime? else r.Completed?
  }

  /** The command is in the manager's inbox, or being executed, or answered: in exactly one of them. */
  ghost predicate InFlight(c: Control, cmd: Command) {
    || (c.inbox == Some(cmd) && c.mgr.Idle? && c.outbox.None?)
    || (c.inbox.None? && !c.mgr.Idle? && c.mgr.command == cmd && c.outbox.None?)
    || (c.inbox.None? && c.mgr.Idle? && c.outbox.Some? && c.outbox.value.command == cmd)
  }

  ghost predicate Paired(c: Control) {
    && (c.holder.Some? ==> c.apiUp)
    && (forall u :: u in c.awaiting ==> (if c.apiUp then c.holder == Some(u) else u == MAIN))
    && (forall u :: u in c.awaiting ==> InFlight(c, c.awaiting[u]) && Known(c.awaiting[u].action))
    && (c.awaiting == map[] ==> c.inbox.None? && c.mgr.Idle? && c.outbox.None?)
    && (c.outbox.Some? ==> Matches(c.outbox.value.command, c.outbox.value.reply))
    && (c.mgr.Respond? ==> Matches(c.mgr.command, c.mgr.reply))
  }

  lemma CallerKeepsPaired(c: Control, st: CallerStep, d: Control)
    requires Paired(c) && DoCaller(c, st) == Some(d)
    ensures Paired(d)
  {
    match st {
      case Notify(u, action, m, con) =>
        if Known(action) {
          assert c.awaiting == map[];
        }
      case Collect(u) => assert d.awaiting == map[];
      case _ =>
    }
  }

  lemma ManagerKeepsPaired(c: Control, st: ManagerStep, d: Control)
    requires Paired(c) && DoManager(c, st) == Some(d)
    requires c.mgr.Store? || c.mgr.Touch? || c.mgr.Spawn? ==> c.mgr.command.action == "update"
    requires c.mgr.Signal? ==> c.mgr.command.action == "delete"
    ensures Paired(d)
  {
    if c.awaiting != map[] {
      var u :| u in c.awaiting;
      assert InFlight(c, c.awaiting[u]);
    }
  }

  /** What the manager is doing fits the action of its command. */
  ghost predicate OnTask(m: Manager) {
    && (m.Store? || m.Touch? || m.Spawn? ==> m.command.action == "update")
    && (m.Signal? ==> m.command.action == "delete")
  }

  lemma ManagerKeepsOnTask(c: Control, st: ManagerStep, d: Control)
    requires OnTask(c.mgr) && DoManager(c, st) == Some(d)
    ensures OnTask(d.mgr)
  {
  }

  // ---- leases --------------------------------------------------------------------------

  /** A worker holds exactly one leased connection where it needs one and none elsewhere. */
  ghost predicate Leases(workers: map<nat, Worker>, p: Ledger<Holder>) {
    && Owned(p)
    && (forall w :: w in workers ==> (workers[w].conn.Some? <==> HoldsConn(workers[w].pc)))
    && (forall w :: w in workers && workers[w].conn.Some? ==>
         workers[w].conn.value in p.leased && p.leased[workers[w].conn.value] == ByWorker(w))
    && (forall h, w :: h in p.leased && p.leased[h] == ByWorker(w) ==>
         w in workers && workers[w].conn == Some(h))
  }

  lemma GetKeepsLeases(workers: map<nat, Worker>, p: Ledger<Holder>, w: nat, op: Op<Holder>, worker: Worker)
    requires Leases(workers, p) && w in workers && workers[w].conn.None?
    requires op.Get? && op.user == ByWorker(w) && Enabled(p, op)
    requires worker.conn == match Taken(p, op.skip, op.out) { case Real(h) => Some(h) case _ => None }
    requires worker.conn.Some? <==> HoldsConn(worker.pc)
    ensures Leases(workers[w := worker], Apply(p, op))
  {
    StepKeepsOwned(p, op);
    GetLeases(p, op.user, op.skip, op.out);
    if !op.out.Failed? {
      LeaseToWorker(workers, p, w, Taken(p, op.skip, op.out).id, worker, Apply(p, op));
    }
  }

  lemma LeaseToWorker(workers: map<nat, Worker>, p: Ledger<Holder>, w: nat, h: nat, worker: Worker, q: Ledger<Holder>)
    requires Leases(workers, p) && w in workers && workers[w].conn.None? && h !in p.leased
    requires Owned(q) && q.leased == p.leased[h := ByWorker(w)]
    requires worker.conn == Some(h) && HoldsConn(worker.pc)
    ensures Leases(workers[w := worker], q)
  {
  }

  lemma ReturnFromWorker(workers: map<nat, Worker>, p: Ledger<Holder>, w: nat, worker: Worker, q: Ledger<Holder>)
    requires Leases(workers, p) && w in workers && workers[w].conn.Some?
    requires Owned(q) && q.leased == p.leased - {workers[w].conn.value}
    requires worker.conn.None? && !HoldsConn(worker.pc)
    ensures Leases(workers[w := worker], q)
  {
  }

  lemma PutKeepsLeases(workers: map<nat, Worker>, p: Ledger<Holder>, w: nat, active: bool, worker: Worker)
    requires Leases(workers, p) && w in workers && workers[w].conn.Some?
    requires Enabled(p, Put(ByWorker(w), Real(workers[w].conn.value), active))
    requires worker.conn.None? && !HoldsConn(worker.pc)
    ensures Leases(workers[w := worker], Apply(p, Put(ByWorker(w), Real(workers[w].conn.value), active)))
  {
    var op := Put(ByWorker(w), Real(workers[w].conn.value), active);
    StepKeepsOwned(p, op);
    ReturnFromWorker(workers, p, w, worker, Apply(p, op));
  }

  /** Other users neither take nor give back what a worker holds. */
  lemma UserLeavesWorkersAlone(p: Ledger<Holder>, op: Op<Holder>)
    requires Owned(p) && NotAWorkers(op) && Enabled(p, op)
    ensures forall h, w :: h in p.leased && p.leased[h] == ByWorker(w) ==>
      h in Apply(p, op).leased && Apply(p, op).leased[h] == ByWorker(w)
    ensures forall h, w :: h in Apply(p, op).leased && Apply(p, op).leased[h] == ByWorker(w) ==>
      h in p.leased && p.leased[h] == ByWorker(w)
  {
    if op.Get? && op.out.Found? {
      assert p.idle[op.skip] in p.idle;
    }
  }

  lemma UserKeepsLeases(workers: map<nat, Worker>, p: Ledger<Holder>, op: Op<Holder>)
    requires Leases(workers, p) && NotAWorkers(op) && Enabled(p, op)
    ensures Leases(workers, Apply(p, op))
  {
    StepKeepsOwned(p, op);
    UserLeavesWorkersAlone(p, op);
    SameLeases(workers, p, Apply(p, op));
  }

  lemma SameLeases(workers: map<nat, Worker>, p: Ledger<Holder>, q: Ledger<Holder>)
    requires Leases(workers, p) && Owned(q)
    requires forall h, w :: h in p.leased && p.leased[h] == ByWorker(w) ==> h in q.leased && q.leased[h] == ByWorker(w)
    requires forall h, w :: h in q.leased && q.leased[h] == ByWorker(w) ==> h in p.leased && p.leased[h] == ByWorker(w)
    ensures Leases(workers, q)
  {
  }

  lemma PoolStepKeepsLeases(s: State, w: nat, st: WorkerStep, t: State)
    requires Leases(s.ctl.workers, s.pool) && w in s.ctl.workers && DoPool(s, w, st) == Some(t)
    ensures Leases(t.ctl.workers, t.pool)
  {
    if st.GetConn? {
      GetConnMoves(s, w, st.skip, st.out, t);
      GetKeepsLeases(s.ctl.workers, s.pool, w, Get(ByWorker(w), st.skip, st.out), t.ctl.workers[w]);
    } else if st.GiveUp? || st.ReturnConn? {
      PutConnMoves(s, w, st, t);
      PutKeepsLeases(s.ctl.workers, s.pool, w, st.active, t.ctl.workers[w]);
    }
  }

  lemma GetConnMoves(s: State, w: nat, skip: nat, out: Outcome, t: State)
    requires w in s.ctl.workers && DoPool(s, w, GetConn(skip, out)) == Some(t)
    ensures Enabled(s.pool, Get(ByWorker(w), skip, out)) && t.pool == Apply(s.pool, Get(ByWorker(w), skip, out))
    ensures s.ctl.workers[w].pc.WantConn? && w in t.ctl.workers && t.ctl.workers == s.ctl.workers[w := t.ctl.workers[w]]
    ensures t.ctl.workers[w].pc == if Taken(s.pool, skip, out).Real? then WantChannel else Top
    ensures t.ctl.workers[w].conn ==
      if Taken(s.pool, skip, out).Real? then Some(Taken(s.pool, skip, out).id) else s.ctl.workers[w].conn
  {
  }

  lemma PutConnMoves(s: State, w: nat, st: WorkerStep, t: State)
    requires w in s.ctl.workers && (st.GiveUp? || st.ReturnConn?) && DoPool(s, w, st) == Some(t)
    ensures s.ctl.workers[w].conn.Some?
    ensures var op := Put(ByWorker(w), Real(s.ctl.workers[w].conn.value), st.active);
      Enabled(s.pool, op) && t.pool == Apply(s.pool, op)
    ensures w in t.ctl.workers && t.ctl.workers == s.ctl.workers[w := t.ctl.workers[w]]
    ensures t.ctl.workers[w].conn.None? && !HoldsConn(t.ctl.workers[w].pc)
  {
  }

  lemma MoveKeepsLeases(workers: map<nat, Worker>, p: Ledger<Holder>, w: nat, worker: Worker)
    requires Leases(workers, p) && w in workers
    requires worker.conn == workers[w].conn && (HoldsConn(worker.pc) <==> HoldsConn(workers[w].pc))
    ensures Leases(workers[w := worker], p)
  {
  }

  /** The steps that touch neither the pool nor the broker, seen from the worker that makes them. */
  ghost predicate Aside(s: State, w: nat, t: State) {
    && w in s.ctl.workers && w in t.ctl.workers
    && t.pool == s.pool && t.brk == s.brk
    && t.ctl.workers == s.ctl.workers[w := t.ctl.workers[w]]
    && (var p, q := s.ctl.workers[w], t.ctl.workers[w];
       && q.conn == p.conn && q.chan == p.chan
       && (q.pc.NotFound? || p.pc.NotFound? || q.pc.Panicked? || (HoldsConn(q.pc) <==> HoldsConn(p.pc)))
       && !q.pc.Consuming? && !q.pc.WantChannel? && !q.pc.GivingUp? && !p.pc.WantChannel? && !p.pc.GivingUp?
       && s.ctl.approved <= t.ctl.approved
       && (q.pc.Settling? && q.pc.ok ==> q.pc.copy in t.ctl.approved))
  }

  lemma TableStepMoves(s: State, w: nat, st: WorkerStep, t: State)
    requires w in s.ctl.workers && DoTable(s, w, st) == Some(t)
    ensures w in t.ctl.workers && t.pool == s.pool && t.brk == s.brk
    ensures t.ctl == s.ctl.(workers := s.ctl.workers[w := t.ctl.workers[w]], table := t.ctl.table)
    ensures t.ctl.workers[w] == s.ctl.workers[w].(pc := t.ctl.workers[w].pc, item := t.ctl.workers[w].item)
  {
    match st {
      case Check =>
      case Write(time) =>
      case Remove =>
      case _ =>
    }
  }

  lemma TableStepIsAside(s: State, w: nat, st: WorkerStep, t: State)
    requires w in s.ctl.workers && DoTable(s, w, st) == Some(t)
    ensures Aside(s, w, t)
  {
    TableStepMoves(s, w, st, t);
    TableStepTurns(s, w, st, t);
  }

  /** The moves of a worker between program counters in its table steps. */
  predicate TableTurn(p: Pc, q: Pc) {
    || (p.Top? && (q.TopRead? || q.NotFound?))
    || (p.LoopCheck? && (q.LoopRead? || q.NotFound?))
    || (p.TopRead? && (q.TopWrite? || q.Panicked?))
    || (p.LoopRead? && (q.LoopWrite? || q.Panicked?))
    || (p.TopWrite? && q.WantConn?)
    || (p.LoopWrite? && q.Selecting?)
    || (p.ReadConfig? && (q.DeclaringExchange? || q.Panicked?))
    || (p.NotFound? && q.Removing?)
    || (p.Removing? && q.Closing?)
  }

  lemma TableStepTurns(s: State, w: nat, st: WorkerStep, t: State)
    requires w in s.ctl.workers && DoTable(s, w, st) == Some(t)
    ensures w in t.ctl.workers && TableTurn(s.ctl.workers[w].pc, t.ctl.workers[w].pc)
  {
  }

  lemma TableStepTouchesItsKey(s: State, v: nat, st: WorkerStep, t: State, k: string)
    requires v in s.ctl.workers && DoTable(s, v, st) == Some(t) && s.ctl.workers[v].key != k
    ensures (k in t.ctl.table <==> k in s.ctl.table) && (k in s.ctl.table ==> t.ctl.table[k] == s.ctl.table[k])
  {
  }

  lemma SignalStepIsAside(s: State, w: nat, st: WorkerStep, t: State)
    requires w in s.ctl.workers && DoSignal(s, w, st) == Some(t)
    ensures Aside(s, w, t)
  {
    if st.TakeCommand? {
      TakeCommandIsAside(s, w, t);
    } else if st.SendExitOk? {
      SendExitOkIsAside(s, w, t);
    } else if st.Process? {
      ProcessIsAside(s, w, st.ok, t);
    }
  }

  lemma TakeCommandIsAside(s: State, w: nat, t: State)
    requires w in s.ctl.workers && DoSignal(s, w, TakeCommand) == Some(t)
    ensures Aside(s, w, t)
  {
  }

  lemma SendExitOkIsAside(s: State, w: nat, t: State)
    requires w in s.ctl.workers && DoSignal(s, w, SendExitOk) == Some(t)
    ensures Aside(s, w, t)
  {
  }

  lemma ProcessIsAside(s: State, w: nat, ok: bool, t: State)
    requires w in s.ctl.workers && DoSignal(s, w, Process(ok)) == Some(t)
    ensures Aside(s, w, t)
  {
  }

  lemma BrokerStepKeepsLeases(s: State, w: nat, st: WorkerStep, t: State)
    requires Leases(s.ctl.workers, s.pool) && w in s.ctl.workers && DoBroker(s, w, st) == Some(t)
    ensures Leases(t.ctl.workers, t.pool)
  {
    var e := Effect(t.ctl.workers[w], t.brk);
    if st.TakeDelivery? || st.StreamEnded? || st.Settle? || st.CloseChannel? {
      SettlementMoves(s.ctl.workers[w], s.brk, st, e);
    } else {
      LadderMoves(s.ctl.workers[w], s.brk, st, e);
    }
    MoveKeepsLeases(s.ctl.workers, s.pool, w, e.worker);
  }

  // ---- deliveries ----------------------------------------------------------------------

  /** From the opened AMQP channel on, the ladder has one; it is set up for one delivery before it consumes. */
  ghost predicate SetUp(wk: Worker, b: Delivery.Broker) {
    && (wk.chan.Some? ==> wk.chan.value in b.channels)
    && (HoldsConn(wk.pc) && !wk.pc.WantChannel? && !wk.pc.GivingUp? ==> wk.chan.Some?)
    && (wk.pc.Consuming? ==> b.channels[wk.chan.value].prefetch == 1)
  }

  ghost predicate BrokerInv(b: Delivery.Broker) {
    Delivery.Conserved(b) && Delivery.OneUnsettled(b)
  }

  /** Acknowledged copies were all processed successfully. */
  ghost predicate Settled(workers: map<nat, Worker>, approved: set<nat>, b: Delivery.Broker) {
    && BrokerInv(b)
    && b.acked <= approved
    && (forall w :: w in workers ==> SetUp(workers[w], b))
    && (forall w :: w in workers && workers[w].pc.Settling? && workers[w].pc.ok ==> workers[w].pc.copy in approved)
  }

  /** Broker changes that leave every channel in place and set up as it was. */
  ghost predicate Keeps(b: Delivery.Broker, b': Delivery.Broker) {
    forall c :: c in b.channels ==>
      c in b'.channels && (b.channels[c].prefetch == 1 ==> b'.channels[c].prefetch == 1)
  }

  lemma EventKeepsBrokerInv(b: Delivery.Broker, e: Delivery.Event)
    requires BrokerInv(b) && Delivery.Enabled(b, e)
    requires e.Qos? ==> e.prefetch == 1
    requires e.Consume? ==> b.channels[e.channel].prefetch == 1
    ensures BrokerInv(Delivery.Apply(b, e)) && Keeps(b, Delivery.Apply(b, e))
    ensures Delivery.Apply(b, e).acked == if e.Ack? then b.acked + {e.copy} else b.acked
  {
    Delivery.EventConserves(b, e);
    Delivery.EventKeepsOneUnsettled(b, e);
    EventKeepsChannels(b, e);
  }

  lemma EventKeepsChannels(b: Delivery.Broker, e: Delivery.Event)
    requires Delivery.Enabled(b, e) && (e.Qos? ==> e.prefetch == 1)
    ensures Keeps(b, Delivery.Apply(b, e))
    ensures Delivery.Apply(b, e).acked == if e.Ack? then b.acked + {e.copy} else b.acked
  {
  }

  lemma RedeclaredKeepsBrokerInv(b: Delivery.Broker, q: string, deleted: bool, declared: bool)
    requires BrokerInv(b)
    ensures BrokerInv(Redeclared(b, q, deleted, declared)) && Keeps(b, Redeclared(b, q, deleted, declared))
    ensures Redeclared(b, q, deleted, declared).acked == b.acked
  {
    var b1 := if deleted then Delivery.Apply(b, Delivery.DeleteQueue(q)) else b;
    if deleted { EventKeepsBrokerInv(b, Delivery.DeleteQueue(q)); }
    if declared { EventKeepsBrokerInv(b1, Delivery.DeclareQueue(q)); }
  }

  lemma LadderSettles(wk: Worker, b: Delivery.Broker, st: WorkerStep, e: Effect)
    requires BrokerInv(b) && SetUp(wk, b) && Ladder(wk, b, st) == Some(e)
    ensures BrokerInv(e.brk) && Keeps(b, e.brk) && e.brk.acked == b.acked
    ensures SetUp(e.worker, e.brk) && !e.worker.pc.Settling?
  {
    match st {
      case OpenChannel(ok, c) => if ok { EventKeepsBrokerInv(b, Delivery.OpenChannel(c)); }
      case DeclareQueue(ok, deleted, declared) => RedeclaredKeepsBrokerInv(b, ItemKey(wk.item), deleted, declared);
      case SetQos(ok) => if ok { EventKeepsBrokerInv(b, Delivery.Qos(wk.chan.value, 1)); }
      case Consume(ok) => if ok { EventKeepsBrokerInv(b, Delivery.Consume(wk.chan.value, wk.key)); }
      case _ =>
    }
  }

  lemma SettlementSettles(wk: Worker, b: Delivery.Broker, st: WorkerStep, e: Effect)
    requires BrokerInv(b) && SetUp(wk, b) && Settlement(wk, b, st) == Some(e)
    ensures BrokerInv(e.brk) && Keeps(b, e.brk)
    ensures e.brk.acked <= b.acked + (if wk.pc.Settling? && wk.pc.ok then {wk.pc.copy} else {})
    ensures SetUp(e.worker, e.brk) && !e.worker.pc.Settling?
  {
    match st {
      case TakeDelivery => EventKeepsBrokerInv(b, Delivery.Receive(wk.chan.value));
      case Settle(applied) =>
        if applied {
          EventKeepsBrokerInv(b, if wk.pc.ok then Delivery.Ack(wk.chan.value, wk.pc.copy)
                                 else Delivery.Requeue(wk.chan.value, wk.pc.copy));
        }
      case CloseChannel => if wk.chan.Some? { EventKeepsBrokerInv(b, Delivery.CloseChannel(wk.chan.value)); }
      case _ =>
    }
  }

  lemma BrokerStepKeepsSettled(s: State, w: nat, st: WorkerStep, t: State)
    requires Settled(s.ctl.workers, s.ctl.approved, s.brk) && w in s.ctl.workers && DoBroker(s, w, st) == Some(t)
    ensures Settled(t.ctl.workers, t.ctl.approved, t.brk)
  {
    var e := Effect(t.ctl.workers[w], t.brk);
    if st.TakeDelivery? || st.StreamEnded? || st.Settle? || st.CloseChannel? {
      SettlementSettles(s.ctl.workers[w], s.brk, st, e);
    } else {
      LadderSettles(s.ctl.workers[w], s.brk, st, e);
    }
    ChangeKeepsSettled(s.ctl.workers, s.ctl.approved, s.brk, w, e.worker, e.brk);
    assert t.ctl.workers == s.ctl.workers[w := e.worker];
  }

  lemma ChangeKeepsSettled(workers: map<nat, Worker>, approved: set<nat>, b: Delivery.Broker, w: nat, worker: Worker,
                           b': Delivery.Broker)
    requires Settled(workers, approved, b) && w in workers
    requires BrokerInv(b') && Keeps(b, b') && b'.acked <= approved
    requires SetUp(worker, b') && (worker.pc.Settling? && worker.pc.ok ==> worker.pc.copy in approved)
    ensures Settled(workers[w := worker], approved, b')
  {
    var after := workers[w := worker];
    forall v | v in after ensures SetUp(after[v], b') {
      assert v != w ==> SetUp(workers[v], b);
    }
  }

  lemma OutsideKeepsSettled(workers: map<nat, Worker>, approved: set<nat>, b: Delivery.Broker, e: Delivery.Event)
    requires Settled(workers, approved, b) && Outside(e) && Delivery.Enabled(b, e)
    ensures Settled(workers, approved, Delivery.Apply(b, e))
  {
    EventKeepsBrokerInv(b, e);
    var b' := Delivery.Apply(b, e);
    forall v | v in workers ensures SetUp(workers[v], b') {
      assert SetUp(workers[v], b);
    }
  }

  /** Steps away from the broker, and the pool calls. */
  lemma AsideKeepsSettled(s: State, w: nat, t: State)
    requires Settled(s.ctl.workers, s.ctl.approved, s.brk) && Aside(s, w, t)
    requires !t.ctl.workers[w].pc.NotFound? && !t.ctl.workers[w].pc.Panicked? && !s.ctl.workers[w].pc.NotFound?
    ensures Settled(t.ctl.workers, t.ctl.approved, t.brk)
  {
    assert SetUp(s.ctl.workers[w], s.brk);
  }

  lemma PoolStepKeepsSettled(s: State, w: nat, st: WorkerStep, t: State)
    requires Settled(s.ctl.workers, s.ctl.approved, s.brk) && w in s.ctl.workers && DoPool(s, w, st) == Some(t)
    ensures Settled(t.ctl.workers, t.ctl.approved, t.brk)
  {
    PoolStepMoves(s, w, st, t);
    ChangeKeepsSettled(s.ctl.workers, s.ctl.approved, s.brk, w, t.ctl.workers[w], s.brk);
  }

  // ---- the invariant over whole runs ---------------------------------------------------

  ghost predicate Inv(s: State) {
    && ControlInv(s.ctl)
    && Paired(s.ctl) && OnTask(s.ctl.mgr)
    && Leases(s.ctl.workers, s.pool)
    && Settled(s.ctl.workers, s.ctl.approved, s.brk)
  }

  lemma InitEstablishesInv(s: State)
    requires Init(s)
    ensures Inv(s)
  {
  }

  /** A worker step leaves the manager, the callers and both of the manager's channels alone. */
  ghost predicate OnlyWorker(c: Control, d: Control) {
    d == c.(workers := d.workers, table := d.table, boxes := d.boxes, approved := d.approved)
  }

  lemma TableStepOnlyWorker(s: State, w: nat, st: WorkerStep, t: State)
    requires w in s.ctl.workers && DoTable(s, w, st) == Some(t)
    ensures OnlyWorker(s.ctl, t.ctl)
  {
  }

  lemma WorkerStepOnlyWorker(s: State, w: nat, st: WorkerStep, t: State)
    requires w in s.ctl.workers && DoWorker(s, w, st) == Some(t)
    requires DoTable(s, w, st) != Some(t)
    ensures OnlyWorker(s.ctl, t.ctl)
    ensures DoPool(s, w, st) == Some(t) || DoBroker(s, w, st) == Some(t) || DoSignal(s, w, st) == Some(t)
  {
    if DoPool(s, w, st) == Some(t) {
      PoolStepMoves(s, w, st, t);
    }
  }

  lemma WorkerStepKeepsResources(s: State, w: nat, st: WorkerStep, t: State)
    requires Leases(s.ctl.workers, s.pool) && Settled(s.ctl.workers, s.ctl.approved, s.brk)
    requires ControlInv(s.ctl) && ControlInv(t.ctl)
    requires w in s.ctl.workers
    requires DoTable(s, w, st) == Some(t) || DoPool(s, w, st) == Some(t) || DoSignal(s, w, st) == Some(t)
        || DoBroker(s, w, st) == Some(t)
    ensures Leases(t.ctl.workers, t.pool) && Settled(t.ctl.workers, t.ctl.approved, t.brk)
  {
    if DoPool(s, w, st) == Some(t) {
      PoolStepKeepsLeases(s, w, st, t);
      PoolStepKeepsSettled(s, w, st, t);
    } else if DoBroker(s, w, st) == Some(t) {
      BrokerStepKeepsLeases(s, w, st, t);
      BrokerStepKeepsSettled(s, w, st, t);
    } else {
      if DoTable(s, w, st) == Some(t) {
        TableStepIsAside(s, w, st, t);
      } else {
        SignalStepIsAside(s, w, st, t);
      }
      AsideKeepsResources(s, w, t);
    }
  }

  lemma AsideKeepsResources(s: State, w: nat, t: State)
    requires Leases(s.ctl.workers, s.pool) && Settled(s.ctl.workers, s.ctl.approved, s.brk)
    requires WorkersInTable(s.ctl) && WorkersInTable(t.ctl) && Aside(s, w, t)
    ensures Leases(t.ctl.workers, t.pool) && Settled(t.ctl.workers, t.ctl.approved, t.brk)
  {
    MoveKeepsLeases(s.ctl.workers, s.pool, w, t.ctl.workers[w]);
    AsideKeepsSettled(s, w, t);
  }

  lemma WorkerStepKeepsInv(s: State, w: nat, st: WorkerStep, t: State)
    requires Inv(s) && w in s.ctl.workers && DoWorker(s, w, st) == Some(t)
    ensures Inv(t)
  {
    WorkerStepKeepsControl(s, w, st, t);
    if DoTable(s, w, st) == Some(t) {
      TableStepOnlyWorker(s, w, st, t);
    } else {
      WorkerStepOnlyWorker(s, w, st, t);
    }
    WorkerStepKeepsResources(s, w, st, t);
    OnlyWorkerKeepsPaired(s.ctl, t.ctl);
  }

  lemma OnlyWorkerKeepsPaired(c: Control, d: Control)
    requires Paired(c) && OnTask(c.mgr) && OnlyWorker(c, d)
    ensures Paired(d) && OnTask(d.mgr)
  {
    forall u | u in d.awaiting ensures InFlight(d, d.awaiting[u]) {
      assert InFlight(c, c.awaiting[u]);
    }
  }

  lemma CallerStepKeepsInv(s: State, cs: CallerStep, t: State)
    requires Inv(s) && Do(s, ByCaller(cs)) == Some(t)
    ensures Inv(t)
  {
    CallerKeepsPaired(s.ctl, cs, t.ctl);
    CallerKeepsControl(s.ctl, cs, t.ctl);
    assert t.ctl.workers == s.ctl.workers && t.ctl.approved == s.ctl.approved && t.ctl.mgr == s.ctl.mgr;
  }

  lemma ManagerStepKeepsInv(s: State, ms: ManagerStep, t: State)
    requires Inv(s) && Do(s, ByManager(ms)) == Some(t)
    ensures Inv(t)
  {
    StepKeepsControl(s, ByManager(ms), t);
    ManagerKeepsPaired(s.ctl, ms, t.ctl);
    ManagerKeepsOnTask(s.ctl, ms, t.ctl);
    ManagerAddsWorkers(s.ctl, ms, t.ctl);
    NewWorkersKeepInv(s, t);
  }

  /** The manager only adds workers, at the top of their ladder. */
  lemma ManagerAddsWorkers(c: Control, ms: ManagerStep, d: Control)
    requires DoManager(c, ms) == Some(d)
    ensures forall w :: w in c.workers ==> w in d.workers && d.workers[w] == c.workers[w]
    ensures forall w :: w in d.workers && w !in c.workers ==>
      d.workers[w].pc.Top? && d.workers[w].conn.None? && d.workers[w].chan.None?
    ensures d.approved == c.approved
  {
  }

  lemma NewWorkersKeepInv(s: State, t: State)
    requires Leases(s.ctl.workers, s.pool) && Settled(s.ctl.workers, s.ctl.approved, s.brk)
    requires t.pool == s.pool && t.brk == s.brk && t.ctl.approved == s.ctl.approved
    requires forall w :: w in s.ctl.workers ==> w in t.ctl.workers && t.ctl.workers[w] == s.ctl.workers[w]
    requires forall w :: w in t.ctl.workers && w !in s.ctl.workers ==>
      t.ctl.workers[w].pc.Top? && t.ctl.workers[w].conn.None? && t.ctl.workers[w].chan.None?
    ensures Leases(t.ctl.workers, t.pool) && Settled(t.ctl.workers, t.ctl.approved, t.brk)
  {
    forall v | v in t.ctl.workers ensures SetUp(t.ctl.workers[v], t.brk) {
      assert v in s.ctl.workers ==> SetUp(s.ctl.workers[v], s.brk);
    }
  }

  lemma StepKeepsInv(s: State, st: Step, t: State)
    requires Inv(s) && Do(s, st) == Some(t)
    ensures Inv(t)
  {
    match st {
      case ByCaller(cs) => CallerStepKeepsInv(s, cs, t);
      case ByManager(ms) => ManagerStepKeepsInv(s, ms, t);
      case ByWorkerStep(w, ws) => WorkerStepKeepsInv(s, w, ws, t);
      case ByBroker(e) => OutsideKeepsSettled(s.ctl.workers, s.ctl.approved, s.brk, e);
      case ByPoolUser(op) => UserKeepsLeases(s.ctl.workers, s.pool, op);
    }
  }

  lemma {:induction false} RunKeepsInv(states: seq<State>, steps: seq<Step>, i: nat)
    requires ConsumerSystem.Run(states, steps) && i < |states|
    ensures Inv(states[i])
  {
    if i == 0 {
      InitEstablishesInv(states[0]);
    } else {
      RunKeepsInv(states, steps, i - 1);
      assert StepAt(states, steps, i - 1);
      StepKeepsInv(states[i - 1], steps[i - 1], states[i]);
    }
  }
}
