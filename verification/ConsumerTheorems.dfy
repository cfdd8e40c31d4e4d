/** What the invariant of ConsumerSystem means for every reachable state of every run. */
module ConsumerTheorems {
  import opened Wrappers
  import opened PoolLedger
  import opened ConsumerSystem
  import opened ConsumerControl
  import opened ConsumerResources
  import Delivery

  /** A state that some run reaches. */
  ghost predicate Reachable(s: State) {
    exists states, steps :: ConsumerSystem.Run(states, steps) && states[|steps|] == s
  }

  lemma ReachableInv(s: State)
    requires Reachable(s)
    ensures Inv(s)
  {
    var states, steps :| ConsumerSystem.Run(states, steps) && states[|steps|] == s;
    RunKeepsInv(states, steps, |steps|);
  }

  lemma ReachableControl(s: State)
    requires Reachable(s)
    ensures ControlInv(s.ctl)
  {
    ReachableInv(s);
  }

  lemma ReachablePairs(s: State)
    requires Reachable(s)
    ensures Paired(s.ctl)
  {
    ReachableInv(s);
  }

  lemma ReachableLeases(s: State)
    requires Reachable(s)
    ensures Leases(s.ctl.workers, s.pool)
  {
    ReachableInv(s);
  }

  // ---- workers and the table -----------------------------------------------------------

  /** At most one live worker per key, and its key is in the table. */
  lemma OneLiveWorkerPerKey(s: State, w: nat, v: nat, k: string)
    requires Reachable(s) && LiveWorker(s.ctl, w, k) && LiveWorker(s.ctl, v, k)
    ensures w == v && k in s.ctl.table
  {
    ReachableControl(s);
  }

  /** A worker is started only when its key has no live worker, and then it is the only one. */
  lemma StartedOnlyWhenNoneLives(s: State, w: nat, t: State)
    requires Reachable(s) && Do(s, ByManager(Start(w))) == Some(t)
    ensures forall v :: !LiveWorker(s.ctl, v, KeyOf(s.ctl.mgr.command))
    ensures forall v :: LiveWorker(t.ctl, v, KeyOf(s.ctl.mgr.command)) <==> v == w
  {
    ReachableControl(s);
    assert forall v :: v != w ==>
      (LiveWorker(t.ctl, v, KeyOf(s.ctl.mgr.command)) <==> LiveWorker(s.ctl, v, KeyOf(s.ctl.mgr.command)));
  }

  /** An entry leaves the table only through the worker of that key, which was told to exit. */
  lemma RemovedOnlyByItsWorker(s: State, st: Step, t: State, k: string)
    requires Reachable(s) && Do(s, st) == Some(t) && k in s.ctl.table && k !in t.ctl.table
    ensures st.ByWorkerStep? && st.worker.Remove?
    ensures LiveWorker(s.ctl, st.w, k) && s.ctl.workers[st.w].told
  {
    OnlyRemoveShrinksTable(s, st, t, k);
    ReachableControl(s);
  }

  lemma OnlyRemoveShrinksTable(s: State, st: Step, t: State, k: string)
    requires Do(s, st) == Some(t) && k in s.ctl.table && k !in t.ctl.table
    ensures st.ByWorkerStep? && st.worker.Remove? && LiveWorker(s.ctl, st.w, k) && Leaving(s.ctl.workers[st.w].pc)
  {
    if st.ByWorkerStep? {
      if DoTable(s, st.w, st.worker) == Some(t) {
        TableStepShrinksTable(s, st.w, st.worker, t, k);
      } else {
        WorkerStepKeepsTable(s, st.w, st.worker, t);
      }
    } else {
      OtherStepKeepsTable(s, st, t, k);
    }
  }

  lemma OtherStepKeepsTable(s: State, st: Step, t: State, k: string)
    requires Do(s, st) == Some(t) && !st.ByWorkerStep? && k in s.ctl.table
    ensures k in t.ctl.table
  {
    if st.ByCaller? {
      CallerMoves(s.ctl, st.caller, t.ctl);
    } else if st.ByManager? {
      ManagerKeepsTable(s.ctl, st.manager, t.ctl);
    }
  }

  lemma ManagerKeepsTable(c: Control, ms: ManagerStep, d: Control)
    requires DoManager(c, ms) == Some(d)
    ensures c.table.Keys <= d.table.Keys
  {
  }

  lemma TableStepShrinksTable(s: State, w: nat, st: WorkerStep, t: State, k: string)
    requires w in s.ctl.workers && DoTable(s, w, st) == Some(t) && k in s.ctl.table && k !in t.ctl.table
    ensures st.Remove? && LiveWorker(s.ctl, w, k) && Leaving(s.ctl.workers[w].pc)
  {
  }

  lemma WorkerStepKeepsTable(s: State, w: nat, st: WorkerStep, t: State)
    requires w in s.ctl.workers && DoWorker(s, w, st) == Some(t) && DoTable(s, w, st) != Some(t)
    ensures t.ctl.table == s.ctl.table
  {
    if DoPool(s, w, st) == Some(t) {
      PoolStepMoves(s, w, st, t);
    }
  }

  /** Table reads never fail: no worker takes a "not found" branch or a failed type assertion,
      so a worker leaves only after the "exit" command. */
  lemma WorkersLeaveOnlyWhenTold(s: State, w: nat)
    requires Reachable(s) && w in s.ctl.workers
    ensures !s.ctl.workers[w].pc.NotFound? && !s.ctl.workers[w].pc.Panicked?
    ensures Leaving(s.ctl.workers[w].pc) ==> s.ctl.workers[w].told
  {
    ReachableControl(s);
  }

  /** A worker is told once, by a command it took from its own control channel. */
  lemma ToldByExitCommand(s: State, w: nat, st: Step, t: State)
    requires Reachable(s) && Do(s, st) == Some(t)
    requires w in s.ctl.workers && w in t.ctl.workers && !s.ctl.workers[w].told && t.ctl.workers[w].told
    ensures st == ByWorkerStep(w, TakeCommand) && s.ctl.workers[w].item.box in s.ctl.boxes
    ensures s.ctl.boxes[s.ctl.workers[w].item.box].owner == s.ctl.workers[w].key
    ensures s.ctl.boxes[s.ctl.workers[w].item.box].read == Some("exit")
  {
    OnlyTakeCommandTells(s, w, st, t);
    ReachableControl(s);
  }

  lemma OnlyTakeCommandTells(s: State, w: nat, st: Step, t: State)
    requires Do(s, st) == Some(t)
    requires w in s.ctl.workers && w in t.ctl.workers && !s.ctl.workers[w].told && t.ctl.workers[w].told
    ensures st == ByWorkerStep(w, TakeCommand) && s.ctl.workers[w].pc.Selecting?
    ensures s.ctl.workers[w].item.box in s.ctl.boxes
    ensures s.ctl.boxes[s.ctl.workers[w].item.box].read == Some("exit")
  {
    match st {
      case ByWorkerStep(v, ws) => WorkerStepTells(s, v, ws, w, t);
      case ByManager(ms) => ManagerAddsWorkers(s.ctl, ms, t.ctl);
      case _ =>
    }
  }

  lemma WorkerStepTells(s: State, v: nat, st: WorkerStep, w: nat, t: State)
    requires v in s.ctl.workers && DoWorker(s, v, st) == Some(t)
    requires w in s.ctl.workers && w in t.ctl.workers && !s.ctl.workers[w].told && t.ctl.workers[w].told
    ensures v == w && st.TakeCommand? && DoSignal(s, w, st) == Some(t)
  {
    if DoTable(s, v, st) == Some(t) {
      TableStepMoves(s, v, st, t);
    } else if DoPool(s, v, st) == Some(t) {
      PoolStepMoves(s, v, st, t);
    } else if DoBroker(s, v, st) == Some(t) {
      BrokerStepMoves(s, v, st, t);
    }
  }

  lemma BrokerStepMoves(s: State, w: nat, st: WorkerStep, t: State)
    requires w in s.ctl.workers && DoBroker(s, w, st) == Some(t)
    ensures t.ctl == s.ctl.(workers := s.ctl.workers[w := t.ctl.workers[w]])
    ensures t.ctl.workers[w].told == s.ctl.workers[w].told
  {
    var e := Effect(t.ctl.workers[w], t.brk);
    if st.TakeDelivery? || st.StreamEnded? || st.Settle? || st.CloseChannel? {
      SettlementMoves(s.ctl.workers[w], s.brk, st, e);
    } else {
      LadderMoves(s.ctl.workers[w], s.brk, st, e);
    }
  }

  /** The "exit_ok" send never blocks. */
  lemma ExitOkNeverBlocks(s: State, w: nat)
    requires Reachable(s) && w in s.ctl.workers && s.ctl.workers[w].pc.ExitSend?
    ensures Do(s, ByWorkerStep(w, SendExitOk)).Some?
  {
    ReachableControl(s);
    assert Owes(s.ctl, w, s.ctl.workers[w].key);
  }

  // ---- connections ---------------------------------------------------------------------

  ghost function HeldBy(p: Ledger<Holder>, w: nat): set<nat> {
    set h | h in p.leased && p.leased[h] == ByWorker(w)
  }

  /** One leased connection while a worker needs one, none at the top of a retry and none when it
      is gone; a leased connection has never been released. */
  lemma OneConnectionPerWorker(s: State, w: nat)
    requires Reachable(s) && w in s.ctl.workers
    ensures |HeldBy(s.pool, w)| == if HoldsConn(s.ctl.workers[w].pc) then 1 else 0
    ensures forall h :: h in HeldBy(s.pool, w) ==> h in s.pool.releases && s.pool.releases[h] == 0
  {
    ReachableLeases(s);
    var wk := s.ctl.workers[w];
    assert HeldBy(s.pool, w) == if HoldsConn(wk.pc) then {wk.conn.value} else {};
  }

  /** A worker gives back only what it holds, so its Put is always within the pool's contract. */
  lemma WorkerMayPut(s: State, w: nat)
    requires Reachable(s) && w in s.ctl.workers
    ensures s.ctl.workers[w].pc.GivingUp? ==> Do(s, ByWorkerStep(w, GiveUp(false))).Some?
    ensures s.ctl.workers[w].pc.ExitPut? ==> Do(s, ByWorkerStep(w, ReturnConn(false))).Some?
  {
    ReachableLeases(s);
  }

  // ---- commands and answers ------------------------------------------------------------

  /** At most one caller waits; the answer it collects is the answer to its own command. */
  lemma AnswersArePaired(s: State, u: nat, v: nat)
    requires Reachable(s) && u in s.ctl.awaiting && v in s.ctl.awaiting
    ensures u == v
    ensures s.ctl.outbox.Some? ==>
      s.ctl.outbox.value.command == s.ctl.awaiting[u] && Matches(s.ctl.awaiting[u], s.ctl.outbox.value.reply)
  {
    ReachablePairs(s);
    assert InFlight(s.ctl, s.ctl.awaiting[u]);
  }

  /** A caller that may call never blocks on its send, and the manager never blocks on its answer. */
  lemma ControlSendsNeverBlock(s: State, u: nat, action: string, m: Config.Header, c: Config.Consumer)
    requires Reachable(s)
    ensures MayCall(s.ctl, u) ==> Do(s, ByCaller(Notify(u, action, m, c))).Some?
    ensures s.ctl.mgr.Respond? ==> Do(s, ByManager(SendAnswer)).Some?
  {
    ReachablePairs(s);
    if MayCall(s.ctl, u) {
      assert s.ctl.awaiting == map[];
    }
    if s.ctl.mgr.Respond? {
      assert s.ctl.awaiting != map[];
      var x :| x in s.ctl.awaiting;
      assert InFlight(s.ctl, s.ctl.awaiting[x]);
    }
  }

  /** The branch for unknown commands is never taken. */
  lemma NoUnknownCommand(s: State)
    requires Reachable(s)
    ensures s.ctl.mgr.Respond? ==> s.ctl.mgr.reply != Unknown
    ensures s.ctl.mgr.Fetch? ==> Known(s.ctl.mgr.command.action)
  {
    ReachablePairs(s);
    if s.ctl.mgr.Fetch? {
      assert s.ctl.awaiting != map[];
      var x :| x in s.ctl.awaiting;
      assert InFlight(s.ctl, s.ctl.awaiting[x]);
    }
  }

  // ---- deliveries ----------------------------------------------------------------------

  /** Every published copy is ready, unsettled, acknowledged or lost with its queue - exactly one of
      these - and an acknowledged copy was processed successfully before. */
  lemma DeliveriesConserved(s: State)
    requires Reachable(s)
    ensures Delivery.Conserved(s.brk)
    ensures s.brk.acked <= s.ctl.approved
  {
    ReachableInv(s);
  }

  lemma OneUnsettledPerChannel(s: State, c: nat)
    requires Reachable(s) && c in s.brk.channels
    ensures |s.brk.channels[c].unsettled| <= 1
  {
    ReachableInv(s);
  }

  predicate DeletesQueue(st: Step) {
    || (st.ByBroker? && st.event.DeleteQueue?)
    || (st.ByWorkerStep? && st.worker.DeclareQueue? && st.worker.deleted)
  }

  lemma StepKeepsCopies(s: State, st: Step, t: State)
    requires Do(s, st) == Some(t)
    ensures s.brk.acked <= t.brk.acked
    ensures forall m :: m in s.brk.published ==> m in t.brk.published && t.brk.published[m] == s.brk.published[m]
    ensures !DeletesQueue(st) ==> t.brk.dropped == s.brk.dropped
  {
    if st.ByWorkerStep? {
      WorkerStepKeepsCopies(s, st.w, st.worker, t);
    }
  }

  lemma WorkerStepKeepsCopies(s: State, w: nat, st: WorkerStep, t: State)
    requires w in s.ctl.workers && DoWorker(s, w, st) == Some(t)
    ensures s.brk.acked <= t.brk.acked && t.brk.published == s.brk.published
    ensures !(st.DeclareQueue? && st.deleted) ==> t.brk.dropped == s.brk.dropped
  {
    if DoTable(s, w, st) == Some(t) {
      TableStepMoves(s, w, st, t);
    } else if DoPool(s, w, st) == Some(t) {
      PoolStepMoves(s, w, st, t);
    } else if DoSignal(s, w, st) == Some(t) {
      SignalStepIsAside(s, w, st, t);
    } else if DoBroker(s, w, st) == Some(t) {
      BrokerStepKeepsCopies(s, w, st, t);
    }
  }

  lemma BrokerStepKeepsCopies(s: State, w: nat, st: WorkerStep, t: State)
    requires w in s.ctl.workers && DoBroker(s, w, st) == Some(t)
    ensures s.brk.acked <= t.brk.acked && t.brk.published == s.brk.published
    ensures !(st.DeclareQueue? && st.deleted) ==> t.brk.dropped == s.brk.dropped
  {
    var wk, e := s.ctl.workers[w], Effect(t.ctl.workers[w], t.brk);
    if st.TakeDelivery? || st.StreamEnded? || st.Settle? || st.CloseChannel? {
      SettlementKeepsCopies(wk, s.brk, st, e);
    } else {
      LadderKeepsCopies(wk, s.brk, st, e);
    }
  }

  lemma SettlementKeepsCopies(wk: Worker, b: Delivery.Broker, st: WorkerStep, e: Effect)
    requires Settlement(wk, b, st) == Some(e)
    ensures b.acked <= e.brk.acked && e.brk.published == b.published && e.brk.dropped == b.dropped
  {
  }

  lemma LadderKeepsCopies(wk: Worker, b: Delivery.Broker, st: WorkerStep, e: Effect)
    requires Ladder(wk, b, st) == Some(e)
    ensures e.brk.acked == b.acked && e.brk.published == b.published
    ensures !(st.DeclareQueue? && st.deleted) ==> e.brk.dropped == b.dropped
  {
    if st.DeclareQueue? {
      RedeclaredKeepsCopies(b, ItemKey(wk.item), st.deleted, st.declared);
    }
  }

  lemma RedeclaredKeepsCopies(b: Delivery.Broker, q: string, deleted: bool, declared: bool)
    ensures Redeclared(b, q, deleted, declared).published == b.published
    ensures Redeclared(b, q, deleted, declared).acked == b.acked
    ensures !deleted ==> Redeclared(b, q, deleted, declared).dropped == b.dropped
  {
  }

  /** At-least-once: while no queue is deleted, a copy that is there stays ready or unsettled until it
      has been processed successfully. */
  lemma {:induction false} NothingLostBetweenDeletions(states: seq<State>, steps: seq<Step>, i: nat, j: nat, m: nat)
    requires ConsumerSystem.Run(states, steps) && i <= j < |states|
    requires forall n :: i <= n < j ==> !DeletesQueue(steps[n])
    requires m in states[i].brk.published && m !in states[i].brk.dropped
    ensures m in states[j].brk.published && m !in states[j].brk.dropped
    ensures Delivery.ReadySomewhere(states[j].brk, m) || Delivery.UnsettledSomewhere(states[j].brk, m)
        || m in states[j].ctl.approved
    ensures states[i].brk.acked <= states[j].brk.acked
    decreases j - i
  {
    RunKeepsInv(states, steps, j);
    if i < j {
      assert StepAt(states, steps, i);
      StepKeepsCopies(states[i], steps[i], states[i + 1]);
      NothingLostBetweenDeletions(states, steps, i + 1, j, m);
    }
  }
}
