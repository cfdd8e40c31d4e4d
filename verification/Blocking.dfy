/**
 When the manager waits for good. It sends "exit" to the one-slot channel of a table entry
 (message.go:616); if the slot is full, the send waits for a worker that takes from that very channel.
 The manager can go on exactly when there is a worker that can still do so.
 */
module Blocking {
  import opened Wrappers
  import opened ConsumerSystem
  import opened ConsumerControl
  import opened ConsumerResources
  import opened ConsumerTheorems
  import opened Continuations

  /** The manager is about to send "exit" to control channels `b` of `k`, and the slot is full. */
  predicate Waits(c: Control, k: string, b: nat) {
    && c.mgr.Signal? && KeyOf(c.mgr.command) == k && c.mgr.item.box == b
    && b in c.boxes && c.boxes[b].read.Some?
  }

  /** A worker of `k` that has not been told to leave and can still come to select on channels `b`: it
      will read them from the table, or it holds them in the copy it is about to write back, or it
      selects on them already. */
  ghost predicate CanTake(c: Control, w: nat, k: string, b: nat) {
    && LiveWorker(c, w, k) && !Leaving(c.workers[w].pc)
    && (var wk := c.workers[w];
        if wk.pc.TopWrite? || wk.pc.LoopWrite? then wk.item.box == b
        else (k in c.table && c.table[k].box == b) || (wk.pc.Selecting? && wk.item.box == b))
  }

  ghost predicate Blocked(c: Control, k: string, b: nat) {
    Waits(c, k, b) && forall w :: !CanTake(c, w, k, b)
  }

  // ---- nothing unblocks it -----------------------------------------------------------------

  lemma NoNewTakerByOthers(c: Control, d: Control, w: nat, k: string, b: nat)
    requires SameCore(c, d) && CanTake(d, w, k, b)
    ensures CanTake(c, w, k, b)
  {
  }

  /** A step of one worker leaves the others of a key, and the entry of a key that is not its own. */
  lemma NoNewTakerElsewhere(c: Control, v: nat, d: Control, w: nat, k: string, b: nat)
    requires v in c.workers && v in d.workers && d.workers == c.workers[v := d.workers[v]]
    requires d.workers[v].key == c.workers[v].key && (Live(d.workers[v]) ==> Live(c.workers[v]))
    requires k in d.table ==> k in c.table && d.table[k] == c.table[k]
    requires w != v && CanTake(d, w, k, b)
    ensures CanTake(c, w, k, b)
  {
  }

  lemma TableStepGivesNoTaker(s: State, v: nat, st: WorkerStep, t: State, w: nat, k: string, b: nat)
    requires WorkersInTable(s.ctl) && v in s.ctl.workers && DoTable(s, v, st) == Some(t)
    requires CanTake(t.ctl, w, k, b)
    ensures CanTake(s.ctl, w, k, b)
  {
    TableStepMoves(s, v, st, t);
    TableStepTurns(s, v, st, t);
    if s.ctl.workers[v].key != k {
      TableStepTouchesItsKey(s, v, st, t, k);
      if w != v {
        NoNewTakerElsewhere(s.ctl, v, t.ctl, w, k, b);
      }
    } else {
      assert LiveWorker(s.ctl, v, k) && LiveWorker(s.ctl, w, k);
      TableStepKeepsTaker(s, v, st, t, b);
    }
  }

  lemma TableStepKeepsTaker(s: State, v: nat, st: WorkerStep, t: State, b: nat)
    requires v in s.ctl.workers && DoTable(s, v, st) == Some(t) && CanTake(t.ctl, v, s.ctl.workers[v].key, b)
    requires Live(s.ctl.workers[v])
    ensures CanTake(s.ctl, v, s.ctl.workers[v].key, b)
  {
  }

  /** Away from the table, a worker that can take could take before, whatever its step. */
  ghost predicate Turns(s: State, v: nat, t: State) {
    && v in s.ctl.workers && v in t.ctl.workers
    && t.ctl.workers == s.ctl.workers[v := t.ctl.workers[v]] && t.ctl.table == s.ctl.table
    && (var p, q := s.ctl.workers[v], t.ctl.workers[v];
       && q.key == p.key && (Live(q) ==> Live(p)) && (Leaving(p.pc) ==> Leaving(q.pc))
       && !p.pc.TopWrite? && !p.pc.LoopWrite? && !q.pc.TopWrite? && !q.pc.LoopWrite? && !q.pc.Selecting?)
  }

  lemma TurnsGiveNoTaker(s: State, v: nat, t: State, w: nat, k: string, b: nat)
    requires Turns(s, v, t) && CanTake(t.ctl, w, k, b)
    ensures CanTake(s.ctl, w, k, b)
  {
    if w != v {
      NoNewTakerElsewhere(s.ctl, v, t.ctl, w, k, b);
    }
  }

  lemma PoolStepTurns(s: State, v: nat, st: WorkerStep, t: State)
    requires v in s.ctl.workers && DoPool(s, v, st) == Some(t)
    ensures Turns(s, v, t)
  {
    PoolStepMoves(s, v, st, t);
  }

  lemma SignalStepTurns(s: State, v: nat, st: WorkerStep, t: State)
    requires v in s.ctl.workers && DoSignal(s, v, st) == Some(t)
    ensures Turns(s, v, t)
  {
  }

  lemma LadderTurns(s: State, v: nat, st: WorkerStep, e: Effect)
    requires v in s.ctl.workers && Ladder(s.ctl.workers[v], s.brk, st) == Some(e)
    ensures Turns(s, v, SetWorker(s, v, e.worker))
  {
  }

  lemma SettlementTurns(s: State, v: nat, st: WorkerStep, e: Effect)
    requires v in s.ctl.workers && Settlement(s.ctl.workers[v], s.brk, st) == Some(e)
    ensures Turns(s, v, SetWorker(s, v, e.worker))
  {
  }

  lemma BrokerStepTurns(s: State, v: nat, st: WorkerStep, t: State)
    requires v in s.ctl.workers && DoBroker(s, v, st) == Some(t)
    ensures Turns(s, v, t) && t.ctl.boxes == s.ctl.boxes && t.ctl.mgr == s.ctl.mgr
  {
    var e := Effect(t.ctl.workers[v], t.brk);
    if st.TakeDelivery? || st.StreamEnded? || st.Settle? || st.CloseChannel? {
      SettlementTurns(s, v, st, e);
    } else {
      LadderTurns(s, v, st, e);
    }
  }

  lemma WorkerStepGivesNoTaker(s: State, v: nat, st: WorkerStep, t: State, w: nat, k: string, b: nat)
    requires WorkersInTable(s.ctl) && v in s.ctl.workers && DoWorker(s, v, st) == Some(t)
    requires CanTake(t.ctl, w, k, b)
    ensures CanTake(s.ctl, w, k, b)
  {
    if DoTable(s, v, st) == Some(t) {
      TableStepGivesNoTaker(s, v, st, t, w, k, b);
    } else {
      if DoPool(s, v, st) == Some(t) {
        PoolStepTurns(s, v, st, t);
      } else if DoSignal(s, v, st) == Some(t) {
        SignalStepTurns(s, v, st, t);
      } else {
        BrokerStepTurns(s, v, st, t);
      }
      TurnsGiveNoTaker(s, v, t, w, k, b);
    }
  }

  /** Only a worker that could take takes. */
  lemma WorkerStepKeepsFull(s: State, v: nat, st: WorkerStep, t: State, k: string, b: nat)
    requires ItemsFit(s.ctl) && v in s.ctl.workers && DoWorker(s, v, st) == Some(t)
    requires Blocked(s.ctl, k, b)
    ensures Waits(t.ctl, k, b) && t.ctl.mgr == s.ctl.mgr
  {
    if DoTable(s, v, st) == Some(t) {
      TableStepMoves(s, v, st, t);
    } else if DoPool(s, v, st) == Some(t) {
      PoolStepMoves(s, v, st, t);
    } else if DoSignal(s, v, st) == Some(t) {
      SignalStepKeepsFull(s, v, st, t, k, b);
    } else {
      BrokerStepTurns(s, v, st, t);
    }
  }

  lemma SignalStepKeepsFull(s: State, v: nat, st: WorkerStep, t: State, k: string, b: nat)
    requires ItemsFit(s.ctl) && v in s.ctl.workers && DoSignal(s, v, st) == Some(t)
    requires Blocked(s.ctl, k, b)
    ensures Waits(t.ctl, k, b) && t.ctl.mgr == s.ctl.mgr
  {
    var wk := s.ctl.workers[v];
    if st.TakeCommand? && wk.item.box == b {
      assert ItemFits(s.ctl, wk.key, wk.item) && ItemFits(s.ctl, k, s.ctl.mgr.item);
      assert CanTake(s.ctl, v, k, b);
    }
  }

  lemma ManagerWaits(c: Control, ms: ManagerStep, k: string, b: nat)
    requires Waits(c, k, b)
    ensures DoManager(c, ms).None?
  {
  }

  /** A blocked manager stays blocked and where it is, whatever anybody does. */
  lemma StepKeepsBlocked(s: State, st: Step, t: State, k: string, b: nat)
    requires Inv(s) && Blocked(s.ctl, k, b) && Do(s, st) == Some(t)
    ensures Blocked(t.ctl, k, b) && t.ctl.mgr == s.ctl.mgr
  {
    if st.ByWorkerStep? {
      WorkerStepKeepsFull(s, st.w, st.worker, t, k, b);
      forall w ensures !CanTake(t.ctl, w, k, b) {
        if CanTake(t.ctl, w, k, b) {
          WorkerStepGivesNoTaker(s, st.w, st.worker, t, w, k, b);
        }
      }
    } else if st.ByManager? {
      ManagerWaits(s.ctl, st.manager, k, b);
    } else {
      if st.ByCaller? {
        CallerMoves(s.ctl, st.caller, t.ctl);
      }
      forall w ensures !CanTake(t.ctl, w, k, b) {
        if CanTake(t.ctl, w, k, b) {
          NoNewTakerByOthers(s.ctl, t.ctl, w, k, b);
        }
      }
    }
  }

  lemma {:induction false} BlockedForever(s: State, steps: seq<Step>, t: State, k: string, b: nat)
    requires Inv(s) && Blocked(s.ctl, k, b) && After(s, steps) == Some(t)
    ensures Inv(t) && Blocked(t.ctl, k, b) && t.ctl.mgr == s.ctl.mgr
    decreases |steps|
  {
    if steps != [] {
      var u := After(s, steps[..|steps| - 1]).value;
      BlockedForever(s, steps[..|steps| - 1], u, k, b);
      StepKeepsInv(u, steps[|steps| - 1], t);
      StepKeepsBlocked(u, steps[|steps| - 1], t, k, b);
    }
  }

  // ---- otherwise it can go on ----------------------------------------------------------------

  /** The manager can come to send its "exit". */
  ghost predicate CanGoOn(s: State) {
    exists t :: Leads(s, t) && t.ctl.mgr == s.ctl.mgr && DoManager(t.ctl, SendExit).Some?
  }

  /** A worker that selects on the full channel takes from it. */
  lemma TakerTakes(s: State, w: nat, k: string, b: nat)
    requires Waits(s.ctl, k, b) && w in s.ctl.workers
    requires s.ctl.workers[w].pc.Selecting? && s.ctl.workers[w].item.box == b
    ensures CanGoOn(s)
  {
    var t := DoWorker(s, w, TakeCommand).value;
    LeadsByOne(s, ByWorkerStep(w, TakeCommand), t);
  }

  lemma GoesOnAfter(s: State, t: State)
    requires Leads(s, t) && t.ctl.mgr == s.ctl.mgr && CanGoOn(t)
    ensures CanGoOn(s)
  {
    var u :| Leads(t, u) && u.ctl.mgr == t.ctl.mgr && DoManager(u.ctl, SendExit).Some?;
    LeadsOn(s, t, u);
  }

  /** The worker writes its copy back, or is already past that. */
  lemma TakerWrites(s: State, w: nat, k: string, b: nat) returns (t: State)
    requires Inv(s) && Waits(s.ctl, k, b) && CanTake(s.ctl, w, k, b)
    requires s.ctl.workers[w].pc.TopWrite? || s.ctl.workers[w].pc.LoopWrite?
    ensures Inv(t) && Leads(s, t) && t.ctl.mgr == s.ctl.mgr && Waits(t.ctl, k, b) && CanTake(t.ctl, w, k, b)
    ensures t.ctl.workers[w].pc.WantConn? || t.ctl.workers[w].pc.Selecting?
  {
    t := TakerWrote(s, w, k, b);
    LeadsByOne(s, ByWorkerStep(w, Write(0)), t);
    StepKeepsInv(s, ByWorkerStep(w, Write(0)), t);
  }

  lemma TakerWrote(s: State, w: nat, k: string, b: nat) returns (t: State)
    requires Waits(s.ctl, k, b) && CanTake(s.ctl, w, k, b)
    requires s.ctl.workers[w].pc.TopWrite? || s.ctl.workers[w].pc.LoopWrite?
    ensures Do(s, ByWorkerStep(w, Write(0))) == Some(t) && t.ctl.mgr == s.ctl.mgr
    ensures Waits(t.ctl, k, b) && CanTake(t.ctl, w, k, b)
    ensures t.ctl.workers[w].pc.WantConn? || t.ctl.workers[w].pc.Selecting?
  {
    t := DoWorker(s, w, Write(0)).value;
  }

  lemma ArrivedTaker(s: State, t: State, w: nat, k: string, b: nat)
    requires Waits(s.ctl, k, b) && Arrives(s, t, w, k) && s.ctl.table[k].box == b
    ensures CanGoOn(s)
  {
    TakerTakes(t, w, k, b);
    GoesOnAfter(s, t);
  }

  lemma PastWriteGoesOn(s: State, w: nat, k: string, b: nat)
    requires Inv(s) && Waits(s.ctl, k, b) && CanTake(s.ctl, w, k, b)
    requires !s.ctl.workers[w].pc.TopWrite? && !s.ctl.workers[w].pc.LoopWrite?
    ensures CanGoOn(s)
  {
    if s.ctl.workers[w].pc.Selecting? && s.ctl.workers[w].item.box == b {
      TakerTakes(s, w, k, b);
    } else {
      var t := FromAnywhere(s, w, k);
      ArrivedTaker(s, t, w, k, b);
    }
  }

  lemma TakerGoesOn(s: State, w: nat, k: string, b: nat)
    requires Inv(s) && Waits(s.ctl, k, b) && CanTake(s.ctl, w, k, b)
    ensures CanGoOn(s)
  {
    if s.ctl.workers[w].pc.TopWrite? || s.ctl.workers[w].pc.LoopWrite? {
      var t := TakerWrites(s, w, k, b);
      PastWriteGoesOn(t, w, k, b);
      GoesOnAfter(s, t);
    } else {
      PastWriteGoesOn(s, w, k, b);
    }
  }

  /** A manager about to send "exit" can come to send it, in some continuation, exactly when the slot
      is free or a worker that can take from it is left. */
  lemma CanGoOnIff(s: State)
    requires Reachable(s) && s.ctl.mgr.Signal?
    ensures CanGoOn(s) <==> !Blocked(s.ctl, KeyOf(s.ctl.mgr.command), s.ctl.mgr.item.box)
  {
    ReachableInv(s);
    var k, b := KeyOf(s.ctl.mgr.command), s.ctl.mgr.item.box;
    assert ItemFits(s.ctl, k, s.ctl.mgr.item);
    if !Waits(s.ctl, k, b) {
      LeadsNowhere(s);
    } else if w :| CanTake(s.ctl, w, k, b) {
      TakerGoesOn(s, w, k, b);
    } else if CanGoOn(s) {
      var t :| Leads(s, t) && t.ctl.mgr == s.ctl.mgr && DoManager(t.ctl, SendExit).Some?;
      var steps :| After(s, steps) == Some(t);
      BlockedForever(s, steps, t, k, b);
      ManagerWaits(t.ctl, SendExit, k, b);
    }
  }
}
