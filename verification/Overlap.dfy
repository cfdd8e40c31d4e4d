/**
 The one thing the table does not keep: an entry whose worker is gone. The manager's Get and
 the two Sets that follow it (message.go:459-472) are separate steps, so the worker's Remove
 (message.go:478) can fall between them. An entry without a worker arises from exactly that
 overlap, and it never gets a worker again.
 */
module Overlap {
  import opened Wrappers
  import opened ConsumerSystem
  import opened ConsumerControl
  import opened ConsumerResources
  import opened ConsumerTheorems

  /** The manager has found an entry for `k` and has not written it back for the last time. */
  predicate InWindow(m: Manager, k: string) {
    (m.Touch? || (m.Store? && !m.insert)) && KeyOf(m.command) == k
  }

  ghost predicate NoLive(c: Control, k: string) {
    forall w :: !LiveWorker(c, w, k)
  }

  /** No worker serves `k`, and its entry is there, or is about to be written back. */
  ghost predicate Orphaned(c: Control, k: string) {
    NoLive(c, k) && ((k in c.table && !AboutToStart(c.mgr, k)) || InWindow(c.mgr, k))
  }

  /** The step in which a worker of `k` removes its entry while the manager is writing it back. */
  predicate Overlaps(s: State, st: Step, k: string) {
    && st.ByWorkerStep? && st.worker.Remove?
    && st.w in s.ctl.workers && s.ctl.workers[st.w].key == k
    && InWindow(s.ctl.mgr, k)
  }

  lemma ManagerKeepsOrphans(c: Control, st: ManagerStep, d: Control, k: string)
    requires WorkersInTable(c) && DoManager(c, st) == Some(d)
    ensures Orphaned(d, k) <==> Orphaned(c, k)
  {
    if st.Start? {
      assert LiveWorker(d, st.worker, KeyOf(c.mgr.command));
      assert forall w, x :: LiveWorker(d, w, x) <==>
        LiveWorker(c, w, x) || (w == st.worker && x == KeyOf(c.mgr.command));
    } else {
      assert forall w, x :: LiveWorker(d, w, x) <==> LiveWorker(c, w, x);
    }
  }

  /** Only Remove ends a worker's life, and only Remove shrinks the table. */
  lemma OtherWorkerStepKeepsOrphans(c: Control, w: nat, d: Control, k: string)
    requires w in c.workers && w in d.workers && OnlyWorker(c, d)
    requires d.workers == c.workers[w := d.workers[w]] && d.workers[w].key == c.workers[w].key
    requires Live(c.workers[w]) <==> Live(d.workers[w])
    requires k in d.table <==> k in c.table
    ensures Orphaned(d, k) <==> Orphaned(c, k)
  {
    assert forall v :: LiveWorker(d, v, k) <==> LiveWorker(c, v, k);
  }

  lemma RemoveOrphans(s: State, w: nat, t: State, k: string)
    requires WorkersInTable(s.ctl) && w in s.ctl.workers && DoTable(s, w, Remove) == Some(t)
    ensures Orphaned(t.ctl, k) <==> Orphaned(s.ctl, k) || Overlaps(s, ByWorkerStep(w, Remove), k)
  {
    var key := s.ctl.workers[w].key;
    assert LiveWorker(s.ctl, w, key);
    assert forall v, x :: LiveWorker(t.ctl, v, x) <==> LiveWorker(s.ctl, v, x) && v != w;
    if InWindow(s.ctl.mgr, key) {
      assert NoLive(t.ctl, key);
    }
  }

  lemma TableStepOrphans(s: State, w: nat, st: WorkerStep, t: State, k: string)
    requires WorkersInTable(s.ctl) && w in s.ctl.workers && !st.Remove? && DoTable(s, w, st) == Some(t)
    ensures Orphaned(t.ctl, k) <==> Orphaned(s.ctl, k)
  {
    TableStepMoves(s, w, st, t);
    var wk := s.ctl.workers[w];
    assert Live(wk) ==> LiveWorker(s.ctl, w, wk.key);
    OtherWorkerStepKeepsOrphans(s.ctl, w, t.ctl, k);
  }

  lemma QuietStepKeepsOrphans(s: State, w: nat, st: WorkerStep, t: State, k: string)
    requires w in s.ctl.workers
    requires (DoPool(s, w, st) == Some(t) || DoSignal(s, w, st) == Some(t) || DoBroker(s, w, st) == Some(t))
    ensures Orphaned(t.ctl, k) <==> Orphaned(s.ctl, k)
  {
    if DoPool(s, w, st) == Some(t) {
      PoolStepMoves(s, w, st, t);
    } else if DoBroker(s, w, st) == Some(t) {
      BrokerStepMoves(s, w, st, t);
      BrokerStepKeepsLive(s, w, st, t);
    }
    OtherWorkerStepKeepsOrphans(s.ctl, w, t.ctl, k);
  }

  lemma BrokerStepKeepsLive(s: State, w: nat, st: WorkerStep, t: State)
    requires w in s.ctl.workers && DoBroker(s, w, st) == Some(t)
    ensures w in t.ctl.workers && t.ctl.workers[w].key == s.ctl.workers[w].key
    ensures Live(t.ctl.workers[w]) <==> Live(s.ctl.workers[w])
  {
    var e := Effect(t.ctl.workers[w], t.brk);
    if st.TakeDelivery? || st.StreamEnded? || st.Settle? || st.CloseChannel? {
      SettlementMoves(s.ctl.workers[w], s.brk, st, e);
    } else {
      LadderMoves(s.ctl.workers[w], s.brk, st, e);
    }
  }

  /** A step makes an orphan exactly when it overlaps, and no step unmakes one. */
  lemma StepOrphans(s: State, st: Step, t: State, k: string)
    requires Inv(s) && Do(s, st) == Some(t)
    ensures Orphaned(t.ctl, k) <==> Orphaned(s.ctl, k) || Overlaps(s, st, k)
  {
    if st.ByManager? {
      ManagerKeepsOrphans(s.ctl, st.manager, t.ctl, k);
    } else if st.ByWorkerStep? {
      WorkerStepOrphans(s, st.w, st.worker, t, k);
    } else {
      if st.ByCaller? {
        CallerMoves(s.ctl, st.caller, t.ctl);
      }
      SameCoreKeepsOrphans(s.ctl, t.ctl, k);
    }
  }

  lemma SameCoreKeepsOrphans(c: Control, d: Control, k: string)
    requires SameCore(c, d)
    ensures Orphaned(d, k) <==> Orphaned(c, k)
  {
    assert forall w :: LiveWorker(d, w, k) <==> LiveWorker(c, w, k);
  }

  lemma WorkerStepOrphans(s: State, w: nat, st: WorkerStep, t: State, k: string)
    requires WorkersInTable(s.ctl) && w in s.ctl.workers && DoWorker(s, w, st) == Some(t)
    ensures Orphaned(t.ctl, k) <==> Orphaned(s.ctl, k) || Overlaps(s, ByWorkerStep(w, st), k)
  {
    if DoTable(s, w, st) == Some(t) {
      if st.Remove? {
        RemoveOrphans(s, w, t, k);
      } else {
        TableStepOrphans(s, w, st, t, k);
      }
    } else {
      WorkerStepOnlyWorker(s, w, st, t);
      QuietStepKeepsOrphans(s, w, st, t, k);
    }
  }

  ghost predicate OverlappedBefore(states: seq<State>, steps: seq<Step>, i: nat, k: string)
    requires |states| == |steps| + 1 && i <= |steps|
  {
    exists j :: 0 <= j < i && Overlaps(states[j], steps[j], k)
  }

  /** Over any run, a key is orphaned exactly when its worker's Remove has overlapped an update. */
  lemma {:induction false} OrphanedIffOverlapped(states: seq<State>, steps: seq<Step>, i: nat, k: string)
    requires ConsumerSystem.Run(states, steps) && i < |states|
    ensures Orphaned(states[i].ctl, k) <==> OverlappedBefore(states, steps, i, k)
  {
    if i > 0 {
      OrphanedIffOverlapped(states, steps, i - 1, k);
      RunStepOrphans(states, steps, i - 1, k);
      OverlappedStep(states, steps, i - 1, k);
    }
  }

  lemma RunStepOrphans(states: seq<State>, steps: seq<Step>, i: nat, k: string)
    requires ConsumerSystem.Run(states, steps) && i < |steps|
    ensures Orphaned(states[i + 1].ctl, k) <==> Orphaned(states[i].ctl, k) || Overlaps(states[i], steps[i], k)
  {
    RunKeepsInv(states, steps, i);
    assert StepAt(states, steps, i);
    StepOrphans(states[i], steps[i], states[i + 1], k);
  }

  lemma OverlappedStep(states: seq<State>, steps: seq<Step>, i: nat, k: string)
    requires |states| == |steps| + 1 && i < |steps|
    ensures OverlappedBefore(states, steps, i + 1, k) <==>
      OverlappedBefore(states, steps, i, k) || Overlaps(states[i], steps[i], k)
  {
  }

  /** So whenever the manager is not working on `k`, its entry has a live worker unless an update
      overlapped - and when one did, the entry is there without a worker. */
  lemma EntryHasWorkerIffNoOverlap(states: seq<State>, steps: seq<Step>, i: nat, k: string)
    requires ConsumerSystem.Run(states, steps) && i < |states|
    requires !AboutToStart(states[i].ctl.mgr, k) && !InWindow(states[i].ctl.mgr, k)
    ensures (k in states[i].ctl.table && NoLive(states[i].ctl, k)) <==> OverlappedBefore(states, steps, i, k)
    ensures !OverlappedBefore(states, steps, i, k) ==>
      (k in states[i].ctl.table <==> exists w :: LiveWorker(states[i].ctl, w, k))
  {
    OrphanedIffOverlapped(states, steps, i, k);
    RunKeepsInv(states, steps, i);
  }

  /** After the overlap the key has no live worker ever again. */
  lemma OrphanIsForever(states: seq<State>, steps: seq<Step>, i: nat, j: nat, k: string)
    requires ConsumerSystem.Run(states, steps) && i <= j < |states|
    requires OverlappedBefore(states, steps, i, k)
    ensures NoLive(states[j].ctl, k)
  {
    OrphanedIffOverlapped(states, steps, j, k);
    var n :| 0 <= n < i && Overlaps(states[n], steps[n], k);
    assert 0 <= n < j;
  }
}
