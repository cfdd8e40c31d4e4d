/**
 Runs in which the consumer manager and its workers fall short, for any consumer: the overlap of module
 Overlap, as updateMessage asks for it (message.go:185-194: stop, then update); an update undone by a
 write-back; an update removed by a leaving worker; and a manager that waits for good, with and without
 a live worker.
 */
module Witnesses {
  import opened Wrappers
  import opened PoolLedger
  import opened ConsumerSystem
  import opened ConsumerControl
  import opened ConsumerTheorems
  import opened Continuations
  import opened Overlap
  import opened Blocking
  import Delivery

  /** The table holds the settings of `x` for `k`. */
  ghost predicate Configured(s: State, k: string, x: Item) {
    k in s.ctl.table && s.ctl.table[k].message == x.message && s.ctl.table[k].consumer == x.consumer
  }

  /** No call is under way, and caller 1 holds msgLock. */
  ghost predicate Calm(s: State) {
    && s.ctl.mgr.Idle? && s.ctl.inbox.None? && s.ctl.outbox.None? && s.ctl.awaiting == map[]
    && s.ctl.apiUp && s.ctl.holder == Some(1)
  }

  /** Caller `u` waits for the manager, which has nothing else to do. */
  ghost predicate Asked(s: State, u: nat) {
    && s.ctl.inbox.None? && s.ctl.outbox.None? && s.ctl.awaiting.Keys == {u}
    && (if u == MAIN then !s.ctl.apiUp && s.ctl.holder.None? else s.ctl.apiUp && s.ctl.holder == Some(u))
  }

  lemma Beginning() returns (s: State)
    ensures Reachable(s) && s.ctl == Control(map[], map[], map[], Idle, None, None, false, None, map[], 0, {})
  {
    s := State(Control(map[], map[], map[], Idle, None, None, false, None, map[], 0, {}), Ledger([], 1, map[], map[]),
               Delivery.Broker(map[], map[], map[], {}, {}));
    var none: seq<Step> := [];
    assert Init(s);
    assert ConsumerSystem.Run([s], none) && [s][|none|] == s;
  }

  /** The caller's command has reached the manager. */
  lemma Ask(s: State, u: nat, action: string, x: Item) returns (t: State)
    requires Reachable(s) && s.ctl.mgr.Idle? && s.ctl.inbox.None? && s.ctl.outbox.None? && s.ctl.awaiting == map[]
    requires if u == MAIN then !s.ctl.apiUp && s.ctl.holder.None? else s.ctl.apiUp && s.ctl.holder == Some(u)
    requires Known(action)
    ensures Reachable(t) && Asked(t, u) && t.ctl.mgr == Fetch(Command(action, x.message, x.consumer, s.ctl.nextTicket))
    ensures t.ctl == s.ctl.(mgr := t.ctl.mgr, awaiting := t.ctl.awaiting, nextTicket := t.ctl.nextTicket)
  {
    t := Extend(s, ByCaller(Notify(u, action, x.message, x.consumer)));
    t := Extend(t, ByManager(Receive));
  }

  /** The manager's answer is back with the caller. */
  lemma Answered(s: State, u: nat) returns (t: State)
    requires Reachable(s) && s.ctl.mgr.Respond? && Asked(s, u)
    ensures Reachable(t) && t.ctl == s.ctl.(mgr := Idle, awaiting := map[])
  {
    t := Extend(s, ByManager(SendAnswer));
    t := Extend(t, ByCaller(Collect(u)));
    assert t.ctl.awaiting == map[];
  }

  // ---- a worker at work ------------------------------------------------------------------

  /** Worker 0 serves `k` from an entry whose control channels are empty. */
  ghost predicate Serving(s: State, k: string, pc: Pc) {
    && 0 in s.ctl.workers && s.ctl.workers[0].key == k && s.ctl.workers[0].pc == pc
    && k in s.ctl.table && Empty(s.ctl, s.ctl.table[k].box)
  }

  ghost predicate Empty(c: Control, b: nat) {
    b in c.boxes && c.boxes[b].read.None?
  }

  lemma Installed(x: Item) returns (s: State)
    ensures Reachable(s) && s.ctl.mgr.Spawn? && KeyOf(s.ctl.mgr.command) == ItemKey(x) && Asked(s, MAIN)
    ensures s.ctl.workers == map[] && Configured(s, ItemKey(x), x) && Empty(s.ctl, s.ctl.table[ItemKey(x)].box)
  {
    s := Beginning();
    s := Ask(s, MAIN, "update", x);
    s := Extend(s, ByManager(LookUp));
    s := Extend(s, ByManager(Install(0)));
  }

  /** main installs the consumer, the manager starts its worker, and the API comes up. */
  lemma Started(x: Item) returns (s: State)
    ensures Reachable(s) && Calm(s) && Serving(s, ItemKey(x), Top) && Configured(s, ItemKey(x), x)
  {
    s := Installed(x);
    s := Extend(s, ByManager(Start(0)));
    s := Answered(s, MAIN);
    s := Extend(s, ByCaller(StartApi));
    s := Extend(s, ByCaller(Lock(1)));
  }

  /** The worker has climbed its ladder and waits for a command or a delivery. */
  lemma Waiting(x: Item) returns (s: State)
    ensures Reachable(s) && Calm(s) && Serving(s, ItemKey(x), Selecting) && Copied(s.ctl, 0, ItemKey(x))
  {
    var s0 := Started(x);
    s := FromTop(s0, 0, ItemKey(x));
    var steps :| Continuations.After(s0, steps) == Some(s);
    ReachableAfter(s0, steps, s);
  }

  // ---- an update that meets a leaving worker -----------------------------------------------

  /** The caller stops the consumer, and is answered before the worker has seen its "exit". */
  lemma Stopped(x: Item) returns (s: State)
    ensures Reachable(s) && Calm(s) && ItemKey(x) in s.ctl.table && 0 in s.ctl.workers
    ensures s.ctl.workers[0].key == ItemKey(x) && s.ctl.workers[0].pc.Selecting?
    ensures var b := s.ctl.workers[0].item.box; b in s.ctl.boxes && s.ctl.boxes[b].read == Some("exit")
  {
    var s0 := Waiting(x);
    s := SignalSent(s0, x);
  }

  lemma SignalAsked(s0: State, x: Item) returns (s: State)
    requires Reachable(s0) && Calm(s0) && ItemKey(x) in s0.ctl.table
    ensures Reachable(s) && Asked(s, 1) && s.ctl.mgr.Signal? && KeyOf(s.ctl.mgr.command) == ItemKey(x)
    ensures s.ctl.mgr.item == s0.ctl.table[ItemKey(x)]
    ensures s.ctl == s0.ctl.(mgr := s.ctl.mgr, awaiting := s.ctl.awaiting, nextTicket := s.ctl.nextTicket)
  {
    s := Ask(s0, 1, "delete", x);
    s := Extend(s, ByManager(LookUp));
  }

  /** A stop that is answered leaves its "exit" in the channels of the entry. */
  lemma SignalSent(s0: State, x: Item) returns (s: State)
    requires Reachable(s0) && Calm(s0) && ItemKey(x) in s0.ctl.table && Empty(s0.ctl, s0.ctl.table[ItemKey(x)].box)
    ensures Reachable(s) && Calm(s)
    ensures var b := s0.ctl.table[ItemKey(x)].box;
      s.ctl == s0.ctl.(boxes := s0.ctl.boxes[b := s0.ctl.boxes[b].(read := Some("exit"))],
                       nextTicket := s.ctl.nextTicket)
  {
    s := SignalAsked(s0, x);
    s := Extend(s, ByManager(SendExit));
    s := Answered(s, 1);
  }

  lemma TookExit(x: Item) returns (s: State)
    ensures Reachable(s) && Calm(s) && ItemKey(x) in s.ctl.table
    ensures 0 in s.ctl.workers && s.ctl.workers[0].key == ItemKey(x) && s.ctl.workers[0].pc.ExitPut?
  {
    s := Stopped(x);
    s := Extend(s, ByWorkerStep(0, TakeCommand));
  }

  lemma Returned(x: Item) returns (s: State)
    ensures Reachable(s) && Calm(s) && ItemKey(x) in s.ctl.table
    ensures 0 in s.ctl.workers && s.ctl.workers[0].key == ItemKey(x) && s.ctl.workers[0].pc.ExitSend?
  {
    s := TookExit(x);
    WorkerMayPut(s, 0);
    s := Extend(s, ByWorkerStep(0, ReturnConn(false)));
  }

  /** Worker 0 of `k` has sent "exit_ok" and has not removed its entry yet. */
  ghost predicate Leaves(s: State, k: string) {
    k in s.ctl.table && 0 in s.ctl.workers && s.ctl.workers[0].key == k && s.ctl.workers[0].pc.Removing?
  }

  lemma AboutToRemove(x: Item) returns (s: State)
    ensures Reachable(s) && Calm(s) && Leaves(s, ItemKey(x))
  {
    s := Returned(x);
    ExitOkNeverBlocks(s, 0);
    s := Extend(s, ByWorkerStep(0, SendExitOk));
  }

  /** The manager has found the entry of a worker and is about to update it. */
  lemma Touched(s0: State, y: Item) returns (s: State)
    requires Reachable(s0) && Calm(s0) && ItemKey(y) in s0.ctl.table
    ensures Reachable(s) && Asked(s, 1) && s.ctl.mgr.Touch?
    ensures s.ctl.mgr.command.message == y.message && s.ctl.mgr.command.consumer == y.consumer
    ensures s.ctl == s0.ctl.(mgr := s.ctl.mgr, awaiting := s.ctl.awaiting, nextTicket := s.ctl.nextTicket)
  {
    s := Ask(s0, 1, "update", y);
    s := Extend(s, ByManager(LookUp));
  }

  /** The update is written and answered. */
  lemma Updated(s0: State, y: Item) returns (s: State)
    requires Reachable(s0) && Asked(s0, 1) && s0.ctl.mgr.Touch?
    requires s0.ctl.mgr.command.message == y.message && s0.ctl.mgr.command.consumer == y.consumer
    ensures Reachable(s) && Calm(s) && Configured(s, ItemKey(y), y)
    ensures s.ctl.workers == s0.ctl.workers
    ensures s.ctl.table[ItemKey(y)].box !in s0.ctl.boxes && Empty(s.ctl, s.ctl.table[ItemKey(y)].box)
  {
    s := Extend(s0, ByManager(Refresh(0)));
    var b := Unused(s.ctl.boxes.Keys);
    s := Extend(s, ByManager(Install(b)));
    s := Answered(s, 1);
  }

  /** A reachable state in which the worker's Remove falls between the manager's Get and its Sets. */
  lemma OverlapHappens(x: Item) returns (s: State, t: State)
    ensures Reachable(s) && Do(s, ByWorkerStep(0, Remove)) == Some(t)
    ensures Overlaps(s, ByWorkerStep(0, Remove), ItemKey(x))
    ensures Reachable(t) && Asked(t, 1) && t.ctl.mgr == s.ctl.mgr && t.ctl.mgr.Touch?
    ensures t.ctl.mgr.command.message == x.message && t.ctl.mgr.command.consumer == x.consumer
  {
    s := AboutToRemove(x);
    s := Touched(s, x);
    t := Extend(s, ByWorkerStep(0, Remove));
  }

  lemma OverlapOrphans(s: State, t: State, k: string)
    requires Reachable(s) && Do(s, ByWorkerStep(0, Remove)) == Some(t) && Overlaps(s, ByWorkerStep(0, Remove), k)
    ensures NoLive(t.ctl, k)
  {
    ReachableInv(s);
    StepOrphans(s, ByWorkerStep(0, Remove), t, k);
  }

  /** Afterwards the update has been answered, the entry is there, and nobody ever serves it again. */
  lemma OrphanIsReachable(x: Item) returns (s: State)
    ensures Reachable(s) && Calm(s) && Configured(s, ItemKey(x), x) && NoLive(s.ctl, ItemKey(x))
    ensures Empty(s.ctl, s.ctl.table[ItemKey(x)].box)
  {
    var s0, s1 := OverlapHappens(x);
    OverlapOrphans(s0, s1, ItemKey(x));
    s := Updated(s1, x);
    SameWorkersNoLive(s1.ctl, s.ctl, ItemKey(x));
  }

  lemma SameWorkersNoLive(c: Control, d: Control, k: string)
    requires d.workers == c.workers && NoLive(c, k)
    ensures NoLive(d, k)
  {
    assert forall w :: LiveWorker(d, w, k) <==> LiveWorker(c, w, k);
  }

  /** Without an overlap: the update is written and answered while the worker is leaving, and then the
      worker's Remove takes it away with the entry. */
  lemma UpdateIsRemoved(x: Item, y: Item) returns (s: State, t: State)
    requires ItemKey(y) == ItemKey(x)
    ensures Reachable(s) && Calm(s) && Configured(s, ItemKey(x), y)
    ensures Do(s, ByWorkerStep(0, Remove)) == Some(t) && !Overlaps(s, ByWorkerStep(0, Remove), ItemKey(x))
    ensures Reachable(t) && Calm(t) && ItemKey(x) !in t.ctl.table && NoLive(t.ctl, ItemKey(x))
  {
    s := UpdatedLeaver(x, y);
    t := Extend(s, ByWorkerStep(0, Remove));
    NobodyLeft(t, ItemKey(x));
  }

  lemma UpdatedLeaver(x: Item, y: Item) returns (s: State)
    requires ItemKey(y) == ItemKey(x)
    ensures Reachable(s) && Calm(s) && Configured(s, ItemKey(x), y) && Leaves(s, ItemKey(x))
  {
    var s0 := AboutToRemove(x);
    var s1 := Touched(s0, y);
    s := Updated(s1, y);
  }

  lemma NobodyLeft(s: State, k: string)
    requires Reachable(s) && k !in s.ctl.table
    ensures NoLive(s.ctl, k)
  {
    ReachableControl(s);
  }

  // ---- an update that meets a worker with an old copy --------------------------------------

  /** Worker 0 has read the settings of `x` and not written them back. */
  ghost predicate HasRead(s: State, x: Item) {
    && 0 in s.ctl.workers && s.ctl.workers[0].key == ItemKey(x) && s.ctl.workers[0].pc.TopWrite?
    && s.ctl.workers[0].item.message == x.message && s.ctl.workers[0].item.consumer == x.consumer
    && s.ctl.workers[0].item.box in s.ctl.boxes
  }

  lemma ReadBefore(x: Item) returns (s: State)
    ensures Reachable(s) && Calm(s) && ItemKey(x) in s.ctl.table && HasRead(s, x)
  {
    s := Started(x);
    s := Extend(s, ByWorkerStep(0, Check));
    s := Extend(s, ByWorkerStep(0, Read));
  }

  /** The update is in the table with channels of its own, and the worker still has the old copy. */
  lemma UpdatedMeanwhile(x: Item, y: Item) returns (s: State)
    requires ItemKey(y) == ItemKey(x)
    ensures Reachable(s) && Calm(s) && Configured(s, ItemKey(x), y)
    ensures 0 in s.ctl.workers && s.ctl.workers[0].key == ItemKey(x) && s.ctl.workers[0].pc.TopWrite?
    ensures s.ctl.workers[0].item.message == x.message && s.ctl.workers[0].item.consumer == x.consumer
    ensures s.ctl.workers[0].item.box != s.ctl.table[ItemKey(x)].box && Empty(s.ctl, s.ctl.table[ItemKey(x)].box)
  {
    var s0 := ReadBefore(x);
    var s1 := Touched(s0, y);
    s := Updated(s1, y);
  }

  /** An update has been answered and its settings are in the table; the next step of the worker,
      which had read the entry before, puts the old settings back. */
  lemma UpdateIsOverwritten(x: Item, y: Item) returns (s: State, t: State)
    requires ItemKey(y) == ItemKey(x)
    ensures Reachable(s) && Calm(s) && Configured(s, ItemKey(x), y)
    ensures Do(s, ByWorkerStep(0, Write(0))) == Some(t)
    ensures Reachable(t) && Calm(t) && Configured(t, ItemKey(x), x)
  {
    s := UpdatedMeanwhile(x, y);
    t := Extend(s, ByWorkerStep(0, Write(0)));
  }

  // ---- a manager that waits for good -------------------------------------------------------

  /** Two stops: the first "exit" is sent and answered, the second finds the slot still full. */
  lemma StoppedTwice(s0: State, x: Item) returns (s: State)
    requires Reachable(s0) && Calm(s0) && ItemKey(x) in s0.ctl.table && Empty(s0.ctl, s0.ctl.table[ItemKey(x)].box)
    ensures Reachable(s) && Waits(s.ctl, ItemKey(x), s0.ctl.table[ItemKey(x)].box)
    ensures s.ctl.workers == s0.ctl.workers && s.ctl.table == s0.ctl.table
  {
    s := SignalSent(s0, x);
    s := SignalAsked(s, x);
  }

  /** The entry has no worker. */
  lemma BlockedByOrphan(x: Item) returns (s: State, b: nat)
    ensures Reachable(s) && Blocked(s.ctl, ItemKey(x), b) && NoLive(s.ctl, ItemKey(x))
  {
    var s0 := OrphanIsReachable(x);
    b := s0.ctl.table[ItemKey(x)].box;
    s := StoppedTwice(s0, x);
    SameWorkersNoLive(s0.ctl, s.ctl, ItemKey(x));
  }

  /** The entry has a live worker, but its copy has other channels, and it is about to write them back.
      An update with the same settings is enough. */
  lemma BlockedBesideLiveWorker(x: Item, y: Item) returns (s: State, b: nat)
    requires ItemKey(y) == ItemKey(x)
    ensures Reachable(s) && Blocked(s.ctl, ItemKey(x), b) && LiveWorker(s.ctl, 0, ItemKey(x))
  {
    var s0 := UpdatedMeanwhile(x, y);
    b := s0.ctl.table[ItemKey(x)].box;
    s := StoppedTwice(s0, y);
    ReachableControl(s);
    assert LiveWorker(s.ctl, 0, ItemKey(x));
  }
}
