/**
 When an answered update stays in the table. A worker reads its entry and writes it back with a new
 time in two steps (message.go:494-497, 569-572), so it can overwrite settings that the manager has
 put there in between; and a worker that leaves removes the entry with whatever it holds by then
 (message.go:478). An update survives exactly as long as neither happens.
 */
module LostUpdates {
  import opened Wrappers
  import opened ConsumerSystem
  import opened ConsumerControl
  import opened ConsumerResources
  import opened ConsumerTheorems

  /** Worker `w` has read the entry of `k` and not written it back. */
  ghost predicate HoldsCopy(c: Control, w: nat, k: string, copy: Item) {
    && w in c.workers && c.workers[w].key == k && c.workers[w].item == copy
    && (c.workers[w].pc.TopWrite? || c.workers[w].pc.LoopWrite?)
  }

  /** The manager puts other settings than the copy's into the entry of `k`. */
  predicate Rewrites(c: Control, st: Step, k: string, copy: Item) {
    && st.ByManager?
    && ((st.manager.Install? && c.mgr.Store? && KeyOf(c.mgr.command) == k)
        || (st.manager.Refresh? && c.mgr.Touch? && KeyOf(c.mgr.command) == k && !SameSettings(c.mgr.item, copy)))
  }

  ghost predicate Current(c: Control, k: string, copy: Item) {
    copy.box in c.boxes && k in c.table && SameSettings(c.table[k], copy)
  }

  ghost predicate Outdated(c: Control, k: string, copy: Item) {
    && copy.box in c.boxes && k in c.table && !SameSettings(c.table[k], copy)
    && (c.mgr.Touch? && KeyOf(c.mgr.command) == k ==> !SameSettings(c.mgr.item, copy))
  }

  predicate StepOf(st: Step, w: nat) {
    st.ByWorkerStep? && st.w == w
  }

  lemma ManagerMakesOutdated(c: Control, st: ManagerStep, d: Control, k: string, copy: Item)
    requires DoManager(c, st) == Some(d)
    ensures Current(c, k, copy) ==>
      if Rewrites(c, ByManager(st), k, copy) then Outdated(d, k, copy) else Current(d, k, copy)
    ensures Outdated(c, k, copy) ==> Outdated(d, k, copy)
  {
  }

  lemma ManagerKeepsCopy(c: Control, st: ManagerStep, d: Control, w: nat, k: string, copy: Item)
    requires DoManager(c, st) == Some(d) && HoldsCopy(c, w, k, copy)
    ensures HoldsCopy(d, w, k, copy)
  {
  }

  /** What a step of another worker leaves of an entry, of the manager and of the boxes there are. */
  ghost predicate Spares(c: Control, d: Control, k: string) {
    && (k in d.table <==> k in c.table) && (k in c.table ==> d.table[k] == c.table[k])
    && d.mgr == c.mgr && c.boxes.Keys <= d.boxes.Keys
  }

  lemma SparedStays(c: Control, d: Control, k: string, copy: Item)
    requires Spares(c, d, k)
    ensures Current(c, k, copy) ==> Current(d, k, copy)
    ensures Outdated(c, k, copy) ==> Outdated(d, k, copy)
  {
  }

  lemma TableStepSpares(s: State, v: nat, st: WorkerStep, t: State, k: string)
    requires v in s.ctl.workers && DoTable(s, v, st) == Some(t)
    requires s.ctl.workers[v].key == k ==> !Live(s.ctl.workers[v])
    ensures Spares(s.ctl, t.ctl, k)
  {
    TableStepMoves(s, v, st, t);
    if s.ctl.workers[v].key != k {
      TableStepTouchesItsKey(s, v, st, t, k);
    } else {
      TableStepTurns(s, v, st, t);
    }
  }

  lemma OtherStepSpares(s: State, v: nat, st: WorkerStep, t: State, k: string)
    requires v in s.ctl.workers && DoWorker(s, v, st) == Some(t) && DoTable(s, v, st) != Some(t)
    requires Inv(s)
    ensures Spares(s.ctl, t.ctl, k) && v in t.ctl.workers && t.ctl.workers == s.ctl.workers[v := t.ctl.workers[v]]
  {
    if DoPool(s, v, st) == Some(t) {
      PoolStepIsQuiet(s, v, st, t);
    } else if DoSignal(s, v, st) == Some(t) {
      SignalStepIsQuiet(s, v, st, t);
    } else {
      BrokerStepIsQuiet(s, v, st, t);
    }
  }

  lemma WorkerStepSpares(s: State, v: nat, st: WorkerStep, t: State, w: nat, k: string, copy: Item)
    requires Inv(s) && v in s.ctl.workers && v != w && DoWorker(s, v, st) == Some(t) && HoldsCopy(s.ctl, w, k, copy)
    ensures Spares(s.ctl, t.ctl, k) && HoldsCopy(t.ctl, w, k, copy)
  {
    assert LiveWorker(s.ctl, w, k) && (LiveWorker(s.ctl, v, k) ==> v == w);
    if DoTable(s, v, st) == Some(t) {
      TableStepSpares(s, v, st, t, k);
      TableStepMoves(s, v, st, t);
    } else {
      OtherStepSpares(s, v, st, t, k);
    }
  }

  /** Until the worker moves again, its copy is current until the manager rewrites the entry, and
      outdated ever after. */
  lemma StepOutdates(s: State, st: Step, t: State, w: nat, k: string, copy: Item)
    requires Inv(s) && Do(s, st) == Some(t) && !StepOf(st, w) && HoldsCopy(s.ctl, w, k, copy)
    ensures HoldsCopy(t.ctl, w, k, copy)
    ensures Current(s.ctl, k, copy) ==>
      if Rewrites(s.ctl, st, k, copy) then Outdated(t.ctl, k, copy) else Current(t.ctl, k, copy)
    ensures Outdated(s.ctl, k, copy) ==> Outdated(t.ctl, k, copy)
  {
    if st.ByManager? {
      ManagerMakesOutdated(s.ctl, st.manager, t.ctl, k, copy);
      ManagerKeepsCopy(s.ctl, st.manager, t.ctl, w, k, copy);
    } else {
      if st.ByWorkerStep? {
        WorkerStepSpares(s, st.w, st.worker, t, w, k, copy);
      } else if st.ByCaller? {
        CallerMoves(s.ctl, st.caller, t.ctl);
      }
      SparedStays(s.ctl, t.ctl, k, copy);
    }
  }

  /** Worker `w` reads its entry in step `i` and takes no other step before step `j`. */
  ghost predicate ReadAt(states: seq<State>, steps: seq<Step>, i: nat, j: nat, w: nat, k: string, copy: Item) {
    && ConsumerSystem.Run(states, steps) && i < j < |states|
    && steps[i] == ByWorkerStep(w, Read)
    && HoldsCopy(states[i + 1].ctl, w, k, copy)
    && forall n :: i < n < j ==> !StepOf(steps[n], w)
  }

  ghost predicate RewrittenBetween(states: seq<State>, steps: seq<Step>, i: nat, j: nat, k: string, copy: Item)
    requires |states| == |steps| + 1 && j <= |steps|
  {
    exists n :: i < n < j && Rewrites(states[n].ctl, steps[n], k, copy)
  }

  lemma ReadIsCurrent(s: State, t: State, w: nat, k: string, copy: Item)
    requires Inv(s) && w in s.ctl.workers && DoTable(s, w, Read) == Some(t) && HoldsCopy(t.ctl, w, k, copy)
    ensures Current(t.ctl, k, copy)
  {
    ReadMoves(s, w, Read, t);
  }

  lemma {:induction false} CopyIsCurrentIff(states: seq<State>, steps: seq<Step>, i: nat, j: nat, w: nat, k: string,
                                            copy: Item)
    requires ReadAt(states, steps, i, j, w, k, copy)
    ensures HoldsCopy(states[j].ctl, w, k, copy)
    ensures if RewrittenBetween(states, steps, i, j, k, copy) then Outdated(states[j].ctl, k, copy)
            else Current(states[j].ctl, k, copy)
    decreases j
  {
    if j == i + 1 {
      JustRead(states, steps, i, w, k, copy);
    } else {
      CopyIsCurrentIff(states, steps, i, j - 1, w, k, copy);
      OneMoreStep(states, steps, i, j, w, k, copy);
      assert RewrittenBetween(states, steps, i, j, k, copy) <==>
        RewrittenBetween(states, steps, i, j - 1, k, copy) || Rewrites(states[j - 1].ctl, steps[j - 1], k, copy);
    }
  }

  lemma JustRead(states: seq<State>, steps: seq<Step>, i: nat, w: nat, k: string, copy: Item)
    requires ReadAt(states, steps, i, i + 1, w, k, copy)
    ensures Current(states[i + 1].ctl, k, copy)
  {
    RunKeepsInv(states, steps, i);
    assert StepAt(states, steps, i);
    ReadIsCurrent(states[i], states[i + 1], w, k, copy);
  }

  lemma OneMoreStep(states: seq<State>, steps: seq<Step>, i: nat, j: nat, w: nat, k: string, copy: Item)
    requires ReadAt(states, steps, i, j, w, k, copy) && i + 1 < j && HoldsCopy(states[j - 1].ctl, w, k, copy)
    ensures HoldsCopy(states[j].ctl, w, k, copy)
    ensures Current(states[j - 1].ctl, k, copy) ==>
      if Rewrites(states[j - 1].ctl, steps[j - 1], k, copy) then Outdated(states[j].ctl, k, copy)
      else Current(states[j].ctl, k, copy)
    ensures Outdated(states[j - 1].ctl, k, copy) ==> Outdated(states[j].ctl, k, copy)
  {
    RunKeepsInv(states, steps, j - 1);
    assert StepAt(states, steps, j - 1);
    StepOutdates(states[j - 1], steps[j - 1], states[j], w, k, copy);
  }

  /** The write-back that follows leaves the settings in the table alone exactly when the manager has
      not rewritten the entry since the worker read it. */
  lemma WriteBackKeepsIff(states: seq<State>, steps: seq<Step>, i: nat, j: nat, w: nat, k: string, copy: Item,
                          time: int)
    requires ReadAt(states, steps, i, j, w, k, copy) && j < |steps| && steps[j] == ByWorkerStep(w, Write(time))
    ensures k in states[j].ctl.table && k in states[j + 1].ctl.table
    ensures SameSettings(states[j + 1].ctl.table[k], states[j].ctl.table[k]) <==>
      !RewrittenBetween(states, steps, i, j, k, copy)
  {
    CopyIsCurrentIff(states, steps, i, j, w, k, copy);
    assert StepAt(states, steps, j);
    WriteMoves(states[j], w, time, states[j + 1]);
  }

  // ---- an installed update, over any run ---------------------------------------------------

  /** Worker `w` of `k` is about to write its copy back. */
  predicate AtWrite(c: Control, w: nat, k: string) {
    w in c.workers && c.workers[w].key == k && (c.workers[w].pc.TopWrite? || c.workers[w].pc.LoopWrite?)
  }

  /** The manager writes the entry of `k`. */
  predicate WritesEntry(c: Control, st: Step, k: string) {
    && st.ByManager? && ((st.manager.Install? && c.mgr.Store?) || (st.manager.Refresh? && c.mgr.Touch?))
    && KeyOf(c.mgr.command) == k
  }

  ghost predicate HoldsSettings(c: Control, k: string, y: Item) {
    k in c.table && SameSettings(c.table[k], y)
  }

  /** Worker `w` read its copy before step `i` and has taken no step since, up to step `n`. */
  ghost predicate ReadBefore(steps: seq<Step>, i: nat, n: nat, w: nat)
    requires i <= n <= |steps|
  {
    exists r :: 0 <= r < i && steps[r] == ByWorkerStep(w, Read) && forall q :: r < q < n ==> !StepOf(steps[q], w)
  }

  /** Step `n` is the Remove of a worker of `k`, or its write-back of a copy read before step `i`. */
  ghost predicate Loses(states: seq<State>, steps: seq<Step>, i: nat, n: nat, k: string)
    requires i <= n < |steps| && |states| == |steps| + 1
  {
    && steps[n].ByWorkerStep?
    && (var w := steps[n].w;
       && w in states[n].ctl.workers && states[n].ctl.workers[w].key == k
       && (steps[n].worker.Remove? || (steps[n].worker.Write? && ReadBefore(steps, i, n, w))))
  }

  ghost predicate LostBetween(states: seq<State>, steps: seq<Step>, i: nat, j: nat, k: string)
    requires i <= j <= |steps| && |states| == |steps| + 1
  {
    exists n :: i < n < j && Loses(states, steps, i, n, k)
  }

  /** What a step other than the manager's does to an entry. */
  lemma EntryChanges(s: State, st: Step, t: State, k: string)
    requires Do(s, st) == Some(t) && !WritesEntry(s.ctl, st, k)
    ensures
      || ((k in t.ctl.table <==> k in s.ctl.table) && (k in s.ctl.table ==> t.ctl.table[k] == s.ctl.table[k]))
      || (st.ByWorkerStep? && st.worker.Write? && AtWrite(s.ctl, st.w, k) && !AtWrite(t.ctl, st.w, k)
          && HoldsSettings(t.ctl, k, s.ctl.workers[st.w].item))
      || (st.ByWorkerStep? && st.worker.Remove? && LiveWorker(s.ctl, st.w, k) && k !in t.ctl.table)
  {
    if st.ByWorkerStep? {
      if DoTable(s, st.w, st.worker) == Some(t) {
        OwnEntryChanges(s, st.w, st.worker, t, k);
      } else {
        WorkerStepKeepsTable(s, st.w, st.worker, t);
      }
    } else if st.ByManager? {
      ManagerLeavesEntry(s.ctl, st.manager, t.ctl, k);
    } else if st.ByCaller? {
      CallerMoves(s.ctl, st.caller, t.ctl);
    }
  }

  lemma ManagerLeavesEntry(c: Control, st: ManagerStep, d: Control, k: string)
    requires DoManager(c, st) == Some(d) && !WritesEntry(c, ByManager(st), k)
    ensures (k in d.table <==> k in c.table) && (k in c.table ==> d.table[k] == c.table[k])
  {
  }

  lemma OwnEntryChanges(s: State, w: nat, st: WorkerStep, t: State, k: string)
    requires w in s.ctl.workers && DoTable(s, w, st) == Some(t)
    ensures
      || ((k in t.ctl.table <==> k in s.ctl.table) && (k in s.ctl.table ==> t.ctl.table[k] == s.ctl.table[k]))
      || (st.Write? && AtWrite(s.ctl, w, k) && !AtWrite(t.ctl, w, k) && HoldsSettings(t.ctl, k, s.ctl.workers[w].item))
      || (st.Remove? && LiveWorker(s.ctl, w, k) && k !in t.ctl.table)
  {
    if s.ctl.workers[w].key != k {
      TableStepTouchesItsKey(s, w, st, t, k);
    } else if st.Write? {
      WriteMoves(s, w, st.time, t);
    }
  }

  /** A worker gets to a write-back only by its Read, of what the table holds then. */
  lemma CopyComesFromRead(s: State, st: Step, t: State, w: nat, k: string)
    requires Inv(s) && Do(s, st) == Some(t) && AtWrite(t.ctl, w, k)
    ensures
      if StepOf(st, w) then st.worker.Read? && k in s.ctl.table && t.ctl.workers[w].item == s.ctl.table[k]
      else AtWrite(s.ctl, w, k) && t.ctl.workers[w].item == s.ctl.workers[w].item
  {
    if StepOf(st, w) {
      OwnStepToWrite(s, w, st.worker, t);
      ReadMoves(s, w, Read, t);
    } else if st.ByWorkerStep? {
      OtherWorkerStays(s, st.w, st.worker, t);
    } else if st.ByManager? {
      ManagerAddsWorkers(s.ctl, st.manager, t.ctl);
    } else if st.ByCaller? {
      CallerMoves(s.ctl, st.caller, t.ctl);
    }
  }

  lemma OtherWorkerStays(s: State, v: nat, st: WorkerStep, t: State)
    requires Inv(s) && v in s.ctl.workers && DoWorker(s, v, st) == Some(t)
    ensures v in t.ctl.workers && t.ctl.workers == s.ctl.workers[v := t.ctl.workers[v]]
  {
    if DoTable(s, v, st) == Some(t) {
      TableStepMoves(s, v, st, t);
    } else {
      OtherStepSpares(s, v, st, t, "");
    }
  }

  lemma OwnStepToWrite(s: State, w: nat, st: WorkerStep, t: State)
    requires Inv(s) && w in s.ctl.workers && DoWorker(s, w, st) == Some(t)
    requires w in t.ctl.workers && (t.ctl.workers[w].pc.TopWrite? || t.ctl.workers[w].pc.LoopWrite?)
    ensures st.Read? && DoTable(s, w, Read) == Some(t) && s.ctl.workers[w].key in s.ctl.table
  {
    FoundByItsWorker(s.ctl, w);
    if DoTable(s, w, st) == Some(t) {
      TableStepTurns(s, w, st, t);
      OnlyReadTurnsToWrite(s, w, st, t);
    } else if DoPool(s, w, st) == Some(t) {
      PoolStepMoves(s, w, st, t);
    } else if DoSignal(s, w, st) == Some(t) {
      SignalStepElsewhere(s, w, st, t);
    } else {
      BrokerStepElsewhere(s, w, st, t);
    }
  }

  lemma OnlyReadTurnsToWrite(s: State, w: nat, st: WorkerStep, t: State)
    requires w in s.ctl.workers && w in t.ctl.workers && DoTable(s, w, st) == Some(t)
    requires t.ctl.workers[w].pc.TopWrite? || t.ctl.workers[w].pc.LoopWrite?
    ensures st.Read? && Live(s.ctl.workers[w])
  {
  }

  lemma SignalStepElsewhere(s: State, w: nat, st: WorkerStep, t: State)
    requires w in s.ctl.workers && DoSignal(s, w, st) == Some(t)
    ensures w in t.ctl.workers && !t.ctl.workers[w].pc.TopWrite? && !t.ctl.workers[w].pc.LoopWrite?
  {
  }

  lemma BrokerStepElsewhere(s: State, w: nat, st: WorkerStep, t: State)
    requires w in s.ctl.workers && DoBroker(s, w, st) == Some(t)
    ensures w in t.ctl.workers && !t.ctl.workers[w].pc.TopWrite? && !t.ctl.workers[w].pc.LoopWrite?
  {
  }

  /** The settings are gone from the table and from every copy that could bring them back. */
  ghost predicate Forgotten(c: Control, k: string, y: Item) {
    && (k in c.table ==> c.table[k].box != y.box)
    && (forall w :: AtWrite(c, w, k) ==> c.workers[w].item.box != y.box)
  }

  lemma ForgottenStays(s: State, st: Step, t: State, k: string, y: Item)
    requires Inv(s) && Do(s, st) == Some(t) && !WritesEntry(s.ctl, st, k) && Forgotten(s.ctl, k, y)
    ensures Forgotten(t.ctl, k, y)
  {
    EntryChanges(s, st, t, k);
    forall w | AtWrite(t.ctl, w, k) ensures t.ctl.workers[w].item.box != y.box {
      CopyComesFromRead(s, st, t, w, k);
    }
  }

  /** The only live worker of the key removes the entry, or writes other settings into it. */
  lemma LosingForgets(s: State, st: Step, t: State, k: string, y: Item)
    requires Inv(s) && Do(s, st) == Some(t) && st.ByWorkerStep? && LiveWorker(s.ctl, st.w, k)
    requires st.worker.Remove? || (st.worker.Write? && s.ctl.workers[st.w].item.box != y.box)
    ensures Forgotten(t.ctl, k, y)
  {
    LosingChangesEntry(s, st.w, st.worker, t);
    forall w ensures !AtWrite(t.ctl, w, k) {
      assert LiveWorker(s.ctl, w, k) ==> w == st.w;
      if AtWrite(t.ctl, w, k) {
        CopyComesFromRead(s, st, t, w, k);
      }
    }
  }

  lemma LosingChangesEntry(s: State, w: nat, st: WorkerStep, t: State)
    requires w in s.ctl.workers && (st.Remove? || st.Write?) && DoWorker(s, w, st) == Some(t)
    ensures var k := s.ctl.workers[w].key;
      if st.Remove? then k !in t.ctl.table else k in t.ctl.table && t.ctl.table[k].box == s.ctl.workers[w].item.box
  {
  }

  /** The settings are in the table; a copy about to be written back has them too, unless it was read
      before step `i`, and then it has other channels. */
  ghost predicate Intact(states: seq<State>, steps: seq<Step>, i: nat, j: nat, k: string, y: Item)
    requires i <= j <= |steps| && |states| == |steps| + 1
  {
    && HoldsSettings(states[j].ctl, k, y)
    && (forall w :: AtWrite(states[j].ctl, w, k) ==> CopyFits(states[j].ctl.workers[w].item, y,
                                                              ReadBefore(steps, i, j, w)))
  }

  predicate CopyFits(copy: Item, y: Item, older: bool) {
    if older then copy.box != y.box else SameSettings(copy, y)
  }

  lemma {:induction false} LastRead(states: seq<State>, steps: seq<Step>, n: nat, w: nat, k: string)
    requires ConsumerSystem.Run(states, steps) && n < |states| && AtWrite(states[n].ctl, w, k)
    ensures ReadBefore(steps, n, n, w)
  {
    if n > 0 {
      RunKeepsInv(states, steps, n - 1);
      assert StepAt(states, steps, n - 1);
      CopyComesFromRead(states[n - 1], steps[n - 1], states[n], w, k);
      if StepOf(steps[n - 1], w) {
        assert steps[n - 1] == ByWorkerStep(w, Read);
      } else {
        LastRead(states, steps, n - 1, w, k);
        var r :| 0 <= r < n - 1 && steps[r] == ByWorkerStep(w, Read)
            && forall q :: r < q < n - 1 ==> !StepOf(steps[q], w);
      }
    }
  }

  /** In step `i` the manager installs an entry for `k` with channels `b`. */
  ghost predicate InstallsAt(states: seq<State>, steps: seq<Step>, i: nat, k: string, b: nat) {
    && ConsumerSystem.Run(states, steps) && i < |steps| && steps[i] == ByManager(Install(b))
    && states[i].ctl.mgr.Store? && KeyOf(states[i].ctl.mgr.command) == k
  }

  /** Right after the Install, every copy about to be written back is older. */
  lemma InstalledIntact(states: seq<State>, steps: seq<Step>, i: nat, k: string, b: nat)
    requires InstallsAt(states, steps, i, k, b)
    ensures k in states[i + 1].ctl.table && Intact(states, steps, i, i + 1, k, states[i + 1].ctl.table[k])
  {
    RunKeepsInv(states, steps, i);
    var c, d := states[i].ctl, states[i + 1].ctl;
    assert StepAt(states, steps, i);
    InstallMoves(c, b, d);
    forall w | AtWrite(d, w, k) ensures CopyFits(d.workers[w].item, d.table[k], ReadBefore(steps, i, i + 1, w)) {
      LastRead(states, steps, i, w, k);
      SameReader(steps, i, i, w);
      assert ItemFits(c, k, c.workers[w].item);
    }
  }

  lemma InstallMoves(c: Control, b: nat, d: Control)
    requires DoManager(c, Install(b)) == Some(d)
    ensures b !in c.boxes && d.workers == c.workers
    ensures KeyOf(c.mgr.command) in d.table && d.table[KeyOf(c.mgr.command)].box == b
  {
  }

  /** One more step keeps the settings intact, or makes them forgotten when it loses them. */
  lemma IntactStep(states: seq<State>, steps: seq<Step>, i: nat, n: nat, k: string, y: Item)
    requires ConsumerSystem.Run(states, steps) && i < n < |steps| && !WritesEntry(states[n].ctl, steps[n], k)
    requires Intact(states, steps, i, n, k, y)
    ensures if Loses(states, steps, i, n, k) then Forgotten(states[n + 1].ctl, k, y)
            else Intact(states, steps, i, n + 1, k, y)
  {
    RunKeepsInv(states, steps, n);
    var s, st, t := states[n], steps[n], states[n + 1];
    assert StepAt(states, steps, n);
    if Loses(states, steps, i, n, k) {
      LoserIsLive(s, st, t, k);
      LosingForgets(s, st, t, k, y);
    } else {
      EntryChanges(s, st, t, k);
      forall w | AtWrite(t.ctl, w, k) ensures CopyFits(t.ctl.workers[w].item, y, ReadBefore(steps, i, n + 1, w)) {
        CopyComesFromRead(s, st, t, w, k);
        SameReader(steps, i, n, w);
      }
    }
  }

  lemma SameReader(steps: seq<Step>, i: nat, n: nat, w: nat)
    requires i <= n < |steps|
    ensures ReadBefore(steps, i, n + 1, w) <==> ReadBefore(steps, i, n, w) && !StepOf(steps[n], w)
  {
    if ReadBefore(steps, i, n + 1, w) {
      var r :| 0 <= r < i && steps[r] == ByWorkerStep(w, Read) && forall q :: r < q < n + 1 ==> !StepOf(steps[q], w);
    }
  }

  lemma LoserIsLive(s: State, st: Step, t: State, k: string)
    requires Do(s, st) == Some(t) && st.ByWorkerStep? && (st.worker.Remove? || st.worker.Write?)
    requires st.w in s.ctl.workers && s.ctl.workers[st.w].key == k
    ensures LiveWorker(s.ctl, st.w, k) && (st.worker.Write? ==> AtWrite(s.ctl, st.w, k))
  {
  }

  lemma LostBetweenStep(states: seq<State>, steps: seq<Step>, i: nat, n: nat, k: string)
    requires i < n < |steps| && |states| == |steps| + 1
    ensures LostBetween(states, steps, i, n + 1, k) <==>
      LostBetween(states, steps, i, n, k) || Loses(states, steps, i, n, k)
  {
  }

  lemma RunKeepsForgotten(states: seq<State>, steps: seq<Step>, n: nat, k: string, y: Item)
    requires ConsumerSystem.Run(states, steps) && n < |steps| && !WritesEntry(states[n].ctl, steps[n], k)
    requires Forgotten(states[n].ctl, k, y)
    ensures Forgotten(states[n + 1].ctl, k, y)
  {
    RunKeepsInv(states, steps, n);
    assert StepAt(states, steps, n);
    ForgottenStays(states[n], steps[n], states[n + 1], k, y);
  }

  lemma {:induction false} IntactUnlessLost(states: seq<State>, steps: seq<Step>, i: nat, j: nat, k: string, b: nat,
                                            y: Item)
    requires InstallsAt(states, steps, i, k, b) && k in states[i + 1].ctl.table && y == states[i + 1].ctl.table[k]
    requires i < j < |states| && forall n :: i < n < j ==> !WritesEntry(states[n].ctl, steps[n], k)
    ensures if LostBetween(states, steps, i, j, k) then Forgotten(states[j].ctl, k, y)
            else Intact(states, steps, i, j, k, y)
    decreases j
  {
    if j == i + 1 {
      InstalledIntact(states, steps, i, k, b);
    } else {
      IntactUnlessLost(states, steps, i, j - 1, k, b, y);
      LostBetweenStep(states, steps, i, j - 1, k);
      if LostBetween(states, steps, i, j - 1, k) {
        RunKeepsForgotten(states, steps, j - 1, k, y);
      } else {
        IntactStep(states, steps, i, j - 1, k, y);
      }
    }
  }

  /** Over any run: the settings of an Install, which the manager does not replace, are in the table
      exactly as long as no worker of the key has written back a copy that it had read before, and none
      has taken its Remove. */
  lemma UpdateSurvivesIff(states: seq<State>, steps: seq<Step>, i: nat, j: nat, k: string, b: nat)
    requires InstallsAt(states, steps, i, k, b) && i < j < |states|
    requires forall n :: i < n < j ==> !WritesEntry(states[n].ctl, steps[n], k)
    ensures k in states[i + 1].ctl.table
    ensures HoldsSettings(states[j].ctl, k, states[i + 1].ctl.table[k]) <==> !LostBetween(states, steps, i, j, k)
  {
    InstalledIntact(states, steps, i, k, b);
    IntactUnlessLost(states, steps, i, j, k, b, states[i + 1].ctl.table[k]);
  }
}
