/**
 What the manager has done when it answers (message.go:447-632). Over any run, between the receipt of a
 command and its answer the manager has looked the key up once; an "update" has been installed, and has
 started the only worker of a key that was absent; a "delete" has put an "exit" into the channel of the
 entry that was there; a "status" answers the time that the entry had.
 */
module Commands {
  import opened Wrappers
  import opened Config
  import opened ConsumerSystem
  import opened ConsumerControl
  import opened ConsumerResources
  import opened ConsumerTheorems
  import opened LostUpdates
  import opened Overlap

  /** The steps at which the manager did what for the command it is at. */
  datatype Trace = Trace(received: nat, lookedUp: nat, installed: nat, started: nat, signalled: nat)

  /** The manager is at `cmd` before step `n`; it took it from the inbox in step `r`, and has neither
      answered nor taken another since. */
  ghost predicate At(states: seq<State>, steps: seq<Step>, r: nat, n: nat, cmd: Command)
    requires |states| == |steps| + 1 && n <= |steps|
  {
    && r < n && steps[r] == ByManager(Receive) && states[r].ctl.inbox == Some(cmd)
    && !states[n].ctl.mgr.Idle? && states[n].ctl.mgr.command == cmd
    && forall q :: r < q < n ==> steps[q] != ByManager(Receive) && steps[q] != ByManager(SendAnswer)
  }

  /** In step `i` the command's settings get into the table, with channels that were not there before. */
  ghost predicate Installs(states: seq<State>, steps: seq<Step>, i: nat, cmd: Command)
    requires |states| == |steps| + 1 && i < |steps|
  {
    var k, c, d := KeyOf(cmd), states[i].ctl, states[i + 1].ctl;
    && steps[i].ByManager? && steps[i].manager.Install?
    && k in d.table && d.table[k].message == cmd.message && d.table[k].consumer == cmd.consumer
    && d.table[k].lasttime == 0 && d.table[k].box !in c.boxes
    && d.table[k].box in d.boxes && d.boxes[d.table[k].box] == Box(k, None, None)
  }

  ghost predicate OnlyLive(c: Control, w: nat, k: string) {
    forall v :: LiveWorker(c, v, k) <==> v == w
  }

  /** In step `q` a worker of the command's key is started; there was none, and it is the only one. */
  ghost predicate Starts(states: seq<State>, steps: seq<Step>, q: nat, cmd: Command)
    requires |states| == |steps| + 1 && q < |steps|
  {
    && steps[q].ByManager? && steps[q].manager.Start?
    && NoLive(states[q].ctl, KeyOf(cmd)) && OnlyLive(states[q + 1].ctl, steps[q].manager.worker, KeyOf(cmd))
  }

  /** In step `g` an "exit" is put into the empty control channel of this entry, and nothing else there. */
  ghost predicate Signals(states: seq<State>, steps: seq<Step>, g: nat, entry: Item)
    requires |states| == |steps| + 1 && g < |steps|
  {
    var c, d := states[g].ctl, states[g + 1].ctl;
    && steps[g] == ByManager(SendExit)
    && entry.box in c.boxes && c.boxes[entry.box].read.None?
    && d.boxes == c.boxes[entry.box := c.boxes[entry.box].(read := Some("exit"))]
  }

  /** The entry has these settings, its control channel is empty, and no worker of the key is told to
      leave or has other settings. */
  ghost predicate Fresh(c: Control, k: string, y: Item) {
    && k in c.table && SameSettings(c.table[k], y)
    && y.box in c.boxes && c.boxes[y.box].owner == k && c.boxes[y.box].read.None?
    && forall v :: LiveWorker(c, v, k) ==>
         !Leaving(c.workers[v].pc) && (Loaded(c.workers[v].pc) ==> SameSettings(c.workers[v].item, y))
  }

  /** What the manager has done for an "update" since it looked the key up in step `l`. */
  ghost predicate Updating(states: seq<State>, steps: seq<Step>, n: nat, tr: Trace)
    requires |states| == |steps| + 1 && n <= |steps| && tr.lookedUp < n && !states[n].ctl.mgr.Idle?
  {
    var c, cmd := states[n].ctl, states[n].ctl.mgr.command;
    var k, before := KeyOf(cmd), states[tr.lookedUp].ctl.table;
    match c.mgr
    case Touch(_, item) => k in before && item == before[k]
    case Store(_, insert) => insert <==> k !in before
    case Spawn(_) =>
      && k !in before && tr.lookedUp < tr.installed < n && Installs(states, steps, tr.installed, cmd)
      && Fresh(c, k, states[tr.installed + 1].ctl.table[k])
    case Respond(_, reply) =>
      && reply == Completed && tr.lookedUp < tr.installed < n && Installs(states, steps, tr.installed, cmd)
      && (k !in before ==>
           && tr.installed < tr.started < n && Starts(states, steps, tr.started, cmd)
           && Fresh(c, k, states[tr.installed + 1].ctl.table[k])
           && OnlyLive(c, steps[tr.started].manager.worker, k))
    case _ => false
  }

  /** The same for a "delete" and a "status". */
  ghost predicate Asking(states: seq<State>, steps: seq<Step>, n: nat, tr: Trace)
    requires |states| == |steps| + 1 && n <= |steps| && tr.lookedUp < n && !states[n].ctl.mgr.Idle?
  {
    var c, cmd := states[n].ctl, states[n].ctl.mgr.command;
    var k, before := KeyOf(cmd), states[tr.lookedUp].ctl.table;
    match c.mgr
    case Signal(_, item) => k in before && item == before[k]
    case Respond(_, reply) =>
      if cmd.action == "delete" then
        && reply == Completed
        && (k in before ==>
             tr.lookedUp < tr.signalled < n && Signals(states, steps, tr.signalled, before[k]))
      else reply == LastTime(if k in before then before[k].lasttime else 0)
    case _ => false
  }

  ghost predicate History(states: seq<State>, steps: seq<Step>, n: nat, tr: Trace)
    requires |states| == |steps| + 1 && n <= |steps|
  {
    && !states[n].ctl.mgr.Idle? && At(states, steps, tr.received, n, states[n].ctl.mgr.command)
    && (states[n].ctl.mgr.Fetch? ||
        (&& tr.received < tr.lookedUp < n && steps[tr.lookedUp] == ByManager(LookUp)
         && if states[n].ctl.mgr.command.action == "update" then Updating(states, steps, n, tr)
            else Asking(states, steps, n, tr)))
  }

  // ---- what a fresh entry keeps ------------------------------------------------------------

  /** The same workers of the key are live. */
  ghost predicate SameLive(c: Control, d: Control, k: string) {
    forall v :: LiveWorker(d, v, k) <==> LiveWorker(c, v, k)
  }

  lemma QuietKeepsFresh(c: Control, v: nat, d: Control, k: string, y: Item)
    requires Quiet(c, v, d) && Fresh(c, k, y)
    requires LiveWorker(c, v, k) ==> Live(d.workers[v]) && !Leaving(d.workers[v].pc)
    ensures Fresh(d, k, y) && SameLive(c, d, k)
  {
    forall x ensures LiveWorker(d, x, k) <==> LiveWorker(c, x, k) {
      if x == v {
        assert LiveWorker(d, v, k) ==> LiveWorker(c, v, k);
      }
    }
  }

  /** A worker leaves only by the "exit" in its control channel. */
  lemma FreshWorkerGoesOn(s: State, v: nat, st: WorkerStep, t: State, k: string, y: Item)
    requires Fresh(s.ctl, k, y) && LiveWorker(s.ctl, v, k)
    requires DoPool(s, v, st) == Some(t) || DoSignal(s, v, st) == Some(t) || DoBroker(s, v, st) == Some(t)
    ensures v in t.ctl.workers && Live(t.ctl.workers[v]) && !Leaving(t.ctl.workers[v].pc)
  {
    if DoPool(s, v, st) == Some(t) {
      PoolStepMoves(s, v, st, t);
    } else if DoSignal(s, v, st) == Some(t) {
      SignalGoesOn(s, v, st, t);
    } else {
      var e := Effect(t.ctl.workers[v], t.brk);
      if st.TakeDelivery? || st.StreamEnded? || st.Settle? || st.CloseChannel? {
        SettlementMoves(s.ctl.workers[v], s.brk, st, e);
      } else {
        LadderMoves(s.ctl.workers[v], s.brk, st, e);
      }
    }
  }

  lemma SignalGoesOn(s: State, v: nat, st: WorkerStep, t: State)
    requires v in s.ctl.workers && DoSignal(s, v, st) == Some(t) && !Leaving(s.ctl.workers[v].pc)
    requires s.ctl.workers[v].pc.Selecting? ==>
      var b := s.ctl.workers[v].item.box; b in s.ctl.boxes && s.ctl.boxes[b].read.None?
    ensures v in t.ctl.workers && Live(t.ctl.workers[v]) && !Leaving(t.ctl.workers[v].pc)
  {
  }

  lemma TableStepKeepsFresh(s: State, v: nat, st: WorkerStep, t: State, k: string, y: Item)
    requires Inv(s) && v in s.ctl.workers && DoTable(s, v, st) == Some(t) && Fresh(s.ctl, k, y)
    ensures Fresh(t.ctl, k, y) && SameLive(s.ctl, t.ctl, k)
  {
    TableStepMoves(s, v, st, t);
    if s.ctl.workers[v].key != k {
      TableStepTouchesItsKey(s, v, st, t, k);
    } else {
      ClosingTakesNoTableStep(s, v, st, t);
      FoundByItsWorker(s.ctl, v);
      assert LiveWorker(s.ctl, v, k);
      OwnTableStepKeepsFresh(s, v, st, t, y);
    }
    OneChangeKeepsFresh(s.ctl, v, t.ctl, k, y);
  }

  lemma ClosingTakesNoTableStep(s: State, v: nat, st: WorkerStep, t: State)
    requires v in s.ctl.workers && DoTable(s, v, st) == Some(t)
    ensures Live(s.ctl.workers[v])
  {
    TableStepTurns(s, v, st, t);
  }

  lemma OneChangeKeepsFresh(c: Control, v: nat, d: Control, k: string, y: Item)
    requires Fresh(c, k, y) && v in c.workers && v in d.workers
    requires d == c.(workers := c.workers[v := d.workers[v]], table := d.table) && d.workers[v].key == c.workers[v].key
    requires k in d.table && SameSettings(d.table[k], y)
    requires c.workers[v].key == k ==>
      && Live(c.workers[v]) && Live(d.workers[v]) && !Leaving(d.workers[v].pc)
      && (Loaded(d.workers[v].pc) ==> SameSettings(d.workers[v].item, y))
    ensures Fresh(d, k, y) && SameLive(c, d, k)
  {
    forall x ensures LiveWorker(d, x, k) <==> LiveWorker(c, x, k) {
      assert x != v ==> (LiveWorker(d, x, k) <==> LiveWorker(c, x, k));
    }
  }

  /** It copies the entry, or writes back the same settings. */
  lemma OwnTableStepKeepsFresh(s: State, v: nat, st: WorkerStep, t: State, y: Item)
    requires v in s.ctl.workers && DoTable(s, v, st) == Some(t)
    requires var k, wk := s.ctl.workers[v].key, s.ctl.workers[v];
      && k in s.ctl.table && SameSettings(s.ctl.table[k], y) && !Leaving(wk.pc) && !wk.pc.NotFound?
      && (Loaded(wk.pc) ==> SameSettings(wk.item, y))
    ensures var k := s.ctl.workers[v].key;
      && k in t.ctl.table && SameSettings(t.ctl.table[k], y) && v in t.ctl.workers
      && Live(t.ctl.workers[v]) && !Leaving(t.ctl.workers[v].pc)
      && (Loaded(t.ctl.workers[v].pc) ==> SameSettings(t.ctl.workers[v].item, y))
  {
  }

  lemma WorkerStepKeepsFresh(s: State, v: nat, st: WorkerStep, t: State, k: string, y: Item)
    requires Inv(s) && v in s.ctl.workers && DoWorker(s, v, st) == Some(t) && Fresh(s.ctl, k, y)
    ensures Fresh(t.ctl, k, y) && SameLive(s.ctl, t.ctl, k)
  {
    if DoTable(s, v, st) == Some(t) {
      TableStepKeepsFresh(s, v, st, t, k, y);
    } else {
      OtherStepIsQuiet(s, v, st, t);
      if LiveWorker(s.ctl, v, k) {
        FreshWorkerGoesOn(s, v, st, t, k, y);
      }
      QuietKeepsFresh(s.ctl, v, t.ctl, k, y);
    }
  }

  lemma OtherStepIsQuiet(s: State, v: nat, st: WorkerStep, t: State)
    requires ControlInv(s.ctl) && v in s.ctl.workers && DoWorker(s, v, st) == Some(t) && DoTable(s, v, st) != Some(t)
    ensures Quiet(s.ctl, v, t.ctl)
    ensures DoPool(s, v, st) == Some(t) || DoSignal(s, v, st) == Some(t) || DoBroker(s, v, st) == Some(t)
  {
    if DoPool(s, v, st) == Some(t) {
      PoolStepIsQuiet(s, v, st, t);
    } else if DoSignal(s, v, st) == Some(t) {
      SignalStepIsQuiet(s, v, st, t);
    } else {
      BrokerStepIsQuiet(s, v, st, t);
    }
  }

  lemma StepKeepsFresh(s: State, st: Step, t: State, k: string, y: Item)
    requires Inv(s) && Do(s, st) == Some(t) && !st.ByManager? && Fresh(s.ctl, k, y)
    ensures Fresh(t.ctl, k, y) && SameLive(s.ctl, t.ctl, k) && t.ctl.mgr == s.ctl.mgr
  {
    if st.ByWorkerStep? {
      WorkerStepKeepsFresh(s, st.w, st.worker, t, k, y);
    } else if st.ByCaller? {
      CallerMoves(s.ctl, st.caller, t.ctl);
    }
    OthersLeaveManager(s, st, t);
  }

  lemma OthersLeaveManager(s: State, st: Step, t: State)
    requires Inv(s) && Do(s, st) == Some(t) && !st.ByManager?
    ensures t.ctl.mgr == s.ctl.mgr
  {
    if st.ByWorkerStep? {
      if DoTable(s, st.w, st.worker) == Some(t) {
        TableStepMoves(s, st.w, st.worker, t);
      } else {
        OtherStepSpares(s, st.w, st.worker, t, "");
      }
    } else if st.ByCaller? {
      CallerMoves(s.ctl, st.caller, t.ctl);
    }
  }

  // ---- the history of the manager ----------------------------------------------------------

  /** Between receipt and answer the manager stays with its command. */
  lemma ManagerStaysAt(c: Control, st: ManagerStep, d: Control)
    requires DoManager(c, st) == Some(d) && !st.Receive? && !st.SendAnswer?
    ensures !c.mgr.Idle? && !d.mgr.Idle? && d.mgr.command == c.mgr.command
  {
  }

  lemma LookUpMoves(c: Control, d: Control)
    requires DoManager(c, LookUp) == Some(d) && Known(c.mgr.command.action)
    ensures var cmd, k := c.mgr.command, KeyOf(c.mgr.command);
      c.mgr.Fetch? && match cmd.action
        case "update" => d.mgr == if k in c.table then Touch(cmd, c.table[k]) else Store(cmd, true)
        case "delete" => d.mgr == if k in c.table then Signal(cmd, c.table[k]) else Respond(cmd, Completed)
        case _ => d.mgr == Respond(cmd, LastTime(if k in c.table then c.table[k].lasttime else 0))
  {
  }

  lemma ManagerFacts(states: seq<State>, steps: seq<Step>, n: nat)
    requires ConsumerSystem.Run(states, steps) && n < |states|
    ensures WorkersInTable(states[n].ctl) && OnTask(states[n].ctl.mgr)
  {
    RunKeepsInv(states, steps, n);
  }

  lemma OthersIdle(states: seq<State>, steps: seq<Step>, n: nat)
    requires ConsumerSystem.Run(states, steps) && n < |steps| && !steps[n].ByManager?
    ensures states[n + 1].ctl.mgr == states[n].ctl.mgr
  {
    RunKeepsInv(states, steps, n);
    assert StepAt(states, steps, n);
    OthersLeaveManager(states[n], steps[n], states[n + 1]);
  }

  lemma {:induction false} LookedUp(states: seq<State>, steps: seq<Step>, n: nat, tr: Trace) returns (next: Trace)
    requires ConsumerSystem.Run(states, steps) && n < |steps| && steps[n] == ByManager(LookUp)
    requires History(states, steps, n, tr)
    ensures History(states, steps, n + 1, next)
  {
    assert StepAt(states, steps, n);
    KnownCommand(states, steps, n);
    ManagerStaysAt(states[n].ctl, LookUp, states[n + 1].ctl);
    LookUpMoves(states[n].ctl, states[n + 1].ctl);
    next := tr.(lookedUp := n);
  }

  lemma KnownCommand(states: seq<State>, steps: seq<Step>, n: nat)
    requires ConsumerSystem.Run(states, steps) && n < |steps| && states[n].ctl.mgr.Fetch?
    ensures Known(states[n].ctl.mgr.command.action)
  {
    RunKeepsInv(states, steps, n);
    FetchIsKnown(states[n].ctl);
  }

  lemma FetchIsKnown(c: Control)
    requires Paired(c) && c.mgr.Fetch?
    ensures Known(c.mgr.command.action)
  {
    assert c.awaiting != map[];
    var x :| x in c.awaiting;
    assert InFlight(c, c.awaiting[x]);
  }

  lemma {:induction false} Refreshed(states: seq<State>, steps: seq<Step>, n: nat, tr: Trace)
    requires ConsumerSystem.Run(states, steps) && n < |steps| && steps[n].ByManager? && steps[n].manager.Refresh?
    requires History(states, steps, n, tr)
    ensures History(states, steps, n + 1, tr)
  {
    ManagerFacts(states, steps, n);
    assert StepAt(states, steps, n);
    ManagerStaysAt(states[n].ctl, steps[n].manager, states[n + 1].ctl);
  }

  /** A new entry is fresh: its channels are empty, and its key has no worker. */
  lemma InstallIsFresh(c: Control, b: nat, d: Control)
    requires WorkersInTable(c) && DoManager(c, Install(b)) == Some(d) && c.mgr.insert
    ensures var k := KeyOf(c.mgr.command); k in d.table && Fresh(d, k, d.table[k])
  {
    forall v ensures !LiveWorker(d, v, KeyOf(c.mgr.command)) {
      assert LiveWorker(d, v, KeyOf(c.mgr.command)) ==> LiveWorker(c, v, KeyOf(c.mgr.command));
    }
  }

  lemma {:induction false} Installed(states: seq<State>, steps: seq<Step>, n: nat, tr: Trace) returns (next: Trace)
    requires ConsumerSystem.Run(states, steps) && n < |steps| && steps[n].ByManager? && steps[n].manager.Install?
    requires History(states, steps, n, tr)
    ensures History(states, steps, n + 1, next)
  {
    ManagerFacts(states, steps, n);
    assert StepAt(states, steps, n);
    ManagerStaysAt(states[n].ctl, steps[n].manager, states[n + 1].ctl);
    if states[n].ctl.mgr.insert {
      InstallIsFresh(states[n].ctl, steps[n].manager.box, states[n + 1].ctl);
    }
    next := tr.(installed := n);
  }

  /** A started worker is the only one of its key, and leaves a fresh entry fresh. */
  lemma StartIsOnly(c: Control, w: nat, d: Control)
    requires WorkersInTable(c) && DoManager(c, Start(w)) == Some(d)
    ensures var k := KeyOf(c.mgr.command);
      NoLive(c, k) && OnlyLive(d, w, k)
  {
    var k := KeyOf(c.mgr.command);
    forall v ensures LiveWorker(d, v, k) <==> v == w {
      assert !LiveWorker(c, v, k);
    }
  }

  lemma StartKeepsFresh(c: Control, w: nat, d: Control, y: Item)
    requires WorkersInTable(c) && DoManager(c, Start(w)) == Some(d) && Fresh(c, KeyOf(c.mgr.command), y)
    ensures Fresh(d, KeyOf(c.mgr.command), y)
  {
    StartIsOnly(c, w, d);
  }

  lemma {:induction false} Started(states: seq<State>, steps: seq<Step>, n: nat, tr: Trace) returns (next: Trace)
    requires ConsumerSystem.Run(states, steps) && n < |steps| && steps[n].ByManager? && steps[n].manager.Start?
    requires History(states, steps, n, tr)
    ensures History(states, steps, n + 1, next)
  {
    SpawnsHere(states, steps, n);
    next := tr.(started := n);
    StartedOne(states, steps, n, states[tr.installed + 1].ctl.table[KeyOf(states[n].ctl.mgr.command)]);
  }

  lemma SpawnsHere(states: seq<State>, steps: seq<Step>, n: nat)
    requires ConsumerSystem.Run(states, steps) && n < |steps| && steps[n].ByManager? && steps[n].manager.Start?
    ensures states[n].ctl.mgr.Spawn? && states[n].ctl.mgr.command.action == "update"
  {
    ManagerFacts(states, steps, n);
    assert StepAt(states, steps, n);
  }

  lemma StartedOne(states: seq<State>, steps: seq<Step>, n: nat, y: Item)
    requires ConsumerSystem.Run(states, steps) && n < |steps| && steps[n].ByManager? && steps[n].manager.Start?
    requires !states[n].ctl.mgr.Idle? && Fresh(states[n].ctl, KeyOf(states[n].ctl.mgr.command), y)
    ensures var cmd, c, d := states[n].ctl.mgr.command, states[n].ctl, states[n + 1].ctl;
      && d.mgr == Respond(cmd, Completed) && Starts(states, steps, n, cmd)
      && Fresh(d, KeyOf(cmd), y) && OnlyLive(d, steps[n].manager.worker, KeyOf(cmd))
  {
    ManagerFacts(states, steps, n);
    assert StepAt(states, steps, n);
    var c, w, d := states[n].ctl, steps[n].manager.worker, states[n + 1].ctl;
    StartMoves(c, w, d);
    StartIsOnly(c, w, d);
    StartKeepsFresh(c, w, d, y);
  }

  lemma StartMoves(c: Control, w: nat, d: Control)
    requires DoManager(c, Start(w)) == Some(d)
    ensures c.mgr.Spawn? && d.mgr == Respond(c.mgr.command, Completed)
  {
  }

  lemma {:induction false} ExitSent(states: seq<State>, steps: seq<Step>, n: nat, tr: Trace) returns (next: Trace)
    requires ConsumerSystem.Run(states, steps) && n < |steps| && steps[n] == ByManager(SendExit)
    requires History(states, steps, n, tr)
    ensures History(states, steps, n + 1, next)
  {
    ManagerFacts(states, steps, n);
    assert StepAt(states, steps, n);
    ManagerStaysAt(states[n].ctl, SendExit, states[n + 1].ctl);
    next := tr.(signalled := n);
  }

  /** A step that is not the manager's adds nothing to the history. */
  lemma {:induction false} NotTheManager(states: seq<State>, steps: seq<Step>, n: nat, tr: Trace)
    requires ConsumerSystem.Run(states, steps) && n < |steps| && !steps[n].ByManager?
    requires History(states, steps, n, tr)
    ensures History(states, steps, n + 1, tr)
  {
    OthersIdle(states, steps, n);
    var c := states[n].ctl;
    if c.mgr.command.action == "update" && !c.mgr.Fetch? && (c.mgr.Spawn? || c.mgr.Respond?) {
      var k := KeyOf(c.mgr.command);
      var y := states[tr.installed + 1].ctl.table[k];
      if Fresh(c, k, y) {
        RunKeepsFresh(states, steps, n, k, y);
      }
    }
  }

  lemma RunKeepsFresh(states: seq<State>, steps: seq<Step>, n: nat, k: string, y: Item)
    requires ConsumerSystem.Run(states, steps) && n < |steps| && !steps[n].ByManager? && Fresh(states[n].ctl, k, y)
    ensures Fresh(states[n + 1].ctl, k, y) && SameLive(states[n].ctl, states[n + 1].ctl, k)
  {
    RunKeepsInv(states, steps, n);
    assert StepAt(states, steps, n);
    StepKeepsFresh(states[n], steps[n], states[n + 1], k, y);
  }

  lemma {:induction false} Received(states: seq<State>, steps: seq<Step>, n: nat) returns (tr: Trace)
    requires ConsumerSystem.Run(states, steps) && n < |steps| && steps[n] == ByManager(Receive)
    ensures History(states, steps, n + 1, tr)
  {
    assert StepAt(states, steps, n);
    tr := Trace(n, 0, 0, 0, 0);
  }

  /** A manager that is not idle has a history, in every state of every run. */
  lemma {:induction false} HistoryOf(states: seq<State>, steps: seq<Step>, n: nat) returns (tr: Trace)
    requires ConsumerSystem.Run(states, steps) && n <= |steps| && !states[n].ctl.mgr.Idle?
    ensures History(states, steps, n, tr)
  {
    if n > 0 && steps[n - 1] == ByManager(Receive) {
      tr := Received(states, steps, n - 1);
    } else {
      BusyBefore(states, steps, n);
      tr := HistoryOf(states, steps, n - 1);
      tr := OneMoreStep(states, steps, n - 1, tr);
    }
  }

  lemma BusyBefore(states: seq<State>, steps: seq<Step>, n: nat)
    requires ConsumerSystem.Run(states, steps) && n <= |steps| && !states[n].ctl.mgr.Idle?
    requires n > 0 ==> steps[n - 1] != ByManager(Receive)
    ensures n > 0 && !states[n - 1].ctl.mgr.Idle? && steps[n - 1] != ByManager(SendAnswer)
  {
    if n > 0 {
      if steps[n - 1].ByManager? {
        assert StepAt(states, steps, n - 1);
        BusyManager(states[n - 1].ctl, steps[n - 1].manager, states[n].ctl);
      } else {
        OthersIdle(states, steps, n - 1);
      }
    }
  }

  lemma BusyManager(c: Control, ms: ManagerStep, d: Control)
    requires DoManager(c, ms) == Some(d) && !d.mgr.Idle? && !ms.Receive?
    ensures !c.mgr.Idle? && !ms.SendAnswer?
  {
  }

  lemma {:induction false} OneMoreStep(states: seq<State>, steps: seq<Step>, n: nat, tr: Trace) returns (next: Trace)
    requires ConsumerSystem.Run(states, steps) && n < |steps| && History(states, steps, n, tr)
    requires steps[n] != ByManager(Receive) && steps[n] != ByManager(SendAnswer)
    ensures History(states, steps, n + 1, next)
  {
    next := tr;
    if !steps[n].ByManager? {
      NotTheManager(states, steps, n, tr);
    } else {
      match steps[n].manager {
        case LookUp => next := LookedUp(states, steps, n, tr);
        case Refresh(_) => Refreshed(states, steps, n, tr);
        case Install(_) => next := Installed(states, steps, n, tr);
        case Start(_) => next := Started(states, steps, n, tr);
        case SendExit => next := ExitSent(states, steps, n, tr);
        case _ =>
      }
    }
  }

  // ---- what an answer means ----------------------------------------------------------------

  /** The manager's answer to `cmd` in step `j` is to a command that it took in step `r` and looked up in
      step `l`, with no other command in between. */
  ghost predicate Answers(states: seq<State>, steps: seq<Step>, j: nat, cmd: Command, r: nat, l: nat)
    requires |states| == |steps| + 1 && j < |steps|
  {
    && steps[j] == ByManager(SendAnswer) && At(states, steps, r, j, cmd)
    && r < l < j && steps[l] == ByManager(LookUp)
  }

  lemma {:induction false} AnswerHistory(states: seq<State>, steps: seq<Step>, j: nat) returns (tr: Trace)
    requires ConsumerSystem.Run(states, steps) && j < |steps| && steps[j] == ByManager(SendAnswer)
    ensures states[j].ctl.mgr.Respond? && History(states, steps, j, tr)
    ensures Known(states[j].ctl.mgr.command.action)
    ensures states[j + 1].ctl.outbox == Some(Answer(states[j].ctl.mgr.command, states[j].ctl.mgr.reply))
  {
    assert StepAt(states, steps, j);
    tr := HistoryOf(states, steps, j);
    AnswersKnown(states, steps, j);
  }

  lemma AnswersKnown(states: seq<State>, steps: seq<Step>, j: nat)
    requires ConsumerSystem.Run(states, steps) && j < |states| && states[j].ctl.mgr.Respond?
    ensures Known(states[j].ctl.mgr.command.action)
  {
    RunKeepsInv(states, steps, j);
    RespondIsKnown(states[j].ctl);
  }

  lemma RespondIsKnown(c: Control)
    requires Paired(c) && c.mgr.Respond?
    ensures Known(c.mgr.command.action)
  {
    assert c.awaiting != map[];
    var x :| x in c.awaiting;
    assert InFlight(c, c.awaiting[x]);
  }

  /** Over any run: an "update" is answered "completed", and only after its settings have been put into the
      table with new channels. If the key was absent when the manager looked it up, a worker of the key has
      also been started, when there was none; and at the answer it is still the only live one and the
      entry still has the settings. */
  lemma {:induction false} AnsweredUpdate(states: seq<State>, steps: seq<Step>, j: nat, cmd: Command)
    returns (r: nat, l: nat, i: nat, q: nat)
    requires ConsumerSystem.Run(states, steps) && j < |steps| && steps[j] == ByManager(SendAnswer)
    requires states[j].ctl.mgr.Respond? && states[j].ctl.mgr.command == cmd && cmd.action == "update"
    ensures Answers(states, steps, j, cmd, r, l) && states[j + 1].ctl.outbox == Some(Answer(cmd, Completed))
    ensures l < i < j && Installs(states, steps, i, cmd)
    ensures KeyOf(cmd) !in states[l].ctl.table ==>
      && i < q < j && Starts(states, steps, q, cmd)
      && OnlyLive(states[j].ctl, steps[q].manager.worker, KeyOf(cmd))
      && HoldsSettings(states[j].ctl, KeyOf(cmd), states[i + 1].ctl.table[KeyOf(cmd)])
  {
    var tr := AnswerHistory(states, steps, j);
    r, l, i, q := tr.received, tr.lookedUp, tr.installed, tr.started;
  }

  /** Over any run: a "delete" is answered "completed", and only after an "exit" has been put into the
      empty control channel of the entry that the manager found, or when it found none. */
  lemma {:induction false} AnsweredDelete(states: seq<State>, steps: seq<Step>, j: nat, cmd: Command)
    returns (r: nat, l: nat, g: nat)
    requires ConsumerSystem.Run(states, steps) && j < |steps| && steps[j] == ByManager(SendAnswer)
    requires states[j].ctl.mgr.Respond? && states[j].ctl.mgr.command == cmd && cmd.action == "delete"
    ensures Answers(states, steps, j, cmd, r, l) && states[j + 1].ctl.outbox == Some(Answer(cmd, Completed))
    ensures KeyOf(cmd) in states[l].ctl.table ==>
      l < g < j && Signals(states, steps, g, states[l].ctl.table[KeyOf(cmd)])
  {
    var tr := AnswerHistory(states, steps, j);
    r, l, g := tr.received, tr.lookedUp, tr.signalled;
  }

  /** Over any run: a "status" is answered with the time of the entry that the manager found, or 0. */
  lemma {:induction false} AnsweredStatus(states: seq<State>, steps: seq<Step>, j: nat, cmd: Command)
    returns (r: nat, l: nat)
    requires ConsumerSystem.Run(states, steps) && j < |steps| && steps[j] == ByManager(SendAnswer)
    requires states[j].ctl.mgr.Respond? && states[j].ctl.mgr.command == cmd && cmd.action == "status"
    ensures Answers(states, steps, j, cmd, r, l)
    ensures var k, before := KeyOf(cmd), states[l].ctl.table;
      states[j + 1].ctl.outbox == Some(Answer(cmd, LastTime(if k in before then before[k].lasttime else 0)))
  {
    var tr := AnswerHistory(states, steps, j);
    r, l := tr.received, tr.lookedUp;
  }

  /** What a caller sends is what it waits for; an unknown action is refused, with nothing sent. */
  lemma NotifySends(s: State, u: nat, action: string, m: Header, con: Consumer, t: State)
    requires Do(s, ByCaller(Notify(u, action, m, con))) == Some(t)
    ensures if Known(action) then
              && u in t.ctl.awaiting && t.ctl.inbox == Some(t.ctl.awaiting[u])
              && t.ctl.awaiting[u].action == action && t.ctl.awaiting[u].message == m
              && t.ctl.awaiting[u].consumer == con
            else t == s
  {
  }

  /** The time that a step writes into the entry of `k`: the manager's or the worker's own when it writes
      an entry back, and 0 when the manager installs one. */
  function WrittenTime(s: State, st: Step, k: string): Option<int> {
    match st
    case ByManager(Refresh(t)) => if s.ctl.mgr.Touch? && KeyOf(s.ctl.mgr.command) == k then Some(t) else None
    case ByManager(Install(_)) => if s.ctl.mgr.Store? && KeyOf(s.ctl.mgr.command) == k then Some(0) else None
    case ByWorkerStep(w, Write(t)) =>
      if w in s.ctl.workers && s.ctl.workers[w].key == k then Some(t) else None
    case _ => None
  }

  /** A step leaves the time of an entry alone unless it writes one. */
  lemma TimesAreWritten(s: State, st: Step, t: State, k: string)
    requires Do(s, st) == Some(t) && k in t.ctl.table
    ensures match WrittenTime(s, st, k)
      case Some(time) => t.ctl.table[k].lasttime == time
      case None => k in s.ctl.table && t.ctl.table[k].lasttime == s.ctl.table[k].lasttime
  {
    match st {
      case ByCaller(cs) => CallerMoves(s.ctl, cs, t.ctl);
      case ByManager(ms) => ManagerWritesTime(s.ctl, ms, t.ctl, k);
      case ByWorkerStep(w, ws) => WorkerWritesTime(s, w, ws, t, k);
      case _ =>
    }
  }

  lemma ManagerWritesTime(c: Control, ms: ManagerStep, d: Control, k: string)
    requires DoManager(c, ms) == Some(d) && k in d.table
    ensures if (ms.Refresh? || ms.Install?) && KeyOf(c.mgr.command) == k
            then d.table[k].lasttime == (if ms.Refresh? then ms.time else 0)
            else k in c.table && d.table[k].lasttime == c.table[k].lasttime
  {
  }

  lemma WorkerWritesTime(s: State, w: nat, st: WorkerStep, t: State, k: string)
    requires w in s.ctl.workers && DoWorker(s, w, st) == Some(t) && k in t.ctl.table
    ensures if st.Write? && s.ctl.workers[w].key == k then t.ctl.table[k].lasttime == st.time
            else k in s.ctl.table && t.ctl.table[k].lasttime == s.ctl.table[k].lasttime
  {
    if DoTable(s, w, st) != Some(t) {
      WorkerStepKeepsTable(s, w, st, t);
    } else if s.ctl.workers[w].key != k {
      TableStepTouchesItsKey(s, w, st, t, k);
    } else if st.Write? {
      WriteMoves(s, w, st.time, t);
    } else {
      OtherTableStepKeepsTime(s, w, st, t);
    }
  }

  lemma OtherTableStepKeepsTime(s: State, w: nat, st: WorkerStep, t: State)
    requires w in s.ctl.workers && DoTable(s, w, st) == Some(t) && !st.Write?
    requires s.ctl.workers[w].key in t.ctl.table
    ensures t.ctl.table == s.ctl.table
  {
  }

  /** While the API is up one caller at a time holds the lock, and one that has its answer can pass it on to
      any other. */
  lemma LockIsPassedOn(s: State, u: nat, v: nat) returns (t: State, next: State)
    requires Reachable(s) && s.ctl.holder == Some(u) && u !in s.ctl.awaiting
    ensures Do(s, ByCaller(Lock(v))).None?
    ensures Do(s, ByCaller(Unlock(u))) == Some(t) && Do(t, ByCaller(Lock(v))) == Some(next)
    ensures next.ctl.holder == Some(v) && t.ctl.awaiting == s.ctl.awaiting
  {
    ReachablePairs(s);
    t := Do(s, ByCaller(Unlock(u))).value;
    next := Do(t, ByCaller(Lock(v))).value;
  }
}
