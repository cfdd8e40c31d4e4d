/**
 What the shared table, the workers and the control channels keep on every interleaving
 (message.go:456-632): one live worker per key, its key in the table, table reads that cannot
 fail, and an exit handshake that cannot block.
 */
module ConsumerControl {
  import opened Wrappers
  import opened ConsumerSystem
  import Delivery

  /** A worker is live from its start until its deferred Remove. */
  predicate Live(wk: Worker) {
    !wk.pc.Closing? && !wk.pc.Done?
  }

  ghost predicate LiveWorker(c: Control, w: nat, k: string) {
    w in c.workers && c.workers[w].key == k && Live(c.workers[w])
  }

  /** Two items that differ in their times at most. */
  predicate SameSettings(a: Item, b: Item) {
    a.message == b.message && a.consumer == b.consumer && a.box == b.box
  }

  /** The worker has an item it is going to use. */
  predicate Loaded(pc: Pc) {
    pc.TopWrite? || pc.DeclaringExchange? || pc.DeclaringQueue? || pc.LoopWrite? || pc.Selecting? || pc.ExitPut?
        || pc.ExitSend?
  }

  /** The program counters at which a worker holds a pooled connection. */
  predicate HoldsConn(pc: Pc) {
    pc.WantChannel? || pc.ReadConfig? || pc.DeclaringExchange? || pc.DeclaringQueue? || pc.Binding? || pc.SettingQos?
    || pc.Consuming? || pc.GivingUp? || pc.LoopCheck? || pc.LoopRead? || pc.LoopWrite? || pc.Selecting?
    || pc.Handling? || pc.Settling? || pc.ExitPut?
  }

  /** The program counters after the "exit" command. */
  predicate Leaving(pc: Pc) {
    pc.ExitPut? || pc.ExitSend? || pc.Removing? || pc.Closing? || pc.Done?
  }

  /** The manager has decided that `k` needs a worker and has not started it yet. */
  predicate AboutToStart(m: Manager, k: string) {
    (m.Spawn? || (m.Store? && m.insert)) && KeyOf(m.command) == k
  }

  // ---- the invariants ------------------------------------------------------------------

  ghost predicate WorkersInTable(c: Control) {
    && (forall w, v, k :: LiveWorker(c, w, k) && LiveWorker(c, v, k) ==> w == v)
    && (forall w, k :: LiveWorker(c, w, k) ==> k in c.table && !AboutToStart(c.mgr, k))
    && (c.mgr.Spawn? ==> KeyOf(c.mgr.command) in c.table)
    && (forall w :: w in c.workers ==> !c.workers[w].pc.NotFound? && !c.workers[w].pc.Panicked?)
    && (forall w :: w in c.workers && Leaving(c.workers[w].pc) ==> c.workers[w].told)
  }

  ghost predicate ItemFits(c: Control, k: string, it: Item) {
    ItemKey(it) == k && it.box in c.boxes && c.boxes[it.box].owner == k
  }

  /** Every item in use belongs to the key it is used for, and so do its control channels. */
  ghost predicate ItemsFit(c: Control) {
    && (forall k :: k in c.table ==> ItemFits(c, k, c.table[k]))
    && (forall w :: w in c.workers && Loaded(c.workers[w].pc) ==> ItemFits(c, c.workers[w].key, c.workers[w].item))
    && (c.mgr.Touch? || c.mgr.Signal? ==> ItemFits(c, KeyOf(c.mgr.command), c.mgr.item))
  }

  predicate Unanswered(c: Control, b: nat) {
    b in c.boxes ==> c.boxes[b].write.None?
  }

  /** A live worker that has not answered yet. */
  ghost predicate Owes(c: Control, w: nat, k: string) {
    LiveWorker(c, w, k) && !c.workers[w].pc.Removing?
  }

  /** A worker that may still have to answer an "exit" finds its answer slot free. */
  ghost predicate ExitSlotsFree(c: Control) {
    && (forall b :: b in c.boxes && c.boxes[b].read.Some? ==> c.boxes[b].read.value == "exit")
    && (c.mgr.Spawn? && KeyOf(c.mgr.command) in c.table ==> Unanswered(c, c.table[KeyOf(c.mgr.command)].box))
    && (forall w, k :: Owes(c, w, k) ==>
         && (k in c.table ==> Unanswered(c, c.table[k].box))
         && (Loaded(c.workers[w].pc) ==> Unanswered(c, c.workers[w].item.box))
         && (c.mgr.Touch? && KeyOf(c.mgr.command) == k ==> Unanswered(c, c.mgr.item.box)))
  }

  ghost predicate ControlInv(c: Control) {
    WorkersInTable(c) && ItemsFit(c) && ExitSlotsFree(c)
  }

  // ---- the manager ---------------------------------------------------------------------

  lemma ManagerKeepsWorkers(c: Control, st: ManagerStep, d: Control)
    requires WorkersInTable(c) && DoManager(c, st) == Some(d)
    ensures WorkersInTable(d)
  {
    if st.Start? {
      assert forall v, k :: LiveWorker(d, v, k) <==>
        LiveWorker(c, v, k) || (v == st.worker && k == KeyOf(c.mgr.command));
    } else {
      assert forall v, k :: LiveWorker(d, v, k) <==> LiveWorker(c, v, k);
    }
  }

  lemma ManagerKeepsItems(c: Control, st: ManagerStep, d: Control)
    requires ItemsFit(c) && DoManager(c, st) == Some(d)
    ensures ItemsFit(d)
  {
    match st {
      case LookUp => LookUpKeepsItems(c, d);
      case Refresh(time) => RefreshKeepsItems(c, time, d);
      case Install(b) => InstallKeepsItems(c, b, d);
      case Start(w) => StartKeepsItems(c, w, d);
      case SendExit => SendExitKeepsItems(c, d);
      case _ =>
        assert d.table == c.table && d.workers == c.workers && d.boxes == c.boxes && !d.mgr.Touch? && !d.mgr.Signal?;
    }
  }

  lemma LookUpKeepsItems(c: Control, d: Control)
    requires ItemsFit(c) && DoManager(c, LookUp) == Some(d)
    ensures ItemsFit(d)
  {
  }

  lemma RefreshKeepsItems(c: Control, time: int, d: Control)
    requires ItemsFit(c) && DoManager(c, Refresh(time)) == Some(d)
    ensures ItemsFit(d)
  {
  }

  lemma InstallKeepsItems(c: Control, b: nat, d: Control)
    requires ItemsFit(c) && DoManager(c, Install(b)) == Some(d)
    ensures ItemsFit(d)
  {
  }

  lemma StartKeepsItems(c: Control, w: nat, d: Control)
    requires ItemsFit(c) && DoManager(c, Start(w)) == Some(d)
    ensures ItemsFit(d)
  {
  }

  lemma SendExitKeepsItems(c: Control, d: Control)
    requires ItemsFit(c) && DoManager(c, SendExit) == Some(d)
    ensures ItemsFit(d)
  {
  }

  lemma ManagerKeepsSlots(c: Control, st: ManagerStep, d: Control)
    requires WorkersInTable(c) && ItemsFit(c) && ExitSlotsFree(c) && DoManager(c, st) == Some(d)
    ensures ExitSlotsFree(d)
  {
    match st {
      case Start(w) => StartKeepsSlots(c, w, d);
      case Install(b) => InstallKeepsSlots(c, b, d);
      case LookUp => LookUpKeepsSlots(c, d);
      case Refresh(time) => RefreshKeepsSlots(c, time, d);
      case SendExit => SendExitKeepsSlots(c, d);
      case _ => assert forall v, k :: Owes(d, v, k) <==> Owes(c, v, k);
    }
  }

  lemma RefreshKeepsSlots(c: Control, time: int, d: Control)
    requires ExitSlotsFree(c) && DoManager(c, Refresh(time)) == Some(d)
    ensures ExitSlotsFree(d)
  {
    assert forall v, k :: Owes(d, v, k) <==> Owes(c, v, k);
  }

  lemma SendExitKeepsSlots(c: Control, d: Control)
    requires ExitSlotsFree(c) && DoManager(c, SendExit) == Some(d)
    ensures ExitSlotsFree(d)
  {
    assert forall b :: b in c.boxes ==> b in d.boxes && d.boxes[b].write == c.boxes[b].write;
    assert forall v, k :: Owes(d, v, k) <==> Owes(c, v, k);
  }

  lemma StartKeepsSlots(c: Control, w: nat, d: Control)
    requires ExitSlotsFree(c) && DoManager(c, Start(w)) == Some(d)
    ensures ExitSlotsFree(d)
  {
    assert forall v, k :: Owes(d, v, k) <==> Owes(c, v, k) || (v == w && k == KeyOf(c.mgr.command));
  }

  lemma LookUpKeepsSlots(c: Control, d: Control)
    requires ExitSlotsFree(c) && DoManager(c, LookUp) == Some(d)
    ensures ExitSlotsFree(d)
  {
    assert forall v, k :: Owes(d, v, k) <==> Owes(c, v, k);
  }

  lemma InstallKeepsSlots(c: Control, b: nat, d: Control)
    requires ItemsFit(c) && ExitSlotsFree(c) && DoManager(c, Install(b)) == Some(d)
    ensures ExitSlotsFree(d)
  {
    assert forall x :: x in c.boxes ==> d.boxes[x] == c.boxes[x];
    forall v, k | Owes(d, v, k)
      ensures k in d.table ==> Unanswered(d, d.table[k].box)
      ensures Loaded(d.workers[v].pc) ==> Unanswered(d, d.workers[v].item.box)
    {
      assert Owes(c, v, k);
    }
  }

  // ---- workers: four shapes of step ----------------------------------------------------

  /** Worker `w` moves on; it may take from or answer on its own control channels. */
  ghost predicate Quiet(c: Control, w: nat, d: Control) {
    && w in c.workers && w in d.workers
    && d == c.(workers := c.workers[w := d.workers[w]], boxes := d.boxes, approved := d.approved)
    && (var p, q := c.workers[w], d.workers[w];
       && q.key == p.key && q.item == p.item
       && (Live(q) ==> Live(p) && (p.pc.Removing? ==> q.pc.Removing?))
       && !q.pc.NotFound? && !q.pc.Panicked?
       && (Leaving(q.pc) ==> q.told)
       && (Loaded(q.pc) ==> Loaded(p.pc))
       && d.boxes.Keys == c.boxes.Keys
       && forall b :: b in c.boxes ==>
            && d.boxes[b].owner == c.boxes[b].owner
            && (d.boxes[b].read.Some? ==> d.boxes[b].read == c.boxes[b].read)
            && (d.boxes[b].write != c.boxes[b].write ==> Live(p) && q.pc.Removing? && c.boxes[b].owner == p.key))
  }

  lemma QuietKeepsControl(c: Control, w: nat, d: Control)
    requires ControlInv(c) && Quiet(c, w, d)
    ensures ControlInv(d)
  {
    QuietKeepsWorkers(c, w, d);
    QuietKeepsItems(c, w, d);
    QuietKeepsSlots(c, w, d);
  }

  lemma QuietKeepsWorkers(c: Control, w: nat, d: Control)
    requires WorkersInTable(c) && Quiet(c, w, d)
    ensures WorkersInTable(d)
  {
    assert Live(c.workers[w]) ==> LiveWorker(c, w, c.workers[w].key);
    assert forall v, k :: LiveWorker(d, v, k) ==> LiveWorker(c, v, k);
  }

  lemma QuietKeepsItems(c: Control, w: nat, d: Control)
    requires ItemsFit(c) && Quiet(c, w, d)
    ensures ItemsFit(d)
  {
  }

  lemma QuietKeepsSlots(c: Control, w: nat, d: Control)
    requires ControlInv(c) && Quiet(c, w, d)
    ensures ExitSlotsFree(d)
  {
    var key := c.workers[w].key;
    assert Live(c.workers[w]) ==> LiveWorker(c, w, key);
    forall v, k | Owes(d, v, k)
      ensures k in d.table ==> Unanswered(d, d.table[k].box)
      ensures Loaded(d.workers[v].pc) ==> Unanswered(d, d.workers[v].item.box)
      ensures d.mgr.Touch? && KeyOf(d.mgr.command) == k ==> Unanswered(d, d.mgr.item.box)
    {
      assert Owes(c, v, k);
      assert Live(c.workers[w]) && v != w ==> k != key;
    }
    if d.mgr.Spawn? {
      assert Live(c.workers[w]) ==> key != KeyOf(c.mgr.command);
    }
  }

  /** A live worker moves on, and the table loses no key. */
  lemma SameLifeKeepsWorkers(c: Control, w: nat, d: Control)
    requires WorkersInTable(c) && w in c.workers && w in d.workers
    requires d == c.(workers := c.workers[w := d.workers[w]], table := d.table) && c.table.Keys <= d.table.Keys
    requires d.workers[w].key == c.workers[w].key && Live(c.workers[w]) && Live(d.workers[w])
    requires var pc := d.workers[w].pc; !pc.NotFound? && !pc.Panicked? && !Leaving(pc)
    ensures WorkersInTable(d)
  {
    assert forall v, k :: LiveWorker(d, v, k) <==> LiveWorker(c, v, k);
  }

  /** A worker takes, or writes back, an item of its own key. */
  lemma OwnItemKeepsItems(c: Control, w: nat, d: Control)
    requires ItemsFit(c) && w in c.workers && w in d.workers
    requires d == c.(workers := c.workers[w := d.workers[w]], table := d.table)
    requires d.workers[w].key == c.workers[w].key && ItemFits(c, d.workers[w].key, d.workers[w].item)
    requires d.table == c.table || d.table == c.table[d.workers[w].key := d.workers[w].item]
    ensures ItemsFit(d)
  {
  }

  /** Worker `w` copies its table entry. */
  lemma LoadKeepsControl(c: Control, w: nat, pc: Pc, d: Control)
    requires ControlInv(c) && w in c.workers && c.workers[w].key in c.table
    requires Live(c.workers[w]) && !c.workers[w].pc.Removing?
    requires pc.TopWrite? || pc.LoopWrite? || pc.DeclaringExchange?
    requires d == c.(workers := c.workers[w := c.workers[w].(item := c.table[c.workers[w].key], pc := pc)])
    ensures ControlInv(d)
  {
    assert Owes(c, w, c.workers[w].key);
    SameLifeKeepsWorkers(c, w, d);
    OwnItemKeepsItems(c, w, d);
    LoadKeepsSlots(c, w, pc, d);
  }

  lemma LoadKeepsSlots(c: Control, w: nat, pc: Pc, d: Control)
    requires ExitSlotsFree(c) && w in c.workers && c.workers[w].key in c.table && Owes(c, w, c.workers[w].key)
    requires pc.TopWrite? || pc.LoopWrite? || pc.DeclaringExchange?
    requires d == c.(workers := c.workers[w := c.workers[w].(item := c.table[c.workers[w].key], pc := pc)])
    ensures ExitSlotsFree(d)
  {
    assert forall v, k :: Owes(d, v, k) <==> Owes(c, v, k);
  }

  /** Worker `w` writes back the entry it copied, with a new time, over whatever is there. */
  lemma WriteKeepsControl(c: Control, w: nat, time: int, pc: Pc, d: Control)
    requires ControlInv(c) && w in c.workers
    requires c.workers[w].pc.TopWrite? || c.workers[w].pc.LoopWrite?
    requires pc.WantConn? || pc.Selecting?
    requires var it := c.workers[w].item.(lasttime := time);
      d == c.(workers := c.workers[w := c.workers[w].(item := it, pc := pc)], table := c.table[c.workers[w].key := it])
    ensures ControlInv(d)
  {
    assert Owes(c, w, c.workers[w].key);
    SameLifeKeepsWorkers(c, w, d);
    OwnItemKeepsItems(c, w, d);
    WriteKeepsSlots(c, w, time, pc, d);
  }

  lemma WriteKeepsSlots(c: Control, w: nat, time: int, pc: Pc, d: Control)
    requires ExitSlotsFree(c) && w in c.workers
    requires forall v, k :: LiveWorker(c, v, k) && LiveWorker(c, w, k) ==> v == w
    requires c.mgr.Spawn? ==> !LiveWorker(c, w, KeyOf(c.mgr.command))
    requires c.workers[w].pc.TopWrite? || c.workers[w].pc.LoopWrite?
    requires pc.WantConn? || pc.Selecting?
    requires var it := c.workers[w].item.(lasttime := time);
      d == c.(workers := c.workers[w := c.workers[w].(item := it, pc := pc)], table := c.table[c.workers[w].key := it])
    ensures ExitSlotsFree(d)
  {
    var key := c.workers[w].key;
    assert Owes(c, w, key);
    assert forall v, k :: Owes(d, v, k) <==> Owes(c, v, k);
  }

  /** Worker `w` leaves: its entry goes with it. */
  lemma RemoveKeepsControl(c: Control, w: nat, d: Control)
    requires ControlInv(c) && w in c.workers && c.workers[w].pc.Removing?
    requires d == c.(workers := c.workers[w := c.workers[w].(pc := Closing)], table := c.table - {c.workers[w].key})
    ensures ControlInv(d)
  {
    var key := c.workers[w].key;
    assert LiveWorker(c, w, key);
    assert WorkersInTable(d) by {
      assert forall v, k :: LiveWorker(d, v, k) <==> LiveWorker(c, v, k) && v != w;
    }
    assert ItemsFit(d);
    RemoveKeepsSlots(c, w, d);
  }

  lemma RemoveKeepsSlots(c: Control, w: nat, d: Control)
    requires ExitSlotsFree(c) && w in c.workers && c.workers[w].pc.Removing?
    requires d == c.(workers := c.workers[w := c.workers[w].(pc := Closing)], table := c.table - {c.workers[w].key})
    ensures ExitSlotsFree(d)
  {
    assert forall v, k :: Owes(d, v, k) <==> Owes(c, v, k);
  }

  // ---- every worker step has one of the shapes -----------------------------------------

  lemma PoolStepMoves(s: State, w: nat, st: WorkerStep, t: State)
    requires w in s.ctl.workers && DoPool(s, w, st) == Some(t)
    ensures w in t.ctl.workers && t.brk == s.brk
    ensures t.ctl == s.ctl.(workers := s.ctl.workers[w := t.ctl.workers[w]])
    ensures t.ctl.workers[w] == s.ctl.workers[w].(pc := t.ctl.workers[w].pc, conn := t.ctl.workers[w].conn)
    ensures t.ctl.workers[w].pc.Top? || t.ctl.workers[w].pc.WantChannel? || t.ctl.workers[w].pc.ExitSend?
    ensures var pc := s.ctl.workers[w].pc;
      if t.ctl.workers[w].pc.ExitSend? then pc.ExitPut? else pc.WantConn? || pc.GivingUp?
  {
  }

  lemma PoolStepIsQuiet(s: State, w: nat, st: WorkerStep, t: State)
    requires w in s.ctl.workers && DoPool(s, w, st) == Some(t)
    requires s.ctl.workers[w].pc.ExitPut? ==> s.ctl.workers[w].told
    ensures Quiet(s.ctl, w, t.ctl)
  {
    PoolStepMoves(s, w, st, t);
  }

  lemma SignalStepIsQuiet(s: State, w: nat, st: WorkerStep, t: State)
    requires w in s.ctl.workers && DoSignal(s, w, st) == Some(t)
    requires Loaded(s.ctl.workers[w].pc) ==> ItemFits(s.ctl, s.ctl.workers[w].key, s.ctl.workers[w].item)
    requires Leaving(s.ctl.workers[w].pc) ==> s.ctl.workers[w].told
    ensures Quiet(s.ctl, w, t.ctl)
  {
    if st.TakeCommand? {
      TakeCommandIsQuiet(s, w, t);
    } else if st.SendExitOk? {
      SendExitOkIsQuiet(s, w, t);
    } else if st.Process? {
      ProcessIsQuiet(s, w, st.ok, t);
    }
  }

  lemma TakeCommandIsQuiet(s: State, w: nat, t: State)
    requires w in s.ctl.workers && DoSignal(s, w, TakeCommand) == Some(t)
    ensures Quiet(s.ctl, w, t.ctl)
  {
  }

  lemma SendExitOkIsQuiet(s: State, w: nat, t: State)
    requires w in s.ctl.workers && DoSignal(s, w, SendExitOk) == Some(t)
    requires ItemFits(s.ctl, s.ctl.workers[w].key, s.ctl.workers[w].item) && s.ctl.workers[w].told
    ensures Quiet(s.ctl, w, t.ctl)
  {
  }

  lemma ProcessIsQuiet(s: State, w: nat, ok: bool, t: State)
    requires w in s.ctl.workers && DoSignal(s, w, Process(ok)) == Some(t)
    ensures Quiet(s.ctl, w, t.ctl)
  {
  }

  lemma LadderMoves(wk: Worker, b: Delivery.Broker, st: WorkerStep, e: Effect)
    requires Ladder(wk, b, st) == Some(e)
    ensures e.worker == wk.(pc := e.worker.pc, chan := e.worker.chan)
    ensures HoldsConn(wk.pc) && HoldsConn(e.worker.pc) && Live(e.worker) && !Leaving(e.worker.pc)
    ensures Loaded(e.worker.pc) ==> Loaded(wk.pc)
  {
  }

  lemma SettlementMoves(wk: Worker, b: Delivery.Broker, st: WorkerStep, e: Effect)
    requires Settlement(wk, b, st) == Some(e)
    ensures e.worker == wk.(pc := e.worker.pc)
    ensures HoldsConn(wk.pc) <==> HoldsConn(e.worker.pc)
    ensures if st.CloseChannel? then wk.pc.Closing? && e.worker.pc.Done?
            else Live(wk) && Live(e.worker) && !Leaving(e.worker.pc) && !wk.pc.Removing?
    ensures !Loaded(e.worker.pc)
  {
  }

  lemma BrokerStepIsQuiet(s: State, w: nat, st: WorkerStep, t: State)
    requires w in s.ctl.workers && DoBroker(s, w, st) == Some(t)
    requires Leaving(s.ctl.workers[w].pc) ==> s.ctl.workers[w].told
    ensures Quiet(s.ctl, w, t.ctl)
  {
    var e := Effect(t.ctl.workers[w], t.brk);
    if st.TakeDelivery? || st.StreamEnded? || st.Settle? || st.CloseChannel? {
      SettlementMoves(s.ctl.workers[w], s.brk, st, e);
    } else {
      LadderMoves(s.ctl.workers[w], s.brk, st, e);
    }
  }

  lemma TableStepKeepsControl(s: State, w: nat, st: WorkerStep, t: State)
    requires ControlInv(s.ctl) && w in s.ctl.workers && DoTable(s, w, st) == Some(t)
    ensures ControlInv(t.ctl)
  {
    FoundByItsWorker(s.ctl, w);
    if st.Check? {
      CheckIsQuiet(s, w, t);
      QuietKeepsControl(s.ctl, w, t.ctl);
    } else if st.Read? || st.ReadSettings? {
      ReadMoves(s, w, st, t);
      LoadKeepsControl(s.ctl, w, t.ctl.workers[w].pc, t.ctl);
    } else if st.Write? {
      WriteMoves(s, w, st.time, t);
      WriteKeepsControl(s.ctl, w, st.time, t.ctl.workers[w].pc, t.ctl);
    } else if st.Remove? {
      RemoveKeepsControl(s.ctl, w, t.ctl);
    }
  }

  lemma FoundByItsWorker(c: Control, w: nat)
    requires WorkersInTable(c) && w in c.workers
    ensures Live(c.workers[w]) ==> c.workers[w].key in c.table
    ensures !c.workers[w].pc.NotFound?
  {
    assert Live(c.workers[w]) ==> LiveWorker(c, w, c.workers[w].key);
  }

  lemma CheckIsQuiet(s: State, w: nat, t: State)
    requires w in s.ctl.workers && DoTable(s, w, Check) == Some(t)
    requires s.ctl.workers[w].key in s.ctl.table
    ensures Quiet(s.ctl, w, t.ctl)
  {
  }

  lemma ReadMoves(s: State, w: nat, st: WorkerStep, t: State)
    requires w in s.ctl.workers && (st.Read? || st.ReadSettings?) && DoTable(s, w, st) == Some(t)
    requires s.ctl.workers[w].key in s.ctl.table
    ensures Live(s.ctl.workers[w]) && !s.ctl.workers[w].pc.Removing? && w in t.ctl.workers
    ensures var pc := t.ctl.workers[w].pc;
      && (pc.TopWrite? || pc.LoopWrite? || pc.DeclaringExchange?)
      && t.ctl == s.ctl.(workers := s.ctl.workers[w := s.ctl.workers[w].(item := s.ctl.table[s.ctl.workers[w].key],
                                                                         pc := pc)])
  {
  }

  lemma WriteMoves(s: State, w: nat, time: int, t: State)
    requires w in s.ctl.workers && DoTable(s, w, Write(time)) == Some(t)
    ensures s.ctl.workers[w].pc.TopWrite? || s.ctl.workers[w].pc.LoopWrite?
    ensures w in t.ctl.workers && (t.ctl.workers[w].pc.WantConn? || t.ctl.workers[w].pc.Selecting?)
    ensures var it := s.ctl.workers[w].item.(lasttime := time);
      t.ctl == s.ctl.(workers := s.ctl.workers[w := s.ctl.workers[w].(item := it, pc := t.ctl.workers[w].pc)],
                      table := s.ctl.table[s.ctl.workers[w].key := it])
  {
  }

  lemma WorkerStepKeepsControl(s: State, w: nat, st: WorkerStep, t: State)
    requires ControlInv(s.ctl) && w in s.ctl.workers && DoWorker(s, w, st) == Some(t)
    ensures ControlInv(t.ctl)
  {
    if DoTable(s, w, st) == Some(t) {
      TableStepKeepsControl(s, w, st, t);
    } else {
      if DoPool(s, w, st) == Some(t) {
        PoolStepIsQuiet(s, w, st, t);
      } else if DoSignal(s, w, st) == Some(t) {
        SignalStepIsQuiet(s, w, st, t);
      } else {
        BrokerStepIsQuiet(s, w, st, t);
      }
      QuietKeepsControl(s.ctl, w, t.ctl);
    }
  }

  lemma CallerKeepsControl(c: Control, st: CallerStep, d: Control)
    requires ControlInv(c) && DoCaller(c, st) == Some(d)
    ensures ControlInv(d)
  {
    CallerMoves(c, st, d);
    SameCoreKeepsControl(c, d);
  }

  /** Callers touch neither the table nor the workers nor the manager's state. */
  ghost predicate SameCore(c: Control, d: Control) {
    d.table == c.table && d.boxes == c.boxes && d.workers == c.workers && d.mgr == c.mgr
  }

  lemma CallerMoves(c: Control, st: CallerStep, d: Control)
    requires DoCaller(c, st) == Some(d)
    ensures SameCore(c, d)
  {
  }

  lemma SameCoreKeepsControl(c: Control, d: Control)
    requires ControlInv(c) && SameCore(c, d)
    ensures ControlInv(d)
  {
    assert forall w, k :: LiveWorker(d, w, k) <==> LiveWorker(c, w, k);
    assert forall w, k :: Owes(d, w, k) <==> Owes(c, w, k);
  }

  lemma StepKeepsControl(s: State, st: Step, t: State)
    requires ControlInv(s.ctl) && Do(s, st) == Some(t)
    ensures ControlInv(t.ctl)
  {
    match st {
      case ByCaller(cs) => CallerKeepsControl(s.ctl, cs, t.ctl);
      case ByManager(ms) =>
        ManagerKeepsWorkers(s.ctl, ms, t.ctl);
        ManagerKeepsItems(s.ctl, ms, t.ctl);
        ManagerKeepsSlots(s.ctl, ms, t.ctl);
      case ByWorkerStep(w, ws) => WorkerStepKeepsControl(s, w, ws, t);
      case _ =>
    }
  }
}
