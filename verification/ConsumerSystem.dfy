/**
 The consumer manager, its workers and the callers of `notifyConsumerManager`
 (message.go:347-633) as a transition system. Every Get, Set and Remove on the shared table,
 every channel send and receive, every pool call and every broker call is one step, and any
 goroutine may take the next step.
 */
module ConsumerSystem {
  import opened Wrappers
  import opened Config
  import opened PoolLedger
  import Delivery

  /** The goroutine that runs `main`. */
  const MAIN: nat := 0

  /** A control command. `ticket` numbers the calls; it stands for the identity of a call. */
  datatype Command = Command(action: string, message: Header, consumer: Consumer, ticket: nat)
  datatype Reply = Completed | LastTime(t: int) | Unknown
  datatype Answer = Answer(command: Command, reply: Reply)

  /** A `manageConsumer` table entry; `box` identifies its pair of control channels. */
  datatype Item = Item(message: Header, consumer: Consumer, lasttime: int, box: nat)

  /** The one-slot channels consumerReadChan and consumerWriteChan, made for key `owner`. */
  datatype Box = Box(owner: string, read: Option<string>, write: Option<string>)

  datatype Manager =
    | Idle
    | Fetch(command: Command)
    | Touch(command: Command, item: Item)
    | Store(command: Command, insert: bool)
    | Spawn(command: Command)
    | Signal(command: Command, item: Item)
    | Respond(command: Command, reply: Reply)

  datatype Pc =
    | Top | TopRead | TopWrite | WantConn | WantChannel | ReadConfig
    | DeclaringExchange | DeclaringQueue | Binding | SettingQos | Consuming | GivingUp
    | LoopCheck | LoopRead | LoopWrite | Selecting | Handling(copy: nat) | Settling(copy: nat, ok: bool)
    | ExitPut | ExitSend | Removing | Closing | Done
    | NotFound | Panicked

  /** A worker goroutine. `told` records that it has received "exit". */
  datatype Worker = Worker(key: string, pc: Pc, item: Item, conn: Option<nat>, chan: Option<nat>, told: bool)

  /** Who holds a pooled connection: a worker, or some other user such as a channel factory. */
  datatype Holder = ByWorker(worker: nat) | ByOther(id: nat)

  datatype Control = Control(
    table: map<string, Item>,
    boxes: map<nat, Box>,
    workers: map<nat, Worker>,
    mgr: Manager,
    inbox: Option<Command>,
    outbox: Option<Answer>,
    apiUp: bool,
    holder: Option<nat>,
    awaiting: map<nat, Command>,
    nextTicket: nat,
    approved: set<nat>)

  datatype State = State(ctl: Control, pool: Ledger<Holder>, brk: Delivery.Broker)

  function KeyOf(c: Command): string {
    ConsumerKey(c.message.name, c.consumer.id)
  }

  function ItemKey(it: Item): string {
    ConsumerKey(it.message.name, it.consumer.id)
  }

  predicate Known(action: string) {
    action == "update" || action == "delete" || action == "status"
  }

  // ---- callers -------------------------------------------------------------------------

  datatype CallerStep =
    | Lock(caller: nat)
    | Unlock(caller: nat)
    | Notify(caller: nat, action: string, message: Header, consumer: Consumer)
    | Collect(caller: nat)
    | StartApi

  /** Callers of notifyConsumerManager hold msgLock, except main, which runs before the API starts. */
  predicate MayCall(c: Control, caller: nat) {
    && caller !in c.awaiting
    && (if c.apiUp then c.holder == Some(caller) else caller == MAIN)
  }

  function DoCaller(c: Control, st: CallerStep): Option<Control> {
    match st
    case Lock(u) => if c.apiUp && c.holder.None? then Some(c.(holder := Some(u))) else None
    case Unlock(u) => if c.holder == Some(u) && u !in c.awaiting then Some(c.(holder := None)) else None
    case Notify(u, action, m, con) =>
      if !MayCall(c, u) then None
      else if !Known(action) then Some(c)
      else if c.inbox.Some? then None
      else
        var cmd := Command(action, m, con, c.nextTicket);
        Some(c.(inbox := Some(cmd), awaiting := c.awaiting[u := cmd], nextTicket := c.nextTicket + 1))
    case Collect(u) =>
      if u in c.awaiting && c.outbox.Some? then Some(c.(outbox := None, awaiting := c.awaiting - {u})) else None
    case StartApi => if !c.apiUp && MAIN !in c.awaiting then Some(c.(apiUp := true)) else None
  }

  // ---- the manager ---------------------------------------------------------------------

  datatype ManagerStep =
    | Receive
    | LookUp
    | Refresh(time: int)
    | Install(box: nat)
    | Start(worker: nat)
    | SendExit
    | SendAnswer

  function DoManager(c: Control, st: ManagerStep): Option<Control> {
    match st
    case Receive =>
      if c.mgr.Idle? && c.inbox.Some? then Some(c.(inbox := None, mgr := Fetch(c.inbox.value))) else None
    case LookUp =>
      if !c.mgr.Fetch? then None
      else
        var cmd := c.mgr.command;
        var k := KeyOf(cmd);
        Some(c.(mgr :=
          if cmd.action == "update" then
            (if k in c.table then Touch(cmd, c.table[k]) else Store(cmd, true))
          else if cmd.action == "delete" then
            (if k in c.table then Signal(cmd, c.table[k]) else Respond(cmd, Completed))
          else if cmd.action == "status" then
            Respond(cmd, LastTime(if k in c.table then c.table[k].lasttime else 0))
          else Respond(cmd, Unknown)))
    case Refresh(t) =>
      if !c.mgr.Touch? then None
      else Some(c.(table := c.table[KeyOf(c.mgr.command) := c.mgr.item.(lasttime := t)],
                   mgr := Store(c.mgr.command, false)))
    case Install(b) =>
      if !c.mgr.Store? || b in c.boxes then None
      else
        var cmd := c.mgr.command;
        Some(c.(boxes := c.boxes[b := Box(KeyOf(cmd), None, None)],
                table := c.table[KeyOf(cmd) := Item(cmd.message, cmd.consumer, 0, b)],
                mgr := if c.mgr.insert then Spawn(cmd) else Respond(cmd, Completed)))
    case Start(w) =>
      if !c.mgr.Spawn? || w in c.workers then None
      else
        var cmd := c.mgr.command;
        var worker := Worker(KeyOf(cmd), Top, Item(cmd.message, cmd.consumer, 0, 0), None, None, false);
        Some(c.(workers := c.workers[w := worker], mgr := Respond(cmd, Completed)))
    case SendExit =>
      if !c.mgr.Signal? || c.mgr.item.box !in c.boxes || c.boxes[c.mgr.item.box].read.Some? then None
      else
        var b := c.mgr.item.box;
        Some(c.(boxes := c.boxes[b := c.boxes[b].(read := Some("exit"))],
                mgr := Respond(c.mgr.command, Completed)))
    case SendAnswer =>
      if !c.mgr.Respond? || c.outbox.Some? then None
      else Some(c.(outbox := Some(Answer(c.mgr.command, c.mgr.reply)), mgr := Idle))
  }

  // ---- workers -------------------------------------------------------------------------

  datatype WorkerStep =
    | Check                                  // table Get at the top of a retry or of the delivery loop
    | Read                                   // the unchecked table Get that follows
    | Write(time: int)                       // the table Set of the same item
    | GetConn(skip: nat, out: Outcome)
    | OpenChannel(ok: bool, channel: nat)
    | ReadSettings
    | DeclareExchange(ok: bool)
    | DeclareQueue(ok: bool, deleted: bool, declared: bool)
    | BindQueue(ok: bool)
    | SetQos(ok: bool)
    | Consume(ok: bool)
    | GiveUp(active: bool)
    | TakeCommand
    | TakeDelivery
    | StreamEnded
    | Process(ok: bool)
    | Settle(applied: bool)
    | ReturnConn(active: bool)
    | SendExitOk
    | LeaveNotFound
    | Remove
    | CloseChannel

  function SetPc(s: State, w: nat, pc: Pc): State
    requires w in s.ctl.workers
  {
    s.(ctl := s.ctl.(workers := s.ctl.workers[w := s.ctl.workers[w].(pc := pc)]))
  }

  function SetWorker(s: State, w: nat, worker: Worker): State {
    s.(ctl := s.ctl.(workers := s.ctl.workers[w := worker]))
  }

  /** A queue declaration can delete the queue, declare it, do both, or neither. */
  function Redeclared(b: Delivery.Broker, q: string, deleted: bool, declared: bool): Delivery.Broker {
    var b1 := if deleted then Delivery.Apply(b, Delivery.DeleteQueue(q)) else b;
    if declared then Delivery.Apply(b1, Delivery.DeclareQueue(q)) else b1
  }

  /** Table accesses of worker `w`. */
  function DoTable(s: State, w: nat, st: WorkerStep): Option<State>
    requires w in s.ctl.workers
  {
    var wk := s.ctl.workers[w];
    var found := wk.key in s.ctl.table;
    match st
    case Check =>
      if wk.pc.Top? then Some(SetPc(s, w, if found then TopRead else NotFound))
      else if wk.pc.LoopCheck? then Some(SetPc(s, w, if found then LoopRead else NotFound))
      else None
    case Read =>
      if !wk.pc.TopRead? && !wk.pc.LoopRead? then None
      else if !found then Some(SetPc(s, w, Panicked))
      else Some(SetWorker(s, w, wk.(item := s.ctl.table[wk.key], pc := if wk.pc.TopRead? then TopWrite else LoopWrite)))
    case Write(t) =>
      if !wk.pc.TopWrite? && !wk.pc.LoopWrite? then None
      else
        var it := wk.item.(lasttime := t);
        var s1 := SetWorker(s, w, wk.(item := it, pc := if wk.pc.TopWrite? then WantConn else Selecting));
        Some(s1.(ctl := s1.ctl.(table := s1.ctl.table[wk.key := it])))
    case ReadSettings =>
      if !wk.pc.ReadConfig? then None
      else if !found then Some(SetPc(s, w, Panicked))
      else Some(SetWorker(s, w, wk.(item := s.ctl.table[wk.key], pc := DeclaringExchange)))
    case LeaveNotFound => if wk.pc.NotFound? then Some(SetPc(s, w, Removing)) else None
    case Remove =>
      if !wk.pc.Removing? then None
      else
        var s1 := SetPc(s, w, Closing);
        Some(s1.(ctl := s1.ctl.(table := s1.ctl.table - {wk.key})))
    case _ => None
  }

  /** Connection pool calls of worker `w`. */
  function DoPool(s: State, w: nat, st: WorkerStep): Option<State>
    requires w in s.ctl.workers
  {
    var wk := s.ctl.workers[w];
    match st
    case GetConn(skip, out) =>
      var op := Get(ByWorker(w), skip, out);
      if !wk.pc.WantConn? || !Enabled(s.pool, op) then None
      else
        var s1 := s.(pool := Apply(s.pool, op));
        (match Taken(s.pool, skip, out)
         case Real(h) => Some(SetWorker(s1, w, wk.(conn := Some(h), pc := WantChannel)))
         case _ => Some(SetPc(s1, w, Top)))
    case GiveUp(active) =>
      if !wk.pc.GivingUp? || wk.conn.None? then None
      else
        var op := Put(ByWorker(w), Real(wk.conn.value), active);
        if !Enabled(s.pool, op) then None
        else Some(SetWorker(s.(pool := Apply(s.pool, op)), w, wk.(conn := None, pc := Top)))
    case ReturnConn(active) =>
      if !wk.pc.ExitPut? || wk.conn.None? then None
      else
        var op := Put(ByWorker(w), Real(wk.conn.value), active);
        if !Enabled(s.pool, op) then None
        else Some(SetWorker(s.(pool := Apply(s.pool, op)), w, wk.(conn := None, pc := ExitSend)))
    case _ => None
  }

  /** What a broker call does to the worker that makes it and to the broker. */
  datatype Effect = Effect(worker: Worker, brk: Delivery.Broker)

  function MoveTo(wk: Worker, pc: Pc, b: Delivery.Broker): Option<Effect> {
    Some(Effect(wk.(pc := pc), b))
  }

  /** The call succeeds at the broker with event `e`, which may be impossible. */
  function Through(wk: Worker, pc: Pc, b: Delivery.Broker, e: Delivery.Event): Option<Effect> {
    if Delivery.Enabled(b, e) then MoveTo(wk, pc, Delivery.Apply(b, e)) else None
  }

  /** The broker calls of the retry ladder. */
  function Ladder(wk: Worker, b: Delivery.Broker, st: WorkerStep): Option<Effect> {
    match st
    case OpenChannel(ok, c) =>
      if !wk.pc.WantChannel? then None
      else if ok then Through(wk.(chan := Some(c)), ReadConfig, b, Delivery.OpenChannel(c))
      else MoveTo(wk.(chan := None), GivingUp, b)
    case DeclareExchange(ok) =>
      if !wk.pc.DeclaringExchange? then None else MoveTo(wk, if ok then DeclaringQueue else GivingUp, b)
    case DeclareQueue(ok, deleted, declared) =>
      if !wk.pc.DeclaringQueue? then None
      else MoveTo(wk, if ok then Binding else GivingUp, Redeclared(b, ItemKey(wk.item), deleted, declared))
    case BindQueue(ok) =>
      if !wk.pc.Binding? then None else MoveTo(wk, if ok then SettingQos else GivingUp, b)
    case SetQos(ok) =>
      if !wk.pc.SettingQos? || wk.chan.None? then None
      else if ok then Through(wk, Consuming, b, Delivery.Qos(wk.chan.value, 1))
      else MoveTo(wk, GivingUp, b)
    case Consume(ok) =>
      if !wk.pc.Consuming? || wk.chan.None? then None
      else if ok then Through(wk, LoopCheck, b, Delivery.Consume(wk.chan.value, wk.key))
      else MoveTo(wk, GivingUp, b)
    case _ => None
  }

  /** Taking and settling deliveries, and closing the channel at the end. */
  function Settlement(wk: Worker, b: Delivery.Broker, st: WorkerStep): Option<Effect> {
    match st
    case TakeDelivery =>
      if !wk.pc.Selecting? || wk.chan.None? || !Delivery.Enabled(b, Delivery.Receive(wk.chan.value)) then None
      else Through(wk, Handling(b.channels[wk.chan.value].stream[0]), b, Delivery.Receive(wk.chan.value))
    case StreamEnded =>
      if !wk.pc.Selecting? || wk.chan.None? || wk.chan.value !in b.channels then None
      else
        var ch := b.channels[wk.chan.value];
        if ch.ended && ch.stream == [] then MoveTo(wk, GivingUp, b) else None
    case Settle(applied) =>
      if !wk.pc.Settling? || wk.chan.None? then None
      else if !applied then MoveTo(wk, LoopCheck, b)
      else Through(wk, LoopCheck, b, if wk.pc.ok then Delivery.Ack(wk.chan.value, wk.pc.copy)
                                     else Delivery.Requeue(wk.chan.value, wk.pc.copy))
    case CloseChannel =>
      if !wk.pc.Closing? then None
      else if wk.chan.None? then MoveTo(wk, Done, b)
      else Through(wk, Done, b, Delivery.CloseChannel(wk.chan.value))
    case _ => None
  }

  function DoBroker(s: State, w: nat, st: WorkerStep): Option<State>
    requires w in s.ctl.workers
  {
    var wk := s.ctl.workers[w];
    var e := if st.TakeDelivery? || st.StreamEnded? || st.Settle? || st.CloseChannel? then Settlement(wk, s.brk, st)
             else Ladder(wk, s.brk, st);
    match e
    case None => None
    case Some(e) => Some(SetWorker(s, w, e.worker).(brk := e.brk))
  }

  /** The worker's control channels, and the outcome of `process`. */
  function DoSignal(s: State, w: nat, st: WorkerStep): Option<State>
    requires w in s.ctl.workers
  {
    var wk := s.ctl.workers[w];
    var b := wk.item.box;
    match st
    case TakeCommand =>
      if !wk.pc.Selecting? || b !in s.ctl.boxes || s.ctl.boxes[b].read.None? then None
      else
        var stop := s.ctl.boxes[b].read.value == "exit";
        var s1 := SetWorker(s, w, wk.(pc := if stop then ExitPut else LoopCheck, told := wk.told || stop));
        Some(s1.(ctl := s1.ctl.(boxes := s.ctl.boxes[b := s.ctl.boxes[b].(read := None)])))
    case SendExitOk =>
      if !wk.pc.ExitSend? || b !in s.ctl.boxes || s.ctl.boxes[b].write.Some? then None
      else
        var s1 := SetPc(s, w, Removing);
        Some(s1.(ctl := s1.ctl.(boxes := s.ctl.boxes[b := s.ctl.boxes[b].(write := Some("exit_ok"))])))
    case Process(ok) =>
      if !wk.pc.Handling? then None
      else
        var s1 := SetPc(s, w, Settling(wk.pc.copy, ok));
        Some(if ok then s1.(ctl := s1.ctl.(approved := s1.ctl.approved + {wk.pc.copy})) else s1)
    case _ => None
  }

  function DoWorker(s: State, w: nat, st: WorkerStep): Option<State>
    requires w in s.ctl.workers
  {
    match st
    case Check => DoTable(s, w, st)
    case Read => DoTable(s, w, st)
    case Write(_) => DoTable(s, w, st)
    case ReadSettings => DoTable(s, w, st)
    case LeaveNotFound => DoTable(s, w, st)
    case Remove => DoTable(s, w, st)
    case GetConn(_, _) => DoPool(s, w, st)
    case GiveUp(_) => DoPool(s, w, st)
    case ReturnConn(_) => DoPool(s, w, st)
    case TakeCommand => DoSignal(s, w, st)
    case SendExitOk => DoSignal(s, w, st)
    case Process(_) => DoSignal(s, w, st)
    case _ => DoBroker(s, w, st)
  }

  // ---- the whole system ----------------------------------------------------------------

  datatype Step =
    | ByCaller(caller: CallerStep)
    | ByManager(manager: ManagerStep)
    | ByWorkerStep(w: nat, worker: WorkerStep)
    | ByBroker(event: Delivery.Event)
    | ByPoolUser(op: Op<Holder>)

  /** What the broker and other clients do on their own; only workers set qos, consume and settle. */
  predicate Outside(e: Delivery.Event) {
    e.Publish? || e.Push? || e.CloseChannel? || e.CancelConsumer? || e.DeleteQueue? || e.DeclareQueue? || e.OpenChannel?
  }

  /** Other users of the connection pool act for themselves. */
  predicate NotAWorkers(op: Op<Holder>) {
    match op
    case Get(u, _, _) => u.ByOther?
    case Put(u, _, _) => u.ByOther?
    case ReleaseAll(_) => true
  }

  function Do(s: State, st: Step): Option<State> {
    match st
    case ByCaller(cs) =>
      (match DoCaller(s.ctl, cs) case Some(c) => Some(s.(ctl := c)) case None => None)
    case ByManager(ms) =>
      (match DoManager(s.ctl, ms) case Some(c) => Some(s.(ctl := c)) case None => None)
    case ByWorkerStep(w, ws) => if w in s.ctl.workers then DoWorker(s, w, ws) else None
    case ByBroker(e) => 
      if Outside(e) && Delivery.Enabled(s.brk, e) then Some(s.(brk := Delivery.Apply(s.brk, e))) else None
    case ByPoolUser(op) =>
      if NotAWorkers(op) && Enabled(s.pool, op) then Some(s.(pool := Apply(s.pool, op))) else None
  }

  /** The program starts with no workers, over any pool and any broker without its own channels. */
  ghost predicate Init(s: State) {
    && s.ctl == Control(map[], map[], map[], Idle, None, None, false, None, map[], 0, {})
    && Owned(s.pool)
    && (forall h :: h in s.pool.leased ==> s.pool.leased[h].ByOther?)
    && Delivery.Conserved(s.brk) && s.brk.channels == map[] && s.brk.acked == {}
  }

  ghost predicate StepAt(states: seq<State>, steps: seq<Step>, i: nat)
    requires i < |steps| && i + 1 < |states|
  {
    Do(states[i], steps[i]) == Some(states[i + 1])
  }

  /** A run: states joined by steps, from a starting state. */
  ghost predicate Run(states: seq<State>, steps: seq<Step>) {
    && |states| == |steps| + 1
    && Init(states[0])
    && forall i :: 0 <= i < |steps| ==> StepAt(states, steps, i)
  }
}
