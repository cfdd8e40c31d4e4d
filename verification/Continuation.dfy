/**
 Continuations of a run of ConsumerSystem, and how a worker that nobody disturbs gets from any place of
 its retry ladder (message.go:486-562) to the select of its delivery loop (message.go:573).
 */
module Continuations {
  import opened Wrappers
  import opened PoolLedger
  import opened ConsumerSystem
  import opened ConsumerControl
  import opened ConsumerResources
  import opened ConsumerTheorems
  import Delivery

  /** The state after some steps, or None when one of them is not possible. */
  function After(s: State, steps: seq<Step>): Option<State> {
    if steps == [] then Some(s)
    else
      match After(s, steps[..|steps| - 1])
      case None => None
      case Some(t) => Do(t, steps[|steps| - 1])
  }

  ghost predicate Leads(s: State, t: State) {
    exists steps :: After(s, steps) == Some(t)
  }

  lemma {:induction false} AfterBoth(s: State, a: seq<Step>, t: State, b: seq<Step>)
    requires After(s, a) == Some(t)
    ensures After(s, a + b) == After(t, b)
    decreases |b|
  {
    if b == [] {
      assert a + b == a;
    } else {
      assert (a + b)[..|a + b| - 1] == a + b[..|b| - 1];
      AfterBoth(s, a, t, b[..|b| - 1]);
    }
  }

  lemma LeadsOn(s: State, t: State, u: State)
    requires Leads(s, t) && Leads(t, u)
    ensures Leads(s, u)
  {
    var a :| After(s, a) == Some(t);
    var b :| After(t, b) == Some(u);
    AfterBoth(s, a, t, b);
  }

  lemma LeadsNowhere(s: State)
    ensures Leads(s, s)
  {
    assert After(s, []) == Some(s);
  }

  lemma LeadsByOne(s: State, st: Step, t: State)
    requires Do(s, st) == Some(t)
    ensures Leads(s, t)
  {
    assert [st][..0] == [];
    assert After(s, [st]) == Some(t);
  }

  lemma Extend(s: State, st: Step) returns (t: State)
    requires Reachable(s) && Do(s, st).Some?
    ensures Do(s, st) == Some(t) && Reachable(t)
  {
    t := Do(s, st).value;
    var states, steps :| ConsumerSystem.Run(states, steps) && states[|steps|] == s;
    var states', steps' := states + [t], steps + [st];
    forall i | 0 <= i < |steps'| ensures StepAt(states', steps', i) {
      assert i < |steps| ==> StepAt(states, steps, i);
    }
    assert ConsumerSystem.Run(states', steps') && states'[|steps'|] == t;
  }

  lemma {:induction false} ReachableAfter(s: State, steps: seq<Step>, t: State)
    requires Reachable(s) && After(s, steps) == Some(t)
    ensures Reachable(t)
    decreases |steps|
  {
    if steps != [] {
      var u := After(s, steps[..|steps| - 1]).value;
      ReachableAfter(s, steps[..|steps| - 1], u);
      var v := Extend(u, steps[|steps| - 1]);
    }
  }

  // ---- climbing the ladder ---------------------------------------------------------------

  predicate At(s: State, w: nat, k: string, pc: Pc) {
    && w in s.ctl.workers && s.ctl.workers[w].key == k && s.ctl.workers[w].pc == pc
    && k in s.ctl.table && ItemKey(s.ctl.table[k]) == k
  }

  /** Only worker `w` has moved, and the settings in its entry are still the same. */
  predicate Alone(c: Control, d: Control, w: nat, k: string) {
    && w in c.workers && w in d.workers && k in c.table && k in d.table
    && d == c.(workers := c.workers[w := d.workers[w]], table := c.table[k := d.table[k]])
    && d.workers[w].key == c.workers[w].key
    && SameSettings(d.table[k], c.table[k])
  }

  /** From `s`, worker `w` alone can get to `pc`. */
  ghost predicate Climbs(s: State, t: State, w: nat, k: string, pc: Pc) {
    Leads(s, t) && Alone(s.ctl, t.ctl, w, k) && At(t, w, k, pc)
  }

  lemma ClimbsOn(s: State, t: State, u: State, w: nat, k: string, p: Pc, q: Pc)
    requires Climbs(s, t, w, k, p) && Climbs(t, u, w, k, q)
    ensures Climbs(s, u, w, k, q)
  {
    LeadsOn(s, t, u);
    AloneOn(s.ctl, t.ctl, u.ctl, w, k);
  }

  lemma AloneOn(c: Control, d: Control, e: Control, w: nat, k: string)
    requires Alone(c, d, w, k) && Alone(d, e, w, k)
    ensures Alone(c, e, w, k)
  {
    assert e.workers == c.workers[w := e.workers[w]];
    assert e.table == c.table[k := e.table[k]];
  }

  /** One step of the worker. */
  lemma Moves(s: State, w: nat, k: string, st: WorkerStep, pc: Pc) returns (t: State)
    requires k in s.ctl.table && ItemKey(s.ctl.table[k]) == k
    requires w in s.ctl.workers && s.ctl.workers[w].key == k && DoWorker(s, w, st).Some?
    requires var t := DoWorker(s, w, st).value; Alone(s.ctl, t.ctl, w, k) && t.ctl.workers[w].pc == pc
    ensures DoWorker(s, w, st) == Some(t) && Climbs(s, t, w, k, pc)
  {
    t := DoWorker(s, w, st).value;
    LeadsByOne(s, ByWorkerStep(w, st), t);
  }

  lemma Checks(s: State, w: nat, k: string) returns (t: State)
    requires At(s, w, k, Top) || At(s, w, k, LoopCheck)
    ensures Climbs(s, t, w, k, if s.ctl.workers[w].pc.Top? then TopRead else LoopRead)
  {
    t := Moves(s, w, k, Check, if s.ctl.workers[w].pc.Top? then TopRead else LoopRead);
  }

  /** The worker's copy of its entry is the entry, up to its time. */
  predicate Copied(c: Control, w: nat, k: string) {
    w in c.workers && k in c.table && SameSettings(c.workers[w].item, c.table[k])
  }

  lemma Reads(s: State, w: nat, k: string) returns (t: State)
    requires At(s, w, k, TopRead) || At(s, w, k, LoopRead)
    ensures Climbs(s, t, w, k, if s.ctl.workers[w].pc.TopRead? then TopWrite else LoopWrite) && Copied(t.ctl, w, k)
  {
    t := Moves(s, w, k, Read, if s.ctl.workers[w].pc.TopRead? then TopWrite else LoopWrite);
  }

  lemma Writes(s: State, w: nat, k: string) returns (t: State)
    requires (At(s, w, k, TopWrite) || At(s, w, k, LoopWrite)) && Copied(s.ctl, w, k)
    ensures Climbs(s, t, w, k, if s.ctl.workers[w].pc.TopWrite? then WantConn else Selecting) && Copied(t.ctl, w, k)
  {
    t := Moves(s, w, k, Write(0), if s.ctl.workers[w].pc.TopWrite? then WantConn else Selecting);
  }

  lemma Unused(used: set<nat>) returns (n: nat)
    ensures forall m :: m in used ==> m < n
  {
    if used == {} {
      n := 0;
    } else {
      var m :| m in used;
      n := Unused(used - {m});
      n := if m < n then n else m + 1;
      assert used == (used - {m}) + {m};
    }
  }

  lemma Connects(s: State, w: nat, k: string) returns (t: State)
    requires At(s, w, k, WantConn)
    ensures Climbs(s, t, w, k, WantChannel)
  {
    var h := Unused(s.pool.releases.Keys);
    var op := Get(ByWorker(w), |s.pool.idle|, Made(h));
    assert Enabled(s.pool, op) && Taken(s.pool, |s.pool.idle|, Made(h)) == Real(h);
    t := Moves(s, w, k, GetConn(|s.pool.idle|, Made(h)), WantChannel);
  }

  /** The worker's AMQP channel is open. */
  predicate HasChannel(s: State, w: nat) {
    && w in s.ctl.workers && s.ctl.workers[w].chan.Some?
    && s.ctl.workers[w].chan.value in s.brk.channels && s.brk.channels[s.ctl.workers[w].chan.value].open
  }

  lemma OpensChannel(s: State, w: nat, k: string) returns (t: State)
    requires At(s, w, k, WantChannel)
    ensures Climbs(s, t, w, k, ReadConfig) && HasChannel(t, w)
  {
    var c := Unused(s.brk.channels.Keys);
    t := Moves(s, w, k, ConsumerSystem.OpenChannel(true, c), ReadConfig);
  }

  lemma ReadsSettings(s: State, w: nat, k: string) returns (t: State)
    requires At(s, w, k, ReadConfig)
    ensures Climbs(s, t, w, k, DeclaringExchange) && Copied(t.ctl, w, k)
    ensures t.brk == s.brk && t.pool == s.pool
    ensures t.ctl.workers[w].chan == s.ctl.workers[w].chan && t.ctl.workers[w].conn == s.ctl.workers[w].conn
  {
    t := Moves(s, w, k, ReadSettings, DeclaringExchange);
  }

  lemma DeclaresExchange(s: State, w: nat, k: string) returns (t: State)
    requires At(s, w, k, DeclaringExchange) && HasChannel(s, w) && Copied(s.ctl, w, k)
    ensures Climbs(s, t, w, k, DeclaringQueue) && HasChannel(t, w) && Copied(t.ctl, w, k)
  {
    t := Moves(s, w, k, DeclareExchange(true), DeclaringQueue);
  }

  lemma DeclaresQueue(s: State, w: nat, k: string) returns (t: State)
    requires At(s, w, k, DeclaringQueue) && HasChannel(s, w) && Copied(s.ctl, w, k)
    ensures Climbs(s, t, w, k, Binding) && HasChannel(t, w) && k in t.brk.queues
  {
    t := Moves(s, w, k, ConsumerSystem.DeclareQueue(true, false, true), Binding);
  }

  lemma Binds(s: State, w: nat, k: string) returns (t: State)
    requires At(s, w, k, Binding) && HasChannel(s, w) && k in s.brk.queues
    ensures Climbs(s, t, w, k, SettingQos) && HasChannel(t, w) && k in t.brk.queues
  {
    t := Moves(s, w, k, BindQueue(true), SettingQos);
  }

  lemma SetsQos(s: State, w: nat, k: string) returns (t: State)
    requires At(s, w, k, SettingQos) && HasChannel(s, w) && k in s.brk.queues
    ensures Climbs(s, t, w, k, Consuming) && HasChannel(t, w) && k in t.brk.queues
  {
    t := Moves(s, w, k, SetQos(true), Consuming);
  }

  lemma Consumes(s: State, w: nat, k: string) returns (t: State)
    requires At(s, w, k, Consuming) && HasChannel(s, w) && k in s.brk.queues
    ensures Climbs(s, t, w, k, LoopCheck)
  {
    t := Moves(s, w, k, ConsumerSystem.Consume(true), LoopCheck);
  }

  /** The worker has got to its select with a fresh copy of its entry. */
  ghost predicate Arrives(s: State, t: State, w: nat, k: string) {
    Climbs(s, t, w, k, Selecting) && Copied(t.ctl, w, k)
  }

  lemma ArrivesAfter(s: State, t: State, u: State, w: nat, k: string, pc: Pc)
    requires Climbs(s, t, w, k, pc) && Arrives(t, u, w, k)
    ensures Arrives(s, u, w, k)
  {
    ClimbsOn(s, t, u, w, k, pc, Selecting);
  }

  lemma FromLoopRead(s: State, w: nat, k: string) returns (t: State)
    requires At(s, w, k, LoopRead)
    ensures Arrives(s, t, w, k)
  {
    var a := Reads(s, w, k);
    t := Writes(a, w, k);
    ArrivesAfter(s, a, t, w, k, LoopWrite);
  }

  lemma FromLoopCheck(s: State, w: nat, k: string) returns (t: State)
    requires At(s, w, k, LoopCheck)
    ensures Arrives(s, t, w, k)
  {
    var a := Checks(s, w, k);
    t := FromLoopRead(a, w, k);
    ArrivesAfter(s, a, t, w, k, LoopRead);
  }

  lemma FromBinding(s: State, w: nat, k: string) returns (t: State)
    requires At(s, w, k, Binding) && HasChannel(s, w) && k in s.brk.queues
    ensures Arrives(s, t, w, k)
  {
    var a := Binds(s, w, k);
    var b := SetsQos(a, w, k);
    ClimbsOn(s, a, b, w, k, SettingQos, Consuming);
    var c := Consumes(b, w, k);
    ClimbsOn(s, b, c, w, k, Consuming, LoopCheck);
    t := FromLoopCheck(c, w, k);
    ArrivesAfter(s, c, t, w, k, LoopCheck);
  }

  lemma FromWantChannel(s: State, w: nat, k: string) returns (t: State)
    requires At(s, w, k, WantChannel)
    ensures Arrives(s, t, w, k)
  {
    var a := OpensChannel(s, w, k);
    var b := ReadsSettings(a, w, k);
    ClimbsOn(s, a, b, w, k, ReadConfig, DeclaringExchange);
    var c := DeclaresExchange(b, w, k);
    ClimbsOn(s, b, c, w, k, DeclaringExchange, DeclaringQueue);
    var d := DeclaresQueue(c, w, k);
    ClimbsOn(s, c, d, w, k, DeclaringQueue, Binding);
    t := FromBinding(d, w, k);
    ArrivesAfter(s, d, t, w, k, Binding);
  }

  lemma FromWantConn(s: State, w: nat, k: string) returns (t: State)
    requires At(s, w, k, WantConn)
    ensures Arrives(s, t, w, k)
  {
    var a := Connects(s, w, k);
    t := FromWantChannel(a, w, k);
    ArrivesAfter(s, a, t, w, k, WantChannel);
  }

  lemma FromTopRead(s: State, w: nat, k: string) returns (t: State)
    requires At(s, w, k, TopRead)
    ensures Arrives(s, t, w, k)
  {
    var a := Reads(s, w, k);
    var b := Writes(a, w, k);
    ClimbsOn(s, a, b, w, k, TopWrite, WantConn);
    t := FromWantConn(b, w, k);
    ArrivesAfter(s, b, t, w, k, WantConn);
  }

  lemma FromTop(s: State, w: nat, k: string) returns (t: State)
    requires At(s, w, k, Top)
    ensures Arrives(s, t, w, k)
  {
    var a := Checks(s, w, k);
    t := FromTopRead(a, w, k);
    ArrivesAfter(s, a, t, w, k, TopRead);
  }

  // ---- from anywhere else, by giving up first ----------------------------------------------

  /** The worker holds its pooled connection, and the AMQP channel it has, if any, was opened. */
  predicate Equipped(s: State, w: nat) {
    && w in s.ctl.workers
    && (var wk := s.ctl.workers[w];
       && wk.conn.Some? && wk.conn.value in s.pool.leased && s.pool.leased[wk.conn.value] == ByWorker(w)
       && (!wk.pc.GivingUp? ==> wk.chan.Some? && wk.chan.value in s.brk.channels))
  }

  lemma InvEquips(s: State, w: nat)
    requires Leases(s.ctl.workers, s.pool) && Settled(s.ctl.workers, s.ctl.approved, s.brk)
    requires w in s.ctl.workers && HoldsConn(s.ctl.workers[w].pc) && !s.ctl.workers[w].pc.WantChannel?
    ensures Equipped(s, w)
  {
    assert SetUp(s.ctl.workers[w], s.brk);
  }

  lemma FromGivingUp(s: State, w: nat, k: string) returns (t: State)
    requires At(s, w, k, GivingUp) && Equipped(s, w)
    ensures Arrives(s, t, w, k)
  {
    var a := Moves(s, w, k, GiveUp(false), Top);
    t := FromTop(a, w, k);
    ArrivesAfter(s, a, t, w, k, Top);
  }

  /** The rungs on which a failing broker call ends the attempt. */
  predicate OnLadder(pc: Pc) {
    pc.DeclaringExchange? || pc.DeclaringQueue? || pc.Binding? || pc.SettingQos? || pc.Consuming?
  }

  function Failing(pc: Pc): WorkerStep
    requires OnLadder(pc)
  {
    match pc
    case DeclaringExchange => DeclareExchange(false)
    case DeclaringQueue => ConsumerSystem.DeclareQueue(false, false, false)
    case Binding => BindQueue(false)
    case SettingQos => SetQos(false)
    case Consuming => ConsumerSystem.Consume(false)
  }

  lemma FailingGivesUp(s: State, w: nat)
    requires Equipped(s, w) && OnLadder(s.ctl.workers[w].pc)
    ensures DoWorker(s, w, Failing(s.ctl.workers[w].pc)) == Some(SetPc(s, w, GivingUp))
  {
    var wk := s.ctl.workers[w];
    assert Ladder(wk, s.brk, Failing(wk.pc)) == Some(Effect(wk.(pc := GivingUp), s.brk));
  }

  lemma FromLadder(s: State, w: nat, k: string) returns (t: State)
    requires Equipped(s, w) && OnLadder(s.ctl.workers[w].pc) && At(s, w, k, s.ctl.workers[w].pc)
    ensures Arrives(s, t, w, k)
  {
    FailingGivesUp(s, w);
    var a := Moves(s, w, k, Failing(s.ctl.workers[w].pc), GivingUp);
    t := FromGivingUp(a, w, k);
    ArrivesAfter(s, a, t, w, k, GivingUp);
  }

  lemma FromReadConfig(s: State, w: nat, k: string) returns (t: State)
    requires At(s, w, k, ReadConfig) && Equipped(s, w)
    ensures Arrives(s, t, w, k)
  {
    var a := ReadsSettings(s, w, k);
    t := FromLadder(a, w, k);
    ArrivesAfter(s, a, t, w, k, DeclaringExchange);
  }

  lemma FromSettling(s: State, w: nat, k: string, copy: nat, ok: bool) returns (t: State)
    requires At(s, w, k, Settling(copy, ok)) && Equipped(s, w)
    ensures Arrives(s, t, w, k)
  {
    var a := Moves(s, w, k, Settle(false), LoopCheck);
    t := FromLoopCheck(a, w, k);
    ArrivesAfter(s, a, t, w, k, LoopCheck);
  }

  lemma FromHandling(s: State, w: nat, k: string, copy: nat) returns (t: State)
    requires At(s, w, k, Handling(copy)) && Equipped(s, w)
    ensures Arrives(s, t, w, k)
  {
    var a := Moves(s, w, k, Process(false), Settling(copy, false));
    t := FromSettling(a, w, k, copy, false);
    ArrivesAfter(s, a, t, w, k, Settling(copy, false));
  }

  /** A worker that waits with an old copy gets a new one once a delivery comes or its stream ends. */
  lemma FromSelecting(s: State, w: nat, k: string) returns (t: State)
    requires At(s, w, k, Selecting) && Equipped(s, w)
    ensures Arrives(s, t, w, k)
  {
    var c := s.ctl.workers[w].chan.value;
    if s.brk.channels[c].stream != [] {
      var a := TakesDelivery(s, w, k, s.brk.channels[c].stream[0]);
      t := FromHandling(a, w, k, s.brk.channels[c].stream[0]);
      ArrivesAfter(s, a, t, w, k, Handling(s.brk.channels[c].stream[0]));
    } else {
      var a := Cancelled(s, w, k);
      var b := Ends(a, w, k);
      ClimbsOn(s, a, b, w, k, Selecting, GivingUp);
      t := FromGivingUp(b, w, k);
      ArrivesAfter(s, b, t, w, k, GivingUp);
    }
  }

  lemma TakesDelivery(s: State, w: nat, k: string, copy: nat) returns (t: State)
    requires At(s, w, k, Selecting) && Equipped(s, w)
    requires var stream := s.brk.channels[s.ctl.workers[w].chan.value].stream; stream != [] && stream[0] == copy
    ensures Climbs(s, t, w, k, Handling(copy)) && Equipped(t, w)
  {
    t := Moves(s, w, k, TakeDelivery, Handling(copy));
  }

  lemma Cancelled(s: State, w: nat, k: string) returns (t: State)
    requires At(s, w, k, Selecting) && Equipped(s, w)
    requires s.brk.channels[s.ctl.workers[w].chan.value].stream == []
    ensures Climbs(s, t, w, k, Selecting) && Equipped(t, w)
    ensures var ch := t.brk.channels[t.ctl.workers[w].chan.value]; ch.stream == [] && ch.ended
  {
    var st := ByBroker(Delivery.CancelConsumer(s.ctl.workers[w].chan.value));
    t := Do(s, st).value;
    LeadsByOne(s, st, t);
  }

  lemma Ends(s: State, w: nat, k: string) returns (t: State)
    requires At(s, w, k, Selecting) && Equipped(s, w)
    requires var ch := s.brk.channels[s.ctl.workers[w].chan.value]; ch.stream == [] && ch.ended
    ensures Climbs(s, t, w, k, GivingUp) && Equipped(t, w)
  {
    t := Moves(s, w, k, StreamEnded, GivingUp);
  }

  /** From wherever it is, a worker that has not been told to leave can get to its select with a fresh
      copy, unless it is about to write back an old one. */
  lemma FromAnywhere(s: State, w: nat, k: string) returns (t: State)
    requires Inv(s) && LiveWorker(s.ctl, w, k) && !Leaving(s.ctl.workers[w].pc)
    requires s.ctl.workers[w].pc.TopWrite? || s.ctl.workers[w].pc.LoopWrite? ==> Copied(s.ctl, w, k)
    ensures Arrives(s, t, w, k)
  {
    var pc := s.ctl.workers[w].pc;
    assert At(s, w, k, pc) && !pc.NotFound? && !pc.Panicked?;
    if HoldsConn(pc) && !pc.WantChannel? {
      InvEquips(s, w);
      t := FromConnected(s, w, k);
    } else {
      t := FromUnconnected(s, w, k);
    }
  }

  lemma FromConnected(s: State, w: nat, k: string) returns (t: State)
    requires w in s.ctl.workers && At(s, w, k, s.ctl.workers[w].pc) && Equipped(s, w)
    requires var pc := s.ctl.workers[w].pc;
      && HoldsConn(pc) && !pc.WantChannel? && !pc.ExitPut?
      && (pc.LoopWrite? ==> Copied(s.ctl, w, k))
    ensures Arrives(s, t, w, k)
  {
    match s.ctl.workers[w].pc {
      case ReadConfig => t := FromReadConfig(s, w, k);
      case GivingUp => t := FromGivingUp(s, w, k);
      case LoopCheck => t := FromLoopCheck(s, w, k);
      case LoopRead => t := FromLoopRead(s, w, k);
      case LoopWrite => t := Writes(s, w, k);
      case Selecting => t := FromSelecting(s, w, k);
      case Handling(copy) => t := FromHandling(s, w, k, copy);
      case Settling(copy, ok) => t := FromSettling(s, w, k, copy, ok);
      case _ => t := FromLadder(s, w, k);
    }
  }

  lemma FromUnconnected(s: State, w: nat, k: string) returns (t: State)
    requires w in s.ctl.workers && At(s, w, k, s.ctl.workers[w].pc)
    requires var pc := s.ctl.workers[w].pc;
      && (pc.Top? || pc.TopRead? || pc.TopWrite? || pc.WantConn? || pc.WantChannel?)
      && (pc.TopWrite? ==> Copied(s.ctl, w, k))
    ensures Arrives(s, t, w, k)
  {
    match s.ctl.workers[w].pc {
      case Top => t := FromTop(s, w, k);
      case TopRead => t := FromTopRead(s, w, k);
      case WantConn => t := FromWantConn(s, w, k);
      case WantChannel => t := FromWantChannel(s, w, k);
      case _ =>
        var a := Writes(s, w, k);
        t := FromWantConn(a, w, k);
        ArrivesAfter(s, a, t, w, k, WantConn);
    }
  }
}
