/**
 Channels that nobody has any more. A worker that gives up an attempt opens a new channel for the next one
 and leaves the old one open (message.go:506-513, 581-585). A copy that is unsettled on the old channel,
 because its settling was lost, then stays there until the broker closes the channel or deletes the queue.
 */
module Abandoned {
  import opened Wrappers
  import opened PoolLedger
  import opened ConsumerSystem
  import opened ConsumerControl
  import opened ConsumerResources
  import opened ConsumerTheorems
  import opened Hands
  import opened Settling
  import Continuations
  import Delivery

  /** Copy `m` is unsettled on an open channel that no worker has. */
  ghost predicate Abandoned(s: State, c: nat, m: nat) {
    && c in s.brk.channels && s.brk.channels[c].open && m in s.brk.channels[c].unsettled
    && forall w :: w in s.ctl.workers ==> s.ctl.workers[w].chan != Some(c)
  }

  // ---- it stays so -------------------------------------------------------------------------

  /** The broker closes the channel, or somebody deletes a queue. */
  predicate Rescues(st: Step, c: nat) {
    st == ByBroker(Delivery.CloseChannel(c)) || DeletesQueue(st)
  }

  lemma EventKeepsUnsettled(b: Delivery.Broker, e: Delivery.Event, c: nat, m: nat)
    requires Delivery.Enabled(b, e) && !OwnEvent(e, c) && e != Delivery.CloseChannel(c) && !e.DeleteQueue?
    requires c in b.channels && b.channels[c].open && m in b.channels[c].unsettled
    ensures var b' := Delivery.Apply(b, e); c in b'.channels && b'.channels[c].open && m in b'.channels[c].unsettled
  {
  }

  lemma LadderKeepsUnsettled(wk: Worker, b: Delivery.Broker, st: WorkerStep, e: Effect, c: nat, m: nat)
    requires Ladder(wk, b, st) == Some(e) && wk.chan != Some(c) && !(st.DeclareQueue? && st.deleted)
    requires c in b.channels && b.channels[c].open && m in b.channels[c].unsettled
    ensures c in e.brk.channels && e.brk.channels[c].open && m in e.brk.channels[c].unsettled
    ensures e.worker.chan != Some(c)
  {
  }

  lemma SettlementKeepsUnsettled(wk: Worker, b: Delivery.Broker, st: WorkerStep, e: Effect, c: nat, m: nat)
    requires Shape(wk, b, st, e) && wk.chan != Some(c)
    requires c in b.channels && b.channels[c].open && m in b.channels[c].unsettled
    ensures c in e.brk.channels && e.brk.channels[c].open && m in e.brk.channels[c].unsettled
    ensures e.worker.chan != Some(c)
  {
  }

  lemma WorkerKeepsAbandoned(s: State, w: nat, st: WorkerStep, t: State, c: nat, m: nat)
    requires w in s.ctl.workers && DoWorker(s, w, st) == Some(t) && !(st.DeclareQueue? && st.deleted)
    requires Abandoned(s, c, m)
    ensures Abandoned(t, c, m)
  {
    if DoTable(s, w, st) == Some(t) {
      TableStepMoves(s, w, st, t);
    } else if DoPool(s, w, st) == Some(t) {
      PoolStepMoves(s, w, st, t);
    } else if DoSignal(s, w, st) == Some(t) {
      SignalStepIsAside(s, w, st, t);
    } else {
      BrokerKeepsAbandoned(s, w, st, t, c, m);
    }
  }

  lemma BrokerKeepsAbandoned(s: State, w: nat, st: WorkerStep, t: State, c: nat, m: nat)
    requires w in s.ctl.workers && DoBroker(s, w, st) == Some(t) && !(st.DeclareQueue? && st.deleted)
    requires Abandoned(s, c, m)
    ensures Abandoned(t, c, m)
  {
    BrokerStepMoves(s, w, st, t);
    var e := Effect(t.ctl.workers[w], t.brk);
    if st.TakeDelivery? || st.StreamEnded? || st.Settle? || st.CloseChannel? {
      SettlementShape(s.ctl.workers[w], s.brk, st, e);
      SettlementKeepsUnsettled(s.ctl.workers[w], s.brk, st, e, c, m);
    } else {
      LadderKeepsUnsettled(s.ctl.workers[w], s.brk, st, e, c, m);
    }
  }

  lemma AbandonedStays(s: State, st: Step, t: State, c: nat, m: nat)
    requires Do(s, st) == Some(t) && Abandoned(s, c, m) && !Rescues(st, c)
    ensures Abandoned(t, c, m)
  {
    match st {
      case ByCaller(cs) => CallerMoves(s.ctl, cs, t.ctl);
      case ByManager(ms) => ManagerAddsWorkers(s.ctl, ms, t.ctl);
      case ByWorkerStep(w, ws) => WorkerKeepsAbandoned(s, w, ws, t, c, m);
      case ByBroker(e) => EventKeepsUnsettled(s.brk, e, c, m);
      case ByPoolUser(_) =>
    }
  }

  /** In every continuation, until the broker closes the channel or a queue is deleted, the copy stays
      unsettled there, and so is never delivered again and never acknowledged. */
  lemma {:induction false} AbandonedForever(s: State, steps: seq<Step>, t: State, c: nat, m: nat)
    requires Reachable(s) && Abandoned(s, c, m) && Continuations.After(s, steps) == Some(t)
    requires forall n :: 0 <= n < |steps| ==> !Rescues(steps[n], c)
    ensures Abandoned(t, c, m) && m !in t.brk.acked && !Delivery.ReadySomewhere(t.brk, m)
    decreases |steps|
  {
    if steps == [] {
      AbandonedIsHeld(s, c, m);
    } else {
      var u := Continuations.After(s, steps[..|steps| - 1]).value;
      AbandonedForever(s, steps[..|steps| - 1], u, c, m);
      AbandonedStays(u, steps[|steps| - 1], t, c, m);
      Continuations.ReachableAfter(s, steps, t);
      AbandonedIsHeld(t, c, m);
    }
  }

  lemma AbandonedIsHeld(s: State, c: nat, m: nat)
    requires Reachable(s) && Abandoned(s, c, m)
    ensures m !in s.brk.acked && !Delivery.ReadySomewhere(s.brk, m)
  {
    DeliveriesConserved(s);
    HeldHasQueue(s.brk, c, m);
  }

  // ---- it comes to that --------------------------------------------------------------------

  /** `t` can be reached from `s`. */
  ghost predicate Gets(s: State, t: State) {
    Reachable(t) && Continuations.Leads(s, t)
  }

  lemma Goes(s: State, t: State, st: Step) returns (u: State)
    requires Gets(s, t) && Do(t, st).Some?
    ensures Gets(s, u) && Do(t, st) == Some(u)
  {
    u := Continuations.Extend(t, st);
    Continuations.LeadsByOne(t, st, u);
    Continuations.LeadsOn(s, t, u);
  }

  /** Worker `w` is at `pc`, on channel `c` with an empty stream and copy `m` unsettled. */
  ghost predicate Parked(t: State, w: nat, pc: Pc, c: nat, m: nat) {
    && w in t.ctl.workers && t.ctl.workers[w].pc == pc && t.ctl.workers[w].chan == Some(c)
    && c in t.brk.channels && t.brk.channels[c].open && m in t.brk.channels[c].unsettled
    && t.brk.channels[c].stream == []
  }

  /** A live worker finds its entry. */
  lemma FindsEntry(t: State, w: nat)
    requires Reachable(t) && w in t.ctl.workers && Live(t.ctl.workers[w])
    ensures t.ctl.workers[w].key in t.ctl.table
  {
    ReachableControl(t);
    FoundByItsWorker(t.ctl, w);
  }

  lemma SettlingIsLost(s: State, t: State, w: nat, ok: bool, c: nat, m: nat) returns (u: State)
    requires Gets(s, t) && Parked(t, w, ConsumerSystem.Settling(m, ok), c, m)
    ensures Gets(s, u) && Parked(u, w, LoopCheck, c, m)
  {
    u := Goes(s, t, ByWorkerStep(w, Settle(false)));
  }

  lemma ChecksEntry(s: State, t: State, w: nat, pc: Pc, c: nat, m: nat) returns (u: State)
    requires Gets(s, t) && Parked(t, w, pc, c, m) && (pc.LoopCheck? || pc.Top?)
    ensures Gets(s, u) && Parked(u, w, if pc.Top? then TopRead else LoopRead, c, m)
  {
    FindsEntry(t, w);
    u := Goes(s, t, ByWorkerStep(w, Check));
  }

  lemma ReadsEntry(s: State, t: State, w: nat, pc: Pc, c: nat, m: nat) returns (u: State)
    requires Gets(s, t) && Parked(t, w, pc, c, m) && (pc.LoopRead? || pc.TopRead?)
    ensures Gets(s, u) && Parked(u, w, if pc.TopRead? then TopWrite else LoopWrite, c, m)
  {
    FindsEntry(t, w);
    u := Goes(s, t, ByWorkerStep(w, Read));
  }

  lemma WritesEntry(s: State, t: State, w: nat, pc: Pc, c: nat, m: nat) returns (u: State)
    requires Gets(s, t) && Parked(t, w, pc, c, m) && (pc.LoopWrite? || pc.TopWrite?)
    ensures Gets(s, u) && Parked(u, w, if pc.TopWrite? then WantConn else Selecting, c, m)
  {
    u := Goes(s, t, ByWorkerStep(w, Write(0)));
  }

  lemma StreamEnds(s: State, t: State, w: nat, c: nat, m: nat) returns (u: State)
    requires Gets(s, t) && Parked(t, w, Selecting, c, m)
    ensures Gets(s, u) && Parked(u, w, GivingUp, c, m)
  {
    u := Goes(s, t, ByBroker(Delivery.CancelConsumer(c)));
    u := Goes(s, u, ByWorkerStep(w, StreamEnded));
  }

  lemma GivesUp(s: State, t: State, w: nat, c: nat, m: nat) returns (u: State)
    requires Gets(s, t) && Parked(t, w, GivingUp, c, m)
    ensures Gets(s, u) && Parked(u, w, Top, c, m)
  {
    WorkerMayPut(t, w);
    u := Goes(s, t, ByWorkerStep(w, GiveUp(false)));
  }

  lemma GetsConn(s: State, t: State, w: nat, c: nat, m: nat) returns (u: State)
    requires Gets(s, t) && Parked(t, w, WantConn, c, m)
    ensures Gets(s, u) && Parked(u, w, WantChannel, c, m)
  {
    var h := Continuations.Unused(t.pool.releases.Keys);
    var n := |t.pool.idle|;
    assert Enabled(t.pool, Get(ByWorker(w), n, Made(h))) && Taken(t.pool, n, Made(h)) == Real(h);
    u := Goes(s, t, ByWorkerStep(w, GetConn(n, Made(h))));
  }

  lemma OpensAnother(s: State, t: State, w: nat, c: nat, m: nat, succeeds: bool) returns (u: State)
    requires Gets(s, t) && Parked(t, w, WantChannel, c, m)
    ensures Gets(s, u) && Abandoned(u, c, m)
  {
    ReachableHands(t);
    var d := Continuations.Unused(t.brk.channels.Keys);
    assert d !in t.brk.channels;
    u := Goes(s, t, ByWorkerStep(w, OpenChannel(succeeds, d)));
    forall v | v in u.ctl.workers ensures u.ctl.workers[v].chan != Some(c) {
      assert v != w ==> u.ctl.workers[v] == t.ctl.workers[v];
    }
  }

  /** From any state in which a worker is about to settle a copy, and nothing else waits on its open channel:
      when the settling is lost and the broker ends the stream, the next attempt abandons the copy, whether
      its new channel opens or not. */
  lemma LostSettlingAbandons(s: State, w: nat, m: nat, ok: bool, succeeds: bool) returns (t: State)
    requires Reachable(s) && AtSettling(s, w, m, ok) && Settling.Holds(s, w, m)
    requires s.brk.channels[s.ctl.workers[w].chan.value].stream == []
    ensures Gets(s, t) && Abandoned(t, s.ctl.workers[w].chan.value, m)
  {
    var c := s.ctl.workers[w].chan.value;
    Continuations.LeadsNowhere(s);
    t := SettlingIsLost(s, s, w, ok, c, m);
    t := ChecksEntry(s, t, w, LoopCheck, c, m);
    t := ReadsEntry(s, t, w, LoopRead, c, m);
    t := WritesEntry(s, t, w, LoopWrite, c, m);
    t := StreamEnds(s, t, w, c, m);
    t := GivesUp(s, t, w, c, m);
    t := ChecksEntry(s, t, w, Top, c, m);
    t := ReadsEntry(s, t, w, TopRead, c, m);
    t := WritesEntry(s, t, w, TopWrite, c, m);
    t := GetsConn(s, t, w, c, m);
    t := OpensAnother(s, t, w, c, m, succeeds);
  }
}
