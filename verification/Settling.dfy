/**
 What becomes of a delivery in a worker's hands (message.go:580-606): when it can be settled, what settling
 does to it, and, over any run, that a copy is acknowledged exactly by the settling of a worker that has
 processed it successfully.
 */
module Settling {
  import opened Wrappers
  import opened ConsumerSystem
  import opened ConsumerControl
  import opened ConsumerResources
  import opened ConsumerTheorems
  import Delivery

  // ---- one settling ------------------------------------------------------------------------

  /** Worker `w` has processed copy `m`, with this outcome, and not settled it. */
  predicate AtSettling(s: State, w: nat, m: nat, ok: bool) {
    w in s.ctl.workers && s.ctl.workers[w].pc == ConsumerSystem.Settling(m, ok)
  }

  /** The worker's channel is open and has the copy unsettled. */
  predicate Holds(s: State, w: nat, m: nat) {
    && w in s.ctl.workers && s.ctl.workers[w].chan.Some?
    && s.ctl.workers[w].chan.value in s.brk.channels
    && s.brk.channels[s.ctl.workers[w].chan.value].open
    && m in s.brk.channels[s.ctl.workers[w].chan.value].unsettled
  }

  /** An acknowledgement, or a requeueing, reaches the broker exactly if the open channel of the worker has
      the copy. */
  lemma SettlesIffHeld(s: State, w: nat, m: nat, ok: bool)
    requires Reachable(s) && AtSettling(s, w, m, ok)
    ensures Do(s, ByWorkerStep(w, Settle(true))).Some? <==> Holds(s, w, m)
    ensures Do(s, ByWorkerStep(w, Settle(false))).Some?
  {
    DeliveriesConserved(s);
    ReachableSetUp(s, w);
    if Holds(s, w, m) {
      HeldHasQueue(s.brk, s.ctl.workers[w].chan.value, m);
    }
    SettleEnabled(s, w, m, ok);
  }

  lemma ReachableSetUp(s: State, w: nat)
    requires Reachable(s) && w in s.ctl.workers
    ensures SetUp(s.ctl.workers[w], s.brk)
  {
    ReachableInv(s);
  }

  /** A copy that is unsettled somewhere has its queue, is not ready and not acknowledged. */
  lemma HeldHasQueue(b: Delivery.Broker, c: nat, m: nat)
    requires Delivery.Conserved(b) && c in b.channels && m in b.channels[c].unsettled
    ensures m in b.published && b.published[m] in b.queues && Delivery.UnsettledOn(b, c, m)
    ensures m !in b.acked && m !in b.dropped && !Delivery.ReadySomewhere(b, m)
  {
    assert Delivery.UnsettledOn(b, c, m);
  }

  lemma SettleEnabled(s: State, w: nat, m: nat, ok: bool)
    requires AtSettling(s, w, m, ok) && SetUp(s.ctl.workers[w], s.brk)
    requires Holds(s, w, m) ==> m in s.brk.published && s.brk.published[m] in s.brk.queues
    ensures Do(s, ByWorkerStep(w, Settle(true))).Some? <==> Holds(s, w, m)
    ensures Do(s, ByWorkerStep(w, Settle(false))).Some?
  {
  }

  /** The broker's other copies are where they were. */
  ghost predicate OthersStay(b: Delivery.Broker, b': Delivery.Broker, m: nat) {
    && b'.published == b.published && b'.dropped == b.dropped
    && forall x :: x != m ==>
         && (x in b'.acked <==> x in b.acked)
         && (Delivery.ReadySomewhere(b', x) <==> Delivery.ReadySomewhere(b, x))
         && (Delivery.UnsettledSomewhere(b', x) <==> Delivery.UnsettledSomewhere(b, x))
  }

  /** What a settling that reaches the broker does: a copy that was processed successfully is acknowledged
      and nowhere else; another is ready in its queue again, for somebody else to get; and no other copy is
      touched. */
  lemma SettleDecides(s: State, w: nat, m: nat, ok: bool, t: State)
    requires Reachable(s) && AtSettling(s, w, m, ok) && Do(s, ByWorkerStep(w, Settle(true))) == Some(t)
    ensures (m in t.brk.acked <==> ok) && (Delivery.ReadySomewhere(t.brk, m) <==> !ok)
    ensures !Delivery.UnsettledSomewhere(t.brk, m) && m !in t.brk.dropped
    ensures OthersStay(s.brk, t.brk, m)
  {
    SettlesIffHeld(s, w, m, ok);
    DeliveriesConserved(s);
    var c := s.ctl.workers[w].chan.value;
    HeldHasQueue(s.brk, c, m);
    SettleMoves(s, w, m, ok, t);
    SettledCopy(s.brk, c, m, ok, t.brk);
  }

  /** The copy has left the channel for the acknowledged ones or for its queue. */
  ghost predicate LeftFor(b: Delivery.Broker, c: nat, m: nat, ok: bool, b': Delivery.Broker) {
    && c in b.channels && m in b.published && b.published[m] in b.queues
    && b'.channels == b.channels[c := b.channels[c].(unsettled := b.channels[c].unsettled - {m})]
    && b'.published == b.published && b'.dropped == b.dropped
    && b'.acked == (if ok then b.acked + {m} else b.acked)
    && b'.queues == if ok then b.queues else b.queues[b.published[m] := b.queues[b.published[m]] + {m}]
  }

  lemma SettledCopy(b: Delivery.Broker, c: nat, m: nat, ok: bool, b': Delivery.Broker)
    requires Delivery.Conserved(b) && Delivery.UnsettledOn(b, c, m) && LeftFor(b, c, m, ok, b')
    ensures (m in b'.acked <==> ok) && (Delivery.ReadySomewhere(b', m) <==> !ok)
    ensures !Delivery.UnsettledSomewhere(b', m) && m !in b'.dropped && OthersStay(b, b', m)
  {
    HeldHasQueue(b, c, m);
    Delivery.SettledMoves(b, c, m, b');
    SettledOthers(b, c, m, b');
  }

  lemma SettleMoves(s: State, w: nat, m: nat, ok: bool, t: State)
    requires AtSettling(s, w, m, ok) && Holds(s, w, m) && Do(s, ByWorkerStep(w, Settle(true))) == Some(t)
    requires m in s.brk.published && s.brk.published[m] in s.brk.queues
    ensures LeftFor(s.brk, s.ctl.workers[w].chan.value, m, ok, t.brk)
  {
  }

  lemma SettledOthers(b: Delivery.Broker, c: nat, m: nat, b': Delivery.Broker)
    requires Delivery.Conserved(b) && Delivery.UnsettledOn(b, c, m)
    requires forall d: nat, x: nat :: Delivery.UnsettledOn(b', d, x) <==> Delivery.UnsettledOn(b, d, x) && x != m
    requires b'.published == b.published && b'.dropped == b.dropped
    requires (b'.acked == b.acked + {m} && b'.queues == b.queues)
          || (b'.acked == b.acked && b'.queues == b.queues[b.published[m] := b.queues[b.published[m]] + {m}])
    ensures OthersStay(b, b', m) && !Delivery.UnsettledSomewhere(b', m)
    ensures m !in b.acked && m !in b'.dropped && !Delivery.ReadySomewhere(b, m)
  {
    forall x | x != m
      ensures Delivery.UnsettledSomewhere(b', x) <==> Delivery.UnsettledSomewhere(b, x)
    {
      if Delivery.UnsettledSomewhere(b, x) {
        var d :| Delivery.UnsettledOn(b, d, x);
        assert Delivery.UnsettledOn(b', d, x);
      }
    }
  }

  /** A settling that does not reach the broker changes nothing there. */
  lemma LostSettleChangesNothing(s: State, w: nat, t: State)
    requires Do(s, ByWorkerStep(w, Settle(false))) == Some(t)
    ensures t.brk == s.brk && w in t.ctl.workers && t.ctl.workers[w].pc.LoopCheck?
  {
  }

  // ---- acknowledgements over runs ----------------------------------------------------------

  /** In this step a worker settles copy `m`, which it has processed successfully, and the broker gets it. */
  predicate Acknowledges(s: State, st: Step, m: nat) {
    st.ByWorkerStep? && st.worker == Settle(true) && AtSettling(s, st.w, m, true)
  }

  /** In this step a worker has copy `m` in hand, and processing it succeeds. */
  predicate Succeeds(s: State, st: Step, m: nat) {
    && st.ByWorkerStep? && st.worker == Process(true)
    && st.w in s.ctl.workers && s.ctl.workers[st.w].pc == Handling(m)
  }

  lemma StepAcknowledges(s: State, st: Step, t: State, m: nat)
    requires Do(s, st) == Some(t)
    ensures m in t.brk.acked <==> m in s.brk.acked || Acknowledges(s, st, m)
  {
    if st.ByWorkerStep? {
      WorkerStepAcknowledges(s, st.w, st.worker, t, m);
    }
  }

  lemma WorkerStepAcknowledges(s: State, w: nat, st: WorkerStep, t: State, m: nat)
    requires w in s.ctl.workers && DoWorker(s, w, st) == Some(t)
    ensures m in t.brk.acked <==> m in s.brk.acked || Acknowledges(s, ByWorkerStep(w, st), m)
  {
    if DoTable(s, w, st) == Some(t) {
      TableStepMoves(s, w, st, t);
    } else if DoPool(s, w, st) == Some(t) {
      PoolStepMoves(s, w, st, t);
    } else if DoSignal(s, w, st) == Some(t) {
      SignalStepIsAside(s, w, st, t);
    } else {
      BrokerStepAcknowledges(s, w, st, t, m);
    }
  }

  lemma BrokerStepAcknowledges(s: State, w: nat, st: WorkerStep, t: State, m: nat)
    requires w in s.ctl.workers && DoBroker(s, w, st) == Some(t)
    ensures m in t.brk.acked <==> m in s.brk.acked || Acknowledges(s, ByWorkerStep(w, st), m)
  {
    if st.DeclareQueue? {
      RedeclaredKeepsCopies(s.brk, ItemKey(s.ctl.workers[w].item), st.deleted, st.declared);
    }
  }

  /** Over any run, a copy is acknowledged exactly if some worker that had processed it successfully has
      settled it at the broker. */
  lemma {:induction false} AcknowledgedIff(states: seq<State>, steps: seq<Step>, j: nat, m: nat)
    requires ConsumerSystem.Run(states, steps) && j < |states|
    ensures m in states[j].brk.acked <==> exists n :: 0 <= n < j && Acknowledges(states[n], steps[n], m)
  {
    if j > 0 {
      AcknowledgedIff(states, steps, j - 1, m);
      assert StepAt(states, steps, j - 1);
      StepAcknowledges(states[j - 1], steps[j - 1], states[j], m);
    }
  }

  lemma StepSucceeds(s: State, st: Step, t: State, m: nat)
    requires Do(s, st) == Some(t)
    ensures m in t.ctl.approved <==> m in s.ctl.approved || Succeeds(s, st, m)
  {
    if st.ByWorkerStep? {
      WorkerStepSucceeds(s, st.w, st.worker, t, m);
    } else if st.ByManager? {
      ManagerAddsWorkers(s.ctl, st.manager, t.ctl);
    }
  }

  lemma WorkerStepSucceeds(s: State, w: nat, st: WorkerStep, t: State, m: nat)
    requires w in s.ctl.workers && DoWorker(s, w, st) == Some(t)
    ensures m in t.ctl.approved <==> m in s.ctl.approved || Succeeds(s, ByWorkerStep(w, st), m)
  {
    if DoTable(s, w, st) == Some(t) {
      TableStepMoves(s, w, st, t);
    } else if DoPool(s, w, st) == Some(t) {
      PoolStepMoves(s, w, st, t);
    } else if DoBroker(s, w, st) == Some(t) {
      BrokerStepMoves(s, w, st, t);
    }
  }

  /** Over any run, a copy counts as processed exactly if a worker that had it in hand processed it
      successfully. */
  lemma {:induction false} ProcessedIff(states: seq<State>, steps: seq<Step>, j: nat, m: nat)
    requires ConsumerSystem.Run(states, steps) && j < |states|
    ensures m in states[j].ctl.approved <==> exists n :: 0 <= n < j && Succeeds(states[n], steps[n], m)
  {
    if j > 0 {
      ProcessedIff(states, steps, j - 1, m);
      assert StepAt(states, steps, j - 1);
      StepSucceeds(states[j - 1], steps[j - 1], states[j], m);
    }
  }
}
