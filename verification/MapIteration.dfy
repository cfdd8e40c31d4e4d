/**
 `IterBuffered` and `Items` of map.go (158-221) while other goroutines write the map. Each shard
 has a snapshot goroutine, which holds the shard's read lock while it fills a channel, and a
 forwarder, which moves tuples from that channel to `out`; one collector drains `out`. Every lock,
 send, receive and close is one step; a write to a shard is one step and needs it unlocked.
 */
module MapIteration {
  import opened Wrappers
  import opened Sums
  import opened Fnv
  import opened ConcurrentMaps

  /** A stored value; only its identity matters here. */
  type Value = int

  datatype Tuple = Tuple(key: Key, value: Value)

  datatype Phase = Waiting | Sending | Unlocked | Closed
  datatype Forwarder = Ready | Holding(t: Tuple) | Finished

  /** One shard with its two goroutines. `snap` is what the shard held when it was read-locked, and
      the size of `snap` is the capacity of `chan`; `passed` is what the forwarder has sent to `out`. */
  datatype Slot = Slot(
    items: map<Key, Value>, phase: Phase, snap: map<Key, Value>, unsent: map<Key, Value>,
    chan: seq<Tuple>, forwarder: Forwarder, passed: seq<Tuple>)

  /** `fanning`: every channel has been made, so `out` exists and the forwarders run. */
  datatype State = State(slots: seq<Slot>, fanning: bool, out: seq<Tuple>, outClosed: bool, received: seq<Tuple>,
                         done: bool)

  datatype Step =
    | Put(i: nat, key: Key, value: Value)
    | Drop(i: nat, key: Key)
    | Lock(i: nat)
    | Send(i: nat, key: Key)
    | Unlock(i: nat)
    | CloseChan(i: nat)
    | FanIn
    | Take(i: nat)
    | Forward(i: nat)
    | Finish(i: nat)
    | CloseOut
    | Receive
    | End

  // ---- sums over the shards --------------------------------------------------------------

  /** The capacity of `out`. */
  function Capacity(slots: seq<Slot>): nat {
    Total((s: Slot) => |s.snap|, slots)
  }

  function Passed(slots: seq<Slot>): multiset<Tuple> {
    if slots == [] then multiset{} else Passed(slots[..|slots| - 1]) + multiset(slots[|slots| - 1].passed)
  }

  /** Work left in one shard, and its sum; and the shards that wait for their lock. */
  function Work(s: Slot): nat {
    4 * |s.unsent| + 3 * |s.chan| + (if s.forwarder.Holding? then 2 else 0) + (if s.forwarder.Finished? then 0 else 1)
    + (if s.phase.Closed? then 0 else if s.phase.Unlocked? then 1 else 2)
  }

  function TotalWork(slots: seq<Slot>): nat {
    Total(Work, slots)
  }

  function Waits(s: Slot): nat {
    if s.phase.Waiting? then 1 else 0
  }

  function WaitingShards(slots: seq<Slot>): nat {
    Total(Waits, slots)
  }

  lemma {:induction false} PassedAfterUpdate(slots: seq<Slot>, i: nat, s: Slot)
    requires i < |slots|
    ensures Passed(slots[i := s]) + multiset(slots[i].passed) == Passed(slots) + multiset(s.passed)
    decreases |slots|
  {
    var n := |slots| - 1;
    if i == n {
      assert slots[i := s][..n] == slots[..n];
    } else {
      assert slots[i := s][..n] == slots[..n][i := s];
      PassedAfterUpdate(slots[..n], i, s);
      AddBoth(Passed(slots[..n][i := s]), multiset(slots[i].passed), Passed(slots[..n]), multiset(s.passed),
              multiset(slots[n].passed));
    }
  }

  lemma AddBoth(a: multiset<Tuple>, x: multiset<Tuple>, b: multiset<Tuple>, y: multiset<Tuple>, l: multiset<Tuple>)
    requires a + x == b + y
    ensures a + l + x == b + l + y
  {
    forall t ensures (a + l + x)[t] == (b + l + y)[t] {
      assert (a + x)[t] == (b + y)[t];
    }
  }

  // ---- steps -----------------------------------------------------------------------------

  predicate AllLocked(slots: seq<Slot>) {
    forall i :: 0 <= i < |slots| ==> !slots[i].phase.Waiting?
  }

  predicate AllFinished(slots: seq<Slot>) {
    forall i :: 0 <= i < |slots| ==> slots[i].forwarder.Finished?
  }

  /** A step of the goroutines of one shard, on its own part of the state. */
  function DoSlot(s: Slot, st: Step): Option<Slot> {
    match st
    case Put(_, k, v) => if s.phase.Sending? then None else Some(s.(items := s.items[k := v]))
    case Drop(_, k) => if s.phase.Sending? then None else Some(s.(items := s.items - {k}))
    case Lock(_) => if s.phase.Waiting? then Some(s.(phase := Sending, snap := s.items, unsent := s.items)) else None
    case Send(_, k) =>
      if s.phase.Sending? && k in s.unsent && |s.chan| < |s.snap| then
        Some(s.(chan := s.chan + [Tuple(k, s.unsent[k])], unsent := s.unsent - {k}))
      else None
    case Unlock(_) => if s.phase.Sending? && s.unsent.Keys == {} then Some(s.(phase := Unlocked)) else None
    case CloseChan(_) => if s.phase.Unlocked? then Some(s.(phase := Closed)) else None
    case Take(_) =>
      if s.forwarder.Ready? && s.chan != [] then
        Some(s.(forwarder := Holding(s.chan[0]), chan := s.chan[1..]))
      else None
    case Forward(_) =>
      if s.forwarder.Holding? then Some(s.(forwarder := Ready, passed := s.passed + [s.forwarder.t])) else None
    case Finish(_) =>
      if s.forwarder.Ready? && s.chan == [] && s.phase.Closed? then Some(s.(forwarder := Finished)) else None
    case _ => None
  }

  predicate Local(st: Step) {
    !st.FanIn? && !st.CloseOut? && !st.Receive? && !st.End?
  }

  /** Writes and deletions by other goroutines, as opposed to steps of the iteration. */
  predicate Write(st: Step) {
    st.Put? || st.Drop?
  }

  /** What a step sends to `out`. */
  function Sent(s: Slot, st: Step): seq<Tuple> {
    if st.Forward? && s.forwarder.Holding? then [s.forwarder.t] else []
  }

  /** A step on shard `i`: forwarders run once `out` exists, and `out` must have room for a send. */
  function DoShard(s: State, st: Step, i: nat): Option<State>
    requires i < |s.slots|
  {
    if (st.Take? || st.Forward? || st.Finish?) && !s.fanning then None
    else if st.Forward? && |s.out| >= Capacity(s.slots) then None
    else
      match DoSlot(s.slots[i], st)
      case None => None
      case Some(slot) => Some(s.(slots := s.slots[i := slot], out := s.out + Sent(s.slots[i], st)))
  }

  function Do(s: State, st: Step): Option<State> {
    if Local(st) then
      if st.i >= |s.slots| then None
      else if Write(st) && ShardOf(st.key, |s.slots|) != st.i then None
      else DoShard(s, st, st.i)
    else if st.FanIn? then
      if !s.fanning && AllLocked(s.slots) then Some(s.(fanning := true)) else None
    else if st.CloseOut? then
      if s.fanning && !s.outClosed && AllFinished(s.slots) then Some(s.(outClosed := true)) else None
    else if st.Receive? then
      if s.fanning && !s.done && s.out != [] then
        Some(s.(out := s.out[1..], received := s.received + [s.out[0]]))
      else None
    else if s.outClosed && s.out == [] && !s.done then Some(s.(done := true))
    else None
  }

  /** The call starts with every key in its own shard and nothing begun. */
  ghost predicate Init(s: State) {
    && |s.slots| > 0
    && (forall i :: 0 <= i < |s.slots| ==>
         s.slots[i] == Slot(s.slots[i].items, Waiting, map[], map[], [], Ready, [])
             && KeysFit(s.slots[i].items, i, |s.slots|))
    && s == State(s.slots, false, [], false, [], false)
  }

  ghost predicate KeysFit(m: map<Key, Value>, i: nat, n: nat)
    requires n > 0
  {
    forall k :: k in m ==> ShardOf(k, n) == i
  }

  // ---- the invariant ---------------------------------------------------------------------

  function Pairs(m: map<Key, Value>): set<Tuple> {
    set k | k in m :: Tuple(k, m[k])
  }

  function Held(f: Forwarder): multiset<Tuple> {
    if f.Holding? then multiset{f.t} else multiset{}
  }

  /** The shard's contents when it was locked are now unsent, in its channel, held or passed on. */
  ghost predicate SlotConserves(s: Slot) {
    multiset(Pairs(s.snap)) == multiset(Pairs(s.unsent)) + multiset(s.chan) + Held(s.forwarder) + multiset(s.passed)
  }

  ghost predicate SlotInv(s: Slot, i: nat, n: nat)
    requires n > 0
  {
    && SlotConserves(s)
    && KeysFit(s.items, i, n) && KeysFit(s.snap, i, n)
    && (s.phase.Waiting? ==>
         s.snap == map[] && s.unsent == map[] && s.chan == [] && s.forwarder.Ready? && s.passed == [])
    && (s.phase.Sending? ==> s.items == s.snap)
    && (forall k :: k in s.unsent ==> k in s.snap && s.unsent[k] == s.snap[k])
    && (s.phase.Unlocked? || s.phase.Closed? ==> s.unsent == map[])
    && (s.forwarder.Finished? ==> s.chan == [] && s.phase.Closed?)
  }

  ghost predicate SlotsInv(slots: seq<Slot>) {
    forall i :: 0 <= i < |slots| ==> SlotInv(slots[i], i, |slots|)
  }

  ghost predicate Inv(s: State) {
    && |s.slots| > 0
    && SlotsInv(s.slots)
    && (s.fanning ==> AllLocked(s.slots))
    && multiset(s.out) + multiset(s.received) == Passed(s.slots)
    && (s.outClosed ==> s.fanning && AllFinished(s.slots))
    && (s.done ==> s.outClosed && s.out == [])
  }

  lemma PairsMembers(m: map<Key, Value>)
    ensures forall t :: t in Pairs(m) <==> t.key in m && m[t.key] == t.value
  {
    forall t: Tuple | t.key in m && m[t.key] == t.value ensures t in Pairs(m) {
      assert t == Tuple(t.key, m[t.key]);
    }
  }

  lemma PairsWithout(m: map<Key, Value>, k: Key)
    requires k in m
    ensures multiset(Pairs(m)) == multiset(Pairs(m - {k})) + multiset{Tuple(k, m[k])}
  {
    PairsMembers(m);
    PairsMembers(m - {k});
    assert Pairs(m) == Pairs(m - {k}) + {Tuple(k, m[k])};
    assert Tuple(k, m[k]) !in Pairs(m - {k});
  }

  lemma SendConserves(s: Slot, k: Key, t: Slot)
    requires SlotConserves(s) && DoSlot(s, Send(0, k)) == Some(t)
    ensures SlotConserves(t)
  {
    PairsWithout(s.unsent, k);
  }

  lemma TakeConserves(s: Slot, t: Slot)
    requires SlotConserves(s) && DoSlot(s, Take(0)) == Some(t)
    ensures SlotConserves(t)
  {
    assert s.chan == [s.chan[0]] + s.chan[1..];
  }

  lemma SlotStepConserves(s: Slot, st: Step, t: Slot)
    requires SlotConserves(s) && DoSlot(s, st) == Some(t)
    requires s.phase.Waiting? ==> s.chan == [] && s.forwarder.Ready? && s.passed == []
    ensures SlotConserves(t)
  {
    if st.Send? {
      SendConserves(s, st.key, t);
    } else if st.Take? {
      TakeConserves(s, t);
    } else if st.Forward? {
      ForwardConserves(s, t);
    } else if st.Lock? {
      LockConserves(s, t);
    } else {
      OtherMoves(s, st, t);
    }
  }

  lemma ForwardConserves(s: Slot, t: Slot)
    requires SlotConserves(s) && DoSlot(s, Forward(0)) == Some(t)
    ensures SlotConserves(t)
  {
    assert multiset(t.passed) == multiset(s.passed) + Held(s.forwarder);
  }

  lemma LockConserves(s: Slot, t: Slot)
    requires DoSlot(s, Lock(0)) == Some(t)
    requires s.chan == [] && s.forwarder.Ready? && s.passed == []
    ensures SlotConserves(t)
  {
  }

  /** The remaining steps move no tuple. */
  lemma OtherMoves(s: Slot, st: Step, t: Slot)
    requires DoSlot(s, st) == Some(t) && !st.Send? && !st.Take? && !st.Forward? && !st.Lock?
    ensures t.snap == s.snap && t.unsent == s.unsent && t.chan == s.chan && t.passed == s.passed
    ensures Held(t.forwarder) == Held(s.forwarder)
  {
  }

  /** What a shard's own steps do to its history. */
  lemma SlotStepPasses(s: Slot, st: Step, t: Slot)
    requires DoSlot(s, st) == Some(t)
    ensures st.Forward? ==>
      s.forwarder.Holding? && multiset(t.passed) == multiset(s.passed) + multiset{s.forwarder.t}
    ensures !st.Forward? ==> t.passed == s.passed
    ensures s.forwarder.Finished? ==> t.forwarder.Finished?
    ensures !s.phase.Waiting? ==> !t.phase.Waiting? && t.snap == s.snap
    ensures s.phase.Waiting? && !t.phase.Waiting? ==> t.snap == s.items
  {
  }

  lemma SlotStepKeepsInv(s: Slot, st: Step, t: Slot, i: nat, n: nat)
    requires n > 0 && i < n && SlotInv(s, i, n) && DoSlot(s, st) == Some(t)
    requires st.Put? || st.Drop? ==> ShardOf(st.key, n) == i
    requires st.Take? || st.Forward? || st.Finish? ==> !s.phase.Waiting?
    ensures SlotInv(t, i, n)
  {
    SlotStepConserves(s, st, t);
    match st {
      case Put(_, _, _) =>
      case Drop(_, _) =>
      case Send(_, k) =>
      case Unlock(_) =>
      case _ =>
    }
  }

  lemma LocalStep(s: State, st: Step, t: State)
    requires Local(st) && Do(s, st) == Some(t)
    ensures st.i < |s.slots| && |t.slots| == |s.slots| && t.slots == s.slots[st.i := t.slots[st.i]]
    ensures DoSlot(s.slots[st.i], st) == Some(t.slots[st.i])
    ensures t == s.(slots := t.slots, out := t.out)
    ensures t.out == s.out + Sent(s.slots[st.i], st)
    ensures st.Put? || st.Drop? ==> ShardOf(st.key, |s.slots|) == st.i
    ensures st.Take? || st.Forward? || st.Finish? ==> s.fanning
  {
  }

  lemma StepKeepsInv(s: State, st: Step, t: State)
    requires Inv(s) && Do(s, st) == Some(t)
    ensures Inv(t)
  {
    if Local(st) {
      LocalStep(s, st, t);
      SlotStepKeepsInv(s.slots[st.i], st, t.slots[st.i], st.i, |s.slots|);
      SlotStepPasses(s.slots[st.i], st, t.slots[st.i]);
      PassedAfterUpdate(s.slots, st.i, t.slots[st.i]);
      OutMatches(s, st, t.slots[st.i], t.out);
      LocalStepKeepsInv(s, st.i, t.slots[st.i], t);
    } else if st.Receive? {
      assert s.out == [s.out[0]] + s.out[1..];
    }
  }

  lemma LocalStepKeepsInv(s: State, i: nat, slot: Slot, t: State)
    requires Inv(s) && i < |s.slots| && SlotInv(slot, i, |s.slots|)
    requires t == s.(slots := s.slots[i := slot], out := t.out)
    requires multiset(t.out) + multiset(s.received) == Passed(t.slots)
    requires !s.slots[i].phase.Waiting? ==> !slot.phase.Waiting?
    requires s.slots[i].forwarder.Finished? ==> slot.forwarder.Finished?
    requires s.outClosed ==> t.out == s.out
    ensures Inv(t)
  {
    OneSlotKeepsAll(s.slots, i, slot);
  }

  lemma OneSlotKeepsAll(slots: seq<Slot>, i: nat, slot: Slot)
    requires SlotsInv(slots) && i < |slots| && SlotInv(slot, i, |slots|)
    requires !slots[i].phase.Waiting? ==> !slot.phase.Waiting?
    requires slots[i].forwarder.Finished? ==> slot.forwarder.Finished?
    ensures SlotsInv(slots[i := slot])
    ensures AllLocked(slots) ==> AllLocked(slots[i := slot])
    ensures AllFinished(slots) ==> AllFinished(slots[i := slot])
  {
  }

  lemma OutMatches(s: State, st: Step, slot: Slot, out: seq<Tuple>)
    requires Local(st) && st.i < |s.slots| && DoSlot(s.slots[st.i], st) == Some(slot)
    requires multiset(s.out) + multiset(s.received) == Passed(s.slots)
    requires Passed(s.slots[st.i := slot]) + multiset(s.slots[st.i].passed) == Passed(s.slots) + multiset(slot.passed)
    requires out == s.out + Sent(s.slots[st.i], st)
    ensures multiset(out) + multiset(s.received) == Passed(s.slots[st.i := slot])
  {
    var before, sent := multiset(s.slots[st.i].passed), multiset(Sent(s.slots[st.i], st));
    SlotStepPasses(s.slots[st.i], st, slot);
    assert multiset(slot.passed) == before + sent;
    Cancel(Passed(s.slots[st.i := slot]), Passed(s.slots), before, sent);
    assert multiset(out) == multiset(s.out) + sent;
  }

  lemma Cancel(a: multiset<Tuple>, b: multiset<Tuple>, x: multiset<Tuple>, y: multiset<Tuple>)
    requires a + x == b + (x + y)
    ensures a == b + y
  {
    forall t ensures a[t] == (b + y)[t] {
      assert (a + x)[t] == (b + (x + y))[t];
    }
  }

  lemma InitEstablishesInv(s: State)
    requires Init(s)
    ensures Inv(s)
  {
    NothingPassed(s.slots);
    assert Pairs(map[]) == {};
  }

  lemma {:induction false} NothingPassed(slots: seq<Slot>)
    requires forall i :: 0 <= i < |slots| ==> slots[i].passed == []
    ensures Passed(slots) == multiset{}
    decreases |slots|
  {
    if slots != [] {
      NothingPassed(slots[..|slots| - 1]);
    }
  }

  // ---- nothing blocks, and everything ends -----------------------------------------------

  lemma PairsSize(m: map<Key, Value>)
    ensures |multiset(Pairs(m))| == |m|
    decreases |m|
  {
    if m.Keys != {} {
      var k :| k in m;
      PairsWithout(m, k);
      PairsSize(m - {k});
      OneFewer(m, k);
    } else {
      assert m == map[] && Pairs(m) == {};
    }
  }

  /** A snapshot goroutine's send always finds room in its channel. */
  lemma SendNeverBlocks(s: State, i: nat, k: Key)
    requires Inv(s) && i < |s.slots| && s.slots[i].phase.Sending? && k in s.slots[i].unsent
    ensures Do(s, Send(i, k)).Some?
  {
    var slot := s.slots[i];
    PairsSize(slot.snap);
    PairsSize(slot.unsent);
    assert |slot.unsent| == |slot.unsent.Keys| && slot.unsent.Keys != {};
  }

  lemma SlotFits(s: Slot)
    requires SlotConserves(s)
    ensures |s.passed| + (if s.forwarder.Holding? then 1 else 0) <= |s.snap|
  {
    PairsSize(s.snap);
    assert |multiset(Pairs(s.snap))| ==
      |multiset(Pairs(s.unsent))| + |multiset(s.chan)| + |Held(s.forwarder)| + |multiset(s.passed)|;
  }

  lemma {:induction false} PassedFits(slots: seq<Slot>, i: nat)
    requires i <= |slots| && (forall j :: 0 <= j < |slots| ==> SlotConserves(slots[j]))
    ensures |Passed(slots)| + (if i < |slots| && slots[i].forwarder.Holding? then 1 else 0) <= Capacity(slots)
    decreases |slots|
  {
    if slots != [] {
      var n := |slots| - 1;
      assert SlotConserves(slots[n]);
      SlotFits(slots[n]);
      PassedFits(slots[..n], if i < n then i else n);
      assert i < n ==> slots[..n][i] == slots[i];
    }
  }

  /** A forwarder's send always finds room in `out`. */
  lemma ForwardNeverBlocks(s: State, i: nat)
    requires Inv(s) && s.fanning && i < |s.slots| && s.slots[i].forwarder.Holding?
    ensures Do(s, Forward(i)).Some?
  {
    PassedFits(s.slots, i);
    assert |multiset(s.out)| + |multiset(s.received)| == |Passed(s.slots)|;
  }

  /** `out` is closed only when nothing is left anywhere else. */
  lemma OutClosesLast(s: State, i: nat)
    requires Inv(s) && s.outClosed && i < |s.slots|
    ensures s.slots[i].unsent == map[] && s.slots[i].chan == [] && s.slots[i].forwarder.Finished?
  {
  }

  /** The lexicographic measure of an iteration. */
  function Remaining(s: State): nat {
    TotalWork(s.slots) + |s.out| + (if s.fanning then 0 else 1) + (if s.outClosed then 0 else 1)
        + (if s.done then 0 else 1)
  }

  /** Every step of the iteration makes it smaller, and writes of others leave it alone. */
  lemma MeasureDecreases(s: State, st: Step, t: State)
    requires Inv(s) && Do(s, st) == Some(t)
    ensures Write(st) ==> WaitingShards(t.slots) == WaitingShards(s.slots) && Remaining(t) == Remaining(s)
    ensures !Write(st) ==>
      || WaitingShards(t.slots) < WaitingShards(s.slots)
      || (WaitingShards(t.slots) == WaitingShards(s.slots) && Remaining(t) < Remaining(s))
  {
    if Local(st) {
      LocalStep(s, st, t);
      TotalAfterUpdate(Work, s.slots, st.i, t.slots[st.i]);
      TotalAfterUpdate(Waits, s.slots, st.i, t.slots[st.i]);
      SlotWorkDecreases(s.slots[st.i], st, t.slots[st.i]);
    }
  }

  lemma SlotWorkDecreases(s: Slot, st: Step, t: Slot)
    requires DoSlot(s, st) == Some(t)
    ensures Write(st) ==> Work(t) == Work(s) && t.phase == s.phase
    ensures st.Lock? <==> s.phase.Waiting? && !t.phase.Waiting?
    ensures !s.phase.Waiting? ==> !t.phase.Waiting?
    ensures !Write(st) && !st.Lock? ==> Work(t) < Work(s)
    ensures st.Forward? ==> Work(t) + 2 <= Work(s)
  {
    if st.Send? {
      OneFewer(s.unsent, st.key);
      assert t == s.(chan := t.chan, unsent := s.unsent - {st.key}) && |t.chan| == |s.chan| + 1;
    }
  }

  lemma OneFewer(m: map<Key, Value>, k: Key)
    requires k in m
    ensures |m - {k}| == |m| - 1
  {
    assert m.Keys == (m - {k}).Keys + {k};
    assert |m| == |m.Keys| && |m - {k}| == |(m - {k}).Keys|;
  }

  /** Until the call is done, the iteration can take a step, whatever the writers do. */
  lemma NeverStuck(s: State) returns (st: Step)
    requires Inv(s) && !s.done
    ensures !Write(st) && Do(s, st).Some?
  {
    if i :| 0 <= i < |s.slots| && s.slots[i].phase.Waiting? {
      st := Lock(i);
    } else if i :| 0 <= i < |s.slots| && s.slots[i].phase.Sending? {
      st := SenderStep(s, i);
    } else if !s.fanning {
      st := FanIn;
    } else {
      st := FannedStep(s);
    }
  }

  lemma SenderStep(s: State, i: nat) returns (st: Step)
    requires Inv(s) && i < |s.slots| && s.slots[i].phase.Sending?
    ensures !Write(st) && Do(s, st).Some?
  {
    if s.slots[i].unsent.Keys == {} {
      st := Unlock(i);
    } else {
      var k :| k in s.slots[i].unsent;
      SendNeverBlocks(s, i, k);
      st := Send(i, k);
    }
  }

  lemma FannedStep(s: State) returns (st: Step)
    requires Inv(s) && !s.done && s.fanning
    requires forall i :: 0 <= i < |s.slots| ==> s.slots[i].phase.Unlocked? || s.slots[i].phase.Closed?
    ensures !Write(st) && Do(s, st).Some?
  {
    if s.out != [] {
      st := Receive;
    } else if s.outClosed {
      st := End;
    } else if i :| 0 <= i < |s.slots| && !s.slots[i].forwarder.Finished? {
      st := ForwarderStep(s, i);
    } else {
      st := CloseOut;
    }
  }

  lemma ForwarderStep(s: State, i: nat) returns (st: Step)
    requires Inv(s) && s.fanning && i < |s.slots| && !s.slots[i].forwarder.Finished?
    requires s.slots[i].phase.Unlocked? || s.slots[i].phase.Closed?
    ensures !Write(st) && Do(s, st).Some?
  {
    if s.slots[i].forwarder.Holding? {
      ForwardNeverBlocks(s, i);
      st := Forward(i);
    } else if s.slots[i].chan != [] {
      st := Take(i);
    } else if s.slots[i].phase.Unlocked? {
      st := CloseChan(i);
    } else {
      st := Finish(i);
    }
  }

  // ---- a weak snapshot -------------------------------------------------------------------

  ghost predicate StepAt(states: seq<State>, steps: seq<Step>, n: nat)
    requires n < |steps| && n + 1 < |states|
  {
    Do(states[n], steps[n]) == Some(states[n + 1])
  }

  ghost predicate Run(states: seq<State>, steps: seq<Step>) {
    && |states| == |steps| + 1
    && Init(states[0])
    && forall n :: 0 <= n < |steps| ==> StepAt(states, steps, n)
  }

  lemma {:induction false} RunKeepsInv(states: seq<State>, steps: seq<Step>, n: nat)
    requires Run(states, steps) && n < |states|
    ensures Inv(states[n]) && |states[n].slots| == |states[0].slots|
  {
    if n == 0 {
      InitEstablishesInv(states[0]);
    } else {
      RunKeepsInv(states, steps, n - 1);
      assert StepAt(states, steps, n - 1);
      StepKeepsInv(states[n - 1], steps[n - 1], states[n]);
      assert |states[n].slots| == |states[n - 1].slots|;
    }
  }

  /** What the map as a whole holds. */
  ghost predicate Present(s: State, t: Tuple)
    requires |s.slots| > 0
  {
    var items := s.slots[ShardOf(t.key, |s.slots|)].items;
    t.key in items && items[t.key] == t.value
  }

  ghost predicate SnapTakenAt(s: State, i: nat, u: State) {
    i < |s.slots| && i < |u.slots| && s.slots[i].snap == u.slots[i].items
  }

  /** Each shard's snapshot is the shard at some instant of the run so far. */
  lemma {:induction false} SnapIsAnInstant(states: seq<State>, steps: seq<Step>, n: nat, i: nat) returns (m: nat)
    requires Run(states, steps) && n < |states| && i < |states[n].slots| && !states[n].slots[i].phase.Waiting?
    ensures m <= n && SnapTakenAt(states[n], i, states[m])
  {
    m := 0;
    if n > 0 {
      RunKeepsSnap(states, steps, n - 1, i);
      if states[n - 1].slots[i].phase.Waiting? {
        m := n - 1;
      } else {
        m := SnapIsAnInstant(states, steps, n - 1, i);
      }
    }
  }

  lemma RunKeepsSnap(states: seq<State>, steps: seq<Step>, n: nat, i: nat)
    requires Run(states, steps) && n < |steps| && i < |states[n + 1].slots| && !states[n + 1].slots[i].phase.Waiting?
    ensures i < |states[n].slots|
    ensures states[n + 1].slots[i].snap ==
      if states[n].slots[i].phase.Waiting? then states[n].slots[i].items else states[n].slots[i].snap
  {
    assert StepAt(states, steps, n);
    StepKeepsSnap(states[n], steps[n], states[n + 1], i);
  }

  lemma StepKeepsSnap(s: State, st: Step, t: State, i: nat)
    requires Do(s, st) == Some(t) && i < |t.slots| && !t.slots[i].phase.Waiting?
    ensures i < |s.slots| && t.slots[i].snap == if s.slots[i].phase.Waiting? then s.slots[i].items else s.slots[i].snap
  {
    if Local(st) {
      LocalStep(s, st, t);
      SlotStepPasses(s.slots[st.i], st, t.slots[st.i]);
    }
  }

  lemma {:induction false} PassedCameFromSnaps(slots: seq<Slot>, t: Tuple)
    requires forall i :: 0 <= i < |slots| ==> SlotConserves(slots[i])
    requires t in Passed(slots)
    ensures exists i :: 0 <= i < |slots| && t in Pairs(slots[i].snap)
    decreases |slots|
  {
    var n := |slots| - 1;
    if t in multiset(slots[n].passed) {
      assert t in multiset(Pairs(slots[n].snap));
    } else {
      PassedCameFromSnaps(slots[..n], t);
      var i :| 0 <= i < n && t in Pairs(slots[..n][i].snap);
      assert t in Pairs(slots[i].snap);
    }
  }

  /** Every tuple received was in the map at some instant of the call. */
  lemma ReceivedWasPresent(states: seq<State>, steps: seq<Step>, n: nat, t: Tuple) returns (m: nat)
    requires Run(states, steps) && n < |states| && t in states[n].received
    ensures m <= n && |states[m].slots| > 0 && Present(states[m], t)
  {
    RunKeepsInv(states, steps, n);
    var s := states[n];
    assert t in multiset(s.received) && t in Passed(s.slots);
    PassedCameFromSnaps(s.slots, t);
    var i :| 0 <= i < |s.slots| && t in Pairs(s.slots[i].snap);
    assert SlotInv(s.slots[i], i, |s.slots|);
    m := SnapIsAnInstant(states, steps, n, i);
    RunKeepsInv(states, steps, m);
  }

  lemma {:induction false} FinishedPassedAll(slots: seq<Slot>, i: nat, t: Tuple)
    requires i < |slots| && t in multiset(slots[i].passed)
    ensures t in Passed(slots)
    decreases |slots|
  {
    if i < |slots| - 1 {
      FinishedPassedAll(slots[..|slots| - 1], i, t);
    }
  }

  /** Every pair that stays in the map, unchanged, for the whole call is received by its end. */
  lemma StableIsReceived(states: seq<State>, steps: seq<Step>, t: Tuple)
    requires Run(states, steps) && states[|steps|].done
    requires forall n :: 0 <= n < |states| ==> |states[n].slots| > 0 && Present(states[n], t)
    ensures t in states[|steps|].received
  {
    var s := states[|steps|];
    RunKeepsInv(states, steps, |steps|);
    var i := ShardOf(t.key, |s.slots|);
    assert s.slots[i].forwarder.Finished?;
    var m := SnapIsAnInstant(states, steps, |steps|, i);
    RunKeepsInv(states, steps, m);
    assert Present(states[m], t);
    PairsMembers(s.slots[i].snap);
    FinishedIsPassed(s, i, t);
  }

  lemma FinishedIsPassed(s: State, i: nat, t: Tuple)
    requires Inv(s) && s.done && i < |s.slots| && t in Pairs(s.slots[i].snap)
    ensures t in s.received
  {
    assert SlotInv(s.slots[i], i, |s.slots|);
    assert Pairs(map[]) == {};
    assert t in multiset(Pairs(s.slots[i].snap));
    assert t in multiset(s.slots[i].passed);
    FinishedPassedAll(s.slots, i, t);
    assert t in multiset(s.received);
  }

  /** Tuples passed on have distinct keys: within a shard because it is a map, across shards because
      every key has one shard. */
  lemma {:induction false} PassedOnce(slots: seq<Slot>, n: nat, t: Tuple, u: Tuple)
    requires n >= |slots| && n > 0 && (forall i :: 0 <= i < |slots| ==> SlotInv(slots[i], i, n))
    requires t in Passed(slots) && u in Passed(slots) && t.key == u.key
    ensures t == u && Passed(slots)[t] == 1 && ShardOf(t.key, n) < |slots|
    decreases |slots|
  {
    var k := |slots| - 1;
    var last := slots[k];
    assert SlotInv(last, k, n);
    forall x | x in multiset(last.passed)
      ensures x in Pairs(last.snap) && ShardOf(x.key, n) == k && multiset(last.passed)[x] == 1
    {
      assert x in multiset(Pairs(last.snap));
    }
    var rest := slots[..k];
    forall x, y | x in Passed(rest) && y in Passed(rest) && x.key == y.key
      ensures x == y && Passed(rest)[x] == 1 && ShardOf(x.key, n) < k
    {
      PassedOnce(rest, n, x, y);
    }
  }

  /** No key is delivered twice. */
  lemma NoKeyTwice(s: State, a: nat, b: nat)
    requires Inv(s) && a < b < |s.received|
    ensures s.received[a].key != s.received[b].key
  {
    var t, u := s.received[a], s.received[b];
    assert t in multiset(s.received) && u in multiset(s.received);
    if t == u {
      CountedTwice(s.received, a, b);
    }
    if t.key == u.key {
      PassedOnce(s.slots, |s.slots|, t, u);
    }
  }

  lemma CountedTwice(ts: seq<Tuple>, a: nat, b: nat)
    requires a < b < |ts| && ts[a] == ts[b]
    ensures multiset(ts)[ts[a]] >= 2
  {
    assert ts == ts[..b] + [ts[b]] + ts[b + 1..];
    assert ts[a] in ts[..b];
  }

  /** `Items`: the map built from the tuples received, in the order they came. */
  function Collected(ts: seq<Tuple>): map<Key, Value> {
    if ts == [] then map[] else Collected(ts[..|ts| - 1])[ts[|ts| - 1].key := ts[|ts| - 1].value]
  }

  lemma {:induction false} CollectedHolds(ts: seq<Tuple>)
    requires forall a, b :: 0 <= a < b < |ts| ==> ts[a].key != ts[b].key
    ensures forall t :: t in ts <==> t.key in Collected(ts) && Collected(ts)[t.key] == t.value
    decreases |ts|
  {
    if ts != [] {
      var front, last := ts[..|ts| - 1], ts[|ts| - 1];
      CollectedHolds(front);
      forall t ensures t in ts <==> t.key in Collected(ts) && Collected(ts)[t.key] == t.value {
        assert t in ts <==> t in front || t == last;
        if t in front {
          var a :| 0 <= a < |front| && front[a] == t;
          assert ts[a].key != ts[|ts| - 1].key;
        }
      }
    }
  }

  /** `Items` under any writers: everything that stayed is in it, nothing that never was. */
  lemma ItemsIsAWeakSnapshot(states: seq<State>, steps: seq<Step>, t: Tuple)
    requires Run(states, steps) && states[|steps|].done
    ensures var items := Collected(states[|steps|].received);
      var found := t.key in items && items[t.key] == t.value;
      && ((forall n :: 0 <= n < |states| ==> |states[n].slots| > 0 && Present(states[n], t)) ==> found)
      && (found ==> exists n :: 0 <= n < |states| && |states[n].slots| > 0 && Present(states[n], t))
  {
    var s := states[|steps|];
    RunKeepsInv(states, steps, |steps|);
    forall a, b | 0 <= a < b < |s.received| ensures s.received[a].key != s.received[b].key {
      NoKeyTwice(s, a, b);
    }
    CollectedHolds(s.received);
    if forall n :: 0 <= n < |states| ==> |states[n].slots| > 0 && Present(states[n], t) {
      StableIsReceived(states, steps, t);
    }
    if t in s.received {
      var m := ReceivedWasPresent(states, steps, |steps|, t);
    }
  }
}
