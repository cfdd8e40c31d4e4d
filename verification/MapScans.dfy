/**
 `Count` (map.go:94-103) and `Keys` (map.go:243-271) while other goroutines write the map. Reading
 one shard under its lock is one step, and so is each send, receive and close.
 */
module MapScans {
  import opened Wrappers
  import opened Sums
  import opened Fnv
  import opened ConcurrentMaps

  /** A stored value; only its identity matters here. */
  type Value = int

  // ---- Count -----------------------------------------------------------------------------

  /** The number of entries in some shards; every key lives in one shard only. */
  function Size(shards: seq<map<Key, Value>>): nat {
    Total((m: map<Key, Value>) => |m|, shards)
  }

  /** `Count` has read the shards below `next`. */
  datatype Counting = Counting(shards: seq<map<Key, Value>>, next: nat, count: nat)

  /** A writer inserts or overwrites, or `Count` reads its next shard. */
  datatype CountStep = Insert(i: nat, key: Key, value: Value) | ReadShard

  function DoCount(s: Counting, st: CountStep): Option<Counting> {
    match st
    case Insert(i, k, v) => if i < |s.shards| then Some(s.(shards := s.shards[i := s.shards[i][k := v]])) else None
    case ReadShard =>
      if s.next < |s.shards| then Some(s.(next := s.next + 1, count := s.count + |s.shards[s.next]|)) else None
  }

  ghost predicate CountStepAt(states: seq<Counting>, steps: seq<CountStep>, n: nat)
    requires n < |steps| && n + 1 < |states|
  {
    DoCount(states[n], steps[n]) == Some(states[n + 1])
  }

  ghost predicate CountRun(states: seq<Counting>, steps: seq<CountStep>) {
    && |states| == |steps| + 1
    && states[0].next == 0 && states[0].count == 0
    && forall n :: 0 <= n < |steps| ==> CountStepAt(states, steps, n)
  }

  /** No shard has fewer entries in `b` than in `a`. */
  ghost predicate Grown(a: seq<map<Key, Value>>, b: seq<map<Key, Value>>) {
    |a| == |b| && forall i :: 0 <= i < |a| ==> |a[i]| <= |b[i]|
  }

  lemma {:induction false} GrownSize(a: seq<map<Key, Value>>, b: seq<map<Key, Value>>)
    requires Grown(a, b)
    ensures Size(a) <= Size(b)
    decreases |a|
  {
    if a != [] {
      GrownSize(a[..|a| - 1], b[..|b| - 1]);
    }
  }

  lemma InsertGrows(m: map<Key, Value>, k: Key, v: Value)
    ensures |m| <= |m[k := v]|
  {
    assert m[k := v].Keys == m.Keys + {k};
    assert |m| == |m.Keys| && |m[k := v]| == |m[k := v].Keys|;
    if k !in m {
      assert |m.Keys + {k}| == |m.Keys| + 1;
    } else {
      assert m.Keys + {k} == m.Keys;
    }
  }

  ghost predicate Between(start: seq<map<Key, Value>>, s: Counting) {
    && Grown(start, s.shards) && s.next <= |start|
    && Size(start[..s.next]) <= s.count <= Size(s.shards[..s.next])
  }

  lemma CountStepKeepsBetween(start: seq<map<Key, Value>>, s: Counting, st: CountStep, t: Counting)
    requires Between(start, s) && DoCount(s, st) == Some(t)
    ensures Between(start, t)
  {
    match st {
      case Insert(i, k, v) =>
        InsertGrows(s.shards[i], k, v);
        GrownSize(s.shards[..s.next], t.shards[..t.next]);
      case ReadShard =>
        assert start[..t.next][..s.next] == start[..s.next];
        assert s.shards[..t.next][..s.next] == s.shards[..s.next];
    }
  }

  lemma {:induction false} CountRunStaysBetween(states: seq<Counting>, steps: seq<CountStep>, n: nat)
    requires CountRun(states, steps) && n < |states|
    ensures Between(states[0].shards, states[n])
  {
    if n > 0 {
      CountRunStaysBetween(states, steps, n - 1);
      assert CountStepAt(states, steps, n - 1);
      CountStepKeepsBetween(states[0].shards, states[n - 1], steps[n - 1], states[n]);
    }
  }

  /** With writers that only insert, `Count` lies between the sizes at its start and at its end. */
  lemma CountIsBetweenSizes(states: seq<Counting>, steps: seq<CountStep>)
    requires CountRun(states, steps) && states[|steps|].next == |states[0].shards|
    ensures Size(states[0].shards) <= states[|steps|].count <= Size(states[|steps|].shards)
  {
    CountRunStaysBetween(states, steps, |steps|);
    var s := states[|steps|];
    assert states[0].shards[..s.next] == states[0].shards && s.shards[..s.next] == s.shards;
  }

  // ---- Keys ------------------------------------------------------------------------------

  datatype Phase = Waiting | Sending | Left

  /** A shard and the goroutine that sends its keys; `snap` is what it held when it was locked. */
  datatype Slot = Slot(items: map<Key, Value>, phase: Phase, snap: set<Key>, unsent: set<Key>)

  /** `chan` has the capacity that `Count` returned, which can be too small by now, or zero. */
  datatype State = State(slots: seq<Slot>, cap: nat, chan: seq<Key>, closed: bool, keys: seq<Key>, done: bool)

  /** `HandOver` is a send to a collector that is already waiting at an empty channel. */
  datatype Step =
    | Put(i: nat, key: Key, value: Value)
    | Drop(i: nat, key: Key)
    | Lock(i: nat)
    | Send(i: nat, key: Key)
    | HandOver(i: nat, key: Key)
    | Leave(i: nat)
    | Close
    | Receive
    | End

  predicate AllLeft(slots: seq<Slot>) {
    forall i :: 0 <= i < |slots| ==> slots[i].phase.Left?
  }

  predicate Write(st: Step) {
    st.Put? || st.Drop?
  }

  /** A step on one shard, seen from the shard. */
  function DoSlot(s: Slot, st: Step): Option<Slot> {
    if st.Put? then (if s.phase.Sending? then None else Some(s.(items := s.items[st.key := st.value])))
    else if st.Drop? then (if s.phase.Sending? then None else Some(s.(items := s.items - {st.key})))
    else if st.Lock? then
      (if s.phase.Waiting? then Some(s.(phase := Sending, snap := s.items.Keys, unsent := s.items.Keys)) else None)
    else if st.Send? || st.HandOver? then
      (if s.phase.Sending? && st.key in s.unsent then Some(s.(unsent := s.unsent - {st.key})) else None)
    else if st.Leave? then (if s.phase.Sending? && s.unsent == {} then Some(s.(phase := Left)) else None)
    else None
  }

  predicate Local(st: Step) {
    !st.Close? && !st.Receive? && !st.End?
  }

  function Do(s: State, st: Step): Option<State> {
    if Local(st) then
      if st.i >= |s.slots| then None
      else if Write(st) && ShardOf(st.key, |s.slots|) != st.i then None
      else if st.Send? && |s.chan| >= s.cap then None
      else if st.HandOver? && (s.chan != [] || s.done) then None
      else
        match DoSlot(s.slots[st.i], st)
        case None => None
        case Some(slot) =>
          Some(s.(slots := s.slots[st.i := slot],
                  chan := if st.Send? then s.chan + [st.key] else s.chan,
                  keys := if st.HandOver? then s.keys + [st.key] else s.keys))
    else if st.Close? then
      if !s.closed && AllLeft(s.slots) then Some(s.(closed := true)) else None
    else if st.Receive? then
      if s.chan != [] && !s.done then Some(s.(chan := s.chan[1..], keys := s.keys + [s.chan[0]])) else None
    else if s.closed && s.chan == [] && !s.done then Some(s.(done := true))
    else None
  }

  ghost predicate Init(s: State) {
    && |s.slots| > 0
    && (forall i :: 0 <= i < |s.slots| ==>
         && s.slots[i].phase.Waiting? && s.slots[i].snap == {} && s.slots[i].unsent == {}
         && forall k :: k in s.slots[i].items ==> ShardOf(k, |s.slots|) == i)
    && s.chan == [] && !s.closed && s.keys == [] && !s.done
  }

  ghost predicate Distinct(ks: seq<Key>) {
    forall a, b :: 0 <= a < b < |ks| ==> ks[a] != ks[b]
  }

  ghost predicate SlotInv(s: Slot, i: nat, n: nat)
    requires n > 0
  {
    && (forall k :: k in s.items || k in s.snap ==> ShardOf(k, n) == i)
    && s.unsent <= s.snap
    && (s.phase.Waiting? ==> s.snap == {})
    && (s.phase.Left? ==> s.unsent == {})
  }

  /** The keys received and those in the channel are, without repetition, the keys sent so far. */
  ghost predicate Inv(s: State) {
    && |s.slots| > 0
    && (forall i :: 0 <= i < |s.slots| ==> SlotInv(s.slots[i], i, |s.slots|))
    && Distinct(s.keys + s.chan)
    && (forall k :: k in s.keys + s.chan <==> SentBy(s, ShardOf(k, |s.slots|), k))
    && (s.closed ==> AllLeft(s.slots))
    && (s.done ==> s.closed && s.chan == [])
  }

  ghost predicate SentBy(s: State, i: nat, k: Key) {
    i < |s.slots| && k in s.slots[i].snap && k !in s.slots[i].unsent
  }

  lemma SlotStepKeepsInv(s: Slot, st: Step, t: Slot, i: nat, n: nat)
    requires n > 0 && i < n && SlotInv(s, i, n) && DoSlot(s, st) == Some(t)
    requires Write(st) ==> ShardOf(st.key, n) == i
    ensures SlotInv(t, i, n)
    ensures forall k :: k in t.snap && k !in t.unsent <==>
      (k in s.snap && k !in s.unsent) || ((st.Send? || st.HandOver?) && k == st.key)
    ensures st.Send? || st.HandOver? ==> st.key in s.snap && st.key in s.unsent
    ensures s.phase.Left? ==> t.phase.Left?
  {
  }

  lemma LocalStep(s: State, st: Step, t: State)
    requires Local(st) && Do(s, st) == Some(t)
    ensures st.i < |s.slots| && |t.slots| == |s.slots| && t.slots == s.slots[st.i := t.slots[st.i]]
    ensures DoSlot(s.slots[st.i], st) == Some(t.slots[st.i])
    ensures t == s.(slots := t.slots, chan := t.chan, keys := t.keys)
    ensures t.keys + t.chan == s.keys + s.chan + (if st.Send? || st.HandOver? then [st.key] else [])
    ensures Write(st) ==> ShardOf(st.key, |s.slots|) == st.i
    ensures s.done ==> t.chan == s.chan || st.Send?
  {
  }

  lemma LocalStepKeepsInv(s: State, st: Step, t: State)
    requires Inv(s) && Local(st) && Do(s, st) == Some(t)
    ensures Inv(t)
  {
    LocalStep(s, st, t);
    SlotStepKeepsInv(s.slots[st.i], st, t.slots[st.i], st.i, |s.slots|);
    var sent := if st.Send? || st.HandOver? then [st.key] else [];
    assert forall i, k :: SentBy(t, i, k) <==> SentBy(s, i, k) || (i == st.i && k in sent);
    if sent != [] {
      assert ShardOf(st.key, |s.slots|) == st.i;
      assert st.key !in s.keys + s.chan;
    }
    assert s.closed ==> s.slots[st.i].phase.Left?;
  }

  lemma StepKeepsInv(s: State, st: Step, t: State)
    requires Inv(s) && Do(s, st) == Some(t)
    ensures Inv(t)
  {
    if Local(st) {
      LocalStepKeepsInv(s, st, t);
    } else {
      assert t.keys + t.chan == s.keys + s.chan;
      assert forall i, k :: SentBy(t, i, k) <==> SentBy(s, i, k);
    }
  }

  ghost predicate StepAt(states: seq<State>, steps: seq<Step>, n: nat)
    requires n < |steps| && n + 1 < |states|
  {
    Do(states[n], steps[n]) == Some(states[n + 1])
  }

  ghost predicate Run(states: seq<State>, steps: seq<Step>) {
    && |states| == |steps| + 1
    && Init(states[0])
    && forall n :: 0 <= n < |steps| ==> StepAt(states, steps, n)
  }

  lemma {:induction false} RunKeepsInv(states: seq<State>, steps: seq<Step>, n: nat)
    requires Run(states, steps) && n < |states|
    ensures Inv(states[n]) && |states[n].slots| == |states[0].slots|
  {
    if n > 0 {
      RunKeepsInv(states, steps, n - 1);
      assert StepAt(states, steps, n - 1);
      StepKeepsInv(states[n - 1], steps[n - 1], states[n]);
      assert |states[n].slots| == |states[n - 1].slots|;
    }
  }

  // ---- the collector finishes ------------------------------------------------------------

  function Work(s: Slot): nat {
    2 * |s.unsent| + (if s.phase.Left? then 0 else 1)
  }

  function TotalWork(slots: seq<Slot>): nat {
    Total(Work, slots)
  }

  function Waits(s: Slot): nat {
    if s.phase.Waiting? then 1 else 0
  }

  function WaitingShards(slots: seq<Slot>): nat {
    Total(Waits, slots)
  }

  function Remaining(s: State): nat {
    TotalWork(s.slots) + |s.chan| + (if s.closed then 0 else 1) + (if s.done then 0 else 1)
  }

  /** Every step of the call makes the measure smaller; writes leave it alone. */
  lemma MeasureDecreases(s: State, st: Step, t: State)
    requires Inv(s) && Do(s, st) == Some(t)
    ensures Write(st) ==> WaitingShards(t.slots) == WaitingShards(s.slots) && Remaining(t) == Remaining(s)
    ensures !Write(st) ==>
      || WaitingShards(t.slots) < WaitingShards(s.slots)
      || (WaitingShards(t.slots) == WaitingShards(s.slots) && Remaining(t) < Remaining(s))
  {
    if Local(st) {
      LocalStep(s, st, t);
      TotalAfterUpdate(Work, s.slots, st.i, t.slots[st.i]);
      TotalAfterUpdate(Waits, s.slots, st.i, t.slots[st.i]);
      SlotWorkDecreases(s.slots[st.i], st, t.slots[st.i]);
    }
  }

  lemma SlotWorkDecreases(s: Slot, st: Step, t: Slot)
    requires DoSlot(s, st) == Some(t)
    ensures Write(st) ==> Work(t) == Work(s)
    ensures st.Lock? <==> s.phase.Waiting? && !t.phase.Waiting?
    ensures !s.phase.Waiting? ==> !t.phase.Waiting?
    ensures !Write(st) && !st.Lock? ==> Work(t) < Work(s)
    ensures st.Send? || st.HandOver? ==> Work(t) + 2 <= Work(s)
  {
    if st.Send? || st.HandOver? {
      assert s.unsent == (s.unsent - {st.key}) + {st.key};
    }
  }

  /** The call can always go on, whatever capacity `Count` had suggested. */
  lemma NeverStuck(s: State) returns (st: Step)
    requires Inv(s) && !s.done
    ensures !Write(st) && Do(s, st).Some?
  {
    if s.chan != [] {
      st := Receive;
    } else if i :| 0 <= i < |s.slots| && s.slots[i].phase.Waiting? {
      st := Lock(i);
    } else if i :| 0 <= i < |s.slots| && s.slots[i].phase.Sending? {
      if k :| k in s.slots[i].unsent {
        st := HandOver(i, k);
      } else {
        st := Leave(i);
      }
    } else if s.closed {
      st := End;
    } else {
      st := Close;
    }
  }

  // ---- what it returns -------------------------------------------------------------------

  lemma StepKeepsSnap(s: State, st: Step, t: State, i: nat)
    requires Do(s, st) == Some(t) && i < |t.slots| && !t.slots[i].phase.Waiting?
    ensures i < |s.slots|
    ensures t.slots[i].snap == if s.slots[i].phase.Waiting? then s.slots[i].items.Keys else s.slots[i].snap
  {
    if Local(st) {
      LocalStep(s, st, t);
    }
  }

  lemma {:induction false} SnapIsAnInstant(states: seq<State>, steps: seq<Step>, n: nat, i: nat) returns (m: nat)
    requires Run(states, steps) && n < |states| && i < |states[n].slots| && !states[n].slots[i].phase.Waiting?
    ensures m <= n && i < |states[m].slots| && states[n].slots[i].snap == states[m].slots[i].items.Keys
  {
    m := 0;
    if n > 0 {
      RunKeepsSnap(states, steps, n - 1, i);
      if states[n - 1].slots[i].phase.Waiting? {
        m := n - 1;
      } else {
        m := SnapIsAnInstant(states, steps, n - 1, i);
      }
    }
  }

  lemma RunKeepsSnap(states: seq<State>, steps: seq<Step>, n: nat, i: nat)
    requires Run(states, steps) && n < |steps| && i < |states[n + 1].slots| && !states[n + 1].slots[i].phase.Waiting?
    ensures i < |states[n].slots|
    ensures states[n + 1].slots[i].snap ==
      if states[n].slots[i].phase.Waiting? then states[n].slots[i].items.Keys else states[n].slots[i].snap
  {
    assert StepAt(states, steps, n);
    StepKeepsSnap(states[n], steps[n], states[n + 1], i);
  }

  ghost predicate HasKey(s: State, k: Key) {
    |s.slots| > 0 && k in s.slots[ShardOf(k, |s.slots|)].items
  }

  /** When `Keys` returns: no key twice, every key that was there throughout, none that never was. */
  lemma KeysIsAWeakSnapshot(states: seq<State>, steps: seq<Step>, k: Key)
    requires Run(states, steps) && states[|steps|].done
    ensures Distinct(states[|steps|].keys)
    ensures (forall n :: 0 <= n < |states| ==> HasKey(states[n], k)) ==> k in states[|steps|].keys
    ensures k in states[|steps|].keys ==> exists n :: 0 <= n < |states| && HasKey(states[n], k)
  {
    var s := states[|steps|];
    RunKeepsInv(states, steps, |steps|);
    assert s.keys + s.chan == s.keys;
    var i := ShardOf(k, |s.slots|);
    assert s.slots[i].phase.Left? && SlotInv(s.slots[i], i, |s.slots|);
    var m := SnapIsAnInstant(states, steps, |steps|, i);
    RunKeepsInv(states, steps, m);
    assert k in s.keys <==> SentBy(s, i, k);
    assert k in s.slots[i].snap <==> HasKey(states[m], k);
  }
}
