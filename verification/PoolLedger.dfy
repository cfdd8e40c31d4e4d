/**
 The ownership ledger of a connection pool (pool.go): what is idle, what is leased to
 whom, and how often each handle has been released. Every call of the pool runs under
 its lock, so a run of the pool is a sequence of whole calls.
 */
module PoolLedger {
  import opened Wrappers

  /** What a pool slot can hold. `TypedNil` is an interface that holds a nil pointer: it is
      not equal to nil, so `Put` accepts it, but there is no connection behind it. */
  datatype Conn = Nil | TypedNil | Real(id: nat)

  /** `releases` counts, for every handle ever made, the calls of Release on it. */
  datatype Ledger<!U> = Ledger(idle: seq<Conn>, cap: nat, releases: map<nat, nat>, leased: map<nat, U>)

  function Ids(cs: seq<Conn>): set<nat> {
    set i | 0 <= i < |cs| && cs[i].Real? :: cs[i].id
  }

  /** One more release for each handle in `ids`. */
  function Bump(releases: map<nat, nat>, ids: set<nat>): map<nat, nat> {
    map h | h in releases :: releases[h] + (if h in ids then 1 else 0)
  }

  datatype Outcome = Found | Made(id: nat) | Failed

  datatype Op<U> =
    | Get(user: U, skip: nat, out: Outcome)
    | Put(user: U, conn: Conn, active: bool)
    | ReleaseAll(initialCap: nat)

  /** A handle may answer the activity test only if it is real and was never released. */
  predicate MayBeActive(releases: map<nat, nat>, c: Conn) {
    c.Real? && c.id in releases && releases[c.id] == 0
  }

  /** `skip` idle handles fail the activity test; then either the next one passes it, or the
      pool is empty and the factory is asked. A caller puts back nil or what it holds. */
  predicate Enabled<U(==)>(p: Ledger<U>, op: Op<U>) {
    match op
    case Get(u, skip, out) =>
      && skip <= |p.idle|
      && (out.Found? <==> skip < |p.idle|)
      && (out.Found? ==> MayBeActive(p.releases, p.idle[skip]))
      && (out.Made? ==> out.id !in p.releases)
    case Put(u, c, active) =>
      && (c.Real? ==> c.id in p.leased && p.leased[c.id] == u)
      && (active ==> MayBeActive(p.releases, c))
    case ReleaseAll(_) => true
  }

  /** The handle a successful `Get` hands out. */
  function Taken<U>(p: Ledger<U>, skip: nat, out: Outcome): Conn
    requires out.Found? ==> skip < |p.idle|
  {
    match out
    case Found => p.idle[skip]
    case Made(h) => Real(h)
    case Failed => Nil
  }

  function Apply<U>(p: Ledger<U>, op: Op<U>): Ledger<U>
    requires Enabled(p, op)
  {
    match op
    case Get(u, skip, out) =>
      var swept := Bump(p.releases, Ids(p.idle[..skip]));
      (match out
       case Found => p.(idle := p.idle[skip + 1..], releases := swept, leased := p.leased[p.idle[skip].id := u])
       case Made(h) => p.(idle := [], releases := swept[h := 0], leased := p.leased[h := u])
       case Failed => p.(idle := [], releases := swept))
    case Put(u, c, active) =>
      if c.Nil? then p
      else
        var once := if active then p.releases else Bump(p.releases, Ids([c]));
        var rest := if c.Real? then p.leased - {c.id} else p.leased;
        if |p.idle| < p.cap then p.(idle := p.idle + [c], releases := once, leased := rest)
        else p.(releases := Bump(once, Ids([c])), leased := rest)
    case ReleaseAll(initialCap) =>
      p.(idle := [], cap := initialCap, releases := Bump(p.releases, Ids(p.idle)))
  }

  ghost predicate NoDuplicates(cs: seq<Conn>) {
    forall i, j :: 0 <= i < j < |cs| && cs[i].Real? ==> cs[i] != cs[j]
  }

  /** A handle that was made and is neither idle nor leased. */
  ghost predicate Gone<U>(p: Ledger<U>, h: nat) {
    h in p.releases && h !in p.leased && Real(h) !in p.idle
  }

  /** Every handle made is idle once, or leased once, or gone, with the release count each allows:
      leased 0, idle at most 1, gone 1 or 2 - so nothing is lost without being released. */
  ghost predicate Owned<U>(p: Ledger<U>) {
    && |p.idle| <= p.cap
    && Nil !in p.idle
    && NoDuplicates(p.idle)
    && (forall c :: c in p.idle && c.Real? ==> c.id in p.releases && c.id !in p.leased && p.releases[c.id] <= 1)
    && (forall h :: h in p.leased ==> h in p.releases && p.releases[h] == 0)
    && (forall h :: Gone(p, h) ==> 1 <= p.releases[h] <= 2)
  }

  lemma IdsAreMembers(cs: seq<Conn>)
    ensures forall h :: h in Ids(cs) <==> Real(h) in cs
  {
    forall h | Real(h) in cs ensures h in Ids(cs) {
      var i :| 0 <= i < |cs| && cs[i] == Real(h);
    }
  }

  /** Without duplicates, a handle in the queue lies either before `n` or from `n` on. */
  lemma SplitIdle(cs: seq<Conn>, n: nat)
    requires n <= |cs| && NoDuplicates(cs)
    ensures forall c :: c in cs <==> c in cs[..n] || c in cs[n..]
    ensures forall c :: c in cs[..n] && c.Real? ==> c !in cs[n..]
    ensures NoDuplicates(cs[n..])
  {
    assert cs == cs[..n] + cs[n..];
    forall c | c in cs[..n] && c.Real? ensures c !in cs[n..] {
      var i :| 0 <= i < n && cs[..n][i] == c;
      assert forall k :: 0 <= k < |cs| - n ==> cs[n..][k] == cs[n + k] != cs[i];
    }
  }

  /** The pool after `Get` has released and dropped the first `n` idle handles. */
  function Sweep<U>(p: Ledger<U>, n: nat): Ledger<U>
    requires n <= |p.idle|
  {
    p.(idle := p.idle[n..], releases := Bump(p.releases, Ids(p.idle[..n])))
  }

  lemma SweepKeepsOwned<U>(p: Ledger<U>, n: nat)
    requires Owned(p) && n <= |p.idle|
    ensures Owned(Sweep(p, n))
  {
    IdsAreMembers(p.idle[..n]);
    SplitIdle(p.idle, n);
    var q := Sweep(p, n);
    forall h | Gone(q, h) ensures 1 <= q.releases[h] <= 2 {
      assert Real(h) !in p.idle ==> Gone(p, h);
    }
  }

  lemma LeaseHeadKeepsOwned<U>(p: Ledger<U>, u: U)
    requires Owned(p) && p.idle != [] && MayBeActive(p.releases, p.idle[0])
    ensures Owned(p.(idle := p.idle[1..], leased := p.leased[p.idle[0].id := u]))
  {
    SplitIdle(p.idle, 1);
    assert p.idle[0] in p.idle[..1];
    var q := p.(idle := p.idle[1..], leased := p.leased[p.idle[0].id := u]);
    forall h | Gone(q, h) ensures 1 <= q.releases[h] <= 2 {
      assert Gone(p, h);
    }
  }

  lemma GetKeepsOwned<U>(p: Ledger<U>, u: U, skip: nat, out: Outcome)
    requires Owned(p) && Enabled(p, Get(u, skip, out))
    ensures Owned(Apply(p, Get(u, skip, out)))
  {
    SweepKeepsOwned(p, skip);
    var r := Sweep(p, skip);
    match out {
      case Found =>
        IdsAreMembers(p.idle[..skip]);
        SplitIdle(p.idle, skip);
        assert r.idle[0] == p.idle[skip] && r.idle[0] in r.idle;
        LeaseHeadKeepsOwned(r, u);
        assert Apply(p, Get(u, skip, out)) == r.(idle := r.idle[1..], leased := r.leased[r.idle[0].id := u]);
      case Made(h) =>
        var q := Apply(p, Get(u, skip, out));
        forall g | Gone(q, g) ensures 1 <= q.releases[g] <= 2 {
          assert Gone(r, g);
        }
      case Failed =>
        assert Apply(p, Get(u, skip, out)) == r;
    }
  }

  /** A successful `Get` leases one handle that nobody had; a failed one leases none. */
  lemma GetLeases<U>(p: Ledger<U>, u: U, skip: nat, out: Outcome)
    requires Owned(p) && Enabled(p, Get(u, skip, out))
    ensures out.Failed? ==> Taken(p, skip, out).Nil? && Apply(p, Get(u, skip, out)).leased == p.leased
    ensures !out.Failed? ==> Taken(p, skip, out).Real? && Taken(p, skip, out).id !in p.leased
    ensures !out.Failed? ==> Apply(p, Get(u, skip, out)).leased == p.leased[Taken(p, skip, out).id := u]
  {
    if out.Found? {
      assert p.idle[skip] in p.idle;
    }
  }

  /** A user takes a handle and puts it back. */
  datatype Borrow<U> = Borrow(user: U, skip: nat, out: Outcome, active: bool)

  predicate MayBorrow<U(==)>(p: Ledger<U>, w: Borrow<U>) {
    && Enabled(p, Get(w.user, w.skip, w.out))
    && Enabled(Apply(p, Get(w.user, w.skip, w.out)), Put(w.user, Taken(p, w.skip, w.out), w.active))
  }

  function AfterBorrow<U(==)>(p: Ledger<U>, w: Borrow<U>): Ledger<U>
    requires MayBorrow(p, w)
  {
    Apply(Apply(p, Get(w.user, w.skip, w.out)), Put(w.user, Taken(p, w.skip, w.out), w.active))
  }

  function AfterBorrows<U(==)>(p: Ledger<U>, ws: seq<Borrow<U>>): Option<Ledger<U>> {
    if ws == [] then Some(p)
    else
      match AfterBorrows(p, ws[..|ws| - 1])
      case None => None
      case Some(q) => if MayBorrow(q, ws[|ws| - 1]) then Some(AfterBorrow(q, ws[|ws| - 1])) else None
  }

  lemma BorrowKeepsLeases<U>(p: Ledger<U>, w: Borrow<U>)
    requires Owned(p) && MayBorrow(p, w)
    ensures Owned(AfterBorrow(p, w)) && AfterBorrow(p, w).leased == p.leased
  {
    GetKeepsOwned(p, w.user, w.skip, w.out);
    GetLeases(p, w.user, w.skip, w.out);
    PutKeepsOwned(Apply(p, Get(w.user, w.skip, w.out)), w.user, Taken(p, w.skip, w.out), w.active);
  }

  /** However often handles are borrowed, and by whom, the leases are as before. */
  lemma {:induction false} BorrowsKeepLeases<U>(p: Ledger<U>, ws: seq<Borrow<U>>, q: Ledger<U>)
    requires Owned(p) && AfterBorrows(p, ws) == Some(q)
    ensures Owned(q) && q.leased == p.leased
    decreases |ws|
  {
    if ws != [] {
      var r := AfterBorrows(p, ws[..|ws| - 1]).value;
      BorrowsKeepLeases(p, ws[..|ws| - 1], r);
      BorrowKeepsLeases(r, ws[|ws| - 1]);
    }
  }

  /** A healthy handle that is put back while there is room is queued unreleased, and it is what the next
      Get returns when nobody is queued before it. */
  lemma ActivePutIsReused<U>(p: Ledger<U>, u: U, h: nat, v: U)
    requires Owned(p) && Enabled(p, Put(u, Real(h), true)) && |p.idle| < p.cap
    ensures var q := Apply(p, Put(u, Real(h), true));
      && q.idle == p.idle + [Real(h)] && h !in q.leased && h in q.releases && q.releases[h] == 0
      && (p.idle == [] ==>
           && Enabled(q, Get(v, 0, Found)) && Taken(q, 0, Found) == Real(h)
           && Apply(q, Get(v, 0, Found)).leased == p.leased[h := v])
  {
    assert [Real(h)][..0] == [];
  }

  /** A handle for which there is no room is released, and not queued. */
  lemma FullPutReleases<U>(p: Ledger<U>, u: U, h: nat, active: bool)
    requires Owned(p) && Enabled(p, Put(u, Real(h), active)) && |p.idle| == p.cap
    ensures var q := Apply(p, Put(u, Real(h), active));
      q.idle == p.idle && h in q.releases && q.releases[h] == if active then 1 else 2
  {
    IdsAreMembers([Real(h)]);
  }

  lemma PutKeepsOwned<U>(p: Ledger<U>, u: U, c: Conn, active: bool)
    requires Owned(p) && Enabled(p, Put(u, c, active))
    ensures Owned(Apply(p, Put(u, c, active)))
  {
    if !c.Nil? {
      var q := Apply(p, Put(u, c, active));
      assert Ids([c]) == if c.Real? then {c.id} else {} by {
        if c.Real? { assert [c][0].id in Ids([c]); }
      }
      forall h | Gone(q, h) ensures 1 <= q.releases[h] <= 2 {
        if c != Real(h) {
          assert Real(h) in p.idle ==> Real(h) in q.idle;
        }
      }
    }
  }

  lemma ReleaseAllKeepsOwned<U>(p: Ledger<U>, initialCap: nat)
    requires Owned(p)
    ensures Owned(Apply(p, ReleaseAll(initialCap)))
  {
    var q := Apply(p, ReleaseAll(initialCap));
    forall h | Gone(q, h) ensures 1 <= q.releases[h] <= 2 {
      if Real(h) in p.idle {
        var i :| 0 <= i < |p.idle| && p.idle[i] == Real(h);
        assert h in Ids(p.idle);
      } else {
        assert Gone(p, h);
      }
    }
  }

  lemma StepKeepsOwned<U>(p: Ledger<U>, op: Op<U>)
    requires Owned(p) && Enabled(p, op)
    ensures Owned(Apply(p, op))
  {
    match op
    case Get(u, skip, out) => GetKeepsOwned(p, u, skip, out);
    case Put(u, c, active) => PutKeepsOwned(p, u, c, active);
    case ReleaseAll(n) => ReleaseAllKeepsOwned(p, n);
  }

  /** The ledger after some operations, or None when one of them is not possible. */
  function After<U(==)>(p: Ledger<U>, ops: seq<Op<U>>): Option<Ledger<U>> {
    if ops == [] then Some(p)
    else
      match After(p, ops[..|ops| - 1])
      case None => None
      case Some(q) => if Enabled(q, ops[|ops| - 1]) then Some(Apply(q, ops[|ops| - 1])) else None
  }

  /** No handle is ever released more than twice, and a step only adds releases. */
  lemma StepAddsReleases<U>(p: Ledger<U>, op: Op<U>)
    requires Owned(p) && Enabled(p, op)
    ensures forall h :: h in p.releases ==> h in Apply(p, op).releases && p.releases[h] <= Apply(p, op).releases[h]
  {
  }

  lemma AtMostTwoReleases<U>(p: Ledger<U>, h: nat)
    requires Owned(p) && h in p.releases
    ensures p.releases[h] <= 2
  {
    assert Gone(p, h) || h in p.leased || Real(h) in p.idle;
  }

  /** Ownership over any run of the pool, from any ledger that satisfies it. */
  lemma {:induction false} RunKeepsOwned<U>(p: Ledger<U>, ops: seq<Op<U>>, q: Ledger<U>)
    requires Owned(p) && After(p, ops) == Some(q)
    ensures Owned(q)
    ensures forall h :: h in p.releases ==> h in q.releases && p.releases[h] <= q.releases[h]
    decreases |ops|
  {
    if ops != [] {
      var r := After(p, ops[..|ops| - 1]).value;
      RunKeepsOwned(p, ops[..|ops| - 1], r);
      StepKeepsOwned(r, ops[|ops| - 1]);
      StepAddsReleases(r, ops[|ops| - 1]);
    }
  }

  // ---- exactly when a handle is released a second time -------------------------------------

  /** The handles whose last Put found them inactive. */
  function LastPutInactive<U>(ops: seq<Op<U>>): set<nat>
    decreases |ops|
  {
    if ops == [] then {}
    else
      var before, last := LastPutInactive(ops[..|ops| - 1]), ops[|ops| - 1];
      if !last.Put? || !last.conn.Real? then before
      else if last.active then before - {last.conn.id}
      else before + {last.conn.id}
  }

  /** The releases of a handle, by where it is and whether its last Put found it inactive. */
  ghost predicate Counted<U>(q: Ledger<U>, inactive: set<nat>) {
    && (forall h :: h in inactive ==> h in q.releases && h !in q.leased)
    && (forall h :: Real(h) in q.idle && h in q.releases ==> q.releases[h] == if h in inactive then 1 else 0)
    && (forall h :: Gone(q, h) ==> q.releases[h] == if h in inactive then 2 else 1)
  }

  lemma SweepKeepsCounted<U>(p: Ledger<U>, n: nat, inactive: set<nat>)
    requires Owned(p) && Counted(p, inactive) && n <= |p.idle|
    ensures Counted(Sweep(p, n), inactive)
  {
    IdsAreMembers(p.idle[..n]);
    SplitIdle(p.idle, n);
    var q := Sweep(p, n);
    forall h | Gone(q, h) ensures q.releases[h] == if h in inactive then 2 else 1 {
      assert Real(h) !in p.idle ==> Gone(p, h);
    }
  }

  lemma GetKeepsCounted<U>(p: Ledger<U>, u: U, skip: nat, out: Outcome, inactive: set<nat>)
    requires Owned(p) && Counted(p, inactive) && Enabled(p, Get(u, skip, out))
    ensures Counted(Apply(p, Get(u, skip, out)), inactive)
  {
    SweepKeepsOwned(p, skip);
    SweepKeepsCounted(p, skip, inactive);
    var r, q := Sweep(p, skip), Apply(p, Get(u, skip, out));
    if out.Found? {
      IdsAreMembers(p.idle[..skip]);
      SplitIdle(p.idle, skip);
      SplitIdle(r.idle, 1);
      assert r.idle[0] == p.idle[skip] && r.idle[0] in r.idle && r.idle[0] in r.idle[..1];
      assert q == r.(idle := r.idle[1..], leased := r.leased[r.idle[0].id := u]);
    }
    forall h | Gone(q, h) ensures q.releases[h] == if h in inactive then 2 else 1 {
      assert Gone(r, h);
    }
  }

  lemma PutKeepsCounted<U>(p: Ledger<U>, u: U, c: Conn, active: bool, before: set<nat>, after: set<nat>)
    requires Owned(p) && Counted(p, before) && Enabled(p, Put(u, c, active))
    requires after == if !c.Real? then before else if active then before - {c.id} else before + {c.id}
    ensures Counted(Apply(p, Put(u, c, active)), after)
  {
    if !c.Nil? {
      var q := Apply(p, Put(u, c, active));
      assert Ids([c]) == if c.Real? then {c.id} else {} by {
        if c.Real? { assert [c][0].id in Ids([c]); }
      }
      forall h | Gone(q, h) ensures q.releases[h] == if h in after then 2 else 1 {
        if c != Real(h) {
          assert Real(h) in p.idle ==> Real(h) in q.idle;
        }
      }
    }
  }

  lemma ReleaseAllKeepsCounted<U>(p: Ledger<U>, initialCap: nat, inactive: set<nat>)
    requires Owned(p) && Counted(p, inactive)
    ensures Counted(Apply(p, ReleaseAll(initialCap)), inactive)
  {
    IdsAreMembers(p.idle);
    var q := Apply(p, ReleaseAll(initialCap));
    forall h | Gone(q, h) ensures q.releases[h] == if h in inactive then 2 else 1 {
      assert Real(h) !in p.idle ==> Gone(p, h);
    }
  }

  /** Over any run of a pool that has released nothing yet, one release waits on an idle handle, and two
      are behind a handle that is gone, exactly when its last Put found it inactive. */
  lemma {:induction false} ReleasedAgainIff<U>(p: Ledger<U>, ops: seq<Op<U>>, q: Ledger<U>)
    requires Owned(p) && (forall h :: h in p.releases ==> p.releases[h] == 0) && After(p, ops) == Some(q)
    ensures Owned(q) && Counted(q, LastPutInactive(ops))
    decreases |ops|
  {
    if ops != [] {
      var front := ops[..|ops| - 1];
      var r := After(p, front).value;
      ReleasedAgainIff(p, front, r);
      StepKeepsOwned(r, ops[|ops| - 1]);
      StepKeepsCounted(r, ops[|ops| - 1], LastPutInactive(front), LastPutInactive(ops));
    }
  }

  lemma StepKeepsCounted<U>(p: Ledger<U>, op: Op<U>, before: set<nat>, after: set<nat>)
    requires Owned(p) && Counted(p, before) && Enabled(p, op)
    requires after == if !op.Put? || !op.conn.Real? then before
                      else if op.active then before - {op.conn.id} else before + {op.conn.id}
    ensures Counted(Apply(p, op), after)
  {
    match op
    case Get(u, skip, out) => GetKeepsCounted(p, u, skip, out, before);
    case Put(u, c, active) => PutKeepsCounted(p, u, c, active, before, after);
    case ReleaseAll(n) => ReleaseAllKeepsCounted(p, n, before);
  }

  /** Both ways to a second release: put back inactive, a handle is released at once and queued if there
      is room, and released again when Get skips it, or at once when there is none. */
  lemma ReleasedTwice<U>(u: U)
    ensures var q := After(Ledger([], 1, map[], map[]),
                           [Get(u, 0, Made(0)), Put(u, Real(0), false), Get(u, 1, Failed)]);
      q.Some? && Gone(q.value, 0) && q.value.releases[0] == 2
    ensures var q := After(Ledger([], 0, map[], map[]), [Get(u, 0, Made(0)), Put(u, Real(0), false)]);
      q.Some? && Gone(q.value, 0) && q.value.releases[0] == 2
  {
    var get, put, skip := Get(u, 0, Made(0)), Put(u, Real(0), false), Get(u, 1, Failed);
    assert [get, put, skip][..2] == [get, put] && [get, put][..1] == [get] && [get][..0] == [];
    IdsAreMembers([Real(0)]);
    assert Ids([Real(0)]) == {0} && Ids([]) == {} && [Real(0)][..1] == [Real(0)];
    var roomy, full := Ledger([], 1, map[], map[]), Ledger([], 0, map[], map[]);
    assert After(roomy, [get]) == Some(Ledger([], 1, map[0 := 0], map[0 := u]));
    assert map[0 := u] - {0} == map[] && roomy.idle + [Real(0)] == [Real(0)];
    assert Bump(map[0 := 0], {0}) == map[0 := 1] && Bump(map[0 := 1], {0}) == map[0 := 2];
    assert After(roomy, [get, put]) == Some(Ledger([Real(0)], 1, map[0 := 1], map[]));
    assert After(roomy, [get, put, skip]) == Some(Ledger([], 1, map[0 := 2], map[]));
    assert After(full, [get]) == Some(Ledger([], 0, map[0 := 0], map[0 := u]));
    assert After(full, [get, put]) == Some(Ledger([], 0, map[0 := 2], map[]));
  }
}
