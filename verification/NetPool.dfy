/**
 The pool of pool.go. Its methods run under the pool's lock, so each is one atomic call. The
 closures of its configuration are the methods of `Backend`; their outcomes are the
 environment's choice, except that a released handle is never active again.
 */
module NetPools {
  import opened PoolLedger

  datatype Event = MadeOk(id: nat) | MadeFailed | Probed(conn: Conn, ok: bool) | Released(conn: Conn)

  /** Factory, IsActive and Release of a pool configuration, with a log of their calls. */
  class Backend {
    /** A reliable factory never fails. */
    const reliable: bool
    var releases: map<nat, nat>
    var next: nat
    ghost var log: seq<Event>

    ghost predicate Valid()
      reads this
    {
      forall h :: h in releases ==> h < next
    }

    constructor (reliable: bool)
      ensures Valid() && releases == map[] && log == [] && this.reliable == reliable
    {
      this.reliable := reliable;
      releases, next, log := map[], 0, [];
    }

    method Factory() returns (conn: Conn, ok: bool)
      requires Valid()
      modifies this
      ensures Valid()
      ensures ok ==> conn.Real? && conn.id !in old(releases) && releases == old(releases)[conn.id := 0]
      ensures ok ==> log == old(log) + [MadeOk(conn.id)]
      ensures !ok ==> conn == Nil && releases == old(releases) && log == old(log) + [MadeFailed]
      ensures reliable ==> ok
    {
      var fault := *;
      if fault && !reliable {
        conn, ok := Nil, false;
        log := log + [MadeFailed];
      } else {
        conn, ok := Real(next), true;
        releases, next, log := releases[next := 0], next + 1, log + [MadeOk(next)];
      }
    }

    method IsActive(conn: Conn) returns (ok: bool)
      modifies this`log
      ensures log == old(log) + [Probed(conn, ok)]
      ensures ok ==> MayBeActive(releases, conn)
    {
      ok := false;
      if conn.Real? && conn.id in releases && releases[conn.id] == 0 {
        if * {
          ok := true;
        }
      }
      log := log + [Probed(conn, ok)];
    }

    method Release(conn: Conn)
      requires Valid()
      modifies this`releases, this`log
      ensures Valid() && releases == Bump(old(releases), Ids([conn])) && log == old(log) + [Released(conn)]
    {
      if conn.Real? && conn.id in releases {
        releases := releases[conn.id := releases[conn.id] + 1];
      }
      log := log + [Released(conn)];
      assert conn.Real? ==> [conn][0].id in Ids([conn]);
    }
  }

  /** The log of handles that were probed, found inactive and released, in this order. */
  ghost function Skipped(cs: seq<Conn>): seq<Event> {
    if cs == [] then [] else Skipped(cs[..|cs| - 1]) + [Probed(cs[|cs| - 1], false), Released(cs[|cs| - 1])]
  }

  lemma SkippedOne(log: seq<Event>, cs: seq<Conn>, n: nat)
    requires n < |cs|
    ensures log + Skipped(cs[..n + 1]) == log + Skipped(cs[..n]) + [Probed(cs[n], false)] + [Released(cs[n])]
  {
    assert cs[..n + 1][..n] == cs[..n];
  }

  ghost function ReleasedAll(cs: seq<Conn>): seq<Event> {
    seq(|cs|, i requires 0 <= i < |cs| => Released(cs[i]))
  }

  lemma ReleasedOneMore(log: seq<Event>, cs: seq<Conn>, n: nat)
    requires n < |cs|
    ensures log + ReleasedAll(cs[..n + 1]) == log + ReleasedAll(cs[..n]) + [Released(cs[n])]
  {
    assert ReleasedAll(cs[..n + 1]) == ReleasedAll(cs[..n]) + [Released(cs[n])];
  }

  lemma BumpOnly(releases: map<nat, nat>, c: Conn)
    ensures c.Real? && c.id in releases ==> Bump(releases, Ids([c])) == releases[c.id := releases[c.id] + 1]
    ensures !c.Real? || c.id !in releases ==> Bump(releases, Ids([c])) == releases
  {
    IdsAreMembers([c]);
  }

  /** Releasing one more distinct handle after others have been released. */
  lemma BumpOne(releases: map<nat, nat>, cs: seq<Conn>, n: nat)
    requires n < |cs| && NoDuplicates(cs)
    ensures Bump(Bump(releases, Ids(cs[..n])), Ids([cs[n]])) == Bump(releases, Ids(cs[..n + 1]))
  {
    IdsAreMembers(cs[..n]);
    IdsAreMembers([cs[n]]);
    IdsAreMembers(cs[..n + 1]);
    assert cs[..n + 1] == cs[..n] + [cs[n]];
    SplitIdle(cs[..n + 1], n);
    assert cs[..n + 1][n..] == [cs[n]] && cs[..n + 1][..n] == cs[..n];
  }

  /** Each of these handles, and no other, has been released once more. */
  ghost predicate ReleasedOnce(before: map<nat, nat>, after: map<nat, nat>, cs: seq<Conn>) {
    forall h :: h in before ==> h in after && after[h] == before[h] + (if Real(h) in cs then 1 else 0)
  }

  /** The first `n` idle handles have been taken out and released; nothing else has changed. */
  ghost predicate Swept<U>(p: Ledger<U>, n: nat, q: Ledger<U>) {
    n <= |p.idle| && q == Sweep(p, n)
  }

  lemma SweptNone<U>(p: Ledger<U>)
    ensures Swept(p, 0, p)
  {
    assert p.idle[..0] == [] && p.idle[0..] == p.idle;
    assert Bump(p.releases, Ids([])) == p.releases;
  }

  lemma SweptOne<U>(p: Ledger<U>, n: nat, q: Ledger<U>, r: Ledger<U>)
    requires Owned(p) && Swept(p, n, q) && q.idle != []
    requires r == Ledger(q.idle[1..], q.cap, Bump(q.releases, Ids([q.idle[0]])), q.leased)
    ensures Swept(p, n + 1, r)
  {
    BumpOne(p.releases, p.idle, n);
  }

  /** How the making of a pool ends, if waiting for good is an end. */
  datatype Ending = Started | Failed | Blocked

  class NetPool<!U(==)> {
    /** The buffered Go channel `conns`: what is in it, and its capacity. */
    var conns: seq<Conn>
    var cap: nat
    const initialCap: nat
    const backend: Backend
    /** Who has taken what and not put it back; the program keeps no such record. */
    ghost var leased: map<nat, U>

    ghost function View(): Ledger<U>
      reads this, backend
    {
      Ledger(conns, cap, backend.releases, leased)
    }

    ghost predicate Valid()
      reads this, backend
    {
      backend.Valid() && Owned(View())
    }

    constructor Empty(initialCap: nat, maxCap: nat, reliable: bool)
      ensures fresh(backend) && backend.reliable == reliable && Valid() && this.initialCap == initialCap
      ensures conns == [] && cap == maxCap && leased == map[] && backend.releases == map[]
    {
      this.initialCap := initialCap;
      conns, cap, leased := [], maxCap, map[];
      backend := new Backend(reliable);
    }

    /** newNetPool: a full pool of fresh handles, or a failure after which every handle made has been
        released exactly once. With more initial handles than room the send that finds the channel full
        waits for good, before anybody else can know the pool. */
    static method NewNetPool(initialCap: nat, maxCap: nat, reliable: bool) returns (pool: NetPool<U>, end: Ending)
      ensures fresh(pool) && fresh(pool.backend) && pool.leased == map[] && (!end.Blocked? ==> pool.Valid())
      ensures reliable ==> end == if initialCap <= maxCap then Started else Blocked
      ensures end.Started? ==> |pool.conns| == initialCap <= maxCap == pool.cap
      ensures end.Started? ==>
        forall h :: h in pool.backend.releases ==> pool.backend.releases[h] == 0 && Real(h) in pool.conns
      ensures end.Failed? ==>
        pool.conns == [] && forall h :: h in pool.backend.releases ==> pool.backend.releases[h] == 1
      ensures end.Blocked? ==> |pool.conns| == maxCap < initialCap
    {
      pool := new NetPool.Empty(initialCap, maxCap, reliable);
      var i := 0;
      while i < initialCap
        invariant 0 <= i <= initialCap && |pool.conns| == i && pool.cap == maxCap && pool.leased == map[]
        invariant fresh(pool) && fresh(pool.backend) && pool.Valid() && pool.backend.reliable == reliable
        invariant forall h :: h in pool.backend.releases ==> pool.backend.releases[h] == 0 && Real(h) in pool.conns
      {
        ghost var p := pool.View();
        var c, made := pool.backend.Factory();
        if !made {
          IdsAreMembers(pool.conns);
          pool.ReleaseAll();
          return pool, Ending.Failed;
        }
        if |pool.conns| == maxCap {
          return pool, Blocked;
        }
        Filled(p, c.id);
        pool.conns := pool.conns + [c];
        i := i + 1;
      }
      end := Started;
    }

    static lemma Filled(p: Ledger<U>, h: nat)
      requires Owned(p) && |p.idle| < p.cap && h !in p.releases && p.leased == map[]
      ensures Owned(p.(idle := p.idle + [Real(h)], releases := p.releases[h := 0]))
    {
      var q := p.(idle := p.idle + [Real(h)], releases := p.releases[h := 0]);
      forall g | Gone(q, g) ensures 1 <= q.releases[g] <= 2 {
        assert Gone(p, g);
      }
    }

    /** Get: the first active handle in FIFO order, every one before it probed, found inactive and
        released; the factory is asked only when none is left. */
    method Get(ghost u: U) returns (conn: Conn, ok: bool, ghost skip: nat, ghost out: Outcome)
      requires Valid()
      modifies this, backend
      ensures Valid()
      ensures Enabled(old(View()), PoolLedger.Get(u, skip, out))
      ensures View() == Apply(old(View()), PoolLedger.Get(u, skip, out))
      ensures conn == Taken(old(View()), skip, out) && (ok <==> !out.Failed?)
      ensures backend.log == old(backend.log) + Skipped(old(conns)[..skip]) +
        (match out
         case Found => [Probed(old(conns)[skip], true)]
         case Made(h) => [MadeOk(h)]
         case Failed => [MadeFailed])
      ensures conns == (if out.Found? then old(conns)[skip + 1..] else []) && cap == old(cap)
      ensures leased == if ok then old(leased)[conn.id := u] else old(leased)
      ensures ReleasedOnce(old(backend.releases), backend.releases, old(conns)[..skip])
      ensures backend.reliable ==> ok
    {
      ghost var p := View();
      skip := 0;
      SweptNone(p);
      while conns != []
        invariant Swept(p, skip, View()) && backend.Valid()
        invariant backend.log == old(backend.log) + Skipped(p.idle[..skip])
        decreases |conns|
      {
        ghost var q := View();
        conn := conns[0];
        conns := conns[1..];
        var active := backend.IsActive(conn);
        if active {
          ok, out := true, Found;
          leased := leased[conn.id := u];
          TookFound(p, u, skip, q, View());
          return;
        }
        backend.Release(conn);
        SweptOne(p, skip, q, View());
        SkippedOne(old(backend.log), p.idle, skip);
        skip := skip + 1;
      }
      ghost var q := View();
      conn, ok := backend.Factory();
      out := if ok then Made(conn.id) else Outcome.Failed;
      if ok {
        leased := leased[conn.id := u];
      }
      TookMade(p, u, skip, q, out, View());
    }

    static lemma TookFound(p: Ledger<U>, u: U, skip: nat, q: Ledger<U>, r: Ledger<U>)
      requires Owned(p) && Swept(p, skip, q) && q.idle != [] && MayBeActive(q.releases, q.idle[0])
      requires r == Ledger(q.idle[1..], q.cap, q.releases, q.leased[q.idle[0].id := u])
      ensures Enabled(p, PoolLedger.Get(u, skip, Found)) && r == Apply(p, PoolLedger.Get(u, skip, Found)) && Owned(r)
      ensures q.idle[0] == p.idle[skip] && r.idle == p.idle[skip + 1..]
      ensures r.leased == p.leased[p.idle[skip].id := u] && ReleasedOnce(p.releases, r.releases, p.idle[..skip])
    {
      IdsAreMembers(p.idle[..skip]);
      StepKeepsOwned(p, PoolLedger.Get(u, skip, Found));
    }

    static lemma TookMade(p: Ledger<U>, u: U, skip: nat, q: Ledger<U>, out: Outcome, r: Ledger<U>)
      requires Owned(p) && Swept(p, skip, q) && q.idle == []
      requires !out.Found? && (out.Made? ==> out.id !in q.releases)
      requires r == Ledger([], q.cap, if out.Made? then q.releases[out.id := 0] else q.releases,
                           if out.Made? then q.leased[out.id := u] else q.leased)
      ensures Enabled(p, PoolLedger.Get(u, skip, out)) && r == Apply(p, PoolLedger.Get(u, skip, out)) && Owned(r)
      ensures skip == |p.idle| && ReleasedOnce(p.releases, r.releases, p.idle[..skip])
    {
      IdsAreMembers(p.idle[..skip]);
      assert p.idle[..|p.idle|] == p.idle;
      StepKeepsOwned(p, PoolLedger.Get(u, skip, out));
    }

    static lemma ReleasedEach(p: Ledger<U>, n: nat, q: Ledger<U>, initialCap: nat)
      requires Owned(p) && Swept(p, n, q) && q.idle == []
      ensures n == |p.idle| && p.idle[..n] == p.idle
      ensures Owned(q.(cap := initialCap)) && q.(cap := initialCap) == Apply(p, PoolLedger.ReleaseAll(initialCap))
      ensures ReleasedOnce(p.releases, q.releases, p.idle)
    {
      IdsAreMembers(p.idle);
      assert p.idle[..|p.idle|] == p.idle;
      StepKeepsOwned(p, PoolLedger.ReleaseAll(initialCap));
    }

    static lemma PutReleases(p: Ledger<U>, u: U, conn: Conn, active: bool)
      requires Owned(p) && Enabled(p, PoolLedger.Put(u, conn, active))
      ensures Apply(p, PoolLedger.Put(u, conn, active)).releases == if conn.Real? then p.releases[conn.id :=
          (if active then 0 else 1) + (if |p.idle| < p.cap then 0 else 1)] else p.releases
    {
      BumpOnly(p.releases, conn);
      BumpOnly(Bump(p.releases, Ids([conn])), conn);
    }

    /** Put: nil is ignored; an inactive handle is released and still queued if there is room. */
    method Put(ghost u: U, conn: Conn) returns (ghost active: bool)
      requires Valid()
      requires conn.Real? ==> conn.id in leased && leased[conn.id] == u
      modifies this, backend
      ensures Valid()
      ensures Enabled(old(View()), PoolLedger.Put(u, conn, active))
      ensures View() == Apply(old(View()), PoolLedger.Put(u, conn, active))
      ensures conn == Nil ==> View() == old(View()) && backend.log == old(backend.log)
      ensures conn != Nil ==> conns == if |old(conns)| < old(cap) then old(conns) + [conn] else old(conns)
      ensures conn != Nil ==>
        backend.log == old(backend.log) + [Probed(conn, active)] + (if active then [] else [Released(conn)])
                       + (if |old(conns)| < old(cap) then [] else [Released(conn)])
      ensures cap == old(cap) && leased == if conn.Real? then old(leased) - {conn.id} else old(leased)
      ensures backend.releases == if conn.Real? then old(backend.releases)[conn.id :=
          (if active then 0 else 1) + (if |old(conns)| < old(cap) then 0 else 1)] else old(backend.releases)
    {
      ghost var p := View();
      active := false;
      if conn == Nil {
        return;
      }
      var ok := backend.IsActive(conn);
      active := ok;
      if !ok {
        backend.Release(conn);
      }
      if |conns| < cap {
        conns := conns + [conn];
      } else {
        backend.Release(conn);
      }
      if conn.Real? {
        leased := leased - {conn.id};
      }
      PutReleases(p, u, conn, active);
      PutKeepsOwned(p, u, conn, active);
    }

    /** ReleaseAll: release every idle handle once, in order; the capacity becomes InitialCap. */
    method ReleaseAll()
      requires Valid()
      modifies this, backend
      ensures Valid() && View() == Apply(old(View()), PoolLedger.ReleaseAll(initialCap))
      ensures conns == [] && cap == initialCap && leased == old(leased)
      ensures ReleasedOnce(old(backend.releases), backend.releases, old(conns))
      ensures backend.log == old(backend.log) + ReleasedAll(old(conns))
    {
      ghost var p := View();
      ghost var n := 0;
      SweptNone(p);
      while conns != []
        invariant Swept(p, n, View()) && backend.Valid()
        invariant backend.log == old(backend.log) + ReleasedAll(p.idle[..n])
        decreases |conns|
      {
        ghost var q := View();
        var c := conns[0];
        conns := conns[1..];
        backend.Release(c);
        SweptOne(p, n, q, View());
        ReleasedOneMore(old(backend.log), p.idle, n);
        n := n + 1;
      }
      ReleasedEach(p, n, View(), initialCap);
      cap := initialCap;
    }
  }
}
