/**
 The bindings that a run of requests leaves. `initMessages` only ever adds bindings (message.go:395), so
 a changed RouteKey leaves the old binding, and a consumer update leaves the new one to the next
 initMessages (message.go:252-265). A binding is there exactly when some initMessages made it and
 nothing has since deleted, or deleted and declared again, its queue or its exchange.
 */
module Bindings {
  import opened Config
  import opened Topology
  import opened Registries
  import opened Mirrors

  function BindingOf(prefix: string, h: Header, c: Consumer): Binding {
    Binding(QueueName(prefix, h, c), Named(prefix, h.name), c.routeKey)
  }

  ghost predicate BindingAmong(prefix: string, h: Header, cs: seq<Consumer>, x: Binding) {
    exists c :: c in cs && x == BindingOf(prefix, h, c)
  }

  /** The binding of a consumer of the registry, by its RouteKey. */
  ghost predicate Wanted(prefix: string, ms: seq<Message>, x: Binding) {
    exists m :: m in ms && BindingAmong(prefix, m.header, m.consumers, x)
  }

  // ---- what one reconciliation does to the bindings ----------------------------------------

  /** The broker has the binding's exchange, with other parameters than the message's. */
  predicate ExchangeClash(b: Broker, prefix: string, h: Header, x: Binding) {
    x.exchange == Named(prefix, h.name) && x.exchange in b.exchanges && b.exchanges[x.exchange] != ExchangeOf(h)
  }

  ghost predicate QueueClash(b: Broker, prefix: string, h: Header, cs: seq<Consumer>, x: Binding) {
    x.queue in ConsumerQueues(prefix, h, cs) && x.queue in b.queues && b.queues[x.queue] != h.durable
  }

  ghost predicate Clash(b: Broker, prefix: string, m: Message, x: Binding) {
    ExchangeClash(b, prefix, m.header, x) || QueueClash(b, prefix, m.header, m.consumers, x)
  }

  lemma {:induction false} ReconcileConsumersQueues(b: Broker, prefix: string, h: Header, cs: seq<Consumer>, q: string)
    ensures var b' := ReconcileConsumers(b, prefix, h, cs);
      if q in ConsumerQueues(prefix, h, cs) then q in b'.queues && b'.queues[q] == h.durable
      else (q in b'.queues <==> q in b.queues) && (q in b.queues ==> b'.queues[q] == b.queues[q])
    decreases |cs|
  {
    if cs != [] {
      ReconcileConsumersQueues(b, prefix, h, cs[..|cs| - 1], q);
      QueuesOfOneMore(prefix, h, cs);
    }
  }

  lemma QueuesOfOneMore(prefix: string, h: Header, cs: seq<Consumer>)
    requires cs != []
    ensures ConsumerQueues(prefix, h, cs) == ConsumerQueues(prefix, h, cs[..|cs| - 1])
        + {QueueName(prefix, h, cs[|cs| - 1])}
    ensures forall c :: c in cs <==> c in cs[..|cs| - 1] || c == cs[|cs| - 1]
  {
    assert forall c :: c in cs <==> c in cs[..|cs| - 1] || c == cs[|cs| - 1];
  }

  lemma {:induction false} ReconcileConsumersBindings(b: Broker, prefix: string, h: Header, cs: seq<Consumer>,
                                                      x: Binding)
    ensures x in ReconcileConsumers(b, prefix, h, cs).bindings <==>
      (x in b.bindings && !QueueClash(b, prefix, h, cs, x)) || BindingAmong(prefix, h, cs, x)
    decreases |cs|
  {
    if cs != [] {
      var front, last := cs[..|cs| - 1], cs[|cs| - 1];
      ReconcileConsumersBindings(b, prefix, h, front, x);
      ReconcileConsumersQueues(b, prefix, h, front, x.queue);
      QueuesOfOneMore(prefix, h, cs);
      ReconcileConsumerBinding(ReconcileConsumers(b, prefix, h, front), prefix, h, last, x);
      AmongOneMore(prefix, h, cs, x);
      AmongHasQueue(prefix, h, front, x);
    }
  }

  lemma AmongOneMore(prefix: string, h: Header, cs: seq<Consumer>, x: Binding)
    requires cs != []
    ensures BindingAmong(prefix, h, cs, x) <==>
      BindingAmong(prefix, h, cs[..|cs| - 1], x) || x == BindingOf(prefix, h, cs[|cs| - 1])
  {
    QueuesOfOneMore(prefix, h, cs);
  }

  lemma AmongHasQueue(prefix: string, h: Header, cs: seq<Consumer>, x: Binding)
    ensures BindingAmong(prefix, h, cs, x) ==>
      x.queue in ConsumerQueues(prefix, h, cs) && x.exchange == Named(prefix, h.name)
  {
  }

  lemma ReconcileConsumerBinding(b: Broker, prefix: string, h: Header, c: Consumer, x: Binding)
    ensures var q := QueueName(prefix, h, c);
      x in ReconcileConsumer(b, prefix, h, c).bindings <==>
        (x in b.bindings && !(x.queue == q && q in b.queues && b.queues[q] != h.durable))
            || x == BindingOf(prefix, h, c)
  {
  }

  lemma ReconcileMessageBindings(b: Broker, prefix: string, m: Message, x: Binding)
    ensures x in ReconcileMessage(b, prefix, m).bindings <==>
      (x in b.bindings && !Clash(b, prefix, m, x)) || BindingAmong(prefix, m.header, m.consumers, x)
  {
    var b1 := EnsureExchange(b, Named(prefix, m.header.name), ExchangeOf(m.header));
    ReconcileConsumersBindings(b1, prefix, m.header, m.consumers, x);
  }

  /** What reconciling makes of one exchange and one queue that the messages do not name. */
  lemma {:induction false} ReconcileLeaves(b: Broker, prefix: string, ms: seq<Message>, name: string)
    ensures var b' := Reconcile(b, prefix, ms);
      && (name !in ExchangeNames(prefix, ms) ==>
           (name in b'.exchanges <==> name in b.exchanges)
               && (name in b.exchanges ==> b'.exchanges[name] == b.exchanges[name]))
      && (name !in QueueNames(prefix, ms) ==>
           (name in b'.queues <==> name in b.queues) && (name in b.queues ==> b'.queues[name] == b.queues[name]))
    decreases |ms|
  {
    if ms != [] {
      var front, last := ms[..|ms| - 1], ms[|ms| - 1];
      ReconcileLeaves(b, prefix, front, name);
      NamesOfOneMore(prefix, ms);
      var b1 := EnsureExchange(Reconcile(b, prefix, front), Named(prefix, last.header.name), ExchangeOf(last.header));
      ReconcileConsumersEntities(b1, prefix, last.header, last.consumers);
      ReconcileConsumersQueues(b1, prefix, last.header, last.consumers, name);
    }
  }

  ghost predicate Clashes(b: Broker, prefix: string, ms: seq<Message>, x: Binding) {
    exists m :: m in ms && Clash(b, prefix, m, x)
  }

  /** A reconciliation drops exactly the bindings of what it has to declare again, and adds the wanted. */
  lemma {:induction false} ReconcileBindings(b: Broker, prefix: string, ms: seq<Message>, x: Binding)
    requires Consistent(ms)
    ensures x in Reconcile(b, prefix, ms).bindings <==>
      (x in b.bindings && !Clashes(b, prefix, ms, x)) || Wanted(prefix, ms, x)
    decreases |ms|
  {
    if ms != [] {
      var front, last := ms[..|ms| - 1], ms[|ms| - 1];
      assert forall m :: m in ms <==> m in front || m == last;
      var b1 := Reconcile(b, prefix, front);
      ReconcileBindings(b, prefix, front, x);
      ReconcileMessageBindings(b1, prefix, last, x);
      ClashAfterFront(b, prefix, front, last, x);
    }
  }

  /** The last message clashes with what the others have made only where nobody else named it. */
  lemma {:induction false} ClashAfterFront(b: Broker, prefix: string, front: seq<Message>, last: Message, x: Binding)
    requires Consistent(front) && (forall m :: m in front ==> Agree(m, last))
    ensures var b1 := Reconcile(b, prefix, front);
      && (Clash(b1, prefix, last, x) ==> Clash(b, prefix, last, x) && !Wanted(prefix, front, x))
      && (Clash(b, prefix, last, x) ==> Clash(b1, prefix, last, x) || Clashes(b, prefix, front, x))
  {
    var b1 := Reconcile(b, prefix, front);
    ReconcileConverges(b, prefix, front);
    ReconcileLeaves(b, prefix, front, x.exchange);
    ReconcileLeaves(b, prefix, front, x.queue);
    if x.exchange == Named(prefix, last.header.name) && x.exchange in ExchangeNames(prefix, front) {
      SharedExchangeAgrees(b, prefix, front, last, x);
    }
    if x.queue in ConsumerQueues(prefix, last.header, last.consumers) && x.queue in QueueNames(prefix, front) {
      SharedQueueAgrees(b, prefix, front, last, x);
    }
    if Wanted(prefix, front, x) {
      var m :| m in front && BindingAmong(prefix, m.header, m.consumers, x);
      AmongHasQueue(prefix, m.header, m.consumers, x);
      assert x.exchange in ExchangeNames(prefix, front) && x.queue in QueueNames(prefix, front);
    }
  }

  lemma {:induction false} SharedExchangeAgrees(b: Broker, prefix: string, front: seq<Message>, last: Message,
                                                x: Binding)
    requires Consistent(front) && (forall m :: m in front ==> Agree(m, last))
    requires x.exchange == Named(prefix, last.header.name) && x.exchange in ExchangeNames(prefix, front)
    ensures !ExchangeClash(Reconcile(b, prefix, front), prefix, last.header, x)
    ensures ExchangeClash(b, prefix, last.header, x) ==> Clashes(b, prefix, front, x)
  {
    ReconcileConverges(b, prefix, front);
    var m :| m in front && x.exchange == Named(prefix, m.header.name);
    NamedInjective(prefix, m.header.name, last.header.name);
    assert HasMessage(Reconcile(b, prefix, front), prefix, m) && Agree(m, last);
    assert ExchangeClash(b, prefix, last.header, x) ==> Clash(b, prefix, m, x);
  }

  lemma {:induction false} SharedQueueAgrees(b: Broker, prefix: string, front: seq<Message>, last: Message, x: Binding)
    requires Consistent(front) && (forall m :: m in front ==> Agree(m, last))
    requires x.queue in ConsumerQueues(prefix, last.header, last.consumers) && x.queue in QueueNames(prefix, front)
    ensures !QueueClash(Reconcile(b, prefix, front), prefix, last.header, last.consumers, x)
    ensures QueueClash(b, prefix, last.header, last.consumers, x) ==> Clashes(b, prefix, front, x)
  {
    var b1 := Reconcile(b, prefix, front);
    ReconcileConverges(b, prefix, front);
    var m, d :| m in front && d in m.consumers && x.queue == QueueName(prefix, m.header, d);
    var c :| c in last.consumers && x.queue == QueueName(prefix, last.header, c);
    NamedInjective(prefix, ConsumerKey(m.header.name, d.id), ConsumerKey(last.header.name, c.id));
    assert HasMessage(b1, prefix, m) && HasConsumer(b1, prefix, m.header, d) && Agree(m, last);
    if QueueClash(b, prefix, last.header, last.consumers, x) {
      assert QueueClash(b, prefix, m.header, m.consumers, x);
      assert Clash(b, prefix, m, x);
    }
  }

  // ---- one request -------------------------------------------------------------------------

  /** The request deletes, or deletes and declares again, the queue or the exchange of the binding. */
  ghost predicate Drops(prefix: string, ms: seq<Message>, r: Request, x: Binding)
    requires Guard(ms, r) == ""
  {
    var i := Lookup(ms, r.name);
    match r
    case MessageDelete(name) =>
      x.exchange == Named(prefix, name) || x.queue in ConsumerQueues(prefix, ms[i].header, ms[i].consumers)
    case MessageUpdate(name, _, _, _, _, _) =>
      || (x.exchange == Named(prefix, name) && ExchangeOf(HeaderOf(r)) != ExchangeOf(ms[i].header))
      || (x.queue in ConsumerQueues(prefix, ms[i].header, ms[i].consumers)
          && HeaderOf(r).durable != ms[i].header.durable)
    case ConsumerDelete(name, id) => x.queue == Named(prefix, ConsumerKey(name, id))
    case _ => false
  }

  /** A message whose header is the registry's clashes with nothing at a mirroring broker. */
  lemma NoClash(b: Broker, prefix: string, ms: seq<Message>, after: seq<Message>, m: Message, x: Binding)
    requires RegistryOk(ms) && RegistryOk(after) && Mirror(b, prefix, ms) && m in after
    requires forall n :: n in ms && n.header.name == m.header.name ==> n.header == m.header
    ensures !Clash(b, prefix, m, x)
  {
    if x.exchange == Named(prefix, m.header.name) && x.exchange in b.exchanges {
      var n :| n in ms && x.exchange == Named(prefix, n.header.name);
      NamedInjective(prefix, n.header.name, m.header.name);
      assert HasExchange(b, prefix, n.header);
    }
    if x.queue in ConsumerQueues(prefix, m.header, m.consumers) && x.queue in b.queues {
      var c :| c in m.consumers && x.queue == QueueName(prefix, m.header, c);
      var n, d :| n in ms && d in n.consumers && x.queue == QueueName(prefix, n.header, d);
      SameNameOfKey(prefix, ms, n, d, after, m, c);
      assert HasQueue(b, prefix, n.header, d);
    }
  }

  lemma SameNameOfKey(prefix: string, ms: seq<Message>, n: Message, d: Consumer, after: seq<Message>, m: Message,
                      c: Consumer)
    requires RegistryOk(ms) && RegistryOk(after) && n in ms && d in n.consumers && m in after && c in m.consumers
    requires QueueName(prefix, n.header, d) == QueueName(prefix, m.header, c)
    ensures n.header.name == m.header.name
  {
    var i, k := IdOf(ms, n, d);
    var j, l := IdOf(after, m, c);
    NamedInjective(prefix, ConsumerKey(n.header.name, d.id), ConsumerKey(m.header.name, c.id));
    KeyInjectiveOnEqualLengthIds(n.header.name, d.id, m.header.name, c.id);
  }

  /** The bindings after a request that is carried out. */
  lemma HandleBindings(w: World, prefix: string, r: Request, x: Binding)
    requires WorldOk(w, prefix) && FreshId(w.messages, r) && Guard(w.messages, r) == ""
    ensures x in Handle(w, prefix, r).broker.bindings <==>
      || (x in w.broker.bindings && !Drops(prefix, w.messages, r, x))
      || (!r.ConsumerUpdate? && Wanted(prefix, Edit(w.messages, r), x))
  {
    HandleKeepsWorldOk(w, prefix, r);
    EditKeepsRegistryOk(w.messages, r);
    RegistryOkIsConsistent(Edit(w.messages, r));
    match r {
      case MessageUpdate(_, _, _, _, _, _) => UpdatedMessageBindings(w, prefix, r, x);
      case MessageDelete(_) => DeletedMessageBindings(w, prefix, r, x);
      case ConsumerDelete(_, _) => DeletedConsumerBindings(w, prefix, r, x);
      case ConsumerUpdate(_, _, _, _, _) =>
      case _ => AddedBindings(w, prefix, r, x);
    }
  }

  lemma {:induction false} AddedBindings(w: World, prefix: string, r: Request, x: Binding)
    requires WorldOk(w, prefix) && (r.MessageAdd? || r.ConsumerAdd?) && Guard(w.messages, r) == ""
    requires RegistryOk(Edit(w.messages, r)) && Consistent(Edit(w.messages, r))
    ensures x in Reconcile(w.broker, prefix, Edit(w.messages, r)).bindings <==>
      x in w.broker.bindings || Wanted(prefix, Edit(w.messages, r), x)
  {
    var ms, after := w.messages, Edit(w.messages, r);
    ReconcileBindings(w.broker, prefix, after, x);
    forall m | m in after ensures !Clash(w.broker, prefix, m, x) {
      HeadersStay(ms, r, m);
      NoClash(w.broker, prefix, ms, after, m, x);
    }
  }

  /** Requests other than updates and deletions of messages keep every header. */
  lemma HeadersStay(ms: seq<Message>, r: Request, m: Message)
    requires RegistryOk(ms) && (r.MessageAdd? || r.ConsumerAdd? || r.ConsumerDelete?) && Guard(ms, r) == ""
    requires m in Edit(ms, r)
    ensures forall n :: n in ms && n.header.name == m.header.name ==> n.header == m.header
  {
    var j :| 0 <= j < |Edit(ms, r)| && Edit(ms, r)[j] == m;
    forall n | n in ms ensures n.header.name == m.header.name ==> n.header == m.header {
      var l :| 0 <= l < |ms| && ms[l] == n;
      assert j < |ms| ==> ms[j].header == m.header;
      assert j < |ms| && j != l ==> ms[j].header.name != ms[l].header.name;
    }
  }

  lemma DeletedConsumerBindings(w: World, prefix: string, r: Request, x: Binding)
    requires WorldOk(w, prefix) && r.ConsumerDelete? && Guard(w.messages, r) == ""
    requires RegistryOk(Edit(w.messages, r)) && Consistent(Edit(w.messages, r))
    requires Drive(w.broker, prefix, w.messages, r).Some?
    ensures x in Drive(w.broker, prefix, w.messages, r).value.bindings <==>
      (x in w.broker.bindings && !Drops(prefix, w.messages, r, x)) || Wanted(prefix, Edit(w.messages, r), x)
  {
    var ms, after := w.messages, Edit(w.messages, r);
    ReconcileBindings(w.broker, prefix, after, x);
    forall m | m in after ensures !Clash(w.broker, prefix, m, x) {
      HeadersStay(ms, r, m);
      NoClash(w.broker, prefix, ms, after, m, x);
    }
    DeletedConsumerNames(prefix, ms, r);
    WantedHasQueue(prefix, after, x);
  }

  lemma WantedHasQueue(prefix: string, ms: seq<Message>, x: Binding)
    ensures Wanted(prefix, ms, x) ==> x.queue in QueueNames(prefix, ms) && x.exchange in ExchangeNames(prefix, ms)
  {
    if Wanted(prefix, ms, x) {
      var m :| m in ms && BindingAmong(prefix, m.header, m.consumers, x);
      AmongHasQueue(prefix, m.header, m.consumers, x);
    }
  }

  lemma {:induction false} UpdatedMessageBindings(w: World, prefix: string, r: Request, x: Binding)
    requires WorldOk(w, prefix) && r.MessageUpdate? && Guard(w.messages, r) == ""
    requires RegistryOk(Edit(w.messages, r)) && Consistent(Edit(w.messages, r))
    ensures x in Reconcile(w.broker, prefix, Edit(w.messages, r)).bindings <==>
      (x in w.broker.bindings && !Drops(prefix, w.messages, r, x)) || Wanted(prefix, Edit(w.messages, r), x)
  {
    var ms, after, i := w.messages, Edit(w.messages, r), Lookup(w.messages, r.name);
    ReconcileBindings(w.broker, prefix, after, x);
    assert after[i] in after && ms[i] in ms;
    forall m | m in after && m != after[i] ensures !Clash(w.broker, prefix, m, x) {
      var j :| 0 <= j < |after| && after[j] == m;
      assert ms[j] == m && m in ms;
      forall n | n in ms && n.header.name == m.header.name ensures n.header == m.header {
        SameName(ms, n, m);
      }
      NoClash(w.broker, prefix, ms, after, m, x);
    }
    UpdatedMessageClash(w, prefix, r, x);
  }

  lemma UpdatedMessageClash(w: World, prefix: string, r: Request, x: Binding)
    requires WorldOk(w, prefix) && r.MessageUpdate? && Guard(w.messages, r) == ""
    ensures Clash(w.broker, prefix, Edit(w.messages, r)[Lookup(w.messages, r.name)], x) <==>
      Drops(prefix, w.messages, r, x)
  {
    var m := w.messages[Lookup(w.messages, r.name)];
    assert m in w.messages && HasExchange(w.broker, prefix, m.header);
    assert ConsumerQueues(prefix, HeaderOf(r), m.consumers) == ConsumerQueues(prefix, m.header, m.consumers) by {
      assert forall c :: QueueName(prefix, HeaderOf(r), c) == QueueName(prefix, m.header, c);
    }
    if x.queue in ConsumerQueues(prefix, m.header, m.consumers) {
      var c :| c in m.consumers && x.queue == QueueName(prefix, m.header, c);
      assert HasQueue(w.broker, prefix, m.header, c);
    }
  }

  lemma {:induction false} DeleteQueuesBindings(b: Broker, prefix: string, h: Header, cs: seq<Consumer>, x: Binding)
    requires DeleteQueues(b, prefix, h, cs).Some?
    ensures var b' := DeleteQueues(b, prefix, h, cs).value;
      x in b'.bindings <==> x in b.bindings && x.queue !in ConsumerQueues(prefix, h, cs)
    ensures var b' := DeleteQueues(b, prefix, h, cs).value;
      forall q :: q in b'.queues ==> q in b.queues && b'.queues[q] == b.queues[q]
    ensures DeleteQueues(b, prefix, h, cs).value.exchanges == b.exchanges
    decreases |cs|
  {
    if cs != [] {
      DeleteQueuesBindings(b, prefix, h, cs[..|cs| - 1], x);
      QueuesOfOneMore(prefix, h, cs);
    }
  }

  lemma DeletedMessageBindings(w: World, prefix: string, r: Request, x: Binding)
    requires WorldOk(w, prefix) && r.MessageDelete? && Guard(w.messages, r) == ""
    requires RegistryOk(Edit(w.messages, r)) && Consistent(Edit(w.messages, r))
    requires Drive(w.broker, prefix, w.messages, r).Some?
    ensures x in Drive(w.broker, prefix, w.messages, r).value.bindings <==>
      (x in w.broker.bindings && !Drops(prefix, w.messages, r, x)) || Wanted(prefix, Edit(w.messages, r), x)
  {
    var ms, after, m := w.messages, Edit(w.messages, r), w.messages[Lookup(w.messages, r.name)];
    var b1 := Dismantle(w.broker, prefix, m).value;
    DeleteQueuesBindings(w.broker, prefix, m.header, m.consumers, x);
    ReconcileBindings(b1, prefix, after, x);
    forall n | n in after ensures !Clash(b1, prefix, n, x) {
      assert n in ms;
      forall o | o in ms && o.header.name == n.header.name ensures o.header == n.header {
        SameName(ms, o, n);
      }
      NoClash(w.broker, prefix, ms, after, n, x);
    }
  }

  // ---- whole runs --------------------------------------------------------------------------

  function WorldBefore(w: World, prefix: string, rs: seq<Request>, n: nat): World
    requires n <= |rs|
  {
    HandleAll(w, prefix, rs[..n])
  }

  ghost predicate CarriedOut(w: World, prefix: string, rs: seq<Request>, n: nat)
    requires n < |rs|
  {
    Guard(WorldBefore(w, prefix, rs, n).messages, rs[n]) == ""
  }

  /** Request `n` runs initMessages while some consumer has this binding. */
  ghost predicate BindsAt(w: World, prefix: string, rs: seq<Request>, n: nat, x: Binding)
    requires n < |rs|
  {
    CarriedOut(w, prefix, rs, n) && !rs[n].ConsumerUpdate?
        && Wanted(prefix, Edit(WorldBefore(w, prefix, rs, n).messages, rs[n]), x)
  }

  ghost predicate DropsAt(w: World, prefix: string, rs: seq<Request>, n: nat, x: Binding)
    requires n < |rs|
  {
    CarriedOut(w, prefix, rs, n) && Drops(prefix, WorldBefore(w, prefix, rs, n).messages, rs[n], x)
  }

  /** Something was there at the start, or was made, and has not been dropped since, by step `j`. */
  ghost predicate Since(start: bool, makes: seq<bool>, drops: seq<bool>, j: nat)
    requires j <= |makes| == |drops|
  {
    || (start && forall l :: 0 <= l < j ==> !drops[l])
    || exists n :: 0 <= n < j && makes[n] && forall l :: n < l < j ==> !drops[l]
  }

  lemma SinceStep(start: bool, makes: seq<bool>, drops: seq<bool>, n: nat)
    requires n < |makes| == |drops|
    ensures Since(start, makes, drops, n + 1) <==> makes[n] || (Since(start, makes, drops, n) && !drops[n])
  {
    if l :| 0 <= l < n && makes[l] && forall o :: l < o < n ==> !drops[o] {
      assert !drops[n] ==> forall o :: l < o < n + 1 ==> !drops[o];
    }
  }

  ghost function Made(w: World, prefix: string, rs: seq<Request>, x: Binding): (made: seq<bool>)
    ensures |made| == |rs|
  {
    seq(|rs|, n requires 0 <= n < |rs| => BindsAt(w, prefix, rs, n, x))
  }

  ghost function Dropped(w: World, prefix: string, rs: seq<Request>, x: Binding): (dropped: seq<bool>)
    ensures |dropped| == |rs|
  {
    seq(|rs|, n requires 0 <= n < |rs| => DropsAt(w, prefix, rs, n, x))
  }

  /** Over any run, a binding is there exactly when it was there at the start, or some request made it, and
      none has dropped it since: so the stale ones are those of earlier RouteKeys, and the missing ones those
      of updates that no other request has followed. */
  lemma {:induction false} BindingThereIff(w: World, prefix: string, rs: seq<Request>, j: nat, x: Binding)
    requires WorldOk(w, prefix) && FreshIds(w, prefix, rs) && j <= |rs|
    ensures x in WorldBefore(w, prefix, rs, j).broker.bindings
       <==> Since(x in w.broker.bindings, Made(w, prefix, rs, x), Dropped(w, prefix, rs, x), j)
    decreases j
  {
    if j > 0 {
      BindingThereIff(w, prefix, rs, j - 1, x);
      OneMoreRequest(w, prefix, rs, j - 1);
      SinceStep(x in w.broker.bindings, Made(w, prefix, rs, x), Dropped(w, prefix, rs, x), j - 1);
      var v := WorldBefore(w, prefix, rs, j - 1);
      if CarriedOut(w, prefix, rs, j - 1) {
        HandleBindings(v, prefix, rs[j - 1], x);
      }
    }
  }

  lemma OneMoreRequest(w: World, prefix: string, rs: seq<Request>, n: nat)
    requires WorldOk(w, prefix) && FreshIds(w, prefix, rs) && n < |rs|
    ensures WorldBefore(w, prefix, rs, n + 1) == Handle(WorldBefore(w, prefix, rs, n), prefix, rs[n])
    ensures WorldOk(WorldBefore(w, prefix, rs, n), prefix) && FreshId(WorldBefore(w, prefix, rs, n).messages, rs[n])
  {
    HandleOneMore(w, prefix, rs, n);
    RunMirrorsSoFar(w, prefix, rs, n);
  }

  /** So every consumer's binding is there after any request that runs initMessages. */
  lemma NothingMissingAfterInit(w: World, prefix: string, rs: seq<Request>, n: nat, x: Binding)
    requires WorldOk(w, prefix) && FreshIds(w, prefix, rs) && n < |rs|
    requires CarriedOut(w, prefix, rs, n) && !rs[n].ConsumerUpdate?
    requires Wanted(prefix, Edit(WorldBefore(w, prefix, rs, n).messages, rs[n]), x)
    ensures x in WorldBefore(w, prefix, rs, n + 1).broker.bindings
  {
    BindingThereIff(w, prefix, rs, n + 1, x);
    SinceStep(x in w.broker.bindings, Made(w, prefix, rs, x), Dropped(w, prefix, rs, x), n);
  }

  // ---- a stale and a missing binding -------------------------------------------------------

  function AddMessage(name: string): Request {
    MessageAdd(name, "1", "0", "topic", "", "")
  }

  /** The same settings again: nothing has to be declared anew. */
  function UpdateMessage(name: string): Request {
    MessageUpdate(name, "1", "0", "topic", "", "")
  }

  function ConsumerBy(id: string, routeKey: string): Consumer {
    Consumer(id, "http://localhost/", routeKey, 5000, 200, true, "")
  }

  function AddConsumer(name: string, id: string, routeKey: string): Request {
    ConsumerAdd(name, ConsumerBy(id, routeKey), "200", "5000", "1")
  }

  function UpdateConsumer(name: string, id: string, routeKey: string): Request {
    ConsumerUpdate(name, ConsumerBy(id, routeKey), "200", "5000", "1")
  }

  function Topic(name: string): Header {
    HeaderOf(AddMessage(name))
  }

  function OneConsumer(name: string, id: string, routeKey: string): seq<Message> {
    [Message(Topic(name), [ConsumerBy(id, routeKey)])]
  }

  lemma OnlyWanted(prefix: string, name: string, id: string, routeKey: string, x: Binding)
    ensures Wanted(prefix, OneConsumer(name, id, routeKey), x)
       <==> x == BindingOf(prefix, Topic(name), ConsumerBy(id, routeKey))
  {
    var m := Message(Topic(name), [ConsumerBy(id, routeKey)]);
    assert m.consumers[0] in m.consumers && OneConsumer(name, id, routeKey)[0] == m;
  }

  lemma NumbersPass()
    ensures LooksLikeCode("200") && LooksLikeTimeout("5000")
  {
    assert '1' <= "200"[0] <= '9' && Digit("200"[1]);
    assert '1' <= "5000"[0] <= '9';
  }

  /** Requests that pass their guards, and the registries they leave. */
  lemma GuardsPass(name: string, id: string, x: string, y: string)
    requires name != ""
    ensures Guard([], AddMessage(name)) == "" && Edit([], AddMessage(name)) == [Message(Topic(name), [])]
    ensures var ms := [Message(Topic(name), [])];
      Guard(ms, AddConsumer(name, id, x)) == "" && Edit(ms, AddConsumer(name, id, x)) == OneConsumer(name, id, x)
    ensures var ms := OneConsumer(name, id, x);
      Guard(ms, UpdateConsumer(name, id, y)) == "" && Edit(ms, UpdateConsumer(name, id, y)) == OneConsumer(name, id, y)
    ensures var ms := OneConsumer(name, id, y);
      Guard(ms, UpdateMessage(name)) == "" && Edit(ms, UpdateMessage(name)) == ms
  {
    NumbersPass();
    assert [] + [ConsumerBy(id, x)] == [ConsumerBy(id, x)];
    assert [Message(Topic(name), [])][0 := Message(Topic(name), [ConsumerBy(id, x)])] == OneConsumer(name, id, x);
    assert [ConsumerBy(id, x)][0 := ConsumerBy(id, y)] == [ConsumerBy(id, y)];
    assert OneConsumer(name, id, x)[0 := Message(Topic(name), [ConsumerBy(id, y)])] == OneConsumer(name, id, y);
  }

  /** One request that passes its guard and leaves the given registry. */
  lemma Carried(w: World, prefix: string, r: Request, after: seq<Message>)
    requires WorldOk(w, prefix) && FreshId(w.messages, r) && Guard(w.messages, r) == "" && Edit(w.messages, r) == after
    ensures Handle(w, prefix, r).messages == after && WorldOk(Handle(w, prefix, r), prefix)
  {
    HandleKeepsWorldOk(w, prefix, r);
  }

  /** A message and a consumer with RouteKey `x` have been added. */
  function Added(prefix: string, name: string, id: string, x: string): World {
    Handle(Handle(EMPTY, prefix, AddMessage(name)), prefix, AddConsumer(name, id, x))
  }

  lemma AddedIsBound(prefix: string, name: string, id: string, x: string, b: Binding)
    requires name != "" && |id| == UUID_LENGTH
    ensures var w := Added(prefix, name, id, x);
      && WorldOk(w, prefix) && w.messages == OneConsumer(name, id, x)
      && (b in w.broker.bindings <==> b == BindingOf(prefix, Topic(name), ConsumerBy(id, x)))
  {
    GuardsPass(name, id, x, x);
    MessageIsUnbound(prefix, name, b);
    BoundNext(Handle(EMPTY, prefix, AddMessage(name)), prefix, name, id, x, b);
  }

  lemma MessageIsUnbound(prefix: string, name: string, b: Binding)
    requires name != ""
    ensures var w := Handle(EMPTY, prefix, AddMessage(name));
      WorldOk(w, prefix) && w.messages == [Message(Topic(name), [])] && b !in w.broker.bindings
  {
    EmptyStartMirrors(prefix);
    UnboundNext(EMPTY, prefix, name, b);
  }

  lemma UnboundNext(w: World, prefix: string, name: string, b: Binding)
    requires name != "" && WorldOk(w, prefix) && w.messages == [] && b !in w.broker.bindings
    ensures var v := Handle(w, prefix, AddMessage(name));
      WorldOk(v, prefix) && v.messages == [Message(Topic(name), [])] && b !in v.broker.bindings
  {
    GuardsPass(name, "", "", "");
    Carried(w, prefix, AddMessage(name), [Message(Topic(name), [])]);
    HandleBindings(w, prefix, AddMessage(name), b);
  }

  lemma BoundNext(w: World, prefix: string, name: string, id: string, x: string, b: Binding)
    requires name != "" && |id| == UUID_LENGTH
    requires WorldOk(w, prefix) && w.messages == [Message(Topic(name), [])] && b !in w.broker.bindings
    ensures var v := Handle(w, prefix, AddConsumer(name, id, x));
      && WorldOk(v, prefix) && v.messages == OneConsumer(name, id, x)
      && (b in v.broker.bindings <==> b == BindingOf(prefix, Topic(name), ConsumerBy(id, x)))
  {
    GuardsPass(name, id, x, x);
    Carried(w, prefix, AddConsumer(name, id, x), OneConsumer(name, id, x));
    HandleBindings(w, prefix, AddConsumer(name, id, x), b);
    OnlyWanted(prefix, name, id, x, b);
  }

  /** After the consumer's RouteKey has changed from `x` to `y`, the binding of `x` is there though
      nothing wants it, and the binding of `y`, which is wanted, is not. */
  lemma StaleAndMissing(prefix: string, name: string, id: string, x: string, y: string)
    requires name != "" && |id| == UUID_LENGTH && x != y
    ensures var w := Handle(Added(prefix, name, id, x), prefix, UpdateConsumer(name, id, y));
      var stale := BindingOf(prefix, Topic(name), ConsumerBy(id, x));
      var missing := BindingOf(prefix, Topic(name), ConsumerBy(id, y));
      && WorldOk(w, prefix) && w.messages == OneConsumer(name, id, y)
      && stale in w.broker.bindings && !Wanted(prefix, w.messages, stale)
      && missing !in w.broker.bindings && Wanted(prefix, w.messages, missing)
  {
    var w := Added(prefix, name, id, x);
    var stale := BindingOf(prefix, Topic(name), ConsumerBy(id, x));
    var missing := BindingOf(prefix, Topic(name), ConsumerBy(id, y));
    GuardsPass(name, id, x, y);
    forall b | b in {stale, missing}
      ensures b in Handle(w, prefix, UpdateConsumer(name, id, y)).broker.bindings <==> b == stale
    {
      AddedIsBound(prefix, name, id, x, b);
      HandleBindings(w, prefix, UpdateConsumer(name, id, y), b);
    }
    AddedIsBound(prefix, name, id, x, stale);
    Carried(w, prefix, UpdateConsumer(name, id, y), OneConsumer(name, id, y));
    OnlyWanted(prefix, name, id, y, stale);
    OnlyWanted(prefix, name, id, y, missing);
  }

  /** The next request that runs initMessages adds the missing binding and leaves the stale one. */
  lemma StaleStays(prefix: string, name: string, id: string, x: string, y: string)
    requires name != "" && |id| == UUID_LENGTH && x != y
    ensures var w := Handle(Handle(Added(prefix, name, id, x), prefix, UpdateConsumer(name, id, y)), prefix,
                            UpdateMessage(name));
      var stale := BindingOf(prefix, Topic(name), ConsumerBy(id, x));
      var missing := BindingOf(prefix, Topic(name), ConsumerBy(id, y));
      && w.messages == OneConsumer(name, id, y)
      && stale in w.broker.bindings && !Wanted(prefix, w.messages, stale)
      && missing in w.broker.bindings && Wanted(prefix, w.messages, missing)
  {
    StaleAndMissing(prefix, name, id, x, y);
    GuardsPass(name, id, x, y);
    var w := Handle(Added(prefix, name, id, x), prefix, UpdateConsumer(name, id, y));
    Carried(w, prefix, UpdateMessage(name), OneConsumer(name, id, y));
    HandleBindings(w, prefix, UpdateMessage(name), BindingOf(prefix, Topic(name), ConsumerBy(id, x)));
    HandleBindings(w, prefix, UpdateMessage(name), BindingOf(prefix, Topic(name), ConsumerBy(id, y)));
  }
}
