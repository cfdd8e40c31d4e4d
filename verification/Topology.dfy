/**
 The broker as mq.go sees it: exchanges, queues and bindings, after sections 1.6 (exchange) and
 1.7 (queue) of the AMQP 0-9-1 reference. A declaration of an existing entity succeeds only with
 the parameters it already has; a deletion takes the bindings along; binding and deleting need
 what they name to exist. Queues and exchanges are auto-deleted exactly when they are not durable,
 so `durable` stands for both parameters.
 */
module Topology {
  import opened Wrappers
  import opened Config

  datatype Exchange = Exchange(kind: string, durable: bool)
  datatype Binding = Binding(queue: string, exchange: string, routeKey: string)
  datatype Broker = Broker(exchanges: map<string, Exchange>, queues: map<string, bool>, bindings: set<Binding>)

  function DeclareExchange(b: Broker, name: string, e: Exchange): Option<Broker> {
    if name !in b.exchanges then Some(b.(exchanges := b.exchanges[name := e]))
    else if b.exchanges[name] == e then Some(b)
    else None
  }

  function DeclareQueue(b: Broker, name: string, durable: bool): Option<Broker> {
    if name !in b.queues then Some(b.(queues := b.queues[name := durable]))
    else if b.queues[name] == durable then Some(b)
    else None
  }

  function DeleteExchange(b: Broker, name: string): Option<Broker> {
    if name in b.exchanges then
      Some(b.(exchanges := b.exchanges - {name}, bindings := set x | x in b.bindings && x.exchange != name))
    else None
  }

  function DeleteQueue(b: Broker, name: string): Option<Broker> {
    if name in b.queues then
      Some(b.(queues := b.queues - {name}, bindings := set x | x in b.bindings && x.queue != name))
    else None
  }

  function Bind(b: Broker, queue: string, exchange: string, routeKey: string): Option<Broker> {
    if queue in b.queues && exchange in b.exchanges then
      Some(b.(bindings := b.bindings + {Binding(queue, exchange, routeKey)}))
    else None
  }

  // ---- what the declarations of mq.go achieve when the broker and the pool do not fail ---

  /** Declare, or on a mismatch delete and declare again. */
  function EnsureExchange(b: Broker, name: string, e: Exchange): Broker {
    if name in b.exchanges && b.exchanges[name] == e then b
    else
      Broker(b.exchanges[name := e], b.queues,
             if name in b.exchanges then set x | x in b.bindings && x.exchange != name else b.bindings)
  }

  function EnsureQueue(b: Broker, name: string, durable: bool): Broker {
    if name in b.queues && b.queues[name] == durable then b
    else
      Broker(b.exchanges, b.queues[name := durable],
             if name in b.queues then set x | x in b.bindings && x.queue != name else b.bindings)
  }

  function EnsureBinding(b: Broker, queue: string, exchange: string, routeKey: string): Broker {
    b.(bindings := b.bindings + {Binding(queue, exchange, routeKey)})
  }

  // ---- reconciliation with a list of messages --------------------------------------------

  function ExchangeOf(h: Header): Exchange {
    Exchange(h.mode, h.durable)
  }

  /** The broker's name of a queue or an exchange. */
  function Named(prefix: string, name: string): string {
    prefix + name
  }

  lemma NamedInjective(prefix: string, a: string, b: string)
    requires Named(prefix, a) == Named(prefix, b)
    ensures a == b
  {
    assert a == (prefix + a)[|prefix|..] == (prefix + b)[|prefix|..] == b;
  }

  function QueueName(prefix: string, h: Header, c: Consumer): string {
    Named(prefix, ConsumerKey(h.name, c.id))
  }

  function ReconcileConsumer(b: Broker, prefix: string, h: Header, c: Consumer): Broker {
    EnsureBinding(EnsureQueue(b, QueueName(prefix, h, c), h.durable), QueueName(prefix, h, c), Named(prefix, h.name),
                  c.routeKey)
  }

  function ReconcileConsumers(b: Broker, prefix: string, h: Header, cs: seq<Consumer>): Broker {
    if cs == [] then b
    else ReconcileConsumer(ReconcileConsumers(b, prefix, h, cs[..|cs| - 1]), prefix, h, cs[|cs| - 1])
  }

  function ReconcileMessage(b: Broker, prefix: string, m: Message): Broker {
    ReconcileConsumers(EnsureExchange(b, Named(prefix, m.header.name), ExchangeOf(m.header)), prefix, m.header,
                       m.consumers)
  }

  /** What `initMessages` makes of the broker. */
  function Reconcile(b: Broker, prefix: string, ms: seq<Message>): Broker {
    if ms == [] then b
    else ReconcileMessage(Reconcile(b, prefix, ms[..|ms| - 1]), prefix, ms[|ms| - 1])
  }

  // ---- convergence -----------------------------------------------------------------------

  ghost predicate HasExchange(b: Broker, prefix: string, h: Header) {
    Named(prefix, h.name) in b.exchanges && b.exchanges[Named(prefix, h.name)] == ExchangeOf(h)
  }

  ghost predicate HasConsumer(b: Broker, prefix: string, h: Header, c: Consumer) {
    && QueueName(prefix, h, c) in b.queues && b.queues[QueueName(prefix, h, c)] == h.durable
    && Binding(QueueName(prefix, h, c), Named(prefix, h.name), c.routeKey) in b.bindings
  }

  ghost predicate HasMessage(b: Broker, prefix: string, m: Message) {
    HasExchange(b, prefix, m.header) && forall c :: c in m.consumers ==> HasConsumer(b, prefix, m.header, c)
  }

  /** Every message has its exchange, and every consumer its queue, bound by its route key. */
  ghost predicate Converged(b: Broker, prefix: string, ms: seq<Message>) {
    forall m :: m in ms ==> HasMessage(b, prefix, m)
  }

  /** Two messages of one name agree on the exchange, two consumers of one key on the queue. */
  ghost predicate Agree(m: Message, n: Message) {
    && (m.header.name == n.header.name ==> ExchangeOf(m.header) == ExchangeOf(n.header))
    && (forall c, d :: c in m.consumers && d in n.consumers ==>
         ConsumerKey(m.header.name, c.id) == ConsumerKey(n.header.name, d.id) ==> m.header.durable == n.header.durable)
  }

  ghost predicate Consistent(ms: seq<Message>) {
    forall m, n :: m in ms && n in ms ==> Agree(m, n)
  }

  lemma EnsureExchangeKeeps(b: Broker, prefix: string, m: Message, n: Message)
    requires HasMessage(b, prefix, m) && Agree(m, n)
    ensures HasMessage(EnsureExchange(b, Named(prefix, n.header.name), ExchangeOf(n.header)), prefix, m)
  {
    if Named(prefix, m.header.name) == Named(prefix, n.header.name) {
      NamedInjective(prefix, m.header.name, n.header.name);
    }
  }

  lemma ReconcileConsumerKeeps(b: Broker, prefix: string, m: Message, n: Message, d: Consumer)
    requires HasMessage(b, prefix, m) && Agree(m, n) && d in n.consumers
    ensures HasMessage(ReconcileConsumer(b, prefix, n.header, d), prefix, m)
  {
    var b' := ReconcileConsumer(b, prefix, n.header, d);
    forall c | c in m.consumers ensures HasConsumer(b', prefix, m.header, c) {
      assert HasConsumer(b, prefix, m.header, c);
      if QueueName(prefix, m.header, c) == QueueName(prefix, n.header, d) {
        NamedInjective(prefix, ConsumerKey(m.header.name, c.id), ConsumerKey(n.header.name, d.id));
      }
    }
  }

  /** Reconciling a consistent message does not undo another. */
  lemma {:induction false} ReconcileConsumersKeeps(b: Broker, prefix: string, m: Message, n: Message, cs: seq<Consumer>)
    requires HasMessage(b, prefix, m) && Agree(m, n) && (forall d :: d in cs ==> d in n.consumers)
    ensures HasMessage(ReconcileConsumers(b, prefix, n.header, cs), prefix, m)
    decreases |cs|
  {
    if cs != [] {
      var front := cs[..|cs| - 1];
      ReconcileConsumersKeeps(b, prefix, m, n, front);
      ReconcileConsumerKeeps(ReconcileConsumers(b, prefix, n.header, front), prefix, m, n, cs[|cs| - 1]);
    }
  }

  /** Within one message, each consumer gets its queue and later consumers leave it. */
  lemma {:induction false} ReconcileConsumersEstablish(b: Broker, prefix: string, h: Header, cs: seq<Consumer>)
    requires HasExchange(b, prefix, h)
    ensures HasMessage(ReconcileConsumers(b, prefix, h, cs), prefix, Message(h, cs))
    decreases |cs|
  {
    if cs != [] {
      var front, last := cs[..|cs| - 1], cs[|cs| - 1];
      ReconcileConsumersEstablish(b, prefix, h, front);
      var b1 := ReconcileConsumers(b, prefix, h, front);
      ReconcileConsumerKeeps(b1, prefix, Message(h, front), Message(h, cs), last);
      var b2 := ReconcileConsumer(b1, prefix, h, last);
      forall c | c in cs ensures HasConsumer(b2, prefix, h, c) {
        assert c in front || c == last;
      }
    }
  }

  lemma ReconcileMessageEstablishes(b: Broker, prefix: string, m: Message)
    ensures HasMessage(ReconcileMessage(b, prefix, m), prefix, m)
  {
    ReconcileConsumersEstablish(EnsureExchange(b, Named(prefix, m.header.name), ExchangeOf(m.header)), prefix,
                                m.header, m.consumers);
    assert Message(m.header, m.consumers) == m;
  }

  lemma {:induction false} ReconcileConverges(b: Broker, prefix: string, ms: seq<Message>)
    requires Consistent(ms)
    ensures Converged(Reconcile(b, prefix, ms), prefix, ms)
    decreases |ms|
  {
    if ms != [] {
      var front, last := ms[..|ms| - 1], ms[|ms| - 1];
      var b1 := Reconcile(b, prefix, front);
      ReconcileConverges(b, prefix, front);
      ReconcileMessageEstablishes(b1, prefix, last);
      forall m | m in ms && m != last ensures HasMessage(Reconcile(b, prefix, ms), prefix, m) {
        assert m in front;
        EnsureExchangeKeeps(b1, prefix, m, last);
        ReconcileConsumersKeeps(EnsureExchange(b1, Named(prefix, last.header.name), ExchangeOf(last.header)), prefix,
                                m, last, last.consumers);
      }
    }
  }

  lemma ConvergedImpliesConsistent(b: Broker, prefix: string, ms: seq<Message>)
    requires Converged(b, prefix, ms)
    ensures Consistent(ms)
  {
    forall m, n | m in ms && n in ms ensures Agree(m, n) {
      assert HasMessage(b, prefix, m) && HasMessage(b, prefix, n);
      forall c, d | c in m.consumers && d in n.consumers
          && ConsumerKey(m.header.name, c.id) == ConsumerKey(n.header.name, d.id)
        ensures m.header.durable == n.header.durable
      {
        assert HasConsumer(b, prefix, m.header, c) && HasConsumer(b, prefix, n.header, d);
      }
    }
  }

  /** From any broker, `initMessages` reaches what the messages ask for exactly when they do not
      contradict each other. */
  lemma {:induction false} ConvergesIffConsistent(b: Broker, prefix: string, ms: seq<Message>)
    ensures Converged(Reconcile(b, prefix, ms), prefix, ms) <==> Consistent(ms)
  {
    if Consistent(ms) {
      ReconcileConverges(b, prefix, ms);
    }
    if Converged(Reconcile(b, prefix, ms), prefix, ms) {
      ConvergedImpliesConsistent(Reconcile(b, prefix, ms), prefix, ms);
    }
  }

  // ---- a second run changes nothing ------------------------------------------------------

  lemma {:induction false} ReconcileConsumersFixed(b: Broker, prefix: string, h: Header, cs: seq<Consumer>)
    requires forall c :: c in cs ==> HasConsumer(b, prefix, h, c)
    ensures ReconcileConsumers(b, prefix, h, cs) == b
    decreases |cs|
  {
    if cs != [] {
      ReconcileConsumersFixed(b, prefix, h, cs[..|cs| - 1]);
      assert HasConsumer(b, prefix, h, cs[|cs| - 1]);
      assert b.bindings + {Binding(QueueName(prefix, h, cs[|cs| - 1]), Named(prefix, h.name), cs[|cs| - 1].routeKey)}
          == b.bindings;
    }
  }

  lemma {:induction false} ConvergedIsFixed(b: Broker, prefix: string, ms: seq<Message>)
    requires Converged(b, prefix, ms)
    ensures Reconcile(b, prefix, ms) == b
    decreases |ms|
  {
    if ms != [] {
      ConvergedIsFixed(b, prefix, ms[..|ms| - 1]);
      assert HasMessage(b, prefix, ms[|ms| - 1]);
      ReconcileConsumersFixed(b, prefix, ms[|ms| - 1].header, ms[|ms| - 1].consumers);
    }
  }

  lemma {:induction false} SecondRunChangesNothing(b: Broker, prefix: string, ms: seq<Message>)
    requires Consistent(ms)
    ensures Reconcile(Reconcile(b, prefix, ms), prefix, ms) == Reconcile(b, prefix, ms)
  {
    ReconcileConverges(b, prefix, ms);
    ConvergedIsFixed(Reconcile(b, prefix, ms), prefix, ms);
  }

  // ---- which entities there are ----------------------------------------------------------

  function ExchangeNames(prefix: string, ms: seq<Message>): set<string> {
    set m | m in ms :: Named(prefix, m.header.name)
  }

  function QueueNames(prefix: string, ms: seq<Message>): set<string> {
    set m, c | m in ms && c in m.consumers :: QueueName(prefix, m.header, c)
  }

  function ConsumerQueues(prefix: string, h: Header, cs: seq<Consumer>): set<string> {
    set c | c in cs :: QueueName(prefix, h, c)
  }

  lemma {:induction false} ReconcileConsumersEntities(b: Broker, prefix: string, h: Header, cs: seq<Consumer>)
    ensures ReconcileConsumers(b, prefix, h, cs).exchanges == b.exchanges
    ensures ReconcileConsumers(b, prefix, h, cs).queues.Keys == b.queues.Keys + ConsumerQueues(prefix, h, cs)
    decreases |cs|
  {
    if cs != [] {
      var front, last := cs[..|cs| - 1], cs[|cs| - 1];
      ReconcileConsumersEntities(b, prefix, h, front);
      assert forall c :: c in cs <==> c in front || c == last;
      assert ConsumerQueues(prefix, h, cs) == ConsumerQueues(prefix, h, front) + {QueueName(prefix, h, last)};
    }
  }

  /** Reconciling adds exactly the configured entities and removes none. */
  lemma {:induction false} ReconcileEntities(b: Broker, prefix: string, ms: seq<Message>)
    ensures Reconcile(b, prefix, ms).exchanges.Keys == b.exchanges.Keys + ExchangeNames(prefix, ms)
    ensures Reconcile(b, prefix, ms).queues.Keys == b.queues.Keys + QueueNames(prefix, ms)
    decreases |ms|
  {
    if ms != [] {
      var front, last := ms[..|ms| - 1], ms[|ms| - 1];
      ReconcileEntities(b, prefix, front);
      var b1 := EnsureExchange(Reconcile(b, prefix, front), Named(prefix, last.header.name), ExchangeOf(last.header));
      ReconcileConsumersEntities(b1, prefix, last.header, last.consumers);
      NamesOfOneMore(prefix, ms);
    }
  }

  lemma NamesOfOneMore(prefix: string, ms: seq<Message>)
    requires ms != []
    ensures var front, last := ms[..|ms| - 1], ms[|ms| - 1];
      && ExchangeNames(prefix, ms) == ExchangeNames(prefix, front) + {Named(prefix, last.header.name)}
      && QueueNames(prefix, ms) == QueueNames(prefix, front) + ConsumerQueues(prefix, last.header, last.consumers)
  {
    var front, last := ms[..|ms| - 1], ms[|ms| - 1];
    assert forall m :: m in ms <==> m in front || m == last;
    assert ExchangeNames(prefix, ms) == ExchangeNames(prefix, front) + {Named(prefix, last.header.name)};
    var more := QueueNames(prefix, front) + ConsumerQueues(prefix, last.header, last.consumers);
    forall q | q in QueueNames(prefix, ms) ensures q in more {
      var m, c :| m in ms && c in m.consumers && q == QueueName(prefix, m.header, c);
      if m in front {
        assert q in QueueNames(prefix, front);
      }
    }
    forall q | q in more ensures q in QueueNames(prefix, ms) {
      if q in QueueNames(prefix, front) {
        var m, c :| m in front && c in m.consumers && q == QueueName(prefix, m.header, c);
        assert m in ms;
      } else {
        assert last in ms;
      }
    }
  }
}
