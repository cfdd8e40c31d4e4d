/**
 What an initMessages that returns nil has achieved at any broker and for all faults (message.go:378-410
 over mq.go:48-157): unless a declare loop was misled into nil, every exchange, queue and binding of the
 registry is there.
 */
module Establishing {
  import opened Wrappers
  import opened Config
  import opened Topology
  import opened Declarations
  import opened Registries
  import opened Mirrors

  /** What the operation asks for is there. */
  predicate Has(b: Broker, op: Operation) {
    match op
    case WantExchange(name, e) => name in b.exchanges && b.exchanges[name] == e
    case WantQueue(name, durable) => name in b.queues && b.queues[name] == durable
    case WantBinding(q, e, routeKey) => Topology.Binding(q, e, routeKey) in b.bindings
    case DropQueue(name) => name !in b.queues
    case DropExchange(name) => name !in b.exchanges
  }

  predicate Wants(op: Operation) {
    op.WantExchange? || op.WantQueue? || op.WantBinding?
  }

  /** The first can undo the other: a declare loop deletes what it then declares again, and the bindings
      go with it. */
  predicate CanUndo(op: Operation, other: Operation) {
    match op
    case WantExchange(name, _) =>
      (other.WantExchange? && other.name == name) || (other.WantBinding? && other.exchange == name)
    case WantQueue(name, _) =>
      (other.WantQueue? && other.name == name) || (other.WantBinding? && other.queue == name)
    case WantBinding(_, _, _) => false
    case _ => true
  }

  /** The call is a declaration that its faults mislead into nil. */
  predicate MisledCall(b: Broker, call: BrokerCall) {
    match call.op
    case WantExchange(name, e) => Misled(ExchangeState(b, name, e), call.first, call.second)
    case WantQueue(name, durable) => Misled(QueueState(b, name, durable), call.first, call.second)
    case _ => false
  }

  ghost predicate NoneMisled(b: Broker, made: seq<BrokerCall>)
    decreases |made|
  {
    made == [] ||
    (!MisledCall(b, made[0]) && NoneMisled(CallResult(b, made[0].op, made[0].first, made[0].second).0, made[1..]))
  }

  // ---- one call ----------------------------------------------------------------------------

  lemma CallEstablishes(b: Broker, call: BrokerCall)
    requires Wants(call.op) && !MisledCall(b, call)
    requires !CallResult(b, call.op, call.first, call.second).1
    ensures Has(CallResult(b, call.op, call.first, call.second).0, call.op)
  {
    match call.op {
      case WantExchange(name, e) => ExchangeNilIff(b, name, e, call.first, call.second);
      case WantQueue(name, durable) => QueueNilIff(b, name, durable, call.first, call.second);
      case _ =>
    }
  }

  /** An operation that, where it is possible, keeps what `other` asks for. */
  ghost predicate Spares(step: Broker -> Option<Broker>, other: Operation) {
    forall b :: Has(b, other) && step(b).Some? ==> Has(step(b).value, other)
  }

  lemma AttemptSpares(b: Broker, declare: Broker -> Option<Broker>, delete: Broker -> Option<Broker>, f: Faults,
                      other: Operation)
    requires Spares(declare, other) && Spares(delete, other) && Has(b, other)
    ensures Has(AttemptOf(b, declare, delete, f).1, other)
  {
    var (b1, declared) := Carried(b, declare(b), f.declare);
    assert Has(b1, other);
    assert delete(b1).Some? ==> Has(delete(b1).value, other);
  }

  lemma AttemptsSpare(b: Broker, declare: Broker -> Option<Broker>, delete: Broker -> Option<Broker>, first: Faults,
                      second: Faults, other: Operation)
    requires Spares(declare, other) && Spares(delete, other) && Has(b, other)
    ensures Has(AttemptsOf(b, declare, delete, first, second).1, other)
  {
    AttemptSpares(b, declare, delete, first, other);
    AttemptSpares(AttemptOf(b, declare, delete, first).1, declare, delete, second, other);
  }

  lemma CallSpares(b: Broker, op: Operation, first: Faults, second: Faults, other: Operation)
    requires Wants(op) && Wants(other) && !CanUndo(op, other) && Has(b, other)
    ensures Has(CallResult(b, op, first, second).0, other)
  {
    match op {
      case WantExchange(name, e) =>
        AttemptsSpare(b, DeclaringExchange(name, e), DeletingExchange(name), first, second, other);
      case WantQueue(name, durable) =>
        AttemptsSpare(b, DeclaringQueue(name, durable), DeletingQueue(name), first, second, other);
      case _ =>
    }
  }

  // ---- a whole plan ------------------------------------------------------------------------

  lemma {:induction false} PlanSpares(plan: seq<Operation>, b: Broker, made: seq<BrokerCall>, b': Broker, err: bool,
                                      other: Operation)
    requires Performs(plan, b, made, b', err) && Has(b, other) && Wants(other)
    requires forall i :: 0 <= i < |plan| ==> Wants(plan[i]) && !CanUndo(plan[i], other)
    ensures Has(b', other)
  {
    if plan != [] {
      CallSpares(b, plan[0], made[0].first, made[0].second, other);
      if !made[0].err {
        PlanSpares(plan[1..], CallResult(b, plan[0], made[0].first, made[0].second).0, made[1..], b', err, other);
      }
    }
  }

  /** No operation of the plan can undo an earlier one. */
  ghost predicate Lasting(plan: seq<Operation>) {
    && (forall i :: 0 <= i < |plan| ==> Wants(plan[i]))
    && forall i, j :: 0 <= i < j < |plan| ==> !CanUndo(plan[j], plan[i])
  }

  lemma {:induction false} PlanEstablishes(plan: seq<Operation>, b: Broker, made: seq<BrokerCall>, b': Broker)
    requires Performs(plan, b, made, b', false) && NoneMisled(b, made) && Lasting(plan)
    ensures forall i :: 0 <= i < |plan| ==> Has(b', plan[i])
  {
    if plan != [] {
      var b1 := CallResult(b, plan[0], made[0].first, made[0].second).0;
      CallEstablishes(b, made[0]);
      PlanSpares(plan[1..], b1, made[1..], b', false, plan[0]);
      PlanEstablishes(plan[1..], b1, made[1..], b');
      assert forall i :: 1 <= i < |plan| ==> plan[i] == plan[1..][i - 1];
    }
  }

  // ---- the plan of initMessages ------------------------------------------------------------

  lemma LastingOn(p: seq<Operation>, q: seq<Operation>)
    requires Lasting(p) && Lasting(q) && forall x, y :: x in p && y in q ==> !CanUndo(y, x)
    ensures Lasting(p + q)
  {
  }

  /** The rounds of a loop last if each lasts and none can undo an earlier one. */
  lemma {:induction false} RoundsLast(plans: seq<seq<Operation>>)
    requires forall i :: 0 <= i < |plans| ==> Lasting(plans[i])
    requires forall i, j, x, y :: 0 <= i < j < |plans| && x in plans[i] && y in plans[j] ==> !CanUndo(y, x)
    ensures Lasting(InTurn(plans))
  {
    if plans != [] {
      var front, last := plans[..|plans| - 1], plans[|plans| - 1];
      RoundsLast(front);
      forall x, y | x in InTurn(front) && y in last ensures !CanUndo(y, x) {
        var i := RoundOf(front, x);
      }
      LastingOn(InTurn(front), last);
    }
  }

  lemma {:induction false} RoundOf(plans: seq<seq<Operation>>, x: Operation) returns (i: nat)
    requires x in InTurn(plans)
    ensures i < |plans| && x in plans[i]
  {
    var front, last := plans[..|plans| - 1], plans[|plans| - 1];
    if x in last {
      i := |plans| - 1;
    } else {
      i := RoundOf(front, x);
    }
  }

  lemma {:induction false} RoundIn(plans: seq<seq<Operation>>, i: nat, x: Operation)
    requires i < |plans| && x in plans[i]
    ensures x in InTurn(plans)
  {
    if i < |plans| - 1 {
      RoundIn(plans[..|plans| - 1], i, x);
    }
  }

  function QueueOp(prefix: string, m: Message, c: Consumer): Operation {
    WantQueue(QueueName(prefix, m.header, c), m.header.durable)
  }

  function BindingOp(prefix: string, m: Message, c: Consumer): Operation {
    WantBinding(QueueName(prefix, m.header, c), Named(prefix, m.header.name), c.routeKey)
  }

  function ExchangeOp(prefix: string, m: Message): Operation {
    WantExchange(Named(prefix, m.header.name), ExchangeOf(m.header))
  }

  lemma {:induction false} MessagePlanOps(prefix: string, m: Message, x: Operation)
    ensures x in MessagePlan(prefix, m) <==>
      x == ExchangeOp(prefix, m)
      || exists c :: c in m.consumers && (x == QueueOp(prefix, m, c) || x == BindingOp(prefix, m, c))
  {
    var plans := ConsumerPlans(prefix, m.header, m.consumers);
    if x in InTurn(plans) {
      var k := RoundOf(plans, x);
      assert m.consumers[k] in m.consumers;
    }
    forall c | c in m.consumers && (x == QueueOp(prefix, m, c) || x == BindingOp(prefix, m, c))
      ensures x in InTurn(plans)
    {
      var k :| 0 <= k < |m.consumers| && m.consumers[k] == c;
      RoundIn(plans, k, x);
    }
  }

  /** In an orderly registry nothing that one consumer's round does can be undone by another's. */
  lemma ConsumersApart(prefix: string, ms: seq<Message>, m: Message, c: Consumer, n: Message, d: Consumer)
    requires RegistryOk(ms) && m in ms && n in ms && c in m.consumers && d in n.consumers && (m != n || c != d)
    ensures QueueName(prefix, m.header, c) != QueueName(prefix, n.header, d)
  {
    if QueueName(prefix, m.header, c) == QueueName(prefix, n.header, d) {
      SameKey(prefix, ms, m, c, n, d);
    }
  }

  /** One consumer's round lasts. */
  lemma ConsumerPlanLasts(prefix: string, m: Message, c: Consumer)
    ensures Lasting(ConsumerPlan(prefix, m.header, c))
    ensures forall x :: x in ConsumerPlan(prefix, m.header, c) ==>
      x == QueueOp(prefix, m, c) || x == BindingOp(prefix, m, c)
  {
  }

  lemma ConsumersLast(prefix: string, ms: seq<Message>, m: Message)
    requires RegistryOk(ms) && m in ms
    ensures Lasting(InTurn(ConsumerPlans(prefix, m.header, m.consumers)))
  {
    var plans := ConsumerPlans(prefix, m.header, m.consumers);
    forall k | 0 <= k < |plans| ensures Lasting(plans[k]) {
      ConsumerPlanLasts(prefix, m, m.consumers[k]);
    }
    forall k, l, x, y | 0 <= k < l < |plans| && x in plans[k] && y in plans[l] ensures !CanUndo(y, x) {
      var c, d := m.consumers[k], m.consumers[l];
      ConsumerPlanLasts(prefix, m, c);
      ConsumerPlanLasts(prefix, m, d);
      ConsumersDiffer(ms, m, k, l);
      ConsumersApart(prefix, ms, m, c, m, d);
    }
    RoundsLast(plans);
  }

  lemma ConsumersDiffer(ms: seq<Message>, m: Message, k: nat, l: nat)
    requires RegistryOk(ms) && m in ms && k < l < |m.consumers|
    ensures m.consumers[k] != m.consumers[l]
  {
    var i :| 0 <= i < |ms| && ms[i] == m;
    assert IdAt(ms, i, k, m.consumers[k].id) && IdAt(ms, i, l, m.consumers[l].id);
  }

  lemma MessagePlanLasts(prefix: string, ms: seq<Message>, m: Message)
    requires RegistryOk(ms) && m in ms
    ensures Lasting(MessagePlan(prefix, m))
  {
    var rest := InTurn(ConsumerPlans(prefix, m.header, m.consumers));
    ConsumersLast(prefix, ms, m);
    forall y | y in rest ensures !CanUndo(y, ExchangeOp(prefix, m)) {
      var k := RoundOf(ConsumerPlans(prefix, m.header, m.consumers), y);
      ConsumerPlanLasts(prefix, m, m.consumers[k]);
    }
    LastingOn([ExchangeOp(prefix, m)], rest);
  }

  /** Nor can what one message's round does be undone by another's. */
  lemma MessagesApart(prefix: string, ms: seq<Message>, m: Message, n: Message, x: Operation, y: Operation)
    requires RegistryOk(ms) && m in ms && n in ms && m.header.name != n.header.name
    requires x in MessagePlan(prefix, m) && y in MessagePlan(prefix, n)
    ensures !CanUndo(y, x)
  {
    MessagePlanOps(prefix, m, x);
    MessagePlanOps(prefix, n, y);
    if Named(prefix, m.header.name) == Named(prefix, n.header.name) {
      NamedInjective(prefix, m.header.name, n.header.name);
    }
    if x != ExchangeOp(prefix, m) && y != ExchangeOp(prefix, n) {
      var c :| c in m.consumers && (x == QueueOp(prefix, m, c) || x == BindingOp(prefix, m, c));
      var d :| d in n.consumers && (y == QueueOp(prefix, n, d) || y == BindingOp(prefix, n, d));
      ConsumersApart(prefix, ms, m, c, n, d);
    }
  }

  lemma InitPlanLasts(prefix: string, ms: seq<Message>)
    requires RegistryOk(ms)
    ensures Lasting(InitPlan(prefix, ms))
  {
    var plans := MessagePlans(prefix, ms);
    forall i | 0 <= i < |plans| ensures Lasting(plans[i]) {
      MessagePlanLasts(prefix, ms, ms[i]);
    }
    forall i, j, x, y | 0 <= i < j < |plans| && x in plans[i] && y in plans[j] ensures !CanUndo(y, x) {
      MessagesApart(prefix, ms, ms[i], ms[j], x, y);
    }
    RoundsLast(plans);
  }

  lemma PlanCovers(prefix: string, ms: seq<Message>, m: Message, x: Operation)
    requires m in ms && x in MessagePlan(prefix, m)
    ensures x in InitPlan(prefix, ms)
  {
    var i :| 0 <= i < |ms| && ms[i] == m;
    RoundIn(MessagePlans(prefix, ms), i, x);
  }

  /** A broker that has what the plan wants has converged. */
  lemma PlanConverges(prefix: string, ms: seq<Message>, b: Broker)
    requires forall x :: x in InitPlan(prefix, ms) ==> Has(b, x)
    ensures Converged(b, prefix, ms)
  {
    forall m | m in ms ensures HasMessage(b, prefix, m) {
      MessagePlanOps(prefix, m, ExchangeOp(prefix, m));
      PlanCovers(prefix, ms, m, ExchangeOp(prefix, m));
      forall c | c in m.consumers ensures HasConsumer(b, prefix, m.header, c) {
        MessagePlanOps(prefix, m, QueueOp(prefix, m, c));
        MessagePlanOps(prefix, m, BindingOp(prefix, m, c));
        PlanCovers(prefix, ms, m, QueueOp(prefix, m, c));
        PlanCovers(prefix, ms, m, BindingOp(prefix, m, c));
      }
    }
  }

  /** For every broker and all faults: an initMessages that returns nil leaves every exchange, queue and
      binding of an orderly registry there, unless one of its declarations was misled into nil. */
  lemma NilInitConverges(prefix: string, ms: seq<Message>, s: Progress, t: Progress)
    requires RegistryOk(ms) && Carries(InitPlan(prefix, ms), s, t, false)
    requires NoneMisled(s.broker, t.calls[|s.calls|..])
    ensures Converged(t.broker, prefix, ms)
  {
    InitPlanLasts(prefix, ms);
    PlanEstablishes(InitPlan(prefix, ms), s.broker, t.calls[|s.calls|..], t.broker);
    PlanConverges(prefix, ms, t.broker);
  }
}
