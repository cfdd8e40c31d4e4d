/**
 Where the copies of published messages are: ready in a queue, pushed to a channel and not
 settled yet, acknowledged, or lost with a deleted queue. A message copy is a number. The
 broker follows sections 1.7 (queue) and 1.8 (basic) of the AMQP 0-9-1 reference, with
 basic.nack as RabbitMQ's extension.
 */
module Delivery {
  import opened Wrappers

  /** `stream` is the client's delivery Go channel, which can still hold deliveries after the
      AMQP channel is gone; `ended` means it is closed once drained. */
  datatype Channel = Channel(
    open: bool, prefetch: nat, source: Option<string>, unsettled: set<nat>, stream: seq<nat>, ended: bool)

  /** `published` maps each copy to the queue it was routed to. */
  datatype Broker = Broker(
    queues: map<string, set<nat>>, channels: map<nat, Channel>,
    published: map<nat, string>, acked: set<nat>, dropped: set<nat>)

  datatype Event =
    | Publish(queue: string, copy: nat)
    | Push(channel: nat, copy: nat)
    | CloseChannel(channel: nat)
    | CancelConsumer(channel: nat)
    | DeleteQueue(queue: string)
    | DeclareQueue(queue: string)
    | OpenChannel(channel: nat)
    | Qos(channel: nat, prefetch: nat)
    | Consume(channel: nat, queue: string)
    | Receive(channel: nat)
    | Ack(channel: nat, copy: nat)
    | Requeue(channel: nat, copy: nat)

  predicate Enabled(b: Broker, e: Event) {
    match e
    case Publish(q, m) => q in b.queues && m !in b.published
    case Push(c, m) =>
      && c in b.channels && b.channels[c].open && !b.channels[c].ended && b.channels[c].source.Some?
      && b.channels[c].source.value in b.queues && m in b.queues[b.channels[c].source.value]
      && (b.channels[c].prefetch == 0 || |b.channels[c].unsettled| < b.channels[c].prefetch)
    case CloseChannel(c) => c in b.channels
    case CancelConsumer(c) => c in b.channels
    case DeleteQueue(q) => true
    case DeclareQueue(q) => true
    case OpenChannel(c) => c !in b.channels
    case Qos(c, n) => c in b.channels && b.channels[c].open
    case Consume(c, q) => c in b.channels && b.channels[c].open && q in b.queues
    case Receive(c) => c in b.channels && b.channels[c].stream != []
    case Ack(c, m) => c in b.channels && b.channels[c].open && m in b.channels[c].unsettled
    case Requeue(c, m) =>
      && c in b.channels && b.channels[c].open && m in b.channels[c].unsettled
      && m in b.published && b.published[m] in b.queues
  }

  function Home(b: Broker, q: string, copies: set<nat>): set<nat> {
    set m | m in copies && m in b.published && b.published[m] == q
  }

  /** Put copies back into the queues they came from. */
  function GiveBack(b: Broker, copies: set<nat>): map<string, set<nat>> {
    map q | q in b.queues :: b.queues[q] + Home(b, q, copies)
  }

  function Cancelled(ch: Channel): Channel {
    ch.(source := None, ended := true)
  }

  /** The copies of queue `q` that are still ready or unsettled. */
  function Pending(b: Broker, q: string): set<nat> {
    set m | m in b.published && b.published[m] == q && m !in b.acked && m !in b.dropped
  }

  function Apply(b: Broker, e: Event): Broker
    requires Enabled(b, e)
  {
    match e
    case Publish(q, m) => b.(queues := b.queues[q := b.queues[q] + {m}], published := b.published[m := q])
    case Push(c, m) =>
      var ch := b.channels[c];
      b.(queues := b.queues[ch.source.value := b.queues[ch.source.value] - {m}],
         channels := b.channels[c := ch.(unsettled := ch.unsettled + {m}, stream := ch.stream + [m])])
    case CloseChannel(c) =>
      var ch := b.channels[c];
      b.(queues := GiveBack(b, ch.unsettled),
         channels := b.channels[c := Cancelled(ch).(open := false, unsettled := {})])
    case CancelConsumer(c) => b.(channels := b.channels[c := Cancelled(b.channels[c])])
    case DeleteQueue(q) =>
      b.(queues := b.queues - {q},
         dropped := b.dropped + (if q in b.queues then Pending(b, q) else {}),
         channels := map c | c in b.channels ::
           (if b.channels[c].source == Some(q) then Cancelled(b.channels[c]) else b.channels[c]).(
             unsettled := b.channels[c].unsettled - Pending(b, q)))
    case DeclareQueue(q) => if q in b.queues then b else b.(queues := b.queues[q := {}])
    case OpenChannel(c) => b.(channels := b.channels[c := Channel(true, 0, None, {}, [], false)])
    case Qos(c, n) => b.(channels := b.channels[c := b.channels[c].(prefetch := n)])
    case Consume(c, q) => b.(channels := b.channels[c := b.channels[c].(source := Some(q))])
    case Receive(c) => b.(channels := b.channels[c := b.channels[c].(stream := b.channels[c].stream[1..])])
    case Ack(c, m) =>
      b.(channels := b.channels[c := b.channels[c].(unsettled := b.channels[c].unsettled - {m})],
         acked := b.acked + {m})
    case Requeue(c, m) =>
      b.(channels := b.channels[c := b.channels[c].(unsettled := b.channels[c].unsettled - {m})],
         queues := b.queues[b.published[m] := b.queues[b.published[m]] + {m}])
  }

  ghost predicate ReadySomewhere(b: Broker, m: nat) {
    m in b.published && b.published[m] in b.queues && m in b.queues[b.published[m]]
  }

  ghost predicate UnsettledOn(b: Broker, c: nat, m: nat) {
    c in b.channels && m in b.channels[c].unsettled
  }

  ghost predicate UnsettledSomewhere(b: Broker, m: nat) {
    exists c :: UnsettledOn(b, c, m)
  }

  /** Every published copy is in exactly one place, and no place holds anything else. */
  ghost predicate Conserved(b: Broker) {
    && (forall m :: m in b.published <==>
         ReadySomewhere(b, m) || UnsettledSomewhere(b, m) || m in b.acked || m in b.dropped)
    && (forall q, m :: q in b.queues && m in b.queues[q] ==>
         m in b.published && b.published[m] == q && m !in b.acked && m !in b.dropped)
    && (forall c, m :: UnsettledOn(b, c, m) ==>
         m in b.published && b.published[m] in b.queues && m !in b.queues[b.published[m]] && m !in b.acked
             && m !in b.dropped)
    && (forall c, d, m :: UnsettledOn(b, c, m) && UnsettledOn(b, d, m) ==> c == d)
    && b.acked !! b.dropped
  }

  /** A channel consumes only after its prefetch is set to 1, so it has at most one unsettled copy. */
  ghost predicate OneUnsettled(b: Broker) {
    forall c :: c in b.channels ==> Modest(b.channels[c])
  }

  lemma EventConserves(b: Broker, e: Event)
    requires Conserved(b) && Enabled(b, e)
    ensures Conserved(Apply(b, e))
  {
    var b' := Apply(b, e);
    match e {
      case Publish(q, m) => PublishConserves(b, q, m);
      case Push(c, m) => PushConserves(b, c, m);
      case CloseChannel(c) => CloseConserves(b, c);
      case DeleteQueue(q) => DeleteConserves(b, q);
      case Ack(c, m) => AckConserves(b, c, m);
      case Requeue(c, m) => RequeueConserves(b, c, m);
      case DeclareQueue(q) => DeclareConserves(b, q);
      case _ => QuietConserves(b, e);
    }
  }

  lemma PublishConserves(b: Broker, q: string, m: nat)
    requires Conserved(b) && Enabled(b, Publish(q, m))
    ensures Conserved(Apply(b, Publish(q, m)))
  {
    var b' := Apply(b, Publish(q, m));
    SameUnsettled(b, b');
    assert forall x :: x != m ==> (ReadySomewhere(b', x) <==> ReadySomewhere(b, x));
    assert ReadySomewhere(b', m);
  }

  lemma PushConserves(b: Broker, c: nat, m: nat)
    requires Conserved(b) && Enabled(b, Push(c, m))
    ensures Conserved(Apply(b, Push(c, m)))
  {
    var b' := Apply(b, Push(c, m));
    forall d: nat, x: nat ensures UnsettledOn(b', d, x) <==> UnsettledOn(b, d, x) || (d == c && x == m) {
      assert d != c ==> (d in b'.channels <==> d in b.channels);
    }
    assert forall x :: ReadySomewhere(b', x) <==> ReadySomewhere(b, x) && x != m;
    assert UnsettledOn(b', c, m);
  }

  lemma CloseConserves(b: Broker, c: nat)
    requires Conserved(b) && Enabled(b, CloseChannel(c))
    ensures Conserved(Apply(b, CloseChannel(c)))
  {
    var b' := Apply(b, CloseChannel(c));
    CloseMoves(b, c);
    forall q, m | q in b'.queues && m in b'.queues[q]
      ensures m in b'.published && b'.published[m] == q && m !in b'.acked && m !in b'.dropped
    {
      assert m !in b.queues[q] ==> UnsettledOn(b, c, m);
    }
  }

  lemma CloseMoves(b: Broker, c: nat)
    requires Conserved(b) && c in b.channels
    ensures var b' := Apply(b, CloseChannel(c));
      && (forall d, x :: UnsettledOn(b', d, x) <==> UnsettledOn(b, d, x) && d != c)
      && (forall x :: ReadySomewhere(b', x) <==> ReadySomewhere(b, x) || UnsettledOn(b, c, x))
      && (forall q, x :: q in b'.queues && x in b'.queues[q] ==>
           q in b.queues && (x in b.queues[q] || (UnsettledOn(b, c, x) && b.published[x] == q)))
  {
    var b' := Apply(b, CloseChannel(c));
    forall d: nat, x: nat ensures UnsettledOn(b', d, x) <==> UnsettledOn(b, d, x) && d != c {
      assert d != c && d in b.channels ==> b'.channels[d] == b.channels[d];
    }
  }

  lemma DeleteConserves(b: Broker, q: string)
    requires Conserved(b) && Enabled(b, DeleteQueue(q))
    ensures Conserved(Apply(b, DeleteQueue(q)))
  {
    DeleteMoves(b, q);
    DeletePlaces(b, q);
  }

  lemma DeletePlaces(b: Broker, q: string)
    requires Conserved(b)
    ensures var b' := Apply(b, DeleteQueue(q));
      forall m :: m in b'.published <==>
        ReadySomewhere(b', m) || UnsettledSomewhere(b', m) || m in b'.acked || m in b'.dropped
  {
    var b' := Apply(b, DeleteQueue(q));
    DeleteMoves(b, q);
    forall m ensures m in b'.published <==>
        ReadySomewhere(b', m) || UnsettledSomewhere(b', m) || m in b'.acked || m in b'.dropped
    {
      if UnsettledSomewhere(b, m) {
        var c :| UnsettledOn(b, c, m);
        assert b.published[m] != q ==> UnsettledOn(b', c, m);
      }
    }
  }

  lemma DeleteMoves(b: Broker, q: string)
    requires Conserved(b)
    ensures var b' := Apply(b, DeleteQueue(q));
      && (forall d, x :: UnsettledOn(b', d, x) <==> UnsettledOn(b, d, x) && b.published[x] != q)
      && (forall x :: ReadySomewhere(b', x) <==> ReadySomewhere(b, x) && b.published[x] != q)
      && (forall x :: x in b'.dropped <==> x in b.dropped || (q in b.queues && x in Pending(b, q)))
  {
    var b' := Apply(b, DeleteQueue(q));
    forall d: nat, x: nat ensures UnsettledOn(b', d, x) <==> UnsettledOn(b, d, x) && b.published[x] != q {
      if d in b.channels && x in b.channels[d].unsettled {
        assert UnsettledOn(b, d, x);
        assert x in Pending(b, q) <==> b.published[x] == q;
      }
    }
    forall x: nat ensures ReadySomewhere(b', x) <==> ReadySomewhere(b, x) && b.published[x] != q {
      assert x in b.published && b.published[x] != q && b.published[x] in b.queues ==>
        b'.queues[b.published[x]] == b.queues[b.published[x]];
    }
  }

  /** Settling a copy takes it from the one channel that has it. */
  lemma SettledMoves(b: Broker, c: nat, m: nat, b': Broker)
    requires Conserved(b) && UnsettledOn(b, c, m)
    requires b'.channels == b.channels[c := b.channels[c].(unsettled := b.channels[c].unsettled - {m})]
    ensures forall d: nat, x: nat :: UnsettledOn(b', d, x) <==> UnsettledOn(b, d, x) && x != m
  {
    forall d: nat, x: nat ensures UnsettledOn(b', d, x) <==> UnsettledOn(b, d, x) && x != m {
      assert UnsettledOn(b, d, m) ==> d == c;
      if d == c {
        assert x in b'.channels[c].unsettled <==> x in b.channels[c].unsettled && x != m;
      } else {
        assert d in b.channels ==> b'.channels[d] == b.channels[d];
      }
    }
  }

  /** A change that leaves every channel's unsettled copies alone. */
  lemma SameUnsettled(b: Broker, b': Broker)
    requires forall d :: d in b.channels ==> d in b'.channels && b'.channels[d].unsettled == b.channels[d].unsettled
    requires forall d :: d in b'.channels && d !in b.channels ==> b'.channels[d].unsettled == {}
    ensures forall d: nat, x: nat :: UnsettledOn(b', d, x) <==> UnsettledOn(b, d, x)
  {
  }

  lemma AckConserves(b: Broker, c: nat, m: nat)
    requires Conserved(b) && Enabled(b, Ack(c, m))
    ensures Conserved(Apply(b, Ack(c, m)))
  {
    var b' := Apply(b, Ack(c, m));
    assert UnsettledOn(b, c, m);
    SettledMoves(b, c, m, b');
    assert forall x :: ReadySomewhere(b', x) <==> ReadySomewhere(b, x);
  }

  lemma RequeueConserves(b: Broker, c: nat, m: nat)
    requires Conserved(b) && Enabled(b, Requeue(c, m))
    ensures Conserved(Apply(b, Requeue(c, m)))
  {
    var b' := Apply(b, Requeue(c, m));
    assert UnsettledOn(b, c, m);
    SettledMoves(b, c, m, b');
    assert forall x :: ReadySomewhere(b', x) <==> ReadySomewhere(b, x) || x == m;
  }

  lemma DeclareConserves(b: Broker, q: string)
    requires Conserved(b) && Enabled(b, DeclareQueue(q))
    ensures Conserved(Apply(b, DeclareQueue(q)))
  {
    var b' := Apply(b, DeclareQueue(q));
    SameUnsettled(b, b');
    assert forall x :: ReadySomewhere(b', x) <==> ReadySomewhere(b, x);
  }

  /** Opening, configuring, cancelling and reading a channel move no copy. */
  lemma QuietConserves(b: Broker, e: Event)
    requires Conserved(b) && Enabled(b, e)
    requires e.CancelConsumer? || e.OpenChannel? || e.Qos? || e.Consume? || e.Receive?
    ensures Conserved(Apply(b, e))
  {
    var b' := Apply(b, e);
    SameUnsettled(b, b');
    assert forall x :: ReadySomewhere(b', x) <==> ReadySomewhere(b, x);
  }

  /** One channel's part of OneUnsettled. */
  ghost predicate Modest(ch: Channel) {
    && (ch.prefetch != 1 ==> ch.source.None? && ch.unsettled == {})
    && |ch.unsettled| <= 1
  }

  lemma UpdateKeepsOneUnsettled(b: Broker, c: nat, ch: Channel, b': Broker)
    requires OneUnsettled(b) && Modest(ch) && b'.channels == b.channels[c := ch]
    ensures OneUnsettled(b')
  {
  }

  lemma PushIsModest(ch: Channel, m: nat)
    requires Modest(ch) && ch.source.Some? && |ch.unsettled| < ch.prefetch
    ensures Modest(ch.(unsettled := ch.unsettled + {m}, stream := ch.stream + [m]))
  {
    assert ch.unsettled == {};
  }

  lemma FewerIsModest(ch: Channel, unsettled: set<nat>)
    requires Modest(ch) && unsettled <= ch.unsettled
    ensures Modest(ch.(unsettled := unsettled)) && Modest(Cancelled(ch).(unsettled := unsettled))
  {
    SubsetSize(unsettled, ch.unsettled);
  }

  lemma DeleteKeepsOneUnsettled(b: Broker, q: string)
    requires OneUnsettled(b)
    ensures OneUnsettled(Apply(b, DeleteQueue(q)))
  {
    var b' := Apply(b, DeleteQueue(q));
    forall c | c in b'.channels ensures Modest(b'.channels[c]) {
      assert Modest(b.channels[c]);
      FewerIsModest(b.channels[c], b.channels[c].unsettled - Pending(b, q));
    }
  }

  lemma EventKeepsOneUnsettled(b: Broker, e: Event)
    requires OneUnsettled(b) && Enabled(b, e)
    requires e.Qos? ==> e.prefetch == 1
    requires e.Consume? ==> b.channels[e.channel].prefetch == 1
    ensures OneUnsettled(Apply(b, e))
  {
    match e {
      case Publish(_, _) =>
      case DeclareQueue(_) =>
      case DeleteQueue(q) => DeleteKeepsOneUnsettled(b, q);
      case OpenChannel(c) => UpdateKeepsOneUnsettled(b, c, Apply(b, e).channels[c], Apply(b, e));
      case Push(c, m) =>
        assert Modest(b.channels[c]);
        PushIsModest(b.channels[c], m);
        UpdateKeepsOneUnsettled(b, c, Apply(b, e).channels[c], Apply(b, e));
      case _ =>
        var c := e.channel;
        assert Modest(b.channels[c]);
        ChannelEventIsModest(b, e);
        UpdateKeepsOneUnsettled(b, c, Apply(b, e).channels[c], Apply(b, e));
    }
  }

  lemma ChannelEventIsModest(b: Broker, e: Event)
    requires !e.Publish? && !e.DeclareQueue? && !e.DeleteQueue? && !e.OpenChannel? && !e.Push?
    requires Enabled(b, e) && e.channel in b.channels && Modest(b.channels[e.channel])
    requires e.Qos? ==> e.prefetch == 1
    requires e.Consume? ==> b.channels[e.channel].prefetch == 1
    ensures e.channel in Apply(b, e).channels && Modest(Apply(b, e).channels[e.channel])
    ensures Apply(b, e).channels == b.channels[e.channel := Apply(b, e).channels[e.channel]]
  {
    var ch := b.channels[e.channel];
    FewerIsModest(ch, {});
    if e.Ack? || e.Requeue? {
      FewerIsModest(ch, ch.unsettled - {e.copy});
    }
  }

  lemma SubsetSize(a: set<nat>, b: set<nat>)
    requires a <= b
    ensures |a| <= |b|
  {
    assert b == a + (b - a);
  }
}
