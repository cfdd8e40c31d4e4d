/**
 The message registry of message.go: the global slice `messages`, edited in place under msgLock,
 and the operations that edit it and drive the broker towards it. Calls of the consumer manager
 return no error (message.go:358-374), so they leave no trace here.
 */
module Registries {
  import opened Wrappers
  import opened Config
  import opened Declarations
  import opened Mq
  import Topology

  /** A Go slice of consumers that starts at the front of its backing array. */
  datatype Slice = Slice(store: array<Consumer>, len: nat)

  datatype Cell = Cell(header: Header, consumers: Slice)

  /** The place of the first message called `name`, or the length when there is none. */
  function Lookup(ms: seq<Message>, name: string): (i: nat)
    ensures i <= |ms|
    ensures i < |ms| ==> ms[i].header.name == name
    ensures forall j :: 0 <= j < i ==> ms[j].header.name != name
  {
    if ms == [] || ms[0].header.name == name then 0 else 1 + Lookup(ms[1..], name)
  }

  function LookupConsumer(cs: seq<Consumer>, id: string): (i: nat)
    ensures i <= |cs|
    ensures i < |cs| ==> cs[i].id == id
    ensures forall j :: 0 <= j < i ==> cs[j].id != id
  {
    if cs == [] || cs[0].id == id then 0 else 1 + LookupConsumer(cs[1..], id)
  }

  function Without<T>(s: seq<T>, i: nat): seq<T>
    requires i < |s|
  {
    s[..i] + s[i + 1..]
  }

  /** Delete the queues of some consumers, in order. */
  function DeleteQueues(b: Topology.Broker, prefix: string, h: Header, cs: seq<Consumer>): Option<Topology.Broker> {
    if cs == [] then Some(b)
    else
      match DeleteQueues(b, prefix, h, cs[..|cs| - 1])
      case None => None
      case Some(b1) => Topology.DeleteQueue(b1, Topology.QueueName(prefix, h, cs[|cs| - 1]))
  }

  /** What `deleteMessage` does to the broker before it edits the registry. */
  function Dismantle(b: Topology.Broker, prefix: string, m: Message): Option<Topology.Broker> {
    match DeleteQueues(b, prefix, m.header, m.consumers)
    case None => None
    case Some(b1) => Topology.DeleteExchange(b1, Topology.Named(prefix, m.header.name))
  }

  lemma {:induction false} DeleteQueuesStops(b: Topology.Broker, prefix: string, h: Header, cs: seq<Consumer>, n: nat)
    requires n <= |cs| && DeleteQueues(b, prefix, h, cs[..n]).None?
    ensures DeleteQueues(b, prefix, h, cs).None?
    decreases |cs| - n
  {
    if n < |cs| {
      assert cs[..n + 1][..n] == cs[..n];
      DeleteQueuesStops(b, prefix, h, cs, n + 1);
    } else {
      assert cs[..n] == cs;
    }
  }

  /** The first `n` queues have been deleted. */
  ghost predicate Dropped(b: Topology.Broker, prefix: string, h: Header, cs: seq<Consumer>, n: nat, b1: Topology.Broker)
  {
    n <= |cs| && DeleteQueues(b, prefix, h, cs[..n]) == Some(b1)
  }

  lemma {:induction false} DroppedEnds(b: Topology.Broker, prefix: string, h: Header, cs: seq<Consumer>,
                                       b1: Topology.Broker)
    ensures Dropped(b, prefix, h, cs, 0, b)
    ensures Dropped(b, prefix, h, cs, |cs|, b1) ==> DeleteQueues(b, prefix, h, cs) == Some(b1)
  {
    assert cs[..0] == [] && cs[..|cs|] == cs;
  }

  lemma {:induction false} DroppedOneMore(b: Topology.Broker, prefix: string, h: Header, cs: seq<Consumer>, n: nat,
                                          b1: Topology.Broker)
    requires n < |cs| && Dropped(b, prefix, h, cs, n, b1)
    ensures match Topology.DeleteQueue(b1, Topology.QueueName(prefix, h, cs[n]))
      case None => DeleteQueues(b, prefix, h, cs).None?
      case Some(b2) => Dropped(b, prefix, h, cs, n + 1, b2)
  {
    assert cs[..n + 1][..n] == cs[..n];
    if Topology.DeleteQueue(b1, Topology.QueueName(prefix, h, cs[n])).None? {
      DeleteQueuesStops(b, prefix, h, cs, n + 1);
    }
  }

  lemma BindsDeclared(b: Topology.Broker, prefix: string, h: Header, c: Consumer)
    requires Topology.Named(prefix, h.name) in b.exchanges
    ensures var queue := Topology.QueueName(prefix, h, c);
      Topology.Bind(Topology.EnsureQueue(b, queue, h.durable), queue, Topology.Named(prefix, h.name), c.routeKey)
        == Some(Topology.ReconcileConsumer(b, prefix, h, c))
  {
  }

  lemma {:induction false} ReconcileOneMore(b: Topology.Broker, prefix: string, h: Header, cs: seq<Consumer>, n: nat)
    requires n < |cs|
    ensures var b1 := Topology.ReconcileConsumers(b, prefix, h, cs[..n]);
      && b1.exchanges == b.exchanges
      && Topology.ReconcileConsumers(b, prefix, h, cs[..n + 1]) == Topology.ReconcileConsumer(b1, prefix, h, cs[n])
  {
    Topology.ReconcileConsumersEntities(b, prefix, h, cs[..n]);
    assert cs[..n + 1][..n] == cs[..n];
  }

  lemma {:induction false} ReconcileOneMoreMessage(b: Topology.Broker, prefix: string, ms: seq<Message>, n: nat)
    requires n < |ms|
    ensures Topology.Reconcile(b, prefix, ms[..n + 1])
         == Topology.ReconcileMessage(Topology.Reconcile(b, prefix, ms[..n]), prefix, ms[n])
  {
    assert ms[..n + 1][..n] == ms[..n];
  }

  // ---- the broker calls of initMessages and of the deletions ---------------------------------

  ghost function ConsumerPlan(prefix: string, h: Header, c: Consumer): seq<Operation> {
    var queue := Topology.QueueName(prefix, h, c);
    [WantQueue(queue, h.durable)] + [WantBinding(queue, Topology.Named(prefix, h.name), c.routeKey)]
  }

  ghost function ConsumerPlans(prefix: string, h: Header, cs: seq<Consumer>): seq<seq<Operation>> {
    seq(|cs|, k requires 0 <= k < |cs| => ConsumerPlan(prefix, h, cs[k]))
  }

  ghost function MessagePlan(prefix: string, m: Message): seq<Operation> {
    [WantExchange(Topology.Named(prefix, m.header.name), Topology.ExchangeOf(m.header))]
    + InTurn(ConsumerPlans(prefix, m.header, m.consumers))
  }

  ghost function MessagePlans(prefix: string, ms: seq<Message>): seq<seq<Operation>> {
    seq(|ms|, i requires 0 <= i < |ms| => MessagePlan(prefix, ms[i]))
  }

  /** Every call of an initMessages that meets no error. */
  ghost function InitPlan(prefix: string, ms: seq<Message>): seq<Operation> {
    InTurn(MessagePlans(prefix, ms))
  }

  ghost function DropPlan(prefix: string, h: Header, c: Consumer): seq<Operation> {
    [DropQueue(Topology.QueueName(prefix, h, c))]
  }

  ghost function DropPlans(prefix: string, h: Header, cs: seq<Consumer>): seq<seq<Operation>> {
    seq(|cs|, k requires 0 <= k < |cs| => DropPlan(prefix, h, cs[k]))
  }

  /** Every call of a deleteMessage that meets no error, before its initMessages. */
  ghost function DismantlePlan(prefix: string, m: Message): seq<Operation> {
    InTurn(DropPlans(prefix, m.header, m.consumers)) + [DropExchange(Topology.Named(prefix, m.header.name))]
  }

  /** The cell stands for the message. */
  ghost predicate Shows(cell: Cell, m: Message)
    reads cell.consumers.store
  {
    && cell.consumers.len <= cell.consumers.store.Length
    && m == Message(cell.header, cell.consumers.store[..cell.consumers.len])
  }

  class Registry {
    /** The backing array of `messages` and the length of the slice. */
    var messages: array<Cell>
    var count: nat
    const client: Client
    /** The room `append` leaves when it has to grow. */
    const slack: nat
    /** The slice as a value, and the backing arrays in use. */
    ghost var contents: seq<Message>
    ghost var stores: set<array<Consumer>>

    /** Live messages never share a backing array of consumers. */
    ghost predicate Valid()
      reads this, messages, stores, client, client.channels, client.channels.backend
    {
      && client.Valid()
      && count <= messages.Length && |contents| == count
      && (forall i :: 0 <= i < count ==> messages[i].consumers.store in stores && Shows(messages[i], contents[i]))
      && (forall i, j :: 0 <= i < j < count ==> messages[i].consumers.store != messages[j].consumers.store)
    }

    constructor (client: Client, slack: nat)
      requires client.Valid()
      ensures Valid() && contents == [] && this.client == client && fresh(messages) && stores == {}
    {
      this.client, this.slack := client, slack;
      count, contents, stores := 0, [], {};
      var none := new Consumer[0];
      messages := new Cell[0](_ => Cell(Header("", "", false, false, "", ""), Slice(none, 0)));
    }

    /** Replace the slice by a list that was read from the file: every consumer list gets its own array. */
    method Replace(ms: seq<Message>)
      requires Valid()
      modifies this
      ensures Valid() && contents == ms && fresh(messages) && fresh(stores)
    {
      var none := new Consumer[0];
      count, contents, stores := 0, [], {};
      messages := new Cell[0](_ => Cell(Header("", "", false, false, "", ""), Slice(none, 0)));
      var i := 0;
      while i < |ms|
        invariant 0 <= i <= |ms| && Valid() && contents == ms[..i]
        invariant fresh(messages) && fresh(stores)
      {
        AppendCopy(ms[i]);
        assert ms[..i + 1] == ms[..i] + [ms[i]];
        i := i + 1;
      }
      assert ms[..i] == ms;
    }

    /** Append a message whose consumers get a backing array of their own. */
    method AppendCopy(m: Message)
      requires Valid()
      modifies this, messages
      ensures Valid() && (messages == old(messages) || fresh(messages))
      ensures contents == old(contents) + [m] && stores >= old(stores) && fresh(stores - old(stores))
    {
      var cs := m.consumers;
      var store := new Consumer[|cs|](k requires 0 <= k < |cs| => cs[k]);
      assert store[..|cs|] == cs;
      AppendCell(Cell(m.header, Slice(store, |cs|)));
    }

    /** The slice as the value that is written to the file. */
    method Snapshot() returns (ms: seq<Message>)
      requires Valid()
      ensures ms == contents
    {
      ms := [];
      var i := 0;
      while i < count
        invariant 0 <= i <= count && ms == contents[..i]
      {
        var cell := messages[i];
        ms := ms + [Message(cell.header, cell.consumers.store[..cell.consumers.len])];
        i := i + 1;
      }
    }

    /** getMessage: the place of the message, or `count`. */
    method GetMessage(name: string) returns (i: nat)
      requires Valid()
      ensures i == Lookup(contents, name)
    {
      i := 0;
      while i < count
        invariant 0 <= i <= count
        invariant forall j :: 0 <= j < i ==> contents[j].header.name != name
      {
        if messages[i].header.name == name {
          return;
        }
        i := i + 1;
      }
    }

    /** The consumer part of getConsumer. */
    method GetConsumer(i: nat, id: string) returns (k: nat)
      requires Valid() && i < count
      ensures k == LookupConsumer(contents[i].consumers, id)
    {
      var cs := messages[i].consumers;
      k := 0;
      while k < cs.len
        invariant 0 <= k <= cs.len
        invariant forall j :: 0 <= j < k ==> contents[i].consumers[j].id != id
      {
        if cs.store[k].id == id {
          return;
        }
        k := k + 1;
      }
    }

    /** initMessages: declare every exchange and queue and bind every queue, stopping at the first error. */
    method InitMessages(ghost u: nat) returns (err: bool)
      requires Valid()
      modifies client`broker, client`declares, client`deletes, client`calls, client.channels, client.channels.backend
      ensures Valid() && contents == old(contents) && client.channels.leased == old(client.channels.leased)
      ensures Carries(InitPlan(client.prefix, contents), old(client.At()), client.At(), err)
      ensures client.reliable ==>
        !err && client.broker == Topology.Reconcile(old(client.broker), client.prefix, contents)
    {
      ghost var s0, plans := client.At(), MessagePlans(client.prefix, contents);
      var i := 0;
      err := false;
      NoRound(plans, s0);
      while i < count
        invariant 0 <= i <= count && Valid() && contents == old(contents) && !err
        invariant client.channels.leased == old(client.channels.leased)
        invariant Carries(UpTo(plans, i), s0, client.At(), false)
        invariant client.reliable ==> client.broker == Topology.Reconcile(s0.broker, client.prefix, contents[..i])
      {
        ghost var s1 := client.At();
        err := InitMessage(u, i);
        OneMoreRound(plans, i, s0, s1, client.At(), err);
        if err {
          return;
        }
        ReconcileOneMoreMessage(s0.broker, client.prefix, contents, i);
        i := i + 1;
      }
      assert contents[..i] == contents;
    }

    /** One round of the outer loop of initMessages. */
    method InitMessage(ghost u: nat, i: nat) returns (err: bool)
      requires Valid() && i < count
      modifies client`broker, client`declares, client`deletes, client`calls, client.channels, client.channels.backend
      ensures Valid() && contents == old(contents) && client.channels.leased == old(client.channels.leased)
      ensures Carries(MessagePlan(client.prefix, contents[i]), old(client.At()), client.At(), err)
      ensures client.reliable ==>
        !err && client.broker == Topology.ReconcileMessage(old(client.broker), client.prefix, contents[i])
    {
      var h := messages[i].header;
      ghost var s0, attempts, first, second := client.At(), [], NO_FAULTS, NO_FAULTS;
      err, attempts, first, second := client.ExchangeDeclare(u, h.name, h.mode, h.durable);
      ghost var s1, op := client.At(), WantExchange(Topology.Named(client.prefix, h.name), Topology.ExchangeOf(h));
      ghost var rest := InTurn(ConsumerPlans(client.prefix, h, contents[i].consumers));
      if err {
        CarriesStops([op], s0, s1, rest);
      } else {
        err := InitConsumers(u, i);
        CarriesOn([op], s0, s1, rest, client.At(), err);
      }
    }

    /** The inner loop of initMessages. */
    method InitConsumers(ghost u: nat, i: nat) returns (err: bool)
      requires Valid() && i < count
      requires client.reliable ==> Topology.Named(client.prefix, contents[i].header.name) in client.broker.exchanges
      modifies client`broker, client`declares, client`deletes, client`calls, client.channels, client.channels.backend
      ensures Valid() && contents == old(contents) && client.channels.leased == old(client.channels.leased)
      ensures var plans := ConsumerPlans(client.prefix, contents[i].header, contents[i].consumers);
        Carries(InTurn(plans), old(client.At()), client.At(), err)
      ensures client.reliable ==>
        && !err
        && client.broker == Topology.ReconcileConsumers(old(client.broker), client.prefix, contents[i].header,
                                                        contents[i].consumers)
    {
      var h, cs := messages[i].header, messages[i].consumers;
      ghost var s0, all := client.At(), contents[i].consumers;
      ghost var plans := ConsumerPlans(client.prefix, h, all);
      var j := 0;
      err := false;
      NoRound(plans, s0);
      while j < cs.len
        invariant 0 <= j <= cs.len && Valid() && contents == old(contents) && !err
        invariant client.channels.leased == old(client.channels.leased)
        invariant Carries(UpTo(plans, j), s0, client.At(), false)
        invariant client.reliable ==>
          client.broker == Topology.ReconcileConsumers(s0.broker, client.prefix, h, all[..j])
      {
        ReconcileOneMore(s0.broker, client.prefix, h, all, j);
        ghost var s1 := client.At();
        err := InitConsumer(u, h, cs.store[j]);
        OneMoreRound(plans, j, s0, s1, client.At(), err);
        if err {
          return;
        }
        j := j + 1;
      }
      assert all[..j] == all;
    }

    /** One round of the inner loop: declare the consumer's queue and bind it. */
    method InitConsumer(ghost u: nat, h: Header, c: Consumer) returns (err: bool)
      requires Valid()
      requires client.reliable ==> Topology.Named(client.prefix, h.name) in client.broker.exchanges
      modifies client`broker, client`declares, client`deletes, client`calls, client.channels, client.channels.backend
      ensures Valid() && contents == old(contents) && client.channels.leased == old(client.channels.leased)
      ensures Carries(ConsumerPlan(client.prefix, h, c), old(client.At()), client.At(), err)
      ensures client.reliable ==>
        !err && client.broker == Topology.ReconcileConsumer(old(client.broker), client.prefix, h, c)
    {
      ghost var s0, queue := client.At(), Topology.QueueName(client.prefix, h, c);
      ghost var declare := WantQueue(queue, h.durable);
      ghost var bind := WantBinding(queue, Topology.Named(client.prefix, h.name), c.routeKey);
      ghost var attempts, first, second;
      err, attempts, first, second := client.QueueDeclare(u, ConsumerKey(h.name, c.id), h.durable);
      ghost var s1 := client.At();
      if err {
        CarriesStops([declare], s0, s1, [bind]);
      } else {
        if client.reliable {
          BindsDeclared(s0.broker, client.prefix, h, c);
        }
        err := client.QueueBindToExchange(u, ConsumerKey(h.name, c.id), h.name, c.routeKey);
        CarriesOn([declare], s0, s1, [bind], client.At(), err);
      }
    }

    /** addMessage: append a message with no consumers; errors of initMessages are ignored. */
    method AddMessage(ghost u: nat, h: Header) returns (ghost failed: bool)
      requires Valid()
      modifies this, messages, client`broker, client`declares, client`deletes, client`calls, client.channels,
               client.channels.backend
      ensures Valid() && client.channels.leased == old(client.channels.leased)
      ensures messages == old(messages) || fresh(messages)
      ensures stores >= old(stores) && fresh(stores - old(stores))
      ensures contents == old(contents) + [Message(h, [])]
      ensures Carries(InitPlan(client.prefix, contents), old(client.At()), client.At(), failed)
      ensures client.reliable ==> client.broker == Topology.Reconcile(old(client.broker), client.prefix, contents)
    {
      var none := new Consumer[0];
      AppendCell(Cell(h, Slice(none, 0)));
      var err := InitMessages(u);
      failed := err;
    }

    /** publish: the message must exist and its token, if it needs one, must match. */
    method Publish(ghost u: nat, name: string, token: string)
      returns (err: string, ghost sent: bool, ghost fault: Fault)
      requires Valid()
      modifies client.channels, client.channels.backend
      ensures Valid() && client.channels.leased == old(client.channels.leased)
      ensures var i := Lookup(contents, name);
        if i == |contents| then err == "message not found" && !sent
        else if contents[i].header.isNeedToken && token != contents[i].header.token then err == "token error" && !sent
        else (err == "" <==> fault == NO_FAULT) && (sent <==> !fault.noChannel && !fault.before)
      ensures err == "" ==> sent
      ensures client.reliable ==> fault == NO_FAULT
    {
      sent, fault := false, NO_FAULT;
      var i := GetMessage(name);
      if i == count {
        return "message not found", sent, fault;
      }
      if messages[i].header.isNeedToken && token != messages[i].header.token {
        return "token error", sent, fault;
      }
      var failed;
      failed, sent, fault := client.Publish(u);
      err := if failed then "publish failed" else "";
    }

    /** Move the messages to a larger array. */
    method GrowMessages(filler: Cell)
      requires Valid()
      modifies this`messages
      ensures Valid() && fresh(messages) && count < messages.Length
    {
      var grown := new Cell[count + 1 + slack](_ => filler);
      forall i | 0 <= i < count {
        grown[i] := messages[i];
      }
      messages := grown;
    }

    /** `append` on the slice of messages: in place when there is room, else into a new array. */
    method AppendCell(cell: Cell)
      requires Valid()
      requires cell.consumers.store !in stores && cell.consumers.len <= cell.consumers.store.Length
      modifies this, messages
      ensures Valid() && (messages == old(messages) || fresh(messages))
      ensures stores == old(stores) + {cell.consumers.store}
      ensures contents == old(contents) + [Message(cell.header, cell.consumers.store[..cell.consumers.len])]
    {
      if count == messages.Length {
        GrowMessages(cell);
      }
      PlaceCell(cell);
    }

    /** The place after the last message. */
    method PlaceCell(cell: Cell)
      requires Valid() && count < messages.Length
      requires cell.consumers.store !in stores && cell.consumers.len <= cell.consumers.store.Length
      modifies this`count, this`contents, this`stores, messages
      ensures Valid() && stores == old(stores) + {cell.consumers.store}
      ensures contents == old(contents) + [Message(cell.header, cell.consumers.store[..cell.consumers.len])]
    {
      messages[count] := cell;
      count := count + 1;
      stores := stores + {cell.consumers.store};
      contents := contents + [Message(cell.header, cell.consumers.store[..cell.consumers.len])];
    }

    /** updateMessage: replace the header, keep the consumers. */
    method UpdateMessage(ghost u: nat, h: Header) returns (err: bool, ghost failed: bool)
      requires Valid()
      modifies this, messages, client`broker, client`declares, client`deletes, client`calls, client.channels,
               client.channels.backend
      ensures Valid() && messages == old(messages) && stores == old(stores)
      ensures client.channels.leased == old(client.channels.leased)
      ensures var i := Lookup(old(contents), h.name);
        && (err <==> i == |old(contents)|)
        && (err ==> contents == old(contents) && client.broker == old(client.broker))
        && (!err ==> contents == old(contents)[i := Message(h, old(contents)[i].consumers)])
      ensures if err then client.At() == old(client.At())
              else Carries(InitPlan(client.prefix, contents), old(client.At()), client.At(), failed)
      ensures !err && client.reliable ==>
        client.broker == Topology.Reconcile(old(client.broker), client.prefix, contents)
    {
      var i := GetMessage(h.name);
      if i == count {
        return true, false;
      }
      messages[i] := Cell(h, messages[i].consumers);
      contents := contents[i := Message(h, contents[i].consumers)];
      var ignored := InitMessages(u);
      err, failed := false, ignored;
    }

    /** `append(messages[:i], messages[i+1:]...)`: shift the tail down in place. */
    method RemoveCell(i: nat)
      requires Valid() && i < count
      modifies this, messages
      ensures Valid() && messages == old(messages) && stores == old(stores)
      ensures contents == Without(old(contents), i)
    {
      forall j | i <= j < count - 1 {
        messages[j] := messages[j + 1];
      }
      count := count - 1;
      contents := Without(contents, i);
    }

    /** deleteMessage: delete the queues and the exchange, then the entry; any failure before that
        leaves the registry as it was. */
    method DeleteMessage(ghost u: nat, name: string) 
      returns (err: bool, ghost gone: Progress, ghost failed: bool)
      requires Valid()
      modifies this, messages, client`broker, client`declares, client`deletes, client`calls, client.channels,
               client.channels.backend
      ensures Valid() && messages == old(messages) && stores == old(stores)
      ensures client.channels.leased == old(client.channels.leased)
      ensures var i := Lookup(old(contents), name);
        if i == |old(contents)| then gone == old(client.At())
        else Carries(DismantlePlan(client.prefix, old(contents)[i]), old(client.At()), gone, err)
      ensures if err then client.At() == gone
              else Carries(InitPlan(client.prefix, contents), gone, client.At(), failed)
      ensures var i := Lookup(old(contents), name);
        && (i == |old(contents)| ==> err)
        && (err ==> contents == old(contents))
        && (!err ==> contents == Without(old(contents), i))
        && (client.reliable && i < |old(contents)| ==>
             var gone := Dismantle(old(client.broker), client.prefix, old(contents)[i]);
             && (err <==> gone.None?)
             && (!err ==> client.broker == Topology.Reconcile(gone.value, client.prefix, contents)))
    {
      gone, failed := client.At(), false;
      var i := GetMessage(name);
      if i == count {
        return true, gone, failed;
      }
      err := DismantleMessage(u, i);
      gone := client.At();
      if err {
        return;
      }
      RemoveCell(i);
      var ignored := InitMessages(u);
      failed := ignored;
    }

    /** The broker part of deleteMessage, stopping at the first error. */
    method DismantleMessage(ghost u: nat, i: nat) returns (err: bool)
      requires Valid() && i < count
      modifies client`broker, client`calls, client.channels, client.channels.backend
      ensures Valid() && contents == old(contents) && client.channels.leased == old(client.channels.leased)
      ensures Carries(DismantlePlan(client.prefix, contents[i]), old(client.At()), client.At(), err)
      ensures client.reliable ==>
        var gone := Dismantle(old(client.broker), client.prefix, contents[i]);
        (err <==> gone.None?) && (!err ==> client.broker == gone.value)
    {
      var h := messages[i].header;
      ghost var s0, plan := client.At(), InTurn(DropPlans(client.prefix, h, contents[i].consumers));
      ghost var last := DropExchange(Topology.Named(client.prefix, h.name));
      err := DropQueues(u, i);
      ghost var s1 := client.At();
      if err {
        CarriesStops(plan, s0, s1, [last]);
      } else {
        err := client.DeleteExchange(u, h.name);
        CarriesOn(plan, s0, s1, [last], client.At(), err);
      }
    }

    /** The loop of deleteMessage. */
    method DropQueues(ghost u: nat, i: nat) returns (err: bool)
      requires Valid() && i < count
      modifies client`broker, client`calls, client.channels, client.channels.backend
      ensures Valid() && contents == old(contents) && client.channels.leased == old(client.channels.leased)
      ensures var plans := DropPlans(client.prefix, contents[i].header, contents[i].consumers);
        Carries(InTurn(plans), old(client.At()), client.At(), err)
      ensures client.reliable ==>
        var gone := DeleteQueues(old(client.broker), client.prefix, contents[i].header, contents[i].consumers);
        (err <==> gone.None?) && (!err ==> client.broker == gone.value)
    {
      ghost var s0, cs := client.At(), contents[i].consumers;
      ghost var plans := DropPlans(client.prefix, contents[i].header, cs);
      var j := 0;
      err := false;
      NoRound(plans, s0);
      DroppedEnds(s0.broker, client.prefix, contents[i].header, cs, s0.broker);
      while j < messages[i].consumers.len
        invariant 0 <= j <= messages[i].consumers.len && Valid() && contents == old(contents) && !err
        invariant client.channels.leased == old(client.channels.leased)
        invariant Carries(UpTo(plans, j), s0, client.At(), false)
        invariant client.reliable ==> Dropped(s0.broker, client.prefix, contents[i].header, cs, j, client.broker)
      {
        err := DropOne(u, i, j, s0);
        if err {
          return;
        }
        j := j + 1;
      }
      DroppedEnds(s0.broker, client.prefix, contents[i].header, cs, client.broker);
    }

    /** One round of that loop, after `j` others since `s`. */
    method DropOne(ghost u: nat, i: nat, j: nat, ghost s: Progress) returns (err: bool)
      requires Valid() && i < count && j < |contents[i].consumers|
      requires var plans := DropPlans(client.prefix, contents[i].header, contents[i].consumers);
        Carries(UpTo(plans, j), s, client.At(), false)
      requires client.reliable ==>
        Dropped(s.broker, client.prefix, contents[i].header, contents[i].consumers, j, client.broker)
      modifies client`broker, client`calls, client.channels, client.channels.backend
      ensures Valid() && contents == old(contents) && client.channels.leased == old(client.channels.leased)
      ensures var plans := DropPlans(client.prefix, contents[i].header, contents[i].consumers);
        if err then Carries(InTurn(plans), s, client.At(), true)
        else Carries(UpTo(plans, j + 1), s, client.At(), false)
      ensures client.reliable ==>
        if err then DeleteQueues(s.broker, client.prefix, contents[i].header, contents[i].consumers).None?
        else Dropped(s.broker, client.prefix, contents[i].header, contents[i].consumers, j + 1, client.broker)
    {
      var h, c := messages[i].header, messages[i].consumers.store[j];
      ghost var t, cs := client.At(), contents[i].consumers;
      assert h == contents[i].header && c == cs[j];
      err := client.DeleteQueue(u, ConsumerKey(h.name, c.id));
      OneMoreRound(DropPlans(client.prefix, h, cs), j, s, t, client.At(), err);
      if client.reliable {
        DroppedOneMore(s.broker, client.prefix, h, cs, j, t.broker);
      }
    }

    /** addConsumer: append to the consumers of one message. */
    method AddConsumer(ghost u: nat, name: string, c: Consumer) returns (err: bool, ghost failed: bool)
      requires Valid()
      modifies this, messages, stores, client`broker, client`declares, client`deletes, client`calls,
               client.channels, client.channels.backend
      ensures Valid() && messages == old(messages) && stores >= old(stores) && fresh(stores - old(stores))
      ensures client.channels.leased == old(client.channels.leased)
      ensures var i := Lookup(old(contents), name);
        && (err <==> i == |old(contents)|)
        && (err ==> contents == old(contents) && client.broker == old(client.broker))
        && (!err ==> contents == old(contents)[i := Message(old(contents)[i].header, old(contents)[i].consumers + [c])])
      ensures if err then client.At() == old(client.At())
              else Carries(InitPlan(client.prefix, contents), old(client.At()), client.At(), failed)
      ensures !err && client.reliable ==>
        client.broker == Topology.Reconcile(old(client.broker), client.prefix, contents)
    {
      var i := GetMessage(name);
      if i == count {
        return true, false;
      }
      AppendConsumer(i, c);
      var ignored := InitMessages(u);
      err, failed := false, ignored;
    }

    /** Move the consumers of message `i` to a larger array of its own. */
    method GrowConsumers(i: nat, filler: Consumer)
      requires Valid() && i < count
      modifies this`stores, messages
      ensures Valid() && stores >= old(stores) && fresh(stores - old(stores))
      ensures messages[i].consumers.len < messages[i].consumers.store.Length
    {
      var cs := messages[i].consumers;
      var store := new Consumer[cs.len + 1 + slack](_ => filler);
      forall k | 0 <= k < cs.len {
        store[k] := cs.store[k];
      }
      stores := stores + {store};
      messages[i] := Cell(messages[i].header, Slice(store, cs.len));
      assert store[..cs.len] == cs.store[..cs.len];
    }

    /** `append` on the consumers of message `i`; in place it writes to that message's own array. */
    method AppendConsumer(i: nat, c: Consumer)
      requires Valid() && i < count
      modifies this, messages, stores
      ensures Valid() && messages == old(messages) && stores >= old(stores) && fresh(stores - old(stores))
      ensures contents == old(contents)[i := Message(old(contents)[i].header, old(contents)[i].consumers + [c])]
    {
      if messages[i].consumers.len == messages[i].consumers.store.Length {
        GrowConsumers(i, c);
      }
      PlaceConsumer(i, c);
    }

    /** The place after the last consumer of message `i`. */
    method PlaceConsumer(i: nat, c: Consumer)
      requires Valid() && i < count && messages[i].consumers.len < messages[i].consumers.store.Length
      modifies this`contents, messages, messages[i].consumers.store
      ensures Valid()
      ensures contents == old(contents)[i := Message(old(contents)[i].header, old(contents)[i].consumers + [c])]
    {
      var cs := messages[i].consumers;
      cs.store[cs.len] := c;
      messages[i] := Cell(messages[i].header, Slice(cs.store, cs.len + 1));
      contents := contents[i := Message(contents[i].header, contents[i].consumers + [c])];
    }

    /** updateConsumer: overwrite one consumer in place; the broker is left to the worker. */
    method UpdateConsumer(name: string, c: Consumer) returns (err: bool)
      requires Valid()
      modifies this, stores
      ensures Valid() && messages == old(messages) && stores == old(stores)
      ensures client.broker == old(client.broker) && client.channels.leased == old(client.channels.leased)
      ensures var i := Lookup(old(contents), name);
        if i == |old(contents)| then err && contents == old(contents)
        else
          var k := LookupConsumer(old(contents)[i].consumers, c.id);
          if k == |old(contents)[i].consumers| then err && contents == old(contents)
          else
            && !err
            && contents == old(contents)[i := Message(old(contents)[i].header, old(contents)[i].consumers[k := c])]
    {
      var i := GetMessage(name);
      if i == count {
        return true;
      }
      var k := GetConsumer(i, c.id);
      if k == messages[i].consumers.len {
        return true;
      }
      messages[i].consumers.store[k] := c;
      contents := contents[i := Message(contents[i].header, contents[i].consumers[k := c])];
      err := false;
    }

    /** In-place removal of one consumer: the tail of that message's array moves down. */
    method RemoveConsumer(i: nat, k: nat)
      requires Valid() && i < count && k < |contents[i].consumers|
      modifies this, messages, stores
      ensures Valid() && messages == old(messages) && stores == old(stores)
      ensures contents == old(contents)[i := Message(old(contents)[i].header, Without(old(contents)[i].consumers, k))]
    {
      var cs := messages[i].consumers;
      forall j | k <= j < cs.len - 1 {
        cs.store[j] := cs.store[j + 1];
      }
      assert cs.store[..cs.len - 1] == Without(contents[i].consumers, k);
      messages[i] := Cell(messages[i].header, Slice(cs.store, cs.len - 1));
      contents := contents[i := Message(contents[i].header, Without(contents[i].consumers, k))];
    }

    /** deleteConsumer: the entry goes first, so a later failure is reported with the entry gone. */
    method DeleteConsumer(ghost u: nat, name: string, id: string) returns (err: bool)
      requires Valid()
      modifies this, messages, stores, client`broker, client`declares, client`deletes, client`calls,
               client.channels, client.channels.backend
      ensures Valid() && messages == old(messages) && stores == old(stores)
      ensures client.channels.leased == old(client.channels.leased)
      ensures var i := Lookup(old(contents), name);
        if i == |old(contents)| then
          err && contents == old(contents) && client.At() == old(client.At())
        else
          var k := LookupConsumer(old(contents)[i].consumers, id);
          if k == |old(contents)[i].consumers| then
            err && contents == old(contents) && client.At() == old(client.At())
          else
            && contents == old(contents)[i := Message(old(contents)[i].header, Without(old(contents)[i].consumers, k))]
            && (var drop := DropQueue(Topology.Named(client.prefix, ConsumerKey(name, id)));
               Carries(InitPlan(client.prefix, contents) + [drop], old(client.At()), client.At(), err))
            && (client.reliable ==>
                 var gone := Topology.DeleteQueue(Topology.Reconcile(old(client.broker), client.prefix, contents),
                                                  Topology.Named(client.prefix, ConsumerKey(name, id)));
                 (err <==> gone.None?) && (!err ==> client.broker == gone.value))
    {
      var i := GetMessage(name);
      if i == count {
        return true;
      }
      var k := GetConsumer(i, id);
      if k == messages[i].consumers.len {
        return true;
      }
      RemoveConsumer(i, k);
      err := InitAndDrop(u, ConsumerKey(name, id));
    }

    /** The broker part of deleteConsumer: the queue is deleted only after an initMessages without error. */
    method InitAndDrop(ghost u: nat, key: string) returns (err: bool)
      requires Valid()
      modifies client`broker, client`declares, client`deletes, client`calls, client.channels, client.channels.backend
      ensures Valid() && contents == old(contents) && client.channels.leased == old(client.channels.leased)
      ensures var drop := DropQueue(Topology.Named(client.prefix, key));
        Carries(InitPlan(client.prefix, contents) + [drop], old(client.At()), client.At(), err)
      ensures client.reliable ==>
        var gone := Topology.DeleteQueue(Topology.Reconcile(old(client.broker), client.prefix, contents),
                                         Topology.Named(client.prefix, key));
        (err <==> gone.None?) && (!err ==> client.broker == gone.value)
    {
      ghost var s0, drop := client.At(), DropQueue(Topology.Named(client.prefix, key));
      err := InitMessages(u);
      ghost var s1 := client.At();
      if err {
        CarriesStops(InitPlan(client.prefix, contents), s0, s1, [drop]);
      } else {
        err := client.DeleteQueue(u, key);
        CarriesOn(InitPlan(client.prefix, contents), s0, s1, [drop], client.At(), err);
      }
    }
  }
}
