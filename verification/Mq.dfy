/**
 The broker calls of mq.go, each over one or more channels leased from the channel pool. Every
 environment call may fail unless the client is declared reliable; an operation that fails may or
 may not have reached the broker.
 */
module Mq {
  import opened Wrappers
  import opened PoolLedger
  import opened NetPools
  import opened Topology
  import opened Declarations

  class Client {
    const prefix: string
    const reliable: bool
    const channels: NetPool<nat>
    var broker: Topology.Broker
    /** Broker calls made, in order. */
    ghost var declares: nat
    ghost var deletes: nat
    /** Calls of the methods below that change the topology, in order. */
    ghost var calls: seq<BrokerCall>

    ghost predicate Valid()
      reads this, channels, channels.backend
    {
      channels.Valid() && (reliable ==> channels.backend.reliable)
    }

    ghost function At(): Progress
      reads this
    {
      Progress(calls, broker)
    }

    constructor (prefix: string, reliable: bool, channels: NetPool<nat>, broker: Topology.Broker)
      requires channels.Valid() && (reliable ==> channels.backend.reliable)
      ensures Valid() && this.prefix == prefix && this.reliable == reliable && this.channels == channels
      ensures this.broker == broker
    {
      this.prefix, this.reliable, this.channels, this.broker := prefix, reliable, channels, broker;
      declares, deletes, calls := 0, 0, [];
    }

    /** getMqChannel: on failure the caller is left with a typed nil pointer. */
    method GetMqChannel(ghost u: nat) returns (channel: Conn, ok: bool)
      requires Valid()
      modifies channels, channels.backend
      ensures Valid() && (reliable ==> ok)
      ensures ok ==> channel.Real? && channel.id !in old(channels.leased)
      ensures ok ==> channels.leased == old(channels.leased)[channel.id := u]
      ensures !ok ==> channel == TypedNil && channels.leased == old(channels.leased)
    {
      ghost var p := channels.View();
      ghost var skip, out;
      channel, ok, skip, out := channels.Get(u);
      if out.Found? {
        assert p.idle[skip] in p.idle;
      }
      if !ok {
        channel := TypedNil;
      }
    }

    /** channelPools.Put(channel), by the caller that got it. */
    method PutChannel(ghost u: nat, channel: Conn)
      requires Valid()
      requires channel.Real? ==> channel.id in channels.leased && channels.leased[channel.id] == u
      modifies channels, channels.backend
      ensures Valid()
      ensures channels.leased == if channel.Real? then old(channels.leased) - {channel.id} else old(channels.leased)
    {
      ghost var active := channels.Put(u, channel);
    }

    /** Nondeterministic faults before and after a broker operation. */
    method Interference() returns (before: bool, after: bool)
      ensures reliable ==> !before && !after
    {
      before, after := *, *;
      if reliable {
        before, after := false, false;
      }
    }

    /** One broker operation whose effect would be `result`. */
    method Call(result: Option<Topology.Broker>) returns (ok: bool, ghost fault: Fault)
      modifies this`broker
      ensures (broker, ok) == Carried(old(broker), result, fault) && !fault.noChannel
      ensures reliable ==> fault == NO_FAULT
    {
      var before, after := Interference();
      fault := Fault(false, before, after);
      ok := false;
      if !before && result.Some? {
        broker := result.value;
        ok := !after;
      }
    }

    /** Get a channel, make one broker operation on it if there is one, and put back what was got:
        a channel, or the typed nil of a failed get. */
    method OnChannel(ghost u: nat, result: Option<Topology.Broker>) returns (got: bool, ok: bool, ghost fault: Fault)
      requires Valid()
      modifies this`broker, channels, channels.backend
      ensures Valid() && channels.leased == old(channels.leased)
      ensures (got <==> !fault.noChannel) && (broker, ok) == Carried(old(broker), result, fault)
      ensures reliable ==> fault == NO_FAULT
    {
      var channel;
      channel, got := GetMqChannel(u);
      ok, fault := false, Fault(true, false, false);
      if got {
        ok, fault := Call(result);
      }
      PutChannel(u, channel);
    }

    /** Note a call that has just been made from broker `b`. */
    ghost method Note(b: Topology.Broker, op: Operation, first: Faults, second: Faults, err: bool)
      requires (broker, err) == CallResult(b, op, first, second)
      modifies this`calls
      ensures Carries([op], Progress(old(calls), b), At(), err)
    {
      ghost var s := Progress(calls, b);
      calls := calls + [BrokerCall(op, first, second, err)];
      CarriesOne(s, BrokerCall(op, first, second, err), At());
    }

    /** From the RETRY label to the next jump or return: declare, and on failure delete. */
    method QueueAttempt(ghost u: nat, name: string, durable: bool)
      returns (done: bool, err: bool, ghost attempt: Attempt, ghost faults: Faults)
      requires Valid()
      modifies this`broker, this`declares, this`deletes, channels, channels.backend
      ensures Valid() && channels.leased == old(channels.leased)
      ensures (attempt, broker) == AttemptOf(old(broker), DeclaringQueue(name, durable), DeletingQueue(name), faults)
      ensures (done <==> !attempt.DeletedIt?) && (err <==> !(attempt.DeclaredIt? || attempt == DeletedIt(true)))
      ensures declares == old(declares) + (if attempt.NoChannel? then 0 else 1)
      ensures deletes == old(deletes) + (if attempt.DeletedIt? then 1 else 0)
      ensures reliable ==> faults == NO_FAULTS
    {
      faults := NO_FAULTS;
      var got, ok;
      ghost var fault;
      got, ok, fault := OnChannel(u, Topology.DeclareQueue(broker, name, durable));
      faults := faults.(declare := fault);
      if !got {
        return true, true, NoChannel, faults;
      }
      declares := declares + 1;
      if ok {
        return true, false, DeclaredIt, faults;
      }
      got, ok, fault := OnChannel(u, Topology.DeleteQueue(broker, name));
      faults := faults.(delete := fault);
      if !got {
        return true, true, NoDeleteChannel, faults;
      }
      deletes := deletes + 1;
      return false, !ok, DeletedIt(ok), faults;
    }

    method QueueDeclare(ghost u: nat, key: string, durable: bool)
      returns (err: bool, ghost attempts: seq<Attempt>, ghost first: Faults, ghost second: Faults)
      requires Valid()
      modifies this`broker, this`declares, this`deletes, this`calls, channels, channels.backend
      ensures Valid() && channels.leased == old(channels.leased)
      ensures Carries([WantQueue(Named(prefix, key), durable)], old(At()), At(), err)
      ensures (attempts, broker) == QueueAttempts(old(broker), Named(prefix, key), durable, first, second)
      ensures DeclareLoop(attempts) && (err <==> !ReturnsNil(attempts))
      ensures declares == old(declares) + Declares(attempts) && deletes == old(deletes) + Deletes(attempts)
      ensures reliable ==> first == NO_FAULTS == second
      ensures !err ==>
        var misled := Misled(QueueState(old(broker), Named(prefix, key), durable), first, second);
        QueueState(broker, Named(prefix, key), durable) == if misled then Absent else Matching
      ensures reliable ==> !err && broker == EnsureQueue(old(broker), Named(prefix, key), durable)
    {
      err, attempts, first, second := QueueTries(u, prefix + key, durable);
      QueueDeclareEnds(old(broker), Named(prefix, key), durable, first, second);
      Note(old(broker), WantQueue(Named(prefix, key), durable), first, second, err);
    }

    /** The loop of queueDeclare. */
    method QueueTries(ghost u: nat, name: string, durable: bool)
      returns (err: bool, ghost attempts: seq<Attempt>, ghost first: Faults, ghost second: Faults)
      requires Valid()
      modifies this`broker, this`declares, this`deletes, channels, channels.backend
      ensures Valid() && channels.leased == old(channels.leased)
      ensures Tried(old(broker), DeclaringQueue(name, durable), DeletingQueue(name), first, second, attempts, broker,
                    err, reliable)
      ensures declares == old(declares) + Declares(attempts) && deletes == old(deletes) + Deletes(attempts)
    {
      var maxRetryCount, retryCount := 1, 0;
      ghost var declaring, deleting := DeclaringQueue(name, durable), DeletingQueue(name);
      attempts, first, second, err := [], NO_FAULTS, NO_FAULTS, false;
      TryingStarts(broker, declaring, deleting, err, reliable);
      while retryCount <= maxRetryCount
        invariant |attempts| == retryCount && Valid() && channels.leased == old(channels.leased)
        invariant declares == old(declares) + Declares(attempts) && deletes == old(deletes) + Deletes(attempts)
        invariant Trying(old(broker), declaring, deleting, first, second, attempts, broker, err, reliable)
        decreases 2 - retryCount
      {
        ghost var middle, before := broker, err;
        var done;
        ghost var attempt, faults;
        done, err, attempt, faults := QueueAttempt(u, name, durable);
        attempts, first, second := OneMoreAttempt(old(broker), declaring, deleting, first, second, attempts, middle,
                                                  before, reliable, faults, attempt, broker, err);
        if done {
          return;
        }
        retryCount := retryCount + 1;
      }
      TryingEnds(old(broker), declaring, deleting, first, second, attempts, broker, err, reliable);
    }

    /** From the RETRY label to the next jump or return: declare, and on failure delete. */
    method ExchangeAttempt(ghost u: nat, name: string, e: Exchange)
      returns (done: bool, err: bool, ghost attempt: Attempt, ghost faults: Faults)
      requires Valid()
      modifies this`broker, this`declares, this`deletes, channels, channels.backend
      ensures Valid() && channels.leased == old(channels.leased)
      ensures (attempt, broker) == AttemptOf(old(broker), DeclaringExchange(name, e), DeletingExchange(name), faults)
      ensures (done <==> !attempt.DeletedIt?) && (err <==> !(attempt.DeclaredIt? || attempt == DeletedIt(true)))
      ensures declares == old(declares) + (if attempt.NoChannel? then 0 else 1)
      ensures deletes == old(deletes) + (if attempt.DeletedIt? then 1 else 0)
      ensures reliable ==> faults == NO_FAULTS
    {
      faults := NO_FAULTS;
      var got, ok;
      ghost var fault;
      got, ok, fault := OnChannel(u, Topology.DeclareExchange(broker, name, e));
      faults := faults.(declare := fault);
      if !got {
        return true, true, NoChannel, faults;
      }
      declares := declares + 1;
      if ok {
        return true, false, DeclaredIt, faults;
      }
      got, ok, fault := OnChannel(u, Topology.DeleteExchange(broker, name));
      faults := faults.(delete := fault);
      if !got {
        return true, true, NoDeleteChannel, faults;
      }
      deletes := deletes + 1;
      return false, !ok, DeletedIt(ok), faults;
    }

    method ExchangeDeclare(ghost u: nat, exchange: string, kind: string, durable: bool)
      returns (err: bool, ghost attempts: seq<Attempt>, ghost first: Faults, ghost second: Faults)
      requires Valid()
      modifies this`broker, this`declares, this`deletes, this`calls, channels, channels.backend
      ensures Valid() && channels.leased == old(channels.leased)
      ensures Carries([WantExchange(Named(prefix, exchange), Exchange(kind, durable))], old(At()), At(), err)
      ensures (attempts, broker)
          == ExchangeAttempts(old(broker), Named(prefix, exchange), Exchange(kind, durable), first, second)
      ensures DeclareLoop(attempts) && (err <==> !ReturnsNil(attempts))
      ensures declares == old(declares) + Declares(attempts) && deletes == old(deletes) + Deletes(attempts)
      ensures reliable ==> first == NO_FAULTS == second
      ensures !err ==>
        var misled := Misled(ExchangeState(old(broker), Named(prefix, exchange), Exchange(kind, durable)), first,
                             second);
        ExchangeState(broker, Named(prefix, exchange), Exchange(kind, durable)) == if misled then Absent else Matching
      ensures reliable ==>
        !err && broker == EnsureExchange(old(broker), Named(prefix, exchange), Exchange(kind, durable))
    {
      err, attempts, first, second := ExchangeTries(u, prefix + exchange, Exchange(kind, durable));
      ExchangeDeclareEnds(old(broker), Named(prefix, exchange), Exchange(kind, durable), first, second);
      Note(old(broker), WantExchange(Named(prefix, exchange), Exchange(kind, durable)), first, second, err);
    }

    /** The loop of exchangeDeclare. */
    method ExchangeTries(ghost u: nat, name: string, e: Exchange)
      returns (err: bool, ghost attempts: seq<Attempt>, ghost first: Faults, ghost second: Faults)
      requires Valid()
      modifies this`broker, this`declares, this`deletes, channels, channels.backend
      ensures Valid() && channels.leased == old(channels.leased)
      ensures Tried(old(broker), DeclaringExchange(name, e), DeletingExchange(name), first, second, attempts, broker,
                    err, reliable)
      ensures declares == old(declares) + Declares(attempts) && deletes == old(deletes) + Deletes(attempts)
    {
      var maxRetryCount, retryCount := 1, 0;
      ghost var declaring, deleting := DeclaringExchange(name, e), DeletingExchange(name);
      attempts, first, second, err := [], NO_FAULTS, NO_FAULTS, false;
      TryingStarts(broker, declaring, deleting, err, reliable);
      while retryCount <= maxRetryCount
        invariant |attempts| == retryCount && Valid() && channels.leased == old(channels.leased)
        invariant declares == old(declares) + Declares(attempts) && deletes == old(deletes) + Deletes(attempts)
        invariant Trying(old(broker), declaring, deleting, first, second, attempts, broker, err, reliable)
        decreases 2 - retryCount
      {
        ghost var middle, before := broker, err;
        var done;
        ghost var attempt, faults;
        done, err, attempt, faults := ExchangeAttempt(u, name, e);
        attempts, first, second := OneMoreAttempt(old(broker), declaring, deleting, first, second, attempts, middle,
                                                  before, reliable, faults, attempt, broker, err);
        if done {
          return;
        }
        retryCount := retryCount + 1;
      }
      TryingEnds(old(broker), declaring, deleting, first, second, attempts, broker, err, reliable);
    }

    method QueueBindToExchange(ghost u: nat, key: string, exchange: string, routeKey: string) returns (err: bool)
      requires Valid()
      modifies this`broker, this`calls, channels, channels.backend
      ensures Valid() && channels.leased == old(channels.leased)
      ensures Carries([WantBinding(Named(prefix, key), Named(prefix, exchange), routeKey)], old(At()), At(), err)
      ensures !err ==> Topology.Bind(old(broker), Named(prefix, key), Named(prefix, exchange), routeKey) == Some(broker)
      ensures reliable ==>
        (err <==> Topology.Bind(old(broker), Named(prefix, key), Named(prefix, exchange), routeKey).None?)
    {
      var got, ok, fault := OnChannel(u, Topology.Bind(broker, prefix + key, prefix + exchange, routeKey));
      err := !ok;
      Note(old(broker), WantBinding(Named(prefix, key), Named(prefix, exchange), routeKey), Faults(fault, NO_FAULT),
           NO_FAULTS, err);
    }

    method DeleteQueue(ghost u: nat, key: string) returns (err: bool)
      requires Valid()
      modifies this`broker, this`calls, channels, channels.backend
      ensures Valid() && channels.leased == old(channels.leased)
      ensures Carries([DropQueue(Named(prefix, key))], old(At()), At(), err)
      ensures !err ==> Topology.DeleteQueue(old(broker), Named(prefix, key)) == Some(broker)
      ensures reliable ==> (err <==> Topology.DeleteQueue(old(broker), Named(prefix, key)).None?)
      ensures reliable && err ==> broker == old(broker)
    {
      var got, ok, fault := OnChannel(u, Topology.DeleteQueue(broker, prefix + key));
      err := !ok;
      Note(old(broker), DropQueue(Named(prefix, key)), Faults(fault, NO_FAULT), NO_FAULTS, err);
    }

    method DeleteExchange(ghost u: nat, exchange: string) returns (err: bool)
      requires Valid()
      modifies this`broker, this`calls, channels, channels.backend
      ensures Valid() && channels.leased == old(channels.leased)
      ensures Carries([DropExchange(Named(prefix, exchange))], old(At()), At(), err)
      ensures !err ==> Topology.DeleteExchange(old(broker), Named(prefix, exchange)) == Some(broker)
      ensures reliable ==> (err <==> Topology.DeleteExchange(old(broker), Named(prefix, exchange)).None?)
      ensures reliable && err ==> broker == old(broker)
    {
      var got, ok, fault := OnChannel(u, Topology.DeleteExchange(broker, prefix + exchange));
      err := !ok;
      Note(old(broker), DropExchange(Named(prefix, exchange)), Faults(fault, NO_FAULT), NO_FAULTS, err);
    }

    /** The channel part of `publish`: a channel that was got is put back whether or not the send works,
        and the error is that of the get or of the send. A send that fails may have reached the broker. */
    method Publish(ghost u: nat) returns (err: bool, ghost sent: bool, ghost fault: Fault)
      requires Valid()
      modifies channels, channels.backend
      ensures Valid() && channels.leased == old(channels.leased)
      ensures (err <==> fault != NO_FAULT) && (sent <==> !fault.noChannel && !fault.before)
      ensures reliable ==> fault == NO_FAULT
    {
      var channel, got := GetMqChannel(u);
      err, sent, fault := true, false, Fault(true, false, false);
      if got {
        var before, after := Interference();
        err, sent, fault := before || after, !before, Fault(false, before, after);
        PutChannel(u, channel);
      }
    }
  }

  /** The Factory of the channel pool: it borrows a connection while the channel is opened on it. */
  method ChannelFactory(pools: NetPool<nat>, ghost u: nat) returns (made: bool, ghost borrow: Borrow<nat>)
    requires pools.Valid()
    modifies pools, pools.backend
    ensures pools.Valid() && pools.leased == old(pools.leased)
    ensures MayBorrow(old(pools.View()), borrow) && pools.View() == AfterBorrow(old(pools.View()), borrow)
    ensures made ==> !borrow.out.Failed?
  {
    ghost var p := pools.View();
    var conn, ok, skip, out := pools.Get(u);
    GetLeases(p, u, skip, out);
    made := *;
    made := made && ok;
    ghost var active := pools.Put(u, conn);
    borrow := Borrow(u, skip, out, active);
    BorrowKeepsLeases(p, borrow);
  }
}
