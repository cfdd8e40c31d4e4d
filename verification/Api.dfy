/**
 The handlers of api.go that change the registry: each validates, then edits the registry, then
 writes it to the file (api.go:30-305). Requests are handled one after the other.
 */
module Api {
  import opened Config
  import Topology
  import opened Registries
  import opened Mirrors
  import opened Requests

  /** The data file. Nothing is known of it after a failed write. */
  datatype File = Missing | Unknown | Holds(messages: seq<Message>)

  /** The registry, the file and the broker between two requests. */
  datatype Moment = Moment(messages: seq<Message>, file: File, broker: Topology.Broker)

  /** What a handler answers to a request, and what it leaves; `fault` says that the file could not be
      written. */
  ghost predicate Handled(prefix: string, reliable: bool, s: Moment, t: Moment, r: Request, resp: string, fault: bool)
  {
    if Guard(s.messages, r) != "" then resp == Guard(s.messages, r) && t == s
    else
      && (t.messages == s.messages || t.messages == Edit(s.messages, r))
      && (resp == "" ==> t.messages == Edit(s.messages, r) && t.file == Holds(t.messages))
      && (resp != "" && t.messages != s.messages ==> t.file == Unknown || r.ConsumerDelete?)
      && (reliable ==>
           match Drive(s.broker, prefix, s.messages, r)
           case Some(b) => t.messages == Edit(s.messages, r) && t.broker == b
           case None => resp != "")
      && (fault || resp == "" || r.MessageDelete? || r.ConsumerDelete?)
      && (fault || resp == "" || (reliable ==> Drive(s.broker, prefix, s.messages, r).None?))
  }

  /** The same in terms of the request's own fields: what is not acceptable changes nothing; what is
      answered with success was acceptable, is stored as asked for, and is in the file; and what is
      acceptable succeeds when the file can be written, unless it is a deletion that the broker stops. */
  ghost predicate Fulfilled(s: Moment, t: Moment, r: Request, resp: string, fault: bool) {
    && (!Acceptable(s.messages, r) ==> resp != "" && t == s)
    && (resp == "" ==>
         Acceptable(s.messages, r) && Stored(s.messages, t.messages, r) && t.file == Holds(t.messages))
    && (Acceptable(s.messages, r) && !fault && !r.MessageDelete? && !r.ConsumerDelete? ==> resp == "")
  }

  lemma HandledFulfils(prefix: string, reliable: bool, s: Moment, t: Moment, r: Request, resp: string, fault: bool)
    requires Handled(prefix, reliable, s, t, r, resp, fault)
    ensures Fulfilled(s, t, r, resp, fault)
  {
    RequestMeans(s.messages, r);
  }

  /** With a broker that fails only on mismatches, a handled request is one step of module Mirrors: the
      registry stays in order and the broker its mirror; only the write can still fail. */
  lemma HandledMirrors(prefix: string, s: Moment, t: Moment, r: Request, resp: string, fault: bool)
    requires Handled(prefix, true, s, t, r, resp, fault)
    requires WorldOk(World(s.messages, s.broker), prefix) && FreshId(s.messages, r)
    ensures World(t.messages, t.broker) == Handle(World(s.messages, s.broker), prefix, r)
    ensures WorldOk(World(t.messages, t.broker), prefix)
    ensures Acceptable(s.messages, r) && !fault ==> resp == "" && t.file == Holds(t.messages)
  {
    RequestMeans(s.messages, r);
    HandleKeepsWorldOk(World(s.messages, s.broker), prefix, r);
  }

  /** With any broker, a handled request is one step of a run of the registry alone. */
  lemma HandledStaysInOrder(prefix: string, reliable: bool, s: Moment, t: Moment, r: Request, resp: string,
                            fault: bool)
    requires Handled(prefix, reliable, s, t, r, resp, fault) && RegistryOk(s.messages) && FreshId(s.messages, r)
    ensures Edited(s.messages, r, t.messages) && RegistryOk(t.messages)
  {
    if t.messages != s.messages {
      EditKeepsRegistryOk(s.messages, r);
    }
  }

  class Server {
    const registry: Registry
    var file: File

    constructor (registry: Registry, file: File)
      ensures this.registry == registry && this.file == file
    {
      this.registry, this.file := registry, file;
    }

    /** writeMessagesToFile: the whole registry replaces what the file held. The write works unless the
        environment makes it fail. */
    method WriteMessagesToFile() returns (err: bool, ghost fault: bool)
      requires registry.Valid()
      modifies this`file
      ensures err <==> fault
      ensures file == if fault then Unknown else Holds(registry.contents)
    {
      var list := registry.Snapshot();
      var fails := *;
      err, fault := fails, fails;
      file := if fails then Unknown else Holds(list);
    }

    /** loadMessagesFromFile, and its caller in init, which takes the list it returns. The error of the
        read is kept in a shadowed variable and never reported: a file that cannot be read or parsed
        gives an empty registry. A file that was never written is unreadable unless it happens to parse. */
    method LoadMessagesFromFile() returns (readable: bool, ghost fault: bool)
      requires registry.Valid()
      modifies this`file, registry
      ensures registry.Valid() && fresh(registry.messages)
      ensures file == if old(file).Missing? then (if fault then Unknown else Holds([])) else old(file)
      ensures old(file).Holds? ==> readable == !fault
      ensures old(file).Missing? || fault ==> !readable
      ensures old(file).Holds? && !fault ==> registry.contents == old(file).messages
      ensures !readable ==> registry.contents == []
    {
      var fails := *;
      fault := fails;
      readable := false;
      var list: seq<Message> := [];
      match file {
        case Missing => file := if fails then Unknown else Holds([]);
        case Unknown =>
          if !fails {
            readable := *;
            if readable { list := *; }
          }
        case Holds(ms) =>
          if !fails {
            readable, list := true, ms;
          }
      }
      registry.Replace(list);
    }

    /** The answer to a request that passed its guard: the operation's error, or the write's. */
    method Respond(failed: bool) returns (resp: string, ghost fault: bool)
      requires registry.Valid()
      modifies this`file
      ensures resp == "" <==> !failed && !fault
      ensures file == if failed then old(file) else if fault then Unknown else Holds(registry.contents)
    {
      if failed {
        return "operation failed", false;
      }
      var err;
      err, fault := WriteMessagesToFile();
      resp := if err then "write failed" else "";
    }

    ghost function Now(): Moment
      reads this, registry, registry.client
    {
      Moment(registry.contents, file, registry.client.broker)
    }

    /** The tests at the head of the handler. */
    method CheckMessageAdd(r: Request) returns (resp: string)
      requires registry.Valid() && r.MessageAdd?
      ensures resp == Guard(registry.contents, r)
    {
      if r.name == "" || r.durable == "" || r.isNeedToken == "" {
        return "args required.10001";
      }
      var i := registry.GetMessage(r.name);
      if i < registry.count {
        return "message exists";
      }
      if r.isNeedToken == "1" && r.token == "" {
        return "message exists";
      }
      if r.mode != "fanout" && r.mode != "topic" && r.mode != "direct" {
        return "args required.10002";
      }
      resp := "";
    }

    method MessageAdd(ghost u: nat, r: Request) returns (resp: string, ghost fault: bool)
      requires registry.Valid() && r.MessageAdd?
      modifies this`file, registry, registry.messages, registry.client`broker, registry.client`declares,
               registry.client`deletes, registry.client`calls, registry.client.channels,
               registry.client.channels.backend
      ensures registry.Valid() && registry.client.channels.leased == old(registry.client.channels.leased)
      ensures Handled(registry.client.prefix, registry.client.reliable, old(Now()), Now(), r, resp, fault)
      ensures Fulfilled(old(Now()), Now(), r, resp, fault)
    {
      fault := false;
      resp := CheckMessageAdd(r);
      if resp == "" {
        resp, fault := AnswerMessageAdd(u, r);
      }
      HandledFulfils(registry.client.prefix, registry.client.reliable, old(Now()), Now(), r, resp, fault);
    }

    method AnswerMessageAdd(ghost u: nat, r: Request) returns (resp: string, ghost fault: bool)
      requires registry.Valid() && r.MessageAdd? && Guard(registry.contents, r) == ""
      modifies this`file, registry, registry.messages, registry.client`broker, registry.client`declares,
               registry.client`deletes, registry.client`calls, registry.client.channels,
               registry.client.channels.backend
      ensures registry.Valid() && registry.client.channels.leased == old(registry.client.channels.leased)
      ensures Handled(registry.client.prefix, registry.client.reliable, old(Now()), Now(), r, resp, fault)
    {
      ghost var failed := registry.AddMessage(u, HeaderOf(r));
      resp, fault := Respond(false);
    }

    /** The tests at the head of the handler. */
    method CheckMessageUpdate(r: Request) returns (resp: string)
      requires registry.Valid() && r.MessageUpdate?
      ensures resp == Guard(registry.contents, r)
    {
      if r.name == "" || r.durable == "" || r.isNeedToken == "" {
        return "args required.10003";
      }
      var i := registry.GetMessage(r.name);
      if i == registry.count {
        return "message not found";
      }
      if r.isNeedToken == "1" && r.token == "" {
        return "args required.10013";
      }
      if r.mode != "fanout" && r.mode != "topic" && r.mode != "direct" {
        return "args required.10004";
      }
      resp := "";
    }

    method MessageUpdate(ghost u: nat, r: Request) returns (resp: string, ghost fault: bool)
      requires registry.Valid() && r.MessageUpdate?
      modifies this`file, registry, registry.messages, registry.client`broker, registry.client`declares,
               registry.client`deletes, registry.client`calls, registry.client.channels,
               registry.client.channels.backend
      ensures registry.Valid() && registry.client.channels.leased == old(registry.client.channels.leased)
      ensures Handled(registry.client.prefix, registry.client.reliable, old(Now()), Now(), r, resp, fault)
      ensures Fulfilled(old(Now()), Now(), r, resp, fault)
    {
      fault := false;
      resp := CheckMessageUpdate(r);
      if resp == "" {
        resp, fault := AnswerMessageUpdate(u, r);
      }
      HandledFulfils(registry.client.prefix, registry.client.reliable, old(Now()), Now(), r, resp, fault);
    }

    method AnswerMessageUpdate(ghost u: nat, r: Request) returns (resp: string, ghost fault: bool)
      requires registry.Valid() && r.MessageUpdate? && Guard(registry.contents, r) == ""
      modifies this`file, registry, registry.messages, registry.client`broker, registry.client`declares,
               registry.client`deletes, registry.client`calls, registry.client.channels,
               registry.client.channels.backend
      ensures registry.Valid() && registry.client.channels.leased == old(registry.client.channels.leased)
      ensures Handled(registry.client.prefix, registry.client.reliable, old(Now()), Now(), r, resp, fault)
    {
      var err, _ := registry.UpdateMessage(u, HeaderOf(r));
      resp, fault := Respond(err);
    }

    /** The tests at the head of the handler. */
    method CheckMessageDelete(r: Request) returns (resp: string)
      requires registry.Valid() && r.MessageDelete?
      ensures resp == Guard(registry.contents, r)
    {
      var i := registry.GetMessage(r.name);
      if i == registry.count {
        return "message not found";
      }
      resp := "";
    }

    method MessageDelete(ghost u: nat, r: Request) returns (resp: string, ghost fault: bool)
      requires registry.Valid() && r.MessageDelete?
      modifies this`file, registry, registry.messages, registry.client`broker, registry.client`declares,
               registry.client`deletes, registry.client`calls, registry.client.channels,
               registry.client.channels.backend
      ensures registry.Valid() && registry.client.channels.leased == old(registry.client.channels.leased)
      ensures Handled(registry.client.prefix, registry.client.reliable, old(Now()), Now(), r, resp, fault)
      ensures Fulfilled(old(Now()), Now(), r, resp, fault)
    {
      fault := false;
      resp := CheckMessageDelete(r);
      if resp == "" {
        resp, fault := AnswerMessageDelete(u, r);
      }
      HandledFulfils(registry.client.prefix, registry.client.reliable, old(Now()), Now(), r, resp, fault);
    }

    method AnswerMessageDelete(ghost u: nat, r: Request) returns (resp: string, ghost fault: bool)
      requires registry.Valid() && r.MessageDelete? && Guard(registry.contents, r) == ""
      modifies this`file, registry, registry.messages, registry.client`broker, registry.client`declares,
               registry.client`deletes, registry.client`calls, registry.client.channels,
               registry.client.channels.backend
      ensures registry.Valid() && registry.client.channels.leased == old(registry.client.channels.leased)
      ensures Handled(registry.client.prefix, registry.client.reliable, old(Now()), Now(), r, resp, fault)
    {
      var err, _, _ := registry.DeleteMessage(u, r.name);
      resp, fault := Respond(err);
    }

    /** The tests at the head of the handler. */
    method CheckConsumerAdd(r: Request) returns (resp: string)
      requires registry.Valid() && r.ConsumerAdd?
      ensures resp == Guard(registry.contents, r)
    {
      if r.name == "" || r.codeText == "" || r.checkCodeText == "" || r.timeoutText == "" || r.consumer.url == "" {
        return "args required.10005";
      }
      var i := registry.GetMessage(r.name);
      if i == registry.count {
        return "message not found";
      }
      if !LooksLikeCode(r.codeText) {
        return "args required.10006";
      }
      if !LooksLikeTimeout(r.timeoutText) {
        return "args required.10007";
      }
      resp := "";
    }

    method ConsumerAdd(ghost u: nat, r: Request) returns (resp: string, ghost fault: bool)
      requires registry.Valid() && r.ConsumerAdd?
      modifies this`file, registry, registry.messages, registry.stores, registry.client`broker,
               registry.client`declares, registry.client`deletes, registry.client`calls, registry.client.channels,
               registry.client.channels.backend
      ensures registry.Valid() && registry.client.channels.leased == old(registry.client.channels.leased)
      ensures Handled(registry.client.prefix, registry.client.reliable, old(Now()), Now(), r, resp, fault)
      ensures Fulfilled(old(Now()), Now(), r, resp, fault)
    {
      fault := false;
      resp := CheckConsumerAdd(r);
      if resp == "" {
        resp, fault := AnswerConsumerAdd(u, r);
      }
      HandledFulfils(registry.client.prefix, registry.client.reliable, old(Now()), Now(), r, resp, fault);
    }

    method AnswerConsumerAdd(ghost u: nat, r: Request) returns (resp: string, ghost fault: bool)
      requires registry.Valid() && r.ConsumerAdd? && Guard(registry.contents, r) == ""
      modifies this`file, registry, registry.messages, registry.stores, registry.client`broker,
               registry.client`declares, registry.client`deletes, registry.client`calls, registry.client.channels,
               registry.client.channels.backend
      ensures registry.Valid() && registry.client.channels.leased == old(registry.client.channels.leased)
      ensures Handled(registry.client.prefix, registry.client.reliable, old(Now()), Now(), r, resp, fault)
    {
      var err, _ := registry.AddConsumer(u, r.name, ConsumerOf(r));
      assert !err && registry.contents == Edit(old(registry.contents), r);
      resp, fault := Respond(err);
    }

    /** The tests at the head of the handler. */
    method CheckConsumerUpdate(r: Request) returns (resp: string)
      requires registry.Valid() && r.ConsumerUpdate?
      ensures resp == Guard(registry.contents, r)
    {
      if r.name == "" || r.codeText == "" || r.checkCodeText == "" || r.timeoutText == "" || r.consumer.url == "" {
        return "args required.10008";
      }
      var i := registry.GetMessage(r.name);
      if i == registry.count {
        return "message not found";
      }
      var k := registry.GetConsumer(i, r.consumer.id);
      if k == registry.messages[i].consumers.len {
        return "consumer not found";
      }
      if !LooksLikeCode(r.codeText) {
        return "args required.10009";
      }
      if !LooksLikeTimeout(r.timeoutText) {
        return "args required.10010";
      }
      resp := "";
    }

    method ConsumerUpdate(r: Request) returns (resp: string, ghost fault: bool)
      requires registry.Valid() && r.ConsumerUpdate?
      modifies this`file, registry, registry.stores
      ensures registry.Valid() && registry.client.channels.leased == old(registry.client.channels.leased)
      ensures Handled(registry.client.prefix, registry.client.reliable, old(Now()), Now(), r, resp, fault)
      ensures Fulfilled(old(Now()), Now(), r, resp, fault)
    {
      fault := false;
      resp := CheckConsumerUpdate(r);
      if resp == "" {
        resp, fault := AnswerConsumerUpdate(r);
      }
      HandledFulfils(registry.client.prefix, registry.client.reliable, old(Now()), Now(), r, resp, fault);
    }

    method AnswerConsumerUpdate(r: Request) returns (resp: string, ghost fault: bool)
      requires registry.Valid() && r.ConsumerUpdate? && Guard(registry.contents, r) == ""
      modifies this`file, registry, registry.stores
      ensures registry.Valid() && registry.client.channels.leased == old(registry.client.channels.leased)
      ensures Handled(registry.client.prefix, registry.client.reliable, old(Now()), Now(), r, resp, fault)
    {
      var err := registry.UpdateConsumer(r.name, ConsumerOf(r));
      assert !err && registry.contents == Edit(old(registry.contents), r);
      resp, fault := Respond(err);
    }

    /** The tests at the head of the handler. */
    method CheckConsumerDelete(r: Request) returns (resp: string)
      requires registry.Valid() && r.ConsumerDelete?
      ensures resp == Guard(registry.contents, r)
    {
      var i := registry.GetMessage(r.name);
      if i == registry.count {
        return "message not found";
      }
      var k := registry.GetConsumer(i, r.id);
      if k == registry.messages[i].consumers.len {
        return "consumer not found";
      }
      resp := "";
    }

    method ConsumerDelete(ghost u: nat, r: Request) returns (resp: string, ghost fault: bool)
      requires registry.Valid() && r.ConsumerDelete?
      modifies this`file, registry, registry.messages, registry.stores, registry.client`broker,
               registry.client`declares, registry.client`deletes, registry.client`calls, registry.client.channels,
               registry.client.channels.backend
      ensures registry.Valid() && registry.client.channels.leased == old(registry.client.channels.leased)
      ensures Handled(registry.client.prefix, registry.client.reliable, old(Now()), Now(), r, resp, fault)
      ensures Fulfilled(old(Now()), Now(), r, resp, fault)
    {
      fault := false;
      resp := CheckConsumerDelete(r);
      if resp == "" {
        resp, fault := AnswerConsumerDelete(u, r);
      }
      HandledFulfils(registry.client.prefix, registry.client.reliable, old(Now()), Now(), r, resp, fault);
    }

    method AnswerConsumerDelete(ghost u: nat, r: Request) returns (resp: string, ghost fault: bool)
      requires registry.Valid() && r.ConsumerDelete? && Guard(registry.contents, r) == ""
      modifies this`file, registry, registry.messages, registry.stores, registry.client`broker,
               registry.client`declares, registry.client`deletes, registry.client`calls, registry.client.channels,
               registry.client.channels.backend
      ensures registry.Valid() && registry.client.channels.leased == old(registry.client.channels.leased)
      ensures Handled(registry.client.prefix, registry.client.reliable, old(Now()), Now(), r, resp, fault)
    {
      var err := registry.DeleteConsumer(u, r.name, r.id);
      resp, fault := Respond(err);
    }
  }
}
