/**
 API operations over whole runs, with a broker that fails only on mismatches: what the registry
 keeps, and that the broker holds exactly the registry's exchanges and queues (message.go:165-298,
 api.go:30-305).
 */
module Mirrors {
  import opened Wrappers
  import opened Config
  import opened Topology
  import opened Registries

  /** A request, after the token check. The numbers of a consumer are taken as already parsed. */
  datatype Request =
    | MessageAdd(name: string, durable: string, isNeedToken: string, mode: string, token: string, comment: string)
    | MessageUpdate(name: string, durable: string, isNeedToken: string, mode: string, token: string, comment: string)
    | MessageDelete(name: string)
    | ConsumerAdd(name: string, consumer: Consumer, codeText: string, timeoutText: string, checkCodeText: string)
    | ConsumerUpdate(name: string, consumer: Consumer, codeText: string, timeoutText: string, checkCodeText: string)
    | ConsumerDelete(name: string, id: string)

  predicate Digit(c: char) {
    '0' <= c <= '9'
  }

  /** The text contains a match of `[1-9]\d{1,2}`; the expression is not anchored. */
  predicate LooksLikeCode(s: string) {
    exists i :: 0 <= i < |s| - 1 && '1' <= s[i] <= '9' && Digit(s[i + 1])
  }

  /** The text contains a match of `[1-9]\d*`. */
  predicate LooksLikeTimeout(s: string) {
    exists i :: 0 <= i < |s| && '1' <= s[i] <= '9'
  }

  predicate LegalMode(mode: string) {
    mode == "fanout" || mode == "topic" || mode == "direct"
  }

  function HeaderOf(r: Request): Header
    requires r.MessageAdd? || r.MessageUpdate?
  {
    Header(r.name, r.mode, r.durable == "1", r.isNeedToken == "1", r.token, r.comment)
  }

  /** The consumer a request stores: the API always sets CheckCode. */
  function ConsumerOf(r: Request): Consumer
    requires r.ConsumerAdd? || r.ConsumerUpdate?
  {
    r.consumer.(checkCode := true)
  }

  /** The error a handler answers before it touches the registry, or "". */
  function Guard(ms: seq<Message>, r: Request): string {
    match r
    case MessageAdd(name, durable, isNeedToken, mode, token, _) =>
      if name == "" || durable == "" || isNeedToken == "" then "args required.10001"
      else if Lookup(ms, name) < |ms| then "message exists"
      else if isNeedToken == "1" && token == "" then "message exists"
      else if !LegalMode(mode) then "args required.10002"
      else ""
    case MessageUpdate(name, durable, isNeedToken, mode, token, _) =>
      if name == "" || durable == "" || isNeedToken == "" then "args required.10003"
      else if Lookup(ms, name) == |ms| then "message not found"
      else if isNeedToken == "1" && token == "" then "args required.10013"
      else if !LegalMode(mode) then "args required.10004"
      else ""
    case MessageDelete(name) => if Lookup(ms, name) == |ms| then "message not found" else ""
    case ConsumerAdd(name, c, code, timeout, check) =>
      if name == "" || code == "" || check == "" || timeout == "" || c.url == "" then "args required.10005"
      else if Lookup(ms, name) == |ms| then "message not found"
      else if !LooksLikeCode(code) then "args required.10006"
      else if !LooksLikeTimeout(timeout) then "args required.10007"
      else ""
    case ConsumerUpdate(name, c, code, timeout, check) =>
      if name == "" || code == "" || check == "" || timeout == "" || c.url == "" then "args required.10008"
      else if Lookup(ms, name) == |ms| then "message not found"
      else if !HasConsumerId(ms, name, c.id) then "consumer not found"
      else if !LooksLikeCode(code) then "args required.10009"
      else if !LooksLikeTimeout(timeout) then "args required.10010"
      else ""
    case ConsumerDelete(name, id) =>
      if Lookup(ms, name) == |ms| then "message not found"
      else if !HasConsumerId(ms, name, id) then "consumer not found"
      else ""
  }

  predicate HasConsumerId(ms: seq<Message>, name: string, id: string) {
    var i := Lookup(ms, name);
    i < |ms| && LookupConsumer(ms[i].consumers, id) < |ms[i].consumers|
  }

  /** The registry after a request that passed its guard and succeeded. */
  function Edit(ms: seq<Message>, r: Request): seq<Message>
    requires Guard(ms, r) == ""
  {
    var i := Lookup(ms, r.name);
    match r
    case MessageAdd(_, _, _, _, _, _) => ms + [Message(HeaderOf(r), [])]
    case MessageUpdate(_, _, _, _, _, _) => ms[i := Message(HeaderOf(r), ms[i].consumers)]
    case MessageDelete(_) => Without(ms, i)
    case ConsumerAdd(_, _, _, _, _) => ms[i := Message(ms[i].header, ms[i].consumers + [ConsumerOf(r)])]
    case ConsumerUpdate(_, c, _, _, _) =>
      ms[i := Message(ms[i].header, ms[i].consumers[LookupConsumer(ms[i].consumers, c.id) := ConsumerOf(r)])]
    case ConsumerDelete(_, id) =>
      ms[i := Message(ms[i].header, Without(ms[i].consumers, LookupConsumer(ms[i].consumers, id)))]
  }

  /** The broker after the request, or None when the operation fails at it. */
  function Drive(b: Broker, prefix: string, ms: seq<Message>, r: Request): Option<Broker>
    requires Guard(ms, r) == ""
  {
    var after := Edit(ms, r);
    match r
    case MessageDelete(name) =>
      (match Dismantle(b, prefix, ms[Lookup(ms, name)])
       case None => None
       case Some(b1) => Some(Reconcile(b1, prefix, after)))
    case ConsumerUpdate(_, _, _, _, _) => Some(b)
    case ConsumerDelete(name, id) => DeleteQueue(Reconcile(b, prefix, after), Named(prefix, ConsumerKey(name, id)))
    case _ => Some(Reconcile(b, prefix, after))
  }

  // ---- what the registry keeps -----------------------------------------------------------

  const UUID_LENGTH := 36

  ghost predicate IdAt(ms: seq<Message>, i: nat, k: nat, id: string) {
    i < |ms| && k < |ms[i].consumers| && ms[i].consumers[k].id == id
  }

  ghost predicate HeaderOk(h: Header) {
    LegalMode(h.mode) && (h.isNeedToken ==> h.token != "")
  }

  /** Names and IDs are unique, IDs have the length of a UUID, and every header is legal. */
  ghost predicate RegistryOk(ms: seq<Message>) {
    && (forall i, j :: 0 <= i < j < |ms| ==> ms[i].header.name != ms[j].header.name)
    && (forall i, k, j, l, id :: IdAt(ms, i, k, id) && IdAt(ms, j, l, id) ==> i == j && k == l)
    && (forall i, k, id :: IdAt(ms, i, k, id) ==> |id| == UUID_LENGTH)
    && (forall i :: 0 <= i < |ms| ==> HeaderOk(ms[i].header))
  }

  /** The generator's promise: a new ID has the length of a UUID and is nobody's. */
  ghost predicate FreshId(ms: seq<Message>, r: Request) {
    r.ConsumerAdd? ==> |r.consumer.id| == UUID_LENGTH && forall i, k :: !IdAt(ms, i, k, r.consumer.id)
  }

  /** Replacing message `i` by one of the same name whose IDs come from the old one. */
  lemma ReplaceKeepsRegistryOk(ms: seq<Message>, i: nat, m: Message)
    requires RegistryOk(ms) && i < |ms| && m.header.name == ms[i].header.name && HeaderOk(m.header)
    requires |m.consumers| == |ms[i].consumers|
    requires forall k :: 0 <= k < |m.consumers| ==> m.consumers[k].id == ms[i].consumers[k].id
    ensures RegistryOk(ms[i := m])
  {
    var after := ms[i := m];
    assert forall j :: 0 <= j < |ms| ==> after[j].header.name == ms[j].header.name;
    assert forall j: nat, k: nat, id :: IdAt(after, j, k, id) <==> IdAt(ms, j, k, id);
  }

  lemma AppendKeepsRegistryOk(ms: seq<Message>, h: Header)
    requires RegistryOk(ms) && HeaderOk(h) && forall j :: 0 <= j < |ms| ==> ms[j].header.name != h.name
    ensures RegistryOk(ms + [Message(h, [])])
  {
    assert forall j: nat, k: nat, id :: IdAt(ms + [Message(h, [])], j, k, id) <==> IdAt(ms, j, k, id);
  }

  lemma WithoutKeepsRegistryOk(ms: seq<Message>, i: nat)
    requires RegistryOk(ms) && i < |ms|
    ensures RegistryOk(Without(ms, i))
  {
    assert forall j :: 0 <= j < |ms| - 1 ==> Without(ms, i)[j] == ms[if j < i then j else j + 1];
    assert forall j: nat, k: nat, id :: IdAt(Without(ms, i), j, k, id) <==>
      j < |ms| - 1 && IdAt(ms, if j < i then j else j + 1, k, id);
  }

  lemma NewConsumerKeepsRegistryOk(ms: seq<Message>, i: nat, c: Consumer)
    requires RegistryOk(ms) && i < |ms| && |c.id| == UUID_LENGTH && forall j, k :: !IdAt(ms, j, k, c.id)
    ensures RegistryOk(ms[i := Message(ms[i].header, ms[i].consumers + [c])])
  {
    var after := ms[i := Message(ms[i].header, ms[i].consumers + [c])];
    var n := |ms[i].consumers|;
    assert forall j: nat, k: nat, id :: IdAt(after, j, k, id) <==>
      IdAt(ms, j, k, id) || (j == i && k == n && id == c.id);
  }

  lemma OneConsumerLessKeepsRegistryOk(ms: seq<Message>, i: nat, n: nat)
    requires RegistryOk(ms) && i < |ms| && n < |ms[i].consumers|
    ensures RegistryOk(ms[i := Message(ms[i].header, Without(ms[i].consumers, n))])
  {
    var after := ms[i := Message(ms[i].header, Without(ms[i].consumers, n))];
    assert forall j: nat, k: nat, id :: IdAt(after, j, k, id) ==>
      IdAt(ms, j, if j == i && k >= n then k + 1 else k, id);
  }

  lemma EditKeepsRegistryOk(ms: seq<Message>, r: Request)
    requires RegistryOk(ms) && Guard(ms, r) == "" && FreshId(ms, r)
    ensures RegistryOk(Edit(ms, r))
  {
    var i := Lookup(ms, r.name);
    match r {
      case MessageAdd(_, _, _, _, _, _) => AppendKeepsRegistryOk(ms, HeaderOf(r));
      case MessageDelete(_) => WithoutKeepsRegistryOk(ms, i);
      case ConsumerAdd(_, c, _, _, _) => NewConsumerKeepsRegistryOk(ms, i, ConsumerOf(r));
      case ConsumerDelete(_, id) => OneConsumerLessKeepsRegistryOk(ms, i, LookupConsumer(ms[i].consumers, id));
      case _ => ReplaceKeepsRegistryOk(ms, i, Edit(ms, r)[i]);
    }
  }

  lemma SameName(ms: seq<Message>, m: Message, n: Message)
    requires RegistryOk(ms) && m in ms && n in ms && m.header.name == n.header.name
    ensures m == n
  {
    var i :| 0 <= i < |ms| && ms[i] == m;
    var j :| 0 <= j < |ms| && ms[j] == n;
    assert i == j;
  }

  lemma IdOf(ms: seq<Message>, m: Message, c: Consumer) returns (i: nat, k: nat)
    requires m in ms && c in m.consumers
    ensures i < |ms| && ms[i] == m && k < |m.consumers| && m.consumers[k] == c && IdAt(ms, i, k, c.id)
  {
    i :| 0 <= i < |ms| && ms[i] == m;
    k :| 0 <= k < |m.consumers| && m.consumers[k] == c;
  }

  /** Consumers of one queue are one and the same, because all IDs have one length. */
  lemma SameKey(prefix: string, ms: seq<Message>, m: Message, c: Consumer, n: Message, d: Consumer)
    requires RegistryOk(ms) && m in ms && n in ms && c in m.consumers && d in n.consumers
    requires QueueName(prefix, m.header, c) == QueueName(prefix, n.header, d)
    ensures m == n && c == d
  {
    var i, k := IdOf(ms, m, c);
    var j, l := IdOf(ms, n, d);
    NamedInjective(prefix, ConsumerKey(m.header.name, c.id), ConsumerKey(n.header.name, d.id));
    KeyInjectiveOnEqualLengthIds(m.header.name, c.id, n.header.name, d.id);
  }

  lemma RegistryOkIsConsistent(ms: seq<Message>)
    requires RegistryOk(ms)
    ensures Consistent(ms)
  {
    forall m, n | m in ms && n in ms ensures Agree(m, n) {
      if m.header.name == n.header.name {
        SameName(ms, m, n);
      }
      forall c, d | c in m.consumers && d in n.consumers
          && ConsumerKey(m.header.name, c.id) == ConsumerKey(n.header.name, d.id)
        ensures m.header.durable == n.header.durable
      {
        SameKey("", ms, m, c, n, d);
      }
    }
  }

  // ---- the broker mirrors the registry ---------------------------------------------------

  /** Exactly the registry's exchanges with their Mode and Durable, and exactly its queues with theirs. */
  ghost predicate Mirror(b: Broker, prefix: string, ms: seq<Message>) {
    && b.exchanges.Keys == ExchangeNames(prefix, ms)
    && b.queues.Keys == QueueNames(prefix, ms)
    && (forall m :: m in ms ==> HasExchange(b, prefix, m.header))
    && (forall m, c :: m in ms && c in m.consumers ==> HasQueue(b, prefix, m.header, c))
  }

  ghost predicate HasQueue(b: Broker, prefix: string, h: Header, c: Consumer) {
    QueueName(prefix, h, c) in b.queues && b.queues[QueueName(prefix, h, c)] == h.durable
  }

  lemma {:induction false} ReconcileMirrors(b: Broker, prefix: string, ms: seq<Message>)
    requires Consistent(ms)
    requires b.exchanges.Keys <= ExchangeNames(prefix, ms) && b.queues.Keys <= QueueNames(prefix, ms)
    ensures Mirror(Reconcile(b, prefix, ms), prefix, ms)
  {
    ReconcileEntities(b, prefix, ms);
    ReconcileConverges(b, prefix, ms);
    var b' := Reconcile(b, prefix, ms);
    forall m, c | m in ms && c in m.consumers ensures HasQueue(b', prefix, m.header, c) {
      assert HasMessage(b', prefix, m);
    }
    forall m | m in ms ensures HasExchange(b', prefix, m.header) {
      assert HasMessage(b', prefix, m);
    }
  }

  lemma {:induction false} DeleteQueuesRemoves(b: Broker, prefix: string, h: Header, cs: seq<Consumer>)
    requires forall c :: c in cs ==> QueueName(prefix, h, c) in b.queues
    requires forall k, l :: 0 <= k < l < |cs| ==> QueueName(prefix, h, cs[k]) != QueueName(prefix, h, cs[l])
    ensures var r := DeleteQueues(b, prefix, h, cs);
      r.Some? && r.value.exchanges == b.exchanges
          && r.value.queues.Keys == b.queues.Keys - ConsumerQueues(prefix, h, cs)
    decreases |cs|
  {
    if cs != [] {
      var front, last := cs[..|cs| - 1], cs[|cs| - 1];
      DeleteQueuesRemoves(b, prefix, h, front);
      forall c | c in front ensures QueueName(prefix, h, c) != QueueName(prefix, h, last) {
        var k :| 0 <= k < |front| && front[k] == c;
        assert cs[k] == c;
      }
      assert forall c :: c in cs <==> c in front || c == last;
      assert ConsumerQueues(prefix, h, cs) == ConsumerQueues(prefix, h, front) + {QueueName(prefix, h, last)};
    }
  }

  lemma {:induction false} DeleteMessageMirrors(b: Broker, prefix: string, ms: seq<Message>, i: nat)
    requires RegistryOk(ms) && Mirror(b, prefix, ms) && i < |ms| && RegistryOk(Without(ms, i))
    ensures Dismantle(b, prefix, ms[i]).Some?
    ensures Mirror(Reconcile(Dismantle(b, prefix, ms[i]).value, prefix, Without(ms, i)), prefix, Without(ms, i))
  {
    var m, rest := ms[i], Without(ms, i);
    forall c | c in m.consumers ensures QueueName(prefix, m.header, c) in b.queues {
      assert HasQueue(b, prefix, m.header, c);
    }
    forall k, l | 0 <= k < l < |m.consumers|
      ensures QueueName(prefix, m.header, m.consumers[k]) != QueueName(prefix, m.header, m.consumers[l])
    {
      assert IdAt(ms, i, k, m.consumers[k].id) && IdAt(ms, i, l, m.consumers[l].id);
      if QueueName(prefix, m.header, m.consumers[k]) == QueueName(prefix, m.header, m.consumers[l]) {
        SameKey(prefix, ms, m, m.consumers[k], m, m.consumers[l]);
      }
    }
    DeleteQueuesRemoves(b, prefix, m.header, m.consumers);
    assert HasExchange(b, prefix, m.header);
    var b1 := Dismantle(b, prefix, m).value;
    assert forall n :: n in ms <==> n in rest || n == m;
    assert b1.exchanges.Keys == ExchangeNames(prefix, ms) - {Named(prefix, m.header.name)};
    RegistryOkIsConsistent(rest);
    ReconcileMirrors(b1, prefix, rest);
  }

  lemma DeleteQueueMirrors(b: Broker, prefix: string, ms: seq<Message>, queue: string)
    requires Converged(b, prefix, ms) && b.exchanges.Keys == ExchangeNames(prefix, ms)
    requires b.queues.Keys == QueueNames(prefix, ms) + {queue} && queue !in QueueNames(prefix, ms)
    ensures Mirror(DeleteQueue(b, queue).value, prefix, ms)
  {
    var b' := DeleteQueue(b, queue).value;
    forall m | m in ms ensures HasExchange(b', prefix, m.header) {
      assert HasMessage(b, prefix, m);
    }
    forall m, c | m in ms && c in m.consumers ensures HasQueue(b', prefix, m.header, c) {
      assert HasMessage(b, prefix, m) && HasConsumer(b, prefix, m.header, c);
      assert QueueName(prefix, m.header, c) in QueueNames(prefix, ms);
    }
  }

  /** Deleting a consumer keeps the mirror exactly when no remaining consumer shares its queue. */
  lemma {:induction false} DeleteConsumerMirrorsIff(b: Broker, prefix: string, before: seq<Message>,
                                                    after: seq<Message>, queue: string)
    requires Mirror(b, prefix, before) && Consistent(after)
    requires ExchangeNames(prefix, after) == ExchangeNames(prefix, before)
    requires QueueNames(prefix, before) == QueueNames(prefix, after) + {queue}
    ensures DeleteQueue(Reconcile(b, prefix, after), queue).Some?
    ensures Mirror(DeleteQueue(Reconcile(b, prefix, after), queue).value, prefix, after) <==>
      queue !in QueueNames(prefix, after)
  {
    ReconcileEntities(b, prefix, after);
    var b1 := Reconcile(b, prefix, after);
    if queue !in QueueNames(prefix, after) {
      ReconcileConverges(b, prefix, after);
      DeleteQueueMirrors(b1, prefix, after, queue);
    }
  }

  // ---- whole runs ------------------------------------------------------------------------

  datatype World = World(messages: seq<Message>, broker: Broker)

  ghost predicate WorldOk(w: World, prefix: string) {
    RegistryOk(w.messages) && Mirror(w.broker, prefix, w.messages)
  }

  /** One handled request: refused by its guard, or carried out. */
  function Handle(w: World, prefix: string, r: Request): World {
    if Guard(w.messages, r) != "" then w
    else
      match Drive(w.broker, prefix, w.messages, r)
      case None => w
      case Some(b) => World(Edit(w.messages, r), b)
  }

  /** What deleting one consumer does to the set of queue names. */
  lemma DeletedConsumerNames(prefix: string, ms: seq<Message>, r: Request)
    requires RegistryOk(ms) && r.ConsumerDelete? && Guard(ms, r) == ""
    ensures var q := Named(prefix, ConsumerKey(r.name, r.id));
      && ExchangeNames(prefix, Edit(ms, r)) == ExchangeNames(prefix, ms)
      && QueueNames(prefix, ms) == QueueNames(prefix, Edit(ms, r)) + {q}
      && q !in QueueNames(prefix, Edit(ms, r))
  {
    var i := Lookup(ms, r.name);
    var k := LookupConsumer(ms[i].consumers, r.id);
    var after := Edit(ms, r);
    var m, c := ms[i], ms[i].consumers[k];
    var q := QueueName(prefix, m.header, c);
    assert after[i].header == m.header;
    EditKeepsRegistryOk(ms, r);
    assert forall n :: n in ms ==> n == m || n in after by {
      forall n | n in ms && n != m ensures n in after {
        var j :| 0 <= j < |ms| && ms[j] == n;
        assert after[j] == n;
      }
    }
    assert forall n :: n in after ==> n == after[i] || n in ms;
    assert after[i] in after && m in ms && c in m.consumers;
    forall d | d in m.consumers ensures d == c || d in after[i].consumers {
      var l :| 0 <= l < |m.consumers| && m.consumers[l] == d;
      assert l < k ==> after[i].consumers[l] == d;
      assert l > k ==> after[i].consumers[l - 1] == d;
    }
    assert forall d :: d in after[i].consumers ==> d in m.consumers;
    QueueIsNobodysElse(prefix, ms, r, i, k);
    QueueNamesStep(prefix, ms, after, m, after[i], c);
  }

  lemma QueueNamesStep(prefix: string, ms: seq<Message>, after: seq<Message>, m: Message, n: Message, c: Consumer)
    requires m in ms && n in after && c in m.consumers && n.header == m.header
    requires forall x :: x in ms ==> x == m || x in after
    requires forall x :: x in after ==> x == n || x in ms
    requires forall d :: d in m.consumers ==> d == c || d in n.consumers
    requires forall d :: d in n.consumers ==> d in m.consumers
    ensures QueueNames(prefix, ms) == QueueNames(prefix, after) + {QueueName(prefix, m.header, c)}
    ensures ExchangeNames(prefix, ms) == ExchangeNames(prefix, after)
  {
    forall q | q in QueueNames(prefix, ms) ensures q in QueueNames(prefix, after) + {QueueName(prefix, m.header, c)} {
      var x, d :| x in ms && d in x.consumers && q == QueueName(prefix, x.header, d);
      if x == m && d != c {
        assert d in n.consumers;
      }
    }
    forall q | q in QueueNames(prefix, after) ensures q in QueueNames(prefix, ms) {
      var x, d :| x in after && d in x.consumers && q == QueueName(prefix, x.header, d);
      if x == n {
        assert d in m.consumers;
      }
    }
    forall e | e in ExchangeNames(prefix, ms) ensures e in ExchangeNames(prefix, after) {
      var x :| x in ms && e == Named(prefix, x.header.name);
      assert x == m ==> n in after && n.header == m.header;
    }
    forall e | e in ExchangeNames(prefix, after) ensures e in ExchangeNames(prefix, ms) {
      var x :| x in after && e == Named(prefix, x.header.name);
      assert x == n ==> m in ms && n.header == m.header;
    }
  }

  /** No consumer that remains has the deleted one's queue. */
  lemma {:induction false} QueueIsNobodysElse(prefix: string, ms: seq<Message>, r: Request, i: nat, k: nat)
    requires RegistryOk(ms) && r.ConsumerDelete? && Guard(ms, r) == ""
    requires i == Lookup(ms, r.name) && k == LookupConsumer(ms[i].consumers, r.id)
    ensures QueueName(prefix, ms[i].header, ms[i].consumers[k]) !in QueueNames(prefix, Edit(ms, r))
  {
    var after := Edit(ms, r);
    var q := QueueName(prefix, ms[i].header, ms[i].consumers[k]);
    forall n, d | n in after && d in n.consumers ensures QueueName(prefix, n.header, d) != q {
      var j, l := IdOf(after, n, d);
      assert IdAt(ms, i, k, r.id);
      assert IdAt(ms, j, if j == i && l >= k then l + 1 else l, d.id);
      if QueueName(prefix, n.header, d) == q {
        NamedInjective(prefix, ConsumerKey(ms[i].header.name, r.id), ConsumerKey(n.header.name, d.id));
        KeyInjectiveOnEqualLengthIds(ms[i].header.name, r.id, n.header.name, d.id);
      }
    }
  }

  lemma UpdatedConsumerMirrors(b: Broker, prefix: string, ms: seq<Message>, r: Request)
    requires Mirror(b, prefix, ms) && r.ConsumerUpdate? && Guard(ms, r) == ""
    ensures Mirror(b, prefix, Edit(ms, r))
  {
    var i := Lookup(ms, r.name);
    SameIdsMirror(b, prefix, ms, i, Edit(ms, r)[i].consumers);
  }

  /** New settings for consumers that keep their IDs name the same queues. */
  lemma SameIdsMirror(b: Broker, prefix: string, ms: seq<Message>, i: nat, cs: seq<Consumer>)
    requires Mirror(b, prefix, ms) && i < |ms| && |cs| == |ms[i].consumers|
    requires forall k :: 0 <= k < |cs| ==> cs[k].id == ms[i].consumers[k].id
    ensures Mirror(b, prefix, ms[i := Message(ms[i].header, cs)])
  {
    var after := ms[i := Message(ms[i].header, cs)];
    SameNames(prefix, ms, after);
    SameNames(prefix, after, ms);
    forall x | x in after
      ensures HasExchange(b, prefix, x.header) && forall e :: e in x.consumers ==> HasQueue(b, prefix, x.header, e)
    {
      var j :| 0 <= j < |after| && after[j] == x;
      SameIdsHave(b, prefix, ms, j, x);
    }
  }

  lemma SameIdsHave(b: Broker, prefix: string, ms: seq<Message>, j: nat, x: Message)
    requires Mirror(b, prefix, ms) && j < |ms| && x.header == ms[j].header && |x.consumers| == |ms[j].consumers|
    requires forall l :: 0 <= l < |x.consumers| ==> x.consumers[l].id == ms[j].consumers[l].id
    ensures HasExchange(b, prefix, x.header)
    ensures forall e :: e in x.consumers ==> HasQueue(b, prefix, x.header, e)
  {
    assert ms[j] in ms;
    forall e | e in x.consumers ensures HasQueue(b, prefix, x.header, e) {
      var l :| 0 <= l < |x.consumers| && x.consumers[l] == e;
      SameIdHasQueue(b, prefix, ms, j, l, x.header, e);
    }
  }

  lemma SameIdHasQueue(b: Broker, prefix: string, ms: seq<Message>, j: nat, l: nat, h: Header, e: Consumer)
    requires Mirror(b, prefix, ms) && j < |ms| && l < |ms[j].consumers|
    requires h == ms[j].header && e.id == ms[j].consumers[l].id
    ensures HasQueue(b, prefix, h, e)
  {
    assert ms[j] in ms && ms[j].consumers[l] in ms[j].consumers;
    assert HasQueue(b, prefix, ms[j].header, ms[j].consumers[l]);
  }

  lemma SameNames(prefix: string, ms: seq<Message>, ns: seq<Message>)
    requires |ms| == |ns|
    requires forall j :: 0 <= j < |ms| ==>
      ns[j].header.name == ms[j].header.name && |ns[j].consumers| == |ms[j].consumers|
    requires forall j, k :: 0 <= j < |ms| && 0 <= k < |ms[j].consumers| ==>
      ns[j].consumers[k].id == ms[j].consumers[k].id
    ensures ExchangeNames(prefix, ms) <= ExchangeNames(prefix, ns) && QueueNames(prefix, ms) <= QueueNames(prefix, ns)
  {
    forall e | e in ExchangeNames(prefix, ms) ensures e in ExchangeNames(prefix, ns) {
      var x :| x in ms && e == Named(prefix, x.header.name);
      var j :| 0 <= j < |ms| && ms[j] == x;
      assert ns[j] in ns && Named(prefix, ns[j].header.name) == e;
    }
    forall q | q in QueueNames(prefix, ms) ensures q in QueueNames(prefix, ns) {
      var x, d :| x in ms && d in x.consumers && q == QueueName(prefix, x.header, d);
      var j :| 0 <= j < |ms| && ms[j] == x;
      var l :| 0 <= l < |x.consumers| && x.consumers[l] == d;
      assert ns[j] in ns && ns[j].consumers[l] in ns[j].consumers;
      assert QueueName(prefix, ns[j].header, ns[j].consumers[l]) == q;
    }
  }

  /** Adding a message, changing one, or adding a consumer only adds names. */
  lemma GrowingNames(prefix: string, ms: seq<Message>, r: Request)
    requires Guard(ms, r) == "" && (r.MessageAdd? || r.MessageUpdate? || r.ConsumerAdd?)
    ensures ExchangeNames(prefix, ms) <= ExchangeNames(prefix, Edit(ms, r))
    ensures QueueNames(prefix, ms) <= QueueNames(prefix, Edit(ms, r))
  {
    var i := Lookup(ms, r.name);
    var after := Edit(ms, r);
    forall e | e in ExchangeNames(prefix, ms) ensures e in ExchangeNames(prefix, after) {
      var x :| x in ms && e == Named(prefix, x.header.name);
      var j :| 0 <= j < |ms| && ms[j] == x;
      assert after[j].header.name == x.header.name && after[j] in after;
    }
    forall q | q in QueueNames(prefix, ms) ensures q in QueueNames(prefix, after) {
      var x, d :| x in ms && d in x.consumers && q == QueueName(prefix, x.header, d);
      var j :| 0 <= j < |ms| && ms[j] == x;
      assert after[j] in after && d in after[j].consumers && QueueName(prefix, after[j].header, d) == q;
    }
  }

  /** A request that passes its guard succeeds, and the broker mirrors the edited registry. */
  lemma DriveMirrors(w: World, prefix: string, r: Request)
    requires WorldOk(w, prefix) && FreshId(w.messages, r) && Guard(w.messages, r) == ""
    ensures var driven := Drive(w.broker, prefix, w.messages, r);
      driven.Some? && Mirror(driven.value, prefix, Edit(w.messages, r))
  {
    EditKeepsRegistryOk(w.messages, r);
    RegistryOkIsConsistent(Edit(w.messages, r));
    match r {
      case MessageDelete(name) => DeleteMessageMirrors(w.broker, prefix, w.messages, Lookup(w.messages, name));
      case ConsumerUpdate(_, _, _, _, _) => UpdatedConsumerMirrors(w.broker, prefix, w.messages, r);
      case ConsumerDelete(name, id) =>
        DeletedConsumerNames(prefix, w.messages, r);
        DeleteConsumerMirrorsIff(w.broker, prefix, w.messages, Edit(w.messages, r),
                                 Named(prefix, ConsumerKey(name, id)));
      case _ =>
        GrowingNames(prefix, w.messages, r);
        ReconcileMirrors(w.broker, prefix, Edit(w.messages, r));
    }
  }

  /** Every request that passes its guard succeeds, and keeps the registry in order and mirrored. */
  lemma HandleKeepsWorldOk(w: World, prefix: string, r: Request)
    requires WorldOk(w, prefix) && FreshId(w.messages, r)
    ensures WorldOk(Handle(w, prefix, r), prefix)
    ensures Guard(w.messages, r) == "" ==> Drive(w.broker, prefix, w.messages, r).Some?
  {
    if Guard(w.messages, r) == "" {
      EditKeepsRegistryOk(w.messages, r);
      DriveMirrors(w, prefix, r);
    }
  }

  function HandleAll(w: World, prefix: string, rs: seq<Request>): World {
    if rs == [] then w else Handle(HandleAll(w, prefix, rs[..|rs| - 1]), prefix, rs[|rs| - 1])
  }

  /** Each added consumer gets an ID that is new when it is added. */
  ghost predicate FreshIds(w: World, prefix: string, rs: seq<Request>) {
    forall n :: 0 <= n < |rs| ==> FreshId(HandleAll(w, prefix, rs[..n]).messages, rs[n])
  }

  lemma {:induction false} HandleOneMore(w: World, prefix: string, rs: seq<Request>, n: nat)
    requires n < |rs|
    ensures HandleAll(w, prefix, rs[..n + 1]) == Handle(HandleAll(w, prefix, rs[..n]), prefix, rs[n])
  {
    assert rs[..n + 1][..n] == rs[..n];
  }

  lemma {:induction false} RunMirrorsSoFar(w: World, prefix: string, rs: seq<Request>, n: nat)
    requires WorldOk(w, prefix) && FreshIds(w, prefix, rs) && n <= |rs|
    ensures WorldOk(HandleAll(w, prefix, rs[..n]), prefix)
    decreases n
  {
    if n > 0 {
      RunMirrorsSoFar(w, prefix, rs, n - 1);
      HandleOneMore(w, prefix, rs, n - 1);
      HandleKeepsWorldOk(HandleAll(w, prefix, rs[..n - 1]), prefix, rs[n - 1]);
    }
  }

  /** From any registry in order and a broker that mirrors it, any sequence of requests. */
  lemma {:induction false} RunsMirror(w: World, prefix: string, rs: seq<Request>)
    requires WorldOk(w, prefix) && FreshIds(w, prefix, rs)
    ensures WorldOk(HandleAll(w, prefix, rs), prefix)
  {
    RunMirrorsSoFar(w, prefix, rs, |rs|);
    assert rs[..|rs|] == rs;
  }

  const EMPTY := World([], Broker(map[], map[], {}))

  /** The two starts of the program: with nothing, and with a list from the file and any broker without
      foreign entities, which main's initMessages brings up to date. */
  lemma EmptyStartMirrors(prefix: string)
    ensures WorldOk(EMPTY, prefix)
  {
  }

  lemma {:induction false} RestartMirrors(prefix: string, ms: seq<Message>, b: Broker)
    requires RegistryOk(ms)
    requires b.exchanges.Keys <= ExchangeNames(prefix, ms) && b.queues.Keys <= QueueNames(prefix, ms)
    ensures WorldOk(World(ms, Reconcile(b, prefix, ms)), prefix)
  {
    RegistryOkIsConsistent(ms);
    ReconcileMirrors(b, prefix, ms);
  }

  // ---- the registry alone, whatever the broker does -----------------------------------------

  /** A request leaves the registry as it is, or passes its guard and is carried out on it. */
  ghost predicate Edited(ms: seq<Message>, r: Request, after: seq<Message>) {
    after == ms || (Guard(ms, r) == "" && after == Edit(ms, r))
  }

  /** Registries one after the other, from one in order, under requests with fresh IDs. */
  ghost predicate RegistryRun(lists: seq<seq<Message>>, rs: seq<Request>) {
    && |lists| == |rs| + 1 && RegistryOk(lists[0])
    && forall n :: 0 <= n < |rs| ==> FreshId(lists[n], rs[n]) && Edited(lists[n], rs[n], lists[n + 1])
  }

  /** For every pattern of broker failures: names and IDs stay unique, and headers legal. */
  lemma {:induction false} RegistryStaysInOrder(lists: seq<seq<Message>>, rs: seq<Request>, n: nat)
    requires RegistryRun(lists, rs) && n < |lists|
    ensures RegistryOk(lists[n])
  {
    if n > 0 {
      RegistryStaysInOrder(lists, rs, n - 1);
      assert Edited(lists[n - 1], rs[n - 1], lists[n]);
      if lists[n] != lists[n - 1] {
        EditKeepsRegistryOk(lists[n - 1], rs[n - 1]);
      }
    }
  }

  // ---- and without IDs of one length -----------------------------------------------------

  function Plain(name: string, id: string): Message {
    Message(Header(name, "fanout", true, false, "", ""), [Consumer(id, "", "", 0, 0, true, "")])
  }

  /** Two consumers whose names and IDs collide in one key share a queue; deleting the second one
      takes the queue away from the first, whatever mirroring broker one starts from. */
  lemma {:induction false} SharedQueueBreaksMirror(b: Broker, prefix: string)
    requires Mirror(b, prefix, [Plain("a", "b-c"), Plain("a-b", "c")])
    ensures var after := [Plain("a", "b-c"), Message(Plain("a-b", "c").header, [])];
      var gone := DeleteQueue(Reconcile(b, prefix, after), Named(prefix, ConsumerKey("a-b", "c")));
      gone.Some? && !Mirror(gone.value, prefix, after)
  {
    var m, n, n' := Plain("a", "b-c"), Plain("a-b", "c"), Message(Plain("a-b", "c").header, []);
    var q := Named(prefix, ConsumerKey("a-b", "c"));
    CollidingNames(prefix);
    DeleteConsumerMirrorsIff(b, prefix, [m, n], [m, n'], q);
  }

  lemma CollidingNames(prefix: string)
    ensures var m, n, n' := Plain("a", "b-c"), Plain("a-b", "c"), Message(Plain("a-b", "c").header, []);
      var q := Named(prefix, ConsumerKey("a-b", "c"));
      && QueueNames(prefix, [m, n]) == {q} && QueueNames(prefix, [m, n']) == {q}
      && ExchangeNames(prefix, [m, n]) == ExchangeNames(prefix, [m, n'])
      && Consistent([m, n'])
  {
    var m, n, n' := Plain("a", "b-c"), Plain("a-b", "c"), Message(Plain("a-b", "c").header, []);
    var q := Named(prefix, ConsumerKey("a-b", "c"));
    var before, after := [m, n], [m, n'];
    KeyCollision();
    assert m.consumers[0] in m.consumers && QueueName(prefix, m.header, m.consumers[0]) == q;
    assert n.consumers[0] in n.consumers && QueueName(prefix, n.header, n.consumers[0]) == q;
    assert after[0] in after && after[1] in after && before[0] in before && before[1] in before;
    assert QueueNames(prefix, before) == {q} && QueueNames(prefix, after) == {q};
    assert ExchangeNames(prefix, before) == {Named(prefix, "a"), Named(prefix, "a-b")};
    assert ExchangeNames(prefix, after) == {Named(prefix, "a"), Named(prefix, "a-b")};
  }
}
