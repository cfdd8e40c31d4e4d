/**
 The declare loops of mq.go (56-91, 101-138) for every broker and every pattern of faults: declare, on
 failure delete, and try once more.
 */
module Declarations {
  import opened Wrappers
  import opened Topology

  /** How one attempt of the loop ended. */
  datatype Attempt = NoChannel | DeclaredIt | NoDeleteChannel | DeletedIt(ok: bool)

  /** Attempts after the first follow a deletion, and there are at most two. */
  ghost predicate DeclareLoop(attempts: seq<Attempt>) {
    && 1 <= |attempts| <= 2
    && (forall i :: 0 <= i < |attempts| - 1 ==> attempts[i].DeletedIt?)
    && (|attempts| == 1 ==> !attempts[0].DeletedIt?)
  }

  /** The error the loop returns: the one of the last call it made, which can be a deletion. */
  ghost predicate ReturnsNil(attempts: seq<Attempt>)
    requires attempts != []
  {
    attempts[|attempts| - 1].DeclaredIt? || attempts[|attempts| - 1] == DeletedIt(true)
  }

  /** Declares made, and deletes made, by the attempts. */
  ghost function Declares(attempts: seq<Attempt>): nat {
    if attempts == [] then 0
    else Declares(attempts[..|attempts| - 1]) + (if attempts[|attempts| - 1].NoChannel? then 0 else 1)
  }

  ghost function Deletes(attempts: seq<Attempt>): nat {
    if attempts == [] then 0
    else Deletes(attempts[..|attempts| - 1]) + (if attempts[|attempts| - 1].DeletedIt? then 1 else 0)
  }

  /** At most two declares and two deletes in a call, and never more deletes than declares. */
  lemma {:induction false} DeclareLoopBounds(attempts: seq<Attempt>)
    requires DeclareLoop(attempts)
    ensures Deletes(attempts) <= Declares(attempts) <= 2
  {
    assert Declares([]) == 0 && Deletes([]) == 0;
    assert attempts[..|attempts| - 1] == if |attempts| == 1 then [] else [attempts[0]];
  }

  // ---- what the environment does to a call -----------------------------------------------

  /** The environment's choices for one use of a channel: no channel can be got, or the operation fails
      before, or after, it has reached the broker. */
  datatype Fault = Fault(noChannel: bool, before: bool, after: bool)

  /** The faults of one attempt. */
  datatype Faults = Faults(declare: Fault, delete: Fault)

  const NO_FAULT := Fault(false, false, false)
  const NO_FAULTS := Faults(NO_FAULT, NO_FAULT)

  /** The state after an operation whose effect would be `result`, and whether it reports success. */
  function Carried<B>(b: B, result: Option<B>, f: Fault): (B, bool) {
    if f.noChannel || f.before || result.None? then (b, false) else (result.value, !f.after)
  }

  /** One attempt on any state, given what the two operations make of it. */
  function AttemptOf<B>(b: B, declare: B -> Option<B>, delete: B -> Option<B>, f: Faults): (Attempt, B) {
    var (b1, declared) := Carried(b, declare(b), f.declare);
    var (b2, deleted) := Carried(b1, delete(b1), f.delete);
    if f.declare.noChannel then (NoChannel, b)
    else if declared then (DeclaredIt, b1)
    else if f.delete.noChannel then (NoDeleteChannel, b1)
    else (DeletedIt(deleted), b2)
  }

  /** The attempts of a whole call, and what it leaves. */
  function AttemptsOf<B>(b: B, declare: B -> Option<B>, delete: B -> Option<B>, first: Faults, second: Faults)
    : (seq<Attempt>, B)
  {
    var (x, b1) := AttemptOf(b, declare, delete, first);
    if !x.DeletedIt? then ([x], b1)
    else
      var (y, b2) := AttemptOf(b1, declare, delete, second);
      ([x, y], b2)
  }

  /** The loop between two attempts: every attempt so far ended in a deletion, and `b'` is what they left. */
  ghost predicate Retrying<B>(b: B, declare: B -> Option<B>, delete: B -> Option<B>, first: Faults, second: Faults,
                              attempts: seq<Attempt>, b': B)
  {
    && |attempts| <= 2 && (forall i :: 0 <= i < |attempts| ==> attempts[i].DeletedIt?)
    && (attempts == [] ==> b' == b)
    && (|attempts| == 1 ==> (attempts[0], b') == AttemptOf(b, declare, delete, first))
    && (|attempts| == 2 ==> (attempts, b') == AttemptsOf(b, declare, delete, first, second))
  }

  /** What the loop keeps: `err` is that of the last attempt, and a reliable client meets no faults. */
  ghost predicate Trying<B>(b: B, declare: B -> Option<B>, delete: B -> Option<B>, first: Faults, second: Faults,
                            attempts: seq<Attempt>, b': B, err: bool, reliable: bool)
  {
    && Retrying(b, declare, delete, first, second, attempts, b')
    && (attempts != [] ==> (err <==> !ReturnsNil(attempts)))
    && (reliable ==> first == NO_FAULTS == second)
  }

  /** What a call leaves when it returns. */
  ghost predicate Tried<B>(b: B, declare: B -> Option<B>, delete: B -> Option<B>, first: Faults, second: Faults,
                           attempts: seq<Attempt>, b': B, err: bool, reliable: bool)
  {
    && (attempts, b') == AttemptsOf(b, declare, delete, first, second)
    && (err <==> !ReturnsNil(attempts))
    && (reliable ==> first == NO_FAULTS == second)
  }

  lemma TryingStarts<B>(b: B, declare: B -> Option<B>, delete: B -> Option<B>, err: bool, reliable: bool)
    ensures Trying(b, declare, delete, NO_FAULTS, NO_FAULTS, [], b, err, reliable)
    ensures Declares([]) == 0 == Deletes([])
  {
  }

  lemma TryingEnds<B>(b: B, declare: B -> Option<B>, delete: B -> Option<B>, first: Faults, second: Faults,
                      attempts: seq<Attempt>, b': B, err: bool, reliable: bool)
    requires Trying(b, declare, delete, first, second, attempts, b', err, reliable) && |attempts| == 2
    ensures Tried(b, declare, delete, first, second, attempts, b', err, reliable)
  {
  }

  /** One more attempt: it ends the call, or the loop goes on from what it left. */
  lemma {:induction false} OneMoreAttempt<B>(b: B, declare: B -> Option<B>, delete: B -> Option<B>,
                                             first: Faults, second: Faults, attempts: seq<Attempt>, b1: B,
                                             was: bool, reliable: bool,
                                             faults: Faults, attempt: Attempt, b2: B, err: bool)
    returns (next: seq<Attempt>, first': Faults, second': Faults)
    requires Trying(b, declare, delete, first, second, attempts, b1, was, reliable) && |attempts| < 2
    requires (attempt, b2) == AttemptOf(b1, declare, delete, faults) && (reliable ==> faults == NO_FAULTS)
    requires err <==> !(attempt.DeclaredIt? || attempt == DeletedIt(true))
    ensures |next| == |attempts| + 1
    ensures if attempt.DeletedIt? then Trying(b, declare, delete, first', second', next, b2, err, reliable)
            else Tried(b, declare, delete, first', second', next, b2, err, reliable)
    ensures Declares(next) == Declares(attempts) + (if attempt.NoChannel? then 0 else 1)
    ensures Deletes(next) == Deletes(attempts) + (if attempt.DeletedIt? then 1 else 0)
  {
    next := attempts + [attempt];
    first', second' := if attempts == [] then faults else first, if attempts == [] then second else faults;
    assert next[..|attempts|] == attempts;
    assert next == if attempts == [] then [attempt] else [attempts[0], attempt];
  }

  lemma AttemptsLoop<B>(b: B, declare: B -> Option<B>, delete: B -> Option<B>, first: Faults, second: Faults)
    ensures DeclareLoop(AttemptsOf(b, declare, delete, first, second).0)
  {
  }

  // ---- queues and exchanges --------------------------------------------------------------

  function DeclaringQueue(name: string, durable: bool): Broker -> Option<Broker> {
    b => DeclareQueue(b, name, durable)
  }

  function DeletingQueue(name: string): Broker -> Option<Broker> {
    b => DeleteQueue(b, name)
  }

  function DeclaringExchange(name: string, e: Exchange): Broker -> Option<Broker> {
    b => DeclareExchange(b, name, e)
  }

  function DeletingExchange(name: string): Broker -> Option<Broker> {
    b => DeleteExchange(b, name)
  }

  function QueueAttempts(b: Broker, name: string, durable: bool, first: Faults, second: Faults): (seq<Attempt>,
                         Broker) {
    AttemptsOf(b, DeclaringQueue(name, durable), DeletingQueue(name), first, second)
  }

  function ExchangeAttempts(b: Broker, name: string, e: Exchange, first: Faults, second: Faults): (seq<Attempt>,
                            Broker) {
    AttemptsOf(b, DeclaringExchange(name, e), DeletingExchange(name), first, second)
  }

  /** Without faults the loop makes the broker what the declaration asks for. */
  lemma FaultlessQueueAttempts(b: Broker, name: string, durable: bool)
    ensures var (attempts, b') := QueueAttempts(b, name, durable, NO_FAULTS, NO_FAULTS);
      ReturnsNil(attempts) && b' == EnsureQueue(b, name, durable)
  {
  }

  lemma FaultlessExchangeAttempts(b: Broker, name: string, e: Exchange)
    ensures var (attempts, b') := ExchangeAttempts(b, name, e, NO_FAULTS, NO_FAULTS);
      ReturnsNil(attempts) && b' == EnsureExchange(b, name, e)
  {
  }

  // ---- success without a declaration -----------------------------------------------------

  /** One queue or exchange at the broker, compared with the parameters of a declaration. */
  datatype Entity = Absent | Matching | Mismatched

  function QueueState(b: Broker, name: string, durable: bool): Entity {
    if name !in b.queues then Absent else if b.queues[name] == durable then Matching else Mismatched
  }

  function ExchangeState(b: Broker, name: string, e: Exchange): Entity {
    if name !in b.exchanges then Absent else if b.exchanges[name] == e then Matching else Mismatched
  }

  function Declared(e: Entity): Option<Entity> {
    if e.Mismatched? then None else Some(Matching)
  }

  function Deleted(e: Entity): Option<Entity> {
    if e.Absent? then None else Some(Absent)
  }

  /** On the entity, the operation on the broker is `shadow`. */
  ghost predicate Follows(op: Broker -> Option<Broker>, shadow: Entity -> Option<Entity>, view: Broker -> Entity) {
    forall b :: match op(b)
      case None => shadow(view(b)).None?
      case Some(b') => shadow(view(b)) == Some(view(b'))
  }

  /** Only the entity matters for how the attempts end. */
  lemma AttemptsFollow(b: Broker, declare: Broker -> Option<Broker>, delete: Broker -> Option<Broker>,
                       view: Broker -> Entity, first: Faults, second: Faults)
    requires Follows(declare, Declared, view) && Follows(delete, Deleted, view)
    ensures var (attempts, b') := AttemptsOf(b, declare, delete, first, second);
      (attempts, view(b')) == AttemptsOf(view(b), Declared, Deleted, first, second)
  {
    var (x, b1) := AttemptOf(b, declare, delete, first);
    AttemptFollows(b, declare, delete, view, first);
    AttemptFollows(b1, declare, delete, view, second);
  }

  lemma AttemptFollows(b: Broker, declare: Broker -> Option<Broker>, delete: Broker -> Option<Broker>,
                       view: Broker -> Entity, f: Faults)
    requires Follows(declare, Declared, view) && Follows(delete, Deleted, view)
    ensures var (x, b') := AttemptOf(b, declare, delete, f);
      (x, view(b')) == AttemptOf(view(b), Declared, Deleted, f)
  {
    var (b1, declared) := Carried(b, declare(b), f.declare);
    assert match declare(b) case None => Declared(view(b)).None? case Some(b') => Declared(view(b)) == Some(view(b'));
    assert match delete(b1) case None => Deleted(view(b1)).None? case Some(b') => Deleted(view(b1)) == Some(view(b'));
  }

  /** The call reports success without having declared anything. */
  ghost predicate NilWithoutDeclaring(attempts: seq<Attempt>)
    requires attempts != []
  {
    ReturnsNil(attempts) && !attempts[|attempts| - 1].DeclaredIt?
  }

  /** Every channel is got; the first declaration fails, by a fault or a mismatch; so does the second,
      where the mismatch must have survived the first deletion; and the second deletion works, on an
      entity that the second declaration made or the first deletion left. */
  predicate Misled(e: Entity, first: Faults, second: Faults) {
    && !first.declare.noChannel && !first.delete.noChannel && !second.declare.noChannel && !second.delete.noChannel
    && (first.declare.before || first.declare.after || e.Mismatched?)
    && (second.declare.before || second.declare.after || (e.Mismatched? && first.delete.before))
    && (!second.declare.before || (first.delete.before && (!e.Absent? || !first.declare.before)))
    && !second.delete.before && !second.delete.after
  }

  lemma EntityNilIff(e: Entity, first: Faults, second: Faults)
    ensures var (attempts, end) := AttemptsOf(e, Declared, Deleted, first, second);
      && (NilWithoutDeclaring(attempts) <==> Misled(e, first, second))
      && (ReturnsNil(attempts) ==> end == if Misled(e, first, second) then Absent else Matching)
  {
    var (x, e1) := AttemptOf(e, Declared, Deleted, first);
    var (y, e2) := AttemptOf(e1, Declared, Deleted, second);
    assert [x, y][1] == y && [x][0] == x;
  }

  /** Exactly when a queue declaration returns nil without having declared anything, by what is at the
      broker before the call and by the faults; and what nil means for the queue. */
  lemma QueueNilIff(b: Broker, name: string, durable: bool, first: Faults, second: Faults)
    ensures var (attempts, b') := QueueAttempts(b, name, durable, first, second);
      var misled := Misled(QueueState(b, name, durable), first, second);
      && (NilWithoutDeclaring(attempts) <==> misled)
      && (ReturnsNil(attempts) ==> QueueState(b', name, durable) == if misled then Absent else Matching)
  {
    AttemptsFollow(b, DeclaringQueue(name, durable), DeletingQueue(name), x => QueueState(x, name, durable), first,
                   second);
    EntityNilIff(QueueState(b, name, durable), first, second);
  }

  lemma ExchangeNilIff(b: Broker, name: string, e: Exchange, first: Faults, second: Faults)
    ensures var (attempts, b') := ExchangeAttempts(b, name, e, first, second);
      var misled := Misled(ExchangeState(b, name, e), first, second);
      && (NilWithoutDeclaring(attempts) <==> misled)
      && (ReturnsNil(attempts) ==> ExchangeState(b', name, e) == if misled then Absent else Matching)
  {
    AttemptsFollow(b, DeclaringExchange(name, e), DeletingExchange(name), x => ExchangeState(x, name, e), first,
                   second);
    EntityNilIff(ExchangeState(b, name, e), first, second);
  }

  /** What a call that returns has done to the queue, whatever the faults, and without any. */
  lemma QueueDeclareEnds(b: Broker, name: string, durable: bool, first: Faults, second: Faults)
    ensures var (attempts, b') := QueueAttempts(b, name, durable, first, second);
      var misled := Misled(QueueState(b, name, durable), first, second);
      && DeclareLoop(attempts)
      && (ReturnsNil(attempts) ==> QueueState(b', name, durable) == if misled then Absent else Matching)
      && (first == NO_FAULTS == second ==> ReturnsNil(attempts) && b' == EnsureQueue(b, name, durable))
      && CallResult(b, WantQueue(name, durable), first, second) == (b', !ReturnsNil(attempts))
  {
    AttemptsLoop(b, DeclaringQueue(name, durable), DeletingQueue(name), first, second);
    QueueNilIff(b, name, durable, first, second);
    FaultlessQueueAttempts(b, name, durable);
  }

  lemma ExchangeDeclareEnds(b: Broker, name: string, e: Exchange, first: Faults, second: Faults)
    ensures var (attempts, b') := ExchangeAttempts(b, name, e, first, second);
      var misled := Misled(ExchangeState(b, name, e), first, second);
      && DeclareLoop(attempts)
      && (ReturnsNil(attempts) ==> ExchangeState(b', name, e) == if misled then Absent else Matching)
      && (first == NO_FAULTS == second ==> ReturnsNil(attempts) && b' == EnsureExchange(b, name, e))
      && CallResult(b, WantExchange(name, e), first, second) == (b', !ReturnsNil(attempts))
  {
    AttemptsLoop(b, DeclaringExchange(name, e), DeletingExchange(name), first, second);
    ExchangeNilIff(b, name, e, first, second);
    FaultlessExchangeAttempts(b, name, e);
  }

  /** Two such runs, from a broker without the queue, in which the replies to both declarations are lost:
      the first deletion works and is known to, or works and its reply is lost too. */
  lemma QueueNilHappens(b: Broker, name: string, durable: bool)
    requires name !in b.queues
    ensures var lost := Fault(false, false, true);
      && QueueAttempts(b, name, durable, Faults(lost, NO_FAULT), Faults(lost, NO_FAULT)).0
          == [DeletedIt(true), DeletedIt(true)]
      && QueueAttempts(b, name, durable, Faults(lost, lost), Faults(lost, NO_FAULT)).0
          == [DeletedIt(false), DeletedIt(true)]
  {
  }

  // ---- sequences of calls ------------------------------------------------------------------

  /** What a call of mq.go asks of the broker, by full names. */
  datatype Operation =
    | WantExchange(name: string, settings: Exchange)
    | WantQueue(name: string, durable: bool)
    | WantBinding(queue: string, exchange: string, routeKey: string)
    | DropQueue(name: string)
    | DropExchange(name: string)

  /** A call that was made, with the faults it met and whether it returned an error. Only the declare
      loops meet more than the first fault. */
  datatype BrokerCall = BrokerCall(op: Operation, first: Faults, second: Faults, err: bool)

  /** The broker after a call with these faults, and whether the call returns an error. */
  ghost function CallResult(b: Broker, op: Operation, first: Faults, second: Faults): (Broker, bool) {
    match op
    case WantExchange(name, e) =>
      var (attempts, b') := ExchangeAttempts(b, name, e, first, second);
      (b', !ReturnsNil(attempts))
    case WantQueue(name, durable) =>
      var (attempts, b') := QueueAttempts(b, name, durable, first, second);
      (b', !ReturnsNil(attempts))
    case WantBinding(q, e, routeKey) =>
      var (b', ok) := Carried(b, Bind(b, q, e, routeKey), first.declare);
      (b', !ok)
    case DropQueue(name) =>
      var (b', ok) := Carried(b, DeleteQueue(b, name), first.declare);
      (b', !ok)
    case DropExchange(name) =>
      var (b', ok) := Carried(b, DeleteExchange(b, name), first.declare);
      (b', !ok)
  }

  /** The calls carry out the plan in order up to the first one that returns an error, each with the
      outcome of its faults; `b'` is the broker they leave. */
  ghost predicate Performs(plan: seq<Operation>, b: Broker, made: seq<BrokerCall>, b': Broker, err: bool) {
    if plan == [] then made == [] && b' == b && !err
    else
      && made != [] && made[0].op == plan[0]
      && (var (b1, failed) := CallResult(b, plan[0], made[0].first, made[0].second);
         && made[0].err == failed
         && if failed then |made| == 1 && b' == b1 && err else Performs(plan[1..], b1, made[1..], b', err))
  }

  /** The calls are the plan's, in order, none but the last returns an error, the call as a whole fails
      exactly when the last one does, and otherwise the whole plan is carried out. */
  lemma {:induction false} PerformsMeans(plan: seq<Operation>, b: Broker, made: seq<BrokerCall>, b': Broker, err: bool)
    requires Performs(plan, b, made, b', err)
    ensures |made| <= |plan| && forall i :: 0 <= i < |made| ==> made[i].op == plan[i]
    ensures forall i :: 0 <= i < |made| - 1 ==> !made[i].err
    ensures err <==> made != [] && made[|made| - 1].err
    ensures !err ==> |made| == |plan|
  {
    if plan != [] && !made[0].err {
      var b1 := CallResult(b, plan[0], made[0].first, made[0].second).0;
      PerformsMeans(plan[1..], b1, made[1..], b', err);
      assert forall i :: 1 <= i < |made| ==> made[i] == made[1..][i - 1] && plan[i] == plan[1..][i - 1];
    }
  }

  lemma FirstOfBoth<T>(s: seq<T>, t: seq<T>)
    requires s != []
    ensures s + t != [] && (s + t)[0] == s[0] && (s + t)[1..] == s[1..] + t
  {
  }

  lemma {:induction false} PerformsOn(p: seq<Operation>, b: Broker, m: seq<BrokerCall>, b1: Broker, q: seq<Operation>,
                                      n: seq<BrokerCall>, b2: Broker, err: bool)
    requires Performs(p, b, m, b1, false) && Performs(q, b1, n, b2, err)
    ensures Performs(p + q, b, m + n, b2, err)
  {
    if p == [] {
      assert p + q == q && m + n == n;
    } else {
      var c := CallResult(b, p[0], m[0].first, m[0].second).0;
      PerformsOn(p[1..], c, m[1..], b1, q, n, b2, err);
      FirstOfBoth(p, q);
      FirstOfBoth(m, n);
    }
  }

  /** What has failed is not gone on with. */
  lemma {:induction false} PerformsStops(p: seq<Operation>, b: Broker, m: seq<BrokerCall>, b1: Broker,
                                         q: seq<Operation>)
    requires Performs(p, b, m, b1, true)
    ensures Performs(p + q, b, m, b1, true)
  {
    if !m[0].err {
      var c := CallResult(b, p[0], m[0].first, m[0].second).0;
      PerformsStops(p[1..], c, m[1..], b1, q);
      FirstOfBoth(p, q);
    }
  }

  // ---- the calls of a client ---------------------------------------------------------------

  /** The calls made so far and the broker as they left it. */
  datatype Progress = Progress(calls: seq<BrokerCall>, broker: Broker)

  /** From `s` to `t` the calls carry out the plan, up to the first that returns an error. */
  ghost predicate Carries(plan: seq<Operation>, s: Progress, t: Progress, err: bool) {
    s.calls <= t.calls && Performs(plan, s.broker, t.calls[|s.calls|..], t.broker, err)
  }

  /** They are the plan's calls in order, none but the last returns an error, the whole fails exactly when
      the last one does, and otherwise the whole plan is carried out. */
  lemma CarriesMeans(plan: seq<Operation>, s: Progress, t: Progress, err: bool)
    requires Carries(plan, s, t, err)
    ensures s.calls <= t.calls
    ensures var made := t.calls[|s.calls|..];
      && |made| <= |plan| && (forall i :: 0 <= i < |made| ==> made[i].op == plan[i])
      && (forall i :: 0 <= i < |made| - 1 ==> !made[i].err)
      && (err <==> made != [] && made[|made| - 1].err)
      && (!err ==> |made| == |plan|)
  {
    PerformsMeans(plan, s.broker, t.calls[|s.calls|..], t.broker, err);
  }

  lemma CarriesOne(s: Progress, call: BrokerCall, t: Progress)
    requires t.calls == s.calls + [call]
    requires (t.broker, call.err) == CallResult(s.broker, call.op, call.first, call.second)
    ensures Carries([call.op], s, t, call.err)
  {
    assert t.calls[|s.calls|..] == [call];
    assert [call.op][1..] == [] && [call][1..] == [];
  }

  lemma CarriesOn(p: seq<Operation>, s: Progress, t: Progress, q: seq<Operation>, u: Progress, err: bool)
    requires Carries(p, s, t, false) && Carries(q, t, u, err)
    ensures Carries(p + q, s, u, err)
  {
    var m, n := t.calls[|s.calls|..], u.calls[|t.calls|..];
    PerformsOn(p, s.broker, m, t.broker, q, n, u.broker, err);
    assert t.calls == s.calls + m && u.calls == t.calls + n;
    assert u.calls[|s.calls|..] == m + n;
  }

  /** What has failed is not gone on with. */
  lemma CarriesStops(p: seq<Operation>, s: Progress, t: Progress, q: seq<Operation>)
    requires Carries(p, s, t, true)
    ensures Carries(p + q, s, t, true)
  {
    PerformsStops(p, s.broker, t.calls[|s.calls|..], t.broker, q);
  }

  /** One plan after the other. */
  ghost function InTurn(plans: seq<seq<Operation>>): seq<Operation> {
    if plans == [] then [] else InTurn(plans[..|plans| - 1]) + plans[|plans| - 1]
  }

  /** The first `n` of the plans. */
  ghost function UpTo(plans: seq<seq<Operation>>, n: nat): seq<Operation>
    requires n <= |plans|
  {
    InTurn(plans[..n])
  }

  lemma {:induction false} NoRound(plans: seq<seq<Operation>>, s: Progress)
    ensures Carries(UpTo(plans, 0), s, s, false) && UpTo(plans, |plans|) == InTurn(plans)
  {
    assert plans[..0] == [] && plans[..|plans|] == plans;
  }

  /** One more round of a loop that carries out a plan a round and stops at the first error. */
  lemma {:induction false} OneMoreRound(plans: seq<seq<Operation>>, n: nat, s: Progress, t: Progress, u: Progress,
                                        err: bool)
    requires n < |plans| && Carries(UpTo(plans, n), s, t, false) && Carries(plans[n], t, u, err)
    ensures err ==> Carries(InTurn(plans), s, u, true)
    ensures !err ==> Carries(UpTo(plans, n + 1), s, u, false)
  {
    assert plans[..n + 1][..n] == plans[..n];
    CarriesOn(UpTo(plans, n), s, t, plans[n], u, err);
    if err {
      RoundsStop(plans, n + 1, s, u);
    }
  }

  lemma {:induction false} RoundsStop(plans: seq<seq<Operation>>, n: nat, s: Progress, t: Progress)
    requires n <= |plans| && Carries(UpTo(plans, n), s, t, true)
    ensures Carries(InTurn(plans), s, t, true)
    decreases |plans| - n
  {
    if n == |plans| {
      assert plans[..n] == plans;
    } else {
      assert plans[..n + 1][..n] == plans[..n];
      CarriesStops(UpTo(plans, n), s, t, plans[n]);
      RoundsStop(plans, n + 1, s, t);
    }
  }
}
