/**
 What the requests of api.go ask for (api.go:30-305), in terms of the request's own fields and of the
 registry before and after: which requests are acceptable, and what an accepted one stores.
 */
module Requests {
  import opened Config
  import opened Registries
  import opened Mirrors

  // ---- the texts of numbers ----------------------------------------------------------------

  /** The whole text matches `[1-9]\d{1,2}`. */
  predicate IsCode(s: string) {
    2 <= |s| <= 3 && '1' <= s[0] <= '9' && forall i :: 1 <= i < |s| ==> Digit(s[i])
  }

  /** The whole text matches `[1-9]\d*`. */
  predicate IsTimeout(s: string) {
    1 <= |s| && '1' <= s[0] <= '9' && forall i :: 1 <= i < |s| ==> Digit(s[i])
  }

  /** A part of the text has this shape: the expressions are not anchored. */
  ghost predicate HasPart(s: string, shape: string -> bool) {
    exists i, j :: 0 <= i <= j <= |s| && shape(s[i..j])
  }

  lemma LooksLikeCodeIff(s: string)
    ensures LooksLikeCode(s) <==> HasPart(s, IsCode)
  {
    if LooksLikeCode(s) {
      var i :| 0 <= i < |s| - 1 && '1' <= s[i] <= '9' && Digit(s[i + 1]);
      assert IsCode(s[i..i + 2]);
    }
    if HasPart(s, IsCode) {
      var i, j :| 0 <= i <= j <= |s| && IsCode(s[i..j]);
      assert s[i] == s[i..j][0] && s[i + 1] == s[i..j][1];
    }
  }

  lemma LooksLikeTimeoutIff(s: string)
    ensures LooksLikeTimeout(s) <==> HasPart(s, IsTimeout)
  {
    if LooksLikeTimeout(s) {
      var i :| 0 <= i < |s| && '1' <= s[i] <= '9';
      assert IsTimeout(s[i..i + 1]);
    }
    if HasPart(s, IsTimeout) {
      var i, j :| 0 <= i <= j <= |s| && IsTimeout(s[i..j]);
      assert s[i] == s[i..j][0];
    }
  }

  // ---- acceptable requests -----------------------------------------------------------------

  /** The message at `i` is the first of that name. */
  ghost predicate FirstNamed(ms: seq<Message>, i: nat, name: string) {
    i < |ms| && ms[i].header.name == name && forall j :: 0 <= j < i ==> ms[j].header.name != name
  }

  /** The consumer at `k` is the first with that ID. */
  ghost predicate FirstWithId(cs: seq<Consumer>, k: nat, id: string) {
    k < |cs| && cs[k].id == id && forall l :: 0 <= l < k ==> cs[l].id != id
  }

  ghost predicate Named(ms: seq<Message>, name: string) {
    exists m :: m in ms && m.header.name == name
  }

  /** The first message of that name has a consumer with that ID. */
  ghost predicate Identified(ms: seq<Message>, name: string, id: string) {
    exists i: nat :: FirstNamed(ms, i, name) && exists c :: c in ms[i].consumers && c.id == id
  }

  predicate MessageFieldsOk(r: Request)
    requires r.MessageAdd? || r.MessageUpdate?
  {
    && r.name != "" && r.durable != "" && r.isNeedToken != "" && r.mode in ["fanout", "topic", "direct"]
    && (r.isNeedToken == "1" ==> r.token != "")
  }

  ghost predicate ConsumerFieldsOk(r: Request)
    requires r.ConsumerAdd? || r.ConsumerUpdate?
  {
    && r.name != "" && r.checkCodeText != "" && r.consumer.url != ""
    && HasPart(r.codeText, IsCode) && HasPart(r.timeoutText, IsTimeout)
  }

  ghost predicate Acceptable(ms: seq<Message>, r: Request) {
    match r
    case MessageAdd(name, _, _, _, _, _) => MessageFieldsOk(r) && !Named(ms, name)
    case MessageUpdate(name, _, _, _, _, _) => MessageFieldsOk(r) && Named(ms, name)
    case MessageDelete(name) => Named(ms, name)
    case ConsumerAdd(name, _, _, _, _) => ConsumerFieldsOk(r) && Named(ms, name)
    case ConsumerUpdate(name, c, _, _, _) => ConsumerFieldsOk(r) && Identified(ms, name, c.id)
    case ConsumerDelete(name, id) => Identified(ms, name, id)
  }

  lemma {:induction false} LookupFinds(ms: seq<Message>, name: string)
    ensures Lookup(ms, name) < |ms| <==> Named(ms, name)
    ensures forall i :: FirstNamed(ms, i, name) <==> i == Lookup(ms, name) < |ms|
  {
    var i := Lookup(ms, name);
    if i < |ms| {
      assert ms[i] in ms;
    }
    forall m | m in ms && m.header.name == name ensures i < |ms| {
      var j :| 0 <= j < |ms| && ms[j] == m;
    }
  }

  lemma {:induction false} LookupConsumerFinds(cs: seq<Consumer>, id: string)
    ensures LookupConsumer(cs, id) < |cs| <==> exists c :: c in cs && c.id == id
    ensures forall k :: FirstWithId(cs, k, id) <==> k == LookupConsumer(cs, id) < |cs|
  {
    var k := LookupConsumer(cs, id);
    if k < |cs| {
      assert cs[k] in cs;
    }
    forall c | c in cs && c.id == id ensures k < |cs| {
      var l :| 0 <= l < |cs| && cs[l] == c;
    }
  }

  lemma {:induction false} IdentifiedIff(ms: seq<Message>, name: string, id: string)
    ensures HasConsumerId(ms, name, id) <==> Identified(ms, name, id)
    ensures Identified(ms, name, id) ==> Lookup(ms, name) < |ms|
  {
    var i := Lookup(ms, name);
    LookupFinds(ms, name);
    if i < |ms| {
      assert FirstNamed(ms, i, name);
      LookupConsumerFinds(ms[i].consumers, id);
    }
  }

  /** The guards of the handlers accept exactly the acceptable requests. */
  lemma GuardAcceptsIff(ms: seq<Message>, r: Request)
    ensures Guard(ms, r) == "" <==> Acceptable(ms, r)
  {
    LookupFinds(ms, r.name);
    if r.MessageAdd? || r.MessageUpdate? {
      MessageGuardAcceptsIff(ms, r);
    } else if r.ConsumerAdd? || r.ConsumerUpdate? {
      ConsumerGuardAcceptsIff(ms, r);
    } else if r.ConsumerDelete? {
      IdentifiedIff(ms, r.name, r.id);
    }
  }

  lemma MessageGuardAcceptsIff(ms: seq<Message>, r: Request)
    requires r.MessageAdd? || r.MessageUpdate?
    ensures Guard(ms, r) == "" <==> Acceptable(ms, r)
  {
    LookupFinds(ms, r.name);
    assert r.mode in ["fanout", "topic", "direct"] <==> LegalMode(r.mode);
  }

  lemma ConsumerGuardAcceptsIff(ms: seq<Message>, r: Request)
    requires r.ConsumerAdd? || r.ConsumerUpdate?
    ensures Guard(ms, r) == "" <==> Acceptable(ms, r)
  {
    LookupFinds(ms, r.name);
    TextsAcceptIff(r.codeText, r.timeoutText);
    if r.ConsumerUpdate? {
      IdentifiedIff(ms, r.name, r.consumer.id);
    }
  }

  /** The texts that match are not empty. */
  lemma TextsAcceptIff(code: string, timeout: string)
    ensures LooksLikeCode(code) <==> HasPart(code, IsCode)
    ensures LooksLikeTimeout(timeout) <==> HasPart(timeout, IsTimeout)
    ensures LooksLikeCode(code) ==> code != ""
    ensures LooksLikeTimeout(timeout) ==> timeout != ""
  {
    LooksLikeCodeIff(code);
    LooksLikeTimeoutIff(timeout);
  }

  // ---- what is stored ----------------------------------------------------------------------

  /** The header has what the request says. */
  predicate HeaderFits(h: Header, r: Request)
    requires r.MessageAdd? || r.MessageUpdate?
  {
    && h.name == r.name && h.mode == r.mode && h.token == r.token && h.comment == r.comment
    && (h.durable <==> r.durable == "1") && (h.isNeedToken <==> r.isNeedToken == "1")
  }

  /** The consumer has what the request says, and its answers are checked in any case. */
  predicate ConsumerFits(c: Consumer, r: Request)
    requires r.ConsumerAdd? || r.ConsumerUpdate?
  {
    && c.id == r.consumer.id && c.url == r.consumer.url && c.routeKey == r.consumer.routeKey
    && c.timeout == r.consumer.timeout && c.code == r.consumer.code && c.comment == r.consumer.comment && c.checkCode
  }

  /** One element has been put at the end. */
  ghost predicate Appended<T>(s: seq<T>, t: seq<T>) {
    |t| == |s| + 1 && forall j :: 0 <= j < |s| ==> t[j] == s[j]
  }

  /** Only the element at `i` is another. */
  ghost predicate Replaced<T>(s: seq<T>, t: seq<T>, i: nat) {
    i < |t| == |s| && forall j :: 0 <= j < |s| && j != i ==> t[j] == s[j]
  }

  /** The element at `i` is gone; the others are there in their order. */
  ghost predicate Removed<T>(s: seq<T>, t: seq<T>, i: nat) {
    && i < |s| == |t| + 1
    && (forall j :: 0 <= j < i ==> t[j] == s[j]) && (forall j :: i <= j < |t| ==> t[j] == s[j + 1])
  }

  /** Only the consumers of the message at `i` are others. */
  ghost predicate Refilled(before: seq<Message>, after: seq<Message>, i: nat) {
    Replaced(before, after, i) && after[i].header == before[i].header
  }

  /** Message `i` is the first of that name and consumer `k` its first with that ID. */
  ghost predicate Found(ms: seq<Message>, i: nat, name: string, k: nat, id: string) {
    FirstNamed(ms, i, name) && FirstWithId(ms[i].consumers, k, id)
  }

  /** What an accepted request makes of the registry. */
  ghost predicate Stored(before: seq<Message>, after: seq<Message>, r: Request) {
    match r
    case MessageAdd(_, _, _, _, _, _) =>
      Appended(before, after) && HeaderFits(after[|before|].header, r) && after[|before|].consumers == []
    case MessageUpdate(name, _, _, _, _, _) =>
      exists i: nat :: FirstNamed(before, i, name) && Replaced(before, after, i) && HeaderFits(after[i].header, r)
          && after[i].consumers == before[i].consumers
    case MessageDelete(name) =>
      exists i: nat :: FirstNamed(before, i, name) && Removed(before, after, i)
    case ConsumerAdd(name, _, _, _, _) =>
      exists i: nat :: FirstNamed(before, i, name) && Refilled(before, after, i)
          && Appended(before[i].consumers, after[i].consumers)
          && ConsumerFits(after[i].consumers[|before[i].consumers|], r)
    case ConsumerUpdate(name, c, _, _, _) =>
      exists i: nat, k: nat :: Found(before, i, name, k, c.id) && Refilled(before, after, i)
          && Replaced(before[i].consumers, after[i].consumers, k) && ConsumerFits(after[i].consumers[k], r)
    case ConsumerDelete(name, id) =>
      exists i: nat, k: nat :: Found(before, i, name, k, id) && Refilled(before, after, i)
          && Removed(before[i].consumers, after[i].consumers, k)
  }

  lemma WithoutRemoves<T>(s: seq<T>, i: nat)
    requires i < |s|
    ensures Removed(s, Without(s, i), i)
  {
  }

  lemma EditStores(ms: seq<Message>, r: Request)
    requires Guard(ms, r) == ""
    ensures Stored(ms, Edit(ms, r), r)
  {
    var i := Lookup(ms, r.name);
    LookupFinds(ms, r.name);
    match r {
      case MessageUpdate(_, _, _, _, _, _) => assert FirstNamed(ms, i, r.name);
      case MessageDelete(_) =>
        assert FirstNamed(ms, i, r.name);
        WithoutRemoves(ms, i);
      case ConsumerAdd(_, _, _, _, _) => assert FirstNamed(ms, i, r.name) && Refilled(ms, Edit(ms, r), i);
      case ConsumerUpdate(_, c, _, _, _) => ConsumerUpdateStores(ms, r);
      case ConsumerDelete(_, id) => ConsumerDeleteStores(ms, r);
      case _ =>
    }
  }

  lemma ConsumerUpdateStores(ms: seq<Message>, r: Request)
    requires r.ConsumerUpdate? && Guard(ms, r) == ""
    ensures Stored(ms, Edit(ms, r), r)
  {
    var i := Lookup(ms, r.name);
    var k := LookupConsumer(ms[i].consumers, r.consumer.id);
    LookupFinds(ms, r.name);
    LookupConsumerFinds(ms[i].consumers, r.consumer.id);
    assert Found(ms, i, r.name, k, r.consumer.id) && Refilled(ms, Edit(ms, r), i);
  }

  lemma ConsumerDeleteStores(ms: seq<Message>, r: Request)
    requires r.ConsumerDelete? && Guard(ms, r) == ""
    ensures Stored(ms, Edit(ms, r), r)
  {
    var i := Lookup(ms, r.name);
    var k := LookupConsumer(ms[i].consumers, r.id);
    LookupFinds(ms, r.name);
    LookupConsumerFinds(ms[i].consumers, r.id);
    WithoutRemoves(ms[i].consumers, k);
    assert Found(ms, i, r.name, k, r.id) && Refilled(ms, Edit(ms, r), i);
  }

  lemma RequestMeans(ms: seq<Message>, r: Request)
    ensures Guard(ms, r) == "" <==> Acceptable(ms, r)
    ensures Guard(ms, r) == "" ==> Stored(ms, Edit(ms, r), r)
  {
    GuardAcceptsIff(ms, r);
    if Guard(ms, r) == "" {
      EditStores(ms, r);
    }
  }

  /** After an accepted message request the registry's own search finds a header as asked for. */
  lemma {:induction false} StoredMessageIsFound(before: seq<Message>, after: seq<Message>, r: Request)
    requires Acceptable(before, r) && Stored(before, after, r) && (r.MessageAdd? || r.MessageUpdate?)
    ensures var i := Lookup(after, r.name); i < |after| && HeaderFits(after[i].header, r)
  {
    var i := Lookup(after, r.name);
    if r.MessageAdd? {
      assert forall j :: 0 <= j < |before| ==> before[j] in before;
      assert FirstNamed(after, |before|, r.name);
    } else {
      var j: nat :| FirstNamed(before, j, r.name) && Replaced(before, after, j) && HeaderFits(after[j].header, r);
      assert FirstNamed(after, j, r.name);
    }
    LookupFinds(after, r.name);
  }

  /** After an accepted consumer request it finds a consumer as asked for, unless an older one has the
      same ID. */
  lemma {:induction false} StoredConsumerIsFound(before: seq<Message>, after: seq<Message>, r: Request)
    requires Stored(before, after, r) && (r.ConsumerAdd? || r.ConsumerUpdate?) && FreshId(before, r)
    ensures var i := Lookup(after, r.name);
      && i < |after|
      && var k := LookupConsumer(after[i].consumers, r.consumer.id);
         k < |after[i].consumers| && ConsumerFits(after[i].consumers[k], r)
  {
    var i, k := StoredConsumerPlace(before, after, r);
    LookupFinds(after, r.name);
    assert FirstNamed(after, i, r.name);
    LookupConsumerFinds(after[i].consumers, r.consumer.id);
    assert FirstWithId(after[i].consumers, k, r.consumer.id);
  }

  lemma StoredConsumerPlace(before: seq<Message>, after: seq<Message>, r: Request) returns (i: nat, k: nat)
    requires Stored(before, after, r) && (r.ConsumerAdd? || r.ConsumerUpdate?) && FreshId(before, r)
    ensures Found(after, i, r.name, k, r.consumer.id) && ConsumerFits(after[i].consumers[k], r)
  {
    if r.ConsumerAdd? {
      i :| FirstNamed(before, i, r.name) && Refilled(before, after, i)
        && Appended(before[i].consumers, after[i].consumers)
        && ConsumerFits(after[i].consumers[|before[i].consumers|], r);
      k := |before[i].consumers|;
      forall l | 0 <= l < k ensures after[i].consumers[l].id != r.consumer.id {
        assert IdAt(before, i, l, before[i].consumers[l].id);
      }
    } else {
      i, k :| Found(before, i, r.name, k, r.consumer.id) && Refilled(before, after, i)
        && Replaced(before[i].consumers, after[i].consumers, k) && ConsumerFits(after[i].consumers[k], r);
    }
  }
}
