/** A value that may be missing. */
module Wrappers {
  datatype Option<+T> = None | Some(value: T)
}

/** Sums over the elements of a sequence. */
module Sums {
  function Total<T>(f: T -> nat, s: seq<T>): nat {
    if s == [] then 0 else Total(f, s[..|s| - 1]) + f(s[|s| - 1])
  }

  /** Replacing one element changes the sum by the difference. */
  lemma {:induction false} TotalAfterUpdate<T>(f: T -> nat, s: seq<T>, i: nat, x: T)
    requires i < |s|
    ensures Total(f, s[i := x]) + f(s[i]) == Total(f, s) + f(x)
    decreases |s|
  {
    var n := |s| - 1;
    if i == n {
      assert s[i := x][..n] == s[..n];
    } else {
      assert s[i := x][..n] == s[..n][i := x];
      TotalAfterUpdate(f, s[..n], i, x);
    }
  }
}

/** The configuration records of message.go and the name a consumer's queue is known by. */
module Config {
  datatype Consumer = Consumer(
    id: string, url: string, routeKey: string, timeout: int, code: int, checkCode: bool, comment: string)

  /** A message record without its list of consumers. */
  datatype Header = Header(
    name: string, mode: string, durable: bool, isNeedToken: bool, token: string, comment: string)

  datatype Message = Message(header: Header, consumers: seq<Consumer>)

  function ConsumerKey(name: string, id: string): string {
    name + "-" + id
  }

  /** Keys are injective on IDs of one length, which is what the generated UUIDs are. */
  lemma KeyInjectiveOnEqualLengthIds(n1: string, id1: string, n2: string, id2: string)
    requires |id1| == |id2|
    ensures ConsumerKey(n1, id1) == ConsumerKey(n2, id2) <==> n1 == n2 && id1 == id2
  {
    var k1, k2 := ConsumerKey(n1, id1), ConsumerKey(n2, id2);
    if k1 == k2 {
      assert |n1| == |n2|;
      assert n1 == k1[..|n1|] == k2[..|n2|] == n2;
      assert id1 == k1[|n1| + 1..] == k2[|n2| + 1..] == id2;
    }
  }

  /** Without the length condition two different consumers can share a key. */
  lemma KeyCollision()
    ensures ConsumerKey("a", "b-c") == ConsumerKey("a-b", "c")
  {
    assert ConsumerKey("a", "b-c") == "a-b-c";
    assert ConsumerKey("a-b", "c") == "a-b-c";
  }
}
