/**
 The sharded map of map.go, call by call: every operation holds the lock of the one shard it
 touches, so one call is one atomic change. It agrees with one plain map.
 */
module ConcurrentMaps {
  import opened Wrappers
  import opened Fnv

  /** One shard; its lock is not modelled here. */
  class Shard<V> {
    var items: map<Key, V>

    constructor ()
      ensures items == map[]
    {
      items := map[];
    }
  }

  function ShardOf(key: Key, n: nat): (i: nat)
    requires n > 0
    ensures i < n
  {
    Hash(key) % n
  }

  class ConcurrentMap<V> {
    const shards: array<Shard<V>>
    /** The plain map that the shards stand for. */
    ghost var contents: map<Key, V>

    ghost predicate Valid()
      reads this, shards, set i | 0 <= i < shards.Length :: shards[i]
    {
      && shards.Length > 0
      && (forall i, j :: 0 <= i < j < shards.Length ==> shards[i] != shards[j])
      && (forall i, k :: 0 <= i < shards.Length && k in shards[i].items ==> ShardOf(k, shards.Length) == i)
      && (forall k :: k in contents <==> k in shards[ShardOf(k, shards.Length)].items)
      && (forall k :: k in contents ==> contents[k] == shards[ShardOf(k, shards.Length)].items[k])
    }

    /** The shards of `m`, which every changing operation may write. */
    ghost function Parts(): set<Shard<V>>
      reads shards
    {
      set i | 0 <= i < shards.Length :: shards[i]
    }

    /** NewConcurrentMap, for any number of shards above zero. */
    constructor (count: nat)
      requires count > 0
      ensures Valid() && contents == map[] && shards.Length == count && fresh(shards) && fresh(Parts())
    {
      var filler := new Shard();
      shards := new Shard<V>[count](_ => filler);
      contents := map[];
      new;
      var i := 0;
      while i < count
        invariant 0 <= i <= count && shards.Length == count && contents == map[] && fresh(shards)
        invariant forall j :: 0 <= j < i ==> fresh(shards[j]) && shards[j].items == map[]
        invariant forall j, k :: 0 <= j < k < i ==> shards[j] != shards[k]
        modifies shards
      {
        shards[i] := new Shard();
        i := i + 1;
      }
    }

    method GetShard(key: Key) returns (shard: Shard<V>)
      requires shards.Length > 0
      ensures shard == shards[ShardOf(key, shards.Length)]
    {
      var hash := Fnv32(key);
      shard := shards[hash % shards.Length];
    }

    method Set(key: Key, value: V)
      requires Valid()
      modifies this, Parts()
      ensures Valid() && contents == old(contents)[key := value]
    {
      var shard := GetShard(key);
      shard.items := shard.items[key := value];
      contents := contents[key := value];
    }

    /** MSet: whatever order the pairs come in, the result is the old map overridden by the data. */
    method MSet(data: map<Key, V>)
      requires Valid()
      modifies this, Parts()
      ensures Valid() && contents == old(contents) + data
    {
      var rest := data;
      ghost var before := contents;
      while rest.Keys != {}
        invariant Valid() && forall k :: k in rest ==> k in data && rest[k] == data[k]
        invariant contents + rest == before + data
        decreases |rest|
      {
        var key :| key in rest.Keys;
        PutFirst(contents, rest, key);
        Set(key, rest[key]);
        rest := rest - {key};
      }
      assert contents + rest == contents;
    }

    /** Writing one pair first and the others after it is writing them all. */
    static lemma PutFirst(m: map<Key, V>, rest: map<Key, V>, key: Key)
      requires key in rest
      ensures m[key := rest[key]] + (rest - {key}) == m + rest
    {
    }

    method Upsert(key: Key, value: V, cb: (bool, Option<V>, V) -> V) returns (res: V)
      requires Valid()
      modifies this, Parts()
      ensures Valid() && contents == old(contents)[key := res]
      ensures res == cb(key in old(contents), if key in old(contents) then Some(old(contents)[key]) else None, value)
    {
      var shard := GetShard(key);
      var ok := key in shard.items;
      res := cb(ok, if ok then Some(shard.items[key]) else None, value);
      shard.items := shard.items[key := res];
      contents := contents[key := res];
    }

    method SetIfAbsent(key: Key, value: V) returns (set': bool)
      requires Valid()
      modifies this, Parts()
      ensures Valid() && (set' <==> key !in old(contents))
      ensures contents == if set' then old(contents)[key := value] else old(contents)
    {
      var shard := GetShard(key);
      set' := key !in shard.items;
      if set' {
        shard.items := shard.items[key := value];
        contents := contents[key := value];
      }
    }

    method Get(key: Key) returns (value: Option<V>)
      requires Valid()
      ensures value == if key in contents then Some(contents[key]) else None
    {
      var shard := GetShard(key);
      value := if key in shard.items then Some(shard.items[key]) else None;
    }

    method Has(key: Key) returns (ok: bool)
      requires Valid()
      ensures ok <==> key in contents
    {
      var shard := GetShard(key);
      ok := key in shard.items;
    }

    method Remove(key: Key)
      requires Valid()
      modifies this, Parts()
      ensures Valid() && contents == old(contents) - {key}
    {
      var shard := GetShard(key);
      shard.items := shard.items - {key};
      contents := contents - {key};
    }

    method Pop(key: Key) returns (value: Option<V>)
      requires Valid()
      modifies this, Parts()
      ensures Valid() && contents == old(contents) - {key}
      ensures value == if key in old(contents) then Some(old(contents)[key]) else None
    {
      var shard := GetShard(key);
      value := if key in shard.items then Some(shard.items[key]) else None;
      shard.items := shard.items - {key};
      contents := contents - {key};
    }

    /** The keys that live in the first `n` shards. */
    ghost function KeysBelow(n: nat): set<Key>
      requires shards.Length > 0
      reads this
    {
      set k | k in contents && ShardOf(k, shards.Length) < n
    }

    lemma NextShard(i: nat)
      requires Valid() && i < shards.Length
      ensures |KeysBelow(i + 1)| == |KeysBelow(i)| + |shards[i].items|
    {
      assert KeysBelow(i + 1) == KeysBelow(i) + shards[i].items.Keys;
      assert KeysBelow(i) !! shards[i].items.Keys;
      assert |shards[i].items| == |shards[i].items.Keys|;
    }

    method Count() returns (count: nat)
      requires Valid()
      ensures count == |contents|
    {
      count := 0;
      var i := 0;
      assert KeysBelow(0) == {};
      while i < shards.Length
        invariant 0 <= i <= shards.Length && count == |KeysBelow(i)|
      {
        NextShard(i);
        count := count + |shards[i].items|;
        i := i + 1;
      }
      assert KeysBelow(i) == contents.Keys;
    }

    method IsEmpty() returns (empty: bool)
      requires Valid()
      ensures empty <==> contents == map[]
    {
      var n := Count();
      empty := n == 0;
    }
  }
}
