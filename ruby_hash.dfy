/**
  Ruby's Hash as the client uses it for request parameters: an
  insertion-ordered map. Storing an existing key updates it where it stands;
  storing a new key appends it. Parameter sorting is switched off in the
  client, so this order is the order on the wire.
 */
module RubyHash {
  import opened Wrappers
  import opened RubyValues

  /** The keys of a parameter Hash. The named ones are the symbols the
      builders use; `Other` is any key that is not one of these symbols (for
      example a String key a caller of `place_order` supplies, which Ruby
      keeps apart from the symbol of the same spelling). */
  datatype Key =
    | Symbol | Side | Type | Quantity | Price | TimeInForce | StopPrice | ClosePosition
    | ReduceOnly | ActivationPrice | CallbackRate | GoodTillDate | Timestamp
    | StartTime | EndTime
    | Other(name: string)

  type Entry = (Key, Value)

  /** A Hash: entries in insertion order. Ruby never keeps a key twice;
      `UniqueKeys` states that, and every operation here preserves it. */
  type Hash = seq<Entry>

  predicate UniqueKeys(p: Hash) {
    forall i, j :: 0 <= i < j < |p| ==> p[i].0 != p[j].0
  }

  /** Whether `k` is a key of `p` (`hash.key?(k)`). */
  predicate HasKey(p: Hash, k: Key) {
    exists i :: 0 <= i < |p| && p[i].0 == k
  }

  /** The keys of `p` in insertion order (`hash.keys`). */
  function Keys(p: Hash): seq<Key> {
    seq(|p|, i requires 0 <= i < |p| => p[i].0)
  }

  /** A key is among `Keys(p)` exactly when some entry of `p` carries it. */
  lemma KeysHasKey(p: Hash, k: Key)
    ensures k in Keys(p) <==> HasKey(p, k)
  {
    if HasKey(p, k) {
      var i :| 0 <= i < |p| && p[i].0 == k;
      assert Keys(p)[i] == k;
    }
  }

  /** The position of the first entry with key `k`. */
  function IndexOf(p: Hash, k: Key): (i: nat)
    requires HasKey(p, k)
    ensures i < |p| && p[i].0 == k
    ensures forall j :: 0 <= j < i ==> p[j].0 != k
    decreases |p|
  {
    if p[0].0 == k then 0
    else
      assert HasKey(p[1..], k) by {
        var j :| 0 <= j < |p| && p[j].0 == k;
        assert p[1..][j - 1] == p[j];
      }
      var i := IndexOf(p[1..], k);
      assert forall j :: 1 <= j < 1 + i ==> p[j] == p[1..][j - 1];
      1 + i
  }

  /** With unique keys, the key at position `i` is found at position `i`. */
  lemma IndexOfAt(p: Hash, i: nat)
    requires UniqueKeys(p) && i < |p|
    ensures HasKey(p, p[i].0) && IndexOf(p, p[i].0) == i
  {
  }

  /** `hash[k]`, with `None` for a missing key. */
  function Lookup(p: Hash, k: Key): (r: Option<Value>)
    ensures r.Some? <==> HasKey(p, k)
    ensures HasKey(p, k) ==> r == Some(p[IndexOf(p, k)].1)
    decreases |p|
  {
    if p == [] then None
    else if p[0].0 == k then Some(p[0].1)
    else
      assert HasKey(p, k) ==> HasKey(p[1..], k) && IndexOf(p, k) == 1 + IndexOf(p[1..], k);
      assert HasKey(p[1..], k) ==> HasKey(p, k) by {
        if HasKey(p[1..], k) {
          var j :| 0 <= j < |p[1..]| && p[1..][j].0 == k;
          assert p[j + 1].0 == k;
        }
      }
      Lookup(p[1..], k)
  }

  /** The value stored at position `i` is what `hash[k]` finds for its key. */
  lemma LookupAt(p: Hash, i: nat)
    requires UniqueKeys(p) && i < |p|
    ensures Lookup(p, p[i].0) == Some(p[i].1)
  {
    IndexOfAt(p, i);
  }

  /** `hash[k] = v`: an existing key stays where it is and takes the new
      value; a new key is appended last. */
  function Store(p: Hash, k: Key, v: Value): (r: Hash)
    ensures |r| == if HasKey(p, k) then |p| else |p| + 1
  {
    if HasKey(p, k) then
      var i := IndexOf(p, k);
      p[..i] + [(k, v)] + p[i + 1..]
    else
      p + [(k, v)]
  }

  /** Storing a key found at position `i` replaces that one entry. */
  lemma StoreAt(p: Hash, i: nat, v: Value)
    requires UniqueKeys(p) && i < |p|
    ensures Store(p, p[i].0, v) == p[..i] + [(p[i].0, v)] + p[i + 1..]
  {
    IndexOfAt(p, i);
  }

  /** Storing a key that is not there appends it. */
  lemma StoreFresh(p: Hash, k: Key, v: Value)
    requires k !in Keys(p)
    ensures Store(p, k, v) == p + [(k, v)]
  {
    KeysHasKey(p, k);
  }

  /** Storing never moves an existing key and touches no other entry. */
  lemma StoreKeepsKeys(p: Hash, k: Key, v: Value)
    ensures |p| <= |Store(p, k, v)| && Keys(Store(p, k, v))[..|p|] == Keys(p)
    ensures forall i :: 0 <= i < |p| && p[i].0 != k ==> Store(p, k, v)[i] == p[i]
    ensures forall i :: 0 <= i < |Store(p, k, v)| ==>
      Store(p, k, v)[i].0 == k || (i < |p| && Store(p, k, v)[i].0 == p[i].0)
  {
    var r := Store(p, k, v);
    if HasKey(p, k) {
      var at := IndexOf(p, k);
      assert r == p[..at] + [(k, v)] + p[at + 1..];
      assert forall i :: 0 <= i < |p| && i != at ==> r[i] == p[i];
    } else {
      assert r == p + [(k, v)];
      assert forall i :: 0 <= i < |p| ==> r[i] == p[i];
    }
    assert Keys(r)[..|p|] == Keys(p);
  }

  /** Storing keeps the keys unique. */
  lemma StoreKeepsUnique(p: Hash, k: Key, v: Value)
    requires UniqueKeys(p)
    ensures UniqueKeys(Store(p, k, v))
  {
    var r := Store(p, k, v);
    if HasKey(p, k) {
      assert forall j :: 0 <= j < |r| ==> r[j].0 == p[j].0;
    }
  }

  /** Read back after a store: the stored key yields the new value, every
      other key what it yielded before. */
  lemma StoreLookup(p: Hash, k: Key, v: Value)
    requires UniqueKeys(p)
    ensures Lookup(Store(p, k, v), k) == Some(v)
    ensures forall k' :: k' != k ==> Lookup(Store(p, k, v), k') == Lookup(p, k')
  {
    var r := Store(p, k, v);
    StoreKeepsKeys(p, k, v);
    StoreKeepsUnique(p, k, v);
    var at := if HasKey(p, k) then IndexOf(p, k) else |p|;
    assert r[at] == (k, v);
    IndexOfAt(r, at);
    forall k' | k' != k
      ensures Lookup(r, k') == Lookup(p, k')
    {
      if HasKey(p, k') {
        var j := IndexOf(p, k');
        assert r[j] == p[j];
        IndexOfAt(r, j);
      } else {
        assert !HasKey(r, k');
      }
    }
  }

  /** The keys and values of a non-empty Hash are its first entry's and its tail's. */
  lemma HeadAndTail(q: Hash)
    requires UniqueKeys(q) && q != []
    ensures UniqueKeys(q[1..]) && !HasKey(q[1..], q[0].0)
    ensures forall k :: HasKey(q, k) <==> k == q[0].0 || HasKey(q[1..], k)
    ensures forall k :: k != q[0].0 ==> Lookup(q[1..], k) == Lookup(q, k)
  {
    assert forall j :: 0 <= j < |q[1..]| ==> q[1..][j] == q[j + 1];
    forall k | HasKey(q, k) && k != q[0].0
      ensures HasKey(q[1..], k)
    {
      var i :| 0 <= i < |q| && q[i].0 == k;
      assert q[1..][i - 1] == q[i];
    }
  }

  /** `p.merge(q)`: the entries of `q` stored into `p` in `q`'s order. */
  function Merge(p: Hash, q: Hash): (r: Hash)
    ensures |p| <= |r| <= |p| + |q|
    decreases |q|
  {
    if q == [] then p else Merge(Store(p, q[0].0, q[0].1), q[1..])
  }

  /** Merging keeps the keys unique. */
  lemma {:induction false} MergeKeepsUnique(p: Hash, q: Hash)
    requires UniqueKeys(p)
    ensures UniqueKeys(Merge(p, q))
    decreases |q|
  {
    if q != [] {
      StoreKeepsUnique(p, q[0].0, q[0].1);
      MergeKeepsUnique(Store(p, q[0].0, q[0].1), q[1..]);
    }
  }

  /** Read back after a merge: the keys of `q` yield `q`'s values, every
      other key what it yielded in `p`. */
  lemma {:induction false} MergeLookup(p: Hash, q: Hash)
    requires UniqueKeys(p) && UniqueKeys(q)
    ensures forall k :: Lookup(Merge(p, q), k) == (if HasKey(q, k) then Lookup(q, k) else Lookup(p, k))
    decreases |q|
  {
    if q != [] {
      StoreLookup(p, q[0].0, q[0].1);
      StoreKeepsUnique(p, q[0].0, q[0].1);
      HeadAndTail(q);
      MergeLookup(Store(p, q[0].0, q[0].1), q[1..]);
    }
  }

  /** A merge keeps every existing key where it was, and leaves the
      entries of keys `q` does not mention untouched. */
  lemma {:induction false} MergeKeepsPositions(p: Hash, q: Hash)
    ensures |p| <= |Merge(p, q)| && Keys(Merge(p, q))[..|p|] == Keys(p)
    ensures forall i :: 0 <= i < |p| && !HasKey(q, p[i].0) ==> Merge(p, q)[i] == p[i]
    decreases |q|
  {
    if q != [] {
      StoreKeepsKeys(p, q[0].0, q[0].1);
      MergeKeepsPositions(Store(p, q[0].0, q[0].1), q[1..]);
      forall k | HasKey(q[1..], k)
        ensures HasKey(q, k)
      {
        var j :| 0 <= j < |q[1..]| && q[1..][j].0 == k;
        assert q[j + 1].0 == k;
      }
    }
  }

  /** Merging a two-entry Hash stores its entries one after the other. */
  lemma MergePair(p: Hash, q: Hash)
    requires |q| == 2
    ensures Merge(p, q) == Store(Store(p, q[0].0, q[0].1), q[1].0, q[1].1)
  {
    var p' := Store(p, q[0].0, q[0].1);
    assert q[1..] == [q[1]] && q[1..][1..] == [];
    assert Merge(p', q[1..]) == Merge(Store(p', q[1].0, q[1].1), []);
  }

  /** Merging only new keys appends them, in order, after the existing ones. */
  lemma {:induction false} MergeFresh(p: Hash, q: Hash)
    requires UniqueKeys(q)
    requires forall i :: 0 <= i < |q| ==> q[i].0 !in Keys(p)
    ensures Merge(p, q) == p + q
    decreases |q|
  {
    if q != [] {
      StoreFresh(p, q[0].0, q[0].1);
      var p' := p + [q[0]];
      var rest := q[1..];
      assert Keys(p') == Keys(p) + [q[0].0];
      forall i | 0 <= i < |rest|
        ensures rest[i].0 !in Keys(p')
      {
        assert rest[i] == q[i + 1] && q[0].0 != q[i + 1].0;
      }
      assert UniqueKeys(rest) by {
        assert forall i :: 0 <= i < |rest| ==> rest[i] == q[i + 1];
      }
      assert p' + rest == p + q;
      MergeFresh(p', rest);
    }
  }

  /** A Hash object a builder updates in place with `merge!`. */
  class MutableHash {
    var entries: Hash

    /** No key appears twice. */
    ghost predicate Valid()
      reads this
    {
      UniqueKeys(entries)
    }

    constructor (init: Hash)
      requires UniqueKeys(init)
      ensures Valid() && entries == init
    {
      entries := init;
    }

    /** `merge!(other)`: stores each entry of `other` in turn. */
    method MergeInPlace(other: Hash)
      requires Valid()
      modifies this
      ensures Valid() && entries == Merge(old(entries), other)
    {
      var i := 0;
      while i < |other|
        invariant 0 <= i <= |other| && UniqueKeys(entries)
        invariant Merge(entries, other[i..]) == Merge(old(entries), other)
      {
        assert other[i..][1..] == other[i + 1..];
        StoreKeepsUnique(entries, other[i].0, other[i].1);
        entries := Store(entries, other[i].0, other[i].1);
        i := i + 1;
      }
    }
  }
}
