/** Rust's `BTreeMap<String, V>`: an ordered map whose enumeration order is ascending
    key order. It is modelled as a list of entries whose keys are strictly ascending,
    so that iterating the map is walking the list. */
module OrderedMap {
  import opened Wrappers

  /** `Ord` for Rust strings: lexicographic by character. Comparing Unicode scalar
      values is the same as comparing their UTF-8 bytes, which is what Rust does. */
  predicate Less(a: string, b: string)
    decreases |a|
  {
    if a == [] then b != []
    else b != [] && (a[0] < b[0] || (a[0] == b[0] && Less(a[1..], b[1..])))
  }

  lemma {:induction false} LessIrreflexive(a: string)
    ensures !Less(a, a)
  {
    if a != [] {
      LessIrreflexive(a[1..]);
    }
  }

  lemma {:induction false} LessTransitive(a: string, b: string, c: string)
    requires Less(a, b) && Less(b, c)
    ensures Less(a, c)
  {
    if a != [] && a[0] == b[0] && b[0] == c[0] {
      LessTransitive(a[1..], b[1..], c[1..]);
    }
  }

  lemma {:induction false} LessTotal(a: string, b: string)
    requires a != b
    ensures Less(a, b) || Less(b, a)
  {
    if a != [] && b != [] && a[0] == b[0] {
      assert a == [a[0]] + a[1..] && b == [b[0]] + b[1..];
      LessTotal(a[1..], b[1..]);
    }
  }

  lemma LessAsymmetric(a: string, b: string)
    requires Less(a, b)
    ensures !Less(b, a)
  {
    if Less(b, a) {
      LessTransitive(a, b, a);
      LessIrreflexive(a);
    }
  }

  datatype Entry<V> = Entry(key: string, value: V)

  /** Keys strictly ascending: the shape of every `BTreeMap`. */
  predicate Ordered<V>(m: seq<Entry<V>>) {
    forall i, j {:trigger Less(m[i].key, m[j].key)} :: 0 <= i < j < |m| ==> Less(m[i].key, m[j].key)
  }

  function Keys<V>(m: seq<Entry<V>>): set<string> {
    set i | 0 <= i < |m| :: m[i].key
  }

  /** `BTreeMap::get`: the value stored under `k`. */
  function Get<V>(m: seq<Entry<V>>, k: string): Option<V> {
    if m == [] then None else if m[0].key == k then Some(m[0].value) else Get(m[1..], k)
  }

  lemma {:induction false} GetSomeIffKey<V>(m: seq<Entry<V>>, k: string)
    ensures Get(m, k).Some? <==> k in Keys(m)
  {
    if m != [] {
      GetSomeIffKey(m[1..], k);
      assert Keys(m) == {m[0].key} + Keys(m[1..]) by {
        forall x | x in Keys(m) ensures x in {m[0].key} + Keys(m[1..]) {
          var i :| 0 <= i < |m| && m[i].key == x;
          if i > 0 { assert m[1..][i - 1].key == x; }
        }
        forall x | x in Keys(m[1..]) ensures x in Keys(m) {
          var i :| 0 <= i < |m[1..]| && m[1..][i].key == x;
          assert m[i + 1].key == x;
        }
      }
    }
  }

  /** In an ordered map every entry is found by its own key. */
  lemma {:induction false} GetAt<V>(m: seq<Entry<V>>, i: int)
    requires Ordered(m) && 0 <= i < |m|
    ensures Get(m, m[i].key) == Some(m[i].value)
  {
    if i > 0 {
      assert Less(m[0].key, m[i].key);
      LessIrreflexive(m[i].key);
      assert m[1..][i - 1] == m[i];
      GetAt(m[1..], i - 1);
    }
  }

  lemma KeysAppend<V>(m: seq<Entry<V>>, e: Entry<V>)
    ensures Keys(m + [e]) == Keys(m) + {e.key}
  {
    var n := m + [e];
    forall x | x in Keys(m) ensures x in Keys(n) {
      var i :| 0 <= i < |m| && m[i].key == x;
      assert n[i].key == x;
    }
    assert n[|m|].key == e.key;
  }

  lemma {:induction false} GetAppend<V>(m: seq<Entry<V>>, e: Entry<V>, k: string)
    ensures Get(m + [e], k) == if k in Keys(m) then Get(m, k) else if e.key == k then Some(e.value) else None
  {
    GetSomeIffKey(m, k);
    if m == [] {
      assert Get([e][1..], k) == None;
    } else {
      assert (m + [e])[1..] == m[1..] + [e];
      GetAppend(m[1..], e, k);
      GetSomeIffKey(m[1..], k);
    }
  }

  lemma PrependOrdered<V>(e: Entry<V>, m: seq<Entry<V>>)
    requires Ordered(m)
    requires forall x :: x in Keys(m) ==> Less(e.key, x)
    ensures Ordered([e] + m)
  {
    var n := [e] + m;
    forall i, j | 0 <= i < j < |n| ensures Less(n[i].key, n[j].key) {
      if i == 0 {
        assert n[j].key == m[j - 1].key;
        assert m[j - 1].key in Keys(m);
      }
    }
  }

  /** `BTreeMap::insert`: the entry for `k` is set to `v`, every other entry is kept,
      and the map stays ordered. */
  function Insert<V>(m: seq<Entry<V>>, k: string, v: V): (r: seq<Entry<V>>)
    requires Ordered(m)
    ensures Ordered(r)
    ensures Keys(r) == Keys(m) + {k}
    ensures forall k' :: Get(r, k') == if k' == k then Some(v) else Get(m, k')
  {
    if m == [] then
      HeadTailKeys([Entry(k, v)]);
      [Entry(k, v)]
    else if m[0].key == k then
      TailKeysAbove(m);
      PrependOrdered(Entry(k, v), m[1..]);
      HeadTailKeys(m);
      HeadTailKeys([Entry(k, v)] + m[1..]);
      assert ([Entry(k, v)] + m[1..])[1..] == m[1..];
      TailGet(m);
      [Entry(k, v)] + m[1..]
    else if Less(k, m[0].key) then
      KeysAboveHead(m, k);
      PrependOrdered(Entry(k, v), m);
      HeadTailKeys([Entry(k, v)] + m);
      [Entry(k, v)] + m
    else
      LessTotal(k, m[0].key);
      TailKeysAbove(m);
      var rest := Insert(m[1..], k, v);
      PrependOrdered(m[0], rest);
      HeadTailKeys(m);
      HeadTailKeys([m[0]] + rest);
      [m[0]] + rest
  }

  lemma HeadTailKeys<V>(m: seq<Entry<V>>)
    requires m != []
    ensures Keys(m) == {m[0].key} + Keys(m[1..])
  {
    forall x | x in Keys(m) ensures x in {m[0].key} + Keys(m[1..]) {
      var i :| 0 <= i < |m| && m[i].key == x;
      if i > 0 { assert m[1..][i - 1].key == x; }
    }
    forall x | x in Keys(m[1..]) ensures x in Keys(m) {
      var i :| 0 <= i < |m[1..]| && m[1..][i].key == x;
      assert m[i + 1].key == x;
    }
  }

  lemma TailKeysAbove<V>(m: seq<Entry<V>>)
    requires Ordered(m) && m != []
    ensures Ordered(m[1..])
    ensures forall x :: x in Keys(m[1..]) ==> Less(m[0].key, x)
  {
    forall x | x in Keys(m[1..]) ensures Less(m[0].key, x) {
      var i :| 0 <= i < |m[1..]| && m[1..][i].key == x;
      assert m[i + 1].key == x;
    }
  }

  lemma KeysAboveHead<V>(m: seq<Entry<V>>, k: string)
    requires Ordered(m) && m != [] && Less(k, m[0].key)
    ensures forall x :: x in Keys(m) ==> Less(k, x)
  {
    forall x | x in Keys(m) ensures Less(k, x) {
      var i :| 0 <= i < |m| && m[i].key == x;
      if i > 0 { LessTransitive(k, m[0].key, x); }
    }
  }

  /** In an ordered map the head's key does not occur again in the tail. */
  lemma TailGet<V>(m: seq<Entry<V>>)
    requires Ordered(m) && m != []
    ensures Get(m[1..], m[0].key) == None
  {
    TailKeysAbove(m);
    LessIrreflexive(m[0].key);
    GetSomeIffKey(m[1..], m[0].key);
  }

  /** `BTreeMap::retain` with the predicate "the key is in `keep`": the entries kept,
      in their order. */
  function Retain<V>(m: seq<Entry<V>>, keep: set<string>): (r: seq<Entry<V>>)
    ensures Keys(r) == Keys(m) * keep
    ensures forall k :: Get(r, k) == if k in keep then Get(m, k) else None
    ensures Ordered(m) ==> Ordered(r)
  {
    if m == [] then []
    else
      var rest := Retain(m[1..], keep);
      HeadTailKeys(m);
      if m[0].key in keep then
        HeadTailKeys([m[0]] + rest);
        RetainHeadOrdered(m, rest);
        [m[0]] + rest
      else
        if Ordered(m) then TailKeysAbove(m); rest else rest
  }

  lemma RetainHeadOrdered<V>(m: seq<Entry<V>>, rest: seq<Entry<V>>)
    requires m != [] && Keys(rest) <= Keys(m[1..])
    requires Ordered(m[1..]) ==> Ordered(rest)
    ensures Ordered(m) ==> Ordered([m[0]] + rest)
  {
    if Ordered(m) {
      TailKeysAbove(m);
      PrependOrdered(m[0], rest);
    }
  }

  /** In an ordered map the number of entries is the number of keys. */
  lemma {:induction false} OrderedCardinality<V>(m: seq<Entry<V>>)
    requires Ordered(m)
    ensures |Keys(m)| == |m|
  {
    if m != [] {
      TailKeysAbove(m);
      OrderedCardinality(m[1..]);
      HeadTailKeys(m);
      LessIrreflexive(m[0].key);
      assert m[0].key !in Keys(m[1..]);
    }
  }

  /** Retaining over a list extended by one entry retains that entry at the end. */
  lemma {:induction false} RetainSnoc<V>(m: seq<Entry<V>>, e: Entry<V>, keep: set<string>)
    ensures Retain(m + [e], keep) == Retain(m, keep) + (if e.key in keep then [e] else [])
  {
    if m == [] {
      assert [e][1..] == [];
    } else {
      assert (m + [e])[1..] == m[1..] + [e];
      RetainSnoc(m[1..], e, keep);
    }
  }

  /** The number of entries `retain` drops: those whose key is not in `keep`. */
  function Dropped<V>(m: seq<Entry<V>>, keep: set<string>): nat {
    if m == [] then 0
    else Dropped(m[..|m| - 1], keep) + (if m[|m| - 1].key in keep then 0 else 1)
  }

  /** In an ordered map the key of an entry does not occur before it. */
  lemma PrefixKeyFresh<V>(m: seq<Entry<V>>, i: nat)
    requires Ordered(m) && i < |m|
    ensures m[i].key !in Keys(m[..i])
  {
    if m[i].key in Keys(m[..i]) {
      var j :| 0 <= j < i && m[..i][j].key == m[i].key;
      assert Less(m[j].key, m[i].key);
      LessIrreflexive(m[i].key);
    }
  }

  /** `retain` drops as many entries as there are keys outside `keep`. */
  lemma {:induction false} DroppedIsKeyCount<V>(m: seq<Entry<V>>, keep: set<string>)
    requires Ordered(m)
    ensures Dropped(m, keep) == |Keys(m) - keep|
  {
    if m != [] {
      var n := |m| - 1;
      var p := m[..n];
      assert m == p + [m[n]];
      assert Ordered(p);
      DroppedIsKeyCount(p, keep);
      KeysAppend(p, m[n]);
      PrefixKeyFresh(m, n);
      if m[n].key in keep {
        assert Keys(m) - keep == Keys(p) - keep;
      } else {
        assert Keys(m) - keep == (Keys(p) - keep) + {m[n].key};
      }
    }
  }
}
