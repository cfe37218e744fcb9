/**
 * Plain JavaScript objects used as dictionaries.  An object is the sequence
 * of its own enumerable entries in `Object.entries` order.  For keys that do
 * not look like array indices (every key this model builds: `--color-…`,
 * `.sh-…`, selectors) that order is insertion order, which is what `Put`
 * keeps.
 */
module JsObject {
  import opened Wrappers

  type Obj<V> = seq<(string, V)>

  predicate HasKey<V>(o: Obj<V>, k: string)
  {
    exists i :: 0 <= i < |o| && o[i].0 == k
  }

  /** An object never holds two entries under one key. */
  predicate UniqueKeys<V>(o: Obj<V>)
  {
    forall i, j :: 0 <= i < j < |o| ==> o[i].0 != o[j].0
  }

  /** Where key `k` sits in `o`: its first entry, or `None` when `o` has no such key. */
  function KeyIndex<V>(o: Obj<V>, k: string, from: nat := 0): (r: Option<nat>)
    ensures r.Some? ==> from <= r.value < |o| && o[r.value].0 == k
    ensures r.Some? ==> forall j :: from <= j < r.value ==> o[j].0 != k
    ensures r.None? ==> forall j :: from <= j < |o| ==> o[j].0 != k
    decreases |o| - from
  {
    if from >= |o| then None
    else if o[from].0 == k then Some(from)
    else KeyIndex(o, k, from + 1)
  }

  /** The first entry under `k` is the one at `i` when no earlier entry has that key. */
  lemma KeyIndexAt<V>(o: Obj<V>, k: string, i: nat)
    requires i < |o| && o[i].0 == k
    requires forall j :: 0 <= j < i ==> o[j].0 != k
    ensures KeyIndex(o, k) == Some(i)
  {
  }

  lemma KeyIndexNone<V>(o: Obj<V>, k: string)
    requires forall j :: 0 <= j < |o| ==> o[j].0 != k
    ensures KeyIndex(o, k) == None
  {
  }

  /** Property read `o[k]`: `None` stands for `undefined`. */
  function Get<V>(o: Obj<V>, k: string): (r: Option<V>)
    ensures r.None? <==> !HasKey(o, k)
    ensures r.Some? ==> (k, r.value) in o
  {
    match KeyIndex(o, k)
    case Some(i) => Some(o[i].1)
    case None => None
  }

  /**
   * Property write `o[k] = v`: an existing key keeps its place and takes the
   * new value, a new key is appended.
   */
  function Put<V>(o: Obj<V>, k: string, v: V): (r: Obj<V>)
    ensures HasKey(o, k) ==> |r| == |o| && forall i :: 0 <= i < |o| ==> r[i].0 == o[i].0
    ensures !HasKey(o, k) ==> r == o + [(k, v)]
  {
    match KeyIndex(o, k)
    case Some(i) => o[i := (k, v)]
    case None => o + [(k, v)]
  }

  /** After `o[k] = v`, reading `k` gives `v` and every other key reads as before. */
  lemma GetPut<V>(o: Obj<V>, k: string, v: V, k': string)
    ensures Get(Put(o, k, v), k') == if k' == k then Some(v) else Get(o, k')
  {
    var r := Put(o, k, v);
    assert forall j :: 0 <= j < |o| ==> r[j].0 == o[j].0 by {
      if !HasKey(o, k) {
        assert forall j :: 0 <= j < |o| ==> r[j] == o[j];
      }
    }
    match KeyIndex(o, k)
    case Some(i) =>
      KeyIndexAt(r, k, i);
      if k' != k {
        match KeyIndex(o, k')
        case Some(j) => KeyIndexAt(r, k', j);
        case None => KeyIndexNone(r, k');
      }
    case None =>
      if k' != k {
        match KeyIndex(o, k')
        case Some(j) => KeyIndexAt(r, k', j);
        case None => KeyIndexNone(r, k');
      } else {
        KeyIndexAt(r, k, |o|);
      }
  }

  /** Writing a property keeps the keys of an object unique. */
  lemma PutUnique<V>(o: Obj<V>, k: string, v: V)
    requires UniqueKeys(o)
    ensures UniqueKeys(Put(o, k, v))
  {
  }

  /** `Object.assign(target, source)`: the entries of `source` written into `target` in order. */
  function Assign<V>(target: Obj<V>, source: Obj<V>): Obj<V>
    decreases |source|
  {
    if source == [] then target
    else Assign(Put(target, source[0].0, source[0].1), source[1..])
  }

  /** After `o[k] = v` the object has the keys it had, and `k`. */
  lemma PutKeys<V>(o: Obj<V>, k: string, v: V, k': string)
    ensures HasKey(Put(o, k, v), k') <==> HasKey(o, k') || k' == k
  {
    GetPut(o, k, v, k');
  }

  /** `Object.assign` leaves the target with its own keys and every key of the source. */
  lemma {:induction false} AssignKeys<V>(target: Obj<V>, source: Obj<V>, k: string)
    ensures HasKey(Assign(target, source), k) <==> HasKey(target, k) || HasKey(source, k)
    decreases |source|
  {
    if source != [] {
      PutKeys(target, source[0].0, source[0].1, k);
      AssignKeys(Put(target, source[0].0, source[0].1), source[1..], k);
      assert HasKey(source, k) <==> source[0].0 == k || HasKey(source[1..], k) by {
        if HasKey(source, k) && source[0].0 != k {
          var i :| 0 <= i < |source| && source[i].0 == k;
          assert source[1..][i - 1].0 == k;
        }
        if HasKey(source[1..], k) {
          var i :| 0 <= i < |source[1..]| && source[1..][i].0 == k;
          assert source[i + 1].0 == k;
        }
      }
    }
  }

  /** A key is in a concatenation when it is in either part. */
  lemma HasKeyConcat<V>(a: Obj<V>, b: Obj<V>, k: string)
    ensures HasKey(a + b, k) <==> HasKey(a, k) || HasKey(b, k)
  {
    if HasKey(a + b, k) {
      var i :| 0 <= i < |a + b| && (a + b)[i].0 == k;
      if i >= |a| {
        assert b[i - |a|].0 == k;
      }
    }
    if HasKey(a, k) {
      var i :| 0 <= i < |a| && a[i].0 == k;
      assert (a + b)[i].0 == k;
    }
    if HasKey(b, k) {
      var i :| 0 <= i < |b| && b[i].0 == k;
      assert (a + b)[|a| + i].0 == k;
    }
  }

  /** In an object with unique keys every entry is what a read of its key returns. */
  lemma GetEntry<V>(o: Obj<V>, i: nat)
    requires UniqueKeys(o) && i < |o|
    ensures Get(o, o[i].0) == Some(o[i].1)
  {
    KeyIndexAt(o, o[i].0, i);
  }

  /** Two objects with unique keys and no key in common concatenate to an object with unique keys. */
  lemma UniqueConcat<V>(a: Obj<V>, b: Obj<V>)
    requires UniqueKeys(a) && UniqueKeys(b)
    requires forall k :: HasKey(a, k) ==> !HasKey(b, k)
    ensures UniqueKeys(a + b)
  {
    forall i, j | 0 <= i < j < |a + b|
      ensures (a + b)[i].0 != (a + b)[j].0
    {
      if i < |a| && j >= |a| {
        assert HasKey(a, a[i].0);
        assert (a + b)[j] == b[j - |a|];
      }
    }
  }

  /**
   * When no key of `source` is already in `target`, `Object.assign` appends
   * the entries of `source`, in order: nothing is overwritten.
   */
  lemma {:induction false} AssignFresh<V>(target: Obj<V>, source: Obj<V>)
    requires UniqueKeys(source)
    requires forall k :: HasKey(source, k) ==> !HasKey(target, k)
    ensures Assign(target, source) == target + source
    decreases |source|
  {
    if source != [] {
      var t' := Put(target, source[0].0, source[0].1);
      assert HasKey(source, source[0].0);
      assert t' == target + [source[0]];
      forall k | HasKey(source[1..], k)
        ensures !HasKey(t', k)
      {
        var i :| 0 <= i < |source| - 1 && source[1..][i].0 == k;
        assert source[i + 1].0 == k;
        assert HasKey(source, k);
        PutKeys(target, source[0].0, source[0].1, k);
      }
      assert UniqueKeys(source[1..]) by {
        forall i, j | 0 <= i < j < |source| - 1 ensures source[1..][i].0 != source[1..][j].0 {
          assert source[1..][i] == source[i + 1] && source[1..][j] == source[j + 1];
        }
      }
      AssignFresh(t', source[1..]);
      assert target + source == t' + source[1..];
    }
  }
}
