/** Option type and the two list transforms every calendar container uses on
    its event list: JavaScript's `filter` and a `map` that rewrites only the
    elements a selector picks. */
module Seqs {

  datatype Option<+T> = None | Some(value: T)

  /** `s.filter(keep)`: the elements of `s` that satisfy `keep`, in order. */
  function Filter<T>(s: seq<T>, keep: T -> bool): (r: seq<T>)
    ensures |r| <= |s|
    ensures forall i :: 0 <= i < |r| ==> keep(r[i])
    ensures forall i :: 0 <= i < |s| && keep(s[i]) ==> s[i] in r
  {
    if s == [] then []
    else if keep(s[0]) then [s[0]] + Filter(s[1..], keep)
    else Filter(s[1..], keep)
  }

  /** Counted with multiplicity, the filter keeps every passing element as
      often as it occurs and drops every failing one. */
  lemma {:induction false} FilterCounts<T(!new)>(s: seq<T>, keep: T -> bool, x: T)
    ensures multiset(Filter(s, keep))[x] == if keep(x) then multiset(s)[x] else 0
  {
    if s != [] {
      FilterCounts(s[1..], keep, x);
      assert s == [s[0]] + s[1..];
    }
  }

  /** Filtering distributes over concatenation, so relative order is kept. */
  lemma {:induction false} FilterConcat<T(!new)>(a: seq<T>, b: seq<T>, keep: T -> bool)
    ensures Filter(a + b, keep) == Filter(a, keep) + Filter(b, keep)
  {
    if a != [] {
      assert (a + b)[0] == a[0] && (a + b)[1..] == a[1..] + b;
      FilterConcat(a[1..], b, keep);
    } else {
      assert a + b == b;
    }
  }

  /** A filter changes nothing exactly when every element already passes. */
  lemma {:induction false} FilterIdentity<T(!new)>(s: seq<T>, keep: T -> bool)
    ensures Filter(s, keep) == s <==> forall i :: 0 <= i < |s| ==> keep(s[i])
  {
    if s != [] {
      FilterIdentity(s[1..], keep);
      if forall i :: 0 <= i < |s| ==> keep(s[i]) {
        assert forall i :: 0 <= i < |s[1..]| ==> keep(s[1..][i]) by {
          forall i | 0 <= i < |s[1..]| ensures keep(s[1..][i]) { assert s[1..][i] == s[i + 1]; }
        }
      }
    }
  }

  /** Filtering removes exactly the one element that fails, when there is only one. */
  lemma FilterRemovesOne<T(!new)>(s: seq<T>, k: int, keep: T -> bool)
    requires 0 <= k < |s| && !keep(s[k])
    requires forall i :: 0 <= i < |s| && i != k ==> keep(s[i])
    ensures Filter(s, keep) == s[..k] + s[k + 1..]
    ensures |Filter(s, keep)| == |s| - 1
  {
    var before, after := s[..k], s[k + 1..];
    assert Filter(before, keep) == before by {
      forall i | 0 <= i < |before| ensures keep(before[i]) { assert before[i] == s[i]; }
      FilterIdentity(before, keep);
    }
    assert Filter([s[k]] + after, keep) == after by {
      forall i | 0 <= i < |after| ensures keep(after[i]) { assert after[i] == s[k + 1 + i]; }
      FilterIdentity(after, keep);
      FilterRejectedHead(s[k], after, keep);
    }
    FilterConcat(before, [s[k]] + after, keep);
    assert s == before + ([s[k]] + after);
  }

  /** A first element that fails the filter is dropped. */
  lemma FilterRejectedHead<T>(e: T, s: seq<T>, keep: T -> bool)
    requires !keep(e)
    ensures Filter([e] + s, keep) == Filter(s, keep)
  {
    assert ([e] + s)[1..] == s;
  }

  /** Appending an element that fails the filter and then filtering gives the
      filtered original. */
  lemma FilterAppendRejected<T(!new)>(s: seq<T>, e: T, keep: T -> bool)
    requires !keep(e)
    ensures Filter(s + [e], keep) == Filter(s, keep)
  {
    FilterConcat(s, [e], keep);
    assert Filter([e], keep) == [];
  }

  /** `s.map(x => sel(x) ? f(x) : x)`: rewrite the selected elements, keep the rest. */
  function MapWhere<T>(s: seq<T>, sel: T -> bool, f: T -> T): (r: seq<T>)
    ensures |r| == |s|
    ensures forall i :: 0 <= i < |s| ==> r[i] == if sel(s[i]) then f(s[i]) else s[i]
  {
    if s == [] then []
    else [if sel(s[0]) then f(s[0]) else s[0]] + MapWhere(s[1..], sel, f)
  }

  /** The filter `x => key(x) !== id` of a delete by id. */
  function OtherKey<T, K(==)>(key: T -> K, id: K): T -> bool {
    x => key(x) != id
  }

  /** `s.filter(x => key(x) !== id)`: delete every element whose key is `id`. */
  function RemoveKey<T, K(==)>(s: seq<T>, key: T -> K, id: K): seq<T> {
    Filter(s, OtherKey(key, id))
  }

  predicate UniqueKeys<T, K(==)>(s: seq<T>, key: T -> K) {
    forall i, j :: 0 <= i < j < |s| ==> key(s[i]) != key(s[j])
  }

  /** Delete by key leaves no element with the key, and keeps every other
      element as many times as it occurred. */
  lemma RemoveKeyEffect<T(!new), K>(s: seq<T>, key: T -> K, id: K, x: T)
    ensures forall i :: 0 <= i < |RemoveKey(s, key, id)| ==> key(RemoveKey(s, key, id)[i]) != id
    ensures multiset(RemoveKey(s, key, id))[x] == if key(x) == id then 0 else multiset(s)[x]
  {
    FilterCounts(s, OtherKey(key, id), x);
  }

  /** Delete by key changes the list exactly when some element has the key. */
  lemma RemoveKeyAbsent<T(!new), K>(s: seq<T>, key: T -> K, id: K)
    ensures RemoveKey(s, key, id) == s <==> forall i :: 0 <= i < |s| ==> key(s[i]) != id
  {
    FilterIdentity(s, OtherKey(key, id));
  }

  /** With unique keys, deleting a key that is present removes that one
      element and keeps the others in order. */
  lemma RemoveKeyUnique<T(!new), K>(s: seq<T>, key: T -> K, k: int)
    requires UniqueKeys(s, key) && 0 <= k < |s|
    ensures RemoveKey(s, key, key(s[k])) == s[..k] + s[k + 1..]
  {
    FilterRemovesOne(s, k, OtherKey(key, key(s[k])));
  }

  /** Appending an element under a fresh key and deleting that key restores
      the list; a fresh key also keeps the keys unique. */
  lemma AppendThenRemoveKey<T(!new), K>(s: seq<T>, key: T -> K, x: T)
    requires forall i :: 0 <= i < |s| ==> key(s[i]) != key(x)
    ensures RemoveKey(s + [x], key, key(x)) == s
    ensures UniqueKeys(s, key) ==> UniqueKeys(s + [x], key)
  {
    FilterAppendRejected(s, x, OtherKey(key, key(x)));
    FilterIdentity(s, OtherKey(key, key(x)));
  }
}
