/** Small types shared by every module. */
module Prelude {

  datatype Option<+T> = None | Some(value: T)

  datatype Result<+T, +E> = Ok(value: T) | Err(error: E)

  /** Deletion and move receipts live for sixty seconds (`INTERVAL '60 seconds'`). */
  const UNDO_WINDOW: int := 60

  /** `expires_at > clock_timestamp()` */
  predicate Active(expires: int, now: int) {
    expires > now
  }

  /** Any element; the operations that iterate do not depend on the order. */
  method Pick<T>(elements: set<T>) returns (x: T)
    requires elements != {}
    ensures x in elements
  {
    x :| x in elements;
  }

  /** The element of a set that has at most one. */
  ghost function Only<T(!new)>(s: set<T>): (x: Option<T>)
    ensures x.None? <==> s == {}
    ensures x.Some? ==> x.value in s
  {
    if s == {} then None
    else
      var y :| y in s;
      Some(y)
  }

  // ---- equality of tables, key by key ----

  lemma Member<T>(s: set<T>) returns (x: T)
    requires s != {}
    ensures x in s
  {
    x :| x in s;
  }

  lemma NoneIn<T>(s: set<T>)
    requires forall x :: x !in s
    ensures s == {}
  {
  }

  lemma AtMostOne<T>(s: set<T>, y: T)
    requires forall x :: x in s ==> x == y
    ensures |s| <= 1
  {
    if s != {} {
      var x := Member(s);
      NoneIn(s - {x});
      assert |s| == |s - {x}| + 1;
    }
  }

  lemma {:induction false} FewerOf<T>(a: set<T>, b: set<T>)
    requires forall x :: x in a ==> x in b
    ensures |a| <= |b|
    decreases |a|
  {
    if a != {} {
      var x := Member(a);
      FewerOf(a - {x}, b - {x});
    }
  }

  lemma SameMembers(a: set<int>, b: set<int>)
    requires forall x :: x in a <==> x in b
    ensures a == b
  {
    if a - b != {} {
      var x := Member(a - b);
      assert false;
    }
    if b - a != {} {
      var x := Member(b - a);
      assert false;
    }
  }

  lemma Reassemble<K, V>(a: map<K, V>, b: map<K, V>, k: K)
    requires k in a && k in b && a[k] == b[k] && a - {k} == b - {k}
    ensures a == b
  {
    assert a == (a - {k})[k := a[k]];
    assert b == (b - {k})[k := b[k]];
  }

  lemma EmptyMaps<K, V>(a: map<K, V>, b: map<K, V>)
    requires a.Keys == {} && b.Keys == {}
    ensures a == b
  {
  }

  lemma SameMap<K, V>(a: map<K, V>, b: map<K, V>)
    requires forall k :: k in a <==> k in b
    requires forall k :: k in a ==> a[k] == b[k]
    ensures a == b
  {
  }

  lemma {:induction false} SameTable<V>(a: map<int, V>, b: map<int, V>)
    requires forall k :: k in a <==> k in b
    requires forall k :: k in a ==> a[k] == b[k]
    ensures a == b
    decreases |a.Keys|
  {
    if a.Keys == {} {
      if b.Keys != {} {
        var k := Member(b.Keys);
        assert false;
      }
      EmptyMaps(a, b);
    } else {
      var k := Member(a.Keys);
      assert (a - {k}).Keys == a.Keys - {k};
      SameTable(a - {k}, b - {k});
      Reassemble(a, b, k);
    }
  }
}
