/**
 * The list editors of a customer's addresses and contacts share one shape:
 * entries keyed by an id, one of which may be marked primary, edited by
 * id. This module holds that shape once, over accessor functions.
 */
module PrimaryLists {
  import opened Seqs

  /** `value.map(x => x.id === key ? f(x) : x)`. */
  function UpdateWhere<T>(s: seq<T>, id: T -> string, key: string, f: T -> T): (r: seq<T>)
    ensures |r| == |s|
    ensures forall i :: 0 <= i < |s| ==> r[i] == if id(s[i]) == key then f(s[i]) else s[i]
  {
    Map(s, (x: T) => if id(x) == key then f(x) else x)
  }

  /** `value.filter(x => x.id !== key)`. */
  function RemoveWhere<T>(s: seq<T>, id: T -> string, key: string): (r: seq<T>)
    ensures forall x :: x in r ==> x in s && id(x) != key
    ensures forall x :: x in s && id(x) != key ==> x in r
    ensures |r| <= |s|
  {
    Filter(s, (x: T) => id(x) != key)
  }

  /** `value.map(x => ({ ...x, isPrimary: x.id === key }))`. */
  function MarkPrimary<T>(s: seq<T>, id: T -> string, key: string, mark: (T, bool) -> T): (r: seq<T>)
    ensures |r| == |s|
    ensures forall i :: 0 <= i < |s| ==> r[i] == mark(s[i], id(s[i]) == key)
  {
    Map(s, (x: T) => mark(x, id(x) == key))
  }

  /** The entries marked primary. */
  function Primaries<T>(s: seq<T>, primary: T -> bool): seq<T>
  {
    Filter(s, primary)
  }

  /**
   * With distinct ids and the chosen id present, marking it primary leaves
   * exactly one primary entry, the chosen one.
   */
  lemma ExactlyOnePrimary<T>(s: seq<T>, id: T -> string, primary: T -> bool, mark: (T, bool) -> T, key: string, k: nat)
    requires forall x, b :: primary(mark(x, b)) == b && id(mark(x, b)) == id(x)
    requires DistinctBy(s, id) && k < |s| && id(s[k]) == key
    ensures |Primaries(MarkPrimary(s, id, key, mark), primary)| == 1
    ensures id(Primaries(MarkPrimary(s, id, key, mark), primary)[0]) == key
  {
    var m := MarkPrimary(s, id, key, mark);
    assert forall i :: 0 <= i < |m| ==> id(m[i]) == id(s[i]) && (primary(m[i]) <==> id(s[i]) == key);
    assert DistinctBy(m, id);
    var f := Primaries(m, primary);
    FilterDistinct(m, primary, id);
    assert m[k] in f;
    assert forall i :: 0 <= i < |f| ==> id(f[i]) == key by {
      forall i | 0 <= i < |f| ensures id(f[i]) == key {
        assert f[i] in m;
      }
    }
    SameKeyAtMostOne(f, id, key);
  }

  /** Entries with distinct ids that all carry the same id number at most one. */
  lemma SameKeyAtMostOne<T>(f: seq<T>, id: T -> string, key: string)
    ensures DistinctBy(f, id) && (forall i :: 0 <= i < |f| ==> id(f[i]) == key) ==> |f| <= 1
  {
    if |f| >= 2 {
      assert DistinctBy(f, id) ==> id(f[0]) != id(f[1]);
    }
  }

  /** Entries whose id is chosen are primary after marking, and all others are not. */
  lemma MarkPrimaryExact<T>(s: seq<T>, id: T -> string, primary: T -> bool, mark: (T, bool) -> T, key: string)
    requires forall x, b :: primary(mark(x, b)) == b && id(mark(x, b)) == id(x)
    ensures forall i :: 0 <= i < |s| ==> (primary(MarkPrimary(s, id, key, mark)[i]) <==> id(s[i]) == key)
  {
  }

  /**
   * Removing entries never makes one primary: without the removed entries'
   * help, the primaries left are those of the kept entries. In particular
   * removing the only primary entry leaves none.
   */
  lemma RemoveLeavesPrimaries<T>(s: seq<T>, id: T -> string, primary: T -> bool, key: string)
    ensures forall x :: x in Primaries(RemoveWhere(s, id, key), primary) ==> x in Primaries(s, primary) && id(x) != key
    ensures forall x :: x in Primaries(s, primary) && id(x) != key ==> x in Primaries(RemoveWhere(s, id, key), primary)
  {
  }
}
