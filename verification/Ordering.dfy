/** Sorting by (rank, identifier): the order in which the service lists orders, picks the next
    order for a courier and drains its outbox. */
module Ordering {
  import opened Basics

  datatype Key = Key(rank: int, id: Uuid)

  predicate Less(a: Key, b: Key) {
    a.rank < b.rank || (a.rank == b.rank && a.id < b.id)
  }

  ghost predicate Increasing(s: seq<Key>) {
    forall i, j :: 0 <= i < j < |s| ==> Less(s[i], s[j])
  }

  /** `s` lists exactly the keys of `keys`, in strictly increasing order. */
  ghost predicate Sorts(s: seq<Key>, keys: set<Key>) {
    Increasing(s) && forall k :: k in s <==> k in keys
  }

  /** There is only one way to sort a set: the outcome does not depend on insertion order. */
  lemma {:induction false} SortingIsUnique(s: seq<Key>, t: seq<Key>, keys: set<Key>)
    requires Sorts(s, keys) && Sorts(t, keys)
    ensures s == t
    decreases |s|
  {
    assert t != [] ==> t[0] in keys;
    if s != [] {
      assert s[0] in t;
      assert t[0] in s;
      assert s[0] == t[0];
      TailSorts(s, keys);
      TailSorts(t, keys);
      SortingIsUnique(s[1..], t[1..], keys - {s[0]});
    }
  }

  lemma TailSorts(s: seq<Key>, keys: set<Key>)
    requires Sorts(s, keys) && s != []
    ensures Sorts(s[1..], keys - {s[0]})
  {
    forall k ensures k in s[1..] <==> k in keys - {s[0]} {
      if k in keys - {s[0]} {
        var i :| 0 <= i < |s| && s[i] == k;
        assert s[1..][i - 1] == k;
      }
      if k in s[1..] {
        var i :| 0 <= i < |s[1..]| && s[1..][i] == k;
        assert s[i + 1] == k && Less(s[0], s[i + 1]);
      }
    }
  }

  lemma {:induction false} SortedSize(s: seq<Key>, keys: set<Key>)
    requires Sorts(s, keys)
    ensures |s| == |keys|
    decreases |s|
  {
    if s == [] {
      assert keys == {};
    } else {
      TailSorts(s, keys);
      assert s[0] in keys;
      SortedSize(s[1..], keys - {s[0]});
    }
  }

  /** Sort a collection taken in any order, by insertion. */
  method Sort(keys: set<Key>) returns (s: seq<Key>)
    ensures Sorts(s, keys)
  {
    s := [];
    var todo := keys;
    while todo != {}
      invariant todo <= keys && Sorts(s, keys - todo)
    {
      var k :| k in todo;
      ghost var before := keys - todo;
      s := Insert(s, k, before);
      todo := todo - {k};
      assert keys - todo == before + {k};
    }
    assert keys - todo == keys;
  }

  method Insert(s: seq<Key>, k: Key, ghost keys: set<Key>) returns (r: seq<Key>)
    requires Sorts(s, keys) && k !in keys
    ensures Sorts(r, keys + {k})
  {
    var i := 0;
    while i < |s| && Less(s[i], k)
      invariant 0 <= i <= |s|
      invariant forall j :: 0 <= j < i ==> Less(s[j], k)
    {
      i := i + 1;
    }
    r := s[..i] + [k] + s[i..];
    forall j | i <= j < |s| ensures Less(k, s[j]) {
      assert s[i] in s;
    }
    assert forall x :: x in r <==> x in s || x == k;
  }

  /** The next element of the queue: no other key comes before it. */
  lemma FirstIsLeast(s: seq<Key>, keys: set<Key>)
    requires Sorts(s, keys) && s != []
    ensures s[0] in keys && forall k :: k in keys && k != s[0] ==> Less(s[0], k)
  {
    forall k | k in keys && k != s[0] ensures Less(s[0], k) {
      assert k in s;
    }
  }

  lemma LeastExists(keys: set<Key>) returns (least: Key)
    requires keys != {}
    ensures least in keys && forall k :: k in keys && k != least ==> Less(least, k)
    decreases keys
  {
    var k :| k in keys;
    least := k;
    if keys - {k} != {} {
      var other := LeastExists(keys - {k});
      if Less(other, k) {
        least := other;
      }
    }
    assert keys == keys - {k} + {k};
  }
}
