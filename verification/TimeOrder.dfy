/** Ordering things by a time, as the library sort does: stable and ascending. */
module TimeOrder {
  datatype Timed<+K> = Timed(key: K, time: int)

  ghost predicate NoneBefore<K>(time: int, s: seq<Timed<K>>) {
    forall y <- s :: time <= y.time
  }

  ghost predicate Ascending<K>(s: seq<Timed<K>>) {
    s == [] || (NoneBefore(s[0].time, s[1..]) && Ascending(s[1..]))
  }

  function Insert<K>(x: Timed<K>, s: seq<Timed<K>>): seq<Timed<K>> {
    if s == [] || x.time <= s[0].time then [x] + s else [s[0]] + Insert(x, s[1..])
  }

  function SortByTime<K>(s: seq<Timed<K>>): seq<Timed<K>> {
    if s == [] then [] else Insert(s[0], SortByTime(s[1..]))
  }

  lemma InsertAdds<K>(x: Timed<K>, s: seq<Timed<K>>)
    ensures multiset(Insert(x, s)) == multiset(s) + multiset{x}
    ensures forall y :: y in Insert(x, s) <==> y == x || y in s
  {
    if s != [] && x.time > s[0].time {
      InsertAdds(x, s[1..]);
      assert s == [s[0]] + s[1..];
    }
  }

  lemma InsertAscends<K>(x: Timed<K>, s: seq<Timed<K>>)
    requires Ascending(s)
    ensures Ascending(Insert(x, s))
  {
    if s == [] || x.time <= s[0].time {
      assert ([x] + s)[1..] == s;
    } else {
      InsertAscends(x, s[1..]);
      InsertAdds(x, s[1..]);
      assert Insert(x, s)[1..] == Insert(x, s[1..]);
    }
  }

  /** Sorting keeps what there is, each as often as before, and puts it in order. */
  lemma {:induction false} SortSorts<K>(s: seq<Timed<K>>)
    ensures multiset(SortByTime(s)) == multiset(s) && Ascending(SortByTime(s)) && |SortByTime(s)| == |s|
    ensures forall x :: x in SortByTime(s) <==> x in s
  {
    if s != [] {
      SortSorts(s[1..]);
      InsertAdds(s[0], SortByTime(s[1..]));
      InsertAscends(s[0], SortByTime(s[1..]));
      assert s == [s[0]] + s[1..];
    }
    assert |multiset(SortByTime(s))| == |SortByTime(s)|;
  }

  ghost predicate NoRepeat<K>(s: seq<Timed<K>>) {
    s == [] || (s[0] !in s[1..] && NoRepeat(s[1..]))
  }

  lemma InsertNoRepeat<K>(x: Timed<K>, s: seq<Timed<K>>)
    requires NoRepeat(s) && x !in s
    ensures NoRepeat(Insert(x, s))
  {
    if s == [] || x.time <= s[0].time {
      assert ([x] + s)[1..] == s;
    } else {
      InsertNoRepeat(x, s[1..]);
      InsertAdds(x, s[1..]);
      assert Insert(x, s)[1..] == Insert(x, s[1..]);
    }
  }

  lemma {:induction false} SortNoRepeat<K>(s: seq<Timed<K>>)
    requires NoRepeat(s)
    ensures NoRepeat(SortByTime(s))
  {
    if s != [] {
      SortNoRepeat(s[1..]);
      SortSorts(s[1..]);
      InsertNoRepeat(s[0], SortByTime(s[1..]));
    }
  }

  lemma {:induction false} NoRepeatPrefix<K>(s: seq<Timed<K>>, n: nat)
    requires NoRepeat(s) && n <= |s|
    ensures NoRepeat(s[..n])
  {
    if n > 0 {
      NoRepeatPrefix(s[1..], n - 1);
      assert s[..n][1..] == s[1..][..n - 1];
    }
  }

  /** Things told apart by their keys have as many keys as there are things. */
  lemma {:induction false} KeysOfDistinct<K>(s: seq<Timed<K>>, keys: set<K>)
    requires NoRepeat(s) && forall x, y :: x in s && y in s && x.key == y.key ==> x == y
    requires forall k :: k in keys <==> exists x :: x in s && x.key == k
    ensures |keys| == |s|
  {
    if s == [] {
      assert keys == {};
    } else {
      var rest := keys - {s[0].key};
      assert s[0] in s;
      assert keys == rest + {s[0].key};
      forall k ensures k in rest <==> exists x :: x in s[1..] && x.key == k {
        if k in rest {
          var x :| x in s && x.key == k;
          assert x in s[1..];
        }
        if exists x :: x in s[1..] && x.key == k {
          var x :| x in s[1..] && x.key == k;
          assert x in s && x != s[0];
        }
      }
      KeysOfDistinct(s[1..], rest);
    }
  }

  lemma {:induction false} AscendingAt<K>(s: seq<Timed<K>>, i: nat, j: nat)
    requires Ascending(s) && i < j < |s|
    ensures s[i].time <= s[j].time
  {
    if i == 0 {
      assert s[j] == s[1..][j - 1];
    } else {
      AscendingAt(s[1..], i - 1, j - 1);
    }
  }

  lemma {:induction false} NoRepeatAt<K>(s: seq<Timed<K>>, i: nat)
    requires NoRepeat(s) && i < |s|
    ensures s[i] !in s[..i]
  {
    if i > 0 {
      NoRepeatAt(s[1..], i - 1);
      assert s[..i] == [s[0]] + s[1..][..i - 1];
    }
  }

  lemma NotInPrefix<K>(s: seq<K>, n: nat, j: nat)
    requires n <= |s| && j < |s| && s[j] !in s[..n]
    ensures n <= j
  {
    assert forall m :: 0 <= m < n ==> s[m] == s[..n][m];
  }

  /** What is among the first n is not after what is not. */
  lemma FirstAreNewest<K>(s: seq<Timed<K>>, n: nat, first: Timed<K>, other: Timed<K>)
    requires Ascending(s) && n <= |s| && first in s[..n] && other in s && other !in s[..n]
    ensures first.time <= other.time
  {
    var i :| 0 <= i < n && s[i] == first;
    var j :| 0 <= j < |s| && s[j] == other;
    NotInPrefix(s, n, j);
    AscendingAt(s, i, j);
  }
}
