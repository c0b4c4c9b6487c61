/** Sorting by descending score, ties in the order of the list: sorted(.., key=score, reverse=True). */
module StableSort {

  function Insert<T>(x: T, s: seq<T>, score: T -> real): seq<T> {
    if |s| == 0 then [x]
    else if score(x) >= score(s[0]) then [x] + s
    else [s[0]] + Insert(x, s[1..], score)
  }

  function Sorted<T>(s: seq<T>, score: T -> real): seq<T> {
    if |s| == 0 then [] else Insert(s[0], Sorted(s[1..], score), score)
  }

  ghost predicate Descending<T>(s: seq<T>, score: T -> real) {
    forall i, j :: 0 <= i < j < |s| ==> score(s[i]) >= score(s[j])
  }

  /** The elements of one score, in order. */
  ghost function WithScore<T>(s: seq<T>, score: T -> real, q: real): seq<T> {
    if s == [] then [] else IfScores(s[0], score, q) + WithScore(s[1..], score, q)
  }

  ghost function IfScores<T>(x: T, score: T -> real, q: real): seq<T> { if score(x) == q then [x] else [] }

  lemma {:induction false} InsertKeeps<T>(x: T, s: seq<T>, score: T -> real)
    ensures multiset(Insert(x, s, score)) == multiset(s) + multiset{x}
  {
    if s != [] {
      assert s == [s[0]] + s[1..];
      if score(x) < score(s[0]) {
        InsertKeeps(x, s[1..], score);
      }
    }
  }

  lemma {:induction false} InsertDescends<T>(x: T, s: seq<T>, score: T -> real)
    requires Descending(s, score)
    ensures Descending(Insert(x, s, score), score)
  {
    if s != [] && score(x) < score(s[0]) {
      var tail := Insert(x, s[1..], score);
      InsertDescends(x, s[1..], score);
      InsertKeeps(x, s[1..], score);
      forall i | 0 <= i < |tail| ensures score(s[0]) >= score(tail[i]) {
        assert tail[i] in multiset(tail);
        assert tail[i] == x || tail[i] in s[1..];
      }
    }
  }

  lemma WithScoreOfFirst<T>(x: T, s: seq<T>, score: T -> real, q: real)
    ensures WithScore([x] + s, score, q) == IfScores(x, score, q) + WithScore(s, score, q)
  {
    assert ([x] + s)[1..] == s;
  }

  lemma {:induction false} InsertStable<T>(x: T, s: seq<T>, score: T -> real, q: real)
    ensures WithScore(Insert(x, s, score), score, q) == IfScores(x, score, q) + WithScore(s, score, q)
  {
    hide WithScore;
    WithScoreOfFirst(x, s, score, q);
    if s == [] {
      assert [x] + s == [x];
    } else if score(x) < score(s[0]) {
      InsertStable(x, s[1..], score, q);
      WithScoreOfFirst(s[0], Insert(x, s[1..], score), score, q);
      WithScoreOfFirst(s[0], s[1..], score, q);
      assert s == [s[0]] + s[1..];
      assert IfScores(x, score, q) == [] || IfScores(s[0], score, q) == [];
    }
  }

  lemma {:induction false} SortedDescends<T>(s: seq<T>, score: T -> real)
    ensures Descending(Sorted(s, score), score) && multiset(Sorted(s, score)) == multiset(s)
  {
    if s != [] {
      var tail := Sorted(s[1..], score);
      SortedDescends(s[1..], score);
      InsertDescends(s[0], tail, score);
      InsertKeeps(s[0], tail, score);
      assert s == [s[0]] + s[1..];
    }
  }

  /** The result descends, is a permutation of the list, and keeps the order within each score. */
  lemma {:induction false} SortedIsStable<T>(s: seq<T>, score: T -> real, q: real)
    ensures Descending(Sorted(s, score), score) && multiset(Sorted(s, score)) == multiset(s)
    ensures WithScore(Sorted(s, score), score, q) == WithScore(s, score, q)
  {
    SortedDescends(s, score);
    hide Descending, Insert;
    if s != [] {
      SortedIsStable(s[1..], score, q);
      InsertStable(s[0], Sorted(s[1..], score), score, q);
    }
  }
}
