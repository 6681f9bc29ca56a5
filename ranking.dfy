/**
 The feature ranker: the classifier's (feature name, importance) pairs sorted
 by importance, highest first, the way Python's `sorted(..., key=score,
 reverse=True)` does it (stably: equal scores keep their input order), and
 the first K entries of the result.
 */
module Ranking {

  /** One feature name zipped with its importance score. */
  datatype Feature = Feature(name: string, score: real)

  /** Scores never increase from left to right. */
  predicate NonIncreasing(s: seq<Feature>)
  {
    forall i, j :: 0 <= i < j < |s| ==> s[i].score >= s[j].score
  }

  /** The entries of `s` whose score is exactly `k`, in their order in `s`. */
  function Tied(s: seq<Feature>, k: real): (t: seq<Feature>)
    ensures |t| <= |s|
    ensures forall i :: 0 <= i < |t| ==> t[i].score == k
    ensures forall x :: x in t ==> x in s
  {
    if s == [] then []
    else if s[0].score == k then [s[0]] + Tied(s[1..], k)
    else Tied(s[1..], k)
  }

  /**
   Places `x` in front of the first entry of `t` that scores no more than
   it does.
   */
  function Insert(x: Feature, t: seq<Feature>): (r: seq<Feature>)
    ensures |r| == |t| + 1
  {
    if t == [] || x.score >= t[0].score then [x] + t
    else [t[0]] + Insert(x, t[1..])
  }

  /** The ranking: a stable sort on descending score. */
  function Rank(s: seq<Feature>): (r: seq<Feature>)
    ensures |r| == |s|
  {
    if s == [] then [] else Insert(s[0], Rank(s[1..]))
  }

  /** `s[:k]`: the first `k` entries, or all of them when there are fewer. */
  function Top(s: seq<Feature>, k: nat): (r: seq<Feature>)
    ensures |r| == if k < |s| then k else |s|
    ensures r <= s
  {
    if k < |s| then s[..k] else s
  }

  lemma TiedCons(h: Feature, s: seq<Feature>, k: real)
    ensures Tied([h] + s, k) == (if h.score == k then [h] else []) + Tied(s, k)
  {
    assert ([h] + s)[1..] == s;
  }

  lemma {:induction false} InsertPermutes(x: Feature, t: seq<Feature>)
    ensures multiset(Insert(x, t)) == multiset([x] + t)
  {
    if t != [] && x.score < t[0].score {
      InsertPermutes(x, t[1..]);
      assert t == [t[0]] + t[1..];
    }
  }

  lemma {:induction false} InsertSorted(x: Feature, t: seq<Feature>)
    requires NonIncreasing(t)
    ensures NonIncreasing(Insert(x, t))
  {
    if t != [] && x.score < t[0].score {
      var rest := Insert(x, t[1..]);
      InsertSorted(x, t[1..]);
      InsertPermutes(x, t[1..]);
      forall j | 0 <= j < |rest|
        ensures rest[j].score <= t[0].score
      {
        assert rest[j] in multiset([x] + t[1..]);
        assert rest[j] in [x] + t[1..];
      }
      assert Insert(x, t) == [t[0]] + rest;
    }
  }

  /** Inserting `x` puts it after every strictly higher score, so ties stay in order. */
  lemma {:induction false} InsertKeepsTies(x: Feature, t: seq<Feature>, k: real)
    ensures Tied(Insert(x, t), k) == Tied([x] + t, k)
  {
    if t != [] && x.score < t[0].score {
      InsertKeepsTies(x, t[1..], k);
      TiedCons(t[0], Insert(x, t[1..]), k);
      TiedCons(x, t, k);
      TiedCons(x, t[1..], k);
      assert t == [t[0]] + t[1..];
      TiedCons(t[0], t[1..], k);
    }
  }

  lemma {:induction false} RankPermutes(s: seq<Feature>)
    ensures multiset(Rank(s)) == multiset(s)
  {
    if s != [] {
      RankPermutes(s[1..]);
      InsertPermutes(s[0], Rank(s[1..]));
      assert s == [s[0]] + s[1..];
    }
  }

  lemma {:induction false} RankSorted(s: seq<Feature>)
    ensures NonIncreasing(Rank(s))
  {
    if s != [] {
      RankSorted(s[1..]);
      InsertSorted(s[0], Rank(s[1..]));
    }
  }

  /** Entries with equal scores come out in the order they went in. */
  lemma {:induction false} RankStable(s: seq<Feature>, k: real)
    ensures Tied(Rank(s), k) == Tied(s, k)
  {
    if s != [] {
      RankStable(s[1..], k);
      InsertKeepsTies(s[0], Rank(s[1..]), k);
      TiedCons(s[0], Rank(s[1..]), k);
      assert s == [s[0]] + s[1..];
      TiedCons(s[0], s[1..], k);
    }
  }

  lemma TiedOfHead(u: seq<Feature>)
    requires u != []
    ensures Tied(u, u[0].score) != []
  {
  }

  /**
   Sortedness and stability leave no freedom: two non-increasing sequences
   with the same entries of every score are equal.
   */
  lemma {:induction false} SortedTiesDetermine(t: seq<Feature>, u: seq<Feature>)
    requires NonIncreasing(t) && NonIncreasing(u)
    requires forall k :: Tied(t, k) == Tied(u, k)
    ensures t == u
    decreases |t| + |u|
  {
    if t == [] {
      if u != [] {
        TiedOfHead(u);
        assert false;
      }
    } else if u == [] {
      TiedOfHead(t);
      assert false;
    } else {
      var a, b := t[0].score, u[0].score;
      TiedOfHead(t);
      TiedOfHead(u);
      assert Tied(u, a) != [];
      assert Tied(u, a)[0] in u;
      assert b >= a;
      assert Tied(t, b)[0] in t;
      assert a >= b;
      assert t[0] == Tied(t, a)[0] == Tied(u, a)[0] == u[0];
      assert t == [t[0]] + t[1..];
      assert u == [u[0]] + u[1..];
      forall k
        ensures Tied(t[1..], k) == Tied(u[1..], k)
      {
        assert Tied(t, k) == Tied(u, k);
        TiedCons(t[0], t[1..], k);
        TiedCons(u[0], u[1..], k);
        if t[0].score == k {
          assert Tied(t[1..], k) == Tied(t, k)[1..];
          assert Tied(u[1..], k) == Tied(u, k)[1..];
        }
      }
      SortedTiesDetermine(t[1..], u[1..]);
    }
  }

  /**
   `Rank` is Python's stable descending sort: it is the one ordering of the
   input that is non-increasing and keeps equal scores in input order.
   */
  lemma RankIsTheStableSort(s: seq<Feature>, t: seq<Feature>)
    requires NonIncreasing(t)
    requires forall k :: Tied(t, k) == Tied(s, k)
    ensures t == Rank(s)
  {
    RankSorted(s);
    forall k
      ensures Tied(t, k) == Tied(Rank(s), k)
    {
      RankStable(s, k);
    }
    SortedTiesDetermine(t, Rank(s));
  }

  lemma {:induction false} TiedOfPrefix(s: seq<Feature>, n: nat, k: real)
    requires n <= |s|
    ensures Tied(s[..n], k) <= Tied(s, k)
  {
    if n > 0 {
      TiedOfPrefix(s[1..], n - 1, k);
      assert s[..n] == [s[0]] + s[1..][..n - 1];
      TiedCons(s[0], s[1..][..n - 1], k);
    }
  }

  /**
   The first `k` ranked entries: exactly min(k, n) of the input's entries,
   in non-increasing order, none scoring below an entry left out, and each
   group of equal scores an initial part of that group in input order.
   */
  lemma TopOfRanking(s: seq<Feature>, k: nat)
    ensures |Top(Rank(s), k)| == if k < |s| then k else |s|
    ensures NonIncreasing(Top(Rank(s), k))
    ensures multiset(Top(Rank(s), k)) <= multiset(s)
    ensures forall i, j :: 0 <= i < |Top(Rank(s), k)| <= j < |s| ==>
              Top(Rank(s), k)[i].score >= Rank(s)[j].score
    ensures forall key :: Tied(Top(Rank(s), k), key) <= Tied(s, key)
  {
    var r := Rank(s);
    var top := Top(r, k);
    RankSorted(s);
    RankPermutes(s);
    assert r == top + r[|top|..];
    assert multiset(r) == multiset(top) + multiset(r[|top|..]);
    forall key
      ensures Tied(top, key) <= Tied(s, key)
    {
      assert top == r[..|top|];
      TiedOfPrefix(r, |top|, key);
      RankStable(s, key);
    }
  }
}
