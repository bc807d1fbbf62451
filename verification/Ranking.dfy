/**
 * The order precedents are ranked in: higher scores first, then case identifiers in
 * code-point order.
 */
module Ranking {
  import opened Collections
  import opened Wrappers
  import opened MatchingSchema

  predicate Before(a: PrecedentMatch, b: PrecedentMatch) {
    a.score > b.score || (a.score == b.score && StringLess(a.precedent.caseId, b.precedent.caseId))
  }

  lemma BeforeIsStrictOrder(a: PrecedentMatch, b: PrecedentMatch, c: PrecedentMatch)
    ensures Before(a, b) ==> !Before(b, a)
    ensures Before(a, b) && Before(b, c) ==> Before(a, c)
    ensures a.precedent.caseId != b.precedent.caseId ==> Before(a, b) || Before(b, a)
  {
    if StringLess(a.precedent.caseId, b.precedent.caseId) {
      StringLessAsymmetric(a.precedent.caseId, b.precedent.caseId);
      if StringLess(b.precedent.caseId, c.precedent.caseId) {
        StringLessTransitive(a.precedent.caseId, b.precedent.caseId, c.precedent.caseId);
      }
    }
    if a.precedent.caseId != b.precedent.caseId {
      StringLessTotal(a.precedent.caseId, b.precedent.caseId);
    }
  }

  predicate Ranked(s: seq<PrecedentMatch>) {
    forall i, j :: 0 <= i < j < |s| ==> Before(s[i], s[j])
  }

  predicate DistinctCases(s: seq<PrecedentMatch>) {
    forall i, j :: 0 <= i < j < |s| ==> s[i].precedent.caseId != s[j].precedent.caseId
  }

  function Insert(m: PrecedentMatch, s: seq<PrecedentMatch>): seq<PrecedentMatch> {
    if s == [] then [m]
    else if Before(m, s[0]) then [m] + s
    else [s[0]] + Insert(m, s[1..])
  }

  /** The built-in sort. */
  function Sorted(s: seq<PrecedentMatch>): seq<PrecedentMatch> {
    if s == [] then [] else Insert(s[|s| - 1], Sorted(s[..|s| - 1]))
  }

  lemma {:induction false} InsertKeepsElements(m: PrecedentMatch, s: seq<PrecedentMatch>)
    ensures multiset(Insert(m, s)) == multiset(s) + multiset{m}
  {
    if s != [] && !Before(m, s[0]) {
      var rest := s[1..];
      InsertKeepsElements(m, rest);
      assert s == [s[0]] + rest;
      MultisetOfConcat([s[0]], Insert(m, rest));
      MultisetOfConcat([s[0]], rest);
    } else {
      MultisetOfConcat([m], s);
      assert s == [] ==> [m] + s == [m];
    }
  }

  /** Sorting keeps every element, with its multiplicity. */
  lemma {:induction false} SortedKeepsElements(s: seq<PrecedentMatch>)
    ensures multiset(Sorted(s)) == multiset(s)
  {
    if s != [] {
      var earlier, last := s[..|s| - 1], s[|s| - 1];
      SortedKeepsElements(earlier);
      InsertKeepsElements(last, Sorted(earlier));
      assert s == earlier + [last];
    }
  }

  lemma SameElements(a: seq<PrecedentMatch>, b: seq<PrecedentMatch>)
    requires multiset(a) == multiset(b)
    ensures |a| == |b| && forall m :: m in a <==> m in b
  {
    assert |a| == |multiset(a)| && |b| == |multiset(b)|;
    forall m: PrecedentMatch
      ensures m in a <==> m in b
    {
      assert m in a <==> m in multiset(a);
      assert m in b <==> m in multiset(b);
    }
  }

  lemma {:induction false} InsertKeepsRanked(m: PrecedentMatch, s: seq<PrecedentMatch>)
    requires Ranked(s) && forall x :: x in s ==> Before(m, x) || Before(x, m)
    ensures Ranked(Insert(m, s))
  {
    if s == [] {
    } else if Before(m, s[0]) {
      forall j | 0 <= j < |s|
        ensures Before(m, s[j])
      {
        BeforeIsStrictOrder(m, s[0], s[j]);
      }
    } else {
      assert forall x :: x in s[1..] ==> x in s;
      InsertKeepsRanked(m, s[1..]);
      InsertKeepsElements(m, s[1..]);
      var rest := Insert(m, s[1..]);
      assert multiset(s[1..] + [m]) == multiset(s[1..]) + multiset{m};
      SameElements(rest, s[1..] + [m]);
      forall j | 0 <= j < |rest|
        ensures Before(s[0], rest[j])
      {
        assert rest[j] in rest;
        assert s[0] in s;
      }
    }
  }

  /** Sorting matches of different cases ranks them. */
  lemma {:induction false} SortedIsRanked(s: seq<PrecedentMatch>)
    requires DistinctCases(s)
    ensures Ranked(Sorted(s))
  {
    if s != [] {
      var earlier, last := s[..|s| - 1], s[|s| - 1];
      SortedIsRanked(earlier);
      SortedKeepsElements(earlier);
      SameElements(Sorted(earlier), earlier);
      forall x | x in Sorted(earlier)
        ensures Before(last, x) || Before(x, last)
      {
        var i :| 0 <= i < |earlier| && earlier[i] == x;
        assert s[i] == x;
        BeforeIsStrictOrder(last, x, x);
      }
      InsertKeepsRanked(last, Sorted(earlier));
    }
  }

  /** There is only one way to rank a set of matches. */
  lemma {:induction false} RankingIsUnique(a: seq<PrecedentMatch>, b: seq<PrecedentMatch>)
    requires Ranked(a) && Ranked(b) && forall m :: m in a <==> m in b
    ensures a == b
  {
    SameEmptiness(a, b);
    if a != [] {
      FirstIsFirst(a, b);
      NotInTail(a);
      NotInTail(b);
      forall m: PrecedentMatch
        ensures m in a[1..] <==> m in b[1..]
      {
        assert m in a <==> m == a[0] || m in a[1..];
        assert m in b <==> m == b[0] || m in b[1..];
      }
      RankingIsUnique(a[1..], b[1..]);
      assert a == [a[0]] + a[1..] && b == [b[0]] + b[1..];
    }
  }

  lemma SameEmptiness(a: seq<PrecedentMatch>, b: seq<PrecedentMatch>)
    requires forall m :: m in a <==> m in b
    ensures a == [] <==> b == []
  {
    if a != [] {
      assert a[0] in a;
    }
    if b != [] {
      assert b[0] in b;
    }
  }

  lemma FirstIsFirst(a: seq<PrecedentMatch>, b: seq<PrecedentMatch>)
    requires a != [] && b != [] && Ranked(a) && Ranked(b) && forall m :: m in a <==> m in b
    ensures a[0] == b[0]
  {
    assert a[0] in a && b[0] in b;
    var i :| 0 <= i < |a| && a[i] == b[0];
    var j :| 0 <= j < |b| && b[j] == a[0];
    if i > 0 && j > 0 {
      RankedAt(a, 0, i);
      RankedAt(b, 0, j);
      BeforeIsStrictOrder(a[0], b[0], a[0]);
    }
  }

  lemma RankedAt(s: seq<PrecedentMatch>, i: nat, j: nat)
    requires Ranked(s) && i < j < |s|
    ensures Before(s[i], s[j])
  {
  }

  lemma NotInTail(s: seq<PrecedentMatch>)
    requires s != [] && Ranked(s)
    ensures s[0] !in s[1..]
  {
    forall i | 0 <= i < |s[1..]|
      ensures s[1..][i] != s[0]
    {
      assert Before(s[0], s[i + 1]);
      BeforeIsStrictOrder(s[0], s[i + 1], s[0]);
    }
  }

  /** The ranked list depends only on which matches there are, not on the order they come in. */
  lemma SortIgnoresOrder(a: seq<PrecedentMatch>, b: seq<PrecedentMatch>)
    requires DistinctCases(a) && DistinctCases(b) && forall m :: m in a <==> m in b
    ensures Sorted(a) == Sorted(b)
  {
    SortedIsRanked(a);
    SortedIsRanked(b);
    SortedKeepsElements(a);
    SortedKeepsElements(b);
    SameElements(Sorted(a), a);
    SameElements(Sorted(b), b);
    RankingIsUnique(Sorted(a), Sorted(b));
  }
}
