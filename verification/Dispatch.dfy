/** Ranking of driver candidates: the nearest or best-scored few, from a sorted copy. Scores are real numbers. */
module Dispatch {

  datatype Candidate = Candidate(driverID: string, distanceMeters: real, vehicleType: string, status: string,
                                 rankingScore: real)

  datatype Result<T> = Ok(value: T) | Panic

  /** A score of zero means that there is none, and the distance stands in for it. */
  function Rescored(c: Candidate): Candidate {
    if c.rankingScore == 0.0 then c.(rankingScore := c.distanceMeters) else c
  }

  function RescoredAll(cs: seq<Candidate>): (r: seq<Candidate>)
    ensures |r| == |cs| && forall i :: 0 <= i < |cs| ==> r[i] == Rescored(cs[i])
  {
    if cs == [] then [] else RescoredAll(cs[..|cs| - 1]) + [Rescored(cs[|cs| - 1])]
  }

  predicate Sorted(cs: seq<Candidate>) {
    forall i, j :: 0 <= i < j < |cs| ==> cs[i].rankingScore <= cs[j].rankingScore
  }

  function Min(a: int, b: int): int {
    if a < b then a else b
  }

  // ---------------------------------------------------------------- sorting in place

  predicate Less(a: array<Candidate>, i: nat, j: nat)
    requires i < a.Length && j < a.Length
    reads a
  {
    a[i].rankingScore < a[j].rankingScore
  }

  function Swapped(cs: seq<Candidate>, i: nat, j: nat): seq<Candidate>
    requires i < |cs| && j < |cs|
  {
    cs[i := cs[j]][j := cs[i]]
  }

  lemma SwappedIsPermutation(cs: seq<Candidate>, i: nat, j: nat)
    requires i < |cs| && j < |cs|
    ensures multiset(Swapped(cs, i, j)) == multiset(cs)
  {
  }

  method Swap(a: array<Candidate>, i: nat, j: nat)
    requires i < a.Length && j < a.Length
    modifies a
    ensures a[..] == Swapped(old(a[..]), i, j)
  {
    a[i], a[j] := a[j], a[i];
  }

  predicate InOrder(cs: seq<Candidate>, p: nat, q: nat)
    requires p < |cs| && q < |cs|
  {
    cs[p].rankingScore <= cs[q].rankingScore
  }

  /** Sorted up to n, apart from the element at j, which may still have to move down. */
  predicate SortedExcept(cs: seq<Candidate>, n: nat, j: nat)
    requires n <= |cs|
  {
    && (forall p: nat, q: nat :: p < q < n && p != j && q != j ==> InOrder(cs, p, q))
    && (forall q: nat :: j < q < n ==> InOrder(cs, j, q))
  }

  /** Sorted but for one element, and still the same candidates. */
  predicate Inserting(cs: seq<Candidate>, n: nat, j: nat, members: multiset<Candidate>)
    requires n <= |cs|
  {
    SortedExcept(cs, n, j) && multiset(cs) == members
  }

  lemma InsertStep(cs: seq<Candidate>, n: nat, j: nat, members: multiset<Candidate>)
    requires 0 < j < n <= |cs| && Inserting(cs, n, j, members)
    requires cs[j].rankingScore < cs[j - 1].rankingScore
    ensures Inserting(Swapped(cs, j, j - 1), n, j - 1, members)
  {
    SwappedIsPermutation(cs, j, j - 1);
    SwapDown(cs, n, j);
  }

  lemma InsertStarts(cs: seq<Candidate>, i: nat)
    requires i < |cs| && SortedExcept(cs, i, |cs|)
    ensures Inserting(cs, i + 1, i, multiset(cs))
  {
  }

  method MoveDown(a: array<Candidate>, ghost n: nat, j: nat, ghost members: multiset<Candidate>)
    requires 0 < j < n <= a.Length && Inserting(a[..], n, j, members) && Less(a, j, j - 1)
    modifies a
    ensures Inserting(a[..], n, j - 1, members)
  {
    InsertStep(a[..], n, j, members);
    Swap(a, j, j - 1);
  }

  method Insert(a: array<Candidate>, i: nat)
    requires i < a.Length && SortedExcept(a[..], i, a.Length)
    modifies a
    ensures SortedExcept(a[..], i + 1, a.Length) && multiset(a[..]) == multiset(old(a[..]))
  {
    var j: nat := i;
    ghost var members := multiset(a[..]);
    InsertStarts(a[..], i);
    while j > 0 && Less(a, j, j - 1)
      invariant j <= i && Inserting(a[..], i + 1, j, members)
    {
      MoveDown(a, i + 1, j, members);
      j := j - 1;
    }
    InPlace(a[..], i + 1, j);
  }

  /** Insertion by adjacent swaps. Callers use only that the result is sorted and a permutation. */
  method Sort(a: array<Candidate>)
    modifies a
    ensures Sorted(a[..]) && multiset(a[..]) == multiset(old(a[..]))
  {
    var i := 0;
    while i < a.Length
      invariant i <= a.Length && SortedExcept(a[..], i, a.Length)
      invariant multiset(a[..]) == multiset(old(a[..]))
    {
      Insert(a, i);
      i := i + 1;
    }
    ghost var cs := a[..];
    forall p, q | 0 <= p < q < |cs| ensures cs[p].rankingScore <= cs[q].rankingScore {
      assert InOrder(cs, p, q);
    }
  }

  lemma InPlace(cs: seq<Candidate>, n: nat, j: nat)
    requires j < n <= |cs| && SortedExcept(cs, n, j)
    requires j > 0 ==> cs[j].rankingScore >= cs[j - 1].rankingScore
    ensures SortedExcept(cs, n, |cs|)
  {
    forall p: nat, q: nat | p < q < n ensures InOrder(cs, p, q) {
      assert q == j && p < j - 1 ==> InOrder(cs, p, j - 1);
    }
  }

  lemma SwapDown(cs: seq<Candidate>, n: nat, j: nat)
    requires 0 < j < n <= |cs| && SortedExcept(cs, n, j)
    requires cs[j].rankingScore < cs[j - 1].rankingScore
    ensures SortedExcept(Swapped(cs, j, j - 1), n, j - 1)
  {
    var after := Swapped(cs, j, j - 1);
    forall p: nat, q: nat | p < q < n && p != j - 1 && q != j - 1 ensures InOrder(after, p, q) {
      assert InOrder(cs, if p == j then j - 1 else p, if q == j then j - 1 else q);
    }
    var i := j - 1;
    forall q: nat | i < q < n ensures InOrder(after, i, q) {
      assert q > j ==> InOrder(cs, j, q);
    }
  }

  class DispatchPolicy {
    var candidateCount: int

    constructor ()
      ensures candidateCount == 10
    {
      candidateCount := 10;
    }

    method SetCandidateCount(count: int)
      modifies this
      ensures candidateCount == count
    {
      candidateCount := count;
    }

    /** The caller gets the front of a sorted copy; a negative count panics, and the input stays as it is. */
    method RankCandidates(candidates: array<Candidate>) returns (r: Result<seq<Candidate>>)
      ensures r.Panic? <==> candidateCount < 0
      ensures r.Ok? ==> IsTop(candidates[..], candidateCount, r.value)
    {
      var ranked := new Candidate[candidates.Length](
        i requires 0 <= i < candidates.Length reads candidates => candidates[i]);
      var i := 0;
      while i < ranked.Length
        invariant i <= ranked.Length
        invariant forall k :: 0 <= k < ranked.Length ==>
          ranked[k] == if k < i then Rescored(candidates[k]) else candidates[k]
      {
        if ranked[i].rankingScore == 0.0 {
          ranked[i] := ranked[i].(rankingScore := ranked[i].distanceMeters);
        }
        i := i + 1;
      }
      assert ranked[..] == RescoredAll(candidates[..]);
      Sort(ranked);
      ghost var order := ranked[..];
      var end := Min(candidateCount, ranked.Length);
      if end < 0 {
        return Panic;
      }
      SameLength(order, RescoredAll(candidates[..]));
      FrontIsTop(order, end);
      r := Ok(ranked[..end]);
      assert r.value == order[..end];
    }
  }

  ghost predicate AllAtMost(kept: seq<Candidate>, omitted: multiset<Candidate>) {
    forall x: Candidate, y: Candidate :: x in kept && y in omitted ==> x.rankingScore <= y.rankingScore
  }

  /** At most `count` of the rescored candidates, as many as there are, in order, none more often than it was
      given; and every candidate left out scores at least as high as every one kept. */
  ghost predicate IsTop(candidates: seq<Candidate>, count: int, top: seq<Candidate>) {
    var all := multiset(RescoredAll(candidates));
    && count >= 0 && |top| == Min(count, |candidates|) && Sorted(top)
    && multiset(top) <= all && AllAtMost(top, all - multiset(top))
  }

  lemma SameLength(s: seq<Candidate>, t: seq<Candidate>)
    requires multiset(s) == multiset(t)
    ensures |s| == |t|
  {
    assert |multiset(s)| == |s| && |multiset(t)| == |t|;
  }

  lemma FirstAndRest(s: seq<Candidate>)
    requires s != []
    ensures s[0] in multiset(s) && multiset(s) == multiset{s[0]} + multiset(s[1..])
  {
    assert s == [s[0]] + s[1..];
  }

  lemma Without(s: seq<Candidate>, x: Candidate) returns (k: nat, rest: seq<Candidate>)
    requires x in multiset(s)
    ensures k < |s| && s[k] == x && rest == s[..k] + s[k + 1..] && s == s[..k] + ([x] + s[k + 1..])
    ensures multiset(s) == multiset{x} + multiset(rest)
  {
    k :| 0 <= k < |s| && s[k] == x;
    rest := s[..k] + s[k + 1..];
    assert s == s[..k] + ([x] + s[k + 1..]);
  }

  lemma Cancel(x: Candidate, a: multiset<Candidate>, b: multiset<Candidate>)
    requires multiset{x} + a <= multiset{x} + b
    ensures a <= b
  {
    forall z ensures a[z] <= b[z] {
      assert (multiset{x} + a)[z] <= (multiset{x} + b)[z];
    }
  }

  // ---------------------------------------------------------------- what the front of a sorted copy is

  function Total(cs: seq<Candidate>): real {
    if cs == [] then 0.0 else cs[0].rankingScore + Total(cs[1..])
  }

  function Below(x: real, m: real): real {
    if x < m then x - m else 0.0
  }

  /** The sum of the parts of the scores that lie below m, as a number that is not positive. */
  function Shortfall(cs: seq<Candidate>, m: real): real {
    if cs == [] then 0.0 else Below(cs[0].rankingScore, m) + Shortfall(cs[1..], m)
  }

  lemma {:induction false} ShortfallConcat(a: seq<Candidate>, b: seq<Candidate>, m: real)
    ensures Shortfall(a + b, m) == Shortfall(a, m) + Shortfall(b, m)
  {
    if a == [] {
      assert a + b == b;
    } else {
      assert (a + b)[1..] == a[1..] + b;
      ShortfallConcat(a[1..], b, m);
    }
  }

  lemma {:induction false} ShortfallSign(cs: seq<Candidate>, m: real)
    ensures Shortfall(cs, m) <= 0.0
    ensures (forall c :: c in cs ==> c.rankingScore >= m) ==> Shortfall(cs, m) == 0.0
  {
    if cs != [] {
      ShortfallSign(cs[1..], m);
    }
  }

  /** Fewer candidates fall short by less. */
  lemma {:induction false} ShortfallOfPart(part: seq<Candidate>, all: seq<Candidate>, m: real)
    requires multiset(part) <= multiset(all)
    ensures Shortfall(part, m) >= Shortfall(all, m)
  {
    if part == [] {
      ShortfallSign(all, m);
    } else {
      var x := part[0];
      FirstAndRest(part);
      assert 0 < multiset(part)[x] <= multiset(all)[x];
      var k, rest := Without(all, x);
      Cancel(x, multiset(part[1..]), multiset(rest));
      ShortfallOfPart(part[1..], rest, m);
      ShortfallConcat(all[..k], [x] + all[k + 1..], m);
      ShortfallConcat([x], all[k + 1..], m);
      ShortfallConcat(all[..k], all[k + 1..], m);
      assert Shortfall([x], m) == Below(x.rankingScore, m);
    }
  }

  /** The total of n scores of m. */
  function Level(n: nat, m: real): real {
    if n == 0 then 0.0 else m + Level(n - 1, m)
  }

  lemma {:induction false} TotalFromShortfall(cs: seq<Candidate>, m: real)
    ensures Total(cs) >= Shortfall(cs, m) + Level(|cs|, m)
    ensures (forall c :: c in cs ==> c.rankingScore <= m) ==> Total(cs) == Shortfall(cs, m) + Level(|cs|, m)
  {
    if cs != [] {
      TotalFromShortfall(cs[1..], m);
    }
  }

  lemma FrontIsTop(order: seq<Candidate>, n: nat)
    requires Sorted(order) && n <= |order|
    ensures multiset(order[..n]) <= multiset(order)
    ensures AllAtMost(order[..n], multiset(order) - multiset(order[..n]))
  {
    var kept, omitted := order[..n], order[n..];
    assert order == kept + omitted;
    assert multiset(order) - multiset(kept) == multiset(omitted);
    forall x: Candidate, y: Candidate | x in kept && y in multiset(omitted)
      ensures x.rankingScore <= y.rankingScore
    {
      assert y in omitted;
    }
  }

  /** The members of a multiset, listed. */
  lemma {:induction false} Listing(m: multiset<Candidate>) returns (cs: seq<Candidate>)
    ensures multiset(cs) == m
    decreases |m|
  {
    cs := [];
    if m != multiset{} {
      var x :| x in m;
      var rest := Listing(m - multiset{x});
      cs := [x] + rest;
    }
  }

  lemma ListedAtMost(kept: seq<Candidate>, omitted: seq<Candidate>)
    requires AllAtMost(kept, multiset(omitted))
    ensures forall x, y :: x in kept && y in omitted ==> x.rankingScore <= y.rankingScore
  {
    forall x, y | x in kept && y in omitted ensures x.rankingScore <= y.rankingScore {
      assert y in multiset(omitted);
    }
  }

  /** The candidates that were left out. */
  lemma Omitted(candidates: seq<Candidate>, k: nat, top: seq<Candidate>) returns (omitted: seq<Candidate>)
    requires IsTop(candidates, k, top)
    ensures multiset(top + omitted) == multiset(RescoredAll(candidates))
    ensures forall x, y :: x in top && y in omitted ==> x.rankingScore <= y.rankingScore
  {
    var all := multiset(RescoredAll(candidates));
    omitted := Listing(all - multiset(top));
    ListedAtMost(top, omitted);
  }

  lemma KeptIsCheapest(top: seq<Candidate>, omitted: seq<Candidate>, other: seq<Candidate>)
    requires Sorted(top) && forall x, y :: x in top && y in omitted ==> x.rankingScore <= y.rankingScore
    requires |other| == |top| && multiset(other) <= multiset(top + omitted)
    ensures Total(top) <= Total(other)
  {
    if top != [] {
      var m := top[|top| - 1].rankingScore;
      assert top[|top| - 1] in top;
      ShortfallOfPart(other, top + omitted, m);
      ShortfallConcat(top, omitted, m);
      ShortfallSign(omitted, m);
      assert forall c :: c in top ==> c.rankingScore <= m;
      TotalFromShortfall(top, m);
      TotalFromShortfall(other, m);
    }
  }

  /** No other choice of as many candidates has a smaller total score. */
  lemma TopIsCheapest(candidates: seq<Candidate>, k: nat, top: seq<Candidate>, other: seq<Candidate>)
    requires IsTop(candidates, k, top)
    requires |other| == |top| && multiset(other) <= multiset(RescoredAll(candidates))
    ensures Total(top) <= Total(other)
  {
    var omitted := Omitted(candidates, k, top);
    KeptIsCheapest(top, omitted, other);
  }

  // ---------------------------------------------------------------- what the candidates are ranked by

  /** A ranked candidate is one that was given, with the distance as its score if it had none. */
  predicate Stands(given: Candidate, ranked: Candidate) {
    && ranked.driverID == given.driverID && ranked.distanceMeters == given.distanceMeters
    && ranked.vehicleType == given.vehicleType && ranked.status == given.status
    && ranked.rankingScore == if given.rankingScore == 0.0 then given.distanceMeters else given.rankingScore
  }

  lemma TopStands(candidates: seq<Candidate>, k: int, top: seq<Candidate>, x: Candidate)
    requires IsTop(candidates, k, top) && x in top
    ensures exists i :: 0 <= i < |candidates| && Stands(candidates[i], x)
  {
    var all := RescoredAll(candidates);
    assert 0 < multiset(top)[x] <= multiset(all)[x];
    assert x in all;
    var i :| 0 <= i < |all| && all[i] == x;
    assert Stands(candidates[i], x);
  }

  lemma UnscoredByDistance(candidates: seq<Candidate>, x: Candidate)
    requires (forall c :: c in candidates ==> c.rankingScore == 0.0) && x in multiset(RescoredAll(candidates))
    ensures x.rankingScore == x.distanceMeters
  {
    var all := RescoredAll(candidates);
    assert x in all;
    var i :| 0 <= i < |all| && all[i] == x;
    assert candidates[i] in candidates;
  }

  /** Candidates without scores are ranked by distance: nearest first, and none is left out that is nearer than one
      that is kept. */
  lemma NearestFirst(candidates: seq<Candidate>, k: nat, top: seq<Candidate>, y: Candidate)
    requires IsTop(candidates, k, top) && y in multiset(RescoredAll(candidates)) - multiset(top)
    requires forall c :: c in candidates ==> c.rankingScore == 0.0
    ensures forall i, j :: 0 <= i < j < |top| ==> top[i].distanceMeters <= top[j].distanceMeters
    ensures forall i :: 0 <= i < |top| ==> top[i].distanceMeters <= y.distanceMeters
  {
    UnscoredByDistance(candidates, y);
    forall i | 0 <= i < |top| ensures top[i].rankingScore == top[i].distanceMeters {
      assert top[i] in multiset(top);
      UnscoredByDistance(candidates, top[i]);
    }
    forall i | 0 <= i < |top| ensures top[i].rankingScore <= y.rankingScore {
      assert top[i] in top;
    }
  }

  // ---------------------------------------------------------------- any correct sort gives the same scores

  function AtMost(cs: seq<Candidate>, v: real): nat {
    if cs == [] then 0 else AtMost(cs[1..], v) + if cs[0].rankingScore <= v then 1 else 0
  }

  lemma {:induction false} AtMostConcat(a: seq<Candidate>, b: seq<Candidate>, v: real)
    ensures AtMost(a + b, v) == AtMost(a, v) + AtMost(b, v)
  {
    if a == [] {
      assert a + b == b;
    } else {
      assert (a + b)[1..] == a[1..] + b;
      AtMostConcat(a[1..], b, v);
    }
  }

  lemma {:induction false} AtMostOfMultiset(s: seq<Candidate>, t: seq<Candidate>, v: real)
    requires multiset(s) == multiset(t)
    ensures AtMost(s, v) == AtMost(t, v)
  {
    SameLength(s, t);
    if s != [] {
      var x := s[0];
      FirstAndRest(s);
      assert 0 < multiset(s)[x] == multiset(t)[x];
      var k, rest := Without(t, x);
      Cancel(x, multiset(s[1..]), multiset(rest));
      Cancel(x, multiset(rest), multiset(s[1..]));
      AtMostOfMultiset(s[1..], rest, v);
      AtMostConcat(t[..k], [x] + t[k + 1..], v);
      AtMostConcat([x], t[k + 1..], v);
      AtMostConcat(t[..k], t[k + 1..], v);
    }
  }

  /** In a sorted sequence the scores up to v come first. */
  lemma {:induction false} AtMostSorted(cs: seq<Candidate>, v: real, i: nat)
    requires Sorted(cs) && i < |cs|
    ensures cs[i].rankingScore <= v <==> i < AtMost(cs, v)
  {
    if cs[0].rankingScore > v {
      NoneAtMost(cs, v);
    } else if i > 0 {
      AtMostSorted(cs[1..], v, i - 1);
    }
  }

  lemma {:induction false} NoneAtMost(cs: seq<Candidate>, v: real)
    requires forall i :: 0 <= i < |cs| ==> cs[i].rankingScore > v
    ensures AtMost(cs, v) == 0
  {
    if cs != [] {
      NoneAtMost(cs[1..], v);
    }
  }

  /** The i-th kept score is at most v exactly if more than i scores of all the candidates are. */
  lemma ScoreByCount(top: seq<Candidate>, omitted: seq<Candidate>, v: real, i: nat)
    requires Sorted(top) && i < |top|
    requires forall x, y :: x in top && y in omitted ==> x.rankingScore <= y.rankingScore
    ensures top[i].rankingScore <= v <==> i < AtMost(top + omitted, v)
  {
    AtMostConcat(top, omitted, v);
    AtMostSorted(top, v, i);
    if top[i].rankingScore > v {
      assert top[i] in top;
      NoneAtMost(omitted, v);
    }
  }

  /** Two results for the same input have the same score at each place, so which sort is used, and how it
      orders equal scores, does not show in the scores that come back. */
  lemma ScoresAreDetermined(candidates: seq<Candidate>, k: nat, top: seq<Candidate>, top': seq<Candidate>)
    requires IsTop(candidates, k, top) && IsTop(candidates, k, top')
    ensures |top| == |top'| && forall i :: 0 <= i < |top| ==> top[i].rankingScore == top'[i].rankingScore
  {
    var rest := Omitted(candidates, k, top);
    var rest' := Omitted(candidates, k, top');
    forall i | 0 <= i < |top| ensures top[i].rankingScore == top'[i].rankingScore {
      SameScoreAt(top, rest, top', rest', i);
    }
  }

  lemma SameScoreAt(top: seq<Candidate>, rest: seq<Candidate>, top': seq<Candidate>, rest': seq<Candidate>, i: nat)
    requires Sorted(top) && Sorted(top') && i < |top| && i < |top'|
    requires multiset(top + rest) == multiset(top' + rest')
    requires forall x, y :: x in top && y in rest ==> x.rankingScore <= y.rankingScore
    requires forall x, y :: x in top' && y in rest' ==> x.rankingScore <= y.rankingScore
    ensures top[i].rankingScore == top'[i].rankingScore
  {
    var v, w := top[i].rankingScore, top'[i].rankingScore;
    AtMostOfMultiset(top + rest, top' + rest', v);
    AtMostOfMultiset(top + rest, top' + rest', w);
    ScoreByCount(top, rest, v, i);
    ScoreByCount(top', rest', v, i);
    ScoreByCount(top, rest, w, i);
    ScoreByCount(top', rest', w, i);
  }
}
