/**
  Top-k retrieval (src/agent.rs, `Agent::find_top_k_matches` and
  `Agent::process_message`).

  Every stored entity gets one score against the query, the scored list is
  sorted by descending score with a stable sort, the first `k` are kept and
  each kept entity is projected to its `content`.  The similarity measure is
  abstract: any function from (entity vector, query vector) into `int`.

  A scored entry is a `Match`: the load position `idx` of the entity it refers
  to (the source holds a reference to the entity) and its score.  A stable sort
  by descending score of a list in load order is the same as a sort by
  `Before`: higher score first, and on equal scores the earlier load position.
*/
module Agent {
  import opened Wrappers
  import opened AzureTable

  /** The number of matches `process_message` asks for. */
  const MessageTopK: nat := 5

  datatype Match = Match(idx: nat, score: int)

  /** `x` is ranked strictly ahead of `y`. */
  predicate Before(x: Match, y: Match) {
    x.score > y.score || (x.score == y.score && x.idx < y.idx)
  }

  /** Strictly ordered by `Before`. */
  predicate Ranked(s: seq<Match>) {
    forall i, j :: 0 <= i < j < |s| ==> Before(s[i], s[j])
  }

  function Min(a: nat, b: nat): nat {
    if a <= b then a else b
  }

  /** The score of stored entity `i`. */
  function ScoreOf<F>(stored: seq<Entity<F>>, query: seq<F>, sim: (seq<F>, seq<F>) -> int, i: nat): int
    requires i < |stored|
  {
    sim(stored[i].vector, query)
  }

  /** One match per stored entity, in load order. */
  function Scored<F>(stored: seq<Entity<F>>, query: seq<F>, sim: (seq<F>, seq<F>) -> int): seq<Match> {
    seq(|stored|, i requires 0 <= i < |stored| => Match(i, ScoreOf(stored, query, sim, i)))
  }

  // ---------------------------------------------------------------------------
  // Reference stable sort: insertion into a ranked list
  // ---------------------------------------------------------------------------

  function Insert(x: Match, s: seq<Match>): seq<Match> {
    if s == [] then [x]
    else if Before(x, s[0]) then [x] + s
    else [s[0]] + Insert(x, s[1..])
  }

  function SortDesc(s: seq<Match>): seq<Match> {
    if s == [] then [] else Insert(s[0], SortDesc(s[1..]))
  }

  lemma {:induction false} InsertPermutes(x: Match, s: seq<Match>)
    ensures multiset(Insert(x, s)) == multiset{x} + multiset(s)
  {
    if s != [] && !Before(x, s[0]) {
      InsertPermutes(x, s[1..]);
      assert s == [s[0]] + s[1..];
    }
  }

  lemma {:induction false} InsertRanked(x: Match, s: seq<Match>)
    requires Ranked(s) && x !in s
    ensures Ranked(Insert(x, s))
  {
    if s != [] && !Before(x, s[0]) {
      InsertRanked(x, s[1..]);
      InsertPermutes(x, s[1..]);
      var t := Insert(x, s[1..]);
      forall j | 0 <= j < |t| ensures Before(s[0], t[j]) {
        assert t[j] in multiset(t);
        if t[j] != x {
          assert t[j] in s[1..];
        }
      }
    }
  }

  lemma {:induction false} SortDescPermutes(s: seq<Match>)
    ensures multiset(SortDesc(s)) == multiset(s)
  {
    if s != [] {
      SortDescPermutes(s[1..]);
      InsertPermutes(s[0], SortDesc(s[1..]));
      assert s == [s[0]] + s[1..];
    }
  }

  lemma {:induction false} SortDescRanked(s: seq<Match>)
    requires forall i, j :: 0 <= i < j < |s| ==> s[i] != s[j]
    ensures Ranked(SortDesc(s))
  {
    if s != [] {
      SortDescRanked(s[1..]);
      SortDescPermutes(s[1..]);
      assert s[0] !in s[1..] by {
        forall i | 0 <= i < |s| - 1 ensures s[1..][i] != s[0] {
          assert s[1..][i] == s[i + 1];
        }
      }
      assert s[0] !in multiset(SortDesc(s[1..]));
      InsertRanked(s[0], SortDesc(s[1..]));
    }
  }

  lemma RankedTail(s: seq<Match>)
    requires Ranked(s) && s != []
    ensures Ranked(s[1..])
  {
    forall i, j | 0 <= i < j < |s| - 1 ensures Before(s[1..][i], s[1..][j]) {
      assert s[1..][i] == s[i + 1] && s[1..][j] == s[j + 1];
    }
  }

  /** The head of a ranked list comes before every other element. */
  lemma RankedHeadFirst(s: seq<Match>, e: Match)
    requires Ranked(s) && e in s
    ensures e == s[0] || Before(s[0], e)
  {
    var i :| 0 <= i < |s| && s[i] == e;
    if i > 0 {
      assert Before(s[0], s[i]);
    }
  }

  /** Two ranked lists with the same elements are the same list: `Before` is a
      strict total order, so the stable sort has exactly one possible result. */
  lemma {:induction false} RankedUnique(s: seq<Match>, t: seq<Match>)
    requires Ranked(s) && Ranked(t) && multiset(s) == multiset(t)
    ensures s == t
  {
    if s == [] {
      assert |multiset(t)| == 0;
    } else {
      RankedSameHead(s, t);
      MultisetTail(s);
      MultisetTail(t);
      RankedTail(s);
      RankedTail(t);
      RankedUnique(s[1..], t[1..]);
      assert s == [s[0]] + s[1..] && t == [t[0]] + t[1..];
    }
  }

  /** Ranked lists with the same elements start with the same element. */
  lemma RankedSameHead(s: seq<Match>, t: seq<Match>)
    requires Ranked(s) && Ranked(t) && multiset(s) == multiset(t) && s != []
    ensures t != [] && s[0] == t[0]
  {
    assert |multiset(t)| == |s|;
    assert s[0] in multiset(t) && t[0] in multiset(s);
    RankedHeadFirst(s, t[0]);
    RankedHeadFirst(t, s[0]);
  }

  lemma MultisetTail(s: seq<Match>)
    requires s != []
    ensures multiset(s[1..]) == multiset(s) - multiset{s[0]}
  {
    assert s == [s[0]] + s[1..];
  }

  // ---------------------------------------------------------------------------
  // The specification of the retrieval
  // ---------------------------------------------------------------------------

  /** An element of the scored list is the match of the entity it refers to. */
  lemma InScored<F>(stored: seq<Entity<F>>, query: seq<F>, sim: (seq<F>, seq<F>) -> int, m: Match)
    requires m in multiset(Scored(stored, query, sim))
    ensures m.idx < |stored| && m.score == ScoreOf(stored, query, sim, m.idx)
  {
    var sc := Scored(stored, query, sim);
    var i :| 0 <= i < |sc| && sc[i] == m;
  }

  /** Every stored entity, scored and stably sorted by descending score. */
  function Ranking<F>(stored: seq<Entity<F>>, query: seq<F>, sim: (seq<F>, seq<F>) -> int): (r: seq<Match>)
    ensures |r| == |stored|
    ensures Ranked(r)
    ensures multiset(r) == multiset(Scored(stored, query, sim))
    ensures forall p :: 0 <= p < |r| ==> r[p].idx < |stored| && r[p].score == ScoreOf(stored, query, sim, r[p].idx)
  {
    var sc := Scored(stored, query, sim);
    SortDescRanked(sc);
    SortDescPermutes(sc);
    var r := SortDesc(sc);
    assert |multiset(r)| == |multiset(sc)|;
    forall p | 0 <= p < |r|
      ensures r[p].idx < |stored| && r[p].score == ScoreOf(stored, query, sim, r[p].idx)
    {
      assert r[p] in multiset(r);
      InScored(stored, query, sim, r[p]);
    }
    r
  }

  /** The first `k` matches of the ranking. */
  function TopKMatches<F>(stored: seq<Entity<F>>, query: seq<F>, k: nat, sim: (seq<F>, seq<F>) -> int): seq<Match> {
    var r := Ranking(stored, query, sim);
    r[..Min(k, |r|)]
  }

  /** Matches projected to the content of the entities they refer to. */
  function Contents<F>(ms: seq<Match>, stored: seq<Entity<F>>): seq<string>
    requires forall p :: 0 <= p < |ms| ==> ms[p].idx < |stored|
  {
    seq(|ms|, p requires 0 <= p < |ms| => stored[ms[p].idx].content)
  }

  /** What `find_top_k_matches` returns. */
  function TopK<F>(stored: seq<Entity<F>>, query: seq<F>, k: nat, sim: (seq<F>, seq<F>) -> int): seq<string> {
    Contents(TopKMatches(stored, query, k, sim), stored)
  }

  // ---------------------------------------------------------------------------
  // Properties of the retrieval
  // ---------------------------------------------------------------------------

  /** The ranking lists every stored entity exactly once. */
  lemma RankingCovers<F>(stored: seq<Entity<F>>, query: seq<F>, sim: (seq<F>, seq<F>) -> int, j: nat)
    requires j < |stored|
    ensures var r := Ranking(stored, query, sim);
            |r| == |stored| && exists q :: 0 <= q < |r| && r[q].idx == j
  {
    var r := Ranking(stored, query, sim);
    var sc := Scored(stored, query, sim);
    assert |multiset(r)| == |multiset(sc)|;
    assert sc[j] in multiset(r);
    var q :| 0 <= q < |r| && r[q] == sc[j];
  }

  /** The result has `min(k, n)` elements; in particular `k = 0` or an empty
      store gives an empty result. */
  lemma TopKLength<F>(stored: seq<Entity<F>>, query: seq<F>, k: nat, sim: (seq<F>, seq<F>) -> int)
    ensures |TopK(stored, query, k, sim)| == Min(k, |stored|)
    ensures TopK(stored, query, k, sim) == [] <==> k == 0 || |stored| == 0
  {
    var r := Ranking(stored, query, sim);
    assert |multiset(r)| == |multiset(Scored(stored, query, sim))|;
  }

  /** Each returned string is the content of the entity its match refers to,
      and no stored entity is returned twice. */
  lemma TopKDistinctEntities<F>(stored: seq<Entity<F>>, query: seq<F>, k: nat, sim: (seq<F>, seq<F>) -> int)
    ensures var kept := TopKMatches(stored, query, k, sim);
            var r := TopK(stored, query, k, sim);
            && |r| == |kept|
            && (forall p :: 0 <= p < |kept| ==> kept[p].idx < |stored| && r[p] == stored[kept[p].idx].content)
            && (forall p, q :: 0 <= p < q < |kept| ==> kept[p].idx != kept[q].idx)
  {
    var kept := TopKMatches(stored, query, k, sim);
    forall p, q | 0 <= p < q < |kept| ensures kept[p].idx != kept[q].idx {
      assert Before(kept[p], kept[q]);
    }
  }

  /** The returned entities' scores do not increase along the result. */
  lemma TopKNonIncreasing<F>(stored: seq<Entity<F>>, query: seq<F>, k: nat, sim: (seq<F>, seq<F>) -> int)
    ensures var kept := TopKMatches(stored, query, k, sim);
            forall p, q :: 0 <= p < q < |kept| ==> kept[p].score >= kept[q].score
  {
  }

  /** Entities with equal scores keep their load order. */
  lemma TopKStable<F>(stored: seq<Entity<F>>, query: seq<F>, k: nat, sim: (seq<F>, seq<F>) -> int)
    ensures var kept := TopKMatches(stored, query, k, sim);
            forall p, q :: 0 <= p < q < |kept| && kept[p].score == kept[q].score ==> kept[p].idx < kept[q].idx
  {
  }

  /** Every returned entity is ranked ahead of every entity left out: it
      scores at least as high, and on equal scores it was loaded earlier. */
  lemma TopKDominates<F>(stored: seq<Entity<F>>, query: seq<F>, k: nat, sim: (seq<F>, seq<F>) -> int, j: nat)
    requires j < |stored|
    requires forall p :: 0 <= p < |TopKMatches(stored, query, k, sim)| ==> TopKMatches(stored, query, k, sim)[p].idx != j
    ensures var kept := TopKMatches(stored, query, k, sim);
            forall p :: 0 <= p < |kept| ==> Before(kept[p], Match(j, ScoreOf(stored, query, sim, j)))
  {
    var r := Ranking(stored, query, sim);
    var kept := TopKMatches(stored, query, k, sim);
    RankingCovers(stored, query, sim, j);
    var q :| 0 <= q < |r| && r[q].idx == j;
    assert forall p :: 0 <= p < |kept| ==> kept[p] == r[p];
    assert q >= |kept|;
    forall p | 0 <= p < |kept| ensures Before(kept[p], Match(j, ScoreOf(stored, query, sim, j))) {
      assert kept[p] == r[p] && Before(r[p], r[q]);
    }
  }

  /** The first returned entity has the highest score of the store, and is the
      earliest loaded of those with that score. */
  lemma TopKFirstIsBest<F>(stored: seq<Entity<F>>, query: seq<F>, k: nat, sim: (seq<F>, seq<F>) -> int, j: nat)
    requires k > 0 && j < |stored|
    ensures var kept := TopKMatches(stored, query, k, sim);
            var best := ScoreOf(stored, query, sim, j);
            |kept| > 0 &&
            (kept[0].score > best || (kept[0].score == best && kept[0].idx <= j))
  {
    var r := Ranking(stored, query, sim);
    RankingCovers(stored, query, sim, j);
    var q :| 0 <= q < |r| && r[q].idx == j;
    if q > 0 {
      assert Before(r[0], r[q]);
    }
  }

  /** The index positions of a permutation of the store. */
  predicate IsPermutationOfRange(order: seq<nat>, n: nat) {
    && |order| == n
    && (forall p :: 0 <= p < |order| ==> order[p] < n)
    && (forall p, q :: 0 <= p < q < |order| ==> order[p] != order[q])
  }

  /** The result is a prefix of a permutation of the store, projected to
      `content`. */
  lemma TopKPrefixOfPermutation<F>(stored: seq<Entity<F>>, query: seq<F>, k: nat, sim: (seq<F>, seq<F>) -> int)
    ensures var r := TopK(stored, query, k, sim);
            exists order :: IsPermutationOfRange(order, |stored|) && |r| <= |order| &&
                            forall p :: 0 <= p < |r| ==> r[p] == stored[order[p]].content
  {
    var rank := Ranking(stored, query, sim);
    var kept := TopKMatches(stored, query, k, sim);
    var r := TopK(stored, query, k, sim);
    TopKDistinctEntities(stored, query, k, sim);
    assert TopKMatches(stored, query, |stored|, sim) == rank;
    TopKDistinctEntities(stored, query, |stored|, sim);
    var order := seq(|rank|, p requires 0 <= p < |rank| => rank[p].idx);
    assert forall p :: 0 <= p < |kept| ==> kept[p] == rank[p];
    assert IsPermutationOfRange(order, |stored|);
    assert |r| <= |order|;
    assert forall p :: 0 <= p < |r| ==> r[p] == stored[order[p]].content;
  }

  // ---------------------------------------------------------------------------
  // The implementation, as the source computes it
  // ---------------------------------------------------------------------------

  /** Swap positions `j - 1` and `j`. */
  method SwapDown(a: array<Match>, j: nat)
    requires 0 < j < a.Length
    modifies a
    ensures a[j - 1] == old(a[j]) && a[j] == old(a[j - 1])
    ensures forall p :: 0 <= p < a.Length && p != j - 1 && p != j ==> a[p] == old(a[p])
    ensures multiset(a[..]) == multiset(old(a[..]))
  {
    a[j - 1], a[j] := a[j], a[j - 1];
  }

  /** One step of a stable insertion sort: move `a[i]` left past every entry
      whose score is strictly lower. */
  method InsertLast(a: array<Match>, i: nat)
    requires i < a.Length
    requires Ranked(a[..i])
    requires forall p :: 0 <= p < i ==> a[p].idx < a[i].idx
    modifies a
    ensures Ranked(a[..i + 1])
    ensures forall p :: 0 <= p <= i ==> a[p].idx <= old(a[i].idx)
    ensures forall p :: i < p < a.Length ==> a[p] == old(a[p])
    ensures multiset(a[..]) == multiset(old(a[..]))
  {
    var j := i;
    while j > 0 && a[j].score > a[j - 1].score
      invariant 0 <= j <= i
      invariant a[j] == old(a[i])
      invariant forall p, q :: 0 <= p < q <= i && p != j && q != j ==> Before(a[p], a[q])
      invariant forall q :: j < q <= i ==> Before(a[j], a[q])
      invariant forall p :: 0 <= p <= i && p != j ==> a[p].idx < a[j].idx
      invariant forall p :: i < p < a.Length ==> a[p] == old(a[p])
      invariant multiset(a[..]) == multiset(old(a[..]))
    {
      SwapDown(a, j);
      j := j - 1;
    }
  }

  /** `matches.sort_by(..)` with the descending-score comparator, on a list
      whose entries are in load order. */
  method SortByScore(a: array<Match>)
    requires forall p, q :: 0 <= p < q < a.Length ==> a[p].idx < a[q].idx
    modifies a
    ensures Ranked(a[..])
    ensures multiset(a[..]) == multiset(old(a[..]))
  {
    var i := 0;
    while i < a.Length
      invariant 0 <= i <= a.Length
      invariant Ranked(a[..i])
      invariant forall p, q :: 0 <= p < i <= q < a.Length ==> a[p].idx < a[q].idx
      invariant forall p, q :: i <= p < q < a.Length ==> a[p].idx < a[q].idx
      invariant multiset(a[..]) == multiset(old(a[..]))
    {
      InsertLast(a, i);
      i := i + 1;
    }
    assert a[..i] == a[..];
  }

  /** `find_top_k_matches`: score each stored entity, sort, keep `k`, project. */
  method FindTopKMatches<F>(stored: seq<Entity<F>>, query: seq<F>, k: nat, sim: (seq<F>, seq<F>) -> int)
    returns (contents: seq<string>)
    ensures contents == TopK(stored, query, k, sim)
  {
    var matches := new Match[|stored|];
    for i := 0 to |stored|
      invariant forall j :: 0 <= j < i ==> matches[j] == Match(j, sim(stored[j].vector, query))
    {
      matches[i] := Match(i, sim(stored[i].vector, query));
    }
    assert matches[..] == Scored(stored, query, sim);
    SortByScore(matches);
    var ranked := matches[..];
    RankedUnique(ranked, Ranking(stored, query, sim));
    var n := Min(k, matches.Length);
    contents := Contents(ranked[..n], stored);
  }

  /** `process_message`: no answer when the query could not be embedded or
      when there is nothing to return; otherwise the top five contents. */
  method ProcessMessage<F>(stored: seq<Entity<F>>, embedding: Option<seq<F>>, sim: (seq<F>, seq<F>) -> int)
    returns (r: Option<seq<string>>)
    ensures embedding.None? ==> r == None
    ensures embedding.Some? ==> (r == None <==> |stored| == 0)
    ensures embedding.Some? && r.Some? ==> r.value == TopK(stored, embedding.value, MessageTopK, sim)
  {
    if embedding.None? {
      return None;
    }
    var matches := FindTopKMatches(stored, embedding.value, MessageTopK, sim);
    TopKLength(stored, embedding.value, MessageTopK, sim);
    if matches == [] {
      r := None;
    } else {
      r := Some(matches);
    }
  }
}
