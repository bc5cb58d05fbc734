/**
 * The two nested-loop shapes the demos use to visit pairs:
 *
 *   for (i = 0; i < n - 1; ++i) for (j = i + 1; j < n; ++j)   -- every unordered pair once
 *   for (a = 0; a < na; ++a)    for (b = 0; b < nb; ++b)      -- every (a, b) of two containers
 *
 * The visits are given as explicit sequences of index pairs (Pairs, Grid),
 * and a sweep's effect on its state as a left fold of the per-pair step over
 * that sequence, so that the order of the calls is part of the statement.
 */
module Sweeps {

  type IndexPair = (nat, nat)

  /** (i, j), (i, j + 1), ..., (i, n - 1): one pass of an inner loop. */
  function Row(i: nat, j: nat, n: nat): seq<IndexPair>
    decreases n - j
  {
    if j >= n then [] else [(i, j)] + Row(i, j + 1, n)
  }

  /** The pairs visited by the outer loop from index i on. */
  function PairsFrom(i: nat, n: nat): seq<IndexPair>
    decreases n - i
  {
    if i + 1 >= n then [] else Row(i, i + 1, n) + PairsFrom(i + 1, n)
  }

  /** Every unordered pair of n items, in the order the i < j loops visit them. */
  function Pairs(n: nat): seq<IndexPair>
  {
    PairsFrom(0, n)
  }

  function GridFrom(a: nat, na: nat, nb: nat): seq<IndexPair>
    decreases na - a
  {
    if a >= na then [] else Row(a, 0, nb) + GridFrom(a + 1, na, nb)
  }

  /** Every (a, b) with a < na and b < nb, in the order the nested loops visit them. */
  function Grid(na: nat, nb: nat): seq<IndexPair>
  {
    GridFrom(0, na, nb)
  }

  /** Lexicographic order on index pairs: the order in which loops visit them. */
  predicate LexLess(p: IndexPair, q: IndexPair)
  {
    p.0 < q.0 || (p.0 == q.0 && p.1 < q.1)
  }

  ghost predicate StrictlyLexSorted(s: seq<IndexPair>)
  {
    forall p, q :: 0 <= p < q < |s| ==> LexLess(s[p], s[q])
  }

  /** Applies step to the state once for each pair of ps, first pair first. */
  function FoldPairs<S>(s: S, ps: seq<IndexPair>, step: (S, nat, nat) -> S): S
    decreases |ps|
  {
    if ps == [] then s else FoldPairs(step(s, ps[0].0, ps[0].1), ps[1..], step)
  }

  // ---------------------------------------------------------------------
  // Facts about the visit sequences.

  lemma {:induction false} RowFacts(i: nat, j: nat, n: nat)
    ensures |Row(i, j, n)| == if j >= n then 0 else n - j
    ensures forall k :: 0 <= k < |Row(i, j, n)| ==> Row(i, j, n)[k] == (i, j + k)
    decreases n - j
  {
    if j < n {
      RowFacts(i, j + 1, n);
    }
  }

  lemma {:induction false} RowMembers(i: nat, j: nat, n: nat, p: IndexPair)
    ensures p in Row(i, j, n) <==> p.0 == i && j <= p.1 < n
    decreases n - j
  {
    if j < n {
      RowMembers(i, j + 1, n, p);
    }
  }

  lemma {:induction false} PairsFromMembers(i: nat, n: nat, p: IndexPair)
    ensures p in PairsFrom(i, n) <==> i <= p.0 < p.1 < n
    decreases n - i
  {
    if i + 1 < n {
      var row, rest := Row(i, i + 1, n), PairsFrom(i + 1, n);
      assert PairsFrom(i, n) == row + rest;
      RowMembers(i, i + 1, n, p);
      PairsFromMembers(i + 1, n, p);
      assert p in row + rest <==> p in row || p in rest;
    } else {
      assert PairsFrom(i, n) == [];
    }
  }

  /** A pair is visited exactly when its indices are distinct, in order, and in range. */
  lemma PairsMembers(n: nat, i: nat, j: nat)
    ensures (i, j) in Pairs(n) <==> i < j < n
  {
    PairsFromMembers(0, n, (i, j));
  }

  lemma SortedConcat(a: seq<IndexPair>, b: seq<IndexPair>)
    requires StrictlyLexSorted(a) && StrictlyLexSorted(b)
    requires forall x, y :: x in a && y in b ==> LexLess(x, y)
    ensures StrictlyLexSorted(a + b)
  {
    var s := a + b;
    forall p, q | 0 <= p < q < |s| ensures LexLess(s[p], s[q]) {
      if q < |a| {
        assert s[p] == a[p] && s[q] == a[q];
      } else if p >= |a| {
        assert s[p] == b[p - |a|] && s[q] == b[q - |a|];
      } else {
        assert s[p] == a[p] && s[q] == b[q - |a|];
        assert a[p] in a && b[q - |a|] in b;
      }
    }
  }

  lemma {:induction false} PairsFromSorted(i: nat, n: nat)
    ensures StrictlyLexSorted(PairsFrom(i, n))
    ensures forall p :: p in PairsFrom(i, n) ==> i <= p.0
    decreases n - i
  {
    if i + 1 < n {
      RowFacts(i, i + 1, n);
      PairsFromSorted(i + 1, n);
      var row := Row(i, i + 1, n);
      forall x, y | x in row && y in PairsFrom(i + 1, n) ensures LexLess(x, y) {
        var k :| 0 <= k < |row| && row[k] == x;
      }
      SortedConcat(row, PairsFrom(i + 1, n));
      forall p | p in PairsFrom(i, n) ensures i <= p.0 {
        if p in row {
          var k :| 0 <= k < |row| && row[k] == p;
        }
      }
    }
  }

  /**
   * The pair sweep visits pairs in strictly increasing lexicographic order,
   * so it visits no pair twice; together with PairsMembers, it visits each
   * unordered pair exactly once.
   */
  lemma PairsVisitOrder(n: nat)
    ensures StrictlyLexSorted(Pairs(n))
    ensures forall p, q :: 0 <= p < q < |Pairs(n)| ==> Pairs(n)[p] != Pairs(n)[q]
  {
    PairsFromSorted(0, n);
  }

  /** With fewer than two items the pair sweep makes no visit, and otherwise it does. */
  lemma PairsEmpty(n: nat)
    ensures Pairs(n) == [] <==> n < 2
  {
    if n >= 2 {
      PairsMembers(n, 0, 1);
    }
  }

  lemma {:induction false} GridFromMembers(a: nat, na: nat, nb: nat, p: IndexPair)
    ensures p in GridFrom(a, na, nb) <==> a <= p.0 < na && p.1 < nb
    decreases na - a
  {
    if a < na {
      RowMembers(a, 0, nb, p);
      GridFromMembers(a + 1, na, nb, p);
    }
  }

  /** The cross sweep visits exactly the pairs of an item of each container. */
  lemma GridMembers(na: nat, nb: nat, a: nat, b: nat)
    ensures (a, b) in Grid(na, nb) <==> a < na && b < nb
  {
    GridFromMembers(0, na, nb, (a, b));
  }

  /** With an empty second container the cross sweep makes no visit. */
  lemma {:induction false} GridNoColumns(a: nat, na: nat)
    ensures GridFrom(a, na, 0) == []
    decreases na - a
  {
    if a < na {
      GridNoColumns(a + 1, na);
      assert Row(a, 0, 0) == [];
    }
  }

  lemma {:induction false} GridFromSorted(a: nat, na: nat, nb: nat)
    ensures StrictlyLexSorted(GridFrom(a, na, nb))
    ensures forall p :: p in GridFrom(a, na, nb) ==> a <= p.0
    decreases na - a
  {
    if a < na {
      RowFacts(a, 0, nb);
      GridFromSorted(a + 1, na, nb);
      var row := Row(a, 0, nb);
      forall x, y | x in row && y in GridFrom(a + 1, na, nb) ensures LexLess(x, y) {
        var k :| 0 <= k < |row| && row[k] == x;
      }
      SortedConcat(row, GridFrom(a + 1, na, nb));
      forall p | p in GridFrom(a, na, nb) ensures a <= p.0 {
        if p in row {
          var k :| 0 <= k < |row| && row[k] == p;
        }
      }
    }
  }

  /** The cross sweep visits pairs in increasing lexicographic order, none twice. */
  lemma GridVisitOrder(na: nat, nb: nat)
    ensures StrictlyLexSorted(Grid(na, nb))
    ensures forall p, q :: 0 <= p < q < |Grid(na, nb)| ==> Grid(na, nb)[p] != Grid(na, nb)[q]
  {
    GridFromSorted(0, na, nb);
  }

  lemma {:induction false} FoldPairsConcat<S>(s: S, a: seq<IndexPair>, b: seq<IndexPair>, step: (S, nat, nat) -> S)
    ensures FoldPairs(s, a + b, step) == FoldPairs(FoldPairs(s, a, step), b, step)
    decreases |a|
  {
    if a != [] {
      assert (a + b)[0] == a[0];
      assert (a + b)[1..] == a[1..] + b;
      FoldPairsConcat(step(s, a[0].0, a[0].1), a[1..], b, step);
    } else {
      assert a + b == b;
    }
  }

  /**
   * A property of the state that every step keeps is kept by the whole sweep.
   */
  lemma {:induction false} FoldPairsKeeps<S>(s: S, ps: seq<IndexPair>, step: (S, nat, nat) -> S, inv: S -> bool)
    requires inv(s)
    requires forall t: S, i: nat, j: nat :: inv(t) ==> inv(step(t, i, j))
    ensures inv(FoldPairs(s, ps, step))
    decreases |ps|
  {
    if ps != [] {
      FoldPairsKeeps(step(s, ps[0].0, ps[0].1), ps[1..], step, inv);
    }
  }

  lemma FoldPairsHead<S>(s: S, i: nat, j: nat, rest: seq<IndexPair>, step: (S, nat, nat) -> S)
    ensures FoldPairs(s, [(i, j)] + rest, step) == FoldPairs(step(s, i, j), rest, step)
  {
    var ps := [(i, j)] + rest;
    assert ps != [] && ps[0] == (i, j) && ps[1..] == rest;
  }

  // ---------------------------------------------------------------------
  // The nested loops themselves.

  /**
   * for (i = 0; i < n - 1; ++i) for (j = i + 1; j < n; ++j) s = step(s, i, j);
   * The result is the step folded over Pairs(n).
   */
  method ForEachPair<S>(s0: S, n: nat, step: (S, nat, nat) -> S) returns (s: S)
    ensures s == FoldPairs(s0, Pairs(n), step)
  {
    s := s0;
    var i: int := 0;
    while i < n - 1
      invariant 0 <= i
      invariant n >= 1 ==> i <= n - 1
      invariant FoldPairs(s, PairsFrom(i, n), step) == FoldPairs(s0, Pairs(n), step)
    {
      var j := i + 1;
      FoldPairsConcat(s, Row(i, i + 1, n), PairsFrom(i + 1, n), step);
      while j < n
        invariant i + 1 <= j <= n
        invariant FoldPairs(FoldPairs(s, Row(i, j, n), step), PairsFrom(i + 1, n), step)
                  == FoldPairs(s0, Pairs(n), step)
      {
        FoldPairsHead(s, i, j, Row(i, j + 1, n), step);
        s := step(s, i, j);
        j := j + 1;
      }
      i := i + 1;
    }
  }

  /**
   * for (a = 0; a < na; ++a) for (b = 0; b < nb; ++b) s = step(s, a, b);
   * The result is the step folded over Grid(na, nb).
   */
  method ForEachCross<S>(s0: S, na: nat, nb: nat, step: (S, nat, nat) -> S) returns (s: S)
    ensures s == FoldPairs(s0, Grid(na, nb), step)
  {
    s := s0;
    var a := 0;
    while a < na
      invariant 0 <= a <= na
      invariant FoldPairs(s, GridFrom(a, na, nb), step) == FoldPairs(s0, Grid(na, nb), step)
    {
      var b := 0;
      FoldPairsConcat(s, Row(a, 0, nb), GridFrom(a + 1, na, nb), step);
      while b < nb
        invariant 0 <= b <= nb
        invariant FoldPairs(FoldPairs(s, Row(a, b, nb), step), GridFrom(a + 1, na, nb), step)
                  == FoldPairs(s0, Grid(na, nb), step)
      {
        FoldPairsHead(s, a, b, Row(a, b + 1, nb), step);
        s := step(s, a, b);
        b := b + 1;
      }
      a := a + 1;
    }
  }
}
