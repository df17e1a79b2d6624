/** Payment intervals of a retrieval deal (retrieval/deal/types.go).

The provider pauses, and the client pays, whenever the transfer reaches a threshold.  The
thresholds grow: the k-th interval is `paymentInterval + k * increase` bytes long.  Client and
provider never exchange thresholds; each recomputes them with the two loops modelled here, so
the whole protocol rests on these loops walking the same sequence.
 */
module Intervals {

  datatype Params = Params(pricePerByte: nat, paymentInterval: nat, increase: nat, unsealPrice: nat) {
    /** The thresholds are unbounded; see `AdvancesIff`. */
    predicate Advances() {
      paymentInterval > 0 || increase > 0
    }
  }

  /** The k-th payment threshold, in bytes. */
  function T(p: Params, k: nat): nat {
    if k == 0 then 0 else T(p, k - 1) + p.paymentInterval + (k - 1) * p.increase
  }

  /** The inductive step of `ClosedForm`, on plain integers. */
  lemma ClosedFormStep(m: int, a: int, b: int, q: int)
    requires q == m * (m - 1)
    ensures 2 * m * a + q * b + 2 * (a + m * b) == 2 * (m + 1) * a + (m + 1) * m * b
  {
    assert (m + 1) * m == q + 2 * m;
    assert (q + 2 * m) * b == q * b + 2 * m * b;
    assert 2 * (m * b) == 2 * m * b;
    assert 2 * (m + 1) * a == 2 * m * a + 2 * a;
  }

  lemma {:induction false} ClosedForm(p: Params, k: nat)
    ensures 2 * T(p, k) == 2 * k * p.paymentInterval + k * (k - 1) * p.increase
  {
    if k > 0 {
      var m := k - 1;
      ClosedForm(p, m);
      ClosedFormStep(m, p.paymentInterval, p.increase, m * (m - 1));
    }
  }

  lemma {:induction false} TMonotone(p: Params, j: nat, k: nat)
    requires j <= k
    ensures T(p, j) <= T(p, k)
    decreases k
  {
    if j < k {
      TMonotone(p, j, k - 1);
    }
  }

  /** From the first threshold on, the thresholds strictly increase (threshold 0 and 1 coincide
      when the first interval is empty). */
  lemma {:induction false} TStrict(p: Params, j: nat, k: nat)
    requires p.Advances() && 1 <= j < k
    ensures T(p, j) < T(p, k)
  {
    TMonotone(p, j, k - 1);
    if p.paymentInterval == 0 {
      assert (k - 1) * p.increase > 0;
    }
  }

  lemma {:induction false} TGrows(p: Params, k: nat)
    requires p.Advances()
    ensures T(p, k + 1) >= k
  {
    if k > 0 {
      TGrows(p, k - 1);
      TStrict(p, k, k + 1);
    }
  }

  lemma {:induction false} TStuck(p: Params, k: nat)
    requires !p.Advances()
    ensures T(p, k) == 0
  {
    if k > 0 {
      TStuck(p, k - 1);
    }
  }

  ghost predicate Reachable(p: Params, c: nat) {
    exists k: nat :: T(p, k) > c
  }

  /** Some threshold lies above every byte count exactly when one of the two parameters is
      positive; the search loops below end exactly then. */
  lemma AdvancesIff(p: Params)
    ensures p.Advances() <==> forall c: nat :: Reachable(p, c)
  {
    if p.Advances() {
      forall c: nat ensures Reachable(p, c) {
        TGrows(p, c + 1);
        assert T(p, c + 2) > c;
      }
    } else {
      forall k: nat ensures T(p, k) <= 0 { TStuck(p, k); }
      assert !Reachable(p, 0);
    }
  }

  ghost predicate IsThreshold(p: Params, t: nat) {
    exists k: nat :: t == T(p, k)
  }

  ghost predicate IsLeastAbove(p: Params, c: nat, t: nat) {
    && IsThreshold(p, t)
    && c < t
    && forall k: nat :: c < T(p, k) ==> t <= T(p, k)
  }

  ghost predicate IsGreatestBelow(p: Params, c: nat, t: nat) {
    && IsThreshold(p, t)
    && t < c
    && forall k: nat :: T(p, k) < c ==> T(p, k) <= t
  }

  lemma LeastAboveAt(p: Params, c: nat, k: nat)
    requires k > 0 && T(p, k - 1) <= c < T(p, k)
    ensures IsLeastAbove(p, c, T(p, k))
  {
    forall j: nat | c < T(p, j) ensures T(p, k) <= T(p, j) {
      if j < k {
        TMonotone(p, j, k - 1);
        assert false;
      }
      TMonotone(p, k, j);
    }
  }

  lemma GreatestBelowAt(p: Params, c: nat, k: nat)
    requires T(p, k) < c <= T(p, k + 1)
    ensures IsGreatestBelow(p, c, T(p, k))
  {
    forall j: nat | T(p, j) < c ensures T(p, j) <= T(p, k) {
      if j > k {
        TMonotone(p, k + 1, j);
        assert false;
      }
      TMonotone(p, j, k);
    }
  }

  /** The index of the least threshold above `c`, searched from index `k`. */
  function IndexAbove(p: Params, c: nat, k: nat): (i: nat)
    requires p.Advances()
    requires k > 0 ==> T(p, k - 1) <= c
    ensures i > 0 && T(p, i - 1) <= c < T(p, i)
    decreases if c < T(p, k) then 0 else c + 1 - T(p, k), if k == 0 then 1 else 0
  {
    if c < T(p, k) then k
    else
      assert k > 0 ==> T(p, k) < T(p, k + 1) by { if k > 0 { TStrict(p, k, k + 1); } }
      IndexAbove(p, c, k + 1)
  }

  function Next(p: Params, c: nat): nat
    requires p.Advances()
  {
    T(p, IndexAbove(p, c, 0))
  }

  function LowerBound(p: Params, c: nat): nat
    requires p.Advances() || c == 0
  {
    if c == 0 then 0 else T(p, IndexAbove(p, c - 1, 0) - 1)
  }

  lemma NextIsLeast(p: Params, c: nat)
    requires p.Advances()
    ensures IsLeastAbove(p, c, Next(p, c))
  {
    LeastAboveAt(p, c, IndexAbove(p, c, 0));
  }

  lemma LowerBoundIsGreatest(p: Params, c: nat)
    requires p.Advances() && c > 0
    ensures IsGreatestBelow(p, c, LowerBound(p, c))
  {
    GreatestBelowAt(p, c, IndexAbove(p, c - 1, 0) - 1);
  }

  /** `Params.NextInterval`: the loop of the source, with a termination measure that survives an
      empty first interval. */
  method NextInterval(p: Params, currentInterval: nat) returns (nextInterval: nat)
    requires p.Advances()
    ensures nextInterval == Next(p, currentInterval)
    ensures IsLeastAbove(p, currentInterval, nextInterval)
  {
    var intervalSize := p.paymentInterval;
    nextInterval := 0;
    ghost var k := 0;
    while nextInterval <= currentInterval
      invariant nextInterval == T(p, k)
      invariant intervalSize == p.paymentInterval + k * p.increase
      invariant k > 0 ==> T(p, k - 1) <= currentInterval
      decreases currentInterval - nextInterval, if k == 0 then 1 else 0
    {
      if k > 0 { TStrict(p, k, k + 1); }
      nextInterval := nextInterval + intervalSize;
      intervalSize := intervalSize + p.increase;
      k := k + 1;
    }
    LeastAboveAt(p, currentInterval, k);
    NextIsLeast(p, currentInterval);
  }

  /** `Params.IntervalLowerBound`. */
  method IntervalLowerBound(p: Params, currentInterval: nat) returns (lowerBound: nat)
    requires p.Advances() || currentInterval == 0
    ensures lowerBound == LowerBound(p, currentInterval)
    ensures if currentInterval == 0 then lowerBound == 0 else IsGreatestBelow(p, currentInterval, lowerBound)
  {
    var intervalSize := p.paymentInterval;
    lowerBound := 0;
    var target := 0;
    ghost var k := 0;
    while target < currentInterval
      invariant target == T(p, k)
      invariant intervalSize == p.paymentInterval + k * p.increase
      invariant if k == 0 then lowerBound == 0 else lowerBound == T(p, k - 1) < currentInterval
      decreases currentInterval - target, if k == 0 then 1 else 0
    {
      if k > 0 { TStrict(p, k, k + 1); }
      lowerBound := target;
      target := target + intervalSize;
      intervalSize := intervalSize + p.increase;
      k := k + 1;
    }
    if currentInterval > 0 {
      GreatestBelowAt(p, currentInterval, k - 1);
      LowerBoundIsGreatest(p, currentInterval);
    }
  }

  lemma {:induction false} NextOnThreshold(p: Params, k: nat)
    requires p.Advances() && k >= 1
    ensures Next(p, T(p, k)) == T(p, k + 1)
  {
    TStrict(p, k, k + 1);
    LeastAboveAt(p, T(p, k), k + 1);
    NextIsLeast(p, T(p, k));
  }

  lemma {:induction false} LowerBoundOnThreshold(p: Params, k: nat)
    requires p.Advances() && k >= 1
    ensures LowerBound(p, T(p, k)) == T(p, k - 1)
  {
    TMonotone(p, k - 1, k);
    if T(p, k) > 0 {
      LowerBoundIsGreatest(p, T(p, k));
      if k > 1 {
        TStrict(p, k - 1, k);
      }
      GreatestBelowAt(p, T(p, k), k - 1);
    }
  }

  /** On the threshold sequence the two searches are the successor and the predecessor. */
  lemma StepsOnThresholds(p: Params, k: nat)
    requires p.Advances() && k >= 1
    ensures Next(p, T(p, k)) == T(p, k + 1)
    ensures LowerBound(p, T(p, k)) == T(p, k - 1)
  {
    NextOnThreshold(p, k);
    LowerBoundOnThreshold(p, k);
  }

  lemma {:induction false} LowerUndoesNext(p: Params, k: nat)
    requires p.Advances()
    ensures LowerBound(p, Next(p, T(p, k))) == T(p, k)
  {
    var c := T(p, k);
    var up := Next(p, c);
    NextIsLeast(p, c);
    LowerBoundIsGreatest(p, up);
    assert IsGreatestBelow(p, up, c) by {
      assert IsThreshold(p, c);
      forall j: nat | T(p, j) < up ensures T(p, j) <= c {}
    }
  }

  lemma {:induction false} NextUndoesLower(p: Params, k: nat)
    requires p.Advances() && T(p, k) > 0
    ensures Next(p, LowerBound(p, T(p, k))) == T(p, k)
  {
    var c := T(p, k);
    var down := LowerBound(p, c);
    LowerBoundIsGreatest(p, c);
    NextIsLeast(p, down);
    assert IsLeastAbove(p, down, c) by {
      assert IsThreshold(p, c);
      forall j: nat | down < T(p, j) ensures c <= T(p, j) {}
    }
  }

  /** The two searches undo each other on every threshold. */
  lemma SearchesUndo(p: Params, k: nat)
    requires p.Advances()
    ensures LowerBound(p, Next(p, T(p, k))) == T(p, k)
    ensures T(p, k) > 0 ==> Next(p, LowerBound(p, T(p, k))) == T(p, k)
  {
    LowerUndoesNext(p, k);
    if T(p, k) > 0 {
      NextUndoesLower(p, k);
    }
  }
}
