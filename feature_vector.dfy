/**
 * The sparse term-to-weight vector every estimator works on. Its Java class is
 * not part of this model; the operations the estimators call are defined here
 * by what they promise: getFeatureWeight is 0 for an absent term,
 * addFeatureWeight accumulates, scaleToUnitL1Norm divides by the sum of the
 * absolute weights (and leaves an all-zero vector alone), pruneToSize keeps
 * the k best-ranked terms, pruneToThreshold drops weights below a bound,
 * interpolate and linearCombineation mix two vectors over the union of their
 * terms. Weights are reals, so dropNaN has nothing to drop.
 *
 * Operations that need a sum, a maximum or a minimum over the terms of a
 * vector are specified by ghost functions and computed by methods that visit
 * the terms in whatever order the map hands them out.
 */
module FeatureVectors {
  import opened TermOrder

  type FeatureVector = map<string, real>

  function Abs(x: real): real { if x < 0.0 then -x else x }

  function Max(x: real, y: real): real { if x < y then y else x }

  /** getFeatureWeight */
  function Weight(v: FeatureVector, t: string): real
  {
    if t in v then v[t] else 0.0
  }

  /** addFeatureWeight */
  function AddWeight(v: FeatureVector, t: string, w: real): (r: FeatureVector)
    ensures r.Keys == v.Keys + {t}
    ensures Weight(r, t) == Weight(v, t) + w
    ensures forall u | u != t :: Weight(r, u) == Weight(v, u)
  {
    v[t := Weight(v, t) + w]
  }

  /** updateFeatureWeight */
  function UpdateWeight(v: FeatureVector, t: string, w: real): (r: FeatureVector)
    ensures r.Keys == v.Keys + {t}
    ensures Weight(r, t) == w
    ensures forall u | u != t :: Weight(r, u) == Weight(v, u)
  {
    v[t := w]
  }

  ghost predicate NonNegative(v: FeatureVector)
  {
    forall t | t in v :: v[t] >= 0.0
  }

  /** FeatureVector.fromTerms: one unit of weight per occurrence of a token. */
  function FromTerms(terms: seq<string>): FeatureVector
  {
    if |terms| == 0 then map[]
    else AddWeight(FromTerms(terms[..|terms| - 1]), terms[|terms| - 1], 1.0)
  }

  lemma {:induction false} FromTermsCounts(terms: seq<string>)
    ensures FromTerms(terms).Keys == set t | t in terms
    ensures forall t :: Weight(FromTerms(terms), t) == multiset(terms)[t] as real
  {
    if |terms| > 0 {
      var init, last := terms[..|terms| - 1], terms[|terms| - 1];
      assert terms == init + [last];
      FromTermsCounts(init);
    }
  }

  // ---------------------------------------------------------------------------
  // Sums and maxima over a set of terms

  ghost function Pick(s: set<string>): (t: string)
    requires s != {}
    ensures t in s
  {
    var t :| t in s; t
  }

  ghost function SumOver(keys: set<string>, g: string -> real): real
    decreases |keys|
  {
    if keys == {} then 0.0 else g(Pick(keys)) + SumOver(keys - {Pick(keys)}, g)
  }

  /** The sum does not depend on the order in which terms are taken out. */
  lemma {:induction false} SumOverRemove(keys: set<string>, g: string -> real, x: string)
    requires x in keys
    ensures SumOver(keys, g) == g(x) + SumOver(keys - {x}, g)
    decreases |keys|
  {
    var p := Pick(keys);
    if p != x {
      SumOverRemove(keys - {p}, g, x);
      SumOverRemove(keys - {x}, g, p);
      assert keys - {p} - {x} == keys - {x} - {p};
    }
  }

  lemma {:induction false} SumOverCongruent(keys: set<string>, g: string -> real, h: string -> real)
    requires forall t | t in keys :: g(t) == h(t)
    ensures SumOver(keys, g) == SumOver(keys, h)
    decreases |keys|
  {
    if keys != {} {
      SumOverCongruent(keys - {Pick(keys)}, g, h);
    }
  }

  lemma DivDistributes(a: real, b: real, c: real)
    requires c > 0.0
    ensures a / c + b / c == (a + b) / c
  {
  }

  lemma {:induction false} SumOverDivide(keys: set<string>, g: string -> real, h: string -> real, c: real)
    requires c > 0.0
    requires forall t | t in keys :: h(t) == g(t) / c
    ensures SumOver(keys, h) == SumOver(keys, g) / c
    decreases |keys|
  {
    if keys != {} {
      var p := Pick(keys);
      SumOverDivide(keys - {p}, g, h, c);
      DivDistributes(g(p), SumOver(keys - {p}, g), c);
    }
  }

  /** A sum of two summands is the sum of their sums. */
  lemma {:induction false} SumOverAdd(keys: set<string>, f: string -> real, g: string -> real, h: string -> real)
    requires forall t | t in keys :: h(t) == f(t) + g(t)
    ensures SumOver(keys, h) == SumOver(keys, f) + SumOver(keys, g)
    decreases |keys|
  {
    if keys != {} {
      SumOverAdd(keys - {Pick(keys)}, f, g, h);
    }
  }

  /** A constant factor comes out of the sum. */
  lemma {:induction false} SumOverScale(keys: set<string>, g: string -> real, h: string -> real, c: real)
    requires forall t | t in keys :: h(t) == c * g(t)
    ensures SumOver(keys, h) == c * SumOver(keys, g)
    decreases |keys|
  {
    if keys != {} {
      var p := Pick(keys);
      SumOverScale(keys - {p}, g, h, c);
      assert c * g(p) + c * SumOver(keys - {p}, g) == c * (g(p) + SumOver(keys - {p}, g));
    }
  }

  /** Terms outside sub that add 0 do not change the sum. */
  lemma {:induction false} SumOverZeroOutside(keys: set<string>, sub: set<string>, g: string -> real)
    requires sub <= keys
    requires forall t | t in keys && t !in sub :: g(t) == 0.0
    ensures SumOver(keys, g) == SumOver(sub, g)
    decreases |keys|
  {
    if keys != {} {
      var p := Pick(keys);
      if p in sub {
        SumOverZeroOutside(keys - {p}, sub - {p}, g);
        SumOverRemove(sub, g, p);
      } else {
        SumOverZeroOutside(keys - {p}, sub, g);
      }
    }
  }

  lemma {:induction false} SumOverNonNegative(keys: set<string>, g: string -> real)
    requires forall t | t in keys :: g(t) >= 0.0
    ensures SumOver(keys, g) >= 0.0
    decreases |keys|
  {
    if keys != {} {
      SumOverNonNegative(keys - {Pick(keys)}, g);
    }
  }

  lemma SumOverPositive(keys: set<string>, g: string -> real, x: string)
    requires forall t | t in keys :: g(t) >= 0.0
    requires x in keys && g(x) > 0.0
    ensures SumOver(keys, g) > 0.0
  {
    SumOverRemove(keys, g, x);
    SumOverNonNegative(keys - {x}, g);
  }

  ghost function MaxOver(keys: set<string>, g: string -> real): real
    decreases |keys|
  {
    if keys == {} then 0.0 else Max(g(Pick(keys)), MaxOver(keys - {Pick(keys)}, g))
  }

  lemma {:induction false} MaxOverRemove(keys: set<string>, g: string -> real, x: string)
    requires x in keys
    ensures MaxOver(keys, g) == Max(g(x), MaxOver(keys - {x}, g))
    decreases |keys|
  {
    var p := Pick(keys);
    if p != x {
      MaxOverRemove(keys - {p}, g, x);
      MaxOverRemove(keys - {x}, g, p);
      assert keys - {p} - {x} == keys - {x} - {p};
    }
  }

  // ---------------------------------------------------------------------------
  // Norms

  function AbsWeights(v: FeatureVector): string -> real
  {
    t => Abs(Weight(v, t))
  }

  /** computeL1Norm: the sum of the absolute weights. */
  ghost function L1Norm(v: FeatureVector): real
  {
    SumOver(v.Keys, AbsWeights(v))
  }

  /** computeMaxNorm: the largest absolute weight (0 for the empty vector). */
  ghost function MaxNorm(v: FeatureVector): real
  {
    MaxOver(v.Keys, AbsWeights(v))
  }

  lemma L1NormNonNegative(v: FeatureVector)
    ensures L1Norm(v) >= 0.0
  {
    SumOverNonNegative(v.Keys, AbsWeights(v));
  }

  lemma L1NormPositive(v: FeatureVector, t: string)
    requires t in v && v[t] != 0.0
    ensures L1Norm(v) > 0.0
  {
    SumOverPositive(v.Keys, AbsWeights(v), t);
  }

  lemma MaxNormBound(v: FeatureVector, t: string)
    requires t in v
    ensures MaxNorm(v) >= Abs(v[t])
  {
    MaxOverRemove(v.Keys, AbsWeights(v), t);
  }

  /** Adding one unit to a non-negative weight adds one to the L1 norm. */
  lemma L1NormAddOne(v: FeatureVector, x: string)
    requires Weight(v, x) >= 0.0
    ensures L1Norm(AddWeight(v, x, 1.0)) == L1Norm(v) + 1.0
  {
    var r := AddWeight(v, x, 1.0);
    SumOverRemove(r.Keys, AbsWeights(r), x);
    assert r.Keys - {x} == v.Keys - {x};
    SumOverCongruent(v.Keys - {x}, AbsWeights(r), AbsWeights(v));
    if x in v {
      SumOverRemove(v.Keys, AbsWeights(v), x);
    } else {
      assert v.Keys - {x} == v.Keys;
    }
  }

  lemma {:induction false} FromTermsNorm(terms: seq<string>)
    ensures NonNegative(FromTerms(terms))
    ensures L1Norm(FromTerms(terms)) == |terms| as real
  {
    if |terms| > 0 {
      var init := terms[..|terms| - 1];
      FromTermsNorm(init);
      L1NormAddOne(FromTerms(init), terms[|terms| - 1]);
    } else {
      assert FromTerms(terms) == map[];
    }
  }

  /** computeL1Norm, visiting the terms in map order. */
  method ComputeL1Norm(v: FeatureVector) returns (norm: real)
    ensures norm == L1Norm(v)
  {
    norm := 0.0;
    var rest := v.Keys;
    while rest != {}
      invariant rest <= v.Keys
      invariant norm + SumOver(rest, AbsWeights(v)) == L1Norm(v)
      decreases rest
    {
      var t :| t in rest;
      SumOverRemove(rest, AbsWeights(v), t);
      norm := norm + Abs(v[t]);
      rest := rest - {t};
    }
  }

  /** computeMaxNorm, visiting the terms in map order. */
  method ComputeMaxNorm(v: FeatureVector) returns (norm: real)
    ensures norm == MaxNorm(v)
  {
    norm := 0.0;
    var rest := v.Keys;
    while rest != {}
      invariant rest <= v.Keys
      invariant Max(norm, MaxOver(rest, AbsWeights(v))) == MaxNorm(v)
      invariant norm >= 0.0
      decreases rest
    {
      var t :| t in rest;
      MaxOverRemove(rest, AbsWeights(v), t);
      norm := Max(norm, Abs(v[t]));
      rest := rest - {t};
    }
    MaxOverNonNegative(v.Keys, AbsWeights(v));
  }

  lemma {:induction false} MaxOverNonNegative(keys: set<string>, g: string -> real)
    ensures MaxOver(keys, g) >= 0.0
    decreases |keys|
  {
    if keys != {} {
      MaxOverNonNegative(keys - {Pick(keys)}, g);
    }
  }

  // ---------------------------------------------------------------------------
  // scaleToUnitL1Norm

  ghost function Scaled(v: FeatureVector): FeatureVector
  {
    var n := L1Norm(v);
    if n == 0.0 then v else map t | t in v :: v[t] / n
  }

  /** Dividing every weight by a positive n divides the L1 norm by n. */
  lemma L1NormDivided(v: FeatureVector, n: real)
    requires n > 0.0
    ensures L1Norm(map t | t in v :: v[t] / n) == L1Norm(v) / n
  {
    var s := map t | t in v :: v[t] / n;
    assert s.Keys == v.Keys;
    forall t | t in v.Keys
      ensures AbsWeights(s)(t) == AbsWeights(v)(t) / n
    {
      assert Abs(v[t] / n) == Abs(v[t]) / n;
    }
    SumOverDivide(v.Keys, AbsWeights(v), AbsWeights(s), n);
  }

  /** Scaling keeps every positive weight positive. */
  lemma ScaledPositive(v: FeatureVector)
    requires forall t | t in v :: v[t] > 0.0
    ensures forall t | t in Scaled(v) :: Scaled(v)[t] > 0.0
  {
    ScaledProperties(v);
    if |v| > 0 {
      L1NormPositive(v, Pick(v.Keys));
      forall t | t in Scaled(v) ensures Scaled(v)[t] > 0.0 {
        PositiveQuotient(v[t], L1Norm(v));
      }
    }
  }

  lemma PositiveQuotient(a: real, b: real)
    requires a > 0.0 && b > 0.0
    ensures a / b > 0.0
  {
  }

  /** A scaled vector keeps its terms and signs; its L1 norm is 1 unless it was all zeros. */
  lemma ScaledProperties(v: FeatureVector)
    ensures Scaled(v).Keys == v.Keys
    ensures NonNegative(v) ==> NonNegative(Scaled(v))
    ensures L1Norm(v) == 0.0 ==> Scaled(v) == v
    ensures L1Norm(v) != 0.0 ==> L1Norm(Scaled(v)) == 1.0
    ensures L1Norm(v) != 0.0 ==> forall t | t in v :: Scaled(v)[t] == v[t] / L1Norm(v)
  {
    var n := L1Norm(v);
    L1NormNonNegative(v);
    if n != 0.0 {
      L1NormDivided(v, n);
      assert Scaled(v) == map t | t in v :: v[t] / n;
      assert n / n == 1.0;
    }
  }

  method ScaleToUnitL1Norm(v: FeatureVector) returns (r: FeatureVector)
    ensures r == Scaled(v)
  {
    var n := ComputeL1Norm(v);
    if n == 0.0 {
      r := v;
    } else {
      r := map t | t in v :: v[t] / n;
    }
  }

  ghost predicate IsDistribution(v: FeatureVector)
  {
    NonNegative(v) && (L1Norm(v) == 1.0 || L1Norm(v) == 0.0)
  }

  lemma ScaledIsDistribution(v: FeatureVector)
    requires NonNegative(v)
    ensures IsDistribution(Scaled(v))
  {
    ScaledProperties(v);
  }

  // ---------------------------------------------------------------------------
  // pruneToSize

  /** m is the term that ranks last in v. */
  ghost predicate Lowest(v: FeatureVector, m: string)
  {
    m in v && forall u | u in v && u != m :: Outranks(u, v[u], m, v[m])
  }

  lemma {:induction false} LowestExists(v: FeatureVector)
    requires |v| > 0
    ensures exists m :: Lowest(v, m)
    decreases |v|
  {
    var x := Pick(v.Keys);
    var w := v - {x};
    if |w| == 0 {
      assert w.Keys == v.Keys - {x};
      assert v.Keys == {x};
      assert Lowest(v, x);
    } else {
      LowestExists(w);
      var y :| Lowest(w, y);
      if Outranks(y, v[y], x, v[x]) {
        forall u | u in v && u != x
          ensures Outranks(u, v[u], x, v[x])
        {
          if u != y {
            assert u in w && w[u] == v[u];
            OutranksTransitive(u, v[u], y, v[y], x, v[x]);
          }
        }
        assert Lowest(v, x);
      } else {
        assert y in w && y != x;
        OutranksTotal(y, v[y], x, v[x]);
        forall u | u in v && u != y
          ensures Outranks(u, v[u], y, v[y])
        {
          if u != x {
            assert u in w && w[u] == v[u];
          }
        }
        assert Lowest(v, y);
      }
    }
  }

  lemma LowestUnique(v: FeatureVector, a: string, b: string)
    requires Lowest(v, a) && Lowest(v, b)
    ensures a == b
  {
    if a != b {
      OutranksAsymmetric(a, v[a], b, v[b]);
    }
  }

  ghost function LowestOf(v: FeatureVector): (m: string)
    requires |v| > 0
    ensures Lowest(v, m)
  {
    LowestExists(v);
    var m :| Lowest(v, m); m
  }

  /** pruneToSize(k): repeatedly drop the term that ranks last until at most k remain. */
  ghost function PrunedToSize(v: FeatureVector, k: int): FeatureVector
    decreases |v|
  {
    if |v| <= k || |v| == 0 then v
    else
      var m := LowestOf(v);
      assert |v - {m}| == |v| - 1 by { assert (v - {m}).Keys == v.Keys - {m}; }
      PrunedToSize(v - {m}, k)
  }

  ghost predicate SubVector(r: FeatureVector, v: FeatureVector)
  {
    r.Keys <= v.Keys && forall t | t in r :: r[t] == v[t]
  }

  /**
   * pruneToSize keeps exactly min(k, |v|) entries (none for k <= 0), with their
   * weights, and every kept term outranks every dropped one.
   */
  lemma {:induction false} PrunedToSizeProperties(v: FeatureVector, k: int)
    ensures SubVector(PrunedToSize(v, k), v)
    ensures |PrunedToSize(v, k)| == if k <= 0 then 0 else if k < |v| then k else |v|
    ensures forall t, u | t in PrunedToSize(v, k) && u in v && u !in PrunedToSize(v, k) ::
              Outranks(t, v[t], u, v[u])
    decreases |v|
  {
    if !(|v| <= k || |v| == 0) {
      var m := LowestOf(v);
      var w := v - {m};
      assert w.Keys == v.Keys - {m};
      PrunedToSizeProperties(w, k);
      var r := PrunedToSize(v, k);
      assert r == PrunedToSize(w, k);
      forall t, u | t in r && u in v && u !in r
        ensures Outranks(t, v[t], u, v[u])
      {
        assert t in w && w[t] == v[t];
        if u != m {
          assert u in w && w[u] == v[u];
        }
      }
    }
  }

  /** Finds the term that ranks last, visiting the terms in map order. */
  method FindLowest(v: FeatureVector) returns (m: string)
    requires |v| > 0
    ensures Lowest(v, m)
  {
    assert v.Keys != {} by { var t := Pick(v.Keys); }
    var rest := v.Keys;
    m :| m in rest;
    rest := rest - {m};
    while rest != {}
      invariant rest <= v.Keys && m in v && m !in rest
      invariant forall u | u in v && u !in rest && u != m :: Outranks(u, v[u], m, v[m])
      decreases rest
    {
      var x :| x in rest;
      rest := rest - {x};
      if Outranks(m, v[m], x, v[x]) {
        forall u | u in v && u !in rest && u != x
          ensures Outranks(u, v[u], x, v[x])
        {
          if u != m {
            OutranksTransitive(u, v[u], m, v[m], x, v[x]);
          }
        }
        m := x;
      } else {
        OutranksTotal(x, v[x], m, v[m]);
      }
    }
  }

  method PruneToSize(v: FeatureVector, k: int) returns (r: FeatureVector)
    ensures r == PrunedToSize(v, k)
  {
    r := v;
    while !(|r| <= k || |r| == 0)
      invariant PrunedToSize(r, k) == PrunedToSize(v, k)
      decreases |r|
    {
      var m := FindLowest(r);
      LowestUnique(r, m, LowestOf(r));
      assert (r - {m}).Keys == r.Keys - {m};
      r := r - {m};
    }
  }

  // ---------------------------------------------------------------------------
  // Threshold, NaN, combinations

  /** pruneToThreshold(eps): drop every entry whose weight is below eps. */
  function PruneToThreshold(v: FeatureVector, eps: real): (r: FeatureVector)
    ensures SubVector(r, v)
    ensures forall t | t in v :: t in r <==> v[t] >= eps
  {
    map t | t in v && v[t] >= eps :: v[t]
  }

  /** dropNaN: weights are reals here, so there is never a NaN or infinity to drop. */
  function DropNaN(v: FeatureVector): FeatureVector
  {
    v
  }

  /** linearCombineation(x, y, wx, wy): wx*x + wy*y over the union of the terms. */
  function LinearCombine(x: FeatureVector, y: FeatureVector, wx: real, wy: real): (r: FeatureVector)
    ensures r.Keys == x.Keys + y.Keys
    ensures forall t :: Weight(r, t) == wx * Weight(x, t) + wy * Weight(y, t)
  {
    map t | t in x.Keys + y.Keys :: wx * Weight(x, t) + wy * Weight(y, t)
  }

  /** interpolate(x, y, w): w*x + (1 - w)*y over the union of the terms. */
  function Interpolate(x: FeatureVector, y: FeatureVector, w: real): (r: FeatureVector)
    ensures r.Keys == x.Keys + y.Keys
    ensures forall t :: Weight(r, t) == w * Weight(x, t) + (1.0 - w) * Weight(y, t)
  {
    LinearCombine(x, y, w, 1.0 - w)
  }

  /** With weight 1 the interpolation is the first vector, with weight 0 the second. */
  lemma InterpolateEndpoints(x: FeatureVector, y: FeatureVector)
    ensures forall t :: Weight(Interpolate(x, y, 1.0), t) == Weight(x, t)
    ensures forall t :: Weight(Interpolate(x, y, 0.0), t) == Weight(y, t)
  {
  }
}
