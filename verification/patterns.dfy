/** Projections of transformed-basis vectors that follow a character pattern.

    When every operation leaves the reference basis function unchanged, every
    entry of the transformed basis is the same combination `p`, and only the
    totally symmetric representation survives.  More generally, when
    operation k maps the reference function to χ_j(k) · p for one irreducible
    representation j (a one-dimensional j means: `p`, with its sign flipped
    exactly where χ_j is -1), the orthogonality of the character table makes
    every projection other than j vanish. */
module Patterns {
  import opened Results
  import opened Linear
  import opened CharacterTables
  import opened Expander
  import opened Projection
  import opened TableOrthogonality

  /** Entry k of `v` is χ_j(k) · p, with χ_j expanded to one character per operation. */
  ghost predicate Follows(g: PointGroup, j: nat, v: seq<Lin>, p: Lin)
    requires WellFormed(g) && j < |g.irreps|
  {
    && |v| == Order(g)
    && forall k :: 0 <= k < |v| ==> v[k] == Scale(ExpandRow(g.irreps[j].chars, g.sizes)[k] as real, p)
  }

  // ---------------------------------------------------------------------------
  // The raw sums of a patterned vector

  /** x[lo] · y[lo] + ... + x[hi - 1] · y[hi - 1], over the integers. */
  function ProdRange(x: seq<int>, y: seq<int>, lo: nat, hi: nat): int
    requires |x| == |y| && lo <= hi <= |x|
    decreases hi - lo
  {
    if lo == hi then 0 else x[lo] * y[lo] + ProdRange(x, y, lo + 1, hi)
  }

  lemma {:induction false} ProdRangeSplit(x: seq<int>, y: seq<int>, lo: nat, mid: nat, hi: nat)
    requires |x| == |y| && lo <= mid <= hi <= |x|
    ensures ProdRange(x, y, lo, hi) == ProdRange(x, y, lo, mid) + ProdRange(x, y, mid, hi)
    decreases mid - lo
  {
    if lo < mid {
      ProdRangeSplit(x, y, lo + 1, mid, hi);
    }
  }

  lemma {:induction false} ProdRangeConst(x: seq<int>, y: seq<int>, lo: nat, hi: nat, z: int)
    requires |x| == |y| && lo <= hi <= |x|
    requires forall k :: lo <= k < hi ==> x[k] * y[k] == z
    ensures ProdRange(x, y, lo, hi) == (hi - lo) * z
    decreases hi - lo
  {
    if lo < hi {
      ProdRangeConst(x, y, lo + 1, hi, z);
    }
  }

  lemma MulAssoc(a: int, b: int, c: int)
    ensures a * b * c == a * (b * c)
  {
  }

  /** Summed operation by operation, the product of two expanded rows is their
      weighted inner product class by class. */
  lemma {:induction false} ExpandedProduct(sizes: seq<nat>, a: seq<int>, b: seq<int>, c: nat)
    requires |a| == |sizes| && |b| == |sizes| && c <= |sizes|
    ensures Start(sizes, c) <= SumOf(sizes)
    ensures ProdRange(ExpandRow(a, sizes), ExpandRow(b, sizes), Start(sizes, c), SumOf(sizes))
      == InnerFrom(sizes, a, b, c)
    decreases |sizes| - c
  {
    StartBound(sizes, c);
    if c < |sizes| {
      var ea, eb := ExpandRow(a, sizes), ExpandRow(b, sizes);
      var lo, mid := Start(sizes, c), Start(sizes, c + 1);
      ExpandedProduct(sizes, a, b, c + 1);
      ExpandRowBlock(a, sizes, c);
      ExpandRowBlock(b, sizes, c);
      ProdRangeSplit(ea, eb, lo, mid, SumOf(sizes));
      ProdRangeConst(ea, eb, lo, mid, a[c] * b[c]);
      MulAssoc(sizes[c], a[c], b[c]);
    }
  }

  /** Two rescalings of `p` added together. */
  lemma AddScaled(a: int, b: int, rest: int, p: Lin)
    ensures Add(Scale(a as real, Scale(b as real, p)), Scale(rest as real, p)) == Scale((a * b + rest) as real, p)
  {
    var q := Scale((a * b + rest) as real, p);
    forall s: Sym
      ensures Coef(Add(Scale(a as real, Scale(b as real, p)), Scale(rest as real, p)), s) == Coef(q, s)
    {
      assert (a * b + rest) as real == a as real * b as real + rest as real;
    }
    Extensionality(Add(Scale(a as real, Scale(b as real, p)), Scale(rest as real, p)), q);
  }

  /** Weighting entries of the form f[k] · p by w[k] gives p rescaled by the
      sum of the products w[k] · f[k]. */
  lemma {:induction false} WeightedMultiples(w: seq<int>, f: seq<int>, v: seq<Lin>, p: Lin, k: nat)
    requires |w| == |v| && |f| == |v| && k < |v|
    requires forall m :: 0 <= m < |v| ==> v[m] == Scale(f[m] as real, p)
    ensures WeightedFrom(w, v, k) == Scale(ProdRange(w, f, k, |v|) as real, p)
    decreases |v| - k
  {
    if k + 1 == |v| {
      AddEmpty(Scale(w[k] as real, v[k]));
      AddScaled(w[k], f[k], 0, p);
    } else {
      WeightedMultiples(w, f, v, p, k + 1);
      AddScaled(w[k], f[k], ProdRange(w, f, k + 1, |v|), p);
    }
  }

  /** Raw sum i of a vector following row j is `p` scaled by the weighted inner
      product of rows i and j. */
  lemma PatternRaw(g: PointGroup, i: nat, j: nat, v: seq<Lin>, p: Lin)
    requires WellFormed(g) && i < |g.irreps| && j < |g.irreps| && Follows(g, j, v, p)
    ensures Raw(g, i, v) == Scale(Inner(g.sizes, g.irreps[i].chars, g.irreps[j].chars) as real, p)
  {
    var a, b := g.irreps[i].chars, g.irreps[j].chars;
    WeightedMultiples(ExpandRow(a, g.sizes), ExpandRow(b, g.sizes), v, p, 0);
    ExpandedProduct(g.sizes, a, b, 0);
  }

  // ---------------------------------------------------------------------------
  // Normalising a multiple of `p`

  /** The first symbol of a non-zero multiple of `p` is the first symbol of `p`. */
  lemma PivotScale(c: real, p: Lin)
    requires c != 0.0
    ensures Pivot(Scale(c, p)) == Pivot(p)
  {
    var q := Scale(c, p);
    assert forall t: Sym :: Mentions(q, t) <==> Mentions(p, t);
    IsZeroMeansNoMention(p);
    IsZeroMeansNoMention(q);
  }

  lemma ReciprocalStep(h: real, c: real)
    requires h != 0.0 && c != 0.0
    ensures 1.0 / (h * c) * h == 1.0 / c
  {
  }

  /** A positive multiple of `p`, normalised against the first symbol of `p`,
      is `p` rescaled so that that symbol has coefficient 1. */
  lemma NormaliseMultiple(h: real, p: Lin, dim: int, order: nat)
    requires h > 0.0 && dim > 0 && order > 0
    ensures Normalise(Scale(h, p), Pivot(p), dim, order)
      == if IsZero(p) then Zero else Combo(Scale(1.0 / Coef(p, Pivot(p).value), p))
  {
    var raw := Scale(h, p);
    IsZeroMeansNoMention(p);
    IsZeroMeansNoMention(raw);
    assert forall t: Sym :: Mentions(raw, t) <==> Mentions(p, t);
    if !IsZero(p) {
      var r := Pivot(p).value;
      var c := Coef(p, r);
      assert Coef(raw, r) == h * c;
      assert Mentions(raw, r);
      var a := 1.0 / (h * c);
      assert Normalise(raw, Pivot(p), dim, order) == Combo(Scale(a, raw));
      ScaleScale(a, h, p);
      ReciprocalStep(h, c);
      assert a * h == 1.0 / c;
    }
  }

  /** The leading entry of an expanded row is the character of the identity class. */
  lemma ExpandFirst(g: PointGroup, j: nat)
    requires WellFormed(g) && j < |g.irreps|
    ensures |ExpandRow(g.irreps[j].chars, g.sizes)| > 0
    ensures ExpandRow(g.irreps[j].chars, g.sizes)[0] == Dim(g.irreps[j])
  {
    ClassOfRange(g.sizes, 0, 0);
  }

  // ---------------------------------------------------------------------------
  // A transformed basis that every operation leaves unchanged

  lemma {:induction false} InnerFromOnes(sizes: seq<nat>, a: seq<int>, ones: seq<int>, c: nat)
    requires |a| == |sizes| && |ones| == |sizes| && c <= |sizes|
    requires forall d :: 0 <= d < |ones| ==> ones[d] == 1
    ensures InnerFrom(sizes, a, ones, c) == ClassSumFrom(sizes, a, c)
    decreases |sizes| - c
  {
    if c < |sizes| {
      InnerFromOnes(sizes, a, ones, c + 1);
    }
  }

  lemma {:induction false} ClassSumFromOnes(sizes: seq<nat>, ones: seq<int>, c: nat)
    requires |ones| == |sizes| && c <= |sizes|
    requires forall d :: 0 <= d < |ones| ==> ones[d] == 1
    ensures ClassSumFrom(sizes, ones, c) + SumTo(sizes, c) == SumOf(sizes)
    decreases |sizes| - c
  {
    if c < |sizes| {
      ClassSumFromOnes(sizes, ones, c + 1);
    }
  }

  /** When every entry is `p`, raw sum 0 is h · p and every other raw sum
      cancels: the rows other than the totally symmetric one sum to zero. */
  lemma InvariantRaw(g: PointGroup, i: nat, v: seq<Lin>, p: Lin)
    requires WellFormed(g) && i < |g.irreps| && |v| == Order(g)
    requires forall k :: 0 <= k < |v| ==> v[k] == p
    ensures Raw(g, i, v) == Scale(if i == 0 then Order(g) as real else 0.0, p)
    ensures 1 <= i ==> IsZero(Raw(g, i, v))
  {
    var ones := g.irreps[0].chars;
    forall k | 0 <= k < |v|
      ensures v[k] == Scale(ExpandRow(ones, g.sizes)[k] as real, p)
    {
      ScaleOne(p);
    }
    PatternRaw(g, i, 0, v, p);
    InnerFromOnes(g.sizes, g.irreps[i].chars, ones, 0);
    if i == 0 {
      ClassSumFromOnes(g.sizes, ones, 0);
    }
  }

  /** Projecting a transformed basis that every operation leaves unchanged: the
      totally symmetric result is the common entry (rescaled so that its first
      symbol has coefficient 1, and so exactly that entry when its leading
      coefficient is 1), and every other result is Zero. */
  lemma InvariantProjection(g: PointGroup, v: seq<Lin>, p: Lin)
    requires WellFormed(g) && |v| == Order(g)
    requires forall k :: 0 <= k < |v| ==> v[k] == p
    ensures ProjectAll(g, v)[0] == if IsZero(p) then Zero else Combo(Scale(1.0 / Coef(p, Pivot(p).value), p))
    ensures !IsZero(p) && Coef(p, Pivot(p).value) == 1.0 ==> ProjectAll(g, v)[0] == Combo(p)
    ensures forall i :: 1 <= i < |g.irreps| ==> ProjectAll(g, v)[i] == Zero
  {
    InvariantRaw(g, 0, v, p);
    assert ProjectAll(g, v)[0] == ProjectIrrep(g, 0, v);
    NormaliseMultiple(Order(g) as real, p, Dim(g.irreps[0]), Order(g));
    if !IsZero(p) && Coef(p, Pivot(p).value) == 1.0 {
      ScaleOne(p);
    }
    forall i | 1 <= i < |g.irreps|
      ensures ProjectAll(g, v)[i] == Zero
    {
      InvariantRaw(g, i, v, p);
      assert ProjectAll(g, v)[i] == ProjectIrrep(g, i, v);
    }
  }

  // ---------------------------------------------------------------------------
  // A transformed basis that follows the characters of one representation

  /** In an orthonormal table, raw sum i of a vector following row j is h · p
      when i = j and cancels otherwise. */
  lemma OrthogonalRaw(g: PointGroup, i: nat, j: nat, v: seq<Lin>, p: Lin)
    requires Orthonormal(g) && i < |g.irreps| && j < |g.irreps| && Follows(g, j, v, p)
    ensures Raw(g, i, v) == Scale(if i == j then Order(g) as real else 0.0, p)
  {
    PatternRaw(g, i, j, v, p);
  }

  /** Projecting a vector that follows row j of an orthonormal table: result j
      is `p` rescaled so that its first symbol has coefficient 1, and every
      other result is Zero. */
  lemma FollowsProjection(g: PointGroup, j: nat, v: seq<Lin>, p: Lin)
    requires Orthonormal(g) && j < |g.irreps| && Follows(g, j, v, p)
    ensures ProjectAll(g, v)[j] == if IsZero(p) then Zero else Combo(Scale(1.0 / Coef(p, Pivot(p).value), p))
    ensures forall i :: 0 <= i < |g.irreps| && i != j ==> ProjectAll(g, v)[i] == Zero
  {
    ExpandFirst(g, j);
    PivotScale(Dim(g.irreps[j]) as real, p);
    assert Reference(v) == Pivot(p);
    OrthogonalRaw(g, j, j, v, p);
    assert ProjectAll(g, v)[j] == ProjectIrrep(g, j, v);
    NormaliseMultiple(Order(g) as real, p, Dim(g.irreps[j]), Order(g));
    forall i | 0 <= i < |g.irreps| && i != j
      ensures ProjectAll(g, v)[i] == Zero
    {
      OrthogonalRaw(g, i, j, v, p);
      assert ProjectAll(g, v)[i] == ProjectIrrep(g, i, v);
    }
  }

  /** `calc_salcs_projection` on a registered group, for a transformed basis
      whose entries are all `p`. */
  lemma ProjectInvariant(v: seq<Lin>, group: string, p: Lin)
    requires group in Registered && |v| == Order(Lookup(group).value)
    requires forall k :: 0 <= k < |v| ==> v[k] == p
    ensures Project(v, group).Ok?
    ensures Project(v, group).value[0] == if IsZero(p) then Zero else Combo(Scale(1.0 / Coef(p, Pivot(p).value), p))
    ensures forall i :: 1 <= i < |Project(v, group).value| ==> Project(v, group).value[i] == Zero
  {
    InvariantProjection(Lookup(group).value, v, p);
  }

  /** `calc_salcs_projection` on a registered group, for a transformed basis that
      follows the characters of representation j (for a one-dimensional j: `p`
      with its sign flipped exactly at the operations where χ_j is -1). */
  lemma ProjectFollowing(v: seq<Lin>, group: string, j: nat, p: Lin)
    requires group in Registered && j < |Lookup(group).value.irreps|
    requires Follows(Lookup(group).value, j, v, p)
    ensures Project(v, group).Ok? && |Project(v, group).value| == |Lookup(group).value.irreps|
    ensures Project(v, group).value[j] == if IsZero(p) then Zero else Combo(Scale(1.0 / Coef(p, Pivot(p).value), p))
    ensures forall i :: 0 <= i < |Project(v, group).value| && i != j ==> Project(v, group).value[i] == Zero
  {
    RegisteredOrthonormal(group);
    FollowsProjection(Lookup(group).value, j, v, p);
  }

  /** In c2v every class holds one operation, so B1 expands to itself. */
  lemma C2vB1Expanded()
    ensures |C2v().irreps| == 4 && |C2v().irreps[2].chars| == |C2v().sizes|
    ensures ExpandRow(C2v().irreps[2].chars, C2v().sizes) == [1, -1, 1, -1]
  {
    C2vSizes();
    C2vChars2();
    var row := C2v().irreps[2].chars;
    var e := ExpandRow(row, C2v().sizes);
    forall k | 0 <= k < 4
      ensures e[k] == row[k]
    {
      ExpandRowAt(row, C2v().sizes, k, 0);
      assert Start(C2v().sizes, k) == k;
    }
  }

  /** [p, -p, p, -p] follows B1 of c2v. */
  lemma AlternatingFollows(p: Lin)
    ensures WellFormed(C2v()) && |C2v().irreps| == 4
    ensures Follows(C2v(), 2, [p, Scale(-1.0, p), p, Scale(-1.0, p)], p)
  {
    var v, e := [p, Scale(-1.0, p), p, Scale(-1.0, p)], [1, -1, 1, -1];
    assert forall k :: 0 <= k < |v| ==> v[k] == Scale(e[k] as real, p) by {
      ScaleOne(p);
    }
    C2vWellFormed();
    C2vB1Expanded();
  }

  /** The sign-alternating case in c2v: a transformed basis [p, -p, p, -p]
      follows B1 (characters 1, -1, 1, -1), so B1 gets `p` normalised and
      every other representation gets Zero. */
  lemma AlternatingC2v(p: Lin)
    ensures Project([p, Scale(-1.0, p), p, Scale(-1.0, p)], "c2v").Ok?
    ensures var r := Project([p, Scale(-1.0, p), p, Scale(-1.0, p)], "c2v").value;
      && |r| == 4
      && r[2] == (if IsZero(p) then Zero else Combo(Scale(1.0 / Coef(p, Pivot(p).value), p)))
      && r[0] == Zero && r[1] == Zero && r[3] == Zero
  {
    AlternatingFollows(p);
    assert Lookup("c2v") == Ok(C2v());
    ProjectFollowing([p, Scale(-1.0, p), p, Scale(-1.0, p)], "c2v", 2, p);
  }
}
