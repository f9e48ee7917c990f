/** The projection engine: the reduction formula applied to a transformed-basis
    vector, one irreducible representation at a time.

    Entry k of the transformed-basis vector is what the reference basis symbol
    becomes under operation k (operations in the canonical order of the
    group).  For irreducible representation i the engine forms
    Σ_k χ_i(k) · v[k], reports a sum that cancels as Zero, and otherwise
    rescales it so that the reference symbol — the symbol the identity
    operation yields, entry 0 of the vector — has coefficient 1. */
module Projection {
  import opened Results
  import opened Linear
  import opened CharacterTables
  import opened Expander

  /** The projection onto one irreducible representation: the literal zero, or a
      non-zero combination. */
  datatype Salc = Zero | Combo(lin: Lin)

  /** Σ_{j >= k} chars[j] · v[j]. */
  function WeightedFrom(chars: seq<int>, v: seq<Lin>, k: nat): (r: Lin)
    requires |chars| == |v| && k <= |v|
    ensures |r| == WidthFrom(v, k)
    decreases |v| - k
  {
    if k == |v| then [] else Add(Scale(chars[k] as real, v[k]), WeightedFrom(chars, v, k + 1))
  }

  /** Σ_k chars[k] · v[k]. */
  function Weighted(chars: seq<int>, v: seq<Lin>): (r: Lin)
    requires |chars| == |v|
    ensures |r| == Width(v)
  {
    WeightedFrom(chars, v, 0)
  }

  /** The raw reduction-formula sum for irreducible representation `i`: its
      per-operation characters weighted against the transformed basis.  The
      coefficient of each symbol `s` is the reduction formula evaluated class
      by class: Σ_c χ_i(c) · (the total coefficient of `s` over the entries of
      class c). */
  function Raw(g: PointGroup, i: nat, v: seq<Lin>): (r: Lin)
    requires WellFormed(g) && i < |g.irreps| && |v| == Order(g)
    ensures |r| == Width(v)
    ensures forall s: Sym ::
      Coef(r, s) == DotRange(g.irreps[i].chars, ClassTotals(g.sizes, Column(v, s)), 0, |g.sizes|)
  {
    WeightedByClass(g.irreps[i].chars, g.sizes, v);
    Weighted(ExpandRow(g.irreps[i].chars, g.sizes), v)
  }

  /** The reference symbol: the first symbol of the identity image v[0]. */
  function Reference(v: seq<Lin>): Option<Sym>
    requires |v| > 0
  {
    Pivot(v[0])
  }

  /** The scaling applied to a raw sum: a cancelled sum becomes Zero; otherwise
      the sum is divided by the coefficient of the reference symbol, or, when
      the sum does not mention that symbol, multiplied by dim / order as in the
      textbook projection operator. */
  function Normalise(raw: Lin, reference: Option<Sym>, dim: int, order: nat): (r: Salc)
    requires dim > 0 && order > 0
    ensures r.Zero? <==> IsZero(raw)
    ensures r.Combo? ==> exists c: real :: c != 0.0 && r.lin == Scale(c, raw)
    ensures r.Combo? ==> forall s: Sym :: Mentions(r.lin, s) <==> Mentions(raw, s)
    ensures r.Combo? && reference.Some? && Mentions(raw, reference.value) ==>
      Coef(r.lin, reference.value) == 1.0
  {
    if IsZero(raw) then Zero
    else if reference.Some? && Mentions(raw, reference.value) then
      Combo(Scale(1.0 / Coef(raw, reference.value), raw))
    else
      Combo(Scale(dim as real / order as real, raw))
  }

  /** The projection onto irreducible representation `i`. */
  function ProjectIrrep(g: PointGroup, i: nat, v: seq<Lin>): Salc
    requires WellFormed(g) && i < |g.irreps| && |v| == Order(g)
  {
    Normalise(Raw(g, i, v), Reference(v), Dim(g.irreps[i]), Order(g))
  }

  /** One projection per irreducible representation, in table order. */
  function ProjectAll(g: PointGroup, v: seq<Lin>): (r: seq<Salc>)
    requires WellFormed(g) && |v| == Order(g)
    ensures |r| == |g.irreps|
    ensures forall i :: 0 <= i < |r| ==>
      && (r[i].Zero? <==> IsZero(Raw(g, i, v)))
      && (r[i].Combo? ==> exists c: real :: c != 0.0 && r[i].lin == Scale(c, Raw(g, i, v)))
      && (r[i].Combo? ==> forall s: Sym :: Mentions(r[i].lin, s) <==> Mentions(Raw(g, i, v), s))
      && (r[i].Combo? && Reference(v).Some? && Mentions(Raw(g, i, v), Reference(v).value) ==>
            Coef(r[i].lin, Reference(v).value) == 1.0)
  {
    seq(|g.irreps|, i requires 0 <= i < |g.irreps| => ProjectIrrep(g, i, v))
  }

  /** `calc_salcs_projection`: one result per irreducible representation of the
      group registered under `group`, in table order. */
  function Project(v: seq<Lin>, group: string): (r: Result<seq<Salc>>)
    ensures group !in Registered ==> r == Err(UnknownGroup(group))
    ensures group in Registered && |v| != Order(Lookup(group).value) ==>
      r == Err(DimensionMismatch(Order(Lookup(group).value), |v|))
    ensures group in Registered && |v| == Order(Lookup(group).value) ==>
      r == Ok(ProjectAll(Lookup(group).value, v))
  {
    var g :- Lookup(group);
    if |v| != Order(g) then Err(DimensionMismatch(Order(g), |v|))
    else Ok(ProjectAll(g, v))
  }

  /** The result of Project is determined irreducible representation by
      irreducible representation: when the raw sums are `raws` and they
      normalise to `salcs`, Project returns `salcs`. */
  lemma ProjectFrom(v: seq<Lin>, group: string, g: PointGroup, raws: seq<Lin>, salcs: seq<Salc>)
    requires Lookup(group) == Ok(g) && WellFormed(g) && |v| == Order(g)
    requires |raws| == |g.irreps| && |salcs| == |g.irreps|
    requires forall i :: 0 <= i < |raws| ==> Raw(g, i, v) == raws[i]
    requires forall i :: 0 <= i < |salcs| ==>
      Normalise(raws[i], Reference(v), Dim(g.irreps[i]), Order(g)) == salcs[i]
    ensures Project(v, group) == Ok(salcs)
  {
    var all := ProjectAll(g, v);
    forall i | 0 <= i < |salcs|
      ensures all[i] == salcs[i]
    {
      assert all[i] == ProjectIrrep(g, i, v);
    }
    assert all == salcs;
  }

  /** A projection mentions only symbols the transformed basis mentions: every
      symbol with a non-zero coefficient in a result occurs in some entry of
      the input, so orbits projected separately never mix symbols. */
  lemma ProjectMentionsInput(v: seq<Lin>, group: string, salcs: seq<Salc>, i: nat, s: Sym)
    requires Project(v, group) == Ok(salcs)
    requires i < |salcs| && salcs[i].Combo? && Mentions(salcs[i].lin, s)
    ensures exists k :: 0 <= k < |v| && Mentions(v[k], s)
  {
    var g := Lookup(group).value;
    RawMentionsInput(g, i, v, s);
  }

  /** The raw sum of any irreducible representation mentions only symbols
      that some entry of the input mentions. */
  lemma RawMentionsInput(g: PointGroup, i: nat, v: seq<Lin>, s: Sym)
    requires WellFormed(g) && i < |g.irreps| && |v| == Order(g)
    requires Mentions(Raw(g, i, v), s)
    ensures exists k :: 0 <= k < |v| && Mentions(v[k], s)
  {
    var e := ExpandRow(g.irreps[i].chars, g.sizes);
    CoefWeighted(e, v, s, 0);
    if forall k :: 0 <= k < |v| ==> !Mentions(v[k], s) {
      DotZero(e, Column(v, s), 0, |v|);
    }
  }

  lemma {:induction false} DotZero(a: seq<int>, b: seq<real>, lo: nat, hi: nat)
    requires |a| == |b| && lo <= hi <= |b|
    requires forall k :: lo <= k < hi ==> b[k] == 0.0
    ensures DotRange(a, b, lo, hi) == 0.0
    decreases hi - lo
  {
    if lo < hi {
      DotZero(a, b, lo + 1, hi);
    }
  }

  // ---------------------------------------------------------------------------
  // The reduction formula coefficient by coefficient, summed class by class

  /** The coefficient of symbol `s` in every entry of `v`. */
  function Column(v: seq<Lin>, s: Sym): (r: seq<real>)
    ensures |r| == |v|
    ensures forall k :: 0 <= k < |v| ==> r[k] == Coef(v[k], s)
  {
    seq(|v|, k requires 0 <= k < |v| => Coef(v[k], s))
  }

  /** xs[lo] + ... + xs[hi - 1]. */
  function RangeSum(xs: seq<real>, lo: nat, hi: nat): real
    requires lo <= hi <= |xs|
    decreases hi - lo
  {
    if lo == hi then 0.0 else xs[lo] + RangeSum(xs, lo + 1, hi)
  }

  /** chars[lo] · xs[lo] + ... + chars[hi - 1] · xs[hi - 1]. */
  function DotRange(chars: seq<int>, xs: seq<real>, lo: nat, hi: nat): real
    requires |chars| == |xs| && lo <= hi <= |xs|
    decreases hi - lo
  {
    if lo == hi then 0.0 else chars[lo] as real * xs[lo] + DotRange(chars, xs, lo + 1, hi)
  }

  /** Per-class totals of a per-operation quantity: entry `c` adds up the
      entries of the operations of class `c`. */
  function ClassTotals(sizes: seq<nat>, xs: seq<real>): (r: seq<real>)
    requires |xs| == SumOf(sizes)
    ensures |r| == |sizes|
  {
    seq(|sizes|, c requires 0 <= c < |sizes| => ClassTotal(sizes, xs, c))
  }

  /** The total of `xs` over the operations of class `c` (StartBound shows
      that those operations lie within `xs`). */
  function ClassTotal(sizes: seq<nat>, xs: seq<real>, c: nat): real
    requires c < |sizes|
  {
    if Start(sizes, c) + sizes[c] <= |xs| then RangeSum(xs, Start(sizes, c), Start(sizes, c) + sizes[c]) else 0.0
  }

  lemma {:induction false} DotSplit(a: seq<int>, b: seq<real>, lo: nat, mid: nat, hi: nat)
    requires |a| == |b| && lo <= mid <= hi <= |b|
    ensures DotRange(a, b, lo, hi) == DotRange(a, b, lo, mid) + DotRange(a, b, mid, hi)
    decreases mid - lo
  {
    if lo < mid {
      DotSplit(a, b, lo + 1, mid, hi);
    }
  }

  lemma {:induction false} DotConst(a: seq<int>, b: seq<real>, lo: nat, hi: nat, x: int)
    requires |a| == |b| && lo <= hi <= |b|
    requires forall k :: lo <= k < hi ==> a[k] == x
    ensures DotRange(a, b, lo, hi) == x as real * RangeSum(b, lo, hi)
    decreases hi - lo
  {
    if lo < hi {
      DotConst(a, b, lo + 1, hi, x);
    }
  }

  /** The coefficient of `s` in Σ_k chars[k] · v[k] is Σ_k chars[k] · (coefficient of `s` in v[k]). */
  lemma {:induction false} CoefWeighted(chars: seq<int>, v: seq<Lin>, s: Sym, k: nat)
    requires |chars| == |v| && k <= |v|
    ensures Coef(WeightedFrom(chars, v, k), s) == DotRange(chars, Column(v, s), k, |v|)
    decreases |v| - k
  {
    if k < |v| {
      CoefWeighted(chars, v, s, k + 1);
    }
  }

  /** Over the operations of class `c`, weighting by the expanded row is
      weighting the class total by the class character. */
  lemma {:induction false} ClassBlock(row: seq<int>, sizes: seq<nat>, xs: seq<real>, c: nat)
    requires |row| == |sizes| && |xs| == SumOf(sizes) && c < |sizes|
    ensures Start(sizes, c) + sizes[c] <= |xs|
    ensures DotRange(ExpandRow(row, sizes), xs, Start(sizes, c), Start(sizes, c) + sizes[c])
      == row[c] as real * RangeSum(xs, Start(sizes, c), Start(sizes, c) + sizes[c])
  {
    StartBound(sizes, c);
    var e, lo, hi := ExpandRow(row, sizes), Start(sizes, c), Start(sizes, c) + sizes[c];
    ExpandRowBlock(row, sizes, c);
    DotConst(e, xs, lo, hi, row[c]);
    assert DotRange(e, xs, lo, hi) == row[c] as real * RangeSum(xs, lo, hi);
  }

  /** Weighting by expanded characters and summing over operations equals
      weighting the per-class totals by the class characters. */
  lemma {:induction false} ClassForm(row: seq<int>, sizes: seq<nat>, xs: seq<real>, c: nat)
    requires |row| == |sizes| && |xs| == SumOf(sizes) && c <= |sizes|
    ensures Start(sizes, c) <= |xs| &&
      DotRange(ExpandRow(row, sizes), xs, Start(sizes, c), |xs|)
        == DotRange(row, ClassTotals(sizes, xs), c, |row|)
    decreases |sizes| - c
  {
    StartBound(sizes, c);
    if c < |sizes| {
      var lo, mid := Start(sizes, c), Start(sizes, c) + sizes[c];
      DotSplit(ExpandRow(row, sizes), xs, lo, mid, |xs|);
      ClassBlock(row, sizes, xs, c);
      ClassForm(row, sizes, xs, c + 1);
      assert ClassTotals(sizes, xs)[c] == RangeSum(xs, lo, mid);
    }
  }

  /** Weighting by an expanded row, coefficient by coefficient, is weighting the
      per-class totals of each symbol by the class characters. */
  lemma WeightedByClass(row: seq<int>, sizes: seq<nat>, v: seq<Lin>)
    requires |row| == |sizes| && |v| == SumOf(sizes)
    ensures forall s: Sym ::
      Coef(Weighted(ExpandRow(row, sizes), v), s) == DotRange(row, ClassTotals(sizes, Column(v, s)), 0, |sizes|)
  {
    forall s: Sym
      ensures Coef(Weighted(ExpandRow(row, sizes), v), s)
        == DotRange(row, ClassTotals(sizes, Column(v, s)), 0, |sizes|)
    {
      CoefWeighted(ExpandRow(row, sizes), v, s, 0);
      ClassForm(row, sizes, Column(v, s), 0);
    }
  }

  /** The raw sum is determined by its class-by-class coefficients: when every
      transformed-basis entry is written over the same `n` symbols, the raw sum
      is the combination whose coefficient of each symbol `s` is Σ_c χ_i(c) ·
      (class total of `s`). */
  lemma RawFromCoefs(g: PointGroup, i: nat, v: seq<Lin>, n: nat, raw: Lin)
    requires WellFormed(g) && i < |g.irreps| && |v| == Order(g)
    requires forall k :: 0 <= k < |v| ==> |v[k]| == n
    requires |raw| == n
    requires forall s: Sym :: s < n ==>
      DotRange(g.irreps[i].chars, ClassTotals(g.sizes, Column(v, s)), 0, |g.sizes|) == raw[s]
    ensures Raw(g, i, v) == raw
  {
    WidthUniform(v, n, 0);
    Extensionality(Raw(g, i, v), raw);
  }

  // ---------------------------------------------------------------------------
  // Transformed-basis vectors written class by class

  /** The first `n` blocks one after the other. */
  function ConcatTo(blocks: seq<seq<Lin>>, n: nat): seq<Lin>
    requires n <= |blocks|
  {
    if n == 0 then [] else ConcatTo(blocks, n - 1) + blocks[n - 1]
  }

  /** All the blocks one after the other. */
  function Concat(blocks: seq<seq<Lin>>): seq<Lin> {
    ConcatTo(blocks, |blocks|)
  }

  /** Entry `c` is the total coefficient of `s` over the entries of block `c`. */
  function BlockTotals(blocks: seq<seq<Lin>>, s: Sym): (r: seq<real>)
    ensures |r| == |blocks|
  {
    seq(|blocks|, c requires 0 <= c < |blocks| => RangeSum(Column(blocks[c], s), 0, |blocks[c]|))
  }

  /** The first `n` blocks, of the sizes of the first `n` classes, cover the
      operations before Start(sizes, n). */
  lemma {:induction false} ConcatToLength(sizes: seq<nat>, blocks: seq<seq<Lin>>, n: nat)
    requires |blocks| == |sizes| && n <= |sizes|
    requires forall c :: 0 <= c < |sizes| ==> |blocks[c]| == sizes[c]
    ensures |ConcatTo(blocks, n)| == Start(sizes, n)
  {
    if n > 0 {
      ConcatToLength(sizes, blocks, n - 1);
    }
  }

  /** Within the first `n` blocks, class `c` occupies the operations from
      Start(sizes, c) on, in the order of its block. */
  lemma {:induction false} ConcatToAt(sizes: seq<nat>, blocks: seq<seq<Lin>>, n: nat, c: nat, k: nat)
    requires |blocks| == |sizes| && n <= |sizes|
    requires forall c :: 0 <= c < |sizes| ==> |blocks[c]| == sizes[c]
    requires c < n && k < sizes[c]
    ensures Start(sizes, c) + k < |ConcatTo(blocks, n)|
    ensures ConcatTo(blocks, n)[Start(sizes, c) + k] == blocks[c][k]
  {
    ConcatToLength(sizes, blocks, n - 1);
    if c < n - 1 {
      ConcatToAt(sizes, blocks, n - 1, c, k);
    }
  }

  /** Blocks of the class sizes laid end to end cover the group's operations. */
  lemma ConcatLength(sizes: seq<nat>, blocks: seq<seq<Lin>>)
    requires |blocks| == |sizes|
    requires forall c :: 0 <= c < |sizes| ==> |blocks[c]| == sizes[c]
    ensures |Concat(blocks)| == SumOf(sizes)
  {
    ConcatToLength(sizes, blocks, |sizes|);
  }

  /** Class `c` occupies the operations from Start(sizes, c) on, in the order of its block. */
  lemma ConcatAt(sizes: seq<nat>, blocks: seq<seq<Lin>>, c: nat, k: nat)
    requires |blocks| == |sizes|
    requires forall c :: 0 <= c < |sizes| ==> |blocks[c]| == sizes[c]
    requires c < |sizes| && k < sizes[c]
    ensures Start(sizes, c) + k < |Concat(blocks)|
    ensures Concat(blocks)[Start(sizes, c) + k] == blocks[c][k]
  {
    ConcatToAt(sizes, blocks, |sizes|, c, k);
  }

  /** A range of `xs` that repeats `ys` from position `lo` on has the same sum. */
  lemma {:induction false} RangeSumShift(xs: seq<real>, ys: seq<real>, lo: nat, j: nat, n: nat)
    requires j <= n <= |ys| && lo + n <= |xs|
    requires forall k :: j <= k < n ==> xs[lo + k] == ys[k]
    ensures RangeSum(xs, lo + j, lo + n) == RangeSum(ys, j, n)
    decreases n - j
  {
    if j < n {
      RangeSumShift(xs, ys, lo, j + 1, n);
    }
  }

  /** For a vector written class by class, the per-class totals of a symbol's
      coefficients are the block totals. */
  lemma BlockClassTotals(sizes: seq<nat>, blocks: seq<seq<Lin>>, s: Sym)
    requires |blocks| == |sizes|
    requires forall c :: 0 <= c < |sizes| ==> |blocks[c]| == sizes[c]
    ensures |Concat(blocks)| == SumOf(sizes)
    ensures ClassTotals(sizes, Column(Concat(blocks), s)) == BlockTotals(blocks, s)
  {
    ConcatLength(sizes, blocks);
    var xs := Column(Concat(blocks), s);
    var lhs, rhs := ClassTotals(sizes, xs), BlockTotals(blocks, s);
    forall c | 0 <= c < |sizes|
      ensures lhs[c] == rhs[c]
    {
      StartBound(sizes, c);
      var lo, ys := Start(sizes, c), Column(blocks[c], s);
      forall k | 0 <= k < sizes[c]
        ensures xs[lo + k] == ys[k]
      {
        ConcatAt(sizes, blocks, c, k);
      }
      RangeSumShift(xs, ys, lo, 0, sizes[c]);
    }
  }

  /** A vector written class by class, all of whose entries are written over
      `n` symbols, has only entries over `n` symbols. */
  lemma ConcatWidth(sizes: seq<nat>, blocks: seq<seq<Lin>>, n: nat)
    requires |blocks| == |sizes|
    requires forall c :: 0 <= c < |sizes| ==> |blocks[c]| == sizes[c]
    requires forall c, k :: 0 <= c < |blocks| && 0 <= k < |blocks[c]| ==> |blocks[c][k]| == n
    ensures |Concat(blocks)| == SumOf(sizes)
    ensures forall k :: 0 <= k < |Concat(blocks)| ==> |Concat(blocks)[k]| == n
  {
    ConcatLength(sizes, blocks);
    var v := Concat(blocks);
    forall k | 0 <= k < |v|
      ensures |v[k]| == n
    {
      var c := ClassOf(sizes, k);
      ClassOfRange(sizes, k, c);
      ConcatAt(sizes, blocks, c, k - Start(sizes, c));
    }
  }
}
