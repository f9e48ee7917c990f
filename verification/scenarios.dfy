/** The documented calls of `calc_salcs_projection`, replayed on the model.

    Each scenario writes its transformed basis class by class (one block per
    conjugacy class, in the group's canonical class order).  The projection
    depends on such an input only through its length, the per-class totals of
    every symbol and its reference symbol; the predicate `<Scenario>Like`
    collects these.  `<Scenario>For` evaluates every raw reduction-formula sum
    from the class totals and normalises it, so it fixes the result of Project
    for every input of that shape.  The lemma named after the scenario applies
    this to the documented input.  Symbols are numbered in the order the test
    names them.

    Most of this file is enumerated: `<Scenario>Coef<i>_<s>` evaluates one
    reduction-formula coefficient — DotRange of row i against the literal
    class totals of symbol s — and `<Scenario>Coefs<i>`, `<Scenario>Raw<i>`
    and `<Scenario>Norm<i>` assemble and normalise raw sum i.  Each entry
    gets its own lemma because evaluations on literal tables are cheap only
    one at a time. */
module Scenarios {
  import opened Results
  import opened Linear
  import opened CharacterTables
  import opened Expander
  import opened Projection

  function Neg(p: Lin): Lin { Scale(-1.0, p) }

  // ---------------------------------------------------------------------------
  // Ammonia hydrogens in C3v (test_salcs.py:13-16): the transformed basis a, b, c, a, b, c
  // projects to a + b + c (A1), zero (A2) and a - b/2 - c/2 (E).

  /** The transformed basis, one block per class of C3v (symbols a, b, c numbered from 0). */
  function AmmoniaBlocks(): seq<seq<Lin>> {
    var a, b, c := Unit(0, 3), Unit(1, 3), Unit(2, 3);
    [[a], [b, c], [a, b, c]]
  }

  function AmmoniaInput(): seq<Lin> {
    Concat(AmmoniaBlocks())
  }

  /** The class totals of every symbol in the documented input. */
  function AmmoniaTotals(): seq<seq<real>> {
    [[1.0, 0.0, 1.0], [0.0, 1.0, 1.0], [0.0, 1.0, 1.0]]
  }

  /** What the projection of this scenario depends on: the length of the input, the
      symbols its entries are written over, the class totals of every symbol and the
      reference symbol. */
  ghost predicate AmmoniaLike(v: seq<Lin>) {
    && |v| == 6 == Order(C3v())
    && (forall k :: 0 <= k < |v| ==> |v[k]| == 3)
    && (forall s: Sym :: s < 3 ==> ClassTotals(C3v().sizes, Column(v, s)) == AmmoniaTotals()[s])
    && Reference(v) == Some(0)
  }

  lemma AmmoniaShape()
    ensures |AmmoniaBlocks()| == |C3v().sizes|
    ensures forall c :: 0 <= c < |AmmoniaBlocks()| ==> |AmmoniaBlocks()[c]| == C3v().sizes[c]
    ensures forall c, k :: 0 <= c < |AmmoniaBlocks()| && 0 <= k < |AmmoniaBlocks()[c]| ==> |AmmoniaBlocks()[c][k]| == 3
  {
  }

  lemma AmmoniaTotals0()
    ensures BlockTotals(AmmoniaBlocks(), 0) == AmmoniaTotals()[0]
  {
    assert AmmoniaTotals()[0] == [1.0, 0.0, 1.0];
  }

  lemma AmmoniaTotals1()
    ensures BlockTotals(AmmoniaBlocks(), 1) == AmmoniaTotals()[1]
  {
    assert AmmoniaTotals()[1] == [0.0, 1.0, 1.0];
  }

  lemma AmmoniaTotals2()
    ensures BlockTotals(AmmoniaBlocks(), 2) == AmmoniaTotals()[2]
  {
    assert AmmoniaTotals()[2] == [0.0, 1.0, 1.0];
  }

  lemma AmmoniaReference()
    ensures |AmmoniaInput()| == Order(C3v()) && Reference(AmmoniaInput()) == Some(0)
  {
    C3vShape();
    AmmoniaShape();
    ConcatLength(C3v().sizes, AmmoniaBlocks());
    ConcatAt(C3v().sizes, AmmoniaBlocks(), 0, 0);
  }

  /** The documented input has the shape the projection depends on. */
  lemma AmmoniaInputLike()
    ensures AmmoniaLike(AmmoniaInput())
  {
    C3vShape();
    AmmoniaShape();
    ConcatWidth(C3v().sizes, AmmoniaBlocks(), 3);
    forall s: Sym | s < 3
      ensures ClassTotals(C3v().sizes, Column(AmmoniaInput(), s)) == AmmoniaTotals()[s]
    {
      BlockClassTotals(C3v().sizes, AmmoniaBlocks(), s);
      if s == 0 {
        AmmoniaTotals0();
      } else if s == 1 {
        AmmoniaTotals1();
      } else if s == 2 {
        AmmoniaTotals2();
      }
    }
    AmmoniaReference();
  }

  lemma AmmoniaCoef0_0()
    ensures DotRange(C3v().irreps[0].chars, AmmoniaTotals()[0], 0, |C3v().sizes|) == AmmoniaRawSums()[0][0]
  {
    C3vChars0();
    assert AmmoniaTotals()[0] == [1.0, 0.0, 1.0];
    assert AmmoniaRawSums()[0][0] == 2.0;
    assert DotRange([1, 1, 1], [1.0, 0.0, 1.0], 0, 3) == 2.0;
  }

  lemma AmmoniaCoef0_1()
    ensures DotRange(C3v().irreps[0].chars, AmmoniaTotals()[1], 0, |C3v().sizes|) == AmmoniaRawSums()[0][1]
  {
    C3vChars0();
    assert AmmoniaTotals()[1] == [0.0, 1.0, 1.0];
    assert AmmoniaRawSums()[0][1] == 2.0;
    assert DotRange([1, 1, 1], [0.0, 1.0, 1.0], 0, 3) == 2.0;
  }

  lemma AmmoniaCoef0_2()
    ensures DotRange(C3v().irreps[0].chars, AmmoniaTotals()[2], 0, |C3v().sizes|) == AmmoniaRawSums()[0][2]
  {
    C3vChars0();
    assert AmmoniaTotals()[2] == [0.0, 1.0, 1.0];
    assert AmmoniaRawSums()[0][2] == 2.0;
    assert DotRange([1, 1, 1], [0.0, 1.0, 1.0], 0, 3) == 2.0;
  }

  lemma AmmoniaCoefs0()
    ensures |AmmoniaRawSums()[0]| == 3
    ensures forall s: Sym :: s < 3 ==> DotRange(C3v().irreps[0].chars, AmmoniaTotals()[s], 0, |C3v().sizes|) == AmmoniaRawSums()[0][s]
  {
    forall s: Sym | s < 3
      ensures DotRange(C3v().irreps[0].chars, AmmoniaTotals()[s], 0, |C3v().sizes|) == AmmoniaRawSums()[0][s]
    {
      if s == 0 {
        AmmoniaCoef0_0();
      } else if s == 1 {
        AmmoniaCoef0_1();
      } else if s == 2 {
        AmmoniaCoef0_2();
      }
    }
  }

  lemma AmmoniaRaw0(v: seq<Lin>)
    requires AmmoniaLike(v)
    ensures WellFormed(C3v()) && Raw(C3v(), 0, v) == AmmoniaRawSums()[0]
  {
    C3vWellFormed();
    AmmoniaCoefs0();
    RawFromCoefs(C3v(), 0, v, 3, AmmoniaRawSums()[0]);
  }

  lemma AmmoniaNorm0()
    ensures Dim(C3v().irreps[0]) == 1 && Order(C3v()) == 6
    ensures Normalise(AmmoniaRawSums()[0], Some(0), Dim(C3v().irreps[0]), Order(C3v())) == AmmoniaSalcs()[0]
  {
    assert AmmoniaRawSums()[0] == [2.0, 2.0, 2.0];
    assert AmmoniaSalcs()[0] == Combo([1.0, 1.0, 1.0]);
    C3vShape();
    assert C3v().irreps[0].chars[0] == 1;
    Extensionality(Scale(1.0 / 2.0, [2.0, 2.0, 2.0]), [1.0, 1.0, 1.0]);
  }

  lemma AmmoniaCoef1_0()
    ensures DotRange(C3v().irreps[1].chars, AmmoniaTotals()[0], 0, |C3v().sizes|) == AmmoniaRawSums()[1][0]
  {
    C3vChars1();
    assert AmmoniaTotals()[0] == [1.0, 0.0, 1.0];
    assert AmmoniaRawSums()[1][0] == 0.0;
    assert DotRange([1, 1, -1], [1.0, 0.0, 1.0], 0, 3) == 0.0;
  }

  lemma AmmoniaCoef1_1()
    ensures DotRange(C3v().irreps[1].chars, AmmoniaTotals()[1], 0, |C3v().sizes|) == AmmoniaRawSums()[1][1]
  {
    C3vChars1();
    assert AmmoniaTotals()[1] == [0.0, 1.0, 1.0];
    assert AmmoniaRawSums()[1][1] == 0.0;
    assert DotRange([1, 1, -1], [0.0, 1.0, 1.0], 0, 3) == 0.0;
  }

  lemma AmmoniaCoef1_2()
    ensures DotRange(C3v().irreps[1].chars, AmmoniaTotals()[2], 0, |C3v().sizes|) == AmmoniaRawSums()[1][2]
  {
    C3vChars1();
    assert AmmoniaTotals()[2] == [0.0, 1.0, 1.0];
    assert AmmoniaRawSums()[1][2] == 0.0;
    assert DotRange([1, 1, -1], [0.0, 1.0, 1.0], 0, 3) == 0.0;
  }

  lemma AmmoniaCoefs1()
    ensures |AmmoniaRawSums()[1]| == 3
    ensures forall s: Sym :: s < 3 ==> DotRange(C3v().irreps[1].chars, AmmoniaTotals()[s], 0, |C3v().sizes|) == AmmoniaRawSums()[1][s]
  {
    forall s: Sym | s < 3
      ensures DotRange(C3v().irreps[1].chars, AmmoniaTotals()[s], 0, |C3v().sizes|) == AmmoniaRawSums()[1][s]
    {
      if s == 0 {
        AmmoniaCoef1_0();
      } else if s == 1 {
        AmmoniaCoef1_1();
      } else if s == 2 {
        AmmoniaCoef1_2();
      }
    }
  }

  lemma AmmoniaRaw1(v: seq<Lin>)
    requires AmmoniaLike(v)
    ensures WellFormed(C3v()) && Raw(C3v(), 1, v) == AmmoniaRawSums()[1]
  {
    C3vWellFormed();
    AmmoniaCoefs1();
    RawFromCoefs(C3v(), 1, v, 3, AmmoniaRawSums()[1]);
  }

  lemma AmmoniaNorm1()
    ensures Dim(C3v().irreps[1]) == 1 && Order(C3v()) == 6
    ensures Normalise(AmmoniaRawSums()[1], Some(0), Dim(C3v().irreps[1]), Order(C3v())) == AmmoniaSalcs()[1]
  {
    assert AmmoniaRawSums()[1] == [0.0, 0.0, 0.0];
    assert AmmoniaSalcs()[1] == Zero;
    C3vShape();
    assert C3v().irreps[1].chars[0] == 1;
  }

  lemma AmmoniaCoef2_0()
    ensures DotRange(C3v().irreps[2].chars, AmmoniaTotals()[0], 0, |C3v().sizes|) == AmmoniaRawSums()[2][0]
  {
    C3vChars2();
    assert AmmoniaTotals()[0] == [1.0, 0.0, 1.0];
    assert AmmoniaRawSums()[2][0] == 2.0;
    assert DotRange([2, -1, 0], [1.0, 0.0, 1.0], 0, 3) == 2.0;
  }

  lemma AmmoniaCoef2_1()
    ensures DotRange(C3v().irreps[2].chars, AmmoniaTotals()[1], 0, |C3v().sizes|) == AmmoniaRawSums()[2][1]
  {
    C3vChars2();
    assert AmmoniaTotals()[1] == [0.0, 1.0, 1.0];
    assert AmmoniaRawSums()[2][1] == -1.0;
    assert DotRange([2, -1, 0], [0.0, 1.0, 1.0], 0, 3) == -1.0;
  }

  lemma AmmoniaCoef2_2()
    ensures DotRange(C3v().irreps[2].chars, AmmoniaTotals()[2], 0, |C3v().sizes|) == AmmoniaRawSums()[2][2]
  {
    C3vChars2();
    assert AmmoniaTotals()[2] == [0.0, 1.0, 1.0];
    assert AmmoniaRawSums()[2][2] == -1.0;
    assert DotRange([2, -1, 0], [0.0, 1.0, 1.0], 0, 3) == -1.0;
  }

  lemma AmmoniaCoefs2()
    ensures |AmmoniaRawSums()[2]| == 3
    ensures forall s: Sym :: s < 3 ==> DotRange(C3v().irreps[2].chars, AmmoniaTotals()[s], 0, |C3v().sizes|) == AmmoniaRawSums()[2][s]
  {
    forall s: Sym | s < 3
      ensures DotRange(C3v().irreps[2].chars, AmmoniaTotals()[s], 0, |C3v().sizes|) == AmmoniaRawSums()[2][s]
    {
      if s == 0 {
        AmmoniaCoef2_0();
      } else if s == 1 {
        AmmoniaCoef2_1();
      } else if s == 2 {
        AmmoniaCoef2_2();
      }
    }
  }

  lemma AmmoniaRaw2(v: seq<Lin>)
    requires AmmoniaLike(v)
    ensures WellFormed(C3v()) && Raw(C3v(), 2, v) == AmmoniaRawSums()[2]
  {
    C3vWellFormed();
    AmmoniaCoefs2();
    RawFromCoefs(C3v(), 2, v, 3, AmmoniaRawSums()[2]);
  }

  lemma AmmoniaNorm2()
    ensures Dim(C3v().irreps[2]) == 2 && Order(C3v()) == 6
    ensures Normalise(AmmoniaRawSums()[2], Some(0), Dim(C3v().irreps[2]), Order(C3v())) == AmmoniaSalcs()[2]
  {
    assert AmmoniaRawSums()[2] == [2.0, -1.0, -1.0];
    assert AmmoniaSalcs()[2] == Combo([1.0, -0.5, -0.5]);
    C3vShape();
    assert C3v().irreps[2].chars[0] == 2;
    Extensionality(Scale(1.0 / 2.0, [2.0, -1.0, -1.0]), [1.0, -0.5, -0.5]);
  }

  /** The raw sums of the scenario, one per irreducible representation. */
  function AmmoniaRawSums(): seq<Lin> {
    [[2.0, 2.0, 2.0], [0.0, 0.0, 0.0], [2.0, -1.0, -1.0]]
  }

  /** The expected results of the scenario. */
  function AmmoniaSalcs(): seq<Salc> {
    [Combo([1.0, 1.0, 1.0]), Zero, Combo([1.0, -0.5, -0.5])]
  }

  /** The projection of every input of this shape. */
  lemma AmmoniaFor(v: seq<Lin>)
    requires AmmoniaLike(v)
    ensures Project(v, "c3v") == Ok(AmmoniaSalcs())
  {
    C3vWellFormed();
    forall i | 0 <= i < 3
      ensures Raw(C3v(), i, v) == AmmoniaRawSums()[i]
      ensures Normalise(AmmoniaRawSums()[i], Reference(v), Dim(C3v().irreps[i]), Order(C3v())) == AmmoniaSalcs()[i]
    {
      if i == 0 {
        AmmoniaRaw0(v);
        AmmoniaNorm0();
      } else if i == 1 {
        AmmoniaRaw1(v);
        AmmoniaNorm1();
      } else if i == 2 {
        AmmoniaRaw2(v);
        AmmoniaNorm2();
      }
    }
    assert Lookup("c3v") == Ok(C3v());
    ProjectFrom(v, "c3v", C3v(), AmmoniaRawSums(), AmmoniaSalcs());
  }

  lemma Ammonia()
    ensures Project(AmmoniaInput(), "c3v") == Ok([Combo([1.0, 1.0, 1.0]), Zero, Combo([1.0, -0.5, -0.5])])
  {
    AmmoniaInputLike();
    AmmoniaFor(AmmoniaInput());
    assert AmmoniaSalcs() == [Combo([1.0, 1.0, 1.0]), Zero, Combo([1.0, -0.5, -0.5])];
  }

  // ---------------------------------------------------------------------------
  // Trigonal bipyramid, equatorial positions in D3h (test_salcs.py:18-22): the six
  // sign-flipped images of e1, e2, e3 leave only A2'' = e1 + e2 + e3 and E'' = e1 - e2/2 - e3/2.

  /** The transformed basis, one block per class of D3h (symbols a1, a2, e1, e2, e3 numbered from 0). */
  function BipyramidEquatorialBlocks(): seq<seq<Lin>> {
    var a1, a2, e1, e2, e3 := Unit(0, 5), Unit(1, 5), Unit(2, 5), Unit(3, 5), Unit(4, 5);
    [[e1], [e2, e3], [Neg(e1), Neg(e2), Neg(e3)], [Neg(e1)], [Neg(e2), Neg(e3)], [e1, e2, e3]]
  }

  function BipyramidEquatorialInput(): seq<Lin> {
    Concat(BipyramidEquatorialBlocks())
  }

  /** The class totals of every symbol in the documented input. */
  function BipyramidEquatorialTotals(): seq<seq<real>> {
    [[0.0, 0.0, 0.0, 0.0, 0.0, 0.0], [0.0, 0.0, 0.0, 0.0, 0.0, 0.0], [1.0, 0.0, -1.0, -1.0, 0.0, 1.0], [0.0, 1.0, -1.0, 0.0, -1.0, 1.0], [0.0, 1.0, -1.0, 0.0, -1.0, 1.0]]
  }

  /** What the projection of this scenario depends on: the length of the input, the
      symbols its entries are written over, the class totals of every symbol and the
      reference symbol. */
  ghost predicate BipyramidEquatorialLike(v: seq<Lin>) {
    && |v| == 12 == Order(D3h())
    && (forall k :: 0 <= k < |v| ==> |v[k]| == 5)
    && (forall s: Sym :: s < 5 ==> ClassTotals(D3h().sizes, Column(v, s)) == BipyramidEquatorialTotals()[s])
    && Reference(v) == Some(2)
  }

  lemma BipyramidEquatorialShape()
    ensures |BipyramidEquatorialBlocks()| == |D3h().sizes|
    ensures forall c :: 0 <= c < |BipyramidEquatorialBlocks()| ==> |BipyramidEquatorialBlocks()[c]| == D3h().sizes[c]
    ensures forall c, k :: 0 <= c < |BipyramidEquatorialBlocks()| && 0 <= k < |BipyramidEquatorialBlocks()[c]| ==> |BipyramidEquatorialBlocks()[c][k]| == 5
  {
  }

  lemma BipyramidEquatorialTotals0()
    ensures BlockTotals(BipyramidEquatorialBlocks(), 0) == BipyramidEquatorialTotals()[0]
  {
    assert BipyramidEquatorialTotals()[0] == [0.0, 0.0, 0.0, 0.0, 0.0, 0.0];
  }

  lemma BipyramidEquatorialTotals1()
    ensures BlockTotals(BipyramidEquatorialBlocks(), 1) == BipyramidEquatorialTotals()[1]
  {
    assert BipyramidEquatorialTotals()[1] == [0.0, 0.0, 0.0, 0.0, 0.0, 0.0];
  }

  lemma BipyramidEquatorialTotals2()
    ensures BlockTotals(BipyramidEquatorialBlocks(), 2) == BipyramidEquatorialTotals()[2]
  {
    assert BipyramidEquatorialTotals()[2] == [1.0, 0.0, -1.0, -1.0, 0.0, 1.0];
  }

  lemma BipyramidEquatorialTotals3()
    ensures BlockTotals(BipyramidEquatorialBlocks(), 3) == BipyramidEquatorialTotals()[3]
  {
    assert BipyramidEquatorialTotals()[3] == [0.0, 1.0, -1.0, 0.0, -1.0, 1.0];
  }

  lemma BipyramidEquatorialTotals4()
    ensures BlockTotals(BipyramidEquatorialBlocks(), 4) == BipyramidEquatorialTotals()[4]
  {
    assert BipyramidEquatorialTotals()[4] == [0.0, 1.0, -1.0, 0.0, -1.0, 1.0];
  }

  lemma BipyramidEquatorialReference()
    ensures |BipyramidEquatorialInput()| == Order(D3h()) && Reference(BipyramidEquatorialInput()) == Some(2)
  {
    D3hShape();
    BipyramidEquatorialShape();
    ConcatLength(D3h().sizes, BipyramidEquatorialBlocks());
    ConcatAt(D3h().sizes, BipyramidEquatorialBlocks(), 0, 0);
  }

  /** The documented input has the shape the projection depends on. */
  lemma BipyramidEquatorialInputLike()
    ensures BipyramidEquatorialLike(BipyramidEquatorialInput())
  {
    D3hShape();
    BipyramidEquatorialShape();
    ConcatWidth(D3h().sizes, BipyramidEquatorialBlocks(), 5);
    forall s: Sym | s < 5
      ensures ClassTotals(D3h().sizes, Column(BipyramidEquatorialInput(), s)) == BipyramidEquatorialTotals()[s]
    {
      BlockClassTotals(D3h().sizes, BipyramidEquatorialBlocks(), s);
      if s == 0 {
        BipyramidEquatorialTotals0();
      } else if s == 1 {
        BipyramidEquatorialTotals1();
      } else if s == 2 {
        BipyramidEquatorialTotals2();
      } else if s == 3 {
        BipyramidEquatorialTotals3();
      } else if s == 4 {
        BipyramidEquatorialTotals4();
      }
    }
    BipyramidEquatorialReference();
  }

  lemma BipyramidEquatorialCoef0_0()
    ensures DotRange(D3h().irreps[0].chars, BipyramidEquatorialTotals()[0], 0, |D3h().sizes|) == BipyramidEquatorialRawSums()[0][0]
  {
    D3hChars0();
    assert BipyramidEquatorialTotals()[0] == [0.0, 0.0, 0.0, 0.0, 0.0, 0.0];
    assert BipyramidEquatorialRawSums()[0][0] == 0.0;
    assert DotRange([1, 1, 1, 1, 1, 1], [0.0, 0.0, 0.0, 0.0, 0.0, 0.0], 0, 6) == 0.0;
  }

  lemma BipyramidEquatorialCoef0_1()
    ensures DotRange(D3h().irreps[0].chars, BipyramidEquatorialTotals()[1], 0, |D3h().sizes|) == BipyramidEquatorialRawSums()[0][1]
  {
    D3hChars0();
    assert BipyramidEquatorialTotals()[1] == [0.0, 0.0, 0.0, 0.0, 0.0, 0.0];
    assert BipyramidEquatorialRawSums()[0][1] == 0.0;
    assert DotRange([1, 1, 1, 1, 1, 1], [0.0, 0.0, 0.0, 0.0, 0.0, 0.0], 0, 6) == 0.0;
  }

  lemma BipyramidEquatorialCoef0_2()
    ensures DotRange(D3h().irreps[0].chars, BipyramidEquatorialTotals()[2], 0, |D3h().sizes|) == BipyramidEquatorialRawSums()[0][2]
  {
    D3hChars0();
    assert BipyramidEquatorialTotals()[2] == [1.0, 0.0, -1.0, -1.0, 0.0, 1.0];
    assert BipyramidEquatorialRawSums()[0][2] == 0.0;
    assert DotRange([1, 1, 1, 1, 1, 1], [1.0, 0.0, -1.0, -1.0, 0.0, 1.0], 0, 6) == 0.0;
  }

  lemma BipyramidEquatorialCoef0_3()
    ensures DotRange(D3h().irreps[0].chars, BipyramidEquatorialTotals()[3], 0, |D3h().sizes|) == BipyramidEquatorialRawSums()[0][3]
  {
    D3hChars0();
    assert BipyramidEquatorialTotals()[3] == [0.0, 1.0, -1.0, 0.0, -1.0, 1.0];
    assert BipyramidEquatorialRawSums()[0][3] == 0.0;
    assert DotRange([1, 1, 1, 1, 1, 1], [0.0, 1.0, -1.0, 0.0, -1.0, 1.0], 0, 6) == 0.0;
  }

  lemma BipyramidEquatorialCoef0_4()
    ensures DotRange(D3h().irreps[0].chars, BipyramidEquatorialTotals()[4], 0, |D3h().sizes|) == BipyramidEquatorialRawSums()[0][4]
  {
    D3hChars0();
    assert BipyramidEquatorialTotals()[4] == [0.0, 1.0, -1.0, 0.0, -1.0, 1.0];
    assert BipyramidEquatorialRawSums()[0][4] == 0.0;
    assert DotRange([1, 1, 1, 1, 1, 1], [0.0, 1.0, -1.0, 0.0, -1.0, 1.0], 0, 6) == 0.0;
  }

  lemma BipyramidEquatorialCoefs0()
    ensures |BipyramidEquatorialRawSums()[0]| == 5
    ensures forall s: Sym :: s < 5 ==> DotRange(D3h().irreps[0].chars, BipyramidEquatorialTotals()[s], 0, |D3h().sizes|) == BipyramidEquatorialRawSums()[0][s]
  {
    forall s: Sym | s < 5
      ensures DotRange(D3h().irreps[0].chars, BipyramidEquatorialTotals()[s], 0, |D3h().sizes|) == BipyramidEquatorialRawSums()[0][s]
    {
      if s == 0 {
        BipyramidEquatorialCoef0_0();
      } else if s == 1 {
        BipyramidEquatorialCoef0_1();
      } else if s == 2 {
        BipyramidEquatorialCoef0_2();
      } else if s == 3 {
        BipyramidEquatorialCoef0_3();
      } else if s == 4 {
        BipyramidEquatorialCoef0_4();
      }
    }
  }

  lemma BipyramidEquatorialRaw0(v: seq<Lin>)
    requires BipyramidEquatorialLike(v)
    ensures WellFormed(D3h()) && Raw(D3h(), 0, v) == BipyramidEquatorialRawSums()[0]
  {
    D3hWellFormed();
    BipyramidEquatorialCoefs0();
    RawFromCoefs(D3h(), 0, v, 5, BipyramidEquatorialRawSums()[0]);
  }

  lemma BipyramidEquatorialNorm0()
    ensures Dim(D3h().irreps[0]) == 1 && Order(D3h()) == 12
    ensures Normalise(BipyramidEquatorialRawSums()[0], Some(2), Dim(D3h().irreps[0]), Order(D3h())) == BipyramidEquatorialSalcs()[0]
  {
    assert BipyramidEquatorialRawSums()[0] == [0.0, 0.0, 0.0, 0.0, 0.0];
    assert BipyramidEquatorialSalcs()[0] == Zero;
    D3hShape();
    assert D3h().irreps[0].chars[0] == 1;
  }

  lemma BipyramidEquatorialCoef1_0()
    ensures DotRange(D3h().irreps[1].chars, BipyramidEquatorialTotals()[0], 0, |D3h().sizes|) == BipyramidEquatorialRawSums()[1][0]
  {
    D3hChars1();
    assert BipyramidEquatorialTotals()[0] == [0.0, 0.0, 0.0, 0.0, 0.0, 0.0];
    assert BipyramidEquatorialRawSums()[1][0] == 0.0;
    assert DotRange([1, 1, -1, 1, 1, -1], [0.0, 0.0, 0.0, 0.0, 0.0, 0.0], 0, 6) == 0.0;
  }

  lemma BipyramidEquatorialCoef1_1()
    ensures DotRange(D3h().irreps[1].chars, BipyramidEquatorialTotals()[1], 0, |D3h().sizes|) == BipyramidEquatorialRawSums()[1][1]
  {
    D3hChars1();
    assert BipyramidEquatorialTotals()[1] == [0.0, 0.0, 0.0, 0.0, 0.0, 0.0];
    assert BipyramidEquatorialRawSums()[1][1] == 0.0;
    assert DotRange([1, 1, -1, 1, 1, -1], [0.0, 0.0, 0.0, 0.0, 0.0, 0.0], 0, 6) == 0.0;
  }

  lemma BipyramidEquatorialCoef1_2()
    ensures DotRange(D3h().irreps[1].chars, BipyramidEquatorialTotals()[2], 0, |D3h().sizes|) == BipyramidEquatorialRawSums()[1][2]
  {
    D3hChars1();
    assert BipyramidEquatorialTotals()[2] == [1.0, 0.0, -1.0, -1.0, 0.0, 1.0];
    assert BipyramidEquatorialRawSums()[1][2] == 0.0;
    assert DotRange([1, 1, -1, 1, 1, -1], [1.0, 0.0, -1.0, -1.0, 0.0, 1.0], 0, 6) == 0.0;
  }

  lemma BipyramidEquatorialCoef1_3()
    ensures DotRange(D3h().irreps[1].chars, BipyramidEquatorialTotals()[3], 0, |D3h().sizes|) == BipyramidEquatorialRawSums()[1][3]
  {
    D3hChars1();
    assert BipyramidEquatorialTotals()[3] == [0.0, 1.0, -1.0, 0.0, -1.0, 1.0];
    assert BipyramidEquatorialRawSums()[1][3] == 0.0;
    assert DotRange([1, 1, -1, 1, 1, -1], [0.0, 1.0, -1.0, 0.0, -1.0, 1.0], 0, 6) == 0.0;
  }

  lemma BipyramidEquatorialCoef1_4()
    ensures DotRange(D3h().irreps[1].chars, BipyramidEquatorialTotals()[4], 0, |D3h().sizes|) == BipyramidEquatorialRawSums()[1][4]
  {
    D3hChars1();
    assert BipyramidEquatorialTotals()[4] == [0.0, 1.0, -1.0, 0.0, -1.0, 1.0];
    assert BipyramidEquatorialRawSums()[1][4] == 0.0;
    assert DotRange([1, 1, -1, 1, 1, -1], [0.0, 1.0, -1.0, 0.0, -1.0, 1.0], 0, 6) == 0.0;
  }

  lemma BipyramidEquatorialCoefs1()
    ensures |BipyramidEquatorialRawSums()[1]| == 5
    ensures forall s: Sym :: s < 5 ==> DotRange(D3h().irreps[1].chars, BipyramidEquatorialTotals()[s], 0, |D3h().sizes|) == BipyramidEquatorialRawSums()[1][s]
  {
    forall s: Sym | s < 5
      ensures DotRange(D3h().irreps[1].chars, BipyramidEquatorialTotals()[s], 0, |D3h().sizes|) == BipyramidEquatorialRawSums()[1][s]
    {
      if s == 0 {
        BipyramidEquatorialCoef1_0();
      } else if s == 1 {
        BipyramidEquatorialCoef1_1();
      } else if s == 2 {
        BipyramidEquatorialCoef1_2();
      } else if s == 3 {
        BipyramidEquatorialCoef1_3();
      } else if s == 4 {
        BipyramidEquatorialCoef1_4();
      }
    }
  }

  lemma BipyramidEquatorialRaw1(v: seq<Lin>)
    requires BipyramidEquatorialLike(v)
    ensures WellFormed(D3h()) && Raw(D3h(), 1, v) == BipyramidEquatorialRawSums()[1]
  {
    D3hWellFormed();
    BipyramidEquatorialCoefs1();
    RawFromCoefs(D3h(), 1, v, 5, BipyramidEquatorialRawSums()[1]);
  }

  lemma BipyramidEquatorialNorm1()
    ensures Dim(D3h().irreps[1]) == 1 && Order(D3h()) == 12
    ensures Normalise(BipyramidEquatorialRawSums()[1], Some(2), Dim(D3h().irreps[1]), Order(D3h())) == BipyramidEquatorialSalcs()[1]
  {
    assert BipyramidEquatorialRawSums()[1] == [0.0, 0.0, 0.0, 0.0, 0.0];
    assert BipyramidEquatorialSalcs()[1] == Zero;
    D3hShape();
    assert D3h().irreps[1].chars[0] == 1;
  }

  lemma BipyramidEquatorialCoef2_0()
    ensures DotRange(D3h().irreps[2].chars, BipyramidEquatorialTotals()[0], 0, |D3h().sizes|) == BipyramidEquatorialRawSums()[2][0]
  {
    D3hChars2();
    assert BipyramidEquatorialTotals()[0] == [0.0, 0.0, 0.0, 0.0, 0.0, 0.0];
    assert BipyramidEquatorialRawSums()[2][0] == 0.0;
    assert DotRange([2, -1, 0, 2, -1, 0], [0.0, 0.0, 0.0, 0.0, 0.0, 0.0], 0, 6) == 0.0;
  }

  lemma BipyramidEquatorialCoef2_1()
    ensures DotRange(D3h().irreps[2].chars, BipyramidEquatorialTotals()[1], 0, |D3h().sizes|) == BipyramidEquatorialRawSums()[2][1]
  {
    D3hChars2();
    assert BipyramidEquatorialTotals()[1] == [0.0, 0.0, 0.0, 0.0, 0.0, 0.0];
    assert BipyramidEquatorialRawSums()[2][1] == 0.0;
    assert DotRange([2, -1, 0, 2, -1, 0], [0.0, 0.0, 0.0, 0.0, 0.0, 0.0], 0, 6) == 0.0;
  }

  lemma BipyramidEquatorialCoef2_2()
    ensures DotRange(D3h().irreps[2].chars, BipyramidEquatorialTotals()[2], 0, |D3h().sizes|) == BipyramidEquatorialRawSums()[2][2]
  {
    D3hChars2();
    assert BipyramidEquatorialTotals()[2] == [1.0, 0.0, -1.0, -1.0, 0.0, 1.0];
    assert BipyramidEquatorialRawSums()[2][2] == 0.0;
    assert DotRange([2, -1, 0, 2, -1, 0], [1.0, 0.0, -1.0, -1.0, 0.0, 1.0], 0, 6) == 0.0;
  }

  lemma BipyramidEquatorialCoef2_3()
    ensures DotRange(D3h().irreps[2].chars, BipyramidEquatorialTotals()[3], 0, |D3h().sizes|) == BipyramidEquatorialRawSums()[2][3]
  {
    D3hChars2();
    assert BipyramidEquatorialTotals()[3] == [0.0, 1.0, -1.0, 0.0, -1.0, 1.0];
    assert BipyramidEquatorialRawSums()[2][3] == 0.0;
    assert DotRange([2, -1, 0, 2, -1, 0], [0.0, 1.0, -1.0, 0.0, -1.0, 1.0], 0, 6) == 0.0;
  }

  lemma BipyramidEquatorialCoef2_4()
    ensures DotRange(D3h().irreps[2].chars, BipyramidEquatorialTotals()[4], 0, |D3h().sizes|) == BipyramidEquatorialRawSums()[2][4]
  {
    D3hChars2();
    assert BipyramidEquatorialTotals()[4] == [0.0, 1.0, -1.0, 0.0, -1.0, 1.0];
    assert BipyramidEquatorialRawSums()[2][4] == 0.0;
    assert DotRange([2, -1, 0, 2, -1, 0], [0.0, 1.0, -1.0, 0.0, -1.0, 1.0], 0, 6) == 0.0;
  }

  lemma BipyramidEquatorialCoefs2()
    ensures |BipyramidEquatorialRawSums()[2]| == 5
    ensures forall s: Sym :: s < 5 ==> DotRange(D3h().irreps[2].chars, BipyramidEquatorialTotals()[s], 0, |D3h().sizes|) == BipyramidEquatorialRawSums()[2][s]
  {
    forall s: Sym | s < 5
      ensures DotRange(D3h().irreps[2].chars, BipyramidEquatorialTotals()[s], 0, |D3h().sizes|) == BipyramidEquatorialRawSums()[2][s]
    {
      if s == 0 {
        BipyramidEquatorialCoef2_0();
      } else if s == 1 {
        BipyramidEquatorialCoef2_1();
      } else if s == 2 {
        BipyramidEquatorialCoef2_2();
      } else if s == 3 {
        BipyramidEquatorialCoef2_3();
      } else if s == 4 {
        BipyramidEquatorialCoef2_4();
      }
    }
  }

  lemma BipyramidEquatorialRaw2(v: seq<Lin>)
    requires BipyramidEquatorialLike(v)
    ensures WellFormed(D3h()) && Raw(D3h(), 2, v) == BipyramidEquatorialRawSums()[2]
  {
    D3hWellFormed();
    BipyramidEquatorialCoefs2();
    RawFromCoefs(D3h(), 2, v, 5, BipyramidEquatorialRawSums()[2]);
  }

  lemma BipyramidEquatorialNorm2()
    ensures Dim(D3h().irreps[2]) == 2 && Order(D3h()) == 12
    ensures Normalise(BipyramidEquatorialRawSums()[2], Some(2), Dim(D3h().irreps[2]), Order(D3h())) == BipyramidEquatorialSalcs()[2]
  {
    assert BipyramidEquatorialRawSums()[2] == [0.0, 0.0, 0.0, 0.0, 0.0];
    assert BipyramidEquatorialSalcs()[2] == Zero;
    D3hShape();
    assert D3h().irreps[2].chars[0] == 2;
  }

  lemma BipyramidEquatorialCoef3_0()
    ensures DotRange(D3h().irreps[3].chars, BipyramidEquatorialTotals()[0], 0, |D3h().sizes|) == BipyramidEquatorialRawSums()[3][0]
  {
    D3hChars3();
    assert BipyramidEquatorialTotals()[0] == [0.0, 0.0, 0.0, 0.0, 0.0, 0.0];
    assert BipyramidEquatorialRawSums()[3][0] == 0.0;
    assert DotRange([1, 1, 1, -1, -1, -1], [0.0, 0.0, 0.0, 0.0, 0.0, 0.0], 0, 6) == 0.0;
  }

  lemma BipyramidEquatorialCoef3_1()
    ensures DotRange(D3h().irreps[3].chars, BipyramidEquatorialTotals()[1], 0, |D3h().sizes|) == BipyramidEquatorialRawSums()[3][1]
  {
    D3hChars3();
    assert BipyramidEquatorialTotals()[1] == [0.0, 0.0, 0.0, 0.0, 0.0, 0.0];
    assert BipyramidEquatorialRawSums()[3][1] == 0.0;
    assert DotRange([1, 1, 1, -1, -1, -1], [0.0, 0.0, 0.0, 0.0, 0.0, 0.0], 0, 6) == 0.0;
  }

  lemma BipyramidEquatorialCoef3_2()
    ensures DotRange(D3h().irreps[3].chars, BipyramidEquatorialTotals()[2], 0, |D3h().sizes|) == BipyramidEquatorialRawSums()[3][2]
  {
    D3hChars3();
    assert BipyramidEquatorialTotals()[2] == [1.0, 0.0, -1.0, -1.0, 0.0, 1.0];
    assert BipyramidEquatorialRawSums()[3][2] == 0.0;
    assert DotRange([1, 1, 1, -1, -1, -1], [1.0, 0.0, -1.0, -1.0, 0.0, 1.0], 0, 6) == 0.0;
  }

  lemma BipyramidEquatorialCoef3_3()
    ensures DotRange(D3h().irreps[3].chars, BipyramidEquatorialTotals()[3], 0, |D3h().sizes|) == BipyramidEquatorialRawSums()[3][3]
  {
    D3hChars3();
    assert BipyramidEquatorialTotals()[3] == [0.0, 1.0, -1.0, 0.0, -1.0, 1.0];
    assert BipyramidEquatorialRawSums()[3][3] == 0.0;
    assert DotRange([1, 1, 1, -1, -1, -1], [0.0, 1.0, -1.0, 0.0, -1.0, 1.0], 0, 6) == 0.0;
  }

  lemma BipyramidEquatorialCoef3_4()
    ensures DotRange(D3h().irreps[3].chars, BipyramidEquatorialTotals()[4], 0, |D3h().sizes|) == BipyramidEquatorialRawSums()[3][4]
  {
    D3hChars3();
    assert BipyramidEquatorialTotals()[4] == [0.0, 1.0, -1.0, 0.0, -1.0, 1.0];
    assert BipyramidEquatorialRawSums()[3][4] == 0.0;
    assert DotRange([1, 1, 1, -1, -1, -1], [0.0, 1.0, -1.0, 0.0, -1.0, 1.0], 0, 6) == 0.0;
  }

  lemma BipyramidEquatorialCoefs3()
    ensures |BipyramidEquatorialRawSums()[3]| == 5
    ensures forall s: Sym :: s < 5 ==> DotRange(D3h().irreps[3].chars, BipyramidEquatorialTotals()[s], 0, |D3h().sizes|) == BipyramidEquatorialRawSums()[3][s]
  {
    forall s: Sym | s < 5
      ensures DotRange(D3h().irreps[3].chars, BipyramidEquatorialTotals()[s], 0, |D3h().sizes|) == BipyramidEquatorialRawSums()[3][s]
    {
      if s == 0 {
        BipyramidEquatorialCoef3_0();
      } else if s == 1 {
        BipyramidEquatorialCoef3_1();
      } else if s == 2 {
        BipyramidEquatorialCoef3_2();
      } else if s == 3 {
        BipyramidEquatorialCoef3_3();
      } else if s == 4 {
        BipyramidEquatorialCoef3_4();
      }
    }
  }

  lemma BipyramidEquatorialRaw3(v: seq<Lin>)
    requires BipyramidEquatorialLike(v)
    ensures WellFormed(D3h()) && Raw(D3h(), 3, v) == BipyramidEquatorialRawSums()[3]
  {
    D3hWellFormed();
    BipyramidEquatorialCoefs3();
    RawFromCoefs(D3h(), 3, v, 5, BipyramidEquatorialRawSums()[3]);
  }

  lemma BipyramidEquatorialNorm3()
    ensures Dim(D3h().irreps[3]) == 1 && Order(D3h()) == 12
    ensures Normalise(BipyramidEquatorialRawSums()[3], Some(2), Dim(D3h().irreps[3]), Order(D3h())) == BipyramidEquatorialSalcs()[3]
  {
    assert BipyramidEquatorialRawSums()[3] == [0.0, 0.0, 0.0, 0.0, 0.0];
    assert BipyramidEquatorialSalcs()[3] == Zero;
    D3hShape();
    assert D3h().irreps[3].chars[0] == 1;
  }

  lemma BipyramidEquatorialCoef4_0()
    ensures DotRange(D3h().irreps[4].chars, BipyramidEquatorialTotals()[0], 0, |D3h().sizes|) == BipyramidEquatorialRawSums()[4][0]
  {
    D3hChars4();
    assert BipyramidEquatorialTotals()[0] == [0.0, 0.0, 0.0, 0.0, 0.0, 0.0];
    assert BipyramidEquatorialRawSums()[4][0] == 0.0;
    assert DotRange([1, 1, -1, -1, -1, 1], [0.0, 0.0, 0.0, 0.0, 0.0, 0.0], 0, 6) == 0.0;
  }

  lemma BipyramidEquatorialCoef4_1()
    ensures DotRange(D3h().irreps[4].chars, BipyramidEquatorialTotals()[1], 0, |D3h().sizes|) == BipyramidEquatorialRawSums()[4][1]
  {
    D3hChars4();
    assert BipyramidEquatorialTotals()[1] == [0.0, 0.0, 0.0, 0.0, 0.0, 0.0];
    assert BipyramidEquatorialRawSums()[4][1] == 0.0;
    assert DotRange([1, 1, -1, -1, -1, 1], [0.0, 0.0, 0.0, 0.0, 0.0, 0.0], 0, 6) == 0.0;
  }

  lemma BipyramidEquatorialCoef4_2()
    ensures DotRange(D3h().irreps[4].chars, BipyramidEquatorialTotals()[2], 0, |D3h().sizes|) == BipyramidEquatorialRawSums()[4][2]
  {
    D3hChars4();
    assert BipyramidEquatorialTotals()[2] == [1.0, 0.0, -1.0, -1.0, 0.0, 1.0];
    assert BipyramidEquatorialRawSums()[4][2] == 4.0;
    assert DotRange([1, 1, -1, -1, -1, 1], [1.0, 0.0, -1.0, -1.0, 0.0, 1.0], 0, 6) == 4.0;
  }

  lemma BipyramidEquatorialCoef4_3()
    ensures DotRange(D3h().irreps[4].chars, BipyramidEquatorialTotals()[3], 0, |D3h().sizes|) == BipyramidEquatorialRawSums()[4][3]
  {
    D3hChars4();
    assert BipyramidEquatorialTotals()[3] == [0.0, 1.0, -1.0, 0.0, -1.0, 1.0];
    assert BipyramidEquatorialRawSums()[4][3] == 4.0;
    assert DotRange([1, 1, -1, -1, -1, 1], [0.0, 1.0, -1.0, 0.0, -1.0, 1.0], 0, 6) == 4.0;
  }

  lemma BipyramidEquatorialCoef4_4()
    ensures DotRange(D3h().irreps[4].chars, BipyramidEquatorialTotals()[4], 0, |D3h().sizes|) == BipyramidEquatorialRawSums()[4][4]
  {
    D3hChars4();
    assert BipyramidEquatorialTotals()[4] == [0.0, 1.0, -1.0, 0.0, -1.0, 1.0];
    assert BipyramidEquatorialRawSums()[4][4] == 4.0;
    assert DotRange([1, 1, -1, -1, -1, 1], [0.0, 1.0, -1.0, 0.0, -1.0, 1.0], 0, 6) == 4.0;
  }

  lemma BipyramidEquatorialCoefs4()
    ensures |BipyramidEquatorialRawSums()[4]| == 5
    ensures forall s: Sym :: s < 5 ==> DotRange(D3h().irreps[4].chars, BipyramidEquatorialTotals()[s], 0, |D3h().sizes|) == BipyramidEquatorialRawSums()[4][s]
  {
    forall s: Sym | s < 5
      ensures DotRange(D3h().irreps[4].chars, BipyramidEquatorialTotals()[s], 0, |D3h().sizes|) == BipyramidEquatorialRawSums()[4][s]
    {
      if s == 0 {
        BipyramidEquatorialCoef4_0();
      } else if s == 1 {
        BipyramidEquatorialCoef4_1();
      } else if s == 2 {
        BipyramidEquatorialCoef4_2();
      } else if s == 3 {
        BipyramidEquatorialCoef4_3();
      } else if s == 4 {
        BipyramidEquatorialCoef4_4();
      }
    }
  }

  lemma BipyramidEquatorialRaw4(v: seq<Lin>)
    requires BipyramidEquatorialLike(v)
    ensures WellFormed(D3h()) && Raw(D3h(), 4, v) == BipyramidEquatorialRawSums()[4]
  {
    D3hWellFormed();
    BipyramidEquatorialCoefs4();
    RawFromCoefs(D3h(), 4, v, 5, BipyramidEquatorialRawSums()[4]);
  }

  lemma BipyramidEquatorialNorm4()
    ensures Dim(D3h().irreps[4]) == 1 && Order(D3h()) == 12
    ensures Normalise(BipyramidEquatorialRawSums()[4], Some(2), Dim(D3h().irreps[4]), Order(D3h())) == BipyramidEquatorialSalcs()[4]
  {
    assert BipyramidEquatorialRawSums()[4] == [0.0, 0.0, 4.0, 4.0, 4.0];
    assert BipyramidEquatorialSalcs()[4] == Combo([0.0, 0.0, 1.0, 1.0, 1.0]);
    D3hShape();
    assert D3h().irreps[4].chars[0] == 1;
    Extensionality(Scale(1.0 / 4.0, [0.0, 0.0, 4.0, 4.0, 4.0]), [0.0, 0.0, 1.0, 1.0, 1.0]);
  }

  lemma BipyramidEquatorialCoef5_0()
    ensures DotRange(D3h().irreps[5].chars, BipyramidEquatorialTotals()[0], 0, |D3h().sizes|) == BipyramidEquatorialRawSums()[5][0]
  {
    D3hChars5();
    assert BipyramidEquatorialTotals()[0] == [0.0, 0.0, 0.0, 0.0, 0.0, 0.0];
    assert BipyramidEquatorialRawSums()[5][0] == 0.0;
    assert DotRange([2, -1, 0, -2, 1, 0], [0.0, 0.0, 0.0, 0.0, 0.0, 0.0], 0, 6) == 0.0;
  }

  lemma BipyramidEquatorialCoef5_1()
    ensures DotRange(D3h().irreps[5].chars, BipyramidEquatorialTotals()[1], 0, |D3h().sizes|) == BipyramidEquatorialRawSums()[5][1]
  {
    D3hChars5();
    assert BipyramidEquatorialTotals()[1] == [0.0, 0.0, 0.0, 0.0, 0.0, 0.0];
    assert BipyramidEquatorialRawSums()[5][1] == 0.0;
    assert DotRange([2, -1, 0, -2, 1, 0], [0.0, 0.0, 0.0, 0.0, 0.0, 0.0], 0, 6) == 0.0;
  }

  lemma BipyramidEquatorialCoef5_2()
    ensures DotRange(D3h().irreps[5].chars, BipyramidEquatorialTotals()[2], 0, |D3h().sizes|) == BipyramidEquatorialRawSums()[5][2]
  {
    D3hChars5();
    assert BipyramidEquatorialTotals()[2] == [1.0, 0.0, -1.0, -1.0, 0.0, 1.0];
    assert BipyramidEquatorialRawSums()[5][2] == 4.0;
    assert DotRange([2, -1, 0, -2, 1, 0], [1.0, 0.0, -1.0, -1.0, 0.0, 1.0], 0, 6) == 4.0;
  }

  lemma BipyramidEquatorialCoef5_3()
    ensures DotRange(D3h().irreps[5].chars, BipyramidEquatorialTotals()[3], 0, |D3h().sizes|) == BipyramidEquatorialRawSums()[5][3]
  {
    D3hChars5();
    assert BipyramidEquatorialTotals()[3] == [0.0, 1.0, -1.0, 0.0, -1.0, 1.0];
    assert BipyramidEquatorialRawSums()[5][3] == -2.0;
    assert DotRange([2, -1, 0, -2, 1, 0], [0.0, 1.0, -1.0, 0.0, -1.0, 1.0], 0, 6) == -2.0;
  }

  lemma BipyramidEquatorialCoef5_4()
    ensures DotRange(D3h().irreps[5].chars, BipyramidEquatorialTotals()[4], 0, |D3h().sizes|) == BipyramidEquatorialRawSums()[5][4]
  {
    D3hChars5();
    assert BipyramidEquatorialTotals()[4] == [0.0, 1.0, -1.0, 0.0, -1.0, 1.0];
    assert BipyramidEquatorialRawSums()[5][4] == -2.0;
    assert DotRange([2, -1, 0, -2, 1, 0], [0.0, 1.0, -1.0, 0.0, -1.0, 1.0], 0, 6) == -2.0;
  }

  lemma BipyramidEquatorialCoefs5()
    ensures |BipyramidEquatorialRawSums()[5]| == 5
    ensures forall s: Sym :: s < 5 ==> DotRange(D3h().irreps[5].chars, BipyramidEquatorialTotals()[s], 0, |D3h().sizes|) == BipyramidEquatorialRawSums()[5][s]
  {
    forall s: Sym | s < 5
      ensures DotRange(D3h().irreps[5].chars, BipyramidEquatorialTotals()[s], 0, |D3h().sizes|) == BipyramidEquatorialRawSums()[5][s]
    {
      if s == 0 {
        BipyramidEquatorialCoef5_0();
      } else if s == 1 {
        BipyramidEquatorialCoef5_1();
      } else if s == 2 {
        BipyramidEquatorialCoef5_2();
      } else if s == 3 {
        BipyramidEquatorialCoef5_3();
      } else if s == 4 {
        BipyramidEquatorialCoef5_4();
      }
    }
  }

  lemma BipyramidEquatorialRaw5(v: seq<Lin>)
    requires BipyramidEquatorialLike(v)
    ensures WellFormed(D3h()) && Raw(D3h(), 5, v) == BipyramidEquatorialRawSums()[5]
  {
    D3hWellFormed();
    BipyramidEquatorialCoefs5();
    RawFromCoefs(D3h(), 5, v, 5, BipyramidEquatorialRawSums()[5]);
  }

  lemma BipyramidEquatorialNorm5()
    ensures Dim(D3h().irreps[5]) == 2 && Order(D3h()) == 12
    ensures Normalise(BipyramidEquatorialRawSums()[5], Some(2), Dim(D3h().irreps[5]), Order(D3h())) == BipyramidEquatorialSalcs()[5]
  {
    assert BipyramidEquatorialRawSums()[5] == [0.0, 0.0, 4.0, -2.0, -2.0];
    assert BipyramidEquatorialSalcs()[5] == Combo([0.0, 0.0, 1.0, -0.5, -0.5]);
    D3hShape();
    assert D3h().irreps[5].chars[0] == 2;
    Extensionality(Scale(1.0 / 4.0, [0.0, 0.0, 4.0, -2.0, -2.0]), [0.0, 0.0, 1.0, -0.5, -0.5]);
  }

  /** The raw sums of the scenario, one per irreducible representation. */
  function BipyramidEquatorialRawSums(): seq<Lin> {
    [[0.0, 0.0, 0.0, 0.0, 0.0], [0.0, 0.0, 0.0, 0.0, 0.0], [0.0, 0.0, 0.0, 0.0, 0.0], [0.0, 0.0, 0.0, 0.0, 0.0], [0.0, 0.0, 4.0, 4.0, 4.0], [0.0, 0.0, 4.0, -2.0, -2.0]]
  }

  /** The expected results of the scenario. */
  function BipyramidEquatorialSalcs(): seq<Salc> {
    [Zero, Zero, Zero, Zero, Combo([0.0, 0.0, 1.0, 1.0, 1.0]), Combo([0.0, 0.0, 1.0, -0.5, -0.5])]
  }

  /** The projection of every input of this shape. */
  lemma BipyramidEquatorialFor(v: seq<Lin>)
    requires BipyramidEquatorialLike(v)
    ensures Project(v, "d3h") == Ok(BipyramidEquatorialSalcs())
  {
    D3hWellFormed();
    forall i | 0 <= i < 6
      ensures Raw(D3h(), i, v) == BipyramidEquatorialRawSums()[i]
      ensures Normalise(BipyramidEquatorialRawSums()[i], Reference(v), Dim(D3h().irreps[i]), Order(D3h())) == BipyramidEquatorialSalcs()[i]
    {
      if i == 0 {
        BipyramidEquatorialRaw0(v);
        BipyramidEquatorialNorm0();
      } else if i == 1 {
        BipyramidEquatorialRaw1(v);
        BipyramidEquatorialNorm1();
      } else if i == 2 {
        BipyramidEquatorialRaw2(v);
        BipyramidEquatorialNorm2();
      } else if i == 3 {
        BipyramidEquatorialRaw3(v);
        BipyramidEquatorialNorm3();
      } else if i == 4 {
        BipyramidEquatorialRaw4(v);
        BipyramidEquatorialNorm4();
      } else if i == 5 {
        BipyramidEquatorialRaw5(v);
        BipyramidEquatorialNorm5();
      }
    }
    assert Lookup("d3h") == Ok(D3h());
    ProjectFrom(v, "d3h", D3h(), BipyramidEquatorialRawSums(), BipyramidEquatorialSalcs());
  }

  lemma BipyramidEquatorial()
    ensures Project(BipyramidEquatorialInput(), "d3h") == Ok([Zero, Zero, Zero, Zero, Combo([0.0, 0.0, 1.0, 1.0, 1.0]), Combo([0.0, 0.0, 1.0, -0.5, -0.5])])
  {
    BipyramidEquatorialInputLike();
    BipyramidEquatorialFor(BipyramidEquatorialInput());
    assert BipyramidEquatorialSalcs() == [Zero, Zero, Zero, Zero, Combo([0.0, 0.0, 1.0, 1.0, 1.0]), Combo([0.0, 0.0, 1.0, -0.5, -0.5])];
  }

  // ---------------------------------------------------------------------------
  // Trigonal bipyramid, axial positions in D3h (test_salcs.py:23-25): images of a1 and
  // -a2 give A1' = a1 - a2 and A2'' = a1 + a2, zero elsewhere.

  /** The transformed basis, one block per class of D3h (symbols a1, a2, e1, e2, e3 numbered from 0). */
  function BipyramidAxialBlocks(): seq<seq<Lin>> {
    var a1, a2, e1, e2, e3 := Unit(0, 5), Unit(1, 5), Unit(2, 5), Unit(3, 5), Unit(4, 5);
    [[a1], [a1, a1], [Neg(a2), Neg(a2), Neg(a2)], [Neg(a2)], [Neg(a2), Neg(a2)], [a1, a1, a1]]
  }

  function BipyramidAxialInput(): seq<Lin> {
    Concat(BipyramidAxialBlocks())
  }

  /** The class totals of every symbol in the documented input. */
  function BipyramidAxialTotals(): seq<seq<real>> {
    [[1.0, 2.0, 0.0, 0.0, 0.0, 3.0], [0.0, 0.0, -3.0, -1.0, -2.0, 0.0], [0.0, 0.0, 0.0, 0.0, 0.0, 0.0], [0.0, 0.0, 0.0, 0.0, 0.0, 0.0], [0.0, 0.0, 0.0, 0.0, 0.0, 0.0]]
  }

  /** What the projection of this scenario depends on: the length of the input, the
      symbols its entries are written over, the class totals of every symbol and the
      reference symbol. */
  ghost predicate BipyramidAxialLike(v: seq<Lin>) {
    && |v| == 12 == Order(D3h())
    && (forall k :: 0 <= k < |v| ==> |v[k]| == 5)
    && (forall s: Sym :: s < 5 ==> ClassTotals(D3h().sizes, Column(v, s)) == BipyramidAxialTotals()[s])
    && Reference(v) == Some(0)
  }

  lemma BipyramidAxialShape()
    ensures |BipyramidAxialBlocks()| == |D3h().sizes|
    ensures forall c :: 0 <= c < |BipyramidAxialBlocks()| ==> |BipyramidAxialBlocks()[c]| == D3h().sizes[c]
    ensures forall c, k :: 0 <= c < |BipyramidAxialBlocks()| && 0 <= k < |BipyramidAxialBlocks()[c]| ==> |BipyramidAxialBlocks()[c][k]| == 5
  {
  }

  lemma BipyramidAxialTotals0()
    ensures BlockTotals(BipyramidAxialBlocks(), 0) == BipyramidAxialTotals()[0]
  {
    assert BipyramidAxialTotals()[0] == [1.0, 2.0, 0.0, 0.0, 0.0, 3.0];
  }

  lemma BipyramidAxialTotals1()
    ensures BlockTotals(BipyramidAxialBlocks(), 1) == BipyramidAxialTotals()[1]
  {
    assert BipyramidAxialTotals()[1] == [0.0, 0.0, -3.0, -1.0, -2.0, 0.0];
  }

  lemma BipyramidAxialTotals2()
    ensures BlockTotals(BipyramidAxialBlocks(), 2) == BipyramidAxialTotals()[2]
  {
    assert BipyramidAxialTotals()[2] == [0.0, 0.0, 0.0, 0.0, 0.0, 0.0];
  }

  lemma BipyramidAxialTotals3()
    ensures BlockTotals(BipyramidAxialBlocks(), 3) == BipyramidAxialTotals()[3]
  {
    assert BipyramidAxialTotals()[3] == [0.0, 0.0, 0.0, 0.0, 0.0, 0.0];
  }

  lemma BipyramidAxialTotals4()
    ensures BlockTotals(BipyramidAxialBlocks(), 4) == BipyramidAxialTotals()[4]
  {
    assert BipyramidAxialTotals()[4] == [0.0, 0.0, 0.0, 0.0, 0.0, 0.0];
  }

  lemma BipyramidAxialReference()
    ensures |BipyramidAxialInput()| == Order(D3h()) && Reference(BipyramidAxialInput()) == Some(0)
  {
    D3hShape();
    BipyramidAxialShape();
    ConcatLength(D3h().sizes, BipyramidAxialBlocks());
    ConcatAt(D3h().sizes, BipyramidAxialBlocks(), 0, 0);
  }

  /** The documented input has the shape the projection depends on. */
  lemma BipyramidAxialInputLike()
    ensures BipyramidAxialLike(BipyramidAxialInput())
  {
    D3hShape();
    BipyramidAxialShape();
    ConcatWidth(D3h().sizes, BipyramidAxialBlocks(), 5);
    forall s: Sym | s < 5
      ensures ClassTotals(D3h().sizes, Column(BipyramidAxialInput(), s)) == BipyramidAxialTotals()[s]
    {
      BlockClassTotals(D3h().sizes, BipyramidAxialBlocks(), s);
      if s == 0 {
        BipyramidAxialTotals0();
      } else if s == 1 {
        BipyramidAxialTotals1();
      } else if s == 2 {
        BipyramidAxialTotals2();
      } else if s == 3 {
        BipyramidAxialTotals3();
      } else if s == 4 {
        BipyramidAxialTotals4();
      }
    }
    BipyramidAxialReference();
  }

  lemma BipyramidAxialCoef0_0()
    ensures DotRange(D3h().irreps[0].chars, BipyramidAxialTotals()[0], 0, |D3h().sizes|) == BipyramidAxialRawSums()[0][0]
  {
    D3hChars0();
    assert BipyramidAxialTotals()[0] == [1.0, 2.0, 0.0, 0.0, 0.0, 3.0];
    assert BipyramidAxialRawSums()[0][0] == 6.0;
    assert DotRange([1, 1, 1, 1, 1, 1], [1.0, 2.0, 0.0, 0.0, 0.0, 3.0], 0, 6) == 6.0;
  }

  lemma BipyramidAxialCoef0_1()
    ensures DotRange(D3h().irreps[0].chars, BipyramidAxialTotals()[1], 0, |D3h().sizes|) == BipyramidAxialRawSums()[0][1]
  {
    D3hChars0();
    assert BipyramidAxialTotals()[1] == [0.0, 0.0, -3.0, -1.0, -2.0, 0.0];
    assert BipyramidAxialRawSums()[0][1] == -6.0;
    assert DotRange([1, 1, 1, 1, 1, 1], [0.0, 0.0, -3.0, -1.0, -2.0, 0.0], 0, 6) == -6.0;
  }

  lemma BipyramidAxialCoef0_2()
    ensures DotRange(D3h().irreps[0].chars, BipyramidAxialTotals()[2], 0, |D3h().sizes|) == BipyramidAxialRawSums()[0][2]
  {
    D3hChars0();
    assert BipyramidAxialTotals()[2] == [0.0, 0.0, 0.0, 0.0, 0.0, 0.0];
    assert BipyramidAxialRawSums()[0][2] == 0.0;
    assert DotRange([1, 1, 1, 1, 1, 1], [0.0, 0.0, 0.0, 0.0, 0.0, 0.0], 0, 6) == 0.0;
  }

  lemma BipyramidAxialCoef0_3()
    ensures DotRange(D3h().irreps[0].chars, BipyramidAxialTotals()[3], 0, |D3h().sizes|) == BipyramidAxialRawSums()[0][3]
  {
    D3hChars0();
    assert BipyramidAxialTotals()[3] == [0.0, 0.0, 0.0, 0.0, 0.0, 0.0];
    assert BipyramidAxialRawSums()[0][3] == 0.0;
    assert DotRange([1, 1, 1, 1, 1, 1], [0.0, 0.0, 0.0, 0.0, 0.0, 0.0], 0, 6) == 0.0;
  }

  lemma BipyramidAxialCoef0_4()
    ensures DotRange(D3h().irreps[0].chars, BipyramidAxialTotals()[4], 0, |D3h().sizes|) == BipyramidAxialRawSums()[0][4]
  {
    D3hChars0();
    assert BipyramidAxialTotals()[4] == [0.0, 0.0, 0.0, 0.0, 0.0, 0.0];
    assert BipyramidAxialRawSums()[0][4] == 0.0;
    assert DotRange([1, 1, 1, 1, 1, 1], [0.0, 0.0, 0.0, 0.0, 0.0, 0.0], 0, 6) == 0.0;
  }

  lemma BipyramidAxialCoefs0()
    ensures |BipyramidAxialRawSums()[0]| == 5
    ensures forall s: Sym :: s < 5 ==> DotRange(D3h().irreps[0].chars, BipyramidAxialTotals()[s], 0, |D3h().sizes|) == BipyramidAxialRawSums()[0][s]
  {
    forall s: Sym | s < 5
      ensures DotRange(D3h().irreps[0].chars, BipyramidAxialTotals()[s], 0, |D3h().sizes|) == BipyramidAxialRawSums()[0][s]
    {
      if s == 0 {
        BipyramidAxialCoef0_0();
      } else if s == 1 {
        BipyramidAxialCoef0_1();
      } else if s == 2 {
        BipyramidAxialCoef0_2();
      } else if s == 3 {
        BipyramidAxialCoef0_3();
      } else if s == 4 {
        BipyramidAxialCoef0_4();
      }
    }
  }

  lemma BipyramidAxialRaw0(v: seq<Lin>)
    requires BipyramidAxialLike(v)
    ensures WellFormed(D3h()) && Raw(D3h(), 0, v) == BipyramidAxialRawSums()[0]
  {
    D3hWellFormed();
    BipyramidAxialCoefs0();
    RawFromCoefs(D3h(), 0, v, 5, BipyramidAxialRawSums()[0]);
  }

  lemma BipyramidAxialNorm0()
    ensures Dim(D3h().irreps[0]) == 1 && Order(D3h()) == 12
    ensures Normalise(BipyramidAxialRawSums()[0], Some(0), Dim(D3h().irreps[0]), Order(D3h())) == BipyramidAxialSalcs()[0]
  {
    assert BipyramidAxialRawSums()[0] == [6.0, -6.0, 0.0, 0.0, 0.0];
    assert BipyramidAxialSalcs()[0] == Combo([1.0, -1.0, 0.0, 0.0, 0.0]);
    D3hShape();
    assert D3h().irreps[0].chars[0] == 1;
    Extensionality(Scale(1.0 / 6.0, [6.0, -6.0, 0.0, 0.0, 0.0]), [1.0, -1.0, 0.0, 0.0, 0.0]);
  }

  lemma BipyramidAxialCoef1_0()
    ensures DotRange(D3h().irreps[1].chars, BipyramidAxialTotals()[0], 0, |D3h().sizes|) == BipyramidAxialRawSums()[1][0]
  {
    D3hChars1();
    assert BipyramidAxialTotals()[0] == [1.0, 2.0, 0.0, 0.0, 0.0, 3.0];
    assert BipyramidAxialRawSums()[1][0] == 0.0;
    assert DotRange([1, 1, -1, 1, 1, -1], [1.0, 2.0, 0.0, 0.0, 0.0, 3.0], 0, 6) == 0.0;
  }

  lemma BipyramidAxialCoef1_1()
    ensures DotRange(D3h().irreps[1].chars, BipyramidAxialTotals()[1], 0, |D3h().sizes|) == BipyramidAxialRawSums()[1][1]
  {
    D3hChars1();
    assert BipyramidAxialTotals()[1] == [0.0, 0.0, -3.0, -1.0, -2.0, 0.0];
    assert BipyramidAxialRawSums()[1][1] == 0.0;
    assert DotRange([1, 1, -1, 1, 1, -1], [0.0, 0.0, -3.0, -1.0, -2.0, 0.0], 0, 6) == 0.0;
  }

  lemma BipyramidAxialCoef1_2()
    ensures DotRange(D3h().irreps[1].chars, BipyramidAxialTotals()[2], 0, |D3h().sizes|) == BipyramidAxialRawSums()[1][2]
  {
    D3hChars1();
    assert BipyramidAxialTotals()[2] == [0.0, 0.0, 0.0, 0.0, 0.0, 0.0];
    assert BipyramidAxialRawSums()[1][2] == 0.0;
    assert DotRange([1, 1, -1, 1, 1, -1], [0.0, 0.0, 0.0, 0.0, 0.0, 0.0], 0, 6) == 0.0;
  }

  lemma BipyramidAxialCoef1_3()
    ensures DotRange(D3h().irreps[1].chars, BipyramidAxialTotals()[3], 0, |D3h().sizes|) == BipyramidAxialRawSums()[1][3]
  {
    D3hChars1();
    assert BipyramidAxialTotals()[3] == [0.0, 0.0, 0.0, 0.0, 0.0, 0.0];
    assert BipyramidAxialRawSums()[1][3] == 0.0;
    assert DotRange([1, 1, -1, 1, 1, -1], [0.0, 0.0, 0.0, 0.0, 0.0, 0.0], 0, 6) == 0.0;
  }

  lemma BipyramidAxialCoef1_4()
    ensures DotRange(D3h().irreps[1].chars, BipyramidAxialTotals()[4], 0, |D3h().sizes|) == BipyramidAxialRawSums()[1][4]
  {
    D3hChars1();
    assert BipyramidAxialTotals()[4] == [0.0, 0.0, 0.0, 0.0, 0.0, 0.0];
    assert BipyramidAxialRawSums()[1][4] == 0.0;
    assert DotRange([1, 1, -1, 1, 1, -1], [0.0, 0.0, 0.0, 0.0, 0.0, 0.0], 0, 6) == 0.0;
  }

  lemma BipyramidAxialCoefs1()
    ensures |BipyramidAxialRawSums()[1]| == 5
    ensures forall s: Sym :: s < 5 ==> DotRange(D3h().irreps[1].chars, BipyramidAxialTotals()[s], 0, |D3h().sizes|) == BipyramidAxialRawSums()[1][s]
  {
    forall s: Sym | s < 5
      ensures DotRange(D3h().irreps[1].chars, BipyramidAxialTotals()[s], 0, |D3h().sizes|) == BipyramidAxialRawSums()[1][s]
    {
      if s == 0 {
        BipyramidAxialCoef1_0();
      } else if s == 1 {
        BipyramidAxialCoef1_1();
      } else if s == 2 {
        BipyramidAxialCoef1_2();
      } else if s == 3 {
        BipyramidAxialCoef1_3();
      } else if s == 4 {
        BipyramidAxialCoef1_4();
      }
    }
  }

  lemma BipyramidAxialRaw1(v: seq<Lin>)
    requires BipyramidAxialLike(v)
    ensures WellFormed(D3h()) && Raw(D3h(), 1, v) == BipyramidAxialRawSums()[1]
  {
    D3hWellFormed();
    BipyramidAxialCoefs1();
    RawFromCoefs(D3h(), 1, v, 5, BipyramidAxialRawSums()[1]);
  }

  lemma BipyramidAxialNorm1()
    ensures Dim(D3h().irreps[1]) == 1 && Order(D3h()) == 12
    ensures Normalise(BipyramidAxialRawSums()[1], Some(0), Dim(D3h().irreps[1]), Order(D3h())) == BipyramidAxialSalcs()[1]
  {
    assert BipyramidAxialRawSums()[1] == [0.0, 0.0, 0.0, 0.0, 0.0];
    assert BipyramidAxialSalcs()[1] == Zero;
    D3hShape();
    assert D3h().irreps[1].chars[0] == 1;
  }

  lemma BipyramidAxialCoef2_0()
    ensures DotRange(D3h().irreps[2].chars, BipyramidAxialTotals()[0], 0, |D3h().sizes|) == BipyramidAxialRawSums()[2][0]
  {
    D3hChars2();
    assert BipyramidAxialTotals()[0] == [1.0, 2.0, 0.0, 0.0, 0.0, 3.0];
    assert BipyramidAxialRawSums()[2][0] == 0.0;
    assert DotRange([2, -1, 0, 2, -1, 0], [1.0, 2.0, 0.0, 0.0, 0.0, 3.0], 0, 6) == 0.0;
  }

  lemma BipyramidAxialCoef2_1()
    ensures DotRange(D3h().irreps[2].chars, BipyramidAxialTotals()[1], 0, |D3h().sizes|) == BipyramidAxialRawSums()[2][1]
  {
    D3hChars2();
    assert BipyramidAxialTotals()[1] == [0.0, 0.0, -3.0, -1.0, -2.0, 0.0];
    assert BipyramidAxialRawSums()[2][1] == 0.0;
    assert DotRange([2, -1, 0, 2, -1, 0], [0.0, 0.0, -3.0, -1.0, -2.0, 0.0], 0, 6) == 0.0;
  }

  lemma BipyramidAxialCoef2_2()
    ensures DotRange(D3h().irreps[2].chars, BipyramidAxialTotals()[2], 0, |D3h().sizes|) == BipyramidAxialRawSums()[2][2]
  {
    D3hChars2();
    assert BipyramidAxialTotals()[2] == [0.0, 0.0, 0.0, 0.0, 0.0, 0.0];
    assert BipyramidAxialRawSums()[2][2] == 0.0;
    assert DotRange([2, -1, 0, 2, -1, 0], [0.0, 0.0, 0.0, 0.0, 0.0, 0.0], 0, 6) == 0.0;
  }

  lemma BipyramidAxialCoef2_3()
    ensures DotRange(D3h().irreps[2].chars, BipyramidAxialTotals()[3], 0, |D3h().sizes|) == BipyramidAxialRawSums()[2][3]
  {
    D3hChars2();
    assert BipyramidAxialTotals()[3] == [0.0, 0.0, 0.0, 0.0, 0.0, 0.0];
    assert BipyramidAxialRawSums()[2][3] == 0.0;
    assert DotRange([2, -1, 0, 2, -1, 0], [0.0, 0.0, 0.0, 0.0, 0.0, 0.0], 0, 6) == 0.0;
  }

  lemma BipyramidAxialCoef2_4()
    ensures DotRange(D3h().irreps[2].chars, BipyramidAxialTotals()[4], 0, |D3h().sizes|) == BipyramidAxialRawSums()[2][4]
  {
    D3hChars2();
    assert BipyramidAxialTotals()[4] == [0.0, 0.0, 0.0, 0.0, 0.0, 0.0];
    assert BipyramidAxialRawSums()[2][4] == 0.0;
    assert DotRange([2, -1, 0, 2, -1, 0], [0.0, 0.0, 0.0, 0.0, 0.0, 0.0], 0, 6) == 0.0;
  }

  lemma BipyramidAxialCoefs2()
    ensures |BipyramidAxialRawSums()[2]| == 5
    ensures forall s: Sym :: s < 5 ==> DotRange(D3h().irreps[2].chars, BipyramidAxialTotals()[s], 0, |D3h().sizes|) == BipyramidAxialRawSums()[2][s]
  {
    forall s: Sym | s < 5
      ensures DotRange(D3h().irreps[2].chars, BipyramidAxialTotals()[s], 0, |D3h().sizes|) == BipyramidAxialRawSums()[2][s]
    {
      if s == 0 {
        BipyramidAxialCoef2_0();
      } else if s == 1 {
        BipyramidAxialCoef2_1();
      } else if s == 2 {
        BipyramidAxialCoef2_2();
      } else if s == 3 {
        BipyramidAxialCoef2_3();
      } else if s == 4 {
        BipyramidAxialCoef2_4();
      }
    }
  }

  lemma BipyramidAxialRaw2(v: seq<Lin>)
    requires BipyramidAxialLike(v)
    ensures WellFormed(D3h()) && Raw(D3h(), 2, v) == BipyramidAxialRawSums()[2]
  {
    D3hWellFormed();
    BipyramidAxialCoefs2();
    RawFromCoefs(D3h(), 2, v, 5, BipyramidAxialRawSums()[2]);
  }

  lemma BipyramidAxialNorm2()
    ensures Dim(D3h().irreps[2]) == 2 && Order(D3h()) == 12
    ensures Normalise(BipyramidAxialRawSums()[2], Some(0), Dim(D3h().irreps[2]), Order(D3h())) == BipyramidAxialSalcs()[2]
  {
    assert BipyramidAxialRawSums()[2] == [0.0, 0.0, 0.0, 0.0, 0.0];
    assert BipyramidAxialSalcs()[2] == Zero;
    D3hShape();
    assert D3h().irreps[2].chars[0] == 2;
  }

  lemma BipyramidAxialCoef3_0()
    ensures DotRange(D3h().irreps[3].chars, BipyramidAxialTotals()[0], 0, |D3h().sizes|) == BipyramidAxialRawSums()[3][0]
  {
    D3hChars3();
    assert BipyramidAxialTotals()[0] == [1.0, 2.0, 0.0, 0.0, 0.0, 3.0];
    assert BipyramidAxialRawSums()[3][0] == 0.0;
    assert DotRange([1, 1, 1, -1, -1, -1], [1.0, 2.0, 0.0, 0.0, 0.0, 3.0], 0, 6) == 0.0;
  }

  lemma BipyramidAxialCoef3_1()
    ensures DotRange(D3h().irreps[3].chars, BipyramidAxialTotals()[1], 0, |D3h().sizes|) == BipyramidAxialRawSums()[3][1]
  {
    D3hChars3();
    assert BipyramidAxialTotals()[1] == [0.0, 0.0, -3.0, -1.0, -2.0, 0.0];
    assert BipyramidAxialRawSums()[3][1] == 0.0;
    assert DotRange([1, 1, 1, -1, -1, -1], [0.0, 0.0, -3.0, -1.0, -2.0, 0.0], 0, 6) == 0.0;
  }

  lemma BipyramidAxialCoef3_2()
    ensures DotRange(D3h().irreps[3].chars, BipyramidAxialTotals()[2], 0, |D3h().sizes|) == BipyramidAxialRawSums()[3][2]
  {
    D3hChars3();
    assert BipyramidAxialTotals()[2] == [0.0, 0.0, 0.0, 0.0, 0.0, 0.0];
    assert BipyramidAxialRawSums()[3][2] == 0.0;
    assert DotRange([1, 1, 1, -1, -1, -1], [0.0, 0.0, 0.0, 0.0, 0.0, 0.0], 0, 6) == 0.0;
  }

  lemma BipyramidAxialCoef3_3()
    ensures DotRange(D3h().irreps[3].chars, BipyramidAxialTotals()[3], 0, |D3h().sizes|) == BipyramidAxialRawSums()[3][3]
  {
    D3hChars3();
    assert BipyramidAxialTotals()[3] == [0.0, 0.0, 0.0, 0.0, 0.0, 0.0];
    assert BipyramidAxialRawSums()[3][3] == 0.0;
    assert DotRange([1, 1, 1, -1, -1, -1], [0.0, 0.0, 0.0, 0.0, 0.0, 0.0], 0, 6) == 0.0;
  }

  lemma BipyramidAxialCoef3_4()
    ensures DotRange(D3h().irreps[3].chars, BipyramidAxialTotals()[4], 0, |D3h().sizes|) == BipyramidAxialRawSums()[3][4]
  {
    D3hChars3();
    assert BipyramidAxialTotals()[4] == [0.0, 0.0, 0.0, 0.0, 0.0, 0.0];
    assert BipyramidAxialRawSums()[3][4] == 0.0;
    assert DotRange([1, 1, 1, -1, -1, -1], [0.0, 0.0, 0.0, 0.0, 0.0, 0.0], 0, 6) == 0.0;
  }

  lemma BipyramidAxialCoefs3()
    ensures |BipyramidAxialRawSums()[3]| == 5
    ensures forall s: Sym :: s < 5 ==> DotRange(D3h().irreps[3].chars, BipyramidAxialTotals()[s], 0, |D3h().sizes|) == BipyramidAxialRawSums()[3][s]
  {
    forall s: Sym | s < 5
      ensures DotRange(D3h().irreps[3].chars, BipyramidAxialTotals()[s], 0, |D3h().sizes|) == BipyramidAxialRawSums()[3][s]
    {
      if s == 0 {
        BipyramidAxialCoef3_0();
      } else if s == 1 {
        BipyramidAxialCoef3_1();
      } else if s == 2 {
        BipyramidAxialCoef3_2();
      } else if s == 3 {
        BipyramidAxialCoef3_3();
      } else if s == 4 {
        BipyramidAxialCoef3_4();
      }
    }
  }

  lemma BipyramidAxialRaw3(v: seq<Lin>)
    requires BipyramidAxialLike(v)
    ensures WellFormed(D3h()) && Raw(D3h(), 3, v) == BipyramidAxialRawSums()[3]
  {
    D3hWellFormed();
    BipyramidAxialCoefs3();
    RawFromCoefs(D3h(), 3, v, 5, BipyramidAxialRawSums()[3]);
  }

  lemma BipyramidAxialNorm3()
    ensures Dim(D3h().irreps[3]) == 1 && Order(D3h()) == 12
    ensures Normalise(BipyramidAxialRawSums()[3], Some(0), Dim(D3h().irreps[3]), Order(D3h())) == BipyramidAxialSalcs()[3]
  {
    assert BipyramidAxialRawSums()[3] == [0.0, 0.0, 0.0, 0.0, 0.0];
    assert BipyramidAxialSalcs()[3] == Zero;
    D3hShape();
    assert D3h().irreps[3].chars[0] == 1;
  }

  lemma BipyramidAxialCoef4_0()
    ensures DotRange(D3h().irreps[4].chars, BipyramidAxialTotals()[0], 0, |D3h().sizes|) == BipyramidAxialRawSums()[4][0]
  {
    D3hChars4();
    assert BipyramidAxialTotals()[0] == [1.0, 2.0, 0.0, 0.0, 0.0, 3.0];
    assert BipyramidAxialRawSums()[4][0] == 6.0;
    assert DotRange([1, 1, -1, -1, -1, 1], [1.0, 2.0, 0.0, 0.0, 0.0, 3.0], 0, 6) == 6.0;
  }

  lemma BipyramidAxialCoef4_1()
    ensures DotRange(D3h().irreps[4].chars, BipyramidAxialTotals()[1], 0, |D3h().sizes|) == BipyramidAxialRawSums()[4][1]
  {
    D3hChars4();
    assert BipyramidAxialTotals()[1] == [0.0, 0.0, -3.0, -1.0, -2.0, 0.0];
    assert BipyramidAxialRawSums()[4][1] == 6.0;
    assert DotRange([1, 1, -1, -1, -1, 1], [0.0, 0.0, -3.0, -1.0, -2.0, 0.0], 0, 6) == 6.0;
  }

  lemma BipyramidAxialCoef4_2()
    ensures DotRange(D3h().irreps[4].chars, BipyramidAxialTotals()[2], 0, |D3h().sizes|) == BipyramidAxialRawSums()[4][2]
  {
    D3hChars4();
    assert BipyramidAxialTotals()[2] == [0.0, 0.0, 0.0, 0.0, 0.0, 0.0];
    assert BipyramidAxialRawSums()[4][2] == 0.0;
    assert DotRange([1, 1, -1, -1, -1, 1], [0.0, 0.0, 0.0, 0.0, 0.0, 0.0], 0, 6) == 0.0;
  }

  lemma BipyramidAxialCoef4_3()
    ensures DotRange(D3h().irreps[4].chars, BipyramidAxialTotals()[3], 0, |D3h().sizes|) == BipyramidAxialRawSums()[4][3]
  {
    D3hChars4();
    assert BipyramidAxialTotals()[3] == [0.0, 0.0, 0.0, 0.0, 0.0, 0.0];
    assert BipyramidAxialRawSums()[4][3] == 0.0;
    assert DotRange([1, 1, -1, -1, -1, 1], [0.0, 0.0, 0.0, 0.0, 0.0, 0.0], 0, 6) == 0.0;
  }

  lemma BipyramidAxialCoef4_4()
    ensures DotRange(D3h().irreps[4].chars, BipyramidAxialTotals()[4], 0, |D3h().sizes|) == BipyramidAxialRawSums()[4][4]
  {
    D3hChars4();
    assert BipyramidAxialTotals()[4] == [0.0, 0.0, 0.0, 0.0, 0.0, 0.0];
    assert BipyramidAxialRawSums()[4][4] == 0.0;
    assert DotRange([1, 1, -1, -1, -1, 1], [0.0, 0.0, 0.0, 0.0, 0.0, 0.0], 0, 6) == 0.0;
  }

  lemma BipyramidAxialCoefs4()
    ensures |BipyramidAxialRawSums()[4]| == 5
    ensures forall s: Sym :: s < 5 ==> DotRange(D3h().irreps[4].chars, BipyramidAxialTotals()[s], 0, |D3h().sizes|) == BipyramidAxialRawSums()[4][s]
  {
    forall s: Sym | s < 5
      ensures DotRange(D3h().irreps[4].chars, BipyramidAxialTotals()[s], 0, |D3h().sizes|) == BipyramidAxialRawSums()[4][s]
    {
      if s == 0 {
        BipyramidAxialCoef4_0();
      } else if s == 1 {
        BipyramidAxialCoef4_1();
      } else if s == 2 {
        BipyramidAxialCoef4_2();
      } else if s == 3 {
        BipyramidAxialCoef4_3();
      } else if s == 4 {
        BipyramidAxialCoef4_4();
      }
    }
  }

  lemma BipyramidAxialRaw4(v: seq<Lin>)
    requires BipyramidAxialLike(v)
    ensures WellFormed(D3h()) && Raw(D3h(), 4, v) == BipyramidAxialRawSums()[4]
  {
    D3hWellFormed();
    BipyramidAxialCoefs4();
    RawFromCoefs(D3h(), 4, v, 5, BipyramidAxialRawSums()[4]);
  }

  lemma BipyramidAxialNorm4()
    ensures Dim(D3h().irreps[4]) == 1 && Order(D3h()) == 12
    ensures Normalise(BipyramidAxialRawSums()[4], Some(0), Dim(D3h().irreps[4]), Order(D3h())) == BipyramidAxialSalcs()[4]
  {
    assert BipyramidAxialRawSums()[4] == [6.0, 6.0, 0.0, 0.0, 0.0];
    assert BipyramidAxialSalcs()[4] == Combo([1.0, 1.0, 0.0, 0.0, 0.0]);
    D3hShape();
    assert D3h().irreps[4].chars[0] == 1;
    Extensionality(Scale(1.0 / 6.0, [6.0, 6.0, 0.0, 0.0, 0.0]), [1.0, 1.0, 0.0, 0.0, 0.0]);
  }

  lemma BipyramidAxialCoef5_0()
    ensures DotRange(D3h().irreps[5].chars, BipyramidAxialTotals()[0], 0, |D3h().sizes|) == BipyramidAxialRawSums()[5][0]
  {
    D3hChars5();
    assert BipyramidAxialTotals()[0] == [1.0, 2.0, 0.0, 0.0, 0.0, 3.0];
    assert BipyramidAxialRawSums()[5][0] == 0.0;
    assert DotRange([2, -1, 0, -2, 1, 0], [1.0, 2.0, 0.0, 0.0, 0.0, 3.0], 0, 6) == 0.0;
  }

  lemma BipyramidAxialCoef5_1()
    ensures DotRange(D3h().irreps[5].chars, BipyramidAxialTotals()[1], 0, |D3h().sizes|) == BipyramidAxialRawSums()[5][1]
  {
    D3hChars5();
    assert BipyramidAxialTotals()[1] == [0.0, 0.0, -3.0, -1.0, -2.0, 0.0];
    assert BipyramidAxialRawSums()[5][1] == 0.0;
    assert DotRange([2, -1, 0, -2, 1, 0], [0.0, 0.0, -3.0, -1.0, -2.0, 0.0], 0, 6) == 0.0;
  }

  lemma BipyramidAxialCoef5_2()
    ensures DotRange(D3h().irreps[5].chars, BipyramidAxialTotals()[2], 0, |D3h().sizes|) == BipyramidAxialRawSums()[5][2]
  {
    D3hChars5();
    assert BipyramidAxialTotals()[2] == [0.0, 0.0, 0.0, 0.0, 0.0, 0.0];
    assert BipyramidAxialRawSums()[5][2] == 0.0;
    assert DotRange([2, -1, 0, -2, 1, 0], [0.0, 0.0, 0.0, 0.0, 0.0, 0.0], 0, 6) == 0.0;
  }

  lemma BipyramidAxialCoef5_3()
    ensures DotRange(D3h().irreps[5].chars, BipyramidAxialTotals()[3], 0, |D3h().sizes|) == BipyramidAxialRawSums()[5][3]
  {
    D3hChars5();
    assert BipyramidAxialTotals()[3] == [0.0, 0.0, 0.0, 0.0, 0.0, 0.0];
    assert BipyramidAxialRawSums()[5][3] == 0.0;
    assert DotRange([2, -1, 0, -2, 1, 0], [0.0, 0.0, 0.0, 0.0, 0.0, 0.0], 0, 6) == 0.0;
  }

  lemma BipyramidAxialCoef5_4()
    ensures DotRange(D3h().irreps[5].chars, BipyramidAxialTotals()[4], 0, |D3h().sizes|) == BipyramidAxialRawSums()[5][4]
  {
    D3hChars5();
    assert BipyramidAxialTotals()[4] == [0.0, 0.0, 0.0, 0.0, 0.0, 0.0];
    assert BipyramidAxialRawSums()[5][4] == 0.0;
    assert DotRange([2, -1, 0, -2, 1, 0], [0.0, 0.0, 0.0, 0.0, 0.0, 0.0], 0, 6) == 0.0;
  }

  lemma BipyramidAxialCoefs5()
    ensures |BipyramidAxialRawSums()[5]| == 5
    ensures forall s: Sym :: s < 5 ==> DotRange(D3h().irreps[5].chars, BipyramidAxialTotals()[s], 0, |D3h().sizes|) == BipyramidAxialRawSums()[5][s]
  {
    forall s: Sym | s < 5
      ensures DotRange(D3h().irreps[5].chars, BipyramidAxialTotals()[s], 0, |D3h().sizes|) == BipyramidAxialRawSums()[5][s]
    {
      if s == 0 {
        BipyramidAxialCoef5_0();
      } else if s == 1 {
        BipyramidAxialCoef5_1();
      } else if s == 2 {
        BipyramidAxialCoef5_2();
      } else if s == 3 {
        BipyramidAxialCoef5_3();
      } else if s == 4 {
        BipyramidAxialCoef5_4();
      }
    }
  }

  lemma BipyramidAxialRaw5(v: seq<Lin>)
    requires BipyramidAxialLike(v)
    ensures WellFormed(D3h()) && Raw(D3h(), 5, v) == BipyramidAxialRawSums()[5]
  {
    D3hWellFormed();
    BipyramidAxialCoefs5();
    RawFromCoefs(D3h(), 5, v, 5, BipyramidAxialRawSums()[5]);
  }

  lemma BipyramidAxialNorm5()
    ensures Dim(D3h().irreps[5]) == 2 && Order(D3h()) == 12
    ensures Normalise(BipyramidAxialRawSums()[5], Some(0), Dim(D3h().irreps[5]), Order(D3h())) == BipyramidAxialSalcs()[5]
  {
    assert BipyramidAxialRawSums()[5] == [0.0, 0.0, 0.0, 0.0, 0.0];
    assert BipyramidAxialSalcs()[5] == Zero;
    D3hShape();
    assert D3h().irreps[5].chars[0] == 2;
  }

  /** The raw sums of the scenario, one per irreducible representation. */
  function BipyramidAxialRawSums(): seq<Lin> {
    [[6.0, -6.0, 0.0, 0.0, 0.0], [0.0, 0.0, 0.0, 0.0, 0.0], [0.0, 0.0, 0.0, 0.0, 0.0], [0.0, 0.0, 0.0, 0.0, 0.0], [6.0, 6.0, 0.0, 0.0, 0.0], [0.0, 0.0, 0.0, 0.0, 0.0]]
  }

  /** The expected results of the scenario. */
  function BipyramidAxialSalcs(): seq<Salc> {
    [Combo([1.0, -1.0, 0.0, 0.0, 0.0]), Zero, Zero, Zero, Combo([1.0, 1.0, 0.0, 0.0, 0.0]), Zero]
  }

  /** The projection of every input of this shape. */
  lemma BipyramidAxialFor(v: seq<Lin>)
    requires BipyramidAxialLike(v)
    ensures Project(v, "d3h") == Ok(BipyramidAxialSalcs())
  {
    D3hWellFormed();
    forall i | 0 <= i < 6
      ensures Raw(D3h(), i, v) == BipyramidAxialRawSums()[i]
      ensures Normalise(BipyramidAxialRawSums()[i], Reference(v), Dim(D3h().irreps[i]), Order(D3h())) == BipyramidAxialSalcs()[i]
    {
      if i == 0 {
        BipyramidAxialRaw0(v);
        BipyramidAxialNorm0();
      } else if i == 1 {
        BipyramidAxialRaw1(v);
        BipyramidAxialNorm1();
      } else if i == 2 {
        BipyramidAxialRaw2(v);
        BipyramidAxialNorm2();
      } else if i == 3 {
        BipyramidAxialRaw3(v);
        BipyramidAxialNorm3();
      } else if i == 4 {
        BipyramidAxialRaw4(v);
        BipyramidAxialNorm4();
      } else if i == 5 {
        BipyramidAxialRaw5(v);
        BipyramidAxialNorm5();
      }
    }
    assert Lookup("d3h") == Ok(D3h());
    ProjectFrom(v, "d3h", D3h(), BipyramidAxialRawSums(), BipyramidAxialSalcs());
  }

  lemma BipyramidAxial()
    ensures Project(BipyramidAxialInput(), "d3h") == Ok([Combo([1.0, -1.0, 0.0, 0.0, 0.0]), Zero, Zero, Zero, Combo([1.0, 1.0, 0.0, 0.0, 0.0]), Zero])
  {
    BipyramidAxialInputLike();
    BipyramidAxialFor(BipyramidAxialInput());
    assert BipyramidAxialSalcs() == [Combo([1.0, -1.0, 0.0, 0.0, 0.0]), Zero, Zero, Zero, Combo([1.0, 1.0, 0.0, 0.0, 0.0]), Zero];
  }

  // ---------------------------------------------------------------------------
  // Square-planar s orbitals in D4h (test_salcs.py:27-31): A1g = a + b + c + d,
  // B1g = a - b + c - d, Eu = a - c, zero for the other seven representations.

  /** The transformed basis, one block per class of D4h (symbols a, b, c, d numbered from 0). */
  function SquarePlanarBlocks(): seq<seq<Lin>> {
    var a, b, c, d := Unit(0, 4), Unit(1, 4), Unit(2, 4), Unit(3, 4);
    [[a], [b, d], [c], [c, a], [d, b], [c], [b, d], [a], [c, a], [d, b]]
  }

  function SquarePlanarInput(): seq<Lin> {
    Concat(SquarePlanarBlocks())
  }

  /** The class totals of every symbol in the documented input. */
  function SquarePlanarTotals(): seq<seq<real>> {
    [[1.0, 0.0, 0.0, 1.0, 0.0, 0.0, 0.0, 1.0, 1.0, 0.0], [0.0, 1.0, 0.0, 0.0, 1.0, 0.0, 1.0, 0.0, 0.0, 1.0], [0.0, 0.0, 1.0, 1.0, 0.0, 1.0, 0.0, 0.0, 1.0, 0.0], [0.0, 1.0, 0.0, 0.0, 1.0, 0.0, 1.0, 0.0, 0.0, 1.0]]
  }

  /** What the projection of this scenario depends on: the length of the input, the
      symbols its entries are written over, the class totals of every symbol and the
      reference symbol. */
  ghost predicate SquarePlanarLike(v: seq<Lin>) {
    && |v| == 16 == Order(D4h())
    && (forall k :: 0 <= k < |v| ==> |v[k]| == 4)
    && (forall s: Sym :: s < 4 ==> ClassTotals(D4h().sizes, Column(v, s)) == SquarePlanarTotals()[s])
    && Reference(v) == Some(0)
  }

  lemma SquarePlanarShape()
    ensures |SquarePlanarBlocks()| == |D4h().sizes|
    ensures forall c :: 0 <= c < |SquarePlanarBlocks()| ==> |SquarePlanarBlocks()[c]| == D4h().sizes[c]
    ensures forall c, k :: 0 <= c < |SquarePlanarBlocks()| && 0 <= k < |SquarePlanarBlocks()[c]| ==> |SquarePlanarBlocks()[c][k]| == 4
  {
  }

  lemma SquarePlanarTotals0()
    ensures BlockTotals(SquarePlanarBlocks(), 0) == SquarePlanarTotals()[0]
  {
    assert SquarePlanarTotals()[0] == [1.0, 0.0, 0.0, 1.0, 0.0, 0.0, 0.0, 1.0, 1.0, 0.0];
  }

  lemma SquarePlanarTotals1()
    ensures BlockTotals(SquarePlanarBlocks(), 1) == SquarePlanarTotals()[1]
  {
    assert SquarePlanarTotals()[1] == [0.0, 1.0, 0.0, 0.0, 1.0, 0.0, 1.0, 0.0, 0.0, 1.0];
  }

  lemma SquarePlanarTotals2()
    ensures BlockTotals(SquarePlanarBlocks(), 2) == SquarePlanarTotals()[2]
  {
    assert SquarePlanarTotals()[2] == [0.0, 0.0, 1.0, 1.0, 0.0, 1.0, 0.0, 0.0, 1.0, 0.0];
  }

  lemma SquarePlanarTotals3()
    ensures BlockTotals(SquarePlanarBlocks(), 3) == SquarePlanarTotals()[3]
  {
    assert SquarePlanarTotals()[3] == [0.0, 1.0, 0.0, 0.0, 1.0, 0.0, 1.0, 0.0, 0.0, 1.0];
  }

  lemma SquarePlanarReference()
    ensures |SquarePlanarInput()| == Order(D4h()) && Reference(SquarePlanarInput()) == Some(0)
  {
    D4hShape();
    SquarePlanarShape();
    ConcatLength(D4h().sizes, SquarePlanarBlocks());
    ConcatAt(D4h().sizes, SquarePlanarBlocks(), 0, 0);
  }

  /** The documented input has the shape the projection depends on. */
  lemma SquarePlanarInputLike()
    ensures SquarePlanarLike(SquarePlanarInput())
  {
    D4hShape();
    SquarePlanarShape();
    ConcatWidth(D4h().sizes, SquarePlanarBlocks(), 4);
    forall s: Sym | s < 4
      ensures ClassTotals(D4h().sizes, Column(SquarePlanarInput(), s)) == SquarePlanarTotals()[s]
    {
      BlockClassTotals(D4h().sizes, SquarePlanarBlocks(), s);
      if s == 0 {
        SquarePlanarTotals0();
      } else if s == 1 {
        SquarePlanarTotals1();
      } else if s == 2 {
        SquarePlanarTotals2();
      } else if s == 3 {
        SquarePlanarTotals3();
      }
    }
    SquarePlanarReference();
  }

  lemma SquarePlanarCoef0_0()
    ensures DotRange(D4h().irreps[0].chars, SquarePlanarTotals()[0], 0, |D4h().sizes|) == SquarePlanarRawSums()[0][0]
  {
    D4hChars0();
    assert SquarePlanarTotals()[0] == [1.0, 0.0, 0.0, 1.0, 0.0, 0.0, 0.0, 1.0, 1.0, 0.0];
    assert SquarePlanarRawSums()[0][0] == 4.0;
    assert DotRange([1, 1, 1, 1, 1, 1, 1, 1, 1, 1], [1.0, 0.0, 0.0, 1.0, 0.0, 0.0, 0.0, 1.0, 1.0, 0.0], 0, 10) == 4.0;
  }

  lemma SquarePlanarCoef0_1()
    ensures DotRange(D4h().irreps[0].chars, SquarePlanarTotals()[1], 0, |D4h().sizes|) == SquarePlanarRawSums()[0][1]
  {
    D4hChars0();
    assert SquarePlanarTotals()[1] == [0.0, 1.0, 0.0, 0.0, 1.0, 0.0, 1.0, 0.0, 0.0, 1.0];
    assert SquarePlanarRawSums()[0][1] == 4.0;
    assert DotRange([1, 1, 1, 1, 1, 1, 1, 1, 1, 1], [0.0, 1.0, 0.0, 0.0, 1.0, 0.0, 1.0, 0.0, 0.0, 1.0], 0, 10) == 4.0;
  }

  lemma SquarePlanarCoef0_2()
    ensures DotRange(D4h().irreps[0].chars, SquarePlanarTotals()[2], 0, |D4h().sizes|) == SquarePlanarRawSums()[0][2]
  {
    D4hChars0();
    assert SquarePlanarTotals()[2] == [0.0, 0.0, 1.0, 1.0, 0.0, 1.0, 0.0, 0.0, 1.0, 0.0];
    assert SquarePlanarRawSums()[0][2] == 4.0;
    assert DotRange([1, 1, 1, 1, 1, 1, 1, 1, 1, 1], [0.0, 0.0, 1.0, 1.0, 0.0, 1.0, 0.0, 0.0, 1.0, 0.0], 0, 10) == 4.0;
  }

  lemma SquarePlanarCoef0_3()
    ensures DotRange(D4h().irreps[0].chars, SquarePlanarTotals()[3], 0, |D4h().sizes|) == SquarePlanarRawSums()[0][3]
  {
    D4hChars0();
    assert SquarePlanarTotals()[3] == [0.0, 1.0, 0.0, 0.0, 1.0, 0.0, 1.0, 0.0, 0.0, 1.0];
    assert SquarePlanarRawSums()[0][3] == 4.0;
    assert DotRange([1, 1, 1, 1, 1, 1, 1, 1, 1, 1], [0.0, 1.0, 0.0, 0.0, 1.0, 0.0, 1.0, 0.0, 0.0, 1.0], 0, 10) == 4.0;
  }

  lemma SquarePlanarCoefs0()
    ensures |SquarePlanarRawSums()[0]| == 4
    ensures forall s: Sym :: s < 4 ==> DotRange(D4h().irreps[0].chars, SquarePlanarTotals()[s], 0, |D4h().sizes|) == SquarePlanarRawSums()[0][s]
  {
    forall s: Sym | s < 4
      ensures DotRange(D4h().irreps[0].chars, SquarePlanarTotals()[s], 0, |D4h().sizes|) == SquarePlanarRawSums()[0][s]
    {
      if s == 0 {
        SquarePlanarCoef0_0();
      } else if s == 1 {
        SquarePlanarCoef0_1();
      } else if s == 2 {
        SquarePlanarCoef0_2();
      } else if s == 3 {
        SquarePlanarCoef0_3();
      }
    }
  }

  lemma SquarePlanarRaw0(v: seq<Lin>)
    requires SquarePlanarLike(v)
    ensures WellFormed(D4h()) && Raw(D4h(), 0, v) == SquarePlanarRawSums()[0]
  {
    D4hWellFormed();
    SquarePlanarCoefs0();
    RawFromCoefs(D4h(), 0, v, 4, SquarePlanarRawSums()[0]);
  }

  lemma SquarePlanarNorm0()
    ensures Dim(D4h().irreps[0]) == 1 && Order(D4h()) == 16
    ensures Normalise(SquarePlanarRawSums()[0], Some(0), Dim(D4h().irreps[0]), Order(D4h())) == SquarePlanarSalcs()[0]
  {
    assert SquarePlanarRawSums()[0] == [4.0, 4.0, 4.0, 4.0];
    assert SquarePlanarSalcs()[0] == Combo([1.0, 1.0, 1.0, 1.0]);
    D4hShape();
    assert D4h().irreps[0].chars[0] == 1;
    Extensionality(Scale(1.0 / 4.0, [4.0, 4.0, 4.0, 4.0]), [1.0, 1.0, 1.0, 1.0]);
  }

  lemma SquarePlanarCoef1_0()
    ensures DotRange(D4h().irreps[1].chars, SquarePlanarTotals()[0], 0, |D4h().sizes|) == SquarePlanarRawSums()[1][0]
  {
    D4hChars1();
    assert SquarePlanarTotals()[0] == [1.0, 0.0, 0.0, 1.0, 0.0, 0.0, 0.0, 1.0, 1.0, 0.0];
    assert SquarePlanarRawSums()[1][0] == 0.0;
    assert DotRange([1, 1, 1, -1, -1, 1, 1, 1, -1, -1], [1.0, 0.0, 0.0, 1.0, 0.0, 0.0, 0.0, 1.0, 1.0, 0.0], 0, 10) == 0.0;
  }

  lemma SquarePlanarCoef1_1()
    ensures DotRange(D4h().irreps[1].chars, SquarePlanarTotals()[1], 0, |D4h().sizes|) == SquarePlanarRawSums()[1][1]
  {
    D4hChars1();
    assert SquarePlanarTotals()[1] == [0.0, 1.0, 0.0, 0.0, 1.0, 0.0, 1.0, 0.0, 0.0, 1.0];
    assert SquarePlanarRawSums()[1][1] == 0.0;
    assert DotRange([1, 1, 1, -1, -1, 1, 1, 1, -1, -1], [0.0, 1.0, 0.0, 0.0, 1.0, 0.0, 1.0, 0.0, 0.0, 1.0], 0, 10) == 0.0;
  }

  lemma SquarePlanarCoef1_2()
    ensures DotRange(D4h().irreps[1].chars, SquarePlanarTotals()[2], 0, |D4h().sizes|) == SquarePlanarRawSums()[1][2]
  {
    D4hChars1();
    assert SquarePlanarTotals()[2] == [0.0, 0.0, 1.0, 1.0, 0.0, 1.0, 0.0, 0.0, 1.0, 0.0];
    assert SquarePlanarRawSums()[1][2] == 0.0;
    assert DotRange([1, 1, 1, -1, -1, 1, 1, 1, -1, -1], [0.0, 0.0, 1.0, 1.0, 0.0, 1.0, 0.0, 0.0, 1.0, 0.0], 0, 10) == 0.0;
  }

  lemma SquarePlanarCoef1_3()
    ensures DotRange(D4h().irreps[1].chars, SquarePlanarTotals()[3], 0, |D4h().sizes|) == SquarePlanarRawSums()[1][3]
  {
    D4hChars1();
    assert SquarePlanarTotals()[3] == [0.0, 1.0, 0.0, 0.0, 1.0, 0.0, 1.0, 0.0, 0.0, 1.0];
    assert SquarePlanarRawSums()[1][3] == 0.0;
    assert DotRange([1, 1, 1, -1, -1, 1, 1, 1, -1, -1], [0.0, 1.0, 0.0, 0.0, 1.0, 0.0, 1.0, 0.0, 0.0, 1.0], 0, 10) == 0.0;
  }

  lemma SquarePlanarCoefs1()
    ensures |SquarePlanarRawSums()[1]| == 4
    ensures forall s: Sym :: s < 4 ==> DotRange(D4h().irreps[1].chars, SquarePlanarTotals()[s], 0, |D4h().sizes|) == SquarePlanarRawSums()[1][s]
  {
    forall s: Sym | s < 4
      ensures DotRange(D4h().irreps[1].chars, SquarePlanarTotals()[s], 0, |D4h().sizes|) == SquarePlanarRawSums()[1][s]
    {
      if s == 0 {
        SquarePlanarCoef1_0();
      } else if s == 1 {
        SquarePlanarCoef1_1();
      } else if s == 2 {
        SquarePlanarCoef1_2();
      } else if s == 3 {
        SquarePlanarCoef1_3();
      }
    }
  }

  lemma SquarePlanarRaw1(v: seq<Lin>)
    requires SquarePlanarLike(v)
    ensures WellFormed(D4h()) && Raw(D4h(), 1, v) == SquarePlanarRawSums()[1]
  {
    D4hWellFormed();
    SquarePlanarCoefs1();
    RawFromCoefs(D4h(), 1, v, 4, SquarePlanarRawSums()[1]);
  }

  lemma SquarePlanarNorm1()
    ensures Dim(D4h().irreps[1]) == 1 && Order(D4h()) == 16
    ensures Normalise(SquarePlanarRawSums()[1], Some(0), Dim(D4h().irreps[1]), Order(D4h())) == SquarePlanarSalcs()[1]
  {
    assert SquarePlanarRawSums()[1] == [0.0, 0.0, 0.0, 0.0];
    assert SquarePlanarSalcs()[1] == Zero;
    D4hShape();
    assert D4h().irreps[1].chars[0] == 1;
  }

  lemma SquarePlanarCoef2_0()
    ensures DotRange(D4h().irreps[2].chars, SquarePlanarTotals()[0], 0, |D4h().sizes|) == SquarePlanarRawSums()[2][0]
  {
    D4hChars2();
    assert SquarePlanarTotals()[0] == [1.0, 0.0, 0.0, 1.0, 0.0, 0.0, 0.0, 1.0, 1.0, 0.0];
    assert SquarePlanarRawSums()[2][0] == 4.0;
    assert DotRange([1, -1, 1, 1, -1, 1, -1, 1, 1, -1], [1.0, 0.0, 0.0, 1.0, 0.0, 0.0, 0.0, 1.0, 1.0, 0.0], 0, 10) == 4.0;
  }

  lemma SquarePlanarCoef2_1()
    ensures DotRange(D4h().irreps[2].chars, SquarePlanarTotals()[1], 0, |D4h().sizes|) == SquarePlanarRawSums()[2][1]
  {
    D4hChars2();
    assert SquarePlanarTotals()[1] == [0.0, 1.0, 0.0, 0.0, 1.0, 0.0, 1.0, 0.0, 0.0, 1.0];
    assert SquarePlanarRawSums()[2][1] == -4.0;
    assert DotRange([1, -1, 1, 1, -1, 1, -1, 1, 1, -1], [0.0, 1.0, 0.0, 0.0, 1.0, 0.0, 1.0, 0.0, 0.0, 1.0], 0, 10) == -4.0;
  }

  lemma SquarePlanarCoef2_2()
    ensures DotRange(D4h().irreps[2].chars, SquarePlanarTotals()[2], 0, |D4h().sizes|) == SquarePlanarRawSums()[2][2]
  {
    D4hChars2();
    assert SquarePlanarTotals()[2] == [0.0, 0.0, 1.0, 1.0, 0.0, 1.0, 0.0, 0.0, 1.0, 0.0];
    assert SquarePlanarRawSums()[2][2] == 4.0;
    assert DotRange([1, -1, 1, 1, -1, 1, -1, 1, 1, -1], [0.0, 0.0, 1.0, 1.0, 0.0, 1.0, 0.0, 0.0, 1.0, 0.0], 0, 10) == 4.0;
  }

  lemma SquarePlanarCoef2_3()
    ensures DotRange(D4h().irreps[2].chars, SquarePlanarTotals()[3], 0, |D4h().sizes|) == SquarePlanarRawSums()[2][3]
  {
    D4hChars2();
    assert SquarePlanarTotals()[3] == [0.0, 1.0, 0.0, 0.0, 1.0, 0.0, 1.0, 0.0, 0.0, 1.0];
    assert SquarePlanarRawSums()[2][3] == -4.0;
    assert DotRange([1, -1, 1, 1, -1, 1, -1, 1, 1, -1], [0.0, 1.0, 0.0, 0.0, 1.0, 0.0, 1.0, 0.0, 0.0, 1.0], 0, 10) == -4.0;
  }

  lemma SquarePlanarCoefs2()
    ensures |SquarePlanarRawSums()[2]| == 4
    ensures forall s: Sym :: s < 4 ==> DotRange(D4h().irreps[2].chars, SquarePlanarTotals()[s], 0, |D4h().sizes|) == SquarePlanarRawSums()[2][s]
  {
    forall s: Sym | s < 4
      ensures DotRange(D4h().irreps[2].chars, SquarePlanarTotals()[s], 0, |D4h().sizes|) == SquarePlanarRawSums()[2][s]
    {
      if s == 0 {
        SquarePlanarCoef2_0();
      } else if s == 1 {
        SquarePlanarCoef2_1();
      } else if s == 2 {
        SquarePlanarCoef2_2();
      } else if s == 3 {
        SquarePlanarCoef2_3();
      }
    }
  }

  lemma SquarePlanarRaw2(v: seq<Lin>)
    requires SquarePlanarLike(v)
    ensures WellFormed(D4h()) && Raw(D4h(), 2, v) == SquarePlanarRawSums()[2]
  {
    D4hWellFormed();
    SquarePlanarCoefs2();
    RawFromCoefs(D4h(), 2, v, 4, SquarePlanarRawSums()[2]);
  }

  lemma SquarePlanarNorm2()
    ensures Dim(D4h().irreps[2]) == 1 && Order(D4h()) == 16
    ensures Normalise(SquarePlanarRawSums()[2], Some(0), Dim(D4h().irreps[2]), Order(D4h())) == SquarePlanarSalcs()[2]
  {
    assert SquarePlanarRawSums()[2] == [4.0, -4.0, 4.0, -4.0];
    assert SquarePlanarSalcs()[2] == Combo([1.0, -1.0, 1.0, -1.0]);
    D4hShape();
    assert D4h().irreps[2].chars[0] == 1;
    Extensionality(Scale(1.0 / 4.0, [4.0, -4.0, 4.0, -4.0]), [1.0, -1.0, 1.0, -1.0]);
  }

  lemma SquarePlanarCoef3_0()
    ensures DotRange(D4h().irreps[3].chars, SquarePlanarTotals()[0], 0, |D4h().sizes|) == SquarePlanarRawSums()[3][0]
  {
    D4hChars3();
    assert SquarePlanarTotals()[0] == [1.0, 0.0, 0.0, 1.0, 0.0, 0.0, 0.0, 1.0, 1.0, 0.0];
    assert SquarePlanarRawSums()[3][0] == 0.0;
    assert DotRange([1, -1, 1, -1, 1, 1, -1, 1, -1, 1], [1.0, 0.0, 0.0, 1.0, 0.0, 0.0, 0.0, 1.0, 1.0, 0.0], 0, 10) == 0.0;
  }

  lemma SquarePlanarCoef3_1()
    ensures DotRange(D4h().irreps[3].chars, SquarePlanarTotals()[1], 0, |D4h().sizes|) == SquarePlanarRawSums()[3][1]
  {
    D4hChars3();
    assert SquarePlanarTotals()[1] == [0.0, 1.0, 0.0, 0.0, 1.0, 0.0, 1.0, 0.0, 0.0, 1.0];
    assert SquarePlanarRawSums()[3][1] == 0.0;
    assert DotRange([1, -1, 1, -1, 1, 1, -1, 1, -1, 1], [0.0, 1.0, 0.0, 0.0, 1.0, 0.0, 1.0, 0.0, 0.0, 1.0], 0, 10) == 0.0;
  }

  lemma SquarePlanarCoef3_2()
    ensures DotRange(D4h().irreps[3].chars, SquarePlanarTotals()[2], 0, |D4h().sizes|) == SquarePlanarRawSums()[3][2]
  {
    D4hChars3();
    assert SquarePlanarTotals()[2] == [0.0, 0.0, 1.0, 1.0, 0.0, 1.0, 0.0, 0.0, 1.0, 0.0];
    assert SquarePlanarRawSums()[3][2] == 0.0;
    assert DotRange([1, -1, 1, -1, 1, 1, -1, 1, -1, 1], [0.0, 0.0, 1.0, 1.0, 0.0, 1.0, 0.0, 0.0, 1.0, 0.0], 0, 10) == 0.0;
  }

  lemma SquarePlanarCoef3_3()
    ensures DotRange(D4h().irreps[3].chars, SquarePlanarTotals()[3], 0, |D4h().sizes|) == SquarePlanarRawSums()[3][3]
  {
    D4hChars3();
    assert SquarePlanarTotals()[3] == [0.0, 1.0, 0.0, 0.0, 1.0, 0.0, 1.0, 0.0, 0.0, 1.0];
    assert SquarePlanarRawSums()[3][3] == 0.0;
    assert DotRange([1, -1, 1, -1, 1, 1, -1, 1, -1, 1], [0.0, 1.0, 0.0, 0.0, 1.0, 0.0, 1.0, 0.0, 0.0, 1.0], 0, 10) == 0.0;
  }

  lemma SquarePlanarCoefs3()
    ensures |SquarePlanarRawSums()[3]| == 4
    ensures forall s: Sym :: s < 4 ==> DotRange(D4h().irreps[3].chars, SquarePlanarTotals()[s], 0, |D4h().sizes|) == SquarePlanarRawSums()[3][s]
  {
    forall s: Sym | s < 4
      ensures DotRange(D4h().irreps[3].chars, SquarePlanarTotals()[s], 0, |D4h().sizes|) == SquarePlanarRawSums()[3][s]
    {
      if s == 0 {
        SquarePlanarCoef3_0();
      } else if s == 1 {
        SquarePlanarCoef3_1();
      } else if s == 2 {
        SquarePlanarCoef3_2();
      } else if s == 3 {
        SquarePlanarCoef3_3();
      }
    }
  }

  lemma SquarePlanarRaw3(v: seq<Lin>)
    requires SquarePlanarLike(v)
    ensures WellFormed(D4h()) && Raw(D4h(), 3, v) == SquarePlanarRawSums()[3]
  {
    D4hWellFormed();
    SquarePlanarCoefs3();
    RawFromCoefs(D4h(), 3, v, 4, SquarePlanarRawSums()[3]);
  }

  lemma SquarePlanarNorm3()
    ensures Dim(D4h().irreps[3]) == 1 && Order(D4h()) == 16
    ensures Normalise(SquarePlanarRawSums()[3], Some(0), Dim(D4h().irreps[3]), Order(D4h())) == SquarePlanarSalcs()[3]
  {
    assert SquarePlanarRawSums()[3] == [0.0, 0.0, 0.0, 0.0];
    assert SquarePlanarSalcs()[3] == Zero;
    D4hShape();
    assert D4h().irreps[3].chars[0] == 1;
  }

  lemma SquarePlanarCoef4_0()
    ensures DotRange(D4h().irreps[4].chars, SquarePlanarTotals()[0], 0, |D4h().sizes|) == SquarePlanarRawSums()[4][0]
  {
    D4hChars4();
    assert SquarePlanarTotals()[0] == [1.0, 0.0, 0.0, 1.0, 0.0, 0.0, 0.0, 1.0, 1.0, 0.0];
    assert SquarePlanarRawSums()[4][0] == 0.0;
    assert DotRange([2, 0, -2, 0, 0, 2, 0, -2, 0, 0], [1.0, 0.0, 0.0, 1.0, 0.0, 0.0, 0.0, 1.0, 1.0, 0.0], 0, 10) == 0.0;
  }

  lemma SquarePlanarCoef4_1()
    ensures DotRange(D4h().irreps[4].chars, SquarePlanarTotals()[1], 0, |D4h().sizes|) == SquarePlanarRawSums()[4][1]
  {
    D4hChars4();
    assert SquarePlanarTotals()[1] == [0.0, 1.0, 0.0, 0.0, 1.0, 0.0, 1.0, 0.0, 0.0, 1.0];
    assert SquarePlanarRawSums()[4][1] == 0.0;
    assert DotRange([2, 0, -2, 0, 0, 2, 0, -2, 0, 0], [0.0, 1.0, 0.0, 0.0, 1.0, 0.0, 1.0, 0.0, 0.0, 1.0], 0, 10) == 0.0;
  }

  lemma SquarePlanarCoef4_2()
    ensures DotRange(D4h().irreps[4].chars, SquarePlanarTotals()[2], 0, |D4h().sizes|) == SquarePlanarRawSums()[4][2]
  {
    D4hChars4();
    assert SquarePlanarTotals()[2] == [0.0, 0.0, 1.0, 1.0, 0.0, 1.0, 0.0, 0.0, 1.0, 0.0];
    assert SquarePlanarRawSums()[4][2] == 0.0;
    assert DotRange([2, 0, -2, 0, 0, 2, 0, -2, 0, 0], [0.0, 0.0, 1.0, 1.0, 0.0, 1.0, 0.0, 0.0, 1.0, 0.0], 0, 10) == 0.0;
  }

  lemma SquarePlanarCoef4_3()
    ensures DotRange(D4h().irreps[4].chars, SquarePlanarTotals()[3], 0, |D4h().sizes|) == SquarePlanarRawSums()[4][3]
  {
    D4hChars4();
    assert SquarePlanarTotals()[3] == [0.0, 1.0, 0.0, 0.0, 1.0, 0.0, 1.0, 0.0, 0.0, 1.0];
    assert SquarePlanarRawSums()[4][3] == 0.0;
    assert DotRange([2, 0, -2, 0, 0, 2, 0, -2, 0, 0], [0.0, 1.0, 0.0, 0.0, 1.0, 0.0, 1.0, 0.0, 0.0, 1.0], 0, 10) == 0.0;
  }

  lemma SquarePlanarCoefs4()
    ensures |SquarePlanarRawSums()[4]| == 4
    ensures forall s: Sym :: s < 4 ==> DotRange(D4h().irreps[4].chars, SquarePlanarTotals()[s], 0, |D4h().sizes|) == SquarePlanarRawSums()[4][s]
  {
    forall s: Sym | s < 4
      ensures DotRange(D4h().irreps[4].chars, SquarePlanarTotals()[s], 0, |D4h().sizes|) == SquarePlanarRawSums()[4][s]
    {
      if s == 0 {
        SquarePlanarCoef4_0();
      } else if s == 1 {
        SquarePlanarCoef4_1();
      } else if s == 2 {
        SquarePlanarCoef4_2();
      } else if s == 3 {
        SquarePlanarCoef4_3();
      }
    }
  }

  lemma SquarePlanarRaw4(v: seq<Lin>)
    requires SquarePlanarLike(v)
    ensures WellFormed(D4h()) && Raw(D4h(), 4, v) == SquarePlanarRawSums()[4]
  {
    D4hWellFormed();
    SquarePlanarCoefs4();
    RawFromCoefs(D4h(), 4, v, 4, SquarePlanarRawSums()[4]);
  }

  lemma SquarePlanarNorm4()
    ensures Dim(D4h().irreps[4]) == 2 && Order(D4h()) == 16
    ensures Normalise(SquarePlanarRawSums()[4], Some(0), Dim(D4h().irreps[4]), Order(D4h())) == SquarePlanarSalcs()[4]
  {
    assert SquarePlanarRawSums()[4] == [0.0, 0.0, 0.0, 0.0];
    assert SquarePlanarSalcs()[4] == Zero;
    D4hShape();
    assert D4h().irreps[4].chars[0] == 2;
  }

  lemma SquarePlanarCoef5_0()
    ensures DotRange(D4h().irreps[5].chars, SquarePlanarTotals()[0], 0, |D4h().sizes|) == SquarePlanarRawSums()[5][0]
  {
    D4hChars5();
    assert SquarePlanarTotals()[0] == [1.0, 0.0, 0.0, 1.0, 0.0, 0.0, 0.0, 1.0, 1.0, 0.0];
    assert SquarePlanarRawSums()[5][0] == 0.0;
    assert DotRange([1, 1, 1, 1, 1, -1, -1, -1, -1, -1], [1.0, 0.0, 0.0, 1.0, 0.0, 0.0, 0.0, 1.0, 1.0, 0.0], 0, 10) == 0.0;
  }

  lemma SquarePlanarCoef5_1()
    ensures DotRange(D4h().irreps[5].chars, SquarePlanarTotals()[1], 0, |D4h().sizes|) == SquarePlanarRawSums()[5][1]
  {
    D4hChars5();
    assert SquarePlanarTotals()[1] == [0.0, 1.0, 0.0, 0.0, 1.0, 0.0, 1.0, 0.0, 0.0, 1.0];
    assert SquarePlanarRawSums()[5][1] == 0.0;
    assert DotRange([1, 1, 1, 1, 1, -1, -1, -1, -1, -1], [0.0, 1.0, 0.0, 0.0, 1.0, 0.0, 1.0, 0.0, 0.0, 1.0], 0, 10) == 0.0;
  }

  lemma SquarePlanarCoef5_2()
    ensures DotRange(D4h().irreps[5].chars, SquarePlanarTotals()[2], 0, |D4h().sizes|) == SquarePlanarRawSums()[5][2]
  {
    D4hChars5();
    assert SquarePlanarTotals()[2] == [0.0, 0.0, 1.0, 1.0, 0.0, 1.0, 0.0, 0.0, 1.0, 0.0];
    assert SquarePlanarRawSums()[5][2] == 0.0;
    assert DotRange([1, 1, 1, 1, 1, -1, -1, -1, -1, -1], [0.0, 0.0, 1.0, 1.0, 0.0, 1.0, 0.0, 0.0, 1.0, 0.0], 0, 10) == 0.0;
  }

  lemma SquarePlanarCoef5_3()
    ensures DotRange(D4h().irreps[5].chars, SquarePlanarTotals()[3], 0, |D4h().sizes|) == SquarePlanarRawSums()[5][3]
  {
    D4hChars5();
    assert SquarePlanarTotals()[3] == [0.0, 1.0, 0.0, 0.0, 1.0, 0.0, 1.0, 0.0, 0.0, 1.0];
    assert SquarePlanarRawSums()[5][3] == 0.0;
    assert DotRange([1, 1, 1, 1, 1, -1, -1, -1, -1, -1], [0.0, 1.0, 0.0, 0.0, 1.0, 0.0, 1.0, 0.0, 0.0, 1.0], 0, 10) == 0.0;
  }

  lemma SquarePlanarCoefs5()
    ensures |SquarePlanarRawSums()[5]| == 4
    ensures forall s: Sym :: s < 4 ==> DotRange(D4h().irreps[5].chars, SquarePlanarTotals()[s], 0, |D4h().sizes|) == SquarePlanarRawSums()[5][s]
  {
    forall s: Sym | s < 4
      ensures DotRange(D4h().irreps[5].chars, SquarePlanarTotals()[s], 0, |D4h().sizes|) == SquarePlanarRawSums()[5][s]
    {
      if s == 0 {
        SquarePlanarCoef5_0();
      } else if s == 1 {
        SquarePlanarCoef5_1();
      } else if s == 2 {
        SquarePlanarCoef5_2();
      } else if s == 3 {
        SquarePlanarCoef5_3();
      }
    }
  }

  lemma SquarePlanarRaw5(v: seq<Lin>)
    requires SquarePlanarLike(v)
    ensures WellFormed(D4h()) && Raw(D4h(), 5, v) == SquarePlanarRawSums()[5]
  {
    D4hWellFormed();
    SquarePlanarCoefs5();
    RawFromCoefs(D4h(), 5, v, 4, SquarePlanarRawSums()[5]);
  }

  lemma SquarePlanarNorm5()
    ensures Dim(D4h().irreps[5]) == 1 && Order(D4h()) == 16
    ensures Normalise(SquarePlanarRawSums()[5], Some(0), Dim(D4h().irreps[5]), Order(D4h())) == SquarePlanarSalcs()[5]
  {
    assert SquarePlanarRawSums()[5] == [0.0, 0.0, 0.0, 0.0];
    assert SquarePlanarSalcs()[5] == Zero;
    D4hShape();
    assert D4h().irreps[5].chars[0] == 1;
  }

  lemma SquarePlanarCoef6_0()
    ensures DotRange(D4h().irreps[6].chars, SquarePlanarTotals()[0], 0, |D4h().sizes|) == SquarePlanarRawSums()[6][0]
  {
    D4hChars6();
    assert SquarePlanarTotals()[0] == [1.0, 0.0, 0.0, 1.0, 0.0, 0.0, 0.0, 1.0, 1.0, 0.0];
    assert SquarePlanarRawSums()[6][0] == 0.0;
    assert DotRange([1, 1, 1, -1, -1, -1, -1, -1, 1, 1], [1.0, 0.0, 0.0, 1.0, 0.0, 0.0, 0.0, 1.0, 1.0, 0.0], 0, 10) == 0.0;
  }

  lemma SquarePlanarCoef6_1()
    ensures DotRange(D4h().irreps[6].chars, SquarePlanarTotals()[1], 0, |D4h().sizes|) == SquarePlanarRawSums()[6][1]
  {
    D4hChars6();
    assert SquarePlanarTotals()[1] == [0.0, 1.0, 0.0, 0.0, 1.0, 0.0, 1.0, 0.0, 0.0, 1.0];
    assert SquarePlanarRawSums()[6][1] == 0.0;
    assert DotRange([1, 1, 1, -1, -1, -1, -1, -1, 1, 1], [0.0, 1.0, 0.0, 0.0, 1.0, 0.0, 1.0, 0.0, 0.0, 1.0], 0, 10) == 0.0;
  }

  lemma SquarePlanarCoef6_2()
    ensures DotRange(D4h().irreps[6].chars, SquarePlanarTotals()[2], 0, |D4h().sizes|) == SquarePlanarRawSums()[6][2]
  {
    D4hChars6();
    assert SquarePlanarTotals()[2] == [0.0, 0.0, 1.0, 1.0, 0.0, 1.0, 0.0, 0.0, 1.0, 0.0];
    assert SquarePlanarRawSums()[6][2] == 0.0;
    assert DotRange([1, 1, 1, -1, -1, -1, -1, -1, 1, 1], [0.0, 0.0, 1.0, 1.0, 0.0, 1.0, 0.0, 0.0, 1.0, 0.0], 0, 10) == 0.0;
  }

  lemma SquarePlanarCoef6_3()
    ensures DotRange(D4h().irreps[6].chars, SquarePlanarTotals()[3], 0, |D4h().sizes|) == SquarePlanarRawSums()[6][3]
  {
    D4hChars6();
    assert SquarePlanarTotals()[3] == [0.0, 1.0, 0.0, 0.0, 1.0, 0.0, 1.0, 0.0, 0.0, 1.0];
    assert SquarePlanarRawSums()[6][3] == 0.0;
    assert DotRange([1, 1, 1, -1, -1, -1, -1, -1, 1, 1], [0.0, 1.0, 0.0, 0.0, 1.0, 0.0, 1.0, 0.0, 0.0, 1.0], 0, 10) == 0.0;
  }

  lemma SquarePlanarCoefs6()
    ensures |SquarePlanarRawSums()[6]| == 4
    ensures forall s: Sym :: s < 4 ==> DotRange(D4h().irreps[6].chars, SquarePlanarTotals()[s], 0, |D4h().sizes|) == SquarePlanarRawSums()[6][s]
  {
    forall s: Sym | s < 4
      ensures DotRange(D4h().irreps[6].chars, SquarePlanarTotals()[s], 0, |D4h().sizes|) == SquarePlanarRawSums()[6][s]
    {
      if s == 0 {
        SquarePlanarCoef6_0();
      } else if s == 1 {
        SquarePlanarCoef6_1();
      } else if s == 2 {
        SquarePlanarCoef6_2();
      } else if s == 3 {
        SquarePlanarCoef6_3();
      }
    }
  }

  lemma SquarePlanarRaw6(v: seq<Lin>)
    requires SquarePlanarLike(v)
    ensures WellFormed(D4h()) && Raw(D4h(), 6, v) == SquarePlanarRawSums()[6]
  {
    D4hWellFormed();
    SquarePlanarCoefs6();
    RawFromCoefs(D4h(), 6, v, 4, SquarePlanarRawSums()[6]);
  }

  lemma SquarePlanarNorm6()
    ensures Dim(D4h().irreps[6]) == 1 && Order(D4h()) == 16
    ensures Normalise(SquarePlanarRawSums()[6], Some(0), Dim(D4h().irreps[6]), Order(D4h())) == SquarePlanarSalcs()[6]
  {
    assert SquarePlanarRawSums()[6] == [0.0, 0.0, 0.0, 0.0];
    assert SquarePlanarSalcs()[6] == Zero;
    D4hShape();
    assert D4h().irreps[6].chars[0] == 1;
  }

  lemma SquarePlanarCoef7_0()
    ensures DotRange(D4h().irreps[7].chars, SquarePlanarTotals()[0], 0, |D4h().sizes|) == SquarePlanarRawSums()[7][0]
  {
    D4hChars7();
    assert SquarePlanarTotals()[0] == [1.0, 0.0, 0.0, 1.0, 0.0, 0.0, 0.0, 1.0, 1.0, 0.0];
    assert SquarePlanarRawSums()[7][0] == 0.0;
    assert DotRange([1, -1, 1, 1, -1, -1, 1, -1, -1, 1], [1.0, 0.0, 0.0, 1.0, 0.0, 0.0, 0.0, 1.0, 1.0, 0.0], 0, 10) == 0.0;
  }

  lemma SquarePlanarCoef7_1()
    ensures DotRange(D4h().irreps[7].chars, SquarePlanarTotals()[1], 0, |D4h().sizes|) == SquarePlanarRawSums()[7][1]
  {
    D4hChars7();
    assert SquarePlanarTotals()[1] == [0.0, 1.0, 0.0, 0.0, 1.0, 0.0, 1.0, 0.0, 0.0, 1.0];
    assert SquarePlanarRawSums()[7][1] == 0.0;
    assert DotRange([1, -1, 1, 1, -1, -1, 1, -1, -1, 1], [0.0, 1.0, 0.0, 0.0, 1.0, 0.0, 1.0, 0.0, 0.0, 1.0], 0, 10) == 0.0;
  }

  lemma SquarePlanarCoef7_2()
    ensures DotRange(D4h().irreps[7].chars, SquarePlanarTotals()[2], 0, |D4h().sizes|) == SquarePlanarRawSums()[7][2]
  {
    D4hChars7();
    assert SquarePlanarTotals()[2] == [0.0, 0.0, 1.0, 1.0, 0.0, 1.0, 0.0, 0.0, 1.0, 0.0];
    assert SquarePlanarRawSums()[7][2] == 0.0;
    assert DotRange([1, -1, 1, 1, -1, -1, 1, -1, -1, 1], [0.0, 0.0, 1.0, 1.0, 0.0, 1.0, 0.0, 0.0, 1.0, 0.0], 0, 10) == 0.0;
  }

  lemma SquarePlanarCoef7_3()
    ensures DotRange(D4h().irreps[7].chars, SquarePlanarTotals()[3], 0, |D4h().sizes|) == SquarePlanarRawSums()[7][3]
  {
    D4hChars7();
    assert SquarePlanarTotals()[3] == [0.0, 1.0, 0.0, 0.0, 1.0, 0.0, 1.0, 0.0, 0.0, 1.0];
    assert SquarePlanarRawSums()[7][3] == 0.0;
    assert DotRange([1, -1, 1, 1, -1, -1, 1, -1, -1, 1], [0.0, 1.0, 0.0, 0.0, 1.0, 0.0, 1.0, 0.0, 0.0, 1.0], 0, 10) == 0.0;
  }

  lemma SquarePlanarCoefs7()
    ensures |SquarePlanarRawSums()[7]| == 4
    ensures forall s: Sym :: s < 4 ==> DotRange(D4h().irreps[7].chars, SquarePlanarTotals()[s], 0, |D4h().sizes|) == SquarePlanarRawSums()[7][s]
  {
    forall s: Sym | s < 4
      ensures DotRange(D4h().irreps[7].chars, SquarePlanarTotals()[s], 0, |D4h().sizes|) == SquarePlanarRawSums()[7][s]
    {
      if s == 0 {
        SquarePlanarCoef7_0();
      } else if s == 1 {
        SquarePlanarCoef7_1();
      } else if s == 2 {
        SquarePlanarCoef7_2();
      } else if s == 3 {
        SquarePlanarCoef7_3();
      }
    }
  }

  lemma SquarePlanarRaw7(v: seq<Lin>)
    requires SquarePlanarLike(v)
    ensures WellFormed(D4h()) && Raw(D4h(), 7, v) == SquarePlanarRawSums()[7]
  {
    D4hWellFormed();
    SquarePlanarCoefs7();
    RawFromCoefs(D4h(), 7, v, 4, SquarePlanarRawSums()[7]);
  }

  lemma SquarePlanarNorm7()
    ensures Dim(D4h().irreps[7]) == 1 && Order(D4h()) == 16
    ensures Normalise(SquarePlanarRawSums()[7], Some(0), Dim(D4h().irreps[7]), Order(D4h())) == SquarePlanarSalcs()[7]
  {
    assert SquarePlanarRawSums()[7] == [0.0, 0.0, 0.0, 0.0];
    assert SquarePlanarSalcs()[7] == Zero;
    D4hShape();
    assert D4h().irreps[7].chars[0] == 1;
  }

  lemma SquarePlanarCoef8_0()
    ensures DotRange(D4h().irreps[8].chars, SquarePlanarTotals()[0], 0, |D4h().sizes|) == SquarePlanarRawSums()[8][0]
  {
    D4hChars8();
    assert SquarePlanarTotals()[0] == [1.0, 0.0, 0.0, 1.0, 0.0, 0.0, 0.0, 1.0, 1.0, 0.0];
    assert SquarePlanarRawSums()[8][0] == 0.0;
    assert DotRange([1, -1, 1, -1, 1, -1, 1, -1, 1, -1], [1.0, 0.0, 0.0, 1.0, 0.0, 0.0, 0.0, 1.0, 1.0, 0.0], 0, 10) == 0.0;
  }

  lemma SquarePlanarCoef8_1()
    ensures DotRange(D4h().irreps[8].chars, SquarePlanarTotals()[1], 0, |D4h().sizes|) == SquarePlanarRawSums()[8][1]
  {
    D4hChars8();
    assert SquarePlanarTotals()[1] == [0.0, 1.0, 0.0, 0.0, 1.0, 0.0, 1.0, 0.0, 0.0, 1.0];
    assert SquarePlanarRawSums()[8][1] == 0.0;
    assert DotRange([1, -1, 1, -1, 1, -1, 1, -1, 1, -1], [0.0, 1.0, 0.0, 0.0, 1.0, 0.0, 1.0, 0.0, 0.0, 1.0], 0, 10) == 0.0;
  }

  lemma SquarePlanarCoef8_2()
    ensures DotRange(D4h().irreps[8].chars, SquarePlanarTotals()[2], 0, |D4h().sizes|) == SquarePlanarRawSums()[8][2]
  {
    D4hChars8();
    assert SquarePlanarTotals()[2] == [0.0, 0.0, 1.0, 1.0, 0.0, 1.0, 0.0, 0.0, 1.0, 0.0];
    assert SquarePlanarRawSums()[8][2] == 0.0;
    assert DotRange([1, -1, 1, -1, 1, -1, 1, -1, 1, -1], [0.0, 0.0, 1.0, 1.0, 0.0, 1.0, 0.0, 0.0, 1.0, 0.0], 0, 10) == 0.0;
  }

  lemma SquarePlanarCoef8_3()
    ensures DotRange(D4h().irreps[8].chars, SquarePlanarTotals()[3], 0, |D4h().sizes|) == SquarePlanarRawSums()[8][3]
  {
    D4hChars8();
    assert SquarePlanarTotals()[3] == [0.0, 1.0, 0.0, 0.0, 1.0, 0.0, 1.0, 0.0, 0.0, 1.0];
    assert SquarePlanarRawSums()[8][3] == 0.0;
    assert DotRange([1, -1, 1, -1, 1, -1, 1, -1, 1, -1], [0.0, 1.0, 0.0, 0.0, 1.0, 0.0, 1.0, 0.0, 0.0, 1.0], 0, 10) == 0.0;
  }

  lemma SquarePlanarCoefs8()
    ensures |SquarePlanarRawSums()[8]| == 4
    ensures forall s: Sym :: s < 4 ==> DotRange(D4h().irreps[8].chars, SquarePlanarTotals()[s], 0, |D4h().sizes|) == SquarePlanarRawSums()[8][s]
  {
    forall s: Sym | s < 4
      ensures DotRange(D4h().irreps[8].chars, SquarePlanarTotals()[s], 0, |D4h().sizes|) == SquarePlanarRawSums()[8][s]
    {
      if s == 0 {
        SquarePlanarCoef8_0();
      } else if s == 1 {
        SquarePlanarCoef8_1();
      } else if s == 2 {
        SquarePlanarCoef8_2();
      } else if s == 3 {
        SquarePlanarCoef8_3();
      }
    }
  }

  lemma SquarePlanarRaw8(v: seq<Lin>)
    requires SquarePlanarLike(v)
    ensures WellFormed(D4h()) && Raw(D4h(), 8, v) == SquarePlanarRawSums()[8]
  {
    D4hWellFormed();
    SquarePlanarCoefs8();
    RawFromCoefs(D4h(), 8, v, 4, SquarePlanarRawSums()[8]);
  }

  lemma SquarePlanarNorm8()
    ensures Dim(D4h().irreps[8]) == 1 && Order(D4h()) == 16
    ensures Normalise(SquarePlanarRawSums()[8], Some(0), Dim(D4h().irreps[8]), Order(D4h())) == SquarePlanarSalcs()[8]
  {
    assert SquarePlanarRawSums()[8] == [0.0, 0.0, 0.0, 0.0];
    assert SquarePlanarSalcs()[8] == Zero;
    D4hShape();
    assert D4h().irreps[8].chars[0] == 1;
  }

  lemma SquarePlanarCoef9_0()
    ensures DotRange(D4h().irreps[9].chars, SquarePlanarTotals()[0], 0, |D4h().sizes|) == SquarePlanarRawSums()[9][0]
  {
    D4hChars9();
    assert SquarePlanarTotals()[0] == [1.0, 0.0, 0.0, 1.0, 0.0, 0.0, 0.0, 1.0, 1.0, 0.0];
    assert SquarePlanarRawSums()[9][0] == 4.0;
    assert DotRange([2, 0, -2, 0, 0, -2, 0, 2, 0, 0], [1.0, 0.0, 0.0, 1.0, 0.0, 0.0, 0.0, 1.0, 1.0, 0.0], 0, 10) == 4.0;
  }

  lemma SquarePlanarCoef9_1()
    ensures DotRange(D4h().irreps[9].chars, SquarePlanarTotals()[1], 0, |D4h().sizes|) == SquarePlanarRawSums()[9][1]
  {
    D4hChars9();
    assert SquarePlanarTotals()[1] == [0.0, 1.0, 0.0, 0.0, 1.0, 0.0, 1.0, 0.0, 0.0, 1.0];
    assert SquarePlanarRawSums()[9][1] == 0.0;
    assert DotRange([2, 0, -2, 0, 0, -2, 0, 2, 0, 0], [0.0, 1.0, 0.0, 0.0, 1.0, 0.0, 1.0, 0.0, 0.0, 1.0], 0, 10) == 0.0;
  }

  lemma SquarePlanarCoef9_2()
    ensures DotRange(D4h().irreps[9].chars, SquarePlanarTotals()[2], 0, |D4h().sizes|) == SquarePlanarRawSums()[9][2]
  {
    D4hChars9();
    assert SquarePlanarTotals()[2] == [0.0, 0.0, 1.0, 1.0, 0.0, 1.0, 0.0, 0.0, 1.0, 0.0];
    assert SquarePlanarRawSums()[9][2] == -4.0;
    assert DotRange([2, 0, -2, 0, 0, -2, 0, 2, 0, 0], [0.0, 0.0, 1.0, 1.0, 0.0, 1.0, 0.0, 0.0, 1.0, 0.0], 0, 10) == -4.0;
  }

  lemma SquarePlanarCoef9_3()
    ensures DotRange(D4h().irreps[9].chars, SquarePlanarTotals()[3], 0, |D4h().sizes|) == SquarePlanarRawSums()[9][3]
  {
    D4hChars9();
    assert SquarePlanarTotals()[3] == [0.0, 1.0, 0.0, 0.0, 1.0, 0.0, 1.0, 0.0, 0.0, 1.0];
    assert SquarePlanarRawSums()[9][3] == 0.0;
    assert DotRange([2, 0, -2, 0, 0, -2, 0, 2, 0, 0], [0.0, 1.0, 0.0, 0.0, 1.0, 0.0, 1.0, 0.0, 0.0, 1.0], 0, 10) == 0.0;
  }

  lemma SquarePlanarCoefs9()
    ensures |SquarePlanarRawSums()[9]| == 4
    ensures forall s: Sym :: s < 4 ==> DotRange(D4h().irreps[9].chars, SquarePlanarTotals()[s], 0, |D4h().sizes|) == SquarePlanarRawSums()[9][s]
  {
    forall s: Sym | s < 4
      ensures DotRange(D4h().irreps[9].chars, SquarePlanarTotals()[s], 0, |D4h().sizes|) == SquarePlanarRawSums()[9][s]
    {
      if s == 0 {
        SquarePlanarCoef9_0();
      } else if s == 1 {
        SquarePlanarCoef9_1();
      } else if s == 2 {
        SquarePlanarCoef9_2();
      } else if s == 3 {
        SquarePlanarCoef9_3();
      }
    }
  }

  lemma SquarePlanarRaw9(v: seq<Lin>)
    requires SquarePlanarLike(v)
    ensures WellFormed(D4h()) && Raw(D4h(), 9, v) == SquarePlanarRawSums()[9]
  {
    D4hWellFormed();
    SquarePlanarCoefs9();
    RawFromCoefs(D4h(), 9, v, 4, SquarePlanarRawSums()[9]);
  }

  lemma SquarePlanarNorm9()
    ensures Dim(D4h().irreps[9]) == 2 && Order(D4h()) == 16
    ensures Normalise(SquarePlanarRawSums()[9], Some(0), Dim(D4h().irreps[9]), Order(D4h())) == SquarePlanarSalcs()[9]
  {
    assert SquarePlanarRawSums()[9] == [4.0, 0.0, -4.0, 0.0];
    assert SquarePlanarSalcs()[9] == Combo([1.0, 0.0, -1.0, 0.0]);
    D4hShape();
    assert D4h().irreps[9].chars[0] == 2;
    Extensionality(Scale(1.0 / 4.0, [4.0, 0.0, -4.0, 0.0]), [1.0, 0.0, -1.0, 0.0]);
  }

  /** The raw sums of the scenario, one per irreducible representation. */
  function SquarePlanarRawSums(): seq<Lin> {
    [[4.0, 4.0, 4.0, 4.0], [0.0, 0.0, 0.0, 0.0], [4.0, -4.0, 4.0, -4.0], [0.0, 0.0, 0.0, 0.0], [0.0, 0.0, 0.0, 0.0], [0.0, 0.0, 0.0, 0.0], [0.0, 0.0, 0.0, 0.0], [0.0, 0.0, 0.0, 0.0], [0.0, 0.0, 0.0, 0.0], [4.0, 0.0, -4.0, 0.0]]
  }

  /** The expected results of the scenario. */
  function SquarePlanarSalcs(): seq<Salc> {
    [Combo([1.0, 1.0, 1.0, 1.0]), Zero, Combo([1.0, -1.0, 1.0, -1.0]), Zero, Zero, Zero, Zero, Zero, Zero, Combo([1.0, 0.0, -1.0, 0.0])]
  }

  /** Representations 0 to 5 of every input of this shape. */
  lemma SquarePlanarPart0(v: seq<Lin>)
    requires SquarePlanarLike(v)
    ensures WellFormed(D4h()) && |D4h().irreps| == |SquarePlanarRawSums()| == |SquarePlanarSalcs()| == 10
    ensures forall i :: 0 <= i < 6 ==> Raw(D4h(), i, v) == SquarePlanarRawSums()[i]
    ensures forall i :: 0 <= i < 6 ==>
      Normalise(SquarePlanarRawSums()[i], Reference(v), Dim(D4h().irreps[i]), Order(D4h())) == SquarePlanarSalcs()[i]
  {
    D4hWellFormed();
    forall i | 0 <= i < 6
      ensures Raw(D4h(), i, v) == SquarePlanarRawSums()[i]
      ensures Normalise(SquarePlanarRawSums()[i], Reference(v), Dim(D4h().irreps[i]), Order(D4h())) == SquarePlanarSalcs()[i]
    {
      if i == 0 {
        SquarePlanarRaw0(v);
        SquarePlanarNorm0();
      } else if i == 1 {
        SquarePlanarRaw1(v);
        SquarePlanarNorm1();
      } else if i == 2 {
        SquarePlanarRaw2(v);
        SquarePlanarNorm2();
      } else if i == 3 {
        SquarePlanarRaw3(v);
        SquarePlanarNorm3();
      } else if i == 4 {
        SquarePlanarRaw4(v);
        SquarePlanarNorm4();
      } else if i == 5 {
        SquarePlanarRaw5(v);
        SquarePlanarNorm5();
      }
    }
  }

  /** Representations 6 to 9 of every input of this shape. */
  lemma SquarePlanarPart1(v: seq<Lin>)
    requires SquarePlanarLike(v)
    ensures WellFormed(D4h()) && |D4h().irreps| == |SquarePlanarRawSums()| == |SquarePlanarSalcs()| == 10
    ensures forall i :: 6 <= i < 10 ==> Raw(D4h(), i, v) == SquarePlanarRawSums()[i]
    ensures forall i :: 6 <= i < 10 ==>
      Normalise(SquarePlanarRawSums()[i], Reference(v), Dim(D4h().irreps[i]), Order(D4h())) == SquarePlanarSalcs()[i]
  {
    D4hWellFormed();
    forall i | 6 <= i < 10
      ensures Raw(D4h(), i, v) == SquarePlanarRawSums()[i]
      ensures Normalise(SquarePlanarRawSums()[i], Reference(v), Dim(D4h().irreps[i]), Order(D4h())) == SquarePlanarSalcs()[i]
    {
      if i == 6 {
        SquarePlanarRaw6(v);
        SquarePlanarNorm6();
      } else if i == 7 {
        SquarePlanarRaw7(v);
        SquarePlanarNorm7();
      } else if i == 8 {
        SquarePlanarRaw8(v);
        SquarePlanarNorm8();
      } else if i == 9 {
        SquarePlanarRaw9(v);
        SquarePlanarNorm9();
      }
    }
  }

  /** The projection of every input of this shape. */
  lemma SquarePlanarFor(v: seq<Lin>)
    requires SquarePlanarLike(v)
    ensures Project(v, "d4h") == Ok(SquarePlanarSalcs())
  {
    D4hWellFormed();
    SquarePlanarPart0(v);
    SquarePlanarPart1(v);
    assert Lookup("d4h") == Ok(D4h());
    ProjectFrom(v, "d4h", D4h(), SquarePlanarRawSums(), SquarePlanarSalcs());
  }

  lemma SquarePlanar()
    ensures Project(SquarePlanarInput(), "d4h") == Ok([Combo([1.0, 1.0, 1.0, 1.0]), Zero, Combo([1.0, -1.0, 1.0, -1.0]), Zero, Zero, Zero, Zero, Zero, Zero, Combo([1.0, 0.0, -1.0, 0.0])])
  {
    SquarePlanarInputLike();
    SquarePlanarFor(SquarePlanarInput());
    assert SquarePlanarSalcs() == [Combo([1.0, 1.0, 1.0, 1.0]), Zero, Combo([1.0, -1.0, 1.0, -1.0]), Zero, Zero, Zero, Zero, Zero, Zero, Combo([1.0, 0.0, -1.0, 0.0])];
  }

  // ---------------------------------------------------------------------------
  // Benzene p orbitals in D6h (test_salcs.py:33-40): only B2g, E1g, A2u and E2u survive,
  // each raw sum having coefficient 4 at a and being divided by it.

  /** The transformed basis, one block per class of D6h (symbols a, b, c, d, e, f numbered from 0). */
  function BenzeneBlocks(): seq<seq<Lin>> {
    var a, b, c, d, e, f := Unit(0, 6), Unit(1, 6), Unit(2, 6), Unit(3, 6), Unit(4, 6), Unit(5, 6);
    [[a], [b, f], [c, e], [d], [Neg(a), Neg(c), Neg(e)], [Neg(b), Neg(d), Neg(f)], [Neg(d)], [Neg(c), Neg(e)], [Neg(b), Neg(f)], [Neg(a)], [b, d, f], [a, c, e]]
  }

  function BenzeneInput(): seq<Lin> {
    Concat(BenzeneBlocks())
  }

  /** The class totals of every symbol in the documented input. */
  function BenzeneTotals(): seq<seq<real>> {
    [[1.0, 0.0, 0.0, 0.0, -1.0, 0.0, 0.0, 0.0, 0.0, -1.0, 0.0, 1.0], [0.0, 1.0, 0.0, 0.0, 0.0, -1.0, 0.0, 0.0, -1.0, 0.0, 1.0, 0.0], [0.0, 0.0, 1.0, 0.0, -1.0, 0.0, 0.0, -1.0, 0.0, 0.0, 0.0, 1.0], [0.0, 0.0, 0.0, 1.0, 0.0, -1.0, -1.0, 0.0, 0.0, 0.0, 1.0, 0.0], [0.0, 0.0, 1.0, 0.0, -1.0, 0.0, 0.0, -1.0, 0.0, 0.0, 0.0, 1.0], [0.0, 1.0, 0.0, 0.0, 0.0, -1.0, 0.0, 0.0, -1.0, 0.0, 1.0, 0.0]]
  }

  /** What the projection of this scenario depends on: the length of the input, the
      symbols its entries are written over, the class totals of every symbol and the
      reference symbol. */
  ghost predicate BenzeneLike(v: seq<Lin>) {
    && |v| == 24 == Order(D6h())
    && (forall k :: 0 <= k < |v| ==> |v[k]| == 6)
    && (forall s: Sym :: s < 6 ==> ClassTotals(D6h().sizes, Column(v, s)) == BenzeneTotals()[s])
    && Reference(v) == Some(0)
  }

  lemma BenzeneShape()
    ensures |BenzeneBlocks()| == |D6h().sizes|
    ensures forall c :: 0 <= c < |BenzeneBlocks()| ==> |BenzeneBlocks()[c]| == D6h().sizes[c]
    ensures forall c, k :: 0 <= c < |BenzeneBlocks()| && 0 <= k < |BenzeneBlocks()[c]| ==> |BenzeneBlocks()[c][k]| == 6
  {
  }

  lemma BenzeneTotals0()
    ensures BlockTotals(BenzeneBlocks(), 0) == BenzeneTotals()[0]
  {
    assert BenzeneTotals()[0] == [1.0, 0.0, 0.0, 0.0, -1.0, 0.0, 0.0, 0.0, 0.0, -1.0, 0.0, 1.0];
  }

  lemma BenzeneTotals1()
    ensures BlockTotals(BenzeneBlocks(), 1) == BenzeneTotals()[1]
  {
    assert BenzeneTotals()[1] == [0.0, 1.0, 0.0, 0.0, 0.0, -1.0, 0.0, 0.0, -1.0, 0.0, 1.0, 0.0];
  }

  lemma BenzeneTotals2()
    ensures BlockTotals(BenzeneBlocks(), 2) == BenzeneTotals()[2]
  {
    assert BenzeneTotals()[2] == [0.0, 0.0, 1.0, 0.0, -1.0, 0.0, 0.0, -1.0, 0.0, 0.0, 0.0, 1.0];
  }

  lemma BenzeneTotals3()
    ensures BlockTotals(BenzeneBlocks(), 3) == BenzeneTotals()[3]
  {
    assert BenzeneTotals()[3] == [0.0, 0.0, 0.0, 1.0, 0.0, -1.0, -1.0, 0.0, 0.0, 0.0, 1.0, 0.0];
  }

  lemma BenzeneTotals4()
    ensures BlockTotals(BenzeneBlocks(), 4) == BenzeneTotals()[4]
  {
    assert BenzeneTotals()[4] == [0.0, 0.0, 1.0, 0.0, -1.0, 0.0, 0.0, -1.0, 0.0, 0.0, 0.0, 1.0];
  }

  lemma BenzeneTotals5()
    ensures BlockTotals(BenzeneBlocks(), 5) == BenzeneTotals()[5]
  {
    assert BenzeneTotals()[5] == [0.0, 1.0, 0.0, 0.0, 0.0, -1.0, 0.0, 0.0, -1.0, 0.0, 1.0, 0.0];
  }

  lemma BenzeneReference()
    ensures |BenzeneInput()| == Order(D6h()) && Reference(BenzeneInput()) == Some(0)
  {
    D6hShape();
    BenzeneShape();
    ConcatLength(D6h().sizes, BenzeneBlocks());
    ConcatAt(D6h().sizes, BenzeneBlocks(), 0, 0);
  }

  /** The documented input has the shape the projection depends on. */
  lemma BenzeneInputLike()
    ensures BenzeneLike(BenzeneInput())
  {
    D6hShape();
    BenzeneShape();
    ConcatWidth(D6h().sizes, BenzeneBlocks(), 6);
    forall s: Sym | s < 6
      ensures ClassTotals(D6h().sizes, Column(BenzeneInput(), s)) == BenzeneTotals()[s]
    {
      BlockClassTotals(D6h().sizes, BenzeneBlocks(), s);
      if s == 0 {
        BenzeneTotals0();
      } else if s == 1 {
        BenzeneTotals1();
      } else if s == 2 {
        BenzeneTotals2();
      } else if s == 3 {
        BenzeneTotals3();
      } else if s == 4 {
        BenzeneTotals4();
      } else if s == 5 {
        BenzeneTotals5();
      }
    }
    BenzeneReference();
  }

  lemma BenzeneCoef0_0()
    ensures DotRange(D6h().irreps[0].chars, BenzeneTotals()[0], 0, |D6h().sizes|) == BenzeneRawSums()[0][0]
  {
    D6hChars0();
    assert BenzeneTotals()[0] == [1.0, 0.0, 0.0, 0.0, -1.0, 0.0, 0.0, 0.0, 0.0, -1.0, 0.0, 1.0];
    assert BenzeneRawSums()[0][0] == 0.0;
    assert DotRange([1, 1, 1, 1, 1, 1, 1, 1, 1, 1, 1, 1], [1.0, 0.0, 0.0, 0.0, -1.0, 0.0, 0.0, 0.0, 0.0, -1.0, 0.0, 1.0], 0, 12) == 0.0;
  }

  lemma BenzeneCoef0_1()
    ensures DotRange(D6h().irreps[0].chars, BenzeneTotals()[1], 0, |D6h().sizes|) == BenzeneRawSums()[0][1]
  {
    D6hChars0();
    assert BenzeneTotals()[1] == [0.0, 1.0, 0.0, 0.0, 0.0, -1.0, 0.0, 0.0, -1.0, 0.0, 1.0, 0.0];
    assert BenzeneRawSums()[0][1] == 0.0;
    assert DotRange([1, 1, 1, 1, 1, 1, 1, 1, 1, 1, 1, 1], [0.0, 1.0, 0.0, 0.0, 0.0, -1.0, 0.0, 0.0, -1.0, 0.0, 1.0, 0.0], 0, 12) == 0.0;
  }

  lemma BenzeneCoef0_2()
    ensures DotRange(D6h().irreps[0].chars, BenzeneTotals()[2], 0, |D6h().sizes|) == BenzeneRawSums()[0][2]
  {
    D6hChars0();
    assert BenzeneTotals()[2] == [0.0, 0.0, 1.0, 0.0, -1.0, 0.0, 0.0, -1.0, 0.0, 0.0, 0.0, 1.0];
    assert BenzeneRawSums()[0][2] == 0.0;
    assert DotRange([1, 1, 1, 1, 1, 1, 1, 1, 1, 1, 1, 1], [0.0, 0.0, 1.0, 0.0, -1.0, 0.0, 0.0, -1.0, 0.0, 0.0, 0.0, 1.0], 0, 12) == 0.0;
  }

  lemma BenzeneCoef0_3()
    ensures DotRange(D6h().irreps[0].chars, BenzeneTotals()[3], 0, |D6h().sizes|) == BenzeneRawSums()[0][3]
  {
    D6hChars0();
    assert BenzeneTotals()[3] == [0.0, 0.0, 0.0, 1.0, 0.0, -1.0, -1.0, 0.0, 0.0, 0.0, 1.0, 0.0];
    assert BenzeneRawSums()[0][3] == 0.0;
    assert DotRange([1, 1, 1, 1, 1, 1, 1, 1, 1, 1, 1, 1], [0.0, 0.0, 0.0, 1.0, 0.0, -1.0, -1.0, 0.0, 0.0, 0.0, 1.0, 0.0], 0, 12) == 0.0;
  }

  lemma BenzeneCoef0_4()
    ensures DotRange(D6h().irreps[0].chars, BenzeneTotals()[4], 0, |D6h().sizes|) == BenzeneRawSums()[0][4]
  {
    D6hChars0();
    assert BenzeneTotals()[4] == [0.0, 0.0, 1.0, 0.0, -1.0, 0.0, 0.0, -1.0, 0.0, 0.0, 0.0, 1.0];
    assert BenzeneRawSums()[0][4] == 0.0;
    assert DotRange([1, 1, 1, 1, 1, 1, 1, 1, 1, 1, 1, 1], [0.0, 0.0, 1.0, 0.0, -1.0, 0.0, 0.0, -1.0, 0.0, 0.0, 0.0, 1.0], 0, 12) == 0.0;
  }

  lemma BenzeneCoef0_5()
    ensures DotRange(D6h().irreps[0].chars, BenzeneTotals()[5], 0, |D6h().sizes|) == BenzeneRawSums()[0][5]
  {
    D6hChars0();
    assert BenzeneTotals()[5] == [0.0, 1.0, 0.0, 0.0, 0.0, -1.0, 0.0, 0.0, -1.0, 0.0, 1.0, 0.0];
    assert BenzeneRawSums()[0][5] == 0.0;
    assert DotRange([1, 1, 1, 1, 1, 1, 1, 1, 1, 1, 1, 1], [0.0, 1.0, 0.0, 0.0, 0.0, -1.0, 0.0, 0.0, -1.0, 0.0, 1.0, 0.0], 0, 12) == 0.0;
  }

  lemma BenzeneCoefs0()
    ensures |BenzeneRawSums()[0]| == 6
    ensures forall s: Sym :: s < 6 ==> DotRange(D6h().irreps[0].chars, BenzeneTotals()[s], 0, |D6h().sizes|) == BenzeneRawSums()[0][s]
  {
    forall s: Sym | s < 6
      ensures DotRange(D6h().irreps[0].chars, BenzeneTotals()[s], 0, |D6h().sizes|) == BenzeneRawSums()[0][s]
    {
      if s == 0 {
        BenzeneCoef0_0();
      } else if s == 1 {
        BenzeneCoef0_1();
      } else if s == 2 {
        BenzeneCoef0_2();
      } else if s == 3 {
        BenzeneCoef0_3();
      } else if s == 4 {
        BenzeneCoef0_4();
      } else if s == 5 {
        BenzeneCoef0_5();
      }
    }
  }

  lemma BenzeneRaw0(v: seq<Lin>)
    requires BenzeneLike(v)
    ensures WellFormed(D6h()) && Raw(D6h(), 0, v) == BenzeneRawSums()[0]
  {
    D6hWellFormed();
    BenzeneCoefs0();
    RawFromCoefs(D6h(), 0, v, 6, BenzeneRawSums()[0]);
  }

  lemma BenzeneNorm0()
    ensures Dim(D6h().irreps[0]) == 1 && Order(D6h()) == 24
    ensures Normalise(BenzeneRawSums()[0], Some(0), Dim(D6h().irreps[0]), Order(D6h())) == BenzeneSalcs()[0]
  {
    assert BenzeneRawSums()[0] == [0.0, 0.0, 0.0, 0.0, 0.0, 0.0];
    assert BenzeneSalcs()[0] == Zero;
    D6hShape();
    assert D6h().irreps[0].chars[0] == 1;
  }

  lemma BenzeneCoef1_0()
    ensures DotRange(D6h().irreps[1].chars, BenzeneTotals()[0], 0, |D6h().sizes|) == BenzeneRawSums()[1][0]
  {
    D6hChars1();
    assert BenzeneTotals()[0] == [1.0, 0.0, 0.0, 0.0, -1.0, 0.0, 0.0, 0.0, 0.0, -1.0, 0.0, 1.0];
    assert BenzeneRawSums()[1][0] == 0.0;
    assert DotRange([1, 1, 1, 1, -1, -1, 1, 1, 1, 1, -1, -1], [1.0, 0.0, 0.0, 0.0, -1.0, 0.0, 0.0, 0.0, 0.0, -1.0, 0.0, 1.0], 0, 12) == 0.0;
  }

  lemma BenzeneCoef1_1()
    ensures DotRange(D6h().irreps[1].chars, BenzeneTotals()[1], 0, |D6h().sizes|) == BenzeneRawSums()[1][1]
  {
    D6hChars1();
    assert BenzeneTotals()[1] == [0.0, 1.0, 0.0, 0.0, 0.0, -1.0, 0.0, 0.0, -1.0, 0.0, 1.0, 0.0];
    assert BenzeneRawSums()[1][1] == 0.0;
    assert DotRange([1, 1, 1, 1, -1, -1, 1, 1, 1, 1, -1, -1], [0.0, 1.0, 0.0, 0.0, 0.0, -1.0, 0.0, 0.0, -1.0, 0.0, 1.0, 0.0], 0, 12) == 0.0;
  }

  lemma BenzeneCoef1_2()
    ensures DotRange(D6h().irreps[1].chars, BenzeneTotals()[2], 0, |D6h().sizes|) == BenzeneRawSums()[1][2]
  {
    D6hChars1();
    assert BenzeneTotals()[2] == [0.0, 0.0, 1.0, 0.0, -1.0, 0.0, 0.0, -1.0, 0.0, 0.0, 0.0, 1.0];
    assert BenzeneRawSums()[1][2] == 0.0;
    assert DotRange([1, 1, 1, 1, -1, -1, 1, 1, 1, 1, -1, -1], [0.0, 0.0, 1.0, 0.0, -1.0, 0.0, 0.0, -1.0, 0.0, 0.0, 0.0, 1.0], 0, 12) == 0.0;
  }

  lemma BenzeneCoef1_3()
    ensures DotRange(D6h().irreps[1].chars, BenzeneTotals()[3], 0, |D6h().sizes|) == BenzeneRawSums()[1][3]
  {
    D6hChars1();
    assert BenzeneTotals()[3] == [0.0, 0.0, 0.0, 1.0, 0.0, -1.0, -1.0, 0.0, 0.0, 0.0, 1.0, 0.0];
    assert BenzeneRawSums()[1][3] == 0.0;
    assert DotRange([1, 1, 1, 1, -1, -1, 1, 1, 1, 1, -1, -1], [0.0, 0.0, 0.0, 1.0, 0.0, -1.0, -1.0, 0.0, 0.0, 0.0, 1.0, 0.0], 0, 12) == 0.0;
  }

  lemma BenzeneCoef1_4()
    ensures DotRange(D6h().irreps[1].chars, BenzeneTotals()[4], 0, |D6h().sizes|) == BenzeneRawSums()[1][4]
  {
    D6hChars1();
    assert BenzeneTotals()[4] == [0.0, 0.0, 1.0, 0.0, -1.0, 0.0, 0.0, -1.0, 0.0, 0.0, 0.0, 1.0];
    assert BenzeneRawSums()[1][4] == 0.0;
    assert DotRange([1, 1, 1, 1, -1, -1, 1, 1, 1, 1, -1, -1], [0.0, 0.0, 1.0, 0.0, -1.0, 0.0, 0.0, -1.0, 0.0, 0.0, 0.0, 1.0], 0, 12) == 0.0;
  }

  lemma BenzeneCoef1_5()
    ensures DotRange(D6h().irreps[1].chars, BenzeneTotals()[5], 0, |D6h().sizes|) == BenzeneRawSums()[1][5]
  {
    D6hChars1();
    assert BenzeneTotals()[5] == [0.0, 1.0, 0.0, 0.0, 0.0, -1.0, 0.0, 0.0, -1.0, 0.0, 1.0, 0.0];
    assert BenzeneRawSums()[1][5] == 0.0;
    assert DotRange([1, 1, 1, 1, -1, -1, 1, 1, 1, 1, -1, -1], [0.0, 1.0, 0.0, 0.0, 0.0, -1.0, 0.0, 0.0, -1.0, 0.0, 1.0, 0.0], 0, 12) == 0.0;
  }

  lemma BenzeneCoefs1()
    ensures |BenzeneRawSums()[1]| == 6
    ensures forall s: Sym :: s < 6 ==> DotRange(D6h().irreps[1].chars, BenzeneTotals()[s], 0, |D6h().sizes|) == BenzeneRawSums()[1][s]
  {
    forall s: Sym | s < 6
      ensures DotRange(D6h().irreps[1].chars, BenzeneTotals()[s], 0, |D6h().sizes|) == BenzeneRawSums()[1][s]
    {
      if s == 0 {
        BenzeneCoef1_0();
      } else if s == 1 {
        BenzeneCoef1_1();
      } else if s == 2 {
        BenzeneCoef1_2();
      } else if s == 3 {
        BenzeneCoef1_3();
      } else if s == 4 {
        BenzeneCoef1_4();
      } else if s == 5 {
        BenzeneCoef1_5();
      }
    }
  }

  lemma BenzeneRaw1(v: seq<Lin>)
    requires BenzeneLike(v)
    ensures WellFormed(D6h()) && Raw(D6h(), 1, v) == BenzeneRawSums()[1]
  {
    D6hWellFormed();
    BenzeneCoefs1();
    RawFromCoefs(D6h(), 1, v, 6, BenzeneRawSums()[1]);
  }

  lemma BenzeneNorm1()
    ensures Dim(D6h().irreps[1]) == 1 && Order(D6h()) == 24
    ensures Normalise(BenzeneRawSums()[1], Some(0), Dim(D6h().irreps[1]), Order(D6h())) == BenzeneSalcs()[1]
  {
    assert BenzeneRawSums()[1] == [0.0, 0.0, 0.0, 0.0, 0.0, 0.0];
    assert BenzeneSalcs()[1] == Zero;
    D6hShape();
    assert D6h().irreps[1].chars[0] == 1;
  }

  lemma BenzeneCoef2_0()
    ensures DotRange(D6h().irreps[2].chars, BenzeneTotals()[0], 0, |D6h().sizes|) == BenzeneRawSums()[2][0]
  {
    D6hChars2();
    assert BenzeneTotals()[0] == [1.0, 0.0, 0.0, 0.0, -1.0, 0.0, 0.0, 0.0, 0.0, -1.0, 0.0, 1.0];
    assert BenzeneRawSums()[2][0] == 0.0;
    assert DotRange([1, -1, 1, -1, 1, -1, 1, -1, 1, -1, 1, -1], [1.0, 0.0, 0.0, 0.0, -1.0, 0.0, 0.0, 0.0, 0.0, -1.0, 0.0, 1.0], 0, 12) == 0.0;
  }

  lemma BenzeneCoef2_1()
    ensures DotRange(D6h().irreps[2].chars, BenzeneTotals()[1], 0, |D6h().sizes|) == BenzeneRawSums()[2][1]
  {
    D6hChars2();
    assert BenzeneTotals()[1] == [0.0, 1.0, 0.0, 0.0, 0.0, -1.0, 0.0, 0.0, -1.0, 0.0, 1.0, 0.0];
    assert BenzeneRawSums()[2][1] == 0.0;
    assert DotRange([1, -1, 1, -1, 1, -1, 1, -1, 1, -1, 1, -1], [0.0, 1.0, 0.0, 0.0, 0.0, -1.0, 0.0, 0.0, -1.0, 0.0, 1.0, 0.0], 0, 12) == 0.0;
  }

  lemma BenzeneCoef2_2()
    ensures DotRange(D6h().irreps[2].chars, BenzeneTotals()[2], 0, |D6h().sizes|) == BenzeneRawSums()[2][2]
  {
    D6hChars2();
    assert BenzeneTotals()[2] == [0.0, 0.0, 1.0, 0.0, -1.0, 0.0, 0.0, -1.0, 0.0, 0.0, 0.0, 1.0];
    assert BenzeneRawSums()[2][2] == 0.0;
    assert DotRange([1, -1, 1, -1, 1, -1, 1, -1, 1, -1, 1, -1], [0.0, 0.0, 1.0, 0.0, -1.0, 0.0, 0.0, -1.0, 0.0, 0.0, 0.0, 1.0], 0, 12) == 0.0;
  }

  lemma BenzeneCoef2_3()
    ensures DotRange(D6h().irreps[2].chars, BenzeneTotals()[3], 0, |D6h().sizes|) == BenzeneRawSums()[2][3]
  {
    D6hChars2();
    assert BenzeneTotals()[3] == [0.0, 0.0, 0.0, 1.0, 0.0, -1.0, -1.0, 0.0, 0.0, 0.0, 1.0, 0.0];
    assert BenzeneRawSums()[2][3] == 0.0;
    assert DotRange([1, -1, 1, -1, 1, -1, 1, -1, 1, -1, 1, -1], [0.0, 0.0, 0.0, 1.0, 0.0, -1.0, -1.0, 0.0, 0.0, 0.0, 1.0, 0.0], 0, 12) == 0.0;
  }

  lemma BenzeneCoef2_4()
    ensures DotRange(D6h().irreps[2].chars, BenzeneTotals()[4], 0, |D6h().sizes|) == BenzeneRawSums()[2][4]
  {
    D6hChars2();
    assert BenzeneTotals()[4] == [0.0, 0.0, 1.0, 0.0, -1.0, 0.0, 0.0, -1.0, 0.0, 0.0, 0.0, 1.0];
    assert BenzeneRawSums()[2][4] == 0.0;
    assert DotRange([1, -1, 1, -1, 1, -1, 1, -1, 1, -1, 1, -1], [0.0, 0.0, 1.0, 0.0, -1.0, 0.0, 0.0, -1.0, 0.0, 0.0, 0.0, 1.0], 0, 12) == 0.0;
  }

  lemma BenzeneCoef2_5()
    ensures DotRange(D6h().irreps[2].chars, BenzeneTotals()[5], 0, |D6h().sizes|) == BenzeneRawSums()[2][5]
  {
    D6hChars2();
    assert BenzeneTotals()[5] == [0.0, 1.0, 0.0, 0.0, 0.0, -1.0, 0.0, 0.0, -1.0, 0.0, 1.0, 0.0];
    assert BenzeneRawSums()[2][5] == 0.0;
    assert DotRange([1, -1, 1, -1, 1, -1, 1, -1, 1, -1, 1, -1], [0.0, 1.0, 0.0, 0.0, 0.0, -1.0, 0.0, 0.0, -1.0, 0.0, 1.0, 0.0], 0, 12) == 0.0;
  }

  lemma BenzeneCoefs2()
    ensures |BenzeneRawSums()[2]| == 6
    ensures forall s: Sym :: s < 6 ==> DotRange(D6h().irreps[2].chars, BenzeneTotals()[s], 0, |D6h().sizes|) == BenzeneRawSums()[2][s]
  {
    forall s: Sym | s < 6
      ensures DotRange(D6h().irreps[2].chars, BenzeneTotals()[s], 0, |D6h().sizes|) == BenzeneRawSums()[2][s]
    {
      if s == 0 {
        BenzeneCoef2_0();
      } else if s == 1 {
        BenzeneCoef2_1();
      } else if s == 2 {
        BenzeneCoef2_2();
      } else if s == 3 {
        BenzeneCoef2_3();
      } else if s == 4 {
        BenzeneCoef2_4();
      } else if s == 5 {
        BenzeneCoef2_5();
      }
    }
  }

  lemma BenzeneRaw2(v: seq<Lin>)
    requires BenzeneLike(v)
    ensures WellFormed(D6h()) && Raw(D6h(), 2, v) == BenzeneRawSums()[2]
  {
    D6hWellFormed();
    BenzeneCoefs2();
    RawFromCoefs(D6h(), 2, v, 6, BenzeneRawSums()[2]);
  }

  lemma BenzeneNorm2()
    ensures Dim(D6h().irreps[2]) == 1 && Order(D6h()) == 24
    ensures Normalise(BenzeneRawSums()[2], Some(0), Dim(D6h().irreps[2]), Order(D6h())) == BenzeneSalcs()[2]
  {
    assert BenzeneRawSums()[2] == [0.0, 0.0, 0.0, 0.0, 0.0, 0.0];
    assert BenzeneSalcs()[2] == Zero;
    D6hShape();
    assert D6h().irreps[2].chars[0] == 1;
  }

  lemma BenzeneCoef3_0()
    ensures DotRange(D6h().irreps[3].chars, BenzeneTotals()[0], 0, |D6h().sizes|) == BenzeneRawSums()[3][0]
  {
    D6hChars3();
    assert BenzeneTotals()[0] == [1.0, 0.0, 0.0, 0.0, -1.0, 0.0, 0.0, 0.0, 0.0, -1.0, 0.0, 1.0];
    assert BenzeneRawSums()[3][0] == 4.0;
    assert DotRange([1, -1, 1, -1, -1, 1, 1, -1, 1, -1, -1, 1], [1.0, 0.0, 0.0, 0.0, -1.0, 0.0, 0.0, 0.0, 0.0, -1.0, 0.0, 1.0], 0, 12) == 4.0;
  }

  lemma BenzeneCoef3_1()
    ensures DotRange(D6h().irreps[3].chars, BenzeneTotals()[1], 0, |D6h().sizes|) == BenzeneRawSums()[3][1]
  {
    D6hChars3();
    assert BenzeneTotals()[1] == [0.0, 1.0, 0.0, 0.0, 0.0, -1.0, 0.0, 0.0, -1.0, 0.0, 1.0, 0.0];
    assert BenzeneRawSums()[3][1] == -4.0;
    assert DotRange([1, -1, 1, -1, -1, 1, 1, -1, 1, -1, -1, 1], [0.0, 1.0, 0.0, 0.0, 0.0, -1.0, 0.0, 0.0, -1.0, 0.0, 1.0, 0.0], 0, 12) == -4.0;
  }

  lemma BenzeneCoef3_2()
    ensures DotRange(D6h().irreps[3].chars, BenzeneTotals()[2], 0, |D6h().sizes|) == BenzeneRawSums()[3][2]
  {
    D6hChars3();
    assert BenzeneTotals()[2] == [0.0, 0.0, 1.0, 0.0, -1.0, 0.0, 0.0, -1.0, 0.0, 0.0, 0.0, 1.0];
    assert BenzeneRawSums()[3][2] == 4.0;
    assert DotRange([1, -1, 1, -1, -1, 1, 1, -1, 1, -1, -1, 1], [0.0, 0.0, 1.0, 0.0, -1.0, 0.0, 0.0, -1.0, 0.0, 0.0, 0.0, 1.0], 0, 12) == 4.0;
  }

  lemma BenzeneCoef3_3()
    ensures DotRange(D6h().irreps[3].chars, BenzeneTotals()[3], 0, |D6h().sizes|) == BenzeneRawSums()[3][3]
  {
    D6hChars3();
    assert BenzeneTotals()[3] == [0.0, 0.0, 0.0, 1.0, 0.0, -1.0, -1.0, 0.0, 0.0, 0.0, 1.0, 0.0];
    assert BenzeneRawSums()[3][3] == -4.0;
    assert DotRange([1, -1, 1, -1, -1, 1, 1, -1, 1, -1, -1, 1], [0.0, 0.0, 0.0, 1.0, 0.0, -1.0, -1.0, 0.0, 0.0, 0.0, 1.0, 0.0], 0, 12) == -4.0;
  }

  lemma BenzeneCoef3_4()
    ensures DotRange(D6h().irreps[3].chars, BenzeneTotals()[4], 0, |D6h().sizes|) == BenzeneRawSums()[3][4]
  {
    D6hChars3();
    assert BenzeneTotals()[4] == [0.0, 0.0, 1.0, 0.0, -1.0, 0.0, 0.0, -1.0, 0.0, 0.0, 0.0, 1.0];
    assert BenzeneRawSums()[3][4] == 4.0;
    assert DotRange([1, -1, 1, -1, -1, 1, 1, -1, 1, -1, -1, 1], [0.0, 0.0, 1.0, 0.0, -1.0, 0.0, 0.0, -1.0, 0.0, 0.0, 0.0, 1.0], 0, 12) == 4.0;
  }

  lemma BenzeneCoef3_5()
    ensures DotRange(D6h().irreps[3].chars, BenzeneTotals()[5], 0, |D6h().sizes|) == BenzeneRawSums()[3][5]
  {
    D6hChars3();
    assert BenzeneTotals()[5] == [0.0, 1.0, 0.0, 0.0, 0.0, -1.0, 0.0, 0.0, -1.0, 0.0, 1.0, 0.0];
    assert BenzeneRawSums()[3][5] == -4.0;
    assert DotRange([1, -1, 1, -1, -1, 1, 1, -1, 1, -1, -1, 1], [0.0, 1.0, 0.0, 0.0, 0.0, -1.0, 0.0, 0.0, -1.0, 0.0, 1.0, 0.0], 0, 12) == -4.0;
  }

  lemma BenzeneCoefs3()
    ensures |BenzeneRawSums()[3]| == 6
    ensures forall s: Sym :: s < 6 ==> DotRange(D6h().irreps[3].chars, BenzeneTotals()[s], 0, |D6h().sizes|) == BenzeneRawSums()[3][s]
  {
    forall s: Sym | s < 6
      ensures DotRange(D6h().irreps[3].chars, BenzeneTotals()[s], 0, |D6h().sizes|) == BenzeneRawSums()[3][s]
    {
      if s == 0 {
        BenzeneCoef3_0();
      } else if s == 1 {
        BenzeneCoef3_1();
      } else if s == 2 {
        BenzeneCoef3_2();
      } else if s == 3 {
        BenzeneCoef3_3();
      } else if s == 4 {
        BenzeneCoef3_4();
      } else if s == 5 {
        BenzeneCoef3_5();
      }
    }
  }

  lemma BenzeneRaw3(v: seq<Lin>)
    requires BenzeneLike(v)
    ensures WellFormed(D6h()) && Raw(D6h(), 3, v) == BenzeneRawSums()[3]
  {
    D6hWellFormed();
    BenzeneCoefs3();
    RawFromCoefs(D6h(), 3, v, 6, BenzeneRawSums()[3]);
  }

  lemma BenzeneNorm3()
    ensures Dim(D6h().irreps[3]) == 1 && Order(D6h()) == 24
    ensures Normalise(BenzeneRawSums()[3], Some(0), Dim(D6h().irreps[3]), Order(D6h())) == BenzeneSalcs()[3]
  {
    assert BenzeneRawSums()[3] == [4.0, -4.0, 4.0, -4.0, 4.0, -4.0];
    assert BenzeneSalcs()[3] == Combo([1.0, -1.0, 1.0, -1.0, 1.0, -1.0]);
    D6hShape();
    assert D6h().irreps[3].chars[0] == 1;
    Extensionality(Scale(1.0 / 4.0, [4.0, -4.0, 4.0, -4.0, 4.0, -4.0]), [1.0, -1.0, 1.0, -1.0, 1.0, -1.0]);
  }

  lemma BenzeneCoef4_0()
    ensures DotRange(D6h().irreps[4].chars, BenzeneTotals()[0], 0, |D6h().sizes|) == BenzeneRawSums()[4][0]
  {
    D6hChars4();
    assert BenzeneTotals()[0] == [1.0, 0.0, 0.0, 0.0, -1.0, 0.0, 0.0, 0.0, 0.0, -1.0, 0.0, 1.0];
    assert BenzeneRawSums()[4][0] == 4.0;
    assert DotRange([2, 1, -1, -2, 0, 0, 2, 1, -1, -2, 0, 0], [1.0, 0.0, 0.0, 0.0, -1.0, 0.0, 0.0, 0.0, 0.0, -1.0, 0.0, 1.0], 0, 12) == 4.0;
  }

  lemma BenzeneCoef4_1()
    ensures DotRange(D6h().irreps[4].chars, BenzeneTotals()[1], 0, |D6h().sizes|) == BenzeneRawSums()[4][1]
  {
    D6hChars4();
    assert BenzeneTotals()[1] == [0.0, 1.0, 0.0, 0.0, 0.0, -1.0, 0.0, 0.0, -1.0, 0.0, 1.0, 0.0];
    assert BenzeneRawSums()[4][1] == 2.0;
    assert DotRange([2, 1, -1, -2, 0, 0, 2, 1, -1, -2, 0, 0], [0.0, 1.0, 0.0, 0.0, 0.0, -1.0, 0.0, 0.0, -1.0, 0.0, 1.0, 0.0], 0, 12) == 2.0;
  }

  lemma BenzeneCoef4_2()
    ensures DotRange(D6h().irreps[4].chars, BenzeneTotals()[2], 0, |D6h().sizes|) == BenzeneRawSums()[4][2]
  {
    D6hChars4();
    assert BenzeneTotals()[2] == [0.0, 0.0, 1.0, 0.0, -1.0, 0.0, 0.0, -1.0, 0.0, 0.0, 0.0, 1.0];
    assert BenzeneRawSums()[4][2] == -2.0;
    assert DotRange([2, 1, -1, -2, 0, 0, 2, 1, -1, -2, 0, 0], [0.0, 0.0, 1.0, 0.0, -1.0, 0.0, 0.0, -1.0, 0.0, 0.0, 0.0, 1.0], 0, 12) == -2.0;
  }

  lemma BenzeneCoef4_3()
    ensures DotRange(D6h().irreps[4].chars, BenzeneTotals()[3], 0, |D6h().sizes|) == BenzeneRawSums()[4][3]
  {
    D6hChars4();
    assert BenzeneTotals()[3] == [0.0, 0.0, 0.0, 1.0, 0.0, -1.0, -1.0, 0.0, 0.0, 0.0, 1.0, 0.0];
    assert BenzeneRawSums()[4][3] == -4.0;
    assert DotRange([2, 1, -1, -2, 0, 0, 2, 1, -1, -2, 0, 0], [0.0, 0.0, 0.0, 1.0, 0.0, -1.0, -1.0, 0.0, 0.0, 0.0, 1.0, 0.0], 0, 12) == -4.0;
  }

  lemma BenzeneCoef4_4()
    ensures DotRange(D6h().irreps[4].chars, BenzeneTotals()[4], 0, |D6h().sizes|) == BenzeneRawSums()[4][4]
  {
    D6hChars4();
    assert BenzeneTotals()[4] == [0.0, 0.0, 1.0, 0.0, -1.0, 0.0, 0.0, -1.0, 0.0, 0.0, 0.0, 1.0];
    assert BenzeneRawSums()[4][4] == -2.0;
    assert DotRange([2, 1, -1, -2, 0, 0, 2, 1, -1, -2, 0, 0], [0.0, 0.0, 1.0, 0.0, -1.0, 0.0, 0.0, -1.0, 0.0, 0.0, 0.0, 1.0], 0, 12) == -2.0;
  }

  lemma BenzeneCoef4_5()
    ensures DotRange(D6h().irreps[4].chars, BenzeneTotals()[5], 0, |D6h().sizes|) == BenzeneRawSums()[4][5]
  {
    D6hChars4();
    assert BenzeneTotals()[5] == [0.0, 1.0, 0.0, 0.0, 0.0, -1.0, 0.0, 0.0, -1.0, 0.0, 1.0, 0.0];
    assert BenzeneRawSums()[4][5] == 2.0;
    assert DotRange([2, 1, -1, -2, 0, 0, 2, 1, -1, -2, 0, 0], [0.0, 1.0, 0.0, 0.0, 0.0, -1.0, 0.0, 0.0, -1.0, 0.0, 1.0, 0.0], 0, 12) == 2.0;
  }

  lemma BenzeneCoefs4()
    ensures |BenzeneRawSums()[4]| == 6
    ensures forall s: Sym :: s < 6 ==> DotRange(D6h().irreps[4].chars, BenzeneTotals()[s], 0, |D6h().sizes|) == BenzeneRawSums()[4][s]
  {
    forall s: Sym | s < 6
      ensures DotRange(D6h().irreps[4].chars, BenzeneTotals()[s], 0, |D6h().sizes|) == BenzeneRawSums()[4][s]
    {
      if s == 0 {
        BenzeneCoef4_0();
      } else if s == 1 {
        BenzeneCoef4_1();
      } else if s == 2 {
        BenzeneCoef4_2();
      } else if s == 3 {
        BenzeneCoef4_3();
      } else if s == 4 {
        BenzeneCoef4_4();
      } else if s == 5 {
        BenzeneCoef4_5();
      }
    }
  }

  lemma BenzeneRaw4(v: seq<Lin>)
    requires BenzeneLike(v)
    ensures WellFormed(D6h()) && Raw(D6h(), 4, v) == BenzeneRawSums()[4]
  {
    D6hWellFormed();
    BenzeneCoefs4();
    RawFromCoefs(D6h(), 4, v, 6, BenzeneRawSums()[4]);
  }

  lemma BenzeneNorm4()
    ensures Dim(D6h().irreps[4]) == 2 && Order(D6h()) == 24
    ensures Normalise(BenzeneRawSums()[4], Some(0), Dim(D6h().irreps[4]), Order(D6h())) == BenzeneSalcs()[4]
  {
    assert BenzeneRawSums()[4] == [4.0, 2.0, -2.0, -4.0, -2.0, 2.0];
    assert BenzeneSalcs()[4] == Combo([1.0, 0.5, -0.5, -1.0, -0.5, 0.5]);
    D6hShape();
    assert D6h().irreps[4].chars[0] == 2;
    Extensionality(Scale(1.0 / 4.0, [4.0, 2.0, -2.0, -4.0, -2.0, 2.0]), [1.0, 0.5, -0.5, -1.0, -0.5, 0.5]);
  }

  lemma BenzeneCoef5_0()
    ensures DotRange(D6h().irreps[5].chars, BenzeneTotals()[0], 0, |D6h().sizes|) == BenzeneRawSums()[5][0]
  {
    D6hChars5();
    assert BenzeneTotals()[0] == [1.0, 0.0, 0.0, 0.0, -1.0, 0.0, 0.0, 0.0, 0.0, -1.0, 0.0, 1.0];
    assert BenzeneRawSums()[5][0] == 0.0;
    assert DotRange([2, -1, -1, 2, 0, 0, 2, -1, -1, 2, 0, 0], [1.0, 0.0, 0.0, 0.0, -1.0, 0.0, 0.0, 0.0, 0.0, -1.0, 0.0, 1.0], 0, 12) == 0.0;
  }

  lemma BenzeneCoef5_1()
    ensures DotRange(D6h().irreps[5].chars, BenzeneTotals()[1], 0, |D6h().sizes|) == BenzeneRawSums()[5][1]
  {
    D6hChars5();
    assert BenzeneTotals()[1] == [0.0, 1.0, 0.0, 0.0, 0.0, -1.0, 0.0, 0.0, -1.0, 0.0, 1.0, 0.0];
    assert BenzeneRawSums()[5][1] == 0.0;
    assert DotRange([2, -1, -1, 2, 0, 0, 2, -1, -1, 2, 0, 0], [0.0, 1.0, 0.0, 0.0, 0.0, -1.0, 0.0, 0.0, -1.0, 0.0, 1.0, 0.0], 0, 12) == 0.0;
  }

  lemma BenzeneCoef5_2()
    ensures DotRange(D6h().irreps[5].chars, BenzeneTotals()[2], 0, |D6h().sizes|) == BenzeneRawSums()[5][2]
  {
    D6hChars5();
    assert BenzeneTotals()[2] == [0.0, 0.0, 1.0, 0.0, -1.0, 0.0, 0.0, -1.0, 0.0, 0.0, 0.0, 1.0];
    assert BenzeneRawSums()[5][2] == 0.0;
    assert DotRange([2, -1, -1, 2, 0, 0, 2, -1, -1, 2, 0, 0], [0.0, 0.0, 1.0, 0.0, -1.0, 0.0, 0.0, -1.0, 0.0, 0.0, 0.0, 1.0], 0, 12) == 0.0;
  }

  lemma BenzeneCoef5_3()
    ensures DotRange(D6h().irreps[5].chars, BenzeneTotals()[3], 0, |D6h().sizes|) == BenzeneRawSums()[5][3]
  {
    D6hChars5();
    assert BenzeneTotals()[3] == [0.0, 0.0, 0.0, 1.0, 0.0, -1.0, -1.0, 0.0, 0.0, 0.0, 1.0, 0.0];
    assert BenzeneRawSums()[5][3] == 0.0;
    assert DotRange([2, -1, -1, 2, 0, 0, 2, -1, -1, 2, 0, 0], [0.0, 0.0, 0.0, 1.0, 0.0, -1.0, -1.0, 0.0, 0.0, 0.0, 1.0, 0.0], 0, 12) == 0.0;
  }

  lemma BenzeneCoef5_4()
    ensures DotRange(D6h().irreps[5].chars, BenzeneTotals()[4], 0, |D6h().sizes|) == BenzeneRawSums()[5][4]
  {
    D6hChars5();
    assert BenzeneTotals()[4] == [0.0, 0.0, 1.0, 0.0, -1.0, 0.0, 0.0, -1.0, 0.0, 0.0, 0.0, 1.0];
    assert BenzeneRawSums()[5][4] == 0.0;
    assert DotRange([2, -1, -1, 2, 0, 0, 2, -1, -1, 2, 0, 0], [0.0, 0.0, 1.0, 0.0, -1.0, 0.0, 0.0, -1.0, 0.0, 0.0, 0.0, 1.0], 0, 12) == 0.0;
  }

  lemma BenzeneCoef5_5()
    ensures DotRange(D6h().irreps[5].chars, BenzeneTotals()[5], 0, |D6h().sizes|) == BenzeneRawSums()[5][5]
  {
    D6hChars5();
    assert BenzeneTotals()[5] == [0.0, 1.0, 0.0, 0.0, 0.0, -1.0, 0.0, 0.0, -1.0, 0.0, 1.0, 0.0];
    assert BenzeneRawSums()[5][5] == 0.0;
    assert DotRange([2, -1, -1, 2, 0, 0, 2, -1, -1, 2, 0, 0], [0.0, 1.0, 0.0, 0.0, 0.0, -1.0, 0.0, 0.0, -1.0, 0.0, 1.0, 0.0], 0, 12) == 0.0;
  }

  lemma BenzeneCoefs5()
    ensures |BenzeneRawSums()[5]| == 6
    ensures forall s: Sym :: s < 6 ==> DotRange(D6h().irreps[5].chars, BenzeneTotals()[s], 0, |D6h().sizes|) == BenzeneRawSums()[5][s]
  {
    forall s: Sym | s < 6
      ensures DotRange(D6h().irreps[5].chars, BenzeneTotals()[s], 0, |D6h().sizes|) == BenzeneRawSums()[5][s]
    {
      if s == 0 {
        BenzeneCoef5_0();
      } else if s == 1 {
        BenzeneCoef5_1();
      } else if s == 2 {
        BenzeneCoef5_2();
      } else if s == 3 {
        BenzeneCoef5_3();
      } else if s == 4 {
        BenzeneCoef5_4();
      } else if s == 5 {
        BenzeneCoef5_5();
      }
    }
  }

  lemma BenzeneRaw5(v: seq<Lin>)
    requires BenzeneLike(v)
    ensures WellFormed(D6h()) && Raw(D6h(), 5, v) == BenzeneRawSums()[5]
  {
    D6hWellFormed();
    BenzeneCoefs5();
    RawFromCoefs(D6h(), 5, v, 6, BenzeneRawSums()[5]);
  }

  lemma BenzeneNorm5()
    ensures Dim(D6h().irreps[5]) == 2 && Order(D6h()) == 24
    ensures Normalise(BenzeneRawSums()[5], Some(0), Dim(D6h().irreps[5]), Order(D6h())) == BenzeneSalcs()[5]
  {
    assert BenzeneRawSums()[5] == [0.0, 0.0, 0.0, 0.0, 0.0, 0.0];
    assert BenzeneSalcs()[5] == Zero;
    D6hShape();
    assert D6h().irreps[5].chars[0] == 2;
  }

  lemma BenzeneCoef6_0()
    ensures DotRange(D6h().irreps[6].chars, BenzeneTotals()[0], 0, |D6h().sizes|) == BenzeneRawSums()[6][0]
  {
    D6hChars6();
    assert BenzeneTotals()[0] == [1.0, 0.0, 0.0, 0.0, -1.0, 0.0, 0.0, 0.0, 0.0, -1.0, 0.0, 1.0];
    assert BenzeneRawSums()[6][0] == 0.0;
    assert DotRange([1, 1, 1, 1, 1, 1, -1, -1, -1, -1, -1, -1], [1.0, 0.0, 0.0, 0.0, -1.0, 0.0, 0.0, 0.0, 0.0, -1.0, 0.0, 1.0], 0, 12) == 0.0;
  }

  lemma BenzeneCoef6_1()
    ensures DotRange(D6h().irreps[6].chars, BenzeneTotals()[1], 0, |D6h().sizes|) == BenzeneRawSums()[6][1]
  {
    D6hChars6();
    assert BenzeneTotals()[1] == [0.0, 1.0, 0.0, 0.0, 0.0, -1.0, 0.0, 0.0, -1.0, 0.0, 1.0, 0.0];
    assert BenzeneRawSums()[6][1] == 0.0;
    assert DotRange([1, 1, 1, 1, 1, 1, -1, -1, -1, -1, -1, -1], [0.0, 1.0, 0.0, 0.0, 0.0, -1.0, 0.0, 0.0, -1.0, 0.0, 1.0, 0.0], 0, 12) == 0.0;
  }

  lemma BenzeneCoef6_2()
    ensures DotRange(D6h().irreps[6].chars, BenzeneTotals()[2], 0, |D6h().sizes|) == BenzeneRawSums()[6][2]
  {
    D6hChars6();
    assert BenzeneTotals()[2] == [0.0, 0.0, 1.0, 0.0, -1.0, 0.0, 0.0, -1.0, 0.0, 0.0, 0.0, 1.0];
    assert BenzeneRawSums()[6][2] == 0.0;
    assert DotRange([1, 1, 1, 1, 1, 1, -1, -1, -1, -1, -1, -1], [0.0, 0.0, 1.0, 0.0, -1.0, 0.0, 0.0, -1.0, 0.0, 0.0, 0.0, 1.0], 0, 12) == 0.0;
  }

  lemma BenzeneCoef6_3()
    ensures DotRange(D6h().irreps[6].chars, BenzeneTotals()[3], 0, |D6h().sizes|) == BenzeneRawSums()[6][3]
  {
    D6hChars6();
    assert BenzeneTotals()[3] == [0.0, 0.0, 0.0, 1.0, 0.0, -1.0, -1.0, 0.0, 0.0, 0.0, 1.0, 0.0];
    assert BenzeneRawSums()[6][3] == 0.0;
    assert DotRange([1, 1, 1, 1, 1, 1, -1, -1, -1, -1, -1, -1], [0.0, 0.0, 0.0, 1.0, 0.0, -1.0, -1.0, 0.0, 0.0, 0.0, 1.0, 0.0], 0, 12) == 0.0;
  }

  lemma BenzeneCoef6_4()
    ensures DotRange(D6h().irreps[6].chars, BenzeneTotals()[4], 0, |D6h().sizes|) == BenzeneRawSums()[6][4]
  {
    D6hChars6();
    assert BenzeneTotals()[4] == [0.0, 0.0, 1.0, 0.0, -1.0, 0.0, 0.0, -1.0, 0.0, 0.0, 0.0, 1.0];
    assert BenzeneRawSums()[6][4] == 0.0;
    assert DotRange([1, 1, 1, 1, 1, 1, -1, -1, -1, -1, -1, -1], [0.0, 0.0, 1.0, 0.0, -1.0, 0.0, 0.0, -1.0, 0.0, 0.0, 0.0, 1.0], 0, 12) == 0.0;
  }

  lemma BenzeneCoef6_5()
    ensures DotRange(D6h().irreps[6].chars, BenzeneTotals()[5], 0, |D6h().sizes|) == BenzeneRawSums()[6][5]
  {
    D6hChars6();
    assert BenzeneTotals()[5] == [0.0, 1.0, 0.0, 0.0, 0.0, -1.0, 0.0, 0.0, -1.0, 0.0, 1.0, 0.0];
    assert BenzeneRawSums()[6][5] == 0.0;
    assert DotRange([1, 1, 1, 1, 1, 1, -1, -1, -1, -1, -1, -1], [0.0, 1.0, 0.0, 0.0, 0.0, -1.0, 0.0, 0.0, -1.0, 0.0, 1.0, 0.0], 0, 12) == 0.0;
  }

  lemma BenzeneCoefs6()
    ensures |BenzeneRawSums()[6]| == 6
    ensures forall s: Sym :: s < 6 ==> DotRange(D6h().irreps[6].chars, BenzeneTotals()[s], 0, |D6h().sizes|) == BenzeneRawSums()[6][s]
  {
    forall s: Sym | s < 6
      ensures DotRange(D6h().irreps[6].chars, BenzeneTotals()[s], 0, |D6h().sizes|) == BenzeneRawSums()[6][s]
    {
      if s == 0 {
        BenzeneCoef6_0();
      } else if s == 1 {
        BenzeneCoef6_1();
      } else if s == 2 {
        BenzeneCoef6_2();
      } else if s == 3 {
        BenzeneCoef6_3();
      } else if s == 4 {
        BenzeneCoef6_4();
      } else if s == 5 {
        BenzeneCoef6_5();
      }
    }
  }

  lemma BenzeneRaw6(v: seq<Lin>)
    requires BenzeneLike(v)
    ensures WellFormed(D6h()) && Raw(D6h(), 6, v) == BenzeneRawSums()[6]
  {
    D6hWellFormed();
    BenzeneCoefs6();
    RawFromCoefs(D6h(), 6, v, 6, BenzeneRawSums()[6]);
  }

  lemma BenzeneNorm6()
    ensures Dim(D6h().irreps[6]) == 1 && Order(D6h()) == 24
    ensures Normalise(BenzeneRawSums()[6], Some(0), Dim(D6h().irreps[6]), Order(D6h())) == BenzeneSalcs()[6]
  {
    assert BenzeneRawSums()[6] == [0.0, 0.0, 0.0, 0.0, 0.0, 0.0];
    assert BenzeneSalcs()[6] == Zero;
    D6hShape();
    assert D6h().irreps[6].chars[0] == 1;
  }

  lemma BenzeneCoef7_0()
    ensures DotRange(D6h().irreps[7].chars, BenzeneTotals()[0], 0, |D6h().sizes|) == BenzeneRawSums()[7][0]
  {
    D6hChars7();
    assert BenzeneTotals()[0] == [1.0, 0.0, 0.0, 0.0, -1.0, 0.0, 0.0, 0.0, 0.0, -1.0, 0.0, 1.0];
    assert BenzeneRawSums()[7][0] == 4.0;
    assert DotRange([1, 1, 1, 1, -1, -1, -1, -1, -1, -1, 1, 1], [1.0, 0.0, 0.0, 0.0, -1.0, 0.0, 0.0, 0.0, 0.0, -1.0, 0.0, 1.0], 0, 12) == 4.0;
  }

  lemma BenzeneCoef7_1()
    ensures DotRange(D6h().irreps[7].chars, BenzeneTotals()[1], 0, |D6h().sizes|) == BenzeneRawSums()[7][1]
  {
    D6hChars7();
    assert BenzeneTotals()[1] == [0.0, 1.0, 0.0, 0.0, 0.0, -1.0, 0.0, 0.0, -1.0, 0.0, 1.0, 0.0];
    assert BenzeneRawSums()[7][1] == 4.0;
    assert DotRange([1, 1, 1, 1, -1, -1, -1, -1, -1, -1, 1, 1], [0.0, 1.0, 0.0, 0.0, 0.0, -1.0, 0.0, 0.0, -1.0, 0.0, 1.0, 0.0], 0, 12) == 4.0;
  }

  lemma BenzeneCoef7_2()
    ensures DotRange(D6h().irreps[7].chars, BenzeneTotals()[2], 0, |D6h().sizes|) == BenzeneRawSums()[7][2]
  {
    D6hChars7();
    assert BenzeneTotals()[2] == [0.0, 0.0, 1.0, 0.0, -1.0, 0.0, 0.0, -1.0, 0.0, 0.0, 0.0, 1.0];
    assert BenzeneRawSums()[7][2] == 4.0;
    assert DotRange([1, 1, 1, 1, -1, -1, -1, -1, -1, -1, 1, 1], [0.0, 0.0, 1.0, 0.0, -1.0, 0.0, 0.0, -1.0, 0.0, 0.0, 0.0, 1.0], 0, 12) == 4.0;
  }

  lemma BenzeneCoef7_3()
    ensures DotRange(D6h().irreps[7].chars, BenzeneTotals()[3], 0, |D6h().sizes|) == BenzeneRawSums()[7][3]
  {
    D6hChars7();
    assert BenzeneTotals()[3] == [0.0, 0.0, 0.0, 1.0, 0.0, -1.0, -1.0, 0.0, 0.0, 0.0, 1.0, 0.0];
    assert BenzeneRawSums()[7][3] == 4.0;
    assert DotRange([1, 1, 1, 1, -1, -1, -1, -1, -1, -1, 1, 1], [0.0, 0.0, 0.0, 1.0, 0.0, -1.0, -1.0, 0.0, 0.0, 0.0, 1.0, 0.0], 0, 12) == 4.0;
  }

  lemma BenzeneCoef7_4()
    ensures DotRange(D6h().irreps[7].chars, BenzeneTotals()[4], 0, |D6h().sizes|) == BenzeneRawSums()[7][4]
  {
    D6hChars7();
    assert BenzeneTotals()[4] == [0.0, 0.0, 1.0, 0.0, -1.0, 0.0, 0.0, -1.0, 0.0, 0.0, 0.0, 1.0];
    assert BenzeneRawSums()[7][4] == 4.0;
    assert DotRange([1, 1, 1, 1, -1, -1, -1, -1, -1, -1, 1, 1], [0.0, 0.0, 1.0, 0.0, -1.0, 0.0, 0.0, -1.0, 0.0, 0.0, 0.0, 1.0], 0, 12) == 4.0;
  }

  lemma BenzeneCoef7_5()
    ensures DotRange(D6h().irreps[7].chars, BenzeneTotals()[5], 0, |D6h().sizes|) == BenzeneRawSums()[7][5]
  {
    D6hChars7();
    assert BenzeneTotals()[5] == [0.0, 1.0, 0.0, 0.0, 0.0, -1.0, 0.0, 0.0, -1.0, 0.0, 1.0, 0.0];
    assert BenzeneRawSums()[7][5] == 4.0;
    assert DotRange([1, 1, 1, 1, -1, -1, -1, -1, -1, -1, 1, 1], [0.0, 1.0, 0.0, 0.0, 0.0, -1.0, 0.0, 0.0, -1.0, 0.0, 1.0, 0.0], 0, 12) == 4.0;
  }

  lemma BenzeneCoefs7()
    ensures |BenzeneRawSums()[7]| == 6
    ensures forall s: Sym :: s < 6 ==> DotRange(D6h().irreps[7].chars, BenzeneTotals()[s], 0, |D6h().sizes|) == BenzeneRawSums()[7][s]
  {
    forall s: Sym | s < 6
      ensures DotRange(D6h().irreps[7].chars, BenzeneTotals()[s], 0, |D6h().sizes|) == BenzeneRawSums()[7][s]
    {
      if s == 0 {
        BenzeneCoef7_0();
      } else if s == 1 {
        BenzeneCoef7_1();
      } else if s == 2 {
        BenzeneCoef7_2();
      } else if s == 3 {
        BenzeneCoef7_3();
      } else if s == 4 {
        BenzeneCoef7_4();
      } else if s == 5 {
        BenzeneCoef7_5();
      }
    }
  }

  lemma BenzeneRaw7(v: seq<Lin>)
    requires BenzeneLike(v)
    ensures WellFormed(D6h()) && Raw(D6h(), 7, v) == BenzeneRawSums()[7]
  {
    D6hWellFormed();
    BenzeneCoefs7();
    RawFromCoefs(D6h(), 7, v, 6, BenzeneRawSums()[7]);
  }

  lemma BenzeneNorm7()
    ensures Dim(D6h().irreps[7]) == 1 && Order(D6h()) == 24
    ensures Normalise(BenzeneRawSums()[7], Some(0), Dim(D6h().irreps[7]), Order(D6h())) == BenzeneSalcs()[7]
  {
    assert BenzeneRawSums()[7] == [4.0, 4.0, 4.0, 4.0, 4.0, 4.0];
    assert BenzeneSalcs()[7] == Combo([1.0, 1.0, 1.0, 1.0, 1.0, 1.0]);
    D6hShape();
    assert D6h().irreps[7].chars[0] == 1;
    Extensionality(Scale(1.0 / 4.0, [4.0, 4.0, 4.0, 4.0, 4.0, 4.0]), [1.0, 1.0, 1.0, 1.0, 1.0, 1.0]);
  }

  lemma BenzeneCoef8_0()
    ensures DotRange(D6h().irreps[8].chars, BenzeneTotals()[0], 0, |D6h().sizes|) == BenzeneRawSums()[8][0]
  {
    D6hChars8();
    assert BenzeneTotals()[0] == [1.0, 0.0, 0.0, 0.0, -1.0, 0.0, 0.0, 0.0, 0.0, -1.0, 0.0, 1.0];
    assert BenzeneRawSums()[8][0] == 0.0;
    assert DotRange([1, -1, 1, -1, 1, -1, -1, 1, -1, 1, -1, 1], [1.0, 0.0, 0.0, 0.0, -1.0, 0.0, 0.0, 0.0, 0.0, -1.0, 0.0, 1.0], 0, 12) == 0.0;
  }

  lemma BenzeneCoef8_1()
    ensures DotRange(D6h().irreps[8].chars, BenzeneTotals()[1], 0, |D6h().sizes|) == BenzeneRawSums()[8][1]
  {
    D6hChars8();
    assert BenzeneTotals()[1] == [0.0, 1.0, 0.0, 0.0, 0.0, -1.0, 0.0, 0.0, -1.0, 0.0, 1.0, 0.0];
    assert BenzeneRawSums()[8][1] == 0.0;
    assert DotRange([1, -1, 1, -1, 1, -1, -1, 1, -1, 1, -1, 1], [0.0, 1.0, 0.0, 0.0, 0.0, -1.0, 0.0, 0.0, -1.0, 0.0, 1.0, 0.0], 0, 12) == 0.0;
  }

  lemma BenzeneCoef8_2()
    ensures DotRange(D6h().irreps[8].chars, BenzeneTotals()[2], 0, |D6h().sizes|) == BenzeneRawSums()[8][2]
  {
    D6hChars8();
    assert BenzeneTotals()[2] == [0.0, 0.0, 1.0, 0.0, -1.0, 0.0, 0.0, -1.0, 0.0, 0.0, 0.0, 1.0];
    assert BenzeneRawSums()[8][2] == 0.0;
    assert DotRange([1, -1, 1, -1, 1, -1, -1, 1, -1, 1, -1, 1], [0.0, 0.0, 1.0, 0.0, -1.0, 0.0, 0.0, -1.0, 0.0, 0.0, 0.0, 1.0], 0, 12) == 0.0;
  }

  lemma BenzeneCoef8_3()
    ensures DotRange(D6h().irreps[8].chars, BenzeneTotals()[3], 0, |D6h().sizes|) == BenzeneRawSums()[8][3]
  {
    D6hChars8();
    assert BenzeneTotals()[3] == [0.0, 0.0, 0.0, 1.0, 0.0, -1.0, -1.0, 0.0, 0.0, 0.0, 1.0, 0.0];
    assert BenzeneRawSums()[8][3] == 0.0;
    assert DotRange([1, -1, 1, -1, 1, -1, -1, 1, -1, 1, -1, 1], [0.0, 0.0, 0.0, 1.0, 0.0, -1.0, -1.0, 0.0, 0.0, 0.0, 1.0, 0.0], 0, 12) == 0.0;
  }

  lemma BenzeneCoef8_4()
    ensures DotRange(D6h().irreps[8].chars, BenzeneTotals()[4], 0, |D6h().sizes|) == BenzeneRawSums()[8][4]
  {
    D6hChars8();
    assert BenzeneTotals()[4] == [0.0, 0.0, 1.0, 0.0, -1.0, 0.0, 0.0, -1.0, 0.0, 0.0, 0.0, 1.0];
    assert BenzeneRawSums()[8][4] == 0.0;
    assert DotRange([1, -1, 1, -1, 1, -1, -1, 1, -1, 1, -1, 1], [0.0, 0.0, 1.0, 0.0, -1.0, 0.0, 0.0, -1.0, 0.0, 0.0, 0.0, 1.0], 0, 12) == 0.0;
  }

  lemma BenzeneCoef8_5()
    ensures DotRange(D6h().irreps[8].chars, BenzeneTotals()[5], 0, |D6h().sizes|) == BenzeneRawSums()[8][5]
  {
    D6hChars8();
    assert BenzeneTotals()[5] == [0.0, 1.0, 0.0, 0.0, 0.0, -1.0, 0.0, 0.0, -1.0, 0.0, 1.0, 0.0];
    assert BenzeneRawSums()[8][5] == 0.0;
    assert DotRange([1, -1, 1, -1, 1, -1, -1, 1, -1, 1, -1, 1], [0.0, 1.0, 0.0, 0.0, 0.0, -1.0, 0.0, 0.0, -1.0, 0.0, 1.0, 0.0], 0, 12) == 0.0;
  }

  lemma BenzeneCoefs8()
    ensures |BenzeneRawSums()[8]| == 6
    ensures forall s: Sym :: s < 6 ==> DotRange(D6h().irreps[8].chars, BenzeneTotals()[s], 0, |D6h().sizes|) == BenzeneRawSums()[8][s]
  {
    forall s: Sym | s < 6
      ensures DotRange(D6h().irreps[8].chars, BenzeneTotals()[s], 0, |D6h().sizes|) == BenzeneRawSums()[8][s]
    {
      if s == 0 {
        BenzeneCoef8_0();
      } else if s == 1 {
        BenzeneCoef8_1();
      } else if s == 2 {
        BenzeneCoef8_2();
      } else if s == 3 {
        BenzeneCoef8_3();
      } else if s == 4 {
        BenzeneCoef8_4();
      } else if s == 5 {
        BenzeneCoef8_5();
      }
    }
  }

  lemma BenzeneRaw8(v: seq<Lin>)
    requires BenzeneLike(v)
    ensures WellFormed(D6h()) && Raw(D6h(), 8, v) == BenzeneRawSums()[8]
  {
    D6hWellFormed();
    BenzeneCoefs8();
    RawFromCoefs(D6h(), 8, v, 6, BenzeneRawSums()[8]);
  }

  lemma BenzeneNorm8()
    ensures Dim(D6h().irreps[8]) == 1 && Order(D6h()) == 24
    ensures Normalise(BenzeneRawSums()[8], Some(0), Dim(D6h().irreps[8]), Order(D6h())) == BenzeneSalcs()[8]
  {
    assert BenzeneRawSums()[8] == [0.0, 0.0, 0.0, 0.0, 0.0, 0.0];
    assert BenzeneSalcs()[8] == Zero;
    D6hShape();
    assert D6h().irreps[8].chars[0] == 1;
  }

  lemma BenzeneCoef9_0()
    ensures DotRange(D6h().irreps[9].chars, BenzeneTotals()[0], 0, |D6h().sizes|) == BenzeneRawSums()[9][0]
  {
    D6hChars9();
    assert BenzeneTotals()[0] == [1.0, 0.0, 0.0, 0.0, -1.0, 0.0, 0.0, 0.0, 0.0, -1.0, 0.0, 1.0];
    assert BenzeneRawSums()[9][0] == 0.0;
    assert DotRange([1, -1, 1, -1, -1, 1, -1, 1, -1, 1, 1, -1], [1.0, 0.0, 0.0, 0.0, -1.0, 0.0, 0.0, 0.0, 0.0, -1.0, 0.0, 1.0], 0, 12) == 0.0;
  }

  lemma BenzeneCoef9_1()
    ensures DotRange(D6h().irreps[9].chars, BenzeneTotals()[1], 0, |D6h().sizes|) == BenzeneRawSums()[9][1]
  {
    D6hChars9();
    assert BenzeneTotals()[1] == [0.0, 1.0, 0.0, 0.0, 0.0, -1.0, 0.0, 0.0, -1.0, 0.0, 1.0, 0.0];
    assert BenzeneRawSums()[9][1] == 0.0;
    assert DotRange([1, -1, 1, -1, -1, 1, -1, 1, -1, 1, 1, -1], [0.0, 1.0, 0.0, 0.0, 0.0, -1.0, 0.0, 0.0, -1.0, 0.0, 1.0, 0.0], 0, 12) == 0.0;
  }

  lemma BenzeneCoef9_2()
    ensures DotRange(D6h().irreps[9].chars, BenzeneTotals()[2], 0, |D6h().sizes|) == BenzeneRawSums()[9][2]
  {
    D6hChars9();
    assert BenzeneTotals()[2] == [0.0, 0.0, 1.0, 0.0, -1.0, 0.0, 0.0, -1.0, 0.0, 0.0, 0.0, 1.0];
    assert BenzeneRawSums()[9][2] == 0.0;
    assert DotRange([1, -1, 1, -1, -1, 1, -1, 1, -1, 1, 1, -1], [0.0, 0.0, 1.0, 0.0, -1.0, 0.0, 0.0, -1.0, 0.0, 0.0, 0.0, 1.0], 0, 12) == 0.0;
  }

  lemma BenzeneCoef9_3()
    ensures DotRange(D6h().irreps[9].chars, BenzeneTotals()[3], 0, |D6h().sizes|) == BenzeneRawSums()[9][3]
  {
    D6hChars9();
    assert BenzeneTotals()[3] == [0.0, 0.0, 0.0, 1.0, 0.0, -1.0, -1.0, 0.0, 0.0, 0.0, 1.0, 0.0];
    assert BenzeneRawSums()[9][3] == 0.0;
    assert DotRange([1, -1, 1, -1, -1, 1, -1, 1, -1, 1, 1, -1], [0.0, 0.0, 0.0, 1.0, 0.0, -1.0, -1.0, 0.0, 0.0, 0.0, 1.0, 0.0], 0, 12) == 0.0;
  }

  lemma BenzeneCoef9_4()
    ensures DotRange(D6h().irreps[9].chars, BenzeneTotals()[4], 0, |D6h().sizes|) == BenzeneRawSums()[9][4]
  {
    D6hChars9();
    assert BenzeneTotals()[4] == [0.0, 0.0, 1.0, 0.0, -1.0, 0.0, 0.0, -1.0, 0.0, 0.0, 0.0, 1.0];
    assert BenzeneRawSums()[9][4] == 0.0;
    assert DotRange([1, -1, 1, -1, -1, 1, -1, 1, -1, 1, 1, -1], [0.0, 0.0, 1.0, 0.0, -1.0, 0.0, 0.0, -1.0, 0.0, 0.0, 0.0, 1.0], 0, 12) == 0.0;
  }

  lemma BenzeneCoef9_5()
    ensures DotRange(D6h().irreps[9].chars, BenzeneTotals()[5], 0, |D6h().sizes|) == BenzeneRawSums()[9][5]
  {
    D6hChars9();
    assert BenzeneTotals()[5] == [0.0, 1.0, 0.0, 0.0, 0.0, -1.0, 0.0, 0.0, -1.0, 0.0, 1.0, 0.0];
    assert BenzeneRawSums()[9][5] == 0.0;
    assert DotRange([1, -1, 1, -1, -1, 1, -1, 1, -1, 1, 1, -1], [0.0, 1.0, 0.0, 0.0, 0.0, -1.0, 0.0, 0.0, -1.0, 0.0, 1.0, 0.0], 0, 12) == 0.0;
  }

  lemma BenzeneCoefs9()
    ensures |BenzeneRawSums()[9]| == 6
    ensures forall s: Sym :: s < 6 ==> DotRange(D6h().irreps[9].chars, BenzeneTotals()[s], 0, |D6h().sizes|) == BenzeneRawSums()[9][s]
  {
    forall s: Sym | s < 6
      ensures DotRange(D6h().irreps[9].chars, BenzeneTotals()[s], 0, |D6h().sizes|) == BenzeneRawSums()[9][s]
    {
      if s == 0 {
        BenzeneCoef9_0();
      } else if s == 1 {
        BenzeneCoef9_1();
      } else if s == 2 {
        BenzeneCoef9_2();
      } else if s == 3 {
        BenzeneCoef9_3();
      } else if s == 4 {
        BenzeneCoef9_4();
      } else if s == 5 {
        BenzeneCoef9_5();
      }
    }
  }

  lemma BenzeneRaw9(v: seq<Lin>)
    requires BenzeneLike(v)
    ensures WellFormed(D6h()) && Raw(D6h(), 9, v) == BenzeneRawSums()[9]
  {
    D6hWellFormed();
    BenzeneCoefs9();
    RawFromCoefs(D6h(), 9, v, 6, BenzeneRawSums()[9]);
  }

  lemma BenzeneNorm9()
    ensures Dim(D6h().irreps[9]) == 1 && Order(D6h()) == 24
    ensures Normalise(BenzeneRawSums()[9], Some(0), Dim(D6h().irreps[9]), Order(D6h())) == BenzeneSalcs()[9]
  {
    assert BenzeneRawSums()[9] == [0.0, 0.0, 0.0, 0.0, 0.0, 0.0];
    assert BenzeneSalcs()[9] == Zero;
    D6hShape();
    assert D6h().irreps[9].chars[0] == 1;
  }

  lemma BenzeneCoef10_0()
    ensures DotRange(D6h().irreps[10].chars, BenzeneTotals()[0], 0, |D6h().sizes|) == BenzeneRawSums()[10][0]
  {
    D6hChars10();
    assert BenzeneTotals()[0] == [1.0, 0.0, 0.0, 0.0, -1.0, 0.0, 0.0, 0.0, 0.0, -1.0, 0.0, 1.0];
    assert BenzeneRawSums()[10][0] == 0.0;
    assert DotRange([2, 1, -1, -2, 0, 0, -2, -1, 1, 2, 0, 0], [1.0, 0.0, 0.0, 0.0, -1.0, 0.0, 0.0, 0.0, 0.0, -1.0, 0.0, 1.0], 0, 12) == 0.0;
  }

  lemma BenzeneCoef10_1()
    ensures DotRange(D6h().irreps[10].chars, BenzeneTotals()[1], 0, |D6h().sizes|) == BenzeneRawSums()[10][1]
  {
    D6hChars10();
    assert BenzeneTotals()[1] == [0.0, 1.0, 0.0, 0.0, 0.0, -1.0, 0.0, 0.0, -1.0, 0.0, 1.0, 0.0];
    assert BenzeneRawSums()[10][1] == 0.0;
    assert DotRange([2, 1, -1, -2, 0, 0, -2, -1, 1, 2, 0, 0], [0.0, 1.0, 0.0, 0.0, 0.0, -1.0, 0.0, 0.0, -1.0, 0.0, 1.0, 0.0], 0, 12) == 0.0;
  }

  lemma BenzeneCoef10_2()
    ensures DotRange(D6h().irreps[10].chars, BenzeneTotals()[2], 0, |D6h().sizes|) == BenzeneRawSums()[10][2]
  {
    D6hChars10();
    assert BenzeneTotals()[2] == [0.0, 0.0, 1.0, 0.0, -1.0, 0.0, 0.0, -1.0, 0.0, 0.0, 0.0, 1.0];
    assert BenzeneRawSums()[10][2] == 0.0;
    assert DotRange([2, 1, -1, -2, 0, 0, -2, -1, 1, 2, 0, 0], [0.0, 0.0, 1.0, 0.0, -1.0, 0.0, 0.0, -1.0, 0.0, 0.0, 0.0, 1.0], 0, 12) == 0.0;
  }

  lemma BenzeneCoef10_3()
    ensures DotRange(D6h().irreps[10].chars, BenzeneTotals()[3], 0, |D6h().sizes|) == BenzeneRawSums()[10][3]
  {
    D6hChars10();
    assert BenzeneTotals()[3] == [0.0, 0.0, 0.0, 1.0, 0.0, -1.0, -1.0, 0.0, 0.0, 0.0, 1.0, 0.0];
    assert BenzeneRawSums()[10][3] == 0.0;
    assert DotRange([2, 1, -1, -2, 0, 0, -2, -1, 1, 2, 0, 0], [0.0, 0.0, 0.0, 1.0, 0.0, -1.0, -1.0, 0.0, 0.0, 0.0, 1.0, 0.0], 0, 12) == 0.0;
  }

  lemma BenzeneCoef10_4()
    ensures DotRange(D6h().irreps[10].chars, BenzeneTotals()[4], 0, |D6h().sizes|) == BenzeneRawSums()[10][4]
  {
    D6hChars10();
    assert BenzeneTotals()[4] == [0.0, 0.0, 1.0, 0.0, -1.0, 0.0, 0.0, -1.0, 0.0, 0.0, 0.0, 1.0];
    assert BenzeneRawSums()[10][4] == 0.0;
    assert DotRange([2, 1, -1, -2, 0, 0, -2, -1, 1, 2, 0, 0], [0.0, 0.0, 1.0, 0.0, -1.0, 0.0, 0.0, -1.0, 0.0, 0.0, 0.0, 1.0], 0, 12) == 0.0;
  }

  lemma BenzeneCoef10_5()
    ensures DotRange(D6h().irreps[10].chars, BenzeneTotals()[5], 0, |D6h().sizes|) == BenzeneRawSums()[10][5]
  {
    D6hChars10();
    assert BenzeneTotals()[5] == [0.0, 1.0, 0.0, 0.0, 0.0, -1.0, 0.0, 0.0, -1.0, 0.0, 1.0, 0.0];
    assert BenzeneRawSums()[10][5] == 0.0;
    assert DotRange([2, 1, -1, -2, 0, 0, -2, -1, 1, 2, 0, 0], [0.0, 1.0, 0.0, 0.0, 0.0, -1.0, 0.0, 0.0, -1.0, 0.0, 1.0, 0.0], 0, 12) == 0.0;
  }

  lemma BenzeneCoefs10()
    ensures |BenzeneRawSums()[10]| == 6
    ensures forall s: Sym :: s < 6 ==> DotRange(D6h().irreps[10].chars, BenzeneTotals()[s], 0, |D6h().sizes|) == BenzeneRawSums()[10][s]
  {
    forall s: Sym | s < 6
      ensures DotRange(D6h().irreps[10].chars, BenzeneTotals()[s], 0, |D6h().sizes|) == BenzeneRawSums()[10][s]
    {
      if s == 0 {
        BenzeneCoef10_0();
      } else if s == 1 {
        BenzeneCoef10_1();
      } else if s == 2 {
        BenzeneCoef10_2();
      } else if s == 3 {
        BenzeneCoef10_3();
      } else if s == 4 {
        BenzeneCoef10_4();
      } else if s == 5 {
        BenzeneCoef10_5();
      }
    }
  }

  lemma BenzeneRaw10(v: seq<Lin>)
    requires BenzeneLike(v)
    ensures WellFormed(D6h()) && Raw(D6h(), 10, v) == BenzeneRawSums()[10]
  {
    D6hWellFormed();
    BenzeneCoefs10();
    RawFromCoefs(D6h(), 10, v, 6, BenzeneRawSums()[10]);
  }

  lemma BenzeneNorm10()
    ensures Dim(D6h().irreps[10]) == 2 && Order(D6h()) == 24
    ensures Normalise(BenzeneRawSums()[10], Some(0), Dim(D6h().irreps[10]), Order(D6h())) == BenzeneSalcs()[10]
  {
    assert BenzeneRawSums()[10] == [0.0, 0.0, 0.0, 0.0, 0.0, 0.0];
    assert BenzeneSalcs()[10] == Zero;
    D6hShape();
    assert D6h().irreps[10].chars[0] == 2;
  }

  lemma BenzeneCoef11_0()
    ensures DotRange(D6h().irreps[11].chars, BenzeneTotals()[0], 0, |D6h().sizes|) == BenzeneRawSums()[11][0]
  {
    D6hChars11();
    assert BenzeneTotals()[0] == [1.0, 0.0, 0.0, 0.0, -1.0, 0.0, 0.0, 0.0, 0.0, -1.0, 0.0, 1.0];
    assert BenzeneRawSums()[11][0] == 4.0;
    assert DotRange([2, -1, -1, 2, 0, 0, -2, 1, 1, -2, 0, 0], [1.0, 0.0, 0.0, 0.0, -1.0, 0.0, 0.0, 0.0, 0.0, -1.0, 0.0, 1.0], 0, 12) == 4.0;
  }

  lemma BenzeneCoef11_1()
    ensures DotRange(D6h().irreps[11].chars, BenzeneTotals()[1], 0, |D6h().sizes|) == BenzeneRawSums()[11][1]
  {
    D6hChars11();
    assert BenzeneTotals()[1] == [0.0, 1.0, 0.0, 0.0, 0.0, -1.0, 0.0, 0.0, -1.0, 0.0, 1.0, 0.0];
    assert BenzeneRawSums()[11][1] == -2.0;
    assert DotRange([2, -1, -1, 2, 0, 0, -2, 1, 1, -2, 0, 0], [0.0, 1.0, 0.0, 0.0, 0.0, -1.0, 0.0, 0.0, -1.0, 0.0, 1.0, 0.0], 0, 12) == -2.0;
  }

  lemma BenzeneCoef11_2()
    ensures DotRange(D6h().irreps[11].chars, BenzeneTotals()[2], 0, |D6h().sizes|) == BenzeneRawSums()[11][2]
  {
    D6hChars11();
    assert BenzeneTotals()[2] == [0.0, 0.0, 1.0, 0.0, -1.0, 0.0, 0.0, -1.0, 0.0, 0.0, 0.0, 1.0];
    assert BenzeneRawSums()[11][2] == -2.0;
    assert DotRange([2, -1, -1, 2, 0, 0, -2, 1, 1, -2, 0, 0], [0.0, 0.0, 1.0, 0.0, -1.0, 0.0, 0.0, -1.0, 0.0, 0.0, 0.0, 1.0], 0, 12) == -2.0;
  }

  lemma BenzeneCoef11_3()
    ensures DotRange(D6h().irreps[11].chars, BenzeneTotals()[3], 0, |D6h().sizes|) == BenzeneRawSums()[11][3]
  {
    D6hChars11();
    assert BenzeneTotals()[3] == [0.0, 0.0, 0.0, 1.0, 0.0, -1.0, -1.0, 0.0, 0.0, 0.0, 1.0, 0.0];
    assert BenzeneRawSums()[11][3] == 4.0;
    assert DotRange([2, -1, -1, 2, 0, 0, -2, 1, 1, -2, 0, 0], [0.0, 0.0, 0.0, 1.0, 0.0, -1.0, -1.0, 0.0, 0.0, 0.0, 1.0, 0.0], 0, 12) == 4.0;
  }

  lemma BenzeneCoef11_4()
    ensures DotRange(D6h().irreps[11].chars, BenzeneTotals()[4], 0, |D6h().sizes|) == BenzeneRawSums()[11][4]
  {
    D6hChars11();
    assert BenzeneTotals()[4] == [0.0, 0.0, 1.0, 0.0, -1.0, 0.0, 0.0, -1.0, 0.0, 0.0, 0.0, 1.0];
    assert BenzeneRawSums()[11][4] == -2.0;
    assert DotRange([2, -1, -1, 2, 0, 0, -2, 1, 1, -2, 0, 0], [0.0, 0.0, 1.0, 0.0, -1.0, 0.0, 0.0, -1.0, 0.0, 0.0, 0.0, 1.0], 0, 12) == -2.0;
  }

  lemma BenzeneCoef11_5()
    ensures DotRange(D6h().irreps[11].chars, BenzeneTotals()[5], 0, |D6h().sizes|) == BenzeneRawSums()[11][5]
  {
    D6hChars11();
    assert BenzeneTotals()[5] == [0.0, 1.0, 0.0, 0.0, 0.0, -1.0, 0.0, 0.0, -1.0, 0.0, 1.0, 0.0];
    assert BenzeneRawSums()[11][5] == -2.0;
    assert DotRange([2, -1, -1, 2, 0, 0, -2, 1, 1, -2, 0, 0], [0.0, 1.0, 0.0, 0.0, 0.0, -1.0, 0.0, 0.0, -1.0, 0.0, 1.0, 0.0], 0, 12) == -2.0;
  }

  lemma BenzeneCoefs11()
    ensures |BenzeneRawSums()[11]| == 6
    ensures forall s: Sym :: s < 6 ==> DotRange(D6h().irreps[11].chars, BenzeneTotals()[s], 0, |D6h().sizes|) == BenzeneRawSums()[11][s]
  {
    forall s: Sym | s < 6
      ensures DotRange(D6h().irreps[11].chars, BenzeneTotals()[s], 0, |D6h().sizes|) == BenzeneRawSums()[11][s]
    {
      if s == 0 {
        BenzeneCoef11_0();
      } else if s == 1 {
        BenzeneCoef11_1();
      } else if s == 2 {
        BenzeneCoef11_2();
      } else if s == 3 {
        BenzeneCoef11_3();
      } else if s == 4 {
        BenzeneCoef11_4();
      } else if s == 5 {
        BenzeneCoef11_5();
      }
    }
  }

  lemma BenzeneRaw11(v: seq<Lin>)
    requires BenzeneLike(v)
    ensures WellFormed(D6h()) && Raw(D6h(), 11, v) == BenzeneRawSums()[11]
  {
    D6hWellFormed();
    BenzeneCoefs11();
    RawFromCoefs(D6h(), 11, v, 6, BenzeneRawSums()[11]);
  }

  lemma BenzeneNorm11()
    ensures Dim(D6h().irreps[11]) == 2 && Order(D6h()) == 24
    ensures Normalise(BenzeneRawSums()[11], Some(0), Dim(D6h().irreps[11]), Order(D6h())) == BenzeneSalcs()[11]
  {
    assert BenzeneRawSums()[11] == [4.0, -2.0, -2.0, 4.0, -2.0, -2.0];
    assert BenzeneSalcs()[11] == Combo([1.0, -0.5, -0.5, 1.0, -0.5, -0.5]);
    D6hShape();
    assert D6h().irreps[11].chars[0] == 2;
    Extensionality(Scale(1.0 / 4.0, [4.0, -2.0, -2.0, 4.0, -2.0, -2.0]), [1.0, -0.5, -0.5, 1.0, -0.5, -0.5]);
  }

  /** The raw sums of the scenario, one per irreducible representation. */
  function BenzeneRawSums(): seq<Lin> {
    [[0.0, 0.0, 0.0, 0.0, 0.0, 0.0], [0.0, 0.0, 0.0, 0.0, 0.0, 0.0], [0.0, 0.0, 0.0, 0.0, 0.0, 0.0], [4.0, -4.0, 4.0, -4.0, 4.0, -4.0], [4.0, 2.0, -2.0, -4.0, -2.0, 2.0], [0.0, 0.0, 0.0, 0.0, 0.0, 0.0], [0.0, 0.0, 0.0, 0.0, 0.0, 0.0], [4.0, 4.0, 4.0, 4.0, 4.0, 4.0], [0.0, 0.0, 0.0, 0.0, 0.0, 0.0], [0.0, 0.0, 0.0, 0.0, 0.0, 0.0], [0.0, 0.0, 0.0, 0.0, 0.0, 0.0], [4.0, -2.0, -2.0, 4.0, -2.0, -2.0]]
  }

  /** The expected results of the scenario. */
  function BenzeneSalcs(): seq<Salc> {
    [Zero, Zero, Zero, Combo([1.0, -1.0, 1.0, -1.0, 1.0, -1.0]), Combo([1.0, 0.5, -0.5, -1.0, -0.5, 0.5]), Zero, Zero, Combo([1.0, 1.0, 1.0, 1.0, 1.0, 1.0]), Zero, Zero, Zero, Combo([1.0, -0.5, -0.5, 1.0, -0.5, -0.5])]
  }

  /** Representations 0 to 5 of every input of this shape. */
  lemma BenzenePart0(v: seq<Lin>)
    requires BenzeneLike(v)
    ensures WellFormed(D6h()) && |D6h().irreps| == |BenzeneRawSums()| == |BenzeneSalcs()| == 12
    ensures forall i :: 0 <= i < 6 ==> Raw(D6h(), i, v) == BenzeneRawSums()[i]
    ensures forall i :: 0 <= i < 6 ==>
      Normalise(BenzeneRawSums()[i], Reference(v), Dim(D6h().irreps[i]), Order(D6h())) == BenzeneSalcs()[i]
  {
    D6hWellFormed();
    forall i | 0 <= i < 6
      ensures Raw(D6h(), i, v) == BenzeneRawSums()[i]
      ensures Normalise(BenzeneRawSums()[i], Reference(v), Dim(D6h().irreps[i]), Order(D6h())) == BenzeneSalcs()[i]
    {
      if i == 0 {
        BenzeneRaw0(v);
        BenzeneNorm0();
      } else if i == 1 {
        BenzeneRaw1(v);
        BenzeneNorm1();
      } else if i == 2 {
        BenzeneRaw2(v);
        BenzeneNorm2();
      } else if i == 3 {
        BenzeneRaw3(v);
        BenzeneNorm3();
      } else if i == 4 {
        BenzeneRaw4(v);
        BenzeneNorm4();
      } else if i == 5 {
        BenzeneRaw5(v);
        BenzeneNorm5();
      }
    }
  }

  /** Representations 6 to 11 of every input of this shape. */
  lemma BenzenePart1(v: seq<Lin>)
    requires BenzeneLike(v)
    ensures WellFormed(D6h()) && |D6h().irreps| == |BenzeneRawSums()| == |BenzeneSalcs()| == 12
    ensures forall i :: 6 <= i < 12 ==> Raw(D6h(), i, v) == BenzeneRawSums()[i]
    ensures forall i :: 6 <= i < 12 ==>
      Normalise(BenzeneRawSums()[i], Reference(v), Dim(D6h().irreps[i]), Order(D6h())) == BenzeneSalcs()[i]
  {
    D6hWellFormed();
    forall i | 6 <= i < 12
      ensures Raw(D6h(), i, v) == BenzeneRawSums()[i]
      ensures Normalise(BenzeneRawSums()[i], Reference(v), Dim(D6h().irreps[i]), Order(D6h())) == BenzeneSalcs()[i]
    {
      if i == 6 {
        BenzeneRaw6(v);
        BenzeneNorm6();
      } else if i == 7 {
        BenzeneRaw7(v);
        BenzeneNorm7();
      } else if i == 8 {
        BenzeneRaw8(v);
        BenzeneNorm8();
      } else if i == 9 {
        BenzeneRaw9(v);
        BenzeneNorm9();
      } else if i == 10 {
        BenzeneRaw10(v);
        BenzeneNorm10();
      } else if i == 11 {
        BenzeneRaw11(v);
        BenzeneNorm11();
      }
    }
  }

  /** The projection of every input of this shape. */
  lemma BenzeneFor(v: seq<Lin>)
    requires BenzeneLike(v)
    ensures Project(v, "d6h") == Ok(BenzeneSalcs())
  {
    D6hWellFormed();
    BenzenePart0(v);
    BenzenePart1(v);
    assert Lookup("d6h") == Ok(D6h());
    ProjectFrom(v, "d6h", D6h(), BenzeneRawSums(), BenzeneSalcs());
  }

  lemma Benzene()
    ensures Project(BenzeneInput(), "d6h") == Ok([Zero, Zero, Zero, Combo([1.0, -1.0, 1.0, -1.0, 1.0, -1.0]), Combo([1.0, 0.5, -0.5, -1.0, -0.5, 0.5]), Zero, Zero, Combo([1.0, 1.0, 1.0, 1.0, 1.0, 1.0]), Zero, Zero, Zero, Combo([1.0, -0.5, -0.5, 1.0, -0.5, -0.5])])
  {
    BenzeneInputLike();
    BenzeneFor(BenzeneInput());
    assert BenzeneSalcs() == [Zero, Zero, Zero, Combo([1.0, -1.0, 1.0, -1.0, 1.0, -1.0]), Combo([1.0, 0.5, -0.5, -1.0, -0.5, 0.5]), Zero, Zero, Combo([1.0, 1.0, 1.0, 1.0, 1.0, 1.0]), Zero, Zero, Zero, Combo([1.0, -0.5, -0.5, 1.0, -0.5, -0.5])];
  }

  // ---------------------------------------------------------------------------
  // Butadiene outer p orbitals in C2v (test_salcs.py:42-47): a - d (A2) and a + d (B2).

  /** The transformed basis, one block per class of C2v (symbols a, b, c, d numbered from 0). */
  function ButadieneOuterBlocks(): seq<seq<Lin>> {
    var a, b, c, d := Unit(0, 4), Unit(1, 4), Unit(2, 4), Unit(3, 4);
    [[a], [Neg(d)], [Neg(a)], [d]]
  }

  function ButadieneOuterInput(): seq<Lin> {
    Concat(ButadieneOuterBlocks())
  }

  /** The class totals of every symbol in the documented input. */
  function ButadieneOuterTotals(): seq<seq<real>> {
    [[1.0, 0.0, -1.0, 0.0], [0.0, 0.0, 0.0, 0.0], [0.0, 0.0, 0.0, 0.0], [0.0, -1.0, 0.0, 1.0]]
  }

  /** What the projection of this scenario depends on: the length of the input, the
      symbols its entries are written over, the class totals of every symbol and the
      reference symbol. */
  ghost predicate ButadieneOuterLike(v: seq<Lin>) {
    && |v| == 4 == Order(C2v())
    && (forall k :: 0 <= k < |v| ==> |v[k]| == 4)
    && (forall s: Sym :: s < 4 ==> ClassTotals(C2v().sizes, Column(v, s)) == ButadieneOuterTotals()[s])
    && Reference(v) == Some(0)
  }

  lemma ButadieneOuterShape()
    ensures |ButadieneOuterBlocks()| == |C2v().sizes|
    ensures forall c :: 0 <= c < |ButadieneOuterBlocks()| ==> |ButadieneOuterBlocks()[c]| == C2v().sizes[c]
    ensures forall c, k :: 0 <= c < |ButadieneOuterBlocks()| && 0 <= k < |ButadieneOuterBlocks()[c]| ==> |ButadieneOuterBlocks()[c][k]| == 4
  {
  }

  lemma ButadieneOuterTotals0()
    ensures BlockTotals(ButadieneOuterBlocks(), 0) == ButadieneOuterTotals()[0]
  {
    assert ButadieneOuterTotals()[0] == [1.0, 0.0, -1.0, 0.0];
  }

  lemma ButadieneOuterTotals1()
    ensures BlockTotals(ButadieneOuterBlocks(), 1) == ButadieneOuterTotals()[1]
  {
    assert ButadieneOuterTotals()[1] == [0.0, 0.0, 0.0, 0.0];
  }

  lemma ButadieneOuterTotals2()
    ensures BlockTotals(ButadieneOuterBlocks(), 2) == ButadieneOuterTotals()[2]
  {
    assert ButadieneOuterTotals()[2] == [0.0, 0.0, 0.0, 0.0];
  }

  lemma ButadieneOuterTotals3()
    ensures BlockTotals(ButadieneOuterBlocks(), 3) == ButadieneOuterTotals()[3]
  {
    assert ButadieneOuterTotals()[3] == [0.0, -1.0, 0.0, 1.0];
  }

  lemma ButadieneOuterReference()
    ensures |ButadieneOuterInput()| == Order(C2v()) && Reference(ButadieneOuterInput()) == Some(0)
  {
    C2vShape();
    ButadieneOuterShape();
    ConcatLength(C2v().sizes, ButadieneOuterBlocks());
    ConcatAt(C2v().sizes, ButadieneOuterBlocks(), 0, 0);
  }

  /** The documented input has the shape the projection depends on. */
  lemma ButadieneOuterInputLike()
    ensures ButadieneOuterLike(ButadieneOuterInput())
  {
    C2vShape();
    ButadieneOuterShape();
    ConcatWidth(C2v().sizes, ButadieneOuterBlocks(), 4);
    forall s: Sym | s < 4
      ensures ClassTotals(C2v().sizes, Column(ButadieneOuterInput(), s)) == ButadieneOuterTotals()[s]
    {
      BlockClassTotals(C2v().sizes, ButadieneOuterBlocks(), s);
      if s == 0 {
        ButadieneOuterTotals0();
      } else if s == 1 {
        ButadieneOuterTotals1();
      } else if s == 2 {
        ButadieneOuterTotals2();
      } else if s == 3 {
        ButadieneOuterTotals3();
      }
    }
    ButadieneOuterReference();
  }

  lemma ButadieneOuterCoef0_0()
    ensures DotRange(C2v().irreps[0].chars, ButadieneOuterTotals()[0], 0, |C2v().sizes|) == ButadieneOuterRawSums()[0][0]
  {
    C2vChars0();
    assert ButadieneOuterTotals()[0] == [1.0, 0.0, -1.0, 0.0];
    assert ButadieneOuterRawSums()[0][0] == 0.0;
    assert DotRange([1, 1, 1, 1], [1.0, 0.0, -1.0, 0.0], 0, 4) == 0.0;
  }

  lemma ButadieneOuterCoef0_1()
    ensures DotRange(C2v().irreps[0].chars, ButadieneOuterTotals()[1], 0, |C2v().sizes|) == ButadieneOuterRawSums()[0][1]
  {
    C2vChars0();
    assert ButadieneOuterTotals()[1] == [0.0, 0.0, 0.0, 0.0];
    assert ButadieneOuterRawSums()[0][1] == 0.0;
    assert DotRange([1, 1, 1, 1], [0.0, 0.0, 0.0, 0.0], 0, 4) == 0.0;
  }

  lemma ButadieneOuterCoef0_2()
    ensures DotRange(C2v().irreps[0].chars, ButadieneOuterTotals()[2], 0, |C2v().sizes|) == ButadieneOuterRawSums()[0][2]
  {
    C2vChars0();
    assert ButadieneOuterTotals()[2] == [0.0, 0.0, 0.0, 0.0];
    assert ButadieneOuterRawSums()[0][2] == 0.0;
    assert DotRange([1, 1, 1, 1], [0.0, 0.0, 0.0, 0.0], 0, 4) == 0.0;
  }

  lemma ButadieneOuterCoef0_3()
    ensures DotRange(C2v().irreps[0].chars, ButadieneOuterTotals()[3], 0, |C2v().sizes|) == ButadieneOuterRawSums()[0][3]
  {
    C2vChars0();
    assert ButadieneOuterTotals()[3] == [0.0, -1.0, 0.0, 1.0];
    assert ButadieneOuterRawSums()[0][3] == 0.0;
    assert DotRange([1, 1, 1, 1], [0.0, -1.0, 0.0, 1.0], 0, 4) == 0.0;
  }

  lemma ButadieneOuterCoefs0()
    ensures |ButadieneOuterRawSums()[0]| == 4
    ensures forall s: Sym :: s < 4 ==> DotRange(C2v().irreps[0].chars, ButadieneOuterTotals()[s], 0, |C2v().sizes|) == ButadieneOuterRawSums()[0][s]
  {
    forall s: Sym | s < 4
      ensures DotRange(C2v().irreps[0].chars, ButadieneOuterTotals()[s], 0, |C2v().sizes|) == ButadieneOuterRawSums()[0][s]
    {
      if s == 0 {
        ButadieneOuterCoef0_0();
      } else if s == 1 {
        ButadieneOuterCoef0_1();
      } else if s == 2 {
        ButadieneOuterCoef0_2();
      } else if s == 3 {
        ButadieneOuterCoef0_3();
      }
    }
  }

  lemma ButadieneOuterRaw0(v: seq<Lin>)
    requires ButadieneOuterLike(v)
    ensures WellFormed(C2v()) && Raw(C2v(), 0, v) == ButadieneOuterRawSums()[0]
  {
    C2vWellFormed();
    ButadieneOuterCoefs0();
    RawFromCoefs(C2v(), 0, v, 4, ButadieneOuterRawSums()[0]);
  }

  lemma ButadieneOuterNorm0()
    ensures Dim(C2v().irreps[0]) == 1 && Order(C2v()) == 4
    ensures Normalise(ButadieneOuterRawSums()[0], Some(0), Dim(C2v().irreps[0]), Order(C2v())) == ButadieneOuterSalcs()[0]
  {
    assert ButadieneOuterRawSums()[0] == [0.0, 0.0, 0.0, 0.0];
    assert ButadieneOuterSalcs()[0] == Zero;
    C2vShape();
    assert C2v().irreps[0].chars[0] == 1;
  }

  lemma ButadieneOuterCoef1_0()
    ensures DotRange(C2v().irreps[1].chars, ButadieneOuterTotals()[0], 0, |C2v().sizes|) == ButadieneOuterRawSums()[1][0]
  {
    C2vChars1();
    assert ButadieneOuterTotals()[0] == [1.0, 0.0, -1.0, 0.0];
    assert ButadieneOuterRawSums()[1][0] == 2.0;
    assert DotRange([1, 1, -1, -1], [1.0, 0.0, -1.0, 0.0], 0, 4) == 2.0;
  }

  lemma ButadieneOuterCoef1_1()
    ensures DotRange(C2v().irreps[1].chars, ButadieneOuterTotals()[1], 0, |C2v().sizes|) == ButadieneOuterRawSums()[1][1]
  {
    C2vChars1();
    assert ButadieneOuterTotals()[1] == [0.0, 0.0, 0.0, 0.0];
    assert ButadieneOuterRawSums()[1][1] == 0.0;
    assert DotRange([1, 1, -1, -1], [0.0, 0.0, 0.0, 0.0], 0, 4) == 0.0;
  }

  lemma ButadieneOuterCoef1_2()
    ensures DotRange(C2v().irreps[1].chars, ButadieneOuterTotals()[2], 0, |C2v().sizes|) == ButadieneOuterRawSums()[1][2]
  {
    C2vChars1();
    assert ButadieneOuterTotals()[2] == [0.0, 0.0, 0.0, 0.0];
    assert ButadieneOuterRawSums()[1][2] == 0.0;
    assert DotRange([1, 1, -1, -1], [0.0, 0.0, 0.0, 0.0], 0, 4) == 0.0;
  }

  lemma ButadieneOuterCoef1_3()
    ensures DotRange(C2v().irreps[1].chars, ButadieneOuterTotals()[3], 0, |C2v().sizes|) == ButadieneOuterRawSums()[1][3]
  {
    C2vChars1();
    assert ButadieneOuterTotals()[3] == [0.0, -1.0, 0.0, 1.0];
    assert ButadieneOuterRawSums()[1][3] == -2.0;
    assert DotRange([1, 1, -1, -1], [0.0, -1.0, 0.0, 1.0], 0, 4) == -2.0;
  }

  lemma ButadieneOuterCoefs1()
    ensures |ButadieneOuterRawSums()[1]| == 4
    ensures forall s: Sym :: s < 4 ==> DotRange(C2v().irreps[1].chars, ButadieneOuterTotals()[s], 0, |C2v().sizes|) == ButadieneOuterRawSums()[1][s]
  {
    forall s: Sym | s < 4
      ensures DotRange(C2v().irreps[1].chars, ButadieneOuterTotals()[s], 0, |C2v().sizes|) == ButadieneOuterRawSums()[1][s]
    {
      if s == 0 {
        ButadieneOuterCoef1_0();
      } else if s == 1 {
        ButadieneOuterCoef1_1();
      } else if s == 2 {
        ButadieneOuterCoef1_2();
      } else if s == 3 {
        ButadieneOuterCoef1_3();
      }
    }
  }

  lemma ButadieneOuterRaw1(v: seq<Lin>)
    requires ButadieneOuterLike(v)
    ensures WellFormed(C2v()) && Raw(C2v(), 1, v) == ButadieneOuterRawSums()[1]
  {
    C2vWellFormed();
    ButadieneOuterCoefs1();
    RawFromCoefs(C2v(), 1, v, 4, ButadieneOuterRawSums()[1]);
  }

  lemma ButadieneOuterNorm1()
    ensures Dim(C2v().irreps[1]) == 1 && Order(C2v()) == 4
    ensures Normalise(ButadieneOuterRawSums()[1], Some(0), Dim(C2v().irreps[1]), Order(C2v())) == ButadieneOuterSalcs()[1]
  {
    assert ButadieneOuterRawSums()[1] == [2.0, 0.0, 0.0, -2.0];
    assert ButadieneOuterSalcs()[1] == Combo([1.0, 0.0, 0.0, -1.0]);
    C2vShape();
    assert C2v().irreps[1].chars[0] == 1;
    Extensionality(Scale(1.0 / 2.0, [2.0, 0.0, 0.0, -2.0]), [1.0, 0.0, 0.0, -1.0]);
  }

  lemma ButadieneOuterCoef2_0()
    ensures DotRange(C2v().irreps[2].chars, ButadieneOuterTotals()[0], 0, |C2v().sizes|) == ButadieneOuterRawSums()[2][0]
  {
    C2vChars2();
    assert ButadieneOuterTotals()[0] == [1.0, 0.0, -1.0, 0.0];
    assert ButadieneOuterRawSums()[2][0] == 0.0;
    assert DotRange([1, -1, 1, -1], [1.0, 0.0, -1.0, 0.0], 0, 4) == 0.0;
  }

  lemma ButadieneOuterCoef2_1()
    ensures DotRange(C2v().irreps[2].chars, ButadieneOuterTotals()[1], 0, |C2v().sizes|) == ButadieneOuterRawSums()[2][1]
  {
    C2vChars2();
    assert ButadieneOuterTotals()[1] == [0.0, 0.0, 0.0, 0.0];
    assert ButadieneOuterRawSums()[2][1] == 0.0;
    assert DotRange([1, -1, 1, -1], [0.0, 0.0, 0.0, 0.0], 0, 4) == 0.0;
  }

  lemma ButadieneOuterCoef2_2()
    ensures DotRange(C2v().irreps[2].chars, ButadieneOuterTotals()[2], 0, |C2v().sizes|) == ButadieneOuterRawSums()[2][2]
  {
    C2vChars2();
    assert ButadieneOuterTotals()[2] == [0.0, 0.0, 0.0, 0.0];
    assert ButadieneOuterRawSums()[2][2] == 0.0;
    assert DotRange([1, -1, 1, -1], [0.0, 0.0, 0.0, 0.0], 0, 4) == 0.0;
  }

  lemma ButadieneOuterCoef2_3()
    ensures DotRange(C2v().irreps[2].chars, ButadieneOuterTotals()[3], 0, |C2v().sizes|) == ButadieneOuterRawSums()[2][3]
  {
    C2vChars2();
    assert ButadieneOuterTotals()[3] == [0.0, -1.0, 0.0, 1.0];
    assert ButadieneOuterRawSums()[2][3] == 0.0;
    assert DotRange([1, -1, 1, -1], [0.0, -1.0, 0.0, 1.0], 0, 4) == 0.0;
  }

  lemma ButadieneOuterCoefs2()
    ensures |ButadieneOuterRawSums()[2]| == 4
    ensures forall s: Sym :: s < 4 ==> DotRange(C2v().irreps[2].chars, ButadieneOuterTotals()[s], 0, |C2v().sizes|) == ButadieneOuterRawSums()[2][s]
  {
    forall s: Sym | s < 4
      ensures DotRange(C2v().irreps[2].chars, ButadieneOuterTotals()[s], 0, |C2v().sizes|) == ButadieneOuterRawSums()[2][s]
    {
      if s == 0 {
        ButadieneOuterCoef2_0();
      } else if s == 1 {
        ButadieneOuterCoef2_1();
      } else if s == 2 {
        ButadieneOuterCoef2_2();
      } else if s == 3 {
        ButadieneOuterCoef2_3();
      }
    }
  }

  lemma ButadieneOuterRaw2(v: seq<Lin>)
    requires ButadieneOuterLike(v)
    ensures WellFormed(C2v()) && Raw(C2v(), 2, v) == ButadieneOuterRawSums()[2]
  {
    C2vWellFormed();
    ButadieneOuterCoefs2();
    RawFromCoefs(C2v(), 2, v, 4, ButadieneOuterRawSums()[2]);
  }

  lemma ButadieneOuterNorm2()
    ensures Dim(C2v().irreps[2]) == 1 && Order(C2v()) == 4
    ensures Normalise(ButadieneOuterRawSums()[2], Some(0), Dim(C2v().irreps[2]), Order(C2v())) == ButadieneOuterSalcs()[2]
  {
    assert ButadieneOuterRawSums()[2] == [0.0, 0.0, 0.0, 0.0];
    assert ButadieneOuterSalcs()[2] == Zero;
    C2vShape();
    assert C2v().irreps[2].chars[0] == 1;
  }

  lemma ButadieneOuterCoef3_0()
    ensures DotRange(C2v().irreps[3].chars, ButadieneOuterTotals()[0], 0, |C2v().sizes|) == ButadieneOuterRawSums()[3][0]
  {
    C2vChars3();
    assert ButadieneOuterTotals()[0] == [1.0, 0.0, -1.0, 0.0];
    assert ButadieneOuterRawSums()[3][0] == 2.0;
    assert DotRange([1, -1, -1, 1], [1.0, 0.0, -1.0, 0.0], 0, 4) == 2.0;
  }

  lemma ButadieneOuterCoef3_1()
    ensures DotRange(C2v().irreps[3].chars, ButadieneOuterTotals()[1], 0, |C2v().sizes|) == ButadieneOuterRawSums()[3][1]
  {
    C2vChars3();
    assert ButadieneOuterTotals()[1] == [0.0, 0.0, 0.0, 0.0];
    assert ButadieneOuterRawSums()[3][1] == 0.0;
    assert DotRange([1, -1, -1, 1], [0.0, 0.0, 0.0, 0.0], 0, 4) == 0.0;
  }

  lemma ButadieneOuterCoef3_2()
    ensures DotRange(C2v().irreps[3].chars, ButadieneOuterTotals()[2], 0, |C2v().sizes|) == ButadieneOuterRawSums()[3][2]
  {
    C2vChars3();
    assert ButadieneOuterTotals()[2] == [0.0, 0.0, 0.0, 0.0];
    assert ButadieneOuterRawSums()[3][2] == 0.0;
    assert DotRange([1, -1, -1, 1], [0.0, 0.0, 0.0, 0.0], 0, 4) == 0.0;
  }

  lemma ButadieneOuterCoef3_3()
    ensures DotRange(C2v().irreps[3].chars, ButadieneOuterTotals()[3], 0, |C2v().sizes|) == ButadieneOuterRawSums()[3][3]
  {
    C2vChars3();
    assert ButadieneOuterTotals()[3] == [0.0, -1.0, 0.0, 1.0];
    assert ButadieneOuterRawSums()[3][3] == 2.0;
    assert DotRange([1, -1, -1, 1], [0.0, -1.0, 0.0, 1.0], 0, 4) == 2.0;
  }

  lemma ButadieneOuterCoefs3()
    ensures |ButadieneOuterRawSums()[3]| == 4
    ensures forall s: Sym :: s < 4 ==> DotRange(C2v().irreps[3].chars, ButadieneOuterTotals()[s], 0, |C2v().sizes|) == ButadieneOuterRawSums()[3][s]
  {
    forall s: Sym | s < 4
      ensures DotRange(C2v().irreps[3].chars, ButadieneOuterTotals()[s], 0, |C2v().sizes|) == ButadieneOuterRawSums()[3][s]
    {
      if s == 0 {
        ButadieneOuterCoef3_0();
      } else if s == 1 {
        ButadieneOuterCoef3_1();
      } else if s == 2 {
        ButadieneOuterCoef3_2();
      } else if s == 3 {
        ButadieneOuterCoef3_3();
      }
    }
  }

  lemma ButadieneOuterRaw3(v: seq<Lin>)
    requires ButadieneOuterLike(v)
    ensures WellFormed(C2v()) && Raw(C2v(), 3, v) == ButadieneOuterRawSums()[3]
  {
    C2vWellFormed();
    ButadieneOuterCoefs3();
    RawFromCoefs(C2v(), 3, v, 4, ButadieneOuterRawSums()[3]);
  }

  lemma ButadieneOuterNorm3()
    ensures Dim(C2v().irreps[3]) == 1 && Order(C2v()) == 4
    ensures Normalise(ButadieneOuterRawSums()[3], Some(0), Dim(C2v().irreps[3]), Order(C2v())) == ButadieneOuterSalcs()[3]
  {
    assert ButadieneOuterRawSums()[3] == [2.0, 0.0, 0.0, 2.0];
    assert ButadieneOuterSalcs()[3] == Combo([1.0, 0.0, 0.0, 1.0]);
    C2vShape();
    assert C2v().irreps[3].chars[0] == 1;
    Extensionality(Scale(1.0 / 2.0, [2.0, 0.0, 0.0, 2.0]), [1.0, 0.0, 0.0, 1.0]);
  }

  /** The raw sums of the scenario, one per irreducible representation. */
  function ButadieneOuterRawSums(): seq<Lin> {
    [[0.0, 0.0, 0.0, 0.0], [2.0, 0.0, 0.0, -2.0], [0.0, 0.0, 0.0, 0.0], [2.0, 0.0, 0.0, 2.0]]
  }

  /** The expected results of the scenario. */
  function ButadieneOuterSalcs(): seq<Salc> {
    [Zero, Combo([1.0, 0.0, 0.0, -1.0]), Zero, Combo([1.0, 0.0, 0.0, 1.0])]
  }

  /** The projection of every input of this shape. */
  lemma ButadieneOuterFor(v: seq<Lin>)
    requires ButadieneOuterLike(v)
    ensures Project(v, "c2v") == Ok(ButadieneOuterSalcs())
  {
    C2vWellFormed();
    forall i | 0 <= i < 4
      ensures Raw(C2v(), i, v) == ButadieneOuterRawSums()[i]
      ensures Normalise(ButadieneOuterRawSums()[i], Reference(v), Dim(C2v().irreps[i]), Order(C2v())) == ButadieneOuterSalcs()[i]
    {
      if i == 0 {
        ButadieneOuterRaw0(v);
        ButadieneOuterNorm0();
      } else if i == 1 {
        ButadieneOuterRaw1(v);
        ButadieneOuterNorm1();
      } else if i == 2 {
        ButadieneOuterRaw2(v);
        ButadieneOuterNorm2();
      } else if i == 3 {
        ButadieneOuterRaw3(v);
        ButadieneOuterNorm3();
      }
    }
    assert Lookup("c2v") == Ok(C2v());
    ProjectFrom(v, "c2v", C2v(), ButadieneOuterRawSums(), ButadieneOuterSalcs());
  }

  lemma ButadieneOuter()
    ensures Project(ButadieneOuterInput(), "c2v") == Ok([Zero, Combo([1.0, 0.0, 0.0, -1.0]), Zero, Combo([1.0, 0.0, 0.0, 1.0])])
  {
    ButadieneOuterInputLike();
    ButadieneOuterFor(ButadieneOuterInput());
    assert ButadieneOuterSalcs() == [Zero, Combo([1.0, 0.0, 0.0, -1.0]), Zero, Combo([1.0, 0.0, 0.0, 1.0])];
  }

  // ---------------------------------------------------------------------------
  // Butadiene inner p orbitals in C2v (test_salcs.py:48-49): b - c (A2) and b + c (B2).

  /** The transformed basis, one block per class of C2v (symbols a, b, c, d numbered from 0). */
  function ButadieneInnerBlocks(): seq<seq<Lin>> {
    var a, b, c, d := Unit(0, 4), Unit(1, 4), Unit(2, 4), Unit(3, 4);
    [[b], [Neg(c)], [Neg(b)], [c]]
  }

  function ButadieneInnerInput(): seq<Lin> {
    Concat(ButadieneInnerBlocks())
  }

  /** The class totals of every symbol in the documented input. */
  function ButadieneInnerTotals(): seq<seq<real>> {
    [[0.0, 0.0, 0.0, 0.0], [1.0, 0.0, -1.0, 0.0], [0.0, -1.0, 0.0, 1.0], [0.0, 0.0, 0.0, 0.0]]
  }

  /** What the projection of this scenario depends on: the length of the input, the
      symbols its entries are written over, the class totals of every symbol and the
      reference symbol. */
  ghost predicate ButadieneInnerLike(v: seq<Lin>) {
    && |v| == 4 == Order(C2v())
    && (forall k :: 0 <= k < |v| ==> |v[k]| == 4)
    && (forall s: Sym :: s < 4 ==> ClassTotals(C2v().sizes, Column(v, s)) == ButadieneInnerTotals()[s])
    && Reference(v) == Some(1)
  }

  lemma ButadieneInnerShape()
    ensures |ButadieneInnerBlocks()| == |C2v().sizes|
    ensures forall c :: 0 <= c < |ButadieneInnerBlocks()| ==> |ButadieneInnerBlocks()[c]| == C2v().sizes[c]
    ensures forall c, k :: 0 <= c < |ButadieneInnerBlocks()| && 0 <= k < |ButadieneInnerBlocks()[c]| ==> |ButadieneInnerBlocks()[c][k]| == 4
  {
  }

  lemma ButadieneInnerTotals0()
    ensures BlockTotals(ButadieneInnerBlocks(), 0) == ButadieneInnerTotals()[0]
  {
    assert ButadieneInnerTotals()[0] == [0.0, 0.0, 0.0, 0.0];
  }

  lemma ButadieneInnerTotals1()
    ensures BlockTotals(ButadieneInnerBlocks(), 1) == ButadieneInnerTotals()[1]
  {
    assert ButadieneInnerTotals()[1] == [1.0, 0.0, -1.0, 0.0];
  }

  lemma ButadieneInnerTotals2()
    ensures BlockTotals(ButadieneInnerBlocks(), 2) == ButadieneInnerTotals()[2]
  {
    assert ButadieneInnerTotals()[2] == [0.0, -1.0, 0.0, 1.0];
  }

  lemma ButadieneInnerTotals3()
    ensures BlockTotals(ButadieneInnerBlocks(), 3) == ButadieneInnerTotals()[3]
  {
    assert ButadieneInnerTotals()[3] == [0.0, 0.0, 0.0, 0.0];
  }

  lemma ButadieneInnerReference()
    ensures |ButadieneInnerInput()| == Order(C2v()) && Reference(ButadieneInnerInput()) == Some(1)
  {
    C2vShape();
    ButadieneInnerShape();
    ConcatLength(C2v().sizes, ButadieneInnerBlocks());
    ConcatAt(C2v().sizes, ButadieneInnerBlocks(), 0, 0);
  }

  /** The documented input has the shape the projection depends on. */
  lemma ButadieneInnerInputLike()
    ensures ButadieneInnerLike(ButadieneInnerInput())
  {
    C2vShape();
    ButadieneInnerShape();
    ConcatWidth(C2v().sizes, ButadieneInnerBlocks(), 4);
    forall s: Sym | s < 4
      ensures ClassTotals(C2v().sizes, Column(ButadieneInnerInput(), s)) == ButadieneInnerTotals()[s]
    {
      BlockClassTotals(C2v().sizes, ButadieneInnerBlocks(), s);
      if s == 0 {
        ButadieneInnerTotals0();
      } else if s == 1 {
        ButadieneInnerTotals1();
      } else if s == 2 {
        ButadieneInnerTotals2();
      } else if s == 3 {
        ButadieneInnerTotals3();
      }
    }
    ButadieneInnerReference();
  }

  lemma ButadieneInnerCoef0_0()
    ensures DotRange(C2v().irreps[0].chars, ButadieneInnerTotals()[0], 0, |C2v().sizes|) == ButadieneInnerRawSums()[0][0]
  {
    C2vChars0();
    assert ButadieneInnerTotals()[0] == [0.0, 0.0, 0.0, 0.0];
    assert ButadieneInnerRawSums()[0][0] == 0.0;
    assert DotRange([1, 1, 1, 1], [0.0, 0.0, 0.0, 0.0], 0, 4) == 0.0;
  }

  lemma ButadieneInnerCoef0_1()
    ensures DotRange(C2v().irreps[0].chars, ButadieneInnerTotals()[1], 0, |C2v().sizes|) == ButadieneInnerRawSums()[0][1]
  {
    C2vChars0();
    assert ButadieneInnerTotals()[1] == [1.0, 0.0, -1.0, 0.0];
    assert ButadieneInnerRawSums()[0][1] == 0.0;
    assert DotRange([1, 1, 1, 1], [1.0, 0.0, -1.0, 0.0], 0, 4) == 0.0;
  }

  lemma ButadieneInnerCoef0_2()
    ensures DotRange(C2v().irreps[0].chars, ButadieneInnerTotals()[2], 0, |C2v().sizes|) == ButadieneInnerRawSums()[0][2]
  {
    C2vChars0();
    assert ButadieneInnerTotals()[2] == [0.0, -1.0, 0.0, 1.0];
    assert ButadieneInnerRawSums()[0][2] == 0.0;
    assert DotRange([1, 1, 1, 1], [0.0, -1.0, 0.0, 1.0], 0, 4) == 0.0;
  }

  lemma ButadieneInnerCoef0_3()
    ensures DotRange(C2v().irreps[0].chars, ButadieneInnerTotals()[3], 0, |C2v().sizes|) == ButadieneInnerRawSums()[0][3]
  {
    C2vChars0();
    assert ButadieneInnerTotals()[3] == [0.0, 0.0, 0.0, 0.0];
    assert ButadieneInnerRawSums()[0][3] == 0.0;
    assert DotRange([1, 1, 1, 1], [0.0, 0.0, 0.0, 0.0], 0, 4) == 0.0;
  }

  lemma ButadieneInnerCoefs0()
    ensures |ButadieneInnerRawSums()[0]| == 4
    ensures forall s: Sym :: s < 4 ==> DotRange(C2v().irreps[0].chars, ButadieneInnerTotals()[s], 0, |C2v().sizes|) == ButadieneInnerRawSums()[0][s]
  {
    forall s: Sym | s < 4
      ensures DotRange(C2v().irreps[0].chars, ButadieneInnerTotals()[s], 0, |C2v().sizes|) == ButadieneInnerRawSums()[0][s]
    {
      if s == 0 {
        ButadieneInnerCoef0_0();
      } else if s == 1 {
        ButadieneInnerCoef0_1();
      } else if s == 2 {
        ButadieneInnerCoef0_2();
      } else if s == 3 {
        ButadieneInnerCoef0_3();
      }
    }
  }

  lemma ButadieneInnerRaw0(v: seq<Lin>)
    requires ButadieneInnerLike(v)
    ensures WellFormed(C2v()) && Raw(C2v(), 0, v) == ButadieneInnerRawSums()[0]
  {
    C2vWellFormed();
    ButadieneInnerCoefs0();
    RawFromCoefs(C2v(), 0, v, 4, ButadieneInnerRawSums()[0]);
  }

  lemma ButadieneInnerNorm0()
    ensures Dim(C2v().irreps[0]) == 1 && Order(C2v()) == 4
    ensures Normalise(ButadieneInnerRawSums()[0], Some(1), Dim(C2v().irreps[0]), Order(C2v())) == ButadieneInnerSalcs()[0]
  {
    assert ButadieneInnerRawSums()[0] == [0.0, 0.0, 0.0, 0.0];
    assert ButadieneInnerSalcs()[0] == Zero;
    C2vShape();
    assert C2v().irreps[0].chars[0] == 1;
  }

  lemma ButadieneInnerCoef1_0()
    ensures DotRange(C2v().irreps[1].chars, ButadieneInnerTotals()[0], 0, |C2v().sizes|) == ButadieneInnerRawSums()[1][0]
  {
    C2vChars1();
    assert ButadieneInnerTotals()[0] == [0.0, 0.0, 0.0, 0.0];
    assert ButadieneInnerRawSums()[1][0] == 0.0;
    assert DotRange([1, 1, -1, -1], [0.0, 0.0, 0.0, 0.0], 0, 4) == 0.0;
  }

  lemma ButadieneInnerCoef1_1()
    ensures DotRange(C2v().irreps[1].chars, ButadieneInnerTotals()[1], 0, |C2v().sizes|) == ButadieneInnerRawSums()[1][1]
  {
    C2vChars1();
    assert ButadieneInnerTotals()[1] == [1.0, 0.0, -1.0, 0.0];
    assert ButadieneInnerRawSums()[1][1] == 2.0;
    assert DotRange([1, 1, -1, -1], [1.0, 0.0, -1.0, 0.0], 0, 4) == 2.0;
  }

  lemma ButadieneInnerCoef1_2()
    ensures DotRange(C2v().irreps[1].chars, ButadieneInnerTotals()[2], 0, |C2v().sizes|) == ButadieneInnerRawSums()[1][2]
  {
    C2vChars1();
    assert ButadieneInnerTotals()[2] == [0.0, -1.0, 0.0, 1.0];
    assert ButadieneInnerRawSums()[1][2] == -2.0;
    assert DotRange([1, 1, -1, -1], [0.0, -1.0, 0.0, 1.0], 0, 4) == -2.0;
  }

  lemma ButadieneInnerCoef1_3()
    ensures DotRange(C2v().irreps[1].chars, ButadieneInnerTotals()[3], 0, |C2v().sizes|) == ButadieneInnerRawSums()[1][3]
  {
    C2vChars1();
    assert ButadieneInnerTotals()[3] == [0.0, 0.0, 0.0, 0.0];
    assert ButadieneInnerRawSums()[1][3] == 0.0;
    assert DotRange([1, 1, -1, -1], [0.0, 0.0, 0.0, 0.0], 0, 4) == 0.0;
  }

  lemma ButadieneInnerCoefs1()
    ensures |ButadieneInnerRawSums()[1]| == 4
    ensures forall s: Sym :: s < 4 ==> DotRange(C2v().irreps[1].chars, ButadieneInnerTotals()[s], 0, |C2v().sizes|) == ButadieneInnerRawSums()[1][s]
  {
    forall s: Sym | s < 4
      ensures DotRange(C2v().irreps[1].chars, ButadieneInnerTotals()[s], 0, |C2v().sizes|) == ButadieneInnerRawSums()[1][s]
    {
      if s == 0 {
        ButadieneInnerCoef1_0();
      } else if s == 1 {
        ButadieneInnerCoef1_1();
      } else if s == 2 {
        ButadieneInnerCoef1_2();
      } else if s == 3 {
        ButadieneInnerCoef1_3();
      }
    }
  }

  lemma ButadieneInnerRaw1(v: seq<Lin>)
    requires ButadieneInnerLike(v)
    ensures WellFormed(C2v()) && Raw(C2v(), 1, v) == ButadieneInnerRawSums()[1]
  {
    C2vWellFormed();
    ButadieneInnerCoefs1();
    RawFromCoefs(C2v(), 1, v, 4, ButadieneInnerRawSums()[1]);
  }

  lemma ButadieneInnerNorm1()
    ensures Dim(C2v().irreps[1]) == 1 && Order(C2v()) == 4
    ensures Normalise(ButadieneInnerRawSums()[1], Some(1), Dim(C2v().irreps[1]), Order(C2v())) == ButadieneInnerSalcs()[1]
  {
    assert ButadieneInnerRawSums()[1] == [0.0, 2.0, -2.0, 0.0];
    assert ButadieneInnerSalcs()[1] == Combo([0.0, 1.0, -1.0, 0.0]);
    C2vShape();
    assert C2v().irreps[1].chars[0] == 1;
    Extensionality(Scale(1.0 / 2.0, [0.0, 2.0, -2.0, 0.0]), [0.0, 1.0, -1.0, 0.0]);
  }

  lemma ButadieneInnerCoef2_0()
    ensures DotRange(C2v().irreps[2].chars, ButadieneInnerTotals()[0], 0, |C2v().sizes|) == ButadieneInnerRawSums()[2][0]
  {
    C2vChars2();
    assert ButadieneInnerTotals()[0] == [0.0, 0.0, 0.0, 0.0];
    assert ButadieneInnerRawSums()[2][0] == 0.0;
    assert DotRange([1, -1, 1, -1], [0.0, 0.0, 0.0, 0.0], 0, 4) == 0.0;
  }

  lemma ButadieneInnerCoef2_1()
    ensures DotRange(C2v().irreps[2].chars, ButadieneInnerTotals()[1], 0, |C2v().sizes|) == ButadieneInnerRawSums()[2][1]
  {
    C2vChars2();
    assert ButadieneInnerTotals()[1] == [1.0, 0.0, -1.0, 0.0];
    assert ButadieneInnerRawSums()[2][1] == 0.0;
    assert DotRange([1, -1, 1, -1], [1.0, 0.0, -1.0, 0.0], 0, 4) == 0.0;
  }

  lemma ButadieneInnerCoef2_2()
    ensures DotRange(C2v().irreps[2].chars, ButadieneInnerTotals()[2], 0, |C2v().sizes|) == ButadieneInnerRawSums()[2][2]
  {
    C2vChars2();
    assert ButadieneInnerTotals()[2] == [0.0, -1.0, 0.0, 1.0];
    assert ButadieneInnerRawSums()[2][2] == 0.0;
    assert DotRange([1, -1, 1, -1], [0.0, -1.0, 0.0, 1.0], 0, 4) == 0.0;
  }

  lemma ButadieneInnerCoef2_3()
    ensures DotRange(C2v().irreps[2].chars, ButadieneInnerTotals()[3], 0, |C2v().sizes|) == ButadieneInnerRawSums()[2][3]
  {
    C2vChars2();
    assert ButadieneInnerTotals()[3] == [0.0, 0.0, 0.0, 0.0];
    assert ButadieneInnerRawSums()[2][3] == 0.0;
    assert DotRange([1, -1, 1, -1], [0.0, 0.0, 0.0, 0.0], 0, 4) == 0.0;
  }

  lemma ButadieneInnerCoefs2()
    ensures |ButadieneInnerRawSums()[2]| == 4
    ensures forall s: Sym :: s < 4 ==> DotRange(C2v().irreps[2].chars, ButadieneInnerTotals()[s], 0, |C2v().sizes|) == ButadieneInnerRawSums()[2][s]
  {
    forall s: Sym | s < 4
      ensures DotRange(C2v().irreps[2].chars, ButadieneInnerTotals()[s], 0, |C2v().sizes|) == ButadieneInnerRawSums()[2][s]
    {
      if s == 0 {
        ButadieneInnerCoef2_0();
      } else if s == 1 {
        ButadieneInnerCoef2_1();
      } else if s == 2 {
        ButadieneInnerCoef2_2();
      } else if s == 3 {
        ButadieneInnerCoef2_3();
      }
    }
  }

  lemma ButadieneInnerRaw2(v: seq<Lin>)
    requires ButadieneInnerLike(v)
    ensures WellFormed(C2v()) && Raw(C2v(), 2, v) == ButadieneInnerRawSums()[2]
  {
    C2vWellFormed();
    ButadieneInnerCoefs2();
    RawFromCoefs(C2v(), 2, v, 4, ButadieneInnerRawSums()[2]);
  }

  lemma ButadieneInnerNorm2()
    ensures Dim(C2v().irreps[2]) == 1 && Order(C2v()) == 4
    ensures Normalise(ButadieneInnerRawSums()[2], Some(1), Dim(C2v().irreps[2]), Order(C2v())) == ButadieneInnerSalcs()[2]
  {
    assert ButadieneInnerRawSums()[2] == [0.0, 0.0, 0.0, 0.0];
    assert ButadieneInnerSalcs()[2] == Zero;
    C2vShape();
    assert C2v().irreps[2].chars[0] == 1;
  }

  lemma ButadieneInnerCoef3_0()
    ensures DotRange(C2v().irreps[3].chars, ButadieneInnerTotals()[0], 0, |C2v().sizes|) == ButadieneInnerRawSums()[3][0]
  {
    C2vChars3();
    assert ButadieneInnerTotals()[0] == [0.0, 0.0, 0.0, 0.0];
    assert ButadieneInnerRawSums()[3][0] == 0.0;
    assert DotRange([1, -1, -1, 1], [0.0, 0.0, 0.0, 0.0], 0, 4) == 0.0;
  }

  lemma ButadieneInnerCoef3_1()
    ensures DotRange(C2v().irreps[3].chars, ButadieneInnerTotals()[1], 0, |C2v().sizes|) == ButadieneInnerRawSums()[3][1]
  {
    C2vChars3();
    assert ButadieneInnerTotals()[1] == [1.0, 0.0, -1.0, 0.0];
    assert ButadieneInnerRawSums()[3][1] == 2.0;
    assert DotRange([1, -1, -1, 1], [1.0, 0.0, -1.0, 0.0], 0, 4) == 2.0;
  }

  lemma ButadieneInnerCoef3_2()
    ensures DotRange(C2v().irreps[3].chars, ButadieneInnerTotals()[2], 0, |C2v().sizes|) == ButadieneInnerRawSums()[3][2]
  {
    C2vChars3();
    assert ButadieneInnerTotals()[2] == [0.0, -1.0, 0.0, 1.0];
    assert ButadieneInnerRawSums()[3][2] == 2.0;
    assert DotRange([1, -1, -1, 1], [0.0, -1.0, 0.0, 1.0], 0, 4) == 2.0;
  }

  lemma ButadieneInnerCoef3_3()
    ensures DotRange(C2v().irreps[3].chars, ButadieneInnerTotals()[3], 0, |C2v().sizes|) == ButadieneInnerRawSums()[3][3]
  {
    C2vChars3();
    assert ButadieneInnerTotals()[3] == [0.0, 0.0, 0.0, 0.0];
    assert ButadieneInnerRawSums()[3][3] == 0.0;
    assert DotRange([1, -1, -1, 1], [0.0, 0.0, 0.0, 0.0], 0, 4) == 0.0;
  }

  lemma ButadieneInnerCoefs3()
    ensures |ButadieneInnerRawSums()[3]| == 4
    ensures forall s: Sym :: s < 4 ==> DotRange(C2v().irreps[3].chars, ButadieneInnerTotals()[s], 0, |C2v().sizes|) == ButadieneInnerRawSums()[3][s]
  {
    forall s: Sym | s < 4
      ensures DotRange(C2v().irreps[3].chars, ButadieneInnerTotals()[s], 0, |C2v().sizes|) == ButadieneInnerRawSums()[3][s]
    {
      if s == 0 {
        ButadieneInnerCoef3_0();
      } else if s == 1 {
        ButadieneInnerCoef3_1();
      } else if s == 2 {
        ButadieneInnerCoef3_2();
      } else if s == 3 {
        ButadieneInnerCoef3_3();
      }
    }
  }

  lemma ButadieneInnerRaw3(v: seq<Lin>)
    requires ButadieneInnerLike(v)
    ensures WellFormed(C2v()) && Raw(C2v(), 3, v) == ButadieneInnerRawSums()[3]
  {
    C2vWellFormed();
    ButadieneInnerCoefs3();
    RawFromCoefs(C2v(), 3, v, 4, ButadieneInnerRawSums()[3]);
  }

  lemma ButadieneInnerNorm3()
    ensures Dim(C2v().irreps[3]) == 1 && Order(C2v()) == 4
    ensures Normalise(ButadieneInnerRawSums()[3], Some(1), Dim(C2v().irreps[3]), Order(C2v())) == ButadieneInnerSalcs()[3]
  {
    assert ButadieneInnerRawSums()[3] == [0.0, 2.0, 2.0, 0.0];
    assert ButadieneInnerSalcs()[3] == Combo([0.0, 1.0, 1.0, 0.0]);
    C2vShape();
    assert C2v().irreps[3].chars[0] == 1;
    Extensionality(Scale(1.0 / 2.0, [0.0, 2.0, 2.0, 0.0]), [0.0, 1.0, 1.0, 0.0]);
  }

  /** The raw sums of the scenario, one per irreducible representation. */
  function ButadieneInnerRawSums(): seq<Lin> {
    [[0.0, 0.0, 0.0, 0.0], [0.0, 2.0, -2.0, 0.0], [0.0, 0.0, 0.0, 0.0], [0.0, 2.0, 2.0, 0.0]]
  }

  /** The expected results of the scenario. */
  function ButadieneInnerSalcs(): seq<Salc> {
    [Zero, Combo([0.0, 1.0, -1.0, 0.0]), Zero, Combo([0.0, 1.0, 1.0, 0.0])]
  }

  /** The projection of every input of this shape. */
  lemma ButadieneInnerFor(v: seq<Lin>)
    requires ButadieneInnerLike(v)
    ensures Project(v, "c2v") == Ok(ButadieneInnerSalcs())
  {
    C2vWellFormed();
    forall i | 0 <= i < 4
      ensures Raw(C2v(), i, v) == ButadieneInnerRawSums()[i]
      ensures Normalise(ButadieneInnerRawSums()[i], Reference(v), Dim(C2v().irreps[i]), Order(C2v())) == ButadieneInnerSalcs()[i]
    {
      if i == 0 {
        ButadieneInnerRaw0(v);
        ButadieneInnerNorm0();
      } else if i == 1 {
        ButadieneInnerRaw1(v);
        ButadieneInnerNorm1();
      } else if i == 2 {
        ButadieneInnerRaw2(v);
        ButadieneInnerNorm2();
      } else if i == 3 {
        ButadieneInnerRaw3(v);
        ButadieneInnerNorm3();
      }
    }
    assert Lookup("c2v") == Ok(C2v());
    ProjectFrom(v, "c2v", C2v(), ButadieneInnerRawSums(), ButadieneInnerSalcs());
  }

  lemma ButadieneInner()
    ensures Project(ButadieneInnerInput(), "c2v") == Ok([Zero, Combo([0.0, 1.0, -1.0, 0.0]), Zero, Combo([0.0, 1.0, 1.0, 0.0])])
  {
    ButadieneInnerInputLike();
    ButadieneInnerFor(ButadieneInnerInput());
    assert ButadieneInnerSalcs() == [Zero, Combo([0.0, 1.0, -1.0, 0.0]), Zero, Combo([0.0, 1.0, 1.0, 0.0])];
  }
}
