/** The character table store: static point-group data keyed by name.

    Each group lists its conjugacy classes in canonical order together with
    the number of operations in each class, and its irreducible
    representations in table order, each with one integer character per
    class.  The numbers are the standard published character tables
    (Schoenflies notation, classes and irreducible representations in the
    customary order); the model takes them as given data. */
module CharacterTables {
  import opened Results

  datatype Irrep = Irrep(name: string, chars: seq<int>)

  /** `classes[c]` names the c-th conjugacy class and `sizes[c]` counts its operations. */
  datatype PointGroup = PointGroup(name: string, classes: seq<string>, sizes: seq<nat>, irreps: seq<Irrep>)

  /** xs[0] + ... + xs[n - 1]. */
  function SumTo(xs: seq<nat>, n: nat): nat
    requires n <= |xs|
  {
    if n == 0 then 0 else SumTo(xs, n - 1) + xs[n - 1]
  }

  function SumOf(xs: seq<nat>): nat {
    SumTo(xs, |xs|)
  }

  /** The group order h: the number of individual operations. */
  function Order(g: PointGroup): nat {
    SumOf(g.sizes)
  }

  /** Σ over the classes from `c` on of (class size) · (character): the sum of a
      row over all the operations of those classes. */
  function ClassSumFrom(sizes: seq<nat>, row: seq<int>, c: nat): int
    requires |row| == |sizes| && c <= |sizes|
    decreases |sizes| - c
  {
    if c == |sizes| then 0 else sizes[c] * row[c] + ClassSumFrom(sizes, row, c + 1)
  }

  /** The sum of a row over all operations of the group. */
  function ClassSum(sizes: seq<nat>, row: seq<int>): int
    requires |row| == |sizes|
  {
    ClassSumFrom(sizes, row, 0)
  }

  /** The dimension of an irreducible representation: its character at the identity class. */
  function Dim(r: Irrep): int
    requires |r.chars| > 0
  {
    r.chars[0]
  }

  /** Shape invariants every registered table satisfies: the group has at least one
      operation, class sizes are positive,
      every row has one character per class, the identity class comes first so each
      row starts with a positive dimension, the first irreducible representation is
      the totally symmetric one, and every other row sums to zero over the group
      (orthogonality to the totally symmetric row). */
  ghost predicate WellFormed(g: PointGroup) {
    && |g.sizes| > 0
    && Order(g) > 0
    && |g.classes| == |g.sizes|
    && (forall c :: 0 <= c < |g.sizes| ==> g.sizes[c] > 0)
    && |g.irreps| > 0
    && (forall i :: 0 <= i < |g.irreps| ==> |g.irreps[i].chars| == |g.sizes| && g.irreps[i].chars[0] > 0)
    && (forall c :: 0 <= c < |g.sizes| ==> g.irreps[0].chars[c] == 1)
    && (forall i :: 1 <= i < |g.irreps| ==> ClassSum(g.sizes, g.irreps[i].chars) == 0)
  }

  /** Σ over the classes from `c` on of (class size) · a[c] · b[c]. */
  function InnerFrom(sizes: seq<nat>, a: seq<int>, b: seq<int>, c: nat): int
    requires |a| == |sizes| && |b| == |sizes| && c <= |sizes|
    decreases |sizes| - c
  {
    if c == |sizes| then 0 else sizes[c] * a[c] * b[c] + InnerFrom(sizes, a, b, c + 1)
  }

  /** The class-size-weighted inner product of two rows: Σ over all operations
      of the product of the two characters. */
  function Inner(sizes: seq<nat>, a: seq<int>, b: seq<int>): int
    requires |a| == |sizes| && |b| == |sizes|
  {
    InnerFrom(sizes, a, b, 0)
  }

  /** The first orthogonality relation of character theory: distinct rows are
      orthogonal under the class-size-weighted product, and every row has
      weighted square sum h (Σ_c size(c) · χ(c)² = h). */
  ghost predicate Orthonormal(g: PointGroup) {
    && WellFormed(g)
    && forall i, j :: 0 <= i < |g.irreps| && 0 <= j < |g.irreps| ==>
         Inner(g.sizes, g.irreps[i].chars, g.irreps[j].chars) == if i == j then Order(g) else 0
  }

  function C2v(): PointGroup {
    PointGroup("c2v",
      ["E", "C2", "sv(xz)", "sv'(yz)"],
      [1, 1, 1, 1],
      [ Irrep("A1", [1,  1,  1,  1]),
        Irrep("A2", [1,  1, -1, -1]),
        Irrep("B1", [1, -1,  1, -1]),
        Irrep("B2", [1, -1, -1,  1]) ])
  }

  function C3v(): PointGroup {
    PointGroup("c3v",
      ["E", "2C3", "3sv"],
      [1, 2, 3],
      [ Irrep("A1", [1,  1,  1]),
        Irrep("A2", [1,  1, -1]),
        Irrep("E",  [2, -1,  0]) ])
  }

  function D3h(): PointGroup {
    PointGroup("d3h",
      ["E", "2C3", "3C2", "sh", "2S3", "3sv"],
      [1, 2, 3, 1, 2, 3],
      [ Irrep("A1'",  [1,  1,  1,  1,  1,  1]),
        Irrep("A2'",  [1,  1, -1,  1,  1, -1]),
        Irrep("E'",   [2, -1,  0,  2, -1,  0]),
        Irrep("A1''", [1,  1,  1, -1, -1, -1]),
        Irrep("A2''", [1,  1, -1, -1, -1,  1]),
        Irrep("E''",  [2, -1,  0, -2,  1,  0]) ])
  }

  function D4h(): PointGroup {
    PointGroup("d4h",
      ["E", "2C4", "C2", "2C2'", "2C2''", "i", "2S4", "sh", "2sv", "2sd"],
      [1, 2, 1, 2, 2, 1, 2, 1, 2, 2],
      [ Irrep("A1g", [1,  1,  1,  1,  1,  1,  1,  1,  1,  1]),
        Irrep("A2g", [1,  1,  1, -1, -1,  1,  1,  1, -1, -1]),
        Irrep("B1g", [1, -1,  1,  1, -1,  1, -1,  1,  1, -1]),
        Irrep("B2g", [1, -1,  1, -1,  1,  1, -1,  1, -1,  1]),
        Irrep("Eg",  [2,  0, -2,  0,  0,  2,  0, -2,  0,  0]),
        Irrep("A1u", [1,  1,  1,  1,  1, -1, -1, -1, -1, -1]),
        Irrep("A2u", [1,  1,  1, -1, -1, -1, -1, -1,  1,  1]),
        Irrep("B1u", [1, -1,  1,  1, -1, -1,  1, -1, -1,  1]),
        Irrep("B2u", [1, -1,  1, -1,  1, -1,  1, -1,  1, -1]),
        Irrep("Eu",  [2,  0, -2,  0,  0, -2,  0,  2,  0,  0]) ])
  }

  function D6h(): PointGroup {
    PointGroup("d6h",
      ["E", "2C6", "2C3", "C2", "3C2'", "3C2''", "i", "2S3", "2S6", "sh", "3sd", "3sv"],
      [1, 2, 2, 1, 3, 3, 1, 2, 2, 1, 3, 3],
      [ Irrep("A1g", [1,  1,  1,  1,  1,  1,  1,  1,  1,  1,  1,  1]),
        Irrep("A2g", [1,  1,  1,  1, -1, -1,  1,  1,  1,  1, -1, -1]),
        Irrep("B1g", [1, -1,  1, -1,  1, -1,  1, -1,  1, -1,  1, -1]),
        Irrep("B2g", [1, -1,  1, -1, -1,  1,  1, -1,  1, -1, -1,  1]),
        Irrep("E1g", [2,  1, -1, -2,  0,  0,  2,  1, -1, -2,  0,  0]),
        Irrep("E2g", [2, -1, -1,  2,  0,  0,  2, -1, -1,  2,  0,  0]),
        Irrep("A1u", [1,  1,  1,  1,  1,  1, -1, -1, -1, -1, -1, -1]),
        Irrep("A2u", [1,  1,  1,  1, -1, -1, -1, -1, -1, -1,  1,  1]),
        Irrep("B1u", [1, -1,  1, -1,  1, -1, -1,  1, -1,  1, -1,  1]),
        Irrep("B2u", [1, -1,  1, -1, -1,  1, -1,  1, -1,  1,  1, -1]),
        Irrep("E1u", [2,  1, -1, -2,  0,  0, -2, -1,  1,  2,  0,  0]),
        Irrep("E2u", [2, -1, -1,  2,  0,  0, -2,  1,  1, -2,  0,  0]) ])
  }

  /** The names under which tables are registered. */
  const Registered: set<string> := {"c2v", "c3v", "d3h", "d4h", "d6h"}

  /** The registry lookup: the table registered under `name`, or UnknownGroup. */
  function Lookup(name: string): (r: Result<PointGroup>)
    ensures r.Ok? <==> name in Registered
    ensures r.Err? ==> r.error == UnknownGroup(name)
    ensures r.Ok? ==> r.value.name == name && WellFormed(r.value)
  {
    if name == "c2v" then C2vWellFormed(); Ok(C2v())
    else if name == "c3v" then C3vWellFormed(); Ok(C3v())
    else if name == "d3h" then D3hWellFormed(); Ok(D3h())
    else if name == "d4h" then D4hWellFormed(); Ok(D4h())
    else if name == "d6h" then D6hWellFormed(); Ok(D6h())
    else Err(UnknownGroup(name))
  }

  /** The number of irreducible representations of each registered group. */
  lemma IrrepCounts()
    ensures Lookup("c2v").Ok? && |Lookup("c2v").value.irreps| == 4
    ensures Lookup("c3v").Ok? && |Lookup("c3v").value.irreps| == 3
    ensures Lookup("d3h").Ok? && |Lookup("d3h").value.irreps| == 6
    ensures Lookup("d4h").Ok? && |Lookup("d4h").value.irreps| == 10
    ensures Lookup("d6h").Ok? && |Lookup("d6h").value.irreps| == 12
  {
    assert Lookup("c2v") == Ok(C2v());
    assert Lookup("c3v") == Ok(C3v());
    assert Lookup("d3h") == Ok(D3h());
    assert Lookup("d4h") == Ok(D4h());
    assert Lookup("d6h") == Ok(D6h());
  }

  lemma C2vWellFormed()
    ensures WellFormed(C2v()) && Order(C2v()) == 4
  {
    C2vShape();
    C2vRowSums();
  }

  lemma C2vShape()
    ensures |C2v().sizes| > 0 && |C2v().classes| == |C2v().sizes| && |C2v().irreps| > 0
    ensures forall c :: 0 <= c < |C2v().sizes| ==> C2v().sizes[c] > 0
    ensures forall i :: 0 <= i < |C2v().irreps| ==> |C2v().irreps[i].chars| == |C2v().sizes| && C2v().irreps[i].chars[0] > 0
    ensures forall c :: 0 <= c < |C2v().sizes| ==> C2v().irreps[0].chars[c] == 1
    ensures Order(C2v()) == 4
  {}

  lemma C3vWellFormed()
    ensures WellFormed(C3v()) && Order(C3v()) == 6
  {
    C3vShape();
    C3vRowSums();
  }

  lemma C3vShape()
    ensures |C3v().sizes| > 0 && |C3v().classes| == |C3v().sizes| && |C3v().irreps| > 0
    ensures forall c :: 0 <= c < |C3v().sizes| ==> C3v().sizes[c] > 0
    ensures forall i :: 0 <= i < |C3v().irreps| ==> |C3v().irreps[i].chars| == |C3v().sizes| && C3v().irreps[i].chars[0] > 0
    ensures forall c :: 0 <= c < |C3v().sizes| ==> C3v().irreps[0].chars[c] == 1
    ensures Order(C3v()) == 6
  {}

  lemma D3hWellFormed()
    ensures WellFormed(D3h()) && Order(D3h()) == 12
  {
    D3hShape();
    D3hRowSums();
  }

  lemma D3hShape()
    ensures |D3h().sizes| > 0 && |D3h().classes| == |D3h().sizes| && |D3h().irreps| > 0
    ensures forall c :: 0 <= c < |D3h().sizes| ==> D3h().sizes[c] > 0
    ensures forall i :: 0 <= i < |D3h().irreps| ==> |D3h().irreps[i].chars| == |D3h().sizes| && D3h().irreps[i].chars[0] > 0
    ensures forall c :: 0 <= c < |D3h().sizes| ==> D3h().irreps[0].chars[c] == 1
    ensures Order(D3h()) == 12
  {
    assert SumTo(D3h().sizes, 2) == 3;
    assert SumTo(D3h().sizes, 4) == 7;
    assert SumTo(D3h().sizes, 6) == 12;
  }

  lemma D4hWellFormed()
    ensures WellFormed(D4h()) && Order(D4h()) == 16
  {
    D4hShape();
    D4hRowSums();
  }

  lemma D4hShape()
    ensures |D4h().sizes| > 0 && |D4h().classes| == |D4h().sizes| && |D4h().irreps| > 0
    ensures forall c :: 0 <= c < |D4h().sizes| ==> D4h().sizes[c] > 0
    ensures forall i :: 0 <= i < |D4h().irreps| ==> |D4h().irreps[i].chars| == |D4h().sizes| && D4h().irreps[i].chars[0] > 0
    ensures forall c :: 0 <= c < |D4h().sizes| ==> D4h().irreps[0].chars[c] == 1
    ensures Order(D4h()) == 16
  {
    assert SumTo(D4h().sizes, 2) == 3;
    assert SumTo(D4h().sizes, 4) == 6;
    assert SumTo(D4h().sizes, 6) == 9;
    assert SumTo(D4h().sizes, 8) == 12;
    assert SumTo(D4h().sizes, 10) == 16;
  }

  lemma D6hWellFormed()
    ensures WellFormed(D6h()) && Order(D6h()) == 24
  {
    D6hShape();
    D6hRowSums();
  }

  lemma D6hShape()
    ensures |D6h().sizes| > 0 && |D6h().classes| == |D6h().sizes| && |D6h().irreps| > 0
    ensures forall c :: 0 <= c < |D6h().sizes| ==> D6h().sizes[c] > 0
    ensures forall i :: 0 <= i < |D6h().irreps| ==> |D6h().irreps[i].chars| == |D6h().sizes| && D6h().irreps[i].chars[0] > 0
    ensures forall c :: 0 <= c < |D6h().sizes| ==> D6h().irreps[0].chars[c] == 1
    ensures Order(D6h()) == 24
  {
    assert SumTo(D6h().sizes, 2) == 3;
    assert SumTo(D6h().sizes, 4) == 6;
    assert SumTo(D6h().sizes, 6) == 12;
    assert SumTo(D6h().sizes, 8) == 15;
    assert SumTo(D6h().sizes, 10) == 18;
    assert SumTo(D6h().sizes, 12) == 24;
  }

  /** Every row of C2v but the first sums to zero over the group. */
  lemma C2vRowSums()
    ensures forall i :: 1 <= i < 4 ==> ClassSum(C2v().sizes, C2v().irreps[i].chars) == 0
  {
    forall i | 1 <= i < 4
      ensures ClassSum(C2v().sizes, C2v().irreps[i].chars) == 0
    {
      if i == 1 {
        C2vRowSum1();
      } else if i == 2 {
        C2vRowSum2();
      } else if i == 3 {
        C2vRowSum3();
      }
    }
  }

  lemma C2vRowSum1()
    ensures ClassSum(C2v().sizes, C2v().irreps[1].chars) == 0
  {
    assert C2v().irreps[1].chars == [1, 1, -1, -1];
  }

  lemma C2vRowSum2()
    ensures ClassSum(C2v().sizes, C2v().irreps[2].chars) == 0
  {
    assert C2v().irreps[2].chars == [1, -1, 1, -1];
  }

  lemma C2vRowSum3()
    ensures ClassSum(C2v().sizes, C2v().irreps[3].chars) == 0
  {
    assert C2v().irreps[3].chars == [1, -1, -1, 1];
  }

  /** Every row of C3v but the first sums to zero over the group. */
  lemma C3vRowSums()
    ensures forall i :: 1 <= i < 3 ==> ClassSum(C3v().sizes, C3v().irreps[i].chars) == 0
  {
    forall i | 1 <= i < 3
      ensures ClassSum(C3v().sizes, C3v().irreps[i].chars) == 0
    {
      if i == 1 {
        C3vRowSum1();
      } else if i == 2 {
        C3vRowSum2();
      }
    }
  }

  lemma C3vRowSum1()
    ensures ClassSum(C3v().sizes, C3v().irreps[1].chars) == 0
  {
    assert C3v().irreps[1].chars == [1, 1, -1];
  }

  lemma C3vRowSum2()
    ensures ClassSum(C3v().sizes, C3v().irreps[2].chars) == 0
  {
    assert C3v().irreps[2].chars == [2, -1, 0];
  }

  /** Every row of D3h but the first sums to zero over the group. */
  lemma D3hRowSums()
    ensures forall i :: 1 <= i < 6 ==> ClassSum(D3h().sizes, D3h().irreps[i].chars) == 0
  {
    forall i | 1 <= i < 6
      ensures ClassSum(D3h().sizes, D3h().irreps[i].chars) == 0
    {
      if i == 1 {
        D3hRowSum1();
      } else if i == 2 {
        D3hRowSum2();
      } else if i == 3 {
        D3hRowSum3();
      } else if i == 4 {
        D3hRowSum4();
      } else if i == 5 {
        D3hRowSum5();
      }
    }
  }

  lemma D3hRowSum1()
    ensures ClassSum(D3h().sizes, D3h().irreps[1].chars) == 0
  {
    assert D3h().irreps[1].chars == [1, 1, -1, 1, 1, -1];
  }

  lemma D3hRowSum2()
    ensures ClassSum(D3h().sizes, D3h().irreps[2].chars) == 0
  {
    assert D3h().irreps[2].chars == [2, -1, 0, 2, -1, 0];
  }

  lemma D3hRowSum3()
    ensures ClassSum(D3h().sizes, D3h().irreps[3].chars) == 0
  {
    assert D3h().irreps[3].chars == [1, 1, 1, -1, -1, -1];
  }

  lemma D3hRowSum4()
    ensures ClassSum(D3h().sizes, D3h().irreps[4].chars) == 0
  {
    assert D3h().irreps[4].chars == [1, 1, -1, -1, -1, 1];
  }

  lemma D3hRowSum5()
    ensures ClassSum(D3h().sizes, D3h().irreps[5].chars) == 0
  {
    assert D3h().irreps[5].chars == [2, -1, 0, -2, 1, 0];
  }

  /** Every row of D4h but the first sums to zero over the group. */
  lemma D4hRowSums()
    ensures forall i :: 1 <= i < 10 ==> ClassSum(D4h().sizes, D4h().irreps[i].chars) == 0
  {
    forall i | 1 <= i < 10
      ensures ClassSum(D4h().sizes, D4h().irreps[i].chars) == 0
    {
      if i == 1 {
        D4hRowSum1();
      } else if i == 2 {
        D4hRowSum2();
      } else if i == 3 {
        D4hRowSum3();
      } else if i == 4 {
        D4hRowSum4();
      } else if i == 5 {
        D4hRowSum5();
      } else if i == 6 {
        D4hRowSum6();
      } else if i == 7 {
        D4hRowSum7();
      } else if i == 8 {
        D4hRowSum8();
      } else if i == 9 {
        D4hRowSum9();
      }
    }
  }

  lemma D4hRowSum1()
    ensures ClassSum(D4h().sizes, D4h().irreps[1].chars) == 0
  {
    assert D4h().irreps[1].chars == [1, 1, 1, -1, -1, 1, 1, 1, -1, -1];
  }

  lemma D4hRowSum2()
    ensures ClassSum(D4h().sizes, D4h().irreps[2].chars) == 0
  {
    assert D4h().irreps[2].chars == [1, -1, 1, 1, -1, 1, -1, 1, 1, -1];
  }

  lemma D4hRowSum3()
    ensures ClassSum(D4h().sizes, D4h().irreps[3].chars) == 0
  {
    assert D4h().irreps[3].chars == [1, -1, 1, -1, 1, 1, -1, 1, -1, 1];
  }

  lemma D4hRowSum4()
    ensures ClassSum(D4h().sizes, D4h().irreps[4].chars) == 0
  {
    assert D4h().irreps[4].chars == [2, 0, -2, 0, 0, 2, 0, -2, 0, 0];
  }

  lemma D4hRowSum5()
    ensures ClassSum(D4h().sizes, D4h().irreps[5].chars) == 0
  {
    assert D4h().irreps[5].chars == [1, 1, 1, 1, 1, -1, -1, -1, -1, -1];
  }

  lemma D4hRowSum6()
    ensures ClassSum(D4h().sizes, D4h().irreps[6].chars) == 0
  {
    assert D4h().irreps[6].chars == [1, 1, 1, -1, -1, -1, -1, -1, 1, 1];
  }

  lemma D4hRowSum7()
    ensures ClassSum(D4h().sizes, D4h().irreps[7].chars) == 0
  {
    assert D4h().irreps[7].chars == [1, -1, 1, 1, -1, -1, 1, -1, -1, 1];
  }

  lemma D4hRowSum8()
    ensures ClassSum(D4h().sizes, D4h().irreps[8].chars) == 0
  {
    assert D4h().irreps[8].chars == [1, -1, 1, -1, 1, -1, 1, -1, 1, -1];
  }

  lemma D4hRowSum9()
    ensures ClassSum(D4h().sizes, D4h().irreps[9].chars) == 0
  {
    assert D4h().irreps[9].chars == [2, 0, -2, 0, 0, -2, 0, 2, 0, 0];
  }

  /** Every row of D6h but the first sums to zero over the group. */
  lemma D6hRowSums()
    ensures forall i :: 1 <= i < 12 ==> ClassSum(D6h().sizes, D6h().irreps[i].chars) == 0
  {
    forall i | 1 <= i < 12
      ensures ClassSum(D6h().sizes, D6h().irreps[i].chars) == 0
    {
      if i == 1 {
        D6hRowSum1();
      } else if i == 2 {
        D6hRowSum2();
      } else if i == 3 {
        D6hRowSum3();
      } else if i == 4 {
        D6hRowSum4();
      } else if i == 5 {
        D6hRowSum5();
      } else if i == 6 {
        D6hRowSum6();
      } else if i == 7 {
        D6hRowSum7();
      } else if i == 8 {
        D6hRowSum8();
      } else if i == 9 {
        D6hRowSum9();
      } else if i == 10 {
        D6hRowSum10();
      } else if i == 11 {
        D6hRowSum11();
      }
    }
  }

  lemma D6hRowSum1()
    ensures ClassSum(D6h().sizes, D6h().irreps[1].chars) == 0
  {
    assert D6h().irreps[1].chars == [1, 1, 1, 1, -1, -1, 1, 1, 1, 1, -1, -1];
  }

  lemma D6hRowSum2()
    ensures ClassSum(D6h().sizes, D6h().irreps[2].chars) == 0
  {
    assert D6h().irreps[2].chars == [1, -1, 1, -1, 1, -1, 1, -1, 1, -1, 1, -1];
  }

  lemma D6hRowSum3()
    ensures ClassSum(D6h().sizes, D6h().irreps[3].chars) == 0
  {
    assert D6h().irreps[3].chars == [1, -1, 1, -1, -1, 1, 1, -1, 1, -1, -1, 1];
  }

  lemma D6hRowSum4()
    ensures ClassSum(D6h().sizes, D6h().irreps[4].chars) == 0
  {
    assert D6h().irreps[4].chars == [2, 1, -1, -2, 0, 0, 2, 1, -1, -2, 0, 0];
  }

  lemma D6hRowSum5()
    ensures ClassSum(D6h().sizes, D6h().irreps[5].chars) == 0
  {
    assert D6h().irreps[5].chars == [2, -1, -1, 2, 0, 0, 2, -1, -1, 2, 0, 0];
  }

  lemma D6hRowSum6()
    ensures ClassSum(D6h().sizes, D6h().irreps[6].chars) == 0
  {
    assert D6h().irreps[6].chars == [1, 1, 1, 1, 1, 1, -1, -1, -1, -1, -1, -1];
  }

  lemma D6hRowSum7()
    ensures ClassSum(D6h().sizes, D6h().irreps[7].chars) == 0
  {
    assert D6h().irreps[7].chars == [1, 1, 1, 1, -1, -1, -1, -1, -1, -1, 1, 1];
  }

  lemma D6hRowSum8()
    ensures ClassSum(D6h().sizes, D6h().irreps[8].chars) == 0
  {
    assert D6h().irreps[8].chars == [1, -1, 1, -1, 1, -1, -1, 1, -1, 1, -1, 1];
  }

  lemma D6hRowSum9()
    ensures ClassSum(D6h().sizes, D6h().irreps[9].chars) == 0
  {
    assert D6h().irreps[9].chars == [1, -1, 1, -1, -1, 1, -1, 1, -1, 1, 1, -1];
  }

  lemma D6hRowSum10()
    ensures ClassSum(D6h().sizes, D6h().irreps[10].chars) == 0
  {
    assert D6h().irreps[10].chars == [2, 1, -1, -2, 0, 0, -2, -1, 1, 2, 0, 0];
  }

  lemma D6hRowSum11()
    ensures ClassSum(D6h().sizes, D6h().irreps[11].chars) == 0
  {
    assert D6h().irreps[11].chars == [2, -1, -1, 2, 0, 0, -2, 1, 1, -2, 0, 0];
  }

  // ---------------------------------------------------------------------------
  // The tables as literals: one lemma per row, so that a proof can use a single
  // row without evaluating the whole table.

  lemma C2vSizes()
    ensures C2v().sizes == [1, 1, 1, 1]
  {
  }

  lemma C2vChars0()
    ensures |C2v().sizes| == 4 && C2v().irreps[0].chars == [1, 1, 1, 1]
  {
  }

  lemma C2vChars1()
    ensures |C2v().sizes| == 4 && C2v().irreps[1].chars == [1, 1, -1, -1]
  {
  }

  lemma C2vChars2()
    ensures |C2v().sizes| == 4 && C2v().irreps[2].chars == [1, -1, 1, -1]
  {
  }

  lemma C2vChars3()
    ensures |C2v().sizes| == 4 && C2v().irreps[3].chars == [1, -1, -1, 1]
  {
  }

  lemma C3vSizes()
    ensures C3v().sizes == [1, 2, 3]
  {
  }

  lemma C3vChars0()
    ensures |C3v().sizes| == 3 && C3v().irreps[0].chars == [1, 1, 1]
  {
  }

  lemma C3vChars1()
    ensures |C3v().sizes| == 3 && C3v().irreps[1].chars == [1, 1, -1]
  {
  }

  lemma C3vChars2()
    ensures |C3v().sizes| == 3 && C3v().irreps[2].chars == [2, -1, 0]
  {
  }

  lemma D3hSizes()
    ensures D3h().sizes == [1, 2, 3, 1, 2, 3]
  {
  }

  lemma D3hChars0()
    ensures |D3h().sizes| == 6 && D3h().irreps[0].chars == [1, 1, 1, 1, 1, 1]
  {
  }

  lemma D3hChars1()
    ensures |D3h().sizes| == 6 && D3h().irreps[1].chars == [1, 1, -1, 1, 1, -1]
  {
  }

  lemma D3hChars2()
    ensures |D3h().sizes| == 6 && D3h().irreps[2].chars == [2, -1, 0, 2, -1, 0]
  {
  }

  lemma D3hChars3()
    ensures |D3h().sizes| == 6 && D3h().irreps[3].chars == [1, 1, 1, -1, -1, -1]
  {
  }

  lemma D3hChars4()
    ensures |D3h().sizes| == 6 && D3h().irreps[4].chars == [1, 1, -1, -1, -1, 1]
  {
  }

  lemma D3hChars5()
    ensures |D3h().sizes| == 6 && D3h().irreps[5].chars == [2, -1, 0, -2, 1, 0]
  {
  }

  lemma D4hSizes()
    ensures D4h().sizes == [1, 2, 1, 2, 2, 1, 2, 1, 2, 2]
  {
  }

  lemma D4hChars0()
    ensures |D4h().sizes| == 10 && D4h().irreps[0].chars == [1, 1, 1, 1, 1, 1, 1, 1, 1, 1]
  {
  }

  lemma D4hChars1()
    ensures |D4h().sizes| == 10 && D4h().irreps[1].chars == [1, 1, 1, -1, -1, 1, 1, 1, -1, -1]
  {
  }

  lemma D4hChars2()
    ensures |D4h().sizes| == 10 && D4h().irreps[2].chars == [1, -1, 1, 1, -1, 1, -1, 1, 1, -1]
  {
  }

  lemma D4hChars3()
    ensures |D4h().sizes| == 10 && D4h().irreps[3].chars == [1, -1, 1, -1, 1, 1, -1, 1, -1, 1]
  {
  }

  lemma D4hChars4()
    ensures |D4h().sizes| == 10 && D4h().irreps[4].chars == [2, 0, -2, 0, 0, 2, 0, -2, 0, 0]
  {
  }

  lemma D4hChars5()
    ensures |D4h().sizes| == 10 && D4h().irreps[5].chars == [1, 1, 1, 1, 1, -1, -1, -1, -1, -1]
  {
  }

  lemma D4hChars6()
    ensures |D4h().sizes| == 10 && D4h().irreps[6].chars == [1, 1, 1, -1, -1, -1, -1, -1, 1, 1]
  {
  }

  lemma D4hChars7()
    ensures |D4h().sizes| == 10 && D4h().irreps[7].chars == [1, -1, 1, 1, -1, -1, 1, -1, -1, 1]
  {
  }

  lemma D4hChars8()
    ensures |D4h().sizes| == 10 && D4h().irreps[8].chars == [1, -1, 1, -1, 1, -1, 1, -1, 1, -1]
  {
  }

  lemma D4hChars9()
    ensures |D4h().sizes| == 10 && D4h().irreps[9].chars == [2, 0, -2, 0, 0, -2, 0, 2, 0, 0]
  {
  }

  lemma D6hSizes()
    ensures D6h().sizes == [1, 2, 2, 1, 3, 3, 1, 2, 2, 1, 3, 3]
  {
  }

  lemma D6hChars0()
    ensures |D6h().sizes| == 12 && D6h().irreps[0].chars == [1, 1, 1, 1, 1, 1, 1, 1, 1, 1, 1, 1]
  {
  }

  lemma D6hChars1()
    ensures |D6h().sizes| == 12 && D6h().irreps[1].chars == [1, 1, 1, 1, -1, -1, 1, 1, 1, 1, -1, -1]
  {
  }

  lemma D6hChars2()
    ensures |D6h().sizes| == 12 && D6h().irreps[2].chars == [1, -1, 1, -1, 1, -1, 1, -1, 1, -1, 1, -1]
  {
  }

  lemma D6hChars3()
    ensures |D6h().sizes| == 12 && D6h().irreps[3].chars == [1, -1, 1, -1, -1, 1, 1, -1, 1, -1, -1, 1]
  {
  }

  lemma D6hChars4()
    ensures |D6h().sizes| == 12 && D6h().irreps[4].chars == [2, 1, -1, -2, 0, 0, 2, 1, -1, -2, 0, 0]
  {
  }

  lemma D6hChars5()
    ensures |D6h().sizes| == 12 && D6h().irreps[5].chars == [2, -1, -1, 2, 0, 0, 2, -1, -1, 2, 0, 0]
  {
  }

  lemma D6hChars6()
    ensures |D6h().sizes| == 12 && D6h().irreps[6].chars == [1, 1, 1, 1, 1, 1, -1, -1, -1, -1, -1, -1]
  {
  }

  lemma D6hChars7()
    ensures |D6h().sizes| == 12 && D6h().irreps[7].chars == [1, 1, 1, 1, -1, -1, -1, -1, -1, -1, 1, 1]
  {
  }

  lemma D6hChars8()
    ensures |D6h().sizes| == 12 && D6h().irreps[8].chars == [1, -1, 1, -1, 1, -1, -1, 1, -1, 1, -1, 1]
  {
  }

  lemma D6hChars9()
    ensures |D6h().sizes| == 12 && D6h().irreps[9].chars == [1, -1, 1, -1, -1, 1, -1, 1, -1, 1, 1, -1]
  {
  }

  lemma D6hChars10()
    ensures |D6h().sizes| == 12 && D6h().irreps[10].chars == [2, 1, -1, -2, 0, 0, -2, -1, 1, 2, 0, 0]
  {
  }

  lemma D6hChars11()
    ensures |D6h().sizes| == 12 && D6h().irreps[11].chars == [2, -1, -1, 2, 0, 0, -2, 1, 1, -2, 0, 0]
  {
  }
}
