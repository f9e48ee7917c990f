/** The orthogonality relations of the registered character tables.

    Every registered table satisfies the first orthogonality relation: under
    the class-size-weighted product, distinct rows are orthogonal and each row
    has square sum equal to the group order.  The tables are given data, so
    this is their correctness check: each weighted product is evaluated on
    the literal rows.

    Most of this file is enumerated: `<Table>Pair<i>_<j>` evaluates Inner on
    the literal class sizes and rows i and j, `<Table>Row<i>` (split into
    halves `a`/`b` for the larger tables) collects the pairs of row i, and
    `<Table>Rows<n>` collects a chunk of rows.  Each obligation is kept small
    this way; one lemma per table over all pairs at once is too costly for
    the verifier. */
module TableOrthogonality {
  import opened Results
  import opened CharacterTables

  lemma {:induction false} InnerFromSym(sizes: seq<nat>, a: seq<int>, b: seq<int>, c: nat)
    requires |a| == |sizes| && |b| == |sizes| && c <= |sizes|
    ensures InnerFrom(sizes, a, b, c) == InnerFrom(sizes, b, a, c)
    decreases |sizes| - c
  {
    if c < |sizes| {
      InnerFromSym(sizes, a, b, c + 1);
    }
  }

  /** The weighted product is symmetric, so each table needs only half its pairs. */
  lemma InnerSym(sizes: seq<nat>, a: seq<int>, b: seq<int>)
    requires |a| == |sizes| && |b| == |sizes|
    ensures Inner(sizes, a, b) == Inner(sizes, b, a)
  {
    InnerFromSym(sizes, a, b, 0);
  }

  /** Every registered table is orthonormal. */
  lemma RegisteredOrthonormal(name: string)
    requires name in Registered
    ensures Lookup(name).Ok? && Orthonormal(Lookup(name).value)
  {
    if name == "c2v" {
      C2vRegisteredOrthonormal();
    } else if name == "c3v" {
      C3vRegisteredOrthonormal();
    } else if name == "d3h" {
      D3hRegisteredOrthonormal();
    } else if name == "d4h" {
      D4hRegisteredOrthonormal();
    } else if name == "d6h" {
      D6hRegisteredOrthonormal();
    }
  }

  // ---------------------------------------------------------------------------
  // C2v

  lemma C2vRegisteredOrthonormal()
    ensures Lookup("c2v") == Ok(C2v()) && Orthonormal(C2v())
  {
    C2vOrthonormal();
  }

  lemma C2vOrthonormal()
    ensures Orthonormal(C2v())
  {
    C2vWellFormed();
    C2vRows0();
  }

  /** Rows 0 to 3 of C2v against every row. */
  lemma C2vRows0()
    ensures |C2v().irreps| == 4
    ensures forall i, j :: 0 <= i < 4 && 0 <= j < 4 ==>
      Inner(C2v().sizes, C2v().irreps[i].chars, C2v().irreps[j].chars) == if i == j then 4 else 0
  {
    C2vShape();
    forall i, j | 0 <= i < 4 && 0 <= j < 4
      ensures Inner(C2v().sizes, C2v().irreps[i].chars, C2v().irreps[j].chars) == if i == j then 4 else 0
    {
      if i == 0 {
        C2vRow0();
      } else if i == 1 {
        C2vRow1();
      } else if i == 2 {
        C2vRow2();
      } else if i == 3 {
        C2vRow3();
      }
    }
  }

  /** Row 0 of C2v against rows 0 to 3. */
  lemma C2vRow0()
    ensures forall j :: 0 <= j < 4 ==> Inner(C2v().sizes, C2v().irreps[0].chars, C2v().irreps[j].chars) == if j == 0 then 4 else 0
  {
    C2vSizes();
    C2vChars0();
    forall j | 0 <= j < 4
      ensures Inner(C2v().sizes, C2v().irreps[0].chars, C2v().irreps[j].chars) == if j == 0 then 4 else 0
    {
      if j == 0 {
        C2vChars0();
        C2vPair0_0();
      } else if j == 1 {
        C2vChars1();
        C2vPair0_1();
      } else if j == 2 {
        C2vChars2();
        C2vPair0_2();
      } else if j == 3 {
        C2vChars3();
        C2vPair0_3();
      }
    }
  }

  /** Row 1 of C2v against rows 0 to 3. */
  lemma C2vRow1()
    ensures forall j :: 0 <= j < 4 ==> Inner(C2v().sizes, C2v().irreps[1].chars, C2v().irreps[j].chars) == if j == 1 then 4 else 0
  {
    C2vSizes();
    C2vChars1();
    forall j | 0 <= j < 4
      ensures Inner(C2v().sizes, C2v().irreps[1].chars, C2v().irreps[j].chars) == if j == 1 then 4 else 0
    {
      if j == 0 {
        C2vChars0();
        C2vPair0_1();
        InnerSym([1, 1, 1, 1], [1, 1, 1, 1], [1, 1, -1, -1]);
      } else if j == 1 {
        C2vChars1();
        C2vPair1_1();
      } else if j == 2 {
        C2vChars2();
        C2vPair1_2();
      } else if j == 3 {
        C2vChars3();
        C2vPair1_3();
      }
    }
  }

  /** Row 2 of C2v against rows 0 to 3. */
  lemma C2vRow2()
    ensures forall j :: 0 <= j < 4 ==> Inner(C2v().sizes, C2v().irreps[2].chars, C2v().irreps[j].chars) == if j == 2 then 4 else 0
  {
    C2vSizes();
    C2vChars2();
    forall j | 0 <= j < 4
      ensures Inner(C2v().sizes, C2v().irreps[2].chars, C2v().irreps[j].chars) == if j == 2 then 4 else 0
    {
      if j == 0 {
        C2vChars0();
        C2vPair0_2();
        InnerSym([1, 1, 1, 1], [1, 1, 1, 1], [1, -1, 1, -1]);
      } else if j == 1 {
        C2vChars1();
        C2vPair1_2();
        InnerSym([1, 1, 1, 1], [1, 1, -1, -1], [1, -1, 1, -1]);
      } else if j == 2 {
        C2vChars2();
        C2vPair2_2();
      } else if j == 3 {
        C2vChars3();
        C2vPair2_3();
      }
    }
  }

  /** Row 3 of C2v against rows 0 to 3. */
  lemma C2vRow3()
    ensures forall j :: 0 <= j < 4 ==> Inner(C2v().sizes, C2v().irreps[3].chars, C2v().irreps[j].chars) == if j == 3 then 4 else 0
  {
    C2vSizes();
    C2vChars3();
    forall j | 0 <= j < 4
      ensures Inner(C2v().sizes, C2v().irreps[3].chars, C2v().irreps[j].chars) == if j == 3 then 4 else 0
    {
      if j == 0 {
        C2vChars0();
        C2vPair0_3();
        InnerSym([1, 1, 1, 1], [1, 1, 1, 1], [1, -1, -1, 1]);
      } else if j == 1 {
        C2vChars1();
        C2vPair1_3();
        InnerSym([1, 1, 1, 1], [1, 1, -1, -1], [1, -1, -1, 1]);
      } else if j == 2 {
        C2vChars2();
        C2vPair2_3();
        InnerSym([1, 1, 1, 1], [1, -1, 1, -1], [1, -1, -1, 1]);
      } else if j == 3 {
        C2vChars3();
        C2vPair3_3();
      }
    }
  }

  lemma C2vPair0_0()
    ensures Inner([1, 1, 1, 1], [1, 1, 1, 1], [1, 1, 1, 1]) == 4
  {
  }

  lemma C2vPair0_1()
    ensures Inner([1, 1, 1, 1], [1, 1, 1, 1], [1, 1, -1, -1]) == 0
  {
  }

  lemma C2vPair0_2()
    ensures Inner([1, 1, 1, 1], [1, 1, 1, 1], [1, -1, 1, -1]) == 0
  {
  }

  lemma C2vPair0_3()
    ensures Inner([1, 1, 1, 1], [1, 1, 1, 1], [1, -1, -1, 1]) == 0
  {
  }

  lemma C2vPair1_1()
    ensures Inner([1, 1, 1, 1], [1, 1, -1, -1], [1, 1, -1, -1]) == 4
  {
  }

  lemma C2vPair1_2()
    ensures Inner([1, 1, 1, 1], [1, 1, -1, -1], [1, -1, 1, -1]) == 0
  {
  }

  lemma C2vPair1_3()
    ensures Inner([1, 1, 1, 1], [1, 1, -1, -1], [1, -1, -1, 1]) == 0
  {
  }

  lemma C2vPair2_2()
    ensures Inner([1, 1, 1, 1], [1, -1, 1, -1], [1, -1, 1, -1]) == 4
  {
  }

  lemma C2vPair2_3()
    ensures Inner([1, 1, 1, 1], [1, -1, 1, -1], [1, -1, -1, 1]) == 0
  {
  }

  lemma C2vPair3_3()
    ensures Inner([1, 1, 1, 1], [1, -1, -1, 1], [1, -1, -1, 1]) == 4
  {
  }

  // ---------------------------------------------------------------------------
  // C3v

  lemma C3vRegisteredOrthonormal()
    ensures Lookup("c3v") == Ok(C3v()) && Orthonormal(C3v())
  {
    C3vOrthonormal();
  }

  lemma C3vOrthonormal()
    ensures Orthonormal(C3v())
  {
    C3vWellFormed();
    C3vRows0();
  }

  /** Rows 0 to 2 of C3v against every row. */
  lemma C3vRows0()
    ensures |C3v().irreps| == 3
    ensures forall i, j :: 0 <= i < 3 && 0 <= j < 3 ==>
      Inner(C3v().sizes, C3v().irreps[i].chars, C3v().irreps[j].chars) == if i == j then 6 else 0
  {
    C3vShape();
    forall i, j | 0 <= i < 3 && 0 <= j < 3
      ensures Inner(C3v().sizes, C3v().irreps[i].chars, C3v().irreps[j].chars) == if i == j then 6 else 0
    {
      if i == 0 {
        C3vRow0();
      } else if i == 1 {
        C3vRow1();
      } else if i == 2 {
        C3vRow2();
      }
    }
  }

  /** Row 0 of C3v against rows 0 to 2. */
  lemma C3vRow0()
    ensures forall j :: 0 <= j < 3 ==> Inner(C3v().sizes, C3v().irreps[0].chars, C3v().irreps[j].chars) == if j == 0 then 6 else 0
  {
    C3vSizes();
    C3vChars0();
    forall j | 0 <= j < 3
      ensures Inner(C3v().sizes, C3v().irreps[0].chars, C3v().irreps[j].chars) == if j == 0 then 6 else 0
    {
      if j == 0 {
        C3vChars0();
        C3vPair0_0();
      } else if j == 1 {
        C3vChars1();
        C3vPair0_1();
      } else if j == 2 {
        C3vChars2();
        C3vPair0_2();
      }
    }
  }

  /** Row 1 of C3v against rows 0 to 2. */
  lemma C3vRow1()
    ensures forall j :: 0 <= j < 3 ==> Inner(C3v().sizes, C3v().irreps[1].chars, C3v().irreps[j].chars) == if j == 1 then 6 else 0
  {
    C3vSizes();
    C3vChars1();
    forall j | 0 <= j < 3
      ensures Inner(C3v().sizes, C3v().irreps[1].chars, C3v().irreps[j].chars) == if j == 1 then 6 else 0
    {
      if j == 0 {
        C3vChars0();
        C3vPair0_1();
        InnerSym([1, 2, 3], [1, 1, 1], [1, 1, -1]);
      } else if j == 1 {
        C3vChars1();
        C3vPair1_1();
      } else if j == 2 {
        C3vChars2();
        C3vPair1_2();
      }
    }
  }

  /** Row 2 of C3v against rows 0 to 2. */
  lemma C3vRow2()
    ensures forall j :: 0 <= j < 3 ==> Inner(C3v().sizes, C3v().irreps[2].chars, C3v().irreps[j].chars) == if j == 2 then 6 else 0
  {
    C3vSizes();
    C3vChars2();
    forall j | 0 <= j < 3
      ensures Inner(C3v().sizes, C3v().irreps[2].chars, C3v().irreps[j].chars) == if j == 2 then 6 else 0
    {
      if j == 0 {
        C3vChars0();
        C3vPair0_2();
        InnerSym([1, 2, 3], [1, 1, 1], [2, -1, 0]);
      } else if j == 1 {
        C3vChars1();
        C3vPair1_2();
        InnerSym([1, 2, 3], [1, 1, -1], [2, -1, 0]);
      } else if j == 2 {
        C3vChars2();
        C3vPair2_2();
      }
    }
  }

  lemma C3vPair0_0()
    ensures Inner([1, 2, 3], [1, 1, 1], [1, 1, 1]) == 6
  {
  }

  lemma C3vPair0_1()
    ensures Inner([1, 2, 3], [1, 1, 1], [1, 1, -1]) == 0
  {
  }

  lemma C3vPair0_2()
    ensures Inner([1, 2, 3], [1, 1, 1], [2, -1, 0]) == 0
  {
  }

  lemma C3vPair1_1()
    ensures Inner([1, 2, 3], [1, 1, -1], [1, 1, -1]) == 6
  {
  }

  lemma C3vPair1_2()
    ensures Inner([1, 2, 3], [1, 1, -1], [2, -1, 0]) == 0
  {
  }

  lemma C3vPair2_2()
    ensures Inner([1, 2, 3], [2, -1, 0], [2, -1, 0]) == 6
  {
  }

  // ---------------------------------------------------------------------------
  // D3h

  lemma D3hRegisteredOrthonormal()
    ensures Lookup("d3h") == Ok(D3h()) && Orthonormal(D3h())
  {
    D3hOrthonormal();
  }

  lemma D3hOrthonormal()
    ensures Orthonormal(D3h())
  {
    D3hWellFormed();
    D3hRows0();
  }

  /** Rows 0 to 5 of D3h against every row. */
  lemma D3hRows0()
    ensures |D3h().irreps| == 6
    ensures forall i, j :: 0 <= i < 6 && 0 <= j < 6 ==>
      Inner(D3h().sizes, D3h().irreps[i].chars, D3h().irreps[j].chars) == if i == j then 12 else 0
  {
    D3hShape();
    forall i, j | 0 <= i < 6 && 0 <= j < 6
      ensures Inner(D3h().sizes, D3h().irreps[i].chars, D3h().irreps[j].chars) == if i == j then 12 else 0
    {
      if i == 0 {
        D3hRow0();
      } else if i == 1 {
        D3hRow1();
      } else if i == 2 {
        D3hRow2();
      } else if i == 3 {
        D3hRow3();
      } else if i == 4 {
        D3hRow4();
      } else if i == 5 {
        D3hRow5();
      }
    }
  }

  /** Row 0 of D3h against rows 0 to 5. */
  lemma D3hRow0()
    ensures forall j :: 0 <= j < 6 ==> Inner(D3h().sizes, D3h().irreps[0].chars, D3h().irreps[j].chars) == if j == 0 then 12 else 0
  {
    D3hSizes();
    D3hChars0();
    forall j | 0 <= j < 6
      ensures Inner(D3h().sizes, D3h().irreps[0].chars, D3h().irreps[j].chars) == if j == 0 then 12 else 0
    {
      if j == 0 {
        D3hChars0();
        D3hPair0_0();
      } else if j == 1 {
        D3hChars1();
        D3hPair0_1();
      } else if j == 2 {
        D3hChars2();
        D3hPair0_2();
      } else if j == 3 {
        D3hChars3();
        D3hPair0_3();
      } else if j == 4 {
        D3hChars4();
        D3hPair0_4();
      } else if j == 5 {
        D3hChars5();
        D3hPair0_5();
      }
    }
  }

  /** Row 1 of D3h against rows 0 to 5. */
  lemma D3hRow1()
    ensures forall j :: 0 <= j < 6 ==> Inner(D3h().sizes, D3h().irreps[1].chars, D3h().irreps[j].chars) == if j == 1 then 12 else 0
  {
    D3hSizes();
    D3hChars1();
    forall j | 0 <= j < 6
      ensures Inner(D3h().sizes, D3h().irreps[1].chars, D3h().irreps[j].chars) == if j == 1 then 12 else 0
    {
      if j == 0 {
        D3hChars0();
        D3hPair0_1();
        InnerSym([1, 2, 3, 1, 2, 3], [1, 1, 1, 1, 1, 1], [1, 1, -1, 1, 1, -1]);
      } else if j == 1 {
        D3hChars1();
        D3hPair1_1();
      } else if j == 2 {
        D3hChars2();
        D3hPair1_2();
      } else if j == 3 {
        D3hChars3();
        D3hPair1_3();
      } else if j == 4 {
        D3hChars4();
        D3hPair1_4();
      } else if j == 5 {
        D3hChars5();
        D3hPair1_5();
      }
    }
  }

  /** Row 2 of D3h against rows 0 to 5. */
  lemma D3hRow2()
    ensures forall j :: 0 <= j < 6 ==> Inner(D3h().sizes, D3h().irreps[2].chars, D3h().irreps[j].chars) == if j == 2 then 12 else 0
  {
    D3hSizes();
    D3hChars2();
    forall j | 0 <= j < 6
      ensures Inner(D3h().sizes, D3h().irreps[2].chars, D3h().irreps[j].chars) == if j == 2 then 12 else 0
    {
      if j == 0 {
        D3hChars0();
        D3hPair0_2();
        InnerSym([1, 2, 3, 1, 2, 3], [1, 1, 1, 1, 1, 1], [2, -1, 0, 2, -1, 0]);
      } else if j == 1 {
        D3hChars1();
        D3hPair1_2();
        InnerSym([1, 2, 3, 1, 2, 3], [1, 1, -1, 1, 1, -1], [2, -1, 0, 2, -1, 0]);
      } else if j == 2 {
        D3hChars2();
        D3hPair2_2();
      } else if j == 3 {
        D3hChars3();
        D3hPair2_3();
      } else if j == 4 {
        D3hChars4();
        D3hPair2_4();
      } else if j == 5 {
        D3hChars5();
        D3hPair2_5();
      }
    }
  }

  /** Row 3 of D3h against rows 0 to 5. */
  lemma D3hRow3()
    ensures forall j :: 0 <= j < 6 ==> Inner(D3h().sizes, D3h().irreps[3].chars, D3h().irreps[j].chars) == if j == 3 then 12 else 0
  {
    D3hSizes();
    D3hChars3();
    forall j | 0 <= j < 6
      ensures Inner(D3h().sizes, D3h().irreps[3].chars, D3h().irreps[j].chars) == if j == 3 then 12 else 0
    {
      if j == 0 {
        D3hChars0();
        D3hPair0_3();
        InnerSym([1, 2, 3, 1, 2, 3], [1, 1, 1, 1, 1, 1], [1, 1, 1, -1, -1, -1]);
      } else if j == 1 {
        D3hChars1();
        D3hPair1_3();
        InnerSym([1, 2, 3, 1, 2, 3], [1, 1, -1, 1, 1, -1], [1, 1, 1, -1, -1, -1]);
      } else if j == 2 {
        D3hChars2();
        D3hPair2_3();
        InnerSym([1, 2, 3, 1, 2, 3], [2, -1, 0, 2, -1, 0], [1, 1, 1, -1, -1, -1]);
      } else if j == 3 {
        D3hChars3();
        D3hPair3_3();
      } else if j == 4 {
        D3hChars4();
        D3hPair3_4();
      } else if j == 5 {
        D3hChars5();
        D3hPair3_5();
      }
    }
  }

  /** Row 4 of D3h against rows 0 to 5. */
  lemma D3hRow4()
    ensures forall j :: 0 <= j < 6 ==> Inner(D3h().sizes, D3h().irreps[4].chars, D3h().irreps[j].chars) == if j == 4 then 12 else 0
  {
    D3hSizes();
    D3hChars4();
    forall j | 0 <= j < 6
      ensures Inner(D3h().sizes, D3h().irreps[4].chars, D3h().irreps[j].chars) == if j == 4 then 12 else 0
    {
      if j == 0 {
        D3hChars0();
        D3hPair0_4();
        InnerSym([1, 2, 3, 1, 2, 3], [1, 1, 1, 1, 1, 1], [1, 1, -1, -1, -1, 1]);
      } else if j == 1 {
        D3hChars1();
        D3hPair1_4();
        InnerSym([1, 2, 3, 1, 2, 3], [1, 1, -1, 1, 1, -1], [1, 1, -1, -1, -1, 1]);
      } else if j == 2 {
        D3hChars2();
        D3hPair2_4();
        InnerSym([1, 2, 3, 1, 2, 3], [2, -1, 0, 2, -1, 0], [1, 1, -1, -1, -1, 1]);
      } else if j == 3 {
        D3hChars3();
        D3hPair3_4();
        InnerSym([1, 2, 3, 1, 2, 3], [1, 1, 1, -1, -1, -1], [1, 1, -1, -1, -1, 1]);
      } else if j == 4 {
        D3hChars4();
        D3hPair4_4();
      } else if j == 5 {
        D3hChars5();
        D3hPair4_5();
      }
    }
  }

  /** Row 5 of D3h against rows 0 to 5. */
  lemma D3hRow5()
    ensures forall j :: 0 <= j < 6 ==> Inner(D3h().sizes, D3h().irreps[5].chars, D3h().irreps[j].chars) == if j == 5 then 12 else 0
  {
    D3hSizes();
    D3hChars5();
    forall j | 0 <= j < 6
      ensures Inner(D3h().sizes, D3h().irreps[5].chars, D3h().irreps[j].chars) == if j == 5 then 12 else 0
    {
      if j == 0 {
        D3hChars0();
        D3hPair0_5();
        InnerSym([1, 2, 3, 1, 2, 3], [1, 1, 1, 1, 1, 1], [2, -1, 0, -2, 1, 0]);
      } else if j == 1 {
        D3hChars1();
        D3hPair1_5();
        InnerSym([1, 2, 3, 1, 2, 3], [1, 1, -1, 1, 1, -1], [2, -1, 0, -2, 1, 0]);
      } else if j == 2 {
        D3hChars2();
        D3hPair2_5();
        InnerSym([1, 2, 3, 1, 2, 3], [2, -1, 0, 2, -1, 0], [2, -1, 0, -2, 1, 0]);
      } else if j == 3 {
        D3hChars3();
        D3hPair3_5();
        InnerSym([1, 2, 3, 1, 2, 3], [1, 1, 1, -1, -1, -1], [2, -1, 0, -2, 1, 0]);
      } else if j == 4 {
        D3hChars4();
        D3hPair4_5();
        InnerSym([1, 2, 3, 1, 2, 3], [1, 1, -1, -1, -1, 1], [2, -1, 0, -2, 1, 0]);
      } else if j == 5 {
        D3hChars5();
        D3hPair5_5();
      }
    }
  }

  lemma D3hPair0_0()
    ensures Inner([1, 2, 3, 1, 2, 3], [1, 1, 1, 1, 1, 1], [1, 1, 1, 1, 1, 1]) == 12
  {
  }

  lemma D3hPair0_1()
    ensures Inner([1, 2, 3, 1, 2, 3], [1, 1, 1, 1, 1, 1], [1, 1, -1, 1, 1, -1]) == 0
  {
  }

  lemma D3hPair0_2()
    ensures Inner([1, 2, 3, 1, 2, 3], [1, 1, 1, 1, 1, 1], [2, -1, 0, 2, -1, 0]) == 0
  {
  }

  lemma D3hPair0_3()
    ensures Inner([1, 2, 3, 1, 2, 3], [1, 1, 1, 1, 1, 1], [1, 1, 1, -1, -1, -1]) == 0
  {
  }

  lemma D3hPair0_4()
    ensures Inner([1, 2, 3, 1, 2, 3], [1, 1, 1, 1, 1, 1], [1, 1, -1, -1, -1, 1]) == 0
  {
  }

  lemma D3hPair0_5()
    ensures Inner([1, 2, 3, 1, 2, 3], [1, 1, 1, 1, 1, 1], [2, -1, 0, -2, 1, 0]) == 0
  {
  }

  lemma D3hPair1_1()
    ensures Inner([1, 2, 3, 1, 2, 3], [1, 1, -1, 1, 1, -1], [1, 1, -1, 1, 1, -1]) == 12
  {
  }

  lemma D3hPair1_2()
    ensures Inner([1, 2, 3, 1, 2, 3], [1, 1, -1, 1, 1, -1], [2, -1, 0, 2, -1, 0]) == 0
  {
  }

  lemma D3hPair1_3()
    ensures Inner([1, 2, 3, 1, 2, 3], [1, 1, -1, 1, 1, -1], [1, 1, 1, -1, -1, -1]) == 0
  {
  }

  lemma D3hPair1_4()
    ensures Inner([1, 2, 3, 1, 2, 3], [1, 1, -1, 1, 1, -1], [1, 1, -1, -1, -1, 1]) == 0
  {
  }

  lemma D3hPair1_5()
    ensures Inner([1, 2, 3, 1, 2, 3], [1, 1, -1, 1, 1, -1], [2, -1, 0, -2, 1, 0]) == 0
  {
  }

  lemma D3hPair2_2()
    ensures Inner([1, 2, 3, 1, 2, 3], [2, -1, 0, 2, -1, 0], [2, -1, 0, 2, -1, 0]) == 12
  {
  }

  lemma D3hPair2_3()
    ensures Inner([1, 2, 3, 1, 2, 3], [2, -1, 0, 2, -1, 0], [1, 1, 1, -1, -1, -1]) == 0
  {
  }

  lemma D3hPair2_4()
    ensures Inner([1, 2, 3, 1, 2, 3], [2, -1, 0, 2, -1, 0], [1, 1, -1, -1, -1, 1]) == 0
  {
  }

  lemma D3hPair2_5()
    ensures Inner([1, 2, 3, 1, 2, 3], [2, -1, 0, 2, -1, 0], [2, -1, 0, -2, 1, 0]) == 0
  {
  }

  lemma D3hPair3_3()
    ensures Inner([1, 2, 3, 1, 2, 3], [1, 1, 1, -1, -1, -1], [1, 1, 1, -1, -1, -1]) == 12
  {
  }

  lemma D3hPair3_4()
    ensures Inner([1, 2, 3, 1, 2, 3], [1, 1, 1, -1, -1, -1], [1, 1, -1, -1, -1, 1]) == 0
  {
  }

  lemma D3hPair3_5()
    ensures Inner([1, 2, 3, 1, 2, 3], [1, 1, 1, -1, -1, -1], [2, -1, 0, -2, 1, 0]) == 0
  {
  }

  lemma D3hPair4_4()
    ensures Inner([1, 2, 3, 1, 2, 3], [1, 1, -1, -1, -1, 1], [1, 1, -1, -1, -1, 1]) == 12
  {
  }

  lemma D3hPair4_5()
    ensures Inner([1, 2, 3, 1, 2, 3], [1, 1, -1, -1, -1, 1], [2, -1, 0, -2, 1, 0]) == 0
  {
  }

  lemma D3hPair5_5()
    ensures Inner([1, 2, 3, 1, 2, 3], [2, -1, 0, -2, 1, 0], [2, -1, 0, -2, 1, 0]) == 12
  {
  }

  // ---------------------------------------------------------------------------
  // D4h

  lemma D4hRegisteredOrthonormal()
    ensures Lookup("d4h") == Ok(D4h()) && Orthonormal(D4h())
  {
    D4hOrthonormal();
  }

  lemma D4hOrthonormal()
    ensures Orthonormal(D4h())
  {
    D4hWellFormed();
    D4hRows0();
    D4hRows1();
  }

  /** Rows 0 to 5 of D4h against every row. */
  lemma D4hRows0()
    ensures |D4h().irreps| == 10
    ensures forall i, j :: 0 <= i < 6 && 0 <= j < 10 ==>
      Inner(D4h().sizes, D4h().irreps[i].chars, D4h().irreps[j].chars) == if i == j then 16 else 0
  {
    D4hShape();
    forall i, j | 0 <= i < 6 && 0 <= j < 10
      ensures Inner(D4h().sizes, D4h().irreps[i].chars, D4h().irreps[j].chars) == if i == j then 16 else 0
    {
      if i == 0 {
        D4hRow0();
      } else if i == 1 {
        D4hRow1();
      } else if i == 2 {
        D4hRow2();
      } else if i == 3 {
        D4hRow3();
      } else if i == 4 {
        D4hRow4();
      } else if i == 5 {
        D4hRow5();
      }
    }
  }

  /** Rows 6 to 9 of D4h against every row. */
  lemma D4hRows1()
    ensures |D4h().irreps| == 10
    ensures forall i, j :: 6 <= i < 10 && 0 <= j < 10 ==>
      Inner(D4h().sizes, D4h().irreps[i].chars, D4h().irreps[j].chars) == if i == j then 16 else 0
  {
    D4hShape();
    forall i, j | 6 <= i < 10 && 0 <= j < 10
      ensures Inner(D4h().sizes, D4h().irreps[i].chars, D4h().irreps[j].chars) == if i == j then 16 else 0
    {
      if i == 6 {
        D4hRow6();
      } else if i == 7 {
        D4hRow7();
      } else if i == 8 {
        D4hRow8();
      } else if i == 9 {
        D4hRow9();
      }
    }
  }

  /** Row 0 of D4h against every row. */
  lemma D4hRow0()
    ensures forall j :: 0 <= j < 10 ==> Inner(D4h().sizes, D4h().irreps[0].chars, D4h().irreps[j].chars) == if j == 0 then 16 else 0
  {
    D4hRow0a();
    D4hRow0b();
  }

  /** Row 0 of D4h against rows 0 to 5. */
  lemma D4hRow0a()
    ensures forall j :: 0 <= j < 6 ==> Inner(D4h().sizes, D4h().irreps[0].chars, D4h().irreps[j].chars) == if j == 0 then 16 else 0
  {
    D4hSizes();
    D4hChars0();
    forall j | 0 <= j < 6
      ensures Inner(D4h().sizes, D4h().irreps[0].chars, D4h().irreps[j].chars) == if j == 0 then 16 else 0
    {
      if j == 0 {
        D4hChars0();
        D4hPair0_0();
      } else if j == 1 {
        D4hChars1();
        D4hPair0_1();
      } else if j == 2 {
        D4hChars2();
        D4hPair0_2();
      } else if j == 3 {
        D4hChars3();
        D4hPair0_3();
      } else if j == 4 {
        D4hChars4();
        D4hPair0_4();
      } else if j == 5 {
        D4hChars5();
        D4hPair0_5();
      }
    }
  }

  /** Row 0 of D4h against rows 6 to 9. */
  lemma D4hRow0b()
    ensures forall j :: 6 <= j < 10 ==> Inner(D4h().sizes, D4h().irreps[0].chars, D4h().irreps[j].chars) == if j == 0 then 16 else 0
  {
    D4hSizes();
    D4hChars0();
    forall j | 6 <= j < 10
      ensures Inner(D4h().sizes, D4h().irreps[0].chars, D4h().irreps[j].chars) == if j == 0 then 16 else 0
    {
      if j == 6 {
        D4hChars6();
        D4hPair0_6();
      } else if j == 7 {
        D4hChars7();
        D4hPair0_7();
      } else if j == 8 {
        D4hChars8();
        D4hPair0_8();
      } else if j == 9 {
        D4hChars9();
        D4hPair0_9();
      }
    }
  }

  /** Row 1 of D4h against every row. */
  lemma D4hRow1()
    ensures forall j :: 0 <= j < 10 ==> Inner(D4h().sizes, D4h().irreps[1].chars, D4h().irreps[j].chars) == if j == 1 then 16 else 0
  {
    D4hRow1a();
    D4hRow1b();
  }

  /** Row 1 of D4h against rows 0 to 5. */
  lemma D4hRow1a()
    ensures forall j :: 0 <= j < 6 ==> Inner(D4h().sizes, D4h().irreps[1].chars, D4h().irreps[j].chars) == if j == 1 then 16 else 0
  {
    D4hSizes();
    D4hChars1();
    forall j | 0 <= j < 6
      ensures Inner(D4h().sizes, D4h().irreps[1].chars, D4h().irreps[j].chars) == if j == 1 then 16 else 0
    {
      if j == 0 {
        D4hChars0();
        D4hPair0_1();
        InnerSym([1, 2, 1, 2, 2, 1, 2, 1, 2, 2], [1, 1, 1, 1, 1, 1, 1, 1, 1, 1], [1, 1, 1, -1, -1, 1, 1, 1, -1, -1]);
      } else if j == 1 {
        D4hChars1();
        D4hPair1_1();
      } else if j == 2 {
        D4hChars2();
        D4hPair1_2();
      } else if j == 3 {
        D4hChars3();
        D4hPair1_3();
      } else if j == 4 {
        D4hChars4();
        D4hPair1_4();
      } else if j == 5 {
        D4hChars5();
        D4hPair1_5();
      }
    }
  }

  /** Row 1 of D4h against rows 6 to 9. */
  lemma D4hRow1b()
    ensures forall j :: 6 <= j < 10 ==> Inner(D4h().sizes, D4h().irreps[1].chars, D4h().irreps[j].chars) == if j == 1 then 16 else 0
  {
    D4hSizes();
    D4hChars1();
    forall j | 6 <= j < 10
      ensures Inner(D4h().sizes, D4h().irreps[1].chars, D4h().irreps[j].chars) == if j == 1 then 16 else 0
    {
      if j == 6 {
        D4hChars6();
        D4hPair1_6();
      } else if j == 7 {
        D4hChars7();
        D4hPair1_7();
      } else if j == 8 {
        D4hChars8();
        D4hPair1_8();
      } else if j == 9 {
        D4hChars9();
        D4hPair1_9();
      }
    }
  }

  /** Row 2 of D4h against every row. */
  lemma D4hRow2()
    ensures forall j :: 0 <= j < 10 ==> Inner(D4h().sizes, D4h().irreps[2].chars, D4h().irreps[j].chars) == if j == 2 then 16 else 0
  {
    D4hRow2a();
    D4hRow2b();
  }

  /** Row 2 of D4h against rows 0 to 5. */
  lemma D4hRow2a()
    ensures forall j :: 0 <= j < 6 ==> Inner(D4h().sizes, D4h().irreps[2].chars, D4h().irreps[j].chars) == if j == 2 then 16 else 0
  {
    D4hSizes();
    D4hChars2();
    forall j | 0 <= j < 6
      ensures Inner(D4h().sizes, D4h().irreps[2].chars, D4h().irreps[j].chars) == if j == 2 then 16 else 0
    {
      if j == 0 {
        D4hChars0();
        D4hPair0_2();
        InnerSym([1, 2, 1, 2, 2, 1, 2, 1, 2, 2], [1, 1, 1, 1, 1, 1, 1, 1, 1, 1], [1, -1, 1, 1, -1, 1, -1, 1, 1, -1]);
      } else if j == 1 {
        D4hChars1();
        D4hPair1_2();
        InnerSym([1, 2, 1, 2, 2, 1, 2, 1, 2, 2], [1, 1, 1, -1, -1, 1, 1, 1, -1, -1], [1, -1, 1, 1, -1, 1, -1, 1, 1, -1]);
      } else if j == 2 {
        D4hChars2();
        D4hPair2_2();
      } else if j == 3 {
        D4hChars3();
        D4hPair2_3();
      } else if j == 4 {
        D4hChars4();
        D4hPair2_4();
      } else if j == 5 {
        D4hChars5();
        D4hPair2_5();
      }
    }
  }

  /** Row 2 of D4h against rows 6 to 9. */
  lemma D4hRow2b()
    ensures forall j :: 6 <= j < 10 ==> Inner(D4h().sizes, D4h().irreps[2].chars, D4h().irreps[j].chars) == if j == 2 then 16 else 0
  {
    D4hSizes();
    D4hChars2();
    forall j | 6 <= j < 10
      ensures Inner(D4h().sizes, D4h().irreps[2].chars, D4h().irreps[j].chars) == if j == 2 then 16 else 0
    {
      if j == 6 {
        D4hChars6();
        D4hPair2_6();
      } else if j == 7 {
        D4hChars7();
        D4hPair2_7();
      } else if j == 8 {
        D4hChars8();
        D4hPair2_8();
      } else if j == 9 {
        D4hChars9();
        D4hPair2_9();
      }
    }
  }

  /** Row 3 of D4h against every row. */
  lemma D4hRow3()
    ensures forall j :: 0 <= j < 10 ==> Inner(D4h().sizes, D4h().irreps[3].chars, D4h().irreps[j].chars) == if j == 3 then 16 else 0
  {
    D4hRow3a();
    D4hRow3b();
  }

  /** Row 3 of D4h against rows 0 to 5. */
  lemma D4hRow3a()
    ensures forall j :: 0 <= j < 6 ==> Inner(D4h().sizes, D4h().irreps[3].chars, D4h().irreps[j].chars) == if j == 3 then 16 else 0
  {
    D4hSizes();
    D4hChars3();
    forall j | 0 <= j < 6
      ensures Inner(D4h().sizes, D4h().irreps[3].chars, D4h().irreps[j].chars) == if j == 3 then 16 else 0
    {
      if j == 0 {
        D4hChars0();
        D4hPair0_3();
        InnerSym([1, 2, 1, 2, 2, 1, 2, 1, 2, 2], [1, 1, 1, 1, 1, 1, 1, 1, 1, 1], [1, -1, 1, -1, 1, 1, -1, 1, -1, 1]);
      } else if j == 1 {
        D4hChars1();
        D4hPair1_3();
        InnerSym([1, 2, 1, 2, 2, 1, 2, 1, 2, 2], [1, 1, 1, -1, -1, 1, 1, 1, -1, -1], [1, -1, 1, -1, 1, 1, -1, 1, -1, 1]);
      } else if j == 2 {
        D4hChars2();
        D4hPair2_3();
        InnerSym([1, 2, 1, 2, 2, 1, 2, 1, 2, 2], [1, -1, 1, 1, -1, 1, -1, 1, 1, -1], [1, -1, 1, -1, 1, 1, -1, 1, -1, 1]);
      } else if j == 3 {
        D4hChars3();
        D4hPair3_3();
      } else if j == 4 {
        D4hChars4();
        D4hPair3_4();
      } else if j == 5 {
        D4hChars5();
        D4hPair3_5();
      }
    }
  }

  /** Row 3 of D4h against rows 6 to 9. */
  lemma D4hRow3b()
    ensures forall j :: 6 <= j < 10 ==> Inner(D4h().sizes, D4h().irreps[3].chars, D4h().irreps[j].chars) == if j == 3 then 16 else 0
  {
    D4hSizes();
    D4hChars3();
    forall j | 6 <= j < 10
      ensures Inner(D4h().sizes, D4h().irreps[3].chars, D4h().irreps[j].chars) == if j == 3 then 16 else 0
    {
      if j == 6 {
        D4hChars6();
        D4hPair3_6();
      } else if j == 7 {
        D4hChars7();
        D4hPair3_7();
      } else if j == 8 {
        D4hChars8();
        D4hPair3_8();
      } else if j == 9 {
        D4hChars9();
        D4hPair3_9();
      }
    }
  }

  /** Row 4 of D4h against every row. */
  lemma D4hRow4()
    ensures forall j :: 0 <= j < 10 ==> Inner(D4h().sizes, D4h().irreps[4].chars, D4h().irreps[j].chars) == if j == 4 then 16 else 0
  {
    D4hRow4a();
    D4hRow4b();
  }

  /** Row 4 of D4h against rows 0 to 5. */
  lemma D4hRow4a()
    ensures forall j :: 0 <= j < 6 ==> Inner(D4h().sizes, D4h().irreps[4].chars, D4h().irreps[j].chars) == if j == 4 then 16 else 0
  {
    D4hSizes();
    D4hChars4();
    forall j | 0 <= j < 6
      ensures Inner(D4h().sizes, D4h().irreps[4].chars, D4h().irreps[j].chars) == if j == 4 then 16 else 0
    {
      if j == 0 {
        D4hChars0();
        D4hPair0_4();
        InnerSym([1, 2, 1, 2, 2, 1, 2, 1, 2, 2], [1, 1, 1, 1, 1, 1, 1, 1, 1, 1], [2, 0, -2, 0, 0, 2, 0, -2, 0, 0]);
      } else if j == 1 {
        D4hChars1();
        D4hPair1_4();
        InnerSym([1, 2, 1, 2, 2, 1, 2, 1, 2, 2], [1, 1, 1, -1, -1, 1, 1, 1, -1, -1], [2, 0, -2, 0, 0, 2, 0, -2, 0, 0]);
      } else if j == 2 {
        D4hChars2();
        D4hPair2_4();
        InnerSym([1, 2, 1, 2, 2, 1, 2, 1, 2, 2], [1, -1, 1, 1, -1, 1, -1, 1, 1, -1], [2, 0, -2, 0, 0, 2, 0, -2, 0, 0]);
      } else if j == 3 {
        D4hChars3();
        D4hPair3_4();
        InnerSym([1, 2, 1, 2, 2, 1, 2, 1, 2, 2], [1, -1, 1, -1, 1, 1, -1, 1, -1, 1], [2, 0, -2, 0, 0, 2, 0, -2, 0, 0]);
      } else if j == 4 {
        D4hChars4();
        D4hPair4_4();
      } else if j == 5 {
        D4hChars5();
        D4hPair4_5();
      }
    }
  }

  /** Row 4 of D4h against rows 6 to 9. */
  lemma D4hRow4b()
    ensures forall j :: 6 <= j < 10 ==> Inner(D4h().sizes, D4h().irreps[4].chars, D4h().irreps[j].chars) == if j == 4 then 16 else 0
  {
    D4hSizes();
    D4hChars4();
    forall j | 6 <= j < 10
      ensures Inner(D4h().sizes, D4h().irreps[4].chars, D4h().irreps[j].chars) == if j == 4 then 16 else 0
    {
      if j == 6 {
        D4hChars6();
        D4hPair4_6();
      } else if j == 7 {
        D4hChars7();
        D4hPair4_7();
      } else if j == 8 {
        D4hChars8();
        D4hPair4_8();
      } else if j == 9 {
        D4hChars9();
        D4hPair4_9();
      }
    }
  }

  /** Row 5 of D4h against every row. */
  lemma D4hRow5()
    ensures forall j :: 0 <= j < 10 ==> Inner(D4h().sizes, D4h().irreps[5].chars, D4h().irreps[j].chars) == if j == 5 then 16 else 0
  {
    D4hRow5a();
    D4hRow5b();
  }

  /** Row 5 of D4h against rows 0 to 5. */
  lemma D4hRow5a()
    ensures forall j :: 0 <= j < 6 ==> Inner(D4h().sizes, D4h().irreps[5].chars, D4h().irreps[j].chars) == if j == 5 then 16 else 0
  {
    D4hSizes();
    D4hChars5();
    forall j | 0 <= j < 6
      ensures Inner(D4h().sizes, D4h().irreps[5].chars, D4h().irreps[j].chars) == if j == 5 then 16 else 0
    {
      if j == 0 {
        D4hChars0();
        D4hPair0_5();
        InnerSym([1, 2, 1, 2, 2, 1, 2, 1, 2, 2], [1, 1, 1, 1, 1, 1, 1, 1, 1, 1], [1, 1, 1, 1, 1, -1, -1, -1, -1, -1]);
      } else if j == 1 {
        D4hChars1();
        D4hPair1_5();
        InnerSym([1, 2, 1, 2, 2, 1, 2, 1, 2, 2], [1, 1, 1, -1, -1, 1, 1, 1, -1, -1], [1, 1, 1, 1, 1, -1, -1, -1, -1, -1]);
      } else if j == 2 {
        D4hChars2();
        D4hPair2_5();
        InnerSym([1, 2, 1, 2, 2, 1, 2, 1, 2, 2], [1, -1, 1, 1, -1, 1, -1, 1, 1, -1], [1, 1, 1, 1, 1, -1, -1, -1, -1, -1]);
      } else if j == 3 {
        D4hChars3();
        D4hPair3_5();
        InnerSym([1, 2, 1, 2, 2, 1, 2, 1, 2, 2], [1, -1, 1, -1, 1, 1, -1, 1, -1, 1], [1, 1, 1, 1, 1, -1, -1, -1, -1, -1]);
      } else if j == 4 {
        D4hChars4();
        D4hPair4_5();
        InnerSym([1, 2, 1, 2, 2, 1, 2, 1, 2, 2], [2, 0, -2, 0, 0, 2, 0, -2, 0, 0], [1, 1, 1, 1, 1, -1, -1, -1, -1, -1]);
      } else if j == 5 {
        D4hChars5();
        D4hPair5_5();
      }
    }
  }

  /** Row 5 of D4h against rows 6 to 9. */
  lemma D4hRow5b()
    ensures forall j :: 6 <= j < 10 ==> Inner(D4h().sizes, D4h().irreps[5].chars, D4h().irreps[j].chars) == if j == 5 then 16 else 0
  {
    D4hSizes();
    D4hChars5();
    forall j | 6 <= j < 10
      ensures Inner(D4h().sizes, D4h().irreps[5].chars, D4h().irreps[j].chars) == if j == 5 then 16 else 0
    {
      if j == 6 {
        D4hChars6();
        D4hPair5_6();
      } else if j == 7 {
        D4hChars7();
        D4hPair5_7();
      } else if j == 8 {
        D4hChars8();
        D4hPair5_8();
      } else if j == 9 {
        D4hChars9();
        D4hPair5_9();
      }
    }
  }

  /** Row 6 of D4h against every row. */
  lemma D4hRow6()
    ensures forall j :: 0 <= j < 10 ==> Inner(D4h().sizes, D4h().irreps[6].chars, D4h().irreps[j].chars) == if j == 6 then 16 else 0
  {
    D4hRow6a();
    D4hRow6b();
  }

  /** Row 6 of D4h against rows 0 to 5. */
  lemma D4hRow6a()
    ensures forall j :: 0 <= j < 6 ==> Inner(D4h().sizes, D4h().irreps[6].chars, D4h().irreps[j].chars) == if j == 6 then 16 else 0
  {
    D4hSizes();
    D4hChars6();
    forall j | 0 <= j < 6
      ensures Inner(D4h().sizes, D4h().irreps[6].chars, D4h().irreps[j].chars) == if j == 6 then 16 else 0
    {
      if j == 0 {
        D4hChars0();
        D4hPair0_6();
        InnerSym([1, 2, 1, 2, 2, 1, 2, 1, 2, 2], [1, 1, 1, 1, 1, 1, 1, 1, 1, 1], [1, 1, 1, -1, -1, -1, -1, -1, 1, 1]);
      } else if j == 1 {
        D4hChars1();
        D4hPair1_6();
        InnerSym([1, 2, 1, 2, 2, 1, 2, 1, 2, 2], [1, 1, 1, -1, -1, 1, 1, 1, -1, -1], [1, 1, 1, -1, -1, -1, -1, -1, 1, 1]);
      } else if j == 2 {
        D4hChars2();
        D4hPair2_6();
        InnerSym([1, 2, 1, 2, 2, 1, 2, 1, 2, 2], [1, -1, 1, 1, -1, 1, -1, 1, 1, -1], [1, 1, 1, -1, -1, -1, -1, -1, 1, 1]);
      } else if j == 3 {
        D4hChars3();
        D4hPair3_6();
        InnerSym([1, 2, 1, 2, 2, 1, 2, 1, 2, 2], [1, -1, 1, -1, 1, 1, -1, 1, -1, 1], [1, 1, 1, -1, -1, -1, -1, -1, 1, 1]);
      } else if j == 4 {
        D4hChars4();
        D4hPair4_6();
        InnerSym([1, 2, 1, 2, 2, 1, 2, 1, 2, 2], [2, 0, -2, 0, 0, 2, 0, -2, 0, 0], [1, 1, 1, -1, -1, -1, -1, -1, 1, 1]);
      } else if j == 5 {
        D4hChars5();
        D4hPair5_6();
        InnerSym([1, 2, 1, 2, 2, 1, 2, 1, 2, 2], [1, 1, 1, 1, 1, -1, -1, -1, -1, -1], [1, 1, 1, -1, -1, -1, -1, -1, 1, 1]);
      }
    }
  }

  /** Row 6 of D4h against rows 6 to 9. */
  lemma D4hRow6b()
    ensures forall j :: 6 <= j < 10 ==> Inner(D4h().sizes, D4h().irreps[6].chars, D4h().irreps[j].chars) == if j == 6 then 16 else 0
  {
    D4hSizes();
    D4hChars6();
    forall j | 6 <= j < 10
      ensures Inner(D4h().sizes, D4h().irreps[6].chars, D4h().irreps[j].chars) == if j == 6 then 16 else 0
    {
      if j == 6 {
        D4hChars6();
        D4hPair6_6();
      } else if j == 7 {
        D4hChars7();
        D4hPair6_7();
      } else if j == 8 {
        D4hChars8();
        D4hPair6_8();
      } else if j == 9 {
        D4hChars9();
        D4hPair6_9();
      }
    }
  }

  /** Row 7 of D4h against every row. */
  lemma D4hRow7()
    ensures forall j :: 0 <= j < 10 ==> Inner(D4h().sizes, D4h().irreps[7].chars, D4h().irreps[j].chars) == if j == 7 then 16 else 0
  {
    D4hRow7a();
    D4hRow7b();
  }

  /** Row 7 of D4h against rows 0 to 5. */
  lemma D4hRow7a()
    ensures forall j :: 0 <= j < 6 ==> Inner(D4h().sizes, D4h().irreps[7].chars, D4h().irreps[j].chars) == if j == 7 then 16 else 0
  {
    D4hSizes();
    D4hChars7();
    forall j | 0 <= j < 6
      ensures Inner(D4h().sizes, D4h().irreps[7].chars, D4h().irreps[j].chars) == if j == 7 then 16 else 0
    {
      if j == 0 {
        D4hChars0();
        D4hPair0_7();
        InnerSym([1, 2, 1, 2, 2, 1, 2, 1, 2, 2], [1, 1, 1, 1, 1, 1, 1, 1, 1, 1], [1, -1, 1, 1, -1, -1, 1, -1, -1, 1]);
      } else if j == 1 {
        D4hChars1();
        D4hPair1_7();
        InnerSym([1, 2, 1, 2, 2, 1, 2, 1, 2, 2], [1, 1, 1, -1, -1, 1, 1, 1, -1, -1], [1, -1, 1, 1, -1, -1, 1, -1, -1, 1]);
      } else if j == 2 {
        D4hChars2();
        D4hPair2_7();
        InnerSym([1, 2, 1, 2, 2, 1, 2, 1, 2, 2], [1, -1, 1, 1, -1, 1, -1, 1, 1, -1], [1, -1, 1, 1, -1, -1, 1, -1, -1, 1]);
      } else if j == 3 {
        D4hChars3();
        D4hPair3_7();
        InnerSym([1, 2, 1, 2, 2, 1, 2, 1, 2, 2], [1, -1, 1, -1, 1, 1, -1, 1, -1, 1], [1, -1, 1, 1, -1, -1, 1, -1, -1, 1]);
      } else if j == 4 {
        D4hChars4();
        D4hPair4_7();
        InnerSym([1, 2, 1, 2, 2, 1, 2, 1, 2, 2], [2, 0, -2, 0, 0, 2, 0, -2, 0, 0], [1, -1, 1, 1, -1, -1, 1, -1, -1, 1]);
      } else if j == 5 {
        D4hChars5();
        D4hPair5_7();
        InnerSym([1, 2, 1, 2, 2, 1, 2, 1, 2, 2], [1, 1, 1, 1, 1, -1, -1, -1, -1, -1], [1, -1, 1, 1, -1, -1, 1, -1, -1, 1]);
      }
    }
  }

  /** Row 7 of D4h against rows 6 to 9. */
  lemma D4hRow7b()
    ensures forall j :: 6 <= j < 10 ==> Inner(D4h().sizes, D4h().irreps[7].chars, D4h().irreps[j].chars) == if j == 7 then 16 else 0
  {
    D4hSizes();
    D4hChars7();
    forall j | 6 <= j < 10
      ensures Inner(D4h().sizes, D4h().irreps[7].chars, D4h().irreps[j].chars) == if j == 7 then 16 else 0
    {
      if j == 6 {
        D4hChars6();
        D4hPair6_7();
        InnerSym([1, 2, 1, 2, 2, 1, 2, 1, 2, 2], [1, 1, 1, -1, -1, -1, -1, -1, 1, 1], [1, -1, 1, 1, -1, -1, 1, -1, -1, 1]);
      } else if j == 7 {
        D4hChars7();
        D4hPair7_7();
      } else if j == 8 {
        D4hChars8();
        D4hPair7_8();
      } else if j == 9 {
        D4hChars9();
        D4hPair7_9();
      }
    }
  }

  /** Row 8 of D4h against every row. */
  lemma D4hRow8()
    ensures forall j :: 0 <= j < 10 ==> Inner(D4h().sizes, D4h().irreps[8].chars, D4h().irreps[j].chars) == if j == 8 then 16 else 0
  {
    D4hRow8a();
    D4hRow8b();
  }

  /** Row 8 of D4h against rows 0 to 5. */
  lemma D4hRow8a()
    ensures forall j :: 0 <= j < 6 ==> Inner(D4h().sizes, D4h().irreps[8].chars, D4h().irreps[j].chars) == if j == 8 then 16 else 0
  {
    D4hSizes();
    D4hChars8();
    forall j | 0 <= j < 6
      ensures Inner(D4h().sizes, D4h().irreps[8].chars, D4h().irreps[j].chars) == if j == 8 then 16 else 0
    {
      if j == 0 {
        D4hChars0();
        D4hPair0_8();
        InnerSym([1, 2, 1, 2, 2, 1, 2, 1, 2, 2], [1, 1, 1, 1, 1, 1, 1, 1, 1, 1], [1, -1, 1, -1, 1, -1, 1, -1, 1, -1]);
      } else if j == 1 {
        D4hChars1();
        D4hPair1_8();
        InnerSym([1, 2, 1, 2, 2, 1, 2, 1, 2, 2], [1, 1, 1, -1, -1, 1, 1, 1, -1, -1], [1, -1, 1, -1, 1, -1, 1, -1, 1, -1]);
      } else if j == 2 {
        D4hChars2();
        D4hPair2_8();
        InnerSym([1, 2, 1, 2, 2, 1, 2, 1, 2, 2], [1, -1, 1, 1, -1, 1, -1, 1, 1, -1], [1, -1, 1, -1, 1, -1, 1, -1, 1, -1]);
      } else if j == 3 {
        D4hChars3();
        D4hPair3_8();
        InnerSym([1, 2, 1, 2, 2, 1, 2, 1, 2, 2], [1, -1, 1, -1, 1, 1, -1, 1, -1, 1], [1, -1, 1, -1, 1, -1, 1, -1, 1, -1]);
      } else if j == 4 {
        D4hChars4();
        D4hPair4_8();
        InnerSym([1, 2, 1, 2, 2, 1, 2, 1, 2, 2], [2, 0, -2, 0, 0, 2, 0, -2, 0, 0], [1, -1, 1, -1, 1, -1, 1, -1, 1, -1]);
      } else if j == 5 {
        D4hChars5();
        D4hPair5_8();
        InnerSym([1, 2, 1, 2, 2, 1, 2, 1, 2, 2], [1, 1, 1, 1, 1, -1, -1, -1, -1, -1], [1, -1, 1, -1, 1, -1, 1, -1, 1, -1]);
      }
    }
  }

  /** Row 8 of D4h against rows 6 to 9. */
  lemma D4hRow8b()
    ensures forall j :: 6 <= j < 10 ==> Inner(D4h().sizes, D4h().irreps[8].chars, D4h().irreps[j].chars) == if j == 8 then 16 else 0
  {
    D4hSizes();
    D4hChars8();
    forall j | 6 <= j < 10
      ensures Inner(D4h().sizes, D4h().irreps[8].chars, D4h().irreps[j].chars) == if j == 8 then 16 else 0
    {
      if j == 6 {
        D4hChars6();
        D4hPair6_8();
        InnerSym([1, 2, 1, 2, 2, 1, 2, 1, 2, 2], [1, 1, 1, -1, -1, -1, -1, -1, 1, 1], [1, -1, 1, -1, 1, -1, 1, -1, 1, -1]);
      } else if j == 7 {
        D4hChars7();
        D4hPair7_8();
        InnerSym([1, 2, 1, 2, 2, 1, 2, 1, 2, 2], [1, -1, 1, 1, -1, -1, 1, -1, -1, 1], [1, -1, 1, -1, 1, -1, 1, -1, 1, -1]);
      } else if j == 8 {
        D4hChars8();
        D4hPair8_8();
      } else if j == 9 {
        D4hChars9();
        D4hPair8_9();
      }
    }
  }

  /** Row 9 of D4h against every row. */
  lemma D4hRow9()
    ensures forall j :: 0 <= j < 10 ==> Inner(D4h().sizes, D4h().irreps[9].chars, D4h().irreps[j].chars) == if j == 9 then 16 else 0
  {
    D4hRow9a();
    D4hRow9b();
  }

  /** Row 9 of D4h against rows 0 to 5. */
  lemma D4hRow9a()
    ensures forall j :: 0 <= j < 6 ==> Inner(D4h().sizes, D4h().irreps[9].chars, D4h().irreps[j].chars) == if j == 9 then 16 else 0
  {
    D4hSizes();
    D4hChars9();
    forall j | 0 <= j < 6
      ensures Inner(D4h().sizes, D4h().irreps[9].chars, D4h().irreps[j].chars) == if j == 9 then 16 else 0
    {
      if j == 0 {
        D4hChars0();
        D4hPair0_9();
        InnerSym([1, 2, 1, 2, 2, 1, 2, 1, 2, 2], [1, 1, 1, 1, 1, 1, 1, 1, 1, 1], [2, 0, -2, 0, 0, -2, 0, 2, 0, 0]);
      } else if j == 1 {
        D4hChars1();
        D4hPair1_9();
        InnerSym([1, 2, 1, 2, 2, 1, 2, 1, 2, 2], [1, 1, 1, -1, -1, 1, 1, 1, -1, -1], [2, 0, -2, 0, 0, -2, 0, 2, 0, 0]);
      } else if j == 2 {
        D4hChars2();
        D4hPair2_9();
        InnerSym([1, 2, 1, 2, 2, 1, 2, 1, 2, 2], [1, -1, 1, 1, -1, 1, -1, 1, 1, -1], [2, 0, -2, 0, 0, -2, 0, 2, 0, 0]);
      } else if j == 3 {
        D4hChars3();
        D4hPair3_9();
        InnerSym([1, 2, 1, 2, 2, 1, 2, 1, 2, 2], [1, -1, 1, -1, 1, 1, -1, 1, -1, 1], [2, 0, -2, 0, 0, -2, 0, 2, 0, 0]);
      } else if j == 4 {
        D4hChars4();
        D4hPair4_9();
        InnerSym([1, 2, 1, 2, 2, 1, 2, 1, 2, 2], [2, 0, -2, 0, 0, 2, 0, -2, 0, 0], [2, 0, -2, 0, 0, -2, 0, 2, 0, 0]);
      } else if j == 5 {
        D4hChars5();
        D4hPair5_9();
        InnerSym([1, 2, 1, 2, 2, 1, 2, 1, 2, 2], [1, 1, 1, 1, 1, -1, -1, -1, -1, -1], [2, 0, -2, 0, 0, -2, 0, 2, 0, 0]);
      }
    }
  }

  /** Row 9 of D4h against rows 6 to 9. */
  lemma D4hRow9b()
    ensures forall j :: 6 <= j < 10 ==> Inner(D4h().sizes, D4h().irreps[9].chars, D4h().irreps[j].chars) == if j == 9 then 16 else 0
  {
    D4hSizes();
    D4hChars9();
    forall j | 6 <= j < 10
      ensures Inner(D4h().sizes, D4h().irreps[9].chars, D4h().irreps[j].chars) == if j == 9 then 16 else 0
    {
      if j == 6 {
        D4hChars6();
        D4hPair6_9();
        InnerSym([1, 2, 1, 2, 2, 1, 2, 1, 2, 2], [1, 1, 1, -1, -1, -1, -1, -1, 1, 1], [2, 0, -2, 0, 0, -2, 0, 2, 0, 0]);
      } else if j == 7 {
        D4hChars7();
        D4hPair7_9();
        InnerSym([1, 2, 1, 2, 2, 1, 2, 1, 2, 2], [1, -1, 1, 1, -1, -1, 1, -1, -1, 1], [2, 0, -2, 0, 0, -2, 0, 2, 0, 0]);
      } else if j == 8 {
        D4hChars8();
        D4hPair8_9();
        InnerSym([1, 2, 1, 2, 2, 1, 2, 1, 2, 2], [1, -1, 1, -1, 1, -1, 1, -1, 1, -1], [2, 0, -2, 0, 0, -2, 0, 2, 0, 0]);
      } else if j == 9 {
        D4hChars9();
        D4hPair9_9();
      }
    }
  }

  lemma D4hPair0_0()
    ensures Inner([1, 2, 1, 2, 2, 1, 2, 1, 2, 2], [1, 1, 1, 1, 1, 1, 1, 1, 1, 1], [1, 1, 1, 1, 1, 1, 1, 1, 1, 1]) == 16
  {
  }

  lemma D4hPair0_1()
    ensures Inner([1, 2, 1, 2, 2, 1, 2, 1, 2, 2], [1, 1, 1, 1, 1, 1, 1, 1, 1, 1], [1, 1, 1, -1, -1, 1, 1, 1, -1, -1]) == 0
  {
  }

  lemma D4hPair0_2()
    ensures Inner([1, 2, 1, 2, 2, 1, 2, 1, 2, 2], [1, 1, 1, 1, 1, 1, 1, 1, 1, 1], [1, -1, 1, 1, -1, 1, -1, 1, 1, -1]) == 0
  {
  }

  lemma D4hPair0_3()
    ensures Inner([1, 2, 1, 2, 2, 1, 2, 1, 2, 2], [1, 1, 1, 1, 1, 1, 1, 1, 1, 1], [1, -1, 1, -1, 1, 1, -1, 1, -1, 1]) == 0
  {
  }

  lemma D4hPair0_4()
    ensures Inner([1, 2, 1, 2, 2, 1, 2, 1, 2, 2], [1, 1, 1, 1, 1, 1, 1, 1, 1, 1], [2, 0, -2, 0, 0, 2, 0, -2, 0, 0]) == 0
  {
  }

  lemma D4hPair0_5()
    ensures Inner([1, 2, 1, 2, 2, 1, 2, 1, 2, 2], [1, 1, 1, 1, 1, 1, 1, 1, 1, 1], [1, 1, 1, 1, 1, -1, -1, -1, -1, -1]) == 0
  {
  }

  lemma D4hPair0_6()
    ensures Inner([1, 2, 1, 2, 2, 1, 2, 1, 2, 2], [1, 1, 1, 1, 1, 1, 1, 1, 1, 1], [1, 1, 1, -1, -1, -1, -1, -1, 1, 1]) == 0
  {
  }

  lemma D4hPair0_7()
    ensures Inner([1, 2, 1, 2, 2, 1, 2, 1, 2, 2], [1, 1, 1, 1, 1, 1, 1, 1, 1, 1], [1, -1, 1, 1, -1, -1, 1, -1, -1, 1]) == 0
  {
  }

  lemma D4hPair0_8()
    ensures Inner([1, 2, 1, 2, 2, 1, 2, 1, 2, 2], [1, 1, 1, 1, 1, 1, 1, 1, 1, 1], [1, -1, 1, -1, 1, -1, 1, -1, 1, -1]) == 0
  {
  }

  lemma D4hPair0_9()
    ensures Inner([1, 2, 1, 2, 2, 1, 2, 1, 2, 2], [1, 1, 1, 1, 1, 1, 1, 1, 1, 1], [2, 0, -2, 0, 0, -2, 0, 2, 0, 0]) == 0
  {
  }

  lemma D4hPair1_1()
    ensures Inner([1, 2, 1, 2, 2, 1, 2, 1, 2, 2], [1, 1, 1, -1, -1, 1, 1, 1, -1, -1], [1, 1, 1, -1, -1, 1, 1, 1, -1, -1]) == 16
  {
  }

  lemma D4hPair1_2()
    ensures Inner([1, 2, 1, 2, 2, 1, 2, 1, 2, 2], [1, 1, 1, -1, -1, 1, 1, 1, -1, -1], [1, -1, 1, 1, -1, 1, -1, 1, 1, -1]) == 0
  {
  }

  lemma D4hPair1_3()
    ensures Inner([1, 2, 1, 2, 2, 1, 2, 1, 2, 2], [1, 1, 1, -1, -1, 1, 1, 1, -1, -1], [1, -1, 1, -1, 1, 1, -1, 1, -1, 1]) == 0
  {
  }

  lemma D4hPair1_4()
    ensures Inner([1, 2, 1, 2, 2, 1, 2, 1, 2, 2], [1, 1, 1, -1, -1, 1, 1, 1, -1, -1], [2, 0, -2, 0, 0, 2, 0, -2, 0, 0]) == 0
  {
  }

  lemma D4hPair1_5()
    ensures Inner([1, 2, 1, 2, 2, 1, 2, 1, 2, 2], [1, 1, 1, -1, -1, 1, 1, 1, -1, -1], [1, 1, 1, 1, 1, -1, -1, -1, -1, -1]) == 0
  {
  }

  lemma D4hPair1_6()
    ensures Inner([1, 2, 1, 2, 2, 1, 2, 1, 2, 2], [1, 1, 1, -1, -1, 1, 1, 1, -1, -1], [1, 1, 1, -1, -1, -1, -1, -1, 1, 1]) == 0
  {
  }

  lemma D4hPair1_7()
    ensures Inner([1, 2, 1, 2, 2, 1, 2, 1, 2, 2], [1, 1, 1, -1, -1, 1, 1, 1, -1, -1], [1, -1, 1, 1, -1, -1, 1, -1, -1, 1]) == 0
  {
  }

  lemma D4hPair1_8()
    ensures Inner([1, 2, 1, 2, 2, 1, 2, 1, 2, 2], [1, 1, 1, -1, -1, 1, 1, 1, -1, -1], [1, -1, 1, -1, 1, -1, 1, -1, 1, -1]) == 0
  {
  }

  lemma D4hPair1_9()
    ensures Inner([1, 2, 1, 2, 2, 1, 2, 1, 2, 2], [1, 1, 1, -1, -1, 1, 1, 1, -1, -1], [2, 0, -2, 0, 0, -2, 0, 2, 0, 0]) == 0
  {
  }

  lemma D4hPair2_2()
    ensures Inner([1, 2, 1, 2, 2, 1, 2, 1, 2, 2], [1, -1, 1, 1, -1, 1, -1, 1, 1, -1], [1, -1, 1, 1, -1, 1, -1, 1, 1, -1]) == 16
  {
  }

  lemma D4hPair2_3()
    ensures Inner([1, 2, 1, 2, 2, 1, 2, 1, 2, 2], [1, -1, 1, 1, -1, 1, -1, 1, 1, -1], [1, -1, 1, -1, 1, 1, -1, 1, -1, 1]) == 0
  {
  }

  lemma D4hPair2_4()
    ensures Inner([1, 2, 1, 2, 2, 1, 2, 1, 2, 2], [1, -1, 1, 1, -1, 1, -1, 1, 1, -1], [2, 0, -2, 0, 0, 2, 0, -2, 0, 0]) == 0
  {
  }

  lemma D4hPair2_5()
    ensures Inner([1, 2, 1, 2, 2, 1, 2, 1, 2, 2], [1, -1, 1, 1, -1, 1, -1, 1, 1, -1], [1, 1, 1, 1, 1, -1, -1, -1, -1, -1]) == 0
  {
  }

  lemma D4hPair2_6()
    ensures Inner([1, 2, 1, 2, 2, 1, 2, 1, 2, 2], [1, -1, 1, 1, -1, 1, -1, 1, 1, -1], [1, 1, 1, -1, -1, -1, -1, -1, 1, 1]) == 0
  {
  }

  lemma D4hPair2_7()
    ensures Inner([1, 2, 1, 2, 2, 1, 2, 1, 2, 2], [1, -1, 1, 1, -1, 1, -1, 1, 1, -1], [1, -1, 1, 1, -1, -1, 1, -1, -1, 1]) == 0
  {
  }

  lemma D4hPair2_8()
    ensures Inner([1, 2, 1, 2, 2, 1, 2, 1, 2, 2], [1, -1, 1, 1, -1, 1, -1, 1, 1, -1], [1, -1, 1, -1, 1, -1, 1, -1, 1, -1]) == 0
  {
  }

  lemma D4hPair2_9()
    ensures Inner([1, 2, 1, 2, 2, 1, 2, 1, 2, 2], [1, -1, 1, 1, -1, 1, -1, 1, 1, -1], [2, 0, -2, 0, 0, -2, 0, 2, 0, 0]) == 0
  {
  }

  lemma D4hPair3_3()
    ensures Inner([1, 2, 1, 2, 2, 1, 2, 1, 2, 2], [1, -1, 1, -1, 1, 1, -1, 1, -1, 1], [1, -1, 1, -1, 1, 1, -1, 1, -1, 1]) == 16
  {
  }

  lemma D4hPair3_4()
    ensures Inner([1, 2, 1, 2, 2, 1, 2, 1, 2, 2], [1, -1, 1, -1, 1, 1, -1, 1, -1, 1], [2, 0, -2, 0, 0, 2, 0, -2, 0, 0]) == 0
  {
  }

  lemma D4hPair3_5()
    ensures Inner([1, 2, 1, 2, 2, 1, 2, 1, 2, 2], [1, -1, 1, -1, 1, 1, -1, 1, -1, 1], [1, 1, 1, 1, 1, -1, -1, -1, -1, -1]) == 0
  {
  }

  lemma D4hPair3_6()
    ensures Inner([1, 2, 1, 2, 2, 1, 2, 1, 2, 2], [1, -1, 1, -1, 1, 1, -1, 1, -1, 1], [1, 1, 1, -1, -1, -1, -1, -1, 1, 1]) == 0
  {
  }

  lemma D4hPair3_7()
    ensures Inner([1, 2, 1, 2, 2, 1, 2, 1, 2, 2], [1, -1, 1, -1, 1, 1, -1, 1, -1, 1], [1, -1, 1, 1, -1, -1, 1, -1, -1, 1]) == 0
  {
  }

  lemma D4hPair3_8()
    ensures Inner([1, 2, 1, 2, 2, 1, 2, 1, 2, 2], [1, -1, 1, -1, 1, 1, -1, 1, -1, 1], [1, -1, 1, -1, 1, -1, 1, -1, 1, -1]) == 0
  {
  }

  lemma D4hPair3_9()
    ensures Inner([1, 2, 1, 2, 2, 1, 2, 1, 2, 2], [1, -1, 1, -1, 1, 1, -1, 1, -1, 1], [2, 0, -2, 0, 0, -2, 0, 2, 0, 0]) == 0
  {
  }

  lemma D4hPair4_4()
    ensures Inner([1, 2, 1, 2, 2, 1, 2, 1, 2, 2], [2, 0, -2, 0, 0, 2, 0, -2, 0, 0], [2, 0, -2, 0, 0, 2, 0, -2, 0, 0]) == 16
  {
  }

  lemma D4hPair4_5()
    ensures Inner([1, 2, 1, 2, 2, 1, 2, 1, 2, 2], [2, 0, -2, 0, 0, 2, 0, -2, 0, 0], [1, 1, 1, 1, 1, -1, -1, -1, -1, -1]) == 0
  {
  }

  lemma D4hPair4_6()
    ensures Inner([1, 2, 1, 2, 2, 1, 2, 1, 2, 2], [2, 0, -2, 0, 0, 2, 0, -2, 0, 0], [1, 1, 1, -1, -1, -1, -1, -1, 1, 1]) == 0
  {
  }

  lemma D4hPair4_7()
    ensures Inner([1, 2, 1, 2, 2, 1, 2, 1, 2, 2], [2, 0, -2, 0, 0, 2, 0, -2, 0, 0], [1, -1, 1, 1, -1, -1, 1, -1, -1, 1]) == 0
  {
  }

  lemma D4hPair4_8()
    ensures Inner([1, 2, 1, 2, 2, 1, 2, 1, 2, 2], [2, 0, -2, 0, 0, 2, 0, -2, 0, 0], [1, -1, 1, -1, 1, -1, 1, -1, 1, -1]) == 0
  {
  }

  lemma D4hPair4_9()
    ensures Inner([1, 2, 1, 2, 2, 1, 2, 1, 2, 2], [2, 0, -2, 0, 0, 2, 0, -2, 0, 0], [2, 0, -2, 0, 0, -2, 0, 2, 0, 0]) == 0
  {
  }

  lemma D4hPair5_5()
    ensures Inner([1, 2, 1, 2, 2, 1, 2, 1, 2, 2], [1, 1, 1, 1, 1, -1, -1, -1, -1, -1], [1, 1, 1, 1, 1, -1, -1, -1, -1, -1]) == 16
  {
  }

  lemma D4hPair5_6()
    ensures Inner([1, 2, 1, 2, 2, 1, 2, 1, 2, 2], [1, 1, 1, 1, 1, -1, -1, -1, -1, -1], [1, 1, 1, -1, -1, -1, -1, -1, 1, 1]) == 0
  {
  }

  lemma D4hPair5_7()
    ensures Inner([1, 2, 1, 2, 2, 1, 2, 1, 2, 2], [1, 1, 1, 1, 1, -1, -1, -1, -1, -1], [1, -1, 1, 1, -1, -1, 1, -1, -1, 1]) == 0
  {
  }

  lemma D4hPair5_8()
    ensures Inner([1, 2, 1, 2, 2, 1, 2, 1, 2, 2], [1, 1, 1, 1, 1, -1, -1, -1, -1, -1], [1, -1, 1, -1, 1, -1, 1, -1, 1, -1]) == 0
  {
  }

  lemma D4hPair5_9()
    ensures Inner([1, 2, 1, 2, 2, 1, 2, 1, 2, 2], [1, 1, 1, 1, 1, -1, -1, -1, -1, -1], [2, 0, -2, 0, 0, -2, 0, 2, 0, 0]) == 0
  {
  }

  lemma D4hPair6_6()
    ensures Inner([1, 2, 1, 2, 2, 1, 2, 1, 2, 2], [1, 1, 1, -1, -1, -1, -1, -1, 1, 1], [1, 1, 1, -1, -1, -1, -1, -1, 1, 1]) == 16
  {
  }

  lemma D4hPair6_7()
    ensures Inner([1, 2, 1, 2, 2, 1, 2, 1, 2, 2], [1, 1, 1, -1, -1, -1, -1, -1, 1, 1], [1, -1, 1, 1, -1, -1, 1, -1, -1, 1]) == 0
  {
  }

  lemma D4hPair6_8()
    ensures Inner([1, 2, 1, 2, 2, 1, 2, 1, 2, 2], [1, 1, 1, -1, -1, -1, -1, -1, 1, 1], [1, -1, 1, -1, 1, -1, 1, -1, 1, -1]) == 0
  {
  }

  lemma D4hPair6_9()
    ensures Inner([1, 2, 1, 2, 2, 1, 2, 1, 2, 2], [1, 1, 1, -1, -1, -1, -1, -1, 1, 1], [2, 0, -2, 0, 0, -2, 0, 2, 0, 0]) == 0
  {
  }

  lemma D4hPair7_7()
    ensures Inner([1, 2, 1, 2, 2, 1, 2, 1, 2, 2], [1, -1, 1, 1, -1, -1, 1, -1, -1, 1], [1, -1, 1, 1, -1, -1, 1, -1, -1, 1]) == 16
  {
  }

  lemma D4hPair7_8()
    ensures Inner([1, 2, 1, 2, 2, 1, 2, 1, 2, 2], [1, -1, 1, 1, -1, -1, 1, -1, -1, 1], [1, -1, 1, -1, 1, -1, 1, -1, 1, -1]) == 0
  {
  }

  lemma D4hPair7_9()
    ensures Inner([1, 2, 1, 2, 2, 1, 2, 1, 2, 2], [1, -1, 1, 1, -1, -1, 1, -1, -1, 1], [2, 0, -2, 0, 0, -2, 0, 2, 0, 0]) == 0
  {
  }

  lemma D4hPair8_8()
    ensures Inner([1, 2, 1, 2, 2, 1, 2, 1, 2, 2], [1, -1, 1, -1, 1, -1, 1, -1, 1, -1], [1, -1, 1, -1, 1, -1, 1, -1, 1, -1]) == 16
  {
  }

  lemma D4hPair8_9()
    ensures Inner([1, 2, 1, 2, 2, 1, 2, 1, 2, 2], [1, -1, 1, -1, 1, -1, 1, -1, 1, -1], [2, 0, -2, 0, 0, -2, 0, 2, 0, 0]) == 0
  {
  }

  lemma D4hPair9_9()
    ensures Inner([1, 2, 1, 2, 2, 1, 2, 1, 2, 2], [2, 0, -2, 0, 0, -2, 0, 2, 0, 0], [2, 0, -2, 0, 0, -2, 0, 2, 0, 0]) == 16
  {
  }

  // ---------------------------------------------------------------------------
  // D6h

  lemma D6hRegisteredOrthonormal()
    ensures Lookup("d6h") == Ok(D6h()) && Orthonormal(D6h())
  {
    D6hOrthonormal();
  }

  lemma D6hOrthonormal()
    ensures Orthonormal(D6h())
  {
    D6hWellFormed();
    D6hRows0();
    D6hRows1();
  }

  /** Rows 0 to 5 of D6h against every row. */
  lemma D6hRows0()
    ensures |D6h().irreps| == 12
    ensures forall i, j :: 0 <= i < 6 && 0 <= j < 12 ==>
      Inner(D6h().sizes, D6h().irreps[i].chars, D6h().irreps[j].chars) == if i == j then 24 else 0
  {
    D6hShape();
    forall i, j | 0 <= i < 6 && 0 <= j < 12
      ensures Inner(D6h().sizes, D6h().irreps[i].chars, D6h().irreps[j].chars) == if i == j then 24 else 0
    {
      if i == 0 {
        D6hRow0();
      } else if i == 1 {
        D6hRow1();
      } else if i == 2 {
        D6hRow2();
      } else if i == 3 {
        D6hRow3();
      } else if i == 4 {
        D6hRow4();
      } else if i == 5 {
        D6hRow5();
      }
    }
  }

  /** Rows 6 to 11 of D6h against every row. */
  lemma D6hRows1()
    ensures |D6h().irreps| == 12
    ensures forall i, j :: 6 <= i < 12 && 0 <= j < 12 ==>
      Inner(D6h().sizes, D6h().irreps[i].chars, D6h().irreps[j].chars) == if i == j then 24 else 0
  {
    D6hShape();
    forall i, j | 6 <= i < 12 && 0 <= j < 12
      ensures Inner(D6h().sizes, D6h().irreps[i].chars, D6h().irreps[j].chars) == if i == j then 24 else 0
    {
      if i == 6 {
        D6hRow6();
      } else if i == 7 {
        D6hRow7();
      } else if i == 8 {
        D6hRow8();
      } else if i == 9 {
        D6hRow9();
      } else if i == 10 {
        D6hRow10();
      } else if i == 11 {
        D6hRow11();
      }
    }
  }

  /** Row 0 of D6h against every row. */
  lemma D6hRow0()
    ensures forall j :: 0 <= j < 12 ==> Inner(D6h().sizes, D6h().irreps[0].chars, D6h().irreps[j].chars) == if j == 0 then 24 else 0
  {
    D6hRow0a();
    D6hRow0b();
  }

  /** Row 0 of D6h against rows 0 to 5. */
  lemma D6hRow0a()
    ensures forall j :: 0 <= j < 6 ==> Inner(D6h().sizes, D6h().irreps[0].chars, D6h().irreps[j].chars) == if j == 0 then 24 else 0
  {
    D6hSizes();
    D6hChars0();
    forall j | 0 <= j < 6
      ensures Inner(D6h().sizes, D6h().irreps[0].chars, D6h().irreps[j].chars) == if j == 0 then 24 else 0
    {
      if j == 0 {
        D6hChars0();
        D6hPair0_0();
      } else if j == 1 {
        D6hChars1();
        D6hPair0_1();
      } else if j == 2 {
        D6hChars2();
        D6hPair0_2();
      } else if j == 3 {
        D6hChars3();
        D6hPair0_3();
      } else if j == 4 {
        D6hChars4();
        D6hPair0_4();
      } else if j == 5 {
        D6hChars5();
        D6hPair0_5();
      }
    }
  }

  /** Row 0 of D6h against rows 6 to 11. */
  lemma D6hRow0b()
    ensures forall j :: 6 <= j < 12 ==> Inner(D6h().sizes, D6h().irreps[0].chars, D6h().irreps[j].chars) == if j == 0 then 24 else 0
  {
    D6hSizes();
    D6hChars0();
    forall j | 6 <= j < 12
      ensures Inner(D6h().sizes, D6h().irreps[0].chars, D6h().irreps[j].chars) == if j == 0 then 24 else 0
    {
      if j == 6 {
        D6hChars6();
        D6hPair0_6();
      } else if j == 7 {
        D6hChars7();
        D6hPair0_7();
      } else if j == 8 {
        D6hChars8();
        D6hPair0_8();
      } else if j == 9 {
        D6hChars9();
        D6hPair0_9();
      } else if j == 10 {
        D6hChars10();
        D6hPair0_10();
      } else if j == 11 {
        D6hChars11();
        D6hPair0_11();
      }
    }
  }

  /** Row 1 of D6h against every row. */
  lemma D6hRow1()
    ensures forall j :: 0 <= j < 12 ==> Inner(D6h().sizes, D6h().irreps[1].chars, D6h().irreps[j].chars) == if j == 1 then 24 else 0
  {
    D6hRow1a();
    D6hRow1b();
  }

  /** Row 1 of D6h against rows 0 to 5. */
  lemma D6hRow1a()
    ensures forall j :: 0 <= j < 6 ==> Inner(D6h().sizes, D6h().irreps[1].chars, D6h().irreps[j].chars) == if j == 1 then 24 else 0
  {
    D6hSizes();
    D6hChars1();
    forall j | 0 <= j < 6
      ensures Inner(D6h().sizes, D6h().irreps[1].chars, D6h().irreps[j].chars) == if j == 1 then 24 else 0
    {
      if j == 0 {
        D6hChars0();
        D6hPair0_1();
        InnerSym([1, 2, 2, 1, 3, 3, 1, 2, 2, 1, 3, 3], [1, 1, 1, 1, 1, 1, 1, 1, 1, 1, 1, 1], [1, 1, 1, 1, -1, -1, 1, 1, 1, 1, -1, -1]);
      } else if j == 1 {
        D6hChars1();
        D6hPair1_1();
      } else if j == 2 {
        D6hChars2();
        D6hPair1_2();
      } else if j == 3 {
        D6hChars3();
        D6hPair1_3();
      } else if j == 4 {
        D6hChars4();
        D6hPair1_4();
      } else if j == 5 {
        D6hChars5();
        D6hPair1_5();
      }
    }
  }

  /** Row 1 of D6h against rows 6 to 11. */
  lemma D6hRow1b()
    ensures forall j :: 6 <= j < 12 ==> Inner(D6h().sizes, D6h().irreps[1].chars, D6h().irreps[j].chars) == if j == 1 then 24 else 0
  {
    D6hSizes();
    D6hChars1();
    forall j | 6 <= j < 12
      ensures Inner(D6h().sizes, D6h().irreps[1].chars, D6h().irreps[j].chars) == if j == 1 then 24 else 0
    {
      if j == 6 {
        D6hChars6();
        D6hPair1_6();
      } else if j == 7 {
        D6hChars7();
        D6hPair1_7();
      } else if j == 8 {
        D6hChars8();
        D6hPair1_8();
      } else if j == 9 {
        D6hChars9();
        D6hPair1_9();
      } else if j == 10 {
        D6hChars10();
        D6hPair1_10();
      } else if j == 11 {
        D6hChars11();
        D6hPair1_11();
      }
    }
  }

  /** Row 2 of D6h against every row. */
  lemma D6hRow2()
    ensures forall j :: 0 <= j < 12 ==> Inner(D6h().sizes, D6h().irreps[2].chars, D6h().irreps[j].chars) == if j == 2 then 24 else 0
  {
    D6hRow2a();
    D6hRow2b();
  }

  /** Row 2 of D6h against rows 0 to 5. */
  lemma D6hRow2a()
    ensures forall j :: 0 <= j < 6 ==> Inner(D6h().sizes, D6h().irreps[2].chars, D6h().irreps[j].chars) == if j == 2 then 24 else 0
  {
    D6hSizes();
    D6hChars2();
    forall j | 0 <= j < 6
      ensures Inner(D6h().sizes, D6h().irreps[2].chars, D6h().irreps[j].chars) == if j == 2 then 24 else 0
    {
      if j == 0 {
        D6hChars0();
        D6hPair0_2();
        InnerSym([1, 2, 2, 1, 3, 3, 1, 2, 2, 1, 3, 3], [1, 1, 1, 1, 1, 1, 1, 1, 1, 1, 1, 1], [1, -1, 1, -1, 1, -1, 1, -1, 1, -1, 1, -1]);
      } else if j == 1 {
        D6hChars1();
        D6hPair1_2();
        InnerSym([1, 2, 2, 1, 3, 3, 1, 2, 2, 1, 3, 3], [1, 1, 1, 1, -1, -1, 1, 1, 1, 1, -1, -1], [1, -1, 1, -1, 1, -1, 1, -1, 1, -1, 1, -1]);
      } else if j == 2 {
        D6hChars2();
        D6hPair2_2();
      } else if j == 3 {
        D6hChars3();
        D6hPair2_3();
      } else if j == 4 {
        D6hChars4();
        D6hPair2_4();
      } else if j == 5 {
        D6hChars5();
        D6hPair2_5();
      }
    }
  }

  /** Row 2 of D6h against rows 6 to 11. */
  lemma D6hRow2b()
    ensures forall j :: 6 <= j < 12 ==> Inner(D6h().sizes, D6h().irreps[2].chars, D6h().irreps[j].chars) == if j == 2 then 24 else 0
  {
    D6hSizes();
    D6hChars2();
    forall j | 6 <= j < 12
      ensures Inner(D6h().sizes, D6h().irreps[2].chars, D6h().irreps[j].chars) == if j == 2 then 24 else 0
    {
      if j == 6 {
        D6hChars6();
        D6hPair2_6();
      } else if j == 7 {
        D6hChars7();
        D6hPair2_7();
      } else if j == 8 {
        D6hChars8();
        D6hPair2_8();
      } else if j == 9 {
        D6hChars9();
        D6hPair2_9();
      } else if j == 10 {
        D6hChars10();
        D6hPair2_10();
      } else if j == 11 {
        D6hChars11();
        D6hPair2_11();
      }
    }
  }

  /** Row 3 of D6h against every row. */
  lemma D6hRow3()
    ensures forall j :: 0 <= j < 12 ==> Inner(D6h().sizes, D6h().irreps[3].chars, D6h().irreps[j].chars) == if j == 3 then 24 else 0
  {
    D6hRow3a();
    D6hRow3b();
  }

  /** Row 3 of D6h against rows 0 to 5. */
  lemma D6hRow3a()
    ensures forall j :: 0 <= j < 6 ==> Inner(D6h().sizes, D6h().irreps[3].chars, D6h().irreps[j].chars) == if j == 3 then 24 else 0
  {
    D6hSizes();
    D6hChars3();
    forall j | 0 <= j < 6
      ensures Inner(D6h().sizes, D6h().irreps[3].chars, D6h().irreps[j].chars) == if j == 3 then 24 else 0
    {
      if j == 0 {
        D6hChars0();
        D6hPair0_3();
        InnerSym([1, 2, 2, 1, 3, 3, 1, 2, 2, 1, 3, 3], [1, 1, 1, 1, 1, 1, 1, 1, 1, 1, 1, 1], [1, -1, 1, -1, -1, 1, 1, -1, 1, -1, -1, 1]);
      } else if j == 1 {
        D6hChars1();
        D6hPair1_3();
        InnerSym([1, 2, 2, 1, 3, 3, 1, 2, 2, 1, 3, 3], [1, 1, 1, 1, -1, -1, 1, 1, 1, 1, -1, -1], [1, -1, 1, -1, -1, 1, 1, -1, 1, -1, -1, 1]);
      } else if j == 2 {
        D6hChars2();
        D6hPair2_3();
        InnerSym([1, 2, 2, 1, 3, 3, 1, 2, 2, 1, 3, 3], [1, -1, 1, -1, 1, -1, 1, -1, 1, -1, 1, -1], [1, -1, 1, -1, -1, 1, 1, -1, 1, -1, -1, 1]);
      } else if j == 3 {
        D6hChars3();
        D6hPair3_3();
      } else if j == 4 {
        D6hChars4();
        D6hPair3_4();
      } else if j == 5 {
        D6hChars5();
        D6hPair3_5();
      }
    }
  }

  /** Row 3 of D6h against rows 6 to 11. */
  lemma D6hRow3b()
    ensures forall j :: 6 <= j < 12 ==> Inner(D6h().sizes, D6h().irreps[3].chars, D6h().irreps[j].chars) == if j == 3 then 24 else 0
  {
    D6hSizes();
    D6hChars3();
    forall j | 6 <= j < 12
      ensures Inner(D6h().sizes, D6h().irreps[3].chars, D6h().irreps[j].chars) == if j == 3 then 24 else 0
    {
      if j == 6 {
        D6hChars6();
        D6hPair3_6();
      } else if j == 7 {
        D6hChars7();
        D6hPair3_7();
      } else if j == 8 {
        D6hChars8();
        D6hPair3_8();
      } else if j == 9 {
        D6hChars9();
        D6hPair3_9();
      } else if j == 10 {
        D6hChars10();
        D6hPair3_10();
      } else if j == 11 {
        D6hChars11();
        D6hPair3_11();
      }
    }
  }

  /** Row 4 of D6h against every row. */
  lemma D6hRow4()
    ensures forall j :: 0 <= j < 12 ==> Inner(D6h().sizes, D6h().irreps[4].chars, D6h().irreps[j].chars) == if j == 4 then 24 else 0
  {
    D6hRow4a();
    D6hRow4b();
  }

  /** Row 4 of D6h against rows 0 to 5. */
  lemma D6hRow4a()
    ensures forall j :: 0 <= j < 6 ==> Inner(D6h().sizes, D6h().irreps[4].chars, D6h().irreps[j].chars) == if j == 4 then 24 else 0
  {
    D6hSizes();
    D6hChars4();
    forall j | 0 <= j < 6
      ensures Inner(D6h().sizes, D6h().irreps[4].chars, D6h().irreps[j].chars) == if j == 4 then 24 else 0
    {
      if j == 0 {
        D6hChars0();
        D6hPair0_4();
        InnerSym([1, 2, 2, 1, 3, 3, 1, 2, 2, 1, 3, 3], [1, 1, 1, 1, 1, 1, 1, 1, 1, 1, 1, 1], [2, 1, -1, -2, 0, 0, 2, 1, -1, -2, 0, 0]);
      } else if j == 1 {
        D6hChars1();
        D6hPair1_4();
        InnerSym([1, 2, 2, 1, 3, 3, 1, 2, 2, 1, 3, 3], [1, 1, 1, 1, -1, -1, 1, 1, 1, 1, -1, -1], [2, 1, -1, -2, 0, 0, 2, 1, -1, -2, 0, 0]);
      } else if j == 2 {
        D6hChars2();
        D6hPair2_4();
        InnerSym([1, 2, 2, 1, 3, 3, 1, 2, 2, 1, 3, 3], [1, -1, 1, -1, 1, -1, 1, -1, 1, -1, 1, -1], [2, 1, -1, -2, 0, 0, 2, 1, -1, -2, 0, 0]);
      } else if j == 3 {
        D6hChars3();
        D6hPair3_4();
        InnerSym([1, 2, 2, 1, 3, 3, 1, 2, 2, 1, 3, 3], [1, -1, 1, -1, -1, 1, 1, -1, 1, -1, -1, 1], [2, 1, -1, -2, 0, 0, 2, 1, -1, -2, 0, 0]);
      } else if j == 4 {
        D6hChars4();
        D6hPair4_4();
      } else if j == 5 {
        D6hChars5();
        D6hPair4_5();
      }
    }
  }

  /** Row 4 of D6h against rows 6 to 11. */
  lemma D6hRow4b()
    ensures forall j :: 6 <= j < 12 ==> Inner(D6h().sizes, D6h().irreps[4].chars, D6h().irreps[j].chars) == if j == 4 then 24 else 0
  {
    D6hSizes();
    D6hChars4();
    forall j | 6 <= j < 12
      ensures Inner(D6h().sizes, D6h().irreps[4].chars, D6h().irreps[j].chars) == if j == 4 then 24 else 0
    {
      if j == 6 {
        D6hChars6();
        D6hPair4_6();
      } else if j == 7 {
        D6hChars7();
        D6hPair4_7();
      } else if j == 8 {
        D6hChars8();
        D6hPair4_8();
      } else if j == 9 {
        D6hChars9();
        D6hPair4_9();
      } else if j == 10 {
        D6hChars10();
        D6hPair4_10();
      } else if j == 11 {
        D6hChars11();
        D6hPair4_11();
      }
    }
  }

  /** Row 5 of D6h against every row. */
  lemma D6hRow5()
    ensures forall j :: 0 <= j < 12 ==> Inner(D6h().sizes, D6h().irreps[5].chars, D6h().irreps[j].chars) == if j == 5 then 24 else 0
  {
    D6hRow5a();
    D6hRow5b();
  }

  /** Row 5 of D6h against rows 0 to 5. */
  lemma D6hRow5a()
    ensures forall j :: 0 <= j < 6 ==> Inner(D6h().sizes, D6h().irreps[5].chars, D6h().irreps[j].chars) == if j == 5 then 24 else 0
  {
    D6hSizes();
    D6hChars5();
    forall j | 0 <= j < 6
      ensures Inner(D6h().sizes, D6h().irreps[5].chars, D6h().irreps[j].chars) == if j == 5 then 24 else 0
    {
      if j == 0 {
        D6hChars0();
        D6hPair0_5();
        InnerSym([1, 2, 2, 1, 3, 3, 1, 2, 2, 1, 3, 3], [1, 1, 1, 1, 1, 1, 1, 1, 1, 1, 1, 1], [2, -1, -1, 2, 0, 0, 2, -1, -1, 2, 0, 0]);
      } else if j == 1 {
        D6hChars1();
        D6hPair1_5();
        InnerSym([1, 2, 2, 1, 3, 3, 1, 2, 2, 1, 3, 3], [1, 1, 1, 1, -1, -1, 1, 1, 1, 1, -1, -1], [2, -1, -1, 2, 0, 0, 2, -1, -1, 2, 0, 0]);
      } else if j == 2 {
        D6hChars2();
        D6hPair2_5();
        InnerSym([1, 2, 2, 1, 3, 3, 1, 2, 2, 1, 3, 3], [1, -1, 1, -1, 1, -1, 1, -1, 1, -1, 1, -1], [2, -1, -1, 2, 0, 0, 2, -1, -1, 2, 0, 0]);
      } else if j == 3 {
        D6hChars3();
        D6hPair3_5();
        InnerSym([1, 2, 2, 1, 3, 3, 1, 2, 2, 1, 3, 3], [1, -1, 1, -1, -1, 1, 1, -1, 1, -1, -1, 1], [2, -1, -1, 2, 0, 0, 2, -1, -1, 2, 0, 0]);
      } else if j == 4 {
        D6hChars4();
        D6hPair4_5();
        InnerSym([1, 2, 2, 1, 3, 3, 1, 2, 2, 1, 3, 3], [2, 1, -1, -2, 0, 0, 2, 1, -1, -2, 0, 0], [2, -1, -1, 2, 0, 0, 2, -1, -1, 2, 0, 0]);
      } else if j == 5 {
        D6hChars5();
        D6hPair5_5();
      }
    }
  }

  /** Row 5 of D6h against rows 6 to 11. */
  lemma D6hRow5b()
    ensures forall j :: 6 <= j < 12 ==> Inner(D6h().sizes, D6h().irreps[5].chars, D6h().irreps[j].chars) == if j == 5 then 24 else 0
  {
    D6hSizes();
    D6hChars5();
    forall j | 6 <= j < 12
      ensures Inner(D6h().sizes, D6h().irreps[5].chars, D6h().irreps[j].chars) == if j == 5 then 24 else 0
    {
      if j == 6 {
        D6hChars6();
        D6hPair5_6();
      } else if j == 7 {
        D6hChars7();
        D6hPair5_7();
      } else if j == 8 {
        D6hChars8();
        D6hPair5_8();
      } else if j == 9 {
        D6hChars9();
        D6hPair5_9();
      } else if j == 10 {
        D6hChars10();
        D6hPair5_10();
      } else if j == 11 {
        D6hChars11();
        D6hPair5_11();
      }
    }
  }

  /** Row 6 of D6h against every row. */
  lemma D6hRow6()
    ensures forall j :: 0 <= j < 12 ==> Inner(D6h().sizes, D6h().irreps[6].chars, D6h().irreps[j].chars) == if j == 6 then 24 else 0
  {
    D6hRow6a();
    D6hRow6b();
  }

  /** Row 6 of D6h against rows 0 to 5. */
  lemma D6hRow6a()
    ensures forall j :: 0 <= j < 6 ==> Inner(D6h().sizes, D6h().irreps[6].chars, D6h().irreps[j].chars) == if j == 6 then 24 else 0
  {
    D6hSizes();
    D6hChars6();
    forall j | 0 <= j < 6
      ensures Inner(D6h().sizes, D6h().irreps[6].chars, D6h().irreps[j].chars) == if j == 6 then 24 else 0
    {
      if j == 0 {
        D6hChars0();
        D6hPair0_6();
        InnerSym([1, 2, 2, 1, 3, 3, 1, 2, 2, 1, 3, 3], [1, 1, 1, 1, 1, 1, 1, 1, 1, 1, 1, 1], [1, 1, 1, 1, 1, 1, -1, -1, -1, -1, -1, -1]);
      } else if j == 1 {
        D6hChars1();
        D6hPair1_6();
        InnerSym([1, 2, 2, 1, 3, 3, 1, 2, 2, 1, 3, 3], [1, 1, 1, 1, -1, -1, 1, 1, 1, 1, -1, -1], [1, 1, 1, 1, 1, 1, -1, -1, -1, -1, -1, -1]);
      } else if j == 2 {
        D6hChars2();
        D6hPair2_6();
        InnerSym([1, 2, 2, 1, 3, 3, 1, 2, 2, 1, 3, 3], [1, -1, 1, -1, 1, -1, 1, -1, 1, -1, 1, -1], [1, 1, 1, 1, 1, 1, -1, -1, -1, -1, -1, -1]);
      } else if j == 3 {
        D6hChars3();
        D6hPair3_6();
        InnerSym([1, 2, 2, 1, 3, 3, 1, 2, 2, 1, 3, 3], [1, -1, 1, -1, -1, 1, 1, -1, 1, -1, -1, 1], [1, 1, 1, 1, 1, 1, -1, -1, -1, -1, -1, -1]);
      } else if j == 4 {
        D6hChars4();
        D6hPair4_6();
        InnerSym([1, 2, 2, 1, 3, 3, 1, 2, 2, 1, 3, 3], [2, 1, -1, -2, 0, 0, 2, 1, -1, -2, 0, 0], [1, 1, 1, 1, 1, 1, -1, -1, -1, -1, -1, -1]);
      } else if j == 5 {
        D6hChars5();
        D6hPair5_6();
        InnerSym([1, 2, 2, 1, 3, 3, 1, 2, 2, 1, 3, 3], [2, -1, -1, 2, 0, 0, 2, -1, -1, 2, 0, 0], [1, 1, 1, 1, 1, 1, -1, -1, -1, -1, -1, -1]);
      }
    }
  }

  /** Row 6 of D6h against rows 6 to 11. */
  lemma D6hRow6b()
    ensures forall j :: 6 <= j < 12 ==> Inner(D6h().sizes, D6h().irreps[6].chars, D6h().irreps[j].chars) == if j == 6 then 24 else 0
  {
    D6hSizes();
    D6hChars6();
    forall j | 6 <= j < 12
      ensures Inner(D6h().sizes, D6h().irreps[6].chars, D6h().irreps[j].chars) == if j == 6 then 24 else 0
    {
      if j == 6 {
        D6hChars6();
        D6hPair6_6();
      } else if j == 7 {
        D6hChars7();
        D6hPair6_7();
      } else if j == 8 {
        D6hChars8();
        D6hPair6_8();
      } else if j == 9 {
        D6hChars9();
        D6hPair6_9();
      } else if j == 10 {
        D6hChars10();
        D6hPair6_10();
      } else if j == 11 {
        D6hChars11();
        D6hPair6_11();
      }
    }
  }

  /** Row 7 of D6h against every row. */
  lemma D6hRow7()
    ensures forall j :: 0 <= j < 12 ==> Inner(D6h().sizes, D6h().irreps[7].chars, D6h().irreps[j].chars) == if j == 7 then 24 else 0
  {
    D6hRow7a();
    D6hRow7b();
  }

  /** Row 7 of D6h against rows 0 to 5. */
  lemma D6hRow7a()
    ensures forall j :: 0 <= j < 6 ==> Inner(D6h().sizes, D6h().irreps[7].chars, D6h().irreps[j].chars) == if j == 7 then 24 else 0
  {
    D6hSizes();
    D6hChars7();
    forall j | 0 <= j < 6
      ensures Inner(D6h().sizes, D6h().irreps[7].chars, D6h().irreps[j].chars) == if j == 7 then 24 else 0
    {
      if j == 0 {
        D6hChars0();
        D6hPair0_7();
        InnerSym([1, 2, 2, 1, 3, 3, 1, 2, 2, 1, 3, 3], [1, 1, 1, 1, 1, 1, 1, 1, 1, 1, 1, 1], [1, 1, 1, 1, -1, -1, -1, -1, -1, -1, 1, 1]);
      } else if j == 1 {
        D6hChars1();
        D6hPair1_7();
        InnerSym([1, 2, 2, 1, 3, 3, 1, 2, 2, 1, 3, 3], [1, 1, 1, 1, -1, -1, 1, 1, 1, 1, -1, -1], [1, 1, 1, 1, -1, -1, -1, -1, -1, -1, 1, 1]);
      } else if j == 2 {
        D6hChars2();
        D6hPair2_7();
        InnerSym([1, 2, 2, 1, 3, 3, 1, 2, 2, 1, 3, 3], [1, -1, 1, -1, 1, -1, 1, -1, 1, -1, 1, -1], [1, 1, 1, 1, -1, -1, -1, -1, -1, -1, 1, 1]);
      } else if j == 3 {
        D6hChars3();
        D6hPair3_7();
        InnerSym([1, 2, 2, 1, 3, 3, 1, 2, 2, 1, 3, 3], [1, -1, 1, -1, -1, 1, 1, -1, 1, -1, -1, 1], [1, 1, 1, 1, -1, -1, -1, -1, -1, -1, 1, 1]);
      } else if j == 4 {
        D6hChars4();
        D6hPair4_7();
        InnerSym([1, 2, 2, 1, 3, 3, 1, 2, 2, 1, 3, 3], [2, 1, -1, -2, 0, 0, 2, 1, -1, -2, 0, 0], [1, 1, 1, 1, -1, -1, -1, -1, -1, -1, 1, 1]);
      } else if j == 5 {
        D6hChars5();
        D6hPair5_7();
        InnerSym([1, 2, 2, 1, 3, 3, 1, 2, 2, 1, 3, 3], [2, -1, -1, 2, 0, 0, 2, -1, -1, 2, 0, 0], [1, 1, 1, 1, -1, -1, -1, -1, -1, -1, 1, 1]);
      }
    }
  }

  /** Row 7 of D6h against rows 6 to 11. */
  lemma D6hRow7b()
    ensures forall j :: 6 <= j < 12 ==> Inner(D6h().sizes, D6h().irreps[7].chars, D6h().irreps[j].chars) == if j == 7 then 24 else 0
  {
    D6hSizes();
    D6hChars7();
    forall j | 6 <= j < 12
      ensures Inner(D6h().sizes, D6h().irreps[7].chars, D6h().irreps[j].chars) == if j == 7 then 24 else 0
    {
      if j == 6 {
        D6hChars6();
        D6hPair6_7();
        InnerSym([1, 2, 2, 1, 3, 3, 1, 2, 2, 1, 3, 3], [1, 1, 1, 1, 1, 1, -1, -1, -1, -1, -1, -1], [1, 1, 1, 1, -1, -1, -1, -1, -1, -1, 1, 1]);
      } else if j == 7 {
        D6hChars7();
        D6hPair7_7();
      } else if j == 8 {
        D6hChars8();
        D6hPair7_8();
      } else if j == 9 {
        D6hChars9();
        D6hPair7_9();
      } else if j == 10 {
        D6hChars10();
        D6hPair7_10();
      } else if j == 11 {
        D6hChars11();
        D6hPair7_11();
      }
    }
  }

  /** Row 8 of D6h against every row. */
  lemma D6hRow8()
    ensures forall j :: 0 <= j < 12 ==> Inner(D6h().sizes, D6h().irreps[8].chars, D6h().irreps[j].chars) == if j == 8 then 24 else 0
  {
    D6hRow8a();
    D6hRow8b();
  }

  /** Row 8 of D6h against rows 0 to 5. */
  lemma D6hRow8a()
    ensures forall j :: 0 <= j < 6 ==> Inner(D6h().sizes, D6h().irreps[8].chars, D6h().irreps[j].chars) == if j == 8 then 24 else 0
  {
    D6hSizes();
    D6hChars8();
    forall j | 0 <= j < 6
      ensures Inner(D6h().sizes, D6h().irreps[8].chars, D6h().irreps[j].chars) == if j == 8 then 24 else 0
    {
      if j == 0 {
        D6hChars0();
        D6hPair0_8();
        InnerSym([1, 2, 2, 1, 3, 3, 1, 2, 2, 1, 3, 3], [1, 1, 1, 1, 1, 1, 1, 1, 1, 1, 1, 1], [1, -1, 1, -1, 1, -1, -1, 1, -1, 1, -1, 1]);
      } else if j == 1 {
        D6hChars1();
        D6hPair1_8();
        InnerSym([1, 2, 2, 1, 3, 3, 1, 2, 2, 1, 3, 3], [1, 1, 1, 1, -1, -1, 1, 1, 1, 1, -1, -1], [1, -1, 1, -1, 1, -1, -1, 1, -1, 1, -1, 1]);
      } else if j == 2 {
        D6hChars2();
        D6hPair2_8();
        InnerSym([1, 2, 2, 1, 3, 3, 1, 2, 2, 1, 3, 3], [1, -1, 1, -1, 1, -1, 1, -1, 1, -1, 1, -1], [1, -1, 1, -1, 1, -1, -1, 1, -1, 1, -1, 1]);
      } else if j == 3 {
        D6hChars3();
        D6hPair3_8();
        InnerSym([1, 2, 2, 1, 3, 3, 1, 2, 2, 1, 3, 3], [1, -1, 1, -1, -1, 1, 1, -1, 1, -1, -1, 1], [1, -1, 1, -1, 1, -1, -1, 1, -1, 1, -1, 1]);
      } else if j == 4 {
        D6hChars4();
        D6hPair4_8();
        InnerSym([1, 2, 2, 1, 3, 3, 1, 2, 2, 1, 3, 3], [2, 1, -1, -2, 0, 0, 2, 1, -1, -2, 0, 0], [1, -1, 1, -1, 1, -1, -1, 1, -1, 1, -1, 1]);
      } else if j == 5 {
        D6hChars5();
        D6hPair5_8();
        InnerSym([1, 2, 2, 1, 3, 3, 1, 2, 2, 1, 3, 3], [2, -1, -1, 2, 0, 0, 2, -1, -1, 2, 0, 0], [1, -1, 1, -1, 1, -1, -1, 1, -1, 1, -1, 1]);
      }
    }
  }

  /** Row 8 of D6h against rows 6 to 11. */
  lemma D6hRow8b()
    ensures forall j :: 6 <= j < 12 ==> Inner(D6h().sizes, D6h().irreps[8].chars, D6h().irreps[j].chars) == if j == 8 then 24 else 0
  {
    D6hSizes();
    D6hChars8();
    forall j | 6 <= j < 12
      ensures Inner(D6h().sizes, D6h().irreps[8].chars, D6h().irreps[j].chars) == if j == 8 then 24 else 0
    {
      if j == 6 {
        D6hChars6();
        D6hPair6_8();
        InnerSym([1, 2, 2, 1, 3, 3, 1, 2, 2, 1, 3, 3], [1, 1, 1, 1, 1, 1, -1, -1, -1, -1, -1, -1], [1, -1, 1, -1, 1, -1, -1, 1, -1, 1, -1, 1]);
      } else if j == 7 {
        D6hChars7();
        D6hPair7_8();
        InnerSym([1, 2, 2, 1, 3, 3, 1, 2, 2, 1, 3, 3], [1, 1, 1, 1, -1, -1, -1, -1, -1, -1, 1, 1], [1, -1, 1, -1, 1, -1, -1, 1, -1, 1, -1, 1]);
      } else if j == 8 {
        D6hChars8();
        D6hPair8_8();
      } else if j == 9 {
        D6hChars9();
        D6hPair8_9();
      } else if j == 10 {
        D6hChars10();
        D6hPair8_10();
      } else if j == 11 {
        D6hChars11();
        D6hPair8_11();
      }
    }
  }

  /** Row 9 of D6h against every row. */
  lemma D6hRow9()
    ensures forall j :: 0 <= j < 12 ==> Inner(D6h().sizes, D6h().irreps[9].chars, D6h().irreps[j].chars) == if j == 9 then 24 else 0
  {
    D6hRow9a();
    D6hRow9b();
  }

  /** Row 9 of D6h against rows 0 to 5. */
  lemma D6hRow9a()
    ensures forall j :: 0 <= j < 6 ==> Inner(D6h().sizes, D6h().irreps[9].chars, D6h().irreps[j].chars) == if j == 9 then 24 else 0
  {
    D6hSizes();
    D6hChars9();
    forall j | 0 <= j < 6
      ensures Inner(D6h().sizes, D6h().irreps[9].chars, D6h().irreps[j].chars) == if j == 9 then 24 else 0
    {
      if j == 0 {
        D6hChars0();
        D6hPair0_9();
        InnerSym([1, 2, 2, 1, 3, 3, 1, 2, 2, 1, 3, 3], [1, 1, 1, 1, 1, 1, 1, 1, 1, 1, 1, 1], [1, -1, 1, -1, -1, 1, -1, 1, -1, 1, 1, -1]);
      } else if j == 1 {
        D6hChars1();
        D6hPair1_9();
        InnerSym([1, 2, 2, 1, 3, 3, 1, 2, 2, 1, 3, 3], [1, 1, 1, 1, -1, -1, 1, 1, 1, 1, -1, -1], [1, -1, 1, -1, -1, 1, -1, 1, -1, 1, 1, -1]);
      } else if j == 2 {
        D6hChars2();
        D6hPair2_9();
        InnerSym([1, 2, 2, 1, 3, 3, 1, 2, 2, 1, 3, 3], [1, -1, 1, -1, 1, -1, 1, -1, 1, -1, 1, -1], [1, -1, 1, -1, -1, 1, -1, 1, -1, 1, 1, -1]);
      } else if j == 3 {
        D6hChars3();
        D6hPair3_9();
        InnerSym([1, 2, 2, 1, 3, 3, 1, 2, 2, 1, 3, 3], [1, -1, 1, -1, -1, 1, 1, -1, 1, -1, -1, 1], [1, -1, 1, -1, -1, 1, -1, 1, -1, 1, 1, -1]);
      } else if j == 4 {
        D6hChars4();
        D6hPair4_9();
        InnerSym([1, 2, 2, 1, 3, 3, 1, 2, 2, 1, 3, 3], [2, 1, -1, -2, 0, 0, 2, 1, -1, -2, 0, 0], [1, -1, 1, -1, -1, 1, -1, 1, -1, 1, 1, -1]);
      } else if j == 5 {
        D6hChars5();
        D6hPair5_9();
        InnerSym([1, 2, 2, 1, 3, 3, 1, 2, 2, 1, 3, 3], [2, -1, -1, 2, 0, 0, 2, -1, -1, 2, 0, 0], [1, -1, 1, -1, -1, 1, -1, 1, -1, 1, 1, -1]);
      }
    }
  }

  /** Row 9 of D6h against rows 6 to 11. */
  lemma D6hRow9b()
    ensures forall j :: 6 <= j < 12 ==> Inner(D6h().sizes, D6h().irreps[9].chars, D6h().irreps[j].chars) == if j == 9 then 24 else 0
  {
    D6hSizes();
    D6hChars9();
    forall j | 6 <= j < 12
      ensures Inner(D6h().sizes, D6h().irreps[9].chars, D6h().irreps[j].chars) == if j == 9 then 24 else 0
    {
      if j == 6 {
        D6hChars6();
        D6hPair6_9();
        InnerSym([1, 2, 2, 1, 3, 3, 1, 2, 2, 1, 3, 3], [1, 1, 1, 1, 1, 1, -1, -1, -1, -1, -1, -1], [1, -1, 1, -1, -1, 1, -1, 1, -1, 1, 1, -1]);
      } else if j == 7 {
        D6hChars7();
        D6hPair7_9();
        InnerSym([1, 2, 2, 1, 3, 3, 1, 2, 2, 1, 3, 3], [1, 1, 1, 1, -1, -1, -1, -1, -1, -1, 1, 1], [1, -1, 1, -1, -1, 1, -1, 1, -1, 1, 1, -1]);
      } else if j == 8 {
        D6hChars8();
        D6hPair8_9();
        InnerSym([1, 2, 2, 1, 3, 3, 1, 2, 2, 1, 3, 3], [1, -1, 1, -1, 1, -1, -1, 1, -1, 1, -1, 1], [1, -1, 1, -1, -1, 1, -1, 1, -1, 1, 1, -1]);
      } else if j == 9 {
        D6hChars9();
        D6hPair9_9();
      } else if j == 10 {
        D6hChars10();
        D6hPair9_10();
      } else if j == 11 {
        D6hChars11();
        D6hPair9_11();
      }
    }
  }

  /** Row 10 of D6h against every row. */
  lemma D6hRow10()
    ensures forall j :: 0 <= j < 12 ==> Inner(D6h().sizes, D6h().irreps[10].chars, D6h().irreps[j].chars) == if j == 10 then 24 else 0
  {
    D6hRow10a();
    D6hRow10b();
  }

  /** Row 10 of D6h against rows 0 to 5. */
  lemma D6hRow10a()
    ensures forall j :: 0 <= j < 6 ==> Inner(D6h().sizes, D6h().irreps[10].chars, D6h().irreps[j].chars) == if j == 10 then 24 else 0
  {
    D6hSizes();
    D6hChars10();
    forall j | 0 <= j < 6
      ensures Inner(D6h().sizes, D6h().irreps[10].chars, D6h().irreps[j].chars) == if j == 10 then 24 else 0
    {
      if j == 0 {
        D6hChars0();
        D6hPair0_10();
        InnerSym([1, 2, 2, 1, 3, 3, 1, 2, 2, 1, 3, 3], [1, 1, 1, 1, 1, 1, 1, 1, 1, 1, 1, 1], [2, 1, -1, -2, 0, 0, -2, -1, 1, 2, 0, 0]);
      } else if j == 1 {
        D6hChars1();
        D6hPair1_10();
        InnerSym([1, 2, 2, 1, 3, 3, 1, 2, 2, 1, 3, 3], [1, 1, 1, 1, -1, -1, 1, 1, 1, 1, -1, -1], [2, 1, -1, -2, 0, 0, -2, -1, 1, 2, 0, 0]);
      } else if j == 2 {
        D6hChars2();
        D6hPair2_10();
        InnerSym([1, 2, 2, 1, 3, 3, 1, 2, 2, 1, 3, 3], [1, -1, 1, -1, 1, -1, 1, -1, 1, -1, 1, -1], [2, 1, -1, -2, 0, 0, -2, -1, 1, 2, 0, 0]);
      } else if j == 3 {
        D6hChars3();
        D6hPair3_10();
        InnerSym([1, 2, 2, 1, 3, 3, 1, 2, 2, 1, 3, 3], [1, -1, 1, -1, -1, 1, 1, -1, 1, -1, -1, 1], [2, 1, -1, -2, 0, 0, -2, -1, 1, 2, 0, 0]);
      } else if j == 4 {
        D6hChars4();
        D6hPair4_10();
        InnerSym([1, 2, 2, 1, 3, 3, 1, 2, 2, 1, 3, 3], [2, 1, -1, -2, 0, 0, 2, 1, -1, -2, 0, 0], [2, 1, -1, -2, 0, 0, -2, -1, 1, 2, 0, 0]);
      } else if j == 5 {
        D6hChars5();
        D6hPair5_10();
        InnerSym([1, 2, 2, 1, 3, 3, 1, 2, 2, 1, 3, 3], [2, -1, -1, 2, 0, 0, 2, -1, -1, 2, 0, 0], [2, 1, -1, -2, 0, 0, -2, -1, 1, 2, 0, 0]);
      }
    }
  }

  /** Row 10 of D6h against rows 6 to 11. */
  lemma D6hRow10b()
    ensures forall j :: 6 <= j < 12 ==> Inner(D6h().sizes, D6h().irreps[10].chars, D6h().irreps[j].chars) == if j == 10 then 24 else 0
  {
    D6hSizes();
    D6hChars10();
    forall j | 6 <= j < 12
      ensures Inner(D6h().sizes, D6h().irreps[10].chars, D6h().irreps[j].chars) == if j == 10 then 24 else 0
    {
      if j == 6 {
        D6hChars6();
        D6hPair6_10();
        InnerSym([1, 2, 2, 1, 3, 3, 1, 2, 2, 1, 3, 3], [1, 1, 1, 1, 1, 1, -1, -1, -1, -1, -1, -1], [2, 1, -1, -2, 0, 0, -2, -1, 1, 2, 0, 0]);
      } else if j == 7 {
        D6hChars7();
        D6hPair7_10();
        InnerSym([1, 2, 2, 1, 3, 3, 1, 2, 2, 1, 3, 3], [1, 1, 1, 1, -1, -1, -1, -1, -1, -1, 1, 1], [2, 1, -1, -2, 0, 0, -2, -1, 1, 2, 0, 0]);
      } else if j == 8 {
        D6hChars8();
        D6hPair8_10();
        InnerSym([1, 2, 2, 1, 3, 3, 1, 2, 2, 1, 3, 3], [1, -1, 1, -1, 1, -1, -1, 1, -1, 1, -1, 1], [2, 1, -1, -2, 0, 0, -2, -1, 1, 2, 0, 0]);
      } else if j == 9 {
        D6hChars9();
        D6hPair9_10();
        InnerSym([1, 2, 2, 1, 3, 3, 1, 2, 2, 1, 3, 3], [1, -1, 1, -1, -1, 1, -1, 1, -1, 1, 1, -1], [2, 1, -1, -2, 0, 0, -2, -1, 1, 2, 0, 0]);
      } else if j == 10 {
        D6hChars10();
        D6hPair10_10();
      } else if j == 11 {
        D6hChars11();
        D6hPair10_11();
      }
    }
  }

  /** Row 11 of D6h against every row. */
  lemma D6hRow11()
    ensures forall j :: 0 <= j < 12 ==> Inner(D6h().sizes, D6h().irreps[11].chars, D6h().irreps[j].chars) == if j == 11 then 24 else 0
  {
    D6hRow11a();
    D6hRow11b();
  }

  /** Row 11 of D6h against rows 0 to 5. */
  lemma D6hRow11a()
    ensures forall j :: 0 <= j < 6 ==> Inner(D6h().sizes, D6h().irreps[11].chars, D6h().irreps[j].chars) == if j == 11 then 24 else 0
  {
    D6hSizes();
    D6hChars11();
    forall j | 0 <= j < 6
      ensures Inner(D6h().sizes, D6h().irreps[11].chars, D6h().irreps[j].chars) == if j == 11 then 24 else 0
    {
      if j == 0 {
        D6hChars0();
        D6hPair0_11();
        InnerSym([1, 2, 2, 1, 3, 3, 1, 2, 2, 1, 3, 3], [1, 1, 1, 1, 1, 1, 1, 1, 1, 1, 1, 1], [2, -1, -1, 2, 0, 0, -2, 1, 1, -2, 0, 0]);
      } else if j == 1 {
        D6hChars1();
        D6hPair1_11();
        InnerSym([1, 2, 2, 1, 3, 3, 1, 2, 2, 1, 3, 3], [1, 1, 1, 1, -1, -1, 1, 1, 1, 1, -1, -1], [2, -1, -1, 2, 0, 0, -2, 1, 1, -2, 0, 0]);
      } else if j == 2 {
        D6hChars2();
        D6hPair2_11();
        InnerSym([1, 2, 2, 1, 3, 3, 1, 2, 2, 1, 3, 3], [1, -1, 1, -1, 1, -1, 1, -1, 1, -1, 1, -1], [2, -1, -1, 2, 0, 0, -2, 1, 1, -2, 0, 0]);
      } else if j == 3 {
        D6hChars3();
        D6hPair3_11();
        InnerSym([1, 2, 2, 1, 3, 3, 1, 2, 2, 1, 3, 3], [1, -1, 1, -1, -1, 1, 1, -1, 1, -1, -1, 1], [2, -1, -1, 2, 0, 0, -2, 1, 1, -2, 0, 0]);
      } else if j == 4 {
        D6hChars4();
        D6hPair4_11();
        InnerSym([1, 2, 2, 1, 3, 3, 1, 2, 2, 1, 3, 3], [2, 1, -1, -2, 0, 0, 2, 1, -1, -2, 0, 0], [2, -1, -1, 2, 0, 0, -2, 1, 1, -2, 0, 0]);
      } else if j == 5 {
        D6hChars5();
        D6hPair5_11();
        InnerSym([1, 2, 2, 1, 3, 3, 1, 2, 2, 1, 3, 3], [2, -1, -1, 2, 0, 0, 2, -1, -1, 2, 0, 0], [2, -1, -1, 2, 0, 0, -2, 1, 1, -2, 0, 0]);
      }
    }
  }

  /** Row 11 of D6h against rows 6 to 11. */
  lemma D6hRow11b()
    ensures forall j :: 6 <= j < 12 ==> Inner(D6h().sizes, D6h().irreps[11].chars, D6h().irreps[j].chars) == if j == 11 then 24 else 0
  {
    D6hSizes();
    D6hChars11();
    forall j | 6 <= j < 12
      ensures Inner(D6h().sizes, D6h().irreps[11].chars, D6h().irreps[j].chars) == if j == 11 then 24 else 0
    {
      if j == 6 {
        D6hChars6();
        D6hPair6_11();
        InnerSym([1, 2, 2, 1, 3, 3, 1, 2, 2, 1, 3, 3], [1, 1, 1, 1, 1, 1, -1, -1, -1, -1, -1, -1], [2, -1, -1, 2, 0, 0, -2, 1, 1, -2, 0, 0]);
      } else if j == 7 {
        D6hChars7();
        D6hPair7_11();
        InnerSym([1, 2, 2, 1, 3, 3, 1, 2, 2, 1, 3, 3], [1, 1, 1, 1, -1, -1, -1, -1, -1, -1, 1, 1], [2, -1, -1, 2, 0, 0, -2, 1, 1, -2, 0, 0]);
      } else if j == 8 {
        D6hChars8();
        D6hPair8_11();
        InnerSym([1, 2, 2, 1, 3, 3, 1, 2, 2, 1, 3, 3], [1, -1, 1, -1, 1, -1, -1, 1, -1, 1, -1, 1], [2, -1, -1, 2, 0, 0, -2, 1, 1, -2, 0, 0]);
      } else if j == 9 {
        D6hChars9();
        D6hPair9_11();
        InnerSym([1, 2, 2, 1, 3, 3, 1, 2, 2, 1, 3, 3], [1, -1, 1, -1, -1, 1, -1, 1, -1, 1, 1, -1], [2, -1, -1, 2, 0, 0, -2, 1, 1, -2, 0, 0]);
      } else if j == 10 {
        D6hChars10();
        D6hPair10_11();
        InnerSym([1, 2, 2, 1, 3, 3, 1, 2, 2, 1, 3, 3], [2, 1, -1, -2, 0, 0, -2, -1, 1, 2, 0, 0], [2, -1, -1, 2, 0, 0, -2, 1, 1, -2, 0, 0]);
      } else if j == 11 {
        D6hChars11();
        D6hPair11_11();
      }
    }
  }

  lemma D6hPair0_0()
    ensures Inner([1, 2, 2, 1, 3, 3, 1, 2, 2, 1, 3, 3], [1, 1, 1, 1, 1, 1, 1, 1, 1, 1, 1, 1], [1, 1, 1, 1, 1, 1, 1, 1, 1, 1, 1, 1]) == 24
  {
  }

  lemma D6hPair0_1()
    ensures Inner([1, 2, 2, 1, 3, 3, 1, 2, 2, 1, 3, 3], [1, 1, 1, 1, 1, 1, 1, 1, 1, 1, 1, 1], [1, 1, 1, 1, -1, -1, 1, 1, 1, 1, -1, -1]) == 0
  {
  }

  lemma D6hPair0_2()
    ensures Inner([1, 2, 2, 1, 3, 3, 1, 2, 2, 1, 3, 3], [1, 1, 1, 1, 1, 1, 1, 1, 1, 1, 1, 1], [1, -1, 1, -1, 1, -1, 1, -1, 1, -1, 1, -1]) == 0
  {
  }

  lemma D6hPair0_3()
    ensures Inner([1, 2, 2, 1, 3, 3, 1, 2, 2, 1, 3, 3], [1, 1, 1, 1, 1, 1, 1, 1, 1, 1, 1, 1], [1, -1, 1, -1, -1, 1, 1, -1, 1, -1, -1, 1]) == 0
  {
  }

  lemma D6hPair0_4()
    ensures Inner([1, 2, 2, 1, 3, 3, 1, 2, 2, 1, 3, 3], [1, 1, 1, 1, 1, 1, 1, 1, 1, 1, 1, 1], [2, 1, -1, -2, 0, 0, 2, 1, -1, -2, 0, 0]) == 0
  {
  }

  lemma D6hPair0_5()
    ensures Inner([1, 2, 2, 1, 3, 3, 1, 2, 2, 1, 3, 3], [1, 1, 1, 1, 1, 1, 1, 1, 1, 1, 1, 1], [2, -1, -1, 2, 0, 0, 2, -1, -1, 2, 0, 0]) == 0
  {
  }

  lemma D6hPair0_6()
    ensures Inner([1, 2, 2, 1, 3, 3, 1, 2, 2, 1, 3, 3], [1, 1, 1, 1, 1, 1, 1, 1, 1, 1, 1, 1], [1, 1, 1, 1, 1, 1, -1, -1, -1, -1, -1, -1]) == 0
  {
  }

  lemma D6hPair0_7()
    ensures Inner([1, 2, 2, 1, 3, 3, 1, 2, 2, 1, 3, 3], [1, 1, 1, 1, 1, 1, 1, 1, 1, 1, 1, 1], [1, 1, 1, 1, -1, -1, -1, -1, -1, -1, 1, 1]) == 0
  {
  }

  lemma D6hPair0_8()
    ensures Inner([1, 2, 2, 1, 3, 3, 1, 2, 2, 1, 3, 3], [1, 1, 1, 1, 1, 1, 1, 1, 1, 1, 1, 1], [1, -1, 1, -1, 1, -1, -1, 1, -1, 1, -1, 1]) == 0
  {
  }

  lemma D6hPair0_9()
    ensures Inner([1, 2, 2, 1, 3, 3, 1, 2, 2, 1, 3, 3], [1, 1, 1, 1, 1, 1, 1, 1, 1, 1, 1, 1], [1, -1, 1, -1, -1, 1, -1, 1, -1, 1, 1, -1]) == 0
  {
  }

  lemma D6hPair0_10()
    ensures Inner([1, 2, 2, 1, 3, 3, 1, 2, 2, 1, 3, 3], [1, 1, 1, 1, 1, 1, 1, 1, 1, 1, 1, 1], [2, 1, -1, -2, 0, 0, -2, -1, 1, 2, 0, 0]) == 0
  {
  }

  lemma D6hPair0_11()
    ensures Inner([1, 2, 2, 1, 3, 3, 1, 2, 2, 1, 3, 3], [1, 1, 1, 1, 1, 1, 1, 1, 1, 1, 1, 1], [2, -1, -1, 2, 0, 0, -2, 1, 1, -2, 0, 0]) == 0
  {
  }

  lemma D6hPair1_1()
    ensures Inner([1, 2, 2, 1, 3, 3, 1, 2, 2, 1, 3, 3], [1, 1, 1, 1, -1, -1, 1, 1, 1, 1, -1, -1], [1, 1, 1, 1, -1, -1, 1, 1, 1, 1, -1, -1]) == 24
  {
  }

  lemma D6hPair1_2()
    ensures Inner([1, 2, 2, 1, 3, 3, 1, 2, 2, 1, 3, 3], [1, 1, 1, 1, -1, -1, 1, 1, 1, 1, -1, -1], [1, -1, 1, -1, 1, -1, 1, -1, 1, -1, 1, -1]) == 0
  {
  }

  lemma D6hPair1_3()
    ensures Inner([1, 2, 2, 1, 3, 3, 1, 2, 2, 1, 3, 3], [1, 1, 1, 1, -1, -1, 1, 1, 1, 1, -1, -1], [1, -1, 1, -1, -1, 1, 1, -1, 1, -1, -1, 1]) == 0
  {
  }

  lemma D6hPair1_4()
    ensures Inner([1, 2, 2, 1, 3, 3, 1, 2, 2, 1, 3, 3], [1, 1, 1, 1, -1, -1, 1, 1, 1, 1, -1, -1], [2, 1, -1, -2, 0, 0, 2, 1, -1, -2, 0, 0]) == 0
  {
  }

  lemma D6hPair1_5()
    ensures Inner([1, 2, 2, 1, 3, 3, 1, 2, 2, 1, 3, 3], [1, 1, 1, 1, -1, -1, 1, 1, 1, 1, -1, -1], [2, -1, -1, 2, 0, 0, 2, -1, -1, 2, 0, 0]) == 0
  {
  }

  lemma D6hPair1_6()
    ensures Inner([1, 2, 2, 1, 3, 3, 1, 2, 2, 1, 3, 3], [1, 1, 1, 1, -1, -1, 1, 1, 1, 1, -1, -1], [1, 1, 1, 1, 1, 1, -1, -1, -1, -1, -1, -1]) == 0
  {
  }

  lemma D6hPair1_7()
    ensures Inner([1, 2, 2, 1, 3, 3, 1, 2, 2, 1, 3, 3], [1, 1, 1, 1, -1, -1, 1, 1, 1, 1, -1, -1], [1, 1, 1, 1, -1, -1, -1, -1, -1, -1, 1, 1]) == 0
  {
  }

  lemma D6hPair1_8()
    ensures Inner([1, 2, 2, 1, 3, 3, 1, 2, 2, 1, 3, 3], [1, 1, 1, 1, -1, -1, 1, 1, 1, 1, -1, -1], [1, -1, 1, -1, 1, -1, -1, 1, -1, 1, -1, 1]) == 0
  {
  }

  lemma D6hPair1_9()
    ensures Inner([1, 2, 2, 1, 3, 3, 1, 2, 2, 1, 3, 3], [1, 1, 1, 1, -1, -1, 1, 1, 1, 1, -1, -1], [1, -1, 1, -1, -1, 1, -1, 1, -1, 1, 1, -1]) == 0
  {
  }

  lemma D6hPair1_10()
    ensures Inner([1, 2, 2, 1, 3, 3, 1, 2, 2, 1, 3, 3], [1, 1, 1, 1, -1, -1, 1, 1, 1, 1, -1, -1], [2, 1, -1, -2, 0, 0, -2, -1, 1, 2, 0, 0]) == 0
  {
  }

  lemma D6hPair1_11()
    ensures Inner([1, 2, 2, 1, 3, 3, 1, 2, 2, 1, 3, 3], [1, 1, 1, 1, -1, -1, 1, 1, 1, 1, -1, -1], [2, -1, -1, 2, 0, 0, -2, 1, 1, -2, 0, 0]) == 0
  {
  }

  lemma D6hPair2_2()
    ensures Inner([1, 2, 2, 1, 3, 3, 1, 2, 2, 1, 3, 3], [1, -1, 1, -1, 1, -1, 1, -1, 1, -1, 1, -1], [1, -1, 1, -1, 1, -1, 1, -1, 1, -1, 1, -1]) == 24
  {
  }

  lemma D6hPair2_3()
    ensures Inner([1, 2, 2, 1, 3, 3, 1, 2, 2, 1, 3, 3], [1, -1, 1, -1, 1, -1, 1, -1, 1, -1, 1, -1], [1, -1, 1, -1, -1, 1, 1, -1, 1, -1, -1, 1]) == 0
  {
  }

  lemma D6hPair2_4()
    ensures Inner([1, 2, 2, 1, 3, 3, 1, 2, 2, 1, 3, 3], [1, -1, 1, -1, 1, -1, 1, -1, 1, -1, 1, -1], [2, 1, -1, -2, 0, 0, 2, 1, -1, -2, 0, 0]) == 0
  {
  }

  lemma D6hPair2_5()
    ensures Inner([1, 2, 2, 1, 3, 3, 1, 2, 2, 1, 3, 3], [1, -1, 1, -1, 1, -1, 1, -1, 1, -1, 1, -1], [2, -1, -1, 2, 0, 0, 2, -1, -1, 2, 0, 0]) == 0
  {
  }

  lemma D6hPair2_6()
    ensures Inner([1, 2, 2, 1, 3, 3, 1, 2, 2, 1, 3, 3], [1, -1, 1, -1, 1, -1, 1, -1, 1, -1, 1, -1], [1, 1, 1, 1, 1, 1, -1, -1, -1, -1, -1, -1]) == 0
  {
  }

  lemma D6hPair2_7()
    ensures Inner([1, 2, 2, 1, 3, 3, 1, 2, 2, 1, 3, 3], [1, -1, 1, -1, 1, -1, 1, -1, 1, -1, 1, -1], [1, 1, 1, 1, -1, -1, -1, -1, -1, -1, 1, 1]) == 0
  {
  }

  lemma D6hPair2_8()
    ensures Inner([1, 2, 2, 1, 3, 3, 1, 2, 2, 1, 3, 3], [1, -1, 1, -1, 1, -1, 1, -1, 1, -1, 1, -1], [1, -1, 1, -1, 1, -1, -1, 1, -1, 1, -1, 1]) == 0
  {
  }

  lemma D6hPair2_9()
    ensures Inner([1, 2, 2, 1, 3, 3, 1, 2, 2, 1, 3, 3], [1, -1, 1, -1, 1, -1, 1, -1, 1, -1, 1, -1], [1, -1, 1, -1, -1, 1, -1, 1, -1, 1, 1, -1]) == 0
  {
  }

  lemma D6hPair2_10()
    ensures Inner([1, 2, 2, 1, 3, 3, 1, 2, 2, 1, 3, 3], [1, -1, 1, -1, 1, -1, 1, -1, 1, -1, 1, -1], [2, 1, -1, -2, 0, 0, -2, -1, 1, 2, 0, 0]) == 0
  {
  }

  lemma D6hPair2_11()
    ensures Inner([1, 2, 2, 1, 3, 3, 1, 2, 2, 1, 3, 3], [1, -1, 1, -1, 1, -1, 1, -1, 1, -1, 1, -1], [2, -1, -1, 2, 0, 0, -2, 1, 1, -2, 0, 0]) == 0
  {
  }

  lemma D6hPair3_3()
    ensures Inner([1, 2, 2, 1, 3, 3, 1, 2, 2, 1, 3, 3], [1, -1, 1, -1, -1, 1, 1, -1, 1, -1, -1, 1], [1, -1, 1, -1, -1, 1, 1, -1, 1, -1, -1, 1]) == 24
  {
  }

  lemma D6hPair3_4()
    ensures Inner([1, 2, 2, 1, 3, 3, 1, 2, 2, 1, 3, 3], [1, -1, 1, -1, -1, 1, 1, -1, 1, -1, -1, 1], [2, 1, -1, -2, 0, 0, 2, 1, -1, -2, 0, 0]) == 0
  {
  }

  lemma D6hPair3_5()
    ensures Inner([1, 2, 2, 1, 3, 3, 1, 2, 2, 1, 3, 3], [1, -1, 1, -1, -1, 1, 1, -1, 1, -1, -1, 1], [2, -1, -1, 2, 0, 0, 2, -1, -1, 2, 0, 0]) == 0
  {
  }

  lemma D6hPair3_6()
    ensures Inner([1, 2, 2, 1, 3, 3, 1, 2, 2, 1, 3, 3], [1, -1, 1, -1, -1, 1, 1, -1, 1, -1, -1, 1], [1, 1, 1, 1, 1, 1, -1, -1, -1, -1, -1, -1]) == 0
  {
  }

  lemma D6hPair3_7()
    ensures Inner([1, 2, 2, 1, 3, 3, 1, 2, 2, 1, 3, 3], [1, -1, 1, -1, -1, 1, 1, -1, 1, -1, -1, 1], [1, 1, 1, 1, -1, -1, -1, -1, -1, -1, 1, 1]) == 0
  {
  }

  lemma D6hPair3_8()
    ensures Inner([1, 2, 2, 1, 3, 3, 1, 2, 2, 1, 3, 3], [1, -1, 1, -1, -1, 1, 1, -1, 1, -1, -1, 1], [1, -1, 1, -1, 1, -1, -1, 1, -1, 1, -1, 1]) == 0
  {
  }

  lemma D6hPair3_9()
    ensures Inner([1, 2, 2, 1, 3, 3, 1, 2, 2, 1, 3, 3], [1, -1, 1, -1, -1, 1, 1, -1, 1, -1, -1, 1], [1, -1, 1, -1, -1, 1, -1, 1, -1, 1, 1, -1]) == 0
  {
  }

  lemma D6hPair3_10()
    ensures Inner([1, 2, 2, 1, 3, 3, 1, 2, 2, 1, 3, 3], [1, -1, 1, -1, -1, 1, 1, -1, 1, -1, -1, 1], [2, 1, -1, -2, 0, 0, -2, -1, 1, 2, 0, 0]) == 0
  {
  }

  lemma D6hPair3_11()
    ensures Inner([1, 2, 2, 1, 3, 3, 1, 2, 2, 1, 3, 3], [1, -1, 1, -1, -1, 1, 1, -1, 1, -1, -1, 1], [2, -1, -1, 2, 0, 0, -2, 1, 1, -2, 0, 0]) == 0
  {
  }

  lemma D6hPair4_4()
    ensures Inner([1, 2, 2, 1, 3, 3, 1, 2, 2, 1, 3, 3], [2, 1, -1, -2, 0, 0, 2, 1, -1, -2, 0, 0], [2, 1, -1, -2, 0, 0, 2, 1, -1, -2, 0, 0]) == 24
  {
  }

  lemma D6hPair4_5()
    ensures Inner([1, 2, 2, 1, 3, 3, 1, 2, 2, 1, 3, 3], [2, 1, -1, -2, 0, 0, 2, 1, -1, -2, 0, 0], [2, -1, -1, 2, 0, 0, 2, -1, -1, 2, 0, 0]) == 0
  {
  }

  lemma D6hPair4_6()
    ensures Inner([1, 2, 2, 1, 3, 3, 1, 2, 2, 1, 3, 3], [2, 1, -1, -2, 0, 0, 2, 1, -1, -2, 0, 0], [1, 1, 1, 1, 1, 1, -1, -1, -1, -1, -1, -1]) == 0
  {
  }

  lemma D6hPair4_7()
    ensures Inner([1, 2, 2, 1, 3, 3, 1, 2, 2, 1, 3, 3], [2, 1, -1, -2, 0, 0, 2, 1, -1, -2, 0, 0], [1, 1, 1, 1, -1, -1, -1, -1, -1, -1, 1, 1]) == 0
  {
  }

  lemma D6hPair4_8()
    ensures Inner([1, 2, 2, 1, 3, 3, 1, 2, 2, 1, 3, 3], [2, 1, -1, -2, 0, 0, 2, 1, -1, -2, 0, 0], [1, -1, 1, -1, 1, -1, -1, 1, -1, 1, -1, 1]) == 0
  {
  }

  lemma D6hPair4_9()
    ensures Inner([1, 2, 2, 1, 3, 3, 1, 2, 2, 1, 3, 3], [2, 1, -1, -2, 0, 0, 2, 1, -1, -2, 0, 0], [1, -1, 1, -1, -1, 1, -1, 1, -1, 1, 1, -1]) == 0
  {
  }

  lemma D6hPair4_10()
    ensures Inner([1, 2, 2, 1, 3, 3, 1, 2, 2, 1, 3, 3], [2, 1, -1, -2, 0, 0, 2, 1, -1, -2, 0, 0], [2, 1, -1, -2, 0, 0, -2, -1, 1, 2, 0, 0]) == 0
  {
  }

  lemma D6hPair4_11()
    ensures Inner([1, 2, 2, 1, 3, 3, 1, 2, 2, 1, 3, 3], [2, 1, -1, -2, 0, 0, 2, 1, -1, -2, 0, 0], [2, -1, -1, 2, 0, 0, -2, 1, 1, -2, 0, 0]) == 0
  {
  }

  lemma D6hPair5_5()
    ensures Inner([1, 2, 2, 1, 3, 3, 1, 2, 2, 1, 3, 3], [2, -1, -1, 2, 0, 0, 2, -1, -1, 2, 0, 0], [2, -1, -1, 2, 0, 0, 2, -1, -1, 2, 0, 0]) == 24
  {
  }

  lemma D6hPair5_6()
    ensures Inner([1, 2, 2, 1, 3, 3, 1, 2, 2, 1, 3, 3], [2, -1, -1, 2, 0, 0, 2, -1, -1, 2, 0, 0], [1, 1, 1, 1, 1, 1, -1, -1, -1, -1, -1, -1]) == 0
  {
  }

  lemma D6hPair5_7()
    ensures Inner([1, 2, 2, 1, 3, 3, 1, 2, 2, 1, 3, 3], [2, -1, -1, 2, 0, 0, 2, -1, -1, 2, 0, 0], [1, 1, 1, 1, -1, -1, -1, -1, -1, -1, 1, 1]) == 0
  {
  }

  lemma D6hPair5_8()
    ensures Inner([1, 2, 2, 1, 3, 3, 1, 2, 2, 1, 3, 3], [2, -1, -1, 2, 0, 0, 2, -1, -1, 2, 0, 0], [1, -1, 1, -1, 1, -1, -1, 1, -1, 1, -1, 1]) == 0
  {
  }

  lemma D6hPair5_9()
    ensures Inner([1, 2, 2, 1, 3, 3, 1, 2, 2, 1, 3, 3], [2, -1, -1, 2, 0, 0, 2, -1, -1, 2, 0, 0], [1, -1, 1, -1, -1, 1, -1, 1, -1, 1, 1, -1]) == 0
  {
  }

  lemma D6hPair5_10()
    ensures Inner([1, 2, 2, 1, 3, 3, 1, 2, 2, 1, 3, 3], [2, -1, -1, 2, 0, 0, 2, -1, -1, 2, 0, 0], [2, 1, -1, -2, 0, 0, -2, -1, 1, 2, 0, 0]) == 0
  {
  }

  lemma D6hPair5_11()
    ensures Inner([1, 2, 2, 1, 3, 3, 1, 2, 2, 1, 3, 3], [2, -1, -1, 2, 0, 0, 2, -1, -1, 2, 0, 0], [2, -1, -1, 2, 0, 0, -2, 1, 1, -2, 0, 0]) == 0
  {
  }

  lemma D6hPair6_6()
    ensures Inner([1, 2, 2, 1, 3, 3, 1, 2, 2, 1, 3, 3], [1, 1, 1, 1, 1, 1, -1, -1, -1, -1, -1, -1], [1, 1, 1, 1, 1, 1, -1, -1, -1, -1, -1, -1]) == 24
  {
  }

  lemma D6hPair6_7()
    ensures Inner([1, 2, 2, 1, 3, 3, 1, 2, 2, 1, 3, 3], [1, 1, 1, 1, 1, 1, -1, -1, -1, -1, -1, -1], [1, 1, 1, 1, -1, -1, -1, -1, -1, -1, 1, 1]) == 0
  {
  }

  lemma D6hPair6_8()
    ensures Inner([1, 2, 2, 1, 3, 3, 1, 2, 2, 1, 3, 3], [1, 1, 1, 1, 1, 1, -1, -1, -1, -1, -1, -1], [1, -1, 1, -1, 1, -1, -1, 1, -1, 1, -1, 1]) == 0
  {
  }

  lemma D6hPair6_9()
    ensures Inner([1, 2, 2, 1, 3, 3, 1, 2, 2, 1, 3, 3], [1, 1, 1, 1, 1, 1, -1, -1, -1, -1, -1, -1], [1, -1, 1, -1, -1, 1, -1, 1, -1, 1, 1, -1]) == 0
  {
  }

  lemma D6hPair6_10()
    ensures Inner([1, 2, 2, 1, 3, 3, 1, 2, 2, 1, 3, 3], [1, 1, 1, 1, 1, 1, -1, -1, -1, -1, -1, -1], [2, 1, -1, -2, 0, 0, -2, -1, 1, 2, 0, 0]) == 0
  {
  }

  lemma D6hPair6_11()
    ensures Inner([1, 2, 2, 1, 3, 3, 1, 2, 2, 1, 3, 3], [1, 1, 1, 1, 1, 1, -1, -1, -1, -1, -1, -1], [2, -1, -1, 2, 0, 0, -2, 1, 1, -2, 0, 0]) == 0
  {
  }

  lemma D6hPair7_7()
    ensures Inner([1, 2, 2, 1, 3, 3, 1, 2, 2, 1, 3, 3], [1, 1, 1, 1, -1, -1, -1, -1, -1, -1, 1, 1], [1, 1, 1, 1, -1, -1, -1, -1, -1, -1, 1, 1]) == 24
  {
  }

  lemma D6hPair7_8()
    ensures Inner([1, 2, 2, 1, 3, 3, 1, 2, 2, 1, 3, 3], [1, 1, 1, 1, -1, -1, -1, -1, -1, -1, 1, 1], [1, -1, 1, -1, 1, -1, -1, 1, -1, 1, -1, 1]) == 0
  {
  }

  lemma D6hPair7_9()
    ensures Inner([1, 2, 2, 1, 3, 3, 1, 2, 2, 1, 3, 3], [1, 1, 1, 1, -1, -1, -1, -1, -1, -1, 1, 1], [1, -1, 1, -1, -1, 1, -1, 1, -1, 1, 1, -1]) == 0
  {
  }

  lemma D6hPair7_10()
    ensures Inner([1, 2, 2, 1, 3, 3, 1, 2, 2, 1, 3, 3], [1, 1, 1, 1, -1, -1, -1, -1, -1, -1, 1, 1], [2, 1, -1, -2, 0, 0, -2, -1, 1, 2, 0, 0]) == 0
  {
  }

  lemma D6hPair7_11()
    ensures Inner([1, 2, 2, 1, 3, 3, 1, 2, 2, 1, 3, 3], [1, 1, 1, 1, -1, -1, -1, -1, -1, -1, 1, 1], [2, -1, -1, 2, 0, 0, -2, 1, 1, -2, 0, 0]) == 0
  {
  }

  lemma D6hPair8_8()
    ensures Inner([1, 2, 2, 1, 3, 3, 1, 2, 2, 1, 3, 3], [1, -1, 1, -1, 1, -1, -1, 1, -1, 1, -1, 1], [1, -1, 1, -1, 1, -1, -1, 1, -1, 1, -1, 1]) == 24
  {
  }

  lemma D6hPair8_9()
    ensures Inner([1, 2, 2, 1, 3, 3, 1, 2, 2, 1, 3, 3], [1, -1, 1, -1, 1, -1, -1, 1, -1, 1, -1, 1], [1, -1, 1, -1, -1, 1, -1, 1, -1, 1, 1, -1]) == 0
  {
  }

  lemma D6hPair8_10()
    ensures Inner([1, 2, 2, 1, 3, 3, 1, 2, 2, 1, 3, 3], [1, -1, 1, -1, 1, -1, -1, 1, -1, 1, -1, 1], [2, 1, -1, -2, 0, 0, -2, -1, 1, 2, 0, 0]) == 0
  {
  }

  lemma D6hPair8_11()
    ensures Inner([1, 2, 2, 1, 3, 3, 1, 2, 2, 1, 3, 3], [1, -1, 1, -1, 1, -1, -1, 1, -1, 1, -1, 1], [2, -1, -1, 2, 0, 0, -2, 1, 1, -2, 0, 0]) == 0
  {
  }

  lemma D6hPair9_9()
    ensures Inner([1, 2, 2, 1, 3, 3, 1, 2, 2, 1, 3, 3], [1, -1, 1, -1, -1, 1, -1, 1, -1, 1, 1, -1], [1, -1, 1, -1, -1, 1, -1, 1, -1, 1, 1, -1]) == 24
  {
  }

  lemma D6hPair9_10()
    ensures Inner([1, 2, 2, 1, 3, 3, 1, 2, 2, 1, 3, 3], [1, -1, 1, -1, -1, 1, -1, 1, -1, 1, 1, -1], [2, 1, -1, -2, 0, 0, -2, -1, 1, 2, 0, 0]) == 0
  {
  }

  lemma D6hPair9_11()
    ensures Inner([1, 2, 2, 1, 3, 3, 1, 2, 2, 1, 3, 3], [1, -1, 1, -1, -1, 1, -1, 1, -1, 1, 1, -1], [2, -1, -1, 2, 0, 0, -2, 1, 1, -2, 0, 0]) == 0
  {
  }

  lemma D6hPair10_10()
    ensures Inner([1, 2, 2, 1, 3, 3, 1, 2, 2, 1, 3, 3], [2, 1, -1, -2, 0, 0, -2, -1, 1, 2, 0, 0], [2, 1, -1, -2, 0, 0, -2, -1, 1, 2, 0, 0]) == 24
  {
  }

  lemma D6hPair10_11()
    ensures Inner([1, 2, 2, 1, 3, 3, 1, 2, 2, 1, 3, 3], [2, 1, -1, -2, 0, 0, -2, -1, 1, 2, 0, 0], [2, -1, -1, 2, 0, 0, -2, 1, 1, -2, 0, 0]) == 0
  {
  }

  lemma D6hPair11_11()
    ensures Inner([1, 2, 2, 1, 3, 3, 1, 2, 2, 1, 3, 3], [2, -1, -1, 2, 0, 0, -2, 1, 1, -2, 0, 0], [2, -1, -1, 2, 0, 0, -2, 1, 1, -2, 0, 0]) == 24
  {
  }

}
