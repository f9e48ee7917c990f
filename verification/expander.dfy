/** The representation expander: from one character per conjugacy class to one
    character per operation, in the group's canonical operation order (the
    operations of class 0 first, then those of class 1, and so on). */
module Expander {
  import opened Results
  import opened CharacterTables

  /** The index of the first operation of class `c`. */
  function Start(sizes: seq<nat>, c: nat): nat
    requires c <= |sizes|
  {
    SumTo(sizes, c)
  }

  /** Classes start in order: class `c` ends no later than class `d` starts. */
  lemma {:induction false} StartMono(sizes: seq<nat>, c: nat, d: nat)
    requires c < d <= |sizes|
    ensures Start(sizes, c) + sizes[c] <= Start(sizes, d)
  {
    if c + 1 < d {
      StartMono(sizes, c, d - 1);
    }
  }

  /** Every class starts within the operations, and the operations of class `c`
      end no later than the last operation. */
  lemma StartBound(sizes: seq<nat>, c: nat)
    requires c <= |sizes|
    ensures Start(sizes, c) <= SumOf(sizes)
    ensures c < |sizes| ==> Start(sizes, c) + sizes[c] <= SumOf(sizes)
  {
    if c < |sizes| {
      StartMono(sizes, c, |sizes|);
    }
  }

  /** The class, from `c` on, that operation `k` belongs to. */
  function ClassFrom(sizes: seq<nat>, k: nat, c: nat): (r: nat)
    requires c < |sizes| && Start(sizes, c) <= k < SumOf(sizes)
    ensures c <= r < |sizes| && Start(sizes, r) <= k < Start(sizes, r) + sizes[r]
    decreases |sizes| - c
  {
    if k < Start(sizes, c) + sizes[c] then c
    else if c + 1 == |sizes| then assert false; c
    else ClassFrom(sizes, k, c + 1)
  }

  /** The class that operation `k` belongs to, when the classes hold
      `sizes[0], sizes[1], ...` consecutive operations. */
  function ClassOf(sizes: seq<nat>, k: nat): (c: nat)
    requires k < SumOf(sizes)
    ensures c < |sizes| && Start(sizes, c) <= k < Start(sizes, c) + sizes[c]
  {
    ClassFrom(sizes, k, 0)
  }

  /** Operation `k` lies in class `c` exactly when it is among the `sizes[c]`
      operations that start at Start(sizes, c). */
  lemma ClassOfRange(sizes: seq<nat>, k: nat, c: nat)
    requires k < SumOf(sizes) && c < |sizes|
    ensures ClassOf(sizes, k) == c <==> Start(sizes, c) <= k < Start(sizes, c) + sizes[c]
  {
    var d := ClassOf(sizes, k);
    if d < c {
      StartMono(sizes, d, c);
    } else if c < d {
      StartMono(sizes, c, d);
    }
  }

  /** Each class character repeated once per operation of the class. */
  function ExpandRow(row: seq<int>, sizes: seq<nat>): (r: seq<int>)
    requires |row| == |sizes|
    ensures |r| == SumOf(sizes)
  {
    seq(SumOf(sizes), k requires 0 <= k < SumOf(sizes) => row[ClassOf(sizes, k)])
  }

  /** The operations of class `c` all carry the character of class `c`. */
  lemma ExpandRowAt(row: seq<int>, sizes: seq<nat>, c: nat, k: nat)
    requires |row| == |sizes| && c < |sizes| && k < sizes[c]
    ensures Start(sizes, c) + k < |ExpandRow(row, sizes)|
    ensures ExpandRow(row, sizes)[Start(sizes, c) + k] == row[c]
  {
    StartBound(sizes, c);
    ClassOfRange(sizes, Start(sizes, c) + k, c);
  }

  /** ExpandRowAt for a whole class at once. */
  lemma ExpandRowBlock(row: seq<int>, sizes: seq<nat>, c: nat)
    requires |row| == |sizes| && c < |sizes|
    ensures Start(sizes, c) + sizes[c] <= |ExpandRow(row, sizes)|
    ensures forall k :: Start(sizes, c) <= k < Start(sizes, c) + sizes[c] ==> ExpandRow(row, sizes)[k] == row[c]
  {
    StartBound(sizes, c);
    var e, lo := ExpandRow(row, sizes), Start(sizes, c);
    forall k | lo <= k < lo + sizes[c]
      ensures e[k] == row[c]
    {
      ExpandRowAt(row, sizes, c, k - lo);
    }
  }

  /** `_expand_irreducible`: the per-operation characters of a per-class row of
      the group registered under `group`. */
  function Expand(row: seq<int>, group: string): (r: Result<seq<int>>)
    ensures group !in Registered ==> r == Err(UnknownGroup(group))
    ensures group in Registered && |row| != |Lookup(group).value.sizes| ==>
      r == Err(DimensionMismatch(|Lookup(group).value.sizes|, |row|))
    ensures r.Ok? <==> group in Registered && |row| == |Lookup(group).value.sizes|
    ensures r.Ok? ==>
      var g := Lookup(group).value;
      |row| == |g.sizes| && |r.value| == Order(g) &&
      forall k :: 0 <= k < |r.value| ==> r.value[k] == row[ClassOf(g.sizes, k)]
  {
    var g :- Lookup(group);
    if |row| != |g.sizes| then Err(DimensionMismatch(|g.sizes|, |row|))
    else Ok(ExpandRow(row, g.sizes))
  }

  /** The first character of every class block: the inverse of ExpandRow. */
  function Compress(ops: seq<int>, sizes: seq<nat>): (r: seq<int>)
    requires |ops| == SumOf(sizes)
    requires forall c :: 0 <= c < |sizes| ==> sizes[c] > 0
    ensures |r| == |sizes|
  {
    seq(|sizes|, c requires 0 <= c < |sizes| => StartBound(sizes, c); ops[Start(sizes, c)])
  }

  /** Expanding then taking the first operation of every class gives the row back. */
  lemma CompressExpand(row: seq<int>, sizes: seq<nat>)
    requires |row| == |sizes|
    requires forall c :: 0 <= c < |sizes| ==> sizes[c] > 0
    ensures Compress(ExpandRow(row, sizes), sizes) == row
  {
    var r := Compress(ExpandRow(row, sizes), sizes);
    forall c | 0 <= c < |sizes|
      ensures r[c] == row[c]
    {
      ExpandRowAt(row, sizes, c, 0);
    }
  }

  /** The documented example: the E row of C3v, one character per class
      (identity, the two C3 rotations, the three mirror planes), becomes one
      character per operation. */
  lemma ExpandC3vE()
    ensures Expand([2, -1, 0], "c3v") == Ok([2, -1, -1, 0, 0, 0])
  {
    C3vShape();
    var sizes := C3v().sizes;
    assert Start(sizes, 1) == 1 && Start(sizes, 2) == 3;
    ExpandRowBlock([2, -1, 0], sizes, 0);
    ExpandRowBlock([2, -1, 0], sizes, 1);
    ExpandRowBlock([2, -1, 0], sizes, 2);
    assert ExpandRow([2, -1, 0], sizes) == [2, -1, -1, 0, 0, 0];
  }
}
