/** Exact linear combinations of basis symbols.

    A symbol is identified by its index (the symbols of a call are numbered
    0, 1, 2, ... in the order the caller names them).  A combination is the
    sequence of its rational coefficients; positions past the end of the
    sequence have coefficient zero, so combinations of different lengths can
    be added.  This replaces the symbolic expressions of the computer-algebra
    system: two combinations denote the same expression exactly when every
    coefficient agrees. */
module Linear {
  import opened Results

  type Sym = nat
  type Lin = seq<real>

  /** The coefficient of symbol `s` in `p`. */
  function Coef(p: Lin, s: Sym): real {
    if s < |p| then p[s] else 0.0
  }

  /** `p` mentions `s` when `s` occurs in it with a non-zero coefficient. */
  predicate Mentions(p: Lin, s: Sym) {
    Coef(p, s) != 0.0
  }

  /** The zero combination: every coefficient vanishes. */
  predicate IsZero(p: Lin) {
    forall s :: 0 <= s < |p| ==> p[s] == 0.0
  }

  lemma IsZeroMeansNoMention(p: Lin)
    ensures IsZero(p) <==> forall s: Sym :: !Mentions(p, s)
  {
    if !IsZero(p) {
      var s :| 0 <= s < |p| && p[s] != 0.0;
      assert Mentions(p, s);
    }
  }

  function Max(x: nat, y: nat): nat {
    if x < y then y else x
  }

  /** Term-by-term sum of two combinations. */
  function Add(p: Lin, q: Lin): (r: Lin)
    ensures |r| == Max(|p|, |q|)
    ensures forall s: Sym :: Coef(r, s) == Coef(p, s) + Coef(q, s)
  {
    seq(Max(|p|, |q|), i requires 0 <= i => Coef(p, i) + Coef(q, i))
  }

  /** Every coefficient multiplied by `c`. */
  function Scale(c: real, p: Lin): (r: Lin)
    ensures |r| == |p|
    ensures forall s: Sym :: Coef(r, s) == c * Coef(p, s)
  {
    seq(|p|, i requires 0 <= i < |p| => c * p[i])
  }

  /** The length of the longest of ps[k], ps[k + 1], ... */
  function WidthFrom(ps: seq<Lin>, k: nat): nat
    requires k <= |ps|
    decreases |ps| - k
  {
    if k == |ps| then 0 else Max(|ps[k]|, WidthFrom(ps, k + 1))
  }

  /** The length of the longest combination in `ps`. */
  function Width(ps: seq<Lin>): nat {
    WidthFrom(ps, 0)
  }

  /** When every combination has length `n`, so does the widest. */
  lemma {:induction false} WidthUniform(ps: seq<Lin>, n: nat, k: nat)
    requires k < |ps| && forall j :: 0 <= j < |ps| ==> |ps[j]| == n
    ensures WidthFrom(ps, k) == n
    decreases |ps| - k
  {
    if k + 1 < |ps| {
      WidthUniform(ps, n, k + 1);
    }
  }

  /** The bare symbol `s`, written over the `n` symbols of a call. */
  function Unit(s: Sym, n: nat): (r: Lin)
    requires s < n
    ensures |r| == n
    ensures forall t: Sym :: Coef(r, t) == if t == s then 1.0 else 0.0
  {
    seq(n, t requires 0 <= t < n => if t == s then 1.0 else 0.0)
  }

  /** Two combinations of the same length are equal when all their coefficients agree. */
  lemma Extensionality(p: Lin, q: Lin)
    requires |p| == |q|
    requires forall s: Sym :: Coef(p, s) == Coef(q, s)
    ensures p == q
  {
    forall i | 0 <= i < |p|
      ensures p[i] == q[i]
    {
      assert Coef(p, i) == Coef(q, i);
    }
  }

  /** Adding the empty combination changes nothing. */
  lemma AddEmpty(q: Lin)
    ensures Add(q, []) == q
  {
    Extensionality(Add(q, []), q);
  }

  /** Rescaling twice is rescaling once by the product. */
  lemma ScaleScale(c: real, d: real, p: Lin)
    ensures Scale(c, Scale(d, p)) == Scale(c * d, p)
  {
    forall s: Sym
      ensures Coef(Scale(c, Scale(d, p)), s) == Coef(Scale(c * d, p), s)
    {
      calc {
        Coef(Scale(c, Scale(d, p)), s);
        c * (d * Coef(p, s));
        (c * d) * Coef(p, s);
      }
    }
    Extensionality(Scale(c, Scale(d, p)), Scale(c * d, p));
  }

  lemma ScaleOne(p: Lin)
    ensures Scale(1.0, p) == p
  {
    Extensionality(Scale(1.0, p), p);
  }

  /** The first symbol from `k` on that `p` mentions, if any. */
  function PivotFrom(p: Lin, k: nat): (r: Option<Sym>)
    requires k <= |p|
    ensures r.None? <==> forall t :: k <= t < |p| ==> p[t] == 0.0
    ensures r.Some? ==> k <= r.value < |p| && p[r.value] != 0.0 && forall t :: k <= t < r.value ==> p[t] == 0.0
    decreases |p| - k
  {
    if k == |p| then None
    else if p[k] != 0.0 then Some(k)
    else PivotFrom(p, k + 1)
  }

  /** The first symbol `p` mentions, if any. */
  function Pivot(p: Lin): (r: Option<Sym>)
    ensures r.None? <==> IsZero(p)
    ensures r.Some? ==> Mentions(p, r.value) && forall t: Sym :: t < r.value ==> !Mentions(p, t)
  {
    PivotFrom(p, 0)
  }
}
