# Symmetry-adapted linear combinations by projection

A Dafny model of the projection core of chempy's symmetry package:

- `_expand_irreducible` turns a character row given per conjugacy class into
  one character per operation.
- `calc_salcs_projection` applies the reduction formula to a
  transformed-basis vector. It yields one symmetry-adapted linear combination
  (SALC) per irreducible representation of the point group, in table order.

`Expander.Expand` and `Projection.Project` model these two functions of
`chempy/symmetry/salcs.py`. Their successful calls are reconstructed from the
assertions in `chempy/symmetry/tests/test_salcs.py`; their error cases are
this model's own (see "Left out"). The character tables they
read are the standard published tables, held as data in `tables.dfy` and proved
orthonormal. The model is proved to reproduce every documented call of
`calc_salcs_projection`, and to satisfy the general projection properties
(invariant and sign-alternating transformed bases) for every registered group.

## Structure

- `results.dfy` (`Results`) holds the error taxonomy (`UnknownGroup`,
  `DimensionMismatch`) and the `Result`/`Option` wrappers.
- `linear.dfy` (`Linear`) represents exact linear combinations of basis
  symbols. A symbol is a natural-number index. A combination is its sequence
  of rational (`real`) coefficients, and missing positions count as zero.
  This stands in for sympy expressions. Two combinations written over the
  same symbols (the same width) are equal exactly when all their coefficients
  agree; Dafny's `==` on combinations also compares the width, so the same
  expression written over one extra unused symbol is a different value.
- `tables.dfy` (`CharacterTables`) is the registry of character tables: c2v,
  c3v, d3h, d4h and d6h. Each table has classes with their sizes and
  irreducible representations with integer characters. Each table is proved
  well formed:
  - class sizes are positive;
  - every row has one character per class and starts with its positive
    dimension;
  - the first row is totally symmetric;
  - every other row sums to zero over the group.

  The end of the file restates each table's class sizes and rows as literal
  equations, which the other proofs use.
- `expander.dfy` (`Expander`) holds the class-to-operation expansion and its
  inverse.
- `projection.dfy` (`Projection`) holds the projection engine. For each
  irreducible representation `i` it forms the raw sum Σ_k χ_i(k)·v[k] over
  the operations `k`. It then normalises that sum:
  - a sum that cancels is reported as `Zero`;
  - otherwise the sum is divided by the coefficient of the reference symbol,
    which is the first (lowest-numbered) symbol that the identity image `v[0]`
    mentions;
  - when the sum does not mention the reference symbol, it is scaled by
    d/h as in the textbook projection operator.

  This module also shows the reduction formula class by class, which is how
  the scenario proofs evaluate it.
- `orthogonality.dfy` (`TableOrthogonality`) proves the first orthogonality
  relation for every registered table: the class-size-weighted product of
  rows i and j is h when i = j and 0 otherwise.
- `patterns.dfy` (`Patterns`) proves what the projection does to a
  transformed basis that follows a character pattern. When every operation
  leaves the reference function unchanged, only the totally symmetric
  representation survives. When operation k maps it to χ_j(k) · p, only
  representation j survives. For a one-dimensional j this is a
  sign-alternating basis.
- `scenarios.dfy` (`Scenarios`) replays all seven documented calls of
  `calc_salcs_projection`. Each scenario:
  - writes the transformed basis one block per class;
  - collects what the projection depends on in a predicate: the input
    length, the per-class totals of every symbol and the reference symbol;
  - evaluates every raw sum coefficient by coefficient from those totals and
    normalises it, which fixes the result for every input of that shape;
  - concludes with `Project(input, group) == Ok(expected)` for the documented
    input.

## Model

| member | source | states |
|---|---|---|
| CharacterTables.Lookup | chempy/symmetry/tests/test_salcs.py:15-49 | A group name resolves exactly when it is one of c2v, c3v, d3h, d4h, d6h, and any other name fails with UnknownGroup. The table returned carries the requested name and is well formed: positive class sizes, one character per class, positive dimensions at the identity class, a totally symmetric first row, and every other row orthogonal to it. |
| CharacterTables.IrrepCounts | chempy/symmetry/tests/test_salcs.py:15-49 | The tables have 4 (c2v), 3 (c3v), 6 (d3h), 10 (d4h) and 12 (d6h) irreducible representations, which is the length of each expected result list. |
| CharacterTables.C3vWellFormed | chempy/symmetry/tests/test_salcs.py:93 | The c3v table is well formed and has order 6, the length of the expanded E row. |
| CharacterTables.D3hWellFormed | chempy/symmetry/tests/test_salcs.py:20-24 | The d3h table is well formed and has order 12, the length of both bipyramid inputs. |
| CharacterTables.D4hWellFormed | chempy/symmetry/tests/test_salcs.py:29-30 | The d4h table is well formed and has order 16, the length of the square-planar input. |
| CharacterTables.D6hWellFormed | chempy/symmetry/tests/test_salcs.py:35-37 | The d6h table is well formed and has order 24, the length of the benzene input. |
| CharacterTables.C2vWellFormed | chempy/symmetry/tests/test_salcs.py:44-49 | The c2v table is well formed and has order 4, the length of both butadiene inputs. |
| Expander.Expand | chempy/symmetry/tests/test_salcs.py:92-93 | Expansion fails with UnknownGroup for an unregistered group and with DimensionMismatch when the row does not have one entry per class. It succeeds exactly when the group is registered and the row has one entry per class; then the output has one entry per operation (length = group order), and the entry for operation k is the character of the class k belongs to. |
| Expander.ExpandRowAt | chempy/symmetry/tests/test_salcs.py:93 | Operation Start(c)+k, for k below the size of class c, carries the character of class c: each character is repeated once per operation of its class, in class order. |
| Expander.ClassOfRange | chempy/symmetry/tests/test_salcs.py:93 | Operation k belongs to class c if and only if it lies in c's block of operations, so the blocks partition the operations. |
| Expander.CompressExpand | chempy/symmetry/tests/test_salcs.py:93 | Reading the first operation of every class block of an expanded row gives the per-class row back, so the expansion loses nothing. |
| Expander.ExpandC3vE | chempy/symmetry/tests/test_salcs.py:93 | The E row [2, -1, 0] of c3v expands to [2, -1, -1, 0, 0, 0]. |
| Linear.Pivot | chempy/symmetry/tests/test_salcs.py:14-16 | The reference symbol of a combination is the first symbol it mentions. There is none exactly when the combination is zero. |
| Projection.Normalise | chempy/symmetry/tests/test_salcs.py:15-16 | A raw sum becomes Zero if and only if it cancels. Otherwise the result is a non-zero multiple of the raw sum and mentions exactly the symbols the raw sum mentions. When the raw sum mentions the reference symbol, that symbol's coefficient in the result is 1 (a + b + c rather than (a + b + c)/3). |
| Projection.ProjectAll | chempy/symmetry/tests/test_salcs.py:15-49 | There is one result per irreducible representation, in table order. Result i is Zero if and only if its raw sum cancels. Otherwise it is a non-zero multiple of the raw sum, mentions exactly the symbols of the raw sum, and has coefficient 1 on the reference symbol whenever the raw sum mentions it. |
| Projection.Project | chempy/symmetry/tests/test_salcs.py:15-49 | Projection fails with UnknownGroup for an unregistered group and with DimensionMismatch when the input does not have one entry per operation. Otherwise it returns the per-representation results of ProjectAll. |
| Projection.ProjectMentionsInput | chempy/symmetry/tests/test_salcs.py:42-49 | Every symbol a projection mentions occurs in some entry of the input, so inequivalent sets projected separately never mix symbols. |
| Projection.RawMentionsInput | chempy/symmetry/tests/test_salcs.py:42-49 | A raw reduction-formula sum mentions only symbols that some entry of the input mentions. |
| Projection.Raw | chempy/symmetry/tests/test_salcs.py:15-16 | The raw sum for representation i is as wide as the widest input entry. The coefficient of each symbol s in it is Σ_c χ_i(c) · (the total coefficient of s over the operations of class c): the reduction formula evaluated class by class. |
| Projection.ClassForm | chempy/symmetry/tests/test_salcs.py:93 | Weighting a per-operation quantity by an expanded row equals weighting its per-class totals by the class characters. |
| Projection.BlockClassTotals | chempy/symmetry/tests/test_salcs.py:15-49 | For an input written one block per class, the per-class totals of a symbol's coefficients are the totals of the blocks, and the input's length is the sum of the class sizes. |
| Projection.RawFromCoefs | chempy/symmetry/tests/test_salcs.py:15-16 | A raw sum is fixed by its coefficients: when Σ_c χ(c) · (class total of s) equals raw[s] for every symbol s, the raw reduction-formula sum is exactly raw. |
| TableOrthogonality.RegisteredOrthonormal | chempy/symmetry/tests/test_salcs.py:15-49 | Every registered table is orthonormal: for all rows i and j, Σ_c size(c) · χ_i(c) · χ_j(c) is the group order when i = j and 0 otherwise. |
| Patterns.ExpandedProduct | chempy/symmetry/tests/test_salcs.py:93 | Summed over the operations, the product of two expanded rows equals their class-size-weighted product summed over the classes. |
| Patterns.WeightedMultiples | chempy/symmetry/tests/test_salcs.py:15-16 | When entry k of the transformed basis is f[k] · p, weighting it by w[k] gives p rescaled by Σ_k w[k] · f[k]. |
| Patterns.PatternRaw | chempy/symmetry/tests/test_salcs.py:15-16 | When operation k maps the reference function to χ_j(k) · p, the raw sum for representation i is p rescaled by the weighted product of rows i and j. |
| Patterns.InvariantRaw | chempy/symmetry/tests/test_salcs.py:15-16 | When every entry of the transformed basis is p, the totally symmetric raw sum is h · p and every other raw sum cancels, because every other row sums to zero over the group. |
| Patterns.InvariantProjection | chempy/symmetry/tests/test_salcs.py:15-16 | For an invariant transformed basis, the totally symmetric result is p rescaled to coefficient 1 on its first symbol (p itself when that coefficient is already 1, Zero when p is zero), and every other result is Zero. |
| Patterns.NormaliseMultiple | chempy/symmetry/tests/test_salcs.py:15-16 | Normalising h · p against the first symbol of p gives p rescaled to coefficient 1 on that symbol, or Zero when p is zero. |
| Patterns.OrthogonalRaw | chempy/symmetry/tests/test_salcs.py:15-16 | In an orthonormal table, the raw sum for representation i of a basis that follows row j is h · p when i = j and cancels otherwise. |
| Patterns.FollowsProjection | chempy/symmetry/tests/test_salcs.py:15-16 | In an orthonormal table, projecting a basis that follows row j gives p rescaled to coefficient 1 on its first symbol for j, and Zero for every other representation. |
| Patterns.ProjectInvariant | chempy/symmetry/tests/test_salcs.py:15-16 | For every registered group, calc_salcs_projection of an invariant transformed basis succeeds, gives the normalised p for the totally symmetric representation and Zero for all the others. |
| Patterns.ProjectFollowing | chempy/symmetry/tests/test_salcs.py:42-49 | For every registered group, calc_salcs_projection of a basis that follows representation j succeeds, gives the normalised p for j and Zero for every other representation. |
| Patterns.AlternatingC2v | chempy/symmetry/tests/test_salcs.py:42-49 | In c2v the sign-alternating basis [p, -p, p, -p] projects to the normalised p for B1 and to Zero for A1, A2 and B2. |
| Scenarios.Ammonia | chempy/symmetry/tests/test_salcs.py:14-16 | [a, b, c, a, b, c] in c3v projects to [a + b + c, 0, a - b/2 - c/2]. |
| Scenarios.AmmoniaFor | chempy/symmetry/tests/test_salcs.py:14-16 | Every c3v input over a, b, c whose identity image mentions a first and whose per-class totals of a, b, c match [a, b, c, a, b, c] projects to [a + b + c, 0, a - b/2 - c/2]: the result depends on the input only through these totals. |
| Scenarios.BipyramidEquatorial | chempy/symmetry/tests/test_salcs.py:19-22 | The twelve signed images of e1, e2, e3 in d3h project to [0, 0, 0, 0, e1 + e2 + e3, e1 - e2/2 - e3/2]. |
| Scenarios.BipyramidEquatorialFor | chempy/symmetry/tests/test_salcs.py:19-22 | Every d3h input with the same per-class symbol totals and reference symbol as the equatorial input projects to the same six results. |
| Scenarios.BipyramidAxial | chempy/symmetry/tests/test_salcs.py:23-25 | The twelve signed images of a1, a2 in d3h project to [a1 - a2, 0, 0, 0, a1 + a2, 0]. |
| Scenarios.BipyramidAxialFor | chempy/symmetry/tests/test_salcs.py:23-25 | Every d3h input with the same per-class symbol totals and reference symbol as the axial input projects to the same six results. |
| Scenarios.SquarePlanar | chempy/symmetry/tests/test_salcs.py:27-31 | The sixteen images of a, b, c, d in d4h project to [a + b + c + d, 0, a - b + c - d, 0, 0, 0, 0, 0, 0, a - c]. |
| Scenarios.SquarePlanarFor | chempy/symmetry/tests/test_salcs.py:27-31 | Every d4h input with the same per-class symbol totals and reference symbol as the square-planar input projects to the same ten results. |
| Scenarios.Benzene | chempy/symmetry/tests/test_salcs.py:33-40 | The twenty-four signed images of a … f in d6h project to [0, 0, 0, a - b + c - d + e - f, a + b/2 - c/2 - d - e/2 + f/2, 0, 0, a + b + c + d + e + f, 0, 0, 0, a - b/2 - c/2 + d - e/2 - f/2]. |
| Scenarios.BenzeneFor | chempy/symmetry/tests/test_salcs.py:33-40 | Every d6h input with the same per-class symbol totals and reference symbol as the benzene input projects to the same twelve results. |
| Scenarios.ButadieneOuter | chempy/symmetry/tests/test_salcs.py:43-47 | [a, -d, -a, d] in c2v projects to [0, a - d, 0, a + d]. |
| Scenarios.ButadieneOuterFor | chempy/symmetry/tests/test_salcs.py:43-47 | Every c2v input with the same per-class symbol totals and reference symbol as the outer input projects to the same four results. |
| Scenarios.ButadieneInner | chempy/symmetry/tests/test_salcs.py:48-49 | [b, -c, -b, c] in c2v projects to [0, b - c, 0, b + c]. |
| Scenarios.ButadieneInnerFor | chempy/symmetry/tests/test_salcs.py:48-49 | Every c2v input with the same per-class symbol totals and reference symbol as the inner input projects to the same four results. |

## Left out

- Normalise: the code of `chempy/symmetry/salcs.py` is modelled from its documented calls, so its normalisation rule is inferred from the expected outputs in test_salcs.py. The rule is: divide by the coefficient of the first (lowest-numbered) symbol that the identity image `v[0]` mentions, and fall back to d/h when that coefficient is zero. Every documented call agrees with this rule, but the module's own code could differ on inputs those calls do not cover.
- The character tables in `tables.dfy` are the standard published tables, taken as data, in the irreducible-representation order the expected outputs imply. Their well-formedness and orthonormality are proved; their agreement with chempy's own table files is not.
- The `oh` table and the other groups are not modelled: no replayed call uses them.
- Characters are integers. The registered tables need nothing else, so the exact non-integer characters of icosahedral-type groups are not represented.
- Group names match exactly, with no case folding, as the documented calls use them.
- sympy is replaced by coefficient sequences. Expression printing, term ordering and symbolic simplification are not modelled: results are compared with Dafny's `==`, which is equality of every coefficient at the width of the input (`Width(v)`), not sympy's width-free equality of expressions. The documented results are stated over exactly the symbols of their inputs.
- `calc_salcs_func` (test_salcs.py:52-89) is not modelled. It involves orbit discovery from geometry, operation matrices applied with a floating-point matching tolerance, separate degenerate components, and float coefficients such as 0.5*e2.
- `_angles_to_vectors` (test_salcs.py:96-99) is not modelled: it is floating-point trigonometry.
- Expander.Expand, Projection.Project: no documented call uses an unknown group name or a row or vector of the wrong length. `UnknownGroup` and `DimensionMismatch`, and the conditions that raise them, are this model's own choice; what `chempy/symmetry/salcs.py` does in those cases (raise, or silently truncate when zipping against the class sizes) is not established.
