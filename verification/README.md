# Beam-FEM element kernel in Dafny

A Dafny model of `FiniteElement`, the element kernel of a small 1D finite-element
code. A kernel is built from a string tag naming the element family: `'Elasticity'`
for a 2-node axial bar, or `'EB_beam'` for a 2-node Euler-Bernoulli beam with a
deflection and a rotation at each node. These operations dispatch on that tag:

- the local stiffness matrix;
- the consistent load vector for a distributed load, either one load value per
  element or one value per node;
- the local-to-global DOF (degree of freedom) scatter table;
- the strain of a bar.

Each of them raises an exception for a tag it does not support. One more
operation, the affine map from the reference interval [-1, 1] onto an element,
never reads the tag and gives the same point for every kernel.

The model has four modules:

- `ElementTypes` (element_types.dfy):
  - the tag as a datatype `ProblemType = Elasticity | EBBeam | Other(tag)`;
  - its classification from and back to a string;
  - the kernel `FiniteElement`, whose field has the subset type `Tag`: an `Other` value never carries one of the two recognised names;
  - the result type `Result<T> = Ok(T) | InvalidElementType`, which stands for the
    raised exception.
- `Kernels` (kernels.dfy): the closed-form operations over exact `real`.
  - Matrices are flat row-major `seq<real>` in the order `get_Ke` writes them: the
    bar stiffness has 4 entries and the beam stiffness 16.
  - The beam stiffness array is also related to an independent entry formula: a
    coefficient fixed by the kinds of the two DOFs, times one power of the length
    for each rotation DOF.
- `DofIndex` (dof_index.dfy):
  - the DOF table, both as a function and as the nested-loop construction the
    source uses;
  - the table's range, bijection and node-sharing facts.
- `KernelFacts` (kernel_facts.dfy): facts that relate several calls.
  - Rigid-body modes lie in the null space of each stiffness.
  - The beam stiffness is linear in EI, and its entries follow a block-wise law when
    the length is doubled.
  - The coordinate map has an inverse.
  - Strain recovery agrees with the bar stiffness.

## Model

| member | source | states |
|---|---|---|
| ElementTypes.NewFiniteElement | finite_element.py:17-25 | the kernel keeps the tag string it was given (default "Elasticity"); any string is accepted, and it is classified as Other exactly when it is neither recognised name |
| ElementTypes.Parse | finite_element.py:41-47 | the comparison chain classifies a tag as Elasticity iff it equals "Elasticity", as EBBeam iff it equals "EB_beam", and otherwise as Other |
| ElementTypes.ParseThenTagOf | finite_element.py:25 | classifying a tag loses nothing: the stored string is recovered from the classification |
| ElementTypes.TagOfThenParse | finite_element.py:41-47 | every well-formed classification is the classification of its own tag string |
| Kernels.GetKe | finite_element.py:41-47 | rejects exactly the unrecognised tags; the bar matrix is symmetric, with zero row sums and both diagonal entries A*E/le; the beam matrix has 16 entries and equals its transpose |
| Kernels.BeamStiffnessEntry | finite_element.py:44 | entry (i, j) of the beam stiffness is EIe/le^3 times the coefficient of the DOF pair (12 or -12 for two deflections, 4 or 2 for two rotations, 6 or -6 for a mixed pair), times le for each rotation DOF |
| Kernels.BeamShapeEntry | finite_element.py:44 | each entry of the array literal equals the coefficient of its DOF pair times le for each rotation DOF |
| Kernels.BeamShapeMatchesFormula | finite_element.py:44 | the whole 16-entry literal agrees with that entry formula |
| Kernels.FormulaSymmetric | finite_element.py:44 | a matrix given by the entry formula equals its transpose |
| Kernels.BeamShapeSymmetric | finite_element.py:44 | the beam array literal equals its transpose |
| Kernels.ScaleSymmetric | finite_element.py:44 | multiplying a symmetric 4x4 matrix by the factor EIe/le^3 keeps it symmetric |
| Kernels.BeamStiffnessSymmetric | finite_element.py:44 | the beam stiffness satisfies K[i*4+j] == K[j*4+i] for all i, j < 4 |
| Kernels.BeamLoad | finite_element.py:65 | the uniform beam load puts equal forces on both nodes that sum to fe*le, and opposite moments of size fe*le^2/12 |
| Kernels.GetFeOmega | finite_element.py:62-68 | rejects exactly the unrecognised tags; the two bar loads sum to le*(b1+b2)/2 and differ by le*(b1-b2)/6; the beam case is the uniform beam load |
| Kernels.PyIndex | finite_element.py:72 | Python indexing of the load table reads position i modulo the table length, for every index Python accepts |
| Kernels.GetDynamicFeOmega | finite_element.py:70-75 | succeeds exactly for EB_beam, and then equals the ordinary beam load built from the load stored at that node |
| Kernels.GetGaussQuadratureIndex | finite_element.py:77-78 | maps -1 to a, 1 to b and 0 to the midpoint, and maps [-1, 1] into [a, b] when a <= b, for every tag |
| Kernels.ReferenceCoordinate | finite_element.py:78 | the inverse of the affine map sends a to -1 and b to 1 |
| Kernels.GetStrainE | finite_element.py:111-114 | succeeds exactly for Elasticity; strain times le is the elongation d2 - d1, so the strain vanishes when d1 == d2 |
| DofIndex.GetDofIndex | finite_element.py:87-100 | rejects exactly the unrecognised tags; a bar gets the consecutive nodes [e, e+1]; a beam gets the table with row0[ii*4+jj] == 2e+ii and row1[ii*4+jj] == 2e+jj |
| DofIndex.BeamRowsFormula | finite_element.py:92-97 | the closed-form rows satisfy the entry-by-entry formula of the two loops |
| DofIndex.BuildBeamDofTable | finite_element.py:89-98 | the two nested-loop passes over zero-initialised rows produce the entry-by-entry formula, and the result equals the table GetDofIndex returns |
| DofIndex.BeamDofBounds | finite_element.py:89-98 | every entry of both rows lies in [2e, 2e+3] |
| DofIndex.BeamDofPairsEnumerated | finite_element.py:92-97 | k -> (row0[k], row1[k]) is a bijection from [0,16) onto [2e,2e+3] x [2e,2e+3], and row0 is constant on each block of four positions |
| DofIndex.BeamEntryNodes | finite_element.py:94-97 | each table entry is a DOF of node e or node e+1 |
| DofIndex.BeamDofsAreNodeDofs | finite_element.py:87-98 | the beam's global DOFs are exactly the deflection and rotation DOFs (2n, 2n+1) of the bar's two nodes: every entry belongs to one of them, and each of the four appears in both rows |
| DofIndex.AdjacentBeamsShareNode | finite_element.py:94-97 | consecutive beam elements share exactly the two DOFs 2e+2 and 2e+3 of their common node |
| KernelFacts.BarStiffnessRigidTranslation | finite_element.py:42 | a rigid translation of the bar produces no nodal forces |
| KernelFacts.BarForces | finite_element.py:42 | a bar stiffness maps displacements to equal and opposite forces k times the elongation |
| KernelFacts.BeamStiffnessRigidBodyModes | finite_element.py:44 | every rigid motion w(x) = u + theta*x, with nodal values (u, theta, u+theta*le, theta), produces no beam forces |
| KernelFacts.BeamStiffnessLinearInEI | finite_element.py:44 | scaling EIe by s scales every beam stiffness entry by s |
| KernelFacts.BeamStiffnessDoubling | finite_element.py:44 | doubling le divides the deflection-deflection entries by 8, the deflection-rotation entries by 4 and the rotation-rotation entries by 2 |
| KernelFacts.FactorDoubling | finite_element.py:44 | the factor EIe/le^3 of a beam twice as long is 8 times smaller |
| KernelFacts.BeamShapeDoubling | finite_element.py:44 | doubling le leaves the deflection-deflection entries of the array unchanged, doubles the mixed entries and quadruples the rotation-rotation entries |
| KernelFacts.FormulaEntryDoubling | finite_element.py:44 | the same block law, for one entry of the entry formula |
| KernelFacts.DoublingNotUniform | finite_element.py:44 | for EIe = 1, entry (0, 1) is 6 at le = 1 and 1.5 at le = 2: a quarter, not an eighth |
| KernelFacts.GaussMapRoundTrip | finite_element.py:77-78 | the reference coordinate inverts the affine map in both directions on a non-degenerate interval |
| KernelFacts.BarLoadUniformSplit | finite_element.py:63 | a uniform body force b puts b*le/2 on each node |
| KernelFacts.StrainMatchesStiffness | finite_element.py:111-112 | K*de of the bar is (-N, N) with axial force N = A*E*strain |
| KernelFacts.UnrecognisedTagRejected | finite_element.py:17-114 | a kernel built from any unrecognised tag is constructed, but its stiffness, load, per-node load, DOF-table and strain operations all reject it |

## Left out

- Floating point: scalars are exact `real`. IEEE-754 rounding is not modelled, and neither is a zero length. Python raises ZeroDivisionError for a float `le == 0`, while NumPy yields `inf`/`nan`. The operations that divide by `le` therefore require `le != 0`, and only for the tags that reach that division.
- NumPy shapes and dtypes: the 2x1 load column is a 2-entry sequence, and the 2x2 bar stiffness is a flat 4-entry row-major sequence.
- `np.int` on finite_element.py:90: the model assumes a NumPy that still provides it. Newer NumPy releases removed that alias, and there the beam branch of `get_dof_index` raises instead.
- Overflow of DOF indices: table entries are unbounded `int`. A fixed-width integer dtype could overflow for enormous element ids.
- Unused array: `ey` on finite_element.py:91 is never read, so it has no counterpart.
- `None` defaults: every argument is an explicit parameter. A call that leaves an argument at `None` usually fails in Python with a TypeError, but not always: with `node` omitted and a NumPy `fe`, `fe[None]` on finite_element.py:72 adds an axis instead of raising. None of these calls is modelled.
- `get_dynamic_fe_omega` parameters: it accepts `b1` and `b2` but never reads them, so the model drops them.
- Index range in `get_dynamic_fe_omega`: an out-of-range `node` raises IndexError in Python. The model makes `-|fe| <= node < |fe|` a precondition, and only for EB_beam, the only tag that indexes `fe`.
- Displacement length in `get_strain_e`: a displacement array whose length is not 2 makes the dot product raise. The model makes `|de| == 2` a precondition, and only for Elasticity.
- Exception details: the raised exception's message is not kept. Every unsupported-tag failure (the five raise sites on finite_element.py:47, 68, 75, 100 and 114) becomes `InvalidElementType`.
- Kernels.GetKe: the beam case's own contract states only size and symmetry. The individual entries are stated by the separate lemma `Kernels.BeamStiffnessEntry`, which keeps the 16 products out of the function's contract.
- KernelFacts.BeamStiffnessDoubling: states the length dependence for doubling only, not for an arbitrary factor s. The general law, that entry (i, j) scales by s^(r-3) with r the number of rotation DOFs among i and j, needs nonlinear real arithmetic that the solver does not close reliably.
- Uniform 1/8 scaling: the common factor EIe/le^3 suggests that doubling the length scales every beam entry by 1/8. Entries with rotation DOFs also carry powers of le inside the array, so only the deflection-deflection block scales by 1/8, and the model states that block law instead (`BeamStiffnessDoubling`, `DoublingNotUniform`).
- Callers: global assembly, solvers, meshing and plotting lie outside this class and are not part of this model.
