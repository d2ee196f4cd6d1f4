/**
 Closed-form element kernels of `FiniteElement`: local stiffness matrices,
 distributed-load vectors, the reference-to-physical coordinate map and bar
 strain recovery. Scalars are exact reals; matrices are flattened row-major
 into `seq<real>` in the order `get_Ke` writes them out.
 */
module Kernels {
  import opened ElementTypes

  // ---------------------------------------------------------------------------
  // Matrix helpers
  // ---------------------------------------------------------------------------

  /** Flat position of entry (i, j) of a row-major 4x4 matrix. */
  function Flat4(i: int, j: int): int {
    i * 4 + j
  }

  /** Entry (i, j) of a row-major 4x4 matrix. */
  function At4(m: seq<real>, i: int, j: int): real
    requires |m| == 16 && 0 <= i < 4 && 0 <= j < 4
  {
    m[Flat4(i, j)]
  }

  /** A flattened 4x4 matrix equal to its transpose. */
  predicate Symmetric4(m: seq<real>)
    requires |m| == 16
  {
    forall i, j :: 0 <= i < 4 && 0 <= j < 4 ==> At4(m, i, j) == At4(m, j, i)
  }

  /** Row i of a flattened 4x4 matrix applied to a vector of four values. */
  function RowTimes4(m: seq<real>, i: int, v: seq<real>): real
    requires |m| == 16 && 0 <= i < 4 && |v| == 4
  {
    At4(m, i, 0) * v[0] + At4(m, i, 1) * v[1] + At4(m, i, 2) * v[2] + At4(m, i, 3) * v[3]
  }

  /** The product of a flattened 4x4 matrix with a vector of four values. */
  function MatVec4(m: seq<real>, v: seq<real>): (r: seq<real>)
    requires |m| == 16 && |v| == 4
    ensures |r| == 4
  {
    [RowTimes4(m, 0, v), RowTimes4(m, 1, v), RowTimes4(m, 2, v), RowTimes4(m, 3, v)]
  }

  /** The product of a flattened 2x2 matrix with a vector of two values. */
  function MatVec2(m: seq<real>, v: seq<real>): (r: seq<real>)
    requires |m| == 4 && |v| == 2
    ensures |r| == 2
  {
    [m[0] * v[0] + m[1] * v[1], m[2] * v[0] + m[3] * v[1]]
  }

  /** The shape of a 2-node bar stiffness with axial stiffness k: symmetric,
      each row summing to zero, both diagonal entries equal to k. */
  predicate BarStiffnessShape(m: seq<real>, k: real) {
    && |m| == 4
    && m[1] == m[2]
    && m[0] + m[1] == 0.0
    && m[2] + m[3] == 0.0
    && m[0] == k
    && m[3] == k
  }

  // ---------------------------------------------------------------------------
  // Stiffness
  // ---------------------------------------------------------------------------

  /** Every entry of v multiplied by c. */
  function Scale(c: real, v: seq<real>): (r: seq<real>)
    ensures |r| == |v|
    ensures forall i :: 0 <= i < |v| ==> r[i] == c * v[i]
  {
    seq(|v|, i requires 0 <= i < |v| => c * v[i])
  }

  /** The array the beam stiffness scales by EIe / le^3, in the order
      `get_Ke` writes its 16-entry row-major order over the local DOFs (deflection 1, rotation 1,
      deflection 2, rotation 2). */
  function BeamShape(le: real): (m: seq<real>)
    ensures |m| == 16
  {
    [12.0,       6.0 * le,        -12.0,       6.0 * le,
     6.0 * le,   4.0 * le * le,   -6.0 * le,   2.0 * le * le,
     -12.0,      -6.0 * le,       12.0,        -6.0 * le,
     6.0 * le,   2.0 * le * le,   -6.0 * le,   4.0 * le * le]
  }

  /** The Euler-Bernoulli beam stiffness for bending stiffness EIe and length
      le. */
  function BeamStiffness(EIe: real, le: real): (m: seq<real>)
    requires le != 0.0
    ensures |m| == 16
  {
    Scale(EIe / (le * le * le), BeamShape(le))
  }

  /** Local DOFs 1 and 3 are rotations; 0 and 2 are deflections. */
  predicate IsRotation(i: int) {
    i == 1 || i == 3
  }

  /** The power of a length l that the unit of local DOF i carries: none for
      a deflection, one for a rotation. */
  function DofLength(i: int, l: real): real {
    if IsRotation(i) then l else 1.0
  }

  /** The dimensionless coefficient of entry (i, j) of the beam array, from
      the kinds of the two DOFs: equal deflections 12, opposite deflections
      -12, equal rotations 4, opposite rotations 2, and a deflection paired
      with a rotation 6 at the first node and -6 at the second. */
  function BeamCoefficient(i: int, j: int): real {
    if !IsRotation(i) && !IsRotation(j) then (if i == j then 12.0 else -12.0)
    else if IsRotation(i) && IsRotation(j) then (if i == j then 4.0 else 2.0)
    else if i == 0 || j == 0 then 6.0
    else -6.0
  }

  /** Entry (i, j) of the beam array for length le, from the coefficient and
      the length powers of DOFs i and j. */
  function BeamFormula(le: real, i: int, j: int): real {
    BeamCoefficient(i, j) * DofLength(i, le) * DofLength(j, le)
  }

  /** Every entry of the flattened 4x4 matrix m is given by the beam formula
      for length le. */
  predicate MatchesBeamFormula(m: seq<real>, le: real) {
    |m| == 16 && forall i, j :: 0 <= i < 4 && 0 <= j < 4 ==> At4(m, i, j) == BeamFormula(le, i, j)
  }

  /** One entry of the beam array agrees with the beam formula. */
  lemma BeamShapeEntry(le: real, i: int, j: int)
    requires 0 <= i < 4 && 0 <= j < 4
    ensures At4(BeamShape(le), i, j) == BeamFormula(le, i, j)
  {
    var m := BeamShape(le);
    if i == 0 {
      assert m[0] == 12.0 && m[1] == 6.0 * le && m[2] == -12.0 && m[3] == 6.0 * le;
    } else if i == 1 {
      assert m[4] == 6.0 * le && m[5] == 4.0 * le * le && m[6] == -6.0 * le && m[7] == 2.0 * le * le;
    } else if i == 2 {
      assert m[8] == -12.0 && m[9] == -6.0 * le && m[10] == 12.0 && m[11] == -6.0 * le;
    } else {
      assert m[12] == 6.0 * le && m[13] == 2.0 * le * le && m[14] == -6.0 * le && m[15] == 4.0 * le * le;
    }
  }

  /** The array `get_Ke` writes out is the beam formula, entry by entry. */
  lemma BeamShapeMatchesFormula(le: real)
    ensures MatchesBeamFormula(BeamShape(le), le)
  {
    forall i, j | 0 <= i < 4 && 0 <= j < 4
      ensures At4(BeamShape(le), i, j) == BeamFormula(le, i, j)
    {
      BeamShapeEntry(le, i, j);
    }
  }

  /** Entry (i, j) of a scaled 4x4 matrix. */
  lemma ScaledEntry(c: real, m: seq<real>, i: int, j: int)
    requires |m| == 16 && 0 <= i < 4 && 0 <= j < 4
    ensures At4(Scale(c, m), i, j) == c * At4(m, i, j)
  {
    assert 0 <= Flat4(i, j) < 16;
  }

  /** The coefficient table is symmetric. */
  lemma BeamCoefficientSymmetric(i: int, j: int)
    ensures BeamCoefficient(i, j) == BeamCoefficient(j, i)
  {
  }

  /** A matrix given by the beam formula equals its transpose. */
  lemma FormulaSymmetric(m: seq<real>, le: real)
    requires MatchesBeamFormula(m, le)
    ensures Symmetric4(m)
  {
    forall i, j | 0 <= i < 4 && 0 <= j < 4
      ensures At4(m, i, j) == At4(m, j, i)
    {
      BeamCoefficientSymmetric(i, j);
      assert BeamFormula(le, i, j) == BeamFormula(le, j, i);
    }
  }

  /** The beam array equals its transpose. */
  lemma BeamShapeSymmetric(le: real)
    ensures Symmetric4(BeamShape(le))
  {
    BeamShapeMatchesFormula(le);
    FormulaSymmetric(BeamShape(le), le);
  }

  /** Scaling a symmetric 4x4 matrix keeps it symmetric. */
  lemma ScaleSymmetric(c: real, m: seq<real>)
    requires |m| == 16 && Symmetric4(m)
    ensures Symmetric4(Scale(c, m))
  {
    forall i, j | 0 <= i < 4 && 0 <= j < 4
      ensures At4(Scale(c, m), i, j) == At4(Scale(c, m), j, i)
    {
      ScaledEntry(c, m, i, j);
      ScaledEntry(c, m, j, i);
    }
  }

  /** The beam stiffness equals its transpose. */
  lemma BeamStiffnessSymmetric(EIe: real, le: real)
    requires le != 0.0
    ensures Symmetric4(BeamStiffness(EIe, le))
  {
    BeamShapeSymmetric(le);
    ScaleSymmetric(EIe / (le * le * le), BeamShape(le));
  }

  /** Local stiffness matrix. Elasticity: the 2x2 bar matrix (flattened
      row-major); EB_beam: the 16-entry beam matrix; any other tag is
      rejected. */
  function GetKe(elem: FiniteElement, Ae: real, Ee: real, le: real, EIe: real): (r: Result<seq<real>>)
    requires !elem.problemType.Other? ==> le != 0.0
    ensures r.InvalidElementType? <==> elem.problemType.Other?
    ensures elem.problemType.Elasticity? ==> r.Ok? && BarStiffnessShape(r.value, Ae * Ee / le)
    ensures elem.problemType.EBBeam? ==> r.Ok? && |r.value| == 16 && Symmetric4(r.value)
  {
    match elem.problemType
    case Elasticity =>
      var k := Ae * Ee / le;
      Ok([k * 1.0, k * -1.0, k * -1.0, k * 1.0])
    case EBBeam =>
      BeamStiffnessSymmetric(EIe, le);
      Ok(BeamStiffness(EIe, le))
    case Other(_) => InvalidElementType
  }

  /** Each entry of the beam stiffness is EIe/le^3 times the coefficient of its
      DOF pair, times le for each rotation DOF in the pair. */
  lemma BeamStiffnessEntry(elem: FiniteElement, Ae: real, Ee: real, le: real, EIe: real, i: int, j: int)
    requires elem.problemType.EBBeam? && le != 0.0
    requires 0 <= i < 4 && 0 <= j < 4
    ensures At4(GetKe(elem, Ae, Ee, le, EIe).value, i, j)
            == EIe / (le * le * le) * (BeamCoefficient(i, j) * DofLength(i, le) * DofLength(j, le))
  {
    assert GetKe(elem, Ae, Ee, le, EIe).value == Scale(EIe / (le * le * le), BeamShape(le));
    ScaledEntry(EIe / (le * le * le), BeamShape(le), i, j);
    BeamShapeEntry(le, i, j);
  }

  // ---------------------------------------------------------------------------
  // Distributed loads
  // ---------------------------------------------------------------------------

  /** The consistent nodal loads of a beam under a uniform load fe. */
  function BeamLoad(le: real, fe: real): (f: seq<real>)
    ensures |f| == 4
    ensures f[0] == f[2] && f[0] + f[2] == fe * le
    ensures f[1] == -f[3]
    ensures f[1] == fe * le * le / 12.0
  {
    var s := fe * le / 2.0;
    [s * 1.0, s * (le / 6.0), s * 1.0, s * -(le / 6.0)]
  }

  /** Force vector due to distributed loading. Elasticity: the two nodal loads
      of a linearly varying body force b1..b2; EB_beam: the four nodal
      loads/moments of a uniform load fe; any other tag is rejected. */
  function GetFeOmega(elem: FiniteElement, le: real, b1: real, b2: real, fe: real): (r: Result<seq<real>>)
    ensures r.InvalidElementType? <==> elem.problemType.Other?
    ensures elem.problemType.Elasticity? ==>
      && r.Ok? && |r.value| == 2
      && r.value[0] + r.value[1] == le * (b1 + b2) / 2.0
      && r.value[0] - r.value[1] == le * (b1 - b2) / 6.0
    ensures elem.problemType.EBBeam? ==> r == Ok(BeamLoad(le, fe))
  {
    match elem.problemType
    case Elasticity =>
      var w := le / 6.0;
      Ok([w * (2.0 * b1 + 1.0 * b2), w * (1.0 * b1 + 2.0 * b2)])
    case EBBeam => Ok(BeamLoad(le, fe))
    case Other(_) => InvalidElementType
  }

  /** Python sequence indexing: a negative index counts from the end. */
  function PyIndex(s: seq<real>, i: int): (x: real)
    requires -|s| <= i < |s|
    ensures x == s[i % |s|]
  {
    if i < 0 then s[|s| + i] else s[i]
  }

  /** Force vector for a per-node load table: the beam load built from the
      load at position `node`; only EB_beam supports it. */
  function GetDynamicFeOmega(elem: FiniteElement, le: real, fe: seq<real>, node: int): (r: Result<seq<real>>)
    requires elem.problemType.EBBeam? ==> -|fe| <= node < |fe|
    ensures r.Ok? <==> elem.problemType.EBBeam?
    ensures elem.problemType.EBBeam? ==> r == GetFeOmega(elem, le, 0.0, 0.0, PyIndex(fe, node))
  {
    if elem.problemType.EBBeam? then
      Ok(BeamLoad(le, PyIndex(fe, node)))
    else
      InvalidElementType
  }

  // ---------------------------------------------------------------------------
  // Coordinate map
  // ---------------------------------------------------------------------------

  /** The affine map from the reference interval [-1, 1] onto [a, b],
      evaluated at f. It never reads `elem`, so every element family (an
      unsupported one included) gives the same point. */
  function GetGaussQuadratureIndex(elem: FiniteElement, f: real, a: real, b: real): (x: real)
    ensures f == -1.0 ==> x == a
    ensures f == 1.0 ==> x == b
    ensures f == 0.0 ==> x == (a + b) / 2.0
    ensures a <= b && -1.0 <= f <= 1.0 ==> a <= x <= b
  {
    var h := 0.5 * (b - a);
    assert 0.5 * (a + b) - h == a && 0.5 * (a + b) + h == b;
    assert a <= b && -1.0 <= f <= 1.0 ==> -h <= h * f <= h by {
      if a <= b && -1.0 <= f <= 1.0 {
        ScaledUnitBound(h, f);
      }
    }
    0.5 * (a + b) + h * f
  }

  /** A non-negative d scaled by a factor in [-1, 1] stays within [-d, d]. */
  lemma ScaledUnitBound(d: real, f: real)
    requires 0.0 <= d && -1.0 <= f <= 1.0
    ensures -d <= d * f <= d
  {
    assert d * (1.0 - f) >= 0.0;
    assert d * (1.0 + f) >= 0.0;
  }

  /** A product with a non-zero factor vanishes only if the other factor does. */
  lemma ZeroFactor(p: real, q: real)
    requires q != 0.0 && p * q == 0.0
    ensures p == 0.0
  {
  }

  /** The inverse map: the reference coordinate of a physical point x of a
      non-degenerate interval [a, b]. */
  function ReferenceCoordinate(x: real, a: real, b: real): (f: real)
    requires a != b
    ensures x == a ==> f == -1.0
    ensures x == b ==> f == 1.0
  {
    var f := (2.0 * x - a - b) / (b - a);
    assert f * (b - a) == 2.0 * x - a - b;
    if x == a then
      assert (f + 1.0) * (b - a) == 0.0;
      ZeroFactor(f + 1.0, b - a);
      f
    else if x == b then
      assert (f - 1.0) * (b - a) == 0.0;
      ZeroFactor(f - 1.0, b - a);
      f
    else
      f
  }

  // ---------------------------------------------------------------------------
  // Strain
  // ---------------------------------------------------------------------------

  /** Constant strain of a 2-node bar from its nodal displacements de; only
      Elasticity supports it. */
  function GetStrainE(elem: FiniteElement, le: real, de: seq<real>): (r: Result<real>)
    requires elem.problemType.Elasticity? ==> le != 0.0 && |de| == 2
    ensures r.Ok? <==> elem.problemType.Elasticity?
    ensures elem.problemType.Elasticity? ==> r.value * le == de[1] - de[0]
    ensures elem.problemType.Elasticity? && de[0] == de[1] ==> r.value == 0.0
  {
    if elem.problemType.Elasticity? then
      Ok((1.0 / le) * (-1.0 * de[0] + 1.0 * de[1]))
    else
      InvalidElementType
  }
}
