/**
 Facts relating several calls of the element kernels: rigid-body modes of the
 stiffness matrices, how the beam stiffness scales with bending stiffness and
 length, the inverse of the coordinate map, and agreement between strain
 recovery and the bar stiffness.
 */
module KernelFacts {
  import opened ElementTypes
  import opened Kernels
  import DofIndex

  /** A rigid translation (both nodes displaced by u) produces no bar forces. */
  lemma BarStiffnessRigidTranslation(elem: FiniteElement, Ae: real, Ee: real, le: real, EIe: real, u: real)
    requires elem.problemType.Elasticity? && le != 0.0
    ensures MatVec2(GetKe(elem, Ae, Ee, le, EIe).value, [u, u]) == [0.0, 0.0]
  {
    var m := GetKe(elem, Ae, Ee, le, EIe).value;
    assert m[0] * u + m[1] * u == (m[0] + m[1]) * u == 0.0;
    assert m[2] * u + m[3] * u == (m[2] + m[3]) * u == 0.0;
    var r := MatVec2(m, [u, u]);
    assert r[0] == 0.0 && r[1] == 0.0;
    assert r == [0.0, 0.0];
  }

  /** Row i of c * shape applied to v is c times row i of shape applied to v. */
  lemma RowTimesScale(c: real, shape: seq<real>, i: int, v: seq<real>)
    requires |shape| == 16 && 0 <= i < 4 && |v| == 4
    ensures RowTimes4(Scale(c, shape), i, v) == c * RowTimes4(shape, i, v)
  {
    var m := Scale(c, shape);
    assert At4(m, i, 0) == c * At4(shape, i, 0);
    assert At4(m, i, 1) == c * At4(shape, i, 1);
    assert At4(m, i, 2) == c * At4(shape, i, 2);
    assert At4(m, i, 3) == c * At4(shape, i, 3);
  }

  /** The beam stiffness annihilates every rigid motion w(x) = u + theta * x:
      nodal values (u, theta, u + theta * le, theta) produce no forces. */
  lemma BeamStiffnessRigidBodyModes(elem: FiniteElement, Ae: real, Ee: real, le: real, EIe: real, u: real, theta: real)
    requires elem.problemType.EBBeam? && le != 0.0
    ensures MatVec4(GetKe(elem, Ae, Ee, le, EIe).value, [u, theta, u + theta * le, theta]) == [0.0, 0.0, 0.0, 0.0]
  {
    var v := [u, theta, u + theta * le, theta];
    var shape := BeamShape(le);
    var c := EIe / (le * le * le);
    assert RowTimes4(shape, 0, v) == 12.0 * u + 6.0 * le * theta - 12.0 * (u + theta * le) + 6.0 * le * theta == 0.0;
    assert RowTimes4(shape, 1, v)
      == 6.0 * le * u + 4.0 * le * le * theta - 6.0 * le * (u + theta * le) + 2.0 * le * le * theta == 0.0;
    assert RowTimes4(shape, 2, v) == -12.0 * u - 6.0 * le * theta + 12.0 * (u + theta * le) - 6.0 * le * theta == 0.0;
    assert RowTimes4(shape, 3, v)
      == 6.0 * le * u + 2.0 * le * le * theta - 6.0 * le * (u + theta * le) + 4.0 * le * le * theta == 0.0;
    RowTimesScale(c, shape, 0, v);
    RowTimesScale(c, shape, 1, v);
    RowTimesScale(c, shape, 2, v);
    RowTimesScale(c, shape, 3, v);
  }

  /** The beam stiffness is linear in EIe: scaling EIe by s scales every
      entry by s. */
  lemma BeamStiffnessLinearInEI(elem: FiniteElement, Ae: real, Ee: real, le: real, EIe: real, s: real)
    requires elem.problemType.EBBeam? && le != 0.0
    ensures var k1 := GetKe(elem, Ae, Ee, le, EIe).value;
      var ks := GetKe(elem, Ae, Ee, le, s * EIe).value;
      forall i :: 0 <= i < 16 ==> ks[i] == s * k1[i]
  {
    DivisionScales(s, EIe, le * le * le);
    StiffnessIsScaledShape(EIe, le);
    StiffnessIsScaledShape(s * EIe, le);
    ScaleIsLinear(EIe / (le * le * le), (s * EIe) / (le * le * le), s, BeamShape(le));
  }

  /** Scaling by s * c is scaling by c, then by s. */
  lemma ScaleIsLinear(c: real, cs: real, s: real, m: seq<real>)
    requires cs == s * c
    ensures forall i :: 0 <= i < |m| ==> Scale(cs, m)[i] == s * Scale(c, m)[i]
  {
    forall i | 0 <= i < |m|
      ensures Scale(cs, m)[i] == s * Scale(c, m)[i]
    {
      assert (s * c) * m[i] == s * (c * m[i]);
    }
  }

  /** Scaling a numerator scales the quotient. */
  lemma DivisionScales(s: real, x: real, d: real)
    requires d != 0.0
    ensures (s * x) / d == s * (x / d)
  {
    var q := x / d;
    assert q * d == x;
    assert (s * q) * d == s * x;
  }

  /** kd is the beam stiffness k of an element twice as long: the
      deflection-deflection block is 8 times smaller, the deflection-rotation
      entries 4 times and the rotation-rotation block 2 times. */
  predicate StiffnessDoubled(k: seq<real>, kd: seq<real>) {
    && |k| == 16 && |kd| == 16
    && (forall i, j :: 0 <= i < 4 && 0 <= j < 4 && !IsRotation(i) && !IsRotation(j) ==>
          8.0 * At4(kd, i, j) == At4(k, i, j))
    && (forall i, j :: 0 <= i < 4 && 0 <= j < 4 && IsRotation(i) != IsRotation(j) ==>
          4.0 * At4(kd, i, j) == At4(k, i, j))
    && (forall i, j :: 0 <= i < 4 && 0 <= j < 4 && IsRotation(i) && IsRotation(j) ==>
          2.0 * At4(kd, i, j) == At4(k, i, j))
  }

  /** md is the beam array m for twice the length: the deflection-deflection
      block is unchanged, the deflection-rotation entries double and the
      rotation-rotation block quadruples. */
  predicate ShapeDoubled(m: seq<real>, md: seq<real>) {
    && |m| == 16 && |md| == 16
    && (forall i, j :: 0 <= i < 4 && 0 <= j < 4 && !IsRotation(i) && !IsRotation(j) ==>
          At4(md, i, j) == At4(m, i, j))
    && (forall i, j :: 0 <= i < 4 && 0 <= j < 4 && IsRotation(i) != IsRotation(j) ==>
          At4(md, i, j) == 2.0 * At4(m, i, j))
    && (forall i, j :: 0 <= i < 4 && 0 <= j < 4 && IsRotation(i) && IsRotation(j) ==>
          At4(md, i, j) == 4.0 * At4(m, i, j))
  }

  /** Doubling the length of a beam element does not scale its stiffness
      uniformly: the factor is 1/8, 1/4 or 1/2 according to how many of the
      entry's two DOFs are rotations. */
  lemma BeamStiffnessDoubling(elem: FiniteElement, Ae: real, Ee: real, le: real, EIe: real)
    requires elem.problemType.EBBeam? && le != 0.0
    ensures StiffnessDoubled(GetKe(elem, Ae, Ee, le, EIe).value, GetKe(elem, Ae, Ee, 2.0 * le, EIe).value)
  {
    var ld := 2.0 * le;
    var c, cd := EIe / (le * le * le), EIe / (ld * ld * ld);
    assert GetKe(elem, Ae, Ee, le, EIe).value == Scale(c, BeamShape(le)) by {
      StiffnessIsScaledShape(EIe, le);
    }
    assert GetKe(elem, Ae, Ee, ld, EIe).value == Scale(cd, BeamShape(ld)) by {
      StiffnessIsScaledShape(EIe, ld);
    }
    assert cd * 8.0 == c by {
      FactorDoubling(EIe, le, ld);
    }
    BeamShapeDoubling(le, ld);
    ScaleKeepsDoubling(c, cd, BeamShape(le), BeamShape(ld));
  }

  /** A uniform factor 1/8 under doubling the length does not hold: for
      EIe = 1 and le = 1 the deflection-rotation entry (0, 1) is 6, and only a
      quarter of it, 1.5, for le = 2. */
  lemma DoublingNotUniform(elem: FiniteElement, Ae: real, Ee: real)
    requires elem.problemType.EBBeam?
    ensures var k := GetKe(elem, Ae, Ee, 1.0, 1.0).value;
      var kd := GetKe(elem, Ae, Ee, 2.0, 1.0).value;
      At4(k, 0, 1) == 6.0 && At4(kd, 0, 1) == 1.5 && 8.0 * At4(kd, 0, 1) != At4(k, 0, 1)
  {
    var k := GetKe(elem, Ae, Ee, 1.0, 1.0).value;
    var kd := GetKe(elem, Ae, Ee, 2.0, 1.0).value;
    assert At4(k, 0, 1) == 6.0 by {
      StiffnessIsScaledShape(1.0, 1.0);
      ScaledEntry(1.0, BeamShape(1.0), 0, 1);
    }
    assert At4(kd, 0, 1) == 1.5 by {
      StiffnessIsScaledShape(1.0, 2.0);
      ScaledEntry(1.0 / 8.0, BeamShape(2.0), 0, 1);
    }
  }

  /** The factor EIe / le^3 of a beam twice as long is 8 times smaller. */
  lemma FactorDoubling(EIe: real, le: real, ld: real)
    requires le != 0.0 && ld == 2.0 * le
    ensures (EIe / (ld * ld * ld)) * 8.0 == EIe / (le * le * le)
  {
    var l3 := le * le * le;
    var cd, c := EIe / (ld * ld * ld), EIe / l3;
    assert ld * ld * ld == 8.0 * l3;
    assert l3 != 0.0;
    assert cd * (8.0 * l3) == EIe;
    assert c * l3 == EIe;
    assert (cd * 8.0 - c) * l3 == 0.0;
    ZeroFactor(cd * 8.0 - c, l3);
  }

  /** The beam array of twice the length, block by block. */
  lemma BeamShapeDoubling(le: real, ld: real)
    requires ld == 2.0 * le
    ensures ShapeDoubled(BeamShape(le), BeamShape(ld))
  {
    BeamShapeMatchesFormula(le);
    BeamShapeMatchesFormula(ld);
    FormulaDoubling(BeamShape(le), BeamShape(ld), le, ld);
  }

  /** Two matrices given by the beam formula for lengths le and 2 * le are
      related block by block. */
  lemma FormulaDoubling(m: seq<real>, md: seq<real>, le: real, ld: real)
    requires MatchesBeamFormula(m, le) && MatchesBeamFormula(md, ld) && ld == 2.0 * le
    ensures ShapeDoubled(m, md)
  {
    forall i, j | 0 <= i < 4 && 0 <= j < 4 && !IsRotation(i) && !IsRotation(j)
      ensures At4(md, i, j) == At4(m, i, j)
    {
      FormulaEntryDoubling(le, ld, i, j);
    }
    forall i, j | 0 <= i < 4 && 0 <= j < 4 && IsRotation(i) != IsRotation(j)
      ensures At4(md, i, j) == 2.0 * At4(m, i, j)
    {
      FormulaEntryDoubling(le, ld, i, j);
    }
    forall i, j | 0 <= i < 4 && 0 <= j < 4 && IsRotation(i) && IsRotation(j)
      ensures At4(md, i, j) == 4.0 * At4(m, i, j)
    {
      FormulaEntryDoubling(le, ld, i, j);
    }
  }

  /** One entry of the beam formula for twice the length. */
  lemma FormulaEntryDoubling(le: real, ld: real, i: int, j: int)
    requires ld == 2.0 * le
    ensures !IsRotation(i) && !IsRotation(j) ==> BeamFormula(ld, i, j) == BeamFormula(le, i, j)
    ensures IsRotation(i) != IsRotation(j) ==> BeamFormula(ld, i, j) == 2.0 * BeamFormula(le, i, j)
    ensures IsRotation(i) && IsRotation(j) ==> BeamFormula(ld, i, j) == 4.0 * BeamFormula(le, i, j)
  {
    var x := BeamCoefficient(i, j);
    if IsRotation(i) && IsRotation(j) {
      assert BeamFormula(ld, i, j) == x * ld * ld;
      assert BeamFormula(le, i, j) == x * le * le;
    } else if IsRotation(i) {
      assert BeamFormula(ld, i, j) == x * ld * 1.0;
    } else if IsRotation(j) {
      assert BeamFormula(ld, i, j) == x * 1.0 * ld;
    }
  }

  /** Scaling preserves the block relation, with the factors related by
      cd * 8 == c. */
  lemma ScaleKeepsDoubling(c: real, cd: real, m: seq<real>, md: seq<real>)
    requires ShapeDoubled(m, md) && cd * 8.0 == c
    ensures StiffnessDoubled(Scale(c, m), Scale(cd, md))
  {
    forall i, j | 0 <= i < 4 && 0 <= j < 4 && !IsRotation(i) && !IsRotation(j)
      ensures 8.0 * At4(Scale(cd, md), i, j) == At4(Scale(c, m), i, j)
    {
      ScaledEntry(c, m, i, j);
      ScaledEntry(cd, md, i, j);
      EntryDoubled(c, cd, 1.0, At4(m, i, j), At4(md, i, j));
    }
    forall i, j | 0 <= i < 4 && 0 <= j < 4 && IsRotation(i) != IsRotation(j)
      ensures 4.0 * At4(Scale(cd, md), i, j) == At4(Scale(c, m), i, j)
    {
      ScaledEntry(c, m, i, j);
      ScaledEntry(cd, md, i, j);
      EntryDoubled(c, cd, 2.0, At4(m, i, j), At4(md, i, j));
    }
    forall i, j | 0 <= i < 4 && 0 <= j < 4 && IsRotation(i) && IsRotation(j)
      ensures 2.0 * At4(Scale(cd, md), i, j) == At4(Scale(c, m), i, j)
    {
      ScaledEntry(c, m, i, j);
      ScaledEntry(cd, md, i, j);
      EntryDoubled(c, cd, 4.0, At4(m, i, j), At4(md, i, j));
    }
  }

  /** One scaled entry: if the shape entry grows by f and the factor shrinks
      by 8, the product shrinks by 8 / f. */
  lemma EntryDoubled(c: real, cd: real, f: real, x: real, xd: real)
    requires cd * 8.0 == c && xd == f * x
    ensures 8.0 * (cd * xd) == f * (c * x)
  {
    calc {
      8.0 * (cd * xd);
      (cd * 8.0) * (f * x);
      f * (c * x);
    }
  }

  /** Unfolds the beam stiffness into its factor and shape array. */
  lemma StiffnessIsScaledShape(EIe: real, le: real)
    requires le != 0.0
    ensures BeamStiffness(EIe, le) == Scale(EIe / (le * le * le), BeamShape(le))
  {
  }

  /** The reference coordinate inverts the coordinate map in both directions
      on a non-degenerate interval. */
  lemma GaussMapRoundTrip(elem: FiniteElement, f: real, x: real, a: real, b: real)
    requires a != b
    ensures ReferenceCoordinate(GetGaussQuadratureIndex(elem, f, a, b), a, b) == f
    ensures GetGaussQuadratureIndex(elem, ReferenceCoordinate(x, a, b), a, b) == x
  {
    var y := GetGaussQuadratureIndex(elem, f, a, b);
    var g := ReferenceCoordinate(y, a, b);
    assert g * (b - a) == 2.0 * y - a - b;
    assert (g - f) * (b - a) == 0.0;
    ZeroFactor(g - f, b - a);
    var r := ReferenceCoordinate(x, a, b);
    assert r * (b - a) == 2.0 * x - a - b;
  }

  /** Under a uniform body force (b1 == b2 == b) the bar load splits equally,
      b * le / 2 to each node. */
  lemma BarLoadUniformSplit(elem: FiniteElement, le: real, b: real, fe: real)
    requires elem.problemType.Elasticity?
    ensures GetFeOmega(elem, le, b, b, fe).value == [b * le / 2.0, b * le / 2.0]
  {
    var r := GetFeOmega(elem, le, b, b, fe).value;
    assert r[0] + r[1] == le * b;
    assert r[0] - r[1] == 0.0;
  }

  /** Strain and stiffness agree: the bar's nodal forces K * de are the axial
      force Ae * Ee * strain, pulling node 2 and pushing node 1. */
  lemma StrainMatchesStiffness(elem: FiniteElement, Ae: real, Ee: real, le: real, EIe: real, de: seq<real>)
    requires elem.problemType.Elasticity? && le != 0.0 && |de| == 2
    ensures var n := Ae * Ee * GetStrainE(elem, le, de).value;
      MatVec2(GetKe(elem, Ae, Ee, le, EIe).value, de) == [-n, n]
  {
    var m := GetKe(elem, Ae, Ee, le, EIe).value;
    var n := Ae * Ee * GetStrainE(elem, le, de).value;
    assert MatVec2(m, de) == [-n, n] by {
      var k := Ae * Ee / le;
      assert k * (de[1] - de[0]) == n by {
        AxialForce(Ae * Ee, le, k, GetStrainE(elem, le, de).value, de[1] - de[0]);
      }
      BarForces(m, k, de);
    }
  }

  /** A bar stiffness with axial stiffness k maps nodal displacements de to
      the equal and opposite forces -k * elongation, k * elongation. */
  lemma BarForces(m: seq<real>, k: real, de: seq<real>)
    requires BarStiffnessShape(m, k) && |de| == 2
    ensures MatVec2(m, de) == [-(k * (de[1] - de[0])), k * (de[1] - de[0])]
  {
    var r := MatVec2(m, de);
    assert r[0] == -(k * (de[1] - de[0])) by {
      assert m[1] == -k;
    }
    assert r[1] == k * (de[1] - de[0]) by {
      assert m[2] == -k;
    }
  }

  /** The force k * elongation of a bar with k = ae / le equals ae times the
      strain elongation / le. */
  lemma AxialForce(ae: real, le: real, k: real, eps: real, d: real)
    requires k * le == ae && eps * le == d
    ensures k * d == ae * eps
  {
    calc {
      k * d;
      k * (eps * le);
      (k * le) * eps;
    }
  }

  /** A kernel built from an unrecognised tag is rejected by the stiffness, the
      element load, the per-node load, the DOF table and the strain; only the
      coordinate map accepts it. */
  lemma UnrecognisedTagRejected(tag: string, le: real, de: seq<real>, fe: seq<real>, node: int, e: int)
    requires !Recognised(tag)
    ensures var elem := NewFiniteElement(tag);
      && GetKe(elem, 1.0, 1.0, le, 1.0).InvalidElementType?
      && GetFeOmega(elem, le, 1.0, 1.0, 1.0).InvalidElementType?
      && GetDynamicFeOmega(elem, le, fe, node).InvalidElementType?
      && DofIndex.GetDofIndex(elem, e).InvalidElementType?
      && GetStrainE(elem, le, de).InvalidElementType?
  {
  }
}
