/**
 Local-to-global degree-of-freedom mapping of `FiniteElement`.

 A bar element e joins nodes e and e+1, one DOF per node. A beam element has
 two DOFs per node (deflection, rotation), so its four local DOFs are the
 global DOFs 2e .. 2e+3; its table lists, for each of the 16 entries of the
 flattened 4x4 local stiffness, the global (row, column) pair it is scattered
 to.
 */
module DofIndex {
  import opened ElementTypes

  /** The DOF indices of one element: two node numbers for a bar, or the two
      16-entry rows of the beam scatter table. */
  datatype DofTable = BarDofs(nodes: seq<int>) | BeamDofs(row0: seq<int>, row1: seq<int>)

  /** Flat position of local entry (ii, jj) in the 16-entry layout. */
  function LocalPosition(ii: int, jj: int): int {
    ii * 4 + jj
  }

  /** The global DOFs of beam element e: the four values 2e .. 2e+3. */
  predicate InBeamRange(e: int, d: int) {
    2 * e <= d <= 2 * e + 3
  }

  /** The beam table of element e, entry by entry: position ii*4+jj holds the
      global row 2e+ii in row 0 and the global column 2e+jj in row 1. */
  predicate BeamTableFormula(e: int, row0: seq<int>, row1: seq<int>) {
    && |row0| == 16
    && |row1| == 16
    && (forall ii, jj :: 0 <= ii < 4 && 0 <= jj < 4 ==>
          row0[LocalPosition(ii, jj)] == 2 * e + ii && row1[LocalPosition(ii, jj)] == 2 * e + jj)
  }

  /** Row 0 of the beam table of element e, by flat position. */
  function BeamRow0(e: int): (r: seq<int>)
    ensures |r| == 16
  {
    seq(16, k => 2 * e + k / 4)
  }

  /** Row 1 of the beam table of element e, by flat position. */
  function BeamRow1(e: int): (r: seq<int>)
    ensures |r| == 16
  {
    seq(16, k => 2 * e + k % 4)
  }

  /** Every flat position in [0, 16) is the position of exactly one local pair
      (k / 4, k % 4). */
  lemma LocalPositionSplit(k: int)
    requires 0 <= k < 16
    ensures 0 <= k / 4 < 4 && 0 <= k % 4 < 4
    ensures LocalPosition(k / 4, k % 4) == k
  {
  }

  /** A local pair (ii, jj) is recovered from its flat position. */
  lemma LocalPositionJoin(ii: int, jj: int)
    requires 0 <= ii < 4 && 0 <= jj < 4
    ensures 0 <= LocalPosition(ii, jj) < 16
    ensures LocalPosition(ii, jj) / 4 == ii && LocalPosition(ii, jj) % 4 == jj
  {
  }

  /** The beam rows satisfy the entry-by-entry formula of the table. */
  lemma BeamRowsFormula(e: int)
    ensures BeamTableFormula(e, BeamRow0(e), BeamRow1(e))
  {
    forall ii, jj | 0 <= ii < 4 && 0 <= jj < 4
      ensures BeamRow0(e)[LocalPosition(ii, jj)] == 2 * e + ii
      ensures BeamRow1(e)[LocalPosition(ii, jj)] == 2 * e + jj
    {
      LocalPositionJoin(ii, jj);
    }
  }

  /** The global DOF indices of element e. Elasticity: the bar's two node
      numbers; EB_beam: the 2x16 scatter table; any other tag is rejected. */
  function GetDofIndex(elem: FiniteElement, e: int): (r: Result<DofTable>)
    ensures r.InvalidElementType? <==> elem.problemType.Other?
    ensures elem.problemType.Elasticity? ==>
      r.Ok? && r.value.BarDofs? && |r.value.nodes| == 2 && r.value.nodes[0] == e && r.value.nodes[1] == r.value.nodes[0] + 1
    ensures elem.problemType.EBBeam? ==>
      r.Ok? && r.value.BeamDofs? && BeamTableFormula(e, r.value.row0, r.value.row1)
  {
    match elem.problemType
    case Elasticity => Ok(BarDofs([e, e + 1]))
    case EBBeam =>
      BeamRowsFormula(e);
      Ok(BeamDofs(BeamRow0(e), BeamRow1(e)))
    case Other(_) => InvalidElementType
  }

  /** Builds the beam table of element e the way `get_dof_index` does: two passes
      of nested loops over (ii, jj) writing into zero-initialised rows. */
  method BuildBeamDofTable(e: int) returns (row0: seq<int>, row1: seq<int>)
    ensures BeamTableFormula(e, row0, row1)
    ensures BeamDofs(row0, row1) == GetDofIndex(FiniteElement(EBBeam), e).value
  {
    row0 := seq(16, _ => 0);
    row1 := seq(16, _ => 0);
    for ii := 0 to 4
      invariant |row0| == 16
      invariant forall k :: 0 <= k < 4 * ii ==> row0[k] == 2 * e + k / 4
    {
      for jj := 0 to 4
        invariant |row0| == 16
        invariant forall k :: 0 <= k < 4 * ii + jj ==> row0[k] == 2 * e + k / 4
      {
        LocalPositionJoin(ii, jj);
        row0 := row0[LocalPosition(ii, jj) := 2 * e + ii];
      }
    }
    for ii := 0 to 4
      invariant |row1| == 16
      invariant forall k :: 0 <= k < 4 * ii ==> row1[k] == 2 * e + k % 4
    {
      for jj := 0 to 4
        invariant |row1| == 16
        invariant forall k :: 0 <= k < 4 * ii + jj ==> row1[k] == 2 * e + k % 4
      {
        LocalPositionJoin(ii, jj);
        row1 := row1[LocalPosition(ii, jj) := 2 * e + jj];
      }
    }
    assert row0 == BeamRow0(e);
    assert row1 == BeamRow1(e);
    BeamRowsFormula(e);
  }

  // ---------------------------------------------------------------------------
  // Properties of the tables
  // ---------------------------------------------------------------------------

  /** Every entry of both rows of a beam table lies among the element's four
      global DOFs 2e .. 2e+3. */
  lemma BeamDofBounds(elem: FiniteElement, e: int)
    requires elem.problemType.EBBeam?
    ensures var t := GetDofIndex(elem, e).value;
      forall k :: 0 <= k < 16 ==> InBeamRange(e, t.row0[k]) && InBeamRange(e, t.row1[k])
  {
    var t := GetDofIndex(elem, e).value;
    forall k | 0 <= k < 16
      ensures InBeamRange(e, t.row0[k]) && InBeamRange(e, t.row1[k])
    {
      LocalPositionSplit(k);
    }
  }

  /** The map k |-> (row0[k], row1[k]) on [0, 16) is a bijection onto the
      pairs of global DOFs of the element: every pair occurs, at the position
      of its local offsets, and no pair occurs twice. Row 0 is constant on
      each block of four consecutive positions. */
  lemma BeamDofPairsEnumerated(elem: FiniteElement, e: int)
    requires elem.problemType.EBBeam?
    ensures var t := GetDofIndex(elem, e).value;
      forall r, c :: InBeamRange(e, r) && InBeamRange(e, c) ==>
        var k := LocalPosition(r - 2 * e, c - 2 * e);
        0 <= k < 16 && t.row0[k] == r && t.row1[k] == c
    ensures var t := GetDofIndex(elem, e).value;
      forall k1, k2 :: 0 <= k1 < 16 && 0 <= k2 < 16 && t.row0[k1] == t.row0[k2] && t.row1[k1] == t.row1[k2] ==> k1 == k2
    ensures var t := GetDofIndex(elem, e).value;
      forall k :: 0 <= k < 16 ==> t.row0[k] == t.row0[k - k % 4]
  {
    var t := GetDofIndex(elem, e).value;
    forall r, c | InBeamRange(e, r) && InBeamRange(e, c)
      ensures var k := LocalPosition(r - 2 * e, c - 2 * e);
        0 <= k < 16 && t.row0[k] == r && t.row1[k] == c
    {
      LocalPositionJoin(r - 2 * e, c - 2 * e);
    }
    forall k1, k2 | 0 <= k1 < 16 && 0 <= k2 < 16 && t.row0[k1] == t.row0[k2] && t.row1[k1] == t.row1[k2]
      ensures k1 == k2
    {
      LocalPositionSplit(k1);
      LocalPositionSplit(k2);
    }
    forall k | 0 <= k < 16
      ensures t.row0[k] == t.row0[k - k % 4]
    {
      LocalPositionSplit(k);
      LocalPositionJoin(k / 4, 0);
    }
  }

  /** The beam DOFs of element e are the deflection (2n) and rotation (2n+1)
      DOFs of the bar's two nodes n = e and n = e+1: every table entry belongs
      to one of those nodes, and local DOF ii, the DOF ii % 2 of node
      nodes[ii / 2], occurs in both rows at its diagonal position (ii, ii). */
  lemma BeamDofsAreNodeDofs(beam: FiniteElement, bar: FiniteElement, e: int)
    requires beam.problemType.EBBeam? && bar.problemType.Elasticity?
    ensures var t := GetDofIndex(beam, e).value;
      var nodes := GetDofIndex(bar, e).value.nodes;
      forall k :: 0 <= k < 16 ==> t.row0[k] / 2 in nodes && t.row1[k] / 2 in nodes
    ensures var t := GetDofIndex(beam, e).value;
      var nodes := GetDofIndex(bar, e).value.nodes;
      forall ii :: 0 <= ii < 4 ==>
        0 <= LocalPosition(ii, ii) < 16
        && t.row0[LocalPosition(ii, ii)] == 2 * nodes[ii / 2] + ii % 2
        && t.row1[LocalPosition(ii, ii)] == 2 * nodes[ii / 2] + ii % 2
  {
    var nodes := GetDofIndex(bar, e).value.nodes;
    assert nodes == [e, e + 1];
    assert GetDofIndex(beam, e).value == BeamDofs(BeamRow0(e), BeamRow1(e));
    forall k | 0 <= k < 16
      ensures BeamRow0(e)[k] / 2 in nodes && BeamRow1(e)[k] / 2 in nodes
    {
      BeamEntryNodes(e, k);
    }
    forall ii | 0 <= ii < 4
      ensures 0 <= LocalPosition(ii, ii) < 16
        && BeamRow0(e)[LocalPosition(ii, ii)] == 2 * nodes[ii / 2] + ii % 2
        && BeamRow1(e)[LocalPosition(ii, ii)] == 2 * nodes[ii / 2] + ii % 2
    {
      LocalPositionJoin(ii, ii);
    }
  }

  /** Both entries at flat position k of the beam table of element e are DOFs
      of node e or node e+1. */
  lemma BeamEntryNodes(e: int, k: int)
    requires 0 <= k < 16
    ensures BeamRow0(e)[k] / 2 == e || BeamRow0(e)[k] / 2 == e + 1
    ensures BeamRow1(e)[k] / 2 == e || BeamRow1(e)[k] / 2 == e + 1
  {
    var i, j := k / 4, k % 4;
    assert 0 <= i < 4 && 0 <= j < 4;
    assert BeamRow0(e)[k] == 2 * e + i && BeamRow1(e)[k] == 2 * e + j;
    NodeOfBeamDof(e, i);
    NodeOfBeamDof(e, j);
  }

  /** Local DOF i of beam element e belongs to node e + i / 2. */
  lemma NodeOfBeamDof(e: int, i: int)
    requires 0 <= i < 4
    ensures (2 * e + i) / 2 == e + i / 2
  {
    if i == 0 {
      assert 2 * e + i == 2 * e + 0;
    } else if i == 1 {
      assert 2 * e + i == 2 * e + 1;
    } else if i == 2 {
      assert 2 * e + i == 2 * (e + 1) + 0;
    } else {
      assert 2 * e + i == 2 * (e + 1) + 1;
    }
  }

  /** Consecutive beam elements share exactly the two DOFs of their common
      node: a global DOF of both e and e+1 is 2e+2 or 2e+3, and both of those
      belong to each. */
  lemma AdjacentBeamsShareNode(elem: FiniteElement, e: int)
    requires elem.problemType.EBBeam?
    ensures var t := GetDofIndex(elem, e).value;
      var u := GetDofIndex(elem, e + 1).value;
      forall k1, k2 :: 0 <= k1 < 16 && 0 <= k2 < 16 && t.row0[k1] == u.row0[k2] ==>
        t.row0[k1] == 2 * e + 2 || t.row0[k1] == 2 * e + 3
    ensures var t := GetDofIndex(elem, e).value;
      var u := GetDofIndex(elem, e + 1).value;
      t.row0[LocalPosition(2, 0)] == u.row0[LocalPosition(0, 0)] == 2 * e + 2
      && t.row0[LocalPosition(3, 0)] == u.row0[LocalPosition(1, 0)] == 2 * e + 3
  {
    BeamDofBounds(elem, e);
    BeamDofBounds(elem, e + 1);
  }
}
