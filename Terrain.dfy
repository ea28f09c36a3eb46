// The terrain grid built by Renderer::createPrimitivesBuffers
// (source/vulkan/renderer.cpp): a res x res plane of vertices and two
// triangles per grid cell. Vertex positions are the grid coordinates divided
// by res - 1 in floating point; the model keeps the integer coordinates.

module Terrain {

  import opened Common

  /** terrainRes */
  const TERRAIN_RES: nat := 3000

  /** The vertex at row `i`, column `j`: position (i, j, 0) / (res - 1), with
      the same texture coordinates. */
  datatype GridVertex = GridVertex(i: nat, j: nat)

  /** The vertices pushed for row `i`. */
  function Row(i: nat, res: nat): (r: seq<GridVertex>)
    ensures |r| == res && forall j :: 0 <= j < res ==> r[j] == GridVertex(i, j)
  {
    seq(res, j requires 0 <= j < res => GridVertex(i, j))
  }

  /** The vertices pushed for the first `rows` rows. */
  function GridVertices(res: nat, rows: nat): seq<GridVertex>
  {
    if rows == 0 then [] else GridVertices(res, rows - 1) + Row(rows - 1, res)
  }

  /** The six indices of the cell whose top left vertex is (i, j): the
      triangles (i0, i2, i1) and (i1, i2, i3). */
  function QuadIndices(res: nat, i: nat, j: nat): seq<nat>
  {
    var i0 := j + i * res;
    var i1 := i0 + 1;
    var i2 := i0 + res;
    var i3 := i2 + 1;
    [i0, i2, i1, i1, i2, i3]
  }

  /** The indices pushed for the first `cols` cells of row `i`. */
  function RowIndices(res: nat, i: nat, cols: nat): seq<nat>
  {
    if cols == 0 then [] else RowIndices(res, i, cols - 1) + QuadIndices(res, i, cols - 1)
  }

  /** The indices pushed for the first `rows` rows of cells. */
  function GridIndices(res: nat, rows: nat): seq<nat>
    requires res >= 1
  {
    if rows == 0 then [] else GridIndices(res, rows - 1) + RowIndices(res, rows - 1, res - 1)
  }

  /** The two nested loops of the primitives generation: vertices row by row,
      then six indices per cell, cell by cell. */
  method CreatePrimitives(res: nat) returns (vertices: seq<GridVertex>, indices: seq<nat>)
    requires res >= 1
    ensures vertices == GridVertices(res, res)
    ensures indices == GridIndices(res, res - 1)
  {
    vertices := [];
    var i := 0;
    while i < res
      invariant 0 <= i <= res
      invariant vertices == GridVertices(res, i)
    {
      var j := 0;
      while j < res
        invariant 0 <= j <= res
        invariant vertices == GridVertices(res, i) + Row(i, res)[..j]
      {
        assert Row(i, res)[..j + 1] == Row(i, res)[..j] + [GridVertex(i, j)];
        vertices := vertices + [GridVertex(i, j)];
        j := j + 1;
      }
      assert Row(i, res)[..res] == Row(i, res);
      i := i + 1;
    }
    indices := [];
    i := 0;
    while i < res - 1
      invariant 0 <= i <= res - 1
      invariant indices == GridIndices(res, i)
    {
      var j := 0;
      while j < res - 1
        invariant 0 <= j <= res - 1
        invariant indices == GridIndices(res, i) + RowIndices(res, i, j)
      {
        var i0 := j + i * res;
        var i1 := i0 + 1;
        var i2 := i0 + res;
        var i3 := i2 + 1;
        assert RowIndices(res, i, j + 1) == RowIndices(res, i, j) + [i0, i2, i1, i1, i2, i3];
        indices := indices + [i0, i2, i1, i1, i2, i3];
        j := j + 1;
      }
      i := i + 1;
    }
  }

  // ---------------------------------------------------------------- vertices

  /** There are rows * res vertices after `rows` rows. */
  lemma {:induction false} GridVerticesLength(res: nat, rows: nat)
    ensures |GridVertices(res, rows)| == rows * res
  {
    if rows > 0 {
      GridVerticesLength(res, rows - 1);
      MulSucc(rows - 1, res);
    }
  }

  /** Vertex (i, j) sits at slot j + i * res. */
  lemma {:induction false} GridVertexAt(res: nat, rows: nat, i: nat, j: nat)
    requires i < rows && j < res
    ensures j + i * res < |GridVertices(res, rows)|
    ensures GridVertices(res, rows)[j + i * res] == GridVertex(i, j)
  {
    GridVerticesLength(res, rows);
    GridVerticesLength(res, rows - 1);
    MulSucc(rows - 1, res);
    if i == rows - 1 {
      assert GridVertices(res, rows)[j + i * res] == Row(rows - 1, res)[j];
    } else {
      MulLe(i + 1, rows - 1, res);
      MulSucc(i, res);
      GridVertexAt(res, rows - 1, i, j);
    }
  }

  /** (a + 1) * b unfolded; the grid length and index-range lemmas step rows with it. */
  lemma MulSucc(a: nat, b: nat)
    ensures (a + 1) * b == a * b + b
  {
  }

  // ---------------------------------------------------------------- indices

  lemma {:induction false} RowIndicesLength(res: nat, i: nat, cols: nat)
    ensures |RowIndices(res, i, cols)| == 6 * cols
  {
    if cols > 0 {
      RowIndicesLength(res, i, cols - 1);
    }
  }

  /** There are 6 (res - 1) indices per row of cells. */
  lemma {:induction false} GridIndicesLength(res: nat, rows: nat)
    requires res >= 1
    ensures |GridIndices(res, rows)| == rows * (6 * (res - 1))
  {
    if rows > 0 {
      GridIndicesLength(res, rows - 1);
      RowIndicesLength(res, rows - 1, res - 1);
      MulSucc(rows - 1, 6 * (res - 1));
    }
  }

  /** Each index of a cell in row i < res - 1, column j < res - 1, is a vertex
      of the grid. */
  lemma QuadIndicesInRange(res: nat, i: nat, j: nat)
    requires i + 1 < res && j + 1 < res
    ensures forall k :: 0 <= k < 6 ==> QuadIndices(res, i, j)[k] < res * res
  {
    MulLe(i + 1, res - 1, res);
    MulSucc(i, res);
    MulSucc(res - 1, res);
  }

  lemma {:induction false} RowIndicesInRange(res: nat, i: nat, cols: nat)
    requires i + 1 < res && cols < res
    ensures forall k :: 0 <= k < |RowIndices(res, i, cols)| ==> RowIndices(res, i, cols)[k] < res * res
  {
    if cols > 0 {
      RowIndicesInRange(res, i, cols - 1);
      QuadIndicesInRange(res, i, cols - 1);
    }
  }

  /** Every index refers to one of the res^2 vertices. */
  lemma {:induction false} GridIndicesInRange(res: nat, rows: nat)
    requires res >= 1 && rows < res
    ensures forall k :: 0 <= k < |GridIndices(res, rows)| ==> GridIndices(res, rows)[k] < res * res
  {
    if rows > 0 {
      GridIndicesInRange(res, rows - 1);
      RowIndicesInRange(res, rows - 1, res - 1);
    }
  }

  /** The six indices of cell (i, j) name its four corners: (i, j), (i + 1, j),
      (i, j + 1) and (i + 1, j + 1), and the two triangles share the diagonal
      from (i, j + 1) to (i + 1, j). */
  lemma QuadCorners(res: nat, i: nat, j: nat)
    requires i + 1 < res && j + 1 < res
    ensures var q := QuadIndices(res, i, j); var v := GridVertices(res, res);
            q[0] < |v| && q[1] < |v| && q[2] < |v| && q[5] < |v|
            && v[q[0]] == GridVertex(i, j) && v[q[1]] == GridVertex(i + 1, j)
            && v[q[2]] == GridVertex(i, j + 1) && v[q[5]] == GridVertex(i + 1, j + 1)
            && q[3] == q[2] && q[4] == q[1]
  {
    GridVertexAt(res, res, i, j);
    GridVertexAt(res, res, i + 1, j);
    GridVertexAt(res, res, i, j + 1);
    GridVertexAt(res, res, i + 1, j + 1);
    MulSucc(i, res);
  }

  /** The full grid: 6 (res - 1)^2 indices, each naming one of the res^2
      vertices. */
  lemma GridIndexCountAndRange(res: nat, rows: nat)
    requires res >= 1 && rows == res - 1
    ensures |GridIndices(res, rows)| == 6 * rows * rows
    ensures forall k :: 0 <= k < |GridIndices(res, rows)| ==> GridIndices(res, rows)[k] < res * res
  {
    GridIndicesLength(res, rows);
    GridIndicesInRange(res, rows);
  }

  /** For the 3000 x 3000 grid the index count is the hard-coded draw count
      2999 * 2999 * 6. */
  lemma DrawCountMatchesGrid(res: nat, rows: nat, indices: seq<nat>)
    requires res == TERRAIN_RES && rows == res - 1 && indices == GridIndices(res, rows)
    ensures |indices| == 2999 * 2999 * 6
  {
    GridIndexCountAndRange(res, rows);
  }

  /** Every index of the 3000 x 3000 grid fits the signed 32-bit int it is
      computed in. */
  lemma GridIndicesFitInt(res: nat, rows: nat, indices: seq<nat>)
    requires res == TERRAIN_RES && rows == res - 1 && indices == GridIndices(res, rows)
    ensures forall k :: 0 <= k < |indices| ==> indices[k] < 0x8000_0000
  {
    GridIndexCountAndRange(res, rows);
  }
}
