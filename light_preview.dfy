/** LightPreview: the small sphere drawn at each light. `setup` builds a
    17 x 17 grid of sphere points, a serpentine triangle-strip index list
    over it and an interleaved vertex buffer; `Draw` draws the strip. */
module LightPreviews {
  import opened Gl
  import Meshes

  const X_SEGMENTS: nat := 16
  const Y_SEGMENTS: nat := 16
  /** (X_SEGMENTS + 1) * (Y_SEGMENTS + 1) grid points. */
  const VERTEX_COUNT: nat := 289
  /** Indices of one strip row: two per grid column. */
  const ROW_LENGTH: nat := 34
  /** Y_SEGMENTS rows of ROW_LENGTH indices. */
  const INDEX_COUNT: nat := 544
  /** Floats per interleaved vertex: position, normal, texture coordinates. */
  const STRIDE: nat := 8

  // ---------------------------------------------------------------------
  // The grid.

  /** Where grid point (x, y) lands: the outer loop runs over x, the inner
      one over y. */
  function GridIndex(x: nat, y: nat): (k: nat)
    requires x <= X_SEGMENTS && y <= Y_SEGMENTS
    ensures k < VERTEX_COUNT
  {
    x * (Y_SEGMENTS + 1) + y
  }

  /** Every grid slot holds exactly one point: GridIndex is undone by
      division and remainder. */
  lemma GridIndexInverse(x: nat, y: nat)
    requires x <= X_SEGMENTS && y <= Y_SEGMENTS
    ensures GridIndex(x, y) / (Y_SEGMENTS + 1) == x && GridIndex(x, y) % (Y_SEGMENTS + 1) == y
  {
  }

  /** The sphere surface point for (x, y) is floating-point trigonometry,
      so it comes in as `surface`; the texture coordinates are exact. */
  function GridUv(x: nat, y: nat): Meshes.Vec2 {
    Meshes.Vec2(x as real / X_SEGMENTS as real, y as real / Y_SEGMENTS as real)
  }

  /** Point k of the grid as generated: (k / 17, k % 17). */
  function GridPositions(surface: (nat, nat) -> Meshes.Vec3): (ps: seq<Meshes.Vec3>)
    ensures |ps| == VERTEX_COUNT
  {
    seq(VERTEX_COUNT, (k: int) requires 0 <= k < VERTEX_COUNT => surface(k / (Y_SEGMENTS + 1), k % (Y_SEGMENTS + 1)))
  }

  function GridUvs(): (uv: seq<Meshes.Vec2>)
    ensures |uv| == VERTEX_COUNT
  {
    seq(VERTEX_COUNT, (k: int) requires 0 <= k < VERTEX_COUNT => GridUv(k / (Y_SEGMENTS + 1), k % (Y_SEGMENTS + 1)))
  }

  /** Grid point (x, y) carries surface(x, y) and texture coordinates
      (x / 16, y / 16). */
  lemma GridAt(surface: (nat, nat) -> Meshes.Vec3, x: nat, y: nat)
    requires x <= X_SEGMENTS && y <= Y_SEGMENTS
    ensures GridPositions(surface)[GridIndex(x, y)] == surface(x, y)
    ensures GridUvs()[GridIndex(x, y)] == GridUv(x, y)
  {
    GridIndexInverse(x, y);
  }

  /** The first loop nest of `setup`: positions, texture coordinates and
      normals (equal to the positions on a unit sphere), one per point, x
      in the outer loop. */
  method SphereGrid(surface: (nat, nat) -> Meshes.Vec3)
    returns (positions: seq<Meshes.Vec3>, uv: seq<Meshes.Vec2>, normals: seq<Meshes.Vec3>)
    ensures positions == GridPositions(surface) && uv == GridUvs() && normals == positions
  {
    positions, uv, normals := [], [], [];
    var x := 0;
    while x <= X_SEGMENTS
      invariant x <= X_SEGMENTS + 1
      invariant |positions| == |uv| == x * (Y_SEGMENTS + 1) && normals == positions
      invariant forall k :: 0 <= k < |positions| ==> positions[k] == GridPositions(surface)[k]
      invariant forall k :: 0 <= k < |uv| ==> uv[k] == GridUvs()[k]
    {
      var y := 0;
      while y <= Y_SEGMENTS
        invariant y <= Y_SEGMENTS + 1
        invariant |positions| == |uv| == x * (Y_SEGMENTS + 1) + y && normals == positions
        invariant forall k :: 0 <= k < |positions| ==> positions[k] == GridPositions(surface)[k]
        invariant forall k :: 0 <= k < |uv| ==> uv[k] == GridUvs()[k]
      {
        GridAt(surface, x, y);
        var point := surface(x, y);
        positions := positions + [point];
        uv := uv + [GridUv(x, y)];
        normals := normals + [point];
        y := y + 1;
      }
      x := x + 1;
    }
  }

  // ---------------------------------------------------------------------
  // The strip.

  /** Index k of the strip. Row y = k / ROW_LENGTH of the strip pairs grid
      rows y and y + 1 (reading an index as row * 17 + column); position
      j = k % ROW_LENGTH within it is column j / 2, walked upward on even
      rows and downward on odd rows. Even rows put row y first in each
      pair, odd rows row y + 1. */
  function StripIndex(k: nat): nat
    requires k < INDEX_COUNT
  {
    var y, j := k / ROW_LENGTH, k % ROW_LENGTH;
    if y % 2 == 0 then (y + j % 2) * (X_SEGMENTS + 1) + j / 2
    else (y + 1 - j % 2) * (X_SEGMENTS + 1) + (X_SEGMENTS - j / 2)
  }

  lemma StripPosition(y: nat, j: nat)
    requires y < Y_SEGMENTS && j < ROW_LENGTH
    ensures (y * ROW_LENGTH + j) / ROW_LENGTH == y && (y * ROW_LENGTH + j) % ROW_LENGTH == j
  {
  }

  /** The whole strip. */
  function Strip(): (s: seq<nat>)
    ensures |s| == INDEX_COUNT
  {
    seq(INDEX_COUNT, (k: int) requires 0 <= k < INDEX_COUNT => StripIndex(k))
  }

  /** The strip entries before position n are StripIndex of their position. */
  ghost predicate StripPrefix(indices: seq<nat>)
  {
    |indices| <= INDEX_COUNT && forall k :: 0 <= k < |indices| ==> indices[k] == StripIndex(k)
  }

  /** Column x of an even row y sits at positions 2x and 2x + 1 of it. */
  lemma EvenPair(y: nat, x: nat)
    requires y < Y_SEGMENTS && y % 2 == 0 && x <= X_SEGMENTS
    ensures StripIndex(y * ROW_LENGTH + 2 * x) == y * (X_SEGMENTS + 1) + x
    ensures StripIndex(y * ROW_LENGTH + 2 * x + 1) == (y + 1) * (X_SEGMENTS + 1) + x
  {
    StripPosition(y, 2 * x);
    StripPosition(y, 2 * x + 1);
  }

  /** Column x of an odd row y sits at positions 2(16 - x) and 2(16 - x) + 1
      of it. */
  lemma OddPair(y: nat, x: nat)
    requires y < Y_SEGMENTS && y % 2 == 1 && x <= X_SEGMENTS
    ensures StripIndex(y * ROW_LENGTH + 2 * (X_SEGMENTS - x)) == (y + 1) * (X_SEGMENTS + 1) + x
    ensures StripIndex(y * ROW_LENGTH + 2 * (X_SEGMENTS - x) + 1) == y * (X_SEGMENTS + 1) + x
  {
    StripPosition(y, 2 * (X_SEGMENTS - x));
    StripPosition(y, 2 * (X_SEGMENTS - x) + 1);
  }

  /** An even strip row y: (row y, row y + 1) for x = 0 .. 16. */
  method EvenRow(y: nat, indices: seq<nat>) returns (r: seq<nat>)
    requires y < Y_SEGMENTS && y % 2 == 0
    requires |indices| == y * ROW_LENGTH && StripPrefix(indices)
    ensures |r| == (y + 1) * ROW_LENGTH && StripPrefix(r)
  {
    r := indices;
    var x: nat := 0;
    while x <= X_SEGMENTS
      invariant x <= X_SEGMENTS + 1
      invariant |r| == y * ROW_LENGTH + 2 * x
      invariant StripPrefix(r)
    {
      ghost var p := |r|;
      EvenPair(y, x);
      r := r + [y * (X_SEGMENTS + 1) + x];
      r := r + [(y + 1) * (X_SEGMENTS + 1) + x];
      assert r[p] == StripIndex(p) && r[p + 1] == StripIndex(p + 1);
      x := x + 1;
    }
  }

  /** An odd strip row y: (row y + 1, row y) for x = 16 down to 0. */
  method OddRow(y: nat, indices: seq<nat>) returns (r: seq<nat>)
    requires y < Y_SEGMENTS && y % 2 == 1
    requires |indices| == y * ROW_LENGTH && StripPrefix(indices)
    ensures |r| == (y + 1) * ROW_LENGTH && StripPrefix(r)
  {
    r := indices;
    var x: int := X_SEGMENTS;
    while x >= 0
      invariant -1 <= x <= X_SEGMENTS
      invariant |r| == y * ROW_LENGTH + 2 * (X_SEGMENTS - x)
      invariant StripPrefix(r)
    {
      ghost var p := |r|;
      OddPair(y, x);
      r := r + [(y + 1) * (X_SEGMENTS + 1) + x];
      r := r + [y * (X_SEGMENTS + 1) + x];
      assert r[p] == StripIndex(p) && r[p + 1] == StripIndex(p + 1);
      x := x - 1;
    }
  }

  /** The index loop of `setup`: `oddRow` starts false and flips after
      every row; even rows push (row y, row y + 1) for x = 0 .. 16, odd
      rows (row y + 1, row y) for x = 16 down to 0. */
  method StripIndices() returns (indices: seq<nat>)
    ensures indices == Strip()
  {
    indices := [];
    var oddRow := false;
    var y: nat := 0;
    while y < Y_SEGMENTS
      invariant y <= Y_SEGMENTS
      invariant oddRow <==> y % 2 == 1
      invariant |indices| == y * ROW_LENGTH
      invariant StripPrefix(indices)
    {
      if !oddRow {
        indices := EvenRow(y, indices);
      } else {
        indices := OddRow(y, indices);
      }
      oddRow := !oddRow;
      y := y + 1;
    }
    assert forall k :: 0 <= k < INDEX_COUNT ==> indices[k] == Strip()[k];
  }

  /** Every strip index names a grid point. */
  lemma StripInRange(k: nat)
    requires k < INDEX_COUNT
    ensures StripIndex(k) < VERTEX_COUNT
  {
    var y, j := k / ROW_LENGTH, k % ROW_LENGTH;
    assert y < Y_SEGMENTS;
  }

  /** Each strip row stays between two neighbouring grid rows, and
      consecutive entries of a row alternate between them. */
  lemma StripRowsAdjacent(k: nat)
    requires k < INDEX_COUNT
    ensures StripIndex(k) / (X_SEGMENTS + 1) == k / ROW_LENGTH + (if (k / ROW_LENGTH) % 2 == k % 2 then 0 else 1)
  {
    var y, j := k / ROW_LENGTH, k % ROW_LENGTH;
    if y % 2 == 0 {
      assert StripIndex(k) == (y + j % 2) * 17 + j / 2;
    } else {
      assert StripIndex(k) == (y + 1 - j % 2) * 17 + (16 - j / 2);
    }
  }

  /** The strip position that reaches the grid point in row `row` and
      column `column` (index row * 17 + column): every point of the grid is
      used by the strip. */
  function CoveringPosition(row: nat, column: nat): (k: nat)
    requires row <= Y_SEGMENTS && column <= X_SEGMENTS
    ensures k < INDEX_COUNT && StripIndex(k) == row * (X_SEGMENTS + 1) + column
  {
    if row < Y_SEGMENTS then
      if row % 2 == 0 then
        var k := row * ROW_LENGTH + 2 * column;
        assert StripIndex(k) == row * (X_SEGMENTS + 1) + column by { EvenPair(row, column); }
        k
      else
        var k := row * ROW_LENGTH + 2 * (X_SEGMENTS - column) + 1;
        assert StripIndex(k) == row * (X_SEGMENTS + 1) + column by { OddPair(row, column); }
        k
    else
      // the top grid row is only reached as the upper row of strip row 15
      var k := (Y_SEGMENTS - 1) * ROW_LENGTH + 2 * (X_SEGMENTS - column);
      assert StripIndex(k) == row * (X_SEGMENTS + 1) + column by { OddPair(Y_SEGMENTS - 1, column); }
      k
  }

  // ---------------------------------------------------------------------
  // The interleaved vertex buffer.

  /** The floats of vertex i: its position, then its normal when there are
      normals, then its texture coordinates when there are any. */
  function VertexFloats(positions: seq<Meshes.Vec3>, normals: seq<Meshes.Vec3>, uv: seq<Meshes.Vec2>, i: nat): seq<real>
    requires i < |positions|
    requires normals != [] ==> |normals| >= |positions|
    requires uv != [] ==> |uv| >= |positions|
  {
    [positions[i].x, positions[i].y, positions[i].z]
    + (if normals != [] then [normals[i].x, normals[i].y, normals[i].z] else [])
    + (if uv != [] then [uv[i].x, uv[i].y] else [])
  }

  /** The floats of vertices 0 .. n-1, one after another. */
  function Interleaved(positions: seq<Meshes.Vec3>, normals: seq<Meshes.Vec3>, uv: seq<Meshes.Vec2>, n: nat): seq<real>
    requires n <= |positions|
    requires normals != [] ==> |normals| >= |positions|
    requires uv != [] ==> |uv| >= |positions|
  {
    if n == 0 then [] else Interleaved(positions, normals, uv, n - 1) + VertexFloats(positions, normals, uv, n - 1)
  }

  /** The interleave loop of `setup`. */
  method Interleave(positions: seq<Meshes.Vec3>, normals: seq<Meshes.Vec3>, uv: seq<Meshes.Vec2>) returns (data: seq<real>)
    requires normals != [] ==> |normals| >= |positions|
    requires uv != [] ==> |uv| >= |positions|
    ensures data == Interleaved(positions, normals, uv, |positions|)
  {
    data := [];
    var i := 0;
    while i < |positions|
      invariant i <= |positions|
      invariant data == Interleaved(positions, normals, uv, i)
    {
      data := data + [positions[i].x, positions[i].y, positions[i].z];
      if normals != [] {
        data := data + [normals[i].x, normals[i].y, normals[i].z];
      }
      if uv != [] {
        data := data + [uv[i].x, uv[i].y];
      }
      i := i + 1;
    }
  }

  /** With normals and texture coordinates present, vertex i occupies
      floats STRIDE * i .. STRIDE * i + 7 in the order the attribute
      pointers read them: position at 0, normal at 3, coordinates at 6. */
  lemma {:induction false} InterleavedLayout(positions: seq<Meshes.Vec3>, normals: seq<Meshes.Vec3>, uv: seq<Meshes.Vec2>, n: nat)
    requires n <= |positions| && |normals| >= |positions| && |uv| >= |positions|
    requires normals != [] && uv != []
    ensures |Interleaved(positions, normals, uv, n)| == STRIDE * n
    ensures forall i :: 0 <= i < n ==>
      Interleaved(positions, normals, uv, n)[STRIDE * i .. STRIDE * i + STRIDE]
        == [positions[i].x, positions[i].y, positions[i].z,
            normals[i].x, normals[i].y, normals[i].z, uv[i].x, uv[i].y]
  {
    if n > 0 {
      InterleavedLayout(positions, normals, uv, n - 1);
      var prev := Interleaved(positions, normals, uv, n - 1);
      var last := VertexFloats(positions, normals, uv, n - 1);
      var all := prev + last;
      forall i | 0 <= i < n
        ensures all[STRIDE * i .. STRIDE * i + STRIDE]
          == [positions[i].x, positions[i].y, positions[i].z,
              normals[i].x, normals[i].y, normals[i].z, uv[i].x, uv[i].y]
      {
        if i < n - 1 {
          assert all[STRIDE * i .. STRIDE * i + STRIDE] == prev[STRIDE * i .. STRIDE * i + STRIDE];
        } else {
          assert all[STRIDE * i .. STRIDE * i + STRIDE] == last;
        }
      }
    }
  }

  /** The calls that end `setup`: bind the VAO, upload both buffers and
      declare three attributes over the 8-float stride (the VAO stays
      bound). */
  function SetupEvents(vao: nat, data: seq<real>, indices: seq<nat>): seq<Event> {
    [ BindVertexArray(vao), ArrayBufferData(data), ElementBufferData(indices),
      AttribPointer(0, 3, STRIDE, 0), AttribPointer(1, 3, STRIDE, 3), AttribPointer(2, 2, STRIDE, 6) ]
  }

  function DrawEvents(vao: nat, indexCount: nat): seq<Event> {
    [SetVec3("lightColor")] + BoundDraw(vao, DrawElements(TRIANGLE_STRIP, indexCount))
  }

  /** Drawing the preview issues one strip draw of `indexCount` indices and
      leaves no VAO bound. */
  lemma DrawReplay(s: State, vao: nat, indexCount: nat)
    ensures var r := Replay(s, DrawEvents(vao, indexCount));
      && r.draws == s.draws + [Draw(BoundOn(s, 0), Target(s), s.width, s.height, s.blend, indexCount)]
      && r.vao == 0 && r.bound == s.bound
  {
    ReplayAppend(s, [SetVec3("lightColor")], BoundDraw(vao, DrawElements(TRIANGLE_STRIP, indexCount)));
    ReplayOne(s, SetVec3("lightColor"));
    BoundDrawReplay(s, vao, DrawElements(TRIANGLE_STRIP, indexCount));
  }

  class LightPreview {
    var vao: nat
    var indexCount: nat

    /** The constructor runs `setup`: three names are generated (VAO, vertex
        and index buffer), the strip's 544 indices and the interleaved grid
        are uploaded, and indexCount records the strip's length. */
    constructor (surface: (nat, nat) -> Meshes.Vec3, gl: Context)
      modifies gl
      ensures vao == old(gl.lastName) + 1 && gl.lastName == old(gl.lastName) + 3
      ensures indexCount == INDEX_COUNT
      ensures gl.trace == old(gl.trace)
        + SetupEvents(vao, Interleaved(GridPositions(surface), GridPositions(surface), GridUvs(), VERTEX_COUNT), Strip())
    {
      vao := 0;
      indexCount := 0;
      new;
      vao := gl.GenName();
      var vbo := gl.GenName();
      var ebo := gl.GenName();
      var positions, uv, normals := SphereGrid(surface);
      var indices := StripIndices();
      indexCount := |indices|;
      var data := Interleave(positions, normals, uv);
      assert data == Interleaved(GridPositions(surface), GridPositions(surface), GridUvs(), VERTEX_COUNT);
      Upload(vao, data, indices, gl);
    }

    /** The buffer uploads and attribute layout at the end of `setup`. */
    static method Upload(vao: nat, data: seq<real>, indices: seq<nat>, gl: Context)
      modifies gl
      ensures gl.lastName == old(gl.lastName)
      ensures gl.trace == old(gl.trace) + SetupEvents(vao, data, indices)
    {
      gl.Emit(BindVertexArray(vao));
      gl.Emit(ArrayBufferData(data));
      gl.Emit(ElementBufferData(indices));
      gl.Emit(AttribPointer(0, 3, STRIDE, 0));
      gl.Emit(AttribPointer(1, 3, STRIDE, 3));
      gl.Emit(AttribPointer(2, 2, STRIDE, 6));
    }

    /** `Draw`: sets the light colour and draws the whole strip. */
    method Draw(gl: Context)
      modifies gl
      ensures gl.lastName == old(gl.lastName)
      ensures gl.trace == old(gl.trace) + DrawEvents(vao, indexCount)
    {
      gl.Emit(SetVec3("lightColor"));
      gl.Emit(BindVertexArray(vao));
      gl.Emit(DrawElements(TRIANGLE_STRIP, indexCount));
      gl.Emit(BindVertexArray(0));
    }
  }
}
