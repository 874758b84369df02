/**
 * The seven tetrominoes of app/utils/tetrominos.ts and the clockwise
 * rotation of a shape matrix.
 */
module Tetrominos {
  import opened Types

  datatype Tetromino = Tetromino(shape: Shape, color: string)

  /** The TETROMINOS table. */
  function TetrominoOf(t: TetrominoType): Tetromino {
    match t
    case I => Tetromino([[0, 0, 0, 0], [1, 1, 1, 1], [0, 0, 0, 0], [0, 0, 0, 0]], "#00f5ff")
    case O => Tetromino([[1, 1], [1, 1]], "#ffd700")
    case T => Tetromino([[0, 1, 0], [1, 1, 1], [0, 0, 0]], "#a855f7")
    case S => Tetromino([[0, 1, 1], [1, 1, 0], [0, 0, 0]], "#22c55e")
    case Z => Tetromino([[1, 1, 0], [0, 1, 1], [0, 0, 0]], "#ef4444")
    case J => Tetromino([[1, 0, 0], [1, 1, 1], [0, 0, 0]], "#3b82f6")
    case L => Tetromino([[0, 0, 1], [1, 1, 1], [0, 0, 0]], "#f97316")
  }

  /** The keys of the table, in declaration order. */
  const ALL_TYPES: seq<TetrominoType> := [I, O, T, S, Z, J, L]

  /** A rectangular shape with at least one column. */
  predicate WellShaped(s: Shape) {
    Rectangular(s) && |s[0]| > 0
  }

  /** Every entry is 0 or 1. */
  predicate Binary(s: Shape) {
    forall y, x :: 0 <= y < |s| && 0 <= x < |s[y]| ==> s[y][x] == 0 || s[y][x] == 1
  }

  // ---------------------------------------------------------------------------
  // Counting blocks
  // ---------------------------------------------------------------------------

  /** Number of non-zero entries of a row. */
  function RowBlocks(row: seq<int>): nat {
    if row == [] then 0
    else RowBlocks(row[..|row| - 1]) + (if row[|row| - 1] != 0 then 1 else 0)
  }

  /** Number of non-zero entries of a shape. */
  function ShapeBlocks(s: Shape): nat {
    if s == [] then 0 else ShapeBlocks(s[..|s| - 1]) + RowBlocks(s[|s| - 1])
  }

  lemma {:induction false} RowBlocksWitness(row: seq<int>)
    requires RowBlocks(row) > 0
    ensures exists x :: 0 <= x < |row| && row[x] != 0
  {
    var n := |row|;
    if row[n - 1] == 0 {
      RowBlocksWitness(row[..n - 1]);
      var x :| 0 <= x < n - 1 && row[..n - 1][x] != 0;
      assert row[x] != 0;
    }
  }

  /** A shape that counts a block has one. */
  lemma {:induction false} BlocksGiveBlock(s: Shape)
    requires ShapeBlocks(s) > 0
    ensures HasBlock(s)
  {
    var n := |s|;
    if RowBlocks(s[n - 1]) > 0 {
      RowBlocksWitness(s[n - 1]);
      var x :| 0 <= x < |s[n - 1]| && s[n - 1][x] != 0;
    } else {
      BlocksGiveBlock(s[..n - 1]);
      var y, x :| 0 <= y < n - 1 && 0 <= x < |s[..n - 1][y]| && s[..n - 1][y][x] != 0;
      assert s[y][x] != 0;
    }
  }

  /** Column `i` of a shape, top to bottom. */
  function Column(s: Shape, i: nat): (c: seq<int>)
    requires forall y :: 0 <= y < |s| ==> i < |s[y]|
    ensures |c| == |s| && forall y :: 0 <= y < |s| ==> c[y] == s[y][i]
  {
    seq(|s|, y requires 0 <= y < |s| => s[y][i])
  }

  /** Number of blocks in the first `n` columns, counted column by column. */
  function ColumnsBlocks(s: Shape, n: nat): nat
    requires forall y :: 0 <= y < |s| ==> n <= |s[y]|
  {
    if n == 0 then 0 else ColumnsBlocks(s, n - 1) + RowBlocks(Column(s, n - 1))
  }

  function Reverse(r: seq<int>): (v: seq<int>)
    ensures |v| == |r| && forall k :: 0 <= k < |r| ==> v[k] == r[|r| - 1 - k]
  {
    seq(|r|, k requires 0 <= k < |r| => r[|r| - 1 - k])
  }

  // ---------------------------------------------------------------------------
  // Rotation
  // ---------------------------------------------------------------------------

  /**
   * The clockwise rotation of a shape: column `i` of `s`, read bottom to top,
   * becomes row `i` of the result.
   */
  function Rotated(s: Shape): (r: Shape)
    requires Rectangular(s)
    ensures |r| == |s[0]| && RowsOfWidth(r, |s|)
  {
    seq(|s[0]|, i requires 0 <= i < |s[0]| => seq(|s|, k requires 0 <= k < |s| => s[|s| - 1 - k][i]))
  }

  /** rotated[i][rows - 1 - j] == shape[j][i], for every cell of an r x c shape. */
  lemma RotatedAt(s: Shape, i: int, j: int)
    requires Rectangular(s) && 0 <= i < |s[0]| && 0 <= j < |s|
    ensures Rotated(s)[i][|s| - 1 - j] == s[j][i]
  {
  }

  /** An r x c well-shaped matrix rotates to a c x r well-shaped matrix. */
  lemma RotatedWellShaped(s: Shape)
    requires WellShaped(s)
    ensures WellShaped(Rotated(s)) && |Rotated(s)| == |s[0]| && |Rotated(s)[0]| == |s|
  {
  }

  /** Rotating twice turns the shape upside down and mirrors it. */
  lemma RotatedTwiceAt(s: Shape, a: int, b: int)
    requires WellShaped(s) && 0 <= a < |s| && 0 <= b < |s[0]|
    ensures WellShaped(Rotated(Rotated(s)))
    ensures |Rotated(Rotated(s))| == |s| && |Rotated(Rotated(s))[a]| == |s[0]|
    ensures Rotated(Rotated(s))[a][b] == s[|s| - 1 - a][|s[0]| - 1 - b]
  {
    RotatedWellShaped(s);
    RotatedWellShaped(Rotated(s));
  }

  /** Four successive rotations give back the original shape. */
  lemma FourRotationsIdentity(s: Shape)
    requires WellShaped(s)
    ensures WellShaped(Rotated(s)) && WellShaped(Rotated(Rotated(s)))
    ensures WellShaped(Rotated(Rotated(Rotated(s))))
    ensures Rotated(Rotated(Rotated(Rotated(s)))) == s
  {
    RotatedWellShaped(s);
    RotatedWellShaped(Rotated(s));
    var r2 := Rotated(Rotated(s));
    RotatedWellShaped(r2);
    RotatedWellShaped(Rotated(r2));
    var r4 := Rotated(Rotated(r2));
    assert |r4| == |s|;
    forall a | 0 <= a < |s|
      ensures r4[a] == s[a]
    {
      forall b | 0 <= b < |s[0]|
        ensures r4[a][b] == s[a][b]
      {
        RotatedTwiceAt(r2, a, b);
        RotatedTwiceAt(s, |s| - 1 - a, |s[0]| - 1 - b);
      }
    }
  }

  // ---------------------------------------------------------------------------
  // Rotation keeps the number of blocks
  // ---------------------------------------------------------------------------

  /** Counting a row from its first entry instead of its last. */
  lemma {:induction false} RowBlocksFront(r: seq<int>)
    requires r != []
    ensures RowBlocks(r) == (if r[0] != 0 then 1 else 0) + RowBlocks(r[1..])
  {
    if |r| > 1 {
      var init := r[..|r| - 1];
      RowBlocksFront(init);
      assert init[1..] == r[1..][..|r[1..]| - 1];
      assert init[0] == r[0];
    } else {
      assert r[..0] == [];
      assert r[1..] == [];
    }
  }

  lemma {:induction false} RowBlocksReverse(r: seq<int>)
    ensures RowBlocks(Reverse(r)) == RowBlocks(r)
  {
    if r != [] {
      var v := Reverse(r);
      assert v[..|v| - 1] == Reverse(r[1..]);
      RowBlocksReverse(r[1..]);
      RowBlocksFront(r);
    }
  }

  lemma {:induction false} ColumnsBlocksOfNoRows(s: Shape, n: nat)
    requires s == []
    ensures ColumnsBlocks(s, n) == 0
  {
    if n > 0 {
      ColumnsBlocksOfNoRows(s, n - 1);
      assert Column(s, n - 1) == [];
    }
  }

  /** Adding a row to a shape adds that row's first `n` entries to the column count. */
  lemma {:induction false} ColumnsBlocksLastRow(s: Shape, n: nat)
    requires s != [] && forall y :: 0 <= y < |s| ==> n <= |s[y]|
    ensures ColumnsBlocks(s, n) == ColumnsBlocks(s[..|s| - 1], n) + RowBlocks(s[|s| - 1][..n])
  {
    var init, last := s[..|s| - 1], s[|s| - 1];
    if n == 0 {
      assert last[..0] == [];
    } else {
      ColumnsBlocksLastRow(s, n - 1);
      assert Column(s, n - 1)[..|s| - 1] == Column(init, n - 1);
      assert last[..n][..n - 1] == last[..n - 1];
    }
  }

  /** Counting by rows and counting by columns agree. */
  lemma {:induction false} RowsEqualColumns(s: Shape, c: nat)
    requires RowsOfWidth(s, c)
    ensures ShapeBlocks(s) == ColumnsBlocks(s, c)
  {
    if s == [] {
      ColumnsBlocksOfNoRows(s, c);
    } else {
      var init := s[..|s| - 1];
      RowsEqualColumns(init, c);
      ColumnsBlocksLastRow(s, c);
      assert s[|s| - 1][..c] == s[|s| - 1];
    }
  }

  lemma {:induction false} RotatedPrefixBlocks(s: Shape, n: nat)
    requires Rectangular(s) && n <= |s[0]|
    ensures ShapeBlocks(Rotated(s)[..n]) == ColumnsBlocks(s, n)
  {
    var r := Rotated(s);
    if n == 0 {
      assert r[..0] == [];
    } else {
      RotatedPrefixBlocks(s, n - 1);
      assert r[..n][..n - 1] == r[..n - 1];
      assert r[n - 1] == Reverse(Column(s, n - 1));
      RowBlocksReverse(Column(s, n - 1));
    }
  }

  /** Rotation keeps the number of blocks. */
  lemma RotatedBlocks(s: Shape)
    requires Rectangular(s)
    ensures ShapeBlocks(Rotated(s)) == ShapeBlocks(s)
  {
    RotatedPrefixBlocks(s, |s[0]|);
    assert Rotated(s)[..|s[0]|] == Rotated(s);
    RowsEqualColumns(s, |s[0]|);
  }

  /** Rotation keeps a 0/1 matrix a 0/1 matrix. */
  lemma RotatedBinary(s: Shape)
    requires Rectangular(s) && Binary(s)
    ensures Binary(Rotated(s))
  {
  }

  // ---------------------------------------------------------------------------
  // rotateShape and getAllRotations
  // ---------------------------------------------------------------------------

  /** rotateShape: fills a fresh matrix row by row. */
  method RotateShape(s: Shape) returns (rotated: Shape)
    requires Rectangular(s)
    ensures rotated == Rotated(s)
  {
    var rows, cols := |s|, |s[0]|;
    rotated := [];
    var i := 0;
    while i < cols
      invariant 0 <= i <= cols
      invariant rotated == Rotated(s)[..i]
    {
      var row: seq<int> := [];
      var j := rows - 1;
      while j >= 0
        invariant -1 <= j <= rows - 1
        invariant |row| == rows - 1 - j
        invariant forall k :: 0 <= k < |row| ==> row[k] == s[rows - 1 - k][i]
      {
        row := row + [s[j][i]];
        j := j - 1;
      }
      assert row == Rotated(s)[i];
      rotated := rotated + [row];
      i := i + 1;
    }
    assert Rotated(s)[..cols] == Rotated(s);
  }

  /** A shape and its three successive clockwise rotations. */
  function Orientations(s0: Shape): (rs: seq<Shape>)
    requires WellShaped(s0)
    ensures |rs| == 4 && rs[0] == s0
    ensures forall k :: 0 <= k < 4 ==> WellShaped(rs[k])
  {
    RotatedWellShaped(s0);
    RotatedWellShaped(Rotated(s0));
    RotatedWellShaped(Rotated(Rotated(s0)));
    [s0, Rotated(s0), Rotated(Rotated(s0)), Rotated(Rotated(Rotated(s0)))]
  }

  /** The four orientations of a tetromino, the spawn orientation first. */
  function Rotations(t: TetrominoType): (rs: seq<Shape>)
    ensures |rs| == 4
  {
    CatalogWellShaped(t);
    Orientations(TetrominoOf(t).shape)
  }

  /** getAllRotations: pushes the current shape and rotates it, four times. */
  method GetAllRotations(t: TetrominoType) returns (shapes: seq<Shape>)
    ensures |shapes| == 4 && shapes[0] == TetrominoOf(t).shape
    ensures forall k :: 0 <= k < 3 ==> Rectangular(shapes[k]) && shapes[k + 1] == Rotated(shapes[k])
    ensures shapes == Rotations(t)
  {
    CatalogWellShaped(t);
    shapes := [];
    var current := TetrominoOf(t).shape;
    var i := 0;
    while i < 4
      invariant 0 <= i <= 4
      invariant shapes == Rotations(t)[..i]
      invariant current == Rotations(t)[i % 4]
      invariant WellShaped(current)
    {
      shapes := shapes + [current];
      RotationsCycle(t, i % 4);
      current := RotateShape(current);
      i := i + 1;
    }
    assert Rotations(t)[..4] == Rotations(t);
  }

  // ---------------------------------------------------------------------------
  // Facts about the table
  // ---------------------------------------------------------------------------

  lemma CatalogWellShaped(t: TetrominoType)
    ensures WellShaped(TetrominoOf(t).shape)
  {
  }

  function Bit(v: int): nat { if v != 0 then 1 else 0 }

  lemma RowBlocks2(a: int, b: int)
    ensures RowBlocks([a, b]) == Bit(a) + Bit(b)
  {
    assert [a, b][..1] == [a];
    assert [a][..0] == [];
    assert RowBlocks([a]) == Bit(a);
  }

  lemma RowBlocks3(a: int, b: int, c: int)
    ensures RowBlocks([a, b, c]) == Bit(a) + Bit(b) + Bit(c)
  {
    assert [a, b, c][..2] == [a, b];
    RowBlocks2(a, b);
  }

  lemma RowBlocks4(a: int, b: int, c: int, d: int)
    ensures RowBlocks([a, b, c, d]) == Bit(a) + Bit(b) + Bit(c) + Bit(d)
  {
    assert [a, b, c, d][..3] == [a, b, c];
    RowBlocks3(a, b, c);
  }

  lemma ShapeBlocks2(r0: seq<int>, r1: seq<int>)
    ensures ShapeBlocks([r0, r1]) == RowBlocks(r0) + RowBlocks(r1)
  {
    assert [r0, r1][..1] == [r0];
    assert [r0][..0] == [];
    assert ShapeBlocks([r0]) == RowBlocks(r0);
  }

  lemma ShapeBlocks3(r0: seq<int>, r1: seq<int>, r2: seq<int>)
    ensures ShapeBlocks([r0, r1, r2]) == RowBlocks(r0) + RowBlocks(r1) + RowBlocks(r2)
  {
    assert [r0, r1, r2][..2] == [r0, r1];
    ShapeBlocks2(r0, r1);
  }

  lemma ShapeBlocks4(r0: seq<int>, r1: seq<int>, r2: seq<int>, r3: seq<int>)
    ensures ShapeBlocks([r0, r1, r2, r3]) == RowBlocks(r0) + RowBlocks(r1) + RowBlocks(r2) + RowBlocks(r3)
  {
    assert [r0, r1, r2, r3][..3] == [r0, r1, r2];
    ShapeBlocks3(r0, r1, r2);
  }

  /** Every shape of the table holds only 0 and 1. */
  lemma CatalogBinary(t: TetrominoType)
    ensures Binary(TetrominoOf(t).shape)
  {
    match t
    case I =>
    case O =>
    case T =>
    case S =>
    case Z =>
    case J =>
    case L =>
  }

  /** Every shape of the table is a 0/1 matrix with exactly four blocks. */
  lemma CatalogShapes(t: TetrominoType)
    ensures WellShaped(TetrominoOf(t).shape) && Binary(TetrominoOf(t).shape)
    ensures ShapeBlocks(TetrominoOf(t).shape) == 4
  {
    CatalogWellShaped(t);
    CatalogBinary(t);
    CatalogBlocks(t);
  }

  /** Every shape of the table has exactly four blocks. */
  lemma CatalogBlocks(t: TetrominoType)
    ensures ShapeBlocks(TetrominoOf(t).shape) == 4
  {
    RowBlocks3(0, 0, 0);
    match t
    case I =>
      RowBlocks4(0, 0, 0, 0);
      RowBlocks4(1, 1, 1, 1);
      ShapeBlocks4([0, 0, 0, 0], [1, 1, 1, 1], [0, 0, 0, 0], [0, 0, 0, 0]);
    case O =>
      RowBlocks2(1, 1);
      ShapeBlocks2([1, 1], [1, 1]);
    case T =>
      RowBlocks3(0, 1, 0);
      RowBlocks3(1, 1, 1);
      ShapeBlocks3([0, 1, 0], [1, 1, 1], [0, 0, 0]);
    case S =>
      RowBlocks3(0, 1, 1);
      RowBlocks3(1, 1, 0);
      ShapeBlocks3([0, 1, 1], [1, 1, 0], [0, 0, 0]);
    case Z =>
      RowBlocks3(1, 1, 0);
      RowBlocks3(0, 1, 1);
      ShapeBlocks3([1, 1, 0], [0, 1, 1], [0, 0, 0]);
    case J =>
      RowBlocks3(1, 0, 0);
      RowBlocks3(1, 1, 1);
      ShapeBlocks3([1, 0, 0], [1, 1, 1], [0, 0, 0]);
    case L =>
      RowBlocks3(0, 0, 1);
      RowBlocks3(1, 1, 1);
      ShapeBlocks3([0, 0, 1], [1, 1, 1], [0, 0, 0]);
  }

  /** The seven types are pairwise distinct and have pairwise distinct colours. */
  lemma CatalogColorsDistinct(t1: TetrominoType, t2: TetrominoType)
    requires t1 != t2
    ensures TetrominoOf(t1).color != TetrominoOf(t2).color
  {
  }

  lemma AllTypesComplete(t: TetrominoType)
    ensures |ALL_TYPES| == 7 && t in ALL_TYPES
  {
  }

  /** Each orientation has as many blocks as the shape, and is 0/1 if the shape is. */
  lemma {:induction false} OrientationsKeepBlocks(s0: Shape, k: int)
    requires WellShaped(s0) && 0 <= k < 4
    ensures ShapeBlocks(Orientations(s0)[k]) == ShapeBlocks(s0)
    ensures Binary(s0) ==> Binary(Orientations(s0)[k])
  {
    var rs := Orientations(s0);
    if k > 0 {
      OrientationsKeepBlocks(s0, k - 1);
      assert rs[k] == Rotated(rs[k - 1]);
      RotatedBlocks(rs[k - 1]);
      if Binary(s0) {
        RotatedBinary(rs[k - 1]);
      }
    }
  }

  /** Rotating any orientation gives the next one, and the fourth closes the cycle. */
  lemma OrientationsCycle(s0: Shape, k: int)
    requires WellShaped(s0) && 0 <= k < 4
    ensures Rotated(Orientations(s0)[k]) == Orientations(s0)[(k + 1) % 4]
  {
    var rs := Orientations(s0);
    if k < 3 {
      assert rs[k + 1] == Rotated(rs[k]);
    } else {
      FourRotationsIdentity(s0);
    }
  }

  /** Every orientation of every tetromino is a 0/1 matrix with four blocks. */
  lemma RotationsShapes(t: TetrominoType, k: int)
    requires 0 <= k < 4
    ensures WellShaped(Rotations(t)[k]) && Binary(Rotations(t)[k]) && ShapeBlocks(Rotations(t)[k]) == 4
  {
    CatalogShapes(t);
    OrientationsKeepBlocks(TetrominoOf(t).shape, k);
  }

  /** Rotating any orientation of a tetromino gives the next one; the fourth closes the cycle. */
  lemma RotationsCycle(t: TetrominoType, k: int)
    requires 0 <= k < 4
    ensures WellShaped(Rotations(t)[k])
    ensures Rotated(Rotations(t)[k]) == Rotations(t)[(k + 1) % 4]
  {
    CatalogWellShaped(t);
    OrientationsCycle(TetrominoOf(t).shape, k);
  }

  /** Rotating O gives O. */
  lemma RotateO()
    ensures Rotated(TetrominoOf(O).shape) == TetrominoOf(O).shape
  {
    var r := Rotated(TetrominoOf(O).shape);
    assert r[0] == [1, 1];
    assert r[1] == [1, 1];
  }

  /** Rotating the horizontal I gives a vertical bar in column 2. */
  lemma RotateI()
    ensures Rotated(TetrominoOf(I).shape) == [[0, 0, 1, 0], [0, 0, 1, 0], [0, 0, 1, 0], [0, 0, 1, 0]]
  {
    var r := Rotated(TetrominoOf(I).shape);
    assert r[0] == [0, 0, 1, 0];
    assert r[1] == [0, 0, 1, 0];
    assert r[2] == [0, 0, 1, 0];
    assert r[3] == [0, 0, 1, 0];
  }
}
