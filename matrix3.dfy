/** An immutable 3x3 matrix given by its three row vectors, over the reals
    (the Java class computes in `float`). */
module Matrices {
  import opened Common

  datatype Matrix3 = Matrix3(a: Vector3, b: Vector3, c: Vector3)

  /** The 3x3 identity matrix. */
  const Identity := Matrix3(Vector3(1.0, 0.0, 0.0), Vector3(0.0, 1.0, 0.0), Vector3(0.0, 0.0, 1.0))

  /** Component `i` of a vector (x, y, z for 0, 1, 2); any other index fails. */
  function Get(v: Vector3, i: int): (r: Result<real>)
    ensures r.Ok? <==> 0 <= i < 3
  {
    if i == 0 then Ok(v.x)
    else if i == 1 then Ok(v.y)
    else if i == 2 then Ok(v.z)
    else Err(IndexOutOfRange)
  }

  /** The row vector at index `i`; any index other than 0, 1, 2 throws. */
  function Row(m: Matrix3, i: int): (r: Result<Vector3>)
    ensures r.Ok? <==> 0 <= i < 3
    ensures r.Err? ==> r.error == IllegalState
  {
    match i
    case 0 => Ok(m.a)
    case 1 => Ok(m.b)
    case 2 => Ok(m.c)
    case _ => Err(IllegalState)
  }

  /** The entry in row `i`, column `j`. */
  function Entry(m: Matrix3, i: int, j: int): real
    requires 0 <= i < 3 && 0 <= j < 3
  {
    Get(Row(m, i).value, j).value
  }

  /** The vector of the entries of column `i`. */
  function Column(m: Matrix3, i: int): (r: Result<Vector3>)
    ensures r.Ok? <==> 0 <= i < 3
  {
    match Get(m.a, i)
    case Err(e) => Err(e)
    case Ok(ai) => Ok(Vector3(ai, Get(m.b, i).value, Get(m.c, i).value))
  }

  /** Rows become columns. */
  function Transpose(m: Matrix3): Matrix3
  {
    Matrix3(
      Vector3(m.a.x, m.b.x, m.c.x),
      Vector3(m.a.y, m.b.y, m.c.y),
      Vector3(m.a.z, m.b.z, m.c.z))
  }

  /** Component k of column i is the entry in row k, column i. */
  lemma ColumnEntries(m: Matrix3, i: int, k: int)
    requires 0 <= i < 3 && 0 <= k < 3
    ensures Get(Column(m, i).value, k) == Ok(Entry(m, k, i))
  {
  }

  /** Entry (i, j) of the transpose is entry (j, i). */
  lemma TransposeEntries(m: Matrix3, i: int, j: int)
    requires 0 <= i < 3 && 0 <= j < 3
    ensures Entry(Transpose(m), i, j) == Entry(m, j, i)
  {
  }

  /** The determinant by cofactor expansion along the first row. */
  function Determinant(m: Matrix3): real
  {
    var deta := m.a.x * ((m.b.y * m.c.z) - (m.b.z * m.c.y));
    var detb := -m.a.y * ((m.b.x * m.c.z) - (m.b.z * m.c.x));
    var detc := m.a.z * ((m.b.x * m.c.y) - (m.b.y * m.c.x));
    deta + detb + detc
  }

  /** The determinant of the 2x2 matrix left after deleting row `y` and
      column `x`; an index outside 0..2 throws. */
  function MinorDeterminant(m: Matrix3, y: int, x: int): (r: Result<real>)
    ensures r.Ok? <==> 0 <= y < 3 && 0 <= x < 3
    ensures r.Err? ==> r.error == IllegalArgument
  {
    if x < 0 || x > 2 || y < 0 || y > 2 then Err(IllegalArgument)
    else
      var left := if x == 0 then 1 else 0;
      var right := if x == 2 then 1 else 2;
      var top := if y == 0 then 1 else 0;
      var bottom := if y == 2 then 1 else 2;
      Ok(Entry(m, top, left) * Entry(m, bottom, right) - Entry(m, top, right) * Entry(m, bottom, left))
  }

  /** The inverse: the transposed cofactor matrix times the reciprocal of
      the determinant; a singular matrix throws. */
  function Inverse(m: Matrix3): (r: Result<Matrix3>)
    ensures r.Err? <==> Determinant(m) == 0.0
    ensures r.Err? ==> r.error == IllegalArgument
    ensures r.Ok? ==> DotMatrix(m, r.value) == Identity && DotMatrix(r.value, m) == Identity
  {
    var determinant := Determinant(m);
    if determinant == 0.0 then Err(IllegalArgument)
    else
      var inv := 1.0 / determinant;
      InverseProducts(m, inv);
      Ok(ScaledCofactors(m, inv))
  }

  /** Entry (i, j) is the minor of the transpose at (i, j), times `k` with
      the cofactor sign applied. */
  function ScaledCofactors(m: Matrix3, k: real): Matrix3
  {
    var t := Transpose(m);
    Matrix3(
      Vector3(
        MinorDeterminant(t, 0, 0).value * k,
        MinorDeterminant(t, 0, 1).value * -k,
        MinorDeterminant(t, 0, 2).value * k),
      Vector3(
        MinorDeterminant(t, 1, 0).value * -k,
        MinorDeterminant(t, 1, 1).value * k,
        MinorDeterminant(t, 1, 2).value * -k),
      Vector3(
        MinorDeterminant(t, 2, 0).value * k,
        MinorDeterminant(t, 2, 1).value * -k,
        MinorDeterminant(t, 2, 2).value * k))
  }

  /** Matrix times column vector. */
  function DotVector(m: Matrix3, v: Vector3): Vector3
  {
    Vector3(Dot(m.a, v), Dot(m.b, v), Dot(m.c, v))
  }

  /** Matrix product. */
  function DotMatrix(m: Matrix3, n: Matrix3): Matrix3
  {
    var c0 := Column(n, 0).value;
    var c1 := Column(n, 1).value;
    var c2 := Column(n, 2).value;
    Matrix3(
      Vector3(Dot(m.a, c0), Dot(m.a, c1), Dot(m.a, c2)),
      Vector3(Dot(m.b, c0), Dot(m.b, c1), Dot(m.b, c2)),
      Vector3(Dot(m.c, c0), Dot(m.c, c1), Dot(m.c, c2)))
  }

  predicate IsIdentity(m: Matrix3)
    ensures IsIdentity(m) <==> m == Identity
  {
    m.a == Identity.a && m.b == Identity.b && m.c == Identity.c
  }

  /** The sum of the main diagonal. */
  function Trace(m: Matrix3): real
  {
    m.a.x + m.b.y + m.c.z
  }

  /** Transposing twice gives the matrix back, and keeps the trace. */
  lemma TransposeInvolution(m: Matrix3)
    ensures Transpose(Transpose(m)) == m
    ensures Trace(Transpose(m)) == Trace(m)
  {
  }

  /** The identity is neutral on both sides of the product, and for the
      product with a vector. */
  lemma IdentityNeutral(m: Matrix3, v: Vector3)
    ensures DotMatrix(Identity, m) == m
    ensures DotMatrix(m, Identity) == m
    ensures DotVector(Identity, v) == v
    ensures Trace(Identity) == 3.0
  {
  }

  /** Column j of a product is the first factor applied to column j of the
      second. */
  lemma ProductColumns(m: Matrix3, n: Matrix3, j: int)
    requires 0 <= j < 3
    ensures Column(DotMatrix(m, n), j) == Ok(DotVector(m, Column(n, j).value))
  {
  }

  /** Cofactor expansion along the first row. */
  lemma DeterminantExpansion(m: Matrix3)
    ensures Determinant(m) == m.a.x * MinorDeterminant(m, 0, 0).value
      - m.a.y * MinorDeterminant(m, 0, 1).value
      + m.a.z * MinorDeterminant(m, 0, 2).value
  {
    MulCongruent(m.a.x, m.a.x, MinorDeterminant(m, 0, 0).value, m.b.y * m.c.z - m.b.z * m.c.y);
    MulCongruent(m.a.y, m.a.y, MinorDeterminant(m, 0, 1).value, m.b.x * m.c.z - m.b.z * m.c.x);
    MulCongruent(m.a.z, m.a.z, MinorDeterminant(m, 0, 2).value, m.b.x * m.c.y - m.b.y * m.c.x);
  }

  /** A matrix and its transpose have the same determinant. */
  lemma DeterminantOfTranspose(m: Matrix3)
    ensures Determinant(Transpose(m)) == Determinant(m)
  {
    DeterminantAsTripleProduct(m);
    DeterminantAsTripleProduct(Transpose(m));
  }

  /** With `k` the reciprocal of the determinant, the scaled cofactor
      matrix is a two-sided inverse. */
  lemma InverseProducts(m: Matrix3, k: real)
    requires k * Determinant(m) == 1.0
    ensures DotMatrix(m, ScaledCofactors(m, k)) == Identity
    ensures DotMatrix(ScaledCofactors(m, k), m) == Identity
  {
    RightInverseRow0(m, k);
    RightInverseRow1(m, k);
    RightInverseRow2(m, k);
    LeftInverseRow0(m, k);
    LeftInverseRow1(m, k);
    LeftInverseRow2(m, k);
  }

  /** Row i of m times the scaled cofactors: the columns of the cofactor
      matrix are k (b x c), k (c x a) and k (a x b) for the rows a, b, c of
      m, so each entry is k times a triple product of rows of m. */
  lemma RightInverseRow0(m: Matrix3, k: real)
    requires k * Determinant(m) == 1.0
    ensures DotMatrix(m, ScaledCofactors(m, k)).a == Identity.a
  {
    var n := ScaledCofactors(m, k);
    CofactorColumns(m, k);
    ColumnsOfTranspose(n);
    assert Column(n, 0).value == Scale(Cross(m.b, m.c), k);
    assert Column(n, 1).value == Scale(Cross(m.c, m.a), k);
    assert Column(n, 2).value == Scale(Cross(m.a, m.b), k);
    assert DotMatrix(m, n).a == Vector3(Dot(m.a, Scale(Cross(m.b, m.c), k)), Dot(m.a, Scale(Cross(m.c, m.a), k)), Dot(m.a, Scale(Cross(m.a, m.b), k)));
    DeterminantAsTripleProduct(m);
    DotScale(m.a, Cross(m.b, m.c), k);
    DotScale(m.a, Cross(m.c, m.a), k);
    DotScale(m.a, Cross(m.a, m.b), k);
    TripleProductRepeats(m.c, m.a);
    TripleProductRepeats(m.a, m.b);
    MulCongruent(k, k, Dot(m.a, Cross(m.b, m.c)), Determinant(m));
  }

  lemma RightInverseRow1(m: Matrix3, k: real)
    requires k * Determinant(m) == 1.0
    ensures DotMatrix(m, ScaledCofactors(m, k)).b == Identity.b
  {
    var n := ScaledCofactors(m, k);
    CofactorColumns(m, k);
    ColumnsOfTranspose(n);
    assert Column(n, 0).value == Scale(Cross(m.b, m.c), k);
    assert Column(n, 1).value == Scale(Cross(m.c, m.a), k);
    assert Column(n, 2).value == Scale(Cross(m.a, m.b), k);
    assert DotMatrix(m, n).b == Vector3(Dot(m.b, Scale(Cross(m.b, m.c), k)), Dot(m.b, Scale(Cross(m.c, m.a), k)), Dot(m.b, Scale(Cross(m.a, m.b), k)));
    DeterminantAsTripleProduct(m);
    DotScale(m.b, Cross(m.b, m.c), k);
    DotScale(m.b, Cross(m.c, m.a), k);
    DotScale(m.b, Cross(m.a, m.b), k);
    TripleProductRotates(m.a, m.b, m.c);
    TripleProductRepeats(m.b, m.c);
    TripleProductRepeats(m.a, m.b);
    MulCongruent(k, k, Dot(m.b, Cross(m.c, m.a)), Determinant(m));
  }

  lemma RightInverseRow2(m: Matrix3, k: real)
    requires k * Determinant(m) == 1.0
    ensures DotMatrix(m, ScaledCofactors(m, k)).c == Identity.c
  {
    var n := ScaledCofactors(m, k);
    CofactorColumns(m, k);
    ColumnsOfTranspose(n);
    assert Column(n, 0).value == Scale(Cross(m.b, m.c), k);
    assert Column(n, 1).value == Scale(Cross(m.c, m.a), k);
    assert Column(n, 2).value == Scale(Cross(m.a, m.b), k);
    assert DotMatrix(m, n).c == Vector3(Dot(m.c, Scale(Cross(m.b, m.c), k)), Dot(m.c, Scale(Cross(m.c, m.a), k)), Dot(m.c, Scale(Cross(m.a, m.b), k)));
    DeterminantAsTripleProduct(m);
    DotScale(m.c, Cross(m.b, m.c), k);
    DotScale(m.c, Cross(m.c, m.a), k);
    DotScale(m.c, Cross(m.a, m.b), k);
    TripleProductRotates(m.a, m.b, m.c);
    TripleProductRepeats(m.b, m.c);
    TripleProductRepeats(m.c, m.a);
    MulCongruent(k, k, Dot(m.c, Cross(m.a, m.b)), Determinant(m));
  }

  /** Row i of the scaled cofactors times m: with p, q, r the columns of m,
      the rows of the cofactor matrix are k (q x r), k (r x p), k (p x q),
      so each entry is k times a triple product of columns of m. */
  lemma LeftInverseRow0(m: Matrix3, k: real)
    requires k * Determinant(m) == 1.0
    ensures DotMatrix(ScaledCofactors(m, k), m).a == Identity.a
  {
    var t := Transpose(m);
    var row := Scale(Cross(t.b, t.c), k);
    CofactorRow0(m, k);
    ColumnsOfTranspose(m);
    DeterminantAsTripleProduct(m);
    DotCommutes(row, t.a);
    DotCommutes(row, t.b);
    DotCommutes(row, t.c);
    DotScale(t.a, Cross(t.b, t.c), k);
    DotScale(t.b, Cross(t.b, t.c), k);
    DotScale(t.c, Cross(t.b, t.c), k);
    TripleProductRepeats(t.b, t.c);
    MulCongruent(k, k, Dot(t.a, Cross(t.b, t.c)), Determinant(m));
  }

  lemma LeftInverseRow1(m: Matrix3, k: real)
    requires k * Determinant(m) == 1.0
    ensures DotMatrix(ScaledCofactors(m, k), m).b == Identity.b
  {
    var t := Transpose(m);
    var row := Scale(Cross(t.c, t.a), k);
    CofactorRow1(m, k);
    CrossSwapScale(t.a, t.c, k);
    ColumnsOfTranspose(m);
    DeterminantAsTripleProduct(m);
    DotCommutes(row, t.a);
    DotCommutes(row, t.b);
    DotCommutes(row, t.c);
    DotScale(t.a, Cross(t.c, t.a), k);
    DotScale(t.b, Cross(t.c, t.a), k);
    DotScale(t.c, Cross(t.c, t.a), k);
    TripleProductRotates(t.a, t.b, t.c);
    TripleProductRepeats(t.c, t.a);
    MulCongruent(k, k, Dot(t.b, Cross(t.c, t.a)), Determinant(m));
  }

  lemma LeftInverseRow2(m: Matrix3, k: real)
    requires k * Determinant(m) == 1.0
    ensures DotMatrix(ScaledCofactors(m, k), m).c == Identity.c
  {
    var t := Transpose(m);
    var row := Scale(Cross(t.a, t.b), k);
    CofactorRow2(m, k);
    ColumnsOfTranspose(m);
    DeterminantAsTripleProduct(m);
    DotCommutes(row, t.a);
    DotCommutes(row, t.b);
    DotCommutes(row, t.c);
    DotScale(t.a, Cross(t.a, t.b), k);
    DotScale(t.b, Cross(t.a, t.b), k);
    DotScale(t.c, Cross(t.a, t.b), k);
    TripleProductRotates(t.a, t.b, t.c);
    TripleProductRepeats(t.a, t.b);
    MulCongruent(k, k, Dot(t.c, Cross(t.a, t.b)), Determinant(m));
  }

  /** The rows of the scaled cofactor matrix are cross products of
      columns of `m` (the rows of its transpose), scaled by k, -k and k. */
  lemma CofactorRows(m: Matrix3, k: real)
    ensures var t := Transpose(m);
      ScaledCofactors(m, k) == Matrix3(Scale(Cross(t.b, t.c), k), Scale(Cross(t.a, t.c), -k), Scale(Cross(t.a, t.b), k))
  {
    CofactorRow0(m, k);
    CofactorRow1(m, k);
    CofactorRow2(m, k);
  }

  lemma CofactorRow0(m: Matrix3, k: real)
    ensures var t := Transpose(m); ScaledCofactors(m, k).a == Scale(Cross(t.b, t.c), k)
  {
    var t := Transpose(m);
    MinorsAsCrosses0(m);
    MulEqual(MinorDeterminant(t, 0, 0).value, Cross(t.b, t.c).x, k);
    MulNegate(MinorDeterminant(t, 0, 1).value, Cross(t.b, t.c).y, k);
    MulEqual(MinorDeterminant(t, 0, 2).value, Cross(t.b, t.c).z, k);
  }

  lemma CofactorRow1(m: Matrix3, k: real)
    ensures var t := Transpose(m); ScaledCofactors(m, k).b == Scale(Cross(t.a, t.c), -k)
  {
    var t := Transpose(m);
    MinorsAsCrosses1(m);
    MulEqual(MinorDeterminant(t, 1, 0).value, Cross(t.a, t.c).x, -k);
    MulNegate(Cross(t.a, t.c).y, MinorDeterminant(t, 1, 1).value, k);
    MulEqual(MinorDeterminant(t, 1, 2).value, Cross(t.a, t.c).z, -k);
  }

  lemma CofactorRow2(m: Matrix3, k: real)
    ensures var t := Transpose(m); ScaledCofactors(m, k).c == Scale(Cross(t.a, t.b), k)
  {
    var t := Transpose(m);
    MinorsAsCrosses2(m);
    MulEqual(MinorDeterminant(t, 2, 0).value, Cross(t.a, t.b).x, k);
    MulNegate(MinorDeterminant(t, 2, 1).value, Cross(t.a, t.b).y, k);
    MulEqual(MinorDeterminant(t, 2, 2).value, Cross(t.a, t.b).z, k);
  }

  /** The columns of the scaled cofactor matrix are k times the cross
      products of the rows of `m`, in cyclic order. */
  lemma CofactorColumns(m: Matrix3, k: real)
    ensures Transpose(ScaledCofactors(m, k)) == Matrix3(Scale(Cross(m.b, m.c), k), Scale(Cross(m.c, m.a), k), Scale(Cross(m.a, m.b), k))
  {
    var n := ScaledCofactors(m, k);
    CofactorRows(m, k);
    ColumnFromRows0(m, k, n);
    ColumnFromRows1(m, k, n);
    ColumnFromRows2(m, k, n);
  }

  /** A matrix whose rows are the scaled cross products of the columns of
      `m` has the scaled cross products of the rows of `m` as columns. */
  lemma ColumnFromRows0(m: Matrix3, k: real, n: Matrix3)
    requires var t := Transpose(m);
      n == Matrix3(Scale(Cross(t.b, t.c), k), Scale(Cross(t.a, t.c), -k), Scale(Cross(t.a, t.b), k))
    ensures Transpose(n).a == Scale(Cross(m.b, m.c), k)
  {
    var t := Transpose(m);
    CrossesOfColumns0(m);
    MulEqual(Cross(t.b, t.c).x, Cross(m.b, m.c).x, k);
    MulNegate(Cross(t.a, t.c).x, Cross(m.b, m.c).y, k);
    MulEqual(Cross(t.a, t.b).x, Cross(m.b, m.c).z, k);
    assert Transpose(n).a == Vector3(n.a.x, n.b.x, n.c.x);
  }

  lemma ColumnFromRows1(m: Matrix3, k: real, n: Matrix3)
    requires var t := Transpose(m);
      n == Matrix3(Scale(Cross(t.b, t.c), k), Scale(Cross(t.a, t.c), -k), Scale(Cross(t.a, t.b), k))
    ensures Transpose(n).b == Scale(Cross(m.c, m.a), k)
  {
    var t := Transpose(m);
    CrossesOfColumns1(m);
    MulEqual(Cross(t.b, t.c).y, Cross(m.c, m.a).x, k);
    MulNegate(Cross(t.a, t.c).y, Cross(m.c, m.a).y, k);
    MulEqual(Cross(t.a, t.b).y, Cross(m.c, m.a).z, k);
    assert Transpose(n).b == Vector3(n.a.y, n.b.y, n.c.y);
  }

  lemma ColumnFromRows2(m: Matrix3, k: real, n: Matrix3)
    requires var t := Transpose(m);
      n == Matrix3(Scale(Cross(t.b, t.c), k), Scale(Cross(t.a, t.c), -k), Scale(Cross(t.a, t.b), k))
    ensures Transpose(n).c == Scale(Cross(m.a, m.b), k)
  {
    var t := Transpose(m);
    CrossesOfColumns2(m);
    MulEqual(Cross(t.b, t.c).z, Cross(m.a, m.b).x, k);
    MulNegate(Cross(t.a, t.c).z, Cross(m.a, m.b).y, k);
    MulEqual(Cross(t.a, t.b).z, Cross(m.a, m.b).z, k);
    assert Transpose(n).c == Vector3(n.a.z, n.b.z, n.c.z);
  }

  /** Each minor of the transpose is, up to sign, a component of the cross
      product of the other two columns of `m`. */
  lemma MinorsAsCrosses0(m: Matrix3)
    ensures var t := Transpose(m);
      && MinorDeterminant(t, 0, 0).value == Cross(t.b, t.c).x
      && MinorDeterminant(t, 0, 1).value == -Cross(t.b, t.c).y
      && MinorDeterminant(t, 0, 2).value == Cross(t.b, t.c).z
  {
  }

  lemma MinorsAsCrosses1(m: Matrix3)
    ensures var t := Transpose(m);
      && MinorDeterminant(t, 1, 0).value == Cross(t.a, t.c).x
      && Cross(t.a, t.c).y == -MinorDeterminant(t, 1, 1).value
      && MinorDeterminant(t, 1, 2).value == Cross(t.a, t.c).z
  {
  }

  lemma MinorsAsCrosses2(m: Matrix3)
    ensures var t := Transpose(m);
      && MinorDeterminant(t, 2, 0).value == Cross(t.a, t.b).x
      && MinorDeterminant(t, 2, 1).value == -Cross(t.a, t.b).y
      && MinorDeterminant(t, 2, 2).value == Cross(t.a, t.b).z
  {
  }

  /** Cross products of columns, read across, are cross products of rows. */
  lemma CrossesOfColumns0(m: Matrix3)
    ensures var t := Transpose(m);
      Cross(t.b, t.c).x == Cross(m.b, m.c).x && Cross(t.a, t.c).x == -Cross(m.b, m.c).y && Cross(t.a, t.b).x == Cross(m.b, m.c).z
  {
    MulCommutes(m.c.y, m.b.z);
    MulCommutes(m.c.x, m.b.z);
    MulCommutes(m.c.x, m.b.y);
  }

  lemma CrossesOfColumns1(m: Matrix3)
    ensures var t := Transpose(m);
      Cross(t.b, t.c).y == Cross(m.c, m.a).x && Cross(t.a, t.c).y == -Cross(m.c, m.a).y && Cross(t.a, t.b).y == Cross(m.c, m.a).z
  {
    MulCommutes(m.a.x, m.c.z);
    MulCommutes(m.a.y, m.c.z);
    MulCommutes(m.a.x, m.c.y);
  }

  lemma CrossesOfColumns2(m: Matrix3)
    ensures var t := Transpose(m);
      Cross(t.b, t.c).z == Cross(m.a, m.b).x && Cross(t.a, t.c).z == -Cross(m.a, m.b).y && Cross(t.a, t.b).z == Cross(m.a, m.b).z
  {
    var t := Transpose(m);
    assert Cross(t.b, t.c).z == Cross(m.a, m.b).x by {
      assert t.b.x == m.a.y && t.b.y == m.b.y && t.c.x == m.a.z && t.c.y == m.b.z;
      MulCommutes(m.b.y, m.a.z);
    }
    assert Cross(t.a, t.c).z == -Cross(m.a, m.b).y by {
      assert t.a.x == m.a.x && t.a.y == m.b.x && t.c.x == m.a.z && t.c.y == m.b.z;
      MulCommutes(m.b.x, m.a.z);
    }
    assert Cross(t.a, t.b).z == Cross(m.a, m.b).z by {
      assert t.a.x == m.a.x && t.a.y == m.b.x && t.b.x == m.a.y && t.b.y == m.b.y;
      MulCommutes(m.b.x, m.a.y);
    }
  }

  /** Swapping the factors of a cross product and negating the scale
      leaves the scaled vector unchanged. */
  lemma CrossSwapScale(u: Vector3, v: Vector3, k: real)
    ensures Scale(Cross(u, v), -k) == Scale(Cross(v, u), k)
  {
  }

  /** Column i of a matrix is row i of its transpose. */
  lemma ColumnsOfTranspose(m: Matrix3)
    ensures Column(m, 0) == Ok(Transpose(m).a)
    ensures Column(m, 1) == Ok(Transpose(m).b)
    ensures Column(m, 2) == Ok(Transpose(m).c)
  {
  }

  /** The determinant is the scalar triple product of the rows, and also
      of the columns. */
  lemma DeterminantAsTripleProduct(m: Matrix3)
    ensures Determinant(m) == Dot(m.a, Cross(m.b, m.c))
    ensures Determinant(m) == Dot(Transpose(m).a, Cross(Transpose(m).b, Transpose(m).c))
  {
  }

  /** The scalar triple product is invariant under rotation of its factors. */
  lemma TripleProductRotates(u: Vector3, v: Vector3, w: Vector3)
    ensures Dot(u, Cross(v, w)) == Dot(v, Cross(w, u)) == Dot(w, Cross(u, v))
  {
    var s := u.x * v.y * w.z - u.x * v.z * w.y + u.y * v.z * w.x
      - u.y * v.x * w.z + u.z * v.x * w.y - u.z * v.y * w.x;
    assert Dot(u, Cross(v, w)) == s by {
      assert u.x * (v.y * w.z - v.z * w.y) == u.x * v.y * w.z - u.x * v.z * w.y;
      assert u.y * (v.z * w.x - v.x * w.z) == u.y * v.z * w.x - u.y * v.x * w.z;
      assert u.z * (v.x * w.y - v.y * w.x) == u.z * v.x * w.y - u.z * v.y * w.x;
    }
    assert Dot(v, Cross(w, u)) == s by {
      assert v.x * (w.y * u.z - w.z * u.y) == u.z * v.x * w.y - u.y * v.x * w.z;
      assert v.y * (w.z * u.x - w.x * u.z) == u.x * v.y * w.z - u.z * v.y * w.x;
      assert v.z * (w.x * u.y - w.y * u.x) == u.y * v.z * w.x - u.x * v.z * w.y;
    }
    assert Dot(w, Cross(u, v)) == s by {
      assert w.x * (u.y * v.z - u.z * v.y) == u.y * v.z * w.x - u.z * v.y * w.x;
      assert w.y * (u.z * v.x - u.x * v.z) == u.z * v.x * w.y - u.x * v.z * w.y;
      assert w.z * (u.x * v.y - u.y * v.x) == u.x * v.y * w.z - u.y * v.x * w.z;
    }
  }

  /** A cross product is orthogonal to both of its factors. */
  lemma TripleProductRepeats(u: Vector3, v: Vector3)
    ensures Dot(u, Cross(u, v)) == 0.0 && Dot(v, Cross(u, v)) == 0.0
  {
  }

  lemma DotScale(u: Vector3, v: Vector3, k: real)
    ensures Dot(u, Scale(v, k)) == k * Dot(u, v)
  {
  }

  lemma DotCommutes(u: Vector3, v: Vector3)
    ensures Dot(u, v) == Dot(v, u)
  {
  }

  /** Multiplying equals by the same factor gives equals. */
  lemma MulEqual(x: real, y: real, k: real)
    requires x == y
    ensures x * k == y * k
  {
  }

  lemma MulNegate(x: real, y: real, k: real)
    requires x == -y
    ensures x * -k == y * k
  {
  }

  /** Products of equals are equal. */
  lemma MulCongruent(x: real, x': real, y: real, y': real)
    requires x == x' && y == y'
    ensures x * y == x' * y'
  {
  }
}
