/** `SpriteSheetGridGenerator`: cuts a sheet into square sprites row by row, naming each cell
    `"{x}_{y}"` after its column and row. */
module SpriteSheetGrid {
  import opened Base
  import opened SpriteSheets

  function DigitChar(d: nat): char
    requires d < 10
  {
    (48 + d) as char
  }

  /** `format!("{n}")` for an unsigned integer: its decimal digits, most significant first. */
  function Decimal(n: nat): (s: string)
    ensures |s| >= 1
    ensures forall i :: 0 <= i < |s| ==> '0' <= s[i] <= '9'
    decreases n
  {
    if n < 10 then [DigitChar(n)] else Decimal(n / 10) + [DigitChar(n % 10)]
  }

  /** Different numbers are printed differently. */
  lemma {:induction false} DecimalInjective(a: nat, b: nat)
    requires Decimal(a) == Decimal(b)
    ensures a == b
    decreases a
  {
    if a >= 10 && b >= 10 {
      var da, db := Decimal(a), Decimal(b);
      assert da[..|da| - 1] == Decimal(a / 10);
      assert db[..|db| - 1] == Decimal(b / 10);
      assert DigitChar(a % 10) == da[|da| - 1] == db[|db| - 1] == DigitChar(b % 10);
      DecimalInjective(a / 10, b / 10);
    }
  }

  /** The name of the cell in column `x` and row `y`. */
  function CellName(x: nat, y: nat): string
  {
    Decimal(x) + "_" + Decimal(y)
  }

  /** Since digits never contain `_`, a cell name tells its column and row apart. */
  lemma CellNameInjective(x1: nat, y1: nat, x2: nat, y2: nat)
    requires CellName(x1, y1) == CellName(x2, y2)
    ensures x1 == x2 && y1 == y2
  {
    var a, b := Decimal(x1), Decimal(x2);
    var n := CellName(x1, y1);
    assert n[|a|] == '_' && n[|b|] == '_';
    forall i | 0 <= i < |a| ensures n[i] != '_' { assert n[i] == a[i]; }
    forall i | 0 <= i < |b| ensures n[i] != '_' { assert n[i] == b[i]; }
    assert |a| == |b|;
    assert a == n[..|a|] == b;
    assert Decimal(y1) == n[|a| + 1..] == Decimal(y2);
    DecimalInjective(x1, x2);
    DecimalInjective(y1, y2);
  }

  function Cell(x: nat, y: nat, spriteSize: nat): Sprite<nat>
  {
    Sprite(Pair(x * spriteSize, y * spriteSize), Pair(spriteSize, spriteSize))
  }

  /** Row `y` of the grid, left to right. */
  function Row(y: nat, cols: nat, spriteSize: nat): (r: seq<Sprite<nat>>)
    ensures |r| == cols && forall x :: 0 <= x < cols ==> r[x] == Cell(x, y, spriteSize)
  {
    seq(cols, x requires 0 <= x < cols => Cell(x, y, spriteSize))
  }

  /** The first `rows` rows of the grid, top to bottom. */
  function Grid(rows: nat, cols: nat, spriteSize: nat): seq<Sprite<nat>>
    decreases rows
  {
    if rows == 0 then [] else Grid(rows - 1, cols, spriteSize) + Row(rows - 1, cols, spriteSize)
  }

  lemma {:induction false} GridLength(rows: nat, cols: nat, spriteSize: nat)
    ensures |Grid(rows, cols, spriteSize)| == rows * cols
    decreases rows
  {
    if rows > 0 {
      GridLength(rows - 1, cols, spriteSize);
    }
  }

  lemma MulMono(a: nat, b: nat, c: nat)
    requires a <= b
    ensures a * c <= b * c
  {
  }

  /** The grid is row-major: cell (x, y) is sprite number `y * cols + x`. */
  lemma {:induction false} GridAt(rows: nat, cols: nat, spriteSize: nat, x: nat, y: nat)
    requires x < cols && y < rows
    ensures y * cols + x < |Grid(rows, cols, spriteSize)|
    ensures Grid(rows, cols, spriteSize)[y * cols + x] == Cell(x, y, spriteSize)
    decreases rows
  {
    GridLength(rows - 1, cols, spriteSize);
    var below := (rows - 1) * cols;
    GridLength(rows, cols, spriteSize);
    assert |Grid(rows, cols, spriteSize)| == below + cols;
    if y < rows - 1 {
      MulMono(y + 1, rows - 1, cols);
      assert y * cols + x < below;
      GridAt(rows - 1, cols, spriteSize, x, y);
    } else {
      assert y * cols + x == below + x;
    }
  }

  /** A whole number of `spriteSize` cells fits: the `x`-th of `n / spriteSize` cells ends by `n`. */
  lemma WholeCellFits(n: nat, spriteSize: nat, x: nat)
    requires spriteSize > 0 && x < n / spriteSize
    ensures x * spriteSize + spriteSize <= n
  {
    MulMono(x + 1, n / spriteSize, spriteSize);
    assert (n / spriteSize) * spriteSize + n % spriteSize == n;
  }

  /** Position `i` of a row-major grid of `rows` rows of `cols` cells is cell (i % cols, i / cols). */
  lemma RowMajorSplit(i: nat, rows: nat, cols: nat)
    requires i < rows * cols
    ensures cols > 0 && i % cols < cols && i / cols < rows
    ensures (i / cols) * cols + i % cols == i
  {
    if i / cols >= rows {
      MulMono(rows, i / cols, cols);
      assert false;
    }
  }

  /** Every sprite `generate` cuts lies inside the sheet: (x + 1) · s ≤ width and (y + 1) · s ≤ height. */
  lemma GridInsideSheet(width: nat, height: nat, spriteSize: nat, i: nat)
    requires spriteSize > 0 && i < |Grid(height / spriteSize, width / spriteSize, spriteSize)|
    ensures var c := Grid(height / spriteSize, width / spriteSize, spriteSize)[i];
      c.pos.x + c.dim.x <= width && c.pos.y + c.dim.y <= height && c.dim == Pair(spriteSize, spriteSize)
  {
    var rows, cols := height / spriteSize, width / spriteSize;
    GridLength(rows, cols, spriteSize);
    RowMajorSplit(i, rows, cols);
    var x, y := i % cols, i / cols;
    GridAt(rows, cols, spriteSize, x, y);
    WholeCellFits(width, spriteSize, x);
    WholeCellFits(height, spriteSize, y);
  }

  /** So each generated sprite, in UV units of the sheet, lies inside the unit square. */
  lemma GridUvInUnitSquare(width: nat, height: nat, spriteSize: nat, i: nat)
    requires spriteSize > 0 && i < |Grid(height / spriteSize, width / spriteSize, spriteSize)|
    ensures width > 0 && height > 0
    ensures var u := UvSprite(Grid(height / spriteSize, width / spriteSize, spriteSize)[i], Pair(width as real, height as real));
      0.0 <= u.pos.x && u.pos.x + u.dim.x <= 1.0 && 0.0 <= u.pos.y && u.pos.y + u.dim.y <= 1.0
  {
    var c := Grid(height / spriteSize, width / spriteSize, spriteSize)[i];
    GridInsideSheet(width, height, spriteSize, i);
    assert c.pos.x + c.dim.x <= width && c.pos.y + c.dim.y <= height && c.dim.x > 0 && c.dim.y > 0;
    UvSpriteInUnitSquare(c, width, height);
  }

  /** The row-major position of cell (x, y) in rows of `cols` cells. */
  function Position(cols: nat, x: nat, y: nat): nat
  {
    y * cols + x
  }

  /** Cell (x2, y2) was filed before cell (x, y): an earlier row, or earlier in the same row. */
  predicate Before(x2: nat, y2: nat, x: nat, y: nat, cols: nat)
  {
    (y2 < y && x2 < cols) || (y2 == y && x2 < x)
  }

  /** Every cell filed before (x, y) is named, under its row-major position. */
  ghost predicate FiledUpTo(m: map<string, nat>, x: nat, y: nat, cols: nat)
  {
    forall x2: nat, y2: nat :: Before(x2, y2, x, y, cols) ==>
      CellName(x2, y2) in m && m[CellName(x2, y2)] == Position(cols, x2, y2)
  }

  /** Only names of cells filed before (x, y) are in the index. */
  ghost predicate OnlyUpTo(m: map<string, nat>, x: nat, y: nat, cols: nat)
  {
    forall n :: n in m ==> exists x2: nat, y2: nat :: Before(x2, y2, x, y, cols) && n == CellName(x2, y2)
  }

  /** The name index holds exactly the names of the cells filed before (x, y), each under its
      row-major position. */
  ghost predicate NamedUpTo(m: map<string, nat>, x: nat, y: nat, cols: nat)
  {
    FiledUpTo(m, x, y, cols) && OnlyUpTo(m, x, y, cols)
  }

  lemma FiledStep(m: map<string, nat>, x: nat, y: nat, cols: nat)
    requires FiledUpTo(m, x, y, cols) && x < cols
    ensures FiledUpTo(m[CellName(x, y) := Position(cols, x, y)], x + 1, y, cols)
  {
    var m' := m[CellName(x, y) := Position(cols, x, y)];
    forall x2: nat, y2: nat | Before(x2, y2, x + 1, y, cols)
      ensures CellName(x2, y2) in m' && m'[CellName(x2, y2)] == Position(cols, x2, y2)
    {
      if x2 != x || y2 != y {
        if CellName(x2, y2) == CellName(x, y) {
          CellNameInjective(x2, y2, x, y);
        }
        assert Before(x2, y2, x, y, cols);
      }
    }
  }

  lemma OnlyStep(m: map<string, nat>, x: nat, y: nat, cols: nat)
    requires OnlyUpTo(m, x, y, cols) && x < cols
    ensures OnlyUpTo(m[CellName(x, y) := Position(cols, x, y)], x + 1, y, cols)
  {
    var m' := m[CellName(x, y) := Position(cols, x, y)];
    forall n | n in m'
      ensures exists x2: nat, y2: nat :: Before(x2, y2, x + 1, y, cols) && n == CellName(x2, y2)
    {
      if n == CellName(x, y) {
        assert Before(x, y, x + 1, y, cols);
      } else {
        var x2: nat, y2: nat :| Before(x2, y2, x, y, cols) && n == CellName(x2, y2);
        assert Before(x2, y2, x + 1, y, cols);
      }
    }
  }

  lemma NamedStep(m: map<string, nat>, x: nat, y: nat, cols: nat)
    requires NamedUpTo(m, x, y, cols) && x < cols
    ensures NamedUpTo(m[CellName(x, y) := Position(cols, x, y)], x + 1, y, cols)
  {
    FiledStep(m, x, y, cols);
    OnlyStep(m, x, y, cols);
  }

  lemma NamedNextRow(m: map<string, nat>, y: nat, cols: nat)
    requires NamedUpTo(m, cols, y, cols)
    ensures NamedUpTo(m, 0, y + 1, cols)
  {
    assert FiledUpTo(m, 0, y + 1, cols);
    forall n | n in m
      ensures exists x2: nat, y2: nat :: Before(x2, y2, 0, y + 1, cols) && n == CellName(x2, y2)
    {
      var x2: nat, y2: nat :| Before(x2, y2, cols, y, cols) && n == CellName(x2, y2);
      assert Before(x2, y2, 0, y + 1, cols);
    }
  }

  /** One row of `generate`'s outer loop. */
  method AddRow(sheet: SpriteSheet<nat>, y: nat, cols: nat, spriteSize: nat)
    requires sheet.Valid() && sheet.sprites == Grid(y, cols, spriteSize)
    requires NamedUpTo(sheet.nameIndex, 0, y, cols)
    modifies sheet
    ensures sheet.Valid() && sheet.size == old(sheet.size)
    ensures sheet.sprites == Grid(y + 1, cols, spriteSize)
    ensures NamedUpTo(sheet.nameIndex, 0, y + 1, cols)
  {
    GridLength(y, cols, spriteSize);
    var x := 0;
    while x < cols
      invariant 0 <= x <= cols
      invariant sheet.Valid() && sheet.size == old(sheet.size)
      invariant sheet.sprites == Grid(y, cols, spriteSize) + Row(y, cols, spriteSize)[..x]
      invariant NamedUpTo(sheet.nameIndex, x, y, cols)
    {
      assert |sheet.sprites| == y * cols + x;
      NamedStep(sheet.nameIndex, x, y, cols);
      WithOneName(sheet.nameIndex, CellName(x, y), Position(cols, x, y));
      sheet.Add(Cell(x, y, spriteSize), [CellName(x, y)]);
      assert Row(y, cols, spriteSize)[..x + 1] == Row(y, cols, spriteSize)[..x] + [Cell(x, y, spriteSize)];
      x := x + 1;
    }
    assert Row(y, cols, spriteSize)[..x] == Row(y, cols, spriteSize);
    NamedNextRow(sheet.nameIndex, y, cols);
  }

  /** `generate`: a `cols` by `rows` grid of `spriteSize` squares, row-major, with cell (x, y)
      named `"{x}_{y}"` and nothing else named. A zero sprite size divides by zero and panics. */
  method Generate(width: nat, height: nat, spriteSize: nat) returns (r: Outcome<SpriteSheet<nat>>)
    ensures r.Panicked? <==> spriteSize == 0
    ensures r.Returned? ==> var sheet := r.value;
      && fresh(sheet) && sheet.Valid()
      && sheet.size == Pair(width, height)
      && sheet.sprites == Grid(height / spriteSize, width / spriteSize, spriteSize)
      && NamedUpTo(sheet.nameIndex, 0, height / spriteSize, width / spriteSize)
  {
    if spriteSize == 0 {
      return Panicked;
    }
    var cols, rows := width / spriteSize, height / spriteSize;
    var sheet := new SpriteSheet<nat>(Pair(width, height));
    var y := 0;
    while y < rows
      invariant 0 <= y <= rows
      invariant fresh(sheet)
      invariant sheet.Valid() && sheet.size == Pair(width, height)
      invariant sheet.sprites == Grid(y, cols, spriteSize)
      invariant NamedUpTo(sheet.nameIndex, 0, y, cols)
    {
      AddRow(sheet, y, cols, spriteSize);
      y := y + 1;
    }
    r := Returned(sheet);
  }

  /** What `NamedUpTo` says once the grid is complete: exactly the cell names, each under its
      row-major index, which holds the cell's sprite. */
  lemma NamedGrid(m: map<string, nat>, rows: nat, cols: nat, spriteSize: nat, x: nat, y: nat)
    requires NamedUpTo(m, 0, rows, cols) && x < cols && y < rows
    ensures CellName(x, y) in m
    ensures m[CellName(x, y)] < |Grid(rows, cols, spriteSize)|
    ensures Grid(rows, cols, spriteSize)[m[CellName(x, y)]] == Cell(x, y, spriteSize)
  {
    assert Before(x, y, 0, rows, cols);
    GridAt(rows, cols, spriteSize, x, y);
  }
}
