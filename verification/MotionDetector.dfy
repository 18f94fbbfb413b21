/** Comparing two frames on a fixed grid of samples, and the text the moved cells travel in
    (src/vision/MotionDetector.cpp; `splitByZones` of src/media/ai/AiRuntime.cpp). */
module MotionDetector {
  import opened Frames
  import T = Text

  const WIDTH := 160
  const HEIGHT := 120
  const SAMPLES := 19200
  const PIXEL_DELTA := 18
  const CELL_PERCENT := 8

  /** A grid as the constructor leaves it: at least one cell. */
  datatype Grid = Grid(columns: int, rows: int)

  predicate Usable(g: Grid) { g.columns >= 1 && g.rows >= 1 }

  /** The samples of one frame, row by row. */
  type Samples = s: seq<Byte> | |s| == SAMPLES witness seq(SAMPLES, _ => 0)

  // ---------------------------------------------------------------- the cell of a sample

  function Scaled(size: int, at: int, steps: int): int
    requires steps > 0
  {
    size * at / steps
  }

  lemma Sign(d: int, n: int)
    requires n > 0
    ensures (d >= 1 ==> d * n >= n) && (d <= -1 ==> d * n <= -n)
  {
    if d >= 1 { assert (d - 1) * n >= 0; } else if d <= -1 { assert (-1 - d) * n >= 0; }
  }

  lemma Apart(a: int, b: int, n: int)
    ensures (a - b) * n == a * n - b * n
  {
  }

  lemma SmallerFactor(a: int, b: int, n: int)
    requires n > 0
    ensures a * n < b * n <==> a < b
  {
    Sign(a - b, n);
    Apart(a, b, n);
  }

  lemma ScaledInRange(size: int, at: int, steps: int)
    requires size >= 1 && 0 <= at < steps
    ensures 0 <= Scaled(size, at, steps) < size
  {
    SmallerFactor(at, steps, size);
    assert 0 <= size * at < size * steps;
    Quotient(size * at, steps);
    SmallerFactor(size * at / steps, size, steps);
    SmallerFactor(-1, size * at / steps, steps);
  }

  lemma Quotient(x: int, n: int)
    requires n > 0
    ensures x == x / n * n + x % n && 0 <= x % n < n
  {
  }

  function CellOf(g: Grid, row: int, column: int): int { row * g.columns + column }

  lemma SameQuotient(n: int, q: int, r: int, q': int, r': int)
    requires 0 <= r < n && 0 <= r' < n && q * n + r == q' * n + r'
    ensures q == q' && r == r'
  {
    Sign(q - q', n);
    Apart(q, q', n);
  }

  lemma CellInRange(g: Grid, row: int, column: int)
    requires Usable(g) && 0 <= row < g.rows && 0 <= column < g.columns
    ensures 0 <= CellOf(g, row, column) < g.rows * g.columns
    ensures CellOf(g, row, column) / g.columns == row && CellOf(g, row, column) % g.columns == column
  {
    var cell := CellOf(g, row, column);
    Sign(g.rows - row, g.columns);
    Apart(g.rows, row, g.columns);
    SmallerFactor(-1, row, g.columns);
    Quotient(cell, g.columns);
    SameQuotient(g.columns, row, column, cell / g.columns, cell % g.columns);
  }

  lemma CellParts(g: Grid, cell: int)
    requires Usable(g) && 0 <= cell < g.rows * g.columns
    ensures 0 <= cell / g.columns < g.rows && 0 <= cell % g.columns < g.columns
    ensures CellOf(g, cell / g.columns, cell % g.columns) == cell
  {
    Quotient(cell, g.columns);
    SmallerFactor(cell / g.columns, g.rows, g.columns);
    SmallerFactor(-1, cell / g.columns, g.columns);
  }

  /** The cell that the sample at row `sy` and column `sx` falls in. */
  function SampleCell(g: Grid, sy: int, sx: int): int {
    CellOf(g, Scaled(g.rows, sy, HEIGHT), Scaled(g.columns, sx, WIDTH))
  }

  lemma SampleCellInRange(g: Grid, sy: int, sx: int)
    requires Usable(g) && 0 <= sy < HEIGHT && 0 <= sx < WIDTH
    ensures 0 <= SampleCell(g, sy, sx) < g.rows * g.columns
  {
    ScaledInRange(g.rows, sy, HEIGHT);
    ScaledInRange(g.columns, sx, WIDTH);
    CellInRange(g, Scaled(g.rows, sy, HEIGHT), Scaled(g.columns, sx, WIDTH));
  }

  // ---------------------------------------------------------------- counting

  predicate Changed(a: Byte, b: Byte) { b - a > PIXEL_DELTA || b - a < -PIXEL_DELTA }

  /** How many of the first `n` samples fall in a cell, and how many of those have changed. */
  function Total(g: Grid, cell: int, n: nat): nat {
    if n == 0 then 0
    else Total(g, cell, n - 1) + if SampleCell(g, (n - 1) / WIDTH, (n - 1) % WIDTH) == cell then 1 else 0
  }

  function Moved(g: Grid, before: Samples, now: Samples, cell: int, n: nat): nat
    requires n <= SAMPLES
  {
    if n == 0 then 0
    else
      Moved(g, before, now, cell, n - 1)
      + if SampleCell(g, (n - 1) / WIDTH, (n - 1) % WIDTH) == cell && Changed(before[n - 1], now[n - 1]) then 1 else 0
  }

  function Sum(g: Grid, cells: nat, n: nat): nat {
    if cells == 0 then 0 else Sum(g, cells - 1, n) + Total(g, cells - 1, n)
  }

  lemma {:induction false} MovedAtMostTotal(g: Grid, before: Samples, now: Samples, cell: int, n: nat)
    requires n <= SAMPLES
    ensures Moved(g, before, now, cell, n) <= Total(g, cell, n)
  {
    if n > 0 { MovedAtMostTotal(g, before, now, cell, n - 1); }
  }

  lemma {:induction false} NothingCounted(g: Grid, cells: nat)
    ensures Sum(g, cells, 0) == 0
  {
    if cells > 0 { NothingCounted(g, cells - 1); }
  }

  lemma {:induction false} OneSampleCounts(g: Grid, cells: nat, n: nat)
    ensures var cell := SampleCell(g, n / WIDTH, n % WIDTH);
            Sum(g, cells, n + 1) == Sum(g, cells, n) + if 0 <= cell < cells then 1 else 0
  {
    hide SampleCell;
    if cells > 0 { OneSampleCounts(g, cells - 1, n); }
  }

  /** Every sample is counted in exactly one cell of the grid. */
  lemma {:induction false} EverySampleCounts(g: Grid, n: nat)
    requires Usable(g) && n <= SAMPLES
    ensures g.rows * g.columns >= 0 && Sum(g, g.rows * g.columns, n) == n
  {
    assert g.rows * g.columns >= 0;
    if n == 0 {
      NothingCounted(g, g.rows * g.columns);
    } else {
      EverySampleCounts(g, n - 1);
      OneSampleCounts(g, g.rows * g.columns, n - 1);
      SampleCellInRange(g, (n - 1) / WIDTH, (n - 1) % WIDTH);
    }
  }

  // ---------------------------------------------------------------- the moved cells

  /** Enough of a cell's samples changed. */
  predicate CellMoved(g: Grid, before: Samples, now: Samples, cell: int) {
    var total := Total(g, cell, SAMPLES);
    total > 0 && Moved(g, before, now, cell, SAMPLES) * 100 >= total * CELL_PERCENT
  }

  function MovedCells(g: Grid, before: Samples, now: Samples, n: nat): (cells: seq<nat>)
    ensures forall c <- cells :: c < n
  {
    if n == 0 then []
    else
      var fewer := MovedCells(g, before, now, n - 1);
      if CellMoved(g, before, now, n - 1) then fewer + [n - 1] else fewer
  }

  /** The samples among the first `n` that fall in a cell: row `rows * sy / 120`, column
      `columns * sx / 160` of the grid. */
  ghost function SamplesIn(g: Grid, cell: int, n: nat): set<int> {
    set k | 0 <= k < n && g.rows * (k / 160) / 120 * g.columns + g.columns * (k % 160) / 160 == cell
  }

  /** Those of them that are more than 18 brighter or darker than before. */
  ghost function ChangedIn(g: Grid, before: Samples, now: Samples, cell: int, n: nat): set<int>
    requires n <= SAMPLES
  {
    set k | k in SamplesIn(g, cell, n) && (if now[k] >= before[k] then now[k] - before[k] else before[k] - now[k]) > 18
  }

  lemma {:induction false} TotalCounts(g: Grid, cell: int, n: nat)
    ensures Total(g, cell, n) == |SamplesIn(g, cell, n)|
  {
    if n == 0 {
      assert SamplesIn(g, cell, 0) == {};
    } else {
      TotalCounts(g, cell, n - 1);
      var fewer := SamplesIn(g, cell, n - 1);
      var last := SampleCell(g, (n - 1) / WIDTH, (n - 1) % WIDTH) == cell;
      assert SamplesIn(g, cell, n) == if last then fewer + {n - 1} else fewer;
    }
  }

  lemma {:induction false} MovedCounts(g: Grid, before: Samples, now: Samples, cell: int, n: nat)
    requires n <= SAMPLES
    ensures Moved(g, before, now, cell, n) == |ChangedIn(g, before, now, cell, n)|
  {
    if n == 0 {
      assert ChangedIn(g, before, now, cell, 0) == {};
    } else {
      MovedCounts(g, before, now, cell, n - 1);
      var fewer := ChangedIn(g, before, now, cell, n - 1);
      var last := SampleCell(g, (n - 1) / WIDTH, (n - 1) % WIDTH) == cell && Changed(before[n - 1], now[n - 1]);
      assert ChangedIn(g, before, now, cell, n) == if last then fewer + {n - 1} else fewer;
    }
  }

  /** The moved cells, in ascending order: those with samples, at least 8 in a hundred of which are
      more than 18 brighter or darker than in the frame before. */
  lemma {:induction false} MovedCellsExactly(g: Grid, before: Samples, now: Samples, n: nat, c: nat)
    ensures c in MovedCells(g, before, now, n) <==>
              && c < n && SamplesIn(g, c, 19200) != {}
              && 100 * |ChangedIn(g, before, now, c, 19200)| >= 8 * |SamplesIn(g, c, 19200)|
    ensures var cells := MovedCells(g, before, now, n); forall i, j :: 0 <= i < j < |cells| ==> cells[i] < cells[j]
  {
    if n > 0 {
      MovedCellsExactly(g, before, now, n - 1, c);
      TotalCounts(g, c, SAMPLES);
      MovedCounts(g, before, now, c, SAMPLES);
      var fewer := MovedCells(g, before, now, n - 1);
      assert forall i :: 0 <= i < |fewer| ==> fewer[i] in fewer;
      hide Total;
      hide Moved;
      hide SamplesIn;
      hide ChangedIn;
    }
  }

  /** Where a cell stands. */
  function RowOf(g: Grid, cell: nat): nat
    requires Usable(g)
  {
    Quotient(cell, g.columns);
    SmallerFactor(-1, cell / g.columns, g.columns);
    cell / g.columns
  }

  function ColumnOf(g: Grid, cell: nat): nat
    requires Usable(g)
  {
    cell % g.columns
  }

  /** `row:column`. */
  function CellText(g: Grid, cell: nat): string
    requires Usable(g)
  {
    T.Decimal(RowOf(g, cell)) + ":" + T.Decimal(ColumnOf(g, cell))
  }

  function CellTexts(g: Grid, cells: seq<nat>): (texts: seq<string>)
    requires Usable(g)
    ensures |texts| == |cells|
  {
    if cells == [] then [] else CellTexts(g, cells[..|cells| - 1]) + [CellText(g, cells[|cells| - 1])]
  }

  function Printed(g: Grid, cells: seq<nat>): string
    requires Usable(g)
  {
    T.Join(CellTexts(g, cells), ',')
  }

  // ---------------------------------------------------------------- reading the text back

  /** A rectangle of the grid, ends included; it fires when `level` tenths of its cells moved. */
  datatype Zone = Zone(row1: int, col1: int, row2: int, col2: int, level: int)

  type Place = (int, int)

  predicate InGrid(g: Grid, p: Place) { 0 <= p.0 < g.rows && 0 <= p.1 < g.columns }

  predicate InZone(z: Zone, p: Place) { z.row1 <= p.0 <= z.row2 && z.col1 <= p.1 <= z.col2 }

  /** The row and column a token names; none without a colon. */
  function TokenPlace(token: string): T.Option<Place> {
    var colon := T.Find(token, ':', 0);
    if colon == |token| then T.None else T.Some((T.Atoi(token), T.Atoi(token[colon + 1..])))
  }

  /** The cells of the grid that a list of tokens marks. */
  function Marks(g: Grid, token: string): set<Place> {
    var place := TokenPlace(token);
    if place.Some? && InGrid(g, place.value) then {place.value} else {}
  }

  function Marked(g: Grid, tokens: seq<string>): set<Place> {
    if tokens == [] then {} else Marked(g, tokens[..|tokens| - 1]) + Marks(g, tokens[|tokens| - 1])
  }

  function PlaceOf(g: Grid, cell: nat): Place
    requires Usable(g)
  {
    (RowOf(g, cell), ColumnOf(g, cell))
  }

  predicate OnGrid(g: Grid, cells: seq<nat>) { forall i :: 0 <= i < |cells| ==> cells[i] < g.rows * g.columns }

  ghost function Places(g: Grid, cells: seq<nat>): set<Place>
    requires Usable(g)
  {
    set i | 0 <= i < |cells| :: PlaceOf(g, cells[i])
  }

  lemma PlacesOfLonger(g: Grid, cells: seq<nat>)
    requires Usable(g) && cells != []
    ensures Places(g, cells) == Places(g, cells[..|cells| - 1]) + {PlaceOf(g, cells[|cells| - 1])}
  {
    hide PlaceOf;
    var init := cells[..|cells| - 1];
    forall p | p in Places(g, cells) ensures p in Places(g, init) + {PlaceOf(g, cells[|cells| - 1])} {
      var i :| 0 <= i < |cells| && p == PlaceOf(g, cells[i]);
      if i < |init| { assert init[i] == cells[i]; }
    }
    assert forall i :: 0 <= i < |init| ==> init[i] == cells[i];
  }

  lemma {:induction false} DecimalsArePlain(n: nat)
    ensures ',' !in T.Decimal(n) && ':' !in T.Decimal(n)
  {
    T.DecimalReadsBack(n);
  }

  lemma CellTextReadsBack(g: Grid, cell: nat)
    requires Usable(g)
    ensures TokenPlace(CellText(g, cell)) == T.Some(PlaceOf(g, cell))
    ensures CellText(g, cell) != "" && ',' !in CellText(g, cell)
  {
    hide RowOf;
    hide ColumnOf;
    var row, column := RowOf(g, cell), ColumnOf(g, cell);
    DecimalsArePlain(row);
    DecimalsArePlain(column);
    T.FindPast(T.Decimal(row), ':', T.Decimal(column));
    assert CellText(g, cell) == T.Decimal(row) + (":" + T.Decimal(column));
    T.AtoiOfDecimal(row, ":" + T.Decimal(column));
    assert CellText(g, cell)[|T.Decimal(row)| + 1..] == T.Decimal(column) == T.Decimal(column) + "";
    T.AtoiOfDecimal(column, "");
  }

  lemma {:induction false} CellTextsReadBack(g: Grid, cells: seq<nat>)
    requires Usable(g) && OnGrid(g, cells)
    ensures Marked(g, CellTexts(g, cells)) == Places(g, cells)
    ensures forall t <- CellTexts(g, cells) :: t != "" && ',' !in t
  {
    if cells != [] {
      var init, last := cells[..|cells| - 1], cells[|cells| - 1];
      CellTextsReadBack(g, init);
      CellTextReadsBack(g, last);
      InGridPlace(g, last);
      PlacesOfLonger(g, cells);
      hide CellText;
      hide PlaceOf;
      hide TokenPlace;
      hide InGrid;
      hide Places;
      var texts := CellTexts(g, cells);
      assert texts[..|texts| - 1] == CellTexts(g, init);
    }
  }

  lemma InGridPlace(g: Grid, cell: nat)
    requires Usable(g) && cell < g.rows * g.columns
    ensures InGrid(g, PlaceOf(g, cell))
  {
    CellParts(g, cell);
  }

  /** The tokens of a printed list. */
  lemma TokensOfPrinted(g: Grid, cells: seq<nat>)
    requires Usable(g) && OnGrid(g, cells)
    ensures T.Split(Printed(g, cells), ',') == if cells == [] then [""] else CellTexts(g, cells)
  {
    CellTextsReadBack(g, cells);
    if cells != [] { T.SplitJoin(CellTexts(g, cells), ','); }
  }

  /** Reading a printed list marks exactly the cells that were printed. */
  lemma PrintedMarksItsCells(g: Grid, cells: seq<nat>)
    requires Usable(g) && OnGrid(g, cells)
    ensures Marked(g, T.Split(Printed(g, cells), ',')) == Places(g, cells)
  {
    TokensOfPrinted(g, cells);
    CellTextsReadBack(g, cells);
    if cells == [] {
      assert [""][..0] == [];
      assert Marked(g, [""]) == Marks(g, "") == {};
    }
  }

  // ---------------------------------------------------------------- which zones fire

  ghost function ZoneCells(g: Grid, z: Zone): set<Place> {
    set r, c | 0 <= r < g.rows && 0 <= c < g.columns && InZone(z, (r, c)) :: (r, c)
  }

  /** At least `level` tenths of a zone's cells on the grid are marked; a zone off the grid never fires. */
  ghost predicate Fires(g: Grid, z: Zone, marked: set<Place>) {
    ZoneCells(g, z) != {} && |ZoneCells(g, z) * marked| * 10 >= |ZoneCells(g, z)| * z.level
  }

  ghost predicate Triggered(g: Grid, zones: seq<Zone>, marked: set<Place>) {
    exists z <- zones :: Fires(g, z, marked)
  }

  /** A zone fires when at least `level` tenths of its cells on the grid, rounded up, are marked. */
  lemma FiresExactly(g: Grid, z: Zone, marked: set<Place>)
    requires z.level >= 0
    ensures var cells := set r, c | 0 <= r < g.rows && 0 <= c < g.columns && z.row1 <= r <= z.row2 && z.col1 <= c <= z.col2 :: (r, c);
            Fires(g, z, marked) <==> cells != {} && |cells * marked| >= (|cells| * z.level + 9) / 10
  {
    assert ZoneCells(g, z) ==
           set r, c | 0 <= r < g.rows && 0 <= c < g.columns && z.row1 <= r <= z.row2 && z.col1 <= c <= z.col2 :: (r, c);
  }

  /** What the zones make of a printed list is what they make of its cells; an empty list triggers
      nothing, and zones of level 1 and up do not fire on it either. */
  lemma ZonesSeeMovedCells(g: Grid, cells: seq<nat>, zones: seq<Zone>)
    requires Usable(g) && OnGrid(g, cells)
    requires forall z <- zones :: z.level >= 1
    ensures zones != [] && Printed(g, cells) != "" && Triggered(g, zones, Marked(g, T.Split(Printed(g, cells), ',')))
            <==> Triggered(g, zones, Places(g, cells))
  {
    PrintedMarksItsCells(g, cells);
    if cells == [] {
      forall z <- zones ensures !Fires(g, z, {}) { NoneMoved(g, z); }
      assert Places(g, cells) == {};
    } else {
      PrintedIsNotEmpty(g, cells);
    }
  }

  lemma PrintedIsNotEmpty(g: Grid, cells: seq<nat>)
    requires Usable(g) && cells != []
    ensures Printed(g, cells) != ""
  {
    CellTextReadsBack(g, cells[|cells| - 1]);
  }

  lemma NoneMoved(g: Grid, z: Zone)
    requires z.level >= 1
    ensures !Fires(g, z, {})
  {
    assert ZoneCells(g, z) * {} == {};
    if ZoneCells(g, z) != {} { Sign(|ZoneCells(g, z)|, z.level); }
  }

  // ---------------------------------------------------------------- the loops over the text

  /** Whether a token names a cell inside one of the zones, or outside all of them. */
  predicate Covered(zones: seq<Zone>, p: Place) { exists z <- zones :: InZone(z, p) }

  function Side(zones: seq<Zone>, tokens: seq<string>, inside: bool): (list: seq<string>)
    ensures forall t <- list :: t != ""
  {
    if tokens == [] then []
    else
      var fewer, token := Side(zones, tokens[..|tokens| - 1], inside), tokens[|tokens| - 1];
      if TokenPlace(token).Some? && Covered(zones, TokenPlace(token).value) == inside then fewer + [token] else fewer
  }

  function SideCells(g: Grid, zones: seq<Zone>, cells: seq<nat>, inside: bool): (list: seq<nat>)
    requires Usable(g)
    ensures forall c <- list :: c in cells && Covered(zones, PlaceOf(g, c)) == inside
  {
    if cells == [] then []
    else
      var fewer, cell := SideCells(g, zones, cells[..|cells| - 1], inside), cells[|cells| - 1];
      if Covered(zones, PlaceOf(g, cell)) == inside then fewer + [cell] else fewer
  }

  /** Splitting a printed list is printing the split list: the cells inside a zone and the cells
      outside, each in their order, and every cell in one of the two. */
  lemma {:induction false} SplitPartitions(g: Grid, zones: seq<Zone>, cells: seq<nat>, inside: bool)
    requires Usable(g) && OnGrid(g, cells)
    ensures T.Join(Side(zones, T.Split(Printed(g, cells), ','), inside), ',') == Printed(g, SideCells(g, zones, cells, inside))
    ensures multiset(cells) == multiset(SideCells(g, zones, cells, true)) + multiset(SideCells(g, zones, cells, false))
  {
    TokensOfPrinted(g, cells);
    SideOfTexts(g, zones, cells, inside);
    EveryCellOnOneSide(g, zones, cells);
    if cells == [] {
      assert [""][..0] == [];
      assert Side(zones, [""], inside) == [];
    }
  }

  lemma {:induction false} SideOfTexts(g: Grid, zones: seq<Zone>, cells: seq<nat>, inside: bool)
    requires Usable(g)
    ensures Side(zones, CellTexts(g, cells), inside) == CellTexts(g, SideCells(g, zones, cells, inside))
  {
    if cells != [] {
      var init, last := cells[..|cells| - 1], cells[|cells| - 1];
      SideOfTexts(g, zones, init, inside);
      CellTextReadsBack(g, last);
      hide CellText;
      hide PlaceOf;
      var texts := CellTexts(g, cells);
      assert texts[..|texts| - 1] == CellTexts(g, init);
      var side := SideCells(g, zones, init, inside);
      assert (side + [last])[..|side|] == side;
    }
  }

  lemma {:induction false} EveryCellOnOneSide(g: Grid, zones: seq<Zone>, cells: seq<nat>)
    requires Usable(g)
    ensures multiset(cells) == multiset(SideCells(g, zones, cells, true)) + multiset(SideCells(g, zones, cells, false))
  {
    if cells != [] {
      EveryCellOnOneSide(g, zones, cells[..|cells| - 1]);
      assert cells == cells[..|cells| - 1] + [cells[|cells| - 1]];
    }
  }

  /** A list of tokens put together with commas as the loops do it. */
  lemma JoinOneMore(list: seq<string>, token: string)
    requires forall t <- list :: t != ""
    ensures T.Join(list + [token], ',') == if T.Join(list, ',') == "" then token else T.Join(list, ',') + "," + token
    ensures T.Join(list, ',') == "" <==> list == []
  {
    assert (list + [token])[..|list|] == list;
    if |list| == 1 { assert list[0] in list; }
  }

  method SplitByZones(cells: string, zones: seq<Zone>) returns (inside: string, outside: string)
    ensures inside == T.Join(Side(zones, T.Split(cells, ','), true), ',')
    ensures outside == T.Join(Side(zones, T.Split(cells, ','), false), ',')
  {
    hide Side;
    hide T.Split;
    hide T.Find;
    inside, outside := "", "";
    ghost var done: seq<string> := [];
    NothingOnASide(zones);
    var at := 0;
    T.NoFieldDone(cells, ',');
    while at <= |cells|
      invariant at <= |cells| && T.Split(cells, ',') == done + T.Split(cells[at..], ',')
      invariant inside == T.Join(Side(zones, done, true), ',') && outside == T.Join(Side(zones, done, false), ',')
      decreases |cells| - at
    {
      var comma := T.Find(cells, ',', at);
      inside, outside := PutToken(zones, cells[at..comma], inside, outside, done);
      if comma == |cells| {
        T.LastFieldDone(cells, ',', done, at);
        assert cells[at..comma] == cells[at..];
        break;
      }
      T.FieldDone(cells, ',', done, at, comma);
      done := done + [cells[at..comma]];
      at := comma + 1;
    }
  }

  lemma NothingOnASide(zones: seq<Zone>)
    ensures Side(zones, [], true) == [] && Side(zones, [], false) == []
  {
  }

  /** Adds a token to the side it belongs on. */
  method PutToken(zones: seq<Zone>, token: string, inside: string, outside: string, ghost done: seq<string>)
      returns (inside': string, outside': string)
    requires inside == T.Join(Side(zones, done, true), ',') && outside == T.Join(Side(zones, done, false), ',')
    ensures inside' == T.Join(Side(zones, done + [token], true), ',')
    ensures outside' == T.Join(Side(zones, done + [token], false), ',')
  {
    hide TokenPlace;
    hide T.Join;
    inside', outside' := inside, outside;
    assert (done + [token])[..|done|] == done;
    var place := ReadToken(token);
    if place.Some? {
      var covered := IsCovered(zones, place.value);
      JoinOneMore(Side(zones, done, covered), token);
      if covered {
        inside' := (if inside != "" then inside + "," else "") + token;
      } else {
        outside' := (if outside != "" then outside + "," else "") + token;
      }
    }
  }

  method ReadToken(token: string) returns (place: T.Option<Place>)
    ensures place == TokenPlace(token)
  {
    var colon := T.Find(token, ':', 0);
    if token == "" || colon == |token| { return T.None; }
    return T.Some((T.Atoi(token), T.Atoi(token[colon + 1..])));
  }

  method IsCovered(zones: seq<Zone>, p: Place) returns (covered: bool)
    ensures covered == Covered(zones, p)
  {
    for i := 0 to |zones|
      invariant forall k :: 0 <= k < i ==> !InZone(zones[k], p)
    {
      if InZone(zones[i], p) { return true; }
    }
    return false;
  }

  /** One flag for each cell of the grid. */
  ghost predicate Flags(g: Grid, moved: seq<bool>, marked: set<Place>) {
    forall r, c :: InGrid(g, (r, c)) ==> FlagIs(g, moved, r, c, (r, c) in marked)
  }

  predicate FlagIs(g: Grid, moved: seq<bool>, r: int, c: int, flag: bool) {
    0 <= CellOf(g, r, c) < |moved| && moved[CellOf(g, r, c)] == flag
  }

  method ZonesTriggered(cells: string, zones: seq<Zone>, g: Grid) returns (triggered: bool)
    ensures triggered == (zones != [] && cells != "" && Triggered(g, zones, Marked(g, T.Split(cells, ','))))
  {
    if zones == [] || cells == "" { return false; }
    var moved := MarkMoved(cells, g);
    ghost var marked := Marked(g, T.Split(cells, ','));
    for i := 0 to |zones|
      invariant forall k :: 0 <= k < i ==> !Fires(g, zones[k], marked)
    {
      var count, hits := CountZone(g, zones[i], moved, marked);
      assert count == 0 <==> ZoneCells(g, zones[i]) == {};
      if count != 0 && hits * 10 >= count * zones[i].level {
        assert Fires(g, zones[i], marked);
        return true;
      }
      assert !Fires(g, zones[i], marked);
    }
    return false;
  }

  function AtLeastOne(n: int): int { if n < 1 then 1 else n }

  lemma NoFlags(g: Grid)
    ensures AtLeastOne(g.columns) * AtLeastOne(g.rows) >= 1
    ensures Flags(g, seq(AtLeastOne(g.columns) * AtLeastOne(g.rows), _ => false), {})
  {
    SmallerFactor(0, AtLeastOne(g.columns), AtLeastOne(g.rows));
    forall r, c | InGrid(g, (r, c)) ensures 0 <= CellOf(g, r, c) < AtLeastOne(g.columns) * AtLeastOne(g.rows) {
      CellInRange(g, r, c);
    }
    hide CellOf;
  }

  lemma OneMoreFlag(g: Grid, moved: seq<bool>, marked: set<Place>, p: Place)
    requires Flags(g, moved, marked) && InGrid(g, p)
    ensures 0 <= CellOf(g, p.0, p.1) < |moved| && Flags(g, moved[CellOf(g, p.0, p.1) := true], marked + {p})
  {
    assert FlagIs(g, moved, p.0, p.1, p in marked);
    CellInRange(g, p.0, p.1);
    var flagged := moved[CellOf(g, p.0, p.1) := true];
    forall r, c | InGrid(g, (r, c)) ensures FlagIs(g, flagged, r, c, (r, c) in marked + {p}) {
      assert FlagIs(g, moved, r, c, (r, c) in marked);
      CellInRange(g, r, c);
      hide CellOf;
    }
  }

  /** Sets the flag of every cell the text names. */
  method MarkMoved(cells: string, g: Grid) returns (moved: seq<bool>)
    requires cells != ""
    ensures Flags(g, moved, Marked(g, T.Split(cells, ',')))
  {
    hide Flags;
    hide T.Split;
    hide T.Find;
    hide CellOf;
    NoFlags(g);
    moved := seq(AtLeastOne(g.columns) * AtLeastOne(g.rows), _ => false);
    ghost var done: seq<string> := [];
    var at := 0;
    T.NoFieldDone(cells, ',');
    while at < |cells|
      invariant at <= |cells| && T.Split(cells, ',') == done + T.Split(cells[at..], ',')
      invariant Flags(g, moved, Marked(g, done))
      decreases |cells| - at
    {
      var comma := T.Find(cells, ',', at);
      var token := cells[at..comma];
      moved := MarkToken(token, g, moved, Marked(g, done));
      MarkedOneMore(g, done, token);
      if comma == |cells| {
        T.LastFieldDone(cells, ',', done, at);
        assert token == cells[at..];
        return;
      }
      T.FieldDone(cells, ',', done, at, comma);
      done := done + [token];
      at := comma + 1;
    }
    // The text ends in a comma: the field after it is empty and marks nothing.
    EmptyField(g);
    assert cells[at..] == "" && T.Split(cells, ',') == done + [""];
    MarkedOneMore(g, done, "");
    assert Marked(g, done) + Marks(g, "") == Marked(g, done);
  }

  lemma EmptyField(g: Grid)
    ensures T.Split("", ',') == [""] && Marks(g, "") == {}
  {
  }

  lemma MarkedOneMore(g: Grid, done: seq<string>, token: string)
    ensures Marked(g, done + [token]) == Marked(g, done) + Marks(g, token)
  {
    assert (done + [token])[..|done|] == done;
  }

  method MarkToken(token: string, g: Grid, moved: seq<bool>, ghost marked: set<Place>) returns (after: seq<bool>)
    requires Flags(g, moved, marked)
    ensures Flags(g, after, marked + Marks(g, token))
  {
    hide Flags;
    after := moved;
    var place := ReadToken(token);
    if place.Some? {
      var row, column := place.value.0, place.value.1;
      if row >= 0 && row < g.rows && column >= 0 && column < g.columns {
        OneMoreFlag(g, moved, marked, (row, column));
        after := moved[CellOf(g, row, column) := true];
        return;
      }
    }
    assert marked + {} == marked;
  }

  // ---------------------------------------------------------------- counting a zone

  /** The cells of a zone in the rows above `row`, and in `row` left of `column`. */
  ghost function Visited(g: Grid, z: Zone, row: int, column: int): set<Place> {
    set p | p in ZoneCells(g, z) && (p.0 < row || (p.0 == row && p.1 < column))
  }

  lemma VisitOne(g: Grid, z: Zone, marked: set<Place>, row: int, column: int)
    requires z.row1 <= row <= z.row2 && z.col1 <= column <= z.col2
    ensures var a, b := Visited(g, z, row, column), Visited(g, z, row, column + 1);
            if InGrid(g, (row, column)) then
              |b| == |a| + 1 && |b * marked| == |a * marked| + if (row, column) in marked then 1 else 0
            else b == a
  {
    var p := (row, column);
    var a, b := Visited(g, z, row, column), Visited(g, z, row, column + 1);
    VisitedNext(g, z, row, column);
    hide Visited;
    if InGrid(g, p) {
      if p in marked { assert b * marked == a * marked + {p}; } else { assert b * marked == a * marked; }
    }
  }

  lemma VisitedNext(g: Grid, z: Zone, row: int, column: int)
    requires z.row1 <= row <= z.row2 && z.col1 <= column <= z.col2
    ensures var a, b := Visited(g, z, row, column), Visited(g, z, row, column + 1);
            (row, column) !in a && b == if InGrid(g, (row, column)) then a + {(row, column)} else a
  {
    var p := (row, column);
    var a, b := Visited(g, z, row, column), Visited(g, z, row, column + 1);
    assert p in ZoneCells(g, z) <==> InGrid(g, p);
    hide ZoneCells;
    forall q | q in b ensures q in a || q == p {}
    forall q | q in a ensures q in b {}
  }

  method CountZone(g: Grid, z: Zone, moved: seq<bool>, ghost marked: set<Place>) returns (cells: nat, hits: nat)
    requires Flags(g, moved, marked)
    ensures cells == |ZoneCells(g, z)| && hits == |ZoneCells(g, z) * marked|
  {
    hide ZoneCells;
    cells, hits := 0, 0;
    var row := z.row1;
    ZoneBegins(g, z, marked);
    while row <= z.row2
      invariant row >= z.row1 && cells == |Visited(g, z, row, z.col1)| && hits == |Visited(g, z, row, z.col1) * marked|
      decreases z.row2 - row
    {
      var column := z.col1;
      while column <= z.col2
        invariant column >= z.col1
        invariant cells == |Visited(g, z, row, column)| && hits == |Visited(g, z, row, column) * marked|
        decreases z.col2 - column
      {
        VisitOne(g, z, marked, row, column);
        if !(row < 0 || row >= g.rows || column < 0 || column >= g.columns) {
          assert FlagIs(g, moved, row, column, (row, column) in marked);
          cells := cells + 1;
          if moved[CellOf(g, row, column)] { hits := hits + 1; }
        }
        column := column + 1;
      }
      RowDone(g, z, row, column);
      row := row + 1;
    }
    ZoneDone(g, z, row);
  }

  lemma ZoneBegins(g: Grid, z: Zone, marked: set<Place>)
    ensures Visited(g, z, z.row1, z.col1) == {} && Visited(g, z, z.row1, z.col1) * marked == {}
  {
  }

  lemma RowDone(g: Grid, z: Zone, row: int, column: int)
    requires column > z.col2
    ensures Visited(g, z, row, column) == Visited(g, z, row + 1, z.col1)
  {
  }

  lemma ZoneDone(g: Grid, z: Zone, row: int)
    requires row > z.row2
    ensures Visited(g, z, row, z.col1) == ZoneCells(g, z)
  {
  }

  // ---------------------------------------------------------------- the detector

  datatype Rect = Rect(x: int, y: int, width: int, height: int)

  /** What the planes of a frame hold: luminance, three bytes a pixel, or something the detector cannot read. */
  datatype Pixels = Luma(at: (int, int) -> Byte) | Packed(bytes: (int, int) -> (Byte, Byte, Byte)) | Unreadable

  datatype Frame = Frame(valid: bool, width: int, height: int, pixels: Pixels)

  function LumaOf(pixel: (Byte, Byte, Byte)): Byte { (2 * pixel.0 + 5 * pixel.1 + pixel.2) / 8 }

  predicate Readable(frame: Frame) { frame.valid && !frame.pixels.Unreadable? }

  function Read(frame: Frame, x: int, y: int): Byte
    requires Readable(frame)
  {
    if frame.pixels.Luma? then frame.pixels.at(x, y) else LumaOf(frame.pixels.bytes(x, y))
  }

  /** The picture inside the frame; the whole frame when none is given. */
  function Content(frame: Frame, content: Rect): Rect {
    if content.width <= 0 || content.height <= 0 then Rect(0, 0, frame.width, frame.height) else content
  }

  function Min(a: int, b: int): int { if a < b then a else b }

  /** Where in the frame the sample at row `sy` and column `sx` is read. */
  function SampleAt(frame: Frame, c: Rect, sy: int, sx: int): (int, int) {
    (Min(c.x + Scaled(c.width, sx, WIDTH), frame.width - 1), Min(c.y + Scaled(c.height, sy, HEIGHT), frame.height - 1))
  }

  /** Every sample is read inside the frame, if and only if no corner of a given picture lies before
      the frame's. */
  lemma SamplesLieInTheFrame(frame: Frame, content: Rect)
    requires frame.width >= 1 && frame.height >= 1
    ensures (forall sy, sx :: 0 <= sy < HEIGHT && 0 <= sx < WIDTH ==> InFrame(frame, SampleAt(frame, Content(frame, content), sy, sx)))
            <==> content.width <= 0 || content.height <= 0 || (content.x >= 0 && content.y >= 0)
  {
    var c := Content(frame, content);
    ScaledAtZero(c.width, WIDTH);
    ScaledAtZero(c.height, HEIGHT);
    forall sy, sx | 0 <= sy < HEIGHT && 0 <= sx < WIDTH
      ensures c.x >= 0 && c.y >= 0 ==> InFrame(frame, SampleAt(frame, c, sy, sx))
    {
      ScaledInRange(c.width, sx, WIDTH);
      ScaledInRange(c.height, sy, HEIGHT);
      hide Scaled;
    }
    hide Scaled;
    if forall sy, sx :: 0 <= sy < HEIGHT && 0 <= sx < WIDTH ==> InFrame(frame, SampleAt(frame, c, sy, sx)) {
      assert InFrame(frame, SampleAt(frame, c, 0, 0));
    }
  }

  /** For a picture that lies in its frame the samples are spread evenly over it: the one at row `sy`
      and column `sx` is the pixel that far across and down, `sx` in 160 and `sy` in 120. */
  lemma SamplesSpreadEvenly(frame: Frame, c: Rect, sy: int, sx: int)
    requires 0 <= c.x && 0 < c.width && c.x + c.width <= frame.width
    requires 0 <= c.y && 0 < c.height && c.y + c.height <= frame.height
    requires 0 <= sy < 120 && 0 <= sx < 160
    ensures var at := SampleAt(frame, Content(frame, c), sy, sx);
            && 160 * (at.0 - c.x) <= c.width * sx < 160 * (at.0 - c.x) + 160
            && 120 * (at.1 - c.y) <= c.height * sy < 120 * (at.1 - c.y) + 120
  {
    ScaledInRange(c.width, sx, WIDTH);
    ScaledInRange(c.height, sy, HEIGHT);
    Quotient(c.width * sx, WIDTH);
    Quotient(c.height * sy, HEIGHT);
  }

  /** A packed pixel's luminance weighs its bytes two, five and one in eight, so that a grey is itself. */
  lemma LumaWeighs(r: Byte, g: Byte, b: Byte)
    ensures 8 * LumaOf((r, g, b)) <= 2 * r + 5 * g + b < 8 * LumaOf((r, g, b)) + 8
    ensures r == g == b ==> LumaOf((r, g, b)) == r
  {
  }

  lemma ScaledAtZero(size: int, steps: int)
    requires steps > 0
    ensures Scaled(size, 0, steps) == 0
  {
    assert size * 0 == 0;
  }

  predicate InFrame(frame: Frame, at: (int, int)) { 0 <= at.0 < frame.width && 0 <= at.1 < frame.height }

  function SampleOf(frame: Frame, c: Rect, k: int): Byte
    requires Readable(frame)
  {
    var at := SampleAt(frame, c, k / WIDTH, k % WIDTH);
    Read(frame, at.0, at.1)
  }

  function SamplesOf(frame: Frame, content: Rect): Samples
    requires Readable(frame)
  {
    seq(SAMPLES, k => SampleOf(frame, Content(frame, content), k))
  }

  class MotionDetector {
    const grid: Grid
    var previous: array<Byte>
    var current: array<Byte>
    var primed: bool

    ghost predicate Valid()
      reads this
    {
      Usable(grid) && previous.Length == SAMPLES && current.Length == SAMPLES && previous != current
    }

    constructor (grid: Grid)
      ensures Valid() && !primed && fresh(previous) && fresh(current)
      ensures this.grid == Grid(AtLeastOne(grid.columns), AtLeastOne(grid.rows))
    {
      this.grid := Grid(AtLeastOne(grid.columns), AtLeastOne(grid.rows));
      previous := new Byte[SAMPLES](_ => 0);
      current := new Byte[SAMPLES](_ => 0);
      primed := false;
    }

    method Reset()
      requires Valid()
      modifies this`primed, previous
      ensures Valid() && !primed && previous[..] == seq(SAMPLES, _ => 0)
    {
      primed := false;
      for i := 0 to SAMPLES
        modifies previous
        invariant Valid() && !primed && forall k :: 0 <= k < i ==> previous[k] == 0
      {
        previous[i] := 0;
      }
    }

    /** Compares a frame with the one before it and keeps it for the next: the text of the cells that moved. */
    method Analyse(frame: Frame, content: Rect) returns (cells: string)
      requires Valid()
      modifies this, previous, current
      ensures Valid() && {previous, current} == {old(previous), old(current)}
      ensures !Readable(frame) ==>
                cells == "" && primed == old(primed) && previous == old(previous) && previous[..] == old(previous[..])
      ensures Readable(frame) ==>
                && primed && previous[..] == SamplesOf(frame, content)
                && cells == if old(primed)
                            then Printed(grid, MovedCells(grid, old(previous[..]), previous[..], grid.rows * grid.columns))
                            else ""
    {
      if !frame.valid { return ""; }
      if frame.pixels.Unreadable? { return ""; }
      FillSamples(frame, Content(frame, content));
      cells := "";
      if primed { cells := MovedText(); }
      previous, current := current, previous;
      primed := true;
    }

    method FillSamples(frame: Frame, c: Rect)
      requires Valid() && Readable(frame)
      modifies current
      ensures Valid() && current[..] == seq(SAMPLES, k => SampleOf(frame, c, k))
    {
      for sy := 0 to HEIGHT
        invariant forall k :: 0 <= k < sy * WIDTH ==> current[k] == SampleOf(frame, c, k)
      {
        for sx := 0 to WIDTH
          invariant forall k :: 0 <= k < sy * WIDTH + sx ==> current[k] == SampleOf(frame, c, k)
        {
          var k := sy * WIDTH + sx;
          assert k / WIDTH == sy && k % WIDTH == sx;
          var at := SampleAt(frame, c, sy, sx);
          current[k] := Read(frame, at.0, at.1);
        }
      }
    }

    method MovedText() returns (cells: string)
      requires Valid()
      ensures cells == Printed(grid, MovedCells(grid, previous[..], current[..], grid.rows * grid.columns))
    {
      assert grid.rows * grid.columns >= 0 by { SmallerFactor(0, grid.rows, grid.columns); }
      var total, moved := CountSamples();
      hide Total;
      hide Moved;
      hide MovedCells;
      hide Printed;
      hide RowOf;
      hide ColumnOf;
      hide CellText;
      ghost var before, now: Samples := previous[..], current[..];
      NothingPrinted(grid, before, now);
      cells := "";
      for index := 0 to total.Length
        modifies {}
        invariant cells == Printed(grid, MovedCells(grid, before, now, index))
      {
        OneMoreCell(grid, before, now, index, total[index], moved[index]);
        if total[index] == 0 { continue; }
        if moved[index] * 100 < total[index] * CELL_PERCENT { continue; }
        PrintOneMore(grid, MovedCells(grid, before, now, index), index);
        if cells != "" { cells := cells + ","; }
        cells := cells + CellText(grid, index);
      }
    }

    method CountSamples() returns (total: array<nat>, moved: array<nat>)
      requires Valid()
      ensures grid.rows * grid.columns >= 0 && total.Length == moved.Length == grid.rows * grid.columns
      ensures forall i :: 0 <= i < total.Length ==>
                total[i] == Total(grid, i, SAMPLES) && moved[i] == Moved(grid, previous[..], current[..], i, SAMPLES)
    {
      SmallerFactor(0, grid.rows, grid.columns);
      total := new nat[grid.rows * grid.columns](_ => 0);
      moved := new nat[grid.rows * grid.columns](_ => 0);
      ghost var before, now: Samples := previous[..], current[..];
      for sy := 0 to HEIGHT
        invariant Counted(grid, before, now, total, moved, sy * WIDTH) && before == previous[..] && now == current[..]
      {
        var row := Scaled(grid.rows, sy, HEIGHT);
        for sx := 0 to WIDTH
          invariant Counted(grid, before, now, total, moved, sy * WIDTH + sx) && before == previous[..] && now == current[..]
        {
          CountOne(total, moved, row, sy, sx);
        }
      }
    }

    method CountOne(total: array<nat>, moved: array<nat>, row: int, sy: int, sx: int)
      requires Valid() && 0 <= sy < HEIGHT && 0 <= sx < WIDTH && row == Scaled(grid.rows, sy, HEIGHT)
      requires Counted(grid, previous[..], current[..], total, moved, sy * WIDTH + sx)
      modifies total, moved
      ensures Counted(grid, previous[..], current[..], total, moved, sy * WIDTH + sx + 1)
    {
      var k := sy * WIDTH + sx;
      var index := CellOf(grid, row, Scaled(grid.columns, sx, WIDTH));
      SampleCellInRange(grid, sy, sx);
      ghost var before, now: Samples := previous[..], current[..];
      CountsNext(grid, before, now, sy, sx);
      hide Total;
      hide Moved;
      hide CellOf;
      hide Scaled;
      total[index] := total[index] + 1;
      var delta: int := current[k] as int - previous[k] as int;
      if delta > PIXEL_DELTA || delta < -PIXEL_DELTA { moved[index] := moved[index] + 1; }
    }
  }

  lemma CountsNext(g: Grid, before: Samples, now: Samples, sy: int, sx: int)
    requires 0 <= sy < HEIGHT && 0 <= sx < WIDTH
    ensures var k := sy * WIDTH + sx;
            forall i ::
              && Total(g, i, k + 1) == Total(g, i, k) + (if SampleCell(g, sy, sx) == i then 1 else 0)
              && Moved(g, before, now, i, k + 1)
                 == Moved(g, before, now, i, k) + (if SampleCell(g, sy, sx) == i && Changed(before[k], now[k]) then 1 else 0)
  {
    var k := sy * WIDTH + sx;
    assert k / WIDTH == sy && k % WIDTH == sx;
    hide SampleCell;
  }

  lemma NothingPrinted(g: Grid, before: Samples, now: Samples)
    requires Usable(g)
    ensures Printed(g, MovedCells(g, before, now, 0)) == ""
  {
  }

  lemma OneMoreCell(g: Grid, before: Samples, now: Samples, index: nat, total: nat, moved: nat)
    requires total == Total(g, index, SAMPLES) && moved == Moved(g, before, now, index, SAMPLES)
    ensures var cells := MovedCells(g, before, now, index);
            MovedCells(g, before, now, index + 1)
            == if total > 0 && moved * 100 >= total * CELL_PERCENT then cells + [index] else cells
  {
    hide Total;
    hide Moved;
  }

  ghost predicate Counted(g: Grid, before: Samples, now: Samples, total: array<nat>, moved: array<nat>, n: nat)
    requires n <= SAMPLES
    reads total, moved
  {
    && total.Length == moved.Length == g.rows * g.columns && total != moved
    && forall i :: 0 <= i < total.Length ==> total[i] == Total(g, i, n) && moved[i] == Moved(g, before, now, i, n)
  }

  lemma PrintOneMore(g: Grid, cells: seq<nat>, cell: nat)
    requires Usable(g)
    ensures Printed(g, cells + [cell]) == (if Printed(g, cells) == "" then "" else Printed(g, cells) + ",") + CellText(g, cell)
  {
    assert (cells + [cell])[..|cells|] == cells;
    CellTextReadsBack(g, cell);
    if cells != [] { PrintedIsNotEmpty(g, cells); }
    var texts := CellTexts(g, cells);
    assert (texts + [CellText(g, cell)])[..|texts|] == texts;
  }
}
