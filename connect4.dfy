/** Connect four: seven columns of six cells, indexed `[column][row]` with row
    0 at the bottom; four tokens in a line win. */
module ConnectFour {
  import opened Players
  import Mcts
  import Seqs

  const Columns: nat := 7
  const Rows: nat := 6

  type Cell = Option<Player>

  type Grid = g: seq<seq<Cell>> | |g| == Columns && forall c :: 0 <= c < Columns ==> |g[c]| == Rows
    witness seq(7, _ => seq(6, _ => None))

  datatype Board = Board(grid: Grid)

  /** `Grid::empty` and `Board::new`: every cell empty. */
  function New(): (b: Board)
    ensures forall c, r :: 0 <= c < Columns && 0 <= r < Rows ==> b.grid[c][r] == None
  {
    Board(seq(7, _ => seq(6, _ => None)))
  }

  // ---------------------------------------------------------------------------
  // Playing a column
  // ---------------------------------------------------------------------------

  /** The first empty cell of a column at index `i` or above. */
  function LowestEmpty(col: seq<Cell>, i: nat): (r: Option<nat>)
    requires i <= |col|
    ensures r.Some? ==> i <= r.value < |col| && col[r.value] == None
    ensures r.Some? ==> forall j :: i <= j < r.value ==> col[j] != None
    ensures r.None? ==> forall j :: i <= j < |col| ==> col[j] != None
    decreases |col| - i
  {
    if i == |col| then None
    else if col[i] == None then Some(i)
    else LowestEmpty(col, i + 1)
  }

  /** `play`: p's token goes into the lowest empty cell of the column; a full
      column is left as it is. */
  function Play(b: Board, p: Player, col: nat): Board
    requires col < Columns
  {
    match LowestEmpty(b.grid[col], 0)
    case Some(r) => Board(b.grid[col := b.grid[col][r := Some(p)]])
    case None => b
  }

  /** The token lands on the lowest empty cell of the column, every other cell
      keeps its content, and a full column changes nothing. */
  lemma PlayEffect(b: Board, p: Player, col: nat)
    requires col < Columns
    ensures forall r :: 0 <= r < Rows && b.grid[col][r] == None && (forall j :: 0 <= j < r ==> b.grid[col][j] != None) ==>
      && Play(b, p, col).grid[col][r] == Some(p)
      && (forall c, j :: 0 <= c < Columns && 0 <= j < Rows && (c, j) != (col, r) ==>
            Play(b, p, col).grid[c][j] == b.grid[c][j])
    ensures (forall r :: 0 <= r < Rows ==> b.grid[col][r] != None) ==> Play(b, p, col) == b
  {
    var lo := LowestEmpty(b.grid[col], 0);
    forall r | 0 <= r < Rows && b.grid[col][r] == None && (forall j :: 0 <= j < r ==> b.grid[col][j] != None)
      ensures lo == Some(r)
    {
    }
  }

  /** Each column is filled from the bottom without holes. */
  ghost predicate Gravity(g: Grid)
  {
    forall c, r :: 0 <= c < Columns && 0 < r < Rows && g[c][r] != None ==> g[c][r - 1] != None
  }

  /** Playing keeps every column filled from the bottom. */
  lemma PlayKeepsGravity(b: Board, p: Player, col: nat)
    requires col < Columns && Gravity(b.grid)
    ensures Gravity(Play(b, p, col).grid)
  {
    var lo := LowestEmpty(b.grid[col], 0);
    if lo.Some? {
      var g' := Play(b, p, col).grid;
      forall c, r | 0 <= c < Columns && 0 < r < Rows && g'[c][r] != None
        ensures g'[c][r - 1] != None
      {
      }
    }
  }

  // ---------------------------------------------------------------------------
  // Lines and the winner
  // ---------------------------------------------------------------------------

  /** The four directions a line can run in. */
  datatype Dir = Horizontal | Vertical | Ascending | Descending

  /** The square `i` steps from `(c, r)` in direction `d`. */
  function Step(c: int, r: int, d: Dir, i: int): (int, int)
  {
    match d
    case Horizontal => (c + i, r)
    case Vertical => (c, r + i)
    case Ascending => (c + i, r + i)
    case Descending => (c + i, r - i)
  }

  /** Stepping `s` squares then `i` more is stepping `s + i` squares. */
  lemma StepAdd(c: int, r: int, d: Dir, s: int, i: int)
    ensures Step(Step(c, r, d, s).0, Step(c, r, d, s).1, d, i) == Step(c, r, d, s + i)
  {
  }

  predicate InGrid(sq: (int, int))
  {
    0 <= sq.0 < Columns && 0 <= sq.1 < Rows
  }

  /** The lines the winner test scans, in its order: the 6 rows, the 7
      columns, 12 ascending diagonals starting at column 0..3 and row 0..2,
      and 12 descending ones starting at column 0..3 and row 5..3. */
  const NbLines: nat := 37

  function LineStart(k: nat): (nat, nat)
    requires k < NbLines
  {
    if k < 6 then (0, k)
    else if k < 13 then (k - 6, 0)
    else if k < 25 then ((k - 13) / 3, (k - 13) % 3)
    else ((k - 25) / 3, 5 - (k - 25) % 3)
  }

  function LineDir(k: nat): Dir
    requires k < NbLines
  {
    if k < 6 then Horizontal else if k < 13 then Vertical else if k < 25 then Ascending else Descending
  }

  function Min(a: int, b: int): int
  {
    if a < b then a else b
  }

  /** How many squares line `k` has before it leaves the grid. */
  function LineLen(k: nat): nat
    requires k < NbLines
  {
    var (c, r) := LineStart(k);
    match LineDir(k)
    case Horizontal => Columns
    case Vertical => Rows
    case Ascending => Min(Columns - c, Rows - r)
    case Descending => Min(Columns - c, r + 1)
  }

  function LineSquare(k: nat, i: nat): (sq: (nat, nat))
    requires k < NbLines && i < LineLen(k)
    ensures sq.0 < Columns && sq.1 < Rows
    ensures sq == Step(LineStart(k).0, LineStart(k).1, LineDir(k), i)
  {
    var (c, r) := Step(LineStart(k).0, LineStart(k).1, LineDir(k), i);
    (c, r)
  }

  /** The diagonals starting at column `col` and row `row` (ascending) or
      row `5 - row` (descending), for `col < 4` and `row < 3`. */
  lemma DiagonalLines(col: nat, row: nat)
    requires col < 4 && row < 3
    ensures LineStart(13 + 3 * col + row) == (col, row) && LineDir(13 + 3 * col + row) == Ascending
    ensures LineLen(13 + 3 * col + row) == Min(Columns - col, Rows - row)
    ensures LineStart(25 + 3 * col + row) == (col, 5 - row) && LineDir(25 + 3 * col + row) == Descending
    ensures LineLen(25 + 3 * col + row) == Min(Columns - col, Rows - row)
  {
    assert (3 * col + row) / 3 == col && (3 * col + row) % 3 == row;
  }

  /** The cells of line `k`, in scanning order. */
  function Cells(g: Grid, k: nat): (cs: seq<Cell>)
    requires k < NbLines
    ensures |cs| == LineLen(k)
  {
    seq(LineLen(k), i requires 0 <= i < LineLen(k) => g[LineSquare(k, i).0][LineSquare(k, i).1])
  }

  /** The run counter over the cells from index `i` on: an empty cell resets
      the count to 0, a token of the player of the current run extends it, a
      token of the other player starts a new run of 1; a count of 4 wins. */
  function Scan(cells: seq<Cell>, i: nat, count: nat, last: Player): Option<Player>
    requires i <= |cells|
    decreases |cells| - i
  {
    if i == |cells| then None
    else
      match cells[i]
      case None => Scan(cells, i + 1, 0, last)
      case Some(p) =>
        if p == last then
          if count + 1 >= 4 then Some(last) else Scan(cells, i + 1, count + 1, last)
        else Scan(cells, i + 1, 1, p)
  }

  /** The first line, from line `k` on, whose scan finds a winner. */
  function FirstHit(g: Grid, k: nat): Option<Player>
    requires k <= NbLines
    decreases NbLines - k
  {
    if k == NbLines then None
    else
      match Scan(Cells(g, k), 0, 0, White)
      case Some(p) => Some(p)
      case None => FirstHit(g, k + 1)
  }

  /** The winner of a position. */
  function Winner(b: Board): Option<Player>
  {
    FirstHit(b.grid, 0)
  }

  /** One cell of the run counter, as each of the four scans applies it. */
  method CountCell(cell: Cell, count: nat, last: Player, ghost cells: seq<Cell>, ghost i: nat)
    returns (count': nat, last': Player, won: bool)
    requires i < |cells| && cells[i] == cell
    ensures won <==> cell == Some(last) && count + 1 >= 4
    ensures won ==> last' == last && Scan(cells, i, count, last) == Some(last)
    ensures !won ==> Scan(cells, i, count, last) == Scan(cells, i + 1, count', last')
  {
    count', last', won := count, last, false;
    match cell
    case Some(p) =>
      if p == last {
        count' := count + 1;
        if count' >= 4 {
          won := true;
        }
      } else {
        last' := p;
        count' := 1;
      }
    case None =>
      count' := 0;
  }

  /** The scans of `winner` that cover lines `from` up to `to`: either they
      find the first winner from line `from` on, or there is none among
      those lines and the search goes on at line `to`. */
  ghost predicate Scanned(g: Grid, from: nat, to: nat, hit: Option<Player>)
    requires from <= to <= NbLines
  {
    if hit.Some? then hit == FirstHit(g, from) else FirstHit(g, from) == FirstHit(g, to)
  }

  /** A scan of line `k` that found `hit` settles line `k`. */
  lemma FirstHitStep(g: Grid, k: nat, hit: Option<Player>)
    requires k < NbLines && hit == Scan(Cells(g, k), 0, 0, White)
    ensures Scanned(g, k, k + 1, hit)
  {
  }

  /** Scans of consecutive stretches of lines chain up. */
  lemma ScannedChain(g: Grid, from: nat, mid: nat, to: nat, hit: Option<Player>)
    requires from <= mid <= to <= NbLines
    requires FirstHit(g, from) == FirstHit(g, mid) && Scanned(g, mid, to, hit)
    ensures Scanned(g, from, to, hit)
  {
  }

  /** The run counter along row `row`, left to right. */
  method ScanRow(g: Grid, row: nat) returns (hit: Option<Player>)
    requires row < 6
    ensures Scanned(g, row, row + 1, hit)
  {
    var count, last := 0, White;
    ghost var cells := Cells(g, row);
    for col := 0 to 7
      invariant Scan(cells, 0, 0, White) == Scan(cells, col, count, last)
    {
      assert cells[col] == g[col][row];
      var won;
      count, last, won := CountCell(g[col][row], count, last, cells, col);
      if won {
        FirstHitStep(g, row, Some(last));
        return Some(last);
      }
    }
    FirstHitStep(g, row, None);
    return None;
  }

  /** The horizontal scan of `winner`: lines 0 to 5. */
  method ScanRows(g: Grid) returns (hit: Option<Player>)
    ensures Scanned(g, 0, 6, hit)
  {
    ghost var k0 := 0;
    for row := 0 to 6
      invariant FirstHit(g, k0) == FirstHit(g, row)
    {
      hit := ScanRow(g, row);
      if hit.Some? {
        ScannedChain(g, k0, row, row + 1, hit);
        return;
      }
    }
    return None;
  }

  /** The run counter along column `col`, bottom to top. */
  method ScanColumn(g: Grid, col: nat) returns (hit: Option<Player>)
    requires col < 7
    ensures Scanned(g, 6 + col, 7 + col, hit)
  {
    var count, last := 0, White;
    ghost var cells := Cells(g, 6 + col);
    for row := 0 to 6
      invariant Scan(cells, 0, 0, White) == Scan(cells, row, count, last)
    {
      assert cells[row] == g[col][row];
      var won;
      count, last, won := CountCell(g[col][row], count, last, cells, row);
      if won {
        FirstHitStep(g, 6 + col, Some(last));
        return Some(last);
      }
    }
    FirstHitStep(g, 6 + col, None);
    return None;
  }

  /** The vertical scan of `winner`: lines 6 to 12. */
  method ScanColumns(g: Grid) returns (hit: Option<Player>)
    ensures Scanned(g, 6, 13, hit)
  {
    ghost var k0 := 6;
    for col := 0 to 7
      invariant FirstHit(g, k0) == FirstHit(g, k0 + col)
    {
      hit := ScanColumn(g, col);
      if hit.Some? {
        ScannedChain(g, k0, k0 + col, k0 + col + 1, hit);
        return;
      }
    }
    return None;
  }

  /** The cells of the ascending diagonal from `(col, row)`, read without going
      through the line numbering. */
  function AscendingCells(g: Grid, col: nat, row: nat): (cs: seq<Cell>)
    requires col < 4 && row < 3
    ensures |cs| == Min(Columns - col, Rows - row)
  {
    seq(Min(Columns - col, Rows - row), i requires 0 <= i < Min(Columns - col, Rows - row) => g[col + i][row + i])
  }

  /** They are the cells of line `13 + 3 * col + row`. */
  lemma AscendingLine(g: Grid, col: nat, row: nat)
    requires col < 4 && row < 3
    ensures Cells(g, 13 + 3 * col + row) == AscendingCells(g, col, row)
  {
    var k := 13 + 3 * col + row;
    DiagonalLines(col, row);
    forall i | 0 <= i < LineLen(k)
      ensures Cells(g, k)[i] == AscendingCells(g, col, row)[i]
    {
      assert LineSquare(k, i) == (col + i, row + i);
    }
  }

  /** A scan of those cells settles line `13 + 3 * col + row`. */
  lemma ScannedAscending(g: Grid, col: nat, row: nat, k: nat, hit: Option<Player>)
    requires col < 4 && row < 3 && k == 13 + 3 * col + row
    requires hit == Scan(AscendingCells(g, col, row), 0, 0, White)
    ensures Scanned(g, k, k + 1, hit)
  {
    AscendingLine(g, col, row);
    FirstHitStep(g, k, hit);
  }

  /** The run counter along the ascending diagonal from `(col, row)`. */
  method ScanAscendingFrom(g: Grid, col: nat, row: nat) returns (hit: Option<Player>)
    requires col < 4 && row < 3
    ensures hit == Scan(AscendingCells(g, col, row), 0, 0, White)
  {
    var count, last := 0, White;
    var offset := 0;
    ghost var cells := AscendingCells(g, col, row);
    while col + offset < 7 && row + offset < 6
      invariant offset <= |cells|
      invariant offset < |cells| <==> col + offset < 7 && row + offset < 6
      invariant Scan(cells, 0, 0, White) == Scan(cells, offset, count, last)
    {
      var won;
      count, last, won := CountCell(g[col + offset][row + offset], count, last, cells, offset);
      if won {
        return Some(last);
      }
      offset := offset + 1;
    }
    return None;
  }

  /** The ascending diagonals that start in column `col`. */
  method ScanAscendingColumn(g: Grid, col: nat, ghost k0: nat) returns (hit: Option<Player>)
    requires col < 4 && k0 == 13 + 3 * col
    ensures Scanned(g, k0, k0 + 3, hit)
  {
    for row := 0 to 3
      invariant FirstHit(g, k0) == FirstHit(g, k0 + row)
    {
      hit := ScanAscendingFrom(g, col, row);
      ScannedAscending(g, col, row, k0 + row, hit);
      if hit.Some? {
        ScannedChain(g, k0, k0 + row, k0 + row + 1, hit);
        return;
      }
    }
    return None;
  }

  /** The ascending-diagonal scan of `winner`: lines 13 to 24. */
  method ScanAscending(g: Grid) returns (hit: Option<Player>)
    ensures Scanned(g, 13, 25, hit)
  {
    ghost var k0 := 13;
    for col := 0 to 4
      invariant FirstHit(g, k0) == FirstHit(g, k0 + 3 * col)
    {
      hit := ScanAscendingColumn(g, col, k0 + 3 * col);
      if hit.Some? {
        ScannedChain(g, k0, k0 + 3 * col, k0 + 3 * col + 3, hit);
        return;
      }
      assert k0 + 3 * col + 3 == k0 + 3 * (col + 1);
    }
    return None;
  }

  /** The cells of the descending diagonal from `(col, 5 - row)`, read without going
      through the line numbering. */
  function DescendingCells(g: Grid, col: nat, row: nat): (cs: seq<Cell>)
    requires col < 4 && row < 3
    ensures |cs| == Min(Columns - col, Rows - row)
  {
    seq(Min(Columns - col, Rows - row), i requires 0 <= i < Min(Columns - col, Rows - row) => g[col + i][5 - (row + i)])
  }

  /** They are the cells of line `25 + 3 * col + row`. */
  lemma DescendingLine(g: Grid, col: nat, row: nat)
    requires col < 4 && row < 3
    ensures Cells(g, 25 + 3 * col + row) == DescendingCells(g, col, row)
  {
    var k := 25 + 3 * col + row;
    DiagonalLines(col, row);
    forall i | 0 <= i < LineLen(k)
      ensures Cells(g, k)[i] == DescendingCells(g, col, row)[i]
    {
      assert LineSquare(k, i) == (col + i, 5 - (row + i));
    }
  }

  /** A scan of those cells settles line `25 + 3 * col + row`. */
  lemma ScannedDescending(g: Grid, col: nat, row: nat, k: nat, hit: Option<Player>)
    requires col < 4 && row < 3 && k == 25 + 3 * col + row
    requires hit == Scan(DescendingCells(g, col, row), 0, 0, White)
    ensures Scanned(g, k, k + 1, hit)
  {
    DescendingLine(g, col, row);
    FirstHitStep(g, k, hit);
  }

  /** The run counter along the descending diagonal from `(col, 5 - row)`. */
  method ScanDescendingFrom(g: Grid, col: nat, row: nat) returns (hit: Option<Player>)
    requires col < 4 && row < 3
    ensures hit == Scan(DescendingCells(g, col, row), 0, 0, White)
  {
    var count, last := 0, White;
    var offset := 0;
    ghost var cells := DescendingCells(g, col, row);
    while col + offset < 7 && row + offset < 6
      invariant offset <= |cells|
      invariant offset < |cells| <==> col + offset < 7 && row + offset < 6
      invariant Scan(cells, 0, 0, White) == Scan(cells, offset, count, last)
    {
      var won;
      count, last, won := CountCell(g[col + offset][5 - (row + offset)], count, last, cells, offset);
      if won {
        return Some(last);
      }
      offset := offset + 1;
    }
    return None;
  }

  /** The descending diagonals that start in column `col`. */
  method ScanDescendingColumn(g: Grid, col: nat, ghost k0: nat) returns (hit: Option<Player>)
    requires col < 4 && k0 == 25 + 3 * col
    ensures Scanned(g, k0, k0 + 3, hit)
  {
    for row := 0 to 3
      invariant FirstHit(g, k0) == FirstHit(g, k0 + row)
    {
      hit := ScanDescendingFrom(g, col, row);
      ScannedDescending(g, col, row, k0 + row, hit);
      if hit.Some? {
        ScannedChain(g, k0, k0 + row, k0 + row + 1, hit);
        return;
      }
    }
    return None;
  }

  /** The descending-diagonal scan of `winner`: lines 25 to 36. */
  method ScanDescending(g: Grid) returns (hit: Option<Player>)
    ensures Scanned(g, 25, NbLines, hit)
  {
    ghost var k0 := 25;
    for col := 0 to 4
      invariant FirstHit(g, k0) == FirstHit(g, k0 + 3 * col)
    {
      hit := ScanDescendingColumn(g, col, k0 + 3 * col);
      if hit.Some? {
        ScannedChain(g, k0, k0 + 3 * col, k0 + 3 * col + 3, hit);
        return;
      }
      assert k0 + 3 * col + 3 == k0 + 3 * (col + 1);
    }
    return None;
  }

  /** `winner`: the rows, the columns, the ascending and the descending
      diagonals, in this order, each scanned with the run counter; the first
      run of four decides. */
  method WinnerScan(b: Board) returns (w: Option<Player>)
    ensures w == Winner(b)
  {
    w := ScanRows(b.grid);
    if w.Some? {
      return;
    }
    w := ScanColumns(b.grid);
    if w.Some? {
      return;
    }
    w := ScanAscending(b.grid);
    if w.Some? {
      return;
    }
    w := ScanDescending(b.grid);
  }

  // ---------------------------------------------------------------------------
  // What the winner test finds
  // ---------------------------------------------------------------------------

  /** Cells `s` to `s + 3` of a line hold tokens of `p`. */
  ghost predicate RunAt(cells: seq<Cell>, s: nat, p: Player)
  {
    s + 4 <= |cells| && forall j :: s <= j < s + 4 ==> cells[j] == Some(p)
  }

  /** Four tokens of `p` on the squares `0..3` steps from `(c, r)` in
      direction `d`. */
  ghost predicate Four(g: Grid, p: Player, c: int, r: int, d: Dir)
  {
    forall i :: 0 <= i < 4 ==>
      InGrid(Step(c, r, d, i)) && g[Step(c, r, d, i).0][Step(c, r, d, i).1] == Some(p)
  }

  /** Four tokens of `p` in a row, a column or a diagonal. */
  ghost predicate HasFour(g: Grid, p: Player)
  {
    exists c: int, r: int, d: Dir :: Four(g, p, c, r, d)
  }

  /** The counter only reports a player after counting four of its tokens in
      a row: the `count` cells before `i` already hold `last`. */
  lemma {:induction false} ScanSound(cells: seq<Cell>, i: nat, count: nat, last: Player)
    requires i <= |cells| && count <= i
    requires forall j :: i - count <= j < i ==> cells[j] == Some(last)
    ensures Scan(cells, i, count, last).Some? ==> exists s: nat :: RunAt(cells, s, Scan(cells, i, count, last).value)
    decreases |cells| - i
  {
    if i < |cells| {
      match cells[i]
      case None =>
        ScanSound(cells, i + 1, 0, last);
      case Some(q) =>
        if q == last {
          if count + 1 >= 4 {
            assert RunAt(cells, i - 3, last);
          } else {
            ScanSound(cells, i + 1, count + 1, last);
          }
        } else {
          ScanSound(cells, i + 1, 1, q);
        }
    }
  }

  /** The counter reports some player once it reaches a run of four: either
      the run is still ahead, or its first `i - s` cells have been counted. */
  lemma {:induction false} ScanComplete(cells: seq<Cell>, i: nat, count: nat, last: Player, s: nat, p: Player)
    requires i <= |cells| && RunAt(cells, s, p)
    requires i <= s || (i <= s + 3 && last == p && count >= i - s)
    ensures Scan(cells, i, count, last).Some?
    decreases |cells| - i
  {
    assert i < |cells|;
    match cells[i]
    case None =>
      ScanComplete(cells, i + 1, 0, last, s, p);
    case Some(q) =>
      if q == last {
        if count + 1 < 4 {
          ScanComplete(cells, i + 1, count + 1, last, s, p);
        }
      } else {
        ScanComplete(cells, i + 1, 1, q, s, p);
      }
  }

  /** A run of four in the cells of line `k` is four in a line on the grid. */
  lemma RunFour(g: Grid, k: nat, s: nat, p: Player)
    requires k < NbLines && RunAt(Cells(g, k), s, p)
    ensures Four(g, p, LineSquare(k, s).0, LineSquare(k, s).1, LineDir(k))
  {
    var (c0, r0) := LineStart(k);
    var (c, r) := LineSquare(k, s);
    forall i | 0 <= i < 4
      ensures InGrid(Step(c, r, LineDir(k), i)) && g[Step(c, r, LineDir(k), i).0][Step(c, r, LineDir(k), i).1] == Some(p)
    {
      StepAdd(c0, r0, LineDir(k), s, i);
      assert Cells(g, k)[s + i] == Some(p);
    }
  }

  /** A line whose scan reports `p` holds four tokens of `p`. */
  lemma LineFour(g: Grid, k: nat, p: Player)
    requires k < NbLines && Scan(Cells(g, k), 0, 0, White) == Some(p)
    ensures HasFour(g, p)
  {
    var cells := Cells(g, k);
    ScanSound(cells, 0, 0, White);
    var s: nat :| RunAt(cells, s, p);
    RunFour(g, k, s, p);
  }

  lemma {:induction false} FirstHitSound(g: Grid, k: nat, p: Player)
    requires k <= NbLines && FirstHit(g, k) == Some(p)
    ensures HasFour(g, p)
    decreases NbLines - k
  {
    if Scan(Cells(g, k), 0, 0, White).Some? {
      LineFour(g, k, p);
    } else {
      FirstHitSound(g, k + 1, p);
    }
  }

  lemma {:induction false} FirstHitComplete(g: Grid, k: nat, j: nat)
    requires k <= j < NbLines && Scan(Cells(g, j), 0, 0, White).Some?
    ensures FirstHit(g, k).Some?
    decreases j - k
  {
    if k < j && Scan(Cells(g, k), 0, 0, White).None? {
      FirstHitComplete(g, k + 1, j);
    }
  }

  /** Four in a line that starts `s` squares into line `k` and runs along
      it is a run of four in that line's cells. */
  lemma RunOnLine(g: Grid, p: Player, c: int, r: int, d: Dir, k: nat, s: nat)
    requires Four(g, p, c, r, d)
    requires k < NbLines && LineDir(k) == d && s + 4 <= LineLen(k)
    requires Step(LineStart(k).0, LineStart(k).1, d, s) == (c, r)
    ensures RunAt(Cells(g, k), s, p)
  {
    var cells := Cells(g, k);
    forall j | s <= j < s + 4
      ensures cells[j] == Some(p)
    {
      StepAdd(LineStart(k).0, LineStart(k).1, d, s, j - s);
    }
  }

  /** Every four in a line lies on one of the scanned lines, so the winner
      test reports someone. */
  lemma FourFound(g: Grid, p: Player, c: int, r: int, d: Dir)
    requires Four(g, p, c, r, d)
    ensures FirstHit(g, 0).Some?
  {
    assert InGrid(Step(c, r, d, 0)) && InGrid(Step(c, r, d, 3));
    var k: nat, s: nat;
    match d {
      case Horizontal =>
        k, s := r, c;
      case Vertical =>
        k, s := 6 + c, r;
      case Ascending =>
        k, s := 13 + 3 * c + r, 0;
        DiagonalLines(c, r);
      case Descending =>
        k, s := 25 + 3 * c + (5 - r), 0;
        DiagonalLines(c, 5 - r);
    }
    RunOnLine(g, p, c, r, d, k, s);
    ScanComplete(Cells(g, k), 0, 0, White, s, p);
    FirstHitComplete(g, 0, k);
  }

  /** `winner` returns `Some(p)` only when four tokens of `p` are in a line,
      and `None` exactly when no player has four in a line. */
  lemma WinnerSpec(b: Board)
    ensures forall p :: Winner(b) == Some(p) ==> HasFour(b.grid, p)
    ensures Winner(b) == None <==> forall p :: !HasFour(b.grid, p)
  {
    forall p | Winner(b) == Some(p)
      ensures HasFour(b.grid, p)
    {
      FirstHitSound(b.grid, 0, p);
    }
    forall p | HasFour(b.grid, p)
      ensures Winner(b).Some?
    {
      var c: int, r: int, d: Dir :| Four(b.grid, p, c, r, d);
      FourFound(b.grid, p, c, r, d);
    }
  }

  // ---------------------------------------------------------------------------
  // Moves
  // ---------------------------------------------------------------------------

  /** The columns from `c` on whose top cell is empty, in ascending order. */
  function OpenFrom(g: Grid, c: nat): seq<nat>
    requires c <= Columns
    decreases Columns - c
  {
    if c == Columns then []
    else if g[c][Rows - 1] == None then [c] + OpenFrom(g, c + 1)
    else OpenFrom(g, c + 1)
  }

  /** The columns listed from `c` on are open columns at or past `c`, in
      strictly ascending order. */
  lemma {:induction false} OpenFromSound(g: Grid, c: nat)
    requires c <= Columns
    ensures forall i :: 0 <= i < |OpenFrom(g, c)| ==>
      c <= OpenFrom(g, c)[i] < Columns && g[OpenFrom(g, c)[i]][Rows - 1] == None
    ensures forall i, j :: 0 <= i < j < |OpenFrom(g, c)| ==> OpenFrom(g, c)[i] < OpenFrom(g, c)[j]
    decreases Columns - c
  {
    if c < Columns {
      OpenFromSound(g, c + 1);
    }
  }

  /** Every open column at or past `c` is listed from `c` on. */
  lemma {:induction false} OpenFromComplete(g: Grid, c: nat, x: nat)
    requires c <= x < Columns && g[x][Rows - 1] == None
    ensures x in OpenFrom(g, c)
    decreases Columns - c
  {
    if c < x {
      OpenFromComplete(g, c + 1, x);
    }
  }

  /** A listed column is an open column at or past `c`. */
  lemma {:induction false} OpenListed(g: Grid, c: nat, x: nat)
    requires c <= Columns && x in OpenFrom(g, c)
    ensures c <= x < Columns && g[x][Rows - 1] == None
    decreases Columns - c
  {
    if c < Columns && (g[c][Rows - 1] != None || x != c) {
      OpenListed(g, c + 1, x);
    }
  }

  /** The legal moves: none once there is a winner, otherwise the columns
      that are not full. The side to move plays no part. */
  function Moves(b: Board): seq<nat>
  {
    if Winner(b).Some? then [] else OpenFrom(b.grid, 0)
  }

  /** `possible_moves_in`: appends the legal moves to `moves`. */
  method PossibleMovesIn(b: Board, p: Player, moves: seq<nat>) returns (out: seq<nat>)
    ensures out == moves + Moves(b)
  {
    out := moves;
    var w := WinnerScan(b);
    if w.Some? {
      return;
    }
    for col := 0 to Columns
      invariant out + OpenFrom(b.grid, col) == moves + OpenFrom(b.grid, 0)
    {
      if b.grid[col][5] == None {
        Seqs.Associative(out, [col], OpenFrom(b.grid, col + 1));
        out := out + [col];
      }
    }
  }

  /** With no winner, the moves are exactly the columns whose top cell is
      empty, in ascending order; with a winner there are none. */
  lemma MovesAreOpenColumns(b: Board, p: Player)
    ensures Winner(b).Some? ==> Moves(b) == []
    ensures Winner(b) == None ==> forall c: nat :: c in Moves(b) <==> c < Columns && b.grid[c][Rows - 1] == None
    ensures forall i, j :: 0 <= i < j < |Moves(b)| ==> Moves(b)[i] < Moves(b)[j]
  {
    OpenFromSound(b.grid, 0);
    forall c: nat | c in OpenFrom(b.grid, 0)
      ensures c < Columns && b.grid[c][Rows - 1] == None
    {
      OpenListed(b.grid, 0, c);
    }
    forall c: nat | c < Columns && b.grid[c][Rows - 1] == None
      ensures c in OpenFrom(b.grid, 0)
    {
      OpenFromComplete(b.grid, 0, c);
    }
  }

  /** `play` as the program writes it: the first empty cell of the column,
      from the bottom, receives the token. */
  method PlayInColumn(b: Board, p: Player, col: nat) returns (b': Board)
    requires col < Columns
    ensures b' == Play(b, p, col)
  {
    for r := 0 to Rows
      invariant forall j :: 0 <= j < r ==> b.grid[col][j] != None
    {
      if b.grid[col][r] == None {
        assert LowestEmpty(b.grid[col], 0) == Some(r);
        return Board(b.grid[col := b.grid[col][r := Some(p)]]);
      }
    }
    return b;
  }

  // ---------------------------------------------------------------------------
  // Game length
  // ---------------------------------------------------------------------------

  /** The number of empty cells of a column. */
  function EmptyInColumn(col: seq<Cell>): nat
  {
    if col == [] then 0 else (if col[0] == None then 1 else 0) + EmptyInColumn(col[1..])
  }

  /** The number of empty cells in the columns from `c` on. */
  function EmptyFrom(g: Grid, c: nat): nat
    requires c <= Columns
    decreases Columns - c
  {
    if c == Columns then 0 else EmptyInColumn(g[c]) + EmptyFrom(g, c + 1)
  }

  function EmptyCells(b: Board): nat
  {
    EmptyFrom(b.grid, 0)
  }

  lemma {:induction false} EmptyInColumnBound(col: seq<Cell>)
    ensures EmptyInColumn(col) <= |col|
  {
    if col != [] {
      EmptyInColumnBound(col[1..]);
    }
  }

  lemma {:induction false} EmptyInColumnFill(col: seq<Cell>, r: nat, p: Player)
    requires r < |col| && col[r] == None
    ensures EmptyInColumn(col[r := Some(p)]) == EmptyInColumn(col) - 1
  {
    if r > 0 {
      EmptyInColumnFill(col[1..], r - 1, p);
      assert col[r := Some(p)][1..] == col[1..][r - 1 := Some(p)];
    }
  }

  lemma {:induction false} EmptyFromFill(g: Grid, c: nat, col: nat, r: nat, p: Player)
    requires c <= Columns && col < Columns && r < Rows && g[col][r] == None
    ensures EmptyFrom(g[col := g[col][r := Some(p)]], c) == EmptyFrom(g, c) - (if c <= col then 1 else 0)
    ensures EmptyFrom(g, c) <= 6 * (Columns - c)
    decreases Columns - c
  {
    if c < Columns {
      EmptyFromFill(g, c + 1, col, r, p);
      EmptyInColumnBound(g[c]);
      if c == col {
        EmptyInColumnFill(g[c], r, p);
      }
    }
  }

  /** Playing a legal move fills one of the at most 42 empty cells, so a game
      lasts at most 42 plies. */
  lemma PlayFillsOneCell(b: Board, p: Player, col: nat)
    requires col in Moves(b)
    ensures col < Columns
    ensures EmptyCells(Play(b, p, col)) == EmptyCells(b) - 1
    ensures EmptyCells(b) <= 42
  {
    OpenListed(b.grid, 0, col);
    var lo := LowestEmpty(b.grid[col], 0);
    assert lo.Some?;
    EmptyFromFill(b.grid, 0, col, lo.value, p);
  }

  /** Connect four as a board for the search engine. */
  function Rules(): Mcts.Rules<Board, nat>
  {
    Mcts.Rules(
      (b: Board, p: Player) => Moves(b),
      (b: Board, p: Player, col: nat) requires col < Columns => Play(b, p, col),
      (b: Board) => Winner(b),
      (b: Board) => EmptyCells(b))
  }

  /** Connect four meets the board contract, so a rollout always ends. */
  lemma RulesConform()
    ensures Mcts.Conforming(Rules())
  {
    var r := Rules();
    forall b: Board, p: Player, col: nat | col in r.moves(b, p)
      ensures r.play.requires(b, p, col) && r.measure(r.play(b, p, col)) < r.measure(b)
    {
      PlayFillsOneCell(b, p, col);
    }
  }
}
