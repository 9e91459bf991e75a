/** Checkers (international rules) on an 8x8 board indexed `[y][x]`: White
    starts on rows 0-2 and moves up, Black starts on rows 5-7 and moves down;
    crowned tokens fly along diagonals, captures may chain, only the moves
    with the most captures may be played, and 25 moves of crowned tokens
    without capture end the game. */
module Checkers {
  import opened Players
  import opened Utils
  import opened Seqs

  const Width: nat := 8

  /** The draw cutoff: after this many consecutive moves of crowned tokens
      without capture, no side has a move. */
  const DrawCutoff: nat := 25

  datatype Token = Token(player: Player, crowned: bool)

  type Cell = Option<Token>

  type Board = b: seq<seq<Cell>> | |b| == Width && forall y :: 0 <= y < Width ==> |b[y]| == Width
    witness seq(8, _ => seq(8, _ => None))

  /** `Game`: the board and the number of consecutive moves of crowned tokens
      without capture. */
  datatype Game = Game(board: Board, crownedMovesWithoutCapture: nat)

  /** A move: the token on `src` ends on `dst`, and the tokens on `captured`
      are taken, in the order they were jumped. */
  datatype Move = Move(src: Coords2D, dst: Coords2D, captured: seq<Coords2D>)

  /** `is_in`. */
  predicate IsIn(x: int, y: int)
  {
    0 <= x < Width && 0 <= y < Width
  }

  predicate InBoard(c: Coords2D)
  {
    c.x < Width && c.y < Width
  }

  function At(b: Board, c: Coords2D): Cell
    requires InBoard(c)
  {
    b[c.y][c.x]
  }

  function Set(b: Board, c: Coords2D, v: Cell): (b': Board)
    requires InBoard(c)
  {
    b[c.y := b[c.y][c.x := v]]
  }

  // ---------------------------------------------------------------------------
  // Initial position
  // ---------------------------------------------------------------------------

  /** The initial content of square `(x, y)`: uncrowned White tokens on rows
      0-2 and uncrowned Black tokens on rows 5-7, on the squares with `x + y`
      even. */
  function InitialCell(x: nat, y: nat): Cell
  {
    if (x + y) % 2 != 0 then None
    else if y < 3 then Some(Token(White, false))
    else if y >= 5 then Some(Token(Black, false))
    else None
  }

  /** `Game::new`: fills rows 0-2 with White and rows 5-7 with Black, one
      square in two, starting at column 1 on odd rows. */
  method New() returns (g: Game)
    ensures forall y, x :: 0 <= y < Width && 0 <= x < Width ==> g.board[y][x] == InitialCell(x, y)
    ensures g.crownedMovesWithoutCapture == 0
  {
    var b: Board := seq(8, _ => seq(8, _ => None));
    for row := 0 to Width / 2 - 1
      invariant forall y, x :: 0 <= y < Width && 0 <= x < Width ==>
        b[y][x] == if y < row then InitialCell(x, y) else None
    {
      b := FillRow(b, row, Token(White, false));
    }
    for row := Width / 2 + 1 to Width
      invariant forall y, x :: 0 <= y < Width && 0 <= x < Width ==>
        b[y][x] == if y < 3 || (5 <= y < row) then InitialCell(x, y) else None
    {
      b := FillRow(b, row, Token(Black, false));
    }
    g := Game(b, 0);
  }

  /** The inner loop of `Game::new`: puts `tok` on every other square of
      row `row`, from column 1 on odd rows and column 0 on even ones. */
  method FillRow(b: Board, row: nat, tok: Token) returns (b': Board)
    requires row < Width
    ensures forall y :: 0 <= y < Width && y != row ==> b'[y] == b[y]
    ensures forall x :: 0 <= x < Width ==> b'[row][x] == if (x + row) % 2 == 0 then Some(tok) else b[row][x]
  {
    b' := b;
    var base := if row % 2 == 1 then 1 else 0;
    for col := 0 to Width
      invariant forall y :: 0 <= y < Width && y != row ==> b'[y] == b[y]
      invariant forall x :: 0 <= x < Width ==>
        b'[row][x] == if x < col + base && (x + row) % 2 == 0 then Some(tok) else b[row][x]
    {
      if col % 2 == 1 {
        continue;
      }
      if base + col < Width {
        b' := b'[row := b'[row][base + col := Some(tok)]];
      }
    }
  }

  /** The number of squares of a row holding a token of `p`. */
  function RowCount(row: seq<Cell>, p: Player, x: nat): nat
    requires x <= |row|
    decreases |row| - x
  {
    if x == |row| then 0
    else (if row[x].Some? && row[x].value.player == p then 1 else 0) + RowCount(row, p, x + 1)
  }

  /** The number of tokens of `p` on rows `y` and above. */
  function TokenCount(b: Board, p: Player, y: nat): nat
    requires y <= Width
    decreases Width - y
  {
    if y == Width then 0 else RowCount(b[y], p, 0) + TokenCount(b, p, y + 1)
  }

  /** The rows where `p` starts: 0-2 for White, 5-7 for Black. */
  predicate HomeRow(p: Player, y: nat)
  {
    if p == White then y < 3 else y >= 5
  }

  /** An initial row from column `x` on holds every other square of a home
      row of `p`. */
  lemma {:induction false} InitialRowCount(b: Board, p: Player, y: nat, x: nat)
    requires forall y, x :: 0 <= y < Width && 0 <= x < Width ==> b[y][x] == InitialCell(x, y)
    requires y < Width && x <= Width
    ensures RowCount(b[y], p, x) ==
      if HomeRow(p, y) then (Width - x + (if (x + y) % 2 == 0 then 1 else 0)) / 2 else 0
    decreases Width - x
  {
    if x < Width {
      InitialRowCount(b, p, y, x + 1);
      assert (x + 1 + y) % 2 == 1 - (x + y) % 2;
    }
  }

  lemma {:induction false} InitialTokenCount(b: Board, p: Player, y: nat)
    requires forall y, x :: 0 <= y < Width && 0 <= x < Width ==> b[y][x] == InitialCell(x, y)
    requires y <= Width
    ensures TokenCount(b, p, y) ==
      if p == White then (if y < 3 then 4 * (3 - y) else 0)
      else (if y < 5 then 12 else 4 * (Width - y))
    decreases Width - y
  {
    if y < Width {
      InitialRowCount(b, p, y, 0);
      InitialTokenCount(b, p, y + 1);
    }
  }

  /** The initial position has 12 tokens of each side. */
  lemma InitialCounts(b: Board)
    requires forall y, x :: 0 <= y < Width && 0 <= x < Width ==> b[y][x] == InitialCell(x, y)
    ensures TokenCount(b, White, 0) == 12 && TokenCount(b, Black, 0) == 12
  {
    InitialTokenCount(b, White, 0);
    InitialTokenCount(b, Black, 0);
  }

  // ---------------------------------------------------------------------------
  // Moves without capture
  // ---------------------------------------------------------------------------

  /** The row direction an uncrowned token of `p` moves in. */
  function Forward(p: Player): int
  {
    if p == White then 1 else -1
  }

  /** The number of squares a walk from column `cx` in direction `dx` can
      still visit. */
  function WalkLeft(dx: int, cx: int): int
  {
    if dx == 1 then Width - cx else cx + 1
  }

  /** The non-capturing moves from `src` along direction `(dx, dy)`, from
      square `(cx, cy)` on: each empty square until the first occupied one or
      the edge, only the first one for an uncrowned token. */
  function SlideWalk(b: Board, src: Coords2D, crowned: bool, dx: int, dy: int, cx: int, cy: int): seq<Move>
    requires dx == -1 || dx == 1
    requires -1 <= cx <= Width
    decreases WalkLeft(dx, cx)
  {
    if !IsIn(cx, cy) then []
    else
      var dst := Coords2D(cx, cy);
      if At(b, dst) != None then []
      else [Move(src, dst, [])] + (if !crowned then [] else SlideWalk(b, src, crowned, dx, dy, cx + dx, cy + dy))
  }

  /** Direction `i` of a search from a square: `dx` is -1 for even `i`, `dy` is
      -1 for the first two. */
  function DirX(i: nat): int
  {
    if i == 0 || i == 2 then -1 else 1
  }

  function DirY(i: nat): int
  {
    if i < 2 then -1 else 1
  }

  /** The row direction of the first two directions searched from a token:
      up for an uncrowned White token, down otherwise. */
  function FirstDirY(t: Token): int
  {
    if t.player == White && !t.crowned then 1 else -1
  }

  /** The row direction of slide direction `i` of token `t`. */
  function SlideDirY(t: Token, i: nat): int
  {
    if i < 2 then FirstDirY(t) else -FirstDirY(t)
  }

  /** The non-capturing moves of the token on `src` along direction `i`. */
  function SlideDir(b: Board, src: Coords2D, i: nat): seq<Move>
    requires InBoard(src) && At(b, src).Some? && i < 4
  {
    var t := At(b, src).value;
    SlideWalk(b, src, t.crowned, DirX(i), SlideDirY(t, i), src.x + DirX(i), src.y + SlideDirY(t, i))
  }

  /** The non-capturing moves of the token on `src` along directions `i` to
      3: left then right with the first row direction, then, for a crowned
      token only, left then right with the other one. */
  function SlideDirections(b: Board, src: Coords2D, i: nat): seq<Move>
    requires InBoard(src) && At(b, src).Some? && i <= 4
    decreases 4 - i
  {
    var t := At(b, src).value;
    if i == 4 || (i == 2 && !t.crowned) then []
    else
      SlideDir(b, src, i) + SlideDirections(b, src, i + 1)
  }

  function Slides(b: Board, src: Coords2D): seq<Move>
    requires InBoard(src) && At(b, src).Some?
  {
    SlideDirections(b, src, 0)
  }

  // ---------------------------------------------------------------------------
  // Moves with captures
  // ---------------------------------------------------------------------------

  /** The squares of the board not yet captured; it shrinks with every jump,
      which bounds the depth of the capture search. */
  function Remaining(captured: seq<Coords2D>): set<Coords2D>
  {
    set x: nat, y: nat | x < Width && y < Width && Coords2D(x, y) !in captured :: Coords2D(x, y)
  }

  lemma RemainingShrinks(captured: seq<Coords2D>, cap: Coords2D)
    requires InBoard(cap) && cap !in captured
    ensures Remaining(captured + [cap]) < Remaining(captured)
  {
    assert cap == Coords2D(cap.x, cap.y);
    assert cap in Remaining(captured);
  }

  /** The moves found by part of a capture search, and whether it jumped at
      least once. */
  datatype Walked = Walked(moves: seq<Move>, jumped: bool)

  /** `possible_captures`: the capture chains of the token on `src`, now on
      `pos` after taking `captured`. The four directions are searched; a
      chain that cannot jump any further ends here and yields a move, unless
      it has not moved at all. */
  function Captures(b: Board, src: Coords2D, pos: Coords2D, captured: seq<Coords2D>): seq<Move>
    requires InBoard(src) && At(b, src).Some? && InBoard(pos)
    decreases Remaining(captured), 3
  {
    var w := Directions(b, src, pos, captured, 0);
    if !w.jumped && src != pos then w.moves + [Move(src, pos, captured)] else w.moves
  }

  /** The capture search along directions `i` to 3. */
  function Directions(b: Board, src: Coords2D, pos: Coords2D, captured: seq<Coords2D>, i: nat): Walked
    requires InBoard(src) && At(b, src).Some? && InBoard(pos) && i <= 4
    decreases Remaining(captured), 2, 4 - i
  {
    if i == 4 then Walked([], false)
    else
      var here := CaptureDir(b, src, pos, captured, i);
      var rest := Directions(b, src, pos, captured, i + 1);
      Walked(here.moves + rest.moves, here.jumped || rest.jumped)
  }

  /** The capture search along direction `i` from `pos`. */
  function CaptureDir(b: Board, src: Coords2D, pos: Coords2D, captured: seq<Coords2D>, i: nat): Walked
    requires InBoard(src) && At(b, src).Some? && InBoard(pos)
    decreases Remaining(captured), 1
  {
    CaptureWalk(b, src, pos, captured, DirX(i), DirY(i), pos.x + DirX(i), pos.y + DirY(i), None)
  }

  /** The capture search along one direction, from square `(cx, cy)` on,
      having passed over the token on `target` if there is one. Before a
      target: an own token or one already captured stops the walk, an enemy
      token becomes the target, and an empty square stops an uncrowned token.
      After the target: each empty square is a landing from which the search
      goes on (only the first for an uncrowned token), and an occupied square
      stops the walk. */
  function CaptureWalk(b: Board, src: Coords2D, pos: Coords2D, captured: seq<Coords2D>,
                       dx: int, dy: int, cx: int, cy: int, target: Option<Coords2D>): Walked
    requires InBoard(src) && At(b, src).Some? && InBoard(pos)
    requires dx == -1 || dx == 1
    requires -1 <= cx <= Width
    requires target.Some? ==> InBoard(target.value) && target.value !in captured
    decreases Remaining(captured), 0, WalkLeft(dx, cx)
  {
    if !IsIn(cx, cy) then Walked([], false)
    else
      var c := Coords2D(cx, cy);
      var t := At(b, src).value;
      match target
      case None =>
        (match At(b, c)
         case Some(tok) =>
           if tok.player == t.player || c in captured then Walked([], false)
           else CaptureWalk(b, src, pos, captured, dx, dy, cx + dx, cy + dy, Some(c))
         case None =>
           if !t.crowned then Walked([], false)
           else CaptureWalk(b, src, pos, captured, dx, dy, cx + dx, cy + dy, None))
      case Some(cap) =>
        match At(b, c)
        case None =>
          RemainingShrinks(captured, cap);
          var sub := Captures(b, src, c, captured + [cap]);
          if !t.crowned then Walked(sub, true)
          else Walked(sub + CaptureWalk(b, src, pos, captured, dx, dy, cx + dx, cy + dy, target).moves, true)
        case Some(_) => Walked([], false)
  }

  /** `possible_moves_from`: the moves without capture, then the capture
      chains. */
  function MovesFrom(b: Board, src: Coords2D): seq<Move>
    requires InBoard(src) && At(b, src).Some?
  {
    Slides(b, src) + Captures(b, src, src, [])
  }

  // ---------------------------------------------------------------------------
  // All moves of a side
  // ---------------------------------------------------------------------------

  /** The moves of the tokens of `p` from square `(x, y)` on, in row-major
      order: the rest of row `y`, then the rows above it. */
  function GenerateFrom(b: Board, p: Player, y: nat, x: nat): seq<Move>
    requires y <= Width && x <= Width
    decreases Width - y, Width - x
  {
    if y == Width then []
    else if x == Width then GenerateFrom(b, p, y + 1, 0)
    else SquareMoves(b, p, Coords2D(x, y)) + GenerateFrom(b, p, y, x + 1)
  }

  /** The moves of the token on `c` if it is one of `p`'s. */
  function SquareMoves(b: Board, p: Player, c: Coords2D): seq<Move>
    requires InBoard(c)
  {
    if At(b, c).Some? && At(b, c).value.player == p then MovesFrom(b, c) else []
  }

  function Max(a: nat, b: nat): nat
  {
    if a < b then b else a
  }

  /** The largest number of captures among `ms`, 0 for none. */
  function MaxCaptured(ms: seq<Move>): nat
  {
    if ms == [] then 0 else Max(MaxCaptured(ms[..|ms| - 1]), |ms[|ms| - 1].captured|)
  }

  /** The moves of `ms` with exactly `n` captures, in order. */
  function WithCaptures(ms: seq<Move>, n: nat): seq<Move>
  {
    if ms == [] then []
    else WithCaptures(ms[..|ms| - 1], n) + (if |ms[|ms| - 1].captured| == n then [ms[|ms| - 1]] else [])
  }

  /** The maximum-capture rule applied to a list of moves. */
  function KeepMost(ms: seq<Move>): seq<Move>
  {
    WithCaptures(ms, MaxCaptured(ms))
  }

  /** The legal moves of `p`: none once the draw cutoff is reached, otherwise
      the moves of all tokens of `p` that capture the most. */
  function Moves(gm: Game, p: Player): seq<Move>
  {
    if gm.crownedMovesWithoutCapture >= DrawCutoff then [] else KeepMost(GenerateFrom(gm.board, p, 0, 0))
  }

  /** `winner`, only defined once a side cannot move: no one when neither side
      can move, otherwise the side that still can. */
  function Winner(gm: Game): Option<Player>
    requires Moves(gm, White) == [] || Moves(gm, Black) == []
  {
    if Moves(gm, White) == [] && Moves(gm, Black) == [] then None
    else if Moves(gm, White) == [] then Some(Black)
    else Some(White)
  }

  // ---------------------------------------------------------------------------
  // Playing a move
  // ---------------------------------------------------------------------------

  /** The last row of `p`, where its tokens are crowned. */
  predicate CrownRow(p: Player, c: Coords2D)
  {
    (p == White && c.y == Width - 1) || (p == Black && c.y == 0)
  }

  /** What `play` needs not to panic: squares on the board, a token on `src`,
      and, when `dst` is on the crown row, a token on `dst` after the move. */
  predicate PlayDefined(gm: Game, p: Player, m: Move)
  {
    && InBoard(m.src) && InBoard(m.dst)
    && (forall c :: c in m.captured ==> InBoard(c))
    && At(gm.board, m.src).Some?
    && (CrownRow(p, m.dst) ==> m.dst != m.src && m.dst !in m.captured)
  }

  /** Empties the squares of `cs`, one after the other. */
  function ClearAll(b: Board, cs: seq<Coords2D>): (b': Board)
    requires forall c :: c in cs ==> InBoard(c)
    ensures forall c :: InBoard(c) ==> At(b', c) == if c in cs then None else At(b, c)
    decreases |cs|
  {
    if cs == [] then b else ClearAll(Set(b, cs[0], None), cs[1..])
  }

  /** `play`. */
  function Play(gm: Game, p: Player, m: Move): Game
    requires PlayDefined(gm, p, m)
  {
    var t := At(gm.board, m.src).value;
    var counter := if t.crowned && m.captured == [] then gm.crownedMovesWithoutCapture + 1 else 0;
    var b1 := Set(gm.board, m.dst, Some(t));
    var b2 := Set(b1, m.src, None);
    var b3 := ClearAll(b2, m.captured);
    var b4 := if CrownRow(p, m.dst) && !At(b3, m.dst).value.crowned
              then Set(b3, m.dst, Some(At(b3, m.dst).value.(crowned := true)))
              else b3;
    Game(b4, counter)
  }

  /** The moving token ends on `dst`, crowned on `p`'s last row; `src` and the
      captured squares are emptied; every other square keeps its content. */
  lemma PlayEffect(gm: Game, p: Player, m: Move, c: Coords2D)
    requires PlayDefined(gm, p, m) && InBoard(c)
    ensures At(Play(gm, p, m).board, c) ==
      if c in m.captured || c == m.src then None
      else if c == m.dst then
        Some(At(gm.board, m.src).value.(crowned := At(gm.board, m.src).value.crowned || CrownRow(p, m.dst)))
      else At(gm.board, c)
  {
  }

  /** The counter of crowned moves without capture goes up by one exactly
      when a crowned token moves without capturing, and is reset otherwise. */
  lemma PlayCounter(gm: Game, p: Player, m: Move)
    requires PlayDefined(gm, p, m)
    ensures At(gm.board, m.src).value.crowned && m.captured == [] ==>
      Play(gm, p, m).crownedMovesWithoutCapture == gm.crownedMovesWithoutCapture + 1
    ensures !(At(gm.board, m.src).value.crowned && m.captured == []) ==>
      Play(gm, p, m).crownedMovesWithoutCapture == 0
  {
  }

  // ---------------------------------------------------------------------------
  // Shape of the generated moves
  // ---------------------------------------------------------------------------

  /** The squares of a capture chain are on the board, hold tokens of the
      opponent of `p` (never `p`'s own), and are all different (no token is
      jumped twice). */
  ghost predicate Chain(b: Board, p: Player, cs: seq<Coords2D>)
  {
    && (forall i :: 0 <= i < |cs| ==> InBoard(cs[i]) && At(b, cs[i]).Some? && At(b, cs[i]).value.player != p)
    && (forall i, j :: 0 <= i < j < |cs| ==> cs[i] != cs[j])
  }

  /** A generated move of `p`: it starts on a token of `p`, ends on an empty
      square of the board, captures along a chain, and, for an uncrowned
      token that captures nothing, is one diagonal step forward. */
  ghost predicate WellFormed(b: Board, p: Player, m: Move)
  {
    && InBoard(m.src) && At(b, m.src).Some? && At(b, m.src).value.player == p
    && InBoard(m.dst) && At(b, m.dst) == None
    && Chain(b, p, m.captured)
    && (m.captured == [] && !At(b, m.src).value.crowned ==>
          m.dst.y as int == m.src.y as int + Forward(p)
          && (m.dst.x as int == m.src.x as int - 1 || m.dst.x == m.src.x + 1))
  }

  /** A slide starts on `src`, captures nothing and ends on an empty square
      of the board. */
  lemma {:induction false} SlideWalkShape(b: Board, src: Coords2D, crowned: bool, dx: int, dy: int, cx: int, cy: int, m: Move)
    requires dx == -1 || dx == 1
    requires -1 <= cx <= Width
    requires m in SlideWalk(b, src, crowned, dx, dy, cx, cy)
    ensures m.src == src && m.captured == [] && InBoard(m.dst) && At(b, m.dst) == None
    decreases WalkLeft(dx, cx)
  {
    if IsIn(cx, cy) {
      var dst := Coords2D(cx, cy);
      if At(b, dst) == None && m != Move(src, dst, []) {
        var rest := if !crowned then [] else SlideWalk(b, src, crowned, dx, dy, cx + dx, cy + dy);
        assert m in [Move(src, dst, [])] + rest;
        assert m in rest;
        SlideWalkShape(b, src, crowned, dx, dy, cx + dx, cy + dy, m);
      }
    }
  }

  /** An uncrowned token slides to the first square of the walk only. */
  lemma SlideWalkStep(b: Board, src: Coords2D, dx: int, dy: int, cx: int, cy: int, m: Move)
    requires dx == -1 || dx == 1
    requires -1 <= cx <= Width
    requires m in SlideWalk(b, src, false, dx, dy, cx, cy)
    ensures m.dst.x == cx && m.dst.y == cy
  {
  }

  /** The moves along slide direction `i` have the shape of a slide. */
  lemma SlideDirectionShape(b: Board, src: Coords2D, i: nat, m: Move)
    requires InBoard(src) && At(b, src).Some? && i < 4
    requires !At(b, src).value.crowned ==> i < 2
    requires m in SlideDir(b, src, i)
    ensures m.src == src && m.captured == [] && InBoard(m.dst) && At(b, m.dst) == None
    ensures !At(b, src).value.crowned ==>
      m.dst.y as int == src.y as int + Forward(At(b, src).value.player)
      && (m.dst.x as int == src.x as int - 1 || m.dst.x == src.x + 1)
  {
    var t := At(b, src).value;
    var dx, dy := DirX(i), SlideDirY(t, i);
    SlideWalkShape(b, src, t.crowned, dx, dy, src.x + dx, src.y + dy, m);
    if !t.crowned {
      SlideWalkStep(b, src, dx, dy, src.x + dx, src.y + dy, m);
    }
  }

  lemma {:induction false} SlideDirectionsShape(b: Board, src: Coords2D, i: nat, m: Move)
    requires InBoard(src) && At(b, src).Some? && i <= 4
    requires !At(b, src).value.crowned ==> i <= 2
    requires m in SlideDirections(b, src, i)
    ensures m.src == src && m.captured == [] && InBoard(m.dst) && At(b, m.dst) == None
    ensures !At(b, src).value.crowned ==>
      m.dst.y as int == src.y as int + Forward(At(b, src).value.player)
      && (m.dst.x as int == src.x as int - 1 || m.dst.x == src.x + 1)
    decreases 4 - i
  {
    var t := At(b, src).value;
    if i < 4 && (i < 2 || t.crowned) {
      if m in SlideDir(b, src, i) {
        SlideDirectionShape(b, src, i, m);
      } else {
        SlideDirectionsShape(b, src, i + 1, m);
      }
    }
  }

  /** Moves without capture go to empty squares; an uncrowned token steps
      one square diagonally forward. */
  lemma SlidesShape(b: Board, src: Coords2D, m: Move)
    requires InBoard(src) && At(b, src).Some? && m in Slides(b, src)
    ensures m.src == src && m.captured == [] && InBoard(m.dst) && At(b, m.dst) == None
    ensures !At(b, src).value.crowned ==>
      m.dst.y as int == src.y as int + Forward(At(b, src).value.player)
      && (m.dst.x as int == src.x as int - 1 || m.dst.x == src.x + 1)
  {
    SlideDirectionsShape(b, src, 0, m);
  }

  /** A capture move found by the search from `src`. */
  ghost predicate CaptureMove(b: Board, src: Coords2D, m: Move)
    requires InBoard(src) && At(b, src).Some?
  {
    m.src == src && InBoard(m.dst) && At(b, m.dst) == None && m.captured != []
    && Chain(b, At(b, src).value.player, m.captured)
  }

  /** A state of the capture search: the chain so far is valid, and a search
      that has left `src` stands on an empty square after at least one
      capture. */
  ghost predicate SearchState(b: Board, src: Coords2D, pos: Coords2D, captured: seq<Coords2D>)
  {
    && InBoard(src) && At(b, src).Some? && InBoard(pos)
    && Chain(b, At(b, src).value.player, captured)
    && (pos != src ==> captured != [] && At(b, pos) == None)
  }

  lemma {:induction false} CapturesShape(b: Board, src: Coords2D, pos: Coords2D, captured: seq<Coords2D>, m: Move)
    requires SearchState(b, src, pos, captured)
    requires m in Captures(b, src, pos, captured)
    ensures CaptureMove(b, src, m)
    decreases Remaining(captured), 3
  {
    var w := Directions(b, src, pos, captured, 0);
    if m in w.moves {
      DirectionsShape(b, src, pos, captured, 0, m);
    }
  }

  lemma {:induction false} DirectionsShape(b: Board, src: Coords2D, pos: Coords2D, captured: seq<Coords2D>, i: nat, m: Move)
    requires SearchState(b, src, pos, captured) && i <= 4
    requires m in Directions(b, src, pos, captured, i).moves
    ensures CaptureMove(b, src, m)
    decreases Remaining(captured), 2, 4 - i
  {
    if m in CaptureDir(b, src, pos, captured, i).moves {
      WalkShape(b, src, pos, captured, DirX(i), DirY(i), pos.x + DirX(i), pos.y + DirY(i), None, m);
    } else {
      DirectionsShape(b, src, pos, captured, i + 1, m);
    }
  }

  lemma {:induction false} WalkShape(b: Board, src: Coords2D, pos: Coords2D, captured: seq<Coords2D>,
                                     dx: int, dy: int, cx: int, cy: int, target: Option<Coords2D>, m: Move)
    requires SearchState(b, src, pos, captured)
    requires dx == -1 || dx == 1
    requires -1 <= cx <= Width
    requires target.Some? ==> InBoard(target.value) && target.value !in captured
    requires target.Some? ==> At(b, target.value).Some? && At(b, target.value).value.player != At(b, src).value.player
    requires m in CaptureWalk(b, src, pos, captured, dx, dy, cx, cy, target).moves
    ensures CaptureMove(b, src, m)
    decreases Remaining(captured), 0, WalkLeft(dx, cx)
  {
    var c := Coords2D(cx, cy);
    var t := At(b, src).value;
    match target
    case None =>
      if At(b, c).Some? {
        WalkShape(b, src, pos, captured, dx, dy, cx + dx, cy + dy, Some(c), m);
      } else {
        WalkShape(b, src, pos, captured, dx, dy, cx + dx, cy + dy, None, m);
      }
    case Some(cap) =>
      RemainingShrinks(captured, cap);
      var sub := Captures(b, src, c, captured + [cap]);
      if m in sub {
        CapturesShape(b, src, c, captured + [cap], m);
      } else {
        WalkShape(b, src, pos, captured, dx, dy, cx + dx, cy + dy, target, m);
      }
  }

  lemma MovesFromShape(b: Board, src: Coords2D, m: Move)
    requires InBoard(src) && At(b, src).Some? && m in MovesFrom(b, src)
    ensures WellFormed(b, At(b, src).value.player, m)
  {
    if m in Slides(b, src) {
      SlidesShape(b, src, m);
    } else {
      CapturesShape(b, src, src, [], m);
    }
  }

  lemma SquareMovesShape(b: Board, p: Player, c: Coords2D, m: Move)
    requires InBoard(c) && m in SquareMoves(b, p, c)
    ensures WellFormed(b, p, m)
  {
    MovesFromShape(b, c, m);
  }

  /** Each generated move comes from the moves of one square. */
  lemma {:induction false} GenerateFromSquare(b: Board, p: Player, y: nat, x: nat, m: Move) returns (c: Coords2D)
    requires y <= Width && x <= Width && m in GenerateFrom(b, p, y, x)
    ensures InBoard(c) && m in SquareMoves(b, p, c)
    decreases Width - y, Width - x
  {
    if y == Width {
    } else if x == Width {
      c := GenerateFromSquare(b, p, y + 1, 0, m);
    } else if m in SquareMoves(b, p, Coords2D(x, y)) {
      c := Coords2D(x, y);
    } else {
      c := GenerateFromSquare(b, p, y, x + 1, m);
    }
  }

  lemma GenerateFromShape(b: Board, p: Player, m: Move)
    requires m in GenerateFrom(b, p, 0, 0)
    ensures WellFormed(b, p, m)
  {
    var c := GenerateFromSquare(b, p, 0, 0, m);
    SquareMovesShape(b, p, c, m);
  }



  // ---------------------------------------------------------------------------
  // The maximum-capture rule
  // ---------------------------------------------------------------------------

  /** `MaxCaptured` bounds every capture count and is reached by some move. */
  lemma {:induction false} MaxCapturedSpec(ms: seq<Move>)
    ensures forall m :: m in ms ==> |m.captured| <= MaxCaptured(ms)
    ensures ms != [] ==> exists m :: m in ms && |m.captured| == MaxCaptured(ms)
  {
    if ms != [] {
      var init, last := ms[..|ms| - 1], ms[|ms| - 1];
      MaxCapturedSpec(init);
      assert ms == init + [last];
      if init != [] && MaxCaptured(init) >= |last.captured| {
        var m :| m in init && |m.captured| == MaxCaptured(init);
        assert m in ms;
      }
    }
  }

  /** `retain` keeps exactly the moves with `n` captures. */
  lemma {:induction false} WithCapturesSpec(ms: seq<Move>, n: nat)
    ensures forall m :: m in WithCaptures(ms, n) <==> m in ms && |m.captured| == n
  {
    if ms != [] {
      WithCapturesSpec(ms[..|ms| - 1], n);
      assert ms == ms[..|ms| - 1] + [ms[|ms| - 1]];
    }
  }

  /** Only moves capturing the most are legal, every such move is, and a
      side has legal moves exactly when the cutoff is not reached and one of
      its tokens can move. */
  lemma MaxCaptureRule(gm: Game, p: Player)
    ensures gm.crownedMovesWithoutCapture >= DrawCutoff ==> Moves(gm, p) == []
    ensures forall m, m' :: m in Moves(gm, p) && m' in GenerateFrom(gm.board, p, 0, 0) ==>
      |m'.captured| <= |m.captured|
    ensures gm.crownedMovesWithoutCapture < DrawCutoff ==>
      forall m :: m in Moves(gm, p) <==>
        m in GenerateFrom(gm.board, p, 0, 0) && |m.captured| == MaxCaptured(GenerateFrom(gm.board, p, 0, 0))
    ensures gm.crownedMovesWithoutCapture < DrawCutoff ==>
      (Moves(gm, p) == [] <==> GenerateFrom(gm.board, p, 0, 0) == [])
  {
    var ms := GenerateFrom(gm.board, p, 0, 0);
    MaxCapturedSpec(ms);
    WithCapturesSpec(ms, MaxCaptured(ms));
    if gm.crownedMovesWithoutCapture < DrawCutoff && ms != [] {
      var m :| m in ms && |m.captured| == MaxCaptured(ms);
      assert m in Moves(gm, p);
    }
  }

  /** Every legal move is well formed, and may therefore be played. */
  lemma MovesShape(gm: Game, p: Player, m: Move)
    requires m in Moves(gm, p)
    ensures WellFormed(gm.board, p, m)
    ensures PlayDefined(gm, p, m)
  {
    var ms := GenerateFrom(gm.board, p, 0, 0);
    WithCapturesSpec(ms, MaxCaptured(ms));
    GenerateFromShape(gm.board, p, m);
  }

  /** The winner is the only side left with moves, and no one when both are
      stuck, which is the case once the draw cutoff is reached. */
  lemma WinnerSpec(gm: Game)
    requires Moves(gm, White) == [] || Moves(gm, Black) == []
    ensures Winner(gm) == None <==> Moves(gm, White) == [] && Moves(gm, Black) == []
    ensures forall q: Player :: Winner(gm) == Some(q) <==> Moves(gm, q) != [] && Moves(gm, q.Opponent()) == []
    ensures gm.crownedMovesWithoutCapture >= DrawCutoff ==> Winner(gm) == None
  {
  }

  // ---------------------------------------------------------------------------
  // The generators as the program runs them
  // ---------------------------------------------------------------------------

  /** One direction of `possible_moves_from`: the walk from the square next
      to `src` along `(dx, dy)`, appending a move for each empty square (only
      the first one for an uncrowned token). */
  method SlideDirection(b: Board, src: Coords2D, crowned: bool, dx: int, dy: int, moves: seq<Move>) returns (out: seq<Move>)
    requires InBoard(src)
    requires dx == -1 || dx == 1
    ensures out == moves + SlideWalk(b, src, crowned, dx, dy, src.x + dx, src.y + dy)
  {
    ghost var walk := SlideWalk(b, src, crowned, dx, dy, src.x + dx, src.y + dy);
    out := moves;
    var cx, cy := src.x + dx, src.y + dy;
    while IsIn(cx, cy)
      invariant -1 <= cx <= Width
      invariant out + SlideWalk(b, src, crowned, dx, dy, cx, cy) == moves + walk
      decreases WalkLeft(dx, cx)
    {
      var dst := Coords2D(cx, cy);
      ghost var before := out;
      ghost var rest := if crowned then SlideWalk(b, src, crowned, dx, dy, cx + dx, cy + dy) else [];
      if At(b, dst) == None {
        out := out + [Move(src, dst, [])];
        Associative(before, [Move(src, dst, [])], rest);
      } else {
        break;
      }
      if !crowned {
        break;
      }
      cx, cy := cx + dx, cy + dy;
    }
  }

  /** `possible_moves_from`: the directions without capture (the second row
      direction for a crowned token only), then the capture search from
      `src`, appending to `moves`. */
  method PossibleMovesFrom(b: Board, src: Coords2D, moves: seq<Move>) returns (out: seq<Move>)
    requires InBoard(src) && At(b, src).Some?
    ensures out == moves + MovesFrom(b, src)
  {
    var t := At(b, src).value;
    out := moves;
    var dy := FirstDirY(t);
    for a := 0 to 2
      invariant a < 2 ==> dy == SlideDirY(t, 2 * a)
      invariant t.crowned || a == 0
      invariant out + SlideDirections(b, src, 2 * a) == moves + Slides(b, src)
    {
      out := SlidePair(b, src, a, dy, out);
      if !t.crowned {
        break;
      }
      dy := -dy;
    }
    ghost var slid := out;
    out := PossibleCaptures(b, src, src, [], out);
    assert slid == moves + Slides(b, src);
    Associative(moves, Slides(b, src), Captures(b, src, src, []));
  }

  /** The inner loop of `possible_moves_from`: both column directions along
      row direction `dy`, the `a`-th one tried. */
  method SlidePair(b: Board, src: Coords2D, a: nat, dy: int, moves: seq<Move>) returns (out: seq<Move>)
    requires InBoard(src) && At(b, src).Some? && a < 2
    requires At(b, src).value.crowned || a == 0
    requires dy == SlideDirY(At(b, src).value, 2 * a)
    ensures out + SlideDirections(b, src, 2 * a + 2) == moves + SlideDirections(b, src, 2 * a)
  {
    out := moves;
    var dx := -1;
    for c := 0 to 2
      invariant c < 2 ==> dx == DirX(2 * a + c)
      invariant out + SlideDirections(b, src, 2 * a + c) == moves + SlideDirections(b, src, 2 * a)
    {
      out := SlideStep(b, src, 2 * a + c, dx, dy, out);
      dx := -dx;
    }
  }

  /** One direction of `possible_moves_from`: the slides along direction `i`
      are appended to `moves`. */
  method SlideStep(b: Board, src: Coords2D, i: nat, dx: int, dy: int, moves: seq<Move>) returns (out: seq<Move>)
    requires InBoard(src) && At(b, src).Some? && i < 4
    requires At(b, src).value.crowned || i < 2
    requires dx == DirX(i) && dy == SlideDirY(At(b, src).value, i)
    ensures out + SlideDirections(b, src, i + 1) == moves + SlideDirections(b, src, i)
  {
    var crowned := At(b, src).value.crowned;
    ghost var here := SlideDir(b, src, i);
    assert here == SlideWalk(b, src, crowned, dx, dy, src.x + dx, src.y + dy);
    out := SlideDirection(b, src, crowned, dx, dy, moves);
    Associative(moves, here, SlideDirections(b, src, i + 1));
  }

  /** `possible_captures`: the capture search from `pos` after taking
      `captured`, appending the chains it finds to `moves`; the search ends
      here with a move if no direction allowed a jump and the token has
      moved. */
  method PossibleCaptures(b: Board, src: Coords2D, pos: Coords2D, captured: seq<Coords2D>, moves: seq<Move>)
    returns (out: seq<Move>)
    requires InBoard(src) && At(b, src).Some? && InBoard(pos)
    ensures out == moves + Captures(b, src, pos, captured)
    decreases Remaining(captured), 3
  {
    ghost var all := Directions(b, src, pos, captured, 0);
    out := moves;
    var done := true;
    var dy := -1;
    for a := 0 to 2
      invariant a < 2 ==> dy == DirY(2 * a)
      invariant out + Directions(b, src, pos, captured, 2 * a).moves == moves + all.moves
      invariant all.jumped == (!done || Directions(b, src, pos, captured, 2 * a).jumped)
    {
      out, done := CapturePair(b, src, pos, captured, a, dy, out, done);
      dy := -dy;
    }
    if done && src != pos {
      Associative(moves, all.moves, [Move(src, pos, captured)]);
      out := out + [Move(src, pos, captured)];
    }
  }

  /** The inner loop of `possible_captures`: both column directions along
      row direction `dy`, the `a`-th one tried. */
  method CapturePair(b: Board, src: Coords2D, pos: Coords2D, captured: seq<Coords2D>,
                     a: nat, dy: int, moves: seq<Move>, done: bool)
    returns (out: seq<Move>, done': bool)
    requires InBoard(src) && At(b, src).Some? && InBoard(pos)
    requires a < 2 && dy == DirY(2 * a)
    ensures out + Directions(b, src, pos, captured, 2 * a + 2).moves
         == moves + Directions(b, src, pos, captured, 2 * a).moves
    ensures (!done' || Directions(b, src, pos, captured, 2 * a + 2).jumped)
         == (!done || Directions(b, src, pos, captured, 2 * a).jumped)
    decreases Remaining(captured), 2
  {
    out, done' := moves, done;
    var dx := -1;
    for c := 0 to 2
      invariant c < 2 ==> dx == DirX(2 * a + c)
      invariant out + Directions(b, src, pos, captured, 2 * a + c).moves
             == moves + Directions(b, src, pos, captured, 2 * a).moves
      invariant (!done' || Directions(b, src, pos, captured, 2 * a + c).jumped)
             == (!done || Directions(b, src, pos, captured, 2 * a).jumped)
    {
      out, done' := CaptureStep(b, src, pos, captured, 2 * a + c, dx, dy, out, done');
      dx := -dx;
    }
  }

  /** One direction of `possible_captures`: the chains found along direction
      `i` are appended to `moves`, and `done` is cleared if it jumped. */
  method CaptureStep(b: Board, src: Coords2D, pos: Coords2D, captured: seq<Coords2D>,
                     i: nat, dx: int, dy: int, moves: seq<Move>, done: bool)
    returns (out: seq<Move>, done': bool)
    requires InBoard(src) && At(b, src).Some? && InBoard(pos)
    requires i < 4 && dx == DirX(i) && dy == DirY(i)
    ensures out + Directions(b, src, pos, captured, i + 1).moves
         == moves + Directions(b, src, pos, captured, i).moves
    ensures (!done' || Directions(b, src, pos, captured, i + 1).jumped)
         == (!done || Directions(b, src, pos, captured, i).jumped)
    decreases Remaining(captured), 1
  {
    ghost var here := CaptureDir(b, src, pos, captured, i);
    assert here == CaptureWalk(b, src, pos, captured, dx, dy, pos.x + dx, pos.y + dy, None);
    out, done' := CaptureDirection(b, src, pos, captured, dx, dy, moves, done);
    Associative(moves, here.moves, Directions(b, src, pos, captured, i + 1).moves);
  }

  /** One direction of `possible_captures`: the walk from the square next to
      `pos` along `(dx, dy)`; `done` is cleared when a jump is found. */
  method CaptureDirection(b: Board, src: Coords2D, pos: Coords2D, captured: seq<Coords2D>,
                          dx: int, dy: int, moves: seq<Move>, done: bool)
    returns (out: seq<Move>, done': bool)
    requires InBoard(src) && At(b, src).Some? && InBoard(pos)
    requires dx == -1 || dx == 1
    ensures out == moves + CaptureWalk(b, src, pos, captured, dx, dy, pos.x + dx, pos.y + dy, None).moves
    ensures done' == (done && !CaptureWalk(b, src, pos, captured, dx, dy, pos.x + dx, pos.y + dy, None).jumped)
    decreases Remaining(captured), 0
  {
    ghost var walk := CaptureWalk(b, src, pos, captured, dx, dy, pos.x + dx, pos.y + dy, None);
    var t := At(b, src).value;
    out, done' := moves, done;
    var cx, cy := pos.x + dx, pos.y + dy;
    var target: Option<Coords2D> := None;
    while IsIn(cx, cy)
      invariant -1 <= cx <= Width
      invariant target.Some? ==> InBoard(target.value) && target.value !in captured
      invariant out + CaptureWalk(b, src, pos, captured, dx, dy, cx, cy, target).moves == moves + walk.moves
      invariant (done && !walk.jumped) == (done' && !CaptureWalk(b, src, pos, captured, dx, dy, cx, cy, target).jumped)
      decreases WalkLeft(dx, cx)
    {
      var sq := Coords2D(cx, cy);
      match target {
        case None =>
          match At(b, sq) {
            case Some(tok) =>
              if tok.player == t.player || sq in captured {
                break;
              }
              target := Some(sq);
            case None =>
              if !t.crowned {
                break;
              }
          }
        case Some(cap) =>
          match At(b, sq) {
            case None =>
              RemainingShrinks(captured, cap);
              ghost var before := out;
              ghost var sub := Captures(b, src, sq, captured + [cap]);
              ghost var rest := if t.crowned then CaptureWalk(b, src, pos, captured, dx, dy, cx + dx, cy + dy, target).moves else [];
              out := PossibleCaptures(b, src, sq, captured + [cap], out);
              Associative(before, sub, rest);
              done' := false;
              if !t.crowned {
                break;
              }
            case Some(_) =>
              break;
          }
      }
      cx, cy := cx + dx, cy + dy;
    }
  }

  /** The two nested loops of `possible_moves_in` over the squares, in
      row-major order, appending the moves of each token of `p`. */
  method CollectMoves(b: Board, p: Player, moves: seq<Move>) returns (out: seq<Move>)
    ensures out == moves + GenerateFrom(b, p, 0, 0)
  {
    out := moves;
    for y := 0 to Width
      invariant out + GenerateFrom(b, p, y, 0) == moves + GenerateFrom(b, p, 0, 0)
    {
      out := CollectRow(b, p, y, out);
    }
  }

  /** The inner loop, over the squares of row `y`. */
  method CollectRow(b: Board, p: Player, y: nat, moves: seq<Move>) returns (out: seq<Move>)
    requires y < Width
    ensures out + GenerateFrom(b, p, y + 1, 0) == moves + GenerateFrom(b, p, y, 0)
  {
    out := moves;
    for x := 0 to Width
      invariant out + GenerateFrom(b, p, y, x) == moves + GenerateFrom(b, p, y, 0)
    {
      out := SquareMovesInto(b, p, y, x, out);
    }
  }

  /** The body of those loops for square `(x, y)`: its moves, when it holds
      a token of `p`, are appended, which is one step of the walk. */
  method SquareMovesInto(b: Board, p: Player, y: nat, x: nat, moves: seq<Move>) returns (out: seq<Move>)
    requires y < Width && x < Width
    ensures out == moves + SquareMoves(b, p, Coords2D(x, y))
    ensures out + GenerateFrom(b, p, y, x + 1) == moves + GenerateFrom(b, p, y, x)
  {
    out := moves;
    match b[y][x] {
      case Some(tok) =>
        if tok.player == p {
          out := PossibleMovesFrom(b, Coords2D(x, y), out);
        }
      case None =>
    }
    Associative(moves, SquareMoves(b, p, Coords2D(x, y)), GenerateFrom(b, p, y, x + 1));
  }

  /** The `fold` of `possible_moves_in`: the largest capture count. */
  method MaxCapturesOf(ms: seq<Move>) returns (n: nat)
    ensures n == MaxCaptured(ms)
  {
    n := 0;
    for i := 0 to |ms|
      invariant n == MaxCaptured(ms[..i])
    {
      assert ms[..i + 1][..i] == ms[..i];
      n := Max(n, |ms[i].captured|);
    }
    assert ms[..|ms|] == ms;
  }

  /** The `retain` of `possible_moves_in`: the moves with `n` captures. */
  method Retain(ms: seq<Move>, n: nat) returns (kept: seq<Move>)
    ensures kept == WithCaptures(ms, n)
  {
    kept := [];
    for i := 0 to |ms|
      invariant kept == WithCaptures(ms[..i], n)
    {
      assert ms[..i + 1][..i] == ms[..i];
      if |ms[i].captured| == n {
        kept := kept + [ms[i]];
      }
    }
    assert ms[..|ms|] == ms;
  }

  /** `possible_moves_in`: nothing once the draw cutoff is reached; otherwise
      the moves of every token of `p` in row-major order are appended, and
      then only the moves of the whole list with the largest number of
      captures are kept. */
  method PossibleMovesIn(gm: Game, p: Player, moves: seq<Move>) returns (out: seq<Move>)
    ensures out == if gm.crownedMovesWithoutCapture >= DrawCutoff then moves
                   else KeepMost(moves + GenerateFrom(gm.board, p, 0, 0))
  {
    out := moves;
    if gm.crownedMovesWithoutCapture >= DrawCutoff {
      return;
    }
    out := CollectMoves(gm.board, p, out);
    var maxCaptures := MaxCapturesOf(out);
    out := Retain(out, maxCaptures);
  }

  /** The moves the engine asks for are those `possible_moves_in` appends to
      an empty list. */
  lemma MovesFromEmptyList(gm: Game, p: Player)
    ensures Moves(gm, p) == if gm.crownedMovesWithoutCapture >= DrawCutoff then []
                            else KeepMost([] + GenerateFrom(gm.board, p, 0, 0))
  {
    assert [] + GenerateFrom(gm.board, p, 0, 0) == GenerateFrom(gm.board, p, 0, 0);
  }

  /** `play` as the program runs it: counter, move, captures, crowning. */
  method PlayMove(gm: Game, p: Player, m: Move) returns (gm': Game)
    requires PlayDefined(gm, p, m)
    ensures gm' == Play(gm, p, m)
  {
    var counter: nat;
    if At(gm.board, m.src).value.crowned && m.captured == [] {
      counter := gm.crownedMovesWithoutCapture + 1;
    } else {
      counter := 0;
    }
    var b := Set(gm.board, m.dst, At(gm.board, m.src));
    b := Set(b, m.src, None);
    ghost var moved := b;
    for i := 0 to |m.captured|
      invariant ClearAll(b, m.captured[i..]) == ClearAll(moved, m.captured)
    {
      assert m.captured[i..][1..] == m.captured[i + 1..];
      b := Set(b, m.captured[i], None);
    }
    assert m.captured[|m.captured|..] == [];
    if CrownRow(p, m.dst) && !At(b, m.dst).value.crowned {
      b := Set(b, m.dst, Some(At(b, m.dst).value.(crowned := true)));
    }
    gm' := Game(b, counter);
  }
}
