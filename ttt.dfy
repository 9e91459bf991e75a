/** Tic-tac-toe: a 3x3 grid indexed `[y][x]`, three in a line wins. */
module TicTacToe {
  import opened Players
  import opened Utils
  import Mcts
  import Seqs

  const Width: nat := 3

  /** A cell holds the token of a player, or nothing. */
  type Cell = Option<Player>

  type Board = b: seq<seq<Cell>> | |b| == Width && forall y :: 0 <= y < Width ==> |b[y]| == Width
    witness [[None, None, None], [None, None, None], [None, None, None]]

  predicate InBoard(c: Coords2D)
  {
    c.x < Width && c.y < Width
  }

  /** Row-major rank of a square: rows first, then columns. */
  function Rank(c: Coords2D): nat
  {
    3 * c.y + c.x
  }

  /** `Board::new`: nine empty cells. */
  function New(): (b: Board)
    ensures forall y, x :: 0 <= y < Width && 0 <= x < Width ==> b[y][x] == None
  {
    [[None, None, None], [None, None, None], [None, None, None]]
  }

  /** The eight winning lines, in the order the winner test tries them: the
      three rows, the three columns, then the two diagonals. */
  const Lines: seq<seq<Coords2D>> := [
    [Coords2D(0, 0), Coords2D(1, 0), Coords2D(2, 0)],
    [Coords2D(0, 1), Coords2D(1, 1), Coords2D(2, 1)],
    [Coords2D(0, 2), Coords2D(1, 2), Coords2D(2, 2)],
    [Coords2D(0, 0), Coords2D(0, 1), Coords2D(0, 2)],
    [Coords2D(1, 0), Coords2D(1, 1), Coords2D(1, 2)],
    [Coords2D(2, 0), Coords2D(2, 1), Coords2D(2, 2)],
    [Coords2D(0, 0), Coords2D(1, 1), Coords2D(2, 2)],
    [Coords2D(0, 2), Coords2D(1, 1), Coords2D(2, 0)]
  ]

  function At(b: Board, c: Coords2D): Cell
    requires InBoard(c)
  {
    b[c.y][c.x]
  }

  /** Line `k` holds three tokens of `p`. */
  ghost predicate Holds(b: Board, k: nat, p: Player)
    requires k < |Lines|
  {
    forall i :: 0 <= i < 3 ==> At(b, Lines[k][i]) == Some(p)
  }

  /** The winner test from line `k` on: the first line whose first cell is
      occupied and whose other cells equal it decides. */
  function WinnerFrom(b: Board, k: nat): (r: Option<Player>)
    requires k <= |Lines|
    ensures r == None <==> forall j, q :: k <= j < |Lines| ==> !Holds(b, j, q)
    ensures r.Some? ==> exists j :: k <= j < |Lines| && Holds(b, j, r.value)
                          && forall i, q :: k <= i < j ==> !Holds(b, i, q)
    decreases |Lines| - k
  {
    if k == |Lines| then None
    else
      var v := Lines[k];
      if At(b, v[0]) != None && At(b, v[1]) == At(b, v[0]) && At(b, v[2]) == At(b, v[0]) then
        assert Holds(b, k, At(b, v[0]).value);
        Some(At(b, v[0]).value)
      else
        assert forall q :: !Holds(b, k, q);
        WinnerFrom(b, k + 1)
  }

  /** `winner`. */
  function Winner(b: Board): Option<Player>
  {
    WinnerFrom(b, 0)
  }

  /** `Some(p)` exactly when a line holds three tokens of `p` and no earlier
      line is complete; `None` exactly when no line is complete. */
  lemma WinnerSpec(b: Board, p: Player)
    ensures Winner(b) == Some(p) <==>
      exists k :: 0 <= k < |Lines| && Holds(b, k, p) && forall i, q :: 0 <= i < k ==> !Holds(b, i, q)
    ensures Winner(b) == None <==> forall k, q :: 0 <= k < |Lines| ==> !Holds(b, k, q)
  {
    if exists k :: 0 <= k < |Lines| && Holds(b, k, p) && forall i, q :: 0 <= i < k ==> !Holds(b, i, q) {
      var k :| 0 <= k < |Lines| && Holds(b, k, p) && forall i, q :: 0 <= i < k ==> !Holds(b, i, q);
      var w := Winner(b);
      assert w.Some?;
      var j :| 0 <= j < |Lines| && Holds(b, j, w.value) && forall i, q :: 0 <= i < j ==> !Holds(b, i, q);
      if j == k {
        assert At(b, Lines[k][0]) == Some(p);
      }
    }
  }

  /** `play`: p's token goes into the target cell, whatever was there. */
  function Play(b: Board, p: Player, c: Coords2D): (b': Board)
    requires InBoard(c)
  {
    b[c.y := b[c.y][c.x := Some(p)]]
  }

  /** Only the target cell changes, and it now holds p's token. */
  lemma PlayEffect(b: Board, p: Player, c: Coords2D)
    requires InBoard(c)
    ensures At(Play(b, p, c), c) == Some(p)
    ensures forall d :: InBoard(d) && d != c ==> At(Play(b, p, c), d) == At(b, d)
  {
  }

  /** Where the row-major walk may stand: on a square, past the end of a row,
      or past the last row. */
  predicate Cursor(y: nat, x: nat)
  {
    (y < Width && x <= Width) || (y == Width && x == 0)
  }

  /** The empty squares from square `(x, y)` on, in row-major order. */
  function EmptyFrom(b: Board, y: nat, x: nat): seq<Coords2D>
    requires Cursor(y, x)
    decreases Width - y, Width - x
  {
    if y == Width then []
    else if x == Width then EmptyFrom(b, y + 1, 0)
    else if b[y][x] == None then [Coords2D(x, y)] + EmptyFrom(b, y, x + 1)
    else EmptyFrom(b, y, x + 1)
  }

  /** The squares listed from `(x, y)` on are empty squares of rank
      `3 * y + x` or above, listed by increasing rank (so each once). */
  lemma {:induction false} EmptyFromSound(b: Board, y: nat, x: nat)
    requires Cursor(y, x)
    ensures forall i :: 0 <= i < |EmptyFrom(b, y, x)| ==>
      InBoard(EmptyFrom(b, y, x)[i]) && At(b, EmptyFrom(b, y, x)[i]) == None && 3 * y + x <= Rank(EmptyFrom(b, y, x)[i])
    ensures forall i, j :: 0 <= i < j < |EmptyFrom(b, y, x)| ==> Rank(EmptyFrom(b, y, x)[i]) < Rank(EmptyFrom(b, y, x)[j])
    decreases Width - y, Width - x
  {
    if y < Width {
      if x == Width {
        EmptyFromSound(b, y + 1, 0);
      } else {
        EmptyFromSound(b, y, x + 1);
      }
    }
  }

  /** At most one square per square still ahead of the walk is listed. */
  lemma {:induction false} EmptyFromLength(b: Board, y: nat, x: nat)
    requires Cursor(y, x)
    ensures |EmptyFrom(b, y, x)| + 3 * y + x <= 9
    decreases Width - y, Width - x
  {
    if y < Width {
      if x == Width {
        EmptyFromLength(b, y + 1, 0);
      } else {
        EmptyFromLength(b, y, x + 1);
      }
    }
  }

  /** A listed square is an empty square of the board. */
  lemma {:induction false} EmptyListed(b: Board, y: nat, x: nat, c: Coords2D)
    requires Cursor(y, x) && c in EmptyFrom(b, y, x)
    ensures InBoard(c) && At(b, c) == None
    decreases Width - y, Width - x
  {
    if y < Width {
      if x == Width {
        EmptyListed(b, y + 1, 0, c);
      } else if b[y][x] != None || c != Coords2D(x, y) {
        EmptyListed(b, y, x + 1, c);
      }
    }
  }

  /** Every empty square of rank `3 * y + x` or above is listed from
      `(x, y)` on. */
  lemma {:induction false} EmptyFromComplete(b: Board, y: nat, x: nat, c: Coords2D)
    requires Cursor(y, x) && InBoard(c) && At(b, c) == None && 3 * y + x <= Rank(c)
    ensures c in EmptyFrom(b, y, x)
    decreases Width - y, Width - x
  {
    if x == Width {
      EmptyFromComplete(b, y + 1, 0, c);
    } else if c != Coords2D(x, y) {
      EmptyFromComplete(b, y, x + 1, c);
    }
  }

  /** The legal moves: none once there is a winner, otherwise every empty
      square in row-major order. The side to move plays no part. */
  function Moves(b: Board): seq<Coords2D>
  {
    if Winner(b).Some? then [] else EmptyFrom(b, 0, 0)
  }

  /** `possible_moves_in`: appends the legal moves to `moves`. */
  method PossibleMovesIn(b: Board, p: Player, moves: seq<Coords2D>) returns (out: seq<Coords2D>)
    ensures out == moves + Moves(b)
  {
    out := moves;
    if Winner(b).Some? {
      return;
    }
    for y := 0 to Width
      invariant out + EmptyFrom(b, y, 0) == moves + EmptyFrom(b, 0, 0)
    {
      out := EmptyOfRow(b, y, out);
    }
  }

  /** The inner loop of `possible_moves_in`: appends the empty squares of
      row `y`, left to right. */
  method EmptyOfRow(b: Board, y: nat, moves: seq<Coords2D>) returns (out: seq<Coords2D>)
    requires y < Width
    ensures out + EmptyFrom(b, y + 1, 0) == moves + EmptyFrom(b, y, 0)
  {
    out := moves;
    for x := 0 to Width
      invariant out + EmptyFrom(b, y, x) == moves + EmptyFrom(b, y, 0)
    {
      ghost var cell := if b[y][x] == None then [Coords2D(x, y)] else [];
      Seqs.Associative(out, cell, EmptyFrom(b, y, x + 1));
      if b[y][x] == None {
        out := out + [Coords2D(x, y)];
      }
    }
  }

  /** With no winner, the moves are exactly the empty squares, each once, in
      row-major order. */
  lemma MovesAreEmptySquares(b: Board, p: Player)
    ensures Winner(b).Some? ==> Moves(b) == []
    ensures Winner(b) == None ==> forall c :: c in Moves(b) <==> InBoard(c) && At(b, c) == None
    ensures forall i, j :: 0 <= i < j < |Moves(b)| ==> Rank(Moves(b)[i]) < Rank(Moves(b)[j])
  {
    EmptyFromSound(b, 0, 0);
    if Winner(b) == None {
      forall c | InBoard(c) && At(b, c) == None
        ensures c in Moves(b)
      {
        EmptyFromComplete(b, 0, 0, c);
      }
    }
  }

  /** Filling one empty square removes exactly that square from the empty
      squares of every stretch of the walk that contains it. */
  lemma {:induction false} EmptyFromAfterPlay(b: Board, p: Player, c: Coords2D, y: nat, x: nat)
    requires InBoard(c) && At(b, c) == None && Cursor(y, x)
    ensures |EmptyFrom(Play(b, p, c), y, x)| == |EmptyFrom(b, y, x)| - (if 3 * y + x <= Rank(c) then 1 else 0)
    decreases Width - y, Width - x
  {
    if y < Width {
      if x == Width {
        EmptyFromAfterPlay(b, p, c, y + 1, 0);
      } else {
        EmptyFromAfterPlay(b, p, c, y, x + 1);
      }
    }
  }

  /** Playing a legal move leaves one empty square fewer, and a board has at
      most nine, so a game lasts at most nine plies. */
  lemma PlayFillsOneSquare(b: Board, p: Player, c: Coords2D)
    requires c in Moves(b)
    ensures InBoard(c)
    ensures |EmptyFrom(Play(b, p, c), 0, 0)| == |EmptyFrom(b, 0, 0)| - 1
    ensures |EmptyFrom(b, 0, 0)| <= 9
  {
    EmptyListed(b, 0, 0, c);
    EmptyFromLength(b, 0, 0);
    EmptyFromAfterPlay(b, p, c, 0, 0);
  }

  /** Tic-tac-toe as a board for the search engine. */
  function Rules(): Mcts.Rules<Board, Coords2D>
  {
    Mcts.Rules(
      (b: Board, p: Player) => Moves(b),
      (b: Board, p: Player, c: Coords2D) requires InBoard(c) => Play(b, p, c),
      (b: Board) => Winner(b),
      (b: Board) => |EmptyFrom(b, 0, 0)|)
  }

  /** Tic-tac-toe meets the board contract, so a rollout always ends. */
  lemma RulesConform()
    ensures Mcts.Conforming(Rules())
  {
    var r := Rules();
    forall b: Board, p: Player, c: Coords2D | c in r.moves(b, p)
      ensures r.play.requires(b, p, c) && r.measure(r.play(b, p, c)) < r.measure(b)
    {
      PlayFillsOneSquare(b, p, c);
    }
  }
}
