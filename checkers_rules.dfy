/** Why a game of checkers ends, and checkers as a board for the search
    engine. Every token weighs 8, plus, while it is not crowned, its distance
    to the row where it would be crowned. A capture removes at least one
    token and moves the capturing token at most 7 rows back; an uncrowned
    token that does not capture steps one row forward; a crowned token that
    does not capture leaves the weight alone but brings the draw cutoff one
    move closer. */
module CheckersRules {
  import opened Players
  import opened Utils
  import opened Checkers
  import Mcts

  /** How many rows a token of `p` on row `y` still has to go to be crowned. */
  function Distance(p: Player, y: nat): nat
    requires y < Width
  {
    if p == White then Width - 1 - y else y
  }

  function CellWeight(cell: Cell, y: nat): nat
    requires y < Width
  {
    match cell
    case None => 0
    case Some(t) => Width + (if t.crowned then 0 else Distance(t.player, y))
  }

  /** The weight of the cells of row `y` from column `x` on. */
  function RowWeight(b: Board, y: nat, x: nat): nat
    requires y < Width && x <= Width
    decreases Width - x
  {
    if x == Width then 0 else CellWeight(b[y][x], y) + RowWeight(b, y, x + 1)
  }

  /** The weight of the rows from `y` on. */
  function RowsWeight(b: Board, y: nat): nat
    requires y <= Width
    decreases Width - y
  {
    if y == Width then 0 else RowWeight(b, y, 0) + RowsWeight(b, y + 1)
  }

  function Weight(b: Board): nat
  {
    RowsWeight(b, 0)
  }

  /** The measure of a game: the weight of its board first, then the moves
      left before the draw cutoff. */
  function Measure(gm: Game): nat
  {
    26 * Weight(gm.board) + (if gm.crownedMovesWithoutCapture < DrawCutoff then DrawCutoff - gm.crownedMovesWithoutCapture else 0)
  }

  lemma {:induction false} RowWeightSet(b: Board, c: Coords2D, v: Cell, y: nat, x: nat)
    requires InBoard(c) && y < Width && x <= Width
    ensures RowWeight(Set(b, c, v), y, x) + (if y == c.y && x <= c.x then CellWeight(At(b, c), y) else 0)
         == RowWeight(b, y, x) + (if y == c.y && x <= c.x then CellWeight(v, y) else 0)
    decreases Width - x
  {
    if x < Width {
      RowWeightSet(b, c, v, y, x + 1);
    }
  }

  lemma {:induction false} RowsWeightSet(b: Board, c: Coords2D, v: Cell, y: nat)
    requires InBoard(c) && y <= Width
    ensures RowsWeight(Set(b, c, v), y) + (if y <= c.y then CellWeight(At(b, c), c.y) else 0)
         == RowsWeight(b, y) + (if y <= c.y then CellWeight(v, c.y) else 0)
    decreases Width - y
  {
    if y < Width {
      RowWeightSet(b, c, v, y, 0);
      RowsWeightSet(b, c, v, y + 1);
    }
  }

  /** Writing a cell trades the weight of its old content for that of the
      new one. */
  lemma WeightSet(b: Board, c: Coords2D, v: Cell)
    requires InBoard(c)
    ensures Weight(Set(b, c, v)) + CellWeight(At(b, c), c.y) == Weight(b) + CellWeight(v, c.y)
  {
    RowsWeightSet(b, c, v, 0);
  }

  /** Emptying squares never adds weight, and emptying an occupied one first
      takes at least 8 away. */
  lemma {:induction false} ClearAllWeight(b: Board, cs: seq<Coords2D>)
    requires forall c :: c in cs ==> InBoard(c)
    ensures Weight(ClearAll(b, cs)) <= Weight(b)
    ensures cs != [] && At(b, cs[0]).Some? ==> Weight(ClearAll(b, cs)) + Width <= Weight(b)
    decreases |cs|
  {
    if cs != [] {
      WeightSet(b, cs[0], None);
      ClearAllWeight(Set(b, cs[0], None), cs[1..]);
    }
  }

  /** Writing one square leaves every other square alone. */
  lemma SetOther(b: Board, c: Coords2D, v: Cell, d: Coords2D)
    requires InBoard(c) && InBoard(d) && d != c
    ensures At(Set(b, c, v), d) == At(b, d)
  {
  }

  /** Moving token `t` from `src` to the empty square `dst` trades its
      weight on `src` for its weight on `dst`. */
  lemma MoveWeight(b: Board, src: Coords2D, dst: Coords2D, t: Token)
    requires InBoard(src) && InBoard(dst) && At(b, src) == Some(t) && At(b, dst) == None
    ensures Weight(Set(Set(b, dst, Some(t)), src, None)) + CellWeight(Some(t), src.y)
         == Weight(b) + CellWeight(Some(t), dst.y)
  {
    var b1 := Set(b, dst, Some(t));
    WeightSet(b, dst, Some(t));
    SetOther(b, dst, Some(t), src);
    WeightSet(b1, src, None);
  }

  /** Crowning a token never adds weight. */
  lemma CrownWeight(b: Board, c: Coords2D, t: Token)
    requires InBoard(c) && At(b, c) == Some(t)
    ensures Weight(Set(b, c, Some(t.(crowned := true)))) <= Weight(b)
  {
    WeightSet(b, c, Some(t.(crowned := true)));
  }

  /** The weight a generated move leaves: a capture or a move of an uncrowned
      token lowers it, a crowned token moving without capture keeps it. */
  lemma PlayWeight(gm: Game, p: Player, m: Move)
    requires WellFormed(gm.board, p, m) && PlayDefined(gm, p, m)
    ensures m.captured != [] || !At(gm.board, m.src).value.crowned ==>
      Weight(Play(gm, p, m).board) < Weight(gm.board)
    ensures Weight(Play(gm, p, m).board) <= Weight(gm.board)
  {
    var b := gm.board;
    var t := At(b, m.src).value;
    var b2 := Set(Set(b, m.dst, Some(t)), m.src, None);
    MoveWeight(b, m.src, m.dst, t);
    ClearWeight(b, b2, p, m);
    var b3 := ClearAll(b2, m.captured);
    if CrownRow(p, m.dst) && !t.crowned {
      CrownWeight(b3, m.dst, t);
    }
  }

  /** The captured squares are emptied after the move, which takes at least
      8 away when there is one. */
  lemma ClearWeight(b: Board, b2: Board, p: Player, m: Move)
    requires WellFormed(b, p, m)
    requires b2 == Set(Set(b, m.dst, At(b, m.src)), m.src, None)
    ensures Weight(ClearAll(b2, m.captured)) <= Weight(b2)
    ensures m.captured != [] ==> Weight(ClearAll(b2, m.captured)) + Width <= Weight(b2)
    ensures At(ClearAll(b2, m.captured), m.dst) == At(b, m.src)
  {
    if m.captured != [] {
      assert At(b2, m.captured[0]) == At(b, m.captured[0]);
    }
    ClearAllWeight(b2, m.captured);
    assert m.dst !in m.captured;
  }

  /** Every legal move may be played and lowers the measure. */
  lemma LegalMoveShortens(gm: Game, p: Player, m: Move)
    requires m in Moves(gm, p)
    ensures PlayDefined(gm, p, m)
    ensures Measure(Play(gm, p, m)) < Measure(gm)
  {
    MaxCaptureRule(gm, p);
    MovesShape(gm, p, m);
    PlayWeight(gm, p, m);
    PlayCounter(gm, p, m);
  }

  /** Checkers as a board for the search engine. */
  function Rules(): Mcts.Rules<Game, Move>
  {
    Mcts.Rules(
      (gm: Game, p: Player) => Moves(gm, p),
      (gm: Game, p: Player, m: Move) requires PlayDefined(gm, p, m) => Play(gm, p, m),
      (gm: Game) requires Moves(gm, White) == [] || Moves(gm, Black) == [] => Winner(gm),
      (gm: Game) => Measure(gm))
  }

  /** Checkers meets the board contract, so a rollout always ends. */
  lemma RulesConform()
    ensures Mcts.Conforming(Rules())
  {
    var r := Rules();
    forall gm: Game, p: Player | r.moves(gm, p) == []
      ensures r.winner.requires(gm)
    {
      if p == White {
        assert Moves(gm, White) == [];
      } else {
        assert Moves(gm, Black) == [];
      }
    }
    forall gm: Game, p: Player, m: Move | m in r.moves(gm, p)
      ensures r.play.requires(gm, p, m) && r.measure(r.play(gm, p, m)) < r.measure(gm)
    {
      LegalMoveShortens(gm, p, m);
    }
  }
}
