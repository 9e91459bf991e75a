/** Generic Monte Carlo Tree Search over any two-player board.

    The board capability contract is a record of functions (`Rules`); the game
    wrapper and the random source are objects updated in place; the search tree
    is a value (`Node`) that `Uct` rebuilds along the path it walks. Scores are
    counted in half points, so a draw adds 1 and a win adds 2. */
module Mcts {
  import opened Players

  // ---------------------------------------------------------------------------
  // Board capability contract
  // ---------------------------------------------------------------------------

  /** What a board must provide: the legal moves of a side (what
      `possible_moves_in` appends to an empty vector), the effect of a move
      played by a side, the winner of a finished position, and a measure that
      every legal move decreases, which is what makes a rollout finish. */
  datatype Rules<!B, !M> = Rules(
    moves: (B, Player) -> seq<M>,
    play: (B, Player, M) --> B,
    winner: B --> Option<Player>,
    measure: B -> nat)

  /** The obligations of a board: the winner may be asked once the side to move
      is stuck, and every generated move may be played and decreases the
      measure. */
  ghost predicate Conforming<B(!new), M(!new)>(r: Rules<B, M>)
  {
    && (forall b, p :: r.moves(b, p) == [] ==> r.winner.requires(b))
    && (forall b, p, m :: m in r.moves(b, p) ==>
          r.play.requires(b, p, m) && r.measure(r.play(b, p, m)) < r.measure(b))
  }

  // ---------------------------------------------------------------------------
  // Game-state wrapper and random source
  // ---------------------------------------------------------------------------

  /** A board together with the side to move. */
  class TwoPlayerGame<B, M> {
    const rules: Rules<B, M>
    var board: B
    var currentPlayer: Player

    /** A new game starts with White to move. */
    constructor (rules: Rules<B, M>, board: B)
      ensures this.rules == rules && this.board == board
      ensures currentPlayer == White
    {
      this.rules := rules;
      this.board := board;
      currentPlayer := White;
    }

    /** Plays `m` as the side to move, then hands the turn to the other side,
        whether or not that side can move. */
    method Play(m: M)
      requires rules.play.requires(board, currentPlayer, m)
      modifies this
      ensures board == rules.play(old(board), old(currentPlayer), m)
      ensures currentPlayer == old(currentPlayer).Opponent()
    {
      board := rules.play(board, currentPlayer, m);
      currentPlayer := currentPlayer.Opponent();
    }

    /** The legal moves of the side to move. */
    function PossibleMoves(): seq<M>
      reads this
    {
      rules.moves(board, currentPlayer)
    }

    /** The game is over when the side to move has no legal move. */
    predicate IsOver(): (over: bool)
      reads this
      ensures over <==> PossibleMoves() == []
    {
      rules.moves(board, currentPlayer) == []
    }

    /** The winner, as the board reports it. */
    function Winner(): Option<Player>
      reads this
      requires rules.winner.requires(board)
    {
      rules.winner(board)
    }

    /** A copy that the search can play forward without touching this one. */
    method Clone() returns (g: TwoPlayerGame<B, M>)
      ensures fresh(g)
      ensures g.rules == rules && g.board == board && g.currentPlayer == currentPlayer
    {
      g := new TwoPlayerGame(rules, board);
      g.currentPlayer := currentPlayer;
    }
  }

  /** The random source: an oracle of draws and the number of draws made. */
  class Rng {
    const oracle: nat -> nat
    var draws: nat

    constructor (oracle: nat -> nat)
      ensures this.oracle == oracle && draws == 0
    {
      this.oracle := oracle;
      draws := 0;
    }

    /** An index into a non-empty sequence of length `n`. */
    method Choose(n: nat) returns (i: nat)
      requires n > 0
      modifies this
      ensures i < n
      ensures draws == old(draws) + 1
    {
      i := oracle(draws) % n;
      draws := draws + 1;
    }

    /** Fisher-Yates shuffle in place, driven by the oracle. */
    method Shuffle<T>(a: array<T>)
      modifies this, a
      ensures multiset(a[..]) == old(multiset(a[..]))
    {
      var i := a.Length;
      while i >= 2
        invariant 0 <= i <= a.Length
        invariant multiset(a[..]) == old(multiset(a[..]))
      {
        i := i - 1;
        var j := Choose(i + 1);
        a[i], a[j] := a[j], a[i];
      }
    }
  }

  // ---------------------------------------------------------------------------
  // Search tree
  // ---------------------------------------------------------------------------

  /** One vertex of the search tree. `score` is in half points, credited from
      the point of view of `lastPlayer`, the side that played `lastMove`. */
  datatype Node<M> = Node(
    lastMove: M,
    children: seq<Node<M>>,
    score: nat,
    visits: nat,
    untried: seq<M>,
    lastPlayer: Player)

  /** The exploration value of a child: its score, its visits and its parent's
      visits go in, a number comes out (UCB1 in the program). */
  type Ucb = (nat, nat, nat) -> real

  function MovesOf<M>(cs: seq<Node<M>>): (ms: seq<M>)
    ensures |ms| == |cs|
    ensures forall i :: 0 <= i < |cs| ==> ms[i] == cs[i].lastMove
  {
    seq(|cs|, i requires 0 <= i < |cs| => cs[i].lastMove)
  }

  function SumVisits<M>(cs: seq<Node<M>>): nat
  {
    if cs == [] then 0 else SumVisits(cs[..|cs| - 1]) + cs[|cs| - 1].visits
  }

  /** The half points an outcome is worth to `p`: 2 for a win, 1 for a draw,
      0 for a loss. */
  function Credit(w: Option<Player>, p: Player): (c: nat)
    ensures c <= 2
    ensures c == 2 <==> w == Some(p)
    ensures c == 1 <==> w == None
  {
    match w
    case Some(q) => if q == p then 2 else 0
    case None => 1
  }

  /** A node as `Node::new` leaves it for move `m` into position `b` with `p`
      to move. */
  ghost predicate IsNew<B, M>(r: Rules<B, M>, c: Node<M>, m: M, b: B, p: Player)
  {
    && c.lastMove == m
    && c.children == [] && c.score == 0 && c.visits == 0
    && multiset(c.untried) == multiset(r.moves(b, p))
    && c.lastPlayer == p.Opponent()
  }

  /** `path` is a legal continuation from position `b` with `p` to move:
      each move is one of the legal moves of the side whose turn it is, and
      the sides alternate. */
  ghost predicate Playout<B, M>(r: Rules<B, M>, b: B, p: Player, path: seq<M>)
    decreases |path|
  {
    path == [] ||
      (&& path[0] in r.moves(b, p)
       && r.play.requires(b, p, path[0])
       && Playout(r, r.play(b, p, path[0]), p.Opponent(), path[1..]))
  }

  /** The position and the side to move after playing `path`. */
  ghost function End<B, M>(r: Rules<B, M>, b: B, p: Player, path: seq<M>): (B, Player)
    requires Playout(r, b, p, path)
    decreases |path|
  {
    if path == [] then (b, p) else End(r, r.play(b, p, path[0]), p.Opponent(), path[1..])
  }

  /** A legal move played where a continuation ends extends it. */
  lemma {:induction false} PlayoutAppend<B, M>(r: Rules<B, M>, b: B, p: Player, path: seq<M>, m: M)
    requires Playout(r, b, p, path)
    requires m in r.moves(End(r, b, p, path).0, End(r, b, p, path).1)
    requires r.play.requires(End(r, b, p, path).0, End(r, b, p, path).1, m)
    ensures Playout(r, b, p, path + [m])
    ensures End(r, b, p, path + [m])
         == (r.play(End(r, b, p, path).0, End(r, b, p, path).1, m), End(r, b, p, path).1.Opponent())
    decreases |path|
  {
    if path == [] {
      assert [m][1..] == [];
    } else {
      assert (path + [m])[1..] == path[1..] + [m];
      PlayoutAppend(r, r.play(b, p, path[0]), p.Opponent(), path[1..], m);
    }
  }

  /** A legal move followed by a continuation from the position it leads to
      is a continuation. */
  lemma PlayoutPrepend<B, M>(r: Rules<B, M>, b: B, p: Player, m: M, path: seq<M>)
    requires m in r.moves(b, p) && r.play.requires(b, p, m)
    requires Playout(r, r.play(b, p, m), p.Opponent(), path)
    ensures Playout(r, b, p, [m] + path)
    ensures End(r, b, p, [m] + path) == End(r, r.play(b, p, m), p.Opponent(), path)
  {
    assert ([m] + path)[1..] == path;
  }

  /** The tree invariant of a node reached in position `b` with `p` to move.
      Its expanded and untried moves together are exactly the legal moves; its
      score is at most its visits; every child has been visited, and below
      the root a node that is not terminal has one visit more than its
      children together (the one of its own expansion). */
  ghost predicate Valid<B, M>(r: Rules<B, M>, n: Node<M>, b: B, p: Player, root: bool)
    decreases n, 0
  {
    && n.lastPlayer == p.Opponent()
    && multiset(n.untried) + multiset(MovesOf(n.children)) == multiset(r.moves(b, p))
    && n.score <= 2 * n.visits
    && (!root ==> n.visits >= 1)
    && (r.moves(b, p) != [] ==> n.visits == (if root then 0 else 1) + SumVisits(n.children))
    && forall i :: 0 <= i < |n.children| ==> n.children[i].visits >= 1 && ValidChild(r, n.children[i], b, p)
  }

  /** A child of a node in position `b` with `p` to move: its move may be
      played there, and it satisfies the invariant in the position that move
      leads to. */
  ghost predicate ValidChild<B, M>(r: Rules<B, M>, c: Node<M>, b: B, p: Player)
    decreases c, 1
  {
    && r.play.requires(b, p, c.lastMove)
    && Valid(r, c, r.play(b, p, c.lastMove), p.Opponent(), false)
  }

  /** `Node::new`: the legal moves of the side to move, shuffled, no child, no
      score, no visit, credited to the side that has just moved. */
  method NewNode<B, M>(lastMove: M, game: TwoPlayerGame<B, M>, rng: Rng) returns (n: Node<M>)
    modifies rng
    ensures IsNew(game.rules, n, lastMove, game.board, game.currentPlayer)
  {
    var moves := game.PossibleMoves();
    var a := new M[|moves|](i requires 0 <= i < |moves| => moves[i]);
    assert a[..] == moves;
    rng.Shuffle(a);
    n := Node(lastMove, [], 0, 0, a[..], game.currentPlayer.Opponent());
  }

  /** `Node::update`: one more visit, and the credit of outcome `w`. */
  function Update<M>(n: Node<M>, w: Option<Player>): (n': Node<M>)
    ensures n'.visits == n.visits + 1
    ensures n'.score == n.score + Credit(w, n.lastPlayer)
    ensures n.score <= 2 * n.visits ==> n'.score <= 2 * n'.visits
    ensures n' == n.(score := n'.score, visits := n'.visits)
  {
    n.(score := n.score + Credit(w, n.lastPlayer), visits := n.visits + 1)
  }

  /** `Node::add_child`: a new node for `m` from the game's position appended
      to the children. */
  method AddChild<B, M>(n: Node<M>, m: M, game: TwoPlayerGame<B, M>, rng: Rng) returns (n': Node<M>)
    modifies rng
    ensures |n'.children| == |n.children| + 1
    ensures n'.children[..|n.children|] == n.children
    ensures IsNew(game.rules, n'.children[|n.children|], m, game.board, game.currentPlayer)
    ensures n' == n.(children := n'.children)
  {
    var child := NewNode(m, game, rng);
    n' := n.(children := n.children + [child]);
  }

  /** The value the selection rule compares. */
  function Value<M>(ucb: Ucb, parentVisits: nat, c: Node<M>): real
  {
    ucb(c.score, c.visits, parentVisits)
  }

  /** Child `i` has the greatest value, and every child before it a smaller
      one: it is the first of the maximal children. */
  ghost predicate IsFirstBest<M>(ucb: Ucb, parentVisits: nat, cs: seq<Node<M>>, i: nat)
  {
    && i < |cs|
    && (forall j :: 0 <= j < |cs| ==> Value(ucb, parentVisits, cs[j]) <= Value(ucb, parentVisits, cs[i]))
    && (forall j :: 0 <= j < i ==> Value(ucb, parentVisits, cs[j]) < Value(ucb, parentVisits, cs[i]))
  }

  /** `select_child_ucb1`: a scan that keeps a child only when its value is
      strictly greater than the best so far (which starts at minus infinity),
      so it picks the first child of maximal value. */
  method SelectChildUcb1<M>(ucb: Ucb, parentVisits: nat, children: seq<Node<M>>) returns (i: nat)
    requires children != []
    ensures IsFirstBest(ucb, parentVisits, children, i)
  {
    var best: Option<real> := None;
    i := 0;
    for k := 0 to |children|
      invariant best.None? <==> k == 0
      invariant best.Some? ==> i < k && best.value == Value(ucb, parentVisits, children[i])
      invariant best.Some? ==> forall j :: 0 <= j < k ==> Value(ucb, parentVisits, children[j]) <= best.value
      invariant best.Some? ==> forall j :: 0 <= j < i ==> Value(ucb, parentVisits, children[j]) < best.value
    {
      var value := Value(ucb, parentVisits, children[k]);
      if best.None? || value > best.value {
        best := Some(value);
        i := k;
      }
    }
  }

  /** `rollout`: random moves until the side to move is stuck, then the
      board's winner. */
  method Rollout<B(!new), M(!new)>(game: TwoPlayerGame<B, M>, rng: Rng) returns (w: Option<Player>, ghost path: seq<M>)
    requires Conforming(game.rules)
    modifies game, rng
    ensures Playout(game.rules, old(game.board), old(game.currentPlayer), path)
    ensures End(game.rules, old(game.board), old(game.currentPlayer), path) == (game.board, game.currentPlayer)
    ensures game.rules.moves(game.board, game.currentPlayer) == []
    ensures game.rules.winner.requires(game.board) && w == game.rules.winner(game.board)
  {
    ghost var r, b0, p0 := game.rules, game.board, game.currentPlayer;
    path := [];
    var moves := game.PossibleMoves();
    while moves != []
      invariant moves == game.rules.moves(game.board, game.currentPlayer)
      invariant Playout(r, b0, p0, path) && End(r, b0, p0, path) == (game.board, game.currentPlayer)
      decreases game.rules.measure(game.board)
    {
      var i := rng.Choose(|moves|);
      PlayoutAppend(r, b0, p0, path, moves[i]);
      path := path + [moves[i]];
      game.Play(moves[i]);
      moves := game.PossibleMoves();
    }
    w := game.Winner();
  }

  lemma MovesOfAppend<M>(cs: seq<Node<M>>, c: Node<M>)
    ensures MovesOf(cs + [c]) == MovesOf(cs) + [c.lastMove]
  {
  }

  lemma {:induction false} SumVisitsAppend<M>(cs: seq<Node<M>>, c: Node<M>)
    ensures SumVisits(cs + [c]) == SumVisits(cs) + c.visits
  {
    assert (cs + [c])[..|cs|] == cs;
  }

  /** Replacing one child by a node with one more visit adds one to the sum. */
  lemma {:induction false} SumVisitsBump<M>(cs: seq<Node<M>>, i: nat, c: Node<M>)
    requires i < |cs| && c.visits == cs[i].visits + 1
    ensures SumVisits(cs[i := c]) == SumVisits(cs) + 1
    decreases |cs|
  {
    var last := |cs| - 1;
    assert cs[i := c][..last] == if i == last then cs[..last] else cs[..last][i := c];
    if i < last {
      SumVisitsBump(cs[..last], i, c);
    }
  }

  /** An element of either part of a split multiset is in the whole. */
  lemma InSplit<T>(x: T, untried: seq<T>, expanded: seq<T>, all: seq<T>)
    requires multiset(untried) + multiset(expanded) == multiset(all)
    requires x in untried || x in expanded
    ensures x in all
  {
    assert x in multiset(untried) + multiset(expanded);
  }

  /** A child's move is one of the legal moves of its parent's position. */
  lemma ChildMoveLegal<B, M>(r: Rules<B, M>, n: Node<M>, b: B, p: Player, root: bool, i: nat)
    requires Valid(r, n, b, p, root) && i < |n.children|
    ensures n.children[i].lastMove in r.moves(b, p)
  {
    var ms := MovesOf(n.children);
    assert ms[i] == n.children[i].lastMove;
    InSplit(ms[i], n.untried, ms, r.moves(b, p));
  }

  /** A node's children and untried moves together account for exactly the
      legal moves of its position. */
  lemma ValidCounts<B, M>(r: Rules<B, M>, n: Node<M>, b: B, p: Player, root: bool)
    requires Valid(r, n, b, p, root)
    ensures |n.children| + |n.untried| == |r.moves(b, p)|
    ensures n.untried == [] && n.children == [] <==> r.moves(b, p) == []
  {
    assert |multiset(n.untried) + multiset(MovesOf(n.children))| == |n.untried| + |n.children|;
  }

  /** One iteration of the search from node `n` in the game's position: stop
      at a terminal node, descend into the first child of greatest UCB1 value,
      or expand the last untried move and roll out from the new child; then
      add the outcome to this node. */
  method Uct<B(!new), M(!new)>(n: Node<M>, game: TwoPlayerGame<B, M>, rng: Rng, ucb: Ucb, ghost root: bool)
    returns (n': Node<M>, w: Option<Player>, ghost path: seq<M>)
    requires Conforming(game.rules)
    requires Valid(game.rules, n, game.board, game.currentPlayer, root)
    modifies game, rng
    decreases n, 1
    ensures Valid(game.rules, n', old(game.board), old(game.currentPlayer), root)
    ensures n'.lastMove == n.lastMove && n'.lastPlayer == n.lastPlayer
    ensures n'.visits == n.visits + 1
    ensures n'.score == n.score + Credit(w, n.lastPlayer)
    ensures Finished(game.rules, old(game.board), old(game.currentPlayer), path, game.board, game.currentPlayer, w)
    ensures n.untried == [] && n.children == [] ==>
      && n'.untried == [] && n'.children == [] && path == []
      && game.rules.winner.requires(old(game.board)) && w == game.rules.winner(old(game.board))
    ensures n.untried == [] && n.children != [] ==> Selected(ucb, n, n', w, path)
    ensures n.untried != [] ==> Expanded(n, n', w, path)
  {
    ValidCounts(game.rules, n, game.board, game.currentPlayer, root);
    if n.untried == [] {
      if n.children == [] {
        // terminal node
        w := game.Winner();
        n' := Update(n, w);
        path := [];
      } else {
        n', w, path := UctSelect(n, game, rng, ucb, root);
      }
    } else {
      n', w, path := UctExpand(n, game, rng, root);
    }
  }

  /** The game was played on from position `b` with `p` to move along the
      legal continuation `path` to position `b'` with `p'` to move, where
      that side has no move, and `w` is the winner of that final position. */
  ghost predicate Finished<B, M>(r: Rules<B, M>, b: B, p: Player, path: seq<M>, b': B, p': Player, w: Option<Player>)
  {
    && Playout(r, b, p, path)
    && End(r, b, p, path) == (b', p')
    && r.moves(b', p') == []
    && r.winner.requires(b') && w == r.winner(b')
  }

  /** What a descent did to the node: no untried move appears, and exactly
      the first child of greatest value was replaced by itself with one more
      visit and the credit of outcome `w`; the game went on with that child's
      move. */
  ghost predicate Selected<M>(ucb: Ucb, n: Node<M>, n': Node<M>, w: Option<Player>, path: seq<M>)
  {
    && n'.untried == []
    && |n'.children| == |n.children|
    && exists i: nat :: IsFirstBest(ucb, n.visits, n.children, i)
         && n'.children == n.children[i := n'.children[i]]
         && n'.children[i].visits == n.children[i].visits + 1
         && n'.children[i].score == n.children[i].score + Credit(w, n.children[i].lastPlayer)
         && path != [] && path[0] == n.children[i].lastMove
  }

  /** What an expansion did to the node: its last untried move became a new
      last child, played by the side to move, with one visit and the credit
      of outcome `w`; the other children are unchanged; the game went on with
      that move. */
  ghost predicate Expanded<M>(n: Node<M>, n': Node<M>, w: Option<Player>, path: seq<M>)
    requires n.untried != []
  {
    && n'.untried == n.untried[..|n.untried| - 1]
    && |n'.children| == |n.children| + 1
    && n'.children[..|n.children|] == n.children
    && n'.children[|n.children|].lastMove == n.untried[|n.untried| - 1]
    && n'.children[|n.children|].lastPlayer == n.lastPlayer.Opponent()
    && n'.children[|n.children|].visits == 1
    && n'.children[|n.children|].score == Credit(w, n'.children[|n.children|].lastPlayer)
    && path != [] && path[0] == n.untried[|n.untried| - 1]
  }

  /** The selection branch of `uct`: descend into the first child of greatest
      value, search from it, and add the outcome to this node. */
  method UctSelect<B(!new), M(!new)>(n: Node<M>, game: TwoPlayerGame<B, M>, rng: Rng, ucb: Ucb, ghost root: bool)
    returns (n': Node<M>, w: Option<Player>, ghost path: seq<M>)
    requires Conforming(game.rules)
    requires Valid(game.rules, n, game.board, game.currentPlayer, root)
    requires n.untried == [] && n.children != []
    modifies game, rng
    decreases n, 0
    ensures Valid(game.rules, n', old(game.board), old(game.currentPlayer), root)
    ensures n'.lastMove == n.lastMove && n'.lastPlayer == n.lastPlayer
    ensures n'.visits == n.visits + 1
    ensures n'.score == n.score + Credit(w, n.lastPlayer)
    ensures Finished(game.rules, old(game.board), old(game.currentPlayer), path, game.board, game.currentPlayer, w)
    ensures Selected(ucb, n, n', w, path)
  {
    ghost var r, b, p := game.rules, game.board, game.currentPlayer;
    var i := SelectChildUcb1(ucb, n.visits, n.children);
    var child := n.children[i];
    ChildMoveLegal(r, n, b, p, root, i);
    game.Play(child.lastMove);
    var child';
    ghost var rest;
    child', w, rest := Uct(child, game, rng, ucb, false);
    n' := Update(n.(children := n.children[i := child']), w);
    ValidAfterSelect(r, n, b, p, root, i, child', w);
    PlayoutPrepend(r, b, p, child.lastMove, rest);
    path := [child.lastMove] + rest;
    assert n'.children[i] == child';
  }

  /** The expansion branch of `uct`: take the last untried move, play it,
      add its node as the last child, roll out from there, and add the
      outcome to the new child and to this node. */
  method UctExpand<B(!new), M(!new)>(n: Node<M>, game: TwoPlayerGame<B, M>, rng: Rng, ghost root: bool)
    returns (n': Node<M>, w: Option<Player>, ghost path: seq<M>)
    requires Conforming(game.rules)
    requires Valid(game.rules, n, game.board, game.currentPlayer, root)
    requires n.untried != []
    modifies game, rng
    ensures Valid(game.rules, n', old(game.board), old(game.currentPlayer), root)
    ensures n'.lastMove == n.lastMove && n'.lastPlayer == n.lastPlayer
    ensures n'.visits == n.visits + 1
    ensures n'.score == n.score + Credit(w, n.lastPlayer)
    ensures Finished(game.rules, old(game.board), old(game.currentPlayer), path, game.board, game.currentPlayer, w)
    ensures Expanded(n, n', w, path)
  {
    ghost var r, b, p := game.rules, game.board, game.currentPlayer;
    var k := |n.untried| - 1;
    var m := n.untried[k];
    InSplit(m, n.untried, MovesOf(n.children), r.moves(b, p));
    var n1 := n.(untried := n.untried[..k]);
    game.Play(m);
    ghost var b1 := game.board;
    n1 := AddChild(n1, m, game, rng);
    ghost var rest;
    w, rest := Rollout(game, rng);
    var child := Update(n1.children[|n.children|], w);
    ValidNewChild(r, n1.children[|n.children|], m, b1, p.Opponent(), w);
    n' := Update(n1.(children := n.children + [child]), w);
    ValidAfterExpand(r, n, b, p, root, child, w);
    PlayoutPrepend(r, b, p, m, rest);
    path := [m] + rest;
    OpponentInvolution(p);
  }

  /** A node just created and updated once satisfies the invariant below the
      root. */
  lemma ValidNewChild<B, M>(r: Rules<B, M>, c: Node<M>, m: M, b: B, p: Player, w: Option<Player>)
    requires IsNew(r, c, m, b, p)
    ensures Valid(r, Update(c, w), b, p, false)
  {
  }

  /** Replacing a child by one for the same move leaves the moves alone. */
  lemma MovesOfReplace<M>(cs: seq<Node<M>>, i: nat, c: Node<M>)
    requires i < |cs| && c.lastMove == cs[i].lastMove
    ensures MovesOf(cs[i := c]) == MovesOf(cs)
  {
  }

  /** Moving the last untried move to a new last child keeps the multiset
      of all moves, and that move is one of them. */
  lemma MoveToExpanded<M>(untried: seq<M>, cs: seq<Node<M>>, c: Node<M>, all: seq<M>)
    requires untried != [] && c.lastMove == untried[|untried| - 1]
    requires multiset(untried) + multiset(MovesOf(cs)) == multiset(all)
    ensures multiset(untried[..|untried| - 1]) + multiset(MovesOf(cs + [c])) == multiset(all)
  {
    var k := |untried| - 1;
    assert untried == untried[..k] + [c.lastMove];
    MovesOfAppend(cs, c);
  }

  /** Descending into child `i` keeps the invariant of the parent. */
  lemma ValidAfterSelect<B, M>(r: Rules<B, M>, n: Node<M>, b: B, p: Player, root: bool,
                               i: nat, c: Node<M>, w: Option<Player>)
    requires Valid(r, n, b, p, root) && i < |n.children|
    requires c.lastMove == n.children[i].lastMove && c.visits == n.children[i].visits + 1
    requires ValidChild(r, c, b, p)
    ensures Valid(r, Update(n.(children := n.children[i := c]), w), b, p, root)
  {
    MovesOfReplace(n.children, i, c);
    SumVisitsBump(n.children, i, c);
  }

  /** Expanding the last untried move into child `c` keeps the invariant. */
  lemma ValidAfterExpand<B, M>(r: Rules<B, M>, n: Node<M>, b: B, p: Player, root: bool,
                               c: Node<M>, w: Option<Player>)
    requires Valid(r, n, b, p, root) && n.untried != []
    requires c.lastMove == n.untried[|n.untried| - 1] && c.visits == 1
    requires ValidChild(r, c, b, p)
    ensures Valid(r, Update(n.(untried := n.untried[..|n.untried| - 1], children := n.children + [c]), w), b, p, root)
  {
    var cs := n.children + [c];
    MoveToExpanded(n.untried, n.children, c, r.moves(b, p));
    SumVisitsAppend(n.children, c);
    forall j | 0 <= j < |cs|
      ensures cs[j].visits >= 1 && ValidChild(r, cs[j], b, p)
    {
      if j < |n.children| {
        assert cs[j] == n.children[j];
      }
    }
  }

  /** The ratio of a child's score to its visits, in points per visit. */
  function Ratio<M>(c: Node<M>): real
    requires c.visits > 0
  {
    (c.score as real) / ((2 * c.visits) as real)
  }

  /** The child a stable sort by descending ratio puts first: the first of the
      children of greatest ratio. */
  function BestIndex<M>(cs: seq<Node<M>>): (i: nat)
    requires cs != [] && forall j :: 0 <= j < |cs| ==> cs[j].visits > 0
    ensures i < |cs|
    ensures forall j :: 0 <= j < |cs| ==> Ratio(cs[j]) <= Ratio(cs[i])
    ensures forall j :: 0 <= j < i ==> Ratio(cs[j]) < Ratio(cs[i])
    decreases |cs|
  {
    if |cs| == 1 then 0
    else
      var k := BestIndex(cs[..|cs| - 1]);
      if Ratio(cs[|cs| - 1]) > Ratio(cs[k]) then |cs| - 1 else k
  }

  /** `search`: `nbIter` iterations from a fresh root on copies of the game,
      then the move of the child of best score ratio. `sentinel` is the
      default move the root carries. */
  method Search<B(!new), M(!new)>(game: TwoPlayerGame<B, M>, rng: Rng, nbIter: nat, ucb: Ucb, sentinel: M)
    returns (m: M, ghost root: Node<M>)
    requires Conforming(game.rules)
    requires game.PossibleMoves() != [] && nbIter >= 1
    modifies rng
    ensures Valid(game.rules, root, game.board, game.currentPlayer, true)
    ensures root.visits == nbIter
    ensures root.children != [] && m == root.children[BestIndex(root.children)].lastMove
    ensures m in game.PossibleMoves()
  {
    var tree := NewNode(sentinel, game, rng);
    for i := 0 to nbIter
      invariant Valid(game.rules, tree, game.board, game.currentPlayer, true)
      invariant tree.visits == i
      invariant i > 0 ==> tree.children != []
    {
      ValidCounts(game.rules, tree, game.board, game.currentPlayer, true);
      var working := game.Clone();
      var outcome;
      ghost var path;
      tree, outcome, path := Uct(tree, working, rng, ucb, true);
    }
    var best := BestIndex(tree.children);
    m := tree.children[best].lastMove;
    ChildMoveLegal(game.rules, tree, game.board, game.currentPlayer, true, best);
    root := tree;
  }
}
