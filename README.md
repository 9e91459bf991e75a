# mcts-boardgames in Dafny

This project models a generic Monte Carlo Tree Search engine and the three board games that plug into it: tic-tac-toe, connect four and international checkers. It also models the "a1" text form of board coordinates. Every operation is stated against a specification and proved, except three that only compute: `Utils.Format`, `Utils.ParseCoords` and `Checkers.IsIn`. The lemmas about them (`Utils.FormatShape`, `Utils.ParseRow`, `Utils.RoundTrip`, and the checkers shape lemmas) state what they do.

- **Engine (`mcts.dfy`).** A board is described by a record of functions, `Mcts.Rules`:
  - the legal moves of a side (what `possible_moves_in` appends to an empty vector);
  - the effect of a move;
  - the winner of a finished position;
  - a measure that every legal move decreases. This measure is what makes a random rollout end.

  `Mcts.Conforming` states what a board must guarantee. The rest of the engine works like this:
  - `TwoPlayerGame` pairs a board with the side to move. It is a class whose `Play` updates both fields.
  - `Rng` stands for the random source. It is a class that counts its draws from an oracle.
  - The search tree is a `Node` value. `Uct` rebuilds it along the path it walks.
  - Scores are kept in half points: a win is worth 2, a draw 1, a loss 0.
  - The UCB1 value is an abstract function `Ucb`. Only the "first strictly greater value wins" selection rule is modelled.
- **Games.** Each of `ttt.dfy`, `connect4.dfy` and `checkers.dfy` defines its board and its rules as functions. Each also has methods that walk the board the way the program does, proved equal to those functions. Each game is shown to meet the engine's contract: `TicTacToe.RulesConform`, `ConnectFour.RulesConform` and `CheckersRules.RulesConform`.
- **Coordinates (`utils.dfy`).** The `Display` text of a square, and the arithmetic that turns a typed line back into a square.
- **Players (`players.dfy`).** `Player`, `Option` and the turn model.

## Model

| member | source | states |
|---|---|---|
| Players.Player.Opponent | src/mcts.rs:73-79 | the opponent is never the player itself |
| Players.OpponentInvolution | src/mcts.rs:73-79 | the opponent of the opponent is the player |
| Mcts.TwoPlayerGame.constructor | src/mcts.rs:16-22 | a new game holds the given board, with White to move |
| Mcts.TwoPlayerGame.Play | src/mcts.rs:24-27 | the board becomes the move played by the side to move, then the turn passes to the opponent |
| Mcts.TwoPlayerGame.PossibleMoves | src/mcts.rs:29-31 | the legal moves of the board for the side to move; `IsOver` and `Rollout` state what they mean for the game |
| Mcts.TwoPlayerGame.Winner | src/mcts.rs:37-39 | the board's winner, asked only where the board defines it; `Rollout` and `Uct` state that it is asked once the side to move is stuck |
| Mcts.TwoPlayerGame.IsOver | src/mcts.rs:33-35 | the game is over exactly when the side to move has no legal move |
| Mcts.TwoPlayerGame.Clone | src/mcts.rs:87-88 | the copy is a new object with the same rules, board and side to move |
| Mcts.Rng.Choose | src/mcts.rs:240 | the chosen index lies inside the non-empty list; one more draw is counted |
| Mcts.Rng.Shuffle | src/mcts.rs:133 | the array after the in-place shuffle is a permutation of the array before |
| Mcts.Rng.constructor | src/mcts.rs:82-83 | the random source handed to `search`: a fixed oracle of draws, with none drawn yet |
| Mcts.Credit | src/mcts.rs:175-178 | an outcome is worth 2 half points exactly for a win of the credited side, 1 exactly for a draw, and never more than 2 |
| Mcts.NewNode | src/mcts.rs:129-144 | the node has the given move, no child, score 0, visits 0, untried moves a permutation of the legal moves, and the side that just moved as its last player |
| Mcts.Update | src/mcts.rs:174-180 | visits rise by exactly 1; the score rises by the credit of the outcome for the last player; score ≤ 2·visits is kept; nothing else changes |
| Mcts.AddChild | src/mcts.rs:167-172 | exactly one child is appended, as a new node for the move; the existing children and every other field stay as they were |
| Mcts.SelectChildUcb1 | src/mcts.rs:146-165 | the chosen child has the greatest value, and every earlier child a strictly smaller one, so it is the first maximal child |
| Mcts.Rollout | src/mcts.rs:234-246 | the moves played form a legal continuation from the starting position; a conforming game ends the rollout in a position where the side to move has no move, and returns that board's winner |
| Mcts.PlayoutAppend | src/mcts.rs:239-243 | a legal move played where a continuation ends extends it by that move, to the position the move leads to |
| Mcts.PlayoutPrepend | src/mcts.rs:191-199 | a legal move followed by a continuation from its position is a continuation from the position before it |
| Mcts.ChildMoveLegal | src/mcts.rs:182-206 | the move of every child of a valid node is legal in that node's position |
| Mcts.ValidCounts | src/mcts.rs:167-172 | children plus untried moves number exactly the legal moves; both are empty exactly when there is no legal move |
| Mcts.Uct | src/mcts.rs:182-206 | one visit is added to the node. The tree invariant holds afterwards: untried moves and children's moves are exactly the legal moves, every child visited, visits = 1 + children's visits below the root. The returned outcome is the winner of the position where a legal continuation from the node's position ends with the side to move stuck; the node and the changed child gain the credit of that outcome. Terminal: no change to the children or the untried moves, and the outcome is the node's own winner. Select: only the first maximal child changes, with one more visit, and the continuation starts with its move. Expand: the last untried move is popped into one new child with one visit, whose score is the credit of the rollout's outcome, and the continuation starts with that move |
| Mcts.UctSelect | src/mcts.rs:189-193 | the selection branch: the node keeps its invariant and gains one visit and the credit of the outcome; only the first maximal child changes, with one more visit and the credit of the outcome; the outcome is the winner at the end of a legal continuation that starts with that child's move |
| Mcts.UctExpand | src/mcts.rs:195-204 | the expansion branch: the last untried move becomes one new last child with one visit, played by the opponent of the node's mover and credited with the rollout's outcome; that outcome is the winner at the end of a legal continuation that starts with the popped move; the node keeps its invariant and gains one visit and the credit of the outcome |
| Mcts.ValidNewChild | src/mcts.rs:195-201 | a newly created node updated once satisfies the invariant |
| Mcts.ValidAfterSelect | src/mcts.rs:189-193 | replacing a child by its updated version keeps the parent's invariant |
| Mcts.ValidAfterExpand | src/mcts.rs:195-204 | moving the last untried move into a new child keeps the parent's invariant |
| Mcts.MovesOfReplace | src/mcts.rs:190-192 | replacing a child by a node for the same move leaves the children's moves unchanged |
| Mcts.MoveToExpanded | src/mcts.rs:196-198 | popping the last untried move into a new last child keeps the multiset of untried and expanded moves |
| Mcts.SumVisitsBump | src/mcts.rs:190-192 | one more visit to one child adds exactly one to the children's visits |
| Mcts.SumVisitsAppend | src/mcts.rs:198-200 | a new child adds its visits to the children's visits |
| Mcts.BestIndex | src/mcts.rs:113-115 | the index of the first child of greatest score/visits ratio, the one a stable descending sort puts first |
| Mcts.Search | src/mcts.rs:82-115 | after `nbIter` iterations the root is valid and has exactly `nbIter` visits; the returned move is that of the first child of best ratio, and is a legal move |
| Utils.Decimal | src/utils.rs:17-18 | the decimal text of a number is non-empty and all digits |
| Utils.ParseUsize | src/utils.rs:37 | a parsed number fits in 64 bits |
| Utils.ToUpper | src/utils.rs:35 | lower-case ASCII letters go to upper case, everything else is unchanged |
| Utils.ParseCoords | src/utils.rs:34-52 | the arithmetic of one read line: a panic, a retry or a square; its properties are stated by `CaseInsensitive`, `ParseRow` and `RoundTrip` |
| Utils.DecimalValue | src/utils.rs:17-18 | the decimal text of n reads back as n |
| Utils.LetterCode | src/utils.rs:16 | the code of the column letter is 97 plus x truncated to 32 bits, so 97 + x for any x below 2^32 |
| Utils.LetterCodeOverflows | src/utils.rs:16 | the `u32` sum overflows exactly when x mod 2^32 is one of the last 97 values, and those codes are no characters, so `Format` excludes them |
| Utils.Format | src/utils.rs:14-20 | the letter of code `LetterCode(x)` followed by the decimal text of y + 1; its properties are stated by `FormatShape`, `FormatTruncates` and `RoundTrip` |
| Utils.FormatShape | src/utils.rs:14-20 | the text is the character of code `LetterCode(x)`, which is 97 + x for x below 2^32, followed by digits that parse to y + 1 |
| Utils.FormatTruncates | src/utils.rs:16 | two columns 2^32 apart print the same text |
| Utils.CaseInsensitive | src/utils.rs:35-43 | a lower-case letter gives the same outcome as its upper-case form |
| Utils.ParseRow | src/utils.rs:37-44 | a remainder that is not a number asks for another line; a positive number n gives x = letter − 'a' and y = n − 1, with no upper bound |
| Utils.RoundTrip | src/utils.rs:14-52 | for x < 26, parsing the formatted text of a square gives the square back |
| TicTacToe.New | src/ttt.rs:68-70 | all nine cells are empty |
| TicTacToe.WinnerFrom | src/ttt.rs:100-106 | no winner exactly when no line from k on is complete; otherwise the first complete line decides |
| TicTacToe.WinnerSpec | src/ttt.rs:88-107 | `Some(p)` exactly when some line holds three tokens of p and no earlier line is complete; `None` exactly when no line is complete |
| TicTacToe.Winner | src/ttt.rs:88-107 | the winner test from the first line; `WinnerFrom` and `WinnerSpec` state what it returns |
| TicTacToe.PlayEffect | src/ttt.rs:109-112 | the target cell holds p's token and every other cell is unchanged |
| TicTacToe.Play | src/ttt.rs:109-112 | p's token goes into the target cell; `PlayEffect` states its effect |
| TicTacToe.EmptyFromSound | src/ttt.rs:119-125 | the squares the walk lists from (x, y) on are empty squares of the board at or past (x, y), by strictly increasing row-major rank, so each once |
| TicTacToe.EmptyFromComplete | src/ttt.rs:119-125 | every empty square at or past (x, y) in row-major order is listed |
| TicTacToe.EmptyListed | src/ttt.rs:119-125 | a listed square is an empty square of the board |
| TicTacToe.EmptyFromLength | src/ttt.rs:119-125 | the walk lists at most one square per square still ahead of it, so at most nine |
| TicTacToe.PossibleMovesIn | src/ttt.rs:114-126 | the nested loops append exactly the legal moves to the vector |
| TicTacToe.Moves | src/ttt.rs:114-126 | no move once there is a winner, otherwise the row-major walk over the empty squares; `MovesAreEmptySquares` states what it lists |
| TicTacToe.EmptyOfRow | src/ttt.rs:120-124 | the inner loop appends the empty squares of row y, left to right, which is the walk over that row |
| TicTacToe.MovesAreEmptySquares | src/ttt.rs:114-126 | with a winner there is no move; with none, the moves are exactly the empty squares, each once, in row-major order |
| TicTacToe.EmptyFromAfterPlay | src/ttt.rs:109-125 | filling an empty square removes exactly it from the empty squares |
| TicTacToe.PlayFillsOneSquare | src/ttt.rs:109-125 | a legal move leaves one empty square fewer, out of at most nine |
| TicTacToe.RulesConform | src/ttt.rs:87-127 | tic-tac-toe meets the engine's board contract |
| ConnectFour.New | src/connect4.rs:156-158 | all 7×6 cells are empty |
| ConnectFour.LowestEmpty | src/connect4.rs:266-271 | the first empty cell from index i up, or none when all are full |
| ConnectFour.PlayEffect | src/connect4.rs:263-272 | the lowest empty cell of the column gets p's token and every other cell is unchanged; a full column is left as it was |
| ConnectFour.Play | src/connect4.rs:263-272 | the token goes into the lowest empty cell of the column; `PlayEffect` and `PlayKeepsGravity` state its effect |
| ConnectFour.PlayKeepsGravity | src/connect4.rs:266-271 | columns filled from the bottom stay filled from the bottom |
| ConnectFour.LineSquare | src/connect4.rs:163-259 | every square of every scanned line lies on the grid, one step along the line's direction per offset |
| ConnectFour.DiagonalLines | src/connect4.rs:207-259 | the diagonal scans start at (col, row) and (col, 5 − row) and run to the grid's edge |
| ConnectFour.Cells | src/connect4.rs:162-259 | the cells of a line are as many as its length |
| ConnectFour.CountCell | src/connect4.rs:169-181 | one cell of the run counter, as the fold over a line does it; the win is reported exactly when the cell extends a run of the last player to four |
| ConnectFour.Scan | src/connect4.rs:165-181 | the run counter over one line; `ScanSound` and `ScanComplete` state that it reports exactly four consecutive tokens |
| ConnectFour.FirstHit | src/connect4.rs:162-260 | the outcome of the first line, from line k on, whose run counter reports a player; `FirstHitSound` and `FirstHitComplete` state what it means |
| ConnectFour.StepAdd | src/connect4.rs:207-259 | stepping s squares along a direction and then i more is stepping s + i squares |
| ConnectFour.FirstHitStep | src/connect4.rs:162-259 | the run counter of line k settles it: a hit is the winner the scan returns from line k on, and no hit hands the decision to line k + 1 |
| ConnectFour.ScannedChain | src/connect4.rs:162-259 | when no line before `mid` hits, the outcome that settles the lines from `mid` settles those from `from` |
| ConnectFour.ScanRow | src/connect4.rs:165-182 | the inner loop over one row is the run counter of that row's line |
| ConnectFour.ScanRows | src/connect4.rs:163-183 | the horizontal scan returns the outcome of the six row lines, the first hit first |
| ConnectFour.ScanColumn | src/connect4.rs:187-204 | the inner loop over one column is the run counter of that column's line |
| ConnectFour.ScanColumns | src/connect4.rs:185-205 | the vertical scan returns the outcome of the seven column lines |
| ConnectFour.ScanAscendingFrom | src/connect4.rs:210-230 | the while loop over one ascending diagonal counts its runs |
| ConnectFour.AscendingCells | src/connect4.rs:214-215 | the ascending diagonal from (col, row) has min(7 − col, 6 − row) cells |
| ConnectFour.AscendingLine | src/connect4.rs:208-230 | the cells read by the while loop from (col, row) are those of scanned line 13 + 3·col + row |
| ConnectFour.ScannedAscending | src/connect4.rs:209-230 | the loop's outcome settles that line |
| ConnectFour.ScanAscendingColumn | src/connect4.rs:209-231 | the loop over rows 0-2 settles the three ascending lines that start in column col |
| ConnectFour.ScanAscending | src/connect4.rs:207-232 | the ascending scan returns the outcome of the twelve ascending lines |
| ConnectFour.ScanDescendingFrom | src/connect4.rs:237-257 | the while loop over one descending diagonal counts its runs |
| ConnectFour.DescendingCells | src/connect4.rs:241-242 | the descending diagonal from (col, 5 − row) has min(7 − col, 6 − row) cells |
| ConnectFour.DescendingLine | src/connect4.rs:235-257 | the cells read by the while loop from (col, 5 − row) are those of scanned line 25 + 3·col + row |
| ConnectFour.ScannedDescending | src/connect4.rs:236-257 | the loop's outcome settles that line |
| ConnectFour.ScanDescendingColumn | src/connect4.rs:236-258 | the loop over rows 0-2 settles the three descending lines that start in column col |
| ConnectFour.ScanDescending | src/connect4.rs:234-259 | the descending scan returns the outcome of the twelve descending lines |
| ConnectFour.WinnerScan | src/connect4.rs:162-261 | the four scans in order return exactly the winner function |
| ConnectFour.ScanSound | src/connect4.rs:169-181 | a run counter that reports p has seen four consecutive tokens of p |
| ConnectFour.ScanComplete | src/connect4.rs:169-181 | a run counter over cells that contain four consecutive tokens reports a hit |
| ConnectFour.LineFour | src/connect4.rs:162-259 | a hit on a line is four in a row on the grid |
| ConnectFour.RunFour | src/connect4.rs:169-181 | four consecutive tokens of p in a line's cells are four in a row on the grid along that line |
| ConnectFour.RunOnLine | src/connect4.rs:162-259 | four in a row lying on a scanned line are four consecutive tokens in that line's cells |
| ConnectFour.FirstHitSound | src/connect4.rs:162-261 | a winner p has four tokens in a row |
| ConnectFour.FirstHitComplete | src/connect4.rs:162-261 | a hit on any later line gives a winner |
| ConnectFour.FourFound | src/connect4.rs:162-261 | four in a row in any direction anywhere lies on a scanned line, so the scan finds a winner |
| ConnectFour.WinnerSpec | src/connect4.rs:162-261 | `Some(p)` only when p has four in a row; `None` exactly when no player does |
| ConnectFour.Winner | src/connect4.rs:162-261 | the first hit over all lines in the program's scan order; `WinnerScan` ties it to the loops and `WinnerSpec` to four in a row |
| ConnectFour.OpenFromSound | src/connect4.rs:279-283 | the columns listed from c on are columns at or past c whose top cell is empty, in strictly ascending order |
| ConnectFour.OpenFromComplete | src/connect4.rs:279-283 | every column at or past c whose top cell is empty is listed |
| ConnectFour.OpenListed | src/connect4.rs:279-283 | a listed column lies at or past c and has an empty top cell |
| ConnectFour.PossibleMovesIn | src/connect4.rs:274-284 | the loop appends exactly the legal moves to the vector |
| ConnectFour.Moves | src/connect4.rs:274-284 | no move once there is a winner, otherwise the open columns in ascending order; `MovesAreOpenColumns` states it |
| ConnectFour.MovesAreOpenColumns | src/connect4.rs:274-284 | no moves once there is a winner; otherwise exactly the columns with an empty top cell, ascending |
| ConnectFour.PlayInColumn | src/connect4.rs:263-272 | the loop over the column's cells plays exactly the play function |
| ConnectFour.EmptyInColumnFill | src/connect4.rs:266-271 | filling an empty cell of a column removes one empty cell |
| ConnectFour.EmptyInColumnBound | src/connect4.rs:266-271 | a column has no more empty cells than cells |
| ConnectFour.EmptyFromFill | src/connect4.rs:263-272 | filling an empty cell removes one empty cell from the grid, which has at most 6 per column |
| ConnectFour.PlayFillsOneCell | src/connect4.rs:263-284 | a legal move leaves one empty cell fewer, out of at most 42 |
| ConnectFour.RulesConform | src/connect4.rs:161-285 | connect four meets the engine's board contract |
| Checkers.New | src/checkers.rs:63-97 | the nested loops put uncrowned White tokens on rows 0-2 and uncrowned Black tokens on rows 5-7, on the squares with x + y even, nothing elsewhere, and a zero counter |
| Checkers.FillRow | src/checkers.rs:73-81 | the inner loop puts the token on every square of the row with x + row even and changes nothing else |
| Checkers.InitialRowCount | src/checkers.rs:72-94 | the number of initial tokens on a row, in closed form |
| Checkers.InitialTokenCount | src/checkers.rs:72-94 | the number of initial tokens of a side from row y on, in closed form |
| Checkers.InitialCounts | src/checkers.rs:63-97 | each side starts with 12 tokens |
| Checkers.RemainingShrinks | src/checkers.rs:177-180 | capturing a square not yet captured shrinks the set of squares left, which bounds the depth of the capture search |
| Checkers.ClearAll | src/checkers.rs:248-250 | exactly the captured squares are emptied |
| Checkers.PlayEffect | src/checkers.rs:243-256 | the token ends on dst, crowned on its last row; src and every captured square are empty; every other square is unchanged |
| Checkers.PlayCounter | src/checkers.rs:236-241 | the counter goes up by one exactly when a crowned token moves without capturing, and is reset to 0 otherwise |
| Checkers.Play | src/checkers.rs:235-257 | counter, move, captures and crown as a function; `PlayEffect` and `PlayCounter` state its effect and `PlayMove` ties it to the in-place steps |
| Checkers.SlideWalkShape | src/checkers.rs:113-136 | a slide starts on src, captures nothing and goes to an empty square on the board |
| Checkers.SlideWalkStep | src/checkers.rs:128-130 | an uncrowned token slides only to the first square of the walk |
| Checkers.SlideWalk | src/checkers.rs:113-136 | the slides along one direction; `SlideWalkShape` and `SlideWalkStep` state their shape and `SlideDirection` ties them to the while loop |
| Checkers.SlideDirectionShape | src/checkers.rs:111-136 | a slide along one direction goes to an empty square; an uncrowned token steps one square diagonally forward |
| Checkers.SlideDirectionsShape | src/checkers.rs:108-144 | slides from the remaining directions go to empty squares; an uncrowned token steps one square diagonally forward |
| Checkers.SlidesShape | src/checkers.rs:108-144 | every move without capture goes to an empty square; an uncrowned one is one diagonal step forward |
| Checkers.CapturesShape | src/checkers.rs:151-222 | every capture chain ends on an empty square and jumps only opponent tokens, each square at most once |
| Checkers.Captures | src/checkers.rs:151-222 | the capture chains from the current square; `CapturesShape` states their shape and `PossibleCaptures` ties them to the recursive search |
| Checkers.DirectionsShape | src/checkers.rs:158-216 | the same for the chains found along the remaining directions |
| Checkers.WalkShape | src/checkers.rs:163-214 | the same for the chains found along one direction |
| Checkers.CaptureWalk | src/checkers.rs:159-214 | the capture search along one direction; `WalkShape` states its shape and `CaptureDirection` ties it to the while loop |
| Checkers.MovesFromShape | src/checkers.rs:103-149 | every move of a token is well formed |
| Checkers.MovesFrom | src/checkers.rs:103-149 | the slides, then the capture chains, of one token; `MovesFromShape` states their shape and `PossibleMovesFrom` ties them to the loops |
| Checkers.SquareMovesShape | src/checkers.rs:269-275 | every move generated for a square holding a token of p is a well-formed move of p |
| Checkers.GenerateFromSquare | src/checkers.rs:267-277 | every generated move comes from one square of the board |
| Checkers.GenerateFromShape | src/checkers.rs:267-277 | every generated move of p is well formed |
| Checkers.GenerateFrom | src/checkers.rs:267-277 | the moves of the tokens of p in row-major order; `GenerateFromShape` states their shape and `CollectMoves` ties them to the nested loops |
| Checkers.MaxCapturedSpec | src/checkers.rs:280 | the fold bounds every capture count and, for a non-empty list, equals one |
| Checkers.MaxCaptured | src/checkers.rs:280 | the fold for the greatest capture count; `MaxCapturedSpec` states it |
| Checkers.WithCapturesSpec | src/checkers.rs:281 | `retain` keeps exactly the moves with the given capture count |
| Checkers.WithCaptures | src/checkers.rs:281 | the moves with a given capture count, in order; `WithCapturesSpec` states it |
| Checkers.KeepMost | src/checkers.rs:279-281 | the moves with the greatest capture count; `MaxCaptureRule` states it |
| Checkers.MaxCaptureRule | src/checkers.rs:259-282 | no moves once the counter reaches 25. Otherwise the legal moves are exactly the generated moves of greatest capture count, none captures less than another generated move, and a side has moves exactly when it generates one |
| Checkers.Moves | src/checkers.rs:259-282 | the legal moves; `MaxCaptureRule` and `MovesShape` state what they are |
| Checkers.MovesShape | src/checkers.rs:259-282 | every legal move is well formed and can be played without panicking |
| Checkers.WinnerSpec | src/checkers.rs:226-233 | no winner exactly when neither side can move; otherwise the winner is the side that still can; no winner once the counter reaches 25 |
| Checkers.Winner | src/checkers.rs:226-233 | the winner of a finished game; `WinnerSpec` states it |
| Checkers.SlideDirection | src/checkers.rs:113-136 | the while loop along one direction appends exactly the slides of that direction |
| Checkers.PossibleMovesFrom | src/checkers.rs:103-149 | the loops over the directions and the capture search append exactly the moves of the token |
| Checkers.SlidePair | src/checkers.rs:110-137 | the inner loop over both column directions of one row direction appends exactly their slides |
| Checkers.SlideStep | src/checkers.rs:113-136 | one column direction appends exactly the slides along it |
| Checkers.PossibleCaptures | src/checkers.rs:151-222 | the recursive search appends exactly the capture chains from the current square |
| Checkers.CapturePair | src/checkers.rs:159-217 | the inner loop over both column directions of one row direction appends exactly their chains, and clears `done` exactly when one jumped |
| Checkers.CaptureStep | src/checkers.rs:162-216 | one column direction appends exactly its chains and clears `done` exactly when it jumped |
| Checkers.CaptureDirection | src/checkers.rs:159-214 | the while loop along one direction appends exactly its chains and clears `done` exactly when it jumped |
| Checkers.CollectMoves | src/checkers.rs:267-277 | the nested loops append exactly the generated moves of p in row-major order |
| Checkers.CollectRow | src/checkers.rs:268-276 | the inner loop appends exactly the moves of one row |
| Checkers.SquareMovesInto | src/checkers.rs:269-275 | one square adds the moves of its token when it is one of p's |
| Checkers.MaxCapturesOf | src/checkers.rs:280 | the fold computes the greatest capture count |
| Checkers.Retain | src/checkers.rs:281 | `retain` keeps exactly the moves with that count, in order |
| Checkers.PossibleMovesIn | src/checkers.rs:259-282 | nothing is appended once the counter reaches 25; otherwise the maximum-capture rule is applied to the extended vector |
| Checkers.MovesFromEmptyList | src/mcts.rs:57-61 | the legal moves are what `possible_moves_in` leaves in an empty vector |
| Checkers.PlayMove | src/checkers.rs:235-257 | the in-place updates of counter, squares, captures and crown give exactly the play function |
| CheckersRules.WeightSet | src/checkers.rs:244-255 | writing a cell trades the weight of its old content for that of the new one |
| CheckersRules.RowWeightSet | src/checkers.rs:244-255 | writing a cell changes the weight of its row from column x on by the difference of the two contents |
| CheckersRules.RowsWeightSet | src/checkers.rs:244-255 | writing a cell changes the weight of the rows from y on by the difference of the two contents |
| CheckersRules.SetOther | src/checkers.rs:244-245 | writing one square leaves every other square unchanged |
| CheckersRules.ClearAllWeight | src/checkers.rs:248-250 | removing captured tokens never adds weight, and removing one takes at least 8 away |
| CheckersRules.MoveWeight | src/checkers.rs:244-245 | moving a token trades its weight on src for its weight on dst |
| CheckersRules.CrownWeight | src/checkers.rs:252-256 | crowning never adds weight |
| CheckersRules.ClearWeight | src/checkers.rs:247-250 | after the move, the captures take at least 8 away and leave the moved token on dst |
| CheckersRules.PlayWeight | src/checkers.rs:235-257 | a capture or a move of an uncrowned token lowers the weight of the board; no move raises it |
| CheckersRules.LegalMoveShortens | src/checkers.rs:235-282 | every legal move can be played and lowers the measure (weight first, then moves left before the draw cutoff) |
| CheckersRules.RulesConform | src/checkers.rs:225-283 | checkers meets the engine's board contract, so every game ends |

## Left out

- The UCB1 formula with `ln`, `sqrt` and `f32` arithmetic is an abstract function `Ucb`. Scores are exact half points rather than `f32`, and the final ratio is a real number. Rounding is not modelled.
- The `rand` crate's `shuffle` and `choose` use an oracle of draws (`Rng`). Only a permutation and an index in range are promised.
- `Mcts.Search` models the stable descending sort only by the child it puts first. The reordered children are not modelled, since only the head is used. The `println!` of the tree and the `Debug` printer are output only.
- `Mcts.Search` requires a position with a legal move and at least one iteration. Otherwise the program indexes an empty vector and panics.
- `Mcts.Uct` keeps the tree as a value rebuilt along the path. The program mutates the nodes in place through `&mut` borrows; no aliasing is involved.
- Boards are values. Writes to a cell are modelled as returning the updated board; `PlayInColumn` and `PlayMove` perform them step by step on a local value.
- The board contract gains a `measure` that each legal move decreases. Each game proves this, and it is what shows that `rollout` ends.
- The program's panics become preconditions:
  - `play` on a square off the board, or on checkers' empty `src`;
  - checkers' `winner` when both sides can move;
  - the crowning `unwrap`.
- Checkers' capture search passes the captured squares by value. The program pushes and pops one shared vector, which holds the same contents at each call.
- Checkers' `possible_moves_in` applies `retain` to the whole vector it was given, which is exactly what the model states. The engine always passes an empty one.
- Utils.ParseCoords: the `trim`, the stdin loop and the prompt are left out. Case mapping covers ASCII only; a non-ASCII first character, which `s[0..1]` would slice through, is a panic outcome.
- Utils.Format: the cast `self.x as u32` keeps the low 32 bits of x, which `LetterCode` models, so for example x = 2^32 prints `a` (`Utils.FormatTruncates`). What it does not model:
  - Codes that are not characters: the model requires the code to be a character, where the program's `from_u32(..).unwrap()` panics.
  - The overflow of `self.y + 1` for y = `usize::MAX`: the model requires y + 1 < 2^64. A debug build panics there, and a release build prints 0.
- Integer overflow: the model follows a debug build, whose overflow checks panic, not a release build, which wraps. This matters in three places:
  - The sum `97 + self.x as u32` in `Utils.LetterCode` is taken in `u32`. When x mod 2^32 ≥ 2^32 − 97 it overflows. `Format`'s requires excludes those columns, since a code of 2^32 or more is not a character. A release build wraps to the code 97 + x mod 2^32 − 2^32, between 0 and 96, and prints it: x = 2^32 − 1, y = 0 prints "`1".
  - `letter as usize - 'A' as usize` in `Coords2D::read` underflows for a first character below 'A'. `Utils.ParseCoords` returns `Panic` there. A release build wraps to an x near 2^64.
  - `number - 1` underflows for the number 0. `Utils.ParseCoords` returns `Panic` there too. A release build wraps to y = 2^64 − 1.
  - The other `Panic` outcomes of `ParseCoords`, an empty line and a non-ASCII first character, panic in both builds.
- All `Display` and `Debug` impls other than the `Display` of a square, and `draw_board`, are left out. So are every `choose_stdin`, and the prompt, stdin loop and `trim` of `Coords2D::read`, whose arithmetic `Utils.ParseCoords` models. So are src/app.rs, src/main.rs and src/grid.rs. These are console input and output, or glue around `search`.
- `Checkers.IsIn` has no contract of its own. It bounds every walk in `SlideDirection` and `CaptureDirection`, and the shape lemmas state that every square they produce is on the board.
