/**
 * The TicTacToe page: the same game on a 3 x 3 grid of rows, played against
 * an opponent at one of three levels that answers 700 ms after the human's
 * move, with a running score of human wins, opponent wins and ties.
 *
 * The grid is an `array2`: the page copies only the outer array of rows and
 * then writes into the shared row arrays, so a move updates the board in
 * place. The opponent's look-ahead works on deep copies and never touches
 * the board.
 */
module TicTacToe {
  import opened Wrappers
  import opened Board

  datatype Level = Easy | Medium | Hard

  /** A `{row, col}` cell reference. */
  datatype Pos = Pos(row: nat, col: nat)

  datatype Score = Score(player: nat, ai: nat, tie: nat)

  /** A grid of three rows of three cells. */
  predicate Is3x3(g: array2<Cell>) {
    g.Length0 == 3 && g.Length1 == 3
  }

  /** The grid read row by row: cell (r, c) is entry 3 * r + c. */
  ghost function Cells(g: array2<Cell>): (s: Squares)
    requires Is3x3(g)
    reads g
  {
    [g[0, 0], g[0, 1], g[0, 2], g[1, 0], g[1, 1], g[1, 2], g[2, 0], g[2, 1], g[2, 2]]
  }

  /** s is the grid read row by row. */
  ghost predicate Mirrors(g: array2<Cell>, s: Squares)
    reads g
  {
    Is3x3(g) && forall r, c :: 0 <= r < 3 && 0 <= c < 3 ==> g[r, c] == s[3 * r + c]
  }

  lemma MirrorIsCells(g: array2<Cell>, s: Squares)
    requires Mirrors(g, s)
    ensures Cells(g) == s
  {
    assert g[0, 0] == s[0] && g[0, 1] == s[1] && g[0, 2] == s[2];
    assert g[1, 0] == s[3] && g[1, 1] == s[4] && g[1, 2] == s[5];
    assert g[2, 0] == s[6] && g[2, 1] == s[7] && g[2, 2] == s[8];
  }

  /** The flat index of a cell reference. */
  function Flat(p: Pos): nat {
    3 * p.row + p.col
  }

  /** The cell reference of a flat index. */
  function PosOf(k: Index): (p: Pos)
    ensures p.row < 3 && p.col < 3 && Flat(p) == k
  {
    Pos(k / 3, k % 3)
  }

  /** The `{row, col}` of a flat index, when there is one. */
  function PosOfOption(k: Option<Index>): (p: Option<Pos>)
    ensures p.None? <==> k.None?
    ensures k.Some? ==> p == Some(PosOf(k.value))
  {
    match k
    case None => None
    case Some(i) => Some(PosOf(i))
  }

  /** The four corners in the order findBestMove lists them. */
  const CornerCells: seq<Pos> := [Pos(0, 0), Pos(0, 2), Pos(2, 0), Pos(2, 2)]

  /** Every reference in ps is a cell of a 3 x 3 grid. */
  predicate InGrid(ps: seq<Pos>) {
    forall k :: 0 <= k < |ps| ==> ps[k].row < 3 && ps[k].col < 3
  }

  lemma CornersInGrid()
    ensures InGrid(CornerCells)
  {
  }

  /** `ps.filter(({row, col}) => !g[row][col])`: the references in ps to empty cells, in the order of ps. */
  function FreePositions(g: array2<Cell>, ps: seq<Pos>): (r: seq<Pos>)
    requires Is3x3(g) && InGrid(ps)
    reads g
    ensures forall q :: q in r <==> q in ps && g[q.row, q.col] == Empty
    ensures |r| <= |ps|
  {
    if ps == [] then []
    else
      var last := ps[|ps| - 1];
      FreePositions(g, ps[..|ps| - 1]) + (if g[last.row, last.col] == Empty then [last] else [])
  }

  /** The references of the empty cells among the first n in row-major order, in that order. */
  function EmptyPositionsBelow(s: Squares, n: nat): seq<Pos>
    requires n <= 9
  {
    if n == 0 then []
    else EmptyPositionsBelow(s, n - 1) + (if s[n - 1] == Empty then [PosOf(n - 1)] else [])
  }

  /** The collected references are exactly those of the empty cells among the first n. */
  lemma {:induction false} EmptyPositionsBelowExactly(s: Squares, n: nat)
    requires n <= 9
    ensures forall q :: q in EmptyPositionsBelow(s, n) <==>
      q.row < 3 && q.col < 3 && Flat(q) < n && s[Flat(q)] == Empty
  {
    if n > 0 {
      EmptyPositionsBelowExactly(s, n - 1);
      forall q: Pos | q.row < 3 && q.col < 3 && Flat(q) == n - 1
        ensures q == PosOf(n - 1)
      {
      }
    }
  }

  /**
   * makeRandomMove's choice on a board: null when no cell is empty, else the
   * empty cell the random draw `pick` selects in row-major order.
   */
  function RandomCell(s: Squares, pick: nat): (m: Option<Pos>)
    ensures m.None? <==> Full(s)
    ensures m.Some? ==> m.value.row < 3 && m.value.col < 3 && s[Flat(m.value)] == Empty
  {
    var e := EmptyPositionsBelow(s, 9);
    EmptyPositionsBelowExactly(s, 9);
    if e == [] then
      assert Full(s) by {
        forall k: Index
          ensures s[k] != Empty
        {
          assert PosOf(k) !in e;
        }
      }
      None
    else
      Some(Choose(e, pick))
  }

  /**
   * Whatever findBestMove returns on a board is an empty cell, and it returns
   * nothing only on a full board: a winning or blocking cell is empty, the
   * center is taken only when free, the corners offered are free ones, and
   * the last resort is makeRandomMove.
   */
  lemma SmartMoveIsFree(s: Squares, corners: seq<Pos>, pick: nat, move: Option<Pos>)
    requires forall q :: q in corners ==> q.row < 3 && q.col < 3 && s[Flat(q)] == Empty
    requires FirstCompleting(s, O).Some? ==> move == PosOfOption(FirstCompleting(s, O))
    requires FirstCompleting(s, O).None? && FirstCompleting(s, X).Some? ==>
      move == PosOfOption(FirstCompleting(s, X))
    requires NoThreat(s) && s[Center] == Empty ==> move == Some(Pos(1, 1))
    requires NoThreat(s) && s[Center] != Empty && corners != [] ==> move == Some(Choose(corners, pick))
    requires NoThreat(s) && s[Center] != Empty && corners == [] ==> move == RandomCell(s, pick)
    ensures move.None? <==> Full(s)
    ensures move.Some? ==> move.value.row < 3 && move.value.col < 3 && s[Flat(move.value)] == Empty
  {
  }

  /** SmartMoveIsFree for findBestMove on the page's own grid. */
  lemma BestMoveIsFree(g: array2<Cell>, s: Squares, pick: nat, move: Option<Pos>)
    requires Mirrors(g, s)
    requires FirstCompleting(s, O).Some? ==> move == PosOfOption(FirstCompleting(s, O))
    requires FirstCompleting(s, O).None? && FirstCompleting(s, X).Some? ==>
      move == PosOfOption(FirstCompleting(s, X))
    requires NoThreat(s) && s[Center] == Empty ==> move == Some(Pos(1, 1))
    requires NoThreat(s) && s[Center] != Empty && FreePositions(g, CornerCells) != [] ==>
      move == Some(Choose(FreePositions(g, CornerCells), pick))
    requires NoThreat(s) && s[Center] != Empty && FreePositions(g, CornerCells) == [] ==>
      move == RandomCell(s, pick)
    ensures move.None? <==> Full(s)
    ensures move.Some? ==> move.value.row < 3 && move.value.col < 3 && s[Flat(move.value)] == Empty
  {
    var corners := FreePositions(g, CornerCells);
    forall q | q in corners
      ensures q.row < 3 && q.col < 3 && s[Flat(q)] == Empty
    {
      assert q in CornerCells;
    }
    SmartMoveIsFree(s, corners, pick, move);
  }

  /**
   * The evaluator: rows, then columns, then the diagonal and the
   * anti-diagonal; the first complete line's mark, or Empty.
   */
  method CheckWinner(g: array2<Cell>) returns (w: Cell)
    requires Is3x3(g)
    ensures w == Winner(Cells(g))
  {
    ghost var s := Cells(g);
    // Check rows
    for i := 0 to 3
      invariant WinnerFrom(s, i) == Winner(s)
    {
      assert Lines[i] == Line(3 * i, 3 * i + 1, 3 * i + 2) by {
        assert i == 0 || i == 1 || i == 2;
      }
      if g[i, 0] != Empty && g[i, 0] == g[i, 1] && g[i, 0] == g[i, 2] {
        return g[i, 0];
      }
    }
    // Check columns
    for i := 0 to 3
      invariant WinnerFrom(s, 3 + i) == Winner(s)
    {
      assert Lines[3 + i] == Line(i, 3 + i, 6 + i) by {
        assert i == 0 || i == 1 || i == 2;
      }
      if g[0, i] != Empty && g[0, i] == g[1, i] && g[0, i] == g[2, i] {
        return g[0, i];
      }
    }
    // Check diagonals
    if g[0, 0] != Empty && g[0, 0] == g[1, 1] && g[0, 0] == g[2, 2] {
      return g[0, 0];
    }
    if g[0, 2] != Empty && g[0, 2] == g[1, 1] && g[0, 2] == g[2, 0] {
      return g[0, 2];
    }
    return Empty;
  }

  /** Every cell of the grid is set; stops at the first empty one. */
  method IsBoardFull(g: array2<Cell>) returns (full: bool)
    requires Is3x3(g)
    ensures full == Full(Cells(g))
  {
    for i := 0 to 3
      invariant forall r, c :: 0 <= r < i && 0 <= c < 3 ==> g[r, c] != Empty
    {
      for j := 0 to 3
        invariant forall r, c :: (0 <= r < i && 0 <= c < 3) || (r == i && 0 <= c < j) ==> g[r, c] != Empty
      {
        if g[i, j] == Empty {
          assert Cells(g)[3 * i + j] == Empty;
          return false;
        }
      }
    }
    forall k | 0 <= k < 9
      ensures Cells(g)[k] != Empty
    {
      assert Cells(g)[3 * (k / 3) + k % 3] != Empty;
    }
    return true;
  }

  /** `Array(3).fill(null).map(() => Array(3).fill(null))`: a fresh grid of empty cells. */
  method NewGrid() returns (g: array2<Cell>)
    ensures fresh(g) && Mirrors(g, EmptyBoard)
  {
    g := new Cell[3, 3]((r, c) => Empty);
  }

  /** The loop of makeRandomMove: the references of the empty cells, row by row. */
  method EmptyCellsOf(g: array2<Cell>, ghost s: Squares) returns (emptyCells: seq<Pos>)
    requires Mirrors(g, s)
    ensures emptyCells == EmptyPositionsBelow(s, 9)
  {
    ghost var n := 0;
    emptyCells := [];
    for i := 0 to 3
      invariant n == 3 * i && emptyCells == EmptyPositionsBelow(s, n)
    {
      for j := 0 to 3
        invariant n == 3 * i + j && emptyCells == EmptyPositionsBelow(s, n)
      {
        assert g[i, j] == s[n];
        if g[i, j] == Empty {
          assert PosOf(n) == Pos(i, j);
          emptyCells := emptyCells + [Pos(i, j)];
        }
        n := n + 1;
      }
    }
  }

  /** `grid[r][c] = m`, with the row-major view following the write. */
  method SetCell(g: array2<Cell>, ghost s: Squares, r: nat, c: nat, m: Cell)
    requires Mirrors(g, s) && r < 3 && c < 3
    modifies g
    ensures Mirrors(g, s[3 * r + c := m])
  {
    g[r, c] := m;
  }

  /**
   * The JSON round trip `JSON.parse(JSON.stringify(grid))`: a fresh grid with
   * the same cells, sharing nothing with the original.
   */
  method DeepCopy(g: array2<Cell>) returns (t: array2<Cell>)
    requires Is3x3(g)
    ensures fresh(t) && Is3x3(t) && Cells(t) == Cells(g)
  {
    t := new Cell[3, 3]((r: nat, c: nat) requires r < 3 && c < 3 reads g => g[r, c]);
  }

  /**
   * The body of findBestMove's scans for one cell: when it is empty, p's mark
   * goes into that cell of a deep copy and the evaluator is asked whether p
   * has won.
   */
  method TryMark(currentBoard: array2<Cell>, i: nat, j: nat, p: Player) returns (wins: bool)
    requires Is3x3(currentBoard) && i < 3 && j < 3
    ensures wins == Completes(Cells(currentBoard), 3 * i + j, p)
  {
    if currentBoard[i, j] != Empty {
      return false;
    }
    var tempBoard := DeepCopy(currentBoard);
    tempBoard[i, j] := Mark(p);
    assert Cells(tempBoard) == Cells(currentBoard)[3 * i + j := Mark(p)];
    var w := CheckWinner(tempBoard);
    return w == Mark(p);
  }

  /**
   * One scan of findBestMove: in row-major order, tries p's mark in each
   * empty cell of a deep copy and stops at the first that makes the
   * evaluator report p.
   */
  method ScanForCompletion(currentBoard: array2<Cell>, p: Player) returns (move: Option<Pos>)
    requires Is3x3(currentBoard)
    ensures move == PosOfOption(FirstCompleting(Cells(currentBoard), p))
  {
    ghost var s := Cells(currentBoard);
    for i := 0 to 3
      invariant FirstCompleting(s, p) == FirstCompletingFrom(s, p, 3 * i)
    {
      for j := 0 to 3
        invariant FirstCompleting(s, p) == FirstCompletingFrom(s, p, 3 * i + j)
      {
        var wins := TryMark(currentBoard, i, j, p);
        if wins {
          assert FirstCompleting(s, p) == Some(3 * i + j);
          assert PosOf(3 * i + j) == Pos(i, j);
          return Some(Pos(i, j));
        }
      }
    }
    return None;
  }

  class Game {
    var board: array2<Cell>
    var currentPlayer: Player
    var winner: Cell
    var aiLevel: Level
    var score: Score
    var gameOver: bool
    var loading: bool
    /** The 700 ms timeout the effect has set for the opponent's turn and not yet fired or cleared. */
    var timerPending: bool
    /** The level in the closure of that timeout's callback. */
    var pendingLevel: Level
    /** The board read row by row. */
    ghost var cells: Squares

    /** The board is a 3 x 3 grid, the recorded winner is the evaluator's, and the game is over exactly when someone has won or the grid is full. */
    ghost predicate Consistent()
      reads this, board
    {
      && Mirrors(board, cells)
      && winner == Winner(cells)
      && (gameOver <==> winner != Empty || Full(cells))
    }

    /** Besides, an opponent turn is scheduled exactly when it is O's move in an unfinished game, and it keeps `loading` set. */
    ghost predicate Valid()
      reads this, board
    {
      && Consistent()
      && (timerPending ==> currentPlayer == O && !gameOver && loading)
      && (currentPlayer == O && !gameOver ==> timerPending)
    }

    constructor ()
      ensures Valid() && fresh(board)
      ensures cells == EmptyBoard && currentPlayer == X && winner == Empty
      ensures aiLevel == Medium && score == Score(0, 0, 0)
      ensures !gameOver && !loading && !timerPending
    {
      var grid := NewGrid();
      board := grid;
      currentPlayer := X;
      winner := Empty;
      aiLevel := Medium;
      score := Score(0, 0, 0);
      gameOver := false;
      loading := false;
      timerPending := false;
      pendingLevel := Medium;
      cells := EmptyBoard;
      EmptyBoardIsOpen();
    }

    /** The level buttons: always enabled, and a turn already scheduled keeps the level it captured. */
    method SetAiLevel(level: Level)
      requires Valid()
      modifies this`aiLevel
      ensures Valid() && aiLevel == level
    {
      aiLevel := level;
    }

    /** A click on (row, col) is taken only on an empty cell while X is to move in an unfinished game and the opponent is not thinking. */
    predicate AcceptsClick(row: nat, col: nat)
      reads this, board
    {
      && Is3x3(board) && row < 3 && col < 3
      && board[row, col] == Empty && winner == Empty
      && currentPlayer == X && !gameOver && !loading
    }

    /**
     * The human's click. An accepted click writes X into the cell in place
     * and nothing else; a win or a full grid ends the game and scores it,
     * otherwise it is O's turn and the effect schedules it at the current
     * level. A click that is not accepted changes nothing.
     */
    method HandleCellClick(row: nat, col: nat)
      requires Valid() && row < 3 && col < 3
      modifies this, board
      ensures Valid() && board == old(board)
      ensures aiLevel == old(aiLevel)
      ensures !old(AcceptsClick(row, col)) ==> unchanged(this) && unchanged(board)
      ensures old(AcceptsClick(row, col)) ==> cells == old(cells)[3 * row + col := Mark(X)]
      ensures old(AcceptsClick(row, col)) && winner != Empty ==>
        winner == Mark(X) && gameOver && currentPlayer == X && !timerPending && !loading &&
        pendingLevel == old(pendingLevel) && score == old(score).(player := old(score).player + 1)
      ensures old(AcceptsClick(row, col)) && winner == Empty && gameOver ==>
        currentPlayer == X && !timerPending && !loading && pendingLevel == old(pendingLevel) &&
        score == old(score).(tie := old(score).tie + 1)
      ensures old(AcceptsClick(row, col)) && !gameOver ==>
        currentPlayer == O && loading && timerPending && pendingLevel == aiLevel && score == old(score)
    {
      if board[row, col] != Empty || winner != Empty || currentPlayer == O || gameOver || loading {
        return;
      }
      MoveWinsOnlyForMover(cells, 3 * row + col, X);
      SetCell(board, cells, row, col, Mark(currentPlayer));
      cells := cells[3 * row + col := Mark(X)];
      ScoreHumanMove();
    }

    /**
     * The rest of handleCellClick once X's mark is on the grid: a win is
     * recorded and scored for the player, a full grid as a tie, and otherwise
     * O is to move and the effect schedules the opponent's turn.
     */
    method ScoreHumanMove()
      requires Mirrors(board, cells) && (Winner(cells) == Empty || Winner(cells) == Mark(X))
      requires currentPlayer == X && winner == Empty && !gameOver && !loading && !timerPending
      modifies this`winner, this`score, this`gameOver, this`currentPlayer, this`loading, this`timerPending, this`pendingLevel
      ensures Valid()
      ensures winner != Empty ==>
        winner == Mark(X) && gameOver && currentPlayer == X && !timerPending && !loading &&
        pendingLevel == old(pendingLevel) && score == old(score).(player := old(score).player + 1)
      ensures winner == Empty && gameOver ==>
        currentPlayer == X && !timerPending && !loading && pendingLevel == old(pendingLevel) &&
        score == old(score).(tie := old(score).tie + 1)
      ensures !gameOver ==>
        currentPlayer == O && loading && timerPending && pendingLevel == aiLevel && score == old(score)
    {
      MirrorIsCells(board, cells);
      var gameWinner := CheckWinner(board);
      assert gameWinner == Winner(cells);
      if gameWinner != Empty {
        winner := gameWinner;
        if gameWinner == Mark(X) {
          score := score.(player := score.player + 1);
        } else {
          // Only the player who just moved can have completed a line.
          assert false;
        }
        gameOver := true;
      } else {
        var full := IsBoardFull(board);
        assert full == Full(cells);
        if full {
          score := score.(tie := score.tie + 1);
          gameOver := true;
        } else {
          currentPlayer := O;
          // The effect on [currentPlayer, winner, gameOver]: O is to move in an
          // unfinished game, so the opponent starts thinking and its turn is
          // scheduled with the level of this render.
          loading := true;
          timerPending := true;
          pendingLevel := aiLevel;
        }
      }
    }

    /**
     * makeRandomMove: collects the empty cells row by row and picks one with
     * the random draw, or null when there is none.
     */
    method MakeRandomMove(pick: nat) returns (move: Option<Pos>)
      requires Consistent()
      ensures move == RandomCell(cells, pick)
    {
      // Find all empty cells
      var emptyCells := EmptyCellsOf(board, cells);
      if |emptyCells| == 0 {
        return None;
      }

      // Pick a random empty cell
      var randomIndex := pick % |emptyCells|;
      return Some(emptyCells[randomIndex]);
    }

    /**
     * findBestMove on `currentBoard`: the first cell in row-major order that
     * wins for O, else the first that blocks a win for X, else the center,
     * else a random free corner, else makeRandomMove on the page's board.
     * `depth` is not used.
     */
    method FindBestMove(currentBoard: array2<Cell>, depth: int, pick: nat) returns (move: Option<Pos>)
      requires Is3x3(currentBoard) && Consistent()
      ensures FirstCompleting(Cells(currentBoard), O).Some? ==>
        move == PosOfOption(FirstCompleting(Cells(currentBoard), O))
      ensures FirstCompleting(Cells(currentBoard), O).None? && FirstCompleting(Cells(currentBoard), X).Some? ==>
        move == PosOfOption(FirstCompleting(Cells(currentBoard), X))
      ensures NoThreat(Cells(currentBoard)) && Cells(currentBoard)[Center] == Empty ==>
        move == Some(Pos(1, 1))
      ensures NoThreat(Cells(currentBoard)) && Cells(currentBoard)[Center] != Empty &&
              FreePositions(currentBoard, CornerCells) != [] ==>
        move == Some(Choose(FreePositions(currentBoard, CornerCells), pick))
      ensures NoThreat(Cells(currentBoard)) && Cells(currentBoard)[Center] != Empty &&
              FreePositions(currentBoard, CornerCells) == [] ==>
        move == RandomCell(cells, pick)
    {
      ghost var s := Cells(currentBoard);
      // Check if AI can win in one move
      var win := ScanForCompletion(currentBoard, O);
      if win.Some? {
        return win;
      }
      assert FirstCompleting(s, O).None?;
      // Check if player can win in one move and block
      var block := ScanForCompletion(currentBoard, X);
      if block.Some? {
        return block;
      }
      assert NoThreat(s);
      // Try to take center if available
      if currentBoard[1, 1] == Empty {
        assert s[Center] == Empty;
        return Some(Pos(1, 1));
      }
      assert s[Center] != Empty;
      // Try to take corners
      CornersInGrid();
      var availableCorners := FreePositions(currentBoard, CornerCells);
      if |availableCorners| > 0 {
        return Some(availableCorners[pick % |availableCorners|]);
      }
      // Make a random move
      move := MakeRandomMove(pick);
    }

    /**
     * The switch on the level inside makeAiMove: easy plays makeRandomMove,
     * medium plays findBestMove when the coin (`Math.random() > 0.5`) comes
     * up and makeRandomMove otherwise, hard always plays findBestMove.
     */
    method SelectMove(level: Level, coin: bool, pick: nat) returns (move: Option<Pos>)
      requires Consistent()
      ensures move.None? <==> Full(cells)
      ensures move.Some? ==> move.value.row < 3 && move.value.col < 3 && cells[Flat(move.value)] == Empty
      ensures level == Easy || (level == Medium && !coin) ==> move == RandomCell(cells, pick)
      ensures (level == Hard || (level == Medium && coin)) && FirstCompleting(cells, O).Some? ==>
        move == PosOfOption(FirstCompleting(cells, O))
      ensures (level == Hard || (level == Medium && coin)) && FirstCompleting(cells, O).None? &&
              FirstCompleting(cells, X).Some? ==>
        move == PosOfOption(FirstCompleting(cells, X))
      ensures (level == Hard || (level == Medium && coin)) && NoThreat(cells) && cells[Center] == Empty ==>
        move == Some(Pos(1, 1))
      ensures (level == Hard || (level == Medium && coin)) && NoThreat(cells) && cells[Center] != Empty &&
              FreePositions(board, CornerCells) != [] ==>
        move == Some(Choose(FreePositions(board, CornerCells), pick))
      ensures (level == Hard || (level == Medium && coin)) && NoThreat(cells) && cells[Center] != Empty &&
              FreePositions(board, CornerCells) == [] ==>
        move == RandomCell(cells, pick)
    {
      MirrorIsCells(board, cells);
      if level == Easy || (level == Medium && !coin) {
        move := MakeRandomMove(pick);
      } else {
        move := FindBestMove(board, if level == Medium then 1 else 3, pick);
        BestMoveIsFree(board, cells, pick, move);
      }
    }

    /**
     * The rest of makeAiMove once a cell is chosen: O's mark goes into the
     * grid in place; an O win is recorded and scored for the opponent, a
     * full grid as a tie, and otherwise it is X's turn.
     */
    method PlaceAiMark(move: Pos)
      requires Consistent() && !gameOver && move.row < 3 && move.col < 3 && cells[Flat(move)] == Empty
      modifies board, this`cells, this`winner, this`score, this`gameOver, this`currentPlayer
      ensures Consistent()
      ensures cells == old(cells)[Flat(move) := Mark(O)]
      ensures winner != Empty ==>
        winner == Mark(O) && gameOver && currentPlayer == old(currentPlayer) &&
        score == old(score).(ai := old(score).ai + 1)
      ensures winner == Empty && gameOver ==>
        currentPlayer == old(currentPlayer) && score == old(score).(tie := old(score).tie + 1)
      ensures !gameOver ==> currentPlayer == X && score == old(score)
    {
      var k := 3 * move.row + move.col;
      MoveWinsOnlyForMover(cells, k, O);
      SetCell(board, cells, move.row, move.col, Mark(O));
      cells := cells[k := Mark(O)];
      ScoreAiMove();
    }

    /**
     * The rest of makeAiMove once O's mark is on the grid: a win is recorded
     * and scored for the opponent, a full grid as a tie, and otherwise it is
     * X's turn.
     */
    method ScoreAiMove()
      requires Mirrors(board, cells) && (Winner(cells) == Empty || Winner(cells) == Mark(O))
      requires winner == Empty && !gameOver
      modifies this`winner, this`score, this`gameOver, this`currentPlayer
      ensures Consistent()
      ensures winner != Empty ==>
        winner == Mark(O) && gameOver && currentPlayer == old(currentPlayer) &&
        score == old(score).(ai := old(score).ai + 1)
      ensures winner == Empty && gameOver ==>
        currentPlayer == old(currentPlayer) && score == old(score).(tie := old(score).tie + 1)
      ensures !gameOver ==> currentPlayer == X && score == old(score)
    {
      MirrorIsCells(board, cells);
      var gameWinner := CheckWinner(board);
      assert gameWinner == Winner(cells);
      if gameWinner != Empty {
        winner := gameWinner;
        if gameWinner == Mark(O) {
          score := score.(ai := score.ai + 1);
        }
        gameOver := true;
      } else {
        var full := IsBoardFull(board);
        assert full == Full(cells);
        if full {
          score := score.(tie := score.tie + 1);
          gameOver := true;
        } else {
          currentPlayer := X;
        }
      }
    }

    /**
     * makeAiMove: nothing happens once the game is won or over; otherwise the
     * level's strategy picks a cell and, when it found one, O plays it.
     */
    method MakeAiMove(level: Level, coin: bool, pick: nat) returns (move: Option<Pos>)
      requires Consistent()
      modifies board, this`cells, this`winner, this`score, this`gameOver, this`currentPlayer
      ensures Consistent()
      ensures old(gameOver) ==> move.None? && unchanged(this) && unchanged(board)
      ensures !old(gameOver) ==>
        move.Some? && move.value.row < 3 && move.value.col < 3 && old(cells)[Flat(move.value)] == Empty &&
        cells == old(cells)[Flat(move.value) := Mark(O)]
      ensures !old(gameOver) && (level == Easy || (level == Medium && !coin)) ==>
        move == RandomCell(old(cells), pick)
      ensures !old(gameOver) && (level == Hard || (level == Medium && coin)) &&
              FirstCompleting(old(cells), O).Some? ==>
        move == PosOfOption(FirstCompleting(old(cells), O)) && winner == Mark(O)
      ensures !old(gameOver) && (level == Hard || (level == Medium && coin)) &&
              FirstCompleting(old(cells), O).None? && FirstCompleting(old(cells), X).Some? ==>
        move == PosOfOption(FirstCompleting(old(cells), X))
      ensures !old(gameOver) && (level == Hard || (level == Medium && coin)) &&
              NoThreat(old(cells)) && old(cells)[Center] == Empty ==>
        move == Some(Pos(1, 1))
      ensures !old(gameOver) && (level == Hard || (level == Medium && coin)) &&
              NoThreat(old(cells)) && old(cells)[Center] != Empty && old(FreePositions(board, CornerCells)) != [] ==>
        move == Some(Choose(old(FreePositions(board, CornerCells)), pick))
      ensures !old(gameOver) && (level == Hard || (level == Medium && coin)) &&
              NoThreat(old(cells)) && old(cells)[Center] != Empty && old(FreePositions(board, CornerCells)) == [] ==>
        move == RandomCell(old(cells), pick)
      ensures winner != Empty && !old(gameOver) ==>
        winner == Mark(O) && score == old(score).(ai := old(score).ai + 1)
      ensures winner == Empty && gameOver && !old(gameOver) ==> score == old(score).(tie := old(score).tie + 1)
      ensures !gameOver ==> currentPlayer == X && score == old(score)
    {
      if winner != Empty || gameOver {
        return None;
      }
      move := SelectMove(level, coin, pick);
      if move.Some? {
        PlaceAiMark(move.value);
      }
    }

    /**
     * The 700 ms timeout's callback: makeAiMove at the level it captured,
     * then the opponent stops thinking and it is X's move unless the game
     * has ended.
     */
    method AiTurn(coin: bool, pick: nat) returns (move: Option<Pos>)
      requires Valid() && timerPending
      modifies board, this`cells, this`winner, this`score, this`gameOver, this`currentPlayer,
        this`loading, this`timerPending
      ensures Valid() && !loading && !timerPending
      ensures move.Some? && move.value.row < 3 && move.value.col < 3 && old(cells)[Flat(move.value)] == Empty &&
        cells == old(cells)[Flat(move.value) := Mark(O)]
      ensures old(pendingLevel) == Easy || (old(pendingLevel) == Medium && !coin) ==>
        move == RandomCell(old(cells), pick)
      ensures (old(pendingLevel) == Hard || (old(pendingLevel) == Medium && coin)) &&
              FirstCompleting(old(cells), O).Some? ==>
        move == PosOfOption(FirstCompleting(old(cells), O)) &&
        winner == Mark(O) && gameOver && score == old(score).(ai := old(score).ai + 1)
      ensures (old(pendingLevel) == Hard || (old(pendingLevel) == Medium && coin)) &&
              FirstCompleting(old(cells), O).None? && FirstCompleting(old(cells), X).Some? ==>
        move == PosOfOption(FirstCompleting(old(cells), X))
      ensures (old(pendingLevel) == Hard || (old(pendingLevel) == Medium && coin)) &&
              NoThreat(old(cells)) && old(cells)[Center] == Empty ==>
        move == Some(Pos(1, 1))
      ensures (old(pendingLevel) == Hard || (old(pendingLevel) == Medium && coin)) &&
              NoThreat(old(cells)) && old(cells)[Center] != Empty && old(FreePositions(board, CornerCells)) != [] ==>
        move == Some(Choose(old(FreePositions(board, CornerCells)), pick))
      ensures (old(pendingLevel) == Hard || (old(pendingLevel) == Medium && coin)) &&
              NoThreat(old(cells)) && old(cells)[Center] != Empty && old(FreePositions(board, CornerCells)) == [] ==>
        move == RandomCell(old(cells), pick)
      ensures winner != Empty ==> winner == Mark(O) && gameOver && score == old(score).(ai := old(score).ai + 1)
      ensures winner == Empty && gameOver ==> score == old(score).(tie := old(score).tie + 1)
      ensures !gameOver ==> currentPlayer == X && score == old(score)
    {
      timerPending := false;
      move := MakeAiMove(pendingLevel, coin, pick);
      loading := false;
    }

    /**
     * resetGame as written: a fresh empty grid, X to move, no winner, game
     * not over. The score and the level stay. When the opponent's turn was
     * scheduled, the change of player makes the effect's cleanup clear that
     * timeout, so its `setLoading(false)` never runs.
     */
    method ResetGame()
      requires Valid()
      modifies this
      ensures Valid() && fresh(board)
      ensures cells == EmptyBoard && currentPlayer == X && winner == Empty && !gameOver
      ensures score == old(score) && aiLevel == old(aiLevel) && loading == old(loading)
      ensures !timerPending
    {
      board := NewGrid();
      cells := EmptyBoard;
      currentPlayer := X;
      winner := Empty;
      gameOver := false;
      timerPending := false;
      EmptyBoardIsOpen();
    }

    /**
     * resetGame as evidently intended: as above, and the opponent is no
     * longer thinking, so every cell of the new grid takes a click.
     */
    method ResetGameClearingLoading()
      requires Valid()
      modifies this
      ensures Valid() && fresh(board)
      ensures cells == EmptyBoard && currentPlayer == X && winner == Empty && !gameOver
      ensures score == old(score) && aiLevel == old(aiLevel) && !loading && !timerPending
      ensures forall r, c :: r < 3 && c < 3 ==> AcceptsClick(r, c)
    {
      board := NewGrid();
      cells := EmptyBoard;
      currentPlayer := X;
      winner := Empty;
      gameOver := false;
      timerPending := false;
      loading := false;
      EmptyBoardIsOpen();
    }
  }

  /** X's opening click at (0, 0) leaves the game open with O to move. */
  lemma OpeningIsOpen()
    ensures Winner(EmptyBoard[0 := Mark(X)]) == Empty && !Full(EmptyBoard[0 := Mark(X)])
  {
    var s := EmptyBoard[0 := Mark(X)];
    assert s[1] == Empty;
    MoveWinsOnlyForMover(EmptyBoard, 0, X) by { EmptyBoardIsOpen(); }
    NoWinnerIffNoCompleteLine(s, 0);
  }

  /**
   * "New game" pressed while the opponent is thinking: after X's opening
   * click the 700 ms turn is pending; resetGame clears it, `loading` stays
   * set, and no cell takes a click, with no timeout left to clear it.
   */
  method ResetDuringOpponentDelay() returns (g: Game)
    ensures g.Valid() && g.loading && !g.timerPending
    ensures forall r, c :: !g.AcceptsClick(r, c)
  {
    g := new Game();
    OpeningIsOpen();
    assert g.board[0, 0] == Empty;
    g.HandleCellClick(0, 0);
    g.ResetGame();
  }

  /** The same presses with the corrected reset leave every cell clickable. */
  method ResetDuringOpponentDelayCorrected() returns (g: Game)
    ensures g.Valid() && !g.loading && !g.timerPending
    ensures forall r, c :: r < 3 && c < 3 ==> g.AcceptsClick(r, c)
  {
    g := new Game();
    OpeningIsOpen();
    assert g.board[0, 0] == Empty;
    g.HandleCellClick(0, 0);
    g.ResetGameClearingLoading();
  }
}
