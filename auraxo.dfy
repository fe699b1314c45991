/**
 * The Auraxo page: tic-tac-toe on a flat nine-cell board against an opponent
 * whose difficulty selects its strategy, the controller that takes the
 * human's click and then the opponent's delayed reply, and the win / loss /
 * draw tally kept for a signed-in player.
 */
module Auraxo {
  import opened Wrappers
  import opened Board
  import opened Rounding
  import opened Backend

  datatype Difficulty = Easy | Medium | Hard

  datatype Status = Waiting | Playing | Won | Draw

  /** How a finished game counts for the human: 'win', 'loss' or 'draw'. */
  datatype Result = Win | Loss | Tie

  datatype Stats = Stats(played: nat, wins: nat, losses: nat, draws: nat, winRate: nat)

  const NoStats: Stats := Stats(0, 0, 0, 0, 0)

  /** The columns of this player's `game_stats` row that the page reads. */
  datatype StatsRow = StatsRow(totalGames: nat, wins: nat, losses: nat, draws: nat)

  /** The win rate shown for a tally: 0 before any game, else the rounded percentage. */
  function WinRate(wins: nat, played: nat): (r: nat)
    ensures wins <= played ==> r <= 100
    ensures played == 0 ==> r == 0
  {
    if played > 0 then RoundedPercent(wins, played) else 0
  }

  /** The three outcome counters add up to the games played and the rate matches them. */
  ghost predicate Consistent(s: Stats) {
    s.played == s.wins + s.losses + s.draws && s.winRate == WinRate(s.wins, s.played)
  }

  /**
   * The local tally after one finished game: one more game played and exactly
   * one of the three outcome counters, the one named by the result, one higher.
   */
  function Tally(s: Stats, result: Result): (t: Stats)
    ensures t.played == s.played + 1
    ensures t.wins >= s.wins && t.losses >= s.losses && t.draws >= s.draws
    ensures t.wins + t.losses + t.draws == s.wins + s.losses + s.draws + 1
    ensures t.wins > s.wins <==> result == Win
    ensures t.losses > s.losses <==> result == Loss
    ensures t.draws > s.draws <==> result == Tie
    ensures Consistent(s) ==> Consistent(t) && t.winRate <= 100
  {
    match result
    case Win => Stats(s.played + 1, s.wins + 1, s.losses, s.draws, RoundedPercent(s.wins + 1, s.played + 1))
    case Loss => Stats(s.played + 1, s.wins, s.losses + 1, s.draws, RoundedPercent(s.wins, s.played + 1))
    case Tie => Stats(s.played + 1, s.wins, s.losses, s.draws + 1, RoundedPercent(s.wins, s.played + 1))
  }

  /** The tally built from a fetched row: the row's counters and their win rate. */
  function StatsFromRow(row: StatsRow): (s: Stats)
    ensures s.played == row.totalGames && s.wins == row.wins
    ensures s.losses == row.losses && s.draws == row.draws
    ensures row.totalGames == row.wins + row.losses + row.draws ==> Consistent(s)
    ensures row.wins <= row.totalGames ==> s.winRate <= 100
  {
    Stats(row.totalGames, row.wins, row.losses, row.draws, WinRate(row.wins, row.totalGames))
  }

  /** The evaluator: scans the eight lines in order and reports the first complete one. */
  method CheckWinner(board: Squares) returns (w: Cell)
    ensures w == Winner(board)
  {
    for k := 0 to |Lines|
      invariant WinnerFrom(board, k) == Winner(board)
    {
      var combo := Lines[k];
      if board[combo.a] != Empty && board[combo.a] == board[combo.b] && board[combo.a] == board[combo.c] {
        return board[combo.a];
      }
    }
    return Empty;
  }

  /**
   * One of the two scans of GetAIMove: tries p's mark in each empty cell of a
   * copy, lowest index first, and stops at the first that makes the evaluator
   * report p.
   */
  method ScanForCompletion(board: Squares, p: Player) returns (r: Option<Index>)
    ensures r == FirstCompleting(board, p)
  {
    for i := 0 to 9
      invariant forall j: nat :: j < i ==> !Completes(board, j, p)
    {
      if board[i] == Empty {
        var boardCopy := board[i := Mark(p)];
        var w := CheckWinner(boardCopy);
        if w == Mark(p) {
          FirstCompletingIs(board, p, i);
          return Some(i);
        }
      }
    }
    FirstCompletingIs(board, p, 9);
    return None;
  }

  /**
   * The opponent's move on a board with an empty cell. Easy picks any empty
   * cell. Medium and Hard take the lowest cell that wins for O, else the
   * lowest cell that blocks a win for X. Hard then prefers the center, then an
   * empty corner; otherwise any empty cell is picked.
   */
  method GetAIMove(board: seq<Cell>, difficulty: Difficulty, pick: nat) returns (move: Index)
    requires |board| == 9 && !Full(board)
    ensures board[move] == Empty
    ensures difficulty == Easy ==> move == Choose(EmptyCells(board), pick)
    ensures difficulty != Easy && FirstCompleting(board, O).Some? ==>
      move == FirstCompleting(board, O).value
    ensures difficulty != Easy && FirstCompleting(board, O).None? && FirstCompleting(board, X).Some? ==>
      move == FirstCompleting(board, X).value
    ensures difficulty == Medium && NoThreat(board) ==> move == Choose(EmptyCells(board), pick)
    ensures difficulty == Hard && NoThreat(board) && board[Center] == Empty ==> move == Center
    ensures difficulty == Hard && NoThreat(board) && board[Center] != Empty && FreeAmong(board, Corners) != [] ==>
      move == Choose(FreeAmong(board, Corners), pick)
    ensures difficulty == Hard && NoThreat(board) && board[Center] != Empty && FreeAmong(board, Corners) == [] ==>
      move == Choose(EmptyCells(board), pick)
  {
    if difficulty == Easy {
      var emptyCells := EmptyCells(board);
      return Choose(emptyCells, pick);
    }

    // Check if the opponent can win, then whether the human can and must be blocked.
    var win := ScanForCompletion(board, O);
    if win.Some? {
      return win.value;
    }
    var block := ScanForCompletion(board, X);
    if block.Some? {
      return block.value;
    }

    if difficulty == Hard {
      if board[Center] == Empty {
        return Center;
      }
      var corners := FreeAmong(board, Corners);
      if |corners| > 0 {
        return Choose(corners, pick);
      }
    }

    var emptyCells := EmptyCells(board);
    return Choose(emptyCells, pick);
  }

  /** The tally after reporting a result, which sticks only for a signed-in player whose update was saved. */
  function StatsAfter(s: Stats, result: Result, recorded: bool): (t: Stats)
    ensures recorded ==> t == Tally(s, result)
    ensures !recorded ==> t == s
  {
    if recorded then Tally(s, result) else s
  }

  class Game {
    var board: Squares
    var currentPlayer: Player
    var winner: Cell
    var gameStatus: Status
    var aiThinking: bool
    var difficulty: Difficulty
    var showIntro: bool
    var stats: Stats
    /** Whether a user is signed in; without one no result is recorded. */
    const signedIn: bool

    ghost predicate Valid()
      reads this
    {
      && currentPlayer == X
      && winner == Winner(board)
      && (showIntro <==> gameStatus == Waiting)
      && (gameStatus == Waiting ==> board == EmptyBoard)
      && (gameStatus == Playing ==> winner == Empty && !Full(board))
      && (gameStatus == Won ==> winner != Empty)
      && (gameStatus == Draw ==> winner == Empty && Full(board))
      && (aiThinking ==> gameStatus == Playing)
    }

    constructor (signedIn: bool)
      ensures Valid()
      ensures board == EmptyBoard && gameStatus == Waiting && showIntro && !aiThinking
      ensures difficulty == Medium && stats == NoStats && this.signedIn == signedIn
    {
      board := EmptyBoard;
      currentPlayer := X;
      winner := Empty;
      gameStatus := Waiting;
      aiThinking := false;
      difficulty := Medium;
      showIntro := true;
      stats := NoStats;
      this.signedIn := signedIn;
    }

    /** The intro screen's difficulty buttons. */
    method SetDifficulty(d: Difficulty)
      requires Valid() && showIntro
      modifies this`difficulty
      ensures Valid() && difficulty == d
    {
      difficulty := d;
    }

    /** The intro screen's start button: a fresh game with the human, X, to move. */
    method StartGame()
      requires Valid() && showIntro
      modifies this
      ensures Valid()
      ensures board == EmptyBoard && currentPlayer == X && winner == Empty && gameStatus == Playing
      ensures !showIntro && !aiThinking
      ensures difficulty == old(difficulty) && stats == old(stats)
    {
      showIntro := false;
      board := EmptyBoard;
      currentPlayer := X;
      winner := Empty;
      gameStatus := Playing;
    }

    /** The play-again button, shown only once a game is over. */
    method ResetGame()
      requires Valid() && (gameStatus == Won || gameStatus == Draw)
      modifies this
      ensures Valid()
      ensures board == EmptyBoard && currentPlayer == X && winner == Empty && gameStatus == Playing
      ensures !aiThinking && showIntro == old(showIntro)
      ensures difficulty == old(difficulty) && stats == old(stats)
    {
      board := EmptyBoard;
      currentPlayer := X;
      winner := Empty;
      gameStatus := Playing;
    }

    /** A click on cell `index` is taken only during play, on an empty cell, while the opponent is not thinking. */
    predicate AcceptsClick(index: int)
      reads this
    {
      gameStatus == Playing && 0 <= index < 9 && board[index] == Empty && !aiThinking
    }

    /** Records a finished game for a signed-in player; `saved` is whether the database update succeeded. */
    method UpdateGameStats(result: Result, saved: bool)
      modifies this`stats
      ensures stats == StatsAfter(old(stats), result, signedIn && saved)
    {
      if !signedIn {
        return;
      }
      if saved {
        stats := Tally(stats, result);
      }
    }

    /**
     * The human's click. An accepted click writes X into the empty cell and
     * nothing else; a win or a full board ends the game and is recorded,
     * otherwise the opponent starts thinking. A click that is not accepted
     * changes nothing.
     */
    method HandleCellClick(index: int, saved: bool)
      requires Valid()
      modifies this
      ensures Valid()
      ensures difficulty == old(difficulty) && showIntro == old(showIntro)
      ensures !old(AcceptsClick(index)) ==>
        board == old(board) && gameStatus == old(gameStatus) && winner == old(winner) &&
        aiThinking == old(aiThinking) && stats == old(stats)
      ensures old(AcceptsClick(index)) ==> board == old(board)[index := Mark(X)]
      ensures old(AcceptsClick(index)) && Winner(board) != Empty ==>
        gameStatus == Won && winner == Mark(X) && !aiThinking && stats == StatsAfter(old(stats), Win, signedIn && saved)
      ensures old(AcceptsClick(index)) && Winner(board) == Empty && Full(board) ==>
        gameStatus == Draw && !aiThinking && stats == StatsAfter(old(stats), Tie, signedIn && saved)
      ensures old(AcceptsClick(index)) && Winner(board) == Empty && !Full(board) ==>
        gameStatus == Playing && aiThinking && stats == old(stats)
    {
      if gameStatus != Playing || index < 0 || index >= 9 || board[index] != Empty || aiThinking {
        return;
      }

      MoveWinsOnlyForMover(board, index, currentPlayer);
      var newBoard := board[index := Mark(currentPlayer)];
      board := newBoard;

      var newWinner := CheckWinner(newBoard);
      if newWinner != Empty {
        winner := newWinner;
        gameStatus := Won;
        UpdateGameStats(Win, saved);
        return;
      }

      if Full(newBoard) {
        gameStatus := Draw;
        UpdateGameStats(Tie, saved);
        return;
      }

      aiThinking := true;
    }

    /**
     * The opponent's reply, run once the thinking delay has passed: O goes
     * into the empty cell GetAIMove picks and nothing else changes on the
     * board; a win or a full board ends the game and is recorded. The cell
     * is the one GetAIMove's strategy picks for the level on the board
     * before the move.
     */
    method AiMove(pick: nat, saved: bool) returns (move: Index)
      requires Valid() && aiThinking
      modifies this
      ensures Valid() && !aiThinking
      ensures difficulty == old(difficulty) && showIntro == old(showIntro)
      ensures old(board)[move] == Empty && board == old(board)[move := Mark(O)]
      ensures difficulty == Easy ==> move == Choose(EmptyCells(old(board)), pick)
      ensures difficulty != Easy && FirstCompleting(old(board), O).Some? ==>
        move == FirstCompleting(old(board), O).value && gameStatus == Won
      ensures difficulty != Easy && FirstCompleting(old(board), O).None? && FirstCompleting(old(board), X).Some? ==>
        move == FirstCompleting(old(board), X).value
      ensures difficulty == Medium && NoThreat(old(board)) ==> move == Choose(EmptyCells(old(board)), pick)
      ensures difficulty == Hard && NoThreat(old(board)) && old(board)[Center] == Empty ==> move == Center
      ensures difficulty == Hard && NoThreat(old(board)) && old(board)[Center] != Empty &&
              FreeAmong(old(board), Corners) != [] ==>
        move == Choose(FreeAmong(old(board), Corners), pick)
      ensures difficulty == Hard && NoThreat(old(board)) && old(board)[Center] != Empty &&
              FreeAmong(old(board), Corners) == [] ==>
        move == Choose(EmptyCells(old(board)), pick)
      ensures Winner(board) != Empty ==>
        gameStatus == Won && winner == Mark(O) && stats == StatsAfter(old(stats), Loss, signedIn && saved)
      ensures Winner(board) == Empty && Full(board) ==>
        gameStatus == Draw && stats == StatsAfter(old(stats), Tie, signedIn && saved)
      ensures Winner(board) == Empty && !Full(board) ==>
        gameStatus == Playing && stats == old(stats)
    {
      move := GetAIMove(board, difficulty, pick);
      PlaceAiMark(move, saved);
    }

    /**
     * The rest of the delayed callback once getAIMove has chosen the cell: O
     * goes into that cell of a copy, which becomes the board, and a win or a
     * full board ends the game and is recorded.
     */
    method PlaceAiMark(move: Index, saved: bool)
      requires Valid() && aiThinking && board[move] == Empty
      modifies this
      ensures Valid() && !aiThinking
      ensures difficulty == old(difficulty) && showIntro == old(showIntro)
      ensures board == old(board)[move := Mark(O)]
      ensures Winner(board) != Empty ==>
        gameStatus == Won && winner == Mark(O) && stats == StatsAfter(old(stats), Loss, signedIn && saved)
      ensures Winner(board) == Empty && Full(board) ==>
        gameStatus == Draw && stats == StatsAfter(old(stats), Tie, signedIn && saved)
      ensures Winner(board) == Empty && !Full(board) ==>
        gameStatus == Playing && stats == old(stats)
    {
      MoveWinsOnlyForMover(board, move, O);
      var aiBoard := board[move := Mark(O)];
      board := aiBoard;

      var aiWinner := CheckWinner(aiBoard);
      if aiWinner != Empty {
        winner := aiWinner;
        gameStatus := Won;
        UpdateGameStats(Loss, saved);
      } else if Full(aiBoard) {
        gameStatus := Draw;
        UpdateGameStats(Tie, saved);
      }

      aiThinking := false;
    }

    /**
     * Loading the stored tally: a failed query keeps the current tally, a
     * fetched row replaces it, and a missing row (which the page then
     * creates) keeps it.
     */
    method FetchGameStats(response: Response<StatsRow>)
      modifies this`stats
      ensures Failed(response) || response.data.None? ==> stats == old(stats)
      ensures !Failed(response) && response.data.Some? ==> stats == StatsFromRow(response.data.value)
    {
      if Failed(response) {
        return;
      }
      if response.data.Some? {
        stats := StatsFromRow(response.data.value);
      }
    }
  }
}
