/**
 * The statistics panel of the Profile page: the player's per-game rows are
 * summed into games played, total points and a win rate, and the chess
 * rating is read from the chess row.
 */
module Profile {
  import opened Wrappers
  import opened Backend
  import opened Rounding

  /** One `game_stats` row, reduced to the columns the panel reads. */
  datatype GameRow = GameRow(gameId: string, totalGames: nat, wins: nat, score: nat)

  datatype GameStats = GameStats(
    chessRating: nat, totalPoints: nat, gamesPlayed: nat, winRate: nat, achievements: nat,
    recentGames: seq<GameRow>)

  /** The panel before anything is loaded. */
  const InitialStats: GameStats := GameStats(0, 0, 0, 0, 0, [])

  /** The rating shown when there is no chess row. */
  const DefaultChessRating: nat := 1200

  /** The panel for a player with no rows. */
  const NoGamesStats: GameStats := GameStats(DefaultChessRating, 0, 0, 0, 0, [])

  /** `rows.reduce((sum, game) => sum + field(game), 0)`. */
  function Sum(rows: seq<GameRow>, field: GameRow -> nat): nat {
    if rows == [] then 0 else Sum(rows[..|rows| - 1], field) + field(rows[|rows| - 1])
  }

  /** Sums over two batches of rows add up. */
  lemma {:induction false} SumAppend(a: seq<GameRow>, b: seq<GameRow>, field: GameRow -> nat)
    ensures Sum(a + b, field) == Sum(a, field) + Sum(b, field)
    decreases |b|
  {
    if b != [] {
      assert (a + b)[..|a + b| - 1] == a + b[..|b| - 1];
      assert (a + b)[|a + b| - 1] == b[|b| - 1];
      SumAppend(a, b[..|b| - 1], field);
    } else {
      assert a + b == a;
    }
  }

  /** A field that is at most another on every row sums to at most the other's sum. */
  lemma {:induction false} SumMonotone(rows: seq<GameRow>, f: GameRow -> nat, g: GameRow -> nat)
    requires forall i :: 0 <= i < |rows| ==> f(rows[i]) <= g(rows[i])
    ensures Sum(rows, f) <= Sum(rows, g)
  {
    if rows != [] {
      SumMonotone(rows[..|rows| - 1], f, g);
    }
  }

  /** `rows.find(game => game.game_id === 'chess')`: the first chess row, if any. */
  function FindChess(rows: seq<GameRow>): (r: Option<GameRow>)
    ensures r.None? <==> forall i :: 0 <= i < |rows| ==> rows[i].gameId != "chess"
    ensures r.Some? ==> exists i :: (0 <= i < |rows| && rows[i] == r.value && r.value.gameId == "chess" &&
      forall j :: 0 <= j < i ==> rows[j].gameId != "chess")
  {
    if rows == [] then None
    else if rows[0].gameId == "chess" then Some(rows[0])
    else
      var r := FindChess(rows[1..]);
      assert r.Some? ==> exists i :: (0 <= i < |rows| && rows[i] == r.value && r.value.gameId == "chess" &&
        forall j :: 0 <= j < i ==> rows[j].gameId != "chess") by {
        if r.Some? {
          var i :| 0 <= i < |rows| - 1 && rows[1..][i] == r.value && r.value.gameId == "chess" &&
            forall j :: 0 <= j < i ==> rows[1..][j].gameId != "chess";
          assert rows[i + 1] == r.value;
          assert forall j :: 0 <= j < i + 1 ==> rows[j].gameId != "chess" by {
            forall j | 0 <= j < i + 1
              ensures rows[j].gameId != "chess"
            {
              if j > 0 {
                assert rows[j] == rows[1..][j - 1];
              }
            }
          }
        }
      }
      r
  }

  /**
   * The figures computed from the rows: the totals are the column sums; the
   * rating is the score of the first chess row, or 1200 when no row is chess;
   * the win rate is 0 without games and otherwise the percentage of wins
   * rounded half up.
   */
  function Aggregate(rows: seq<GameRow>): (stats: GameStats)
    ensures stats.gamesPlayed == Sum(rows, (g: GameRow) => g.totalGames)
    ensures stats.totalPoints == Sum(rows, (g: GameRow) => g.score)
    ensures stats.achievements == 0 && stats.recentGames == []
    ensures (forall i :: 0 <= i < |rows| ==> rows[i].gameId != "chess") ==> stats.chessRating == DefaultChessRating
    ensures forall i :: (0 <= i < |rows| && rows[i].gameId == "chess" &&
      forall j :: 0 <= j < i ==> rows[j].gameId != "chess") ==> stats.chessRating == rows[i].score
    ensures var games := Sum(rows, (g: GameRow) => g.totalGames);
      var wins := Sum(rows, (g: GameRow) => g.wins);
      (games == 0 ==> stats.winRate == 0) &&
      (games > 0 ==> 2 * games * stats.winRate <= 200 * wins + games < 2 * games * (stats.winRate + 1))
  {
    var totalGames := Sum(rows, (g: GameRow) => g.totalGames);
    var totalWins := Sum(rows, (g: GameRow) => g.wins);
    var totalScore := Sum(rows, (g: GameRow) => g.score);
    var chessGame := FindChess(rows);
    GameStats(
      if chessGame.Some? then chessGame.value.score else DefaultChessRating,
      totalScore,
      totalGames,
      if totalGames > 0 then RoundedPercent(totalWins, totalGames) else 0,
      0,
      [])
  }

  /** The aggregate formulas on no rows give exactly the panel shown for a player with no rows. */
  lemma AggregateOfNoRows()
    ensures Aggregate([]) == NoGamesStats
  {
  }

  /**
   * When no row records more wins than games, the win rate is a percentage:
   * at most 100, and the nearest integer to 100 * wins / games.
   */
  lemma {:induction false} WinRateIsPercentage(rows: seq<GameRow>)
    requires forall i :: 0 <= i < |rows| ==> rows[i].wins <= rows[i].totalGames
    ensures Aggregate(rows).winRate <= 100
    ensures var games := Sum(rows, (g: GameRow) => g.totalGames);
      var wins := Sum(rows, (g: GameRow) => g.wins);
      games > 0 ==> 2 * games * Aggregate(rows).winRate <= 200 * wins + games < 2 * games * (Aggregate(rows).winRate + 1)
  {
    SumMonotone(rows, (g: GameRow) => g.wins, (g: GameRow) => g.totalGames);
  }

  /**
   * fetchGameStats on the query's answer: an error leaves the panel as it
   * was; no rows give the no-games panel; otherwise the aggregate.
   */
  function FetchGameStats(current: GameStats, response: Response<seq<GameRow>>): (next: GameStats)
    ensures response.error.Some? ==> next == current
    ensures response.error.None? && (response.data.None? || response.data.value == []) ==> next == NoGamesStats
    ensures response.error.None? ==> next.achievements == 0 && next.recentGames == []
    ensures response.error.None? && response.data.Some? ==>
      next.gamesPlayed == Sum(response.data.value, (g: GameRow) => g.totalGames) &&
      next.totalPoints == Sum(response.data.value, (g: GameRow) => g.score)
    ensures response.error.None? && response.data.Some? ==>
      (next.chessRating == DefaultChessRating <==>
        FindChess(response.data.value).None? || FindChess(response.data.value).value.score == DefaultChessRating)
    ensures response.error.None? && response.data.Some? && response.data.value != [] ==>
      next == Aggregate(response.data.value) &&
      next.chessRating == (if FindChess(response.data.value).Some? then FindChess(response.data.value).value.score
        else DefaultChessRating) &&
      var games := Sum(response.data.value, (g: GameRow) => g.totalGames);
      next.winRate == (if games > 0 then RoundedPercent(Sum(response.data.value, (g: GameRow) => g.wins), games) else 0)
  {
    if response.error.Some? then current
    else if response.data.Some? && |response.data.value| > 0 then Aggregate(response.data.value)
    else NoGamesStats
  }
}
