/**
 * The Leaderboard page: a username search (applied on submit), a game
 * selector and a timeframe selector over a fixed list of players. The search
 * and the game selector each recompute the shown list from the whole list,
 * so neither narrows the other's result.
 */
module Leaderboard {
  import opened Wrappers
  import opened Strings
  import opened Lists

  /** A leaderboard row, without its avatar picture. */
  datatype Player = Player(
    id: string, rank: nat, username: string, score: nat, gamesPlayed: nat, winRate: nat, favorite: string)

  const LeaderboardData: seq<Player> := [
    Player("1", 1, "ProGamer123", 15420, 245, 78, "AURACHESS"),
    Player("2", 2, "AuraKnight", 14850, 187, 72, "AURAXO"),
    Player("3", 3, "ChessMaster", 13980, 203, 69, "AURACHESS"),
    Player("4", 4, "TicTacPro", 12340, 180, 65, "AURAXO"),
    Player("5", 5, "AuraQueen", 11290, 162, 68, "AURAQUEST"),
    Player("6", 6, "WordWizard", 10780, 145, 70, "AURAVISION"),
    Player("7", 7, "GameKing99", 9840, 132, 63, "AURASIM"),
    Player("8", 8, "QuestMaster", 8950, 118, 60, "AURAQUEST"),
    Player("9", 9, "ChessKnight", 8240, 110, 59, "AURACHESS"),
    Player("10", 10, "AuraExplorer", 7830, 98, 62, "AURAQUEST")
  ]

  /** The selector's ids and the `favorite` names they stand for. */
  const GameFilterMap: map<string, string> := map[
    "auraxo" := "AURAXO", "aurachess" := "AURACHESS", "auravision" := "AURAVISION",
    "auraquest" := "AURAQUEST", "aurasim" := "AURASIM", "aurarps" := "AURARPS"
  ]

  /** The page's state; `gameParam` is the `game` entry of the address's query string. */
  datatype LeaderboardPage = LeaderboardPage(
    searchQuery: string, selectedGame: string, selectedTimeframe: string,
    filteredData: seq<Player>, gameParam: Option<string>)

  /**
   * The first render: the game selector shows the address's `game` entry when
   * it is present and not empty, "all" otherwise; the list is the whole
   * leaderboard whatever the selector shows.
   */
  function InitialPage(param: Option<string>): (page: LeaderboardPage)
    ensures page.filteredData == LeaderboardData && page.gameParam == param
    ensures page.selectedGame == (if param.Some? && param.value != "" then param.value else "all")
  {
    LeaderboardPage("", if param.Some? && param.value != "" then param.value else "all", "all-time",
      LeaderboardData, param)
  }

  /** Typing in the search box changes only the query. */
  function SetSearchQuery(page: LeaderboardPage, query: string): (next: LeaderboardPage)
    ensures next == page.(searchQuery := query)
  {
    page.(searchQuery := query)
  }

  /**
   * The players of `data` whose lowered username contains the lowered query,
   * in their order. The page passes LeaderboardData for `data`.
   */
  function SearchResults(data: seq<Player>, query: string): (found: seq<Player>)
    ensures |found| <= |data|
    ensures forall i :: 0 <= i < |found| ==> Includes(ToLower(found[i].username), ToLower(query))
    ensures forall p :: p in found ==> p in data
  {
    var found := Filter(data, (p: Player) => Includes(ToLower(p.username), ToLower(query)));
    assert forall p :: p in found ==> p in data by {
      forall p | p in found
        ensures p in data
      {
        FilterMembers(data, (q: Player) => Includes(ToLower(q.username), ToLower(query)), p);
      }
    }
    found
  }

  /** handleSearch: a blank query shows everyone, any other the players it matches. */
  function HandleSearch(data: seq<Player>, page: LeaderboardPage): (next: LeaderboardPage)
    ensures next == page.(filteredData := next.filteredData)
    ensures IsSubsequence(next.filteredData, data)
    ensures Blank(page.searchQuery) ==> next.filteredData == data
  {
    TrimEmptyIffBlank(page.searchQuery);
    SubsequenceReflexive(data);
    FilterIsSubsequence(data, (p: Player) => Includes(ToLower(p.username), ToLower(page.searchQuery)));
    if Trim(page.searchQuery) == "" then page.(filteredData := data)
    else page.(filteredData := SearchResults(data, page.searchQuery))
  }

  /** After a search with a non-blank query, a player is shown exactly when the query matches the username. */
  lemma HandleSearchKeeps(data: seq<Player>, page: LeaderboardPage, p: Player)
    requires !Blank(page.searchQuery)
    ensures p in HandleSearch(data, page).filteredData <==>
      p in data && Includes(ToLower(p.username), ToLower(page.searchQuery))
  {
    TrimEmptyIffBlank(page.searchQuery);
    FilterMembers(data, (q: Player) => Includes(ToLower(q.username), ToLower(page.searchQuery)), p);
  }

  /** The players whose favourite is the game's mapped name; an unmapped id matches nobody. */
  function GameResults(data: seq<Player>, value: string): (found: seq<Player>)
    ensures |found| <= |data|
    ensures value !in GameFilterMap ==> found == []
    ensures value in GameFilterMap ==> forall i :: 0 <= i < |found| ==> found[i].favorite == GameFilterMap[value]
  {
    var keep := (p: Player) => value in GameFilterMap && p.favorite == GameFilterMap[value];
    if value !in GameFilterMap then NothingKept(data, keep); Filter(data, keep)
    else Filter(data, keep)
  }

  /** A player matches a game id exactly when the id is mapped and the player's favourite is its name. */
  lemma GameResultsKeeps(data: seq<Player>, value: string, p: Player)
    ensures p in GameResults(data, value) <==>
      p in data && value in GameFilterMap && p.favorite == GameFilterMap[value]
  {
    FilterMembers(data, (q: Player) => value in GameFilterMap && q.favorite == GameFilterMap[value], p);
  }

  /**
   * handleGameChange: "all" clears the address entry and shows everyone; any
   * other id is written to the address and shows the players whose favourite
   * is that game, or everyone when there are none.
   */
  function HandleGameChange(data: seq<Player>, page: LeaderboardPage, value: string): (next: LeaderboardPage)
    ensures next.searchQuery == page.searchQuery && next.selectedTimeframe == page.selectedTimeframe
    ensures next.selectedGame == value
    ensures next.gameParam == if value == "all" then None else Some(value)
    ensures data != [] ==> next.filteredData != []
    ensures IsSubsequence(next.filteredData, data)
    ensures value == "all" || GameResults(data, value) == [] ==> next.filteredData == data
    ensures value != "all" && GameResults(data, value) != [] ==> next.filteredData == GameResults(data, value)
  {
    SubsequenceReflexive(data);
    FilterIsSubsequence(data, (p: Player) => value in GameFilterMap && p.favorite == GameFilterMap[value]);
    if value != "all" then
      var filtered := GameResults(data, value);
      page.(selectedGame := value, gameParam := Some(value),
        filteredData := if |filtered| > 0 then filtered else data)
    else
      page.(selectedGame := value, gameParam := None, filteredData := data)
  }

  /** handleTimeframeChange: only the selector moves; the shown list stays as it was. */
  function HandleTimeframeChange(page: LeaderboardPage, value: string): (next: LeaderboardPage)
    ensures next.filteredData == page.filteredData
    ensures next == page.(selectedTimeframe := value)
  {
    page.(selectedTimeframe := value)
  }

  /** The highlight strip: `filteredData.slice(0, 3)`, at most three entries from the front. */
  function TopThree(page: LeaderboardPage): (top: seq<Player>)
    ensures |top| == if |page.filteredData| < 3 then |page.filteredData| else 3
    ensures top <= page.filteredData
  {
    if |page.filteredData| < 3 then page.filteredData else page.filteredData[..3]
  }

  /** Search and game selector do not compose: a search forgets the game filter, and a game change forgets the search. */
  lemma FiltersDoNotCompose(data: seq<Player>, page: LeaderboardPage, value: string)
    ensures HandleSearch(data, HandleGameChange(data, page, value)).filteredData == HandleSearch(data, page).filteredData
    ensures HandleGameChange(data, HandleSearch(data, page), value).filteredData ==
            HandleGameChange(data, page, value).filteredData
  {
  }

  /** No player's favourite is AURARPS, so choosing that game falls back to the whole leaderboard. */
  lemma RpsFallsBack(page: LeaderboardPage)
    ensures HandleGameChange(LeaderboardData, page, "aurarps").filteredData == LeaderboardData
  {
    var keep := (p: Player) => "aurarps" in GameFilterMap && p.favorite == GameFilterMap["aurarps"];
    forall i | 0 <= i < |LeaderboardData|
      ensures !keep(LeaderboardData[i])
    {
    }
    NothingKept(LeaderboardData, keep);
  }

  /** A filter that no element passes returns the empty list. */
  lemma {:induction false} NothingKept(xs: seq<Player>, keep: Player -> bool)
    requires forall i :: 0 <= i < |xs| ==> !keep(xs[i])
    ensures Filter(xs, keep) == []
  {
    if xs != [] {
      NothingKept(xs[1..], keep);
    }
  }
}
