/**
 * The Games page: a category tab and a search box narrow the catalogue of
 * games. Both controls recompute the shown list from the whole catalogue
 * with the current value of the other control.
 */
module Games {
  import opened Strings
  import opened Lists

  /** A catalogue entry, reduced to the fields the filter reads. */
  datatype Game = Game(id: string, title: string, description: string, category: string)

  const AllGames: seq<Game> := [
    Game("auraxo", "AURAXO",
      "Challenge our adaptive AI in this next-level Tic-Tac-Toe experience with dynamic difficulty.", "strategy"),
    Game("aurachess", "AURACHESS",
      "Test your skills against our neural-network powered chess AI that adapts to your playstyle.", "strategy"),
    Game("auravision", "AURAVISION",
      "Expand your vocabulary in this AI-powered word game that challenges your linguistic abilities.", "puzzle"),
    Game("auraquest", "AURAQUEST",
      "Embark on a unique adventure through AI-generated storylines that adapt to your choices.", "adventure"),
    Game("aurasim", "AURASIM",
      "Experience a life simulation where AI creates unique characters and storylines in a virtual world.", "simulation"),
    Game("aurarps", "AURARPS",
      "Play rock-paper-scissors against an AI that learns your patterns and adapts its strategy.", "casual"),
    Game("aurapuzzle", "AURAPUZZLE",
      "Solve procedurally generated puzzles with increasing difficulty levels based on your performance.", "puzzle"),
    Game("auraracing", "AURARACING",
      "Race against AI-controlled opponents on dynamically generated tracks that adapt to your skill level.", "action")
  ]

  /** The tab that puts no restriction on the category. */
  const AllCategories: string := "all"

  /** The text test for an already lowered query: it occurs in the lowered title or description. */
  predicate MatchesText(g: Game, lowercaseQuery: string) {
    Includes(ToLower(g.title), lowercaseQuery) || Includes(ToLower(g.description), lowercaseQuery)
  }

  /**
   * filterGames: the category filter unless the tab is "all", then the text
   * filter unless the query is blank. The query is lowered but not trimmed
   * before matching.
   */
  function FilterGames(games: seq<Game>, query: string, category: string): (shown: seq<Game>)
    ensures |shown| <= |games|
    ensures forall g :: g in shown ==> g in games && (category == AllCategories || g.category == category)
    ensures forall i :: 0 <= i < |shown| ==> Blank(query) || MatchesText(shown[i], ToLower(query))
    ensures Blank(query) && category == AllCategories ==> shown == games
  {
    var byCategory := if category != AllCategories then Filter(games, (x: Game) => x.category == category) else games;
    var lowercaseQuery := ToLower(query);
    TrimEmptyIffBlank(query);
    var shown := if Trim(query) != "" then Filter(byCategory, (x: Game) => MatchesText(x, lowercaseQuery)) else byCategory;
    assert forall g :: g in shown ==> g in games && (category == AllCategories || g.category == category) by {
      forall g | g in shown
        ensures g in games && (category == AllCategories || g.category == category)
      {
        FilterMembers(byCategory, (x: Game) => MatchesText(x, lowercaseQuery), g);
        FilterMembers(games, (x: Game) => x.category == category, g);
      }
    }
    shown
  }

  /** filterGames keeps the catalogue's order and adds nothing. */
  lemma FilterGamesIsSubsequence(games: seq<Game>, query: string, category: string)
    ensures IsSubsequence(FilterGames(games, query, category), games)
  {
    var byCategory := if category != AllCategories then Filter(games, (x: Game) => x.category == category) else games;
    FilterIsSubsequence(games, (x: Game) => x.category == category);
    SubsequenceReflexive(games);
    var lowercaseQuery := ToLower(query);
    FilterIsSubsequence(byCategory, (x: Game) => MatchesText(x, lowercaseQuery));
    SubsequenceReflexive(byCategory);
    SubsequenceTransitive(FilterGames(games, query, category), byCategory, games);
  }

  /**
   * A game is shown exactly when it is in the catalogue, its category is the
   * tab's (or the tab is "all") and, unless the query is blank, the lowered
   * query occurs in its lowered title or description.
   */
  lemma FilterGamesKeeps(games: seq<Game>, query: string, category: string, g: Game)
    ensures g in FilterGames(games, query, category) <==>
      g in games && (category == AllCategories || g.category == category) &&
      (Blank(query) || MatchesText(g, ToLower(query)))
  {
    var byCategory := if category != AllCategories then Filter(games, (x: Game) => x.category == category) else games;
    FilterMembers(games, (x: Game) => x.category == category, g);
    var lowercaseQuery := ToLower(query);
    FilterMembers(byCategory, (x: Game) => MatchesText(x, lowercaseQuery), g);
    TrimEmptyIffBlank(query);
  }

  /** With the "all" tab and a blank query the whole catalogue is shown, in order. */
  lemma {:induction false} NoRestrictionShowsAll(games: seq<Game>, query: string)
    requires Blank(query)
    ensures FilterGames(games, query, AllCategories) == games
  {
    TrimEmptyIffBlank(query);
  }

  /** The page's state: the search box, the active tab and the list shown. */
  datatype GamesPage = GamesPage(searchQuery: string, activeCategory: string, filteredGames: seq<Game>)

  /** The shown list is the filter of the catalogue by the current query and tab. */
  predicate InSync(page: GamesPage) {
    page.filteredGames == FilterGames(AllGames, page.searchQuery, page.activeCategory)
  }

  /** The first render: empty query, the "all" tab, the whole catalogue. */
  function InitialPage(): (page: GamesPage)
    ensures InSync(page)
  {
    NoRestrictionShowsAll(AllGames, "");
    GamesPage("", AllCategories, AllGames)
  }

  /** handleSearch: the new query, filtered with the tab already active. */
  function HandleSearch(page: GamesPage, query: string): (next: GamesPage)
    ensures next.searchQuery == query && next.activeCategory == page.activeCategory
    ensures InSync(next)
  {
    GamesPage(query, page.activeCategory, FilterGames(AllGames, query, page.activeCategory))
  }

  /** handleCategoryChange: the new tab, filtered with the query already typed. */
  function HandleCategoryChange(page: GamesPage, category: string): (next: GamesPage)
    ensures next.searchQuery == page.searchQuery && next.activeCategory == category
    ensures InSync(next)
  {
    GamesPage(page.searchQuery, category, FilterGames(AllGames, page.searchQuery, category))
  }
}
