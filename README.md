# AuraGZ game portal: a verified model of its game logic

AuraGZ is a web portal of AI-themed games. This project models its core logic in Dafny:

- **Tic-tac-toe.** The portal has two tic-tac-toe pages, and both are modelled:
  - *Auraxo* keeps a flat nine-cell board. It has an intro screen with three difficulty levels. The signed-in player's win/loss/draw tally is stored in the `game_stats` table.
  - *TicTacToe* keeps a 3 x 3 grid that it writes into in place. The opponent's turn is scheduled by a 700 ms timer effect. A running score covers the player, the opponent and ties.
- **Search filters.** The Games catalogue (category tab plus search box), the Leaderboard (username search, game selector, timeframe selector) and the FAQ (question/answer search).
- **Settings.** The settings record with its defaults, and how the settings service normalises a stored row into a complete record.
- **Profile statistics.** The per-game rows are summed into games played, total points and a rounded win rate. The chess rating is read from the chess row.
- **Avatars.** `avatar.ts` gives each user:
  - a colour derived from the UTF-16 code units of their name;
  - an initial;
  - an SVG avatar delivered as a `data:` address through `encodeURIComponent`.

Modules:

- **Shared:**
  - `Board` is shared by both tic-tac-toe engines. It holds the eight lines, the evaluator and the "first cell that completes a line" search.
  - `Strings` holds ASCII case mapping, `includes` and the JavaScript `trim`.
  - `Lists` holds `filter` and its properties.
  - `Rounding` holds `Math.round` of a percentage on integers.
  - `Backend` holds the `{ data, error }` answer of a query.
  - `Wrappers` holds `Option`.
- **Auraxo:** `Game` is a class whose board is a sequence field. Every state update of the page replaces the board with a new array.
- **TicTacToe:** `Game` is a class whose board is an `array2<Cell>`. The page copies only the outer array, so every move writes into the shared rows. A ghost row-major view `cells` mirrors the grid.
- **Games, Leaderboard, Faq:** the page state as datatypes, and the handlers as functions from state to state.
- **UserSettings, SettingsService, Profile:** the records and the pure computations on the database's answers.
- **Avatar:** the code-unit model of JavaScript strings, UTF-8 and the ECMAScript `Encode` algorithm used by `encodeURIComponent`.

Strings follow one convention throughout: a `string` is a sequence of Dafny `char`s, that is, of Unicode scalar values.
`Strings` works on those characters directly: lower-casing, `includes` and `trim` never need to see a surrogate.
`Avatar` needs JavaScript's UTF-16 code units (`charCodeAt`, `charAt`), so it converts each character to one or two units with `CharUnits`.
Everywhere else a JavaScript string is read as the characters it encodes.

Randomness is a parameter:

- `pick: nat` is the index drawn by `Math.floor(Math.random() * n)`, taken modulo n.
- `coin: bool` is the Medium opponent's `Math.random() > 0.5`.

Database answers are also parameters:

- a `Response` with `data` and `error`;
- or a `saved`/`error` flag for an update or insert.

## Model

| member | source | states |
|---|---|---|
| Rounding.RoundedPercent | src/pages/Profile.tsx:88 | the result is the integer nearest to 100·part/whole, ties going up, and it is at most 100 whenever part ≤ whole |
| Board.NoWinnerIffNoCompleteLine | src/pages/games/Auraxo.tsx:160-172 | the evaluator reports no winner exactly when none of the eight lines is complete (first cell set, other two equal to it) |
| Board.WinnerOwnsLine | src/pages/games/Auraxo.tsx:160-172 | a reported mark owns all three cells of some line, and every line scanned before that one is incomplete |
| Board.Full | src/pages/games/Auraxo.tsx:174-176 | true exactly when every cell is set |
| Board.EmptyBelow | src/pages/games/Auraxo.tsx:233-236 | the empty cells below n, each exactly once, in increasing order |
| Board.EmptyCells | src/pages/games/Auraxo.tsx:233-236 | the indices of the empty cells, all of them and only them, increasing; empty exactly when the board is full |
| Board.FreeAmong | src/pages/games/Auraxo.tsx:263-271 | the candidate cells that are empty (the corner filter), no more than the candidates |
| Board.Choose | src/pages/games/Auraxo.tsx:234-235 | the random pick always lands on one of the candidates, and on the picked one when the index is in range |
| Board.FirstCompletingFrom | src/pages/games/Auraxo.tsx:240-259 | a reported cell is at or after the start and completes a line for the player |
| Board.MoveWinsOnlyForMover | src/pages/games/Auraxo.tsx:186-198 | on an undecided board a single move can make only its own mover the winner |
| Board.CompletesIffOwnsLine | src/pages/games/Auraxo.tsx:240-259 | on an undecided board, trying p in cell i makes the evaluator report p exactly when the cell is empty and p then owns a whole line |
| Board.FirstCompletingIs | src/pages/games/Auraxo.tsx:240-259 | when no cell below i completes a line, the first completing cell is i (or none when i = 9): the scan's early return is the lowest such cell |
| Board.EmptyBoardIsOpen | src/pages/games/Auraxo.tsx:143-150 | the fresh board has no winner and is not full |
| Auraxo.WinRate | src/pages/games/Auraxo.tsx:70-72 | 0 before any game; otherwise a percentage, at most 100 when wins ≤ games |
| Auraxo.Tally | src/pages/games/Auraxo.tsx:106-136 | exactly one counter goes up by one (wins iff win, losses iff loss, draws iff draw), played goes up by one, and a consistent tally stays consistent with a rate of at most 100 |
| Auraxo.StatsFromRow | src/pages/games/Auraxo.tsx:69-80 | the stored counters are taken as they are, and a row whose counters add up gives a consistent tally with a rate of at most 100 |
| Auraxo.CheckWinner | src/pages/games/Auraxo.tsx:160-172 | the loop over the eight lines returns the evaluator's winner |
| Auraxo.ScanForCompletion | src/pages/games/Auraxo.tsx:240-259 | the loop that tries p in each empty cell of a copy returns the lowest cell that completes a line for p, or none |
| Auraxo.GetAIMove | src/pages/games/Auraxo.tsx:231-276 | the move is an empty cell: Easy picks any empty cell; Medium and Hard win if they can, else block; Medium otherwise picks at random; Hard takes the centre, else a free corner, else any empty cell |
| Auraxo.StatsAfter | src/pages/games/Auraxo.tsx:102-141 | the tally moves only when a signed-in player's update was saved |
| Auraxo.Game.constructor | src/pages/games/Auraxo.tsx:27-40 | the intro screen with an empty board, Medium, no tally and nobody thinking |
| Auraxo.Game.SetDifficulty | src/pages/games/Auraxo.tsx:377-397 | the intro's level buttons set the level and nothing else |
| Auraxo.Game.StartGame | src/pages/games/Auraxo.tsx:143-150 | a fresh board with X to move, intro closed, level and tally kept |
| Auraxo.Game.ResetGame | src/pages/games/Auraxo.tsx:152-158 | only once a game is over: a fresh board with X to move, level, tally and intro flag kept |
| Auraxo.Game.UpdateGameStats | src/pages/games/Auraxo.tsx:102-141 | the tally becomes StatsAfter of the result: recorded only for a signed-in user whose update succeeded |
| Auraxo.Game.HandleCellClick | src/pages/games/Auraxo.tsx:178-228 | an ignored click changes nothing; an accepted one marks X, then a win or draw ends the game and is recorded, otherwise the opponent starts thinking |
| Auraxo.Game.AiMove | src/pages/games/Auraxo.tsx:207-227 | the timeout callback: O is placed on the empty cell GetAIMove's strategy picks on the board before the move (Easy: any empty cell; Medium and Hard: win, else block; Medium otherwise at random; Hard otherwise centre, free corner, any empty cell), then win, draw or X to move |
| Auraxo.Game.PlaceAiMark | src/pages/games/Auraxo.tsx:208-227 | O's mark on the chosen empty cell, then the game is won, drawn or handed back to X |
| Auraxo.Game.FetchGameStats | src/pages/games/Auraxo.tsx:55-99 | an error other than "no rows" or an absent row keeps the tally; a row replaces it by its counters |
| TicTacToe.MirrorIsCells | src/pages/games/TicTacToe.tsx:13 | a sequence mirroring the grid is its row-major reading |
| TicTacToe.PosOf | src/pages/games/TicTacToe.tsx:127-135 | a flat index's `{row, col}` lies in the grid and maps back to the index |
| TicTacToe.PosOfOption | src/pages/games/TicTacToe.tsx:145-171 | a found flat index becomes its `{row, col}`; none stays none |
| TicTacToe.CornersInGrid | src/pages/games/TicTacToe.tsx:179-184 | the four corners are cells of the grid |
| TicTacToe.FreePositions | src/pages/games/TicTacToe.tsx:186-188 | the corners whose cell is empty, all of them and only them |
| TicTacToe.EmptyPositionsBelowExactly | src/pages/games/TicTacToe.tsx:127-136 | the collected references are exactly those of the empty cells |
| TicTacToe.RandomCell | src/pages/games/TicTacToe.tsx:126-143 | null exactly when the board is full; otherwise an empty cell of the grid |
| TicTacToe.SmartMoveIsFree | src/pages/games/TicTacToe.tsx:145-196 | every answer of the smart strategy is an empty cell, and there is none only on a full board |
| TicTacToe.BestMoveIsFree | src/pages/games/TicTacToe.tsx:145-196 | the same for findBestMove on the page's own grid |
| TicTacToe.CheckWinner | src/pages/games/TicTacToe.tsx:198-231 | rows, columns and diagonals are checked in order and the shared evaluator's winner is returned |
| TicTacToe.IsBoardFull | src/pages/games/TicTacToe.tsx:233-242 | true exactly when every cell is set |
| TicTacToe.NewGrid | src/pages/games/TicTacToe.tsx:16 | a fresh grid of nine empty cells |
| TicTacToe.EmptyCellsOf | src/pages/games/TicTacToe.tsx:127-136 | the nested loop collects the empty cells row by row |
| TicTacToe.SetCell | src/pages/games/TicTacToe.tsx:42 | the in-place write changes exactly that cell of the row-major view |
| TicTacToe.DeepCopy | src/pages/games/TicTacToe.tsx:151 | `JSON.parse(JSON.stringify(...))` gives a fresh grid with the same cells |
| TicTacToe.TryMark | src/pages/games/TicTacToe.tsx:150-155 | marking a copy and evaluating it says whether that cell completes a line for the player |
| TicTacToe.ScanForCompletion | src/pages/games/TicTacToe.tsx:148-171 | one nested scan returns the `{row, col}` of the lowest cell that completes a line for the player, or none |
| TicTacToe.Game.constructor | src/pages/games/TicTacToe.tsx:16-22 | an empty grid, X to move, Medium, a zero score, nothing scheduled |
| TicTacToe.Game.SetAiLevel | src/pages/games/TicTacToe.tsx:381-395 | the level changes; a turn already scheduled keeps the level it captured |
| TicTacToe.Game.HandleCellClick | src/pages/games/TicTacToe.tsx:38-75 | an ignored click changes nothing; an accepted one writes X in place, then scores a win or a tie and ends the game with `loading` still clear and nothing scheduled, or hands over to O and schedules the opponent's turn (lines 24-36) |
| TicTacToe.Game.ScoreHumanMove | src/pages/games/TicTacToe.tsx:45-74 | after X's mark: a winner is scored to its side, a full board to ties, both leaving `loading` clear and nothing scheduled; otherwise O is to move with the turn scheduled |
| TicTacToe.Game.MakeRandomMove | src/pages/games/TicTacToe.tsx:126-143 | the empty-cell collection and the random pick among it |
| TicTacToe.Game.FindBestMove | src/pages/games/TicTacToe.tsx:145-196 | win if O can, else block X, else the centre, else a random free corner, else a random cell |
| TicTacToe.Game.SelectMove | src/pages/games/TicTacToe.tsx:83-94 | Easy, and Medium on a losing coin, move at random; Hard, and Medium on a winning coin, take the first winning cell, else the first blocking cell, else the centre, else a random free corner, else a random empty cell; the move is always an empty cell, and there is none only on a full board |
| TicTacToe.Game.PlaceAiMark | src/pages/games/TicTacToe.tsx:96-123 | O's mark written in place, then a win, a tie or X to move |
| TicTacToe.Game.ScoreAiMove | src/pages/games/TicTacToe.tsx:101-122 | after O's mark: a win for the opponent, a tie, or X to move |
| TicTacToe.Game.MakeAiMove | src/pages/games/TicTacToe.tsx:77-124 | a finished game is left alone; otherwise O goes on an empty cell chosen by the level's strategy on the board before the move (random, or win, block, centre, random free corner, random cell), and the outcome is scored |
| TicTacToe.Game.AiTurn | src/pages/games/TicTacToe.tsx:29-32 | the timeout fires: the opponent moves with the level it captured, through the whole tier chain (random, or win, block, centre, random free corner, random cell), and `loading` is cleared; an O win from any tier scores for the opponent, a full grid scores a tie |
| TicTacToe.Game.ResetGame | src/pages/games/TicTacToe.tsx:244-249 | fresh grid, X to move, no winner, game open; score, level and `loading` kept; the effect's cleanup cancels a pending turn |
| TicTacToe.Game.ResetGameClearingLoading | src/pages/games/TicTacToe.tsx:244-249 | the corrected reset also clears `loading`, so every cell is clickable afterwards |
| TicTacToe.OpeningIsOpen | src/pages/games/TicTacToe.tsx:38-74 | X's first click leaves the game undecided with O to move |
| TicTacToe.ResetDuringOpponentDelay | src/pages/games/TicTacToe.tsx:24-36 | a click, then reset within the 700 ms delay, leaves `loading` set with no turn pending: no cell accepts a click |
| TicTacToe.ResetDuringOpponentDelayCorrected | src/pages/games/TicTacToe.tsx:244-249 | the same presses with the corrected reset leave every cell clickable |
| Strings.LowerChar | src/pages/Games.tsx:127 | capitals map to small letters, every other character to itself |
| Strings.UpperChar | src/utils/avatar.ts:35 | small letters map to capitals, every other character to itself |
| Strings.ToLower | src/pages/Games.tsx:127 | same length, each character lowered, no capital left |
| Strings.ToLowerIdempotent | src/pages/FAQ.tsx:75-76 | lowering twice is lowering once |
| Strings.IncludesIffOccurs | src/pages/Games.tsx:129-130 | `includes` holds exactly when the text occurs at some position |
| Strings.IncludesEmpty | src/pages/FAQ.tsx:74-77 | every string includes the empty string |
| Strings.TrimStart | src/pages/Games.tsx:126 | a suffix that starts with a non-space, with only whitespace removed |
| Strings.TrimEnd | src/pages/Games.tsx:126 | a prefix that ends with a non-space, with only whitespace removed |
| Strings.Trim | src/pages/Games.tsx:126 | the result begins and ends with a non-space character, or is empty |
| Strings.TrimEmptyIffBlank | src/pages/Games.tsx:126 | `trim() !== ''` exactly when some character is not whitespace |
| Lists.Filter | src/pages/Games.tsx:122 | no longer than the input, and every kept element passes the test |
| Lists.FilterMembers | src/pages/Games.tsx:122 | an element is kept exactly when it is in the input and passes the test |
| Lists.FilterIsSubsequence | src/pages/Games.tsx:122 | the kept elements keep their order: the result is a subsequence |
| Lists.SubsequenceTransitive | src/pages/Games.tsx:121-132 | a subsequence of a subsequence is a subsequence (two filters in a row) |
| Lists.FilterKeepsAll | src/pages/FAQ.tsx:74-77 | a test that every element passes keeps the list unchanged |
| Lists.FilterTwice | src/pages/Games.tsx:121-132 | filtering by p then q is filtering by p and q together |
| Lists.FilterAgrees | src/pages/Games.tsx:121-132 | two tests that agree on the list filter it alike |
| Games.FilterGames | src/pages/Games.tsx:117-135 | no more games than the catalogue; each shown game is a catalogue game of the active tab's category (any for "all") and, unless the query is blank, matches the lowered query; "all" with a blank query shows the whole catalogue |
| Games.FilterGamesIsSubsequence | src/pages/Games.tsx:117-135 | the shown games are catalogue games in catalogue order |
| Games.FilterGamesKeeps | src/pages/Games.tsx:117-135 | a game is shown exactly when it is in the catalogue, its category is the tab's (or the tab is "all"), and the query is blank or occurs in its lowered title or description |
| Games.NoRestrictionShowsAll | src/pages/Games.tsx:121-132 | with the "all" tab and a blank query the whole catalogue is shown, in order |
| Games.InitialPage | src/pages/Games.tsx:101-103 | the first render's list is the filter of the empty query and the "all" tab |
| Games.HandleSearch | src/pages/Games.tsx:105-110 | the new query is stored and the list is recomputed with the tab already active |
| Games.HandleCategoryChange | src/pages/Games.tsx:112-115 | the new tab is stored and the list is recomputed with the query already typed |
| Leaderboard.InitialPage | src/pages/Leaderboard.tsx:135-139 | the selector shows the address's non-empty `game` entry, or "all", but the list is the whole leaderboard either way |
| Leaderboard.SetSearchQuery | src/pages/Leaderboard.tsx:207 | typing changes only the query; the list waits for the search |
| Leaderboard.SearchResults | src/pages/Leaderboard.tsx:146-148 | no more players than the data; every player found is in the data and the lowered query occurs in their lowered username |
| Leaderboard.HandleSearch | src/pages/Leaderboard.tsx:141-151 | only the list changes; it is a subsequence of the leaderboard, and all of it for a blank query |
| Leaderboard.HandleSearchKeeps | src/pages/Leaderboard.tsx:146-148 | for a non-blank query a player is shown exactly when the lowered query occurs in the lowered username |
| Leaderboard.GameResults | src/pages/Leaderboard.tsx:159-170 | no more players than the data; an unmapped id matches nobody; with a mapped id every player found has the mapped name as favourite |
| Leaderboard.GameResultsKeeps | src/pages/Leaderboard.tsx:159-171 | a player matches exactly when the id is mapped and the favourite is the mapped name |
| Leaderboard.HandleGameChange | src/pages/Leaderboard.tsx:153-176 | "all" clears the address entry and shows everyone; another id is written to the address and shows its players, or everyone when none match; the list is never empty unless the data is |
| Leaderboard.HandleTimeframeChange | src/pages/Leaderboard.tsx:178-182 | only the timeframe changes; the list stays as it was |
| Leaderboard.TopThree | src/pages/Leaderboard.tsx:258 | the first three shown players, or all of them when fewer |
| Leaderboard.FiltersDoNotCompose | src/pages/Leaderboard.tsx:141-176 | a search forgets the game filter and a game change forgets the search |
| Leaderboard.RpsFallsBack | src/pages/Leaderboard.tsx:168-171 | no player's favourite is AURARPS, so choosing it shows the whole leaderboard |
| Leaderboard.NothingKept | src/pages/Leaderboard.tsx:168-171 | a filter nobody passes returns the empty list |
| Faq.FilteredFaqs | src/pages/FAQ.tsx:74-77 | no more entries than the page has, each one matching |
| Faq.FilteredFaqsKeeps | src/pages/FAQ.tsx:74-77 | an entry is shown exactly when the lowered query occurs in its lowered question or answer |
| Faq.FilteredFaqsIsSubsequence | src/pages/FAQ.tsx:74-77 | the shown entries keep the page's order |
| Faq.EmptyQueryShowsAll | src/pages/FAQ.tsx:71-77 | the empty search box shows every entry |
| UserSettings.DefaultsAreWellTyped | src/types/userSettings.ts:33-62 | the defaults: dark theme, Arabic, volumes at 100, medium opponent, every switch on but reduced animations, every choice within its union |
| SettingsService.OrElse | src/services/settingsService.ts:27-53 | `||` on a string: a missing or empty value gives the fallback, any other the value |
| SettingsService.Coalesce | src/services/settingsService.ts:27-53 | `??`: only a missing value gives the fallback, so 0 and false are kept |
| SettingsService.EmptyRowGivesDefaults | src/services/settingsService.ts:20-55 | a row with every column missing reads back as the defaults |
| SettingsService.Normalize | src/services/settingsService.ts:27-53 | every field of the record is either the stored column or its default, and no choice field is ever the empty string |
| SettingsService.NormalizeRoundTrip | src/services/settingsService.ts:20-55 | a stored well-typed record reads back as itself |
| SettingsService.NormalizeKeepsStoredValues | src/services/settingsService.ts:27-53 | stored volumes and switches are kept (0 and false included), and non-empty choices are kept whether or not they are in their union |
| SettingsService.NormalizeFallsBack | src/services/settingsService.ts:27-53 | a missing volume or switch, and a missing or empty choice, take the default |
| SettingsService.NormalizeWellTyped | src/services/settingsService.ts:27-53 | choices that are missing, empty or within their unions give a well-typed record |
| SettingsService.FetchUserSettings | src/services/settingsService.ts:8-62 | an error other than "no rows" gives null; otherwise a row gives its normalised record and no row gives null |
| SettingsService.CreateDefaultSettings | src/services/settingsService.ts:67-83 | the defaults exactly when the insert succeeded, otherwise null |
| SettingsService.UpdateUserSettings | src/services/settingsService.ts:88-102 | true exactly when the update reported no error |
| Profile.SumAppend | src/pages/Profile.tsx:77-79 | the reduce-sum over two batches of rows is the sum of the two sums |
| Profile.SumMonotone | src/pages/Profile.tsx:77-78 | a column at most another on every row sums to at most the other's sum |
| Profile.FindChess | src/pages/Profile.tsx:82 | none exactly when no row is chess; otherwise the first chess row |
| Profile.AggregateOfNoRows | src/pages/Profile.tsx:92-101 | the aggregate formulas on no rows give exactly the no-games panel (rating 1200, zeros) |
| Profile.Aggregate | src/pages/Profile.tsx:77-91 | games played and total points are the column sums; the rating is the score of the first chess row, or 1200 when no row is chess; the win rate is 0 without games and otherwise the integer nearest to 100·wins/games, ties going up; achievements 0, no recent games |
| Profile.WinRateIsPercentage | src/pages/Profile.tsx:88 | when no row has more wins than games, the win rate is at most 100 and is the rounded percentage of the totals |
| Profile.FetchGameStats | src/pages/Profile.tsx:66-106 | an error keeps the panel; no rows give the no-games panel; otherwise the panel is the aggregate of the rows: the totals are the sums, achievements and recent games are cleared, the rating is the first chess row's score or 1200 without one, and the win rate is the rounded percentage of wins, or 0 without games |
| Avatar.CharUnits | src/utils/avatar.ts:21-22 | a character below U+10000 is one non-surrogate unit equal to it; from there on it is a high and a low surrogate that stand for it |
| Avatar.Utf16Append | src/utils/avatar.ts:21-22 | the code units of a concatenation are the concatenated code units |
| Avatar.UsernameColor | src/utils/avatar.ts:5-28 | the colour is always one of the nine |
| Avatar.GetUsernameColor | src/utils/avatar.ts:19-27 | the loop's sum of `charCodeAt` over the code units picks the colour at its remainder modulo nine |
| Avatar.EmptyNameColor | src/utils/avatar.ts:20-27 | the empty name gets indigo |
| Avatar.UnitSumPermutation | src/utils/avatar.ts:20-23 | the hash does not depend on the order of the characters |
| Avatar.SameLettersSameColor | src/utils/avatar.ts:5-28 | two names made of the same characters get the same colour |
| Avatar.UpperUnit | src/utils/avatar.ts:35 | upper-casing one code unit maps ASCII small letters to capitals and leaves the rest |
| Avatar.UserInitialUnits | src/utils/avatar.ts:33-36 | as written: "?" for the empty name; the upper-cased first character when it is below U+10000; a lone high surrogate otherwise |
| Avatar.UserInitial | src/utils/avatar.ts:33-36 | corrected: "?" or the whole first character upper-cased, agreeing with the as-written initial below U+10000 |
| Avatar.Utf8 | src/utils/avatar.ts:60 | one to four bytes, a single byte exactly for ASCII, which encodes itself |
| Avatar.EncodeCodePoint | src/utils/avatar.ts:60 | an unreserved ASCII character is kept; any other code point becomes its UTF-8 bytes as `%XX` |
| Avatar.EncodeUnits | src/utils/avatar.ts:60 | encodeURIComponent on code units: no units give the empty text, a leading low surrogate is a URIError, and a result holds only unreserved characters and `%` and is at least as long as the input |
| Avatar.EncodeString | src/utils/avatar.ts:60 | encoding a string character by character gives only unreserved characters and `%`, at least as many as the string has |
| Avatar.EncodesWellFormed | src/utils/avatar.ts:60 | encodeURIComponent never fails on a string's own code units, and encodes it character by character |
| Avatar.LoneHighSurrogate | src/utils/avatar.ts:60 | a high surrogate followed by the code units of any string is a URIError |
| Avatar.EncodeStringAppend | src/utils/avatar.ts:60 | encoding a concatenation concatenates the encodings |
| Avatar.EncodeUnreserved | src/utils/avatar.ts:60 | a string of unreserved characters encodes as itself |
| Avatar.ColorsAreHex | src/utils/avatar.ts:7-17 | every colour is `#` and six upper-case hexadecimal digits |
| Avatar.EncodeColor | src/utils/avatar.ts:43-60 | a colour encodes as `%23` and its digits unchanged |
| Avatar.GenerateAvatarUrl | src/utils/avatar.ts:41-61 | as written: an address with the `data:image/svg+xml;utf8,` prefix whenever encoding succeeds |
| Avatar.GenerateAvatarUrlCorrected | src/utils/avatar.ts:41-61 | corrected: always an address with that prefix |
| Avatar.AvatarUrlAgrees | src/utils/avatar.ts:33-61 | on the empty name and on every name starting below U+10000, the as-written address is the corrected one |
| Avatar.AvatarUrlFailsOnAstralInitial | src/utils/avatar.ts:33-61 | on a name starting at U+10000 or above (an emoji), the as-written generator throws a URIError |
| Avatar.AvatarUrlShape | src/utils/avatar.ts:41-61 | the corrected address is the prefix, the encoded picture head, `%23` and the colour's digits, then the encoded rest of the picture with the initial |

## Left out

- Database queries, authentication, redirects, toasts, sounds, animations and rendering are left out. The answers of queries are parameters: a `Response`, a `saved` flag or an error.
- Auraxo.Game.FetchGameStats: the insert of a zero row when the player has none is left out. It is a side effect on the database and does not change the page's tally.
- Auraxo.GetAIMove requires a board with an empty cell. The page calls it only after a move that neither won nor filled the board.
- Timers: the opponent's delayed turn is a separate step, `AiMove` (Auraxo) or `AiTurn` (TicTacToe). React's batching of state updates is folded into one method per handler.
- Random choices are parameters: an index taken modulo the number of candidates, and a coin. The distribution of `Math.random` is left out.
- Rounding.RoundedPercent: `Math.round` of a floating-point quotient is modelled as exact half-up rounding of the rational percentage. Floating-point error near .5 is left out.
- Strings.ToLower, Strings.LowerChar, Strings.UpperChar and Avatar.UpperUnit map only the ASCII letters. JavaScript's full Unicode case mapping (e.g. `ß` upper-casing to `SS`) is left out.
- Faq: the entry texts are a parameter, because they are long Arabic prose with no effect on the filter's logic.
- Leaderboard: the functions take the player list as a parameter and the page passes `LeaderboardData`. Avatar pictures and the timeframe's effect on the data (there is none in the source) are left out.
- Games: the catalogue keeps only the fields the filter reads. Images and display names are left out.
- TicTacToe.Game.FindBestMove: the `depth` argument is accepted and unused, as in the source.
- SettingsService: the `as` casts of the stored strings to their unions are unchecked in the source. The model keeps any string and states well-typedness as a separate predicate.
- The Chess page, the Settings page's form handling and the profile editing form are not part of this model.
- Integers are unbounded. Counters and sums that would exceed JavaScript's safe integer range are left out.

## Findings

| source | as written | input that shows it | evidently intended | confidence | as-written member | corrected member |
|---|---|---|---|---|---|---|
| src/pages/games/TicTacToe.tsx:244-249 | `resetGame` restores the board but not `loading`; when it runs during the 700 ms delay, the effect's cleanup cancels the timeout whose callback would have cleared `loading` (lines 24-36) | click a cell, then press the always-shown reset button before the opponent moves | reset leaves a playable board, so every cell accepts a click | not executed | TicTacToe.ResetDuringOpponentDelay | TicTacToe.ResetDuringOpponentDelayCorrected |
| src/utils/avatar.ts:33-36 | `charAt(0)` takes one UTF-16 code unit, so a name starting with an astral character yields a lone high surrogate, which `encodeURIComponent` (line 60) rejects with a URIError | the username "😀abc" (U+1F600 first) | the initial is the whole first character and an address is always produced | not executed | Avatar.AvatarUrlFailsOnAstralInitial | Avatar.GenerateAvatarUrlCorrected |
