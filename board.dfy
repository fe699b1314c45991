/**
 * The tic-tac-toe position that both game variants play on: nine cells in
 * row-major order (cell 3 * r + c is row r, column c), the eight winning
 * lines, the evaluator that reports the first complete line, and the
 * one-ply notions ("this empty cell wins for p") the opponents are built on.
 */
module Board {
  import opened Wrappers

  datatype Player = X | O

  /** A cell is `null` (Empty) or holds one player's mark. */
  datatype Cell = Empty | Mark(player: Player)

  type Index = i: nat | i < 9

  /** A board of exactly nine cells. */
  type Squares = s: seq<Cell> | |s| == 9
    witness [Empty, Empty, Empty, Empty, Empty, Empty, Empty, Empty, Empty]

  const EmptyBoard: Squares := [Empty, Empty, Empty, Empty, Empty, Empty, Empty, Empty, Empty]

  datatype Line = Line(a: Index, b: Index, c: Index)

  /** Rows, then columns, then the two diagonals, in the order they are scanned. */
  const Lines: seq<Line> := [
    Line(0, 1, 2), Line(3, 4, 5), Line(6, 7, 8),
    Line(0, 3, 6), Line(1, 4, 7), Line(2, 5, 8),
    Line(0, 4, 8), Line(2, 4, 6)
  ]

  const Center: Index := 4
  const Corners: seq<Index> := [0, 2, 6, 8]

  /** The evaluator's test on one line: the first cell is set and the other two equal it. */
  predicate Complete(s: seq<Cell>, l: Line)
    requires |s| == 9
  {
    s[l.a] != Empty && s[l.a] == s[l.b] && s[l.a] == s[l.c]
  }

  /** All three cells of the line hold p's mark. */
  predicate Owns(s: seq<Cell>, l: Line, p: Player)
    requires |s| == 9
  {
    s[l.a] == Mark(p) && s[l.b] == Mark(p) && s[l.c] == Mark(p)
  }

  /** The mark of the first complete line among Lines[k..], or Empty when there is none. */
  function WinnerFrom(s: seq<Cell>, k: nat): Cell
    requires |s| == 9 && k <= |Lines|
    decreases |Lines| - k
  {
    if k == |Lines| then Empty
    else if Complete(s, Lines[k]) then s[Lines[k].a]
    else WinnerFrom(s, k + 1)
  }

  /** The evaluator reports Empty exactly when none of the lines it scans is complete. */
  lemma {:induction false} NoWinnerIffNoCompleteLine(s: Squares, k: nat)
    requires k <= |Lines|
    ensures WinnerFrom(s, k) == Empty <==> forall j :: k <= j < |Lines| ==> !Complete(s, Lines[j])
    decreases |Lines| - k
  {
    if k < |Lines| {
      NoWinnerIffNoCompleteLine(s, k + 1);
    }
  }

  /**
   * A mark is reported only for a line that mark owns, and no line scanned
   * before it is complete.
   */
  lemma {:induction false} WinnerOwnsLine(s: Squares, k: nat)
    requires k <= |Lines|
    ensures WinnerFrom(s, k).Mark? ==>
      exists j :: k <= j < |Lines| && Owns(s, Lines[j], WinnerFrom(s, k).player) &&
        forall i :: k <= i < j ==> !Complete(s, Lines[i])
    decreases |Lines| - k
  {
    if k < |Lines| {
      if Complete(s, Lines[k]) {
        assert Owns(s, Lines[k], WinnerFrom(s, k).player);
      } else {
        WinnerOwnsLine(s, k + 1);
      }
    }
  }

  /** The evaluator: the mark of the first complete line, or Empty. */
  function Winner(s: seq<Cell>): Cell
    requires |s| == 9
  {
    WinnerFrom(s, 0)
  }

  /** Every cell is set (`every(cell => cell !== null)`). */
  function Full(s: seq<Cell>): (full: bool)
    ensures full <==> forall i :: 0 <= i < |s| ==> s[i] != Empty
  {
    |s| == 0 || (s[0] != Empty && Full(s[1..]))
  }

  /** The indices below n of the empty cells, in increasing order. */
  function EmptyBelow(s: seq<Cell>, n: nat): (r: seq<nat>)
    requires n <= |s|
    ensures forall k :: 0 <= k < |r| ==> r[k] < n && s[r[k]] == Empty
    ensures forall i :: 0 <= i < n && s[i] == Empty ==> i in r
    ensures forall j, k :: 0 <= j < k < |r| ==> r[j] < r[k]
  {
    if n == 0 then []
    else EmptyBelow(s, n - 1) + (if s[n - 1] == Empty then [n - 1] else [])
  }

  /**
   * The indices of the empty cells in increasing order: exactly the empty
   * cells, each once, lowest first; none exactly when the board is full.
   */
  function EmptyCells(s: seq<Cell>): (r: seq<nat>)
    ensures forall k :: 0 <= k < |r| ==> r[k] < |s| && s[r[k]] == Empty
    ensures forall i :: 0 <= i < |s| && s[i] == Empty ==> i in r
    ensures forall j, k :: 0 <= j < k < |r| ==> r[j] < r[k]
    ensures r == [] <==> Full(s)
  {
    var r := EmptyBelow(s, |s|);
    assert r != [] ==> s[r[0]] == Empty;
    r
  }

  /** The candidates whose cell is empty, in the candidates' order. */
  function FreeAmong(s: Squares, candidates: seq<Index>): (r: seq<Index>)
    ensures forall i :: i in r <==> i in candidates && s[i] == Empty
    ensures |r| <= |candidates|
    decreases |candidates|
  {
    if candidates == [] then []
    else (if s[candidates[0]] == Empty then [candidates[0]] else []) + FreeAmong(s, candidates[1..])
  }

  /**
   * `candidates[Math.floor(Math.random() * candidates.length)]`: the random
   * draw is the caller's `pick`, so every candidate can be chosen and nothing
   * else can.
   */
  function Choose<T>(candidates: seq<T>, pick: nat): (x: T)
    requires candidates != []
    ensures x in candidates
    ensures pick < |candidates| ==> x == candidates[pick]
  {
    candidates[pick % |candidates|]
  }

  /** Filling the empty cell i with p's mark makes the evaluator report p. */
  predicate Completes(s: seq<Cell>, i: Index, p: Player)
    requires |s| == 9
  {
    s[i] == Empty && Winner(s[i := Mark(p)]) == Mark(p)
  }

  /** The lowest cell at or after i that completes a line for p, if any. */
  function FirstCompletingFrom(s: seq<Cell>, p: Player, i: nat): (r: Option<Index>)
    requires |s| == 9 && i <= 9
    ensures r.Some? ==> i <= r.value && Completes(s, r.value, p)
    decreases 9 - i
  {
    if i == 9 then None
    else if Completes(s, i, p) then Some(i)
    else FirstCompletingFrom(s, p, i + 1)
  }

  /** The lowest cell that completes a line for p, if any. */
  function FirstCompleting(s: seq<Cell>, p: Player): Option<Index>
    requires |s| == 9
  {
    FirstCompletingFrom(s, p, 0)
  }

  /** Neither player can complete a line with one move. */
  ghost predicate NoThreat(s: seq<Cell>)
    requires |s| == 9
  {
    FirstCompleting(s, O).None? && FirstCompleting(s, X).None?
  }

  /**
   * On a board with no complete line, a single move can only make its own
   * mover the winner: any line complete afterwards runs through the new mark.
   */
  lemma {:induction false} MoveWinsOnlyForMover(s: Squares, i: Index, p: Player)
    requires Winner(s) == Empty && s[i] == Empty
    ensures Winner(s[i := Mark(p)]) == Empty || Winner(s[i := Mark(p)]) == Mark(p)
  {
    var t := s[i := Mark(p)];
    var w := Winner(t);
    WinnerOwnsLine(t, 0);
    if w.Mark? {
      var j :| 0 <= j < |Lines| && Owns(t, Lines[j], w.player);
      var l := Lines[j];
      NoWinnerIffNoCompleteLine(s, 0);
      assert !Complete(s, l);
      assert l.a == i || l.b == i || l.c == i;
    }
  }

  /**
   * On a board with no complete line, a cell completes a line for p exactly
   * when it is empty and filling it gives p a whole line.
   */
  lemma {:induction false} CompletesIffOwnsLine(s: Squares, i: Index, p: Player)
    requires Winner(s) == Empty
    ensures Completes(s, i, p) <==>
      s[i] == Empty && exists k :: 0 <= k < |Lines| && Owns(s[i := Mark(p)], Lines[k], p)
  {
    var t := s[i := Mark(p)];
    WinnerOwnsLine(t, 0);
    if s[i] == Empty && exists k :: 0 <= k < |Lines| && Owns(t, Lines[k], p) {
      var k :| 0 <= k < |Lines| && Owns(t, Lines[k], p);
      assert Complete(t, Lines[k]);
      NoWinnerIffNoCompleteLine(t, 0);
      MoveWinsOnlyForMover(s, i, p);
    }
  }

  /**
   * The scan's conclusion: when no cell below i completes a line for p, the
   * first completing cell is i if i completes one, and there is none when i
   * is 9.
   */
  lemma {:induction false} FirstCompletingIs(s: Squares, p: Player, i: nat)
    requires i <= 9
    requires forall j: nat :: j < i ==> !Completes(s, j, p)
    requires i < 9 ==> Completes(s, i, p)
    ensures FirstCompleting(s, p) == if i < 9 then Some(i) else None
  {
    var r := FirstCompleting(s, p);
    if r.Some? {
      assert r.value >= i;
    }
  }

  /** The fresh board has no complete line and an empty cell. */
  lemma EmptyBoardIsOpen()
    ensures Winner(EmptyBoard) == Empty && !Full(EmptyBoard)
  {
    assert !Complete(EmptyBoard, Lines[0]);
    assert EmptyBoard[0] == Empty;
  }
}
