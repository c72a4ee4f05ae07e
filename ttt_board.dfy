/**
 * The Tic-Tac-Toe board: nine cells, the eight winning lines in the order the
 * screen checks them, the verdict rule (first complete line wins, a full
 * board without one is a draw) and the move-count arithmetic behind turns.
 */
module TttBoard {
  import opened Wrappers

  /** A cell: `""`, `"X"` or `"O"`. */
  datatype Mark = Empty | X | O

  type Cell = c: nat | c < 9

  /** Rows, columns, then the two diagonals. */
  const Lines: seq<(Cell, Cell, Cell)> :=
    [(0, 1, 2), (3, 4, 5), (6, 7, 8), (0, 3, 6), (1, 4, 7), (2, 5, 8), (0, 4, 8), (2, 4, 6)]

  /** `Array(9).fill("")` */
  function InitialBoard(): (b: seq<Mark>)
    ensures |b| == 9
    ensures forall i :: 0 <= i < |b| ==> b[i] == Empty
  {
    seq(9, _ => Empty)
  }

  /** `board[a] && board[a] === board[b] && board[a] === board[c]` */
  predicate Completes(board: seq<Mark>, line: (Cell, Cell, Cell))
    requires |board| == 9
  {
    board[line.0] != Empty && board[line.0] == board[line.1] && board[line.0] == board[line.2]
  }

  /** `board.every((square) => square)` */
  predicate Full(board: seq<Mark>) {
    forall i :: 0 <= i < |board| ==> board[i] != Empty
  }

  datatype Verdict = Won(mark: Mark) | Draw | Undecided

  /** The first complete line at position `from` or later, if any. */
  function FirstWin(board: seq<Mark>, from: nat): (r: Option<nat>)
    requires |board| == 9 && from <= |Lines|
    ensures r.Some? ==> from <= r.value < |Lines| && Completes(board, Lines[r.value])
    ensures r.Some? ==> forall j :: from <= j < r.value ==> !Completes(board, Lines[j])
    ensures r.None? ==> forall j :: from <= j < |Lines| ==> !Completes(board, Lines[j])
    decreases |Lines| - from
  {
    if from == |Lines| then None
    else if Completes(board, Lines[from]) then Some(from)
    else FirstWin(board, from + 1)
  }

  /**
   * The verdict on a board: the mark of the first complete line in list
   * order; otherwise a draw when full; otherwise undecided.
   */
  function Judge(board: seq<Mark>): (v: Verdict)
    requires |board| == 9
    ensures v.Won? <==> exists i :: 0 <= i < |Lines| && Completes(board, Lines[i])
    ensures v.Won? ==> v.mark != Empty
    ensures v.Won? ==> exists i :: (0 <= i < |Lines| && Completes(board, Lines[i])
      && v.mark == board[Lines[i].0] && forall j :: 0 <= j < i ==> !Completes(board, Lines[j]))
    ensures v == Draw <==> Full(board) && forall i :: 0 <= i < |Lines| ==> !Completes(board, Lines[i])
    ensures v == Undecided <==> !Full(board) && forall i :: 0 <= i < |Lines| ==> !Completes(board, Lines[i])
  {
    match FirstWin(board, 0)
    case Some(i) => Won(board[Lines[i].0])
    case None => if Full(board) then Draw else Undecided
  }

  /** `checkWinner`'s scan: the loop over the lines with its early return, then the full-board test. */
  method FindWinner(board: seq<Mark>) returns (v: Verdict)
    requires |board| == 9
    ensures v == Judge(board)
  {
    for i := 0 to |Lines|
      invariant FirstWin(board, i) == FirstWin(board, 0)
    {
      var (a, b, c) := Lines[i];
      if board[a] != Empty && board[a] == board[b] && board[a] == board[c] {
        return Won(board[a]);
      }
    }
    if Full(board) {
      return Draw;
    }
    return Undecided;
  }

  /** The worked case: a top row of X wins for X. */
  lemma TopRowWins()
    ensures Judge([X, X, X, Empty, Empty, Empty, Empty, Empty, Empty]) == Won(X)
  {
    var b := [X, X, X, Empty, Empty, Empty, Empty, Empty, Empty];
    assert Completes(b, Lines[0]);
  }

  /** The empty board is undecided. */
  lemma EmptyBoardUndecided()
    ensures Judge(InitialBoard()) == Undecided
  {
    assert InitialBoard()[0] == Empty;
  }

  /** How many cells hold `m`. */
  function CountMark(board: seq<Mark>, m: Mark): nat {
    if board == [] then 0 else (if board[0] == m then 1 else 0) + CountMark(board[1..], m)
  }

  /** Marking an empty cell with `m` adds one `m` and leaves every other count alone. */
  lemma {:induction false} CountAfterPlace(board: seq<Mark>, i: nat, m: Mark, k: Mark)
    requires i < |board| && board[i] == Empty && m != Empty
    ensures CountMark(board[i := m], k) == CountMark(board, k) + (if k == m then 1 else 0) - (if k == Empty then 1 else 0)
  {
    if i == 0 {
      assert board[i := m][1..] == board[1..];
    } else {
      assert board[i := m][1..] == board[1..][i - 1 := m];
      CountAfterPlace(board[1..], i - 1, m, k);
    }
  }

  /** The empty board has no marks. */
  lemma {:induction false} CountEmptyBoard(board: seq<Mark>, k: Mark)
    requires forall i :: 0 <= i < |board| ==> board[i] == Empty
    requires k != Empty
    ensures CountMark(board, k) == 0
  {
    if board != [] {
      CountEmptyBoard(board[1..], k);
    }
  }
}
