/** Board state and outcome rules of the 3x3 tic-tac-toe game: what a cell holds,
    the eight winning lines, the outcome check, and the effect of a pick on the board. */
module Board {

  datatype Option<+T> = None | Some(value: T)

  /** A player's mark ('X' or 'O' in the game). */
  datatype Mark = X | O

  /** One board slot: `null` in the game, or the mark placed there. */
  datatype Cell = Empty | Filled(mark: Mark)

  /** What the outcome check reports: `null` (game goes on), a winner, or 'Draw'. */
  datatype Outcome = Ongoing | Win(winner: Mark) | Draw

  /** A cell index, row-major over the 3x3 grid. */
  type Index = i: nat | i < 9

  /** Three cell indices that form a winning line. */
  datatype Line = Line(a: Index, b: Index, c: Index)

  /** The eight lines, in the order the outcome check scans them:
      rows, then columns, then the two diagonals. */
  const Lines: seq<Line> := [
    Line(0, 1, 2), Line(3, 4, 5), Line(6, 7, 8),
    Line(0, 3, 6), Line(1, 4, 7), Line(2, 5, 8),
    Line(0, 4, 8), Line(2, 4, 6)
  ]

  /** The other player. */
  function Other(p: Mark): (q: Mark)
    ensures q != p
  {
    if p == X then O else X
  }

  lemma OtherInvolutive(p: Mark)
    ensures Other(Other(p)) == p && (p == X || p == O)
  {
  }

  /** The row-major index the board gives the cell in row `i`, column `j`. */
  function CellIndex(i: nat, j: nat): (k: nat)
    requires i < 3 && j < 3
    ensures k < 9
    ensures k / 3 == i && k % 3 == j
  {
    i * 3 + j
  }

  /** Every index in [0,9) is the index of exactly one (row, column) pair. */
  lemma CellIndexBijective(k: nat)
    requires k < 9
    ensures k / 3 < 3 && k % 3 < 3 && CellIndex(k / 3, k % 3) == k
    ensures forall i: nat, j: nat :: i < 3 && j < 3 && CellIndex(i, j) == k ==> i == k / 3 && j == k % 3
  {
  }

  /** The fresh board: nine empty cells. */
  function EmptyBoard(): (b: seq<Cell>)
    ensures |b| == 9 && forall k :: 0 <= k < 9 ==> b[k] == Empty
  {
    seq(9, _ => Empty)
  }

  /** The three cells of `l` hold the same mark. */
  predicate Complete(b: seq<Cell>, l: Line)
    requires |b| == 9
  {
    b[l.a] != Empty && b[l.a] == b[l.b] && b[l.a] == b[l.c]
  }

  /** No cell is empty. */
  predicate Full(b: seq<Cell>)
  {
    forall k :: 0 <= k < |b| ==> b[k] != Empty
  }

  /** No winning line is complete. */
  predicate NoLine(b: seq<Cell>)
    requires |b| == 9
  {
    forall j :: 0 <= j < |Lines| ==> !Complete(b, Lines[j])
  }

  /** Line number `j` is complete and no earlier line in scan order is. */
  predicate FirstComplete(b: seq<Cell>, j: nat)
    requires |b| == 9
  {
    j < |Lines| && Complete(b, Lines[j]) && forall i :: 0 <= i < j ==> !Complete(b, Lines[i])
  }

  /** The scan of the lines from number `k` on: the mark on the first complete one, if any. */
  function FirstWin(b: seq<Cell>, k: nat): (r: Option<Mark>)
    requires |b| == 9 && k <= |Lines|
    ensures r.None? <==> forall j :: k <= j < |Lines| ==> !Complete(b, Lines[j])
    ensures r.Some? ==> exists j :: k <= j < |Lines| && Complete(b, Lines[j])
                                 && (forall i :: k <= i < j ==> !Complete(b, Lines[i]))
                                 && b[Lines[j].a] == Filled(r.value)
    decreases |Lines| - k
  {
    if k == |Lines| then None
    else if Complete(b, Lines[k]) then Some(b[Lines[k].a].mark)
    else FirstWin(b, k + 1)
  }

  /** The outcome check: the mark on the first complete line, otherwise 'Draw' on a
      full board, otherwise `null`. */
  function CheckWin(b: seq<Cell>): (r: Outcome)
    requires |b| == 9
    ensures r.Win? ==> exists j :: 0 <= j < |Lines| && FirstComplete(b, j) && b[Lines[j].a] == Filled(r.winner)
    ensures r.Win? <==> !NoLine(b)
    ensures r == Draw <==> NoLine(b) && Full(b)
    ensures r == Ongoing <==> NoLine(b) && !Full(b)
  {
    match FirstWin(b, 0)
    case Some(m) => Win(m)
    case None => if Full(b) then Draw else Ongoing
  }

  /** A reported winner owns every cell of some line. */
  lemma WinnerOwnsLine(b: seq<Cell>, m: Mark)
    requires |b| == 9 && CheckWin(b) == Win(m)
    ensures exists j :: 0 <= j < |Lines| && b[Lines[j].a] == Filled(m)
                     && b[Lines[j].b] == Filled(m) && b[Lines[j].c] == Filled(m)
  {
    var j :| 0 <= j < |Lines| && FirstComplete(b, j) && b[Lines[j].a] == Filled(m);
    assert Complete(b, Lines[j]);
  }

  /** The first complete line in scan order decides the winner. */
  lemma FirstLineWins(b: seq<Cell>, j: nat)
    requires |b| == 9 && FirstComplete(b, j)
    ensures CheckWin(b) == Win(b[Lines[j].a].mark)
  {
    var r := CheckWin(b);
    var j' :| 0 <= j' < |Lines| && FirstComplete(b, j') && b[Lines[j'].a] == Filled(r.winner);
    assert j' == j;
  }

  /** When every complete line belongs to the same player, the scan order does not
      matter: that player is the winner. */
  lemma LoneWinner(b: seq<Cell>, m: Mark, j: nat)
    requires |b| == 9 && j < |Lines| && Complete(b, Lines[j]) && b[Lines[j].a] == Filled(m)
    requires forall i :: 0 <= i < |Lines| && Complete(b, Lines[i]) ==> b[Lines[i].a] == Filled(m)
    ensures CheckWin(b) == Win(m)
  {
    assert !NoLine(b);
    var r := CheckWin(b);
    var i :| 0 <= i < |Lines| && FirstComplete(b, i) && b[Lines[i].a] == Filled(r.winner);
    assert Complete(b, Lines[i]);
  }

  /** The board a new game starts from is never terminal. */
  lemma EmptyBoardOngoing()
    ensures CheckWin(EmptyBoard()) == Ongoing
  {
    var b := EmptyBoard();
    assert !Full(b) by { assert b[0] == Empty; }
  }

  /** The board after a pick of cell `k` by `p`: an occupied cell is left alone. */
  function PlaceOn(b: seq<Cell>, k: Index, p: Mark): (r: seq<Cell>)
    requires |b| == 9
    ensures |r| == 9
    ensures b[k] != Empty ==> r == b
    ensures b[k] == Empty ==> r[k] == Filled(p) && forall i :: 0 <= i < 9 && i != k ==> r[i] == b[i]
  {
    if b[k] != Empty then b else b[k := Filled(p)]
  }

  /** `b'` keeps every mark already on `b`. */
  predicate Keeps(b: seq<Cell>, b': seq<Cell>)
    requires |b| == 9 && |b'| == 9
  {
    forall i :: 0 <= i < 9 && b[i] != Empty ==> b'[i] == b[i]
  }

  /** A pick never changes a placed mark, and it fills at most one empty cell. */
  lemma PlaceOnKeeps(b: seq<Cell>, k: Index, p: Mark)
    requires |b| == 9
    ensures Keeps(b, PlaceOn(b, k, p))
    ensures forall i :: 0 <= i < 9 && i != k ==> PlaceOn(b, k, p)[i] == b[i]
  {
  }

  /** Marks kept across one step are kept across any number of steps. */
  lemma KeepsTransitive(b0: seq<Cell>, b1: seq<Cell>, b2: seq<Cell>)
    requires |b0| == 9 && |b1| == 9 && |b2| == 9
    requires Keeps(b0, b1) && Keeps(b1, b2)
    ensures Keeps(b0, b2)
  {
  }

  /** Picking the same cell a second time, by anyone, is a no-op. */
  lemma PlaceOnIdempotent(b: seq<Cell>, k: Index, p: Mark, q: Mark)
    requires |b| == 9
    ensures PlaceOn(PlaceOn(b, k, p), k, q) == PlaceOn(b, k, p)
  {
  }

  /** A pick on the empty board leaves exactly one mark. */
  lemma SinglePickOneMark(k: Index, p: Mark, q: Mark)
    ensures var b := PlaceOn(PlaceOn(EmptyBoard(), k, p), k, q);
            b[k] == Filled(p) && forall i :: 0 <= i < 9 && i != k ==> b[i] == Empty
  {
    PlaceOnIdempotent(EmptyBoard(), k, p, q);
  }

  /** X takes 0, 1, 2 with O at 3, 4 in between: X wins on the top row. */
  lemma TopRowScenario()
    ensures var b := PlaceOn(PlaceOn(PlaceOn(PlaceOn(PlaceOn(EmptyBoard(), 0, X), 3, O), 1, X), 4, O), 2, X);
            CheckWin(b) == Win(X)
  {
    var b := PlaceOn(PlaceOn(PlaceOn(PlaceOn(PlaceOn(EmptyBoard(), 0, X), 3, O), 1, X), 4, O), 2, X);
    assert b == [Filled(X), Filled(X), Filled(X), Filled(O), Filled(O), Empty, Empty, Empty, Empty];
    FirstLineWins(b, 0);
  }

  /** X,O,X / O,X,O / O,X,O has no line and no empty cell: a draw. */
  lemma DrawScenario()
    ensures CheckWin([Filled(X), Filled(O), Filled(X),
                      Filled(O), Filled(X), Filled(O),
                      Filled(O), Filled(X), Filled(O)]) == Draw
  {
    var b := [Filled(X), Filled(O), Filled(X),
              Filled(O), Filled(X), Filled(O),
              Filled(O), Filled(X), Filled(O)];
    assert NoLine(b) by {
      forall j | 0 <= j < |Lines| ensures !Complete(b, Lines[j]) {
        assert j in {0, 1, 2, 3, 4, 5, 6, 7};
      }
    }
  }
}
