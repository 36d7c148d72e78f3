/** The game controller: the global board and turn, the picking targets, the two menus,
    and the steps that change them (page load, pick, deferred confirmation, reset). */
module Controller {
  import opened Board

  /** The mark a coin toss chooses: `Math.random() < 0.5` gives 'X'. */
  function Toss(heads: bool): (p: Mark)
    ensures heads <==> p == X
  {
    if heads then X else O
  }

  class Game {
    /** The nine cells of the board, row-major. */
    var board: array<Cell>
    /** The cell index carried by each picking target, in creation order. */
    var cells: seq<nat>
    /** Whose mark the next pick places. */
    var currentPlayer: Mark
    /** The start menu and the end menu block board input while shown. */
    var startMenuShown: bool
    var endMenuShown: bool
    /** Confirmations scheduled by accepted picks that have not run yet. */
    var pending: nat

    ghost predicate Valid()
      reads this
    {
      board.Length == 9 && |cells| == 9 && forall k :: 0 <= k < 9 ==> cells[k] == k
    }

    /** Page load: the board is built, the first player is tossed, the start menu is up. */
    constructor (heads: bool)
      ensures Valid() && fresh(board)
      ensures board[..] == EmptyBoard() && currentPlayer == Toss(heads)
      ensures startMenuShown && !endMenuShown && pending == 0
    {
      board := new Cell[9](_ => Empty);
      cells := [];
      currentPlayer := Toss(heads);
      startMenuShown, endMenuShown := true, false;
      pending := 0;
      new;
      CreateBoard();
    }

    /** A fresh empty board, and one picking target per cell whose index is its
        position in row-major order. */
    method CreateBoard()
      modifies this
      ensures Valid() && fresh(board) && board[..] == EmptyBoard()
      ensures currentPlayer == old(currentPlayer) && pending == old(pending)
      ensures startMenuShown == old(startMenuShown) && endMenuShown == old(endMenuShown)
    {
      var targets: seq<nat> := [];
      for i := 0 to 3
        invariant |targets| == 3 * i
        invariant forall k :: 0 <= k < |targets| ==> targets[k] == k
      {
        for j := 0 to 3
          invariant |targets| == 3 * i + j
          invariant forall k :: 0 <= k < |targets| ==> targets[k] == k
        {
          targets := targets + [CellIndex(i, j)];
        }
      }
      cells := targets;
      board := new Cell[9](_ => Empty);
      assert board[..] == EmptyBoard();
    }

    /** Restart button: empty board, a new toss for the first player, end menu hidden.
        Confirmations still pending are not cancelled. */
    method Reset(heads: bool)
      requires Valid()
      modifies this
      ensures Valid() && fresh(board) && board[..] == EmptyBoard()
      ensures currentPlayer == Toss(heads) && !endMenuShown
      ensures startMenuShown == old(startMenuShown) && pending == old(pending)
    {
      board := new Cell[9](_ => Empty);
      currentPlayer := Toss(heads);
      endMenuShown := false;
      CreateBoard();
    }

    /** Start button: hides the start menu (the scene was already set up at page load). */
    method Start()
      modifies this`startMenuShown
      ensures !startMenuShown
    {
      startMenuShown := false;
    }

    /** A pick of cell `index`: an occupied cell is ignored; an empty one receives the
        current player's mark at once and schedules a confirmation. The turn is not
        passed here. */
    method Place(index: Index)
      requires Valid()
      modifies board, this`pending
      ensures board[..] == PlaceOn(old(board[..]), index, currentPlayer)
      ensures Keeps(old(board[..]), board[..])
      ensures pending == old(pending) + (if old(board[index]) == Empty then 1 else 0)
    {
      if board[index] != Empty {
        return;
      }
      board[index] := Filled(currentPlayer);
      pending := pending + 1;
    }

    /** The outcome check run on the live board: scan the lines in order, then
        look for an empty cell. */
    method Evaluate() returns (result: Outcome)
      requires Valid()
      ensures result == CheckWin(board[..])
    {
      var k := 0;
      while k < |Lines|
        invariant 0 <= k <= |Lines|
        invariant FirstWin(board[..], k) == FirstWin(board[..], 0)
      {
        var l := Lines[k];
        if board[l.a] != Empty && board[l.a] == board[l.b] && board[l.a] == board[l.c] {
          return Win(board[l.a].mark);
        }
        k := k + 1;
      }
      var i := 0;
      while i < 9
        invariant 0 <= i <= 9
        invariant forall j :: 0 <= j < i ==> board[j] != Empty
      {
        if board[i] == Empty {
          return Ongoing;
        }
        i := i + 1;
      }
      return Draw;
    }

    /** A scheduled confirmation fires: on a result the game ends and the end menu is
        shown; otherwise the turn passes to the other player. */
    method Confirm() returns (result: Outcome)
      requires Valid() && pending > 0
      modifies this`currentPlayer, this`endMenuShown, this`pending
      ensures result == CheckWin(board[..]) && pending == old(pending) - 1
      ensures result == Ongoing ==> currentPlayer == Other(old(currentPlayer)) && endMenuShown == old(endMenuShown)
      ensures result != Ongoing ==> currentPlayer == old(currentPlayer) && endMenuShown
    {
      result := Evaluate();
      if result != Ongoing {
        endMenuShown := true;
      } else {
        currentPlayer := Other(currentPlayer);
      }
      pending := pending - 1;
    }

    /** A click: ignored while either menu is shown or when the ray hits no cell;
        otherwise the hit target's index is picked. */
    method Click(hit: Option<nat>)
      requires Valid() && (hit.Some? ==> hit.value < 9)
      modifies board, this`pending
      ensures startMenuShown || endMenuShown || hit.None? ==>
                board[..] == old(board[..]) && pending == old(pending)
      ensures !startMenuShown && !endMenuShown && hit.Some? ==>
                board[..] == PlaceOn(old(board[..]), hit.value, currentPlayer)
                && pending == old(pending) + (if old(board[hit.value]) == Empty then 1 else 0)
    {
      if startMenuShown {
        return;
      }
      if endMenuShown {
        return;
      }
      if hit.Some? {
        Place(cells[hit.value]);
      }
    }
  }

  /** Two picks before the first confirmation both place the same player's mark;
      a repeated pick of the same cell changes nothing. */
  method PicksBeforeConfirm(heads: bool)
  {
    var g := new Game(heads);
    var p := g.currentPlayer;
    g.Click(Some(4));
    assert g.board[..] == EmptyBoard();
    g.Start();
    g.Click(Some(4));
    g.Click(Some(4));
    assert g.board[4] == Filled(p) && g.pending == 1;
    g.Click(Some(0));
    assert g.board[0] == Filled(p) && g.pending == 2;
    var r := g.Confirm();
    assert r == Ongoing by {
      assert !Full(g.board[..]) by { assert g.board[..][8] == Empty; }
      assert NoLine(g.board[..]) by {
        forall j | 0 <= j < |Lines| ensures !Complete(g.board[..], Lines[j]) {
          assert j in {0, 1, 2, 3, 4, 5, 6, 7};
        }
      }
    }
    assert g.currentPlayer == Other(p);
  }

  /** A confirmation scheduled before a restart runs against the new game: it sees the
      empty board and passes the new first player's turn to the other player. */
  method ConfirmAfterReset(heads: bool, again: bool)
  {
    var g := new Game(heads);
    g.Start();
    g.Click(Some(2));
    g.Reset(again);
    assert g.pending == 1;
    var r := g.Confirm();
    EmptyBoardOngoing();
    assert r == Ongoing && g.currentPlayer == Other(Toss(again));
  }
}
