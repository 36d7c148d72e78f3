# Tic-tac-toe game logic of `Seminarios/js/game.js`

A model of the rule-bearing part of a browser 3D tic-tac-toe game. The board is nine
row-major cells, each empty (`null`) or holding a player's mark (`'X'` or `'O'`). A global
`currentPlayer` says whose mark the next pick places. Two menus (start and end) block
board input while shown.

- `board.dfy`, module `Board`: the values and the pure rules. It holds the marks, cells and
  outcomes and the eight winning lines in scan order (rows, columns, diagonals). It defines
  the outcome check `CheckWin` (the line scan `FirstWin`, then the full-board test) and the
  effect of one pick on a board (`PlaceOn`). It also holds the row-major cell numbering
  `CellIndex` and the lemmas about them.
- `game.dfy`, module `Controller`: class `Game` holds the global state the script mutates.
  That is `board` (an `array<Cell>` of length 9), the index carried by each picking target
  (`cells`), `currentPlayer`, the two menu flags, and `pending`, the number of scheduled
  confirmations that have not fired yet. Its methods are page load (the constructor),
  `CreateBoard`, `Reset`, `Start`, `Place` (a pick), `Confirm` (the deferred callback),
  `Evaluate` (the loop form of the outcome check on the live array) and `Click` (the menu
  gate). Each method is specified against the functions of `Board`.

The timed callback that a pick schedules becomes an explicit `Confirm` step. A pick writes
the mark at once, but the turn only passes when `Confirm` runs. So two picks made before the
first confirmation both place the same player's mark; the client method
`PicksBeforeConfirm` shows this. The source never cancels a scheduled callback, and `Reset`
keeps `pending` to match. A confirmation scheduled before a restart therefore checks the
new, empty board and passes the new first player's turn; `ConfirmAfterReset` shows this.

`Math.random() < 0.5 ? 'X' : 'O'` becomes a parameter `heads: bool` of the constructor and
of `Reset`, so every outcome of the coin toss is covered.

## Model

| member | source | states |
|---|---|---|
| Board.CheckWin | Seminarios/js/game.js:72-91 | The result is a win exactly when some line holds three equal marks, and the winner is the mark on the first such line in scan order. It is a draw exactly when no line is complete and no cell is empty. Otherwise no line is complete, some cell is empty, and the result is "game goes on". |
| Board.FirstWin | Seminarios/js/game.js:83-88 | The scan from line `k` on finds nothing exactly when no line from `k` on is complete. Otherwise it returns the mark of the first complete line from `k` on. |
| Board.FirstLineWins | Seminarios/js/game.js:83-87 | If line `j` is complete and no earlier line is, the check reports the mark on line `j` as the winner. |
| Board.WinnerOwnsLine | Seminarios/js/game.js:85-86 | A reported winner holds all three cells of some winning line. |
| Board.LoneWinner | Seminarios/js/game.js:73-88 | When every complete line carries the same mark, that mark wins, whatever the scan order. |
| Board.EmptyBoardOngoing | Seminarios/js/game.js:89-90 | The all-empty board that a new or reset game starts from gives "game goes on". |
| Board.DrawScenario | Seminarios/js/game.js:89 | X,O,X / O,X,O / O,X,O has no complete line and no empty cell, so it is a draw. |
| Board.TopRowScenario | Seminarios/js/game.js:83-86 | X at 0, 1, 2 with O at 3, 4 placed in between gives X as the winner. |
| Board.PlaceOn | Seminarios/js/game.js:95-96 | A pick on an occupied cell leaves the board as it was. A pick on an empty cell puts the player's mark there and leaves the other eight cells alone. |
| Board.PlaceOnKeeps | Seminarios/js/game.js:95-96 | A pick never changes a mark already on the board, and changes no cell other than the one picked. |
| Board.KeepsTransitive | Seminarios/js/game.js:95-96 | Marks that survive each of two steps survive both steps. |
| Board.PlaceOnIdempotent | Seminarios/js/game.js:95 | Picking the same cell twice, by either player, has the effect of the first pick alone. |
| Board.SinglePickOneMark | Seminarios/js/game.js:95-96 | Picking one cell twice on the empty board leaves exactly one mark, the first picker's. |
| Board.Other | Seminarios/js/game.js:133 | The turn flip always yields the other player. |
| Board.OtherInvolutive | Seminarios/js/game.js:133 | Flipping twice gives back the same player. |
| Board.CellIndex | Seminarios/js/game.js:64 | The index of row `i`, column `j` is below 9, and dividing it by 3 gives back the row and the column. |
| Board.CellIndexBijective | Seminarios/js/game.js:57-64 | Every index in [0,9) belongs to exactly one (row, column) pair. |
| Board.EmptyBoard | Seminarios/js/game.js:54 | The fresh board has nine cells, all empty. |
| Controller.Toss | Seminarios/js/game.js:46 | The toss gives X exactly when the random draw comes up heads. |
| Controller.Game.constructor | Seminarios/js/game.js:37-46 | Page load gives an empty board, picking targets numbered 0 to 8, and the tossed first player. The start menu is shown, the end menu is hidden and nothing is pending. |
| Controller.Game.CreateBoard | Seminarios/js/game.js:51-69 | This makes a new all-empty board. The nested loops make nine picking targets whose indices are 0 to 8 in row-major order. Turn, menus and pending confirmations are unchanged. |
| Controller.Game.Reset | Seminarios/js/game.js:183-196 | The board is new and empty, the first player is re-tossed and the end menu is hidden. The start menu and pending confirmations are unchanged. |
| Controller.Game.Start | Seminarios/js/game.js:199-202 | The start button hides the start menu. |
| Controller.Game.Place | Seminarios/js/game.js:94-96 | The new board is the pick applied to the old board with the current player's mark. Placed marks are kept. Exactly one confirmation is scheduled when the cell was empty, none when it was occupied. The turn does not change. |
| Controller.Game.Evaluate | Seminarios/js/game.js:72-91 | The loop scan over the live array returns exactly the outcome check of the board's contents. |
| Controller.Game.Confirm | Seminarios/js/game.js:128-136 | The result is the outcome check of the current board. If the game goes on, the turn passes to the other player and the end menu is untouched. Otherwise the end menu is shown and the turn stays. The board is not touched. |
| Controller.Game.Click | Seminarios/js/game.js:140-153 | While either menu is shown, or when no cell is hit, a click changes nothing. Otherwise it is a pick of the hit target's index by the current player. |

## Left out

- The THREE.js scene, camera, lights, renderer and orbit controls, and window resizing (game.js:14-35, 175-180). They are rendering-library calls with no game rules.
- Ray casting and mouse-coordinate normalisation (game.js:145-150). These are floating-point picking done by the library. A click is modelled as the hit target's position in `cells`, or `None` when the ray hits no cell.
- Piece meshes, positions, rotations, scales and the TWEEN animation (game.js:98-125), the animation loop (game.js:167-173), and the 600 ms delay of the timer. Only the effect of the timer is kept, as the `Confirm` step.
- The lil-gui colour settings (game.js:8-12, 41-43), `console.log` output, and the end menu's text (game.js:158-163). The menus are modelled only as "shown" flags, and `Confirm` returns the outcome that the end menu displays.
- The removal of piece meshes from the scene in `resetGame` (game.js:185-189). It only inspects the rendering engine's objects.
- Controller.Game.constructor: the start menu being shown and the end menu hidden at page load are assumptions, because the page's HTML is not part of this model. The start button's `if (!renderer) init()` never runs `init` again, because `init` already ran at page load; `Start` therefore only hides the menu.
