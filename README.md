# Peg Puzzle Cross — a Dafny model of the game core

This project models the core of a levels-based peg-solitaire game. A level is a grid of cell codes: 0 is not part of the shape, 1 is an empty hole and 2 is a peg. The player selects a peg and jumps it over a neighbouring peg into the empty hole two cells away, which removes the jumped peg. A level is won when no jump is left and exactly the target number of pegs remains. It is lost when no jump is left and any other number remains.

Each attempt of a level has three free hammers. A hammer removes any single peg. Purchased hammers are used once the free ones are gone. Moves can be undone from a history of snapshots. Each undo spends one of the campaign's global free undos; a campaign starts with three, and a mock purchase adds three more.

The modules follow the source files:

- `LevelsData` (`levels_data.dfy`) models `src/levelsData.js`:
  - the level catalog, as a constant;
  - the `countInitialPegs` loop, as a method proved against `PegCount`.
- `Board` (`board.dfy`) holds the pure rules used inside `src/Game.js`:
  - reading a cell, where a read outside the grid gives `ABSENT`, standing for JavaScript's `undefined`;
  - jump legality;
  - the copy-and-write board updates of a jump and of a hammer blow;
  - the `canAnyPegMove` scan, as a method with loop invariants;
  - the win/loss decision.
- `App` (`app.dfy`) models the campaign state of `src/App.js` as the class `Campaign`. It holds the current level index and the global free-undo counter.
- `Game` (`game.dfy`) models the component state of `src/Game.js` as the class `Session`:
  - one field per `useState` value;
  - the purchased-hammer count, kept as a field;
  - one method per handler;
  - the level-index effect (`Mount`) and the win/loss effect (`EvaluateOutcome`).

  Every handler is specified by the complete new state `State()` it leaves behind. The session invariant `Valid()` holds before and after every handler. It says:
  - the board keeps the level's void cells;
  - `pegsRemaining` is the number of pegs on the board;
  - every history snapshot also belongs to the level.
- `Scenarios` (`scenarios.dfy`) plays whole levels by calling the handlers in the order the interface would:
  - First Jump is won and then undone;
  - a selection is replaced by a second click;
  - the free-hammer pool runs out on the L-Shape board;
  - a hammer blow is undone without refunding the hammer.
  - for every session, a jump followed by an undo restores every field but the selection;
  - for every session, a hammer blow followed by an undo restores everything but the spent hammer.

## Model

| member | source | states |
|---|---|---|
| LevelsData.PegCount | src/levelsData.js:79-90 | A board's peg count never exceeds its number of cells (so an empty board has none). |
| LevelsData.CountInitialPegs | src/levelsData.js:79-90 | The row-by-row counting loop returns exactly `PegCount` of the board. |
| LevelsData.PegCountIsMultiplicity | src/levelsData.js:79-90 | The count is the number of cells equal to 2 over all cells; cells 0 and 1 contribute nothing. |
| LevelsData.RowPegsIsMultiplicity | src/levelsData.js:81-88 | A row's count is the number of its cells equal to 2. |
| LevelsData.PegCountAppend | src/levelsData.js:79-90 | Counting is additive over rows: the count of `a + b` is the count of `a` plus the count of `b`. |
| LevelsData.RowPegsAppend | src/levelsData.js:82-87 | Counting a row is additive over concatenation. |
| LevelsData.CatalogWellFormed | src/levelsData.js:2-76 | Every catalog board uses only the codes 0, 1 and 2, and every level's target is one peg. |
| LevelsData.FirstJumpPegs | src/levelsData.js:3-13 | The "First Jump" board starts with 2 pegs. |
| LevelsData.LShapePegs | src/levelsData.js:32-42 | The "The L-Shape" board starts with 5 pegs. |
| LevelsData.EnglishRowPegs | src/levelsData.js:48-54 | The English board's row shapes hold 3, 7 and 6 pegs. |
| LevelsData.EnglishBoardPegs | src/levelsData.js:43-57 | The English board (id 5) starts with 32 pegs. |
| Board.SetCellPegs | src/Game.js:257-262 | Overwriting one cell changes the peg count by the peg that left and the peg that arrived. |
| Board.LegalJumpCells | src/Game.js:235-247 | For a jump accepted by `IsLegalJump` (board.dfy), the predicate of src/Game.js:235-247 — origin a peg, target an empty hole, two cells apart along one axis, a peg in between — the three cells are in bounds and distinct, and the jumped cell is adjacent to both ends. |
| Board.Jump | src/Game.js:257-262 | A jump empties the origin and the jumped cell, puts a peg on the destination, changes no other cell and removes exactly one peg. |
| Board.Hammer | src/Game.js:213-217 | A hammer blow empties the targeted cell, changes no other cell and removes exactly one peg. |
| Board.UpdateKeepsVoids | src/Game.js:213-217 | Writing only non-void codes into non-void cells keeps every void cell void and every other cell non-void. |
| Board.HasAnyMoveIffLegalJump | src/Game.js:93-129 | The four-direction scan finds a move iff some pair of cells is a legal jump under the click handler's rule. |
| Board.MoveNeedsTwoPegs | src/Game.js:93-129 | A board with fewer than two pegs has no move. |
| Board.CanAnyPegMove | src/Game.js:93-129 | The nested scan returns true iff some peg has a jump in one of the four directions. |
| Board.Verdict | src/Game.js:135-152 | Won iff no move is left and the count equals the target; lost iff no move is left and the count differs. |
| App.Campaign.constructor | src/App.js:8-14 | A campaign starts at level index 0 with three global free undos. |
| App.Campaign.HandleLevelSelect | src/App.js:48-54 | An index inside the catalog becomes current; any other index leaves the current one. |
| App.Campaign.HandleConsumeGlobalUndo | src/App.js:56-62 | Returns true iff an undo was left; decrements by one in that case; otherwise leaves the counter. |
| App.Campaign.HandlePurchaseGlobalUndos | src/App.js:64-70 | A purchase adds exactly three undos. |
| App.FourthUndoRefused | src/App.js:56-62 | On a new campaign three consumptions succeed and the fourth fails, leaving zero. |
| App.PurchaseAfterExhaustion | src/App.js:64-70 | After the three free undos are spent, one purchase makes exactly three available. |
| Game.Outcome | src/Game.js:131-159 | Nothing changes without level data, on an empty board or once decided; otherwise the flags follow `Verdict` for the scan's answer. |
| Game.JumpFits | src/Game.js:257-262 | A jump keeps the level's void cells and keeps the recorded count equal to the pegs on the board. |
| Game.HammerFits | src/Game.js:213-217 | A hammer blow keeps the level's void cells and keeps the recorded count equal to the pegs on the board. |
| Game.Session.constructor | src/Game.js:77-91 | A mounted component starts the campaign's current level, or shows the all-levels-complete state past the catalog, keeping the purchased hammers. |
| Game.Session.ResetState | src/Game.js:20-34 | Every mount starts from the initial state values: no level data, an empty board, no selection, zero pegs and moves, both flags off, empty history, three free hammers, hammer mode and both prompts off; the purchased hammers are kept. |
| Game.Session.Mount | src/Game.js:77-91 | The level-index effect: `initializeLevel` for an index below the catalog length, otherwise won with cleared data, board and history. |
| Game.Session.InitializeLevel | src/Game.js:40-75 | A catalog index loads that level's board and its peg count, with no moves, no selection, empty history, three free hammers and all flags and prompts off. Any other index clears only the level data and the board. |
| Game.Session.EvaluateOutcome | src/Game.js:131-159 | Afterwards an undecided attempt is one the verdict leaves open; an undecided attempt takes exactly the verdict; the invariant is kept. |
| Game.Session.HandleCellClick | src/Game.js:161-280 | A click on a finished attempt, a missing row or a void cell changes nothing. In hammer mode, a peg is hammered from the free pool first, then from the purchased pool; with both empty, hammer mode goes off and the prompt is raised; a non-peg changes nothing. Otherwise a peg becomes the selection, a legal jump is made, and any other click clears the selection only. |
| Game.Session.SelectOrJump | src/Game.js:230-279 | Outside hammer mode: a peg becomes the selection, a legal jump from the selection is made, and any other click only clears the selection. |
| Game.Session.HammerPeg | src/Game.js:167-199 | The free pool is used when it is not empty, else the purchased pool; with both empty, only hammer mode and the prompt change. |
| Game.Session.UseHammer | src/Game.js:201-222 | A blow removes exactly the target peg and decrements the chosen pool. It pushes one snapshot whose free-hammer count is the pool after the draw. Hammer mode goes off, moves are unchanged and the invariant is kept. |
| Game.Session.CommitJump | src/Game.js:247-266 | A legal jump changes the three cells, gives one peg fewer and one move more, pushes one snapshot of the state before it, and clears the selection. |
| Game.Session.ToggleHammerMode | src/Game.js:282-302 | A decided attempt changes nothing. For a numeric purchased count: switching on with no hammer in either pool only raises the prompt. Otherwise hammer mode flips and the selection clears. Hammer mode is never switched on with zero hammers. |
| Game.Session.HandleResetLevel | src/Game.js:304-307 | The current level starts afresh; purchased hammers are kept. |
| Game.Session.HandleNextLevel | src/Game.js:309-315 | Before the last level, the index advances and a fresh attempt of the next level is mounted. On the last level nothing changes. |
| Game.Session.SelectLevel | src/App.js:48-54 | A different catalog index becomes current and is mounted afresh. An out-of-range or unchanged index changes nothing. |
| Game.Session.HandleUndoMove | src/Game.js:317-348 | Hammer mode always ends. With an empty history nothing else changes. With no global undo, only the prompt is raised and history and board are unchanged. Otherwise one undo is spent and the last snapshot is popped and restored. |
| Game.Session.RestoreLast | src/Game.js:326-342 | The last snapshot's board, counts and free-hammer pool are restored and it is popped. The selection is cleared and the attempt reopened. |
| Game.Session.PurchaseUndos | src/Game.js:438-441 | The campaign gains exactly three undos and the undo prompt closes; nothing else changes. |
| Game.Session.PurchaseHammers | src/Game.js:461-464 | The purchased pool gains exactly three hammers and the hammer prompt closes; nothing else changes. |
| Scenarios.StartAttempt | src/Game.js:77-91 | A new campaign moved to a catalog level holds a freshly started attempt of it, with three global undos. |
| Scenarios.WinFirstJump | src/Game.js:131-159 | On First Jump, selecting the top peg and jumping down wins the level with one peg and one move. |
| Scenarios.FirstJumpScenario | src/levelsData.js:3-13 | The First Jump level is solved by a single jump, leaving one peg in the bottom hole. |
| Scenarios.WinThenUndo | src/Game.js:317-348 | Undo after the win restores the starting board and two pegs, clears the win and spends one global undo. |
| Scenarios.SelectionReplacedScenario | src/Game.js:231-234 | Clicking a second peg replaces the selection and leaves the board, the move count and the (empty) history untouched. |
| Scenarios.JumpThenUndo | src/Game.js:317-348 | For every session and every legal jump click, an undo right after it restores every field except the selection, which is cleared, and spends one global undo. |
| Scenarios.HammerBlowThenUndo | src/Game.js:201-222 | For every session and every hammer click on a peg with a hammer available, an undo right after it restores every field except that the spent hammer (free pool first, else purchased) is not refunded and hammer mode is off; one global undo is spent. |
| Scenarios.HammerPoolScenario | src/Game.js:282-292 | On the L-Shape level the free pool goes 2, 1, 0 over three blows, after which switching hammer mode on only raises the purchase prompt (with the purchased count a number, here 0). |
| Scenarios.HammerThenUndo | src/Game.js:201-212 | Undoing a free-hammer blow restores board and pegs but leaves the free pool at two. |

## Left out

- Feedback messages, `console.log`/`console.error`, `alert` and all rendering: the level selector, the information panel, the controls, and the modals' markup and Cancel buttons, which only close a prompt.
- Persistence of the level index and the undo counter in `localStorage` (src/App.js:17-46): this is browser storage.
- React's batching of state updates: each handler is modelled as one atomic change that reads the state as it was when the handler started.
- The remount of `Game` that `src/App.js:94` triggers when the global undo counter changes. `HandleUndoMove` and `PurchaseUndos` are modelled as written in the handler, without that remount; only a change of level index remounts (`Mount`).
- The win/loss effect is a separate method, `EvaluateOutcome`. The scenarios call it where the component would run it, and the handlers themselves do not. Its skipped cases leave the flags untouched, as in the source.
- Purchased hammers: `src/App.js` passes no hammer props, so the purchased count is an abstract field on `Session`. It is consumed only when positive, so the `onConsumePurchasedHammer` failure branch (src/Game.js:183-192) is not modelled. Purchases grant hammers in threes.
- Game.Session.ToggleHammerMode: the model keeps the purchased count a number. In the program as wired (src/App.js:91-99), `purchasedHammersAvailable` is `undefined`. The total at src/Game.js:284-285 is then `NaN`, and `NaN === 0` is false, so the zero-hammer guard at src/Game.js:289 never fires. Hammer mode switches on even with no hammer left, and the hammer button's disabling at src/Game.js:392-396 never applies. The next click on a peg then raises the prompt (src/Game.js:182-198, `undefined > 0` is false). "Hammer mode is never switched on with zero hammers" and the prompt-only toggle (also in Scenarios.HammerPoolScenario) hold only for the numeric count.
- Game.Session.PurchaseHammers: in the program as wired, `onPurchaseHammers` is undefined, so the buy button at src/Game.js:462 throws instead of adding hammers. The model gives the intended effect, three more purchased hammers.
- The undo button's gating in the interface (src/Game.js:416) is a rendering precondition; `HandleUndoMove` covers every history and counter value instead.
- Game.Session.HandleUndoMove: every snapshot carries its free-hammer count, so the "count missing" case of src/Game.js:331 never arises.
- Level data that is missing, or an index below zero, only clears the data and the board, as in the source. The invariant `Valid()` then requires an empty history.
