/**
  Whole plays of the levels in the catalog, driven through the handlers of
  src/Game.js and src/App.js the way the interface does: each click is one
  handler call, followed by the win/loss effect where the component runs it.
 */
module Scenarios {
  import opened Wrappers
  import opened LevelsData
  import opened Board
  import opened App
  import opened Game

  /** A new campaign and a new session with no purchased hammers, moved to level `idx`. */
  method StartAttempt(idx: int) returns (game: Session)
    requires 0 <= idx < |levels|
    ensures fresh(game) && fresh(game.ledger)
    ensures game.Valid() && game.ledger.Valid() && game.ledger.currentLevelIndex == idx
    ensures game.AttemptStarted(levels[idx]) && !game.isGameWon && !game.isGameLost
    ensures game.purchasedHammersAvailable == 0 && game.ledger.globalFreeUndosRemaining == TOTAL_GLOBAL_FREE_UNDOS
  {
    var campaign := new Campaign();
    game := new Session(campaign, 0);
    if idx != 0 {
      game.SelectLevel(idx);
    }
  }

  /** A click on a peg outside hammer mode: it becomes the selection and nothing else changes. */
  method ClickToSelect(game: Session, at: Pos)
    requires game.Valid() && game.Selects(at)
    modifies game
    ensures game.Valid() && game.State() == old(game.State()).(selectedPeg := Some(at))
  {
    game.HandleCellClick(at.row, at.col);
  }

  /** A click that completes a legal jump from the selected peg. */
  method ClickToJump(game: Session, at: Pos)
    requires game.Valid() && game.Jumps(at)
    modifies game
    ensures game.Valid() && game.JumpedTo(old(game.selectedPeg).value, at)
  {
    game.HandleCellClick(at.row, at.col);
  }

  /** A click in hammer mode on a peg while the level's free pool is not empty. */
  method ClickToHammer(game: Session, at: Pos)
    requires game.Valid() && game.HammerHits(at) && game.levelFreeHammersRemaining > 0
    modifies game
    ensures game.Valid() && game.Hammered(at, true)
  {
    game.HandleCellClick(at.row, at.col);
  }

  /** Hammer mode switched on while the attempt is undecided and a free hammer is left: only the mode and the selection change. */
  method ArmHammer(game: Session)
    requires game.Valid() && !game.isGameWon && !game.isGameLost && !game.isHammerModeActive
    requires game.levelFreeHammersRemaining > 0
    modifies game
    ensures game.Valid() && game.State() == old(game.State()).(isHammerModeActive := true, selectedPeg := None)
  {
    game.ToggleHammerMode();
  }

  /** The win/loss effect on a board that still has a jump: neither flag is raised, so nothing changes. */
  method SettleOpen(game: Session)
    requires game.Valid() && !game.isGameWon && !game.isGameLost && HasAnyMove(game.board)
    modifies game`isGameWon, game`isGameLost
    ensures game.Valid() && game.State() == old(game.State())
  {
    game.EvaluateOutcome();
  }

  /** A click on the undo button while a move is recorded and a global undo is left. */
  method UndoWithCredit(game: Session)
    requires game.Valid() && game.history != [] && game.ledger.globalFreeUndosRemaining > 0
    modifies game, game.ledger
    ensures game.Valid() && game.UndoneTo(old(game.history)[|old(game.history)| - 1])
    ensures game.ledger.globalFreeUndosRemaining == old(game.ledger.globalFreeUndosRemaining) - 1
  {
    game.HandleUndoMove();
  }

  /** The First Jump board has a jump, from the top peg downwards, and two pegs. */
  lemma FirstJumpOpen()
    ensures HasAnyMove(levels[0].boardSetup) && PegCount(levels[0].boardSetup) == 2
  {
    assert JumpFrom(levels[0].boardSetup, Pos(0, 1), 1);
    FirstJumpPegs();
  }

  /** The board the First Jump solution leaves. */
  lemma FirstJumpResult(b: Grid)
    requires IsLegalJump(levels[0].boardSetup, Pos(0, 1), Pos(2, 1)) && b == Jump(levels[0].boardSetup, Pos(0, 1), Pos(2, 1))
    ensures b == [[VOID, EMPTY, VOID], [VOID, EMPTY, VOID], [VOID, PEG, VOID]]
  {
    var expected := [[VOID, EMPTY, VOID], [VOID, EMPTY, VOID], [VOID, PEG, VOID]];
    assert Midpoint(Pos(0, 1), Pos(2, 1)) == Pos(1, 1);
    forall p | InBounds(b, p)
      ensures CellAt(b, p) == CellAt(expected, p)
    {
      assert InBounds(levels[0].boardSetup, p);
      assert p.row == 0 || p.row == 1 || p.row == 2;
      assert p.col == 0 || p.col == 1 || p.col == 2;
    }
    SameCells(b, expected);
  }

  /** The two clicks of the First Jump solution: select the top peg, then the hole below the middle one. */
  method PlayFirstJump(game: Session)
    requires game.Valid() && game.AttemptStarted(levels[0]) && !game.isGameWon && !game.isGameLost
    modifies game
    ensures game.Valid() && game.currentLevelData == Some(levels[0])
    ensures game.board == [[VOID, EMPTY, VOID], [VOID, EMPTY, VOID], [VOID, PEG, VOID]]
    ensures game.pegsRemaining == 1 && game.movesCount == 1 && !game.isGameWon && !game.isGameLost
    ensures game.history == [Snapshot(levels[0].boardSetup, 2, 0, LEVEL_ATTEMPT_FREE_HAMMERS)]
  {
    FirstJumpPegs();
    ClickToSelect(game, Pos(0, 1));
    assert IsLegalJump(levels[0].boardSetup, Pos(0, 1), Pos(2, 1));
    ClickToJump(game, Pos(2, 1));
    FirstJumpResult(game.board);
  }

  /** A fresh campaign plays the First Jump level to its win; the win/loss effect runs after mounting and after the jump. */
  method WinFirstJump() returns (game: Session)
    ensures fresh(game) && fresh(game.ledger) && game.Valid()
    ensures game.currentLevelData == Some(levels[0])
    ensures game.board == [[VOID, EMPTY, VOID], [VOID, EMPTY, VOID], [VOID, PEG, VOID]]
    ensures game.pegsRemaining == 1 && game.movesCount == 1 && game.isGameWon && !game.isGameLost
    ensures game.history == [Snapshot(levels[0].boardSetup, 2, 0, LEVEL_ATTEMPT_FREE_HAMMERS)]
    ensures game.ledger.globalFreeUndosRemaining == TOTAL_GLOBAL_FREE_UNDOS
  {
    game := StartAttempt(0);
    FirstJumpOpen();
    game.EvaluateOutcome();
    PlayFirstJump(game);
    MoveNeedsTwoPegs(game.board);
    game.EvaluateOutcome();
  }

  /**
    The First Jump level played through: the top peg is selected and jumps
    down over the middle one; the win/loss effect then finds one peg, the
    target, and no jump left, and the level is won.
   */
  method FirstJumpScenario() returns (board: Grid, pegs: int, moves: nat, won: bool, lost: bool)
    ensures board == [[VOID, EMPTY, VOID], [VOID, EMPTY, VOID], [VOID, PEG, VOID]]
    ensures pegs == 1 && moves == 1 && won && !lost
  {
    var game := WinFirstJump();
    board, pegs, moves, won, lost := game.board, game.pegsRemaining, game.movesCount, game.isGameWon, game.isGameLost;
  }

  /**
    Undo reopens a won attempt: after the First Jump win, one undo puts back
    the starting board, clears the win and spends a global undo, and the
    win/loss effect then leaves the attempt in progress.
   */
  method WinThenUndo() returns (board: Grid, pegs: int, moves: nat, won: bool, lost: bool, undosLeft: nat)
    ensures board == levels[0].boardSetup && pegs == 2 && moves == 0 && !won && !lost
    ensures undosLeft == TOTAL_GLOBAL_FREE_UNDOS - 1
  {
    var game := WinFirstJump();
    UndoWithCredit(game);
    FirstJumpOpen();
    game.EvaluateOutcome();
    board, pegs, moves, won, lost := game.board, game.pegsRemaining, game.movesCount, game.isGameWon, game.isGameLost;
    undosLeft := game.ledger.globalFreeUndosRemaining;
  }

  /** The Simple Line board has a jump: the first peg over the second into the hole. */
  lemma SimpleLineOpen()
    ensures HasAnyMove(levels[1].boardSetup)
  {
    assert JumpFrom(levels[1].boardSetup, Pos(0, 0), 3);
  }

  /**
    Selecting a second peg replaces the first selection: on the Simple Line
    level the first peg and then its neighbour are clicked, and only the
    neighbour is selected, with the board untouched.
   */
  method SelectionReplacedScenario() returns (selected: Option<Pos>, board: Grid, moves: nat, history: seq<Snapshot>)
    ensures selected == Some(Pos(0, 1)) && board == levels[1].boardSetup && moves == 0 && history == []
  {
    var game := StartAttempt(1);
    SimpleLineOpen();
    game.EvaluateOutcome();
    ClickToSelect(game, Pos(0, 0));
    ClickToSelect(game, Pos(0, 1));
    selected, board, moves, history := game.selectedPeg, game.board, game.movesCount, game.history;
  }

  /**
    Undo inverts a jump on any board: a jump click followed by an undo puts
    back every field as it was, except that the selection is gone, and
    spends one global undo.
   */
  method JumpThenUndo(game: Session, at: Pos)
    requires game.Valid() && game.Jumps(at) && game.ledger.globalFreeUndosRemaining > 0
    modifies game, game.ledger
    ensures game.Valid() && game.State() == old(game.State()).(selectedPeg := None)
    ensures game.ledger.globalFreeUndosRemaining == old(game.ledger.globalFreeUndosRemaining) - 1
  {
    ClickToJump(game, at);
    UndoWithCredit(game);
  }

  /**
    Undo inverts a hammer blow on any board except for the hammer itself: a
    blow paid from either pool followed by an undo puts back the board, the
    peg count, the move count and the history, but the hammer stays spent
    and hammer mode is off; one global undo is spent.
   */
  method HammerBlowThenUndo(game: Session, at: Pos)
    requires game.Valid() && game.HammerHits(at) && game.ledger.globalFreeUndosRemaining > 0
    requires game.levelFreeHammersRemaining + game.purchasedHammersAvailable > 0
    modifies game, game.ledger
    ensures game.Valid()
    ensures old(game.levelFreeHammersRemaining) > 0 ==>
      game.State() == old(game.State()).(
        levelFreeHammersRemaining := old(game.levelFreeHammersRemaining) - 1, isHammerModeActive := false)
    ensures old(game.levelFreeHammersRemaining) == 0 ==>
      game.State() == old(game.State()).(
        purchasedHammersAvailable := old(game.purchasedHammersAvailable) - 1, isHammerModeActive := false)
    ensures game.ledger.globalFreeUndosRemaining == old(game.ledger.globalFreeUndosRemaining) - 1
  {
    game.HandleCellClick(at.row, at.col);
    UndoWithCredit(game);
  }

  /**
    Hammer mode switched on, the peg at `at` hammered with a free hammer, and
    the win/loss effect run on a board that still has a jump.
   */
  method HammerAndSettle(game: Session, at: Pos)
    requires game.Valid() && !game.isGameWon && !game.isGameLost && !game.isHammerModeActive
    requires game.levelFreeHammersRemaining > 0 && CellAt(game.board, at) == PEG
    requires HasAnyMove(Hammer(game.board, at))
    modifies game
    ensures game.Valid()
    ensures game.State() == old(game.State()).(
      board := Hammer(old(game.board), at),
      pegsRemaining := old(game.pegsRemaining) - 1,
      levelFreeHammersRemaining := old(game.levelFreeHammersRemaining) - 1,
      history := old(game.history) + [Snapshot(old(game.board), old(game.pegsRemaining), old(game.movesCount), old(game.levelFreeHammersRemaining) - 1)],
      selectedPeg := None)
  {
    ArmHammer(game);
    ClickToHammer(game, at);
    SettleOpen(game);
  }

  /** The first column of an L-Shape board still offers its jump: two pegs over an empty bottom cell. */
  ghost predicate ColumnOpen(b: Grid)
  {
    CellAt(b, Pos(0, 0)) == PEG && CellAt(b, Pos(1, 0)) == PEG && CellAt(b, Pos(2, 0)) == EMPTY
  }

  /** A board whose first column is open has a move: the top peg jumps down over the one below it. */
  lemma LShapeColumnJump(b: Grid)
    requires ColumnOpen(b)
    ensures HasAnyMove(b)
  {
    assert Directions[1] == Pos(2, 0);
    assert Step(Pos(0, 0), Directions[1]) == Pos(2, 0);
    assert Step(Pos(0, 0), Pos(Directions[1].row / 2, Directions[1].col / 2)) == Pos(1, 0);
    assert JumpFrom(b, Pos(0, 0), 1);
  }

  /** A hammer blow outside the first column keeps that column open and every other peg listed in `keep` in place. */
  lemma ColumnBlow(b: Grid, at: Pos, keep: seq<Pos>)
    requires ColumnOpen(b) && CellAt(b, at) == PEG && at.col != 0
    requires forall i | 0 <= i < |keep| :: keep[i] != at && CellAt(b, keep[i]) == PEG
    ensures ColumnOpen(Hammer(b, at)) && HasAnyMove(Hammer(b, at))
    ensures forall i | 0 <= i < |keep| :: CellAt(Hammer(b, at), keep[i]) == PEG
  {
    var b' := Hammer(b, at);
    assert InBounds(b, Pos(0, 0)) && InBounds(b, Pos(1, 0)) && InBounds(b, Pos(2, 0));
    forall i | 0 <= i < |keep|
      ensures CellAt(b', keep[i]) == PEG
    {
      assert InBounds(b, keep[i]);
    }
    LShapeColumnJump(b');
  }

  /** The L-Shape level mounted, with the win/loss effect run: five pegs, three free hammers, none purchased. */
  method StartLShape() returns (game: Session)
    ensures fresh(game) && fresh(game.ledger) && game.Valid()
    ensures game.AttemptStarted(levels[3]) && game.pegsRemaining == 5 && !game.isGameWon && !game.isGameLost
    ensures game.purchasedHammersAvailable == 0 && game.ledger.globalFreeUndosRemaining == TOTAL_GLOBAL_FREE_UNDOS
  {
    game := StartAttempt(3);
    LShapePegs();
    LShapeColumnJump(game.board);
    SettleOpen(game);
  }

  /** On the L-Shape board, hammer blows on (1, 1), then (2, 1), then (2, 3) each land on a peg and leave a move open. */
  lemma LShapeBlows()
    ensures CellAt(levels[3].boardSetup, Pos(1, 1)) == PEG
    ensures var b1 := Hammer(levels[3].boardSetup, Pos(1, 1));
      && HasAnyMove(b1) && CellAt(b1, Pos(2, 1)) == PEG
      && var b2 := Hammer(b1, Pos(2, 1));
      && HasAnyMove(b2) && CellAt(b2, Pos(2, 3)) == PEG && HasAnyMove(Hammer(b2, Pos(2, 3)))
  {
    var b0 := levels[3].boardSetup;
    assert ColumnOpen(b0);
    ColumnBlow(b0, Pos(1, 1), [Pos(2, 1), Pos(2, 3)]);
    var b1 := Hammer(b0, Pos(1, 1));
    ColumnBlow(b1, Pos(2, 1), [Pos(2, 3)]);
    ColumnBlow(Hammer(b1, Pos(2, 1)), Pos(2, 3), []);
  }

  /** The first two blows of the L-Shape pool play: the level's free pool goes 3, 2, 1 and three pegs are left. */
  method HammerTwice() returns (game: Session, first: nat, second: nat)
    ensures fresh(game) && game.Valid() && !game.isGameWon && !game.isGameLost && !game.isHammerModeActive
    ensures CellAt(game.board, Pos(2, 3)) == PEG && HasAnyMove(Hammer(game.board, Pos(2, 3)))
    ensures game.levelFreeHammersRemaining == 1 && game.purchasedHammersAvailable == 0 && game.pegsRemaining == 3
    ensures !game.showPurchaseHammerModal
    ensures first == 2 && second == 1
  {
    game := StartLShape();
    LShapeBlows();
    HammerAndSettle(game, Pos(1, 1));
    first := game.levelFreeHammersRemaining;
    HammerAndSettle(game, Pos(2, 1));
    second := game.levelFreeHammersRemaining;
  }

  /**
    The per-attempt hammer grant: on the L-Shape level with no purchased
    hammers, three pegs away from the first column are hammered from the
    level's free pool (2, 1, 0 left), and the next attempt to switch hammer
    mode on only raises the purchase prompt.
   */
  method HammerPoolScenario() returns (poolAfter: seq<nat>, prompt: bool, hammerOn: bool, pegs: int)
    ensures poolAfter == [2, 1, 0] && prompt && !hammerOn && pegs == 2
  {
    var game, first, second := HammerTwice();
    HammerAndSettle(game, Pos(2, 3));
    var third := game.levelFreeHammersRemaining;
    game.ToggleHammerMode();
    poolAfter, prompt, hammerOn, pegs := [first, second, third], game.showPurchaseHammerModal, game.isHammerModeActive, game.pegsRemaining;
  }

  /**
    Undo does not refund a free hammer: after one hammer blow on the L-Shape
    level and one undo, the board and peg count are back and a global undo
    is spent, but the level's free pool stays at two.
   */
  method HammerThenUndo() returns (board: Grid, pegs: int, pool: nat, undosLeft: nat)
    ensures board == levels[3].boardSetup && pegs == 5 && pool == 2
    ensures undosLeft == TOTAL_GLOBAL_FREE_UNDOS - 1
  {
    var game := StartLShape();
    LShapeBlows();
    HammerAndSettle(game, Pos(1, 1));
    UndoWithCredit(game);
    board, pegs, pool, undosLeft := game.board, game.pegsRemaining, game.levelFreeHammersRemaining, game.ledger.globalFreeUndosRemaining;
  }
}
