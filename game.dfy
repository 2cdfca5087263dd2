/**
  One attempt at one level, as src/Game.js runs it: the component's state
  variables become the fields of a Session, each event handler one method,
  and the win/loss effect a method of its own, run after a handler's state
  changes have been applied (as React runs effects after a render).
 */
module Game {
  import opened Wrappers
  import opened LevelsData
  import opened Board
  import opened App

  /** Free hammers granted to every level attempt. */
  const LEVEL_ATTEMPT_FREE_HAMMERS: nat := 3

  /** Hammers one (mock) purchase adds. */
  const HAMMERS_PER_PURCHASE: nat := 3

  /** A history entry: the state a mutating move is undone to. */
  datatype Snapshot = Snapshot(board: Grid, pegsRemaining: int, movesCount: nat, levelFreeHammers: nat)

  /** Every field of a session as one value, to say what a handler leaves alone. */
  datatype Fields = Fields(
    currentLevelData: Option<Level>,
    board: Grid,
    selectedPeg: Option<Pos>,
    pegsRemaining: int,
    movesCount: nat,
    isGameWon: bool,
    isGameLost: bool,
    history: seq<Snapshot>,
    showPurchaseUndoModal: bool,
    levelFreeHammersRemaining: nat,
    isHammerModeActive: bool,
    showPurchaseHammerModal: bool,
    purchasedHammersAvailable: nat)

  /** A board (and its recorded peg count) that belongs to level `lv`. */
  ghost predicate Fits(lv: Level, b: Grid, pegs: int)
  {
    VoidsKept(lv.boardSetup, b) && pegs == PegCount(b)
  }

  /** Every recorded snapshot belongs to level `lv` and holds at most the per-attempt free hammers. */
  ghost predicate SnapshotFits(lv: Level, s: Snapshot)
  {
    Fits(lv, s.board, s.pegsRemaining) && s.levelFreeHammers <= LEVEL_ATTEMPT_FREE_HAMMERS
  }

  /** Every recorded snapshot belongs to level `lv`. */
  ghost predicate HistoryFits(lv: Level, h: seq<Snapshot>)
  {
    forall i | 0 <= i < |h| :: SnapshotFits(lv, h[i])
  }

  /** Recording a snapshot that fits keeps the history within its level. */
  lemma HistoryPush(lv: Level, h: seq<Snapshot>, s: Snapshot)
    requires HistoryFits(lv, h)
    requires SnapshotFits(lv, s)
    ensures HistoryFits(lv, h + [s])
  {
  }

  /** Dropping the last snapshot keeps the history within its level. */
  lemma HistoryPop(lv: Level, h: seq<Snapshot>)
    requires HistoryFits(lv, h) && h != []
    ensures HistoryFits(lv, h[..|h| - 1])
    ensures SnapshotFits(lv, h[|h| - 1])
  {
  }

  /** A jump keeps a board (and its peg count) within its level. */
  lemma JumpFits(lv: Level, b: Grid, pegs: int, from: Pos, to: Pos)
    requires Fits(lv, b, pegs) && IsLegalJump(b, from, to)
    ensures Fits(lv, Jump(b, from, to), pegs - 1)
  {
    UpdateKeepsVoids(lv.boardSetup, b, Jump(b, from, to), map[from := EMPTY, Midpoint(from, to) := EMPTY, to := PEG]);
  }

  /** A hammer blow keeps a board (and its peg count) within its level. */
  lemma HammerFits(lv: Level, b: Grid, pegs: int, at: Pos)
    requires Fits(lv, b, pegs) && CellAt(b, at) == PEG
    ensures Fits(lv, Hammer(b, at), pegs - 1)
  {
    UpdateKeepsVoids(lv.boardSetup, b, Hammer(b, at), map[at := EMPTY]);
  }

  /** What the win/loss effect decides for level data, a board and its peg count: only a loaded, non-empty board can be decided. */
  ghost function Decide(data: Option<Level>, board: Grid, pegs: int): Status
  {
    match data
    case None => InProgress
    case Some(lv) =>
      if board == [] then InProgress
      else Verdict(pegs, lv.targetPegsRemaining, HasAnyMove(board))
  }

  /**
    The win/loss effect: skipped without level data, on an empty board or
    once the attempt is decided; otherwise the board is scanned for a jump
    and, when none is left, the attempt is won with exactly the target peg
    count and lost with any other count. Returns the new won/lost flags.
   */
  method Outcome(data: Option<Level>, board: Grid, pegs: int, won: bool, lost: bool) returns (won': bool, lost': bool)
    ensures data.None? || board == [] || won || lost ==> won' == won && lost' == lost
    ensures !(data.None? || board == [] || won || lost) ==>
      won' == (Decide(data, board, pegs) == Won) && lost' == (Decide(data, board, pegs) == Lost)
  {
    won', lost' := won, lost;
    if data.None? || |board| == 0 || won || lost {
      return;
    }
    var target := data.value.targetPegsRemaining;
    if pegs == target {
      var canMove := CanAnyPegMove(board);
      if !canMove {
        won' := true;
      }
    } else if pegs < target {
      var canMove := CanAnyPegMove(board);
      if !canMove {
        lost' := true;
      }
    } else {
      var canMove := CanAnyPegMove(board);
      if !canMove && pegs > target {
        lost' := true;
      }
    }
  }

  class Session {
    /** The campaign this attempt belongs to (level index, global undos). */
    const ledger: Campaign

    var currentLevelData: Option<Level>
    var board: Grid
    var selectedPeg: Option<Pos>
    var pegsRemaining: int
    var movesCount: nat
    var isGameWon: bool
    var isGameLost: bool
    var history: seq<Snapshot>
    var showPurchaseUndoModal: bool
    var levelFreeHammersRemaining: nat
    var isHammerModeActive: bool
    var showPurchaseHammerModal: bool
    /** Purchased hammers: kept outside the attempt, survive resets. */
    var purchasedHammersAvailable: nat

    ghost function State(): Fields
      reads this
    {
      Fields(currentLevelData, board, selectedPeg, pegsRemaining, movesCount, isGameWon, isGameLost,
        history, showPurchaseUndoModal, levelFreeHammersRemaining, isHammerModeActive,
        showPurchaseHammerModal, purchasedHammersAvailable)
    }

    /** The state values a freshly mounted component starts from. */
    ghost function Pristine(purchased: nat): Fields
    {
      Fields(None, [], None, 0, 0, false, false, [], false, LEVEL_ATTEMPT_FREE_HAMMERS, false, false, purchased)
    }

    ghost function Phase(): Status
      reads this`isGameWon, this`isGameLost
    {
      if isGameWon then Won else if isGameLost then Lost else InProgress
    }

    /** What the win/loss effect decides for the current board and count. */
    ghost function Judgement(): Status
      reads this`currentLevelData, this`board, this`pegsRemaining
    {
      Decide(currentLevelData, board, pegsRemaining)
    }

    /**
      The part of the session invariant the win/loss flags do not touch:
      - the free-hammer pool never exceeds its per-attempt grant;
      - a selected cell holds a peg, and hammer mode has no selection;
      - the board and every recorded board keep the level's void cells, each
        recorded peg count is the number of pegs on its board, and no recorded
        free-hammer pool exceeds the grant; without level data there is no
        board and no history.
     */
    ghost predicate Sound()
      reads this`currentLevelData, this`board, this`pegsRemaining, this`history,
            this`levelFreeHammersRemaining, this`isHammerModeActive, this`selectedPeg
    {
      && levelFreeHammersRemaining <= LEVEL_ATTEMPT_FREE_HAMMERS
      && (isHammerModeActive ==> selectedPeg == None)
      && (selectedPeg.Some? ==> CellAt(board, selectedPeg.value) == PEG)
      && match currentLevelData
         case None => board == [] && history == []
         case Some(lv) => Fits(lv, board, pegsRemaining) && HistoryFits(lv, history)
    }

    /** The session invariant: Sound, and never both won and lost. */
    ghost predicate Valid()
      reads this
    {
      Sound() && !(isGameWon && isGameLost)
    }

    /**
      The flags agree with the win/loss effect: an attempt still open is one
      the effect leaves open. It holds once the effect has run after a change.
     */
    ghost predicate Settled()
      reads this`currentLevelData, this`board, this`pegsRemaining, this`isGameWon, this`isGameLost
    {
      !isGameWon && !isGameLost ==> Judgement() == InProgress
    }

    /** What initializeLevel leaves behind for level `lv` (before the win/loss effect runs). */
    ghost predicate AttemptStarted(lv: Level)
      reads this
    {
      && currentLevelData == Some(lv)
      && board == lv.boardSetup
      && pegsRemaining == PegCount(lv.boardSetup)
      && movesCount == 0
      && selectedPeg == None
      && history == []
      && !showPurchaseUndoModal
      && !isHammerModeActive
      && !showPurchaseHammerModal
      && levelFreeHammersRemaining == LEVEL_ATTEMPT_FREE_HAMMERS
    }

    /** The state right after the component mounts for the campaign's current level index. */
    ghost predicate Mounted()
      reads this, ledger
    {
      var idx := ledger.currentLevelIndex;
      && (0 <= idx < |levels| ==> AttemptStarted(levels[idx]) && !isGameWon && !isGameLost)
      && (idx < 0 ==> State() == Pristine(purchasedHammersAvailable))
      && (idx >= |levels| ==> State() == Pristine(purchasedHammersAvailable).(isGameWon := true))
    }

    /** Clicks the handler returns from at once: finished attempt, no such row, or a void cell. */
    ghost predicate Ignores(at: Pos)
      reads this
    {
      isGameWon || isGameLost || !(0 <= at.row < |board|) || CellAt(board, at) == VOID
    }

    /** A click that reaches the hammer branch on a peg. */
    ghost predicate HammerHits(at: Pos)
      reads this
    {
      !Ignores(at) && isHammerModeActive && CellAt(board, at) == PEG
    }

    /** A click outside hammer mode on a peg (selects it). */
    ghost predicate Selects(at: Pos)
      reads this
    {
      !Ignores(at) && !isHammerModeActive && CellAt(board, at) == PEG
    }

    /** A click outside hammer mode on the empty target of a legal jump from the selected peg. */
    ghost predicate Jumps(at: Pos)
      reads this
    {
      && !Ignores(at) && !isHammerModeActive
      && selectedPeg.Some? && IsLegalJump(board, selectedPeg.value, at)
    }

    /**
      A hammer blow on `at`, drawn from the level's free pool or else from the
      purchased pool: the peg is gone, one peg fewer, a snapshot of the state
      before the blow pushed (whose free-hammer count is the pool after the
      draw), hammer mode off, no selection, and the attempt reopened for the
      win/loss effect.
     */
    twostate predicate Hammered(at: Pos, fromLevelPool: bool)
      reads this
    {
      && (if fromLevelPool then old(levelFreeHammersRemaining) > 0 else old(purchasedHammersAvailable) > 0)
      && CellAt(old(board), at) == PEG
      && var freeLeft := old(levelFreeHammersRemaining) - (if fromLevelPool then 1 else 0);
      State() == old(State()).(
        board := Hammer(old(board), at),
        pegsRemaining := old(pegsRemaining) - 1,
        levelFreeHammersRemaining := freeLeft,
        purchasedHammersAvailable := old(purchasedHammersAvailable) - (if fromLevelPool then 0 else 1),
        history := old(history) + [Snapshot(old(board), old(pegsRemaining), old(movesCount), freeLeft)],
        isHammerModeActive := false, selectedPeg := None, isGameWon := false, isGameLost := false)
    }

    /**
      A jump from `from` to `to`: the three cells change, one peg fewer, one
      move more, a snapshot of the state before the jump pushed, no selection,
      and the attempt reopened for the win/loss effect.
     */
    twostate predicate JumpedTo(from: Pos, to: Pos)
      reads this
    {
      && IsLegalJump(old(board), from, to)
      && State() == old(State()).(
        board := Jump(old(board), from, to),
        pegsRemaining := old(pegsRemaining) - 1,
        movesCount := old(movesCount) + 1,
        history := old(history) + [Snapshot(old(board), old(pegsRemaining), old(movesCount), old(levelFreeHammersRemaining))],
        selectedPeg := None, isGameWon := false, isGameLost := false)
    }

    /**
      An undo: the last snapshot popped and its board, peg count, move count
      and free-hammer pool put back, no selection, hammer mode off, and the
      attempt reopened for the win/loss effect.
     */
    twostate predicate UndoneTo(last: Snapshot)
      reads this
    {
      && old(history) != [] && last == old(history)[|old(history)| - 1]
      && State() == old(State()).(
        board := last.board,
        pegsRemaining := last.pegsRemaining,
        movesCount := last.movesCount,
        levelFreeHammersRemaining := last.levelFreeHammers,
        history := old(history)[..|old(history)| - 1],
        selectedPeg := None, isHammerModeActive := false, isGameWon := false, isGameLost := false)
    }

    /** The component mounting for the campaign's current level. */
    constructor (ledger: Campaign, purchasedHammers: nat)
      ensures this.ledger == ledger && purchasedHammersAvailable == purchasedHammers
      ensures Valid() && Mounted()
    {
      this.ledger := ledger;
      purchasedHammersAvailable := purchasedHammers;
      new;
      Mount();
    }

    /** The fresh values every field but the purchased hammers takes when the component mounts. */
    method ResetState()
      modifies this
      ensures currentLevelData == None && board == [] && selectedPeg == None && history == []
      ensures pegsRemaining == 0 && movesCount == 0 && levelFreeHammersRemaining == LEVEL_ATTEMPT_FREE_HAMMERS
      ensures !isGameWon && !isGameLost && !isHammerModeActive
      ensures !showPurchaseUndoModal && !showPurchaseHammerModal
      ensures purchasedHammersAvailable == old(purchasedHammersAvailable)
    {
      currentLevelData, board, selectedPeg, pegsRemaining, movesCount, isGameWon, isGameLost, history,
        showPurchaseUndoModal, levelFreeHammersRemaining, isHammerModeActive, showPurchaseHammerModal :=
        None, [], None, 0, 0, false, false, [], false, LEVEL_ATTEMPT_FREE_HAMMERS, false, false;
    }

    /**
      Mounting for the campaign's current level: fresh state values, then the
      level-index effect: initializeLevel for a catalog level, the
      all-levels-complete state past the end.
     */
    method Mount()
      modifies this
      ensures Valid() && Mounted()
      ensures purchasedHammersAvailable == old(purchasedHammersAvailable)
    {
      ResetState();
      var idx := ledger.currentLevelIndex;
      if idx < |levels| {
        InitializeLevel(idx);
      } else {
        // the data, board, history and hammer mode already hold their cleared values
        isGameWon := true;
      }
    }

    /**
      The win/loss effect, run after every change of the board, the peg
      count, the level data or the flags: it leaves the flags as Outcome
      decides, so that afterwards they agree with the verdict.
     */
    method EvaluateOutcome()
      requires Valid()
      modifies this`isGameWon, this`isGameLost
      ensures Valid() && Settled()
      ensures old(currentLevelData.None? || board == [] || isGameWon || isGameLost) ==>
        isGameWon == old(isGameWon) && isGameLost == old(isGameLost)
      ensures !old(isGameWon) && !old(isGameLost) ==> Phase() == Judgement()
    {
      isGameWon, isGameLost := Outcome(currentLevelData, board, pegsRemaining, isGameWon, isGameLost);
    }

    /**
      initializeLevel: for a catalog index, a copy of the level's board, its
      peg count, no moves, no selection, empty history, a full free-hammer
      pool and every flag and prompt off. For an index outside the catalog
      only the level data and the board are cleared.
     */
    method InitializeLevel(levelIdx: int)
      modifies this
      ensures purchasedHammersAvailable == old(purchasedHammersAvailable)
      ensures 0 <= levelIdx < |levels| ==> AttemptStarted(levels[levelIdx]) && !isGameWon && !isGameLost
      ensures !(0 <= levelIdx < |levels|) ==> State() == old(State()).(currentLevelData := None, board := [])
    {
      if !(0 <= levelIdx < |levels|) {
        currentLevelData, board := None, [];
        return;
      }
      var level := levels[levelIdx];
      var initialBoard := level.boardSetup;
      var initialPegsCount := CountInitialPegs(initialBoard);
      currentLevelData, board, pegsRemaining, movesCount, selectedPeg, isGameWon, isGameLost, history,
        showPurchaseUndoModal, isHammerModeActive, showPurchaseHammerModal, levelFreeHammersRemaining :=
        Some(level), initialBoard, initialPegsCount, 0, None, false, false, [],
        false, false, false, LEVEL_ATTEMPT_FREE_HAMMERS;
    }

    /** handleCellClick, both its hammer branch and its select/jump branch. */
    method HandleCellClick(row: int, col: int)
      requires Valid()
      modifies this
      ensures Valid()
      // finished attempt, missing row, void cell; or hammer mode on a non-peg: nothing changes
      ensures old(Ignores(Pos(row, col)) || (!Ignores(Pos(row, col)) && isHammerModeActive && CellAt(board, Pos(row, col)) != PEG)) ==>
        State() == old(State())
      // a hammer comes from the level's free pool first, then from the purchased pool
      ensures old(HammerHits(Pos(row, col))) && old(levelFreeHammersRemaining) > 0 ==> Hammered(Pos(row, col), true)
      ensures old(HammerHits(Pos(row, col))) && old(levelFreeHammersRemaining) == 0 && old(purchasedHammersAvailable) > 0 ==>
        Hammered(Pos(row, col), false)
      // no hammer in either pool: hammer mode off and the purchase prompt raised, board untouched
      ensures old(HammerHits(Pos(row, col))) && old(levelFreeHammersRemaining + purchasedHammersAvailable) == 0 ==>
        State() == old(State()).(isHammerModeActive := false, showPurchaseHammerModal := true)
      // a peg outside hammer mode becomes the selection
      ensures old(Selects(Pos(row, col))) ==> State() == old(State()).(selectedPeg := Some(Pos(row, col)))
      // the empty target of a legal jump from the selection: the jump is made
      ensures old(Jumps(Pos(row, col))) ==> JumpedTo(old(selectedPeg).value, Pos(row, col))
      // any other click outside hammer mode (no selection, bad distance, nothing to jump over): selection cleared
      ensures old(!Ignores(Pos(row, col)) && !isHammerModeActive && !Selects(Pos(row, col)) && !Jumps(Pos(row, col))) ==>
        State() == old(State()).(selectedPeg := None)
    {
      var at := Pos(row, col);
      if isGameWon || isGameLost || !(0 <= row < |board|) || CellAt(board, at) == VOID {
        return;
      }

      if isHammerModeActive {
        if CellAt(board, at) == PEG {
          HammerPeg(at);
        }
        return;
      }

      SelectOrJump(at);
    }

    /** The part of a click outside hammer mode on a live, non-void cell: select a peg, jump to an empty cell, or clear the selection. */
    method SelectOrJump(at: Pos)
      requires Valid() && !Ignores(at) && !isHammerModeActive
      modifies this
      ensures Valid()
      ensures old(Selects(at)) ==> State() == old(State()).(selectedPeg := Some(at))
      ensures old(Jumps(at)) ==> JumpedTo(old(selectedPeg).value, at)
      ensures old(!Selects(at) && !Jumps(at)) ==> State() == old(State()).(selectedPeg := None)
    {
      var cellValue := CellAt(board, at);
      if cellValue == PEG {
        selectedPeg := Some(at);
      } else if cellValue == EMPTY && selectedPeg.Some? {
        var from := selectedPeg.value;
        var dRow, dCol := at.row - from.row, at.col - from.col;
        if (Abs(dRow) == 2 && dCol == 0) || (Abs(dCol) == 2 && dRow == 0) {
          var jumped := Pos(from.row + dRow / 2, from.col + dCol / 2);
          assert jumped == Midpoint(from, at);
          if CellAt(board, jumped) == PEG {
            CommitJump(at);
          } else {
            selectedPeg := None;
          }
        } else {
          selectedPeg := None;
        }
      } else {
        selectedPeg := None;
      }
    }

    /**
      The hammer branch of handleCellClick on a peg: a free hammer if any is
      left, else a purchased one, else the purchase prompt.
     */
    method HammerPeg(at: Pos)
      requires Valid() && HammerHits(at)
      modifies this
      ensures Valid()
      ensures old(levelFreeHammersRemaining) > 0 ==> Hammered(at, true)
      ensures old(levelFreeHammersRemaining) == 0 && old(purchasedHammersAvailable) > 0 ==> Hammered(at, false)
      ensures old(levelFreeHammersRemaining + purchasedHammersAvailable) == 0 ==>
        State() == old(State()).(isHammerModeActive := false, showPurchaseHammerModal := true)
    {
      if levelFreeHammersRemaining > 0 {
        UseHammer(at, true);
      } else if purchasedHammersAvailable > 0 {
        UseHammer(at, false);
      } else {
        isHammerModeActive, showPurchaseHammerModal := false, true;
      }
    }

    /** A hammer blow on `at` paid from the level's free pool or from the purchased pool. */
    method UseHammer(at: Pos, fromLevelPool: bool)
      requires Valid() && HammerHits(at)
      requires if fromLevelPool then levelFreeHammersRemaining > 0 else purchasedHammersAvailable > 0
      modifies this
      ensures Valid()
      ensures Hammered(at, fromLevelPool)
    {
      var freeLeft, purchasedLeft := levelFreeHammersRemaining, purchasedHammersAvailable;
      if fromLevelPool {
        freeLeft := freeLeft - 1;
      } else {
        purchasedLeft := purchasedLeft - 1;
      }
      PushSnapshot(freeLeft);
      DrawHammer(freeLeft, purchasedLeft);
      Strike(at);
    }

    /** The history update of a jump or a hammer blow: a snapshot of the current state, with the given free-hammer count. */
    method PushSnapshot(freeHammers: nat)
      requires Valid() && board != [] && freeHammers <= LEVEL_ATTEMPT_FREE_HAMMERS
      modifies this`history
      ensures Valid()
      ensures State() == old(State()).(history := old(history) + [Snapshot(board, pegsRemaining, movesCount, freeHammers)])
    {
      var snap := Snapshot(board, pegsRemaining, movesCount, freeHammers);
      HistoryPush(currentLevelData.value, history, snap);
      history := history + [snap];
    }

    /** The pool update of a hammer blow: the pools left after the draw, and hammer mode ends. */
    method DrawHammer(freeLeft: nat, purchasedLeft: nat)
      requires Valid() && freeLeft <= LEVEL_ATTEMPT_FREE_HAMMERS
      modifies this`levelFreeHammersRemaining, this`purchasedHammersAvailable, this`isHammerModeActive
      ensures Valid()
      ensures State() == old(State()).(levelFreeHammersRemaining := freeLeft, purchasedHammersAvailable := purchasedLeft,
        isHammerModeActive := false)
    {
      levelFreeHammersRemaining, purchasedHammersAvailable, isHammerModeActive := freeLeft, purchasedLeft, false;
    }

    /** The board update of a hammer blow on `at`: the peg is gone, one peg fewer. */
    method Strike(at: Pos)
      requires Valid() && selectedPeg == None && CellAt(board, at) == PEG
      modifies this`board, this`pegsRemaining
      ensures Valid()
      ensures State() == old(State()).(board := Hammer(old(board), at), pegsRemaining := old(pegsRemaining) - 1)
    {
      var newBoard := Hammer(board, at);
      if currentLevelData.Some? {
        HammerFits(currentLevelData.value, board, pegsRemaining, at);
      }
      board, pegsRemaining := newBoard, pegsRemaining - 1;
    }

    /**
      The jump branch of handleCellClick once the click is known to complete
      a legal jump from the selected peg: snapshot, jump, one move more.
     */
    method CommitJump(at: Pos)
      requires Valid() && Jumps(at)
      modifies this`history, this`board, this`pegsRemaining, this`movesCount, this`selectedPeg
      ensures Valid()
      ensures JumpedTo(old(selectedPeg).value, at)
    {
      var from := selectedPeg.value;
      PushSnapshot(levelFreeHammersRemaining);
      CountMove();
      MoveJump(from, at);
    }

    /** The counter update of a jump: one move more, no selection. */
    method CountMove()
      requires Valid()
      modifies this`movesCount, this`selectedPeg
      ensures Valid()
      ensures State() == old(State()).(movesCount := old(movesCount) + 1, selectedPeg := None)
    {
      movesCount, selectedPeg := movesCount + 1, None;
    }

    /** The board update of a jump from `from` to `to`: the three cells change, one peg fewer. */
    method MoveJump(from: Pos, to: Pos)
      requires Valid() && selectedPeg == None && IsLegalJump(board, from, to)
      modifies this`board, this`pegsRemaining
      ensures Valid()
      ensures board == Jump(old(board), from, to)
      ensures State() == old(State()).(board := board, pegsRemaining := old(pegsRemaining) - 1)
    {
      var newBoard := Jump(board, from, to);
      if currentLevelData.Some? {
        JumpFits(currentLevelData.value, board, pegsRemaining, from, to);
      }
      board, pegsRemaining := newBoard, pegsRemaining - 1;
    }

    /**
      toggleHammerMode: nothing once the attempt is decided; with no hammer in
      either pool it only raises the purchase prompt; otherwise it flips hammer
      mode and clears the selection.
     */
    method ToggleHammerMode()
      requires Valid()
      modifies this
      ensures Valid()
      ensures old(isGameWon || isGameLost) ==> State() == old(State())
      ensures old(!isGameWon && !isGameLost && !isHammerModeActive && levelFreeHammersRemaining + purchasedHammersAvailable == 0) ==>
        State() == old(State()).(showPurchaseHammerModal := true)
      ensures old(!isGameWon && !isGameLost && (isHammerModeActive || levelFreeHammersRemaining + purchasedHammersAvailable > 0)) ==>
        State() == old(State()).(isHammerModeActive := !old(isHammerModeActive), selectedPeg := None)
      ensures isHammerModeActive && !old(isHammerModeActive) ==> old(levelFreeHammersRemaining + purchasedHammersAvailable) > 0
    {
      if isGameWon || isGameLost {
        return;
      }
      var totalHammersPlayerHas := levelFreeHammersRemaining + purchasedHammersAvailable;
      if !isHammerModeActive && totalHammersPlayerHas == 0 {
        showPurchaseHammerModal := true;
        return;
      }
      var newModeState := !isHammerModeActive;
      isHammerModeActive, selectedPeg := newModeState, None;
    }

    /** handleResetLevel: start the current level afresh; purchased hammers and global undos are kept. */
    method HandleResetLevel()
      requires ledger.Valid()
      modifies this
      ensures Valid()
      ensures AttemptStarted(levels[ledger.currentLevelIndex]) && !isGameWon && !isGameLost
      ensures purchasedHammersAvailable == old(purchasedHammersAvailable)
    {
      InitializeLevel(ledger.currentLevelIndex);
    }

    /**
      handleNextLevel: before the last level, move the campaign to the next
      index, which mounts a fresh attempt of that level; on the last level
      nothing changes.
     */
    method HandleNextLevel()
      requires Valid() && ledger.Valid()
      modifies this, ledger`currentLevelIndex
      ensures Valid() && ledger.Valid()
      ensures old(ledger.currentLevelIndex) < |levels| - 1 ==>
        && ledger.currentLevelIndex == old(ledger.currentLevelIndex) + 1
        && Mounted()
        && purchasedHammersAvailable == old(purchasedHammersAvailable)
      ensures old(ledger.currentLevelIndex) >= |levels| - 1 ==>
        State() == old(State()) && ledger.currentLevelIndex == old(ledger.currentLevelIndex)
    {
      if ledger.currentLevelIndex < |levels| - 1 {
        ledger.currentLevelIndex := ledger.currentLevelIndex + 1;
        Mount();
      }
    }

    /** handleLevelSelect followed by the remount a change of level index causes. */
    method SelectLevel(levelIndex: int)
      requires Valid() && ledger.Valid()
      modifies this, ledger`currentLevelIndex
      ensures Valid() && ledger.Valid()
      ensures ledger.currentLevelIndex == if 0 <= levelIndex < |levels| then levelIndex else old(ledger.currentLevelIndex)
      ensures ledger.currentLevelIndex != old(ledger.currentLevelIndex) ==>
        Mounted() && purchasedHammersAvailable == old(purchasedHammersAvailable)
      ensures ledger.currentLevelIndex == old(ledger.currentLevelIndex) ==> State() == old(State())
    {
      var before := ledger.currentLevelIndex;
      ledger.HandleLevelSelect(levelIndex);
      if ledger.currentLevelIndex != before {
        Mount();
      }
    }

    /**
      handleUndoMove: hammer mode always ends. With an empty history nothing
      else happens; with no global undo left only the purchase prompt is
      raised; otherwise one global undo is spent and the last snapshot is
      popped and restored.
     */
    method HandleUndoMove()
      requires Valid()
      modifies this, ledger`globalFreeUndosRemaining
      ensures Valid()
      ensures old(history) == [] ==>
        State() == old(State()).(isHammerModeActive := false)
        && ledger.globalFreeUndosRemaining == old(ledger.globalFreeUndosRemaining)
      ensures old(history) != [] && old(ledger.globalFreeUndosRemaining) == 0 ==>
        State() == old(State()).(isHammerModeActive := false, showPurchaseUndoModal := true)
        && ledger.globalFreeUndosRemaining == 0
      ensures old(history) != [] && old(ledger.globalFreeUndosRemaining) > 0 ==>
        && ledger.globalFreeUndosRemaining == old(ledger.globalFreeUndosRemaining) - 1
        && UndoneTo(old(history)[|old(history)| - 1])
    {
      if isHammerModeActive {
        isHammerModeActive := false;
      }
      if |history| == 0 {
        return;
      }
      if ledger.globalFreeUndosRemaining > 0 {
        var consumedUndo := ledger.HandleConsumeGlobalUndo();
        RestoreLast();
      } else {
        showPurchaseUndoModal := true;
      }
    }

    /**
      The restoring half of handleUndoMove: pop the last snapshot and put its
      board, peg count, move count and free-hammer pool back, with no
      selection and the attempt reopened.
     */
    method RestoreLast()
      requires Valid() && history != [] && !isHammerModeActive
      modifies this
      ensures Valid()
      ensures UndoneTo(old(history)[|old(history)| - 1])
    {
      var lastState := PopSnapshot();
      RestoreCounters(lastState);
      RestoreBoard(lastState);
      isGameWon, isGameLost := false, false;
    }

    /** The history update of an undo: the last snapshot is popped and returned. */
    method PopSnapshot() returns (last: Snapshot)
      requires Valid() && history != []
      modifies this`history
      ensures Valid() && last == old(history)[|old(history)| - 1]
      ensures currentLevelData.Some? && SnapshotFits(currentLevelData.value, last)
      ensures State() == old(State()).(history := old(history)[..|old(history)| - 1])
    {
      last := history[|history| - 1];
      HistoryPop(currentLevelData.value, history);
      history := history[..|history| - 1];
    }

    /** Put a snapshot's move count and free-hammer pool back, with no selection. */
    method RestoreCounters(s: Snapshot)
      requires Valid() && s.levelFreeHammers <= LEVEL_ATTEMPT_FREE_HAMMERS
      modifies this`movesCount, this`levelFreeHammersRemaining, this`selectedPeg
      ensures Valid()
      ensures State() == old(State()).(movesCount := s.movesCount, levelFreeHammersRemaining := s.levelFreeHammers, selectedPeg := None)
    {
      movesCount, levelFreeHammersRemaining, selectedPeg := s.movesCount, s.levelFreeHammers, None;
    }

    /** Put a snapshot's board and peg count back. */
    method RestoreBoard(s: Snapshot)
      requires Valid() && selectedPeg == None && currentLevelData.Some? && SnapshotFits(currentLevelData.value, s)
      modifies this`board, this`pegsRemaining
      ensures Valid()
      ensures State() == old(State()).(board := s.board, pegsRemaining := s.pegsRemaining)
    {
      board, pegsRemaining := s.board, s.pegsRemaining;
    }

    /** The undo prompt's buy button: three more global undos, prompt closed. */
    method PurchaseUndos()
      requires Valid()
      modifies this`showPurchaseUndoModal, ledger`globalFreeUndosRemaining
      ensures Valid()
      ensures ledger.globalFreeUndosRemaining == old(ledger.globalFreeUndosRemaining) + UNDOS_PER_PURCHASE
      ensures State() == old(State()).(showPurchaseUndoModal := false)
    {
      ledger.HandlePurchaseGlobalUndos();
      showPurchaseUndoModal := false;
    }

    /** The hammer prompt's buy button: three more purchased hammers, prompt closed. */
    method PurchaseHammers()
      requires Valid()
      modifies this`purchasedHammersAvailable, this`showPurchaseHammerModal
      ensures Valid()
      ensures State() == old(State()).(
        purchasedHammersAvailable := old(purchasedHammersAvailable) + HAMMERS_PER_PURCHASE,
        showPurchaseHammerModal := false)
    {
      purchasedHammersAvailable := purchasedHammersAvailable + HAMMERS_PER_PURCHASE;
      showPurchaseHammerModal := false;
    }
  }
}
