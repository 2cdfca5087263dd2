/**
  The campaign ledger of src/App.js: which level is being played and the
  campaign-wide pool of free undos.
 */
module App {
  import opened LevelsData

  /** Free undos a new campaign starts with. */
  const TOTAL_GLOBAL_FREE_UNDOS: nat := 3

  /** Undos one (mock) purchase adds. */
  const UNDOS_PER_PURCHASE: nat := 3

  class Campaign {
    var currentLevelIndex: int
    var globalFreeUndosRemaining: nat

    /** The current index names a catalog level. */
    ghost predicate Valid()
      reads this
    {
      0 <= currentLevelIndex < |levels|
    }

    constructor ()
      ensures Valid()
      ensures currentLevelIndex == 0 && globalFreeUndosRemaining == TOTAL_GLOBAL_FREE_UNDOS
    {
      currentLevelIndex := 0;
      globalFreeUndosRemaining := TOTAL_GLOBAL_FREE_UNDOS;
    }

    /** handleLevelSelect: an index inside the catalog becomes current; any other is ignored. */
    method HandleLevelSelect(levelIndex: int)
      modifies this`currentLevelIndex
      ensures currentLevelIndex == if 0 <= levelIndex < |levels| then levelIndex else old(currentLevelIndex)
      ensures old(Valid()) ==> Valid()
    {
      if 0 <= levelIndex < |levels| {
        currentLevelIndex := levelIndex;
      }
    }

    /** handleConsumeGlobalUndo: take one undo if any is left and say whether one was taken. */
    method HandleConsumeGlobalUndo() returns (consumed: bool)
      modifies this`globalFreeUndosRemaining
      ensures consumed <==> old(globalFreeUndosRemaining) > 0
      ensures globalFreeUndosRemaining == if consumed then old(globalFreeUndosRemaining) - 1 else old(globalFreeUndosRemaining)
    {
      if globalFreeUndosRemaining > 0 {
        globalFreeUndosRemaining := globalFreeUndosRemaining - 1;
        return true;
      }
      return false;
    }

    /** handlePurchaseGlobalUndos: a purchase adds three undos. */
    method HandlePurchaseGlobalUndos()
      modifies this`globalFreeUndosRemaining
      ensures globalFreeUndosRemaining == old(globalFreeUndosRemaining) + UNDOS_PER_PURCHASE
    {
      globalFreeUndosRemaining := globalFreeUndosRemaining + UNDOS_PER_PURCHASE;
    }
  }

  /** A new campaign grants exactly three undos: three consumptions succeed, the fourth fails and leaves zero. */
  method FourthUndoRefused() returns (outcomes: seq<bool>, left: nat)
    ensures outcomes == [true, true, true, false] && left == 0
  {
    var campaign := new Campaign();
    var first := campaign.HandleConsumeGlobalUndo();
    var second := campaign.HandleConsumeGlobalUndo();
    var third := campaign.HandleConsumeGlobalUndo();
    var fourth := campaign.HandleConsumeGlobalUndo();
    outcomes := [first, second, third, fourth];
    left := campaign.globalFreeUndosRemaining;
  }

  /** Once the free undos are spent, one purchase makes exactly three available again. */
  method PurchaseAfterExhaustion() returns (before: nat, after: nat)
    ensures before == 0 && after == UNDOS_PER_PURCHASE
  {
    var campaign := new Campaign();
    var consumed := campaign.HandleConsumeGlobalUndo();
    consumed := campaign.HandleConsumeGlobalUndo();
    consumed := campaign.HandleConsumeGlobalUndo();
    before := campaign.globalFreeUndosRemaining;
    campaign.HandlePurchaseGlobalUndos();
    after := campaign.globalFreeUndosRemaining;
  }
}
