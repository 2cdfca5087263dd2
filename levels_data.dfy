/**
  The level catalog and the peg counter of src/levelsData.js.

  A board is a grid of cell codes (rows may differ in length):
  0 = not part of the playable shape, 1 = empty hole, 2 = peg.
 */
module LevelsData {

  type Grid = seq<seq<int>>

  /** The cell codes of the catalog's legend. */
  const VOID: int := 0
  const EMPTY: int := 1
  const PEG: int := 2

  /** One entry of the catalog. */
  datatype Level = Level(
    id: int,
    name: string,
    description: string,
    boardSetup: Grid,
    targetPegsRemaining: int)

  /** The catalog, in play order. */
  const levels: seq<Level> := [
    Level(1, "First Jump", "Make your first jump. Leave one peg.",
      [[0, 2, 0],
       [0, 2, 0],
       [0, 1, 0]], 1),
    Level(2, "Simple Line", "Clear the line. Leave one peg.",
      [[2, 2, 1, 2, 1]], 1),
    Level(3, "Small Cross", "A classic shape, miniaturized.",
      [[1, 2, 2],
       [2, 1, 2],
       [1, 2, 1]], 1),
    Level(4, "The L-Shape", "Master the L. Leave one peg.",
      [[2, 1, 1, 1],
       [2, 2, 1, 1],
       [1, 2, 1, 2]], 1),
    Level(5, "Classic Cross (English Board)", "The standard challenge. Can you leave one peg in the center?",
      [[0, 0, 2, 2, 2, 0, 0],
       [0, 0, 2, 2, 2, 0, 0],
       [2, 2, 2, 2, 2, 2, 2],
       [2, 2, 2, 1, 2, 2, 2],
       [2, 2, 2, 2, 2, 2, 2],
       [0, 0, 2, 2, 2, 0, 0],
       [0, 0, 2, 2, 2, 0, 0]], 1),
    Level(6, "Plus Shape", "A larger plus shape.",
      [[0, 0, 0, 2, 0, 0, 0],
       [0, 0, 0, 2, 0, 0, 0],
       [0, 0, 0, 2, 0, 0, 0],
       [2, 2, 2, 1, 2, 2, 2],
       [0, 0, 0, 2, 0, 0, 0],
       [0, 0, 0, 2, 0, 0, 0],
       [0, 0, 0, 2, 0, 0, 0]], 1)
  ]

  /** All cells of a board, row after row (the order the counter visits them). */
  function Flatten(b: Grid): seq<int>
  {
    if b == [] then [] else Flatten(b[..|b| - 1]) + b[|b| - 1]
  }

  /** Number of pegs in one row. */
  function RowPegs(row: seq<int>): (n: nat)
    ensures n <= |row|
  {
    if row == [] then 0
    else RowPegs(row[..|row| - 1]) + (if row[|row| - 1] == PEG then 1 else 0)
  }

  /** Number of pegs on a board: the sum of its per-row counts. */
  function PegCount(b: Grid): (n: nat)
    ensures n <= |Flatten(b)|
  {
    if b == [] then 0
    else PegCount(b[..|b| - 1]) + RowPegs(b[|b| - 1])
  }

  /** A row's count is the number of its cells equal to PEG; 0 and 1 add nothing. */
  lemma {:induction false} RowPegsIsMultiplicity(row: seq<int>)
    ensures RowPegs(row) == multiset(row)[PEG]
  {
    if row != [] {
      var init, last := row[..|row| - 1], row[|row| - 1];
      RowPegsIsMultiplicity(init);
      assert row == init + [last];
    }
  }

  /** Counting a row is additive over concatenation. */
  lemma {:induction false} RowPegsAppend(a: seq<int>, b: seq<int>)
    ensures RowPegs(a + b) == RowPegs(a) + RowPegs(b)
  {
    if b == [] {
      assert a + b == a;
    } else {
      RowPegsAppend(a, b[..|b| - 1]);
      assert (a + b)[..|a + b| - 1] == a + b[..|b| - 1];
    }
  }

  /** Counting a board is additive over its rows. */
  lemma {:induction false} PegCountAppend(a: Grid, b: Grid)
    ensures PegCount(a + b) == PegCount(a) + PegCount(b)
  {
    if b == [] {
      assert a + b == a;
    } else {
      PegCountAppend(a, b[..|b| - 1]);
      assert (a + b)[..|a + b| - 1] == a + b[..|b| - 1];
    }
  }

  /** The board's count is the number of cells equal to PEG over all its cells. */
  lemma {:induction false} PegCountIsMultiplicity(b: Grid)
    ensures PegCount(b) == multiset(Flatten(b))[PEG]
  {
    if b != [] {
      PegCountIsMultiplicity(b[..|b| - 1]);
      RowPegsIsMultiplicity(b[|b| - 1]);
    }
  }

  /** countInitialPegs: visit every cell row by row and count the pegs. */
  method CountInitialPegs(boardSetup: Grid) returns (pegCount: nat)
    ensures pegCount == PegCount(boardSetup)
  {
    pegCount := 0;
    for i := 0 to |boardSetup|
      invariant pegCount == PegCount(boardSetup[..i])
    {
      var row := boardSetup[i];
      for j := 0 to |row|
        invariant pegCount == PegCount(boardSetup[..i]) + RowPegs(row[..j])
      {
        assert row[..j + 1][..j] == row[..j];
        if row[j] == PEG {
          pegCount := pegCount + 1;
        }
      }
      assert row[..|row|] == row;
      assert boardSetup[..i + 1][..i] == boardSetup[..i];
    }
    assert boardSetup[..|boardSetup|] == boardSetup;
  }

  /** Every cell holds one of the three legend codes. */
  ghost predicate LegendOnly(b: Grid)
  {
    forall r, c | 0 <= r < |b| && 0 <= c < |b[r]| :: VOID <= b[r][c] <= PEG
  }

  /** Every catalog board uses only the legend codes, and every level asks for one peg. */
  lemma CatalogWellFormed()
    ensures forall i | 0 <= i < |levels| :: LegendOnly(levels[i].boardSetup)
    ensures forall i | 0 <= i < |levels| :: levels[i].targetPegsRemaining == 1
  {
  }

  /** Counting the first k + 1 rows adds row k to the count of the first k. */
  lemma PegCountStep(b: Grid, k: nat)
    requires k < |b|
    ensures PegCount(b[..k + 1]) == PegCount(b[..k]) + RowPegs(b[k])
  {
    assert b[..k + 1][..k] == b[..k];
  }

  /** The "First Jump" board starts with 2 pegs. */
  lemma FirstJumpPegs()
    ensures PegCount(levels[0].boardSetup) == 2
  {
    var b := levels[0].boardSetup;
    RowPegsIsMultiplicity([0, 2, 0]);
    RowPegsIsMultiplicity([0, 1, 0]);
    PegCountStep(b, 0);
    PegCountStep(b, 1);
    PegCountStep(b, 2);
    assert b[..3] == b;
  }

  /** The "The L-Shape" board starts with 5 pegs. */
  lemma LShapePegs()
    ensures PegCount(levels[3].boardSetup) == 5
  {
    var b := levels[3].boardSetup;
    RowPegsIsMultiplicity([2, 1, 1, 1]);
    RowPegsIsMultiplicity([2, 2, 1, 1]);
    RowPegsIsMultiplicity([1, 2, 1, 2]);
    PegCountStep(b, 0);
    PegCountStep(b, 1);
    PegCountStep(b, 2);
    assert b[..3] == b;
  }

  /** The three row shapes of the English board hold 3, 7 and 6 pegs. */
  lemma EnglishRowPegs()
    ensures RowPegs([0, 0, 2, 2, 2, 0, 0]) == 3
    ensures RowPegs([2, 2, 2, 2, 2, 2, 2]) == 7
    ensures RowPegs([2, 2, 2, 1, 2, 2, 2]) == 6
  {
    RowPegsIsMultiplicity([0, 0, 2, 2, 2, 0, 0]);
    RowPegsIsMultiplicity([2, 2, 2, 2, 2, 2, 2]);
    RowPegsIsMultiplicity([2, 2, 2, 1, 2, 2, 2]);
  }

  /** The English board (level id 5) starts with 32 pegs. */
  lemma EnglishBoardPegs()
    ensures PegCount(levels[4].boardSetup) == 32
  {
    var b := levels[4].boardSetup;
    EnglishRowPegs();
    PegCountStep(b, 0);
    PegCountStep(b, 1);
    PegCountStep(b, 2);
    PegCountStep(b, 3);
    PegCountStep(b, 4);
    PegCountStep(b, 5);
    PegCountStep(b, 6);
    assert b[..7] == b;
  }

}
