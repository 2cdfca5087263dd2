/**
  The peg-jump rules that src/Game.js applies inside its handlers: reading
  a cell, the legality of a jump, the "can any peg still move?" scan and
  the win/loss decision.
 */
module Board {
  import opened LevelsData

  datatype Pos = Pos(row: int, col: int)

  /** What reading outside the grid yields (JavaScript's `undefined`): equal to no cell code. */
  const ABSENT: int := -1

  predicate InBounds(b: Grid, p: Pos)
  {
    0 <= p.row < |b| && 0 <= p.col < |b[p.row]|
  }

  /** The cell at `p`, or ABSENT when `p` is outside the grid. */
  function CellAt(b: Grid, p: Pos): int
  {
    if InBounds(b, p) then b[p.row][p.col] else ABSENT
  }

  /** Two boards with the same number of rows and the same row lengths. */
  ghost predicate SameShape(b: Grid, b': Grid)
  {
    |b| == |b'| && forall r | 0 <= r < |b| :: |b[r]| == |b'[r]|
  }

  /** `b'` is `b` with exactly the cells in `writes` overwritten. */
  ghost predicate UpdatedAt(b: Grid, b': Grid, writes: map<Pos, int>)
  {
    && SameShape(b, b')
    && (forall p | p in writes :: InBounds(b, p))
    && forall p | InBounds(b, p) :: CellAt(b', p) == if p in writes then writes[p] else CellAt(b, p)
  }

  /** `b` has the shape of `template` and a cell of `b` is VOID exactly where the template's is. */
  ghost predicate VoidsKept(template: Grid, b: Grid)
  {
    SameShape(template, b) && forall p | InBounds(template, p) :: (CellAt(template, p) == VOID) == (CellAt(b, p) == VOID)
  }

  /** A copy of `b` with the cell at `p` set to `v`. */
  function SetCell(b: Grid, p: Pos, v: int): (b': Grid)
    requires InBounds(b, p)
    ensures UpdatedAt(b, b', map[p := v])
  {
    b[p.row := b[p.row][p.col := v]]
  }

  /** Overwriting one cell changes the peg count by what left and what arrived. */
  lemma SetCellPegs(b: Grid, p: Pos, v: int)
    requires InBounds(b, p)
    ensures PegCount(SetCell(b, p, v)) + (if CellAt(b, p) == PEG then 1 else 0)
         == PegCount(b) + (if v == PEG then 1 else 0)
  {
    var r, c := p.row, p.col;
    var row := b[r];
    var row' := row[c := v];
    assert row == row[..c] + [row[c]] + row[c + 1..];
    assert row' == row[..c] + [v] + row[c + 1..];
    RowPegsAppend(row[..c] + [row[c]], row[c + 1..]);
    RowPegsAppend(row[..c], [row[c]]);
    RowPegsAppend(row[..c] + [v], row[c + 1..]);
    RowPegsAppend(row[..c], [v]);
    assert [row[c]][..0] == [] && [v][..0] == [];
    var b' := SetCell(b, p, v);
    assert b == b[..r] + [row] + b[r + 1..];
    assert b' == b[..r] + [row'] + b[r + 1..];
    PegCountAppend(b[..r] + [row], b[r + 1..]);
    PegCountAppend(b[..r], [row]);
    PegCountAppend(b[..r] + [row'], b[r + 1..]);
    PegCountAppend(b[..r], [row']);
    assert [row][..0] == [] && [row'][..0] == [];
  }

  /** Emptying a cell that holds a peg lowers the count by exactly one. */
  lemma PegCounted(b: Grid, p: Pos)
    requires CellAt(b, p) == PEG
    ensures PegCount(SetCell(b, p, EMPTY)) + 1 == PegCount(b)
  {
    SetCellPegs(b, p, EMPTY);
  }

  /** The legal jump geometry: two cells along one axis, none along the other. */
  predicate JumpGeometry(from: Pos, to: Pos)
  {
    var dRow, dCol := to.row - from.row, to.col - from.col;
    (Abs(dRow) == 2 && dCol == 0) || (Abs(dCol) == 2 && dRow == 0)
  }

  function Abs(x: int): nat
  {
    if x < 0 then -x else x
  }

  /** The cell jumped over. */
  function Midpoint(from: Pos, to: Pos): Pos
  {
    Pos(from.row + (to.row - from.row) / 2, from.col + (to.col - from.col) / 2)
  }

  /**
    A jump from `from` to `to` is legal when `from` holds a peg, `to` is an
    empty hole, the two are two cells apart along one axis and the cell in
    between holds a peg.
   */
  predicate IsLegalJump(b: Grid, from: Pos, to: Pos)
  {
    && CellAt(b, from) == PEG
    && CellAt(b, to) == EMPTY
    && JumpGeometry(from, to)
    && CellAt(b, Midpoint(from, to)) == PEG
  }

  /** The three cells of a legal jump are distinct, in bounds, and the middle one is adjacent to both ends. */
  lemma LegalJumpCells(b: Grid, from: Pos, to: Pos)
    requires IsLegalJump(b, from, to)
    ensures InBounds(b, from) && InBounds(b, to) && InBounds(b, Midpoint(from, to))
    ensures from != to && from != Midpoint(from, to) && to != Midpoint(from, to)
    ensures Abs(Midpoint(from, to).row - from.row) + Abs(Midpoint(from, to).col - from.col) == 1
    ensures Abs(to.row - Midpoint(from, to).row) + Abs(to.col - Midpoint(from, to).col) == 1
  {
  }

  /** applyJump: the jumper's cell and the jumped cell become empty, the target gets the peg; one peg fewer. */
  function Jump(b: Grid, from: Pos, to: Pos): (b': Grid)
    requires IsLegalJump(b, from, to)
    ensures UpdatedAt(b, b', map[from := EMPTY, Midpoint(from, to) := EMPTY, to := PEG])
    ensures PegCount(b') == PegCount(b) - 1
  {
    LegalJumpCells(b, from, to);
    var mid := Midpoint(from, to);
    var b1 := SetCell(b, from, EMPTY);
    var b2 := SetCell(b1, mid, EMPTY);
    SetCellPegs(b, from, EMPTY);
    SetCellPegs(b1, mid, EMPTY);
    SetCellPegs(b2, to, PEG);
    SetCell(b2, to, PEG)
  }

  /** applyHammer: the hammered peg's cell becomes empty and nothing else changes; one peg fewer. */
  function Hammer(b: Grid, at: Pos): (b': Grid)
    requires CellAt(b, at) == PEG
    ensures UpdatedAt(b, b', map[at := EMPTY])
    ensures PegCount(b') == PegCount(b) - 1
  {
    SetCellPegs(b, at, EMPTY);
    SetCell(b, at, EMPTY)
  }

  /** Overwriting non-void cells with non-void codes keeps every void cell void and every other cell non-void. */
  lemma UpdateKeepsVoids(template: Grid, b: Grid, b': Grid, writes: map<Pos, int>)
    requires VoidsKept(template, b) && UpdatedAt(b, b', writes)
    requires forall p | p in writes :: CellAt(b, p) != VOID && writes[p] != VOID
    ensures VoidsKept(template, b')
  {
  }

  /** Two boards of the same shape that agree on every cell are equal. */
  lemma SameCells(a: Grid, b: Grid)
    requires SameShape(a, b)
    requires forall p | InBounds(a, p) :: CellAt(a, p) == CellAt(b, p)
    ensures a == b
  {
    forall r | 0 <= r < |a|
      ensures a[r] == b[r]
    {
      forall c | 0 <= c < |a[r]|
        ensures a[r][c] == b[r][c]
      {
        assert CellAt(a, Pos(r, c)) == CellAt(b, Pos(r, c));
      }
    }
  }

  /** The four scan directions, in the source's order: up, down, left, right. */
  const Directions: seq<Pos> := [Pos(-2, 0), Pos(2, 0), Pos(0, -2), Pos(0, 2)]

  function Step(p: Pos, d: Pos): Pos
  {
    Pos(p.row + d.row, p.col + d.col)
  }

  /** The peg at `p` can jump in direction number `k`. */
  predicate JumpFrom(b: Grid, p: Pos, k: int)
  {
    && 0 <= k < |Directions|
    && CellAt(b, p) == PEG
    && CellAt(b, Step(p, Directions[k])) == EMPTY
    && CellAt(b, Step(p, Pos(Directions[k].row / 2, Directions[k].col / 2))) == PEG
  }

  /** Some peg on the board has a jump available. */
  ghost predicate HasAnyMove(b: Grid)
  {
    exists p: Pos, k :: JumpFrom(b, p, k)
  }

  /** The scan agrees with the jump rule used by cell clicks: a move exists iff some legal jump exists. */
  lemma HasAnyMoveIffLegalJump(b: Grid)
    ensures HasAnyMove(b) <==> exists from: Pos, to: Pos :: IsLegalJump(b, from, to)
  {
    if HasAnyMove(b) {
      var p: Pos, k :| JumpFrom(b, p, k);
      var to := Step(p, Directions[k]);
      assert Midpoint(p, to) == Step(p, Pos(Directions[k].row / 2, Directions[k].col / 2));
      assert IsLegalJump(b, p, to);
    }
    if exists from: Pos, to: Pos :: IsLegalJump(b, from, to) {
      var from: Pos, to: Pos :| IsLegalJump(b, from, to);
      var k :=
        if to.row - from.row == -2 then 0
        else if to.row - from.row == 2 then 1
        else if to.col - from.col == -2 then 2
        else 3;
      assert Step(from, Directions[k]) == to;
      assert JumpFrom(b, from, k);
    }
  }

  /** A jump needs two pegs (the jumper and the jumped), so a board with fewer than two pegs is stuck. */
  lemma MoveNeedsTwoPegs(b: Grid)
    ensures HasAnyMove(b) ==> PegCount(b) >= 2
  {
    if HasAnyMove(b) {
      var p: Pos, k :| JumpFrom(b, p, k);
      var mid := Step(p, Pos(Directions[k].row / 2, Directions[k].col / 2));
      PegCounted(b, p);
      var b1 := SetCell(b, p, EMPTY);
      assert CellAt(b1, mid) == PEG;
      PegCounted(b1, mid);
    }
  }

  /** canAnyPegMove: scan every peg against the four directions, stopping at the first jump found. */
  method CanAnyPegMove(board: Grid) returns (found: bool)
    ensures found <==> HasAnyMove(board)
  {
    if |board| == 0 {
      return false;
    }
    for r := 0 to |board|
      invariant forall p: Pos, k | p.row < r :: !JumpFrom(board, p, k)
    {
      for c := 0 to |board[r]|
        invariant forall p: Pos, k | p.row < r || (p.row == r && p.col < c) :: !JumpFrom(board, p, k)
      {
        if board[r][c] == PEG {
          for k := 0 to |Directions|
            invariant forall p: Pos, j | p.row < r || (p.row == r && p.col < c) || (p == Pos(r, c) && j < k) :: !JumpFrom(board, p, j)
          {
            var d := Directions[k];
            var nr, nc := r + d.row, c + d.col;
            var jr, jc := r + d.row / 2, c + d.col / 2;
            if && 0 <= nr < |board| && 0 <= nc < |board[nr]| && board[nr][nc] == EMPTY
               && 0 <= jr < |board| && 0 <= jc < |board[jr]| && board[jr][jc] == PEG
            {
              assert JumpFrom(board, Pos(r, c), k);
              return true;
            }
          }
        }
      }
    }
    return false;
  }

  /** The state of a level attempt. */
  datatype Status = InProgress | Won | Lost

  /**
    The win/loss decision once pegs are counted: with no jump left the attempt
    is won on exactly the target count and lost on any other count; while a
    jump remains it stays in progress, even on the target count.
   */
  function Verdict(pegsRemaining: int, target: int, canMove: bool): (s: Status)
    ensures s == Won <==> !canMove && pegsRemaining == target
    ensures s == Lost <==> !canMove && pegsRemaining != target
  {
    if pegsRemaining == target then
      (if !canMove then Won else InProgress)
    else if pegsRemaining < target then
      (if !canMove then Lost else InProgress)
    else if !canMove && pegsRemaining > target then Lost
    else InProgress
  }
}
