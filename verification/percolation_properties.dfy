/** What the percolation engine guarantees across calls: the exact partition
    `open` leaves behind (including the neighbours its early-ending scan
    skips), idempotence of `open`, monotonicity of `isFull` and `percolates`,
    and the queries on a freshly built grid. */
module PercolationProperties {
  import QF = QuickFind
  import opened Percolation

  /** How many neighbours `open` probes before `isOpen` raises on one outside
      the grid: none in the top row, only the upper one in the first column,
      up and left in the bottom row, all but the right one in the last column. */
  function ProbedCount(n: int, row: int, col: int): (p: int)
    requires InGrid(n, row, col)
    ensures 0 <= p <= 4
    ensures forall k :: 0 <= k < p ==> InGrid(n, Neighbour(row, col, k).0, Neighbour(row, col, k).1)
    ensures p < 4 ==> !InGrid(n, Neighbour(row, col, p).0, Neighbour(row, col, p).1)
  {
    if row == 0 then 0
    else if col == 0 then 1
    else if row == LastRow(n) then 2
    else if col == LastRow(n) then 3
    else 4
  }

  /** Label x is, in g, with the site (row, col) or with one of the open
      neighbours among the first ProbedCount(n, row, col) probes. */
  ghost predicate Reached(g: Grid, row: int, col: int, x: int)
    requires Shaped(g) && InGrid(g.n, row, col) && 0 <= x < |g.ids|
  {
    || QF.Connected(g.ids, x, Label(g.n, row, col))
    || exists k :: 0 <= k < ProbedCount(g.n, row, col) && OpenNeighbour(g, row, col, k) &&
                   QF.Connected(g.ids, x, NeighbourLabel(g.n, row, col, k))
  }

  /** From probe k on, the scan joins exactly the site and the open
      neighbours among the probes k .. ProbedCount - 1. */
  lemma {:induction false} JoinedIsReached(g: Grid, row: int, col: int, k: int, x: int)
    requires Shaped(g) && InGrid(g.n, row, col) && 0 <= k <= ProbedCount(g.n, row, col) && 0 <= x < |g.ids|
    ensures Joined(g, row, col, k, x) <==>
      || QF.Connected(g.ids, x, Label(g.n, row, col))
      || exists j :: k <= j < ProbedCount(g.n, row, col) && OpenNeighbour(g, row, col, j) &&
                     QF.Connected(g.ids, x, NeighbourLabel(g.n, row, col, j))
    decreases 4 - k
  {
    var p := ProbedCount(g.n, row, col);
    if k < p {
      JoinedIsReached(g, row, col, k + 1, x);
      if OpenNeighbour(g, row, col, k) && QF.Connected(g.ids, x, NeighbourLabel(g.n, row, col, k)) {
        assert k <= k < p;
      }
    }
  }

  /** Opening an in-grid site merges the components of the site and of every
      open neighbour among the first ProbedCount probes into one, and joins
      nothing else. */
  lemma OpenMerges(g: Grid, row: int, col: int)
    requires Valid(g) && InGrid(g.n, row, col)
    ensures forall x, y :: 0 <= x < |g.ids| && 0 <= y < |g.ids| ==>
      (QF.Connected(Open(g, row, col).value.ids, x, y) <==>
         QF.Connected(g.ids, x, y) || (Reached(g, row, col, x) && Reached(g, row, col, y)))
  {
    var h := if g.sites[row][col] then g
             else g.(sites := SetSite(g.sites, row, col), count := g.count + 1);
    OpenIsScan(g, h, row, col);
    forall x | 0 <= x < |g.ids|
      ensures Joined(h, row, col, 0, x) <==> Reached(g, row, col, x)
    {
      JoinedIsReached(h, row, col, 0, x);
      ReachedSameNeighbours(g, h, row, col, x);
    }
  }

  /** `open` on an in-grid site is the neighbour scan of the grid with that
      site set open. */
  lemma OpenIsScan(g: Grid, h: Grid, row: int, col: int)
    requires Valid(g) && InGrid(g.n, row, col)
    requires h == if g.sites[row][col] then g
                 else g.(sites := SetSite(g.sites, row, col), count := g.count + 1)
    ensures Shaped(h) && h.n == g.n && h.ids == g.ids
    ensures forall j :: 0 <= j < 4 ==> OpenNeighbour(h, row, col, j) == OpenNeighbour(g, row, col, j)
    ensures Open(g, row, col) == Ok(Scan(h, row, col, 0))
  {
    if g.sites[row][col] {
      assert g.sites[row][col := true] == g.sites[row];
    }
    forall j | 0 <= j < 4
      ensures OpenNeighbour(h, row, col, j) == OpenNeighbour(g, row, col, j)
    {
    }
  }

  /** Reached depends on the grid only through its ids and open neighbours. */
  lemma ReachedSameNeighbours(g: Grid, h: Grid, row: int, col: int, x: int)
    requires Shaped(g) && Shaped(h) && h.n == g.n && h.ids == g.ids
    requires InGrid(g.n, row, col) && 0 <= x < |g.ids|
    requires forall j :: 0 <= j < 4 ==> OpenNeighbour(h, row, col, j) == OpenNeighbour(g, row, col, j)
    ensures Reached(h, row, col, x) == Reached(g, row, col, x)
  {
  }

  /** A top-row site is probed against no neighbour: the first probe (up)
      leaves the grid, so the partition is unchanged. */
  lemma OpenTopRowMergesNothing(g: Grid, col: int)
    requires Valid(g) && InGrid(g.n, 0, col)
    ensures QF.SamePartition(Open(g, 0, col).value.ids, g.ids)
  {
    OpenMerges(g, 0, col);
  }

  /** Label x is, in g, with the first-column site (row, 0) or, if the site
      above it is open, with that one. */
  ghost predicate FirstColumnJoined(g: Grid, row: int, x: int)
    requires Shaped(g) && 0 < row < g.n && 0 <= x < |g.ids|
  {
    || QF.Connected(g.ids, x, Label(g.n, row, 0))
    || (g.sites[row - 1][0] && QF.Connected(g.ids, x, Label(g.n, row - 1, 0)))
  }

  /** A first-column site below the top row is merged at most with the site
      above it: the second probe (left) leaves the grid. */
  lemma OpenFirstColumnMergesOnlyUp(g: Grid, row: int)
    requires Valid(g) && 0 < row < g.n
    ensures forall x, y :: 0 <= x < |g.ids| && 0 <= y < |g.ids| ==>
      (QF.Connected(Open(g, row, 0).value.ids, x, y) <==>
         QF.Connected(g.ids, x, y) || (FirstColumnJoined(g, row, x) && FirstColumnJoined(g, row, y)))
  {
    OpenMerges(g, row, 0);
    forall x, y | 0 <= x < |g.ids| && 0 <= y < |g.ids|
      ensures QF.Connected(Open(g, row, 0).value.ids, x, y) <==>
        QF.Connected(g.ids, x, y) || (FirstColumnJoined(g, row, x) && FirstColumnJoined(g, row, y))
    {
      ReachedFromFirstColumn(g, row, x);
      ReachedFromFirstColumn(g, row, y);
    }
  }

  /** For a first-column site the labels the scan reaches are those of FirstColumnJoined. */
  lemma ReachedFromFirstColumn(g: Grid, row: int, x: int)
    requires Shaped(g) && 0 < row < g.n && 0 <= x < |g.ids|
    ensures Reached(g, row, 0, x) <==> FirstColumnJoined(g, row, x)
  {
    assert ProbedCount(g.n, row, 0) == 1;
    if g.sites[row - 1][0] && QF.Connected(g.ids, x, Label(g.n, row - 1, 0)) {
      assert OpenNeighbour(g, row, 0, 0);
    }
  }

  /** Label x is, in g, with the bottom-row site (LastRow, col), with the
      site above it if that one is open, or with the site to its left if that
      one is open. */
  ghost predicate BottomJoined(g: Grid, col: int, x: int)
    requires Shaped(g) && g.n >= 2 && 0 < col < g.n && 0 <= x < |g.ids|
  {
    var row := LastRow(g.n);
    || QF.Connected(g.ids, x, Label(g.n, row, col))
    || (g.sites[row - 1][col] && QF.Connected(g.ids, x, Label(g.n, row - 1, col)))
    || (g.sites[row][col - 1] && QF.Connected(g.ids, x, Label(g.n, row, col - 1)))
  }

  /** A bottom-row site (not in the first column, grid at least 2 by 2) is
      merged with the open sites above it and to its left only: the third
      probe (down) leaves the grid, so an open site to the right is never
      unioned with it. */
  lemma OpenBottomRowNeverUnionsRight(g: Grid, col: int)
    requires Valid(g) && g.n >= 2 && 0 < col < g.n
    ensures forall x, y :: 0 <= x < |g.ids| && 0 <= y < |g.ids| ==>
      (QF.Connected(Open(g, LastRow(g.n), col).value.ids, x, y) <==>
         QF.Connected(g.ids, x, y) || (BottomJoined(g, col, x) && BottomJoined(g, col, y)))
  {
    OpenMerges(g, LastRow(g.n), col);
    forall x, y | 0 <= x < |g.ids| && 0 <= y < |g.ids|
      ensures QF.Connected(Open(g, LastRow(g.n), col).value.ids, x, y) <==>
        QF.Connected(g.ids, x, y) || (BottomJoined(g, col, x) && BottomJoined(g, col, y))
    {
      ReachedFromBottomRow(g, col, x);
      ReachedFromBottomRow(g, col, y);
    }
  }

  /** For a bottom-row site the labels the scan reaches are those of BottomJoined. */
  lemma ReachedFromBottomRow(g: Grid, col: int, x: int)
    requires Shaped(g) && g.n >= 2 && 0 < col < g.n && 0 <= x < |g.ids|
    ensures Reached(g, LastRow(g.n), col, x) <==> BottomJoined(g, col, x)
  {
    var row := LastRow(g.n);
    assert ProbedCount(g.n, row, col) == 2;
    assert NeighbourLabel(g.n, row, col, 0) == Label(g.n, row - 1, col);
    assert NeighbourLabel(g.n, row, col, 1) == Label(g.n, row, col - 1);
    if g.sites[row - 1][col] && QF.Connected(g.ids, x, Label(g.n, row - 1, col)) {
      assert OpenNeighbour(g, row, col, 0);
    }
    if g.sites[row][col - 1] && QF.Connected(g.ids, x, Label(g.n, row, col - 1)) {
      assert OpenNeighbour(g, row, col, 1);
    }
  }

  /** Away from the top row, the bottom row and the first column, every open
      in-grid neighbour ends up in the site's component, as in the usual
      percolation algorithm. */
  lemma OpenInteriorJoinsAllOpenNeighbours(g: Grid, row: int, col: int)
    requires Valid(g) && 0 < row < LastRow(g.n) && 0 < col < g.n
    ensures forall k :: 0 <= k < 4 && OpenNeighbour(g, row, col, k) ==>
      QF.Connected(Open(g, row, col).value.ids, Label(g.n, row, col), NeighbourLabel(g.n, row, col, k))
  {
    OpenMerges(g, row, col);
    forall k | 0 <= k < 4 && OpenNeighbour(g, row, col, k)
      ensures QF.Connected(Open(g, row, col).value.ids, Label(g.n, row, col), NeighbourLabel(g.n, row, col, k))
    {
      assert Reached(g, row, col, NeighbourLabel(g.n, row, col, k));
      assert Reached(g, row, col, Label(g.n, row, col));
    }
  }

  /** After `open`, every open neighbour it probed is in the site's component. */
  lemma OpenJoinsProbedNeighbours(g: Grid, row: int, col: int)
    requires Valid(g) && InGrid(g.n, row, col)
    ensures forall k :: 0 <= k < ProbedCount(g.n, row, col) && OpenNeighbour(g, row, col, k) ==>
      QF.Connected(Open(g, row, col).value.ids, Label(g.n, row, col), NeighbourLabel(g.n, row, col, k))
  {
    OpenMerges(g, row, col);
    forall k | 0 <= k < ProbedCount(g.n, row, col) && OpenNeighbour(g, row, col, k)
      ensures QF.Connected(Open(g, row, col).value.ids, Label(g.n, row, col), NeighbourLabel(g.n, row, col, k))
    {
      assert Reached(g, row, col, NeighbourLabel(g.n, row, col, k));
      assert Reached(g, row, col, Label(g.n, row, col));
    }
  }

  /** Opening the same site twice in a row leaves the grid, the counter and
      the partition as one call does: the second scan repeats only unions of
      labels already in one component. */
  lemma OpenTwiceIsOpenOnce(g: Grid, row: int, col: int)
    requires Valid(g) && InGrid(g.n, row, col)
    ensures var once := Open(g, row, col).value;
            var twice := Open(once, row, col).value;
            && twice.sites == once.sites
            && twice.count == once.count
            && QF.SamePartition(twice.ids, once.ids)
  {
    var once := Open(g, row, col).value;
    var s := Label(g.n, row, col);
    OpenJoinsProbedNeighbours(g, row, col);
    OpenMerges(once, row, col);
    assert once.sites[row][col];
    forall j | 0 <= j < 4
      ensures OpenNeighbour(once, row, col, j) == OpenNeighbour(g, row, col, j)
    {
    }
    forall x | 0 <= x < |once.ids|
      ensures Reached(once, row, col, x) <==> QF.Connected(once.ids, x, s)
    {
    }
  }

  /** `open` never separates labels, so a full site stays full and a
      percolating grid keeps percolating. */
  lemma OpenKeepsFullAndPercolating(g: Grid, row: int, col: int, r: int, c: int)
    requires Valid(g) && InGrid(g.n, row, col)
    ensures IsFull(g, r, c) == Ok(true) ==> IsFull(Open(g, row, col).value, r, c) == Ok(true)
    ensures Percolates(g) ==> Percolates(Open(g, row, col).value)
  {
  }

  /** Every top-row site reports full, open or not. */
  lemma TopRowAlwaysFull(g: Grid)
    requires Valid(g)
    ensures forall col :: 0 <= col < g.n ==> IsFull(g, 0, col) == Ok(true)
  {
  }

  /** Once the grid percolates every bottom-row site reports full, open or
      not, because the bottom row is wired to the sink. */
  lemma PercolatingBottomRowFull(g: Grid)
    requires Valid(g) && Percolates(g)
    ensures forall col :: 0 <= col < g.n ==> IsFull(g, LastRow(g.n), col) == Ok(true)
  {
  }

  /** A fresh grid percolates exactly when it is 1 by 1. */
  lemma FreshPercolatesIffSingleSite(g: Grid, n: int)
    requires n >= 1 && Fresh(g, n)
    ensures Percolates(g) <==> n == 1
  {
    SquareFacts(n);
    assert FreshClass(n, Source) == if n == 1 then Sink(n) else Source;
    assert FreshClass(n, Sink(n)) == Sink(n);
  }

  /** In a fresh grid the full sites are exactly the top row (when n == 1 the
      one site is both the top row and the bottom row). */
  lemma FreshFullIffTopRow(g: Grid, n: int, row: int, col: int)
    requires Fresh(g, n) && InGrid(n, row, col)
    ensures IsFull(g, row, col) == Ok(row == 0)
  {
    SquareFacts(n);
    var l := Label(n, row, col);
    if row > 0 {
      MulMono(n, 1, row);
      assert l > n;
      assert FreshClass(n, l) != Source;
    } else {
      assert l <= n;
      assert FreshClass(n, l) == FreshClass(n, Source);
    }
  }

  /** A fresh grid has no open site. */
  lemma FreshAllClosed(g: Grid, n: int)
    requires Fresh(g, n)
    ensures NumberOfOpenSites(g) == 0
    ensures forall row, col :: InGrid(n, row, col) ==> IsOpen(g, row, col) == Ok(false)
  {
  }

  /** The open/blocked matrix after two calls of `open` does not depend on
      their order (the partition can: see Scenarios.OpeningOrderMatters). */
  lemma {:induction false} OpenSitesCommute(g: Grid, r1: int, c1: int, r2: int, c2: int)
    requires Valid(g) && InGrid(g.n, r1, c1) && InGrid(g.n, r2, c2)
    ensures Open(Open(g, r1, c1).value, r2, c2).value.sites == Open(Open(g, r2, c2).value, r1, c1).value.sites
  {
    var g1 := Open(g, r1, c1).value;
    var g2 := Open(g, r2, c2).value;
    assert g1.sites == SetSite(g.sites, r1, c1);
    assert g2.sites == SetSite(g.sites, r2, c2);
    SetSiteCommutes(g.sites, g.n, r1, c1, r2, c2);
  }

  lemma SetSiteCommutes(m: seq<seq<bool>>, n: int, r1: int, c1: int, r2: int, c2: int)
    requires |m| == n && (forall row :: 0 <= row < n ==> |m[row]| == n)
    requires InGrid(n, r1, c1) && InGrid(n, r2, c2)
    ensures SetSite(SetSite(m, r1, c1), r2, c2) == SetSite(SetSite(m, r2, c2), r1, c1)
  {
    if r1 == r2 {
      assert m[r1][c1 := true][c2 := true] == m[r1][c2 := true][c1 := true];
    }
  }

  /** After `open`, exactly the opened site has changed from blocked to open. */
  lemma OpenSetsOnlyThatSite(g: Grid, row: int, col: int, r: int, c: int)
    requires Valid(g) && InGrid(g.n, row, col) && InGrid(g.n, r, c)
    ensures IsOpen(Open(g, row, col).value, r, c) ==
      Ok((r == row && c == col) || IsOpen(g, r, c) == Ok(true))
  {
  }
}
