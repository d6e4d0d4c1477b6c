/** Concrete call sequences on small grids, with the answers the engine gives. */
module Scenarios {
  import QF = QuickFind
  import opened Percolation
  import opened PercolationProperties

  /** The driver's sequence on a 3-by-3 grid: open (0,1), (1,1), (2,1).
      Column 1 links the source to the sink, and because the whole bottom row
      is wired to the sink, the blocked sites (2,0) and (2,2) report full. */
  lemma DriverSequence(g0: Grid, g1: Grid, g2: Grid, g3: Grid)
    requires Fresh(g0, 3)
    requires Open(g0, 0, 1) == Ok(g1) && Open(g1, 1, 1) == Ok(g2) && Open(g2, 2, 1) == Ok(g3)
    ensures Percolates(g3)
    ensures IsFull(g3, 2, 2) == Ok(true) && IsFull(g3, 2, 0) == Ok(true)
    ensures IsOpen(g3, 2, 2) == Ok(false) && IsOpen(g3, 2, 0) == Ok(false)
    ensures NumberOfOpenSites(g3) == 3
  {
    // (1,1) probes the open (0,1) above it; (2,1) probes the open (1,1).
    assert g1.sites[0][1];
    assert OpenNeighbour(g1, 1, 1, 0);
    OpenJoinsProbedNeighbours(g1, 1, 1);
    assert QF.Connected(g2.ids, Label(3, 1, 1), Label(3, 0, 1));
    assert QF.Connected(g2.ids, Label(3, 0, 1), Source);
    assert g2.sites[1][1];
    assert OpenNeighbour(g2, 2, 1, 0);
    OpenJoinsProbedNeighbours(g2, 2, 1);
    assert QF.Connected(g3.ids, Label(3, 2, 1), Label(3, 1, 1));
    assert QF.Connected(g3.ids, Label(3, 1, 1), Source);
    assert QF.Connected(g3.ids, Label(3, LastRow(3), 1), Sink(3));
    PercolatingBottomRowFull(g3);
    DriverCount(g0, g1, g2, g3);
  }

  /** The driver program itself: build a 3-by-3 grid, open (0,1), (1,1) and
      (2,1), and report isFull(2,2), isFull(2,0) and percolates. */
  method RunDriver() returns (full22: Result<bool>, full20: Result<bool>, percolates: bool)
    ensures full22 == Ok(true) && full20 == Ok(true) && percolates
  {
    var g0 := New(3);
    var g1 := Open(g0, 0, 1).value;
    var g2 := Open(g1, 1, 1).value;
    var g3 := Open(g2, 2, 1).value;
    DriverSequence(g0, g1, g2, g3);
    full22 := IsFull(g3, 2, 2);
    full20 := IsFull(g3, 2, 0);
    percolates := Percolates(g3);
  }

  /** The driver leaves three open sites; the rest of the bottom row is blocked. */
  lemma DriverCount(g0: Grid, g1: Grid, g2: Grid, g3: Grid)
    requires Fresh(g0, 3)
    requires Open(g0, 0, 1) == Ok(g1) && Open(g1, 1, 1) == Ok(g2) && Open(g2, 2, 1) == Ok(g3)
    ensures NumberOfOpenSites(g3) == 3
    ensures IsOpen(g3, 2, 2) == Ok(false) && IsOpen(g3, 2, 0) == Ok(false)
  {
    assert OpenSites(g0) == {};
    assert OpenSites(g1) == {(0, 1)};
    assert OpenSites(g2) == {(0, 1), (1, 1)};
    assert OpenSites(g3) == {(0, 1), (1, 1), (2, 1)};
  }

  /** Connectivity depends on the order of the calls. Opening (1,1) before
      (0,1) leaves (1,1) not full, because (1,1) found no open neighbour and
      the scan for the top-row site (0,1) ends at its first probe; in the
      other order (1,1) is full. Both sites are open and adjacent either way. */
  lemma OpeningOrderMatters(g0: Grid, a1: Grid, a2: Grid, b1: Grid, b2: Grid)
    requires Fresh(g0, 3)
    requires Open(g0, 1, 1) == Ok(a1) && Open(a1, 0, 1) == Ok(a2)
    requires Open(g0, 0, 1) == Ok(b1) && Open(b1, 1, 1) == Ok(b2)
    ensures a2.sites == b2.sites
    ensures IsOpen(a2, 1, 1) == Ok(true) && IsOpen(a2, 0, 1) == Ok(true)
    ensures IsFull(a2, 0, 1) == Ok(true) && IsFull(a2, 1, 1) == Ok(false)
    ensures IsFull(b2, 1, 1) == Ok(true)
  {
    OpenSitesCommute(g0, 1, 1, 0, 1);
    // First order: nothing is merged at either call.
    CentreAloneInFreshGrid(g0, a1);
    OpenTopRowMergesNothing(a1, 1);
    assert !QF.Connected(a2.ids, Label(3, 1, 1), Source);
    TopRowAlwaysFull(a2);
    CentreAfterTopIsFull(g0, b1, b2);
  }

  /** Opening (0,1) and then (1,1): the centre probes the open site above it
      and joins the source's component. */
  lemma CentreAfterTopIsFull(g0: Grid, b1: Grid, b2: Grid)
    requires Fresh(g0, 3) && Open(g0, 0, 1) == Ok(b1) && Open(b1, 1, 1) == Ok(b2)
    ensures IsFull(b2, 1, 1) == Ok(true)
  {
    assert OpenNeighbour(b1, 1, 1, 0);
    OpenJoinsProbedNeighbours(b1, 1, 1);
  }

  /** Opening the centre of a fresh 3-by-3 grid finds no open neighbour, so
      the centre stays out of the source's component. */
  lemma CentreAloneInFreshGrid(g0: Grid, a1: Grid)
    requires Fresh(g0, 3) && Open(g0, 1, 1) == Ok(a1)
    ensures !QF.Connected(a1.ids, Label(3, 1, 1), Source)
  {
    OpenMerges(g0, 1, 1);
    forall x | 0 <= x < |g0.ids|
      ensures Reached(g0, 1, 1, x) <==> QF.Connected(g0.ids, x, Label(3, 1, 1))
    {
    }
    assert !QF.Connected(g0.ids, Label(3, 1, 1), Source);
    assert !Reached(g0, 1, 1, Source);
  }

  /** Opening only the corner (0,0) of a 3-by-3 grid: one open site, the
      corner is full, the grid does not percolate. */
  lemma CornerOnly(g0: Grid, g1: Grid)
    requires Fresh(g0, 3) && Open(g0, 0, 0) == Ok(g1)
    ensures NumberOfOpenSites(g1) == 1
    ensures IsFull(g1, 0, 0) == Ok(true)
    ensures !Percolates(g1)
  {
    FreshPercolatesIffSingleSite(g0, 3);
    OpenTopRowMergesNothing(g0, 0);
    TopRowAlwaysFull(g1);
  }

  /** A 1-by-1 grid percolates as soon as it is built, since its one site is
      wired to both the source and the sink, and still does after opening it. */
  lemma SingleSite(g0: Grid, g1: Grid)
    requires Fresh(g0, 1) && Open(g0, 0, 0) == Ok(g1)
    ensures Percolates(g0) && Percolates(g1)
    ensures IsOpen(g0, 0, 0) == Ok(false) && IsFull(g0, 0, 0) == Ok(true)
  {
    FreshPercolatesIffSingleSite(g0, 1);
    OpenKeepsFullAndPercolating(g0, 0, 0, 0, 0);
  }

  /** A row or column just outside the grid is an error for `open`,
      `isOpen` and `isFull` alike. */
  lemma OutOfGridCallsFail(g: Grid)
    requires Valid(g)
    ensures Open(g, -1, 0).Err? && Open(g, g.n, 0).Err? && Open(g, 0, -1).Err? && Open(g, 0, g.n).Err?
    ensures IsOpen(g, -1, 0).Err? && IsOpen(g, 0, g.n).Err?
    ensures IsFull(g, g.n, 0).Err? && IsFull(g, 0, -1).Err?
  {
  }
}
