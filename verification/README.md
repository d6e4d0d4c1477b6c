# Percolation connectivity engine, modelled in Dafny

This project models the `Percolation` class of a small Java percolation
simulator. The grid is n by n, and each site is open or blocked. A counter
records how many sites are open. A quick-find disjoint-set structure covers
n*n + 2 labels:

- site `(row, col)` has label `n*row + col + 1`;
- label 0 is a virtual source, pre-unioned with every top-row label;
- label `n*n + 1` is a virtual sink, pre-unioned with every bottom-row label.

`open` marks a site open and unions it with its open neighbours. `isFull`
asks whether a site shares the source's component. `percolates` asks whether
the source and the sink share a component.

The Java object is modelled as an immutable value, `Percolation.Grid`. Each
operation is a pure function, and `Open` returns the next state. An exception
is modelled as `Result.Err(OutOfBounds)`. The constructor `Percolation.New` is
a method that runs the two wiring loops over the quick-find structure.

The algs4 `QuickFindUF` class is not part of this model. It is reimplemented
natively in module `QuickFind`:

- `Find` reads a label's id;
- `Union` relabels every label that had p's id with q's id;
- `UnionInPlace` is the same relabelling as a single loop.

The contracts speak of the partition (`QuickFind.Connected`), not of id
values, with two exceptions. `Find` returns one of the stored ids.
`UnionInPlace` produces the same id sequence as `Union`, and it is the loop
that both wiring loops of `New` call.

Files:

- `quick_find.dfy`: the disjoint-set structure;
- `percolation.dfy`: the grid, the encoding, the constructor and the operations;
- `percolation_properties.dfy`: properties that relate several calls;
- `scenarios.dfy`: concrete call sequences on 3-by-3 and 1-by-1 grids.

## How `open` really behaves

`open` probes the four neighbours in the order up, left, down, right. Each
probe calls the range-checked `isOpen`, and all four probes sit inside one
`try` whose `catch` is empty. The first neighbour outside the grid therefore
ends the scan. Unions already made are kept, and the remaining neighbours are
never looked at. The model does the same in `Percolation.Scan`, and
`PercolationProperties.ProbedCount` states how many probes run:

- none in the top row;
- only "up" in the first column;
- "up" and "left" in the bottom row;
- three in the last column;
- four elsewhere.

The `(row - 1) >= 0`-style second conjuncts are modelled literally
(`Percolation.Guard`). They never decide anything, because `isOpen` has
already rejected every out-of-grid neighbour.

Some of this behaviour differs from the usual percolation algorithm, and the
model keeps the code's behaviour:

- **Neighbour scan.** The usual algorithm skips a neighbour outside the grid
  and still examines the others. Here the scan ends at the first such
  neighbour. So two adjacent open sites need not be connected, and the answer
  depends on the order of the calls (`Scenarios.OpeningOrderMatters`): (1,1)
  and (0,1) can both be open and adjacent, yet only (0,1) is full.
- **1-by-1 grid.** The single site is both the top row and the bottom row, so
  the constructor wires it to the source and to the sink. A fresh 1-by-1 grid
  therefore percolates (`PercolationProperties.FreshPercolatesIffSingleSite`).
- **Blocked bottom-row sites.** The whole bottom row is wired to the sink, so
  once the grid percolates every bottom-row site reports full, open or not.
  After the driver's three opens, the blocked sites (2,2) and (2,0) are full
  (`Scenarios.DriverSequence`).
- **`isFull` on blocked sites.** `isFull` does not check that the site is open.
  A blocked top-row site is always full (`PercolationProperties.TopRowAlwaysFull`).
- **Size.** The constructor does not check `n`. The model requires `n >= 1`.

## Model

| member | source | states |
|---|---|---|
| QuickFind.Singletons | src/com/company/Percolation.java:30 | the structure over n*n + 2 labels starts with every label in its own component: two labels are connected iff they are equal |
| QuickFind.Union | src/com/company/Percolation.java:32-38 | after a union, x and y are connected iff they were already, or one was with p and the other with q; nothing else is joined and the size is unchanged |
| QuickFind.UnionInPlace | src/com/company/Percolation.java:33 | the one-pass relabelling loop computes exactly the union above |
| QuickFind.Find | src/com/company/Percolation.java:146 | `find` returns one of the component ids the structure stores |
| QuickFind.Connected | src/com/company/Percolation.java:146-158 | the `find(a) == find(b)` comparison of `isFull` and `percolates` holds for a label and itself |
| QuickFind.ConnectedIsEquivalence | src/com/company/Percolation.java:146-158 | comparing `find` results is reflexive, symmetric and transitive, so the ids define a partition of the labels |
| Percolation.Label | src/com/company/Percolation.java:54 | an in-grid site's label lies in 1..n*n, so it is never the source (0) or the sink (n*n + 1) |
| Percolation.Encode | src/com/company/Percolation.java:49-56 | encoding fails exactly when the row or column is outside [0, n); otherwise the label is in 1..n*n and differs from source and sink |
| Percolation.Decode | src/com/company/Percolation.java:49-56 | every label in 1..n*n is the encoding of some in-grid site (the encoding is onto) |
| Percolation.EncodeInjective | src/com/company/Percolation.java:54 | two in-grid sites with the same label are the same site |
| Percolation.DecodeEncode | src/com/company/Percolation.java:54 | decoding an encoded site returns that site, so the encoding is a bijection onto 1..n*n |
| Percolation.New | src/com/company/Percolation.java:18-40 | construction gives all sites blocked and count 0. The top row is with the source and the bottom row with the sink, as one component when n == 1; every other label is alone |
| Percolation.TopStageStep | src/com/company/Percolation.java:32-34 | each pass of the top-row loop adds label i to the source's component and changes nothing else |
| Percolation.BottomStageStep | src/com/company/Percolation.java:36-38 | each pass of the bottom-row loop adds label j, with its component, to the sink's component and changes nothing else |
| Percolation.WiredIsFresh | src/com/company/Percolation.java:22-38 | a blocked grid with count 0 and the partition left by the two loops satisfies the invariant and has the fresh partition |
| Percolation.IsOpen | src/com/company/Percolation.java:118-124 | fails exactly for coordinates outside the grid; otherwise answers whether the site is among the open sites |
| Percolation.NumberOfOpenSites | src/com/company/Percolation.java:132-134 | the counter equals the number of open sites |
| Percolation.IsFull | src/com/company/Percolation.java:144-148 | fails exactly for coordinates outside the grid; otherwise answers whether the site's label shares the source's component, with no check that the site is open |
| Percolation.Percolates | src/com/company/Percolation.java:156-160 | true iff the source and the sink share a component |
| Percolation.OpenSitesAfterOpening | src/com/company/Percolation.java:66-70 | opening a blocked site adds exactly that site to the open set, so the count grows by one |
| Percolation.Scan | src/com/company/Percolation.java:72-105 | the neighbour scan changes no site and not the count. Afterwards x and y are connected iff they were before, or both are joined to the site or to an open neighbour probed before the first out-of-grid probe |
| Percolation.Guard | src/com/company/Percolation.java:75-97 | each `(row - 1) >= 0`-style second conjunct holds for every neighbour with non-negative coordinates, so it never rejects a neighbour `isOpen` accepted |
| Percolation.ScanUnionStep | src/com/company/Percolation.java:75-78 | unioning the site with an open in-grid neighbour and scanning on gives the partition the whole remaining scan promises |
| Percolation.Open | src/com/company/Percolation.java:65-107 | fails exactly for a site outside the grid, with no state; otherwise the result keeps the invariant, opens exactly that site, counts it once if it was blocked, and never separates connected labels |
| PercolationProperties.OpenIsScan | src/com/company/Percolation.java:65-72 | `open` on an in-grid site sets the site open (counting it once) and then runs the neighbour scan from the first probe; the neighbours' open flags are unchanged |
| PercolationProperties.ProbedCount | src/com/company/Percolation.java:72-105 | the number of neighbours probed is the index of the first out-of-grid probe in the order up, left, down, right |
| PercolationProperties.JoinedIsReached | src/com/company/Percolation.java:75-101 | from probe k on, the scan joins the site and exactly the open neighbours among probes k up to ProbedCount - 1 |
| PercolationProperties.OpenMerges | src/com/company/Percolation.java:72-105 | after `open`, x and y are connected iff they were before, or both are with the site or an open probed neighbour |
| PercolationProperties.OpenTopRowMergesNothing | src/com/company/Percolation.java:75 | opening a top-row site leaves the partition unchanged |
| PercolationProperties.OpenFirstColumnMergesOnlyUp | src/com/company/Percolation.java:75-85 | opening a first-column site below row 0 merges it at most with the open site above |
| PercolationProperties.OpenBottomRowNeverUnionsRight | src/com/company/Percolation.java:89-101 | opening a bottom-row site merges it only with the open sites above and to the left, never the right one |
| PercolationProperties.OpenInteriorJoinsAllOpenNeighbours | src/com/company/Percolation.java:75-101 | away from the top row, the bottom row and the first column, every open in-grid neighbour ends up with the site |
| PercolationProperties.OpenJoinsProbedNeighbours | src/com/company/Percolation.java:75-101 | every open neighbour that `open` probed is with the site afterwards |
| PercolationProperties.OpenTwiceIsOpenOnce | src/com/company/Percolation.java:66-101 | a second `open` of the same site leaves sites, count and partition as after the first |
| PercolationProperties.OpenKeepsFullAndPercolating | src/com/company/Percolation.java:144-160 | once a site is full it stays full after any `open`, and once the grid percolates it keeps percolating |
| PercolationProperties.TopRowAlwaysFull | src/com/company/Percolation.java:32-34 | every top-row site reports full in every valid state, open or not |
| PercolationProperties.PercolatingBottomRowFull | src/com/company/Percolation.java:36-38 | when the grid percolates, every bottom-row site reports full, open or not |
| PercolationProperties.FreshPercolatesIffSingleSite | src/com/company/Percolation.java:32-38 | a freshly built grid percolates exactly when n == 1 |
| PercolationProperties.FreshFullIffTopRow | src/com/company/Percolation.java:32-38 | in a fresh grid a site is full iff it is in the top row (for n == 1 the one site) |
| PercolationProperties.FreshAllClosed | src/com/company/Percolation.java:22-28 | a fresh grid has no open site and a count of 0 |
| PercolationProperties.OpenSitesCommute | src/com/company/Percolation.java:66-68 | the open/blocked matrix after two `open` calls is the same in either order |
| PercolationProperties.OpenSetsOnlyThatSite | src/com/company/Percolation.java:66-70 | after `open`, a site is open iff it is the opened one or was open before |
| Scenarios.DriverSequence | src/com/company/Main.java:9-15 | n = 3, opening (0,1), (1,1), (2,1): percolates, and (2,0), (2,2) are full though blocked |
| Scenarios.RunDriver | src/com/company/Main.java:8-16 | the driver's three answers are all true: isFull(2,2), isFull(2,0) and percolates |
| Scenarios.DriverCount | src/com/company/Main.java:9-12 | the same sequence leaves three open sites, with (2,0) and (2,2) blocked |
| Scenarios.OpeningOrderMatters | src/com/company/Percolation.java:72-105 | n = 3: (1,1) then (0,1) leaves (1,1) not full while (0,1) is full; in the other order (1,1) is full |
| Scenarios.CentreAloneInFreshGrid | src/com/company/Percolation.java:72-105 | n = 3: opening the centre of a fresh grid merges it with nothing, so it is not with the source |
| Scenarios.CentreAfterTopIsFull | src/com/company/Percolation.java:75-78 | n = 3: after (0,1), opening (1,1) joins it to the source through the open site above |
| Scenarios.CornerOnly | src/com/company/Percolation.java:65-107 | n = 3, opening only (0,0): count 1, (0,0) full, no percolation |
| Scenarios.SingleSite | src/com/company/Percolation.java:32-38 | n = 1: percolates before and after opening its blocked but full site |
| Scenarios.OutOfGridCallsFail | src/com/company/Percolation.java:118-121 | `open`, `isOpen` and `isFull` fail on a row or column of -1 or n |

## Left out

- Printing in `Main.java`: only its call sequence is kept, as `Scenarios.DriverSequence`.
- Mutation and object identity: the object is a value and `Open` returns the next one. An error returns no state, which models "fails before any change".
- Range validation inside the quick-find library: `QuickFind.Find` and `QuickFind.Union` require in-range labels. Every call from the engine passes a label that `encode` or the constructor loops keep in range.
- Literal component ids: contracts state only which labels are connected.
- Size validation: the code has none, so the model requires `n >= 1`. In Java, n = 0 builds an empty grid and a negative n fails during array allocation.
- Java `int` overflow of `n*n + 2` and of the counter: integers are unbounded, and `n >= 1` is the only bound.
- Randomised opening, threshold statistics and visualisation: none of these exist in the code.
