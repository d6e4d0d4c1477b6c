/** The percolation connectivity engine: an n-by-n grid of open/blocked sites,
    a counter of open sites, and a quick-find structure over n*n + 2 labels in
    which label 0 is a virtual source wired to the top row and label n*n + 1 a
    virtual sink wired to the bottom row. The object is modelled as an
    immutable `Grid` value; `Open` returns the next state. */
module Percolation {
  import QF = QuickFind

  /** The one failure the engine raises: an IllegalArgumentException for a
      row or column outside the grid. */
  datatype Error = OutOfBounds

  datatype Result<T> = Ok(value: T) | Err(error: Error)

  /** The fields of a Percolation object: side length, open/blocked matrix
      (row-major), quick-find ids over all labels, and the open-site counter. */
  datatype Grid = Grid(n: int, sites: seq<seq<bool>>, ids: seq<int>, count: int)

  /** Label of the virtual source. */
  const Source: int := 0

  /** Label of the virtual sink. */
  function Sink(n: int): int
  {
    n * n + 1
  }

  predicate InGrid(n: int, row: int, col: int)
  {
    0 <= row < n && 0 <= col < n
  }

  /** Index of the bottom row. */
  function LastRow(n: int): int
  {
    n - 1
  }

  // ---------------------------------------------------------------------------
  // Arithmetic on the label space

  lemma MulMono(n: int, a: int, b: int)
    requires 0 <= n && a <= b
    ensures n * a <= n * b
  {
    assert n * b - n * a == n * (b - a);
  }

  /** The top-row labels 1..n and the bottom-row labels n*n-n+1..n*n overlap
      exactly when n == 1. */
  lemma SquareFacts(n: int)
    requires n >= 1
    ensures n <= n * n
    ensures n == 1 <==> Sink(n) - n <= n
  {
    MulMono(n, 1, n);
    if n >= 2 {
      MulMono(n, 2, n);
    }
  }

  /** The encoding of an in-grid site: never the source, never the sink. */
  function Label(n: int, row: int, col: int): (l: int)
    requires InGrid(n, row, col)
    ensures 1 <= l <= n * n
  {
    MulMono(n, row, n - 1);
    n * row + 1 + col
  }

  /** `encode`: a range-checked map from coordinates to labels. */
  function Encode(n: int, row: int, col: int): (r: Result<int>)
    ensures r.Ok? <==> InGrid(n, row, col)
    ensures r.Ok? ==> 1 <= r.value <= n * n && r.value != Source && r.value != Sink(n)
  {
    if row < 0 || col < 0 then Err(OutOfBounds)
    else if row >= n || col >= n then Err(OutOfBounds)
    else Ok(Label(n, row, col))
  }

  /** Inverse of the encoding on the labels 1..n*n. */
  function Decode(n: int, site: int): (rc: (int, int))
    requires n >= 1 && 1 <= site <= n * n
    ensures InGrid(n, rc.0, rc.1) && Encode(n, rc.0, rc.1) == Ok(site)
  {
    DecodeBound(n, site);
    ((site - 1) / n, (site - 1) % n)
  }

  lemma DecodeBound(n: int, site: int)
    requires n >= 1 && 1 <= site <= n * n
    ensures 0 <= (site - 1) / n < n && 0 <= (site - 1) % n < n
    ensures n * ((site - 1) / n) + 1 + (site - 1) % n == site
  {
    var row := (site - 1) / n;
    if row >= n {
      MulMono(n, n, row);
    }
  }

  /** Distinct in-grid sites get distinct labels. */
  lemma {:induction false} EncodeInjective(n: int, r1: int, c1: int, r2: int, c2: int)
    requires Encode(n, r1, c1).Ok? && Encode(n, r1, c1) == Encode(n, r2, c2)
    ensures r1 == r2 && c1 == c2
  {
    assert n * r1 + c1 == n * r2 + c2;
    if r1 < r2 {
      assert n * (r1 + 1) == n * r1 + n;
      MulMono(n, r1 + 1, r2);
      assert false;
    } else if r2 < r1 {
      assert n * (r2 + 1) == n * r2 + n;
      MulMono(n, r2 + 1, r1);
      assert false;
    }
  }

  /** Decoding an encoded site gives the site back: the encoding is a
      bijection between the in-grid sites and the labels 1..n*n. */
  lemma DecodeEncode(n: int, row: int, col: int)
    requires InGrid(n, row, col)
    ensures Decode(n, Label(n, row, col)) == (row, col)
  {
    var rc := Decode(n, Label(n, row, col));
    EncodeInjective(n, rc.0, rc.1, row, col);
  }

  // ---------------------------------------------------------------------------
  // Grid state and its invariant

  /** The matrix is n by n and the quick-find structure spans all n*n + 2 labels. */
  ghost predicate Shaped(g: Grid)
  {
    && g.n >= 1
    && |g.sites| == g.n
    && (forall row :: 0 <= row < g.n ==> |g.sites[row]| == g.n)
    && |g.ids| == g.n * g.n + 2
  }

  /** The coordinates of the open sites. */
  ghost function OpenSites(g: Grid): set<(int, int)>
    requires Shaped(g)
  {
    set row, col | 0 <= row < g.n && 0 <= col < g.n && g.sites[row][col] :: (row, col)
  }

  /** The object invariant: the counter is the number of open sites, every
      top-row site is with the source and every bottom-row site with the sink. */
  ghost predicate Valid(g: Grid)
  {
    && Shaped(g)
    && g.count == |OpenSites(g)|
    && (forall col :: 0 <= col < g.n ==> QF.Connected(g.ids, Label(g.n, 0, col), Source))
    && (forall col :: 0 <= col < g.n ==> QF.Connected(g.ids, Label(g.n, LastRow(g.n), col), Sink(g.n)))
  }

  /** The component of label x right after construction, named by a
      representative: the source with the top row, the sink with the bottom
      row (a single component when n == 1), every other label on its own. */
  function FreshClass(n: int, x: int): int
  {
    if x >= Sink(n) - n then Sink(n)
    else if x <= n then (if n == 1 then Sink(n) else Source)
    else x
  }

  /** The state the constructor leaves: all sites blocked, count 0, and the
      partition given by `FreshClass`. */
  ghost predicate Fresh(g: Grid, n: int)
  {
    && Valid(g)
    && g.n == n
    && g.count == 0
    && (forall row, col :: InGrid(n, row, col) ==> !g.sites[row][col])
    && (forall x, y :: 0 <= x < |g.ids| && 0 <= y < |g.ids| ==>
          (QF.Connected(g.ids, x, y) <==> FreshClass(n, x) == FreshClass(n, y)))
  }

  /** Component structure part-way through the top-row wiring loop: labels
      below i are with the source. */
  ghost function TopStage(i: int, x: int): int
  {
    if x < i then Source else x
  }

  /** Component structure part-way through the bottom-row wiring loop: the
      sink and the labels from Sink(n) - n below j are with the sink, which has
      absorbed the source's component once a label of the top row was wired. */
  ghost function BottomStage(n: int, j: int, x: int): int
  {
    var overlap := Sink(n) - n < j && Sink(n) - n <= n;
    if x == Sink(n) || Sink(n) - n <= x < j then Sink(n)
    else if x <= n then (if overlap then Sink(n) else Source)
    else x
  }

  /** One pass of the top-row loop: unioning label i with the source moves
      the partition from TopStage(i, _) to TopStage(i + 1, _). */
  lemma TopStageStep(ids: seq<int>, i: int)
    requires 1 <= i < |ids|
    requires forall x, y :: 0 <= x < |ids| && 0 <= y < |ids| ==>
      (QF.Connected(ids, x, y) <==> TopStage(i, x) == TopStage(i, y))
    ensures forall x, y :: 0 <= x < |ids| && 0 <= y < |ids| ==>
      (QF.Connected(QF.Union(ids, i, Source), x, y) <==> TopStage(i + 1, x) == TopStage(i + 1, y))
  {
  }

  /** One pass of the bottom-row loop: unioning label j with the sink moves
      the partition from BottomStage(n, j, _) to BottomStage(n, j + 1, _). */
  lemma BottomStageStep(n: int, ids: seq<int>, j: int)
    requires n >= 1 && |ids| == n * n + 2 && Sink(n) - n <= j < Sink(n)
    requires forall x, y :: 0 <= x < |ids| && 0 <= y < |ids| ==>
      (QF.Connected(ids, x, y) <==> BottomStage(n, j, x) == BottomStage(n, j, y))
    ensures forall x, y :: 0 <= x < |ids| && 0 <= y < |ids| ==>
      (QF.Connected(QF.Union(ids, j, Sink(n)), x, y) <==> BottomStage(n, j + 1, x) == BottomStage(n, j + 1, y))
  {
    SquareFacts(n);
    forall x | 0 <= x < |ids|
      ensures QF.Connected(ids, x, j) <==> BottomStage(n, j, x) == BottomStage(n, j, j)
      ensures QF.Connected(ids, x, Sink(n)) <==> BottomStage(n, j, x) == Sink(n)
    {
    }
  }

  /** The constructor: a blocked n-by-n grid, n*n + 2 singleton labels, then
      the source unioned with each top-row label and the sink with each
      bottom-row label. */
  method New(n: int) returns (g: Grid)
    requires n >= 1
    ensures Fresh(g, n)
  {
    SquareFacts(n);
    var m := n * n + 2;
    var sites := seq(n, _ => seq(n, _ => false));
    var ids := QF.Singletons(m);
    var i := Source + 1;
    while i <= Source + n
      invariant 1 <= i <= n + 1
      invariant |ids| == m
      invariant forall x, y :: 0 <= x < m && 0 <= y < m ==>
        (QF.Connected(ids, x, y) <==> TopStage(i, x) == TopStage(i, y))
    {
      TopStageStep(ids, i);
      ids := QF.UnionInPlace(ids, i, Source);
      i := i + 1;
    }
    var j := Sink(n) - n;
    while j <= Sink(n) - 1
      invariant Sink(n) - n <= j <= Sink(n)
      invariant |ids| == m
      invariant forall x, y :: 0 <= x < m && 0 <= y < m ==>
        (QF.Connected(ids, x, y) <==> BottomStage(n, j, x) == BottomStage(n, j, y))
    {
      BottomStageStep(n, ids, j);
      ids := QF.UnionInPlace(ids, j, Sink(n));
      j := j + 1;
    }
    g := Grid(n, sites, ids, 0);
    WiredIsFresh(g, n);
  }

  /** A blocked grid with count 0 whose partition is the one the bottom-row
      loop ends with is the fresh state. */
  lemma WiredIsFresh(g: Grid, n: int)
    requires Shaped(g) && g.n == n && g.count == 0
    requires forall row, col :: InGrid(n, row, col) ==> !g.sites[row][col]
    requires forall x, y :: 0 <= x < |g.ids| && 0 <= y < |g.ids| ==>
      (QF.Connected(g.ids, x, y) <==> BottomStage(n, Sink(n), x) == BottomStage(n, Sink(n), y))
    ensures Fresh(g, n)
  {
    SquareFacts(n);
    forall x | 0 <= x < |g.ids|
      ensures BottomStage(n, Sink(n), x) == FreshClass(n, x)
    {
    }
    assert OpenSites(g) == {};
    forall col | 0 <= col < n
      ensures QF.Connected(g.ids, Label(n, LastRow(n), col), Sink(n))
    {
      assert Label(n, LastRow(n), col) == Sink(n) - n + col by {
        assert n * (n - 1) == n * n - n;
      }
    }
  }

  // ---------------------------------------------------------------------------
  // Queries

  /** `isOpen`: range-checked read of one site. */
  function IsOpen(g: Grid, row: int, col: int): (r: Result<bool>)
    requires Shaped(g)
    ensures r.Err? <==> !InGrid(g.n, row, col)
    ensures r.Ok? ==> (r.value <==> (row, col) in OpenSites(g))
  {
    if row < 0 || col < 0 then Err(OutOfBounds)
    else if row >= g.n || col >= g.n then Err(OutOfBounds)
    else Ok(g.sites[row][col])
  }

  /** `numberOfOpenSites`: the counter, which is the number of open sites. */
  function NumberOfOpenSites(g: Grid): (r: int)
    requires Valid(g)
    ensures r == |OpenSites(g)|
  {
    g.count
  }

  /** `isFull`: whether the site is in the source's component; the site
      itself need not be open. */
  function IsFull(g: Grid, row: int, col: int): (r: Result<bool>)
    requires Shaped(g)
    ensures r.Err? <==> !InGrid(g.n, row, col)
    ensures r.Ok? ==> (r.value <==> QF.Connected(g.ids, Label(g.n, row, col), Source))
  {
    match Encode(g.n, row, col)
    case Err(e) => Err(e)
    case Ok(l) => Ok(QF.Find(g.ids, l) == QF.Find(g.ids, Source))
  }

  /** `percolates`: whether the source and the sink share a component. */
  function Percolates(g: Grid): (r: bool)
    requires Shaped(g)
    ensures r <==> QF.Connected(g.ids, Source, Sink(g.n))
  {
    QF.Find(g.ids, Source) == QF.Find(g.ids, Sink(g.n))
  }

  // ---------------------------------------------------------------------------
  // Opening a site

  /** The k-th neighbour `open` probes: up, left, down, right. */
  function Neighbour(row: int, col: int, k: int): (int, int)
  {
    if k == 0 then (row - 1, col)
    else if k == 1 then (row, col - 1)
    else if k == 2 then (row + 1, col)
    else (row, col + 1)
  }

  /** The second conjunct of the k-th probe's condition (`(row - 1) >= 0` and
      so on), evaluated only after `isOpen` has accepted the neighbour. It
      holds for every neighbour with non-negative coordinates, so it never
      rejects one that `isOpen` accepted. */
  predicate Guard(row: int, col: int, k: int): (r: bool)
    ensures 0 <= Neighbour(row, col, k).0 && 0 <= Neighbour(row, col, k).1 ==> r
  {
    if k == 0 then row - 1 >= 0
    else if k == 1 then col - 1 >= 0
    else if k == 2 then row + 1 >= 0
    else col + 1 >= 0
  }

  /** Neighbour k lies in the grid and is open. */
  predicate OpenNeighbour(g: Grid, row: int, col: int, k: int)
    requires Shaped(g)
  {
    var nb := Neighbour(row, col, k);
    InGrid(g.n, nb.0, nb.1) && g.sites[nb.0][nb.1]
  }

  function NeighbourLabel(n: int, row: int, col: int, k: int): (l: int)
    requires InGrid(n, Neighbour(row, col, k).0, Neighbour(row, col, k).1)
    ensures 1 <= l <= n * n
  {
    Label(n, Neighbour(row, col, k).0, Neighbour(row, col, k).1)
  }

  /** Label x is, in g, with the site or with an open neighbour that a scan
      starting at probe k reaches before a probe leaves the grid. */
  ghost predicate Joined(g: Grid, row: int, col: int, k: int, x: int)
    requires Shaped(g) && InGrid(g.n, row, col) && 0 <= k <= 4 && 0 <= x < |g.ids|
    decreases 4 - k
  {
    var nb := Neighbour(row, col, k);
    if k == 4 || !InGrid(g.n, nb.0, nb.1) then QF.Connected(g.ids, x, Label(g.n, row, col))
    else Joined(g, row, col, k + 1, x) || (g.sites[nb.0][nb.1] && QF.Connected(g.ids, x, Label(g.n, nb.0, nb.1)))
  }

  lemma {:induction false} JoinedHasSite(g: Grid, row: int, col: int, k: int, x: int)
    requires Shaped(g) && InGrid(g.n, row, col) && 0 <= k <= 4 && 0 <= x < |g.ids|
    requires QF.Connected(g.ids, x, Label(g.n, row, col))
    ensures Joined(g, row, col, k, x)
    decreases 4 - k
  {
    var nb := Neighbour(row, col, k);
    if !(k == 4 || !InGrid(g.n, nb.0, nb.1)) {
      JoinedHasSite(g, row, col, k + 1, x);
    }
  }

  /** Unioning the site with label q adds q's component to the joined labels. */
  lemma {:induction false} JoinedAfterUnion(g: Grid, h: Grid, row: int, col: int, k: int, q: int)
    requires Shaped(g) && InGrid(g.n, row, col) && 0 <= k <= 4 && 0 <= q < |g.ids|
    requires h == g.(ids := QF.Union(g.ids, Label(g.n, row, col), q))
    ensures Shaped(h)
    ensures forall x :: 0 <= x < |g.ids| ==>
      (Joined(h, row, col, k, x) <==> Joined(g, row, col, k, x) || QF.Connected(g.ids, x, q))
    decreases 4 - k
  {
    var s := Label(g.n, row, col);
    var nb := Neighbour(row, col, k);
    if !(k == 4 || !InGrid(g.n, nb.0, nb.1)) {
      JoinedAfterUnion(g, h, row, col, k + 1, q);
    }
    forall x | 0 <= x < |g.ids|
      ensures Joined(h, row, col, k, x) <==> Joined(g, row, col, k, x) || QF.Connected(g.ids, x, q)
    {
      if QF.Connected(g.ids, x, s) {
        JoinedHasSite(g, row, col, k, x);
      }
      if QF.Connected(g.ids, x, q) || QF.Connected(g.ids, x, s) {
        JoinedHasSite(h, row, col, k, x);
      }
    }
  }

  /** The neighbour scan of `open`, from probe k on. Each probe calls the
      range-checked `isOpen`; the first neighbour outside the grid raises, and
      the empty handler ends the scan, keeping the unions already made. An
      open neighbour is unioned with the site. The resulting partition joins
      the site's component with those of the open neighbours reached. */
  function Scan(g: Grid, row: int, col: int, k: int): (r: Grid)
    requires Shaped(g) && InGrid(g.n, row, col) && 0 <= k <= 4
    ensures Shaped(r) && r.n == g.n && r.sites == g.sites && r.count == g.count
    ensures forall x, y :: 0 <= x < |g.ids| && 0 <= y < |g.ids| ==>
      (QF.Connected(r.ids, x, y) <==>
         QF.Connected(g.ids, x, y) || (Joined(g, row, col, k, x) && Joined(g, row, col, k, y)))
    decreases 4 - k
  {
    if k == 4 then
      g
    else
      var nb := Neighbour(row, col, k);
      match IsOpen(g, nb.0, nb.1)
      case Err(_) => g
      case Ok(open) =>
        if open && Guard(row, col, k) then
          var h := g.(ids := QF.Union(g.ids, Label(g.n, row, col), Label(g.n, nb.0, nb.1)));
          var r := Scan(h, row, col, k + 1);
          ScanUnionStep(g, h, r, row, col, k);
          r
        else
          assert !open;
          Scan(g, row, col, k + 1)
  }

  /** One union step of the scan: if the rest of the scan from h joins what
      Joined(h, .., k + 1) says, then from g it joins what Joined(g, .., k) says. */
  lemma ScanUnionStep(g: Grid, h: Grid, r: Grid, row: int, col: int, k: int)
    requires Shaped(g) && InGrid(g.n, row, col) && 0 <= k < 4
    requires InGrid(g.n, Neighbour(row, col, k).0, Neighbour(row, col, k).1)
    requires g.sites[Neighbour(row, col, k).0][Neighbour(row, col, k).1]
    requires h == g.(ids := QF.Union(g.ids, Label(g.n, row, col), NeighbourLabel(g.n, row, col, k)))
    requires |r.ids| == |g.ids|
    requires forall x, y :: 0 <= x < |g.ids| && 0 <= y < |g.ids| ==>
      (QF.Connected(r.ids, x, y) <==>
         QF.Connected(h.ids, x, y) || (Joined(h, row, col, k + 1, x) && Joined(h, row, col, k + 1, y)))
    ensures forall x, y :: 0 <= x < |g.ids| && 0 <= y < |g.ids| ==>
      (QF.Connected(r.ids, x, y) <==>
         QF.Connected(g.ids, x, y) || (Joined(g, row, col, k, x) && Joined(g, row, col, k, y)))
  {
    var s := Label(g.n, row, col);
    var q := NeighbourLabel(g.n, row, col, k);
    JoinedAfterUnion(g, h, row, col, k + 1, q);
    JoinedSiteStep(g, row, col, k);
    forall x | 0 <= x < |g.ids|
      ensures Joined(h, row, col, k + 1, x) <==> Joined(g, row, col, k, x)
      ensures QF.Connected(g.ids, x, s) || QF.Connected(g.ids, x, q) ==> Joined(g, row, col, k, x)
    {
    }
  }

  lemma JoinedSiteStep(g: Grid, row: int, col: int, k: int)
    requires Shaped(g) && InGrid(g.n, row, col) && 0 <= k < 4
    ensures forall x :: 0 <= x < |g.ids| && QF.Connected(g.ids, x, Label(g.n, row, col)) ==> Joined(g, row, col, k + 1, x)
  {
    forall x | 0 <= x < |g.ids| && QF.Connected(g.ids, x, Label(g.n, row, col)) {
      JoinedHasSite(g, row, col, k + 1, x);
    }
  }

  /** The matrix with entry (row, col) set to open. */
  function SetSite(m: seq<seq<bool>>, row: int, col: int): seq<seq<bool>>
    requires 0 <= row < |m| && 0 <= col < |m[row]|
  {
    m[row := m[row][col := true]]
  }

  /** Opening a blocked site adds exactly that site to the open set. */
  lemma OpenSitesAfterOpening(g: Grid, h: Grid, row: int, col: int)
    requires Shaped(g) && InGrid(g.n, row, col) && !g.sites[row][col]
    requires h == g.(sites := SetSite(g.sites, row, col))
    ensures Shaped(h)
    ensures (row, col) !in OpenSites(g)
    ensures OpenSites(h) == OpenSites(g) + {(row, col)}
    ensures |OpenSites(h)| == |OpenSites(g)| + 1
  {
    assert OpenSites(h) == OpenSites(g) + {(row, col)};
  }

  /** `open`: a site outside the grid raises before anything changes; a
      blocked site becomes open and the counter grows by one; then the
      neighbours are scanned, whether or not the site was open before. */
  function Open(g: Grid, row: int, col: int): (r: Result<Grid>)
    requires Valid(g)
    ensures r.Err? <==> !InGrid(g.n, row, col)
    ensures r.Ok? ==> Valid(r.value) && r.value.n == g.n
    ensures r.Ok? ==> r.value.sites == SetSite(g.sites, row, col)
    ensures r.Ok? ==> OpenSites(r.value) == OpenSites(g) + {(row, col)}
    ensures r.Ok? ==> r.value.count == if (row, col) in OpenSites(g) then g.count else g.count + 1
    ensures r.Ok? ==> forall x, y :: 0 <= x < |g.ids| && 0 <= y < |g.ids| && QF.Connected(g.ids, x, y) ==>
      QF.Connected(r.value.ids, x, y)
  {
    match IsOpen(g, row, col)
    case Err(e) => Err(e)
    case Ok(wasOpen) =>
      if wasOpen then
        assert g.sites[row][col := true] == g.sites[row];
        assert SetSite(g.sites, row, col) == g.sites;
        Ok(Scan(g, row, col, 0))
      else
        var h := g.(sites := SetSite(g.sites, row, col), count := g.count + 1);
        OpenSitesAfterOpening(g, h.(count := g.count), row, col);
        Ok(Scan(h, row, col, 0))
  }
}
