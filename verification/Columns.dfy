/** Column clustering of a scanned table (packages/extractors/extractors/tesseract.py), with
    real numbers for the fractional coordinates. */
module Columns {
  import Seqs
  import Sorting

  datatype Word = Word(x: real, y: real, text: string)

  type Row = seq<Word>

  const GAP := 0.03
  const SLACK := 0.000001

  predicate RealLe(a: real, b: real) {
    a <= b
  }

  ghost predicate Ascending(s: seq<real>) {
    forall i, j :: 0 <= i <= j < |s| ==> s[i] <= s[j]
  }

  function Edges(rows: seq<Row>): seq<real> {
    if rows == [] then [] else Edges(rows[..|rows| - 1]) + Seqs.Map((w: Word) => w.x, rows[|rows| - 1])
  }

  function SortedEdges(rows: seq<Row>): seq<real> {
    Sorting.Sort(Edges(rows), RealLe)
  }

  lemma {:induction false} EdgesAreSorted(rows: seq<Row>)
    ensures Ascending(SortedEdges(rows)) && multiset(SortedEdges(rows)) == multiset(Edges(rows))
    ensures forall x :: x in SortedEdges(rows) <==> x in Edges(rows)
  {
    Sorting.SortSorts(Edges(rows), RealLe);
    var s := SortedEdges(rows);
    assert forall i, j :: 0 <= i < j < |s| ==> RealLe(s[i], s[j]);
    assert forall x :: x in s <==> x in multiset(s);
    assert forall x :: x in Edges(rows) <==> x in multiset(Edges(rows));
  }

  /** Where a new column starts among the first `n` edges: at the first, and after every gap over
      the threshold. */
  function Starts(s: seq<real>, n: nat): seq<real>
    requires n <= |s|
  {
    if n == 0 then []
    else Starts(s, n - 1) + if n == 1 || s[n - 1] - s[n - 2] > GAP then [s[n - 1]] else []
  }

  /** The column boundaries of a table. */
  function Boundaries(rows: seq<Row>): seq<real> {
    Starts(SortedEdges(rows), |SortedEdges(rows)|)
  }

  function Least(s: seq<real>): (m: real)
    requires s != []
    ensures m in s && forall x <- s :: m <= x
  {
    if |s| == 1 then s[0]
    else
      var m := Least(s[..|s| - 1]);
      assert s == s[..|s| - 1] + [s[|s| - 1]];
      if m <= s[|s| - 1] then m else s[|s| - 1]
  }

  /** A cluster in the making: nonempty, headed by its least edge, ending at the latest one. */
  ghost predicate Cluster(c: seq<real>, latest: real) {
    c != [] && forall k :: 0 <= k < |c| ==> c[0] <= c[k] <= latest
  }

  ghost predicate Headed(clusters: seq<seq<real>>, heads: seq<real>, latest: real) {
    && |clusters| == |heads|
    && forall k :: 0 <= k < |clusters| ==> Cluster(clusters[k], latest) && clusters[k][0] == heads[k]
  }

  /** `_cluster_columns`: the least edge of each cluster. */
  method ClusterColumns(rows: seq<Row>) returns (boundaries: seq<real>)
    ensures boundaries == Boundaries(rows)
  {
    var xs := SortedEdges(rows);
    EdgesAreSorted(rows);
    if xs == [] { return []; }
    var clusters := ClusterSorted(xs);
    boundaries := LeastOfEach(clusters, Starts(xs, |xs|), xs[|xs| - 1]);
  }

  method ClusterSorted(xs: seq<real>) returns (clusters: seq<seq<real>>)
    requires xs != [] && Ascending(xs)
    ensures Headed(clusters, Starts(xs, |xs|), xs[|xs| - 1])
  {
    var done: seq<seq<real>>, current := [], [xs[0]];    // all clusters but the last, and the last
    ghost var starts := [];
    var i := 1;
    while i < |xs|
      invariant 1 <= i <= |xs| && Cluster(current, xs[i - 1]) && current[|current| - 1] == xs[i - 1]
      invariant starts + [current[0]] == Starts(xs, i) && Headed(done, starts, xs[i - 1])
    {
      if xs[i] - current[|current| - 1] > GAP {
        starts := starts + [current[0]];
        done, current := done + [current], [xs[i]];
      } else {
        current := current + [xs[i]];
      }
      i := i + 1;
    }
    clusters := done + [current];
  }

  method LeastOfEach(clusters: seq<seq<real>>, ghost heads: seq<real>, ghost latest: real) returns (r: seq<real>)
    requires Headed(clusters, heads, latest)
    ensures r == heads
  {
    assert forall k :: 0 <= k < |clusters| ==> Cluster(clusters[k], latest) && clusters[k][0] in clusters[k];
    r := seq(|clusters|, k requires 0 <= k < |clusters| => Least(clusters[k]));
  }

  // ---- boundaries -------------------------------------------------------------

  /** How many columns have started by the i-th edge, less one: the edge's own column. */
  function ColumnOfEdge(s: seq<real>, i: nat): nat
    requires i < |s|
  {
    var started := |Starts(s, i + 1)|;
    if started == 0 then 0 else started - 1
  }

  /** Boundaries are edges, over a gap apart, and the last is not right of the last edge. */
  lemma {:induction false} StartsAreApart(s: seq<real>, n: nat)
    requires Ascending(s) && n <= |s|
    ensures n > 0 ==> Starts(s, n) != [] && Starts(s, n)[|Starts(s, n)| - 1] <= s[n - 1]
    ensures forall j :: 0 <= j < |Starts(s, n)| ==> Starts(s, n)[j] in s && (n > 0 ==> Starts(s, n)[j] <= s[n - 1])
    ensures forall j, k :: 0 <= j < k < |Starts(s, n)| ==> Starts(s, n)[k] - Starts(s, n)[j] > GAP
  {
    if n > 0 { StartsAreApart(s, n - 1); }
  }

  /** Edges after the i-th leave its boundaries as they are, and add some over a gap away. */
  lemma {:induction false} StartsSplit(s: seq<real>, i: nat, n: nat)
    requires Ascending(s) && i < n <= |s|
    ensures Starts(s, i + 1) <= Starts(s, n)
    ensures ColumnOfEdge(s, i) < |Starts(s, n)| && Starts(s, n)[ColumnOfEdge(s, i)] <= s[i]
    ensures forall j :: ColumnOfEdge(s, i) < j < |Starts(s, n)| ==> Starts(s, n)[j] - s[i] > GAP
  {
    if n == i + 1 { StartsAreApart(s, n); } else { StartsSplit(s, i, n - 1); }
  }

  // ---- assigning a word to a column -------------------------------------------

  /** Column j is the last whose boundary, less the slack, is not right of x. */
  ghost predicate IsColumn(x: real, boundaries: seq<real>, j: nat) {
    && j < |boundaries|
    && (forall k :: 0 <= k <= j ==> x >= boundaries[k] - SLACK)
    && (j + 1 < |boundaries| ==> x < boundaries[j + 1] - SLACK)
  }

  function Assigned(x: real, boundaries: seq<real>, i: nat): (column: nat)
    requires i <= |boundaries|
    decreases |boundaries| - i
  {
    if i == |boundaries| || x < boundaries[i] - SLACK then (if i == 0 then 0 else i - 1)
    else Assigned(x, boundaries, i + 1)
  }

  lemma {:induction false} AssignedIs(x: real, boundaries: seq<real>, i: nat, j: nat)
    requires i <= j + 1 && IsColumn(x, boundaries, j)
    ensures Assigned(x, boundaries, i) == j
    decreases j + 1 - i
  {
    if i <= j { AssignedIs(x, boundaries, i + 1, j); }
  }

  /** `_assign_column`, stopping at the first boundary right of x. */
  method AssignColumn(x: real, boundaries: seq<real>) returns (column: nat)
    ensures column == Assigned(x, boundaries, 0)
    ensures forall j :: IsColumn(x, boundaries, j) ==> column == j
    ensures boundaries != [] ==> column < |boundaries|
  {
    column := 0;
    var i := 0;
    while i < |boundaries|
      invariant 0 <= i <= |boundaries| && column == (if i == 0 then 0 else i - 1)
      invariant Assigned(x, boundaries, 0) == Assigned(x, boundaries, i)
    {
      if x >= boundaries[i] - SLACK { column := i; } else { break; }
      i := i + 1;
    }
    forall j | IsColumn(x, boundaries, j)
      ensures column == j
    {
      AssignedIs(x, boundaries, 0, j);
    }
  }

  /** The slack never moves an edge of the table: it is assigned the column it was clustered in. */
  lemma {:induction false} EdgesKeepTheirColumn(s: seq<real>, i: nat)
    requires Ascending(s) && i < |s|
    ensures IsColumn(s[i], Starts(s, |s|), ColumnOfEdge(s, i))
    ensures Assigned(s[i], Starts(s, |s|), 0) == ColumnOfEdge(s, i)
  {
    StartsSplit(s, i, |s|);
    StartsAreApart(s, |s|);
    var b, c := Starts(s, |s|), ColumnOfEdge(s, i);
    forall k | 0 <= k <= c
      ensures s[i] >= b[k] - SLACK
    {
      if k < c { assert b[c] - b[k] > GAP; }
    }
    AssignedIs(s[i], b, 0, c);
  }

  // ---- columns are connected components ---------------------------------------

  /** A chain of edges, each within the threshold of the next. */
  ghost predicate Chain(xs: seq<real>, path: seq<real>) {
    && path != []
    && (forall i :: 0 <= i < |path| ==> path[i] in xs)
    && (forall i :: 0 < i < |path| ==> -GAP <= path[i] - path[i - 1] <= GAP)
  }

  ghost predicate Connected(xs: seq<real>, x: real, y: real) {
    exists path :: Chain(xs, path) && path[0] == x && path[|path| - 1] == y
  }

  lemma {:induction false} FarApart(s: seq<real>, i: nat, j: nat)
    requires Ascending(s) && i < |s| && j < |s| && ColumnOfEdge(s, i) < ColumnOfEdge(s, j)
    ensures s[j] - s[i] > GAP
  {
    StartsSplit(s, i, |s|);
    StartsSplit(s, j, |s|);
  }

  lemma {:induction false} ChainStaysInColumn(s: seq<real>, path: seq<real>)
    requires Ascending(s) && Chain(s, path)
    ensures Assigned(path[0], Starts(s, |s|), 0) == Assigned(path[|path| - 1], Starts(s, |s|), 0)
  {
    if |path| > 1 {
      var n := |path| - 1;
      ChainStaysInColumn(s, path[..n]);
      var i :| 0 <= i < |s| && s[i] == path[n - 1];
      var j :| 0 <= j < |s| && s[j] == path[n];
      EdgesKeepTheirColumn(s, i);
      EdgesKeepTheirColumn(s, j);
      if ColumnOfEdge(s, i) < ColumnOfEdge(s, j) {
        FarApart(s, i, j);
      } else if ColumnOfEdge(s, j) < ColumnOfEdge(s, i) {
        FarApart(s, j, i);
      }
    }
  }

  lemma {:induction false} SameColumnIsNear(s: seq<real>, i: nat, j: nat, k: nat)
    requires Ascending(s) && i < k <= j < |s| && ColumnOfEdge(s, i) == ColumnOfEdge(s, j)
    ensures 0.0 <= s[k] - s[k - 1] <= GAP
  {
    NoNewStart(s, i, k - 1);
    NoNewStart(s, k - 1, k);
    NoNewStart(s, k, j);
    SomeStart(s, k);
    assert |Starts(s, k + 1)| == |Starts(s, k)|;
  }

  lemma {:induction false} SomeStart(s: seq<real>, n: nat)
    requires 0 < n <= |s|
    ensures Starts(s, n) != []
  {
    if n > 1 { SomeStart(s, n - 1); }
  }

  lemma {:induction false} SameColumnChain(s: seq<real>, i: nat, j: nat)
    requires Ascending(s) && i <= j < |s| && ColumnOfEdge(s, i) == ColumnOfEdge(s, j)
    ensures Chain(s, s[i..j + 1])
  {
    var path := s[i..j + 1];
    forall k | 0 <= k < |path|
      ensures path[k] in s
    {
      assert path[k] == s[i + k];
    }
    forall k | 0 < k < |path|
      ensures -GAP <= path[k] - path[k - 1] <= GAP
    {
      SameColumnIsNear(s, i, j, i + k);
      assert path[k] == s[i + k] && path[k - 1] == s[i + k - 1];
    }
  }

  lemma {:induction false} NoNewStart(s: seq<real>, i: nat, j: nat)
    requires i <= j < |s|
    ensures ColumnOfEdge(s, i) <= ColumnOfEdge(s, j)
    decreases j - i
  {
    if i < j {
      NoNewStart(s, i, j - 1);
    }
  }

  lemma {:induction false} Backwards(xs: seq<real>, x: real, y: real)
    requires Connected(xs, x, y)
    ensures Connected(xs, y, x)
  {
    var path :| Chain(xs, path) && path[0] == x && path[|path| - 1] == y;
    var n := |path|;
    var back := seq(n, i requires 0 <= i < n => path[n - 1 - i]);
    forall i | 0 < i < n
      ensures -GAP <= back[i] - back[i - 1] <= GAP
    {
      var k := n - i;
      assert -GAP <= path[k] - path[k - 1] <= GAP;
    }
    assert Chain(xs, back);
  }

  lemma {:induction false} OneColumnIsConnected(s: seq<real>, i: nat, j: nat)
    requires Ascending(s) && i < |s| && j < |s| && ColumnOfEdge(s, i) == ColumnOfEdge(s, j)
    ensures Connected(s, s[i], s[j])
  {
    if i <= j {
      SameColumnChain(s, i, j);
      assert s[i..j + 1][0] == s[i] && s[i..j + 1][j - i] == s[j];
    } else {
      OneColumnIsConnected(s, j, i);
      Backwards(s, s[j], s[i]);
    }
  }

  lemma {:induction false} ConnectedIsOneColumn(s: seq<real>, x: real, y: real)
    requires Ascending(s) && Connected(s, x, y)
    ensures Assigned(x, Starts(s, |s|), 0) == Assigned(y, Starts(s, |s|), 0)
  {
    var path :| Chain(s, path) && path[0] == x && path[|path| - 1] == y;
    ChainStaysInColumn(s, path);
  }

  lemma {:induction false} ConnectedAmong(xs: seq<real>, ys: seq<real>, x: real, y: real)
    requires Connected(xs, x, y) && forall e :: e in xs ==> e in ys
    ensures Connected(ys, x, y)
  {
    var path :| Chain(xs, path) && path[0] == x && path[|path| - 1] == y;
    forall i | 0 <= i < |path|
      ensures path[i] in ys
    {
      var e := path[i];
      assert e in xs;
    }
    assert Chain(ys, path);
  }

  /** Two words are assigned one column exactly when a chain of left edges within the threshold
      connects theirs: the columns are the connected components. */
  lemma {:induction false} ColumnsAreComponents(rows: seq<Row>, x: real, y: real)
    requires x in Edges(rows) && y in Edges(rows)
    ensures var b := Boundaries(rows);
            Assigned(x, b, 0) == Assigned(y, b, 0) <==> Connected(Edges(rows), x, y)
  {
    var s := SortedEdges(rows);
    EdgesAreSorted(rows);
    if Connected(Edges(rows), x, y) { ConnectedAmong(Edges(rows), s, x, y); }
    var i :| 0 <= i < |s| && s[i] == x;
    var j :| 0 <= j < |s| && s[j] == y;
    EdgesKeepTheirColumn(s, i);
    EdgesKeepTheirColumn(s, j);
    if Connected(s, x, y) { ConnectedIsOneColumn(s, x, y); }
    if ColumnOfEdge(s, i) == ColumnOfEdge(s, j) {
      OneColumnIsConnected(s, i, j);
      ConnectedAmong(s, Edges(rows), x, y);
    }
  }

  lemma {:induction false} ApartAreColumns(b: seq<real>, j: nat)
    requires j < |b| && forall i, k :: 0 <= i < k < |b| ==> b[k] - b[i] > GAP
    ensures IsColumn(b[j], b, j)
  {
    if j + 1 < |b| { assert b[j + 1] - b[j] > GAP; }
    assert forall k :: 0 <= k < j ==> b[j] - b[k] > GAP;
  }

  lemma {:induction false} EveryEdgeHasItsColumn(rows: seq<Row>, x: real)
    requires x in Edges(rows)
    ensures IsColumn(x, Boundaries(rows), Assigned(x, Boundaries(rows), 0))
  {
    var s := SortedEdges(rows);
    EdgesAreSorted(rows);
    var i :| 0 <= i < |s| && s[i] == x;
    EdgesKeepTheirColumn(s, i);
  }

  /** Boundaries are left edges, more than the threshold apart, in increasing order, each its own
      column's; and every left edge has its column among them. */
  lemma {:induction false} BoundariesAreApart(rows: seq<Row>)
    ensures var b := Boundaries(rows);
            && (forall j, k :: 0 <= j < k < |b| ==> b[k] - b[j] > GAP)
            && (forall j :: 0 <= j < |b| ==> b[j] in Edges(rows) && IsColumn(b[j], b, j))
            && (forall x <- Edges(rows) :: IsColumn(x, b, Assigned(x, b, 0)))
  {
    EdgesAreSorted(rows);
    var b := Boundaries(rows);
    forall x <- Edges(rows)
      ensures IsColumn(x, b, Assigned(x, b, 0))
    {
      EveryEdgeHasItsColumn(rows, x);
    }
    StartsAreApart(SortedEdges(rows), |SortedEdges(rows)|);
    forall j | 0 <= j < |b|
      ensures IsColumn(b[j], b, j)
    {
      ApartAreColumns(b, j);
    }
  }

  // ---- the grid ---------------------------------------------------------------

  /** The words of one column among the first `n` of a row, in the row's order. */
  function InColumn(words: Row, n: nat, boundaries: seq<real>, col: nat): Row
    requires n <= |words|
  {
    if n == 0 then []
    else InColumn(words, n - 1, boundaries, col)
         + if Assigned(words[n - 1].x, boundaries, 0) == col then [words[n - 1]] else []
  }

  type Cells = map<nat, Row>

  function Cell(cells: Cells, col: nat): Row {
    if col in cells then cells[col] else []
  }

  ghost predicate CellsOf(cells: Cells, words: Row, n: nat, boundaries: seq<real>)
    requires n <= |words|
  {
    forall col :: Cell(cells, col) == InColumn(words, n, boundaries, col)
  }

  method CellsOfRow(words: Row, boundaries: seq<real>) returns (cells: Cells)
    ensures CellsOf(cells, words, |words|, boundaries)
    ensures forall col <- cells :: cells[col] != [] && (boundaries != [] ==> col < |boundaries|)
  {
    cells := map[];
    var i := 0;
    while i < |words|
      invariant 0 <= i <= |words|
      invariant CellsOf(cells, words, i, boundaries)
      invariant forall col <- cells :: cells[col] != [] && (boundaries != [] ==> col < |boundaries|)
    {
      var w := words[i];
      var col := AssignColumn(w.x, boundaries);
      ghost var before := cells;
      cells := cells[col := (if col in cells then cells[col] else []) + [w]];
      i := i + 1;
      forall c
        ensures Cell(cells, c) == InColumn(words, i, boundaries, c)
      {
        assert Cell(before, c) == InColumn(words, i - 1, boundaries, c);
        assert Cell(cells, c) == Cell(before, c) + if c == col then [w] else [];
      }
    }
  }

  function Top(words: Row): real
    requires words != []
  {
    Least(Seqs.Map((w: Word) => w.y, words))
  }

  predicate Above(a: Row, b: Row) {
    if a == [] then true else if b == [] then false else Top(a) <= Top(b)
  }

  /** The rows of a page's table, top to bottom, or none when there are fewer than two columns. */
  method BuildGrid(candidates: seq<Row>) returns (sorted: seq<Row>, grid: seq<Cells>, boundaries: seq<real>)
    ensures boundaries == Boundaries(candidates)
    ensures |boundaries| < 2 ==> grid == []
    ensures |boundaries| >= 2 ==>
        && sorted == Sorting.Sort(candidates, Above) && multiset(sorted) == multiset(candidates) && |grid| == |sorted|
        && forall i :: 0 <= i < |grid| ==> CellsOf(grid[i], sorted[i], |sorted[i]|, boundaries)
  {
    boundaries := ClusterColumns(candidates);
    grid, sorted := [], candidates;
    if |boundaries| < 2 { return; }
    Sorting.SortSorts(candidates, Above);
    sorted := Sorting.Sort(candidates, Above);
    grid := GridOf(sorted, boundaries);
  }

  method GridOf(rows: seq<Row>, boundaries: seq<real>) returns (grid: seq<Cells>)
    ensures |grid| == |rows| && forall i :: 0 <= i < |grid| ==> CellsOf(grid[i], rows[i], |rows[i]|, boundaries)
  {
    grid := [];
    var i := 0;
    while i < |rows|
      invariant 0 <= i <= |rows| && |grid| == i
      invariant forall k :: 0 <= k < i ==> CellsOf(grid[k], rows[k], |rows[k]|, boundaries)
    {
      var cells := CellsOfRow(rows[i], boundaries);
      grid := grid + [cells];
      i := i + 1;
    }
  }

  function InCell(cells: Cells, col: nat, e: Word): nat {
    multiset(Cell(cells, col))[e]
  }

  /** How often a word stands in the first `k` columns of a row of the grid. */
  function Held(cells: Cells, k: nat, e: Word): nat {
    if k == 0 then 0 else Held(cells, k - 1, e) + InCell(cells, k - 1, e)
  }

  /** How often it stands in one column of the first `n` words of the row. */
  function CountIn(words: Row, n: nat, boundaries: seq<real>, col: nat, e: Word): nat
    requires n <= |words|
  {
    if n == 0 then 0
    else CountIn(words, n - 1, boundaries, col, e)
         + if Assigned(words[n - 1].x, boundaries, 0) == col && words[n - 1] == e then 1 else 0
  }

  function CountUpTo(words: Row, n: nat, boundaries: seq<real>, k: nat, e: Word): nat
    requires n <= |words|
  {
    if k == 0 then 0 else CountUpTo(words, n, boundaries, k - 1, e) + CountIn(words, n, boundaries, k - 1, e)
  }

  lemma {:induction false} CountInIsMultiplicity(words: Row, n: nat, boundaries: seq<real>, col: nat, e: Word)
    requires n <= |words|
    ensures CountIn(words, n, boundaries, col, e) == multiset(InColumn(words, n, boundaries, col))[e]
  {
    if n > 0 { CountInIsMultiplicity(words, n - 1, boundaries, col, e); }
  }

  lemma {:induction false} AssignedBelow(x: real, boundaries: seq<real>, i: nat)
    requires i <= |boundaries| && boundaries != []
    ensures Assigned(x, boundaries, i) < |boundaries|
    decreases |boundaries| - i
  {
    if i < |boundaries| { AssignedBelow(x, boundaries, i + 1); }
  }

  lemma {:induction false} OneMoreWord(words: Row, n: nat, boundaries: seq<real>, k: nat, e: Word)
    requires n < |words|
    ensures CountUpTo(words, n + 1, boundaries, k, e)
         == CountUpTo(words, n, boundaries, k, e)
            + if Assigned(words[n].x, boundaries, 0) < k && words[n] == e then 1 else 0
  {
    if k > 0 { OneMoreWord(words, n, boundaries, k - 1, e); }
  }

  lemma {:induction false} NoWords(words: Row, boundaries: seq<real>, k: nat, e: Word)
    ensures CountUpTo(words, 0, boundaries, k, e) == 0
  {
    if k > 0 { NoWords(words, boundaries, k - 1, e); }
  }

  lemma {:induction false} ColumnsHoldEachWord(words: Row, n: nat, boundaries: seq<real>, e: Word)
    requires boundaries != [] && n <= |words|
    ensures CountUpTo(words, n, boundaries, |boundaries|, e) == Seqs.Count(words, n, e)
  {
    if n == 0 {
      NoWords(words, boundaries, |boundaries|, e);
    } else {
      ColumnsHoldEachWord(words, n - 1, boundaries, e);
      OneMoreWord(words, n - 1, boundaries, |boundaries|, e);
      AssignedBelow(words[n - 1].x, boundaries, 0);
    }
  }

  lemma {:induction false} CellIsColumn(cells: Cells, words: Row, boundaries: seq<real>, col: nat, e: Word)
    requires CellsOf(cells, words, |words|, boundaries)
    ensures InCell(cells, col, e) == CountIn(words, |words|, boundaries, col, e)
  {
    CountInIsMultiplicity(words, |words|, boundaries, col, e);
    assert Cell(cells, col) == InColumn(words, |words|, boundaries, col);
  }

  lemma {:induction false} CellsAreColumns(cells: Cells, words: Row, boundaries: seq<real>, k: nat, e: Word)
    requires forall col :: InCell(cells, col, e) == CountIn(words, |words|, boundaries, col, e)
    ensures Held(cells, k, e) == CountUpTo(words, |words|, boundaries, k, e)
  {
    if k > 0 { CellsAreColumns(cells, words, boundaries, k - 1, e); }
  }

  /** A row of the grid holds every word of its row, each as often as the row does. */
  lemma {:induction false} GridHoldsEachWordOnce(cells: Cells, words: Row, boundaries: seq<real>, e: Word)
    requires CellsOf(cells, words, |words|, boundaries) && boundaries != []
    ensures Held(cells, |boundaries|, e) == multiset(words)[e]
  {
    forall col
      ensures InCell(cells, col, e) == CountIn(words, |words|, boundaries, col, e)
    {
      CellIsColumn(cells, words, boundaries, col, e);
    }
    CellsAreColumns(cells, words, boundaries, |boundaries|, e);
    ColumnsHoldEachWord(words, |words|, boundaries, e);
    Seqs.CountIsMultiplicity(words, |words|, e);
    assert words[..|words|] == words;
  }
}
