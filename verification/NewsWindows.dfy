/** Stored news around each trade.  The 24-hour windows before every entry and exit are merged so
    that one short query fetches candidates; an index by symbol then serves every row.  Trades are
    anchored in milliseconds, articles are dated in microseconds and compared by millisecond. */
module NewsWindows {

  import opened Wrappers

  const DAY := 86_400_000

  /** Times in milliseconds, 0 when missing. */
  datatype Row = Row(symbol: string, openedAt: int, closedAt: int, time: int)

  datatype Stage = ENTRY | EXIT

  datatype Article = Article(id: string, published: Option<int>, symbols: set<string>)

  datatype RowNews = RowNews(entry: seq<Article>, exit: seq<Article>, news: seq<Article>)

  /** Both ends belong to a window; in microseconds. */
  datatype Window = Window(start: int, end: int)

  function Anchor(row: Row, stage: Stage): int {
    if stage == ENTRY then row.openedAt else if row.closedAt != 0 then row.closedAt else row.time
  }

  /** Microseconds to milliseconds, truncated toward zero. */
  function Stamp(micros: int): int {
    if micros >= 0 then micros / 1000 else -(-micros / 1000)
  }

  function Around(anchor: int): Window {
    Window((anchor - DAY) * 1000, anchor * 1000)
  }

  predicate Inside(w: Window, micros: int) {
    w.start <= micros <= w.end
  }

  predicate Covered(windows: seq<Window>, micros: int) {
    exists i :: 0 <= i < |windows| && Inside(windows[i], micros)
  }

  // ------------------------------------------------------------ the windows

  predicate Ascending(s: seq<int>) {
    forall i, j :: 0 <= i < j < |s| ==> s[i] < s[j]
  }

  lemma AppendAscends(s: seq<int>, last: int)
    requires Ascending(s) && forall y :: y in s ==> y < last
    ensures Ascending(s + [last])
  {
    assert forall k :: 0 <= k < |s| ==> s[k] in s;
  }

  /** Keeps distinct anchors in order. */
  function Insert(s: seq<int>, x: int): (t: seq<int>)
    requires Ascending(s)
    ensures Ascending(t) && forall y :: y in t <==> y == x || y in s
  {
    if s == [] then [x]
    else if s[|s| - 1] < x then s + [x]
    else if s[|s| - 1] == x then s
    else
      var init, last := s[..|s| - 1], s[|s| - 1];
      var t := Insert(init, x);
      assert s == init + [last];
      assert forall y :: y in init ==> y < last;
      AppendAscends(t, last);
      t + [last]
  }

  predicate IsAnchor(rows: seq<Row>, x: int) {
    x != 0 && exists i :: 0 <= i < |rows| && (Anchor(rows[i], ENTRY) == x || Anchor(rows[i], EXIT) == x)
  }

  /** The distinct anchors in order. */
  method SortedAnchors(rows: seq<Row>) returns (anchors: seq<int>)
    ensures Ascending(anchors) && forall x :: x in anchors <==> IsAnchor(rows, x)
  {
    anchors := [];
    for i := 0 to |rows|
      invariant Ascending(anchors) && forall x :: x in anchors <==> IsAnchor(rows[..i], x)
    {
      var entry, exit := Anchor(rows[i], ENTRY), Anchor(rows[i], EXIT);
      ghost var before := anchors;
      if entry != 0 { anchors := Insert(anchors, entry); }
      if exit != 0 { anchors := Insert(anchors, exit); }
      AnchorsGrow(rows, i);
    }
    assert rows[..|rows|] == rows;
  }

  lemma AnchorsGrow(rows: seq<Row>, i: nat)
    requires i < |rows|
    ensures forall x :: IsAnchor(rows[..i + 1], x) <==>
      IsAnchor(rows[..i], x) || (x != 0 && (x == Anchor(rows[i], ENTRY) || x == Anchor(rows[i], EXIT)))
  {
    var more, less := rows[..i + 1], rows[..i];
    assert more == less + [rows[i]];
    assert forall k :: 0 <= k < i ==> less[k] == more[k];
    forall x | IsAnchor(more, x) && !IsAnchor(less, x) ensures x == Anchor(rows[i], ENTRY)
      || x == Anchor(rows[i], EXIT) {
      var k :| 0 <= k <= i && (Anchor(more[k], ENTRY) == x || Anchor(more[k], EXIT) == x);
    }
    forall x | IsAnchor(less, x) ensures IsAnchor(more, x) {
      var k :| 0 <= k < i && (Anchor(less[k], ENTRY) == x || Anchor(less[k], EXIT) == x);
    }
    assert more[i] == rows[i];
  }

  function Merge(windows: seq<Window>, anchor: int): seq<Window> {
    var n, w := |windows|, Around(anchor);
    if n > 0 && w.start <= windows[n - 1].end then windows[n - 1 := Window(windows[n - 1].start, w.end)]
    else windows + [w]
  }

  function Merged(anchors: seq<int>): seq<Window> {
    if anchors == [] then [] else Merge(Merged(anchors[..|anchors| - 1]), anchors[|anchors| - 1])
  }

  /** The last window is extended in place while the next one overlaps it. */
  method MergeWindows(anchors: seq<int>) returns (windows: seq<Window>)
    ensures windows == Merged(anchors)
  {
    windows := [];
    for i := 0 to |anchors|
      invariant windows == Merged(anchors[..i])
    {
      var start, end := (anchors[i] - DAY) * 1000, anchors[i] * 1000;
      var last := |windows| - 1;
      if windows != [] && start <= windows[last].end {
        windows := windows[last := Window(windows[last].start, end)];
      } else {
        windows := windows + [Window(start, end)];
      }
      assert anchors[..i + 1][..i] == anchors[..i];
    }
    assert anchors[..|anchors|] == anchors;
  }

  predicate Separated(windows: seq<Window>) {
    && (forall i :: 0 <= i < |windows| ==> windows[i].start <= windows[i].end)
    && (forall i, j :: 0 <= i < j < |windows| ==> windows[i].end < windows[j].start)
  }

  ghost predicate Near(anchors: seq<int>, micros: int) {
    exists i :: 0 <= i < |anchors| && Inside(Around(anchors[i]), micros)
  }

  lemma NearGrows(anchors: seq<int>, micros: int)
    requires anchors != []
    ensures Near(anchors, micros)
       <==> Near(anchors[..|anchors| - 1], micros) || Inside(Around(anchors[|anchors| - 1]), micros)
  {
    var n := |anchors| - 1;
    hide Inside, Around;
    if i :| 0 <= i <= n && Inside(Around(anchors[i]), micros) {
      if i < n { assert anchors[..n][i] == anchors[i]; }
    }
    if j :| 0 <= j < n && Inside(Around(anchors[..n][j]), micros) {
      assert anchors[j] == anchors[..n][j];
    }
  }

  /** One merge adds exactly the anchor's own window. */
  lemma MergeCovers(windows: seq<Window>, anchor: int, micros: int)
    requires Separated(windows) && windows != []
    requires windows[|windows| - 1].end < anchor * 1000 && windows[|windows| - 1].start < (anchor - DAY) * 1000
    ensures Covered(Merge(windows, anchor), micros) <==> Covered(windows, micros) || Inside(Around(anchor), micros)
  {
    var n, t := |windows|, Merge(windows, anchor);
    assert forall k :: 0 <= k < n - 1 ==> t[k] == windows[k];
    if i :| 0 <= i < |t| && Inside(t[i], micros) {
      if i < n - 1 { assert Inside(windows[i], micros); }
      else if i == n - 1 && micros <= windows[i].end { assert Inside(windows[i], micros); }
    }
    if i :| 0 <= i < n && Inside(windows[i], micros) { assert Inside(t[i], micros); }
    if Inside(Around(anchor), micros) { assert Inside(t[|t| - 1], micros); }
  }

  lemma MergeSeparates(windows: seq<Window>, anchor: int)
    requires Separated(windows)
    requires windows != [] ==> windows[|windows| - 1].end < anchor * 1000
    requires windows != [] ==> windows[|windows| - 1].start <= (anchor - DAY) * 1000
    ensures var t := Merge(windows, anchor);
            && Separated(t) && t != [] && t[|t| - 1].end == anchor * 1000 && t[|t| - 1].start <= (anchor - DAY) * 1000
  {
  }

  /** Merged windows are disjoint and in order, the last ends at the last anchor. */
  lemma {:induction false} MergedAreSeparated(anchors: seq<int>)
    requires Ascending(anchors)
    ensures Separated(Merged(anchors))
    ensures anchors == [] ==> Merged(anchors) == []
    ensures anchors != [] ==> Merged(anchors) != []
    ensures anchors != [] ==> Merged(anchors)[|Merged(anchors)| - 1].end == anchors[|anchors| - 1] * 1000
    ensures anchors != [] ==> Merged(anchors)[|Merged(anchors)| - 1].start <= (anchors[|anchors| - 1] - DAY) * 1000
  {
    if anchors == [] {
    } else {
      var n := |anchors| - 1;
      MergedAreSeparated(anchors[..n]);
      if n > 0 { assert anchors[..n][n - 1] < anchors[n]; }
      MergeSeparates(Merged(anchors[..n]), anchors[n]);
      hide Separated, Merge;
    }
  }

  /** Merging loses and adds nothing: the windows cover exactly the 24 hours before each anchor. */
  lemma {:induction false} MergedCoverExactly(anchors: seq<int>, micros: int)
    requires Ascending(anchors)
    ensures Covered(Merged(anchors), micros) <==> Near(anchors, micros)
  {
    if anchors == [] {
    } else {
      var n := |anchors| - 1;
      var before := Merged(anchors[..n]);
      MergedCoverExactly(anchors[..n], micros);
      MergedAreSeparated(anchors[..n]);
      NearGrows(anchors, micros);
      if n > 0 {
        assert anchors[..n][n - 1] < anchors[n];
        MergeCovers(before, anchors[n], micros);
      } else {
        assert Merged(anchors) == [Around(anchors[0])];
        assert Covered([Around(anchors[0])], micros) <==> Inside(Around(anchors[0]), micros) by {
          assert [Around(anchors[0])][0] == Around(anchors[0]);
        }
      }
    }
  }

  // ------------------------------------------------------------ the articles

  function Filter(articles: seq<Article>, keep: Article -> bool): (r: seq<Article>)
    ensures forall a :: a in r <==> a in articles && keep(a)
  {
    if articles == [] then []
    else
      var before, last := Filter(articles[..|articles| - 1], keep), articles[|articles| - 1];
      assert articles == articles[..|articles| - 1] + [last];
      if keep(last) then before + [last] else before
  }

  lemma {:induction false} FilterTwice(articles: seq<Article>, p: Article -> bool, q: Article -> bool,
                                       both: Article -> bool)
    requires forall a :: a in articles ==> both(a) == (p(a) && q(a))
    ensures Filter(Filter(articles, p), q) == Filter(articles, both)
  {
    if articles == [] {
    } else {
      var n := |articles| - 1;
      var last := articles[n];
      FilterTwice(articles[..n], p, q, both);
      var f := Filter(articles[..n], p);
      assert both(last) == (p(last) && q(last));
      if p(last) { assert (f + [last])[..|f|] == f; }
    }
  }

  function FirstThree(articles: seq<Article>): (r: seq<Article>)
    ensures forall a :: a in r ==> a in articles
  {
    if |articles| <= 3 then articles else articles[..3]
  }

  predicate About(a: Article, symbol: string) {
    symbol != "" && symbol in a.symbols
  }

  /** An article belongs to a stage of a row when it is dated in the 24 hours before its anchor. */
  predicate Eligible(a: Article, anchor: int) {
    a.published.Some? && anchor != 0 && 0 <= anchor - Stamp(a.published.value) <= DAY
  }

  ghost predicate NearAnchor(rows: seq<Row>, micros: int) {
    exists x :: IsAnchor(rows, x) && Inside(Around(x), micros)
  }

  /** The query fetches it: it is dated inside the 24 hours before some anchor of the rows. */
  ghost predicate Fetched(a: Article, rows: seq<Row>) {
    a.published.Some? && NearAnchor(rows, a.published.value)
  }

  function Abouts(symbol: string): Article -> bool {
    a => About(a, symbol)
  }

  function Eligibles(anchor: int): Article -> bool {
    a => Eligible(a, anchor)
  }

  function Wanted(symbol: string, anchor: int): Article -> bool {
    a => About(a, symbol) && Eligible(a, anchor)
  }

  ghost function Reached(rows: seq<Row>, symbol: string, anchor: int): Article -> bool {
    a => Fetched(a, rows) && About(a, symbol) && Eligible(a, anchor)
  }

  /** What scanning every stored article gives. */
  function Scan(stored: seq<Article>, row: Row, stage: Stage): (r: seq<Article>)
    ensures forall a :: a in r ==> a in stored && About(a, row.symbol) && Eligible(a, Anchor(row, stage))
  {
    FirstThree(Filter(stored, Wanted(row.symbol, Anchor(row, stage))))
  }

  /** What the query and the index give. */
  ghost function Served(stored: seq<Article>, rows: seq<Row>, row: Row, stage: Stage): seq<Article> {
    FirstThree(Filter(stored, Reached(rows, row.symbol, Anchor(row, stage))))
  }

  type Index = map<string, seq<Article>>

  function Lookup(bySymbol: Index, symbol: string): seq<Article> {
    if symbol in bySymbol then bySymbol[symbol] else []
  }

  /** An article is appended once to the list of each symbol it names. */
  method AddToIndex(bySymbol: Index, article: Article) returns (next: Index)
    ensures forall s :: Lookup(next, s) == Lookup(bySymbol, s) + if About(article, s) then [article] else []
  {
    next := bySymbol;
    var symbols := article.symbols - {""};
    var rest := symbols;
    while rest != {}
      invariant rest <= symbols
      invariant forall s :: s in symbols - rest ==> Lookup(next, s) == Lookup(bySymbol, s) + [article]
      invariant forall s :: s !in symbols - rest ==> Lookup(next, s) == Lookup(bySymbol, s)
      decreases |rest|
    {
      var symbol :| symbol in rest;
      next := next[symbol := Lookup(next, symbol) + [article]];
      rest := rest - {symbol};
    }
  }

  lemma FilterStep(articles: seq<Article>, i: nat, p: Article -> bool)
    requires i < |articles|
    ensures Filter(articles[..i + 1], p) == Filter(articles[..i], p) + if p(articles[i]) then [articles[i]] else []
  {
    assert articles[..i + 1][..i] == articles[..i];
  }

  method BuildIndex(articles: seq<Article>) returns (bySymbol: Index)
    ensures forall s :: Lookup(bySymbol, s) == Filter(articles, Abouts(s))
  {
    hide Lookup, About;
    bySymbol := map[];
    assert forall s :: Lookup(bySymbol, s) == [] by { EmptyIndex(); }
    for i := 0 to |articles|
      invariant forall s :: Lookup(bySymbol, s) == Filter(articles[..i], Abouts(s))
    {
      var next := AddToIndex(bySymbol, articles[i]);
      forall s ensures Lookup(next, s) == Filter(articles[..i + 1], Abouts(s)) {
        FilterStep(articles, i, Abouts(s));
      }
      bySymbol := next;
    }
    assert articles[..|articles|] == articles;
  }

  lemma EmptyIndex()
    ensures forall s :: Lookup(map[], s) == []
  {
  }

  function Combine(articles: seq<Article>): (r: seq<Article>)
    ensures forall a :: a in r <==> a in articles
    ensures forall i, j :: 0 <= i < j < |r| ==> r[i] != r[j]
  {
    if articles == [] then []
    else
      var before, last := Combine(articles[..|articles| - 1]), articles[|articles| - 1];
      assert articles == articles[..|articles| - 1] + [last];
      if last in before then before else before + [last]
  }

  ghost predicate ServesRow(r: RowNews, stored: seq<Article>, rows: seq<Row>, row: Row) {
    && r.entry == Served(stored, rows, row, ENTRY)
    && r.exit == Served(stored, rows, row, EXIT)
    && r.news == Combine(r.entry + r.exit)
  }

  method ServeRow(bySymbol: Index, row: Row) returns (r: RowNews)
    ensures r.entry == FirstThree(Filter(Lookup(bySymbol, row.symbol), Eligibles(Anchor(row, ENTRY))))
    ensures r.exit == FirstThree(Filter(Lookup(bySymbol, row.symbol), Eligibles(Anchor(row, EXIT))))
    ensures r.news == Combine(r.entry + r.exit)
  {
    hide Combine, Filter, FirstThree, Anchor;
    var candidates := Lookup(bySymbol, row.symbol);
    var entry := FirstThree(Filter(candidates, Eligibles(Anchor(row, ENTRY))));
    var exit := FirstThree(Filter(candidates, Eligibles(Anchor(row, EXIT))));
    r := RowNews(entry, exit, Combine(entry + exit));
  }

  /** The query fetches the articles inside the windows, in the stored order; rows are then served
      from the index. */
  method AttachTradeNews(rows: seq<Row>, stored: seq<Article>) returns (out: seq<RowNews>)
    ensures |out| == |rows| && forall i :: 0 <= i < |rows| ==> ServesRow(out[i], stored, rows, rows[i])
  {
    hide IsAnchor, Covered, Lookup, Served, Combine, Filter, FirstThree, Anchor, Merged, Ascending;
    var anchors := SortedAnchors(rows);
    var windows := MergeWindows(anchors);
    var fetch: Article -> bool := (a: Article) => a.published.Some? && Covered(windows, a.published.value);
    var articles := Filter(stored, fetch);
    var bySymbol := BuildIndex(articles);
    out := [];
    for i := 0 to |rows|
      invariant |out| == i && forall k :: 0 <= k < i ==> ServesRow(out[k], stored, rows, rows[k])
    {
      var row := rows[i];
      var r := ServeRow(bySymbol, row);
      ServedFromIndex(stored, rows, anchors, fetch, row, ENTRY);
      ServedFromIndex(stored, rows, anchors, fetch, row, EXIT);
      assert ServesRow(r, stored, rows, row);
      out := out + [r];
    }
  }

  lemma NearIsNearAnchor(rows: seq<Row>, anchors: seq<int>, micros: int)
    requires forall x :: x in anchors <==> IsAnchor(rows, x)
    ensures Near(anchors, micros) <==> NearAnchor(rows, micros)
  {
    hide IsAnchor, Inside, Around;
    if x :| IsAnchor(rows, x) && Inside(Around(x), micros) {
      assert x in anchors;
      var i :| 0 <= i < |anchors| && anchors[i] == x;
    }
    if i :| 0 <= i < |anchors| && Inside(Around(anchors[i]), micros) {
      assert IsAnchor(rows, anchors[i]);
    }
  }

  lemma ServedFromIndex(stored: seq<Article>, rows: seq<Row>, anchors: seq<int>, fetch: Article -> bool, row: Row,
                        stage: Stage)
    requires Ascending(anchors) && forall x :: x in anchors <==> IsAnchor(rows, x)
    requires forall a :: fetch(a) == (a.published.Some? && Covered(Merged(anchors), a.published.value))
    ensures FirstThree(Filter(Filter(Filter(stored, fetch), Abouts(row.symbol)), Eligibles(Anchor(row, stage))))
         == Served(stored, rows, row, stage)
  {
    hide Covered, About, Eligible, Anchor, IsAnchor, FirstThree;
    forall a | a in stored ensures fetch(a) == Fetched(a, rows) {
      if a.published.Some? {
        MergedCoverExactly(anchors, a.published.value);
        NearIsNearAnchor(rows, anchors, a.published.value);
      }
    }
    hide Fetched;
    var anchor := Anchor(row, stage);
    FilterTwice(Filter(stored, fetch), Abouts(row.symbol), Eligibles(anchor), Wanted(row.symbol, anchor));
    FilterTwice(stored, fetch, Wanted(row.symbol, anchor), Reached(rows, row.symbol, anchor));
  }

  // ------------------------------------------- when the query misses an article

  lemma {:induction false} FilterAll(articles: seq<Article>, p: Article -> bool)
    requires forall a :: a in articles ==> p(a)
    ensures Filter(articles, p) == articles
  {
    if articles != [] {
      FilterAll(articles[..|articles| - 1], p);
      assert articles == articles[..|articles| - 1] + [articles[|articles| - 1]];
    }
  }

  lemma {:induction false} FilterConcat(x: seq<Article>, y: seq<Article>, p: Article -> bool)
    ensures Filter(x + y, p) == Filter(x, p) + Filter(y, p)
  {
    if y == [] {
      assert x + y == x;
    } else {
      var n := |y| - 1;
      assert (x + y)[..|x + y| - 1] == x + y[..n];
      FilterConcat(x, y[..n], p);
    }
  }

  /** The first three survive a filter exactly when all of them pass it. */
  lemma FirstThreeSurvive(articles: seq<Article>, p: Article -> bool)
    ensures FirstThree(Filter(articles, p)) == FirstThree(articles) <==> forall a :: a in FirstThree(articles) ==> p(a)
  {
    var head := FirstThree(articles);
    var kept := Filter(articles, p);
    if forall a :: a in head ==> p(a) {
      assert articles == head + articles[|head|..];
      FilterConcat(head, articles[|head|..], p);
      FilterAll(head, p);
    } else {
      var a :| a in head && !p(a);
      assert a !in kept;
      assert forall x :: x in FirstThree(kept) ==> x in kept;
    }
  }

  /** A row is served what a scan of every article would give if and only if none of the articles
      the scan would give lies outside the windows. */
  lemma ServedIsScanIff(stored: seq<Article>, rows: seq<Row>, row: Row, stage: Stage)
    ensures Served(stored, rows, row, stage) == Scan(stored, row, stage)
       <==> forall a :: a in Scan(stored, row, stage) ==> Fetched(a, rows)
  {
    hide About, Eligible, Anchor, FirstThree, Fetched;
    var anchor := Anchor(row, stage);
    var all := Filter(stored, Wanted(row.symbol, anchor));
    ghost var fetched: Article -> bool := a => Fetched(a, rows);
    FilterTwice(stored, Wanted(row.symbol, anchor), fetched, Reached(rows, row.symbol, anchor));
    FirstThreeSurvive(all, fetched);
  }

  lemma RowsHaveAnchors(rows: seq<Row>, row: Row, stage: Stage)
    requires row in rows && Anchor(row, stage) != 0
    ensures IsAnchor(rows, Anchor(row, stage))
  {
    var i :| 0 <= i < |rows| && rows[i] == row;
  }

  /** Only an article dated inside the anchor's own millisecond, but after its start, can be
      missed: its truncated date equals the anchor while the exact one is later. */
  lemma OnlyTheAnchorsMillisecondIsMissed(stored: seq<Article>, rows: seq<Row>, row: Row, stage: Stage, a: Article)
    requires row in rows && a in Scan(stored, row, stage) && a.published.value >= 0
    ensures !Fetched(a, rows) ==>
      Anchor(row, stage) * 1000 < a.published.value < (Anchor(row, stage) + 1) * 1000
  {
    var anchor := Anchor(row, stage);
    assert Eligible(a, anchor);
    RowsHaveAnchors(rows, row, stage);
    assert Inside(Around(anchor), a.published.value) ==> NearAnchor(rows, a.published.value);
  }

  /** Articles dated in whole milliseconds are never missed. */
  lemma WholeMillisecondsAreServed(stored: seq<Article>, rows: seq<Row>, row: Row, stage: Stage)
    requires row in rows
    requires forall a :: a in stored && a.published.Some? ==> a.published.value % 1000 == 0
    ensures Served(stored, rows, row, stage) == Scan(stored, row, stage)
  {
    ServedIsScanIff(stored, rows, row, stage);
    forall a | a in Scan(stored, row, stage) ensures Fetched(a, rows) {
      assert Eligible(a, Anchor(row, stage));
      RowsHaveAnchors(rows, row, stage);
      assert Inside(Around(Anchor(row, stage)), a.published.value);
    }
  }

  /** One trade opened at 1 ms after an epoch second, one article half a millisecond later: a scan
      gives the article, the query does not fetch it. */
  lemma AnArticleCanBeMissed()
    ensures var row := Row("ABC", 1_700_000_000_001, 0, 0);
            var a := Article("7", Some(1_700_000_000_001_500), {"ABC"});
            Scan([a], row, ENTRY) == [a] && Served([a], [row], row, ENTRY) == []
  {
    var row := Row("ABC", 1_700_000_000_001, 0, 0);
    var a := Article("7", Some(1_700_000_000_001_500), {"ABC"});
    assert [a][..0] == [];
    assert !Fetched(a, [row]);
  }

  ghost predicate NewestFirst(articles: seq<Article>) {
    forall i, j :: 0 <= i < j < |articles| ==> NotOlder(articles[i], articles[j])
  }

  predicate NotOlder(a: Article, b: Article) {
    a.published.Some? && b.published.Some? ==> a.published.value >= b.published.value
  }

  lemma HeadMember(articles: seq<Article>, k: nat)
    requires k < |articles|
    ensures k < 3 ==> articles[k] in FirstThree(articles)
  {
    var head := FirstThree(articles);
    assert k < 3 ==> head[k] == articles[k];
  }

  /** When the stored articles come newest first, those served are the newest eligible ones. */
  lemma ScanGivesNewest(stored: seq<Article>, row: Row, stage: Stage, a: Article)
    requires NewestFirst(stored) && a in stored && a !in Scan(stored, row, stage)
    requires About(a, row.symbol) && Eligible(a, Anchor(row, stage))
    ensures |Scan(stored, row, stage)| == 3
    ensures forall b :: b in Scan(stored, row, stage) ==> NotOlder(b, a)
  {
    hide About, Eligible, Anchor, NotOlder;
    var wanted := Wanted(row.symbol, Anchor(row, stage));
    FilterKeepsOrder(stored, wanted);
    var all := Filter(stored, wanted);
    assert a in all;
    var k :| 0 <= k < |all| && all[k] == a;
    HeadMember(all, k);
    forall b | b in FirstThree(all) ensures NotOlder(b, a) {
      var i :| 0 <= i < 3 && FirstThree(all)[i] == b;
      assert all[i] == b;
    }
  }

  lemma {:induction false} FilterKeepsOrder(articles: seq<Article>, p: Article -> bool)
    requires NewestFirst(articles)
    ensures NewestFirst(Filter(articles, p))
  {
    hide NotOlder;
    if articles != [] {
      var n := |articles| - 1;
      FilterKeepsOrder(articles[..n], p);
      var before := Filter(articles[..n], p);
      forall a | a in before ensures NotOlder(a, articles[n]) {
        var i :| 0 <= i < n && articles[i] == a;
      }
    }
  }

  // ------------------------------------------ the exact condition, by dates

  /** Some anchor of the rows lies within a day after this one: its window covers the whole
      millisecond of the earlier anchor. */
  ghost predicate FollowedWithinDay(rows: seq<Row>, anchor: int) {
    exists x :: IsAnchor(rows, x) && anchor < x <= anchor + DAY
  }

  /** Dated inside the millisecond of the anchor, but after its start. */
  predicate InMillisecondOf(a: Article, anchor: int) {
    a.published.Some? && anchor * 1000 < a.published.value < (anchor + 1) * 1000
  }

  lemma FetchedIff(a: Article, rows: seq<Row>, anchor: int)
    requires IsAnchor(rows, anchor) && Eligible(a, anchor) && a.published.value >= 0
    ensures Fetched(a, rows) <==> !InMillisecondOf(a, anchor) || FollowedWithinDay(rows, anchor)
  {
    var micros := a.published.value;
    if !InMillisecondOf(a, anchor) {
      assert Inside(Around(anchor), micros);
    }
    if x :| IsAnchor(rows, x) && anchor < x <= anchor + DAY {
      if InMillisecondOf(a, anchor) { assert Inside(Around(x), micros); }
    }
    if x :| IsAnchor(rows, x) && Inside(Around(x), micros) {
      if InMillisecondOf(a, anchor) { LaterWindow(x, anchor, micros); }
    }
  }

  lemma LaterWindow(x: int, anchor: int, micros: int)
    requires Inside(Around(x), micros) && anchor * 1000 < micros < (anchor + 1) * 1000
    ensures anchor < x <= anchor + DAY
  {
  }

  /** Articles newest first and dated after the epoch: a row is served what a scan of every article
      gives if and only if another anchor follows within a day, or no article about its symbol is
      dated inside the anchor's own millisecond after its start. */
  lemma ServedIsScanByDates(stored: seq<Article>, rows: seq<Row>, row: Row, stage: Stage)
    requires NewestFirst(stored) && row in rows && Anchor(row, stage) != 0
    requires forall a :: a in stored && a.published.Some? ==> a.published.value >= 0
    ensures Served(stored, rows, row, stage) == Scan(stored, row, stage) <==>
      || FollowedWithinDay(rows, Anchor(row, stage))
      || forall a :: a in stored && About(a, row.symbol) ==> !InMillisecondOf(a, Anchor(row, stage))
  {
    var anchor := Anchor(row, stage);
    RowsHaveAnchors(rows, row, stage);
    ServedIsScanIff(stored, rows, row, stage);
    hide Served, IsAnchor, About, NewestFirst, FollowedWithinDay;
    forall a | a in Scan(stored, row, stage)
      ensures Fetched(a, rows) <==> !InMillisecondOf(a, anchor) || FollowedWithinDay(rows, anchor)
    {
      FetchedIff(a, rows, anchor);
    }
    if !FollowedWithinDay(rows, anchor) {
      forall a | a in stored && About(a, row.symbol) && InMillisecondOf(a, anchor)
        ensures exists b :: b in Scan(stored, row, stage) && InMillisecondOf(b, anchor)
      {
        NewestInMillisecond(stored, row, stage, a);
      }
    }
  }

  lemma NewestInMillisecond(stored: seq<Article>, row: Row, stage: Stage, a: Article)
    requires NewestFirst(stored) && a in stored && About(a, row.symbol) && Anchor(row, stage) != 0
    requires InMillisecondOf(a, Anchor(row, stage)) && a.published.value >= 0
    ensures exists b :: b in Scan(stored, row, stage) && InMillisecondOf(b, Anchor(row, stage))
  {
    var scan, anchor := Scan(stored, row, stage), Anchor(row, stage);
    assert Eligible(a, anchor);
    if a !in scan {
      ScanGivesNewest(stored, row, stage, a);
      assert scan[0] in scan && NotOlder(scan[0], a) && Eligible(scan[0], anchor);
      assert InMillisecondOf(scan[0], anchor);
    }
  }
}
