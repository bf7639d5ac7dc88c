/** Which articles a row shows, in the dates and symbols of articles and rows. */
module NewsRows {

  import opened Wrappers
  import opened NewsWindows

  /** The row's time of the stage, 0 when it has none. */
  ghost function TimeOf(row: Row, stage: Stage): int {
    if stage == ENTRY then row.openedAt else if row.closedAt == 0 then row.time else row.closedAt
  }

  /** The millisecond of a date, in microseconds, cut off toward zero. */
  ghost predicate InMillisecond(ms: int, micros: int) {
    if micros >= 0 then 1000 * ms <= micros < 1000 * (ms + 1) else 1000 * (ms - 1) < micros <= 1000 * ms
  }

  /** The article names the symbol and its millisecond is in the 24 hours up to the time. */
  ghost predicate Fits(a: Article, row: Row, stage: Stage) {
    && a.published.Some? && row.symbol != "" && row.symbol in a.symbols && TimeOf(row, stage) != 0
    && exists ms: int :: InMillisecond(ms, a.published.value)
         && 0 <= TimeOf(row, stage) - ms <= 24 * 60 * 60 * 1000
  }

  /** The query reaches it: its date is in the 24 hours up to a time of some row. */
  ghost predicate InQuery(a: Article, rows: seq<Row>) {
    a.published.Some? && exists row, stage :: Anchors(rows, row, stage, a.published.value)
  }

  ghost predicate Anchors(rows: seq<Row>, row: Row, stage: Stage, micros: int) {
    && row in rows && TimeOf(row, stage) != 0
    && 1000 * (TimeOf(row, stage) - 24 * 60 * 60 * 1000) <= micros <= 1000 * TimeOf(row, stage)
  }

  /** `r` are the articles at the listed places, in the stored order. */
  ghost predicate At(r: seq<Article>, stored: seq<Article>, places: seq<nat>) {
    && |r| == |places|
    && (forall k :: 0 <= k < |places| ==> places[k] < |stored| && r[k] == stored[places[k]])
    && (forall j, k :: 0 <= j < k < |places| ==> places[j] < places[k])
  }

  lemma StampIs(micros: int)
    ensures InMillisecond(Stamp(micros), micros)
    ensures forall ms :: InMillisecond(ms, micros) ==> ms == Stamp(micros)
  {
  }

  lemma FitsIff(a: Article, row: Row, stage: Stage)
    ensures About(a, row.symbol) && Eligible(a, Anchor(row, stage)) <==> Fits(a, row, stage)
  {
    if a.published.Some? { StampIs(a.published.value); }
    hide InMillisecond, Stamp;
  }

  lemma InQueryIff(a: Article, rows: seq<Row>)
    ensures Fetched(a, rows) <==> InQuery(a, rows)
  {
    if a.published.Some? {
      var micros := a.published.value;
      if NearAnchor(rows, micros) {
        var x :| IsAnchor(rows, x) && Inside(Around(x), micros);
        var k, stage := AnchorOf(rows, x);
        assert Anchors(rows, rows[k], stage, micros);
      }
      if row, stage :| Anchors(rows, row, stage, micros) {
        RowsHaveAnchors(rows, row, stage);
        assert Inside(Around(Anchor(row, stage)), micros);
      }
    }
  }

  lemma AnchorOf(rows: seq<Row>, x: int) returns (k: nat, stage: Stage)
    requires IsAnchor(rows, x)
    ensures k < |rows| && x != 0 && TimeOf(rows[k], stage) == x
  {
    k :| 0 <= k < |rows| && (Anchor(rows[k], ENTRY) == x || Anchor(rows[k], EXIT) == x);
    stage := if Anchor(rows[k], ENTRY) == x then ENTRY else EXIT;
  }

  /** A filter keeps the articles at the places where it holds, and all of them. */
  lemma {:induction false} FilterIs(articles: seq<Article>, keep: Article -> bool) returns (places: seq<nat>)
    ensures At(Filter(articles, keep), articles, places)
    ensures forall i: nat :: i in places <==> i < |articles| && keep(articles[i])
  {
    if articles == [] {
      places := [];
    } else {
      var n := |articles| - 1;
      var before := FilterIs(articles[..n], keep);
      places := if keep(articles[n]) then before + [n] else before;
      AtGrows(Filter(articles[..n], keep), articles, before, n);
      PlacesGrow(articles, keep, before, places);
      hide At;
      assert Filter(articles, keep) == Filter(articles[..n], keep) + if keep(articles[n]) then [articles[n]] else [];
    }
  }

  lemma AtGrows(r: seq<Article>, articles: seq<Article>, places: seq<nat>, n: nat)
    requires n < |articles| && At(r, articles[..n], places)
    ensures At(r, articles, places) && At(r + [articles[n]], articles, places + [n])
  {
  }

  lemma PlacesGrow(articles: seq<Article>, keep: Article -> bool, before: seq<nat>, places: seq<nat>)
    requires articles != []
    requires var n := |articles| - 1;
      && (forall i: nat :: i in before <==> i < n && keep(articles[..n][i]))
      && places == if keep(articles[n]) then before + [n] else before
    ensures forall i: nat :: i in places <==> i < |articles| && keep(articles[i])
  {
    var n := |articles| - 1;
    assert forall i: nat :: i < n ==> articles[..n][i] == articles[i];
  }

  /** A row's list for a stage are the first three articles, in the stored order, that fit it and that
      the query reaches: any other one comes behind them. */
  lemma RowShowsFirstThree(stored: seq<Article>, rows: seq<Row>, row: Row, stage: Stage) returns (places: seq<nat>)
    ensures At(Served(stored, rows, row, stage), stored, places) && |places| <= 3
    ensures forall k :: 0 <= k < |places| ==>
      Fits(stored[places[k]], row, stage) && InQuery(stored[places[k]], rows)
    ensures forall i: nat :: i < |stored| && Fits(stored[i], row, stage) && InQuery(stored[i], rows) && i !in places ==>
      |places| == 3 && i > places[2]
  {
    var keep := Reached(rows, row.symbol, Anchor(row, stage));
    var all := FilterIs(stored, keep);
    forall a ensures keep(a) <==> Fits(a, row, stage) && InQuery(a, rows) {
      FitsIff(a, row, stage);
      InQueryIff(a, rows);
    }
    hide Fits, InQuery, Filter, Reached, Fetched, Eligible, About;
    var good := Filter(stored, keep);
    AtPrefix(good, stored, all);
    places := if |all| <= 3 then all else all[..3];
    assert forall k :: 0 <= k < |places| ==> places[k] in all;
    hide At;
    forall i: nat | i < |stored| && Fits(stored[i], row, stage) && InQuery(stored[i], rows) && i !in places
      ensures |places| == 3 && i > places[2]
    {
      assert keep(stored[i]);
      LaterPlace(all, i);
    }
  }

  lemma AtPrefix(r: seq<Article>, stored: seq<Article>, all: seq<nat>)
    requires At(r, stored, all)
    ensures At(FirstThree(r), stored, if |all| <= 3 then all else all[..3])
    ensures forall j, k :: 0 <= j < k < |all| ==> all[j] < all[k]
    ensures forall k :: 0 <= k < |all| ==> all[k] < |stored|
  {
  }

  lemma LaterPlace(all: seq<nat>, i: nat)
    requires (forall j, k :: 0 <= j < k < |all| ==> all[j] < all[k]) && i in all
    requires i !in if |all| <= 3 then all else all[..3]
    ensures |all| > 3 && i > all[2]
  {
    var k :| 0 <= k < |all| && all[k] == i;
    assert |all| > 3 ==> all[..3] == [all[0], all[1], all[2]];
  }

  /** The row's news are its entry's articles and then those of its exit that are not among them. */
  lemma {:induction false} NewsAreBoth(entry: seq<Article>, exit: seq<Article>)
    requires forall j, k :: 0 <= j < k < |entry| ==> entry[j] != entry[k]
    requires forall j, k :: 0 <= j < k < |exit| ==> exit[j] != exit[k]
    ensures Combine(entry + exit) == entry + Filter(exit, (a: Article) => a !in entry)
    decreases |exit|, |entry|
  {
    if exit == [] {
      assert entry + exit == entry;
      CombineDistinct(entry);
    } else {
      var n := |exit| - 1;
      assert (entry + exit)[..|entry + exit| - 1] == entry + exit[..n];
      NewsAreBoth(entry, exit[..n]);
      assert exit[n] !in exit[..n];
    }
  }

  lemma {:induction false} CombineDistinct(articles: seq<Article>)
    requires forall j, k :: 0 <= j < k < |articles| ==> articles[j] != articles[k]
    ensures Combine(articles) == articles
  {
    if articles != [] {
      var n := |articles| - 1;
      CombineDistinct(articles[..n]);
      assert articles[n] !in articles[..n];
    }
  }
}
