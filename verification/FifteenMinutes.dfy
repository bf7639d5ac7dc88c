/** Five-minute bars grouped into fifteen-minute candles through a dictionary, against the
    stride-3 slices that the grouping amounts to on validated rows. */
module FifteenMinutes {
  import opened Wrappers
  import opened RealArith
  import opened PaperExecution
  import T = Triggers
  import W = SpotWalkForward

  const STEP_MS := 300000
  const FIFTEEN_MS := 3 * STEP_MS

  type Row = W.Row

  /** What validation establishes: aligned rows without a gap, each with ordered prices. */
  ghost predicate Contiguous(rows: seq<Row>, origin: nat) {
    && (forall i :: 0 <= i < |rows| ==> rows[i].stamp == (origin + i) * STEP_MS)
    && W.ValidRows(rows)
  }

  /** Index of the first row that opens a fifteen-minute interval. */
  function First(origin: nat): nat {
    (3 - origin % 3) % 3
  }

  /** Number of complete intervals. */
  function Complete(n: nat, origin: nat): nat {
    if n < First(origin) then 0 else (n - First(origin)) / 3
  }

  function Combine(a: Row, b: Row, c: Row): Row {
    W.Row(a.stamp, T.Bar(a.bar.open, Max(Max(a.bar.high, b.bar.high), c.bar.high),
                         Min(Min(a.bar.low, b.bar.low), c.bar.low), c.bar.close),
          a.volume + b.volume + c.volume)
  }

  /** The reference form: slice `j` of stride three from the first aligned row. */
  function Slice(rows: seq<Row>, origin: nat, j: nat): Row
    requires j < Complete(|rows|, origin)
  {
    var k := First(origin) + 3 * j;
    Combine(rows[k], rows[k + 1], rows[k + 2])
  }

  ghost function Slices(rows: seq<Row>, origin: nat, n: nat): (c: seq<Row>)
    requires n <= Complete(|rows|, origin)
    ensures |c| == n
  {
    seq(n, j requires 0 <= j < n => Slice(rows, origin, j))
  }

  function LastIndex(origin: nat, j: nat): nat {
    First(origin) + 3 * j + 2
  }

  ghost function LastIndices(origin: nat, n: nat): (l: seq<nat>)
    ensures |l| == n
  {
    seq(n, j requires 0 <= j < n => LastIndex(origin, j))
  }

  // ------------------------------------------------------------- grouping

  /** Rows of bucket `b` among the first `k` rows. */
  ghost function Group(rows: seq<Row>, origin: nat, b: nat, k: nat): seq<(nat, Row)>
    requires k <= |rows|
  {
    if k == 0 then []
    else Group(rows, origin, b, k - 1) + (if (origin + k - 1) / 3 == b then [(k - 1, rows[k - 1])] else [])
  }

  /** A group is the contiguous run of its three indices that exist. */
  lemma {:induction false} GroupIsRun(rows: seq<Row>, origin: nat, b: nat, k: nat)
    requires k <= |rows| && 3 * b + 2 >= origin
    ensures var lo := if 3 * b >= origin then 3 * b - origin else 0;
      var hi := if k < 3 * b + 3 - origin then k else 3 * b + 3 - origin;
      Group(rows, origin, b, k) == if lo < hi then seq(hi - lo,
                                                       t requires 0 <= t < hi - lo => (lo + t, rows[lo + t])) else []
  {
    if k > 0 {
      GroupIsRun(rows, origin, b, k - 1);
    }
  }

  lemma {:induction false} GroupEmpty(rows: seq<Row>, origin: nat, b: nat, k: nat)
    requires k <= |rows| && (k > 0 ==> (origin + k - 1) / 3 < b)
    ensures Group(rows, origin, b, k) == []
  {
    if k > 0 { GroupEmpty(rows, origin, b, k - 1); }
  }

  function Key(b: int): int {
    b * FIFTEEN_MS
  }

  lemma BucketOf(k: nat)
    ensures k * STEP_MS / FIFTEEN_MS * FIFTEEN_MS == Key(k / 3)
  {
    var q, r := k / 3, k % 3;
    assert k == 3 * q + r;
    assert k * STEP_MS == q * FIFTEEN_MS + r * STEP_MS;
    assert k * STEP_MS / FIFTEEN_MS == q;
  }

  /** The buckets that the first `k` rows fall into, in order of appearance. */
  function Keys(origin: nat, k: nat): (keys: seq<int>)
    ensures |keys| == if k == 0 then 0 else (origin + k - 1) / 3 - origin / 3 + 1
    ensures forall g :: 0 <= g < |keys| ==> keys[g] == Key(origin / 3 + g)
  {
    seq(if k == 0 then 0 else (origin + k - 1) / 3 - origin / 3 + 1, g => Key(origin / 3 + g))
  }

  ghost predicate Grouped(keys: seq<int>, groups: map<int, seq<(nat, Row)>>, rows: seq<Row>, origin: nat, k: nat)
    requires k <= |rows|
  {
    && keys == Keys(origin, k)
    && (forall key :: key in groups <==> key in keys)
    && (forall g :: 0 <= g < |keys| ==> keys[g] in groups && groups[keys[g]] == Group(rows, origin, origin / 3 + g, k))
  }

  lemma NextKey(origin: nat, k: nat)
    ensures var b := (origin + k) / 3;
      var keys := Keys(origin, k);
      && (Key(b) in keys ==> Keys(origin, k + 1) == keys && keys[|keys| - 1] == Key(b) && |keys| - 1 + origin / 3 == b)
      && (Key(b) !in keys ==> Keys(origin, k + 1) == keys + [Key(b)] && |keys| + origin / 3 == b)
      && (Key(b) !in keys && k > 0 ==> (origin + k - 1) / 3 < b)
  {
    var b := (origin + k) / 3;
    var keys := Keys(origin, k);
    if k > 0 {
      if (origin + k - 1) / 3 == b {
        assert keys[|keys| - 1] == Key(b);
      } else {
        assert b == (origin + k - 1) / 3 + 1;
        forall g | 0 <= g < |keys| ensures keys[g] < Key(b) {
          assert origin / 3 + g < b;
        }
      }
    }
  }

  lemma GroupedStep(keys: seq<int>, groups: map<int, seq<(nat, Row)>>, rows: seq<Row>, origin: nat, i: nat)
    requires i < |rows| && Grouped(keys, groups, rows, origin, i)
    ensures var bucket := Key((origin + i) / 3);
      && (bucket in groups ==>
          Grouped(keys, groups[bucket := groups[bucket] + [(i, rows[i])]], rows, origin, i + 1))
      && (bucket !in groups ==>
          Grouped(keys + [bucket], groups[bucket := [] + [(i, rows[i])]], rows, origin, i + 1))
  {
    hide Group;
    var b := (origin + i) / 3;
    NextKey(origin, i);
    var known := Key(b) in groups;
    var next := if known then keys else keys + [Key(b)];
    var more := groups[Key(b) := (if known then groups[Key(b)] else []) + [(i, rows[i])]];
    if !known {
      GroupEmpty(rows, origin, b, i);
    }
    assert next == Keys(origin, i + 1);
    forall g | 0 <= g < |next|
      ensures next[g] in more && more[next[g]] == Group(rows, origin, origin / 3 + g, i + 1)
    {
      GroupNext(rows, origin, origin / 3 + g, i);
      assert next[g] == Key(origin / 3 + g);
    }
    assert Grouped(next, more, rows, origin, i + 1);
  }

  lemma GroupNext(rows: seq<Row>, origin: nat, b: nat, i: nat)
    requires i < |rows|
    ensures Group(rows, origin, b, i + 1)
         == Group(rows, origin, b, i) + (if (origin + i) / 3 == b then [(i, rows[i])] else [])
  {
  }

  /** The dictionary pass.  `keys` is the insertion order of the dictionary. */
  method GroupRows(rows: seq<Row>, ghost origin: nat) returns (keys: seq<int>, groups: map<int, seq<(nat, Row)>>)
    requires Contiguous(rows, origin)
    ensures Grouped(keys, groups, rows, origin, |rows|)
  {
    keys, groups := [], map[];
    assert Grouped(keys, groups, rows, origin, 0);
    hide Grouped, Group, Keys, Key;
    for i := 0 to |rows|
      invariant Grouped(keys, groups, rows, origin, i)
    {
      var row := rows[i];
      assert row.stamp == (origin + i) * STEP_MS;
      var bucket := row.stamp / FIFTEEN_MS * FIFTEEN_MS;
      BucketOf(origin + i);
      GroupedStep(keys, groups, rows, origin, i);
      if bucket !in groups {
        assert groups[bucket := []][bucket := [] + [(i, row)]] == groups[bucket := [] + [(i, row)]];
        keys := keys + [bucket];
        groups := groups[bucket := []];
      }
      groups := groups[bucket := groups[bucket] + [(i, row)]];
    }
  }

  // ---------------------------------------------------------- aggregation

  ghost predicate Full(origin: nat, n: nat, b: nat) {
    3 * b >= origin && 3 * b + 3 - origin <= n
  }

  /** Complete intervals among the first `g` buckets. */
  ghost function Count(origin: nat, n: nat, g: nat): (c: nat)
    ensures c <= Complete(n, origin)
  {
    var seen := origin / 3 + g - (origin + First(origin)) / 3;
    if seen < 0 then 0 else if seen < Complete(n, origin) then seen else Complete(n, origin)
  }

  lemma CountStep(origin: nat, n: nat, g: nat)
    ensures var b := origin / 3 + g;
      var c := Count(origin, n, g);
      if Full(origin, n, b)
      then Count(origin, n, g + 1) == c + 1 && First(origin) + 3 * c == 3 * b - origin
      else Count(origin, n, g + 1) == c
  {
  }

  lemma CountAll(origin: nat, n: nat)
    ensures Count(origin, n, 0) == 0
    ensures n > 0 ==> Count(origin, n, (origin + n - 1) / 3 - origin / 3 + 1) == Complete(n, origin)
    ensures n == 0 ==> Complete(n, origin) == 0
  {
  }

  /** Only the first and the last bucket can be incomplete. */
  lemma OnlyEdgesIncomplete(origin: nat, n: nat, g: nat)
    requires n > 0 && g < (origin + n - 1) / 3 - origin / 3 + 1
    ensures Full(origin, n, origin / 3 + g) || g == 0 || g == (origin + n - 1) / 3 - origin / 3
  {
  }

  lemma GroupShape(rows: seq<Row>, origin: nat, b: nat)
    requires Contiguous(rows, origin) && 3 * b + 2 >= origin
    ensures var group := Group(rows, origin, b, |rows|);
      var k := 3 * b - origin;
      && (Full(origin, |rows|, b) <==> |group| == 3)
      && (Full(origin, |rows|, b) ==>
          && group == [(k, rows[k]), (k + 1, rows[k + 1]), (k + 2, rows[k + 2])]
          && forall j :: 0 <= j < 3 ==> group[j].1.stamp == Key(b) + j * STEP_MS)
  {
    hide Group;
    GroupIsRun(rows, origin, b, |rows|);
    if Full(origin, |rows|, b) {
      var k := 3 * b - origin;
      assert (origin + k) * STEP_MS == Key(b);
      assert (origin + k + 1) * STEP_MS == Key(b) + STEP_MS;
      assert (origin + k + 2) * STEP_MS == Key(b) + 2 * STEP_MS;
    }
  }

  lemma SlicesStep(rows: seq<Row>, origin: nat, c: nat)
    requires c < Complete(|rows|, origin)
    ensures Slices(rows, origin, c + 1) == Slices(rows, origin, c) + [Slice(rows, origin, c)]
    ensures LastIndices(origin, c + 1) == LastIndices(origin, c) + [LastIndex(origin, c)]
  {
  }

  /** The group of a complete interval gives the next slice. */
  lemma FullGroupIsSlice(rows: seq<Row>, origin: nat, g: nat)
    requires Contiguous(rows, origin) && Full(origin, |rows|, origin / 3 + g)
    ensures var group := Group(rows, origin, origin / 3 + g, |rows|);
      var c := Count(origin, |rows|, g);
      && |group| == 3 && c < Complete(|rows|, origin)
      && Combine(group[0].1, group[1].1, group[2].1) == Slice(rows, origin, c)
      && group[2].0 == LastIndex(origin, c)
      && Count(origin, |rows|, g + 1) == c + 1
  {
    GroupShape(rows, origin, origin / 3 + g);
    CountStep(origin, |rows|, g);
  }

  /** One bucket: it has three rows exactly when it is complete, and then adds its slice; the others
      are at an edge. */
  lemma BucketFacts(rows: seq<Row>, origin: nat, g: nat, group: seq<(nat, Row)>)
    requires Contiguous(rows, origin) && |rows| > 0 && g < (origin + |rows| - 1) / 3 - origin / 3 + 1
    requires group == Group(rows, origin, origin / 3 + g, |rows|)
    ensures var n, b := |rows|, origin / 3 + g;
      var c, next := Count(origin, n, g), Count(origin, n, g + 1);
      if |group| == 3 then
        && (forall j :: 0 <= j < 3 ==> group[j].1.stamp == Key(b) + j * STEP_MS)
        && Slices(rows, origin, next) == Slices(rows, origin, c) + [Combine(group[0].1, group[1].1, group[2].1)]
        && LastIndices(origin, next) == LastIndices(origin, c) + [group[2].0]
      else next == c && (g == 0 || g == (origin + n - 1) / 3 - origin / 3)
  {
    hide Count, Contiguous, Group, Full, Slices, LastIndices, Complete, First, Slice, LastIndex, Combine;
    var n, b := |rows|, origin / 3 + g;
    GroupShape(rows, origin, b);
    CountStep(origin, n, g);
    OnlyEdgesIncomplete(origin, n, g);
    if Full(origin, n, b) {
      FullGroupIsSlice(rows, origin, g);
      SlicesStep(rows, origin, Count(origin, n, g));
    }
  }

  /** The aggregation of validated rows never meets either interior error; its candles are
      the stride-3 slices and its decision indices the last row of each slice. */
  method AggregateFifteen(rows: seq<Row>, ghost origin: nat) returns (r: Result<(seq<Row>, seq<nat>), string>)
    requires Contiguous(rows, origin)
    ensures var n := Complete(|rows|, origin);
      r == if n == 0 then Error("No complete 15m candles")
           else Ok((Slices(rows, origin, n), LastIndices(origin, n)))
  {
    var keys, groups := GroupRows(rows, origin);
    var candles: seq<Row>, last: seq<nat> := [], [];
    ghost var n := |rows|;
    CountAll(origin, n);
    hide Count, Contiguous, Group, Slices, LastIndices, Combine;
    for g := 0 to |keys|
      invariant candles == Slices(rows, origin, Count(origin, n, g))
      invariant last == LastIndices(origin, Count(origin, n, g))
    {
      var stamp := keys[g];
      var group := groups[stamp];
      assert stamp == Key(origin / 3 + g) && group == Group(rows, origin, origin / 3 + g, n);
      BucketFacts(rows, origin, g, group);
      hide Grouped, Key;
      if |group| != 3 {
        if stamp != keys[0] && stamp != keys[|keys| - 1] {
          return Error("Incomplete interior 15m candle");
        }
        continue;
      }
      if group[0].1.stamp != stamp || group[1].1.stamp != stamp + STEP_MS || group[2].1.stamp != stamp + 2 * STEP_MS {
        return Error("Invalid 15m constituent timestamps");
      }
      candles := candles + [Combine(group[0].1, group[1].1, group[2].1)];
      last := last + [group[2].0];
    }
    if candles == [] { return Error("No complete 15m candles"); }
    r := Ok((candles, last));
  }

  /** Every candle has ordered prices and starts at its interval, and at most two rows are
      left out at either edge. */
  lemma CandlesAreValid(rows: seq<Row>, origin: nat)
    requires Contiguous(rows, origin)
    ensures var n := Complete(|rows|, origin);
      && W.ValidRows(Slices(rows, origin, n))
      && (forall j :: 0 <= j < n ==> Slices(rows, origin, n)[j].stamp == Key((origin + First(origin)) / 3 + j))
      && First(origin) <= 2
      && (n > 0 ==> 0 <= |rows| - (First(origin) + 3 * n) <= 2)
  {
    var n := Complete(|rows|, origin);
    forall j | 0 <= j < n
      ensures T.ValidBar(Slice(rows, origin, j).bar)
      ensures Slice(rows, origin, j).stamp == Key((origin + First(origin)) / 3 + j)
    {
      var k := First(origin) + 3 * j;
      assert T.ValidBar(rows[k].bar) && T.ValidBar(rows[k + 1].bar) && T.ValidBar(rows[k + 2].bar);
      assert origin + k == 3 * ((origin + First(origin)) / 3 + j);
      assert (origin + k) * STEP_MS == Key((origin + First(origin)) / 3 + j);
    }
  }

  // ------------------------------------------------------------- decisions

  /** The candle whose last row is row `i`, or -1. */
  function CandleAt(n: nat, origin: nat, i: int): int {
    if i >= First(origin) + 2 && (i - First(origin) - 2) % 3 == 0 && (i - First(origin) - 2) / 3 < Complete(n, origin)
    then (i - First(origin) - 2) / 3 else -1
  }

  /** A decision is taken at the last row of a complete candle, from the 200 candles that
      end with it, if there is a next row to execute at. */
  ghost function DecisionAt(rows: seq<Row>, origin: nat, oracle: seq<Row> -> W.Signal, i: int): Option<W.Signal> {
    var j := CandleAt(|rows|, origin, i);
    if j >= W.WARMUP - 1 && i + 1 < |rows|
    then Some(oracle(Slices(rows, origin, j + 1)[j - W.WARMUP + 1..])) else None
  }

  ghost function DecisionsOf(rows: seq<Row>, origin: nat, oracle: seq<Row> -> W.Signal): (s: seq<Option<W.Signal>>)
    ensures |s| == |rows|
  {
    seq(|rows|, i => DecisionAt(rows, origin, oracle, i))
  }

  lemma CandleOfLast(n: nat, origin: nat, j: nat)
    requires j < Complete(n, origin)
    ensures LastIndex(origin, j) < n && CandleAt(n, origin, LastIndex(origin, j)) == j
    ensures forall i :: CandleAt(n, origin, i) == j <==> i == LastIndex(origin, j)
  {
  }

  lemma SlicesPrefix(rows: seq<Row>, origin: nat, j: nat, m: nat)
    requires j <= m <= Complete(|rows|, origin)
    ensures Slices(rows, origin, m)[..j] == Slices(rows, origin, j)
  {
  }

  method FifteenSignals(rows: seq<Row>, aggregated: seq<Row>, lastIndices: seq<nat>, oracle: seq<Row> -> W.Signal,
                        ghost origin: nat) returns (signals: array<Option<W.Signal>>)
    requires aggregated == Slices(rows, origin, Complete(|rows|, origin))
    requires lastIndices == LastIndices(origin, Complete(|rows|, origin))
    ensures fresh(signals) && signals[..] == DecisionsOf(rows, origin, oracle)
  {
    ghost var n := |rows|;
    signals := new Option<W.Signal>[|rows|](_ => None);
    var j := W.WARMUP - 1;
    while j < |aggregated|
      invariant W.WARMUP - 1 <= j
      invariant forall i :: 0 <= i < n ==>
        signals[i] == if CandleAt(n, origin, i) < j then DecisionAt(rows, origin, oracle, i) else None
    {
      var decision := lastIndices[j];
      CandleOfLast(n, origin, j);
      if decision + 1 < |rows| {
        var window := aggregated[j - W.WARMUP + 1..j + 1];
        SlicesPrefix(rows, origin, j + 1, |aggregated|);
        assert window == aggregated[..j + 1][j - W.WARMUP + 1..];
        signals[decision] := Some(oracle(window));
      }
      j := j + 1;
    }
  }

  /** A candle that closes before row `n`, and all candles before it, are determined by the
      rows through `n`. */
  lemma SlicesAgree(rows1: seq<Row>, rows2: seq<Row>, origin: nat, n: nat, k: nat)
    requires n < |rows1| && n < |rows2| && rows1[..n + 1] == rows2[..n + 1] && k < n
    ensures var j := CandleAt(|rows1|, origin, k);
      && CandleAt(|rows2|, origin, k) == j
      && (j >= 0 ==> Slices(rows1, origin, j + 1) == Slices(rows2, origin, j + 1))
  {
    var j := CandleAt(|rows1|, origin, k);
    if j >= 0 {
      forall i | 0 <= i < j + 1 ensures Slice(rows1, origin, i) == Slice(rows2, origin, i) {
        var a := First(origin) + 3 * i;
        assert rows1[a] == rows1[..n + 1][a] && rows2[a] == rows2[..n + 1][a];
        assert rows1[a + 1] == rows1[..n + 1][a + 1] && rows2[a + 1] == rows2[..n + 1][a + 1];
        assert rows1[a + 2] == rows1[..n + 1][a + 2] && rows2[a + 2] == rows2[..n + 1][a + 2];
      }
    }
  }

  /** Decisions before bar `n` depend only on the rows through bar `n`, candles included. */
  lemma DecisionsAgree(rows1: seq<Row>, rows2: seq<Row>, origin: nat, oracle: seq<Row> -> W.Signal, n: nat, k: nat)
    requires n < |rows1| && n < |rows2| && rows1[..n + 1] == rows2[..n + 1] && k < n
    ensures DecisionAt(rows1, origin, oracle, k) == DecisionAt(rows2, origin, oracle, k)
  {
    SlicesAgree(rows1, rows2, origin, n, k);
  }

  /** The baseline driven by fifteen-minute decisions does not look ahead either. */
  lemma NoLookAheadOnCandles(c: W.Config, rows1: seq<Row>, rows2: seq<Row>, origin: nat, oracle: seq<Row> -> W.Signal,
                             capital: real, start: nat, n: nat)
    requires c.rules.step > 0.0 && capital > 0.0 && 0 < start
    requires n < |rows1| && n < |rows2| && rows1[..n + 1] == rows2[..n + 1]
    ensures W.Before(c, rows1, DecisionsOf(rows1, origin, oracle), capital, start, n + 1)
         == W.Before(c, rows2, DecisionsOf(rows2, origin, oracle), capital, start, n + 1)
  {
    hide W.Before, DecisionAt;
    forall k | 0 <= k <= n ensures rows1[k] == rows2[k] {
      assert rows1[k] == rows1[..n + 1][k] && rows2[k] == rows2[..n + 1][k];
    }
    forall k | 0 <= k < n ensures DecisionsOf(rows1, origin, oracle)[k] == DecisionsOf(rows2, origin, oracle)[k] {
      DecisionsAgree(rows1, rows2, origin, oracle, n, k);
    }
    W.SameBarsSameAccount(c, rows1, rows2, DecisionsOf(rows1, origin, oracle), DecisionsOf(rows2, origin, oracle),
                          capital, start, n);
  }

  /** A candle in the figures of its rows: opening of the first, close of the last, extremes and volume
      of all three, from an aligned row on; and every aligned row with two after it starts one. */
  lemma CandleFigures(rows: seq<Row>, origin: nat, j: nat)
    requires Contiguous(rows, origin) && j < Complete(|rows|, origin)
    ensures var k, c := First(origin) + 3 * j, Slices(rows, origin, Complete(|rows|, origin))[j];
      && k + 2 < |rows| && rows[k].stamp % FIFTEEN_MS == 0 && c.stamp == rows[k].stamp
      && c.bar.open == rows[k].bar.open && c.bar.close == rows[k + 2].bar.close
      && (forall i :: k <= i < k + 3 ==> rows[i].bar.low >= c.bar.low && rows[i].bar.high <= c.bar.high)
      && (exists i :: k <= i < k + 3 && rows[i].bar.high == c.bar.high)
      && (exists i :: k <= i < k + 3 && rows[i].bar.low == c.bar.low)
      && c.volume == rows[k].volume + rows[k + 1].volume + rows[k + 2].volume
      && LastIndex(origin, j) == k + 2
  {
    var k := First(origin) + 3 * j;
    AlignedIff(origin, k);
    assert rows[k].stamp == (origin + k) * STEP_MS;
  }

  lemma AlignedIff(origin: nat, k: nat)
    ensures (origin + k) * STEP_MS % FIFTEEN_MS == 0 <==> (origin + k) % 3 == 0
    ensures (origin + k) % 3 == 0 <==> k >= First(origin) && (k - First(origin)) % 3 == 0
  {
    var q, r := (origin + k) / 3, (origin + k) % 3;
    assert (origin + k) * STEP_MS == q * FIFTEEN_MS + r * STEP_MS;
  }

  lemma EveryIntervalIsACandle(rows: seq<Row>, origin: nat, k: nat)
    requires Contiguous(rows, origin) && k + 2 < |rows| && rows[k].stamp % FIFTEEN_MS == 0
    ensures exists j :: 0 <= j < Complete(|rows|, origin) && k == First(origin) + 3 * j
  {
    AlignedIff(origin, k);
    assert k == First(origin) + 3 * ((k - First(origin)) / 3);
  }
}
