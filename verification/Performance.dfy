/** The two passes one after the other: a profile's report rows are matched, stand among the rows
    of other profiles, and the ledger sorts and pairs them all again. */
module Performance {
  import opened Ordering
  import opened Lots
  import E = ExecutionLots
  import B = BybitReport

  type Row = E.Row

  /** A row that leaves every book of a profile alone: of another profile, or without a price or
      a quantity. */
  predicate Idle(x: Row, profile: string) {
    x.key.0 != profile || !E.Usable(x)
  }

  ghost function RowsAt(rows: seq<Row>, order: seq<nat>): (r: seq<Row>)
    requires Indexes(order, |rows|)
    ensures |r| == |order| && forall k :: 0 <= k < |r| ==> r[k] == rows[order[k]]
  {
    seq(|order|, k requires 0 <= k < |order| => rows[order[k]])
  }

  lemma BookOneMore(rows: seq<Row>, order: seq<nat>, key: E.Key, eps: real)
    requires eps >= 0.0 && order != [] && Indexes(order, |rows|)
    ensures var n := |order| - 1;
      var x, book := rows[order[n]], E.BookAfter(RowsAt(rows, order[..n]), key, eps);
      E.BookAfter(RowsAt(rows, order), key, eps) == if x.key == key then E.Step(book, x, eps) else book
  {
    hide E.Step;
    assert RowsAt(rows, order)[..|order| - 1] == RowsAt(rows, order[..|order| - 1]);
  }

  lemma IdleStep(x: Row, key: E.Key, book: E.Book, eps: real)
    requires eps >= 0.0 && Idle(x, key.0) && x.key == key
    ensures E.Step(book, x, eps) == book
  {
  }

  /** Idle rows around a block play no part in the books of its profile. */
  lemma {:induction false} BookOfBlock(rows: seq<Row>, order: seq<nat>, lo: nat, hi: nat, key: E.Key, eps: real)
    requires eps >= 0.0 && Indexes(order, |rows|)
    requires forall j :: 0 <= j < |rows| && !(lo <= j < hi) ==> Idle(rows[j], key.0)
    ensures Indexes(Within(order, lo, hi), |rows|)
    ensures E.BookAfter(RowsAt(rows, order), key, eps) == E.BookAfter(RowsAt(rows, Within(order, lo, hi)), key, eps)
  {
    hide E.BookAfter, E.Step, RowsAt, Idle;
    assert forall j :: j in Within(order, lo, hi) ==> j in order;
    if order != [] {
      var n := |order| - 1;
      BookOfBlock(rows, order[..n], lo, hi, key, eps);
      BookOneMore(rows, order, key, eps);
      var own := Within(order, lo, hi);
      if lo <= order[n] < hi {
        assert own[..|own| - 1] == Within(order[..n], lo, hi);
        BookOneMore(rows, own, key, eps);
      } else {
        assert own == Within(order[..n], lo, hi);
        var x := rows[order[n]];
        if x.key == key { IdleStep(x, key, E.BookAfter(RowsAt(rows, order[..n]), key, eps), eps); }
      }
    }
  }

  /** All rows when the ledger reads them. */
  function Joined(before: seq<Row>, report: seq<Row>, behind: seq<Row>): seq<Row> {
    before + report + behind
  }

  lemma OutsideIsIdle(before: seq<Row>, report: seq<Row>, behind: seq<Row>, profile: string)
    requires forall x :: x in before + behind ==> Idle(x, profile)
    ensures var rows := Joined(before, report, behind);
      forall j :: 0 <= j < |rows| && !(|before| <= j < |before| + |report|) ==> Idle(rows[j], profile)
  {
    var rows := Joined(before, report, behind);
    forall j | 0 <= j < |rows| && !(|before| <= j < |before| + |report|) ensures Idle(rows[j], profile) {
      OutsideBlock(before, report, behind, j);
    }
  }

  lemma TimesOfBlock(before: seq<Row>, report: seq<Row>, behind: seq<Row>)
    ensures E.TimesOf(Joined(before, report, behind))[|before|..|before| + |report|] == E.TimesOf(report)
  {
    var rows := Joined(before, report, behind);
    assert rows[|before|..|before| + |report|] == report;
    forall k | 0 <= k < |report| ensures rows[|before| + k] == report[k] { }
  }

  /** The rows visited before a report row, as far as they are of the report. */
  lemma EarlierOfBlock(before: seq<Row>, report: seq<Row>, behind: seq<Row>, p: nat, i: nat)
    requires i < |report|
    requires var rows, lo := Joined(before, report, behind), |before|;
      && p < |rows|
      && Within(StableOrder(E.TimesOf(rows))[..p], lo, lo + |report|)
         == Shifted(StableOrder(E.TimesOf(report))[..i], lo)
    ensures var rows, lo := Joined(before, report, behind), |before|;
      var own := Within(StableOrder(E.TimesOf(rows))[..p], lo, lo + |report|);
      && Indexes(own, |rows|) && RowsAt(rows, own) == E.Sorted(report)[..i]
  {
    var rows, lo, alone := Joined(before, report, behind), |before|, E.Sorted(report);
    var own := StableOrder(E.TimesOf(report));
    var shifted := Shifted(own[..i], lo);
    hide StableOrder, E.TimesOf, Within;
    forall k | 0 <= k < i ensures shifted[k] < |rows| && rows[shifted[k]] == alone[k] {
      assert shifted[k] == lo + own[k];
    }
    assert RowsAt(rows, shifted) == alone[..i];
  }

  /** The ledger reads each report row with the book that the report rows alone would give it. */
  lemma BlockIsPairedAlone(before: seq<Row>, report: seq<Row>, behind: seq<Row>, profile: string, i: nat, eps: real)
    returns (p: nat)
    requires eps >= 0.0 && i < |report|
    requires forall x :: x in before + behind ==> Idle(x, profile)
    requires forall x :: x in report ==> x.key.0 == profile
    ensures var rows := Joined(before, report, behind);
      && p < |rows| && StableOrder(E.TimesOf(rows))[p] == |before| + StableOrder(E.TimesOf(report))[i]
      && E.Paired(E.Sorted(rows), p, eps) == E.Paired(E.Sorted(report), i, eps)
  {
    hide Idle, E.TimesOf, StableOrder, Within, Shifted, RowsAt, E.BookAfter, E.AnnotateIn;
    var rows, lo, hi := Joined(before, report, behind), |before|, |before| + |report|;
    TimesOfBlock(before, report, behind);
    p := BlockKeepsOrder(E.TimesOf(rows), lo, |report|, i);
    var order, sorted, alone := StableOrder(E.TimesOf(rows)), E.Sorted(rows), E.Sorted(report);
    assert sorted[p] == alone[i];
    assert alone[i] in report;
    OutsideIsIdle(before, report, behind, profile);
    BookOfBlock(rows, order[..p], lo, hi, alone[i].key, eps);
    EarlierOfBlock(before, report, behind, p, i);
    assert sorted[..p] == RowsAt(rows, order[..p]);
  }

  lemma OutsideBlock(before: seq<Row>, report: seq<Row>, behind: seq<Row>, j: nat)
    requires j < |before| || |before| + |report| <= j < |before| + |report| + |behind|
    ensures Joined(before, report, behind)[j] in before + behind
  {
    if j < |before| {
      assert (before + behind)[j] == before[j];
    } else {
      assert (before + behind)[j - |report|] == behind[j - |before| - |report|];
    }
  }

  /** Reported rows are sorted as the rows they report. */
  lemma ReportKeepsOrder(rows: seq<Row>, out: seq<Row>, round: real -> real, eps: real)
    requires eps >= 0.0 && |out| == |rows|
    requires forall k :: 0 <= k < |rows| ==>
      out[StableOrder(E.TimesOf(rows))[k]] == B.ReportAt(E.Sorted(rows), k, round, eps)
    ensures E.TimesOf(out) == E.TimesOf(rows) && E.Sorted(out) == B.Reported(E.Sorted(rows), round, eps)
  {
    var order := StableOrder(E.TimesOf(rows));
    var sorted := E.Sorted(rows);
    hide StableOrder;
    forall j | 0 <= j < |rows| ensures out[j].time == rows[j].time {
      assert j in order;
      var k :| 0 <= k < |order| && order[k] == j;
      ReportKeepsTime(sorted, k, round, eps);
    }
    hide B.ReportAt;
  }

  lemma ReportKeepsTime(rows: seq<Row>, k: nat, round: real -> real, eps: real)
    requires eps >= 0.0 && k < |rows|
    ensures var r := B.ReportAt(rows, k, round, eps); r.time == rows[k].time && r.key == rows[k].key
  {
  }

  /** What the report wrote into a covered sell is what the ledger leaves there. */
  ghost predicate LedgerKeeps(report: seq<Row>, lo: nat, rows: seq<Row>, round: real -> real, eps: real)
    requires eps >= 0.0 && lo + |report| <= |rows|
  {
    var order, sorted := StableOrder(E.TimesOf(report)), E.Sorted(report);
    forall i :: 0 <= i < |report| && B.Sells(sorted[i]) && B.Covered(sorted[..i + 1], B.Symbol(sorted[i]), eps) ==>
      var x, y := B.ReportAt(sorted, i, round, eps), rows[lo + order[i]];
      && y.context.entryPrice == x.context.entryPrice && y.context.invested == x.context.invested
      && y.pnl == x.pnl == round(B.Proceeds(sorted[i]) - y.context.invested)
  }

  lemma PassesAgree(before: seq<Row>, report: seq<Row>, out: seq<Row>, behind: seq<Row>, rows: seq<Row>,
                    profile: string, round: real -> real, eps: real)
    requires eps >= 0.0 && |out| == |report| && |rows| == |before| + |report| + |behind|
    requires forall x :: x in before + behind ==> Idle(x, profile)
    requires forall x :: x in report ==> B.Fresh(x) && x.key.0 == profile
    requires forall k :: 0 <= k < |report| ==>
      out[StableOrder(E.TimesOf(report))[k]] == B.ReportAt(E.Sorted(report), k, round, eps)
    requires var joined := Joined(before, out, behind);
      forall k :: 0 <= k < |rows| ==> rows[StableOrder(E.TimesOf(joined))[k]] == E.Paired(E.Sorted(joined), k, eps)
    ensures LedgerKeeps(report, |before|, rows, round, eps)
  {
    hide StableOrder, E.TimesOf, B.ReportAt, B.Reported, E.Paired, B.Fresh, B.Covered, Idle, B.Sells, B.Proceeds;
    var order, sorted := StableOrder(E.TimesOf(report)), E.Sorted(report);
    ReportKeepsOrder(report, out, round, eps);
    OutIsOfProfile(report, out, profile, round, eps);
    forall i | 0 <= i < |report| && B.Sells(sorted[i]) && B.Covered(sorted[..i + 1], B.Symbol(sorted[i]), eps)
      ensures var x, y := B.ReportAt(sorted, i, round, eps), rows[|before| + order[i]];
        && y.context.entryPrice == x.context.entryPrice && y.context.invested == x.context.invested
        && y.pnl == x.pnl == round(B.Proceeds(sorted[i]) - y.context.invested)
    {
      var p := BlockIsPairedAlone(before, out, behind, profile, i, eps);
      assert rows[|before| + order[i]] == E.Paired(E.Sorted(out), i, eps);
      assert forall k :: 0 <= k < |sorted| ==> sorted[k] in report;
      OneSellAgrees(sorted, profile, i, round, eps);
    }
  }

  lemma OneSellAgrees(sorted: seq<Row>, profile: string, i: nat, round: real -> real, eps: real)
    requires eps >= 0.0 && i < |sorted| && B.Sells(sorted[i])
    requires B.Covered(sorted[..i + 1], B.Symbol(sorted[i]), eps)
    requires forall k :: 0 <= k < |sorted| ==> B.Fresh(sorted[k]) && sorted[k].key.0 == profile
    ensures var x, y := B.ReportAt(sorted, i, round, eps), E.Paired(B.Reported(sorted, round, eps), i, eps);
      && y.context.entryPrice == x.context.entryPrice && y.context.invested == x.context.invested
      && y.pnl == x.pnl == round(B.Proceeds(sorted[i]) - y.context.invested)
  {
    hide B.ReportAt, B.Reported, B.Covered, B.Fresh, B.Sells, B.Proceeds, E.BookAfter, E.AnnotateIn, E.Paired;
    var out, x := B.Reported(sorted, round, eps), B.ReportAt(sorted, i, round, eps);
    assert out[i] == x;
    assert out[..i] == B.Reported(sorted[..i], round, eps) by { B.ReportedBefore(sorted, i, round, eps); }
    B.MatchersAgree(sorted, i, profile, round, eps);
    E.PairedIs(out, i, eps);
    KeepsPnl(x, E.BookAfter(out[..i], x.key, eps), eps);
  }

  lemma KeepsPnl(x: Row, book: E.Book, eps: real)
    requires eps >= 0.0
    ensures E.AnnotateIn(x, book, eps).pnl == x.pnl
  {
  }

  lemma OutIsOfProfile(report: seq<Row>, out: seq<Row>, profile: string, round: real -> real, eps: real)
    requires eps >= 0.0 && |out| == |report| && forall x :: x in report ==> x.key.0 == profile
    requires E.Sorted(out) == B.Reported(E.Sorted(report), round, eps) && E.TimesOf(out) == E.TimesOf(report)
    ensures forall x :: x in out ==> x.key.0 == profile
  {
    var order := StableOrder(E.TimesOf(out));
    forall x | x in out ensures x.key.0 == profile {
      var j :| 0 <= j < |out| && out[j] == x;
      assert j in order;
      var k :| 0 <= k < |order| && order[k] == j;
      assert E.Sorted(out)[k] == x;
      ReportKeepsTime(E.Sorted(report), k, round, eps);
    }
  }

  /** Both passes of the route: the sells of a profile are matched in its report, and every row is
      paired in the ledger. */
  method MatchAndPair(before: seq<Row>, report: seq<Row>, behind: seq<Row>, ghost profile: string,
                      round: real -> real, eps: real) returns (rows: array<Row>)
    requires eps >= 0.0
    requires forall x :: x in before + behind ==> Idle(x, profile)
    requires forall x :: x in report ==> B.Fresh(x) && x.key.0 == profile
    ensures fresh(rows) && rows.Length == |before| + |report| + |behind|
    ensures LedgerKeeps(report, |before|, rows[..], round, eps)
  {
    var matched := new Row[|report|](i requires 0 <= i < |report| => report[i]);
    assert matched[..] == report;
    var bought := B.MatchReportRows(matched, round, eps);
    var joined := Joined(before, matched[..], behind);
    rows := new Row[|joined|](i requires 0 <= i < |joined| => joined[i]);
    assert rows[..] == joined;
    var books := E.PairExecutionLots(rows, eps);
    hide E.Sorted, E.TimesOf, StableOrder, E.Paired, B.ReportAt;
    PassesAgree(before, report, matched[..], behind, rows[..], profile, round, eps);
  }
}
