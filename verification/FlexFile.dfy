/** Reading an Activity Flex export: every execution row is checked, and rows that repeat a trade
    identifier must agree. */
module FlexFile {

  import opened Wrappers

  datatype Side = BUY | SELL

  /** A number attribute: not given, not a number of magnitude at most 1e15, or a value. */
  datatype Figure = Absent | Malformed | Figure(value: real)

  /** The attributes of one Trade element, texts as given and figures as read. */
  datatype Row = Row(execution: bool, account: string, category: string, currency: string, feeCurrency: string,
                     openClose: string, buySell: string, quantity: Figure, price: Figure, multiplier: Figure,
                     correction: bool, taxes: Figure, id: string, order: string, callback: Option<string>,
                     symbol: string, commission: Figure, realized: Figure, time: Option<int>)

  datatype FlexStatement = FlexStatement(account: string, rows: seq<Row>)

  datatype Execution = Execution(id: string, order: string, callback: Option<string>, symbol: string, side: Side,
                                 quantity: real, price: real, commission: real, pnl: Option<real>, closed: bool,
                                   time: int)

  // ------------------------------------------------------- reading a file

  /** Symbols are compared in upper case (of the Latin letters they consist of). */
  function Upper(s: string): string {
    seq(|s|, i requires 0 <= i < |s| => if 'a' <= s[i] <= 'z' then s[i] - 'a' + 'A' else s[i])
  }

  predicate Refused(row: Row, account: string) {
    || row.account != account
    || row.category != "STK" || row.currency != "USD" || row.feeCurrency != "USD"
    || row.openClose !in {"O", "C"} || row.buySell !in {"BUY", "SELL"}
    || !row.quantity.Figure? || !row.price.Figure?
    || row.quantity.value == 0.0 || row.price.value <= 0.0
    || (row.quantity.value > 0.0) != (row.buySell == "BUY")
    || (row.multiplier != Absent && row.multiplier != Figure(1.0))
    || row.correction
    || (row.taxes != Absent && row.taxes != Figure(0.0))
    || row.id == "" || row.order == "" || row.symbol == ""
    || !row.commission.Figure? || row.realized.Malformed? || row.time == None
  }

  function Read(row: Row, account: string): (e: Execution)
    requires !Refused(row, account)
    ensures e.quantity > 0.0 && e.price > 0.0 && e.id == row.id
  {
    Execution(row.id, row.order, row.callback, Upper(row.symbol), if row.buySell == "BUY" then BUY else SELL,
              if row.quantity.value < 0.0 then -row.quantity.value else row.quantity.value, row.price.value,
              row.commission.value, if row.realized.Figure? then Some(row.realized.value) else None,
              row.openClose == "C", row.time.value)
  }

  type File = map<string, Execution>

  predicate ValidFile(f: File) {
    forall t :: t in f ==> f[t].id == t && f[t].quantity > 0.0 && f[t].price > 0.0
  }

  /** One row: skipped unless it is execution detail, refused, or taken once. */
  function Add(found: File, row: Row, account: string): Result<File, string> {
    if !row.execution then Ok(found)
    else if Refused(row, account) then Error("Row requires review")
    else if row.id in found && found[row.id] != Read(row, account) then Error("Conflicting duplicate trade ID")
    else Ok(found[row.id := Read(row, account)])
  }

  function AddRows(found: File, rows: seq<Row>, account: string): Result<File, string> {
    if rows == [] then Ok(found)
    else
      var before := AddRows(found, rows[..|rows| - 1], account);
      if before.Error? then before else Add(before.value, rows[|rows| - 1], account)
  }

  function AllRows(statements: seq<FlexStatement>): seq<Row> {
    if statements == [] then [] else AllRows(statements[..|statements| - 1]) + statements[|statements| - 1].rows
  }

  predicate OwnStatements(statements: seq<FlexStatement>, account: string) {
    account != "" && statements != [] && forall i :: 0 <= i < |statements| ==> statements[i].account == account
  }

  /** What a file holds: every execution row of every statement, when all of them can be read. */
  function Parsed(statements: seq<FlexStatement>, account: string): Result<File, string> {
    if !OwnStatements(statements, account) then Error("Statement account does not match selected profile")
    else
      var found := AddRows(map[], AllRows(statements), account);
      if found.Ok? && found.value == map[] then Error("No execution-detail stock trades found") else found
  }

  lemma {:induction false} AddRowsConcat(found: File, a: seq<Row>, b: seq<Row>, account: string)
    ensures AddRows(found, a + b, account)
         == (var r := AddRows(found, a, account); if r.Error? then r else AddRows(r.value, b, account))
  {
    if b == [] {
      assert a + b == a;
    } else {
      var n := |b| - 1;
      assert (a + b)[..|a + b| - 1] == a + b[..n];
      assert (a + b)[|a + b| - 1] == b[n];
      AddRowsConcat(found, a, b[..n], account);
    }
  }

  lemma AllRowsStep(statements: seq<FlexStatement>, i: nat)
    requires i < |statements|
    ensures AllRows(statements[..i + 1]) == AllRows(statements[..i]) + statements[i].rows[..|statements[i].rows|]
  {
    assert statements[..i + 1][..i] == statements[..i];
    assert statements[i].rows[..|statements[i].rows|] == statements[i].rows;
  }

  lemma AddRowsStep(found: File, before: seq<Row>, rows: seq<Row>, j: nat, account: string)
    requires j < |rows| && AddRows(found, before + rows[..j], account).Ok?
    ensures AddRows(found, before + rows[..j + 1], account)
         == Add(AddRows(found, before + rows[..j], account).value, rows[j], account)
  {
    assert (before + rows[..j + 1])[..|before| + j] == before + rows[..j];
  }

  lemma AddKeepsValid(f: File, row: Row, account: string)
    requires ValidFile(f)
    ensures Add(f, row, account).Ok? ==> ValidFile(Add(f, row, account).value)
  {
  }

  /** The nested loops over statements and rows, which stop at the first row they refuse. */
  method ParseFlex(statements: seq<FlexStatement>, account: string) returns (r: Result<File, string>)
    ensures r.Ok? <==> Parsed(statements, account).Ok?
    ensures r.Ok? ==> r == Parsed(statements, account) && ValidFile(r.value) && r.value != map[]
  {
    assert AllRows(statements[..0]) == [];
    hide Refused, Add, AllRows;
    if account == "" { return Error("Profile must have a configured IBKR account ID"); }
    if statements == [] { return Error("No Flex statements found"); }
    var trades: File := map[];
    for i := 0 to |statements|
      invariant forall k :: 0 <= k < i ==> statements[k].account == account
      invariant AddRows(map[], AllRows(statements[..i]), account) == Ok(trades)
      invariant ValidFile(trades)
    {
      var s := statements[i];
      if s.account != account { return Error("Statement account does not match selected profile"); }
      ghost var before := AllRows(statements[..i]);
      assert s.rows[..0] == [];
      assert before == AllRows(statements[..i]);
      assert before + s.rows[..0] == before;
      for j := 0 to |s.rows|
        invariant AddRows(map[], before + s.rows[..j], account) == Ok(trades)
        invariant ValidFile(trades)
      {
        var row := s.rows[j];
        var next := Add(trades, row, account);
        AddRowsStep(map[], before, s.rows, j, account);
        AddKeepsValid(trades, row, account);
        if next.Error? {
          RefusedRowRefusesFile(statements, i, j + 1, account);
          return next;
        }
        trades := next.value;
      }
      AllRowsStep(statements, i);
    }
    assert statements[..|statements|] == statements;
    if trades == map[] { return Error("No execution-detail stock trades found"); }
    return Ok(trades);
  }

  lemma {:induction false} RefusedRowRefusesFile(statements: seq<FlexStatement>, i: nat, j: nat, account: string)
    requires i < |statements| && j <= |statements[i].rows|
    requires AddRows(map[], AllRows(statements[..i]) + statements[i].rows[..j], account).Error?
    ensures AddRows(map[], AllRows(statements), account).Error?
    decreases |statements|
  {
    hide Add;
    var n := |statements| - 1;
    if i == n {
      var rows := statements[i].rows;
      assert rows == rows[..j] + rows[j..];
      assert AllRows(statements) == (AllRows(statements[..i]) + rows[..j]) + rows[j..];
      AddRowsConcat(map[], AllRows(statements[..i]) + rows[..j], rows[j..], account);
    } else {
      assert statements[..n][..i] == statements[..i];
      RefusedRowRefusesFile(statements[..n], i, j, account);
      AddRowsConcat(map[], AllRows(statements[..n]), statements[n].rows, account);
    }
  }

  /** Rows that name one execution agree on it. */
  ghost predicate Consistent(rows: seq<Row>, account: string) {
    && (forall i :: 0 <= i < |rows| && rows[i].execution ==> !Refused(rows[i], account))
    && (forall i, j :: 0 <= i < j < |rows| && rows[i].execution && rows[j].execution && rows[i].id == rows[j].id
          ==> Read(rows[i], account) == Read(rows[j], account))
  }

  /** A file holds what its rows name, and each row is held. */
  ghost predicate HoldsRows(f: File, rows: seq<Row>, account: string)
    requires Consistent(rows, account)
  {
    && (forall i :: 0 <= i < |rows| && rows[i].execution ==> rows[i].id in f && f[rows[i].id] == Read(rows[i], account))
    && (forall t :: t in f ==> Names(rows, t))
  }

  ghost predicate Names(rows: seq<Row>, t: string) {
    exists i :: 0 <= i < |rows| && rows[i].execution && rows[i].id == t
  }

  /** Deduplication loses nothing and invents nothing: a file is read exactly when its execution
      rows are acceptable and repeated identifiers agree, and then it holds each of them. */
  lemma {:induction false} ReadIffConsistent(rows: seq<Row>, account: string)
    ensures AddRows(map[], rows, account).Ok? <==> Consistent(rows, account)
    ensures Consistent(rows, account) ==> HoldsRows(AddRows(map[], rows, account).value, rows, account)
  {
    hide Refused, Read, Add, HoldsRows, Consistent;
    if rows == [] {
      EmptyIsConsistent(account);
    } else {
      var n := |rows| - 1;
      var before := rows[..n];
      ReadIffConsistent(before, account);
      if Consistent(rows, account) {
        ConsistentPrefix(rows, account);
        TakesTheLastRow(rows, AddRows(map[], before, account).value, account);
      } else if Consistent(before, account) && Add(AddRows(map[], before, account).value, rows[n], account).Ok? {
        TakenRowsAreConsistent(rows, AddRows(map[], before, account).value, account);
      }
    }
  }

  lemma EmptyIsConsistent(account: string)
    ensures Consistent([], account) && HoldsRows(map[], [], account)
  {
  }

  lemma ConsistentPrefix(rows: seq<Row>, account: string)
    requires rows != [] && Consistent(rows, account)
    ensures Consistent(rows[..|rows| - 1], account)
  {
    hide Refused, Read;
  }

  lemma TakesTheLastRow(rows: seq<Row>, f: File, account: string)
    requires rows != [] && Consistent(rows, account)
    requires Consistent(rows[..|rows| - 1], account) && HoldsRows(f, rows[..|rows| - 1], account)
    ensures Add(f, rows[|rows| - 1], account).Ok? && HoldsRows(Add(f, rows[|rows| - 1], account).value, rows, account)
  {
    hide Refused, Read;
    var n := |rows| - 1;
    var before, last := rows[..n], rows[n];
    assert forall i :: 0 <= i < n ==> rows[i] == before[i];
    if last.execution && last.id in f {
      assert Names(before, last.id);
      var i :| 0 <= i < n && before[i].execution && before[i].id == last.id;
      assert f[last.id] == Read(before[i], account) == Read(rows[i], account) == Read(last, account);
    }
    NamesGrow(rows);
    hide Names;
    var g := Add(f, last, account).value;
    forall i | 0 <= i < |rows| && rows[i].execution
      ensures rows[i].id in g && g[rows[i].id] == Read(rows[i], account)
    {
      if i < n { assert f[before[i].id] == Read(before[i], account); }
    }
  }

  lemma NamesGrow(rows: seq<Row>)
    requires rows != []
    ensures forall t :: Names(rows[..|rows| - 1], t) ==> Names(rows, t)
    ensures rows[|rows| - 1].execution ==> Names(rows, rows[|rows| - 1].id)
  {
    var before := rows[..|rows| - 1];
    forall t | Names(before, t) ensures Names(rows, t) {
      var i :| 0 <= i < |before| && before[i].execution && before[i].id == t;
      assert rows[i] == before[i];
    }
  }

  lemma TakenRowsAreConsistent(rows: seq<Row>, f: File, account: string)
    requires rows != [] && Consistent(rows[..|rows| - 1], account) && HoldsRows(f, rows[..|rows| - 1], account)
    requires Add(f, rows[|rows| - 1], account).Ok?
    ensures Consistent(rows, account)
  {
    hide Refused, Read, Names;
    var n := |rows| - 1;
    var before := rows[..n];
    assert forall i :: 0 <= i < n ==> rows[i] == before[i];
    forall i | 0 <= i < n && rows[i].execution && rows[n].execution && rows[i].id == rows[n].id
      ensures Read(rows[i], account) == Read(rows[n], account)
    {
      assert f[before[i].id] == Read(before[i], account);
    }
  }

  /** An execution row is acceptable exactly when it is of the account, a USD stock execution with USD
      fees, opens or closes, has a side that fits the sign of its quantity, a positive price, no
      multiplier, correction or tax, all its identifiers, readable figures and a time. */
  lemma AcceptableIff(row: Row, account: string)
    ensures !Refused(row, account) <==>
      && row.account == account && row.category == "STK" && row.currency == "USD" && row.feeCurrency == "USD"
      && (row.openClose == "O" || row.openClose == "C")
      && row.quantity.Figure? && row.price.Figure? && row.price.value > 0.0
      && ((row.buySell == "BUY" && row.quantity.value > 0.0) || (row.buySell == "SELL" && row.quantity.value < 0.0))
      && (row.multiplier == Absent || row.multiplier == Figure(1.0)) && !row.correction
      && (row.taxes == Absent || row.taxes == Figure(0.0))
      && row.id != "" && row.order != "" && row.symbol != ""
      && row.commission.Figure? && !row.realized.Malformed? && row.time.Some?
  {
  }

  /** What is read of an acceptable row. */
  lemma ReadFigures(row: Row, account: string)
    requires !Refused(row, account)
    ensures var e := Read(row, account);
      && e.id == row.id && e.order == row.order && e.callback == row.callback && e.symbol == Upper(row.symbol)
      && (e.side == BUY <==> row.buySell == "BUY") && (e.closed <==> row.openClose == "C")
      && (e.quantity == row.quantity.value || e.quantity == -row.quantity.value) && e.quantity > 0.0
      && e.price == row.price.value && e.commission == row.commission.value && Some(e.time) == row.time
      && e.pnl == (if row.realized == Absent then None else Some(row.realized.value))
  {
  }

  lemma UpperMeans(s: string)
    ensures |Upper(s)| == |s|
    ensures forall i :: 0 <= i < |s| ==>
      if 'a' <= s[i] <= 'z' then Upper(s)[i] as int == s[i] as int - 32 else Upper(s)[i] == s[i]
  {
  }
}
