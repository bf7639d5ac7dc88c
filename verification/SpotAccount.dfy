/** The cash account that all three Spot simulators keep: entries, closes and the mark at
    the end of a bar, with the invariant that ties cash, P&L and drawdown together. */
module SpotAccount {
  import opened Wrappers
  import opened RealArith
  import opened PaperExecution
  import D = Drawdown

  datatype Rules = Rules(step: real, minimumQuantity: real, minimumNotional: real, maximumQuantity: real)

  /** The signal-exit baseline sets no levels: its `stop` and `target` are 0. */
  datatype Entry = Entry(index: int, price: real, fee: real, quantity: real, stop: real, target: real, route: string)

  datatype Trade = Trade(entry: Entry, exitIndex: int, exitPrice: real, pnl: real, exitFee: real, reason: string)

  /** The variables of a simulation loop. */
  datatype Sim = Sim(cash: real, quantity: real, entry: Option<Entry>, peak: real, drawdown: real,
                     trades: seq<Trade>, curve: seq<real>, blockers: multiset<string>)

  function Start(capital: real): Sim {
    Sim(capital, 0.0, None, capital, 0.0, [], [], multiset{})
  }

  function Notional(quantity: real, price: real): real {
    quantity * price
  }

  function Scale(amount: real, rate: real): real {
    amount * rate
  }

  function TradePnl(e: Entry, price: real, exitFee: real): real {
    e.quantity * (price - e.price) - e.fee - exitFee
  }

  ghost predicate ValidRules(r: Rules) {
    r.step > 0.0 && r.minimumQuantity >= 0.0 && r.minimumNotional > 0.0 && r.maximumQuantity > 0.0
  }

  // ------------------------------------------------------------ operations

  predicate Affordable(cash: real, units: real, price: real, fee: real, r: Rules) {
    && units > 0.0 && units >= r.minimumQuantity
    && Notional(units, price) >= r.minimumNotional
    && Notional(units, price) + Scale(Notional(units, price), fee) <= cash
  }

  function Block(s: Sim, why: string): Sim {
    s.(blockers := s.blockers + multiset{why})
  }

  function Enter(s: Sim, e: Entry): Sim {
    s.(cash := s.cash - (Notional(e.quantity, e.price) + e.fee), quantity := e.quantity, entry := Some(e))
  }

  /** Closes at `price`, slippage included, unless the lot is below the exchange minimum. */
  function Close(s: Sim, index: int, price: real, why: string, fee: real, r: Rules, dust: string): Sim
    requires s.entry.Some?
  {
    var notional := Notional(s.quantity, price);
    if notional < r.minimumNotional || s.quantity < r.minimumQuantity then Block(s, dust)
    else
      var exitFee := Scale(notional, fee);
      s.(cash := s.cash + (notional - exitFee), quantity := 0.0, entry := None,
         trades := s.trades + [Trade(s.entry.value, index, price, TradePnl(s.entry.value, price, exitFee), exitFee,
                                     why)])
  }

  function Equity(s: Sim, close: real): real {
    s.cash + Notional(s.quantity, close)
  }

  function Mark(s: Sim, close: real): Sim
    requires s.peak > 0.0
  {
    var equity := Equity(s, close);
    var peak := Max(s.peak, equity);
    s.(peak := peak, drawdown := Max(s.drawdown, D.Percent(peak, equity)), curve := s.curve + [equity])
  }

  // ------------------------------------------------------------- invariant

  ghost function SumPnl(trades: seq<Trade>): real {
    if trades == [] then 0.0 else SumPnl(trades[..|trades| - 1]) + trades[|trades| - 1].pnl
  }

  /** Cash is the capital plus closed P&L, less the cost and the fee of an open entry.  It is
      never negative, and positive whenever the account is flat. */
  ghost predicate Solvent(s: Sim, capital: real) {
    && (s.quantity > 0.0 <==> s.entry.Some?) && s.quantity >= 0.0
    && (s.entry.Some? ==> s.entry.value.quantity == s.quantity)
    && s.cash >= 0.0 && (s.entry == None ==> s.cash > 0.0)
    && s.cash == capital + SumPnl(s.trades)
         - (if s.entry.Some? then Notional(s.quantity, s.entry.value.price) + s.entry.value.fee else 0.0)
  }

  /** Peak and drawdown are those of the whole marked curve, starting from the capital. */
  ghost predicate Tracked(s: Sim, capital: real) {
    && s.peak > 0.0
    && D.IsPeak([capital] + s.curve, s.peak)
    && D.IsMaxFall([capital] + s.curve, s.drawdown)
    && (forall i :: 0 <= i < |s.curve| ==> s.curve[i] > 0.0)
  }

  ghost predicate Sound(s: Sim, capital: real) {
    Solvent(s, capital) && Tracked(s, capital)
  }

  lemma StartIsSound(capital: real)
    requires capital > 0.0
    ensures Sound(Start(capital), capital)
  {
    assert [capital] + Start(capital).curve == [capital];
    D.Baseline(capital);
  }

  lemma EnterIsSound(s: Sim, e: Entry, fee: real, r: Rules, capital: real)
    requires Sound(s, capital) && s.entry == None
    requires Affordable(s.cash, e.quantity, e.price, fee, r) && e.fee == Scale(Notional(e.quantity, e.price), fee)
    ensures Sound(Enter(s, e), capital)
  {
    hide Notional, Scale, D.IsPeak, D.IsMaxFall;
  }

  lemma KeepsShare(notional: real, fee: real)
    requires notional > 0.0 && 0.0 <= fee < 1.0
    ensures notional - Scale(notional, fee) > 0.0
  {
    assert notional - notional * fee == notional * (1.0 - fee);
  }

  lemma PnlSplits(e: Entry, price: real, exitFee: real)
    ensures TradePnl(e, price, exitFee) == Notional(e.quantity, price) - Notional(e.quantity, e.price) - e.fee - exitFee
  {
  }

  lemma CloseIsSound(s: Sim, index: int, price: real, why: string, fee: real, r: Rules, dust: string, capital: real)
    requires Sound(s, capital) && s.entry.Some? && ValidRules(r) && 0.0 <= fee < 1.0
    ensures Sound(Close(s, index, price, why, fee, r, dust), capital)
  {
    hide Notional, Scale, TradePnl, D.IsPeak, D.IsMaxFall;
    var c := Close(s, index, price, why, fee, r, dust);
    var notional := Notional(s.quantity, price);
    if c.entry == None {
      KeepsShare(notional, fee);
      PnlSplits(s.entry.value, price, Scale(notional, fee));
      assert c.trades[..|c.trades| - 1] == s.trades;
    }
  }

  lemma EquityIsPositive(s: Sim, close: real, capital: real)
    requires Solvent(s, capital) && close > 0.0
    ensures Equity(s, close) > 0.0
  {
    if s.entry.Some? { assert Notional(s.quantity, close) > 0.0; }
  }

  lemma MarkIsSound(s: Sim, close: real, capital: real)
    requires Sound(s, capital) && close > 0.0
    ensures Sound(Mark(s, close), capital)
  {
    hide Equity, D.IsPeak, D.IsMaxFall, D.Percent, Notional;
    var equity := Equity(s, close);
    EquityIsPositive(s, close, capital);
    var curve := [capital] + s.curve;
    D.PeakExtends(curve, s.peak, equity);
    D.FallExtends(curve, s.peak, s.drawdown, equity);
    assert curve + [equity] == [capital] + Mark(s, close).curve;
  }

  /** The marked equity of a sound account: capital, closed P&L, and the open lot marked
      against its entry price, less its entry fee. */
  lemma EquityIsAccounted(s: Sim, close: real, capital: real)
    requires Sound(s, capital)
    ensures Equity(s, close) == capital + SumPnl(s.trades)
      + (if s.entry.Some? then Notional(s.quantity, close - s.entry.value.price) - s.entry.value.fee else 0.0)
  {
    if s.entry.Some? {
      assert Notional(s.quantity, close - s.entry.value.price)
          == Notional(s.quantity, close) - Notional(s.quantity, s.entry.value.price);
    } else {
      assert Notional(s.quantity, close) == 0.0;
    }
  }

  // ------------------------------------------- the same account, in place

  /** The loop variables of a simulator and its nested `close`. */
  class Account {
    var cash: real
    var quantity: real
    var entry: Option<Entry>
    var peak: real
    var drawdown: real
    var trades: seq<Trade>
    var curve: seq<real>
    var blockers: multiset<string>

    function View(): Sim
      reads this
    {
      Sim(cash, quantity, entry, peak, drawdown, trades, curve, blockers)
    }

    constructor (capital: real)
      ensures View() == Start(capital)
    {
      cash, quantity, entry, peak, drawdown := capital, 0.0, None, capital, 0.0;
      trades, curve, blockers := [], [], multiset{};
    }

    method Refuse(why: string)
      modifies this
      ensures View() == Block(old(View()), why)
    {
      blockers := blockers + multiset{why};
    }

    method Buy(e: Entry)
      modifies this
      ensures View() == Enter(old(View()), e)
    {
      cash := cash - (Notional(e.quantity, e.price) + e.fee);
      quantity := e.quantity;
      entry := Some(e);
    }

    method Sell(index: int, price: real, why: string, fee: real, r: Rules, dust: string)
      requires entry.Some?
      modifies this
      ensures View() == Close(old(View()), index, price, why, fee, r, dust)
    {
      var notional := Notional(quantity, price);
      if notional < r.minimumNotional || quantity < r.minimumQuantity {
        blockers := blockers + multiset{dust};
        return;
      }
      var exitFee := Scale(notional, fee);
      var pnl := TradePnl(entry.value, price, exitFee);
      cash := cash + (notional - exitFee);
      trades := trades + [Trade(entry.value, index, price, pnl, exitFee, why)];
      quantity, entry := 0.0, None;
    }

    method MarkClose(close: real)
      requires peak > 0.0
      modifies this
      ensures View() == Mark(old(View()), close)
    {
      var equity := cash + Notional(quantity, close);
      peak := Max(peak, equity);
      drawdown := Max(drawdown, (peak - equity) / peak * 100.0);
      curve := curve + [equity];
    }
  }
}
