/**
 * The realised profit/loss of one trade, resolved from the form's fields by a
 * first-match-wins priority: break-even, then a manual figure, then the
 * figure computed from entry and exit prices, else nothing.
 */
module ProfitLoss {

  /** Below this magnitude a figure is treated as zero (the page's 1e-9). */
  const Epsilon: real := 0.000000001

  const BreakEven: string := "BE"
  const Buy: string := "BUY"

  function Abs(x: real): (r: real)
    ensures r >= 0.0 && (r == x || r == -x)
  {
    if x < 0.0 then -x else x
  }

  /**
   * One submission of the trade form. Prices of 0 mean "not filled in";
   * `manualPL` of 0 means "compute it for me". Date and time arrive already
   * formatted as text.
   */
  datatype TradeForm = TradeForm(
    pair: string,
    time: string,
    date: string,
    buySell: string,
    entry: real,
    exit: real,
    lot: real,
    stopLoss: real,
    takeProfit1: real,
    takeProfit2: real,
    status: string,
    manualPL: real,
    note: string,
    shotBefore: string,
    shotAfter: string)

  /** +1 for a BUY; every other choice counts as a SELL, -1. */
  function DirectionSign(buySell: string): (sign: real)
    ensures sign == 1.0 || sign == -1.0
    ensures sign == 1.0 <==> buySell == Buy
  {
    if buySell == Buy then 1.0 else -1.0
  }

  predicate IsManual(f: TradeForm) {
    Abs(f.manualPL) > Epsilon
  }

  predicate PricesSet(f: TradeForm) {
    f.entry != 0.0 && f.exit != 0.0
  }

  /** Price move times position size times the per-lot multiplier, signed by direction. */
  function PriceMovePL(f: TradeForm, multiplier: real): real {
    (f.exit - f.entry) * f.lot * multiplier * DirectionSign(f.buySell)
  }

  /** The P/L recorded for a submitted trade. */
  function ResolvePL(f: TradeForm, multiplier: real): (r: real)
    ensures r == 0.0 || r == f.manualPL || r == PriceMovePL(f, multiplier)
    ensures r != 0.0 ==> f.status != BreakEven && (IsManual(f) || PricesSet(f))
  {
    if f.status == BreakEven then 0.0
    else if IsManual(f) then f.manualPL
    else if PricesSet(f) then PriceMovePL(f, multiplier)
    else 0.0
  }

  lemma BreakEvenIsZero(f: TradeForm, multiplier: real)
    requires f.status == BreakEven
    ensures ResolvePL(f, multiplier) == 0.0
  {
  }

  lemma ManualOverrideWins(f: TradeForm, multiplier: real)
    requires f.status != BreakEven && Abs(f.manualPL) > Epsilon
    ensures ResolvePL(f, multiplier) == f.manualPL
  {
  }

  lemma ComputedFromPrices(f: TradeForm, multiplier: real)
    requires f.status != BreakEven && Abs(f.manualPL) <= Epsilon
    requires f.entry != 0.0 && f.exit != 0.0
    ensures ResolvePL(f, multiplier) == (f.exit - f.entry) * f.lot * multiplier * DirectionSign(f.buySell)
  {
  }

  lemma UnsetPriceIsZero(f: TradeForm, multiplier: real)
    requires f.status != BreakEven && Abs(f.manualPL) <= Epsilon
    requires f.entry == 0.0 || f.exit == 0.0
    ensures ResolvePL(f, multiplier) == 0.0
  {
  }

  /** With no override in force, a SELL books exactly the negation of a BUY. */
  lemma SellNegatesBuy(f: TradeForm, multiplier: real)
    requires f.status != BreakEven && Abs(f.manualPL) <= Epsilon
    ensures ResolvePL(f.(buySell := "SELL"), multiplier) == -ResolvePL(f.(buySell := Buy), multiplier)
  {
    var buy, sell := f.(buySell := Buy), f.(buySell := "SELL");
    assert DirectionSign(sell.buySell) == -1.0;
  }

  /** An override (break-even or manual) makes the multiplier and prices irrelevant. */
  lemma OverrideIgnoresPrices(f: TradeForm, g: TradeForm, m1: real, m2: real)
    requires f.status == g.status && f.manualPL == g.manualPL
    requires f.status == BreakEven || Abs(f.manualPL) > Epsilon
    ensures ResolvePL(f, m1) == ResolvePL(g, m2)
  {
  }

  /** A candidate rule of the priority list: whether it fires, and the P/L it gives. */
  datatype Rule = Rule(fires: bool, pl: real)

  /** The value of the first rule that fires, else `fallback`. */
  function FirstMatch(rules: seq<Rule>, fallback: real): (r: real)
    ensures (forall i :: 0 <= i < |rules| ==> !rules[i].fires) ==> r == fallback
    ensures forall i :: 0 <= i < |rules| && rules[i].fires && (forall j :: 0 <= j < i ==> !rules[j].fires) ==> r == rules[i].pl
  {
    if rules == [] then fallback
    else if rules[0].fires then rules[0].pl
    else
      var r := FirstMatch(rules[1..], fallback);
      assert forall i :: 1 <= i < |rules| ==> rules[i] == rules[1..][i - 1];
      r
  }

  /** The priority list as the page's own comment orders it. */
  function PriorityRules(f: TradeForm, multiplier: real): seq<Rule> {
    [ Rule(f.status == BreakEven, 0.0),
      Rule(IsManual(f), f.manualPL),
      Rule(PricesSet(f), PriceMovePL(f, multiplier)) ]
  }

  /** ResolvePL is the first-match-wins reading of the priority list, with 0 as the fallback. */
  lemma ResolveIsFirstMatch(f: TradeForm, multiplier: real)
    ensures ResolvePL(f, multiplier) == FirstMatch(PriorityRules(f, multiplier), 0.0)
  {
    var rules := PriorityRules(f, multiplier);
    assert FirstMatch(rules[2..], 0.0) == if PricesSet(f) then PriceMovePL(f, multiplier) else 0.0 by {
      assert rules[2..][1..] == [];
    }
    assert FirstMatch(rules[1..], 0.0) == if IsManual(f) then f.manualPL else FirstMatch(rules[2..], 0.0) by {
      assert rules[1..][1..] == rules[2..];
    }
  }

  /** A BUY of 0.10 lot from 1900 to 1910 with multiplier 100 books 100. */
  lemma BuyExample(f: TradeForm)
    requires f.buySell == Buy && f.entry == 1900.0 && f.exit == 1910.0 && f.lot == 0.10
    requires f.manualPL == 0.0 && f.status != BreakEven
    ensures ResolvePL(f, 100.0) == 100.0
  {
  }

  /** The same trade as a SELL books -100. */
  lemma SellExample(f: TradeForm)
    requires f.buySell == "SELL" && f.entry == 1900.0 && f.exit == 1910.0 && f.lot == 0.10
    requires f.manualPL == 0.0 && f.status != BreakEven
    ensures ResolvePL(f, 100.0) == -100.0
  {
  }
}
