/**
  core/pnl.py: notional profit and loss of the approved cycles. Floats are reals; displayed figures are not rounded.
 */
module Pnl {
  import opened Prelude

  /** A cycle record as the code reads it: absent fields are "" and 0. */
  datatype Cycle = Cycle(action: string, symbol: string, price: real)

  type PriceMap = map<string, real>

  /** `prices.get(symbol)`, where 0 is as good as absent. */
  function Quoted(prices: PriceMap, symbol: string): Option<real>
  {
    if symbol in prices && prices[symbol] != 0.0 then Some(prices[symbol]) else None
  }

  function EthNow(prices: PriceMap): real
  {
    if Quoted(prices, "ETH").Some? then Quoted(prices, "ETH").value
    else if Quoted(prices, "WETH").Some? then Quoted(prices, "WETH").value
    else 0.0
  }

  function Symbol(c: Cycle): string
  {
    if c.symbol == "" then "ETH" else c.symbol
  }

  predicate IsBuy(c: Cycle) { Lower(c.action) == "buy" }

  predicate IsSell(c: Cycle) { Lower(c.action) == "sell" }

  /** The cycles that count: approved, with a usable entry price. */
  predicate Counts(c: Cycle)
  {
    (IsBuy(c) || IsSell(c)) && c.price > 0.0
  }

  const CLAMP := 0.000000001

  function Clamped(entry: real): real
  {
    if entry >= CLAMP then entry else CLAMP
  }

  /** The position's size in units of its input token. */
  function SizeOf(symbol: string, entry: real, ethNow: real, commitment: real): real
  {
    if symbol == "cbBTC" && ethNow > 0.0 then commitment * (ethNow / Clamped(entry)) else commitment
  }

  /** What the sums need to know of a counted cycle. */
  datatype Position = Position(sell: bool, entry: real, current: real, size: real)
  {
    function Invested(): real { entry * size }

    /** A sell is a short: its worth mirrors the price at the entry. */
    function ValueNow(): real
      requires entry != 0.0
    {
      if sell then Invested() * (2.0 - current / entry) else current * size
    }

    function Profit(): real
      requires entry != 0.0
    {
      ValueNow() - Invested()
    }

    /** `_signed_return` */
    function Return(): real
    {
      if entry <= 0.0 then 0.0 else if sell then -((current - entry) / entry) else (current - entry) / entry
    }

    /** The price has strictly moved the predicted way. */
    predicate Wins() { if sell then current < entry else current > entry }
  }

  function CurrentPrice(c: Cycle, prices: PriceMap): real
  {
    if Quoted(prices, Symbol(c)).Some? then Quoted(prices, Symbol(c)).value else c.price
  }

  function PositionOf(c: Cycle, prices: PriceMap, commitment: real): Position
  {
    Position(IsSell(c), c.price, CurrentPrice(c, prices), SizeOf(Symbol(c), c.price, EthNow(prices), commitment))
  }

  /** One element of `per_cycle_pnl`: what went in, what it is worth now, its signed return, and whether it won. */
  datatype Line = Line(invested: real, value: real, ret: real, wins: bool)
  {
    function Profit(): real { value - invested }
  }

  function LineOf(c: Cycle, prices: PriceMap, commitment: real): Line
    requires Counts(c)
  {
    LineFor(PositionOf(c, prices, commitment))
  }

  function LineFor(p: Position): Line
    requires p.entry != 0.0
  {
    Line(p.Invested(), p.ValueNow(), p.Return(), p.Wins())
  }

  /** The lines of the cycles that count, in order. */
  function Lines(results: seq<Cycle>, prices: PriceMap, commitment: real): seq<Line>
  {
    if results == [] then []
    else
      var c := results[|results| - 1];
      Lines(results[..|results| - 1], prices, commitment) + if Counts(c) then [LineOf(c, prices, commitment)] else []
  }

  function Sum(xs: seq<real>): real
  {
    if xs == [] then 0.0 else Sum(xs[..|xs| - 1]) + xs[|xs| - 1]
  }

  function Investments(ls: seq<Line>): (xs: seq<real>)
    ensures |xs| == |ls| && forall i | 0 <= i < |ls| :: xs[i] == ls[i].invested
  {
    seq(|ls|, i requires 0 <= i < |ls| => ls[i].invested)
  }

  function Profits(ls: seq<Line>): (xs: seq<real>)
    ensures |xs| == |ls| && forall i | 0 <= i < |ls| :: xs[i] == ls[i].Profit()
  {
    seq(|ls|, i requires 0 <= i < |ls| => ls[i].Profit())
  }

  function TotalInvested(ls: seq<Line>): real
  {
    Sum(Investments(ls))
  }

  function TotalProfit(ls: seq<Line>): real
  {
    Sum(Profits(ls))
  }

  function WinCount(ls: seq<Line>): nat
  {
    if ls == [] then 0 else WinCount(ls[..|ls| - 1]) + if ls[|ls| - 1].wins then 1 else 0
  }

  /** `cycles_won`: the cycles now worth more than what went in. */
  function GainCount(ls: seq<Line>): nat
  {
    if ls == [] then 0 else GainCount(ls[..|ls| - 1]) + if ls[|ls| - 1].Profit() > 0.0 then 1 else 0
  }

  predicate Beats(greatest: bool, a: real, b: real)
  {
    if greatest then a > b else a < b
  }

  /** The first line with the greatest profit (or the least), as `max` and `min` pick it. */
  ghost predicate FirstExtreme(ls: seq<Line>, greatest: bool, k: nat)
  {
    && k < |ls|
    && (forall i | 0 <= i < |ls| :: !Beats(greatest, ls[i].Profit(), ls[k].Profit()))
    && (forall i | 0 <= i < k :: ls[i].Profit() != ls[k].Profit())
  }

  /** Rates are fractions here, not percentages. */
  datatype Summary = Summary(
    total: nat,
    approved: nat,
    won: nat,
    winRate: real,
    notionalIn: real,
    notionalNow: real,
    netFraction: real,
    best: Option<Line>,
    worst: Option<Line>)
  {
    function Net(): real { notionalNow - notionalIn }
  }

  method Extreme(ls: seq<Line>, greatest: bool) returns (k: nat)
    requires ls != []
    ensures FirstExtreme(ls, greatest, k)
  {
    k := 0;
    for i := 1 to |ls|
      invariant k < i
      invariant forall j | 0 <= j < i :: !Beats(greatest, ls[j].Profit(), ls[k].Profit())
      invariant forall j | 0 <= j < k :: ls[j].Profit() != ls[k].Profit()
    {
      if Beats(greatest, ls[i].Profit(), ls[k].Profit()) { k := i; }
    }
  }

  /** The best and the worst line are the first extremes; there is none if nothing counts. */
  ghost predicate ExtremesReported(s: Summary, ls: seq<Line>)
  {
    if ls == [] then s.best == None && s.worst == None
    else
      && (exists b: nat :: FirstExtreme(ls, true, b) && s.best == Some(ls[b]))
      && (exists w: nat :: FirstExtreme(ls, false, w) && s.worst == Some(ls[w]))
  }

  /** The part as a fraction of the whole; 0 of nothing. */
  ghost predicate IsRate(rate: real, part: real, whole: real)
  {
    if whole == 0.0 then rate == 0.0 else rate * whole == part
  }

  method Rate(part: real, whole: real) returns (rate: real)
    ensures IsRate(rate, part, whole)
  {
    rate := if whole == 0.0 then 0.0 else part / whole;
  }

  /** `compute_pnl` */
  method ComputePnl(results: seq<Cycle>, prices: PriceMap, commitment: real) returns (s: Summary)
    ensures
      var ls := Lines(results, prices, commitment);
      && s.total == |results| && s.approved == |ls|
      && s.won == GainCount(ls)
      && (commitment > 0.0 ==> s.won == WinCount(ls) == |WonCycles(results, prices)|)
      && IsRate(s.winRate, s.won as real, s.approved as real)
      && IsRate(s.netFraction, s.Net(), s.notionalIn)
      && s.notionalIn == TotalInvested(ls)
      && s.Net() == TotalProfit(ls)
      && ExtremesReported(s, ls)
  {
    var ls: seq<Line> := [];
    var won, notionalIn, notionalNow := 0, 0.0, 0.0;
    for i := 0 to |results|
      invariant ls == Lines(results[..i], prices, commitment)
      invariant won == GainCount(ls)
      invariant notionalIn == TotalInvested(ls)
      invariant notionalNow - notionalIn == TotalProfit(ls)
    {
      var c := results[i];
      LinesStep(results, i, prices, commitment);
      if Counts(c) {
        var line := LineOf(c, prices, commitment);
        OneMore(ls, line);
        ls := ls + [line];
        notionalIn := notionalIn + line.invested;
        notionalNow := notionalNow + line.value;
        if line.value - line.invested > 0.0 { won := won + 1; }
      }
    }
    assert results[..|results|] == results;
    if commitment > 0.0 {
      WinsCounted(results, prices, commitment);
      WonCyclesCounted(results, prices, commitment);
    }
    var winRate := Rate(won as real, |ls| as real);
    var netFraction := Rate(notionalNow - notionalIn, notionalIn);
    s := Summary(|results|, |ls|, won, winRate, notionalIn, notionalNow, netFraction, None, None);
    if ls != [] {
      var b := Extreme(ls, true);
      var w := Extreme(ls, false);
      s := s.(best := Some(ls[b]), worst := Some(ls[w]));
    }
  }

  // ---- Sums ----

  lemma LinesStep(results: seq<Cycle>, i: nat, prices: PriceMap, commitment: real)
    requires i < |results|
    ensures Lines(results[..i + 1], prices, commitment) ==
            Lines(results[..i], prices, commitment) + if Counts(results[i]) then
                [LineOf(results[i], prices, commitment)] else []
  {
    assert results[..i + 1][..i] == results[..i];
  }

  lemma OneMore(ls: seq<Line>, l: Line)
    ensures TotalInvested(ls + [l]) == TotalInvested(ls) + l.invested
    ensures TotalProfit(ls + [l]) == TotalProfit(ls) + l.Profit()
    ensures GainCount(ls + [l]) == GainCount(ls) + if l.Profit() > 0.0 then 1 else 0
  {
    assert (ls + [l])[..|ls|] == ls;
    assert Investments(ls + [l]) == Investments(ls) + [l.invested];
    assert Profits(ls + [l]) == Profits(ls) + [l.Profit()];
    SumMore(Investments(ls), l.invested);
    SumMore(Profits(ls), l.Profit());
  }

  lemma SumMore(xs: seq<real>, x: real)
    ensures Sum(xs + [x]) == Sum(xs) + x
  {
    assert (xs + [x])[..|xs|] == xs;
  }

  ghost predicate Adds(rel: (real, real) -> bool, a: real, b: real, x: real, y: real)
  {
    rel(a, b) && rel(x, y) ==> rel(a + x, b + y)
  }

  /** A relation between amounts that holds of sums when it holds of their terms. */
  ghost predicate Additive(rel: (real, real) -> bool)
  {
    rel(0.0, 0.0) && forall a, b, x, y :: Adds(rel, a, b, x, y)
  }

  lemma {:induction false} RelatedSums(xs: seq<real>, ys: seq<real>, rel: (real, real) -> bool)
    requires Additive(rel) && |xs| == |ys| && forall i | 0 <= i < |xs| :: rel(xs[i], ys[i])
    ensures rel(Sum(xs), Sum(ys))
  {
    if xs != [] {
      var n := |xs| - 1;
      RelatedSums(xs[..n], ys[..n], rel);
      assert Adds(rel, Sum(xs[..n]), Sum(ys[..n]), xs[n], ys[n]);
    }
  }

  /** The second amount lies between lo and hi times the first. */
  ghost function Within(lo: real, hi: real): (real, real) -> bool
  {
    (x: real, y: real) => lo * x <= y <= hi * x
  }

  lemma WithinIsAdditive(lo: real, hi: real)
    ensures Additive(Within(lo, hi))
  {
    forall a, b, x, y
      ensures Adds(Within(lo, hi), a, b, x, y)
    {
      Distribute(lo, a, x);
      Distribute(hi, a, x);
    }
  }

  lemma SumWithin(xs: seq<real>, ys: seq<real>, lo: real, hi: real)
    requires |xs| == |ys| && forall i | 0 <= i < |xs| :: Within(lo, hi)(xs[i], ys[i])
    ensures Within(lo, hi)(Sum(xs), Sum(ys))
  {
    WithinIsAdditive(lo, hi);
    RelatedSums(xs, ys, Within(lo, hi));
  }

  /** The second amount is k times the first. */
  ghost function ScaledBy(k: real): (real, real) -> bool
  {
    (x: real, y: real) => y == k * x
  }

  lemma ScaledByIsAdditive(k: real)
    ensures Additive(ScaledBy(k))
  {
    forall a, b, x, y
      ensures Adds(ScaledBy(k), a, b, x, y)
    {
      Distribute(k, a, x);
    }
  }

  // ---- One position ----

  /** The two formulas for a position's worth agree with the one formula for its return, for buys and for sells. */
  lemma {:induction false} ProfitIsReturn(p: Position)
    requires p.entry > 0.0
    ensures p.Profit() == p.Invested() * p.Return()
  {}

  lemma {:induction false} Distribute(v: real, a: real, b: real)
    ensures v * (a + b) == v * a + v * b
  {}

  /** Profit is what was invested times the signed return, and a cycle is won exactly when it is positive. */
  ghost predicate SoundLine(l: Line)
  {
    l.invested > 0.0 && l.Profit() == l.invested * l.ret && (l.Profit() > 0.0 <==> l.wins)
  }

  lemma PositionIsSound(p: Position)
    requires p.entry > 0.0 && p.size > 0.0
    ensures SoundLine(LineFor(p))
  {
    ProfitIsReturn(p);
    Product(p.entry, p.size);
    Product(p.Invested(), p.Return());
    var q := (p.current - p.entry) / p.entry;
    Product(p.entry, q);
    assert p.entry * q == p.current - p.entry;
  }

  lemma Product(a: real, b: real)
    requires a > 0.0
    ensures a * b > 0.0 <==> b > 0.0
    ensures a * b < 0.0 <==> b < 0.0
  {}

  lemma SizeIsPositive(symbol: string, entry: real, ethNow: real, commitment: real)
    requires commitment > 0.0
    ensures SizeOf(symbol, entry, ethNow, commitment) > 0.0
  {
    var d := Clamped(entry);
    var q := ethNow / d;
    assert d * q == ethNow;
    Product(d, q);
    Product(commitment, q);
  }

  lemma LineIsSound(c: Cycle, prices: PriceMap, commitment: real)
    requires Counts(c) && commitment > 0.0
    ensures SoundLine(LineOf(c, prices, commitment))
  {
    SizeIsPositive(Symbol(c), c.price, EthNow(prices), commitment);
    PositionIsSound(PositionOf(c, prices, commitment));
  }

  // ---- What a line says, in terms of the cycle and the prices ----

  function TokenOf(c: Cycle): string
  {
    if c.symbol == "" then "ETH" else c.symbol
  }

  /** The price map has a usable price for the token: present and not 0. */
  predicate HasQuote(prices: PriceMap, token: string)
  {
    token in prices && prices[token] != 0.0
  }

  /** The ETH price now: that of ETH, else that of WETH, else 0. */
  ghost predicate EthPriceIs(prices: PriceMap, eth: real)
  {
    if HasQuote(prices, "ETH") then eth == prices["ETH"]
    else if HasQuote(prices, "WETH") then eth == prices["WETH"]
    else eth == 0.0
  }

  /**
    The size is the commitment; for cbBTC, if ETH has a positive price, it is worth that much ETH at the entry price.
   */
  ghost predicate SizeIs(c: Cycle, eth: real, commitment: real, size: real)
  {
    if TokenOf(c) == "cbBTC" && eth > 0.0 then
      size * (if c.price >= 0.000000001 then c.price else 0.000000001) == commitment * eth
    else size == commitment
  }

  lemma SizeIsTheSize(c: Cycle, prices: PriceMap, commitment: real, eth: real, size: real)
    requires EthPriceIs(prices, eth) && SizeIs(c, eth, commitment, size)
    ensures PositionOf(c, prices, commitment).size == size
  {
    assert EthNow(prices) == eth;
    if TokenOf(c) == "cbBTC" && eth > 0.0 {
      QuotientTimes(commitment, eth, Clamped(c.price), size);
    }
  }

  lemma QuotientTimes(a: real, b: real, d: real, x: real)
    requires d > 0.0 && x * d == a * b
    ensures a * (b / d) == x
  {
    var q := b / d;
    assert q * d == b;
    assert (a * q) * d == a * b;
    Cancel(a * q, x, d);
  }

  lemma Cancel(x: real, y: real, d: real)
    requires d > 0.0 && x * d == y * d
    ensures x == y
  {}

  /** The price has strictly moved the predicted way. */
  predicate Moved(c: Cycle, prices: PriceMap)
  {
    HasQuote(prices, TokenOf(c)) &&
    if Lower(c.action) == "sell" then prices[TokenOf(c)] < c.price else prices[TokenOf(c)] > c.price
  }

  lemma PositionMeaning(p: Position)
    requires p.entry > 0.0
    ensures
      var move := if p.sell then p.entry - p.current else p.current - p.entry;
      p.Profit() == p.size * move && p.Return() * p.entry == move && p.Invested() == p.entry * p.size
  {
    var q := p.current / p.entry;
    assert q * p.entry == p.current;
    ProfitIsReturn(p);
    var r := (p.current - p.entry) / p.entry;
    assert r * p.entry == p.current - p.entry;
    MoveBySize(p.entry, p.size, p.Return(), if p.sell then p.entry - p.current else p.current - p.entry);
  }

  lemma MoveBySize(entry: real, size: real, ret: real, move: real)
    requires ret * entry == move
    ensures (entry * size) * ret == size * move
  {}

  /**
    What a counted cycle put in, what it gained and whether it won: with a quote q of its token the gain is size times
    the move from the entry price to q, the other way round for a sell; without one nothing has moved.
   */
  lemma LineMeaning(c: Cycle, prices: PriceMap, commitment: real, eth: real, size: real)
    requires Counts(c) && EthPriceIs(prices, eth) && SizeIs(c, eth, commitment, size)
    ensures
      var l := LineOf(c, prices, commitment);
      var q := if HasQuote(prices, TokenOf(c)) then prices[TokenOf(c)] else c.price;
      var move := if Lower(c.action) == "sell" then c.price - q else q - c.price;
      && l.invested == c.price * size && l.Profit() == size * move && l.ret * c.price == move
      && (l.wins <==> Moved(c, prices))
  {
    SizeIsTheSize(c, prices, commitment, eth, size);
    PositionMeaning(PositionOf(c, prices, commitment));
  }

  /** Without a quote of its token a cycle gains nothing. */
  lemma UnquotedGainsNothing(c: Cycle, prices: PriceMap, commitment: real)
    requires Counts(c) && !HasQuote(prices, TokenOf(c))
    ensures LineOf(c, prices, commitment).Profit() == 0.0 && !LineOf(c, prices, commitment).wins
  {
    var p := PositionOf(c, prices, commitment);
    PositionMeaning(p);
  }

  /** A cycle counts exactly if it bought or sold, in whatever case of letters, at a positive price. */
  lemma CountsIff(c: Cycle)
    ensures Counts(c) <==> Lower(c.action) in {"buy", "sell"} && c.price > 0.0
  {}

  /** Which of the results count. */
  ghost function Counting(results: seq<Cycle>): nat -> bool
  {
    (k: nat) => k < |results| && Counts(results[k])
  }

  ghost predicate LinesAt(results: seq<Cycle>, ls: seq<Line>, places: seq<nat>, prices: PriceMap, commitment: real)
  {
    && |ls| == |places|
    && forall i | 0 <= i < |places| ::
         places[i] < |results| && Counts(results[places[i]]) && ls[i] == LineOf(results[places[i]], prices, commitment)
  }

  lemma LinesAtMore(results: seq<Cycle>, ls: seq<Line>, places: seq<nat>, n: nat, prices: PriceMap, commitment: real)
    requires LinesAt(results, ls, places, prices, commitment) && n < |results| && Counts(results[n])
    ensures LinesAt(results, ls + [LineOf(results[n], prices, commitment)], places + [n], prices, commitment)
  {}

  lemma {:induction false} FirstLinesAreInOrder(results: seq<Cycle>, n: nat, prices: PriceMap, commitment: real)
    returns (places: seq<nat>)
    requires n <= |results|
    ensures Kept(n, Counting(results), places)
    ensures LinesAt(results, Lines(results[..n], prices, commitment), places, prices, commitment)
  {
    if n == 0 {
      places := [];
    } else {
      places := FirstLinesAreInOrder(results, n - 1, prices, commitment);
      var before := Lines(results[..n - 1], prices, commitment);
      LinesStep(results, n - 1, prices, commitment);
      KeptStep(n - 1, Counting(results), places);
      if Counts(results[n - 1]) {
        LinesAtMore(results, before, places, n - 1, prices, commitment);
        places := places + [n - 1];
      } else {
        assert before + [] == before && places + [] == places;
      }
    }
  }

  /** The lines are those of the cycles that count, in order, each once. */
  lemma LinesAreInOrder(results: seq<Cycle>, prices: PriceMap, commitment: real) returns (places: seq<nat>)
    ensures Kept(|results|, Counting(results), places)
    ensures LinesAt(results, Lines(results, prices, commitment), places, prices, commitment)
  {
    places := FirstLinesAreInOrder(results, |results|, prices, commitment);
    assert results[..|results|] == results;
  }

  /** The cycles that count and whose price strictly moved the predicted way. */
  function WonCycles(results: seq<Cycle>, prices: PriceMap): set<nat>
  {
    set k: nat | k < |results| && Counts(results[k]) && Moved(results[k], prices)
  }

  /** The wins are counted by the number of those cycles. */
  lemma {:induction false} WonCyclesCounted(results: seq<Cycle>, prices: PriceMap, commitment: real)
    ensures WinCount(Lines(results, prices, commitment)) == |WonCycles(results, prices)|
  {
    if results == [] {
      assert WonCycles(results, prices) == {};
    } else {
      var n := |results| - 1;
      var before, c := results[..n], results[n];
      WonCyclesCounted(before, prices, commitment);
      WonStep(results, prices);
      LinesStep(results, n, prices, commitment);
      assert results[..n + 1] == results;
      if Counts(c) {
        WinsAreMoves(c, prices, commitment);
        WinsStep(Lines(before, prices, commitment), LineOf(c, prices, commitment));
      } else {
        assert Lines(before, prices, commitment) + [] == Lines(before, prices, commitment);
      }
    }
  }

  lemma WonStep(results: seq<Cycle>, prices: PriceMap)
    requires results != []
    ensures
      var n := |results| - 1;
      var won := Counts(results[n]) && Moved(results[n], prices);
      |WonCycles(results, prices)| == |WonCycles(results[..n], prices)| + if won then 1 else 0
  {
    var n := |results| - 1;
    var won := Counts(results[n]) && Moved(results[n], prices);
    assert WonCycles(results, prices) == WonCycles(results[..n], prices) + if won then {n} else {};
  }

  lemma WinsAreMoves(c: Cycle, prices: PriceMap, commitment: real)
    requires Counts(c)
    ensures LineOf(c, prices, commitment).wins <==> Moved(c, prices)
  {}

  lemma WinsStep(ls: seq<Line>, l: Line)
    ensures WinCount(ls + [l]) == WinCount(ls) + if l.wins then 1 else 0
  {
    assert (ls + [l])[..|ls|] == ls;
  }

  /** For every counted cycle of every result list. */
  lemma {:induction false} LinesAreSound(results: seq<Cycle>, prices: PriceMap, commitment: real)
    requires commitment > 0.0
    ensures forall i | 0 <= i < |Lines(results, prices, commitment)| :: SoundLine(Lines(results, prices, commitment)[i])
  {
    if results != [] {
      var c := results[|results| - 1];
      LinesAreSound(results[..|results| - 1], prices, commitment);
      if Counts(c) {
        LineIsSound(c, prices, commitment);
      }
    }
  }

  /** The cycles counted as won are exactly those whose price strictly moved the predicted way. */
  lemma {:induction false} WinsCounted(results: seq<Cycle>, prices: PriceMap, commitment: real)
    requires commitment > 0.0
    ensures GainCount(Lines(results, prices, commitment)) == WinCount(Lines(results, prices, commitment))
  {
    LinesAreSound(results, prices, commitment);
    SameCounts(Lines(results, prices, commitment));
  }

  lemma {:induction false} SameCounts(ls: seq<Line>)
    requires forall i | 0 <= i < |ls| :: SoundLine(ls[i])
    ensures GainCount(ls) == WinCount(ls)
  {
    if ls != [] {
      SameCounts(ls[..|ls| - 1]);
      assert SoundLine(ls[|ls| - 1]);
    }
  }

  // ---- The totals ----

  lemma Monotone(v: real, a: real, b: real)
    requires v > 0.0 && a <= b
    ensures a * v <= b * v
  {}

  lemma LineReturnsWithin(l: Line, lo: real, hi: real)
    requires SoundLine(l) && lo <= l.ret <= hi
    ensures Within(lo, hi)(l.invested, l.Profit())
  {
    Monotone(l.invested, lo, l.ret);
    Monotone(l.invested, l.ret, hi);
  }

  lemma {:induction false} SumPositive(xs: seq<real>)
    requires forall i | 0 <= i < |xs| :: xs[i] > 0.0
    ensures Sum(xs) >= 0.0 && (xs != [] ==> Sum(xs) > 0.0)
  {
    if xs != [] {
      SumPositive(xs[..|xs| - 1]);
    }
  }

  lemma InvestedPositive(ls: seq<Line>)
    requires ls != [] && forall i | 0 <= i < |ls| :: SoundLine(ls[i])
    ensures TotalInvested(ls) > 0.0
  {
    SumPositive(Investments(ls));
  }

  lemma AllReturnWithin(ls: seq<Line>, lo: real, hi: real)
    requires forall i | 0 <= i < |ls| :: SoundLine(ls[i]) && lo <= ls[i].ret <= hi
    ensures forall i | 0 <= i < |ls| :: Within(lo, hi)(Investments(ls)[i], Profits(ls)[i])
  {
    forall i | 0 <= i < |ls|
      ensures Within(lo, hi)(Investments(ls)[i], Profits(ls)[i])
    {
      LineReturnsWithin(ls[i], lo, hi);
    }
  }

  /** Net profit is a mean of the returns, weighted by what was invested. */
  lemma NetIsWeightedMean(ls: seq<Line>, lo: real, hi: real)
    requires forall i | 0 <= i < |ls| :: SoundLine(ls[i]) && lo <= ls[i].ret <= hi
    ensures Within(lo, hi)(TotalInvested(ls), TotalProfit(ls))
  {
    AllReturnWithin(ls, lo, hi);
    SumWithin(Investments(ls), Profits(ls), lo, hi);
  }

  lemma {:induction false} QuotientBounds(net: real, t: real, lo: real, hi: real)
    requires t > 0.0 && lo * t <= net <= hi * t
    ensures lo <= net / t <= hi
  {}

  /** The unrounded net fraction lies between the least and the greatest signed return of the counted cycles. */
  lemma {:induction false} NetFractionWithinReturns(ls: seq<Line>, lo: real, hi: real)
    requires ls != [] && forall i | 0 <= i < |ls| :: SoundLine(ls[i]) && lo <= ls[i].ret <= hi
    ensures TotalInvested(ls) > 0.0
    ensures lo <= TotalProfit(ls) / TotalInvested(ls) <= hi
  {
    NetIsWeightedMean(ls, lo, hi);
    InvestedPositive(ls);
    QuotientBounds(TotalProfit(ls), TotalInvested(ls), lo, hi);
  }

  /** The lines with the least and the greatest signed return. */
  lemma {:induction false} ReturnExtremes(ls: seq<Line>) returns (a: nat, b: nat)
    requires ls != []
    ensures a < |ls| && b < |ls| && forall i | 0 <= i < |ls| :: ls[a].ret <= ls[i].ret <= ls[b].ret
  {
    a, b := 0, 0;
    for n := 1 to |ls|
      invariant a < n && b < n && forall i | 0 <= i < n :: ls[a].ret <= ls[i].ret <= ls[b].ret
    {
      if ls[n].ret < ls[a].ret { a := n; }
      if ls[n].ret > ls[b].ret { b := n; }
    }
  }

  /** For every result list with a counted cycle the net fraction lies between its least and greatest signed return. */
  lemma {:induction false} FractionWithinReturns(results: seq<Cycle>, prices: PriceMap, commitment: real)
    returns (a: nat, b: nat)
    requires commitment > 0.0 && Lines(results, prices, commitment) != []
    ensures
      var ls := Lines(results, prices, commitment);
      && a < |ls| && b < |ls| && (forall i | 0 <= i < |ls| :: ls[a].ret <= ls[i].ret <= ls[b].ret)
      && TotalInvested(ls) > 0.0
      && ls[a].ret <= TotalProfit(ls) / TotalInvested(ls) <= ls[b].ret
  {
    var ls := Lines(results, prices, commitment);
    LinesAreSound(results, prices, commitment);
    a, b := ReturnExtremes(ls);
    NetFractionWithinReturns(ls, ls[a].ret, ls[b].ret);
  }

  /** n times the worst cycle <= net <= n times the best. */
  lemma {:induction false} NetWithinExtremes(ls: seq<Line>, worst: real, best: real)
    requires forall i | 0 <= i < |ls| :: worst <= ls[i].Profit() <= best
    ensures worst * |ls| as real <= TotalProfit(ls) <= best * |ls| as real
  {
    var ones := seq(|ls|, _ => 1.0);
    SumOfOnes(ones);
    SumWithin(ones, Profits(ls), worst, best);
  }

  lemma {:induction false} SumOfOnes(ones: seq<real>)
    requires forall i | 0 <= i < |ones| :: ones[i] == 1.0
    ensures Sum(ones) == |ones| as real
  {
    if ones != [] {
      SumOfOnes(ones[..|ones| - 1]);
    }
  }

  /** The lines reported as best and worst bound the net. */
  lemma {:induction false} ExtremesBound(ls: seq<Line>, b: nat, w: nat)
    requires FirstExtreme(ls, true, b) && FirstExtreme(ls, false, w)
    ensures ls[w].Profit() * |ls| as real <= TotalProfit(ls) <= ls[b].Profit() * |ls| as real
  {
    NetWithinExtremes(ls, ls[w].Profit(), ls[b].Profit());
  }

  // ---- Symmetries ----

  lemma {:induction false} LinesConcat(a: seq<Cycle>, b: seq<Cycle>, prices: PriceMap, commitment: real)
    ensures Lines(a + b, prices, commitment) == Lines(a, prices, commitment) + Lines(b, prices, commitment)
  {
    if b == [] {
      assert a + b == a;
    } else {
      assert (a + b)[..|a + b| - 1] == a + b[..|b| - 1];
      LinesConcat(a, b[..|b| - 1], prices, commitment);
    }
  }

  lemma {:induction false} SumConcat(xs: seq<real>, ys: seq<real>)
    ensures Sum(xs + ys) == Sum(xs) + Sum(ys)
  {
    if ys == [] {
      assert xs + ys == xs;
    } else {
      assert (xs + ys)[..|xs + ys| - 1] == xs + ys[..|ys| - 1];
      SumConcat(xs, ys[..|ys| - 1]);
    }
  }

  lemma {:induction false} WinsConcat(a: seq<Line>, b: seq<Line>)
    ensures WinCount(a + b) == WinCount(a) + WinCount(b)
  {
    if b == [] {
      assert a + b == a;
    } else {
      assert (a + b)[..|a + b| - 1] == a + b[..|b| - 1];
      WinsConcat(a, b[..|b| - 1]);
    }
  }

  lemma TotalsConcat(a: seq<Line>, b: seq<Line>)
    ensures TotalInvested(a + b) == TotalInvested(a) + TotalInvested(b)
    ensures TotalProfit(a + b) == TotalProfit(a) + TotalProfit(b)
  {
    assert Investments(a + b) == Investments(a) + Investments(b) && Profits(a + b) == Profits(a) + Profits(b);
    SumConcat(Investments(a), Investments(b));
    SumConcat(Profits(a), Profits(b));
  }

  /** Totals are additive over concatenation of the result lists. */
  lemma {:induction false} TotalsAdd(a: seq<Cycle>, b: seq<Cycle>, prices: PriceMap, commitment: real)
    ensures
      var la, lb, lab := Lines(a, prices, commitment), Lines(b, prices, commitment), Lines(a + b, prices, commitment);
      && |lab| == |la| + |lb|
      && TotalInvested(lab) == TotalInvested(la) + TotalInvested(lb)
      && TotalProfit(lab) == TotalProfit(la) + TotalProfit(lb)
      && WinCount(lab) == WinCount(la) + WinCount(lb)
  {
    LinesConcat(a, b, prices, commitment);
    TotalsConcat(Lines(a, prices, commitment), Lines(b, prices, commitment));
    WinsConcat(Lines(a, prices, commitment), Lines(b, prices, commitment));
  }

  /** The same cycle taken the other way. */
  function Flip(c: Cycle): Cycle
  {
    c.(action := if IsSell(c) then "buy" else if IsBuy(c) then "sell" else c.action)
  }

  function FlipAll(cs: seq<Cycle>): (f: seq<Cycle>)
    ensures |f| == |cs| && forall i | 0 <= i < |cs| :: f[i] == Flip(cs[i])
  {
    seq(|cs|, i requires 0 <= i < |cs| => Flip(cs[i]))
  }

  lemma {:induction false} FlipSwaps(c: Cycle)
    ensures IsSell(Flip(c)) == IsBuy(c) && IsBuy(Flip(c)) == IsSell(c)
    ensures !(IsSell(c) && IsBuy(c))
  {}

  /** The same investments with the opposite outcomes. */
  ghost predicate Mirrored(ls: seq<Line>, fs: seq<Line>)
  {
    |fs| == |ls| && forall i | 0 <= i < |ls| ::
      fs[i].invested == ls[i].invested && fs[i].Profit() == -ls[i].Profit() && fs[i].ret == -ls[i].ret
  }

  lemma OtherSide(p: Position)
    requires p.entry > 0.0
    ensures
      var q := p.(sell := !p.sell);
      q.Invested() == p.Invested() && q.Profit() == -p.Profit() && q.Return() == -p.Return()
  {
    ProfitIsReturn(p);
    ProfitIsReturn(p.(sell := !p.sell));
  }

  lemma FlippedLine(c: Cycle, prices: PriceMap, commitment: real)
    requires Counts(c)
    ensures Counts(Flip(c))
    ensures
      var l, f := LineOf(c, prices, commitment), LineOf(Flip(c), prices, commitment);
      f.invested == l.invested && f.Profit() == -l.Profit() && f.ret == -l.ret
  {
    FlipSwaps(c);
    OtherSide(PositionOf(c, prices, commitment));
  }

  lemma {:induction false} FlipMirrors(results: seq<Cycle>, prices: PriceMap, commitment: real)
    ensures Mirrored(Lines(results, prices, commitment), Lines(FlipAll(results), prices, commitment))
  {
    if results != [] {
      var n := |results| - 1;
      FlipMirrors(results[..n], prices, commitment);
      assert FlipAll(results)[..n] == FlipAll(results[..n]);
      FlipSwaps(results[n]);
      if Counts(results[n]) {
        FlippedLine(results[n], prices, commitment);
      }
    }
  }

  lemma {:induction false} MirroredSums(ls: seq<Line>, fs: seq<Line>)
    requires Mirrored(ls, fs)
    ensures TotalInvested(fs) == TotalInvested(ls)
    ensures TotalProfit(fs) == -TotalProfit(ls)
  {
    assert Investments(fs) == Investments(ls);
    RelatedSums(Profits(ls), Profits(fs), (x: real, y: real) => y == -x);
  }

  /** Swapping every buy and sell negates every profit, and so the net, and leaves what was invested alone. */
  lemma {:induction false} FlipNegatesTotals(results: seq<Cycle>, prices: PriceMap, commitment: real)
    ensures
      var ls, fs := Lines(results, prices, commitment), Lines(FlipAll(results), prices, commitment);
      Mirrored(ls, fs) && TotalInvested(fs) == TotalInvested(ls) && TotalProfit(fs) == -TotalProfit(ls)
  {
    FlipMirrors(results, prices, commitment);
    MirroredSums(Lines(results, prices, commitment), Lines(FlipAll(results), prices, commitment));
  }

  function ScaleCycle(c: Cycle, k: real): Cycle
  {
    c.(price := k * c.price)
  }

  function ScaleAll(cs: seq<Cycle>, k: real): (f: seq<Cycle>)
    ensures |f| == |cs| && forall i | 0 <= i < |cs| :: f[i] == ScaleCycle(cs[i], k)
  {
    seq(|cs|, i requires 0 <= i < |cs| => ScaleCycle(cs[i], k))
  }

  function ScalePrices(prices: PriceMap, k: real): PriceMap
  {
    map symbol | symbol in prices :: k * prices[symbol]
  }

  lemma {:induction false} ScaledEth(prices: PriceMap, k: real)
    requires k > 0.0
    ensures EthNow(ScalePrices(prices, k)) == k * EthNow(prices)
  {}

  lemma Ratio(a: real, b: real, k: real)
    requires k > 0.0 && b > 0.0
    ensures k * b > 0.0 && (k * a) / (k * b) == a / b
  {}

  /** The cbBTC rescaling by the ETH price cancels out. */
  lemma ScaledSize(symbol: string, entry: real, ethNow: real, commitment: real, k: real)
    requires k > 0.0 && entry >= CLAMP && k * entry >= CLAMP
    ensures SizeOf(symbol, k * entry, k * ethNow, commitment) == SizeOf(symbol, entry, ethNow, commitment)
  {
    Ratio(ethNow, entry, k);
    Product(k, ethNow);
  }

  lemma {:induction false} ScaledCurrent(c: Cycle, prices: PriceMap, k: real)
    requires k > 0.0
    ensures CurrentPrice(ScaleCycle(c, k), ScalePrices(prices, k)) == k * CurrentPrice(c, prices)
  {}

  lemma {:induction false} ScaledCounts(c: Cycle, k: real)
    requires k > 0.0
    ensures Counts(ScaleCycle(c, k)) <==> Counts(c)
    ensures IsSell(ScaleCycle(c, k)) == IsSell(c)
  {}

  lemma ScaledCycleAt(c: Cycle, prices: PriceMap, prices': PriceMap, commitment: real, k: real)
    requires k > 0.0 && c.price >= CLAMP && k * c.price >= CLAMP
    requires EthNow(prices') == k * EthNow(prices) && CurrentPrice(ScaleCycle(c, k), prices') ==
             k * CurrentPrice(c, prices)
    ensures PositionOf(ScaleCycle(c, k), prices', commitment) == Scaled(PositionOf(c, prices, commitment), k)
  {
    ScaledSize(Symbol(c), c.price, EthNow(prices), commitment, k);
    ScaledCounts(c, k);
  }

  lemma ScaledCycle(c: Cycle, prices: PriceMap, commitment: real, k: real)
    requires k > 0.0 && c.price >= CLAMP && k * c.price >= CLAMP
    ensures PositionOf(ScaleCycle(c, k), ScalePrices(prices, k), commitment) ==
            Scaled(PositionOf(c, prices, commitment), k)
  {
    ScaledEth(prices, k);
    ScaledCurrent(c, prices, k);
    ScaledCycleAt(c, prices, ScalePrices(prices, k), commitment, k);
  }

  function Scaled(p: Position, k: real): Position
  {
    p.(entry := k * p.entry, current := k * p.current)
  }

  /** The same outcomes in a currency k times smaller. */
  ghost predicate AllScaled(ls: seq<Line>, qs: seq<Line>, k: real)
  {
    |qs| == |ls| && forall i | 0 <= i < |ls| :: ScaledLine(ls[i], qs[i], k)
  }

  ghost predicate ScaledLine(l: Line, q: Line, k: real)
  {
    ScaledBy(k)(l.invested, q.invested) && ScaledBy(k)(l.Profit(), q.Profit()) && q.ret == l.ret && q.wins == l.wins
  }

  /** Entries stay above the clamp before and after scaling. */
  ghost predicate ClearOfClamp(results: seq<Cycle>, k: real)
  {
    forall i | 0 <= i < |results| && Counts(results[i]) :: results[i].price >= CLAMP && k * results[i].price >= CLAMP
  }

  lemma {:induction false} ScaledPositionLine(p: Position, k: real)
    requires k > 0.0 && p.entry > 0.0
    ensures Scaled(p, k).entry > 0.0 && ScaledLine(LineFor(p), LineFor(Scaled(p, k)), k)
  {}

  lemma {:induction false} ScaledCycleLine(c: Cycle, prices: PriceMap, commitment: real, k: real)
    requires k > 0.0 && Counts(c) && c.price >= CLAMP && k * c.price >= CLAMP
    ensures Counts(ScaleCycle(c, k))
    ensures ScaledLine(LineOf(c, prices, commitment), LineOf(ScaleCycle(c, k), ScalePrices(prices, k), commitment), k)
  {
    ScaledCounts(c, k);
    ScaledCycle(c, prices, commitment, k);
    ScaledPositionLine(PositionOf(c, prices, commitment), k);
  }

  lemma {:induction false} ScaledLines(results: seq<Cycle>, prices: PriceMap, commitment: real, k: real)
    requires k > 0.0 && ClearOfClamp(results, k)
    ensures AllScaled(Lines(results, prices, commitment), Lines(ScaleAll(results, k), ScalePrices(prices, k),
            commitment), k)
  {
    if results != [] {
      var n := |results| - 1;
      ScaledLines(results[..n], prices, commitment, k);
      assert ScaleAll(results, k)[..n] == ScaleAll(results[..n], k);
      ScaledCounts(results[n], k);
      if Counts(results[n]) {
        ScaledCycleLine(results[n], prices, commitment, k);
      }
    }
  }

  lemma {:induction false} SameWins(ls: seq<Line>, qs: seq<Line>)
    requires |ls| == |qs| && forall i | 0 <= i < |ls| :: ls[i].wins == qs[i].wins
    ensures WinCount(qs) == WinCount(ls)
  {
    if ls != [] {
      SameWins(ls[..|ls| - 1], qs[..|ls| - 1]);
    }
  }

  lemma {:induction false} ScaledSums(ls: seq<Line>, qs: seq<Line>, k: real)
    requires AllScaled(ls, qs, k)
    ensures ScaledFigures(ls, qs, k)
  {
    ScaledByIsAdditive(k);
    RelatedSums(Investments(ls), Investments(qs), ScaledBy(k));
    RelatedSums(Profits(ls), Profits(qs), ScaledBy(k));
    SameWins(ls, qs);
  }

  lemma {:induction false} SameFraction(t: real, net: real, t': real, net': real, k: real)
    requires k > 0.0 && t > 0.0 && t' == k * t && net' == k * net
    ensures t' > 0.0 && net' / t' == net / t
  {}

  lemma {:induction false} CountedIsInvested(results: seq<Cycle>, prices: PriceMap, commitment: real)
    requires commitment > 0.0 && Lines(results, prices, commitment) != []
    ensures TotalInvested(Lines(results, prices, commitment)) > 0.0
  {
    LinesAreSound(results, prices, commitment);
    InvestedPositive(Lines(results, prices, commitment));
  }

  /** The summary's figures of the scaled outcomes against those of the given ones. */
  ghost predicate ScaledFigures(ls: seq<Line>, qs: seq<Line>, k: real)
  {
    && ScaledBy(k)(TotalInvested(ls), TotalInvested(qs))
    && ScaledBy(k)(TotalProfit(ls), TotalProfit(qs))
    && WinCount(qs) == WinCount(ls)
  }

  /**
    Scaling all entry and current prices by k (entries staying above the clamp) scales every dollar total by k
    and leaves the wins and every signed return unchanged; cbBTC positions included.
   */
  lemma {:induction false} ScaledTotals(results: seq<Cycle>, prices: PriceMap, commitment: real, k: real)
    requires k > 0.0 && ClearOfClamp(results, k)
    ensures
      var ls, qs := Lines(results, prices, commitment), Lines(ScaleAll(results, k), ScalePrices(prices, k), commitment);
      AllScaled(ls, qs, k) && ScaledFigures(ls, qs, k)
  {
    var ls, qs := Lines(results, prices, commitment), Lines(ScaleAll(results, k), ScalePrices(prices, k), commitment);
    ScaledLines(results, prices, commitment, k);
    ScaledSums(ls, qs, k);
  }

  /** And it leaves the net fraction unchanged. */
  lemma {:induction false} ScaledFraction(results: seq<Cycle>, prices: PriceMap, commitment: real, k: real)
    requires k > 0.0 && commitment > 0.0 && ClearOfClamp(results, k)
    requires Lines(results, prices, commitment) != []
    ensures
      var ls, qs := Lines(results, prices, commitment), Lines(ScaleAll(results, k), ScalePrices(prices, k), commitment);
      && TotalInvested(ls) > 0.0 && TotalInvested(qs) > 0.0
      && TotalProfit(qs) / TotalInvested(qs) == TotalProfit(ls) / TotalInvested(ls)
  {
    var ls, qs := Lines(results, prices, commitment), Lines(ScaleAll(results, k), ScalePrices(prices, k), commitment);
    CountedIsInvested(results, prices, commitment);
    assert ScaledFigures(ls, qs, k) by { ScaledTotals(results, prices, commitment, k); }
    SameFraction(TotalInvested(ls), TotalProfit(ls), TotalInvested(qs), TotalProfit(qs), k);
  }
}
