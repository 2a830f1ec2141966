/** Cross-book line shopping and the EV filter: internal/decision/lineshopper.go and threshold.go. */
module LineShopping {
  import opened Wrappers
  import opened Reals
  import opened Odds
  import opened Sizing
  import Text

  datatype Side = Home | Away

  datatype BookQuote = BookQuote(book: string, home: int, away: int)

  datatype Line = Line(book: string, odds: int, evaluated: nat)

  datatype Threshold = Threshold(side: Side, edge: real, minEdge: real, pass: bool)

  const DEFAULT_EV_THRESHOLD := 0.02

  function DefaultMinEdge(sport: Sport): Result<real> {
    if sport == MLB then Ok(0.015)
    else if sport == NBA then Ok(0.020)
    else if sport == NHL then Ok(0.022)
    else if sport == NFL then Ok(0.025)
    else Err("unsupported sport")
  }

  /** A positive override wins; zero means the sport's default, or 2% without a sport. */
  function ResolveMinEdge(sport: Sport, minEdge: real): (res: Result<real>)
    ensures res.Ok? <==> 0.0 <= minEdge <= 1.0 && (sport == "" || Supported(sport))
    ensures res.Ok? && minEdge > 0.0 ==> res.value == minEdge
    ensures res.Ok? && minEdge == 0.0 ==> res.value == match sport
                                                       case "MLB" => 0.015
                                                       case "NBA" => 0.020
                                                       case "NHL" => 0.022
                                                       case "NFL" => 0.025
                                                       case _ => 0.02
  {
    if minEdge < 0.0 || minEdge > 1.0 then Err("ev threshold must be finite in [0,1]")
    else if sport == "" then Ok(if minEdge > 0.0 then minEdge else DEFAULT_EV_THRESHOLD)
    else
      match DefaultMinEdge(sport)
      case Err(message) => Err(message)
      case Ok(policy) => Ok(if minEdge > 0.0 then minEdge else policy)
  }

  /** The side the model favours over the market, its edge, and whether the edge clears the threshold. */
  function EvaluateThreshold(sport: Sport, model: real, market: real, minEdge: real): (res: Result<Threshold>)
    ensures res.Ok? ==> 0.0 <= res.value.edge <= 1.0
    ensures res.Ok? ==> res.value.edge == Abs(model - market) && (res.value.side == Away <==> model < market)
    ensures res.Ok? <==> 0.0 <= model <= 1.0 && 0.0 <= market <= 1.0 && ResolveMinEdge(sport, minEdge).Ok?
    ensures res.Ok? ==> res.value.minEdge == ResolveMinEdge(sport, minEdge).value
    ensures res.Ok? ==> (res.value.pass <==> res.value.edge >= res.value.minEdge && res.value.edge > 0.0)
  {
    if model < 0.0 || model > 1.0 || market < 0.0 || market > 1.0 then Err("probability must be finite in [0,1]")
    else
      match ResolveMinEdge(sport, minEdge)
      case Err(message) => Err(message)
      case Ok(threshold) =>
        var homeEdge := model - market;
        var edge := if homeEdge < 0.0 then -homeEdge else homeEdge;
        Ok(Threshold(if homeEdge < 0.0 then Away else Home, edge, threshold, edge >= threshold && edge > 0.0))
  }

  function OddsFor(quote: BookQuote, side: Side): int {
    if side == Away then quote.away else quote.home
  }

  predicate WellFormed(quote: BookQuote) {
    Text.Trim(quote.book) != "" && Valid(quote.home) && Valid(quote.away)
  }

  predicate Shoppable(sport: Sport, quotes: seq<BookQuote>) {
    && (sport == "" || DefaultMinEdge(sport).Ok?)
    && quotes != []
    && forall i :: 0 <= i < |quotes| ==> WellFormed(quotes[i])
  }

  /** The first position holding the largest American number for the side. */
  function BestIndex(quotes: seq<BookQuote>, side: Side): (best: nat)
    requires quotes != []
    ensures best < |quotes|
    ensures forall i :: 0 <= i < |quotes| ==> OddsFor(quotes[i], side) <= OddsFor(quotes[best], side)
    ensures forall i :: 0 <= i < best ==> OddsFor(quotes[i], side) < OddsFor(quotes[best], side)
  {
    var n := |quotes| - 1;
    if n == 0 then 0
    else
      var best := BestIndex(quotes[..n], side);
      assert forall i :: 0 <= i < n ==> quotes[..n][i] == quotes[i];
      if OddsFor(quotes[n], side) > OddsFor(quotes[best], side) then n else best
  }

  function Shop(quotes: seq<BookQuote>, side: Side): Line
    requires quotes != []
  {
    var best := quotes[BestIndex(quotes, side)];
    Line(Text.Trim(best.book), OddsFor(best, side), |quotes|)
  }

  /** The first position of the largest price. */
  predicate FirstMax(prices: seq<int>, k: nat) {
    && k < |prices|
    && (forall i :: 0 <= i < |prices| ==> prices[i] <= prices[k])
    && (forall i :: 0 <= i < k ==> prices[i] < prices[k])
  }

  function HomePrices(quotes: seq<BookQuote>): (prices: seq<int>)
    ensures |prices| == |quotes|
  {
    seq(|quotes|, i requires 0 <= i < |quotes| => quotes[i].home)
  }

  function AwayPrices(quotes: seq<BookQuote>): (prices: seq<int>)
    ensures |prices| == |quotes|
  {
    seq(|quotes|, i requires 0 <= i < |quotes| => quotes[i].away)
  }

  /** The shopped line is the first of the best prices quoted for the side, from the book that quotes it. */
  lemma ShopMeans(quotes: seq<BookQuote>, side: Side) returns (k: nat)
    requires quotes != []
    ensures FirstMax(if side.Home? then HomePrices(quotes) else AwayPrices(quotes), k)
    ensures var line := Shop(quotes, side);
            && line.odds == (if side.Home? then quotes[k].home else quotes[k].away)
            && line.book == Text.Trim(quotes[k].book) && line.evaluated == |quotes|
  {
    k := BestIndex(quotes, side);
    forall i | 0 <= i < |quotes| ensures OddsFor(quotes[i], side) == if side.Home? then quotes[i].home else quotes[i].away {
    }
  }

  lemma ShoppableMeans(sport: Sport, quotes: seq<BookQuote>)
    ensures Shoppable(sport, quotes) <==>
      && (sport == "" || Supported(sport)) && quotes != []
      && forall q :: q in quotes ==> Text.Trim(q.book) != "" && (q.home <= -100 || q.home >= 100) && (q.away <= -100 || q.away >= 100)
  {
    assert (forall q :: q in quotes ==> WellFormed(q)) <==> forall i :: 0 <= i < |quotes| ==> WellFormed(quotes[i]);
  }

  method ScanQuotes(sport: Sport, side: Side, quotes: seq<BookQuote>) returns (res: Result<Line>)
    ensures res.Ok? <==> Shoppable(sport, quotes)
    ensures res.Ok? ==> res.value == Shop(quotes, side)
  {
    if sport != "" && DefaultMinEdge(sport).Err? {
      return Err("unsupported sport");
    }
    if |quotes| == 0 {
      return Err("book quotes required");
    }
    var line := Line("", 0, |quotes|);
    var bestIdx := -1;
    for i := 0 to |quotes|
      invariant forall j :: 0 <= j < i ==> WellFormed(quotes[j])
      invariant line.evaluated == |quotes|
      invariant if i == 0 then bestIdx == -1 else 0 <= bestIdx < i
      invariant bestIdx >= 0 ==>
        && line == Line(Text.Trim(quotes[bestIdx].book), OddsFor(quotes[bestIdx], side), |quotes|)
        && (forall j :: 0 <= j < i ==> OddsFor(quotes[j], side) <= OddsFor(quotes[bestIdx], side))
        && (forall j :: 0 <= j < bestIdx ==> OddsFor(quotes[j], side) < OddsFor(quotes[bestIdx], side))
    {
      var book := Text.Trim(quotes[i].book);
      if book == "" {
        return Err("quote book is empty");
      }
      if !Valid(quotes[i].home) || !Valid(quotes[i].away) {
        return Err("american odds must be <= -100 or >= 100");
      }
      var candidate := if side == Away then quotes[i].away else quotes[i].home;
      if bestIdx == -1 || candidate > line.odds {
        line := line.(book := book, odds := candidate);
        bestIdx := i;
      }
    }
    return Ok(line);
  }

  /** One malformed quote anywhere, on either side, refuses the whole market; otherwise the first best quote wins. */
  method ShopBestLine(sport: Sport, side: Side, quotes: seq<BookQuote>) returns (res: Result<Line>)
    ensures res.Ok? <==>
      && (sport == "" || Supported(sport)) && quotes != []
      && forall q :: q in quotes ==> Text.Trim(q.book) != "" && (q.home <= -100 || q.home >= 100) && (q.away <= -100 || q.away >= 100)
    ensures res.Ok? ==> exists k: nat ::
      && FirstMax(if side.Home? then HomePrices(quotes) else AwayPrices(quotes), k)
      && res.value == Line(Text.Trim(quotes[k].book), if side.Home? then quotes[k].home else quotes[k].away, |quotes|)
    ensures res.Ok? <==> Shoppable(sport, quotes)
    ensures res.Ok? ==> res.value == Shop(quotes, side)
  {
    ShoppableMeans(sport, quotes);
    res := ScanQuotes(sport, side, quotes);
    if res.Ok? {
      ghost var k := ShopMeans(quotes, side);
    }
  }

  /** No quoted book offers a better price, a larger Kelly fraction, a larger stake or larger winnings on the same stake. */
  lemma ShoppedLineIsBest(sport: Sport, side: Side, quotes: seq<BookQuote>, i: nat, policy: KellyPolicy, req: StakeRequest, stakeCents: nat)
    requires Shoppable(sport, quotes) && i < |quotes| && policy.kelly > 0.0
    ensures var best, other := Shop(quotes, side).odds, OddsFor(quotes[i], side);
            && DecimalOf(other) <= DecimalOf(best)
            && (Sizable(req.(odds := best)) ==> RawFraction(req.(odds := other)) <= RawFraction(req.(odds := best)))
            && StakeCents(policy, req.(odds := other)) <= StakeCents(policy, req.(odds := best))
            && Winnings(stakeCents, other) <= Winnings(stakeCents, best)
  {
    var best, other := Shop(quotes, side).odds, OddsFor(quotes[i], side);
    assert WellFormed(quotes[i]) && WellFormed(quotes[BestIndex(quotes, side)]);
    DecimalMonotone(other, best);
    WinningsMonotone(stakeCents, other, best);
    StakeMonotoneInOdds(policy, req.(odds := other), best);
  }
}
