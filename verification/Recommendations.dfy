/** The recommendation pipeline of internal/decision/recommendation.go: EV filter, line shopping, sizing,
    total-order sort, exposure guard, circuit breaker. */
module Recommendations {
  import opened Wrappers
  import opened Reals
  import opened Sorting
  import opened Odds
  import opened Sizing
  import opened LineShopping
  import opened Correlation
  import opened Counting
  import Circuit
  import Text

  datatype Candidate = Candidate(
    sport: Sport, gameId: int, market: string, eventTime: Option<int>,
    model: real, marketProbability: real, quotes: seq<BookQuote>)

  datatype BuildConfig = BuildConfig(
    minEdge: real, kelly: real, maxBet: real,
    maxPerGame: int, maxFractionPerGame: real, maxPerSportDay: int,
    dailyStop: real, weeklyStop: real, drawdown: real, metrics: Circuit.Metrics,
    sizingCents: int, availableCents: int, generatedAt: Option<int>)

  /** What the configuration resolves to before any candidate is read. */
  datatype Settings = Settings(
    correlation: CorrelationPolicy, circuit: Circuit.CircuitPolicy, metrics: Circuit.Metrics, bankroll: real, generatedAt: int)

  function Resolve(cfg: BuildConfig): Result<Settings> {
    if cfg.generatedAt.None? then Err("generated_at must be set")
    else if cfg.availableCents < 0 || cfg.sizingCents < 0 then Err("bankroll must be >= 0")
    else
      match (ResolvePolicy(cfg.maxPerGame, cfg.maxFractionPerGame, cfg.maxPerSportDay),
             Circuit.ResolvePolicy(cfg.dailyStop, cfg.weeklyStop, cfg.drawdown))
      case (Ok(correlation), Ok(circuit)) =>
        var flat := Circuit.Metrics(cfg.availableCents, cfg.availableCents, cfg.availableCents, cfg.availableCents);
        Ok(Settings(
          correlation, circuit, if cfg.metrics == Circuit.Metrics(0, 0, 0, 0) then flat else cfg.metrics,
          (if cfg.sizingCents == 0 then cfg.availableCents else cfg.sizingCents) as real / 100.0, cfg.generatedAt.value))
      case (_, _) => Err("resolve policies")
  }

  function Rank(edge: real, fraction: real, odds: int): real {
    edge * 10000.0 + fraction * 1000.0 + odds as real / 100000.0
  }

  /** Totals are quoted as over and under. */
  function SideLabel(market: string, side: Side): string {
    if market == "totals" then (if side == Home then "over" else "under")
    else (if side == Home then "home" else "away")
  }

  function RequestFor(cfg: BuildConfig, bankroll: real, c: Candidate, side: Side, odds: int): StakeRequest {
    StakeRequest(
      c.sport, if side == Away then 1.0 - c.model else c.model, odds, bankroll, cfg.availableCents, cfg.kelly, cfg.maxBet)
  }

  /** The recommendation for a candidate that clears the threshold at the shopped line. */
  function PickFrom(cfg: BuildConfig, s: Settings, c: Candidate, ev: Threshold, line: Line): Result<Recommendation> {
    var req := RequestFor(cfg, s.bankroll, c, ev.side, line.odds);
    match ResolveKellyPolicy(c.sport, cfg.kelly, cfg.maxBet)
    case Err(message) => Err(message)
    case Ok(policy) =>
      var cents, fraction := StakeCents(policy, req), StakeFraction(policy, req);
      Ok(Recommendation(
        c.sport, c.gameId, c.market, SideLabel(c.market, ev.side), line.book, line.odds,
        if c.eventTime.Some? then c.eventTime.value else 0,
        c.model, c.marketProbability, ev.edge, cents as real / 100.0, cents, fraction,
        if Sizable(req) then RawFraction(req) else 0.0,
        Sizable(req) && 0 < WantedCents(policy, req) <= req.availableCents,
        Rank(ev.edge, fraction, line.odds), s.generatedAt, false, Unchecked, false, NotEvaluated))
  }

  /** An error, no recommendation below the threshold, or the recommendation for the candidate. */
  function Evaluate(cfg: BuildConfig, s: Settings, c: Candidate): Result<Option<Recommendation>> {
    if c.gameId <= 0 || Text.Trim(c.market) == "" || c.eventTime.None? then Err("malformed candidate")
    else
      match EvaluateThreshold(c.sport, c.model, c.marketProbability, cfg.minEdge)
      case Err(message) => Err(message)
      case Ok(ev) =>
        if !ev.pass then Ok(None)
        else if !Shoppable(c.sport, c.quotes) then Err("line shopping")
        else
          match PickFrom(cfg, s, c, ev, Shop(c.quotes, ev.side))
          case Err(message) => Err(message)
          case Ok(rec) => Ok(Some(rec))
  }

  /** The stake for the line, failing when no sizing policy resolves. */
  method SizePick(cfg: BuildConfig, s: Settings, c: Candidate, ev: Threshold, line: Line) returns (res: Result<Recommendation>)
    ensures res.Ok? <==> PickFrom(cfg, s, c, ev, line).Ok?
    ensures res.Ok? ==> res == PickFrom(cfg, s, c, ev, line)
  {
    var probability := c.model;
    if ev.side == Away {
      probability := 1.0 - c.model;
    }
    var sized := EvaluateRecommendationStake(
      StakeRequest(c.sport, probability, line.odds, s.bankroll, cfg.availableCents, cfg.kelly, cfg.maxBet));
    if sized.Err? {
      return Err(sized.message);
    }
    var sizing := sized.value;
    SizingMeans(ResolveKellyPolicy(c.sport, cfg.kelly, cfg.maxBet).value, RequestFor(cfg, s.bankroll, c, ev.side, line.odds));
    var side := if ev.side == Home then "home" else "away";
    if c.market == "totals" {
      side := if ev.side == Home then "over" else "under";
    }
    return Ok(Recommendation(
      c.sport, c.gameId, c.market, side, line.book, line.odds, if c.eventTime.Some? then c.eventTime.value else 0,
      c.model, c.marketProbability, ev.edge,
      sizing.dollars, sizing.cents, sizing.fraction, sizing.rawKelly, sizing.checkPass,
      Rank(ev.edge, sizing.fraction, line.odds), s.generatedAt, false, Unchecked, false, NotEvaluated));
  }

  method EvaluateCandidate(cfg: BuildConfig, s: Settings, c: Candidate) returns (res: Result<Option<Recommendation>>)
    ensures res.Ok? <==> Evaluate(cfg, s, c).Ok?
    ensures res.Ok? ==> res == Evaluate(cfg, s, c)
  {
    if c.gameId <= 0 {
      return Err("game_id must be > 0");
    }
    if Text.Trim(c.market) == "" {
      return Err("market must not be empty");
    }
    if c.eventTime.None? {
      return Err("event_time must be set");
    }
    var evaluated := EvaluateThreshold(c.sport, c.model, c.marketProbability, cfg.minEdge);
    if evaluated.Err? {
      return Err(evaluated.message);
    }
    var ev := evaluated.value;
    if !ev.pass {
      return Ok(None);
    }
    var shopped := ShopBestLine(c.sport, ev.side, c.quotes);
    if shopped.Err? {
      return Err(shopped.message);
    }
    var picked := SizePick(cfg, s, c, ev, shopped.value);
    if picked.Err? {
      return Err(picked.message);
    }
    return Ok(Some(picked.value));
  }

  // ---- the order of recommendations ----

  /** Market, then book, then side, each ascending. */
  predicate NamesBefore(a: Recommendation, b: Recommendation) {
    if a.market != b.market then Text.Less(a.market, b.market)
    else if a.book != b.book then Text.Less(a.book, b.book)
    else Text.Less(a.side, b.side)
  }

  /** Rank, edge, stake fraction and odds descending, then game ascending, then the names. */
  predicate PickBefore(a: Recommendation, b: Recommendation) {
    if a.rank != b.rank then a.rank > b.rank
    else if a.edge != b.edge then a.edge > b.edge
    else if a.stakeFraction != b.stakeFraction then a.stakeFraction > b.stakeFraction
    else if a.odds != b.odds then a.odds > b.odds
    else if a.gameId != b.gameId then a.gameId < b.gameId
    else NamesBefore(a, b)
  }

  /** The recommendations of a list of candidates in list order. */
  function Picks(cfg: BuildConfig, s: Settings, cs: seq<Candidate>): seq<Recommendation> {
    if cs == [] then [] else Picks(cfg, s, cs[..|cs| - 1]) + PickOf(cfg, s, cs[|cs| - 1])
  }

  function PickOf(cfg: BuildConfig, s: Settings, c: Candidate): seq<Recommendation> {
    match Evaluate(cfg, s, c)
    case Ok(Some(rec)) => [rec]
    case _ => []
  }

  predicate AllEvaluate(cfg: BuildConfig, s: Settings, cs: seq<Candidate>) {
    forall c :: c in cs ==> Evaluate(cfg, s, c).Ok?
  }

  function Emitted(s: Settings, recs: seq<Recommendation>): seq<Recommendation> {
    var retained := Guard(s.correlation, StableSort(PickBefore, recs)).retained;
    Circuit.Allowed(Circuit.StatusOf(s.circuit, s.metrics), retained)
  }

  function Build(cs: seq<Candidate>, cfg: BuildConfig): Result<seq<Recommendation>> {
    match Resolve(cfg)
    case Err(message) => Err(message)
    case Ok(s) => if AllEvaluate(cfg, s, cs) then Ok(Emitted(s, Picks(cfg, s, cs))) else Err("candidate")
  }

  lemma PicksStep(cfg: BuildConfig, s: Settings, cs: seq<Candidate>, i: nat)
    requires i < |cs|
    ensures Picks(cfg, s, cs[..i + 1]) == Picks(cfg, s, cs[..i]) + PickOf(cfg, s, cs[i])
    ensures AllEvaluate(cfg, s, cs[..i + 1]) <==> AllEvaluate(cfg, s, cs[..i]) && Evaluate(cfg, s, cs[i]).Ok?
    ensures Evaluate(cfg, s, cs[i]).Err? ==> !AllEvaluate(cfg, s, cs)
  {
    assert cs[..i + 1][..i] == cs[..i] && cs[..i + 1] == cs[..i] + [cs[i]] && cs[i] in cs;
  }

  /** The candidate loop stops at the first bad candidate. */
  method CollectPicks(cfg: BuildConfig, s: Settings, cs: seq<Candidate>) returns (res: Result<seq<Recommendation>>)
    ensures res.Ok? <==> AllEvaluate(cfg, s, cs)
    ensures res.Ok? ==> res.value == Picks(cfg, s, cs)
  {
    var recs: seq<Recommendation> := [];
    for i := 0 to |cs|
      invariant AllEvaluate(cfg, s, cs[..i])
      invariant recs == Picks(cfg, s, cs[..i])
    {
      PicksStep(cfg, s, cs, i);
      var evaluated := EvaluateCandidate(cfg, s, cs[i]);
      if evaluated.Err? {
        return Err(evaluated.message);
      }
      if evaluated.value.Some? {
        recs := recs + [evaluated.value.value];
      }
    }
    assert cs[..|cs|] == cs;
    return Ok(recs);
  }

  method RunBuild(cs: seq<Candidate>, cfg: BuildConfig) returns (res: Result<seq<Recommendation>>)
    ensures res.Ok? <==> Build(cs, cfg).Ok?
    ensures res.Ok? ==> res == Build(cs, cfg)
  {
    var resolved := Resolve(cfg);
    if resolved.Err? {
      return Err(resolved.message);
    }
    var s := resolved.value;
    var collected := CollectPicks(cfg, s, cs);
    if collected.Err? {
      return Err(collected.message);
    }
    var recs := StableSort(PickBefore, collected.value);
    var guarded := ApplyCorrelationGuard(recs, s.correlation);
    if guarded.Err? {
      assert false;
      return Err("apply correlation guard");
    }
    var allowed := Circuit.ApplyCircuitBreakerGuard(guarded.value.retained, s.circuit, s.metrics);
    if allowed.Err? {
      assert false;
      return Err("apply circuit breaker guard");
    }
    return Ok(allowed.value.retained);
  }

  // ---- what the build says of its configuration and candidates ----

  predicate ConfigOk(cfg: BuildConfig) {
    && cfg.generatedAt.Some? && cfg.availableCents >= 0 && cfg.sizingCents >= 0
    && 0 <= cfg.maxPerGame <= 25 && 0.0 <= cfg.maxFractionPerGame <= 1.0 && 0 <= cfg.maxPerSportDay <= 500
    && 0.0 <= cfg.dailyStop <= 1.0 && 0.0 <= cfg.weeklyStop <= 1.0 && 0.0 <= cfg.drawdown <= 1.0
  }

  /** The bankroll stakes are sized from: the sizing cents, or the available ones. */
  function BankrollOf(cfg: BuildConfig): real {
    (if cfg.sizingCents == 0 then cfg.availableCents else cfg.sizingCents) as real / 100.0
  }

  /** The caller's own metrics show a loss at or over one of the stops. */
  predicate Halted(cfg: BuildConfig) {
    var m := cfg.metrics;
    && !(m.current == m.dayStart == m.weekStart == m.peak == 0)
    && (|| Circuit.HasLost(m.dayStart, m.current, if cfg.dailyStop > 0.0 then cfg.dailyStop else 0.05)
        || Circuit.HasLost(m.weekStart, m.current, if cfg.weeklyStop > 0.0 then cfg.weeklyStop else 0.10)
        || Circuit.HasLost(m.peak, m.current, if cfg.drawdown > 0.0 then cfg.drawdown else 0.15))
  }

  function CapsOf(cfg: BuildConfig): CorrelationPolicy {
    CorrelationPolicy(if cfg.maxPerGame == 0 then 1 else cfg.maxPerGame,
                      if cfg.maxFractionPerGame == 0.0 then 0.03 else cfg.maxFractionPerGame, cfg.maxPerSportDay)
  }

  lemma NothingLostFlat(balance: int, share: real)
    requires share > 0.0
    ensures !Circuit.HasLost(balance, balance, share)
  {
    if balance > 0 {
      ProductPositive(share, balance as real);
    }
  }

  /** The settings in terms of the configuration. */
  lemma ResolveMeans(cfg: BuildConfig)
    ensures Resolve(cfg).Ok? <==> ConfigOk(cfg)
    ensures Resolve(cfg).Ok? ==>
      var s := Resolve(cfg).value;
      && s.correlation == CapsOf(cfg) && s.bankroll == BankrollOf(cfg) && cfg.generatedAt == Some(s.generatedAt)
      && Circuit.ValidPolicy(s.circuit)
      && (Circuit.Triggered(s.circuit, s.metrics) != [] <==> Halted(cfg))
  {
    if Resolve(cfg).Ok? {
      var s := Resolve(cfg).value;
      Circuit.TriggeredMeans(s.circuit, s.metrics);
      NothingLostFlat(cfg.availableCents, s.circuit.dailyStop);
      NothingLostFlat(cfg.availableCents, s.circuit.weeklyStop);
      NothingLostFlat(cfg.availableCents, s.circuit.drawdown);
    }
  }

  /** The model and the market differ by at least the least edge, and by something. */
  function Clears(cfg: BuildConfig): Candidate -> bool {
    (c: Candidate) =>
      var least := ResolveMinEdge(c.sport, cfg.minEdge);
      c.model != c.marketProbability && least.Ok? && Abs(c.model - c.marketProbability) >= least.value
  }

  predicate CandidateOk(cfg: BuildConfig, c: Candidate) {
    && c.gameId > 0 && Text.Trim(c.market) != "" && c.eventTime.Some?
    && 0.0 <= c.model <= 1.0 && 0.0 <= c.marketProbability <= 1.0 && ResolveMinEdge(c.sport, cfg.minEdge).Ok?
    && (Clears(cfg)(c) ==>
          && c.quotes != [] && ResolveKellyPolicy(c.sport, cfg.kelly, cfg.maxBet).Ok?
          && forall q :: q in c.quotes ==>
               Text.Trim(q.book) != "" && (q.home <= -100 || q.home >= 100) && (q.away <= -100 || q.away >= 100))
  }

  lemma EvaluateSucceedsIff(cfg: BuildConfig, s: Settings, c: Candidate)
    ensures Evaluate(cfg, s, c).Ok? <==> CandidateOk(cfg, c)
    ensures Evaluate(cfg, s, c).Ok? ==> (Evaluate(cfg, s, c).value.Some? <==> Clears(cfg)(c))
  {
    ShoppableMeans(c.sport, c.quotes);
  }

  /** One pick for each candidate that clears its edge. */
  lemma {:induction false} PicksCount(cfg: BuildConfig, s: Settings, cs: seq<Candidate>)
    requires AllEvaluate(cfg, s, cs)
    ensures |Picks(cfg, s, cs)| == CountIf(cs, Clears(cfg))
  {
    if cs != [] {
      var n := |cs| - 1;
      assert cs == cs[..n] + [cs[n]];
      PicksCount(cfg, s, cs[..n]);
      EvaluateSucceedsIff(cfg, s, cs[n]);
    }
  }

  /** The stake is the policy's share of Kelly, up to its maximum, of the bankroll, to half a cent, when that is available. */
  predicate StakesShareOf(r: Recommendation, bankroll: real, share: real, most: real) {
    && 0.0 <= r.stakeDollars <= bankroll * share + 0.005
    && (r.bankrollPass ==> Abs(r.stakeDollars - bankroll * (if share <= most then share else most)) <= 0.005)
  }

  predicate StakesAsKelly(cfg: BuildConfig, policy: KellyPolicy, probability: real, bankroll: real, r: Recommendation) {
    && r.stakeDollars == r.stakeCents as real / 100.0 && 0 <= r.stakeCents <= cfg.availableCents
    && r.stakeFraction == (if r.stakeCents == 0 || bankroll == 0.0 then 0.0 else r.stakeDollars / bankroll)
    && r.odds != 0 && r.rawKelly == (if 0.0 < probability < 1.0 then Kelly(probability, DecimalOf(r.odds)) else 0.0)
    && (r.rawKelly <= 0.0 ==> r.stakeCents == 0)
    && (r.rawKelly > 0.0 ==> StakesShareOf(r, bankroll, r.rawKelly * policy.kelly, policy.maxBet))
    && (r.stakeCents > 0 && !r.bankrollPass ==> r.stakeCents == cfg.availableCents)
  }

  /** Names, times and probabilities are the candidate's own. */
  predicate Carries(cfg: BuildConfig, c: Candidate, r: Recommendation) {
    && r.sport == c.sport && r.gameId == c.gameId && r.market == c.market && c.eventTime == Some(r.eventTime)
    && r.model == c.model && r.marketProbability == c.marketProbability && cfg.generatedAt == Some(r.generatedAt)
    && r.edge == (if c.model < c.marketProbability then c.marketProbability - c.model else c.model - c.marketProbability)
    && r.side == (if c.model < c.marketProbability then (if c.market == "totals" then "under" else "away")
                  else (if c.market == "totals" then "over" else "home"))
    && r.rank == 10000.0 * r.edge + 1000.0 * r.stakeFraction + r.odds as real / 100000.0
  }

  /** The line is the first of the best prices for the side the model is on. */
  ghost predicate TakesBestLine(c: Candidate, r: Recommendation) {
    exists k: nat ::
      && FirstMax(if c.model < c.marketProbability then AwayPrices(c.quotes) else HomePrices(c.quotes), k)
      && r.odds == (if c.model < c.marketProbability then c.quotes[k].away else c.quotes[k].home)
      && r.book == Text.Trim(c.quotes[k].book)
  }

  ghost predicate IsPickFor(cfg: BuildConfig, c: Candidate, r: Recommendation) {
    var policy := ResolveKellyPolicy(c.sport, cfg.kelly, cfg.maxBet);
    && Clears(cfg)(c) && Carries(cfg, c, r) && TakesBestLine(c, r)
    && policy.Ok?
    && StakesAsKelly(cfg, policy.value, if c.model < c.marketProbability then 1.0 - c.model else c.model, BankrollOf(cfg), r)
  }

  lemma GrantedShare(st: StakeResult, r: Recommendation, bankroll: real, share: real)
    requires StakesShare(st, bankroll, share)
    requires r.stakeDollars == st.dollars && r.bankrollPass == st.checkPass
    ensures StakesShareOf(r, bankroll, share, st.policy.maxBet)
  {
  }

  lemma SizedAsKelly(cfg: BuildConfig, policy: KellyPolicy, req: StakeRequest, r: Recommendation)
    requires 0.0 < policy.kelly <= 1.0 && 0.0 < policy.maxBet <= 1.0 && Valid(req.odds)
    requires req.bankroll >= 0.0 && req.availableCents == cfg.availableCents >= 0
    requires r.odds == req.odds && r.stakeCents == StakeCents(policy, req) && r.stakeDollars == r.stakeCents as real / 100.0
    requires r.stakeFraction == StakeFraction(policy, req) && r.rawKelly == (if Sizable(req) then RawFraction(req) else 0.0)
    requires r.bankrollPass <==> Sizable(req) && 0 < WantedCents(policy, req) <= req.availableCents
    ensures StakesAsKelly(cfg, policy, req.probability, req.bankroll, r)
  {
    StakeWithinAvailable(policy, req);
    if Sizable(req) {
      NothingFromNothing(policy, RawFraction(req));
      SizingMeans(policy, req);
      FractionalKelly(policy, req, RawFraction(req), InputReasons(req));
      if r.rawKelly > 0.0 {
        var st := SizingOf(policy, req);
        assert st.policy == policy;
        GrantedShare(st, r, req.bankroll, r.rawKelly * policy.kelly);
      }
    }
  }

  lemma LineMeans(c: Candidate, side: Side, r: Recommendation)
    requires c.quotes != [] && side == (if c.model < c.marketProbability then Away else Home)
    requires r.odds == Shop(c.quotes, side).odds && r.book == Shop(c.quotes, side).book
    ensures TakesBestLine(c, r)
  {
    var k := ShopMeans(c.quotes, side);
  }

  /** The stake of a pick comes from its own request. */
  lemma PickStake(cfg: BuildConfig, s: Settings, c: Candidate, ev: Threshold, line: Line)
    requires PickFrom(cfg, s, c, ev, line).Ok? && Valid(line.odds) && s.bankroll >= 0.0 && cfg.availableCents >= 0
    ensures StakesAsKelly(cfg, ResolveKellyPolicy(c.sport, cfg.kelly, cfg.maxBet).value,
                          if ev.side == Away then 1.0 - c.model else c.model, s.bankroll, PickFrom(cfg, s, c, ev, line).value)
  {
    SizedAsKelly(cfg, ResolveKellyPolicy(c.sport, cfg.kelly, cfg.maxBet).value,
                 RequestFor(cfg, s.bankroll, c, ev.side, line.odds), PickFrom(cfg, s, c, ev, line).value);
  }

  lemma PickCarries(cfg: BuildConfig, s: Settings, c: Candidate, ev: Threshold, line: Line)
    requires PickFrom(cfg, s, c, ev, line).Ok? && c.eventTime.Some? && cfg.generatedAt == Some(s.generatedAt)
    requires EvaluateThreshold(c.sport, c.model, c.marketProbability, cfg.minEdge) == Ok(ev)
    ensures Carries(cfg, c, PickFrom(cfg, s, c, ev, line).value)
  {
  }

  lemma PickMeans(cfg: BuildConfig, c: Candidate)
    requires Resolve(cfg).Ok?
    ensures var s := Resolve(cfg).value;
            Evaluate(cfg, s, c).Ok? && Evaluate(cfg, s, c).value.Some? ==> IsPickFor(cfg, c, Evaluate(cfg, s, c).value.value)
  {
    var s := Resolve(cfg).value;
    if Evaluate(cfg, s, c).Ok? && Evaluate(cfg, s, c).value.Some? {
      var ev := EvaluateThreshold(c.sport, c.model, c.marketProbability, cfg.minEdge).value;
      ResolveMeans(cfg);
      EvaluateSucceedsIff(cfg, s, c);
      assert WellFormed(c.quotes[BestIndex(c.quotes, ev.side)]);
      PickStake(cfg, s, c, ev, Shop(c.quotes, ev.side));
      PickCarries(cfg, s, c, ev, Shop(c.quotes, ev.side));
      LineMeans(c, ev.side, Evaluate(cfg, s, c).value.value);
    }
  }

  // ---- the emitted list ----

  /** Best rank first, then edge, stake fraction and odds, then the lower game, then market, book and side by name. */
  predicate InOrder(a: Recommendation, b: Recommendation) {
    || a.rank > b.rank
    || (a.rank == b.rank && (
          || a.edge > b.edge
          || (a.edge == b.edge && (
                || a.stakeFraction > b.stakeFraction
                || (a.stakeFraction == b.stakeFraction && (
                      || a.odds > b.odds
                      || (a.odds == b.odds && (a.gameId < b.gameId || (a.gameId == b.gameId && NamesInOrder(a, b))))))))))
  }

  predicate NamesInOrder(a: Recommendation, b: Recommendation) {
    || Text.Less(a.market, b.market)
    || (a.market == b.market && (Text.Less(a.book, b.book) || (a.book == b.book && (Text.Less(a.side, b.side) || a.side == b.side))))
  }

  lemma NotBeforeIsInOrder(a: Recommendation, b: Recommendation)
    requires !PickBefore(b, a)
    ensures InOrder(a, b)
  {
    Text.LessDecides(a.market, b.market);
    Text.LessDecides(a.book, b.book);
    Text.LessDecides(a.side, b.side);
  }

  lemma EmittedInOrder(s: Settings, recs: seq<Recommendation>)
    ensures var out := Emitted(s, recs); forall i, j :: 0 <= i < j < |out| ==> InOrder(out[i], out[j])
  {
    var out := Emitted(s, recs);
    EmittedIsSorted(s, recs);
    forall i, j | 0 <= i < j < |out| ensures InOrder(out[i], out[j]) {
      NotBeforeIsInOrder(out[i], out[j]);
    }
  }

  /** Staked picks and their fractions, counted per game, and staked picks per sport and day, within the caps. */
  ghost predicate Capped(caps: CorrelationPolicy, out: seq<Recommendation>) {
    && (forall sport, gameId {:trigger OnGame(sport, gameId)} ::
          && CountIf(out, OnGame(sport, gameId)) <= caps.maxPerGame
          && SumIf(out, OnGame(sport, gameId), FractionOf()) <= caps.maxFractionPerGame + 0.000000000001)
    && (caps.maxPerSportDay > 0 ==>
          forall sport, day {:trigger OnDay(sport, day)} :: CountIf(out, OnDay(sport, day)) <= caps.maxPerSportDay)
  }

  lemma EmittedCapped(s: Settings, recs: seq<Recommendation>)
    requires ValidPolicy(s.correlation)
    ensures Capped(s.correlation, Emitted(s, recs))
  {
    var out := Emitted(s, recs);
    EmittedWithinCaps(s, recs);
    forall sport, gameId
      ensures CountIf(out, OnGame(sport, gameId)) <= s.correlation.maxPerGame
      ensures SumIf(out, OnGame(sport, gameId), FractionOf()) <= s.correlation.maxFractionPerGame + 0.000000000001
    {
      ExposureCounts(out, sport, gameId, 0);
      assert GamePicks(out, (sport, gameId)) <= s.correlation.maxPerGame;
    }
    forall sport, day ensures s.correlation.maxPerSportDay > 0 ==> CountIf(out, OnDay(sport, day)) <= s.correlation.maxPerSportDay {
      ExposureCounts(out, sport, 0, day);
      assert s.correlation.maxPerSportDay > 0 ==> DayPicks(out, (sport, day)) <= s.correlation.maxPerSportDay;
    }
  }

  /** The same picks in the same order, whatever the breaker wrote on them. */
  predicate SamePicks(out: seq<Recommendation>, recs: seq<Recommendation>) {
    |out| == |recs| && forall i :: 0 <= i < |out| ==> SamePick(out[i], recs[i])
  }

  lemma {:induction false} ShutBreakerKeepsAll(status: Circuit.Status, recs: seq<Recommendation>)
    requires status.pass
    ensures SamePicks(Circuit.Allowed(status, recs), recs)
  {
    if recs != [] {
      ShutBreakerKeepsAll(status, recs[..|recs| - 1]);
    }
  }

  /** Every emitted pick is some candidate's, and the guards marked it as passed. */
  ghost predicate FromCandidates(cfg: BuildConfig, cs: seq<Candidate>, out: seq<Recommendation>) {
    forall i :: 0 <= i < |out| ==>
      && out[i].circuitPass && exists c :: c in cs && IsPickFor(cfg, c, out[i])
  }

  lemma SamePickSameLine(c: Candidate, r: Recommendation, r': Recommendation)
    requires SamePick(r, r') && TakesBestLine(c, r')
    ensures TakesBestLine(c, r)
  {
    var k: nat :|
      && FirstMax(if c.model < c.marketProbability then AwayPrices(c.quotes) else HomePrices(c.quotes), k)
      && r'.odds == (if c.model < c.marketProbability then c.quotes[k].away else c.quotes[k].home)
      && r'.book == Text.Trim(c.quotes[k].book);
  }

  lemma SamePickSameStake(cfg: BuildConfig, policy: KellyPolicy, probability: real, bankroll: real, r: Recommendation, r': Recommendation)
    requires SamePick(r, r') && StakesAsKelly(cfg, policy, probability, bankroll, r')
    ensures StakesAsKelly(cfg, policy, probability, bankroll, r)
  {
  }

  lemma SamePickSameCandidate(cfg: BuildConfig, c: Candidate, r: Recommendation, r': Recommendation)
    requires SamePick(r, r') && IsPickFor(cfg, c, r')
    ensures IsPickFor(cfg, c, r)
  {
    SamePickSameLine(c, r, r');
    SamePickSameStake(cfg, ResolveKellyPolicy(c.sport, cfg.kelly, cfg.maxBet).value,
                      if c.model < c.marketProbability then 1.0 - c.model else c.model, BankrollOf(cfg), r, r');
  }

  lemma BuiltFromCandidates(cs: seq<Candidate>, cfg: BuildConfig)
    requires Build(cs, cfg).Ok?
    ensures FromCandidates(cfg, cs, Build(cs, cfg).value)
  {
    var s, out := Resolve(cfg).value, Build(cs, cfg).value;
    var recs := Picks(cfg, s, cs);
    ResolveMeans(cfg);
    Circuit.BreakerSplits(s.circuit, s.metrics, Guard(s.correlation, StableSort(PickBefore, recs)).retained);
    forall i | 0 <= i < |out| ensures out[i].circuitPass && exists c :: c in cs && IsPickFor(cfg, c, out[i]) {
      var j := EmittedHasPick(s, recs, i);
      var k := PickHasCandidate(cfg, s, cs, j);
      PickMeans(cfg, cs[k]);
      SamePickSameCandidate(cfg, cs[k], out[i], recs[j]);
      assert out[i] in out && cs[k] in cs;
    }
  }

  /** With a stop breached nothing is staked; otherwise the breaker removes nothing the exposure guard kept. */
  ghost predicate ObeysBreaker(cfg: BuildConfig, picks: seq<Recommendation>, out: seq<Recommendation>) {
    if Halted(cfg) then forall i :: 0 <= i < |out| ==> out[i].stakeCents <= 0
    else SamePicks(out, Guard(CapsOf(cfg), StableSort(PickBefore, picks)).retained)
  }

  lemma BuiltObeysBreaker(cs: seq<Candidate>, cfg: BuildConfig)
    requires Build(cs, cfg).Ok?
    ensures ObeysBreaker(cfg, Picks(cfg, Resolve(cfg).value, cs), Build(cs, cfg).value)
  {
    var s, out := Resolve(cfg).value, Build(cs, cfg).value;
    var retained := Guard(s.correlation, StableSort(PickBefore, Picks(cfg, s, cs))).retained;
    ResolveMeans(cfg);
    if Halted(cfg) {
      forall i | 0 <= i < |out| ensures out[i].stakeCents <= 0 {
        Circuit.TrippedEmitsNoStake(s.circuit, s.metrics, retained, i);
      }
    } else {
      ShutBreakerKeepsAll(Circuit.StatusOf(s.circuit, s.metrics), retained);
    }
  }

  /** The build fails exactly for unusable settings or a bad candidate. It emits picks of its candidates, one for each that
      clears its edge before the guards, in order, within the caps, and with the breaker read off the caller's metrics. */
  method BuildRecommendations(cs: seq<Candidate>, cfg: BuildConfig) returns (res: Result<seq<Recommendation>>)
    ensures res.Ok? <==> ConfigOk(cfg) && forall c :: c in cs ==> CandidateOk(cfg, c)
    ensures res.Ok? ==> Resolve(cfg).Ok? && res == Build(cs, cfg)
    ensures res.Ok? ==> FromCandidates(cfg, cs, res.value)
    ensures res.Ok? ==> forall i, j :: 0 <= i < j < |res.value| ==> InOrder(res.value[i], res.value[j])
    ensures res.Ok? ==> Capped(CapsOf(cfg), res.value)
    ensures res.Ok? ==>
      var picks := Picks(cfg, Resolve(cfg).value, cs); |picks| == CountIf(cs, Clears(cfg)) && ObeysBreaker(cfg, picks, res.value)
  {
    res := RunBuild(cs, cfg);
    BuildSucceedsIff(cs, cfg);
    if res.Ok? {
      ghost var s := Resolve(cfg).value;
      ResolveMeans(cfg);
      BuiltFromCandidates(cs, cfg);
      EmittedInOrder(s, Picks(cfg, s, cs));
      EmittedCapped(s, Picks(cfg, s, cs));
      PicksCount(cfg, s, cs);
      BuiltObeysBreaker(cs, cfg);
    }
  }

  lemma BuildSucceedsIff(cs: seq<Candidate>, cfg: BuildConfig)
    ensures Build(cs, cfg).Ok? <==> ConfigOk(cfg) && forall c :: c in cs ==> CandidateOk(cfg, c)
  {
    ResolveMeans(cfg);
    if Resolve(cfg).Ok? {
      forall c | c in cs ensures Evaluate(cfg, Resolve(cfg).value, c).Ok? <==> CandidateOk(cfg, c) {
        EvaluateSucceedsIff(cfg, Resolve(cfg).value, c);
      }
    }
  }

  // ---- the order is total on the built picks ----

  lemma NamesAsymmetric(a: Recommendation, b: Recommendation)
    requires NamesBefore(a, b)
    ensures !NamesBefore(b, a)
  {
    Text.LessAsymmetric(a.market, b.market);
    Text.LessAsymmetric(a.book, b.book);
    Text.LessAsymmetric(a.side, b.side);
  }

  lemma NamesSeparate(a: Recommendation, b: Recommendation, c: Recommendation)
    requires NamesBefore(a, b)
    ensures NamesBefore(a, c) || NamesBefore(c, b)
  {
    if a.market != b.market {
      Text.LessSeparates(a.market, b.market, c.market);
    } else if c.market != a.market {
      Text.LessDecides(a.market, c.market);
    } else if a.book != b.book {
      Text.LessSeparates(a.book, b.book, c.book);
    } else if c.book != a.book {
      Text.LessDecides(a.book, c.book);
    } else {
      Text.LessSeparates(a.side, b.side, c.side);
    }
  }

  /** The comparator is a legitimate `less` function. */
  lemma PickOrderIsStrictWeak()
    ensures StrictWeakOrder(PickBefore)
  {
    forall a, b | PickBefore(a, b) ensures !PickBefore(b, a) {
      if NamesBefore(a, b) {
        NamesAsymmetric(a, b);
      }
    }
    forall a, b, c | PickBefore(a, b) ensures PickBefore(a, c) || PickBefore(c, b) {
      if NamesBefore(a, b) {
        NamesSeparate(a, b, c);
      }
    }
  }

  /** No two candidates are for the same market of the same game. */
  ghost predicate DistinctMarkets(cs: seq<Candidate>) {
    forall i, j :: 0 <= i < j < |cs| ==> cs[i].gameId != cs[j].gameId || cs[i].market != cs[j].market
  }

  ghost predicate DistinctPicks(recs: seq<Recommendation>) {
    forall i, j :: 0 <= i < j < |recs| ==> recs[i].gameId != recs[j].gameId || recs[i].market != recs[j].market
  }

  /** Every pick comes from a candidate. */
  lemma {:induction false} PickHasCandidate(cfg: BuildConfig, s: Settings, cs: seq<Candidate>, i: nat) returns (k: nat)
    requires i < |Picks(cfg, s, cs)|
    ensures k < |cs| && Evaluate(cfg, s, cs[k]) == Ok(Some(Picks(cfg, s, cs)[i]))
  {
    k := |cs| - 1;
    if i < |Picks(cfg, s, cs[..k])| {
      k := PickHasCandidate(cfg, s, cs[..k], i);
    }
  }

  lemma PickHasKey(cfg: BuildConfig, s: Settings, cs: seq<Candidate>, i: nat) returns (k: nat)
    requires i < |Picks(cfg, s, cs)|
    ensures k < |cs| && Picks(cfg, s, cs)[i].gameId == cs[k].gameId && Picks(cfg, s, cs)[i].market == cs[k].market
  {
    k := PickHasCandidate(cfg, s, cs, i);
  }

  lemma OnePickPerCandidate(cfg: BuildConfig, s: Settings, c: Candidate)
    ensures var picks := PickOf(cfg, s, c);
            |picks| <= 1 && (picks != [] ==> picks[0].gameId == c.gameId && picks[0].market == c.market)
  {
  }

  lemma {:induction false} PicksAreDistinct(cfg: BuildConfig, s: Settings, cs: seq<Candidate>)
    requires DistinctMarkets(cs)
    ensures DistinctPicks(Picks(cfg, s, cs))
  {
    if cs != [] {
      var n := |cs| - 1;
      PicksAreDistinct(cfg, s, cs[..n]);
      OnePickPerCandidate(cfg, s, cs[n]);
      var before := Picks(cfg, s, cs[..n]);
      forall i | 0 <= i < |before| ensures before[i].gameId != cs[n].gameId || before[i].market != cs[n].market {
        var k := PickHasKey(cfg, s, cs[..n], i);
        assert cs[..n][k] == cs[k];
      }
    }
  }

  lemma DistinctPicksDecided(recs: seq<Recommendation>)
    requires DistinctPicks(recs)
    ensures Decides(PickBefore, recs)
  {
    forall i, j | 0 <= i < |recs| && 0 <= j < |recs| && recs[i] != recs[j]
      ensures PickBefore(recs[i], recs[j]) || PickBefore(recs[j], recs[i])
    {
      assert recs[i].gameId != recs[j].gameId || recs[i].market != recs[j].market;
      Text.LessDecides(recs[i].market, recs[j].market);
    }
  }

  /** With one candidate per game and market the comparator orders any two picks. */
  lemma ComparatorIsTotal(cfg: BuildConfig, s: Settings, cs: seq<Candidate>)
    requires DistinctMarkets(cs)
    ensures StrictWeakOrder(PickBefore) && Decides(PickBefore, Picks(cfg, s, cs))
  {
    PickOrderIsStrictWeak();
    PicksAreDistinct(cfg, s, cs);
    DistinctPicksDecided(Picks(cfg, s, cs));
  }

  // ---- the result does not depend on the order of the candidates ----

  lemma {:induction false} PicksOfSplit(cfg: BuildConfig, s: Settings, cs: seq<Candidate>, ds: seq<Candidate>)
    ensures Picks(cfg, s, cs + ds) == Picks(cfg, s, cs) + Picks(cfg, s, ds)
  {
    if ds == [] {
      assert cs + ds == cs;
    } else {
      assert (cs + ds)[..|cs + ds| - 1] == cs + ds[..|ds| - 1];
      PicksOfSplit(cfg, s, cs, ds[..|ds| - 1]);
    }
  }

  lemma PicksWithout(cfg: BuildConfig, s: Settings, ds: seq<Candidate>, k: nat)
    requires k < |ds|
    ensures multiset(Picks(cfg, s, ds)) == multiset(Picks(cfg, s, ds[..k] + ds[k + 1..])) + multiset(PickOf(cfg, s, ds[k]))
    ensures multiset(ds) == multiset(ds[..k] + ds[k + 1..]) + multiset{ds[k]}
  {
    assert ds == ds[..k + 1] + ds[k + 1..] && ds[..k + 1] == ds[..k] + [ds[k]];
    assert ds[..k + 1][..k] == ds[..k];
    PicksOfSplit(cfg, s, ds[..k + 1], ds[k + 1..]);
    PicksOfSplit(cfg, s, ds[..k], ds[k + 1..]);
  }

  lemma MultisetCancels<T>(a: multiset<T>, b: multiset<T>, x: multiset<T>)
    requires a + x == b + x
    ensures a == b
  {
    assert forall e :: a[e] + x[e] == (a + x)[e] && b[e] + x[e] == (b + x)[e];
    assert forall e :: a[e] == b[e];
  }

  lemma {:induction false} PicksPermute(cfg: BuildConfig, s: Settings, cs: seq<Candidate>, ds: seq<Candidate>)
    requires multiset(cs) == multiset(ds)
    ensures multiset(Picks(cfg, s, cs)) == multiset(Picks(cfg, s, ds))
  {
    if cs == [] {
      assert |multiset(ds)| == 0;
    } else {
      var n := |cs| - 1;
      assert cs[n] in multiset(cs);
      var k :| 0 <= k < |ds| && ds[k] == cs[n];
      PicksWithout(cfg, s, ds, k);
      PicksWithout(cfg, s, cs, n);
      assert cs[..n] + cs[n + 1..] == cs[..n];
      var rest := ds[..k] + ds[k + 1..];
      MultisetCancels(multiset(cs[..n]), multiset(rest), multiset{cs[n]});
      PicksPermute(cfg, s, cs[..n], rest);
    }
  }

  /** With one candidate per game and market, every permutation of the candidates builds the same list or none. */
  lemma BuildIgnoresInputOrder(cs: seq<Candidate>, ds: seq<Candidate>, cfg: BuildConfig)
    requires multiset(cs) == multiset(ds) && DistinctMarkets(cs)
    ensures Build(cs, cfg).Ok? <==> Build(ds, cfg).Ok?
    ensures Build(cs, cfg).Ok? ==> Build(cs, cfg) == Build(ds, cfg)
  {
    assert forall c :: c in cs <==> c in multiset(cs);
    assert forall c :: c in ds <==> c in multiset(ds);
    if Resolve(cfg).Ok? {
      var s := Resolve(cfg).value;
      var left, right := Picks(cfg, s, cs), Picks(cfg, s, ds);
      PicksPermute(cfg, s, cs, ds);
      PicksAreDistinct(cfg, s, cs);
      DistinctPicksDecided(left);
      SortOfPermutation(left, right);
    }
  }

  lemma SortOfPermutation(left: seq<Recommendation>, right: seq<Recommendation>)
    requires multiset(left) == multiset(right) && Decides(PickBefore, left)
    ensures StableSort(PickBefore, left) == StableSort(PickBefore, right)
  {
    PickOrderIsStrictWeak();
    SortSorts(PickBefore, left);
    SortSorts(PickBefore, right);
    SortPermutes(PickBefore, left);
    SortPermutes(PickBefore, right);
    var sorted := StableSort(PickBefore, left);
    forall i, j | 0 <= i < |sorted| && 0 <= j < |sorted| && sorted[i] != sorted[j]
      ensures PickBefore(sorted[i], sorted[j]) || PickBefore(sorted[j], sorted[i])
    {
      assert sorted[i] in multiset(sorted) && sorted[j] in multiset(sorted);
      assert sorted[i] in left && sorted[j] in left;
    }
    SortedIsUnique(PickBefore, sorted, StableSort(PickBefore, right));
  }

  // ---- what the guards leave is still sorted, capped and funded ----

  /** `out` is `recs` with some picks left out and guard marks written on the others. */
  predicate Within(out: seq<Recommendation>, recs: seq<Recommendation>) {
    if out == [] then true
    else if recs == [] then false
    else
      var rest := recs[..|recs| - 1];
      || (SamePick(out[|out| - 1], recs[|recs| - 1]) && Within(out[..|out| - 1], rest))
      || Within(out, rest)
  }

  lemma {:induction false} RetainedWithin(policy: CorrelationPolicy, recs: seq<Recommendation>)
    ensures Within(Guard(policy, recs).retained, recs)
  {
    if recs != [] {
      var n := |recs| - 1;
      RetainedWithin(policy, recs[..n]);
      var kept, kept' := Guard(policy, recs[..n]).retained, Guard(policy, recs).retained;
      if Keeps(Verdict(policy, kept, recs[n])) {
        assert kept'[..|kept'| - 1] == kept;
      }
    }
  }

  lemma {:induction false} AllowedWithin(status: Circuit.Status, recs: seq<Recommendation>)
    ensures Within(Circuit.Allowed(status, recs), recs)
  {
    if recs != [] {
      var n := |recs| - 1;
      AllowedWithin(status, recs[..n]);
      var kept, kept' := Circuit.Allowed(status, recs[..n]), Circuit.Allowed(status, recs);
      if !Counts(recs[n]) || status.pass {
        var marked := Circuit.CircuitMark(status, recs[n]);
        assert SamePick(marked, recs[n]);
        assert kept' == kept + [marked] && kept'[..|kept'| - 1] == kept && recs[..|recs| - 1] == recs[..n];
      } else {
        assert kept' == kept + [] == kept;
      }
    }
  }

  lemma {:induction false} WithinMember(out: seq<Recommendation>, recs: seq<Recommendation>, i: nat) returns (k: nat)
    requires Within(out, recs) && i < |out|
    ensures k < |recs| && SamePick(out[i], recs[k])
  {
    var n := |recs| - 1;
    if SamePick(out[|out| - 1], recs[n]) && Within(out[..|out| - 1], recs[..n]) {
      if i == |out| - 1 {
        k := n;
      } else {
        k := WithinMember(out[..|out| - 1], recs[..n], i);
      }
    } else {
      k := WithinMember(out, recs[..n], i);
    }
  }

  lemma SamePickSameOrder(a: Recommendation, b: Recommendation, a': Recommendation, b': Recommendation)
    requires SamePick(a, a') && SamePick(b, b')
    ensures PickBefore(a, b) == PickBefore(a', b')
  {
  }

  lemma {:induction false} WithinSorted(out: seq<Recommendation>, recs: seq<Recommendation>)
    requires Within(out, recs) && Sorted(PickBefore, recs)
    ensures Sorted(PickBefore, out)
  {
    if out != [] {
      var n, m := |recs| - 1, |out| - 1;
      assert Sorted(PickBefore, recs[..n]);
      if SamePick(out[m], recs[n]) && Within(out[..m], recs[..n]) {
        WithinSorted(out[..m], recs[..n]);
        forall i | 0 <= i < m ensures !PickBefore(out[m], out[i]) {
          var k := WithinMember(out[..m], recs[..n], i);
          assert !PickBefore(recs[n], recs[k]);
          SamePickSameOrder(out[m], out[i], recs[n], recs[k]);
        }
        assert out == out[..m] + [out[m]];
      } else {
        WithinSorted(out, recs[..n]);
      }
    }
  }

  /** What is emitted is in comparator order although both guards removed items after the sort. */
  lemma EmittedIsSorted(s: Settings, recs: seq<Recommendation>)
    ensures Sorted(PickBefore, Emitted(s, recs))
  {
    PickOrderIsStrictWeak();
    var sorted := StableSort(PickBefore, recs);
    SortSorts(PickBefore, recs);
    RetainedWithin(s.correlation, sorted);
    var retained := Guard(s.correlation, sorted).retained;
    WithinSorted(retained, sorted);
    AllowedWithin(Circuit.StatusOf(s.circuit, s.metrics), retained);
    WithinSorted(Emitted(s, recs), retained);
  }

  /** The breaker leaves all the exposure or none of it. */
  lemma {:induction false} AllowedExposure(status: Circuit.Status, recs: seq<Recommendation>, game: GameKey, day: DayKey)
    ensures GamePicks(Circuit.Allowed(status, recs), game) == if status.pass then GamePicks(recs, game) else 0
    ensures GameStake(Circuit.Allowed(status, recs), game) == if status.pass then GameStake(recs, game) else 0.0
    ensures DayPicks(Circuit.Allowed(status, recs), day) == if status.pass then DayPicks(recs, day) else 0
  {
    if recs != [] {
      var n := |recs| - 1;
      AllowedExposure(status, recs[..n], game, day);
      var kept := Circuit.Allowed(status, recs[..n]);
      ExposureAppend(kept, Circuit.CircuitMark(status, recs[n]), game, day);
      assert kept + [] == kept;
    }
  }

  lemma EmittedWithinCaps(s: Settings, recs: seq<Recommendation>)
    requires ValidPolicy(s.correlation)
    ensures WithinCaps(s.correlation, Emitted(s, recs))
  {
    var sorted := StableSort(PickBefore, recs);
    RetainedWithinCaps(s.correlation, sorted);
    var retained := Guard(s.correlation, sorted).retained;
    var status := Circuit.StatusOf(s.circuit, s.metrics);
    forall game: GameKey
      ensures GamePicks(Emitted(s, recs), game) <= s.correlation.maxPerGame
      ensures GameStake(Emitted(s, recs), game) <= s.correlation.maxFractionPerGame + STAKE_EPSILON
    {
      AllowedExposure(status, retained, game, ("", 0));
    }
    forall day: DayKey ensures s.correlation.maxPerSportDay > 0 ==> DayPicks(Emitted(s, recs), day) <= s.correlation.maxPerSportDay {
      AllowedExposure(status, retained, ("", 0), day);
    }
  }

  lemma EmittedHasPick(s: Settings, recs: seq<Recommendation>, i: nat) returns (k: nat)
    requires i < |Emitted(s, recs)|
    ensures k < |recs| && SamePick(Emitted(s, recs)[i], recs[k])
  {
    var sorted := StableSort(PickBefore, recs);
    var retained := Guard(s.correlation, sorted).retained;
    AllowedWithin(Circuit.StatusOf(s.circuit, s.metrics), retained);
    RetainedWithin(s.correlation, sorted);
    SortPermutes(PickBefore, recs);
    var a := WithinMember(Emitted(s, recs), retained, i);
    var b := WithinMember(retained, sorted, a);
    assert sorted[b] in multiset(recs);
    k :| 0 <= k < |recs| && recs[k] == sorted[b];
  }

  /** A built list is sorted, within every cap, and each item is a candidate's own pick, has an edge, and stakes
      between nothing and the available cents; with a tripped breaker it stakes nothing. */
  lemma BuildIsSound(cs: seq<Candidate>, cfg: BuildConfig, i: nat) returns (k: nat)
    requires Build(cs, cfg).Ok? && i < |Build(cs, cfg).value|
    ensures var s, out := Resolve(cfg).value, Build(cs, cfg).value;
            && Sorted(PickBefore, out)
            && WithinCaps(s.correlation, out)
            && k < |cs| && Evaluate(cfg, s, cs[k]).Ok? && Evaluate(cfg, s, cs[k]).value.Some?
            && SamePick(out[i], Evaluate(cfg, s, cs[k]).value.value)
            && out[i].edge == Abs(cs[k].model - cs[k].marketProbability) > 0.0
            && 0 <= out[i].stakeCents <= cfg.availableCents
            && (Circuit.Triggered(s.circuit, s.metrics) != [] ==> out[i].stakeCents == 0)
  {
    var s, out := Resolve(cfg).value, Build(cs, cfg).value;
    var recs := Picks(cfg, s, cs);
    EmittedIsSorted(s, recs);
    EmittedWithinCaps(s, recs);
    var j := EmittedHasPick(s, recs, i);
    k := PickHasCandidate(cfg, s, cs, j);
    var c := cs[k];
    var ev := EvaluateThreshold(c.sport, c.model, c.marketProbability, cfg.minEdge).value;
    var req := RequestFor(cfg, s.bankroll, c, ev.side, Shop(c.quotes, ev.side).odds);
    StakeWithinAvailable(ResolveKellyPolicy(c.sport, cfg.kelly, cfg.maxBet).value, req);
    if Circuit.Triggered(s.circuit, s.metrics) != [] {
      Circuit.TrippedEmitsNoStake(s.circuit, s.metrics, Guard(s.correlation, StableSort(PickBefore, recs)).retained, i);
    }
  }

  /** A pick is for the side the model favours, at the best price quoted for that side, and it stakes something only when
      the model's probability of that side beats the one implied by that very price. */
  lemma PickBeatsItsPrice(cfg: BuildConfig, s: Settings, c: Candidate, i: nat)
    requires Evaluate(cfg, s, c).Ok? && Evaluate(cfg, s, c).value.Some? && i < |c.quotes|
    ensures var rec := Evaluate(cfg, s, c).value.value;
            var side := if c.model < c.marketProbability then Away else Home;
            var probability := if side == Away then 1.0 - c.model else c.model;
            && rec.side == SideLabel(c.market, side)
            && Valid(rec.odds) && OddsFor(c.quotes[i], side) <= rec.odds
            && (exists k :: 0 <= k < |c.quotes| && OddsFor(c.quotes[k], side) == rec.odds && Text.Trim(c.quotes[k].book) == rec.book)
            && (rec.stakeCents > 0 ==> probability > ImpliedProbability(rec.odds))
  {
    var rec := Evaluate(cfg, s, c).value.value;
    var side := EvaluateThreshold(c.sport, c.model, c.marketProbability, cfg.minEdge).value.side;
    var best := BestIndex(c.quotes, side);
    assert WellFormed(c.quotes[best]) && OddsFor(c.quotes[best], side) == rec.odds;
    var req := RequestFor(cfg, s.bankroll, c, side, rec.odds);
    StakeNeedsEdge(ResolveKellyPolicy(c.sport, cfg.kelly, cfg.maxBet).value, req);
  }

  lemma StakeNeedsEdge(policy: KellyPolicy, req: StakeRequest)
    ensures StakeCents(policy, req) > 0 ==> Valid(req.odds) && req.probability > ImpliedProbability(req.odds)
  {
    if Sizable(req) {
      KellyPositiveIffEdge(req.probability, req.odds);
    }
  }

  /** Leaving the sizing bankroll at zero sizes from the available one, and then the funds check never fails. */
  lemma DefaultSizingIsFunded(cfg: BuildConfig, c: Candidate)
    requires cfg.sizingCents == 0 && Resolve(cfg).Ok?
    ensures var s := Resolve(cfg).value;
            forall side, odds ::
              var req := RequestFor(cfg, s.bankroll, c, side, odds);
              Sizable(req) && ResolveKellyPolicy(c.sport, cfg.kelly, cfg.maxBet).Ok? ==>
                WantedCents(ResolveKellyPolicy(c.sport, cfg.kelly, cfg.maxBet).value, req) <= cfg.availableCents
  {
    var s := Resolve(cfg).value;
    forall side, odds
      ensures var req := RequestFor(cfg, s.bankroll, c, side, odds);
              Sizable(req) && ResolveKellyPolicy(c.sport, cfg.kelly, cfg.maxBet).Ok? ==>
                WantedCents(ResolveKellyPolicy(c.sport, cfg.kelly, cfg.maxBet).value, req) <= cfg.availableCents
    {
      var req := RequestFor(cfg, s.bankroll, c, side, odds);
      if Sizable(req) && ResolveKellyPolicy(c.sport, cfg.kelly, cfg.maxBet).Ok? {
        OwnBankrollSuffices(ResolveKellyPolicy(c.sport, cfg.kelly, cfg.maxBet).value, req);
      }
    }
  }

  // ---- rounding against the game cap ----

  /** A lone pick capped at exactly the game's stake cap survives the guard if and only if rounding the capped dollars
      to cents did not lift them above the cap. */
  lemma CappedStakeSurvivesIff(policy: KellyPolicy, guard: CorrelationPolicy, req: StakeRequest,
                               kept: seq<Recommendation>, rec: Recommendation)
    requires ValidPolicy(guard) && guard.maxPerSportDay == 0 && policy.maxBet == guard.maxFractionPerGame
    requires Sizable(req) && RawFraction(req) > 0.0 && RawFraction(req) * policy.kelly >= policy.maxBet
    requires GamePicks(kept, GameOf(rec)) == 0 && GameStake(kept, GameOf(rec)) == 0.0
    requires rec.stakeCents == StakeCents(policy, req) > 0 && rec.stakeFraction == StakeFraction(policy, req)
    requires Portion(req.bankroll, policy.maxBet) <= req.availableCents
    ensures Keeps(Verdict(guard, kept, rec)) <==>
              Portion(req.bankroll, policy.maxBet) as real / 100.0 <= (policy.maxBet + STAKE_EPSILON) * req.bankroll
  {
    assert CappedFraction(policy, RawFraction(req)) == policy.maxBet;
    NothingFromNothing(policy, RawFraction(req));
    QuotientWithin(rec.stakeCents as real / 100.0, req.bankroll, policy.maxBet + STAKE_EPSILON);
  }

  lemma QuotientWithin(x: real, y: real, bound: real)
    requires y > 0.0
    ensures x / y <= bound <==> x <= bound * y
  {
    var q := x / y;
    assert q * y == x;
    if q <= bound {
      ProductMonotone(y, q, bound);
    } else {
      ProductPositive(q - bound, y);
    }
  }

  /** With the defaults a capped MLB pick on $100.17 rounds $3.0051 up to $3.01 and is dropped. */
  lemma RoundedUpStakeIsDropped(rec: Recommendation)
    requires rec.stakeCents == 301 && rec.stakeFraction == 3.01 / 100.17
    ensures var req := StakeRequest(MLB, 0.9, 100, 100.17, 10017, 0.0, 0.0);
            && ResolveKellyPolicy(MLB, 0.0, 0.0).Ok? && Sizable(req)
            && StakeCents(ResolveKellyPolicy(MLB, 0.0, 0.0).value, req) == 301
            && Verdict(DEFAULT_POLICY, [], rec) == TooMuchPerGame
  {
    var req := StakeRequest(MLB, 0.9, 100, 100.17, 10017, 0.0, 0.0);
    var policy := ResolveKellyPolicy(MLB, 0.0, 0.0).value;
    assert DecimalOf(100) == 2.0;
    assert RawFraction(req) == 0.8;
    assert CappedFraction(policy, 0.8) == 0.03;
  }
}
