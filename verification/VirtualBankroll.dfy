/** The compounding bankroll of the backtest replay: internal/backtest/virtual_bankroll.go and the replay loop of
    internal/backtest/engine.go. */
module VirtualBankroll {
  import opened Wrappers
  import opened Reals
  import opened Sizing
  import Text

  datatype BankrollConfig = BankrollConfig(sport: Sport, starting: real, kelly: real, maxStake: real, minimumDollars: real)

  /** One historical quote pair: its three timestamps, the home probability the model predicts for it (feature building
      and prediction may fail), and whether the prediction could be stored. */
  datatype Row = Row(
    sport: string, commence: Option<int>, openedAt: Option<int>, closedAt: Option<int>,
    opening: real, closing: real, prediction: Result<real>, stored: bool)

  datatype Position = Position(home: bool, opening: real, closing: real, edge: real)

  datatype ReplayOutcome = ReplayOutcome(position: Position, clv: real, sizing: EdgeSizing, balancePost: real)

  /** Rejects out-of-range settings and fixes the sport's policy once when a sport is set; without one, both overrides or
      neither are needed. */
  function ResolveConfig(cfg: BankrollConfig): (res: Result<BankrollConfig>)
    ensures res.Ok? <==>
      && cfg.starting > 0.0 && 0.0 <= cfg.kelly <= 1.0 && 0.0 <= cfg.maxStake <= 1.0 && cfg.minimumDollars >= 0.0
      && (if cfg.sport == "" then cfg.kelly > 0.0 <==> cfg.maxStake > 0.0 else Supported(cfg.sport))
    ensures res.Ok? && cfg.kelly > 0.0 ==> res.value.kelly == cfg.kelly
    ensures res.Ok? && cfg.maxStake > 0.0 ==> res.value.maxStake == cfg.maxStake
    ensures res.Ok? ==> res.value == cfg.(kelly := res.value.kelly, maxStake := res.value.maxStake)
    ensures res.Ok? ==> if cfg.sport == "" then res.value == cfg
                        else KellyPolicy(cfg.sport, res.value.kelly, res.value.maxStake) == ResolveKellyPolicy(cfg.sport, cfg.kelly, cfg.maxStake).value
    ensures res.Ok? ==> cfg.starting > 0.0 && 0.0 <= res.value.kelly <= 1.0 && 0.0 <= res.value.maxStake <= 1.0
    ensures res.Ok? ==> forall sport :: Supported(sport) ==>
      ResolveKellyPolicy(if cfg.sport != "" then cfg.sport else sport, res.value.kelly, res.value.maxStake).Ok?
  {
    if cfg.starting <= 0.0 then Err("starting bankroll must be > 0")
    else if cfg.kelly < 0.0 || cfg.kelly > 1.0 then Err("kelly fraction must be in [0,1]")
    else if cfg.maxStake < 0.0 || cfg.maxStake > 1.0 then Err("max stake fraction must be in [0,1]")
    else if cfg.minimumDollars < 0.0 then Err("minimum stake dollars must be >= 0")
    else if cfg.sport != "" then
      match ResolveKellyPolicy(cfg.sport, cfg.kelly, cfg.maxStake)
      case Err(message) => Err(message)
      case Ok(policy) => Ok(cfg.(kelly := policy.kelly, maxStake := policy.maxBet))
    else if (cfg.kelly > 0.0) != (cfg.maxStake > 0.0) then Err("overrides must both be set when sport is empty")
    else Ok(cfg)
  }

  /** The stake on an edge, nothing below the minimum. */
  function StakeOn(cfg: BankrollConfig, balance: real, sport: Sport, edge: real): Result<EdgeSizing> {
    match RecommendStake(if cfg.sport != "" then cfg.sport else sport, balance, edge, cfg.kelly, cfg.maxStake)
    case Err(message) => Err(message)
    case Ok(sizing) => Ok(if sizing.dollars < cfg.minimumDollars then sizing.(dollars := 0.0, fraction := 0.0) else sizing)
  }

  /** The balance once a stake has moved with the price, never below zero. */
  function AfterCLV(balance: real, stake: real, clv: real): real {
    if stake <= 0.0 then balance
    else
      var moved := balance + MinReal(stake, balance) * clv;
      if moved < 0.0 then 0.0 else moved
  }

  lemma AfterCLVMeans(balance: real, stake: real, clv: real)
    ensures 0.0 <= balance <= stake ==> AfterCLV(balance, stake, clv) == if clv >= -1.0 then balance * (1.0 + clv) else 0.0
    ensures 0.0 <= stake <= balance && -1.0 <= clv ==> AfterCLV(balance, stake, clv) == balance + stake * clv
  {
    assert balance * (1.0 + clv) == balance + balance * clv;
    if balance >= 0.0 && clv >= -1.0 {
      ProductNonNegative(balance, 1.0 + clv);
      if stake >= 0.0 { ProductNonNegative(stake, 1.0 + clv); }
    } else if balance >= 0.0 && clv < -1.0 {
      ProductNonNegative(balance, -(1.0 + clv));
    }
  }

  /** The side the model favours, with its prices and edge. */
  function PositionOf(row: Row): Position
    requires row.prediction.Ok?
  {
    var predicted := row.prediction.value;
    if predicted < row.opening then
      Position(false, 1.0 - row.opening, 1.0 - row.closing, (1.0 - predicted) - (1.0 - row.opening))
    else Position(true, row.opening, row.closing, predicted - row.opening)
  }

  predicate ValidRow(row: Row) {
    && Supported(Text.Trim(row.sport)) && row.commence.Some? && row.openedAt.Some? && row.closedAt.Some?
    && 0.0 <= row.opening <= 1.0 && 0.0 <= row.closing <= 1.0
    && row.prediction.Ok? && row.stored
  }

  function Played(cfg: BankrollConfig, balance: real, row: Row): Result<ReplayOutcome> {
    if !ValidRow(row) then Err("invalid replay row")
    else
      var p := PositionOf(row);
      match StakeOn(cfg, balance, Text.Trim(row.sport), p.edge)
      case Err(message) => Err(message)
      case Ok(sizing) =>
        Ok(ReplayOutcome(p, p.closing - p.opening, sizing, AfterCLV(balance, sizing.dollars, p.closing - p.opening)))
  }

  function LastBalance(cfg: BankrollConfig, outcomes: seq<ReplayOutcome>): real {
    if outcomes == [] then cfg.starting else outcomes[|outcomes| - 1].balancePost
  }

  function Replayed(cfg: BankrollConfig, rows: seq<Row>): Result<seq<ReplayOutcome>> {
    if rows == [] then Ok([])
    else
      match Replayed(cfg, rows[..|rows| - 1])
      case Err(message) => Err(message)
      case Ok(outcomes) =>
        match Played(cfg, LastBalance(cfg, outcomes), rows[|rows| - 1])
        case Err(message) => Err(message)
        case Ok(outcome) => Ok(outcomes + [outcome])
  }

  class Bankroll {
    const cfg: BankrollConfig
    var balance: real

    constructor (cfg: BankrollConfig)
      ensures this.cfg == cfg && balance == cfg.starting
    {
      this.cfg := cfg;
      balance := cfg.starting;
    }

    method RecommendStakeForSport(sport: Sport, edge: real) returns (res: Result<EdgeSizing>)
      ensures res == StakeOn(cfg, balance, sport, edge)
    {
      var effective := sport;
      if cfg.sport != "" {
        effective := cfg.sport;
      }
      res := RecommendStake(effective, balance, edge, cfg.kelly, cfg.maxStake);
      if res.Ok? && res.value.dollars < cfg.minimumDollars {
        res := Ok(res.value.(dollars := 0.0, fraction := 0.0));
      }
    }

    method ApplyCLV(stake: real, clv: real)
      modifies this
      ensures balance == AfterCLV(old(balance), stake, clv)
      ensures 0.0 <= old(balance) <= stake ==> balance == if clv >= -1.0 then old(balance) * (1.0 + clv) else 0.0
      ensures 0.0 <= stake <= old(balance) && -1.0 <= clv ==> balance == old(balance) + stake * clv
    {
      AfterCLVMeans(balance, stake, clv);
      if stake <= 0.0 {
        return;
      }
      var capped := stake;
      if capped > balance {
        capped := balance;
      }
      balance := balance + capped * clv;
      if balance < 0.0 {
        balance := 0.0;
      }
    }
  }

  // ---- what a row's outcome says ----

  /** The stake follows the edge under the policy that resolves for the row. */
  predicate StakesEdge(cfg: BankrollConfig, balance: real, sport: Sport, edge: real, s: EdgeSizing) {
    && ResolveKellyPolicy(if cfg.sport != "" then cfg.sport else sport, cfg.kelly, cfg.maxStake) == Ok(s.policy)
    && StakesEdgeShare(s, balance, edge, cfg.minimumDollars)
  }

  /** The position is on the side of the market the model is on, at that side's prices. */
  predicate SidesWith(predicted: real, opening: real, closing: real, p: Position) {
    && (p.home <==> predicted >= opening)
    && p.edge == (if predicted >= opening then predicted - opening else opening - predicted)
    && p.opening == (if p.home then opening else 1.0 - opening)
    && p.closing == (if p.home then closing else 1.0 - closing)
  }

  /** The balance moves by stake times price movement, so a staked row gains exactly when the price closed on the model's
      side of its opening. */
  predicate Books(balance: real, predicted: real, opening: real, closing: real, o: ReplayOutcome) {
    && o.clv == (if predicted >= opening then closing - opening else opening - closing)
    && o.balancePost == balance + o.sizing.dollars * o.clv
    && (o.sizing.dollars > 0.0 ==> (o.balancePost > balance <==> if predicted > opening then closing > opening else closing < opening))
  }

  predicate FollowsModel(cfg: BankrollConfig, balance: real, row: Row, o: ReplayOutcome) {
    && row.prediction.Ok?
    && SidesWith(row.prediction.value, row.opening, row.closing, o.position)
    && StakesEdge(cfg, balance, Text.Trim(row.sport), o.position.edge, o.sizing)
    && Books(balance, row.prediction.value, row.opening, row.closing, o)
  }

  lemma PositionSides(row: Row)
    requires row.prediction.Ok?
    ensures SidesWith(row.prediction.value, row.opening, row.closing, PositionOf(row))
  {
  }

  lemma StakeOnEdge(cfg: BankrollConfig, balance: real, sport: Sport, edge: real)
    requires balance >= 0.0 && cfg.minimumDollars >= 0.0
    ensures StakeOn(cfg, balance, sport, edge).Ok? ==> StakesEdge(cfg, balance, sport, edge, StakeOn(cfg, balance, sport, edge).value)
  {
    var effective := if cfg.sport != "" then cfg.sport else sport;
    var res := RecommendStake(effective, balance, edge, cfg.kelly, cfg.maxStake);
    if res.Ok? {
      RecommendStakeMeans(effective, balance, edge, cfg.kelly, cfg.maxStake);
      MinimumKept(res.value, balance, edge, cfg.minimumDollars);
    }
  }

  lemma MoveSign(balance: real, stake: real, clv: real, after: real)
    requires stake > 0.0 && after == balance + stake * clv
    ensures after > balance <==> clv > 0.0
  {
    if clv > 0.0 { ProductPositive(stake, clv); } else { ProductNonNegative(stake, -clv); }
  }

  lemma MoveBooks(balance: real, predicted: real, opening: real, closing: real, o: ReplayOutcome)
    requires o.clv == (if predicted >= opening then closing - opening else opening - closing)
    requires o.balancePost == balance + o.sizing.dollars * o.clv && (o.sizing.dollars > 0.0 ==> predicted != opening)
    ensures Books(balance, predicted, opening, closing, o)
  {
    if o.sizing.dollars > 0.0 {
      MoveSign(balance, o.sizing.dollars, o.clv, o.balancePost);
    }
  }

  lemma SizingBooks(balance: real, predicted: real, opening: real, closing: real, p: Position, s: EdgeSizing)
    requires 0.0 <= s.dollars <= balance && 0.0 <= opening <= 1.0 && 0.0 <= closing <= 1.0
    requires SidesWith(predicted, opening, closing, p) && (s.dollars > 0.0 ==> p.edge > 0.0)
    ensures var o := ReplayOutcome(p, p.closing - p.opening, s, AfterCLV(balance, s.dollars, p.closing - p.opening));
            Books(balance, predicted, opening, closing, o) && o.balancePost >= 0.0
  {
    var o := ReplayOutcome(p, p.closing - p.opening, s, AfterCLV(balance, s.dollars, p.closing - p.opening));
    UnclampedCLV(balance, s.dollars, p.closing - p.opening);
    MoveBooks(balance, predicted, opening, closing, o);
  }

  lemma StakeWithinBalance(cfg: BankrollConfig, balance: real, sport: Sport, edge: real)
    requires balance >= 0.0
    ensures StakeOn(cfg, balance, sport, edge).Ok? ==>
      var s := StakeOn(cfg, balance, sport, edge).value; 0.0 <= s.dollars <= balance && (s.dollars > 0.0 ==> edge > 0.0)
  {
  }

  lemma PlayedFollows(cfg: BankrollConfig, balance: real, row: Row)
    requires balance >= 0.0 && cfg.minimumDollars >= 0.0 && Played(cfg, balance, row).Ok?
    ensures FollowsModel(cfg, balance, row, Played(cfg, balance, row).value)
    ensures Played(cfg, balance, row).value.balancePost >= 0.0
  {
    var p, sport := PositionOf(row), Text.Trim(row.sport);
    PositionSides(row);
    StakeOnEdge(cfg, balance, sport, p.edge);
    StakeWithinBalance(cfg, balance, sport, p.edge);
    SizingBooks(balance, row.prediction.value, row.opening, row.closing, p, StakeOn(cfg, balance, sport, p.edge).value);
  }

  /** One row of the replay loop: pick the side, stake its edge, book the price movement. */
  method Play(bankroll: Bankroll, row: Row) returns (res: Result<ReplayOutcome>)
    modifies bankroll
    ensures res.Ok? <==> Played(bankroll.cfg, old(bankroll.balance), row).Ok?
    ensures res.Ok? ==> res == Played(bankroll.cfg, old(bankroll.balance), row) && bankroll.balance == res.value.balancePost
    ensures res.Err? ==> bankroll.balance == old(bankroll.balance)
    ensures res.Ok? && old(bankroll.balance) >= 0.0 && bankroll.cfg.minimumDollars >= 0.0 ==>
      FollowsModel(bankroll.cfg, old(bankroll.balance), row, res.value)
  {
    if Played(bankroll.cfg, bankroll.balance, row).Ok? && bankroll.balance >= 0.0 && bankroll.cfg.minimumDollars >= 0.0 {
      PlayedFollows(bankroll.cfg, bankroll.balance, row);
    }
    if !Supported(Text.Trim(row.sport)) {
      return Err("unsupported sport in replay row");
    }
    if row.commence.None? || row.openedAt.None? || row.closedAt.None? {
      return Err("timestamp is required");
    }
    if row.opening < 0.0 || row.opening > 1.0 || row.closing < 0.0 || row.closing > 1.0 {
      return Err("home probability out of range");
    }
    if row.prediction.Err? {
      return Err(row.prediction.message);
    }
    var predicted := row.prediction.value;
    if !row.stored {
      return Err("persist prediction");
    }
    var home, opening, closing := true, row.opening, row.closing;
    var edge := predicted - row.opening;
    if predicted < row.opening {
      home, opening, closing := false, 1.0 - row.opening, 1.0 - row.closing;
      edge := (1.0 - predicted) - (1.0 - row.opening);
    }
    var clv := closing - opening;
    var sized := bankroll.RecommendStakeForSport(Text.Trim(row.sport), edge);
    if sized.Err? {
      return Err(sized.message);
    }
    bankroll.ApplyCLV(sized.value.dollars, clv);
    return Ok(ReplayOutcome(Position(home, opening, closing, edge), clv, sized.value, bankroll.balance));
  }

  /** The balance that row `i` is staked from. */
  function BalanceBefore(cfg: BankrollConfig, out: seq<ReplayOutcome>, i: nat): real
    requires i <= |out|
  {
    if i == 0 then cfg.starting else out[i - 1].balancePost
  }

  ghost predicate Chain(cfg: BankrollConfig, rows: seq<Row>, out: seq<ReplayOutcome>, fact: (real, Row, ReplayOutcome) -> bool) {
    |out| == |rows| && forall i :: 0 <= i < |rows| ==> fact(BalanceBefore(cfg, out, i), rows[i], out[i])
  }

  lemma ChainExtends(cfg: BankrollConfig, rows: seq<Row>, out: seq<ReplayOutcome>, o: ReplayOutcome, fact: (real, Row, ReplayOutcome) -> bool)
    requires rows != [] && Chain(cfg, rows[..|rows| - 1], out, fact) && fact(LastBalance(cfg, out), rows[|rows| - 1], o)
    ensures Chain(cfg, rows, out + [o], fact)
  {
    var n, longer := |rows| - 1, out + [o];
    forall i | 0 <= i < |rows| ensures fact(BalanceBefore(cfg, longer, i), rows[i], longer[i]) {
      if i < n {
        assert rows[..n][i] == rows[i] && fact(BalanceBefore(cfg, out, i), rows[..n][i], out[i]);
      }
    }
  }

  function Follower(cfg: BankrollConfig): (real, Row, ReplayOutcome) -> bool {
    (balance, row, o) => FollowsModel(cfg, balance, row, o)
  }

  lemma {:induction false} ReplayFollows(cfg: BankrollConfig, rows: seq<Row>)
    requires cfg.starting > 0.0 && cfg.minimumDollars >= 0.0 && Replayed(cfg, rows).Ok?
    ensures Chain(cfg, rows, Replayed(cfg, rows).value, Follower(cfg)) && LastBalance(cfg, Replayed(cfg, rows).value) >= 0.0
  {
    if rows != [] {
      var n := |rows| - 1;
      ReplayFollows(cfg, rows[..n]);
      var out := Replayed(cfg, rows[..n]).value;
      PlayedFollows(cfg, LastBalance(cfg, out), rows[n]);
      ChainExtends(cfg, rows, out, Played(cfg, LastBalance(cfg, out), rows[n]).value, Follower(cfg));
    }
  }

  ghost predicate AllFollow(cfg: BankrollConfig, rows: seq<Row>, out: seq<ReplayOutcome>) {
    |out| == |rows| && forall i :: 0 <= i < |rows| ==> FollowsModel(cfg, BalanceBefore(cfg, out, i), rows[i], out[i])
  }

  lemma ChainFollows(cfg: BankrollConfig, rows: seq<Row>, out: seq<ReplayOutcome>)
    requires Chain(cfg, rows, out, Follower(cfg))
    ensures AllFollow(cfg, rows, out)
  {
    forall i | 0 <= i < |rows| ensures FollowsModel(cfg, BalanceBefore(cfg, out, i), rows[i], out[i]) {
      assert Follower(cfg)(BalanceBefore(cfg, out, i), rows[i], out[i]);
    }
  }

  method ReplayRows(cfg: BankrollConfig, rows: seq<Row>) returns (res: Result<seq<ReplayOutcome>>)
    ensures res.Ok? <==> Replayed(cfg, rows).Ok?
    ensures res.Ok? ==> res == Replayed(cfg, rows)
  {
    var bankroll := new Bankroll(cfg);
    var outcomes: seq<ReplayOutcome> := [];
    for i := 0 to |rows|
      invariant bankroll.cfg == cfg
      invariant Replayed(cfg, rows[..i]) == Ok(outcomes)
      invariant bankroll.balance == LastBalance(cfg, outcomes)
    {
      assert rows[..i + 1][..i] == rows[..i];
      var played := Play(bankroll, rows[i]);
      if played.Err? {
        ReplayFailsFrom(cfg, rows, i + 1);
        return Err(played.message);
      }
      outcomes := outcomes + [played.value];
    }
    assert rows[..|rows|] == rows;
    return Ok(outcomes);
  }

  /** The replay stakes every row on the model's side, from the balance the earlier rows left. */
  method Replay(config: BankrollConfig, rows: seq<Row>) returns (res: Result<seq<ReplayOutcome>>)
    ensures res.Ok? <==>
      && rows != [] && ResolveConfig(config).Ok?
      && forall row :: row in rows ==>
           && Text.Trim(row.sport) in {"MLB", "NBA", "NHL", "NFL"}
           && row.commence.Some? && row.openedAt.Some? && row.closedAt.Some?
           && 0.0 <= row.opening <= 1.0 && 0.0 <= row.closing <= 1.0 && row.prediction.Ok? && row.stored
    ensures res.Ok? ==> res == Replayed(ResolveConfig(config).value, rows)
    ensures res.Ok? ==> AllFollow(ResolveConfig(config).value, rows, res.value)
  {
    if rows == [] {
      return Err("no replay rows found");
    }
    var resolved := ResolveConfig(config);
    if resolved.Err? {
      return Err(resolved.message);
    }
    ReplaySucceedsIff(config, rows);
    res := ReplayRows(resolved.value, rows);
    if res.Ok? {
      ReplayFollows(resolved.value, rows);
      ChainFollows(resolved.value, rows, res.value);
    }
  }

  lemma {:induction false} ReplayFailsFrom(cfg: BankrollConfig, rows: seq<Row>, k: nat)
    requires k <= |rows| && Replayed(cfg, rows[..k]).Err?
    ensures Replayed(cfg, rows).Err?
    decreases |rows|
  {
    if k == |rows| {
      assert rows[..k] == rows;
    } else {
      assert rows[..|rows| - 1][..k] == rows[..k];
      ReplayFailsFrom(cfg, rows[..|rows| - 1], k);
    }
  }

  // ---- main results ----

  /** `start` times the `n`-th power of `factor`. */
  function Compound(start: real, factor: real, n: nat): real {
    if n == 0 then start else Compound(start, factor, n - 1) * factor
  }

  /** The largest fraction of the balance a row may stake is at most `m`. */
  ghost predicate Capped(cfg: BankrollConfig, rows: seq<Row>, m: real) {
    && 0.0 <= m <= 1.0
    && forall i :: 0 <= i < |rows| ==>
      var policy := ResolveKellyPolicy(if cfg.sport != "" then cfg.sport else Text.Trim(rows[i].sport), cfg.kelly, cfg.maxStake);
      policy.Ok? ==> policy.value.maxBet <= m
  }

  lemma ScaledWithin(balance: real, low: real, high: real, f: real, m: real, clv: real, stake: real, after: real, low': real, high': real)
    requires 0.0 <= low <= balance <= high && 0.0 <= f <= m <= 1.0 && -1.0 <= clv <= 1.0
    requires stake == balance * f && after == balance + stake * clv && low' == low * (1.0 - m) && high' == high * (1.0 + m)
    ensures 0.0 <= low' <= after <= high'
  {
    StakeBelow(balance, f, m, stake);
    MoveWithin(stake, balance * m, clv);
    ScaleLow(low, balance, m);
    ScaleHigh(balance, high, m);
    ProductNonNegative(low, 1.0 - m);
  }

  lemma StakeBelow(balance: real, f: real, m: real, stake: real)
    requires 0.0 <= balance && 0.0 <= f <= m && stake == balance * f
    ensures 0.0 <= stake <= balance * m
  {
    ProductMonotone(balance, f, m);
    ProductNonNegative(balance, f);
  }

  lemma MoveWithin(stake: real, most: real, clv: real)
    requires 0.0 <= stake <= most && -1.0 <= clv <= 1.0
    ensures -most <= stake * clv <= most
  {
    ProductMonotone(stake, -1.0, clv);
    ProductMonotone(stake, clv, 1.0);
  }

  lemma ScaleLow(low: real, balance: real, m: real)
    requires low <= balance && m <= 1.0
    ensures low * (1.0 - m) <= balance - balance * m
  {
    ProductMonotone(1.0 - m, low, balance);
  }

  lemma ScaleHigh(balance: real, high: real, m: real)
    requires balance <= high && 0.0 <= m
    ensures balance + balance * m <= high * (1.0 + m)
  {
    ProductMonotone(1.0 + m, balance, high);
  }

  function Gain(o: ReplayOutcome): real {
    o.sizing.dollars * o.clv
  }

  /** A row's outcome booked without any clamp: an affordable stake of at most the fraction `m`, moved by the price. */
  predicate Booked(cfg: BankrollConfig, balance: real, o: ReplayOutcome, m: real) {
    && 0.0 <= o.sizing.fraction <= m && o.sizing.dollars == balance * o.sizing.fraction && 0.0 <= o.sizing.dollars <= balance
    && (o.sizing.dollars == 0.0 || o.sizing.dollars >= cfg.minimumDollars)
    && -1.0 <= o.clv <= 1.0 && o.balancePost == balance + Gain(o) && o.balancePost >= 0.0
  }

  ghost predicate Trace(cfg: BankrollConfig, outcomes: seq<ReplayOutcome>, m: real) {
    forall i :: 0 <= i < |outcomes| ==> Booked(cfg, LastBalance(cfg, outcomes[..i]), outcomes[i], m)
  }

  lemma BookedFrom(cfg: BankrollConfig, balance: real, p: Position, clv: real, s: EdgeSizing, m: real)
    requires 0.0 <= balance && -1.0 <= clv <= 1.0 && 0.0 <= s.fraction <= m <= 1.0 && s.dollars == balance * s.fraction
    requires s.dollars == 0.0 || s.dollars >= cfg.minimumDollars
    ensures Booked(cfg, balance, ReplayOutcome(p, clv, s, AfterCLV(balance, s.dollars, clv)), m)
  {
    FractionOf(balance, s.fraction, s.dollars);
    UnclampedCLV(balance, s.dollars, clv);
  }

  lemma UnclampedCLV(balance: real, stake: real, clv: real)
    requires 0.0 <= stake <= balance && -1.0 <= clv <= 1.0
    ensures AfterCLV(balance, stake, clv) == balance + stake * clv >= 0.0
  {
    MoveWithin(stake, stake, clv);
  }

  lemma FractionOf(x: real, f: real, part: real)
    requires 0.0 <= x && 0.0 <= f <= 1.0 && part == x * f
    ensures 0.0 <= part <= x
  {
    ProductMonotone(x, f, 1.0);
    ProductNonNegative(x, f);
  }

  lemma StakeFacts(cfg: BankrollConfig, balance: real, sport: Sport, edge: real)
    ensures StakeOn(cfg, balance, sport, edge).Ok? ==>
            var s := StakeOn(cfg, balance, sport, edge).value;
            && 0.0 <= s.fraction <= s.policy.maxBet && s.dollars == balance * s.fraction
            && (s.dollars == 0.0 || s.dollars >= cfg.minimumDollars)
            && ResolveKellyPolicy(if cfg.sport != "" then cfg.sport else sport, cfg.kelly, cfg.maxStake) == Ok(s.policy)
  {
  }

  lemma CapOfRow(cfg: BankrollConfig, row: Row, m: real)
    requires Capped(cfg, [row], m)
    ensures var policy := ResolveKellyPolicy(if cfg.sport != "" then cfg.sport else Text.Trim(row.sport), cfg.kelly, cfg.maxStake);
            policy.Ok? ==> policy.value.maxBet <= m <= 1.0
  {
    assert [row][0] == row;
  }

  lemma PlayedIsBooked(cfg: BankrollConfig, balance: real, row: Row, m: real)
    requires 0.0 <= balance && Capped(cfg, [row], m)
    ensures Played(cfg, balance, row).Ok? ==> Booked(cfg, balance, Played(cfg, balance, row).value, m)
  {
    if Played(cfg, balance, row).Ok? {
      var p, sport := PositionOf(row), Text.Trim(row.sport);
      CapOfRow(cfg, row, m);
      StakeFacts(cfg, balance, sport, p.edge);
      BookedFrom(cfg, balance, p, p.closing - p.opening, StakeOn(cfg, balance, sport, p.edge).value, m);
    }
  }

  lemma TraceExtends(cfg: BankrollConfig, before: seq<ReplayOutcome>, o: ReplayOutcome, m: real)
    requires Trace(cfg, before, m) && Booked(cfg, LastBalance(cfg, before), o, m)
    ensures Trace(cfg, before + [o], m)
  {
    var out := before + [o];
    forall i | 0 <= i < |out| ensures Booked(cfg, LastBalance(cfg, out[..i]), out[i], m) {
      assert out[..i] == if i < |before| then before[..i] else before;
    }
  }

  /** Neither clamp ever takes effect: every row of a replay is booked at face value. */
  lemma {:induction false} ReplayIsTrace(cfg: BankrollConfig, rows: seq<Row>, m: real)
    requires cfg.starting > 0.0 && Capped(cfg, rows, m) && Replayed(cfg, rows).Ok?
    ensures |Replayed(cfg, rows).value| == |rows|
    ensures Trace(cfg, Replayed(cfg, rows).value, m)
    ensures LastBalance(cfg, Replayed(cfg, rows).value) >= 0.0
  {
    if rows != [] {
      var n := |rows| - 1;
      ReplayIsTrace(cfg, rows[..n], m);
      var before := Replayed(cfg, rows[..n]).value;
      var o := Played(cfg, LastBalance(cfg, before), rows[n]).value;
      PlayedIsBooked(cfg, LastBalance(cfg, before), rows[n], m);
      TraceExtends(cfg, before, o, m);
    }
  }

  lemma BookedWithin(cfg: BankrollConfig, balance: real, o: ReplayOutcome, m: real, low: real, high: real, low': real, high': real)
    requires Booked(cfg, balance, o, m) && 0.0 <= low <= balance <= high && m <= 1.0
    requires low' == low * (1.0 - m) && high' == high * (1.0 + m)
    ensures 0.0 <= low' <= o.balancePost <= high'
  {
    ScaledWithin(balance, low, high, o.sizing.fraction, m, o.clv, o.sizing.dollars, o.balancePost, low', high');
  }

  lemma BookedCompounds(cfg: BankrollConfig, balance: real, o: ReplayOutcome, m: real, k: nat)
    requires Booked(cfg, balance, o, m) && m <= 1.0
    requires 0.0 <= Compound(cfg.starting, 1.0 - m, k) <= balance <= Compound(cfg.starting, 1.0 + m, k)
    ensures 0.0 <= Compound(cfg.starting, 1.0 - m, k + 1) <= o.balancePost <= Compound(cfg.starting, 1.0 + m, k + 1)
  {
    BookedWithin(cfg, balance, o, m, Compound(cfg.starting, 1.0 - m, k), Compound(cfg.starting, 1.0 + m, k),
                 Compound(cfg.starting, 1.0 - m, k + 1), Compound(cfg.starting, 1.0 + m, k + 1));
  }

  lemma {:induction false} TraceCompounds(cfg: BankrollConfig, outcomes: seq<ReplayOutcome>, m: real, i: nat)
    requires cfg.starting > 0.0 && m <= 1.0 && Trace(cfg, outcomes, m) && i <= |outcomes|
    ensures 0.0 <= Compound(cfg.starting, 1.0 - m, i) <= LastBalance(cfg, outcomes[..i]) <= Compound(cfg.starting, 1.0 + m, i)
  {
    if i > 0 {
      TraceCompounds(cfg, outcomes, m, i - 1);
      BookedCompounds(cfg, LastBalance(cfg, outcomes[..i - 1]), outcomes[i - 1], m, i - 1);
    }
  }

  /** Over any replay the balance after `i` rows lies between start * (1 - m)^i and start * (1 + m)^i. */
  lemma BalanceCompoundsWithin(cfg: BankrollConfig, rows: seq<Row>, m: real, i: nat)
    requires cfg.starting > 0.0 && Capped(cfg, rows, m) && i <= |rows|
    ensures Replayed(cfg, rows).Ok? ==> |Replayed(cfg, rows).value| == |rows|
    ensures Replayed(cfg, rows).Ok? ==>
      var balance := LastBalance(cfg, Replayed(cfg, rows).value[..i]);
      0.0 <= Compound(cfg.starting, 1.0 - m, i) <= balance <= Compound(cfg.starting, 1.0 + m, i)
  {
    if Replayed(cfg, rows).Ok? {
      ReplayIsTrace(cfg, rows, m);
      TraceCompounds(cfg, Replayed(cfg, rows).value, m, i);
    }
  }

  function TotalCLV(outcomes: seq<ReplayOutcome>): real {
    if outcomes == [] then 0.0
    else
      var last := outcomes[|outcomes| - 1];
      TotalCLV(outcomes[..|outcomes| - 1]) + Gain(last)
  }

  lemma {:induction false} TraceConserves(cfg: BankrollConfig, outcomes: seq<ReplayOutcome>, m: real)
    requires Trace(cfg, outcomes, m)
    ensures LastBalance(cfg, outcomes) == cfg.starting + TotalCLV(outcomes)
  {
    if outcomes != [] {
      var n := |outcomes| - 1;
      assert forall i :: 0 <= i < n ==> outcomes[..n][..i] == outcomes[..i];
      TraceConserves(cfg, outcomes[..n], m);
      assert Booked(cfg, LastBalance(cfg, outcomes[..n]), outcomes[n], m);
    }
  }

  /** The final balance is the start plus every stake times its price movement. */
  lemma BalanceIsStartPlusCLV(cfg: BankrollConfig, rows: seq<Row>)
    requires cfg.starting > 0.0
    ensures Replayed(cfg, rows).Ok? ==>
      LastBalance(cfg, Replayed(cfg, rows).value) == cfg.starting + TotalCLV(Replayed(cfg, rows).value) >= 0.0
  {
    if Replayed(cfg, rows).Ok? {
      ReplayIsTrace(cfg, rows, 1.0);
      TraceConserves(cfg, Replayed(cfg, rows).value, 1.0);
    }
  }

  lemma ValidRowPlays(config: BankrollConfig, balance: real, row: Row)
    requires ResolveConfig(config).Ok? && balance >= 0.0
    ensures Played(ResolveConfig(config).value, balance, row).Ok? <==> ValidRow(row)
  {
  }

  lemma LastRowDecides(config: BankrollConfig, rows: seq<Row>)
    requires ResolveConfig(config).Ok? && rows != []
    ensures var cfg := ResolveConfig(config).value;
            Replayed(cfg, rows).Ok? <==> Replayed(cfg, rows[..|rows| - 1]).Ok? && ValidRow(rows[|rows| - 1])
  {
    var n, cfg := |rows| - 1, ResolveConfig(config).value;
    if Replayed(cfg, rows[..n]).Ok? {
      ReplayIsTrace(cfg, rows[..n], 1.0);
      ValidRowPlays(config, LastBalance(cfg, Replayed(cfg, rows[..n]).value), rows[n]);
    }
  }

  /** A replay fails exactly for a bad row: unsupported sport, missing timestamp, price out of range, failed prediction or
      failed store. The sizing step itself never fails. */
  lemma {:induction false} ReplaySucceedsIff(config: BankrollConfig, rows: seq<Row>)
    requires ResolveConfig(config).Ok?
    ensures Replayed(ResolveConfig(config).value, rows).Ok? <==> forall row :: row in rows ==> ValidRow(row)
  {
    if rows != [] {
      var n := |rows| - 1;
      assert rows == rows[..n] + [rows[n]];
      ReplaySucceedsIff(config, rows[..n]);
      LastRowDecides(config, rows);
    }
  }

  /** The same game seen from the other side. */
  function Mirror(row: Row): Row {
    row.(opening := 1.0 - row.opening, closing := 1.0 - row.closing,
         prediction := match row.prediction case Ok(predicted) => Ok(1.0 - predicted) case Err(message) => Err(message))
  }

  function Mirrored(rows: seq<Row>): (ms: seq<Row>)
    ensures |ms| == |rows| && forall i :: 0 <= i < |rows| ==> ms[i] == Mirror(rows[i])
  {
    seq(|rows|, i requires 0 <= i < |rows| => Mirror(rows[i]))
  }

  /** Outcomes of a row and of its mirror: same stake and balance, sides swapped, except where the model agrees with the
      market, which is read as home both ways and stakes nothing. */
  predicate Twins(o: ReplayOutcome, o': ReplayOutcome, row: Row) {
    && o.sizing == o'.sizing && o.balancePost == o'.balancePost
    && (if row.prediction == Ok(row.opening) then o.position.home && o'.position.home && o.sizing.dollars == 0.0
        else o.position == o'.position.(home := !o'.position.home))
  }

  lemma MirrorPlayed(cfg: BankrollConfig, balance: real, row: Row)
    ensures Played(cfg, balance, row).Ok? <==> Played(cfg, balance, Mirror(row)).Ok?
    ensures Played(cfg, balance, row).Ok? ==> Twins(Played(cfg, balance, row).value, Played(cfg, balance, Mirror(row)).value, row)
  {
    if ValidRow(row) {
      var p, p' := PositionOf(row), PositionOf(Mirror(row));
      assert p.edge == p'.edge;
      if row.prediction.value != row.opening {
        assert p.opening == p'.opening && p.closing == p'.closing;
      }
    }
  }

  ghost predicate AllTwins(out: seq<ReplayOutcome>, out': seq<ReplayOutcome>, rows: seq<Row>) {
    |out| == |out'| == |rows| && forall i :: 0 <= i < |rows| ==> Twins(out[i], out'[i], rows[i])
  }

  lemma TwinsExtend(out: seq<ReplayOutcome>, out': seq<ReplayOutcome>, rows: seq<Row>, o: ReplayOutcome, o': ReplayOutcome)
    requires rows != [] && AllTwins(out, out', rows[..|rows| - 1]) && Twins(o, o', rows[|rows| - 1])
    ensures AllTwins(out + [o], out' + [o'], rows)
  {
  }

  /** Swapping home and away throughout leaves every stake and every balance as it was. */
  lemma {:induction false} ReplayIsSymmetric(cfg: BankrollConfig, rows: seq<Row>)
    ensures Replayed(cfg, rows).Ok? <==> Replayed(cfg, Mirrored(rows)).Ok?
    ensures Replayed(cfg, rows).Ok? ==> AllTwins(Replayed(cfg, rows).value, Replayed(cfg, Mirrored(rows)).value, rows)
    ensures Replayed(cfg, rows).Ok? ==> LastBalance(cfg, Replayed(cfg, rows).value) == LastBalance(cfg, Replayed(cfg, Mirrored(rows)).value)
  {
    if rows != [] {
      var n := |rows| - 1;
      ReplayIsSymmetric(cfg, rows[..n]);
      assert Mirrored(rows)[..n] == Mirrored(rows[..n]);
      if Replayed(cfg, rows[..n]).Ok? {
        var out, out' := Replayed(cfg, rows[..n]).value, Replayed(cfg, Mirrored(rows[..n])).value;
        var balance := LastBalance(cfg, out);
        MirrorPlayed(cfg, balance, rows[n]);
        if Played(cfg, balance, rows[n]).Ok? {
          TwinsExtend(out, out', rows, Played(cfg, balance, rows[n]).value, Played(cfg, balance, Mirror(rows[n])).value);
        }
      }
    }
  }
}
