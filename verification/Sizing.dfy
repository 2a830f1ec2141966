/** Stake sizing: internal/decision/kelly.go, bankroll.go and availability.go. */
module Sizing {
  import opened Wrappers
  import opened Reals
  import opened Odds

  type Sport = string

  const MLB: Sport := "MLB"
  const NBA: Sport := "NBA"
  const NHL: Sport := "NHL"
  const NFL: Sport := "NFL"

  datatype KellyPolicy = KellyPolicy(sport: Sport, kelly: real, maxBet: real)

  datatype Reason =
    | InvalidModelProbability | InvalidMarketOdds | InvalidBankroll | BankrollNonPositive | NonPositiveEdge
    | CappedByMaxFraction | StakeRoundedToZero | BankrollInsufficient | BankrollCapped | StakeNonPositive | Sized

  datatype CheckReason = CheckOk | CheckStakeNonPositive | CheckInsufficientFunds

  datatype Availability = Availability(pass: bool, reason: CheckReason, availableCents: int, shortfallCents: int)

  datatype StakeRequest = StakeRequest(
    sport: Sport, probability: real, odds: int, bankroll: real, availableCents: int, kelly: real, maxBet: real)

  datatype StakeResult = StakeResult(
    policy: KellyPolicy, rawKelly: real, appliedKelly: real, capped: real,
    preDollars: real, preCents: int, availableCents: int,
    dollars: real, cents: int, fraction: real, checkPass: bool, checkReason: CheckReason, reasons: set<Reason>)

  function DefaultKellyPolicy(sport: Sport): (res: Result<KellyPolicy>)
    ensures res.Ok? <==> sport in {"MLB", "NBA", "NHL", "NFL"}
    ensures res.Ok? ==> (res.value.kelly, res.value.maxBet) == match sport
                                                               case "MLB" => (0.25, 0.03)
                                                               case "NBA" => (0.18, 0.025)
                                                               case "NHL" => (0.14, 0.02)
                                                               case _ => (0.10, 0.015)
  {
    if sport == MLB then Ok(KellyPolicy(MLB, 0.25, 0.03))
    else if sport == NBA then Ok(KellyPolicy(NBA, 0.18, 0.025))
    else if sport == NHL then Ok(KellyPolicy(NHL, 0.14, 0.02))
    else if sport == NFL then Ok(KellyPolicy(NFL, 0.10, 0.015))
    else Err("unsupported sport for kelly defaults")
  }

  predicate Supported(sport: Sport) {
    sport == MLB || sport == NBA || sport == NHL || sport == NFL
  }

  /** Overrides win over the sport's defaults; every resolved fraction is in (0,1]. A sport needs no override, and without
      a sport both are needed. */
  function ResolveKellyPolicy(sport: Sport, kelly: real, maxBet: real): (res: Result<KellyPolicy>)
    ensures res.Ok? <==> 0.0 <= kelly <= 1.0 && 0.0 <= maxBet <= 1.0
                         && (Supported(sport) || (sport == "" && kelly > 0.0 && maxBet > 0.0))
    ensures res.Ok? && kelly == 0.0 ==> res.value.kelly == DefaultKellyPolicy(sport).value.kelly
    ensures res.Ok? && maxBet == 0.0 ==> res.value.maxBet == DefaultKellyPolicy(sport).value.maxBet
    ensures res.Ok? ==> 0.0 < res.value.kelly <= 1.0 && 0.0 < res.value.maxBet <= 1.0
    ensures res.Ok? && kelly > 0.0 ==> res.value.kelly == kelly
    ensures res.Ok? && maxBet > 0.0 ==> res.value.maxBet == maxBet
    ensures res.Ok? ==> res.value.sport == sport
  {
    if kelly < 0.0 || kelly > 1.0 then Err("kelly fraction must be finite in [0,1]")
    else if maxBet < 0.0 || maxBet > 1.0 then Err("max bet fraction must be finite in [0,1]")
    else if sport == "" then
      if (kelly > 0.0) != (maxBet > 0.0) then Err("overrides must both be set when sport is empty")
      else if kelly <= 0.0 then Err("kelly fraction must be in (0,1]")
      else Ok(KellyPolicy("", kelly, maxBet))
    else
      match DefaultKellyPolicy(sport)
      case Err(message) => Err(message)
      case Ok(defaults) =>
        Ok(KellyPolicy(sport, if kelly > 0.0 then kelly else defaults.kelly, if maxBet > 0.0 then maxBet else defaults.maxBet))
  }

  function CheckAvailability(availableCents: int, stakeCents: int): (res: Result<Availability>)
    ensures res.Ok? <==> availableCents >= 0 && stakeCents >= 0
    ensures res.Ok? ==> (res.value.pass <==> 0 < stakeCents <= availableCents) && res.value.availableCents == availableCents
    ensures res.Ok? ==> (res.value.reason == CheckOk <==> res.value.pass) && (res.value.reason == CheckStakeNonPositive <==> stakeCents == 0)
    ensures res.Ok? ==> (stakeCents <= availableCents + res.value.shortfallCents) && (res.value.shortfallCents > 0 ==> stakeCents == availableCents + res.value.shortfallCents)
    ensures res.Ok? ==> res.value.shortfallCents >= 0
  {
    if availableCents < 0 then Err("available_cents must be >= 0")
    else if stakeCents < 0 then Err("stake_cents must be >= 0")
    else if stakeCents <= 0 then Ok(Availability(false, CheckStakeNonPositive, availableCents, 0))
    else if stakeCents > availableCents then
      Ok(Availability(false, CheckInsufficientFunds, availableCents, stakeCents - availableCents))
    else Ok(Availability(true, CheckOk, availableCents, 0))
  }

  // ---- the recommended stake, in closed form ----

  predicate Sizable(req: StakeRequest) {
    0.0 < req.probability < 1.0 && Valid(req.odds) && req.bankroll >= 0.0 && req.availableCents >= 0
  }

  function RawFraction(req: StakeRequest): real
    requires Sizable(req)
  {
    Kelly(req.probability, DecimalOf(req.odds))
  }

  function CappedFraction(policy: KellyPolicy, raw: real): real {
    MinReal(MinReal(raw * policy.kelly, policy.maxBet), 1.0)
  }

  /** Dollars to the nearest cent. */
  function Cents(dollars: real): int {
    Round(dollars * 100.0)
  }

  lemma CentsMonotone(x: real, y: real)
    requires x <= y
    ensures Cents(x) <= Cents(y)
  {
    RoundMonotone(x * 100.0, y * 100.0);
  }

  lemma PortionMonotone(bankroll: real, f: real, g: real)
    requires bankroll >= 0.0 && f <= g
    ensures Portion(bankroll, f) <= Portion(bankroll, g)
  {
    ProductMonotone(bankroll, f, g);
    CentsMonotone(bankroll * f, bankroll * g);
  }

  lemma CentsNearest(x: real)
    ensures Abs(Cents(x) as real / 100.0 - x) <= 0.005
  {
    RoundIsNearest(x * 100.0);
  }

  /** A fraction of the bankroll, to the nearest cent. */
  function Portion(bankroll: real, fraction: real): int {
    Cents(bankroll * fraction)
  }

  /** The capped fraction of the sizing bankroll, to the nearest cent; 0 without an edge. */
  function WantedFrom(policy: KellyPolicy, bankroll: real, raw: real): int {
    if raw <= 0.0 then 0 else Portion(bankroll, CappedFraction(policy, raw))
  }

  function WantedCents(policy: KellyPolicy, req: StakeRequest): int
    requires Sizable(req)
  {
    WantedFrom(policy, req.bankroll, RawFraction(req))
  }

  function Granted(wantedCents: int, availableCents: int): int {
    if wantedCents <= 0 then 0 else MinInt(wantedCents, availableCents)
  }

  function StakeCents(policy: KellyPolicy, req: StakeRequest): int {
    if !Sizable(req) then 0 else Granted(WantedCents(policy, req), req.availableCents)
  }

  function StakeFraction(policy: KellyPolicy, req: StakeRequest): real {
    if StakeCents(policy, req) <= 0 then 0.0 else StakeCents(policy, req) as real / 100.0 / req.bankroll
  }

  lemma FractionPositive(policy: KellyPolicy, raw: real)
    requires raw > 0.0 && policy.kelly > 0.0 && policy.maxBet > 0.0
    ensures 0.0 < CappedFraction(policy, raw) <= MinReal(policy.maxBet, 1.0)
  {
    ProductPositive(raw, policy.kelly);
  }

  /** The wanted stake is positive only from a positive bankroll. */
  lemma WantedIsPortion(policy: KellyPolicy, bankroll: real, raw: real)
    requires raw > 0.0 && bankroll >= 0.0 && policy.kelly > 0.0 && policy.maxBet > 0.0
    ensures var portion := bankroll * CappedFraction(policy, raw);
            && (portion > 0.0 <==> bankroll > 0.0)
            && WantedFrom(policy, bankroll, raw) == (if portion <= 0.0 then 0 else Cents(portion))
  {
    FractionPositive(policy, raw);
    if bankroll > 0.0 {
      ProductPositive(bankroll, CappedFraction(policy, raw));
    }
  }

  // ---- the whole result, in closed form ----

  /** What is wrong with the request itself. */
  function InputReasons(req: StakeRequest): set<Reason> {
    (if 0.0 < req.probability < 1.0 then {} else {InvalidModelProbability})
    + (if Valid(req.odds) then {} else {InvalidMarketOdds})
    + (if req.bankroll >= 0.0 && req.availableCents >= 0 then {} else {InvalidBankroll})
    + (if req.bankroll <= 0.0 || req.availableCents == 0 then {BankrollNonPositive} else {})
  }

  /** What became of the wanted dollars. */
  function GrantReasons(wantedDollars: real, availableCents: int): set<Reason> {
    if wantedDollars <= 0.0 then {StakeNonPositive}
    else if Cents(wantedDollars) <= 0 then {StakeRoundedToZero, StakeNonPositive}
    else if Cents(wantedDollars) <= availableCents then {Sized}
    else if availableCents > 0 then {BankrollInsufficient, BankrollCapped, Sized}
    else {BankrollInsufficient, StakeNonPositive}
  }

  function CapReasons(policy: KellyPolicy, raw: real): set<Reason> {
    if raw * policy.kelly > policy.maxBet || MinReal(raw * policy.kelly, policy.maxBet) > 1.0 then {CappedByMaxFraction} else {}
  }

  function CheckOf(wantedCents: int, availableCents: int): CheckReason {
    if wantedCents <= 0 then CheckStakeNonPositive
    else if wantedCents > availableCents then CheckInsufficientFunds
    else CheckOk
  }

  function Unsized(policy: KellyPolicy, req: StakeRequest, raw: real, reasons: set<Reason>): StakeResult {
    StakeResult(policy, raw, 0.0, 0.0, 0.0, 0, req.availableCents, 0.0, 0, 0.0, false, CheckStakeNonPositive, reasons)
  }

  /** The dollars wanted from an edge, before they are rounded and granted. */
  function Wanting(policy: KellyPolicy, req: StakeRequest, raw: real, reasons: set<Reason>): StakeResult {
    Unsized(policy, req, raw, reasons + CapReasons(policy, raw)).(
      appliedKelly := raw * policy.kelly, capped := CappedFraction(policy, raw),
      preDollars := req.bankroll * CappedFraction(policy, raw))
  }

  function SizedFrom(policy: KellyPolicy, req: StakeRequest, raw: real, reasons: set<Reason>): StakeResult {
    if raw <= 0.0 then Unsized(policy, req, raw, reasons + {NonPositiveEdge})
    else GrantFrom(Wanting(policy, req, raw, reasons), req.bankroll)
  }

  /** The evaluation of a request under its policy: nothing for a bad request or no edge, otherwise the capped Kelly
      fraction of the bankroll, rounded to cents and cut to what is available. */
  function SizingOf(policy: KellyPolicy, req: StakeRequest): StakeResult {
    if !Sizable(req) then Unsized(policy, req, 0.0, InputReasons(req))
    else SizedFrom(policy, req, RawFraction(req), InputReasons(req))
  }

  /** The wanted dollars turned into a stake. */
  function GrantFrom(start: StakeResult, bankroll: real): StakeResult {
    var wanted := if start.preDollars <= 0.0 then 0 else Cents(start.preDollars);
    var cents := Granted(wanted, start.availableCents);
    start.(preCents := wanted, cents := cents, dollars := cents as real / 100.0,
           fraction := if cents <= 0 || bankroll <= 0.0 then 0.0 else cents as real / 100.0 / bankroll,
           checkPass := 0 < wanted <= start.availableCents, checkReason := CheckOf(wanted, start.availableCents),
           reasons := start.reasons + GrantReasons(start.preDollars, start.availableCents))
  }

  // ---- the computation ----

  method ValidateRequest(req: StakeRequest) returns (valid: bool, reasons: set<Reason>)
    ensures valid <==> Sizable(req)
    ensures reasons == InputReasons(req)
  {
    reasons := {};
    var validProbability := 0.0 < req.probability < 1.0;
    if !validProbability {
      reasons := reasons + {InvalidModelProbability};
    }
    var decimal := ToDecimal(req.odds);
    if decimal.Err? {
      reasons := reasons + {InvalidMarketOdds};
    }
    var validBankroll := req.bankroll >= 0.0 && req.availableCents >= 0;
    if !validBankroll {
      reasons := reasons + {InvalidBankroll};
    }
    if req.bankroll <= 0.0 || req.availableCents == 0 {
      reasons := reasons + {BankrollNonPositive};
    }
    valid := validProbability && decimal.Ok? && validBankroll;
  }

  method CapFraction(policy: KellyPolicy, raw: real) returns (capped: real, reasons: set<Reason>)
    ensures capped == CappedFraction(policy, raw) && reasons == CapReasons(policy, raw)
  {
    capped, reasons := raw * policy.kelly, {};
    if capped > policy.maxBet {
      capped, reasons := policy.maxBet, reasons + {CappedByMaxFraction};
    }
    if capped > 1.0 {
      capped, reasons := 1.0, reasons + {CappedByMaxFraction};
    }
  }

  /** Rounds the wanted dollars to cents and cuts them to what is available. */
  method CapToAvailable(bankroll: real, start: StakeResult) returns (result: StakeResult)
    requires bankroll >= 0.0 && start.availableCents >= 0
    requires start.preCents == 0 && start.cents == 0 && start.dollars == 0.0 && start.fraction == 0.0
    requires !start.checkPass && start.checkReason == CheckStakeNonPositive
    ensures result == GrantFrom(start, bankroll)
  {
    result := start;
    if start.preDollars <= 0.0 {
      return result.(reasons := start.reasons + {StakeNonPositive});
    }
    var preCents := Cents(start.preDollars);
    if preCents <= 0 {
      RoundIsNearest(start.preDollars * 100.0);
      return result.(preCents := preCents, reasons := start.reasons + {StakeRoundedToZero, StakeNonPositive});
    }
    var check := CheckAvailability(start.availableCents, preCents).value;
    var cents, reasons := preCents, start.reasons;
    match check.reason {
      case CheckOk =>
      case CheckInsufficientFunds =>
        reasons := reasons + {BankrollInsufficient};
        if check.availableCents > 0 {
          reasons := reasons + {BankrollCapped};
        }
        cents := check.availableCents;
      case CheckStakeNonPositive =>
        reasons := reasons + {StakeNonPositive};
        cents := 0;
    }
    var dollars := cents as real / 100.0;
    result := result.(
      preCents := preCents, checkPass := check.pass, checkReason := check.reason, cents := cents, dollars := dollars,
      fraction := if bankroll > 0.0 then dollars / bankroll else 0.0,
      reasons := reasons + {if cents > 0 then Sized else StakeNonPositive});
  }

  method WantStake(policy: KellyPolicy, req: StakeRequest, raw: real, reasons: set<Reason>) returns (start: StakeResult)
    ensures start == Wanting(policy, req, raw, reasons)
    ensures start == Unsized(policy, req, raw, start.reasons).(
                       appliedKelly := start.appliedKelly, capped := start.capped, preDollars := start.preDollars)
  {
    var capped, capReasons := CapFraction(policy, raw);
    start := Unsized(policy, req, raw, reasons + capReasons).(
      appliedKelly := raw * policy.kelly, capped := capped, preDollars := req.bankroll * capped);
  }

  method SizeStake(policy: KellyPolicy, req: StakeRequest, raw: real, reasons: set<Reason>) returns (result: StakeResult)
    requires Sizable(req)
    ensures result == SizedFrom(policy, req, raw, reasons)
  {
    if raw <= 0.0 {
      return Unsized(policy, req, raw, reasons + {NonPositiveEdge});
    }
    var start := WantStake(policy, req, raw, reasons);
    result := CapToAvailable(req.bankroll, start);
  }

  /** The stepwise evaluation is exactly the closed form, and fails only when no policy resolves. */
  method EvaluateRecommendationStake(req: StakeRequest) returns (res: Result<StakeResult>)
    ensures res.Ok? <==> ResolveKellyPolicy(req.sport, req.kelly, req.maxBet).Ok?
    ensures res.Ok? ==> res.value == SizingOf(ResolveKellyPolicy(req.sport, req.kelly, req.maxBet).value, req)
    ensures res.Ok? ==> res.value.policy == ResolveKellyPolicy(req.sport, req.kelly, req.maxBet).value
    ensures res.Ok? && Sizable(req) ==> res.value.rawKelly == Kelly(req.probability, DecimalOf(req.odds))
    ensures res.Ok? && Sizable(req) ==> StakesFractionalKelly(res.value, req.bankroll)
    ensures res.Ok? && !Sizable(req) ==> res.value.cents == 0 && res.value.dollars == 0.0
    ensures res.Ok? ==> Explains(req, res.value)
  {
    var resolved := ResolveKellyPolicy(req.sport, req.kelly, req.maxBet);
    if resolved.Err? {
      return Err(resolved.message);
    }
    var policy := resolved.value;
    var valid, reasons := ValidateRequest(req);
    if !valid {
      Explained(policy, req);
      return Ok(Unsized(policy, req, 0.0, reasons));
    }
    Explained(policy, req);
    var result := SizeStake(policy, req, RawFraction(req), reasons);
    FractionalKelly(policy, req, RawFraction(req), reasons);
    return Ok(result);
  }

  /** The stake follows the fraction of Kelly the policy asks for: never more than half a cent above it; when it is affordable,
      within half a cent of it up to the maximum fraction and of the maximum beyond; all the available cents otherwise. */
  predicate StakesFractionalKelly(r: StakeResult, bankroll: real) {
    if r.rawKelly <= 0.0 then r.cents == 0 && r.dollars == 0.0
    else StakesShare(r, bankroll, r.rawKelly * r.policy.kelly)
  }

  predicate StakesShare(r: StakeResult, bankroll: real, share: real) {
    && r.capped <= r.appliedKelly == share && r.capped <= r.policy.maxBet
    && Abs(r.preCents as real / 100.0 - bankroll * r.capped) <= 0.005
    && (r.checkPass <==> 0 < r.preCents <= r.availableCents)
    && 0.0 <= r.dollars <= bankroll * share + 0.005
    && (r.preCents > r.availableCents ==> r.cents == r.availableCents)
    && (r.preCents <= r.availableCents && share <= r.policy.maxBet ==> Abs(r.dollars - bankroll * share) <= 0.005)
    && (r.preCents <= r.availableCents && share > r.policy.maxBet ==> Abs(r.dollars - bankroll * r.policy.maxBet) <= 0.005)
  }

  /** A reason is given exactly when it applies: to the request, to its edge, or to the cents wanted and granted. */
  predicate Explains(req: StakeRequest, r: StakeResult) {
    var staking := Sizable(req) && r.rawKelly > 0.0;
    && (InvalidModelProbability in r.reasons <==> req.probability <= 0.0 || req.probability >= 1.0)
    && (InvalidMarketOdds in r.reasons <==> -100 < req.odds < 100)
    && (InvalidBankroll in r.reasons <==> req.bankroll < 0.0 || req.availableCents < 0)
    && (BankrollNonPositive in r.reasons <==> req.bankroll <= 0.0 || req.availableCents == 0)
    && (NonPositiveEdge in r.reasons <==> Sizable(req) && r.rawKelly <= 0.0)
    && (CappedByMaxFraction in r.reasons <==> staking && r.appliedKelly > r.policy.maxBet)
    && (StakeRoundedToZero in r.reasons <==> staking && r.preDollars > 0.0 && r.preCents == 0)
    && (BankrollInsufficient in r.reasons <==> staking && r.preCents > req.availableCents)
    && (BankrollCapped in r.reasons <==> staking && r.preCents > req.availableCents > 0)
    && (Sized in r.reasons <==> r.cents > 0)
    && (StakeNonPositive in r.reasons <==> staking && r.cents == 0)
    && (r.checkReason == CheckOk <==> r.checkPass)
    && (r.checkReason == CheckInsufficientFunds <==> staking && r.preCents > req.availableCents)
  }

  lemma InputExplained(req: StakeRequest)
    ensures var reasons := InputReasons(req);
            && (InvalidModelProbability in reasons <==> req.probability <= 0.0 || req.probability >= 1.0)
            && (InvalidMarketOdds in reasons <==> -100 < req.odds < 100)
            && (InvalidBankroll in reasons <==> req.bankroll < 0.0 || req.availableCents < 0)
            && (BankrollNonPositive in reasons <==> req.bankroll <= 0.0 || req.availableCents == 0)
            && reasons <= {InvalidModelProbability, InvalidMarketOdds, InvalidBankroll, BankrollNonPositive}
  {
  }

  lemma CentsNonNegative(dollars: real)
    requires dollars >= 0.0
    ensures Cents(dollars) >= 0
  {
    RoundMonotone(0.0, dollars * 100.0);
  }

  lemma GrantExplained(req: StakeRequest, w: StakeResult, bankroll: real, inputs: set<Reason>)
    requires Sizable(req) && w.rawKelly > 0.0 && w.availableCents == req.availableCents && w.preDollars >= 0.0
    requires w.reasons == inputs + if w.appliedKelly > w.policy.maxBet then {CappedByMaxFraction} else {}
    requires inputs == InputReasons(req)
    ensures Explains(req, GrantFrom(w, bankroll))
  {
    InputExplained(req);
    CentsNonNegative(w.preDollars);
  }

  lemma CapExplained(policy: KellyPolicy, raw: real)
    requires policy.maxBet <= 1.0
    ensures CapReasons(policy, raw) == if raw * policy.kelly > policy.maxBet then {CappedByMaxFraction} else {}
  {
  }

  lemma Explained(policy: KellyPolicy, req: StakeRequest)
    requires 0.0 < policy.kelly <= 1.0 && 0.0 < policy.maxBet <= 1.0
    ensures Explains(req, SizingOf(policy, req))
  {
    InputExplained(req);
    if Sizable(req) && RawFraction(req) > 0.0 {
      var w := Wanting(policy, req, RawFraction(req), InputReasons(req));
      WantingMeans(policy, req, RawFraction(req), InputReasons(req));
      CapExplained(policy, RawFraction(req));
      GrantExplained(req, w, req.bankroll, InputReasons(req));
    }
  }

  lemma GrantNear(wantedDollars: real, availableCents: nat)
    requires wantedDollars >= 0.0
    ensures var wanted := if wantedDollars <= 0.0 then 0 else Cents(wantedDollars);
            var dollars := Granted(wanted, availableCents) as real / 100.0;
            && 0.0 <= dollars <= wantedDollars + 0.005
            && Abs(wanted as real / 100.0 - wantedDollars) <= 0.005
            && (wanted <= availableCents ==> Abs(dollars - wantedDollars) <= 0.005)
  {
    CentsNearest(wantedDollars);
  }

  lemma NearShare(bankroll: real, share: real, most: real, capped: real, dollars: real, near: bool)
    requires bankroll >= 0.0 && capped == (if share <= most then share else most)
    requires 0.0 <= dollars <= bankroll * capped + 0.005 && (near ==> Abs(dollars - bankroll * capped) <= 0.005)
    ensures dollars <= bankroll * share + 0.005
    ensures near && share <= most ==> Abs(dollars - bankroll * share) <= 0.005
    ensures near && share > most ==> Abs(dollars - bankroll * most) <= 0.005
  {
    ProductMonotone(bankroll, capped, share);
  }

  lemma WantingMeans(policy: KellyPolicy, req: StakeRequest, raw: real, reasons: set<Reason>)
    requires 0.0 < policy.kelly <= 1.0 && 0.0 < policy.maxBet <= 1.0 && raw > 0.0 && req.bankroll >= 0.0
    ensures var w, share := Wanting(policy, req, raw, reasons), raw * policy.kelly;
            && w.policy == policy && w.rawKelly == raw && w.appliedKelly == share && w.availableCents == req.availableCents
            && w.capped == (if share <= policy.maxBet then share else policy.maxBet)
            && w.preDollars == req.bankroll * w.capped >= 0.0
  {
    FractionPositive(policy, raw);
    ProductNonNegative(req.bankroll, CappedFraction(policy, raw));
  }

  lemma FractionalKelly(policy: KellyPolicy, req: StakeRequest, raw: real, reasons: set<Reason>)
    requires 0.0 < policy.kelly <= 1.0 && 0.0 < policy.maxBet <= 1.0 && req.bankroll >= 0.0 && req.availableCents >= 0
    ensures StakesFractionalKelly(SizedFrom(policy, req, raw, reasons), req.bankroll)
  {
    if raw > 0.0 {
      WantingMeans(policy, req, raw, reasons);
      GrantedIsFractional(Wanting(policy, req, raw, reasons), req.bankroll);
    }
  }

  lemma GrantedIsFractional(w: StakeResult, bankroll: real)
    requires bankroll >= 0.0 && w.availableCents >= 0 && w.rawKelly > 0.0 && w.appliedKelly == w.rawKelly * w.policy.kelly
    requires w.capped == (if w.appliedKelly <= w.policy.maxBet then w.appliedKelly else w.policy.maxBet)
    requires w.preDollars == bankroll * w.capped >= 0.0
    ensures StakesFractionalKelly(GrantFrom(w, bankroll), bankroll)
  {
    var r := GrantFrom(w, bankroll);
    GrantNear(w.preDollars, w.availableCents);
    ShareStaked(r, bankroll, r.appliedKelly);
  }

  lemma ShareStaked(r: StakeResult, bankroll: real, share: real)
    requires bankroll >= 0.0 && r.rawKelly > 0.0 && r.appliedKelly == share && r.availableCents >= 0
    requires r.capped == (if share <= r.policy.maxBet then share else r.policy.maxBet)
    requires 0.0 <= r.dollars <= r.preDollars + 0.005 && r.preDollars == bankroll * r.capped
    requires Abs(r.preCents as real / 100.0 - r.preDollars) <= 0.005 && (r.checkPass <==> 0 < r.preCents <= r.availableCents)
    requires r.preCents <= r.availableCents ==> Abs(r.dollars - r.preDollars) <= 0.005
    requires r.preCents > r.availableCents ==> r.cents == r.availableCents
    ensures StakesShare(r, bankroll, share)
  {
    NearShare(bankroll, share, r.policy.maxBet, r.capped, r.dollars, r.preCents <= r.availableCents);
  }

  // ---- main results ----

  lemma GrantMeans(start: StakeResult, bankroll: real, wanted: int)
    requires bankroll >= 0.0 && start.availableCents >= 0
    requires wanted == (if start.preDollars <= 0.0 then 0 else Cents(start.preDollars)) && (start.preDollars > 0.0 ==> bankroll > 0.0)
    requires start.reasons !! {Sized, BankrollInsufficient, NonPositiveEdge}
    ensures var r := GrantFrom(start, bankroll);
            && r.cents == Granted(wanted, start.availableCents) && r.dollars == r.cents as real / 100.0
            && r.fraction == (if r.cents <= 0 then 0.0 else r.cents as real / 100.0 / bankroll)
            && (r.checkPass <==> 0 < wanted <= start.availableCents)
            && (Sized in r.reasons <==> r.cents > 0)
            && (BankrollInsufficient in r.reasons <==> wanted > start.availableCents)
            && NonPositiveEdge !in r.reasons
  {
  }

  lemma SizedMeans(policy: KellyPolicy, req: StakeRequest, raw: real, reasons: set<Reason>)
    requires policy.kelly > 0.0 && policy.maxBet > 0.0 && req.bankroll >= 0.0 && req.availableCents >= 0
    requires reasons !! {Sized, BankrollInsufficient, NonPositiveEdge}
    ensures var r, wanted := SizedFrom(policy, req, raw, reasons), WantedFrom(policy, req.bankroll, raw);
            && r.cents == Granted(wanted, req.availableCents) && r.dollars == r.cents as real / 100.0
            && r.fraction == (if r.cents <= 0 then 0.0 else r.cents as real / 100.0 / req.bankroll)
            && r.rawKelly == raw
            && (r.checkPass <==> 0 < wanted <= req.availableCents)
            && (Sized in r.reasons <==> r.cents > 0)
            && (BankrollInsufficient in r.reasons <==> wanted > req.availableCents)
            && (NonPositiveEdge in r.reasons <==> raw <= 0.0)
  {
    if raw > 0.0 {
      WantedIsPortion(policy, req.bankroll, raw);
      GrantMeans(Wanting(policy, req, raw, reasons), req.bankroll, WantedFrom(policy, req.bankroll, raw));
    }
  }

  /** What the evaluated fields mean: the granted cents and their share of the bankroll, a passed funds check exactly for
      an affordable positive stake, and the reasons that say so. */
  lemma SizingMeans(policy: KellyPolicy, req: StakeRequest)
    requires policy.kelly > 0.0 && policy.maxBet > 0.0
    ensures var r := SizingOf(policy, req);
            && r.cents == StakeCents(policy, req) && r.dollars == r.cents as real / 100.0
            && r.fraction == StakeFraction(policy, req)
            && r.rawKelly == (if Sizable(req) then RawFraction(req) else 0.0)
            && (r.checkPass <==> Sizable(req) && 0 < WantedCents(policy, req) <= req.availableCents)
            && (Sized in r.reasons <==> r.cents > 0)
            && (BankrollInsufficient in r.reasons <==> Sizable(req) && WantedCents(policy, req) > req.availableCents)
            && (NonPositiveEdge in r.reasons <==> Sizable(req) && RawFraction(req) <= 0.0)
  {
    if Sizable(req) {
      SizedMeans(policy, req, RawFraction(req), InputReasons(req));
    }
  }

  /** A stake is never negative and never more than the available cents. */
  lemma StakeWithinAvailable(policy: KellyPolicy, req: StakeRequest)
    ensures StakeCents(policy, req) >= 0
    ensures req.availableCents >= 0 ==> StakeCents(policy, req) <= req.availableCents
  {
  }

  /** Sizing from no more than the available bankroll never asks for more than is there, rounding included. */
  lemma OwnBankrollSuffices(policy: KellyPolicy, req: StakeRequest)
    requires Sizable(req) && req.bankroll <= req.availableCents as real / 100.0
    ensures WantedCents(policy, req) <= req.availableCents
  {
    FractionOfAvailable(req.bankroll, req.availableCents, CappedFraction(policy, RawFraction(req)));
  }

  lemma FractionOfAvailable(bankroll: real, availableCents: nat, f: real)
    requires 0.0 <= bankroll <= availableCents as real / 100.0 && f <= 1.0
    ensures Cents(bankroll * f) <= availableCents
  {
    ProductMonotone(bankroll, f, 1.0);
    RoundIsNearest(bankroll * f * 100.0);
  }

  /** When the sizing bankroll is larger the cap to available does bite: here it asks for 300 cents and gets 299. */
  lemma LargerSizingBankrollCanExceed()
    ensures var req := StakeRequest(MLB, 0.9, 100, 100.0, 299, 0.0, 0.0);
            ResolveKellyPolicy(MLB, 0.0, 0.0).Ok? && var policy := ResolveKellyPolicy(MLB, 0.0, 0.0).value;
            Sizable(req) && WantedCents(policy, req) == 300 && StakeCents(policy, req) == 299
  {
    var req := StakeRequest(MLB, 0.9, 100, 100.0, 299, 0.0, 0.0);
    var policy := ResolveKellyPolicy(MLB, 0.0, 0.0).value;
    assert DecimalOf(100) == 2.0;
    assert RawFraction(req) == 0.8;
    assert CappedFraction(policy, 0.8) == 0.03;
  }

  /** A better price never lowers the stake. */
  lemma StakeMonotoneInOdds(policy: KellyPolicy, req: StakeRequest, better: int)
    requires policy.kelly > 0.0 && Valid(req.odds) && Valid(better) && req.odds <= better
    ensures StakeCents(policy, req) <= StakeCents(policy, req.(odds := better))
    ensures Sizable(req) ==> RawFraction(req) <= RawFraction(req.(odds := better))
  {
    if Sizable(req) {
      var other := req.(odds := better);
      DecimalAboveOne(req.odds);
      DecimalMonotone(req.odds, better);
      KellyMonotone(req.probability, DecimalOf(req.odds), DecimalOf(better));
      GrantedMonotone(policy, req.bankroll, RawFraction(req), RawFraction(other), req.availableCents);
    }
  }

  lemma CappedMonotone(policy: KellyPolicy, r: real, s: real)
    requires policy.kelly > 0.0 && r <= s
    ensures CappedFraction(policy, r) <= CappedFraction(policy, s)
  {
    ProductMonotone(policy.kelly, r, s);
    assert policy.kelly * r == r * policy.kelly && policy.kelly * s == s * policy.kelly;
  }

  lemma GrantedMonotone(policy: KellyPolicy, bankroll: real, r: real, s: real, availableCents: nat)
    requires policy.kelly > 0.0 && bankroll >= 0.0 && r <= s
    ensures Granted(WantedFrom(policy, bankroll, r), availableCents) <= Granted(WantedFrom(policy, bankroll, s), availableCents)
  {
    CappedMonotone(policy, r, s);
    PortionMonotone(bankroll, CappedFraction(policy, r), CappedFraction(policy, s));
  }

  lemma NothingFromNothing(policy: KellyPolicy, raw: real)
    ensures WantedFrom(policy, 0.0, raw) == 0
  {
  }

  /** When the bankroll covers it, the staked fraction is within half a cent of the capped Kelly fraction. */
  lemma StakeFractionNearCapped(policy: KellyPolicy, req: StakeRequest)
    requires Sizable(req) && 0 < WantedCents(policy, req) <= req.availableCents
    ensures req.bankroll > 0.0
    ensures Abs(StakeFraction(policy, req) * req.bankroll - req.bankroll * CappedFraction(policy, RawFraction(req))) <= 0.005
  {
    NothingFromNothing(policy, RawFraction(req));
    CentsNearest(req.bankroll * CappedFraction(policy, RawFraction(req)));
    var dollars := StakeCents(policy, req) as real / 100.0;
    assert dollars / req.bankroll * req.bankroll == dollars;
  }

  // ---- edge sizing used by the backtest ----

  datatype EdgeSizing = EdgeSizing(policy: KellyPolicy, fraction: real, dollars: real)

  /** The share of the bankroll an edge asks for: the edge, up to 1, times the Kelly fraction, up to the maximum. */
  function EdgeShare(policy: KellyPolicy, edge: real): real {
    var share := (if edge <= 1.0 then edge else 1.0) * policy.kelly;
    if share <= policy.maxBet then share else policy.maxBet
  }

  /** That share is staked, unless it comes to less than the minimum. */
  predicate StakesEdgeShare(s: EdgeSizing, bankroll: real, edge: real, minimum: real) {
    var share := EdgeShare(s.policy, edge);
    if bankroll == 0.0 || edge <= 0.0 || bankroll * share < minimum then s.fraction == s.dollars == 0.0
    else s.fraction == share && s.dollars == bankroll * share
  }

  /** The stake on an edge under a resolved policy. */
  function EdgeSized(policy: KellyPolicy, bankroll: real, edge: real): (s: EdgeSizing)
    requires bankroll >= 0.0 && 0.0 < policy.kelly <= 1.0 && 0.0 < policy.maxBet <= 1.0
    ensures s.policy == policy && 0.0 <= s.fraction <= policy.maxBet
    ensures s.dollars == bankroll * s.fraction && 0.0 <= s.dollars <= bankroll
  {
    if bankroll == 0.0 || edge <= 0.0 then EdgeSizing(policy, 0.0, 0.0)
    else
      var unit := MinReal(edge, 1.0);
      ProductPositive(unit, policy.kelly);
      var fraction := MinReal(MinReal(unit * policy.kelly, policy.maxBet), 1.0);
      ProductMonotone(bankroll, fraction, 1.0);
      ProductNonNegative(bankroll, fraction);
      EdgeSizing(policy, fraction, MinReal(bankroll * fraction, bankroll))
  }

  /** Stakes a fraction of the bankroll in [0, maxBet], zero without a positive edge. */
  function RecommendStake(sport: Sport, bankroll: real, edge: real, kelly: real, maxBet: real): (res: Result<EdgeSizing>)
    ensures res.Ok? <==> bankroll >= 0.0 && ResolveKellyPolicy(sport, kelly, maxBet).Ok?
    ensures res.Ok? ==> res.value.policy == ResolveKellyPolicy(sport, kelly, maxBet).value
                        && 0.0 <= res.value.fraction <= res.value.policy.maxBet
                        && res.value.dollars == bankroll * res.value.fraction && 0.0 <= res.value.dollars <= bankroll
                        && (edge <= 0.0 ==> res.value.dollars == 0.0)
  {
    if bankroll < 0.0 then Err("bankroll must be finite and >= 0")
    else
      match ResolveKellyPolicy(sport, kelly, maxBet)
      case Err(message) => Err(message)
      case Ok(policy) => Ok(EdgeSized(policy, bankroll, edge))
  }

  lemma ShareIsStaked(s: EdgeSizing, bankroll: real, edge: real)
    requires bankroll > 0.0 && edge > 0.0 && s.fraction == EdgeShare(s.policy, edge) && s.dollars == bankroll * s.fraction >= 0.0
    ensures StakesEdgeShare(s, bankroll, edge, 0.0)
  {
  }

  lemma EdgeShareCapped(policy: KellyPolicy, edge: real)
    requires edge > 0.0 && 0.0 < policy.kelly <= 1.0 && 0.0 < policy.maxBet <= 1.0
    ensures EdgeShare(policy, edge) == MinReal(MinReal(MinReal(edge, 1.0) * policy.kelly, policy.maxBet), 1.0)
  {
    ProductPositive(MinReal(edge, 1.0), policy.kelly);
  }

  lemma EdgeSizedMeans(policy: KellyPolicy, bankroll: real, edge: real)
    requires bankroll >= 0.0 && 0.0 < policy.kelly <= 1.0 && 0.0 < policy.maxBet <= 1.0
    ensures StakesEdgeShare(EdgeSized(policy, bankroll, edge), bankroll, edge, 0.0)
  {
    var s := EdgeSized(policy, bankroll, edge);
    if bankroll == 0.0 || edge <= 0.0 {
      assert s.fraction == s.dollars == 0.0;
    } else {
      EdgeShareCapped(policy, edge);
      ShareIsStaked(s, bankroll, edge);
    }
  }

  lemma RecommendStakeMeans(sport: Sport, bankroll: real, edge: real, kelly: real, maxBet: real)
    ensures var res := RecommendStake(sport, bankroll, edge, kelly, maxBet);
            res.Ok? ==> StakesEdgeShare(res.value, bankroll, edge, 0.0)
  {
    if RecommendStake(sport, bankroll, edge, kelly, maxBet).Ok? {
      EdgeSizedMeans(ResolveKellyPolicy(sport, kelly, maxBet).value, bankroll, edge);
    }
  }

  lemma MinimumKept(s: EdgeSizing, bankroll: real, edge: real, minimum: real)
    requires StakesEdgeShare(s, bankroll, edge, 0.0) && minimum >= 0.0 && s.dollars >= 0.0
    ensures StakesEdgeShare(if s.dollars < minimum then s.(dollars := 0.0, fraction := 0.0) else s, bankroll, edge, minimum)
  {
    if bankroll != 0.0 && edge > 0.0 && bankroll * EdgeShare(s.policy, edge) < 0.0 {
      assert s.dollars == 0.0;
    }
  }
}
