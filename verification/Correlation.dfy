/** Recommendations and the greedy same-game and same-day exposure guard of internal/decision/correlation.go. */
module Correlation {
  import opened Wrappers
  import opened Sizing
  import opened Counting

  datatype CorrelationReason =
    | Unchecked | WithinLimits | ZeroStake | InvalidStake | TooManyPerGame | TooMuchPerGame | TooManyPerSportDay

  datatype CircuitReason = NotEvaluated | CircuitPass | CircuitZeroStake | DailyLossStop | WeeklyLossStop | DrawdownBreaker

  datatype Recommendation = Recommendation(
    sport: Sport, gameId: int, market: string, side: string, book: string, odds: int, eventTime: int,
    model: real, marketProbability: real, edge: real,
    stakeDollars: real, stakeCents: int, stakeFraction: real, rawKelly: real, bankrollPass: bool,
    rank: real, generatedAt: int,
    correlationPass: bool, correlationReason: CorrelationReason, circuitPass: bool, circuitReason: CircuitReason)

  datatype CorrelationPolicy = CorrelationPolicy(maxPerGame: int, maxFractionPerGame: real, maxPerSportDay: int)

  datatype Guarded = Guarded(retained: seq<Recommendation>, dropped: seq<Recommendation>)

  type GameKey = (Sport, int)

  type DayKey = (Sport, int)

  const STAKE_EPSILON := 0.000000000001
  const SECONDS_PER_DAY := 86400
  const DEFAULT_POLICY := CorrelationPolicy(1, 0.03, 0)
  const MAX_PICKS_PER_GAME := 25
  const MAX_PICKS_PER_SPORT_DAY := 500

  predicate ValidPolicy(p: CorrelationPolicy) {
    1 <= p.maxPerGame <= MAX_PICKS_PER_GAME && 0.0 < p.maxFractionPerGame <= 1.0 && 0 <= p.maxPerSportDay <= MAX_PICKS_PER_SPORT_DAY
  }

  /** Non-zero overrides replace the defaults; whatever resolves is a policy the guard accepts. */
  function ResolvePolicy(perGame: int, fraction: real, perSportDay: int): (res: Result<CorrelationPolicy>)
    ensures res.Ok? ==> ValidPolicy(res.value)
    ensures res.Ok? <==> 0 <= perGame <= MAX_PICKS_PER_GAME && 0.0 <= fraction <= 1.0 && 0 <= perSportDay <= MAX_PICKS_PER_SPORT_DAY
    ensures res.Ok? ==> res.value.maxPerGame == if perGame == 0 then 1 else perGame
    ensures res.Ok? ==> res.value.maxFractionPerGame == if fraction == 0.0 then 0.03 else fraction
    ensures res.Ok? ==> res.value.maxPerSportDay == perSportDay
  {
    if perGame < 0 || perSportDay < 0 || fraction < 0.0 then Err("limits must be >= 0")
    else
      var policy := CorrelationPolicy(
        if perGame > 0 then perGame else DEFAULT_POLICY.maxPerGame,
        if fraction > 0.0 then fraction else DEFAULT_POLICY.maxFractionPerGame,
        if perSportDay > 0 then perSportDay else DEFAULT_POLICY.maxPerSportDay);
      if ValidPolicy(policy) then Ok(policy) else Err("limits out of range")
  }

  function GameOf(rec: Recommendation): GameKey {
    (rec.sport, rec.gameId)
  }

  /** The sport and UTC calendar day of the event. */
  function DayOf(rec: Recommendation): DayKey {
    (rec.sport, rec.eventTime / SECONDS_PER_DAY)
  }

  // ---- exposure, read off the retained list ----

  predicate Counts(rec: Recommendation) {
    rec.stakeCents > 0
  }

  function GamePicks(recs: seq<Recommendation>, key: GameKey): nat {
    if recs == [] then 0
    else
      var last := recs[|recs| - 1];
      GamePicks(recs[..|recs| - 1], key) + (if Counts(last) && GameOf(last) == key then 1 else 0)
  }

  function GameStake(recs: seq<Recommendation>, key: GameKey): real {
    if recs == [] then 0.0
    else
      var last := recs[|recs| - 1];
      GameStake(recs[..|recs| - 1], key) + (if Counts(last) && GameOf(last) == key then last.stakeFraction else 0.0)
  }

  function DayPicks(recs: seq<Recommendation>, key: DayKey): nat {
    if recs == [] then 0
    else
      var last := recs[|recs| - 1];
      DayPicks(recs[..|recs| - 1], key) + (if Counts(last) && DayOf(last) == key then 1 else 0)
  }

  /** The list respects every cap. */
  ghost predicate WithinCaps(policy: CorrelationPolicy, recs: seq<Recommendation>) {
    && (forall key :: GamePicks(recs, key) <= policy.maxPerGame)
    && (forall key :: GameStake(recs, key) <= policy.maxFractionPerGame + STAKE_EPSILON)
    && (policy.maxPerSportDay > 0 ==> forall key :: DayPicks(recs, key) <= policy.maxPerSportDay)
  }

  // ---- the guard as a function of what has been retained ----

  /** Why `rec` is retained or dropped once `kept` has been retained. */
  function Verdict(policy: CorrelationPolicy, kept: seq<Recommendation>, rec: Recommendation): CorrelationReason {
    if !Counts(rec) then ZeroStake
    else if rec.stakeFraction < 0.0 then InvalidStake
    else if GamePicks(kept, GameOf(rec)) + 1 > policy.maxPerGame then TooManyPerGame
    else if GameStake(kept, GameOf(rec)) + rec.stakeFraction - policy.maxFractionPerGame > STAKE_EPSILON then TooMuchPerGame
    else if policy.maxPerSportDay > 0 && DayPicks(kept, DayOf(rec)) + 1 > policy.maxPerSportDay then TooManyPerSportDay
    else WithinLimits
  }

  predicate Keeps(reason: CorrelationReason) {
    reason.WithinLimits? || reason.ZeroStake?
  }

  function Mark(rec: Recommendation, reason: CorrelationReason): Recommendation {
    rec.(correlationPass := Keeps(reason), correlationReason := reason)
  }

  function Guard(policy: CorrelationPolicy, recs: seq<Recommendation>): Guarded {
    if recs == [] then Guarded([], [])
    else
      var g := Guard(policy, recs[..|recs| - 1]);
      var rec := recs[|recs| - 1];
      var reason := Verdict(policy, g.retained, rec);
      if Keeps(reason) then g.(retained := g.retained + [Mark(rec, reason)]) else g.(dropped := g.dropped + [Mark(rec, reason)])
  }

  lemma ExposureAppend(recs: seq<Recommendation>, rec: Recommendation, game: GameKey, day: DayKey)
    ensures GamePicks(recs + [rec], game) == GamePicks(recs, game) + (if Counts(rec) && GameOf(rec) == game then 1 else 0)
    ensures GameStake(recs + [rec], game) == GameStake(recs, game) + (if Counts(rec) && GameOf(rec) == game then rec.stakeFraction else 0.0)
    ensures DayPicks(recs + [rec], day) == DayPicks(recs, day) + (if Counts(rec) && DayOf(rec) == day then 1 else 0)
  {
    assert (recs + [rec])[..|recs|] == recs;
  }

  // ---- the computation ----

  datatype Exposure = Exposure(picks: nat, fraction: real)

  function ExposureIn(m: map<GameKey, Exposure>, key: GameKey): Exposure {
    if key in m then m[key] else Exposure(0, 0.0)
  }

  function PicksIn(m: map<DayKey, nat>, key: DayKey): nat {
    if key in m then m[key] else 0
  }

  ghost predicate Tracks(games: map<GameKey, Exposure>, days: map<DayKey, nat>, kept: seq<Recommendation>) {
    && (forall key :: ExposureIn(games, key) == Exposure(GamePicks(kept, key), GameStake(kept, key)))
    && (forall key :: PicksIn(days, key) == DayPicks(kept, key))
  }

  lemma TrackRetained(games: map<GameKey, Exposure>, days: map<DayKey, nat>, kept: seq<Recommendation>, rec: Recommendation)
    requires Tracks(games, days, kept)
    ensures !Counts(rec) ==> Tracks(games, days, kept + [rec])
    ensures Counts(rec) ==>
      var e, d := ExposureIn(games, GameOf(rec)), PicksIn(days, DayOf(rec));
      Tracks(games[GameOf(rec) := Exposure(e.picks + 1, e.fraction + rec.stakeFraction)], days[DayOf(rec) := d + 1], kept + [rec])
  {
    forall game: GameKey, day: DayKey
      ensures GamePicks(kept + [rec], game) == GamePicks(kept, game) + (if Counts(rec) && GameOf(rec) == game then 1 else 0)
      ensures GameStake(kept + [rec], game) == GameStake(kept, game) + (if Counts(rec) && GameOf(rec) == game then rec.stakeFraction else 0.0)
      ensures DayPicks(kept + [rec], day) == DayPicks(kept, day) + (if Counts(rec) && DayOf(rec) == day then 1 else 0)
    {
      ExposureAppend(kept, rec, game, day);
    }
  }

  /** The map-based loop decides exactly as the retained list does. */
  method ApplyCorrelationGuard(recs: seq<Recommendation>, policy: CorrelationPolicy) returns (res: Result<Guarded>)
    ensures res.Ok? <==> ValidPolicy(policy)
    ensures res.Ok? ==> res.value == Guard(policy, recs)
  {
    if !ValidPolicy(policy) {
      return Err("invalid correlation policy");
    }
    var retained, dropped: seq<Recommendation> := [], [];
    var games: map<GameKey, Exposure> := map[];
    var days: map<DayKey, nat> := map[];
    for i := 0 to |recs|
      invariant Guarded(retained, dropped) == Guard(policy, recs[..i])
      invariant Tracks(games, days, retained)
    {
      assert recs[..i + 1][..i] == recs[..i];
      var rec := recs[i];
      if rec.stakeCents <= 0 {
        TrackRetained(games, days, retained, Mark(rec, ZeroStake));
        retained := retained + [Mark(rec, ZeroStake)];
        continue;
      }
      if rec.stakeFraction < 0.0 {
        dropped := dropped + [Mark(rec, InvalidStake)];
        continue;
      }
      var exposure := ExposureIn(games, GameOf(rec));
      if exposure.picks + 1 > policy.maxPerGame {
        dropped := dropped + [Mark(rec, TooManyPerGame)];
        continue;
      }
      var projected := exposure.fraction + rec.stakeFraction;
      if projected - policy.maxFractionPerGame > STAKE_EPSILON {
        dropped := dropped + [Mark(rec, TooMuchPerGame)];
        continue;
      }
      var today := PicksIn(days, DayOf(rec));
      if policy.maxPerSportDay > 0 && today + 1 > policy.maxPerSportDay {
        dropped := dropped + [Mark(rec, TooManyPerSportDay)];
        continue;
      }
      TrackRetained(games, days, retained, Mark(rec, WithinLimits));
      games := games[GameOf(rec) := Exposure(exposure.picks + 1, projected)];
      days := days[DayOf(rec) := today + 1];
      retained := retained + [Mark(rec, WithinLimits)];
    }
    assert recs[..|recs|] == recs;
    return Ok(Guarded(retained, dropped));
  }

  // ---- main results ----

  /** The same pick, whatever the guards wrote on it. */
  predicate SamePick(a: Recommendation, b: Recommendation) {
    a == b.(correlationPass := a.correlationPass, correlationReason := a.correlationReason,
            circuitPass := a.circuitPass, circuitReason := a.circuitReason)
  }

  /** `kept` and `out` together are `recs`, each in the order of `recs`. */
  predicate Splits(recs: seq<Recommendation>, kept: seq<Recommendation>, out: seq<Recommendation>) {
    if recs == [] then kept == [] && out == []
    else
      var rest, last := recs[..|recs| - 1], recs[|recs| - 1];
      || (kept != [] && SamePick(kept[|kept| - 1], last) && Splits(rest, kept[..|kept| - 1], out))
      || (out != [] && SamePick(out[|out| - 1], last) && Splits(rest, kept, out[..|out| - 1]))
  }

  /** Retained and dropped are an order-preserving split of the input. */
  lemma {:induction false} GuardSplits(policy: CorrelationPolicy, recs: seq<Recommendation>)
    ensures Splits(recs, Guard(policy, recs).retained, Guard(policy, recs).dropped)
  {
    if recs != [] {
      var n := |recs| - 1;
      GuardSplits(policy, recs[..n]);
      var g, g' := Guard(policy, recs[..n]), Guard(policy, recs);
      if Keeps(Verdict(policy, g.retained, recs[n])) {
        assert g'.retained[..|g'.retained| - 1] == g.retained;
      } else {
        assert g'.dropped[..|g'.dropped| - 1] == g.dropped;
      }
    }
  }

  /** Taking a positive-stake pick respects the caps exactly when the guard says so. */
  lemma KeepingRespectsCaps(policy: CorrelationPolicy, kept: seq<Recommendation>, rec: Recommendation)
    requires WithinCaps(policy, kept) && Counts(rec) && rec.stakeFraction >= 0.0
    ensures WithinCaps(policy, kept + [rec]) <==> Keeps(Verdict(policy, kept, rec))
  {
    forall game: GameKey, day: DayKey
      ensures GamePicks(kept + [rec], game) == GamePicks(kept, game) + (if GameOf(rec) == game then 1 else 0)
      ensures GameStake(kept + [rec], game) == GameStake(kept, game) + (if GameOf(rec) == game then rec.stakeFraction else 0.0)
      ensures DayPicks(kept + [rec], day) == DayPicks(kept, day) + (if DayOf(rec) == day then 1 else 0)
    {
      ExposureAppend(kept, rec, game, day);
    }
    assert GamePicks(kept + [rec], GameOf(rec)) == GamePicks(kept, GameOf(rec)) + 1;
    assert DayPicks(kept + [rec], DayOf(rec)) == DayPicks(kept, DayOf(rec)) + 1;
  }

  lemma ZeroStakeIsFree(policy: CorrelationPolicy, kept: seq<Recommendation>, rec: Recommendation)
    requires WithinCaps(policy, kept) && !Counts(rec)
    ensures WithinCaps(policy, kept + [rec])
  {
    forall game: GameKey
      ensures GamePicks(kept + [rec], game) == GamePicks(kept, game)
      ensures GameStake(kept + [rec], game) == GameStake(kept, game)
    {
      ExposureAppend(kept, rec, game, DayOf(rec));
    }
    forall day: DayKey ensures DayPicks(kept + [rec], day) == DayPicks(kept, day) {
      ExposureAppend(kept, rec, GameOf(rec), day);
    }
  }

  lemma NothingIsWithinCaps(policy: CorrelationPolicy)
    requires ValidPolicy(policy)
    ensures WithinCaps(policy, [])
  {
  }

  lemma MarkKeepsExposure(policy: CorrelationPolicy, kept: seq<Recommendation>, rec: Recommendation, reason: CorrelationReason)
    ensures Verdict(policy, kept, Mark(rec, reason)) == Verdict(policy, kept, rec)
    ensures Counts(Mark(rec, reason)) == Counts(rec)
  {
  }

  /** Whatever goes in, what comes out respects every game's pick and stake caps and the sport-day cap. */
  lemma {:induction false} RetainedWithinCaps(policy: CorrelationPolicy, recs: seq<Recommendation>)
    requires ValidPolicy(policy)
    ensures WithinCaps(policy, Guard(policy, recs).retained)
  {
    if recs == [] {
      NothingIsWithinCaps(policy);
    } else {
      var n := |recs| - 1;
      RetainedWithinCaps(policy, recs[..n]);
      var kept := Guard(policy, recs[..n]).retained;
      var reason := Verdict(policy, kept, recs[n]);
      MarkKeepsExposure(policy, kept, recs[n], reason);
      if Keeps(reason) {
        if Counts(recs[n]) {
          KeepingRespectsCaps(policy, kept, Mark(recs[n], reason));
        } else {
          ZeroStakeIsFree(policy, kept, Mark(recs[n], reason));
        }
      }
    }
  }

  /** Item `i` is dropped exactly when it stakes something and its fraction is invalid or would break a cap on top of
      what was retained before it. */
  lemma DroppedOnlyForCause(policy: CorrelationPolicy, recs: seq<Recommendation>, i: nat)
    requires ValidPolicy(policy) && i < |recs|
    ensures var before, after := Guard(policy, recs[..i]), Guard(policy, recs[..i + 1]);
            |after.dropped| > |before.dropped| <==>
              Counts(recs[i]) && (recs[i].stakeFraction < 0.0 || !WithinCaps(policy, before.retained + [recs[i]]))
  {
    assert recs[..i + 1][..i] == recs[..i];
    var kept := Guard(policy, recs[..i]).retained;
    RetainedWithinCaps(policy, recs[..i]);
    if Counts(recs[i]) && recs[i].stakeFraction >= 0.0 {
      KeepingRespectsCaps(policy, kept, recs[i]);
    }
  }

  /** Running the guard on its own retained list drops nothing and changes nothing. */
  lemma {:induction false} GuardIdempotent(policy: CorrelationPolicy, recs: seq<Recommendation>)
    ensures Guard(policy, Guard(policy, recs).retained) == Guarded(Guard(policy, recs).retained, [])
  {
    if recs != [] {
      var n := |recs| - 1;
      GuardIdempotent(policy, recs[..n]);
      var kept := Guard(policy, recs[..n]).retained;
      var reason := Verdict(policy, kept, recs[n]);
      if Keeps(reason) {
        var marked := Mark(recs[n], reason);
        assert (kept + [marked])[..|kept|] == kept;
        MarkKeepsExposure(policy, kept, recs[n], reason);
      }
    }
  }

  // ---- the caps, counted pick by pick ----

  /** A staked pick on this game of this sport. */
  function OnGame(sport: Sport, gameId: int): Recommendation -> bool {
    (r: Recommendation) => r.stakeCents > 0 && r.sport == sport && r.gameId == gameId
  }

  /** A staked pick on an event of this sport in the 24 hours from midnight UTC of day `day`. */
  function OnDay(sport: Sport, day: int): Recommendation -> bool {
    (r: Recommendation) => r.stakeCents > 0 && r.sport == sport && day * 86400 <= r.eventTime < (day + 1) * 86400
  }

  function FractionOf(): Recommendation -> real {
    (r: Recommendation) => r.stakeFraction
  }

  lemma {:induction false} ExposureCounts(recs: seq<Recommendation>, sport: Sport, gameId: int, day: int)
    ensures GamePicks(recs, (sport, gameId)) == CountIf(recs, OnGame(sport, gameId))
    ensures GameStake(recs, (sport, gameId)) == SumIf(recs, OnGame(sport, gameId), FractionOf())
    ensures DayPicks(recs, (sport, day)) == CountIf(recs, OnDay(sport, day))
  {
    if recs != [] {
      var last := recs[|recs| - 1];
      ExposureCounts(recs[..|recs| - 1], sport, gameId, day);
      DayOfTime(last.eventTime, day);
    }
  }

  lemma DayOfTime(time: int, day: int)
    ensures time / SECONDS_PER_DAY == day <==> day * 86400 <= time < (day + 1) * 86400
  {
  }

  /** For every game, and every day of every sport: the staked picks retained, and their fractions added up, stay within the
      policy's numbers. */
  lemma RetainedCounts(policy: CorrelationPolicy, recs: seq<Recommendation>, sport: Sport, gameId: int, day: int)
    requires ValidPolicy(policy)
    ensures var kept := Guard(policy, recs).retained;
            && CountIf(kept, OnGame(sport, gameId)) <= policy.maxPerGame
            && SumIf(kept, OnGame(sport, gameId), FractionOf()) <= policy.maxFractionPerGame + 0.000000000001
            && (policy.maxPerSportDay > 0 ==> CountIf(kept, OnDay(sport, day)) <= policy.maxPerSportDay)
  {
    RetainedWithinCaps(policy, recs);
    ExposureCounts(Guard(policy, recs).retained, sport, gameId, day);
  }

  /** What happens to the next item, from the counts over what was retained before it: the first cap it would break is the
      reason it is dropped with, and otherwise it is retained. */
  lemma VerdictCounts(policy: CorrelationPolicy, recs: seq<Recommendation>, i: nat)
    requires i < |recs|
    ensures var r, before, after := recs[i], Guard(policy, recs[..i]), Guard(policy, recs[..i + 1]);
            var picks := CountIf(before.retained, OnGame(r.sport, r.gameId));
            var stake := SumIf(before.retained, OnGame(r.sport, r.gameId), FractionOf());
            var today := CountIf(before.retained, OnDay(r.sport, r.eventTime / 86400));
            var broken :=
              if picks + 1 > policy.maxPerGame then Some(TooManyPerGame)
              else if stake + r.stakeFraction > policy.maxFractionPerGame + 0.000000000001 then Some(TooMuchPerGame)
              else if policy.maxPerSportDay > 0 && today + 1 > policy.maxPerSportDay then Some(TooManyPerSportDay)
              else None;
            && (r.stakeCents <= 0 ==>
                  after == Guarded(before.retained + [r.(correlationPass := true, correlationReason := ZeroStake)], before.dropped))
            && (r.stakeCents > 0 && r.stakeFraction < 0.0 ==>
                  after == Guarded(before.retained, before.dropped + [r.(correlationPass := false, correlationReason := InvalidStake)]))
            && (r.stakeCents > 0 && r.stakeFraction >= 0.0 && broken.Some? ==>
                  after == Guarded(before.retained, before.dropped + [r.(correlationPass := false, correlationReason := broken.value)]))
            && (r.stakeCents > 0 && r.stakeFraction >= 0.0 && broken.None? ==>
                  after == Guarded(before.retained + [r.(correlationPass := true, correlationReason := WithinLimits)], before.dropped))
  {
    assert recs[..i + 1][..i] == recs[..i];
    var r := recs[i];
    ExposureCounts(Guard(policy, recs[..i]).retained, r.sport, r.gameId, r.eventTime / SECONDS_PER_DAY);
  }
}
