/** Loss stops read off the ledger: internal/store/bankroll.sql.go and internal/decision/circuit.go. */
module Circuit {
  import opened Wrappers
  import opened Reals
  import opened Sorting
  import opened Ledger
  import opened Correlation
  import opened Counting

  datatype CircuitPolicy = CircuitPolicy(dailyStop: real, weeklyStop: real, drawdown: real)

  datatype Metrics = Metrics(current: int, dayStart: int, weekStart: int, peak: int)

  datatype Status = Status(
    pass: bool, reason: CircuitReason, triggered: seq<CircuitReason>, daily: real, weekly: real, drawdown: real)

  predicate ValidPolicy(p: CircuitPolicy) {
    0.0 <= p.dailyStop <= 1.0 && 0.0 <= p.weeklyStop <= 1.0 && 0.0 <= p.drawdown <= 1.0
  }

  function ResolvePolicy(daily: real, weekly: real, drawdown: real): (res: Result<CircuitPolicy>)
    ensures res.Ok? ==> ValidPolicy(res.value) && res.value.dailyStop > 0.0 && res.value.weeklyStop > 0.0 && res.value.drawdown > 0.0
    ensures res.Ok? <==> 0.0 <= daily <= 1.0 && 0.0 <= weekly <= 1.0 && 0.0 <= drawdown <= 1.0
    ensures res.Ok? ==> res.value.dailyStop == if daily == 0.0 then 0.05 else daily
    ensures res.Ok? ==> res.value.weeklyStop == if weekly == 0.0 then 0.10 else weekly
    ensures res.Ok? ==> res.value.drawdown == if drawdown == 0.0 then 0.15 else drawdown
  {
    if !ValidPolicy(CircuitPolicy(daily, weekly, drawdown)) then Err("must be finite in [0,1]")
    else Ok(CircuitPolicy(if daily > 0.0 then daily else 0.05, if weekly > 0.0 then weekly else 0.10, if drawdown > 0.0 then drawdown else 0.15))
  }

  function LossFraction(start: int, current: int): real {
    if current >= start then 0.0
    else if start <= 0 then 1.0
    else (start - current) as real / start as real
  }

  // ---- the metrics query ----

  predicate Earlier(a: Entry, b: Entry) {
    a.createdAt < b.createdAt
  }

  /** The ledger by creation time, ties in insertion order. */
  function Chronological(ledger: seq<Entry>): seq<Entry> {
    StableSort(Earlier, ledger)
  }

  function BalanceBefore(ledger: seq<Entry>, time: int): int {
    if ledger == [] then 0
    else
      var last := ledger[|ledger| - 1];
      BalanceBefore(ledger[..|ledger| - 1], time) + (if last.createdAt < time then last.amount else 0)
  }

  /** The largest balance reached after any entry. */
  function Highest(entries: seq<Entry>): int {
    if |entries| == 0 then 0
    else if |entries| == 1 then Balance(entries)
    else
      var before := Highest(entries[..|entries| - 1]);
      if Balance(entries) > before then Balance(entries) else before
  }

  function MetricsOf(ledger: seq<Entry>, dayStart: int, weekStart: int): Metrics {
    Metrics(Balance(ledger), BalanceBefore(ledger, dayStart), BalanceBefore(ledger, weekStart), Highest(Chronological(ledger)))
  }

  // ---- the breakers ----

  function Triggered(policy: CircuitPolicy, m: Metrics): seq<CircuitReason> {
    (if policy.dailyStop > 0.0 && LossFraction(m.dayStart, m.current) >= policy.dailyStop then [DailyLossStop] else [])
    + (if policy.weeklyStop > 0.0 && LossFraction(m.weekStart, m.current) >= policy.weeklyStop then [WeeklyLossStop] else [])
    + (if policy.drawdown > 0.0 && LossFraction(m.peak, m.current) >= policy.drawdown then [DrawdownBreaker] else [])
  }

  predicate HasLost(start: int, current: int, share: real) {
    if start > 0 then start as real - current as real >= share * start as real else current < start
  }

  /** The breached stops in daily, weekly, drawdown order. */
  function Breaches(policy: CircuitPolicy, m: Metrics): seq<CircuitReason> {
    (if policy.dailyStop > 0.0 && HasLost(m.dayStart, m.current, policy.dailyStop) then [DailyLossStop] else [])
    + (if policy.weeklyStop > 0.0 && HasLost(m.weekStart, m.current, policy.weeklyStop) then [WeeklyLossStop] else [])
    + (if policy.drawdown > 0.0 && HasLost(m.peak, m.current, policy.drawdown) then [DrawdownBreaker] else [])
  }

  /** Trips on any breached stop and reports the first in daily, weekly, drawdown order. */
  method EvaluateCircuitBreakers(policy: CircuitPolicy, m: Metrics) returns (res: Result<Status>)
    ensures res.Ok? <==> ValidPolicy(policy)
    ensures res.Ok? ==> res.value == StatusOf(policy, m)
    ensures res.Ok? ==> res.value.triggered == Breaches(policy, m) && (res.value.pass <==> res.value.triggered == [])
    ensures res.Ok? ==> res.value.reason == if res.value.pass then CircuitPass else res.value.triggered[0]
  {
    if !ValidPolicy(policy) {
      return Err("must be finite in [0,1]");
    }
    TriggeredMeans(policy, m);
    var daily := LossFraction(m.dayStart, m.current);
    var weekly := LossFraction(m.weekStart, m.current);
    var drawdown := LossFraction(m.peak, m.current);
    var triggered: seq<CircuitReason> := [];
    if policy.dailyStop > 0.0 && daily >= policy.dailyStop {
      triggered := triggered + [DailyLossStop];
    }
    if policy.weeklyStop > 0.0 && weekly >= policy.weeklyStop {
      triggered := triggered + [WeeklyLossStop];
    }
    if policy.drawdown > 0.0 && drawdown >= policy.drawdown {
      triggered := triggered + [DrawdownBreaker];
    }
    var pass, reason := true, CircuitPass;
    if |triggered| > 0 {
      pass, reason := false, triggered[0];
    }
    return Ok(Status(pass, reason, triggered, daily, weekly, drawdown));
  }

  function StatusOf(policy: CircuitPolicy, m: Metrics): Status {
    var triggered := Triggered(policy, m);
    Status(triggered == [], if triggered == [] then CircuitPass else triggered[0], triggered,
           LossFraction(m.dayStart, m.current), LossFraction(m.weekStart, m.current), LossFraction(m.peak, m.current))
  }

  function CircuitMark(status: Status, rec: Recommendation): Recommendation {
    if !Counts(rec) then rec.(circuitPass := true, circuitReason := CircuitZeroStake)
    else rec.(circuitPass := status.pass, circuitReason := status.reason)
  }

  /** Everything passes while the breakers are shut; once tripped only zero-stake picks remain. */
  function Allowed(status: Status, recs: seq<Recommendation>): seq<Recommendation> {
    if recs == [] then []
    else
      var last := recs[|recs| - 1];
      Allowed(status, recs[..|recs| - 1]) + (if !Counts(last) || status.pass then [CircuitMark(status, last)] else [])
  }

  function Blocked(status: Status, recs: seq<Recommendation>): seq<Recommendation> {
    if recs == [] then []
    else
      var last := recs[|recs| - 1];
      Blocked(status, recs[..|recs| - 1]) + (if !Counts(last) || status.pass then [] else [CircuitMark(status, last)])
  }

  method ApplyCircuitBreakerGuard(recs: seq<Recommendation>, policy: CircuitPolicy, m: Metrics) returns (res: Result<Guarded>)
    ensures res.Ok? <==> ValidPolicy(policy)
    ensures res.Ok? ==> res.value == Guarded(Allowed(StatusOf(policy, m), recs), Blocked(StatusOf(policy, m), recs))
  {
    var evaluated := EvaluateCircuitBreakers(policy, m);
    if evaluated.Err? {
      return Err(evaluated.message);
    }
    var status := evaluated.value;
    var retained, dropped: seq<Recommendation> := [], [];
    for i := 0 to |recs|
      invariant retained == Allowed(status, recs[..i]) && dropped == Blocked(status, recs[..i])
    {
      assert recs[..i + 1][..i] == recs[..i];
      var rec := recs[i].(circuitPass := true, circuitReason := CircuitPass);
      if rec.stakeCents <= 0 {
        retained := retained + [rec.(circuitReason := CircuitZeroStake)];
      } else if status.pass {
        retained := retained + [rec];
      } else {
        dropped := dropped + [rec.(circuitPass := false, circuitReason := status.reason)];
      }
    }
    assert recs[..|recs|] == recs;
    return Ok(Guarded(retained, dropped));
  }

  // ---- main results ----

  /** While any breaker is tripped no recommendation with a stake is emitted. */
  lemma {:induction false} TrippedEmitsNoStake(policy: CircuitPolicy, m: Metrics, recs: seq<Recommendation>, i: nat)
    requires Triggered(policy, m) != [] && i < |Allowed(StatusOf(policy, m), recs)|
    ensures !Counts(Allowed(StatusOf(policy, m), recs)[i])
  {
    var rest := Allowed(StatusOf(policy, m), recs[..|recs| - 1]);
    if i < |rest| {
      TrippedEmitsNoStake(policy, m, recs[..|recs| - 1], i);
    }
  }

  /** Each stop trips exactly when it is set and the balance has lost at least its share of a positive starting balance;
      from a zero or negative start any fall trips it. */
  lemma BreakersTripIff(policy: CircuitPolicy, m: Metrics)
    requires ValidPolicy(policy)
    ensures DailyLossStop in Triggered(policy, m) <==> policy.dailyStop > 0.0 && HasLost(m.dayStart, m.current, policy.dailyStop)
    ensures WeeklyLossStop in Triggered(policy, m) <==> policy.weeklyStop > 0.0 && HasLost(m.weekStart, m.current, policy.weeklyStop)
    ensures DrawdownBreaker in Triggered(policy, m) <==> policy.drawdown > 0.0 && HasLost(m.peak, m.current, policy.drawdown)
  {
    LossFractionMeaning(m.dayStart, m.current, policy.dailyStop);
    LossFractionMeaning(m.weekStart, m.current, policy.weeklyStop);
    LossFractionMeaning(m.peak, m.current, policy.drawdown);
  }

  /** What trips is exactly what is breached, in order. */
  lemma TriggeredMeans(policy: CircuitPolicy, m: Metrics)
    requires ValidPolicy(policy)
    ensures Triggered(policy, m) == Breaches(policy, m)
  {
    LossFractionMeaning(m.dayStart, m.current, policy.dailyStop);
    LossFractionMeaning(m.weekStart, m.current, policy.weeklyStop);
    LossFractionMeaning(m.peak, m.current, policy.drawdown);
  }

  /** The guard splits the list in order: with nothing breached everything stays, otherwise exactly the picks without a stake,
      and every item is marked with why. */
  lemma {:induction false} BreakerSplits(policy: CircuitPolicy, m: Metrics, recs: seq<Recommendation>)
    requires ValidPolicy(policy)
    ensures var s, breaches := StatusOf(policy, m), Breaches(policy, m);
            && Splits(recs, Allowed(s, recs), Blocked(s, recs))
            && (breaches == [] ==> Blocked(s, recs) == [])
            && (forall r :: r in Allowed(s, recs) ==> r.circuitPass && (r.stakeCents > 0 ==> breaches == [] && r.circuitReason == CircuitPass))
            && (forall r :: r in Allowed(s, recs) && r.stakeCents <= 0 ==> r.circuitReason == CircuitZeroStake)
            && (forall r :: r in Blocked(s, recs) ==> r.stakeCents > 0 && !r.circuitPass && breaches != [] && r.circuitReason == breaches[0])
  {
    TriggeredMeans(policy, m);
    if recs != [] {
      var n, s := |recs| - 1, StatusOf(policy, m);
      BreakerSplits(policy, m, recs[..n]);
      var marked := CircuitMark(s, recs[n]);
      var kept, out := Allowed(s, recs[..n]), Blocked(s, recs[..n]);
      if !Counts(recs[n]) || s.pass {
        assert Allowed(s, recs) == kept + [marked] && (kept + [marked])[..|kept|] == kept && Blocked(s, recs) == out + [] == out;
      } else {
        assert Blocked(s, recs) == out + [marked] && (out + [marked])[..|out|] == out && Allowed(s, recs) == kept + [] == kept;
      }
    }
  }

  lemma LossFractionMeaning(start: int, current: int, share: real)
    requires share <= 1.0
    ensures share > 0.0 ==> (LossFraction(start, current) >= share <==> HasLost(start, current, share))
  {
    if share > 0.0 && start > 0 {
      var x, lost := start as real, start as real - current as real;
      ProductPositive(share, x);
      if current < start {
        var q := lost / x;
        assert q * x == lost;
        if q >= share {
          ProductMonotone(x, share, q);
        } else {
          ProductPositive(share - q, x);
        }
      }
    }
  }

  lemma {:induction false} BalanceOfSplit(a: seq<Entry>, b: seq<Entry>)
    ensures Balance(a + b) == Balance(a) + Balance(b)
    ensures forall time :: BalanceBefore(a + b, time) == BalanceBefore(a, time) + BalanceBefore(b, time)
  {
    if b == [] {
      assert a + b == a;
    } else {
      assert (a + b)[..|a + b| - 1] == a + b[..|b| - 1];
      BalanceOfSplit(a, b[..|b| - 1]);
    }
  }

  lemma BalanceOfOne(x: Entry, time: int)
    ensures Balance([x]) == x.amount
    ensures BalanceBefore([x], time) == if x.createdAt < time then x.amount else 0
  {
    assert [x][..0] == [];
    assert Balance([x][..0]) == 0 && BalanceBefore([x][..0], time) == 0;
  }

  lemma {:induction false} InsertKeepsBalance(x: Entry, s: seq<Entry>, time: int)
    ensures Balance(Insert(Earlier, x, s)) == x.amount + Balance(s)
    ensures BalanceBefore(Insert(Earlier, x, s), time) == (if x.createdAt < time then x.amount else 0) + BalanceBefore(s, time)
  {
    BalanceOfOne(x, time);
    if s != [] && Earlier(s[0], x) {
      InsertKeepsBalance(x, s[1..], time);
      BalanceOfOne(s[0], time);
      BalanceOfSplit([s[0]], Insert(Earlier, x, s[1..]));
      BalanceOfSplit([s[0]], s[1..]);
      assert [s[0]] + s[1..] == s;
    } else {
      BalanceOfSplit([x], s);
      assert s == [] ==> [x] + s == [x];
    }
  }

  /** Reordering by time changes no total. */
  lemma {:induction false} SortKeepsBalance(ledger: seq<Entry>, time: int)
    ensures Balance(Chronological(ledger)) == Balance(ledger)
    ensures BalanceBefore(Chronological(ledger), time) == BalanceBefore(ledger, time)
  {
    if ledger != [] {
      SortKeepsBalance(ledger[1..], time);
      InsertKeepsBalance(ledger[0], Chronological(ledger[1..]), time);
      BalanceOfSplit([ledger[0]], ledger[1..]);
      assert [ledger[0]] + ledger[1..] == ledger;
      BalanceOfOne(ledger[0], time);
    }
  }

  /** In time order, the balance before a moment is the balance after some number of entries. */
  lemma {:induction false} BeforeIsPrefix(entries: seq<Entry>, time: int) returns (k: nat)
    requires Sorted(Earlier, entries)
    ensures k <= |entries| && BalanceBefore(entries, time) == Balance(entries[..k])
    ensures k < |entries| ==> entries[k].createdAt >= time
    ensures forall i :: 0 <= i < k ==> entries[i].createdAt < time
  {
    if entries == [] {
      k := 0;
    } else {
      var n := |entries| - 1;
      k := BeforeIsPrefix(entries[..n], time);
      assert k < n ==> !Earlier(entries[n], entries[k]);
      if entries[n].createdAt < time {
        assert k == n;
        assert entries[..n][..n] == entries[..n];
        assert entries[..n + 1] == entries;
        k := n + 1;
      } else {
        assert entries[..n][..k] == entries[..k];
      }
    }
  }

  lemma {:induction false} PrefixBelowHighest(entries: seq<Entry>, k: nat)
    requires 0 < k <= |entries|
    ensures Balance(entries[..k]) <= Highest(entries)
  {
    if k == |entries| {
      assert entries[..k] == entries;
    } else {
      assert entries[..|entries| - 1][..k] == entries[..k];
      PrefixBelowHighest(entries[..|entries| - 1], k);
    }
  }

  lemma LossIsComplement(c: real, x: real)
    requires x > 0.0
    ensures (x - c) / x == 1.0 - c / x
  {
    var q, r := (x - c) / x, c / x;
    assert q * x == x - c && r * x == c;
    assert (q + r - 1.0) * x == 0.0;
    if q + r > 1.0 {
      ProductPositive(q + r - 1.0, x);
    } else if q + r < 1.0 {
      ProductPositive(1.0 - q - r, x);
    }
  }

  lemma LossMonotone(low: int, high: int, current: int)
    requires 0 <= current && low <= high
    ensures LossFraction(low, current) <= LossFraction(high, current)
  {
    if current < low {
      var c, x, y := current as real, low as real, high as real;
      ReciprocalAntitone(c, x, y);
      LossIsComplement(c, x);
      LossIsComplement(c, y);
    }
  }

  /** The loss since the balance `b` is at most the drawdown from the peak `p`. */
  predicate Dominated(b: int, c: int, p: int) {
    LossFraction(b, c) <= LossFraction(p, c)
  }

  lemma DominanceCases(b: int, c: int, p: int)
    requires c <= p && (b > 0 ==> b <= p)
    ensures Dominated(b, c, p) <==> c >= 0 || c >= b || b == p || (b <= 0 && c < p)
  {
    if c >= b {
    } else if c >= 0 {
      LossMonotone(b, p, c);
    } else if b > 0 {
      if b < p {
        OverdrawnLossFalls(b, p, c);
      }
    } else if c < p {
      OverdrawnIsTotal(p, c);
    }
  }

  /** Overdrawn, the loss as a share of a positive start shrinks as the start grows. */
  lemma OverdrawnLossFalls(low: int, high: int, current: int)
    requires current < 0 < low < high
    ensures LossFraction(low, current) > LossFraction(high, current)
  {
    var d, x, y := (-current) as real, low as real, high as real;
    LossIsComplement(-d, x);
    LossIsComplement(-d, y);
    NegatedQuotient(d, x);
    NegatedQuotient(d, y);
    StrictReciprocal(d, x, y);
  }

  lemma NegatedQuotient(d: real, x: real)
    requires x > 0.0
    ensures (-d) / x == -(d / x)
  {
    var p, q := (-d) / x, d / x;
    assert p * x == -d && q * x == d;
    assert (p + q) * x == 0.0;
    if p + q > 0.0 {
      ProductPositive(p + q, x);
    } else if p + q < 0.0 {
      ProductPositive(-(p + q), x);
    }
  }

  lemma StrictReciprocal(d: real, x: real, y: real)
    requires d > 0.0 && 0.0 < x < y
    ensures d / y < d / x
  {
    var p, q := d / x, d / y;
    assert p * x == d && q * y == d;
    if q >= p {
      ProductMonotone(y, p, q);
      if p > 0.0 {
        ProductPositive(p, y - x);
      } else {
        ProductNonNegative(-p, x);
      }
    }
  }

  /** For every ledger and moment: the loss since that moment is at most the drawdown exactly when the balance is not
      negative, or has not fallen since, or that moment was the peak, or it started at most at zero and is now below the peak. */
  lemma DrawdownDominatesIff(ledger: seq<Entry>, time: int)
    ensures var b, c, p := BalanceBefore(ledger, time), Balance(ledger), Highest(Chronological(ledger));
            Dominated(b, c, p) <==> c >= 0 || c >= b || b == p || (b <= 0 && c < p)
  {
    var sorted := Chronological(ledger);
    SortKeepsBalance(ledger, time);
    SortSorts(Earlier, ledger);
    SortPermutes(Earlier, ledger);
    var k := BeforeIsPrefix(sorted, time);
    if k > 0 {
      PrefixBelowHighest(sorted, k);
    }
    if sorted != [] {
      PrefixBelowHighest(sorted, |sorted|);
      assert sorted[..|sorted|] == sorted;
    }
    DominanceCases(BalanceBefore(ledger, time), Balance(ledger), Highest(sorted));
  }

  /** With a non-negative balance the drawdown fraction dominates the loss since any earlier moment. */
  lemma DrawdownDominates(ledger: seq<Entry>, time: int)
    requires Balance(ledger) >= 0
    ensures LossFraction(BalanceBefore(ledger, time), Balance(ledger)) <= LossFraction(Highest(Chronological(ledger)), Balance(ledger))
  {
    DrawdownDominatesIff(ledger, time);
    assert Dominated(BalanceBefore(ledger, time), Balance(ledger), Highest(Chronological(ledger)));
  }

  /** Overdrawn, it need not: with no entry before today the daily loss is total while the peak is the balance itself. */
  lemma OverdrawnDailyExceedsDrawdown()
    ensures var ledger := [Entry(StakeReserved, -100, ForBet("k"), 10)]; var m := MetricsOf(ledger, 5, 5);
            LossFraction(m.dayStart, m.current) == 1.0 && LossFraction(m.peak, m.current) == 0.0
  {
    var ledger := [Entry(StakeReserved, -100, ForBet("k"), 10)];
    SortedIsFixed(Earlier, ledger);
    assert Balance(ledger[..0]) == 0 && BalanceBefore(ledger[..0], 5) == 0;
  }

  // ---- the metrics, entry by entry ----

  function AmountOf(): Entry -> int {
    (e: Entry) => e.amount
  }

  function Dated(before: int): Entry -> bool {
    (e: Entry) => e.createdAt < before
  }

  function Always(): Entry -> bool {
    (e: Entry) => true
  }

  lemma {:induction false} BalanceTotals(ledger: seq<Entry>, time: int)
    ensures Balance(ledger) == TotalIf(ledger, Always(), AmountOf())
    ensures BalanceBefore(ledger, time) == TotalIf(ledger, Dated(time), AmountOf())
  {
    if ledger != [] {
      BalanceTotals(ledger[..|ledger| - 1], time);
    }
  }

  lemma {:induction false} HighestReached(entries: seq<Entry>) returns (k: nat)
    requires entries != []
    ensures 0 < k <= |entries| && Balance(entries[..k]) == Highest(entries)
  {
    var n := |entries| - 1;
    assert entries[..n + 1] == entries;
    if n == 0 || Balance(entries) > Highest(entries[..n]) {
      k := n + 1;
    } else {
      k := HighestReached(entries[..n]);
      assert entries[..n][..k] == entries[..k];
    }
  }

  /** The queried metrics: the sum of all amounts, of those before the day and before the week, and the largest running sum in
      time order. */
  lemma MetricsMean(ledger: seq<Entry>, dayStart: int, weekStart: int, k: nat) returns (best: nat)
    requires 0 < k <= |ledger|
    ensures var m := MetricsOf(ledger, dayStart, weekStart);
            && m.current == TotalIf(ledger, Always(), AmountOf())
            && m.dayStart == TotalIf(ledger, Dated(dayStart), AmountOf())
            && m.weekStart == TotalIf(ledger, Dated(weekStart), AmountOf())
    ensures var m, sorted := MetricsOf(ledger, dayStart, weekStart), Chronological(ledger);
            && |sorted| == |ledger| && 0 < best <= |sorted|
            && TotalIf(sorted[..k], Always(), AmountOf()) <= m.peak == TotalIf(sorted[..best], Always(), AmountOf())
  {
    BalanceTotals(ledger, dayStart);
    BalanceTotals(ledger, weekStart);
    SortPermutes(Earlier, ledger);
    var sorted := Chronological(ledger);
    PrefixBelowHighest(sorted, k);
    best := HighestReached(sorted);
    BalanceTotals(sorted[..k], 0);
    BalanceTotals(sorted[..best], 0);
  }

  // ---- what a later entry does to the peak ----

  lemma {:induction false} HighestOfSplit(a: seq<Entry>, b: seq<Entry>)
    requires a != [] && b != []
    ensures var tail := Balance(a) + Highest(b);
            Highest(a + b) == if tail > Highest(a) then tail else Highest(a)
  {
    var n := |b| - 1;
    assert (a + b)[..|a + b| - 1] == a + b[..n];
    BalanceOfSplit(a, b);
    if n == 0 {
      assert a + b[..n] == a;
    } else {
      HighestOfSplit(a, b[..n]);
    }
  }

  /** The entries dated no later than `time`: with the ledger in time order, its first part. */
  function DatedTo(entries: seq<Entry>, time: int): (a: seq<Entry>)
    ensures a <= entries
  {
    if entries == [] || entries[0].createdAt > time then [] else [entries[0]] + DatedTo(entries[1..], time)
  }

  /** Where a new row lands in time order: after every entry dated no later. */
  function InsertLate(x: Entry, entries: seq<Entry>): seq<Entry> {
    var a := DatedTo(entries, x.createdAt);
    a + [x] + entries[|a|..]
  }

  lemma LateStep(x: Entry, entries: seq<Entry>)
    requires entries != []
    ensures InsertLate(x, entries) == if Earlier(x, entries[0]) then [x] + entries else [entries[0]] + InsertLate(x, entries[1..])
  {
    if !Earlier(x, entries[0]) {
      var a := DatedTo(entries[1..], x.createdAt);
      assert DatedTo(entries, x.createdAt) == [entries[0]] + a;
      assert entries[1..][|a|..] == entries[|a| + 1..];
      assert [entries[0]] + a + [x] + entries[|a| + 1..] == [entries[0]] + (a + [x] + entries[|a| + 1..]);
    } else {
      assert [] + [x] + entries == [x] + entries;
    }
  }

  lemma {:induction false} InsertsCommute(x: Entry, y: Entry, s: seq<Entry>)
    ensures InsertLate(x, Insert(Earlier, y, s)) == Insert(Earlier, y, InsertLate(x, s))
  {
    LateStep(x, Insert(Earlier, y, s));
    if s == [] {
      assert InsertLate(x, []) == [x];
      assert [y][1..] == [];
      assert [x][1..] == [];
    } else {
      LateStep(x, s);
      if Earlier(s[0], y) {
        InsertsCommute(x, y, s[1..]);
        var rest := Insert(Earlier, y, s[1..]);
        assert ([s[0]] + rest)[1..] == rest;
        assert ([x] + s)[1..] == s;
        assert ([s[0]] + InsertLate(x, s[1..]))[1..] == InsertLate(x, s[1..]);
      } else {
        assert ([y] + s)[1..] == s;
        assert ([x] + s)[1..] == s;
        assert ([s[0]] + InsertLate(x, s[1..]))[1..] == InsertLate(x, s[1..]);
      }
    }
  }

  /** Appending a row to the table inserts it, in time order, after everything dated no later. */
  lemma {:induction false} ChronologicalAppend(ledger: seq<Entry>, x: Entry)
    ensures Chronological(ledger + [x]) == InsertLate(x, Chronological(ledger))
  {
    if ledger == [] {
      assert ledger + [x] == [x] && [x][1..] == [];
      assert Chronological([x][1..]) == [];
      assert Chronological([x]) == Insert(Earlier, x, []) == [x];
      assert InsertLate(x, []) == [x];
    } else {
      assert (ledger + [x])[1..] == ledger[1..] + [x];
      ChronologicalAppend(ledger[1..], x);
      InsertsCommute(x, ledger[0], Chronological(ledger[1..]));
    }
  }

  function Peak(ledger: seq<Entry>): int {
    Highest(Chronological(ledger))
  }

  /** The part of the history up to the date of `x` reached the peak by itself. */
  predicate PeakReachedBy(ledger: seq<Entry>, x: Entry) {
    var before := DatedTo(Chronological(ledger), x.createdAt);
    before != [] && Highest(before) == Peak(ledger)
  }

  lemma PeakAfter(a: seq<Entry>, x: Entry, b: seq<Entry>)
    requires a != []
    ensures Highest(a + [x] + b) >= Highest(a)
    ensures x.amount >= 0 ==> Highest(a + [x] + b) >= Highest(a + b)
    ensures x.amount < 0 ==> (Highest(a + [x] + b) >= Highest(a + b) <==> Highest(a + b) == Highest(a))
    ensures x.amount < 0 ==> Highest(a + [x] + b) <= Highest(a + b)
  {
    HighestAppend(a, x);
    PrefixBelowHighest(a, |a|);
    assert a[..|a|] == a;
    if b == [] {
      assert a + [x] + b == a + [x] && a + b == a;
    } else {
      HighestOfSplit(a + [x], b);
      HighestOfSplit(a, b);
    }
  }

  lemma PeakAfterFirst(x: Entry, b: seq<Entry>)
    ensures x.amount >= 0 && b != [] ==> Highest([x] + b) >= Highest(b)
    ensures x.amount < 0 && Highest(b) > 0 ==> Highest([x] + b) < Highest(b)
  {
    BalanceOfOne(x, 0);
    if b == [] {
      assert [x] + b == [x];
    } else {
      HighestOfSplit([x], b);
    }
  }

  lemma SplitAtDate(ledger: seq<Entry>, x: Entry) returns (a: seq<Entry>, b: seq<Entry>)
    ensures a == DatedTo(Chronological(ledger), x.createdAt) && Chronological(ledger) == a + b
    ensures Chronological(ledger + [x]) == a + [x] + b
  {
    ChronologicalAppend(ledger, x);
    var sorted := Chronological(ledger);
    a := DatedTo(sorted, x.createdAt);
    b := sorted[|a|..];
    assert a == sorted[..|a|];
  }

  /** A debit, whenever it is dated, leaves a positive peak where it was exactly when the history up to its date had reached
      that peak; otherwise the peak falls. */
  lemma LateDebitKeepsPeakIff(ledger: seq<Entry>, x: Entry)
    requires x.amount < 0 && Peak(ledger) > 0
    ensures Peak(ledger + [x]) == Peak(ledger) <==> PeakReachedBy(ledger, x)
    ensures Peak(ledger + [x]) <= Peak(ledger)
  {
    var a, b := SplitAtDate(ledger, x);
    if a == [] {
      assert a + b == b && a + [x] + b == [x] + b;
      PeakAfterFirst(x, b);
    } else {
      PeakAfter(a, x, b);
    }
  }

  /** A credit, whenever it is dated, never lowers the peak. */
  lemma LateCreditKeepsPeak(ledger: seq<Entry>, x: Entry)
    requires x.amount >= 0 && ledger != []
    ensures Peak(ledger + [x]) >= Peak(ledger)
  {
    var a, b := SplitAtDate(ledger, x);
    SortPermutes(Earlier, ledger);
    if a == [] {
      assert a + b == b && a + [x] + b == [x] + b;
      PeakAfterFirst(x, b);
    } else {
      PeakAfter(a, x, b);
    }
  }

  /** Each later row is a credit, or a debit dated after the peak of what precedes it was reached. */
  ghost predicate SparesPeak(ledger: seq<Entry>, more: seq<Entry>) {
    forall i {:trigger more[i]} :: 0 <= i < |more| && more[i].amount < 0 ==> PeakReachedBy(ledger + more[..i], more[i])
  }

  lemma {:induction false} PeakNeverFalls(ledger: seq<Entry>, more: seq<Entry>)
    requires ledger != [] && SparesPeak(ledger, more)
    ensures Peak(ledger + more) >= Peak(ledger)
  {
    if more == [] {
      assert ledger + more == ledger;
    } else {
      var n := |more| - 1;
      assert forall i :: 0 <= i < n ==> more[..n][i] == more[i] && more[..n][..i] == more[..i];
      PeakNeverFalls(ledger, more[..n]);
      var before, x := ledger + more[..n], more[n];
      assert ledger + more == before + [x];
      if x.amount >= 0 {
        LateCreditKeepsPeak(before, x);
      } else {
        var a, b := SplitAtDate(before, x);
        PeakAfter(a, x, b);
      }
    }
  }

  /** While no later debit undercuts the peak, a tripped drawdown breaker still trips after any extension that leaves the
      balance no higher, in whatever order the rows are dated. */
  lemma DrawdownStaysTrippedUnlessUndercut(ledger: seq<Entry>, more: seq<Entry>, threshold: real)
    requires ledger != [] && SparesPeak(ledger, more)
    requires Balance(ledger + more) <= Balance(ledger) && 0.0 < threshold <= 1.0
    requires LossFraction(Peak(ledger), Balance(ledger)) >= threshold
    ensures Peak(ledger + more) >= Peak(ledger)
    ensures LossFraction(Peak(ledger + more), Balance(ledger + more)) >= threshold
  {
    PeakNeverFalls(ledger, more);
    LossGrows(Peak(ledger), Balance(ledger), Peak(ledger + more), Balance(ledger + more), threshold);
  }

  /** Entries are written with timestamps that never go back. */
  ghost predicate AppendOrdered(ledger: seq<Entry>) {
    Sorted(Earlier, ledger)
  }

  lemma {:induction false} AllDated(entries: seq<Entry>, time: int)
    requires forall e :: e in entries ==> e.createdAt <= time
    ensures DatedTo(entries, time) == entries
  {
    if entries != [] {
      AllDated(entries[1..], time);
    }
  }

  /** Rows written in time order never undercut the peak. */
  lemma AppendOrderSparesPeak(ledger: seq<Entry>, more: seq<Entry>)
    requires AppendOrdered(ledger + more) && ledger != []
    ensures SparesPeak(ledger, more)
  {
    var all := ledger + more;
    forall i | 0 <= i < |more| && more[i].amount < 0 ensures PeakReachedBy(ledger + more[..i], more[i]) {
      var before := ledger + more[..i];
      assert forall k :: 0 <= k < |before| ==> before[k] == all[k];
      assert AppendOrdered(before);
      SortedIsFixed(Earlier, before);
      forall e | e in before ensures e.createdAt <= more[i].createdAt {
        var k :| 0 <= k < |before| && before[k] == e;
        assert all[|before|] == more[i] && !Earlier(all[|before|], all[k]);
      }
      AllDated(before, more[i].createdAt);
    }
  }

  /** With timestamps in append order the peak never falls, and a tripped drawdown breaker still trips after any
      extension that leaves the balance no higher. */
  lemma DrawdownStaysTripped(ledger: seq<Entry>, more: seq<Entry>, threshold: real)
    requires AppendOrdered(ledger + more) && ledger != []
    requires Balance(ledger + more) <= Balance(ledger) && 0.0 < threshold <= 1.0
    requires LossFraction(Highest(Chronological(ledger)), Balance(ledger)) >= threshold
    ensures Highest(Chronological(ledger + more)) >= Highest(Chronological(ledger))
    ensures LossFraction(Highest(Chronological(ledger + more)), Balance(ledger + more)) >= threshold
  {
    AppendOrderSparesPeak(ledger, more);
    DrawdownStaysTrippedUnlessUndercut(ledger, more, threshold);
  }

  lemma LossGrows(peak: int, current: int, peak': int, current': int, threshold: real)
    requires peak' >= peak && current' <= current && 0.0 < threshold <= 1.0
    requires LossFraction(peak, current) >= threshold
    ensures LossFraction(peak', current') >= threshold
  {
    if current' < 0 {
      OverdrawnIsTotal(peak', current');
    } else {
      LossMonotone(peak, peak', current');
      LossAntitone(peak, current, current');
    }
  }

  lemma OverdrawnIsTotal(peak: int, current: int)
    requires current < 0 && current < peak
    ensures LossFraction(peak, current) >= 1.0
  {
    if peak > 0 {
      QuotientMonotone(peak as real, (peak - current) as real, peak as real);
    }
  }

  lemma LossAntitone(start: int, current: int, lower: int)
    requires lower <= current
    ensures LossFraction(start, current) <= LossFraction(start, lower)
  {
    if current < start && start > 0 {
      QuotientMonotone((start - current) as real, (start - lower) as real, start as real);
    } else if lower < start && start > 0 {
      QuotientMonotone(0.0, (start - lower) as real, start as real);
    }
  }

  lemma HighestAppend(entries: seq<Entry>, x: Entry)
    requires entries != []
    ensures Balance(entries + [x]) == Balance(entries) + x.amount
    ensures Highest(entries + [x]) == if Balance(entries + [x]) > Highest(entries) then Balance(entries + [x]) else Highest(entries)
  {
    assert (entries + [x])[..|entries|] == entries;
  }

  /** A late entry with an early timestamp can lower the peak and release the breaker, with the balance no higher. */
  lemma BackdatedEntryReleasesBreaker()
    ensures var before := [Entry(Deposit, 100, Manual, 10), Entry(StakeReserved, -20, ForBet("a"), 20)];
            var after := before + [Entry(StakeReserved, -20, ForBet("b"), 5), Entry(Deposit, 20, Manual, 30)];
            && Balance(after) == Balance(before) == 80
            && LossFraction(Highest(Chronological(before)), 80) == 0.2
            && LossFraction(Highest(Chronological(after)), 80) == 0.0
  {
    var a, b := Entry(Deposit, 100, Manual, 10), Entry(StakeReserved, -20, ForBet("a"), 20);
    var c, d := Entry(StakeReserved, -20, ForBet("b"), 5), Entry(Deposit, 20, Manual, 30);
    SortedIsFixed(Earlier, [a, b]);
    ChronologicalExample(a, b, c, d);
    PeakOfTwo(a, b);
    PeakOfFour(c, a, b, d);
    assert [a, b] + [c] + [d] == [a, b] + [c, d];
    BalanceOfTwo(a, b);
    assert ([a, b] + [c])[..2] == [a, b] && ([a, b] + [c] + [d])[..3] == [a, b] + [c];
  }

  lemma BalanceOfTwo(a: Entry, b: Entry)
    ensures Balance([a, b]) == a.amount + b.amount
  {
    assert [a, b][..1] == [a];
    BalanceOfOne(a, 0);
  }

  lemma PeakOfTwo(a: Entry, b: Entry)
    requires b.amount <= 0
    ensures Highest([a, b]) == a.amount
  {
    assert [a] + [b] == [a, b];
    HighestAppend([a], b);
    BalanceOfOne(a, 0);
  }

  lemma PeakOfFour(c: Entry, a: Entry, b: Entry, d: Entry)
    requires a.amount == 100 && b.amount == c.amount == -20 && d.amount == 20
    ensures Highest([c, a, b, d]) == 80
  {
    assert [c] + [a] == [c, a] && [c, a] + [b] == [c, a, b] && [c, a, b] + [d] == [c, a, b, d];
    BalanceOfOne(c, 0);
    HighestAppend([c], a);
    HighestAppend([c, a], b);
    HighestAppend([c, a, b], d);
  }

  lemma ChronologicalExample(a: Entry, b: Entry, c: Entry, d: Entry)
    requires c.createdAt < a.createdAt < b.createdAt < d.createdAt
    ensures Chronological([a, b] + [c, d]) == [c, a, b, d]
  {
    var s := [a, b] + [c, d];
    assert s[1..] == [b, c, d] && s[1..][1..] == [c, d] && [c, d][1..] == [d] && [d][1..] == [];
    assert Chronological([d][1..]) == [];
    assert Chronological([d]) == Insert(Earlier, d, []) == [d];
    assert Chronological([c, d]) == Insert(Earlier, c, [d]) == [c] + [d];
    assert [c, d][1..] == [d] && Insert(Earlier, b, [d]) == [b] + [d];
    assert Insert(Earlier, b, [c, d]) == [c] + ([b] + [d]);
    assert ([c] + ([b] + [d]))[1..] == [b] + [d];
    assert Insert(Earlier, a, [b] + [d]) == [a] + ([b] + [d]);
    assert Insert(Earlier, a, [c] + ([b] + [d])) == [c] + ([a] + ([b] + [d]));
    assert [b, c, d][1..] == [c, d];
    assert Chronological([b, c, d]) == Insert(Earlier, b, Chronological([c, d]));
    assert Chronological(s) == Insert(Earlier, a, Chronological([b, c, d]));
    assert [c] + ([a] + ([b] + [d])) == [c, a, b, d];
  }
}
