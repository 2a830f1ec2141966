/** Settling, voiding and manual bets: internal/execution/settlement.go, internal/server/bets.go,
    internal/server/bankroll.go and internal/worker/settlement_job.go. */
module Settlement {
  import opened Wrappers
  import opened Reals
  import opened Odds
  import opened Sizing
  import opened Ledger
  import opened Lifecycle
  import opened ExactlyOnce
  import opened Conservation
  import opened Store
  import Text

  datatype Score = Score(sport: string, home: int, away: int)

  // ---- deciding a result ----

  /** The settlement processor's rule. */
  function DetermineResult(ticket: Ticket, homeWin: bool, push: bool): GameResult {
    if push then Push
    else if (ticket.side == "home" && homeWin) || (ticket.side != "home" && !homeWin) then Win
    else Loss
  }

  /** The worker's rule: moneyline bets on a named team only, and no ties in hockey. */
  function DetermineAutoResult(ticket: Ticket, score: Score): Option<GameResult> {
    var side := Text.Normalize(ticket.side);
    if Text.Normalize(ticket.market) != "h2h" then None
    else if side != "home" && side != "away" then None
    else if score.home == score.away then
      if Text.Normalize(score.sport) == "nhl" then None else Some(Push)
    else
      var homeWon := score.home > score.away;
      Some(if (side == "home" && homeWon) || (side == "away" && !homeWon) then Win else Loss)
  }

  /** The performance tracker's grade of the same bet. */
  function GradeOutcome(market: string, side: string, home: int, away: int): Result<Option<GameResult>> {
    var homeResult := if home > away then Win else if home < away then Loss else Push;
    if Text.Trim(market) != "h2h" then Ok(None)
    else if Text.Normalize(side) == "home" then Ok(Some(homeResult))
    else if Text.Normalize(side) == "away" then
      Ok(Some(match homeResult case Win => Loss case Loss => Win case Push => Push))
    else Err("invalid recommended side")
  }

  /** How a bet on one team comes out: its score against the other team's. */
  function Outright(side: string, home: int, away: int): GameResult {
    var backed := if side == "home" then home else away;
    var other := if side == "home" then away else home;
    if backed > other then Win else if backed < other then Loss else Push
  }

  /** The rules compare the two scores, wherever they decide at all; the processor reads the side as it is written and
      takes any side other than home for away. */
  lemma RulesCompareScores(ticket: Ticket, score: Score)
    ensures DetermineResult(ticket, score.home > score.away, score.home == score.away) == Outright(ticket.side, score.home, score.away)
    ensures DetermineAutoResult(ticket, score).Some? <==>
      Text.Normalize(ticket.market) == "h2h" && Text.Normalize(ticket.side) in {"home", "away"}
      && !(score.home == score.away && Text.Normalize(score.sport) == "nhl")
    ensures DetermineAutoResult(ticket, score).Some? ==> DetermineAutoResult(ticket, score).value == Outright(Text.Normalize(ticket.side), score.home, score.away)
  {
  }

  lemma GradeComparesScores(market: string, side: string, home: int, away: int)
    ensures var grade := GradeOutcome(market, side, home, away);
            && (grade.Err? <==> Text.Trim(market) == "h2h" && Text.Normalize(side) !in {"home", "away"})
            && (grade.Ok? ==> grade.value == if Text.Trim(market) == "h2h" then Some(Outright(Text.Normalize(side), home, away)) else None)
  {
  }

  lemma TrimStored(side: string)
    requires side in {"home", "away", "over", "under"}
    ensures Text.Normalize(side) == side
  {
  }

  /** The worker decides a bet as the settlement processor would exactly for a moneyline bet on a team, hockey ties aside,
      and otherwise declines. */
  lemma WorkerAgreesIff(ticket: Ticket, score: Score)
    requires Acceptable(ticket)
    ensures DetermineAutoResult(ticket, score) in {None, Some(DetermineResult(ticket, score.home > score.away, score.home == score.away))}
    ensures DetermineAutoResult(ticket, score) == Some(DetermineResult(ticket, score.home > score.away, score.home == score.away))
       <==> Text.Normalize(ticket.market) == "h2h" && ticket.side in {"home", "away"}
            && !(score.home == score.away && Text.Normalize(score.sport) == "nhl")
  {
    TrimStored(ticket.side);
  }

  /** The performance tracker grades a bet as the settlement processor would exactly for a market that trims to "h2h", with no
      change of case, and a team side. */
  lemma TrackerAgreesIff(ticket: Ticket, score: Score)
    requires Acceptable(ticket)
    ensures GradeOutcome(ticket.market, ticket.side, score.home, score.away)
            == Ok(Some(DetermineResult(ticket, score.home > score.away, score.home == score.away)))
       <==> Text.Trim(ticket.market) == "h2h" && ticket.side in {"home", "away"}
  {
    TrimStored(ticket.side);
  }

  /** A total is declined by the worker and by the tracker, but the processor grades any side other than home as away. */
  lemma ProcessorGradesTotalsAsAway(ticket: Ticket, score: Score)
    requires Acceptable(ticket) && ticket.side in {"over", "under"}
    ensures DetermineAutoResult(ticket, score) == None
    ensures Text.Trim(ticket.market) == "h2h" ==> GradeOutcome(ticket.market, ticket.side, score.home, score.away).Err?
    ensures DetermineResult(ticket, score.home > score.away, score.home == score.away)
         == DetermineResult(ticket.(side := "away"), score.home > score.away, score.home == score.away)
  {
    TrimStored(ticket.side);
  }

  /** With its reservation, a winning bet nets its winnings (the price to half a cent), a losing one its stake, and a push
      or a void nothing. */
  lemma ClosingNetsOut(ticket: Ticket, now: int)
    requires Acceptable(ticket)
    ensures var net := (closure: Closure) => ClosingEntry(ticket, closure, now).amount - ticket.stake;
            && Abs(net(Settle(Win)) as real - ticket.stake as real * (DecimalOf(ticket.odds) - 1.0)) <= 0.5
            && net(Settle(Loss)) == -ticket.stake < net(Settle(Push)) == net(Void) == 0 <= net(Settle(Win))
  {
    WinningsNearest(ticket.stake, ticket.odds);
  }

  // ---- one closing, run on its own ----

  function CloseLabels(id: nat, closure: Closure, guarded: bool, now: int): seq<Label> {
    [ReadToClose(0, id, closure, guarded), CommitClose(0, now)]
  }

  ghost function AloneAfter(db: Db, ls: seq<Label>): World {
    Run(World(db, [], map[]), ls)
  }

  lemma CloseIsRun(db: Db, id: nat, closure: Closure, guarded: bool, now: int)
    requires id < |db.bets| ==> db.bets[id].ticket.odds != 0
    ensures AloneAfter(db, CloseLabels(id, closure, guarded, now))
         == World(if id < |db.bets| && MayClose(db.bets[id], closure, guarded) then Close(db, id, db.bets[id].ticket, closure, now) else db, [], map[])
  {
    var w0 := World(db, [], map[]);
    RunTwo(w0, ReadToClose(0, id, closure, guarded), CommitClose(0, now));
    if id < |db.bets| && MayClose(db.bets[id], closure, guarded) {
      var w1 := Step(w0, ReadToClose(0, id, closure, guarded));
      assert w1.ops == map[0 := Closing(db.bets[id], id, closure)];
      assert Step(w1, CommitClose(0, now)).ops == map[];
    }
  }

  /** The transaction every settlement path shares: update the placed row, then write the ledger entry. */
  method SettleOneBet(db: Database, id: nat, ticket: Ticket, result: GameResult, now: int)
    requires ticket.odds != 0
    modifies db
    ensures db.State() == Close(old(db.State()), id, ticket, Settle(result), now)
  {
    var payout := 0;
    match result {
      case Win => payout := ticket.stake + Winnings(ticket.stake, ticket.odds);
      case Push => payout := ticket.stake;
      case Loss => payout := 0;
    }
    db.UpdateBetSettled(id, result, payout);
    db.InsertBankrollEntry(Entry(Settlement(result), SettlementAmount(result, ticket.stake, payout), ForBet(ticket.key), now));
  }

  /** The processor settles the bet value it is handed, without looking at the row's status or at the row at all. Handed the
      stored ticket, it is an unguarded read and commit. */
  method SettleBet(db: Database, id: nat, bet: Bet, homeWin: bool, push: bool, now: int)
    requires bet.ticket.odds != 0
    modifies db
    ensures db.State() == Close(old(db.State()), id, bet.ticket, Settle(DetermineResult(bet.ticket, homeWin, push)), now)
    ensures id < |old(db.bets)| && old(db.bets)[id].ticket == bet.ticket ==>
      World(db.State(), [], map[])
      == AloneAfter(old(db.State()), CloseLabels(id, Settle(DetermineResult(bet.ticket, homeWin, push)), false, now))
  {
    var result := DetermineResult(bet.ticket, homeWin, push);
    if id < |db.bets| && db.bets[id].ticket == bet.ticket {
      CloseIsRun(db.State(), id, Settle(result), false, now);
    }
    SettleOneBet(db, id, bet.ticket, result, now);
  }

  /** The settle handler refuses unknown results, unknown bets and bets that are not placed. */
  method HandleBetsSettle(db: Database, id: nat, result: string, now: int) returns (done: bool)
    requires SoundBets(db.bets)
    modifies db
    ensures done <==> result in {"win", "loss", "push"} && id < |old(db.bets)| && old(db.bets)[id].status.Placed?
    ensures !done ==> db.State() == old(db.State())
    ensures done ==>
      var r := match result case "win" => Win case "loss" => Loss case _ => Push;
      var bet := old(db.bets)[id];
      && World(db.State(), [], map[]) == AloneAfter(old(db.State()), CloseLabels(id, Settle(r), true, now))
      && db.bets == old(db.bets)[id := bet.(status := Settled, result := Some(r), payout := Some(Payout(bet.ticket, r)))]
      && db.ledger == old(db.ledger) + [Entry(Settlement(r), Payout(bet.ticket, r), ForBet(bet.ticket.key), now)]
    ensures Gap(db.State()) == Gap(old(db.State()))
  {
    if result != "win" && result != "loss" && result != "push" {
      return false;
    }
    if id >= |db.bets| || db.bets[id].status != Placed {
      return false;
    }
    assert SoundBet(db.bets[id]);
    var parsed := if result == "win" then Win else if result == "push" then Push else Loss;
    CloseIsRun(db.State(), id, Settle(parsed), true, now);
    CloseMovesGap(db.State(), id, db.bets[id].ticket, Settle(parsed), now);
    SettleOneBet(db, id, db.bets[id].ticket, parsed, now);
    return true;
  }

  /** Voiding returns the stake of a placed bet. */
  method HandleBetsVoid(db: Database, id: nat, now: int) returns (done: bool)
    requires SoundBets(db.bets)
    modifies db
    ensures done <==> id < |old(db.bets)| && old(db.bets)[id].status.Placed?
    ensures !done ==> db.State() == old(db.State())
    ensures done ==> World(db.State(), [], map[]) == AloneAfter(old(db.State()), CloseLabels(id, Void, true, now))
    ensures done ==>
      var bet := old(db.bets)[id];
      && db.bets == old(db.bets)[id := bet.(status := Voided)]
      && db.ledger == old(db.ledger) + [Entry(StakeReleased(BetVoided), bet.ticket.stake, ForBet(bet.ticket.key), now)]
      && Balance(db.ledger) == Balance(old(db.ledger)) + bet.ticket.stake
    ensures Gap(db.State()) == Gap(old(db.State()))
  {
    if id >= |db.bets| || db.bets[id].status != Placed {
      return false;
    }
    assert SoundBet(db.bets[id]);
    var bet := db.bets[id];
    CloseIsRun(db.State(), id, Void, true, now);
    CloseMovesGap(db.State(), id, bet.ticket, Void, now);
    LedgerAppend(db.ledger, ClosingEntry(bet.ticket, Void, now));
    db.VoidBet(id);
    db.InsertBankrollEntry(Entry(StakeReleased(BetVoided), bet.ticket.stake, ForBet(bet.ticket.key), now));
    return true;
  }

  /** A manual bet is placed at once; a stake that rounds to no cents is refused by the table. */
  method HandleBetsCreate(db: Database, ticket: Ticket, stakeDollars: real, now: int) returns (done: bool)
    requires ticket.stake == Cents(stakeDollars)
    modifies db
    ensures done <==> Valid(ticket.odds) && stakeDollars > 0.0 && Acceptable(ticket) && Find(old(db.bets), ticket.key).None?
    ensures World(db.State(), [], map[]) == AloneAfter(old(db.State()), if done then [CreateManual(ticket, now)] else [])
    ensures done ==> db.bets == old(db.bets) + [Bet(ticket, true, Placed, None, None, None)]
    ensures done ==> db.ledger == old(db.ledger) + [Entry(StakeReserved, -ticket.stake, ForBet(ticket.key), now)]
    ensures Gap(db.State()) == Gap(old(db.State()))
  {
    RunOne(World(db.State(), [], map[]), CreateManual(ticket, now));
    if !Valid(ticket.odds) || stakeDollars <= 0.0 {
      return false;
    }
    if Reserve(db.State(), ticket, Placed, true, now).Some? {
      ReserveKeepsGap(db.State(), ticket, Placed, true, now);
    }
    var id := db.InsertBet(ticket, Placed, true);
    if id.None? {
      return false;
    }
    db.InsertBankrollEntry(Entry(StakeReserved, -ticket.stake, ForBet(ticket.key), now));
    return true;
  }

  method HandleBankrollDeposit(db: Database, dollars: real, now: int) returns (done: bool)
    modifies db
    ensures done <==> dollars > 0.0
    ensures World(db.State(), [], map[]) == AloneAfter(old(db.State()), [AddDeposit(dollars, now)])
    ensures done ==> db.ledger == old(db.ledger) + [Entry(Deposit, Cents(dollars), Manual, now)]
    ensures done ==> Balance(db.ledger) == Balance(old(db.ledger)) + Cents(dollars) && db.bets == old(db.bets)
  {
    RunOne(World(db.State(), [], map[]), AddDeposit(dollars, now));
    if dollars <= 0.0 {
      return false;
    }
    LedgerAppend(db.ledger, Entry(Deposit, Cents(dollars), Manual, now));
    db.InsertBankrollEntry(Entry(Deposit, Cents(dollars), Manual, now));
    return true;
  }

  // ---- the settlement job ----

  /** What the job decides for a bet from the completed scores it fetched, by game. */
  function Decision(bet: Bet, scores: map<int, Score>): Option<GameResult> {
    if bet.status.Placed? && bet.ticket.gameId in scores then DetermineAutoResult(bet.ticket, scores[bet.ticket.gameId]) else None
  }

  /** What the job decides for a listed bet. */
  type Decider = Bet -> Option<GameResult>

  function DeciderFor(scores: map<int, Score>): Decider {
    bet => Decision(bet, scores)
  }

  function AfterJob(bet: Bet, decide: Decider): Bet
    requires bet.ticket.odds != 0
  {
    match decide(bet)
    case None => bet
    case Some(result) => ClosedBet(bet, bet.ticket, Settle(result))
  }

  function EntriesFor(bet: Bet, decide: Decider, now: int): seq<Entry>
    requires bet.ticket.odds != 0
  {
    match decide(bet)
    case None => []
    case Some(result) => [ClosingEntry(bet.ticket, Settle(result), now)]
  }

  /** The entries the job writes, in row order. */
  function JobEntries(bets: seq<Bet>, decide: Decider, now: int): seq<Entry>
    requires forall i :: 0 <= i < |bets| ==> bets[i].ticket.odds != 0
  {
    if bets == [] then []
    else JobEntries(bets[..|bets| - 1], decide, now) + EntriesFor(bets[|bets| - 1], decide, now)
  }

  /** The table once the job has passed its first `m` rows. */
  function JobBets(bets: seq<Bet>, decide: Decider, m: nat): (after: seq<Bet>)
    requires forall i :: 0 <= i < |bets| ==> bets[i].ticket.odds != 0
    ensures |after| == |bets|
  {
    seq(|bets|, i requires 0 <= i < |bets| => if i < m then AfterJob(bets[i], decide) else bets[i])
  }

  lemma JobBetsStep(bets: seq<Bet>, decide: Decider, m: nat)
    requires m < |bets| && forall i :: 0 <= i < |bets| ==> bets[i].ticket.odds != 0
    ensures JobBets(bets, decide, m)[m] == bets[m]
    ensures JobBets(bets, decide, m + 1) == JobBets(bets, decide, m)[m := AfterJob(bets[m], decide)]
  {
  }

  lemma JobEntriesStep(bets: seq<Bet>, decide: Decider, now: int, i: nat)
    requires i < |bets| && forall j :: 0 <= j < |bets| ==> bets[j].ticket.odds != 0
    ensures JobEntries(bets[..i + 1], decide, now) == JobEntries(bets[..i], decide, now) + EntriesFor(bets[i], decide, now)
  {
    assert bets[..i + 1][..i] == bets[..i];
  }

  lemma JobProgress(rows: seq<Bet>, decide: Decider, start: seq<Entry>, now: int, i: nat)
    requires i < |rows| && forall j :: 0 <= j < |rows| ==> rows[j].ticket.odds != 0
    ensures JobBets(rows, decide, i)[i] == rows[i]
    ensures JobBets(rows, decide, i)[i := AfterJob(rows[i], decide)] == JobBets(rows, decide, i + 1)
    ensures start + JobEntries(rows[..i], decide, now) + EntriesFor(rows[i], decide, now) == start + JobEntries(rows[..i + 1], decide, now)
    ensures |JobEntries(rows[..i + 1], decide, now)| == |JobEntries(rows[..i], decide, now)| + (if decide(rows[i]).Some? then 1 else 0)
  {
    JobBetsStep(rows, decide, i);
    JobEntriesStep(rows, decide, now, i);
  }

  /** Nothing is decided for a bet that was not listed as placed. */
  ghost predicate DecidesPlaced(decide: Decider, bets: seq<Bet>) {
    forall i :: 0 <= i < |bets| && decide(bets[i]).Some? ==> bets[i].status.Placed?
  }

  method SettleIfDecided(db: Database, id: nat, row: Bet, decide: Decider, now: int) returns (settled: bool)
    requires id < |db.bets| && db.bets[id] == row && row.ticket.odds != 0 && (decide(row).Some? ==> row.status.Placed?)
    modifies db
    ensures db.bets == old(db.bets)[id := AfterJob(row, decide)]
    ensures db.ledger == old(db.ledger) + EntriesFor(row, decide, now)
    ensures settled <==> decide(row).Some?
    ensures Gap(db.State()) == Gap(old(db.State()))
  {
    var result := decide(row);
    if result.None? {
      return false;
    }
    CloseMovesGap(db.State(), id, row.ticket, Settle(result.value), now);
    SettleOneBet(db, id, row.ticket, result.value, now);
    return true;
  }

  /** The job's guarded reads and commits, for the first `m` rows, all by operation `op`. */
  function JobLabels(bets: seq<Bet>, decide: Decider, op: OpId, m: nat, now: int): seq<Label>
    requires m <= |bets|
  {
    if m == 0 then []
    else
      JobLabels(bets, decide, op, m - 1, now) + RowLabels(bets[m - 1], decide, op, m - 1, now)
  }

  function RowLabels(bet: Bet, decide: Decider, op: OpId, i: nat, now: int): seq<Label> {
    match decide(bet)
    case None => []
    case Some(result) => [ReadToClose(op, i, Settle(result), true), CommitClose(op, now)]
  }

  lemma ReadStep(w: World, op: OpId, id: nat, result: GameResult)
    requires op !in w.ops && id < |w.db.bets| && w.db.bets[id].status.Placed?
    ensures Step(w, ReadToClose(op, id, Settle(result), true)) == w.(ops := w.ops[op := Closing(w.db.bets[id], id, Settle(result))])
  {
  }

  lemma CommitStep(w: World, op: OpId, row: Bet, id: nat, result: GameResult, commit: bool, now: int)
    requires op in w.ops && w.ops[op] == Closing(row, id, Settle(result)) && row.ticket.odds != 0
    ensures Step(w, if commit then CommitClose(op, now) else Crash(op))
         == World(if commit then Close(w.db, id, row.ticket, Settle(result), now) else w.db, w.calls, w.ops - {op})
  {
  }

  lemma OneSettlementIsRun(w: World, op: OpId, id: nat, result: GameResult, now: int)
    requires op !in w.ops && id < |w.db.bets| && w.db.bets[id].status.Placed? && w.db.bets[id].ticket.odds != 0
    ensures Run(w, [ReadToClose(op, id, Settle(result), true), CommitClose(op, now)])
         == World(Close(w.db, id, w.db.bets[id].ticket, Settle(result), now), w.calls, w.ops)
  {
    var read := w.(ops := w.ops[op := Closing(w.db.bets[id], id, Settle(result))]);
    RunTwo(w, ReadToClose(op, id, Settle(result), true), CommitClose(op, now));
    ReadStep(w, op, id, result);
    CommitStep(read, op, w.db.bets[id], id, result, true, now);
    assert read.ops - {op} == w.ops;
  }

  /** The labels for row `i`, run where the job has passed the rows before it. */
  lemma JobRowIsRun(w: World, bets: seq<Bet>, ledger: seq<Entry>, decide: Decider, op: OpId, i: nat, now: int)
    requires DecidesPlaced(decide, bets)
    requires op !in w.ops && i < |bets| && forall j :: 0 <= j < |bets| ==> bets[j].ticket.odds != 0
    requires w.db == Db(JobBets(bets, decide, i), ledger)
    ensures Run(w, RowLabels(bets[i], decide, op, i, now))
         == World(Db(JobBets(bets, decide, i + 1), ledger + EntriesFor(bets[i], decide, now)), w.calls, w.ops)
  {
    JobBetsStep(bets, decide, i);
    match decide(bets[i]) {
      case None =>
        assert ledger + [] == ledger;
        assert JobBets(bets, decide, i)[i := bets[i]] == JobBets(bets, decide, i);
      case Some(result) => OneSettlementIsRun(w, op, i, result, now);
    }
  }

  /** From any state, with anything else in flight, the job's labels lead to what the job writes. */
  lemma {:induction false} JobIsRun(w: World, decide: Decider, op: OpId, m: nat, now: int)
    requires DecidesPlaced(decide, w.db.bets)
    requires op !in w.ops && m <= |w.db.bets| && forall i :: 0 <= i < |w.db.bets| ==> w.db.bets[i].ticket.odds != 0
    ensures Run(w, JobLabels(w.db.bets, decide, op, m, now))
         == World(Db(JobBets(w.db.bets, decide, m), w.db.ledger + JobEntries(w.db.bets[..m], decide, now)), w.calls, w.ops)
  {
    var bets := w.db.bets;
    if m == 0 {
      assert JobBets(bets, decide, 0) == bets && w.db.ledger + [] == w.db.ledger;
    } else {
      JobIsRun(w, decide, op, m - 1, now);
      var ledger := w.db.ledger + JobEntries(bets[..m - 1], decide, now);
      var w1 := World(Db(JobBets(bets, decide, m - 1), ledger), w.calls, w.ops);
      RunAppend(w, JobLabels(bets, decide, op, m - 1, now), RowLabels(bets[m - 1], decide, op, m - 1, now));
      JobRowIsRun(w1, bets, ledger, decide, op, m - 1, now);
      JobProgress(bets, decide, w.db.ledger, now, m - 1);
    }
  }

  /** So a job that starts in any reachable state only extends the run by guarded labels. */
  lemma JobExtendsRun(ls: seq<Label>, decide: Decider, op: OpId, now: int)
    requires op !in Run(EMPTY, ls).ops && DecidesPlaced(decide, Run(EMPTY, ls).db.bets)
    ensures var w := Run(EMPTY, ls);
            && SoundBets(w.db.bets)
            && Run(EMPTY, ls + JobLabels(w.db.bets, decide, op, |w.db.bets|, now))
               == World(Db(JobBets(w.db.bets, decide, |w.db.bets|), w.db.ledger + JobEntries(w.db.bets, decide, now)), w.calls, w.ops)
  {
    var w := Run(EMPTY, ls);
    ReachableIsSound(ls);
    assert forall i :: 0 <= i < |w.db.bets| ==> SoundBet(w.db.bets[i]);
    JobIsRun(w, decide, op, |w.db.bets|, now);
    assert w.db.bets[..|w.db.bets|] == w.db.bets;
    RunAppend(EMPTY, ls, JobLabels(w.db.bets, decide, op, |w.db.bets|, now));
  }

  method SettleRows(db: Database, decide: Decider, now: int) returns (settled: nat)
    requires DecidesPlaced(decide, db.bets)
    requires forall i :: 0 <= i < |db.bets| ==> db.bets[i].ticket.odds != 0
    modifies db
    ensures db.bets == JobBets(old(db.bets), decide, |old(db.bets)|)
    ensures db.ledger == old(db.ledger) + JobEntries(old(db.bets), decide, now)
    ensures settled == |JobEntries(old(db.bets), decide, now)|
    ensures Gap(db.State()) == Gap(old(db.State()))
  {
    var rows := db.bets;
    ghost var start, gap := db.ledger, Gap(db.State());
    assert rows == JobBets(rows, decide, 0) && start + [] == start;
    settled := 0;
    for i := 0 to |rows|
      invariant db.bets == JobBets(rows, decide, i)
      invariant db.ledger == start + JobEntries(rows[..i], decide, now)
      invariant settled == |JobEntries(rows[..i], decide, now)|
      invariant Gap(db.State()) == gap
    {
      JobProgress(rows, decide, start, now, i);
      var hit := SettleIfDecided(db, i, rows[i], decide, now);
      if hit {
        settled := settled + 1;
      }
    }
    assert rows[..|rows|] == rows;
  }

  /** `at` lists the first `m` rows that are decided, in order, with the entry written for each. */
  ghost predicate Lists(bets: seq<Bet>, decide: Decider, now: int, m: nat, at: seq<nat>, entries: seq<Entry>)
    requires m <= |bets| && forall i :: 0 <= i < |bets| ==> bets[i].ticket.odds != 0
  {
    && |at| == |entries|
    && (forall i :: i in at <==> 0 <= i < m && decide(bets[i]).Some?)
    && (forall j, k :: 0 <= j < k < |at| ==> at[j] < at[k])
    && forall k :: 0 <= k < |at| ==>
         && at[k] < m && decide(bets[at[k]]).Some?
         && entries[k] == ClosingEntry(bets[at[k]].ticket, Settle(decide(bets[at[k]]).value), now)
  }

  lemma ListsOne(bets: seq<Bet>, decide: Decider, now: int, m: nat, at: seq<nat>, entries: seq<Entry>)
    requires m < |bets| && forall i :: 0 <= i < |bets| ==> bets[i].ticket.odds != 0
    requires Lists(bets, decide, now, m, at, entries) && decide(bets[m]).Some?
    ensures Lists(bets, decide, now, m + 1, at + [m], entries + [ClosingEntry(bets[m].ticket, Settle(decide(bets[m]).value), now)])
  {
  }

  lemma {:induction false} DecidedRows(bets: seq<Bet>, decide: Decider, now: int, m: nat) returns (at: seq<nat>)
    requires m <= |bets| && forall i :: 0 <= i < |bets| ==> bets[i].ticket.odds != 0
    ensures Lists(bets, decide, now, m, at, JobEntries(bets[..m], decide, now))
  {
    at := [];
    if m > 0 {
      at := DecidedRows(bets, decide, now, m - 1);
      JobEntriesStep(bets, decide, now, m - 1);
      if decide(bets[m - 1]).Some? {
        ListsOne(bets, decide, now, m - 1, at, JobEntries(bets[..m - 1], decide, now));
        at := at + [m - 1];
      } else {
        assert JobEntries(bets[..m], decide, now) == JobEntries(bets[..m - 1], decide, now);
      }
    }
  }

  /** The entries are one for each changed row, in row order: the bet's settlement with the payout its row shows. */
  ghost predicate PaidInOrder(before: seq<Bet>, after: seq<Bet>, entries: seq<Entry>, at: seq<nat>, now: int) {
    && |before| == |after| && |at| == |entries|
    && (forall j, k :: 0 <= j < k < |at| ==> at[j] < at[k])
    && (forall i :: i in at <==> 0 <= i < |before| && after[i] != before[i])
    && forall k :: 0 <= k < |at| ==>
         && at[k] < |after| && after[at[k]].result.Some? && after[at[k]].payout.Some?
         && entries[k] == Entry(Settlement(after[at[k]].result.value), after[at[k]].payout.value, ForBet(before[at[k]].ticket.key), now)
  }

  /** What becomes of one row, said from the tables alone. */
  ghost predicate SettledByScore(bet: Bet, after: Bet, scores: map<int, Score>)
    requires bet.ticket.odds != 0
  {
    if bet.status == Placed && bet.ticket.gameId in scores
       && Text.Normalize(bet.ticket.market) == "h2h" && Text.Normalize(bet.ticket.side) in {"home", "away"}
       && !(scores[bet.ticket.gameId].home == scores[bet.ticket.gameId].away && Text.Normalize(scores[bet.ticket.gameId].sport) == "nhl")
    then
      var result := Outright(Text.Normalize(bet.ticket.side), scores[bet.ticket.gameId].home, scores[bet.ticket.gameId].away);
      after == bet.(status := Settled, result := Some(result), payout := Some(Payout(bet.ticket, result)))
    else after == bet
  }

  lemma JobSettlesByScore(bets: seq<Bet>, scores: map<int, Score>)
    requires forall i :: 0 <= i < |bets| ==> bets[i].ticket.odds != 0
    ensures forall i :: 0 <= i < |bets| ==> SettledByScore(bets[i], JobBets(bets, DeciderFor(scores), |bets|)[i], scores)
  {
    forall i | 0 <= i < |bets| ensures SettledByScore(bets[i], JobBets(bets, DeciderFor(scores), |bets|)[i], scores) {
      if bets[i].ticket.gameId in scores {
        RulesCompareScores(bets[i].ticket, scores[bets[i].ticket.gameId]);
      }
    }
  }

  lemma JobPaysInOrder(bets: seq<Bet>, scores: map<int, Score>, now: int)
    requires forall i :: 0 <= i < |bets| ==> bets[i].ticket.odds != 0
    ensures exists at :: PaidInOrder(bets, JobBets(bets, DeciderFor(scores), |bets|), JobEntries(bets, DeciderFor(scores), now), at, now)
  {
    var at := DecidedRows(bets, DeciderFor(scores), now, |bets|);
    assert bets[..|bets|] == bets;
    assert PaidInOrder(bets, JobBets(bets, DeciderFor(scores), |bets|), JobEntries(bets, DeciderFor(scores), now), at, now);
  }

  /** One undisturbed job settles exactly the placed moneyline bets on a team, manual or not, whose game has a score that
      is no hockey tie. It leaves every other row alone, pays once for each settled bet, and keeps the books balanced. */
  method RunAutoSettlement(db: Database, scores: map<int, Score>, now: int) returns (settled: nat)
    requires forall i :: 0 <= i < |db.bets| ==> db.bets[i].ticket.odds != 0
    modifies db
    ensures |db.bets| == |old(db.bets)|
    ensures forall i :: 0 <= i < |db.bets| ==> SettledByScore(old(db.bets)[i], db.bets[i], scores)
    ensures |db.ledger| == |old(db.ledger)| + settled && db.ledger[..|old(db.ledger)|] == old(db.ledger)
    ensures exists at :: PaidInOrder(old(db.bets), db.bets, db.ledger[|old(db.ledger)|..], at, now)
    ensures db.bets == JobBets(old(db.bets), DeciderFor(scores), |old(db.bets)|)
    ensures db.ledger == old(db.ledger) + JobEntries(old(db.bets), DeciderFor(scores), now)
    ensures settled == |JobEntries(old(db.bets), DeciderFor(scores), now)|
    ensures Gap(db.State()) == Gap(old(db.State()))
    ensures World(db.State(), [], map[]) == AloneAfter(old(db.State()), JobLabels(old(db.bets), DeciderFor(scores), 0, |old(db.bets)|, now))
  {
    JobIsRun(World(db.State(), [], map[]), DeciderFor(scores), 0, |db.bets|, now);
    assert db.bets[..|db.bets|] == db.bets;
    JobSettlesByScore(db.bets, scores);
    JobPaysInOrder(db.bets, scores, now);
    settled := SettleRows(db, DeciderFor(scores), now);
    assert db.ledger[|old(db.ledger)|..] == JobEntries(old(db.bets), DeciderFor(scores), now);
  }

  // ---- a job over a stale listing ----

  /** A row as the job listed it, with what the job decides from it; the table may have changed since. */
  datatype Listed = Listed(id: nat, row: Bet, decision: Option<GameResult>)

  function Decided(id: nat, row: Bet, decide: Decider): Listed {
    Listed(id, row, decide(row))
  }

  predicate Priced(listed: seq<Listed>) {
    forall i :: 0 <= i < |listed| ==> listed[i].row.ticket.odds != 0
  }

  /** What settling the listed rows one by one leaves, when `commits` says which transactions went through. */
  function SettledListed(db: Db, listed: seq<Listed>, commits: seq<bool>, now: int): Db
    requires |commits| == |listed| && Priced(listed)
  {
    if listed == [] then db
    else
      var n := |listed| - 1;
      var before := SettledListed(db, listed[..n], commits[..n], now);
      match listed[n].decision
      case None => before
      case Some(result) => if commits[n] then Close(before, listed[n].id, listed[n].row.ticket, Settle(result), now) else before
  }

  /** The commits of operations `base`, `base + 1`, ... that read the listed rows; a failed transaction is a crash. */
  function ListedLabels(listed: seq<Listed>, commits: seq<bool>, base: OpId, now: int): seq<Label>
    requires |commits| == |listed|
  {
    if listed == [] then []
    else
      var n := |listed| - 1;
      ListedLabels(listed[..n], commits[..n], base, now)
      + (if listed[n].decision.None? then []
         else [if commits[n] then CommitClose(base + n, now) else Crash(base + n)])
  }

  /** The reads behind the listing are in flight. */
  ghost predicate HasRead(w: World, listed: seq<Listed>, base: OpId) {
    forall i :: 0 <= i < |listed| ==>
      match listed[i].decision
      case None => true
      case Some(result) => base + i in w.ops && w.ops[base + i] == Closing(listed[i].row, listed[i].id, Settle(result))
  }

  /** Only operations `base` up to `base + n` differ. */
  ghost predicate Untouched(before: map<OpId, Op>, after: map<OpId, Op>, base: OpId, n: nat) {
    forall o {:trigger o in after} :: o < base || o >= base + n ==> (o in after <==> o in before) && (o in before ==> after[o] == before[o])
  }

  /** Settling a listing, however stale and with any failures, is the run of its commits: the rows may have been changed by
      anybody between the reads and now. */
  lemma {:induction false} ListedIsRun(w: World, listed: seq<Listed>, commits: seq<bool>, base: OpId, now: int)
    requires |commits| == |listed| && Priced(listed) && HasRead(w, listed, base)
    ensures var w' := Run(w, ListedLabels(listed, commits, base, now));
            && w'.db == SettledListed(w.db, listed, commits, now) && w'.calls == w.calls
            && Untouched(w.ops, w'.ops, base, |listed|)
  {
    if listed != [] {
      var n := |listed| - 1;
      assert forall i :: 0 <= i < n ==> listed[..n][i] == listed[i];
      ListedIsRun(w, listed[..n], commits[..n], base, now);
      var before := ListedLabels(listed[..n], commits[..n], base, now);
      if listed[n].decision.Some? {
        var l := if commits[n] then CommitClose(base + n, now) else Crash(base + n);
        var w1 := Run(w, before);
        RunAppend(w, before, [l]);
        RunOne(w1, l);
        assert base + n in w1.ops && w1.ops[base + n] == w.ops[base + n];
        CommitStep(w1, base + n, listed[n].row, listed[n].id, listed[n].decision.value, commits[n], now);
      } else {
        assert before + [] == before;
      }
    }
  }

  /** The job's settlement loop over the rows it listed; a transaction that fails leaves nothing. */
  method SettleListedBets(db: Database, rows: seq<(nat, Bet)>, decide: Decider, commits: seq<bool>, now: int)
    requires |commits| == |rows| && forall i :: 0 <= i < |rows| ==> rows[i].1.ticket.odds != 0
    modifies db
    ensures db.State()
         == SettledListed(old(db.State()), seq(|rows|, i requires 0 <= i < |rows| => Decided(rows[i].0, rows[i].1, decide)), commits, now)
  {
    ghost var listed := seq(|rows|, i requires 0 <= i < |rows| => Decided(rows[i].0, rows[i].1, decide));
    for i := 0 to |rows|
      invariant db.State() == SettledListed(old(db.State()), listed[..i], commits[..i], now)
    {
      assert listed[..i + 1][..i] == listed[..i] && commits[..i + 1][..i] == commits[..i];
      var decision := decide(rows[i].1);
      if decision.Some? && commits[i] {
        SettleOneBet(db, rows[i].0, rows[i].1.ticket, decision.value, now);
      }
    }
    assert listed[..|rows|] == listed && commits[..|rows|] == commits;
  }

  // ---- what goes wrong without the guard ----

  const EXAMPLE := Ticket("k", 1, "MLB", "h2h", "home", 100, 1000)

  /** Two settlements of one bet, both read while it was placed. */
  function DoubleSettlement(): seq<Label> {
    [CreateManual(EXAMPLE, 0), ReadToClose(1, 0, Settle(Win), true), ReadToClose(2, 0, Settle(Win), true),
     CommitClose(1, 1), CommitClose(2, 2)]
  }

  const EXAMPLE_BET := Bet(EXAMPLE, true, Placed, None, None, None)
  const EXAMPLE_WON := EXAMPLE_BET.(status := Settled, result := Some(Win), payout := Some(2000))
  const EXAMPLE_LEDGER := [Entry(StakeReserved, -1000, ForBet("k"), 0), Entry(Settlement(Win), 2000, ForBet("k"), 1),
                           Entry(Settlement(Win), 2000, ForBet("k"), 2)]

  lemma DoubleSettlementEnds()
    ensures Run(EMPTY, DoubleSettlement()).db == Db([EXAMPLE_WON], EXAMPLE_LEDGER)
  {
    assert Multiplier(100) == 1.0 && Payout(EXAMPLE, Win) == 2000;
    RunFive(EMPTY, CreateManual(EXAMPLE, 0), ReadToClose(1, 0, Settle(Win), true), ReadToClose(2, 0, Settle(Win), true), CommitClose(1, 1), CommitClose(2, 2));
    var w1 := Step(EMPTY, CreateManual(EXAMPLE, 0));
    assert w1.db == Db([EXAMPLE_BET], EXAMPLE_LEDGER[..1]);
    var w3 := Step(Step(w1, ReadToClose(1, 0, Settle(Win), true)), ReadToClose(2, 0, Settle(Win), true));
    assert w3.db == w1.db && w3.ops[1] == w3.ops[2] == Closing(EXAMPLE_BET, 0, Settle(Win));
    var w4 := Step(w3, CommitClose(1, 1));
    assert w4.db == Db([EXAMPLE_WON], EXAMPLE_LEDGER[..2]) && w4.ops[2] == Closing(EXAMPLE_BET, 0, Settle(Win));
    assert Step(w4, CommitClose(2, 2)).db == Db([EXAMPLE_WON], EXAMPLE_LEDGER);
  }

  /** Both handlers check the status, yet the bankroll is credited twice for one bet. */
  lemma DoubleSettlementPaysTwice()
    ensures GuardedReads(DoubleSettlement())
    ensures var db := Run(EMPTY, DoubleSettlement()).db;
            && NetPnl(db.bets) - OpenStakes(db.bets) == 1000
            && Balance(db.ledger) == 3000
  {
    DoubleSettlementEnds();
    LedgerAppend([], EXAMPLE_LEDGER[0]);
    LedgerAppend([EXAMPLE_LEDGER[0]], EXAMPLE_LEDGER[1]);
    LedgerAppend([EXAMPLE_LEDGER[0]] + [EXAMPLE_LEDGER[1]], EXAMPLE_LEDGER[2]);
    assert EXAMPLE_LEDGER == [EXAMPLE_LEDGER[0]] + [EXAMPLE_LEDGER[1]] + [EXAMPLE_LEDGER[2]];
    BetsAppend([], EXAMPLE_WON);
    assert [] + [EXAMPLE_WON] == [EXAMPLE_WON];
  }
}
