/** Grading and re-grading recommendation snapshots: internal/decision/performance.go,
    internal/server/recommendations_performance.go and internal/store/recommendation_performance.sql.go. */
module Outcomes {
  import opened Wrappers
  import opened Odds
  import Ledger
  import Settlement
  import Text

  datatype Realized = Unknown | Known(result: Ledger.GameResult)

  datatype EvaluationStatus = CloseUnavailable | PendingOutcome | Settled

  datatype Source = Unavailable | OddsHistory | OddsHistoryScores | PersistedOutcome

  /** What the raw payload of the closing line says about the final score. */
  datatype Scores = NoScores | Unparsable | Final(home: int, away: int)

  datatype CloseLine = CloseLine(odds: int, probability: real, capturedAt: int, scores: Scores)

  datatype Snapshot = Snapshot(id: int, market: string, side: string, homeProbability: real)

  datatype Metadata = Metadata(closeSource: Source, resultSource: Source, parseFailed: bool)

  /** The notes column: a sentence and two optional remarks. */
  datatype Note = Note(sentence: Sentence, closePersisted: bool, parseFailed: bool)

  datatype Sentence = NoClosingLine | ResultUnavailable | GradedFromScoreboard | GradedFromPersisted

  datatype Outcome = Outcome(
    snapshotId: int, status: EvaluationStatus, closeOdds: Option<int>, closeProbability: Option<real>,
    result: Option<Realized>, clv: Option<real>, settledAt: Option<int>, notes: Note, metadata: Metadata)

  datatype Performance = Performance(clv: Option<real>, result: Realized, status: EvaluationStatus)

  // ---- grading ----

  predicate ValidProbability(p: real) {
    0.0 <= p <= 1.0
  }

  function SideProbability(side: string, home: real): (res: Result<real>)
    ensures res.Ok? <==> 0.0 <= home <= 1.0 && Text.Normalize(side) in {"home", "away"}
    ensures res.Ok? ==> res.value == ModelProbability(side, home)
  {
    if !ValidProbability(home) then Err("home probability must be finite in [0,1]")
    else if Text.Normalize(side) == "home" then Ok(home)
    else if Text.Normalize(side) == "away" then Ok(1.0 - home)
    else Err("invalid recommended side")
  }

  /** The model's probability of the recommended side; the two sides share 1. */
  function ModelProbability(side: string, home: real): real {
    if Text.Normalize(side) == "away" then 1.0 - home else home
  }

  function Grade(s: Snapshot, scores: Scores): Result<Realized> {
    if !scores.Final? then Ok(Unknown)
    else
      match Settlement.GradeOutcome(s.market, s.side, scores.home, scores.away)
      case Err(message) => Err(message)
      case Ok(None) => Ok(Unknown)
      case Ok(Some(result)) => Ok(Known(result))
  }

  function ComputePerformance(s: Snapshot, close: Option<real>, scores: Scores): Result<Performance> {
    match SideProbability(s.side, s.homeProbability)
    case Err(message) => Err(message)
    case Ok(side) =>
      if close.None? then Ok(Performance(None, Unknown, CloseUnavailable))
      else if !ValidProbability(close.value) then Err("closing side probability must be finite in [0,1]")
      else
        match Grade(s, scores)
        case Err(message) => Err(message)
        case Ok(result) => Ok(Performance(Some(close.value - side), result, if result.Known? then Settled else PendingOutcome))
  }

  /** A settled status needs a known result, any other status follows from what is there. */
  function NormalizeStatus(status: EvaluationStatus, clv: Option<real>, result: Realized): EvaluationStatus {
    if status.Settled? && result.Known? then Settled
    else if clv.None? then CloseUnavailable
    else if result.Known? then Settled
    else PendingOutcome
  }

  function NoteFor(status: EvaluationStatus, meta: Metadata): Note {
    Note(match status
         case CloseUnavailable => NoClosingLine
         case PendingOutcome => ResultUnavailable
         case Settled => if meta.resultSource.OddsHistoryScores? then GradedFromScoreboard else GradedFromPersisted,
         meta.closeSource.PersistedOutcome? && !status.CloseUnavailable?, meta.parseFailed)
  }

  /** The closing value is the closing probability over the model's, from the market or else from what was stored. */
  ghost predicate ValuesClose(s: Snapshot, close: Option<CloseLine>, last: Option<Outcome>, o: Outcome) {
    if close.Some? then
      && o.closeOdds == Some(close.value.odds) && o.closeProbability == Some(close.value.probability)
      && o.clv == Some(close.value.probability - ModelProbability(s.side, s.homeProbability))
      && o.metadata.closeSource == OddsHistory
    else if last.Some? && last.value.closeProbability.Some? then
      && o.closeOdds == last.value.closeOdds && o.closeProbability == last.value.closeProbability
      && o.clv == Some(last.value.closeProbability.value - ModelProbability(s.side, s.homeProbability))
      && o.metadata.closeSource == PersistedOutcome
    else
      && o.closeOdds == None && o.closeProbability == None
      && o.clv == (if last.Some? then last.value.clv else None)
      && o.metadata.closeSource == Unavailable
  }

  /** The result compares the final score of the recommended side with the other's, or stays what it was. */
  ghost predicate GradesScore(s: Snapshot, close: Option<CloseLine>, last: Option<Outcome>, o: Outcome) {
    if close.Some? && close.value.scores.Final? && Text.Trim(s.market) == "h2h" then
      o.result == Some(Known(Settlement.Outright(Text.Normalize(s.side), close.value.scores.home, close.value.scores.away)))
    else if last.Some? && last.value.result.Some? && last.value.result.value.Known? then o.result == last.value.result
    else o.result == None
  }

  /** Status, time and notes follow from what is known. */
  ghost predicate Reports(close: Option<CloseLine>, last: Option<Outcome>, o: Outcome) {
    && (o.status == Settled <==> o.result.Some?)
    && (o.status == PendingOutcome <==> o.result.None? && o.clv.Some?)
    && (o.status == CloseUnavailable <==> o.result.None? && o.clv.None?)
    && o.settledAt == (if o.result.None? then None
                       else if close.Some? then Some(close.value.capturedAt)
                       else if last.Some? then last.value.settledAt else None)
    && (o.metadata.resultSource == OddsHistoryScores <==> close.Some? && close.value.scores.Final?)
    && (o.metadata.resultSource == Unavailable <==> o.result.None? && !(close.Some? && close.value.scores.Final?))
    && (o.metadata.parseFailed <==> close.Some? && close.value.scores.Unparsable?)
    && (o.notes.sentence == NoClosingLine <==> o.status == CloseUnavailable)
    && (o.notes.sentence == ResultUnavailable <==> o.status == PendingOutcome)
    && (o.notes.sentence == GradedFromScoreboard <==> o.status == Settled && o.metadata.resultSource == OddsHistoryScores)
    && (o.notes.closePersisted <==> o.metadata.closeSource == PersistedOutcome && o.status != CloseUnavailable)
    && o.notes.parseFailed == o.metadata.parseFailed
  }

  lemma EvaluationMeans(s: Snapshot, close: Option<CloseLine>, last: Option<Outcome>)
    requires Evaluate(s, close, last).Ok?
    ensures var o := Evaluate(s, close, last).value;
            o.snapshotId == s.id && ValuesClose(s, close, last, o) && GradesScore(s, close, last, o) && Reports(close, last, o)
  {
    if close.Some? && close.value.scores.Final? {
      Settlement.GradeComparesScores(s.market, s.side, close.value.scores.home, close.value.scores.away);
    }
  }

  /** Applies the market over the persisted outcome one override at a time. */
  method BuildPerformanceRow(s: Snapshot, close: Option<CloseLine>, last: Option<Outcome>) returns (res: Result<Outcome>)
    ensures res.Ok? <==> Evaluate(s, close, last).Ok?
    ensures res.Ok? ==> res == Evaluate(s, close, last) && res.value.snapshotId == s.id
    ensures res.Ok? ==> ValuesClose(s, close, last, res.value) && GradesScore(s, close, last, res.value) && Reports(close, last, res.value)
  {
    if Evaluate(s, close, last).Ok? {
      EvaluationMeans(s, close, last);
    }
    var closeSource, resultSource, parseFailed := Unavailable, Unavailable, false;
    var closeProbability: Option<real>, closeOdds: Option<int> := None, None;
    if close.Some? {
      closeSource, closeProbability, closeOdds := OddsHistory, Some(close.value.probability), Some(close.value.odds);
    }
    if closeProbability.None? && last.Some? && last.value.closeProbability.Some? {
      closeSource, closeProbability := PersistedOutcome, last.value.closeProbability;
      if last.value.closeOdds.Some? {
        closeOdds := last.value.closeOdds;
      }
    }
    var scores := NoScores;
    if close.Some? {
      if close.value.scores.Unparsable? {
        parseFailed := true;
      }
      if close.value.scores.Final? {
        scores, resultSource := close.value.scores, OddsHistoryScores;
      }
    }
    var computed := ComputePerformance(s, closeProbability, scores);
    if computed.Err? {
      return Err(computed.message);
    }
    var perf := computed.value;
    if last.Some? {
      if perf.clv.None? && last.value.clv.Some? {
        perf := perf.(clv := last.value.clv);
      }
      if perf.result.Unknown? && last.value.result.Some? {
        perf := perf.(result := last.value.result.value);
        if perf.result.Known? {
          perf := perf.(status := Settled);
          if resultSource.Unavailable? {
            resultSource := PersistedOutcome;
          }
        }
      }
      if perf.status.CloseUnavailable? {
        perf := perf.(status := last.value.status);
      }
    }
    perf := perf.(status := NormalizeStatus(perf.status, perf.clv, perf.result));
    if resultSource.Unavailable? && perf.result.Known? {
      resultSource := PersistedOutcome;
    }
    var settledAt: Option<int> := None;
    if perf.status.Settled? {
      if close.Some? {
        settledAt := Some(close.value.capturedAt);
      } else if last.Some? && last.value.settledAt.Some? {
        settledAt := last.value.settledAt;
      }
    }
    var meta := Metadata(closeSource, resultSource, parseFailed);
    return Ok(Outcome(s.id, perf.status, closeOdds, closeProbability, if perf.result.Unknown? then None else Some(perf.result),
                      perf.clv, settledAt, NoteFor(perf.status, meta), meta));
  }

  // ---- the same evaluation in closed form ----

  function EffectiveClose(close: Option<CloseLine>, last: Option<Outcome>): Option<real> {
    if close.Some? then Some(close.value.probability) else if last.Some? then last.value.closeProbability else None
  }

  function EffectiveOdds(close: Option<CloseLine>, last: Option<Outcome>): Option<int> {
    if close.Some? then Some(close.value.odds)
    else if last.Some? && last.value.closeProbability.Some? then last.value.closeOdds
    else None
  }

  function FinalScores(close: Option<CloseLine>): Scores {
    if close.Some? && close.value.scores.Final? then close.value.scores else NoScores
  }

  /** A fresh grade wins over a persisted one. */
  function EffectiveResult(graded: Realized, last: Option<Outcome>): Realized {
    if graded.Known? then graded
    else if last.Some? && last.value.result.Some? then last.value.result.value
    else Unknown
  }

  /** Settled exactly when a result is known, otherwise pending exactly when there is a closing value. */
  function Evaluate(s: Snapshot, close: Option<CloseLine>, last: Option<Outcome>): Result<Outcome> {
    var probability := EffectiveClose(close, last);
    match ComputePerformance(s, probability, FinalScores(close))
    case Err(message) => Err(message)
    case Ok(perf) =>
      var result := EffectiveResult(perf.result, last);
      var clv := if perf.clv.None? && last.Some? then last.value.clv else perf.clv;
      var status := if result.Known? then Settled else if clv.Some? then PendingOutcome else CloseUnavailable;
      var meta := Metadata(
        if close.Some? then OddsHistory else if probability.Some? then PersistedOutcome else Unavailable,
        if FinalScores(close).Final? then OddsHistoryScores else if result.Known? then PersistedOutcome else Unavailable,
        close.Some? && close.value.scores.Unparsable?);
      Ok(Outcome(s.id, status, EffectiveOdds(close, last), probability, if result.Known? then Some(result) else None, clv,
                 if !result.Known? then None
                 else if close.Some? then Some(close.value.capturedAt)
                 else if last.Some? then last.value.settledAt
                 else None,
                 NoteFor(status, meta), meta))
  }

  // ---- the append-only table ----

  /** The table's check on stored prices. */
  predicate Storable(o: Outcome) {
    o.closeOdds.Some? ==> Valid(o.closeOdds.value)
  }

  /** The newest row of a snapshot. */
  function Latest(rows: seq<Outcome>, id: int): Option<Outcome> {
    if rows == [] then None
    else if rows[|rows| - 1].snapshotId == id then Some(rows[|rows| - 1])
    else Latest(rows[..|rows| - 1], id)
  }

  function InsertedIfChanged(rows: seq<Outcome>, o: Outcome): seq<Outcome> {
    if o in rows then rows else rows + [o]
  }

  /** One re-evaluation of a snapshot; a failure leaves the table as it was. */
  function Reevaluated(rows: seq<Outcome>, s: Snapshot, close: Option<CloseLine>): Result<seq<Outcome>> {
    match Evaluate(s, close, Latest(rows, s.id))
    case Err(message) => Err(message)
    case Ok(o) => if Storable(o) then Ok(InsertedIfChanged(rows, o)) else Err("close_american_odds check")
  }

  class OutcomeTable {
    var rows: seq<Outcome>

    constructor ()
      ensures rows == []
    {
      rows := [];
    }

    method LatestOutcome(id: int) returns (last: Option<Outcome>)
      ensures last == Latest(rows, id)
    {
      var k: nat := |rows|;
      assert rows[..k] == rows;
      while k > 0
        invariant k <= |rows| && Latest(rows, id) == Latest(rows[..k], id)
      {
        assert rows[..k][..k - 1] == rows[..k - 1];
        if rows[k - 1].snapshotId == id {
          return Some(rows[k - 1]);
        }
        k := k - 1;
      }
      return None;
    }

    method InsertOutcomeIfChanged(o: Outcome) returns (ok: bool)
      modifies this
      ensures ok <==> Storable(o)
      ensures rows == if ok then InsertedIfChanged(old(rows), o) else old(rows)
    {
      if o.closeOdds.Some? && !Valid(o.closeOdds.value) {
        return false;
      }
      for k := 0 to |rows|
        invariant o !in rows[..k] && rows == old(rows)
      {
        if rows[k] == o {
          return true;
        }
      }
      assert rows[..|rows|] == rows;
      rows := rows + [o];
      return true;
    }
  }

  /** The listing re-evaluates its snapshots in order and stops at the first that fails, keeping what is written. */
  function ListedAll(rows: seq<Outcome>, jobs: seq<(Snapshot, Option<CloseLine>)>): (seq<Outcome>, bool) {
    if jobs == [] then (rows, true)
    else
      var (before, ok) := ListedAll(rows, jobs[..|jobs| - 1]);
      var (s, close) := jobs[|jobs| - 1];
      if !ok then (before, false)
      else
        match Reevaluated(before, s, close)
        case Err(_) => (before, false)
        case Ok(after) => (after, true)
  }

  ghost predicate DistinctIds(jobs: seq<(Snapshot, Option<CloseLine>)>) {
    forall i, j :: 0 <= i < j < |jobs| ==> jobs[i].0.id != jobs[j].0.id
  }

  lemma ReevaluationKeepsOthers(rows: seq<Outcome>, s: Snapshot, close: Option<CloseLine>, id: int)
    requires id != s.id && Reevaluated(rows, s, close).Ok?
    ensures Latest(Reevaluated(rows, s, close).value, id) == Latest(rows, id)
  {
    var o := Evaluate(s, close, Latest(rows, s.id)).value;
    assert (rows + [o])[..|rows|] == rows;
  }

  lemma {:induction false} ListedKeepsOthers(rows: seq<Outcome>, jobs: seq<(Snapshot, Option<CloseLine>)>, id: int)
    requires forall i :: 0 <= i < |jobs| ==> jobs[i].0.id != id
    ensures Latest(ListedAll(rows, jobs).0, id) == Latest(rows, id)
  {
    if jobs != [] {
      var n := |jobs| - 1;
      ListedKeepsOthers(rows, jobs[..n], id);
      var before := ListedAll(rows, jobs[..n]).0;
      if Reevaluated(before, jobs[n].0, jobs[n].1).Ok? {
        ReevaluationKeepsOthers(before, jobs[n].0, jobs[n].1, id);
      }
    }
  }

  lemma {:induction false} ListedStops(rows: seq<Outcome>, jobs: seq<(Snapshot, Option<CloseLine>)>, k: nat)
    requires k <= |jobs| && !ListedAll(rows, jobs[..k]).1
    ensures ListedAll(rows, jobs) == ListedAll(rows, jobs[..k])
    decreases |jobs|
  {
    if k == |jobs| {
      assert jobs[..k] == jobs;
    } else {
      assert jobs[..|jobs| - 1][..k] == jobs[..k];
      ListedStops(rows, jobs[..|jobs| - 1], k);
    }
  }

  method ReadLatest(table: OutcomeTable, jobs: seq<(Snapshot, Option<CloseLine>)>) returns (lasts: seq<Option<Outcome>>)
    ensures |lasts| == |jobs|
    ensures forall j :: 0 <= j < |jobs| ==> lasts[j] == Latest(table.rows, jobs[j].0.id)
  {
    lasts := [];
    for i := 0 to |jobs|
      invariant |lasts| == i
      invariant forall j :: 0 <= j < i ==> lasts[j] == Latest(table.rows, jobs[j].0.id)
    {
      var last := table.LatestOutcome(jobs[i].0.id);
      lasts := lasts + [last];
    }
  }

  method EvaluateAndStore(table: OutcomeTable, s: Snapshot, close: Option<CloseLine>, last: Option<Outcome>) returns (ok: bool)
    requires last == Latest(table.rows, s.id)
    modifies table
    ensures ok <==> Reevaluated(old(table.rows), s, close).Ok?
    ensures table.rows == if ok then Reevaluated(old(table.rows), s, close).value else old(table.rows)
  {
    var built := BuildPerformanceRow(s, close, last);
    if built.Err? {
      return false;
    }
    ok := table.InsertOutcomeIfChanged(built.value);
  }

  /** All latest outcomes are read before the first insert; with distinct snapshots that is as good as reading each in turn. */
  method HandlePerformance(table: OutcomeTable, jobs: seq<(Snapshot, Option<CloseLine>)>) returns (ok: bool)
    requires DistinctIds(jobs)
    modifies table
    ensures (table.rows, ok) == ListedAll(old(table.rows), jobs)
  {
    var lasts := ReadLatest(table, jobs);
    for i := 0 to |jobs|
      invariant (table.rows, true) == ListedAll(old(table.rows), jobs[..i])
    {
      assert jobs[..i + 1][..i] == jobs[..i];
      ListedKeepsOthers(old(table.rows), jobs[..i], jobs[i].0.id);
      var stored := EvaluateAndStore(table, jobs[i].0, jobs[i].1, lasts[i]);
      if !stored {
        ListedStops(old(table.rows), jobs, i + 1);
        return false;
      }
    }
    assert jobs[..|jobs|] == jobs;
    return true;
  }

  // ---- main results ----

  /** Evaluating against one's own latest evaluation reproduces it exactly. */
  lemma EvaluateIsIdempotent(s: Snapshot, close: Option<CloseLine>, last: Option<Outcome>)
    requires Evaluate(s, close, last).Ok?
    ensures Evaluate(s, close, Some(Evaluate(s, close, last).value)) == Evaluate(s, close, last)
  {
  }

  /** The table after one attempt. */
  function Advanced(rows: seq<Outcome>, s: Snapshot, close: Option<CloseLine>): seq<Outcome> {
    match Reevaluated(rows, s, close)
    case Err(_) => rows
    case Ok(after) => after
  }

  function Repeated(rows: seq<Outcome>, s: Snapshot, closes: seq<Option<CloseLine>>): seq<Outcome> {
    if closes == [] then rows
    else
      Advanced(Repeated(rows, s, closes[..|closes| - 1]), s, closes[|closes| - 1])
  }

  lemma LatestAppended(rows: seq<Outcome>, o: Outcome)
    ensures Latest(rows + [o], o.snapshotId) == Some(o)
  {
  }

  /** Any number of re-evaluations against an unchanged market leaves what the first left: at most one new row. */
  lemma {:induction false} UnchangedMarketAppendsOnce(rows: seq<Outcome>, s: Snapshot, close: Option<CloseLine>, n: nat)
    requires n > 0
    ensures Repeated(rows, s, seq(n, _ => close)) == Repeated(rows, s, [close])
    ensures |rows| <= |Repeated(rows, s, [close])| <= |rows| + 1
  {
    var closes := seq(n, _ => close);
    assert [close][..0] == [];
    if n == 1 {
      assert closes == [close];
    } else {
      assert closes[..n - 1] == seq(n - 1, _ => close);
      UnchangedMarketAppendsOnce(rows, s, close, n - 1);
      var once := Repeated(rows, s, [close]);
      var o := Evaluate(s, close, Latest(rows, s.id));
      if o.Ok? && once != rows {
        LatestAppended(rows, o.value);
        EvaluateIsIdempotent(s, close, Latest(rows, s.id));
      }
    }
  }

  predicate IsSettled(o: Outcome) {
    o.status.Settled? && o.result.Some? && o.result.value.Known?
  }

  ghost predicate LatestSettled(rows: seq<Outcome>, id: int) {
    Latest(rows, id).Some? && IsSettled(Latest(rows, id).value)
  }

  /** Once settled, a snapshot stays settled whatever the market shows later and however often it fails to evaluate; its
      result changes only to the grade of a later final score. */
  lemma {:induction false} SettledStaysSettled(rows: seq<Outcome>, s: Snapshot, closes: seq<Option<CloseLine>>)
    requires LatestSettled(rows, s.id)
    ensures LatestSettled(Repeated(rows, s, closes), s.id)
    ensures var result := Latest(Repeated(rows, s, closes), s.id).value.result.value;
            result == Latest(rows, s.id).value.result.value
            || exists k :: 0 <= k < |closes| && Grade(s, FinalScores(closes[k])) == Ok(result)
  {
    if closes != [] {
      var n := |closes| - 1;
      SettledStaysSettled(rows, s, closes[..n]);
      var before := Repeated(rows, s, closes[..n]);
      var o := Evaluate(s, closes[n], Latest(before, s.id));
      if Repeated(rows, s, closes) != before {
        LatestAppended(before, o.value);
        assert o.value.result.value == Latest(before, s.id).value.result.value
            || Grade(s, FinalScores(closes[n])) == Ok(o.value.result.value);
      }
      assert forall k :: 0 <= k < n ==> closes[..n][k] == closes[k];
    }
  }

  /** The evaluation against this market succeeds and grades the snapshot, whatever is stored. */
  predicate Grades(s: Snapshot, close: Option<CloseLine>) {
    && SideProbability(s.side, s.homeProbability).Ok?
    && close.Some? && ValidProbability(close.value.probability) && Valid(close.value.odds) && close.value.scores.Final?
    && Text.Trim(s.market) == "h2h"
  }

  /** What every stored row of the snapshot satisfies. */
  ghost predicate Consistent(rows: seq<Outcome>) {
    forall o :: o in rows ==>
      && Storable(o)
      && (o.status.Settled? <==> IsSettled(o)) && (o.result.Some? ==> IsSettled(o))
      && (o.closeProbability.Some? ==> ValidProbability(o.closeProbability.value))
  }

  lemma {:induction false} LatestIsStored(rows: seq<Outcome>, id: int)
    requires Latest(rows, id).Some?
    ensures Latest(rows, id).value in rows && Latest(rows, id).value.snapshotId == id
  {
    if rows[|rows| - 1].snapshotId != id {
      LatestIsStored(rows[..|rows| - 1], id);
    }
  }

  lemma ReevaluationStep(rows: seq<Outcome>, s: Snapshot, close: Option<CloseLine>)
    requires Consistent(rows)
    ensures Reevaluated(rows, s, close).Ok? ==> Consistent(Reevaluated(rows, s, close).value)
    ensures Grades(s, close) ==>
      && Reevaluated(rows, s, close).Ok?
      && Evaluate(s, close, Latest(rows, s.id)).Ok? && IsSettled(Evaluate(s, close, Latest(rows, s.id)).value)
    ensures Reevaluated(rows, s, close).Ok? && IsSettled(Evaluate(s, close, Latest(rows, s.id)).value) ==>
      var result := Evaluate(s, close, Latest(rows, s.id)).value.result.value;
      || (Grades(s, close) && Grade(s, FinalScores(close)) == Ok(result))
      || (LatestSettled(rows, s.id) && Latest(rows, s.id).value.result.value == result)
  {
    if Latest(rows, s.id).Some? {
      LatestIsStored(rows, s.id);
    }
  }

  /** What holds of a snapshot's own rows along its whole history. */
  ghost predicate History(rows: seq<Outcome>, id: int) {
    && Consistent(rows)
    && (forall o :: o in rows ==> o.snapshotId == id)
    && (forall o :: o in rows && IsSettled(o) ==> LatestSettled(rows, id))
  }

  lemma AttemptKeepsHistory(rows: seq<Outcome>, s: Snapshot, close: Option<CloseLine>)
    requires History(rows, s.id)
    ensures History(Advanced(rows, s, close), s.id)
    ensures LatestSettled(Advanced(rows, s, close), s.id) <==> LatestSettled(rows, s.id) || Grades(s, close)
  {
    ReevaluationStep(rows, s, close);
    var after := Advanced(rows, s, close);
    if after != rows {
      var o := Evaluate(s, close, Latest(rows, s.id)).value;
      LatestAppended(rows, o);
      SettledOnceMore(s, close, Latest(rows, s.id));
    }
  }

  lemma SettledOnceMore(s: Snapshot, close: Option<CloseLine>, last: Option<Outcome>)
    requires Evaluate(s, close, last).Ok?
    ensures last.Some? && IsSettled(last.value) ==> IsSettled(Evaluate(s, close, last).value)
  {
  }

  ghost predicate SomeGrades(s: Snapshot, closes: seq<Option<CloseLine>>) {
    exists k :: 0 <= k < |closes| && Grades(s, closes[k])
  }

  lemma SomeGradesSplit(s: Snapshot, closes: seq<Option<CloseLine>>)
    requires closes != []
    ensures SomeGrades(s, closes) <==> SomeGrades(s, closes[..|closes| - 1]) || Grades(s, closes[|closes| - 1])
  {
    assert forall k :: 0 <= k < |closes| - 1 ==> closes[..|closes| - 1][k] == closes[k];
  }

  /** Along a snapshot's whole history its newest row is settled exactly when some market of the history graded it, and
      no settled row is ever followed by an unsettled one. */
  lemma {:induction false} SettledIffGraded(s: Snapshot, closes: seq<Option<CloseLine>>)
    ensures History(Repeated([], s, closes), s.id)
    ensures LatestSettled(Repeated([], s, closes), s.id) <==> SomeGrades(s, closes)
  {
    if closes != [] {
      var n := |closes| - 1;
      SettledIffGraded(s, closes[..n]);
      AttemptKeepsHistory(Repeated([], s, closes[..n]), s, closes[n]);
      SomeGradesSplit(s, closes);
    }
  }

  /** A settled result was read off the final score of some market of the history. */
  lemma {:induction false} SettledResultWasGraded(s: Snapshot, closes: seq<Option<CloseLine>>) returns (k: nat)
    requires LatestSettled(Repeated([], s, closes), s.id)
    ensures k < |closes| && Grades(s, closes[k])
    ensures Grade(s, FinalScores(closes[k])) == Ok(Latest(Repeated([], s, closes), s.id).value.result.value)
  {
    var n := |closes| - 1;
    var before, after := Repeated([], s, closes[..n]), Repeated([], s, closes);
    SettledIffGraded(s, closes[..n]);
    ReevaluationStep(before, s, closes[n]);
    if after != before {
      LatestAppended(before, Evaluate(s, closes[n], Latest(before, s.id)).value);
    }
    if LatestSettled(before, s.id) && Latest(before, s.id).value.result.value == Latest(after, s.id).value.result.value {
      k := SettledResultWasGraded(s, closes[..n]);
    } else {
      k := n;
    }
  }

  /** The newest row shows the current evaluation if and only if that row was not stored before or is already the newest. */
  lemma NewestIsCurrentIff(rows: seq<Outcome>, s: Snapshot, close: Option<CloseLine>)
    requires Reevaluated(rows, s, close).Ok?
    ensures var o := Evaluate(s, close, Latest(rows, s.id)).value;
            Latest(Reevaluated(rows, s, close).value, s.id) == Some(o) <==> o !in rows || Latest(rows, s.id) == Some(o)
  {
    LatestAppended(rows, Evaluate(s, close, Latest(rows, s.id)).value);
  }

  /** A closing price that moves away and comes back is not recorded again: the newest row keeps the price in between. */
  lemma ReturningPriceIsLost(s: Snapshot, at: int)
    requires SideProbability(s.side, s.homeProbability).Ok?
    ensures var a, b := Some(CloseLine(100, 0.5, at, NoScores)), Some(CloseLine(-110, 0.52, at, NoScores));
            var rows := Repeated([], s, [a, b, a]);
            |rows| == 2 && Latest(rows, s.id).Some? && Latest(rows, s.id).value.closeProbability == Some(0.52)
  {
    var a, b := Some(CloseLine(100, 0.5, at, NoScores)), Some(CloseLine(-110, 0.52, at, NoScores));
    assert [a, b, a][..2] == [a, b] && [a, b][..1] == [a] && [a][..0] == [];
    var first := Evaluate(s, a, None).value;
    var second := Evaluate(s, b, Some(first)).value;
    assert Repeated([], s, [a]) == [first];
    LatestAppended([], first);
    assert Repeated([], s, [a, b]) == [first, second];
    assert [first] + [second] == [first, second];
    LatestAppended([first], second);
    assert Evaluate(s, a, Some(second)) == Ok(first);
  }

  /** The snapshot's side and probability are usable, and so are the closing line's probability and price if there is one. */
  predicate Evaluable(s: Snapshot, close: Option<CloseLine>) {
    && SideProbability(s.side, s.homeProbability).Ok?
    && (close.Some? ==> ValidProbability(close.value.probability) && Valid(close.value.odds))
  }

  /** A re-evaluation succeeds exactly for usable input, whatever is stored. */
  lemma ReevaluationSucceedsIff(rows: seq<Outcome>, s: Snapshot, close: Option<CloseLine>)
    requires Consistent(rows)
    ensures Reevaluated(rows, s, close).Ok? <==> Evaluable(s, close)
  {
    if Latest(rows, s.id).Some? {
      LatestIsStored(rows, s.id);
    }
  }

  lemma {:induction false} ListedStaysConsistent(rows: seq<Outcome>, jobs: seq<(Snapshot, Option<CloseLine>)>)
    requires Consistent(rows)
    ensures Consistent(ListedAll(rows, jobs).0)
  {
    if jobs != [] {
      var n := |jobs| - 1;
      ListedStaysConsistent(rows, jobs[..n]);
      ReevaluationStep(ListedAll(rows, jobs[..n]).0, jobs[n].0, jobs[n].1);
    }
  }

  /** The whole listing succeeds exactly when every snapshot in it is usable: one unusable snapshot fails it. */
  lemma {:induction false} ListingSucceedsIff(rows: seq<Outcome>, jobs: seq<(Snapshot, Option<CloseLine>)>)
    requires Consistent(rows)
    ensures ListedAll(rows, jobs).1 <==> forall job :: job in jobs ==> Evaluable(job.0, job.1)
  {
    if jobs != [] {
      var n := |jobs| - 1;
      assert jobs == jobs[..n] + [jobs[n]];
      ListingSucceedsIff(rows, jobs[..n]);
      ListedStaysConsistent(rows, jobs[..n]);
      ReevaluationSucceedsIff(ListedAll(rows, jobs[..n]).0, jobs[n].0, jobs[n].1);
    }
  }

  /** Totals snapshots are stored with sides over and under, which no evaluation accepts: the listing stops at the first. */
  lemma TotalsCannotBeEvaluated(rows: seq<Outcome>, s: Snapshot, close: Option<CloseLine>, jobs: seq<(Snapshot, Option<CloseLine>)>, i: nat)
    requires Text.Normalize(s.side) in {"over", "under"}
    ensures Reevaluated(rows, s, close).Err?
    ensures i < |jobs| && jobs[i].0.side == s.side ==> !ListedAll(rows, jobs).1
  {
    if i < |jobs| && jobs[i].0.side == s.side {
      assert jobs[..i + 1][..i] == jobs[..i];
      ListedStops(rows, jobs, i + 1);
    }
  }
}
