/** The database as the object the application mutates, and the placement orchestrator that runs on it. */
module Store {
  import opened Wrappers
  import opened Ledger
  import opened Lifecycle

  class Database {
    var bets: seq<Bet>
    var ledger: seq<Entry>

    constructor ()
      ensures State() == Db([], [])
    {
      bets, ledger := [], [];
    }

    function State(): Db
      reads this
    {
      Db(bets, ledger)
    }

    method GetBetByIdempotencyKey(key: Key) returns (found: Option<nat>)
      ensures found == Find(bets, key)
      ensures found.Some? ==> found.value < |bets| && bets[found.value].ticket.key == key
      ensures found.None? ==> forall i :: 0 <= i < |bets| ==> bets[i].ticket.key != key
    {
      var i := |bets|;
      assert bets[..i] == bets;
      while i > 0
        invariant 0 <= i <= |bets|
        invariant Find(bets, key) == Find(bets[..i], key)
      {
        assert bets[..i][..i - 1] == bets[..i - 1];
        if bets[i - 1].ticket.key == key {
          return Some(i - 1);
        }
        i := i - 1;
      }
      return None;
    }

    /** Refused by a CHECK or by the unique key; nothing is written then. */
    method InsertBet(ticket: Ticket, status: Status, manual: bool) returns (id: Option<nat>)
      modifies this`bets
      ensures id.Some? <==> Acceptable(ticket) && Find(old(bets), ticket.key).None?
      ensures id.Some? <==>
        && ticket.stake > 0 && (ticket.odds <= -100 || ticket.odds >= 100) && ticket.side in {"home", "away", "over", "under"}
        && forall i :: 0 <= i < |old(bets)| ==> old(bets)[i].ticket.key != ticket.key
      ensures id.Some? ==> id.value == |old(bets)| && bets == old(bets) + [Bet(ticket, manual, status, None, None, None)]
      ensures id.None? ==> bets == old(bets)
    {
      var existing := GetBetByIdempotencyKey(ticket.key);
      if existing.Some? || !Acceptable(ticket) {
        return None;
      }
      id := Some(|bets|);
      bets := bets + [Bet(ticket, manual, status, None, None, None)];
    }

    method InsertBankrollEntry(entry: Entry)
      modifies this`ledger
      ensures ledger == old(ledger) + [entry]
    {
      ledger := ledger + [entry];
    }

    method UpdateBetPlaced(id: nat, externalId: string)
      modifies this`bets
      ensures State() == MarkPlaced(old(State()), id, externalId)
    {
      if id < |bets| && bets[id].status == Pending {
        bets := bets[id := bets[id].(status := Placed, externalId := Some(externalId))];
      }
    }

    method UpdateBetFailed(id: nat)
      modifies this`bets
      ensures bets == if id < |old(bets)| && old(bets)[id].status.Pending? then old(bets)[id := old(bets)[id].(status := Failed)] else old(bets)
    {
      if id < |bets| && bets[id].status == Pending {
        bets := bets[id := bets[id].(status := Failed)];
      }
    }

    method UpdateBetSettled(id: nat, result: GameResult, payout: int)
      modifies this`bets
      ensures bets == if id < |old(bets)| && old(bets)[id].status.Placed?
                      then old(bets)[id := old(bets)[id].(status := Settled, result := Some(result), payout := Some(payout))]
                      else old(bets)
    {
      if id < |bets| && bets[id].status == Placed {
        bets := bets[id := bets[id].(status := Settled, result := Some(result), payout := Some(payout))];
      }
    }

    method VoidBet(id: nat)
      modifies this`bets
      ensures bets == if id < |old(bets)| && old(bets)[id].status.Placed?
                      then old(bets)[id := old(bets)[id].(status := Voided)] else old(bets)
    {
      if id < |bets| && bets[id].status == Placed {
        bets := bets[id := bets[id].(status := Voided)];
      }
    }
  }

  datatype PlaceResult =
    | AlreadyExists(id: nat, externalId: Option<string>)
    | Accepted(id: nat, confirmedId: string)
    | Rejected

  /** The steps of one placement that runs to its end. */
  function PlaceLabels(ticket: Ticket, answer: Answer, reservedAt: int, resolvedAt: int): seq<Label> {
    [StartPlace(0, ticket), CheckKey(0), CommitReserve(0, reservedAt), CallBook(0, answer), CommitOutcome(0, resolvedAt)]
  }

  lemma RunOne(w: World, a: Label)
    ensures Run(w, [a]) == Step(w, a)
  {
    assert [a][..0] == [];
  }

  lemma RunTwo(w: World, a: Label, b: Label)
    ensures Run(w, [a, b]) == Step(Step(w, a), b)
  {
    assert [a, b] == [a] + [b];
    RunAppend(w, [a], [b]);
    RunOne(w, a);
    RunOne(Step(w, a), b);
  }

  lemma RunFive(w: World, a: Label, b: Label, c: Label, d: Label, e: Label)
    ensures Run(w, [a, b, c, d, e]) == Step(Step(Step(Step(Step(w, a), b), c), d), e)
  {
    assert [a, b, c, d, e] == [a, b] + [c, d] + [e];
    RunAppend(w, [a, b] + [c, d], [e]);
    RunAppend(w, [a, b], [c, d]);
    RunTwo(w, a, b);
    RunTwo(Step(Step(w, a), b), c, d);
    RunOne(Step(Step(Step(Step(w, a), b), c), d), e);
  }

  /** What an undisturbed placement leaves behind. */
  ghost function Placement(db: Db, calls: seq<Call>, ticket: Ticket, answer: Answer, reservedAt: int, resolvedAt: int): (Db, seq<Call>) {
    if !Acceptable(ticket) || Find(db.bets, ticket.key).Some? then (db, calls)
    else
      var reserved := Entry(StakeReserved, -ticket.stake, ForBet(ticket.key), reservedAt);
      match answer
      case Confirmed(externalId) =>
        (Db(db.bets + [Bet(ticket, false, Placed, Some(externalId), None, None)], db.ledger + [reserved]),
         calls + [Call(ticket, answer)])
      case Refused =>
        (Db(db.bets + [Bet(ticket, false, Failed, None, None, None)],
            db.ledger + [reserved, Entry(StakeReleased(PlacementFailed), ticket.stake, ForBet(ticket.key), resolvedAt)]),
         calls + [Call(ticket, answer)])
  }

  lemma CheckStep(w: World, op: OpId, ticket: Ticket)
    requires op in w.ops && w.ops[op] == Placing(ticket)
    ensures var found := Find(w.db.bets, ticket.key);
            Step(w, CheckKey(op)) == if found.Some? && w.db.bets[found.value].status != Failed then Finish(w, op)
                                     else w.(ops := w.ops[op := Cleared(ticket)])
  {
  }

  lemma ReserveStep(w: World, op: OpId, ticket: Ticket, now: int)
    requires op in w.ops && w.ops[op] == Cleared(ticket)
    ensures var reserved := Reserve(w.db, ticket, Pending, false, now);
            Step(w, CommitReserve(op, now)) == if reserved.None? then Finish(w, op)
                                               else World(reserved.value, w.calls, w.ops[op := Holding(ticket, |w.db.bets|)])
  {
  }

  lemma CallStep(w: World, op: OpId, ticket: Ticket, id: nat, answer: Answer)
    requires op in w.ops && w.ops[op] == Holding(ticket, id)
    ensures Step(w, CallBook(op, answer)) == World(w.db, w.calls + [Call(ticket, answer)], w.ops[op := Answered(ticket, id, answer)])
  {
  }

  lemma OutcomeStep(w: World, op: OpId, ticket: Ticket, id: nat, answer: Answer, now: int)
    requires op in w.ops && w.ops[op] == Answered(ticket, id, answer)
    ensures Step(w, CommitOutcome(op, now))
         == World(match answer
                  case Confirmed(externalId) => MarkPlaced(w.db, id, externalId)
                  case Refused => MarkFailed(w.db, id, ticket, now),
                  w.calls, w.ops - {op})
  {
  }

  lemma GoneStep(w: World, op: OpId, l: Label)
    requires op !in w.ops
    requires l == CheckKey(op) || (l.CommitReserve? && l.op == op) || (l.CallBook? && l.op == op) || (l.CommitOutcome? && l.op == op)
    ensures Step(w, l) == w
  {
  }

  /** The last two steps, once the stake is reserved. */
  lemma ReservedIsPlaced(db: Db, calls: seq<Call>, ticket: Ticket, answer: Answer, reservedAt: int, resolvedAt: int)
    requires Acceptable(ticket) && Find(db.bets, ticket.key).None?
    ensures var (db', calls') := Placement(db, calls, ticket, answer, reservedAt, resolvedAt);
            var held := World(Reserve(db, ticket, Pending, false, reservedAt).value, calls, map[0 := Holding(ticket, |db.bets|)]);
            Step(Step(held, CallBook(0, answer)), CommitOutcome(0, resolvedAt)) == World(db', calls', map[])
  {
    var reserved := Reserve(db, ticket, Pending, false, reservedAt).value;
    var held := World(reserved, calls, map[0 := Holding(ticket, |db.bets|)]);
    var answered := World(reserved, calls + [Call(ticket, answer)], map[0 := Answered(ticket, |db.bets|, answer)]);
    CallStep(held, 0, ticket, |db.bets|, answer);
    assert held.ops[0 := Answered(ticket, |db.bets|, answer)] == answered.ops;
    OutcomeStep(answered, 0, ticket, |db.bets|, answer, resolvedAt);
    assert answered.ops - {0} == map[];
    assert reserved.ledger + [Entry(StakeReleased(PlacementFailed), ticket.stake, ForBet(ticket.key), resolvedAt)]
        == db.ledger + [Entry(StakeReserved, -ticket.stake, ForBet(ticket.key), reservedAt),
                        Entry(StakeReleased(PlacementFailed), ticket.stake, ForBet(ticket.key), resolvedAt)];
  }

  /** The five steps of a lone placement add up to that. */
  lemma PlacementIsRun(db: Db, calls: seq<Call>, ticket: Ticket, answer: Answer, reservedAt: int, resolvedAt: int)
    ensures var (db', calls') := Placement(db, calls, ticket, answer, reservedAt, resolvedAt);
            Run(World(db, calls, map[]), PlaceLabels(ticket, answer, reservedAt, resolvedAt)) == World(db', calls', map[])
  {
    var w0 := World(db, calls, map[]);
    var check, reserve, call, outcome := CheckKey(0), CommitReserve(0, reservedAt), CallBook(0, answer), CommitOutcome(0, resolvedAt);
    RunFive(w0, StartPlace(0, ticket), check, reserve, call, outcome);
    var w1 := World(db, calls, map[0 := Placing(ticket)]);
    assert Step(w0, StartPlace(0, ticket)) == w1;
    CheckStep(w1, 0, ticket);
    assert w1.ops - {0} == map[];
    var found := Find(db.bets, ticket.key);
    if found.Some? && db.bets[found.value].status != Failed {
      GoneStep(w0, 0, reserve);
      GoneStep(w0, 0, call);
      GoneStep(w0, 0, outcome);
    } else {
      var w2 := World(db, calls, map[0 := Cleared(ticket)]);
      assert w1.ops[0 := Cleared(ticket)] == w2.ops;
      ReserveStep(w2, 0, ticket, reservedAt);
      assert w2.ops - {0} == map[];
      if !Acceptable(ticket) || found.Some? {
        GoneStep(w0, 0, call);
        GoneStep(w0, 0, outcome);
      } else {
        assert w2.ops[0 := Holding(ticket, |db.bets|)] == map[0 := Holding(ticket, |db.bets|)];
        ReservedIsPlaced(db, calls, ticket, answer, reservedAt, resolvedAt);
      }
    }
  }

  class PlacementOrchestrator {
    const db: Database
    var calls: seq<Call>

    constructor (db: Database)
      ensures this.db == db && calls == []
    {
      this.db := db;
      calls := [];
    }

    /** Records the request sent to the book; what it answers is the book's choice. */
    method CallAdapter(ticket: Ticket, answer: Answer)
      modifies this`calls
      ensures calls == old(calls) + [Call(ticket, answer)]
    {
      calls := calls + [Call(ticket, answer)];
    }

    /** The two-transaction protocol. Left alone it is exactly a run of the step system, and it reports what it did. */
    method Place(ticket: Ticket, answer: Answer, reservedAt: int, resolvedAt: int) returns (res: PlaceResult)
      modifies this`calls, db
      ensures (db.State(), calls) == Placement(old(db.State()), old(calls), ticket, answer, reservedAt, resolvedAt)
      ensures World(db.State(), calls, map[])
           == Run(World(old(db.State()), old(calls), map[]), PlaceLabels(ticket, answer, reservedAt, resolvedAt))
      ensures res.AlreadyExists? <==>
        Find(old(db.bets), ticket.key).Some? && old(db.bets)[Find(old(db.bets), ticket.key).value].status != Failed
      ensures res.AlreadyExists? ==> res.id == Find(old(db.bets), ticket.key).value && res.externalId == old(db.bets)[res.id].externalId
      ensures res.Accepted? <==> Acceptable(ticket) && Find(old(db.bets), ticket.key).None? && answer.Confirmed?
      ensures res.Accepted? ==> res.id == |old(db.bets)| && answer == Confirmed(res.confirmedId)
    {
      PlacementIsRun(db.State(), calls, ticket, answer, reservedAt, resolvedAt);

      var existing := db.GetBetByIdempotencyKey(ticket.key);
      if existing.Some? && db.bets[existing.value].status != Failed {
        return AlreadyExists(existing.value, db.bets[existing.value].externalId);
      }

      var id := db.InsertBet(ticket, Pending, false);
      if id.None? {
        return Rejected;
      }
      db.InsertBankrollEntry(Entry(StakeReserved, -ticket.stake, ForBet(ticket.key), reservedAt));

      CallAdapter(ticket, answer);

      match answer {
        case Refused =>
          db.UpdateBetFailed(id.value);
          db.InsertBankrollEntry(Entry(StakeReleased(PlacementFailed), ticket.stake, ForBet(ticket.key), resolvedAt));
          assert db.bets == old(db.bets) + [Bet(ticket, false, Failed, None, None, None)];
          assert db.State() == Placement(old(db.State()), old(calls), ticket, answer, reservedAt, resolvedAt).0;
          return Rejected;
        case Confirmed(externalId) =>
          db.UpdateBetPlaced(id.value, externalId);
          assert db.bets == old(db.bets) + [Bet(ticket, false, Placed, Some(externalId), None, None)];
          return Accepted(id.value, externalId);
      }
    }
  }
}
