/** Any number of placements, closings, manual bets and deposits, interleaved step by step, with crashes anywhere.
    Each label is one read, one committed transaction or one call to the book. */
module Lifecycle {
  import opened Wrappers
  import opened Ledger
  import opened Sizing

  datatype Answer = Confirmed(externalId: string) | Refused

  datatype Call = Call(ticket: Ticket, answer: Answer)

  /** An operation in flight, by how far it got. */
  datatype Op =
    | Placing(ticket: Ticket)
    | Cleared(ticket: Ticket)
    | Holding(ticket: Ticket, id: nat)
    | Answered(ticket: Ticket, id: nat, answer: Answer)
    | Closing(row: Bet, id: nat, closure: Closure)

  type OpId = nat

  datatype World = World(db: Db, calls: seq<Call>, ops: map<OpId, Op>)

  datatype Label =
    | StartPlace(op: OpId, ticket: Ticket)
    | CheckKey(op: OpId)
    | CommitReserve(op: OpId, now: int)
    | CallBook(op: OpId, answer: Answer)
    | CommitOutcome(op: OpId, now: int)
    | ReadToClose(op: OpId, id: nat, closure: Closure, guarded: bool)
    | CommitClose(op: OpId, now: int)
    | CreateManual(ticket: Ticket, now: int)
    | AddDeposit(dollars: real, now: int)
    | Crash(op: OpId)

  const EMPTY := World(Db([], []), [], map[])

  function Finish(w: World, op: OpId): World {
    w.(ops := w.ops - {op})
  }

  /** A handler closes only what it read as placed; the settlement processor takes whatever row it is given. */
  predicate MayClose(bet: Bet, closure: Closure, guarded: bool) {
    bet.status.Placed? || (!guarded && closure.Settle?)
  }

  /** One step. A label that does not apply changes nothing. */
  function Step(w: World, l: Label): World {
    match l
    case StartPlace(op, ticket) =>
      if op in w.ops then w else w.(ops := w.ops[op := Placing(ticket)])
    case CheckKey(op) =>
      if op in w.ops && w.ops[op].Placing? then
        var ticket := w.ops[op].ticket;
        var found := Find(w.db.bets, ticket.key);
        if found.Some? && w.db.bets[found.value].status != Failed then Finish(w, op)
        else w.(ops := w.ops[op := Cleared(ticket)])
      else w
    case CommitReserve(op, now) =>
      if op in w.ops && w.ops[op].Cleared? then
        var ticket := w.ops[op].ticket;
        match Reserve(w.db, ticket, Pending, false, now)
        case None => Finish(w, op)
        case Some(db) => World(db, w.calls, w.ops[op := Holding(ticket, |w.db.bets|)])
      else w
    case CallBook(op, answer) =>
      if op in w.ops && w.ops[op].Holding? then
        World(w.db, w.calls + [Call(w.ops[op].ticket, answer)], w.ops[op := Answered(w.ops[op].ticket, w.ops[op].id, answer)])
      else w
    case CommitOutcome(op, now) =>
      if op in w.ops && w.ops[op].Answered? then
        match w.ops[op].answer
        case Confirmed(externalId) => Finish(w.(db := MarkPlaced(w.db, w.ops[op].id, externalId)), op)
        case Refused => Finish(w.(db := MarkFailed(w.db, w.ops[op].id, w.ops[op].ticket, now)), op)
      else w
    case ReadToClose(op, id, closure, guarded) =>
      if op !in w.ops && id < |w.db.bets| && MayClose(w.db.bets[id], closure, guarded) then
        w.(ops := w.ops[op := Closing(w.db.bets[id], id, closure)])
      else w
    case CommitClose(op, now) =>
      if op in w.ops && w.ops[op].Closing? && w.ops[op].row.ticket.odds != 0 then
        Finish(w.(db := Close(w.db, w.ops[op].id, w.ops[op].row.ticket, w.ops[op].closure, now)), op)
      else w
    case CreateManual(ticket, now) =>
      (match Reserve(w.db, ticket, Placed, true, now)
       case None => w
       case Some(db) => w.(db := db))
    case AddDeposit(dollars, now) =>
      if dollars <= 0.0 then w
      else w.(db := w.db.(ledger := w.db.ledger + [Entry(Deposit, Cents(dollars), Manual, now)]))
    case Crash(op) => Finish(w, op)
  }

  function Run(w: World, ls: seq<Label>): World {
    if ls == [] then w else Step(Run(w, ls[..|ls| - 1]), ls[|ls| - 1])
  }

  lemma {:induction false} RunAppend(w: World, a: seq<Label>, b: seq<Label>)
    ensures Run(w, a + b) == Run(Run(w, a), b)
  {
    if b == [] {
      assert a + b == a;
    } else {
      var n := |b| - 1;
      assert (a + b)[..|a + b| - 1] == a + b[..n];
      RunAppend(w, a, b[..n]);
    }
  }

  // ---- what every reachable state satisfies ----

  ghost predicate UniqueKeys(bets: seq<Bet>) {
    forall i, j :: 0 <= i < j < |bets| ==> bets[i].ticket.key != bets[j].ticket.key
  }

  /** The row is well formed and, once settled, carries the payout its own ticket earns. */
  ghost predicate SoundBet(bet: Bet) {
    && Acceptable(bet.ticket)
    && (bet.status.Settled? <==> bet.result.Some?)
    && (bet.result.Some? <==> bet.payout.Some?)
    && (bet.result.Some? ==> bet.payout.value == Payout(bet.ticket, bet.result.value))
    && (bet.manual ==> !bet.status.Pending? && !bet.status.Failed?)
  }

  ghost predicate SoundBets(bets: seq<Bet>) {
    UniqueKeys(bets) && forall i :: 0 <= i < |bets| ==> SoundBet(bets[i])
  }

  ghost predicate Called(calls: seq<Call>, key: Key) {
    exists i :: 0 <= i < |calls| && calls[i].ticket.key == key
  }

  /** An operation agrees with the tables. */
  ghost predicate SoundOp(db: Db, calls: seq<Call>, op: Op) {
    match op
    case Placing(_) => true
    case Cleared(_) => true
    case Holding(ticket, id) =>
      id < |db.bets| && db.bets[id].ticket == ticket && db.bets[id].status.Pending? && !Called(calls, ticket.key)
    case Answered(ticket, id, answer) =>
      id < |db.bets| && db.bets[id].ticket == ticket && db.bets[id].status.Pending? && Call(ticket, answer) in calls
    case Closing(row, id, _) =>
      id < |db.bets| && db.bets[id].ticket == row.ticket && Acceptable(row.ticket)
  }

  predicate HasBet(op: Op) {
    op.Holding? || op.Answered?
  }

  /** No two operations carry the same placement. */
  ghost predicate Exclusive(ops: map<OpId, Op>) {
    forall o, p :: o in ops && p in ops && o != p && HasBet(ops[o]) && HasBet(ops[p]) ==> ops[o].id != ops[p].id
  }

  /** A placement with this very ticket is on the books. */
  ghost predicate Backed(bets: seq<Bet>, ticket: Ticket) {
    exists id :: 0 <= id < |bets| && bets[id].ticket == ticket && !bets[id].manual
  }

  /** Each call was made for a committed bet with the very ticket sent, and no key was called twice. */
  ghost predicate SoundCalls(db: Db, calls: seq<Call>) {
    && (forall i, j :: 0 <= i < j < |calls| ==> calls[i].ticket.key != calls[j].ticket.key)
    && (forall i :: 0 <= i < |calls| ==> Backed(db.bets, calls[i].ticket))
  }

  /** A bet the book was not told about is manual or still pending; an external id is one the book confirmed. */
  ghost predicate SoundOutcome(bet: Bet, calls: seq<Call>) {
    && (bet.status.Failed? ==> Call(bet.ticket, Refused) in calls)
    && (!bet.manual && !bet.status.Pending? && !bet.status.Failed? ==>
          bet.externalId.Some? && Call(bet.ticket, Confirmed(bet.externalId.value)) in calls)
  }

  ghost predicate SoundOutcomes(bets: seq<Bet>, calls: seq<Call>) {
    forall i :: 0 <= i < |bets| ==> SoundOutcome(bets[i], calls)
  }

  ghost predicate Inv(w: World) {
    && SoundBets(w.db.bets)
    && (forall o :: o in w.ops ==> SoundOp(w.db, w.calls, w.ops[o]))
    && Exclusive(w.ops)
    && SoundCalls(w.db, w.calls)
    && SoundOutcomes(w.db.bets, w.calls)
  }

  /** How a step may change one row: identity and money never, status only forward. */
  ghost predicate Evolves(before: Bet, after: Bet) {
    && after.ticket == before.ticket && after.manual == before.manual
    && match before.status
       case Pending => after.status.Pending? || after.status.Placed? || after.status.Failed?
       case Placed => after == before || (after.status.Settled? || after.status.Voided?)
       case _ => after == before
  }

  /** Rows are never removed and each evolves. */
  ghost predicate TableEvolves(before: seq<Bet>, after: seq<Bet>) {
    |before| <= |after| && forall i :: 0 <= i < |before| ==> Evolves(before[i], after[i])
  }

  lemma StepEvolves(w: World, l: Label)
    ensures TableEvolves(w.db.bets, Step(w, l).db.bets)
    ensures w.db.ledger <= Step(w, l).db.ledger && w.calls <= Step(w, l).calls
  {
  }

  lemma StepKeepsBets(w: World, l: Label)
    requires Inv(w)
    ensures SoundBets(Step(w, l).db.bets)
  {
    var bets, bets' := w.db.bets, Step(w, l).db.bets;
    StepEvolves(w, l);
    forall i | 0 <= i < |bets'|
      ensures SoundBet(bets'[i])
    {
      if i < |bets| {
        assert SoundBet(bets[i]);
      }
    }
    forall i, j | 0 <= i < j < |bets'|
      ensures bets'[i].ticket.key != bets'[j].ticket.key
    {
      assert i < |bets|;
      if j < |bets| {
        assert bets[i].ticket.key != bets[j].ticket.key;
      }
    }
  }

  /** The operation a label acts for. */
  function Actor(l: Label): Option<OpId> {
    match l
    case CreateManual(_, _) => None
    case AddDeposit(_, _) => None
    case _ => Some(l.op)
  }

  lemma OtherOpsUntouched(w: World, l: Label, o: OpId)
    requires Actor(l) != Some(o)
    ensures o in Step(w, l).ops <==> o in w.ops
    ensures o in w.ops ==> Step(w, l).ops[o] == w.ops[o]
  {
  }

  /** A bet whose placement is in flight is changed only by that placement's own last step. */
  lemma InFlightBetStays(w: World, l: Label, o: OpId)
    requires Inv(w) && o in w.ops && HasBet(w.ops[o]) && Actor(l) != Some(o)
    ensures w.ops[o].id < |w.db.bets| && Step(w, l).db.bets[w.ops[o].id] == w.db.bets[w.ops[o].id]
  {
    assert SoundOp(w.db, w.calls, w.ops[o]);
    if l.CommitOutcome? && l.op in w.ops && w.ops[l.op].Answered? {
      assert SoundOp(w.db, w.calls, w.ops[l.op]);
      assert w.ops[l.op].id != w.ops[o].id;
    }
  }

  lemma CalledGrows(calls: seq<Call>, more: seq<Call>, key: Key)
    ensures Called(calls + more, key) <==> Called(calls, key) || Called(more, key)
  {
    if Called(calls, key) {
      var i :| 0 <= i < |calls| && calls[i].ticket.key == key;
      assert (calls + more)[i].ticket.key == key;
    }
    if Called(more, key) {
      var i :| 0 <= i < |more| && more[i].ticket.key == key;
      assert (calls + more)[|calls| + i].ticket.key == key;
    }
  }

  /** Only the holder of a placement adds a call for its key. */
  lemma NewCallIsHolders(w: World, l: Label, o: OpId)
    requires Inv(w) && o in w.ops && w.ops[o].Holding? && Actor(l) != Some(o)
    ensures !Called(Step(w, l).calls, w.ops[o].ticket.key)
  {
    assert SoundOp(w.db, w.calls, w.ops[o]);
    if l.CallBook? && l.op in w.ops && w.ops[l.op].Holding? {
      var mine, other := w.ops[o], w.ops[l.op];
      assert SoundOp(w.db, w.calls, other);
      assert mine.id != other.id;
      assert w.db.bets[mine.id].ticket.key != w.db.bets[other.id].ticket.key by {
        if mine.id < other.id {
        } else {
        }
      }
      CalledGrows(w.calls, [Call(other.ticket, l.answer)], mine.ticket.key);
    }
  }

  lemma OtherOpStaysSound(w: World, l: Label, o: OpId)
    requires Inv(w) && o in w.ops && Actor(l) != Some(o)
    ensures SoundOp(Step(w, l).db, Step(w, l).calls, w.ops[o])
  {
    assert SoundOp(w.db, w.calls, w.ops[o]);
    StepEvolves(w, l);
    if HasBet(w.ops[o]) {
      InFlightBetStays(w, l, o);
      if w.ops[o].Holding? {
        NewCallIsHolders(w, l, o);
      }
    } else if w.ops[o].Closing? {
      assert Evolves(w.db.bets[w.ops[o].id], Step(w, l).db.bets[w.ops[o].id]);
    }
  }

  lemma ActorStaysSound(w: World, l: Label)
    requires Inv(w)
    ensures Actor(l).Some? && l.op in Step(w, l).ops ==> SoundOp(Step(w, l).db, Step(w, l).calls, Step(w, l).ops[l.op])
  {
    if Actor(l).Some? && l.op in w.ops {
      assert SoundOp(w.db, w.calls, w.ops[l.op]);
    }
    if l.CommitReserve? && l.op in w.ops && w.ops[l.op].Cleared? {
      var key := w.ops[l.op].ticket.key;
      if Called(w.calls, key) {
        var i :| 0 <= i < |w.calls| && w.calls[i].ticket.key == key;
        assert Backed(w.db.bets, w.calls[i].ticket);
      }
    }
    if l.CallBook? && l.op in w.ops && w.ops[l.op].Holding? {
      var call := Call(w.ops[l.op].ticket, l.answer);
      assert (w.calls + [call])[|w.calls|] == call;
    }
    if l.ReadToClose? && l.id < |w.db.bets| {
      assert SoundBet(w.db.bets[l.id]);
    }
  }

  lemma StepKeepsOps(w: World, l: Label)
    requires Inv(w)
    ensures var w' := Step(w, l); forall o :: o in w'.ops ==> SoundOp(w'.db, w'.calls, w'.ops[o])
  {
    var w' := Step(w, l);
    ActorStaysSound(w, l);
    forall o | o in w'.ops
      ensures SoundOp(w'.db, w'.calls, w'.ops[o])
    {
      if Actor(l) != Some(o) {
        OtherOpsUntouched(w, l, o);
        OtherOpStaysSound(w, l, o);
      }
    }
  }

  lemma StepKeepsExclusive(w: World, l: Label)
    requires Inv(w)
    ensures Exclusive(Step(w, l).ops)
  {
    var ops, ops' := w.ops, Step(w, l).ops;
    forall o, p | o in ops' && p in ops' && o != p && HasBet(ops'[o]) && HasBet(ops'[p])
      ensures ops'[o].id != ops'[p].id
    {
      if Actor(l) != Some(o) { OtherOpsUntouched(w, l, o); assert SoundOp(w.db, w.calls, ops[o]); }
      if Actor(l) != Some(p) { OtherOpsUntouched(w, l, p); assert SoundOp(w.db, w.calls, ops[p]); }
    }
  }

  lemma BackedStays(w: World, l: Label, ticket: Ticket)
    requires Backed(w.db.bets, ticket)
    ensures Backed(Step(w, l).db.bets, ticket)
  {
    StepEvolves(w, l);
    var id :| 0 <= id < |w.db.bets| && w.db.bets[id].ticket == ticket && !w.db.bets[id].manual;
    assert Evolves(w.db.bets[id], Step(w, l).db.bets[id]);
  }

  lemma HolderIsBacked(w: World, o: OpId)
    requires Inv(w) && o in w.ops && w.ops[o].Holding?
    ensures Backed(w.db.bets, w.ops[o].ticket) && !Called(w.calls, w.ops[o].ticket.key)
  {
    assert SoundOp(w.db, w.calls, w.ops[o]);
    assert SoundBet(w.db.bets[w.ops[o].id]);
  }

  lemma StepKeepsCalls(w: World, l: Label)
    requires Inv(w)
    ensures SoundCalls(Step(w, l).db, Step(w, l).calls)
  {
    var w' := Step(w, l);
    if l.CallBook? && l.op in w.ops && w.ops[l.op].Holding? {
      HolderIsBacked(w, l.op);
      assert w'.calls == w.calls + [Call(w.ops[l.op].ticket, l.answer)];
    }
    forall i | 0 <= i < |w'.calls| ensures Backed(w'.db.bets, w'.calls[i].ticket) {
      BackedStays(w, l, w'.calls[i].ticket);
    }
  }

  lemma OutcomeMonotone(bet: Bet, calls: seq<Call>, more: seq<Call>)
    requires SoundOutcome(bet, calls) && calls <= more
    ensures SoundOutcome(bet, more)
  {
    assert forall c :: c in calls ==> c in more;
  }

  /** A row changes only by the last step of its placement or by a closing of a placed bet. */
  lemma WhoChangesRow(w: World, l: Label, i: nat)
    requires Inv(w) && i < |w.db.bets|
    ensures var before, after := w.db.bets[i], Step(w, l).db.bets[i];
            || after == before
            || (l.CommitOutcome? && l.op in w.ops && w.ops[l.op].Answered? && w.ops[l.op].id == i
                && after == match w.ops[l.op].answer
                            case Confirmed(e) => before.(status := Placed, externalId := Some(e))
                            case Refused => before.(status := Failed))
            || (before.status.Placed? && (after.status.Settled? || after.status.Voided?)
                && after.externalId == before.externalId && after.manual == before.manual && after.ticket == before.ticket)
  {
  }

  lemma StepKeepsOutcomes(w: World, l: Label)
    requires Inv(w)
    ensures SoundOutcomes(Step(w, l).db.bets, Step(w, l).calls)
  {
    var w' := Step(w, l);
    StepEvolves(w, l);
    forall i | 0 <= i < |w'.db.bets|
      ensures SoundOutcome(w'.db.bets[i], w'.calls)
    {
      if i < |w.db.bets| {
        RowKeepsOutcome(w, l, i);
      }
    }
  }

  lemma RowKeepsOutcome(w: World, l: Label, i: nat)
    requires Inv(w) && i < |w.db.bets|
    ensures SoundOutcome(Step(w, l).db.bets[i], Step(w, l).calls)
  {
    StepEvolves(w, l);
    WhoChangesRow(w, l, i);
    OutcomeMonotone(w.db.bets[i], w.calls, Step(w, l).calls);
    if l.CommitOutcome? && l.op in w.ops && w.ops[l.op].Answered? {
      assert SoundOp(w.db, w.calls, w.ops[l.op]);
    }
  }

  lemma StepKeepsInv(w: World, l: Label)
    requires Inv(w)
    ensures Inv(Step(w, l))
  {
    StepKeepsBets(w, l);
    StepKeepsOps(w, l);
    StepKeepsExclusive(w, l);
    StepKeepsCalls(w, l);
    StepKeepsOutcomes(w, l);
  }

  lemma {:induction false} RunKeepsInv(w: World, ls: seq<Label>)
    requires Inv(w)
    ensures Inv(Run(w, ls))
  {
    if ls != [] {
      RunKeepsInv(w, ls[..|ls| - 1]);
      StepKeepsInv(Run(w, ls[..|ls| - 1]), ls[|ls| - 1]);
    }
  }
}
