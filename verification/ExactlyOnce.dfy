/** The placement protocol over any number of concurrent or repeated calls, with crashes:
    at most one call to the book per idempotency key, always behind a committed reservation. */
module ExactlyOnce {
  import opened Wrappers
  import opened Ledger
  import opened Lifecycle

  lemma EmptyIsSound()
    ensures Inv(EMPTY)
  {
  }

  lemma ReachableIsSound(ls: seq<Label>)
    ensures Inv(Run(EMPTY, ls))
  {
    EmptyIsSound();
    RunKeepsInv(EMPTY, ls);
  }

  // ---- the status graph ----

  predicate Leads(from: Status, to: Status) {
    from == to || from.Pending? || (from.Placed? && (to.Settled? || to.Voided?))
  }

  /** Over any continuation a row keeps its ticket, moves only forward, and is frozen once final. */
  lemma {:induction false} StatusOnlyForward(w: World, ls: seq<Label>, i: nat)
    requires i < |w.db.bets|
    ensures var after := Run(w, ls).db.bets;
            && i < |after|
            && after[i].ticket == w.db.bets[i].ticket
            && Leads(w.db.bets[i].status, after[i].status)
            && (w.db.bets[i].status in {Settled, Failed, Voided} ==> after[i] == w.db.bets[i])
  {
    if ls != [] {
      var n := |ls| - 1;
      StatusOnlyForward(w, ls[..n], i);
      StepEvolves(Run(w, ls[..n]), ls[n]);
      assert Evolves(Run(w, ls[..n]).db.bets[i], Run(w, ls).db.bets[i]);
    }
  }

  /** Nothing is ever removed from the ledger or the call log. */
  lemma {:induction false} LogsOnlyGrow(w: World, ls: seq<Label>)
    ensures w.db.ledger <= Run(w, ls).db.ledger && w.calls <= Run(w, ls).calls
  {
    if ls != [] {
      LogsOnlyGrow(w, ls[..|ls| - 1]);
      StepEvolves(Run(w, ls[..|ls| - 1]), ls[|ls| - 1]);
    }
  }

  // ---- the reservation behind every placement ----

  predicate PlacementKind(kind: EntryKind) {
    kind.StakeReserved? || kind == StakeReleased(PlacementFailed)
  }

  /** A key's reservations and placement-failure releases, in ledger order. */
  function PlacementTrail(ledger: seq<Entry>, key: Key): seq<(EntryKind, int)> {
    if ledger == [] then []
    else
      var e := ledger[|ledger| - 1];
      PlacementTrail(ledger[..|ledger| - 1], key)
      + (if e.ref == ForBet(key) && PlacementKind(e.kind) then [(e.kind, e.amount)] else [])
  }

  /** One reservation per bet; one matching release exactly when it failed. */
  function PlacementTrailOf(bets: seq<Bet>, key: Key): seq<(EntryKind, int)> {
    match Find(bets, key)
    case None => []
    case Some(id) =>
      var bet := bets[id];
      [(StakeReserved, -bet.ticket.stake)]
      + (if bet.status.Failed? then [(StakeReleased(PlacementFailed), bet.ticket.stake)] else [])
  }

  lemma FindIs(bets: seq<Bet>, i: nat)
    requires UniqueKeys(bets) && i < |bets|
    ensures Find(bets, bets[i].ticket.key) == Some(i)
  {
    assert Find(bets, bets[i].ticket.key).Some?;
  }

  lemma TrailAppend(ledger: seq<Entry>, e: Entry, key: Key)
    ensures PlacementTrail(ledger + [e], key)
         == PlacementTrail(ledger, key) + (if e.ref == ForBet(key) && PlacementKind(e.kind) then [(e.kind, e.amount)] else [])
  {
    assert (ledger + [e])[..|ledger|] == ledger;
  }

  lemma FindAcross(bets: seq<Bet>, bets': seq<Bet>, key: Key)
    requires UniqueKeys(bets) && UniqueKeys(bets') && |bets| <= |bets'| <= |bets| + 1
    requires forall i :: 0 <= i < |bets| ==> bets'[i].ticket == bets[i].ticket
    ensures Find(bets', key) == if |bets'| > |bets| && bets'[|bets|].ticket.key == key then Some(|bets|) else Find(bets, key)
  {
    var found := Find(bets', key);
    if found.Some? && found.value < |bets| {
      FindIs(bets, found.value);
    }
    if Find(bets, key).Some? {
      FindIs(bets', Find(bets, key).value);
    }
  }

  /** What a step adds to a key's trail. */
  function NewPlacement(w: World, l: Label, key: Key): seq<(EntryKind, int)> {
    var ledger := Step(w, l).db.ledger;
    if |ledger| == |w.db.ledger| + 1 && ledger[|w.db.ledger|].ref == ForBet(key) && PlacementKind(ledger[|w.db.ledger|].kind) then
      [(ledger[|w.db.ledger|].kind, ledger[|w.db.ledger|].amount)]
    else []
  }

  lemma LedgerStep(w: World, l: Label)
    ensures var ledger, ledger' := w.db.ledger, Step(w, l).db.ledger;
            ledger' == ledger || (|ledger'| == |ledger| + 1 && ledger' == ledger + [ledger'[|ledger|]])
  {
  }

  lemma TrailStep(w: World, l: Label, key: Key)
    ensures PlacementTrail(Step(w, l).db.ledger, key) == PlacementTrail(w.db.ledger, key) + NewPlacement(w, l, key)
  {
    var ledger, ledger' := w.db.ledger, Step(w, l).db.ledger;
    LedgerStep(w, l);
    if ledger' != ledger {
      TrailAppend(ledger, ledger'[|ledger|], key);
    }
  }

  /** How a key's expected trail moves when its own row appears or changes. */
  lemma TrailOfChange(bets: seq<Bet>, bets': seq<Bet>, key: Key, added: seq<(EntryKind, int)>)
    requires UniqueKeys(bets) && UniqueKeys(bets') && |bets| <= |bets'| <= |bets| + 1
    requires forall i :: 0 <= i < |bets| ==> bets'[i].ticket == bets[i].ticket
    requires Find(bets, key).Some? ==>
      var i := Find(bets, key).value;
      && (bets[i].status.Failed? ==> bets'[i].status.Failed?)
      && added == if bets'[i].status.Failed? && !bets[i].status.Failed? then [(StakeReleased(PlacementFailed), bets[i].ticket.stake)] else []
    requires Find(bets, key).None? ==>
      if |bets'| > |bets| && bets'[|bets|].ticket.key == key then
        !bets'[|bets|].status.Failed? && added == [(StakeReserved, -bets'[|bets|].ticket.stake)]
      else added == []
    ensures PlacementTrailOf(bets', key) == PlacementTrailOf(bets, key) + added
  {
    FindAcross(bets, bets', key);
    if Find(bets, key).Some? {
      var i := Find(bets, key).value;
      FindIs(bets', i);
    }
  }

  /** The step changes the row of this key exactly as it changes the key's trail. */
  lemma BetsTrailStep(w: World, l: Label, key: Key)
    requires Inv(w)
    ensures PlacementTrailOf(Step(w, l).db.bets, key) == PlacementTrailOf(w.db.bets, key) + NewPlacement(w, l, key)
  {
    StepKeepsBets(w, l);
    TicketsStay(w, l);
    if Find(w.db.bets, key).Some? {
      KnownKeyStep(w, l, key);
    } else {
      UnknownKeyStep(w, l, key);
    }
    TrailOfChange(w.db.bets, Step(w, l).db.bets, key, NewPlacement(w, l, key));
  }

  lemma TicketsStay(w: World, l: Label)
    ensures |w.db.bets| <= |Step(w, l).db.bets| <= |w.db.bets| + 1
    ensures forall i :: 0 <= i < |w.db.bets| ==> Step(w, l).db.bets[i].ticket == w.db.bets[i].ticket
  {
    StepEvolves(w, l);
    assert forall i :: 0 <= i < |w.db.bets| ==> Evolves(w.db.bets[i], Step(w, l).db.bets[i]);
  }

  lemma KnownKeyStep(w: World, l: Label, key: Key)
    requires Inv(w) && Find(w.db.bets, key).Some?
    ensures var i := Find(w.db.bets, key).value;
            var before, after := w.db.bets[i], Step(w, l).db.bets[i];
            && after.ticket == before.ticket
            && (before.status.Failed? ==> after.status.Failed?)
            && NewPlacement(w, l, key)
               == if after.status.Failed? && !before.status.Failed? then [(StakeReleased(PlacementFailed), before.ticket.stake)] else []
  {
    var i := Find(w.db.bets, key).value;
    StepEvolves(w, l);
    WhoChangesRow(w, l, i);
    if l.CommitOutcome? && l.op in w.ops && w.ops[l.op].Answered? {
      assert SoundOp(w.db, w.calls, w.ops[l.op]);
      FindIs(w.db.bets, w.ops[l.op].id);
      FindIs(w.db.bets, i);
    } else {
      KnownKeyNotReserved(w, l, key);
    }
  }

  lemma KnownKeyNotReserved(w: World, l: Label, key: Key)
    requires Inv(w) && Find(w.db.bets, key).Some?
    ensures NewPlacement(w, l, key) != [] ==> l.CommitOutcome? && l.op in w.ops && w.ops[l.op].Answered? && w.ops[l.op].answer.Refused?
  {
  }

  lemma UnknownKeyStep(w: World, l: Label, key: Key)
    requires Inv(w) && Find(w.db.bets, key).None?
    ensures var bets, bets' := w.db.bets, Step(w, l).db.bets;
            if |bets'| > |bets| && bets'[|bets|].ticket.key == key then
              !bets'[|bets|].status.Failed? && NewPlacement(w, l, key) == [(StakeReserved, -bets'[|bets|].ticket.stake)]
            else NewPlacement(w, l, key) == []
  {
    if l.CommitOutcome? && l.op in w.ops && w.ops[l.op].Answered? {
      assert SoundOp(w.db, w.calls, w.ops[l.op]);
    }
  }

  lemma StepKeepsTrail(w: World, l: Label, key: Key)
    requires Inv(w) && PlacementTrail(w.db.ledger, key) == PlacementTrailOf(w.db.bets, key)
    ensures PlacementTrail(Step(w, l).db.ledger, key) == PlacementTrailOf(Step(w, l).db.bets, key)
  {
    TrailStep(w, l, key);
    BetsTrailStep(w, l, key);
  }

  /** In every run, each bet has exactly one reservation of its stake, and a placement-failure release of the same
      stake exactly when it is failed; keys without a bet have neither. */
  lemma {:induction false} EveryBetIsReservedOnce(ls: seq<Label>, key: Key)
    ensures PlacementTrail(Run(EMPTY, ls).db.ledger, key) == PlacementTrailOf(Run(EMPTY, ls).db.bets, key)
  {
    if ls != [] {
      EveryBetIsReservedOnce(ls[..|ls| - 1], key);
      ReachableIsSound(ls[..|ls| - 1]);
      StepKeepsTrail(Run(EMPTY, ls[..|ls| - 1]), ls[|ls| - 1], key);
    }
  }

  // ---- calls to the book ----

  /** The book is called at most once per idempotency key, whatever is retried, duplicated or crashed. */
  lemma BookCalledAtMostOnce(ls: seq<Label>, i: nat, j: nat)
    requires i < j < |Run(EMPTY, ls).calls|
    ensures Run(EMPTY, ls).calls[i].ticket.key != Run(EMPTY, ls).calls[j].ticket.key
  {
    ReachableIsSound(ls);
  }

  lemma CallerHolds(w: World, l: Label) returns (op: Op)
    requires Inv(w) && Step(w, l).calls != w.calls
    ensures op.Holding? && op.id < |w.db.bets| && w.db.bets[op.id].ticket == op.ticket && w.db.bets[op.id].status.Pending?
    ensures |Step(w, l).calls| == |w.calls| + 1 && Step(w, l).calls[|w.calls|].ticket == op.ticket
  {
    op := w.ops[l.op];
    assert SoundOp(w.db, w.calls, op);
  }

  /** When the book is called, that very ticket's bet is already committed as pending, with its stake reserved
      and not released. */
  lemma CallFollowsReservation(ls: seq<Label>, l: Label)
    requires Step(Run(EMPTY, ls), l).calls != Run(EMPTY, ls).calls
    ensures var w := Run(EMPTY, ls); var call := Step(w, l).calls[|w.calls|];
            && |Step(w, l).calls| == |w.calls| + 1
            && (exists id :: 0 <= id < |w.db.bets| && w.db.bets[id].ticket == call.ticket && w.db.bets[id].status.Pending?)
            && PlacementTrail(w.db.ledger, call.ticket.key) == [(StakeReserved, -call.ticket.stake)]
  {
    var w := Run(EMPTY, ls);
    ReachableIsSound(ls);
    var op := CallerHolds(w, l);
    EveryBetIsReservedOnce(ls, op.ticket.key);
    FindIs(w.db.bets, op.id);
  }

  /** The key has its bet, and no operation is about to call the book for it. */
  ghost predicate Abandoned(w: World, key: Key) {
    && (exists i :: 0 <= i < |w.db.bets| && w.db.bets[i].ticket.key == key)
    && forall o :: o in w.ops ==> !(w.ops[o].Holding? && w.ops[o].ticket.key == key)
  }

  lemma AbandonedStays(w: World, l: Label, key: Key)
    requires Abandoned(w, key)
    ensures Abandoned(Step(w, l), key)
    ensures Step(w, l).calls == w.calls || Step(w, l).calls[|w.calls|].ticket.key != key
  {
    var i :| 0 <= i < |w.db.bets| && w.db.bets[i].ticket.key == key;
    StepEvolves(w, l);
    assert Evolves(w.db.bets[i], Step(w, l).db.bets[i]);
  }

  /** Once a key's bet exists and its holder is gone, no retry, crash or new caller ever reaches the book with it. */
  lemma {:induction false} AbandonedKeyNeverCalled(w: World, ls: seq<Label>, key: Key)
    requires Abandoned(w, key)
    ensures Abandoned(Run(w, ls), key)
    ensures |w.calls| <= |Run(w, ls).calls|
    ensures forall i :: |w.calls| <= i < |Run(w, ls).calls| ==> Run(w, ls).calls[i].ticket.key != key
  {
    if ls != [] {
      var n := |ls| - 1;
      AbandonedKeyNeverCalled(w, ls[..n], key);
      AbandonedStays(Run(w, ls[..n]), ls[n], key);
      StepEvolves(Run(w, ls[..n]), ls[n]);
    }
  }

  /** A failed bet's key is abandoned for good: the unique key refuses every retry before the book is reached. */
  lemma FailedKeyIsAbandoned(ls: seq<Label>, i: nat)
    requires i < |Run(EMPTY, ls).db.bets| && Run(EMPTY, ls).db.bets[i].status.Failed?
    ensures Abandoned(Run(EMPTY, ls), Run(EMPTY, ls).db.bets[i].ticket.key)
  {
    var w := Run(EMPTY, ls);
    ReachableIsSound(ls);
    forall o | o in w.ops && w.ops[o].Holding?
      ensures w.ops[o].ticket.key != w.db.bets[i].ticket.key
    {
      assert SoundOp(w.db, w.calls, w.ops[o]);
      FindIs(w.db.bets, i);
      FindIs(w.db.bets, w.ops[o].id);
    }
  }

  /** A wager the book confirmed is never failed or released, and one it refused is never on the books. */
  lemma AnswerDecidesBet(ls: seq<Label>, i: nat, c: nat)
    requires var w := Run(EMPTY, ls); i < |w.db.bets| && c < |w.calls| && w.calls[c].ticket.key == w.db.bets[i].ticket.key
    ensures var w := Run(EMPTY, ls); var bet, call := w.db.bets[i], w.calls[c];
            && call.ticket == bet.ticket && !bet.manual
            && (call.answer.Confirmed? ==> !bet.status.Failed?)
            && (call.answer.Confirmed? && !bet.status.Pending? ==> bet.externalId == Some(call.answer.externalId))
            && (call.answer.Refused? ==> bet.status.Pending? || bet.status.Failed?)
  {
    var w := Run(EMPTY, ls);
    ReachableIsSound(ls);
    var id :| 0 <= id < |w.db.bets| && w.db.bets[id].ticket == w.calls[c].ticket && !w.db.bets[id].manual;
    FindIs(w.db.bets, i);
    FindIs(w.db.bets, id);
    assert id == i;
    assert SoundOutcome(w.db.bets[i], w.calls);
    OnlyCallOf(w, c);
  }

  lemma OnlyCallOf(w: World, c: nat)
    requires Inv(w) && c < |w.calls|
    ensures forall answer :: Call(w.calls[c].ticket, answer) in w.calls ==> answer == w.calls[c].answer
  {
    forall answer | Call(w.calls[c].ticket, answer) in w.calls
      ensures answer == w.calls[c].answer
    {
      var d :| 0 <= d < |w.calls| && w.calls[d] == Call(w.calls[c].ticket, answer);
      assert d == c;
    }
  }
}
