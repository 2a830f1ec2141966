/** Money is conserved: the ledger balance is deposits plus settled profit less stakes still out,
    except for what closings commit on a bet that is no longer placed. */
module Conservation {
  import opened Wrappers
  import opened Odds
  import opened Sizing
  import opened Ledger
  import opened Lifecycle
  import opened ExactlyOnce

  /** How far the balance is from deposits plus settled profit less open stakes. */
  function Gap(db: Db): int {
    Balance(db.ledger) - (Deposits(db.ledger) + NetPnl(db.bets) - OpenStakes(db.bets))
  }

  /** A closing about to commit on a bet that is not placed any more (or, unguarded, not placed yet). */
  predicate Stale(w: World, l: Label) {
    && l.CommitClose? && l.op in w.ops && w.ops[l.op].Closing? && w.ops[l.op].row.ticket.odds != 0
    && !(w.ops[l.op].id < |w.db.bets| && w.db.bets[w.ops[l.op].id].status.Placed?)
  }

  /** What a stale closing credits: its ledger entry is written although its update matches no row. */
  function StaleCredit(w: World, l: Label): int {
    if Stale(w, l) then ClosingEntry(w.ops[l.op].row.ticket, w.ops[l.op].closure, l.now).amount else 0
  }

  /** All stale credits of a run. */
  function Drift(w: World, ls: seq<Label>): int {
    if ls == [] then 0
    else Drift(w, ls[..|ls| - 1]) + StaleCredit(Run(w, ls[..|ls| - 1]), ls[|ls| - 1])
  }

  lemma LedgerAppend(ledger: seq<Entry>, e: Entry)
    ensures Balance(ledger + [e]) == Balance(ledger) + e.amount
    ensures Deposits(ledger + [e]) == Deposits(ledger) + (if e.kind.Deposit? then e.amount else 0)
  {
    assert (ledger + [e])[..|ledger|] == ledger;
  }

  lemma BetsAppend(bets: seq<Bet>, b: Bet)
    ensures NetPnl(bets + [b]) == NetPnl(bets) + NetOf(b)
    ensures OpenStakes(bets + [b]) == OpenStakes(bets) + OpenOf(b)
  {
    assert (bets + [b])[..|bets|] == bets;
  }

  lemma {:induction false} BetsUpdate(bets: seq<Bet>, i: nat, b: Bet)
    requires i < |bets|
    ensures NetPnl(bets[i := b]) == NetPnl(bets) - NetOf(bets[i]) + NetOf(b)
    ensures OpenStakes(bets[i := b]) == OpenStakes(bets) - OpenOf(bets[i]) + OpenOf(b)
  {
    var n := |bets| - 1;
    if i == n {
      assert bets[i := b][..n] == bets[..n];
    } else {
      assert bets[i := b][..n] == bets[..n][i := b];
      BetsUpdate(bets[..n], i, b);
    }
  }

  lemma ReserveKeepsGap(db: Db, ticket: Ticket, status: Status, manual: bool, now: int)
    requires status.Pending? || status.Placed?
    requires Reserve(db, ticket, status, manual, now).Some?
    ensures Gap(Reserve(db, ticket, status, manual, now).value) == Gap(db)
  {
    BetsAppend(db.bets, Bet(ticket, manual, status, None, None, None));
    LedgerAppend(db.ledger, Entry(StakeReserved, -ticket.stake, ForBet(ticket.key), now));
  }

  lemma OutcomeKeepsGap(db: Db, id: nat, ticket: Ticket, externalId: string, now: int)
    requires id < |db.bets| && db.bets[id].status.Pending? && db.bets[id].ticket == ticket
    ensures Gap(MarkPlaced(db, id, externalId)) == Gap(db)
    ensures Gap(MarkFailed(db, id, ticket, now)) == Gap(db)
  {
    BetsUpdate(db.bets, id, db.bets[id].(status := Placed, externalId := Some(externalId)));
    BetsUpdate(db.bets, id, db.bets[id].(status := Failed));
    LedgerAppend(db.ledger, Entry(StakeReleased(PlacementFailed), ticket.stake, ForBet(ticket.key), now));
  }

  lemma CloseMovesGap(db: Db, id: nat, ticket: Ticket, closure: Closure, now: int)
    requires ticket.odds != 0 && id < |db.bets| && db.bets[id].ticket == ticket
    ensures Gap(Close(db, id, ticket, closure, now))
         == Gap(db) + (if db.bets[id].status.Placed? then 0 else ClosingEntry(ticket, closure, now).amount)
  {
    LedgerAppend(db.ledger, ClosingEntry(ticket, closure, now));
    if db.bets[id].status.Placed? {
      BetsUpdate(db.bets, id, ClosedBet(db.bets[id], ticket, closure));
    }
  }

  /** Every step moves the gap by exactly its stale credit. */
  lemma StepMovesGap(w: World, l: Label)
    requires Inv(w)
    ensures Gap(Step(w, l).db) == Gap(w.db) + StaleCredit(w, l)
  {
    if Actor(l).Some? && l.op in w.ops {
      assert SoundOp(w.db, w.calls, w.ops[l.op]);
    }
    match l
    case CommitReserve(op, now) =>
      if op in w.ops && w.ops[op].Cleared? && Reserve(w.db, w.ops[op].ticket, Pending, false, now).Some? {
        ReserveKeepsGap(w.db, w.ops[op].ticket, Pending, false, now);
      }
    case CreateManual(ticket, now) =>
      if Reserve(w.db, ticket, Placed, true, now).Some? {
        ReserveKeepsGap(w.db, ticket, Placed, true, now);
      }
    case CommitOutcome(op, now) =>
      if op in w.ops && w.ops[op].Answered? {
        var externalId := if w.ops[op].answer.Confirmed? then w.ops[op].answer.externalId else "";
        OutcomeKeepsGap(w.db, w.ops[op].id, w.ops[op].ticket, externalId, now);
      }
    case CommitClose(op, now) =>
      if op in w.ops && w.ops[op].Closing? && w.ops[op].row.ticket.odds != 0 {
        CloseMovesGap(w.db, w.ops[op].id, w.ops[op].row.ticket, w.ops[op].closure, now);
      }
    case AddDeposit(dollars, now) =>
      LedgerAppend(w.db.ledger, Entry(Deposit, Cents(dollars), Manual, now));
    case _ =>
  }

  /** For every run: balance = deposits + settled profit - open stakes + stale credits. */
  lemma {:induction false} BalanceIsAccountedFor(ls: seq<Label>)
    ensures var db := Run(EMPTY, ls).db;
            Balance(db.ledger) == Deposits(db.ledger) + NetPnl(db.bets) - OpenStakes(db.bets) + Drift(EMPTY, ls)
  {
    if ls != [] {
      BalanceIsAccountedFor(ls[..|ls| - 1]);
      ReachableIsSound(ls[..|ls| - 1]);
      StepMovesGap(Run(EMPTY, ls[..|ls| - 1]), ls[|ls| - 1]);
    }
  }

  /** A stale closing credits money unless it settles a loss. */
  lemma StaleCreditSign(w: World, l: Label)
    requires Inv(w)
    ensures StaleCredit(w, l) >= 0
    ensures StaleCredit(w, l) == 0 <==> Harmless(w, l)
  {
    if Stale(w, l) {
      assert SoundOp(w.db, w.calls, w.ops[l.op]);
      var ticket := w.ops[l.op].row.ticket;
      WinningsNearest(ticket.stake, ticket.odds);
    }
  }

  /** The step closes nothing stale, unless it settles a loss. */
  predicate Harmless(w: World, l: Label) {
    !Stale(w, l) || w.ops[l.op].closure == Settle(Loss)
  }

  /** Step `i` of the run is harmless where it happens. */
  predicate HarmlessAt(ls: seq<Label>, i: nat)
    requires i < |ls|
  {
    Harmless(Run(EMPTY, ls[..i]), ls[i])
  }

  ghost predicate NothingStale(ls: seq<Label>) {
    forall i :: 0 <= i < |ls| ==> HarmlessAt(ls, i)
  }

  lemma NothingStaleLonger(ls: seq<Label>, n: nat)
    requires n + 1 == |ls|
    ensures NothingStale(ls) <==> NothingStale(ls[..n]) && HarmlessAt(ls, n)
  {
    forall i | 0 <= i < n
      ensures HarmlessAt(ls[..n], i) == HarmlessAt(ls, i)
    {
      assert ls[..n][..i] == ls[..i];
    }
  }

  lemma {:induction false} DriftIsStaleness(ls: seq<Label>)
    ensures Drift(EMPTY, ls) >= 0
    ensures Drift(EMPTY, ls) == 0 <==> NothingStale(ls)
  {
    if ls != [] {
      var n := |ls| - 1;
      DriftIsStaleness(ls[..n]);
      ReachableIsSound(ls[..n]);
      StaleCreditSign(Run(EMPTY, ls[..n]), ls[n]);
      NothingStaleLonger(ls, n);
    }
  }

  /** The books balance exactly when every closing that commits finds its bet still placed, or settles a loss;
      otherwise the ledger holds too much, never too little. */
  lemma BooksBalanceIff(ls: seq<Label>)
    ensures var db := Run(EMPTY, ls).db;
            && Balance(db.ledger) >= Deposits(db.ledger) + NetPnl(db.bets) - OpenStakes(db.bets)
            && (Balance(db.ledger) == Deposits(db.ledger) + NetPnl(db.bets) - OpenStakes(db.bets) <==> NothingStale(ls))
  {
    BalanceIsAccountedFor(ls);
    DriftIsStaleness(ls);
  }

  // ---- one closing per bet is enough ----

  predicate Closes(w: World, l: Label, id: nat) {
    l.CommitClose? && l.op in w.ops && w.ops[l.op].Closing? && w.ops[l.op].id == id
  }

  /** No bet has two committed closings. */
  ghost predicate OneClosingPerBet(ls: seq<Label>) {
    forall i, j, id :: 0 <= i < j < |ls| && Closes(Run(EMPTY, ls[..i]), ls[i], id) ==> !Closes(Run(EMPTY, ls[..j]), ls[j], id)
  }

  ghost predicate GuardedReads(ls: seq<Label>) {
    forall i :: 0 <= i < |ls| && ls[i].ReadToClose? ==> ls[i].guarded
  }

  /** A closing of this bet has committed. */
  ghost predicate ClosedIn(ls: seq<Label>, id: nat) {
    exists i :: 0 <= i < |ls| && Closes(Run(EMPTY, ls[..i]), ls[i], id)
  }

  lemma ClosedInGrows(ls: seq<Label>, l: Label, id: nat)
    requires ClosedIn(ls, id) || Closes(Run(EMPTY, ls), l, id)
    ensures ClosedIn(ls + [l], id)
  {
    var all := ls + [l];
    assert all[..|ls|] == ls && all[|ls|] == l;
    if ClosedIn(ls, id) {
      var i :| 0 <= i < |ls| && Closes(Run(EMPTY, ls[..i]), ls[i], id);
      assert all[..i] == ls[..i] && all[i] == ls[i];
    }
  }

  /** Every row read for closing is still placed, or was closed since by a commit of this run. */
  ghost predicate ReadsFresh(ls: seq<Label>) {
    var w := Run(EMPTY, ls);
    forall o :: o in w.ops && w.ops[o].Closing? ==>
      w.ops[o].id < |w.db.bets| && (w.db.bets[w.ops[o].id].status.Placed? || ClosedIn(ls, w.ops[o].id))
  }

  lemma PlacedUntilClosed(w: World, l: Label, id: nat)
    requires Inv(w) && id < |w.db.bets| && w.db.bets[id].status.Placed?
    ensures id < |Step(w, l).db.bets|
    ensures Step(w, l).db.bets[id].status.Placed? || Closes(w, l, id)
  {
    StepEvolves(w, l);
    if l.CommitOutcome? && l.op in w.ops {
      assert SoundOp(w.db, w.calls, w.ops[l.op]);
    }
  }

  lemma NewClosingIsRead(w: World, l: Label, o: OpId)
    requires o in Step(w, l).ops && Step(w, l).ops[o].Closing? && !(o in w.ops && w.ops[o] == Step(w, l).ops[o])
    requires l.ReadToClose? ==> l.guarded
    ensures var id := Step(w, l).ops[o].id; id < |Step(w, l).db.bets| && Step(w, l).db.bets[id].status.Placed?
  {
  }

  lemma StepKeepsReadsFresh(ls: seq<Label>, l: Label)
    requires ReadsFresh(ls) && (l.ReadToClose? ==> l.guarded)
    ensures ReadsFresh(ls + [l])
  {
    var w := Run(EMPTY, ls);
    var w' := Step(w, l);
    assert (ls + [l])[..|ls|] == ls;
    assert Run(EMPTY, ls + [l]) == w';
    ReachableIsSound(ls);
    StepEvolves(w, l);
    forall o | o in w'.ops && w'.ops[o].Closing?
      ensures w'.ops[o].id < |w'.db.bets| && (w'.db.bets[w'.ops[o].id].status.Placed? || ClosedIn(ls + [l], w'.ops[o].id))
    {
      FreshOneStep(ls, l, o);
    }
  }

  lemma FreshOneStep(ls: seq<Label>, l: Label, o: OpId)
    requires ReadsFresh(ls) && (l.ReadToClose? ==> l.guarded) && Inv(Run(EMPTY, ls))
    requires var w' := Step(Run(EMPTY, ls), l); o in w'.ops && w'.ops[o].Closing?
    ensures var w' := Step(Run(EMPTY, ls), l);
            w'.ops[o].id < |w'.db.bets| && (w'.db.bets[w'.ops[o].id].status.Placed? || ClosedIn(ls + [l], w'.ops[o].id))
  {
    var w := Run(EMPTY, ls);
    if o in w.ops && w.ops[o] == Step(w, l).ops[o] {
      var id := w.ops[o].id;
      StepEvolves(w, l);
      if w.db.bets[id].status.Placed? {
        PlacedUntilClosed(w, l, id);
      }
      if ClosedIn(ls, id) || Closes(w, l, id) {
        ClosedInGrows(ls, l, id);
      }
    } else {
      NewClosingIsRead(w, l, o);
    }
  }

  lemma {:induction false} GuardedReadsStayFresh(ls: seq<Label>)
    requires GuardedReads(ls)
    ensures ReadsFresh(ls)
  {
    if ls != [] {
      var n := |ls| - 1;
      GuardedReadsStayFresh(ls[..n]);
      StepKeepsReadsFresh(ls[..n], ls[n]);
      assert ls == ls[..n] + [ls[n]];
    }
  }

  /** With the handlers' status check on every read, at most one committed closing per bet keeps the books balanced. */
  lemma OneClosingBalances(ls: seq<Label>)
    requires GuardedReads(ls) && OneClosingPerBet(ls)
    ensures var db := Run(EMPTY, ls).db;
            Balance(db.ledger) == Deposits(db.ledger) + NetPnl(db.bets) - OpenStakes(db.bets)
  {
    forall i | 0 <= i < |ls|
      ensures HarmlessAt(ls, i)
    {
      FreshCommitIsNotStale(ls, i);
    }
    BooksBalanceIff(ls);
  }

  lemma FreshCommitIsNotStale(ls: seq<Label>, i: nat)
    requires GuardedReads(ls) && OneClosingPerBet(ls) && i < |ls|
    ensures !Stale(Run(EMPTY, ls[..i]), ls[i])
  {
    var w := Run(EMPTY, ls[..i]);
    GuardedReadsStayFresh(ls[..i]);
    if Stale(w, ls[i]) {
      var id := w.ops[ls[i].op].id;
      var j :| 0 <= j < |ls[..i]| && Closes(Run(EMPTY, ls[..i][..j]), ls[..i][j], id);
      assert ls[..i][..j] == ls[..j] && ls[..i][j] == ls[j];
      assert Closes(Run(EMPTY, ls[..i]), ls[i], id);
    }
  }
}
