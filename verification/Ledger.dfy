/** Bets, the append-only bankroll ledger, and the transactions that change them
    (internal/store/bets.sql.go, internal/store/bankroll.sql.go, migrations/022_create_bets.up.sql). */
module Ledger {
  import opened Wrappers
  import opened Odds

  type Key = string

  datatype Status = Pending | Placed | Settled | Failed | Voided

  datatype GameResult = Win | Loss | Push

  datatype Release = PlacementFailed | BetVoided

  datatype EntryKind = Deposit | StakeReserved | StakeReleased(reason: Release) | Settlement(result: GameResult)

  datatype Reference = Manual | ForBet(key: Key)

  datatype Entry = Entry(kind: EntryKind, amount: int, ref: Reference, createdAt: int)

  /** What is asked of a book: the caller's input to a placement. */
  datatype Ticket = Ticket(
    key: Key, gameId: int, sport: string, market: string, side: string, odds: int, stake: int)

  datatype Bet = Bet(
    ticket: Ticket, manual: bool, status: Status,
    externalId: Option<string>, result: Option<GameResult>, payout: Option<int>)

  /** The two tables. A bet's id is its row position. */
  datatype Db = Db(bets: seq<Bet>, ledger: seq<Entry>)

  // ---- queries ----

  function Balance(ledger: seq<Entry>): int {
    if ledger == [] then 0 else Balance(ledger[..|ledger| - 1]) + ledger[|ledger| - 1].amount
  }

  function Deposits(ledger: seq<Entry>): int {
    if ledger == [] then 0
    else
      var last := ledger[|ledger| - 1];
      Deposits(ledger[..|ledger| - 1]) + (if last.kind.Deposit? then last.amount else 0)
  }

  /** The position of the bet with this key, if there is one. */
  function Find(bets: seq<Bet>, key: Key): (found: Option<nat>)
    ensures found.Some? ==> found.value < |bets| && bets[found.value].ticket.key == key
    ensures found.None? ==> forall i :: 0 <= i < |bets| ==> bets[i].ticket.key != key
  {
    if bets == [] then None
    else if bets[|bets| - 1].ticket.key == key then Some(|bets| - 1)
    else Find(bets[..|bets| - 1], key)
  }

  /** What a settled bet pays out, stake included. */
  function Payout(ticket: Ticket, result: GameResult): int
    requires ticket.odds != 0
  {
    match result
    case Win => ticket.stake + Winnings(ticket.stake, ticket.odds)
    case Push => ticket.stake
    case Loss => 0
  }

  function SettlementAmount(result: GameResult, stake: int, payout: int): int {
    match result
    case Win => payout
    case Push => stake
    case Loss => 0
  }

  /** A settled bet's contribution to the profit. */
  function NetOf(bet: Bet): int {
    if bet.status.Settled? then (if bet.payout.Some? then bet.payout.value else 0) - bet.ticket.stake else 0
  }

  /** The stake still out on a bet whose outcome is unknown. */
  function OpenOf(bet: Bet): int {
    if bet.status.Pending? || bet.status.Placed? then bet.ticket.stake else 0
  }

  /** GetBetPnLSummary's net: returned less staked, over settled bets. */
  function NetPnl(bets: seq<Bet>): int {
    if bets == [] then 0 else NetPnl(bets[..|bets| - 1]) + NetOf(bets[|bets| - 1])
  }

  function OpenStakes(bets: seq<Bet>): int {
    if bets == [] then 0 else OpenStakes(bets[..|bets| - 1]) + OpenOf(bets[|bets| - 1])
  }

  // ---- transactions ----

  /** The table's CHECK constraints. */
  predicate Acceptable(ticket: Ticket) {
    ticket.stake > 0 && Valid(ticket.odds) && ticket.side in {"home", "away", "over", "under"}
  }

  /** Inserts the bet and reserves its stake, or nothing: the idempotency key is unique. */
  function Reserve(db: Db, ticket: Ticket, status: Status, manual: bool, now: int): Option<Db> {
    if !Acceptable(ticket) || Find(db.bets, ticket.key).Some? then None
    else Some(Db(db.bets + [Bet(ticket, manual, status, None, None, None)],
                 db.ledger + [Entry(StakeReserved, -ticket.stake, ForBet(ticket.key), now)]))
  }

  function MarkPlaced(db: Db, id: nat, externalId: string): Db {
    if id < |db.bets| && db.bets[id].status.Pending? then
      db.(bets := db.bets[id := db.bets[id].(status := Placed, externalId := Some(externalId))])
    else db
  }

  /** The release is written whether or not the guarded update matched. */
  function MarkFailed(db: Db, id: nat, ticket: Ticket, now: int): Db {
    var bets := if id < |db.bets| && db.bets[id].status.Pending? then db.bets[id := db.bets[id].(status := Failed)] else db.bets;
    Db(bets, db.ledger + [Entry(StakeReleased(PlacementFailed), ticket.stake, ForBet(ticket.key), now)])
  }

  datatype Closure = Settle(result: GameResult) | Void

  /** What closing the bet read as `ticket` writes to the ledger. */
  function ClosingEntry(ticket: Ticket, closure: Closure, now: int): Entry
    requires ticket.odds != 0
  {
    match closure
    case Settle(result) =>
      Entry(Settlement(result), SettlementAmount(result, ticket.stake, Payout(ticket, result)), ForBet(ticket.key), now)
    case Void => Entry(StakeReleased(BetVoided), ticket.stake, ForBet(ticket.key), now)
  }

  function ClosedBet(bet: Bet, ticket: Ticket, closure: Closure): Bet
    requires ticket.odds != 0
  {
    match closure
    case Settle(result) => bet.(status := Settled, result := Some(result), payout := Some(Payout(ticket, result)))
    case Void => bet.(status := Voided)
  }

  /** The update matches only a placed bet; the ledger entry is written regardless. */
  function Close(db: Db, id: nat, ticket: Ticket, closure: Closure, now: int): Db
    requires ticket.odds != 0
  {
    var bets := if id < |db.bets| && db.bets[id].status.Placed? then db.bets[id := ClosedBet(db.bets[id], ticket, closure)] else db.bets;
    Db(bets, db.ledger + [ClosingEntry(ticket, closure, now)])
  }
}
