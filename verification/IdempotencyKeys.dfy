/** Idempotency keys: internal/execution/idempotency.go and internal/worker/placement_job.go. */
module IdempotencyKeys {
  import opened Wrappers
  import opened Ledger
  import Odds
  import Text

  // ---- "%d" ----

  function Digits(n: nat): (s: string)
    ensures s != "" && forall i :: 0 <= i < |s| ==> '0' <= s[i] <= '9'
  {
    var d := ('0' as int + n % 10) as char;
    if n < 10 then [d] else Digits(n / 10) + [d]
  }

  function Print(n: int): (s: string)
    ensures s != "" && ':' !in s && (s[0] == '-' || '0' <= s[0] <= '9')
  {
    if n < 0 then "-" + Digits(-n) else Digits(n)
  }

  function Value(s: string): int {
    if s == "" then 0 else Value(s[..|s| - 1]) * 10 + (s[|s| - 1] as int - '0' as int)
  }

  function ParseInt(s: string): int {
    if s != "" && s[0] == '-' then -Value(s[1..]) else Value(s)
  }

  lemma {:induction false} DigitsParse(n: nat)
    ensures Value(Digits(n)) == n
  {
    var s := Digits(n);
    if n < 10 {
      assert s[..|s| - 1] == "";
    } else {
      assert s[..|s| - 1] == Digits(n / 10);
      DigitsParse(n / 10);
    }
  }

  /** A printed number parses back. */
  lemma PrintParses(n: int)
    ensures ParseInt(Print(n)) == n
  {
    if n < 0 {
      DigitsParse(-n);
      assert Print(n)[1..] == Digits(-n);
    } else {
      DigitsParse(n);
      assert Print(n)[0] != '-';
    }
  }

  // ---- splitting at colons ----

  /** Up to the first colon. */
  function Head(s: string): string {
    if s == "" || s[0] == ':' then "" else [s[0]] + Head(s[1..])
  }

  /** Past the first colon. */
  function Rest(s: string): string {
    if s == "" then "" else if s[0] == ':' then s[1..] else Rest(s[1..])
  }

  /** Past the last colon. */
  function Tail(s: string): string {
    if s == "" || s[|s| - 1] == ':' then "" else Tail(s[..|s| - 1]) + [s[|s| - 1]]
  }

  /** Up to the last colon. */
  function Init(s: string): string {
    if s == "" then "" else if s[|s| - 1] == ':' then s[..|s| - 1] else Init(s[..|s| - 1])
  }

  lemma {:induction false} SplitFirst(a: string, b: string)
    requires ':' !in a
    ensures Head(a + ":" + b) == a && Rest(a + ":" + b) == b
  {
    if a == "" {
      assert a + ":" + b == ":" + b;
    } else {
      assert (a + ":" + b)[1..] == a[1..] + ":" + b;
      SplitFirst(a[1..], b);
    }
  }

  lemma {:induction false} SplitLast(a: string, b: string)
    requires ':' !in b
    ensures Tail(a + ":" + b) == b && Init(a + ":" + b) == a
  {
    var s := a + ":" + b;
    if b == "" {
      assert s[|s| - 1] == ':' && s[..|s| - 1] == a;
    } else {
      assert s[..|s| - 1] == a + ":" + b[..|b| - 1];
      SplitLast(a, b[..|b| - 1]);
    }
  }

  // ---- the keys ----

  /** Unix seconds of the start of the minute. */
  function MinuteBucket(generatedAt: int): int {
    generatedAt - generatedAt % 60
  }

  /** `game:market:book:minute`. */
  function ManualKey(gameId: int, market: string, book: string, generatedAt: int): Key {
    Print(gameId) + ":" + market + ":" + book + ":" + Print(MinuteBucket(generatedAt))
  }

  /** `auto-placement:snapshot:game:market:book`. */
  function AutoKey(snapshotId: int, gameId: int, market: string, book: string): Key {
    "auto-placement:" + Print(snapshotId) + ":" + Print(gameId) + ":" + Text.Normalize(market) + ":" + Text.Normalize(book)
  }

  datatype ManualParts = ManualParts(gameId: int, market: string, book: string, bucket: int)

  function ParseManual(key: Key): ManualParts {
    var middle := Init(Rest(key));
    ManualParts(ParseInt(Head(key)), Head(middle), Rest(middle), ParseInt(Tail(key)))
  }

  lemma ManualKeyPieces(gameId: int, market: string, book: string, generatedAt: int)
    ensures var key := ManualKey(gameId, market, book, generatedAt);
            && Head(key) == Print(gameId)
            && Init(Rest(key)) == market + ":" + book
            && Tail(key) == Print(MinuteBucket(generatedAt))
  {
    var g, t := Print(gameId), Print(MinuteBucket(generatedAt));
    var key := ManualKey(gameId, market, book, generatedAt);
    assert key == g + ":" + (market + ":" + book + ":" + t);
    SplitFirst(g, market + ":" + book + ":" + t);
    assert market + ":" + book + ":" + t == (market + ":" + book) + ":" + t;
    SplitLast(market + ":" + book, t);
    assert key == (g + ":" + market + ":" + book) + ":" + t;
    SplitLast(g + ":" + market + ":" + book, t);
  }

  /** With a colon-free market, a manual key parses back to the game, market, book and minute it was made from. */
  lemma ManualKeyParses(gameId: int, market: string, book: string, generatedAt: int)
    requires ':' !in market
    ensures ParseManual(ManualKey(gameId, market, book, generatedAt))
         == ManualParts(gameId, market, book, MinuteBucket(generatedAt))
  {
    ManualKeyPieces(gameId, market, book, generatedAt);
    PrintParses(gameId);
    PrintParses(MinuteBucket(generatedAt));
    SplitFirst(market, book);
  }

  lemma SameMinute(t: int, u: int)
    ensures MinuteBucket(t) == MinuteBucket(u) <==> t / 60 == u / 60
  {
  }

  lemma KeyFromPieces(gameId: int, market: string, book: string, generatedAt: int)
    ensures ManualKey(gameId, market, book, generatedAt)
         == Print(gameId) + ":" + (market + ":" + book) + ":" + Print(MinuteBucket(generatedAt))
  {
    var g, t := Print(gameId), Print(MinuteBucket(generatedAt));
    assert g + ":" + market + ":" + book + ":" + t == g + ":" + (market + ":" + book) + ":" + t;
  }

  lemma EqualKeysEqualPieces(g1: int, m1: string, b1: string, t1: int, g2: int, m2: string, b2: string, t2: int)
    ensures ManualKey(g1, m1, b1, t1) == ManualKey(g2, m2, b2, t2) ==>
      g1 == g2 && MinuteBucket(t1) == MinuteBucket(t2) && m1 + ":" + b1 == m2 + ":" + b2
  {
    ManualKeyPieces(g1, m1, b1, t1);
    ManualKeyPieces(g2, m2, b2, t2);
    PrintParses(g1);
    PrintParses(g2);
    PrintParses(MinuteBucket(t1));
    PrintParses(MinuteBucket(t2));
  }

  /** Two manual keys collide exactly when game, minute and the joined market:book agree. */
  lemma ManualKeysCollideIff(g1: int, m1: string, b1: string, t1: int, g2: int, m2: string, b2: string, t2: int)
    ensures ManualKey(g1, m1, b1, t1) == ManualKey(g2, m2, b2, t2)
       <==> g1 == g2 && t1 / 60 == t2 / 60 && m1 + ":" + b1 == m2 + ":" + b2
  {
    SameMinute(t1, t2);
    if ManualKey(g1, m1, b1, t1) == ManualKey(g2, m2, b2, t2) {
      EqualKeysEqualPieces(g1, m1, b1, t1, g2, m2, b2, t2);
    } else {
      KeyFromPieces(g1, m1, b1, t1);
      KeyFromPieces(g2, m2, b2, t2);
    }
  }

  /** A colon in the market key makes two different requests share one key. */
  lemma ColonInMarketCollides()
    ensures ManualKey(1, "a:b", "c", 0) == ManualKey(1, "a", "b:c", 0)
  {
    assert "a:b" + ":" + "c" == "a" + ":" + "b:c";
    ManualKeysCollideIff(1, "a:b", "c", 0, 1, "a", "b:c", 0);
  }

  lemma AutoKeyPieces(snapshotId: int, gameId: int, market: string, book: string)
    ensures var key := AutoKey(snapshotId, gameId, market, book);
            && Head(key) == "auto-placement"
            && Head(Rest(key)) == Print(snapshotId)
            && Head(Rest(Rest(key))) == Print(gameId)
            && Rest(Rest(Rest(key))) == Text.Normalize(market) + ":" + Text.Normalize(book)
  {
    var s, g := Print(snapshotId), Print(gameId);
    var tail := Text.Normalize(market) + ":" + Text.Normalize(book);
    assert AutoKey(snapshotId, gameId, market, book) == "auto-placement" + ":" + (s + ":" + (g + ":" + tail));
    SplitFirst("auto-placement", s + ":" + (g + ":" + tail));
    SplitFirst(s, g + ":" + tail);
    SplitFirst(g, tail);
  }

  /** Auto keys are equal only for one snapshot and game, and never equal a manual key. */
  lemma AutoKeysSeparate(s1: int, g1: int, m1: string, b1: string, s2: int, g2: int, m2: string, b2: string, generatedAt: int)
    ensures AutoKey(s1, g1, m1, b1) == AutoKey(s2, g2, m2, b2) ==> s1 == s2 && g1 == g2
    ensures AutoKey(s1, g1, m1, b1) != ManualKey(g2, m2, b2, generatedAt)
  {
    AutoKeyPieces(s1, g1, m1, b1);
    AutoKeyPieces(s2, g2, m2, b2);
    ManualKeyPieces(g2, m2, b2, generatedAt);
    PrintParses(s1);
    PrintParses(s2);
    PrintParses(g1);
    PrintParses(g2);
    assert Print(g2)[0] != 'a';
  }

  // ---- the auto-placement job's input ----

  datatype Candidate = Candidate(
    snapshotId: int, gameId: int, sport: string, market: string, side: string, book: string,
    odds: int, stakeCents: int, model: real, marketProbability: real, edge: real)

  predicate Placeable(c: Candidate) {
    && c.snapshotId > 0 && c.gameId > 0
    && Text.Trim(c.sport) != "" && Text.Trim(c.market) != "" && Text.Trim(c.book) != ""
    && Text.Normalize(c.side) in {"home", "away"} && Odds.Valid(c.odds) && c.stakeCents > 0
    && 0.0 < c.model < 1.0 && 0.0 < c.marketProbability < 1.0 && c.edge >= 0.0
  }

  /** Exactly the placeable snapshots give a ticket; the bets table accepts it, under its own snapshot-scoped key. */
  function BuildInput(c: Candidate): (res: Result<Ticket>)
    ensures res.Ok? ==> Acceptable(res.value) && res.value.side in {"home", "away"}
                        && res.value.key == AutoKey(c.snapshotId, c.gameId, Text.Trim(c.market), Text.Trim(c.book))
                        && res.value.stake == c.stakeCents && res.value.odds == c.odds && res.value.gameId == c.gameId
    ensures res.Ok? ==> res.value.side == Text.Normalize(c.side) && res.value.market == Text.Trim(c.market) && res.value.sport == Text.Trim(c.sport)
    ensures res.Ok? <==> Placeable(c)
    ensures res.Ok? <==>
      && c.snapshotId > 0 && c.gameId > 0 && c.stakeCents > 0 && (c.odds <= -100 || c.odds >= 100) && c.edge >= 0.0
      && Text.Trim(c.sport) != "" && Text.Trim(c.market) != "" && Text.Trim(c.book) != "" && Text.Normalize(c.side) in {"home", "away"}
      && 0.0 < c.model < 1.0 && 0.0 < c.marketProbability < 1.0
  {
    var sport, market, book := Text.Trim(c.sport), Text.Trim(c.market), Text.Trim(c.book);
    var side := Text.Normalize(c.side);
    if c.snapshotId <= 0 then Err("snapshot_id must be > 0")
    else if c.gameId <= 0 then Err("game_id must be > 0")
    else if sport == "" || market == "" || book == "" then Err("required fields are empty")
    else if side != "home" && side != "away" then Err("recommended_side unsupported")
    else if !Odds.Valid(c.odds) then Err("best_american_odds is invalid")
    else if c.stakeCents <= 0 then Err("suggested_stake_cents must be > 0")
    else if c.model <= 0.0 || c.model >= 1.0 then Err("model_probability must be between 0 and 1")
    else if c.marketProbability <= 0.0 || c.marketProbability >= 1.0 then Err("market_probability must be between 0 and 1")
    else if c.edge < 0.0 then Err("edge must be >= 0")
    else Ok(Ticket(AutoKey(c.snapshotId, c.gameId, market, book), c.gameId, sport, market, side, c.odds, c.stakeCents))
  }

  /** Two snapshots never compete for one bet. */
  lemma SnapshotsGetTheirOwnKeys(a: Candidate, b: Candidate)
    requires a.snapshotId != b.snapshotId
    ensures BuildInput(a).Ok? && BuildInput(b).Ok? ==> BuildInput(a).value.key != BuildInput(b).value.key
  {
    AutoKeysSeparate(a.snapshotId, a.gameId, Text.Trim(a.market), Text.Trim(a.book),
                     b.snapshotId, b.gameId, Text.Trim(b.market), Text.Trim(b.book), 0);
  }
}
