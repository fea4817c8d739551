/** Coins and power pellets (CCollectible, CCoin, CPowerUp): an item fires its
    effect when the player's position compares equal to its own, and is marked
    collected afterwards, so each effect applies at most once. */
module Collectibles {
  import opened Positions
  import opened GameState

  /** The two collectible subclasses. */
  datatype Kind = Coin | Pellet

  /** A collectible as a value: its kind, its position and its flag. */
  datatype Item = Item(kind: Kind, pos: Pos, collected: bool)

  /** The fields of the game state an effect may change. */
  datatype Counters = Counters(coinCount: int, score: int, mode: GameMode, powerUpRemaining: real)

  /** An item and the counters after one `update`. */
  datatype Outcome = Outcome(item: Item, counters: Counters)

  /** `doEffect`: `CCoin::doEffect` (one coin fewer, one point more) or
      `CPowerUp::doEffect` (powerup mode with a full timer), both skipped once
      the item is collected. */
  function Effect(kind: Kind, collected: bool, powerUpTime: real, s: Counters): (t: Counters)
    ensures collected ==> t == s
    ensures !collected && kind == Coin ==> t == s.(coinCount := s.coinCount - 1, score := s.score + 1)
    ensures !collected && kind == Pellet ==> t == s.(mode := PowerUp, powerUpRemaining := powerUpTime)
    ensures kind == Coin ==> t.score + t.coinCount == s.score + s.coinCount
    ensures kind == Pellet ==> t.score == s.score && t.coinCount == s.coinCount
  {
    if collected then s
    else
      match kind
      case Coin => s.(coinCount := s.coinCount - 1, score := s.score + 1)
      case Pellet => s.(mode := PowerUp, powerUpRemaining := powerUpTime)
  }

  /** `CCollectible::update` on values: on overlap the effect runs with the flag
      as it was, then the flag is set; otherwise nothing changes. */
  function Touch(item: Item, player: Pos, powerUpTime: real, s: Counters): (o: Outcome)
    ensures !PosEq(player, item.pos) ==> o == Outcome(item, s)
    ensures PosEq(player, item.pos) ==> o.item == item.(collected := true)
    ensures o.counters == if PosEq(player, item.pos) then Effect(item.kind, item.collected, powerUpTime, s) else s
  {
    if PosEq(player, item.pos) then Outcome(item.(collected := true), Effect(item.kind, item.collected, powerUpTime, s))
    else Outcome(item, s)
  }

  /** The older `CCoin::doEffect`: one coin fewer, no point. */
  function LegacyCoinEffect(collected: bool, s: Counters): (t: Counters)
    ensures t.score == s.score && t.mode == s.mode && t.powerUpRemaining == s.powerUpRemaining
    ensures t.coinCount == s.coinCount - (if collected then 0 else 1)
  {
    if collected then s else s.(coinCount := s.coinCount - 1)
  }

  /** The older coin effect is the current one without the point, so it does not
      keep `score + coinCount`. */
  lemma LegacyCoinEffectDropsThePoint(collected: bool, powerUpTime: real, s: Counters)
    ensures LegacyCoinEffect(collected, s) == Effect(Coin, collected, powerUpTime, s).(score := s.score)
    ensures !collected ==>
      LegacyCoinEffect(collected, s).score + LegacyCoinEffect(collected, s).coinCount == s.score + s.coinCount - 1
  {
  }

  /** Once collected, an item stays collected. */
  lemma TouchNeverResets(item: Item, player: Pos, powerUpTime: real, s: Counters)
    requires item.collected
    ensures Touch(item, player, powerUpTime, s) == Outcome(item, s)
  {
  }

  /** A second update at the same position changes nothing more: both effects are idempotent. */
  lemma TouchIsIdempotent(item: Item, player: Pos, powerUpTime: real, s: Counters)
    ensures var o := Touch(item, player, powerUpTime, s);
      Touch(o.item, player, powerUpTime, o.counters) == o
  {
  }

  /** The item and counters after the player has stood at each of `players` in turn. */
  function Run(item: Item, players: seq<Pos>, powerUpTime: real, s: Counters): (o: Outcome)
    ensures o.item.kind == item.kind && o.item.pos == item.pos
    decreases |players|
  {
    if players == [] then Outcome(item, s)
    else
      var first := Touch(item, players[0], powerUpTime, s);
      Run(first.item, players[1..], powerUpTime, first.counters)
  }

  /** Whether the player overlaps `pos` at some frame of the run. */
  predicate Visits(players: seq<Pos>, pos: Pos)
  {
    exists i | 0 <= i < |players| :: PosEq(players[i], pos)
  }

  /** Over any run, a coin is collected exactly when it was already or the
      player overlapped it, lowers `coinCount` by one at most (exactly when it
      was uncollected and overlapped), and keeps `score + coinCount`. */
  lemma {:induction false} CoinFiresAtMostOnce(item: Item, players: seq<Pos>, powerUpTime: real, s: Counters)
    requires item.kind == Coin
    ensures var o := Run(item, players, powerUpTime, s);
      o.item.collected == (item.collected || Visits(players, item.pos)) &&
      o.counters.coinCount == s.coinCount - (if !item.collected && Visits(players, item.pos) then 1 else 0) &&
      o.counters.score + o.counters.coinCount == s.score + s.coinCount &&
      o.counters.mode == s.mode && o.counters.powerUpRemaining == s.powerUpRemaining
    decreases |players|
  {
    if players != [] {
      var first := Touch(item, players[0], powerUpTime, s);
      CoinFiresAtMostOnce(first.item, players[1..], powerUpTime, first.counters);
      VisitsSplit(players, item.pos);
    }
  }

  /** Over any run, a pellet leaves the score and the coin counter alone, and
      is collected exactly when it was already or the player overlapped it. */
  lemma {:induction false} PelletKeepsScoreAndCoins(item: Item, players: seq<Pos>, powerUpTime: real, s: Counters)
    requires item.kind == Pellet
    ensures var o := Run(item, players, powerUpTime, s);
      o.item.collected == (item.collected || Visits(players, item.pos)) &&
      o.counters == if !item.collected && Visits(players, item.pos)
        then s.(mode := PowerUp, powerUpRemaining := powerUpTime) else s
    decreases |players|
  {
    if players != [] {
      var first := Touch(item, players[0], powerUpTime, s);
      PelletKeepsScoreAndCoins(first.item, players[1..], powerUpTime, first.counters);
      VisitsSplit(players, item.pos);
      if first.item.collected {
        RunOfCollectedIsIdle(first.item, players[1..], powerUpTime, first.counters);
      }
    }
  }

  /** A collected item is inert for the rest of the run. */
  lemma {:induction false} RunOfCollectedIsIdle(item: Item, players: seq<Pos>, powerUpTime: real, s: Counters)
    requires item.collected
    ensures Run(item, players, powerUpTime, s) == Outcome(item, s)
    decreases |players|
  {
    if players != [] {
      RunOfCollectedIsIdle(item, players[1..], powerUpTime, s);
    }
  }

  /** A run visits `pos` when its first frame overlaps it or the rest visits it. */
  lemma VisitsSplit(players: seq<Pos>, pos: Pos)
    requires players != []
    ensures Visits(players, pos) == (PosEq(players[0], pos) || Visits(players[1..], pos))
  {
    if Visits(players, pos) && !PosEq(players[0], pos) {
      var i :| 0 <= i < |players| && PosEq(players[i], pos);
      assert players[1..][i - 1] == players[i];
    }
    if Visits(players[1..], pos) {
      var i :| 0 <= i < |players[1..]| && PosEq(players[1..][i], pos);
      assert players[i + 1] == players[1..][i];
    }
  }

  /** The counters of a game state. */
  function CountersOf(g: GameState): Counters
    reads g
  {
    Counters(g.coinCount, g.score, g.gamemode, g.powerUpRemaining)
  }

  /** `CCollectible` with its two subclasses told apart by `kind`. */
  class Collectible {
    const kind: Kind
    const pos: Pos
    var collected: bool

    /** A fresh item is not collected. */
    constructor(kind: Kind, pos: Pos)
      ensures this.kind == kind && this.pos == pos && !collected
    {
      this.kind := kind;
      this.pos := pos;
      collected := false;
    }

    function AsItem(): Item
      reads this
    {
      Item(kind, pos, collected)
    }

    /** `doEffect` of the item's class, on the shared state. */
    method DoEffect(g: GameState)
      modifies g`coinCount, g`score, g`gamemode, g`powerUpRemaining
      ensures CountersOf(g) == Effect(kind, collected, g.powerUpTime, old(CountersOf(g)))
    {
      if kind == Coin {
        if !collected {
          g.coinCount := g.coinCount - 1;
          g.score := g.score + 1;
        }
      } else {
        if !collected {
          g.gamemode := PowerUp;
          g.powerUpRemaining := g.powerUpTime;
        }
      }
    }

    /** The older `CCoin::doEffect`: only the coin counter drops. */
    method LegacyDoEffect(g: GameState)
      requires kind == Coin
      modifies g`coinCount
      ensures CountersOf(g) == LegacyCoinEffect(collected, old(CountersOf(g)))
    {
      if !collected {
        g.coinCount := g.coinCount - 1;
      }
    }

    /** `CCollectible::update`: on overlap, the effect sees the flag unset the
        first time, and the flag is set after it. */
    method Update(g: GameState)
      modifies this`collected, g`coinCount, g`score, g`gamemode, g`powerUpRemaining
      ensures Outcome(AsItem(), CountersOf(g)) == Touch(old(AsItem()), g.playerPos, g.powerUpTime, old(CountersOf(g)))
    {
      if PosEq(g.playerPos, pos) {
        DoEffect(g);
        collected := true;
      }
    }
  }
}
