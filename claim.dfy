/**
 * ballsdex/packages/claim/cog.py: collector cards. A player who owns enough instances of a
 * ball may claim its bronze, silver or gold card; a periodic check takes back the cards
 * whose owner fell below the threshold.
 *
 * The instance table is a sequence of rows; a row belongs to the pair (ball, player) it
 * names, and a collector card is a row whose `special` is that tier's special. Each
 * tier's special is looked up by name and may be missing (`None`).
 */
module Claim {
  import opened Common
  import opened Models

  /** Python's `round(x)`: the nearest integer, ties to the even one. */
  function RoundHalfEven(x: real): (r: int)
    ensures -0.5 <= x - r as real <= 0.5
    ensures x - r as real == 0.5 || x - r as real == -0.5 ==> r % 2 == 0
  {
    var f := x.Floor;
    var d := x - f as real;
    if d < 0.5 then f
    else if d > 0.5 then f + 1
    else if f % 2 == 0 then f
    else f + 1
  }

  /**
   * `get_amount` once its rarity formula has produced `raw` (that formula is floating
   * point and not part of this model): `raw / 5` rounded to an integer, times 5. The
   * amount is a multiple of 5 within 2.5 of `raw`.
   */
  function GetAmount(raw: real): (amount: int)
    ensures amount % 5 == 0
    ensures -2.5 <= raw - amount as real <= 2.5
  {
    5 * RoundHalfEven(raw / 5.0)
  }

  datatype Tier = Bronze | Silver | Gold

  /**
   * `Decimal(x).quantize(0, rounding=ROUND_HALF_UP)` for x = `num / den`: the nearest
   * integer, ties away from zero.
   */
  function HalfUp(num: int, den: int): (r: int)
    requires den == 4 || den == 5
    ensures num >= 0 ==> 2 * den * r - den <= 2 * num < 2 * den * r + den
    ensures num < 0 ==> 2 * den * r - den < 2 * num <= 2 * den * r + den
  {
    if num >= 0 then (2 * num + den) / (2 * den) else -((2 * -num + den) / (2 * den))
  }

  /**
   * How many instances of the ball a tier needs: a quarter of the amount for bronze,
   * three fifths for silver (each rounded half up), and the amount itself for gold.
   */
  function Needed(tier: Tier, amount: int): (r: int)
    ensures tier == Bronze && amount >= 0 ==> 4 * r - 2 <= amount < 4 * r + 2
    ensures tier == Silver && amount >= 0 ==> 10 * r - 5 <= 6 * amount < 10 * r + 5
    ensures tier == Gold ==> r == amount
    ensures amount >= 0 ==> r >= 0
  {
    match tier
    case Bronze => HalfUp(amount, 4)
    case Silver => HalfUp(3 * amount, 5)
    case Gold => amount
  }

  /** For a non-negative amount the thresholds climb from bronze to silver to gold. */
  lemma ThresholdsOrdered(amount: int)
    requires amount >= 0
    ensures 0 <= Needed(Bronze, amount) <= Needed(Silver, amount) <= Needed(Gold, amount)
  {
    var b, s := Needed(Bronze, amount), Needed(Silver, amount);
    assert 8 * b - 4 <= 2 * amount < 8 * b + 4;
    assert 10 * s - 5 <= 6 * amount < 10 * s + 5;
  }

  /** On the amounts `get_amount` produces, the silver threshold is exact: no rounding. */
  lemma SilverOfMultipleOfFive(amount: int)
    requires amount % 5 == 0
    ensures Needed(Silver, amount) * 5 == 3 * amount
  {
    var s := Needed(Silver, amount);
    var q := amount / 5;
    assert amount == 5 * q;
    if amount >= 0 {
      assert 10 * s - 5 <= 30 * q < 10 * s + 5;
    } else {
      assert 10 * s - 5 < 30 * q <= 10 * s + 5;
    }
    assert s == 3 * q;
  }

  /** The special a tier's card carries, as looked up by the tier's name. */
  datatype Specials = Specials(bronze: Option<int>, silver: Option<int>, gold: Option<int>)

  function SpecialOf(specials: Specials, tier: Tier): Option<int>
  {
    match tier
    case Bronze => specials.bronze
    case Silver => specials.silver
    case Gold => specials.gold
  }

  /** `BallInstance.filter(ball=ball, player=player).count()`: every special counts. */
  function Owned(rows: seq<BallInstance>, ball: int, player: int): (n: nat)
    reads set x | x in rows
    ensures n <= |rows|
    ensures n == 0 <==> forall x :: x in rows ==> x.ball != ball || x.player != player
  {
    if rows == [] then 0
    else
      var last := rows[|rows| - 1];
      Owned(rows[..|rows| - 1], ball, player) + (if last.ball == ball && last.player == player then 1 else 0)
  }

  /** A row of the pair (ball, player) carrying `special` (`None` matches a plain instance). */
  predicate IsCard(x: BallInstance, ball: int, player: int, special: Option<int>)
    reads x
  {
    x.ball == ball && x.player == player && x.special == special
  }

  /**
   * The position of `BallInstance.filter(ball=ball, player=player, special=special).first()`
   * in the table, or `|rows|` when there is none.
   */
  function CardAt(rows: seq<BallInstance>, ball: int, player: int, special: Option<int>): (k: nat)
    reads set x | x in rows
    ensures k <= |rows|
    ensures k < |rows| ==> IsCard(rows[k], ball, player, special)
    ensures forall j :: 0 <= j < k ==> !IsCard(rows[j], ball, player, special)
  {
    if rows == [] then 0
    else if IsCard(rows[0], ball, player, special) then 0
    else 1 + CardAt(rows[1..], ball, player, special)
  }

  datatype ClaimReply = AlreadyClaimed | NotEnough(needed: int, owned: nat) | CardMade

  /**
   * `collector_bronze`, `collector_silver` and `collector_gold`, on the table as it is:
   * a card already held for that tier refuses, then too few instances refuse, naming the
   * threshold and the count.
   */
  function ClaimOutcome(rows: seq<BallInstance>, tier: Tier, ball: int, player: int, amount: int,
                        special: Option<int>): (r: ClaimReply)
    reads set x | x in rows
    ensures r == AlreadyClaimed <==> CardAt(rows, ball, player, special) < |rows|
    ensures r == CardMade <==>
      CardAt(rows, ball, player, special) == |rows| && Owned(rows, ball, player) >= Needed(tier, amount)
    ensures r.NotEnough? ==> r.needed == Needed(tier, amount) && r.owned == Owned(rows, ball, player)
  {
    var owned := Owned(rows, ball, player);
    var needed := Needed(tier, amount);
    if CardAt(rows, ball, player, special) < |rows| then AlreadyClaimed
    else if owned < needed then NotEnough(needed, owned)
    else CardMade
  }

  /**
   * A claim command: with `ClaimOutcome` at `CardMade`, one new row is added, the tier's
   * card: untradeable, with no attack or health bonus.
   */
  method ClaimCard(rows: seq<BallInstance>, tier: Tier, ball: int, player: int, amount: int,
                   special: Option<int>, id: int, attack: int, health: int)
    returns (reply: ClaimReply, card: BallInstance?, after: seq<BallInstance>)
    ensures reply == ClaimOutcome(rows, tier, ball, player, amount, special)
    ensures reply != CardMade ==> card == null && after == rows
    ensures reply == CardMade ==>
      && card != null && fresh(card) && after == rows + [card]
      && IsCard(card, ball, player, special)
      && !card.tradeable && card.attackBonus == 0 && card.healthBonus == 0
  {
    var owned := Owned(rows, ball, player);
    var held := CardAt(rows, ball, player, special);
    if held < |rows| {
      return AlreadyClaimed, null, rows;
    }
    var needed := Needed(tier, amount);
    if owned < needed {
      return NotEnough(needed, owned), null, rows;
    }
    card := new BallInstance(id, ball, player, special, false, 0, 0, attack, health);
    reply, after := CardMade, rows + [card];
  }

  /** Owned counts of a table with one more row. */
  lemma OwnedAppend(rows: seq<BallInstance>, x: BallInstance, ball: int, player: int)
    ensures Owned(rows + [x], ball, player) ==
      Owned(rows, ball, player) + (if x.ball == ball && x.player == player then 1 else 0)
  {
    assert (rows + [x])[..|rows|] == rows;
  }

  /**
   * One tier of the periodic check: the first card of the tier is deleted when it exists
   * and `total` (the owned count taken before any deletion) is below the threshold.
   */
  function RevokeStep(rows: seq<BallInstance>, ball: int, player: int, special: Option<int>,
                      total: int, needed: int): (r: seq<BallInstance>)
    reads set x | x in rows
    ensures forall x :: x in r ==> x in rows
  {
    var k := CardAt(rows, ball, player, special);
    if k < |rows| && total < needed then rows[..k] + rows[k + 1..] else rows
  }

  /**
   * A tier's step deletes a row exactly when a card is held and the total is below the
   * threshold; the row it deletes is that card, and every other row stays, in order.
   */
  lemma RevokeStepDeletes(rows: seq<BallInstance>, ball: int, player: int, special: Option<int>,
                          total: int, needed: int)
    ensures var r := RevokeStep(rows, ball, player, special, total, needed);
      && (|r| == |rows| - 1 <==> CardAt(rows, ball, player, special) < |rows| && total < needed)
      && (|r| != |rows| - 1 ==> r == rows)
    ensures var r := RevokeStep(rows, ball, player, special, total, needed);
      var k := CardAt(rows, ball, player, special);
      |r| == |rows| - 1 ==> r == rows[..k] + rows[k + 1..] && IsCard(rows[k], ball, player, special)
    ensures forall x :: x in rows && x !in RevokeStep(rows, ball, player, special, total, needed) ==>
      IsCard(x, ball, player, special)
  {
    var k := CardAt(rows, ball, player, special);
    var r := RevokeStep(rows, ball, player, special, total, needed);
    if k < |rows| && total < needed {
      forall j | 0 <= j < |rows| ensures rows[j] in r || j == k {
        if j < k {
          assert r[j] == rows[j];
        } else if j > k {
          assert r[j - 1] == rows[j];
        }
      }
    }
  }

  /**
   * As written, a tier whose special is missing filters on `special=None`, which matches
   * the player's plain instances of the ball: below the threshold, one of them is deleted.
   */
  lemma MissingSpecialDeletesPlainInstance(x: BallInstance, total: int, needed: int)
    requires x.special.None? && total < needed
    ensures x !in RevokeStep([x], x.ball, x.player, x.special, total, needed)
  {
    assert CardAt([x], x.ball, x.player, x.special) == 0;
  }

  /** One tier of the check, skipped when the tier's special is missing. */
  function RevokeTier(rows: seq<BallInstance>, ball: int, player: int, special: Option<int>,
                      total: int, needed: int): (r: seq<BallInstance>)
    reads set x | x in rows
    ensures forall x :: x in r ==> x in rows
  {
    if special.None? then rows else RevokeStep(rows, ball, player, special, total, needed)
  }

  /** A tier step never deletes a plain instance, and otherwise deletes as `RevokeStep` does. */
  lemma RevokeTierKeepsPlain(rows: seq<BallInstance>, ball: int, player: int, special: Option<int>,
                             total: int, needed: int)
    ensures forall x :: x in rows && x.special.None? ==> x in RevokeTier(rows, ball, player, special, total, needed)
    ensures forall x :: x in rows && x !in RevokeTier(rows, ball, player, special, total, needed) ==>
      IsCard(x, ball, player, special) && special.Some?
    ensures special.Some? ==>
      RevokeTier(rows, ball, player, special, total, needed) == RevokeStep(rows, ball, player, special, total, needed)
  {
    RevokeStepDeletes(rows, ball, player, special, total, needed);
  }

  /** The three tiers for one (player, ball) pair, in the order the check runs them. */
  function CheckTiers(rows: seq<BallInstance>, ball: int, player: int, amount: int, total: int,
                      specials: Specials, tiers: seq<Tier>): (r: seq<BallInstance>)
    reads set x | x in rows
    ensures forall x :: x in r ==> x in rows
  {
    if tiers == [] then rows
    else
      var tier := tiers[|tiers| - 1];
      var before := CheckTiers(rows, ball, player, amount, total, specials, tiers[..|tiers| - 1]);
      RevokeTier(before, ball, player, SpecialOf(specials, tier), total, Needed(tier, amount))
  }

  /** The pairs of the check for one player, ball after ball; each ball comes with its amount. */
  function CheckBalls(rows: seq<BallInstance>, player: int, balls: seq<(int, int)>, specials: Specials)
    : (r: seq<BallInstance>)
    reads set x | x in rows
    ensures forall x :: x in r ==> x in rows
  {
    if balls == [] then rows
    else
      var before := CheckBalls(rows, player, balls[..|balls| - 1], specials);
      var (ball, amount) := balls[|balls| - 1];
      CheckTiers(before, ball, player, amount, Owned(before, ball, player), specials,
                 [Bronze, Silver, Gold])
  }

  /** The whole periodic check: player after player, every ball for each. */
  function CheckAll(rows: seq<BallInstance>, players: seq<int>, balls: seq<(int, int)>, specials: Specials)
    : (r: seq<BallInstance>)
    reads set x | x in rows
    ensures forall x :: x in r ==> x in rows
  {
    if players == [] then rows
    else CheckBalls(CheckAll(rows, players[..|players| - 1], balls, specials),
                    players[|players| - 1], balls, specials)
  }

  /** The rows of a table a tier step can delete: cards of the checked pairs and tiers. */
  predicate Revocable(x: BallInstance, players: seq<int>, balls: seq<(int, int)>, specials: Specials)
    reads x
  {
    && x.player in players
    && (exists i :: 0 <= i < |balls| && balls[i].0 == x.ball)
    && x.special.Some?
    && (x.special == specials.bronze || x.special == specials.silver || x.special == specials.gold)
  }

  lemma {:induction false} CheckTiersRemovesCards(rows: seq<BallInstance>, ball: int, player: int,
                                                  amount: int, total: int, specials: Specials,
                                                  tiers: seq<Tier>)
    ensures forall x :: x in rows && x !in CheckTiers(rows, ball, player, amount, total, specials, tiers) ==>
      x.special.Some? && exists t :: t in tiers && IsCard(x, ball, player, SpecialOf(specials, t))
  {
    if tiers != [] {
      var init := tiers[..|tiers| - 1];
      var tier := tiers[|tiers| - 1];
      var before := CheckTiers(rows, ball, player, amount, total, specials, init);
      CheckTiersRemovesCards(rows, ball, player, amount, total, specials, init);
      var special := SpecialOf(specials, tier);
      RevokeTierKeepsPlain(before, ball, player, special, total, Needed(tier, amount));
      var after := RevokeTier(before, ball, player, special, total, Needed(tier, amount));
      assert after == CheckTiers(rows, ball, player, amount, total, specials, tiers);
      forall x | x in rows && x !in after
        ensures x.special.Some? && exists t :: t in tiers && IsCard(x, ball, player, SpecialOf(specials, t))
      {
        if x in before {
          assert tier in tiers;
        } else {
          var t :| t in init && IsCard(x, ball, player, SpecialOf(specials, t));
          assert t in tiers;
        }
      }
    }
  }

  lemma {:induction false} CheckBallsRemovesCards(rows: seq<BallInstance>, player: int,
                                                  balls: seq<(int, int)>, specials: Specials)
    ensures forall x :: x in rows && x !in CheckBalls(rows, player, balls, specials) ==>
      x.player == player && Revocable(x, [player], balls, specials)
  {
    if balls != [] {
      var init := balls[..|balls| - 1];
      var before := CheckBalls(rows, player, init, specials);
      CheckBallsRemovesCards(rows, player, init, specials);
      var (ball, amount) := balls[|balls| - 1];
      var tiers := [Bronze, Silver, Gold];
      CheckTiersRemovesCards(before, ball, player, amount, Owned(before, ball, player), specials, tiers);
      var after := CheckBalls(rows, player, balls, specials);
      forall x | x in rows && x !in after ensures x.player == player && Revocable(x, [player], balls, specials) {
        if x in before {
          var t :| t in tiers && IsCard(x, ball, player, SpecialOf(specials, t));
          assert balls[|balls| - 1].0 == x.ball;
        } else {
          var i :| 0 <= i < |init| && init[i].0 == x.ball;
          assert balls[i] == init[i];
        }
      }
    }
  }

  /**
   * The periodic check deletes only rows of the checked players and balls whose special is
   * one of the three tiers' specials (never a plain instance), and adds none.
   */
  lemma {:induction false} CheckAllRemovesCards(rows: seq<BallInstance>, players: seq<int>,
                                                balls: seq<(int, int)>, specials: Specials)
    ensures forall x :: x in rows && x !in CheckAll(rows, players, balls, specials) ==>
      Revocable(x, players, balls, specials)
  {
    if players != [] {
      var init := players[..|players| - 1];
      var player := players[|players| - 1];
      var before := CheckAll(rows, init, balls, specials);
      CheckAllRemovesCards(rows, init, balls, specials);
      CheckBallsRemovesCards(before, player, balls, specials);
      var after := CheckAll(rows, players, balls, specials);
      forall x | x in rows && x !in after ensures Revocable(x, players, balls, specials) {
        if x in before {
          assert x.player == player;
        } else {
          assert x.player in init;
        }
      }
    }
  }

  /**
   * A card just claimed is not taken back by the next check of its pair: the card itself
   * counts towards the total, which already met the threshold.
   */
  lemma ClaimedCardSurvives(rows: seq<BallInstance>, tier: Tier, card: BallInstance, amount: int)
    requires card !in rows
    requires ClaimOutcome(rows, tier, card.ball, card.player, amount, card.special) == CardMade
    ensures var after := rows + [card];
      var total := Owned(after, card.ball, card.player);
      card in RevokeStep(after, card.ball, card.player, card.special, total, Needed(tier, amount))
  {
    var after := rows + [card];
    OwnedAppend(rows, card, card.ball, card.player);
  }

  /**
   * The body of the check for one (player, ball) pair: count the player's instances of the
   * ball once, then for bronze, silver and gold delete the first card of that tier when
   * the count is below the tier's threshold. A tier whose special is missing is skipped
   * rather than matched against plain instances (see `MissingSpecialDeletesPlainInstance`).
   */
  method RevokePair(rows: seq<BallInstance>, ball: int, player: int, amount: int, specials: Specials)
    returns (kept: seq<BallInstance>)
    ensures kept == CheckTiers(rows, ball, player, amount, Owned(rows, ball, player), specials,
                               [Bronze, Silver, Gold])
  {
    var total := Owned(rows, ball, player);
    var tiers := [Bronze, Silver, Gold];
    kept := rows;
    for t := 0 to 3
      invariant kept == CheckTiers(rows, ball, player, amount, total, specials, tiers[..t])
    {
      var special := SpecialOf(specials, tiers[t]);
      var needed := Needed(tiers[t], amount);
      if special.Some? {
        var k := CardAt(kept, ball, player, special);
        if k < |kept| && total < needed {
          kept := kept[..k] + kept[k + 1..];
        }
      }
      assert tiers[..t + 1][..t] == tiers[..t];
    }
    assert tiers[..3] == tiers;
  }

  /** The check for one player: every ball in turn. */
  method RevokePlayer(rows: seq<BallInstance>, player: int, balls: seq<(int, int)>, specials: Specials)
    returns (kept: seq<BallInstance>)
    ensures kept == CheckBalls(rows, player, balls, specials)
  {
    kept := rows;
    for j := 0 to |balls|
      invariant kept == CheckBalls(rows, player, balls[..j], specials)
    {
      var (ball, amount) := balls[j];
      kept := RevokePair(kept, ball, player, amount, specials);
      assert balls[..j + 1][..j] == balls[..j];
    }
    assert balls[..|balls|] == balls;
  }

  /** `check_collector_cards`: every player in turn, every ball for each. */
  method CheckCollectorCards(rows: seq<BallInstance>, players: seq<int>, balls: seq<(int, int)>,
                             specials: Specials)
    returns (kept: seq<BallInstance>)
    ensures kept == CheckAll(rows, players, balls, specials)
  {
    kept := rows;
    for i := 0 to |players|
      invariant kept == CheckAll(rows, players[..i], balls, specials)
    {
      kept := RevokePlayer(kept, players[i], balls, specials);
      assert players[..i + 1][..i] == players[..i];
    }
    assert players[..|players|] == players;
  }
}
