/**
 * ballsdex/packages/battle/menu.py: the negotiation between two battlers.
 *
 * Each battler builds a deck, locks it, and then both confirm. The wage is escrowed when
 * both decks are locked, refunded on cancellation, and paid out on confirmation together
 * with a daily bonus. The quirks of the source are kept: the refund in `Cancel` is paid
 * to every locked battler even when only one side locked (so nothing had been taken),
 * and `Confirm` pays out and counts a battle on every call, not only on the second.
 */
module BattleMenus {
  import opened Common
  import opened Models
  import opened BattleUser

  /** The outcome of the comparison: the first battler, the second, or a draw (`winner = None`). */
  datatype Winner = First | Second | Draw

  /** `attack / health if health else 0`, with exact division (the source divides floats). */
  function Ratio(attack: int, health: int): real
  {
    if health != 0 then attack as real / health as real else 0.0
  }

  /** The winner: the first battler wins iff `attack1 / health2 > attack2 / health1`. */
  function Decide(attack1: int, health1: int, attack2: int, health2: int): (r: Winner)
    ensures r == First <==> Ratio(attack1, health2) > Ratio(attack2, health1)
    ensures r == Second <==> Ratio(attack2, health1) > Ratio(attack1, health2)
    ensures r == Draw <==> Ratio(attack1, health2) == Ratio(attack2, health1)
  {
    var worl1 := Ratio(attack1, health2);
    var worl2 := Ratio(attack2, health1);
    if worl1 > worl2 then First else if worl2 > worl1 then Second else Draw
  }

  function Mirror(w: Winner): Winner
  {
    match w
    case First => Second
    case Second => First
    case Draw => Draw
  }

  /** Swapping the two sides swaps the winner: the comparison favours neither seat. */
  lemma DecideIsSymmetric(attack1: int, health1: int, attack2: int, health2: int)
    ensures Decide(attack2, health2, attack1, health1) == Mirror(Decide(attack1, health1, attack2, health2))
  {
  }

  /**
   * With positive health on both sides the comparison of ratios is a comparison of the
   * products `attack * own health`: the first battler wins iff attack1 * health1 > attack2 * health2,
   * the second iff the reverse, and equal products are a draw.
   */
  lemma DecideByProducts(attack1: int, health1: int, attack2: int, health2: int)
    requires health1 > 0 && health2 > 0
    ensures Decide(attack1, health1, attack2, health2) == First <==> attack1 * health1 > attack2 * health2
    ensures Decide(attack1, health1, attack2, health2) == Second <==> attack2 * health2 > attack1 * health1
    ensures Decide(attack1, health1, attack2, health2) == Draw <==> attack1 * health1 == attack2 * health2
  {
    var h1, h2 := health1 as real, health2 as real;
    var a1, a2 := attack1 as real, attack2 as real;
    var k := h1 * h2;
    assert k > 0.0;
    assert Ratio(attack1, health2) * k == a1 * h1 by {
      assert a1 / h2 * (h1 * h2) == a1 * h1 * (h2 / h2);
    }
    assert Ratio(attack2, health1) * k == a2 * h2 by {
      assert a2 / h1 * (h1 * h2) == a2 * h2 * (h1 / h1);
    }
    RealScale(Ratio(attack1, health2), Ratio(attack2, health1), k);
    assert (attack1 * health1) as real == a1 * h1;
    assert (attack2 * health2) as real == a2 * h2;
  }

  /** Multiplying by a positive number keeps the order of two reals. */
  lemma RealScale(x: real, y: real, k: real)
    requires k > 0.0
    ensures x > y <==> x * k > y * k
    ensures x == y <==> x * k == y * k
  {
    if x > y {
      assert (x - y) * k > 0.0;
    } else if y > x {
      assert (y - x) * k > 0.0;
    }
  }

  /** A side whose opponent brings no health scores 0, whatever its attack. */
  lemma ZeroHealthScoresZero(attack1: int, health1: int, attack2: int)
    ensures Ratio(attack1, 0) == 0.0
    ensures attack2 > 0 && health1 > 0 ==> Decide(attack1, health1, attack2, 0) == Second
  {
  }

  /**
   * The coins each side receives from the wage when the battle is settled: the winner is
   * credited twice the wage, a draw credits each side the wage (a zero wage pays nothing).
   * Together the two sides always receive exactly twice the wage.
   */
  function Payout(w: Winner, wage: int): (r: (int, int))
    ensures r.0 + r.1 == 2 * wage
    ensures w == First ==> r.1 == 0
    ensures w == Second ==> r.0 == 0
    ensures w == Draw ==> r.0 == r.1
  {
    if wage == 0 then (0, 0)
    else
      match w
      case First => (2 * wage, 0)
      case Second => (0, 2 * wage)
      case Draw => (wage, wage)
  }

  /**
   * The daily bonus of 10 coins: it goes to the winner, or to both sides on a draw, and
   * only to a side whose `battles_today` is still below the daily maximum.
   */
  function Bonus(w: Winner, battlesToday1: int, battlesToday2: int, maxPerDay: int): (r: (int, int))
    ensures r.0 == 10 <==> w != Second && battlesToday1 < maxPerDay
    ensures r.1 == 10 <==> w != First && battlesToday2 < maxPerDay
    ensures r.0 in {0, 10} && r.1 in {0, 10}
  {
    match w
    case First => (if battlesToday1 < maxPerDay then 10 else 0, 0)
    case Second => (0, if battlesToday2 < maxPerDay then 10 else 0)
    case Draw => (if battlesToday1 < maxPerDay then 10 else 0, if battlesToday2 < maxPerDay then 10 else 0)
  }

  /** The attack a deck brings: the sum over its balls. */
  function TotalAttack(deck: seq<BallInstance>): int
  {
    if deck == [] then 0 else TotalAttack(deck[..|deck| - 1]) + deck[|deck| - 1].attack
  }

  /** The health a deck brings: the sum over its balls. */
  function TotalHealth(deck: seq<BallInstance>): int
  {
    if deck == [] then 0 else TotalHealth(deck[..|deck| - 1]) + deck[|deck| - 1].health
  }

  /** The battle's result for two decks. */
  function Result(deck1: seq<BallInstance>, deck2: seq<BallInstance>): Winner
  {
    Decide(TotalAttack(deck1), TotalHealth(deck1), TotalAttack(deck2), TotalHealth(deck2))
  }

  /** The attack and the health of a deck, summed ball by ball as `confirm` does. */
  method DeckTotals(deck: seq<BallInstance>) returns (attack: int, health: int)
    ensures attack == TotalAttack(deck) && health == TotalHealth(deck)
  {
    attack, health := 0, 0;
    for i := 0 to |deck|
      invariant attack == TotalAttack(deck[..i]) && health == TotalHealth(deck[..i])
    {
      assert deck[..i + 1][..i] == deck[..i];
      attack, health := attack + deck[i].attack, health + deck[i].health;
    }
    assert deck[..|deck|] == deck;
  }

  /**
   * The payments of `confirm` once the winner is known: the wage (twice to the winner,
   * once to each side on a draw, nothing when the wage is 0), then the daily bonus.
   */
  method Settle(p1: Player, p2: Player, winner: Winner, wage: int, maxPerDay: int)
    requires p1 != p2
    modifies p1`coins, p2`coins
    ensures p1.coins == old(p1.coins) + Payout(winner, wage).0 + Bonus(winner, p1.battlesToday, p2.battlesToday, maxPerDay).0
    ensures p2.coins == old(p2.coins) + Payout(winner, wage).1 + Bonus(winner, p1.battlesToday, p2.battlesToday, maxPerDay).1
  {
    if winner == First {
      if wage != 0 {
        p1.AddCoins(wage * 2);
      }
    } else if winner == Second {
      if wage != 0 {
        p2.AddCoins(wage * 2);
      }
    } else {
      if wage != 0 {
        p1.AddCoins(wage);
        p2.AddCoins(wage);
      }
    }

    if winner == First && p1.battlesToday < maxPerDay {
      p1.AddCoins(10);
    } else if winner == Second && p2.battlesToday < maxPerDay {
      p2.AddCoins(10);
    } else if winner == Draw {
      if p1.battlesToday < maxPerDay {
        p1.AddCoins(10);
      }
      if p2.battlesToday < maxPerDay {
        p2.AddCoins(10);
      }
    }
  }

  datatype LockReply = AlreadyLocked | EmptyDeck | DeckLocked
  datatype ResetReply = CannotEditLocked | DeckCleared
  datatype AcceptReply = AlreadyAccepted | Confirmed(concluded: bool)

  /**
   * A battle between two battlers. `confirming` says whether the current view is the
   * confirmation view (both decks locked); `viewFinished` is `current_view.is_finished()`.
   */
  class BattleMenu {
    const battler1: BattlingUser
    const battler2: BattlingUser
    const maxDrivers: int
    const wage: int
    var confirming: bool
    var viewFinished: bool

    /** The two sides are different users, each with their own player row. */
    predicate Valid()
    {
      && battler1 != battler2
      && battler1.user != battler2.user
      && battler1.player != battler2.player
    }

    constructor (battler1: BattlingUser, battler2: BattlingUser, maxDrivers: int, wage: int)
      ensures this.battler1 == battler1 && this.battler2 == battler2
      ensures this.maxDrivers == maxDrivers && this.wage == wage
      ensures !confirming && !viewFinished
    {
      this.battler1 := battler1;
      this.battler2 := battler2;
      this.maxDrivers := maxDrivers;
      this.wage := wage;
      confirming := false;
      viewFinished := false;
    }

    /** `_get_battler`: the side that belongs to `user`; `None` stands for the RuntimeError. */
    function GetBattler(user: int): (r: Option<BattlingUser>)
      ensures r.Some? ==> r.value.user == user && (r.value == battler1 || r.value == battler2)
      ensures r.None? <==> user != battler1.user && user != battler2.user
      ensures user == battler1.user ==> r == Some(battler1)
    {
      if user == battler1.user then Some(battler1)
      else if user == battler2.user then Some(battler2)
      else None
    }

    /** A battle that `get_battle` throws away: its view is finished or a side cancelled. */
    predicate IsStale()
      reads this, battler1, battler2
    {
      viewFinished || battler1.cancelled || battler2.cancelled
    }

    /** The balls of both decks. */
    function Balls(): set<BallInstance>
      reads battler1, battler2
    {
      set x | x in battler1.proposal + battler2.proposal
    }

    /**
     * `lock`: raise the given battler's flag; once both flags are up, take the wage from
     * both players and move to the confirmation view.
     */
    method Lock(battler: BattlingUser)
      requires Valid() && (battler == battler1 || battler == battler2)
      modifies battler`locked, this`confirming, this`viewFinished
      modifies battler1.player`coins, battler2.player`coins
      ensures battler.locked
      ensures var both := battler1.locked && battler2.locked;
        && battler1.player.coins == old(battler1.player.coins) - (if both then wage else 0)
        && battler2.player.coins == old(battler2.player.coins) - (if both then wage else 0)
        && (both ==> confirming && !viewFinished)
        && (!both ==> confirming == old(confirming) && viewFinished == old(viewFinished))
    {
      battler.locked := true;
      if battler1.locked && battler2.locked {
        viewFinished := true;
        if wage != 0 {
          battler1.player.RemoveCoins(wage);
          battler2.player.RemoveCoins(wage);
        }
        confirming := true;
        viewFinished := false;
      }
    }

    /**
     * `cancel`: unlock every ball of both decks, give the wage back to every battler whose
     * `locked` flag is up (even when the other side never locked, so that nothing was
     * taken), and stop the view.
     */
    method Cancel()
      requires Valid()
      modifies Balls()`locked, battler1.player`coins, battler2.player`coins, this`viewFinished
      ensures forall x :: x in battler1.proposal + battler2.proposal ==> !x.locked
      ensures battler1.player.coins == old(battler1.player.coins) + (if battler1.locked then wage else 0)
      ensures battler2.player.coins == old(battler2.player.coins) + (if battler2.locked then wage else 0)
      ensures viewFinished
    {
      var all := battler1.proposal + battler2.proposal;
      var i := 0;
      while i < |all|
        invariant 0 <= i <= |all|
        invariant forall k :: 0 <= k < i ==> !all[k].locked
        invariant battler1.player.coins == old(battler1.player.coins)
        invariant battler2.player.coins == old(battler2.player.coins)
      {
        all[i].Unlock();
        i := i + 1;
      }
      if wage != 0 && battler1.locked {
        battler1.player.AddCoins(wage);
      }
      if wage != 0 && battler2.locked {
        battler2.player.AddCoins(wage);
      }
      viewFinished := true;
    }

    /** `user_cancel`: mark the battler as cancelled, then cancel the battle. */
    method UserCancel(battler: BattlingUser)
      requires Valid() && (battler == battler1 || battler == battler2)
      modifies battler`cancelled, Balls()`locked, battler1.player`coins, battler2.player`coins, this`viewFinished
      ensures battler.cancelled && viewFinished && IsStale()
      ensures forall x :: x in battler1.proposal + battler2.proposal ==> !x.locked
      ensures battler1.player.coins == old(battler1.player.coins) + (if battler1.locked then wage else 0)
      ensures battler2.player.coins == old(battler2.player.coins) + (if battler2.locked then wage else 0)
    {
      battler.cancelled := true;
      Cancel();
    }

    /**
     * `confirm`: sum both decks, settle the wage and the daily bonus for the result, raise
     * the caller's `accepted` flag, finish the view once both have accepted, count one
     * battle for each player, and report success. All of it happens on every call.
     */
    method Confirm(battler: BattlingUser, maxPerDay: int) returns (concluded: bool)
      requires Valid() && (battler == battler1 || battler == battler2)
      modifies battler`accepted, this`viewFinished
      modifies battler1.player`coins, battler1.player`battlesToday
      modifies battler2.player`coins, battler2.player`battlesToday
      ensures concluded && battler.accepted
      ensures var w := Result(battler1.proposal, battler2.proposal);
        var pay := Payout(w, wage);
        var bonus := Bonus(w, old(battler1.player.battlesToday), old(battler2.player.battlesToday), maxPerDay);
        && battler1.player.coins == old(battler1.player.coins) + pay.0 + bonus.0
        && battler2.player.coins == old(battler2.player.coins) + pay.1 + bonus.1
      ensures battler1.player.battlesToday == old(battler1.player.battlesToday) + 1
      ensures battler2.player.battlesToday == old(battler2.player.battlesToday) + 1
      ensures viewFinished == (old(viewFinished) || (battler1.accepted && battler2.accepted))
    {
      var attack1, health1 := DeckTotals(battler1.proposal);
      var attack2, health2 := DeckTotals(battler2.proposal);
      var worl1 := if health2 != 0 then attack1 as real / health2 as real else 0.0;
      var worl2 := if health1 != 0 then attack2 as real / health1 as real else 0.0;
      var winner := if worl1 > worl2 then First else if worl2 > worl1 then Second else Draw;
      assert winner == Result(battler1.proposal, battler2.proposal);

      Settle(battler1.player, battler2.player, winner, wage, maxPerDay);

      battler.accepted := true;
      if battler1.accepted && battler2.accepted {
        viewFinished := true;
      }
      battler1.player.battlesToday := battler1.player.battlesToday + 1;
      battler2.player.battlesToday := battler2.player.battlesToday + 1;
      concluded := true;
    }


    /** The Lock button: refuse a battler who already locked or whose deck is empty. */
    method LockButton(battler: BattlingUser) returns (reply: LockReply)
      requires Valid() && (battler == battler1 || battler == battler2)
      modifies battler`locked, this`confirming, this`viewFinished
      modifies battler1.player`coins, battler2.player`coins
      ensures reply == AlreadyLocked <==> old(battler.locked)
      ensures reply == EmptyDeck <==> !old(battler.locked) && battler.proposal == []
      ensures reply != DeckLocked ==> unchanged(battler, this, battler1.player, battler2.player)
      ensures reply == DeckLocked ==> battler.locked
      ensures reply == DeckLocked ==>
        var both := battler1.locked && battler2.locked;
        && battler1.player.coins == old(battler1.player.coins) - (if both then wage else 0)
        && battler2.player.coins == old(battler2.player.coins) - (if both then wage else 0)
        && (both ==> confirming && !viewFinished)
        && (!both ==> confirming == old(confirming) && viewFinished == old(viewFinished))
    {
      if battler.locked {
        return AlreadyLocked;
      }
      if |battler.proposal| == 0 {
        return EmptyDeck;
      }
      Lock(battler);
      reply := DeckLocked;
    }

    /** The Reset button: a locked deck cannot be edited; otherwise unlock its balls and empty it. */
    method ResetButton(battler: BattlingUser) returns (reply: ResetReply)
      requires battler == battler1 || battler == battler2
      modifies battler`proposal, (set x | x in battler.proposal)`locked
      ensures reply == CannotEditLocked <==> battler.locked
      ensures reply == CannotEditLocked ==> battler.proposal == old(battler.proposal)
      ensures reply == CannotEditLocked ==> forall x :: x in old(battler.proposal) ==> x.locked == old(x.locked)
      ensures reply == DeckCleared ==> battler.proposal == []
      ensures reply == DeckCleared ==> forall x :: x in old(battler.proposal) ==> !x.locked
    {
      if battler.locked {
        return CannotEditLocked;
      }
      var deck := battler.proposal;
      for i := 0 to |deck|
        invariant forall k :: 0 <= k < i ==> !deck[k].locked
      {
        deck[i].Unlock();
      }
      battler.proposal := [];
      reply := DeckCleared;
    }

    /** The accept button: a battler may accept once; the confirmation runs on that click. */
    method AcceptButton(battler: BattlingUser, maxPerDay: int) returns (reply: AcceptReply)
      requires Valid() && (battler == battler1 || battler == battler2)
      modifies battler`accepted, this`viewFinished
      modifies battler1.player`coins, battler1.player`battlesToday
      modifies battler2.player`coins, battler2.player`battlesToday
      ensures reply == AlreadyAccepted <==> old(battler.accepted)
      ensures reply == AlreadyAccepted ==> unchanged(battler, battler1.player, battler2.player, this)
      ensures reply.Confirmed? ==> battler.accepted && (reply.concluded <==> battler1.accepted && battler2.accepted)
      ensures reply.Confirmed? ==> battler1.player.battlesToday == old(battler1.player.battlesToday) + 1
      ensures reply.Confirmed? ==> battler2.player.battlesToday == old(battler2.player.battlesToday) + 1
      ensures reply.Confirmed? ==>
        var w := Result(battler1.proposal, battler2.proposal);
        var pay := Payout(w, wage);
        var bonus := Bonus(w, old(battler1.player.battlesToday), old(battler2.player.battlesToday), maxPerDay);
        && battler1.player.coins == old(battler1.player.coins) + pay.0 + bonus.0
        && battler2.player.coins == old(battler2.player.coins) + pay.1 + bonus.1
        && viewFinished == (old(viewFinished) || (battler1.accepted && battler2.accepted))
    {
      if battler.accepted {
        return AlreadyAccepted;
      }
      // `confirm`'s own result only picks the wording of the concluded message
      var _ := Confirm(battler, maxPerDay);
      reply := Confirmed(battler1.accepted && battler2.accepted);
    }

    /**
     * A whole battle as the buttons run it: both battlers lock, then both accept. Since
     * every accept runs `confirm` in full, the wage is paid out twice (once per accept)
     * after being escrowed once, and each player is counted for two battles.
     */
    method PlayAsWritten(maxPerDay: int)
      requires Valid() && !battler1.locked && !battler2.locked
      requires !battler1.accepted && !battler2.accepted
      requires battler1.proposal != [] && battler2.proposal != []
      modifies battler1`locked, battler2`locked, battler1`accepted, battler2`accepted
      modifies this`confirming, this`viewFinished
      modifies battler1.player`coins, battler1.player`battlesToday
      modifies battler2.player`coins, battler2.player`battlesToday
      ensures var w := Result(battler1.proposal, battler2.proposal);
        var first := Bonus(w, old(battler1.player.battlesToday), old(battler2.player.battlesToday), maxPerDay);
        var second := Bonus(w, old(battler1.player.battlesToday) + 1, old(battler2.player.battlesToday) + 1, maxPerDay);
        battler1.player.coins + battler2.player.coins
          == old(battler1.player.coins + battler2.player.coins) + 2 * wage + first.0 + first.1 + second.0 + second.1
      ensures battler1.player.battlesToday == old(battler1.player.battlesToday) + 2
      ensures battler2.player.battlesToday == old(battler2.player.battlesToday) + 2
      ensures viewFinished
    {
      var lock1 := LockButton(battler1);
      var lock2 := LockButton(battler2);
      assert battler1.locked && battler2.locked;
      var accept1 := AcceptButton(battler1, maxPerDay);
      var accept2 := AcceptButton(battler2, maxPerDay);
    }

    /**
     * `confirm` as its own documentation describes it: record the caller's acceptance, and
     * only when both battlers have accepted settle the wage and the bonus, count one battle
     * for each player and end the battle. `concluded` says whether that happened.
     */
    method ConfirmOnce(battler: BattlingUser, maxPerDay: int) returns (concluded: bool)
      requires Valid() && (battler == battler1 || battler == battler2)
      modifies battler`accepted, this`viewFinished
      modifies battler1.player`coins, battler1.player`battlesToday
      modifies battler2.player`coins, battler2.player`battlesToday
      ensures battler.accepted
      ensures concluded <==> battler1.accepted && battler2.accepted
      ensures !concluded ==> unchanged(battler1.player, battler2.player, this)
      ensures concluded ==>
        var w := Result(battler1.proposal, battler2.proposal);
        var pay := Payout(w, wage);
        var bonus := Bonus(w, old(battler1.player.battlesToday), old(battler2.player.battlesToday), maxPerDay);
        && battler1.player.coins == old(battler1.player.coins) + pay.0 + bonus.0
        && battler2.player.coins == old(battler2.player.coins) + pay.1 + bonus.1
        && battler1.player.battlesToday == old(battler1.player.battlesToday) + 1
        && battler2.player.battlesToday == old(battler2.player.battlesToday) + 1
        && viewFinished
    {
      battler.accepted := true;
      concluded := battler1.accepted && battler2.accepted;
      if concluded {
        var attack1, health1 := DeckTotals(battler1.proposal);
        var attack2, health2 := DeckTotals(battler2.proposal);
        var winner := Decide(attack1, health1, attack2, health2);
        Settle(battler1.player, battler2.player, winner, wage, maxPerDay);
        viewFinished := true;
        battler1.player.battlesToday := battler1.player.battlesToday + 1;
        battler2.player.battlesToday := battler2.player.battlesToday + 1;
      }
    }

    /** The accept button over the corrected confirmation. */
    method AcceptButtonOnce(battler: BattlingUser, maxPerDay: int) returns (reply: AcceptReply)
      requires Valid() && (battler == battler1 || battler == battler2)
      modifies battler`accepted, this`viewFinished
      modifies battler1.player`coins, battler1.player`battlesToday
      modifies battler2.player`coins, battler2.player`battlesToday
      ensures reply == AlreadyAccepted <==> old(battler.accepted)
      ensures reply == AlreadyAccepted ==> unchanged(battler, battler1.player, battler2.player, this)
      ensures reply.Confirmed? ==> battler.accepted
      ensures reply.Confirmed? ==> (reply.concluded <==> battler1.accepted && battler2.accepted)
      ensures reply.Confirmed? && !reply.concluded ==> unchanged(battler1.player, battler2.player, this)
      ensures reply.Confirmed? && reply.concluded ==>
        var w := Result(battler1.proposal, battler2.proposal);
        var pay := Payout(w, wage);
        var bonus := Bonus(w, old(battler1.player.battlesToday), old(battler2.player.battlesToday), maxPerDay);
        && battler1.player.coins == old(battler1.player.coins) + pay.0 + bonus.0
        && battler2.player.coins == old(battler2.player.coins) + pay.1 + bonus.1
        && battler1.player.battlesToday == old(battler1.player.battlesToday) + 1
        && battler2.player.battlesToday == old(battler2.player.battlesToday) + 1
        && viewFinished
    {
      if battler.accepted {
        return AlreadyAccepted;
      }
      var result := ConfirmOnce(battler, maxPerDay);
      reply := Confirmed(result);
    }

    /**
     * A whole battle with the corrected confirmation: the wage escrowed at locking is paid
     * back out exactly once, so the players' total changes only by the daily bonus, and each
     * player is counted for one battle.
     */
    method PlayCorrected(maxPerDay: int)
      requires Valid() && !battler1.locked && !battler2.locked
      requires !battler1.accepted && !battler2.accepted
      requires battler1.proposal != [] && battler2.proposal != []
      modifies battler1`locked, battler2`locked, battler1`accepted, battler2`accepted
      modifies this`confirming, this`viewFinished
      modifies battler1.player`coins, battler1.player`battlesToday
      modifies battler2.player`coins, battler2.player`battlesToday
      ensures var w := Result(battler1.proposal, battler2.proposal);
        var bonus := Bonus(w, old(battler1.player.battlesToday), old(battler2.player.battlesToday), maxPerDay);
        battler1.player.coins + battler2.player.coins
          == old(battler1.player.coins + battler2.player.coins) + bonus.0 + bonus.1
      ensures battler1.player.battlesToday == old(battler1.player.battlesToday) + 1
      ensures battler2.player.battlesToday == old(battler2.player.battlesToday) + 1
      ensures viewFinished
    {
      var lock1 := LockButton(battler1);
      var lock2 := LockButton(battler2);
      assert battler1.locked && battler2.locked;
      var accept1 := AcceptButtonOnce(battler1, maxPerDay);
      var accept2 := AcceptButtonOnce(battler2, maxPerDay);
    }
  }
}
