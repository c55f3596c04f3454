/** ballsdex/packages/trade/trade_user.py: one side of a trade. */
module TradeUser {
  import opened Common
  import opened Models

  /**
   * A trader: the discord user, their player row, the balls and the coins they propose,
   * the three flags of the negotiation, and the blacklist mark (only known in admin views).
   */
  class TradingUser {
    const user: int
    const player: Player
    var proposal: seq<BallInstance>
    var locked: bool
    var cancelled: bool
    var accepted: bool
    var coins: int
    var blacklisted: Option<bool>

    /** The dataclass defaults: nothing proposed, every flag down, no coins. */
    constructor (user: int, player: Player)
      ensures this.user == user && this.player == player
      ensures proposal == [] && coins == 0 && blacklisted == None
      ensures !locked && !cancelled && !accepted
    {
      this.user := user;
      this.player := player;
      proposal := [];
      locked := false;
      cancelled := false;
      accepted := false;
      coins := 0;
      blacklisted := None;
    }

    /** `add_coins`: the proposed coins grow by `amount`; nothing is checked here. */
    method AddCoins(amount: int)
      modifies this`coins
      ensures coins == old(coins) + amount
    {
      coins := coins + amount;
    }

    /** `remove_coins`: the proposed coins shrink by `amount`; nothing is checked here. */
    method RemoveCoins(amount: int)
      modifies this`coins
      ensures coins == old(coins) - amount
    {
      coins := coins - amount;
    }

    /** Adding and then removing the same amount gives back the proposal's coins. */
    method AddThenRemove(amount: int)
      modifies this`coins
      ensures coins == old(coins)
    {
      AddCoins(amount);
      RemoveCoins(amount);
    }
  }
}
