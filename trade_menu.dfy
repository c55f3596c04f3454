/**
 * The trade session that the trade cog keeps in its lists. The menu's own source
 * (ballsdex/packages/trade/menu.py) is not part of this model: only what the cog reads of
 * a session is kept, namely its two sides, whether its view has finished, and the
 * `_get_trader` lookup by user id.
 */
module TradeMenus {
  import opened Common
  import opened Models
  import opened TradeUser

  class TradeMenu {
    const trader1: TradingUser
    const trader2: TradingUser
    var viewFinished: bool

    /** Two distinct sides, for two distinct users with two distinct player rows. */
    predicate Valid()
    {
      && trader1 != trader2
      && trader1.user != trader2.user
      && trader1.player != trader2.player
    }

    constructor (trader1: TradingUser, trader2: TradingUser)
      ensures this.trader1 == trader1 && this.trader2 == trader2
      ensures !viewFinished
    {
      this.trader1 := trader1;
      this.trader2 := trader2;
      viewFinished := false;
    }

    /** `_get_trader`: the side that belongs to `user`; `None` stands for the `RuntimeError`. */
    function GetTrader(user: int): (r: Option<TradingUser>)
      ensures r.Some? ==> r.value.user == user && (r.value == trader1 || r.value == trader2)
      ensures r.None? <==> user != trader1.user && user != trader2.user
      ensures user == trader1.user ==> r == Some(trader1)
    {
      if user == trader1.user then Some(trader1)
      else if user == trader2.user then Some(trader2)
      else None
    }

    /** A trade that `get_trade` throws away: its view is finished or a side cancelled. */
    predicate IsStale()
      reads this, trader1, trader2
    {
      viewFinished || trader1.cancelled || trader2.cancelled
    }
  }
}
