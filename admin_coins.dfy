/**
 * ballsdex/packages/admin/coins.py: an admin grants coins to a player or takes some away.
 * The role check is the framework's and is not modelled; the player is the row that
 * `get_or_create` returns.
 */
module AdminCoins {
  import opened Models

  /** The most coins one grant may add. */
  const MaxGrant: int := 1000000

  datatype CoinsReply = NotPositive | OverGrantLimit | BelowOne | OverBalance | CoinsUpdated

  /** `coins_add` on a balance: the amount must be positive and at most the grant limit. */
  function Grant(balance: int, amount: int): (r: (CoinsReply, int))
    ensures r.0 == NotPositive <==> amount <= 0
    ensures r.0 == OverGrantLimit <==> 0 < amount && MaxGrant < amount
    ensures r.0 == CoinsUpdated <==> 0 < amount <= MaxGrant
    ensures r.0 == CoinsUpdated ==> r.1 == balance + amount && balance < r.1 <= balance + MaxGrant
    ensures r.0 != CoinsUpdated ==> r.1 == balance
  {
    if amount <= 0 then (NotPositive, balance)
    else if amount > MaxGrant then (OverGrantLimit, balance)
    else (CoinsUpdated, balance + amount)
  }

  /** `coins_remove` on a balance: at least one coin, and no more than the player has. */
  function Withdraw(balance: int, amount: int): (r: (CoinsReply, int))
    ensures r.0 == BelowOne <==> amount < 1
    ensures r.0 == OverBalance <==> 1 <= amount && balance < amount
    ensures r.0 == CoinsUpdated <==> 1 <= amount <= balance
    ensures r.0 == CoinsUpdated ==> r.1 == balance - amount && 0 <= r.1 < balance
    ensures r.0 != CoinsUpdated ==> r.1 == balance
  {
    if amount < 1 then (BelowOne, balance)
    else if amount > balance then (OverBalance, balance)
    else (CoinsUpdated, balance - amount)
  }

  /** A withdrawal never takes a balance below zero, whatever the amount. */
  lemma WithdrawKeepsNonNegative(balance: int, amount: int)
    requires 0 <= balance
    ensures 0 <= Withdraw(balance, amount).1 <= balance
  {
  }

  /**
   * Granting and then withdrawing the same amount gives back a balance that is not
   * negative (from a negative balance the withdrawal is refused).
   */
  lemma GrantThenWithdraw(balance: int, amount: int)
    requires 0 <= balance && Grant(balance, amount).0 == CoinsUpdated
    ensures Withdraw(Grant(balance, amount).1, amount) == (CoinsUpdated, balance)
  {
  }

  /** `coins_add`: the guards, then `add_coins`. */
  method CoinsAdd(player: Player, amount: int) returns (reply: CoinsReply)
    modifies player`coins
    ensures (reply, player.coins) == Grant(old(player.coins), amount)
  {
    if amount <= 0 {
      return NotPositive;
    }
    if amount > MaxGrant {
      return OverGrantLimit;
    }
    player.AddCoins(amount);
    reply := CoinsUpdated;
  }

  /** `coins_remove`: the guards, then `remove_coins`. */
  method CoinsRemove(player: Player, amount: int) returns (reply: CoinsReply)
    modifies player`coins
    ensures (reply, player.coins) == Withdraw(old(player.coins), amount)
  {
    if amount < 1 {
      return BelowOne;
    }
    if amount > player.coins {
      return OverBalance;
    }
    player.RemoveCoins(amount);
    reply := CoinsUpdated;
  }
}
