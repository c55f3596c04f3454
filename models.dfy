/**
 * The database rows the core reads and updates. Their ORM definitions are not part of
 * this model: each is reduced to the fields the core touches, and the helpers the core
 * calls on them are stated as plain field updates.
 */
module Models {
  import opened Common

  /** Who may look at a player's inventory. */
  datatype PrivacyPolicy = AllowAll | DenyAll | FriendsOnlyView | SameServer

  /** Which donations a player takes. */
  datatype DonationPolicy = AlwaysAccept | RequestApproval | AlwaysDeny | FriendsOnly

  datatype TradeCooldownPolicy = Cooldown | Bypass

  datatype MentionPolicy = AllowMentions | DenyMentions

  datatype FriendPolicy = AllowFriendRequests | DenyFriendRequests

  /** The seasons a ball can belong to. */
  datatype Season = F12024 | Champs | F12025 | Limited

  /** How the listings title a season. */
  function SeasonName(s: Season): string
  {
    match s
    case F12024 => "F1 2024"
    case Champs => "Champions"
    case F12025 => "F1 2025"
    case Limited => "Limited"
  }

  /** A ball of the bot's cache, reduced to what the listings read of it. */
  datatype Ball = Ball(id: int, country: string, rarity: real, enabled: bool, season: Option<Season>,
                       emojiId: int, createdAt: int)

  /** A player row. `add_coins` and `remove_coins` are `coins += amount` and `coins -= amount`. */
  class Player {
    const discordId: int
    var coins: int
    var battlesToday: int
    var tradesToday: int
    var privacyPolicy: PrivacyPolicy
    var donationPolicy: DonationPolicy
    var tradeCooldownPolicy: TradeCooldownPolicy
    var mentionPolicy: MentionPolicy
    var friendPolicy: FriendPolicy

    constructor (discordId: int, coins: int, donationPolicy: DonationPolicy)
      ensures this.discordId == discordId && this.coins == coins
      ensures this.donationPolicy == donationPolicy
      ensures battlesToday == 0 && tradesToday == 0
    {
      this.discordId := discordId;
      this.coins := coins;
      this.donationPolicy := donationPolicy;
      battlesToday := 0;
      tradesToday := 0;
      privacyPolicy := AllowAll;
      tradeCooldownPolicy := Cooldown;
      mentionPolicy := AllowMentions;
      friendPolicy := AllowFriendRequests;
    }

    method AddCoins(amount: int)
      modifies this`coins
      ensures coins == old(coins) + amount
    {
      coins := coins + amount;
    }

    method RemoveCoins(amount: int)
      modifies this`coins
      ensures coins == old(coins) - amount
    {
      coins := coins - amount;
    }
  }

  /**
   * An instance of a collectible. `player` and `tradePlayer` hold the discord ids of the
   * owner and of the previous owner (rows compare by primary key, so ids stand for rows).
   * `locked` is the "in a trade, battle or donation" mark that `lock_for_trade`, `unlock`
   * and `is_locked` manage. `attack` and `health` are the values a battle counts for this
   * instance, after any special-event buff.
   */
  class BallInstance {
    const id: int
    const ball: int
    var player: int
    var tradePlayer: Option<int>
    var favorite: bool
    var locked: bool
    const tradeable: bool
    const packed: bool
    const special: Option<int>
    const attack: int
    const health: int
    const attackBonus: int
    const healthBonus: int

    constructor (id: int, ball: int, player: int, special: Option<int>, tradeable: bool,
                 attackBonus: int, healthBonus: int, attack: int, health: int)
      ensures this.id == id && this.ball == ball && this.player == player
      ensures this.attack == attack && this.health == health
      ensures this.special == special && this.tradeable == tradeable
      ensures this.attackBonus == attackBonus && this.healthBonus == healthBonus
      ensures tradePlayer == None && !favorite && !locked && !packed
    {
      this.id := id;
      this.ball := ball;
      this.player := player;
      this.special := special;
      this.tradeable := tradeable;
      this.attackBonus := attackBonus;
      this.healthBonus := healthBonus;
      tradePlayer := None;
      favorite := false;
      locked := false;
      packed := false;
      this.attack := attack;
      this.health := health;
    }

    method LockForTrade()
      modifies this`locked
      ensures locked
    {
      locked := true;
    }

    method Unlock()
      modifies this`locked
      ensures !locked
    {
      locked := false;
    }
  }
}
