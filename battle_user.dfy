/** ballsdex/packages/battle/battle_user.py: one side of a battle. */
module BattleUser {
  import opened Models

  /**
   * A battler: the discord user, their player row, the deck they propose and the three
   * flags of the negotiation. `user` is the discord user id.
   */
  class BattlingUser {
    const user: int
    const player: Player
    var proposal: seq<BallInstance>
    var locked: bool
    var cancelled: bool
    var accepted: bool

    /** The dataclass defaults: an empty deck and every flag down. */
    constructor (user: int, player: Player)
      ensures this.user == user && this.player == player
      ensures proposal == []
      ensures !locked && !cancelled && !accepted
    {
      this.user := user;
      this.player := player;
      proposal := [];
      locked := false;
      cancelled := false;
      accepted := false;
    }
  }
}
