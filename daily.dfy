/**
 * The midnight reset shared by the battle and trade cogs
 * (ballsdex/packages/battle/cog.py and ballsdex/packages/trade/cog.py both define it).
 */
module Daily {
  import opened Models

  const MicrosPerDay: int := 86_400_000_000
  const SecondsPerDay: real := 86400.0

  /**
   * `seconds_until_midnight_utc`: the time left until the next midnight, given the time of
   * day of "now" in microseconds. The date part of "now" cancels out: the next midnight
   * is the start of the following day. The wait is never zero and never more than a day,
   * and it is a whole day exactly at midnight.
   */
  function SecondsUntilMidnightUtc(micros: int): (r: real)
    requires 0 <= micros < MicrosPerDay
    ensures 0.0 < r <= SecondsPerDay
    ensures r == SecondsPerDay <==> micros == 0
  {
    (MicrosPerDay - micros) as real / 1000000.0
  }

  /** Waiting that long from "now" lands exactly on the next midnight. */
  lemma WaitEndsAtMidnight(micros: int)
    requires 0 <= micros < MicrosPerDay
    ensures micros as real / 1000000.0 + SecondsUntilMidnightUtc(micros) == SecondsPerDay
  {
  }

  /** A later time of day leaves less to wait. */
  lemma WaitDecreases(earlier: int, later: int)
    requires 0 <= earlier < later < MicrosPerDay
    ensures SecondsUntilMidnightUtc(later) < SecondsUntilMidnightUtc(earlier)
  {
  }

  /**
   * The daily task, `Player.all().update(trades_today=0)`: every player's trade count goes
   * back to 0. The battle cog's reset runs the same update, so `battles_today` is never
   * reset by it.
   */
  method ResetTradesToday(players: set<Player>)
    modifies players`tradesToday
    ensures forall p :: p in players ==> p.tradesToday == 0
    ensures forall p :: p in players ==> p.battlesToday == old(p.battlesToday) && p.coins == old(p.coins)
  {
    forall p | p in players {
      p.tradesToday := 0;
    }
  }

  /**
   * The battle cog's midnight task as written: it runs the trade reset, so every player's
   * `battles_today` keeps its value from one day to the next, and a player who has reached
   * the daily maximum never earns the battle bonus again.
   */
  method ResetBattlesAsWritten(players: set<Player>)
    modifies players`tradesToday
    ensures forall p :: p in players ==> p.battlesToday == old(p.battlesToday)
    ensures forall p :: p in players ==> p.tradesToday == 0
  {
    ResetTradesToday(players);
  }

  /** The battle cog's midnight task as its name intends: every `battles_today` goes back to 0. */
  method ResetBattlesToday(players: set<Player>)
    modifies players`battlesToday
    ensures forall p :: p in players ==> p.battlesToday == 0
    ensures forall p :: p in players ==> p.tradesToday == old(p.tradesToday) && p.coins == old(p.coins)
  {
    forall p | p in players {
      p.battlesToday := 0;
    }
  }
}
