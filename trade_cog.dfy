/**
 * ballsdex/packages/trade/cog.py: the trades in progress, per guild and channel, and the
 * `begin`, `add`, `remove` and `coins add`/`coins remove` commands that act on them.
 *
 * `trades` stands for the cache of per-guild `defaultdict`s: a missing channel reads as an
 * empty list (`Channel`). `get_trade` creates the guild's entry when it is missing, and
 * drops the stale sessions it walks past. The cache's time-based expiry is not modelled.
 */
module TradeCog {
  import opened Common
  import opened Sessions
  import opened Models
  import opened TradeUser
  import opened TradeMenus

  /** The two sides of every menu of `s`: with the menus, what the staleness test reads. */
  function Sides(s: seq<TradeMenu>): set<TradingUser>
  {
    (set m | m in s :: m.trader1) + (set m | m in s :: m.trader2)
  }

  /** The stale sessions of a list: finished, or cancelled by either side. */
  function Stale(s: seq<TradeMenu>): set<TradeMenu>
    reads s, Sides(s)
  {
    set m | m in s && m.IsStale()
  }

  /** The sessions of `s` that involve `user` (the sides of a menu never change). */
  function Mine(s: seq<TradeMenu>, user: int): set<TradeMenu>
  {
    set m | m in s && m.GetTrader(user).Some?
  }

  /** `user` has a session in `s` that is not among the stale ones. */
  predicate InTrade(s: seq<TradeMenu>, stale: set<TradeMenu>, user: int)
  {
    HasLive(s, stale, Mine(s, user))
  }

  /** The session of `s` that `get_trade` finds for `user`, with the user's side of it. */
  function Lookup(s: seq<TradeMenu>, stale: set<TradeMenu>, user: int): (r: Option<(TradeMenu, TradingUser)>)
    ensures r.Some? <==> InTrade(s, stale, user)
    ensures r.Some? ==> r.value.0 in s && r.value.0 !in stale && r.value.0.GetTrader(user) == Some(r.value.1)
  {
    FirstMatchIsFirst(s, stale, Mine(s, user));
    var i := FirstMatch(s, stale, Mine(s, user));
    if i < |s| then Some((s[i], s[i].GetTrader(user).value)) else None
  }

  /** The side `get_trade` finds for `user`, as a set: empty when there is no live session. */
  function FoundSide(s: seq<TradeMenu>, stale: set<TradeMenu>, user: int): set<TradingUser>
  {
    var r := Lookup(s, stale, user);
    if r.Some? then {r.value.1} else {}
  }

  /** The list `get_trade` leaves behind for `user`. */
  function PrunedFor(s: seq<TradeMenu>, stale: set<TradeMenu>, user: int): seq<TradeMenu>
  {
    Pruned(s, stale, Mine(s, user))
  }

  /** The invariant of a channel's list: no session twice, and two distinct sides in each. */
  predicate ChannelOk(s: seq<TradeMenu>)
  {
    NoDup(s) && forall m :: m in s ==> m.Valid()
  }

  /** Every channel's list keeps the channel invariant. */
  predicate AllOk(trades: map<int, map<int, seq<TradeMenu>>>)
  {
    forall g, c :: g in trades && c in trades[g] ==> ChannelOk(trades[g][c])
  }

  /** `trades[guild][channel] = list` on the guild's `defaultdict`. */
  function SetChannel(trades: map<int, map<int, seq<TradeMenu>>>, guild: int, channel: int,
                      list: seq<TradeMenu>): (r: map<int, map<int, seq<TradeMenu>>>)
    ensures guild in r && channel in r[guild] && r[guild][channel] == list
  {
    trades[guild := (if guild in trades then trades[guild] else map[])[channel := list]]
  }

  /** Storing a list that keeps the channel invariant keeps every channel's invariant. */
  lemma SetChannelOk(trades: map<int, map<int, seq<TradeMenu>>>, guild: int, channel: int,
                     list: seq<TradeMenu>)
    requires AllOk(trades) && ChannelOk(list)
    ensures AllOk(SetChannel(trades, guild, channel, list))
  {
    var r := SetChannel(trades, guild, channel, list);
    forall g, c | g in r && c in r[g] ensures ChannelOk(r[g][c]) {
      if g != guild || c != channel {
        assert r[g][c] == trades[g][c];
      }
    }
  }

  /**
   * The map once `get_trade` has run for `user` on one channel, the stale sessions being
   * `stale`: a missing guild gets an empty entry, a missing channel stays missing, and an
   * existing list is pruned.
   */
  function AfterGet(trades: map<int, map<int, seq<TradeMenu>>>, guild: int, channel: int,
                    stale: set<TradeMenu>, user: int): (r: map<int, map<int, seq<TradeMenu>>>)
    ensures forall g :: g in r <==> g in trades || g == guild
    ensures forall g :: g in trades && g != guild ==> r[g] == trades[g]
  {
    if guild !in trades then trades[guild := map[]]
    else if channel in trades[guild] then
      SetChannel(trades, guild, channel, PrunedFor(trades[guild][channel], stale, user))
    else trades
  }

  /** Storing a channel's list overrides whatever `get_trade` did to the map before. */
  lemma SetAfterGet(trades: map<int, map<int, seq<TradeMenu>>>, guild: int, channel: int,
                    stale: set<TradeMenu>, user: int, list: seq<TradeMenu>)
    ensures SetChannel(AfterGet(trades, guild, channel, stale, user), guild, channel, list)
      == SetChannel(trades, guild, channel, list)
  {
    var inner := if guild in trades then trades[guild] else map[];
    var after := AfterGet(trades, guild, channel, stale, user);
    assert after[guild][channel := list] == inner[channel := list];
  }

  /** `get_trade` for one user and then for another, on a channel that has a list. */
  lemma AfterGetTwice(trades: map<int, map<int, seq<TradeMenu>>>, guild: int, channel: int,
                      stale: set<TradeMenu>, user1: int, user2: int)
    requires guild in trades && channel in trades[guild]
    ensures AfterGet(AfterGet(trades, guild, channel, stale, user1), guild, channel, stale, user2)
      == SetChannel(trades, guild, channel, PrunedFor(PrunedFor(trades[guild][channel], stale, user1), stale, user2))
  {
    var first := PrunedFor(trades[guild][channel], stale, user1);
    SetAfterGet(trades, guild, channel, stale, user1, PrunedFor(first, stale, user2));
  }

  /** Pruning keeps the channel's invariant. */
  lemma PrunedOk(s: seq<TradeMenu>, stale: set<TradeMenu>, user: int)
    requires ChannelOk(s)
    ensures ChannelOk(PrunedFor(s, stale, user))
    ensures forall m :: m in PrunedFor(s, stale, user) ==> m in s
  {
    PrunedKeepsLive(s, stale, Mine(s, user));
  }

  /**
   * The scan of `get_trade`: walk the list, collecting the stale sessions, until a live
   * session involves `user`.
   */
  method Scan(s: seq<TradeMenu>, user: int) returns (i: nat, toRemove: seq<TradeMenu>)
    ensures i == FirstMatch(s, Stale(s), Mine(s, user))
    ensures toRemove == Select(s[..i], Stale(s))
  {
    ghost var stale := Stale(s);
    assert allocated(s) && allocated(Sides(s));
    toRemove := [];
    i := 0;
    while i < |s|
      invariant 0 <= i <= |s|
      invariant toRemove == Select(s[..i], stale)
      invariant forall k :: 0 <= k < i ==> s[k] in stale || s[k] !in Mine(s, user)
    {
      var trade := s[i];
      assert s[..i + 1] == s[..i] + [trade];
      SelectAppend(s[..i], trade, stale);
      assert trade.trader1 in Sides(s) && trade.trader2 in Sides(s);
      if trade.viewFinished || trade.trader1.cancelled || trade.trader2.cancelled {
        toRemove := toRemove + [trade];
      } else {
        var trader := trade.GetTrader(user);
        if trader.Some? {
          break;
        }
      }
      i := i + 1;
    }
    FirstMatchIsFirst(s, stale, Mine(s, user));
  }

  /**
   * The body of `get_trade` on one channel's list: the session found for `user`, and the
   * list once the stale sessions walked past are removed.
   */
  method Find(s: seq<TradeMenu>, user: int) returns (r: Option<(TradeMenu, TradingUser)>, t: seq<TradeMenu>)
    requires ChannelOk(s)
    ensures r == Lookup(s, Stale(s), user)
    ensures t == PrunedFor(s, Stale(s), user) && ChannelOk(t)
  {
    var i, toRemove := Scan(s, user);
    assert allocated(s) && allocated(Sides(s));
    t := RemoveAll(s, toRemove);
    ScanThenRemove(s, Stale(s), Mine(s, user), i, toRemove, t);
    PrunedOk(s, Stale(s), user);
    FirstMatchIsFirst(s, Stale(s), Mine(s, user));
    if i < |s| {
      r := Some((s[i], s[i].GetTrader(user).value));
    } else {
      r := None;
    }
  }

  /** A new menu between two new traders, as `begin` builds it. */
  method NewMenu(author: int, opponent: int, player1: Player, player2: Player)
    returns (menu: TradeMenu)
    requires author != opponent && player1 != player2
    ensures fresh(menu) && fresh(menu.trader1) && fresh(menu.trader2) && menu.Valid()
    ensures menu.trader1.user == author && menu.trader1.player == player1
    ensures menu.trader2.user == opponent && menu.trader2.player == player2
    ensures menu.trader1.proposal == [] && menu.trader2.proposal == []
    ensures menu.trader1.coins == 0 && menu.trader2.coins == 0
  {
    var trader1 := new TradingUser(author, player1);
    var trader2 := new TradingUser(opponent, player2);
    menu := new TradeMenu(trader1, trader2);
  }

  datatype BeginReply =
    | CannotTradeBot
    | CannotTradeSelf
    | YouBlocked
    | BlockedByOpponent
    | AlreadyTrading
    | OpponentTrading
    | OpponentBlacklisted
    | Started

  /**
   * What `begin` answers once its first four guards pass, given the channel's list and its
   * stale sessions: the author's own session first, then the opponent's, then the blacklist.
   */
  function BeginOutcome(s: seq<TradeMenu>, stale: set<TradeMenu>, author: int, opponent: int,
                        blacklist: set<int>): (r: BeginReply)
    ensures r in {AlreadyTrading, OpponentTrading, OpponentBlacklisted, Started}
    ensures r == AlreadyTrading <==> InTrade(s, stale, author)
    ensures r == OpponentTrading <==> !InTrade(s, stale, author) && InTrade(s, stale, opponent)
    ensures r == Started <==>
      !InTrade(s, stale, author) && !InTrade(s, stale, opponent) && opponent !in blacklist
  {
    if InTrade(s, stale, author) then AlreadyTrading
    else if InTrade(s, stale, opponent) then OpponentTrading
    else if opponent in blacklist then OpponentBlacklisted
    else Started
  }

  datatype AddReply =
    | Untradeable
    | FavoriteKept
    | NoTrade
    | ProposalLocked
    | AlreadyProposed
    | BallLocked
    | Added

  datatype RemoveReply = NoTradeToEdit | LockedProposal | NotProposed | Removed

  datatype CoinsReply = NoOngoingTrade | CoinsLocked | NotPositive | TooMany | CoinsChanged

  /** The cog: `trades[guild][channel]` is the list of sessions of a channel. */
  class Trade {
    var trades: map<int, map<int, seq<TradeMenu>>>

    /** No session is listed twice in a channel, and every session has two distinct sides. */
    ghost predicate Valid()
      reads this
    {
      AllOk(trades)
    }

    constructor ()
      ensures trades == map[] && Valid()
    {
      trades := map[];
    }

    /** `trades[guild][channel]` as the `defaultdict` reads it. */
    function Channel(guild: int, channel: int): seq<TradeMenu>
      reads this
    {
      if guild in trades && channel in trades[guild] then trades[guild][channel] else []
    }

    /**
     * `get_trade`: a missing guild gets an empty entry, and with no list for the channel
     * there is no session. Otherwise the scan stops at the first live session that involves
     * `user` and returns it with the user's side; the stale sessions it walked past are
     * removed from the list, and the rest of the list is left as it was.
     */
    method GetTrade(guild: int, channel: int, user: int) returns (r: Option<(TradeMenu, TradingUser)>)
      requires Valid()
      modifies this`trades
      ensures Valid() && guild in trades
      ensures trades == old(AfterGet(trades, guild, channel, Stale(Channel(guild, channel)), user))
      ensures Channel(guild, channel) == old(PrunedFor(Channel(guild, channel), Stale(Channel(guild, channel)), user))
      ensures r == old(Lookup(Channel(guild, channel), Stale(Channel(guild, channel)), user))
      ensures r.Some? ==> r.value.0.Valid()
      ensures forall m :: m in Channel(guild, channel) ==>
        (m in Stale(Channel(guild, channel)) <==> m in old(Stale(Channel(guild, channel))))
    {
      if guild !in trades {
        var added := trades[guild := map[]];
        forall g, c | g in added && c in added[g] ensures ChannelOk(added[g][c]) {
          assert g != guild && added[g] == trades[g];
        }
        trades := added;
        return None;
      }
      if channel !in trades[guild] {
        return None;
      }
      var s := trades[guild][channel];
      assert ChannelOk(s);
      assert allocated(s) && allocated(Sides(s));
      var t;
      r, t := Find(s, user);
      PrunedOk(s, Stale(s), user);
      SetChannelOk(trades, guild, channel, t);
      trades := SetChannel(trades, guild, channel, t);
      assert Channel(guild, channel) == t;
      forall m | m in t ensures m in Stale(t) <==> m in Stale(s) {
        assert m.trader1 in Sides(t) && m.trader2 in Sides(t);
      }
    }

    /** `trades[guild][channel].append(menu)`. */
    method Open(guild: int, channel: int, menu: TradeMenu)
      requires Valid() && menu.Valid() && menu !in Channel(guild, channel)
      modifies this`trades
      ensures Valid()
      ensures trades == SetChannel(old(trades), guild, channel, old(Channel(guild, channel)) + [menu])
      ensures Channel(guild, channel) == old(Channel(guild, channel)) + [menu]
    {
      var list := Channel(guild, channel);
      assert ChannelOk(list) by {
        if guild in trades && channel in trades[guild] {
          assert list == trades[guild][channel];
        }
      }
      NoDupAppend(list, [menu]);
      SetChannelOk(trades, guild, channel, list + [menu]);
      trades := SetChannel(trades, guild, channel, list + [menu]);
    }

    /**
     * `begin`: the guards in the order the command checks them, each on its own (`blocks`
     * holds the pairs (blocker, blocked) of the block lists); then a new menu between two
     * new traders is appended to the channel's list.
     */
    method Begin(guild: int, channel: int, author: int, opponent: int, opponentIsBot: bool,
                 player1: Player, player2: Player, blocks: set<(int, int)>, blacklist: set<int>)
      returns (reply: BeginReply, menu: TradeMenu?)
      requires Valid()
      requires player1.discordId == author && player2.discordId == opponent
      requires author != opponent ==> player1 != player2
      modifies this`trades
      ensures Valid()
      ensures reply == CannotTradeBot <==> opponentIsBot
      ensures reply == CannotTradeSelf <==> !opponentIsBot && opponent == author
      ensures reply == YouBlocked <==>
        !opponentIsBot && opponent != author && (author, opponent) in blocks
      ensures reply == BlockedByOpponent <==>
        && !opponentIsBot && opponent != author && (author, opponent) !in blocks
        && (opponent, author) in blocks
      ensures reply in {CannotTradeBot, CannotTradeSelf, YouBlocked, BlockedByOpponent} ==>
        trades == old(trades) && menu == null
      ensures reply !in {CannotTradeBot, CannotTradeSelf, YouBlocked, BlockedByOpponent} ==>
        old(BeginOutcome(Channel(guild, channel), Stale(Channel(guild, channel)), author, opponent, blacklist)) == reply
      ensures reply in {AlreadyTrading, OpponentTrading, OpponentBlacklisted} ==>
        var stale := old(Stale(Channel(guild, channel)));
        trades == AfterGet(AfterGet(old(trades), guild, channel, stale, author), guild, channel, stale, opponent)
      ensures reply == Started ==>
        && menu != null
        && trades == SetChannel(old(trades), guild, channel,
                                old(Without(Channel(guild, channel), Stale(Channel(guild, channel)))) + [menu])
      ensures reply == Started <==> menu != null
      ensures reply == Started ==>
        && fresh(menu) && menu.Valid()
        && menu.trader1.user == author && menu.trader1.player == player1
        && menu.trader2.user == opponent && menu.trader2.player == player2
        && menu.trader1.proposal == [] && menu.trader2.proposal == []
        && menu.trader1.coins == 0 && menu.trader2.coins == 0
      ensures reply == Started ==>
        Channel(guild, channel) == old(Without(Channel(guild, channel), Stale(Channel(guild, channel)))) + [menu]
    {
      menu := null;
      if opponentIsBot {
        return CannotTradeBot, null;
      }
      if opponent == author {
        return CannotTradeSelf, null;
      }
      if (author, opponent) in blocks {
        return YouBlocked, null;
      }
      if (opponent, author) in blocks {
        return BlockedByOpponent, null;
      }
      reply, menu := Start(guild, channel, author, opponent, player1, player2, blacklist);
    }

    /**
     * The two lookups of `begin`: `get_trade` for the author, then for the opponent. Each
     * reports whether that user has a live session; when neither has one, both lookups
     * together leave exactly the channel's live sessions.
     */
    method GetBoth(guild: int, channel: int, author: int, opponent: int) returns (found1: bool, found2: bool)
      requires Valid()
      modifies this`trades
      ensures Valid()
      ensures found1 == old(InTrade(Channel(guild, channel), Stale(Channel(guild, channel)), author))
      ensures found2 == old(InTrade(Channel(guild, channel), Stale(Channel(guild, channel)), opponent))
      ensures var stale := old(Stale(Channel(guild, channel)));
        trades == AfterGet(AfterGet(old(trades), guild, channel, stale, author), guild, channel, stale, opponent)
      ensures !found1 && !found2 ==>
        Channel(guild, channel) == old(Without(Channel(guild, channel), Stale(Channel(guild, channel))))
    {
      ghost var s0 := Channel(guild, channel);
      ghost var st0 := Stale(s0);
      assert ChannelOk(s0) by {
        if guild in trades && channel in trades[guild] {
          assert s0 == trades[guild][channel];
        }
      }
      PrunedSameLive(s0, st0, Mine(s0, author), Mine(s0, opponent));
      PrunedOk(s0, st0, author);
      var r1 := GetTrade(guild, channel, author);
      ghost var s1 := Channel(guild, channel);
      ghost var t1 := trades;
      SameOn(s1, Stale(s1), st0, Mine(s1, opponent), Mine(s0, opponent));
      SameOn(s1, Stale(s1), st0, Mine(s1, opponent), Mine(s1, opponent));
      var r2 := GetTrade(guild, channel, opponent);
      assert trades == AfterGet(t1, guild, channel, st0, opponent);
      if guild in old(trades) && channel in old(trades)[guild] {
        AfterGetTwice(old(trades), guild, channel, st0, author, opponent);
      }
      found1, found2 := r1.Some?, r2.Some?;
      if !found1 && !found2 {
        PrunedWithoutMatch(s0, st0, Mine(s0, author));
        PruneTwice(s0, st0, Mine(s1, opponent));
      }
    }

    /** A new session between the two users, appended to the channel's list. */
    method OpenNew(guild: int, channel: int, author: int, opponent: int, player1: Player, player2: Player)
      returns (menu: TradeMenu)
      requires Valid() && author != opponent && player1 != player2
      modifies this`trades
      ensures Valid()
      ensures fresh(menu) && menu.Valid()
      ensures menu.trader1.user == author && menu.trader1.player == player1
      ensures menu.trader2.user == opponent && menu.trader2.player == player2
      ensures menu.trader1.proposal == [] && menu.trader2.proposal == []
      ensures menu.trader1.coins == 0 && menu.trader2.coins == 0
      ensures trades == SetChannel(old(trades), guild, channel, old(Channel(guild, channel)) + [menu])
      ensures Channel(guild, channel) == old(Channel(guild, channel)) + [menu]
    {
      menu := NewMenu(author, opponent, player1, player2);
      Open(guild, channel, menu);
    }

    /** The second half of `begin`: both lookups, the remaining guards, and the new session. */
    method Start(guild: int, channel: int, author: int, opponent: int,
                 player1: Player, player2: Player, blacklist: set<int>)
      returns (reply: BeginReply, menu: TradeMenu?)
      requires Valid() && author != opponent && player1 != player2
      requires player1.discordId == author && player2.discordId == opponent
      modifies this`trades
      ensures Valid()
      ensures reply == old(BeginOutcome(Channel(guild, channel), Stale(Channel(guild, channel)), author, opponent, blacklist))
      ensures reply != Started ==>
        var stale := old(Stale(Channel(guild, channel)));
        trades == AfterGet(AfterGet(old(trades), guild, channel, stale, author), guild, channel, stale, opponent)
      ensures reply == Started <==> menu != null
      ensures reply == Started ==>
        && fresh(menu) && menu.Valid()
        && menu.trader1.user == author && menu.trader1.player == player1
        && menu.trader2.user == opponent && menu.trader2.player == player2
        && menu.trader1.proposal == [] && menu.trader2.proposal == []
        && menu.trader1.coins == 0 && menu.trader2.coins == 0
      ensures reply == Started ==>
        Channel(guild, channel) == old(Without(Channel(guild, channel), Stale(Channel(guild, channel)))) + [menu]
      ensures reply == Started ==>
        && menu != null
        && trades == SetChannel(old(trades), guild, channel,
                                old(Without(Channel(guild, channel), Stale(Channel(guild, channel)))) + [menu])
    {
      menu := null;
      ghost var stale := Stale(Channel(guild, channel));
      ghost var live := Without(Channel(guild, channel), stale);
      var found1, found2 := GetBoth(guild, channel, author, opponent);
      if found1 {
        return AlreadyTrading, null;
      }
      if found2 {
        return OpponentTrading, null;
      }
      if opponent in blacklist {
        return OpponentBlacklisted, null;
      }
      ghost var t1 := AfterGet(old(trades), guild, channel, stale, author);
      var created := OpenNew(guild, channel, author, opponent, player1, player2);
      SetAfterGet(t1, guild, channel, stale, opponent, live + [created]);
      SetAfterGet(old(trades), guild, channel, stale, author, live + [created]);
      reply, menu := Started, created;
    }

    /** The checks of `add` once the caller's side is known, then the proposal itself. */
    static method Propose(trader: TradingUser, ball: BallInstance) returns (reply: AddReply)
      modifies trader`proposal, ball`locked
      ensures reply in {ProposalLocked, AlreadyProposed, BallLocked, Added}
      ensures reply == ProposalLocked <==> trader.locked
      ensures reply == AlreadyProposed <==> !trader.locked && ball in old(trader.proposal)
      ensures reply == BallLocked <==> !trader.locked && ball !in old(trader.proposal) && old(ball.locked)
      ensures reply == Added ==> trader.proposal == old(trader.proposal) + [ball] && ball.locked
      ensures reply != Added ==> trader.proposal == old(trader.proposal) && ball.locked == old(ball.locked)
    {
      if trader.locked {
        return ProposalLocked;
      }
      if ball in trader.proposal {
        return AlreadyProposed;
      }
      if ball.locked {
        return BallLocked;
      }
      ball.LockForTrade();
      trader.proposal := trader.proposal + [ball];
      reply := Added;
    }

    /**
     * `add`: an untradeable ball, or a favourite whose owner does not confirm, is refused
     * before any lookup. Then the caller needs a live session, an unlocked proposal, and a
     * ball neither proposed already nor locked elsewhere. The ball is locked and appended.
     */
    method Add(guild: int, channel: int, user: int, ball: BallInstance, keepFavorite: bool)
      returns (reply: AddReply, found: Option<(TradeMenu, TradingUser)>)
      requires Valid()
      modifies this`trades, ball`locked
      modifies FoundSide(Channel(guild, channel), Stale(Channel(guild, channel)), user)`proposal
      ensures Valid()
      ensures reply == Untradeable <==> !ball.tradeable
      ensures reply == FavoriteKept <==> ball.tradeable && ball.favorite && keepFavorite
      ensures reply in {Untradeable, FavoriteKept} ==>
        trades == old(trades) && found.None? && ball.locked == old(ball.locked)
      ensures reply in {Untradeable, FavoriteKept} ==>
        forall t :: t in old(FoundSide(Channel(guild, channel), Stale(Channel(guild, channel)), user)) ==>
          t.proposal == old(t.proposal)
      ensures reply !in {Untradeable, FavoriteKept} ==>
        found == old(Lookup(Channel(guild, channel), Stale(Channel(guild, channel)), user))
      ensures reply == NoTrade ==> found.None? && ball.locked == old(ball.locked)
      ensures reply !in {Untradeable, FavoriteKept, NoTrade} ==> found.Some?
      ensures found.Some? ==> var b := found.value.1;
        && (reply == ProposalLocked <==> b.locked)
        && (reply == AlreadyProposed <==> !b.locked && ball in old(b.proposal))
        && (reply == BallLocked <==> !b.locked && ball !in old(b.proposal) && old(ball.locked))
        && (reply == Added ==> b.proposal == old(b.proposal) + [ball] && ball.locked)
        && (reply != Added ==> b.proposal == old(b.proposal) && ball.locked == old(ball.locked))
      ensures reply !in {Untradeable, FavoriteKept} ==>
        trades == old(AfterGet(trades, guild, channel, Stale(Channel(guild, channel)), user))
    {
      found := None;
      if !ball.tradeable {
        return Untradeable, None;
      }
      if ball.favorite && keepFavorite {
        return FavoriteKept, None;
      }
      found := GetTrade(guild, channel, user);
      if found.None? {
        return NoTrade, found;
      }
      reply := Propose(found.value.1, ball);
    }

    /** The checks of `remove` once the caller's side is known, then the ball leaves the proposal. */
    static method Withdraw(trader: TradingUser, ball: BallInstance) returns (reply: RemoveReply)
      modifies trader`proposal, ball`locked
      ensures reply != NoTradeToEdit
      ensures reply == LockedProposal <==> trader.locked
      ensures reply == NotProposed <==> !trader.locked && ball !in old(trader.proposal)
      ensures reply == Removed ==> trader.proposal == RemoveFirst(old(trader.proposal), ball) && !ball.locked
      ensures reply != Removed ==> trader.proposal == old(trader.proposal) && ball.locked == old(ball.locked)
    {
      if trader.locked {
        return LockedProposal;
      }
      if ball !in trader.proposal {
        return NotProposed;
      }
      trader.proposal := RemoveFirst(trader.proposal, ball);
      ball.Unlock();
      reply := Removed;
    }

    /**
     * `remove`: the caller needs a live session, an unlocked proposal and the ball in the
     * proposal; the first occurrence of the ball leaves the proposal and the ball is unlocked.
     */
    method Remove(guild: int, channel: int, user: int, ball: BallInstance)
      returns (reply: RemoveReply, found: Option<(TradeMenu, TradingUser)>)
      requires Valid()
      modifies this`trades, ball`locked
      modifies FoundSide(Channel(guild, channel), Stale(Channel(guild, channel)), user)`proposal
      ensures Valid()
      ensures found == old(Lookup(Channel(guild, channel), Stale(Channel(guild, channel)), user))
      ensures reply == NoTradeToEdit <==> found.None?
      ensures found.Some? ==> var b := found.value.1;
        && (reply == LockedProposal <==> b.locked)
        && (reply == NotProposed <==> !b.locked && ball !in old(b.proposal))
        && (reply == Removed ==> b.proposal == RemoveFirst(old(b.proposal), ball) && !ball.locked)
        && (reply != Removed ==> b.proposal == old(b.proposal) && ball.locked == old(ball.locked))
      ensures found.None? ==> ball.locked == old(ball.locked)
      ensures trades == old(AfterGet(trades, guild, channel, Stale(Channel(guild, channel)), user))
    {
      found := GetTrade(guild, channel, user);
      if found.None? {
        return NoTradeToEdit, found;
      }
      reply := Withdraw(found.value.1, ball);
    }

    /** The checks of `coins add` once the caller's side is known, then the coins are proposed. */
    static method OfferCoins(trader: TradingUser, amount: int) returns (reply: CoinsReply)
      modifies trader`coins
      ensures reply != NoOngoingTrade
      ensures reply == CoinsLocked <==> trader.locked
      ensures reply == NotPositive <==> !trader.locked && amount <= 0
      ensures reply == TooMany <==> !trader.locked && amount > 0 && amount > trader.player.coins
      ensures reply == CoinsChanged ==> trader.coins == old(trader.coins) + amount
      ensures reply != CoinsChanged ==> trader.coins == old(trader.coins)
    {
      if trader.locked {
        return CoinsLocked;
      }
      if amount <= 0 {
        return NotPositive;
      }
      if amount > trader.player.coins {
        return TooMany;
      }
      trader.AddCoins(amount);
      reply := CoinsChanged;
    }

    /** The checks of `coins remove` once the caller's side is known, then the coins are withdrawn. */
    static method TakeBackCoins(trader: TradingUser, amount: int) returns (reply: CoinsReply)
      modifies trader`coins
      ensures reply != NoOngoingTrade
      ensures reply == CoinsLocked <==> trader.locked
      ensures reply == NotPositive <==> !trader.locked && amount <= 0
      ensures reply == TooMany <==> !trader.locked && amount > 0 && amount > old(trader.coins)
      ensures reply == CoinsChanged ==> trader.coins == old(trader.coins) - amount && trader.coins >= 0
      ensures reply != CoinsChanged ==> trader.coins == old(trader.coins)
    {
      if trader.locked {
        return CoinsLocked;
      }
      if amount <= 0 {
        return NotPositive;
      }
      if amount > trader.coins {
        return TooMany;
      }
      trader.RemoveCoins(amount);
      reply := CoinsChanged;
    }

    /**
     * `coins add`: the caller needs a live session, an unlocked proposal and a positive
     * amount no larger than their balance. The balance is not reduced by the coins already
     * proposed, so repeated calls can propose more than the player owns.
     */
    method CoinsAdd(guild: int, channel: int, user: int, amount: int)
      returns (reply: CoinsReply, found: Option<(TradeMenu, TradingUser)>)
      requires Valid()
      modifies this`trades
      modifies FoundSide(Channel(guild, channel), Stale(Channel(guild, channel)), user)`coins
      ensures Valid()
      ensures found == old(Lookup(Channel(guild, channel), Stale(Channel(guild, channel)), user))
      ensures reply == NoOngoingTrade <==> found.None?
      ensures found.Some? ==> var b := found.value.1;
        && (reply == CoinsLocked <==> b.locked)
        && (reply == NotPositive <==> !b.locked && amount <= 0)
        && (reply == TooMany <==> !b.locked && amount > 0 && amount > b.player.coins)
        && (reply == CoinsChanged ==> b.coins == old(b.coins) + amount)
        && (reply != CoinsChanged ==> b.coins == old(b.coins))
        && b.proposal == old(b.proposal)
      ensures trades == old(AfterGet(trades, guild, channel, Stale(Channel(guild, channel)), user))
    {
      found := GetTrade(guild, channel, user);
      if found.None? {
        return NoOngoingTrade, found;
      }
      reply := OfferCoins(found.value.1, amount);
    }

    /**
     * `coins remove`: the caller needs a live session, an unlocked proposal and a positive
     * amount no larger than the coins proposed, so the proposed coins never go below zero.
     */
    method CoinsRemove(guild: int, channel: int, user: int, amount: int)
      returns (reply: CoinsReply, found: Option<(TradeMenu, TradingUser)>)
      requires Valid()
      modifies this`trades
      modifies FoundSide(Channel(guild, channel), Stale(Channel(guild, channel)), user)`coins
      ensures Valid()
      ensures found == old(Lookup(Channel(guild, channel), Stale(Channel(guild, channel)), user))
      ensures reply == NoOngoingTrade <==> found.None?
      ensures found.Some? ==> var b := found.value.1;
        && (reply == CoinsLocked <==> b.locked)
        && (reply == NotPositive <==> !b.locked && amount <= 0)
        && (reply == TooMany <==> !b.locked && amount > 0 && amount > old(b.coins))
        && (reply == CoinsChanged ==> b.coins == old(b.coins) - amount && b.coins >= 0)
        && (reply != CoinsChanged ==> b.coins == old(b.coins))
        && b.proposal == old(b.proposal)
      ensures trades == old(AfterGet(trades, guild, channel, Stale(Channel(guild, channel)), user))
    {
      found := GetTrade(guild, channel, user);
      if found.None? {
        return NoOngoingTrade, found;
      }
      reply := TakeBackCoins(found.value.1, amount);
    }
  }
}
