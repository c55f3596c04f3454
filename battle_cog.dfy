/**
 * ballsdex/packages/battle/cog.py: the battles in progress, per guild and channel, and
 * the `begin`, `add` and `remove` commands that act on them.
 *
 * `battles` stands for the nested `defaultdict`: a missing guild or channel reads as an
 * empty list (`Channel`), and only `begin` creates entries. The sessions are looked up by
 * `get_battle`, which also drops the stale sessions it walks past.
 */
module BattleCog {
  import opened Common
  import opened Sessions
  import opened Models
  import opened BattleUser
  import opened BattleMenus

  /** The two sides of every menu of `s`: with the menus, what the staleness test reads. */
  function Sides(s: seq<BattleMenu>): set<BattlingUser>
  {
    (set m | m in s :: m.battler1) + (set m | m in s :: m.battler2)
  }

  /** The stale sessions of a list: finished, or cancelled by either side. */
  function Stale(s: seq<BattleMenu>): set<BattleMenu>
    reads s, Sides(s)
  {
    set m | m in s && m.IsStale()
  }

  /** The sessions of `s` that involve `user` (the sides of a menu never change). */
  function Mine(s: seq<BattleMenu>, user: int): set<BattleMenu>
  {
    set m | m in s && m.GetBattler(user).Some?
  }

  /** `user` has a session in `s` that is not among the stale ones. */
  predicate InBattle(s: seq<BattleMenu>, stale: set<BattleMenu>, user: int)
  {
    HasLive(s, stale, Mine(s, user))
  }

  /** The session of `s` that `get_battle` finds for `user`, with the user's side of it. */
  function Lookup(s: seq<BattleMenu>, stale: set<BattleMenu>, user: int): (r: Option<(BattleMenu, BattlingUser)>)
    ensures r.Some? <==> InBattle(s, stale, user)
    ensures r.Some? ==> r.value.0 in s && r.value.0 !in stale && r.value.0.GetBattler(user) == Some(r.value.1)
  {
    FirstMatchIsFirst(s, stale, Mine(s, user));
    var i := FirstMatch(s, stale, Mine(s, user));
    if i < |s| then Some((s[i], s[i].GetBattler(user).value)) else None
  }

  /** The side `get_battle` finds for `user`, as a set: empty when there is no live session. */
  function FoundSide(s: seq<BattleMenu>, stale: set<BattleMenu>, user: int): set<BattlingUser>
  {
    var r := Lookup(s, stale, user);
    if r.Some? then {r.value.1} else {}
  }

  /** The list `get_battle` leaves behind for `user`. */
  function PrunedFor(s: seq<BattleMenu>, stale: set<BattleMenu>, user: int): seq<BattleMenu>
  {
    Pruned(s, stale, Mine(s, user))
  }

  /** The invariant of a channel's list: no session twice, and two distinct sides in each. */
  predicate ChannelOk(s: seq<BattleMenu>)
  {
    NoDup(s) && forall m :: m in s ==> m.Valid()
  }

  /** Every channel's list keeps the channel invariant. */
  predicate AllOk(battles: map<int, map<int, seq<BattleMenu>>>)
  {
    forall g, c :: g in battles && c in battles[g] ==> ChannelOk(battles[g][c])
  }

  /** `battles[guild][channel] = list` on the `defaultdict`. */
  function SetChannel(battles: map<int, map<int, seq<BattleMenu>>>, guild: int, channel: int,
                      list: seq<BattleMenu>): (r: map<int, map<int, seq<BattleMenu>>>)
    ensures guild in r && channel in r[guild] && r[guild][channel] == list
  {
    battles[guild := (if guild in battles then battles[guild] else map[])[channel := list]]
  }

  /** Storing a list that keeps the channel invariant keeps every channel's invariant. */
  lemma SetChannelOk(battles: map<int, map<int, seq<BattleMenu>>>, guild: int, channel: int,
                     list: seq<BattleMenu>)
    requires AllOk(battles) && ChannelOk(list)
    ensures AllOk(SetChannel(battles, guild, channel, list))
  {
    var r := SetChannel(battles, guild, channel, list);
    forall g, c | g in r && c in r[g] ensures ChannelOk(r[g][c]) {
      if g != guild || c != channel {
        assert r[g][c] == battles[g][c];
      }
    }
  }

  /**
   * The map once `get_battle` has run for `user` on one channel, the stale sessions being
   * `stale`: the channel's list is pruned; a missing guild or channel stays missing.
   */
  function AfterGet(battles: map<int, map<int, seq<BattleMenu>>>, guild: int, channel: int,
                    stale: set<BattleMenu>, user: int): (r: map<int, map<int, seq<BattleMenu>>>)
    ensures forall g :: g in r <==> g in battles
    ensures forall g :: g in battles && g != guild ==> r[g] == battles[g]
  {
    if guild in battles && channel in battles[guild] then
      SetChannel(battles, guild, channel, PrunedFor(battles[guild][channel], stale, user))
    else battles
  }

  /** Storing a channel's list twice keeps only the second list. */
  lemma SetChannelTwice(battles: map<int, map<int, seq<BattleMenu>>>, guild: int, channel: int,
                        list1: seq<BattleMenu>, list2: seq<BattleMenu>)
    ensures SetChannel(SetChannel(battles, guild, channel, list1), guild, channel, list2)
      == SetChannel(battles, guild, channel, list2)
  {
    var inner := if guild in battles then battles[guild] else map[];
    assert SetChannel(battles, guild, channel, list1)[guild][channel := list2] == inner[channel := list2];
  }

  /** `get_battle` for one user and then for another, on a channel that has a list. */
  lemma AfterGetTwice(battles: map<int, map<int, seq<BattleMenu>>>, guild: int, channel: int,
                      stale: set<BattleMenu>, user1: int, user2: int)
    requires guild in battles && channel in battles[guild]
    ensures AfterGet(AfterGet(battles, guild, channel, stale, user1), guild, channel, stale, user2)
      == SetChannel(battles, guild, channel, PrunedFor(PrunedFor(battles[guild][channel], stale, user1), stale, user2))
  {
    var first := PrunedFor(battles[guild][channel], stale, user1);
    SetChannelTwice(battles, guild, channel, first, PrunedFor(first, stale, user2));
  }

  /** Pruning keeps the channel's invariant. */
  lemma PrunedOk(s: seq<BattleMenu>, stale: set<BattleMenu>, user: int)
    requires ChannelOk(s)
    ensures ChannelOk(PrunedFor(s, stale, user))
    ensures forall m :: m in PrunedFor(s, stale, user) ==> m in s
  {
    PrunedKeepsLive(s, stale, Mine(s, user));
  }

  /**
   * The scan of `get_battle`: walk the list, collecting the stale sessions, until a live
   * session involves `user`.
   */
  method Scan(s: seq<BattleMenu>, user: int) returns (i: nat, toRemove: seq<BattleMenu>)
    ensures i == FirstMatch(s, Stale(s), Mine(s, user))
    ensures toRemove == Select(s[..i], Stale(s))
  {
    ghost var stale := Stale(s);
    assert allocated(s) && allocated(Sides(s));
    toRemove := [];
    i := 0;
    while i < |s|
      invariant 0 <= i <= |s|
      invariant toRemove == Select(s[..i], stale)
      invariant forall k :: 0 <= k < i ==> s[k] in stale || s[k] !in Mine(s, user)
    {
      var battle := s[i];
      assert s[..i + 1] == s[..i] + [battle];
      SelectAppend(s[..i], battle, stale);
      assert battle.battler1 in Sides(s) && battle.battler2 in Sides(s);
      if battle.viewFinished || battle.battler1.cancelled || battle.battler2.cancelled {
        toRemove := toRemove + [battle];
      } else {
        var battler := battle.GetBattler(user);
        if battler.Some? {
          break;
        }
      }
      i := i + 1;
    }
    FirstMatchIsFirst(s, stale, Mine(s, user));
  }

  /**
   * The body of `get_battle` on one channel's list: the session found for `user`, and
   * the list once the stale sessions walked past are removed.
   */
  method Find(s: seq<BattleMenu>, user: int) returns (r: Option<(BattleMenu, BattlingUser)>, t: seq<BattleMenu>)
    requires ChannelOk(s)
    ensures r == Lookup(s, Stale(s), user)
    ensures t == PrunedFor(s, Stale(s), user) && ChannelOk(t)
  {
    var i, toRemove := Scan(s, user);
    assert allocated(s) && allocated(Sides(s));
    t := RemoveAll(s, toRemove);
    ScanThenRemove(s, Stale(s), Mine(s, user), i, toRemove, t);
    PrunedOk(s, Stale(s), user);
    FirstMatchIsFirst(s, Stale(s), Mine(s, user));
    if i < |s| {
      r := Some((s[i], s[i].GetBattler(user).value));
    } else {
      r := None;
    }
  }

  /** A new menu between two new battlers, as `begin` builds it. */
  method NewMenu(author: int, opponent: int, player1: Player, player2: Player, maxDrivers: int, wage: int)
    returns (menu: BattleMenu)
    requires author != opponent && player1 != player2
    ensures fresh(menu) && fresh(menu.battler1) && fresh(menu.battler2) && menu.Valid()
    ensures menu.battler1.user == author && menu.battler1.player == player1
    ensures menu.battler2.user == opponent && menu.battler2.player == player2
    ensures menu.battler1.proposal == [] && menu.battler2.proposal == []
    ensures menu.maxDrivers == maxDrivers && menu.wage == wage
  {
    var battler1 := new BattlingUser(author, player1);
    var battler2 := new BattlingUser(opponent, player2);
    menu := new BattleMenu(battler1, battler2, maxDrivers, wage);
  }

  datatype BeginReply =
    | CannotBattleBot
    | CannotBattleSelf
    | TooManyBalls
    | WageTooHigh
    | AlreadyInBattle
    | OpponentInBattle
    | OpponentBlacklisted
    | Started

  /**
   * What `begin` answers once its first four guards pass, given the channel's list and
   * its stale sessions: the author's own session first, then the opponent's, then the
   * blacklist.
   */
  function BeginOutcome(s: seq<BattleMenu>, stale: set<BattleMenu>, author: int, opponent: int,
                       blacklist: set<int>): (r: BeginReply)
    ensures r in {AlreadyInBattle, OpponentInBattle, OpponentBlacklisted, Started}
    ensures r == AlreadyInBattle <==> InBattle(s, stale, author)
    ensures r == OpponentInBattle <==> !InBattle(s, stale, author) && InBattle(s, stale, opponent)
    ensures r == Started <==>
      !InBattle(s, stale, author) && !InBattle(s, stale, opponent) && opponent !in blacklist
  {
    if InBattle(s, stale, author) then AlreadyInBattle
    else if InBattle(s, stale, opponent) then OpponentInBattle
    else if opponent in blacklist then OpponentBlacklisted
    else Started
  }

  datatype AddReply = NoBattle | DeckIsLocked | AlreadyInDeck | BallIsLocked | DeckFull | Added

  datatype RemoveReply = NoBattleToEdit | LockedDeck | NotInDeck | Removed

  /** The cog: `battles[guild][channel]` is the list of sessions of a channel. */
  class Battle {
    var battles: map<int, map<int, seq<BattleMenu>>>

    /** No session is listed twice in a channel, and every session has two distinct sides. */
    ghost predicate Valid()
      reads this
    {
      AllOk(battles)
    }

    constructor ()
      ensures battles == map[] && Valid()
    {
      battles := map[];
    }

    /** `battles[guild][channel]` as the `defaultdict` reads it. */
    function Channel(guild: int, channel: int): seq<BattleMenu>
      reads this
    {
      if guild in battles && channel in battles[guild] then battles[guild][channel] else []
    }

    /**
     * `get_battle`: with no list for the guild or the channel, nothing changes and there is
     * no session. Otherwise the scan stops at the first live session that involves `user`
     * and returns it with the user's side; the stale sessions it walked past are removed
     * from the list, one `remove` at a time, and the rest of the list is left as it was.
     */
    method GetBattle(guild: int, channel: int, user: int) returns (r: Option<(BattleMenu, BattlingUser)>)
      requires Valid()
      modifies this`battles
      ensures Valid()
      ensures battles == old(AfterGet(battles, guild, channel, Stale(Channel(guild, channel)), user))
      ensures Channel(guild, channel) == old(PrunedFor(Channel(guild, channel), Stale(Channel(guild, channel)), user))
      ensures r == old(Lookup(Channel(guild, channel), Stale(Channel(guild, channel)), user))
      ensures r.Some? ==> r.value.0.Valid()
      ensures forall m :: m in Channel(guild, channel) ==>
        (m in Stale(Channel(guild, channel)) <==> m in old(Stale(Channel(guild, channel))))
    {
      if guild !in battles || channel !in battles[guild] {
        return None;
      }
      var s := battles[guild][channel];
      assert ChannelOk(s);
      assert allocated(s) && allocated(Sides(s));
      var t;
      r, t := Find(s, user);
      PrunedOk(s, Stale(s), user);
      SetChannelOk(battles, guild, channel, t);
      battles := SetChannel(battles, guild, channel, t);
      assert Channel(guild, channel) == t;
      forall m | m in t ensures m in Stale(t) <==> m in Stale(s) {
        assert m.battler1 in Sides(t) && m.battler2 in Sides(t);
      }
    }

    /** `battles[guild][channel].append(menu)`. */
    method Open(guild: int, channel: int, menu: BattleMenu)
      requires Valid() && menu.Valid() && menu !in Channel(guild, channel)
      modifies this`battles
      ensures Valid()
      ensures battles == SetChannel(old(battles), guild, channel, old(Channel(guild, channel)) + [menu])
      ensures Channel(guild, channel) == old(Channel(guild, channel)) + [menu]
    {
      var list := Channel(guild, channel);
      assert ChannelOk(list) by {
        if guild in battles && channel in battles[guild] {
          assert list == battles[guild][channel];
        }
      }
      NoDupAppend(list, [menu]);
      SetChannelOk(battles, guild, channel, list + [menu]);
      battles := SetChannel(battles, guild, channel, list + [menu]);
    }

    /**
     * `begin`: the guards in the order the command checks them, each on its own; then a
     * new menu with the defaults (10 balls, no wage) is appended to the channel's list.
     */
    method Begin(guild: int, channel: int, author: int, opponent: int, opponentIsBot: bool,
                 player1: Player, player2: Player, maxBalls: Option<int>, wage: Option<int>,
                 blacklist: set<int>)
      returns (reply: BeginReply, menu: BattleMenu?)
      requires Valid()
      requires player1.discordId == author && player2.discordId == opponent
      requires author != opponent ==> player1 != player2
      modifies this`battles
      ensures Valid()
      ensures reply == CannotBattleBot <==> opponentIsBot
      ensures reply == CannotBattleSelf <==> !opponentIsBot && opponent == author
      ensures reply == TooManyBalls <==>
        !opponentIsBot && opponent != author && maxBalls.Some? && maxBalls.value > 50
      ensures reply == WageTooHigh <==>
        && !opponentIsBot && opponent != author && !(maxBalls.Some? && maxBalls.value > 50)
        && wage.Some? && (wage.value > player1.coins || wage.value > player2.coins)
      ensures reply in {CannotBattleBot, CannotBattleSelf, TooManyBalls, WageTooHigh} ==>
        battles == old(battles) && menu == null
      ensures reply !in {CannotBattleBot, CannotBattleSelf, TooManyBalls, WageTooHigh} ==>
        old(BeginOutcome(Channel(guild, channel), Stale(Channel(guild, channel)), author, opponent, blacklist)) == reply
      ensures reply in {AlreadyInBattle, OpponentInBattle, OpponentBlacklisted} ==>
        var stale := old(Stale(Channel(guild, channel)));
        battles == AfterGet(AfterGet(old(battles), guild, channel, stale, author), guild, channel, stale, opponent)
      ensures reply == Started ==>
        && menu != null
        && battles == SetChannel(old(battles), guild, channel,
                                 old(Without(Channel(guild, channel), Stale(Channel(guild, channel)))) + [menu])
      ensures reply == Started <==> menu != null
      ensures reply == Started ==>
        && fresh(menu) && menu.Valid()
        && menu.battler1.user == author && menu.battler1.player == player1
        && menu.battler2.user == opponent && menu.battler2.player == player2
        && menu.battler1.proposal == [] && menu.battler2.proposal == []
        && menu.maxDrivers == (if maxBalls.Some? then maxBalls.value else 10)
        && menu.wage == (if wage.Some? then wage.value else 0)
      ensures reply == Started ==>
        Channel(guild, channel) == old(Without(Channel(guild, channel), Stale(Channel(guild, channel)))) + [menu]
    {
      menu := null;
      if opponentIsBot {
        return CannotBattleBot, null;
      }
      if opponent == author {
        return CannotBattleSelf, null;
      }
      if maxBalls.Some? && maxBalls.value > 50 {
        return TooManyBalls, null;
      }
      if wage.Some? && (wage.value > player1.coins || wage.value > player2.coins) {
        return WageTooHigh, null;
      }
      reply, menu := Start(guild, channel, author, opponent, player1, player2, maxBalls, wage, blacklist);
    }

    /**
     * The two lookups of `begin`: `get_battle` for the author, then for the opponent. Each
     * reports whether that user has a live session; when neither has one, both lookups
     * together leave exactly the channel's live sessions.
     */
    method GetBoth(guild: int, channel: int, author: int, opponent: int) returns (found1: bool, found2: bool)
      requires Valid()
      modifies this`battles
      ensures Valid()
      ensures found1 == old(InBattle(Channel(guild, channel), Stale(Channel(guild, channel)), author))
      ensures found2 == old(InBattle(Channel(guild, channel), Stale(Channel(guild, channel)), opponent))
      ensures var stale := old(Stale(Channel(guild, channel)));
        battles == AfterGet(AfterGet(old(battles), guild, channel, stale, author), guild, channel, stale, opponent)
      ensures !found1 && !found2 ==>
        Channel(guild, channel) == old(Without(Channel(guild, channel), Stale(Channel(guild, channel))))
    {
      ghost var s0 := Channel(guild, channel);
      ghost var st0 := Stale(s0);
      assert ChannelOk(s0) by {
        if guild in battles && channel in battles[guild] {
          assert s0 == battles[guild][channel];
        }
      }
      PrunedSameLive(s0, st0, Mine(s0, author), Mine(s0, opponent));
      PrunedOk(s0, st0, author);
      var r1 := GetBattle(guild, channel, author);
      ghost var s1 := Channel(guild, channel);
      ghost var b1 := battles;
      SameOn(s1, Stale(s1), st0, Mine(s1, opponent), Mine(s0, opponent));
      SameOn(s1, Stale(s1), st0, Mine(s1, opponent), Mine(s1, opponent));
      var r2 := GetBattle(guild, channel, opponent);
      assert battles == AfterGet(b1, guild, channel, st0, opponent);
      if guild in old(battles) && channel in old(battles)[guild] {
        AfterGetTwice(old(battles), guild, channel, st0, author, opponent);
      }
      found1, found2 := r1.Some?, r2.Some?;
      if !found1 && !found2 {
        PrunedWithoutMatch(s0, st0, Mine(s0, author));
        PruneTwice(s0, st0, Mine(s1, opponent));
      }
    }

    /** A new session between the two users, appended to the channel's list. */
    method OpenNew(guild: int, channel: int, author: int, opponent: int,
                   player1: Player, player2: Player, maxDrivers: int, wage: int)
      returns (menu: BattleMenu)
      requires Valid() && author != opponent && player1 != player2
      modifies this`battles
      ensures Valid()
      ensures fresh(menu) && menu.Valid()
      ensures menu.battler1.user == author && menu.battler1.player == player1
      ensures menu.battler2.user == opponent && menu.battler2.player == player2
      ensures menu.battler1.proposal == [] && menu.battler2.proposal == []
      ensures menu.maxDrivers == maxDrivers && menu.wage == wage
      ensures battles == SetChannel(old(battles), guild, channel, old(Channel(guild, channel)) + [menu])
      ensures Channel(guild, channel) == old(Channel(guild, channel)) + [menu]
    {
      menu := NewMenu(author, opponent, player1, player2, maxDrivers, wage);
      Open(guild, channel, menu);
    }

    /** The second half of `begin`: both lookups, the remaining guards, and the new session. */
    method Start(guild: int, channel: int, author: int, opponent: int,
                 player1: Player, player2: Player, maxBalls: Option<int>, wage: Option<int>,
                 blacklist: set<int>)
      returns (reply: BeginReply, menu: BattleMenu?)
      requires Valid() && author != opponent && player1 != player2
      requires player1.discordId == author && player2.discordId == opponent
      modifies this`battles
      ensures Valid()
      ensures reply == old(BeginOutcome(Channel(guild, channel), Stale(Channel(guild, channel)), author, opponent, blacklist))
      ensures reply != Started ==>
        var stale := old(Stale(Channel(guild, channel)));
        battles == AfterGet(AfterGet(old(battles), guild, channel, stale, author), guild, channel, stale, opponent)
      ensures reply == Started <==> menu != null
      ensures reply == Started ==>
        && fresh(menu) && menu.Valid()
        && menu.battler1.user == author && menu.battler1.player == player1
        && menu.battler2.user == opponent && menu.battler2.player == player2
        && menu.battler1.proposal == [] && menu.battler2.proposal == []
        && menu.maxDrivers == (if maxBalls.Some? then maxBalls.value else 10)
        && menu.wage == (if wage.Some? then wage.value else 0)
      ensures reply == Started ==>
        Channel(guild, channel) == old(Without(Channel(guild, channel), Stale(Channel(guild, channel)))) + [menu]
      ensures reply == Started ==>
        && menu != null
        && battles == SetChannel(old(battles), guild, channel,
                                 old(Without(Channel(guild, channel), Stale(Channel(guild, channel)))) + [menu])
    {
      menu := null;
      ghost var stale := Stale(Channel(guild, channel));
      ghost var live := Without(Channel(guild, channel), stale);
      var found1, found2 := GetBoth(guild, channel, author, opponent);
      if found1 {
        return AlreadyInBattle, null;
      }
      if found2 {
        return OpponentInBattle, null;
      }
      if opponent in blacklist {
        return OpponentBlacklisted, null;
      }
      ghost var b2 := battles;
      var created := OpenNew(guild, channel, author, opponent, player1, player2,
                             if maxBalls.None? then 10 else maxBalls.value,
                             if wage.None? then 0 else wage.value);
      if guild in old(battles) && channel in old(battles)[guild] {
        ghost var list := old(battles)[guild][channel];
        AfterGetTwice(old(battles), guild, channel, stale, author, opponent);
        SetChannelTwice(old(battles), guild, channel,
                        PrunedFor(PrunedFor(list, stale, author), stale, opponent), live + [created]);
      } else {
        assert b2 == old(battles);
      }
      reply, menu := Started, created;
    }

    /** The checks of `add` once the caller's side is known, then the ball joins the deck. */
    static method AddToDeck(battler: BattlingUser, maxDrivers: int, ball: BallInstance) returns (reply: AddReply)
      modifies battler`proposal
      ensures reply != NoBattle
      ensures reply == DeckIsLocked <==> battler.locked
      ensures reply == AlreadyInDeck <==> !battler.locked && ball in old(battler.proposal)
      ensures reply == BallIsLocked <==> !battler.locked && ball !in old(battler.proposal) && ball.locked
      ensures reply == DeckFull <==>
        && !battler.locked && ball !in old(battler.proposal) && !ball.locked
        && maxDrivers != 0 && |old(battler.proposal)| >= maxDrivers
      ensures reply == Added ==> battler.proposal == old(battler.proposal) + [ball]
      ensures reply != Added ==> battler.proposal == old(battler.proposal)
    {
      if battler.locked {
        return DeckIsLocked;
      }
      if ball in battler.proposal {
        return AlreadyInDeck;
      }
      if ball.locked {
        return BallIsLocked;
      }
      if maxDrivers != 0 && |battler.proposal| >= maxDrivers {
        return DeckFull;
      }
      battler.proposal := battler.proposal + [ball];
      reply := Added;
    }

    /** The checks of `remove` once the caller's side is known, then the ball leaves the deck. */
    static method RemoveFromDeck(battler: BattlingUser, ball: BallInstance) returns (reply: RemoveReply)
      modifies battler`proposal, ball`locked
      ensures reply != NoBattleToEdit
      ensures reply == LockedDeck <==> battler.locked
      ensures reply == NotInDeck <==> !battler.locked && ball !in old(battler.proposal)
      ensures reply == Removed ==> battler.proposal == RemoveFirst(old(battler.proposal), ball) && !ball.locked
      ensures reply != Removed ==> battler.proposal == old(battler.proposal) && ball.locked == old(ball.locked)
    {
      if battler.locked {
        return LockedDeck;
      }
      if ball !in battler.proposal {
        return NotInDeck;
      }
      battler.proposal := RemoveFirst(battler.proposal, ball);
      ball.Unlock();
      reply := Removed;
    }

    /**
     * `add`: the caller needs a live session, an unlocked deck, a ball not yet in the deck
     * and not locked elsewhere, and room in the deck when the session has a maximum (a
     * maximum of 0 means no limit). The ball is appended to the deck; it is NOT locked.
     */
    method Add(guild: int, channel: int, user: int, ball: BallInstance)
      returns (reply: AddReply, found: Option<(BattleMenu, BattlingUser)>)
      requires Valid()
      modifies this`battles
      modifies FoundSide(Channel(guild, channel), Stale(Channel(guild, channel)), user)`proposal
      ensures Valid()
      ensures found == old(Lookup(Channel(guild, channel), Stale(Channel(guild, channel)), user))
      ensures reply == NoBattle <==> found.None?
      ensures found.Some? ==> var b := found.value.1;
        && (reply == DeckIsLocked <==> b.locked)
        && (reply == AlreadyInDeck <==> !b.locked && ball in old(b.proposal))
        && (reply == BallIsLocked <==> !b.locked && ball !in old(b.proposal) && ball.locked)
        && (reply == DeckFull <==>
              && !b.locked && ball !in old(b.proposal) && !ball.locked
              && found.value.0.maxDrivers != 0 && |old(b.proposal)| >= found.value.0.maxDrivers)
        && (reply == Added ==> b.proposal == old(b.proposal) + [ball])
        && (reply != Added ==> b.proposal == old(b.proposal))
      ensures ball.locked == old(ball.locked)
      ensures battles == old(AfterGet(battles, guild, channel, Stale(Channel(guild, channel)), user))
    {
      found := GetBattle(guild, channel, user);
      if found.None? {
        return NoBattle, found;
      }
      reply := AddToDeck(found.value.1, found.value.0.maxDrivers, ball);
    }

    /**
     * `remove`: the caller needs a live session, an unlocked deck and the ball in the deck;
     * the first occurrence of the ball leaves the deck and the ball is unlocked.
     */
    method Remove(guild: int, channel: int, user: int, ball: BallInstance)
      returns (reply: RemoveReply, found: Option<(BattleMenu, BattlingUser)>)
      requires Valid()
      modifies this`battles, ball`locked
      modifies FoundSide(Channel(guild, channel), Stale(Channel(guild, channel)), user)`proposal
      ensures Valid()
      ensures found == old(Lookup(Channel(guild, channel), Stale(Channel(guild, channel)), user))
      ensures reply == NoBattleToEdit <==> found.None?
      ensures found.Some? ==> var b := found.value.1;
        && (reply == LockedDeck <==> b.locked)
        && (reply == NotInDeck <==> !b.locked && ball !in old(b.proposal))
        && (reply == Removed ==> b.proposal == RemoveFirst(old(b.proposal), ball) && !ball.locked)
        && (reply != Removed ==> b.proposal == old(b.proposal) && ball.locked == old(ball.locked))
      ensures found.None? ==> ball.locked == old(ball.locked)
      ensures battles == old(AfterGet(battles, guild, channel, Stale(Channel(guild, channel)), user))
    {
      found := GetBattle(guild, channel, user);
      if found.None? {
        return NoBattleToEdit, found;
      }
      reply := RemoveFromDeck(found.value.1, ball);
    }
  }
}
