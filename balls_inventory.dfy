/**
 * ballsdex/packages/balls/cog.py, the commands that read or change a player's own balls:
 * the counts of `collection`, `favorite` and its cap, `give` and the donation request a
 * recipient answers.
 */
module BallsInventory {
  import opened Common
  import opened Models

  /** How a ball came to its owner, as `collection` tells them apart. */
  datatype Origin = Caught | Received | FromPack

  /**
   * A ball with a previous owner was received from a trade; otherwise a packed ball came
   * from a pack, and any other was caught.
   */
  function OriginOf(x: BallInstance): (o: Origin)
    reads x
    ensures o == Received <==> x.tradePlayer.Some?
    ensures o == FromPack <==> x.packed && x.tradePlayer.None?
    ensures o == Caught <==> x.tradePlayer.None? && !x.packed
  {
    if x.tradePlayer.Some? then Received else if x.packed then FromPack else Caught
  }

  /** How many balls of `rows` have origin `o`. */
  function CountOrigin(rows: seq<BallInstance>, o: Origin): (n: nat)
    reads set x | x in rows
    ensures n <= |rows|
    ensures n == 0 <==> forall x :: x in rows ==> OriginOf(x) != o
  {
    if rows == [] then 0
    else CountOrigin(rows[..|rows| - 1], o) + (if OriginOf(rows[|rows| - 1]) == o then 1 else 0)
  }

  /** How many balls of `rows` carry a special. */
  function CountSpecials(rows: seq<BallInstance>): (n: nat)
    reads set x | x in rows
    ensures n <= |rows|
    ensures n == 0 <==> forall x :: x in rows ==> x.special.None?
  {
    if rows == [] then 0
    else CountSpecials(rows[..|rows| - 1]) + (if rows[|rows| - 1].special.Some? then 1 else 0)
  }

  /** How many balls of `rows` carry the special `s`. */
  function CountSpecial(rows: seq<BallInstance>, s: int): (n: nat)
    reads set x | x in rows
    ensures n <= CountSpecials(rows)
    ensures n == 0 <==> forall x :: x in rows ==> x.special != Some(s)
  {
    if rows == [] then 0
    else CountSpecial(rows[..|rows| - 1], s) + (if rows[|rows| - 1].special == Some(s) then 1 else 0)
  }

  /** Every ball is counted once: the total is caught plus received plus packed. */
  lemma {:induction false} CollectionTotals(rows: seq<BallInstance>)
    ensures |rows| == CountOrigin(rows, Caught) + CountOrigin(rows, Received) + CountOrigin(rows, FromPack)
  {
    if rows != [] {
      CollectionTotals(rows[..|rows| - 1]);
    }
  }

  /**
   * The `specials` tally of `collection`: one entry per special that some ball carries,
   * with the number of balls carrying it.
   */
  method TallySpecials(rows: seq<BallInstance>) returns (tally: map<int, nat>)
    ensures forall s :: s in tally <==> exists k :: 0 <= k < |rows| && rows[k].special == Some(s)
    ensures forall s :: s in tally ==> tally[s] == CountSpecial(rows, s)
  {
    tally := map[];
    for i := 0 to |rows|
      invariant forall s :: s in tally <==> exists k :: 0 <= k < i && rows[k].special == Some(s)
      invariant forall s :: s in tally ==> tally[s] == CountSpecial(rows[..i], s)
    {
      assert rows[..i + 1][..i] == rows[..i];
      var special := rows[i].special;
      if special.Some? {
        var s := special.value;
        var count := if s in tally then tally[s] else 0;
        if s !in tally {
          assert CountSpecial(rows[..i], s) == 0 by {
            forall x | x in rows[..i]
              ensures x.special != Some(s)
            {
              var k :| 0 <= k < i && rows[..i][k] == x;
            }
          }
        }
        tally := tally[s := count + 1];
      }
    }
    assert rows[..|rows|] == rows;
  }

  /** The answer of `collection`. */
  datatype CollectionReply =
    | BothFilters
    | NothingOwned
    | Summary(title: string, total: nat, caught: nat, received: nat, packed: nat, specials: nat,
              tally: map<int, nat>)

  /** The title of `collection`: the ball's country, else the season's name, else the total. */
  function CollectionTitle(country: Option<string>, season: Option<Season>): (r: string)
    ensures r == "Total Collection" <==> country.None? && season.None?
    ensures country.Some? ==> r == "Collection of " + country.value
    ensures country.None? && season.Some? ==> r == "Collection of " + SeasonName(season.value)
  {
    // the two kinds of title already differ in their first letter
    assert "Total Collection"[0] != ("Collection of " + (if country.Some? then country.value else ""))[0];
    if country.Some? then "Collection of " + country.value
    else if season.Some? then "Collection of " + SeasonName(season.value)
    else "Total Collection"
  }

  /**
   * `collection`: filtering by a ball and a season at once is refused, then an empty
   * result gets its own answer; otherwise the counts. `rows` are the player's balls that
   * pass the filters, and `country` the country of the ball filtered by.
   */
  method Collection(rows: seq<BallInstance>, country: Option<string>, season: Option<Season>)
    returns (reply: CollectionReply)
    ensures reply == BothFilters <==> country.Some? && season.Some?
    ensures reply == NothingOwned <==> !(country.Some? && season.Some?) && rows == []
    ensures reply.Summary? ==>
      && reply.title == CollectionTitle(country, season)
      && reply.total == |rows| == reply.caught + reply.received + reply.packed
      && reply.caught == CountOrigin(rows, Caught)
      && reply.received == CountOrigin(rows, Received)
      && reply.packed == CountOrigin(rows, FromPack)
      && reply.specials == CountSpecials(rows)
      && (forall s :: s in reply.tally <==> exists k :: 0 <= k < |rows| && rows[k].special == Some(s))
      && (forall s :: s in reply.tally ==> 0 < reply.tally[s] == CountSpecial(rows, s))
  {
    if country.Some? && season.Some? {
      return BothFilters;
    }
    if rows == [] {
      return NothingOwned;
    }
    CollectionTotals(rows);
    var tally := TallySpecials(rows);
    forall s | s in tally
      ensures 0 < tally[s]
    {
      var k :| 0 <= k < |rows| && rows[k].special == Some(s);
      assert rows[k] in rows;
    }
    reply := Summary(CollectionTitle(country, season), |rows|, CountOrigin(rows, Caught),
                     CountOrigin(rows, Received), CountOrigin(rows, FromPack), CountSpecials(rows), tally);
  }

  datatype FavoriteReply = FavoritesDisabled | NoPlayer | TooManyFavorites | Favorited | Unfavorited

  /**
   * `favorite`: refused outright when the bot allows no favourites, even to remove one.
   * A favourite is removed without further checks. To add one, the player must exist
   * (`favorites` is `None` otherwise, else their current number of favourites) and be
   * below the cap; a negative cap is not rejected, so then every addition is refused.
   */
  method Favorite(ball: BallInstance, maxFavorites: int, favorites: Option<nat>)
    returns (reply: FavoriteReply)
    modifies ball`favorite
    ensures reply == FavoritesDisabled <==> maxFavorites == 0
    ensures maxFavorites != 0 && !old(ball.favorite) && favorites.Some? && favorites.value < maxFavorites ==>
      reply == Favorited && ball.favorite
    ensures maxFavorites != 0 && old(ball.favorite) ==> reply == Unfavorited
    ensures maxFavorites != 0 && !old(ball.favorite) ==>
      && (reply == NoPlayer <==> favorites.None?)
      && (reply == TooManyFavorites <==> favorites.Some? && favorites.value >= maxFavorites)
    ensures reply == Favorited ==> ball.favorite && favorites.Some? && favorites.value + 1 <= maxFavorites
    ensures reply == Unfavorited ==> !ball.favorite
    ensures reply != Favorited && reply != Unfavorited ==> ball.favorite == old(ball.favorite)
  {
    if maxFavorites == 0 {
      return FavoritesDisabled;
    }
    if !ball.favorite {
      if favorites.None? {
        return NoPlayer;
      }
      if favorites.value >= maxFavorites {
        return TooManyFavorites;
      }
      ball.favorite := true;
      return Favorited;
    } else {
      ball.favorite := false;
      return Unfavorited;
    }
  }

  /** The end of a donation: the ball is the recipient's, was the giver's, is no favourite and is free. */
  predicate Transferred(ball: BallInstance, giver: int, recipient: int)
    reads ball
  {
    ball.player == recipient && ball.tradePlayer == Some(giver) && !ball.favorite && !ball.locked
  }

  /**
   * A donation waiting for the recipient's answer. Only the recipient may press its
   * buttons; accepting transfers the ball, denying or letting it time out frees it.
   */
  class DonationRequest {
    const ball: BallInstance
    const newPlayer: Player

    constructor (ball: BallInstance, newPlayer: Player)
      ensures this.ball == ball && this.newPlayer == newPlayer
    {
      this.ball := ball;
      this.newPlayer := newPlayer;
    }

    /** `interaction_check`: only the recipient may answer. */
    predicate Allowed(user: int)
    {
      user == newPlayer.discordId
    }

    /**
     * `accept`, pressed by `user`: the interaction check turns away anyone but the
     * recipient, and nothing happens; for the recipient, the same transfer as a direct
     * donation. `answered` says whether the press went through.
     */
    method Accept(user: int) returns (answered: bool)
      modifies ball`favorite, ball`tradePlayer, ball`player, ball`locked
      ensures answered <==> user == newPlayer.discordId
      ensures answered ==> Transferred(ball, old(ball.player), newPlayer.discordId)
      ensures !answered ==> unchanged(ball)
    {
      if !Allowed(user) {
        return false;
      }
      answered := true;
      ball.favorite := false;
      ball.tradePlayer := Some(ball.player);
      ball.player := newPlayer.discordId;
      ball.Unlock();
    }

    /**
     * `deny`, pressed by `user`: anyone but the recipient is turned away and nothing
     * happens; for the recipient the ball is freed and stays with the giver.
     */
    method Deny(user: int) returns (answered: bool)
      modifies ball`locked
      ensures answered <==> user == newPlayer.discordId
      ensures answered ==> !ball.locked
      ensures !answered ==> unchanged(ball)
    {
      if !Allowed(user) {
        return false;
      }
      answered := true;
      ball.Unlock();
    }

    /** `on_timeout`: as a denial. */
    method OnTimeout()
      modifies ball`locked
      ensures !ball.locked
    {
      ball.Unlock();
    }
  }

  datatype GiveReply =
    | Untradeable
    | ToBot
    | BallLocked
    | NotConfirmed
    | ToSelf
    | DonationsDenied
    | FriendsOnlyDonations
    | Blocked
    | Blacklisted
    | AwaitingApproval
    | Given

  /**
   * The checks of `give`, in order. The first four come before the ball is locked; the
   * others after, so each of them frees it again.
   */
  function GiveOutcome(tradeable: bool, toBot: bool, locked: bool, favorite: bool, confirmed: bool,
                       toSelf: bool, policy: DonationPolicy, friends: bool, blocked: bool,
                       blacklisted: bool): (r: GiveReply)
    ensures r == Given <==>
      && tradeable && !toBot && !locked && (favorite ==> confirmed) && !toSelf
      && policy != AlwaysDeny && policy != RequestApproval && (policy == FriendsOnly ==> friends)
      && !blocked && !blacklisted
    ensures r == AwaitingApproval <==>
      && tradeable && !toBot && !locked && (favorite ==> confirmed) && !toSelf
      && policy == RequestApproval && !blocked && !blacklisted
    ensures r == ToSelf ==> tradeable && !toBot && !locked && (favorite ==> confirmed)
    ensures r == Blacklisted ==> policy != AlwaysDeny && !blocked && (policy == FriendsOnly ==> friends)
  {
    if !tradeable then Untradeable
    else if toBot then ToBot
    else if locked then BallLocked
    else if favorite && !confirmed then NotConfirmed
    else if toSelf then ToSelf
    else if policy == AlwaysDeny then DonationsDenied
    else if policy == FriendsOnly && !friends then FriendsOnlyDonations
    else if blocked then Blocked
    else if blacklisted then Blacklisted
    else if policy == RequestApproval then AwaitingApproval
    else Given
  }

  /** A refusal that comes before the ball is locked. */
  predicate Early(r: GiveReply)
  {
    r == Untradeable || r == ToBot || r == BallLocked || r == NotConfirmed
  }

  /**
   * `give`: the ball goes to `recipient` (the row `get_or_create` returns), unless a check
   * refuses it or the recipient asked to approve donations, in which case the ball stays
   * locked behind a fresh `DonationRequest`. `confirmed` is the giver's answer when the
   * ball is a favourite; `friends` and `blocked` are the recipient's relations to the giver.
   */
  method Give(ball: BallInstance, recipient: Player, recipientIsBot: bool, confirmed: bool,
              friends: bool, blocked: bool, blacklist: set<int>)
    returns (reply: GiveReply, request: DonationRequest?)
    modifies ball`favorite, ball`tradePlayer, ball`player, ball`locked
    ensures reply == old(GiveOutcome(ball.tradeable, recipientIsBot, ball.locked, ball.favorite, confirmed,
                                     recipient.discordId == ball.player, recipient.donationPolicy, friends,
                                     blocked, recipient.discordId in blacklist))
    ensures reply == Given ==> Transferred(ball, old(ball.player), recipient.discordId)
    ensures reply != Given ==> unchanged(ball`favorite, ball`tradePlayer, ball`player)
    ensures Early(reply) ==> ball.locked == old(ball.locked)
    ensures !Early(reply) && reply != AwaitingApproval ==> !ball.locked
    ensures reply == AwaitingApproval <==> request != null
    ensures reply == AwaitingApproval ==>
      fresh(request) && request.ball == ball && request.newPlayer == recipient && ball.locked
  {
    request := null;
    if !ball.tradeable {
      return Untradeable, null;
    }
    if recipientIsBot {
      return ToBot, null;
    }
    if ball.locked {
      return BallLocked, null;
    }
    var favorite := ball.favorite;
    if favorite && !confirmed {
      return NotConfirmed, null;
    }
    ball.LockForTrade();
    var oldPlayer := ball.player;
    if recipient.discordId == oldPlayer {
      ball.Unlock();
      return ToSelf, null;
    }
    if recipient.donationPolicy == AlwaysDeny {
      ball.Unlock();
      return DonationsDenied, null;
    }
    if recipient.donationPolicy == FriendsOnly && !friends {
      ball.Unlock();
      return FriendsOnlyDonations, null;
    }
    if blocked {
      ball.Unlock();
      return Blocked, null;
    }
    if recipient.discordId in blacklist {
      ball.Unlock();
      return Blacklisted, null;
    } else if recipient.donationPolicy == RequestApproval {
      request := new DonationRequest(ball, recipient);
      return AwaitingApproval, request;
    }
    ball.player := recipient.discordId;
    ball.tradePlayer := Some(oldPlayer);
    ball.favorite := false;
    ball.Unlock();
    reply := Given;
  }

  /** The recipient accepting a request leaves the ball exactly where a direct donation would have. */
  method GiveThenAccept(ball: BallInstance, recipient: Player, confirmed: bool, friends: bool,
                        blocked: bool, blacklist: set<int>)
    returns (reply: GiveReply)
    modifies ball`favorite, ball`tradePlayer, ball`player, ball`locked
    ensures reply == AwaitingApproval ==> Transferred(ball, old(ball.player), recipient.discordId)
  {
    var request;
    reply, request := Give(ball, recipient, false, confirmed, friends, blocked, blacklist);
    if reply == AwaitingApproval {
      var answered := request.Accept(recipient.discordId);
    }
  }
}
