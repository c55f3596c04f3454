/**
 * ballsdex/packages/balls/cog.py, `rarity`: the balls sorted by rarity get competition
 * ranks (ties share the rank of the first of them), either for one ball or as a list.
 *
 * The sort by (rarity, country) is the language's own: the model takes its output as an
 * input, required to be a permutation of what was sorted and ordered by rarity.
 */
module BallsRarity {
  import opened Common
  import opened Models

  /** Which balls are ranked: the enabled ones, and with a season only that season's. */
  predicate Kept(b: Ball, season: Option<Season>)
  {
    b.enabled && (season.None? || b.season == season)
  }

  /** The balls that are ranked, in cache order. */
  function Candidates(all: seq<Ball>, season: Option<Season>): (r: seq<Ball>)
    ensures |r| <= |all|
    ensures forall b :: b in r <==> b in all && Kept(b, season)
    ensures forall b :: Kept(b, season) ==> multiset(r)[b] == multiset(all)[b]
  {
    if all == [] then []
    else
      var rest := Candidates(all[..|all| - 1], season);
      var last := all[|all| - 1];
      assert all == all[..|all| - 1] + [last];
      if Kept(last, season) then rest + [last] else rest
  }

  /** Ordered by rarity, lowest first. */
  predicate SortedByRarity(s: seq<Ball>)
  {
    forall i, j :: 0 <= i < j < |s| ==> s[i].rarity <= s[j].rarity
  }

  /** What the sort returns for `xs`: the same balls, ordered by rarity. */
  predicate Sorts(sorted: seq<Ball>, xs: seq<Ball>)
  {
    multiset(sorted) == multiset(xs) && SortedByRarity(sorted)
  }

  /**
   * Where the run of equal rarities that holds position `i` begins: the loop moves
   * `current_rank` there each time the rarity changes.
   */
  function RunStart(s: seq<Ball>, i: nat): (r: nat)
    requires i < |s|
    ensures r <= i
    ensures forall k :: r <= k <= i ==> s[k].rarity == s[i].rarity
    ensures r == 0 || s[r - 1].rarity != s[i].rarity
    decreases i
  {
    if i == 0 || s[i - 1].rarity != s[i].rarity then i else RunStart(s, i - 1)
  }

  /** How many balls of `s` have a rarity below `x`. */
  function Below(s: seq<Ball>, x: real): (n: nat)
    ensures n <= |s|
  {
    if s == [] then 0
    else Below(s[..|s| - 1], x) + (if s[|s| - 1].rarity < x then 1 else 0)
  }

  /** In a sorted list, the run of position `i` begins after exactly the balls of lower rarity. */
  lemma RunStartSplits(s: seq<Ball>, i: nat, k: nat)
    requires SortedByRarity(s) && i < |s| && k < |s|
    ensures k < RunStart(s, i) <==> s[k].rarity < s[i].rarity
  {
    var r := RunStart(s, i);
    if k < r {
      assert s[k].rarity <= s[r - 1].rarity <= s[r].rarity;
    }
  }

  /** When the balls below `x` are exactly the first `m`, `m` of them are below `x`. */
  lemma {:induction false} BelowPrefix(s: seq<Ball>, x: real, m: nat)
    requires m <= |s|
    requires forall k :: 0 <= k < |s| ==> (s[k].rarity < x <==> k < m)
    ensures Below(s, x) == m
    decreases |s|
  {
    if s != [] {
      var init := s[..|s| - 1];
      if m == |s| {
        BelowPrefix(init, x, m - 1);
      } else {
        BelowPrefix(init, x, m);
      }
    }
  }

  /**
   * The rank is competition ranking: one more than the number of balls of lower rarity,
   * so that balls of equal rarity share a rank and the next rarity skips the tied places.
   */
  lemma {:induction false} RankIsCompetition(s: seq<Ball>, i: nat)
    requires SortedByRarity(s) && i < |s|
    ensures RunStart(s, i) == Below(s, s[i].rarity)
  {
    forall k | 0 <= k < |s|
      ensures s[k].rarity < s[i].rarity <==> k < RunStart(s, i)
    {
      RunStartSplits(s, i, k);
    }
    BelowPrefix(s, s[i].rarity, RunStart(s, i));
  }

  /** Balls of equal rarity share their rank; a lower rarity has a strictly better rank. */
  lemma {:induction false} RanksFollowRarity(s: seq<Ball>, i: nat, j: nat)
    requires SortedByRarity(s) && i < |s| && j < |s|
    ensures s[i].rarity == s[j].rarity ==> RunStart(s, i) == RunStart(s, j)
    ensures s[i].rarity < s[j].rarity ==> RunStart(s, i) < RunStart(s, j)
  {
    RankIsCompetition(s, i);
    RankIsCompetition(s, j);
    if s[i].rarity < s[j].rarity {
      RunStartSplits(s, j, i);
      assert i < RunStart(s, j);
    }
  }

  /** The first position of the ball `id`, if it is there. */
  function Position(s: seq<Ball>, id: int): (r: Option<nat>)
    ensures r.Some? ==> r.value < |s| && s[r.value].id == id
    ensures r.Some? ==> forall k :: 0 <= k < r.value ==> s[k].id != id
    ensures r.None? <==> forall k :: 0 <= k < |s| ==> s[k].id != id
  {
    if s == [] then None
    else if s[0].id == id then Some(0)
    else
      match Position(s[1..], id)
      case None =>
        assert forall k :: 1 <= k < |s| ==> s[k] == s[1..][k - 1];
        None
      case Some(p) => Some(p + 1)
  }

  /** The emoji shown for a ball, or "N/A" when the bot cannot find it. */
  function EmojiText(emojis: map<int, string>, emojiId: int): string
  {
    if emojiId in emojis then emojis[emojiId] else "N/A"
  }

  /** A line of the list: `"<rank>. <emoji> <country>"`. */
  datatype RankLine = RankLine(rank: nat, emoji: string, country: string)

  /**
   * The loop of `rarity` with a ball given: walk the sorted list keeping the rank of the
   * current run, and answer with it at the ball. `None` when the ball is not in the list.
   */
  method RankOf(sorted: seq<Ball>, id: int) returns (rank: Option<nat>)
    ensures rank.None? <==> Position(sorted, id).None?
    ensures rank.Some? ==> rank.value == RunStart(sorted, Position(sorted, id).value) + 1
  {
    var currentRank := 1;
    var lastRarity: Option<real> := None;
    for idx := 0 to |sorted|
      invariant forall k :: 0 <= k < idx ==> sorted[k].id != id
      invariant idx == 0 ==> lastRarity.None?
      invariant idx > 0 ==>
        lastRarity == Some(sorted[idx - 1].rarity) && currentRank == RunStart(sorted, idx - 1) + 1
    {
      if lastRarity != Some(sorted[idx].rarity) {
        currentRank := idx + 1;
        lastRarity := Some(sorted[idx].rarity);
      }
      if sorted[idx].id == id {
        return Some(currentRank);
      }
    }
    return None;
  }

  /** The line of the ball at position `k`: its run's rank, its emoji and its country. */
  function LineAt(sorted: seq<Ball>, emojis: map<int, string>, k: nat): RankLine
    requires k < |sorted|
  {
    RankLine(RunStart(sorted, k) + 1, EmojiText(emojis, sorted[k].emojiId), sorted[k].country)
  }

  /** The loop of `rarity` without a ball: one line per ball, each with its run's rank. */
  method RankLines(sorted: seq<Ball>, emojis: map<int, string>) returns (entries: seq<RankLine>)
    ensures |entries| == |sorted|
    ensures forall k :: 0 <= k < |sorted| ==> entries[k] == LineAt(sorted, emojis, k)
  {
    entries := [];
    var currentRank := 1;
    var lastRarity: Option<real> := None;
    for idx := 0 to |sorted|
      invariant |entries| == idx
      invariant forall k :: 0 <= k < idx ==> entries[k] == LineAt(sorted, emojis, k)
      invariant idx == 0 ==> lastRarity.None?
      invariant idx > 0 ==>
        lastRarity == Some(sorted[idx - 1].rarity) && currentRank == RunStart(sorted, idx - 1) + 1
    {
      if lastRarity != Some(sorted[idx].rarity) {
        currentRank := idx + 1;
        lastRarity := Some(sorted[idx].rarity);
      }
      entries := entries + [RankLine(currentRank, EmojiText(emojis, sorted[idx].emojiId), sorted[idx].country)];
    }
  }

  /**
   * The list title as written: the season's name is read before the season is checked,
   * so without a season the command fails (`None` stands for that failure).
   */
  function RarityTitleAsWritten(botName: string, season: Option<Season>): (r: Option<string>)
    ensures r.None? <==> season.None?
    ensures r.Some? ==> r.value == botName + " " + SeasonName(season.value) + " Rarity List"
  {
    if season.None? then None
    else Some(botName + " " + SeasonName(season.value) + " Rarity List")
  }

  /** The list title: the bot's name, with the season's name when a season is given. */
  function RarityTitle(botName: string, season: Option<Season>): (r: string)
    ensures season.None? ==> r == botName + " Rarity List"
    ensures season.Some? ==> r == botName + " " + SeasonName(season.value) + " Rarity List"
  {
    if season.Some? then botName + " " + SeasonName(season.value) + " Rarity List"
    else botName + " Rarity List"
  }

  /** The title as written gives the intended one exactly when a season is given. */
  lemma TitleNeedsSeason(botName: string, season: Option<Season>)
    ensures RarityTitleAsWritten(botName, season) == Some(RarityTitle(botName, season)) <==> season.Some?
  {
  }

  /** The balls the season branch sorts as written: every enabled ball, whatever its season. */
  function SeasonCandidatesAsWritten(all: seq<Ball>, season: Season): (r: seq<Ball>)
    ensures forall b :: b in r <==> b in all && b.enabled
  {
    Candidates(all, None)
  }

  /** As written, an enabled ball of another season is ranked in a season's list. */
  lemma OtherSeasonRanked()
    ensures var b := Ball(1, "Ferrari", 1.0, true, Some(F12024), 0, 0);
      && b in SeasonCandidatesAsWritten([b], Champs)
      && b !in Candidates([b], Some(Champs))
  {
  }

  /** The answer of `rarity`. */
  datatype RarityReply =
    | NoCollectibles
    | Ranked(emoji: string, rank: nat)
    | NotRanked
    | RarityList(title: string, entries: seq<RankLine>)

  /**
   * `rarity`: nothing when no ball is enabled; with a ball, its rank among the enabled
   * balls; otherwise the ranked list of the enabled balls, or of the season's with a
   * season, under the season's title. `sorted` is the sort of the balls ranked.
   */
  method Rarity(all: seq<Ball>, botName: string, countryball: Option<Ball>, season: Option<Season>,
                sorted: seq<Ball>, emojis: map<int, string>)
    returns (reply: RarityReply)
    requires Sorts(sorted, Candidates(all, if countryball.Some? then None else season))
    ensures reply == NoCollectibles <==> Candidates(all, None) == []
    ensures countryball.Some? && reply != NoCollectibles ==>
      && (reply.Ranked? || reply.NotRanked?)
      && (reply.Ranked? <==> Position(sorted, countryball.value.id).Some?)
    ensures reply.Ranked? ==>
      && countryball.Some? && Position(sorted, countryball.value.id).Some?
      && reply.rank == Below(sorted, sorted[Position(sorted, countryball.value.id).value].rarity) + 1
      && reply.emoji == EmojiText(emojis, countryball.value.emojiId)
    ensures countryball.None? && reply != NoCollectibles ==>
      && reply.RarityList? && reply.title == RarityTitle(botName, season)
      && |reply.entries| == |sorted|
      && forall k :: 0 <= k < |sorted| ==>
           && Kept(sorted[k], season) && reply.entries[k].rank == Below(sorted, sorted[k].rarity) + 1
           && reply.entries[k].emoji == EmojiText(emojis, sorted[k].emojiId)
           && reply.entries[k].country == sorted[k].country
  {
    if Candidates(all, None) == [] {
      return NoCollectibles;
    }
    if countryball.Some? {
      var rank := RankOf(sorted, countryball.value.id);
      if rank.None? {
        return NotRanked;
      }
      RankIsCompetition(sorted, Position(sorted, countryball.value.id).value);
      return Ranked(EmojiText(emojis, countryball.value.emojiId), rank.value);
    }
    var entries := RankLines(sorted, emojis);
    forall k | 0 <= k < |sorted|
      ensures Kept(sorted[k], season) && entries[k].rank == Below(sorted, sorted[k].rarity) + 1
    {
      assert sorted[k] in multiset(Candidates(all, season));
      RankIsCompetition(sorted, k);
    }
    reply := RarityList(RarityTitle(botName, season), entries);
  }
}
