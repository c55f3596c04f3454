/**
 * ballsdex/packages/balls/cog.py, the listing side of `completion` and `compare`: which
 * balls the bot counts, the four-way split of `compare`, and the packing of emoji text
 * into embed fields of at most 1024 characters.
 *
 * A Python set is iterated in an order the language does not fix: where the source loops
 * over a set, the model takes that order as a sequence without repeats.
 */
module BallsListing {
  import opened Common
  import opened Sessions
  import opened Models

  /** The most characters an embed field may hold. */
  const MaxField: nat := 1024

  /** The name of the fields that continue a section: a zero-width space. */
  const ZeroWidth: string := "\U{200B}"

  /** A section's title, in bold and underlined. */
  function Heading(title: string): string
  {
    "__**" + title + "**__"
  }

  /** An embed field: a name and a value. */
  datatype Field = Field(name: string, value: string)

  /**
   * The filter of the `bot_countryballs` comprehension. `specialEnd` is `None` without a
   * special, `Some(None)` for a special with no end date, `Some(Some(t))` for one ending at t.
   */
  predicate Listed(b: Ball, all: bool, season: Option<Season>, specialEnd: Option<Option<int>>)
  {
    && (all || season.Some? || b.enabled)
    && (all || season.None? || b.season == season)
    && (!all || b.season.Some?)
    && (specialEnd.None? || specialEnd.value.None? || b.createdAt < specialEnd.value.value)
  }

  /** `bot_countryballs`: the listed balls, each with its emoji id. */
  function BotCountryballs(balls: map<int, Ball>, all: bool, season: Option<Season>,
                           specialEnd: Option<Option<int>>): (r: map<int, int>)
    ensures r.Keys <= balls.Keys
    ensures forall x :: x in r ==> r[x] == balls[x].emojiId
  {
    map x | x in balls && Listed(balls[x], all, season, specialEnd) :: balls[x].emojiId
  }

  /**
   * What the filter means, mode by mode (a special without end date filters nothing):
   * by default the enabled balls, with a season that season's balls whether enabled or
   * not, and with `all` every ball that has a season.
   */
  lemma ListingModes(balls: map<int, Ball>, season: Option<Season>, x: int)
    requires x in balls
    ensures x in BotCountryballs(balls, false, None, None) <==> balls[x].enabled
    ensures season.Some? ==>
      (x in BotCountryballs(balls, false, season, None) <==> balls[x].season == season)
    ensures x in BotCountryballs(balls, true, season, Some(None)) <==> balls[x].season.Some?
  {
  }

  /** A special with an end date drops exactly the balls created at or after it. */
  lemma SpecialEndFilters(balls: map<int, Ball>, all: bool, season: Option<Season>, end: int, x: int)
    requires x in BotCountryballs(balls, all, season, None)
    ensures x in BotCountryballs(balls, all, season, Some(Some(end))) <==> balls[x].createdAt < end
  {
  }

  /**
   * `compare`: each user's balls are read among the valid ids only; then `both`,
   * `user1_only`, `user2_only` and `neither`.
   */
  function Compare(valid: set<int>, owned1: set<int>, owned2: set<int>)
    : (r: (set<int>, set<int>, set<int>, set<int>))
    ensures var (both, only1, only2, neither) := r;
      && both * only1 == {} && both * only2 == {} && both * neither == {}
      && only1 * only2 == {} && only1 * neither == {} && only2 * neither == {}
      && both + only1 + only2 + neither == valid
    ensures forall x :: x in r.0 <==> x in valid && x in owned1 && x in owned2
    ensures forall x :: x in r.1 <==> x in valid && x in owned1 && x !in owned2
    ensures forall x :: x in r.2 <==> x in valid && x !in owned1 && x in owned2
    ensures forall x :: x in r.3 <==> x in valid && x !in owned1 && x !in owned2
  {
    var user1 := owned1 * valid;
    var user2 := owned2 * valid;
    var both := user1 * user2;
    var only1 := user1 - user2;
    var only2 := user2 - user1;
    (both, only1, only2, valid - both - only1 - only2)
  }

  /** The text of each emoji that resolves, `"<emoji> "`, in iteration order. */
  function Texts(emojiIds: seq<int>, emojis: map<int, string>): (r: seq<string>)
    ensures |r| <= |emojiIds|
    ensures forall t :: t in r ==> t != ""
  {
    if emojiIds == [] then []
    else
      var last := emojiIds[|emojiIds| - 1];
      Texts(emojiIds[..|emojiIds| - 1], emojis) + (if last in emojis then [emojis[last] + " "] else [])
  }

  /** Every emoji that resolves, with its trailing space, fits in one field. */
  predicate Fits(emojiIds: seq<int>, emojis: map<int, string>)
  {
    forall k :: 0 <= k < |emojiIds| && emojiIds[k] in emojis ==> |emojis[emojiIds[k]]| < MaxField
  }

  /** The values of the fields, end to end. */
  function Bodies(fields: seq<Field>): string
  {
    if fields == [] then "" else Bodies(fields[..|fields| - 1]) + fields[|fields| - 1].value
  }

  lemma BodiesAppend(fields: seq<Field>, f: Field)
    ensures Bodies(fields + [f]) == Bodies(fields) + f.value
  {
    assert (fields + [f])[..|fields|] == fields;
  }

  /** The values of two field lists end to end are those of the first, then the second. */
  lemma {:induction false} BodiesConcat(a: seq<Field>, b: seq<Field>)
    ensures Bodies(a + b) == Bodies(a) + Bodies(b)
    decreases |b|
  {
    if b == [] {
      assert a + b == a;
    } else {
      var front := b[..|b| - 1];
      assert a + b == (a + front) + [b[|b| - 1]];
      BodiesConcat(a, front);
      BodiesAppend(a + front, b[|b| - 1]);
    }
  }

  lemma TextsStep(emojiIds: seq<int>, emojis: map<int, string>, i: nat)
    requires i < |emojiIds|
    ensures Texts(emojiIds[..i + 1], emojis) ==
      Texts(emojiIds[..i], emojis) + (if emojiIds[i] in emojis then [emojis[emojiIds[i]] + " "] else [])
  {
    assert emojiIds[..i + 1][..i] == emojiIds[..i];
  }

  /** The fields of a section: the first carries the title, the others a zero-width name. */
  predicate Titled(fields: seq<Field>, title: string)
  {
    forall k :: 0 <= k < |fields| ==> fields[k].name == (if k == 0 then Heading(title) else ZeroWidth)
  }

  /** No two neighbouring fields could have been one: together they exceed a field. */
  predicate Greedy(fields: seq<Field>)
  {
    forall k :: 0 <= k < |fields| - 1 ==> |fields[k].value| + |fields[k + 1].value| > MaxField
  }

  /**
   * What holds of the fields closed so far and the open buffer while `fill_fields` runs:
   * titles, greedy closing, and when every text fits, fields that are neither empty nor
   * too long.
   */
  predicate Packing(title: string, fields: seq<Field>, buffer: string, fits: bool)
  {
    && Titled(fields, title) && Greedy(fields)
    && (fields != [] ==> |fields[|fields| - 1].value| + |buffer| > MaxField)
    && (fits ==> |buffer| <= MaxField && forall k :: 0 <= k < |fields| ==> 0 < |fields[k].value| <= MaxField)
    && (fields != [] ==> buffer != "")
  }

  /**
   * Closing the buffer as the next field keeps the titles and the greedy packing, and
   * when every text fits, every field stays non-empty and within the limit.
   */
  lemma CloseField(title: string, fields: seq<Field>, buffer: string, fits: bool)
    requires buffer != "" && Packing(title, fields, buffer, fits)
    ensures var g := fields + [Field(if fields != [] then ZeroWidth else Heading(title), buffer)];
      && Titled(g, title) && Greedy(g)
      && (fits ==> forall k :: 0 <= k < |g| ==> 0 < |g[k].value| <= MaxField)
  {
    var g := fields + [Field(if fields != [] then ZeroWidth else Heading(title), buffer)];
    forall k | 0 <= k < |g|
      ensures g[k].name == (if k == 0 then Heading(title) else ZeroWidth)
    {
      if k < |fields| {
        assert g[k] == fields[k];
      }
    }
    forall k | 0 <= k < |g| - 1
      ensures |g[k].value| + |g[k + 1].value| > MaxField
    {
      assert g[k] == fields[k];
    }
    if fits {
      forall k | 0 <= k < |g|
        ensures 0 < |g[k].value| <= MaxField
      {
        if k < |fields| {
          assert g[k] == fields[k];
        }
      }
    }
  }

  /** One text of `fill_fields`: close the field first when the text would not fit in it. */
  method AddText(title: string, fields: seq<Field>, buffer: string, firstFieldAdded: bool, text: string,
                 ghost fits: bool)
    returns (fields': seq<Field>, buffer': string, firstFieldAdded': bool)
    requires text != "" && (fits ==> |text| <= MaxField)
    requires firstFieldAdded <==> fields != []
    requires Packing(title, fields, buffer, fits)
    ensures Bodies(fields') + buffer' == Bodies(fields) + buffer + text
    ensures firstFieldAdded' <==> fields' != []
    ensures buffer' != "" && Packing(title, fields', buffer', fits)
  {
    if |buffer| + |text| > MaxField {
      var name := if firstFieldAdded then ZeroWidth else Heading(title);
      if buffer != "" {
        CloseField(title, fields, buffer, fits);
      }
      BodiesAppend(fields, Field(name, buffer));
      fields', buffer', firstFieldAdded' := fields + [Field(name, buffer)], text, true;
    } else {
      fields', buffer', firstFieldAdded' := fields, buffer + text, firstFieldAdded;
    }
  }

  /** The loop invariant of `fill_fields` after the first `i` emoji ids. */
  predicate Filled(title: string, emojiIds: seq<int>, emojis: map<int, string>, i: nat,
                   fields: seq<Field>, buffer: string, firstFieldAdded: bool)
    requires i <= |emojiIds|
  {
    && Bodies(fields) + buffer == Concat(Texts(emojiIds[..i], emojis))
    && (firstFieldAdded <==> fields != [])
    && (buffer == "" <==> Texts(emojiIds[..i], emojis) == [])
    && Packing(title, fields, buffer, Fits(emojiIds, emojis))
  }

  /** One turn of the `fill_fields` loop: the `i`-th emoji, if it resolves, is packed. */
  method FillStep(title: string, emojiIds: seq<int>, emojis: map<int, string>, i: nat,
                  fields: seq<Field>, buffer: string, firstFieldAdded: bool)
    returns (fields': seq<Field>, buffer': string, firstFieldAdded': bool)
    requires i < |emojiIds| && Filled(title, emojiIds, emojis, i, fields, buffer, firstFieldAdded)
    ensures Filled(title, emojiIds, emojis, i + 1, fields', buffer', firstFieldAdded')
  {
    TextsStep(emojiIds, emojis, i);
    var emojiId := emojiIds[i];
    if emojiId in emojis {
      var text := emojis[emojiId] + " ";
      ConcatAppend(Texts(emojiIds[..i], emojis), text);
      fields', buffer', firstFieldAdded' :=
        AddText(title, fields, buffer, firstFieldAdded, text, Fits(emojiIds, emojis));
    } else {
      assert Texts(emojiIds[..i + 1], emojis) == Texts(emojiIds[..i], emojis);
      fields', buffer', firstFieldAdded' := fields, buffer, firstFieldAdded;
    }
  }

  /** The end of `fill_fields`: a non-empty buffer becomes the last field. */
  method Flush(title: string, fields: seq<Field>, buffer: string, firstFieldAdded: bool, ghost fits: bool)
    returns (fields': seq<Field>)
    requires firstFieldAdded <==> fields != []
    requires Packing(title, fields, buffer, fits)
    ensures Bodies(fields') == Bodies(fields) + buffer
    ensures fields' == [] <==> buffer == ""
    ensures Titled(fields', title) && Greedy(fields')
    ensures fits ==> forall k :: 0 <= k < |fields'| ==> 0 < |fields'[k].value| <= MaxField
  {
    if buffer != "" {
      var name := if firstFieldAdded then ZeroWidth else Heading(title);
      CloseField(title, fields, buffer, fits);
      BodiesAppend(fields, Field(name, buffer));
      fields' := fields + [Field(name, buffer)];
    } else {
      fields' := fields;
    }
  }

  /**
   * `fill_fields` of `completion`: the texts of the emojis that resolve are packed, in
   * order, into fields; a field is closed when the next text would take it past 1024
   * characters. The fields hold exactly the texts, the first carries the title, none is
   * empty or too long when no text is, and no two neighbours could have been merged.
   */
  method FillFields(title: string, emojiIds: seq<int>, emojis: map<int, string>)
    returns (fields: seq<Field>)
    ensures Bodies(fields) == Concat(Texts(emojiIds, emojis))
    ensures fields == [] <==> Texts(emojiIds, emojis) == []
    ensures Titled(fields, title) && Greedy(fields)
    ensures Fits(emojiIds, emojis) ==>
      forall k :: 0 <= k < |fields| ==> 0 < |fields[k].value| <= MaxField
  {
    fields := [];
    var firstFieldAdded := false;
    var buffer := "";
    for i := 0 to |emojiIds|
      invariant Filled(title, emojiIds, emojis, i, fields, buffer, firstFieldAdded)
    {
      fields, buffer, firstFieldAdded := FillStep(title, emojiIds, emojis, i, fields, buffer, firstFieldAdded);
    }
    assert emojiIds[..|emojiIds|] == emojiIds;
    fields := Flush(title, fields, buffer, firstFieldAdded, Fits(emojiIds, emojis));
  }

  /** The emoji ids of some of the listed balls, in the same order. */
  function EmojiIdsOf(ballIds: seq<int>, bot: map<int, int>): (r: seq<int>)
    requires forall k :: 0 <= k < |ballIds| ==> ballIds[k] in bot
    ensures |r| == |ballIds| && forall k :: 0 <= k < |r| ==> r[k] == bot[ballIds[k]]
  {
    seq(|ballIds|, k requires 0 <= k < |ballIds| => bot[ballIds[k]])
  }

  /**
   * `fill_fields` of `compare`: an empty set gives the single field (title, "None");
   * otherwise the balls' emojis are packed as in `completion`, the loop being the same.
   */
  method CompareFields(title: string, ballIds: seq<int>, bot: map<int, int>, emojis: map<int, string>)
    returns (fields: seq<Field>)
    requires forall k :: 0 <= k < |ballIds| ==> ballIds[k] in bot
    ensures ballIds == [] ==> fields == [Field(Heading(title), "None")]
    ensures ballIds != [] ==>
      && Bodies(fields) == Concat(Texts(EmojiIdsOf(ballIds, bot), emojis))
      && (fields == [] <==> Texts(EmojiIdsOf(ballIds, bot), emojis) == [])
      && Titled(fields, title) && Greedy(fields)
    ensures ballIds != [] && Fits(EmojiIdsOf(ballIds, bot), emojis) ==>
      forall k :: 0 <= k < |fields| ==> 0 < |fields[k].value| <= MaxField
  {
    if ballIds == [] {
      return [Field(Heading(title), "None")];
    }
    fields := FillFields(title, EmojiIdsOf(ballIds, bot), emojis);
  }

  /** The emoji ids of the valid balls the player owns (a set, so shared emojis merge). */
  function OwnedEmojis(bot: map<int, int>, owned: set<int>): set<int>
  {
    set x | x in owned && x in bot :: bot[x]
  }

  /** The emoji ids of the listed balls the player does not own. */
  function MissingEmojis(bot: map<int, int>, owned: set<int>): set<int>
  {
    set x | x in bot && x !in owned :: bot[x]
  }

  /** Nothing is missing exactly when the player owns every listed ball. */
  lemma NothingMissing(bot: map<int, int>, owned: set<int>)
    ensures MissingEmojis(bot, owned) == {} <==> bot.Keys <= owned
  {
    assert forall y :: y in bot && y !in owned ==> bot[y] in MissingEmojis(bot, owned);
  }

  /**
   * The field list of `completion`: nothing at all when the bot has no listed ball. An
   * owned section when the player owns anything ("Nothing yet." when none of it is listed),
   * then the missing section, or a congratulation when nothing is missing. `ownedOrder`
   * and `missingOrder` are the two emoji sets in iteration order.
   */
  method CompletionFields(plural: string, bot: map<int, int>, owned: set<int>, ownedOrder: seq<int>,
                          missingOrder: seq<int>, emojis: map<int, string>)
    returns (entries: Option<seq<Field>>)
    requires NoDup(ownedOrder) && Elems(ownedOrder) == OwnedEmojis(bot, owned)
    requires NoDup(missingOrder) && Elems(missingOrder) == MissingEmojis(bot, owned)
    ensures entries.None? <==> bot == map[]
    ensures entries.Some? && owned != {} && owned * bot.Keys == {} ==>
      |entries.value| > 0 && entries.value[0] == Field(Heading("Owned " + plural), "Nothing yet.")
    ensures entries.Some? && bot.Keys <= owned ==>
      |entries.value| > 0 &&
      entries.value[|entries.value| - 1] ==
        Field(Heading(":tada: No missing " + plural + ", congratulations! :tada:"), ZeroWidth)
    ensures entries.Some? && owned == {} ==>
      Bodies(entries.value) == Concat(Texts(missingOrder, emojis))
    ensures entries.Some? ==>
      Bodies(entries.value) ==
        (if owned == {} then ""
         else if owned * bot.Keys == {} then "Nothing yet."
         else Concat(Texts(ownedOrder, emojis)))
        + (if bot.Keys <= owned then ZeroWidth else Concat(Texts(missingOrder, emojis)))
  {
    if bot == map[] {
      return None;
    }
    var fields: seq<Field> := [];
    if owned != {} {
      if owned * bot.Keys != {} {
        fields := FillFields("Owned " + plural, ownedOrder, emojis);
      } else {
        fields := [Field(Heading("Owned " + plural), "Nothing yet.")];
        BodiesAppend([], fields[0]);
        assert [] + [fields[0]] == fields;
      }
    }
    NothingMissing(bot, owned);
    if missingOrder != [] {
      assert missingOrder[0] in Elems(missingOrder);
    }
    if missingOrder != [] {
      var missing := FillFields("Missing " + plural, missingOrder, emojis);
      if owned == {} {
        assert fields == [];
        assert fields + missing == missing;
      }
      BodiesConcat(fields, missing);
      fields := fields + missing;
    } else {
      assert Elems(missingOrder) == {};
      var congratulation :=
        Field(Heading(":tada: No missing " + plural + ", congratulations! :tada:"), ZeroWidth);
      BodiesAppend(fields, congratulation);
      fields := fields + [congratulation];
    }
    entries := Some(fields);
  }
}
