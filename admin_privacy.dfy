/**
 * ballsdex/packages/admin/privacy.py: an admin sets any of a player's five policies at
 * once. Each policy given is written to the player and reported; the player is saved
 * once, and only when something changed. Every member of the policy enums is taken to
 * be truthy, so "given" means `Some`.
 */
module AdminPrivacy {
  import opened Common
  import opened Models

  /** One line of the report: which policy was set, and to what. */
  datatype Change =
    | PrivacySet(privacy: PrivacyPolicy)
    | DonationSet(donation: DonationPolicy)
    | TradeCooldownSet(tradeCooldown: TradeCooldownPolicy)
    | MentionSet(mention: MentionPolicy)
    | FriendsSet(friends: FriendPolicy)

  /** The policies given, in the order the command reports them. */
  function Changes(privacy: Option<PrivacyPolicy>, donation: Option<DonationPolicy>,
                   tradeCooldown: Option<TradeCooldownPolicy>, mention: Option<MentionPolicy>,
                   friends: Option<FriendPolicy>): (r: seq<Change>)
    ensures r == [] <==> privacy.None? && donation.None? && tradeCooldown.None? && mention.None? && friends.None?
    ensures privacy.Some? <==> |r| > 0 && r[0].PrivacySet?
    ensures privacy.Some? ==> r[0] == PrivacySet(privacy.value)
    ensures friends.Some? <==> |r| > 0 && r[|r| - 1].FriendsSet?
    ensures friends.Some? ==> r[|r| - 1] == FriendsSet(friends.value)
    ensures |r| == (if privacy.Some? then 1 else 0) + (if donation.Some? then 1 else 0)
                 + (if tradeCooldown.Some? then 1 else 0) + (if mention.Some? then 1 else 0)
                 + (if friends.Some? then 1 else 0)
  {
    (if privacy.Some? then [PrivacySet(privacy.value)] else [])
    + (if donation.Some? then [DonationSet(donation.value)] else [])
    + (if tradeCooldown.Some? then [TradeCooldownSet(tradeCooldown.value)] else [])
    + (if mention.Some? then [MentionSet(mention.value)] else [])
    + (if friends.Some? then [FriendsSet(friends.value)] else [])
  }

  datatype PolicyReply = NeedsMembersIntent | NoPolicyUpdated | PoliciesUpdated(changes: seq<Change>)

  /** `if donation:` of `policy_set`: set the policy and report it. */
  method SetDonation(player: Player, donation: Option<DonationPolicy>, messages: seq<Change>)
    returns (messages': seq<Change>)
    modifies player`donationPolicy
    ensures player.donationPolicy == (if donation.Some? then donation.value else old(player.donationPolicy))
    ensures messages' == messages + (if donation.Some? then [DonationSet(donation.value)] else [])
  {
    messages' := messages;
    if donation.Some? {
      player.donationPolicy := donation.value;
      messages' := messages' + [DonationSet(donation.value)];
    }
  }

  /** `if trade_cooldown:` of `policy_set`: set the policy and report it. */
  method SetTradeCooldown(player: Player, tradeCooldown: Option<TradeCooldownPolicy>, messages: seq<Change>)
    returns (messages': seq<Change>)
    modifies player`tradeCooldownPolicy
    ensures player.tradeCooldownPolicy ==
      (if tradeCooldown.Some? then tradeCooldown.value else old(player.tradeCooldownPolicy))
    ensures messages' == messages + (if tradeCooldown.Some? then [TradeCooldownSet(tradeCooldown.value)] else [])
  {
    messages' := messages;
    if tradeCooldown.Some? {
      player.tradeCooldownPolicy := tradeCooldown.value;
      messages' := messages' + [TradeCooldownSet(tradeCooldown.value)];
    }
  }

  /** `if mention:` of `policy_set`: set the policy and report it. */
  method SetMention(player: Player, mention: Option<MentionPolicy>, messages: seq<Change>)
    returns (messages': seq<Change>)
    modifies player`mentionPolicy
    ensures player.mentionPolicy == (if mention.Some? then mention.value else old(player.mentionPolicy))
    ensures messages' == messages + (if mention.Some? then [MentionSet(mention.value)] else [])
  {
    messages' := messages;
    if mention.Some? {
      player.mentionPolicy := mention.value;
      messages' := messages' + [MentionSet(mention.value)];
    }
  }

  /** `if friends:` of `policy_set`: set the policy and report it. */
  method SetFriends(player: Player, friends: Option<FriendPolicy>, messages: seq<Change>)
    returns (messages': seq<Change>)
    modifies player`friendPolicy
    ensures player.friendPolicy == (if friends.Some? then friends.value else old(player.friendPolicy))
    ensures messages' == messages + (if friends.Some? then [FriendsSet(friends.value)] else [])
  {
    messages' := messages;
    if friends.Some? {
      player.friendPolicy := friends.value;
      messages' := messages' + [FriendsSet(friends.value)];
    }
  }

  /**
   * `policy_set`: the same-server privacy policy needs the members intent, and asking for
   * it without the intent stops the command before anything is set. Otherwise each
   * policy given is set, and no other; `saved` tells whether the player was saved.
   */
  method PolicySet(player: Player, membersIntent: bool, privacy: Option<PrivacyPolicy>,
                   donation: Option<DonationPolicy>, tradeCooldown: Option<TradeCooldownPolicy>,
                   mention: Option<MentionPolicy>, friends: Option<FriendPolicy>)
    returns (reply: PolicyReply, saved: bool)
    modifies player`privacyPolicy, player`donationPolicy, player`tradeCooldownPolicy,
             player`mentionPolicy, player`friendPolicy
    ensures reply == NeedsMembersIntent <==> privacy == Some(SameServer) && !membersIntent
    ensures reply == NeedsMembersIntent ==>
      unchanged(player`privacyPolicy, player`donationPolicy, player`tradeCooldownPolicy,
                player`mentionPolicy, player`friendPolicy) && !saved
    ensures reply != NeedsMembersIntent ==>
      && player.privacyPolicy == (if privacy.Some? then privacy.value else old(player.privacyPolicy))
      && player.donationPolicy == (if donation.Some? then donation.value else old(player.donationPolicy))
      && player.tradeCooldownPolicy ==
           (if tradeCooldown.Some? then tradeCooldown.value else old(player.tradeCooldownPolicy))
      && player.mentionPolicy == (if mention.Some? then mention.value else old(player.mentionPolicy))
      && player.friendPolicy == (if friends.Some? then friends.value else old(player.friendPolicy))
    ensures reply != NeedsMembersIntent ==>
      var changes := Changes(privacy, donation, tradeCooldown, mention, friends);
      && (reply == NoPolicyUpdated <==> changes == [])
      && (reply.PoliciesUpdated? ==> reply.changes == changes)
      && (saved <==> changes != [])
  {
    var messages: seq<Change> := [];
    ghost var wanted := Changes(privacy, donation, tradeCooldown, mention, friends);
    if privacy.Some? {
      if privacy.value == SameServer && !membersIntent {
        return NeedsMembersIntent, false;
      }
      player.privacyPolicy := privacy.value;
      messages := messages + [PrivacySet(privacy.value)];
    }
    assert messages == (if privacy.Some? then [PrivacySet(privacy.value)] else []);
    messages := SetDonation(player, donation, messages);
    messages := SetTradeCooldown(player, tradeCooldown, messages);
    messages := SetMention(player, mention, messages);
    messages := SetFriends(player, friends, messages);
    assert messages == wanted;
    if messages != [] {
      return PoliciesUpdated(messages), true;
    }
    return NoPolicyUpdated, false;
  }
}
