# F1dex core rules in Dafny

This project models the game rules of F1dex, a Discord bot built on BallsDex in which
players collect "countryballs" (here: Formula 1 cards), trade them, battle with decks of
them and claim collector cards. Discord, the database and the clocks are stripped away;
what is left is a set of state records and decision rules, each stated and proved here:

- **Battles** (`battle_user.dfy`, `battle_menu.dfy`, `battle_cog.dfy`). Each of the two
  battlers builds a deck, locks it and confirms. The wage is escrowed when both decks are
  locked, refunded on cancellation and paid out with a daily bonus on confirmation (on every
  accept press as written, once both have accepted as corrected; see Findings). The cog
  keeps the sessions of each guild and channel in a list. Its lookup drops the stale
  sessions it walks past.
- **Trades** (`trade_user.dfy`, `trade_menu.dfy`, `trade_cog.dfy`). The same session
  bookkeeping as battles, plus the proposal's guards and the proposed-coins counter.
- **Session lists** (`sessions.dfy`). The lookup-and-evict scan shared by both cogs, proved
  once for any element type.
- **Midnight reset** (`daily.dfy`): the wait until midnight UTC and the daily counter reset.
- **Collector cards** (`claim.dfy`):
  - the bronze, silver and gold thresholds;
  - the claim commands;
  - the periodic check that takes cards back.
- **Collection commands** (`balls_listing.dfy`, `balls_rarity.dfy`, `balls_inventory.dfy`):
  - the completion and compare listings, and how they pack emoji text into fields of at
    most 1024 characters;
  - the four-way compare partition;
  - the competition-style rarity ranking;
  - the collection counts;
  - the favourite cap;
  - the donation chain of `give` and its approval request.
- **Admin commands** (`admin_coins.dfy`, `admin_packs.dfy`, `admin_privacy.dfy`):
  - coin grants and withdrawals;
  - pack grants and removals;
  - the selective policy update.

`models.dfy` holds the database rows the core touches: `Player` and `BallInstance` as
classes, `Ball` as a value. Their ORM definitions are not part of this model. `add_coins` and
`remove_coins` become `coins += amount` and `coins -= amount`. `lock_for_trade`, `unlock` and
`is_locked` become a `locked` flag on the instance.

Where the source mutates state (menus, cogs, players, ball instances, the pack table), the
model is a class whose methods have `modifies` frames. Each such method is specified by a
pure function or predicate, and the properties are proved about that function. Pure rules
are functions and lemmas.

## Model

| member | source | states |
|---|---|---|
| BattleUser.BattlingUser.constructor | ballsdex/packages/battle/battle_user.py:14-21 | A new battler has an empty deck and `locked`, `cancelled` and `accepted` all false |
| BattleMenus.BattleMenu.constructor | ballsdex/packages/battle/menu.py:149-169 | A new menu keeps its two battlers, `max_drivers` and wage, and starts in the deck view, not finished |
| BattleMenus.BattleMenu.GetBattler | ballsdex/packages/battle/menu.py:171-176 | Returns battler1 for battler1's id and battler2 for battler2's id; fails exactly when the id is neither |
| BattleMenus.Decide | ballsdex/packages/battle/menu.py:338-350 | The first battler wins iff attack1/health2 > attack2/health1, the second iff the reverse, and a draw iff the two ratios are equal; a ratio over zero health counts as 0 |
| BattleMenus.BattleMenu.Lock | ballsdex/packages/battle/menu.py:267-287 | Raises the caller's `locked`; both players lose the wage exactly when both flags are up afterwards, and only then does the confirmation view start |
| BattleMenus.BattleMenu.Cancel | ballsdex/packages/battle/menu.py:244-265 | Every ball of both decks ends unlocked; each battler whose `locked` flag is up gets the wage back, even if the other side never locked; the view is finished. Only the balls' `locked` flags, the two balances and the view state can change |
| BattleMenus.BattleMenu.UserCancel | ballsdex/packages/battle/menu.py:289-295 | The battler is marked cancelled, so the session becomes stale, and then the whole cancellation happens: every deck ball unlocked, each locked side refunded the wage, the view finished. Only those fields can change |
| BattleMenus.DecideIsSymmetric | ballsdex/packages/battle/menu.py:338-353 | Swapping the two sides swaps the winner and keeps a draw a draw |
| BattleMenus.DecideByProducts | ballsdex/packages/battle/menu.py:338-353 | With positive health on both sides: first wins iff attack1·health1 > attack2·health2, second iff the reverse, draw iff the products are equal |
| BattleMenus.ZeroHealthScoresZero | ballsdex/packages/battle/menu.py:338-353 | A ratio over zero health is 0: when the second deck's health is 0, the first side scores 0 and the second side wins whenever its attack and the first deck's health are positive |
| BattleMenus.Payout | ballsdex/packages/battle/menu.py:341-353 | The winner gets twice the wage and the loser nothing; a draw pays each side the wage; the two payouts always sum to twice the wage |
| BattleMenus.Bonus | ballsdex/packages/battle/menu.py:355-369 | +10 goes to a side iff that side did not lose and its `battles_today` is below the daily maximum; otherwise 0 |
| BattleMenus.DeckTotals | ballsdex/packages/battle/menu.py:328-336 | The loop sums attack and health over the deck, ball by ball, giving the deck totals |
| BattleMenus.Settle | ballsdex/packages/battle/menu.py:341-369 | Each player's coins rise by exactly their payout plus their bonus |
| BattleMenus.BattleMenu.Confirm | ballsdex/packages/battle/menu.py:297-400 | As written (see Findings): on every call both decks are summed, the wage and the bonus are paid for the result, the caller's `accepted` is raised, both `battles_today` rise by 1, the view finishes once both accepted, and it returns true |
| BattleMenus.BattleMenu.LockButton | ballsdex/packages/battle/menu.py:45-72 | Refuses an already-locked battler, then an empty deck, changing nothing; otherwise locks as `lock` does: when both decks are then locked, both players lose the wage and the confirmation view starts unfinished; otherwise the balances and the view state are unchanged |
| BattleMenus.BattleMenu.ResetButton | ballsdex/packages/battle/menu.py:75-87 | A locked deck is refused and left as it was, its balls' locks included; otherwise its balls are unlocked and the deck is emptied. Only the deck and its balls' `locked` flags can change |
| BattleMenus.BattleMenu.AcceptButton | ballsdex/packages/battle/menu.py:118-137 | A battler who already accepted is refused and nothing changes. Otherwise `confirm` runs: each player is paid their payout plus the bonus for the result (the bonus judged on the old `battles_today`), both counts rise by 1, and the view finishes once both accepted; the reply says the battle concluded iff both have accepted, else that it waits for the other user |
| BattleMenus.BattleMenu.PlayAsWritten | ballsdex/packages/battle/menu.py:45-400 | As written: from two unlocked, unaccepted, non-empty decks, lock, lock, accept, accept leaves the players' total higher by twice the wage plus two rounds of bonus, and each `battles_today` higher by 2 |
| BattleMenus.BattleMenu.ConfirmOnce | ballsdex/packages/battle/menu.py:297-400 | Corrected: the caller's acceptance is recorded; only when both have accepted are the wage and the bonus paid, both counts raised by 1 and the view finished; before that nothing else changes |
| BattleMenus.BattleMenu.AcceptButtonOnce | ballsdex/packages/battle/menu.py:118-137 | Corrected accept button: a repeat press is refused and changes nothing; otherwise `ConfirmOnce` runs and the reply says whether the battle concluded |
| BattleMenus.BattleMenu.PlayCorrected | ballsdex/packages/battle/menu.py:45-400 | Corrected: lock, lock, accept, accept pays back exactly the escrowed wage, so the players' total changes only by the bonus, and each `battles_today` rises by 1 |
| Sessions.FirstMatchIsFirst | ballsdex/packages/battle/cog.py:75-90 | The scan stops at the first session that is live and involves the user; every earlier session is stale or someone else's; it reaches the end iff no live session involves the user |
| Sessions.RemoveFirst | ballsdex/packages/battle/cog.py:92-97 | `list.remove(x)`: one element shorter when x is present. Where Python raises `ValueError` (x absent) the model returns the list unchanged, a case the removal loop never reaches |
| Sessions.RemoveFirstCuts | ballsdex/packages/battle/cog.py:92-97 | `list.remove(x)` removes the first occurrence of x and keeps everything before and after it in order |
| Sessions.RemoveAll | ballsdex/packages/battle/cog.py:92-97 | The removal loop applies `remove` once per collected session, in order |
| Sessions.RemoveAllStale | ballsdex/packages/battle/cog.py:92-97 | On a list without repeats, removing the collected stale sessions one by one leaves the scanned prefix without them, followed by the untouched rest |
| Sessions.ScanThenRemove | ballsdex/packages/battle/cog.py:75-98 | The scan followed by the removal loop leaves exactly the pruned list |
| Sessions.PrunedKeepsLive | ballsdex/packages/battle/cog.py:75-98 | Pruning keeps every session that is not stale, drops only stale ones and keeps the list free of repeats |
| Sessions.PrunedSameLive | ballsdex/packages/battle/cog.py:75-98 | A lookup for one user does not change which users have a live session |
| Sessions.PrunedWithoutMatch | ballsdex/packages/battle/cog.py:91-94 | With no live session for the user, every stale session of the channel is removed |
| Sessions.PruneTwice | ballsdex/packages/battle/cog.py:91-94 | Once every stale session is gone, another lookup leaves the list unchanged |
| Sessions.SameOn | ballsdex/packages/battle/cog.py:75-98 | The lookup depends only on the staleness and the users of the list's own sessions |
| BattleCog.Lookup | ballsdex/packages/battle/cog.py:75-98 | A session is found iff the user has a live one in the channel; it is in the list, not stale, and paired with the user's own side |
| BattleCog.AfterGet | ballsdex/packages/battle/cog.py:42-98 | The map after `get_battle`: only the channel's list is replaced, by its pruned list; the guilds present and every other guild's entry are unchanged, and a missing guild or channel leaves the map as it was |
| BattleCog.SetChannel | ballsdex/packages/battle/cog.py:38-40 | Writing `battles[guild][channel]` on the nested `defaultdict` stores the list under that guild and channel |
| BattleCog.SetChannelOk | ballsdex/packages/battle/cog.py:38-40 | Storing a list with no repeats and two distinct sides per session keeps that invariant for every channel |
| BattleCog.PrunedOk | ballsdex/packages/battle/cog.py:92-97 | Pruning keeps the channel invariant and adds no session |
| BattleCog.Scan | ballsdex/packages/battle/cog.py:75-90 | The scan loop stops where `FirstMatch` says and collects exactly the stale sessions before that point |
| BattleCog.Find | ballsdex/packages/battle/cog.py:75-98 | On one channel's list, the result equals `Lookup` and the list left behind is the pruned list |
| BattleCog.BeginOutcome | ballsdex/packages/battle/cog.py:147-163 | Refuses iff the author has a live session; then iff the opponent has one; then iff the opponent is blacklisted; otherwise the battle starts |
| BattleCog.Battle.constructor | ballsdex/packages/battle/cog.py:36-40 | The cog starts with no sessions |
| BattleCog.Battle.GetBattle | ballsdex/packages/battle/cog.py:42-98 | The whole map after the call is `AfterGet`: a missing guild or channel changes nothing and finds nothing; otherwise the channel's list becomes the pruned list. The result is `Lookup`, the staleness of the remaining sessions is unchanged, and the invariant is kept |
| BattleCog.Battle.Open | ballsdex/packages/battle/cog.py:177 | Appends the menu to the channel's list, keeping the invariant |
| BattleCog.Battle.Begin | ballsdex/packages/battle/cog.py:120-177 | Guards are checked in order, each reply iff its condition: bot, self, more than 50 balls, a wage above either balance; these change nothing. Then the author's session, the opponent's session and the blacklist, as `BeginOutcome`; those refusals leave the map as the two lookups left it. On success there is a fresh menu of the two players, with defaults 10 and 0, and the whole map is the old one with the channel's list replaced by its live sessions followed by the menu |
| BattleCog.NewMenu | ballsdex/packages/battle/cog.py:169-176 | Builds a menu of two fresh battlers with empty decks, the given players, `max_drivers` and wage |
| BattleCog.Battle.Start | ballsdex/packages/battle/cog.py:147-177 | Both lookups, then the guards as `BeginOutcome`. A refusal leaves the map as the two lookups left it; on success the map is the old one with the channel's list replaced by its live sessions followed by the new menu |
| BattleCog.Battle.GetBoth | ballsdex/packages/battle/cog.py:147-148 | The two lookups of `begin` report whether the author, then the opponent, has a live session; the map becomes `AfterGet` for the author and then for the opponent, which leaves only the live sessions when neither has one |
| BattleCog.Battle.OpenNew | ballsdex/packages/battle/cog.py:165-176 | A fresh menu of two fresh battlers with empty decks is appended to the channel's list; the rest of the map is unchanged |
| BattleCog.Battle.Add | ballsdex/packages/battle/cog.py:202-234 | Refuses, each iff its condition: no live session, a locked deck, a ball already in the deck, a locked ball, a full deck when `max_drivers` is non-zero. Otherwise the ball is appended once. The map is `AfterGet` for the user, only the found side's deck may change, and the ball's lock never does |
| BattleCog.Battle.AddToDeck | ballsdex/packages/battle/cog.py:206-234 | Once the caller's side is known: refuses, each iff its condition, a locked deck, a ball already in the deck, a locked ball, a full deck when `max_drivers` is non-zero; otherwise the ball is appended once |
| BattleCog.Battle.Remove | ballsdex/packages/battle/cog.py:252-274 | Refuses with no live session, a locked deck, or a ball not in the deck; otherwise the ball's first occurrence leaves the deck and the ball is unlocked. The map is `AfterGet` for the user, and only the found side's deck and the ball's lock may change |
| BattleCog.Battle.RemoveFromDeck | ballsdex/packages/battle/cog.py:258-274 | Once the caller's side is known: refuses a locked deck or a ball not in the deck; otherwise the ball's first occurrence leaves the deck and the ball is unlocked |
| Daily.SecondsUntilMidnightUtc | ballsdex/packages/battle/cog.py:25-28 | The wait lies in (0, 86400] and is a whole day exactly at midnight |
| Daily.WaitEndsAtMidnight | ballsdex/packages/trade/cog.py:36-39 | Now plus the wait is exactly the next midnight |
| Daily.WaitDecreases | ballsdex/packages/trade/cog.py:36-39 | A later time of day leaves a shorter wait |
| Daily.ResetTradesToday | ballsdex/packages/battle/cog.py:297-299 | Every player's `trades_today` becomes 0; `battles_today` and coins are unchanged (the battle cog's reset, too, clears only trades) |
| Daily.ResetBattlesAsWritten | ballsdex/packages/battle/cog.py:297-299 | As written: the battle cog's midnight task leaves every `battles_today` as it was and clears `trades_today` |
| Daily.ResetBattlesToday | ballsdex/packages/battle/cog.py:297-299 | Corrected: every player's `battles_today` becomes 0; `trades_today` and coins are unchanged |
| TradeUser.TradingUser.constructor | ballsdex/packages/trade/trade_user.py:16-25 | A new trader has nothing proposed, no coins, every flag false and an unknown blacklist mark |
| TradeUser.TradingUser.AddCoins | ballsdex/packages/trade/trade_user.py:27-28 | The proposed coins rise by exactly the amount and nothing else changes |
| TradeUser.TradingUser.RemoveCoins | ballsdex/packages/trade/trade_user.py:30-31 | The proposed coins fall by exactly the amount and nothing else changes |
| TradeUser.TradingUser.AddThenRemove | ballsdex/packages/trade/trade_user.py:27-31 | Adding and then removing the same amount gives back the original coins |
| TradeMenus.TradeMenu.constructor | ballsdex/packages/trade/cog.py:172-174 | A new trade session holds its two traders and is not finished |
| TradeMenus.TradeMenu.GetTrader | ballsdex/packages/trade/cog.py:101-106 | Returns the side whose user id matches; fails exactly when the id is neither side's |
| TradeCog.Lookup | ballsdex/packages/trade/cog.py:91-114 | A session is found iff the user has a live one in the channel; it is in the list, not stale, and paired with the user's own side |
| TradeCog.AfterGet | ballsdex/packages/trade/cog.py:57-114 | The map after `get_trade`: a missing guild gets an empty entry, a missing channel stays missing, and an existing list is replaced by its pruned list; every other guild's entry is unchanged |
| TradeCog.SetChannel | ballsdex/packages/trade/cog.py:87-88 | Writing `trades[guild][channel]` stores the list under that guild and channel |
| TradeCog.SetChannelOk | ballsdex/packages/trade/cog.py:87-88 | Storing a list that keeps the channel invariant keeps it for every channel |
| TradeCog.PrunedOk | ballsdex/packages/trade/cog.py:108-113 | Pruning keeps the channel invariant and adds no session |
| TradeCog.Scan | ballsdex/packages/trade/cog.py:91-106 | The scan loop stops at the first live session of the user and collects exactly the stale sessions before it |
| TradeCog.Find | ballsdex/packages/trade/cog.py:91-114 | On one channel's list, the result equals `Lookup` and the list left behind is the pruned list |
| TradeCog.BeginOutcome | ballsdex/packages/trade/cog.py:151-170 | Refuses iff the author has a live session; then iff the opponent has one; then iff the opponent is blacklisted; otherwise the trade starts |
| TradeCog.NewMenu | ballsdex/packages/trade/cog.py:172-174 | Builds a session of two fresh traders with nothing proposed and no coins |
| TradeCog.Trade.constructor | ballsdex/packages/trade/cog.py:48-50 | The cog starts with no sessions |
| TradeCog.Trade.GetTrade | ballsdex/packages/trade/cog.py:57-114 | The whole map after the call is `AfterGet`: a missing guild gets an empty entry, and a missing channel finds nothing. Otherwise the channel's list becomes the pruned list. The result is `Lookup` |
| TradeCog.Trade.Open | ballsdex/packages/trade/cog.py:175 | Appends the session to the channel's list, keeping the invariant |
| TradeCog.Trade.Begin | ballsdex/packages/trade/cog.py:126-175 | Guards are checked in order, each reply iff its condition: bot, self, the author blocked the opponent, the opponent blocked the author; these change nothing. Then the two session lookups and the blacklist, as `BeginOutcome`; those refusals leave the map as the two lookups left it. On success a fresh session of the two players, with no coins proposed, and the whole map is the old one with the channel's list replaced by its live sessions followed by the session |
| TradeCog.Trade.Start | ballsdex/packages/trade/cog.py:151-175 | Both lookups, then the guards as `BeginOutcome`. A refusal leaves the map as the two lookups left it; on success the map is the old one with the channel's list replaced by its live sessions followed by the new session |
| TradeCog.Trade.GetBoth | ballsdex/packages/trade/cog.py:151-152 | The two lookups of `begin` report whether the author, then the opponent, has a live session; the map becomes `AfterGet` for the author and then for the opponent, which leaves only the live sessions when neither has one |
| TradeCog.Trade.OpenNew | ballsdex/packages/trade/cog.py:172-175 | A fresh session of two fresh traders, with nothing and no coins proposed, is appended to the channel's list |
| TradeCog.Trade.Add | ballsdex/packages/trade/cog.py:196-248 | An untradeable ball, or a favourite the owner does not confirm, is refused before any lookup, changing nothing. Then, each iff its condition: no session, a locked proposal, a duplicate ball, a locked ball. On success the ball is locked and appended once. After a lookup the map is `AfterGet`, and only the found side's proposal and the ball's lock may change |
| TradeCog.Trade.Propose | ballsdex/packages/trade/cog.py:224-248 | Once the caller's side is known: refuses, each iff its condition, a locked proposal, a ball already proposed, a locked ball; otherwise the ball is locked and appended once |
| TradeCog.Trade.Remove | ballsdex/packages/trade/cog.py:337-359 | Refuses with no session, a locked proposal, or a ball not proposed; otherwise the ball's first occurrence leaves the proposal and the ball is unlocked. The map is `AfterGet`, and only the found side's proposal and the ball's lock may change |
| TradeCog.Trade.Withdraw | ballsdex/packages/trade/cog.py:343-359 | Once the caller's side is known: refuses a locked proposal or a ball not proposed; otherwise the ball's first occurrence leaves the proposal and the ball is unlocked |
| TradeCog.Trade.CoinsAdd | ballsdex/packages/trade/cog.py:476-511 | Refuses with no session, a locked proposal, amount ≤ 0, or amount above the player's balance (not the balance minus coins already proposed); otherwise the proposed coins rise by amount. The map is `AfterGet`, and only the found side's proposed coins may change |
| TradeCog.Trade.OfferCoins | ballsdex/packages/trade/cog.py:484-509 | Once the caller's side is known: refuses, each iff its condition, a locked proposal, amount ≤ 0, amount above the player's balance; otherwise the proposed coins rise by amount |
| TradeCog.Trade.CoinsRemove | ballsdex/packages/trade/cog.py:523-554 | Refuses with no session, a locked proposal, amount ≤ 0, or amount above the proposed coins; otherwise they fall by amount and stay ≥ 0. The map is `AfterGet`, and only the found side's proposed coins may change |
| TradeCog.Trade.TakeBackCoins | ballsdex/packages/trade/cog.py:531-554 | Once the caller's side is known: refuses, each iff its condition, a locked proposal, amount ≤ 0, amount above the proposed coins; otherwise they fall by amount and stay ≥ 0 |
| Claim.RoundHalfEven | ballsdex/packages/claim/cog.py:18 | Python's `round`: within 0.5 of its argument, and even on a tie |
| Claim.GetAmount | ballsdex/packages/claim/cog.py:16-18 | The amount is a multiple of 5 within 2.5 of the raw value |
| Claim.HalfUp | ballsdex/packages/claim/cog.py:49-50 | `quantize(0, ROUND_HALF_UP)` of num/den: the nearest integer, ties away from zero |
| Claim.Needed | ballsdex/packages/claim/cog.py:49-51 | Bronze needs the nearest integer to amount/4, silver the nearest to 3·amount/5 (halves rounded up), gold the amount itself; never negative for a non-negative amount |
| Claim.ThresholdsOrdered | ballsdex/packages/claim/cog.py:49-51 | For a non-negative amount, 0 ≤ bronze (amount/4) ≤ silver (3·amount/5) ≤ gold (amount) |
| Claim.SilverOfMultipleOfFive | ballsdex/packages/claim/cog.py:50 | On a multiple of 5 the silver threshold is exactly 3·amount/5 |
| Claim.Owned | ballsdex/packages/claim/cog.py:46 | The count of the player's instances of the ball, every special included; 0 iff there are none |
| Claim.CardAt | ballsdex/packages/claim/cog.py:99-101 | `.first()` of the tier-card filter: the first matching row, with no match before it; the table length when nothing matches |
| Claim.ClaimOutcome | ballsdex/packages/claim/cog.py:96-116 | Refuses iff the tier's card is already held; otherwise makes the card iff owned ≥ needed, else names the threshold and the count |
| Claim.ClaimCard | ballsdex/packages/claim/cog.py:118-125 | When the card is made, exactly one new row is added: the tier's card, untradeable, with zero attack and health bonus. Otherwise the table is unchanged |
| Claim.OwnedAppend | ballsdex/packages/claim/cog.py:46 | One more row of the pair adds exactly one to the owned count |
| Claim.RevokeStep | ballsdex/packages/claim/cog.py:58-63 | As written: one tier's step deletes only rows that were in the table |
| Claim.RevokeStepDeletes | ballsdex/packages/claim/cog.py:59-63 | A row is deleted iff the card exists and the total is below the threshold. The deleted row is that first card, and the other rows stay in order |
| Claim.MissingSpecialDeletesPlainInstance | ballsdex/packages/claim/cog.py:38-63 | As written, a tier whose special is missing deletes a plain instance when the total is below its threshold |
| Claim.RevokeTier | ballsdex/packages/claim/cog.py:58-63 | The corrected tier step deletes only rows that were in the table |
| Claim.RevokeTierKeepsPlain | ballsdex/packages/claim/cog.py:58-63 | The corrected step never deletes a plain instance. It deletes only the tier's card, and behaves as written whenever the special exists |
| Claim.CheckTiers | ballsdex/packages/claim/cog.py:53-63 | Corrected (built on `RevokeTier`): the three tiers run in order on one pair, deleting only existing rows |
| Claim.CheckBalls | ballsdex/packages/claim/cog.py:45-63 | Corrected (built on `RevokeTier`): every ball of one player, deleting only existing rows |
| Claim.CheckAll | ballsdex/packages/claim/cog.py:44-63 | Corrected (built on `RevokeTier`): every player, every ball, deleting only existing rows |
| Claim.CheckTiersRemovesCards | ballsdex/packages/claim/cog.py:53-63 | Corrected (built on `RevokeTier`): a row deleted for a pair is a card of one of the tiers for that pair, with a special |
| Claim.CheckBallsRemovesCards | ballsdex/packages/claim/cog.py:45-63 | Corrected (built on `RevokeTier`): a row deleted for a player belongs to that player and is a tier card of a checked ball |
| Claim.CheckAllRemovesCards | ballsdex/packages/claim/cog.py:34-63 | Corrected (built on `RevokeTier`): the whole check deletes only tier cards of checked players and balls, never a plain instance |
| Claim.ClaimedCardSurvives | ballsdex/packages/claim/cog.py:46-125 | A card just claimed survives the next check: it counts towards the total, which already met the threshold |
| Claim.RevokePair | ballsdex/packages/claim/cog.py:46-63 | Corrected (built on `RevokeTier`): the loop over the three tiers counts once and computes `CheckTiers` |
| Claim.RevokePlayer | ballsdex/packages/claim/cog.py:45-63 | Corrected (built on `RevokeTier`): the loop over the balls computes `CheckBalls` |
| Claim.CheckCollectorCards | ballsdex/packages/claim/cog.py:34-63 | Corrected (built on `RevokeTier`): the nested loops compute `CheckAll` |
| BallsListing.BotCountryballs | ballsdex/packages/balls/cog.py:319-328 | The selected balls map to their emoji ids and are a subset of the cache |
| BallsListing.ListingModes | ballsdex/packages/balls/cog.py:319-328 | With no filter a ball is listed iff enabled; with a season, iff it is of that season; with `all`, iff it has a season |
| BallsListing.SpecialEndFilters | ballsdex/packages/balls/cog.py:326 | A special with an end date further keeps exactly the balls created before it |
| BallsListing.Compare | ballsdex/packages/balls/cog.py:947-966 | `both`, `user1_only`, `user2_only` and `neither` are pairwise disjoint, their union is the valid set, and each holds exactly its ownership combination |
| BallsListing.Texts | ballsdex/packages/balls/cog.py:362-367 | Missing emojis are skipped; every remaining text is non-empty |
| BallsListing.BodiesAppend | ballsdex/packages/balls/cog.py:371-382 | Appending a field appends its value to the concatenated bodies |
| BallsListing.BodiesConcat | ballsdex/packages/balls/cog.py:371-382 | The bodies of two runs of fields, one after the other, are the bodies of the first run followed by those of the second |
| BallsListing.TextsStep | ballsdex/packages/balls/cog.py:362-367 | One more emoji id adds its text exactly when its emoji exists |
| BallsListing.AddText | ballsdex/packages/balls/cog.py:367-376 | Adding one text either extends the buffer or flushes it first: nothing is lost or reordered, and the packing invariant holds |
| BallsListing.CloseField | ballsdex/packages/balls/cog.py:368-375 | Closing the buffer as the next field keeps the first-field title, keeps neighbouring fields unmergeable, and, when every text fits, keeps every field non-empty and at most 1024 characters |
| BallsListing.FillStep | ballsdex/packages/balls/cog.py:362-376 | One loop turn keeps the fill invariant for the next emoji |
| BallsListing.Flush | ballsdex/packages/balls/cog.py:378-382 | A non-empty buffer becomes the last field and an empty one adds nothing; the bodies grow by the buffer, and the titles, the packing and the size bound hold of the result |
| BallsListing.FillFields | ballsdex/packages/balls/cog.py:358-382 | The field bodies concatenate to the emoji texts in order. There is no field iff there is no text. Only the first field carries the title. A field is flushed only when the next text would overflow it. When every text fits, each body is non-empty and at most 1024 characters |
| BallsListing.EmojiIdsOf | ballsdex/packages/balls/cog.py:977-978 | Each ball id maps to its emoji id, position by position |
| BallsListing.CompareFields | ballsdex/packages/balls/cog.py:970-991 | An empty set gives exactly one ("title", "None") field; otherwise the fields chunk the same way as `fill_fields`: their bodies concatenate to the balls' emoji texts, titled and greedy, and when every text fits each body is non-empty and at most 1024 characters |
| BallsListing.NothingMissing | ballsdex/packages/balls/cog.py:396 | The missing set is empty iff the player owns every listed ball |
| BallsListing.CompletionFields | ballsdex/packages/balls/cog.py:341-405 | No listed ball gives no entries. Otherwise the bodies, in order, are: nothing when nothing is owned, "Nothing yet." when no owned ball is listed, else the owned balls' texts; then the zero-width congratulation when every listed ball is owned, else the missing balls' texts. Owning nothing lists exactly the missing texts |
| BallsRarity.Candidates | ballsdex/packages/balls/cog.py:1161-1189 | The balls ranked: enabled, and of the season when one is given. Each such ball keeps its multiplicity |
| BallsRarity.RunStart | ballsdex/packages/balls/cog.py:1173-1178 | The index where the run of equal rarity containing position i starts: everything from there to i shares the rarity, and the ball before differs |
| BallsRarity.RunStartSplits | ballsdex/packages/balls/cog.py:1171-1178 | In a list sorted by rarity, a position lies before the run of i iff its rarity is smaller |
| BallsRarity.BelowPrefix | ballsdex/packages/balls/cog.py:1171-1178 | When exactly the first m balls are below x, `Below` is m |
| BallsRarity.RankIsCompetition | ballsdex/packages/balls/cog.py:1171-1178 | The rank the loop assigns (1 + the start of the run) is 1 + the number of balls with a smaller rarity: competition ranking, where ties share a rank |
| BallsRarity.RanksFollowRarity | ballsdex/packages/balls/cog.py:1171-1178 | Equal rarities share a rank, and a smaller rarity gets a strictly smaller rank |
| BallsRarity.Position | ballsdex/packages/balls/cog.py:1175-1180 | The first index of the ball in the sorted list, or none iff it is absent |
| BallsRarity.RankOf | ballsdex/packages/balls/cog.py:1171-1186 | The `current_rank`/`last_rarity` loop finds the ball iff it is listed, with rank 1 + the start of its run |
| BallsRarity.RankLines | ballsdex/packages/balls/cog.py:1197-1208 | One line per sorted ball, in order, each with the rank of its run, its emoji ("N/A" if missing) and its country |
| BallsRarity.RarityTitle | ballsdex/packages/balls/cog.py:1233-1247 | Corrected: the season's display name in the title when a season is given, and the plain title otherwise |
| BallsRarity.RarityTitleAsWritten | ballsdex/packages/balls/cog.py:1242-1247 | As written: a title exists iff a season is given (with none, reading the season's name fails), and then it names the season's display name |
| BallsRarity.TitleNeedsSeason | ballsdex/packages/balls/cog.py:1242-1247 | As written, the title is produced iff a season is given (otherwise `season.name` fails) |
| BallsRarity.SeasonCandidatesAsWritten | ballsdex/packages/balls/cog.py:1189-1197 | As written, the season branch ranks every enabled ball |
| BallsRarity.OtherSeasonRanked | ballsdex/packages/balls/cog.py:1189-1197 | A concrete F1 2024 ball is ranked in the Champions list as written, and left out of the corrected one |
| BallsRarity.Rarity | ballsdex/packages/balls/cog.py:1144-1251 | With no enabled ball, that reply and nothing else. With a countryball, ranked iff listed and `NotRanked` otherwise, with rank 1 + the number of rarer balls and its emoji. Otherwise a list of every ranked ball, each of the season, with its competition rank, its own emoji and its own country, under the corrected title |
| BallsInventory.OriginOf | ballsdex/packages/balls/cog.py:1081-1083 | Received iff there is a previous owner; packed iff packed and not received; caught otherwise |
| BallsInventory.CountOrigin | ballsdex/packages/balls/cog.py:1081-1083 | Each origin's count is at most the total, and 0 iff no row has that origin |
| BallsInventory.CountSpecials | ballsdex/packages/balls/cog.py:1084 | The number of rows with a special, 0 iff there is none |
| BallsInventory.CountSpecial | ballsdex/packages/balls/cog.py:1088-1090 | The count for one special is at most the special total, and 0 iff no row has it |
| BallsInventory.CollectionTotals | ballsdex/packages/balls/cog.py:1080-1083 | total = caught + received + packed |
| BallsInventory.CollectionTitle | ballsdex/packages/balls/cog.py:1110-1116 | "Total Collection" iff neither filter is given; otherwise "Collection of " followed by the country, or else by the season's display name |
| BallsInventory.TallySpecials | ballsdex/packages/balls/cog.py:1085-1090 | The tally's keys are exactly the specials present, each with its count |
| BallsInventory.Collection | ballsdex/packages/balls/cog.py:1045-1117 | Both filters are refused; no rows gives the empty reply. Otherwise the summary holds the total, which equals caught + received + packed, the specials count, the title, and a tally that names a special iff some counted row carries it |
| BallsInventory.Favorite | ballsdex/packages/balls/cog.py:531-578 | Refuses iff the cap is 0; a negative cap is accepted and refuses every addition. Unfavouriting always succeeds. Favouriting a ball not yet a favourite succeeds whenever there is a player row with fewer favourites than the cap, and needs both, so afterwards there are at most the cap. Refusals leave the flag alone |
| BallsInventory.DonationRequest.constructor | ballsdex/packages/balls/cog.py:43-54 | The request keeps the ball and the recipient |
| BallsInventory.DonationRequest.Accept | ballsdex/packages/balls/cog.py:56-101 | Answered iff the pressing user is the recipient; then the ball passes to the recipient: the previous owner is recorded, the favourite is cleared and the ball is unlocked. Anyone else changes nothing |
| BallsInventory.DonationRequest.Deny | ballsdex/packages/balls/cog.py:56-118 | Answered iff the pressing user is the recipient; then the ball is only unlocked. Anyone else changes nothing |
| BallsInventory.DonationRequest.OnTimeout | ballsdex/packages/balls/cog.py:64-76 | The ball is unlocked |
| BallsInventory.GiveOutcome | ballsdex/packages/balls/cog.py:603-698 | Given iff every guard passes and the policy is neither deny nor approval (friends-only needs friendship). Awaiting approval iff every guard passes under the approval policy. Later refusals imply the earlier guards passed |
| BallsInventory.Give | ballsdex/packages/balls/cog.py:600-719 | The reply is `GiveOutcome`. Given transfers the ball. Other replies leave its owners and favourite alone. Refusals before the lock leave the lock as it was; later ones unlock. Awaiting approval creates a request and keeps the ball locked |
| BallsInventory.GiveThenAccept | ballsdex/packages/balls/cog.py:81-101 | A donation awaiting approval that is then accepted transfers the ball as a direct donation does |
| AdminCoins.Grant | ballsdex/packages/admin/coins.py:35-47 | Refuses iff amount ≤ 0, or > 1,000,000. Otherwise the balance rises by exactly the amount. A refusal leaves it unchanged |
| AdminCoins.Withdraw | ballsdex/packages/admin/coins.py:79-92 | Refuses iff amount < 1, or amount > balance. Otherwise the balance falls by the amount and stays ≥ 0. A refusal leaves it unchanged |
| AdminCoins.WithdrawKeepsNonNegative | ballsdex/packages/admin/coins.py:86-92 | From a non-negative balance, no amount takes it below zero |
| AdminCoins.GrantThenWithdraw | ballsdex/packages/admin/coins.py:35-92 | A successful grant, then a withdrawal of the same amount, succeeds and restores the balance |
| AdminCoins.CoinsAdd | ballsdex/packages/admin/coins.py:17-47 | The reply and the player's new balance are `Grant` of the old balance |
| AdminCoins.CoinsRemove | ballsdex/packages/admin/coins.py:61-92 | The reply and the player's new balance are `Withdraw` of the old balance |
| Models.Player.AddCoins | ballsdex/packages/admin/coins.py:47 | `add_coins`: the balance rises by exactly the amount |
| Models.Player.RemoveCoins | ballsdex/packages/admin/coins.py:92 | `remove_coins`: the balance falls by exactly the amount |
| Models.BallInstance.LockForTrade | ballsdex/packages/trade/cog.py:247 | `lock_for_trade`: the instance is locked |
| Models.BallInstance.Unlock | ballsdex/packages/trade/cog.py:359 | `unlock`: the instance is unlocked |
| AdminPacks.CountUnopened | ballsdex/packages/admin/packs.py:88 | The number of unopened packs of the kind the player owns; 0 iff there is none |
| AdminPacks.NewPacks | ballsdex/packages/admin/packs.py:53-54 | `amount` new unopened packs of the kind for the player, with consecutive ids |
| AdminPacks.Others | ballsdex/packages/admin/packs.py:102-106 | The rows that are not unopened packs of that kind for that player |
| AdminPacks.CountAppend | ballsdex/packages/admin/packs.py:53-54 | The unopened count of two tables joined is the sum of their counts |
| AdminPacks.CountNewPacks | ballsdex/packages/admin/packs.py:53-54 | The new packs add exactly `amount` to the unopened count |
| AdminPacks.DropUnopenedRemoves | ballsdex/packages/admin/packs.py:102-106 | Deleting the first n unopened packs, when there are that many, leaves exactly n fewer, every other row as it was and the table n rows shorter |
| AdminPacks.PackTable.constructor | ballsdex/packages/admin/packs.py:54 | The pack table starts empty |
| AdminPacks.PackTable.Create | ballsdex/packages/admin/packs.py:54 | `PackInstance.create` appends one unopened pack with a fresh id |
| AdminPacks.PackTable.PacksAdd | ballsdex/packages/admin/packs.py:39-54 | Replies with exactly one of the two refusals or success; success iff 0 < amount ≤ 1,000,000. A refusal changes nothing; otherwise exactly `amount` new packs are appended and the unopened count rises by amount |
| AdminPacks.PackTable.PacksRemove | ballsdex/packages/admin/packs.py:87-106 | Replies with exactly one of the two refusals or success; success iff 1 ≤ amount ≤ the unopened count. A refusal changes nothing. Otherwise the first `amount` unopened packs are deleted, the count falls by amount, and the other rows are untouched |
| AdminPrivacy.Changes | ballsdex/packages/admin/privacy.py:87-121 | One report line per policy supplied, in order; empty iff none is supplied |
| AdminPrivacy.SetDonation | ballsdex/packages/admin/privacy.py:98-102 | A given donation policy is set and reported; without one, neither the policy nor the messages change |
| AdminPrivacy.SetTradeCooldown | ballsdex/packages/admin/privacy.py:104-109 | A given trade-cooldown policy is set and reported; without one, nothing changes |
| AdminPrivacy.SetMention | ballsdex/packages/admin/privacy.py:111-115 | A given mention policy is set and reported; without one, nothing changes |
| AdminPrivacy.SetFriends | ballsdex/packages/admin/privacy.py:117-121 | A given friend policy is set and reported; without one, nothing changes |
| AdminPrivacy.PolicySet | ballsdex/packages/admin/privacy.py:84-128 | Same-server privacy without the members intent is refused before any change or save. Otherwise exactly the supplied fields change, one message per change, and the player is saved iff something changed |

## Left out

- Discord plumbing: sending and editing messages, embeds, views and button disabling,
  `interaction_check` replies, paginators, mentions, logging. The emoji lookup
  (`bot.get_emoji`) is a map from emoji id to text; an id missing from it is a missing emoji.
- Timing: `update_message_loop`, view timeouts, the `TTLCache` expiry of the trade sessions,
  and the `tasks.loop` scheduling of the resets and the collector check. The midnight wait
  takes the time of day as a parameter.
- Floating point: the `SPECIAL_BUFFS` multiplier and its `Special.get` lookup (a ball's
  `attack` and `health` are the values after any buff), the rarity formula inside
  `get_amount` (the raw value is a parameter), and the completion percentage.
- Daily.SecondsUntilMidnightUtc: the wait is an exact real number of seconds, where
  `timedelta.total_seconds()` returns a float.
- BattleMenus.Decide: compares the ratios as exact real numbers, not as floating-point
  quotients.
- Claim.HalfUp: rounds `amount * 0.60` and `amount * 0.25` exactly; the source rounds the
  floating-point product (on the multiples of 5 that `get_amount` returns, the silver product
  is an integer anyway, see `Claim.SilverOfMultipleOfFive`).
- ORM queries: `get_or_create` is taken as given (the player row is a parameter), friend and
  block queries are booleans, `is_locked` is the `locked` flag without its time limit, the
  favourite count is a parameter, the blacklist is a set of ids. Table rows are sequences,
  and "first match" is the first in table order.
- The `Trade` and `TradeObject` records written by `give` and by accepting a donation are not
  modelled; trade history and `trade view` are left out.
- ballsdex/packages/trade/menu.py is not part of this model: a trade session keeps only its
  two sides, whether its view has finished, and the `_get_trader` lookup. Locking, confirming
  and cancelling a trade are therefore not modelled.
- The `cancel` commands of the battle and trade cogs (a lookup followed by `user_cancel`), and
  `trade bulk add`, are left out.
- Iteration over Python sets: the order in which `fill_fields` visits a set is a parameter
  (a sequence without repeats holding the set's elements).
- The `sorted(..., key=(rarity, country))` call is taken as given: `Rarity` receives a list
  sorted by rarity that is a permutation of the candidates. The country tie order is not
  modelled, and rarities are reals (no NaN).
- The `rarity_to_collectibles` map that `rarity` builds and never reads is not modelled.
- BallsRarity.Rarity: when a countryball is given but not found in the sorted list, the
  source falls through to code that fails; the model answers `NotRanked`. An enabled
  countryball is always listed, so the case does not arise from the command.
- Sessions.RemoveFirst: `list.remove` raises `ValueError` when the element is absent; the model
  returns the list unchanged instead. The cogs only remove sessions taken from that same list,
  so the error case never arises there.
- BallsRarity.RankLines: a line is a record of rank, emoji and country, not the formatted
  string.
- Every member of the policy enums is taken to be truthy, so "a policy was given" means the
  option is present.
- The dead `amount is None` checks of the claim commands and the `if not countryball` guards
  (the transformers never pass an empty value) are not modelled.
- The `list`, `count`, `duplicate`, `info` and `last` commands of the balls cog are outside
  this model.

## Findings

| source | as written | input that shows it | evidently intended | confidence | as-written member | corrected member |
|---|---|---|---|---|---|---|
| ballsdex/packages/claim/cog.py:38-63 | When a tier's `Special` row is missing, `specials[name]` is `None`, and the filter `special=None` matches the player's plain instances, so one of them is deleted | No "Gold Collector" special; a player owns 3 plain instances of a ball whose gold threshold is 10; the check deletes one plain instance | Skip a tier whose special does not exist; only collector cards are ever taken back | not executed; depends on the ORM turning `special=None` into an IS NULL filter | Claim.RevokeStep, Claim.MissingSpecialDeletesPlainInstance | Claim.RevokeTier, Claim.RevokeTierKeepsPlain, and the checks built on it: Claim.RevokePair, Claim.RevokePlayer, Claim.CheckCollectorCards, Claim.CheckTiers, Claim.CheckBalls, Claim.CheckAll, Claim.CheckTiersRemovesCards, Claim.CheckBallsRemovesCards, Claim.CheckAllRemovesCards |
| ballsdex/packages/balls/cog.py:1242 | `season_txt` reads `season.name` unconditionally, although `season` is optional | `/rarity` with no countryball and no season: `None.name` fails before the list is shown | Build the season text only when a season is given, as the title expression on line 1244 already assumes | not executed | BallsRarity.RarityTitleAsWritten, BallsRarity.TitleNeedsSeason | BallsRarity.RarityTitle |
| ballsdex/packages/balls/cog.py:1189-1197 | The season branch builds `season_collectibles` but sorts and ranks `enabled_collectibles` | `/rarity season:Champions` with an enabled F1 2024 ball: that ball appears in the Champions list | Rank only the enabled balls of the chosen season | not executed | BallsRarity.SeasonCandidatesAsWritten, BallsRarity.OtherSeasonRanked | BallsRarity.Candidates (used by BallsRarity.Rarity) |
| ballsdex/packages/battle/menu.py:297-400 | `confirm` runs in full on every accept press: it pays the wage and the bonus and raises `battles_today` each time, although the wages were taken only once, at lock time | Both battlers lock with wage w, then both accept: the wage is paid back twice, so the two players end 2w richer than before, with two rounds of bonus and `battles_today` up by 2 each | Settle once, when both have accepted: the players' total changes only by the bonus, and each count rises by 1 | not executed | BattleMenus.BattleMenu.PlayAsWritten (over BattleMenus.BattleMenu.AcceptButton and BattleMenus.BattleMenu.Confirm) | BattleMenus.BattleMenu.ConfirmOnce, BattleMenus.BattleMenu.AcceptButtonOnce, BattleMenus.BattleMenu.PlayCorrected |
| ballsdex/packages/battle/cog.py:297-299 | The battle cog's daily reset sets `trades_today` to 0 instead of `battles_today` | Any player with `battles_today` = 3 before midnight still has 3 after the reset, so the daily battle bonus cap never reopens | Clear `battles_today` | not executed | Daily.ResetBattlesAsWritten | Daily.ResetBattlesToday |
