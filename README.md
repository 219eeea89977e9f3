# Countess blackjack engine, modelled in Dafny

This project models the blackjack engine of Countess (`countess/app.py`):

- the multi-deck shoe: how it is built, shuffled and dealt from, and when it is reshuffled;
- hand evaluation, with soft and hard aces, naturals and pairs;
- the fixed basic-strategy table (S17, double after split);
- one round of `BlackjackEnv.play_round_verbose`:
  - the deal in the order player, dealer, player, dealer;
  - the forward pass over a list of player hands that grows as hands are split;
  - the dealer loop, settlement of every hand, and the round's label;
- the survival economy `CreditManager.step`;
- the session's peak, drawdown and outcome tallies.

The model has four layers:

- **Value specification.** `Rounds` describes a round as functions of the shoe's card list and cursor.
  - `Step` is one pass of the inner loop. `PlayHands` is the whole pass over the hands.
  - `DealerRun` is the dealer loop. `SettleAll` and `AggregateOutcome` are settlement and the label.
  - `PlayRound` is the whole round.
- **Imperative engine.** `Engine.BlackjackEnv` has one method per loop of the source.
  - It draws from a `Shoes.Shoe` object in place, and appends to hand lists and traces as the source does.
  - Each method is proved to return exactly what the specification computes and to leave the shoe cursor where the source leaves it.
- **Laws.** `RoundLaws` proves what a completed round guarantees:
  - the split budget, and the shape of doubled and split-aces hands;
  - that no hand is acted on at 21 or more, and that each hand ended for a reason;
  - that every dealt card ends in exactly one hand;
  - that the trace names every dealt card in dealing order.
- **Economy and session.** `Economy` and `Session` model the credit counter and the statistics.
  - Each is a class whose methods update fields in place.
  - Each is proved against pure step functions, with lemmas about those functions.

Modules and files:

| file | module | |
|---|---|---|
| `wrappers.dfy` | `Wrappers` | `Option` for table fall-through, `Result` for operations that raise |
| `cards.dfy` | `Cards` | ranks, suits, count values, and `make_shoe_cards` as three loops |
| `shoe.dfy` | `Shoes` | class `Shoe` (`cards`, `i`), shuffle, deal, and the reshuffle threshold |
| `hands.dfy` | `Hands` | `hand_value` (the spec and the counting loop), `is_blackjack`, `is_pair` |
| `strategy.dfy` | `Strategy` | `basic_strategy` |
| `rounds.dfy` | `Rounds` | the round as a value specification |
| `round_laws.dfy` | `RoundLaws` | invariants of the pass, card conservation, trace completeness |
| `engine.dfy` | `Engine` | class `BlackjackEnv`, proved equal to the specification |
| `economy.dfy` | `Economy` | `SurvivalEconomy`, class `CreditManager` |
| `session.dfy` | `Session` | `update_drawdown_and_counters`, as class `Stats` |
| `scenarios.dfy` | `Scenarios` | whole rounds on fixed shoes |

How the model stands in for the source:

- **Cards.** A card is `Card(rank, suit)`. Its count value (`Value()`, from `RankValue`) is derived rather than stored, because `make_shoe_cards` always stores `rank_value(rank)`.
- **Trace.** Trace records are the `Event` datatype. The face-down hole card is `Dealt(ToDealer, FaceDown)`, and the `"hand_N"` targets are `ToHand(N)`.
- **Money.** Money is `real`.
- **Randomness.** The random generator is a parameter `pick: nat -> nat` that drives a Fisher-Yates shuffle. Only the facts that the shuffle permutes the cards and rewinds the cursor are relied on.
- **Exhausted shoe.** The `IndexError` of dealing from an exhausted shoe is the failure `ShoeExhausted`. The cursor is then at the end of the card list, as in the source, where the failing read happens before the increment.
- **Experiment over.** `ExperimentOverError` is the failure `CreditsDepleted`. The counter keeps its new value, as in the source.
- **First hand of an ace split.** The source checks for split aces only when its outer loop reaches a hand. So the first hand of an ace split goes on being played by the inner loop: it can be hit, doubled or split again. Only the hands appended by the split are frozen at two cards. The model keeps this as written (`RoundLaws.HandOk` states the two-card rule only for hands after the first), and `Scenarios.FirstSplitAceHandPlaysOn` shows such a hand taking a third card.
- **The dealer's hard 17.** The dealer loop as written has no branch for a hard 17, so the round never ends there (see Findings). The model has both rules:
  - `Rounds.DealerRuleAsWritten` is the loop as written.
  - `Rounds.DealerRule` is the intended rule, where a hard 17 stands. The rest of the model uses it.

## Model

| member | source | states |
|---|---|---|
| Cards.RankValue | countess/app.py:70-75 | an ace counts 1, exactly the ten-valued ranks 10/J/Q/K count 10, every count is in 1..10 |
| Cards.NumeralValueIsItsLabel | countess/app.py:75 | a numeral rank counts the number its label spells, as `int(rank)` reads it |
| Cards.MakeShoeCards | countess/app.py:78-84 | the deck loop builds exactly the ordered card list of `decks` decks; a count below one gives no cards |
| Cards.AppendDeck | countess/app.py:81-83 | the suit loop appends one whole deck, suits in order |
| Cards.AppendRow | countess/app.py:82-83 | the rank loop appends one suit's cards in rank order |
| Cards.CountRankDeck | countess/app.py:81-83 | a deck holds four cards of every rank |
| Cards.ShoeComposition | countess/app.py:78-84 | a shoe of n decks holds 52n cards and 4n cards of every rank |
| Shoes.Trunc | countess/app.py:107 | `int()` of a real truncates toward zero, on both signs |
| Shoes.ReshuffleThreshold | countess/app.py:107 | for a penetration at most 1, the threshold is the untouched share `n·(1 − p)` of the shoe truncated toward zero, and is not negative |
| Shoes.ThresholdWithinShoe | countess/app.py:106-107 | for a penetration in [0, 1] the reshuffle threshold lies between 0 and the shoe size, so a full shoe never asks to be reshuffled |
| Shoes.NegativePenetrationAlwaysReshuffles | countess/app.py:106-107 | a negative penetration p, on a shoe of n cards with n·(−p) ≥ 1, puts the threshold above the shoe size, so such a shoe reshuffles before every round |
| Shoes.Shoe.constructor | countess/app.py:88-92 | a new shoe is a permutation of the decks' cards, with its cursor at 0 |
| Shoes.Shoe.Shuffle | countess/app.py:94-96 | the card list is permuted in place and the cursor rewound |
| Shoes.Shoe.Remaining | countess/app.py:98-99 | the undealt count lies between 0 and the shoe size, and is 0 exactly when the cursor is at the end |
| Shoes.Shoe.NeedsReshuffle | countess/app.py:106-107 | a freshly shuffled shoe never needs reshuffling for a penetration in [0, 1]; with a negative penetration p and n·(−p) ≥ 1 it always does |
| Shoes.Shoe.Deal | countess/app.py:101-104 | the card at the cursor is returned, the cursor moves on by one, and the card list is unchanged |
| Hands.CardsValues | countess/app.py:123-124 | the values list has one entry per card, each that card's count value; its sum is the total with every ace as 1 and its 1s count the aces, the two numbers `hand_value` starts from (app.py:129-130) |
| Hands.HandValue | countess/app.py:127-136 | the total is never below the raw sum; a soft hand is at most 21; a bust hand is hard and counts every ace as 1 |
| Hands.ComputeHandValue | countess/app.py:127-136 | summing the values list, counting its aces and running the promotion loop returns exactly `HandValue`: one ace is promoted to 11 when there is one and it fits under 22 |
| Hands.HandValueOrderFree | countess/app.py:127-130 | two hands holding the same multiset of cards, in any order, evaluate the same |
| Hands.IsBlackjack | countess/app.py:139-143 | a natural is exactly two cards whose values are 1 and 10, that is an ace and any of 10/J/Q/K in either order; a natural is soft 21 and never a pair |
| Hands.IsPair | countess/app.py:146-149 | a hand is a pair if and only if it has two cards of equal count value; two cards of one rank always pair |
| Hands.MixedPairsAreTens | countess/app.py:146-149 | two cards of different ranks pair exactly when both are among 10/J/Q/K, so ten and king (or jack and queen) pair |
| Hands.BlackjackIffTwentyOne | countess/app.py:139-143 | among two-card hands, the naturals are exactly the hands totalling 21, and they are soft |
| Hands.PairTotal | countess/app.py:146-149 | a pair of aces is soft 12; any other pair totals twice its value, hard |
| Strategy.BasicStrategy | countess/app.py:160-217 | a pair is decided by the pair table alone and never by totals; any other hand is decided by the soft rows when soft and by the hard rows when hard |
| Strategy.PairAction | countess/app.py:164-183 | the pair table has a row exactly for the values 1..10, and its only double is for fives |
| Strategy.SoftAction | countess/app.py:188-202 | the soft rows never split, stand on 19 or more, and double only soft 13 to 18 against 3 to 6 |
| Strategy.HardAction | countess/app.py:204-217 | the hard rows never split, hit 8 or less, stand on 17 or more, and double only 9 to 11 |
| Strategy.PairTableIsComplete | countess/app.py:164-183 | every paired value 1..10 has a row in the pair table, so a pair never falls through to the totals |
| Strategy.AcesAndEightsSplit | countess/app.py:166-169 | aces and eights are split against every upcard |
| Strategy.TensStand | countess/app.py:170-171 | two ten-valued cards stand against every upcard |
| Strategy.FivesDoubleOrHit | countess/app.py:178-179 | two fives double against 2 to 9 and hit otherwise |
| Strategy.SoftNineteenStands | countess/app.py:188-202 | soft 19 or more stands against every upcard |
| Strategy.SoftEighteen | countess/app.py:196-201 | soft 18 doubles against 3 to 6, stands against 2, 7 and 8, and hits otherwise |
| Strategy.HardTotals | countess/app.py:204-217 | a hard non-pair hits 16 against a ten and 11 against an ace, and stands on 17 or more |
| Strategy.SplitOnlyPairs | countess/app.py:160-217 | the table advises a split only for a pair |
| Strategy.SixteenAgainstTen | countess/app.py:160-217 | ten and six against a king hits; eight and eight against a ten splits |
| Rounds.Resolve | countess/app.py:321-360 | a split needs a P, the split budget, two cards and a pair; a double needs a D and two cards; an S stands; every other case is a hit |
| Rounds.PlayStep | countess/app.py:313-363 | one pass of the inner loop stays within the shoe and moves the pass forward: it draws a card or moves on to the next hand |
| Rounds.Step | countess/app.py:305-363 | entering a hand or playing it once always moves the pass strictly forward, which makes the pass over a growing list terminate |
| Rounds.Visit | countess/app.py:305-311 | entering a hand changes nothing but the hand index or the entered flag: a split-aces hand with two or more cards is skipped, any other is entered |
| Rounds.PlayHands | countess/app.py:304-365 | the pass ends with every hand visited and the cursor no further back than it started |
| Rounds.DealerRule | countess/app.py:238-256 | the intended dealer rule matches a branch for every total: it always stops or draws |
| Rounds.DealerRuleAsWritten | countess/app.py:239-256 | the loop's branches as written: no branch matches exactly at hard 17; a card is drawn exactly below 17 and at soft 17 under H17 |
| Rounds.DealerStepAsWritten | countess/app.py:238-256 | the loop as written makes no progress exactly on a dealer hand worth hard 17 |
| Rounds.DealerStepCases | countess/app.py:238-256 | the dealer stops exactly at 17 or more, except a soft 17 under H17; it draws exactly below 17 and at soft 17 under H17; it always makes progress |
| Rounds.AsWrittenDiffersOnlyAtHardSeventeen | countess/app.py:238-256 | the loop as written agrees with the intended rule except at hard 17, where it makes no progress |
| Rounds.HardSeventeenHangs | countess/app.py:239-256 | on ten and seven, the loop as written makes no progress under S17 and under H17; the intended rule stands |
| Rounds.DealerRun | countess/app.py:239-256 | a dealer run stays within the shoe and never moves the cursor backwards |
| Rounds.DealerRunDraws | countess/app.py:238-256 | a dealer run that ends has taken the next shoe cards in order, written one HIT record per card, and ended on a standing total |
| Rounds.SettleHand | countess/app.py:258-275 | a win pays the bet, a loss costs it, a push pays nothing, and BJ pays bet times payout; BJ happens exactly for an unbusted natural, not from split aces, against a dealer without a natural; a bust always loses; a push means equal totals or two naturals |
| Rounds.SettleHandOutcomes | countess/app.py:258-275 | each outcome as an if-and-only-if. LOSE: a bust, or a dealer natural against any hand that is not a natural (a split-aces 21 is not one), or, when both or neither hold a natural, a dealer total of at most 21 above the player's. WIN: both or neither hold a natural and an unbusted hand meets a dealer bust or a lower dealer total. PUSH: the same, but with equal totals and no dealer bust |
| Rounds.NaturalsPush | countess/app.py:263-267 | a player natural against a dealer natural pushes |
| Rounds.HandStake | countess/app.py:373 | a doubled hand is staked at twice the bet, any other at the bet |
| Rounds.SettleAll | countess/app.py:370-376 | one outcome per hand |
| Rounds.SettleAllInHandOrder | countess/app.py:372-376 | outcome k is the settlement of hand k at its own stake, so the outcomes are listed in hand order |
| Rounds.SettleAllProfit | countess/app.py:370-376 | the round's profit is the sum, from the first hand on, of every hand's profit at its own stake |
| Rounds.AggregateOutcome | countess/app.py:378-384 | BJ if any hand is BJ, else WIN if any hand wins, else LOSE if any hand loses, else PUSH, each as an if-and-only-if |
| Rounds.MixedPushAndLoseIsLose | countess/app.py:378-384 | a push beside a loss labels the round LOSE, and a win beside a loss labels it WIN |
| Rounds.LabelledProfit | countess/app.py:370-384 | a round labelled PUSH made exactly nothing, and one labelled LOSE lost money, with any number of hands (positive bet) |
| Rounds.FinishRound | countess/app.py:367-403 | the dealer draws only from the cursor on, within the shoe |
| Rounds.PlayRound | countess/app.py:286-403 | a completed round has dealt at least the four opening cards and stays within the shoe |
| RoundLaws.StartShape | countess/app.py:291-302 | after the deal, the pass starts from one two-card hand with no splits |
| RoundLaws.VisitShape | countess/app.py:305-311 | entering a hand keeps the invariant of the pass; a split-aces hand with two cards is skipped |
| RoundLaws.DoubleShape | countess/app.py:346-352 | a double adds exactly one card to a two-card hand, giving three, and moves on |
| RoundLaws.SplitShape | countess/app.py:321-343 | a split within the budget replaces the pair by two two-card hands and counts one more split |
| RoundLaws.HitShape | countess/app.py:359-363 | a hit adds one card drawn below 21 and keeps the same hand |
| RoundLaws.StepShape | countess/app.py:313-363 | every pass of the inner loop keeps the invariant of the pass |
| RoundLaws.PlayHandsShape | countess/app.py:304-365 | the whole pass keeps the invariant of the pass |
| RoundLaws.RoundHands | countess/app.py:301-365 | a completed round settles at most max_splits + 1 hands; a doubled hand holds exactly 3 cards; an appended split-aces hand holds exactly 2; every card past the second was drawn below 21; every hand ended by doubling, reaching 21, standing or being frozen; the payload lists the hands' cards |
| RoundLaws.RoundAccountsForCards | countess/app.py:286-368 | every card dealt in a completed round ends in exactly one player hand or in the dealer's hand |
| RoundLaws.RoundTraceComplete | countess/app.py:278-386 | the trace names every dealt card in dealing order, the hole card at its place; it begins with SHUFFLE exactly when the shoe was reshuffled, and ends with the settlement record |
| RoundLaws.DrawnDealTrace | countess/app.py:296-299 | the four deal records name the first four cards in order, the face-down one being the hole card |
| Engine.BlackjackEnv.constructor | countess/app.py:233-236 | a table with a new, shuffled shoe of `rules.decks` decks, cursor at 0 |
| Engine.BlackjackEnv.DealerPlay | countess/app.py:238-256 | the dealer loop returns exactly `DealerRun`, with the final total, and leaves the cursor after the dealer's last card, or at the end of the shoe when it runs dry |
| Engine.BlackjackEnv.Draw | countess/app.py:101-104 | one card from the cursor, or none at the end of the shoe, with the cursor unmoved |
| Engine.BlackjackEnv.PlayOnce | countess/app.py:313-363 | one pass of the inner loop is exactly `Step`, with the cursor at the table's position |
| Engine.BlackjackEnv.PlaySplit | countess/app.py:321-343 | the split branch is exactly `Step` on a hand that resolves to a split |
| Engine.BlackjackEnv.PlayDouble | countess/app.py:346-352 | the double branch is exactly `Step` on a hand that resolves to a double |
| Engine.BlackjackEnv.PlayHit | countess/app.py:359-363 | the hit branch is exactly `Step` on a hand that resolves to a hit |
| Engine.BlackjackEnv.PlayerPass | countess/app.py:304-365 | the outer loop over the growing hand list returns exactly `PlayHands` from the deal's table |
| Engine.BlackjackEnv.PlayEntered | countess/app.py:313-363 | the inner loop leaves the pass's result unchanged and ends having drawn a card or moved on |
| Engine.BlackjackEnv.SettleHands | countess/app.py:370-376 | the settlement loop returns exactly `SettleAll` |
| Engine.BlackjackEnv.PlayRoundVerbose | countess/app.py:277-284 | a round reshuffles exactly when the shoe is past its penetration, then is exactly `PlayRound` from the cursor, or from 0 on the reshuffled shoe |
| Engine.BlackjackEnv.PlayDealt | countess/app.py:286-368 | deal, pass and finish are exactly `PlayRound` from the cursor |
| Engine.BlackjackEnv.RevealAndSettle | countess/app.py:367-403 | reveal, dealer, settlement and label are exactly `FinishRound` |
| Economy.StepCredits | countess/app.py:418-427 | the top-up fires exactly when the credits after burn and tax are at or below the refill threshold, and adds exactly the refill amount; without it the credits end above the threshold |
| Economy.StepOutcome | countess/app.py:418-432 | a surviving step leaves credits above the death threshold and reports whether it refilled; it fails exactly when the final credits are at or below that threshold |
| Economy.CreditManager.constructor | countess/app.py:414-416 | the counter starts at the initial credits |
| Economy.CreditManager.Step | countess/app.py:418-432 | burn, tax on a positive profit, refill at or below the threshold, then the death check; the counter keeps its new value even when the step fails |
| Economy.LossesAreNotCharged | countess/app.py:419-422 | a non-positive profit adds nothing: without a refill the step costs exactly the burn |
| Economy.RefillOnlyWhenLow | countess/app.py:424-427 | without a refill the counter ends above the refill threshold; a refill ends at most threshold plus refill amount |
| Economy.WinningPaysIn | countess/app.py:421-422 | with a non-negative tax rate, a winning hand leaves no fewer credits than one without profit |
| Economy.DefaultIsSustainable | countess/app.py:45-52 | the default economy is sustainable and starts alive |
| Economy.SustainableStepSurvives | countess/app.py:418-432 | in a sustainable economy, a step from live credits never ends the experiment |
| Economy.SustainableRunSurvives | countess/app.py:418-432 | in a sustainable economy, no run of hands ever ends the experiment, whatever the profits |
| Economy.DefaultRefillScenario | countess/app.py:418-432 | with the defaults: 5.00 and a push give 24.9995 with a refill; 5.001 and a loss give 5.0005 without one |
| Economy.UnsustainableDies | countess/app.py:429-430 | an economy whose refill does not cover the burn can end the experiment |
| Session.Peak | countess/app.py:1022 | the peak is at least every bankroll so far and equal to one of them |
| Session.Drawdown | countess/app.py:1022-1024 | the recorded drawdown is never negative, never drops from one round to the next, and is at least the current gap below the peak |
| Session.DrawdownBounds | countess/app.py:1022-1024 | no fall from a bankroll to a later one exceeds the recorded maximum drawdown |
| Session.DrawdownAttained | countess/app.py:1022-1024 | some bankroll falls to a later one by exactly the recorded maximum drawdown |
| Session.DrawdownIsLargestFall | countess/app.py:1022-1024 | the recorded maximum drawdown is the largest fall from any bankroll to any later one |
| Session.TalliesCoverRounds | countess/app.py:1026-1033 | the four tallies add up to the number of rounds |
| Session.Stats.constructor | countess/app.py:974-982 | the statistics start at the initial bankroll, with no drawdown and no rounds |
| Session.Stats.UpdateDrawdownAndCounters | countess/app.py:1021-1033 | the peak rises to the bankroll, the drawdown keeps its largest value, and exactly the round's tally goes up by one |
| Session.Stats.RecordRound | countess/app.py:1069-1072 | after adding the profit and updating, peak, drawdown and tallies equal their definitions over the whole history |
| Session.DrawdownScenario | countess/app.py:1022-1024 | 500, 510, 490, 505 record a peak of 510 and a drawdown of 20 |
| Scenarios.NaturalRound | countess/app.py:258-265 | ace and king against 9 and 9: one hand, BJ, paid 1.5 on a bet of 1, dealer on 18 |
| Scenarios.SettleLosingHands | countess/app.py:266-274 | a three-card 21 loses its bet to a dealer natural, and 18 loses its bet to a dealer 20 |
| Scenarios.HardSeventeenRound | countess/app.py:238-256 | ten and seven against ten and seven: the player stands, the intended dealer rule stands on hard 17, and the round pushes; the loop as written makes no progress on that dealer hand |
| Scenarios.FirstSplitAceHandPlaysOn | countess/app.py:308-343 | after splitting aces, the appended hand stays at two cards while the first takes a hit on soft 17 |

## Left out

- The Streamlit presentation is not part of this model: CSS, HTML, terminal and table rendering, and `main`. It is UI only.
- The fake network statistics (`evolve_fake_net`) are left out. They are random display jitter.
- JSONL logging, `term_log` and `microhud_text` are left out. They are file I/O, wall-clock time and string formatting.
- Trace playback (`start_playback`, `apply_trace_step`) is left out. It replays the trace for display and reads back `"hand_N"` strings.
- Only part of `init_state` and `compute_one_hand` is modelled: the initial statistics (`Session.Stats.constructor`), and the bankroll update followed by the counter update (`Session.Stats.RecordRound`). The rest is glue and is left out: the `net_profit` and hand counters, the call into the credit step (modelled on its own as `Economy.CreditManager.Step`), the "bankroll at or below 0" early return and the status string.
- `card_str` and the face-down glyph are left out. They are formatting; the trace carries `Card` values and `FaceDown` instead.
- The numpy random generator and seeding are left out. The shuffle is driven by the `pick` parameter.
- Shoes.Shoe.Shuffle: promises only a permutation of the cards, not numpy's particular permutation.
- IEEE floating point is left out: money is exact `real`. The `float(...)` and `int(dealer_total)` conversions are identities here.
- `Rules.double_after_split` and `Rules.allow_resplit_aces` are carried in `Rules` but read by nothing, as in the source.
- `Hand.add` is not a separate member. It is the appended card in `Rounds.Step` and the engine's methods.
- Session.Stats.UpdateDrawdownAndCounters: takes the outcome as the four-valued `Outcome`, so the source's silent ignoring of an unknown label string cannot arise.
- Rounds.PlayRound: its own contract states only the cursor bounds. What a round computes is stated by the `RoundLaws` lemmas, and the engine's methods are proved equal to it.
- Rounds.FinishRound: its own contract states only the cursor bounds, for the same reason.
- Rounds.DealerRule: it is the intended rule, not the loop as written. The loop as written is `Rounds.DealerRuleAsWritten`, which would keep a round at hard 17 from ever finishing.

## Findings

| source | as written | input that shows it | evidently intended | confidence | as-written member | corrected member |
|---|---|---|---|---|---|---|
| countess/app.py:238-256 | `_dealer_play` has no branch for a hard 17 (total 17, not soft), so its `while True` loop repeats without drawing or returning | dealer ten and seven, under S17 or H17 | a hard 17 stands, under either soft-17 rule | high; not executed | Rounds.HardSeventeenHangs | Rounds.DealerStepCases |
