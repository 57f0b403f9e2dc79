# Petropolis game economy, modelled in Dafny

Petropolis is a collectible-pet game played through a chat bot. Players buy
eggs of three tiers, hatch them into pets of six rarity tiers, collect hourly
income from their pets, claim a daily reward with a streak bonus, merge two
pets of one type into a stronger one, train a pet's stats, and trade pets
with other players through an offer/response protocol.

This project models the game's economy engine and its trade table, and
proves properties of them. Chat I/O, storage and text rendering are not
modelled.

What the model looks like:

- **Values.** Players and pets are datatypes (`Records.Player`, `Records.Pet`).
  A handler reads a fresh copy of the player's stored record, changes it
  field by field and stores it back. So each handler is a method that takes
  the stored record and returns the record it stores. On a rejection that is
  the same record.
- **Imperative shape.** The bodies follow the bot's step-by-step updates.
  Where the bot loops (collecting from every pet, updating each stat of a
  merged pet), the model loops too. Each loop is proved against a
  specification function (`Accrual.TotalIncome`, `Accrual.CollectedPets`,
  `Progression.IsMergeOf`).
- **Trade table.** The process-wide table of open trades is a class,
  `Trading.TradeTable`, with a `map` field that its methods update.
- **Inputs instead of ambient calls.** Randomness and the clock are
  parameters. The uniform sample `random.random()` becomes its floor in
  hundredths, `roll` in [0, 100). Every chance is an integer number of
  hundredths (1, 5, 15, 35, 65 cumulative; boosts 0, 30, 45). For a
  threshold `T` in hundredths, `sample < T/100` holds exactly when
  `floor(100·sample) < T`, so this is exact. Each `randint(a, b)` becomes an
  integer parameter in [a, b]. Time is whole seconds.
- **Python truthiness.** A `last_daily` of `None` or `0` counts as no claim
  (`Accrual.HasClaimed`). A `last_collected` of `None` or any non-positive
  value counts as never collected (`Accrual.EverCollected`).

Files: `catalog.dfy` (constants), `records.dfy` (records, Python list
helpers), `generation.dfy`, `shop.dfy`, `accrual.dfy`, `progression.dfy`
(merge), `training.dfy`, `trading.dfy`.

Behaviours of the code that its comments and messages do not suggest; the
model follows the code:

- Merging checks the cost but never deducts it (bot.py:424 against
  bot.py:433-446). `Progression.MergePets` leaves the coins unchanged.
- A merged pet earns `1 + multiplier/2` per hour (bot.py:499). A hatched pet
  of the same tier earns `20 + multiplier/2` (bot.py:188).
- The promotion chance `min(0.30·(l1+l2), 0.60)` is always 0.60, because
  levels are at least 1 (`Progression.RarityUpChanceAtCap`). The bot's
  comment says 50%.
- The daily cooldown message reports `floor(remaining/1h) + 1` hours, not
  the ceiling. It lies in [1, 20] once any time has passed, and is 21 when
  no time has passed.
- Training reads the pet's level for the cost before it checks the index.
  Python's negative indexing therefore prices a negative index by a pet
  counted from the end, and then rejects it. An index beyond both ends
  raises, and nothing is stored.
- Settling a trade does not re-check which pet the stored offer position
  names. Whatever pet sits there at settlement moves. A position beyond
  either list raises before anything is stored, and the open trade stays.

## Model

| member | source | states |
|---|---|---|
| Catalog.Rank | bot.py:34 | each tier's position in the ordered tier list |
| Catalog.NextRarity | bot.py:487-489 | promotion moves exactly one position up the tier list |
| Catalog.TailMassValues | bot.py:35-42 | the cumulative chances from the rarest tier are 1, 5, 15, 35, 65 and 100 hundredths, so the table sums to one |
| Catalog.TailMassAntitone | bot.py:156-165 | a rarer tier has no more cumulative mass than a commoner one |
| Catalog.MultiplierGrowth | bot.py:43-50 | each tier's stat multiplier is at least twice the one below |
| Records.NewPlayer | bot.py:84-91 | a first-time player has 450 coins, no eggs, no pets, no claim, streak 0, and a valid record |
| Records.ParseStat | bot.py:523 | exactly the four names attack, defense, health, speed are accepted |
| Records.PyLookup | bot.py:527 | Python indexing: negative positions count from the end; beyond both ends there is no element |
| Records.RemoveAt | bot.py:438-442 | `pop(k)` keeps every other element, in order, and removes one copy of the k-th |
| Generation.DetermineRarity | bot.py:154-166 | the result is the one tier whose cumulative band holds `roll - boost` |
| Generation.AtLeastAsRare | bot.py:154-166 | the result is tier r or rarer iff `roll - boost` is below r's cumulative mass |
| Generation.BoostNeverCommoner | bot.py:155 | a larger boost never yields a commoner tier |
| Generation.SuperiorEggNeverCommon | bot.py:59 | with the 0.45 boost the result is never the common tier |
| Generation.RarityTailCount | bot.py:154-166 | of the 100 equally likely rolls, exactly min(100, TailMass(r) + boost) give r or rarer; with no boost this is the configured table |
| Generation.RollsBelowSize | bot.py:155 | there are n rolls below n (the counting fact behind the tail count) |
| Generation.GenerateRandomPet | bot.py:168-190 | level 1, xp 0 of 100, never collected, rate 20 + multiplier/2, name "rarity type", the drawn or given type, the classified tier, each stat in its jitter band around the base |
| Generation.GeneratedStatBounds | bot.py:173-186 | each stat lies within the bands for base magnitudes 5 to 12 times the multiplier; health within 10m+5 and 24m+7 |
| Shop.BuyEgg | bot.py:220-231 | bought iff coins cover the price; then that tier's count rises by one and coins fall by exactly the price, staying non-negative; otherwise nothing changes |
| Shop.Hatch | bot.py:261-271 | refused with no change unless the tier's count is positive; otherwise the count falls by one and exactly one pet, generated with the tier's boost, is appended |
| Accrual.Daily | bot.py:309-334 | within 20 h of a claim it is refused with no change, and the hours left satisfy (h-1)·1h ≤ remaining < h·1h; otherwise the streak continues under 48 h and restarts at 1 otherwise, coins rise by 120 + min(10·streak, 3000) and the claim time becomes now |
| Accrual.Income | bot.py:355-363 | a never-collected pet pays exactly its rate; under an hour it pays nothing; otherwise floor(rate·min(elapsed, 24 h)/1 h), never more than 24 times the rate, and exactly that after 24 h |
| Accrual.AfterCollect | bot.py:362-365 | a pet that pays is stamped with now; any other pet is untouched |
| Accrual.CollectedPets | bot.py:354-365 | every pet of the list goes through one collection step, in place |
| Accrual.SourceIncome | bot.py:355-363 | the loop body's computation in seconds pays a pet exactly when it is due, and then exactly its `Income` |
| Accrual.PayAll | bot.py:354-365 | the loop's total is exactly the sum of every pet's income, and every pet ends as one collection step leaves it |
| Accrual.Collect | bot.py:347-369 | refused without pets; coins rise by exactly the total every pet pays and due pets are stamped; a zero total stores nothing |
| Accrual.CollectCapped | bot.py:360 | a collection never pays more than 24 hours of the combined rate |
| Accrual.CollectTwiceEarnsNothing | bot.py:354-369 | a second collection at the same time pays nothing |
| Accrual.CollectTwiceChangesNothing | bot.py:362-365 | a second collection at the same time stamps no pet again |
| Progression.InheritStats | bot.py:478-481 | after the first stat loop each stat is the base's plus half the donor's, rounded down |
| Progression.RescaleStats | bot.py:493-495 | after the second stat loop every stat is scaled by the ratio of the two tiers' multipliers, rounded down |
| Progression.MergePetStats | bot.py:462-504 | the merged pet is exactly the merge: base chosen by level (first on a tie), level up by one, each stat base + floor(donor/2), promotion by one tier iff below the top tier and the draw is under the chance, with every stat times the multiplier ratio, rate 1 + multiplier/2, clock cleared |
| Progression.MergeNeverWeakens | bot.py:476-495 | a merged pet has every stat at least the base's, a level above both inputs and a tier at most one above the base's |
| Progression.RescaleGrows | bot.py:493-495 | promotion at least doubles each stat, because the next tier's multiplier is at least twice the current one |
| Progression.RarityUpChanceAtCap | bot.py:484-485 | with levels of at least 1 the promotion chance is always its cap of 60 hundredths |
| Progression.WithoutTwo | bot.py:437-442 | removing two distinct positions higher-first shrinks the list by two and removes exactly those two pets |
| Progression.WithoutTwoSubset | bot.py:437-442 | every pet left after the two removals was in the list before |
| Progression.WithoutTwoKeepsOrder | bot.py:437-442 | either order of the two positions gives the same result: the pets before the lower position, then those between the two, then those after the higher one |
| Progression.PopLowerFirstMisses | bot.py:437-442 | popping the lower position first would remove the pet after the intended higher one, which is why the bot pops higher first |
| Progression.MergeKeepsValid | bot.py:437-445 | a valid record stays valid when two of its pets make way for a valid merged one |
| Progression.MergePets | bot.py:409-446 | rejections in order (same slot, out of range, coins below 140 + 20·(l1+l2), differing types) change nothing; on success the two pets leave, the rest keep order, the merged pet is last, the list shrinks by one and the coins are unchanged |
| Training.TrainPet | bot.py:519-553 | rejections in order (unknown stat, raising index, coins below 80 + 10·level, negative index) change nothing; on success only the chosen stat rises, by 1 + multiplier/2 (doubled for health), and coins fall by the cost |
| Trading.SwapPets | bot.py:682-686 | each side gives exactly one pet and gets the other's, appended last; both lengths are kept; the combined multiset of pets is kept |
| Trading.SwapBackRestoresContents | bot.py:682-686 | swapping the two moved pets back restores each side's contents |
| Trading.TradeTable.constructor | bot.py:23 | the table starts empty |
| Trading.TradeTable.Offer | bot.py:610-618 | accepted iff the position names one of the proposer's pets; then the proposer's entry is overwritten with a waiting trade; otherwise nothing changes |
| Trading.TradeTable.Respond | bot.py:667-690 | refused with no change without an entry or when the caller is not the named partner; a position beyond either list changes nothing; otherwise the pet currently at the stored position and the responder's chosen pet swap owners and the entry is deleted |
| Trading.TradeTable.Cancel | bot.py:704 | the issuer's entry is removed and every other entry is kept |

## Left out

- Chat transport: replies, message edits, notifications to the partner, inline keyboards, and splitting callback data into an egg tier, partner id or index. The `pets`, `profile`, `balance`, `start`, `help` and `myid` views, the fallback handler, the `user_states` and `pending_merges` prompt flags, and handler registration are all UI.
- Storage: the MongoDB lookup and upsert, the JSON file helpers, the unused `initialize_user`, the keep-alive server and logging. Records are values handed in and out. `get_user`'s default record is `Records.NewPlayer`.
- The prompts before a callback: `trade_command`'s self-trade and no-pets checks, and `respond_command`'s no-pets check (bot.py:644). The callbacks do not repeat these. `respond_callback` does repeat the open-offer check (bot.py:667), which `TradeTable.Respond` models as `NoOffer`. If an offer ever named its own proposer as partner, the two separately loaded copies of that record would be saved one after the other, and the responder's copy would win. Which record survives depends on that storage order, which is outside this model.
- The mismatch between integer user ids and string user ids across handlers. User ids are opaque strings here.
- Concurrency: handlers interleaving and racing on the trade table. The bot has no locking.
- Floating point: the float sums of chances, `* 0.5`, the multiplier ratio and `time.time()`. The model uses exact integer arithmetic in hundredths and whole seconds. It can differ from the float code in three ways. Timestamps are whole seconds, so a decision at the 1 h, 20 h, 24 h or 48 h boundary that falls within one second of the cut-off may come out differently. For example, the cooldown message reports 21 hours at zero elapsed seconds, where the bot reports 20 after any sub-second wait. A rarity or promotion sample within one rounding error of a threshold may be classified differently. Per-pet income can be one coin less than the exact floor when rate·elapsed/3600 is a whole number: the float `rate * (elapsed/3600)` can land just below it before `int()` truncates. `Accrual.Income` pays the exact floor.
- Argument counting and `int()` parsing, with their ValueError branches. Indices reach the model as integers already, 0-based as the bot computes them. Trade offer and response positions are non-negative, as the buttons produce them. The stat name reaches the model already lower-cased, because `str.lower()` (Unicode case mapping) is not modelled.
- The pet id drawn as `randint(10000, 99999)`: a merge takes it as a parameter, and hatching takes it as part of the draws. Ids are not checked for uniqueness, as in the bot. The merge's id and promotion sample are required to lie in their drawn ranges (`Progression.MergeDrawsInRange`).
- The aliasing of `base_pet.copy()` (bot.py:472). It is a shallow copy, so the merge also rewrites the base pet's own stats dictionary. That pet is popped from the list right away, so nothing observable depends on it. The model builds the merged pet as a new value.
- The missing `await` on the merge cost message (bot.py:425): no message is sent, but the merge is still refused with no change. The model keeps the refusal.
