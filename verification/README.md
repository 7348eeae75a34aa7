# Tephra core, modelled in Dafny

Tephra is a dashboard for the Babylon Genesis chain (a Cosmos SDK chain with Bitcoin staking).
Its server reads the chain through a node's REST (LCD) API and turns the answers into list views,
analytics, address risk scores and address labels; it keeps its own labels and watched addresses
in a SQLite or Turso (libSQL) database; and a small browser store tracks who is signed in.

This project models the logic of that core that decides what is returned and what is stored:

- the node client (`server/utils/babylon.ts`): a 10-second response cache kept in a map, the
  recent-block window, the capped transaction window, the Babylon reads whose failures are caught, the
  network statistics and the two text helpers (modules `NodeApi`, `NodeCache`, `Babylon`,
  `Format`);
- transaction classification and the analytics overview (`Classify`, `TransactionsView`,
  `Overview`);
- the address risk score (`Risk`);
- the label store: the upsert, the batch labelling jobs, and the label POST and GET handlers
  (`Store`, `Labeling`, `LabelsPost`, `LabelsGet`);
- the derived views: finality providers, compliance entities, BTC staking, blocks and the
  watched-address portfolio (`Providers`, `Entities`, `Staking`, `BlocksView`, `Portfolio`);
- the database setup: backend choice, SQLite path, single initialisation, the `getSqlite` guard
  and the Turso schema splitter (`DbSetup`);
- server-side authentication and the browser's auth store (`Auth`, `AuthStore`).

Shared helpers: `Wrappers` (Option and Result), `Numeric` (JavaScript integers and `parseInt`),
`Text` (string operations), `Seqs` (filters, stable sort, counts), `Query` (the `?limit=`
clamp) and `Http` (handler errors).

The node, the database and the clock enter as parameters. `respond(path)` is what the node
answers to a request for `path`; a store flag or oracle (`up`, `storeUp(k)`) says whether the
store call succeeds; `now` is the clock reading in milliseconds. Amounts are integer micro-units
(ubbn), and a JavaScript number parsed from text is `Num`: an integer or NaN. Where the source
mutates an object in place the model is a class: the node client's cache (`Babylon.Client`),
the in-memory tables (`Store.Database`), the libSQL client and the database singleton
(`DbSetup.LibsqlClient`, `DbSetup.Database`) and the browser store (`AuthStore.Store`). Each
method of these classes is specified by a function on the old state, and the properties are
proved about those functions.

## Model

| member | source | states |
|---|---|---|
| NodeApi.BlockPathInjective | server/utils/babylon.ts:223-225 | different heights are requested under different paths, so cached blocks of two heights never share an entry |
| NodeApi.DelegationsPath | server/utils/babylon.ts:321-326 | the unfiltered delegations path exactly when the status is empty; otherwise the base path extended by the status filter |
| NodeCache.Transport | server/utils/babylon.ts:181-204 | a request yields its body exactly for a 2xx response; a non-2xx status throws with that status, and a failed request throws |
| NodeCache.Served | server/utils/babylon.ts:169-205 | `fetch` answers from the cache exactly when `useCache` is set, the path is stored and its entry is less than 10000 ms old; otherwise it answers what the request yields |
| NodeCache.CacheAfter | server/utils/babylon.ts:170-198 | the cache is unchanged when `useCache` is off or the request fails; after a miss that succeeds, the path maps to the body and the time read before the request; a stored path is never removed |
| NodeCache.CacheAfterFrame | server/utils/babylon.ts:196-198 | a fetch changes no other path's entry |
| NodeCache.ServedSameEntry | server/utils/babylon.ts:174-179 | what a fetch answers depends only on the cache entry of its own path |
| NodeCache.RefetchWithinTtl | server/utils/babylon.ts:174-198 | after a successful cached fetch at t0, every fetch of the same path before t0 + 10000 returns that body, whatever the node would answer then |
| NodeCache.RefetchAfterTtl | server/utils/babylon.ts:174-198 | from t0 + 10000 on, the same fetch asks the node again; the entry is replaced on success and kept on failure |
| Babylon.WindowSize | server/utils/babylon.ts:234 | the loop requests min(count - 1, latest - 1) heights, or none when that is negative, and every requested height is at least 1 |
| Babylon.FetchRange | server/utils/babylon.ts:234-243 | of n requested heights at most n bodies arrive; every 2xx body is kept, whatever its shape, and failed heights are absent |
| Babylon.FetchRangeFrame | server/utils/babylon.ts:234-236 | requesting the heights below the latest changes the cache entries of those block paths only |
| Babylon.FetchRangeReadsSnapshot | server/utils/babylon.ts:234-243 | the heights are distinct, so the requests started together under `Promise.allSettled` see the cache as it was before any of them, as the sequential reading does |
| Babylon.RecentBlocksShape | server/utils/babylon.ts:227-246 | `getRecentBlocks` fails exactly when the latest-block read fails; the latest block comes first; a NaN height gives only that block; otherwise every 2xx body that arrived for heights latest - 1, latest - 2, … follows in that order, block or not, failed heights absent, neither sorted nor deduplicated |
| Babylon.WindowKeepsNonBlock | server/utils/babylon.ts:239-243 | a 2xx body of another shape answered for the height below the latest stays in the window, which then does not read as blocks |
| Babylon.AsBlocks | server/api/blockchain/blocks.get.ts:11-19 | the handlers read the window as blocks exactly when every entry is a block, entry by entry; a failed window keeps its error and an entry of another shape gives `Malformed` (reading its header throws) |
| Babylon.RecentBlocksUnfold | server/utils/babylon.ts:227-246 | with a latest block of height h, the window is that block followed by every body the loop collected, and the cache is the loop's |
| Babylon.RecentBlocksBound | server/utils/babylon.ts:234 | when the latest block is read the window succeeds and holds at most max(1, min(count, latestHeight)) entries |
| Babylon.TxWindowIsPrefix | server/utils/babylon.ts:265-281 | stopping once `limit` transactions are collected loses nothing: the first `limit` collected are the first `limit` of all the blocks' transactions; an entry that is not a block is skipped without a request, as the loop's `try` does |
| Babylon.TxWindowFromStart | server/utils/babylon.ts:263-281 | the same from an empty collection |
| Babylon.RecentTransactions | server/utils/babylon.ts:260-282 | `getRecentTransactions` fails exactly when the 5-block window fails; otherwise it returns at most `limit` transactions, exactly the first `limit` of the blocks' transactions in block order and then node order, a block whose fetch fails and a window entry that is not a block contributing none |
| Babylon.TxCount | server/utils/babylon.ts:357 | the number of the block's transactions, or 0 when the list is absent |
| Babylon.StatsOf | server/utils/babylon.ts:344-365 | `getNetworkStats` succeeds exactly when the latest-block read gives a block and the validator and pool reads each either failed or have their expected shape; a failure carries the latest-block read's error, or a shape error when a 2xx body of another shape is read; the latest-block summary and chain id are copied from the block; the node version is the node's non-empty version, else 'unknown'; the validator count and bonded tokens are those of the successful reads, 0 and '0' for failed ones |
| Babylon.Client.constructor | server/utils/babylon.ts:152 | the client starts with an empty cache |
| Babylon.Client.Fetch | server/utils/babylon.ts:169-205 | returns what `NodeCache.Served` says and leaves the cache as `NodeCache.CacheAfter` says |
| Babylon.Client.GetRecentBlocks | server/utils/babylon.ts:227-246 | the result and the new cache are those of `Babylon.RecentBlocks` on the old cache |
| Babylon.Client.FetchBelow | server/utils/babylon.ts:234-243 | the loop's bodies and new cache are those of `Babylon.FetchRange` |
| Babylon.Client.GetRecentTransactions | server/utils/babylon.ts:260-282 | the result and the new cache are those of `Babylon.RecentTransactions` on the old cache |
| Babylon.Client.GetFinalityProviders | server/utils/babylon.ts:312-319 | the body of the cached read of the provider path as it came, whatever its shape; an empty provider list only when that read fails; the cache is updated as `Babylon.Client.Fetch` does |
| Babylon.Client.GetBTCDelegations | server/utils/babylon.ts:321-330 | the body of the cached read of `DelegationsPath(status)` as it came; an empty delegation list only when that read fails |
| Babylon.Client.GetCurrentEpoch | server/utils/babylon.ts:332-338 | the body of the cached read of the epoch path as it came; the all-'0' epoch only when that read fails |
| Babylon.Client.GetValidators | server/utils/babylon.ts:300-302 | the cached read of the bonded-validators path |
| Babylon.Client.GetNetworkStats | server/utils/babylon.ts:344-365 | the result is `Babylon.StatsOf` of the latest block read past the cache and of the node-info, validator and pool reads, each served from the cache as it was before the call; the new cache is the old one after those three cached fetches, in that order, the latest-block read leaving it alone |
| Babylon.BodyOr | server/utils/babylon.ts:313-318 | a caught read is the body itself on success and the fallback exactly when the read threw |
| Babylon.CaughtProvidersRead | server/utils/labeling.ts:98-104 | the provider list the labeling job reads from a caught read is the one it would read from the raw fetch, and it is non-empty only for a successful provider-list body |
| Format.SliceFrom | server/utils/babylon.ts:401 | `slice(start)`: a suffix of the input that drops the first `start` elements for a non-negative start and keeps the last `-start` (at most all) for a negative one |
| Format.ShortenAddress | server/utils/babylon.ts:398-402 | '' for '', the input itself when it has at most 2·chars + 3 characters, and otherwise its first `chars` characters, '...', and its last `chars`, exactly 2·chars + 3 long |
| Format.ShortenAddressKeepsEnds | server/utils/babylon.ts:398-402 | with a positive width the result is never longer than the input, and a shortened result keeps both ends around '...' |
| Format.TimeAgo | server/utils/babylon.ts:409-423 | the elapsed time in whole days when at least a day, else whole hours when at least an hour, else whole minutes when at least a minute, else in seconds, each rounded down |
| Format.NestedFloors | server/utils/babylon.ts:414-417 | dividing and rounding down step by step (seconds, minutes, hours, days) equals one floor division by the unit's length in milliseconds |
| Query.ClampLimit | server/api/blockchain/transactions.get.ts:5 | the smaller of the cap and the parsed parameter (the default when it is NaN or 0): never above the cap |
| Query.ClampLimitRange | server/api/blockchain/transactions.get.ts:5 | an absent, zero or unparsable parameter gives the default, a positive one is capped, and the limit drops below 1 exactly when the parameter is a negative number |
| Classify.FallbackType | server/api/blockchain/transactions.get.ts:50-51 | the text after the last '.' of the type URL with its first 'Msg' removed, or 'Unknown' when that is empty; never empty |
| Classify.TxTypeOf | server/api/blockchain/transactions.get.ts:23-52 | the list's type of a first message is never empty |
| Classify.OverviewTypeOf | server/api/analytics/overview.get.ts:20-33 | the histogram's type of a first message is never empty |
| Classify.TxTypePriority | server/api/blockchain/transactions.get.ts:23-52 | the substring tests run in priority order: MsgSend gives Transfer whatever else the URL contains; MsgDelegate without MsgSend gives Delegate; MsgUndelegate without those two gives Undelegate; MsgCreateBTCDelegation without those three gives BTC Stake; MsgVote without those four gives Vote; a URL naming any listed message gets a listed name; a URL naming none falls back to its last segment |
| Classify.ClassifiersAgree | server/api/analytics/overview.get.ts:23-33 | the histogram's classifier agrees with the list's except on URLs naming MsgAddFinalitySig or MsgCommitPubRandList, which it calls 'Finality Sig' or 'Pub Rand' after the Vote test while the list falls back to the last segment |
| TransactionsView.ReadFirstMessage | server/api/blockchain/transactions.get.ts:13-53 | a transaction without messages is 'Unknown' with no parties, no amount and denomination 'ubbn'; otherwise the type is the classification of its first message |
| TransactionsView.FirstMessageSources | server/api/blockchain/transactions.get.ts:23-47 | only the first message is read: a denomination other than 'ubbn' comes from a transfer's first coin or a delegation's coin (an undelegation never sets one), an amount only from a transfer, delegation or undelegation, a transfer copies sender, recipient and first coin, and an unrecognised message has no parties and no amount |
| TransactionsView.FormatTx | server/api/blockchain/transactions.get.ts:55-70 | the hash is copied and the height parsed; the type, full parties and denomination are those read off the first message (`TransactionsView.ReadFirstMessage`), the type never empty; the amount cell is '-' exactly when no amount was read, and otherwise that amount with its denomination; from/to are the 8-character shortenings of the full parties; 'success' exactly when `code === 0`; with a response the time is its timestamp and the gas fields its values or '0', without one the gas fields are '0' and the time empty; no time means no time-ago text |
| TransactionsView.FormatTxs | server/api/blockchain/transactions.get.ts:11-71 | exactly one row per fetched transaction, in the same order |
| TransactionsView.TransactionsResponse | server/api/blockchain/transactions.get.ts:7-106 | a mock list exactly when the transaction read fails, of `limit` rows (none for a negative limit); otherwise exactly the `TransactionsView.FormatTx` rows of the fetched transactions, one per transaction in order, each with its hash |
| TransactionsView.TransactionsRowsDescribe | server/api/blockchain/transactions.get.ts:11-70 | each live row describes its own transaction: 'Unknown' with no parties and a dash without messages, otherwise the classifier's type of the first message; for a bank send, type 'Transfer', the first message's sender and recipient (the sender shortened in `from`) and its first coin as the amount |
| TransactionsView.TransactionsAtMostHundred | server/api/blockchain/transactions.get.ts:5-9 | whatever the query says the handler answers at most 100 rows, live or mock, because the limit never exceeds 100 |
| Overview.TypesOf | server/api/analytics/overview.get.ts:17-36 | only transactions with a message are counted, each once by its first message, so there are at most as many types as transactions |
| Overview.Distinct | server/api/analytics/overview.get.ts:15-41 | the dictionary's keys: the same elements as the counted types, each once, in order of first appearance |
| Overview.TallyCounts | server/api/analytics/overview.get.ts:35 | one increment keeps the dictionary equal to the counts and key order of everything counted so far |
| Overview.TallyAllCounted | server/api/analytics/overview.get.ts:17-37 | counting a list from an empty dictionary gives its counts in first-appearance key order |
| Overview.TallyAllStep | server/api/analytics/overview.get.ts:35 | counting one more type is one more increment |
| Overview.CountedEntries | server/api/analytics/overview.get.ts:41 | the dictionary's entries are the histogram of what was counted |
| Overview.TypesOfStep | server/api/analytics/overview.get.ts:18-36 | a transaction without messages adds nothing; one with messages adds its first message's type |
| Overview.CountTxTypes | server/api/analytics/overview.get.ts:15-37 | the counting loop ends with one key per distinct type in first-appearance order, each mapped to its number of occurrences, and its entries are the histogram |
| Overview.SumOccurrencesDistinct | server/api/analytics/overview.get.ts:40 | every counted transaction is counted under exactly one key |
| Overview.TotalCountOver | server/api/analytics/overview.get.ts:40 | the total of the histogram's counts is the sum of the keys' occurrences |
| Overview.HistogramCounts | server/api/analytics/overview.get.ts:35-40 | the counts add up to the number of counted transactions (types cut later by the top six included), each count is between 1 and that number, and the keys are distinct |
| Overview.Percent | server/api/analytics/overview.get.ts:45 | `Math.round(count / total * 100)` computed exactly: the nearest integer, halves up, and within 0..100 for a count of at most the total |
| Overview.RoundedShareBounds | server/api/analytics/overview.get.ts:45 | a rounded share of at most the whole lies in 0..100 |
| Overview.WithPercents | server/api/analytics/overview.get.ts:41-46 | one row per histogram entry, same type and count, with its percentage in 0..100 |
| Overview.TopTypes | server/api/analytics/overview.get.ts:47-48 | exactly min(6, n) rows for n input rows, sorted by count descending, drawn from the input as a sub-multiset |
| Overview.TopTypesLargest | server/api/analytics/overview.get.ts:47-48 | the rows kept and the rows dropped together make up the input, and no dropped row has a larger count than a kept one |
| Overview.TopTypesLeftOut | server/api/analytics/overview.get.ts:47-48 | an input row that is not kept has a count no larger than every kept row's |
| Overview.TopTypesStable | server/api/analytics/overview.get.ts:47-48 | the sort is stable: rows of equal count keep their input order |
| Overview.BlockTimes | server/api/analytics/overview.get.ts:53-54 | one instant per block |
| Overview.DeltaSumTelescopes | server/api/analytics/overview.get.ts:52-55 | the sum of the consecutive differences is the first block time minus the last |
| Overview.AvgBlockTimeSpan | server/api/analytics/overview.get.ts:51-57 | with at least two blocks the mean block time is (t[0] - t[n-1]) / (n - 1) / 1000 seconds; otherwise it is 6 |
| Overview.VolumeByBlock | server/api/analytics/overview.get.ts:64-68 | at most the first ten blocks, each with its parsed height, transaction count and time |
| Overview.OverviewShape | server/api/analytics/overview.get.ts:14-85 | when the three reads succeed: not mock, the total counts each transaction with a message once and is at most the number fetched, the types are sorted by count descending and each is one of the histogram's entries, counted 1..total times with a percentage in 0..100, and at most ten volume points |
| Overview.OverviewTopSix | server/api/analytics/overview.get.ts:33-48 | when the three reads succeed, exactly min(6, distinct types) types are shown, each with its histogram count, and a type left out has a count no larger than any shown type's |
| Overview.Overview | server/api/analytics/overview.get.ts:3-113 | the handler, counting loop included, answers `Overview.OverviewOf` of its three reads with the block window read through `Babylon.AsBlocks`: the live answer, or the fixed mock answer when any read fails or a window entry is not a block |
| Risk.BbnComparison | server/api/compliance/analyze.post.ts:83-89 | comparing the balance in BBN (micro-units / 10^6) with a whole number of BBN is comparing micro-units with that number times 10^6 |
| Risk.BalanceLevelInBbn | server/api/compliance/analyze.post.ts:81-89 | the balance level is whale from 1,000,000 BBN, high from 100,000, medium from 1,000, and low below, with the cut points 10^12, 10^11 and 10^9 ubbn |
| Risk.BalanceLevelMonotone | server/api/compliance/analyze.post.ts:86-89 | a larger balance never has a lower level |
| Risk.ActivityLevelMonotone | server/api/compliance/analyze.post.ts:95-98 | a larger sequence never has a lower activity level (high from 100, medium from 20, low from 1, else new) |
| Risk.When | server/api/compliance/analyze.post.ts:105-141 | a check pushes its one flag exactly when it fires |
| Risk.FlagsInOrder | server/api/compliance/analyze.post.ts:105-141 | the flags are pushed in the order finality provider, validator, exchange, foundation (only with labels), whale, new account |
| Risk.Clamp | server/api/compliance/analyze.post.ts:144 | the clamped score lies in 0..100 and a score already in range is kept |
| Risk.ScoreRisk | server/api/compliance/analyze.post.ts:100-144 | the score computed step by step is the clamp of 30 - 25 (provider) - 20 (validator) - 10 (labels) - 5 (exchange) - 10 (foundation) + 10 (whale) + 15 (new) + 5 (high activity), and the flags are those of `Risk.FlagsInOrder` |
| Risk.RawScoreBounds | server/api/compliance/analyze.post.ts:101-144 | the unclamped score lies in -40..55, so the clamped one is at most 55 |
| Risk.FlagsOrdered | server/api/compliance/analyze.post.ts:102-141 | at most six flags, every info flag before every warning flag, and never a danger flag |
| Risk.ActivityFlags | server/api/compliance/analyze.post.ts:136-141 | high activity adds 5 to the score and no flag; the new-account warning appears exactly for a new account |
| Risk.LevelAndColorAgree | server/api/compliance/analyze.post.ts:30-42 | `getRiskLevel` and `getRiskColor` share the 80/50/20 bands: two scores get the same level exactly when they get the same colour |
| Risk.NeverHighRisk | server/api/compliance/analyze.post.ts:37-42 | a score from the success path is never 'High Risk' |
| Risk.ProviderExample | server/api/compliance/analyze.post.ts:101-144 | a finality provider without labels, with a low balance and a new account scores 20, 'Low Risk', with the provider and new-account flags |
| Risk.Fallback | server/api/compliance/analyze.post.ts:175-206 | the fallback report has score 50, level 'Unknown', one 'Unable to fetch complete data' warning and is marked mock |
| Risk.AccountType | server/api/compliance/analyze.post.ts:158 | the last '.'-segment of the account's type URL, or 'Unknown' when there is none; never empty |
| Risk.LabelTexts | server/api/compliance/analyze.post.ts:154 | the stored labels' texts, one per label, in order |
| Risk.AccountNumber | server/api/compliance/analyze.post.ts:160 | the account number, or '0'; never empty |
| Risk.Analyze | server/api/compliance/analyze.post.ts:44-208 | a missing address is answered with 400 and nothing else is; a store failure or a malformed lookup body gives the fallback report; otherwise the report's score, level, colour, flags, labels, metrics and analysis are those of the signals read off the lookups: provider iff some provider's `addr` equals the address, validator iff it starts with 'bbnvaloper', the balance level of the first ubbn coin (or '0'), the activity level of the sequence (or '0') |
| Providers.ViewOf | server/api/babylon/finality-providers.get.ts:8-20 | a row copies the provider's BTC key, address, commission, bonded sats, website and its `active` field as the node sent it; the moniker defaults to 'Unknown'; the key is shortened to 12 characters and the address to 8 |
| Providers.Views | server/api/babylon/finality-providers.get.ts:8-20 | one row per provider, in the node's order |
| Providers.FinalityProvidersGet | server/api/babylon/finality-providers.get.ts:3-57 | a failed lookup, absorbed by the client, gives an empty real (not mock) answer; a body without the provider list gives the five mock providers, four active; otherwise the rows sorted by bonded sats descending, the total count and the number of active rows |
| Providers.MockCounts | server/api/babylon/finality-providers.get.ts:39-52 | the mock list has five providers, four of them active |
| Providers.RankingIsStableSort | server/api/babylon/finality-providers.get.ts:22-25 | the ranking is a permutation of the rows, sorted by parsed bonded sats descending, and rows with equal stakes keep the node's order |
| Providers.ActiveCountUnsorted | server/api/babylon/finality-providers.get.ts:23-32 | sorting does not change how many rows are active |
| Entities.ProviderEntity | server/api/compliance/entities.get.ts:32-42 | a provider entity is active exactly when it is not jailed and its slashed height is '0', and is 'Suspended' exactly when jailed, else 'Verified'; the name defaults to 'Unknown Provider'; the address is copied and shortened to 8 characters |
| Entities.ValidatorEntityOf | server/api/compliance/entities.get.ts:45-55 | a validator entity is active exactly when it is not jailed, and is 'Jailed' exactly when jailed, else 'Verified'; the name defaults to 'Unknown Validator' |
| Entities.EntityList | server/api/compliance/entities.get.ts:32-58 | the entities of the first ten providers followed by those of the first five validators, each in the node's order |
| Entities.EntityListShape | server/api/compliance/entities.get.ts:32-58 | at most fifteen entities, every provider entity before every validator entity, and ten provider entities whenever there are ten providers |
| Entities.KeyIndex | server/api/compliance/entities.get.ts:17-23 | the position of a category's group, or none when no group has it |
| Entities.TallyTotal | server/api/compliance/entities.get.ts:17-29 | the grouped counts add up to the number of label rows |
| Entities.TallyCounts | server/api/compliance/entities.get.ts:17-29 | each group counts exactly the labels of its category (null included), and every category in use has a group |
| Entities.TallyDistinct | server/api/compliance/entities.get.ts:17-23 | no category has two groups |
| Entities.FromEntries | server/api/compliance/entities.get.ts:73-75 | `Object.fromEntries` has a key exactly for each entry's key |
| Entities.FromEntriesLast | server/api/compliance/entities.get.ts:73-75 | under each key it keeps the value of the last entry with that key |
| Entities.Entries | server/api/compliance/entities.get.ts:74 | one entry per group: its category, or 'unknown' for null or empty, with its count |
| Entities.EntitiesGet | server/api/compliance/entities.get.ts:5-107 | a store failure or a malformed lookup body gives the mock answer; otherwise (a failed lookup counting as an empty list) the entity list, at most 15 entities, the number of active ones, a labelled total equal to the number of label rows, and the per-category counts of the label tally |
| Entities.LabelsByCategoryKeys | server/api/compliance/entities.get.ts:73-75 | `labelsByCategory` has a key for every category in use |
| Entities.LabelsByCategoryCount | server/api/compliance/entities.get.ts:61-75 | a category whose key no other group shares is reported with the number of its labels |
| Entities.UnknownKeepsLater | server/api/compliance/entities.get.ts:74 | a null category and the empty category are both keyed 'unknown', and the map keeps only the count of the later group, though `totalLabeled` counts both |
| Staking.StatusParam | server/api/babylon/staking.get.ts:5 | the status parameter, or '' when absent |
| Staking.ViewOf | server/api/babylon/staking.get.ts:14-25 | a row copies hash, staker, provider keys, raw staking value, times and state; the hash is shortened to 10 characters a side (23 in all for a longer hash) and the staker to 8 (19 in all) |
| Staking.MockStatus | server/api/babylon/staking.get.ts:49 | 'ACTIVE' exactly when i mod 3 is 0, 'UNBONDING' exactly when it is 1, otherwise 'UNBONDED' |
| Staking.MockStaking | server/api/babylon/staking.get.ts:39-63 | the mock answer has ten delegations, a total of ten, the fixed epoch, and is marked mock |
| Staking.MockStakingValues | server/api/babylon/staking.get.ts:45-49 | the i-th mock staking value is (i + 1)·10^7, strictly rising, and two mock rows share a state exactly when their positions agree mod 3 |
| Staking.StakingGet | server/api/babylon/staking.get.ts:7-65 | a failed lookup, absorbed by the client, gives an empty real answer; a body without the list gives the mock; otherwise one row per delegation in order, the total equal to their number; the epoch is the epoch body's `epoch`, absent when that body has none |
| Staking.StatusSelectsPath | server/api/babylon/staking.get.ts:5-10 | an absent and an empty status both request the unfiltered delegation list; any other status filters |
| BlocksView.Limit | server/api/blockchain/blocks.get.ts:5 | the limit never exceeds 50 and is 10 for an absent, zero or unparsable parameter |
| BlocksView.ViewOf | server/api/blockchain/blocks.get.ts:11-19 | a row parses the height, copies hash, time, proposer and chain id, counts the block's transactions (0 when absent) and gives its age at `now` |
| BlocksView.MockBlock | server/api/blockchain/blocks.get.ts:30-38 | the i-th mock block has height 1847293 - i and fewer than ten transactions |
| BlocksView.MockBlocks | server/api/blockchain/blocks.get.ts:30 | max(0, limit) mock blocks, the i-th being the i-th mock block |
| BlocksView.BlocksGet | server/api/blockchain/blocks.get.ts:7-45 | a failed block read gives the mock rows; otherwise one row per block, in the order the client returned them, not marked mock |
| BlocksView.MockBlocksShape | server/api/blockchain/blocks.get.ts:5-38 | at most 50 mock rows, none for a negative limit, with strictly falling heights |
| BlocksView.MockAgeMatches | server/api/blockchain/blocks.get.ts:33-34 | for the first ten mock rows the fixed age text is what `getTimeAgo` says of their time |
| BlocksView.BlocksHandler | server/api/blockchain/blocks.get.ts:3-46 | the handler asks the client for `Limit(param)` blocks and answers `BlocksView.BlocksGet` of the window read through `Babylon.AsBlocks` (the mock when the read fails or an entry is not a block), leaving the client's cache as `Babylon.RecentBlocks` does |
| Portfolio.Nickname | server/api/portfolio/watched.get.ts:27 | the stored nickname, or 'Wallet ' followed by the row id when it is null or empty |
| Portfolio.RawBalance | server/api/portfolio/watched.get.ts:19-43 | the first ubbn amount, or '0' when there is none, it is empty, or the lookup fails; never empty |
| Portfolio.ViewOf | server/api/portfolio/watched.get.ts:23-43 | an entry copies id, address, alert flag and creation time, with its nickname and raw balance |
| Portfolio.NewestFirst | server/api/portfolio/watched.get.ts:11-14 | the watched rows reordered, newest creation time first |
| Portfolio.TotalRawIsSum | server/api/portfolio/watched.get.ts:49-52 | the total is the integer sum of the raw balances when each parses, and NaN as soon as one does not |
| Portfolio.WatchedGet | server/api/portfolio/watched.get.ts:5-76 | a store failure gives success false with no entries and total '0'; otherwise one entry per watched row, newest first, none dropped when its balance cannot be read, the count, and the total of the raw balances |
| Portfolio.WatchedRowFor | server/api/portfolio/watched.post.ts:5-31 | the inserted row has the next id, the address, the time of the request, a null nickname when none or an empty one is given, and alerts off unless requested |
| Portfolio.WatchedPost | server/api/portfolio/watched.post.ts:3-44 | the address checks run before the store is touched; a store failure answers 500 and writes nothing; otherwise the tables and answer are those of `Portfolio.WatchAddress` |
| Portfolio.WatchRejects | server/api/portfolio/watched.post.ts:7-31 | a missing or empty address, or one starting with neither 'bbn1' nor 'bbnvaloper1', is rejected with 400 and nothing is written; otherwise exactly one watched row is appended and the other tables are unchanged |
| Portfolio.WatchWellFormed | server/api/portfolio/watched.post.ts:26-31 | the insert keeps the tables well formed (ids increasing and below the next id) |
| Portfolio.WatchTwice | server/api/portfolio/watched.post.ts:26-31 | there is no duplicate check: watching the same address twice appends two rows with different ids |
| LabelsPost.FindText | server/api/labels/index.post.ts:46 | the position of the first row carrying the label text, or none when no row does |
| LabelsPost.LabelsPost | server/api/labels/index.post.ts:4-76 | missing fields are rejected before the store is touched; a store failure answers 500 and writes nothing; otherwise the tables and answer are those of `LabelsPost.PostLabel` |
| LabelsPost.PostRejects | server/api/labels/index.post.ts:9-14 | a body is rejected with 400 exactly when its address or label is missing or empty, and then the tables are unchanged |
| LabelsPost.EnsureAddressWellFormed | server/api/labels/index.post.ts:19-37 | the address row is created only when missing, carrying label, source and confidence; existing rows and the labels are untouched and the tables stay well formed |
| LabelsPost.PostWellFormed | server/api/labels/index.post.ts:19-63 | the handler keeps the tables well formed |
| LabelsPost.PostFindsText | server/api/labels/index.post.ts:39-53 | when the address carries the label text among its first 100 labels, whatever the category, that row is answered as already existing and no label is inserted |
| LabelsPost.PostInserts | server/api/labels/index.post.ts:55-67 | otherwise exactly one row is appended and returned: the address and label, the category or 'custom', and the confidence and source of `LabelsPost.WithDefault` (1.0 and 'manual' when absent, null when given as null), with the next id |
| LabelsPost.WithDefault | server/api/labels/index.post.ts:7 | a destructuring default applies only to an absent field: absent gives the default, an explicit null stays null, a value is kept |
| LabelsPost.PostTwice | server/api/labels/index.post.ts:39-63 | while the address has fewer than 100 labels, posting the same body twice inserts once and the second post answers with the first one's row |
| LabelsPost.EnsureAddressHas | server/api/labels/index.post.ts:26-37 | after the ensure step the address has a row |
| LabelsGet.Views | server/api/labels/index.get.ts:14-22 | the selected columns of each row, one view per row, in order |
| LabelsGet.NewestFirst | server/api/labels/index.get.ts:24 | the labels reordered newest first |
| LabelsGet.SqlLimit | server/api/labels/index.get.ts:25 | SQL `LIMIT n`: a prefix of n rows (all when fewer), and every row when n is negative |
| LabelsGet.Categories | server/api/labels/index.get.ts:30-36 | every non-empty category in use, each once, and nothing else |
| LabelsGet.InCategory | server/api/labels/index.get.ts:41-43 | no category keeps the list; a category keeps exactly the rows with that category, as many as there are, in their order |
| LabelsGet.InCategoryAppend | server/api/labels/index.get.ts:41-43 | narrowing a concatenation narrows each part and keeps their order |
| LabelsGet.NegativeLimitReturnsAll | server/api/labels/index.get.ts:6-25 | as written, a negative `?limit=` reaches SQL as a negative LIMIT and every label is returned, past the cap of 100 |
| LabelsGet.Limit | server/api/labels/index.get.ts:6 | the intended limit lies in 1..100: the written limit when that is positive, and the default 50 otherwise |
| LabelsGet.LabelsGetShape | server/api/labels/index.get.ts:4-56 | with a working store: the `Limit` newest labels, newest first, then narrowed to the category (so a sub-list of the limited list); `total` counts the limited list before narrowing; the categories are all those in use; a failing store answers success false with nothing |
| LabelsGet.LabelsGetAtMostHundred | server/api/labels/index.get.ts:6-45 | with the intended limit the reply never holds more than 100 labels |
| Labeling.FindSame | server/utils/labeling.ts:24 | the position of the first row with the same label text and category, or none when no row has both |
| Labeling.RaiseConfidence | server/utils/labeling.ts:28-31 | the rows with the given id take exactly the new confidence and `now` as update time, all their other fields kept; every other row is unchanged |
| Labeling.LabelsOfRaise | server/utils/labeling.ts:28-31 | raising a confidence by id commutes with selecting an address's labels |
| Labeling.UpsertLabel | server/utils/labeling.ts:8-63 | with a working store the tables and the returned row are those of `Labeling.Upsert`; a failing store call writes nothing and throws |
| Labeling.IdUnique | server/utils/labeling.ts:31 | in well-formed tables the row updated by id is the duplicate that was found |
| Labeling.InsertedWellFormed | server/utils/labeling.ts:36-62 | the insert branch keeps the tables well formed |
| Labeling.UpsertWellFormed | server/utils/labeling.ts:8-63 | the upsert keeps the tables well formed |
| Labeling.UpsertKeepsRows | server/utils/labeling.ts:25-62 | nothing is lost and confidence never drops: every existing label keeps its place, id, address, text, category, source and creation time, its confidence (null counting as 0) does not decrease, and rows are only added at the end |
| Labeling.UpsertFindsDuplicate | server/utils/labeling.ts:17-34 | with a same-label, same-category row among the first 100 labels of the address: nothing is inserted, no address row is created, that row is returned as it was read; when the new confidence exceeds the row's (absent counting as 0) that row alone takes it with `now` as update time, and otherwise the tables are unchanged |
| Labeling.UpsertInsertsNew | server/utils/labeling.ts:36-62 | otherwise an address row is created exactly when the address had none, existing ones untouched, and exactly one label row with the given fields and a fresh id is appended and returned; other addresses' labels are unchanged |
| Labeling.InsertedLabels | server/utils/labeling.ts:53-60 | after the insert branch the address's labels are the old ones followed by the new row |
| Labeling.FindSameIsFirst | server/utils/labeling.ts:24 | a position with the label and none before it is what the search finds |
| Labeling.FindSameRaised | server/utils/labeling.ts:24-31 | raising a confidence changes neither text nor category, so the next search finds the same row |
| Labeling.RepeatAfterDuplicate | server/utils/labeling.ts:17-34 | a second upsert after one that found the label changes nothing more |
| Labeling.RepeatAfterInsert | server/utils/labeling.ts:17-62 | a second upsert after one that inserted the label finds the new row and changes nothing |
| Labeling.UpsertIdempotent | server/utils/labeling.ts:17-62 | while the address has fewer than 100 labels, upserting the same label twice is the same as upserting it once: exactly one matching row |
| Labeling.UpsertMissesBeyondWindow | server/utils/labeling.ts:18-24 | the duplicate search reads only the first 100 labels of the address: with 100 or more and no match among them, two identical upserts insert two rows |
| Labeling.UpsertEstablishes | server/utils/labeling.ts:8-63 | after an upsert the address carries the label, found or inserted |
| Labeling.UpsertKeepsLabel | server/utils/labeling.ts:8-63 | an upsert never takes a label away |
| Labeling.ApplyLabels | server/utils/labeling.ts:8-63 | one upsert leaves its label and adds at most one address row |
| Labeling.RunJobs | server/utils/labeling.ts:74-84 | the batch loop stops at the first failing store call: the count of successful calls is at most the number of jobs, every call before it succeeded, and the one it stopped at failed |
| Labeling.RunJobsStops | server/utils/labeling.ts:74-90 | jobs after the first failing one change nothing |
| Labeling.RunJobsWellFormed | server/utils/labeling.ts:74-84 | every batch keeps the tables well formed |
| Labeling.LabelsStep | server/utils/labeling.ts:74-84 | the labels of the earlier jobs survive the next job, which adds its own |
| Labeling.RunJobsLabels | server/utils/labeling.ts:74-84 | each job that ran leaves its label on its address, and later jobs keep it |
| Labeling.RunJobsSnoc | server/utils/labeling.ts:74-84 | one more job runs exactly when every earlier one succeeded and its own store call does |
| Labeling.RunJob | server/utils/labeling.ts:76-83 | one upsert of a batch writes its job exactly when its store call succeeds, and reports whether it did |
| Labeling.ApplyJobs | server/utils/labeling.ts:74-84 | the batch loop leaves the tables and count of `Labeling.RunJobs` |
| Labeling.ValidatorJobs | server/utils/labeling.ts:74-82 | one upsert per validator, in order, on its operator address, labelled with its moniker or 'Unknown Validator', category 'validator', 0.95, 'auto' |
| Labeling.AutoLabelValidators | server/utils/labeling.ts:68-92 | the validators are labelled in order; the count of all of them is returned when every store call succeeds, and 0 when the read or any call fails, the earlier writes staying |
| Labeling.ProviderJobs | server/utils/labeling.ts:103-111 | one upsert per finality provider, in order, labelled with its moniker or 'Unknown FP', category 'smart-money', 0.95, 'auto' |
| Labeling.AutoLabelFinalityProviders | server/utils/labeling.ts:97-121 | the providers are labelled in order; the count is returned when every store call succeeds, and 0 when any fails, the earlier writes staying |
| Labeling.BatchLabelsAll | server/utils/labeling.ts:74-87 | with every store call succeeding, a batch labels every entry and counts them all |
| Labeling.WholeBbn | server/utils/labeling.ts:147 | `toFixed(0)` of micro-units / 10^6: the nearest whole BBN, halves away from zero |
| Labeling.UbbnAmount | server/utils/labeling.ts:139 | the amount of the first coin whose denomination is 'ubbn', and none exactly when there is no such coin |
| Labeling.BalanceRaw | server/api/compliance/analyze.post.ts:81-82 | the first ubbn amount, or '0' when there is none or it is empty; never empty |
| Labeling.WhaleLabel | server/utils/labeling.ts:138-153 | a whale label is written only for a successful balance lookup |
| Labeling.WhaleLabelMeans | server/utils/labeling.ts:139-153 | a label is written exactly when there is a ubbn coin whose amount parses to at least threshold·10^6 micro-units, and it reads 'Whale (n BBN)' with n the rounded whole BBN |
| Labeling.WhaleJobs | server/utils/labeling.ts:135-153 | at most one upsert per address |
| Labeling.WhaleJobsMembers | server/utils/labeling.ts:135-153 | the whale upserts are exactly the addresses that get a label, each with that label, category 'whale', 0.85, 'heuristic' |
| Labeling.RunWhales | server/utils/labeling.ts:135-159 | the whale loop counts at most one per upsert |
| Labeling.RunWhalesLabels | server/utils/labeling.ts:135-159 | the count is the number of qualifying addresses whose store call succeeded, each of which carries its label; failures are skipped and the loop goes on |
| Labeling.RunWhalesWellFormed | server/utils/labeling.ts:135-159 | the whale loop keeps the tables well formed |
| Labeling.AddressesOf | server/utils/labeling.ts:132 | the addresses of the address rows, in order |
| Labeling.WhaleJobsSnoc | server/utils/labeling.ts:135-153 | one more address adds its upsert, if it qualifies, at the end |
| Labeling.RunWhalesSnoc | server/utils/labeling.ts:144-158 | one more upsert is written and counted exactly when its store call succeeds |
| Labeling.LabelWhales | server/utils/labeling.ts:135-159 | the whale loop leaves the tables and count of `Labeling.RunWhales` |
| Labeling.AutoLabelWhales | server/utils/labeling.ts:126-167 | a failed address read gives 0 and no write; otherwise every address read at the start whose balance qualifies is upserted and counted when its store call succeeds |
| Labeling.AnalysisJobs | server/utils/labeling.ts:172-200 | 'Validator', 'Finality Provider', 'Whale' in this order, each exactly when its flag is set, all with source 'heuristic', so 0 to 3 labels |
| Labeling.AutoLabelOnAnalysis | server/utils/labeling.ts:172-208 | the labels are applied in order and their number returned; a store failure propagates, the labels before it staying written |
| Labeling.RunAutoLabeling | server/utils/labeling.ts:213-225 | the store stays valid; the tables and counts are `Labeling.AutoLabelRun` on the old tables, with the address list of `autoLabelWhales` (line 132) read before any job writes (none when that read fails), so at most one whale per address row already present |
| Labeling.AutoLabelRun | server/utils/labeling.ts:213-225 | the validator batch, then the provider batch, then the whale loop: each batch counts all its entries or 0, and the whale count is at most the number of addresses read |
| Labeling.AutoLabelRunWellFormed | server/utils/labeling.ts:213-225 | the whole run keeps the tables well formed |
| Labeling.RunJobsKeepsLabel | server/utils/labeling.ts:74-84 | a batch never takes a label away |
| Labeling.RunWhalesKeepsLabel | server/utils/labeling.ts:135-160 | the whale loop never takes a label away |
| Labeling.AutoLabelRunLabelsAll | server/utils/labeling.ts:213-225 | when every store call succeeds, both batches count all their entries and, at the end of the run, every validator carries its `validator` label, every provider its `smart-money` label and every listed address whose balance qualifies its `whale` label |
| Labeling.RunJobsAddresses | server/utils/labeling.ts:74-84 | a batch adds at most one address row per job |
| Store.LabelsOf | server/utils/labeling.ts:18-21 | selecting an address's labels yields at most all the rows |
| Store.LabelsOfMembers | server/utils/labeling.ts:18-21 | the selected rows are exactly the rows of that address |
| Store.LabelsOfAppend | server/utils/labeling.ts:53-60 | appending a row appends it to its own address's labels and to no other address's |
| Store.Database.constructor | server/utils/db.ts:38-82 | the tables start empty, with autoincrement ids starting at 1 |
| DbSetup.TursoUrl | server/utils/db.ts:129-132 | the Turso URL, else the database URL; never empty when Turso is chosen |
| DbSetup.SqlitePath | server/utils/db.ts:149 | never empty; a URL without 'file:' is its own path, and no URL means ':memory:' |
| DbSetup.FileUrlPath | server/utils/db.ts:149 | a 'file:' URL names the file after the scheme |
| DbSetup.Connect | server/utils/db.ts:117-167 | Turso exactly when its URL is set or the database URL starts with 'libsql://' or 'turso://'; a Turso connection fails exactly when it cannot be opened; SQLite always yields a connection with a non-empty path, falling back to ':memory:' when the file cannot be opened |
| DbSetup.NeverUrlRequired | server/utils/db.ts:129-132 | the 'Turso database URL is required' error can never be thrown, since choosing Turso implies a URL |
| DbSetup.SchemaStatements | server/utils/db.ts:300-303 | every statement sent to Turso is non-empty and does not start with '--' |
| DbSetup.CommentedChunkDropped | server/utils/db.ts:300-303 | a chunk between two ';' whose trimmed text starts with a comment is dropped whole, statement included |
| DbSetup.IndexCommentShape | server/utils/db.ts:282 | the index comment is one comment line |
| DbSetup.IndexStatementShape | server/utils/db.ts:283 | the first index statement has no surrounding white space and no ';' |
| DbSetup.IndexChunkShape | server/utils/db.ts:280-283 | the chunk after the last table is white space, the comment line, white space and the first index statement |
| DbSetup.IndexStatementDropped | server/utils/db.ts:282-303 | as written, whatever surrounds it, a schema holding that chunk yields the statements of the other chunks only: `idx_transactions_block` is never created on Turso |
| DbSetup.DropFirstLine | server/utils/db.ts:282-283 | the text after the first line break is shorter than the input, and empty when there is no line break |
| DbSetup.DropFirstLineAfter | server/utils/db.ts:282-283 | dropping the first line of a line followed by a break gives what follows the break |
| DbSetup.StripLeadingComments | server/utils/db.ts:300-303 | the corrected chunk clean-up never leaves a text starting with '--', and leaves it trimmed |
| DbSetup.StripWithoutComment | server/utils/db.ts:302 | a chunk that does not open with a comment is only trimmed, as before |
| DbSetup.FixedSchemaStatements | server/utils/db.ts:300-303 | the corrected splitting also sends only non-empty statements that do not start with '--' |
| DbSetup.FixedAgrees | server/utils/db.ts:300-303 | where no chunk opens with a comment, the corrected splitting gives the same statements as the original |
| DbSetup.CommentedChunkNoSeparator | server/utils/db.ts:282-283 | a commented chunk holds no ';' |
| DbSetup.CommentedChunkTrim | server/utils/db.ts:302-303 | trimming a commented chunk leaves the comment line at its front |
| DbSetup.CommentedChunkFacts | server/utils/db.ts:282-303 | a commented chunk holds no ';', its trimmed text starts with '--', and comment stripping turns it into its statement |
| DbSetup.CommentedChunkKept | server/utils/db.ts:300-303 | with the corrected splitting a commented chunk yields its statement, in place |
| DbSetup.IndexStatementKept | server/utils/db.ts:282-303 | with the corrected splitting the index chunk yields exactly `idx_transactions_block`'s statement, between the statements of the other chunks |
| DbSetup.LibsqlClient.constructor | server/utils/db.ts:134-137 | a client for the given URL and token, with nothing sent yet |
| DbSetup.LibsqlClient.ExecuteSchema | server/utils/db.ts:305-314 | every statement is sent, in order, and those the database accepts are applied; a refused one does not stop the loop |
| DbSetup.Database.constructor | server/utils/db.ts:111-114 | no connection, no SQLite handle, no libSQL client, not Turso |
| DbSetup.Database.GetDatabase | server/utils/db.ts:116-171 | the first call connects as `DbSetup.Connect` says, records whether Turso is in use and keeps the connection and its SQLite handle (libSQL client kept) or fresh libSQL client (SQLite handle kept); once a connection is held every later call returns it and changes nothing, whatever the configuration is by then |
| DbSetup.Database.GetSqlite | server/utils/db.ts:173-181 | as written: refused while Turso is in use; the open SQLite connection when there is one; a held connection without a SQLite handle gives none and changes nothing; otherwise it initialises as `DbSetup.Connect` says (Turso flag, connection and handle set accordingly) and returns the SQLite handle at the configured path, or in memory when opening fails, or none under Turso, or the connection error |
| DbSetup.Database.GetSqliteChecked | server/utils/db.ts:173-181 | as intended: refused while Turso is in use and also when its own initialisation picks Turso; otherwise the SQLite connection at the configured path |
| DbSetup.Database.InitializeTursoSchema | server/utils/db.ts:183-187 | on an open Turso connection every schema statement is sent in order and the accepted ones applied; off Turso the libSQL client is left unchanged |
| DbSetup.GetSqliteUnderTurso | server/utils/db.ts:173-181 | as written, a first `getSqlite()` under a Turso configuration returns no connection instead of refusing |
| DbSetup.GetSqliteCheckedUnderTurso | server/utils/db.ts:173-181 | the corrected `getSqlite()` refuses in that situation |
| Auth.UserOf | server/utils/auth.ts:92-96 | the user handed out for an account: id 'user_' + name, the name, and the role |
| Auth.AuthenticateUser | server/utils/auth.ts:82-97 | succeeds exactly when the lower-cased username is one of the demo accounts and the password equals that account's exactly; the user is then `Auth.UserOf` of the lower-case name and the account's role |
| Auth.ToLowerIdempotent | server/utils/auth.ts:83 | lower-casing twice is lower-casing once |
| Auth.AuthenticatedUserShape | server/utils/auth.ts:30-33 | a signed-in user is ('user_demo', 'demo', demo) or ('user_admin', 'admin', admin), with a lower-case username |
| Auth.UsernameCaseInsensitive | server/utils/auth.ts:83-87 | usernames that differ only in letter case authenticate alike |
| Auth.PasswordCaseSensitive | server/utils/auth.ts:30-90 | 'DEMO'/'babylon2025' signs in as demo, 'demo'/'Babylon2025' does not, and each password belongs to its own account only |
| Auth.OnePasswordPerAccount | server/utils/auth.ts:82-90 | for any username, a password other than the one it was accepted with, whether it differs in case or otherwise, is refused |
| Auth.UnknownUserRefused | server/utils/auth.ts:85-87 | any other name is refused whatever the password |
| Auth.IsValidUsername | server/utils/auth.ts:171-173 | holds exactly for 3 to 20 characters, each a letter, digit or underscore |
| Auth.AllWordChars | server/utils/auth.ts:172 | every character is in [a-zA-Z0-9_] |
| Auth.ValidUsernameLower | server/utils/auth.ts:171-173 | lower-casing keeps a valid username valid |
| Auth.IsValidPassword | server/utils/auth.ts:175-177 | holds exactly for at least six UTF-16 code units |
| Auth.PasswordLengthInUnits | server/utils/auth.ts:176 | the length is counted in UTF-16 units: three characters outside the Basic Multilingual Plane (six units) pass, five ordinary characters do not |
| Auth.DemoAccountsValid | server/utils/auth.ts:30-33 | the built-in accounts pass the username and password rules |
| Auth.GetSessionFromEvent | server/utils/auth.ts:127-147 | no or an empty cookie is no session; a token that fails verification is no session and clears the cookie; otherwise the token's claims are the user; a cleared cookie never comes with a user |
| Auth.RequireAuth | server/utils/auth.ts:149-161 | 401 exactly when there is no session, otherwise the session's user |
| Auth.RequireAuthNeedsValidToken | server/utils/auth.ts:127-161 | a request passes exactly when it carries a cookie whose token verifies |
| AuthStore.AfterDemoLogin | app/stores/auth.ts:70-91 | a thrown demo login leaves a guest; an accepted one signs its user in; a refused one changes nothing |
| AuthStore.AfterLogin | app/stores/auth.ts:96-119 | an accepted login signs its user in; any other outcome leaves the session as it was |
| AuthStore.AfterInitialize | app/stores/auth.ts:39-64 | an authenticated `/me` answer with a user signs that user in; otherwise the demo login decides |
| AuthStore.LoginError | app/stores/auth.ts:113-116 | the server's message, or 'Invalid username or password' when there is none; never empty |
| AuthStore.ActionsKeepConsistent | app/stores/auth.ts:39-136 | every action keeps "authenticated exactly when there is a user" |
| AuthStore.InitializeFallsBackToGuest | app/stores/auth.ts:49-90 | an unauthenticated `/me` followed by a failed demo login leaves a guest, whatever came before |
| AuthStore.DemoCredentialsAccepted | app/stores/auth.ts:70-78 | the demo credentials the store sends are ones the server accepts, as the demo user |
| AuthStore.Store.constructor | app/stores/auth.ts:18-24 | signed out, not loading, no error, not initialised |
| AuthStore.Store.CurrentUser | app/stores/auth.ts:27 | with the store's invariant: the current user, present exactly when the store says it is signed in |
| AuthStore.Store.IsLoggedIn | app/stores/auth.ts:28 | with the store's invariant: signed in exactly when there is a current user |
| AuthStore.Store.IsDemo | app/stores/auth.ts:29 | exactly when there is a user with the demo role |
| AuthStore.Store.IsAdmin | app/stores/auth.ts:30 | exactly when there is a user with the admin role, never together with demo |
| AuthStore.Store.DisplayName | app/stores/auth.ts:31 | the user's name, or 'Guest'; never empty |
| AuthStore.Store.AutoLoginDemo | app/stores/auth.ts:70-91 | the session becomes `AuthStore.AfterDemoLogin` of the demo login's answer; nothing else changes |
| AuthStore.Store.Initialize | app/stores/auth.ts:39-64 | does nothing once initialised; otherwise the session becomes `AuthStore.AfterInitialize`, and the store ends initialised, not loading and without error |
| AuthStore.Store.Login | app/stores/auth.ts:96-119 | true exactly when the answer accepts the credentials, and then its user is signed in; a refusal leaves the session; a thrown request records its message as the error; the store ends not loading |
| AuthStore.Store.Logout | app/stores/auth.ts:124-136 | signed out and not loading, whether or not the request succeeded |
| AuthStore.Store.ClearError | app/stores/auth.ts:141-143 | the error is cleared and nothing else changes |
| Numeric.ParseInt | server/api/blockchain/transactions.get.ts:5 | a number exactly for an optional sign followed by decimal digits; digits alone parse to their decimal value |
| Numeric.ParseShowInt | server/api/blockchain/transactions.get.ts:57 | parsing an integer's decimal text gives the integer back |
| Numeric.RoundDiv | server/api/analytics/overview.get.ts:45 | `Math.round` of a quotient: the nearest integer, halves rounded up |
| Text.RemoveFirst | server/utils/db.ts:149 | `replace` with a string pattern removes exactly its first occurrence (one that no earlier occurrence overlaps the start of), shortening the text by the pattern's length, and leaves text without it unchanged |
| Text.Split | server/utils/db.ts:301 | `split` on one character gives at least one part, none holding the separator |
| Text.JoinSplit | server/utils/db.ts:301 | splitting loses nothing: joining the parts gives the text back |
| Text.SplitJoin | server/utils/db.ts:301 | joining parts free of the separator and splitting again gives the parts back |
| Text.LastSegment | server/api/blockchain/transactions.get.ts:48-52 | the last part of a split is the text after the last separator, and holds no separator |
| Text.Trim | server/utils/db.ts:302 | `trim` drops exactly the white space at each end: the result is the slice of the input between a leading and a trailing run of white space, and neither of its ends is white space |
| Text.Utf16Length | server/utils/auth.ts:176 | `length` counts UTF-16 units: between the number of characters and twice that, and exactly the number of characters when all lie in the Basic Multilingual Plane |
| Text.ToLower | server/utils/auth.ts:86 | `toLowerCase` maps every character, keeping the length |
| Seqs.SliceTo | server/api/analytics/overview.get.ts:48-52 | `slice(0, end)` is a prefix: of length `end` capped at the length, and a negative `end` counts from the back |
| Seqs.Filter | server/api/labels/index.get.ts:41-43 | `filter` keeps as many elements as pass the test |
| Seqs.FilterMembers | server/api/labels/index.get.ts:41-43 | an element is kept exactly when it is in the list and passes the test |
| Seqs.FilterAppend | server/api/labels/index.get.ts:41-43 | filtering a concatenation filters each part in order, so the kept elements keep their relative order |
| Seqs.SortDesc | server/api/babylon/finality-providers.get.ts:23-25 | the descending numeric sort is a permutation of its input and is ordered by key, largest first |
| Seqs.SortDescStable | server/api/analytics/overview.get.ts:47 | the sort is stable: the elements of any one key keep their relative order |
| Seqs.SortDescInPlace | server/api/babylon/finality-providers.get.ts:23-25 | sorting the array in place leaves in it the `Seqs.SortDesc` of its old contents |
| Seqs.CountWhereMultiset | server/api/babylon/finality-providers.get.ts:31-32 | reordering a list does not change how many of its elements pass a test |

## Left out

- HTTP transport: the node's answers are the `respond` parameter (one outcome per path), and the browser's requests to `/api/auth/me` and `/api/auth/login` are parameters of the auth store's actions. Malformed JSON bodies are not distinguished from bodies of another shape.
- Clock and randomness: `Date.now()` is the `now` parameter in milliseconds. An ISO rendering of a mock time is the `isoOf` parameter, and a `Math.random()` draw is the `draw` parameter. The random contents of the mock transaction list in `transactions.get.ts` are not modelled, only how many rows there are.
- Date parsing: `getTimeAgo` and the block-time arithmetic take the instant a timestamp denotes (`Timestamp.ms`). Turning ISO text into that instant is not modelled.
- Concurrency: `Promise.all` and `Promise.allSettled` are sequential calls with one outcome each. All reads happen against the cache as it was before the batch, which the separate-paths lemma justifies.
- Labeling.RunAutoLabeling: the three jobs of `runAutoLabeling` start together in the source. In the model the whale job's address read comes first, as in the source, where it happens before the batches' first writes. The writes then come one job after the other, so the model does not capture interleavings of the batches' upserts with the whale loop's.
- Malformed bodies: a 2xx body of another shape than a read expects is the `Malformed` error where the source throws a `TypeError` while reading it (`getNetworkStats`, the latest block of `getRecentBlocks`), and no providers, validators or delegations where the source's loop throws and the job returns 0. For the heights below the latest, such a body is kept in the block window as it arrived; the handlers that read the window as blocks fail on it (`Babylon.AsBlocks`), and `getRecentTransactions` passes over it.
- Format.TimeAgo: only the units and the floor divisions are modelled. `formatTimestamp`, `formatBBNAmount` and `toLocaleString` (server/utils/babylon.ts:390-407) are not part of this model, because they are floating-point and locale formatting.
- TransactionsView.FormatTx: the amount cell records whether `formatAmount` is applied, not the text it produces, because that text is float formatting.
- Overview: the TPS figure (`toFixed` on a float quotient, overview.get.ts:61) is not modelled. Percentages are exact half-up rounding of the rational share, so float edge cases such as 14.4999… are not modelled.
- Providers and Staking: the commission percentage and the satoshi-to-BTC conversions are float formatting and are not modelled; the raw strings are kept.
- Numbers: `parseInt` is modelled on whole strings made of an optional sign and decimal digits. Anything else is NaN. JavaScript's prefix parsing (`parseInt('12abc')` is 12), leading white space and other radices are not modelled.
- Integer width: amounts and counts are unbounded integers. JavaScript's loss of precision above 2^53 is not modelled.
- Providers.BondedKey: a provider whose `total_bonded_sat` does not parse ranks as if it held 0. JavaScript's `sort` treats a comparison that yields NaN as a tie, which is not a consistent order, so its outcome for such entries is not modelled.
- SQL ordering: `ORDER BY created_at DESC` with equal timestamps, and `GROUP BY` result order, are modelled as insertion order (newest first uses a stable sort).
- Store failures: a handler or job whose database call fails is modelled as failing at its first database access, writing nothing. Partial writes made before a later failure inside one handler are not modelled.
- Store.Database: the Drizzle, better-sqlite3 and libSQL libraries are replaced by in-memory tables. Columns the core never reads are not modelled.
- DbSetup: the schema DDL text is a parameter of the splitter. The statements' effect on the remote database is the `succeeds` parameter, and the 'already exists' filtering in the catch block only decides what is logged, so it is not modelled. A failure to open the in-memory fallback database is not modelled.
- Auth: JWT signing and verification (HS256, RFC 7519) and cookie handling are left out. A token's verdict is the `verify` parameter, and clearing the cookie is a flag in the outcome. `login.post.ts` and `me.get.ts` are not part of this model.
- Auth.AuthenticateUser: `toLowerCase` is modelled for ASCII letters only. Full Unicode case mapping is not modelled.
- Auth.IsValidUsername: lengths are counted in code points, while JavaScript counts UTF-16 units. The two agree on every username the regular expression accepts.
- AuthStore.Store: the intermediate `isLoading == true` states between awaits are not observable in the model, and only the final state of each action is stated.
- Portfolio.WatchedPost: an `alertsEnabled` that is given but not a boolean is not modelled.
- Error messages: 500 errors carry the handler's fixed message. The text of the underlying exception is not modelled.
- Logging: `console.log`, `console.warn` and `console.error` are not modelled.
- Not part of this model: the composables and plugins of the browser app, `server/plugins/db.ts`, the labeling scheduler `server/plugins/labeling-cron.ts`, `stats.get.ts`, `labeling/auto.post.ts`, the per-address handlers under `server/api/addresses/`, the two delete handlers and `nuxt.config.ts`. They are wrappers or lie outside the modelled core.
- Overview.Distinct: the transaction types are kept in order of first appearance, which is the order of a JavaScript object's keys only for keys that are not array indices; a type named by a canonical non-negative integer (such as '5') would be listed first, in ascending order, by `Object.entries`, and would then come first among equal counts in `Overview.TopTypes`. The model does not reorder such keys.

## Findings

| source | as written | input that shows it | evidently intended | confidence | as-written member | corrected member |
|---|---|---|---|---|---|---|
| server/utils/db.ts:282-303 | the Turso splitter drops every chunk whose trimmed text starts with '--', and the chunk holding the first index opens with the comment line '-- Indexes for performance' | the schema itself: the chunk between the last table's ';' and the first index's ';' trims to that comment line followed by the `idx_transactions_block` statement | remove leading comment lines and keep the statement, so `idx_transactions_block` is created on Turso as it is on SQLite | high (not executed) | DbSetup.IndexStatementDropped | DbSetup.IndexStatementKept |
| server/api/labels/index.get.ts:6-25 | the limit is the smaller of the parsed `?limit=` and 100, with no lower bound, and is passed to the SQL LIMIT | `?limit=-1`: SQLite treats a negative LIMIT as no limit, so every label is returned | a limit between 1 and 100, the default 50 standing in for a non-positive one, so the listing never exceeds 100 rows | medium (not executed) | LabelsGet.NegativeLimitReturnsAll | LabelsGet.LabelsGetAtMostHundred |
| server/utils/db.ts:173-181 | `getSqlite()` tests the Turso flag before initialising; if its own call to `getDatabase()` then picks Turso, it returns the empty SQLite handle through a non-null assertion | a Turso configuration and a first database access through `getSqlite()` | refuse in that case too, as it does once Turso is known to be in use | medium (not executed) | DbSetup.GetSqliteUnderTurso | DbSetup.GetSqliteCheckedUnderTurso |
