# AML prediction network: the risk-aggregation core

The AML prediction network is a demo of cross-bank fraud detection. Several banks
each "vote" a confidence that a transaction is money laundering. The network turns
the votes into one risk score, weighted by reputation or by stake, and maps the
score to an action: BLOCK, REVIEW (enhanced due diligence) or APPROVE. A
regulator (FinCEN) watches every run.

The repository holds several near-copies of this engine, plus two projections of
ledger records. This project models each copy as its own module, so that the
places where they differ show up as lemmas:

| module | source | form |
|---|---|---|
| `DemoApi` | `frontend/api/demo.js` | Reputation-weighted backend. The vote and score arithmetic are functions. `DemoBackend` is a class holding the module-level cache and `marketCount`. The reputation loop is a method. |
| `TenzroBackend` | `canton-devnet-demo/backend/server-tenzro.js` | Stake-weighted backend. `PartyRegistry` is a class whose `LoadParties` loop writes the party table. `CastVotes` is the vote loop, threading `contractId`. |
| `DemoView` | `frontend/src/Demo.tsx` | The running score and the decision as functions. `DemoSession` is a class: the step machine 0..5, the reveals, and the score counter. `ScoreCounter` is the counter loop. |
| `DevnetConsole` | `canton-devnet-demo/demo-ui/src/App.tsx` | `Console` is a class: the step machine 0..3 and the audit log, with SAR filing. |
| `MarketView` | `frontend/src/App.tsx` | The dashboard's prediction-market panel and its risk bar. All functions. |
| `ContractsApi` | `frontend/api/contracts.js` | The map / filter / map chain over active contracts. All functions. |
| `PartiesApi` | `frontend/api/parties.js` | The filter / map over ledger parties. All functions. |

Shared vocabulary lives in five more modules:

- `Wrappers`: the `Option` type.
- `Text`: the JavaScript string operations used: `includes`, `startsWith`, `split(..)[i]`, `replace(/c/g, ..)`, `toLowerCase` and `slice`.
- `Aggregation`: `Math.round`, the one-decimal percentage `Math.round(x * 1000) / 10`, a `reduce` sum, and the weighted-mean bounds every copy relies on.
- `Tables`: `find`, and assigning key/value pairs into an object one after another.
- `Ledger`: the shape of the ledger's active-contract JSON.

Inputs from outside the program are parameters:

- `Math.random()` is a draw `u` in [0, 1).
- `Date.now()` is an integer `now`.
- `toLocaleTimeString()` is a string.
- A network reply is an `Option`, where `None` means the call threw.
- `parseFloat` gives an `Option<real>`, where `None` means NaN.

Numbers are Dafny `real`s. `Math.round(y)` is `Floor(y + 1/2)`.

Points where the code's behaviour is easy to misread:

- `demo.js` clamps the confidence after rounding it to a percentage (`Math.min(95, Math.max(15, Math.round(..)))`). The clamp is not applied to the fraction.
- `demo.js` uses the fallback reputation table only when the ledger call throws. A stale cache triggers a reload, not the fallback.
- `demo.js` and `contracts.js` replace a parsed value of 0 by the default, exactly as they replace NaN (`parseFloat(x) || d`).
- `demo.js` and `server-tenzro.js` look the scenario up in a plain object. A scenario named after a member every object inherits (`constructor`, `toString`, `__proto__`, ...) finds that member instead of falling back to `high`, so every confidence and the risk score are NaN (sent as `null`) and the action is APPROVE.
- `demo.js` scores the medium scenario with `{0.70, 0.08}`. `server-tenzro.js` profiles are `{0.78, 0.12}`, `{0.55, 0.15}` and `{0.28, 0.12}`.

## Model

| member | source | states |
|---|---|---|
| Aggregation.Round | frontend/api/demo.js:101 | `Math.round` gives the integer within half of its argument, halves rounding up |
| Aggregation.RoundMonotone | frontend/api/demo.js:101 | rounding never reverses the order of two values |
| Aggregation.RoundWithin | canton-devnet-demo/backend/server-tenzro.js:105 | a value between two integers rounds to an integer between them |
| Aggregation.OneDecimal | frontend/api/demo.js:101 | the one-decimal percentage is within 0.05 of 100·x and has at most one decimal |
| Aggregation.OneDecimalWithin | frontend/api/demo.js:101 | if 100·x lies between two whole numbers, so does its one-decimal percentage |
| Aggregation.OneDecimalExact | canton-devnet-demo/backend/server-tenzro.js:111 | the percentage is k/10 exactly when 1000·x rounds to k |
| Aggregation.OneDecimalMonotone | frontend/api/demo.js:101 | a larger fraction never shows a smaller percentage |
| Aggregation.SumByAppend | frontend/api/demo.js:99 | a `reduce` sum grows by the term of an appended element |
| Aggregation.SumByCongruent | frontend/api/demo.js:99-100 | sums whose terms agree on every element are equal |
| Aggregation.SumByDominates | frontend/src/App.tsx:151 | non-negative terms have a non-negative sum that bounds each term |
| Aggregation.SumByScaled | frontend/src/App.tsx:184 | dividing each term by c divides the sum by c |
| Aggregation.WeightedLower | frontend/api/demo.js:99-100 | terms each at least lo times their weight sum to at least lo times the total weight |
| Aggregation.WeightedUpper | frontend/api/demo.js:99-100 | terms each at most hi times their weight sum to at most hi times the total weight |
| Aggregation.WeightedBounds | frontend/api/demo.js:99-100 | both of the above together |
| Aggregation.MeanWithin | frontend/api/demo.js:101 | a quotient over a positive total stays between the bounds its numerator obeys |
| Aggregation.ScoreWithin | frontend/api/demo.js:98-101 | a one-decimal weighted mean of percent confidences lies between the lowest and highest confidence |
| Tables.Find | frontend/src/Demo.tsx:23 | `find` returns the first element passing the test, and nothing only when none does |
| Tables.OverwriteAppend | canton-devnet-demo/backend/server-tenzro.js:32 | one more assignment updates exactly its key |
| Tables.OverwriteKeys | canton-devnet-demo/backend/server-tenzro.js:30-33 | after the loop the keys are the old keys plus every assigned key |
| Tables.OverwriteUntouched | canton-devnet-demo/backend/server-tenzro.js:30-33 | a key no pair assigns keeps its presence and its value |
| Tables.OverwriteLastWins | canton-devnet-demo/backend/server-tenzro.js:30-33 | the last pair that assigns a key decides its value |
| Tables.OverwriteValueFrom | frontend/api/demo.js:27-35 | every value present afterwards was already there or came from some pair |
| Text.IndexOf | frontend/api/contracts.js:41 | the first match at or after a position, with no match before it, or none at all |
| Text.ContainsIffFound | frontend/api/contracts.js:41 | `includes` holds exactly when a search finds the pattern |
| Text.BeforeFirst | frontend/api/parties.js:10 | `split(sep)[0]` is the prefix before the first separator, holds no separator, and is the whole text when there is none |
| Text.BeforeFirstOfPrefix | frontend/api/parties.js:10 | text free of the separator's first character is exactly what comes before the separator |
| Text.SecondField | frontend/api/contracts.js:43 | `split(c)[1]` exists exactly when c occurs; it is the text after the first c up to the next c (or the end), and so holds no c |
| Text.SecondFieldAfter | frontend/api/contracts.js:43 | after a c-free prefix and a c, the second field is the tail cut at its first c |
| Text.SecondFieldBetween | frontend/api/contracts.js:43 | a c-free field between the first two c is the second field |
| Text.ReplaceChar | frontend/api/parties.js:10 | `replace(/a/g, b)` keeps the length, puts b where every a was and changes nothing else |
| Text.ReplaceCreatesNoMatch | frontend/api/contracts.js:48 | putting a space for `_` cannot create a `::` |
| Text.RemoveChar | canton-devnet-demo/backend/server-tenzro.js:31 | `replace(/c/g, '')` leaves no c, adds no character and keeps c-free text unchanged |
| Text.RemoveCharCounts | canton-devnet-demo/backend/server-tenzro.js:31 | every other character is kept as often as it occurs, so the result is shorter by the number of c |
| Text.RemoveCharAppend | canton-devnet-demo/backend/server-tenzro.js:31 | removing a character distributes over concatenation |
| Text.ToLowerAscii | canton-devnet-demo/backend/server-tenzro.js:31 | lower-casing keeps the length, maps each capital `A`..`Z` to the letter 32 code points above it and keeps every other character |
| Text.ToLowerAsciiAppend | canton-devnet-demo/backend/server-tenzro.js:31 | lower-casing distributes over concatenation |
| Text.ToLowerAsciiIdempotent | canton-devnet-demo/backend/server-tenzro.js:31 | lower-casing twice is lower-casing once |
| Text.Prefix | frontend/api/contracts.js:45 | `slice(0, n)` is the first n characters, or the whole text if shorter |
| Ledger.EntriesOf | frontend/api/contracts.js:32 | a reply that is not an array counts as no entries |
| Ledger.ParsedOr | frontend/api/contracts.js:49-50 | `parseFloat(x) \|\| d` is the parsed value unless it is NaN or 0, otherwise d; never 0 when d is not |
| Ledger.BankName | frontend/api/demo.js:33 | the bank's party name is `bank` (or `''`) cut just before its first `::`, or all of it when there is none |
| Ledger.BankNameOfParty | frontend/api/demo.js:33 | a party id `name::ns` whose name has no colon gives that name |
| DemoApi.ProfileFor | frontend/api/demo.js:74-76 | `medium` and `low` select their profiles; a name every object inherits gives no profile; a missing or any other scenario selects the high one |
| DemoApi.UnknownScenarioIsHigh | frontend/api/demo.js:74-76 | an unknown, non-inherited id, `high` and no scenario all give the profile {0.85, 0.08} |
| DemoApi.ReputationToWeight | frontend/api/demo.js:44-50 | weights 2.0/1.5/1.0/0.75/0.5, each exactly on its score band, with inclusive thresholds 90/75/50/25 |
| DemoApi.WeightMonotone | frontend/api/demo.js:44-50 | a higher reputation never gets a smaller weight |
| DemoApi.ItemReputation | frontend/api/demo.js:28-34 | a kept entry is stored under its bank name cut at `::`, with score `parseFloat(..) \|\| 50` and accuracy `parseFloat(..) \|\| 0.5`, both non-zero |
| DemoApi.ReputationPairsFrom | frontend/api/demo.js:27-35 | the loop assigns exactly the kept `:BankReputation:` entries, and nothing else |
| DemoApi.ReputationTableSpec | frontend/api/demo.js:27-35 | the table's keys are exactly the cut-down bank names of the reputation entries, each with a non-zero score and accuracy |
| DemoApi.CollectReputations | frontend/api/demo.js:26-35 | the loop over entries builds the reputation table, each later entry overwriting an earlier one with the same name |
| DemoApi.ReputationsFor | frontend/api/demo.js:17-41 | a cache younger than 60000 ms is returned as is; otherwise the reply's table, or the fixed fallback when the call fails |
| DemoApi.BankConfidence | frontend/api/demo.js:93 | a bank's confidence is the rounded percentage clamped to [15, 95], equal to it when already inside |
| DemoApi.ClampIdleForScenarios | frontend/api/demo.js:93 | for every draw and every scenario with a profile the clamp never fires; high gives 77..93, medium 62..78, low 16..40 |
| DemoApi.SynthesizeVotes | frontend/api/demo.js:83-96 | banks A, B, C, D in order with their weights and clamped confidences, then exactly one regulator vote of confidence 0 and weight 0 |
| DemoApi.MissingBankWeighsOne | frontend/api/demo.js:91-92 | a bank missing from the table scores 50 and so weighs 1.0 |
| DemoApi.BankWeights | frontend/api/demo.js:91-92 | the four bank weights, in bank order, from the reputation table |
| DemoApi.BankWeightsOfVotes | frontend/api/demo.js:90-95 | the synthesized votes carry exactly those weights, whatever the profile |
| DemoApi.NonRegulatorAppend | frontend/api/demo.js:98 | the filter drops an appended regulator vote and keeps any other |
| DemoApi.NonRegulatorKeepsBanks | frontend/api/demo.js:98 | votes without a regulator pass the filter unchanged |
| DemoApi.ActionFor | frontend/api/demo.js:106 | BLOCK iff score ≥ 80, REVIEW iff 60 ≤ score < 80, APPROVE iff score < 60 |
| DemoApi.SynthesizedTotals | frontend/api/demo.js:98-99 | the aggregation sees exactly the four bank votes, whose weights total between 2 and 8, so the division is defined |
| DemoApi.SynthesizedBanksInRange | frontend/api/demo.js:90-95 | every bank vote has a positive weight and a confidence in [15, 95] |
| DemoApi.RiskScoreWithin | frontend/api/demo.js:98-101 | the score lies between any whole-number bounds on the counted confidences |
| DemoApi.MeanScoreWithin | frontend/api/demo.js:99-101 | the one-decimal weighted mean of any votes lies between whole-number bounds on their confidences |
| DemoApi.SynthesizedScore | frontend/api/demo.js:98-101 | the score is the one-decimal weighted mean of the four bank confidences alone, and lies in [15, 95] |
| DemoApi.RegulatorExcluded | frontend/api/demo.js:96-101 | appending a regulator vote, whatever its confidence and weight, leaves the score unchanged |
| DemoApi.DemoBackend.constructor | frontend/api/demo.js:5-7 | the module starts with no cache, cache time 0 and a market count of 47 |
| DemoApi.DemoBackend.LoadReputations | frontend/api/demo.js:17-41 | returns the cache while fresh at the first clock read, else the loaded table or the fallback; only a successful load refreshes the cache, stamped with the second clock read |
| DemoApi.DemoBackend.Handle | frontend/api/demo.js:70-116 | GET reports the count and other non-POST methods get 405, both changing nothing; POST raises the count by one, refreshes the cache only when it was stale and the ledger answered, and answers the votes, a defined score and its action, or, for a scenario with no profile, the weights with APPROVE |
| DemoView.ScenarioLookup | frontend/src/Demo.tsx:23 | a listed id selects its own scenario, and any other id selects the first |
| DemoView.Visible | frontend/src/Demo.tsx:28 | only votes of the run that are not the regulator's are counted |
| DemoView.VisibleMembers | frontend/src/Demo.tsx:28 | every revealed non-regulator vote is counted |
| DemoView.VisibleFrom | frontend/src/Demo.tsx:28 | every counted vote sits at a revealed index and is not the regulator's |
| DemoView.VisibleAllRevealed | frontend/src/Demo.tsx:28 | with every index revealed, the counted votes are all non-regulator votes |
| DemoView.LiveRiskScore | frontend/src/Demo.tsx:26-32 | the live score is 0 before a result arrives and while nothing is revealed |
| DemoView.FullRevealIsBatch | frontend/src/Demo.tsx:28-31 | once everything is revealed, the live score is the batch stake-weighted score of all non-regulator votes |
| DemoView.RegulatorNeverCounts | frontend/src/Demo.tsx:28 | adding a regulator vote never changes the live score, whatever its stake |
| DemoView.RunningScoreWithin | frontend/src/Demo.tsx:29-31 | a running score is 0 (nothing staked) or between the lowest and highest counted confidence |
| DemoView.LiveScoreWithin | frontend/src/Demo.tsx:26-32 | the live score is 0 or between the bounds of the revealed confidences |
| DemoView.FromApi | frontend/api/demo.js:94 | a vote from the reputation backend arrives with `weight` and no `stake` |
| DemoView.FromApiVotes | frontend/api/demo.js:90-96 | the page receives the votes of the reputation backend one for one, in order |
| DemoView.RunningScoreIgnoresApiWeights | frontend/src/Demo.tsx:29-31 | as written, the live score over that backend's votes is 0 however much is revealed, although the backend's own score is at least 15 |
| DemoView.CorrectedLiveRiskScore | frontend/src/Demo.tsx:26-32 | reading `stake`, or `weight` where it is absent, the live score is still 0 before a result and before any reveal |
| DemoView.FromApiNonRegulator | frontend/api/demo.js:98 | the page drops the regulator's vote just as the backend does |
| DemoView.FromApiSums | frontend/api/demo.js:99-100 | the corrected page's totals are the backend's total weight and weighted sum |
| DemoView.CorrectedMatchesServer | frontend/src/Demo.tsx:28-31 | corrected, the live score at full reveal is the reputation backend's own risk score |
| DemoView.CorrectedAgreesWithStakes | frontend/src/Demo.tsx:29-31 | where every counted vote has a stake, the correction changes nothing |
| DemoView.GetDecision | frontend/src/Demo.tsx:88-92 | BLOCK iff ≥ 80, ENHANCED DUE DILIGENCE iff 60 ≤ score < 80, APPROVE iff < 60 |
| DemoView.AccumulatedIsMultiple | frontend/src/Demo.tsx:64 | after n ticks the counter's accumulator is n twentieths of the target |
| DemoView.AccumulatedMonotone | frontend/src/Demo.tsx:64 | for a non-negative target the accumulator never goes back |
| DemoView.CounterReaches | frontend/src/Demo.tsx:64-65 | within twenty ticks the target is reached first at tick 20, or at tick 1 when it is 0 or less |
| DemoView.ScoreCounter | frontend/src/Demo.tsx:59-70 | the counter shows one frame per tick, 20 frames (1 for a target ≤ 0), and ends exactly on the target |
| DemoView.CounterNeverExceeds | frontend/src/Demo.tsx:63-67 | for a non-negative one-decimal target the counter never shows more than the target |
| DemoView.CounterMonotone | frontend/src/Demo.tsx:63-67 | for such a target the shown value never goes down |
| DemoView.CounterBoundedForScores | frontend/src/Demo.tsx:61-67 | for every non-negative score either backend produces, the counter never overshoots |
| DemoView.DemoSession.constructor | frontend/src/Demo.tsx:16-21 | the page starts on `high` at step 0 with no result, no reveals and score 0 |
| DemoView.DemoSession.TxCount | frontend/src/Demo.tsx:24 | 0 before the run, then the market creation plus one per revealed vote |
| DemoView.DemoSession.SelectScenario | frontend/src/Demo.tsx:226 | the select changes only the scenario |
| DemoView.DemoSession.StartDemo | frontend/src/Demo.tsx:79-80 | from the step-0 scene that holds its button, starting the demo shows the alert scene (step 1) |
| DemoView.DemoSession.ReceiveMarket | frontend/src/Demo.tsx:81-83 | a successful reply stores the result, and at step 2 restarts the reveals; a failure changes nothing |
| DemoView.DemoSession.LoadingTimer | frontend/src/Demo.tsx:45-50 | the step-1 timer moves to step 2, clearing the reveals once a result is there |
| DemoView.DemoSession.RevealTimer | frontend/src/Demo.tsx:41 | a reveal timer appends its index |
| DemoView.DemoSession.VotingTimer | frontend/src/Demo.tsx:52-57 | step 2 moves to 3 only once as many votes are revealed as the result has |
| DemoView.DemoSession.AnimateScore | frontend/src/Demo.tsx:59-70 | at step 3 the counter runs its frames and finally shows the result's score |
| DemoView.DemoSession.NextScene | frontend/src/Demo.tsx:281 | step 3 moves to 4 only through the button shown for a score ≥ 80 |
| DemoView.DemoSession.SceneTimer | frontend/src/Demo.tsx:72-77 | the step-4 timer moves to step 5 |
| DemoView.DemoSession.Reset | frontend/src/Demo.tsx:86 | back to step 0 with no result, no reveals and score 0, so no transactions and a live score of 0 |
| DevnetConsole.ScenarioLookup | canton-devnet-demo/demo-ui/src/App.tsx:40 | a listed id selects its own scenario, and any other id selects `SCENARIOS[0]` |
| DevnetConsole.GetDecision | canton-devnet-demo/demo-ui/src/App.tsx:82-86 | BLOCK iff ≥ 80, ENHANCED DUE DILIGENCE iff 60 ≤ score < 80, APPROVE iff < 60 |
| DevnetConsole.VoteEntries | canton-devnet-demo/demo-ui/src/App.tsx:68 | one VOTE_SUBMITTED entry per vote, in vote order, with its bank, confidence and stake; none without a result |
| DevnetConsole.CloseEntries | canton-devnet-demo/demo-ui/src/App.tsx:72-76 | MARKET_CLOSED by System, preceded by a SAR_FILED from JPMorgan Chase iff the score is ≥ 80 |
| DevnetConsole.CountKindAppend | canton-devnet-demo/demo-ui/src/App.tsx:72-76 | entries of one kind in a prepended log add up |
| DevnetConsole.CountKindAbsent | canton-devnet-demo/demo-ui/src/App.tsx:60 | a log without entries of a kind counts none of them |
| DevnetConsole.SarsFiledOnClose | canton-devnet-demo/demo-ui/src/App.tsx:68-76 | closing files exactly one SAR iff the score is ≥ 80, and voting files none |
| DevnetConsole.Console.constructor | canton-devnet-demo/demo-ui/src/App.tsx:33-38 | the console starts on `high` at step 0 with no result, no reveals and an empty log |
| DevnetConsole.Console.ActiveSars | canton-devnet-demo/demo-ui/src/App.tsx:289 | "Active SARs" is 1 iff step ≥ 3 and the score is ≥ 80, else 0 |
| DevnetConsole.Console.FiledSarIsCounted | canton-devnet-demo/demo-ui/src/App.tsx:195-203 | a SAR in the log is always counted by "Active SARs" and shown as the SAR card |
| DevnetConsole.Console.Reset | canton-devnet-demo/demo-ui/src/App.tsx:80 | step 0, no result, no reveals, an empty log and no active SAR |
| DevnetConsole.Console.SelectScenario | canton-devnet-demo/demo-ui/src/App.tsx:125 | the select sets the scenario and resets the run |
| DevnetConsole.Console.StartDemo | canton-devnet-demo/demo-ui/src/App.tsx:53-54 | from step 0, where its button is shown, starting sets step 1 and clears the log |
| DevnetConsole.Console.ReceiveMarket | canton-devnet-demo/demo-ui/src/App.tsx:55-61 | on success the result is stored and the log is exactly one PATTERN_MATCHED entry; a failure changes nothing |
| DevnetConsole.Console.RevealTimer | canton-devnet-demo/demo-ui/src/App.tsx:49 | a reveal timer appends its index |
| DevnetConsole.Console.NextStep | canton-devnet-demo/demo-ui/src/App.tsx:64-78 | 1→2 prepends the vote entries and 2→3 the closing entries, each keeping the old log after them; any other step changes nothing |
| DevnetConsole.FullRun | canton-devnet-demo/demo-ui/src/App.tsx:53-78 | a full run with a score ≥ 80 ends at step 3 with exactly one counted SAR, and the log in newest-first order |
| TenzroBackend.PartyKey | canton-devnet-demo/backend/server-tenzro.js:31 | the key is the lower-cased display name with every `_` removed, so it has no `_` and no capital |
| TenzroBackend.PartyKeyOfPlainName | canton-devnet-demo/backend/server-tenzro.js:31 | a lower-case display name without `_` is its own key |
| TenzroBackend.PartyKeyIgnoresCase | canton-devnet-demo/backend/server-tenzro.js:31 | letter case does not change the key |
| TenzroBackend.PartyKeyIgnoresUnderscore | canton-devnet-demo/backend/server-tenzro.js:31 | an underscore anywhere does not change the key |
| TenzroBackend.PartyAssignments | canton-devnet-demo/backend/server-tenzro.js:30-32 | one assignment per listed party, in order, of its key to its party id |
| TenzroBackend.LoadedPartyLastWins | canton-devnet-demo/backend/server-tenzro.js:30-33 | a party is found under its key unless a later party shares the key |
| TenzroBackend.LoadedPartyUntouched | canton-devnet-demo/backend/server-tenzro.js:30-33 | a key no listed party maps to keeps its old entry, or stays absent |
| TenzroBackend.LoadedPartyKeys | canton-devnet-demo/backend/server-tenzro.js:30-33 | after a load the keys are the old keys plus the listed parties' keys |
| TenzroBackend.PartyRegistry.constructor | canton-devnet-demo/backend/server-tenzro.js:27 | the party table starts empty |
| TenzroBackend.PartyRegistry.LoadParties | canton-devnet-demo/backend/server-tenzro.js:28-33 | the loop assigns each listed party's id under its key, in order; no list assigns nothing |
| TenzroBackend.PartyList | canton-devnet-demo/backend/server-tenzro.js:46-50 | one view per party in order, with `_` shown as spaces, the party id copied, and the regulator flag iff the name is exactly `FinCEN` |
| TenzroBackend.OnlyFinCENRegulates | canton-devnet-demo/backend/server-tenzro.js:49 | no display name containing an underscore is flagged as the regulator |
| TenzroBackend.ProfileFor | canton-devnet-demo/backend/server-tenzro.js:56-58 | `medium` and `low` select their profiles; a name every object inherits gives no profile; a missing or other scenario selects {0.78, 0.12} |
| TenzroBackend.Confidence | canton-devnet-demo/backend/server-tenzro.js:91 | the fraction is clamped to [0.15, 0.95], equal to the draw's value when already inside |
| TenzroBackend.Percent | canton-devnet-demo/backend/server-tenzro.js:105 | a clamped confidence records as an integer percentage in [15, 95], within half of it |
| TenzroBackend.ThreadKeepsInitial | canton-devnet-demo/backend/server-tenzro.js:79-103 | if no vote creates a contract, the market's original id survives |
| TenzroBackend.ThreadTakesLastCreated | canton-devnet-demo/backend/server-tenzro.js:79-103 | otherwise the final id is the first created id of the last vote that created one |
| TenzroBackend.TenzroVotes | canton-devnet-demo/backend/server-tenzro.js:81-105 | exactly five votes in `bankConfig` order with their stakes; each confidence is its own draw's clamped fraction rounded to a percent, `Math.round(clamp(base + (u - 0.5) * variance * 2) * 100)`, in [15, 95]; only FinCEN's is the regulator's |
| TenzroBackend.ActionFor | canton-devnet-demo/backend/server-tenzro.js:122 | BLOCK iff ≥ 80, REVIEW iff 60 ≤ score < 80, APPROVE iff < 60 |
| TenzroBackend.TenzroTotalStake | canton-devnet-demo/backend/server-tenzro.js:109 | the total stake is 1020, FinCEN's 300 included |
| TenzroBackend.StakeScoreWithin | canton-devnet-demo/backend/server-tenzro.js:109-111 | the stake-weighted score lies between whole-number bounds on the confidences |
| TenzroBackend.TenzroScoreBounds | canton-devnet-demo/backend/server-tenzro.js:109-111 | every run's score is the mean over all five votes, FinCEN included, so the division is defined, and it lies in [15, 95] |
| TenzroBackend.ExampleVotes | canton-devnet-demo/backend/server-tenzro.js:91-105 | with every bank drawing 0.5 and FinCEN 0.99, the banks vote 78 and FinCEN 90 |
| TenzroBackend.ExampleScore | canton-devnet-demo/backend/server-tenzro.js:109-111 | that run scores 81.5 over a stake of 1020 |
| TenzroBackend.ExampleBanksScore | canton-devnet-demo/backend/server-tenzro.js:109-111 | the four banks of that run alone score 78.0 |
| TenzroBackend.RegulatorTipsTheAction | canton-devnet-demo/backend/server-tenzro.js:109-122 | counting FinCEN's stake turns the banks' 78 (REVIEW) into 81.5 and BLOCK, where the reputation backend would ignore the regulator |
| TenzroBackend.VotesSoFar | canton-devnet-demo/backend/server-tenzro.js:90-106 | after k replies, k votes have been pushed |
| TenzroBackend.VotesSoFarAt | canton-devnet-demo/backend/server-tenzro.js:105 | the j-th pushed vote is the j-th configured party's vote |
| TenzroBackend.VotesSoFarComplete | canton-devnet-demo/backend/server-tenzro.js:90-106 | after all five replies the pushed votes are the run's five votes |
| TenzroBackend.CastVotes | canton-devnet-demo/backend/server-tenzro.js:90-106 | the loop succeeds iff every exercise answers, and then yields the threaded contract id and, with a profile, the five votes |
| TenzroBackend.DemoOutcome | canton-devnet-demo/backend/server-tenzro.js:55-127 | the run fails iff the creation or any exercise fails; with no profile it answers the threaded id and APPROVE; otherwise the market holds the five votes, the threaded id, the score over stake 1020 in [15, 95] and its action |
| TenzroBackend.RunDemo | canton-devnet-demo/backend/server-tenzro.js:64-127 | the handler creates, votes in a loop and scores, answering exactly that outcome |
| MarketView.MarketAction | frontend/src/App.tsx:168-170 | strict thresholds: BLOCK iff risk > 0.8, REVIEW iff 0.6 < risk ≤ 0.8, APPROVE iff risk ≤ 0.6 |
| MarketView.RiskBarColour | frontend/src/App.tsx:139 | red iff > 0.8, orange iff 0.6 < risk ≤ 0.8, green iff ≤ 0.6 |
| MarketView.ColourMatchesAction | frontend/src/App.tsx:139 | the bar's colour follows the panel's action, band for band |
| MarketView.StrictDiffersOnlyAtBoundaries | frontend/src/App.tsx:168-170 | the panel disagrees with the backends' inclusive action exactly at risks 0.8 and 0.6: 0.8 is REVIEW here and BLOCK there |
| MarketView.WeightedRiskWithin | frontend/src/App.tsx:152 | the unrounded weighted risk lies between the lowest and highest confidence |
| MarketView.SharesSumToOne | frontend/src/App.tsx:184 | the weight shares sum to one |
| MarketView.ShareWithin | frontend/src/App.tsx:184 | with non-negative stakes each share lies in [0, 1] |
| MarketView.MockPanel | frontend/src/App.tsx:151-170 | the mock data stakes 450, weighs 47/60, shows 78.3% and recommends REVIEW |
| ContractsApi.MapEntry | frontend/api/contracts.js:35-40 | an entry maps to `null` iff it has no `contractEntry` key, otherwise to its ids with `''` defaults |
| ContractsApi.MapEntries | frontend/api/contracts.js:34-40 | the first `map` keeps one record per entry, in order |
| ContractsApi.FilterAsWritten | frontend/api/contracts.js:41 | as written, the filter throws iff some record is `null` |
| ContractsApi.FilterKept | frontend/api/contracts.js:41 | the intended filter keeps exactly the non-null records whose template holds `:BankReputation:` or `:PredictionMarket:` |
| ContractsApi.FilterKeptAppend | frontend/api/contracts.js:41 | the filter keeps input order |
| ContractsApi.FilterAgreesWithoutNulls | frontend/api/contracts.js:41 | without `null` records the written filter keeps what the intended one keeps |
| ContractsApi.ViewOf | frontend/api/contracts.js:42-55 | id cut to 16 characters, template the second `:` field; reputation details iff that is `BankReputation`, with the bank cut at `::` and its `_` turned into spaces, and unparsable numbers as 0; otherwise `transactionId` and `isOpen` only |
| ContractsApi.Views | frontend/api/contracts.js:42-56 | the last `map` gives one summary per kept record, in order |
| ContractsApi.ContractsHandler | frontend/api/contracts.js:28-61 | as written: a failed call, or any entry without `contractEntry`, gives `success: false`; otherwise the total is the unfiltered count and the contracts are the summaries of the records the written filter keeps, in order |
| ContractsApi.CorrectedContractsHandler | frontend/api/contracts.js:28-61 | with the intended filter, only a failed call fails, the total still counts every entry, and the contracts are the summaries of exactly the recognised records, in input order |
| ContractsApi.NonArrayIsEmpty | frontend/api/contracts.js:32 | a non-array reply succeeds with no contracts and a total of 0 |
| ContractsApi.CorrectedKeepsRecognised | frontend/api/contracts.js:41-56 | every reported summary comes from an entry with a recognised template |
| ContractsApi.CorrectedReportsRecognised | frontend/api/contracts.js:34-56 | conversely, every entry with a recognised template is reported |
| ContractsApi.CorrectedAgreesWithoutNulls | frontend/api/contracts.js:34-58 | when every entry has a `contractEntry` the two handlers agree |
| ContractsApi.KeylessEntryFailsAll | frontend/api/contracts.js:36-60 | a single keyless entry fails the written handler with a total of 0, where the intended one reports 1 entry and no contracts |
| PartiesApi.ViewOf | frontend/api/parties.js:9-13 | the name is the id cut at its first `::` with `_` turned into spaces (the whole id when there is no `::`); the id is copied; the regulator flag is set iff the id starts with `Regulator` |
| PartiesApi.ViewOfQualified | frontend/api/parties.js:11 | `name::ns` with a colon-free name is listed under that name, underscores as spaces |
| PartiesApi.ListedViews | frontend/api/parties.js:7-13 | a view appears iff it is the view of an id that is not the validator's |
| PartiesApi.ListedViewsAppend | frontend/api/parties.js:8 | the filter keeps input order |
| PartiesApi.ListedViewsAll | frontend/api/parties.js:8-13 | without the validator, every id is listed in its own position |
| PartiesApi.PartiesHandler | frontend/api/parties.js:3-17 | fails iff the call fails; a missing `partyDetails` gives an empty list |
| PartiesApi.ValidatorHidden | frontend/api/parties.js:8 | for any list of parties, no listed view is the validator's |
| PartiesApi.ValidatorPartyDropped | frontend/api/parties.js:8 | a reply holding only the validator's party lists nothing |
| PartiesApi.RegulatorFlagged | frontend/api/parties.js:8-14 | `Regulator_FinCEN::…` is listed as "Regulator FinCEN" and flagged |
| PartiesApi.RegulatorName | frontend/api/parties.js:10 | `Regulator_FinCEN` reads "Regulator FinCEN" |

## Left out

- HTTP and ledger I/O are left out: routing, `fetch` with its timeouts, the ledger-end offset, `createPredictionMarket` in `demo.js`, and the Tenzro create/exercise requests. Each answer is a parameter. The `/api/health` endpoints are left out: each is one call and a count.
- Concurrency is left out. Each request, and each `startDemo`, runs to completion as one event, so concurrent requests racing on `marketCount`, the reputation cache or the party table are not modelled.
- React rendering, CSS and timer scheduling are left out. Each timer firing is a method of the page's class. Reveal timers armed before a reset can still fire afterwards (`RevealTimer` has no precondition on the step), but their delays and ordering are not modelled. The PDF export of `Demo.tsx` is a foreign library call and is left out.
- `RawConfidence` has no contract of its own. It is `base + (u - 0.5) * variance * 2`, and its bounds are stated through `DemoApi.BankConfidence`, `DemoApi.ClampIdleForScenarios` and `TenzroBackend.Confidence`.
- Floating point is left out. Sums and divisions are exact reals. `toFixed(1)` is read as the same one-decimal value as `Math.round(x * 1000) / 10` (`MarketView.DisplayedPercent`), and the 20-step counter has no rounding drift.
- `parseFloat` is an `Option<real>`. Its string grammar is not modelled.
- `Text.ToLowerAscii`: lower-cases ASCII letters only. Other Unicode case mappings of `toLowerCase` are not modelled.
- Transaction ids, market ids, `Date.now()` and `toLocaleTimeString()` are parameters, not generated.
- Static display data is left out: amount, destination, risk flags, `parties: 5`, the mode strings, the fraud patterns and the stat cards.
- The handler's `catch` branch in `demo.js` is not reachable in the model: `loadReputations` never throws, and the total weight is at least 2.
- A failed party load in `server-tenzro.js` is left out. It is an unhandled rejection there, and the model assumes `tenzro` answers.
- `createdContractIds` is an optional list of strings. A non-array value there is not modelled.
- `MarketView.WeightedRisk`: requires a non-zero total stake. The NaN that JavaScript gives for an empty panel is not modelled.
- A `null` item in the ledger's array, or a `null` value under the first key of a `contractEntry`, is not modelled. In `demo.js` either makes the loop of `loadReputations` throw (`frontend/api/demo.js:28-30`), which then returns the fallback table (lines 39-40); in `contracts.js` it makes the first `map` throw (`frontend/api/contracts.js:36-38`), so the whole reply is `success: false`.
- Created-event fields are typed options. In `demo.js`, `String(ce.templateId)` of a missing id is `"undefined"` (line 31), which does not match; `contracts.js` reads `ce.templateId || ''` instead (line 39). A non-string template id is not modelled.
- `DemoApi.ProfileFor`: for a scenario named after an inherited member the model keeps the weights and the APPROVE action (`DemoApi.Response.UnscoredReply`) but does not represent the votes' NaN confidences or the NaN risk score. A scenario that is not a string (a number, an object) is not modelled.
- `TenzroBackend.ProfileFor`: for a scenario named after an inherited member the model keeps the threaded contract id and the APPROVE action (`TenzroBackend.DemoResponse.DemoUnscored`) but not the five votes, whose confidences are NaN, nor the `"NaN"` confidence strings sent to the ledger. A scenario that is not a string is not modelled.
- In `server-tenzro.js` the four banks carry no `isRegulator` field, and the model writes `false` for them.

## Findings

| source | as written | input that shows it | evidently intended | confidence | as-written member | corrected member |
|---|---|---|---|---|---|---|
| frontend/src/Demo.tsx:29-30 | the running score sums `v.stake`, but the `demo.js` backend sends each vote's weight as `weight` (frontend/api/demo.js:94), so every counted stake is undefined and the live score shows 0 | any `POST /api/demo` reply of `demo.js`, with every vote revealed | weigh each vote by `stake`, or by `weight` when no stake is sent, so that at full reveal the page shows the backend's own score | not executed | DemoView.RunningScoreIgnoresApiWeights | DemoView.CorrectedMatchesServer |
| frontend/api/contracts.js:41 | `c && A \|\| B` parses as `(c && A) \|\| B`, so a `null` record reaches `c.templateId` and throws, and the whole reply becomes `success: false` with `totalContracts: 0` | one active-contract entry without a `contractEntry` field | `c && (A \|\| B)`: skip the null record and keep the others | not executed | ContractsApi.KeylessEntryFailsAll | ContractsApi.CorrectedAgreesWithoutNulls |
