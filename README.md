# Loop-strategy keeper filter, in Dafny

This project models the match-building core of the keeper's condition
filter, `keeper/src/filters/loopStrategy.js`. A monitor delivers a batch of
blockchain events, each with its match reasons. The exported `handler`
walks the events in order and, inside each event, its match reasons in
order. It hands each reason to one of three evaluators, chosen by the
reason's event signature:

- strategy `Withdraw`/`Deposit`: the health-factor, exposure and
  equity-per-share (EPS) checks;
- Chainlink `AnswerUpdated`: refresh the stored EPS of every strategy the
  oracle is mapped to, collect those needing a rebalance, and check for an
  oracle outage and the sequencer sentinel;
- Aave pool actions: compare the reserve's variable borrow rate against
  each mapped strategy's interest threshold.

The evaluators push "matches" (event hash plus typed metadata) onto one
shared list, which the handler returns. The first error in any evaluator
is rethrown and ends the whole batch.

Files:

- `keeper_types.dfy`: the values. Addresses, reasons, events, the check
  states, match payloads, the deployment tables (`Config`) and the abstract
  chain (`Chain`). Every contract read and every checks/utils helper except
  `updateEPS` is a total function field returning `Result`. Address
  normalisation (`getAddress`) returns `Option`. `updateEPS` is the store
  write itself, a map update gated by the boolean `storeWritable`.
- `seqs.dfy`: `Filter`, the order-preserving reference selection, and the
  `Sublist` relation.
- `state.dfy`: the two things the source changes in place. These are the
  `matches` array (`MatchBuffer`, append only) and the key-value store
  (`KeyValueStore`, a map from strategy to last EPS).
- `evaluators.dfy`: each evaluator twice. First as a function from the inputs
  to the matches it contributes and the new store, which the properties are
  proved about. Then as a method over the buffer and the store, written the
  way the source runs, whose `ensures` ties it to that function.
- `dispatcher.dfy`: the signature constants, the three guarded `try` blocks,
  the batch semantics `Run` over the (event, reason) pairs, and the nested
  loops of `handler`.
- `deployment.dfy`: the Base deployment's hard-coded tables and what they
  imply.

## Model

| member | source | states |
|---|---|---|
| Evaluators.CreateMatch | keeper/src/filters/loopStrategy.js:75-83 | the match carries the given hash, and its metadata carries the given type and payload; no payload has a `type` key, so the spread never overrides the type |
| State.MatchBuffer.Push | keeper/src/filters/loopStrategy.js:110 | `matches.push` appends exactly one match at the end and changes nothing else |
| State.KeyValueStore.Set | keeper/src/filters/loopStrategy.js:130 | `updateEPS` sets the strategy's stored EPS (its new value) and leaves every other key as it was |
| Evaluators.WithdrawOrDepositFindingsShape | keeper/src/filters/loopStrategy.js:109-117 | one match per raised flag and none otherwise. Each match carries the event hash, the reason type and the matching state. The matches come in the order risk, exposure, EPS, and each one is present iff its flag is set |
| Evaluators.EvalWithdrawOrDeposit | keeper/src/filters/loopStrategy.js:85-118 | an invalid strategy address fails with `InvalidAddress` of that input, and a success pushes at most three matches (the full case split is `WithdrawOrDepositOutcome`) |
| Evaluators.WithdrawOrDepositOutcome | keeper/src/filters/loopStrategy.js:94-117 | an invalid strategy address fails with that address. Otherwise a failing check's own error is the evaluator's error, the first failing one in the array order risk, exposure, EPS. The evaluator succeeds iff the address is valid and all three checks succeed, and its matches are then exactly `WithdrawOrDepositFindings` of the three states (so the order and payloads of `WithdrawOrDepositFindingsShape` apply): one match per raised flag, tagged with hash and reason type |
| Evaluators.HandleWithdrawOrDeposit | keeper/src/filters/loopStrategy.js:85-118 | the imperative evaluator: its error is the function's error, it appends exactly the function's findings to `matches`, and it does not touch the store |
| Evaluators.ScanOne | keeper/src/filters/loopStrategy.js:127-134 | one iteration succeeds iff the EPS read, the store write and rebalanceNeeded all succeed. On success the strategy is appended to the list iff rebalanceNeeded is true. The store gets the strategy's EPS exactly when the read and the write succeed, even if rebalanceNeeded then fails |
| Evaluators.ScanStrategies | keeper/src/filters/loopStrategy.js:124-135 | the per-strategy loop succeeds iff every EPS read, store write and rebalanceNeeded read succeeds. On success it selects exactly `Filter(strategies, rebalanceNeeded)` and writes each strategy's current EPS. Every key it changes is a mapped strategy holding that strategy's EPS, and no key is removed |
| Evaluators.ScanStopsOnError | keeper/src/filters/loopStrategy.js:126-135 | once the loop has stopped on an error, later strategies add no reads, writes or results |
| Evaluators.ScanErrorSource | keeper/src/filters/loopStrategy.js:126-135 | a failed loop's error is one mapped strategy's rejected `equityPerShare` or `rebalanceNeeded`, or `StoreUnavailable` from a refused write |
| Evaluators.ScanAndRecord | keeper/src/filters/loopStrategy.js:124-135 | the `for` loop over the mapped strategies, writing the store in place; its result and final store are those of `ScanStrategies` |
| Evaluators.EvalPriceUpdate | keeper/src/filters/loopStrategy.js:120-151 | the evaluator succeeds iff the oracle address is valid, `latestAnswer` succeeds, every read and write of the per-strategy loop succeeds, and `isOracleOut` succeeds on the store after the loop; any rejection is rethrown, never swallowed. The error is the rejection itself: `InvalidAddress` of the input, `latestAnswer`'s error, the loop's error, or `isOracleOut`'s error. Once `latestAnswer` has succeeded, the store afterwards is the loop's store, whether the evaluator succeeds or fails (writes before a rejection persist, nothing else is written). Before that, it is the old store. A success gives at most one match. That match has type `priceUpdate` and the event hash, and its `strategiesToRebalance` is exactly the mapped strategies needing a rebalance, in table order. Its `oracleState` is what `isOracleOut` returns on the store after the loop, and its `isSequencerOut` is the `latestAnswer === 1` test. No store key is removed |
| Evaluators.PriceUpdateEmitsIff | keeper/src/filters/loopStrategy.js:137-150 | when all reads succeed, one match is emitted iff some mapped strategy needs a rebalance, or the oracle is out, or the answer is the sequencer sentinel. Every mapped strategy's EPS is in the store |
| Evaluators.UnmappedOracle | keeper/src/filters/loopStrategy.js:126 | an oracle absent from `oracleToStrategies` (falling back to the empty list) writes nothing to the store and reports no strategies to rebalance. On success it emits a match iff the oracle is out or the answer is the sequencer sentinel |
| Evaluators.HandlePriceUpdate | keeper/src/filters/loopStrategy.js:120-151 | the imperative evaluator: its outcome, final store and appended matches are those of `EvalPriceUpdate` |
| Evaluators.AffectedStrategies | keeper/src/filters/loopStrategy.js:166-168 | the `.filter` throws iff some mapped strategy has no threshold, and the error names such a strategy. Otherwise it keeps exactly the strategies whose threshold is strictly below the rate, in order |
| Evaluators.EqualThresholdNotAffected | keeper/src/filters/loopStrategy.js:167 | `.lt` is strict: a threshold equal to the live rate does not mark the strategy |
| Evaluators.EvalPoolAction | keeper/src/filters/loopStrategy.js:153-183 | the evaluator succeeds iff `args[0]` exists and is a valid address and, for a reserve in `debtTokenToStrategies`, the pool address is valid, `getReserveData` succeeds and every mapped strategy has a threshold. Every failure is rethrown with its own error: `MissingArgument(0)`, `InvalidAddress` of `args[0]` or of the pool address, `getReserveData`'s error, or `MissingThreshold` of a mapped strategy without a threshold. A success gives at most one match. It has type `borrowRate` and the event hash, its reserve is a key of `debtTokenToStrategies`, and its affected list is non-empty |
| Evaluators.UnmappedReserve | keeper/src/filters/loopStrategy.js:157 | a reserve outside `debtTokenToStrategies` yields no match and needs neither the pool address nor the reserve data |
| Evaluators.PoolActionEmitsIff | keeper/src/filters/loopStrategy.js:163-181 | for a mapped reserve whose reads succeed, a match is emitted iff some mapped strategy's threshold is below field 3 of the reserve data. Its payload is the reserve, that rate, and exactly the strategies below it |
| Evaluators.HandlePoolAction | keeper/src/filters/loopStrategy.js:153-183 | the imperative evaluator: its outcome and appended matches are those of `EvalPoolAction` |
| Dispatcher.SignaturesDistinct | keeper/src/filters/loopStrategy.js:11-18 | the eight event signatures are pairwise distinct (the strategy and pool `Withdraw` differ in arity) |
| Dispatcher.AtMostOneEvaluator | keeper/src/filters/loopStrategy.js:197-251 | the three guards are mutually exclusive, and a signature is known iff one of them holds |
| Dispatcher.EvalReason | keeper/src/filters/loopStrategy.js:194-251 | the three guarded blocks in order, the first failure rethrown. Only a price-update reason can change the store, and no reason removes a store key (for routing per signature see `EvalReasonRoutes`) |
| Dispatcher.EvalReasonRoutes | keeper/src/filters/loopStrategy.js:197-251 | a reason's result is exactly that of the evaluator its signature selects (with 'withdraw'/'deposit' chosen by signature). An unknown signature contributes nothing and leaves the store unchanged |
| Dispatcher.EvalReasonTagged | keeper/src/filters/loopStrategy.js:197-251 | every match a reason contributes carries the event hash and the type its signature selects |
| Dispatcher.Run | keeper/src/filters/loopStrategy.js:192-253 | the nested loops over the (event, reason) pairs. No store key is ever removed, and a batch without price-update reasons leaves the store unchanged; the lemmas below state its error and ordering behaviour |
| Dispatcher.RunErrorIsFinal | keeper/src/filters/loopStrategy.js:213-215 | after a rethrown error, no later reason changes the outcome or the store |
| Dispatcher.FailingReasonFailsBatch | keeper/src/filters/loopStrategy.js:213-251 | a failing reason makes the whole batch fail with its error; no partial `matches` list is returned |
| Dispatcher.RunAppendOnly | keeper/src/filters/loopStrategy.js:187-255 | the matches of a prefix of the batch are a prefix of the matches of the whole batch |
| Dispatcher.UnknownReasonSkipped | keeper/src/filters/loopStrategy.js:197-251 | a reason with none of the eight signatures leaves the batch's result and store as they were |
| Dispatcher.RunTagged | keeper/src/filters/loopStrategy.js:192-255 | every returned match carries the hash of a processed pair and the type that pair's signature selects |
| Dispatcher.HandlerResult | keeper/src/filters/loopStrategy.js:185-256 | the handler's result on a batch of events. The store keeps every key it had, and is untouched when no event carries an `AnswerUpdated` reason |
| Dispatcher.HandlerMatchesTagged | keeper/src/filters/loopStrategy.js:185-256 | every match the handler returns carries the hash of one of the events and the type selected by one of that event's reasons |
| Dispatcher.HandlerAppendOnly | keeper/src/filters/loopStrategy.js:192-255 | processing events a then b extends a's match list; a successful batch implies each prefix of it succeeds |
| Dispatcher.ReasonExtendsRun | keeper/src/filters/loopStrategy.js:193-251 | one more reason either extends the batch's matches by its contribution or, when it fails, is the result of the rest of its event |
| Dispatcher.EventFailureEndsHandler | keeper/src/filters/loopStrategy.js:192-255 | a failure within the i-th event is the handler's final result |
| Dispatcher.HandleReason | keeper/src/filters/loopStrategy.js:194-251 | the three guarded `try` blocks, run in place: the outcome, store and appended matches are those of `EvalReason` |
| Dispatcher.HandleEvent | keeper/src/filters/loopStrategy.js:193-252 | the inner loop over one event's reasons continues the batch exactly as `Run` does over that event's pairs |
| Dispatcher.Handler | keeper/src/filters/loopStrategy.js:185-256 | the handler, with a fresh `matches` list and the store updated in place. It returns exactly `Run` over all (event, reason) pairs in order, and leaves the store as `Run` does |
| Deployment.DeployedThresholdLookupTotal | keeper/src/filters/loopStrategy.js:26-49 | `DeployedConfig` holds the three tables and the health-factor threshold (1.1·10^8) as hard-coded. Every strategy in the deployed debt-token table has a threshold, so the lookup never throws. WETH flags its loop iff the rate exceeds 3·10^27, USDC iff it exceeds 5·10^27 |
| Deployment.EthUsdRebalanceSelectsOne | keeper/src/filters/loopStrategy.js:26-33 | ETH-USD maps to `[wstETH/WETH, WETH/USDC]`. When both rebalanceNeeded reads succeed with different answers, the filtered list is each single strategy exactly when that one answered true. A successful price update from that feed emits one match listing it |
| Deployment.AsWrittenThresholdsMissFourPercent | keeper/src/filters/loopStrategy.js:35-42 | with the deployed thresholds, a 4% variable borrow rate affects neither strategy |
| Deployment.IntendedThresholdsFlagFourPercent | keeper/src/filters/loopStrategy.js:35-42 | with 3% and 5% in RAY, a 4% rate affects exactly the 3% strategy, and any rate affects each strategy iff it exceeds its threshold |

## Left out

- Console logging, including the "There was an error during … check flow"
  messages before each rethrow: it is output only and changes no result.
- The `checks` and `utils` helpers (`isStrategyAtRisk`,
  `isStrategyOverexposed`, `hasEPSDecreased`, `isOracleOut`,
  `equityPerShare`) are not part of this model. Each is an abstract field of
  `Chain` returning a state or an error. `hasEPSDecreased` and `isOracleOut`
  see the current store contents, and the checks are assumed not to write
  the store themselves.
- `updateEPS` is not a `Chain` field. It is modelled as the store write
  itself: the map update `eps[s := v]` in `ScanOne`, `KeyValueStore.Set` in
  `ScanAndRecord`. It fails, with `StoreUnavailable`, only when the store as
  a whole is unwritable (the single boolean `storeWritable`). A write that
  fails for one key but not another is not modelled.
- `ethers.utils.getAddress` (checksumming) is abstract: `getAddress` maps a
  string to a normalised address or to nothing, and nothing raises
  `InvalidAddress`.
- Concurrency of `Promise.all`: the three checks are read in array order and
  the first failure in that order is the one reported. The source has all
  three in flight at once and rejects with whichever fails first in time.
- `latestAnswer === 1` compares an ethers BigNumber with the number 1, which
  is never strictly equal in ethers v5. The model keeps the comparison as an
  abstract boolean (`Answer.isNumberOne`) and does not decide it.
- JavaScript's `in` and object lookup also see prototype keys such as
  `constructor`. The tables are modelled as maps holding only their own
  keys.
- The 15-field tuple returned by `getReserveData` is modelled as 15
  integers, of which field 3 is used; ABI decoding and the address fields
  are not modelled.
- The provider, the RPC URL, the contract handles and the ABIs are not
  modelled. The payload is reduced to its events, and the store client's
  credentials are dropped.
- Chain state is one snapshot: every contract read in `Chain` is a fixed
  function of its arguments for the whole invocation. The source issues
  separate RPC calls, which may be served from different blocks, so the same
  read repeated within one batch could differ there.
- `EvalPoolAction`: with no first argument, `reason.args[0]` is `undefined`
  and `getAddress` throws. The model reports `MissingArgument(0)`.
- The older variant `keeper/filters/loopStrategy.js` and the test file
  `keeper/test/utils.t.js` are not part of this model.

## Findings

| source | as written | input that shows it | evidently intended | confidence | as-written member | corrected member |
|---|---|---|---|---|---|---|
| keeper/src/filters/loopStrategy.js:35-42 | thresholds `parseUnits('3.0', 27)` and `parseUnits('5.0', 27)`, i.e. 3·10^27 and 5·10^27, which are 300% and 500% in RAY | a reserve whose variable borrow rate is 4% (4·10^25 in RAY) yields no affected strategy | the comments say 3% and 5% in RAY, i.e. 3·10^25 and 5·10^25, so a 4% rate should flag the 3% strategy | not executed | Deployment.AsWrittenThresholdsMissFourPercent | Deployment.IntendedThresholdsFlagFourPercent |
