/** Data model of the loop-strategy keeper: the event payload handed to the
    handler, the match records it returns, the states reported by the checks,
    the blockchain reads it depends on and the static configuration tables. */
module KeeperTypes {

  datatype Option<+T> = None | Some(value: T)

  /** Why a handler invocation throws. Reads against contracts and the store
      may fail with an error of their own choosing; the handler rethrows it. */
  datatype Error =
    | InvalidAddress(input: string)      // ethers.utils.getAddress rejects its input
    | MissingArgument(index: nat)        // reason.args has no entry at this index
    | MissingThreshold(strategy: string) // strategyInterestThreshold[strategy] is undefined
    | StoreUnavailable                   // a key-value store write fails
    | CallFailed(call: string, target: string)

  datatype Result<+T> = Ok(value: T) | Err(error: Error)

  /** What an evaluator that only pushes onto `matches` reports back. */
  datatype Outcome = Pass | Fail(error: Error)

  /** The matches a successful evaluation contributes; none on failure. */
  function Contribution<T>(r: Result<seq<T>>): seq<T>
  {
    if r.Ok? then r.value else []
  }

  function OutcomeOf<T>(r: Result<T>): Outcome
  {
    if r.Ok? then Pass else Fail(r.error)
  }

  type Address = string
  type Hash = string

  /** Contents of the key-value store: last persisted equity-per-share by strategy. */
  type EpsTable = map<Address, int>

  /** One decoded log that made the monitor fire: its event signature, the
      emitting contract and the decoded arguments. */
  datatype Reason = Reason(signature: string, address: string, args: seq<string>)

  datatype Event = Event(hash: Hash, matchReasons: seq<Reason>)

  /** States reported by the checks module; only the flags drive the evaluators. */
  datatype RiskState = RiskState(isAtRisk: bool, healthFactor: int)
  datatype ExposureState = ExposureState(isOverExposed: bool, current: int, min: int)
  datatype EPSState = EPSState(hasEPSDecreased: bool, previous: int, current: int)
  datatype OracleState = OracleState(isOut: bool)

  /** The oracle's latestAnswer; the handler only ever compares it with `=== 1`. */
  datatype Answer = Answer(isNumberOne: bool)

  /** The 15-field tuple returned by getReserveData, address fields as integers. */
  const ReserveDataFields: nat := 15
  const VariableBorrowRateField: nat := 3

  type ReserveData = s: seq<int> | |s| == ReserveDataFields
    witness [0, 0, 0, 0, 0, 0, 0, 0, 0, 0, 0, 0, 0, 0, 0]

  /** The evaluator-specific part of a match's metadata. */
  datatype Payload =
    | RiskFinding(riskState: RiskState)
    | ExposureFinding(exposureState: ExposureState)
    | EPSFinding(epsState: EPSState)
    | PriceUpdateFinding(strategiesToRebalance: seq<Address>, oracleState: OracleState, isSequencerOut: bool)
    | BorrowRateFinding(reserve: Address, currBorrowRate: int, affectedStrategies: seq<Address>)

  datatype Metadata = Metadata(matchType: string, payload: Payload)

  datatype Match = Match(hash: Hash, metadata: Metadata)

  /** Everything the handler learns from outside: address normalisation, the
      checks module, contract reads and whether store writes go through. Each
      read is a total function of its arguments, so one invocation sees one
      snapshot of the chain. */
  datatype Chain = Chain(
    getAddress: string -> Option<Address>,
    isStrategyAtRisk: (Address, int) -> Result<RiskState>,
    isStrategyOverexposed: Address -> Result<ExposureState>,
    hasEPSDecreased: (EpsTable, Address) -> Result<EPSState>,
    isOracleOut: (EpsTable, Address) -> Result<OracleState>,
    latestAnswer: Address -> Result<Answer>,
    equityPerShare: Address -> Result<int>,
    rebalanceNeeded: Address -> Result<bool>,
    getReserveData: (Address, Address) -> Result<ReserveData>,
    storeWritable: bool)

  /** The static tables of a deployment. */
  datatype Config = Config(
    oracleToStrategies: map<Address, seq<Address>>,
    strategyInterestThreshold: map<Address, int>,
    debtTokenToStrategies: map<Address, seq<Address>>,
    healthFactorThreshold: int)

  /** The result of evaluating one reason, or a batch of them: the matches
      contributed (or the error thrown) and the store contents afterwards.
      The store keeps writes made before a failure. */
  datatype Step = Step(out: Result<seq<Match>>, eps: EpsTable)
}
