/** The three evaluators of keeper/src/filters/loopStrategy.js. Each is given
    twice: as a function from the inputs to the matches it contributes (the
    specification, about which the properties are proved), and as a method
    that pushes onto the shared `matches` buffer and writes the store the way
    the source does, proved to agree with the function. */
module Evaluators {
  import opened KeeperTypes
  import opened Seqs
  import opened State

  const PriceUpdateType := "priceUpdate"
  const BorrowRateType := "borrowRate"

  /** createMatch: the event hash plus a metadata record whose `type` is the
      given type. None of the payloads has a key named `type`, so the spread
      in the source never overrides it. */
  function CreateMatch(hash: Hash, matchType: string, payload: Payload): (m: Match)
    ensures m.hash == hash && m.metadata.matchType == matchType && m.metadata.payload == payload
  {
    Match(hash, Metadata(matchType, payload))
  }

  // ---------------------------------------------------------------------------
  // Withdraw / deposit

  function Flag(b: bool): nat
  {
    if b then 1 else 0
  }

  /** Position of a finding in the withdraw/deposit evaluator's fixed order. */
  function FindingRank(p: Payload): nat
  {
    match p
    case RiskFinding(_) => 0
    case ExposureFinding(_) => 1
    case EPSFinding(_) => 2
    case _ => 3
  }

  /** One conditional push. */
  function PushIf(flag: bool, m: Match): (r: seq<Match>)
    ensures |r| == Flag(flag)
    ensures forall x :: x in r <==> flag && x == m
  {
    if flag then [m] else []
  }

  /** The matches pushed once the three check results are known. */
  function WithdrawOrDepositFindings(hash: Hash, reasonType: string, risk: RiskState,
                                     exposure: ExposureState, eps: EPSState): seq<Match>
  {
    PushIf(risk.isAtRisk, CreateMatch(hash, reasonType, RiskFinding(risk)))
    + PushIf(exposure.isOverExposed, CreateMatch(hash, reasonType, ExposureFinding(exposure)))
    + PushIf(eps.hasEPSDecreased, CreateMatch(hash, reasonType, EPSFinding(eps)))
  }

  /** One match per raised flag, in the order risk, exposure, EPS, each
      carrying its own state, the event hash and the reason type. */
  lemma WithdrawOrDepositFindingsShape(hash: Hash, reasonType: string, risk: RiskState,
                                       exposure: ExposureState, eps: EPSState)
    ensures var r := WithdrawOrDepositFindings(hash, reasonType, risk, exposure, eps);
      && |r| == Flag(risk.isAtRisk) + Flag(exposure.isOverExposed) + Flag(eps.hasEPSDecreased)
      && (forall m :: m in r ==> m.hash == hash && m.metadata.matchType == reasonType)
      && (forall m :: m in r ==>
            m.metadata.payload == RiskFinding(risk) || m.metadata.payload == ExposureFinding(exposure) ||
            m.metadata.payload == EPSFinding(eps))
      && (forall i, j :: 0 <= i < j < |r| ==>
            FindingRank(r[i].metadata.payload) < FindingRank(r[j].metadata.payload))
      && (risk.isAtRisk <==> CreateMatch(hash, reasonType, RiskFinding(risk)) in r)
      && (exposure.isOverExposed <==> CreateMatch(hash, reasonType, ExposureFinding(exposure)) in r)
      && (eps.hasEPSDecreased <==> CreateMatch(hash, reasonType, EPSFinding(eps)) in r)
  {
    var first := PushIf(risk.isAtRisk, CreateMatch(hash, reasonType, RiskFinding(risk)));
    var second := PushIf(exposure.isOverExposed, CreateMatch(hash, reasonType, ExposureFinding(exposure)));
    var third := PushIf(eps.hasEPSDecreased, CreateMatch(hash, reasonType, EPSFinding(eps)));
    assert forall m :: m in first + second + third <==> m in first || m in second || m in third;
  }

  /** handleWithdrawOrDeposit: normalise the strategy address, run the three
      checks (their Promise.all taken in array order), then report findings. */
  function EvalWithdrawOrDeposit(cfg: Config, chain: Chain, eps: EpsTable, reasonType: string,
                                 reason: Reason, hash: Hash): (r: Result<seq<Match>>)
    ensures chain.getAddress(reason.address).None? ==> r == Err(InvalidAddress(reason.address))
    ensures r.Ok? ==> |r.value| <= 3
  {
    match chain.getAddress(reason.address)
    case None => Err(InvalidAddress(reason.address))
    case Some(strategy) =>
      var risk := chain.isStrategyAtRisk(strategy, cfg.healthFactorThreshold);
      var exposure := chain.isStrategyOverexposed(strategy);
      var epsState := chain.hasEPSDecreased(eps, strategy);
      if risk.Err? then Err(risk.error)
      else if exposure.Err? then Err(exposure.error)
      else if epsState.Err? then Err(epsState.error)
      else Ok(WithdrawOrDepositFindings(hash, reasonType, risk.value, exposure.value, epsState.value))
  }

  /** The evaluator fails exactly when the address is invalid or one of the
      three checks fails; otherwise it reports one match per raised flag. */
  lemma WithdrawOrDepositOutcome(cfg: Config, chain: Chain, eps: EpsTable, reasonType: string,
                                 reason: Reason, hash: Hash)
    ensures var r := EvalWithdrawOrDeposit(cfg, chain, eps, reasonType, reason, hash);
      && (chain.getAddress(reason.address).None? ==> r == Err(InvalidAddress(reason.address)))
      && (chain.getAddress(reason.address).Some? ==>
            var s := chain.getAddress(reason.address).value;
            var risk := chain.isStrategyAtRisk(s, cfg.healthFactorThreshold);
            var exposure := chain.isStrategyOverexposed(s);
            var epsState := chain.hasEPSDecreased(eps, s);
            && (risk.Err? ==> r == Err(risk.error))
            && (risk.Ok? && exposure.Err? ==> r == Err(exposure.error))
            && (risk.Ok? && exposure.Ok? && epsState.Err? ==> r == Err(epsState.error)))
      && (r.Ok? <==>
            chain.getAddress(reason.address).Some? &&
            var s := chain.getAddress(reason.address).value;
            chain.isStrategyAtRisk(s, cfg.healthFactorThreshold).Ok? &&
            chain.isStrategyOverexposed(s).Ok? &&
            chain.hasEPSDecreased(eps, s).Ok?)
      && (r.Ok? ==>
            var s := chain.getAddress(reason.address).value;
            var risk := chain.isStrategyAtRisk(s, cfg.healthFactorThreshold).value;
            var exposure := chain.isStrategyOverexposed(s).value;
            var epsState := chain.hasEPSDecreased(eps, s).value;
            && r.value == WithdrawOrDepositFindings(hash, reasonType, risk, exposure, epsState)
            && |r.value| == Flag(risk.isAtRisk) + Flag(exposure.isOverExposed) + Flag(epsState.hasEPSDecreased)
            && (forall m :: m in r.value ==> m.hash == hash && m.metadata.matchType == reasonType))
  {
    match chain.getAddress(reason.address)
    case None =>
    case Some(s) =>
      var risk := chain.isStrategyAtRisk(s, cfg.healthFactorThreshold);
      var exposure := chain.isStrategyOverexposed(s);
      var epsState := chain.hasEPSDecreased(eps, s);
      if risk.Ok? && exposure.Ok? && epsState.Ok? {
        WithdrawOrDepositFindingsShape(hash, reasonType, risk.value, exposure.value, epsState.value);
      }
  }

  method HandleWithdrawOrDeposit(cfg: Config, chain: Chain, store: KeyValueStore, reasonType: string,
                                 reason: Reason, evtHash: Hash, matches: MatchBuffer)
    returns (outcome: Outcome)
    modifies matches
    ensures var r := EvalWithdrawOrDeposit(cfg, chain, store.eps, reasonType, reason, evtHash);
      outcome == OutcomeOf(r) && matches.items == old(matches.items) + Contribution(r)
  {
    var address := chain.getAddress(reason.address);
    if address.None? {
      return Fail(InvalidAddress(reason.address));
    }
    var strategy := address.value;
    var riskState := chain.isStrategyAtRisk(strategy, cfg.healthFactorThreshold);
    var exposureState := chain.isStrategyOverexposed(strategy);
    var epsState := chain.hasEPSDecreased(store.eps, strategy);
    if riskState.Err? {
      return Fail(riskState.error);
    }
    if exposureState.Err? {
      return Fail(exposureState.error);
    }
    if epsState.Err? {
      return Fail(epsState.error);
    }
    if riskState.value.isAtRisk {
      matches.Push(CreateMatch(evtHash, reasonType, RiskFinding(riskState.value)));
    }
    if exposureState.value.isOverExposed {
      matches.Push(CreateMatch(evtHash, reasonType, ExposureFinding(exposureState.value)));
    }
    if epsState.value.hasEPSDecreased {
      matches.Push(CreateMatch(evtHash, reasonType, EPSFinding(epsState.value)));
    }
    return Pass;
  }

  // ---------------------------------------------------------------------------
  // Price update

  /** `oracleToStrategies[oracle] || []`. */
  function MappedStrategies(table: map<Address, seq<Address>>, key: Address): seq<Address>
  {
    if key in table then table[key] else []
  }

  function NeedsRebalance(chain: Chain): Address -> bool
  {
    s => chain.rebalanceNeeded(s) == Ok(true)
  }

  /** Every read and write the per-strategy loop issues goes through. */
  ghost predicate ScanSucceeds(chain: Chain, strategies: seq<Address>)
  {
    (|strategies| == 0 || chain.storeWritable) &&
    forall s :: s in strategies ==> chain.equityPerShare(s).Ok? && chain.rebalanceNeeded(s).Ok?
  }

  /** State of the per-strategy loop: the strategies found to need a
      rebalance so far (or the error that stopped it) and the store. */
  datatype Scan = Scan(toRebalance: Result<seq<Address>>, eps: EpsTable)

  /** One iteration: read the EPS, write it to the store, ask rebalanceNeeded. */
  function ScanOne(chain: Chain, s: Address, found: seq<Address>, eps: EpsTable): (r: Scan)
    ensures r.toRebalance.Ok? <==>
      chain.equityPerShare(s).Ok? && chain.storeWritable && chain.rebalanceNeeded(s).Ok?
    ensures r.toRebalance.Ok? ==>
      r.toRebalance.value == found + (if chain.rebalanceNeeded(s).value then [s] else [])
    ensures r.eps == if chain.equityPerShare(s).Ok? && chain.storeWritable
                     then eps[s := chain.equityPerShare(s).value] else eps
  {
    match chain.equityPerShare(s)
    case Err(e) => Scan(Err(e), eps)
    case Ok(v) =>
      if !chain.storeWritable then Scan(Err(StoreUnavailable), eps)
      else
        match chain.rebalanceNeeded(s)
        case Err(e) => Scan(Err(e), eps[s := v])
        case Ok(b) => Scan(Ok(if b then found + [s] else found), eps[s := v])
  }

  /** The loop of handlePriceUpdate over the strategies mapped to the oracle,
      run up to the end of `strategies`. */
  function ScanStrategies(chain: Chain, strategies: seq<Address>, eps: EpsTable): (r: Scan)
    ensures r.toRebalance.Ok? <==> ScanSucceeds(chain, strategies)
    ensures r.toRebalance.Ok? ==> r.toRebalance.value == Filter(strategies, NeedsRebalance(chain))
    ensures forall k :: k in eps ==> k in r.eps
    ensures forall k :: k in r.eps ==>
      (k in eps && r.eps[k] == eps[k]) || (k in strategies && chain.equityPerShare(k) == Ok(r.eps[k]))
    ensures r.toRebalance.Ok? ==>
      forall k :: k in strategies ==> k in r.eps && chain.equityPerShare(k) == Ok(r.eps[k])
    decreases |strategies|
  {
    if |strategies| == 0 then Scan(Ok([]), eps)
    else
      var init := strategies[..|strategies| - 1];
      var last := strategies[|strategies| - 1];
      assert strategies == init + [last];
      var prev := ScanStrategies(chain, init, eps);
      if prev.toRebalance.Err? then prev
      else
        FilterSnoc(init, last, NeedsRebalance(chain));
        ScanOne(chain, last, prev.toRebalance.value, prev.eps)
  }

  /** Once the loop has stopped on an error, later strategies change nothing. */
  lemma {:induction false} ScanStopsOnError(chain: Chain, strategies: seq<Address>, i: nat, eps: EpsTable)
    requires i <= |strategies|
    requires ScanStrategies(chain, strategies[..i], eps).toRebalance.Err?
    ensures ScanStrategies(chain, strategies, eps) == ScanStrategies(chain, strategies[..i], eps)
    decreases |strategies| - i
  {
    if i < |strategies| {
      assert strategies[..i + 1][..i] == strategies[..i];
      ScanStopsOnError(chain, strategies, i + 1, eps);
    } else {
      assert strategies[..i] == strategies;
    }
  }

  /** A failed loop reports the rejection of one of its mapped strategies'
      reads, or the store's refusal of a write. */
  lemma {:induction false} ScanErrorSource(chain: Chain, strategies: seq<Address>, eps: EpsTable)
    ensures var r := ScanStrategies(chain, strategies, eps);
      r.toRebalance.Err? ==>
        exists s :: (s in strategies &&
          (|| chain.equityPerShare(s) == Err(r.toRebalance.error)
           || (chain.equityPerShare(s).Ok? && !chain.storeWritable && r.toRebalance.error == StoreUnavailable)
           || (chain.equityPerShare(s).Ok? && chain.storeWritable && chain.rebalanceNeeded(s) == Err(r.toRebalance.error))))
    decreases |strategies|
  {
    if |strategies| > 0 {
      var init := strategies[..|strategies| - 1];
      ScanErrorSource(chain, init, eps);
      assert forall s :: s in init ==> s in strategies;
    }
  }

  /** handlePriceUpdate. */
  function EvalPriceUpdate(cfg: Config, chain: Chain, eps: EpsTable, reason: Reason, hash: Hash): (r: Step)
    ensures r.out.Ok? <==>
      && chain.getAddress(reason.address).Some?
      && var oracle := chain.getAddress(reason.address).value;
         var strategies := MappedStrategies(cfg.oracleToStrategies, oracle);
         && chain.latestAnswer(oracle).Ok?
         && ScanSucceeds(chain, strategies)
         && chain.isOracleOut(ScanStrategies(chain, strategies, eps).eps, oracle).Ok?
    ensures r.out.Ok? ==> |r.out.value| <= 1
    ensures r.out.Ok? ==>
      var oracle := chain.getAddress(reason.address).value;
      && chain.latestAnswer(oracle).Ok?
      && chain.isOracleOut(ScanStrategies(chain, MappedStrategies(cfg.oracleToStrategies, oracle), eps).eps, oracle).Ok?
    ensures r.out.Ok? ==> forall m :: m in r.out.value ==>
      && m.hash == hash
      && m.metadata.matchType == PriceUpdateType
      && m.metadata.payload.PriceUpdateFinding?
      && m.metadata.payload.strategiesToRebalance ==
           Filter(MappedStrategies(cfg.oracleToStrategies, chain.getAddress(reason.address).value),
                  NeedsRebalance(chain))
      && m.metadata.payload.oracleState ==
           chain.isOracleOut(ScanStrategies(chain, MappedStrategies(cfg.oracleToStrategies,
                                                                    chain.getAddress(reason.address).value), eps).eps,
                             chain.getAddress(reason.address).value).value
      && m.metadata.payload.isSequencerOut == chain.latestAnswer(chain.getAddress(reason.address).value).value.isNumberOne
    ensures forall k :: k in eps ==> k in r.eps
    ensures chain.getAddress(reason.address).None? ==> r == Step(Err(InvalidAddress(reason.address)), eps)
    ensures chain.getAddress(reason.address).Some? ==>
      var oracle := chain.getAddress(reason.address).value;
      var scan := ScanStrategies(chain, MappedStrategies(cfg.oracleToStrategies, oracle), eps);
      && (chain.latestAnswer(oracle).Err? ==> r == Step(Err(chain.latestAnswer(oracle).error), eps))
      && (chain.latestAnswer(oracle).Ok? ==> r.eps == scan.eps)
      && (chain.latestAnswer(oracle).Ok? && scan.toRebalance.Err? ==> r.out == Err(scan.toRebalance.error))
      && (chain.latestAnswer(oracle).Ok? && scan.toRebalance.Ok? && chain.isOracleOut(scan.eps, oracle).Err? ==>
            r.out == Err(chain.isOracleOut(scan.eps, oracle).error))
  {
    match chain.getAddress(reason.address)
    case None => Step(Err(InvalidAddress(reason.address)), eps)
    case Some(oracle) =>
      match chain.latestAnswer(oracle)
      case Err(e) => Step(Err(e), eps)
      case Ok(answer) =>
        var scan := ScanStrategies(chain, MappedStrategies(cfg.oracleToStrategies, oracle), eps);
        if scan.toRebalance.Err? then Step(Err(scan.toRebalance.error), scan.eps)
        else
          match chain.isOracleOut(scan.eps, oracle)
          case Err(e) => Step(Err(e), scan.eps)
          case Ok(oracleState) =>
            var strategiesToRebalance := scan.toRebalance.value;
            var isSequencerOut := answer.isNumberOne;
            if |strategiesToRebalance| > 0 || oracleState.isOut || isSequencerOut then
              Step(Ok([CreateMatch(hash, PriceUpdateType,
                                   PriceUpdateFinding(strategiesToRebalance, oracleState, isSequencerOut))]), scan.eps)
            else
              Step(Ok([]), scan.eps)
  }

  /** When every read succeeds, the price-update evaluator emits exactly one
      match iff some mapped strategy needs a rebalance, the oracle is out or
      the answer is the sequencer sentinel, and every mapped strategy has its
      EPS written to the store. */
  lemma PriceUpdateEmitsIff(cfg: Config, chain: Chain, eps: EpsTable, reason: Reason, hash: Hash)
    requires chain.getAddress(reason.address).Some?
    requires chain.latestAnswer(chain.getAddress(reason.address).value).Ok?
    requires ScanSucceeds(chain, MappedStrategies(cfg.oracleToStrategies, chain.getAddress(reason.address).value))
    requires
      var oracle := chain.getAddress(reason.address).value;
      chain.isOracleOut(ScanStrategies(chain, MappedStrategies(cfg.oracleToStrategies, oracle), eps).eps, oracle).Ok?
    ensures
      var oracle := chain.getAddress(reason.address).value;
      var strategies := MappedStrategies(cfg.oracleToStrategies, oracle);
      var scan := ScanStrategies(chain, strategies, eps);
      var r := EvalPriceUpdate(cfg, chain, eps, reason, hash);
      && r.out.Ok?
      && r.eps == scan.eps
      && (forall s :: s in strategies ==> s in r.eps && chain.equityPerShare(s) == Ok(r.eps[s]))
      && (|r.out.value| == 1 <==>
            Filter(strategies, NeedsRebalance(chain)) != [] ||
            chain.isOracleOut(scan.eps, oracle).value.isOut ||
            chain.latestAnswer(oracle).value.isNumberOne)
  {
  }

  /** An oracle absent from oracleToStrategies writes nothing to the store and
      reports a match only for an outage or the sequencer sentinel. */
  lemma UnmappedOracle(cfg: Config, chain: Chain, eps: EpsTable, reason: Reason, hash: Hash)
    requires chain.getAddress(reason.address).Some?
    requires chain.getAddress(reason.address).value !in cfg.oracleToStrategies
    ensures var r := EvalPriceUpdate(cfg, chain, eps, reason, hash);
      var oracle := chain.getAddress(reason.address).value;
      && r.eps == eps
      && (r.out.Ok? ==> forall m :: m in r.out.value ==> m.metadata.payload.strategiesToRebalance == [])
      && (r.out.Ok? ==>
            (|r.out.value| == 1 <==>
               chain.isOracleOut(eps, oracle).value.isOut || chain.latestAnswer(oracle).value.isNumberOne))
  {
  }

  /** The `for` loop of handlePriceUpdate: for each mapped strategy, read its
      equity-per-share, write it to the store, and collect it when
      rebalanceNeeded says so. */
  method ScanAndRecord(chain: Chain, strategies: seq<Address>, store: KeyValueStore)
    returns (strategiesToRebalance: Result<seq<Address>>)
    modifies store
    ensures Scan(strategiesToRebalance, store.eps) == ScanStrategies(chain, strategies, old(store.eps))
  {
    var found: seq<Address> := [];
    for i := 0 to |strategies|
      invariant ScanStrategies(chain, strategies[..i], old(store.eps)) == Scan(Ok(found), store.eps)
    {
      var affectedStrategy := strategies[i];
      assert strategies[..i + 1][..i] == strategies[..i];
      var equity := chain.equityPerShare(affectedStrategy);
      if equity.Err? {
        ScanStopsOnError(chain, strategies, i + 1, old(store.eps));
        return Err(equity.error);
      }
      if !chain.storeWritable {
        ScanStopsOnError(chain, strategies, i + 1, old(store.eps));
        return Err(StoreUnavailable);
      }
      store.Set(affectedStrategy, equity.value);
      var needed := chain.rebalanceNeeded(affectedStrategy);
      if needed.Err? {
        ScanStopsOnError(chain, strategies, i + 1, old(store.eps));
        return Err(needed.error);
      }
      if needed.value {
        found := found + [affectedStrategy];
      }
    }
    assert strategies[..|strategies|] == strategies;
    return Ok(found);
  }

  method HandlePriceUpdate(cfg: Config, chain: Chain, store: KeyValueStore, reason: Reason,
                           evtHash: Hash, matches: MatchBuffer)
    returns (outcome: Outcome)
    modifies store, matches
    ensures var r := EvalPriceUpdate(cfg, chain, old(store.eps), reason, evtHash);
      && outcome == OutcomeOf(r.out)
      && store.eps == r.eps
      && matches.items == old(matches.items) + Contribution(r.out)
  {
    var address := chain.getAddress(reason.address);
    if address.None? {
      return Fail(InvalidAddress(reason.address));
    }
    var oracle := address.value;
    var latestAnswer := chain.latestAnswer(oracle);
    if latestAnswer.Err? {
      return Fail(latestAnswer.error);
    }
    var strategies := MappedStrategies(cfg.oracleToStrategies, oracle);
    var scanned := ScanAndRecord(chain, strategies, store);
    if scanned.Err? {
      return Fail(scanned.error);
    }
    var strategiesToRebalance := scanned.value;
    var oracleState := chain.isOracleOut(store.eps, oracle);
    if oracleState.Err? {
      return Fail(oracleState.error);
    }
    var isSequencerOut := latestAnswer.value.isNumberOne;
    if |strategiesToRebalance| > 0 || oracleState.value.isOut || isSequencerOut {
      matches.Push(CreateMatch(evtHash, PriceUpdateType,
                               PriceUpdateFinding(strategiesToRebalance, oracleState.value, isSequencerOut)));
    }
    return Pass;
  }

  // ---------------------------------------------------------------------------
  // Pool action

  /** The `.filter` predicate: a strategy is affected when its threshold is
      strictly below the live variable borrow rate. */
  function BelowRate(thresholds: map<Address, int>, rate: int): Address -> bool
  {
    s => s in thresholds && thresholds[s] < rate
  }

  /** `strategies.filter(s => strategyInterestThreshold[s].lt(rate))`; a
      strategy with no threshold makes the lookup throw. */
  function AffectedStrategies(strategies: seq<Address>, thresholds: map<Address, int>, rate: int)
    : (r: Result<seq<Address>>)
    ensures r.Ok? <==> forall s :: s in strategies ==> s in thresholds
    ensures r.Ok? ==> r.value == Filter(strategies, BelowRate(thresholds, rate))
    ensures r.Err? ==> exists s :: s in strategies && s !in thresholds && r.error == MissingThreshold(s)
    decreases |strategies|
  {
    if |strategies| == 0 then Ok([])
    else if strategies[0] !in thresholds then Err(MissingThreshold(strategies[0]))
    else
      match AffectedStrategies(strategies[1..], thresholds, rate)
      case Err(e) => Err(e)
      case Ok(rest) =>
        Ok(if thresholds[strategies[0]] < rate then [strategies[0]] + rest else rest)
  }

  /** A threshold equal to the live rate does not make a strategy affected. */
  lemma EqualThresholdNotAffected(strategies: seq<Address>, thresholds: map<Address, int>, rate: int, s: Address)
    requires AffectedStrategies(strategies, thresholds, rate).Ok?
    requires s in thresholds && thresholds[s] == rate
    ensures s !in AffectedStrategies(strategies, thresholds, rate).value
  {
  }

  /** handlePoolAction. */
  function EvalPoolAction(cfg: Config, chain: Chain, reason: Reason, hash: Hash): (r: Result<seq<Match>>)
    ensures r.Ok? <==>
      && |reason.args| > 0
      && chain.getAddress(reason.args[0]).Some?
      && var reserve := chain.getAddress(reason.args[0]).value;
         reserve in cfg.debtTokenToStrategies ==>
           && chain.getAddress(reason.address).Some?
           && chain.getReserveData(chain.getAddress(reason.address).value, reserve).Ok?
           && forall s :: s in cfg.debtTokenToStrategies[reserve] ==> s in cfg.strategyInterestThreshold
    ensures |reason.args| == 0 ==> r == Err(MissingArgument(0))
    ensures |reason.args| > 0 && chain.getAddress(reason.args[0]).None? ==> r == Err(InvalidAddress(reason.args[0]))
    ensures |reason.args| > 0 && chain.getAddress(reason.args[0]).Some? ==>
      var reserve := chain.getAddress(reason.args[0]).value;
      && (reserve in cfg.debtTokenToStrategies && chain.getAddress(reason.address).None? ==>
            r == Err(InvalidAddress(reason.address)))
      && (reserve in cfg.debtTokenToStrategies && chain.getAddress(reason.address).Some? &&
          chain.getReserveData(chain.getAddress(reason.address).value, reserve).Err? ==>
            r == Err(chain.getReserveData(chain.getAddress(reason.address).value, reserve).error))
      && (reserve in cfg.debtTokenToStrategies && chain.getAddress(reason.address).Some? &&
          chain.getReserveData(chain.getAddress(reason.address).value, reserve).Ok? && r.Err? ==>
            exists s :: s in cfg.debtTokenToStrategies[reserve] && s !in cfg.strategyInterestThreshold &&
                        r.error == MissingThreshold(s))
    ensures r.Ok? ==> |r.value| <= 1
    ensures r.Ok? ==> forall m :: m in r.value ==>
      && m.hash == hash
      && m.metadata.matchType == BorrowRateType
      && m.metadata.payload.BorrowRateFinding?
      && m.metadata.payload.affectedStrategies != []
      && m.metadata.payload.reserve in cfg.debtTokenToStrategies
  {
    if |reason.args| == 0 then Err(MissingArgument(0))
    else
      match chain.getAddress(reason.args[0])
      case None => Err(InvalidAddress(reason.args[0]))
      case Some(reserve) =>
        if reserve !in cfg.debtTokenToStrategies then Ok([])
        else
          match chain.getAddress(reason.address)
          case None => Err(InvalidAddress(reason.address))
          case Some(pool) =>
            match chain.getReserveData(pool, reserve)
            case Err(e) => Err(e)
            case Ok(reserveData) =>
              var variableBorrowRate := reserveData[VariableBorrowRateField];
              match AffectedStrategies(cfg.debtTokenToStrategies[reserve], cfg.strategyInterestThreshold, variableBorrowRate)
              case Err(e) => Err(e)
              case Ok(affected) =>
                if |affected| > 0 then
                  Ok([CreateMatch(hash, BorrowRateType, BorrowRateFinding(reserve, variableBorrowRate, affected))])
                else Ok([])
  }

  /** A reserve outside debtTokenToStrategies yields no match, whatever the
      pool address and the reserve data would have been: no read is made. */
  lemma UnmappedReserve(cfg: Config, chain: Chain, reason: Reason, hash: Hash)
    requires |reason.args| > 0 && chain.getAddress(reason.args[0]).Some?
    requires chain.getAddress(reason.args[0]).value !in cfg.debtTokenToStrategies
    ensures EvalPoolAction(cfg, chain, reason, hash) == Ok([])
  {
  }

  /** For a mapped reserve whose reads succeed and whose strategies all have
      thresholds, a match is emitted iff some mapped strategy's threshold is
      strictly below field 3 of the reserve data, and it lists exactly those. */
  lemma PoolActionEmitsIff(cfg: Config, chain: Chain, reason: Reason, hash: Hash)
    requires |reason.args| > 0 && chain.getAddress(reason.args[0]).Some?
    requires chain.getAddress(reason.args[0]).value in cfg.debtTokenToStrategies
    requires chain.getAddress(reason.address).Some?
    requires chain.getReserveData(chain.getAddress(reason.address).value, chain.getAddress(reason.args[0]).value).Ok?
    requires forall s :: s in cfg.debtTokenToStrategies[chain.getAddress(reason.args[0]).value] ==>
      s in cfg.strategyInterestThreshold
    ensures
      var reserve := chain.getAddress(reason.args[0]).value;
      var strategies := cfg.debtTokenToStrategies[reserve];
      var rate := chain.getReserveData(chain.getAddress(reason.address).value, reserve).value[VariableBorrowRateField];
      var r := EvalPoolAction(cfg, chain, reason, hash);
      && r.Ok?
      && (|r.value| == 1 <==>
            exists s :: s in strategies && cfg.strategyInterestThreshold[s] < rate)
      && (|r.value| == 1 ==>
            r.value[0].metadata.payload == BorrowRateFinding(reserve, rate, Filter(strategies, BelowRate(cfg.strategyInterestThreshold, rate))))
  {
    var reserve := chain.getAddress(reason.args[0]).value;
    var strategies := cfg.debtTokenToStrategies[reserve];
    var rate := chain.getReserveData(chain.getAddress(reason.address).value, reserve).value[VariableBorrowRateField];
    var affected := Filter(strategies, BelowRate(cfg.strategyInterestThreshold, rate));
    if exists s :: s in strategies && cfg.strategyInterestThreshold[s] < rate {
      var s :| s in strategies && cfg.strategyInterestThreshold[s] < rate;
      assert s in affected;
    }
    if affected != [] {
      assert affected[0] in affected;
    }
  }

  method HandlePoolAction(cfg: Config, chain: Chain, reason: Reason, evtHash: Hash, matches: MatchBuffer)
    returns (outcome: Outcome)
    modifies matches
    ensures var r := EvalPoolAction(cfg, chain, reason, evtHash);
      outcome == OutcomeOf(r) && matches.items == old(matches.items) + Contribution(r)
  {
    if |reason.args| == 0 {
      return Fail(MissingArgument(0));
    }
    var reserveAddress := chain.getAddress(reason.args[0]);
    if reserveAddress.None? {
      return Fail(InvalidAddress(reason.args[0]));
    }
    var reserve := reserveAddress.value;
    if reserve in cfg.debtTokenToStrategies {
      var poolAddress := chain.getAddress(reason.address);
      if poolAddress.None? {
        return Fail(InvalidAddress(reason.address));
      }
      var reserveData := chain.getReserveData(poolAddress.value, reserve);
      if reserveData.Err? {
        return Fail(reserveData.error);
      }
      var variableBorrowRate := reserveData.value[VariableBorrowRateField];
      var affectedStrategies := AffectedStrategies(cfg.debtTokenToStrategies[reserve],
                                                   cfg.strategyInterestThreshold, variableBorrowRate);
      if affectedStrategies.Err? {
        return Fail(affectedStrategies.error);
      }
      if |affectedStrategies.value| > 0 {
        matches.Push(CreateMatch(evtHash, BorrowRateType,
                                 BorrowRateFinding(reserve, variableBorrowRate, affectedStrategies.value)));
      }
    }
    return Pass;
  }
}
