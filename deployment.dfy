/** The tables of the Base deployment, as keeper/src/filters/loopStrategy.js
    hard-codes them, and what they imply for the evaluators. */
module Deployment {
  import opened KeeperTypes
  import opened Seqs
  import opened Evaluators

  /** One unit in 27-decimal fixed point. */
  const Ray: int := 1_000_000_000_000_000_000_000_000_000

  /** One percent in RAY, 10^25. */
  const PercentInRay: int := 10_000_000_000_000_000_000_000_000

  // Strategies: 3x wstETH/WETH and 1.5x WETH/USDC loops.
  const WstEthWethLoop: Address := "0x258730e23cF2f25887Cb962d32Bd10b878ea8a4e"
  const WethUsdcLoop: Address := "0x2FB1bEa0a63F77eFa77619B903B2830b52eE78f4"

  // Price feeds.
  const WstEthEthOracle: Address := "0xa669E5272E60f78299F4824495cE01a3923f4380"
  const EthUsdOracle: Address := "0x71041dddad3595F9CEd3DcCFBe3D1F4b0a16Bb70"
  const UsdcUsdOracle: Address := "0x7e860098F58bBFC8648a4311b374B1D669a2bc6B"

  // Debt tokens.
  const Weth: Address := "0x4200000000000000000000000000000000000006"
  const Usdc: Address := "0x833589fCD6eDb6E08f4c7C32D4f71b54bdA02913"

  /** `parseUnits('3.0', 27)` and `parseUnits('5.0', 27)`. */
  const WstEthWethThreshold: int := 3 * Ray
  const WethUsdcThreshold: int := 5 * Ray

  /** `parseUnits('1.1', 8)`. */
  const HealthFactorThreshold: int := 110_000_000

  const DeployedConfig := Config(
    map[WstEthEthOracle := [WstEthWethLoop],
        EthUsdOracle := [WstEthWethLoop, WethUsdcLoop],
        UsdcUsdOracle := [WethUsdcLoop]],
    map[WstEthWethLoop := WstEthWethThreshold, WethUsdcLoop := WethUsdcThreshold],
    map[Weth := [WstEthWethLoop], Usdc := [WethUsdcLoop]],
    HealthFactorThreshold)

  /** Every strategy the deployed debt-token table names has a threshold,
      so the threshold lookup of the pool-action evaluator never throws, and
      the affected strategies are those below the live borrow rate. */
  lemma DeployedThresholdLookupTotal(reserve: Address, rate: int)
    requires reserve in DeployedConfig.debtTokenToStrategies
    ensures var r := AffectedStrategies(DeployedConfig.debtTokenToStrategies[reserve],
                                        DeployedConfig.strategyInterestThreshold, rate);
      && r.Ok?
      && (reserve == Weth ==> (r.value == [WstEthWethLoop] <==> 3 * Ray < rate))
      && (reserve == Usdc ==> (r.value == [WethUsdcLoop] <==> 5 * Ray < rate))
  {
    var strategies := DeployedConfig.debtTokenToStrategies[reserve];
    assert strategies[1..] == [];
  }

  /** The ETH-USD feed is mapped to both strategies. When exactly one of them
      reports rebalanceNeeded, a successful price update from that feed emits
      its match, and the match lists exactly that strategy. */
  lemma EthUsdRebalanceSelectsOne(chain: Chain, eps: EpsTable, reason: Reason, hash: Hash)
    requires chain.getAddress(reason.address) == Some(EthUsdOracle)
    requires chain.rebalanceNeeded(WstEthWethLoop).Ok? && chain.rebalanceNeeded(WethUsdcLoop).Ok?
    requires chain.rebalanceNeeded(WstEthWethLoop) != chain.rebalanceNeeded(WethUsdcLoop)
    ensures DeployedConfig.oracleToStrategies[EthUsdOracle] == [WstEthWethLoop, WethUsdcLoop]
    ensures var listed := Filter(MappedStrategies(DeployedConfig.oracleToStrategies, EthUsdOracle), NeedsRebalance(chain));
      && (listed == [WstEthWethLoop] <==> chain.rebalanceNeeded(WstEthWethLoop) == Ok(true))
      && (listed == [WethUsdcLoop] <==> chain.rebalanceNeeded(WethUsdcLoop) == Ok(true))
    ensures var r := EvalPriceUpdate(DeployedConfig, chain, eps, reason, hash);
      var listed := Filter(MappedStrategies(DeployedConfig.oracleToStrategies, EthUsdOracle), NeedsRebalance(chain));
      r.out.Ok? ==> |r.out.value| == 1 && r.out.value[0].metadata.payload.strategiesToRebalance == listed
  {
    var strategies := MappedStrategies(DeployedConfig.oracleToStrategies, EthUsdOracle);
    assert strategies == [WstEthWethLoop, WethUsdcLoop];
    assert strategies[1..][1..] == [];
    var r := EvalPriceUpdate(DeployedConfig, chain, eps, reason, hash);
    if r.out.Ok? {
      var scan := ScanStrategies(chain, strategies, eps);
      assert scan.toRebalance.value == Filter(strategies, NeedsRebalance(chain));
      assert chain.rebalanceNeeded(WstEthWethLoop).value || chain.rebalanceNeeded(WethUsdcLoop).value;
      if chain.rebalanceNeeded(WstEthWethLoop).value {
        assert WstEthWethLoop in scan.toRebalance.value;
      } else {
        assert WethUsdcLoop in scan.toRebalance.value;
      }
    }
  }

  /** Two strategies on one reserve with the deployed thresholds, and a live
      variable borrow rate of 4% (4·10^25 in RAY): as written, neither
      threshold is below it, since 3·10^27 in RAY is 300%, not 3%. */
  lemma AsWrittenThresholdsMissFourPercent()
    ensures AffectedStrategies([WstEthWethLoop, WethUsdcLoop],
                               DeployedConfig.strategyInterestThreshold, 4 * PercentInRay) == Ok([])
  {
    var strategies := [WstEthWethLoop, WethUsdcLoop];
    assert strategies[1..] == [WethUsdcLoop];
    assert strategies[1..][1..] == [];
  }

  /** The thresholds the comments describe: 3% and 5% in RAY. */
  const IntendedConfig := Config(
    DeployedConfig.oracleToStrategies,
    map[WstEthWethLoop := 3 * PercentInRay, WethUsdcLoop := 5 * PercentInRay],
    DeployedConfig.debtTokenToStrategies,
    HealthFactorThreshold)

  /** With 3% and 5% thresholds a 4% borrow rate affects exactly the 3%
      strategy, and any rate affects a strategy iff it exceeds its threshold. */
  lemma IntendedThresholdsFlagFourPercent(rate: int)
    ensures AffectedStrategies([WstEthWethLoop, WethUsdcLoop],
                               IntendedConfig.strategyInterestThreshold, 4 * PercentInRay) == Ok([WstEthWethLoop])
    ensures var r := AffectedStrategies([WstEthWethLoop, WethUsdcLoop], IntendedConfig.strategyInterestThreshold, rate);
      && r.Ok?
      && (WstEthWethLoop in r.value <==> 3 * PercentInRay < rate)
      && (WethUsdcLoop in r.value <==> 5 * PercentInRay < rate)
  {
    var strategies := [WstEthWethLoop, WethUsdcLoop];
    assert strategies[1..] == [WethUsdcLoop];
    assert strategies[1..][1..] == [];
    var thresholds := IntendedConfig.strategyInterestThreshold;
    assert thresholds[WstEthWethLoop] < 4 * PercentInRay <= thresholds[WethUsdcLoop];
    assert AffectedStrategies(strategies[1..], thresholds, 4 * PercentInRay) == Ok([]);
    assert [WstEthWethLoop] + [] == [WstEthWethLoop];
  }
}
