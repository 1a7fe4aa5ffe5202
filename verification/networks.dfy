/**
 * The configured handlers: the polygon, arbitrum and optimism bulk handlers
 * as instances of the one pipeline, and the single-pool handler that builds
 * its one context and one row literally.
 */
module Networks {
  import opened Wrappers
  import opened Planner
  import opened Assembler
  import opened Pipeline

  const SHARES_GETTER: string := "get_s_totalShares"

  /** MATIC-LINK, MATIC-CRV and LINK-ETH. */
  const POLYGON_POOLS: seq<string> := [
    "0x8E756cAad37136Df14Eb42Dc4BCb211D4aFC3E5B",
    "0x8d342020D9e452e129B4C40a7e1d754e1d1b124f",
    "0xaBFe2C02c1dbE04672de1e330b17288116945a67"
  ]
  /** ETH-USDC. */
  const ARBITRUM_POOLS: seq<string> := ["0x93e3B2E1E3837622156FEcdC6e5472AF31fE10Bb"]
  /** ETH-SNX. */
  const OPTIMISM_POOLS: seq<string> := ["0x4f46191bc4865813cbd2ea583046bea165b7af8f"]

  const POLYGON: Network := Network(POLYGON_POOLS, "IChamberV1", SHARES_GETTER)
  const ARBITRUM: Network := Network(ARBITRUM_POOLS, "IChamberV1", SHARES_GETTER)
  const OPTIMISM: Network := Network(OPTIMISM_POOLS, "IChamberV1", SHARES_GETTER)

  /** The plan of a network: its pools, in order, each read with its shares getter then the balance. */
  lemma NetworkPlanShape(net: Network)
    ensures References(NetworkPlan(net)) == net.pools
    ensures forall i :: 0 <= i < |net.pools| ==>
      && NetworkPlan(net)[i].contractAddress == net.pools[i]
      && MethodNames(NetworkPlan(net)[i].calls) == [net.sharesMethod, CURRENT_USD_BALANCE]
      && forall k :: 0 <= k < |NetworkPlan(net)[i].calls| ==> NetworkPlan(net)[i].calls[k].methodParameters == []
  {
    PlanReferences(net.pools, net.abi, SnapshotCalls(net.sharesMethod));
    PlanShape(net.pools, net.abi, net.sharesMethod);
  }

  lemma PolygonPlan()
    ensures |NetworkPlan(POLYGON)| == 3
    ensures References(NetworkPlan(POLYGON)) == POLYGON_POOLS
    ensures forall i :: 0 <= i < 3 ==>
      MethodNames(NetworkPlan(POLYGON)[i].calls) == [SHARES_GETTER, CURRENT_USD_BALANCE]
  {
    NetworkPlanShape(POLYGON);
  }

  lemma ArbitrumPlan()
    ensures |NetworkPlan(ARBITRUM)| == 1
    ensures NetworkPlan(ARBITRUM)[0].reference == NetworkPlan(ARBITRUM)[0].contractAddress == ARBITRUM_POOLS[0]
    ensures MethodNames(NetworkPlan(ARBITRUM)[0].calls) == [SHARES_GETTER, CURRENT_USD_BALANCE]
  {
    NetworkPlanShape(ARBITRUM);
  }

  lemma OptimismPlan()
    ensures |NetworkPlan(OPTIMISM)| == 1
    ensures NetworkPlan(OPTIMISM)[0].reference == NetworkPlan(OPTIMISM)[0].contractAddress == OPTIMISM_POOLS[0]
    ensures MethodNames(NetworkPlan(OPTIMISM)[0].calls) == [SHARES_GETTER, CURRENT_USD_BALANCE]
  {
    NetworkPlanShape(OPTIMISM);
  }

  /** The polygon handler: every polygon pool's record in one `polygonPool.createMany`, or nothing. */
  method PolygonHandler(polygonPool: PoolTable, execute: Executor, getBlock: nat -> BlockLookup)
    returns (outcome: Result<nat, Error>)
    modifies polygonPool
    ensures Snapshots(POLYGON, execute, getBlock).Ok? ==>
      && polygonPool.rows == old(polygonPool.rows) + Snapshots(POLYGON, execute, getBlock).value
      && outcome == Ok(3)
    ensures Snapshots(POLYGON, execute, getBlock).Err? ==>
      && polygonPool.rows == old(polygonPool.rows)
      && outcome == Err(Snapshots(POLYGON, execute, getBlock).error)
  {
    outcome := Run(POLYGON, polygonPool, execute, getBlock);
  }

  /** The arbitrum handler, writing to `arbitrumPool`. */
  method ArbitrumHandler(arbitrumPool: PoolTable, execute: Executor, getBlock: nat -> BlockLookup)
    returns (outcome: Result<nat, Error>)
    modifies arbitrumPool
    ensures Snapshots(ARBITRUM, execute, getBlock).Ok? ==>
      && arbitrumPool.rows == old(arbitrumPool.rows) + Snapshots(ARBITRUM, execute, getBlock).value
      && outcome == Ok(1)
    ensures Snapshots(ARBITRUM, execute, getBlock).Err? ==>
      && arbitrumPool.rows == old(arbitrumPool.rows)
      && outcome == Err(Snapshots(ARBITRUM, execute, getBlock).error)
  {
    outcome := Run(ARBITRUM, arbitrumPool, execute, getBlock);
  }

  /** The optimism handler, writing to `optimismPool`. */
  method OptimismHandler(optimismPool: PoolTable, execute: Executor, getBlock: nat -> BlockLookup)
    returns (outcome: Result<nat, Error>)
    modifies optimismPool
    ensures Snapshots(OPTIMISM, execute, getBlock).Ok? ==>
      && optimismPool.rows == old(optimismPool.rows) + Snapshots(OPTIMISM, execute, getBlock).value
      && outcome == Ok(1)
    ensures Snapshots(OPTIMISM, execute, getBlock).Err? ==>
      && optimismPool.rows == old(optimismPool.rows)
      && outcome == Err(Snapshots(OPTIMISM, execute, getBlock).error)
  {
    outcome := Run(OPTIMISM, optimismPool, execute, getBlock);
  }

  /** The single-pool handler's configuration: the pool named by `POOL_ADDRESS`, read through `ChamberV1`. */
  function SingleNetwork(poolAddress: string): Network {
    Network([poolAddress], "ChamberV1", "s_totalShares")
  }

  /** The single-pool handler's literal context list. */
  function SingleContext(poolAddress: string): seq<CallContext> {
    [ CallContext(poolAddress, poolAddress, "ChamberV1", [
        Call("s_totalSharesCall", "s_totalShares", []),
        Call("currentUSDBalanceCall", "currentUSDBalance", []) ]) ]
  }

  /**
   * The literal is the plan of the one-pool network: one context keyed by
   * `POOL_ADDRESS`, reading `s_totalShares` then `currentUSDBalance`.
   */
  lemma SingleContextIsPlan(poolAddress: string)
    ensures SingleContext(poolAddress) == NetworkPlan(SingleNetwork(poolAddress))
    ensures MethodNames(SingleContext(poolAddress)[0].calls) == ["s_totalShares", CURRENT_USD_BALANCE]
  {
    PlanShape([poolAddress], "ChamberV1", "s_totalShares");
    assert "s_totalShares" + "Call" == "s_totalSharesCall";
    assert CURRENT_USD_BALANCE + "Call" == "currentUSDBalanceCall";
    var plan := NetworkPlan(SingleNetwork(poolAddress));
    assert plan[0] == SingleContext(poolAddress)[0];
  }

  /** The single-pool handler's straight-line body: its one record, or the exception. */
  function SingleSnapshot(poolAddress: string, execute: Executor, getBlock: nat -> BlockLookup): Result<Snapshot, Error> {
    match execute(SingleContext(poolAddress))
    case Err(message) => Err(BatchFailed(message))
    case Ok(batch) => SnapshotFor(poolAddress, batch, getBlock)
  }

  /** The single-pool handler computes what the bulk pipeline computes for a one-pool network. */
  lemma SingleIsOnePoolRun(poolAddress: string, execute: Executor, getBlock: nat -> BlockLookup)
    ensures SingleSnapshot(poolAddress, execute, getBlock).Ok? ==>
      Snapshots(SingleNetwork(poolAddress), execute, getBlock) == Ok([SingleSnapshot(poolAddress, execute, getBlock).value])
    ensures SingleSnapshot(poolAddress, execute, getBlock).Err? ==>
      Snapshots(SingleNetwork(poolAddress), execute, getBlock) == Err(SingleSnapshot(poolAddress, execute, getBlock).error)
  {
    SingleContextIsPlan(poolAddress);
    var pools := [poolAddress];
    assert pools[..0] == [];
    if execute(SingleContext(poolAddress)).Ok? {
      var batch := execute(SingleContext(poolAddress)).value;
      assert Snapshots(SingleNetwork(poolAddress), execute, getBlock) == Assemble(pools, batch, getBlock);
      assert Assemble(pools[..0], batch, getBlock) == Ok([]);
      var r := SnapshotFor(poolAddress, batch, getBlock);
      if r.Ok? {
        assert [] + [r.value] == [r.value];
      }
    }
  }

  /**
   * The single-pool handler: one `pools.create` of the record, carrying
   * `POOL_ADDRESS` and the batch's block number; nothing is written when
   * anything throws.
   */
  method SingleHandler(poolAddress: string, pools: PoolTable, execute: Executor, getBlock: nat -> BlockLookup)
    returns (outcome: Result<Snapshot, Error>)
    modifies pools
    ensures SingleSnapshot(poolAddress, execute, getBlock).Ok? ==>
      && pools.rows == old(pools.rows) + [SingleSnapshot(poolAddress, execute, getBlock).value]
      && outcome == SingleSnapshot(poolAddress, execute, getBlock)
      && outcome.value.address == poolAddress
      && outcome.value.block == execute(SingleContext(poolAddress)).value.blockNumber
    ensures SingleSnapshot(poolAddress, execute, getBlock).Err? ==>
      && pools.rows == old(pools.rows)
      && outcome == SingleSnapshot(poolAddress, execute, getBlock)
  {
    var callContext := SingleContext(poolAddress);
    var callContextResults := execute(callContext);
    if callContextResults.Err? {
      return Err(BatchFailed(callContextResults.error));
    }
    var record := SnapshotFor(poolAddress, callContextResults.value, getBlock);
    if record.Err? {
      return record;
    }
    var row := pools.Create(record.value);
    return Ok(row);
  }
}
