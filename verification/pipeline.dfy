/**
 * One snapshot run of a network, parameterised by the network's pools, ABI
 * and shares getter: plan, execute the batch, assemble every record, then a
 * single bulk insert. The handlers of the three networks are instances.
 */
module Pipeline {
  import opened Wrappers
  import opened Planner
  import opened Assembler

  /** A table of the store (`polygonPool`, `arbitrumPool`, `optimismPool`, `pools`): rows are only appended. */
  class PoolTable {
    var rows: seq<Snapshot>

    constructor ()
      ensures rows == []
    {
      rows := [];
    }

    /** `createMany({data})`: one insert of every row, answering how many were written. */
    method CreateMany(data: seq<Snapshot>) returns (count: nat)
      modifies this
      ensures rows == old(rows) + data
      ensures count == |data|
    {
      rows := rows + data;
      count := |data|;
    }

    /** `create({data})`: one row inserted and returned. */
    method Create(data: Snapshot) returns (row: Snapshot)
      modifies this
      ensures rows == old(rows) + [data]
      ensures row == data
    {
      rows := rows + [data];
      row := data;
    }
  }

  /** What distinguishes one network's handler from another's. */
  datatype Network = Network(pools: seq<string>, abi: string, sharesMethod: string)

  /** `multicall.call(callContext)`: the batch result, or the message of the error it throws. */
  type Executor = seq<CallContext> -> Result<BatchResult, string>

  function NetworkPlan(net: Network): seq<CallContext> {
    Plan(net.pools, net.abi, SnapshotCalls(net.sharesMethod))
  }

  /** The records one run stores, or the exception that aborts it. */
  function Snapshots(net: Network, execute: Executor, getBlock: nat -> BlockLookup): Result<seq<Snapshot>, Error> {
    match execute(NetworkPlan(net))
    case Err(message) => Err(BatchFailed(message))
    case Ok(batch) => Assemble(net.pools, batch, getBlock)
  }

  /**
   * The body of a bulk handler. The table is written once, with every record
   * of the run, after the loop has finished; when anything throws nothing is
   * written and the error is the outcome.
   */
  method Run(net: Network, table: PoolTable, execute: Executor, getBlock: nat -> BlockLookup)
    returns (outcome: Result<nat, Error>)
    modifies table
    ensures Snapshots(net, execute, getBlock).Ok? ==>
      && table.rows == old(table.rows) + Snapshots(net, execute, getBlock).value
      && outcome == Ok(|net.pools|)
    ensures Snapshots(net, execute, getBlock).Err? ==>
      && table.rows == old(table.rows)
      && outcome == Err(Snapshots(net, execute, getBlock).error)
  {
    var callContext := NetworkPlan(net);
    var callContextResults := execute(callContext);
    if callContextResults.Err? {
      return Err(BatchFailed(callContextResults.error));
    }
    var poolsResults := CollectSnapshots(net.pools, callContextResults.value, getBlock);
    if poolsResults.Err? {
      return Err(poolsResults.error);
    }
    AssembleRecords(net.pools, callContextResults.value, getBlock);
    var count := table.CreateMany(poolsResults.value);
    return Ok(count);
  }

  /**
   * All or nothing: a run produces records exactly when the batch call
   * succeeds, the block lookup does not throw, and every pool's two return
   * values are present. A single unresolved pool fails the whole run.
   */
  lemma AllOrNothing(net: Network, execute: Executor, getBlock: nat -> BlockLookup)
    ensures Snapshots(net, execute, getBlock).Ok? <==>
      && execute(NetworkPlan(net)).Ok?
      && (net.pools != [] ==> !getBlock(execute(NetworkPlan(net)).value.blockNumber).LookupFailed?)
      && forall i :: 0 <= i < |net.pools| ==> Resolvable(execute(NetworkPlan(net)).value, net.pools[i])
  {
    if execute(NetworkPlan(net)).Ok? {
      AssembleOkIff(net.pools, execute(NetworkPlan(net)).value, getBlock);
    }
  }

  /**
   * The batch answers a plan completely when every context's reference is a
   * key of the results and each of its calls returned a value, in call order.
   */
  predicate Answers(plan: seq<CallContext>, batch: BatchResult) {
    forall i :: 0 <= i < |plan| ==>
      && plan[i].reference in batch.results
      && |batch.results[plan[i].reference].callsReturnContext| == |plan[i].calls|
      && forall k :: 0 <= k < |plan[i].calls| ==>
           1 <= |batch.results[plan[i].reference].callsReturnContext[k].returnValues|
  }

  /**
   * Positional decoding is sound for this plan: a batch that answers it
   * completely, with a block lookup that does not throw, yields a record for
   * every pool.
   */
  lemma CompleteAnswerAssembles(net: Network, batch: BatchResult, getBlock: nat -> BlockLookup)
    requires Answers(NetworkPlan(net), batch)
    requires !getBlock(batch.blockNumber).LookupFailed?
    ensures Assemble(net.pools, batch, getBlock).Ok?
  {
    PlanShape(net.pools, net.abi, net.sharesMethod);
    forall i | 0 <= i < |net.pools| ensures Resolvable(batch, net.pools[i]) {
      assert NetworkPlan(net)[i].reference == net.pools[i];
      assert |NetworkPlan(net)[i].calls| == 2;
    }
    AssembleOkIff(net.pools, batch, getBlock);
  }
}
