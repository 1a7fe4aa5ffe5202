/**
 * The snapshot assembler: the `for (const address of POOLS)` loop of each
 * handler, which joins the batch result, the block time and the decoded
 * quantities into one record per pool, in pool order. Any failed lookup
 * throws, which aborts the whole run.
 */
module Assembler {
  import opened Wrappers
  import opened Codec

  /** The positional return values of one call; each value is the `hex` field of a returned uint. */
  datatype CallReturn = CallReturn(returnValues: seq<string>)

  /** What the batch returned for one context: one entry per planned call, in call order. */
  datatype ContextResult = ContextResult(callsReturnContext: seq<CallReturn>)

  /** `callContextResults`: results keyed by context reference, and the one block the batch was read at. */
  datatype BatchResult = BatchResult(results: map<string, ContextResult>, blockNumber: nat)

  /** `provider.getBlock(n, false)`: the block's timestamp in seconds, null, or a rejected promise. */
  datatype BlockLookup = Found(timestamp: nat) | NotFound | LookupFailed(message: string)

  /** One stored row; `blockTime` is in milliseconds since the epoch. */
  datatype Snapshot = Snapshot(
    address: string,
    block: nat,
    blockTime: nat,
    totalShares: string,
    currentUsdBalance: string)

  /** Why a run was aborted: each case is an exception some step of the handler throws. */
  datatype Error =
    | BatchFailed(message: string)
    | MissingResult(address: string)
    | MissingReturnValue(address: string, call: nat)
    | BlockLookupFailed(message: string)

  /** Positions of the two reads in every context; they follow the order of `SnapshotCalls`. */
  const SHARES_CALL: nat := 0
  const BALANCE_CALL: nat := 1

  /** The batch holds a first return value for call `call` of `address`. */
  predicate HasReturnValue(batch: BatchResult, address: string, call: nat) {
    && address in batch.results
    && call < |batch.results[address].callsReturnContext|
    && 1 <= |batch.results[address].callsReturnContext[call].returnValues|
  }

  /** `callContextReturns[call].returnValues[0].hex`. */
  function ReturnValue(batch: BatchResult, address: string, call: nat): string
    requires HasReturnValue(batch, address, call)
  {
    batch.results[address].callsReturnContext[call].returnValues[0]
  }

  /** Both reads of `address` can be taken from the batch without throwing. */
  predicate Resolvable(batch: BatchResult, address: string) {
    HasReturnValue(batch, address, SHARES_CALL) && HasReturnValue(batch, address, BALANCE_CALL)
  }

  /**
   * `new Date(blockTimestamp * 1e3)` with `blockTimestamp = block ? block.timestamp : 0`.
   * The seconds are recoverable from a found block, and the fallback cannot be
   * told apart from a block stamped at the epoch.
   */
  function BlockTimeMillis(block: BlockLookup): (ms: nat)
    requires !block.LookupFailed?
    ensures ms % 1000 == 0
    ensures block.Found? ==> ms / 1000 == block.timestamp
    ensures ms == 0 <==> block.NotFound? || block.timestamp == 0
  {
    if block.Found? then block.timestamp * 1000 else 0
  }

  /**
   * One iteration of the loop: the record for `address`, or the exception the
   * iteration throws. The steps run in the source's order: results lookup,
   * block lookup, then the two positional reads.
   */
  function SnapshotFor(address: string, batch: BatchResult, getBlock: nat -> BlockLookup): (r: Result<Snapshot, Error>)
    ensures r.Ok? <==> Resolvable(batch, address) && !getBlock(batch.blockNumber).LookupFailed?
    ensures address !in batch.results ==> r == Err(MissingResult(address))
    ensures address in batch.results && getBlock(batch.blockNumber).LookupFailed? ==>
      r == Err(BlockLookupFailed(getBlock(batch.blockNumber).message))
    ensures (address in batch.results && !getBlock(batch.blockNumber).LookupFailed?
             && !HasReturnValue(batch, address, SHARES_CALL)) ==>
      r == Err(MissingReturnValue(address, SHARES_CALL))
    ensures (address in batch.results && !getBlock(batch.blockNumber).LookupFailed?
             && HasReturnValue(batch, address, SHARES_CALL) && !HasReturnValue(batch, address, BALANCE_CALL)) ==>
      r == Err(MissingReturnValue(address, BALANCE_CALL))
    ensures r.Ok? ==>
      && r.value.address == address
      && r.value.block == batch.blockNumber
      && r.value.blockTime == BlockTimeMillis(getBlock(batch.blockNumber))
      && ParseDecimal(r.value.totalShares) == ParseHex(ReturnValue(batch, address, SHARES_CALL))
      && ParseDecimal(r.value.currentUsdBalance) == ParseHex(ReturnValue(batch, address, BALANCE_CALL))
  {
    if address !in batch.results then Err(MissingResult(address))
    else
      var block := getBlock(batch.blockNumber);
      if block.LookupFailed? then Err(BlockLookupFailed(block.message))
      else if !HasReturnValue(batch, address, SHARES_CALL) then Err(MissingReturnValue(address, SHARES_CALL))
      else if !HasReturnValue(batch, address, BALANCE_CALL) then Err(MissingReturnValue(address, BALANCE_CALL))
      else
        Ok(Snapshot(
          address,
          batch.blockNumber,
          BlockTimeMillis(block),
          DecodeHex(ReturnValue(batch, address, SHARES_CALL)),
          DecodeHex(ReturnValue(batch, address, BALANCE_CALL))))
  }

  /** The whole loop: every record in pool order, or the first exception thrown. */
  function Assemble(pools: seq<string>, batch: BatchResult, getBlock: nat -> BlockLookup): Result<seq<Snapshot>, Error>
    decreases |pools|
  {
    if pools == [] then Ok([])
    else
      match Assemble(pools[..|pools| - 1], batch, getBlock)
      case Err(e) => Err(e)
      case Ok(rs) =>
        match SnapshotFor(pools[|pools| - 1], batch, getBlock)
        case Err(e) => Err(e)
        case Ok(s) => Ok(rs + [s])
  }

  /** A successful assembly holds exactly the per-pool records, position by position. */
  lemma {:induction false} AssembleRecords(pools: seq<string>, batch: BatchResult, getBlock: nat -> BlockLookup)
    ensures Assemble(pools, batch, getBlock).Ok? ==>
      var rs := Assemble(pools, batch, getBlock).value;
      && |rs| == |pools|
      && forall i :: 0 <= i < |pools| ==> SnapshotFor(pools[i], batch, getBlock) == Ok(rs[i])
  {
    if pools != [] {
      var pre := pools[..|pools| - 1];
      AssembleRecords(pre, batch, getBlock);
      if Assemble(pools, batch, getBlock).Ok? {
        var rs := Assemble(pools, batch, getBlock).value;
        forall i | 0 <= i < |pools| ensures SnapshotFor(pools[i], batch, getBlock) == Ok(rs[i]) {
          if i < |pre| {
            assert pools[i] == pre[i];
          }
        }
      }
    }
  }

  /**
   * One record per pool, in pool order; all carry the batch's block number and
   * the same block time, and each quantity denotes the integer its hexadecimal
   * return value encodes (shares from call 0, balance from call 1).
   */
  lemma {:induction false} AssembleSnapshots(pools: seq<string>, batch: BatchResult, getBlock: nat -> BlockLookup)
    requires Assemble(pools, batch, getBlock).Ok?
    ensures |Assemble(pools, batch, getBlock).value| == |pools|
    ensures pools != [] ==> !getBlock(batch.blockNumber).LookupFailed?
    ensures forall i :: 0 <= i < |pools| ==>
      var s := Assemble(pools, batch, getBlock).value[i];
      && Resolvable(batch, pools[i])
      && !getBlock(batch.blockNumber).LookupFailed?
      && s.address == pools[i]
      && s.block == batch.blockNumber
      && s.blockTime == BlockTimeMillis(getBlock(batch.blockNumber))
      && ParseDecimal(s.totalShares) == ParseHex(ReturnValue(batch, pools[i], SHARES_CALL))
      && ParseDecimal(s.currentUsdBalance) == ParseHex(ReturnValue(batch, pools[i], BALANCE_CALL))
  {
    AssembleRecords(pools, batch, getBlock);
    if pools != [] {
      assert SnapshotFor(pools[0], batch, getBlock).Ok?;
    }
  }

  /**
   * The run succeeds exactly when the block lookup (made only if there is a
   * pool) does not fail and every pool's two return values are present.
   */
  lemma {:induction false} AssembleOkIff(pools: seq<string>, batch: BatchResult, getBlock: nat -> BlockLookup)
    ensures Assemble(pools, batch, getBlock).Ok? <==>
      && (pools != [] ==> !getBlock(batch.blockNumber).LookupFailed?)
      && forall i :: 0 <= i < |pools| ==> Resolvable(batch, pools[i])
  {
    if pools != [] {
      var pre := pools[..|pools| - 1];
      var last := pools[|pools| - 1];
      AssembleOkIff(pre, batch, getBlock);
      assert Assemble(pools, batch, getBlock).Ok? <==>
        Assemble(pre, batch, getBlock).Ok? && SnapshotFor(last, batch, getBlock).Ok?;
      assert (forall i :: 0 <= i < |pools| ==> Resolvable(batch, pools[i])) <==>
        (forall i :: 0 <= i < |pre| ==> Resolvable(batch, pre[i])) && Resolvable(batch, last)
      by {
        assert forall i :: 0 <= i < |pre| ==> pre[i] == pools[i];
      }
    }
  }

  /**
   * A failed run reports the exception of the first pool whose iteration
   * throws: the pools before it assemble without error.
   */
  lemma {:induction false} AssembleFirstError(pools: seq<string>, batch: BatchResult, getBlock: nat -> BlockLookup, e: Error)
    requires Assemble(pools, batch, getBlock) == Err(e)
    ensures exists k ::
      && 0 <= k < |pools|
      && Assemble(pools[..k], batch, getBlock).Ok?
      && SnapshotFor(pools[k], batch, getBlock) == Err(e)
  {
    var pre := pools[..|pools| - 1];
    if Assemble(pre, batch, getBlock).Err? {
      AssembleFirstError(pre, batch, getBlock, e);
      var k :| 0 <= k < |pre| && Assemble(pre[..k], batch, getBlock).Ok? && SnapshotFor(pre[k], batch, getBlock) == Err(e);
      assert pre[..k] == pools[..k] && pre[k] == pools[k];
    } else {
      assert pools[..|pools| - 1] == pre;
    }
  }

  /** An iteration that succeeds on top of a successful prefix extends the prefix's records. */
  lemma AssembleExtend(pools: seq<string>, i: nat, batch: BatchResult, getBlock: nat -> BlockLookup, rs: seq<Snapshot>, s: Snapshot)
    requires i < |pools|
    requires Assemble(pools[..i], batch, getBlock) == Ok(rs)
    requires SnapshotFor(pools[i], batch, getBlock) == Ok(s)
    ensures Assemble(pools[..i + 1], batch, getBlock) == Ok(rs + [s])
  {
    assert pools[..i + 1][..i] == pools[..i];
  }

  /** An iteration that throws on top of a successful prefix is the exception of the whole loop. */
  lemma AssembleAbort(pools: seq<string>, i: nat, batch: BatchResult, getBlock: nat -> BlockLookup, rs: seq<Snapshot>, e: Error)
    requires i < |pools|
    requires Assemble(pools[..i], batch, getBlock) == Ok(rs)
    requires SnapshotFor(pools[i], batch, getBlock) == Err(e)
    ensures Assemble(pools, batch, getBlock) == Err(e)
  {
    assert pools[..i + 1][..i] == pools[..i];
    assert Assemble(pools[..i + 1], batch, getBlock) == Err(e);
    AssemblePrefixErr(pools, i + 1, batch, getBlock);
  }

  /** An exception in a prefix of the loop is the exception of the whole loop. */
  lemma {:induction false} AssemblePrefixErr(pools: seq<string>, k: nat, batch: BatchResult, getBlock: nat -> BlockLookup)
    requires k <= |pools|
    requires Assemble(pools[..k], batch, getBlock).Err?
    ensures Assemble(pools, batch, getBlock) == Assemble(pools[..k], batch, getBlock)
    decreases |pools|
  {
    if k < |pools| {
      var pre := pools[..|pools| - 1];
      assert pre[..k] == pools[..k];
      AssemblePrefixErr(pre, k, batch, getBlock);
    } else {
      assert pools[..k] == pools;
    }
  }

  /**
   * The handler's loop: push one record per pool onto `poolsResults`, reading
   * the results, the block and the two return values in the source's order;
   * the first failing read throws and discards what was pushed.
   */
  method CollectSnapshots(pools: seq<string>, batch: BatchResult, getBlock: nat -> BlockLookup)
    returns (r: Result<seq<Snapshot>, Error>)
    ensures r == Assemble(pools, batch, getBlock)
  {
    var poolsResults: seq<Snapshot> := [];
    var i := 0;
    while i < |pools|
      invariant 0 <= i <= |pools|
      invariant Assemble(pools[..i], batch, getBlock) == Ok(poolsResults)
    {
      var address := pools[i];
      if address !in batch.results {
        AssembleAbort(pools, i, batch, getBlock, poolsResults, MissingResult(address));
        return Err(MissingResult(address));
      }
      var callContextReturns := batch.results[address].callsReturnContext;
      var blockNumber := batch.blockNumber;
      var block := getBlock(blockNumber);
      if block.LookupFailed? {
        AssembleAbort(pools, i, batch, getBlock, poolsResults, BlockLookupFailed(block.message));
        return Err(BlockLookupFailed(block.message));
      }
      var blockTimestamp := if block.Found? then block.timestamp else 0;
      if |callContextReturns| <= SHARES_CALL || |callContextReturns[SHARES_CALL].returnValues| == 0 {
        AssembleAbort(pools, i, batch, getBlock, poolsResults, MissingReturnValue(address, SHARES_CALL));
        return Err(MissingReturnValue(address, SHARES_CALL));
      }
      var totalShares := DecodeHex(callContextReturns[SHARES_CALL].returnValues[0]);
      if |callContextReturns| <= BALANCE_CALL || |callContextReturns[BALANCE_CALL].returnValues| == 0 {
        AssembleAbort(pools, i, batch, getBlock, poolsResults, MissingReturnValue(address, BALANCE_CALL));
        return Err(MissingReturnValue(address, BALANCE_CALL));
      }
      var currentUsdBalance := DecodeHex(callContextReturns[BALANCE_CALL].returnValues[0]);
      var record := Snapshot(address, blockNumber, blockTimestamp * 1000, totalShares, currentUsdBalance);
      AssembleExtend(pools, i, batch, getBlock, poolsResults, record);
      poolsResults := poolsResults + [record];
      i := i + 1;
    }
    assert pools[..i] == pools;
    return Ok(poolsResults);
  }
}
