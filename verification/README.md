# Multicall indexer: the snapshot pipeline

This project models the pool-snapshot handlers of the multicall indexer. The
handlers are `api/multicall_polygon.ts`, `api/multicall_arbitrum.ts`,
`api/multicall_optimism.ts` and the single-pool `api/multicall.ts`. Each run
does the same four things:

1. **Plan.** Build one call context per pool. Its reference and contract
   address are the pool's address, and it carries two parameterless calls:
   the total-shares getter, then `currentUSDBalance`.
2. **Execute.** Send the contexts to `multicall.call` in one batch. The
   result holds each pool's positional return values and the one block
   number the batch was read at.
3. **Assemble.** Loop over the pools in order. Each iteration looks up the
   pool's results, asks the provider for the block, and turns the
   hexadecimal return values at call 0 and call 1 into decimal strings. It
   then pushes `{address, block, blockTime, totalShares, currentUsdBalance}`.
4. **Commit.** Insert every record with one `createMany`. The single-pool
   handler does one `create` instead. Any exception on the way means
   nothing is written and the outcome is an error.

The three bulk handlers differ only in their pool list, their target table
and their RPC endpoint, which is not modelled.
The model writes the pipeline once (`Pipeline.Run`, over a `Network` value)
and instantiates it per network (`Networks`).

Modules, leaf first:

- `Wrappers`: `Option` and `Result`.
- `Numerals`: digits and value of a natural number in any base, both ways.
- `Codec`: reading a `0x` literal and printing base ten. `DecodeHex` models
  `new BigNumber(hex).toString()`.
- `Planner`: the `callContext` list.
- `Assembler`: the batch-result types, `SnapshotFor` (one iteration),
  `Assemble` (the loop as a function) and `CollectSnapshots` (the loop
  itself, proved equal to `Assemble`).
- `Pipeline`: the store table as a class whose rows are only appended, and
  `Run`.
- `Networks`: the configured pools and handlers, and the single-pool variant.
- `Scenarios`: worked runs on a two-pool batch.

External collaborators become parameters:

- The batch call is an `Executor`, a function from the plan to a result or
  an error message.
- `provider.getBlock` is a function from a block number to `Found(seconds)`,
  `NotFound` (the provider returned null) or `LookupFailed` (the promise
  rejected).
- `POOL_ADDRESS` is a parameter of the single-pool handler.

Three behaviours of the code are easy to miss:

- A return value BigNumber cannot read as a number, such as a malformed or
  mixed-case literal like `0xaB`, becomes NaN. The string "NaN" is stored,
  and nothing is thrown.
- An empty pool list gives an empty plan, and the loop builds no record.
- `getBlock` is called in every iteration with the same block number. A
  deterministic lookup gives every record the same time, and the first
  rejected lookup aborts the run.

## Model

| member | source | states |
|---|---|---|
| `Codec.DecodeHex` | api/multicall_polygon.ts:62-74 | the stored quantity denotes exactly the integer the `0x` return value encodes (`ParseDecimal(s) == ParseHex(hex)`); it is a canonical digit string when the input is hexadecimal, and "NaN" exactly when it is not |
| `Codec.MixedCaseIsNaN` | api/multicall_polygon.ts:62-67 | a return value whose digits mix lower-case and upper-case letters is not a number and is stored as "NaN", as BigNumber re-cases only a wholly one-case string |
| `Codec.HexRoundTrip` | api/multicall_polygon.ts:62-67 | reading the `0x` form of any natural number gives that number back, so no value is lost at any width |
| `Codec.ToDecimal` | api/multicall_polygon.ts:73-74 | the decimal printed for `n` is canonical (digits only, no leading zero) and reads back as `n`; this is BigNumber's `toString()` below 1e21 |
| `Codec.DecimalRoundTrip` | api/multicall_polygon.ts:73-74 | every canonical decimal is the printed form of the number it denotes, so printing is a bijection onto canonical decimals |
| `Planner.Plan` | api/multicall_polygon.ts:30-48 | no contract of its own; the `POOLS.map` plan, whose meaning `Planner.PlanReferences` and `Planner.PlanShape` state |
| `Planner.PlanReferences` | api/multicall_polygon.ts:30-34 | the references of the plan are the pool addresses, one per pool, in pool order |
| `Planner.PlanShape` | api/multicall_polygon.ts:30-48 | each context's reference and contract address equal its pool's address; its calls are the shares getter then `currentUSDBalance`, and neither has parameters |
| `Assembler.BlockTimeMillis` | api/multicall_polygon.ts:60-72 | the block time is a whole number of seconds in milliseconds; the seconds of a found block are recovered by dividing by 1000; the result is 0 exactly when the block is missing or stamped at the epoch, so the fallback cannot be told apart from the epoch |
| `Assembler.SnapshotFor` | api/multicall_polygon.ts:55-75 | one iteration succeeds iff the pool has results with a value at call 0 and at call 1 and the block lookup does not reject; the error is the first step that throws, in the source's order: a pool missing from the results throws `MissingResult`, then a rejected block lookup, then a missing value at call 0, then at call 1; the record carries the address, the batch block number and the block time, and its quantities denote the hexadecimal values at call 0 (shares) and call 1 (balance) |
| `Assembler.Assemble` | api/multicall_polygon.ts:54-76 | no contract of its own; the loop as a function, whose meaning `Assembler.AssembleRecords`, `Assembler.AssembleSnapshots`, `Assembler.AssembleOkIff` and `Assembler.AssembleFirstError` state |
| `Assembler.AssembleRecords` | api/multicall_polygon.ts:54-76 | a successful loop yields one record per pool, and record `i` is exactly pool `i`'s iteration result |
| `Assembler.AssembleSnapshots` | api/multicall_polygon.ts:54-76 | a successful loop yields `|POOLS|` records in pool order; all of them carry the batch's block number and the same block time; each quantity denotes its hexadecimal return value |
| `Assembler.AssembleOkIff` | api/multicall_polygon.ts:55-67 | the loop succeeds iff every pool's two return values are present and, when there is a pool, the block lookup does not reject |
| `Assembler.AssembleFirstError` | api/multicall_polygon.ts:55-57 | a failed loop reports the exception of the first pool whose iteration throws; all pools before it assemble without error |
| `Assembler.CollectSnapshots` | api/multicall_polygon.ts:54-76 | the imperative loop that pushes onto `poolsResults` returns exactly `Assemble`: all records in pool order, or the first exception |
| `Pipeline.PoolTable.CreateMany` | api/multicall_polygon.ts:78-80 | one bulk insert appends the given rows, in order, and answers their count |
| `Pipeline.PoolTable.Create` | api/multicall.ts:57-65 | one insert appends exactly that row and returns it |
| `Pipeline.Snapshots` | api/multicall_polygon.ts:50-76 | no contract of its own; the batch call then the loop, whose meaning `Pipeline.AllOrNothing` and `Pipeline.CompleteAnswerAssembles` state |
| `Pipeline.Run` | api/multicall_polygon.ts:25-89 | the table is written once, after the loop, with every record of the run, and the outcome is the pool count; if the batch call or any iteration throws, the table is unchanged and the outcome is that error |
| `Pipeline.AllOrNothing` | api/multicall_polygon.ts:50-89 | a run produces records iff the batch call succeeds, the block lookup does not reject and every pool's two values are present; one unresolved pool fails the whole run |
| `Pipeline.CompleteAnswerAssembles` | api/multicall_polygon.ts:30-67 | positional decoding matches the plan: a batch that returns a value for every planned call of every context, read at a block whose lookup does not reject, assembles a record for every pool |
| `Networks.NetworkPlanShape` | api/multicall_arbitrum.ts:26-44 | for any network, the plan's references are the network's pools in order; each context targets its pool and reads the network's shares getter then `currentUSDBalance` without parameters; this covers the bulk networks' `get_s_totalShares` and the single-pool `s_totalShares` |
| `Networks.PolygonPlan` | api/multicall_polygon.ts:13-48 | the polygon plan has three contexts, keyed by the three configured pools in order, each reading shares then balance |
| `Networks.ArbitrumPlan` | api/multicall_arbitrum.ts:13-44 | the arbitrum plan is one context whose reference and contract address are the ETH-USDC pool, reading shares then balance |
| `Networks.OptimismPlan` | api/multicall_optimism.ts:13-44 | the optimism plan is one context whose reference and contract address are the ETH-SNX pool, reading shares then balance |
| `Networks.PolygonHandler` | api/multicall_polygon.ts:22-90 | all three polygon records go into `polygonPool` in one insert and the outcome is a count of 3; on any exception nothing is written and the error is the outcome |
| `Networks.ArbitrumHandler` | api/multicall_arbitrum.ts:18-86 | the arbitrum record goes into `arbitrumPool` with a count of 1; on any exception nothing is written |
| `Networks.OptimismHandler` | api/multicall_optimism.ts:18-86 | the optimism record goes into `optimismPool` with a count of 1; on any exception nothing is written |
| `Networks.SingleContext` | api/multicall.ts:21-39 | no contract of its own; the literal context list, which `Networks.SingleContextIsPlan` relates to the plan |
| `Networks.SingleSnapshot` | api/multicall.ts:41-55 | no contract of its own; the straight-line body, which `Networks.SingleIsOnePoolRun` relates to the bulk loop |
| `Networks.SingleContextIsPlan` | api/multicall.ts:21-39 | the literal context list is the plan of the one-pool network: keyed by `POOL_ADDRESS`, reading `s_totalShares` then `currentUSDBalance` through `ChamberV1` |
| `Networks.SingleIsOnePoolRun` | api/multicall.ts:41-55 | the single handler's straight-line body computes what the bulk loop computes for the one pool: the same record, or the same error |
| `Networks.SingleHandler` | api/multicall.ts:12-75 | on success exactly one row is inserted, with `address = POOL_ADDRESS` and the batch block number, and it is the outcome; on any exception nothing is inserted and the error is the outcome |
| `Scenarios.TwoPoolRun` | api/multicall_polygon.ts:54-76 | pools A and B, with values 0x64/0x3e8 and 0xc8/0x7d0 at block 100 stamped 1700000000 s, give the records (A, 100, 1700000000000 ms, "100", "1000") and (B, 100, 1700000000000 ms, "200", "2000") |
| `Scenarios.UnknownBlockRun` | api/multicall_polygon.ts:60-61 | the same batch with an unknown block still gives both records, stamped 0 |
| `Scenarios.MissingPoolRun` | api/multicall_polygon.ts:56-57 | if B is absent from the results, the run throws on B, so A's record is not produced either |

## Left out

- The HTTP shell is not modelled: the Vercel request and response, the 200 and 500 status codes and `verifySignature`. A run's outcome is `Ok(count)`, or `Ok(row)` for the single-pool handler, or `Err(error)`. The exception's `toString()` text is an `Error` value that names the failing step.
- The `ethereum-multicall` library's ABI encoding and RPC are not modelled. The batch call is the `Executor` parameter. That every pool is read at the batch's one block number is taken from the shape of `BatchResult`, not proved.
- The `ethers` provider's network lookup is not modelled. `getBlock` is a deterministic parameter, so records cannot get different block times through RPC flakiness.
- Prisma is not modelled beyond an append-only table. A rejected `createMany` or `create` (a storage write error) is not modelled, so the model's inserts always succeed.
- `Codec.DecodeHex`: only `0x`/`0X` followed by hexadecimal digits whose letters are of one case is read as a number, and everything else becomes "NaN". bignumber.js would also read, for example, a plain decimal string, a sign or a fractional part, but the multicall library's `hex` field is always a `0x` literal. Its printing is that of `Codec.ToDecimal`, below.
- `Codec.ToDecimal`: prints plain digits for every `n`. bignumber.js `toString()` switches to exponential notation (such as "1.5e+21") from 1e21 upward, its default `EXPONENTIAL_AT`, which share counts with 18 decimals commonly reach. That formatting belongs to the library, not to this repository's code, and is not modelled, so stored strings for such values differ from the model's.
- `Assembler.BlockTimeMillis`: the `* 1e3` float product and the `Date` object are a natural number of milliseconds. JavaScript's `Date` range limit is not modelled.
- Environment reads (`*_RPC_ENDPOINT`, `POOL_ADDRESS`) and the ABI JSON files are not modelled. The endpoint does not appear in the model, `POOL_ADDRESS` is a parameter, and an ABI is named by its file name.
- JavaScript property lookup on `results` is a map lookup. Keys that hit `Object.prototype` members are not modelled.
- `api/hello.ts` answers a constant greeting and has no logic.
- Handlers for different networks share nothing, so running them concurrently is not modelled.
