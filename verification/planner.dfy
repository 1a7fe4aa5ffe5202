/**
 * The batch call planner: the `callContext` list every handler hands to
 * `multicall.call`, one context per pool address with the same ordered,
 * parameterless calls.
 */
module Planner {

  /** One contract read: `reference` names the call in the results, `methodName` the ABI method. */
  datatype Call = Call(reference: string, methodName: string, methodParameters: seq<string>)

  /** The reads aimed at one contract; `abi` names the ABI file the calls are encoded with. */
  datatype CallContext = CallContext(reference: string, contractAddress: string, abi: string, calls: seq<Call>)

  const CURRENT_USD_BALANCE: string := "currentUSDBalance"

  /** The two snapshot reads, total shares first: results are decoded by position, so the order matters. */
  function SnapshotCalls(sharesMethod: string): seq<Call> {
    [ Call(sharesMethod + "Call", sharesMethod, []),
      Call(CURRENT_USD_BALANCE + "Call", CURRENT_USD_BALANCE, []) ]
  }

  /** `POOLS.map(address => ({reference: address, contractAddress: address, abi, calls}))`. */
  function Plan(addresses: seq<string>, abi: string, calls: seq<Call>): seq<CallContext> {
    seq(|addresses|, i requires 0 <= i < |addresses| => CallContext(addresses[i], addresses[i], abi, calls))
  }

  /** The references of a plan, in order: the keys its results come back under. */
  function References(plan: seq<CallContext>): seq<string> {
    if plan == [] then [] else [plan[0].reference] + References(plan[1..])
  }

  /** The method names of a context's calls, in order. */
  function MethodNames(calls: seq<Call>): seq<string> {
    if calls == [] then [] else [calls[0].methodName] + MethodNames(calls[1..])
  }

  /** The plan is keyed by the pool addresses themselves, in input order, one context each. */
  lemma {:induction false} PlanReferences(addresses: seq<string>, abi: string, calls: seq<Call>)
    ensures References(Plan(addresses, abi, calls)) == addresses
  {
    if addresses != [] {
      assert Plan(addresses, abi, calls)[1..] == Plan(addresses[1..], abi, calls);
      PlanReferences(addresses[1..], abi, calls);
    }
  }

  /**
   * Every context of the plan targets the address it is named after and
   * carries the same calls, which are the shares getter and then
   * `currentUSDBalance`, both without parameters.
   */
  lemma PlanShape(addresses: seq<string>, abi: string, sharesMethod: string)
    ensures |Plan(addresses, abi, SnapshotCalls(sharesMethod))| == |addresses|
    ensures forall i :: 0 <= i < |addresses| ==>
      var c := Plan(addresses, abi, SnapshotCalls(sharesMethod))[i];
      && c.reference == addresses[i] && c.contractAddress == addresses[i] && c.abi == abi
      && MethodNames(c.calls) == [sharesMethod, CURRENT_USD_BALANCE]
      && forall k :: 0 <= k < |c.calls| ==> c.calls[k].methodParameters == []
  {
    var calls := SnapshotCalls(sharesMethod);
    assert calls[1..][1..] == [];
    assert MethodNames(calls[1..]) == [CURRENT_USD_BALANCE] + MethodNames(calls[1..][1..]);
    assert MethodNames(calls) == [sharesMethod] + MethodNames(calls[1..]);
  }
}
