/**
  What the chaincode sees of its host: the response it returns, the ledger it
  reads and writes through the stub, and the host's failures, which are an
  input to each invocation because nothing in the chaincode decides them.
 */
module Shim {
  import opened Wrappers
  import Decimal

  /** peer.Response as the chaincode builds it: shim.Success(payload) or shim.Error(message).
      Panic stands for a Go run-time fault (an index out of range): the host gets no response. */
  datatype Response = Success(payload: string) | Error(msg: string) | Panic(reason: string)

  /** The message of Go's run-time fault for indexing a slice of length n at i. */
  function IndexOutOfRange(i: nat, n: nat): string {
    "runtime error: index out of range [" + Decimal.FormatUint(i) + "] with length " + Decimal.FormatUint(n)
  }

  /** How the host answers one invocation's ledger calls: the error of its one GetState, if any,
      and whether its first and its second PutState fail. */
  datatype HostFaults = HostFaults(readError: Option<string>, firstPutFails: bool, secondPutFails: bool)

  const NoFaults := HostFaults(None, false, false)

  /** The value a ledger map holds under key; None for a key never written. */
  function Lookup(ledger: map<string, string>, key: string): Option<string> {
    if key in ledger then Some(ledger[key]) else None
  }

  /** The ledger behind shim.ChaincodeStubInterface: a key with no entry has no value. */
  class Stub {
    var state: map<string, string>

    constructor (initial: map<string, string>)
      ensures state == initial
    {
      state := initial;
    }

    /** stub.GetState(key): the stored value, None for a key never written, or the host's read error. */
    function GetState(key: string, readError: Option<string>): (r: Result<Option<string>, string>)
      reads this
      ensures readError.Some? ==> r == Err(readError.value)
      ensures readError.None? ==> r.Ok? && (r.value.Some? <==> key in state)
      ensures r.Ok? && r.value.Some? ==> r.value.value == state[key]
    {
      match readError
      case Some(e) => Err(e)
      case None => Ok(Lookup(state, key))
    }

    /** stub.PutState(key, value): ok unless the host fails the write, which then changes nothing. */
    method PutState(key: string, value: string, fails: bool) returns (ok: bool)
      modifies this
      ensures ok == !fails
      ensures state == if ok then old(state)[key := value] else old(state)
    {
      ok := !fails;
      if ok {
        state := state[key := value];
      }
    }
  }
}
