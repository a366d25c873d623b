/**
  The nonce-guarded asset store (chaincode/sacc/sacc.go).

  The service keeps an in-memory counter, SimpleAsset.nonce, and mirrors a
  nonce into the ledger under the reserved key "nonce". A "set" transaction
  reads the stored nonce, refuses with "double spent" when the counter is
  behind it, and otherwise bumps the counter and writes the asset. Every
  other function name is a "get".

  InitStep and InvokeStep give the whole effect of one call on a State (the
  counter and the ledger); the methods of SimpleAsset perform the same calls
  on a Stub in the order the source issues them and are proved to agree with
  them. The lemmas state what the source does in terms of the step functions.
 */
module Sacc {
  import opened Wrappers
  import opened Decimal
  import opened Shim

  const NONCE_KEY := "nonce"
  const KEY_AND_VALUE_EXPECTED := "Incorrect arguments. Expecting a key and a value"
  const KEY_EXPECTED := "Incorrect arguments. Expecting a key"
  const DOUBLE_SPENT := "double spent"
  const INIT_NONCE_FAILED := "failed to init nonce"

  /** The service as a value: the in-memory counter and the ledger. */
  datatype State = State(nonce: u64, ledger: map<string, string>)

  /** What one call returns, and the state it leaves. */
  datatype Step = Step(response: Response, state: State)

  /** What set returns: its string result, its error, and the ledger after its writes. */
  datatype SetOutcome = SetOutcome(result: string, err: Option<string>, ledger: map<string, string>)

  /** t.nonce++ on a uint64, which wraps from 2^64 - 1 to 0. */
  function Increment(n: u64): (r: u64)
    ensures n < U64_LIMIT - 1 ==> r == n + 1
    ensures n == U64_LIMIT - 1 ==> r == 0
  {
    (n + 1) % U64_LIMIT
  }

  /** The text the set branch parses: the stored nonce, or "0" when the ledger holds none or an empty one. */
  function NonceText(stored: Option<string>): string {
    if stored.None? || stored.value == "" then "0" else stored.value
  }

  /** The stored nonce as the set branch reads it, when the ledger read succeeds. */
  function StoredNonce(ledger: map<string, string>): Result<u64, NumError> {
    ParseUint(NonceText(Lookup(ledger, NONCE_KEY)))
  }

  /** get (sacc.go:108-121) on the ledger map. */
  function Get(ledger: map<string, string>, args: seq<string>, readError: Option<string>): (r: Result<string, string>)
    ensures r.Ok? <==> |args| == 1 && readError.None? && args[0] in ledger
    ensures r.Ok? ==> r.value == ledger[args[0]]
    ensures |args| != 1 ==> r == Err(KEY_EXPECTED)
    ensures |args| == 1 && readError.Some? ==>
              r == Err("Failed to get asset: " + args[0] + " with error: " + readError.value)
    ensures |args| == 1 && readError.None? && args[0] !in ledger ==> r == Err("Asset not found: " + args[0])
  {
    if |args| != 1 then Err(KEY_EXPECTED)
    else if readError.Some? then Err("Failed to get asset: " + args[0] + " with error: " + readError.value)
    else if args[0] !in ledger then Err("Asset not found: " + args[0])
    else Ok(ledger[args[0]])
  }

  /** set (sacc.go:91-105): write the asset, then write back the nonce it was given. */
  function SetSpec(ledger: map<string, string>, args: seq<string>, nonce: u64, faults: HostFaults): SetOutcome {
    if |args| != 2 then SetOutcome("", Some(KEY_AND_VALUE_EXPECTED), ledger)
    else if faults.firstPutFails then SetOutcome("", Some("Failed to set asset: " + args[0]), ledger)
    else
      var written := ledger[args[0] := args[1]];
      if faults.secondPutFails then SetOutcome("", Some("Failed to set nonce: " + args[0]), written)
      else SetOutcome(args[1], None, written[NONCE_KEY := FormatUint(nonce)])
  }

  /** Init (sacc.go:26-44). */
  function InitStep(s: State, args: seq<string>, faults: HostFaults): Step {
    if |args| != 2 then Step(Error(KEY_AND_VALUE_EXPECTED), s)
    else if faults.firstPutFails then Step(Success(INIT_NONCE_FAILED), s)
    else
      var reset := State(0, s.ledger[NONCE_KEY := FormatUint(0)]);
      if faults.secondPutFails then Step(Error("Failed to create asset: " + args[0]), reset)
      else Step(Success(""), reset)
  }

  /** Invoke (sacc.go:49-87). The error set returns is dropped: it is assigned to the err
      declared inside the set branch, and the check after the branch reads the outer one. */
  function InvokeStep(s: State, fn: string, args: seq<string>, faults: HostFaults): Step {
    if fn == "set" then
      if faults.readError.Some? then Step(Error(faults.readError.value), s)
      else
        var nonceStr := NonceText(Lookup(s.ledger, NONCE_KEY));
        match ParseUint(nonceStr)
        case Err(e) => Step(Error(NumErrorMessage(nonceStr, e)), s)
        case Ok(nonce) =>
          if s.nonce < nonce then Step(Error(DOUBLE_SPENT), s)
          else
            var outcome := SetSpec(s.ledger, args, nonce, faults);
            Step(Success(outcome.result), State(Increment(s.nonce), outcome.ledger))
    else
      match Get(s.ledger, args, faults.readError)
      case Ok(v) => Step(Success(v), s)
      case Err(e) => Step(Error(e), s)
  }

  /** set, issuing its two ledger writes in order. */
  method Set(stub: Stub, args: seq<string>, nonce: u64, faults: HostFaults) returns (result: string, err: Option<string>)
    modifies stub
    ensures SetOutcome(result, err, stub.state) == SetSpec(old(stub.state), args, nonce, faults)
  {
    if |args| != 2 {
      return "", Some(KEY_AND_VALUE_EXPECTED);
    }
    var ok := stub.PutState(args[0], args[1], faults.firstPutFails);
    if !ok {
      return "", Some("Failed to set asset: " + args[0]);
    }
    ok := stub.PutState(NONCE_KEY, FormatUint(nonce), faults.secondPutFails);
    if !ok {
      return "", Some("Failed to set nonce: " + args[0]);
    }
    return args[1], None;
  }

  class SimpleAsset {
    var nonce: u64

    /** new(SimpleAsset): the counter starts at zero, whatever the ledger holds. */
    constructor ()
      ensures nonce == 0
    {
      nonce := 0;
    }

    method Init(stub: Stub, args: seq<string>, faults: HostFaults) returns (r: Response)
      modifies this, stub
      ensures Step(r, State(nonce, stub.state)) == InitStep(State(old(nonce), old(stub.state)), args, faults)
    {
      if |args| != 2 {
        return Error(KEY_AND_VALUE_EXPECTED);
      }
      var ok := stub.PutState(NONCE_KEY, FormatUint(0), faults.firstPutFails);
      if !ok {
        return Success(INIT_NONCE_FAILED);
      }
      nonce := 0;
      ok := stub.PutState(NONCE_KEY, FormatUint(nonce), faults.secondPutFails);
      if !ok {
        return Error("Failed to create asset: " + args[0]);
      }
      return Success("");
    }

    method Invoke(stub: Stub, fn: string, args: seq<string>, faults: HostFaults) returns (r: Response)
      modifies this, stub
      ensures Step(r, State(nonce, stub.state)) == InvokeStep(State(old(nonce), old(stub.state)), fn, args, faults)
    {
      var result := "";
      var err: Option<string> := None;
      if fn == "set" {
        var nonceBytes := stub.GetState(NONCE_KEY, faults.readError);
        if nonceBytes.Err? {
          return Error(nonceBytes.error);
        }
        var nonceStr := NonceText(nonceBytes.value);
        var parsed := ParseUint(nonceStr);
        if parsed.Err? {
          return Error(NumErrorMessage(nonceStr, parsed.error));
        }
        var nonce := parsed.value;
        if this.nonce < nonce {
          return Error(DOUBLE_SPENT);
        }
        this.nonce := Increment(this.nonce);
        // The block's own err, the one declared with nonceBytes.
        var err: Option<string>;
        result, err := Set(stub, args, nonce, faults);
      } else {
        match Get(stub.state, args, faults.readError)
        case Ok(v) => result := v;
        case Err(e) => err := Some(e);
      }
      if err.Some? {
        return Error(err.value);
      }
      return Success(result);
    }
  }

  // ---------------------------------------------------------------------------
  // Init

  /** Init with other than two arguments fails and changes neither the counter nor the ledger. */
  lemma InitRejectsArgCount(s: State, args: seq<string>, faults: HostFaults)
    requires |args| != 2
    ensures InitStep(s, args, faults) == Step(Error(KEY_AND_VALUE_EXPECTED), s)
  {
  }

  /** A successful Init stores nonce "0", zeroes the counter and leaves every other key alone. */
  lemma InitResets(s: State, args: seq<string>)
    requires |args| == 2
    ensures var st := InitStep(s, args, NoFaults);
      && st.response == Success("")
      && st.state.nonce == 0
      && NONCE_KEY in st.state.ledger && st.state.ledger[NONCE_KEY] == "0"
      && StoredNonce(st.state.ledger) == Ok(0)
      && forall k :: k != NONCE_KEY ==> Lookup(st.state.ledger, k) == Lookup(s.ledger, k)
  {
  }

  /** When the first nonce write fails, Init still answers with a success payload and changes
      nothing; when only the second fails, the reset has happened and the answer is an error. */
  lemma InitWriteFailures(s: State, args: seq<string>, faults: HostFaults)
    requires |args| == 2
    ensures faults.firstPutFails ==> InitStep(s, args, faults) == Step(Success(INIT_NONCE_FAILED), s)
    ensures !faults.firstPutFails && faults.secondPutFails ==>
              InitStep(s, args, faults) ==
              Step(Error("Failed to create asset: " + args[0]), State(0, s.ledger[NONCE_KEY := "0"]))
  {
  }

  // ---------------------------------------------------------------------------
  // The nonce guard

  /** A failed read of the stored nonce answers with the host's error and changes nothing. */
  lemma SetReadError(s: State, args: seq<string>, faults: HostFaults)
    requires faults.readError.Some?
    ensures InvokeStep(s, "set", args, faults) == Step(Error(faults.readError.value), s)
  {
  }

  /** No stored nonce, or an empty one, reads as 0, which never refuses: the counter advances. */
  lemma AbsentNonceReadsAsZero(s: State, args: seq<string>, faults: HostFaults)
    requires faults.readError.None?
    requires NONCE_KEY !in s.ledger || s.ledger[NONCE_KEY] == ""
    ensures StoredNonce(s.ledger) == Ok(0)
    ensures InvokeStep(s, "set", args, faults).response.Success?
    ensures InvokeStep(s, "set", args, faults).state.nonce == Increment(s.nonce)
  {
    FormatThenParse(0);
  }

  /** A stored nonce that is not decimal answers with the parse error; no write, no counter change. */
  lemma MalformedNonce(s: State, args: seq<string>, faults: HostFaults)
    requires faults.readError.None?
    requires NONCE_KEY in s.ledger && s.ledger[NONCE_KEY] != ""
    requires !IsDecimal(s.ledger[NONCE_KEY])
    ensures ParseUint(s.ledger[NONCE_KEY]).Err?
    ensures InvokeStep(s, "set", args, faults) ==
            Step(Error(NumErrorMessage(s.ledger[NONCE_KEY], ParseUint(s.ledger[NONCE_KEY]).error)), s)
  {
    ParseUintMeansValue(s.ledger[NONCE_KEY]);
  }

  /** A counter behind the stored nonce refuses with "double spent"; no write, no counter change. */
  lemma DoubleSpentRefused(s: State, args: seq<string>, faults: HostFaults, stored: u64)
    requires faults.readError.None?
    requires StoredNonce(s.ledger) == Ok(stored) && s.nonce < stored
    ensures InvokeStep(s, "set", args, faults) == Step(Error(DOUBLE_SPENT), s)
  {
  }

  /** Past the guard the counter goes up by one (mod 2^64) whatever set then does, and the answer
      is a success: set's own errors, wrong arguments or failed writes, answer Success(""). */
  lemma GuardPassedAdvancesCounter(s: State, args: seq<string>, faults: HostFaults, stored: u64)
    requires faults.readError.None?
    requires StoredNonce(s.ledger) == Ok(stored) && stored <= s.nonce
    ensures var st := InvokeStep(s, "set", args, faults);
      && st.state.nonce == Increment(s.nonce)
      && st.response.Success?
      && (st.response.payload != "" ==> |args| == 2 && st.response.payload == args[1])
      && (|args| != 2 || faults.firstPutFails || faults.secondPutFails ==> st.response == Success(""))
      && (|args| != 2 || faults.firstPutFails ==> st.state.ledger == s.ledger)
  {
  }

  /** A set with a key and a value and no failing write stores the value, then writes back the
      nonce it read, so the stored nonce keeps its value; the answer is the value. */
  lemma SetStoresValueKeepsNonce(s: State, key: string, value: string, stored: u64)
    requires StoredNonce(s.ledger) == Ok(stored) && stored <= s.nonce
    ensures var st := InvokeStep(s, "set", [key, value], NoFaults);
      && st.response == Success(value)
      && st.state.ledger == s.ledger[key := value][NONCE_KEY := FormatUint(stored)]
      && StoredNonce(st.state.ledger) == Ok(stored)
  {
    FormatThenParse(stored);
  }

  // ---------------------------------------------------------------------------
  // get and dispatch

  /** Every function name other than "set" is handled as "get", which changes nothing. */
  lemma OtherNamesAreGet(s: State, fn: string, args: seq<string>, faults: HostFaults)
    requires fn != "set"
    ensures InvokeStep(s, fn, args, faults) == InvokeStep(s, "get", args, faults)
    ensures InvokeStep(s, fn, args, faults).state == s
  {
  }

  /** get answers the stored value, "Asset not found" for a key never written, and an error for
      other than one argument; it never changes state. */
  lemma GetAnswers(s: State, args: seq<string>)
    ensures var st := InvokeStep(s, "get", args, NoFaults);
      && st.state == s
      && (|args| != 1 ==> st.response == Error(KEY_EXPECTED))
      && (|args| == 1 && args[0] !in s.ledger ==> st.response == Error("Asset not found: " + args[0]))
      && (|args| == 1 && args[0] in s.ledger ==> st.response == Success(s.ledger[args[0]]))
  {
  }

  /** After a successful set of a key other than "nonce", get of that key answers the value. */
  lemma SetThenGet(s: State, key: string, value: string, stored: u64)
    requires key != NONCE_KEY
    requires StoredNonce(s.ledger) == Ok(stored) && stored <= s.nonce
    ensures var st := InvokeStep(s, "set", [key, value], NoFaults);
      && st.response == Success(value)
      && InvokeStep(st.state, "get", [key], NoFaults).response == Success(value)
  {
  }

  // ---------------------------------------------------------------------------
  // What the guard guards against, as written

  /** The stored nonce reads as 0 and the only writes this service makes keep it so, short of a
      set of the key "nonce" itself whose nonce write then fails. So once Init has run, every set
      whose nonce read succeeds passes the guard: "double spent" cannot happen. */
  lemma StoredNonceStaysZero(s: State, fn: string, args: seq<string>, faults: HostFaults)
    requires StoredNonce(s.ledger) == Ok(0)
    requires !(fn == "set" && |args| == 2 && args[0] == NONCE_KEY && !faults.firstPutFails && faults.secondPutFails)
    ensures var st := InvokeStep(s, fn, args, faults);
      && StoredNonce(st.state.ledger) == Ok(0)
      && (fn == "set" && faults.readError.None? ==> st.response.Success? && st.state.nonce == Increment(s.nonce))
  {
    FormatThenParse(0);
    if fn == "set" && faults.readError.None? && |args| == 2 && !faults.firstPutFails {
      var st := InvokeStep(s, fn, args, faults);
      if !faults.secondPutFails {
        assert st.state.ledger[NONCE_KEY] == FormatUint(0);
      } else {
        assert Lookup(st.state.ledger, NONCE_KEY) == Lookup(s.ledger, NONCE_KEY);
      }
    }
  }

  /** Init, then the same set twice: both answer the value. A replayed set is not refused. */
  lemma ReplayedSetAccepted(s: State, initArgs: seq<string>, key: string, value: string)
    requires |initArgs| == 2
    ensures var s1 := InitStep(s, initArgs, NoFaults).state;
      var st2 := InvokeStep(s1, "set", [key, value], NoFaults);
      var st3 := InvokeStep(st2.state, "set", [key, value], NoFaults);
      && st2.response == Success(value)
      && st3.response == Success(value)
      && st3.state.nonce == 2
  {
  }
}
