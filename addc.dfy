/**
  The token cache and random aggregation service (chaincode/addc/sacc.go).

  The service caches each user's token balance in memory, seeding an entry
  from the ledger the first time a user is named. "add" asks the two sibling
  services addc1 and addc2 for a random value, keeps the replies that are
  usable, stores one of them as the user's ledger value and answers the
  balance the user had before. "random" answers a fresh random value.

  The sibling replies and the random draw are inputs: replies[i] is what
  SIBLINGS[i] answered, and the draw is whatever the time-seeded generator
  produced.
 */
module Addc {
  import opened Wrappers
  import opened Decimal
  import opened Shim

  /** The services add asks, in the order it asks them: "addc" followed by 1, then 2. */
  const SIBLINGS: seq<string> := ["addc1", "addc2"]

  /** http.StatusOK, the only status whose payload is used. */
  const STATUS_OK := 200

  /** What stub.InvokeChaincode returns that add looks at. */
  datatype PeerReply = PeerReply(status: int, payload: string)

  /** The value a sibling's reply contributes: its payload as a number, if the status is 200 and
      the payload parses. */
  function Contribution(reply: PeerReply): Option<u64> {
    if reply.status != STATUS_OK then None
    else
      match ParseUint(reply.payload)
      case Ok(v) => Some(v)
      case Err(_) => None
  }

  function AsSeq(o: Option<u64>): seq<u64> {
    if o.Some? then [o.value] else []
  }

  /** The values addRand collects from the replies, in the order the siblings were asked. */
  function Collected(replies: seq<PeerReply>): seq<u64> {
    if replies == [] then []
    else Collected(replies[..|replies| - 1]) + AsSeq(Contribution(replies[|replies| - 1]))
  }

  /** The message of the fault res[0] raises when no value was collected. */
  const NO_VALUE_COLLECTED := IndexOutOfRange(0, 0)

  /** addRand (addc/sacc.go:104-126): ask each sibling, keep the usable replies, pick one. The pick
      is res[0] after a sort.Slice whose comparator compares positions, not values. The model
      does not say which value Go's sort leaves first: it picks some collected value, and the
      contract states only that. None is the run-time fault of res[0] on an empty res. */
  method AddRand(replies: seq<PeerReply>) returns (r: Option<string>)
    requires |replies| == |SIBLINGS|
    ensures r.None? <==> Collected(replies) == []
    ensures r.Some? ==> exists x :: x in Collected(replies) && r.value == FormatUint(x)
  {
    var res: seq<u64> := [];
    for i := 1 to 3
      invariant res == Collected(replies[..i - 1])
    {
      assert replies[..i][..i - 1] == replies[..i - 1];
      var resp := replies[i - 1];
      if resp.status != STATUS_OK {
        continue;
      }
      var v := ParseUint(resp.payload);
      if v.Err? {
        continue;
      }
      res := res + [v.value];
    }
    assert replies[..2] == replies;
    if |res| == 0 {
      return None;
    }
    // res[0] after sort.Slice: some element of res, which one is not modelled.
    assert res[0] in res;
    var picked :| picked in res;
    return Some(FormatUint(picked));
  }

  /** What add (addc/sacc.go:83-95) does to the ledger and answers, for the user's balance. */
  ghost predicate AddEffect(before: map<string, string>, after: map<string, string>, user: string,
                            balance: u64, replies: seq<PeerReply>, faults: HostFaults, r: Response)
  {
    if Collected(replies) == [] then
      r == Panic(NO_VALUE_COLLECTED) && after == before
    else if faults.firstPutFails then
      r == Error("failed to set asset " + FormatUint(balance) + " for " + user) && after == before
    else
      && r == Success(FormatUint(balance))
      && exists x :: x in Collected(replies) && after == before[user := FormatUint(x)]
  }

  /** add: store addRand's pick under the user; answer the balance it was given, as a Response
      (Success for add's string, Error for its error, Panic for addRand's fault). */
  method Add(stub: Stub, userID: string, token: u64, replies: seq<PeerReply>, faults: HostFaults) returns (r: Response)
    requires |replies| == |SIBLINGS|
    modifies stub
    ensures AddEffect(old(stub.state), stub.state, userID, token, replies, faults, r)
  {
    var res := AddRand(replies);
    if res.None? {
      return Panic(NO_VALUE_COLLECTED);
    }
    var ok := stub.PutState(userID, res.value, faults.firstPutFails);
    if !ok {
      return Error("failed to set asset " + FormatUint(token) + " for " + userID);
    }
    return Success(FormatUint(token));
  }

  /** random (addc/sacc.go:97-102), with the generator's draw as an input: always canonical decimal text. */
  function Random(draw: u64): (r: string)
    ensures IsCanonical(r) && ParseUint(r) == Ok(draw)
  {
    FormatThenParse(draw);
    FormatUint(draw)
  }

  /** toUint (addc/sacc.go:130-141): the decimal value of str, or 0 when str is not decimal. */
  function ToUint(str: string): (n: u64)
    ensures str == "" ==> n == 0
    ensures IsDecimal(str) ==> n == Value(str)
    ensures !IsDecimal(str) ==> n == 0
  {
    ParseUintMeansValue(str);
    if str == "" then 0
    else
      match ParseUint(str)
      case Err(_) => 0
      case Ok(v) => v
  }

  /** The outcome of the cache lookup that starts every Invoke (addc/sacc.go:48-66). */
  datatype Seeding = Seeded(balance: u64, token: map<string, u64>) | SeedFailed(msg: string)

  /** A cache hit passes the cached balance on; a miss reads the ledger: no value or an empty
      one seeds 0, a decimal seeds its value, anything else fails with the parse error. */
  function Seed(token: map<string, u64>, ledger: map<string, string>, user: string, readError: Option<string>): Seeding {
    if user in token then Seeded(token[user], token)
    else if readError.Some? then SeedFailed("user is not found, " + readError.value)
    else if user !in ledger || ledger[user] == "" then Seeded(0, token[user := 0])
    else
      match ParseUint(ledger[user])
      case Err(e) => SeedFailed(NumErrorMessage(ledger[user], e))
      case Ok(v) => Seeded(v, token[user := v])
  }

  class SimpleAsset {
    var token: map<string, u64>

    /** new(SimpleAsset): no balance is cached. */
    constructor ()
      ensures token == map[]
    {
      token := map[];
    }

    /** Init (addc/sacc.go:29-33): forget every cached balance. It is given no stub: it touches no ledger key. */
    method Init() returns (r: Response)
      modifies this
      ensures token == map[] && r == Success("")
    {
      token := map[];
      return Success("");
    }

    /** Invoke (addc/sacc.go:38-81). */
    method Invoke(stub: Stub, fn: string, args: seq<string>, replies: seq<PeerReply>, draw: u64,
                  faults: HostFaults) returns (r: Response)
      requires |replies| == |SIBLINGS|
      modifies this, stub
      ensures |args| == 0 ==>
                r == Panic(IndexOutOfRange(0, 0)) && token == old(token) && stub.state == old(stub.state)
      ensures |args| > 0 ==>
                match Seed(old(token), old(stub.state), args[0], faults.readError)
                case SeedFailed(msg) =>
                  r == Error(msg) && token == old(token) && stub.state == old(stub.state)
                case Seeded(balance, seeded) =>
                  && token == seeded
                  && (fn == "add" ==>
                        AddEffect(old(stub.state), stub.state, args[0], balance, replies, faults, r))
                  && (fn == "random" ==> r == Success(Random(draw)) && stub.state == old(stub.state))
                  && (fn != "add" && fn != "random" ==> r == Success("") && stub.state == old(stub.state))
    {
      if |args| == 0 {
        return Panic(IndexOutOfRange(0, 0));
      }
      var result := "";
      var v: u64 := 0;
      var ok := args[0] in token;
      if ok {
        v := token[args[0]];
      } else {
        var vv := stub.GetState(args[0], faults.readError);
        if vv.Err? {
          return Error("user is not found, " + vv.error);
        }
        if vv.value.None? || vv.value.value == "" {
          token := token[args[0] := 0];
        } else {
          var parsed := ParseUint(vv.value.value);
          if parsed.Err? {
            return Error(NumErrorMessage(vv.value.value, parsed.error));
          }
          v := parsed.value;
          token := token[args[0] := v];
        }
      }
      if fn == "add" {
        var added := Add(stub, args[0], v, replies, faults);
        if !added.Success? {
          return added;
        }
        result := added.payload;
      } else if fn == "random" {
        result := Random(draw);
      }
      return Success(result);
    }
  }

  // ---------------------------------------------------------------------------
  // Collecting the siblings' replies

  /** A reply contributes exactly when its status is 200 and its payload is decimal, and then
      it contributes the payload's value. */
  lemma ContributionMeans(reply: PeerReply)
    ensures Contribution(reply).Some? <==> reply.status == STATUS_OK && IsDecimal(reply.payload)
    ensures Contribution(reply).Some? ==> Contribution(reply).value == Value(reply.payload)
  {
    ParseUintMeansValue(reply.payload);
  }

  /** Collection keeps reply order: what earlier replies contribute comes first. */
  lemma {:induction false} CollectedAppend(a: seq<PeerReply>, b: seq<PeerReply>)
    ensures Collected(a + b) == Collected(a) + Collected(b)
    decreases |b|
  {
    if b == [] {
      assert a + b == a;
    } else {
      var b' := b[..|b| - 1];
      assert (a + b)[..|a + b| - 1] == a + b';
      CollectedAppend(a, b');
    }
  }

  /** With the two siblings, the collected list is addc1's contribution, then addc2's. */
  lemma CollectedFromSiblings(replies: seq<PeerReply>)
    requires |replies| == |SIBLINGS|
    ensures Collected(replies) == AsSeq(Contribution(replies[0])) + AsSeq(Contribution(replies[1]))
    ensures |Collected(replies)| <= 2
  {
    assert replies[..1] == [replies[0]];
    assert [replies[0]][..0] == [];
    assert Collected([replies[0]]) == AsSeq(Contribution(replies[0]));
  }

  /** A value is collected exactly when some reply contributes it. */
  lemma {:induction false} CollectedMembers(replies: seq<PeerReply>, x: u64)
    ensures x in Collected(replies) <==> exists i :: 0 <= i < |replies| && Contribution(replies[i]) == Some(x)
    decreases |replies|
  {
    if replies != [] {
      var init := replies[..|replies| - 1];
      CollectedMembers(init, x);
      if x in Collected(init) {
        var i :| 0 <= i < |init| && Contribution(init[i]) == Some(x);
        assert replies[i] == init[i];
      }
      if exists i :: 0 <= i < |replies| && Contribution(replies[i]) == Some(x) {
        var i :| 0 <= i < |replies| && Contribution(replies[i]) == Some(x);
        if i < |init| {
          assert init[i] == replies[i];
        }
      }
    }
  }

  /** Two siblings answering 3 and 7 collect [3, 7]. AddEffect allows either to be stored;
      which one Go's sort leaves first is not modelled. */
  lemma TwoRepliesCollected()
    ensures Collected([PeerReply(200, "3"), PeerReply(200, "7")]) == [3, 7]
  {
  }

  /** With exactly one usable reply, add has no choice: it stores that value. */
  lemma SingleSurvivorStored(before: map<string, string>, after: map<string, string>, user: string,
                             balance: u64, replies: seq<PeerReply>, faults: HostFaults, r: Response, v: u64)
    requires Collected(replies) == [v] && !faults.firstPutFails
    requires AddEffect(before, after, user, balance, replies, faults, r)
    ensures after == before[user := FormatUint(v)]
    ensures r == Success(FormatUint(balance))
  {
  }

  /** A malformed reply from one sibling and "5" from the other collect [5], in either order. */
  lemma MalformedReplySkipped(junk: string)
    requires !IsDecimal(junk)
    ensures Collected([PeerReply(200, junk), PeerReply(200, "5")]) == [5]
    ensures Collected([PeerReply(200, "5"), PeerReply(200, junk)]) == [5]
  {
    var a, b := [PeerReply(200, junk), PeerReply(200, "5")], [PeerReply(200, "5"), PeerReply(200, junk)];
    CollectedFromSiblings(a);
    CollectedFromSiblings(b);
    ContributionMeans(PeerReply(200, junk));
    ContributionMeans(PeerReply(200, "5"));
  }

  /** The answer to add is the balance before the call, not the value stored. */
  lemma AddAnswersPriorBalance(before: map<string, string>, after: map<string, string>, user: string,
                               balance: u64, replies: seq<PeerReply>, faults: HostFaults, r: Response)
    requires AddEffect(before, after, user, balance, replies, faults, r) && r.Success?
    ensures ParseUint(r.payload) == Ok(balance)
    ensures exists x :: x in Collected(replies) && after == before[user := FormatUint(x)]
  {
    FormatThenParse(balance);
  }

  // ---------------------------------------------------------------------------
  // The balance cache

  /** A cache hit passes the cached balance on and does not depend on the ledger or its read. */
  lemma CacheHitIgnoresLedger(token: map<string, u64>, ledger: map<string, string>, user: string,
                              readError: Option<string>)
    requires user in token
    ensures Seed(token, ledger, user, readError) == Seeded(token[user], token)
  {
  }

  /** A cache miss seeds from the ledger: no value or an empty one gives 0, a decimal its value,
      anything else, or a failed read, an error that leaves the cache as it was. */
  lemma CacheMissSeeds(token: map<string, u64>, ledger: map<string, string>, user: string,
                       readError: Option<string>)
    requires user !in token
    ensures readError.Some? ==> Seed(token, ledger, user, readError) == SeedFailed("user is not found, " + readError.value)
    ensures readError.None? && (user !in ledger || ledger[user] == "") ==>
              Seed(token, ledger, user, readError) == Seeded(0, token[user := 0])
    ensures readError.None? && user in ledger && IsDecimal(ledger[user]) ==>
              Seed(token, ledger, user, readError) == Seeded(Value(ledger[user]), token[user := Value(ledger[user])])
    ensures readError.None? && user in ledger && ledger[user] != "" && !IsDecimal(ledger[user]) ==>
              Seed(token, ledger, user, readError).SeedFailed?
  {
    if user in ledger {
      ParseUintMeansValue(ledger[user]);
    }
  }

  /** Seeding only ever adds the named user to the cache, with the balance it passes on. */
  lemma SeedOnlyTouchesUser(token: map<string, u64>, ledger: map<string, string>, user: string,
                            readError: Option<string>)
    requires Seed(token, ledger, user, readError).Seeded?
    ensures var sd := Seed(token, ledger, user, readError);
      && sd.token == token[user := sd.balance]
  {
  }

  /** toUint reads back what fmt.Sprintf("%d") writes. */
  lemma ToUintOfFormat(n: u64)
    ensures ToUint(FormatUint(n)) == n
  {
    FormatThenParse(n);
    ParseUintMeansValue(FormatUint(n));
  }
}
