# Ledger-backed asset store and random aggregation, modelled in Dafny

This project models the two chaincode services of the repository and proves
properties of the model:

- **sacc** (`chaincode/sacc/sacc.go`) is a key/value asset store guarded by a
  nonce. The service keeps an in-memory counter and mirrors a nonce into the
  ledger under the reserved key `"nonce"`. `Init` resets both. On `"set"`,
  `Invoke` reads the stored nonce. It refuses with `"double spent"` when the
  counter is behind the stored nonce; otherwise it bumps the counter and
  writes the asset. Every other function name is handled as `get`.
- **addc** (`chaincode/addc/sacc.go`) keeps a per-user token balance cache,
  seeded from the ledger the first time a user is named. `"add"` asks the
  sibling services `addc1` and `addc2` for a random value. It keeps the
  replies with status 200 and a decimal payload, and stores one of them under
  the user. It answers the balance the user had *before* the call.
  `"random"` answers a random number as decimal text.

Both services read and write numbers as decimal text. `Decimal.ParseUint`
follows `strconv.ParseUint(s, 10, 64)`: it scans left to right and fails with
a syntax error at the first non-digit, or with a range error once the value
no longer fits in 64 bits. `Decimal.FormatUint` follows `fmt.Sprintf("%d")`.
Both round trips between them are proved.

## How the model is built

- The ledger is `Shim.Stub.state`, a `map<string, string>`. A key with no
  entry has no value.
- The host's failures are an input to each call. A `Shim.HostFaults` value
  gives the error of the call's one `GetState`, if any, and says whether its
  first and second `PutState` fail. A failed write changes nothing.
- Responses are `Success(payload)` or `Error(msg)`. A third constructor,
  `Panic(reason)`, stands for a Go run-time fault (an index out of range).
  The panic is not recovered. It ends the chaincode process, so the host
  gets no response, and the process's in-memory state, addc's balance
  cache, is lost. The contracts still give the object's fields after a
  `Panic`, but no later call of the same process sees them.
- **sacc**: `InitStep`, `InvokeStep` and `SetSpec` are pure functions. Each
  gives the whole effect of one call on a `State`, which is the counter plus
  the ledger. The class `Sacc.SimpleAsset` has the `nonce` field and issues
  the ledger calls in the source's order. Its methods are proved equal to
  the step functions. The lemmas state the source's behaviour on the step
  functions, including behaviour over several calls.
- **addc**: `Sacc`'s pattern is not used here, because the model does not
  state which collected value `add` stores. Go's sort.Slice fixes that
  choice, but the comparator compares positions, not values, and the sort
  algorithm is not part of this model. `Addc.AddRand` picks some collected
  value. So `Addc.SimpleAsset.Invoke` and `Addc.Add` are specified by
  relations: `Seed` for the cache lookup and `AddEffect` for what `add`
  does. `AddEffect` says only that the stored value is *one of* the
  collected values.
- The sibling replies are an input sequence: `replies[i]` is what
  `SIBLINGS[i]` answered. The random draw is an input too.

Points where the code behaves in ways that are easy to misread; the model
follows the code:

- `add` does not select the maximum. The result is only some collected value.
- With no usable reply, `add` faults (`res[0]` on an empty slice). It is not
  a clean error.
- The in-memory cache is not updated after `add`.
- `set` writes back the nonce it *read*, not the bumped counter. So after
  `Init` the stored nonce stays `"0"`, and a replayed `set` is accepted
  (`Sacc.StoredNonceStaysZero`, `Sacc.ReplayedSetAccepted`). There is one
  exception: a `set` of the key `"nonce"` itself whose asset write succeeds
  but whose nonce write fails. It leaves the set value as the stored nonce,
  and "double spent" can then happen.
- A failing `set` answers `Success("")`. Its error is assigned to the `err`
  declared inside the set branch (sacc.go:56). The check at sacc.go:81
  reads the outer `err` (sacc.go:54).
- Unknown function names are handled as `get` in sacc. In addc they answer
  `Success("")`.

## Model

| member | source | states |
|---|---|---|
| `Decimal.ParseUintMeansValue` | chaincode/sacc/sacc.go:65 | strconv.ParseUint accepts exactly the non-empty all-digit strings whose value is below 2^64, and returns that value |
| `Decimal.FormatThenParse` | chaincode/sacc/sacc.go:100 | what fmt.Sprintf("%d") writes is canonical decimal, and parsing it gives back the number |
| `Decimal.ParseUint` | chaincode/sacc/sacc.go:65 | strconv.ParseUint(s, 10, 64), scanning syntax then range left to right; its contract is stated by `Decimal.ParseUintMeansValue` and the two round-trip lemmas |
| `Decimal.FormatUint` | chaincode/sacc/sacc.go:100 | fmt.Sprintf("%d", n); its contract is stated by `Decimal.FormatIsCanonical`, `Decimal.FormatThenParse` and `Decimal.FormatInjective` |
| `Decimal.ParseThenFormat` | chaincode/sacc/sacc.go:65 | a canonical decimal (no leading zero) parses, and formatting its value gives back the same text |
| `Decimal.FormatIsCanonical` | chaincode/addc/sacc.go:94 | the written text is all digits, non-empty, has no leading zero and denotes the number written |
| `Decimal.FormatInjective` | chaincode/addc/sacc.go:125 | two uint64 values with the same decimal text are equal |
| `Shim.Stub.GetState` | chaincode/sacc/sacc.go:113-119 | a read answers the host's error if it fails; otherwise the stored value, or no value for a key never written |
| `Shim.Stub.PutState` | chaincode/sacc/sacc.go:96-99 | a write that the host does not fail stores the value under the key; a failed write changes nothing |
| `Sacc.Increment` | chaincode/sacc/sacc.go:74 | t.nonce++ on uint64: one more, except that 2^64 - 1 wraps to 0 |
| `Sacc.Get` | chaincode/sacc/sacc.go:108-121 | get succeeds exactly for one argument, a successful read and a stored key, and then answers the stored value; otherwise it gives the argument-count, read-failure or "Asset not found" error |
| `Sacc.Set` | chaincode/sacc/sacc.go:91-105 | set writes the asset, then the nonce it was given, in that order; each failure returns its error and stops |
| `Sacc.SimpleAsset.constructor` | chaincode/sacc/sacc.go:124-125 | a new service's counter is 0 |
| `Sacc.SimpleAsset.Init` | chaincode/sacc/sacc.go:26-44 | the response, counter and ledger after Init are InitStep's |
| `Sacc.SimpleAsset.Invoke` | chaincode/sacc/sacc.go:49-87 | the response, counter and ledger after Invoke are InvokeStep's |
| `Sacc.InitRejectsArgCount` | chaincode/sacc/sacc.go:28-31 | Init with other than two arguments errors and changes neither the counter nor the ledger |
| `Sacc.InitResets` | chaincode/sacc/sacc.go:32-43 | a successful Init answers Success(""), stores nonce "0", zeroes the counter and leaves every other key unchanged |
| `Sacc.InitWriteFailures` | chaincode/sacc/sacc.go:32-42 | a failed first nonce write still answers success ("failed to init nonce") and changes nothing; a failed second write errors after the reset |
| `Sacc.SetReadError` | chaincode/sacc/sacc.go:56-59 | a failed read of the stored nonce answers the host's error, with no write and no counter change |
| `Sacc.AbsentNonceReadsAsZero` | chaincode/sacc/sacc.go:60-63 | no stored nonce, or an empty one, reads as 0, so the guard passes and the counter advances |
| `Sacc.MalformedNonce` | chaincode/sacc/sacc.go:65-68 | a stored nonce that is not decimal answers the parse error, with no write and no counter change |
| `Sacc.DoubleSpentRefused` | chaincode/sacc/sacc.go:71-73 | a counter behind the stored nonce answers "double spent", with no write and no counter change |
| `Sacc.GuardPassedAdvancesCounter` | chaincode/sacc/sacc.go:74-86 | past the guard the counter goes up by exactly one (mod 2^64) even when set then fails, and the answer is a success; a failing set answers Success("") |
| `Sacc.SetStoresValueKeepsNonce` | chaincode/sacc/sacc.go:96-104 | a set with a key and a value writes the value, then the nonce that was read, so the stored nonce keeps its value; it answers the value |
| `Sacc.OtherNamesAreGet` | chaincode/sacc/sacc.go:76-79 | every function name other than "set" behaves as "get" and changes nothing |
| `Sacc.GetAnswers` | chaincode/sacc/sacc.go:108-120 | get answers the stored value, "Asset not found" for a key never written, and an error for other than one argument |
| `Sacc.SetThenGet` | chaincode/sacc/sacc.go:91-120 | after a successful set(k, v) with k other than "nonce", get(k) answers v |
| `Sacc.StoredNonceStaysZero` | chaincode/sacc/sacc.go:56-100 | a stored nonce of 0 stays 0 across any call, except a set of the key "nonce" whose nonce write fails; every set whose read succeeds passes the guard |
| `Sacc.ReplayedSetAccepted` | chaincode/sacc/sacc.go:71-100 | after Init, the same set issued twice succeeds both times and the counter reaches 2 |
| `Addc.AddRand` | chaincode/addc/sacc.go:104-126 | addRand faults exactly when no reply is usable; otherwise it returns the decimal of one of the collected values |
| `Addc.Add` | chaincode/addc/sacc.go:83-95 | add stores one collected value under the user and answers the balance it was given; a failed write errors and changes nothing; no usable reply faults |
| `Addc.Random` | chaincode/addc/sacc.go:97-102 | random answers canonical decimal text that parses back to the draw |
| `Addc.ToUint` | chaincode/addc/sacc.go:130-141 | toUint is the decimal value of a decimal string, and 0 for the empty string or any other string |
| `Addc.SimpleAsset.constructor` | chaincode/addc/sacc.go:144-145 | a new service caches no balance |
| `Addc.SimpleAsset.Init` | chaincode/addc/sacc.go:29-33 | Init empties the cache, answers Success("") and is given no ledger to touch |
| `Addc.SimpleAsset.Invoke` | chaincode/addc/sacc.go:38-81 | no arguments fault on args[0]; a failed seeding answers its error with cache and ledger unchanged; otherwise the cache is the seeded one, and add, random or any other name has its effect on the ledger and response |
| `Addc.ContributionMeans` | chaincode/addc/sacc.go:109-117 | a reply contributes exactly when its status is 200 and its payload is decimal, and it contributes the payload's value |
| `Addc.CollectedAppend` | chaincode/addc/sacc.go:105-119 | collection keeps reply order: earlier replies' values come first |
| `Addc.CollectedFromSiblings` | chaincode/addc/sacc.go:106-119 | the collected list is addc1's contribution followed by addc2's, so it has at most two elements |
| `Addc.CollectedMembers` | chaincode/addc/sacc.go:105-119 | a value is collected exactly when some reply contributes it |
| `Addc.TwoRepliesCollected` | chaincode/addc/sacc.go:105-123 | siblings answering 3 and 7 collect [3, 7]; the model's `AddEffect` allows either to be stored, and which one Go's sort leaves first is not modelled |
| `Addc.MalformedReplySkipped` | chaincode/addc/sacc.go:113-117 | a malformed payload is skipped without aborting: with "5" from the other sibling, in either order, [5] is collected |
| `Addc.SingleSurvivorStored` | chaincode/addc/sacc.go:121-125 | with exactly one usable reply, add stores that value |
| `Addc.AddAnswersPriorBalance` | chaincode/addc/sacc.go:89-94 | a successful add answers the balance it was given, not the stored value, and stores some collected value |
| `Addc.Seed` | chaincode/addc/sacc.go:48-66 | the cache lookup that starts every Invoke; its contract is stated by `Addc.CacheHitIgnoresLedger`, `Addc.CacheMissSeeds` and `Addc.SeedOnlyTouchesUser` |
| `Addc.CacheHitIgnoresLedger` | chaincode/addc/sacc.go:48-50 | on a cache hit the ledger is not read, and the cached balance is passed on |
| `Addc.CacheMissSeeds` | chaincode/addc/sacc.go:50-66 | on a miss, a failed read errors; no value or an empty one seeds 0; a decimal seeds its value; anything else errors |
| `Addc.SeedOnlyTouchesUser` | chaincode/addc/sacc.go:55-64 | seeding adds only the named user to the cache, with the balance it passes on |
| `Addc.ToUintOfFormat` | chaincode/addc/sacc.go:130-141 | toUint reads back what fmt.Sprintf("%d") writes |

## Left out

- `sync.Mutex` (sacc/sacc.go:19, 69-70): it only serialises `Invoke`. The model is sequential.
- `main` / `shim.Start` and the container lifecycle: host plumbing.
- Logging through logrus: it has only side effects.
- The `peer.Response` protobuf: it is reduced to its status, payload and message.
- The host's transaction semantics: the writes of a call that answers an
  error are kept in the map, as the chaincode issued them. Whether the host
  then commits them is outside the chaincode.
- `stub.InvokeChaincode` transport and the arguments sent to the siblings
  (`"random"`, the user id, `"mychannel"`): the model has only their
  `(status, payload)` replies, as an input.
- `random`'s time-seeded `math/rand`: the draw is an input to `Addc.Random`
  and `Addc.SimpleAsset.Invoke`.
- Addc.AddRand: does not state which collected value sort.Slice leaves
  first. Its comparator compares slice positions, not values, and the sort
  algorithm is not part of this model. The contract promises only
  membership.
- Addc.Add: inherits AddRand's membership-only statement of the stored value.
- The nil `token` map of a fresh addc service: Invoke replaces it with an
  empty map before any use, and reads of a nil map behave as reads of an
  empty one. The model starts with an empty map.
- Decimal.NumErrorMessage: Go's `strconv.Quote` escaping of the input inside
  the parse error text is not modelled. The input appears verbatim.
- Host error messages: the text of a failed `GetState` is an input. Failed
  writes are modelled as booleans, because their error text never reaches a
  response.
- Empty ledger values: the model does not decide whether the host
  distinguishes a stored empty value from an absent key. `get` answers the
  empty value for a key present with `""`.
