# In-memory laptop store, modelled in Dafny

This project models the record store of a gRPC laptop catalogue service (`service/laptop_store.go`).
The store keeps laptops in a map keyed by laptop ID and offers three operations:

- `Save` inserts a copy of a laptop. It rejects an ID that is already taken.
- `Find` returns a copy of the laptop stored under an ID. An absent ID gives "no laptop, no error".
- `Search` scans every record in unspecified order. It checks the caller's context before each
  record and hands a copy of every record that passes a filter to a consumer callback.

Three helpers support these operations:

- `isQualified` is the filter: price ceiling, minimum core count, minimum base clock and minimum RAM.
- `toBit` normalises a RAM quantity to bits, using a 1024-based `uint64` left shift.
- `deepCopy` is the isolation copy, done through a library that can fail.

Layout:

- `wrappers.dfy` — `Option` and `Result`.
- `pb.dfy` — the protobuf messages as value datatypes (`Laptop`, `Cpu`, `Memory`, `Filter`), with `uint64` as the subset type `U64`.
- `units.dfy` — `toBit`. The shift `v << k` is `ShiftLeft`: `k` doublings, each reduced modulo 2^64.
- `qualify.dfy` — `isQualified`.
- `copier.dfy` — the error kinds and `deepCopy`.
- `scan.dfy` — what one `Search` call means. A `Step` handles one record, and `Run` is the scan of a given record sequence.
- `store.dfy` — the store as a class holding `data: map<string, Laptop>`.

How the outside world is modelled:

- `Search`'s surroundings are a parameter `Env` with three parts:
  - whether the context is cancelled or past its deadline when checked before record `n`;
  - whether copying record `n` fails;
  - what the consumer returns on its `n`-th call with a given laptop.
- For `Save` and `Find`, a parameter `copyFault` says whether the copying library fails.
- Go's map iteration order is unspecified, so `Search` picks the next key with `:|`. It also
  returns, as a ghost value, the enumeration of the keys it followed.

Laptops are values, so an isolation copy equals its original and cannot alias it.
The source text as shown does not compile. The model follows its evident intent:

- `LaptopStore` is declared `struct` but lists method signatures, so it is an interface (line 9).
- `mutext` (line 33) and `Rlock` (line 52) stand for `mutex` and `RLock`.
- `:+` (line 55) stands for `:=`.
- The `Search` signature has a misplaced parenthesis (line 64). The model reads it as in the interface at line 15.
- `===` and `ctx.Error()` (line 69) stand for `==` and `ctx.Err()`.
- `err :=` is redeclared (line 83) where `err =` is meant.
- The helper is defined as `iqQualified` (line 93) but called as `isQualified` (line 77).
- The filter getters lack call parentheses (lines 94, 98, 102). `GetCPU` and `GetCpu` (lines 98, 102) are the same getter.
- `mempry` and `pn` (lines 116-117) stand for `memory` and `pb`.

Unset filter fields are not non-restrictive. The code compares against the protobuf zero values.
So an unset `max_price_usd` of 0 rejects every laptop with a positive price, although a catalogue
filter would naturally treat an unset ceiling as "no ceiling". The model follows the code
(`Qualify.ZeroFilterAdmitsOnlyFree`).

## Model

| member | source | states |
|---|---|---|
| `Units.ShiftLeftIsMulMod` | service/laptop_store.go:119-128 | A `uint64` left shift by `k` equals multiplication by 2^k modulo 2^64. |
| `Units.ShiftLeftAdd` | service/laptop_store.go:119-128 | Shifting by `a` and then by `b` is one shift by `a + b`. This makes the unit ladder compose. |
| `Units.ToBit` | service/laptop_store.go:113-131 | An unknown unit gives 0. A known unit gives `value * 2^k mod 2^64`, with k = 0, 3, 13, 23, 33, 43 for BIT through TERABYTE. |
| `Units.UnitIs1024OfBelow` | service/laptop_store.go:121-128 | One KB, MB, GB or TB normalises like 1024 of the next smaller unit (in `uint64`). |
| `Units.ByteIs8Bits` | service/laptop_store.go:117-120 | A byte count normalises to eight times as many bits (in `uint64`). |
| `Units.GigabyteExample` | service/laptop_store.go:123-126 | `toBit(1 GB) == toBit(1024 MB) == toBit(2^33 BIT) == 2^33`. |
| `Units.ToBitExact` | service/laptop_store.go:117-128 | Without overflow, the bit count is the exact product `value * 2^k`. |
| `Units.ToBitMonotone` | service/laptop_store.go:113-131 | Without overflow, a larger value of the same unit never gives fewer bits. |
| `Units.ToBitWrapsOnOverflow` | service/laptop_store.go:127-128 | The shift wraps: 2^21 TB normalises to 0 bits, which is fewer than 1 bit. |
| `Qualify.IsQualified` | service/laptop_store.go:93-111 | True exactly when all four checks pass: price at most the ceiling, at least the minimum cores, base clock at least the minimum, and RAM bits at least the minimum RAM bits. Any single failing check gives false. |
| `Qualify.QualifiedUnderLooserFilter` | service/laptop_store.go:93-111 | A laptop that passes a filter also passes any filter that asks no more on each criterion. |
| `Qualify.ZeroFilterAdmitsOnlyFree` | service/laptop_store.go:94-104 | The all-zero filter admits exactly the laptops with price at most 0 and base clock at least 0. |
| `Qualify.RamBoundUnitInsensitive` | service/laptop_store.go:106-108 | A RAM bound of 1 GB and one of 1024 MB admit the same laptops. |
| `Copier.DeepCopy` | service/laptop_store.go:134-143 | The copy succeeds exactly when the library does not fail. On success it is content-equal to the input. On failure the error wraps the library's cause. |
| `Scan.Run` | service/laptop_store.go:68-90 | While the scan is still going, its step count is the number of records seen. The consumer is never called more often than there are records. |
| `Scan.RunQuiet` | service/laptop_store.go:68-90 | Assume no cancellation, no copy failure and no consumer error. Then the scan completes and calls the consumer exactly on the qualifying records, in scan order. |
| `Scan.RunDeliversQualifyingPrefix` | service/laptop_store.go:77-87 | The consumer's calls always form a prefix of the qualifying records. They are all of them while the scan is still going. |
| `Scan.StoppedStaysStopped` | service/laptop_store.go:68-90 | After an early return, later records change nothing. No further consumer calls are made. |
| `Scan.ConsumerErrorIsReturned` | service/laptop_store.go:83-86 | If the consumer fails on a record, that same error is returned and the failing call is the last call. |
| `Scan.CancellationIsSilent` | service/laptop_store.go:69-72 | If the context is found cancelled before a record, no error is returned and no further calls are made. Every call already made was on a qualifying record. |
| `Scan.CopyFailureIsReturned` | service/laptop_store.go:78-81 | If copying a qualifying record fails, the wrapped copy error is returned and that record never reaches the consumer. |
| `LaptopStore.QuietSearchDeliversEachMatchOnce` | service/laptop_store.go:68-90 | Take a store whose keys are its laptops' IDs and a scan with no cancellation and no failures. The consumer is called once per stored qualifying laptop and for no other. No error is returned. |
| `LaptopStore.SearchOutcome` | service/laptop_store.go:68-90 | Take a scan over any enumeration of the store. Every consumer call is on a stored qualifying laptop. Assume in addition that keys are IDs and that nothing cancels or fails. Then no error is returned and each match is delivered exactly once. |
| `LaptopStore.InMemoryLaptopStore.constructor` | service/laptop_store.go:24-29 | A new store is empty. |
| `LaptopStore.InMemoryLaptopStore.Save` | service/laptop_store.go:31-48 | A taken ID gives `ErrAlreadyExists` and changes nothing. A copy failure gives the wrapped error and changes nothing. Otherwise the laptop is filed under its ID, nil is returned, and every other entry stays as it was. |
| `LaptopStore.InMemoryLaptopStore.Find` | service/laptop_store.go:50-61 | An absent ID gives no laptop and no error. A present ID gives a laptop equal to the stored one, or the wrapped copy error. `Find` changes nothing. |
| `LaptopStore.InMemoryLaptopStore.Search` | service/laptop_store.go:63-91 | The returned error and the consumer's calls are those of `Scan.Run` over the stored records, listed in some enumeration of all keys. Every consumer call is on a stored laptop the filter selects. Assume the store is consistent and there is no cancellation and no failure. Then `Search` returns nil and calls the consumer exactly once per stored match and for no other laptop. |

## Left out

- Locking (`sync.RWMutex`, lines 20, 33-34, 52-53, 65-66) is left out. The model is sequential. Holding the read lock for the whole scan matters only with concurrent callers.
- Logging and the commented-out sleep (lines 70, 74-75) are left out. They have no effect on results.
- The `LaptopStore` interface (lines 9-16) is not modelled separately. It has one implementation, the class `InMemoryLaptopStore`.
- The internals of `copier.Copy` (line 137) are left out. It is a foreign library. Its failure is an input, and its success is identity on a value.
- The error message texts are left out. This covers `"record already exists"` at line 6 and the `"cannot copy laptop data: %w"` prefix at line 139. Errors are modelled by kind and cause.
- `double` fields (price, clock speeds) are modelled as `real`. NaN and rounding are not captured. Only `<=`/`>=` comparisons are used.
- Protobuf nil handling is reduced to default values. An absent `cpu` or `ram` sub-message is its zero value, so `Memory(0, Unknown)` stands for an absent RAM.
- The laptop fields the store does not interpret are left out: GPUs, storages, screen, keyboard, weight and update time. Brand, name and release year stand for them.
- `Search`'s consumer is a function of its call index and the laptop. Consumer behaviour that depends on anything else is not captured.
- The unknown enum codes of `Memory_Unit` are folded into one `Unknown` value. They all take the same `default` branch.
- service/laptop_server.go is not part of this model. It is a gRPC adapter: UUID checks and generation, context checks, and status-code mapping.
- serializer/json.go is not part of this model. It passes through to the protobuf JSON library.
