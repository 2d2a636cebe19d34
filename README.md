# Cache-hierarchy energy simulator, modelled in Dafny

`energy_sim.py` replays a memory trace through a small cache hierarchy:
- two direct-mapped L1 caches of 32 KiB each, one for data and one for instructions;
- a shared set-associative L2 of 256 KiB, whose associativity is swept over 2, 4 and 8;
- DRAM behind L2.

For each associativity the simulator counts hits and misses at both levels. It also adds up the processor-visible access time and the energy charged to L1, L2 and DRAM.

This project models the following:

- **The address split** (`address.dfy`, module `Address`). `Cache.read` turns a byte address into a set index and a tag with shifts and `floor(log2(64 * S))`, where S is the number of sets. `Cache.write` uses integer division instead. The module proves three things:
  - the two forms agree whenever `64 * S` is a power of two;
  - whenever `64 * S` is not a power of two, the two forms give different tags to some address, for example address 128 with three sets;
  - the division form, together with the offset within the line, gives the address back.
- **The line array** (`store.dfy`, module `Store`). A `CacheLine` is a tag plus valid and dirty bits. The line array of a level is a sequence of sets of lines. It supports a lookup (`Holds`) and a one-slot overwrite (`Install`).
- **A cache level and DRAM** (`caches.dfy`, module `Caches`):
  - `Cache` is a class. Its line array is a field that `Write` updates in place.
  - `Read` is a loop over the set of the address, proved against the predicate `Contains`.
  - `Write` overwrites the slot given by the random draw. The draw is an input, `victim`.
  - `Memory` always succeeds.
- **The counters** (`accounting.dfy`, module `Accounting`). The per-record counter and energy updates are defined once, in `Account`. Each branch of the per-record loop (read or write, combined with L1 hit, L2 hit or L2 miss) transcribes the code's formula for that branch. `Account` is proved against reference tables of numbers and against the invariant `Consistent`. The module also models the report's average access time and hit rates.
- **The hierarchy and `simulate`** (`simulation.dfy`, module `Simulation`):
  - `Hierarchy` wires the three caches and DRAM together.
  - `Step` handles one trace record: it probes L1 and then L2, fills the caches the way the code does, and moves the totals by `Account`.
  - `Run` is the loop over the records.
  - `Simulate` runs one associativity value from a fresh hierarchy.
  - `Sweep` runs all three associativity values.

The running totals are locals of `simulate`, not object state. The model therefore threads them through `Step` as a `Totals` value. Energy and time are exact `real`s.

The model keeps these behaviours of the code:
- A read that misses L2 charges L1 idle energy for `50 - 0.5` ns and then for another 50 ns (line 168).
- A write that misses both caches charges no L2 energy and no DRAM active energy (lines 194-197). The header comment says that a write miss first reads the line (line 27).
- A write that hits L1 counts an L2 access and an L2 hit (lines 207-209).
- A write that misses L1 never fills L1 (lines 189-203).
- Every install writes a clean line (line 111), so no line is ever dirty and no write-back happens. The header comment asks for dirty bits and for write-backs to DRAM (lines 36 and 52).
- On eviction the parent would be handed the evicted line's tag, not its address (line 107).
- DRAM is `8 * 2**20` bytes (line 133). The header comment says 8 GB (line 6).
- L2 is built without a parent (line 130), so DRAM is never written.

## Model

| member | source | states |
|---|---|---|
| Address.Log2Floor | energy_sim.py:79 | `floor(log2(x))` computed exactly: `2^r <= x < 2^(r+1)` |
| Address.Log2OfPow2 | energy_sim.py:79 | the logarithm of `2^n` is exactly `n` |
| Address.ShiftRightDivides | energy_sim.py:78-79 | `a >> n` equals `a // 2^n` |
| Address.ProbeSplit | energy_sim.py:78-79 | the set index `read` uses is below the set count and equals `(address // 64) % S` |
| Address.InstallSplit | energy_sim.py:89-90 | the set index `write` uses is below the set count; tag, set index and line offset recombine to the address |
| Address.SplitsAgree | energy_sim.py:78-79 | when `64 * S` is a power of two, the split of `read` equals the split of `write` for every address |
| Address.SplitsDivergeOffPowerOfTwo | energy_sim.py:78-90 | with three sets, address 128 gets tag 1 from `read` and tag 0 from `write` |
| Address.SplitsDisagreeOffPowerOfTwo | energy_sim.py:78-90 | for every set count `S` with `64 * S` not a power of two, address `2^floor(log2(64 * S))` gets tag 1 from `read` and tag 0 from `write` |
| Address.LineAddressRoundTrip | energy_sim.py:89-90 | splitting the first address of the line (tag, set) gives back that tag and set |
| Store.BlankSets | energy_sim.py:60-75 | the initial array has `S` sets of `associativity` lines, none of them valid or dirty |
| Store.Install | energy_sim.py:104-111 | the drawn slot of the set becomes a valid, clean line with the tag; every other slot of that set and every other set are unchanged, and so are the sizes |
| Store.InstallTouchesOneSlot | energy_sim.py:109-111 | installing sets exactly the chosen slot to a valid, clean line with the tag; every other slot and the shape are kept |
| Store.InstallKeepsClean | energy_sim.py:111 | installing never makes a line dirty |
| Store.InstallThenHolds | energy_sim.py:109-110 | after installing, the set holds the tag |
| Store.InstallKeepsOtherSets | energy_sim.py:104-111 | what any other set holds is unchanged, in both directions |
| Store.DirectMappedReinstall | energy_sim.py:104-111 | in a direct-mapped clean array, reinstalling a held tag leaves the array equal |
| Store.InstallMayDuplicate | energy_sim.py:104-111 | the slot is drawn without looking for the tag, so a resident tag can end up in two slots of a set |
| Caches.Cache.constructor | energy_sim.py:67-75 | the fields are as passed; `S = size // (associativity * 64)`; every line blank |
| Caches.Cache.Read | energy_sim.py:77-86 | returns true exactly when some line of the address's set is valid and holds its tag |
| Caches.Cache.Write | energy_sim.py:88-111 | the new array is the old one with the drawn slot overwritten; the parent is handed the victim's tag only if the victim was valid and dirty, which never happens |
| Caches.WriteThenContains | energy_sim.py:77-111 | right after `write(address)`, `read(address)` hits, when the two splits agree |
| Caches.Memory.Read | energy_sim.py:121-122 | DRAM always holds the address |
| Caches.Memory.Write | energy_sim.py:124-125 | a write to DRAM always succeeds |
| Accounting.Account | energy_sim.py:161-216 | the per-record update: a counted record adds one access and one L1 hit or miss, each L2 access it adds is one L2 hit or miss, and any other op code leaves the totals as they were |
| Accounting.AccountCounts | energy_sim.py:159-216 | for any figures, one counted record adds one access; it adds an L1 hit or an L1 miss; a write that hits L1 adds an L2 access and an L2 hit; other records add to the L2 counters only on an L1 miss |
| Accounting.AccountMatchesTables | energy_sim.py:161-216 | with the figures of lines 130-139, each branch adds the tabled time (0.5/5/50 ns for reads, 5 ns for writes) and energies |
| Accounting.UnknownOpChangesNothing | energy_sim.py:159-187 | a record whose op code is not 0, 1 or 2 leaves every total unchanged |
| Accounting.DramPenaltyOnlyOnL2Miss | energy_sim.py:167-197 | the 640 pJ DRAM transfer penalty is charged exactly when a counted record misses L2 |
| Accounting.L2EnergyZeroOnlyOnWriteMiss | energy_sim.py:192-197 | a counted record charges no L2 energy exactly when it is a write that misses both levels |
| Accounting.InitialTotalsConsistent | energy_sim.py:141-150 | the all-zero start satisfies the counter invariant |
| Accounting.AccountKeepsConsistent | energy_sim.py:161-216 | every record preserves the invariant: L1 hits plus misses equal accesses; L2 hits plus misses equal L2 accesses; L1 misses <= L2 accesses <= accesses; time between 0.5 and 50 ns per access; energies non-negative; DRAM energy at least 640 pJ per L2 miss |
| Accounting.AverageAccessTime | energy_sim.py:218 | on consistent totals the average access time lies between 0.5 and 50 ns |
| Accounting.L1HitRate | energy_sim.py:225 | the rate is in [0, 1], and it is 1 exactly when there was no L1 miss |
| Accounting.L2HitRate | energy_sim.py:230 | the rate is in [0, 1], and it is 0 exactly when there was no L2 hit |
| Simulation.SweepGeometry | energy_sim.py:129-132 | for associativity 2, 4 and 8, both L1 geometries and the L2 geometry have a power of two as `64 * S` |
| Simulation.Hierarchy.L1For | energy_sim.py:159 | the record goes to one of the two L1 caches: a write (op 1) always to the data L1, an instruction fetch (op 2) always to the instruction L1 |
| Simulation.Hierarchy.OutcomeOf | energy_sim.py:163-192 | the probe order: an L1 hit exactly when the record's L1 holds the address; an L2 hit exactly when it does not and L2 does; an L2 miss exactly when neither does |
| Simulation.Hierarchy.constructor | energy_sim.py:129-139 | three fresh, distinct, blank caches with the sizes, set counts, times and powers of the code; both L1 caches direct-mapped under L2; the two derived access times |
| Simulation.Hierarchy.Step | energy_sim.py:159-216 | the totals move by `Account` for the outcome met. L1 is filled by a read that misses it and by a write that hits it. L2 is filled by a read that misses it and by a write that hits L1 or misses L2. The other L1 is untouched. After a read, its L1 holds the address |
| Simulation.Hierarchy.ReadRecord | energy_sim.py:161-186 | the read path: the totals, the L1 and L2 fills, and that L1 holds the address afterwards |
| Simulation.Hierarchy.WriteRecord | energy_sim.py:187-216 | the write path: the totals, L1 filled only on an L1 hit, L2 filled on an L1 hit or an L2 miss |
| Simulation.Hierarchy.Run | energy_sim.py:152-216 | the loop over the records keeps the totals consistent; accesses grow by the number of records with a known op code |
| Simulation.Simulate | energy_sim.py:130-216 | from a fresh hierarchy and zero totals, the result is consistent and counts one access per record with a known op code |
| Simulation.Sweep | energy_sim.py:129-216 | one result per associativity 2, 4, 8, each consistent and counting the same accesses |

## Left out

- Reading and parsing the trace file (lines 152-157) is left out: the trace is a sequence of `Record(op, address)`. The unused `data` field is dropped.
- Printing the report and the top-level call (lines 220-239) are left out. The values printed are modelled by `AverageAccessTime`, `L1HitRate` and `L2HitRate`.
- `random.randint` (line 104) is replaced by a `victim` input. L1 writes pass 0, the only value `randint(0, 0)` can give.
- Floating-point rounding is not modelled: times and energies are exact reals. `math.log2` is modelled as an exact integer logarithm, so float error on very large set counts is not captured.
- The assignment text in the header comment (lines 4-58) and the commented-out code (lines 92-101) are not modelled.
- Simulation.Hierarchy.Step: the counter updates of one branch are applied as one `Totals` value from `Account`, not one assignment at a time. No intermediate state is observable.
- Caches.Cache.Write: the call `self.parent.write(evict.tag)` is returned as the out-parameter `forwarded`, not performed. It is proved never to happen, because no line is ever dirty.
- Caches.Cache.constructor: requires `associativity >= 1`. With 0, Python raises `ZeroDivisionError` at line 75.
- Caches.Cache.Read: requires at least one set. With none, lines 78-79 divide by zero or take `log2(0)`, and Python raises.
- Caches.Cache.Write: requires at least one set. With none, line 89 divides by zero, and Python raises.
- Simulation.Hierarchy.constructor: requires associativity 2, 4 or 8, the values of line 129. These are the values for which the two address splits agree, which the proofs about `Step` need.
- Accounting.AverageAccessTime: requires at least one access. With none, line 218 raises `ZeroDivisionError`.
- Accounting.L1HitRate: requires at least one access. With none, line 225 raises `ZeroDivisionError`.
- Accounting.L2HitRate: requires at least one L2 access. With none, line 230 raises `ZeroDivisionError`.
- Simulation.Hierarchy.Run: states the invariant and the access count of the totals, not their exact values. The exact values are per record, in `Step`'s contract.
- Simulation.Simulate: states the invariant and the access count of the totals, not their exact values. The exact values are per record, in `Step`'s contract.
- Simulation.Sweep: states the invariant and the access count of each run's totals, not their exact values. The exact values are per record, in `Step`'s contract. The results of the three runs are returned, not printed.
