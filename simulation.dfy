/** The hierarchy `simulate` builds for each associativity value, and its
    per-record loop: two direct-mapped L1 caches (data and instruction) on a
    shared L2 without a parent, DRAM behind, and the running totals. */
module Simulation {
  import opened Address
  import opened Store
  import opened Caches
  import opened Accounting

  const L1Size: nat := 32 * 1024
  const L2Size: nat := 256 * 1024
  /** `8 * (2 ** 20)`, as the code has it. */
  const DramSize: nat := 8 * 1048576

  /** One trace record: op code and byte address (the data field is unused). */
  datatype Record = Record(op: int, address: nat)

  /** Records whose op code is 0, 1 or 2. */
  function CountedRecords(trace: seq<Record>): nat
  {
    if trace == [] then 0
    else CountedRecords(trace[..|trace| - 1]) + Ind(Counted(trace[|trace| - 1].op))
  }

  /** Whether the record fills its L1: a read or fetch that missed L1, or a
      write that hit it. A write that missed L1 never fills it. */
  predicate FillsL1(op: int, outcome: Outcome)
  {
    (IsRead(op) && outcome != L1Hit) || (IsWrite(op) && outcome == L1Hit)
  }

  /** Whether the record fills L2: a read or fetch that missed L2, or a
      write that hit L1 or missed L2. */
  predicate FillsL2(op: int, outcome: Outcome)
  {
    (IsRead(op) && outcome == L2Miss) || (IsWrite(op) && outcome != L2Hit)
  }

  /** Both L1 geometries and every L2 geometry of the sweep have a power of
      two as `64 * S`, so their two address splits agree. */
  lemma SweepGeometry(associativity: nat)
    requires associativity == 2 || associativity == 4 || associativity == 8
    ensures IsPow2(LineBytes * (L1Size / (1 * LineBytes)))
    ensures L2Size / (associativity * LineBytes) >= 1
    ensures IsPow2(LineBytes * (L2Size / (associativity * LineBytes)))
  {
    assert Pow2(15) == 32768;
    assert LineBytes * (L1Size / (1 * LineBytes)) == Pow2(15);
    if associativity == 2 {
      assert Pow2(17) == 131072;
      assert LineBytes * (L2Size / (associativity * LineBytes)) == Pow2(17);
    } else if associativity == 4 {
      assert Pow2(16) == 65536;
      assert LineBytes * (L2Size / (associativity * LineBytes)) == Pow2(16);
    } else {
      assert LineBytes * (L2Size / (associativity * LineBytes)) == Pow2(15);
    }
  }

  /** The caches and DRAM `simulate` builds for one associativity value,
      with the figures its per-record loop charges with. The running
      totals are not part of it: they are locals of `simulate`, threaded
      through `Step` as a `Totals` value. */
  class Hierarchy {
    const l2: Cache
    const l1Data: Cache
    const l1Instruction: Cache
    const dram: Memory
    const l2TransferPenalty: real
    const dramTransferPenalty: real
    /** `l2_cache_ind_access_time`: L2's access time less L1's. */
    const l2IndAccessTime: real
    /** `dram_ind_access_time`: DRAM's access time less L2's. */
    const dramIndAccessTime: real

    /** The L1 a record goes to: data for op codes 0 and 1, instruction
        for every other code. */
    function L1For(op: int): (c: Cache)
      ensures c == l1Data || c == l1Instruction
      ensures IsWrite(op) ==> c == l1Data
      ensures op == 2 ==> c == l1Instruction
    {
      if op == 0 || op == 1 then l1Data else l1Instruction
    }

    /** The L1 a record does not go to. */
    function OtherL1(op: int): Cache
    {
      if op == 0 || op == 1 then l1Instruction else l1Data
    }

    /** The figures a record going to `l1Cache` is charged with. */
    function FiguresFor(l1Cache: Cache): Figures
    {
      Figures(
        Level(l1Cache.accessTime, l1Cache.idlePower, l1Cache.activePower),
        Level(l2.accessTime, l2.idlePower, l2.activePower),
        Level(dram.accessTime, dram.idlePower, dram.activePower),
        l2TransferPenalty, dramTransferPenalty, l2IndAccessTime, dramIndAccessTime)
    }

    /** How `simulate` wires the hierarchy: three distinct cache levels,
        both L1 caches direct-mapped with L2 as parent, L2 without one, the
        timing and power figures it passes, and set counts whose two
        address splits agree. Only fixed fields are involved. */
    ghost predicate Wiring()
    {
      && l1Data != l1Instruction && l1Data != l2 && l1Instruction != l2
      && l2.PowerOfTwoGeometry() && l1Data.PowerOfTwoGeometry() && l1Instruction.PowerOfTwoGeometry()
      && l1Data.associativity == 1 && l1Instruction.associativity == 1
      && l1Data.accessTime == L1AccessTime && l1Data.idlePower == L1IdlePower && l1Data.activePower == L1ActivePower
      && l1Instruction.accessTime == L1AccessTime && l1Instruction.idlePower == L1IdlePower
      && l1Instruction.activePower == L1ActivePower
      && l2.accessTime == L2AccessTime && l2.idlePower == L2IdlePower && l2.activePower == L2ActivePower
      && dram.accessTime == DramAccessTime && dram.idlePower == DramIdlePower && dram.activePower == DramActivePower
      && l2TransferPenalty == L2TransferPenalty && dramTransferPenalty == DramTransferPenalty
      && l2IndAccessTime == l2.accessTime - l1Data.accessTime
      && dramIndAccessTime == dram.accessTime - l2.accessTime
      && l1Data.parent == l2 && l1Instruction.parent == l2 && l2.parent == null
    }

    /** The wiring, and every cache in a valid state. */
    ghost predicate Valid()
      reads this, l2, l1Data, l1Instruction
    {
      Wiring() && l2.Valid() && l1Data.Valid() && l1Instruction.Valid()
    }

    /** Where the record `(op, address)` would be satisfied now. */
    function OutcomeOf(op: int, address: nat): (outcome: Outcome)
      reads this, l2, l1Data, l1Instruction
      requires Valid()
      ensures outcome == L1Hit <==> L1For(op).Contains(address)
      ensures outcome == L2Hit <==> !L1For(op).Contains(address) && l2.Contains(address)
      ensures outcome == L2Miss <==> !L1For(op).Contains(address) && !l2.Contains(address)
    {
      if L1For(op).Contains(address) then L1Hit
      else if l2.Contains(address) then L2Hit
      else L2Miss
    }

    /** A fresh hierarchy for one associativity value of the sweep: every
        line blank. */
    constructor (associativity: nat)
      requires associativity == 2 || associativity == 4 || associativity == 8
      ensures Valid() && fresh(l2) && fresh(l1Data) && fresh(l1Instruction)
      ensures l2.associativity == associativity && l2.size == L2Size
      ensures l1Data.size == L1Size && l1Instruction.size == L1Size && dram.size == DramSize
      ensures l2.numSets == L2Size / (associativity * LineBytes)
      ensures l1Data.numSets == L1Size / (1 * LineBytes) && l1Instruction.numSets == L1Size / (1 * LineBytes)
      ensures l2.sets == BlankSets(l2.numSets, associativity)
      ensures l1Data.sets == BlankSets(l1Data.numSets, 1)
      ensures l1Instruction.sets == BlankSets(l1Instruction.numSets, 1)
    {
      SweepGeometry(associativity);
      var shared := new Cache(L2Size, associativity, L2AccessTime, L2IdlePower, L2ActivePower, null);
      var data := new Cache(L1Size, 1, L1AccessTime, L1IdlePower, L1ActivePower, shared);
      var memory := Memory(DramSize, DramAccessTime, DramIdlePower, DramActivePower);
      l2 := shared;
      l1Data := data;
      l1Instruction := new Cache(L1Size, 1, L1AccessTime, L1IdlePower, L1ActivePower, shared);
      dram := memory;
      l2TransferPenalty := L2TransferPenalty;
      dramTransferPenalty := DramTransferPenalty;
      l2IndAccessTime := shared.accessTime - data.accessTime;
      dramIndAccessTime := memory.accessTime - shared.accessTime;
    }

    /** One record of the trace, taking the totals `totals` to `t`.
        `victim` is the slot L2's `write` draws, if this record writes L2.
        The totals move as `Account` says for the outcome the record meets;
        the L1 of the record and L2 are filled as `FillsL1` and `FillsL2`
        say, and nothing else changes. After a read or fetch its L1 holds
        the address. */
    method Step(totals: Totals, op: int, address: nat, victim: nat) returns (t: Totals)
      requires Valid() && victim < l2.associativity
      modifies l2, l1Data, l1Instruction
      ensures Valid()
      ensures t == Account(totals, op, old(OutcomeOf(op, address)), SweepFigures())
      ensures L1For(op).sets ==
        if FillsL1(op, old(OutcomeOf(op, address))) then old(L1For(op).Installed(address, 0)) else old(L1For(op).sets)
      ensures OtherL1(op).sets == old(OtherL1(op).sets)
      ensures l2.sets ==
        if FillsL2(op, old(OutcomeOf(op, address))) then old(l2.Installed(address, victim)) else old(l2.sets)
      ensures IsRead(op) ==> L1For(op).Contains(address)
      ensures FillsL2(op, old(OutcomeOf(op, address))) ==> l2.Contains(address)
    {
      var l1Cache := if op == 0 || op == 1 then l1Data else l1Instruction;
      assert FiguresFor(l1Cache) == SweepFigures();
      if op == 0 || op == 2 {
        t := ReadRecord(totals, op, l1Cache, address, victim);
      } else if op == 1 {
        t := WriteRecord(totals, op, l1Cache, address, victim);
      } else {
        t := totals;
        UnknownOpChangesNothing(totals, op, OutcomeOf(op, address), SweepFigures());
      }
    }

    /** The read path of `Step` (op code 0 or 2): look the address up in
        the record's L1, then in L2 on a miss; fill L1 on an L1 miss and L2
        on an L2 miss. The totals move by the branch of `Account` for the
        outcome met, charged with this hierarchy's figures. */
    method ReadRecord(totals: Totals, op: int, l1Cache: Cache, address: nat, victim: nat) returns (t: Totals)
      requires Valid() && IsRead(op) && l1Cache == L1For(op) && victim < l2.associativity
      modifies l2, l1Cache
      ensures Valid()
      ensures t == Account(totals, op, old(OutcomeOf(op, address)), FiguresFor(l1Cache))
      ensures l1Cache.sets ==
        if FillsL1(op, old(OutcomeOf(op, address))) then old(l1Cache.Installed(address, 0)) else old(l1Cache.sets)
      ensures l2.sets ==
        if FillsL2(op, old(OutcomeOf(op, address))) then old(l2.Installed(address, victim)) else old(l2.sets)
      ensures l1Cache.Contains(address)
      ensures FillsL2(op, old(OutcomeOf(op, address))) ==> l2.Contains(address)
    {
      var l1Hit := l1Cache.Read(address);
      if !l1Hit {
        var l2Hit := l2.Read(address);
        if !l2Hit {
          t := Account(totals, op, L2Miss, FiguresFor(l1Cache));
          WriteThenContains(l1Cache, address, 0);
          WriteThenContains(l2, address, victim);
          var _ := l1Cache.Write(address, 0);
          var _ := l2.Write(address, victim);
        } else {
          t := Account(totals, op, L2Hit, FiguresFor(l1Cache));
          WriteThenContains(l1Cache, address, 0);
          var _ := l1Cache.Write(address, 0);
        }
      } else {
        t := Account(totals, op, L1Hit, FiguresFor(l1Cache));
      }
    }

    /** The write path of `Step` (op code 1): the same look-ups; on an L1
        hit both L1 and L2 are written, on an L2 miss only L2, on an L2 hit
        nothing. */
    method WriteRecord(totals: Totals, op: int, l1Cache: Cache, address: nat, victim: nat) returns (t: Totals)
      requires Valid() && IsWrite(op) && l1Cache == L1For(op) && victim < l2.associativity
      modifies l2, l1Cache
      ensures Valid()
      ensures t == Account(totals, op, old(OutcomeOf(op, address)), FiguresFor(l1Cache))
      ensures l1Cache.sets ==
        if FillsL1(op, old(OutcomeOf(op, address))) then old(l1Cache.Installed(address, 0)) else old(l1Cache.sets)
      ensures l2.sets ==
        if FillsL2(op, old(OutcomeOf(op, address))) then old(l2.Installed(address, victim)) else old(l2.sets)
      ensures FillsL2(op, old(OutcomeOf(op, address))) ==> l2.Contains(address)
    {
      var l1Hit := l1Cache.Read(address);
      if !l1Hit {
        var l2Hit := l2.Read(address);
        if !l2Hit {
          t := Account(totals, op, L2Miss, FiguresFor(l1Cache));
          WriteThenContains(l2, address, victim);
          var _ := l2.Write(address, victim);
        } else {
          t := Account(totals, op, L2Hit, FiguresFor(l1Cache));
        }
      } else {
        t := Account(totals, op, L1Hit, FiguresFor(l1Cache));
        WriteThenContains(l2, address, victim);
        var _ := l1Cache.Write(address, 0);
        var _ := l2.Write(address, victim);
      }
    }

    /** The per-record loop of `simulate` over a whole trace, from the
        totals `totals`; `victims[i]` is L2's draw for record `i`. Every
        record goes through `Step`, so consistent totals stay consistent,
        and each record with a known op code counts one access. */
    method Run(totals: Totals, trace: seq<Record>, victims: seq<nat>) returns (t: Totals)
      requires Valid() && |victims| == |trace|
      requires forall i :: 0 <= i < |victims| ==> victims[i] < l2.associativity
      modifies l2, l1Data, l1Instruction
      ensures Valid()
      ensures Consistent(totals) ==> Consistent(t)
      ensures t.accesses == totals.accesses + CountedRecords(trace)
    {
      t := totals;
      for i := 0 to |trace|
        invariant Valid()
        invariant Consistent(totals) ==> Consistent(t)
        invariant t.accesses == totals.accesses + CountedRecords(trace[..i])
      {
        ghost var outcome := OutcomeOf(trace[i].op, trace[i].address);
        AccountCounts(t, trace[i].op, outcome, SweepFigures());
        if Consistent(t) {
          AccountKeepsConsistent(t, trace[i].op, outcome);
        }
        t := Step(t, trace[i].op, trace[i].address, victims[i]);
        assert trace[..i + 1][..i] == trace[..i];
      }
      assert trace[..|trace|] == trace;
    }
  }

  /** `simulate` for one associativity value: a fresh hierarchy and
      all-zero totals, then the per-record loop over the whole trace. The
      totals it ends with are consistent and count one access per record
      with a known op code. */
  method Simulate(associativity: nat, trace: seq<Record>, victims: seq<nat>) returns (t: Totals)
    requires associativity == 2 || associativity == 4 || associativity == 8
    requires |victims| == |trace|
    requires forall i :: 0 <= i < |victims| ==> victims[i] < associativity
    ensures Consistent(t)
    ensures t.accesses == CountedRecords(trace)
  {
    var h := new Hierarchy(associativity);
    var zero := Totals(0.0, 0, 0, 0, 0, 0, 0, 0.0, 0.0, 0.0);
    InitialTotalsConsistent();
    t := h.Run(zero, trace, victims);
  }

  /** The associativities `simulate` sweeps L2 through, in order. */
  const Associativities: seq<nat> := [2, 4, 8]

  /** The whole of `simulate`: one fresh hierarchy per associativity of the
      sweep, each running the same trace; `victims[k]` holds L2's draws for
      the `k`-th run. Every run ends consistent, with one access per record
      with a known op code. */
  method Sweep(trace: seq<Record>, victims: seq<seq<nat>>) returns (results: seq<Totals>)
    requires |victims| == |Associativities|
    requires forall k :: 0 <= k < |victims| ==> |victims[k]| == |trace|
    requires forall k, i :: 0 <= k < |victims| && 0 <= i < |victims[k]| ==> victims[k][i] < Associativities[k]
    ensures |results| == |Associativities|
    ensures forall k :: 0 <= k < |results| ==> Consistent(results[k]) && results[k].accesses == CountedRecords(trace)
  {
    results := [];
    for k := 0 to |Associativities|
      invariant |results| == k
      invariant forall j :: 0 <= j < k ==> Consistent(results[j]) && results[j].accesses == CountedRecords(trace)
    {
      var t := Simulate(Associativities[k], trace, victims[k]);
      results := results + [t];
    }
  }
}
