/** The counters `simulate` keeps, and how one trace record moves them. */
module Accounting {

  // The figures `simulate` builds its hierarchy with.
  const L1AccessTime: real := 0.5
  const L1IdlePower: real := 0.5
  const L1ActivePower: real := 1.0
  const L2AccessTime: real := 5.0
  const L2IdlePower: real := 0.8
  const L2ActivePower: real := 2.0
  const DramAccessTime: real := 50.0
  const DramIdlePower: real := 0.8
  const DramActivePower: real := 4.0
  const L2TransferPenalty: real := 5.0
  const DramTransferPenalty: real := 640.0
  /** `l2_cache_ind_access_time`: L2's share of an L2 access. */
  const L2IndAccessTime: real := L2AccessTime - L1AccessTime
  /** `dram_ind_access_time`: DRAM's share of a DRAM access. */
  const DramIndAccessTime: real := DramAccessTime - L2AccessTime

  /** Where a record was satisfied: in L1, in L2 after missing L1, or only
      in DRAM. */
  datatype Outcome = L1Hit | L2Hit | L2Miss

  /** Op codes 0 (data read) and 2 (instruction fetch) take the read path. */
  predicate IsRead(op: int)
  {
    op == 0 || op == 2
  }

  /** Op code 1 (data write) takes the write path. */
  predicate IsWrite(op: int)
  {
    op == 1
  }

  /** Any other op code takes neither path. */
  predicate Counted(op: int)
  {
    IsRead(op) || IsWrite(op)
  }

  /** The running totals: access time (ns), access counts, hits and misses
      per level, and energy per component (pJ). */
  datatype Totals = Totals(
    accessTime: real,
    accesses: nat,
    accessesL2: nat,
    l1Misses: nat,
    l2Misses: nat,
    l1Hits: nat,
    l2Hits: nat,
    l1Energy: real,
    l2Energy: real,
    dramEnergy: real)

  /** Access time (ns), idle power and active power of one level, as the
      per-record loop reads them off the cache and memory objects. */
  datatype Level = Level(accessTime: real, idlePower: real, activePower: real)

  /** Everything the per-record loop charges with: the L1 of the record,
      L2 and DRAM, the two transfer penalties, and the two differences
      `l2_cache_ind_access_time` and `dram_ind_access_time`. */
  datatype Figures = Figures(
    l1: Level,
    l2: Level,
    dram: Level,
    l2TransferPenalty: real,
    dramTransferPenalty: real,
    l2IndAccessTime: real,
    dramIndAccessTime: real)

  /** The figures `simulate` charges with, for either L1. */
  function SweepFigures(): Figures
  {
    Figures(
      Level(L1AccessTime, L1IdlePower, L1ActivePower),
      Level(L2AccessTime, L2IdlePower, L2ActivePower),
      Level(DramAccessTime, DramIdlePower, DramActivePower),
      L2TransferPenalty, DramTransferPenalty, L2IndAccessTime, DramIndAccessTime)
  }

  /** The totals after one record with op code `op` and outcome `outcome`,
      charged with figures `f`, following the branches of the per-record
      loop of `simulate` formula by formula. Whatever the figures, a
      counted record is one access and one L1 hit or miss, every L2 access
      it adds is one L2 hit or miss, and any other op code changes nothing. */
  function Account(t: Totals, op: int, outcome: Outcome, f: Figures): (r: Totals)
    ensures r.accesses == t.accesses + Ind(Counted(op))
    ensures r.l1Hits + r.l1Misses == t.l1Hits + t.l1Misses + Ind(Counted(op))
    ensures r.l2Hits + r.l2Misses - (t.l2Hits + t.l2Misses) == r.accessesL2 - t.accessesL2
    ensures !Counted(op) ==> r == t
  {
    if IsRead(op) then
      match outcome
      case L2Miss =>
        t.(accesses := t.accesses + 1,
           l1Misses := t.l1Misses + 1,
           accessesL2 := t.accessesL2 + 1,
           l2Misses := t.l2Misses + 1,
           l1Energy := t.l1Energy + (f.l1.idlePower * (f.dram.accessTime - f.l1.accessTime) + f.l1.activePower * f.l1.accessTime + f.l1.idlePower * f.dram.accessTime),
           l2Energy := t.l2Energy + (f.l2.activePower * f.l2IndAccessTime + f.l2.idlePower * (f.dram.accessTime - f.l2.accessTime) + f.l2TransferPenalty),
           dramEnergy := t.dramEnergy + (f.dram.activePower * f.dramIndAccessTime + f.dram.idlePower * f.l2.accessTime + f.dramTransferPenalty),
           accessTime := t.accessTime + f.dram.accessTime)
      case L2Hit =>
        t.(accesses := t.accesses + 1,
           l1Misses := t.l1Misses + 1,
           accessesL2 := t.accessesL2 + 1,
           l2Hits := t.l2Hits + 1,
           l1Energy := t.l1Energy + (f.l1.idlePower * f.l2IndAccessTime + f.l1.activePower * f.l1.accessTime + f.l1.idlePower * f.l2.accessTime),
           l2Energy := t.l2Energy + (f.l2.activePower * f.l2IndAccessTime + f.l2.idlePower * f.l1.accessTime + f.l2TransferPenalty),
           dramEnergy := t.dramEnergy + f.dram.idlePower * f.l2.accessTime,
           accessTime := t.accessTime + f.l2.accessTime)
      case L1Hit =>
        t.(accesses := t.accesses + 1,
           l1Hits := t.l1Hits + 1,
           l1Energy := t.l1Energy + (f.l1.activePower * f.l1.accessTime + f.l1.idlePower * f.l1.accessTime),
           l2Energy := t.l2Energy + f.l2.idlePower * f.l1.accessTime,
           dramEnergy := t.dramEnergy + f.dram.idlePower * f.l1.accessTime,
           accessTime := t.accessTime + f.l1.accessTime)
    else if IsWrite(op) then
      match outcome
      case L2Miss =>
        t.(accesses := t.accesses + 1,
           l1Misses := t.l1Misses + 1,
           accessesL2 := t.accessesL2 + 1,
           l2Misses := t.l2Misses + 1,
           l1Energy := t.l1Energy + (f.l1.idlePower * f.l2IndAccessTime + f.l1.activePower * f.l1.accessTime + f.l1.idlePower * f.l2.accessTime),
           dramEnergy := t.dramEnergy + (f.dram.idlePower * f.l2.accessTime + f.dramTransferPenalty),
           accessTime := t.accessTime + f.l2.accessTime)
      case L2Hit =>
        t.(accesses := t.accesses + 1,
           l1Misses := t.l1Misses + 1,
           accessesL2 := t.accessesL2 + 1,
           l2Hits := t.l2Hits + 1,
           l1Energy := t.l1Energy + (f.l1.idlePower * f.l2IndAccessTime + f.l1.activePower * f.l1.accessTime + f.l1.idlePower * f.l2.accessTime),
           l2Energy := t.l2Energy + (f.l2.activePower * f.l2IndAccessTime + f.l2.idlePower * f.l1.accessTime),
           dramEnergy := t.dramEnergy + f.dram.idlePower * f.l2.accessTime,
           accessTime := t.accessTime + f.l2.accessTime)
      case L1Hit =>
        t.(accesses := t.accesses + 1,
           l1Hits := t.l1Hits + 1,
           accessesL2 := t.accessesL2 + 1,
           l2Hits := t.l2Hits + 1,
           l1Energy := t.l1Energy + (f.l1.activePower * f.l1.accessTime + f.l1.idlePower * f.l2IndAccessTime + f.l1.idlePower * f.l2.accessTime),
           l2Energy := t.l2Energy + (f.l2.idlePower * f.l1.accessTime + f.l2.activePower * f.l2IndAccessTime),
           dramEnergy := t.dramEnergy + f.dram.idlePower * f.l2.accessTime,
           accessTime := t.accessTime + f.l2.accessTime)
    else
      t
  }

  // Reference tables: what one record costs, written out as numbers.

  /** Processor-visible latency (ns): 0.5 / 5 / 50 on the read path, 5 for
      every write, nothing for an unknown op code. */
  function Latency(op: int, outcome: Outcome): real
  {
    if IsRead(op) then
      match outcome
      case L1Hit => 0.5
      case L2Hit => 5.0
      case L2Miss => 50.0
    else if IsWrite(op) then 5.0
    else 0.0
  }

  /** L1 energy (pJ) of one record. */
  function L1EnergyOf(op: int, outcome: Outcome): real
  {
    if IsRead(op) then
      match outcome
      case L1Hit => 0.75
      case L2Hit => 5.25
      case L2Miss => 50.25
    else if IsWrite(op) then 5.25
    else 0.0
  }

  /** L2 energy (pJ) of one record. */
  function L2EnergyOf(op: int, outcome: Outcome): real
  {
    if IsRead(op) then
      match outcome
      case L1Hit => 0.4
      case L2Hit => 14.4
      case L2Miss => 50.0
    else if IsWrite(op) then
      match outcome
      case L1Hit => 9.4
      case L2Hit => 9.4
      case L2Miss => 0.0
    else 0.0
  }

  /** DRAM energy (pJ) of one record. */
  function DramEnergyOf(op: int, outcome: Outcome): real
  {
    if IsRead(op) then
      match outcome
      case L1Hit => 0.4
      case L2Hit => 4.0
      case L2Miss => 824.0
    else if IsWrite(op) then
      match outcome
      case L1Hit => 4.0
      case L2Hit => 4.0
      case L2Miss => 644.0
    else 0.0
  }

  function Ind(b: bool): nat
  {
    if b then 1 else 0
  }

  /** One record, counted, whatever the figures: every counted record is
      one L1 access; it reaches L2 when it misses L1 or is a write
      (write-through); a write that hits L1 counts as an L2 hit. */
  lemma AccountCounts(t: Totals, op: int, outcome: Outcome, f: Figures)
    ensures var t' := Account(t, op, outcome, f);
      && t'.accesses == t.accesses + Ind(Counted(op))
      && t'.l1Hits == t.l1Hits + Ind(Counted(op) && outcome == L1Hit)
      && t'.l1Misses == t.l1Misses + Ind(Counted(op) && outcome != L1Hit)
      && t'.accessesL2 == t.accessesL2 + Ind(Counted(op) && (outcome != L1Hit || IsWrite(op)))
      && t'.l2Hits == t.l2Hits + Ind((Counted(op) && outcome == L2Hit) || (IsWrite(op) && outcome == L1Hit))
      && t'.l2Misses == t.l2Misses + Ind(Counted(op) && outcome == L2Miss)
  {
  }

  /** One record, charged with the figures of `simulate`: time and energy
      follow the tables. */
  lemma AccountMatchesTables(t: Totals, op: int, outcome: Outcome)
    ensures var t' := Account(t, op, outcome, SweepFigures());
      && t'.accessTime == t.accessTime + Latency(op, outcome)
      && t'.l1Energy == t.l1Energy + L1EnergyOf(op, outcome)
      && t'.l2Energy == t.l2Energy + L2EnergyOf(op, outcome)
      && t'.dramEnergy == t.dramEnergy + DramEnergyOf(op, outcome)
  {
  }

  /** An unknown op code leaves every total as it was. */
  lemma UnknownOpChangesNothing(t: Totals, op: int, outcome: Outcome, f: Figures)
    requires !Counted(op)
    ensures Account(t, op, outcome, f) == t
  {
  }

  /** The DRAM transfer penalty is charged exactly on an L2 miss. */
  lemma DramPenaltyOnlyOnL2Miss(op: int, outcome: Outcome)
    ensures DramEnergyOf(op, outcome) >= DramTransferPenalty <==> Counted(op) && outcome == L2Miss
  {
  }

  /** A write that misses both caches charges no L2 energy at all; every
      other counted record charges some. */
  lemma L2EnergyZeroOnlyOnWriteMiss(op: int, outcome: Outcome)
    requires Counted(op)
    ensures L2EnergyOf(op, outcome) == 0.0 <==> IsWrite(op) && outcome == L2Miss
  {
  }

  /** What holds of the totals after any run of records from all-zero totals: the
      hit/miss identities at both levels, every L1 miss reaching L2, the
      access time between 0.5 and 50 ns per access, and the DRAM penalty
      paid on every L2 miss. */
  ghost predicate Consistent(t: Totals)
  {
    && t.accesses == t.l1Hits + t.l1Misses
    && t.accessesL2 == t.l2Hits + t.l2Misses
    && t.l1Misses <= t.accessesL2 <= t.accesses
    && L1AccessTime * (t.accesses as real) <= t.accessTime <= DramAccessTime * (t.accesses as real)
    && t.l1Energy >= 0.0 && t.l2Energy >= 0.0
    && t.dramEnergy >= DramTransferPenalty * (t.l2Misses as real)
  }

  /** The all-zero totals `simulate` starts from are consistent. */
  lemma InitialTotalsConsistent()
    ensures Consistent(Totals(0.0, 0, 0, 0, 0, 0, 0, 0.0, 0.0, 0.0))
  {
  }

  /** Every record keeps the totals consistent. */
  lemma {:induction false} AccountKeepsConsistent(t: Totals, op: int, outcome: Outcome)
    requires Consistent(t)
    ensures Consistent(Account(t, op, outcome, SweepFigures()))
  {
    AccountCounts(t, op, outcome, SweepFigures());
    AccountMatchesTables(t, op, outcome);
    DramPenaltyOnlyOnL2Miss(op, outcome);
  }

  /** Average access time (line 218); undefined with no accesses. */
  function AverageAccessTime(t: Totals): (avg: real)
    requires t.accesses > 0
    ensures Consistent(t) ==> L1AccessTime <= avg <= DramAccessTime
  {
    var n := t.accesses as real;
    QuotientBetween(t.accessTime, n, L1AccessTime, DramAccessTime);
    t.accessTime / n
  }

  lemma QuotientBetween(x: real, n: real, lo: real, hi: real)
    requires n > 0.0
    ensures lo * n <= x <= hi * n ==> lo <= x / n <= hi
  {
    var q := x / n;
    assert q * n == x;
    if q > hi {
      assert q * n > hi * n;
    }
    if q < lo {
      assert q * n < lo * n;
    }
  }

  /** L1 hit rate (line 225); undefined with no accesses. */
  function L1HitRate(t: Totals): (rate: real)
    requires t.accesses > 0
    ensures Consistent(t) ==> 0.0 <= rate <= 1.0
    ensures Consistent(t) ==> (rate == 1.0 <==> t.l1Misses == 0)
  {
    (t.l1Hits as real) / (t.accesses as real)
  }

  /** L2 hit rate over the records that reached L2 (line 230); undefined
      when none did. */
  function L2HitRate(t: Totals): (rate: real)
    requires t.accessesL2 > 0
    ensures Consistent(t) ==> 0.0 <= rate <= 1.0
    ensures Consistent(t) ==> (rate == 0.0 <==> t.l2Hits == 0)
  {
    (t.l2Hits as real) / (t.accessesL2 as real)
  }
}
