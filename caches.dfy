/** One cache level (`Cache`) and the DRAM behind the hierarchy (`Memory`). */
module Caches {
  import opened Address
  import opened Store

  datatype Option<T> = None | Some(value: T)

  /** A cache level: fixed geometry and timing/power figures, a possible
      parent level, and the line array, which `Write` updates in place. */
  class Cache {
    const size: nat
    const associativity: nat
    const accessTime: real
    const idlePower: real
    const activePower: real
    const parent: Cache?
    /** `size // (associativity * 64)`, the number of sets. */
    const numSets: nat
    var sets: Sets

    ghost predicate Valid()
      reads this
    {
      associativity >= 1 && Shaped(sets, numSets, associativity) && AllClean(sets)
    }

    /** The geometry under which `Read` finds what `Write` installed. */
    ghost predicate PowerOfTwoGeometry()
    {
      associativity >= 1 && numSets >= 1 && IsPow2(LineBytes * numSets)
    }

    constructor (size: nat, associativity: nat, accessTime: real, idlePower: real, activePower: real, parent: Cache?)
      requires associativity >= 1
      ensures this.size == size && this.associativity == associativity
      ensures this.accessTime == accessTime && this.idlePower == idlePower && this.activePower == activePower
      ensures this.parent == parent
      ensures numSets == size / (associativity * LineBytes)
      ensures Valid()
      ensures sets == BlankSets(numSets, associativity)
    {
      this.size := size;
      this.associativity := associativity;
      this.accessTime := accessTime;
      this.idlePower := idlePower;
      this.activePower := activePower;
      this.parent := parent;
      numSets := size / (associativity * LineBytes);
      sets := BlankSets(size / (associativity * LineBytes), associativity);
    }

    /** Whether a lookup of `address` hits: some line of its set holds its
        tag and is valid. */
    function Contains(address: nat): bool
      reads this
      requires Valid() && numSets >= 1
    {
      var sp := ProbeSplit(address, numSets);
      Holds(sets[sp.setIndex], sp.tag)
    }

    /** The line array after installing `address` into slot `victim`. */
    function Installed(address: nat, victim: nat): Sets
      reads this
      requires Valid() && numSets >= 1 && victim < associativity
    {
      var sp := InstallSplit(address, numSets);
      Install(sets, sp.setIndex, victim, sp.tag)
    }

    /** `Cache.read`: scan the set of `address` for a valid line with its
        tag; changes nothing. */
    method Read(address: nat) returns (hit: bool)
      requires Valid() && numSets >= 1
      ensures hit <==> Contains(address)
    {
      var sp := ProbeSplit(address, numSets);
      var i := 0;
      while i < associativity
        invariant i <= associativity
        invariant forall j :: 0 <= j < i ==> !(sets[sp.setIndex][j].tag == sp.tag && sets[sp.setIndex][j].valid)
      {
        var temp := sets[sp.setIndex][i];
        if temp.tag == sp.tag && temp.valid {
          return true;
        }
        i := i + 1;
      }
      return false;
    }

    /** `Cache.write`: overwrite slot `victim` (the random draw, taken as an
        input) of the set of `address` with a valid, clean line for its tag.
        `forwarded` is what would be handed to the parent's `write`: the
        victim's bare tag, when there is a parent and the victim was valid
        and dirty. Since no line is ever dirty, nothing is forwarded. */
    method Write(address: nat, victim: nat) returns (forwarded: Option<int>)
      requires Valid() && numSets >= 1 && victim < associativity
      modifies this
      ensures Valid()
      ensures sets == old(Installed(address, victim))
      ensures var sp := InstallSplit(address, numSets); var evict := old(sets)[sp.setIndex][victim];
        forwarded == if parent != null && evict.valid && evict.dirty then Some(evict.tag) else None
      ensures forwarded == None
    {
      var sp := InstallSplit(address, numSets);
      var evict := sets[sp.setIndex][victim];
      forwarded := None;
      if parent != null && evict.valid && evict.dirty {
        forwarded := Some(evict.tag);
      }
      InstallTouchesOneSlot(sets, sp.setIndex, victim, sp.tag, numSets, associativity);
      InstallKeepsClean(sets, sp.setIndex, victim, sp.tag);
      sets := Install(sets, sp.setIndex, victim, sp.tag);
    }
  }

  /** Right after `Write(address, victim)`, `Read(address)` hits, provided
      the two address splits agree. */
  lemma WriteThenContains(c: Cache, address: nat, victim: nat)
    requires c.Valid() && c.PowerOfTwoGeometry() && victim < c.associativity
    ensures var sp := InstallSplit(address, c.numSets);
      Holds(c.Installed(address, victim)[sp.setIndex], sp.tag)
    ensures ProbeSplit(address, c.numSets) == InstallSplit(address, c.numSets)
  {
    var sp := InstallSplit(address, c.numSets);
    InstallThenHolds(c.sets, sp.setIndex, victim, sp.tag);
    SplitsAgree(address, c.numSets);
  }

  /** `Memory`: the DRAM, which holds every address. */
  datatype Memory = Memory(size: nat, accessTime: real, idlePower: real, activePower: real)
  {
    function Read(address: nat): (found: bool)
      ensures found
    {
      true
    }

    function Write(address: nat): (done: bool)
      ensures done
    {
      true
    }
  }
}
