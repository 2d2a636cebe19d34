/** The line array of one cache level: `numSets` sets of `associativity`
    lines each, looked up by tag and overwritten one slot at a time. */
module Store {

  /** A `CacheLine`: the tag it holds, whether it holds anything, and
      whether it was modified. */
  datatype Line = Line(tag: int, valid: bool, dirty: bool)

  /** The line every slot starts as: `CacheLine(-1, False)`, not valid. */
  const Blank: Line := Line(-1, false, false)

  type Sets = seq<seq<Line>>

  /** Every set holds exactly `associativity` lines. */
  predicate Shaped(sets: Sets, numSets: nat, associativity: nat)
  {
    |sets| == numSets && forall s :: 0 <= s < |sets| ==> |sets[s]| == associativity
  }

  /** No line is dirty. */
  predicate AllClean(sets: Sets)
  {
    forall s, i :: 0 <= s < |sets| && 0 <= i < |sets[s]| ==> !sets[s][i].dirty
  }

  /** The array `Cache.__init__` builds. */
  function BlankSets(numSets: nat, associativity: nat): (sets: Sets)
    ensures Shaped(sets, numSets, associativity) && AllClean(sets)
    ensures forall s, i :: 0 <= s < |sets| && 0 <= i < |sets[s]| ==> !sets[s][i].valid
  {
    seq(numSets, _ => seq(associativity, _ => Blank))
  }

  /** Some slot of the set holds `tag` and is valid. */
  predicate Holds(lines: seq<Line>, tag: int)
  {
    exists i :: 0 <= i < |lines| && lines[i].tag == tag && lines[i].valid
  }

  /** The slot `victim` of set `setIndex` overwritten with a valid, clean
      line for `tag`, whatever it held before. */
  function Install(sets: Sets, setIndex: nat, victim: nat, tag: int): (r: Sets)
    requires setIndex < |sets| && victim < |sets[setIndex]|
    ensures |r| == |sets| && |r[setIndex]| == |sets[setIndex]|
    ensures r[setIndex][victim] == Line(tag, true, false)
    ensures forall s :: 0 <= s < |sets| && s != setIndex ==> r[s] == sets[s]
    ensures forall i :: 0 <= i < |sets[setIndex]| && i != victim ==> r[setIndex][i] == sets[setIndex][i]
  {
    sets[setIndex := sets[setIndex][victim := Line(tag, true, false)]]
  }

  /** Installing touches exactly one slot and keeps the shape of the array. */
  lemma InstallTouchesOneSlot(sets: Sets, setIndex: nat, victim: nat, tag: int, numSets: nat, associativity: nat)
    requires Shaped(sets, numSets, associativity)
    requires setIndex < numSets && victim < associativity
    ensures Shaped(Install(sets, setIndex, victim, tag), numSets, associativity)
    ensures Install(sets, setIndex, victim, tag)[setIndex][victim] == Line(tag, true, false)
    ensures forall s, i :: 0 <= s < numSets && 0 <= i < associativity && (s != setIndex || i != victim) ==>
      Install(sets, setIndex, victim, tag)[s][i] == sets[s][i]
  {
  }

  /** Installing never makes a line dirty. */
  lemma InstallKeepsClean(sets: Sets, setIndex: nat, victim: nat, tag: int)
    requires setIndex < |sets| && victim < |sets[setIndex]|
    requires AllClean(sets)
    ensures AllClean(Install(sets, setIndex, victim, tag))
  {
  }

  /** Right after an install, the set holds the installed tag. */
  lemma InstallThenHolds(sets: Sets, setIndex: nat, victim: nat, tag: int)
    requires setIndex < |sets| && victim < |sets[setIndex]|
    ensures Holds(Install(sets, setIndex, victim, tag)[setIndex], tag)
  {
    var r: Sets := Install(sets, setIndex, victim, tag);
    assert r[setIndex][victim].tag == tag && r[setIndex][victim].valid;
  }

  /** Installing into a set leaves what every other set holds unchanged. */
  lemma InstallKeepsOtherSets(sets: Sets, setIndex: nat, victim: nat, tag: int, other: nat, otherTag: int)
    requires setIndex < |sets| && victim < |sets[setIndex]|
    requires other < |sets| && other != setIndex
    ensures Holds(Install(sets, setIndex, victim, tag)[other], otherTag) <==> Holds(sets[other], otherTag)
  {
  }

  /** In a direct-mapped, clean array a tag that is already held sits in
      the one slot of its set, so installing it again changes nothing. */
  lemma {:induction false} DirectMappedReinstall(sets: Sets, setIndex: nat, tag: int)
    requires setIndex < |sets| && |sets[setIndex]| == 1
    requires AllClean(sets) && Holds(sets[setIndex], tag)
    ensures Install(sets, setIndex, 0, tag) == sets
  {
    var i :| 0 <= i < 1 && sets[setIndex][i].tag == tag && sets[setIndex][i].valid;
    assert sets[setIndex][0] == Line(tag, true, false);
    assert sets[setIndex][0 := Line(tag, true, false)] == sets[setIndex];
  }

  /** Installing picks its slot without looking for the tag, so when the
      tag already sits in another slot of the set it ends up in two. */
  lemma InstallMayDuplicate(sets: Sets, setIndex: nat, victim: nat, resident: nat, tag: int)
    requires setIndex < |sets| && victim < |sets[setIndex]| && resident < |sets[setIndex]|
    requires resident != victim
    requires sets[setIndex][resident] == Line(tag, true, false)
    ensures Install(sets, setIndex, victim, tag)[setIndex][resident] == Line(tag, true, false)
    ensures Install(sets, setIndex, victim, tag)[setIndex][victim] == Line(tag, true, false)
  {
  }
}
