/** Installing a committee: the quadratic duplicate check of the ink! contracts, the mark-as-you-go check of the
    Solidity contracts, and what the storage of either says about the committees installed so far. */
module Committees {
  import opened Types
  import opened Collector

  datatype Verdict = Accepted | InvalidThreshold | ZeroMember | DuplicateMember

  // --- ink!

  /** `threshold as usize` keeps 32 bits. */
  ghost predicate InkAccepts(committee: seq<Account>, threshold: nat) {
    threshold != 0 && threshold % U32_SIZE <= |committee| && Distinct(committee)
  }

  method CheckCommittee(committee: seq<Account>, threshold: nat) returns (v: Verdict)
    ensures v == Accepted <==> InkAccepts(committee, threshold)
    ensures v == InvalidThreshold <==> threshold == 0 || |committee| < threshold % U32_SIZE
    ensures v == ZeroMember ==> false
  {
    if threshold == 0 || |committee| < threshold % U32_SIZE {
      return InvalidThreshold;
    }
    for i := 0 to |committee|
      invariant forall x, y :: 0 <= x < i && x < y < |committee| ==> committee[x] != committee[y]
    {
      for j := i + 1 to |committee|
        invariant forall y :: i < y < j ==> committee[i] != committee[y]
      {
        if committee[i] == committee[j] {
          return DuplicateMember;
        }
      }
    }
    return Accepted;
  }

  /** The truncation lets a threshold above the committee size through: nobody could ever reach it. */
  lemma TruncationAccepts()
    ensures InkAccepts([1], U32_SIZE + 1) && U32_SIZE + 1 > |[1]|
  {
    assert (U32_SIZE + 1) % U32_SIZE == 1;
  }

  /** An accepted threshold is reachable exactly when it fits in 32 bits. */
  lemma ReachableThresholdIff(committee: seq<Account>, threshold: nat)
    requires |committee| < U32_SIZE && InkAccepts(committee, threshold)
    ensures 1 <= threshold <= |committee| <==> threshold < U32_SIZE
  {
    if threshold < U32_SIZE {
      assert threshold % U32_SIZE == threshold;
    }
  }

  // --- Solidity

  ghost predicate SolidityAccepts(committee: seq<Account>, threshold: nat) {
    1 <= threshold <= |committee| && ZERO_ADDRESS !in committee && Distinct(committee)
  }

  function Marks(id: nat, committee: seq<Account>): set<(nat, Account)> {
    set a | a in committee :: (id, a)
  }

  ghost predicate Unmarked(marks: set<(nat, Account)>, id: nat) {
    forall a :: (id, a) !in marks
  }

  /** `_setCommittee`: marks members one by one; on a revert the marks are as before. */
  method MarkCommittee(marks: set<(nat, Account)>, id: nat, committee: seq<Account>, threshold: nat)
    returns (v: Verdict, marks': set<(nat, Account)>)
    requires Unmarked(marks, id)
    ensures v == Accepted <==> SolidityAccepts(committee, threshold)
    ensures v == InvalidThreshold <==> threshold == 0 || |committee| < threshold
    ensures v == ZeroMember ==> ZERO_ADDRESS in committee
    ensures v == DuplicateMember ==> !Distinct(committee)
    ensures marks' == if v == Accepted then marks + Marks(id, committee) else marks
  {
    marks' := marks;
    if threshold == 0 || |committee| < threshold {
      return InvalidThreshold, marks;
    }
    for i := 0 to |committee|
      invariant marks' == marks + Marks(id, committee[..i])
      invariant Distinct(committee[..i]) && ZERO_ADDRESS !in committee[..i]
    {
      var member := committee[i];
      if member == ZERO_ADDRESS {
        return ZeroMember, marks;
      }
      if (id, member) in marks' {
        return DuplicateMember, marks;
      }
      assert committee[..i + 1] == committee[..i] + [member];
      marks' := marks' + {(id, member)};
    }
    assert committee[..|committee|] == committee;
    return Accepted, marks';
  }

  /** The two checks accept the same lists, except for Solidity's zero-address rule and thresholds that lose bits. */
  lemma SameLists(committee: seq<Account>, threshold: nat)
    requires |committee| < U32_SIZE
    ensures SolidityAccepts(committee, threshold)
            <==> InkAccepts(committee, threshold) && ZERO_ADDRESS !in committee && threshold < U32_SIZE
  {
    if threshold < U32_SIZE {
      assert threshold % U32_SIZE == threshold;
    }
  }

  // --- storage

  /** Members, sizes and thresholds in storage describe exactly the rosters installed so far. */
  ghost predicate Stored(rosters: seq<Roster>, members: set<(nat, Account)>, sizes: map<nat, nat>,
                         thresholds: map<nat, nat>)
  {
    && (forall c: nat, a: Account {:trigger (c, a) in members} ::
          (c, a) in members <==> c < |rosters| && a in rosters[c].members)
    && (forall c: nat {:trigger c in sizes} :: c in sizes <==> c < |rosters|)
    && (forall c: nat {:trigger c in thresholds} :: c in thresholds <==> c < |rosters|)
    && (forall c: nat {:trigger sizes[c]} | c < |rosters| :: sizes[c] == |rosters[c].members|)
    && (forall c: nat {:trigger thresholds[c]} | c < |rosters| :: thresholds[c] == rosters[c].threshold)
  }

  /** Writing a committee under the next id installs it and leaves every earlier committee as it was. */
  lemma StoreNext(rosters: seq<Roster>, members: set<(nat, Account)>, sizes: map<nat, nat>, thresholds: map<nat, nat>,
                  committee: seq<Account>, threshold: nat)
    requires Stored(rosters, members, sizes, thresholds)
    ensures var id := |rosters|;
            Stored(rosters + [Roster(committee, threshold)], members + Marks(id, committee),
                   sizes[id := |committee|], thresholds[id := threshold])
  {
  }

  /** Writing under an id that is already taken, as happens when the 128-bit id wraps around to 0, keeps the old
      members of that id: the storage describes the new list if and only if every old member is in it. */
  lemma StoreOverIff(rosters: seq<Roster>, members: set<(nat, Account)>, sizes: map<nat, nat>,
                     thresholds: map<nat, nat>, id: nat, committee: seq<Account>)
    requires Stored(rosters, members, sizes, thresholds) && id < |rosters|
    ensures (forall a :: (id, a) in members + Marks(id, committee) <==> a in committee)
            <==> (forall a | a in rosters[id].members :: a in committee)
  {
  }

  /** After 2^128 committees the next id is 0 again: a member of the first committee who is not in the new list would
      still be accepted as a member under the new id. */
  lemma WrappedIdMixes(rosters: seq<Roster>, members: set<(nat, Account)>, sizes: map<nat, nat>,
                       thresholds: map<nat, nat>)
    requires Stored(rosters, members, sizes, thresholds) && |rosters| == U128_SIZE && rosters[0].members == [7]
    ensures var id := |rosters| % U128_SIZE;
            && (id, 7) in members + Marks(id, [8]) && 7 !in [8]
            && !forall a :: (id, a) in members + Marks(id, [8]) <==> a in [8]
  {
    assert (0, 7) in members;
  }

  // --- integrity of installed committees

  /** The marks stored under one id. */
  function MarksOf(members: set<(nat, Account)>, id: nat): set<(nat, Account)> {
    set p | p in members && p.0 == id
  }

  lemma {:induction false} MarksCount(id: nat, committee: seq<Account>)
    requires Distinct(committee)
    ensures |Marks(id, committee)| == |committee|
    decreases |committee|
  {
    if committee == [] {
      assert Marks(id, committee) == {};
    } else {
      var last := |committee| - 1;
      MarksCount(id, committee[..last]);
      assert committee == committee[..last] + [committee[last]];
      assert Marks(id, committee) == Marks(id, committee[..last]) + {(id, committee[last])};
      assert (id, committee[last]) !in Marks(id, committee[..last]);
    }
  }

  /** The recorded size of an installed committee is the number of its marks. */
  lemma StoredCount(rosters: seq<Roster>, members: set<(nat, Account)>, sizes: map<nat, nat>,
                    thresholds: map<nat, nat>, id: nat)
    requires Stored(rosters, members, sizes, thresholds) && id < |rosters| && Distinct(rosters[id].members)
    ensures id in sizes && id in thresholds && sizes[id] == |MarksOf(members, id)|
  {
    MarksCount(id, rosters[id].members);
    assert MarksOf(members, id) == Marks(id, rosters[id].members);
  }
}
