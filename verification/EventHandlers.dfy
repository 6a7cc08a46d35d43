/** `handle_event` on both sides: sign until the signature is no longer needed in the last finalized block. */
module EventHandlers {
  import opened Types
  import opened Collector

  /** The successive states of the destination contract. */
  ghost predicate IsHistory(hash: Request -> Hash, history: seq<Core>, steps: seq<Step>) {
    && |history| == |steps| + 1
    && (forall i | 0 <= i < |history| :: |history[i].rosters| > 0)
    && (forall i {:trigger steps[i]} | 0 <= i < |steps| :: history[i + 1] == Next(hash, history[i], steps[i]))
  }

  /** One turn of the loop: which state was finalized and which was the latest, whether reading them succeeds, and
      whether the vote that the turn may submit goes through. */
  datatype Turn = Turn(finalized: nat, latest: nat, finalizedOk: bool, latestOk: bool, txOk: bool)

  /** `Blacklisted`, `NotMember` and `Signed` are the three ways to return Ok; the latter two carry the state that was
      read. `Running`: the loop has not ended yet. */
  datatype Handled = Blacklisted | NotMember(at: nat) | Signed(at: nat) | FutureCommittee | Failed | Running

  lemma {:induction false} SettledLater(hash: Request -> Hash, history: seq<Core>, steps: seq<Step>, i: nat, j: nat,
                                        h: Hash, who: Account, committee: nat)
    requires IsHistory(hash, history, steps) && i <= j < |history| && Settled(history[i], h, who, committee)
    ensures Settled(history[j], h, who, committee)
    decreases j
  {
    if i < j {
      SettledLater(hash, history, steps, i, j - 1, h, who, committee);
      assert history[j - 1 + 1] == Next(hash, history[j - 1], steps[j - 1]);
    }
  }

  /** What an Ok is worth that rests on "not needed" in state `at`: the answer holds from there on if the committee was
      installed in that very state, and it is beyond the reach of every future if and only if the committee was
      installed, or the request was executed, or the guardian had signed it. */
  ghost predicate Answered(hash: Request -> Hash, history: seq<Core>, at: nat, h: Hash, who: Account, committee: nat)
    requires at < |history| && |history[at].rosters| > 0
  {
    var core := history[at];
    && !NeedsSignature(core, h, who, committee)
    && (committee < |core.rosters| ==>
          forall j | at <= j < |history| :: !NeedsSignature(history[j], h, who, committee))
    && (UnneededForever(hash, core, h, who, committee)
        <==> committee < |core.rosters| || h in core.executed || who in Signers(core, h))
  }

  lemma UnneededIsAnswered(hash: Request -> Hash, history: seq<Core>, steps: seq<Step>, at: nat,
                           h: Hash, who: Account, committee: nat)
    requires IsHistory(hash, history, steps) && at < |history| && !NeedsSignature(history[at], h, who, committee)
    ensures Answered(hash, history, at, h, who, committee)
  {
    UnneededForeverIff(hash, history[at], h, who, committee);
    if committee < |history[at].rosters| {
      forall j | at <= j < |history| ensures !NeedsSignature(history[j], h, who, committee) {
        SettledLater(hash, history, steps, at, j, h, who, committee);
      }
    }
  }

  /** A read fails, or the vote does that the latest state asks for, while the finalized one still needs it. */
  predicate TurnFails(turn: Turn, history: seq<Core>, h: Hash, who: Account, committee: nat)
    requires turn.finalized < |history| && turn.latest < |history|
  {
    !turn.finalizedOk
    || (NeedsSignature(history[turn.finalized], h, who, committee)
        && (!turn.latestOk || (NeedsSignature(history[turn.latest], h, who, committee) && !turn.txOk)))
  }

  /** The signature is still needed in the finalized state: a vote was sent if the latest state asked for one, and the
      loop goes on. */
  predicate GoesOn(turn: Turn, history: seq<Core>, h: Hash, who: Account, committee: nat)
    requires turn.finalized < |history| && turn.latest < |history|
  {
    && turn.finalizedOk && turn.latestOk && NeedsSignature(history[turn.finalized], h, who, committee)
    && (NeedsSignature(history[turn.latest], h, who, committee) ==> turn.txOk)
  }

  predicate InHistory(turns: seq<Turn>, history: seq<Core>) {
    forall i | 0 <= i < |turns| :: turns[i].finalized <= turns[i].latest < |history|
  }

  /** The loop ends in its `i`-th turn. */
  ghost predicate EndsAt(turns: seq<Turn>, history: seq<Core>, h: Hash, who: Account, committee: nat, i: nat)
    requires InHistory(turns, history)
  {
    && i < |turns| && !GoesOn(turns[i], history, h, who, committee)
    && forall k | 0 <= k < i :: GoesOn(turns[k], history, h, who, committee)
  }

  /** `not_in_committee` reads membership in state `member` and the current committee id in state `current`: two calls
      at the latest block, between which the contract may move on. `membershipOk`: the reads it makes succeed. */
  method HandleEvent(ghost hash: Request -> Hash, history: seq<Core>, ghost steps: seq<Step>, blacklisted: bool,
                     membershipOk: bool, member: nat, current: nat, turns: seq<Turn>,
                     h: Hash, who: Account, committee: nat)
    returns (res: Handled)
    requires IsHistory(hash, history, steps) && member <= current < |history|
    requires InHistory(turns, history)
    ensures res.Blacklisted? <==> blacklisted
    ensures res.NotMember? || res.FutureCommittee? <==>
              !blacklisted && membershipOk && !InCommittee(history[member], committee, who)
    ensures res.NotMember? ==> committee < |history[current].rosters| && res.at == member
    ensures res.FutureCommittee? ==> committee >= |history[current].rosters|
    ensures res.Signed? ==>
              exists i: nat :: EndsAt(turns, history, h, who, committee, i) && turns[i].finalizedOk
                          && turns[i].finalized == res.at && !NeedsSignature(history[res.at], h, who, committee)
    ensures res.NotMember? || res.Signed? ==>
              res.at < |history| && Answered(hash, history, res.at, h, who, committee)
    ensures res.Failed? ==>
              !membershipOk
              || exists i: nat :: EndsAt(turns, history, h, who, committee, i)
                             && TurnFails(turns[i], history, h, who, committee)
    ensures res.Running? ==>
              membershipOk && forall i | 0 <= i < |turns| :: GoesOn(turns[i], history, h, who, committee)
  {
    if blacklisted {
      return Blacklisted;
    }
    if !membershipOk {
      return Failed;
    }
    // not_in_committee
    if !InCommittee(history[member], committee, who) {
      if committee > |history[current].rosters| - 1 {
        return FutureCommittee;
      }
      UnneededIsAnswered(hash, history, steps, member, h, who, committee);
      return NotMember(member);
    }
    for i := 0 to |turns|
      invariant forall k | 0 <= k < i :: GoesOn(turns[k], history, h, who, committee)
    {
      var turn := turns[i];
      if !turn.finalizedOk {
        assert EndsAt(turns, history, h, who, committee, i);
        return Failed;
      }
      if !NeedsSignature(history[turn.finalized], h, who, committee) {
        UnneededIsAnswered(hash, history, steps, turn.finalized, h, who, committee);
        assert EndsAt(turns, history, h, who, committee, i);
        return Signed(turn.finalized);
      }
      if !turn.latestOk || (NeedsSignature(history[turn.latest], h, who, committee) && !turn.txOk) {
        assert EndsAt(turns, history, h, who, committee, i);
        return Failed;
      }
    }
    return Running;
  }

  /** A loop ends in at most one turn, and in only one way. */
  lemma OneEnd(turns: seq<Turn>, history: seq<Core>, h: Hash, who: Account, committee: nat, i: nat, j: nat)
    requires InHistory(turns, history)
    requires EndsAt(turns, history, h, who, committee, i) && EndsAt(turns, history, h, who, committee, j)
    ensures i == j
    ensures TurnFails(turns[i], history, h, who, committee)
            <==> !turns[i].finalizedOk || NeedsSignature(history[turns[i].finalized], h, who, committee)
  {
    if i < j || j < i {
      assert false;
    }
  }

  /** The proviso matters: the membership check reads the latest state, the loop reads the finalized one.  Right after a
      rotation that is not final yet, the loop sees "not needed" for a guardian whose signature is in fact needed. */
  lemma UnfinalizedRotation(core: Core, h: Hash, who: Account)
    requires |core.rosters| > 0 && h !in core.executed && who !in Signers(core, h)
    ensures var committee := |core.rosters|;
            var rotated := AddRoster(core, [who], 1);
            && InCommittee(rotated, committee, who)
            && !NeedsSignature(core, h, who, committee)
            && NeedsSignature(rotated, h, who, committee)
  {
    var rotated := AddRoster(core, [who], 1);
    assert rotated.rosters[|core.rosters|].members == [who];
    assert Signers(rotated, h) == Signers(core, h);
  }

  /** It matters for the membership check as well: when the rotation that installs a committee lands between the two
      reads, the first says "not a member" and the second "not a future committee", and the handler returns Ok for a
      guardian whose signature is needed from that rotation on. */
  lemma RotationBetweenReads(hash: Request -> Hash, core: Core, h: Hash, who: Account)
    requires |core.rosters| > 0 && h !in core.executed && who !in Signers(core, h)
    ensures var committee, rotation := |core.rosters|, Install([who], 1);
            var rotated := Next(hash, core, rotation);
            && IsHistory(hash, [core, rotated], [rotation])
            && !InCommittee(core, committee, who) && committee < |rotated.rosters|
            && NeedsSignature(rotated, h, who, committee)
            && !UnneededForever(hash, core, h, who, committee)
  {
    var rotated := Next(hash, core, Install([who], 1));
    assert rotated == AddRoster(core, [who], 1);
    UnfinalizedRotation(core, h, who);
    UnneededForeverIff(hash, core, h, who, |core.rosters|);
  }
}
