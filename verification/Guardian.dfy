/** The pipelines and the event handlers together: what the stored block numbers say about a guardian's votes. */
module Guardian {
  import opened Types
  import opened Collector
  import opened Blocks
  import opened EventHandlers
  import EthPipeline
  import AzeroPipeline

  /** What the chain answers while one event is handled. */
  datatype Attempt = Attempt(membershipOk: bool, member: nat, current: nat, turns: seq<Turn>)

  /** What a guardian knows: the states of the destination contract, its own account, the requests it skips, and how to
      decode an event; `None` is an event of another kind. */
  datatype Watch = Watch(hash: Request -> Hash, history: seq<Core>, who: Account, blacklist: set<Hash>,
                         requests: Event -> Option<Request>)

  ghost predicate WellFormed(w: Watch) {
    forall i | 0 <= i < |w.history| :: |w.history[i].rosters| > 0
  }

  ghost predicate Possible(w: Watch, a: Attempt) {
    a.member <= a.current < |w.history| && InHistory(a.turns, w.history)
  }

  /** The states in which the attempt asked whether the signature is needed. */
  ghost predicate Reads(a: Attempt, at: nat) {
    at == a.member || exists i :: 0 <= i < |a.turns| && a.turns[i].finalized == at && a.turns[i].finalizedOk
  }

  /** The attempt shows that the guardian owes no vote for the event: it is no request, or blacklisted, or in a state
      that the attempt read the signature was not needed, with everything that follows from that. */
  ghost predicate JustifiedBy(w: Watch, e: Event, a: Attempt)
    requires WellFormed(w)
  {
    match w.requests(e)
    case None => true
    case Some(r) =>
      w.hash(r) in w.blacklist
      || exists at | 0 <= at < |w.history| ::
           Reads(a, at) && Answered(w.hash, w.history, at, w.hash(r), w.who, r.committee)
  }

  /** Every handled event has an attempt that justifies it. */
  ghost predicate AllJustified(w: Watch, events: set<Event>, shown: map<Event, Attempt>)
    requires WellFormed(w)
  {
    forall e | e in events :: e in shown && JustifiedBy(w, e, shown[e])
  }

  /** The attempt has not come to an end: the guardian is a member, and the signature is needed in every finalized state
      that it has seen so far. */
  ghost predicate Unfinished(w: Watch, e: Event, a: Attempt)
    requires Possible(w, a)
  {
    && w.requests(e).Some? && a.membershipOk
    && var r := w.requests(e).value;
       && w.hash(r) !in w.blacklist && InCommittee(w.history[a.member], r.committee, w.who)
       && forall i | 0 <= i < |a.turns| :: GoesOn(a.turns[i], w.history, w.hash(r), w.who, r.committee)
  }

  /** A read or a vote of the attempt fails, or the committee is not there yet. */
  ghost predicate Fails(w: Watch, e: Event, a: Attempt)
    requires Possible(w, a)
  {
    && w.requests(e).Some?
    && var r := w.requests(e).value;
       && w.hash(r) !in w.blacklist
       && (!a.membershipOk
           || (!InCommittee(w.history[a.member], r.committee, w.who) && r.committee >= |w.history[a.current].rosters|)
           || (InCommittee(w.history[a.member], r.committee, w.who)
               && exists i: nat :: EndsAt(a.turns, w.history, w.hash(r), w.who, r.committee, i)
                              && TurnFails(a.turns[i], w.history, w.hash(r), w.who, r.committee)))
  }

  /** `Some(true)`: Ok; `Some(false)`: an error; `None`: still busy. */
  method Answer(w: Watch, ghost steps: seq<Step>, e: Event, attempt: Attempt) returns (answer: Option<bool>)
    requires IsHistory(w.hash, w.history, steps) && Possible(w, attempt)
    ensures answer == Some(true) ==> JustifiedBy(w, e, attempt)
    ensures answer == Some(false) ==> Fails(w, e, attempt)
    ensures answer == None ==> Unfinished(w, e, attempt)
  {
    var request := w.requests(e);
    if request.None? {
      return Some(true);
    }
    var r := request.value;
    var h := w.hash(r);
    var res := HandleEvent(w.hash, w.history, steps, h in w.blacklist, attempt.membershipOk, attempt.member,
                           attempt.current, attempt.turns, h, w.who, r.committee);
    match res {
      case Blacklisted => answer := Some(true);
      case NotMember(at) =>
        assert Reads(attempt, at);
        answer := Some(true);
      case Signed(at) =>
        ghost var i: nat :| EndsAt(attempt.turns, w.history, h, w.who, r.committee, i)
                            && attempt.turns[i].finalizedOk && attempt.turns[i].finalized == at;
        assert Reads(attempt, at);
        answer := Some(true);
      case FutureCommittee => answer := Some(false);
      case Failed => answer := Some(false);
      case Running => answer := None;
    }
  }

  /** If every state that the attempt read had the committee installed, the request is blacklisted or settled for
      good. */
  lemma SettledAtTheEnd(w: Watch, steps: seq<Step>, e: Event, a: Attempt)
    requires IsHistory(w.hash, w.history, steps) && JustifiedBy(w, e, a) && w.requests(e).Some?
    requires forall at: nat | Reads(a, at) && at < |w.history| ::
               w.requests(e).value.committee < |w.history[at].rosters|
    ensures var r := w.requests(e).value;
            w.hash(r) in w.blacklist || Settled(w.history[|w.history| - 1], w.hash(r), w.who, r.committee)
  {
    var r := w.requests(e).value;
    if w.hash(r) !in w.blacklist {
      var at :| 0 <= at < |w.history| && Reads(a, at)
                && Answered(w.hash, w.history, at, w.hash(r), w.who, r.committee);
      SettledLater(w.hash, w.history, steps, at, |w.history| - 1, w.hash(r), w.who, r.committee);
    }
  }

  // --- from Ethereum to Aleph Zero

  /** An arm of one of the tasks, or the handling of the next event. */
  datatype EthTask = TakeEth(arm: EthPipeline.Arm) | HandleEth(attempt: Attempt)

  ghost predicate EthPossible(w: Watch, task: EthTask) {
    match task
    case TakeEth(arm) => !arm.EventOk? && !arm.EventFailed?
    case HandleEth(attempt) => Possible(w, attempt)
  }

  /** Handles the next event of the batch in hand, if there is one. */
  method HandleNext(w: Watch, ghost steps: seq<Step>, relayer: EthPipeline.Relayer, attempt: Attempt,
                    ghost shown: map<Event, Attempt>)
    returns (ghost shown': map<Event, Attempt>)
    requires IsHistory(w.hash, w.history, steps) && Possible(w, attempt) && relayer.cfg.step >= 1
    requires EthPipeline.Safe(relayer.cfg, relayer.View()) && AllJustified(w, relayer.handled, shown)
    modifies relayer
    ensures EthPipeline.Safe(relayer.cfg, relayer.View()) && AllJustified(w, relayer.handled, shown')
    ensures forall e | e in shown' :: (e in shown && shown'[e] == shown[e]) || shown'[e] == attempt
    ensures var u := old(relayer.View());
            if u.handler.Busy? && u.handler.next < |u.handler.events| then
              var e := u.handler.events[u.handler.next];
              || (relayer.View() == EthPipeline.Next(relayer.cfg, u, EthPipeline.EventOk) && JustifiedBy(w, e, attempt))
              || (relayer.View() == EthPipeline.Next(relayer.cfg, u, EthPipeline.EventFailed) && Fails(w, e, attempt))
              || (relayer.View() == u && Unfinished(w, e, attempt))
            else relayer.View() == u
  {
    shown' := shown;
    if relayer.handler.Busy? && relayer.handler.next < |relayer.handler.events| {
      var e := relayer.handler.events[relayer.handler.next];
      var answer := Answer(w, steps, e, attempt);
      if answer.Some? {
        ghost var arm := if answer.value then EthPipeline.EventOk else EthPipeline.EventFailed;
        EthPipeline.NextKeeps(relayer.cfg, relayer.View(), arm);
        relayer.OnEvent(answer.value);
        if answer.value {
          shown' := shown[e := attempt];
        }
      }
    }
  }

  lemma OtherArmsHandleNothing(cfg: EthPipeline.Config, s: EthPipeline.State, arm: EthPipeline.Arm)
    requires cfg.step >= 1 && !arm.EventOk?
    ensures EthPipeline.Next(cfg, s, arm).handled == s.handled
  {
  }

  /** However the tasks interleave, fail and reboot, and whatever the chain answers: every event below the stored block
      number is justified by the attempt that handled it, one of the tasks or of those given at the start. */
  method Guard(w: Watch, ghost steps: seq<Step>, relayer: EthPipeline.Relayer, tasks: seq<EthTask>,
               ghost given: map<Event, Attempt>)
    returns (ghost shown: map<Event, Attempt>)
    requires IsHistory(w.hash, w.history, steps) && relayer.cfg.step >= 1
    requires forall i | 0 <= i < |tasks| :: EthPossible(w, tasks[i])
    requires EthPipeline.Safe(relayer.cfg, relayer.View()) && AllJustified(w, relayer.handled, given)
    modifies relayer
    ensures EthPipeline.Safe(relayer.cfg, relayer.View()) && AllJustified(w, relayer.handled, shown)
    ensures forall e | e in shown :: (e in given && shown[e] == given[e]) || HandleEth(shown[e]) in tasks
    ensures var stored := EthPipeline.Checkpoint(relayer.cfg, relayer.View());
            forall e | e in EventsIn(relayer.cfg.blocks, relayer.cfg.start, stored) ::
              e in shown && JustifiedBy(w, e, shown[e])
  {
    shown := given;
    for i := 0 to |tasks|
      invariant EthPipeline.Safe(relayer.cfg, relayer.View()) && AllJustified(w, relayer.handled, shown)
      invariant forall e | e in shown :: (e in given && shown[e] == given[e]) || HandleEth(shown[e]) in tasks
    {
      match tasks[i] {
        case HandleEth(attempt) => shown := HandleNext(w, steps, relayer, attempt, shown);
        case TakeEth(arm) =>
          EthPipeline.NextKeeps(relayer.cfg, relayer.View(), arm);
          OtherArmsHandleNothing(relayer.cfg, relayer.View(), arm);
          relayer.Perform(arm);
      }
    }
    ghost var stored := EthPipeline.Checkpoint(relayer.cfg, relayer.View());
    RangeDoneIff(relayer.cfg.blocks, relayer.cfg.start, stored, relayer.handled);
  }

  // --- from Aleph Zero to Ethereum

  /** An arm of one of the tasks, or the handling of an event of some batch in flight. */
  datatype AzeroTask = TakeAzero(arm: AzeroPipeline.Arm) | HandleAzero(index: nat, event: Event, attempt: Attempt)

  ghost predicate AzeroPossible(w: Watch, task: AzeroTask) {
    match task
    case TakeAzero(arm) => !arm.HandlerDone?
    case HandleAzero(_, _, attempt) => Possible(w, attempt)
  }

  ghost predicate HandledIn(tasks: seq<AzeroTask>, e: Event, a: Attempt) {
    exists i :: 0 <= i < |tasks| && tasks[i].HandleAzero? && tasks[i].event == e && tasks[i].attempt == a
  }

  method HandleAny(w: Watch, ghost steps: seq<Step>, relayer: AzeroPipeline.Relayer, index: nat, e: Event,
                   attempt: Attempt, ghost shown: map<Event, Attempt>)
    returns (ghost shown': map<Event, Attempt>)
    requires IsHistory(w.hash, w.history, steps) && Possible(w, attempt) && relayer.cfg.step >= 1
    requires AzeroPipeline.Safe(relayer.cfg, relayer.View()) && AllJustified(w, relayer.handled, shown)
    modifies relayer
    ensures AzeroPipeline.Safe(relayer.cfg, relayer.View()) && AllJustified(w, relayer.handled, shown')
    ensures forall x | x in shown' :: (x in shown && shown'[x] == shown[x]) || (x == e && shown'[x] == attempt)
    ensures var u := old(relayer.View());
            || (relayer.View() == AzeroPipeline.Next(relayer.cfg, u, AzeroPipeline.HandlerDone(index, e, true))
                && JustifiedBy(w, e, attempt))
            || (relayer.View() == AzeroPipeline.Next(relayer.cfg, u, AzeroPipeline.HandlerDone(index, e, false))
                && Fails(w, e, attempt))
            || (relayer.View() == u && Unfinished(w, e, attempt))
  {
    shown' := shown;
    var answer := Answer(w, steps, e, attempt);
    if answer.Some? {
      AzeroPipeline.NextKeeps(relayer.cfg, relayer.View(), AzeroPipeline.HandlerDone(index, e, answer.value));
      relayer.OnHandlerDone(index, e, answer.value);
      if answer.value {
        shown' := shown[e := attempt];
      }
    }
  }

  lemma OtherAzeroArmsHandleNothing(cfg: AzeroPipeline.Config, s: AzeroPipeline.State, arm: AzeroPipeline.Arm)
    requires cfg.step >= 1 && !arm.HandlerDone?
    ensures AzeroPipeline.Next(cfg, s, arm).handled == s.handled
  {
  }

  /** With any number of batches in flight, handlers returning in any order, failures and reboots: the handler of every
      event below the stored block number failed at some time, or the event is justified by an attempt at that very
      event. */
  method GuardAzero(w: Watch, ghost steps: seq<Step>, relayer: AzeroPipeline.Relayer, tasks: seq<AzeroTask>,
                    ghost given: map<Event, Attempt>)
    returns (ghost shown: map<Event, Attempt>)
    requires IsHistory(w.hash, w.history, steps) && relayer.cfg.step >= 1
    requires forall i | 0 <= i < |tasks| :: AzeroPossible(w, tasks[i])
    requires AzeroPipeline.Safe(relayer.cfg, relayer.View()) && AllJustified(w, relayer.handled, given)
    modifies relayer
    ensures AzeroPipeline.Safe(relayer.cfg, relayer.View()) && AllJustified(w, relayer.handled, shown)
    ensures forall e | e in shown :: (e in given && shown[e] == given[e]) || HandledIn(tasks, e, shown[e])
    ensures var stored := AzeroPipeline.Checkpoint(relayer.cfg, relayer.View());
            forall e | e in EventsIn(relayer.cfg.blocks, relayer.cfg.start, stored) ::
              e in relayer.failed || (e in shown && JustifiedBy(w, e, shown[e]))
  {
    shown := given;
    for i := 0 to |tasks|
      invariant AzeroPipeline.Safe(relayer.cfg, relayer.View()) && AllJustified(w, relayer.handled, shown)
      invariant forall e | e in shown :: (e in given && shown[e] == given[e]) || HandledIn(tasks, e, shown[e])
    {
      match tasks[i] {
        case HandleAzero(index, e, attempt) =>
          assert HandledIn(tasks, e, attempt);
          shown := HandleAny(w, steps, relayer, index, e, attempt, shown);
        case TakeAzero(arm) =>
          AzeroPipeline.NextKeeps(relayer.cfg, relayer.View(), arm);
          OtherAzeroArmsHandleNothing(relayer.cfg, relayer.View(), arm);
          relayer.Perform(arm);
      }
    }
    AzeroPipeline.SafeBelowCheckpoint(relayer.cfg, relayer.View());
  }
}
