/** The relayer's Aleph-Zero-to-Ethereum pipeline: many batches in flight, handler tasks that finish in any order,
    acknowledgements taken from an ordered queue, seals sent to Redis, reboots at any point. */
module AzeroPipeline {
  import opened Types
  import opened Blocks

  /** `returned`: the events of the batch whose handlers have returned, with or without an error. */
  datatype Batch = Batch(from: nat, last: nat, returned: set<Event>, acked: bool)

  /** `next`: the block number in the listener's broadcast channel. `queue`: the ordered futures, oldest first.
      `seals`: the channel to the Redis manager. `sealed`: every seal sent since the last boot.
      History over all boots: `acked` blocks, and events whose handler returned Ok or failed. */
  datatype State = State(cached: Option<nat>, next: Option<nat>, queue: seq<Batch>, seals: seq<nat>, sealed: seq<nat>,
                         listenerUp: bool, handlerUp: bool, redisUp: bool,
                         acked: set<nat>, handled: set<Event>, failed: set<Event>)

  datatype Config = Config(blocks: Source, start: nat, step: nat)

  datatype Arm =
    | Boot
    | NextBlock(finalized: nat)
    | HandlerDone(index: nat, event: Event, ok: bool)   // the handler of one event of a batch returns
    | TaskDone(index: nat)                              // all of them have returned: the batch is acknowledged
    | Seal                                         // the oldest batch is acknowledged
    | WriteCheckpoint
    | StopListener | StopHandler | StopRedis

  function Checkpoint(cfg: Config, s: State): nat {
    if s.cached.Some? then s.cached.value else cfg.start
  }

  function Range(from: nat, until: nat): (blocks: set<nat>)
    ensures forall n: nat :: n in blocks <==> from <= n < until
    decreases until
  {
    if from >= until then {} else Range(from, until - 1) + {until - 1}
  }

  function BlocksOf(b: Batch): set<nat> { Range(b.from, b.last + 1) }

  function EventsOf(cfg: Config, b: Batch): set<Event> { SetOf(EventsIn(cfg.blocks, b.from, b.last + 1)) }

  function Enqueue(cfg: Config, s: State, finalized: nat): State
    requires cfg.step >= 1 && s.next.Some? && finalized >= s.next.value
  {
    var last := BatchEnd(s.next.value, finalized, cfg.step);
    s.(queue := s.queue + [Batch(s.next.value, last, {}, false)], next := Some(last + 1))
  }

  function Returned(s: State, i: nat, e: Event, ok: bool): State
    requires i < |s.queue|
  {
    var b := s.queue[i];
    s.(queue := s.queue[i := b.(returned := b.returned + {e})],
       handled := if ok then s.handled + {e} else s.handled, failed := if ok then s.failed else s.failed + {e})
  }

  /** The batch is acknowledged even if some of its handlers failed and opened the circuit breaker. */
  function Acknowledge(s: State, i: nat): State
    requires i < |s.queue|
  {
    var b := s.queue[i];
    s.(queue := s.queue[i := b.(acked := true)], acked := s.acked + BlocksOf(b))
  }

  /** The handler task of the `i`-th batch is still running. */
  predicate Running(s: State, i: nat) {
    s.handlerUp && i < |s.queue| && !s.queue[i].acked
  }

  function SealHead(s: State): State
    requires s.queue != []
  {
    s.(queue := s.queue[1..], seals := s.seals + [s.queue[0].last], sealed := s.sealed + [s.queue[0].last])
  }

  function Next(cfg: Config, s: State, arm: Arm): State
    requires cfg.step >= 1
  {
    match arm
    case Boot => State(s.cached, Some(Checkpoint(cfg, s)), [], [], [], true, true, true, s.acked, s.handled, s.failed)
    case NextBlock(finalized) =>
      if s.listenerUp && s.next.Some? && finalized >= s.next.value then Enqueue(cfg, s, finalized) else s
    case HandlerDone(i, e, ok) =>
      if Running(s, i) && e in EventsOf(cfg, s.queue[i]) && e !in s.queue[i].returned then Returned(s, i, e, ok) else s
    case TaskDone(i) =>
      if Running(s, i) && EventsOf(cfg, s.queue[i]) <= s.queue[i].returned then Acknowledge(s, i) else s
    case Seal => if s.listenerUp && s.queue != [] && s.queue[0].acked then SealHead(s) else s
    case WriteCheckpoint =>
      if s.redisUp && s.seals != [] then s.(cached := Some(s.seals[0] + 1), seals := s.seals[1..]) else s
    case StopListener => s.(listenerUp := false)
    case StopHandler => s.(handlerUp := false)
    case StopRedis => s.(redisUp := false)
  }

  // --- invariant

  ghost predicate AckedUpTo(cfg: Config, s: State, n: nat) {
    cfg.start <= n && forall b | cfg.start <= b < n :: b in s.acked
  }

  /** One past the last sealed block. */
  function Frontier(cfg: Config, s: State): nat {
    if s.seals == [] then Checkpoint(cfg, s) else s.seals[|s.seals| - 1] + 1
  }

  ghost predicate Increasing(ns: seq<nat>) {
    forall i, j | 0 <= i < j < |ns| :: ns[i] < ns[j]
  }

  /** The queue covers the blocks after `n` without gap or overlap, up to `QueueEnd`. */
  ghost predicate Contiguous(n: nat, queue: seq<Batch>)
    decreases |queue|
  {
    queue == [] || (queue[0].from == n <= queue[0].last && Contiguous(queue[0].last + 1, queue[1..]))
  }

  function QueueEnd(n: nat, queue: seq<Batch>): nat
    decreases |queue|
  {
    if queue == [] then n else QueueEnd(queue[0].last + 1, queue[1..])
  }

  ghost predicate SealsOk(cfg: Config, s: State) {
    && Increasing(s.seals) && Increasing(s.sealed)
    && (forall i | 0 <= i < |s.seals| :: Checkpoint(cfg, s) <= s.seals[i])
    && (forall i | 0 <= i < |s.sealed| :: s.sealed[i] < Frontier(cfg, s))
  }

  ghost predicate QueueOk(cfg: Config, s: State) {
    && Contiguous(Frontier(cfg, s), s.queue)
    && (s.next.Some? ==> s.next.value == QueueEnd(Frontier(cfg, s), s.queue))
    && (forall i | 0 <= i < |s.queue| && s.queue[i].acked :: BlocksOf(s.queue[i]) <= s.acked)
    && (forall i | 0 <= i < |s.queue| :: s.queue[i].returned <= s.handled + s.failed)
  }

  /** Every event of an acknowledged block was handled, or its handler failed. */
  ghost predicate Accounted(cfg: Config, s: State) {
    forall b | b in s.acked :: BlockDone(cfg.blocks, b, s.handled + s.failed)
  }

  ghost predicate Safe(cfg: Config, s: State) {
    && cfg.start <= Checkpoint(cfg, s) <= Frontier(cfg, s) && AckedUpTo(cfg, s, Frontier(cfg, s))
    && SealsOk(cfg, s) && QueueOk(cfg, s) && Accounted(cfg, s)
  }

  // --- lemmas about the queue

  lemma {:induction false} ContiguousPush(n: nat, queue: seq<Batch>, last: nat)
    requires Contiguous(n, queue) && QueueEnd(n, queue) <= last
    ensures var q := queue + [Batch(QueueEnd(n, queue), last, {}, false)];
            Contiguous(n, q) && QueueEnd(n, q) == last + 1
    decreases |queue|
  {
    var q := queue + [Batch(QueueEnd(n, queue), last, {}, false)];
    if queue != [] {
      ContiguousPush(queue[0].last + 1, queue[1..], last);
      assert q[1..] == queue[1..] + [Batch(QueueEnd(n, queue), last, {}, false)];
    }
  }

  /** What happens inside a batch does not move it. */
  lemma {:induction false} ContiguousUpdate(n: nat, queue: seq<Batch>, i: nat, b: Batch)
    requires Contiguous(n, queue) && i < |queue| && b.from == queue[i].from && b.last == queue[i].last
    ensures Contiguous(n, queue[i := b]) && QueueEnd(n, queue[i := b]) == QueueEnd(n, queue)
    decreases |queue|
  {
    var q := queue[i := b];
    if i == 0 {
      assert q[1..] == queue[1..];
    } else {
      ContiguousUpdate(queue[0].last + 1, queue[1..], i - 1, b);
      assert q[1..] == queue[1..][i - 1 := b];
    }
  }

  // --- what every arm keeps

  lemma EnqueueKeeps(cfg: Config, s: State, finalized: nat)
    requires cfg.step >= 1 && Safe(cfg, s) && s.next.Some? && finalized >= s.next.value
    ensures Safe(cfg, Enqueue(cfg, s, finalized))
  {
    ContiguousPush(Frontier(cfg, s), s.queue, BatchEnd(s.next.value, finalized, cfg.step));
  }

  lemma ReturnedKeeps(cfg: Config, s: State, i: nat, e: Event, ok: bool)
    requires Safe(cfg, s) && i < |s.queue|
    ensures Safe(cfg, Returned(s, i, e, ok))
  {
    var s' := Returned(s, i, e, ok);
    ContiguousUpdate(Frontier(cfg, s), s.queue, i, s'.queue[i]);
    forall b | b in s'.acked ensures BlockDone(cfg.blocks, b, s'.handled + s'.failed) {
      assert BlockDone(cfg.blocks, b, s.handled + s.failed);
    }
  }

  /** When all handlers of a batch have returned, every event of its blocks is accounted for. */
  lemma BatchAccounted(cfg: Config, s: State, i: nat)
    requires i < |s.queue| && Accounted(cfg, s) && EventsOf(cfg, s.queue[i]) <= s.handled + s.failed
    ensures Accounted(cfg, Acknowledge(s, i))
  {
    var s' := Acknowledge(s, i);
    var b := s.queue[i];
    var done := s.handled + s.failed;
    assert forall e | e in EventsIn(cfg.blocks, b.from, b.last + 1) :: e in EventsOf(cfg, b);
    RangeDoneIff(cfg.blocks, b.from, b.last + 1, done);
    forall n | n in s'.acked ensures BlockDone(cfg.blocks, n, done) {
      if n !in s.acked {
        assert b.from <= n < b.last + 1;
      }
    }
  }

  lemma AcknowledgeKeeps(cfg: Config, s: State, i: nat)
    requires Safe(cfg, s) && i < |s.queue| && EventsOf(cfg, s.queue[i]) <= s.queue[i].returned
    ensures Safe(cfg, Acknowledge(s, i))
  {
    ContiguousUpdate(Frontier(cfg, s), s.queue, i, s.queue[i].(acked := true));
    BatchAccounted(cfg, s, i);
  }

  lemma SealKeeps(cfg: Config, s: State)
    requires Safe(cfg, s) && s.queue != [] && s.queue[0].acked
    ensures Safe(cfg, SealHead(s))
  {
    var s' := SealHead(s);
    assert Frontier(cfg, s') == s.queue[0].last + 1;
    assert BlocksOf(s.queue[0]) <= s.acked;
    forall b | cfg.start <= b < Frontier(cfg, s') ensures b in s'.acked {
      if b >= Frontier(cfg, s) {
        assert b in BlocksOf(s.queue[0]);
      }
    }
    forall i | 0 <= i < |s.seals| ensures s.seals[i] < s.queue[0].last {
      assert s.seals[i] <= s.seals[|s.seals| - 1];
    }
  }

  lemma WriteKeeps(cfg: Config, s: State)
    requires cfg.step >= 1 && Safe(cfg, s) && s.seals != []
    ensures Safe(cfg, s.(cached := Some(s.seals[0] + 1), seals := s.seals[1..]))
  {
  }

  lemma BootKeeps(cfg: Config, s: State)
    requires cfg.step >= 1 && Safe(cfg, s)
    ensures Safe(cfg, Next(cfg, s, Boot))
  {
    var t := Next(cfg, s, Boot);
    assert t.acked == s.acked && t.handled == s.handled && t.failed == s.failed;
    assert Frontier(cfg, t) == Checkpoint(cfg, t) == Checkpoint(cfg, s) <= Frontier(cfg, s);
    forall b | cfg.start <= b < Frontier(cfg, t) ensures b in t.acked {
    }
  }

  lemma StopKeeps(cfg: Config, s: State, arm: Arm)
    requires cfg.step >= 1 && Safe(cfg, s) && (arm.StopListener? || arm.StopHandler? || arm.StopRedis?)
    ensures Safe(cfg, Next(cfg, s, arm))
  {
    var t := Next(cfg, s, arm);
    assert t == s.(listenerUp := t.listenerUp, handlerUp := t.handlerUp, redisUp := t.redisUp);
  }

  lemma NextKeeps(cfg: Config, s: State, arm: Arm)
    requires cfg.step >= 1 && Safe(cfg, s)
    ensures Safe(cfg, Next(cfg, s, arm))
  {
    if Next(cfg, s, arm) != s {
      match arm
      case Boot => BootKeeps(cfg, s);
      case NextBlock(finalized) => EnqueueKeeps(cfg, s, finalized);
      case HandlerDone(i, e, ok) => ReturnedKeeps(cfg, s, i, e, ok);
      case TaskDone(i) => AcknowledgeKeeps(cfg, s, i);
      case Seal => SealKeeps(cfg, s);
      case WriteCheckpoint => WriteKeeps(cfg, s);
      case _ => StopKeeps(cfg, s, arm);
    }
  }

  /** The stored number never goes back. */
  lemma CheckpointGrows(cfg: Config, s: State, arm: Arm)
    requires cfg.step >= 1 && Safe(cfg, s)
    ensures Checkpoint(cfg, s) <= Checkpoint(cfg, Next(cfg, s, arm))
  {
    if arm.WriteCheckpoint? && s.seals != [] {
      assert Checkpoint(cfg, s) <= s.seals[0];
    }
  }

  // --- every run

  function Run(cfg: Config, s: State, arms: seq<Arm>): State
    requires cfg.step >= 1
    decreases |arms|
  {
    if arms == [] then s else Next(cfg, Run(cfg, s, arms[..|arms| - 1]), arms[|arms| - 1])
  }

  ghost predicate Initial(s: State) {
    && s.cached.None? && s.next.None? && s.queue == [] && s.seals == [] && s.sealed == []
    && s.acked == {} && s.handled == {} && s.failed == {}
  }

  lemma {:induction false} RunKeeps(cfg: Config, s: State, arms: seq<Arm>)
    requires cfg.step >= 1 && Safe(cfg, s)
    ensures Safe(cfg, Run(cfg, s, arms))
    decreases |arms|
  {
    if arms != [] {
      RunKeeps(cfg, s, arms[..|arms| - 1]);
      NextKeeps(cfg, Run(cfg, s, arms[..|arms| - 1]), arms[|arms| - 1]);
    }
  }

  /** Below the stored number every event was handled, or its handler failed. */
  lemma SafeBelowCheckpoint(cfg: Config, s: State)
    requires Safe(cfg, s)
    ensures RangeDone(cfg.blocks, cfg.start, Checkpoint(cfg, s), s.handled + s.failed)
    ensures forall e | e in EventsIn(cfg.blocks, cfg.start, Checkpoint(cfg, s)) :: e in s.handled || e in s.failed
  {
    forall b: nat | cfg.start <= b < Checkpoint(cfg, s) ensures BlockDone(cfg.blocks, b, s.handled + s.failed) {
      assert b in s.acked;
    }
    RangeDoneIff(cfg.blocks, cfg.start, Checkpoint(cfg, s), s.handled + s.failed);
  }

  /** Ordered sealing: with any number of batches in flight, finishing in any order, seals of a boot are strictly
      increasing, and every block from the start up to but not including the stored number was acknowledged, so a reboot
      never skips a block that was not.  Each event of such a block was handled unless its handler failed. */
  lemma SealedInOrder(cfg: Config, s: State, arms: seq<Arm>)
    requires cfg.step >= 1 && Initial(s)
    ensures var t := Run(cfg, s, arms);
            && Increasing(t.sealed)
            && AckedUpTo(cfg, t, Checkpoint(cfg, t))
            && RangeDone(cfg.blocks, cfg.start, Checkpoint(cfg, t), t.handled + t.failed)
            && (t.failed == {} ==> RangeDone(cfg.blocks, cfg.start, Checkpoint(cfg, t), t.handled))
  {
    RunKeeps(cfg, s, arms);
    var t := Run(cfg, s, arms);
    SafeBelowCheckpoint(cfg, t);
    if t.failed == {} {
      assert t.handled + t.failed == t.handled;
    }
  }

  /** In every run, all events below the stored number were handled exactly when each of them whose handler failed once
      was handled at some other time, before or after. */
  lemma HandledBelowCheckpointIff(cfg: Config, s: State, arms: seq<Arm>)
    requires cfg.step >= 1 && Initial(s)
    ensures var t := Run(cfg, s, arms);
            RangeDone(cfg.blocks, cfg.start, Checkpoint(cfg, t), t.handled)
            <==> forall e | e in EventsIn(cfg.blocks, cfg.start, Checkpoint(cfg, t)) && e in t.failed :: e in t.handled
  {
    var t := Run(cfg, s, arms);
    SealedInOrder(cfg, s, arms);
    RangeDoneIff(cfg.blocks, cfg.start, Checkpoint(cfg, t), t.handled);
    RangeDoneIff(cfg.blocks, cfg.start, Checkpoint(cfg, t), t.handled + t.failed);
  }

  /** The checkpoint can pass an event whose handler failed: the batch is acknowledged all the same, and its seal can
      reach Redis before the circuit breaker stops the listener. */
  lemma FailedEventCanBePassed(cfg: Config, s: State, e: Event)
    requires cfg.step >= 1 && Initial(s) && cfg.blocks(cfg.start) == [e]
    ensures var t := Run(cfg, s, [Boot, NextBlock(cfg.start), HandlerDone(0, e, false), TaskDone(0), Seal,
                                  WriteCheckpoint]);
            Checkpoint(cfg, t) == cfg.start + 1 && e !in t.handled && e in t.failed
  {
    var failing := HandlerDone(0, e, false);
    RunSix(cfg, s, [Boot, NextBlock(cfg.start), failing, TaskDone(0), Seal, WriteCheckpoint]);
    var queued := Next(cfg, Next(cfg, s, Boot), NextBlock(cfg.start));
    FailedAck(cfg, queued, e);
    var acked := Next(cfg, Next(cfg, queued, failing), TaskDone(0));
    assert Next(cfg, acked, Seal).seals == [cfg.start];
  }

  /** A batch whose only event failed is acknowledged. */
  lemma FailedAck(cfg: Config, s: State, e: Event)
    requires cfg.step >= 1 && cfg.blocks(cfg.start) == [e] && s.handlerUp && e !in s.handled
    requires s.queue == [Batch(cfg.start, cfg.start, {}, false)]
    ensures var t := Next(cfg, Next(cfg, s, HandlerDone(0, e, false)), TaskDone(0));
            t.queue == [Batch(cfg.start, cfg.start, {e}, true)] && e !in t.handled && e in t.failed
            && t.seals == s.seals && t.listenerUp == s.listenerUp && t.redisUp == s.redisUp
  {
    assert EventsIn(cfg.blocks, cfg.start, cfg.start + 1) == [e];
    assert EventsOf(cfg, s.queue[0]) == {e};
    var u := Next(cfg, s, HandlerDone(0, e, false));
    assert s.queue[0].returned + {e} == {e} && u == Returned(s, 0, e, false);
    assert u.queue == [Batch(cfg.start, cfg.start, {e}, false)];
    assert EventsOf(cfg, u.queue[0]) == {e};
  }

  lemma RunSix(cfg: Config, s: State, arms: seq<Arm>)
    requires cfg.step >= 1 && |arms| == 6
    ensures var two := Next(cfg, Next(cfg, s, arms[0]), arms[1]);
            Run(cfg, s, arms)
            == Next(cfg, Next(cfg, Next(cfg, Next(cfg, two, arms[2]), arms[3]), arms[4]), arms[5])
  {
    assert arms[..1] == arms[..0] + [arms[0]] && arms[..2] == arms[..1] + [arms[1]];
    assert arms[..3] == arms[..2] + [arms[2]] && arms[..4] == arms[..3] + [arms[3]];
    assert arms[..5] == arms[..4] + [arms[4]] && arms == arms[..5] + [arms[5]];
    RunSnoc(cfg, s, arms[..0], arms[0]);
    RunSnoc(cfg, s, arms[..1], arms[1]);
    RunSnoc(cfg, s, arms[..2], arms[2]);
    RunSnoc(cfg, s, arms[..3], arms[3]);
    RunSnoc(cfg, s, arms[..4], arms[4]);
    RunSnoc(cfg, s, arms[..5], arms[5]);
  }

  lemma RunSnoc(cfg: Config, s: State, arms: seq<Arm>, arm: Arm)
    requires cfg.step >= 1
    ensures Run(cfg, s, arms + [arm]) == Next(cfg, Run(cfg, s, arms), arm)
  {
    assert (arms + [arm])[..|arms|] == arms;
  }

  /** All events of all acknowledged blocks were handled successfully. */
  ghost predicate AckedHandled(cfg: Config, s: State) {
    forall b | b in s.acked :: BlockDone(cfg.blocks, b, s.handled)
  }

  /** If the arm acknowledges a batch, each event of the batch has been handled successfully, then or earlier. */
  ghost predicate HarmlessAck(cfg: Config, s: State, arm: Arm) {
    arm.TaskDone? && Running(s, arm.index) && EventsOf(cfg, s.queue[arm.index]) <= s.queue[arm.index].returned ==>
      EventsOf(cfg, s.queue[arm.index]) <= s.handled
  }

  lemma HandlerKeepsHandled(cfg: Config, s: State, i: nat, e: Event, ok: bool)
    requires i < |s.queue| && AckedHandled(cfg, s)
    ensures AckedHandled(cfg, Returned(s, i, e, ok))
  {
    forall b | b in s.acked ensures BlockDone(cfg.blocks, b, Returned(s, i, e, ok).handled) {
      assert BlockDone(cfg.blocks, b, s.handled);
    }
  }

  /** Acknowledging a batch keeps "all events of acknowledged blocks are handled" exactly when each event of the batch
      has been handled successfully. */
  lemma AcknowledgeHandledIff(cfg: Config, s: State, i: nat)
    requires i < |s.queue| && AckedHandled(cfg, s)
    ensures AckedHandled(cfg, Acknowledge(s, i)) <==> EventsOf(cfg, s.queue[i]) <= s.handled
  {
    var s' := Acknowledge(s, i);
    var b := s.queue[i];
    RangeDoneIff(cfg.blocks, b.from, b.last + 1, s.handled);
    assert forall e :: e in EventsIn(cfg.blocks, b.from, b.last + 1) <==> e in EventsOf(cfg, b);
    if AckedHandled(cfg, s') {
      forall n: nat | b.from <= n < b.last + 1 ensures BlockDone(cfg.blocks, n, s.handled) {
        assert n in BlocksOf(b);
      }
    }
    if EventsOf(cfg, b) <= s.handled {
      forall n | n in s'.acked ensures BlockDone(cfg.blocks, n, s'.handled) {
        if n !in s.acked {
          assert b.from <= n < b.last + 1;
        }
      }
    }
  }

  lemma ArmHandledIff(cfg: Config, s: State, arm: Arm)
    requires cfg.step >= 1 && AckedHandled(cfg, s)
    ensures AckedHandled(cfg, Next(cfg, s, arm)) <==> HarmlessAck(cfg, s, arm)
  {
    match arm
    case HandlerDone(i, e, ok) => if i < |s.queue| { HandlerKeepsHandled(cfg, s, i, e, ok); }
    case TaskDone(i) => if i < |s.queue| { AcknowledgeHandledIff(cfg, s, i); }
    case _ =>
  }

  ghost predicate HarmlessRun(cfg: Config, s: State, arms: seq<Arm>)
    requires cfg.step >= 1
    decreases |arms|
  {
    arms == [] ||
    (var before := arms[..|arms| - 1];
     HarmlessRun(cfg, s, before) && HarmlessAck(cfg, Run(cfg, s, before), arms[|arms| - 1]))
  }

  /** At every moment of the run, all events of acknowledged blocks have been handled. */
  ghost predicate AlwaysHandled(cfg: Config, s: State, arms: seq<Arm>)
    requires cfg.step >= 1
    decreases |arms|
  {
    AckedHandled(cfg, Run(cfg, s, arms)) && (arms == [] || AlwaysHandled(cfg, s, arms[..|arms| - 1]))
  }

  /** Over whole runs: at every moment all events of acknowledged blocks have been handled, if and only if every
      acknowledgement of the run was harmless. */
  lemma {:induction false} RunHandledIff(cfg: Config, s: State, arms: seq<Arm>)
    requires cfg.step >= 1 && AckedHandled(cfg, s)
    ensures AlwaysHandled(cfg, s, arms) <==> HarmlessRun(cfg, s, arms)
    decreases |arms|
  {
    if arms != [] {
      var before := arms[..|arms| - 1];
      RunHandledIff(cfg, s, before);
      if AlwaysHandled(cfg, s, before) {
        ArmHandledIff(cfg, Run(cfg, s, before), arms[|arms| - 1]);
      }
    }
  }

  /** A run whose every acknowledgement is harmless keeps every event below the stored number handled. */
  lemma HarmlessRunSafe(cfg: Config, s: State, arms: seq<Arm>)
    requires cfg.step >= 1 && Initial(s) && HarmlessRun(cfg, s, arms)
    ensures RangeDone(cfg.blocks, cfg.start, Checkpoint(cfg, Run(cfg, s, arms)), Run(cfg, s, arms).handled)
  {
    var t := Run(cfg, s, arms);
    RunHandledIff(cfg, s, arms);
    SealedInOrder(cfg, s, arms);
    forall b: nat | cfg.start <= b < Checkpoint(cfg, t) ensures BlockDone(cfg.blocks, b, t.handled) {
      assert b in t.acked;
    }
  }

  // --- batches do get handled, sealed and stored

  /** A boot resumes at the stored number, or at the configured start if there is none, with nothing in flight. */
  lemma BootResumes(cfg: Config, s: State)
    requires cfg.step >= 1
    ensures var t := Next(cfg, s, Boot);
            && t.next == Some(match s.cached case None => cfg.start case Some(n) => n)
            && t.cached == s.cached && t.queue == [] && t.seals == [] && t.sealed == []
            && t.listenerUp && t.handlerUp && t.redisUp
            && t.handled == s.handled && t.failed == s.failed && t.acked == s.acked
  {
  }

  /** A batch goes from the next number up to the finalized block, but not beyond `step` blocks, and the number after it
      is next. */
  lemma BatchIsCut(cfg: Config, s: State, finalized: nat)
    requires cfg.step >= 1 && s.listenerUp && s.next.Some? && finalized >= s.next.value
    ensures var from := s.next.value;
            var last := if finalized < from + cfg.step - 1 then finalized else from + cfg.step - 1;
            Next(cfg, s, NextBlock(finalized))
            == s.(queue := s.queue + [Batch(from, last, {}, false)], next := Some(last + 1))
  {
  }

  /** One more arm. */
  lemma Then(cfg: Config, s: State, arms: seq<Arm>, u: State, arm: Arm, t: State)
    requires cfg.step >= 1 && Run(cfg, s, arms) == u && Next(cfg, u, arm) == t
    ensures Run(cfg, s, arms + [arm]) == t
  {
    RunSnoc(cfg, s, arms, arm);
  }

  lemma ThenThree(cfg: Config, s: State, arms: seq<Arm>, u0: State, arm1: Arm, u1: State, arm2: Arm, u2: State,
                  arm3: Arm, u3: State)
    requires cfg.step >= 1 && Run(cfg, s, arms) == u0
    requires Next(cfg, u0, arm1) == u1 && Next(cfg, u1, arm2) == u2 && Next(cfg, u2, arm3) == u3
    ensures Run(cfg, s, arms + [arm1] + [arm2] + [arm3]) == u3
  {
    Then(cfg, s, arms, u0, arm1, u1);
    Then(cfg, s, arms + [arm1], u1, arm2, u2);
    Then(cfg, s, arms + [arm1] + [arm2], u2, arm3, u3);
  }

  function Oks(events: seq<Event>): seq<Arm> {
    seq(|events|, i requires 0 <= i < |events| => HandlerDone(0, events[i], true))
  }

  /** The state in which the handlers of `returned`, of the oldest batch, have returned Ok. */
  function AfterOks(s: State, returned: set<Event>): State
    requires s.queue != []
  {
    s.(queue := s.queue[0 := s.queue[0].(returned := returned)], handled := s.handled + returned)
  }

  lemma OneOk(cfg: Config, s: State, returned: set<Event>, e: Event)
    requires cfg.step >= 1 && Running(s, 0) && e in EventsOf(cfg, s.queue[0])
    ensures Next(cfg, AfterOks(s, returned), HandlerDone(0, e, true)) == AfterOks(s, returned + {e})
  {
    var u := AfterOks(s, returned);
    if e in returned {
      assert returned + {e} == returned && Next(cfg, u, HandlerDone(0, e, true)) == u;
    } else {
      assert Next(cfg, u, HandlerDone(0, e, true)) == Returned(u, 0, e, true);
      assert s.handled + returned + {e} == s.handled + (returned + {e});
      assert Returned(u, 0, e, true).queue == AfterOks(s, returned + {e}).queue;
    }
  }

  lemma OksSnoc(events: seq<Event>, e: Event)
    ensures Oks(events + [e]) == Oks(events) + [HandlerDone(0, e, true)]
  {
  }

  lemma NoOks(cfg: Config, s: State)
    requires cfg.step >= 1 && s.queue != [] && s.queue[0].returned == {}
    ensures Run(cfg, s, Oks([])) == AfterOks(s, SetOf([]))
  {
    assert Oks([]) == [] && Run(cfg, s, []) == s;
    assert s.handled + SetOf([]) == s.handled && s.queue[0 := s.queue[0]] == s.queue;
  }

  lemma {:induction false} HandleAll(cfg: Config, s: State, events: seq<Event>)
    requires cfg.step >= 1 && Running(s, 0) && s.queue[0].returned == {}
    requires forall e | e in events :: e in EventsOf(cfg, s.queue[0])
    ensures Run(cfg, s, Oks(events)) == AfterOks(s, SetOf(events))
    decreases |events|
  {
    if events == [] {
      NoOks(cfg, s);
    } else {
      var before, e := events[..|events| - 1], events[|events| - 1];
      assert events == before + [e];
      HandleAll(cfg, s, before);
      SetOfSnoc(before, e);
      OneOk(cfg, s, SetOf(before), e);
      OksSnoc(before, e);
      Then(cfg, s, Oks(before), AfterOks(s, SetOf(before)), HandlerDone(0, e, true),
           AfterOks(s, SetOf(before) + {e}));
    }
  }

  /** Acknowledged, sealed, stored. */
  lemma AckTravels(cfg: Config, s: State)
    requires cfg.step >= 1 && Running(s, 0) && EventsOf(cfg, s.queue[0]) <= s.queue[0].returned
    requires s.listenerUp && s.redisUp && s.seals == []
    ensures var b := s.queue[0];
            var acked := s.(queue := s.queue[0 := b.(acked := true)], acked := s.acked + BlocksOf(b));
            var sealed := acked.(queue := s.queue[1..], seals := [b.last], sealed := s.sealed + [b.last]);
            && Next(cfg, s, TaskDone(0)) == acked && Next(cfg, acked, Seal) == sealed
            && Next(cfg, sealed, WriteCheckpoint) == sealed.(cached := Some(b.last + 1), seals := [])
  {
    var b := s.queue[0];
    assert s.queue[0 := b.(acked := true)][1..] == s.queue[1..];
  }

  /** Acknowledging, sealing and storing after all handlers of the oldest batch have returned Ok. */
  lemma OldestFinishes(cfg: Config, s: State, b: Batch, events: seq<Event>, arms: seq<Arm>)
    requires cfg.step >= 1 && Running(s, 0) && s.queue[0] == b && s.listenerUp && s.redisUp && s.seals == []
    requires EventsOf(cfg, b) == SetOf(events) && Run(cfg, s, arms) == AfterOks(s, SetOf(events))
    ensures Run(cfg, s, arms + [TaskDone(0)] + [Seal] + [WriteCheckpoint])
            == s.(cached := Some(b.last + 1), queue := s.queue[1..], sealed := s.sealed + [b.last],
                  acked := s.acked + BlocksOf(b), handled := s.handled + SetOf(events))
  {
    var done := AfterOks(s, SetOf(events));
    var acked := done.(queue := done.queue[0 := done.queue[0].(acked := true)], acked := done.acked + BlocksOf(b));
    var sealed := acked.(queue := s.queue[1..], seals := [b.last], sealed := s.sealed + [b.last]);
    assert done.queue[1..] == s.queue[1..] && EventsOf(cfg, done.queue[0]) == EventsOf(cfg, b);
    AckTravels(cfg, done);
    ThenThree(cfg, s, arms, done, TaskDone(0), acked, Seal, sealed, WriteCheckpoint,
              sealed.(cached := Some(b.last + 1), seals := []));
  }

  /** Progress: when all handlers of the oldest batch return Ok, its acknowledgement, seal and checkpoint follow,
      whatever else is in flight: its events are handled, its blocks acknowledged, and the number after it is stored. */
  lemma OldestAdvances(cfg: Config, s: State)
    requires cfg.step >= 1 && Running(s, 0) && s.queue[0].returned == {} && s.listenerUp && s.redisUp && s.seals == []
    ensures var b := s.queue[0];
            var events := EventsIn(cfg.blocks, b.from, b.last + 1);
            Run(cfg, s, Oks(events) + [TaskDone(0)] + [Seal] + [WriteCheckpoint])
            == s.(cached := Some(b.last + 1), queue := s.queue[1..], sealed := s.sealed + [b.last],
                  acked := s.acked + BlocksOf(b), handled := s.handled + SetOf(events))
  {
    var b := s.queue[0];
    var events := EventsIn(cfg.blocks, b.from, b.last + 1);
    HandleAll(cfg, s, events);
    OldestFinishes(cfg, s, b, events, Oks(events));
  }

  // --- the tasks, updating their state in place

  /** One method for each arm of the select loops of the listener, the events handler and the Redis manager. */
  class Relayer {
    const cfg: Config
    var cached: Option<nat>
    var next: Option<nat>
    var queue: seq<Batch>
    var seals: seq<nat>
    var listenerUp: bool
    var handlerUp: bool
    var redisUp: bool
    ghost var sealed: seq<nat>
    ghost var acked: set<nat>
    ghost var handled: set<Event>
    ghost var failed: set<Event>

    ghost function View(): State
      reads this
    {
      State(cached, next, queue, seals, sealed, listenerUp, handlerUp, redisUp, acked, handled, failed)
    }

    constructor (cfg: Config)
      ensures this.cfg == cfg && Initial(View())
    {
      this.cfg := cfg;
      cached, next, queue, seals := None, None, [], [];
      listenerUp, handlerUp, redisUp := false, false, false;
      sealed, acked, handled, failed := [], {}, {}, {};
    }

    /** Reads the checkpoint and starts the tasks afresh; the channels of the previous run are gone. */
    method Boot()
      requires cfg.step >= 1
      modifies this
      ensures View() == Next(cfg, old(View()), Arm.Boot)
    {
      next := if cached.Some? then cached else Some(cfg.start);
      queue, seals, sealed := [], [], [];
      listenerUp, handlerUp, redisUp := true, true, true;
    }

    method OnNextBlock(finalized: nat)
      requires cfg.step >= 1
      modifies this
      ensures View() == Next(cfg, old(View()), NextBlock(finalized))
    {
      if listenerUp && next.Some? && finalized >= next.value {
        var from := next.value;
        var last := if finalized < from + cfg.step - 1 then finalized else from + cfg.step - 1;
        queue := queue + [Batch(from, last, {}, false)];
        next := Some(last + 1);
      }
    }

    method OnHandlerDone(i: nat, e: Event, ok: bool)
      requires cfg.step >= 1
      modifies this
      ensures View() == Next(cfg, old(View()), HandlerDone(i, e, ok))
    {
      if handlerUp && i < |queue| && !queue[i].acked {
        var b := queue[i];
        var events := FetchEventsInBlockRange(cfg.blocks, b.from, b.last);
        if e in events && e !in b.returned {
          queue := queue[i := b.(returned := b.returned + {e})];
          if ok {
            handled := handled + {e};
          } else {
            failed := failed + {e};
          }
        }
      }
    }

    /** Waits until every handler of the batch has returned, whatever the results, and acknowledges it. */
    method OnTaskDone(i: nat)
      requires cfg.step >= 1
      modifies this
      ensures View() == Next(cfg, old(View()), TaskDone(i))
    {
      if handlerUp && i < |queue| && !queue[i].acked {
        var b := queue[i];
        var events := FetchEventsInBlockRange(cfg.blocks, b.from, b.last);
        if forall e | e in events :: e in b.returned {
          queue := queue[i := b.(acked := true)];
          acked := acked + BlocksOf(b);
        }
      }
    }

    method OnAck()
      requires cfg.step >= 1
      modifies this
      ensures View() == Next(cfg, old(View()), Seal)
    {
      if listenerUp && queue != [] && queue[0].acked {
        seals := seals + [queue[0].last];
        sealed := sealed + [queue[0].last];
        queue := queue[1..];
      }
    }

    method OnSeal()
      requires cfg.step >= 1
      modifies this
      ensures View() == Next(cfg, old(View()), WriteCheckpoint)
    {
      if redisUp && seals != [] {
        cached := Some(seals[0] + 1);
        seals := seals[1..];
      }
    }

    method Perform(arm: Arm)
      requires cfg.step >= 1
      modifies this
      ensures View() == Next(cfg, old(View()), arm)
    {
      match arm {
        case Boot => Boot();
        case NextBlock(finalized) => OnNextBlock(finalized);
        case HandlerDone(i, e, ok) => OnHandlerDone(i, e, ok);
        case TaskDone(i) => OnTaskDone(i);
        case Seal => OnAck();
        case WriteCheckpoint => OnSeal();
        case StopListener => listenerUp := false;
        case StopHandler => handlerUp := false;
        case StopRedis => redisUp := false;
      }
    }

    /** Any schedule of arms: the stored number never passes a block that was not acknowledged. */
    method Drive(schedule: seq<Arm>)
      requires cfg.step >= 1 && Safe(cfg, View())
      modifies this
      ensures View() == Run(cfg, old(View()), schedule)
      ensures AckedUpTo(cfg, View(), Checkpoint(cfg, View())) && Increasing(sealed)
    {
      ghost var before := View();
      for i := 0 to |schedule|
        invariant View() == Run(cfg, before, schedule[..i])
      {
        RunSnoc(cfg, before, schedule[..i], schedule[i]);
        assert schedule[..i + 1] == schedule[..i] + [schedule[i]];
        Perform(schedule[i]);
      }
      assert schedule[..|schedule|] == schedule;
      RunKeeps(cfg, before, schedule);
    }
  }
}
