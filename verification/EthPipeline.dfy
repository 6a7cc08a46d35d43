/** The relayer's Ethereum-to-Aleph-Zero pipeline: a listener that dispatches one batch of blocks at a time, a handler
    that processes its events in order and acknowledges the batch, and a Redis checkpoint that survives reboots. */
module EthPipeline {
  import opened Types
  import opened Blocks

  /** `acked`: the acknowledgement of the batch has been sent; it reaches the listener even if the handler is gone. */
  datatype Listener = Waiting | AwaitingAck(from: nat, to: nat, acked: bool) | Stopped

  datatype Handler = Idle | Busy(events: seq<Event>, next: nat) | Exited

  /** `sent` are the block numbers broadcast since the last boot, to both the listener and the Redis manager; each of
      them has read a prefix of it.  `batches` are the ranges queried since the last boot. */
  datatype State = State(cached: Option<nat>, sent: seq<nat>, listenerRead: nat, redisRead: nat, redisUp: bool,
                         listener: Listener, handler: Handler, batches: seq<(nat, nat)>, handled: set<Event>)

  datatype Config = Config(blocks: Source, start: nat, step: nat)

  datatype Arm =
    | Boot                          // every task has ended: run the relayer again from the checkpoint
    | NextBlock(finalized: nat)     // the listener takes the next block number and queries a batch
    | EventOk                       // `handle_event` returned Ok
    | EventFailed                   // `handle_event` failed: the handler opens the circuit breaker and exits
    | AckBatch                      // the handler acknowledges the batch
    | ReceiveAck                    // the listener advances
    | LoseAck                       // the handler is gone without an acknowledgement: the listener goes on
    | WriteCheckpoint(skip: nat)    // the Redis manager stores a number; a lagging receiver skips older ones
    | StopListener | StopHandler | StopRedis   // circuit breaker

  function Checkpoint(cfg: Config, s: State): nat {
    if s.cached.Some? then s.cached.value else cfg.start
  }

  function Booted(cfg: Config, s: State): State {
    State(s.cached, [Checkpoint(cfg, s)], 0, 0, true, Waiting, Idle, [], s.handled)
  }

  /** An empty batch is marked at once, any other is sent to the handler; if that is gone, the listener fails. */
  function Query(cfg: Config, s: State, finalized: nat): State
    requires cfg.step >= 1 && s.listenerRead < |s.sent| && finalized >= s.sent[s.listenerRead]
  {
    var from := s.sent[s.listenerRead];
    var to := BatchEnd(from, finalized, cfg.step);
    var events := EventsIn(cfg.blocks, from, to + 1);
    var s1 := s.(listenerRead := s.listenerRead + 1, batches := s.batches + [(from, to)]);
    if events == [] then s1.(sent := s.sent + [to + 1])
    else if s.handler.Exited? then s1.(listener := Stopped)
    else s1.(listener := AwaitingAck(from, to, false), handler := Busy(events, 0))
  }

  /** One arm of one of the select loops; an arm that is not enabled does nothing. */
  function Next(cfg: Config, s: State, arm: Arm): State
    requires cfg.step >= 1
  {
    match arm
    case Boot => Booted(cfg, s)
    case NextBlock(finalized) =>
      if s.listener.Waiting? && s.listenerRead < |s.sent| && finalized >= s.sent[s.listenerRead]
         && !s.handler.Busy?
      then Query(cfg, s, finalized) else s
    case EventOk =>
      if s.handler.Busy? && s.handler.next < |s.handler.events|
      then s.(handler := Busy(s.handler.events, s.handler.next + 1),
              handled := s.handled + {s.handler.events[s.handler.next]})
      else s
    case EventFailed => if s.handler.Busy? then s.(handler := Exited) else s
    case AckBatch =>
      if s.handler.Busy? && s.handler.next == |s.handler.events| then
        if s.listener.AwaitingAck? then s.(handler := Idle, listener := s.listener.(acked := true))
        else s.(handler := Exited)
      else s
    case ReceiveAck =>
      if s.listener.AwaitingAck? && s.listener.acked
      then s.(listener := Waiting, sent := s.sent + [s.listener.to + 1]) else s
    case LoseAck =>
      if s.listener.AwaitingAck? && !s.listener.acked && s.handler.Exited? then s.(listener := Waiting) else s
    case WriteCheckpoint(skip) =>
      if s.redisUp && s.redisRead + skip < |s.sent|
      then s.(cached := Some(s.sent[s.redisRead + skip]), redisRead := s.redisRead + skip + 1) else s
    case StopListener => s.(listener := Stopped)
    case StopHandler => s.(handler := Exited)
    case StopRedis => s.(redisUp := false)
  }

  ghost predicate Reaches(cfg: Config, s: State, n: nat) {
    cfg.start <= n && RangeDone(cfg.blocks, cfg.start, n, s.handled)
  }

  /** The events of the batch in the handler's hands, up to the next one, have been handled; an acknowledgement is only
      sent when all have been. */
  ghost predicate HandlerOk(cfg: Config, s: State) {
    && (s.handler.Busy? ==>
          && s.handler.next <= |s.handler.events|
          && (forall i | 0 <= i < s.handler.next :: s.handler.events[i] in s.handled)
          && (s.listener.AwaitingAck? ==>
                !s.listener.acked && s.handler.events == EventsIn(cfg.blocks, s.listener.from, s.listener.to + 1)))
    && (s.listener.AwaitingAck? && s.listener.acked ==> Reaches(cfg, s, s.listener.to + 1))
  }

  ghost predicate Safe(cfg: Config, s: State) {
    && Reaches(cfg, s, Checkpoint(cfg, s))
    && (forall i | 0 <= i < |s.sent| :: Reaches(cfg, s, s.sent[i]))
    && (s.listener.AwaitingAck? ==> Reaches(cfg, s, s.listener.from) && s.listener.from <= s.listener.to)
    && HandlerOk(cfg, s)
  }

  lemma ReachesKept(cfg: Config, s: State, s': State, n: nat)
    requires Reaches(cfg, s, n) && s.handled <= s'.handled
    ensures Reaches(cfg, s', n)
  {
    RangeDoneGrows(cfg.blocks, cfg.start, n, s.handled, s'.handled);
  }

  /** A reached block and a fully handled batch after it reach the end of the batch. */
  lemma BatchReaches(cfg: Config, s: State, from: nat, to: nat)
    requires Reaches(cfg, s, from) && from <= to
    requires forall e | e in EventsIn(cfg.blocks, from, to + 1) :: e in s.handled
    ensures Reaches(cfg, s, to + 1)
  {
    RangeDoneIff(cfg.blocks, from, to + 1, s.handled);
    forall b: nat | cfg.start <= b < to + 1 ensures BlockDone(cfg.blocks, b, s.handled) {
    }
  }

  lemma QueryKeeps(cfg: Config, s: State, finalized: nat)
    requires cfg.step >= 1 && Safe(cfg, s) && s.listener.Waiting?
    requires s.listenerRead < |s.sent| && finalized >= s.sent[s.listenerRead]
    ensures Safe(cfg, Query(cfg, s, finalized))
  {
    var from := s.sent[s.listenerRead];
    var to := BatchEnd(from, finalized, cfg.step);
    var s' := Query(cfg, s, finalized);
    if EventsIn(cfg.blocks, from, to + 1) == [] {
      BatchReaches(cfg, s, from, to);
    }
  }

  lemma EventOkKeeps(cfg: Config, s: State)
    requires cfg.step >= 1 && Safe(cfg, s) && s.handler.Busy? && s.handler.next < |s.handler.events|
    ensures Safe(cfg, Next(cfg, s, EventOk))
  {
    var s' := Next(cfg, s, EventOk);
    ReachesKept(cfg, s, s', Checkpoint(cfg, s));
    forall i | 0 <= i < |s'.sent| ensures Reaches(cfg, s', s'.sent[i]) {
      ReachesKept(cfg, s, s', s.sent[i]);
    }
    if s.listener.AwaitingAck? {
      ReachesKept(cfg, s, s', s.listener.from);
    }
  }

  lemma NextKeeps(cfg: Config, s: State, arm: Arm)
    requires cfg.step >= 1 && Safe(cfg, s)
    ensures Safe(cfg, Next(cfg, s, arm))
  {
    match arm
    case NextBlock(finalized) =>
      if Next(cfg, s, arm) != s {
        QueryKeeps(cfg, s, finalized);
      }
    case EventOk =>
      if s.handler.Busy? && s.handler.next < |s.handler.events| {
        EventOkKeeps(cfg, s);
      }
    case AckBatch =>
      if s.handler.Busy? && s.handler.next == |s.handler.events| && s.listener.AwaitingAck? {
        BatchReaches(cfg, s, s.listener.from, s.listener.to);
      }
    case _ =>
  }

  function Run(cfg: Config, s: State, arms: seq<Arm>): State
    requires cfg.step >= 1
    decreases |arms|
  {
    if arms == [] then s else Next(cfg, Run(cfg, s, arms[..|arms| - 1]), arms[|arms| - 1])
  }

  ghost predicate Initial(s: State) {
    s.cached.None? && s.sent == [] && s.listenerRead == 0
    && s.listener.Stopped? && s.handler.Exited? && s.batches == [] && s.handled == {}
  }

  lemma {:induction false} RunKeeps(cfg: Config, s: State, arms: seq<Arm>)
    requires cfg.step >= 1 && Safe(cfg, s)
    ensures Safe(cfg, Run(cfg, s, arms))
    decreases |arms|
  {
    if arms != [] {
      RunKeeps(cfg, s, arms[..|arms| - 1]);
      NextKeeps(cfg, Run(cfg, s, arms[..|arms| - 1]), arms[|arms| - 1]);
    }
  }

  /** Checkpoint safety: however the three tasks interleave, fail, trip the circuit breaker and reboot, every event in a
      block from the start block up to but not including the stored number has had its handler return Ok. */
  lemma CheckpointSafe(cfg: Config, s: State, arms: seq<Arm>)
    requires cfg.step >= 1 && Initial(s)
    ensures Safe(cfg, Run(cfg, s, arms))
    ensures var t := Run(cfg, s, arms);
            t.cached.Some? ==> RangeDone(cfg.blocks, cfg.start, t.cached.value, t.handled)
  {
    RunKeeps(cfg, s, arms);
  }

  // --- batches tile the block line

  /** Since the last boot: batch `i` starts at the `i`-th number sent, and the number after it is one past its end. */
  ghost predicate Tiled(s: State) {
    && Joined(s.sent, s.batches)
    && |s.batches| == s.listenerRead
    && (s.listener.AwaitingAck? ==> |s.sent| == |s.batches| > 0 && s.batches[|s.batches| - 1].1 == s.listener.to)
  }

  ghost predicate Joined(sent: seq<nat>, batches: seq<(nat, nat)>) {
    && |batches| <= |sent| <= |batches| + 1
    && (forall i {:trigger batches[i]} | 0 <= i < |batches| :: batches[i].0 == sent[i] && batches[i].0 <= batches[i].1)
    && (forall i {:trigger batches[i]} | 0 <= i < |batches| && i + 1 < |sent| :: sent[i + 1] == batches[i].1 + 1)
  }

  lemma JoinBatch(sent: seq<nat>, batches: seq<(nat, nat)>, from: nat, last: nat)
    requires Joined(sent, batches) && |sent| == |batches| + 1 && sent[|batches|] == from <= last
    ensures Joined(sent, batches + [(from, last)])
    ensures Joined(sent + [last + 1], batches + [(from, last)])
  {
  }

  lemma JoinNumber(sent: seq<nat>, batches: seq<(nat, nat)>)
    requires Joined(sent, batches) && |sent| == |batches| > 0
    ensures Joined(sent + [batches[|batches| - 1].1 + 1], batches)
  {
  }

  lemma QueryKeepsTiled(cfg: Config, s: State, finalized: nat)
    requires cfg.step >= 1 && Tiled(s) && s.listenerRead < |s.sent| && finalized >= s.sent[s.listenerRead]
    ensures Tiled(Query(cfg, s, finalized))
  {
    var from := s.sent[s.listenerRead];
    JoinBatch(s.sent, s.batches, from, BatchEnd(from, finalized, cfg.step));
  }

  /** Arms that neither boot, query nor take an acknowledgement leave the numbers and batches alone. */
  lemma OtherArmKeepsTiled(cfg: Config, s: State, arm: Arm)
    requires cfg.step >= 1 && Tiled(s) && !arm.Boot? && !arm.NextBlock? && !arm.ReceiveAck?
    ensures Tiled(Next(cfg, s, arm))
  {
    var s' := Next(cfg, s, arm);
    assert s'.sent == s.sent && s'.batches == s.batches && s'.listenerRead == s.listenerRead;
    assert s'.listener.AwaitingAck? ==> s.listener.AwaitingAck? && s'.listener.to == s.listener.to;
  }

  lemma NextKeepsTiled(cfg: Config, s: State, arm: Arm)
    requires cfg.step >= 1 && Tiled(s)
    ensures Tiled(Next(cfg, s, arm))
  {
    match arm
    case NextBlock(finalized) =>
      if s.listener.Waiting? && s.listenerRead < |s.sent| && finalized >= s.sent[s.listenerRead] {
        QueryKeepsTiled(cfg, s, finalized);
      }
    case ReceiveAck =>
      if s.listener.AwaitingAck? {
        JoinNumber(s.sent, s.batches);
      }
    case Boot =>
    case _ => OtherArmKeepsTiled(cfg, s, arm);
  }

  lemma {:induction false} RunTiled(cfg: Config, s: State, arms: seq<Arm>)
    requires cfg.step >= 1 && Tiled(s)
    ensures Tiled(Run(cfg, s, arms))
    decreases |arms|
  {
    if arms != [] {
      RunTiled(cfg, s, arms[..|arms| - 1]);
      NextKeepsTiled(cfg, Run(cfg, s, arms[..|arms| - 1]), arms[|arms| - 1]);
    }
  }

  /** No gap and no overlap: consecutive batches of a boot meet exactly, and the first one starts at the number that the
      boot sent. */
  lemma BatchesTile(cfg: Config, s: State, arms: seq<Arm>)
    requires cfg.step >= 1 && Initial(s)
    ensures var t := Run(cfg, s, arms);
            && (forall i | 0 <= i < |t.batches| :: t.batches[i].0 <= t.batches[i].1)
            && (forall i | 0 < i < |t.batches| :: t.batches[i].0 == t.batches[i - 1].1 + 1)
            && (|t.batches| > 0 ==> |t.sent| > 0 && t.batches[0].0 == t.sent[0])
  {
    RunTiled(cfg, s, arms);
    Meet(Run(cfg, s, arms));
  }

  lemma Meet(s: State)
    requires Tiled(s)
    ensures forall i | 0 < i < |s.batches| :: s.batches[i].0 == s.batches[i - 1].1 + 1
  {
    forall i | 0 < i < |s.batches| ensures s.batches[i].0 == s.batches[i - 1].1 + 1 {
      assert s.batches[i].0 == s.sent[i];
    }
  }

  // --- boots resume at the stored number, which never goes back

  /** The number that a boot sends: the stored one, or the configured start if there is none. */
  lemma BootResumes(cfg: Config, s: State)
    requires cfg.step >= 1
    ensures var t := Next(cfg, s, Boot);
            && t.sent == [match s.cached case None => cfg.start case Some(n) => n]
            && t.cached == s.cached && t.handled == s.handled
            && t.listener.Waiting? && t.handler.Idle? && t.redisUp
            && t.listenerRead == t.redisRead == 0 && t.batches == []
  {
  }

  lemma {:induction false} SentKept(cfg: Config, s: State, arms: seq<Arm>)
    requires cfg.step >= 1 && forall i | 0 <= i < |arms| :: !arms[i].Boot?
    ensures s.sent <= Run(cfg, s, arms).sent
    decreases |arms|
  {
    if arms != [] {
      SentKept(cfg, s, arms[..|arms| - 1]);
    }
  }

  /** Whatever happens until the next boot, the first batch starts at the number that was stored at the boot. */
  lemma FirstBatchResumes(cfg: Config, s: State, arms: seq<Arm>)
    requires cfg.step >= 1 && forall i | 0 <= i < |arms| :: !arms[i].Boot?
    ensures var t := Run(cfg, Next(cfg, s, Boot), arms);
            t.batches != [] ==> t.batches[0].0 == match s.cached case None => cfg.start case Some(n) => n
  {
    var booted := Next(cfg, s, Boot);
    BootResumes(cfg, s);
    RunTiled(cfg, booted, arms);
    SentKept(cfg, booted, arms);
  }

  /** Numbers are sent in ascending order, and those still to be stored are not below the stored one. */
  ghost predicate Ordered(cfg: Config, s: State) {
    && (forall i, j | 0 <= i <= j < |s.sent| :: s.sent[i] <= s.sent[j])
    && (forall i | s.redisRead <= i < |s.sent| :: Checkpoint(cfg, s) <= s.sent[i])
  }

  lemma OrderedPush(cfg: Config, s: State, n: nat)
    requires Ordered(cfg, s) && s.sent != [] && s.sent[|s.sent| - 1] <= n
    requires s.redisRead <= |s.sent| ==> Checkpoint(cfg, s) <= n
    ensures Ordered(cfg, s.(sent := s.sent + [n]))
  {
  }

  /** The stored number is one of those sent, or what the boot sent first; so it is not above the last one. */
  ghost predicate Anchored(cfg: Config, s: State) {
    s.sent != [] ==> Checkpoint(cfg, s) <= s.sent[|s.sent| - 1]
  }

  lemma QueryKeepsOrder(cfg: Config, s: State, finalized: nat)
    requires cfg.step >= 1 && Tiled(s) && Ordered(cfg, s) && Anchored(cfg, s)
    requires s.listenerRead < |s.sent| && finalized >= s.sent[s.listenerRead]
    ensures Ordered(cfg, Query(cfg, s, finalized)) && Anchored(cfg, Query(cfg, s, finalized))
  {
    OrderedPush(cfg, s, BatchEnd(s.sent[s.listenerRead], finalized, cfg.step) + 1);
  }

  lemma AckKeepsOrder(cfg: Config, s: State)
    requires cfg.step >= 1 && Tiled(s) && Ordered(cfg, s) && Anchored(cfg, s)
    requires s.listener.AwaitingAck? && s.listener.acked
    ensures Ordered(cfg, Next(cfg, s, ReceiveAck)) && Anchored(cfg, Next(cfg, s, ReceiveAck))
  {
    assert s.batches[|s.batches| - 1].0 == s.sent[|s.sent| - 1];
    OrderedPush(cfg, s, s.listener.to + 1);
  }

  lemma WriteKeepsOrder(cfg: Config, s: State, skip: nat)
    requires cfg.step >= 1 && Ordered(cfg, s) && s.redisUp && s.redisRead + skip < |s.sent|
    ensures var t := Next(cfg, s, WriteCheckpoint(skip));
            Ordered(cfg, t) && Anchored(cfg, t) && Checkpoint(cfg, s) <= Checkpoint(cfg, t)
  {
    var t := Next(cfg, s, WriteCheckpoint(skip));
    assert t.sent == s.sent && Checkpoint(cfg, t) == s.sent[s.redisRead + skip];
  }

  /** Arms that neither send nor store a number. */
  lemma QuietKeepsOrder(cfg: Config, s: State, arm: Arm)
    requires cfg.step >= 1 && Ordered(cfg, s) && Anchored(cfg, s)
    requires !arm.NextBlock? && !arm.ReceiveAck? && !arm.WriteCheckpoint?
    ensures Ordered(cfg, Next(cfg, s, arm)) && Anchored(cfg, Next(cfg, s, arm))
    ensures Checkpoint(cfg, s) == Checkpoint(cfg, Next(cfg, s, arm))
  {
    var t := Next(cfg, s, arm);
    assert t.cached == s.cached && (arm.Boot? || (t.sent == s.sent && t.redisRead == s.redisRead));
  }

  lemma NextKeepsOrder(cfg: Config, s: State, arm: Arm)
    requires cfg.step >= 1 && Tiled(s) && Ordered(cfg, s) && Anchored(cfg, s)
    ensures Ordered(cfg, Next(cfg, s, arm)) && Anchored(cfg, Next(cfg, s, arm))
    ensures Checkpoint(cfg, s) <= Checkpoint(cfg, Next(cfg, s, arm))
  {
    if Next(cfg, s, arm) != s {
      match arm
      case NextBlock(finalized) => QueryKeepsOrder(cfg, s, finalized);
      case ReceiveAck => AckKeepsOrder(cfg, s);
      case WriteCheckpoint(skip) => WriteKeepsOrder(cfg, s, skip);
      case _ => QuietKeepsOrder(cfg, s, arm);
    }
  }

  lemma {:induction false} RunKeepsOrder(cfg: Config, s: State, arms: seq<Arm>)
    requires cfg.step >= 1 && Tiled(s) && Ordered(cfg, s) && Anchored(cfg, s)
    ensures Tiled(Run(cfg, s, arms)) && Ordered(cfg, Run(cfg, s, arms)) && Anchored(cfg, Run(cfg, s, arms))
    decreases |arms|
  {
    if arms != [] {
      var before := arms[..|arms| - 1];
      RunKeepsOrder(cfg, s, before);
      NextKeepsTiled(cfg, Run(cfg, s, before), arms[|arms| - 1]);
      NextKeepsOrder(cfg, Run(cfg, s, before), arms[|arms| - 1]);
    }
  }

  /** In every run, through all failures and reboots, the stored number never goes back. */
  lemma {:induction false} CheckpointGrows(cfg: Config, s: State, arms: seq<Arm>, k: nat)
    requires cfg.step >= 1 && Initial(s) && k <= |arms|
    ensures Checkpoint(cfg, Run(cfg, s, arms[..k])) <= Checkpoint(cfg, Run(cfg, s, arms))
    decreases |arms|
  {
    if k < |arms| {
      var before := arms[..|arms| - 1];
      CheckpointGrows(cfg, s, before, k);
      assert before[..k] == arms[..k];
      RunKeepsOrder(cfg, s, before);
      NextKeepsOrder(cfg, Run(cfg, s, before), arms[|arms| - 1]);
    } else {
      assert arms[..k] == arms;
    }
  }

  // --- batches do get handled

  lemma {:induction false} RunConcat(cfg: Config, s: State, first: seq<Arm>, second: seq<Arm>)
    requires cfg.step >= 1
    ensures Run(cfg, s, first + second) == Run(cfg, Run(cfg, s, first), second)
    decreases |second|
  {
    if second == [] {
      assert first + second == first;
    } else {
      var before, arm := second[..|second| - 1], second[|second| - 1];
      assert second == before + [arm] && first + second == (first + before) + [arm];
      RunConcat(cfg, s, first, before);
      RunSnoc(cfg, s, first + before, arm);
      RunSnoc(cfg, Run(cfg, s, first), before, arm);
    }
  }

  lemma RunOne(cfg: Config, s: State, arm: Arm)
    requires cfg.step >= 1
    ensures Run(cfg, s, [arm]) == Next(cfg, s, arm)
  {
    assert [arm][..0] == [];
    assert Run(cfg, s, []) == s;
  }

  function Oks(n: nat): seq<Arm> { seq(n, _ => EventOk) }

  /** One more arm. */
  lemma Then(cfg: Config, s: State, arms: seq<Arm>, u: State, arm: Arm, t: State)
    requires cfg.step >= 1 && Run(cfg, s, arms) == u && Next(cfg, u, arm) == t
    ensures Run(cfg, s, arms + [arm]) == t
  {
    RunSnoc(cfg, s, arms, arm);
  }

  /** One arm before the others. */
  lemma First(cfg: Config, s: State, arm: Arm, u: State, rest: seq<Arm>, t: State)
    requires cfg.step >= 1 && Next(cfg, s, arm) == u && Run(cfg, u, rest) == t
    ensures Run(cfg, s, [arm] + rest) == t
  {
    RunOne(cfg, s, arm);
    RunConcat(cfg, s, [arm], rest);
  }

  /** The state in which the first `n` events in the handler's hands have been handled. */
  function AfterOks(s: State, events: seq<Event>, n: nat): State
    requires n <= |events|
  {
    s.(handler := Busy(events, n), handled := s.handled + SetOf(events[..n]))
  }

  lemma OneOk(cfg: Config, s: State, events: seq<Event>, n: nat)
    requires cfg.step >= 1 && n < |events|
    ensures Next(cfg, AfterOks(s, events, n), EventOk) == AfterOks(s, events, n + 1)
  {
    assert events[..n + 1] == events[..n] + [events[n]];
    SetOfSnoc(events[..n], events[n]);
    assert s.handled + SetOf(events[..n]) + {events[n]} == s.handled + SetOf(events[..n + 1]);
  }

  lemma {:induction false} HandleAll(cfg: Config, s: State, events: seq<Event>, n: nat)
    requires cfg.step >= 1 && s.handler == Busy(events, 0) && n <= |events|
    ensures Run(cfg, s, Oks(n)) == AfterOks(s, events, n)
    decreases n
  {
    if n == 0 {
      assert Oks(0) == [] && events[..0] == [];
      assert s.handled + SetOf(events[..0]) == s.handled;
    } else {
      HandleAll(cfg, s, events, n - 1);
      OneOk(cfg, s, events, n - 1);
      Then(cfg, s, Oks(n - 1), AfterOks(s, events, n - 1), EventOk, AfterOks(s, events, n));
      assert Oks(n) == Oks(n - 1) + [EventOk];
    }
  }

  /** The acknowledgement leaves the handler and reaches the listener. */
  lemma AckTravels(cfg: Config, s: State, from: nat, to: nat)
    requires cfg.step >= 1 && s.handler.Busy? && s.handler.next == |s.handler.events|
    requires s.listener == AwaitingAck(from, to, false)
    ensures var acked := s.(handler := Idle, listener := AwaitingAck(from, to, true));
            && Next(cfg, s, AckBatch) == acked
            && Next(cfg, acked, ReceiveAck) == acked.(listener := Waiting, sent := s.sent + [to + 1])
  {
  }

  /** From the dispatch of a batch to the listener's next number. */
  lemma BusyRound(cfg: Config, s: State, events: seq<Event>, from: nat, to: nat)
    requires cfg.step >= 1 && s.handler == Busy(events, 0) && s.listener == AwaitingAck(from, to, false)
    ensures Run(cfg, s, Oks(|events|) + [AckBatch] + [ReceiveAck])
            == s.(handler := Idle, listener := Waiting, sent := s.sent + [to + 1],
                  handled := s.handled + SetOf(events))
  {
    var handled := AfterOks(s, events, |events|);
    var acked := handled.(handler := Idle, listener := AwaitingAck(from, to, true));
    HandleAll(cfg, s, events, |events|);
    assert events[..|events|] == events;
    AckTravels(cfg, handled, from, to);
    Then(cfg, s, Oks(|events|), handled, AckBatch, acked);
    Then(cfg, s, Oks(|events|) + [AckBatch], acked, ReceiveAck,
         acked.(listener := Waiting, sent := s.sent + [to + 1]));
  }

  /** The relayer is at rest: one number is waiting to be queried. */
  ghost predicate AtRest(s: State) {
    s.listener.Waiting? && s.handler.Idle? && s.redisUp && |s.sent| == s.listenerRead + 1 && s.redisRead <= |s.sent|
  }

  /** The arms of one batch in which everything goes well, up to the checkpoint. */
  function Handling(cfg: Config, s: State, finalized: nat): seq<Arm>
    requires cfg.step >= 1 && s.sent != [] && s.sent[|s.sent| - 1] <= finalized
  {
    var from := s.sent[|s.sent| - 1];
    var events := EventsIn(cfg.blocks, from, BatchEnd(from, finalized, cfg.step) + 1);
    [NextBlock(finalized)] + if events == [] then [] else Oks(|events|) + [AckBatch] + [ReceiveAck]
  }

  /** What querying from rest does. */
  lemma QueryAtRest(cfg: Config, s: State, finalized: nat)
    requires cfg.step >= 1 && AtRest(s) && s.sent[|s.sent| - 1] <= finalized
    ensures var from := s.sent[|s.sent| - 1];
            var to := BatchEnd(from, finalized, cfg.step);
            var events := EventsIn(cfg.blocks, from, to + 1);
            var u := s.(listenerRead := |s.sent|, batches := s.batches + [(from, to)]);
            Next(cfg, s, NextBlock(finalized))
            == if events == [] then u.(sent := s.sent + [to + 1])
               else u.(listener := AwaitingAck(from, to, false), handler := Busy(events, 0))
  {
  }

  /** The state after the batch has been queried, handled and acknowledged. */
  function AfterBatch(cfg: Config, s: State, from: nat, to: nat): State {
    s.(sent := s.sent + [to + 1], listenerRead := |s.sent|, batches := s.batches + [(from, to)],
       handled := s.handled + SetOf(EventsIn(cfg.blocks, from, to + 1)))
  }

  lemma FullBatch(cfg: Config, s: State, finalized: nat, from: nat, to: nat, events: seq<Event>)
    requires cfg.step >= 1 && AtRest(s) && from == s.sent[|s.sent| - 1] <= finalized
    requires to == BatchEnd(from, finalized, cfg.step) && events == EventsIn(cfg.blocks, from, to + 1) != []
    ensures Run(cfg, s, [NextBlock(finalized)] + (Oks(|events|) + [AckBatch] + [ReceiveAck]))
            == AfterBatch(cfg, s, from, to)
  {
    var queried := s.(listenerRead := |s.sent|, batches := s.batches + [(from, to)],
                      listener := AwaitingAck(from, to, false), handler := Busy(events, 0));
    QueryAtRest(cfg, s, finalized);
    BusyRound(cfg, queried, events, from, to);
    First(cfg, s, NextBlock(finalized), queried, Oks(|events|) + [AckBatch] + [ReceiveAck],
          AfterBatch(cfg, s, from, to));
  }

  lemma BatchHandled(cfg: Config, s: State, finalized: nat)
    requires cfg.step >= 1 && AtRest(s) && s.sent[|s.sent| - 1] <= finalized
    ensures var from := s.sent[|s.sent| - 1];
            Run(cfg, s, Handling(cfg, s, finalized)) == AfterBatch(cfg, s, from, BatchEnd(from, finalized, cfg.step))
  {
    var from := s.sent[|s.sent| - 1];
    var to := BatchEnd(from, finalized, cfg.step);
    var events := EventsIn(cfg.blocks, from, to + 1);
    if events == [] {
      QueryAtRest(cfg, s, finalized);
      RunOne(cfg, s, NextBlock(finalized));
      assert Handling(cfg, s, finalized) == [NextBlock(finalized)];
      assert s.handled + SetOf(events) == s.handled;
    } else {
      FullBatch(cfg, s, finalized, from, to, events);
    }
  }

  function Round(cfg: Config, s: State, finalized: nat): seq<Arm>
    requires cfg.step >= 1 && s.sent != [] && s.sent[|s.sent| - 1] <= finalized
  {
    Handling(cfg, s, finalized) + [WriteCheckpoint(if s.redisRead <= |s.sent| then |s.sent| - s.redisRead else 0)]
  }

  /** Progress: from rest, one good round handles every event of the next batch -- up to the finalized block, at most
      `step` blocks -- stores the number after it, and leaves the relayer at rest again. */
  lemma RoundAdvances(cfg: Config, s: State, finalized: nat)
    requires cfg.step >= 1 && AtRest(s) && s.sent[|s.sent| - 1] <= finalized
    ensures var from := s.sent[|s.sent| - 1];
            var to := if finalized < from + cfg.step - 1 then finalized else from + cfg.step - 1;
            var t := Run(cfg, s, Round(cfg, s, finalized));
            && AtRest(t) && t.sent[|t.sent| - 1] == to + 1 && t.cached == Some(to + 1)
            && forall e | e in EventsIn(cfg.blocks, from, to + 1) :: e in t.handled
  {
    var from := s.sent[|s.sent| - 1];
    var to := BatchEnd(from, finalized, cfg.step);
    var u := AfterBatch(cfg, s, from, to);
    BatchHandled(cfg, s, finalized);
    Then(cfg, s, Handling(cfg, s, finalized), u, WriteCheckpoint(|s.sent| - s.redisRead),
         u.(cached := Some(to + 1), redisRead := |s.sent| + 1));
  }

  /** After a boot, one good round moves the stored number past the batch that starts at it. */
  lemma BootAdvances(cfg: Config, s: State, finalized: nat)
    requires cfg.step >= 1 && Checkpoint(cfg, s) <= finalized
    ensures var from, booted := Checkpoint(cfg, s), Next(cfg, s, Boot);
            && booted.sent == [from] && AtRest(booted)
            && Run(cfg, s, [Boot] + Round(cfg, booted, finalized)).cached
               == Some(1 + if finalized < from + cfg.step - 1 then finalized else from + cfg.step - 1)
  {
    var booted := Next(cfg, s, Boot);
    BootResumes(cfg, s);
    RoundAdvances(cfg, booted, finalized);
    RunOne(cfg, s, Boot);
    RunConcat(cfg, s, [Boot], Round(cfg, booted, finalized));
  }

  // --- the tasks, updating their state in place

  /** One method for each arm of the loops of the listener, the events handler and the Redis manager. */
  class Relayer {
    const cfg: Config
    var cached: Option<nat>
    var sent: seq<nat>
    var listenerRead: nat
    var redisRead: nat
    var redisUp: bool
    var listener: Listener
    var handler: Handler
    ghost var batches: seq<(nat, nat)>
    ghost var handled: set<Event>

    ghost function View(): State
      reads this
    {
      State(cached, sent, listenerRead, redisRead, redisUp, listener, handler, batches, handled)
    }

    constructor (cfg: Config)
      ensures this.cfg == cfg && Initial(View())
    {
      this.cfg := cfg;
      cached, sent, listenerRead, redisRead, redisUp := None, [], 0, 0, false;
      listener, handler, batches, handled := Stopped, Exited, [], {};
    }

    method Boot()
      requires cfg.step >= 1
      modifies this
      ensures View() == Next(cfg, old(View()), Arm.Boot)
    {
      sent := [if cached.Some? then cached.value else cfg.start];
      listenerRead, redisRead, redisUp := 0, 0, true;
      listener, handler, batches := Waiting, Idle, [];
    }

    /** Queries a batch; an empty one is marked at once, any other is handed to the handler. */
    method OnNextBlock(finalized: nat)
      requires cfg.step >= 1
      modifies this
      ensures View() == Next(cfg, old(View()), NextBlock(finalized))
    {
      if listener.Waiting? && listenerRead < |sent| && finalized >= sent[listenerRead]
         && !handler.Busy?
      {
        var from := sent[listenerRead];
        var last := if finalized < from + cfg.step - 1 then finalized else from + cfg.step - 1;
        var events := FetchEventsInBlockRange(cfg.blocks, from, last);
        listenerRead, batches := listenerRead + 1, batches + [(from, last)];
        if events == [] {
          sent := sent + [last + 1];
        } else if handler.Exited? {
          listener := Stopped;
        } else {
          listener, handler := AwaitingAck(from, last, false), Busy(events, 0);
        }
      }
    }

    method OnEvent(ok: bool)
      requires cfg.step >= 1
      modifies this
      ensures View() == Next(cfg, old(View()), if ok then EventOk else EventFailed)
    {
      if handler.Busy? {
        if !ok {
          handler := Exited;
        } else if handler.next < |handler.events| {
          handled := handled + {handler.events[handler.next]};
          handler := Busy(handler.events, handler.next + 1);
        }
      }
    }

    method OnAck(toListener: bool)
      requires cfg.step >= 1
      modifies this
      ensures View() == Next(cfg, old(View()), if toListener then ReceiveAck else AckBatch)
    {
      if toListener {
        if listener.AwaitingAck? && listener.acked {
          sent := sent + [listener.to + 1];
          listener := Waiting;
        }
      } else if handler.Busy? && handler.next == |handler.events| {
        if listener.AwaitingAck? {
          handler, listener := Idle, listener.(acked := true);
        } else {
          handler := Exited;
        }
      }
    }

    method OnNumber(skip: nat)
      requires cfg.step >= 1
      modifies this
      ensures View() == Next(cfg, old(View()), WriteCheckpoint(skip))
    {
      if redisUp && redisRead + skip < |sent| {
        cached := Some(sent[redisRead + skip]);
        redisRead := redisRead + skip + 1;
      }
    }

    method Perform(arm: Arm)
      requires cfg.step >= 1
      modifies this
      ensures View() == Next(cfg, old(View()), arm)
    {
      match arm {
        case Boot => Boot();
        case NextBlock(finalized) => OnNextBlock(finalized);
        case EventOk => OnEvent(true);
        case EventFailed => OnEvent(false);
        case AckBatch => OnAck(false);
        case ReceiveAck => OnAck(true);
        case LoseAck =>
          if listener.AwaitingAck? && !listener.acked && handler.Exited? {
            listener := Waiting;
          }
        case WriteCheckpoint(skip) => OnNumber(skip);
        case StopListener => listener := Stopped;
        case StopHandler => handler := Exited;
        case StopRedis => redisUp := false;
      }
    }

    /** Any schedule of arms: every event below the stored number has been handled. */
    method Drive(schedule: seq<Arm>)
      requires cfg.step >= 1 && Safe(cfg, View())
      modifies this
      ensures View() == Run(cfg, old(View()), schedule)
      ensures RangeDone(cfg.blocks, cfg.start, Checkpoint(cfg, View()), handled)
    {
      ghost var before := View();
      for i := 0 to |schedule|
        invariant View() == Run(cfg, before, schedule[..i])
      {
        RunSnoc(cfg, before, schedule[..i], schedule[i]);
        assert schedule[..i + 1] == schedule[..i] + [schedule[i]];
        Perform(schedule[i]);
      }
      assert schedule[..|schedule|] == schedule;
      RunKeeps(cfg, before, schedule);
    }
  }

  lemma RunSnoc(cfg: Config, s: State, arms: seq<Arm>, arm: Arm)
    requires cfg.step >= 1
    ensures Run(cfg, s, arms + [arm]) == Next(cfg, Run(cfg, s, arms), arm)
  {
    assert (arms + [arm])[..|arms|] == arms;
  }
}
