/** Reentrant calls.

    A send reads its nonce and committee from storage and bumps the nonce after calls to token contracts, the pool, the
    owner and the caller; an executing vote marks the request as processed before it calls out.  Each of these calls may
    re-enter the contract to any depth, and may revert together with everything nested in it.  Here every call of a
    transaction is a frame with the frames nested in it, and the storage of the nonce, the votes and the tokens changes
    in the order of the code.  Whatever the tree of calls: the stored nonce counts the events, the events carry their
    positions, votes and events are those of some sequence of messages, and no asset loses backing. */
module Reentrancy {
  import opened Types
  import opened Collector
  import opened Treasury
  import opened Effects
  import opened Protocol
  import opened Backing

  /** The storage variables that a send reads. */
  datatype Counters = Counters(requestNonce: nat, committeeId: nat)

  datatype World = World(system: System, counters: Pair<Counters>)

  /** `early`, `middle` and `late` re-enter before the pairs are read and the tokens come in, between that and the burn,
      and between the burn and the event; of a vote, before and after the payout.  `reverts`: the call fails in the
      end, for whatever reason, and takes the effects of everything nested in it back. `PlainFrame`: an owner message,
      or tokens moved by others. */
  datatype Frame =
    | SendFrame(send: Send, early: seq<Frame>, middle: seq<Frame>, late: seq<Frame>, reverts: bool)
    | VoteFrame(who: Account, claimed: Hash, request: Request, delivery: Delivery,
                early: seq<Frame>, late: seq<Frame>, reverts: bool)
    | PlainFrame(action: Action)

  // --- the steps of a call

  function SetLedger(w: World, side: Side, l: Ledger): World {
    w.(system := w.system.With(side, w.system.At(side).(ledger := l)))
  }

  function NonceLimit(p: Profile): nat { if IsSolidity(p) then U256_SIZE else U128_SIZE }

  /** The event that a send emits, stamped with the stored nonce and committee. */
  function StampedEvent(w: World, side: Side, tr: Transfer, receiver: Account): Request {
    var c := w.counters.At(side);
    Request(c.committeeId, tr.dest, tr.amount, receiver, c.requestNonce)
  }

  predicate Takes(w: World, side: Side, tr: Transfer) {
    var l := w.system.At(side).ledger;
    tr.pull + Held(l, tr.token) <= Supply(l, tr.token)
  }

  predicate Burns(w: World, side: Side, tr: Transfer) {
    var l := w.system.At(side).ledger;
    tr.burn <= Held(l, tr.token) && tr.burn <= Supply(l, tr.token)
  }

  ghost predicate Emits(d: Deployment, w: World, side: Side, tr: Transfer, receiver: Account) {
    && w.counters.At(side).requestNonce + 1 < NonceLimit(d.profiles.At(side))
    && StampedEvent(w, side, tr, receiver) in d.profiles.At(side.Other()).scheme.occurs
  }

  function TakeStep(w: World, side: Side, tr: Transfer): World {
    SetLedger(w, side, TakeIn(w.system.At(side).ledger, tr))
  }

  function BurnStep(w: World, side: Side, tr: Transfer): World
    requires Burns(w, side, tr)
  {
    SetLedger(w, side, Burn(w.system.At(side).ledger, tr))
  }

  /** Appends the event and bumps the stored nonce. */
  function EmitStep(w: World, side: Side, tr: Transfer, receiver: Account): World {
    var ch, c := w.system.At(side), w.counters.At(side);
    var core := ch.core.(events := ch.core.events + [StampedEvent(w, side, tr, receiver)]);
    World(w.system.With(side, ch.(core := core)), w.counters.With(side, c.(requestNonce := c.requestNonce + 1)))
  }

  function VoteStep(w: World, side: Side, claimed: Hash, request: Request, who: Account): World
    requires request.committee < |w.system.At(side).core.rosters|
  {
    w.(system := Voted(w.system, side, claimed, request, who))
  }

  function Payout(d: Deployment, w: World, side: Side, request: Request, delivery: Delivery): Option<Ledger> {
    var p := d.profiles.At(side);
    Pay(p, w.system.At(side).ledger, Incoming(p, request.token, request.amount),
        PaysSelf(p, request, delivery), delivery)
  }

  ghost function PlainStep(d: Deployment, w: World, side: Side, action: Action): World
    requires Booted(w.system)
  {
    var m := Move(side, action);
    if action.Outbound? || action.Guard? || !Allowed(d, w.system, m) then w
    else
      var c := w.counters.At(side);
      World(Apply(d, w.system, m),
            if action.Rotate? then w.counters.With(side, c.(committeeId := c.committeeId + 1)) else w.counters)
  }

  // --- calls

  ghost function Exec(d: Deployment, w: World, side: Side, f: Frame): (w': World)
    requires Booted(w.system)
    ensures Booted(w'.system)
    decreases f, 1
  {
    match f
    case PlainFrame(action) => PlainStep(d, w, side, action)
    case SendFrame(send, early, middle, late, reverts) =>
      if reverts || w.system.At(side).halted || send.receiver == ZERO_ADDRESS then w
      else
        var w1 := ExecAll(d, w, side, early);
        var tr := Outgoing(d.profiles.At(side), w1.system.At(side).pairs, send);
        if tr.None? || !Takes(w1, side, tr.value) then w
        else
          var w2 := ExecAll(d, TakeStep(w1, side, tr.value), side, middle);
          if !Burns(w2, side, tr.value) then w
          else
            var w3 := ExecAll(d, BurnStep(w2, side, tr.value), side, late);
            if Emits(d, w3, side, tr.value, send.receiver) then EmitStep(w3, side, tr.value, send.receiver) else w
    case VoteFrame(who, claimed, request, delivery, early, late, reverts) =>
      if reverts || w.system.At(side).halted || !Votable(d, w.system, side, claimed, request, who) then w
      else
        var w1 := VoteStep(w, side, claimed, request, who);
        if !ReachesQuorum(w.system.At(side).core, claimed, request, who) then w1
        else
          var w2 := ExecAll(d, w1, side, early);
          var l := Payout(d, w2, side, request, delivery);
          if l.None? then w else ExecAll(d, SetLedger(w2, side, l.value), side, late)
  }

  ghost function ExecAll(d: Deployment, w: World, side: Side, frames: seq<Frame>): (w': World)
    requires Booted(w.system)
    ensures Booted(w'.system)
    decreases frames, 0
  {
    if frames == [] then w else ExecAll(d, Exec(d, w, side, frames[0]), side, frames[1..])
  }

  // --- what every step of a call keeps

  /** The stored counters of a contract are the number of its events and the id of its latest committee. */
  ghost predicate SyncedAt(c: Counters, core: Core) {
    c.requestNonce == |core.events| && c.committeeId + 1 == |core.rosters|
  }

  ghost predicate Synced(w: World) {
    SyncedAt(w.counters.a, w.system.a.core) && SyncedAt(w.counters.b, w.system.b.core)
  }

  ghost predicate Good(d: Deployment, w: World) {
    Inv(d, w.system) && Routed(d, w.system) && AllCovered(w.system) && Synced(w)
  }

  lemma LedgerKeeps(d: Deployment, w: World, side: Side, l: Ledger)
    requires Good(d, w) && Covered(l)
    ensures Good(d, SetLedger(w, side, l))
  {
    var s' := SetLedger(w, side, l).system;
    assert SideInv(d, s', A) && SideInv(d, s', B);
    forall x, e | e in s'.At(x).core.events ensures RoutedRequest(d, x, e) {
      assert e in w.system.At(x).core.events;
    }
  }

  /** In sync, the event stamped from storage is the next event of the abstract machine. */
  lemma EmitIsNext(w: World, side: Side, tr: Transfer, receiver: Account)
    requires Synced(w)
    ensures |w.system.At(side).core.rosters| > 0
    ensures StampedEvent(w, side, tr, receiver) == NextEvent(w.system.At(side).core, tr.dest, tr.amount, receiver)
    ensures EmitStep(w, side, tr, receiver).system == Emitted(w.system, side, tr, receiver)
    ensures Synced(EmitStep(w, side, tr, receiver))
  {
  }

  lemma EmitStepKeeps(d: Deployment, w: World, side: Side, tr: Transfer, receiver: Account)
    requires WellDeployed(d) && Good(d, w) && Mirrors(d, side, tr) && Emits(d, w, side, tr, receiver)
    ensures Good(d, EmitStep(w, side, tr, receiver)) && EventOccurs(d, w.system, side, tr, receiver)
  {
    EmitIsNext(w, side, tr, receiver);
    EmittedKeeps(d, w.system, side, tr.dest, tr.amount, receiver);
    var s' := EmitStep(w, side, tr, receiver).system;
    forall x, e | e in s'.At(x).core.events ensures RoutedRequest(d, x, e) {
      assert e in w.system.At(x).core.events || (x == side && e == StampedEvent(w, side, tr, receiver));
    }
  }

  lemma VoteStepKeeps(d: Deployment, w: World, side: Side, claimed: Hash, request: Request, who: Account)
    requires WellDeployed(d) && Good(d, w) && Votable(d, w.system, side, claimed, request, who)
    ensures Good(d, VoteStep(w, side, claimed, request, who))
  {
    VotedKeeps(d, w.system, side, claimed, request, who);
    var s' := VoteStep(w, side, claimed, request, who).system;
    forall x, e | e in s'.At(x).core.events ensures RoutedRequest(d, x, e) {
      assert e in w.system.At(x).core.events;
    }
  }

  lemma PlainStepKeeps(d: Deployment, w: World, side: Side, action: Action)
    requires WellDeployed(d) && Good(d, w)
    ensures Good(d, PlainStep(d, w, side, action))
  {
    var m := Move(side, action);
    ApplyKeeps(d, w.system, m);
    ApplyKeepsRouted(d, w.system, m);
    ApplyKeepsCovered(d, w.system, m);
  }

  // --- backing: no call tree lowers the slack of any asset

  /** `w'` is a good state in which the asset has at least `surplus` more slack than in `w`. */
  ghost predicate Gains(d: Deployment, w: World, w': World, home: Side, t: Token, surplus: int) {
    Good(d, w') && (HomeAsset(d, home, t) ==> Slack(d, w'.system, home, t) >= Slack(d, w.system, home, t) + surplus)
  }

  /** What a transfer of this side promises in the asset. */
  ghost function Promise(d: Deployment, home: Side, t: Token, side: Side, tr: Transfer): int {
    if HomeAsset(d, home, t) && tr.token == AssetAt(d, home, t, side) then tr.amount else 0
  }

  lemma TakeStepGains(d: Deployment, w: World, side: Side, tr: Transfer, home: Side, t: Token)
    requires WellDeployed(d) && Good(d, w) && Fair(d.profiles.At(side), tr) && Takes(w, side, tr)
    ensures Gains(d, w, TakeStep(w, side, tr), home, t, if side == home then Promise(d, home, t, side, tr) else 0)
  {
    var l := w.system.At(side).ledger;
    CollectKeepsCovered(l, tr);
    LedgerKeeps(d, w, side, TakeIn(l, tr));
    if HomeAsset(d, home, t) {
      LedgerChange(d, w.system, side, TakeIn(l, tr), home, t);
      TakeInChange(d, home, t, side, l, tr);
    }
  }

  lemma BurnStepGains(d: Deployment, w: World, side: Side, tr: Transfer, home: Side, t: Token)
    requires WellDeployed(d) && Good(d, w) && Fair(d.profiles.At(side), tr) && Burns(w, side, tr)
    ensures Gains(d, w, BurnStep(w, side, tr), home, t, if side == home then 0 else Promise(d, home, t, side, tr))
  {
    var l := w.system.At(side).ledger;
    BurnKeepsCovered(l, tr);
    LedgerKeeps(d, w, side, Burn(l, tr));
    if HomeAsset(d, home, t) {
      LedgerChange(d, w.system, side, Burn(l, tr), home, t);
      BurnChange(d, home, t, side, l, tr);
    }
  }

  lemma EmitStepGains(d: Deployment, w: World, side: Side, tr: Transfer, receiver: Account, home: Side, t: Token)
    requires WellDeployed(d) && Good(d, w) && Mirrors(d, side, tr) && Emits(d, w, side, tr, receiver)
    ensures Gains(d, w, EmitStep(w, side, tr, receiver), home, t, -Promise(d, home, t, side, tr))
  {
    EmitStepKeeps(d, w, side, tr, receiver);
    EmitIsNext(w, side, tr, receiver);
    if HomeAsset(d, home, t) {
      EmitChange(d, w.system, side, tr, receiver, home, t);
    }
  }

  /** What an executed request is worth in the asset. */
  ghost function Claim(d: Deployment, home: Side, t: Token, side: Side, request: Request): int {
    if HomeAsset(d, home, t) then Worth(d.profiles.At(side), AssetAt(d, home, t, side), request) else 0
  }

  lemma VoteStepGains(d: Deployment, w: World, side: Side, claimed: Hash, request: Request, who: Account, home: Side,
                      t: Token)
    requires WellDeployed(d) && Good(d, w) && Votable(d, w.system, side, claimed, request, who)
    ensures Gains(d, w, VoteStep(w, side, claimed, request, who), home, t,
                  if ReachesQuorum(w.system.At(side).core, claimed, request, who)
                  then Claim(d, home, t, side, request) else 0)
  {
    VoteStepKeeps(d, w, side, claimed, request, who);
    if HomeAsset(d, home, t) {
      VoteChange(d, w.system, side, claimed, request, who, home, t);
    }
  }

  lemma PayoutGains(d: Deployment, w: World, side: Side, request: Request, delivery: Delivery, l: Ledger, home: Side,
                    t: Token)
    requires WellDeployed(d) && Good(d, w) && RoutedRequest(d, side.Other(), request)
    requires Payout(d, w, side, request, delivery) == Some(l)
    ensures Gains(d, w, SetLedger(w, side, l), home, t, -Claim(d, home, t, side, request))
  {
    var p, l0 := d.profiles.At(side), w.system.At(side).ledger;
    PayKeepsCovered(p, l0, Incoming(p, request.token, request.amount), PaysSelf(p, request, delivery), delivery);
    LedgerKeeps(d, w, side, l);
    if HomeAsset(d, home, t) {
      LedgerChange(d, w.system, side, l, home, t);
      PaymentChange(d, home, t, side, l0, request, delivery, l);
    }
  }

  lemma PlainStepGains(d: Deployment, w: World, side: Side, action: Action, home: Side, t: Token)
    requires WellDeployed(d) && Good(d, w)
    ensures Gains(d, w, PlainStep(d, w, side, action), home, t, 0)
  {
    PlainStepKeeps(d, w, side, action);
    if HomeAsset(d, home, t) {
      SlackStep(d, w.system, Move(side, action), home, t);
    }
  }

  lemma GainsAdd(d: Deployment, w: World, w1: World, w2: World, home: Side, t: Token, x: int, y: int)
    requires Gains(d, w, w1, home, t, x) && Gains(d, w1, w2, home, t, y)
    ensures Gains(d, w, w2, home, t, x + y)
  {
  }

  /** A call with everything nested in it keeps the invariants and lowers the slack of no asset. */
  lemma {:induction false} ExecGains(d: Deployment, w: World, side: Side, f: Frame, home: Side, t: Token)
    requires WellDeployed(d) && Good(d, w)
    ensures Gains(d, w, Exec(d, w, side, f), home, t, 0)
    decreases f, 1
  {
    match f
    case PlainFrame(action) => PlainStepGains(d, w, side, action, home, t);
    case SendFrame(_, _, _, _, _) => SendGains(d, w, side, f, home, t);
    case VoteFrame(_, _, _, _, _, _, _) => VoteGains(d, w, side, f, home, t);
  }

  lemma {:induction false} SendGains(d: Deployment, w: World, side: Side, f: Frame, home: Side, t: Token)
    requires WellDeployed(d) && Good(d, w) && f.SendFrame?
    ensures Gains(d, w, Exec(d, w, side, f), home, t, 0)
    decreases f, 0
  {
    var SendFrame(send, early, middle, late, reverts) := f;
    if Exec(d, w, side, f) != w {
      var w1 := ExecAll(d, w, side, early);
      ExecAllGains(d, w, side, early, home, t);
      var tr := Outgoing(d.profiles.At(side), w1.system.At(side).pairs, send).value;
      assert SideInv(d, w1.system, side);
      MirroredTransfer(d, side, w1.system.At(side).pairs, send);
      var promise := Promise(d, home, t, side, tr);
      var w2 := TakeStep(w1, side, tr);
      TakeStepGains(d, w1, side, tr, home, t);
      GainsAdd(d, w, w1, w2, home, t, 0, if side == home then promise else 0);
      var w3 := ExecAll(d, w2, side, middle);
      ExecAllGains(d, w2, side, middle, home, t);
      GainsAdd(d, w, w2, w3, home, t, if side == home then promise else 0, 0);
      var w4 := BurnStep(w3, side, tr);
      BurnStepGains(d, w3, side, tr, home, t);
      GainsAdd(d, w, w3, w4, home, t, if side == home then promise else 0, if side == home then 0 else promise);
      var w5 := ExecAll(d, w4, side, late);
      ExecAllGains(d, w4, side, late, home, t);
      GainsAdd(d, w, w4, w5, home, t, promise, 0);
      EmitStepGains(d, w5, side, tr, send.receiver, home, t);
      GainsAdd(d, w, w5, EmitStep(w5, side, tr, send.receiver), home, t, promise, -promise);
    }
  }

  lemma {:induction false} VoteGains(d: Deployment, w: World, side: Side, f: Frame, home: Side, t: Token)
    requires WellDeployed(d) && Good(d, w) && f.VoteFrame?
    ensures Gains(d, w, Exec(d, w, side, f), home, t, 0)
    decreases f, 0
  {
    var VoteFrame(who, claimed, request, delivery, early, late, reverts) := f;
    if Exec(d, w, side, f) != w {
      var w1 := VoteStep(w, side, claimed, request, who);
      VoteStepGains(d, w, side, claimed, request, who, home, t);
      if ReachesQuorum(w.system.At(side).core, claimed, request, who) {
        var claim := Claim(d, home, t, side, request);
        ExecutedIsEvent(d, w.system, side, claimed, request, who);
        assert RoutedRequest(d, side.Other(), request);
        var w2 := ExecAll(d, w1, side, early);
        ExecAllGains(d, w1, side, early, home, t);
        GainsAdd(d, w, w1, w2, home, t, claim, 0);
        var w3 := SetLedger(w2, side, Payout(d, w2, side, request, delivery).value);
        PayoutGains(d, w2, side, request, delivery, Payout(d, w2, side, request, delivery).value, home, t);
        GainsAdd(d, w, w2, w3, home, t, claim, -claim);
        ExecAllGains(d, w3, side, late, home, t);
        GainsAdd(d, w, w3, ExecAll(d, w3, side, late), home, t, 0, 0);
      }
    }
  }

  lemma {:induction false} ExecAllGains(d: Deployment, w: World, side: Side, frames: seq<Frame>, home: Side, t: Token)
    requires WellDeployed(d) && Good(d, w)
    ensures Gains(d, w, ExecAll(d, w, side, frames), home, t, 0)
    decreases frames, 0
  {
    if frames != [] {
      var w1 := Exec(d, w, side, frames[0]);
      ExecGains(d, w, side, frames[0], home, t);
      ExecAllGains(d, w1, side, frames[1..], home, t);
      GainsAdd(d, w, w1, ExecAll(d, w1, side, frames[1..]), home, t, 0, 0);
    }
  }

  // --- votes and events: a call tree does what some sequence of messages does

  lemma {:induction false} RunConcat(hash: Request -> Hash, core: Core, first: seq<Step>, second: seq<Step>)
    requires |core.rosters| > 0
    ensures CoreRun(hash, core, first + second) == CoreRun(hash, CoreRun(hash, core, first), second)
    decreases |second|
  {
    if second == [] {
      assert first + second == first;
    } else {
      var before := second[..|second| - 1];
      RunConcat(hash, core, first, before);
      assert (first + second)[..|first + second| - 1] == first + before;
    }
  }

  lemma RunOne(hash: Request -> Hash, core: Core, step: Step)
    requires |core.rosters| > 0
    ensures CoreRun(hash, core, [step]) == Next(hash, core, step)
  {
    assert [step][..0] == [];
    assert CoreRun(hash, core, []) == core;
  }

  function CoreAt(w: World, side: Side): Core { w.system.At(side).core }

  /** `w'` has the votes and events of `w` after `steps`, and counters in sync. */
  ghost predicate After(d: Deployment, w: World, w': World, side: Side, steps: seq<Step>)
    requires Booted(w.system)
  {
    && CoreAt(w', side) == CoreRun(d.profiles.At(side).scheme.hash, CoreAt(w, side), steps)
    && Synced(w') && Booted(w'.system)
  }

  lemma AfterAll(d: Deployment, w: World, w1: World, w2: World, side: Side, first: seq<Step>, second: seq<Step>)
    requires Booted(w.system) && After(d, w, w1, side, first) && After(d, w1, w2, side, second)
    ensures After(d, w, w2, side, first + second)
  {
    RunConcat(d.profiles.At(side).scheme.hash, CoreAt(w, side), first, second);
  }

  lemma AfterOne(d: Deployment, w: World, w': World, side: Side, step: Step)
    requires Booted(w.system) && Synced(w') && Booted(w'.system)
    requires CoreAt(w', side) == Next(d.profiles.At(side).scheme.hash, CoreAt(w, side), step)
    ensures After(d, w, w', side, [step])
  {
    RunOne(d.profiles.At(side).scheme.hash, CoreAt(w, side), step);
  }

  lemma PlainLinear(d: Deployment, w: World, side: Side, action: Action) returns (steps: seq<Step>)
    requires Booted(w.system) && Synced(w)
    ensures After(d, w, PlainStep(d, w, side, action), side, steps)
  {
    steps := [];
    if action.Rotate? && Allowed(d, w.system, Move(side, action)) {
      steps := [Install(action.members, action.threshold)];
      AfterOne(d, w, PlainStep(d, w, side, action), side, steps[0]);
    }
  }

  /** Linearization: however calls re-enter and revert, the votes and events of a call are those of a sequence of
      messages that run one by one. */
  lemma {:induction false} Linearizes(d: Deployment, w: World, side: Side, f: Frame) returns (steps: seq<Step>)
    requires Booted(w.system) && Synced(w)
    ensures After(d, w, Exec(d, w, side, f), side, steps)
    decreases f, 1
  {
    match f
    case PlainFrame(action) => steps := PlainLinear(d, w, side, action);
    case SendFrame(_, _, _, _, _) => steps := SendLinear(d, w, side, f);
    case VoteFrame(_, _, _, _, _, _, _) => steps := VoteLinear(d, w, side, f);
  }

  lemma {:induction false} SendLinear(d: Deployment, w: World, side: Side, f: Frame) returns (steps: seq<Step>)
    requires Booted(w.system) && Synced(w) && f.SendFrame?
    ensures After(d, w, Exec(d, w, side, f), side, steps)
    decreases f, 0
  {
    var SendFrame(send, early, middle, late, reverts) := f;
    steps := [];
    if Exec(d, w, side, f) != w {
      var w1 := ExecAll(d, w, side, early);
      steps := LinearizesAll(d, w, side, early);
      var tr := Outgoing(d.profiles.At(side), w1.system.At(side).pairs, send).value;
      var w2 := TakeStep(w1, side, tr);
      var inner := LinearizesAll(d, w2, side, middle);
      var w3 := ExecAll(d, w2, side, middle);
      AfterAll(d, w, w1, w3, side, steps, inner);
      steps := steps + inner;
      var w4 := BurnStep(w3, side, tr);
      inner := LinearizesAll(d, w4, side, late);
      var w5 := ExecAll(d, w4, side, late);
      AfterAll(d, w, w3, w5, side, steps, inner);
      steps := steps + inner;
      var w6 := EmitStep(w5, side, tr, send.receiver);
      EmitIsNext(w5, side, tr, send.receiver);
      var emit := Emit(tr.dest, tr.amount, send.receiver);
      AfterOne(d, w5, w6, side, emit);
      AfterAll(d, w, w5, w6, side, steps, [emit]);
      steps := steps + [emit];
    }
  }

  lemma {:induction false} VoteLinear(d: Deployment, w: World, side: Side, f: Frame) returns (steps: seq<Step>)
    requires Booted(w.system) && Synced(w) && f.VoteFrame?
    ensures After(d, w, Exec(d, w, side, f), side, steps)
    decreases f, 0
  {
    var VoteFrame(who, claimed, request, delivery, early, late, reverts) := f;
    steps := [];
    if Exec(d, w, side, f) != w {
      var w1 := VoteStep(w, side, claimed, request, who);
      steps := [Vote(claimed, request, who)];
      AfterOne(d, w, w1, side, steps[0]);
      if ReachesQuorum(CoreAt(w, side), claimed, request, who) {
        var w2 := ExecAll(d, w1, side, early);
        var inner := LinearizesAll(d, w1, side, early);
        AfterAll(d, w, w1, w2, side, steps, inner);
        steps := steps + inner;
        var w3 := SetLedger(w2, side, Payout(d, w2, side, request, delivery).value);
        inner := LinearizesAll(d, w3, side, late);
        AfterAll(d, w, w2, ExecAll(d, w3, side, late), side, steps, inner);
        steps := steps + inner;
      }
    }
  }

  lemma {:induction false} LinearizesAll(d: Deployment, w: World, side: Side, frames: seq<Frame>)
    returns (steps: seq<Step>)
    requires Booted(w.system) && Synced(w)
    ensures After(d, w, ExecAll(d, w, side, frames), side, steps)
    decreases frames, 0
  {
    steps := [];
    if frames != [] {
      var w1 := Exec(d, w, side, frames[0]);
      steps := Linearizes(d, w, side, frames[0]);
      var rest := LinearizesAll(d, w1, side, frames[1..]);
      AfterAll(d, w, w1, ExecAll(d, w1, side, frames[1..]), side, steps, rest);
      steps := steps + rest;
    }
  }

  // --- nested calls do run

  /** The sends of a tree, inner before outer, in the order in which they complete. */
  function SendsOf(f: Frame): seq<Send>
    decreases f, 1
  {
    match f
    case SendFrame(send, early, middle, late, _) =>
      SendsOfAll(early) + SendsOfAll(middle) + SendsOfAll(late) + [send]
    case VoteFrame(_, _, _, _, early, late, _) => SendsOfAll(early) + SendsOfAll(late)
    case PlainFrame(_) => []
  }

  function SendsOfAll(frames: seq<Frame>): seq<Send>
    decreases frames, 0
  {
    if frames == [] then [] else SendsOf(frames[0]) + SendsOfAll(frames[1..])
  }

  /** The requests that a tree executes, outer before inner, since a request is marked before it is paid out. */
  function ExecutedBy(f: Frame): seq<Request>
    decreases f, 1
  {
    match f
    case SendFrame(_, early, middle, late, _) => ExecutedByAll(early) + ExecutedByAll(middle) + ExecutedByAll(late)
    case VoteFrame(_, _, request, _, early, late, _) => [request] + ExecutedByAll(early) + ExecutedByAll(late)
    case PlainFrame(_) => []
  }

  function ExecutedByAll(frames: seq<Frame>): seq<Request>
    decreases frames, 0
  {
    if frames == [] then [] else ExecutedBy(frames[0]) + ExecutedByAll(frames[1..])
  }

  /** No call of the tree fails, and every vote in it reaches the quorum. */
  ghost predicate Succeeds(d: Deployment, w: World, side: Side, f: Frame)
    requires Booted(w.system)
    decreases f, 1
  {
    match f
    case PlainFrame(_) => true
    case SendFrame(send, early, middle, late, reverts) =>
      && !reverts && !w.system.At(side).halted && send.receiver != ZERO_ADDRESS && AllSucceed(d, w, side, early)
      && var w1 := ExecAll(d, w, side, early);
         var tr := Outgoing(d.profiles.At(side), w1.system.At(side).pairs, send);
         && tr.Some? && Takes(w1, side, tr.value) && AllSucceed(d, TakeStep(w1, side, tr.value), side, middle)
         && var w2 := ExecAll(d, TakeStep(w1, side, tr.value), side, middle);
            && Burns(w2, side, tr.value) && AllSucceed(d, BurnStep(w2, side, tr.value), side, late)
            && Emits(d, ExecAll(d, BurnStep(w2, side, tr.value), side, late), side, tr.value, send.receiver)
    case VoteFrame(who, claimed, request, delivery, early, late, reverts) =>
      && !reverts && !w.system.At(side).halted && Votable(d, w.system, side, claimed, request, who)
      && ReachesQuorum(w.system.At(side).core, claimed, request, who)
      && AllSucceed(d, VoteStep(w, side, claimed, request, who), side, early)
      && var w2 := ExecAll(d, VoteStep(w, side, claimed, request, who), side, early);
         && Payout(d, w2, side, request, delivery).Some?
         && AllSucceed(d, SetLedger(w2, side, Payout(d, w2, side, request, delivery).value), side, late)
  }

  ghost predicate AllSucceed(d: Deployment, w: World, side: Side, frames: seq<Frame>)
    requires Booted(w.system)
    decreases frames, 0
  {
    frames == [] || (Succeeds(d, w, side, frames[0]) && AllSucceed(d, Exec(d, w, side, frames[0]), side, frames[1..]))
  }

  /** What a send promises. */
  function AmountOf(p: Profile, send: Send): nat {
    if send.SendNative? then Promised(p, send.amount) else send.amount
  }

  /** One event for each of `sends`, in order, for its receiver and amount and with consecutive nonces, and exactly
      `requests` executed, in order. */
  ghost predicate CoreDid(p: Profile, core: Core, core': Core, sends: seq<Send>, requests: seq<Request>) {
    && core'.log == core.log + requests
    && core.events <= core'.events && |core'.events| == |core.events| + |sends|
    && forall i | 0 <= i < |sends| ::
         var e := core'.events[|core.events| + i];
         e.receiver == sends[i].receiver && e.amount == AmountOf(p, sends[i]) && e.nonce == |core.events| + i
  }

  /** What happened on `side` from `w` to `w'`. */
  ghost predicate Did(p: Profile, w: World, w': World, side: Side, sends: seq<Send>, requests: seq<Request>) {
    CoreDid(p, CoreAt(w, side), CoreAt(w', side), sends, requests)
  }

  lemma DidNothing(p: Profile, w: World, w': World, side: Side)
    requires CoreAt(w', side).events == CoreAt(w, side).events && CoreAt(w', side).log == CoreAt(w, side).log
    ensures Did(p, w, w', side, [], [])
  {
  }

  lemma DidThen(p: Profile, w: World, w1: World, w2: World, side: Side, sends: seq<Send>, requests: seq<Request>,
                sends': seq<Send>, requests': seq<Request>)
    requires Did(p, w, w1, side, sends, requests) && Did(p, w1, w2, side, sends', requests')
    ensures Did(p, w, w2, side, sends + sends', requests + requests')
  {
    var n, events := |CoreAt(w, side).events|, CoreAt(w2, side).events;
    assert CoreAt(w1, side).events <= events;
    forall i | 0 <= i < |sends + sends'|
      ensures events[n + i].receiver == (sends + sends')[i].receiver
      ensures events[n + i].amount == AmountOf(p, (sends + sends')[i]) && events[n + i].nonce == n + i
    {
      if i < |sends| {
        assert events[n + i] == CoreAt(w1, side).events[n + i];
      } else {
        assert events[n + i] == events[|CoreAt(w1, side).events| + (i - |sends|)];
      }
    }
  }

  lemma DidEmit(d: Deployment, w: World, side: Side, send: Send, pairs: map<Token, Token>, tr: Transfer)
    requires Synced(w) && Outgoing(d.profiles.At(side), pairs, send) == Some(tr)
    ensures Did(d.profiles.At(side), w, EmitStep(w, side, tr, send.receiver), side, [send], [])
  {
    EmitIsNext(w, side, tr, send.receiver);
  }

  lemma DidVote(d: Deployment, w: World, side: Side, claimed: Hash, request: Request, who: Account)
    requires request.committee < |CoreAt(w, side).rosters| && ReachesQuorum(CoreAt(w, side), claimed, request, who)
    ensures Did(d.profiles.At(side), w, VoteStep(w, side, claimed, request, who), side, [], [request])
  {
  }

  lemma DidPlain(d: Deployment, w: World, side: Side, action: Action)
    requires Booted(w.system)
    ensures Did(d.profiles.At(side), w, PlainStep(d, w, side, action), side, [], [])
  {
    DidNothing(d.profiles.At(side), w, PlainStep(d, w, side, action), side);
  }

  /** A tree in which every call succeeds emits exactly one event for each of its sends, inner before outer, with
      consecutive nonces, and executes exactly the requests of its votes. */
  lemma {:induction false} TreeRuns(d: Deployment, w: World, side: Side, f: Frame)
    requires Booted(w.system) && Synced(w) && Succeeds(d, w, side, f)
    ensures Did(d.profiles.At(side), w, Exec(d, w, side, f), side, SendsOf(f), ExecutedBy(f))
    decreases f, 1
  {
    match f
    case PlainFrame(action) => DidPlain(d, w, side, action);
    case SendFrame(_, _, _, _, _) => SendTreeRuns(d, w, side, f);
    case VoteFrame(_, _, _, _, _, _, _) => VoteTreeRuns(d, w, side, f);
  }

  /** What a successful send does, stage by stage. */
  lemma SendStages(d: Deployment, w: World, side: Side, f: Frame)
    returns (tr: Transfer, w1: World, w2: World, w3: World)
    requires Booted(w.system) && Succeeds(d, w, side, f) && f.SendFrame?
    ensures AllSucceed(d, w, side, f.early) && w1 == ExecAll(d, w, side, f.early)
    ensures Outgoing(d.profiles.At(side), w1.system.At(side).pairs, f.send) == Some(tr)
    ensures Booted(w1.system) && AllSucceed(d, TakeStep(w1, side, tr), side, f.middle)
    ensures w2 == ExecAll(d, TakeStep(w1, side, tr), side, f.middle) && Booted(w2.system) && Burns(w2, side, tr)
    ensures AllSucceed(d, BurnStep(w2, side, tr), side, f.late)
    ensures w3 == ExecAll(d, BurnStep(w2, side, tr), side, f.late)
    ensures Exec(d, w, side, f) == EmitStep(w3, side, tr, f.send.receiver)
  {
    w1 := ExecAll(d, w, side, f.early);
    tr := Outgoing(d.profiles.At(side), w1.system.At(side).pairs, f.send).value;
    w2 := ExecAll(d, TakeStep(w1, side, tr), side, f.middle);
    w3 := ExecAll(d, BurnStep(w2, side, tr), side, f.late);
  }

  lemma {:induction false} SendTreeRuns(d: Deployment, w: World, side: Side, f: Frame)
    requires Booted(w.system) && Synced(w) && Succeeds(d, w, side, f) && f.SendFrame?
    ensures Did(d.profiles.At(side), w, Exec(d, w, side, f), side, SendsOf(f), ExecutedBy(f))
    decreases f, 0
  {
    var tr, w1, w2, w3 := SendStages(d, w, side, f);
    AllTreesRun(d, w, side, f.early);
    NestedStage(d, w, w1, side, TakeIn(w1.system.At(side).ledger, tr), f.middle,
                SendsOfAll(f.early), ExecutedByAll(f.early));
    NestedStage(d, w, w2, side, Burn(w2.system.At(side).ledger, tr), f.late,
                SendsOfAll(f.early) + SendsOfAll(f.middle), ExecutedByAll(f.early) + ExecutedByAll(f.middle));
    FinishSend(d, w, w3, side, f, w1.system.At(side).pairs, tr);
  }

  lemma FinishSend(d: Deployment, w: World, w3: World, side: Side, f: Frame, pairs: map<Token, Token>, tr: Transfer)
    requires Synced(w3) && f.SendFrame? && Outgoing(d.profiles.At(side), pairs, f.send) == Some(tr)
    requires Did(d.profiles.At(side), w, w3, side,
                 SendsOfAll(f.early) + SendsOfAll(f.middle) + SendsOfAll(f.late),
                 ExecutedByAll(f.early) + ExecutedByAll(f.middle) + ExecutedByAll(f.late))
    ensures Did(d.profiles.At(side), w, EmitStep(w3, side, tr, f.send.receiver), side, SendsOf(f), ExecutedBy(f))
  {
    DidEmit(d, w3, side, f.send, pairs, tr);
    DidThen(d.profiles.At(side), w, w3, EmitStep(w3, side, tr, f.send.receiver), side,
            SendsOfAll(f.early) + SendsOfAll(f.middle) + SendsOfAll(f.late),
            ExecutedByAll(f.early) + ExecutedByAll(f.middle) + ExecutedByAll(f.late), [f.send], []);
    assert ExecutedBy(f) + [] == ExecutedBy(f);
  }

  /** What a successful executing vote does, stage by stage. */
  lemma VoteStages(d: Deployment, w: World, side: Side, f: Frame) returns (w1: World, w2: World, l: Ledger)
    requires Booted(w.system) && Succeeds(d, w, side, f) && f.VoteFrame?
    ensures f.request.committee < |CoreAt(w, side).rosters|
    ensures ReachesQuorum(CoreAt(w, side), f.claimed, f.request, f.who)
    ensures w1 == VoteStep(w, side, f.claimed, f.request, f.who) && Booted(w1.system)
    ensures AllSucceed(d, w1, side, f.early) && w2 == ExecAll(d, w1, side, f.early) && Booted(w2.system)
    ensures AllSucceed(d, SetLedger(w2, side, l), side, f.late)
    ensures Exec(d, w, side, f) == ExecAll(d, SetLedger(w2, side, l), side, f.late)
  {
    w1 := VoteStep(w, side, f.claimed, f.request, f.who);
    w2 := ExecAll(d, w1, side, f.early);
    l := Payout(d, w2, side, f.request, f.delivery).value;
  }

  lemma {:induction false} VoteTreeRuns(d: Deployment, w: World, side: Side, f: Frame)
    requires Booted(w.system) && Synced(w) && Succeeds(d, w, side, f) && f.VoteFrame?
    ensures Did(d.profiles.At(side), w, Exec(d, w, side, f), side, SendsOf(f), ExecutedBy(f))
    decreases f, 0
  {
    var w1, w2, l := VoteStages(d, w, side, f);
    MarkedStage(d, w, side, f.claimed, f.request, f.who, f.early);
    NestedStage(d, w, w2, side, l, f.late, SendsOfAll(f.early), [f.request] + ExecutedByAll(f.early));
  }

  /** The request is marked, and then its early calls run. */
  lemma {:induction false} MarkedStage(d: Deployment, w: World, side: Side, claimed: Hash, request: Request,
                                       who: Account, frames: seq<Frame>)
    requires Booted(w.system) && Synced(w) && request.committee < |CoreAt(w, side).rosters|
    requires ReachesQuorum(CoreAt(w, side), claimed, request, who)
    requires var w1 := VoteStep(w, side, claimed, request, who);
             Booted(w1.system) && AllSucceed(d, w1, side, frames)
    ensures var w2 := ExecAll(d, VoteStep(w, side, claimed, request, who), side, frames);
            Synced(w2)
            && Did(d.profiles.At(side), w, w2, side, SendsOfAll(frames), [request] + ExecutedByAll(frames))
    decreases frames, 2
  {
    var w1 := VoteStep(w, side, claimed, request, who);
    DidVote(d, w, side, claimed, request, who);
    assert [] + SendsOfAll(frames) == SendsOfAll(frames);
    StageRuns(d, w, w1, side, frames, [], [request]);
  }

  /** Nested calls add what they do; `u` has the events and log that have been accounted for so far. */
  lemma {:induction false} StageRuns(d: Deployment, w: World, u: World, side: Side, frames: seq<Frame>,
                                     sends: seq<Send>, requests: seq<Request>)
    requires Booted(u.system) && Synced(u) && AllSucceed(d, u, side, frames)
    requires Did(d.profiles.At(side), w, u, side, sends, requests)
    ensures Did(d.profiles.At(side), w, ExecAll(d, u, side, frames), side, sends + SendsOfAll(frames),
                requests + ExecutedByAll(frames))
    ensures Synced(ExecAll(d, u, side, frames))
    decreases frames, 1
  {
    AllTreesRun(d, u, side, frames);
    DidThen(d.profiles.At(side), w, u, ExecAll(d, u, side, frames), side, sends, requests,
            SendsOfAll(frames), ExecutedByAll(frames));
  }

  /** Moving tokens adds nothing to events and log, and the calls nested after it add what they do. */
  lemma {:induction false} NestedStage(d: Deployment, w: World, u: World, side: Side, l: Ledger, frames: seq<Frame>,
                                       sends: seq<Send>, requests: seq<Request>)
    requires Booted(u.system) && Synced(u) && AllSucceed(d, SetLedger(u, side, l), side, frames)
    requires Did(d.profiles.At(side), w, u, side, sends, requests)
    ensures Did(d.profiles.At(side), w, ExecAll(d, SetLedger(u, side, l), side, frames), side,
                sends + SendsOfAll(frames), requests + ExecutedByAll(frames))
    ensures Synced(ExecAll(d, SetLedger(u, side, l), side, frames))
    decreases frames, 2
  {
    LedgerStage(d.profiles.At(side), w, u, side, l, sends, requests);
    StageRuns(d, w, SetLedger(u, side, l), side, frames, sends, requests);
  }

  lemma LedgerStage(p: Profile, w: World, u: World, side: Side, l: Ledger, sends: seq<Send>, requests: seq<Request>)
    requires Booted(u.system) && Synced(u) && Did(p, w, u, side, sends, requests)
    ensures var v := SetLedger(u, side, l); Booted(v.system) && Synced(v) && Did(p, w, v, side, sends, requests)
  {
    var v := SetLedger(u, side, l);
    assert CoreAt(v, side) == CoreAt(u, side) && CoreAt(v, side.Other()) == CoreAt(u, side.Other());
  }

  lemma {:induction false} AllTreesRun(d: Deployment, w: World, side: Side, frames: seq<Frame>)
    requires Booted(w.system) && Synced(w) && AllSucceed(d, w, side, frames)
    ensures Did(d.profiles.At(side), w, ExecAll(d, w, side, frames), side, SendsOfAll(frames), ExecutedByAll(frames))
    ensures Synced(ExecAll(d, w, side, frames))
    decreases frames, 0
  {
    if frames == [] {
      DidNothing(d.profiles.At(side), w, w, side);
    } else {
      var w1 := Exec(d, w, side, frames[0]);
      TreeRuns(d, w, side, frames[0]);
      var steps := Linearizes(d, w, side, frames[0]);
      AllTreesRun(d, w1, side, frames[1..]);
      DidThen(d.profiles.At(side), w, w1, ExecAll(d, w1, side, frames[1..]), side,
              SendsOf(frames[0]), ExecutedBy(frames[0]), SendsOfAll(frames[1..]), ExecutedByAll(frames[1..]));
    }
  }

  /** A call that fails in the end has done nothing, whatever was nested in it. */
  lemma RevertsUndo(d: Deployment, w: World, side: Side, f: Frame)
    requires Booted(w.system) && !f.PlainFrame? && f.reverts
    ensures Exec(d, w, side, f) == w
  {
  }

  /** A send that succeeds has let its early calls run to the end first: it does what they do, followed by the send
      without them -- unless they close the bridge, which a call that has entered does not notice any more. */
  lemma EarlyCallsFirst(d: Deployment, w: World, side: Side, send: Send, early: seq<Frame>, middle: seq<Frame>,
                        late: seq<Frame>)
    requires Booted(w.system) && Exec(d, w, side, SendFrame(send, early, middle, late, false)) != w
    requires !ExecAll(d, w, side, early).system.At(side).halted
    ensures Exec(d, w, side, SendFrame(send, early, middle, late, false))
            == Exec(d, ExecAll(d, w, side, early), side, SendFrame(send, [], middle, late, false))
  {
    var w1 := ExecAll(d, w, side, early);
    assert ExecAll(d, w1, side, []) == w1;
  }

  /** An executing vote that succeeds ends with its late calls: they run after the vote without them. */
  lemma LateCallsLast(d: Deployment, w: World, side: Side, who: Account, claimed: Hash, request: Request,
                      delivery: Delivery, early: seq<Frame>, late: seq<Frame>)
    requires Booted(w.system) && Succeeds(d, w, side, VoteFrame(who, claimed, request, delivery, early, late, false))
    ensures Exec(d, w, side, VoteFrame(who, claimed, request, delivery, early, late, false))
            == ExecAll(d, Exec(d, w, side, VoteFrame(who, claimed, request, delivery, early, [], false)), side, late)
  {
    var w2 := ExecAll(d, VoteStep(w, side, claimed, request, who), side, early);
    var w3 := SetLedger(w2, side, Payout(d, w2, side, request, delivery).value);
    assert ExecAll(d, w3, side, []) == w3;
  }

  lemma RunAllSnoc(d: Deployment, w: World, txs: seq<Transaction>, tx: Transaction)
    requires Booted(w.system)
    ensures RunAll(d, w, []) == w
    ensures RunAll(d, w, txs + [tx]) == Exec(d, RunAll(d, w, txs), tx.side, tx.call)
  {
    assert (txs + [tx])[..|txs|] == txs;
  }

  // --- calls without reentrancy are the moves of the protocol

  lemma StagesPayable(w: World, side: Side, tr: Transfer)
    ensures Takes(w, side, tr) && Burns(TakeStep(w, side, tr), side, tr) <==> Payable(w.system.At(side).ledger, tr)
  {
  }

  /** Taking in, burning and emitting without anything in between is what `Dispatch` does at once. */
  lemma StagesCollect(w: World, side: Side, tr: Transfer, receiver: Account)
    requires Synced(w) && Booted(w.system) && Takes(w, side, tr) && Burns(TakeStep(w, side, tr), side, tr)
    ensures var w' := BurnStep(TakeStep(w, side, tr), side, tr);
            var ch := w.system.At(side);
            && StampedEvent(w', side, tr, receiver) == NextEvent(ch.core, tr.dest, tr.amount, receiver)
            && Payable(ch.ledger, tr)
            && EmitStep(w', side, tr, receiver).system
               == w.system.With(side, ch.(core := EmitEvent(ch.core, tr.dest, tr.amount, receiver),
                                          ledger := Collect(ch.ledger, tr)))
  {
    var w' := BurnStep(TakeStep(w, side, tr), side, tr);
    assert Synced(w');
    EmitIsNext(w', side, tr, receiver);
  }

  /** A send with nothing nested in it, once the transfer is known. */
  lemma SendAlone(d: Deployment, w: World, side: Side, send: Send, tr: Transfer)
    requires Booted(w.system) && !w.system.At(side).halted && send.receiver != ZERO_ADDRESS
    requires Outgoing(d.profiles.At(side), w.system.At(side).pairs, send) == Some(tr)
    ensures Exec(d, w, side, SendFrame(send, [], [], [], false))
            == if Takes(w, side, tr) && Burns(TakeStep(w, side, tr), side, tr)
                  && Emits(d, BurnStep(TakeStep(w, side, tr), side, tr), side, tr, send.receiver)
               then EmitStep(BurnStep(TakeStep(w, side, tr), side, tr), side, tr, send.receiver) else w
  {
    assert ExecAll(d, w, side, []) == w;
    if Takes(w, side, tr) {
      var w2 := TakeStep(w, side, tr);
      assert ExecAll(d, w2, side, []) == w2;
      if Burns(w2, side, tr) {
        assert ExecAll(d, BurnStep(w2, side, tr), side, []) == BurnStep(w2, side, tr);
      }
    }
  }

  lemma AtomicSend(d: Deployment, w: World, side: Side, send: Send)
    requires Booted(w.system) && Synced(w)
    requires w.counters.At(side).requestNonce + 1 < NonceLimit(d.profiles.At(side))
    ensures Exec(d, w, side, SendFrame(send, [], [], [], false)).system
            == Apply(d, w.system, Move(side, Outbound(send)))
  {
    var ch := w.system.At(side);
    var o := Outgoing(d.profiles.At(side), ch.pairs, send);
    if ch.halted || send.receiver == ZERO_ADDRESS {
    } else if o.None? {
      assert ExecAll(d, w, side, []) == w;
    } else {
      SendAlone(d, w, side, send, o.value);
      StagesPayable(w, side, o.value);
      if Payable(ch.ledger, o.value) {
        StagesCollect(w, side, o.value, send.receiver);
      }
    }
  }

  /** Owner messages and movements of tokens are moves of the protocol, and a rotation bumps the stored committee id. */
  lemma AtomicPlain(d: Deployment, w: World, side: Side, action: Action)
    requires Booted(w.system) && Synced(w) && !action.Outbound? && !action.Guard?
    ensures var w' := Exec(d, w, side, PlainFrame(action));
            && w'.system == Apply(d, w.system, Move(side, action)) && Synced(w')
            && w'.counters.At(side.Other()) == w.counters.At(side.Other())
  {
  }

  lemma AtomicVote(d: Deployment, w: World, side: Side, who: Account, claimed: Hash, request: Request,
                   delivery: Delivery)
    requires Booted(w.system)
    ensures Exec(d, w, side, VoteFrame(who, claimed, request, delivery, [], [], false)).system
            == Apply(d, w.system, Move(side, Guard(who, claimed, request, delivery)))
  {
    if Votable(d, w.system, side, claimed, request, who) {
      var w1 := VoteStep(w, side, claimed, request, who);
      assert ExecAll(d, w1, side, []) == w1;
      var l := Payout(d, w1, side, request, delivery);
      if l.Some? {
        assert ExecAll(d, SetLedger(w1, side, l.value), side, []) == SetLedger(w1, side, l.value);
      }
    }
  }

  // --- runs of transactions

  /** A transaction on one of the chains: a call with everything nested in it. */
  datatype Transaction = Transaction(side: Side, call: Frame)

  ghost function RunAll(d: Deployment, w: World, txs: seq<Transaction>): (w': World)
    requires Booted(w.system)
    ensures Booted(w'.system)
    decreases |txs|
  {
    if txs == [] then w
    else
      var tx := txs[|txs| - 1];
      Exec(d, RunAll(d, w, txs[..|txs| - 1]), tx.side, tx.call)
  }

  lemma {:induction false} RunAllGains(d: Deployment, w: World, txs: seq<Transaction>, home: Side, t: Token)
    requires WellDeployed(d) && Good(d, w)
    ensures Gains(d, w, RunAll(d, w, txs), home, t, 0)
    decreases |txs|
  {
    if txs != [] {
      var tx := txs[|txs| - 1];
      var w1 := RunAll(d, w, txs[..|txs| - 1]);
      RunAllGains(d, w, txs[..|txs| - 1], home, t);
      ExecGains(d, w1, tx.side, tx.call, home, t);
      GainsAdd(d, w, w1, RunAll(d, w, txs), home, t, 0, 0);
    }
  }

  /** Freshly deployed contracts: no events, committee 0. */
  ghost predicate Deployed(d: Deployment, w: World) {
    Genesis(d, w.system) && w.counters == Pair(Counters(0, 0), Counters(0, 0))
  }

  lemma DeployedGood(d: Deployment, w: World)
    requires Deployed(d, w)
    ensures Good(d, w)
  {
    GenesisInv(d, w.system);
    forall side ensures w.system.At(side).core.events == [] {
    }
  }

  /** Nonce discipline in every run of transactions with calls re-entering to any depth: the stored nonce is the number
      of events, the k-th event carries nonce k - 1, and no two events are equal. */
  lemma NoncesUnderReentrancy(d: Deployment, w: World, txs: seq<Transaction>, side: Side)
    requires WellDeployed(d) && Deployed(d, w)
    ensures var u := RunAll(d, w, txs);
            var events := u.system.At(side).core.events;
            && u.counters.At(side).requestNonce == |events|
            && (forall i | 0 <= i < |events| :: events[i].nonce == i)
            && Distinct(events)
  {
    DeployedGood(d, w);
    RunAllGains(d, w, txs, side, 0);
    assert SideInv(d, RunAll(d, w, txs).system, side);
    DistinctEvents(d, RunAll(d, w, txs).system, side);
  }

  /** Authenticity and at-most-once in every run of transactions with reentrant calls, on either side of any
      deployment: every executed request is an event of the other chain, and none executes twice. */
  lemma AuthenticUnderReentrancy(d: Deployment, w: World, txs: seq<Transaction>, side: Side)
    requires WellDeployed(d) && Deployed(d, w)
    ensures var u := RunAll(d, w, txs).system;
            && (forall r | r in u.At(side).core.log :: r in u.At(side.Other()).core.events)
            && Distinct(u.At(side).core.log)
  {
    DeployedGood(d, w);
    RunAllGains(d, w, txs, side, 0);
    LogIsAuthentic(d, RunAll(d, w, txs).system, side);
    assert SideInv(d, RunAll(d, w, txs).system, side);
  }

  /** Backing in every run of transactions with reentrant calls. */
  lemma BackedUnderReentrancy(d: Deployment, w: World, txs: seq<Transaction>, home: Side, t: Token)
    requires WellDeployed(d) && Deployed(d, w) && HomeAsset(d, home, t)
    requires Supply(w.system.At(home.Other()).ledger, d.twin.At(home)[t]) == 0
    ensures var u := RunAll(d, w, txs).system;
            && Backed(d, u, home, t)
            && (forall side, r | r in u.At(side).core.log :: r in u.At(side.Other()).core.events)
            && (forall side :: Distinct(u.At(side).core.log))
  {
    DeployedGood(d, w);
    GenesisBacked(d, w.system, home, t);
    RunAllGains(d, w, txs, home, t);
    AuthenticUnderReentrancy(d, w, txs, A);
    AuthenticUnderReentrancy(d, w, txs, B);
  }
}
