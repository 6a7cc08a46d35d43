/** Wrapped supply is always backed by locked tokens on the other side.

    For every bridged asset, with home token `t` on side `home` and wrapped token `w` on the other side,
    the slack

      scale * held(t) - supply(w) - (in flight towards w) - (in flight towards t)

    never decreases; each move raises it by an amount that is stated exactly. */
module Backing {
  import opened Types
  import opened Collector
  import opened Treasury
  import opened Protocol

  /** Units of the wrapped token per unit of the home token. */
  function Scale(p: Profile, t: Token): (k: nat)
    ensures k >= 1
  {
    if p.flavour.InkL1? && t == p.native then RATIO else 1
  }

  // --- every emitted request asks the other side for the counterpart of what was taken in

  /** The request `(dest, amount)`, arriving at `p`, pays out bridged token `t`: mints exactly `amount` if
      `t` is a wrapped token, releases `amount` divided by the scale if it is at home there. */
  ghost predicate Pays(p: Profile, dest: Token, amount: nat, t: Token) {
    var pay := Incoming(p, dest, amount);
    && pay.token == t
    && pay.Mint? == !IsLocal(p, t)
    && pay.qty == (if IsLocal(p, t) then amount / Scale(p, t) else amount)
  }

  /** What a send takes in: a local token is only locked, at least as much as is promised; a wrapped token is
      only burned, exactly as much as is promised. */
  ghost predicate Fair(p: Profile, t: Transfer) {
    if IsLocal(p, t.token) then t.burn == 0 && t.amount <= Scale(p, t.token) * (t.deposit + t.pull)
    else t.deposit == 0 && t.pull == t.burn == t.amount
  }

  /** What a send takes in is fair, and its request pays out the counterpart on the other side. */
  ghost predicate Mirrors(d: Deployment, side: Side, t: Transfer) {
    && t.token in d.twin.At(side)
    && d.twin.At(side)[t.token] in d.twin.At(side.Other())
    && Fair(d.profiles.At(side), t)
    && Pays(d.profiles.At(side.Other()), t.dest, t.amount, d.twin.At(side)[t.token])
  }

  lemma TwinsMirror(d: Deployment, side: Side, t: Token)
    requires WellDeployed(d) && t in d.twin.At(side)
    ensures MirroredToken(d, side, t) && MirroredToken(d, side.Other(), d.twin.At(side)[t])
  {
  }

  lemma MirroredTransfer(d: Deployment, side: Side, pairs: map<Token, Token>, send: Send)
    requires WellDeployed(d) && PairsAgree(d, side, pairs)
    requires Outgoing(d.profiles.At(side), pairs, send).Some?
    ensures Mirrors(d, side, Outgoing(d.profiles.At(side), pairs, send).value)
  {
    match send
    case SendToken(_, _, _) => MirroredSendToken(d, side, pairs, send);
    case SendNative(_, _) => MirroredSendNative(d, side, pairs, send);
    case SendToNative(_, _) => MirroredSendToNative(d, side, pairs, send);
  }

  lemma MirroredSendToken(d: Deployment, side: Side, pairs: map<Token, Token>, send: Send)
    requires WellDeployed(d) && PairsAgree(d, side, pairs) && send.SendToken?
    requires Outgoing(d.profiles.At(side), pairs, send).Some?
    ensures Mirrors(d, side, Outgoing(d.profiles.At(side), pairs, send).value)
  {
    TwinsMirror(d, side, send.token);
  }

  lemma MirroredSendNative(d: Deployment, side: Side, pairs: map<Token, Token>, send: Send)
    requires WellDeployed(d) && PairsAgree(d, side, pairs) && send.SendNative?
    requires Outgoing(d.profiles.At(side), pairs, send).Some?
    ensures Mirrors(d, side, Outgoing(d.profiles.At(side), pairs, send).value)
  {
    NativeIsTwinned(d, side);
    TwinsMirror(d, A, d.profiles.a.native);
    TwinsMirror(d, side, d.profiles.At(side).native);
  }

  lemma MirroredSendToNative(d: Deployment, side: Side, pairs: map<Token, Token>, send: Send)
    requires WellDeployed(d) && PairsAgree(d, side, pairs) && send.SendToNative?
    requires Outgoing(d.profiles.At(side), pairs, send).Some?
    ensures Mirrors(d, side, Outgoing(d.profiles.At(side), pairs, send).value)
  {
    NativeIsTwinned(d, side.Other());
    TwinsMirror(d, side.Other(), d.profiles.At(side.Other()).native);
    assert side.Other().Other() == side;
  }

  lemma NativeIsTwinned(d: Deployment, side: Side)
    requires WellDeployed(d)
    ensures d.profiles.At(side).native in d.twin.At(side)
  {
    assert MirroredToken(d, A, d.profiles.a.native);
  }

  ghost predicate RoutedRequest(d: Deployment, side: Side, e: Request) {
    var p := d.profiles.At(side.Other());
    var t := Incoming(p, e.token, e.amount).token;
    t in d.twin.At(side.Other()) && Pays(p, e.token, e.amount, t)
  }

  /** Every event of either chain is payable in a bridged token on the other one. */
  ghost predicate Routed(d: Deployment, s: System) {
    forall side, e | e in s.At(side).core.events :: RoutedRequest(d, side, e)
  }

  lemma ApplyKeepsRouted(d: Deployment, s: System, m: Move)
    requires WellDeployed(d) && Inv(d, s) && Routed(d, s)
    ensures Routed(d, Apply(d, s, m))
  {
    var p, ch := d.profiles.At(m.side), s.At(m.side);
    assert SideInv(d, s, m.side);
    if Allowed(d, s, m) && m.action.Outbound? && Dispatch(p, ch, m.action.send).Some? {
      MirroredTransfer(d, m.side, ch.pairs, m.action.send);
    }
  }

  lemma {:induction false} RunKeepsRouted(d: Deployment, s: System, moves: seq<Move>)
    requires WellDeployed(d) && Inv(d, s) && Routed(d, s)
    ensures Routed(d, Run(d, s, moves))
    decreases |moves|
  {
    if moves != [] {
      RunKeeps(d, s, moves[..|moves| - 1]);
      RunKeepsRouted(d, s, moves[..|moves| - 1]);
      ApplyKeepsRouted(d, Run(d, s, moves[..|moves| - 1]), moves[|moves| - 1]);
    }
  }

  // --- amounts in flight

  function Worth(target: Profile, t: Token, e: Request): nat {
    if Incoming(target, e.token, e.amount).token == t then e.amount else 0
  }

  /** Sum of the amounts promised in token `t` by events that the target has not executed. */
  function InFlight(target: Profile, executed: set<Hash>, events: seq<Request>, t: Token): nat
    decreases |events|
  {
    if events == [] then 0
    else
      var e := events[|events| - 1];
      InFlight(target, executed, events[..|events| - 1], t)
      + if target.scheme.hash(e) in executed then 0 else Worth(target, t, e)
  }

  lemma {:induction false} InFlightOfOthers(target: Profile, executed: set<Hash>, h: Hash, events: seq<Request>,
                                            t: Token)
    requires forall i | 0 <= i < |events| :: target.scheme.hash(events[i]) != h
    ensures InFlight(target, executed + {h}, events, t) == InFlight(target, executed, events, t)
    decreases |events|
  {
    if events != [] {
      InFlightOfOthers(target, executed, h, events[..|events| - 1], t);
    }
  }

  /** Executing one event takes exactly its amount out of flight. */
  lemma {:induction false} InFlightExecute(target: Profile, executed: set<Hash>, events: seq<Request>, k: nat, t: Token)
    requires CollisionFree(target.scheme) && EventsOccur(target, events) && Distinct(events)
    requires k < |events| && target.scheme.hash(events[k]) !in executed
    ensures InFlight(target, executed, events, t)
            == InFlight(target, executed + {target.scheme.hash(events[k])}, events, t) + Worth(target, t, events[k])
    decreases |events|
  {
    var h := target.scheme.hash(events[k]);
    var last := |events| - 1;
    if k == last {
      forall i | 0 <= i < last ensures target.scheme.hash(events[..last][i]) != h {
        assert events[i] != events[k];
      }
      InFlightOfOthers(target, executed, h, events[..last], t);
    } else {
      InFlightExecute(target, executed, events[..last], k, t);
      assert events[k] != events[last];
    }
  }

  // --- the slack of an asset

  /** `p`, `ch`, `t`: the home side; `p'`, `ch'`, `w`: the side of the wrapped token. */
  ghost function SlackOf(p: Profile, p': Profile, ch: Chain, ch': Chain, t: Token, w: Token): int {
    Scale(p, t) * Held(ch.ledger, t) - Supply(ch'.ledger, w)
    - InFlight(p', ch'.core.executed, ch.core.events, w) - InFlight(p, ch.core.executed, ch'.core.events, t)
  }

  ghost function Slack(d: Deployment, s: System, home: Side, t: Token): int
    requires t in d.twin.At(home)
  {
    SlackOf(d.profiles.At(home), d.profiles.At(home.Other()), s.At(home), s.At(home.Other()), t, d.twin.At(home)[t])
  }

  ghost predicate HomeAsset(d: Deployment, home: Side, t: Token) {
    t in d.twin.At(home) && IsLocal(d.profiles.At(home), t)
  }

  /** What an incoming request for home token `t` leaves behind: nothing, except the remainder of the division
      by the scale, or the whole amount when the payout was refused or went to the bridge itself. */
  ghost function Leftover(p: Profile, request: Request, delivery: Delivery): nat {
    var pay := Incoming(p, request.token, request.amount);
    match pay
    case Unwrap(t, _) => request.amount % Scale(p, t)
    case Release(_, _) =>
      if delivery.Refused? || PaysSelf(p, request, delivery) then request.amount else 0
    case Mint(_, _) => 0
  }

  /** By how much the scaled value of what a transfer takes in exceeds what it promises. */
  ghost function TransferSurplus(p: Profile, tr: Transfer, t: Token): int {
    if tr.token == t then Scale(p, t) * (tr.deposit + tr.pull) - tr.amount else 0
  }

  ghost function ActionSurplus(p: Profile, ch: Chain, action: Action, t: Token): int
    requires |ch.core.rosters| > 0 && Perform(p, ch, action).Some?
  {
    match action
    case Outbound(send) =>
      TransferSurplus(p, Outgoing(p, ch.pairs, send).value, t)
    case Guard(who, claimed, request, delivery) =>
      if ReachesQuorum(ch.core, claimed, request, who) && Incoming(p, request.token, request.amount).token == t
      then Leftover(p, request, delivery) else 0
    case Outside(ledger) => Scale(p, t) * (Held(ledger, t) - Held(ch.ledger, t))
    case _ => 0
  }

  /** By how much a move raises the slack of home token `t`. */
  ghost function Surplus(d: Deployment, s: System, m: Move, home: Side, t: Token): int
    requires Booted(s)
  {
    var p, ch := d.profiles.At(m.side), s.At(m.side);
    if m.side != home || !Allowed(d, s, m) || Perform(p, ch, m.action).None? then 0
    else ActionSurplus(p, ch, m.action, t)
  }

  lemma OutboundSurplus(d: Deployment, side: Side, ch: Chain, send: Send, t: Token)
    requires WellDeployed(d) && HomeAsset(d, side, t) && PairsAgree(d, side, ch.pairs)
    requires |ch.core.rosters| > 0 && Dispatch(d.profiles.At(side), ch, send).Some?
    ensures ActionSurplus(d.profiles.At(side), ch, Outbound(send), t) >= 0
  {
    MirroredTransfer(d, side, ch.pairs, send);
  }

  lemma SurplusIsNeverNegative(d: Deployment, s: System, m: Move, t: Token)
    requires WellDeployed(d) && Inv(d, s) && Allowed(d, s, m) && HomeAsset(d, m.side, t)
    requires Perform(d.profiles.At(m.side), s.At(m.side), m.action).Some?
    ensures ActionSurplus(d.profiles.At(m.side), s.At(m.side), m.action, t) >= 0
  {
    match m.action
    case Outbound(send) =>
      assert SideInv(d, s, m.side);
      OutboundSurplus(d, m.side, s.At(m.side), send, t);
    case Outside(ledger) => assert Held(s.At(m.side).ledger, t) <= Held(ledger, t);
    case _ =>
  }

  lemma DistinctEvents(d: Deployment, s: System, side: Side)
    requires Inv(d, s)
    ensures Distinct(s.At(side).core.events)
  {
    var events := s.At(side).core.events;
    assert SideInv(d, s, side);
    forall i, j | 0 <= i < j < |events| ensures events[i] != events[j] {
      assert events[i].nonce == i && events[j].nonce == j;
    }
  }

  // --- what the parts of a message do to the slack

  /** The token on `side` that belongs to the asset with home token `t`. */
  function AssetAt(d: Deployment, home: Side, t: Token, side: Side): Token
    requires t in d.twin.At(home)
  {
    if side == home then t else d.twin.At(home)[t]
  }

  lemma AssetTwin(d: Deployment, home: Side, t: Token, side: Side)
    requires WellDeployed(d) && HomeAsset(d, home, t)
    ensures var w := AssetAt(d, home, t, side);
            && w in d.twin.At(side) && d.twin.At(side)[w] == AssetAt(d, home, t, side.Other())
            && IsLocal(d.profiles.At(side), w) == (side == home)
  {
    assert MirroredToken(d, home, t);
  }

  /** What a ledger contributes to the slack: scaled holdings at home, supply of the wrapped token abroad. */
  ghost function Contribution(d: Deployment, home: Side, t: Token, side: Side, l: Ledger): int
    requires t in d.twin.At(home)
  {
    if side == home then Scale(d.profiles.At(home), t) * Held(l, t) else 0 - Supply(l, d.twin.At(home)[t])
  }

  lemma LedgerChange(d: Deployment, s: System, side: Side, l: Ledger, home: Side, t: Token)
    requires t in d.twin.At(home)
    ensures Slack(d, s.With(side, s.At(side).(ledger := l)), home, t)
            == Slack(d, s, home, t)
               + Contribution(d, home, t, side, l) - Contribution(d, home, t, side, s.At(side).ledger)
  {
  }

  lemma ScaleDistributes(p: Profile, t: Token, x: nat, y: nat)
    ensures Scale(p, t) * (x + y) == Scale(p, t) * x + Scale(p, t) * y
  {
  }

  /** Taking in a fair transfer contributes its scaled value at home and nothing abroad. */
  lemma TakeInChange(d: Deployment, home: Side, t: Token, side: Side, l: Ledger, tr: Transfer)
    requires WellDeployed(d) && HomeAsset(d, home, t) && Fair(d.profiles.At(side), tr)
    ensures Contribution(d, home, t, side, TakeIn(l, tr)) == Contribution(d, home, t, side, l)
              + if side == home && tr.token == t then Scale(d.profiles.At(home), t) * (tr.deposit + tr.pull) else 0
  {
    AssetTwin(d, home, t, side);
    if side == home && tr.token == t {
      ScaleDistributes(d.profiles.At(home), t, Held(l, t), tr.deposit + tr.pull);
    }
  }

  /** Burning contributes the burned amount abroad; at home nothing is burned. */
  lemma BurnChange(d: Deployment, home: Side, t: Token, side: Side, l: Ledger, tr: Transfer)
    requires WellDeployed(d) && HomeAsset(d, home, t) && Fair(d.profiles.At(side), tr)
    requires tr.burn <= Held(l, tr.token) && tr.burn <= Supply(l, tr.token)
    ensures Contribution(d, home, t, side, Burn(l, tr)) == Contribution(d, home, t, side, l)
              + if side != home && tr.token == AssetAt(d, home, t, side) then tr.amount else 0
  {
    AssetTwin(d, home, t, side);
  }

  /** The request emitted for `tr` is worth its amount in the twin of `tr.token`, and nothing in other tokens. */
  lemma TransferWorth(d: Deployment, side: Side, tr: Transfer, e: Request, t: Token)
    requires WellDeployed(d) && t in d.twin.At(side) && tr.token in d.twin.At(side)
    requires e.token == tr.dest && e.amount == tr.amount
    requires Pays(d.profiles.At(side.Other()), tr.dest, tr.amount, d.twin.At(side)[tr.token])
    ensures Worth(d.profiles.At(side.Other()), d.twin.At(side)[t], e) == if tr.token == t then tr.amount else 0
  {
    assert MirroredToken(d, side, t) && MirroredToken(d, side, tr.token);
  }

  ghost predicate EventOccurs(d: Deployment, s: System, side: Side, tr: Transfer, receiver: Account)
    requires Booted(s)
  {
    NextEvent(s.At(side).core, tr.dest, tr.amount, receiver) in d.profiles.At(side.Other()).scheme.occurs
  }

  /** A hash of an event yet to be emitted is not executed, because executed requests are older events. */
  lemma FreshEventUnexecuted(d: Deployment, s: System, side: Side, tr: Transfer, receiver: Account)
    requires WellDeployed(d) && Inv(d, s) && EventOccurs(d, s, side, tr, receiver)
    ensures d.profiles.At(side.Other()).scheme.hash(NextEvent(s.At(side).core, tr.dest, tr.amount, receiver))
            !in s.At(side.Other()).core.executed
  {
    var core, target := s.At(side).core, s.At(side.Other()).core;
    var p' := d.profiles.At(side.Other());
    var e := NextEvent(core, tr.dest, tr.amount, receiver);
    assert SideInv(d, s, side) && SideInv(d, s, side.Other());
    if p'.scheme.hash(e) in target.executed {
      QuorumIsAuthentic(p', target, core.events, p'.scheme.hash(e));
      SameRequest(p'.scheme, target, p'.scheme.hash(e), e);
      assert false;
    }
  }

  /** A fresh event is in flight with its whole worth. */
  lemma FreshEventInFlight(d: Deployment, s: System, side: Side, tr: Transfer, receiver: Account, w: Token)
    requires WellDeployed(d) && Inv(d, s) && EventOccurs(d, s, side, tr, receiver)
    ensures var core, target := s.At(side).core, s.At(side.Other()).core;
            var p' := d.profiles.At(side.Other());
            InFlight(p', target.executed, EmitEvent(core, tr.dest, tr.amount, receiver).events, w)
            == InFlight(p', target.executed, core.events, w)
               + Worth(p', w, NextEvent(core, tr.dest, tr.amount, receiver))
  {
    var core := s.At(side).core;
    FreshEventUnexecuted(d, s, side, tr, receiver);
    assert EmitEvent(core, tr.dest, tr.amount, receiver).events[..|core.events|] == core.events;
  }

  function Emitted(s: System, side: Side, tr: Transfer, receiver: Account): System
    requires |s.At(side).core.rosters| > 0
  {
    s.With(side, s.At(side).(core := EmitEvent(s.At(side).core, tr.dest, tr.amount, receiver)))
  }

  /** Emitting a request takes what it promises out of the slack of its asset. */
  lemma EmitChange(d: Deployment, s: System, side: Side, tr: Transfer, receiver: Account, home: Side, t: Token)
    requires WellDeployed(d) && Inv(d, s) && HomeAsset(d, home, t) && EventOccurs(d, s, side, tr, receiver)
    requires Mirrors(d, side, tr)
    ensures Slack(d, Emitted(s, side, tr, receiver), home, t)
            == Slack(d, s, home, t) - if tr.token == AssetAt(d, home, t, side) then tr.amount else 0
  {
    var w := AssetAt(d, home, t, side);
    AssetTwin(d, home, t, side);
    TransferWorth(d, side, tr, NextEvent(s.At(side).core, tr.dest, tr.amount, receiver), w);
    FreshEventInFlight(d, s, side, tr, receiver, AssetAt(d, home, t, side.Other()));
  }

  ghost predicate Votable(d: Deployment, s: System, side: Side, claimed: Hash, request: Request, who: Account) {
    var p := d.profiles.At(side);
    && Accepts(p.scheme.hash, s.At(side).core, claimed, request, who)
    && request in p.scheme.occurs && (who in p.faulty || request in s.At(side.Other()).core.events)
  }

  /** A vote that reaches the quorum is for an event of the other chain. */
  lemma ExecutedIsEvent(d: Deployment, s: System, side: Side, claimed: Hash, request: Request, who: Account)
    requires WellDeployed(d) && Inv(d, s) && Votable(d, s, side, claimed, request, who)
    requires ReachesQuorum(s.At(side).core, claimed, request, who)
    ensures request in s.At(side.Other()).core.events
  {
    var ch := s.At(side).(core := Cast(s.At(side).core, claimed, request, who));
    assert SideInv(d, s, side);
    GuardKeepsSide(d, s, side, ch, claimed, request, who);
    QuorumIsAuthentic(d.profiles.At(side), ch.core, s.At(side.Other()).core.events, claimed);
  }

  /** An executing vote at `side` takes its request, an event of the other chain, out of flight. */
  lemma ExecutedLeavesFlight(d: Deployment, s: System, side: Side, claimed: Hash, request: Request, who: Account,
                             t: Token)
    requires WellDeployed(d) && Inv(d, s) && Votable(d, s, side, claimed, request, who)
    requires ReachesQuorum(s.At(side).core, claimed, request, who)
    ensures var p, core, events := d.profiles.At(side), s.At(side).core, s.At(side.Other()).core.events;
            && request in events
            && InFlight(p, core.executed, events, t)
               == InFlight(p, core.executed + {claimed}, events, t) + Worth(p, t, request)
  {
    var p, core, events := d.profiles.At(side), s.At(side).core, s.At(side.Other()).core.events;
    ExecutedIsEvent(d, s, side, claimed, request, who);
    var k :| 0 <= k < |events| && events[k] == request;
    DistinctEvents(d, s, side.Other());
    assert side.Other().Other() == side && SideInv(d, s, side.Other());
    InFlightExecute(p, core.executed, events, k, t);
  }

  function Voted(s: System, side: Side, claimed: Hash, request: Request, who: Account): System
    requires request.committee < |s.At(side).core.rosters|
  {
    s.With(side, s.At(side).(core := Cast(s.At(side).core, claimed, request, who)))
  }

  /** Until it is paid out, an executed request adds its worth to the slack of its asset; any other vote adds
      nothing. */
  lemma VoteChange(d: Deployment, s: System, side: Side, claimed: Hash, request: Request, who: Account, home: Side,
                   t: Token)
    requires WellDeployed(d) && Inv(d, s) && HomeAsset(d, home, t) && Votable(d, s, side, claimed, request, who)
    ensures Slack(d, Voted(s, side, claimed, request, who), home, t) == Slack(d, s, home, t)
              + if ReachesQuorum(s.At(side).core, claimed, request, who)
                then Worth(d.profiles.At(side), AssetAt(d, home, t, side), request) else 0
  {
    if ReachesQuorum(s.At(side).core, claimed, request, who) {
      ExecutedLeavesFlight(d, s, side, claimed, request, who, AssetAt(d, home, t, side));
    }
  }

  /** What paying out a request does to the bridge's holding of a home token. */
  lemma HomePayment(p: Profile, l: Ledger, request: Request, delivery: Delivery, l': Ledger, t: Token)
    requires Pay(p, l, Incoming(p, request.token, request.amount), PaysSelf(p, request, delivery), delivery) == Some(l')
    requires IsLocal(p, t) && Pays(p, request.token, request.amount, Incoming(p, request.token, request.amount).token)
    ensures Scale(p, t) * Held(l', t) + Worth(p, t, request)
            == Scale(p, t) * Held(l, t)
               + if Incoming(p, request.token, request.amount).token == t then Leftover(p, request, delivery) else 0
  {
    if Incoming(p, request.token, request.amount).token == t {
      if Scale(p, t) == 1 {
        assert request.amount / 1 == request.amount;
      } else {
        assert Scale(p, t) == RATIO;
      }
    }
  }

  /** Paying out a request raises the supply of a wrapped token by exactly what it promised in it. */
  lemma WrappedPayment(p: Profile, l: Ledger, request: Request, delivery: Delivery, l': Ledger, w: Token)
    requires Pay(p, l, Incoming(p, request.token, request.amount), PaysSelf(p, request, delivery), delivery) == Some(l')
    requires !IsLocal(p, w) && Pays(p, request.token, request.amount, Incoming(p, request.token, request.amount).token)
    ensures Supply(l', w) == Supply(l, w) + Worth(p, w, request)
  {
  }

  /** Paying out takes the worth of the request out of the slack again, except for what is left behind at home. */
  lemma PaymentChange(d: Deployment, home: Side, t: Token, side: Side, l: Ledger, request: Request, delivery: Delivery,
                      l': Ledger)
    requires WellDeployed(d) && HomeAsset(d, home, t) && RoutedRequest(d, side.Other(), request)
    requires Pay(d.profiles.At(side), l, Incoming(d.profiles.At(side), request.token, request.amount),
                 PaysSelf(d.profiles.At(side), request, delivery), delivery) == Some(l')
    ensures var p := d.profiles.At(side);
            Contribution(d, home, t, side, l') == Contribution(d, home, t, side, l)
              - Worth(p, AssetAt(d, home, t, side), request)
              + if side == home && Incoming(p, request.token, request.amount).token == t
                then Leftover(p, request, delivery) else 0
  {
    var p := d.profiles.At(side);
    assert side.Other().Other() == side;
    AssetTwin(d, home, t, side);
    if side == home {
      HomePayment(p, l, request, delivery, l', t);
    } else {
      WrappedPayment(p, l, request, delivery, l', AssetAt(d, home, t, side));
    }
  }

  // --- one move

  /** An allowed send that succeeds collects a mirrored transfer and emits its request. */
  lemma OutboundChange(d: Deployment, s: System, m: Move) returns (tr: Transfer)
    requires WellDeployed(d) && Inv(d, s) && m.action.Outbound? && Allowed(d, s, m)
    requires Dispatch(d.profiles.At(m.side), s.At(m.side), m.action.send).Some?
    ensures Outgoing(d.profiles.At(m.side), s.At(m.side).pairs, m.action.send) == Some(tr)
    ensures Payable(s.At(m.side).ledger, tr) && Mirrors(d, m.side, tr)
    ensures EventOccurs(d, s, m.side, tr, m.action.send.receiver)
    ensures var u := Emitted(s, m.side, tr, m.action.send.receiver);
            Apply(d, s, m) == u.With(m.side, u.At(m.side).(ledger := Collect(s.At(m.side).ledger, tr)))
  {
    tr := Outgoing(d.profiles.At(m.side), s.At(m.side).pairs, m.action.send).value;
    assert SideInv(d, s, m.side);
    MirroredTransfer(d, m.side, s.At(m.side).pairs, m.action.send);
  }

  lemma CollectChange(d: Deployment, home: Side, t: Token, side: Side, l: Ledger, tr: Transfer)
    requires WellDeployed(d) && HomeAsset(d, home, t) && Fair(d.profiles.At(side), tr) && Payable(l, tr)
    ensures Contribution(d, home, t, side, Collect(l, tr)) == Contribution(d, home, t, side, l)
              + (if tr.token == AssetAt(d, home, t, side) then tr.amount else 0)
              + (if side == home then TransferSurplus(d.profiles.At(home), tr, t) else 0)
  {
    TakeInChange(d, home, t, side, l, tr);
    BurnChange(d, home, t, side, TakeIn(l, tr), tr);
  }

  /** A send raises the slack by its surplus at home, and not at all abroad. */
  lemma OutboundSlack(d: Deployment, s: System, m: Move, home: Side, t: Token)
    requires WellDeployed(d) && Inv(d, s) && HomeAsset(d, home, t) && m.action.Outbound? && Allowed(d, s, m)
    requires Dispatch(d.profiles.At(m.side), s.At(m.side), m.action.send).Some?
    ensures Slack(d, Apply(d, s, m), home, t) == Slack(d, s, home, t) + Surplus(d, s, m, home, t)
  {
    var tr := OutboundChange(d, s, m);
    var receiver, l := m.action.send.receiver, s.At(m.side).ledger;
    EmitChange(d, s, m.side, tr, receiver, home, t);
    LedgerChange(d, Emitted(s, m.side, tr, receiver), m.side, Collect(l, tr), home, t);
    CollectChange(d, home, t, m.side, l, tr);
  }

  /** An accepted vote changes the core as `Cast` does, and pays out if it reaches the quorum. */
  lemma GuardChange(d: Deployment, s: System, m: Move)
    requires Booted(s) && m.action.Guard? && Allowed(d, s, m)
    requires Perform(d.profiles.At(m.side), s.At(m.side), m.action).Some?
    ensures var Guard(who, claimed, request, delivery) := m.action;
            var p, ch, l := d.profiles.At(m.side), s.At(m.side), Apply(d, s, m).At(m.side).ledger;
            && Votable(d, s, m.side, claimed, request, who)
            && (var u := Voted(s, m.side, claimed, request, who);
                Apply(d, s, m) == u.With(m.side, u.At(m.side).(ledger := l)))
            && (if ReachesQuorum(ch.core, claimed, request, who)
                then Pay(p, ch.ledger, Incoming(p, request.token, request.amount),
                         PaysSelf(p, request, delivery), delivery) == Some(l)
                else l == ch.ledger)
  {
  }

  /** A vote raises the slack by what an executed request leaves behind at home, and not at all abroad. */
  lemma GuardSlack(d: Deployment, s: System, m: Move, home: Side, t: Token)
    requires WellDeployed(d) && Inv(d, s) && Routed(d, s) && HomeAsset(d, home, t) && m.action.Guard?
             && Allowed(d, s, m)
    requires Perform(d.profiles.At(m.side), s.At(m.side), m.action).Some?
    ensures Slack(d, Apply(d, s, m), home, t) == Slack(d, s, home, t) + Surplus(d, s, m, home, t)
  {
    var Guard(who, claimed, request, delivery) := m.action;
    var l, l' := s.At(m.side).ledger, Apply(d, s, m).At(m.side).ledger;
    GuardChange(d, s, m);
    VoteChange(d, s, m.side, claimed, request, who, home, t);
    LedgerChange(d, Voted(s, m.side, claimed, request, who), m.side, l', home, t);
    if ReachesQuorum(s.At(m.side).core, claimed, request, who) {
      ExecutedIsEvent(d, s, m.side, claimed, request, who);
      assert RoutedRequest(d, m.side.Other(), request);
      PaymentChange(d, home, t, m.side, l, request, delivery, l');
    }
  }

  lemma OutsideSlack(d: Deployment, s: System, m: Move, home: Side, t: Token)
    requires WellDeployed(d) && Inv(d, s) && HomeAsset(d, home, t) && m.action.Outside? && Allowed(d, s, m)
    ensures Slack(d, Apply(d, s, m), home, t) == Slack(d, s, home, t) + Surplus(d, s, m, home, t)
  {
    var p, l := d.profiles.At(m.side), s.At(m.side).ledger;
    AssetTwin(d, home, t, m.side);
    LedgerChange(d, s, m.side, m.action.ledger, home, t);
    assert Held(l, t) <= Held(m.action.ledger, t);
    if m.side == home {
      ScaleDistributes(p, t, Held(l, t), Held(m.action.ledger, t) - Held(l, t));
    }
  }

  /** Rotations, pairs and halting do not touch the slack. */
  lemma QuietSlack(d: Deployment, s: System, m: Move, home: Side, t: Token)
    requires Booted(s) && t in d.twin.At(home) && (m.action.Rotate? || m.action.SetPairs? || m.action.SetHalted?)
    ensures Slack(d, Apply(d, s, m), home, t) == Slack(d, s, home, t) && Surplus(d, s, m, home, t) == 0
  {
  }

  lemma SlackChange(d: Deployment, s: System, m: Move, home: Side, t: Token)
    requires WellDeployed(d) && Inv(d, s) && Routed(d, s) && HomeAsset(d, home, t)
    requires Allowed(d, s, m) && Perform(d.profiles.At(m.side), s.At(m.side), m.action).Some?
    ensures Slack(d, Apply(d, s, m), home, t) == Slack(d, s, home, t) + Surplus(d, s, m, home, t)
  {
    match m.action
    case Outbound(_) => OutboundSlack(d, s, m, home, t);
    case Guard(_, _, _, _) => GuardSlack(d, s, m, home, t);
    case Outside(_) => OutsideSlack(d, s, m, home, t);
    case _ => QuietSlack(d, s, m, home, t);
  }

  /** Conservation: every move changes the slack of every asset by exactly its surplus. */
  lemma SlackStep(d: Deployment, s: System, m: Move, home: Side, t: Token)
    requires WellDeployed(d) && Inv(d, s) && Routed(d, s) && HomeAsset(d, home, t)
    ensures Slack(d, Apply(d, s, m), home, t) == Slack(d, s, home, t) + Surplus(d, s, m, home, t)
    ensures Surplus(d, s, m, home, t) >= 0
  {
    if Allowed(d, s, m) && Perform(d.profiles.At(m.side), s.At(m.side), m.action).Some? {
      SlackChange(d, s, m, home, t);
      if m.side == home {
        SurplusIsNeverNegative(d, s, m, t);
      }
    }
  }

  // --- over whole runs

  ghost function TotalSurplus(d: Deployment, s: System, moves: seq<Move>, home: Side, t: Token): int
    requires Booted(s)
    decreases |moves|
  {
    if moves == [] then 0
    else
      var before := moves[..|moves| - 1];
      TotalSurplus(d, s, before, home, t) + Surplus(d, Run(d, s, before), moves[|moves| - 1], home, t)
  }

  lemma {:induction false} SlackRun(d: Deployment, s: System, moves: seq<Move>, home: Side, t: Token)
    requires WellDeployed(d) && Inv(d, s) && Routed(d, s) && HomeAsset(d, home, t)
    ensures Routed(d, Run(d, s, moves))
    ensures Slack(d, Run(d, s, moves), home, t) == Slack(d, s, home, t) + TotalSurplus(d, s, moves, home, t)
    ensures TotalSurplus(d, s, moves, home, t) >= 0
    decreases |moves|
  {
    if moves != [] {
      var before := moves[..|moves| - 1];
      RunKeeps(d, s, before);
      SlackRun(d, s, before, home, t);
      ApplyKeepsRouted(d, Run(d, s, before), moves[|moves| - 1]);
      SlackStep(d, Run(d, s, before), moves[|moves| - 1], home, t);
    }
  }

  /** The tokens held at home cover the wrapped supply and everything in flight in both directions. */
  ghost predicate Backed(d: Deployment, s: System, home: Side, t: Token)
    requires t in d.twin.At(home)
  {
    var p, p' := d.profiles.At(home), d.profiles.At(home.Other());
    var ch, ch' := s.At(home), s.At(home.Other());
    var w := d.twin.At(home)[t];
    Scale(p, t) * Held(ch.ledger, t)
    >= Supply(ch'.ledger, w) + InFlight(p', ch'.core.executed, ch.core.events, w)
                             + InFlight(p, ch.core.executed, ch'.core.events, t)
  }

  /** Backing: from any start in which no wrapped tokens exist, every reachable state of the two chains has every
      asset backed -- ordinary tokens, WETH with its native-marker requests, AZERO across 12 and 18 decimals, and
      the L2 pair. */
  lemma BackedAlways(d: Deployment, s: System, moves: seq<Move>, home: Side, t: Token)
    requires WellDeployed(d) && Genesis(d, s) && HomeAsset(d, home, t)
    requires Supply(s.At(home.Other()).ledger, d.twin.At(home)[t]) == 0
    ensures Backed(d, Run(d, s, moves), home, t)
  {
    GenesisInv(d, s);
    GenesisBacked(d, s, home, t);
    SlackRun(d, s, moves, home, t);
  }

  lemma GenesisBacked(d: Deployment, s: System, home: Side, t: Token)
    requires Genesis(d, s) && HomeAsset(d, home, t)
    requires Supply(s.At(home.Other()).ledger, d.twin.At(home)[t]) == 0
    ensures Routed(d, s) && Slack(d, s, home, t) >= 0
  {
    assert s.At(home).core.events == s.At(home.Other()).core.events == [];
  }

  // --- releases are always funded

  lemma {:induction false} InFlightCovers(target: Profile, executed: set<Hash>, events: seq<Request>, k: nat, t: Token)
    requires k < |events| && target.scheme.hash(events[k]) !in executed
    ensures Worth(target, t, events[k]) <= InFlight(target, executed, events, t)
    decreases |events|
  {
    if k < |events| - 1 {
      InFlightCovers(target, executed, events[..|events| - 1], k, t);
    }
  }

  lemma UpdateKeepsCovered(l: Ledger, t: Token, supply: nat, held: nat)
    requires Covered(l) && held <= supply
    ensures Covered(Update(l, t, supply, held))
  {
    var l' := Update(l, t, supply, held);
    forall x ensures Held(l', x) <= Supply(l', x) {
      if x != t {
        assert Held(l, x) <= Supply(l, x);
      }
    }
  }

  lemma PayKeepsCovered(p: Profile, l: Ledger, pay: Payment, toSelf: bool, delivery: Delivery)
    requires Covered(l) && Pay(p, l, pay, toSelf, delivery).Some?
    ensures Covered(Pay(p, l, pay, toSelf, delivery).value)
  {
    var l' := Pay(p, l, pay, toSelf, delivery).value;
    assert Held(l, pay.token) <= Supply(l, pay.token);
    if l' != l {
      UpdateKeepsCovered(l, pay.token, Supply(l', pay.token), Held(l', pay.token));
    }
  }

  lemma CollectKeepsCovered(l: Ledger, tr: Transfer)
    requires Covered(l) && tr.pull + Held(l, tr.token) <= Supply(l, tr.token)
    ensures Covered(TakeIn(l, tr)) && (Payable(l, tr) ==> Covered(Collect(l, tr)))
  {
    var u := TakeIn(l, tr);
    UpdateKeepsCovered(l, tr.token, Supply(u, tr.token), Held(u, tr.token));
    if Payable(l, tr) {
      BurnKeepsCovered(u, tr);
    }
  }

  lemma BurnKeepsCovered(l: Ledger, tr: Transfer)
    requires Covered(l) && tr.burn <= Held(l, tr.token) && tr.burn <= Supply(l, tr.token)
    ensures Covered(Burn(l, tr))
  {
    UpdateKeepsCovered(l, tr.token, Supply(l, tr.token) - tr.burn, Held(l, tr.token) - tr.burn);
  }

  /** The bridges never hold more of a token than there is. */
  ghost predicate AllCovered(s: System) { Covered(s.a.ledger) && Covered(s.b.ledger) }

  lemma ApplyKeepsCovered(d: Deployment, s: System, m: Move)
    requires Booted(s) && AllCovered(s)
    ensures AllCovered(Apply(d, s, m))
  {
    var p, ch := d.profiles.At(m.side), s.At(m.side);
    if Allowed(d, s, m) && m.action.Outbound? && Dispatch(p, ch, m.action.send).Some? {
      CollectKeepsCovered(ch.ledger, Outgoing(p, ch.pairs, m.action.send).value);
    }
    if Allowed(d, s, m) && m.action.Guard? {
      var Guard(who, claimed, request, delivery) := m.action;
      var pay := Incoming(p, request.token, request.amount);
      if Pay(p, ch.ledger, pay, PaysSelf(p, request, delivery), delivery).Some? {
        PayKeepsCovered(p, ch.ledger, pay, PaysSelf(p, request, delivery), delivery);
      }
    }
  }

  lemma {:induction false} RunKeepsCovered(d: Deployment, s: System, moves: seq<Move>)
    requires Booted(s) && AllCovered(s)
    ensures AllCovered(Run(d, s, moves))
    decreases |moves|
  {
    if moves != [] {
      RunKeepsCovered(d, s, moves[..|moves| - 1]);
      ApplyKeepsCovered(d, Run(d, s, moves[..|moves| - 1]), moves[|moves| - 1]);
    }
  }

  /** In every reachable state, any event of the other chain that is still to be executed and is payable in home token
      `t` can be paid out: unless the called contracts refuse, no release or unwrap fails for lack of funds. */
  lemma ReleaseAlwaysFunded(d: Deployment, s: System, moves: seq<Move>, home: Side, t: Token, k: nat, toSelf: bool)
    requires WellDeployed(d) && Genesis(d, s) && HomeAsset(d, home, t)
    requires Supply(s.At(home.Other()).ledger, d.twin.At(home)[t]) == 0
    requires k < |Run(d, s, moves).At(home.Other()).core.events|
    ensures var p, u := d.profiles.At(home), Run(d, s, moves);
            var e := u.At(home.Other()).core.events[k];
            var pay := Incoming(p, e.token, e.amount);
            pay.token == t && p.scheme.hash(e) !in u.At(home).core.executed ==>
              Pay(p, u.At(home).ledger, pay, toSelf, Delivered).Some?
  {
    var p, u := d.profiles.At(home), Run(d, s, moves);
    var events := u.At(home.Other()).core.events;
    var e := events[k];
    BackedAlways(d, s, moves, home, t);
    GenesisInv(d, s);
    GenesisBacked(d, s, home, t);
    SlackRun(d, s, moves, home, t);
    RunKeepsCovered(d, s, moves);
    if Incoming(p, e.token, e.amount).token == t && p.scheme.hash(e) !in u.At(home).core.executed {
      InFlightCovers(p, u.At(home).core.executed, events, k, t);
      assert RoutedRequest(d, home.Other(), e) && home.Other().Other() == home;
      FloorFits(p, t, e.amount, Held(u.At(home).ledger, t));
      assert Held(u.At(home).ledger, t) <= Supply(u.At(home).ledger, t);
    }
  }

  lemma FloorFits(p: Profile, t: Token, amount: nat, held: nat)
    requires amount <= Scale(p, t) * held
    ensures amount / Scale(p, t) <= held
  {
    if Scale(p, t) == 1 {
      assert amount / 1 == amount;
    } else {
      assert Scale(p, t) == RATIO;
    }
  }

  // --- without saturation, donations and refused payouts, only division remainders pile up

  /** A move that neither donates `t`, nor saturates an amount of it, nor releases it to nobody or to the bridge. */
  ghost predicate Clean(p: Profile, ch: Chain, action: Action, t: Token) {
    match action
    case Outbound(send) => send.SendNative? && p.flavour.InkL1? && t == p.native ==> send.amount * RATIO < U128_SIZE
    case Guard(_, _, request, delivery) =>
      Incoming(p, request.token, request.amount) == Release(t, request.amount) ==>
        delivery.Delivered? && AddressOf(p, request.receiver) != p.self
    case Outside(ledger) => Held(ledger, t) == Held(ch.ledger, t)
    case _ => true
  }

  /** How many of the executed requests were paid out in token `t`. */
  function Payouts(p: Profile, log: seq<Request>, t: Token): nat
    decreases |log|
  {
    if log == [] then 0
    else
      var r := log[|log| - 1];
      Payouts(p, log[..|log| - 1], t) + if Incoming(p, r.token, r.amount).token == t then 1 else 0
  }

  function PayoutsAt(d: Deployment, s: System, side: Side, t: Token): nat {
    Payouts(d.profiles.At(side), s.At(side).core.log, t)
  }

  lemma ExactTransfer(d: Deployment, side: Side, pairs: map<Token, Token>, send: Send)
    requires WellDeployed(d) && PairsAgree(d, side, pairs)
    requires Outgoing(d.profiles.At(side), pairs, send).Some?
    requires send.SendNative? && d.profiles.At(side).flavour.InkL1? ==> send.amount * RATIO < U128_SIZE
    ensures var p := d.profiles.At(side);
            var tr := Outgoing(p, pairs, send).value;
            IsLocal(p, tr.token) ==> tr.amount == Scale(p, tr.token) * (tr.deposit + tr.pull)
  {
    var p := d.profiles.At(side);
    if send.SendToNative? {
      var other := d.profiles.At(side.Other());
      assert MirroredToken(d, side.Other(), other.native);
    }
  }

  /** A clean vote leaves a remainder of `t` below its scale if it executes a request for `t`, and nothing otherwise. */
  lemma CleanGuardSurplus(p: Profile, ch: Chain, action: Action, t: Token)
    requires |ch.core.rosters| > 0 && action.Guard? && Perform(p, ch, action).Some? && Clean(p, ch, action, t)
    ensures var log, log' := ch.core.log, Perform(p, ch, action).value.core.log;
            && 0 <= Payouts(p, log', t) - Payouts(p, log, t) <= 1
            && ActionSurplus(p, ch, action, t)
               <= if Payouts(p, log', t) > Payouts(p, log, t) then Scale(p, t) - 1 else 0
  {
    var Guard(who, claimed, request, delivery) := action;
    if ReachesQuorum(ch.core, claimed, request, who) {
      assert (ch.core.log + [request])[..|ch.core.log|] == ch.core.log;
      if Incoming(p, request.token, request.amount).token == t {
        assert Leftover(p, request, delivery) <= Scale(p, t) - 1;
      }
    }
  }

  /** From `s` to `u` at most one request was paid out in `t` at its home, leaving less than one scale behind. */
  ghost predicate DustStep(d: Deployment, s: System, u: System, home: Side, t: Token)
    requires HomeAsset(d, home, t)
  {
    var paid := PayoutsAt(d, u, home, t) - PayoutsAt(d, s, home, t);
    && 0 <= paid <= 1
    && Slack(d, u, home, t) <= Slack(d, s, home, t) + if paid == 1 then Scale(d.profiles.At(home), t) - 1 else 0
  }

  lemma CleanOutboundSurplus(d: Deployment, side: Side, ch: Chain, send: Send, t: Token)
    requires WellDeployed(d) && HomeAsset(d, side, t) && PairsAgree(d, side, ch.pairs) && |ch.core.rosters| > 0
    requires Dispatch(d.profiles.At(side), ch, send).Some? && Clean(d.profiles.At(side), ch, Outbound(send), t)
    ensures ActionSurplus(d.profiles.At(side), ch, Outbound(send), t) == 0
  {
    var p := d.profiles.At(side);
    if Outgoing(p, ch.pairs, send).value.token == t {
      ExactTransfer(d, side, ch.pairs, send);
    }
  }

  lemma CleanSurplus(d: Deployment, s: System, m: Move, t: Token)
    requires WellDeployed(d) && Inv(d, s) && HomeAsset(d, m.side, t) && Allowed(d, s, m)
    requires Perform(d.profiles.At(m.side), s.At(m.side), m.action).Some?
    requires Clean(d.profiles.At(m.side), s.At(m.side), m.action, t)
    ensures var p, ch := d.profiles.At(m.side), s.At(m.side);
            var paid := Payouts(p, Perform(p, ch, m.action).value.core.log, t) - Payouts(p, ch.core.log, t);
            0 <= paid <= 1 && ActionSurplus(p, ch, m.action, t) <= if paid == 1 then Scale(p, t) - 1 else 0
  {
    var p, ch := d.profiles.At(m.side), s.At(m.side);
    assert SideInv(d, s, m.side);
    match m.action
    case Outbound(send) => CleanOutboundSurplus(d, m.side, ch, send, t);
    case Guard(_, _, _, _) => CleanGuardSurplus(p, ch, m.action, t);
    case _ =>
  }

  lemma CleanStep(d: Deployment, s: System, m: Move, home: Side, t: Token)
    requires WellDeployed(d) && Inv(d, s) && Routed(d, s) && HomeAsset(d, home, t)
    requires m.side == home ==> Clean(d.profiles.At(home), s.At(home), m.action, t)
    ensures DustStep(d, s, Apply(d, s, m), home, t)
  {
    SlackStep(d, s, m, home, t);
    if m.side == home && Allowed(d, s, m) && Perform(d.profiles.At(home), s.At(home), m.action).Some? {
      CleanSurplus(d, s, m, t);
    }
  }

  /** Every move on the home chain is clean. */
  ghost predicate CleanRun(d: Deployment, s: System, moves: seq<Move>, home: Side, t: Token)
    requires Booted(s)
    decreases |moves|
  {
    moves == [] ||
    (var before, m := moves[..|moves| - 1], moves[|moves| - 1];
     && CleanRun(d, s, before, home, t)
     && (m.side == home ==> Clean(d.profiles.At(home), Run(d, s, before).At(home), m.action, t)))
  }

  /** `u` was reached from `s` with at most one remainder per request paid out in `t`. */
  ghost predicate DustOnly(d: Deployment, s: System, u: System, home: Side, t: Token)
    requires HomeAsset(d, home, t)
  {
    Slack(d, u, home, t)
    <= Slack(d, s, home, t)
       + (Scale(d.profiles.At(home), t) - 1) * (PayoutsAt(d, u, home, t) - PayoutsAt(d, s, home, t))
  }

  lemma DustAccumulates(d: Deployment, s: System, u: System, v: System, home: Side, t: Token)
    requires HomeAsset(d, home, t) && DustOnly(d, s, u, home, t) && DustStep(d, u, v, home, t)
    ensures DustOnly(d, s, v, home, t)
  {
    DustAdds(Scale(d.profiles.At(home), t) - 1,
             Slack(d, s, home, t), Slack(d, u, home, t), Slack(d, v, home, t),
             PayoutsAt(d, s, home, t), PayoutsAt(d, u, home, t), PayoutsAt(d, v, home, t));
  }

  /** The slack of an asset grows by less than its scale for every request paid out in it at home: below 10^6 units of
      18-decimal AZERO per released request for AZERO, and not at all for equal decimals. */
  lemma {:induction false} DustBound(d: Deployment, s: System, moves: seq<Move>, home: Side, t: Token)
    requires WellDeployed(d) && Inv(d, s) && Routed(d, s) && HomeAsset(d, home, t) && CleanRun(d, s, moves, home, t)
    ensures DustOnly(d, s, Run(d, s, moves), home, t)
    decreases |moves|
  {
    if moves != [] {
      var before := moves[..|moves| - 1];
      DustBound(d, s, before, home, t);
      RunKeeps(d, s, before);
      SlackRun(d, s, before, home, t);
      CleanStep(d, Run(d, s, before), moves[|moves| - 1], home, t);
      DustAccumulates(d, s, Run(d, s, before), Run(d, s, moves), home, t);
    }
  }

  lemma DustAdds(k: int, s0: int, s1: int, s2: int, n0: int, n1: int, n2: int)
    requires s1 <= s0 + k * (n1 - n0) && 0 <= n2 - n1 <= 1 && s2 <= s1 + if n2 - n1 == 1 then k else 0
    ensures s2 <= s0 + k * (n2 - n0)
  {
    assert k * (n2 - n0) == k * (n1 - n0) + if n2 - n1 == 1 then k else 0;
  }
}
