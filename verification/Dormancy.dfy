/** Home tokens that are not marked as local yet.

    A contract treats a token as its own only once the owner has marked it, together with its pair.  Until then nothing
    of the token can be in flight in either direction and no wrapped token can exist, so it does not matter that the
    contract would still treat it as foreign. */
module Dormancy {
  import opened Types
  import opened Collector
  import opened Treasury
  import opened Protocol
  import opened Backing

  /** No wrapped token exists, and no event of either chain is payable in the asset. */
  ghost predicate Dormant(d: Deployment, s: System, home: Side, t: Token)
    requires t in d.twin.At(home)
  {
    && Supply(s.At(home.Other()).ledger, d.twin.At(home)[t]) == 0
    && NothingPayable(d.profiles.At(home.Other()), s.At(home).core.events, d.twin.At(home)[t])
    && NothingPayable(d.profiles.At(home), s.At(home.Other()).core.events, t)
  }

  ghost predicate NothingPayable(target: Profile, events: seq<Request>, t: Token) {
    forall e | e in events :: Incoming(target, e.token, e.amount).token != t
  }

  ghost predicate OnL1(d: Deployment) {
    d.profiles.a.flavour.InkL1? && d.profiles.b.flavour.SolL1?
  }

  lemma OutgoingIsPositive(p: Profile, pairs: map<Token, Token>, send: Send)
    requires p.flavour.InkL1? || p.flavour.SolL1?
    requires Outgoing(p, pairs, send).Some?
    ensures Outgoing(p, pairs, send).value.amount > 0
  {
  }

  /** Without a pair, no send takes in a home token. */
  lemma UnpairedStays(d: Deployment, home: Side, t: Token, pairs: map<Token, Token>, send: Send)
    requires WellDeployed(d) && OnL1(d) && HomeAsset(d, home, t) && PairsAgree(d, home, pairs) && t !in pairs
    requires Outgoing(d.profiles.At(home), pairs, send).Some?
    ensures Outgoing(d.profiles.At(home), pairs, send).value.token != t
  {
    match send
    case SendToken(token, _, _) => TwinsMirror(d, home, token);
    case SendNative(_, _) =>
    case SendToNative(_, _) =>
      NativeIsTwinned(d, home.Other());
      TwinsMirror(d, home.Other(), d.profiles.At(home.Other()).native);
  }

  /** A send that takes in another asset emits no event payable in this one. */
  lemma OtherEvent(d: Deployment, side: Side, tr: Transfer, e: Request, w: Token)
    requires WellDeployed(d) && Mirrors(d, side, tr) && w in d.twin.At(side) && tr.token != w
    requires e.token == tr.dest && e.amount == tr.amount
    ensures Incoming(d.profiles.At(side.Other()), e.token, e.amount).token != d.twin.At(side)[w]
  {
    assert MirroredToken(d, side, w) && MirroredToken(d, side, tr.token);
  }

  /** The asset whose transfer a send on `side` must not be for the asset to stay dormant. */
  lemma SendElsewhere(d: Deployment, s: System, m: Move, home: Side, t: Token, tr: Transfer)
    requires WellDeployed(d) && OnL1(d) && Inv(d, s) && HomeAsset(d, home, t) && Dormant(d, s, home, t)
    requires t !in s.At(home).pairs && m.action.Outbound?
    requires Outgoing(d.profiles.At(m.side), s.At(m.side).pairs, m.action.send) == Some(tr)
    requires Payable(s.At(m.side).ledger, tr) && Mirrors(d, m.side, tr)
    ensures tr.token != AssetAt(d, home, t, m.side)
  {
    assert SideInv(d, s, m.side);
    AssetTwin(d, home, t, m.side);
    if m.side == home {
      UnpairedStays(d, home, t, s.At(home).pairs, m.action.send);
    } else {
      OutgoingIsPositive(d.profiles.At(m.side), s.At(m.side).pairs, m.action.send);
    }
  }

  lemma SendKeepsDormant(d: Deployment, s: System, m: Move, home: Side, t: Token)
    requires WellDeployed(d) && OnL1(d) && Inv(d, s) && HomeAsset(d, home, t) && Dormant(d, s, home, t)
    requires t !in s.At(home).pairs && m.action.Outbound? && Allowed(d, s, m)
    requires Dispatch(d.profiles.At(m.side), s.At(m.side), m.action.send).Some?
    ensures Dormant(d, Apply(d, s, m), home, t)
  {
    var tr := OutboundChange(d, s, m);
    var w := AssetAt(d, home, t, m.side);
    SendElsewhere(d, s, m, home, t, tr);
    AssetTwin(d, home, t, m.side);
    var core := s.At(m.side).core;
    var e := NextEvent(core, tr.dest, tr.amount, m.action.send.receiver);
    OtherEvent(d, m.side, tr, e, w);
    var s' := Apply(d, s, m);
    assert s'.At(m.side).core.events == core.events + [e];
    assert s'.At(m.side.Other()) == s.At(m.side.Other());
  }

  lemma VoteKeepsDormant(d: Deployment, s: System, m: Move, home: Side, t: Token)
    requires WellDeployed(d) && Inv(d, s) && Routed(d, s) && HomeAsset(d, home, t) && Dormant(d, s, home, t)
    requires m.action.Guard? && Allowed(d, s, m)
    requires Perform(d.profiles.At(m.side), s.At(m.side), m.action).Some?
    ensures Dormant(d, Apply(d, s, m), home, t)
  {
    var Guard(who, claimed, request, delivery) := m.action;
    var s' := Apply(d, s, m);
    GuardChange(d, s, m);
    AssetTwin(d, home, t, m.side);
    if m.side != home && ReachesQuorum(s.At(m.side).core, claimed, request, who) {
      ExecutedIsEvent(d, s, m.side, claimed, request, who);
      assert RoutedRequest(d, home, request);
      WrappedPayment(d.profiles.At(m.side), s.At(m.side).ledger, request, delivery, s'.At(m.side).ledger,
                     d.twin.At(home)[t]);
    }
  }

  /** As long as a home token has no pair on its chain, its asset stays dormant. */
  lemma ApplyKeepsDormant(d: Deployment, s: System, m: Move, home: Side, t: Token)
    requires WellDeployed(d) && OnL1(d) && Inv(d, s) && Routed(d, s)
    requires HomeAsset(d, home, t) && Dormant(d, s, home, t) && t !in s.At(home).pairs
    ensures Dormant(d, Apply(d, s, m), home, t)
  {
    if Allowed(d, s, m) && Perform(d.profiles.At(m.side), s.At(m.side), m.action).Some? {
      AssetTwin(d, home, t, m.side);
      match m.action
      case Outbound(_) => SendKeepsDormant(d, s, m, home, t);
      case Guard(_, _, _, _) => VoteKeepsDormant(d, s, m, home, t);
      case _ =>
    }
  }

  /** An executing vote is never for a dormant asset. */
  lemma DormantIsUnvoted(d: Deployment, s: System, side: Side, claimed: Hash, request: Request, who: Account, t: Token)
    requires WellDeployed(d) && Inv(d, s) && HomeAsset(d, side, t) && Dormant(d, s, side, t)
    requires Votable(d, s, side, claimed, request, who) && ReachesQuorum(s.At(side).core, claimed, request, who)
    ensures Incoming(d.profiles.At(side), request.token, request.amount).token != t
  {
    ExecutedIsEvent(d, s, side, claimed, request, who);
  }
}
