/** The two-chain system: two contracts, guardians that vote on both of them, users, and an owner.
    Faulty guardians may submit anything; honest guardians vote only for events of the other chain. */
module Protocol {
  import opened Types
  import opened Collector
  import opened Treasury

  datatype Side = A | B {
    function Other(): Side { if this == A then B else A }
  }

  /** One thing per chain: `a` for Aleph Zero, `b` for the Ethereum-like chain. */
  datatype Pair<T> = Pair(a: T, b: T) {
    function At(side: Side): T { if side == A then a else b }
    function With(side: Side, t: T): Pair<T> { if side == A then Pair(t, b) else Pair(a, t) }
  }

  /** `twin.At(side)` maps each bridged token of a side to its counterpart on the other side. */
  datatype Deployment = Deployment(profiles: Pair<Profile>, twin: Pair<map<Token, Token>>)

  type System = Pair<Chain>

  // --- hypotheses on a deployment

  ghost predicate MirroredToken(d: Deployment, side: Side, t: Token)
    requires t in d.twin.At(side)
  {
    var t' := d.twin.At(side)[t];
    && t != NATIVE_MARKER
    && AddressOf(d.profiles.At(side), t) == t
    && t' in d.twin.At(side.Other()) && d.twin.At(side.Other())[t'] == t
    && IsLocal(d.profiles.At(side), t) != IsLocal(d.profiles.At(side.Other()), t')
  }

  ghost predicate NativesAgree(d: Deployment) {
    var a, b := d.profiles.a, d.profiles.b;
    if a.flavour.InkL1? then
      && b.flavour.SolL1?
      && a.native in d.twin.a && d.twin.a[a.native] == b.foreign && IsLocal(a, a.native)
      && b.native in d.twin.b && d.twin.b[b.native] == a.foreign && IsLocal(b, b.native)
    else
      && a.flavour.InkL2? && b.flavour.SolL2?
      && a.native in d.twin.a && d.twin.a[a.native] == b.native
  }

  /** Mirrored pair configuration, and no hash collision among the requests that occur. */
  ghost predicate WellDeployed(d: Deployment) {
    && (forall side, t {:trigger MirroredToken(d, side, t)} | t in d.twin.At(side) :: MirroredToken(d, side, t))
    && NativesAgree(d)
    && (forall side :: CollisionFree(d.profiles.At(side).scheme))
  }

  /** The supported pairs of a contract agree with the deployment; on Ethereum, AZERO is not among them. */
  ghost predicate PairsAgree(d: Deployment, side: Side, pairs: map<Token, Token>) {
    forall t | t in pairs ::
      && t in d.twin.At(side) && pairs[t] == d.twin.At(side)[t]
      && !(d.profiles.At(side).flavour.SolL1? && t == d.profiles.At(side).foreign)
  }

  ghost function FaultyMembers(p: Profile, members: seq<Account>): set<Account> {
    set m | m in members && m in p.faulty
  }

  // --- steps

  datatype Action =
    | Outbound(send: Send)
    | Guard(who: Account, claimed: Hash, request: Request, delivery: Delivery)
    | Rotate(members: seq<Account>, threshold: nat)
    | SetPairs(pairs: map<Token, Token>)
    | SetHalted(halted: bool)
    | Outside(ledger: Ledger)

  datatype Move = Move(side: Side, action: Action)

  /** Users may trade, donate to the bridge, and mint or burn tokens that originate on this chain. */
  ghost predicate OutsideAllowed(p: Profile, l: Ledger, l': Ledger) {
    && (forall t :: Held(l, t) <= Held(l', t) && (!IsLocal(p, t) ==> Supply(l, t) == Supply(l', t)))
    && Covered(l')
  }

  /** What the hypotheses allow: the requests are among those on which the hashes do not collide, honest
      guardians vote for what the other chain emitted, committees have fewer faulty members than the threshold. */
  ghost predicate Allowed(d: Deployment, s: System, m: Move)
    requires |s.At(m.side).core.rosters| > 0
  {
    var p, ch := d.profiles.At(m.side), s.At(m.side);
    match m.action
    case Outbound(send) =>
      var t := Outgoing(p, ch.pairs, send);
      t.Some? ==> NextEvent(ch.core, t.value.dest, t.value.amount, send.receiver)
                  in d.profiles.At(m.side.Other()).scheme.occurs
    case Guard(who, claimed, request, _) =>
      && request in p.scheme.occurs
      && (who in p.faulty || request in s.At(m.side.Other()).core.events)
    case Rotate(members, threshold) =>
      GoodRoster(members, threshold) && |FaultyMembers(p, members)| < threshold
    case SetPairs(pairs) => PairsAgree(d, m.side, pairs)
    case SetHalted(_) => true
    case Outside(ledger) => OutsideAllowed(p, ch.ledger, ledger)
  }

  function Perform(p: Profile, ch: Chain, action: Action): Option<Chain>
    requires |ch.core.rosters| > 0
    ensures Perform(p, ch, action).Some? ==> |Perform(p, ch, action).value.core.rosters| > 0
  {
    match action
    case Outbound(send) => Dispatch(p, ch, send)
    case Guard(who, claimed, request, delivery) => Submit(p, ch, who, claimed, request, delivery)
    case Rotate(members, threshold) => Some(ch.(core := AddRoster(ch.core, members, threshold)))
    case SetPairs(pairs) => Some(ch.(pairs := pairs))
    case SetHalted(halted) => Some(ch.(halted := halted))
    case Outside(ledger) => Some(ch.(ledger := ledger))
  }

  ghost predicate Booted(s: System) { |s.a.core.rosters| > 0 && |s.b.core.rosters| > 0 }

  /** One message or outside event on one chain; what is not allowed or fails leaves the system unchanged. */
  ghost function Apply(d: Deployment, s: System, m: Move): System
    requires Booted(s)
    ensures Booted(Apply(d, s, m))
  {
    if !Allowed(d, s, m) then s
    else match Perform(d.profiles.At(m.side), s.At(m.side), m.action)
      case None => s
      case Some(ch) => s.With(m.side, ch)
  }

  ghost function Run(d: Deployment, s: System, moves: seq<Move>): System
    requires Booted(s)
    ensures Booted(Run(d, s, moves))
    decreases |moves|
  {
    if moves == [] then s else Apply(d, Run(d, s, moves[..|moves| - 1]), moves[|moves| - 1])
  }

  ghost predicate GenesisSide(d: Deployment, s: System, side: Side) {
    var p, ch := d.profiles.At(side), s.At(side);
    && Fresh(ch.core) && PairsAgree(d, side, ch.pairs) && Covered(ch.ledger)
    && |FaultyMembers(p, ch.core.rosters[0].members)| < ch.core.rosters[0].threshold
  }

  ghost predicate Genesis(d: Deployment, s: System) {
    GenesisSide(d, s, A) && GenesisSide(d, s, B)
  }

  // --- invariant

  ghost predicate HonestMajority(p: Profile, core: Core) {
    forall c | 0 <= c < |core.rosters| :: |FaultyMembers(p, core.rosters[c].members)| < core.rosters[c].threshold
  }

  /** Every honest signature is for a request that the other chain emitted. */
  ghost predicate HonestBallots(p: Profile, core: Core, source: seq<Request>) {
    forall h, a | h in core.ballots && a in core.ballots[h].signers && a !in p.faulty ::
      core.ballots[h].request in source
  }

  ghost predicate EventsOccur(target: Profile, events: seq<Request>) {
    forall i | 0 <= i < |events| :: events[i] in target.scheme.occurs
  }

  ghost predicate SideInv(d: Deployment, s: System, side: Side) {
    var p, ch := d.profiles.At(side), s.At(side);
    && CoreInv(p.scheme, ch.core)
    && HonestMajority(p, ch.core)
    && HonestBallots(p, ch.core, s.At(side.Other()).core.events)
    && EventsOccur(d.profiles.At(side.Other()), ch.core.events)
    && PairsAgree(d, side, ch.pairs)
  }

  ghost predicate Inv(d: Deployment, s: System) {
    SideInv(d, s, A) && SideInv(d, s, B)
  }

  /** A quorum contains an honest signer, so its request was emitted by the other chain. */
  lemma QuorumIsAuthentic(p: Profile, core: Core, source: seq<Request>, h: Hash)
    requires Quorum(p.scheme, core) && GoodRosters(core)
    requires HonestMajority(p, core) && HonestBallots(p, core, source)
    requires h in core.executed
    ensures core.ballots[h].request in source
  {
    assert GoodBallot(p.scheme, core, h);
    var ballot := core.ballots[h];
    var faulty := FaultyMembers(p, core.rosters[ballot.request.committee].members);
    if ballot.signers <= faulty {
      Subset(ballot.signers, faulty);
      assert false;
    } else {
      var a :| a in ballot.signers && a !in faulty;
      assert a !in p.faulty;
    }
  }

  lemma Subset(s: set<Account>, t: set<Account>)
    requires s <= t
    ensures |s| <= |t|
  {
    assert t == s + (t - s);
  }

  // --- preservation, one action at a time

  lemma EmittedKeeps(d: Deployment, s: System, side: Side, dest: Token, amount: nat, receiver: Account)
    requires Inv(d, s)
    requires NextEvent(s.At(side).core, dest, amount, receiver) in d.profiles.At(side.Other()).scheme.occurs
    ensures Inv(d, s.With(side, s.At(side).(core := EmitEvent(s.At(side).core, dest, amount, receiver))))
  {
    var core := s.At(side).core;
    assert SideInv(d, s, side) && SideInv(d, s, side.Other());
    EmitKeeps(d.profiles.At(side).scheme, core, dest, amount, receiver);
    assert core.events <= EmitEvent(core, dest, amount, receiver).events;
  }

  lemma VotedKeeps(d: Deployment, s: System, side: Side, claimed: Hash, request: Request, who: Account)
    requires WellDeployed(d) && Inv(d, s) && request in d.profiles.At(side).scheme.occurs
    requires Accepts(d.profiles.At(side).scheme.hash, s.At(side).core, claimed, request, who)
    requires who in d.profiles.At(side).faulty || request in s.At(side.Other()).core.events
    ensures Inv(d, s.With(side, s.At(side).(core := Cast(s.At(side).core, claimed, request, who))))
  {
    var ch := s.At(side).(core := Cast(s.At(side).core, claimed, request, who));
    assert SideInv(d, s, side) && SideInv(d, s, side.Other());
    GuardKeepsSide(d, s, side, ch, claimed, request, who);
  }

  lemma OutboundKeeps(d: Deployment, s: System, m: Move)
    requires WellDeployed(d) && Inv(d, s) && m.action.Outbound? && Allowed(d, s, m)
    ensures Inv(d, Apply(d, s, m))
  {
    var p, ch := d.profiles.At(m.side), s.At(m.side);
    var r := Dispatch(p, ch, m.action.send);
    if r.Some? {
      var t := Outgoing(p, ch.pairs, m.action.send).value;
      EmitKeeps(p.scheme, ch.core, t.dest, t.amount, m.action.send.receiver);
      assert r.value.core.ballots == ch.core.ballots;
      assert ch.core.events <= r.value.core.events;
    }
  }

  lemma RotateKeeps(d: Deployment, s: System, m: Move)
    requires WellDeployed(d) && Inv(d, s) && m.action.Rotate? && Allowed(d, s, m)
    ensures Inv(d, Apply(d, s, m))
  {
    var p, ch := d.profiles.At(m.side), s.At(m.side);
    InstallKeeps(p.scheme, ch.core, m.action.members, m.action.threshold);
  }

  lemma CastKeepsHonesty(p: Profile, core: Core, source: seq<Request>, claimed: Hash, request: Request, who: Account)
    requires CollisionFree(p.scheme) && CoreInv(p.scheme, core) && HonestBallots(p, core, source)
    requires Accepts(p.scheme.hash, core, claimed, request, who) && request in p.scheme.occurs
    requires who in p.faulty || request in source
    ensures HonestBallots(p, Cast(core, claimed, request, who), source)
  {
    SameRequest(p.scheme, core, claimed, request);
  }

  /** An accepted vote, executing or not, on one side. */
  lemma GuardKeepsSide(d: Deployment, s: System, side: Side, ch: Chain, claimed: Hash, request: Request, who: Account)
    requires CollisionFree(d.profiles.At(side).scheme) && SideInv(d, s, side)
             && request in d.profiles.At(side).scheme.occurs
    requires Accepts(d.profiles.At(side).scheme.hash, s.At(side).core, claimed, request, who)
    requires who in d.profiles.At(side).faulty || request in s.At(side.Other()).core.events
    requires ch.core == Cast(s.At(side).core, claimed, request, who) && ch.pairs == s.At(side).pairs
    ensures SideInv(d, s.With(side, ch), side)
  {
    var p, core := d.profiles.At(side), s.At(side).core;
    CastKeeps(p.scheme, core, claimed, request, who);
    CastKeepsHonesty(p, core, s.At(side.Other()).core.events, claimed, request, who);
  }

  lemma GuardKeeps(d: Deployment, s: System, m: Move)
    requires WellDeployed(d) && Inv(d, s) && m.action.Guard? && Allowed(d, s, m)
    ensures Inv(d, Apply(d, s, m))
  {
    var p, ch := d.profiles.At(m.side), s.At(m.side);
    var Guard(who, claimed, request, delivery) := m.action;
    var r := Submit(p, ch, who, claimed, request, delivery);
    if r.Some? {
      GuardKeepsSide(d, s, m.side, r.value, claimed, request, who);
    }
  }

  lemma ApplyKeeps(d: Deployment, s: System, m: Move)
    requires WellDeployed(d) && Inv(d, s)
    ensures Inv(d, Apply(d, s, m))
  {
    if Allowed(d, s, m) {
      match m.action
      case Outbound(_) => OutboundKeeps(d, s, m);
      case Guard(_, _, _, _) => GuardKeeps(d, s, m);
      case Rotate(_, _) => RotateKeeps(d, s, m);
      case SetPairs(_) =>
      case SetHalted(_) =>
      case Outside(_) =>
    }
  }

  lemma {:induction false} RunKeeps(d: Deployment, s: System, moves: seq<Move>)
    requires WellDeployed(d) && Inv(d, s)
    ensures Inv(d, Run(d, s, moves))
    decreases |moves|
  {
    if moves != [] {
      RunKeeps(d, s, moves[..|moves| - 1]);
      ApplyKeeps(d, Run(d, s, moves[..|moves| - 1]), moves[|moves| - 1]);
    }
  }

  lemma PerformCounts(p: Profile, ch: Chain, action: Action)
    requires |ch.core.rosters| > 0 && Perform(p, ch, action).Some?
    ensures var core := Perform(p, ch, action).value.core;
            |core.events| + |core.rosters| <= |ch.core.events| + |ch.core.rosters| + 1
  {
  }

  /** Nonces and committee ids are unbounded here; no run of fewer than 2^128 moves tells the difference. */
  lemma {:induction false} CountersBounded(d: Deployment, s: System, moves: seq<Move>, side: Side)
    requires Booted(s)
    ensures var core, core' := s.At(side).core, Run(d, s, moves).At(side).core;
            |core'.events| + |core'.rosters| <= |core.events| + |core.rosters| + |moves|
    decreases |moves|
  {
    if moves != [] {
      var before, m := moves[..|moves| - 1], moves[|moves| - 1];
      CountersBounded(d, s, before, side);
      var u := Run(d, s, before);
      if Perform(d.profiles.At(m.side), u.At(m.side), m.action).Some? {
        PerformCounts(d.profiles.At(m.side), u.At(m.side), m.action);
      }
    }
  }

  lemma GenesisInv(d: Deployment, s: System)
    requires Genesis(d, s)
    ensures Inv(d, s)
  {
    forall side ensures SideInv(d, s, side) {
      FreshInv(d.profiles.At(side).scheme, s.At(side).core);
    }
  }

  lemma LogIsAuthentic(d: Deployment, s: System, side: Side)
    requires WellDeployed(d) && Inv(d, s)
    ensures forall r | r in s.At(side).core.log :: r in s.At(side.Other()).core.events
  {
    var p, core := d.profiles.At(side), s.At(side).core;
    var source := s.At(side.Other()).core.events;
    assert SideInv(d, s, side);
    forall i | 0 <= i < |core.log| ensures core.log[i] in source {
      var h := p.scheme.hash(core.log[i]);
      QuorumIsAuthentic(p, core, source, h);
      SameRequest(p.scheme, core, h, core.log[i]);
    }
  }

  /** Authenticity and at-most-once: in every run, every executed request is an event that the other chain
      emitted, and no request is executed twice. */
  lemma Authenticity(d: Deployment, s: System, moves: seq<Move>, side: Side)
    requires WellDeployed(d) && Genesis(d, s)
    ensures var t := Run(d, s, moves);
            && (forall r | r in t.At(side).core.log :: r in t.At(side.Other()).core.events)
            && Distinct(t.At(side).core.log)
  {
    GenesisInv(d, s);
    RunKeeps(d, s, moves);
    LogIsAuthentic(d, Run(d, s, moves), side);
    assert SideInv(d, Run(d, s, moves), side);
  }
}
