/** Messages to contract objects, in general: what a message did is nothing or a permitted action, and permitted actions
    extend a run of the protocol. */
module Messages {
  import opened Types
  import opened Collector
  import opened Treasury
  import opened Protocol
  import opened Backing

  // --- what a message does to a contract

  datatype Movement = Donate | MintOutside | BurnOutside

  /** Tokens moved by others; what they cannot move stays where it is. */
  function Moved(l: Ledger, token: Token, quantity: nat, movement: Movement): Ledger {
    var supply, held := Supply(l, token), Held(l, token);
    match movement
    case Donate => if held + quantity <= supply then Update(l, token, supply, held + quantity) else l
    case MintOutside => Update(l, token, supply + quantity, held)
    case BurnOutside => if held + quantity <= supply then Update(l, token, supply - quantity, held) else l
  }

  lemma MovedAllowed(p: Profile, l: Ledger, token: Token, quantity: nat, movement: Movement)
    requires movement.Donate? || IsLocal(p, token)
    ensures Covered(l) ==> OutsideAllowed(p, l, Moved(l, token, quantity, movement))
  {
    if Covered(l) {
      var l' := Moved(l, token, quantity, movement);
      assert Held(l, token) <= Supply(l, token);
      if l' != l {
        UpdateKeepsCovered(l, token, Supply(l', token), Held(l', token));
      }
    }
  }

  /** The guardians, owners and outsiders behind an action keep to the hypotheses. */
  ghost predicate Permits(d: Deployment, side: Side, ch: Chain, source: seq<Request>, action: Action) {
    var p := d.profiles.At(side);
    match action
    case Outbound(_) => true
    case Guard(who, _, request, _) => (who in p.faulty && request in p.scheme.occurs) || request in source
    case Rotate(members, threshold) => GoodRoster(members, threshold) && |FaultyMembers(p, members)| < threshold
    case SetPairs(pairs) => PairsAgree(d, side, ch.pairs) ==> PairsAgree(d, side, pairs)
    case SetHalted(_) => true
    case Outside(ledger) => Covered(ch.ledger) ==> OutsideAllowed(p, ch.ledger, ledger)
  }

  /** A message did nothing, or exactly what a permitted action does. */
  ghost predicate Did(d: Deployment, side: Side, ch: Chain, source: seq<Request>, done: Option<Action>, ch': Chain)
    requires |ch.core.rosters| > 0
  {
    match done
    case None => ch' == ch
    case Some(action) =>
      Perform(d.profiles.At(side), ch, action) == Some(ch') && Permits(d, side, ch, source, action)
  }

  /** Events and committees are only added. */
  ghost predicate Grows(core: Core, core': Core) {
    core.events <= core'.events && core.rosters <= core'.rosters && |core'.rosters| <= |core.rosters| + 1
  }

  ghost predicate Executes(hash: Request -> Hash, core: Core, who: Account, claimed: Hash, request: Request) {
    Accepts(hash, core, claimed, request, who) && ReachesQuorum(core, claimed, request, who)
  }

  lemma SubmitGrows(p: Profile, ch: Chain, who: Account, claimed: Hash, request: Request, delivery: Delivery)
    requires Submit(p, ch, who, claimed, request, delivery).Some?
    ensures Grows(ch.core, Submit(p, ch, who, claimed, request, delivery).value.core)
  {
  }

  // --- what it does to the run of the protocol

  /** No event so far is outside the requests on which the hashes do not collide. */
  ghost predicate NoSurprise(d: Deployment, s: System) {
    EventsOccur(d.profiles.b, s.a.core.events) && EventsOccur(d.profiles.a, s.b.core.events)
  }

  /** What a message did is a move that the hypotheses allow. */
  lemma PermittedIsAllowed(d: Deployment, s: System, side: Side, action: Action, ch': Chain)
    requires Inv(d, s) && AllCovered(s) && Did(d, side, s.At(side), s.At(side.Other()).core.events, Some(action), ch')
    requires NoSurprise(d, s.With(side, ch'))
    ensures Allowed(d, s, Move(side, action))
  {
    var p, ch := d.profiles.At(side), s.At(side);
    assert SideInv(d, s, side) && SideInv(d, s, side.Other());
    if action.Outbound? {
      assert ch'.core.events[|ch.core.events|] in d.profiles.At(side.Other()).scheme.occurs;
    }
  }

  lemma RunSnoc(d: Deployment, s: System, moves: seq<Move>, m: Move)
    requires Booted(s)
    ensures Run(d, s, moves + [m]) == Apply(d, Run(d, s, moves), m)
  {
    assert (moves + [m])[..|moves|] == moves;
  }

  /** A run of the protocol whose hypotheses so far hold: what the theorems about runs say of its last state. */
  lemma Reached(d: Deployment, s: System, moves: seq<Move>)
    requires WellDeployed(d) && Genesis(d, s)
    ensures var u := Run(d, s, moves); Inv(d, u) && Routed(d, u) && AllCovered(u)
  {
    GenesisInv(d, s);
    RunKeeps(d, s, moves);
    RunKeepsRouted(d, s, moves);
    RunKeepsCovered(d, s, moves);
  }

  /** The move that was made, if any. */
  function Moves(side: Side, done: Option<Action>): seq<Move> {
    if done.Some? then [Move(side, done.value)] else []
  }

  /** One more message extends a run of the protocol by one move, or not at all. */
  lemma DidExtends(d: Deployment, s: System, moves: seq<Move>, side: Side, done: Option<Action>, ch': Chain)
    returns (moves': seq<Move>)
    requires WellDeployed(d) && Genesis(d, s)
    requires var u := Run(d, s, moves); Did(d, side, u.At(side), u.At(side.Other()).core.events, done, ch')
    requires NoSurprise(d, Run(d, s, moves).With(side, ch'))
    ensures moves' == if done.None? then moves else moves + [Move(side, done.value)]
    ensures Run(d, s, moves') == Run(d, s, moves).With(side, ch')
    ensures done.Some? ==> Run(d, s, moves') == Apply(d, Run(d, s, moves), Move(side, done.value))
  {
    moves' := moves;
    if done.Some? {
      Reached(d, s, moves);
      PermittedIsAllowed(d, Run(d, s, moves), side, done.value, ch');
      moves' := moves + [Move(side, done.value)];
      RunSnoc(d, s, moves, Move(side, done.value));
    }
  }

  // --- what follows for the contracts

  /** Every asset whose wrapped token starts at zero is backed. */
  ghost predicate AllBacked(d: Deployment, start: System, s: System) {
    forall home, t | HomeAsset(d, home, t) && Supply(start.At(home.Other()).ledger, d.twin.At(home)[t]) == 0 ::
      Backed(d, s, home, t)
  }

  lemma RunBacked(d: Deployment, s: System, moves: seq<Move>)
    requires WellDeployed(d) && Genesis(d, s)
    ensures AllBacked(d, s, Run(d, s, moves))
  {
    forall home, t | HomeAsset(d, home, t) && Supply(s.At(home.Other()).ledger, d.twin.At(home)[t]) == 0
      ensures Backed(d, Run(d, s, moves), home, t)
    {
      BackedAlways(d, s, moves, home, t);
    }
  }

  /** The contracts keep every committee they ever had. */
  ghost predicate CommitteesKept(before: System, after: System) {
    before.a.core.rosters <= after.a.core.rosters && before.b.core.rosters <= after.b.core.rosters
  }

  // --- where it starts

  /** The parameters of the two deployments. */
  datatype Launchpad = Launchpad(committee: seq<Account>, threshold: nat, owner: Account, self: Account,
                                 hash: Request -> Hash, ledger: Ledger)

  ghost predicate Plays(pad: Launchpad, p: Profile) {
    && p.scheme.hash == pad.hash && p.self == pad.self && Covered(pad.ledger)
    && |FaultyMembers(p, pad.committee)| < pad.threshold
  }

  ghost predicate NothingWrapped(d: Deployment, a: Ledger, b: Ledger) {
    forall home, t | HomeAsset(d, home, t) :: Supply(if home == A then b else a, d.twin.At(home)[t]) == 0
  }

  /** Where nothing was wrapped at the start, every asset is backed. */
  lemma NothingWrappedBacked(d: Deployment, start: System, s: System)
    requires NothingWrapped(d, start.a.ledger, start.b.ledger) && AllBacked(d, start, s)
    ensures forall home, t | HomeAsset(d, home, t) :: Backed(d, s, home, t)
  {
    forall home, t | HomeAsset(d, home, t) ensures Backed(d, s, home, t) {
      assert Supply(start.At(home.Other()).ledger, d.twin.At(home)[t]) == 0;
    }
  }
}
