/** The abstract guardian-vote machine that both the ink! and the Solidity contract implement:
    for every request hash the set of guardians that signed it, and the set of executed hashes.
    A hash is executed in the very step in which its signers reach the committee's threshold. */
module Collector {
  import opened Types

  datatype Roster = Roster(members: seq<Account>, threshold: nat)

  datatype Ballot = Ballot(request: Request, signers: set<Account>)

  /** `rosters[c]` is committee `c`; `events` are the requests emitted by this contract, oldest
      first; `log` are the incoming requests it executed, oldest first. */
  datatype Core = Core(rosters: seq<Roster>, ballots: map<Hash, Ballot>, executed: set<Hash>,
                       events: seq<Request>, log: seq<Request>)

  datatype Step =
    | Install(members: seq<Account>, threshold: nat)
    | Emit(token: Token, amount: nat, receiver: Account)
    | Vote(hash: Hash, request: Request, who: Account)

  /** The hash function of a contract, and the requests on which it must not collide. */
  datatype Scheme = Scheme(hash: Request -> Hash, ghost occurs: iset<Request>)

  ghost predicate CollisionFree(scheme: Scheme) {
    forall r, r' | r in scheme.occurs && r' in scheme.occurs && scheme.hash(r) == scheme.hash(r') :: r == r'
  }

  // --- queries

  predicate InCommittee(core: Core, committee: nat, who: Account) {
    committee < |core.rosters| && who in core.rosters[committee].members
  }

  function Signers(core: Core, hash: Hash): set<Account> {
    if hash in core.ballots then core.ballots[hash].signers else {}
  }

  predicate NeedsSignature(core: Core, hash: Hash, who: Account, committee: nat) {
    InCommittee(core, committee, who) && hash !in core.executed && who !in Signers(core, hash)
  }

  // --- steps

  /** A vote changes the state exactly when its hash matches its data and the signature is needed. */
  predicate Accepts(hash: Request -> Hash, core: Core, claimed: Hash, request: Request, who: Account) {
    claimed == hash(request) && NeedsSignature(core, claimed, who, request.committee)
  }

  predicate ReachesQuorum(core: Core, hash: Hash, request: Request, who: Account)
    requires request.committee < |core.rosters|
  {
    |Signers(core, hash) + {who}| >= core.rosters[request.committee].threshold
  }

  function Cast(core: Core, hash: Hash, request: Request, who: Account): Core
    requires request.committee < |core.rosters|
  {
    var ballots := core.ballots[hash := Ballot(request, Signers(core, hash) + {who})];
    if ReachesQuorum(core, hash, request, who) then
      core.(ballots := ballots, executed := core.executed + {hash}, log := core.log + [request])
    else
      core.(ballots := ballots)
  }

  function AddRoster(core: Core, members: seq<Account>, threshold: nat): Core {
    core.(rosters := core.rosters + [Roster(members, threshold)])
  }

  /** The next request to be emitted: current committee, next nonce. */
  function NextEvent(core: Core, token: Token, amount: nat, receiver: Account): Request
    requires |core.rosters| > 0
  {
    Request(|core.rosters| - 1, token, amount, receiver, |core.events|)
  }

  function EmitEvent(core: Core, token: Token, amount: nat, receiver: Account): Core
    requires |core.rosters| > 0
  {
    core.(events := core.events + [NextEvent(core, token, amount, receiver)])
  }

  ghost predicate GoodRoster(members: seq<Account>, threshold: nat) {
    threshold >= 1 && Distinct(members)
  }

  /** One message; a message the contract refuses leaves the state as it is. */
  ghost function Next(hash: Request -> Hash, core: Core, step: Step): Core
    requires |core.rosters| > 0
    ensures |Next(hash, core, step).rosters| > 0
  {
    match step
    case Install(members, threshold) =>
      if GoodRoster(members, threshold) then AddRoster(core, members, threshold) else core
    case Emit(token, amount, receiver) => EmitEvent(core, token, amount, receiver)
    case Vote(claimed, request, who) =>
      if Accepts(hash, core, claimed, request, who) then Cast(core, claimed, request, who) else core
  }

  ghost function CoreRun(hash: Request -> Hash, core: Core, steps: seq<Step>): Core
    requires |core.rosters| > 0
    ensures |CoreRun(hash, core, steps).rosters| > 0
    decreases |steps|
  {
    if steps == [] then core
    else Next(hash, CoreRun(hash, core, steps[..|steps| - 1]), steps[|steps| - 1])
  }

  ghost predicate Occurring(scheme: Scheme, steps: seq<Step>) {
    forall i | 0 <= i < |steps| && steps[i].Vote? :: steps[i].request in scheme.occurs
  }

  ghost predicate Fresh(core: Core) {
    && |core.rosters| == 1
    && GoodRoster(core.rosters[0].members, core.rosters[0].threshold)
    && core.ballots == map[] && core.executed == {} && core.events == [] && core.log == []
  }

  // --- the quorum invariant

  ghost predicate GoodRosters(core: Core) {
    && |core.rosters| > 0
    && forall c | 0 <= c < |core.rosters| :: GoodRoster(core.rosters[c].members, core.rosters[c].threshold)
  }

  /** The k-th emitted request carries nonce k - 1 and was emitted under an installed committee. */
  ghost predicate NonceDiscipline(core: Core) {
    forall i | 0 <= i < |core.events| ::
      core.events[i].nonce == i && core.events[i].committee < |core.rosters|
  }

  /** A ballot holds the one request that hashes to its key, signed only by members of that request's
      committee: fewer than the threshold while pending, exactly the threshold once executed. */
  ghost predicate GoodBallot(scheme: Scheme, core: Core, hash: Hash)
    requires hash in core.ballots
  {
    var ballot := core.ballots[hash];
    var c := ballot.request.committee;
    && ballot.request in scheme.occurs && scheme.hash(ballot.request) == hash
    && c < |core.rosters|
    && (forall a | a in ballot.signers :: a in core.rosters[c].members)
    && (if hash in core.executed then |ballot.signers| == core.rosters[c].threshold
        else 0 < |ballot.signers| < core.rosters[c].threshold)
  }

  ghost predicate Quorum(scheme: Scheme, core: Core) {
    && core.executed <= core.ballots.Keys
    && forall h | h in core.ballots :: GoodBallot(scheme, core, h)
  }

  /** The log lists every executed ballot, and no request twice. */
  ghost predicate LogExact(scheme: Scheme, core: Core) {
    && (forall i | 0 <= i < |core.log| ::
          scheme.hash(core.log[i]) in core.executed && core.log[i] in scheme.occurs)
    && Distinct(core.log)
    && (forall h | h in core.executed :: h in core.ballots && core.ballots[h].request in core.log)
  }

  ghost predicate CoreInv(scheme: Scheme, core: Core) {
    GoodRosters(core) && NonceDiscipline(core) && Quorum(scheme, core) && LogExact(scheme, core)
  }

  lemma InstallKeeps(scheme: Scheme, core: Core, members: seq<Account>, threshold: nat)
    requires CoreInv(scheme, core) && GoodRoster(members, threshold)
    ensures CoreInv(scheme, AddRoster(core, members, threshold))
  {
    var core' := AddRoster(core, members, threshold);
    forall h | h in core'.ballots ensures GoodBallot(scheme, core', h) {
      assert GoodBallot(scheme, core, h);
    }
  }

  lemma EmitKeeps(scheme: Scheme, core: Core, token: Token, amount: nat, receiver: Account)
    requires CoreInv(scheme, core)
    ensures CoreInv(scheme, EmitEvent(core, token, amount, receiver))
  {
    var core' := EmitEvent(core, token, amount, receiver);
    forall h | h in core'.ballots ensures GoodBallot(scheme, core', h) {
      assert GoodBallot(scheme, core, h);
    }
  }

  /** The ballot an accepted vote joins is for the very request it names. */
  lemma SameRequest(scheme: Scheme, core: Core, hash: Hash, request: Request)
    requires CollisionFree(scheme) && Quorum(scheme, core)
    requires hash == scheme.hash(request) && request in scheme.occurs
    ensures hash in core.ballots ==> core.ballots[hash].request == request
  {
    if hash in core.ballots {
      assert GoodBallot(scheme, core, hash);
    }
  }

  lemma CastKeepsQuorum(scheme: Scheme, core: Core, hash: Hash, request: Request, who: Account)
    requires CollisionFree(scheme) && GoodRosters(core) && Quorum(scheme, core) && request in scheme.occurs
    requires Accepts(scheme.hash, core, hash, request, who)
    ensures Quorum(scheme, Cast(core, hash, request, who))
  {
    var core' := Cast(core, hash, request, who);
    SameRequest(scheme, core, hash, request);
    forall h | h in core'.ballots ensures GoodBallot(scheme, core', h) {
      if h in core.ballots {
        assert GoodBallot(scheme, core, h);
      }
      if h == hash {
        assert |Signers(core, hash) + {who}| == |Signers(core, hash)| + 1;
      }
    }
  }

  /** The log of a vote that does not reach the quorum is unchanged, and its ballot is not executed. */
  lemma PendingKeepsLog(scheme: Scheme, core: Core, hash: Hash, request: Request, who: Account)
    requires LogExact(scheme, core) && hash !in core.executed && request.committee < |core.rosters|
    requires !ReachesQuorum(core, hash, request, who)
    ensures LogExact(scheme, Cast(core, hash, request, who))
  {
  }

  /** A request whose hash is not executed is not in the log, so the longer log has no duplicates either. */
  lemma LongerLogDistinct(scheme: Scheme, core: Core, request: Request)
    requires LogExact(scheme, core) && scheme.hash(request) !in core.executed
    ensures Distinct(core.log + [request])
  {
  }

  /** The executing vote appends its request to the log and its hash to the executed ones. */
  lemma ExecutionKeepsLog(scheme: Scheme, core: Core, hash: Hash, request: Request, who: Account)
    requires LogExact(scheme, core) && hash !in core.executed && request.committee < |core.rosters|
    requires request in scheme.occurs && hash == scheme.hash(request)
    requires ReachesQuorum(core, hash, request, who)
    ensures LogExact(scheme, Cast(core, hash, request, who))
  {
    var core' := Cast(core, hash, request, who);
    LongerLogDistinct(scheme, core, request);
    assert request == core'.log[|core.log|];
    forall h | h in core'.executed ensures h in core'.ballots && core'.ballots[h].request in core'.log {
      if h != hash {
        assert core.ballots[h].request in core.log;
      }
    }
  }

  lemma CastKeepsLog(scheme: Scheme, core: Core, hash: Hash, request: Request, who: Account)
    requires LogExact(scheme, core) && request in scheme.occurs
    requires Accepts(scheme.hash, core, hash, request, who)
    ensures LogExact(scheme, Cast(core, hash, request, who))
  {
    if ReachesQuorum(core, hash, request, who) {
      ExecutionKeepsLog(scheme, core, hash, request, who);
    } else {
      PendingKeepsLog(scheme, core, hash, request, who);
    }
  }

  lemma CastKeeps(scheme: Scheme, core: Core, hash: Hash, request: Request, who: Account)
    requires CollisionFree(scheme) && CoreInv(scheme, core) && request in scheme.occurs
    requires Accepts(scheme.hash, core, hash, request, who)
    ensures CoreInv(scheme, Cast(core, hash, request, who))
  {
    CastKeepsQuorum(scheme, core, hash, request, who);
    CastKeepsLog(scheme, core, hash, request, who);
  }

  /** What every message keeps. */
  lemma NextKeeps(scheme: Scheme, core: Core, step: Step)
    requires CollisionFree(scheme) && CoreInv(scheme, core)
    requires step.Vote? ==> step.request in scheme.occurs
    ensures CoreInv(scheme, Next(scheme.hash, core, step))
  {
    match step
    case Install(members, threshold) =>
      if GoodRoster(members, threshold) { InstallKeeps(scheme, core, members, threshold); }
    case Emit(token, amount, receiver) => EmitKeeps(scheme, core, token, amount, receiver);
    case Vote(claimed, request, who) =>
      if Accepts(scheme.hash, core, claimed, request, who) {
        CastKeeps(scheme, core, claimed, request, who);
      }
  }

  /** In every run: exact quorums, nonces equal to positions, and nothing executed twice. */
  lemma {:induction false} CoreRunKeeps(scheme: Scheme, core: Core, steps: seq<Step>)
    requires CollisionFree(scheme) && CoreInv(scheme, core) && Occurring(scheme, steps)
    ensures CoreInv(scheme, CoreRun(scheme.hash, core, steps))
    decreases |steps|
  {
    if steps != [] {
      var before := steps[..|steps| - 1];
      CoreRunKeeps(scheme, core, before);
      NextKeeps(scheme, CoreRun(scheme.hash, core, before), steps[|steps| - 1]);
    }
  }

  lemma FreshInv(scheme: Scheme, core: Core)
    requires Fresh(core)
    ensures CoreInv(scheme, core)
  {
  }

  // --- stability of "no signature needed"

  /** `who` will never again be asked to sign `hash` under `committee`: it is already executed, already
      signed by `who`, or the committee is installed and `who` is not in it. */
  predicate Settled(core: Core, hash: Hash, who: Account, committee: nat) {
    || hash in core.executed
    || who in Signers(core, hash)
    || (committee < |core.rosters| && !InCommittee(core, committee, who))
  }

  /** No later message can make the signature needed. */
  ghost predicate UnneededForever(hash: Request -> Hash, core: Core, h: Hash, who: Account, committee: nat)
    requires |core.rosters| > 0
  {
    forall steps :: !NeedsSignature(CoreRun(hash, core, steps), h, who, committee)
  }

  lemma {:induction false} SettledForever(hash: Request -> Hash, core: Core, steps: seq<Step>, h: Hash, who: Account,
                                          committee: nat)
    requires |core.rosters| > 0 && Settled(core, h, who, committee)
    ensures Settled(CoreRun(hash, core, steps), h, who, committee)
    decreases |steps|
  {
    if steps != [] {
      SettledForever(hash, core, steps[..|steps| - 1], h, who, committee);
    }
  }

  /** "No signature needed" is permanent exactly when it is settled: reading `false` for a committee that is
      not installed yet proves nothing, because a later rotation can make the answer `true`. */
  lemma UnneededForeverIff(hash: Request -> Hash, core: Core, h: Hash, who: Account, committee: nat)
    requires |core.rosters| > 0
    ensures UnneededForever(hash, core, h, who, committee) <==> Settled(core, h, who, committee)
  {
    if Settled(core, h, who, committee) {
      forall steps ensures !NeedsSignature(CoreRun(hash, core, steps), h, who, committee) {
        SettledForever(hash, core, steps, h, who, committee);
      }
    } else {
      var missing := if committee < |core.rosters| then 0 else committee + 1 - |core.rosters|;
      var steps := seq(missing, _ => Install([who], 1));
      RotateTo(hash, core, who, steps);
      assert NeedsSignature(CoreRun(hash, core, steps), h, who, committee);
    }
  }

  lemma {:induction false} RotateTo(hash: Request -> Hash, core: Core, who: Account, steps: seq<Step>)
    requires |core.rosters| > 0
    requires forall i | 0 <= i < |steps| :: steps[i] == Install([who], 1)
    ensures CoreRun(hash, core, steps)
            == core.(rosters := core.rosters + seq(|steps|, _ => Roster([who], 1)))
    decreases |steps|
  {
    if steps != [] {
      RotateTo(hash, core, who, steps[..|steps| - 1]);
    }
  }

  // --- enough votes execute

  ghost function Votes(hash: Request -> Hash, request: Request, voters: seq<Account>): seq<Step> {
    seq(|voters|, i requires 0 <= i < |voters| => Vote(hash(request), request, voters[i]))
  }

  /** Before any of `voters` has voted: the request is new, and they are distinct members of its committee. */
  ghost predicate MayVote(hash: Request -> Hash, core: Core, request: Request, voters: seq<Account>) {
    && request.committee < |core.rosters| && Distinct(voters)
    && (forall i | 0 <= i < |voters| :: voters[i] in core.rosters[request.committee].members)
    && hash(request) !in core.executed && hash(request) !in core.ballots
  }

  ghost function Voters(voters: seq<Account>): set<Account> { set v | v in voters }

  lemma {:induction false} VotersCount(voters: seq<Account>)
    requires Distinct(voters)
    ensures |Voters(voters)| == |voters|
    decreases |voters|
  {
    if voters == [] {
      assert Voters(voters) == {};
    } else {
      var n := |voters| - 1;
      VotersCount(voters[..n]);
      VotersSnoc(voters[..n], voters[n]);
      assert voters[..n] + [voters[n]] == voters;
    }
  }

  lemma VotersSnoc(voters: seq<Account>, who: Account)
    ensures Voters(voters + [who]) == Voters(voters) + {who}
  {
  }

  /** The state after `voters` have voted for a new request, short of the quorum. */
  ghost function AfterVotes(hash: Request -> Hash, core: Core, request: Request, voters: seq<Account>): Core {
    if voters == [] then core
    else core.(ballots := core.ballots[hash(request) := Ballot(request, Voters(voters))])
  }

  lemma OneMoreVote(hash: Request -> Hash, core: Core, request: Request, voters: seq<Account>, who: Account)
    requires |core.rosters| > 0 && MayVote(hash, core, request, voters + [who])
    requires |voters| < core.rosters[request.committee].threshold
    ensures var h := hash(request);
            var u := Next(hash, AfterVotes(hash, core, request, voters), Vote(h, request, who));
            if |voters| + 1 < core.rosters[request.committee].threshold
            then u == AfterVotes(hash, core, request, voters + [who])
            else u == AfterVotes(hash, core, request, voters + [who]).(executed := core.executed + {h},
                                                                     log := core.log + [request])
  {
    var all := voters + [who];
    assert all[|voters|] == who;
    VotersCount(all);
    VotersSnoc(voters, who);
    forall i | 0 <= i < |voters| ensures voters[i] != who {
      assert all[i] == voters[i];
    }
    var u := AfterVotes(hash, core, request, voters);
    assert Signers(u, hash(request)) == Voters(voters);
    assert core.ballots[hash(request) := Ballot(request, Voters(voters))][hash(request) := Ballot(request, Voters(all))]
           == core.ballots[hash(request) := Ballot(request, Voters(all))];
  }

  lemma VotesSnoc(hash: Request -> Hash, core: Core, request: Request, voters: seq<Account>, who: Account)
    requires |core.rosters| > 0
    ensures CoreRun(hash, core, Votes(hash, request, voters + [who]))
            == Next(hash, CoreRun(hash, core, Votes(hash, request, voters)), Vote(hash(request), request, who))
  {
    var votes := Votes(hash, request, voters + [who]);
    assert votes[..|votes| - 1] == Votes(hash, request, voters);
    assert votes[|votes| - 1] == Vote(hash(request), request, who);
  }

  lemma MayVotePrefix(hash: Request -> Hash, core: Core, request: Request, voters: seq<Account>, who: Account)
    requires MayVote(hash, core, request, voters + [who])
    ensures MayVote(hash, core, request, voters)
  {
    assert forall i | 0 <= i < |voters| :: voters[i] == (voters + [who])[i];
  }

  lemma {:induction false} VotesCollect(hash: Request -> Hash, core: Core, request: Request, voters: seq<Account>)
    requires |core.rosters| > 0 && MayVote(hash, core, request, voters)
    requires |voters| < core.rosters[request.committee].threshold
    ensures CoreRun(hash, core, Votes(hash, request, voters)) == AfterVotes(hash, core, request, voters)
    decreases |voters|
  {
    if voters != [] {
      var before, who := voters[..|voters| - 1], voters[|voters| - 1];
      assert voters == before + [who];
      MayVotePrefix(hash, core, request, before, who);
      VotesCollect(hash, core, request, before);
      VotesSnoc(hash, core, request, before, who);
      OneMoreVote(hash, core, request, before, who);
    }
  }

  /** A request that as many members of its committee vote for as its threshold asks is executed by the last vote, and
      not before. */
  lemma VotesExecute(hash: Request -> Hash, core: Core, request: Request, before: seq<Account>, who: Account)
    requires |core.rosters| > 0 && MayVote(hash, core, request, before + [who])
    requires |before| + 1 == core.rosters[request.committee].threshold
    ensures var u := CoreRun(hash, core, Votes(hash, request, before));
            && u.executed == core.executed && u.log == core.log
    ensures CoreRun(hash, core, Votes(hash, request, before + [who]))
            == core.(ballots := core.ballots[hash(request) := Ballot(request, Voters(before + [who]))],
                     executed := core.executed + {hash(request)}, log := core.log + [request])
  {
    MayVotePrefix(hash, core, request, before, who);
    VotesCollect(hash, core, request, before);
    VotesSnoc(hash, core, request, before, who);
    OneMoreVote(hash, core, request, before, who);
  }

  /** Installed committees never change. */
  lemma {:induction false} CommitteesForever(hash: Request -> Hash, core: Core, steps: seq<Step>)
    requires |core.rosters| > 0
    ensures core.rosters <= CoreRun(hash, core, steps).rosters
    decreases |steps|
  {
    if steps != [] {
      CommitteesForever(hash, core, steps[..|steps| - 1]);
    }
  }
}
