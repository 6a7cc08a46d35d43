/** From the send to the payout: every event of a run stems from an accepted send of that moment, and every event that
    enough guardians vote for is executed and paid. */
module Delivery {
  import opened Types
  import opened Collector
  import opened Treasury
  import opened Effects
  import opened Protocol
  import opened Backing
  import opened Messages

  // --- where events come from

  /** The event asks for what the caller sent: the counterpart of the token, the amount, the caller's receiver. */
  ghost predicate Announces(p: Profile, pairs: map<Token, Token>, send: Send, e: Request) {
    && e.receiver == send.receiver
    && match send
       case SendToken(token, amount, _) => token in pairs && e.token == pairs[token] && e.amount == amount
       case SendNative(amount, _) =>
         && e.amount == Promised(p, amount)
         && (if p.flavour.InkL1? || p.flavour.SolL1? then p.native in pairs && e.token == pairs[p.native]
             else e.token == NATIVE_MARKER)
       case SendToNative(amount, _) => e.token == NATIVE_MARKER && e.amount == amount
  }

  /** An accepted send emits one event: for the caller, under the committee of the moment, with the next nonce. */
  lemma SendAnnounces(p: Profile, ch: Chain, send: Send)
    requires |ch.core.rosters| > 0 && Dispatch(p, ch, send).Some?
    ensures var core := Dispatch(p, ch, send).value.core;
            && |core.events| == |ch.core.events| + 1 && ch.core.events <= core.events
            && Announces(p, ch.pairs, send, core.events[|ch.core.events|])
            && core.events[|ch.core.events|].committee == |ch.core.rosters| - 1
            && core.events[|ch.core.events|].nonce == |ch.core.events|
  {
  }

  lemma OthersAnnounceNothing(p: Profile, ch: Chain, action: Action)
    requires |ch.core.rosters| > 0 && !action.Outbound? && Perform(p, ch, action).Some?
    ensures Perform(p, ch, action).value.core.events == ch.core.events
  {
  }

  /** The `i`-th move is an accepted send that announced the event `e`, the `k`-th of its chain. */
  ghost predicate SentBy(d: Deployment, s: System, moves: seq<Move>, i: nat, side: Side, k: nat, e: Request)
    requires Booted(s)
  {
    && i < |moves| && moves[i].side == side && moves[i].action.Outbound?
    && var ch := Run(d, s, moves[..i]).At(side);
       && |ch.core.events| == k && !ch.halted
       && Announces(d.profiles.At(side), ch.pairs, moves[i].action.send, e)
       && e.committee == |ch.core.rosters| - 1 && e.nonce == k
  }

  /** One more move announces at most one event, and only if it is an accepted send. */
  lemma ApplyAnnounces(d: Deployment, s: System, m: Move, side: Side)
    requires Booted(s)
    ensures var events, events' := s.At(side).core.events, Apply(d, s, m).At(side).core.events;
            && events <= events' && |events'| <= |events| + 1
            && (events' != events ==>
                  && m.side == side && m.action.Outbound? && !s.At(side).halted
                  && Announces(d.profiles.At(side), s.At(side).pairs, m.action.send, events'[|events|])
                  && events'[|events|].committee == |s.At(side).core.rosters| - 1
                  && events'[|events|].nonce == |events|)
  {
    var p, ch := d.profiles.At(m.side), s.At(m.side);
    if Allowed(d, s, m) && Perform(p, ch, m.action).Some? {
      if m.action.Outbound? {
        SendAnnounces(p, ch, m.action.send);
      } else {
        OthersAnnounceNothing(p, ch, m.action);
      }
    }
  }

  lemma SentByPrefix(d: Deployment, s: System, moves: seq<Move>, n: nat, i: nat, side: Side, k: nat, e: Request)
    requires Booted(s) && n <= |moves| && SentBy(d, s, moves[..n], i, side, k, e)
    ensures SentBy(d, s, moves, i, side, k, e)
  {
    assert moves[..n][..i] == moves[..i] && moves[..n][i] == moves[i];
  }

  /** In every run, each new event was announced by an accepted send of its own chain: for that caller's receiver and
      amount, and under the committee that was current at that moment. */
  lemma {:induction false} EventsAreSends(d: Deployment, s: System, moves: seq<Move>, side: Side, k: nat)
    returns (i: nat)
    requires Booted(s) && |s.At(side).core.events| <= k < |Run(d, s, moves).At(side).core.events|
    ensures SentBy(d, s, moves, i, side, k, Run(d, s, moves).At(side).core.events[k])
    decreases |moves|
  {
    assert moves != [];
    var n := |moves| - 1;
    var u := Run(d, s, moves[..n]);
    ApplyAnnounces(d, u, moves[n], side);
    if k < |u.At(side).core.events| {
      i := EventsAreSends(d, s, moves[..n], side, k);
      SentByPrefix(d, s, moves, n, i, side, k, u.At(side).core.events[k]);
    } else {
      i := n;
    }
  }

  // --- enough votes deliver

  function Ballots(hash: Hash, request: Request, voters: seq<Account>): seq<Action> {
    seq(|voters|, i requires 0 <= i < |voters| => Guard(voters[i], hash, request, Delivered))
  }

  function OnSide(side: Side, actions: seq<Action>): seq<Move> {
    seq(|actions|, i requires 0 <= i < |actions| => Move(side, actions[i]))
  }

  function VotingMoves(d: Deployment, side: Side, request: Request, voters: seq<Account>): seq<Move> {
    OnSide(side, Ballots(d.profiles.At(side).scheme.hash(request), request, voters))
  }

  /** An open bridge, and an event of the other chain that nobody has voted for. */
  ghost predicate Pending(d: Deployment, s: System, side: Side, request: Request, voters: seq<Account>) {
    var p, core := d.profiles.At(side), s.At(side).core;
    && !s.At(side).halted && request in p.scheme.occurs && request in s.At(side.Other()).core.events
    && |core.rosters| > 0 && MayVote(p.scheme.hash, core, request, voters)
  }

  lemma VotingSnoc(d: Deployment, s: System, side: Side, request: Request, voters: seq<Account>, who: Account)
    requires Booted(s)
    ensures var m := Move(side, Guard(who, d.profiles.At(side).scheme.hash(request), request, Delivered));
            Run(d, s, VotingMoves(d, side, request, voters + [who]))
            == Apply(d, Run(d, s, VotingMoves(d, side, request, voters)), m)
  {
    var m := Move(side, Guard(who, d.profiles.At(side).scheme.hash(request), request, Delivered));
    assert VotingMoves(d, side, request, voters + [who]) == VotingMoves(d, side, request, voters) + [m];
    RunSnoc(d, s, VotingMoves(d, side, request, voters), m);
  }

  /** One vote short of the quorum: the signatures are there, nothing else has changed. */
  lemma {:induction false} VotingCollects(d: Deployment, s: System, side: Side, request: Request, voters: seq<Account>)
    requires Booted(s) && Pending(d, s, side, request, voters)
    requires |voters| < s.At(side).core.rosters[request.committee].threshold
    ensures var p, ch := d.profiles.At(side), s.At(side);
            Run(d, s, VotingMoves(d, side, request, voters))
            == s.With(side, ch.(core := AfterVotes(p.scheme.hash, ch.core, request, voters)))
    decreases |voters|
  {
    var p, ch := d.profiles.At(side), s.At(side);
    if voters == [] {
      assert VotingMoves(d, side, request, voters) == [];
    } else {
      var before, who := voters[..|voters| - 1], voters[|voters| - 1];
      assert voters == before + [who];
      MayVotePrefix(p.scheme.hash, ch.core, request, before, who);
      VotingCollects(d, s, side, request, before);
      VotingSnoc(d, s, side, request, before, who);
      LastVote(d, s, side, request, before, who);
      OneMoreVote(p.scheme.hash, ch.core, request, before, who);
    }
  }

  /** What one more vote does to a chain on which `before` have voted. */
  lemma LastVote(d: Deployment, s: System, side: Side, request: Request, before: seq<Account>, who: Account)
    requires Booted(s) && Pending(d, s, side, request, before + [who])
    requires |before| < s.At(side).core.rosters[request.committee].threshold
    ensures var p, ch := d.profiles.At(side), s.At(side);
            var h, core := p.scheme.hash(request), AfterVotes(p.scheme.hash, ch.core, request, before);
            var u := s.With(side, ch.(core := core));
            var last := |before| + 1 == ch.core.rosters[request.committee].threshold;
            var paid := PaidOut(p, ch.ledger, request, Delivered);
            (last ==> paid.Some?) ==>
              Apply(d, u, Move(side, Guard(who, h, request, Delivered)))
              == s.With(side, ch.(core := Next(p.scheme.hash, core, Vote(h, request, who)),
                                  ledger := if last then paid.value else ch.ledger))
  {
    var p, ch := d.profiles.At(side), s.At(side);
    var h, core := p.scheme.hash(request), AfterVotes(p.scheme.hash, ch.core, request, before);
    var all := before + [who];
    assert all[|before|] == who;
    forall i | 0 <= i < |before| ensures before[i] != who {
      assert all[i] == before[i];
    }
    MayVotePrefix(p.scheme.hash, ch.core, request, before, who);
    VotersCount(before);
    assert Signers(core, h) == Voters(before);
    assert |Voters(before) + {who}| == |before| + 1;
    assert Accepts(p.scheme.hash, core, h, request, who);
  }

  /** Delivery: an event of the other chain that as many members of its committee vote for as the threshold asks is
      executed and paid out, provided the payout itself works. */
  lemma VotesDeliver(d: Deployment, s: System, side: Side, request: Request, before: seq<Account>, who: Account)
    requires Booted(s) && Pending(d, s, side, request, before + [who])
    requires |before| + 1 == s.At(side).core.rosters[request.committee].threshold
    requires PaidOut(d.profiles.At(side), s.At(side).ledger, request, Delivered).Some?
    ensures var p, ch := d.profiles.At(side), s.At(side);
            var h, u := p.scheme.hash(request), Run(d, s, VotingMoves(d, side, request, before + [who]));
            && u.At(side.Other()) == s.At(side.Other())
            && u.At(side).core.executed == ch.core.executed + {h} && u.At(side).core.log == ch.core.log + [request]
            && Some(u.At(side).ledger) == PaidOut(p, ch.ledger, request, Delivered)
  {
    var p, ch := d.profiles.At(side), s.At(side);
    MayVotePrefix(p.scheme.hash, ch.core, request, before, who);
    VotingCollects(d, s, side, request, before);
    VotingSnoc(d, s, side, request, before, who);
    LastVote(d, s, side, request, before, who);
    OneMoreVote(p.scheme.hash, ch.core, request, before, who);
  }
}
