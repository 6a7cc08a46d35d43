/** The two contracts at work: an `InkMost.Most` on Aleph Zero and a `SolidityMost.AbstractMost` on Ethereum, called in
    any order by users, owners, guardians and outsiders.  The storage of the two contracts runs through the states of
    the two-chain protocol, so what is proved of its runs holds of the contracts. */
module Bridge {
  import opened Types
  import opened Collector
  import opened Treasury
  import opened Protocol
  import opened Backing
  import opened Committees
  import opened Dormancy
  import opened Messages
  import opened Fees
  import opened Rewards
  import InkMost
  import SolidityMost

  /** A message to one of the contracts, or tokens moved by others on its chain. `CallVote` is any submission by a
      faulty guardian, `CallRelay` an honest guardian's vote for the event at `index` in the other chain's event log. */
  datatype Call =
    | CallSend(send: Send, value: nat, answer: Answer, now: nat, limitOk: bool, callOk: bool)
    | CallVote(who: Account, claimed: Hash, request: Request, delivery: Delivery, price: Option<nat>, coinOk: bool)
    | CallRelay(who: Account, index: nat, delivery: Delivery, price: Option<nat>, coinOk: bool)
    | CallRotate(caller: Account, members: seq<Account>, threshold: nat)
    | CallPair(caller: Account, from: Token, dest: Token, local: bool, minter: bool)
    | CallUnpair(caller: Account, from: Token)
    | CallMark(caller: Account, token: Token)
    | CallNative(caller: Account, token: Token)
    | CallForeign(caller: Account, token: Token)
    | CallHalt(caller: Account, state: bool)
    | CallPayout(committee: nat, member: Account)
    | CallFund(value: nat)
    | CallOutside(token: Token, quantity: nat, movement: Movement)

  datatype Order = Order(side: Side, call: Call)

  /** The hypotheses on callers: who votes without looking is faulty and votes only for requests without collisions,
      owners install committees with fewer faulty members than the threshold, add mirrored pairs and the right native
      tokens only, mark tokens as local only at their home, and outsiders mint and burn only what is at home on their
      chain. */
  ghost predicate Lawful(d: Deployment, side: Side, call: Call) {
    var p := d.profiles.At(side);
    match call
    case CallVote(who, _, request, _, _, _) => who in p.faulty && request in p.scheme.occurs
    case CallRotate(_, members, threshold) => |FaultyMembers(p, members)| < threshold
    case CallPair(_, from, dest, local, _) =>
      PairsAgree(d, side, map[from := dest]) && MirroredToken(d, side, from) && local == IsLocal(p, from)
    case CallMark(_, token) => AddressOf(p, token) in p.local
    case CallNative(_, token) => token == p.native
    case CallForeign(_, token) => token == p.foreign
    case CallOutside(token, _, movement) => movement.Donate? || IsLocal(p, token)
    case _ => true
  }

  // --- contracts look at part of a profile only

  /** A contract set up as `q` plays the part of `p`.  It knows nothing of guardians and collisions.  The addresses of
      the native tokens may not be set yet, and home tokens that have no pair may not be marked as local yet. */
  ghost predicate Serves(p: Profile, q: Profile, pairs: map<Token, Token>) {
    && p.flavour == q.flavour && p.scheme.hash == q.scheme.hash && p.self == q.self
    && (q.native == p.native || q.native == ZERO_ADDRESS) && (q.foreign == p.foreign || q.foreign == ZERO_ADDRESS)
    && q.local <= p.local
    && (forall t {:trigger AddressOf(p, t)} | t in pairs && AddressOf(p, t) in p.local :: AddressOf(p, t) in q.local)
  }

  /** What a send uses of the native tokens is set. */
  predicate NativesSet(p: Profile, q: Profile, send: Send) {
    match send
    case SendToNative(_, _) => q.foreign == p.foreign
    case _ => q.native == p.native
  }

  lemma SameDispatch(d: Deployment, side: Side, q: Profile, ch: Chain, send: Send)
    requires WellDeployed(d) && OnL1(d) && Serves(d.profiles.At(side), q, ch.pairs)
    requires NativesSet(d.profiles.At(side), q, send) && |ch.core.rosters| > 0
    ensures Dispatch(d.profiles.At(side), ch, send) == Dispatch(q, ch, send)
  {
    var p := d.profiles.At(side);
    NativeIsTwinned(d, side.Other());
    TwinsMirror(d, side.Other(), d.profiles.At(side.Other()).native);
    assert IsLocal(p, p.native) && !IsLocal(p, p.foreign);
    assert side == A ==> AddressOf(p, p.native) == p.native;
    if send.SendToken? {
      assert AddressOf(p, send.token) == AddressOf(q, send.token);
    }
    assert Outgoing(p, ch.pairs, send) == Outgoing(q, ch.pairs, send);
  }

  /** A request that executes is not for a home token that the contract still treats as foreign. */
  ghost predicate Aligned(p: Profile, q: Profile, core: Core, who: Account, claimed: Hash, request: Request) {
    var t := AddressOf(p, request.token);
    Accepts(p.scheme.hash, core, claimed, request, who) && ReachesQuorum(core, claimed, request, who) ==>
      t == NATIVE_MARKER || (t in p.local ==> t in q.local)
  }

  lemma SameSubmit(p: Profile, q: Profile, ch: Chain, who: Account, claimed: Hash, request: Request, delivery: Delivery)
    requires Serves(p, q, ch.pairs) && (p.flavour.InkL1? || p.flavour.SolL1?)
    requires Aligned(p, q, ch.core, who, claimed, request)
    requires q.native == p.native
             || !(Accepts(p.scheme.hash, ch.core, claimed, request, who)
                  && ReachesQuorum(ch.core, claimed, request, who) && AddressOf(p, request.token) == NATIVE_MARKER)
    ensures Submit(p, ch, who, claimed, request, delivery) == Submit(q, ch, who, claimed, request, delivery)
  {
    if Accepts(p.scheme.hash, ch.core, claimed, request, who) && ReachesQuorum(ch.core, claimed, request, who) {
      var pay := Incoming(p, request.token, request.amount);
      assert pay == Incoming(q, request.token, request.amount);
      assert Pay(p, ch.ledger, pay, PaysSelf(p, request, delivery), delivery)
             == Pay(q, ch.ledger, pay, PaysSelf(q, request, delivery), delivery);
    }
  }

  // --- one message

  /** Every vote that the call may cast is aligned. */
  ghost predicate AlignedCall(p: Profile, q: Profile, core: Core, source: seq<Request>, call: Call) {
    match call
    case CallVote(who, claimed, request, _, _, _) => Aligned(p, q, core, who, claimed, request)
    case CallRelay(who, index, _, _, _) =>
      index < |source| ==> Aligned(p, q, core, who, p.scheme.hash(source[index]), source[index])
    case _ => true
  }

  ghost predicate InkServes(p: Profile, ink: InkMost.Most)
    reads ink
  {
    && Serves(p, ink.Setup(), ink.supportedPairs)
    && (ink.wazero.Some? ==> ink.wazero.value == p.native) && (ink.weth.Some? ==> ink.weth.value == p.foreign)
  }

  ghost predicate SolServes(p: Profile, sol: SolidityMost.AbstractMost)
    reads sol
  {
    Serves(p, sol.Setup(), sol.supportedPairs) && sol.wethAddress == p.native
  }

  // --- what each message does

  /** The send is accepted: the abstract send goes through, and fee, calls and native tokens are in order. */
  ghost predicate InkSends(ink: InkMost.Most, call: Call)
    requires ink.Valid() && call.CallSend?
    reads ink
  {
    && call.callOk && Dispatch(ink.Setup(), ink.View(), call.send).Some?
    && match call.send
       case SendToken(_, _, _) => ink.wazero.Some? && ink.FeeCovered(call.value, call.answer, call.now)
       case SendNative(amount, _) =>
         ink.wazero.Some? && amount <= call.value && ink.FeeCovered(call.value - amount, call.answer, call.now)
       case SendToNative(_, _) => ink.weth.Some? && ink.FeeCovered(call.value, call.answer, call.now)
  }

  /** The vote is counted. */
  ghost predicate InkCounts(ink: InkMost.Most, who: Account, claimed: Hash, request: Request, delivery: Delivery)
    reads ink
  {
    && NeedsSignature(ink.core, claimed, who, request.committee)
    && ink.ReceiveSucceeds(who, claimed, request, delivery.Delivered?)
  }

  /** The action that a message to the ink! contract performs, if any. */
  ghost function InkDoes(ink: InkMost.Most, source: seq<Request>, call: Call): Option<Action>
    requires ink.Valid()
    reads ink
  {
    var owner := ink.owner;
    match call
    case CallSend(send, _, _, _, _, _) => if InkSends(ink, call) then Some(Outbound(send)) else None
    case CallVote(who, claimed, request, delivery, _, _) =>
      if InkCounts(ink, who, claimed, request, delivery) then Some(Guard(who, claimed, request, Delivered)) else None
    case CallRelay(who, index, delivery, _, _) =>
      if index < |source| && InkCounts(ink, who, ink.hash(source[index]), source[index], delivery)
      then Some(Guard(who, ink.hash(source[index]), source[index], Delivered)) else None
    case CallRotate(caller, members, threshold) =>
      if caller == owner && ink.halted && InkAccepts(members, threshold) then Some(Rotate(members, threshold)) else None
    case CallPair(caller, from, dest, local, minter) =>
      if caller == owner && ink.halted && (local || minter) then Some(SetPairs(ink.supportedPairs[from := dest]))
         else None
    case CallUnpair(caller, from) =>
      if caller == owner && ink.halted then Some(SetPairs(ink.supportedPairs - {from})) else None
    case CallHalt(caller, state) => if caller == owner then Some(SetHalted(state)) else None
    case CallOutside(token, quantity, movement) => Some(Outside(Moved(ink.ledger, token, quantity, movement)))
    case _ => None
  }

  ghost predicate SolCounts(sol: SolidityMost.AbstractMost, who: Account, claimed: Hash, request: Request,
                            delivery: Delivery)
    reads sol
  {
    && Accepts(sol.hash, sol.core, claimed, request, who)
    && Submit(sol.Setup(), sol.View(), who, claimed, request, delivery).Some?
  }

  /** The action that a message to the Solidity contract performs, if any. */
  ghost function SolDoes(sol: SolidityMost.AbstractMost, source: seq<Request>, call: Call): Option<Action>
    requires sol.Valid()
    reads sol
  {
    var owner := sol.owner;
    match call
    case CallSend(send, _, _, _, limitOk, callOk) =>
      if && limitOk && callOk && sol.requestNonce + 1 < U256_SIZE && Dispatch(sol.Setup(), sol.View(), send).Some?
         && (send.SendToNative? ==> sol.wrappedAzeroAddress != ZERO_ADDRESS)
      then Some(Outbound(send)) else None
    case CallVote(who, claimed, request, delivery, _, _) =>
      if SolCounts(sol, who, claimed, request, delivery) then Some(Guard(who, claimed, request, delivery)) else None
    case CallRelay(who, index, delivery, _, _) =>
      if index < |source| && SolCounts(sol, who, sol.hash(source[index]), source[index], delivery)
      then Some(Guard(who, sol.hash(source[index]), source[index], delivery)) else None
    case CallRotate(caller, members, threshold) =>
      if caller == owner && sol.paused && sol.committeeId + 1 < U256_SIZE && SolidityAccepts(members, threshold)
      then Some(Rotate(members, threshold)) else None
    case CallPair(caller, from, dest, _, _) =>
      if caller == owner && sol.paused then Some(SetPairs(sol.supportedPairs[from := dest])) else None
    case CallUnpair(caller, from) =>
      if caller == owner && sol.paused then Some(SetPairs(sol.supportedPairs - {from})) else None
    case CallHalt(caller, state) => if caller == owner && state != sol.paused then Some(SetHalted(state)) else None
    case CallOutside(token, quantity, movement) => Some(Outside(Moved(sol.ledger, token, quantity, movement)))
    case _ => None
  }

  /** A send that went through is the abstract send of the part the contract plays. */
  lemma SendDid(d: Deployment, side: Side, q: Profile, ch: Chain, source: seq<Request>, send: Send, ch': Chain)
    requires WellDeployed(d) && OnL1(d) && Serves(d.profiles.At(side), q, ch.pairs) && |ch.core.rosters| > 0
    requires NativesSet(d.profiles.At(side), q, send) && Dispatch(q, ch, send) == Some(ch')
    ensures Did(d, side, ch, source, Some(Outbound(send)), ch') && Grows(ch.core, ch'.core)
  {
    SameDispatch(d, side, q, ch, send);
  }

  /** Any of the three send messages. */
  method InkDispatch(ink: InkMost.Most, call: Call) returns (sent: bool)
    requires ink.Valid() && call.CallSend?
    modifies ink`requestNonce, ink`emitted, ink`core, ink`ledger, ink`purse
    ensures ink.Valid() && (old(Sound(ink.Accounts())) ==> Sound(ink.Accounts()))
    ensures !sent ==> ink.View() == old(ink.View())
    ensures sent ==> old(Dispatch(ink.Setup(), ink.View(), call.send)) == Some(ink.View())
                     && if call.send.SendToNative? then ink.weth.Some? else ink.wazero.Some?
    ensures sent == old(InkSends(ink, call))
  {
    var CallSend(send, value, answer, now, _, callOk) := call;
    var res;
    match send {
      case SendToken(token, amount, receiver) =>
        res := ink.SendRequest(token, amount, receiver, value, answer, now, callOk);
      case SendNative(amount, receiver) =>
        res := ink.SendRequestNativeAzero(amount, receiver, value, answer, now, callOk);
      case SendToNative(amount, receiver) =>
        res := ink.SendRequestNativeEther(amount, receiver, value, answer, now, callOk);
    }
    sent := res.Ok?;
  }

  method InkSend(ghost d: Deployment, ink: InkMost.Most, ghost source: seq<Request>, call: Call)
    returns (ghost done: Option<Action>)
    requires WellDeployed(d) && OnL1(d) && ink.Valid() && InkServes(d.profiles.a, ink) && call.CallSend?
    modifies ink`requestNonce, ink`emitted, ink`core, ink`ledger, ink`purse
    ensures ink.Valid() && InkServes(d.profiles.a, ink)
    ensures old(Sound(ink.Accounts())) ==> Sound(ink.Accounts())
    ensures Did(d, A, old(ink.View()), source, done, ink.View())
    ensures Grows(old(ink.core), ink.core) && old(ink.localToken) <= ink.localToken
    ensures done == old(InkDoes(ink, source, call))
  {
    ghost var q, ch := ink.Setup(), ink.View();
    var sent := InkDispatch(ink, call);
    done := None;
    if sent {
      done := Some(Outbound(call.send));
      SendDid(d, A, q, ch, source, call.send, ink.View());
    }
  }

  /** `receive_request`, as far as the protocol sees it: a vote that is needed and accepted is the abstract submission,
      anything else changes nothing; what executes for the native coin needs wrapped AZERO to be set. */
  method InkReceive(ink: InkMost.Most, who: Account, claimed: Hash, request: Request, delivery: Delivery,
                    price: Option<nat>, coinOk: bool)
    returns (ghost counted: bool)
    requires ink.Valid()
    modifies ink`pendingRequests, ink`signatures, ink`processedRequests, ink`core, ink`purse, ink`ledger
    ensures ink.Valid() && (old(Sound(ink.Accounts())) ==> Sound(ink.Accounts()))
    ensures !counted ==> ink.View() == old(ink.View())
    ensures counted ==> old(Submit(ink.Setup(), ink.View(), who, claimed, request, Delivered)) == Some(ink.View())
    ensures counted && old(Executes(ink.hash, ink.core, who, claimed, request)) && request.token == NATIVE_MARKER ==>
              ink.wazero.Some?
    ensures counted == old(InkCounts(ink, who, claimed, request, delivery))
    ensures Grows(old(ink.core), ink.core)
  {
    ghost var q, ch := ink.Setup(), ink.View();
    ghost var needed := NeedsSignature(ink.core, claimed, who, request.committee);
    var res := ink.ReceiveRequest(who, claimed, request, delivery.Delivered?, price, coinOk);
    counted := res.Ok? && needed;
    if counted {
      SubmitGrows(q, ch, who, claimed, request, Delivered);
    }
  }

  /** A counted vote is a permitted action. */
  lemma VoteDid(d: Deployment, side: Side, q: Profile, ch: Chain, source: seq<Request>, who: Account, claimed: Hash,
                request: Request, delivery: Delivery, ch': Chain)
    requires OnL1(d) && Serves(d.profiles.At(side), q, ch.pairs) && |ch.core.rosters| > 0
    requires Aligned(d.profiles.At(side), q, ch.core, who, claimed, request)
    requires Submit(q, ch, who, claimed, request, delivery) == Some(ch')
    requires q.native == d.profiles.At(side).native || !Executes(q.scheme.hash, ch.core, who, claimed, request)
             || AddressOf(q, request.token) != NATIVE_MARKER
    requires var p := d.profiles.At(side); (who in p.faulty && request in p.scheme.occurs) || request in source
    ensures Did(d, side, ch, source, Some(Guard(who, claimed, request, delivery)), ch')
  {
    SameSubmit(d.profiles.At(side), q, ch, who, claimed, request, delivery);
  }

  method InkVote(ghost d: Deployment, ink: InkMost.Most, ghost source: seq<Request>, who: Account, claimed: Hash,
                 request: Request, delivery: Delivery, price: Option<nat>, coinOk: bool)
    returns (ghost done: Option<Action>)
    requires OnL1(d) && ink.Valid() && InkServes(d.profiles.a, ink)
    requires (who in d.profiles.a.faulty && request in d.profiles.a.scheme.occurs) || request in source
    modifies ink`pendingRequests, ink`signatures, ink`processedRequests, ink`core, ink`purse, ink`ledger
    ensures ink.Valid() && InkServes(d.profiles.a, ink)
    ensures old(Sound(ink.Accounts())) ==> Sound(ink.Accounts())
    ensures old(Aligned(d.profiles.a, ink.Setup(), ink.core, who, claimed, request)) ==>
              Did(d, A, old(ink.View()), source, done, ink.View())
    ensures Grows(old(ink.core), ink.core) && old(ink.localToken) <= ink.localToken
    ensures done == if old(InkCounts(ink, who, claimed, request, delivery))
                    then Some(Guard(who, claimed, request, Delivered)) else None
  {
    ghost var q, ch := ink.Setup(), ink.View();
    ghost var counted := InkReceive(ink, who, claimed, request, delivery, price, coinOk);
    done := None;
    if counted {
      done := Some(Guard(who, claimed, request, Delivered));
      if Aligned(d.profiles.a, q, ch.core, who, claimed, request) {
        VoteDid(d, A, q, ch, source, who, claimed, request, Delivered, ink.View());
      }
    }
  }

  /** Owner messages about pairs. */
  method InkPairs(ghost d: Deployment, ink: InkMost.Most, ghost source: seq<Request>, call: Call)
    returns (ghost done: Option<Action>)
    requires ink.Valid() && InkServes(d.profiles.a, ink) && Lawful(d, A, call) && OnL1(d)
    requires call.CallPair? || call.CallUnpair?
    modifies ink`supportedPairs, ink`localToken
    ensures ink.Valid() && InkServes(d.profiles.a, ink)
    ensures Did(d, A, old(ink.View()), source, done, ink.View()) && old(ink.localToken) <= ink.localToken
    ensures done == old(InkDoes(ink, source, call))
  {
    done := None;
    var res;
    match call {
      case CallPair(caller, from, dest, local, minter) =>
        res := ink.AddPair(caller, from, dest, local, minter);
        if res.Ok? {
          done := Some(SetPairs(old(ink.supportedPairs)[from := dest]));
        }
      case CallUnpair(caller, from) =>
        res := ink.RemovePair(caller, from);
        if res.Ok? {
          done := Some(SetPairs(old(ink.supportedPairs) - {from}));
        }
    }
  }

  /** What messages do that the protocol does not see: funding and payouts move coins, and the owner names the native
      tokens. */
  twostate predicate InkSettled(ink: InkMost.Most, call: Call)
    reads ink
  {
    match call
    case CallFund(value) =>
      ink.purse == if old(ink.purse).pocket + value < U128_SIZE then Fund(old(ink.purse), value) else old(ink.purse)
    case CallPayout(c, m) =>
      if ink.halted || !InCommittee(ink.core, c, m) then ink.purse == old(ink.purse)
      else old(Sound(ink.Accounts())) ==>
             && RewardPaid(old(ink.purse), ink.purse, c, m,
                           (if m in ink.payoutAccounts then ink.payoutAccounts[m] else m) == ink.self)
             && Paid(ink.purse, c, m) == Collected(ink.purse, c) / |ink.core.rosters[c].members|
    case CallNative(caller, token) =>
      ink.wazero == if caller == ink.owner && ink.halted then Some(token) else old(ink.wazero)
    case CallForeign(caller, token) =>
      ink.weth == if caller == ink.owner && ink.halted then Some(token) else old(ink.weth)
    case _ => true
  }

  /** Payouts and funding move coins only. */
  method InkCoins(ink: InkMost.Most, call: Call)
    requires ink.Valid() && (call.CallPayout? || call.CallFund?)
    modifies ink`purse
    ensures ink.Valid() && (old(Sound(ink.Accounts())) ==> Sound(ink.Accounts()))
    ensures InkSettled(ink, call)
  {
    match call {
      case CallPayout(committee, member) => var _ := ink.PayoutRewards(committee, member);
      case CallFund(value) => var _ := ink.FundPocketMoney(value);
    }
  }

  /** The addresses of the native tokens, and tokens moved by others. */
  method InkTokens(ghost d: Deployment, ink: InkMost.Most, ghost source: seq<Request>, call: Call)
    returns (ghost done: Option<Action>)
    requires ink.Valid() && InkServes(d.profiles.a, ink) && Lawful(d, A, call) && OnL1(d)
    requires call.CallNative? || call.CallForeign? || call.CallOutside?
    modifies ink`wazero, ink`weth, ink`ledger
    ensures ink.Valid() && InkServes(d.profiles.a, ink)
    ensures Did(d, A, old(ink.View()), source, done, ink.View())
    ensures done == old(InkDoes(ink, source, call))
    ensures InkSettled(ink, call)
  {
    done := None;
    match call {
      case CallNative(caller, token) => var _ := ink.SetWazero(caller, token);
      case CallForeign(caller, token) => var _ := ink.SetWeth(caller, token);
      case CallOutside(token, quantity, movement) =>
        MovedAllowed(d.profiles.a, ink.ledger, token, quantity, movement);
        ink.ledger := Moved(ink.ledger, token, quantity, movement);
        done := Some(Outside(ink.ledger));
    }
  }

  method InkOwner(ghost d: Deployment, ink: InkMost.Most, ghost source: seq<Request>, call: Call)
    returns (ghost done: Option<Action>)
    requires ink.Valid() && InkServes(d.profiles.a, ink) && Lawful(d, A, call) && OnL1(d)
    requires call.CallRotate? || call.CallHalt?
    requires ink.committeeId + 1 < U128_SIZE
    modifies ink`committeeId, ink`committees, ink`committeeSizes, ink`signatureThresholds, ink`core, ink`halted
    ensures ink.Valid() && InkServes(d.profiles.a, ink)
    ensures old(Sound(ink.Accounts())) ==> Sound(ink.Accounts())
    ensures Did(d, A, old(ink.View()), source, done, ink.View())
    ensures Grows(old(ink.core), ink.core) && old(ink.localToken) <= ink.localToken
    ensures done == old(InkDoes(ink, source, call))
  {
    var res;
    match call {
      case CallRotate(caller, members, threshold) =>
        res := ink.SetCommittee(caller, members, threshold);
        done := Some(Rotate(members, threshold));
      case CallHalt(caller, state) =>
        res := ink.SetHalted(caller, state);
        done := Some(SetHalted(state));
    }
    if res.Err? {
      done := None;
    }
  }

  method SolSend(ghost d: Deployment, sol: SolidityMost.AbstractMost, ghost source: seq<Request>, call: Call)
    returns (ghost done: Option<Action>)
    requires WellDeployed(d) && OnL1(d) && sol.Valid() && SolServes(d.profiles.b, sol) && call.CallSend?
    modifies sol`requestNonce, sol`emitted, sol`core, sol`ledger
    ensures sol.Valid() && SolServes(d.profiles.b, sol)
    ensures Did(d, B, old(sol.View()), source, done, sol.View())
    ensures Grows(old(sol.core), sol.core) && old(sol.isLocalToken) <= sol.isLocalToken
    ensures done == old(SolDoes(sol, source, call))
  {
    var CallSend(send, value, _, _, limitOk, callOk) := call;
    ghost var q, ch := sol.Setup(), sol.View();
    var res;
    match send {
      case SendToken(token, amount, receiver) => res := sol.SendRequest(token, amount, receiver, limitOk, callOk);
      case SendNative(amount, receiver) => res := sol.SendRequestNative(amount, receiver, limitOk, callOk);
      case SendToNative(amount, receiver) => res := sol.SendRequestAzeroToNative(amount, receiver, limitOk, callOk);
    }
    done := None;
    if res.Done? {
      done := Some(Outbound(send));
      SendDid(d, B, q, ch, source, send, sol.View());
    }
  }

  method SolVote(ghost d: Deployment, sol: SolidityMost.AbstractMost, ghost source: seq<Request>, who: Account,
                 claimed: Hash, request: Request, delivery: Delivery)
    returns (ghost done: Option<Action>)
    requires OnL1(d) && sol.Valid() && SolServes(d.profiles.b, sol)
    requires (who in d.profiles.b.faulty && request in d.profiles.b.scheme.occurs) || request in source
    modifies sol`pendingRequests, sol`processedRequests, sol`core, sol`ledger
    ensures sol.Valid() && SolServes(d.profiles.b, sol)
    ensures old(Aligned(d.profiles.b, sol.Setup(), sol.core, who, claimed, request)) ==>
              Did(d, B, old(sol.View()), source, done, sol.View())
    ensures Grows(old(sol.core), sol.core) && old(sol.isLocalToken) <= sol.isLocalToken
    ensures done == if old(SolCounts(sol, who, claimed, request, delivery))
                    then Some(Guard(who, claimed, request, delivery)) else None
  {
    ghost var q, ch := sol.Setup(), sol.View();
    ghost var needed := Accepts(sol.hash, sol.core, claimed, request, who);
    var res := sol.ReceiveRequest(who, claimed, request, delivery);
    done := None;
    if res.Done? && needed {
      done := Some(Guard(who, claimed, request, delivery));
      SubmitGrows(q, ch, who, claimed, request, delivery);
      if Aligned(d.profiles.b, q, ch.core, who, claimed, request) {
        VoteDid(d, B, q, ch, source, who, claimed, request, delivery, sol.View());
      }
    }
  }

  method SolSetup(ghost d: Deployment, sol: SolidityMost.AbstractMost, ghost source: seq<Request>, call: Call)
    returns (ghost done: Option<Action>)
    requires sol.Valid() && SolServes(d.profiles.b, sol) && Lawful(d, B, call) && OnL1(d)
    requires call.CallPair? || call.CallUnpair? || call.CallMark? || call.CallForeign?
    modifies sol`supportedPairs, sol`isLocalToken, sol`wrappedAzeroAddress
    ensures sol.Valid() && SolServes(d.profiles.b, sol) && sol.core == old(sol.core)
    ensures Did(d, B, old(sol.View()), source, done, sol.View()) && old(sol.isLocalToken) <= sol.isLocalToken
    ensures done == old(SolDoes(sol, source, call))
  {
    done := None;
    var res;
    match call {
      case CallPair(caller, from, dest, local, _) =>
        res := sol.AddPair(caller, from, dest, local);
        if res.Done? {
          done := Some(SetPairs(old(sol.supportedPairs)[from := dest]));
        }
      case CallUnpair(caller, from) =>
        res := sol.RemovePair(caller, from);
        if res.Done? {
          done := Some(SetPairs(old(sol.supportedPairs) - {from}));
        }
      case CallMark(caller, token) => res := sol.SetLocalToken(caller, token, true);
      case CallForeign(caller, token) => res := sol.SetWrappedAzeroAddress(caller, token);
    }
  }

  method SolOwner(ghost d: Deployment, sol: SolidityMost.AbstractMost, ghost source: seq<Request>, call: Call)
    returns (ghost done: Option<Action>)
    requires sol.Valid() && SolServes(d.profiles.b, sol) && Lawful(d, B, call) && OnL1(d)
    requires call.CallRotate? || call.CallHalt?
    modifies sol`committeeId, sol`committee, sol`committeeSize, sol`signatureThreshold, sol`core, sol`paused
    ensures sol.Valid() && SolServes(d.profiles.b, sol)
    ensures Did(d, B, old(sol.View()), source, done, sol.View())
    ensures Grows(old(sol.core), sol.core) && old(sol.isLocalToken) <= sol.isLocalToken
    ensures done == old(SolDoes(sol, source, call))
  {
    var res;
    match call {
      case CallRotate(caller, members, threshold) =>
        res := sol.SetCommittee(caller, members, threshold);
        done := Some(Rotate(members, threshold));
      case CallHalt(caller, state) =>
        res := sol.SetPaused(caller, state);
        done := Some(SetHalted(state));
    }
    if res.Revert? {
      done := None;
    }
  }

  method InkBallot(ghost d: Deployment, ink: InkMost.Most, source: seq<Request>, call: Call)
    returns (ghost done: Option<Action>)
    requires OnL1(d) && ink.Valid() && InkServes(d.profiles.a, ink) && Lawful(d, A, call)
    requires call.CallVote? || call.CallRelay?
    modifies ink`pendingRequests, ink`signatures, ink`processedRequests, ink`core, ink`purse, ink`ledger
    ensures ink.Valid() && InkServes(d.profiles.a, ink)
    ensures old(Sound(ink.Accounts())) ==> Sound(ink.Accounts())
    ensures old(AlignedCall(d.profiles.a, ink.Setup(), ink.core, source, call)) ==>
              Did(d, A, old(ink.View()), source, done, ink.View())
    ensures Grows(old(ink.core), ink.core)
    ensures done == old(InkDoes(ink, source, call))
  {
    done := None;
    match call {
      case CallVote(who, claimed, request, delivery, price, coinOk) =>
        done := InkVote(d, ink, source, who, claimed, request, delivery, price, coinOk);
      case CallRelay(who, index, delivery, price, coinOk) =>
        if index < |source| {
          done := InkVote(d, ink, source, who, ink.hash(source[index]), source[index], delivery, price, coinOk);
        }
    }
  }

  /** Committees, halting and pairs. */
  method InkManage(ghost d: Deployment, ink: InkMost.Most, ghost source: seq<Request>, call: Call)
    returns (ghost done: Option<Action>)
    requires OnL1(d) && ink.Valid() && InkServes(d.profiles.a, ink) && Lawful(d, A, call)
    requires call.CallRotate? || call.CallHalt? || call.CallPair? || call.CallUnpair?
    requires ink.committeeId + 1 < U128_SIZE
    modifies ink
    ensures ink.Valid() && InkServes(d.profiles.a, ink)
    ensures old(Sound(ink.Accounts())) ==> Sound(ink.Accounts())
    ensures Did(d, A, old(ink.View()), source, done, ink.View())
    ensures Grows(old(ink.core), ink.core) && old(ink.localToken) <= ink.localToken
    ensures done == old(InkDoes(ink, source, call))
  {
    match call {
      case CallRotate(_, _, _) => done := InkOwner(d, ink, source, call);
      case CallHalt(_, _) => done := InkOwner(d, ink, source, call);
      case CallPair(_, _, _, _, _) => done := InkPairs(d, ink, source, call);
      case CallUnpair(_, _) => done := InkPairs(d, ink, source, call);
    }
  }

  method InkStep(ghost d: Deployment, ink: InkMost.Most, source: seq<Request>, call: Call)
    returns (ghost done: Option<Action>)
    requires WellDeployed(d) && OnL1(d) && ink.Valid() && InkServes(d.profiles.a, ink) && Lawful(d, A, call)
    requires ink.committeeId + 1 < U128_SIZE
    modifies ink
    ensures ink.Valid() && InkServes(d.profiles.a, ink)
    ensures old(Sound(ink.Accounts())) ==> Sound(ink.Accounts())
    ensures old(AlignedCall(d.profiles.a, ink.Setup(), ink.core, source, call)) ==>
              Did(d, A, old(ink.View()), source, done, ink.View())
    ensures Grows(old(ink.core), ink.core) && old(ink.localToken) <= ink.localToken
    ensures done == old(InkDoes(ink, source, call))
    ensures InkSettled(ink, call)
  {
    if call.CallSend? {
      done := InkSend(d, ink, source, call);
    } else if call.CallVote? || call.CallRelay? {
      done := InkBallot(d, ink, source, call);
    } else if call.CallPayout? || call.CallFund? {
      InkCoins(ink, call);
      done := None;
    } else if call.CallMark? {
      done := None;
    } else if call.CallNative? || call.CallForeign? || call.CallOutside? {
      done := InkTokens(d, ink, source, call);
    } else {
      done := InkManage(d, ink, source, call);
    }
  }

  method SolStep(ghost d: Deployment, sol: SolidityMost.AbstractMost, source: seq<Request>, call: Call)
    returns (ghost done: Option<Action>)
    requires WellDeployed(d) && OnL1(d) && sol.Valid() && SolServes(d.profiles.b, sol) && Lawful(d, B, call)
    modifies sol
    ensures sol.Valid() && SolServes(d.profiles.b, sol)
    ensures old(AlignedCall(d.profiles.b, sol.Setup(), sol.core, source, call)) ==>
              Did(d, B, old(sol.View()), source, done, sol.View())
    ensures Grows(old(sol.core), sol.core) && old(sol.isLocalToken) <= sol.isLocalToken
    ensures done == old(SolDoes(sol, source, call))
  {
    done := None;
    match call {
      case CallSend(_, _, _, _, _, _) => done := SolSend(d, sol, source, call);
      case CallVote(who, claimed, request, delivery, _, _) =>
        done := SolVote(d, sol, source, who, claimed, request, delivery);
      case CallRelay(who, index, delivery, _, _) =>
        if index < |source| {
          done := SolVote(d, sol, source, who, sol.hash(source[index]), source[index], delivery);
        }
      case CallOutside(token, quantity, movement) =>
        MovedAllowed(d.profiles.b, sol.ledger, token, quantity, movement);
        sol.ledger := Moved(sol.ledger, token, quantity, movement);
        done := Some(Outside(sol.ledger));
      case CallPayout(_, _) =>
      case CallFund(_) =>
      case CallNative(_, _) =>
      case CallRotate(_, _, _) => done := SolOwner(d, sol, source, call);
      case CallHalt(_, _) => done := SolOwner(d, sol, source, call);
      case _ => done := SolSetup(d, sol, source, call);
    }
  }

  // --- any sequence of messages

  /** Home tokens that are not marked as local yet are dormant. */
  ghost predicate Unmarked(d: Deployment, s: System, side: Side, marks: set<Token>) {
    forall t | HomeAsset(d, side, t) && t !in marks :: Dormant(d, s, side, t)
  }

  /** A vote that executes is never for an unmarked home token, so a contract may treat it as foreign. */
  lemma UnmarkedIsAligned(d: Deployment, s: System, side: Side, q: Profile, who: Account, claimed: Hash,
                          request: Request)
    requires WellDeployed(d) && OnL1(d) && Inv(d, s) && Routed(d, s) && Unmarked(d, s, side, q.local)
    requires request in d.profiles.At(side).scheme.occurs
    requires who in d.profiles.At(side).faulty || request in s.At(side.Other()).core.events
    ensures Aligned(d.profiles.At(side), q, s.At(side).core, who, claimed, request)
  {
    var p, core := d.profiles.At(side), s.At(side).core;
    if Accepts(p.scheme.hash, core, claimed, request, who) && ReachesQuorum(core, claimed, request, who) {
      var t := AddressOf(p, request.token);
      ExecutedIsEvent(d, s, side, claimed, request, who);
      assert RoutedRequest(d, side.Other(), request) && side.Other().Other() == side;
      if t != NATIVE_MARKER && t in p.local && t !in q.local {
        assert HomeAsset(d, side, t);
        DormantIsUnvoted(d, s, side, claimed, request, who, t);
        assert false;
      }
    }
  }

  lemma CallIsAligned(d: Deployment, s: System, side: Side, q: Profile, call: Call)
    requires WellDeployed(d) && OnL1(d) && Inv(d, s) && Routed(d, s) && Unmarked(d, s, side, q.local)
    requires NoSurprise(d, s) && Lawful(d, side, call)
    ensures AlignedCall(d.profiles.At(side), q, s.At(side).core, s.At(side.Other()).core.events, call)
  {
    var source := s.At(side.Other()).core.events;
    match call
    case CallVote(who, claimed, request, _, _, _) => UnmarkedIsAligned(d, s, side, q, who, claimed, request);
    case CallRelay(who, index, _, _, _) =>
      if index < |source| {
        UnmarkedIsAligned(d, s, side, q, who, d.profiles.At(side).scheme.hash(source[index]), source[index]);
      }
    case _ =>
  }

  /** Unmarked home tokens have no pair, so whatever the message did keeps them dormant. */
  lemma UnmarkedKept(d: Deployment, u: System, m: Move, side: Side, q: Profile, marks: set<Token>)
    requires WellDeployed(d) && OnL1(d) && Inv(d, u) && Routed(d, u) && Unmarked(d, u, side, q.local)
    requires Serves(d.profiles.At(side), q, u.At(side).pairs) && q.local <= marks
    ensures Unmarked(d, Apply(d, u, m), side, marks)
  {
    forall t | HomeAsset(d, side, t) && t !in marks ensures Dormant(d, Apply(d, u, m), side, t) {
      TwinsMirror(d, side, t);
      assert AddressOf(d.profiles.At(side), t) == t;
      ApplyKeepsDormant(d, u, m, side, t);
    }
  }

  ghost predicate BothServe(d: Deployment, ink: InkMost.Most, sol: SolidityMost.AbstractMost)
    reads ink, sol
  {
    ink.Valid() && InkServes(d.profiles.a, ink) && sol.Valid() && SolServes(d.profiles.b, sol)
  }

  /** The storage of the contracts is the last state of the run, and tokens that are not marked yet are dormant. */
  ghost predicate OnTrack(d: Deployment, ink: InkMost.Most, sol: SolidityMost.AbstractMost, start: System,
                          moves: seq<Move>)
    requires Booted(start)
    reads ink, sol
  {
    var s := Pair(ink.View(), sol.View());
    s == Run(d, start, moves) && Unmarked(d, s, A, ink.localToken) && Unmarked(d, s, B, sol.isLocalToken)
  }

  /** What holds between messages, `count` messages after the start. */
  ghost predicate InStep(d: Deployment, ink: InkMost.Most, sol: SolidityMost.AbstractMost, start: System,
                         moves: seq<Move>, count: nat)
    requires Booted(start)
    reads ink, sol
  {
    && BothServe(d, ink, sol) && ink.committeeId <= count
    && (NoSurprise(d, Pair(ink.View(), sol.View())) ==> OnTrack(d, ink, sol, start, moves))
  }

  /** One more message keeps the storage on the run, and unmarked tokens dormant.  `q` is the setup of the contract on
      `side` before the message, `marks` are its marks after it, `q'` is the setup of the other contract. */
  lemma TrackKept(d: Deployment, start: System, moves: seq<Move>, side: Side, q: Profile, marks: set<Token>,
                  q': Profile,
                  done: Option<Action>, ch': Chain)
    requires WellDeployed(d) && OnL1(d) && Genesis(d, start)
    requires var u := Run(d, start, moves);
             && Unmarked(d, u, side, q.local) && Unmarked(d, u, side.Other(), q'.local) && q.local <= marks
             && Serves(d.profiles.At(side), q, u.At(side).pairs)
             && Serves(d.profiles.At(side.Other()), q', u.At(side.Other()).pairs)
             && Did(d, side, u.At(side), u.At(side.Other()).core.events, done, ch')
             && NoSurprise(d, u.With(side, ch'))
    ensures var t := Run(d, start, moves).With(side, ch');
            && Run(d, start, moves + Moves(side, done)) == t
            && Unmarked(d, t, side, marks) && Unmarked(d, t, side.Other(), q'.local)
  {
    var u := Run(d, start, moves);
    var moves' := DidExtends(d, start, moves, side, done, ch');
    assert done.None? ==> moves + Moves(side, done) == moves;
    if done.Some? {
      Reached(d, start, moves);
      UnmarkedKept(d, u, Move(side, done.value), side, q, marks);
      UnmarkedKept(d, u, Move(side, done.value), side.Other(), q', q'.local);
    } else {
      assert u.With(side, ch') == u;
    }
  }

  method DeliverInk(ghost d: Deployment, ink: InkMost.Most, sol: SolidityMost.AbstractMost, call: Call,
                    ghost start: System, ghost moves: seq<Move>, ghost count: nat)
    returns (ghost moves': seq<Move>)
    requires WellDeployed(d) && OnL1(d) && Genesis(d, start) && InStep(d, ink, sol, start, moves, count)
    requires Lawful(d, A, call) && count + 1 < U128_SIZE
    modifies ink
    ensures InStep(d, ink, sol, start, moves', count + 1) && old(ink.core.rosters) <= ink.core.rosters
    ensures old(Sound(ink.Accounts())) ==> Sound(ink.Accounts())
    ensures moves' == moves + Moves(A, old(InkDoes(ink, sol.emitted, call)))
  {
    ghost var u, q := Pair(ink.View(), sol.View()), ink.Setup();
    ghost var known := NoSurprise(d, u);
    if known {
      Reached(d, start, moves);
      CallIsAligned(d, u, A, q, call);
    }
    ghost var done := InkStep(d, ink, sol.emitted, call);
    moves' := moves + Moves(A, done);
    if NoSurprise(d, Pair(ink.View(), sol.View())) {
      assert known;
      TrackKept(d, start, moves, A, q, ink.localToken, sol.Setup(), done, ink.View());
    }
  }

  method DeliverSol(ghost d: Deployment, ink: InkMost.Most, sol: SolidityMost.AbstractMost, call: Call,
                    ghost start: System, ghost moves: seq<Move>, ghost count: nat)
    returns (ghost moves': seq<Move>)
    requires WellDeployed(d) && OnL1(d) && Genesis(d, start) && InStep(d, ink, sol, start, moves, count)
    requires Lawful(d, B, call)
    modifies sol
    ensures InStep(d, ink, sol, start, moves', count + 1) && old(sol.core.rosters) <= sol.core.rosters
    ensures moves' == moves + Moves(B, old(SolDoes(sol, ink.emitted, call)))
  {
    ghost var u, q := Pair(ink.View(), sol.View()), sol.Setup();
    ghost var known := NoSurprise(d, u);
    if known {
      Reached(d, start, moves);
      CallIsAligned(d, u, B, q, call);
    }
    ghost var done := SolStep(d, sol, ink.emitted, call);
    moves' := moves + Moves(B, done);
    if NoSurprise(d, Pair(ink.View(), sol.View())) {
      assert known;
      TrackKept(d, start, moves, B, q, sol.isLocalToken, ink.Setup(), done, sol.View());
    }
  }

  /** Delivers one message to the contract it is for. */
  method Deliver(ghost d: Deployment, ink: InkMost.Most, sol: SolidityMost.AbstractMost, order: Order,
                 ghost start: System, ghost moves: seq<Move>, ghost count: nat)
    returns (ghost moves': seq<Move>)
    requires WellDeployed(d) && OnL1(d) && Genesis(d, start) && InStep(d, ink, sol, start, moves, count)
    requires Lawful(d, order.side, order.call) && count + 1 < U128_SIZE
    modifies ink, sol
    ensures InStep(d, ink, sol, start, moves', count + 1)
    ensures CommitteesKept(old(Pair(ink.View(), sol.View())), Pair(ink.View(), sol.View()))
    ensures old(Sound(ink.Accounts())) ==> Sound(ink.Accounts())
    ensures moves' == moves + if order.side == A then Moves(A, old(InkDoes(ink, sol.emitted, order.call)))
                              else Moves(B, old(SolDoes(sol, ink.emitted, order.call)))
  {
    if order.side == A {
      moves' := DeliverInk(d, ink, sol, order.call, start, moves, count);
    } else {
      moves' := DeliverSol(d, ink, sol, order.call, start, moves, count);
    }
  }

  /** From contracts without history, any sequence of messages takes the storage of the two contracts to a state that
      the protocol reaches, and in it everything wrapped is backed.  Committees stay, and so does the soundness of the
      accounts. */
  method Drive(ghost d: Deployment, ink: InkMost.Most, sol: SolidityMost.AbstractMost, orders: seq<Order>)
    returns (ghost moves: seq<Move>)
    requires WellDeployed(d) && OnL1(d) && BothServe(d, ink, sol) && Genesis(d, Pair(ink.View(), sol.View()))
    requires Unmarked(d, Pair(ink.View(), sol.View()), A, ink.localToken)
    requires Unmarked(d, Pair(ink.View(), sol.View()), B, sol.isLocalToken)
    requires forall i | 0 <= i < |orders| :: Lawful(d, orders[i].side, orders[i].call)
    requires |orders| < U128_SIZE
    modifies ink, sol
    ensures ink.Valid() && sol.Valid() && (old(Sound(ink.Accounts())) ==> Sound(ink.Accounts()))
    ensures CommitteesKept(old(Pair(ink.View(), sol.View())), Pair(ink.View(), sol.View()))
    ensures var s, u := old(Pair(ink.View(), sol.View())), Pair(ink.View(), sol.View());
            NoSurprise(d, u) ==> u == Run(d, s, moves) && AllBacked(d, s, u)
  {
    ghost var start := Pair(ink.View(), sol.View());
    moves := [];
    for i := 0 to |orders|
      invariant InStep(d, ink, sol, start, moves, i) && CommitteesKept(start, Pair(ink.View(), sol.View()))
      invariant old(Sound(ink.Accounts())) ==> Sound(ink.Accounts())
    {
      moves := Deliver(d, ink, sol, orders[i], start, moves, i);
    }
    RunBacked(d, start, moves);
  }

  // --- from deployment on

  /** The pairs of the two native coins: AZERO and ether on Aleph Zero, ether on Ethereum. */
  ghost function NativePairs(d: Deployment, side: Side): map<Token, Token> {
    var a, b := d.profiles.a, d.profiles.b;
    if side == A then map[a.native := b.foreign, a.foreign := b.native] else map[b.native := a.foreign]
  }

  lemma NativePairsAgree(d: Deployment, side: Side)
    requires WellDeployed(d) && OnL1(d)
    ensures PairsAgree(d, side, NativePairs(d, side))
    ensures var p := d.profiles.At(side);
            p.native in p.local && AddressOf(p, p.native) == p.native && p.foreign !in p.local && p.native != p.foreign
  {
    NativeIsTwinned(d, A);
    NativeIsTwinned(d, B);
    TwinsMirror(d, A, d.profiles.a.native);
    TwinsMirror(d, B, d.profiles.b.native);
  }

  /** The owner names the native tokens, adds the pairs of the native coins and opens the bridge. */
  method ConfigureInk(ghost d: Deployment, ink: InkMost.Most, wazero: Token, azero: Token, weth: Token, eth: Token)
    requires WellDeployed(d) && OnL1(d) && ink.Valid() && InkServes(d.profiles.a, ink)
    requires ink.halted && ink.supportedPairs == map[]
    requires d.profiles.a.native == wazero && d.profiles.a.foreign == eth
    requires d.profiles.b.native == weth && d.profiles.b.foreign == azero
    modifies ink`wazero, ink`weth, ink`supportedPairs, ink`localToken, ink`halted
    ensures ink.Valid() && InkServes(d.profiles.a, ink) && !ink.halted
    ensures ink.wazero == Some(wazero) && ink.weth == Some(eth) && ink.localToken == old(ink.localToken) + {wazero}
    ensures ink.supportedPairs == NativePairs(d, A)
  {
    var res := ink.SetWazero(ink.owner, wazero);
    res := ink.SetWeth(ink.owner, eth);
    PairInk(d, ink, wazero, azero, weth, eth);
  }

  method PairInk(ghost d: Deployment, ink: InkMost.Most, wazero: Token, azero: Token, weth: Token, eth: Token)
    requires WellDeployed(d) && OnL1(d) && ink.Valid() && InkServes(d.profiles.a, ink)
    requires ink.halted && ink.supportedPairs == map[]
    requires d.profiles.a.native == wazero && d.profiles.a.foreign == eth
    requires d.profiles.b.native == weth && d.profiles.b.foreign == azero
    modifies ink`supportedPairs, ink`localToken, ink`halted
    ensures ink.Valid() && InkServes(d.profiles.a, ink) && !ink.halted
    ensures ink.localToken == old(ink.localToken) + {wazero} && ink.supportedPairs == NativePairs(d, A)
  {
    NativePairsAgree(d, A);
    var res := ink.AddPair(ink.owner, wazero, azero, true, false);
    res := ink.AddPair(ink.owner, eth, weth, false, true);
    res := ink.SetHalted(ink.owner, false);
  }

  method ConfigureSol(ghost d: Deployment, sol: SolidityMost.AbstractMost, azero: Token, weth: Token, eth: Token)
    requires WellDeployed(d) && OnL1(d) && sol.Valid() && SolServes(d.profiles.b, sol)
    requires sol.paused && sol.supportedPairs == map[]
    requires d.profiles.a.foreign == eth && d.profiles.b.native == weth && d.profiles.b.foreign == azero
    modifies sol`wrappedAzeroAddress, sol`supportedPairs, sol`isLocalToken, sol`paused
    ensures sol.Valid() && SolServes(d.profiles.b, sol) && !sol.paused
    ensures sol.wrappedAzeroAddress == azero && sol.isLocalToken == old(sol.isLocalToken) + {weth}
    ensures sol.supportedPairs == NativePairs(d, B)
  {
    NativePairsAgree(d, B);
    var res := sol.SetWrappedAzeroAddress(sol.owner, azero);
    res := sol.AddPair(sol.owner, weth, eth, true);
    res := sol.SetPaused(sol.owner, false);
  }

  /** Where no wrapped tokens exist and nothing has been emitted, every asset is dormant. */
  lemma FreshIsUnmarked(d: Deployment, s: System, side: Side, marks: set<Token>)
    requires NothingWrapped(d, s.a.ledger, s.b.ledger) && s.a.core.events == [] && s.b.core.events == []
    ensures Unmarked(d, s, side, marks)
  {
    forall t | HomeAsset(d, side, t) && t !in marks ensures Dormant(d, s, side, t) {
      assert s.At(side).core.events == [] && s.At(side.Other()).core.events == [];
    }
  }

  method PrepareInk(ghost d: Deployment, a: Launchpad, wazero: Token, azero: Token, weth: Token, eth: Token,
                    gas: GasConfig, maxPocketMoney: nat, ethTransferGasUsage: nat)
    returns (ink: InkMost.Most)
    requires WellDeployed(d) && OnL1(d) && Plays(a, d.profiles.a) && InkAccepts(a.committee, a.threshold)
    requires d.profiles.a.native == wazero && d.profiles.a.foreign == eth
    requires d.profiles.b.native == weth && d.profiles.b.foreign == azero
    ensures fresh(ink) && ink.Valid() && InkServes(d.profiles.a, ink) && Sound(ink.Accounts())
    ensures Fresh(ink.core) && ink.core.rosters == [Roster(a.committee, a.threshold)] && ink.ledger == a.ledger
    ensures ink.supportedPairs == NativePairs(d, A) && !ink.halted
  {
    ink := new InkMost.Most(a.committee, a.threshold, a.owner, a.self, a.hash, gas, maxPocketMoney,
                            ethTransferGasUsage, a.ledger);
    ghost var accounts := ink.Accounts();
    ConfigureInk(d, ink, wazero, azero, weth, eth);
    assert ink.Accounts() == accounts;
  }

  method PrepareSol(ghost d: Deployment, b: Launchpad, azero: Token, weth: Token, eth: Token)
    returns (sol: SolidityMost.AbstractMost)
    requires WellDeployed(d) && OnL1(d) && Plays(b, d.profiles.b) && SolidityAccepts(b.committee, b.threshold)
    requires d.profiles.a.foreign == eth && d.profiles.b.native == weth && d.profiles.b.foreign == azero
    ensures fresh(sol) && sol.Valid() && SolServes(d.profiles.b, sol)
    ensures Fresh(sol.core) && sol.core.rosters == [Roster(b.committee, b.threshold)] && sol.ledger == b.ledger
    ensures sol.supportedPairs == NativePairs(d, B) && !sol.paused
  {
    sol := new SolidityMost.AbstractMost(b.committee, b.threshold, b.owner, b.self, b.hash, weth, b.ledger);
    ConfigureSol(d, sol, azero, weth, eth);
  }

  /** The start that the protocol asks for. */
  lemma PreparedIsGenesis(d: Deployment, s: System, marksA: set<Token>, marksB: set<Token>)
    requires WellDeployed(d) && OnL1(d) && Fresh(s.a.core) && Fresh(s.b.core)
    requires Covered(s.a.ledger) && Covered(s.b.ledger) && NothingWrapped(d, s.a.ledger, s.b.ledger)
    requires s.a.pairs == NativePairs(d, A) && s.b.pairs == NativePairs(d, B)
    requires forall side :: |FaultyMembers(d.profiles.At(side), s.At(side).core.rosters[0].members)|
                            < s.At(side).core.rosters[0].threshold
    ensures Genesis(d, s) && Unmarked(d, s, A, marksA) && Unmarked(d, s, B, marksB)
  {
    NativePairsAgree(d, A);
    NativePairsAgree(d, B);
    FreshIsUnmarked(d, s, A, marksA);
    FreshIsUnmarked(d, s, B, marksB);
    assert GenesisSide(d, s, A) && GenesisSide(d, s, B);
  }

  /** From the two constructors on: with the native coins configured, any sequence of messages leaves everything wrapped
      backed, the accounts sound and the first committees in place. */
  method Launch(ghost d: Deployment, a: Launchpad, b: Launchpad, wazero: Token, azero: Token, weth: Token, eth: Token,
                gas: GasConfig, maxPocketMoney: nat, ethTransferGasUsage: nat, orders: seq<Order>)
    returns (ink: InkMost.Most, sol: SolidityMost.AbstractMost)
    requires WellDeployed(d) && OnL1(d) && Plays(a, d.profiles.a) && Plays(b, d.profiles.b)
    requires d.profiles.a.native == wazero && d.profiles.a.foreign == eth
    requires d.profiles.b.native == weth && d.profiles.b.foreign == azero
    requires InkAccepts(a.committee, a.threshold) && SolidityAccepts(b.committee, b.threshold)
    requires NothingWrapped(d, a.ledger, b.ledger)
    requires forall i | 0 <= i < |orders| :: Lawful(d, orders[i].side, orders[i].call)
    requires |orders| < U128_SIZE
    ensures fresh(ink) && fresh(sol) && ink.Valid() && sol.Valid() && Sound(ink.Accounts())
    ensures ink.core.rosters[0] == Roster(a.committee, a.threshold)
    ensures sol.core.rosters[0] == Roster(b.committee, b.threshold)
    ensures NoSurprise(d, Pair(ink.View(), sol.View())) ==>
              forall home, t | HomeAsset(d, home, t) :: Backed(d, Pair(ink.View(), sol.View()), home, t)
  {
    ink := PrepareInk(d, a, wazero, azero, weth, eth, gas, maxPocketMoney, ethTransferGasUsage);
    sol := PrepareSol(d, b, azero, weth, eth);
    ghost var s := Pair(ink.View(), sol.View());
    PreparedIsGenesis(d, s, ink.localToken, sol.isLocalToken);
    ghost var moves := Drive(d, ink, sol, orders);
    ghost var u := Pair(ink.View(), sol.View());
    if NoSurprise(d, u) {
      NothingWrappedBacked(d, s, u);
    }
  }
}
