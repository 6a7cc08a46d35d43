/** The two contracts of the L2 bridge at work: an `InkMostL2.MostL2` on Aleph Zero and an `L2.MostL2` on the EVM side,
    with a swap pool beside it.  Their storage, too, runs through the states of the two-chain protocol. */
module BridgeL2 {
  import opened Types
  import opened Collector
  import opened Committees
  import opened Treasury
  import opened Protocol
  import opened Backing
  import opened Messages
  import InkMostL2
  import L2

  ghost predicate OnL2(d: Deployment) {
    d.profiles.a.flavour.InkL2? && d.profiles.b.flavour.SolL2?
  }

  /** What the pool does with a swap: it fails, or pays `extra` on top of the least output that the contract accepts. */
  datatype Pool = Pays(extra: nat) | Fails

  function SwapOf(pool: Pool, least: nat): L2.Swap {
    match pool
    case Pays(extra) => L2.Swapped(least + extra)
    case Fails => L2.SwapFailed
  }

  /** A message to one of the contracts, or tokens moved by others on its chain.  `ok` and `sendOk` say how the calls to
      other contracts end, on the EVM side of the fee payments and of the mint, and of the transfer to the receiver. */
  datatype Call =
    | CallToken(token: Token, amount: nat, receiver: Account, value: nat, ok: bool)
    | CallCoins(amount: nat, receiver: Account, value: nat, pool: Pool, ok: bool)
    | CallVote(who: Account, claimed: Hash, request: Request, ok: bool, pool: Pool, sendOk: bool)
    | CallRelay(who: Account, index: nat, ok: bool, pool: Pool, sendOk: bool)
    | CallRotate(caller: Account, members: seq<Account>, threshold: nat)
    | CallPair(caller: Account, from: Token, dest: Token)
    | CallUnpair(caller: Account, from: Token)
    | CallMark(caller: Account, token: Token, isLocal: bool)
    | CallNative(caller: Account, token: Token)
    | CallFee(caller: Account, fee: nat)
    | CallHalt(caller: Account, state: bool)
    | CallOutside(token: Token, quantity: nat, movement: Movement)

  datatype Order = Order(side: Side, call: Call)

  /** The hypotheses on callers, as on L1. */
  ghost predicate Lawful(d: Deployment, side: Side, call: Call) {
    var p := d.profiles.At(side);
    match call
    case CallVote(who, _, request, _, _, _) => who in p.faulty && request in p.scheme.occurs
    case CallRotate(_, members, threshold) => |FaultyMembers(p, members)| < threshold
    case CallPair(_, from, dest) => PairsAgree(d, side, map[from := dest])
    case CallNative(_, token) => token == p.native
    case CallOutside(token, _, movement) => movement.Donate? || IsLocal(p, token)
    case _ => true
  }

  // --- contracts look at part of a profile only

  /** A contract set up as `q` plays the part of `p`, as far as flavour, hash, own address and native token go. */
  ghost predicate Alike(p: Profile, q: Profile) {
    p.flavour == q.flavour && p.scheme.hash == q.scheme.hash && p.self == q.self && p.native == q.native
  }

  lemma AlikeDispatch(p: Profile, q: Profile, ch: Chain, send: Send)
    requires Alike(p, q) && (p.flavour.InkL2? || p.flavour.SolL2?) && |ch.core.rosters| > 0
    ensures Dispatch(p, ch, send) == Dispatch(q, ch, send)
  {
    assert Outgoing(p, ch.pairs, send) == Outgoing(q, ch.pairs, send);
  }

  lemma AlikeSubmit(p: Profile, q: Profile, ch: Chain, who: Account, claimed: Hash, request: Request,
                    delivery: Delivery)
    requires Alike(p, q) && (p.flavour.InkL2? || p.flavour.SolL2?)
    ensures Submit(p, ch, who, claimed, request, delivery) == Submit(q, ch, who, claimed, request, delivery)
  {
    var pay := Incoming(p, request.token, request.amount);
    assert pay == Incoming(q, request.token, request.amount);
    assert Pay(p, ch.ledger, pay, PaysSelf(p, request, delivery), delivery)
           == Pay(q, ch.ledger, pay, PaysSelf(q, request, delivery), delivery);
  }

  /** Before wrapped AZERO is set, the ink! contract neither sends nor pays out coins; everything else does not depend
      on it. */
  ghost predicate AlikeUpToNative(p: Profile, q: Profile) {
    Alike(p, q.(native := p.native))
  }

  lemma TokenDispatch(p: Profile, q: Profile, ch: Chain, send: Send)
    requires AlikeUpToNative(p, q) && p.flavour.InkL2? && send.SendToken? && |ch.core.rosters| > 0
    ensures Dispatch(p, ch, send) == Dispatch(q, ch, send)
  {
    assert Outgoing(p, ch.pairs, send) == Outgoing(q, ch.pairs, send);
  }

  lemma TokenSubmit(p: Profile, q: Profile, ch: Chain, who: Account, claimed: Hash, request: Request,
                    delivery: Delivery)
    requires AlikeUpToNative(p, q) && p.flavour.InkL2?
    requires request.token != NATIVE_MARKER || !Executes(p.scheme.hash, ch.core, who, claimed, request)
    ensures Submit(p, ch, who, claimed, request, delivery) == Submit(q, ch, who, claimed, request, delivery)
  {
  }

  ghost predicate InkServes(p: Profile, ink: InkMostL2.MostL2)
    reads ink
  {
    AlikeUpToNative(p, ink.Setup()) && (ink.wazero.Some? ==> ink.wazero.value == p.native)
  }

  ghost predicate SolServes(p: Profile, sol: L2.MostL2)
    reads sol
  {
    Alike(p, sol.Setup())
  }

  // --- what each message does

  /** The vote is counted. */
  ghost predicate InkCounts(ink: InkMostL2.MostL2, who: Account, claimed: Hash, request: Request, ok: bool)
    reads ink
  {
    NeedsSignature(ink.core, claimed, who, request.committee) && ink.ReceiveSucceeds(who, claimed, request, ok)
  }

  /** The action that a message to the ink! contract performs, if any. */
  ghost function InkDoes(ink: InkMostL2.MostL2, source: seq<Request>, call: Call): Option<Action>
    requires ink.Valid()
    reads ink
  {
    var open := ink.requestNonce + 1 < U128_SIZE;
    match call
    case CallToken(token, amount, receiver, value, ok) =>
      var send := SendToken(token, amount, receiver);
      if ok && open && (ink.flatFee <= value || value >= U128_SIZE - 1) && Dispatch(ink.Setup(), ink.View(), send).Some?
      then Some(Outbound(send)) else None
    case CallCoins(amount, receiver, value, _, ok) =>
      var send := SendNative(amount, receiver);
      if && ok && open && (amount + ink.flatFee <= value || value >= U128_SIZE - 1) && ink.wazero.Some?
         && Dispatch(ink.Setup(), ink.View(), send).Some?
      then Some(Outbound(send)) else None
    case CallVote(who, claimed, request, ok, _, _) =>
      if InkCounts(ink, who, claimed, request, ok) then Some(Guard(who, claimed, request, Delivered)) else None
    case CallRelay(who, index, ok, _, _) =>
      if index < |source| && InkCounts(ink, who, ink.hash(source[index]), source[index], ok)
      then Some(Guard(who, ink.hash(source[index]), source[index], Delivered)) else None
    case CallRotate(caller, members, threshold) =>
      if caller == ink.owner && ink.halted && InkAccepts(members, threshold)
      then Some(Rotate(members, threshold)) else None
    case CallPair(caller, from, dest) =>
      Some(SetPairs(if caller == ink.owner && ink.halted then ink.supportedPairs[from := dest] else ink.supportedPairs))
    case CallUnpair(caller, from) =>
      Some(SetPairs(if caller == ink.owner && ink.halted then ink.supportedPairs - {from} else ink.supportedPairs))
    case CallHalt(caller, state) => Some(SetHalted(if caller == ink.owner then state else ink.halted))
    case CallOutside(token, quantity, movement) => Some(Outside(Moved(ink.ledger, token, quantity, movement)))
    case _ => None
  }

  /** The vote is counted; how its payout ends depends on mint, pool and transfer. */
  ghost function SolCounts(sol: L2.MostL2, who: Account, claimed: Hash, request: Request, ok: bool, pool: Pool,
                           sendOk: bool): Option<Action>
    reads sol
  {
    var delivery := sol.DeliveryOf(request, ok, SwapOf(pool, L2.CalcMinAmountOut(request.amount, false)), sendOk);
    if Accepts(sol.hash, sol.core, claimed, request, who)
       && Submit(sol.Setup(), sol.View(), who, claimed, request, delivery).Some?
    then Some(Guard(who, claimed, request, delivery)) else None
  }

  /** The action that a message to the Solidity contract performs, if any. */
  ghost function SolDoes(sol: L2.MostL2, source: seq<Request>, call: Call): Option<Action>
    requires sol.Valid()
    reads sol
  {
    var open := sol.requestNonce + 1 < U256_SIZE;
    match call
    case CallToken(token, amount, receiver, value, ok) =>
      var send := SendToken(token, amount, receiver);
      if && ok && open && sol.flatFee <= value && token % ADDRESS_SIZE !in sol.isLocalToken
         && Dispatch(sol.Setup(), sol.View(), send).Some?
      then Some(Outbound(send)) else None
    case CallCoins(amount, receiver, value, pool, ok) =>
      var swap := SwapOf(pool, L2.CalcMinAmountOut(amount, true));
      if && ok && open && amount >= L2.BAZERO_TO_NATIVE_RATIO && amount + sol.flatFee <= value && swap.Swapped?
         && Dispatch(sol.Setup(), sol.View(), SendNative(swap.out, receiver)).Some?
      then Some(Outbound(SendNative(swap.out, receiver))) else None
    case CallVote(who, claimed, request, ok, pool, sendOk) => SolCounts(sol, who, claimed, request, ok, pool, sendOk)
    case CallRelay(who, index, ok, pool, sendOk) =>
      if index < |source| then SolCounts(sol, who, sol.hash(source[index]), source[index], ok, pool, sendOk) else None
    case CallRotate(caller, members, threshold) =>
      if caller == sol.owner && sol.paused && sol.committeeId + 1 < U256_SIZE && SolidityAccepts(members, threshold)
      then Some(Rotate(members, threshold)) else None
    case CallPair(caller, from, dest) =>
      Some(SetPairs(if caller == sol.owner && sol.paused then sol.supportedPairs[from := dest] else sol.supportedPairs))
    case CallUnpair(caller, from) =>
      Some(SetPairs(if caller == sol.owner && sol.paused then sol.supportedPairs - {from} else sol.supportedPairs))
    case CallHalt(caller, state) =>
      Some(SetHalted(if caller == sol.owner then state else sol.paused))
    case CallOutside(token, quantity, movement) => Some(Outside(Moved(sol.ledger, token, quantity, movement)))
    case _ => None
  }

  // --- the ink! contract

  method InkSend(ghost d: Deployment, ink: InkMostL2.MostL2, ghost source: seq<Request>, call: Call)
    returns (ghost done: Option<Action>)
    requires OnL2(d) && ink.Valid() && InkServes(d.profiles.a, ink) && (call.CallToken? || call.CallCoins?)
    modifies ink`requestNonce, ink`emitted, ink`core, ink`ledger
    ensures ink.Valid() && InkServes(d.profiles.a, ink)
    ensures Did(d, A, old(ink.View()), source, done, ink.View()) && Grows(old(ink.core), ink.core)
    ensures done == old(InkDoes(ink, source, call))
  {
    ghost var p, q, ch := d.profiles.a, ink.Setup(), ink.View();
    done := None;
    match call {
      case CallToken(token, amount, receiver, value, ok) =>
        TokenDispatch(p, q, ch, SendToken(token, amount, receiver));
        var res := ink.SendRequest(token, amount, receiver, value, ok);
        if res.Ok? {
          done := Some(Outbound(SendToken(token, amount, receiver)));
        }
      case CallCoins(amount, receiver, value, _, ok) =>
        if ink.wazero.Some? {
          AlikeDispatch(p, q, ch, SendNative(amount, receiver));
        }
        var res := ink.SendRequestNativeAzero(amount, receiver, value, ok);
        if res.Ok? {
          done := Some(Outbound(SendNative(amount, receiver)));
        }
    }
  }

  /** `receive_request`, as far as the protocol sees it. */
  method InkReceive(ink: InkMostL2.MostL2, who: Account, claimed: Hash, request: Request, ok: bool)
    returns (ghost counted: bool)
    requires ink.Valid()
    modifies ink`pendingRequests, ink`signatures, ink`processedRequests, ink`core, ink`ledger
    ensures ink.Valid() && (!counted ==> ink.View() == old(ink.View()))
    ensures counted ==> old(Submit(ink.Setup(), ink.View(), who, claimed, request, Delivered)) == Some(ink.View())
    ensures counted && old(Executes(ink.hash, ink.core, who, claimed, request)) && request.token == NATIVE_MARKER ==>
              ink.wazero.Some?
    ensures counted == old(InkCounts(ink, who, claimed, request, ok))
  {
    ghost var needed := NeedsSignature(ink.core, claimed, who, request.committee);
    var res := ink.ReceiveRequest(who, claimed, request, ok);
    counted := res.Ok? && needed;
  }

  lemma InkVoteDid(d: Deployment, q: Profile, wazeroSet: bool, ch: Chain, source: seq<Request>, who: Account,
                   claimed: Hash, request: Request, ch': Chain)
    requires OnL2(d) && AlikeUpToNative(d.profiles.a, q) && (wazeroSet ==> q.native == d.profiles.a.native)
    requires |ch.core.rosters| > 0 && Submit(q, ch, who, claimed, request, Delivered) == Some(ch')
    requires wazeroSet || request.token != NATIVE_MARKER || !Executes(q.scheme.hash, ch.core, who, claimed, request)
    requires var p := d.profiles.a; (who in p.faulty && request in p.scheme.occurs) || request in source
    ensures Did(d, A, ch, source, Some(Guard(who, claimed, request, Delivered)), ch')
  {
    if wazeroSet {
      AlikeSubmit(d.profiles.a, q, ch, who, claimed, request, Delivered);
    } else {
      TokenSubmit(d.profiles.a, q, ch, who, claimed, request, Delivered);
    }
  }

  method InkVote(ghost d: Deployment, ink: InkMostL2.MostL2, ghost source: seq<Request>, who: Account, claimed: Hash,
                 request: Request, ok: bool)
    returns (ghost done: Option<Action>)
    requires OnL2(d) && ink.Valid() && InkServes(d.profiles.a, ink)
    requires (who in d.profiles.a.faulty && request in d.profiles.a.scheme.occurs) || request in source
    modifies ink`pendingRequests, ink`signatures, ink`processedRequests, ink`core, ink`ledger
    ensures ink.Valid() && InkServes(d.profiles.a, ink)
    ensures Did(d, A, old(ink.View()), source, done, ink.View()) && Grows(old(ink.core), ink.core)
    ensures done == if old(InkCounts(ink, who, claimed, request, ok))
                    then Some(Guard(who, claimed, request, Delivered)) else None
  {
    ghost var q, ch := ink.Setup(), ink.View();
    ghost var counted := InkReceive(ink, who, claimed, request, ok);
    done := None;
    if counted {
      done := Some(Guard(who, claimed, request, Delivered));
      SubmitGrows(q, ch, who, claimed, request, Delivered);
      InkVoteDid(d, q, ink.wazero.Some?, ch, source, who, claimed, request, ink.View());
    }
  }

  /** The owner's messages about tokens and fees. */
  method InkSetup(ghost d: Deployment, ink: InkMostL2.MostL2, ghost source: seq<Request>, call: Call)
    returns (ghost done: Option<Action>)
    requires OnL2(d) && ink.Valid() && InkServes(d.profiles.a, ink) && Lawful(d, A, call)
    requires call.CallPair? || call.CallUnpair? || call.CallNative? || call.CallFee?
    modifies ink`supportedPairs, ink`wazero, ink`flatFee
    ensures ink.Valid() && InkServes(d.profiles.a, ink)
    ensures Did(d, A, old(ink.View()), source, done, ink.View())
    ensures done == old(InkDoes(ink, source, call))
    ensures ink.wazero == if call.CallNative? && call.caller == ink.owner && ink.halted then Some(call.token)
                          else old(ink.wazero)
    ensures ink.flatFee == if call.CallFee? && call.caller == ink.owner then call.fee else old(ink.flatFee)
  {
    done := None;
    match call {
      case CallPair(caller, from, dest) =>
        var res := ink.SetPair(caller, from, Some(dest));
        done := Some(SetPairs(ink.supportedPairs));
      case CallUnpair(caller, from) =>
        var res := ink.SetPair(caller, from, None);
        done := Some(SetPairs(ink.supportedPairs));
      case CallNative(caller, token) => var _ := ink.SetWazero(caller, token);
      case CallFee(caller, fee) => var _ := ink.SetFlatFee(caller, fee);
    }
  }

  /** The owner's other messages, and tokens moved by others. */
  method InkManage(ghost d: Deployment, ink: InkMostL2.MostL2, ghost source: seq<Request>, call: Call)
    returns (ghost done: Option<Action>)
    requires OnL2(d) && ink.Valid() && InkServes(d.profiles.a, ink) && Lawful(d, A, call)
    requires call.CallRotate? || call.CallHalt? || call.CallOutside?
    requires ink.committeeId + 1 < U128_SIZE
    modifies ink`committeeId, ink`committees, ink`committeeSizes, ink`signatureThresholds, ink`core, ink`halted,
      ink`ledger
    ensures ink.Valid() && InkServes(d.profiles.a, ink)
    ensures Did(d, A, old(ink.View()), source, done, ink.View()) && Grows(old(ink.core), ink.core)
    ensures done == old(InkDoes(ink, source, call))
  {
    match call {
      case CallRotate(caller, members, threshold) =>
        var res := ink.SetCommittee(caller, members, threshold);
        done := if res.Ok? then Some(Rotate(members, threshold)) else None;
      case CallHalt(caller, state) =>
        var res := ink.SetHalted(caller, state);
        done := Some(SetHalted(ink.halted));
      case CallOutside(token, quantity, movement) =>
        MovedAllowed(d.profiles.a, ink.ledger, token, quantity, movement);
        ink.ledger := Moved(ink.ledger, token, quantity, movement);
        done := Some(Outside(ink.ledger));
    }
  }

  method InkStep(ghost d: Deployment, ink: InkMostL2.MostL2, source: seq<Request>, call: Call)
    returns (ghost done: Option<Action>)
    requires OnL2(d) && ink.Valid() && InkServes(d.profiles.a, ink) && Lawful(d, A, call)
    requires ink.committeeId + 1 < U128_SIZE
    modifies ink
    ensures ink.Valid() && InkServes(d.profiles.a, ink)
    ensures Did(d, A, old(ink.View()), source, done, ink.View()) && Grows(old(ink.core), ink.core)
    ensures done == old(InkDoes(ink, source, call))
  {
    if call.CallToken? || call.CallCoins? {
      done := InkSend(d, ink, source, call);
    } else if call.CallVote? {
      done := InkVote(d, ink, source, call.who, call.claimed, call.request, call.ok);
    } else if call.CallRelay? {
      done := None;
      if call.index < |source| {
        var request := source[call.index];
        done := InkVote(d, ink, source, call.who, ink.hash(request), request, call.ok);
      }
    } else if call.CallRotate? || call.CallHalt? || call.CallOutside? {
      done := InkManage(d, ink, source, call);
    } else if call.CallMark? {
      done := None;
    } else {
      done := InkSetup(d, ink, source, call);
    }
  }

  // --- the Solidity contract

  method SolSend(ghost d: Deployment, sol: L2.MostL2, ghost source: seq<Request>, call: Call)
    returns (ghost done: Option<Action>)
    requires OnL2(d) && sol.Valid() && SolServes(d.profiles.b, sol) && (call.CallToken? || call.CallCoins?)
    modifies sol`ledger, sol`requestNonce, sol`emitted, sol`core, sol`coins
    ensures sol.Valid() && SolServes(d.profiles.b, sol)
    ensures Did(d, B, old(sol.View()), source, done, sol.View()) && Grows(old(sol.core), sol.core)
    ensures done == old(SolDoes(sol, source, call))
  {
    ghost var p, q, ch := d.profiles.b, sol.Setup(), sol.View();
    done := None;
    match call {
      case CallToken(token, amount, receiver, value, ok) =>
        AlikeDispatch(p, q, ch, SendToken(token, amount, receiver));
        var sent := sol.SendTokenRequest(value, token, amount, receiver, ok, ok);
        if sent {
          done := Some(Outbound(SendToken(token, amount, receiver)));
        }
      case CallCoins(amount, receiver, value, pool, ok) =>
        var swap := SwapOf(pool, L2.CalcMinAmountOut(amount, true));
        ghost var out := if swap.Swapped? then swap.out else 0;
        AlikeDispatch(p, q, ch, SendNative(out, receiver));
        var sent := sol.SendRequestNative(value, amount, receiver, swap, ok);
        if sent {
          done := Some(Outbound(SendNative(out, receiver)));
        }
    }
  }

  method SolVote(ghost d: Deployment, sol: L2.MostL2, ghost source: seq<Request>, who: Account, claimed: Hash,
                 request: Request, ok: bool, pool: Pool, sendOk: bool)
    returns (ghost done: Option<Action>)
    requires OnL2(d) && sol.Valid() && SolServes(d.profiles.b, sol)
    requires (who in d.profiles.b.faulty && request in d.profiles.b.scheme.occurs) || request in source
    modifies sol`pendingRequests, sol`processedRequests, sol`core, sol`ledger, sol`coins
    ensures sol.Valid() && SolServes(d.profiles.b, sol)
    ensures Did(d, B, old(sol.View()), source, done, sol.View()) && Grows(old(sol.core), sol.core)
    ensures done == old(SolCounts(sol, who, claimed, request, ok, pool, sendOk))
  {
    var swap := SwapOf(pool, L2.CalcMinAmountOut(request.amount, false));
    ghost var q, ch := sol.Setup(), sol.View();
    ghost var delivery := sol.DeliveryOf(request, ok, swap, sendOk);
    ghost var needed := Accepts(sol.hash, sol.core, claimed, request, who);
    var counted := sol.ReceiveRequest(who, claimed, request, ok, swap, sendOk);
    done := None;
    if counted && needed {
      done := Some(Guard(who, claimed, request, delivery));
      SubmitGrows(q, ch, who, claimed, request, delivery);
      AlikeSubmit(d.profiles.b, q, ch, who, claimed, request, delivery);
    }
  }

  /** The owner's messages about tokens and fees. */
  method SolSetup(ghost d: Deployment, sol: L2.MostL2, ghost source: seq<Request>, call: Call)
    returns (ghost done: Option<Action>)
    requires OnL2(d) && sol.Valid() && SolServes(d.profiles.b, sol) && Lawful(d, B, call)
    requires call.CallPair? || call.CallUnpair? || call.CallMark? || call.CallNative? || call.CallFee?
    modifies sol`supportedPairs, sol`isLocalToken, sol`bazero, sol`flatFee
    ensures sol.Valid() && SolServes(d.profiles.b, sol)
    ensures Did(d, B, old(sol.View()), source, done, sol.View())
    ensures done == old(SolDoes(sol, source, call))
    ensures sol.bazero == if call.CallNative? && call.caller == sol.owner && sol.paused then call.token
                          else old(sol.bazero)
    ensures sol.flatFee == if call.CallFee? && call.caller == sol.owner then call.fee else old(sol.flatFee)
  {
    done := None;
    match call {
      case CallPair(caller, from, dest) =>
        var _ := sol.AddPair(caller, from, dest, false);
        done := Some(SetPairs(sol.supportedPairs));
      case CallUnpair(caller, from) =>
        var _ := sol.RemovePair(caller, from);
        done := Some(SetPairs(sol.supportedPairs));
      case CallMark(caller, token, isLocal) => var _ := sol.SetLocalToken(caller, token, isLocal);
      case CallNative(caller, token) => var _ := sol.SetBridgedAzeroAddress(caller, token);
      case CallFee(caller, fee) => var _ := sol.SetFlatFee(caller, fee);
    }
  }

  /** The owner's other messages, and tokens moved by others. */
  method SolManage(ghost d: Deployment, sol: L2.MostL2, ghost source: seq<Request>, call: Call)
    returns (ghost done: Option<Action>)
    requires OnL2(d) && sol.Valid() && SolServes(d.profiles.b, sol) && Lawful(d, B, call)
    requires call.CallRotate? || call.CallHalt? || call.CallOutside?
    modifies sol`committeeId, sol`committee, sol`committeeSize, sol`signatureThreshold, sol`core, sol`paused, sol`ledger
    ensures sol.Valid() && SolServes(d.profiles.b, sol)
    ensures Did(d, B, old(sol.View()), source, done, sol.View()) && Grows(old(sol.core), sol.core)
    ensures done == old(SolDoes(sol, source, call))
  {
    match call {
      case CallRotate(caller, members, threshold) =>
        var ok := sol.SetCommittee(caller, members, threshold);
        done := if ok then Some(Rotate(members, threshold)) else None;
      case CallHalt(caller, state) =>
        var _ := sol.SetPaused(caller, state);
        done := Some(SetHalted(sol.paused));
      case CallOutside(token, quantity, movement) =>
        MovedAllowed(d.profiles.b, sol.ledger, token, quantity, movement);
        sol.ledger := Moved(sol.ledger, token, quantity, movement);
        done := Some(Outside(sol.ledger));
    }
  }

  method SolStep(ghost d: Deployment, sol: L2.MostL2, source: seq<Request>, call: Call)
    returns (ghost done: Option<Action>)
    requires OnL2(d) && sol.Valid() && SolServes(d.profiles.b, sol) && Lawful(d, B, call)
    modifies sol
    ensures sol.Valid() && SolServes(d.profiles.b, sol)
    ensures Did(d, B, old(sol.View()), source, done, sol.View()) && Grows(old(sol.core), sol.core)
    ensures done == old(SolDoes(sol, source, call))
  {
    if call.CallToken? || call.CallCoins? {
      done := SolSend(d, sol, source, call);
    } else if call.CallVote? {
      done := SolVote(d, sol, source, call.who, call.claimed, call.request, call.ok, call.pool, call.sendOk);
    } else if call.CallRelay? {
      done := None;
      if call.index < |source| {
        var request := source[call.index];
        done := SolVote(d, sol, source, call.who, sol.hash(request), request, call.ok, call.pool, call.sendOk);
      }
    } else if call.CallRotate? || call.CallHalt? || call.CallOutside? {
      done := SolManage(d, sol, source, call);
    } else {
      done := SolSetup(d, sol, source, call);
    }
  }

  // --- any sequence of messages

  /** What holds between messages, `count` messages after the start. */
  ghost predicate InStep(d: Deployment, ink: InkMostL2.MostL2, sol: L2.MostL2, start: System, moves: seq<Move>,
                         count: nat)
    requires Booted(start)
    reads ink, sol
  {
    && ink.Valid() && InkServes(d.profiles.a, ink) && ink.committeeId <= count
    && sol.Valid() && SolServes(d.profiles.b, sol)
    && (NoSurprise(d, Pair(ink.View(), sol.View())) ==> Pair(ink.View(), sol.View()) == Run(d, start, moves))
  }

  method DeliverInk(ghost d: Deployment, ink: InkMostL2.MostL2, sol: L2.MostL2, call: Call, ghost start: System,
                    ghost moves: seq<Move>, ghost count: nat)
    returns (ghost moves': seq<Move>)
    requires WellDeployed(d) && OnL2(d) && Genesis(d, start) && InStep(d, ink, sol, start, moves, count)
    requires Lawful(d, A, call) && count + 1 < U128_SIZE
    modifies ink
    ensures InStep(d, ink, sol, start, moves', count + 1) && old(ink.core.rosters) <= ink.core.rosters
    ensures moves' == moves + Moves(A, old(InkDoes(ink, sol.emitted, call)))
  {
    ghost var known := NoSurprise(d, Pair(ink.View(), sol.View()));
    ghost var done := InkStep(d, ink, sol.emitted, call);
    moves' := moves + Moves(A, done);
    if NoSurprise(d, Pair(ink.View(), sol.View())) {
      assert known;
      var run := DidExtends(d, start, moves, A, done, ink.View());
      assert done.None? ==> moves' == moves;
    }
  }

  method DeliverSol(ghost d: Deployment, ink: InkMostL2.MostL2, sol: L2.MostL2, call: Call, ghost start: System,
                    ghost moves: seq<Move>, ghost count: nat)
    returns (ghost moves': seq<Move>)
    requires WellDeployed(d) && OnL2(d) && Genesis(d, start) && InStep(d, ink, sol, start, moves, count)
    requires Lawful(d, B, call)
    modifies sol
    ensures InStep(d, ink, sol, start, moves', count + 1) && old(sol.core.rosters) <= sol.core.rosters
    ensures moves' == moves + Moves(B, old(SolDoes(sol, ink.emitted, call)))
  {
    ghost var known := NoSurprise(d, Pair(ink.View(), sol.View()));
    ghost var done := SolStep(d, sol, ink.emitted, call);
    moves' := moves + Moves(B, done);
    if NoSurprise(d, Pair(ink.View(), sol.View())) {
      assert known;
      var run := DidExtends(d, start, moves, B, done, sol.View());
      assert done.None? ==> moves' == moves;
    }
  }

  /** Delivers one message to the contract it is for. */
  method Deliver(ghost d: Deployment, ink: InkMostL2.MostL2, sol: L2.MostL2, order: Order, ghost start: System,
                 ghost moves: seq<Move>, ghost count: nat)
    returns (ghost moves': seq<Move>)
    requires WellDeployed(d) && OnL2(d) && Genesis(d, start) && InStep(d, ink, sol, start, moves, count)
    requires Lawful(d, order.side, order.call) && count + 1 < U128_SIZE
    modifies ink, sol
    ensures InStep(d, ink, sol, start, moves', count + 1)
    ensures CommitteesKept(old(Pair(ink.View(), sol.View())), Pair(ink.View(), sol.View()))
    ensures moves' == moves + if order.side == A then Moves(A, old(InkDoes(ink, sol.emitted, order.call)))
                              else Moves(B, old(SolDoes(sol, ink.emitted, order.call)))
  {
    if order.side == A {
      moves' := DeliverInk(d, ink, sol, order.call, start, moves, count);
    } else {
      moves' := DeliverSol(d, ink, sol, order.call, start, moves, count);
    }
  }

  /** From contracts without history, any sequence of messages takes the storage of the two contracts to a state that
      the protocol reaches, and in it everything wrapped is backed, for any pool. */
  method Drive(ghost d: Deployment, ink: InkMostL2.MostL2, sol: L2.MostL2, orders: seq<Order>)
    returns (ghost moves: seq<Move>)
    requires WellDeployed(d) && OnL2(d) && Genesis(d, Pair(ink.View(), sol.View()))
    requires ink.Valid() && InkServes(d.profiles.a, ink) && sol.Valid() && SolServes(d.profiles.b, sol)
    requires forall i | 0 <= i < |orders| :: Lawful(d, orders[i].side, orders[i].call)
    requires |orders| < U128_SIZE
    modifies ink, sol
    ensures ink.Valid() && sol.Valid()
    ensures CommitteesKept(old(Pair(ink.View(), sol.View())), Pair(ink.View(), sol.View()))
    ensures var s, u := old(Pair(ink.View(), sol.View())), Pair(ink.View(), sol.View());
            NoSurprise(d, u) ==> u == Run(d, s, moves) && AllBacked(d, s, u)
  {
    ghost var start := Pair(ink.View(), sol.View());
    moves := [];
    for i := 0 to |orders|
      invariant InStep(d, ink, sol, start, moves, i) && CommitteesKept(start, Pair(ink.View(), sol.View()))
    {
      moves := Deliver(d, ink, sol, orders[i], start, moves, i);
    }
    RunBacked(d, start, moves);
  }

  // --- from deployment on

  method PrepareInk(ghost d: Deployment, a: Launchpad, wazero: Token) returns (ink: InkMostL2.MostL2)
    requires OnL2(d) && Plays(a, d.profiles.a) && InkAccepts(a.committee, a.threshold) && d.profiles.a.native == wazero
    ensures fresh(ink) && ink.Valid() && InkServes(d.profiles.a, ink) && ink.wazero == Some(wazero) && !ink.halted
    ensures Fresh(ink.core) && ink.core.rosters == [Roster(a.committee, a.threshold)] && ink.ledger == a.ledger
    ensures ink.supportedPairs == map[]
  {
    ink := new InkMostL2.MostL2(a.committee, a.threshold, a.owner, a.self, a.hash, a.ledger);
    var res := ink.SetWazero(ink.owner, wazero);
    res := ink.SetHalted(ink.owner, false);
  }

  method PrepareSol(ghost d: Deployment, b: Launchpad, bazero: Token) returns (sol: L2.MostL2)
    requires OnL2(d) && Plays(b, d.profiles.b) && SolidityAccepts(b.committee, b.threshold)
    requires d.profiles.b.native == bazero
    ensures fresh(sol) && sol.Valid() && SolServes(d.profiles.b, sol) && !sol.paused
    ensures Fresh(sol.core) && sol.core.rosters == [Roster(b.committee, b.threshold)] && sol.ledger == b.ledger
    ensures sol.supportedPairs == map[]
  {
    sol := new L2.MostL2(b.committee, b.threshold, b.owner, b.self, b.hash, bazero, b.ledger);
    var ok := sol.SetPaused(sol.owner, false);
  }

  /** From the two constructors on: any sequence of messages leaves every asset of the L2 bridge backed and the first
      committees in place. */
  method Launch(ghost d: Deployment, a: Launchpad, b: Launchpad, wazero: Token, bazero: Token, orders: seq<Order>)
    returns (ink: InkMostL2.MostL2, sol: L2.MostL2)
    requires WellDeployed(d) && OnL2(d) && Plays(a, d.profiles.a) && Plays(b, d.profiles.b)
    requires d.profiles.a.native == wazero && d.profiles.b.native == bazero
    requires InkAccepts(a.committee, a.threshold) && SolidityAccepts(b.committee, b.threshold)
    requires NothingWrapped(d, a.ledger, b.ledger)
    requires forall i | 0 <= i < |orders| :: Lawful(d, orders[i].side, orders[i].call)
    requires |orders| < U128_SIZE
    ensures fresh(ink) && fresh(sol) && ink.Valid() && sol.Valid()
    ensures ink.core.rosters[0] == Roster(a.committee, a.threshold)
    ensures sol.core.rosters[0] == Roster(b.committee, b.threshold)
    ensures NoSurprise(d, Pair(ink.View(), sol.View())) ==>
              forall home, t | HomeAsset(d, home, t) :: Backed(d, Pair(ink.View(), sol.View()), home, t)
  {
    ink := PrepareInk(d, a, wazero);
    sol := PrepareSol(d, b, bazero);
    ghost var s := Pair(ink.View(), sol.View());
    assert GenesisSide(d, s, A) && GenesisSide(d, s, B);
    ghost var moves := Drive(d, ink, sol, orders);
    ghost var u := Pair(ink.View(), sol.View());
    if NoSurprise(d, u) {
      NothingWrappedBacked(d, s, u);
    }
  }
}
