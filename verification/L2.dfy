/** The L2 bridge on the EVM side: native coins are swapped for bridged AZERO in a pool before they leave, and back when
    they arrive. */
module L2 {
  import opened Types
  import opened Collector
  import opened Committees
  import opened Treasury
  import opened Effects
  import opened SolidityMost

  const MIN_SWAP_RATE: nat := 99
  const BAZERO_TO_NATIVE_RATIO: nat := 1_000_000

  /** The least output of a swap that the contract accepts. */
  function CalcMinAmountOut(amount: nat, toBazero: bool): nat {
    if toBazero then amount / 100 * MIN_SWAP_RATE / BAZERO_TO_NATIVE_RATIO
    else amount / 100 * MIN_SWAP_RATE * BAZERO_TO_NATIVE_RATIO
  }

  /** What the floor divisions of the two minimum outputs can lose together. */
  const ROUND_TRIP_LOSS: nat := 99_000_097

  /** Through the bridge and back: whatever a pool that honours both minimum outputs pays, at least 98.01% of `x` comes
      back, up to a constant below 10^8. */
  lemma RoundTripBound(x: nat, y: nat, z: nat)
    requires y >= CalcMinAmountOut(x, true) && z >= CalcMinAmountOut(y, false)
    ensures 10_000 * z >= 9_801 * x - 10_000 * ROUND_TRIP_LOSS && ROUND_TRIP_LOSS < 100_000_000
  {
    var a := x / 100;
    assert x <= 100 * a + 99;
    var m := a * 99 / 1_000_000;
    assert 99 * a <= 1_000_000 * m + 999_999;
    var b := y / 100;
    assert y <= 100 * b + 99;
    assert z >= 99_000_000 * b;
  }

  /** The accepted minimum is 99% of the input in the units of the output, but for the roundings of the divisions. */
  lemma MinAmountIs(x: nat)
    ensures var least := CalcMinAmountOut(x, true);
            100_000_000 * least <= 99 * x < 100_000_000 * (least + 1) + 9_801
    ensures var least := CalcMinAmountOut(x, false);
            100 * least <= 99_000_000 * x <= 100 * least + 99_000_000 * 99
  {
    var a := x / 100;
    assert 100 * a <= x <= 100 * a + 99;
    var m := a * 99 / 1_000_000;
    assert 1_000_000 * m <= 99 * a < 1_000_000 * m + 1_000_000;
  }

  /** The accepted minimum never decreases when the pool is given more. */
  lemma MinAmountGrows(x: nat, x': nat, toBazero: bool)
    requires x <= x'
    ensures CalcMinAmountOut(x, toBazero) <= CalcMinAmountOut(x', toBazero)
  {
    assert x / 100 <= x' / 100;
    if toBazero {
      assert x / 100 * 99 <= x' / 100 * 99;
    }
  }

  lemma UpdateTwice(l: Ledger, t: Token, supply: nat, held: nat, supply': nat, held': nat)
    ensures Update(Update(l, t, supply, held), t, supply', held') == Update(l, t, supply', held')
  {
    assert l.supply[t := supply][t := supply'] == l.supply[t := supply'];
    assert l.held[t := held][t := held'] == l.held[t := held'];
  }

  /** The pool: takes exactly the input and pays what it returns, at least the minimum, or fails. */
  datatype Swap = Swapped(out: nat) | SwapFailed

  /** Half an AZERO of the L2. */
  const INITIAL_FLAT_FEE: nat := 500_000_000_000_000_000

  /** `MostL2.sol` with what it inherits from `AbstractMost`. */
  class MostL2 {
    const self: Account
    const owner: Account
    /** `keccak256(abi.encodePacked(...))`. */
    const hash: Request -> Hash

    var bazero: Token
    var flatFee: nat
    /** Native coins of the contract. */
    var coins: nat
    var paused: bool
    var supportedPairs: map<Token, Token>
    var isLocalToken: set<Token>
    var pendingRequests: map<Hash, Slot>
    var processedRequests: set<Hash>
    var committee: set<(nat, Account)>
    var committeeSize: map<nat, nat>
    var signatureThreshold: map<nat, nat>
    var requestNonce: nat
    var committeeId: nat
    var ledger: Ledger
    /** The request events of this contract in the chain's event log. */
    var emitted: seq<Request>

    /** The abstract state that the storage stands for. */
    ghost var core: Core

    ghost predicate Valid()
      reads this
    {
      && |core.rosters| > 0 && committeeId == |core.rosters| - 1
      && requestNonce == |emitted| && emitted == core.events
      && Stored(core.rosters, committee, committeeSize, signatureThreshold)
      && (forall c | 0 <= c < |core.rosters| :: SolidityAccepts(core.rosters[c].members, core.rosters[c].threshold))
      && VotesStored(core, pendingRequests, processedRequests)
    }

    ghost function View(): Chain
      reads this
    {
      Chain(core, ledger, supportedPairs, paused)
    }

    ghost function Setup(): Profile
      reads this
    {
      Profile(SolL2, Scheme(hash, iset{}), {}, self, bazero, ZERO_ADDRESS, {})
    }

    constructor (members: seq<Account>, threshold: nat, owner: Account, self: Account, hash: Request -> Hash,
                 bazero: Token, ledger: Ledger)
      requires SolidityAccepts(members, threshold)
      ensures Valid() && Fresh(core) && core.rosters == [Roster(members, threshold)]
      ensures paused && supportedPairs == map[] && isLocalToken == {} && coins == 0 && flatFee == INITIAL_FLAT_FEE
      ensures this.ledger == ledger && this.bazero == bazero && this.self == self && this.owner == owner
      ensures this.hash == hash && emitted == [] && committeeId == 0
    {
      this.self, this.owner, this.hash, this.bazero, this.ledger := self, owner, hash, bazero, ledger;
      this.flatFee, this.coins, this.paused := INITIAL_FLAT_FEE, 0, true;
      this.supportedPairs, this.isLocalToken, this.requestNonce, this.committeeId := map[], {}, 0, 0;
      this.pendingRequests, this.processedRequests, this.emitted := map[], {}, [];
      this.committee := Marks(0, members);
      this.committeeSize, this.signatureThreshold := map[0 := |members|], map[0 := threshold];
      this.core := Core([Roster(members, threshold)], map[], {}, [], []);
    }

    // --- receiving

    /** How a payout ends.  Tokens marked as local are refused; a mint that fails, an overflowing minimum and, after a
        failed swap, a token transfer that fails revert everything. */
    ghost function DeliveryOf(request: Request, mintOk: bool, swap: Swap, sendOk: bool): Delivery
      reads this
    {
      var t := request.token % ADDRESS_SIZE;
      if t in isLocalToken || !mintOk then Reverted
      else if t != NATIVE_MARKER then Delivered
      else if CalcMinAmountOut(request.amount, false) >= U256_SIZE || (swap.SwapFailed? && !sendOk) then Reverted
      else if swap.Swapped? then Delivered
      else Refused
    }

    ghost function Payment(request: Request, delivery: Delivery): Option<Ledger>
      reads this
    {
      Pay(Setup(), ledger, Incoming(Setup(), request.token, request.amount),
          PaysSelf(Setup(), request, delivery), delivery)
    }

    /** `native_transfer`: mints, swaps for native coins and sends them on; when the swap fails the receiver gets the
        bridged AZERO itself.  On every branch the ledger changes as the protocol demands of the payment of `request`;
        coins stay behind only when they cannot be sent or the bridge is the receiver. */
    method NativeTransfer(request: Request, mintOk: bool, swap: Swap, sendOk: bool) returns (ok: bool)
      requires request.token % ADDRESS_SIZE == NATIVE_MARKER && NATIVE_MARKER !in isLocalToken
      requires swap.Swapped? ==> swap.out >= CalcMinAmountOut(request.amount, false)
      modifies this`coins, this`ledger
      ensures ok <==> mintOk && CalcMinAmountOut(request.amount, false) < U256_SIZE && (swap.Swapped? || sendOk)
      ensures old(Payment(request, DeliveryOf(request, mintOk, swap, sendOk))) == if ok then Some(ledger) else None
      ensures !ok ==> unchanged(this)
      ensures ok ==> coins == old(coins) + if swap.Swapped? && (!sendOk || request.receiver % ADDRESS_SIZE == self)
                                           then swap.out else 0
    {
      if !mintOk || CalcMinAmountOut(request.amount, false) >= U256_SIZE || (swap.SwapFailed? && !sendOk) {
        return false;
      }
      var amount, receiver := request.amount, request.receiver % ADDRESS_SIZE;
      UpdateTwice(ledger, bazero, Supply(ledger, bazero) + amount, Held(ledger, bazero) + amount,
                  Supply(ledger, bazero) + amount, Held(ledger, bazero));
      ledger := Update(ledger, bazero, Supply(ledger, bazero) + amount, Held(ledger, bazero) + amount);
      match swap {
        case Swapped(out) =>
          ledger := Update(ledger, bazero, Supply(ledger, bazero), Held(ledger, bazero) - amount);
          coins := coins + out;
          if sendOk && receiver != self {
            coins := coins - out;
          }
        case SwapFailed =>
          if receiver != self {
            ledger := Update(ledger, bazero, Supply(ledger, bazero), Held(ledger, bazero) - amount);
          }
      }
      return true;
    }

    /** The payout part of `onReceiveRequestThresholdMet`. */
    method PayOut(request: Request, mintOk: bool, swap: Swap, sendOk: bool) returns (ok: bool)
      requires swap.Swapped? ==> swap.out >= CalcMinAmountOut(request.amount, false)
      modifies this`coins, this`ledger
      ensures old(Payment(request, DeliveryOf(request, mintOk, swap, sendOk))) == if ok then Some(ledger) else None
      ensures !ok ==> unchanged(this)
    {
      var t := request.token % ADDRESS_SIZE;
      if t in isLocalToken {
        return false;
      }
      if t == NATIVE_MARKER {
        ok := NativeTransfer(request, mintOk, swap, sendOk);
        return;
      }
      if mintOk {
        ledger := Update(ledger, t, Supply(ledger, t) + request.amount,
                         Held(ledger, t) + if request.receiver % ADDRESS_SIZE == self then request.amount else 0);
      }
      return mintOk;
    }

    /** Marks the sender; a request that reaches the quorum is processed and its count zeroed. */
    method Record(sender: Account, h: Hash, request: Request)
      requires Valid() && NeedsSignature(core, h, sender, request.committee)
      modifies this`pendingRequests, this`processedRequests, this`core
      ensures Valid() && core == Cast(old(core), h, request, sender)
    {
      StoreVote(core, pendingRequests, processedRequests, h, request, sender);
      var slot := SlotAt(pendingRequests, h);
      var count := slot.signatureCount + 1;
      if count >= signatureThreshold[request.committee] {
        processedRequests := processedRequests + {h};
        count := 0;
      }
      pendingRequests := pendingRequests[h := Slot(count, slot.signatures + {sender})];
      core := Cast(core, h, request, sender);
    }

    /** The checks before a vote is counted: `None` when the vote is needed and its hash matches its data. */
    method Screen(sender: Account, claimed: Hash, request: Request) returns (early: Option<bool>)
      requires Valid()
      ensures early.None? <==> !paused && Accepts(hash, core, claimed, request, sender)
      ensures early == Some(true) <==>
                && !paused && InCommittee(core, request.committee, sender)
                && (claimed in core.executed || sender in Signers(core, hash(request)))
    {
      if paused || (request.committee, sender) !in committee {
        return Some(false);
      }
      if claimed in processedRequests {
        return Some(true);
      }
      var h := hash(request);
      assert h in pendingRequests || Signers(core, h) == {};
      if sender in SlotAt(pendingRequests, h).signatures {
        return Some(true);
      }
      if claimed != h {
        return Some(false);
      }
      return None;
    }

    method CountVote(sender: Account, h: Hash, request: Request, mintOk: bool, swap: Swap, sendOk: bool)
      returns (ok: bool)
      requires Valid() && NeedsSignature(core, h, sender, request.committee)
      requires swap.Swapped? ==> swap.out >= CalcMinAmountOut(request.amount, false)
      modifies this`pendingRequests, this`processedRequests, this`core, this`ledger, this`coins
      ensures Valid() && (!ok ==> unchanged(this))
      ensures ok <==> (ReachesQuorum(old(core), h, request, sender) ==>
                         old(Payment(request, DeliveryOf(request, mintOk, swap, sendOk))).Some?)
      ensures ok ==>
                && core == Cast(old(core), h, request, sender)
                && Some(ledger) == if ReachesQuorum(old(core), h, request, sender)
                                   then old(Payment(request, DeliveryOf(request, mintOk, swap, sendOk)))
                                   else Some(old(ledger))
    {
      StoreVote(core, pendingRequests, processedRequests, h, request, sender);
      ok := true;
      if SlotAt(pendingRequests, h).signatureCount + 1 >= signatureThreshold[request.committee] {
        ok := PayOut(request, mintOk, swap, sendOk);
      }
      if ok {
        Record(sender, h, request);
      }
    }

    /** A needed vote has exactly the effect of the abstract machine; every other call that does not revert changes
        nothing. */
    method ReceiveRequest(sender: Account, claimed: Hash, request: Request, mintOk: bool, swap: Swap, sendOk: bool)
      returns (ok: bool)
      requires Valid() && (swap.Swapped? ==> swap.out >= CalcMinAmountOut(request.amount, false))
      modifies this`pendingRequests, this`processedRequests, this`core, this`ledger, this`coins
      ensures Valid()
      ensures !old(Accepts(hash, core, claimed, request, sender)) ==>
                unchanged(this)
                && (ok <==> !paused && InCommittee(old(core), request.committee, sender)
                            && (claimed in old(core).executed || sender in Signers(old(core), hash(request))))
      ensures old(Accepts(hash, core, claimed, request, sender)) ==>
                match old(Submit(Setup(), View(), sender, claimed, request,
                                 DeliveryOf(request, mintOk, swap, sendOk)))
                case Some(ch) => ok && View() == ch
                case None => !ok && unchanged(this)
    {
      var early := Screen(sender, claimed, request);
      if early.Some? {
        return early.value;
      }
      ok := CountVote(sender, claimed, request, mintOk, swap, sendOk);
    }

    // --- sending

    /** `handle_flat_fee`: of the coins sent along, `native` stay for the request, the fee goes to the owner and the
        rest back to the caller. */
    method HandleFlatFee(value: nat, native: nat, paymentsOk: bool) returns (ok: bool)
      modifies this`coins
      ensures ok <==> native + flatFee <= value && paymentsOk
      ensures coins == if ok then old(coins) + native else old(coins)
    {
      if value < native {
        return false;
      }
      var transferred := value - native;
      if transferred < flatFee || !paymentsOk {
        return false;
      }
      var surplus := transferred - flatFee;
      coins := coins + value - flatFee;
      if surplus > 0 {
        coins := coins - surplus;
      }
      return true;
    }

    /** Moves the tokens, emits the request with the stored committee and nonce, and bumps the nonce. */
    method Take(tr: Transfer, receiver: Account)
      requires Valid() && Payable(ledger, tr)
      modifies this`ledger, this`requestNonce, this`emitted, this`core
      ensures Valid() && ledger == Collect(old(ledger), tr)
      ensures core == EmitEvent(old(core), tr.dest, tr.amount, receiver)
      ensures emitted == old(emitted) + [Request(old(committeeId), tr.dest, tr.amount, receiver, old(requestNonce))]
    {
      EmitKeepsVotes(core, pendingRequests, processedRequests, tr.dest, tr.amount, receiver);
      ledger := Collect(ledger, tr);
      emitted := emitted + [Request(committeeId, tr.dest, tr.amount, receiver, requestNonce)];
      requestNonce := requestNonce + 1;
      core := EmitEvent(core, tr.dest, tr.amount, receiver);
    }

    /** `sendRequestNative`: swaps the coins and burns what the pool paid; the request asks for exactly that amount. */
    method SendRequestNative(value: nat, native: nat, receiver: Account, swap: Swap, paymentsOk: bool)
      returns (ok: bool)
      requires Valid() && (swap.Swapped? ==> swap.out >= CalcMinAmountOut(native, true))
      modifies this`ledger, this`requestNonce, this`emitted, this`core, this`coins
      ensures Valid()
      ensures !ok ==> unchanged(this)
      ensures ok <==>
                && native >= BAZERO_TO_NATIVE_RATIO && native + flatFee <= value && paymentsOk
                && swap.Swapped? && old(Dispatch(Setup(), View(), SendNative(swap.out, receiver))).Some?
                && old(requestNonce) + 1 < U256_SIZE
      ensures ok ==>
                old(Dispatch(Setup(), View(), SendNative(swap.out, receiver))) == Some(View()) && coins == old(coins)
      ensures ok <==>
                && !paused && receiver != ZERO_ADDRESS && native >= BAZERO_TO_NATIVE_RATIO
                && native + flatFee <= value && paymentsOk && old(requestNonce) + 1 < U256_SIZE
                && swap.Swapped? && Spendable(old(ledger), bazero, swap.out)
      ensures ok ==>
                && emitted == old(emitted)
                              + [Request(old(committeeId), NATIVE_MARKER, swap.out, receiver, old(requestNonce))]
                && LockedOrBurned(old(ledger), ledger, bazero, swap.out, false)
    {
      if paused || native < BAZERO_TO_NATIVE_RATIO || receiver == ZERO_ADDRESS || swap.SwapFailed? {
        return false;
      }
      var tr := Transfer(bazero, 0, swap.out, swap.out, NATIVE_MARKER, swap.out);
      LockingMoves(ledger, bazero, swap.out, false, NATIVE_MARKER);
      assert Outgoing(Setup(), supportedPairs, SendNative(swap.out, receiver)) == Some(tr);
      if !Payable(ledger, tr) || requestNonce + 1 >= U256_SIZE {
        return false;
      }
      ok := HandleFlatFee(value, native, paymentsOk);
      if ok {
        coins := coins - native;
        Take(tr, receiver);
      }
    }

    /** `sendTokenRequest`: burns the tokens; every coin sent along beyond the fee goes back. */
    method SendTokenRequest(value: nat, src: Token, amount: nat, receiver: Account, callOk: bool, paymentsOk: bool)
      returns (ok: bool)
      requires Valid()
      modifies this`ledger, this`requestNonce, this`emitted, this`core, this`coins
      ensures Valid()
      ensures !ok ==> unchanged(this)
      ensures ok <==>
                && flatFee <= value && paymentsOk && callOk && src % ADDRESS_SIZE !in isLocalToken
                && old(Dispatch(Setup(), View(), SendToken(src, amount, receiver))).Some?
                && old(requestNonce) + 1 < U256_SIZE
      ensures ok ==>
                old(Dispatch(Setup(), View(), SendToken(src, amount, receiver))) == Some(View()) && coins == old(coins)
      ensures ok <==>
                && !paused && receiver != ZERO_ADDRESS && amount > 0 && flatFee <= value && paymentsOk && callOk
                && src in supportedPairs && supportedPairs[src] != NATIVE_MARKER
                && src % ADDRESS_SIZE !in isLocalToken
                && Spendable(old(ledger), src % ADDRESS_SIZE, amount) && old(requestNonce) + 1 < U256_SIZE
      ensures ok ==>
                && emitted == old(emitted)
                              + [Request(old(committeeId), supportedPairs[src], amount, receiver, old(requestNonce))]
                && LockedOrBurned(old(ledger), ledger, src % ADDRESS_SIZE, amount, false)
    {
      if paused || amount == 0 || receiver == ZERO_ADDRESS {
        return false;
      }
      if src !in supportedPairs || supportedPairs[src] == NATIVE_MARKER || src % ADDRESS_SIZE in isLocalToken {
        return false;
      }
      var tr := Transfer(src % ADDRESS_SIZE, 0, amount, amount, supportedPairs[src], amount);
      assert Outgoing(Setup(), supportedPairs, SendToken(src, amount, receiver)) == Some(tr);
      LockingMoves(ledger, src % ADDRESS_SIZE, amount, false, supportedPairs[src]);
      if !callOk || !Payable(ledger, tr) || requestNonce + 1 >= U256_SIZE {
        return false;
      }
      ok := HandleFlatFee(value, 0, paymentsOk);
      if ok {
        Take(tr, receiver);
      }
    }

    // --- owner

    method SetCommittee(sender: Account, members: seq<Account>, threshold: nat) returns (ok: bool)
      requires Valid()
      modifies this`committeeId, this`committee, this`committeeSize, this`signatureThreshold, this`core
      ensures Valid()
      ensures ok <==> sender == owner && paused && old(committeeId) + 1 < U256_SIZE
                      && SolidityAccepts(members, threshold)
      ensures !ok ==> unchanged(this)
      ensures ok ==> core == AddRoster(old(core), members, threshold)
      ensures ok ==>
                && committeeId == old(committeeId) + 1
                && committee == old(committee) + Marks(committeeId, members)
                && committeeSize == old(committeeSize)[committeeId := |members|]
                && signatureThreshold == old(signatureThreshold)[committeeId := threshold]
    {
      if sender != owner || !paused || committeeId + 1 >= U256_SIZE {
        return false;
      }
      var verdict, marks := MarkCommittee(committee, committeeId + 1, members, threshold);
      if verdict != Accepted {
        return false;
      }
      Install(marks, members, threshold);
      return true;
    }

    /** Stores an accepted committee, whose members have been marked, under the next id. */
    method Install(marks: set<(nat, Account)>, members: seq<Account>, threshold: nat)
      requires Valid() && SolidityAccepts(members, threshold)
      requires marks == committee + Marks(committeeId + 1, members)
      modifies this`committeeId, this`committee, this`committeeSize, this`signatureThreshold, this`core
      ensures Valid() && core == AddRoster(old(core), members, threshold)
      ensures
        && committeeId == old(committeeId) + 1
        && committee == old(committee) + Marks(committeeId, members)
        && committeeSize == old(committeeSize)[committeeId := |members|]
        && signatureThreshold == old(signatureThreshold)[committeeId := threshold]
    {
      StoreNext(core.rosters, committee, committeeSize, signatureThreshold, members, threshold);
      InstallKeepsVotes(core, pendingRequests, processedRequests, members, threshold);
      committeeId := committeeId + 1;
      committee := marks;
      committeeSize := committeeSize[committeeId := |members|];
      signatureThreshold := signatureThreshold[committeeId := threshold];
      core := AddRoster(core, members, threshold);
    }

    /** `addPair`, which takes no local tokens. */
    method AddPair(sender: Account, from: Token, to: Token, isLocal: bool) returns (ok: bool)
      requires Valid()
      modifies this`supportedPairs, this`isLocalToken
      ensures Valid()
      ensures ok <==> sender == owner && paused && !isLocal
      ensures supportedPairs == if ok then old(supportedPairs)[from := to] else old(supportedPairs)
      ensures isLocalToken == if ok then old(isLocalToken) - {from % ADDRESS_SIZE} else old(isLocalToken)
    {
      if sender != owner || !paused || isLocal {
        return false;
      }
      supportedPairs := supportedPairs[from := to];
      isLocalToken := isLocalToken - {from % ADDRESS_SIZE};
      return true;
    }

    method RemovePair(sender: Account, from: Token) returns (ok: bool)
      requires Valid()
      modifies this`supportedPairs
      ensures Valid()
      ensures ok <==> sender == owner && paused
      ensures supportedPairs == if ok then old(supportedPairs) - {from} else old(supportedPairs)
    {
      ok := sender == owner && paused;
      if ok {
        supportedPairs := supportedPairs - {from};
      }
    }

    method SetLocalToken(sender: Account, token: Token, isLocal: bool) returns (ok: bool)
      requires Valid()
      modifies this`isLocalToken
      ensures Valid()
      ensures ok <==> sender == owner && paused
      ensures isLocalToken == if !ok then old(isLocalToken)
                              else if isLocal then old(isLocalToken) + {token % ADDRESS_SIZE}
                              else old(isLocalToken) - {token % ADDRESS_SIZE}
    {
      ok := sender == owner && paused;
      if ok {
        isLocalToken := if isLocal then isLocalToken + {token % ADDRESS_SIZE}
                        else isLocalToken - {token % ADDRESS_SIZE};
      }
    }

    method SetBridgedAzeroAddress(sender: Account, token: Token) returns (ok: bool)
      requires Valid()
      modifies this`bazero
      ensures Valid()
      ensures ok <==> sender == owner && paused
      ensures bazero == if ok then token else old(bazero)
    {
      ok := sender == owner && paused;
      if ok {
        bazero := token;
      }
    }

    method SetFlatFee(sender: Account, fee: nat) returns (ok: bool)
      modifies this`flatFee
      ensures ok <==> sender == owner
      ensures flatFee == if ok then fee else old(flatFee)
    {
      ok := sender == owner;
      if ok {
        flatFee := fee;
      }
    }

    /** `pause` and `unpause`: each reverts in the state that it leads to. */
    method SetPaused(sender: Account, state: bool) returns (ok: bool)
      requires Valid()
      modifies this`paused
      ensures Valid()
      ensures ok <==> sender == owner && state != old(paused)
      ensures paused == if ok then state else old(paused)
    {
      ok := sender == owner && state != paused;
      if ok {
        paused := state;
      }
    }
  }
}
