/** The ink! contract `MostL2` on Aleph Zero: the votes of `Most`, every token at home, a flat fee instead of
    rewards. */
module InkMostL2 {
  import opened Types
  import opened Collector
  import opened Committees
  import opened Treasury
  import opened Effects
  import opened InkMost

  /** Half an AZERO. */
  const DEFAULT_FLAT_FEE: nat := 500_000_000_000

  /** Coins sent along must cover the coins to bridge and the fee; the sum saturates. */
  function SaturatingAdd(x: nat, y: nat): nat {
    if x + y < U128_SIZE then x + y else U128_SIZE - 1
  }

  class MostL2 {
    const self: Account
    const owner: Account
    /** `hash_request_data`. */
    const hash: Request -> Hash

    var requestNonce: nat
    var committeeId: nat
    var halted: bool
    var pendingRequests: map<Hash, nat>
    var signatures: set<(Hash, Account)>
    var processedRequests: set<Hash>
    var committees: set<(nat, Account)>
    var committeeSizes: map<nat, nat>
    var signatureThresholds: map<nat, nat>
    var supportedPairs: map<Token, Token>
    var wazero: Option<Token>
    var flatFee: nat
    /** The token contracts on this chain. */
    var ledger: Ledger
    /** The request events of this contract in the chain's event log. */
    var emitted: seq<Request>

    /** The abstract state that the storage stands for. */
    ghost var core: Core

    ghost predicate Valid()
      reads this
    {
      && |core.rosters| > 0 && committeeId == |core.rosters| - 1
      && requestNonce == |emitted| && emitted == core.events
      && Stored(core.rosters, committees, committeeSizes, signatureThresholds)
      && (forall c | 0 <= c < |core.rosters| :: InkAccepts(core.rosters[c].members, core.rosters[c].threshold))
      && VotesStored(core, pendingRequests, signatures, processedRequests)
    }

    ghost function View(): Chain
      reads this
    {
      Chain(core, ledger, supportedPairs, halted)
    }

    ghost function Setup(): Profile
      reads this
    {
      Profile(InkL2, Scheme(hash, iset{}), {}, self, if wazero.Some? then wazero.value else ZERO_ADDRESS,
              ZERO_ADDRESS, {})
    }

    constructor (committee: seq<Account>, threshold: nat, owner: Account, self: Account, hash: Request -> Hash,
                 ledger: Ledger)
      requires InkAccepts(committee, threshold)
      ensures Valid() && Fresh(core) && core.rosters == [Roster(committee, threshold)]
      ensures halted && supportedPairs == map[] && wazero == None && flatFee == DEFAULT_FLAT_FEE && emitted == []
      ensures this.ledger == ledger && this.hash == hash && this.owner == owner && this.self == self && committeeId == 0
    {
      this.self, this.owner, this.hash := self, owner, hash;
      this.requestNonce, this.committeeId, this.halted := 0, 0, true;
      this.pendingRequests, this.signatures, this.processedRequests := map[], {}, {};
      this.committees := Marks(0, committee);
      this.committeeSizes, this.signatureThresholds := map[0 := |committee|], map[0 := threshold];
      this.supportedPairs, this.wazero, this.flatFee := map[], None, DEFAULT_FLAT_FEE;
      this.ledger, this.emitted := ledger, [];
      this.core := Core([Roster(committee, threshold)], map[], {}, [], []);
    }

    // --- receiving

    ghost function Payment(request: Request, callOk: bool): Option<Ledger>
      reads this
    {
      if callOk && (request.token == NATIVE_MARKER ==> wazero.Some?)
      then Pay(Setup(), ledger, Incoming(Setup(), request.token, request.amount), request.receiver == self, Delivered)
      else None
    }

    /** Unwraps AZERO or releases a token. */
    method PayOut(request: Request, callOk: bool) returns (r: Option<Ledger>)
      ensures r == Payment(request, callOk)
    {
      var q := request.amount;
      if !callOk || (request.token == NATIVE_MARKER && wazero.None?) {
        return None;
      }
      var t := if request.token == NATIVE_MARKER then wazero.value else request.token;
      if q > Held(ledger, t) || (request.token == NATIVE_MARKER && q > Supply(ledger, t)) {
        return None;
      }
      if request.token == NATIVE_MARKER {
        return Some(Update(ledger, t, Supply(ledger, t) - q, Held(ledger, t) - q));
      }
      return Some(Update(ledger, t, Supply(ledger, t), Held(ledger, t) - if request.receiver == self then 0 else q));
    }

    /** The stored count plus one is the number of distinct signers including the caller. */
    method NextCount(caller: Account, requestHash: Hash, request: Request) returns (count: nat)
      requires Valid() && NeedsSignature(core, requestHash, caller, request.committee)
      ensures count == |Signers(core, requestHash) + {caller}| == |Signers(core, requestHash)| + 1
    {
      StoreVote(core, pendingRequests, signatures, processedRequests, requestHash, request, caller);
      count := Count(pendingRequests, requestHash) + 1;
      assert caller !in Signers(core, requestHash);
    }

    /** Writes one more signature; the entry of an executed request goes away. */
    method Record(caller: Account, requestHash: Hash, request: Request, count: nat)
      requires Valid() && NeedsSignature(core, requestHash, caller, request.committee)
      requires count == |Signers(core, requestHash) + {caller}|
      modifies this`pendingRequests, this`signatures, this`processedRequests, this`core
      ensures Valid() && core == Cast(old(core), requestHash, request, caller)
    {
      StoreVote(core, pendingRequests, signatures, processedRequests, requestHash, request, caller);
      signatures := signatures + {(requestHash, caller)};
      if count >= signatureThresholds[request.committee] {
        processedRequests := processedRequests + {requestHash};
        pendingRequests := pendingRequests - {requestHash};
      } else {
        pendingRequests := pendingRequests[requestHash := count];
      }
      core := Cast(core, requestHash, request, caller);
    }

    method CountVote(caller: Account, requestHash: Hash, request: Request, callOk: bool) returns (res: Outcome)
      requires Valid() && NeedsSignature(core, requestHash, caller, request.committee)
      modifies this`pendingRequests, this`signatures, this`processedRequests, this`core, this`ledger
      ensures Valid()
      ensures res.Ok? <==> |Signers(old(core), requestHash)| + 1 < U128_SIZE
                           && (ReachesQuorum(old(core), requestHash, request, caller) ==>
                                 old(Payment(request, callOk)).Some?)
      ensures res.Ok? ==>
                && core == Cast(old(core), requestHash, request, caller)
                && Some(ledger) == if ReachesQuorum(old(core), requestHash, request, caller)
                                   then old(Payment(request, callOk)) else Some(old(ledger))
      ensures res.Err? ==> unchanged(this)
    {
      var count := NextCount(caller, requestHash, request);
      if count >= U128_SIZE {
        return Err(Arithmetic);
      }
      if count >= signatureThresholds[request.committee] {
        var settled := PayOut(request, callOk);
        if settled.None? {
          return Err(CallFailed);
        }
        Record(caller, requestHash, request, count);
        ledger := settled.value;
      } else {
        Record(caller, requestHash, request, count);
      }
      return Ok;
    }

    /** The checks before a vote is counted: `None` when the vote is needed and its hash matches its data. */
    method Screen(caller: Account, requestHash: Hash, request: Request) returns (early: Option<Outcome>)
      requires Valid()
      ensures early.None? <==> !halted && Accepts(hash, core, requestHash, request, caller)
      ensures early == Some(Ok) <==> !halted && InCommittee(core, request.committee, caller)
                                     && !NeedsSignature(core, requestHash, caller, request.committee)
      ensures early == Some(Err(NotInCommittee)) <==> !halted && !InCommittee(core, request.committee, caller)
      ensures early == Some(Err(IsHalted)) <==> halted
      ensures early == Some(Err(HashDoesNotMatchData)) <==>
                !halted && NeedsSignature(core, requestHash, caller, request.committee) && requestHash != hash(request)
    {
      if halted {
        return Some(Err(IsHalted));
      }
      if (request.committee, caller) !in committees {
        return Some(Err(NotInCommittee));
      }
      if requestHash in processedRequests || (requestHash, caller) in signatures {
        return Some(Ok);
      }
      if requestHash != hash(request) {
        return Some(Err(HashDoesNotMatchData));
      }
      return None;
    }

    ghost predicate ReceiveSucceeds(caller: Account, requestHash: Hash, request: Request, callOk: bool)
      reads this
    {
      && !halted && InCommittee(core, request.committee, caller)
      && (NeedsSignature(core, requestHash, caller, request.committee) ==>
            && requestHash == hash(request)
            && |Signers(core, requestHash)| + 1 < U128_SIZE
            && (ReachesQuorum(core, requestHash, request, caller) ==> Payment(request, callOk).Some?))
    }

    /** A needed vote has exactly the effect of the abstract machine; every other successful call changes nothing. */
    method ReceiveRequest(caller: Account, requestHash: Hash, request: Request, callOk: bool) returns (res: Outcome)
      requires Valid()
      modifies this`pendingRequests, this`signatures, this`processedRequests, this`core, this`ledger
      ensures Valid()
      ensures res.Ok? <==> old(ReceiveSucceeds(caller, requestHash, request, callOk))
      ensures res.Err? || !old(NeedsSignature(core, requestHash, caller, request.committee)) ==> unchanged(this)
      ensures res.Ok? && old(NeedsSignature(core, requestHash, caller, request.committee)) ==>
                old(Submit(Setup(), View(), caller, requestHash, request, Delivered)) == Some(View())
    {
      var early := Screen(caller, requestHash, request);
      if early.Some? {
        return early.value;
      }
      res := CountVote(caller, requestHash, request, callOk);
    }

    // --- sending

    /** `_send_request`: moves the tokens and emits the request with the stored committee and nonce. */
    method SendRequestInternal(tr: Transfer, receiver: Account, callOk: bool) returns (res: Outcome)
      requires Valid()
      modifies this`requestNonce, this`emitted, this`core, this`ledger
      ensures Valid()
      ensures res.Err? ==> unchanged(this)
      ensures res.Ok? <==> receiver != ZERO_ADDRESS && tr.amount != 0 && callOk && Payable(old(ledger), tr)
                           && old(requestNonce) + 1 < U128_SIZE
      ensures res.Ok? ==>
                core == EmitEvent(old(core), tr.dest, tr.amount, receiver) && ledger == Collect(old(ledger), tr)
      ensures res.Ok? ==>
                emitted == old(emitted) + [Request(old(committeeId), tr.dest, tr.amount, receiver, old(requestNonce))]
    {
      if receiver == ZERO_ADDRESS {
        return Err(ZeroAddressError);
      }
      if tr.amount == 0 {
        return Err(ZeroTransferAmount);
      }
      if !callOk || !Payable(ledger, tr) {
        return Err(CallFailed);
      }
      if requestNonce + 1 >= U128_SIZE {
        return Err(Arithmetic);
      }
      EmitKeepsVotes(core, pendingRequests, signatures, processedRequests, tr.dest, tr.amount, receiver);
      emitted := emitted + [Request(committeeId, tr.dest, tr.amount, receiver, requestNonce)];
      requestNonce := requestNonce + 1;
      core := EmitEvent(core, tr.dest, tr.amount, receiver);
      ledger := Collect(ledger, tr);
      return Ok;
    }

    method SendRequest(src: Token, amount: nat, receiver: Account, value: nat, callOk: bool) returns (res: Outcome)
      requires Valid()
      modifies this`requestNonce, this`emitted, this`core, this`ledger
      ensures Valid()
      ensures res.Err? ==> unchanged(this)
      ensures res.Ok? <==> callOk && SaturatingAdd(0, flatFee) <= value && old(requestNonce) + 1 < U128_SIZE
                           && old(Dispatch(Setup(), View(), SendToken(src, amount, receiver))).Some?
      ensures res.Ok? ==> old(Dispatch(Setup(), View(), SendToken(src, amount, receiver))) == Some(View())
      ensures res.Ok? <==>
                && callOk && !halted && receiver != ZERO_ADDRESS && amount > 0 && src in supportedPairs
                && (flatFee <= value || value >= U128_SIZE - 1)
                && Spendable(old(ledger), src, amount) && old(requestNonce) + 1 < U128_SIZE
      ensures res.Ok? ==>
                && emitted == old(emitted)
                              + [Request(old(committeeId), supportedPairs[src], amount, receiver, old(requestNonce))]
                && LockedOrBurned(old(ledger), ledger, src, amount, true)
    {
      if halted {
        return Err(IsHalted);
      }
      if value < SaturatingAdd(0, flatFee) {
        return Err(ValueTransferredLowerThanAmount);
      }
      if src !in supportedPairs {
        return Err(UnsupportedPair);
      }
      LockingMoves(ledger, src, amount, true, supportedPairs[src]);
      res := SendRequestInternal(Transfer(src, 0, amount, 0, supportedPairs[src], amount), receiver, callOk);
    }

    method SendRequestNativeAzero(amount: nat, receiver: Account, value: nat, callOk: bool) returns (res: Outcome)
      requires Valid()
      modifies this`requestNonce, this`emitted, this`core, this`ledger
      ensures Valid()
      ensures res.Err? ==> unchanged(this)
      ensures res.Ok? <==> callOk && SaturatingAdd(amount, flatFee) <= value && wazero.Some?
                           && old(requestNonce) + 1 < U128_SIZE
                           && old(Dispatch(Setup(), View(), SendNative(amount, receiver))).Some?
      ensures res.Ok? ==> old(Dispatch(Setup(), View(), SendNative(amount, receiver))) == Some(View())
      ensures res.Ok? <==>
                && callOk && !halted && receiver != ZERO_ADDRESS && amount > 0 && wazero.Some?
                && (amount + flatFee <= value || value >= U128_SIZE - 1)
                && Spendable(old(ledger), wazero.value, 0) && old(requestNonce) + 1 < U128_SIZE
      ensures res.Ok? ==>
                && emitted == old(emitted)
                              + [Request(old(committeeId), NATIVE_MARKER, amount, receiver, old(requestNonce))]
                && Shifted(old(ledger), ledger, wazero.value, amount, amount)
    {
      if halted {
        return Err(IsHalted);
      }
      if value < SaturatingAdd(amount, flatFee) {
        return Err(ValueTransferredLowerThanAmount);
      }
      if wazero.None? {
        return Err(WrappedAzeroNotSet);
      }
      DepositMoves(ledger, wazero.value, amount, NATIVE_MARKER, amount);
      res := SendRequestInternal(Transfer(wazero.value, amount, 0, 0, NATIVE_MARKER, amount), receiver, callOk);
    }

    // --- owner

    /** Installs a new committee under the next id, leaving the old ones in storage.  The id is a wrapping 128-bit
        sum. */
    method SetCommittee(caller: Account, committee: seq<Account>, threshold: nat) returns (res: Outcome)
      requires Valid()
      modifies this`committeeId, this`committees, this`committeeSizes, this`signatureThresholds, this`core
      ensures res.Ok? <==> caller == owner && halted && InkAccepts(committee, threshold)
      ensures res.Err? ==> unchanged(this)
      ensures res.Ok? ==>
                && committeeId == (old(committeeId) + 1) % U128_SIZE
                && committees == old(committees) + Marks(committeeId, committee)
                && core == AddRoster(old(core), committee, threshold)
      ensures res.Err? || old(committeeId) + 1 < U128_SIZE ==> Valid()
      ensures res.Ok? ==>
                && committeeSizes == old(committeeSizes)[committeeId := |committee|]
                && signatureThresholds == old(signatureThresholds)[committeeId := threshold]
    {
      if caller != owner {
        return Err(NotOwner);
      }
      if !halted {
        return Err(HaltRequired);
      }
      var verdict := CheckCommittee(committee, threshold);
      if verdict == InvalidThreshold {
        return Err(InvalidThresholdError);
      }
      if verdict != Accepted {
        return Err(DuplicateCommitteeMember);
      }
      Install(committee, threshold);
      return Ok;
    }

    method Install(committee: seq<Account>, threshold: nat)
      requires Valid() && InkAccepts(committee, threshold)
      modifies this`committeeId, this`committees, this`committeeSizes, this`signatureThresholds, this`core
      ensures committeeId == (old(committeeId) + 1) % U128_SIZE
      ensures committees == old(committees) + Marks(committeeId, committee)
      ensures core == AddRoster(old(core), committee, threshold)
      ensures old(committeeId) + 1 < U128_SIZE ==> Valid()
      ensures committeeSizes == old(committeeSizes)[committeeId := |committee|]
      ensures signatureThresholds == old(signatureThresholds)[committeeId := threshold]
    {
      StoreNext(core.rosters, committees, committeeSizes, signatureThresholds, committee, threshold);
      InstallKeepsVotes(core, pendingRequests, signatures, processedRequests, committee, threshold);
      var id := (committeeId + 1) % U128_SIZE;
      committeeSizes := committeeSizes[id := |committee|];
      committees := committees + Marks(id, committee);
      committeeId := id;
      signatureThresholds := signatureThresholds[id := threshold];
      core := AddRoster(core, committee, threshold);
    }

    /** `add_pair`, or `remove_pair` when there is no destination. */
    method SetPair(caller: Account, from: Token, dest: Option<Token>) returns (res: Outcome)
      requires Valid()
      modifies this`supportedPairs
      ensures Valid()
      ensures res.Ok? <==> caller == owner && halted
      ensures supportedPairs == if res.Err? then old(supportedPairs)
                                else if dest.Some? then old(supportedPairs)[from := dest.value]
                                else old(supportedPairs) - {from}
    {
      if caller != owner {
        return Err(NotOwner);
      }
      if !halted {
        return Err(HaltRequired);
      }
      supportedPairs := if dest.Some? then supportedPairs[from := dest.value] else supportedPairs - {from};
      return Ok;
    }

    method SetWazero(caller: Account, token: Token) returns (res: Outcome)
      requires Valid()
      modifies this`wazero
      ensures Valid()
      ensures res.Ok? <==> caller == owner && halted
      ensures wazero == if res.Ok? then Some(token) else old(wazero)
    {
      if caller != owner {
        return Err(NotOwner);
      }
      if !halted {
        return Err(HaltRequired);
      }
      wazero := Some(token);
      return Ok;
    }

    method SetFlatFee(caller: Account, fee: nat) returns (res: Outcome)
      modifies this`flatFee
      ensures res.Ok? <==> caller == owner
      ensures flatFee == if res.Ok? then fee else old(flatFee)
    {
      if caller != owner {
        return Err(NotOwner);
      }
      flatFee := fee;
      return Ok;
    }

    method SetHalted(caller: Account, state: bool) returns (res: Outcome)
      requires Valid()
      modifies this`halted
      ensures Valid()
      ensures res.Ok? <==> caller == owner
      ensures halted == if res.Ok? then state else old(halted)
    {
      if caller != owner {
        return Err(NotOwner);
      }
      halted := state;
      return Ok;
    }

    method NeedsSignatureOf(requestHash: Hash, account: Account, committee: nat) returns (needed: bool)
      requires Valid()
      ensures needed <==> NeedsSignature(core, requestHash, account, committee)
    {
      needed := (committee, account) in committees && requestHash !in processedRequests
                && (requestHash, account) !in signatures;
    }
  }
}
