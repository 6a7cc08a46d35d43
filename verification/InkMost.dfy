/** The ink! contract `Most` on Aleph Zero: votes are counted in a pending map and recorded in a signature map, the
    pending entry is removed when the request is executed. */
module InkMost {
  import opened Types
  import opened Collector
  import opened Committees
  import opened Treasury
  import opened Effects
  import opened Rewards
  import opened Fees

  datatype MostError =
    | InvalidThresholdError | DuplicateCommitteeMember | ZeroTransferAmount | NotInCommittee | HashDoesNotMatchData
    | CallFailed | NotOwner | UnsupportedPair | BaseFeeTooLow | Arithmetic | IsHalted | HaltRequired
    | NoMintPermission | ZeroAddressError | WrappedEthNotSet | WrappedAzeroNotSet | ValueTransferredLowerThanAmount

  datatype Outcome = Ok | Err(error: MostError)

  datatype RequestStatus = Pending(collected: nat) | Processed | RequestHashNotKnown

  // --- vote storage

  /** The three vote maps describe the ballots: a pending count is the number of distinct signers, and only
      requests that have not been executed have one. */
  ghost predicate VotesStored(core: Core, pending: map<Hash, nat>, signatures: set<(Hash, Account)>,
                              processed: set<Hash>)
  {
    && processed == core.executed
    && (forall h: Hash, a: Account {:trigger (h, a) in signatures} :: (h, a) in signatures <==> a in Signers(core, h))
    && (forall h: Hash {:trigger h in pending} :: h in pending <==> h in core.ballots && h !in core.executed)
    && (forall h: Hash {:trigger pending[h]} | h in pending :: pending[h] == |Signers(core, h)|)
    && (forall h: Hash | h in core.executed :: h in core.ballots)
  }

  function Count(pending: map<Hash, nat>, h: Hash): nat { if h in pending then pending[h] else 0 }

  /** Recording one more signature, and dropping the pending entry when the quorum is reached, is one abstract vote. */
  lemma StoreVote(core: Core, pending: map<Hash, nat>, signatures: set<(Hash, Account)>, processed: set<Hash>,
                  h: Hash, r: Request, who: Account)
    requires VotesStored(core, pending, signatures, processed)
    requires r.committee < |core.rosters| && NeedsSignature(core, h, who, r.committee)
    ensures Count(pending, h) + 1 == |Signers(core, h) + {who}|
    ensures var core' := Cast(core, h, r, who);
            if ReachesQuorum(core, h, r, who)
            then VotesStored(core', pending - {h}, signatures + {(h, who)}, processed + {h})
            else VotesStored(core', pending[h := Count(pending, h) + 1], signatures + {(h, who)}, processed)
  {
    assert |Signers(core, h) + {who}| == |Signers(core, h)| + 1;
  }

  // --- accounts

  function MembersOf(rosters: seq<Roster>): (members: seq<seq<Account>>)
    ensures |members| == |rosters| && forall c | 0 <= c < |rosters| :: members[c] == rosters[c].members
  {
    seq(|rosters|, c requires 0 <= c < |rosters| => rosters[c].members)
  }

  /** An executed request keeps the accounts sound, whatever the oracle said and whether or not the transfers
      succeed. */
  lemma ExecutionKeepsSound(b: Book, gift: nat, price: Option<nat>, gasUsage: nat, maximum: nat, toSelf: bool, ok: bool)
    requires Sound(b)
    ensures var p := b.purse.(balance := b.purse.balance + gift);
            Sound(b.(purse := GivePocketMoney(p, PocketMoneyValue(p, price, gasUsage, maximum), toSelf, ok)))
  {
    GiftKeeps(b, gift);
    var p := b.purse.(balance := b.purse.balance + gift);
    PocketMoneyKeeps(b.(purse := p), PocketMoneyValue(p, price, gasUsage, maximum), toSelf, ok);
  }

  lemma RotationKeepsSound(purse: Purse, core: Core, committee: seq<Account>, threshold: nat)
    ensures Sound(Book(purse, MembersOf(core.rosters))) && Distinct(committee) ==>
              Sound(Book(purse, MembersOf(AddRoster(core, committee, threshold).rosters)))
  {
    var b := Book(purse, MembersOf(core.rosters));
    if Sound(b) && Distinct(committee) {
      RotateKeeps(b, committee);
      assert MembersOf(AddRoster(core, committee, threshold).rosters) == MembersOf(core.rosters) + [committee];
    }
  }

  class Most {
    const self: Account
    const owner: Account
    /** `hash_request_data`. */
    const hash: Request -> Hash

    var requestNonce: nat
    var committeeId: nat
    var halted: bool
    var pendingRequests: map<Hash, nat>
    var signatures: set<(Hash, Account)>
    var processedRequests: set<Hash>
    var committees: set<(nat, Account)>
    var committeeSizes: map<nat, nat>
    var signatureThresholds: map<nat, nat>
    var supportedPairs: map<Token, Token>
    var localToken: set<Token>
    var weth: Option<Token>
    var wazero: Option<Token>
    var payoutAccounts: map<Account, Account>
    var gas: GasConfig
    var maxPocketMoney: nat
    var ethTransferGasUsage: nat
    /** Balance, pocket money, collected and paid-out rewards. */
    var purse: Purse
    /** The token contracts on this chain. */
    var ledger: Ledger
    /** The request events of this contract in the chain's event log. */
    var emitted: seq<Request>

    /** The abstract state that the storage stands for. */
    ghost var core: Core

    ghost predicate Valid()
      reads this
    {
      && |core.rosters| > 0 && committeeId == |core.rosters| - 1
      && requestNonce == |emitted| && emitted == core.events
      && Stored(core.rosters, committees, committeeSizes, signatureThresholds)
      && (forall c | 0 <= c < |core.rosters| :: InkAccepts(core.rosters[c].members, core.rosters[c].threshold))
      && VotesStored(core, pendingRequests, signatures, processedRequests)
    }

    ghost function View(): Chain
      reads this
    {
      Chain(core, ledger, supportedPairs, halted)
    }

    ghost function Setup(): Profile
      reads this
    {
      Profile(InkL1, Scheme(hash, iset{}), {}, self,
                       if wazero.Some? then wazero.value else ZERO_ADDRESS,
                       if weth.Some? then weth.value else ZERO_ADDRESS, localToken)
    }

    /** Coins and committees; `Sound(Accounts())` is kept by every message. */
    ghost function Accounts(): Book
      reads this
    {
      Book(purse, MembersOf(core.rosters))
    }

    /** The fee is computed without error and covered by `offered`, and no counter overflows. */
    ghost predicate FeeCovered(offered: nat, answer: Answer, now: nat)
      reads this
    {
      && BaseFee(gas, answer, now).Some? && BaseFee(gas, answer, now).value <= offered
      && Collected(purse, committeeId) + BaseFee(gas, answer, now).value < U128_SIZE
      && requestNonce + 1 < U128_SIZE
    }

    constructor (committee: seq<Account>, threshold: nat, owner: Account, self: Account, hash: Request -> Hash,
                 gas: GasConfig, maxPocketMoney: nat, ethTransferGasUsage: nat, ledger: Ledger)
      requires InkAccepts(committee, threshold)
      ensures Valid() && Fresh(core) && core.rosters == [Roster(committee, threshold)]
      ensures halted && supportedPairs == map[] && purse.balance == 0 && this.ledger == ledger && this.hash == hash
      ensures Sound(Accounts())
      ensures this.owner == owner && this.self == self && committeeId == 0 && emitted == []
      ensures localToken == {} && weth == None && wazero == None && payoutAccounts == map[]
      ensures this.gas == gas && this.maxPocketMoney == maxPocketMoney
              && this.ethTransferGasUsage == ethTransferGasUsage
    {
      this.self, this.owner, this.hash := self, owner, hash;
      this.requestNonce, this.committeeId, this.halted := 0, 0, true;
      this.pendingRequests, this.signatures, this.processedRequests := map[], {}, {};
      this.committees := Marks(0, committee);
      this.committeeSizes, this.signatureThresholds := map[0 := |committee|], map[0 := threshold];
      this.supportedPairs, this.localToken, this.weth, this.wazero := map[], {}, None, None;
      this.payoutAccounts, this.gas := map[], gas;
      this.maxPocketMoney, this.ethTransferGasUsage := maxPocketMoney, ethTransferGasUsage;
      this.purse := Purse(0, 0, map[], map[]);
      this.ledger := ledger;
      this.emitted := [];
      this.core := Core([Roster(committee, threshold)], map[], {}, [], []);
      new;
      EqualShares(purse, 0, committee, 0);
    }

    // --- receiving

    /** Pays an executed request out of the bridge: unwraps AZERO, releases a local token or mints a wrapped one.
        `callOk`: the called contract did not fail. */
    method PayOut(request: Request, callOk: bool) returns (r: Option<Ledger>, e: MostError)
      ensures r == Payment(request, callOk)
    {
      e := CallFailed;
      var toSelf := request.receiver == self;
      var t := request.token;
      if t == NATIVE_MARKER {
        var qty := request.amount / RATIO;
        if wazero.None? {
          return None, WrappedAzeroNotSet;
        }
        var w := wazero.value;
        if callOk && qty <= Held(ledger, w) && qty <= Supply(ledger, w) {
          r := Some(Update(ledger, w, Supply(ledger, w) - qty, Held(ledger, w) - qty));
        } else {
          r := None;
        }
      } else if t in localToken {
        if callOk && request.amount <= Held(ledger, t) {
          r := Some(Update(ledger, t, Supply(ledger, t), Held(ledger, t) - if toSelf then 0 else request.amount));
        } else {
          r := None;
        }
      } else {
        if callOk {
          r := Some(Update(ledger, t, Supply(ledger, t) + request.amount,
                           Held(ledger, t) + if toSelf then request.amount else 0));
        } else {
          r := None;
        }
      }
    }

    /** The purse after an executed request: AZERO unwrapped to the bridge itself stays in it, then the receiver gets
        pocket money if the oracle gave a price and the transfer succeeds. */
    ghost function PurseAfter(request: Request, price: Option<nat>, coinOk: bool): Purse
      reads this
    {
      var toSelf := request.receiver == self;
      var p := if toSelf && request.token == NATIVE_MARKER
               then purse.(balance := purse.balance + request.amount / RATIO) else purse;
      GivePocketMoney(p, PocketMoneyValue(p, price, ethTransferGasUsage, maxPocketMoney), toSelf, coinOk)
    }

    lemma PurseAfterSound(request: Request, price: Option<nat>, coinOk: bool)
      requires Sound(Accounts())
      ensures Sound(Accounts().(purse := PurseAfter(request, price, coinOk)))
    {
      var toSelf := request.receiver == self;
      var gift := if toSelf && request.token == NATIVE_MARKER then request.amount / RATIO else 0;
      ExecutionKeepsSound(Accounts(), gift, price, ethTransferGasUsage, maxPocketMoney, toSelf, coinOk);
      assert purse.(balance := purse.balance + 0) == purse;
    }

    method PocketMoney(request: Request, price: Option<nat>, coinOk: bool) returns (p: Purse)
      ensures p == PurseAfter(request, price, coinOk)
      ensures Sound(Accounts()) ==> Sound(Accounts().(purse := p))
      ensures var gift := if request.receiver != self || request.token != NATIVE_MARKER then 0
                          else request.amount / RATIO;
              var value := PocketMoneyValue(purse, price, ethTransferGasUsage, maxPocketMoney);
              var given := if coinOk && value <= purse.balance + gift then value else 0;
              && p.balance == purse.balance + gift - (if request.receiver == self then 0 else given)
              && p.pocket == purse.pocket - given && p.collected == purse.collected && p.paid == purse.paid
    {
      if Sound(Accounts()) {
        PurseAfterSound(request, price, coinOk);
      }
      var toSelf := request.receiver == self;
      p := purse;
      if toSelf && request.token == NATIVE_MARKER {
        p := p.(balance := p.balance + request.amount / RATIO);
      }
      var value := PocketMoneyValue(p, price, ethTransferGasUsage, maxPocketMoney);
      if value != 0 && value <= p.pocket && coinOk && value <= p.balance {
        p := p.(balance := if toSelf then p.balance else p.balance - value, pocket := p.pocket - value);
      }
    }

    ghost function Payment(request: Request, callOk: bool): Option<Ledger>
      reads this
    {
      if callOk && (request.token == NATIVE_MARKER ==> wazero.Some?)
      then Pay(Setup(), ledger, Incoming(Setup(), request.token, request.amount), request.receiver == self, Delivered)
      else None
    }

    /** The stored count plus one is the number of distinct signers including the caller. */
    method NextCount(caller: Account, requestHash: Hash, request: Request) returns (count: nat)
      requires Valid() && NeedsSignature(core, requestHash, caller, request.committee)
      ensures count == |Signers(core, requestHash) + {caller}| == |Signers(core, requestHash)| + 1
    {
      StoreVote(core, pendingRequests, signatures, processedRequests, requestHash, request, caller);
      count := Count(pendingRequests, requestHash) + 1;
      assert caller !in Signers(core, requestHash);
    }

    method RecordVote(caller: Account, requestHash: Hash, request: Request, count: nat)
      requires Valid() && NeedsSignature(core, requestHash, caller, request.committee)
      requires count == |Signers(core, requestHash) + {caller}| && !ReachesQuorum(core, requestHash, request, caller)
      modifies this`pendingRequests, this`signatures, this`core
      ensures Valid() && core == Cast(old(core), requestHash, request, caller)
    {
      StoreVote(core, pendingRequests, signatures, processedRequests, requestHash, request, caller);
      pendingRequests := pendingRequests[requestHash := count];
      signatures := signatures + {(requestHash, caller)};
      core := Cast(core, requestHash, request, caller);
    }

    method RecordExecution(caller: Account, requestHash: Hash, request: Request)
      requires Valid() && NeedsSignature(core, requestHash, caller, request.committee)
      requires ReachesQuorum(core, requestHash, request, caller)
      modifies this`pendingRequests, this`signatures, this`processedRequests, this`core
      ensures Valid() && core == Cast(old(core), requestHash, request, caller)
    {
      StoreVote(core, pendingRequests, signatures, processedRequests, requestHash, request, caller);
      processedRequests := processedRequests + {requestHash};
      pendingRequests := pendingRequests - {requestHash};
      signatures := signatures + {(requestHash, caller)};
      core := Cast(core, requestHash, request, caller);
    }

    /** The vote that reaches the quorum: pays out, sends pocket money and marks the request as processed. */
    method Execute(caller: Account, requestHash: Hash, request: Request, callOk: bool, price: Option<nat>, coinOk: bool)
      returns (res: Outcome)
      requires Valid() && NeedsSignature(core, requestHash, caller, request.committee)
      requires ReachesQuorum(core, requestHash, request, caller)
      modifies this`pendingRequests, this`signatures, this`processedRequests, this`core, this`purse, this`ledger
      ensures Valid() && (old(Sound(Accounts())) ==> Sound(Accounts()))
      ensures res.Ok? <==> old(Payment(request, callOk)).Some?
      ensures res.Ok? ==>
                && core == Cast(old(core), requestHash, request, caller)
                && Some(ledger) == old(Payment(request, callOk)) && purse == old(PurseAfter(request, price, coinOk))
      ensures res.Err? ==> unchanged(this)
    {
      var settled, e := PayOut(request, callOk);
      if settled.None? {
        return Err(e);
      }
      var coins := PocketMoney(request, price, coinOk);
      RecordExecution(caller, requestHash, request);
      purse, ledger := coins, settled.value;
      return Ok;
    }

    /** A needed vote whose hash matches its data. */
    method CountVote(caller: Account, requestHash: Hash, request: Request, callOk: bool, price: Option<nat>,
                     coinOk: bool)
      returns (res: Outcome)
      requires Valid() && NeedsSignature(core, requestHash, caller, request.committee)
      modifies this`pendingRequests, this`signatures, this`processedRequests, this`core, this`purse, this`ledger
      ensures Valid() && (old(Sound(Accounts())) ==> Sound(Accounts()))
      ensures res.Ok? <==> |Signers(old(core), requestHash)| + 1 < U128_SIZE
                           && (ReachesQuorum(old(core), requestHash, request, caller) ==>
                                 old(Payment(request, callOk)).Some?)
      ensures res.Ok? ==>
                && core == Cast(old(core), requestHash, request, caller)
                && if ReachesQuorum(old(core), requestHash, request, caller)
                   then Some(ledger) == old(Payment(request, callOk))
                        && purse == old(PurseAfter(request, price, coinOk))
                   else ledger == old(ledger) && purse == old(purse)
      ensures res.Err? ==> unchanged(this)
    {
      var count := NextCount(caller, requestHash, request);
      if count >= U128_SIZE {
        return Err(Arithmetic);
      }
      if count >= signatureThresholds[request.committee] {
        res := Execute(caller, requestHash, request, callOk, price, coinOk);
      } else {
        RecordVote(caller, requestHash, request, count);
        res := Ok;
      }
    }

    /** The checks before a vote is counted: `None` when the vote is needed and its hash matches its data. */
    method Screen(caller: Account, requestHash: Hash, request: Request) returns (early: Option<Outcome>)
      requires Valid()
      ensures early.None? <==> !halted && Accepts(hash, core, requestHash, request, caller)
      ensures early == Some(Ok) <==> !halted && InCommittee(core, request.committee, caller)
                                     && !NeedsSignature(core, requestHash, caller, request.committee)
      ensures early == Some(Err(NotInCommittee)) <==> !halted && !InCommittee(core, request.committee, caller)
      ensures early == Some(Err(IsHalted)) <==> halted
      ensures early == Some(Err(HashDoesNotMatchData)) <==>
                !halted && NeedsSignature(core, requestHash, caller, request.committee) && requestHash != hash(request)
    {
      if halted {
        return Some(Err(IsHalted));
      }
      if (request.committee, caller) !in committees {
        return Some(Err(NotInCommittee));
      }
      if requestHash in processedRequests {
        return Some(Ok);
      }
      if (requestHash, caller) in signatures {
        return Some(Ok);
      }
      if requestHash != hash(request) {
        return Some(Err(HashDoesNotMatchData));
      }
      return None;
    }

    /** `receive_request` succeeds exactly when this holds. */
    ghost predicate ReceiveSucceeds(caller: Account, requestHash: Hash, request: Request, callOk: bool)
      reads this
    {
      && !halted && InCommittee(core, request.committee, caller)
      && (NeedsSignature(core, requestHash, caller, request.committee) ==>
            && requestHash == hash(request)
            && |Signers(core, requestHash)| + 1 < U128_SIZE
            && (ReachesQuorum(core, requestHash, request, caller) ==> Payment(request, callOk).Some?))
    }

    /** Votes for a request and executes it when the committee's threshold is reached.  A needed vote has exactly the
        effect of the abstract machine, and pays out when the quorum is reached; every other successful call changes
        nothing. */
    method ReceiveRequest(caller: Account, requestHash: Hash, request: Request, callOk: bool, price: Option<nat>,
                          coinOk: bool)
      returns (res: Outcome)
      requires Valid()
      modifies this`pendingRequests, this`signatures, this`processedRequests, this`core, this`purse, this`ledger
      ensures Valid() && (old(Sound(Accounts())) ==> Sound(Accounts()))
      ensures res.Ok? <==> old(ReceiveSucceeds(caller, requestHash, request, callOk))
      ensures res.Err? || !old(NeedsSignature(core, requestHash, caller, request.committee)) ==> unchanged(this)
      ensures res.Ok? && old(NeedsSignature(core, requestHash, caller, request.committee)) ==>
                && old(Submit(Setup(), View(), caller, requestHash, request, Delivered)) == Some(View())
                && Setup() == old(Setup())
                && purse == old(if ReachesQuorum(core, requestHash, request, caller)
                                then PurseAfter(request, price, coinOk) else purse)
    {
      var early := Screen(caller, requestHash, request);
      if early.Some? {
        return early.value;
      }
      res := CountVote(caller, requestHash, request, callOk, price, coinOk);
    }

    // --- sending

    /** Emits the request with the stored committee and nonce, and takes the next nonce. */
    method EmitRequest(dest: Token, amount: nat, receiver: Account)
      requires Valid()
      modifies this`requestNonce, this`emitted, this`core
      ensures Valid() && core == EmitEvent(old(core), dest, amount, receiver)
      ensures emitted == old(emitted) + [Request(old(committeeId), dest, amount, receiver, old(requestNonce))]
    {
      EmitKeepsVotes(core, pendingRequests, signatures, processedRequests, dest, amount, receiver);
      emitted := emitted + [Request(committeeId, dest, amount, receiver, requestNonce)];
      requestNonce := requestNonce + 1;
      core := EmitEvent(core, dest, amount, receiver);
    }

    /** Moves the tokens, keeps the fee and emits the request. */
    method Take(tr: Transfer, receiver: Account, fee: nat)
      requires Valid() && Payable(ledger, tr)
      modifies this`requestNonce, this`emitted, this`core, this`ledger, this`purse
      ensures Valid() && (old(Sound(Accounts())) ==> Sound(Accounts()))
      ensures core == EmitEvent(old(core), tr.dest, tr.amount, receiver) && ledger == Collect(old(ledger), tr)
      ensures purse == Charge(old(purse), committeeId, fee)
      ensures emitted == old(emitted) + [Request(old(committeeId), tr.dest, tr.amount, receiver, old(requestNonce))]
      ensures FeeKept(old(purse), purse, committeeId, fee)
    {
      if Sound(Accounts()) {
        ChargeKeeps(Accounts(), committeeId, fee);
      }
      EmitRequest(tr.dest, tr.amount, receiver);
      ledger := Collect(ledger, tr);
      ChargeIs(purse, committeeId, fee);
      purse := Charge(purse, committeeId, fee);
    }

    /** `_send_request`, after the entry point has chosen the tokens: takes the fee, locks or burns the tokens, returns
        the surplus and emits the request. `tr` is what the entry point moves. */
    method SendRequestInternal(tr: Transfer, receiver: Account, transferredFee: nat, answer: Answer, now: nat,
                               callOk: bool)
      returns (res: Outcome)
      requires Valid()
      modifies this`requestNonce, this`emitted, this`core, this`ledger, this`purse
      ensures Valid() && (old(Sound(Accounts())) ==> Sound(Accounts()))
      ensures res.Err? ==> unchanged(this)
      ensures res.Ok? <==>
                && receiver != ZERO_ADDRESS && tr.amount != 0 && callOk
                && Payable(old(ledger), tr) && old(FeeCovered(transferredFee, answer, now))
      ensures res.Ok? ==>
                && View() == old(View()).(core := EmitEvent(old(core), tr.dest, tr.amount, receiver),
                                          ledger := Collect(old(ledger), tr))
                && purse == Charge(old(purse), old(committeeId), old(BaseFee(gas, answer, now)).value)
                && Setup() == old(Setup())
      ensures res.Ok? ==>
                emitted == old(emitted) + [Request(old(committeeId), tr.dest, tr.amount, receiver, old(requestNonce))]
      ensures receiver == ZERO_ADDRESS ==> res == Err(ZeroAddressError)
      ensures receiver != ZERO_ADDRESS && tr.amount == 0 ==> res == Err(ZeroTransferAmount)
      ensures receiver != ZERO_ADDRESS && tr.amount > 0 ==>
                match BaseFee(gas, answer, now)
                case None => res == Err(Arithmetic)
                case Some(fee) => transferredFee < fee ==> res == Err(BaseFeeTooLow)
    {
      if receiver == ZERO_ADDRESS {
        return Err(ZeroAddressError);
      }
      if tr.amount == 0 {
        return Err(ZeroTransferAmount);
      }
      var fee := BaseFee(gas, answer, now);
      if fee.None? {
        return Err(Arithmetic);
      }
      if transferredFee < fee.value {
        return Err(BaseFeeTooLow);
      }
      if !callOk || !Payable(ledger, tr) {
        return Err(CallFailed);
      }
      if Collected(purse, committeeId) + fee.value >= U128_SIZE || requestNonce + 1 >= U128_SIZE {
        return Err(Arithmetic);
      }
      Take(tr, receiver, fee.value);
      return Ok;
    }

    /** What every successful send does: exactly the abstract send, and exactly the base fee is credited. */
    twostate predicate Sent(send: Send, answer: Answer, now: nat)
      requires |old(core).rosters| > 0
      reads this
    {
      && old(Dispatch(Setup(), View(), send)) == Some(View())
      && old(BaseFee(gas, answer, now)).Some?
      && purse == Charge(old(purse), old(committeeId), old(BaseFee(gas, answer, now)).value)
      && Setup() == old(Setup())
    }

    method SendRequest(token: Token, amount: nat, receiver: Account, value: nat, answer: Answer, now: nat, callOk: bool)
      returns (res: Outcome)
      requires Valid()
      modifies this`requestNonce, this`emitted, this`core, this`ledger, this`purse
      ensures Valid() && (old(Sound(Accounts())) ==> Sound(Accounts()))
      ensures res.Err? ==> unchanged(this)
      ensures res.Ok? <==> callOk && old(wazero).Some? && old(FeeCovered(value, answer, now))
                           && old(Dispatch(Setup(), View(), SendToken(token, amount, receiver))).Some?
      ensures res.Ok? ==> Sent(SendToken(token, amount, receiver), answer, now)
      ensures res.Ok? <==>
                && callOk && !halted && receiver != ZERO_ADDRESS && amount > 0
                && wazero.Some? && token != wazero.value && token in supportedPairs
                && Spendable(old(ledger), token, amount) && old(FeeCovered(value, answer, now))
      ensures res.Ok? ==>
                && emitted == old(emitted)
                              + [Request(old(committeeId), supportedPairs[token], amount, receiver, old(requestNonce))]
                && LockedOrBurned(old(ledger), ledger, token, amount, token in localToken)
    {
      if halted {
        return Err(IsHalted);
      }
      if wazero.None? {
        return Err(WrappedAzeroNotSet);
      }
      if token == wazero.value || token !in supportedPairs {
        return Err(UnsupportedPair);
      }
      var tr := Transfer(token, 0, amount, if token in localToken then 0 else amount, supportedPairs[token], amount);
      assert amount != 0 ==> Outgoing(Setup(), supportedPairs, SendToken(token, amount, receiver)) == Some(tr);
      LockingMoves(ledger, token, amount, token in localToken, supportedPairs[token]);
      res := SendRequestInternal(tr, receiver, value, answer, now, callOk);
    }

    method SendRequestNativeEther(amount: nat, receiver: Account, value: nat, answer: Answer, now: nat, callOk: bool)
      returns (res: Outcome)
      requires Valid()
      modifies this`requestNonce, this`emitted, this`core, this`ledger, this`purse
      ensures Valid() && (old(Sound(Accounts())) ==> Sound(Accounts()))
      ensures res.Err? ==> unchanged(this)
      ensures res.Ok? <==> callOk && old(weth).Some? && old(FeeCovered(value, answer, now))
                           && old(Dispatch(Setup(), View(), SendToNative(amount, receiver))).Some?
      ensures res.Ok? ==> Sent(SendToNative(amount, receiver), answer, now)
      ensures res.Ok? <==>
                && callOk && !halted && receiver != ZERO_ADDRESS && amount > 0 && weth.Some?
                && Spendable(old(ledger), weth.value, amount) && old(FeeCovered(value, answer, now))
      ensures res.Ok? ==>
                && emitted == old(emitted)
                              + [Request(old(committeeId), NATIVE_MARKER, amount, receiver, old(requestNonce))]
                && LockedOrBurned(old(ledger), ledger, weth.value, amount, weth.value in localToken)
    {
      if halted {
        return Err(IsHalted);
      }
      if weth.None? {
        return Err(WrappedEthNotSet);
      }
      var t := weth.value;
      var tr := Transfer(t, 0, amount, if t in localToken then 0 else amount, NATIVE_MARKER, amount);
      assert amount != 0 ==> Outgoing(Setup(), supportedPairs, SendToNative(amount, receiver)) == Some(tr);
      LockingMoves(ledger, t, amount, t in localToken, NATIVE_MARKER);
      res := SendRequestInternal(tr, receiver, value, answer, now, callOk);
    }

    method SendRequestNativeAzero(amount: nat, receiver: Account, value: nat, answer: Answer, now: nat, callOk: bool)
      returns (res: Outcome)
      requires Valid()
      modifies this`requestNonce, this`emitted, this`core, this`ledger, this`purse
      ensures Valid() && (old(Sound(Accounts())) ==> Sound(Accounts()))
      ensures res.Err? ==> unchanged(this)
      ensures res.Ok? <==> callOk && old(wazero).Some? && amount <= value
                           && old(FeeCovered(value - amount, answer, now))
                           && old(Dispatch(Setup(), View(), SendNative(amount, receiver))).Some?
      ensures res.Ok? ==> Sent(SendNative(amount, receiver), answer, now)
      ensures wazero.Some? && wazero.value in localToken ==>
                (res.Ok? <==>
                  && callOk && !halted && receiver != ZERO_ADDRESS && 0 < amount <= value
                  && wazero.value in supportedPairs && Spendable(old(ledger), wazero.value, 0)
                  && old(FeeCovered(value - amount, answer, now)))
      ensures res.Ok? ==>
                var promised := if amount * 1_000_000 <= U128_SIZE - 1 then amount * 1_000_000 else U128_SIZE - 1;
                && emitted == old(emitted) + [Request(old(committeeId), supportedPairs[wazero.value], promised,
                                                      receiver, old(requestNonce))]
                && (wazero.value in localToken ==> Shifted(old(ledger), ledger, wazero.value, amount, amount))
    {
      if halted {
        return Err(IsHalted);
      }
      if value < amount {
        return Err(ValueTransferredLowerThanAmount);
      }
      if wazero.None? {
        return Err(WrappedAzeroNotSet);
      }
      var w := wazero.value;
      if w !in supportedPairs {
        return Err(UnsupportedPair);
      }
      var scaled := SaturatingScale(amount);
      var pulled := if w in localToken then 0 else scaled;
      var tr := Transfer(w, amount, pulled, pulled, supportedPairs[w], scaled);
      assert amount != 0 ==> Outgoing(Setup(), supportedPairs, SendNative(amount, receiver)) == Some(tr);
      if w in localToken {
        DepositMoves(ledger, w, amount, supportedPairs[w], scaled);
      }
      res := SendRequestInternal(tr, receiver, value - amount, answer, now, callOk);
    }

    // --- rewards and pocket money

    /** Pays a member of an installed committee everything outstanding: with sound accounts the coins are there, and the
        member ends up with exactly an equal share of the fees collected so far. */
    method PayMember(committee: nat, member: Account, account: Account) returns (res: Outcome)
      requires Valid() && InCommittee(core, committee, member)
      modifies this`purse
      ensures var r := PayReward(old(purse), |core.rosters[committee].members|, committee, member, account == self);
              if r.Some? then res.Ok? && purse == r.value else res.Err? && purse == old(purse)
      ensures if res.Ok? then RewardPaid(old(purse), purse, committee, member, account == self) else purse == old(purse)
      ensures res.Ok? <==> Collected(purse, committee) / committeeSizes[committee]
                           <= old(Paid(purse, committee, member)) + old(purse.balance)
      ensures old(Sound(Accounts())) ==>
                && res.Ok? && Sound(Accounts())
                && Paid(purse, committee, member) == Collected(purse, committee) / |core.rosters[committee].members|
    {
      if Sound(Accounts()) {
        PayoutExact(Accounts(), committee, member, account == self);
      }
      PayoutIs(purse, committeeSizes[committee], committee, member, account == self);
      var paid := Paid(purse, committee, member);
      var outstanding := Outstanding(purse, committeeSizes[committee], committee, member);
      if outstanding > 0 {
        if outstanding > purse.balance {
          return Err(CallFailed);
        }
        purse := purse.(balance := if account == self then purse.balance else purse.balance - outstanding,
                        paid := purse.paid[(member, committee) := paid + outstanding]);
      }
      return Ok;
    }

    method PayoutRewards(committee: nat, member: Account) returns (res: Outcome)
      requires Valid()
      modifies this`purse
      ensures res.Err? ==> purse == old(purse)
      ensures halted || !InCommittee(core, committee, member) ==> res.Err?
      ensures !halted && InCommittee(core, committee, member) ==>
                var account := if member in payoutAccounts then payoutAccounts[member] else member;
                PayReward(old(purse), |core.rosters[committee].members|, committee, member, account == self)
                == if res.Ok? then Some(purse) else None
      ensures old(Sound(Accounts())) ==>
                && Sound(Accounts())
                && (res.Ok? <==> !halted && InCommittee(core, committee, member))
                && (res.Ok? ==>
                      Paid(purse, committee, member) == Collected(purse, committee) / |core.rosters[committee].members|)
      ensures res.Ok? ==>
                RewardPaid(old(purse), purse, committee, member,
                           (if member in payoutAccounts then payoutAccounts[member] else member) == self)
    {
      if halted {
        return Err(IsHalted);
      }
      if (committee, member) !in committees {
        return Err(NotInCommittee);
      }
      res := PayMember(committee, member, if member in payoutAccounts then payoutAccounts[member] else member);
    }

    method FundPocketMoney(value: nat) returns (res: Outcome)
      requires Valid()
      modifies this`purse
      ensures Valid()
      ensures View() == old(View()) && Setup() == old(Setup())
      ensures res.Ok? <==> old(purse).pocket + value < U128_SIZE
      ensures purse == if res.Ok? then Fund(old(purse), value) else old(purse)
      ensures old(Sound(Accounts())) ==> Sound(Accounts())
    {
      if purse.pocket + value >= U128_SIZE {
        return Err(Arithmetic);
      }
      if Sound(Accounts()) {
        FundKeeps(Accounts(), value);
      }
      purse := Fund(purse, value);
      return Ok;
    }

    // --- committee rotation

    /** Installs a new committee under the next id, leaving the old ones in storage.  The id is a wrapping 128-bit
        sum. */
    method SetCommittee(caller: Account, committee: seq<Account>, threshold: nat) returns (res: Outcome)
      requires Valid()
      modifies this`committeeId, this`committees, this`committeeSizes, this`signatureThresholds, this`core
      ensures res.Ok? <==> caller == owner && old(halted) && InkAccepts(committee, threshold)
      ensures res.Err? ==> unchanged(this)
      ensures res.Ok? ==>
                && committeeId == (old(committeeId) + 1) % U128_SIZE
                && committees == old(committees) + Marks(committeeId, committee)
      ensures res.Err? || old(committeeId) + 1 < U128_SIZE ==> Valid() && (old(Sound(Accounts())) ==> Sound(Accounts()))
      ensures res.Ok? && old(committeeId) + 1 < U128_SIZE ==>
                && View() == old(View()).(core := AddRoster(old(core), committee, threshold))
                && Setup() == old(Setup()) && purse == old(purse)
      ensures res.Ok? ==>
                && committeeSizes == old(committeeSizes)[committeeId := |committee|]
                && signatureThresholds == old(signatureThresholds)[committeeId := threshold]
    {
      if caller != owner {
        return Err(NotOwner);
      }
      if !halted {
        return Err(HaltRequired);
      }
      var verdict := CheckCommittee(committee, threshold);
      if verdict == InvalidThreshold {
        return Err(InvalidThresholdError);
      }
      if verdict != Accepted {
        return Err(DuplicateCommitteeMember);
      }
      Install(committee, threshold);
      return Ok;
    }

    method Install(committee: seq<Account>, threshold: nat)
      requires Valid() && InkAccepts(committee, threshold)
      modifies this`committeeId, this`committees, this`committeeSizes, this`signatureThresholds, this`core
      ensures committeeId == (old(committeeId) + 1) % U128_SIZE
      ensures committees == old(committees) + Marks(committeeId, committee)
      ensures core == AddRoster(old(core), committee, threshold)
      ensures old(committeeId) + 1 < U128_SIZE ==> Valid()
      ensures old(Sound(Accounts())) && Distinct(committee) ==> Sound(Accounts())
      ensures committeeSizes == old(committeeSizes)[committeeId := |committee|]
      ensures signatureThresholds == old(signatureThresholds)[committeeId := threshold]
    {
      RotationKeepsSound(purse, core, committee, threshold);
      StoreNext(core.rosters, committees, committeeSizes, signatureThresholds, committee, threshold);
      InstallKeepsVotes(core, pendingRequests, signatures, processedRequests, committee, threshold);
      var id := (committeeId + 1) % U128_SIZE;
      committeeSizes := committeeSizes[id := |committee|];
      committees := committees + Marks(id, committee);
      committeeId := id;
      signatureThresholds := signatureThresholds[id := threshold];
      core := AddRoster(core, committee, threshold);
    }

    // --- configuration

    method AddPair(caller: Account, from: Token, to: Token, local: bool, isMinter: bool) returns (res: Outcome)
      requires Valid()
      modifies this`supportedPairs, this`localToken
      ensures Valid()
      ensures res.Ok? <==> caller == owner && old(halted) && (local || isMinter)
      ensures res.Err? ==> unchanged(this)
      ensures res.Ok? ==>
                && View() == old(View()).(pairs := old(supportedPairs)[from := to])
                && Setup() == old(Setup()).(local := if local then old(localToken) + {from} else old(localToken))
                && purse == old(purse)
    {
      if caller != owner {
        return Err(NotOwner);
      }
      if !halted {
        return Err(HaltRequired);
      }
      if local {
        localToken := localToken + {from};
      } else if !isMinter {
        return Err(NoMintPermission);
      }
      supportedPairs := supportedPairs[from := to];
      return Ok;
    }

    method RemovePair(caller: Account, from: Token) returns (res: Outcome)
      requires Valid()
      modifies this`supportedPairs
      ensures Valid()
      ensures res.Ok? <==> caller == owner && halted
      ensures supportedPairs == if res.Ok? then old(supportedPairs) - {from} else old(supportedPairs)
    {
      if caller != owner {
        return Err(NotOwner);
      }
      if !halted {
        return Err(HaltRequired);
      }
      supportedPairs := supportedPairs - {from};
      return Ok;
    }

    method SetWeth(caller: Account, token: Token) returns (res: Outcome)
      requires Valid()
      modifies this`weth
      ensures Valid()
      ensures res.Ok? <==> caller == owner && halted
      ensures weth == if res.Ok? then Some(token) else old(weth)
    {
      if caller != owner {
        return Err(NotOwner);
      }
      if !halted {
        return Err(HaltRequired);
      }
      weth := Some(token);
      return Ok;
    }

    method SetWazero(caller: Account, token: Token) returns (res: Outcome)
      requires Valid()
      modifies this`wazero
      ensures Valid()
      ensures res.Ok? <==> caller == owner && halted
      ensures wazero == if res.Ok? then Some(token) else old(wazero)
    {
      if caller != owner {
        return Err(NotOwner);
      }
      if !halted {
        return Err(HaltRequired);
      }
      wazero := Some(token);
      return Ok;
    }

    method SetHalted(caller: Account, state: bool) returns (res: Outcome)
      requires Valid()
      modifies this`halted
      ensures Valid()
      ensures res.Ok? <==> caller == owner
      ensures View() == old(View()).(halted := if res.Ok? then state else old(halted))
      ensures Setup() == old(Setup()) && purse == old(purse)
    {
      if caller != owner {
        return Err(NotOwner);
      }
      halted := state;
      return Ok;
    }

    // --- reads

    /** Every committee ever installed keeps its integrity: its recorded size is the number of its members, its
        threshold is positive, and, among committees of fewer than 2^32 members, within the size if and only if it fits
        in 32 bits. */
    lemma CommitteeIntegrity(c: nat)
      requires Valid() && c <= committeeId
      ensures c in committeeSizes && c in signatureThresholds
      ensures committeeSizes[c] == |MarksOf(committees, c)| && signatureThresholds[c] >= 1
      ensures signatureThresholds[c] < U32_SIZE ==> signatureThresholds[c] <= committeeSizes[c]
      ensures committeeSizes[c] < U32_SIZE ==>
                (signatureThresholds[c] <= committeeSizes[c] <==> signatureThresholds[c] < U32_SIZE)
    {
      StoredCount(core.rosters, committees, committeeSizes, signatureThresholds, c);
      var roster := core.rosters[c];
      if roster.threshold < U32_SIZE {
        assert roster.threshold % U32_SIZE == roster.threshold;
      }
    }

    method RequestStatusOf(requestHash: Hash) returns (status: RequestStatus)
      requires Valid()
      ensures status.Processed? <==> requestHash in core.executed
      ensures status.Pending? <==> requestHash in core.ballots && requestHash !in core.executed
      ensures status.Pending? ==> status.collected == |Signers(core, requestHash)| % U32_SIZE
    {
      if requestHash in processedRequests {
        return Processed;
      }
      if requestHash in pendingRequests {
        return Pending(pendingRequests[requestHash] % U32_SIZE);
      }
      return RequestHashNotKnown;
    }

    method NeedsSignatureOf(requestHash: Hash, account: Account, committee: nat) returns (needed: bool)
      requires Valid()
      ensures needed <==> NeedsSignature(core, requestHash, account, committee)
    {
      if (committee, account) !in committees {
        return false;
      }
      if requestHash in processedRequests {
        return false;
      }
      if (requestHash, account) in signatures {
        return false;
      }
      return true;
    }
  }

  lemma InstallKeepsVotes(core: Core, pending: map<Hash, nat>, signatures: set<(Hash, Account)>, processed: set<Hash>,
                          committee: seq<Account>, threshold: nat)
    requires VotesStored(core, pending, signatures, processed)
    ensures VotesStored(AddRoster(core, committee, threshold), pending, signatures, processed)
  {
    assert forall h: Hash :: Signers(AddRoster(core, committee, threshold), h) == Signers(core, h);
  }

  lemma EmitKeepsVotes(core: Core, pending: map<Hash, nat>, signatures: set<(Hash, Account)>, processed: set<Hash>,
                       dest: Token, amount: nat, receiver: Account)
    requires VotesStored(core, pending, signatures, processed) && |core.rosters| > 0
    ensures VotesStored(EmitEvent(core, dest, amount, receiver), pending, signatures, processed)
  {
    assert forall h: Hash :: Signers(EmitEvent(core, dest, amount, receiver), h) == Signers(core, h);
  }
}
