/** The Solidity contract `AbstractMost`: a nested pending mapping whose counter is zeroed on execution while the signer
    map stays, and a signed-already check that comes before the hash check. */
module SolidityMost {
  import opened Types
  import opened Collector
  import opened Committees
  import opened Treasury
  import opened Effects

  datatype Reason =
    | Paused | NotPaused | NotOwner | NotInCommittee | ZeroAmount | ZeroAddressError | UnsupportedPair
    | AzeroAddressNotSet | LimitExceeded | DataHashMismatch | CallFailed | BadCommittee(verdict: Verdict) | Overflow

  datatype Outcome = Done | Revert(reason: Reason)

  /** `struct Request`. */
  datatype Slot = Slot(signatureCount: nat, signatures: set<Account>)

  function SlotAt(pending: map<Hash, Slot>, h: Hash): Slot {
    if h in pending then pending[h] else Slot(0, {})
  }

  /** The nested mapping describes the ballots: signers are never forgotten, and the count is their number until the
      request is executed and 0 afterwards. */
  ghost predicate VotesStored(core: Core, pending: map<Hash, Slot>, processed: set<Hash>) {
    && processed == core.executed
    && (forall h: Hash {:trigger h in pending} :: h in pending <==> h in core.ballots)
    && (forall h: Hash {:trigger pending[h]} | h in pending ::
          && pending[h].signatures == Signers(core, h)
          && pending[h].signatureCount == if h in core.executed then 0 else |Signers(core, h)|)
    && (forall h: Hash | h in core.executed :: h in core.ballots)
  }

  /** Marking the sender, bumping the counter, and deleting the counter when the quorum is reached, is one abstract
      vote. */
  lemma StoreVote(core: Core, pending: map<Hash, Slot>, processed: set<Hash>, h: Hash, r: Request, who: Account)
    requires VotesStored(core, pending, processed)
    requires r.committee < |core.rosters| && NeedsSignature(core, h, who, r.committee)
    ensures SlotAt(pending, h).signatureCount + 1 == |Signers(core, h) + {who}|
    ensures var signatures := SlotAt(pending, h).signatures + {who};
            var core' := Cast(core, h, r, who);
            if ReachesQuorum(core, h, r, who)
            then VotesStored(core', pending[h := Slot(0, signatures)], processed + {h})
            else VotesStored(core', pending[h := Slot(SlotAt(pending, h).signatureCount + 1, signatures)], processed)
  {
    assert h in pending || Signers(core, h) == {};
    assert |Signers(core, h) + {who}| == |Signers(core, h)| + 1;
  }

  lemma EmitKeepsVotes(core: Core, pending: map<Hash, Slot>, processed: set<Hash>, dest: Token, amount: nat,
                       receiver: Account)
    requires VotesStored(core, pending, processed) && |core.rosters| > 0
    ensures VotesStored(EmitEvent(core, dest, amount, receiver), pending, processed)
  {
    assert forall h: Hash :: Signers(EmitEvent(core, dest, amount, receiver), h) == Signers(core, h);
  }

  lemma InstallKeepsVotes(core: Core, pending: map<Hash, Slot>, processed: set<Hash>, committee: seq<Account>,
                          threshold: nat)
    requires VotesStored(core, pending, processed)
    ensures VotesStored(AddRoster(core, committee, threshold), pending, processed)
  {
    assert forall h: Hash :: Signers(AddRoster(core, committee, threshold), h) == Signers(core, h);
  }

  class AbstractMost {
    const self: Account
    const owner: Account
    /** `keccak256(abi.encodePacked(...))`. */
    const hash: Request -> Hash
    const wethAddress: Token

    var requestNonce: nat
    var committeeId: nat
    var paused: bool
    var supportedPairs: map<Token, Token>
    var pendingRequests: map<Hash, Slot>
    var processedRequests: set<Hash>
    /** Keyed by the hash of committee id and address, which are taken not to collide. */
    var committee: set<(nat, Account)>
    var committeeSize: map<nat, nat>
    var signatureThreshold: map<nat, nat>
    var isLocalToken: set<Token>
    var wrappedAzeroAddress: Token
    /** The token contracts on this chain. */
    var ledger: Ledger
    /** The request events of this contract in the chain's event log. */
    var emitted: seq<Request>

    /** The abstract state that the storage stands for. */
    ghost var core: Core

    ghost predicate Valid()
      reads this
    {
      && |core.rosters| > 0 && committeeId == |core.rosters| - 1
      && requestNonce == |emitted| && emitted == core.events
      && Stored(core.rosters, committee, committeeSize, signatureThreshold)
      && (forall c | 0 <= c < |core.rosters| :: SolidityAccepts(core.rosters[c].members, core.rosters[c].threshold))
      && VotesStored(core, pendingRequests, processedRequests)
    }

    ghost function View(): Chain
      reads this
    {
      Chain(core, ledger, supportedPairs, paused)
    }

    ghost function Setup(): Profile
      reads this
    {
      Profile(SolL1, Scheme(hash, iset{}), {}, self, wethAddress, wrappedAzeroAddress, isLocalToken)
    }

    /** `__AbstractMost_init`: the initializer reverts unless the committee is accepted. */
    constructor (members: seq<Account>, threshold: nat, owner: Account, self: Account, hash: Request -> Hash,
                 weth: Token, ledger: Ledger)
      requires SolidityAccepts(members, threshold)
      ensures Valid() && Fresh(core) && core.rosters == [Roster(members, threshold)]
      ensures paused && supportedPairs == map[] && this.ledger == ledger && this.hash == hash && wethAddress == weth
      ensures this.owner == owner && this.self == self && committeeId == 0 && emitted == []
      ensures isLocalToken == {} && wrappedAzeroAddress == ZERO_ADDRESS
    {
      this.self, this.owner, this.hash, this.wethAddress := self, owner, hash, weth;
      this.requestNonce, this.committeeId, this.paused := 0, 0, true;
      this.supportedPairs, this.pendingRequests, this.processedRequests := map[], map[], {};
      this.committee := Marks(0, members);
      this.committeeSize, this.signatureThreshold := map[0 := |members|], map[0 := threshold];
      this.isLocalToken, this.wrappedAzeroAddress := {}, ZERO_ADDRESS;
      this.ledger := ledger;
      this.emitted := [];
      this.core := Core([Roster(members, threshold)], map[], {}, [], []);
    }

    // --- receiving

    ghost function Payment(request: Request, delivery: Delivery): Option<Ledger>
      reads this
    {
      Pay(Setup(), ledger, Incoming(Setup(), request.token, request.amount),
          request.receiver % ADDRESS_SIZE == self, delivery)
    }

    /** The payout part of `onReceiveRequestThresholdMet`.  A failed ether or token transfer to the receiver does not
        revert; a failed withdrawal or mint does. */
    method PayOut(request: Request, delivery: Delivery) returns (r: Option<Ledger>)
      ensures r == Payment(request, delivery)
    {
      var t := request.token % ADDRESS_SIZE;
      var toSelf := request.receiver % ADDRESS_SIZE == self;
      var q := request.amount;
      if delivery == Reverted {
        return None;
      }
      if t == ZERO_ADDRESS {
        if q > Held(ledger, wethAddress) || q > Supply(ledger, wethAddress) {
          return None;
        }
        return Some(Update(ledger, wethAddress, Supply(ledger, wethAddress) - q, Held(ledger, wethAddress) - q));
      }
      if t !in isLocalToken {
        if delivery == Refused {
          return None;
        }
        return Some(Update(ledger, t, Supply(ledger, t) + q, if toSelf then Held(ledger, t) + q else Held(ledger, t)));
      }
      if delivery == Refused {
        return Some(ledger);
      }
      if q > Held(ledger, t) {
        return None;
      }
      return Some(Update(ledger, t, Supply(ledger, t), if toSelf then Held(ledger, t) else Held(ledger, t) - q));
    }

    method RecordVote(sender: Account, h: Hash, request: Request)
      requires Valid() && NeedsSignature(core, h, sender, request.committee)
      requires !ReachesQuorum(core, h, request, sender)
      modifies this`pendingRequests, this`core
      ensures Valid() && core == Cast(old(core), h, request, sender)
    {
      StoreVote(core, pendingRequests, processedRequests, h, request, sender);
      var slot := SlotAt(pendingRequests, h);
      pendingRequests := pendingRequests[h := Slot(slot.signatureCount + 1, slot.signatures + {sender})];
      core := Cast(core, h, request, sender);
    }

    /** Marks the request as processed and deletes its pending entry, which zeroes the count and keeps the signers. */
    method RecordExecution(sender: Account, h: Hash, request: Request)
      requires Valid() && NeedsSignature(core, h, sender, request.committee)
      requires ReachesQuorum(core, h, request, sender)
      modifies this`pendingRequests, this`processedRequests, this`core
      ensures Valid() && core == Cast(old(core), h, request, sender)
    {
      StoreVote(core, pendingRequests, processedRequests, h, request, sender);
      var slot := SlotAt(pendingRequests, h);
      processedRequests := processedRequests + {h};
      pendingRequests := pendingRequests[h := Slot(0, slot.signatures + {sender})];
      core := Cast(core, h, request, sender);
    }

    /** The checks before a vote is counted: `None` when the vote is needed and its hash matches its data. */
    method Screen(sender: Account, claimed: Hash, request: Request) returns (early: Option<Outcome>)
      requires Valid()
      ensures early.None? <==> !paused && Accepts(hash, core, claimed, request, sender)
      ensures early == Some(Done) <==>
                && !paused && InCommittee(core, request.committee, sender)
                && (claimed in core.executed || sender in Signers(core, hash(request)))
      ensures early == Some(Revert(Paused)) <==> paused
      ensures early == Some(Revert(NotInCommittee)) <==> !paused && !InCommittee(core, request.committee, sender)
      ensures early == Some(Revert(DataHashMismatch)) <==>
                && !paused && InCommittee(core, request.committee, sender) && claimed != hash(request)
                && claimed !in core.executed && sender !in Signers(core, hash(request))
    {
      if paused {
        return Some(Revert(Paused));
      }
      if (request.committee, sender) !in committee {
        return Some(Revert(NotInCommittee));
      }
      if claimed in processedRequests {
        return Some(Done);
      }
      var h := hash(request);
      assert h in pendingRequests || Signers(core, h) == {};
      if sender in SlotAt(pendingRequests, h).signatures {
        return Some(Done);
      }
      if claimed != h {
        return Some(Revert(DataHashMismatch));
      }
      return None;
    }

    method CountVote(sender: Account, h: Hash, request: Request, delivery: Delivery) returns (res: Outcome)
      requires Valid() && NeedsSignature(core, h, sender, request.committee)
      modifies this`pendingRequests, this`processedRequests, this`core, this`ledger
      ensures Valid()
      ensures res.Done? <==> (ReachesQuorum(old(core), h, request, sender) ==> old(Payment(request, delivery)).Some?)
      ensures res.Done? ==>
                && core == Cast(old(core), h, request, sender)
                && Some(ledger) == if ReachesQuorum(old(core), h, request, sender)
                                   then old(Payment(request, delivery)) else Some(old(ledger))
      ensures res.Revert? ==> unchanged(this)
    {
      StoreVote(core, pendingRequests, processedRequests, h, request, sender);
      var count := SlotAt(pendingRequests, h).signatureCount + 1;
      if count >= signatureThreshold[request.committee] {
        var settled := PayOut(request, delivery);
        if settled.None? {
          return Revert(CallFailed);
        }
        RecordExecution(sender, h, request);
        ledger := settled.value;
      } else {
        RecordVote(sender, h, request);
      }
      return Done;
    }

    /** A needed vote has exactly the effect of the abstract machine; every other call that does not revert changes
        nothing. */
    method ReceiveRequest(sender: Account, claimed: Hash, request: Request, delivery: Delivery) returns (res: Outcome)
      requires Valid()
      modifies this`pendingRequests, this`processedRequests, this`core, this`ledger
      ensures Valid()
      ensures !old(Accepts(hash, core, claimed, request, sender)) ==>
                unchanged(this)
                && (res.Done? <==> !old(paused) && InCommittee(old(core), request.committee, sender)
                                   && (claimed in old(core).executed || sender in Signers(old(core), hash(request))))
      ensures old(Accepts(hash, core, claimed, request, sender)) ==>
                match old(Submit(Setup(), View(), sender, claimed, request, delivery))
                case Some(ch) => res.Done? && View() == ch && Setup() == old(Setup())
                case None => res.Revert? && unchanged(this)
    {
      var early := Screen(sender, claimed, request);
      if early.Some? {
        return early.value;
      }
      res := CountVote(sender, claimed, request, delivery);
    }

    // --- sending

    /** Emits the request with the stored committee and nonce, and takes the next nonce. */
    method EmitRequest(dest: Token, amount: nat, receiver: Account)
      requires Valid()
      modifies this`requestNonce, this`emitted, this`core
      ensures Valid() && core == EmitEvent(old(core), dest, amount, receiver)
      ensures emitted == old(emitted) + [Request(old(committeeId), dest, amount, receiver, old(requestNonce))]
    {
      EmitKeepsVotes(core, pendingRequests, processedRequests, dest, amount, receiver);
      core := EmitEvent(core, dest, amount, receiver);
      emitted := emitted + [Request(committeeId, dest, amount, receiver, requestNonce)];
      requestNonce := requestNonce + 1;
    }

    /** The common end of the send functions: moves the tokens, emits the request, takes the next nonce. */
    method Take(tr: Transfer, receiver: Account, callOk: bool) returns (res: Outcome)
      requires Valid()
      modifies this`requestNonce, this`emitted, this`core, this`ledger
      ensures Valid()
      ensures res.Done? <==> callOk && Payable(old(ledger), tr) && old(requestNonce) + 1 < U256_SIZE
      ensures res.Done? ==>
                core == EmitEvent(old(core), tr.dest, tr.amount, receiver) && ledger == Collect(old(ledger), tr)
      ensures res.Revert? ==> unchanged(this)
      ensures res.Done? ==>
                emitted == old(emitted) + [Request(old(committeeId), tr.dest, tr.amount, receiver, old(requestNonce))]
    {
      if !callOk || !Payable(ledger, tr) {
        return Revert(CallFailed);
      }
      if requestNonce + 1 >= U256_SIZE {
        return Revert(Overflow);
      }
      EmitRequest(tr.dest, tr.amount, receiver);
      ledger := Collect(ledger, tr);
      return Done;
    }

    method SendRequest(src: Token, amount: nat, receiver: Account, limitOk: bool, callOk: bool) returns (res: Outcome)
      requires Valid()
      modifies this`requestNonce, this`emitted, this`core, this`ledger
      ensures Valid()
      ensures res.Revert? ==> unchanged(this)
      ensures res.Done? <==> limitOk && callOk && old(requestNonce) + 1 < U256_SIZE
                             && old(Dispatch(Setup(), View(), SendToken(src, amount, receiver))).Some?
      ensures res.Done? ==>
                old(Dispatch(Setup(), View(), SendToken(src, amount, receiver))) == Some(View())
                  && Setup() == old(Setup())
      ensures res.Done? <==>
                && limitOk && callOk && !paused && receiver != ZERO_ADDRESS && amount > 0
                && src in supportedPairs && supportedPairs[src] != NATIVE_MARKER
                && Spendable(old(ledger), src % ADDRESS_SIZE, amount) && old(requestNonce) + 1 < U256_SIZE
      ensures res.Done? ==>
                && emitted == old(emitted)
                              + [Request(old(committeeId), supportedPairs[src], amount, receiver, old(requestNonce))]
                && LockedOrBurned(old(ledger), ledger, src % ADDRESS_SIZE, amount, src % ADDRESS_SIZE in isLocalToken)
    {
      if paused {
        return Revert(Paused);
      }
      if amount == 0 {
        return Revert(ZeroAmount);
      }
      if receiver == ZERO_ADDRESS {
        return Revert(ZeroAddressError);
      }
      if src !in supportedPairs || supportedPairs[src] == NATIVE_MARKER {
        return Revert(UnsupportedPair);
      }
      if !limitOk {
        return Revert(LimitExceeded);
      }
      var token := src % ADDRESS_SIZE;
      var tr := Transfer(token, 0, amount, if token in isLocalToken then 0 else amount, supportedPairs[src], amount);
      LockingMoves(ledger, token, amount, token in isLocalToken, supportedPairs[src]);
      res := Take(tr, receiver, callOk);
    }

    method SendRequestNative(value: nat, receiver: Account, limitOk: bool, callOk: bool) returns (res: Outcome)
      requires Valid()
      modifies this`requestNonce, this`emitted, this`core, this`ledger
      ensures Valid()
      ensures res.Revert? ==> unchanged(this)
      ensures res.Done? <==> limitOk && callOk && old(requestNonce) + 1 < U256_SIZE
                             && old(Dispatch(Setup(), View(), SendNative(value, receiver))).Some?
      ensures res.Done? ==>
                old(Dispatch(Setup(), View(), SendNative(value, receiver))) == Some(View()) && Setup() == old(Setup())
      ensures res.Done? <==>
                && limitOk && callOk && !paused && receiver != ZERO_ADDRESS && value > 0
                && wethAddress in supportedPairs && supportedPairs[wethAddress] != NATIVE_MARKER
                && Spendable(old(ledger), wethAddress, 0) && old(requestNonce) + 1 < U256_SIZE
      ensures res.Done? ==>
                && emitted == old(emitted) + [Request(old(committeeId), supportedPairs[wethAddress], value, receiver,
                                                      old(requestNonce))]
                && Shifted(old(ledger), ledger, wethAddress, value, value)
    {
      if paused {
        return Revert(Paused);
      }
      if value == 0 {
        return Revert(ZeroAmount);
      }
      if receiver == ZERO_ADDRESS {
        return Revert(ZeroAddressError);
      }
      if wethAddress !in supportedPairs || supportedPairs[wethAddress] == NATIVE_MARKER {
        return Revert(UnsupportedPair);
      }
      if !limitOk {
        return Revert(LimitExceeded);
      }
      DepositMoves(ledger, wethAddress, value, supportedPairs[wethAddress], value);
      res := Take(Transfer(wethAddress, value, 0, 0, supportedPairs[wethAddress], value), receiver, callOk);
    }

    method SendRequestAzeroToNative(amount: nat, receiver: Account, limitOk: bool, callOk: bool) returns (res: Outcome)
      requires Valid()
      modifies this`requestNonce, this`emitted, this`core, this`ledger
      ensures Valid()
      ensures res.Revert? ==> unchanged(this)
      ensures res.Done? <==> limitOk && callOk && old(requestNonce) + 1 < U256_SIZE
                             && old(wrappedAzeroAddress) != ZERO_ADDRESS
                             && old(Dispatch(Setup(), View(), SendToNative(amount, receiver))).Some?
      ensures res.Done? ==>
                old(Dispatch(Setup(), View(), SendToNative(amount, receiver))) == Some(View())
                  && Setup() == old(Setup())
      ensures res.Done? <==>
                && limitOk && callOk && !paused && receiver != ZERO_ADDRESS && amount > 0
                && wrappedAzeroAddress != ZERO_ADDRESS
                && Spendable(old(ledger), wrappedAzeroAddress, amount) && old(requestNonce) + 1 < U256_SIZE
      ensures res.Done? ==>
                && emitted == old(emitted)
                              + [Request(old(committeeId), NATIVE_MARKER, amount, receiver, old(requestNonce))]
                && LockedOrBurned(old(ledger), ledger, wrappedAzeroAddress, amount, false)
    {
      if paused {
        return Revert(Paused);
      }
      if amount == 0 {
        return Revert(ZeroAmount);
      }
      if receiver == ZERO_ADDRESS {
        return Revert(ZeroAddressError);
      }
      if wrappedAzeroAddress == ZERO_ADDRESS {
        return Revert(AzeroAddressNotSet);
      }
      if !limitOk {
        return Revert(LimitExceeded);
      }
      LockingMoves(ledger, wrappedAzeroAddress, amount, false, NATIVE_MARKER);
      res := Take(Transfer(wrappedAzeroAddress, 0, amount, amount, NATIVE_MARKER, amount), receiver, callOk);
    }

    // --- owner

    method SetCommittee(sender: Account, members: seq<Account>, threshold: nat) returns (res: Outcome)
      requires Valid()
      modifies this`committeeId, this`committee, this`committeeSize, this`signatureThreshold, this`core
      ensures Valid()
      ensures res.Done? <==> sender == owner && old(paused) && old(committeeId) + 1 < U256_SIZE
                             && SolidityAccepts(members, threshold)
      ensures res.Revert? ==> unchanged(this)
      ensures res.Done? ==>
                View() == old(View()).(core := AddRoster(old(core), members, threshold)) && Setup() == old(Setup())
      ensures res.Done? ==>
                && committeeId == old(committeeId) + 1
                && committee == old(committee) + Marks(committeeId, members)
                && committeeSize == old(committeeSize)[committeeId := |members|]
                && signatureThreshold == old(signatureThreshold)[committeeId := threshold]
    {
      if sender != owner {
        return Revert(NotOwner);
      }
      if !paused {
        return Revert(NotPaused);
      }
      if committeeId + 1 >= U256_SIZE {
        return Revert(Overflow);
      }
      var verdict, marks := MarkCommittee(committee, committeeId + 1, members, threshold);
      if verdict != Accepted {
        return Revert(BadCommittee(verdict));
      }
      Install(marks, members, threshold);
      return Done;
    }

    /** Stores an accepted committee, whose members have been marked, under the next id. */
    method Install(marks: set<(nat, Account)>, members: seq<Account>, threshold: nat)
      requires Valid() && SolidityAccepts(members, threshold)
      requires marks == committee + Marks(committeeId + 1, members)
      modifies this`committeeId, this`committee, this`committeeSize, this`signatureThreshold, this`core
      ensures Valid() && core == AddRoster(old(core), members, threshold)
      ensures
        && committeeId == old(committeeId) + 1
        && committee == old(committee) + Marks(committeeId, members)
        && committeeSize == old(committeeSize)[committeeId := |members|]
        && signatureThreshold == old(signatureThreshold)[committeeId := threshold]
    {
      StoreNext(core.rosters, committee, committeeSize, signatureThreshold, members, threshold);
      InstallKeepsVotes(core, pendingRequests, processedRequests, members, threshold);
      committeeId := committeeId + 1;
      committee := marks;
      committeeSize := committeeSize[committeeId := |members|];
      signatureThreshold := signatureThreshold[committeeId := threshold];
      core := AddRoster(core, members, threshold);
    }

    method AddPair(sender: Account, from: Token, to: Token, isLocal: bool) returns (res: Outcome)
      requires Valid()
      modifies this`supportedPairs, this`isLocalToken
      ensures Valid()
      ensures res.Done? <==> sender == owner && old(paused)
      ensures res.Revert? ==> unchanged(this)
      ensures res.Done? ==>
                && View() == old(View()).(pairs := old(supportedPairs)[from := to])
                && Setup() == old(Setup()).(local := if isLocal then old(isLocalToken) + {from % ADDRESS_SIZE}
                                                     else old(isLocalToken) - {from % ADDRESS_SIZE})
    {
      if sender != owner {
        return Revert(NotOwner);
      }
      if !paused {
        return Revert(NotPaused);
      }
      supportedPairs := supportedPairs[from := to];
      if isLocal {
        isLocalToken := isLocalToken + {from % ADDRESS_SIZE};
      } else {
        isLocalToken := isLocalToken - {from % ADDRESS_SIZE};
      }
      return Done;
    }

    method RemovePair(sender: Account, from: Token) returns (res: Outcome)
      requires Valid()
      modifies this`supportedPairs
      ensures Valid()
      ensures res.Done? <==> sender == owner && paused
      ensures supportedPairs == if res.Done? then old(supportedPairs) - {from} else old(supportedPairs)
    {
      if sender != owner {
        return Revert(NotOwner);
      }
      if !paused {
        return Revert(NotPaused);
      }
      supportedPairs := supportedPairs - {from};
      return Done;
    }

    method SetLocalToken(sender: Account, token: Token, isLocal: bool) returns (res: Outcome)
      requires Valid()
      modifies this`isLocalToken
      ensures Valid()
      ensures res.Done? <==> sender == owner && paused
      ensures isLocalToken == if res.Revert? then old(isLocalToken)
                              else if isLocal then old(isLocalToken) + {token % ADDRESS_SIZE}
                              else old(isLocalToken) - {token % ADDRESS_SIZE}
    {
      if sender != owner {
        return Revert(NotOwner);
      }
      if !paused {
        return Revert(NotPaused);
      }
      isLocalToken := if isLocal then isLocalToken + {token % ADDRESS_SIZE} else isLocalToken - {token % ADDRESS_SIZE};
      return Done;
    }

    method SetWrappedAzeroAddress(sender: Account, token: Token) returns (res: Outcome)
      requires Valid()
      modifies this`wrappedAzeroAddress
      ensures Valid()
      ensures res.Done? <==> sender == owner && paused
      ensures wrappedAzeroAddress == if res.Done? then token else old(wrappedAzeroAddress)
    {
      if sender != owner {
        return Revert(NotOwner);
      }
      if !paused {
        return Revert(NotPaused);
      }
      wrappedAzeroAddress := token;
      return Done;
    }

    /** `pause` and `unpause`: each reverts in the state that it leads to. */
    method SetPaused(sender: Account, state: bool) returns (res: Outcome)
      requires Valid()
      modifies this`paused
      ensures Valid()
      ensures res.Done? <==> sender == owner && state != old(paused)
      ensures paused == if res.Done? then state else old(paused)
    {
      if sender != owner {
        return Revert(NotOwner);
      }
      if state == paused {
        return Revert(if paused then Paused else NotPaused);
      }
      paused := state;
      return Done;
    }

    // --- reads

    /** Every committee ever installed keeps its integrity: its recorded size is the number of its members, none of
        which is the zero address, and its threshold is between 1 and the size. */
    lemma CommitteeIntegrity(c: nat)
      requires Valid() && c <= committeeId
      ensures c in committeeSize && c in signatureThreshold
      ensures committeeSize[c] == |MarksOf(committee, c)| && (c, ZERO_ADDRESS) !in committee
      ensures 1 <= signatureThreshold[c] <= committeeSize[c]
    {
      StoredCount(core.rosters, committee, committeeSize, signatureThreshold, c);
      assert SolidityAccepts(core.rosters[c].members, core.rosters[c].threshold);
    }

    method NeedsSignatureOf(requestHash: Hash, account: Account, id: nat) returns (needed: bool)
      requires Valid()
      ensures needed <==> NeedsSignature(core, requestHash, account, id)
    {
      if (id, account) !in committee {
        return false;
      }
      if requestHash in processedRequests {
        return false;
      }
      assert requestHash in pendingRequests || Signers(core, requestHash) == {};
      if account in SlotAt(pendingRequests, requestHash).signatures {
        return false;
      }
      return true;
    }
  }
}
