/** What sends and payouts mean, in terms of the caller's arguments, balances and events: when exactly they go through,
    which token moves by how much, and which request is emitted. */
module Effects {
  import opened Types
  import opened Collector
  import opened Treasury

  /** Supply and holding of `t` change by the given amounts, and nothing else changes. */
  ghost predicate Shifted(l: Ledger, l': Ledger, t: Token, supply: int, held: int) {
    && Supply(l', t) == Supply(l, t) + supply && Held(l', t) == Held(l, t) + held
    && forall x | x != t :: Supply(l', x) == Supply(l, x) && Held(l', x) == Held(l, x)
  }

  /** A local token is locked, a wrapped one burned. */
  ghost predicate LockedOrBurned(l: Ledger, l': Ledger, t: Token, amount: nat, local: bool) {
    Shifted(l, l', t, if local then 0 else 0 - amount, if local then amount else 0)
  }

  /** The caller owns `amount` of the token: it exists outside of the bridge. */
  predicate Spendable(l: Ledger, t: Token, amount: nat) { Held(l, t) + amount <= Supply(l, t) }

  /** The events after a send: one more request, under the current committee, with the next nonce, for the caller's
      receiver. */
  function WithRequest(core: Core, dest: Token, amount: nat, receiver: Account): seq<Request> {
    if |core.rosters| == 0 then []
    else core.events + [Request(|core.rosters| - 1, dest, amount, receiver, |core.events|)]
  }

  lemma LockingMoves(l: Ledger, t: Token, amount: nat, local: bool, dest: Token)
    ensures var tr := Transfer(t, 0, amount, if local then 0 else amount, dest, amount);
            && (Payable(l, tr) <==> Spendable(l, t, amount))
            && (Payable(l, tr) ==> LockedOrBurned(l, Collect(l, tr), t, amount, local))
  {
  }

  lemma DepositMoves(l: Ledger, t: Token, amount: nat, dest: Token, promised: nat)
    ensures var tr := Transfer(t, amount, 0, 0, dest, promised);
            && (Payable(l, tr) <==> Spendable(l, t, 0))
            && (Payable(l, tr) ==> Shifted(l, Collect(l, tr), t, amount, amount))
  {
  }

  // --- sends

  /** Sending a token goes through exactly when the bridge is open, the receiver is not zero, the amount is positive and
      in the caller's hands, and the pair is supported; wrapped AZERO of Aleph Zero has its own message, and Solidity
      takes a zero destination for a missing pair. */
  lemma TokenSend(p: Profile, ch: Chain, token: Token, amount: nat, receiver: Account)
    requires |ch.core.rosters| > 0
    ensures var r, t := Dispatch(p, ch, SendToken(token, amount, receiver)), AddressOf(p, token);
            && (r.Some? <==>
                  && !ch.halted && receiver != ZERO_ADDRESS && amount > 0 && token in ch.pairs
                  && !(p.flavour.InkL1? && token == p.native) && !(IsSolidity(p) && ch.pairs[token] == NATIVE_MARKER)
                  && Spendable(ch.ledger, t, amount))
            && (r.Some? ==>
                  && LockedOrBurned(ch.ledger, r.value.ledger, t, amount, IsLocal(p, t))
                  && r.value.core == ch.core.(events := WithRequest(ch.core, ch.pairs[token], amount, receiver))
                  && r.value.pairs == ch.pairs && r.value.halted == ch.halted)
  {
    var t := AddressOf(p, token);
    if token in ch.pairs {
      LockingMoves(ch.ledger, t, amount, IsLocal(p, t), ch.pairs[token]);
    }
  }

  /** What native coins are promised as on the other chain: AZERO from Aleph Zero to Ethereum gains six decimals and
      saturates at the largest 128-bit number. */
  function Promised(p: Profile, amount: nat): nat {
    if !p.flavour.InkL1? then amount
    else if amount * 1_000_000 < 0x1_0000_0000_0000_0000_0000_0000_0000_0000 then amount * 1_000_000
    else U128_SIZE - 1
  }

  /** Sending native coins wraps exactly the amount and locks it. (On the EVM side of L2 the coins are swapped first,
      see `SwappedSend`.) */
  lemma CoinSend(p: Profile, ch: Chain, amount: nat, receiver: Account)
    requires |ch.core.rosters| > 0 && (p.flavour.InkL2? || (p.flavour != SolL2 && IsLocal(p, p.native)))
    ensures var r := Dispatch(p, ch, SendNative(amount, receiver));
            && (r.Some? <==>
                  && !ch.halted && receiver != ZERO_ADDRESS && amount > 0 && Spendable(ch.ledger, p.native, 0)
                  && (p.flavour.InkL2? || p.native in ch.pairs)
                  && !(p.flavour.SolL1? && ch.pairs[p.native] == NATIVE_MARKER))
            && (r.Some? ==>
                  && Shifted(ch.ledger, r.value.ledger, p.native, amount, amount)
                  && r.value.core == ch.core.(events := WithRequest(ch.core,
                       if p.flavour.InkL2? then NATIVE_MARKER else ch.pairs[p.native], Promised(p, amount), receiver))
                  && r.value.pairs == ch.pairs && r.value.halted == ch.halted)
  {
    var dest := if p.native in ch.pairs && !p.flavour.InkL2? then ch.pairs[p.native] else NATIVE_MARKER;
    DepositMoves(ch.ledger, p.native, amount, dest, Promised(p, amount));
  }

  /** The bridged AZERO that the pool paid is burned and promised in full. */
  lemma SwappedSend(p: Profile, ch: Chain, amount: nat, receiver: Account)
    requires |ch.core.rosters| > 0 && p.flavour.SolL2?
    ensures var r := Dispatch(p, ch, SendNative(amount, receiver));
            && (r.Some? <==> !ch.halted && receiver != ZERO_ADDRESS && Spendable(ch.ledger, p.native, amount))
            && (r.Some? ==>
                  && LockedOrBurned(ch.ledger, r.value.ledger, p.native, amount, false)
                  && r.value.core == ch.core.(events := WithRequest(ch.core, NATIVE_MARKER, amount, receiver))
                  && r.value.pairs == ch.pairs && r.value.halted == ch.halted)
  {
    LockingMoves(ch.ledger, p.native, amount, false, NATIVE_MARKER);
  }

  /** Sending the representation of the other chain's coin burns it and asks for the coin itself. */
  lemma ForeignSend(p: Profile, ch: Chain, amount: nat, receiver: Account)
    requires |ch.core.rosters| > 0 && (p.flavour.InkL1? || p.flavour.SolL1?)
    ensures var r := Dispatch(p, ch, SendToNative(amount, receiver));
            && (r.Some? <==> !ch.halted && receiver != ZERO_ADDRESS && amount > 0
                             && Spendable(ch.ledger, p.foreign, amount))
            && (r.Some? ==>
                  && LockedOrBurned(ch.ledger, r.value.ledger, p.foreign, amount,
                                    p.flavour.InkL1? && p.foreign in p.local)
                  && r.value.core == ch.core.(events := WithRequest(ch.core, NATIVE_MARKER, amount, receiver))
                  && r.value.pairs == ch.pairs && r.value.halted == ch.halted)
  {
    var local := p.flavour.InkL1? && p.foreign in p.local;
    LockingMoves(ch.ledger, p.foreign, amount, local, NATIVE_MARKER);
  }

  // --- payouts

  /** What a contract pays for an executed request. */
  function PaidOut(p: Profile, l: Ledger, r: Request, delivery: Delivery): Option<Ledger> {
    Pay(p, l, Incoming(p, r.token, r.amount), PaysSelf(p, r, delivery), delivery)
  }

  /** On Aleph Zero (L1) the native marker unwraps a millionth, a local token is released, any other is minted. */
  lemma InkPays(p: Profile, l: Ledger, r: Request, delivery: Delivery)
    requires p.flavour.InkL1?
    ensures var paid, self, q := PaidOut(p, l, r, delivery), r.receiver == p.self, r.amount / 1_000_000;
            if r.token == NATIVE_MARKER then
              && (paid.Some? <==> delivery.Delivered? && q <= Held(l, p.native) && q <= Supply(l, p.native))
              && (paid.Some? ==> Shifted(l, paid.value, p.native, 0 - q, 0 - q))
            else if r.token in p.local then
              && (paid.Some? <==> delivery.Delivered? && r.amount <= Held(l, r.token))
              && (paid.Some? ==> Shifted(l, paid.value, r.token, 0, if self then 0 else 0 - r.amount))
            else
              && (paid.Some? <==> delivery.Delivered?)
              && (paid.Some? ==> Shifted(l, paid.value, r.token, r.amount, if self then r.amount else 0))
  {
  }

  /** On Ethereum the native marker unwraps WETH, a local token is released, any other is minted.  A refused unwrap
      loses the coins, a refused release leaves the tokens in the bridge, a refused mint reverts. */
  lemma SolidityPays(p: Profile, l: Ledger, r: Request, delivery: Delivery)
    requires p.flavour.SolL1?
    ensures var paid, t := PaidOut(p, l, r, delivery), r.token % ADDRESS_SIZE;
            var self := r.receiver % ADDRESS_SIZE == p.self;
            if t == NATIVE_MARKER then
              && (paid.Some? <==>
                    !delivery.Reverted? && r.amount <= Held(l, p.native) && r.amount <= Supply(l, p.native))
              && (paid.Some? ==> Shifted(l, paid.value, p.native, 0 - r.amount, 0 - r.amount))
            else if t in p.local then
              && (paid.Some? <==> delivery.Refused? || (delivery.Delivered? && r.amount <= Held(l, t)))
              && (paid.Some? ==> Shifted(l, paid.value, t, 0, if delivery.Refused? || self then 0 else 0 - r.amount))
            else
              && (paid.Some? <==> delivery.Delivered?)
              && (paid.Some? ==> Shifted(l, paid.value, t, r.amount, if self then r.amount else 0))
  {
  }

  /** On Aleph Zero (L2) the native marker unwraps, and every token is released. */
  lemma InkL2Pays(p: Profile, l: Ledger, r: Request, delivery: Delivery)
    requires p.flavour.InkL2?
    ensures var paid, self := PaidOut(p, l, r, delivery), r.receiver == p.self;
            if r.token == NATIVE_MARKER then
              && (paid.Some? <==>
                    delivery.Delivered? && r.amount <= Held(l, p.native) && r.amount <= Supply(l, p.native))
              && (paid.Some? ==> Shifted(l, paid.value, p.native, 0 - r.amount, 0 - r.amount))
            else
              && (paid.Some? <==> delivery.Delivered? && r.amount <= Held(l, r.token))
              && (paid.Some? ==> Shifted(l, paid.value, r.token, 0, if self then 0 else 0 - r.amount))
  {
  }

  /** On the EVM side of L2 everything is minted.  Bridged AZERO that is swapped leaves the bridge, if the swap is
      refused it goes to the receiver; any other refused mint reverts. */
  lemma SolidityL2Pays(p: Profile, l: Ledger, r: Request, delivery: Delivery)
    requires p.flavour.SolL2?
    ensures var paid, t := PaidOut(p, l, r, delivery), r.token % ADDRESS_SIZE;
            var self := r.receiver % ADDRESS_SIZE == p.self;
            if t == NATIVE_MARKER then
              && (paid.Some? <==> !delivery.Reverted?)
              && (paid.Some? ==> Shifted(l, paid.value, p.native, r.amount,
                                         if self && delivery.Refused? then r.amount else 0))
            else
              && (delivery.Delivered? ==> paid.Some?) && (delivery.Reverted? ==> paid.None?)
              && (delivery.Refused? && t != p.native ==> paid.None?)
              && (paid.Some? ==> Shifted(l, paid.value, t, r.amount, if self then r.amount else 0))
  {
  }

  // --- votes

  /** A vote goes through exactly when the bridge is open, the voter is a member of the request's committee who has not
      signed, the hash is right and not executed, and, if the vote is the last one needed, the payout works.  Its only
      effects are the signature and, at the quorum, the execution and the payout. */
  lemma VoteMeans(p: Profile, ch: Chain, who: Account, claimed: Hash, r: Request, delivery: Delivery)
    ensures var res := Submit(p, ch, who, claimed, r, delivery);
            var signers := if claimed in ch.core.ballots then ch.core.ballots[claimed].signers else {};
            var valid := && !ch.halted && claimed == p.scheme.hash(r) && claimed !in ch.core.executed
                         && r.committee < |ch.core.rosters| && who in ch.core.rosters[r.committee].members
                         && who !in signers;
            var last := valid && |signers| + 1 >= ch.core.rosters[r.committee].threshold;
            && (res.Some? <==> valid && (last ==> PaidOut(p, ch.ledger, r, delivery).Some?))
            && (res.Some? ==>
                  && var core := res.value.core;
                  && core.ballots == ch.core.ballots[claimed := Ballot(r, signers + {who})]
                  && core.executed == (if last then ch.core.executed + {claimed} else ch.core.executed)
                  && core.log == (if last then ch.core.log + [r] else ch.core.log)
                  && core.rosters == ch.core.rosters && core.events == ch.core.events
                  && res.value.pairs == ch.pairs && res.value.halted == ch.halted
                  && Some(res.value.ledger) == if last then PaidOut(p, ch.ledger, r, delivery) else Some(ch.ledger))
  {
    var signers := if claimed in ch.core.ballots then ch.core.ballots[claimed].signers else {};
    if who !in signers {
      assert |signers + {who}| == |signers| + 1;
    }
  }
}
