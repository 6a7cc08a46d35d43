/** How the four bridge contracts move tokens: what a request to send takes in and promises, what an
    incoming request pays out, and the effect of both on the token ledger of the contract's chain. */
module Treasury {
  import opened Types
  import opened Collector

  /** Total supply of each token and the part of it held by the bridge contract.  Tokens move exactly the
      requested amount or the call fails; everything not held by the bridge belongs to somebody else. */
  datatype Ledger = Ledger(supply: map<Token, nat>, held: map<Token, nat>)

  function Supply(l: Ledger, t: Token): nat { if t in l.supply then l.supply[t] else 0 }
  function Held(l: Ledger, t: Token): nat { if t in l.held then l.held[t] else 0 }

  /** The bridge holds no more of a token than there is. */
  ghost predicate Covered(l: Ledger) {
    forall t :: Held(l, t) <= Supply(l, t)
  }

  function Update(l: Ledger, t: Token, supply: nat, held: nat): Ledger {
    Ledger(l.supply[t := supply], l.held[t := held])
  }

  /** ink! `Most`, Solidity `Most`, ink! `MostL2`, Solidity `MostL2`. */
  datatype Flavour = InkL1 | SolL1 | InkL2 | SolL2

  /** `native` is the token that stands for the chain's own coin (wAZERO, WETH, wAZERO, bridged AZERO);
      `foreign` is the representation of the other chain's coin (wETH on Aleph Zero, AZERO on Ethereum). */
  datatype Profile = Profile(flavour: Flavour, scheme: Scheme, faulty: set<Account>, self: Account,
                             native: Token, foreign: Token, local: set<Token>)

  predicate IsLocal(p: Profile, t: Token) {
    match p.flavour
    case InkL2 => true
    case SolL2 => false
    case _ => t in p.local
  }

  predicate IsSolidity(p: Profile) { p.flavour.SolL1? || p.flavour.SolL2? }

  /** Solidity keeps the low 20 bytes of a 32-byte word as an address. */
  function AddressOf(p: Profile, word: nat): nat {
    if IsSolidity(p) then word % ADDRESS_SIZE else word
  }

  // --- sending

  /** `SendNative` on `SolL2` carries the bridged AZERO that the pool paid for the native coins. */
  datatype Send =
    | SendToken(token: Token, amount: nat, receiver: Account)
    | SendNative(amount: nat, receiver: Account)
    | SendToNative(amount: nat, receiver: Account)

  /** Wrap `deposit` native coins into `token`, pull `pull` tokens from the caller, burn `burn` of the
      contract's tokens, and emit a request for `amount` of `dest`. */
  datatype Transfer = Transfer(token: Token, deposit: nat, pull: nat, burn: nat, dest: Token, amount: nat)

  function SaturatingScale(amount: nat): nat {
    if amount * RATIO < U128_SIZE then amount * RATIO else U128_SIZE - 1
  }

  function Locking(p: Profile, token: Token, amount: nat, dest: Token): Transfer {
    Transfer(token, 0, amount, if IsLocal(p, token) then 0 else amount, dest, amount)
  }

  function Outgoing(p: Profile, pairs: map<Token, Token>, send: Send): Option<Transfer> {
    match send
    case SendToken(token, amount, _) =>
      if token !in pairs || amount == 0 then None
      else if p.flavour.InkL1? && token == p.native then None
      else if IsSolidity(p) && pairs[token] == NATIVE_MARKER then None
      else Some(Locking(p, AddressOf(p, token), amount, pairs[token]))
    case SendNative(amount, _) => OutgoingNative(p, pairs, amount)
    case SendToNative(amount, _) =>
      if amount == 0 || p.flavour.InkL2? || p.flavour.SolL2? then None
      else if p.flavour.SolL1? then Some(Transfer(p.foreign, 0, amount, amount, NATIVE_MARKER, amount))
      else Some(Locking(p, p.foreign, amount, NATIVE_MARKER))
  }

  function OutgoingNative(p: Profile, pairs: map<Token, Token>, amount: nat): Option<Transfer> {
    match p.flavour
    case InkL1 =>
      var scaled := SaturatingScale(amount);
      if amount == 0 || p.native !in pairs then None
      else if IsLocal(p, p.native) then Some(Transfer(p.native, amount, 0, 0, pairs[p.native], scaled))
      else Some(Transfer(p.native, amount, scaled, scaled, pairs[p.native], scaled))
    case SolL1 =>
      if amount == 0 || p.native !in pairs || pairs[p.native] == NATIVE_MARKER then None
      else Some(Transfer(p.native, amount, 0, 0, pairs[p.native], amount))
    case InkL2 =>
      if amount == 0 then None else Some(Transfer(p.native, amount, 0, 0, NATIVE_MARKER, amount))
    case SolL2 => Some(Transfer(p.native, 0, amount, amount, NATIVE_MARKER, amount))
  }

  predicate Payable(l: Ledger, t: Transfer) {
    && t.pull + Held(l, t.token) <= Supply(l, t.token)
    && t.burn <= Held(l, t.token) + t.deposit + t.pull
  }

  /** Wrapping the deposit and pulling the caller's tokens. */
  function TakeIn(l: Ledger, t: Transfer): Ledger {
    Update(l, t.token, Supply(l, t.token) + t.deposit, Held(l, t.token) + t.deposit + t.pull)
  }

  function Burn(l: Ledger, t: Transfer): Ledger
    requires t.burn <= Held(l, t.token) && t.burn <= Supply(l, t.token)
  {
    Update(l, t.token, Supply(l, t.token) - t.burn, Held(l, t.token) - t.burn)
  }

  function Collect(l: Ledger, t: Transfer): Ledger
    requires Payable(l, t)
  {
    Burn(TakeIn(l, t), t)
  }

  // --- receiving

  /** Unwrap native coins out of the wrapped token, release held tokens, or mint. */
  datatype Payment = Unwrap(token: Token, qty: nat) | Release(token: Token, qty: nat) | Mint(token: Token, qty: nat)

  function Incoming(p: Profile, dest: Token, amount: nat): Payment {
    var address := AddressOf(p, dest);
    if address == NATIVE_MARKER then
      match p.flavour
      case InkL1 => Unwrap(p.native, amount / RATIO)
      case SolL2 => Mint(p.native, amount)
      case _ => Unwrap(p.native, amount)
    else if IsLocal(p, address) then Release(address, amount)
    else Mint(address, amount)
  }

  /** How the outside world answers the payout call.  `Refused`: a call failed without reverting the whole message.
      Solidity `Most` tolerates that of the call to the receiver or to a local token, Solidity `MostL2` of the swap of
      freshly minted bridged AZERO, which then goes to the receiver as it is. */
  datatype Delivery = Delivered | Refused | Reverted

  predicate Tolerates(p: Profile, pay: Payment) {
    match p.flavour
    case SolL1 => !pay.Mint?
    case SolL2 => pay.Mint? && pay.token == p.native
    case _ => false
  }

  /** The tokens paid out end up with the bridge itself: it is the receiver, and they are not swapped away. */
  predicate PaysSelf(p: Profile, request: Request, delivery: Delivery) {
    && AddressOf(p, request.receiver) == p.self
    && !(p.flavour.SolL2? && AddressOf(p, request.token) == NATIVE_MARKER && delivery.Delivered?)
  }

  function Pay(p: Profile, l: Ledger, pay: Payment, toSelf: bool, delivery: Delivery): Option<Ledger> {
    if delivery.Reverted? || (delivery.Refused? && !Tolerates(p, pay)) then None
    else match pay
      case Mint(t, q) => Some(Update(l, t, Supply(l, t) + q, Held(l, t) + if toSelf then q else 0))
      case Release(t, q) =>
        if delivery.Refused? then Some(l)
        else if q > Held(l, t) then None
        else Some(Update(l, t, Supply(l, t), Held(l, t) - if toSelf then 0 else q))
      case Unwrap(t, q) =>
        if q > Held(l, t) || q > Supply(l, t) then None
        else Some(Update(l, t, Supply(l, t) - q, Held(l, t) - q))
  }

  // --- one contract on its chain

  datatype Chain = Chain(core: Core, ledger: Ledger, pairs: map<Token, Token>, halted: bool)

  /** A send entry point: `None` when the call fails. */
  function Dispatch(p: Profile, ch: Chain, send: Send): Option<Chain>
    requires |ch.core.rosters| > 0
  {
    if ch.halted || send.receiver == ZERO_ADDRESS then None
    else match Outgoing(p, ch.pairs, send)
      case None => None
      case Some(t) =>
        if !Payable(ch.ledger, t) then None
        else Some(ch.(core := EmitEvent(ch.core, t.dest, t.amount, send.receiver), ledger := Collect(ch.ledger, t)))
  }

  /** `receive_request`: `None` when the call fails; a vote that is not needed changes nothing. */
  function Submit(p: Profile, ch: Chain, who: Account, claimed: Hash, request: Request,
                  delivery: Delivery): Option<Chain>
  {
    if ch.halted || !Accepts(p.scheme.hash, ch.core, claimed, request, who) then None
    else if !ReachesQuorum(ch.core, claimed, request, who) then
      Some(ch.(core := Cast(ch.core, claimed, request, who)))
    else
      match Pay(p, ch.ledger, Incoming(p, request.token, request.amount), PaysSelf(p, request, delivery), delivery)
      case None => None
      case Some(l) => Some(ch.(core := Cast(ch.core, claimed, request, who), ledger := l))
  }
}
