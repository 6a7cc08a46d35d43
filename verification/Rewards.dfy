/** The native coins of the ink! contract: fees collected for each committee, rewards paid to its members, and
    pocket money for receivers, all kept in one account balance. */
module Rewards {
  import opened Types

  datatype Purse = Purse(balance: nat, pocket: nat, collected: map<nat, nat>, paid: map<(Account, nat), nat>)

  /** The purse together with the committees ever installed. */
  datatype Book = Book(purse: Purse, rosters: seq<seq<Account>>)

  function Collected(p: Purse, c: nat): nat { if c in p.collected then p.collected[c] else 0 }

  function Paid(p: Purse, c: nat, m: Account): nat { if (m, c) in p.paid then p.paid[(m, c)] else 0 }

  function SaturatingSub(x: nat, y: nat): nat { if x < y then 0 else x - y }

  /** `get_outstanding_member_rewards` for a committee of `size` members that `m` belongs to. */
  function Outstanding(p: Purse, size: nat, c: nat, m: Account): nat
    requires size > 0
  {
    SaturatingSub(Collected(p, c) / size, Paid(p, c, m))
  }

  // --- operations

  /** A request pays `fee` out of the coins sent along; the surplus goes back. */
  function Charge(p: Purse, c: nat, fee: nat): Purse {
    p.(balance := p.balance + fee, collected := p.collected[c := Collected(p, c) + fee])
  }

  /** `None` when the balance does not cover the reward. */
  function PayReward(p: Purse, size: nat, c: nat, m: Account, toSelf: bool): Option<Purse>
    requires size > 0
  {
    var reward := Outstanding(p, size, c, m);
    if reward == 0 then Some(p)
    else if reward > p.balance then None
    else Some(p.(balance := if toSelf then p.balance else p.balance - reward,
                 paid := p.paid[(m, c) := Paid(p, c, m) + reward]))
  }

  function Fund(p: Purse, coins: nat): Purse {
    p.(balance := p.balance + coins, pocket := p.pocket + coins)
  }

  /** `current_pocket_money_value`, whose product wraps around in 128 bits. */
  function PocketMoneyValue(p: Purse, price: Option<nat>, gasUsage: nat, maximum: nat): (value: nat)
    ensures value <= p.pocket
  {
    if price.None? then 0
    else
      var product := (gasUsage * price.value) % U128_SIZE * 3 % U128_SIZE / 4;
      var capped := if product < maximum then product else maximum;
      if capped < p.pocket then capped else p.pocket
  }

  /** `send_pocket_money`: nothing happens when there is nothing to send or the transfer fails. */
  function GivePocketMoney(p: Purse, value: nat, toSelf: bool, ok: bool): Purse {
    if value == 0 || p.pocket < value || !ok || p.balance < value then p
    else p.(balance := if toSelf then p.balance else p.balance - value, pocket := p.pocket - value)
  }

  // --- what the operations do to each account, exactly

  /** Only the fees of committee `c` change, by `fee`, together with the balance. */
  ghost predicate FeeKept(p: Purse, p': Purse, c: nat, fee: nat) {
    && p'.balance == p.balance + fee && p'.pocket == p.pocket && p'.paid == p.paid
    && Collected(p', c) == Collected(p, c) + fee
    && forall k | k != c :: Collected(p', k) == Collected(p, k)
  }

  lemma ChargeIs(p: Purse, c: nat, fee: nat)
    ensures FeeKept(p, Charge(p, c, fee), c, fee)
  {
  }

  /** Only the total of member `m` of committee `c` changes; the balance falls by as much, unless the coins went to the
      contract itself. */
  ghost predicate RewardPaid(p: Purse, p': Purse, c: nat, m: Account, toSelf: bool) {
    && Paid(p, c, m) <= Paid(p', c, m)
    && p.balance - p'.balance == (if toSelf then 0 else Paid(p', c, m) - Paid(p, c, m))
    && (forall x, k | x != m || k != c :: Paid(p', k, x) == Paid(p, k, x))
    && p'.pocket == p.pocket && p'.collected == p.collected
  }

  /** A payout goes through exactly when the balance covers what is outstanding, and pays exactly that. */
  lemma PayoutIs(p: Purse, size: nat, c: nat, m: Account, toSelf: bool)
    requires size > 0
    ensures var r, share := PayReward(p, size, c, m, toSelf), Collected(p, c) / size;
            && (r.Some? <==> share <= Paid(p, c, m) + p.balance)
            && (r.Some? ==>
                  && RewardPaid(p, r.value, c, m, toSelf)
                  && Paid(r.value, c, m) == if share < Paid(p, c, m) then Paid(p, c, m) else share)
  {
  }

  lemma FundIs(p: Purse, coins: nat)
    ensures var p' := Fund(p, coins);
            && p'.balance == p.balance + coins && p'.pocket == p.pocket + coins
            && p'.collected == p.collected && p'.paid == p.paid
  {
  }

  /** Without an oracle price there is no pocket money; otherwise it is three quarters of the price of the gas, rounded
      down, or the maximum, or all the pocket money there is, whichever is least.  A product of 2^128 or more loses its
      high bits, so it counts for less. */
  lemma PocketMoneyIs(p: Purse, price: Option<nat>, gasUsage: nat, maximum: nat)
    ensures var value := PocketMoneyValue(p, price, gasUsage, maximum);
            && (price.None? ==> value == 0)
            && value <= p.pocket && (price.Some? ==> value <= maximum && 4 * value < U128_SIZE)
            && (price.Some? && gasUsage * price.value * 3 < U128_SIZE ==>
                  && 4 * value <= gasUsage * price.value * 3
                  && (value == p.pocket || value == maximum || gasUsage * price.value * 3 < 4 * value + 4))
  {
    if price.Some? {
      NoWrap(gasUsage * price.value);
    }
  }

  lemma NoWrap(work: nat)
    ensures work % U128_SIZE * 3 % U128_SIZE < U128_SIZE
    ensures work * 3 < U128_SIZE ==> work % U128_SIZE * 3 % U128_SIZE == work * 3
  {
  }

  /** Pocket money is given exactly when there is some to give, it fits in the pocket money and the balance, and the
      transfer works. */
  lemma GivingIs(p: Purse, value: nat, toSelf: bool, ok: bool)
    ensures var p' := GivePocketMoney(p, value, toSelf, ok);
            && p'.collected == p.collected && p'.paid == p.paid
            && if 0 < value <= p.pocket && value <= p.balance && ok
               then p'.pocket == p.pocket - value && p'.balance == p.balance - if toSelf then 0 else value
               else p' == p
  {
  }

  // --- what the contract owes

  function PaidTo(p: Purse, c: nat, members: seq<Account>): nat {
    if members == [] then 0 else Paid(p, c, members[0]) + PaidTo(p, c, members[1..])
  }

  /** Fees collected by committees `0..n` and not yet paid to their members. */
  function Owed(b: Book, n: nat): int
    requires n <= |b.rosters|
  {
    if n == 0 then 0
    else Owed(b, n - 1) + Collected(b.purse, n - 1) - PaidTo(b.purse, n - 1, b.rosters[n - 1])
  }

  /** Every member's paid total is at most an equal share of its committee's fees. */
  ghost predicate WithinShares(b: Book) {
    && (forall c | c in b.purse.collected :: c < |b.rosters|)
    && (forall m, c | (m, c) in b.purse.paid ::
          && c < |b.rosters| && m in b.rosters[c]
          && b.purse.paid[(m, c)] <= Collected(b.purse, c) / |b.rosters[c]|)
    && (forall c | 0 <= c < |b.rosters| :: Distinct(b.rosters[c]))
  }

  ghost predicate Solvent(b: Book) {
    b.purse.balance >= b.purse.pocket + Owed(b, |b.rosters|)
  }

  ghost predicate Sound(b: Book) { WithinShares(b) && Solvent(b) }

  // --- reward split

  lemma {:induction false} PaidToBound(p: Purse, c: nat, members: seq<Account>, share: nat)
    requires forall i | 0 <= i < |members| :: Paid(p, c, members[i]) <= share
    ensures PaidTo(p, c, members) <= |members| * share
  {
    if members != [] {
      PaidToBound(p, c, members[1..], share);
      assert |members| * share == share + (|members| - 1) * share;
    }
  }

  lemma FloorShare(total: nat, n: nat)
    requires n > 0
    ensures total == n * (total / n) + total % n
    ensures n * (total / n) <= total && total % n < n
  {
  }

  /** Nobody has been paid more than a share, so the saturating subtraction never saturates. */
  lemma PaidWithinShare(b: Book, c: nat, m: Account)
    requires WithinShares(b) && c < |b.rosters| && m in b.rosters[c]
    ensures Paid(b.purse, c, m) <= Collected(b.purse, c) / |b.rosters[c]|
    ensures Outstanding(b.purse, |b.rosters[c]|, c, m)
            == Collected(b.purse, c) / |b.rosters[c]| - Paid(b.purse, c, m)
  {
    FloorShare(Collected(b.purse, c), |b.rosters[c]|);
  }

  /** The payouts of a committee sum to at most the fees it collected. */
  lemma CommitteePaidWithinFees(b: Book, c: nat)
    requires WithinShares(b) && c < |b.rosters|
    ensures PaidTo(b.purse, c, b.rosters[c]) <= Collected(b.purse, c)
  {
    var members := b.rosters[c];
    if members != [] {
      var share := Collected(b.purse, c) / |members|;
      forall i | 0 <= i < |members| ensures Paid(b.purse, c, members[i]) <= share {
        PaidWithinShare(b, c, members[i]);
      }
      PaidToBound(b.purse, c, members, share);
      FloorShare(Collected(b.purse, c), |members|);
    }
  }

  lemma {:induction false} EqualShares(p: Purse, c: nat, members: seq<Account>, share: nat)
    requires forall i | 0 <= i < |members| :: Paid(p, c, members[i]) == share
    ensures PaidTo(p, c, members) == |members| * share
  {
    if members != [] {
      EqualShares(p, c, members[1..], share);
      assert |members| * share == share + (|members| - 1) * share;
    }
  }

  /** Once no member has anything outstanding, less than one coin per member is left over. */
  lemma LeftoverBelowSize(b: Book, c: nat)
    requires WithinShares(b) && c < |b.rosters| && b.rosters[c] != []
    requires forall m | m in b.rosters[c] :: Outstanding(b.purse, |b.rosters[c]|, c, m) == 0
    ensures 0 <= Collected(b.purse, c) - PaidTo(b.purse, c, b.rosters[c]) < |b.rosters[c]|
  {
    var members := b.rosters[c];
    var share := Collected(b.purse, c) / |members|;
    forall i | 0 <= i < |members| ensures Paid(b.purse, c, members[i]) == share {
      PaidWithinShare(b, c, members[i]);
    }
    EqualShares(b.purse, c, members, share);
    FloorShare(Collected(b.purse, c), |members|);
  }

  // --- frame lemmas for the sums

  lemma {:induction false} PaidToFrame(p: Purse, p': Purse, c: nat, members: seq<Account>)
    requires forall i | 0 <= i < |members| :: Paid(p, c, members[i]) == Paid(p', c, members[i])
    ensures PaidTo(p, c, members) == PaidTo(p', c, members)
  {
    if members != [] {
      PaidToFrame(p, p', c, members[1..]);
    }
  }

  lemma {:induction false} OwedFrame(b: Book, b': Book, n: nat)
    requires n <= |b.rosters| && b.rosters <= b'.rosters && b.purse.paid == b'.purse.paid
    requires forall c | 0 <= c < n :: Collected(b.purse, c) == Collected(b'.purse, c)
    ensures Owed(b, n) == Owed(b', n)
  {
    if n > 0 {
      OwedFrame(b, b', n - 1);
      PaidToFrame(b.purse, b'.purse, n - 1, b.rosters[n - 1]);
    }
  }

  lemma {:induction false} OwedCharge(b: Book, c: nat, fee: nat, n: nat)
    requires c < |b.rosters| && n <= |b.rosters|
    ensures Owed(b.(purse := Charge(b.purse, c, fee)), n) == Owed(b, n) + if c < n then fee else 0
  {
    if n > 0 {
      OwedCharge(b, c, fee, n - 1);
      PaidToFrame(b.purse, Charge(b.purse, c, fee), n - 1, b.rosters[n - 1]);
    }
  }

  /** Paying one member of a duplicate-free list raises the list's total by exactly that reward. */
  lemma {:induction false} PaidToPayout(p: Purse, p': Purse, c: nat, m: Account, reward: nat, members: seq<Account>)
    requires Distinct(members) && p'.paid == p.paid[(m, c) := Paid(p, c, m) + reward]
    ensures PaidTo(p', c, members) == PaidTo(p, c, members) + if m in members then reward else 0
  {
    if members != [] {
      PaidToPayout(p, p', c, m, reward, members[1..]);
      if members[0] == m {
        forall i | 0 <= i < |members| - 1 ensures members[1..][i] != m {
          assert members[1..][i] == members[i + 1];
        }
      }
    }
  }

  lemma {:induction false} OwedPayout(b: Book, b': Book, c: nat, m: Account, reward: nat, n: nat)
    requires WithinShares(b) && c < |b.rosters| && m in b.rosters[c] && n <= |b.rosters| && b'.rosters == b.rosters
    requires b'.purse.collected == b.purse.collected
    requires b'.purse.paid == b.purse.paid[(m, c) := Paid(b.purse, c, m) + reward]
    ensures Owed(b', n) == Owed(b, n) - if c < n then reward else 0
  {
    if n > 0 {
      OwedPayout(b, b', c, m, reward, n - 1);
      if n - 1 == c {
        PaidToPayout(b.purse, b'.purse, c, m, reward, b.rosters[c]);
      } else {
        PaidToFrame(b.purse, b'.purse, n - 1, b.rosters[n - 1]);
      }
    }
  }

  /** The debt to one committee member is part of the whole debt. */
  lemma {:induction false} OwedCovers(b: Book, c: nat, n: nat)
    requires WithinShares(b) && c < n <= |b.rosters|
    ensures Collected(b.purse, c) - PaidTo(b.purse, c, b.rosters[c]) <= Owed(b, n)
    decreases n
  {
    CommitteePaidWithinFees(b, n - 1);
    if c < n - 1 {
      OwedCovers(b, c, n - 1);
    } else {
      OwedNonNegative(b, c);
    }
  }

  lemma {:induction false} OwedNonNegative(b: Book, n: nat)
    requires WithinShares(b) && n <= |b.rosters|
    ensures Owed(b, n) >= 0
  {
    if n > 0 {
      OwedNonNegative(b, n - 1);
      CommitteePaidWithinFees(b, n - 1);
    }
  }

  // --- what every operation keeps

  lemma ChargeKeeps(b: Book, c: nat, fee: nat)
    requires Sound(b) && c < |b.rosters|
    ensures Sound(b.(purse := Charge(b.purse, c, fee)))
  {
    var b' := b.(purse := Charge(b.purse, c, fee));
    OwedCharge(b, c, fee, |b.rosters|);
    forall m, k | (m, k) in b'.purse.paid
      ensures b'.purse.paid[(m, k)] <= Collected(b'.purse, k) / |b'.rosters[k]|
    {
      ShareGrows(Collected(b.purse, k), Collected(b'.purse, k), |b.rosters[k]|);
    }
  }

  lemma ShareGrows(x: nat, y: nat, n: nat)
    requires x <= y && n > 0
    ensures x / n <= y / n
  {
    FloorShare(x, n);
    FloorShare(y, n);
    Multiples(n, x / n, y / n, y % n);
  }

  lemma Multiples(n: nat, p: nat, q: nat, r: nat)
    requires r < n && n * p <= n * q + r
    ensures p <= q
  {
    if p > q {
      MultipleGap(n, p, q);
    }
  }

  lemma {:induction false} MultipleGap(n: nat, p: nat, q: nat)
    requires p > q
    ensures n * p >= n * q + n
    decreases p
  {
    assert n * p == n * (p - 1) + n;
    if p - 1 > q {
      MultipleGap(n, p - 1, q);
    }
  }

  /** A member who asks is always paid: the balance covers it, and afterwards the member has received exactly an
      equal share of all fees so far, whatever was paid before. */
  lemma PayoutExact(b: Book, c: nat, m: Account, toSelf: bool)
    requires Sound(b) && c < |b.rosters| && m in b.rosters[c]
    ensures var r := PayReward(b.purse, |b.rosters[c]|, c, m, toSelf);
            && r.Some? && Sound(b.(purse := r.value))
            && Paid(r.value, c, m) == Collected(b.purse, c) / |b.rosters[c]|
            && RewardPaid(b.purse, r.value, c, m, toSelf)
  {
    PayoutIs(b.purse, |b.rosters[c]|, c, m, toSelf);
    var reward := Outstanding(b.purse, |b.rosters[c]|, c, m);
    PaidWithinShare(b, c, m);
    if reward > 0 {
      RewardIsOwed(b, c, m);
      var p' := b.purse.(paid := b.purse.paid[(m, c) := Paid(b.purse, c, m) + reward],
                         balance := if toSelf then b.purse.balance else b.purse.balance - reward);
      OwedPayout(b, b.(purse := p'), c, m, reward, |b.rosters|);
    }
  }

  lemma RewardIsOwed(b: Book, c: nat, m: Account)
    requires Sound(b) && c < |b.rosters| && m in b.rosters[c]
    ensures Outstanding(b.purse, |b.rosters[c]|, c, m) + b.purse.pocket <= b.purse.balance
  {
    var members := b.rosters[c];
    var share := Collected(b.purse, c) / |members|;
    var reward := Outstanding(b.purse, |members|, c, m);
    PaidWithinShare(b, c, m);
    var p' := b.purse.(paid := b.purse.paid[(m, c) := Paid(b.purse, c, m) + reward]);
    PaidToPayout(b.purse, p', c, m, reward, members);
    forall i | 0 <= i < |members| ensures Paid(p', c, members[i]) <= share {
      PaidWithinShare(b, c, members[i]);
    }
    PaidToBound(p', c, members, share);
    FloorShare(Collected(b.purse, c), |members|);
    OwedCovers(b, c, |b.rosters|);
  }

  lemma FundKeeps(b: Book, coins: nat)
    requires Sound(b)
    ensures Sound(b.(purse := Fund(b.purse, coins)))
  {
    OwedFrame(b, b.(purse := Fund(b.purse, coins)), |b.rosters|);
  }

  /** Pocket money never touches the rewards, whatever the oracle said. */
  lemma PocketMoneyKeeps(b: Book, value: nat, toSelf: bool, ok: bool)
    requires Sound(b)
    ensures var p' := GivePocketMoney(b.purse, value, toSelf, ok);
            && Sound(b.(purse := p'))
            && p'.collected == b.purse.collected && p'.paid == b.purse.paid
            && b.purse.pocket - p'.pocket >= b.purse.balance - p'.balance >= 0
  {
    OwedFrame(b, b.(purse := GivePocketMoney(b.purse, value, toSelf, ok)), |b.rosters|);
  }

  lemma RotateKeeps(b: Book, members: seq<Account>)
    requires Sound(b) && Distinct(members)
    ensures Sound(b.(rosters := b.rosters + [members]))
  {
    var b' := b.(rosters := b.rosters + [members]);
    var n := |b.rosters|;
    OwedFrame(b, b', n);
    assert PaidTo(b.purse, n, members) == 0 by {
      forall i | 0 <= i < |members| ensures Paid(b.purse, n, members[i]) == 0 {
        if (members[i], n) in b.purse.paid { assert false; }
      }
      EqualShares(b.purse, n, members, 0);
    }
    if n in b.purse.collected { assert false; }
    assert Owed(b', n + 1) == Owed(b', n) + Collected(b.purse, n) - PaidTo(b.purse, n, members);
  }

  lemma GiftKeeps(b: Book, coins: nat)
    requires Sound(b)
    ensures Sound(b.(purse := b.purse.(balance := b.purse.balance + coins)))
  {
    OwedFrame(b, b.(purse := b.purse.(balance := b.purse.balance + coins)), |b.rosters|);
  }

  // --- every run

  datatype PurseStep =
    | DoCharge(fee: nat)
    | DoPayout(committee: nat, member: Account, toSelf: bool)
    | DoFund(coins: nat)
    | DoPocketMoney(price: Option<nat>, gasUsage: nat, maximum: nat, toSelf: bool, ok: bool)
    | DoRotate(members: seq<Account>)
    | DoReceive(coins: nat)

  ghost function Step(b: Book, step: PurseStep): Book {
    match step
    case DoCharge(fee) => if b.rosters == [] then b else b.(purse := Charge(b.purse, |b.rosters| - 1, fee))
    case DoPayout(c, m, toSelf) =>
      if c < |b.rosters| && m in b.rosters[c] && PayReward(b.purse, |b.rosters[c]|, c, m, toSelf).Some?
      then b.(purse := PayReward(b.purse, |b.rosters[c]|, c, m, toSelf).value) else b
    case DoFund(coins) => b.(purse := Fund(b.purse, coins))
    case DoPocketMoney(price, gasUsage, maximum, toSelf, ok) =>
      b.(purse := GivePocketMoney(b.purse, PocketMoneyValue(b.purse, price, gasUsage, maximum), toSelf, ok))
    case DoRotate(members) => if Distinct(members) then b.(rosters := b.rosters + [members]) else b
    case DoReceive(coins) => b.(purse := b.purse.(balance := b.purse.balance + coins))
  }

  /** What each step of a run does to the accounts. */
  lemma StepIs(b: Book, step: PurseStep)
    requires Sound(b)
    ensures var u := Step(b, step);
            match step
            case DoCharge(fee) =>
              && u.rosters == b.rosters
              && if b.rosters == [] then u == b else FeeKept(b.purse, u.purse, |b.rosters| - 1, fee)
            case DoPayout(c, m, toSelf) =>
              && u.rosters == b.rosters
              && if c < |b.rosters| && m in b.rosters[c]
                 then && RewardPaid(b.purse, u.purse, c, m, toSelf)
                      && Paid(u.purse, c, m) == Collected(b.purse, c) / |b.rosters[c]|
                 else u == b
            case DoFund(coins) =>
              u == b.(purse := b.purse.(balance := b.purse.balance + coins, pocket := b.purse.pocket + coins))
            case DoPocketMoney(price, gasUsage, maximum, toSelf, ok) =>
              && u.rosters == b.rosters && u.purse.collected == b.purse.collected && u.purse.paid == b.purse.paid
              && b.purse.balance - u.purse.balance == (if toSelf then 0 else b.purse.pocket - u.purse.pocket)
              && b.purse.pocket - u.purse.pocket
                 == if ok then PocketMoneyValue(b.purse, price, gasUsage, maximum) else 0
            case DoRotate(members) => u == b.(rosters := if Distinct(members) then b.rosters + [members] else b.rosters)
            case DoReceive(coins) => u == b.(purse := b.purse.(balance := b.purse.balance + coins))
  {
    match step
    case DoCharge(fee) => if b.rosters != [] { ChargeIs(b.purse, |b.rosters| - 1, fee); }
    case DoPayout(c, m, toSelf) => if c < |b.rosters| && m in b.rosters[c] { PayoutExact(b, c, m, toSelf); }
    case DoPocketMoney(price, gasUsage, maximum, toSelf, ok) =>
      OwedNonNegative(b, |b.rosters|);
      GivingIs(b.purse, PocketMoneyValue(b.purse, price, gasUsage, maximum), toSelf, ok);
    case _ =>
  }

  lemma RunPurseSnoc(b: Book, steps: seq<PurseStep>, step: PurseStep)
    ensures RunPurse(b, []) == b && RunPurse(b, steps + [step]) == Step(RunPurse(b, steps), step)
  {
    assert (steps + [step])[..|steps|] == steps;
  }

  ghost function RunPurse(b: Book, steps: seq<PurseStep>): Book
    decreases |steps|
  {
    if steps == [] then b else Step(RunPurse(b, steps[..|steps| - 1]), steps[|steps| - 1])
  }

  /** Solvency: in every interleaving of fees, payouts, rotations, pocket money and gifts, the balance covers the
      pocket money and every committee's unpaid fees, and no member is ever paid more than a share. */
  lemma {:induction false} AlwaysSolvent(b: Book, steps: seq<PurseStep>)
    requires Sound(b)
    ensures Sound(RunPurse(b, steps))
    decreases |steps|
  {
    if steps != [] {
      var u := RunPurse(b, steps[..|steps| - 1]);
      AlwaysSolvent(b, steps[..|steps| - 1]);
      match steps[|steps| - 1]
      case DoCharge(fee) => if u.rosters != [] { ChargeKeeps(u, |u.rosters| - 1, fee); }
      case DoPayout(c, m, toSelf) =>
        if c < |u.rosters| && m in u.rosters[c] { PayoutExact(u, c, m, toSelf); }
      case DoFund(coins) => FundKeeps(u, coins);
      case DoPocketMoney(price, gasUsage, maximum, toSelf, ok) =>
        PocketMoneyKeeps(u, PocketMoneyValue(u.purse, price, gasUsage, maximum), toSelf, ok);
      case DoRotate(members) => if Distinct(members) { RotateKeeps(u, members); }
      case DoReceive(coins) => GiftKeeps(u, coins);
    }
  }
}
