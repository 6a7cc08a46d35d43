/** The base fee of a cross-chain request, computed from a gas price oracle that may say anything. */
module Fees {
  import opened Types

  datatype GasConfig = GasConfig(relayGas: nat, minPrice: nat, maxPrice: nat, defaultPrice: nat, maxAge: nat,
                                 buffer: nat)

  /** Price and timestamp, or `None` when there is no oracle or the call to it fails. */
  type Answer = Option<(nat, nat)>

  /** `get_gas_price_with_limits`; the sum of the two 64-bit times wraps around. */
  function GasPrice(cfg: GasConfig, answer: Answer, now: nat): nat {
    match answer
    case None => cfg.defaultPrice
    case Some((price, timestamp)) =>
      if (timestamp + cfg.maxAge) % U64_SIZE < now then cfg.defaultPrice
      else if price < cfg.minPrice then cfg.minPrice
      else if price > cfg.maxPrice then cfg.maxPrice
      else price
  }

  /** Checked 128-bit arithmetic, except for the sum `100 + buffer`, which wraps around. */
  function FeeAt(cfg: GasConfig, price: nat): Option<nat> {
    var gas := price * cfg.relayGas;
    var fee := gas * ((100 + cfg.buffer) % U128_SIZE);
    if gas >= U128_SIZE || fee >= U128_SIZE then None else Some(fee / 100)
  }

  function BaseFee(cfg: GasConfig, answer: Answer, now: nat): Option<nat> {
    FeeAt(cfg, GasPrice(cfg, answer, now))
  }

  /** The limits bind the price for every oracle exactly when they are ordered around the default price. */
  lemma PriceWithinLimitsIff(cfg: GasConfig)
    ensures (forall answer: Answer, now :: cfg.minPrice <= GasPrice(cfg, answer, now) <= cfg.maxPrice)
            <==> cfg.minPrice <= cfg.defaultPrice <= cfg.maxPrice
  {
    var silent: Answer := None;
    assert GasPrice(cfg, silent, 0) == cfg.defaultPrice;
  }

  lemma ProductGrows(x: nat, y: nat, k: nat)
    requires x <= y
    ensures x * k <= y * k
  {
  }

  lemma FeeGrows(cfg: GasConfig, price: nat, price': nat)
    requires price <= price' && FeeAt(cfg, price').Some?
    ensures FeeAt(cfg, price).Some? && FeeAt(cfg, price).value <= FeeAt(cfg, price').value
  {
    ProductGrows(price, price', cfg.relayGas);
    ProductGrows(price * cfg.relayGas, price' * cfg.relayGas, (100 + cfg.buffer) % U128_SIZE);
  }

  /** Whatever the oracle answers, and however stale or wrapped its timestamp, the fee is computed without error and
      lies between the fees at the minimum and the maximum price. */
  lemma FeeWithinLimits(cfg: GasConfig, answer: Answer, now: nat)
    requires cfg.minPrice <= cfg.defaultPrice <= cfg.maxPrice && FeeAt(cfg, cfg.maxPrice).Some?
    ensures FeeAt(cfg, cfg.minPrice).Some? && BaseFee(cfg, answer, now).Some?
    ensures FeeAt(cfg, cfg.minPrice).value <= BaseFee(cfg, answer, now).value <= FeeAt(cfg, cfg.maxPrice).value
  {
    var price := GasPrice(cfg, answer, now);
    FeeGrows(cfg, price, cfg.maxPrice);
    FeeGrows(cfg, cfg.minPrice, price);
  }

  // --- the exact price and fee

  /** Oracle prices are used as long as they are fresh, clamped to the limits; an answer that is missing or older than
      `maxAge` gives the default.  A deadline past 2^64 counts as 2^64 less. */
  ghost predicate PriceApplies(cfg: GasConfig, answer: Answer, now: nat, price: nat) {
    match answer
    case None => price == cfg.defaultPrice
    case Some((quoted, timestamp)) =>
      var deadline := timestamp + cfg.maxAge - if timestamp + cfg.maxAge < U64_SIZE then 0 else U64_SIZE;
      if now > deadline then price == cfg.defaultPrice
      else
        && (cfg.minPrice <= quoted <= cfg.maxPrice ==> price == quoted)
        && (quoted < cfg.minPrice ==> price == cfg.minPrice)
        && (quoted >= cfg.minPrice && quoted > cfg.maxPrice ==> price == cfg.maxPrice)
  }

  lemma PriceIs(cfg: GasConfig, answer: Answer, now: nat, price: nat)
    requires cfg.maxAge < U64_SIZE && (answer.Some? ==> answer.value.1 < U64_SIZE)
    ensures GasPrice(cfg, answer, now) == price <==> PriceApplies(cfg, answer, now, price)
  {
    if answer.Some? {
      var sum := answer.value.1 + cfg.maxAge;
      assert sum % U64_SIZE == if sum < U64_SIZE then sum else sum - U64_SIZE by {
        if sum >= U64_SIZE {
          assert sum == 1 * U64_SIZE + (sum - U64_SIZE);
        }
      }
    }
  }

  /** The fee is the price of the relayer's gas plus the buffer percentage, rounded down; it is missing only when a
      product does not fit in 128 bits. */
  lemma FeeIs(cfg: GasConfig, answer: Answer, now: nat, price: nat)
    requires cfg.maxAge < U64_SIZE && (answer.Some? ==> answer.value.1 < U64_SIZE) && 100 + cfg.buffer < U128_SIZE
    requires PriceApplies(cfg, answer, now, price)
    ensures var work := price * cfg.relayGas * (100 + cfg.buffer);
            && (BaseFee(cfg, answer, now).Some? <==> price * cfg.relayGas < U128_SIZE && work < U128_SIZE)
            && (BaseFee(cfg, answer, now).Some? ==>
                  100 * BaseFee(cfg, answer, now).value <= work < 100 * BaseFee(cfg, answer, now).value + 100)
  {
    PriceIs(cfg, answer, now, price);
    assert (100 + cfg.buffer) % U128_SIZE == 100 + cfg.buffer;
  }
}
