/** Words shared by every part of the bridge model.

    Accounts, token addresses and hashes are 32-byte words read as numbers.  The
    zero word is both the zero address and the marker for the native coin. */
module Types {

  type Account = nat
  type Token = nat
  type Hash = nat

  const ZERO_ADDRESS: Account := 0
  const NATIVE_MARKER: Token := 0

  /** Ratio between the 18-decimal AZERO token on Ethereum and 12-decimal wAZERO. */
  const RATIO: nat := 1_000_000

  const U32_SIZE: nat := 0x1_0000_0000
  const U64_SIZE: nat := 0x1_0000_0000_0000_0000
  const U128_SIZE: nat := 0x1_0000_0000_0000_0000_0000_0000_0000_0000
  const U256_SIZE: nat := U128_SIZE * U128_SIZE
  const ADDRESS_SIZE: nat := 0x1_0000_0000_0000_0000_0000_0000_0000_0000_0000_0000

  datatype Option<+T> = None | Some(value: T)

  /** A cross-chain transfer request: what the source contract emits, and what the
      guardians submit to the destination contract. */
  datatype Request = Request(committee: nat, token: Token, amount: nat, receiver: Account, nonce: nat)

  ghost predicate Distinct<T(!new)>(s: seq<T>) {
    forall i, j :: 0 <= i < j < |s| ==> s[i] != s[j]
  }
}
