/** The bytes that guardians and contracts hash.

    The ink! contract concatenates 16-byte little-endian numbers and 32-byte addresses (112 bytes); the
    Solidity contract packs five 32-byte big-endian words (160 bytes).  The relayer builds both forms on its
    own, the first with a loop, the second with the ABI's standard encoding. */
module Preimage {
  import opened Types
  import opened Collector

  type Byte = b: nat | b < 256

  function Pow256(n: nat): (p: nat)
    ensures p >= 1
  {
    if n == 0 then 1 else 256 * Pow256(n - 1)
  }

  // --- fixed-width numbers

  function ToLittleEndian(x: nat, width: nat): (bytes: seq<Byte>)
    ensures |bytes| == width
    decreases width
  {
    if width == 0 then [] else [x % 256] + ToLittleEndian(x / 256, width - 1)
  }

  function FromLittleEndian(bytes: seq<Byte>): nat {
    if bytes == [] then 0 else bytes[0] + 256 * FromLittleEndian(bytes[1..])
  }

  function ToBigEndian(x: nat, width: nat): (bytes: seq<Byte>)
    ensures |bytes| == width
    decreases width
  {
    if width == 0 then [] else ToBigEndian(x / 256, width - 1) + [x % 256]
  }

  function FromBigEndian(bytes: seq<Byte>): nat
    decreases |bytes|
  {
    if bytes == [] then 0 else 256 * FromBigEndian(bytes[..|bytes| - 1]) + bytes[|bytes| - 1]
  }

  lemma {:induction false} LittleEndianRoundTrip(x: nat, width: nat)
    requires x < Pow256(width)
    ensures FromLittleEndian(ToLittleEndian(x, width)) == x
    decreases width
  {
    if width > 0 {
      LittleEndianRoundTrip(x / 256, width - 1);
      assert ToLittleEndian(x, width)[1..] == ToLittleEndian(x / 256, width - 1);
    }
  }

  lemma {:induction false} BigEndianRoundTrip(x: nat, width: nat)
    requires x < Pow256(width)
    ensures FromBigEndian(ToBigEndian(x, width)) == x
    decreases width
  {
    if width > 0 {
      BigEndianRoundTrip(x / 256, width - 1);
      assert ToBigEndian(x, width)[..width - 1] == ToBigEndian(x / 256, width - 1);
    }
  }

  // --- the digits, one by one

  lemma {:induction false} MulMono(a: nat, b: nat, n: nat)
    requires a <= b
    ensures a * n <= b * n
    decreases b
  {
    if a < b {
      MulMono(a, b - 1, n);
      assert b * n == (b - 1) * n + n;
    }
  }

  lemma QuotientIs(x: nat, n: nat, q: nat)
    requires n > 0 && q * n <= x < q * n + n
    ensures x / n == q
  {
    var t := x / n;
    assert t * n <= x < t * n + n;
    assert (t + 1) * n == t * n + n && (q + 1) * n == q * n + n;
    if t < q {
      MulMono(t + 1, q, n);
    }
    if q < t {
      MulMono(q + 1, t, n);
    }
  }

  lemma DivDiv(x: nat, b: nat)
    requires b > 0
    ensures x / 256 / b == x / (256 * b)
  {
    var y := x / 256;
    var q := y / b;
    var p := q * b;
    assert p <= y < p + b;
    assert q * (256 * b) == 256 * p;
    QuotientIs(x, 256 * b, q);
  }

  /** The `i`-th digit to the base 256, counted from the lowest. */
  function Digit(x: nat, i: nat): nat { x / Pow256(i) % 256 }

  lemma {:induction false} LittleEndianDigit(x: nat, width: nat, i: nat)
    requires i < width
    ensures ToLittleEndian(x, width)[i] == Digit(x, i)
    decreases width
  {
    if i > 0 {
      LittleEndianDigit(x / 256, width - 1, i - 1);
      DivDiv(x, Pow256(i - 1));
    }
  }

  lemma {:induction false} BigEndianDigit(x: nat, width: nat, i: nat)
    requires i < width
    ensures ToBigEndian(x, width)[i] == Digit(x, width - 1 - i)
    decreases width
  {
    if i < width - 1 {
      BigEndianDigit(x / 256, width - 1, i);
      DivDiv(x, Pow256(width - 2 - i));
    }
  }

  lemma FiveSlices(a: seq<Byte>, b: seq<Byte>, c: seq<Byte>, d: seq<Byte>, e: seq<Byte>)
    ensures var s := a + b + c + d + e;
            var i, j, k, l := |a|, |a| + |b|, |a| + |b| + |c|, |a| + |b| + |c| + |d|;
            s[..i] == a && s[i..j] == b && s[j..k] == c && s[k..l] == d && s[l..] == e
  {
  }

  // --- the ink! preimage

  /** The fields fit the parameter types of `receive_request`: u128 numbers and 32-byte addresses. */
  predicate FitsInk(r: Request) {
    && r.committee < Pow256(16) && r.amount < Pow256(16) && r.nonce < Pow256(16)
    && r.token < Pow256(32) && r.receiver < Pow256(32)
  }

  /** `hash_request_data` before hashing. */
  function InkPreimage(r: Request): (bytes: seq<Byte>)
    ensures |bytes| == 112
  {
    ToLittleEndian(r.committee, 16) + ToBigEndian(r.token, 32) + ToLittleEndian(r.amount, 16)
    + ToBigEndian(r.receiver, 32) + ToLittleEndian(r.nonce, 16)
  }

  function DecodeInk(bytes: seq<Byte>): Request
    requires |bytes| == 112
  {
    Request(FromLittleEndian(bytes[..16]), FromBigEndian(bytes[16..48]), FromLittleEndian(bytes[48..64]),
            FromBigEndian(bytes[64..96]), FromLittleEndian(bytes[96..]))
  }

  lemma InkRoundTrip(r: Request)
    requires FitsInk(r)
    ensures DecodeInk(InkPreimage(r)) == r
  {
    FiveSlices(ToLittleEndian(r.committee, 16), ToBigEndian(r.token, 32), ToLittleEndian(r.amount, 16),
               ToBigEndian(r.receiver, 32), ToLittleEndian(r.nonce, 16));
    LittleEndianRoundTrip(r.committee, 16);
    BigEndianRoundTrip(r.token, 32);
    LittleEndianRoundTrip(r.amount, 16);
    BigEndianRoundTrip(r.receiver, 32);
    LittleEndianRoundTrip(r.nonce, 16);
  }

  /** Where the 112 bytes come from: three little-endian 16-byte numbers and, between them, two 32-byte addresses. */
  lemma InkLayout(r: Request)
    ensures var bytes := InkPreimage(r);
            && bytes[..16] == ToLittleEndian(r.committee, 16) && bytes[16..48] == ToBigEndian(r.token, 32)
            && bytes[48..64] == ToLittleEndian(r.amount, 16) && bytes[64..96] == ToBigEndian(r.receiver, 32)
            && bytes[96..] == ToLittleEndian(r.nonce, 16)
  {
    FiveSlices(ToLittleEndian(r.committee, 16), ToBigEndian(r.token, 32), ToLittleEndian(r.amount, 16),
               ToBigEndian(r.receiver, 32), ToLittleEndian(r.nonce, 16));
  }

  // --- the relayer's copy of the ink! preimage

  function Concat(arrays: seq<seq<Byte>>): seq<Byte>
    decreases |arrays|
  {
    if arrays == [] then [] else Concat(arrays[..|arrays| - 1]) + arrays[|arrays| - 1]
  }

  method ConcatU8Arrays(arrays: seq<seq<Byte>>) returns (result: seq<Byte>)
    ensures result == Concat(arrays)
  {
    result := [];
    for i := 0 to |arrays|
      invariant result == Concat(arrays[..i])
    {
      assert arrays[..i + 1][..i] == arrays[..i];
      result := result + arrays[i];
    }
    assert arrays[..|arrays|] == arrays;
  }

  /** The bytes the relayer hashes for an Ethereum event are those that the ink! contract hashes. */
  method RelayerInkBytes(r: Request) returns (bytes: seq<Byte>)
    requires FitsInk(r)
    ensures bytes == InkPreimage(r) && DecodeInk(bytes) == r
  {
    var fields := [ToLittleEndian(r.committee, 16), ToBigEndian(r.token, 32), ToLittleEndian(r.amount, 16),
                   ToBigEndian(r.receiver, 32), ToLittleEndian(r.nonce, 16)];
    bytes := ConcatU8Arrays(fields);
    ConcatFive(fields);
    InkRoundTrip(r);
  }

  lemma ConcatFive(f: seq<seq<Byte>>)
    requires |f| == 5
    ensures Concat(f) == f[0] + f[1] + f[2] + f[3] + f[4]
  {
    assert f[..4][..3] == f[..3] && f[..3][..2] == f[..2] && f[..2][..1] == f[..1] && f[..1][..0] == [];
    assert Concat(f[..1]) == f[0];
    assert Concat(f[..2]) == f[0] + f[1];
    assert Concat(f[..3]) == f[0] + f[1] + f[2];
    assert Concat(f[..4]) == f[0] + f[1] + f[2] + f[3];
  }

  // --- the Solidity preimage

  /** The fields fit `uint256` and `bytes32`. */
  predicate FitsWords(r: Request) {
    && r.committee < Pow256(32) && r.token < Pow256(32) && r.amount < Pow256(32)
    && r.receiver < Pow256(32) && r.nonce < Pow256(32)
  }

  /** The static ABI types that a request is made of. */
  datatype AbiToken = Uint(value: nat) | FixedBytes(bytes: seq<Byte>)

  function Zeros(n: nat): seq<Byte> { seq(n, _ => 0) }

  /** Standard encoding: numbers are left-padded to 32 bytes, byte strings are right-padded to a multiple of 32. */
  function AbiWord(t: AbiToken): seq<Byte> {
    match t
    case Uint(value) => ToBigEndian(value, 32)
    case FixedBytes(bytes) => bytes + Zeros((32 - |bytes| % 32) % 32)
  }

  /** Non-standard packed mode: a `uint256` takes 32 bytes, a byte string exactly its length. */
  function PackedWord(t: AbiToken): seq<Byte> {
    match t
    case Uint(value) => ToBigEndian(value, 32)
    case FixedBytes(bytes) => bytes
  }

  function AbiEncode(tokens: seq<AbiToken>): seq<Byte> {
    if tokens == [] then [] else AbiWord(tokens[0]) + AbiEncode(tokens[1..])
  }

  function AbiEncodePacked(tokens: seq<AbiToken>): seq<Byte> {
    if tokens == [] then [] else PackedWord(tokens[0]) + AbiEncodePacked(tokens[1..])
  }

  function RequestTokens(r: Request): seq<AbiToken> {
    [Uint(r.committee), FixedBytes(ToBigEndian(r.token, 32)), Uint(r.amount),
     FixedBytes(ToBigEndian(r.receiver, 32)), Uint(r.nonce)]
  }

  /** What the contract hashes. */
  function SolidityPreimage(r: Request): seq<Byte> { AbiEncodePacked(RequestTokens(r)) }

  /** The two encodings agree on a list of tokens exactly when every byte string in it fills whole words. */
  lemma {:induction false} PackedIsStandardIff(tokens: seq<AbiToken>)
    ensures |AbiEncodePacked(tokens)| <= |AbiEncode(tokens)|
    ensures AbiEncode(tokens) == AbiEncodePacked(tokens)
            <==> forall i | 0 <= i < |tokens| && tokens[i].FixedBytes? :: |tokens[i].bytes| % 32 == 0
  {
    if tokens != [] {
      PackedIsStandardIff(tokens[1..]);
      var t := tokens[0];
      if t.FixedBytes? && |t.bytes| % 32 != 0 {
        assert |AbiEncode(tokens)| > |AbiEncodePacked(tokens)|;
      } else {
        assert AbiWord(t) == PackedWord(t);
        var word := AbiWord(t);
        assert AbiEncode(tokens)[|word|..] == AbiEncode(tokens[1..]);
        assert AbiEncodePacked(tokens)[|word|..] == AbiEncodePacked(tokens[1..]);
        assert forall i | 1 <= i < |tokens| :: tokens[i] == tokens[1..][i - 1];
      }
    }
  }

  /** The relayer's `abi::encode` gives the bytes that the contract packs. */
  lemma RelayerAbiBytes(r: Request)
    ensures AbiEncode(RequestTokens(r)) == SolidityPreimage(r)
  {
    PackedIsStandardIff(RequestTokens(r));
  }

  function FiveWords(r: Request, width: nat): (bytes: seq<Byte>)
    ensures |bytes| == 5 * width
  {
    ToBigEndian(r.committee, width) + ToBigEndian(r.token, width) + ToBigEndian(r.amount, width)
    + ToBigEndian(r.receiver, width) + ToBigEndian(r.nonce, width)
  }

  lemma PackedCons(t: AbiToken, rest: seq<AbiToken>)
    ensures AbiEncodePacked([t] + rest) == PackedWord(t) + AbiEncodePacked(rest)
  {
    assert ([t] + rest)[1..] == rest;
  }

  lemma Regroup(a: seq<Byte>, b: seq<Byte>, c: seq<Byte>)
    ensures a + (b + c) == a + b + c
  {
  }

  lemma RegroupFive(u: seq<Byte>, v: seq<Byte>, w: seq<Byte>, x: seq<Byte>, y: seq<Byte>)
    ensures u + (v + (w + (x + y))) == u + v + w + x + y
  {
    Regroup(u, v, w + (x + y));
    Regroup(u + v, w, x + y);
    Regroup(u + v + w, x, y);
  }

  lemma FiveTokens(a: AbiToken, b: AbiToken, c: AbiToken, d: AbiToken, e: AbiToken)
    ensures [a] + ([b] + ([c] + ([d] + ([e] + [])))) == [a, b, c, d, e]
  {
  }

  lemma PackedFive(a: AbiToken, b: AbiToken, c: AbiToken, d: AbiToken, e: AbiToken)
    ensures AbiEncodePacked([a, b, c, d, e])
            == PackedWord(a) + PackedWord(b) + PackedWord(c) + PackedWord(d) + PackedWord(e)
  {
    FiveTokens(a, b, c, d, e);
    PackedCons(a, [b] + ([c] + ([d] + ([e] + []))));
    PackedCons(b, [c] + ([d] + ([e] + [])));
    PackedCons(c, [d] + ([e] + []));
    PackedCons(d, [e] + []);
    PackedCons(e, []);
    assert PackedWord(e) + AbiEncodePacked([]) == PackedWord(e);
    RegroupFive(PackedWord(a), PackedWord(b), PackedWord(c), PackedWord(d), PackedWord(e));
  }

  lemma PackedIsFiveWords(r: Request)
    ensures SolidityPreimage(r) == FiveWords(r, 32)
  {
    var t := RequestTokens(r);
    PackedFive(t[0], t[1], t[2], t[3], t[4]);
  }

  function DecodeWords(bytes: seq<Byte>, width: nat): Request
    requires |bytes| == 5 * width
  {
    Request(FromBigEndian(bytes[..width]), FromBigEndian(bytes[width..2 * width]),
            FromBigEndian(bytes[2 * width..3 * width]), FromBigEndian(bytes[3 * width..4 * width]),
            FromBigEndian(bytes[4 * width..]))
  }

  lemma FiveWordsRoundTrip(r: Request, width: nat)
    requires r.committee < Pow256(width) && r.token < Pow256(width) && r.amount < Pow256(width)
    requires r.receiver < Pow256(width) && r.nonce < Pow256(width)
    ensures DecodeWords(FiveWords(r, width), width) == r
  {
    var bytes := FiveWords(r, width);
    assert
      && bytes[..width] == ToBigEndian(r.committee, width)
      && bytes[width..2 * width] == ToBigEndian(r.token, width)
      && bytes[2 * width..3 * width] == ToBigEndian(r.amount, width)
      && bytes[3 * width..4 * width] == ToBigEndian(r.receiver, width)
      && bytes[4 * width..] == ToBigEndian(r.nonce, width)
    by {
      FiveSlices(ToBigEndian(r.committee, width), ToBigEndian(r.token, width), ToBigEndian(r.amount, width),
                 ToBigEndian(r.receiver, width), ToBigEndian(r.nonce, width));
    }
    BigEndianRoundTrip(r.committee, width);
    BigEndianRoundTrip(r.token, width);
    BigEndianRoundTrip(r.amount, width);
    BigEndianRoundTrip(r.receiver, width);
    BigEndianRoundTrip(r.nonce, width);
  }

  lemma SolidityRoundTrip(r: Request)
    requires FitsWords(r)
    ensures |SolidityPreimage(r)| == 160 && DecodeWords(SolidityPreimage(r), 32) == r
  {
    PackedIsFiveWords(r);
    FiveWordsRoundTrip(r, 32);
  }

  /** Where the 160 bytes come from: five big-endian 32-byte words. */
  lemma SolidityLayout(r: Request)
    ensures var bytes := SolidityPreimage(r);
            && |bytes| == 160
            && bytes[..32] == ToBigEndian(r.committee, 32) && bytes[32..64] == ToBigEndian(r.token, 32)
            && bytes[64..96] == ToBigEndian(r.amount, 32) && bytes[96..128] == ToBigEndian(r.receiver, 32)
            && bytes[128..] == ToBigEndian(r.nonce, 32)
  {
    PackedIsFiveWords(r);
    FiveSlices(ToBigEndian(r.committee, 32), ToBigEndian(r.token, 32), ToBigEndian(r.amount, 32),
               ToBigEndian(r.receiver, 32), ToBigEndian(r.nonce, 32));
  }

  // --- hashing schemes

  /** Keccak does not collide on the preimages of the requests in `occurs`. */
  ghost predicate NoCollision(keccak: seq<Byte> -> Hash, preimage: Request -> seq<Byte>, occurs: iset<Request>) {
    forall r, r' | r in occurs && r' in occurs && keccak(preimage(r)) == keccak(preimage(r')) ::
      preimage(r) == preimage(r')
  }

  ghost function InkScheme(keccak: seq<Byte> -> Hash, occurs: iset<Request>): Scheme {
    Scheme(r => keccak(InkPreimage(r)), occurs)
  }

  ghost function SolidityScheme(keccak: seq<Byte> -> Hash, occurs: iset<Request>): Scheme {
    Scheme(r => keccak(SolidityPreimage(r)), occurs)
  }

  /** The hypothesis of the protocol theorems, from the absence of Keccak collisions alone. */
  lemma InkSchemeCollisionFree(keccak: seq<Byte> -> Hash, occurs: iset<Request>)
    requires NoCollision(keccak, InkPreimage, occurs) && forall r | r in occurs :: FitsInk(r)
    ensures CollisionFree(InkScheme(keccak, occurs))
  {
    forall r, r' | r in occurs && r' in occurs && keccak(InkPreimage(r)) == keccak(InkPreimage(r')) ensures r == r' {
      InkRoundTrip(r);
      InkRoundTrip(r');
    }
  }

  lemma SoliditySchemeCollisionFree(keccak: seq<Byte> -> Hash, occurs: iset<Request>)
    requires NoCollision(keccak, SolidityPreimage, occurs) && forall r | r in occurs :: FitsWords(r)
    ensures CollisionFree(SolidityScheme(keccak, occurs))
  {
    forall r, r' | r in occurs && r' in occurs && keccak(SolidityPreimage(r)) == keccak(SolidityPreimage(r'))
      ensures r == r'
    {
      SolidityRoundTrip(r);
      SolidityRoundTrip(r');
    }
  }
}
