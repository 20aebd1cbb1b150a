/** The bytes a receipt hash commits to, as the on-chain program and the off-chain script build them. */
module Preimage {
  import opened Outcomes
  import opened Widths
  import opened TokenLedger

  /** "clawfarm:receipt:v2" */
  const DOMAIN_SEPARATOR: seq<u8> :=
    [99, 108, 97, 119, 102, 97, 114, 109, 58, 114, 101, 99, 101, 105, 112, 116, 58, 118, 50]

  datatype HashInputs = HashInputs(
    requestNonceHash: Bytes32, metadataHash: Bytes32,
    providerWallet: Pubkey, payerUser: Pubkey, usdcMint: Pubkey,
    promptTokens: u64, completionTokens: u64, chargeAtomic: u64)

  // ---- little-endian numbers -----------------------------------------------

  function LeBytes(v: nat, width: nat): (b: seq<u8>)
    ensures |b| == width
  {
    if width == 0 then [] else [v % 0x100] + LeBytes(v / 0x100, width - 1)
  }

  function LeValue(b: seq<u8>): nat {
    if b == [] then 0 else b[0] + 0x100 * LeValue(b[1..])
  }

  function Power256(width: nat): nat {
    if width == 0 then 1 else 0x100 * Power256(width - 1)
  }

  lemma {:induction false} LeRoundTrip(v: nat, width: nat)
    requires v < Power256(width)
    ensures LeValue(LeBytes(v, width)) == v
  {
    if width > 0 {
      LeRoundTrip(v / 0x100, width - 1);
      assert LeBytes(v, width)[1..] == LeBytes(v / 0x100, width - 1);
    }
  }

  lemma {:induction false} LeValueRoundTrip(b: seq<u8>)
    ensures LeValue(b) < Power256(|b|)
    ensures LeBytes(LeValue(b), |b|) == b
  {
    if b != [] {
      LeValueRoundTrip(b[1..]);
      assert LeValue(b) % 0x100 == b[0] && LeValue(b) / 0x100 == LeValue(b[1..]);
      assert b == [b[0]] + b[1..];
    }
  }

  function U64Le(v: u64): (b: seq<u8>)
    ensures |b| == 8
  {
    LeBytes(v, 8)
  }

  lemma U64IsEightBytes()
    ensures Power256(8) == U64_MAX + 1
  {
    assert Power256(4) == 0x1_0000_0000;
    assert Power256(6) == 0x100 * (0x100 * Power256(4));
  }

  // ---- the preimage --------------------------------------------------------

  /** `Buffer.concat` */
  function Concat(parts: seq<seq<u8>>): seq<u8> {
    if parts == [] then [] else Concat(parts[..|parts| - 1]) + parts[|parts| - 1]
  }

  function Parts(x: HashInputs): seq<seq<u8>> {
    [DOMAIN_SEPARATOR, x.requestNonceHash, x.metadataHash,
     x.providerWallet.bytes, x.payerUser.bytes, x.usdcMint.bytes,
     U64Le(x.promptTokens), U64Le(x.completionTokens), U64Le(x.chargeAtomic)]
  }

  function PreimageOf(x: HashInputs): seq<u8> {
    Concat(Parts(x))
  }

  lemma ConcatStep(p: seq<seq<u8>>, i: nat)
    requires i < |p|
    ensures Concat(p[..i + 1]) == Concat(p[..i]) + p[i]
    ensures i == 0 ==> Concat(p[..i + 1]) == p[i]
  {
    assert p[..i + 1][..i] == p[..i];
  }

  lemma ConcatOfParts(x: HashInputs)
    ensures PreimageOf(x) ==
            DOMAIN_SEPARATOR + x.requestNonceHash + x.metadataHash
            + x.providerWallet.bytes + x.payerUser.bytes + x.usdcMint.bytes
            + U64Le(x.promptTokens) + U64Le(x.completionTokens) + U64Le(x.chargeAtomic)
  {
    var p := Parts(x);
    assert p[..9] == p;
    ConcatStep(p, 8);
    ConcatStep(p, 7);
    ConcatStep(p, 6);
    ConcatStep(p, 5);
    ConcatStep(p, 4);
    ConcatStep(p, 3);
    ConcatStep(p, 2);
    ConcatStep(p, 1);
    ConcatStep(p, 0);
  }

  /** The on-chain builder: the same bytes, appended part by part to one buffer. */
  method BuildCompactReceiptHash(sha256: seq<u8> -> Bytes32, x: HashInputs) returns (hash: Bytes32)
    ensures hash == sha256(PreimageOf(x))
  {
    var preimage: seq<u8> := [];
    preimage := preimage + DOMAIN_SEPARATOR;
    preimage := preimage + x.requestNonceHash;
    preimage := preimage + x.metadataHash;
    preimage := preimage + x.providerWallet.bytes;
    preimage := preimage + x.payerUser.bytes;
    preimage := preimage + x.usdcMint.bytes;
    preimage := preimage + U64Le(x.promptTokens);
    preimage := preimage + U64Le(x.completionTokens);
    preimage := preimage + U64Le(x.chargeAtomic);
    ConcatOfParts(x);
    assert preimage == PreimageOf(x);
    hash := sha256(preimage);
  }

  // ---- decoding ------------------------------------------------------------

  const PREIMAGE_LENGTH := 203

  lemma LeFits(b: seq<u8>)
    requires |b| == 8
    ensures LeValue(b) <= U64_MAX
  {
    LeValueRoundTrip(b);
    U64IsEightBytes();
  }

  function Decode(b: seq<u8>): Option<HashInputs> {
    if |b| == PREIMAGE_LENGTH && b[..19] == DOMAIN_SEPARATOR then
      LeFits(b[179..187]);
      LeFits(b[187..195]);
      LeFits(b[195..203]);
      Some(HashInputs(b[19..51], b[51..83], Pubkey(b[83..115]), Pubkey(b[115..147]), Pubkey(b[147..179]),
                      LeValue(b[179..187]), LeValue(b[187..195]), LeValue(b[195..203])))
    else None
  }

  /** Every preimage has 203 bytes and decodes to the eight fields it was built from. */
  lemma PreimageDecodes(x: HashInputs)
    ensures |PreimageOf(x)| == PREIMAGE_LENGTH
    ensures Decode(PreimageOf(x)) == Some(x)
  {
    ConcatOfParts(x);
    var b := PreimageOf(x);
    assert b[..19] == DOMAIN_SEPARATOR;
    assert b[19..51] == x.requestNonceHash && b[51..83] == x.metadataHash;
    assert b[83..115] == x.providerWallet.bytes && b[115..147] == x.payerUser.bytes && b[147..179] == x.usdcMint.bytes;
    assert b[179..187] == U64Le(x.promptTokens) && b[187..195] == U64Le(x.completionTokens);
    assert b[195..203] == U64Le(x.chargeAtomic);
    U64IsEightBytes();
    LeRoundTrip(x.promptTokens, 8);
    LeRoundTrip(x.completionTokens, 8);
    LeRoundTrip(x.chargeAtomic, 8);
  }

  lemma DivisionIs(v: int, d: int, q: int, r: int)
    requires d > 0 && v == q * d + r && 0 <= r < d
    ensures v / d == q
  {
    if v / d > q {
      ProductGrows(d, q + 1, v / d);
    } else if v / d < q {
      ProductGrows(d, v / d + 1, q);
    }
  }

  lemma DivideTwice(v: nat, d: nat)
    requires d > 0
    ensures v / 0x100 / d == v / (0x100 * d)
  {
    var q, r := v / 0x100 / d, v / 0x100 % d;
    assert v == 0x100 * (q * d + r) + v % 0x100;
    assert v == q * (0x100 * d) + (0x100 * r + v % 0x100);
    assert 0 <= 0x100 * r + v % 0x100 < 0x100 * d;
    DivisionIs(v, 0x100 * d, q, 0x100 * r + v % 0x100);
  }

  /** Byte `i` of a little-endian number is the digit of weight 256^i. */
  lemma {:induction false} LeDigits(v: nat, width: nat, i: nat)
    requires i < width
    ensures Power256(i) > 0 && LeBytes(v, width)[i] == v / Power256(i) % 0x100
  {
    if i > 0 {
      LeDigits(v / 0x100, width - 1, i - 1);
      DivideTwice(v, Power256(i - 1));
    }
  }

  lemma DomainReads()
    ensures forall i :: 0 <= i < 19 ==> DOMAIN_SEPARATOR[i] == "clawfarm:receipt:v2"[i] as int
  {
  }

  /** Byte by byte: where each field stands in the preimage, and the numbers in it. */
  lemma PreimageLayout(x: HashInputs)
    ensures var b := PreimageOf(x);
            && |b| == 19 + 5 * 32 + 3 * 8
            && (forall i :: 0 <= i < 19 ==> b[i] == "clawfarm:receipt:v2"[i] as int)
            && b[19..51] == x.requestNonceHash && b[51..83] == x.metadataHash
            && b[83..115] == x.providerWallet.bytes && b[115..147] == x.payerUser.bytes
            && b[147..179] == x.usdcMint.bytes
            && forall i: nat :: i < 8 ==>
                 && Power256(i) > 0
                 && b[179 + i] == x.promptTokens / Power256(i) % 0x100
                 && b[187 + i] == x.completionTokens / Power256(i) % 0x100
                 && b[195 + i] == x.chargeAtomic / Power256(i) % 0x100
  {
    ConcatOfParts(x);
    DomainReads();
    assert PreimageOf(x)[0..19] == DOMAIN_SEPARATOR;
    forall i: nat | i < 8
      ensures Power256(i) > 0
      ensures U64Le(x.promptTokens)[i] == x.promptTokens / Power256(i) % 0x100
      ensures U64Le(x.completionTokens)[i] == x.completionTokens / Power256(i) % 0x100
      ensures U64Le(x.chargeAtomic)[i] == x.chargeAtomic / Power256(i) % 0x100
    {
      LeDigits(x.promptTokens, 8, i);
      LeDigits(x.completionTokens, 8, i);
      LeDigits(x.chargeAtomic, 8, i);
    }
  }

  lemma CutAt(b: seq<u8>, i: nat, j: nat)
    requires i <= j <= |b|
    ensures b[..j] == b[..i] + b[i..j]
  {
  }

  /** And every string that decodes is the preimage of what it decodes to. */
  lemma DecodedIsPreimage(b: seq<u8>)
    requires Decode(b).Some?
    ensures PreimageOf(Decode(b).value) == b
  {
    var x := Decode(b).value;
    LeValueRoundTrip(b[179..187]);
    LeValueRoundTrip(b[187..195]);
    LeValueRoundTrip(b[195..203]);
    ConcatOfParts(x);
    CutAt(b, 19, 51);
    CutAt(b, 51, 83);
    CutAt(b, 83, 115);
    CutAt(b, 115, 147);
    CutAt(b, 147, 179);
    CutAt(b, 179, 187);
    CutAt(b, 187, 195);
    CutAt(b, 195, 203);
    assert b[..203] == b;
  }

  /** Two receipts with one preimage are one receipt. */
  lemma PreimageIsInjective(x: HashInputs, y: HashInputs)
    requires PreimageOf(x) == PreimageOf(y)
    ensures x == y
  {
    PreimageDecodes(x);
    PreimageDecodes(y);
  }

  // ---- numbers on the script's side ----------------------------------------

  const MAX_SAFE_INTEGER := 0x1F_FFFF_FFFF_FFFF

  /** A JavaScript number (which may be fractional or not finite) or a bigint. */
  datatype JsNumber = Number(value: real) | NotFinite | BigInt(big: int)

  datatype ScriptInputs = ScriptInputs(
    nonceHash: seq<u8>, metaHash: seq<u8>,
    providerWallet: Pubkey, payerUser: Pubkey, usdcMint: Pubkey,
    promptTokens: JsNumber, completionTokens: JsNumber, chargeAtomic: JsNumber)

  predicate IsSafeInteger(x: JsNumber) {
    x.Number? && x.value == x.value.Floor as real && -MAX_SAFE_INTEGER <= x.value.Floor <= MAX_SAFE_INTEGER
  }

  /** None where the script throws. */
  function NormalizeU64(x: JsNumber): Option<u64> {
    match x
    case BigInt(v) => if 0 <= v <= U64_MAX then Some(v) else None
    case Number(v) => if IsSafeInteger(x) && 0 <= v.Floor <= U64_MAX then Some(v.Floor) else None
    case NotFinite => None
  }

  function ScriptPreimage(i: ScriptInputs): Option<seq<u8>> {
    match (NormalizeU64(i.promptTokens), NormalizeU64(i.completionTokens), NormalizeU64(i.chargeAtomic))
    case (Some(prompt), Some(completion), Some(charge)) =>
      if |i.nonceHash| != 32 || |i.metaHash| != 32 then None
      else
        Some(Concat([DOMAIN_SEPARATOR, i.nonceHash, i.metaHash,
                     i.providerWallet.bytes, i.payerUser.bytes, i.usdcMint.bytes,
                     U64Le(prompt), U64Le(completion), U64Le(charge)]))
    case _ => None
  }

  /** How the script may name a u64: as a bigint, or as a number up to the largest safe integer. */
  predicate Names(x: JsNumber, v: u64) {
    x == BigInt(v) || (x == Number(v as real) && v <= MAX_SAFE_INTEGER)
  }

  lemma NormalizedNames(x: JsNumber)
    ensures forall v: u64 :: Names(x, v) <==> NormalizeU64(x) == Some(v)
  {
    forall v: u64 ensures Names(x, v) <==> NormalizeU64(x) == Some(v) {
      assert (v as real).Floor == v;
    }
  }

  /** The script builds exactly the program's preimages: from inputs that name the program's fields, and only then. */
  lemma ScriptAgreesWithProgram(i: ScriptInputs, b: seq<u8>)
    ensures ScriptPreimage(i) == Some(b) <==>
            exists x: HashInputs ::
              && PreimageOf(x) == b
              && x.requestNonceHash == i.nonceHash && x.metadataHash == i.metaHash
              && x.providerWallet == i.providerWallet && x.payerUser == i.payerUser && x.usdcMint == i.usdcMint
              && Names(i.promptTokens, x.promptTokens) && Names(i.completionTokens, x.completionTokens)
              && Names(i.chargeAtomic, x.chargeAtomic)
  {
    NormalizedNames(i.promptTokens);
    NormalizedNames(i.completionTokens);
    NormalizedNames(i.chargeAtomic);
    if ScriptPreimage(i) == Some(b) {
      var x := HashInputs(i.nonceHash, i.metaHash, i.providerWallet, i.payerUser, i.usdcMint,
                          NormalizeU64(i.promptTokens).value, NormalizeU64(i.completionTokens).value,
                          NormalizeU64(i.chargeAtomic).value);
      assert PreimageOf(x) == b;
    }
  }
}
