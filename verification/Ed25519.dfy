/** The ed25519 verification instruction that must stand right before a receipt submission. */
module Ed25519 {
  import opened Outcomes
  import opened Widths
  import opened TokenLedger
  import opened Preimage

  datatype Instruction = Instruction(isEd25519Program: bool, accountCount: nat, data: seq<u8>)

  /** The instructions of the running transaction and the index of the current one. */
  datatype Transaction = Transaction(instructions: seq<Instruction>, currentIndex: nat)

  function ReadSlice(data: seq<u8>, offset: nat, len: nat): Result<seq<u8>> {
    if offset + len <= |data| then Ok(data[offset..offset + len]) else Err(Ed25519InstructionMismatch)
  }

  function ReadU16Le(data: seq<u8>, offset: nat): (r: Result<nat>)
    ensures r.Ok? ==> r.value < 0x1_0000
  {
    var bytes :- ReadSlice(data, offset, 2);
    var low: int, high: int := bytes[0], bytes[1];
    Ok(low + 0x100 * high)
  }

  function VerifyData(data: seq<u8>, signer: Pubkey, message: Bytes32): Result<()> {
    var size := |data|;
    :- Need(size >= 16, Ed25519InstructionMismatch);
    :- Need(data[0] == 1, Ed25519InstructionMismatch);
    var _ :- ReadU16Le(data, 2);
    var signatureInstruction :- ReadU16Le(data, 4);
    var publicKeyOffset :- ReadU16Le(data, 6);
    var publicKeyInstruction :- ReadU16Le(data, 8);
    var messageOffset :- ReadU16Le(data, 10);
    var messageSize :- ReadU16Le(data, 12);
    var messageInstruction :- ReadU16Le(data, 14);
    :- Need(signatureInstruction == 0xFFFF && publicKeyInstruction == 0xFFFF && messageInstruction == 0xFFFF,
            Ed25519InstructionMismatch);
    :- Need(messageSize == 32, Ed25519InstructionMismatch);
    var publicKeyBytes :- ReadSlice(data, publicKeyOffset, 32);
    var messageBytes :- ReadSlice(data, messageOffset, messageSize);
    :- Need(publicKeyBytes == signer.bytes, Ed25519InstructionMismatch);
    :- Need(messageBytes == message, Ed25519InstructionMismatch);
    Ok(())
  }

  function VerifyPrecedingInstruction(tx: Transaction, signer: Pubkey, message: Bytes32): Result<()> {
    var previous := tx.currentIndex - 1;
    :- Need(0 <= previous < |tx.instructions|, MissingEd25519Instruction);
    var ix := tx.instructions[previous];
    :- Need(ix.isEd25519Program, MissingEd25519Instruction);
    :- Need(ix.accountCount == 0, Ed25519InstructionMismatch);
    VerifyData(ix.data, signer, message)
  }

  // ---- what is accepted, byte by byte --------------------------------------

  function U16At(data: seq<u8>, k: nat): nat
    requires k + 2 <= |data|
  {
    var low: int, high: int := data[k], data[k + 1];
    low + 0x100 * high
  }

  predicate StandsAt(part: seq<u8>, data: seq<u8>, k: nat) {
    k + |part| <= |data| && forall i :: 0 <= i < |part| ==> data[k + i] == part[i]
  }

  /** One signature, all of whose parts stand in the instruction itself, with the signer and the message at the offsets
      it names. */
  predicate Attests(data: seq<u8>, signer: Pubkey, message: Bytes32) {
    && |data| >= 16 && data[0] == 1
    && U16At(data, 4) == 0xFFFF && U16At(data, 8) == 0xFFFF && U16At(data, 14) == 0xFFFF
    && U16At(data, 12) == 32
    && StandsAt(signer.bytes, data, U16At(data, 6)) && StandsAt(message, data, U16At(data, 10))
  }

  /** The instruction before the running one is an ed25519 verification, without accounts, of this signature. */
  predicate SignedBefore(tx: Transaction, signer: Pubkey, message: Bytes32) {
    && 1 <= tx.currentIndex <= |tx.instructions|
    && var before := tx.instructions[tx.currentIndex - 1];
       before.isEd25519Program && before.accountCount == 0 && Attests(before.data, signer, message)
  }

  lemma SliceStandsAt(part: seq<u8>, data: seq<u8>, k: nat)
    ensures ReadSlice(data, k, |part|) == Ok(part) <==> StandsAt(part, data, k)
  {
    if k + |part| <= |data| {
      var slice := data[k..k + |part|];
      assert forall i :: 0 <= i < |part| ==> slice[i] == data[k + i];
      assert slice == part <==> forall i :: 0 <= i < |part| ==> slice[i] == part[i];
    }
  }

  lemma ReadsU16At(data: seq<u8>, k: nat)
    requires k + 2 <= |data|
    ensures ReadU16Le(data, k) == Ok(U16At(data, k))
  {
    assert data[k..k + 2][0] == data[k] && data[k..k + 2][1] == data[k + 1];
  }

  lemma HeaderReads(data: seq<u8>)
    requires |data| >= 16
    ensures ReadU16Le(data, 2) == Ok(U16At(data, 2)) && ReadU16Le(data, 4) == Ok(U16At(data, 4))
    ensures ReadU16Le(data, 6) == Ok(U16At(data, 6)) && ReadU16Le(data, 8) == Ok(U16At(data, 8))
    ensures ReadU16Le(data, 10) == Ok(U16At(data, 10)) && ReadU16Le(data, 12) == Ok(U16At(data, 12))
    ensures ReadU16Le(data, 14) == Ok(U16At(data, 14))
  {
    ReadsU16At(data, 2);
    ReadsU16At(data, 4);
    ReadsU16At(data, 6);
    ReadsU16At(data, 8);
    ReadsU16At(data, 10);
    ReadsU16At(data, 12);
    ReadsU16At(data, 14);
  }

  lemma DataAcceptedExactly(data: seq<u8>, signer: Pubkey, message: Bytes32)
    ensures VerifyData(data, signer, message)
         == if Attests(data, signer, message) then Ok(()) else Err(Ed25519InstructionMismatch)
  {
    if |data| >= 16 {
      HeaderReads(data);
      SliceStandsAt(signer.bytes, data, U16At(data, 6));
      SliceStandsAt(message, data, U16At(data, 10));
    }
  }

  /** Exactly which transactions are accepted, and how the others are refused. */
  lemma AcceptedExactly(tx: Transaction, signer: Pubkey, message: Bytes32)
    ensures VerifyPrecedingInstruction(tx, signer, message).Ok? <==> SignedBefore(tx, signer, message)
    ensures VerifyPrecedingInstruction(tx, signer, message) == Err(MissingEd25519Instruction) <==>
            !(1 <= tx.currentIndex <= |tx.instructions| && tx.instructions[tx.currentIndex - 1].isEd25519Program)
    ensures !SignedBefore(tx, signer, message) ==>
            || VerifyPrecedingInstruction(tx, signer, message) == Err(MissingEd25519Instruction)
            || VerifyPrecedingInstruction(tx, signer, message) == Err(Ed25519InstructionMismatch)
  {
    if 1 <= tx.currentIndex <= |tx.instructions| {
      DataAcceptedExactly(tx.instructions[tx.currentIndex - 1].data, signer, message);
    }
  }

  /** One instruction vouches for at most one signer and one message. */
  lemma VouchesForOne(tx: Transaction, s1: Pubkey, m1: Bytes32, s2: Pubkey, m2: Bytes32)
    requires VerifyPrecedingInstruction(tx, s1, m1).Ok? && VerifyPrecedingInstruction(tx, s2, m2).Ok?
    ensures s1 == s2 && m1 == m2
  {
    var data := tx.instructions[tx.currentIndex - 1].data;
    var k, n := ReadU16Le(data, 6).value, ReadU16Le(data, 10).value;
    assert data[k..k + 32] == s1.bytes == s2.bytes;
    assert data[n..n + 32] == m1 == m2;
  }

  /** The reference layout: sixteen header bytes, then public key, signature and message. */
  function ReferenceData(signer: Pubkey, signature: seq<u8>, message: Bytes32): seq<u8>
    requires |signature| == 64
  {
    var publicKeyOffset := 16;
    var signatureOffset := publicKeyOffset + 32;
    var messageOffset := signatureOffset + 64;
    [1, 0] + LeBytes(signatureOffset, 2) + LeBytes(0xFFFF, 2)
    + LeBytes(publicKeyOffset, 2) + LeBytes(0xFFFF, 2)
    + LeBytes(messageOffset, 2) + LeBytes(32, 2) + LeBytes(0xFFFF, 2)
    + signer.bytes + signature + message
  }

  lemma ReadsTwoBytes(d: seq<u8>, k: nat, low: u8, high: u8)
    requires 16 <= |d| && k + 2 <= 16 && d[..16][k] == low && d[..16][k + 1] == high
    ensures ReadU16Le(d, k) == Ok(low + 0x100 * high)
  {
    assert d[k] == low && d[k + 1] == high;
  }

  lemma TwoBytes(v: nat)
    requires v < 0x1_0000
    ensures LeBytes(v, 2) == [v % 0x100, v / 0x100]
  {
    assert LeBytes(v / 0x100, 1) == [v / 0x100 % 0x100] + LeBytes(v / 0x100 / 0x100, 0);
  }

  /** A transaction in the reference layout is accepted for its own signer and message and for nothing else. */
  lemma ReferenceAcceptedExactly(signer: Pubkey, signature: seq<u8>, message: Bytes32, s: Pubkey, m: Bytes32)
    requires |signature| == 64
    ensures VerifyData(ReferenceData(signer, signature, message), s, m)
         == if s == signer && m == message then Ok(()) else Err(Ed25519InstructionMismatch)
  {
    var d := ReferenceData(signer, signature, message);
    TwoBytes(48);
    TwoBytes(0xFFFF);
    TwoBytes(16);
    TwoBytes(112);
    TwoBytes(32);
    assert d[..16] == [1, 0, 48, 0, 255, 255, 16, 0, 255, 255, 112, 0, 32, 0, 255, 255];
    ReadsTwoBytes(d, 4, 255, 255);
    ReadsTwoBytes(d, 6, 16, 0);
    ReadsTwoBytes(d, 8, 255, 255);
    ReadsTwoBytes(d, 10, 112, 0);
    ReadsTwoBytes(d, 12, 32, 0);
    ReadsTwoBytes(d, 14, 255, 255);
    assert d[16..48] == signer.bytes;
    assert d[112..144] == message;
  }
}
