/** The attestation program's instructions. Each calls into the masterpool inside the same atomic step. */
module Attestation {
  import opened Outcomes
  import opened Widths
  import opened TokenLedger
  import opened Preimage
  import opened Ed25519
  import Faucet
  import opened Accounts
  import opened Masterpool

  datatype Submission = Submission(
    requestNonceHash: Bytes32, metadataHash: Bytes32, promptTokens: u64, completionTokens: u64, chargeAtomic: u64,
    receiptHash: Bytes32,
    signerKey: SignerKey, payer: Pubkey, delegate: Pubkey, payerToken: TokenId, providerAccount: Pubkey,
    transaction: Transaction)

  function SubmittedInputs(s: State, a: Submission, wallet: Pubkey): HashInputs {
    HashInputs(a.requestNonceHash, a.metadataHash, wallet, a.payer, s.config.usdcMint,
               a.promptTokens, a.completionTokens, a.chargeAtomic)
  }

  function SubmittedCharge(a: Submission): Charge {
    Charge(a.payer, a.delegate, a.payerToken, a.providerAccount, a.chargeAtomic)
  }

  /** Whether the bit of the gateway attester type is set in the mask. */
  predicate AttestsAsGateway(mask: u8) {
    mask / 2 % 2 == 1
  }

  /** Whether a registered signer may sign at a time. */
  function SignerGuard(signer: ProviderSigner, now: i64): Result<()> {
    if signer.status != SignerIsActive then Err(SignerInactive) else
    if signer.signer == Faucet.DEFAULT_PUBKEY then Err(SignerMismatch) else
    if !AttestsAsGateway(signer.attesterTypeMask) then Err(SignerAttesterTypeMismatch) else
    if now < signer.validFrom then Err(SignerNotYetValid) else
    if !(signer.validUntil == 0 || now <= signer.validUntil) then Err(SignerExpired) else
    Ok(())
  }

  /** The attestation program's own checks of a submission. */
  function SubmissionGuard(s: State, a: Submission): Result<()> {
    if !(a.signerKey in s.signers && a.providerAccount in s.providers) then Err(AccountNotInitialized) else
    if Nonce(a.requestNonceHash) in s.receipts then Err(AccountAlreadyInUse) else
    if a.promptTokens + a.completionTokens > U64_MAX then Err(InvalidTokenTotals) else
    if s.attestation.isPaused then Err(ProgramPaused) else
    var signer := s.signers[a.signerKey];
    var _ :- SignerGuard(signer, s.now);
    if s.sha256(PreimageOf(SubmittedInputs(s, a, signer.providerWallet))) != a.receiptHash
    then Err(ReceiptHashMismatch) else
    if s.providers[a.providerAccount].wallet != signer.providerWallet then Err(ReceiptIdentityMismatch) else
    VerifyPrecedingInstruction(a.transaction, signer.signer, a.receiptHash)
  }

  function SubmitGuard(s: State, a: Submission): Result<()> {
    if SubmissionGuard(s, a).Err? then SubmissionGuard(s, a)
    else RecordGuard(s, Nonce(a.requestNonceHash), SubmittedCharge(a))
  }

  function NewReceipt(s: State, a: Submission): Receipt
    requires a.signerKey in s.signers
  {
    var signer := s.signers[a.signerKey];
    Receipt(a.receiptHash, signer.signer, a.payer, signer.providerWallet,
            s.now, Saturate(s.now + s.attestation.challengeWindowSeconds), 0, Submitted, false)
  }

  function SubmitEffect(s: State, a: Submission): State
    requires SubmitGuard(s, a).Ok?
  {
    var n := Nonce(a.requestNonceHash);
    var s' := RecordEffect(s, n, SubmittedCharge(a));
    s'.(receipts := s.receipts[n := NewReceipt(s, a)])
  }

  // ---- challenges ----------------------------------------------------------

  function OpenGuard(s: State, n: Nonce, challenger: Pubkey, token: TokenId, challengeType: u8): Result<()> {
    var accounts := s.ledger.accounts;
    if challenger == s.poolAuthority then Err(MissingSignature) else
    if !(n in s.receipts && token in accounts) then Err(AccountNotInitialized) else
    if n in s.challenges then Err(AccountAlreadyInUse) else
    if challengeType > 4 then Err(ChallengeTypeInvalid) else
    if s.receipts[n].status != Submitted then Err(ReceiptNotChallengeable) else
    if s.now > s.receipts[n].challengeDeadline then Err(ChallengeWindowClosed) else
    BondGuard(s, n, challenger, token)
  }

  function OpenEffect(
    s: State, n: Nonce, challenger: Pubkey, token: TokenId, challengeType: u8, evidence: Bytes32): State
    requires OpenGuard(s, n, challenger, token, challengeType).Ok?
  {
    var s' := BondEffect(s, n, challenger, token);
    s'.(challenges := s.challenges[n := Challenge(
          challenger, challengeType, evidence, s.config.params.challengeBondClawAmount, s.now, 0, Open, NoResolution)],
        receipts := s.receipts[n := s.receipts[n].(status := Challenged)])
  }

  function ResolutionOf(code: u8): Result<ResolutionCode> {
    if code == 0 then Ok(NoResolution)
    else if code == 1 then Ok(AcceptedCode)
    else if code == 2 then Ok(RejectedCode)
    else if code == 3 then Ok(ReceiptInvalidatedCode)
    else if code == 4 then Ok(SignerRevokedCode)
    else Err(ChallengeResolutionInvalid)
  }

  /** A resolution never looks at the status of the receipt. */
  function ResolveGuard(s: State, n: Nonce, code: u8, challengerToken: TokenId, payerToken: TokenId): Result<()> {
    var loaded := n in s.receipts && n in s.challenges;
    if !loaded then Err(AccountNotInitialized) else
    var resolution :- ResolutionOf(code);
    if resolution == NoResolution then Err(ChallengeResolutionInvalid) else
    if s.challenges[n].status != Open then Err(ChallengeNotResolvable) else
    if resolution == RejectedCode then RejectGuard(s, n) else AcceptGuard(s, n, challengerToken, payerToken)
  }

  function AfterRejection(s: State, n: Nonce): State
    requires n in s.receipts && n in s.challenges && RejectGuard(s, n).Ok?
  {
    var s' := RejectEffect(s, n);
    s'.(challenges := s.challenges[n := s.challenges[n].(
          status := ChallengeRejected, resolution := RejectedCode, resolvedAt := s.now)],
        receipts := s.receipts[n := s.receipts[n].(
          status := Finalized, finalizedAt := s.now, economicsSettled := false)])
  }

  function ResolveEffect(s: State, n: Nonce, code: u8, challengerToken: TokenId, payerToken: TokenId): State
    requires ResolveGuard(s, n, code, challengerToken, payerToken).Ok?
  {
    var resolution := ResolutionOf(code).value;
    if resolution == RejectedCode then AfterRejection(s, n)
    else
      var s' := AcceptEffect(s, n, challengerToken, payerToken);
      s'.(challenges := s.challenges[n := s.challenges[n].(
            status := ChallengeAccepted, resolution := resolution, resolvedAt := s.now)],
          receipts := s.receipts[n := s.receipts[n].(
            status := if resolution == SignerRevokedCode then Slashed else Rejected,
            finalizedAt := s.now, economicsSettled := true)])
  }

  function TimeoutGuard(s: State, n: Nonce): Result<()> {
    var loaded := n in s.receipts && n in s.challenges;
    if !loaded then Err(AccountNotInitialized) else
    var deadline := s.challenges[n].openedAt + s.attestation.challengeResolutionTimeoutSeconds;
    if !(I64_MIN <= deadline <= I64_MAX) then Err(MathOverflow) else
    if s.now <= deadline then Err(ChallengeResolutionTimeoutOpen) else
    if s.challenges[n].status != Open then Err(ChallengeNotResolvable) else
    RejectGuard(s, n)
  }

  // ---- finalization and closing --------------------------------------------

  function FinalizeGuard(s: State, n: Nonce, destination: TokenId): Result<()> {
    var loaded := n in s.receipts;
    if !loaded then Err(AccountNotInitialized) else
    var r := s.receipts[n];
    if !(r.status == Submitted || r.status == Finalized) then Err(ReceiptNotFinalizable) else
    if !(r.status == Submitted ==> s.now > r.challengeDeadline) then Err(ChallengeWindowOpen) else
    if !(r.status == Finalized ==> !r.economicsSettled) then Err(ReceiptAlreadySettled) else
    SettleGuard(s, n, destination)
  }

  function FinalizeEffect(s: State, n: Nonce, destination: TokenId): State
    requires FinalizeGuard(s, n, destination).Ok?
  {
    var r := s.receipts[n];
    var s' := SettleEffect(s, n, destination);
    s'.(receipts := s.receipts[n := r.(
          status := Finalized, economicsSettled := true,
          finalizedAt := if r.status == Submitted then s.now else r.finalizedAt)])
  }

  predicate IsTerminal(status: ReceiptStatus) {
    status == Finalized || status == Rejected || status == Slashed
  }

  function CloseReceiptGuard(s: State, n: Nonce): Result<()> {
    if n !in s.receipts then Err(AccountNotInitialized)
    else if !IsTerminal(s.receipts[n].status) then Err(ReceiptNotClosable)
    else if !s.receipts[n].economicsSettled then Err(ReceiptEconomicsPending)
    else Ok(())
  }

  function CloseChallengeGuard(s: State, n: Nonce): Result<()> {
    if n !in s.challenges then Err(AccountNotInitialized)
    else if s.challenges[n].status == Open then Err(ChallengeNotClosable)
    else Ok(())
  }
}
