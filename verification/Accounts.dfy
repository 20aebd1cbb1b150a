/** The account records of both programs and the state of the whole deployment. */
module Accounts {
  import opened Widths
  import opened TokenLedger
  import opened Params
  import opened Faucet

  /** Receipts, challenges, settlements and bond records all live at addresses derived, injectively, from the hash of
      the request nonce, so one key serves them all. */
  datatype Nonce = Nonce(hash: Bytes32)

  // ---- attestation ---------------------------------------------------------

  datatype ReceiptStatus = Submitted | Challenged | Finalized | Rejected | Slashed

  datatype Receipt = Receipt(
    receiptHash: Bytes32, signer: Pubkey, payer: Pubkey, provider: Pubkey,
    submittedAt: i64, challengeDeadline: i64, finalizedAt: i64,
    status: ReceiptStatus, economicsSettled: bool)

  datatype ChallengeStatus = Open | ChallengeAccepted | ChallengeRejected

  datatype ResolutionCode = NoResolution | AcceptedCode | RejectedCode | ReceiptInvalidatedCode | SignerRevokedCode

  datatype Challenge = Challenge(
    challenger: Pubkey, challengeType: int, evidenceHash: Bytes32, bondAmount: int,
    openedAt: i64, resolvedAt: i64, status: ChallengeStatus, resolution: ResolutionCode)

  datatype SignerStatus = SignerIsInactive | SignerIsActive | SignerIsRevoked

  datatype ProviderSigner = ProviderSigner(
    signer: Pubkey, providerWallet: Pubkey, attesterTypeMask: u8, status: SignerStatus, validFrom: i64, validUntil: i64)

  datatype SignerKey = SignerKey(providerWallet: Pubkey, signer: Pubkey)

  datatype AttestationConfig = AttestationConfig(
    challengeWindowSeconds: i64, challengeResolutionTimeoutSeconds: i64, isPaused: bool)

  // ---- masterpool ----------------------------------------------------------

  datatype GlobalConfig = GlobalConfig(
    params: Phase1Params, usdcMint: Pubkey, genesisMinted: bool,
    pauseReceiptRecording: bool, pauseChallengeProcessing: bool, pauseFinalization: bool, pauseClaims: bool)

  datatype ProviderStatus = Active | Exited

  datatype Provider = Provider(
    wallet: Pubkey, stakedUsdc: int, pendingUsdc: int, clawNetPosition: int,
    unsettledReceipts: int, unresolvedChallenges: int, status: ProviderStatus)

  datatype RewardKind = UserReward | ProviderReward

  datatype RewardKey = RewardKey(kind: RewardKind, owner: Pubkey)

  datatype RewardAccount = RewardAccount(
    kind: RewardKind, owner: Pubkey, pendingClaw: int, lockedClaw: int, releasedClaw: int, claimedClaw: int)

  datatype SettlementStatus = Recorded | FinalizedSettled | ChallengedReverted

  datatype Settlement = Settlement(
    payer: Pubkey, provider: Pubkey,
    usdcTotalPaid: int, usdcToProvider: int, usdcToTreasury: int,
    clawToUser: int, clawToProviderTotal: int, clawProviderDebtOffset: int, clawToProviderLocked: int,
    lockDays: int, lockStartedAt: i64, userClawReleased: int, providerClawReleased: int,
    status: SettlementStatus)

  datatype BondStatus = Locked | Returned | BondBurned

  datatype Bond = Bond(
    challenger: Pubkey, payer: Pubkey, provider: Pubkey,
    bondAmount: int, slashAmount: int, challengerRewardBps: int, burnBps: int,
    challengerRewardAmount: int, burnAmount: int, status: BondStatus)

  // ---- the whole -----------------------------------------------------------

  /** What no account records but the equations need: who else paid into a vault, what was moved to the faucet, how
      outsiders changed the CLAW supply, and every faucet payout. */
  datatype History = History(
    gifts: map<TokenId, int>, faucetFunded: int, outsideSupply: int, payouts: seq<Payout>)

  datatype State = State(
    now: i64,
    poolAuthority: Pubkey,
    sha256: seq<u8> -> Bytes32,
    attestation: AttestationConfig,
    config: GlobalConfig,
    signers: map<SignerKey, ProviderSigner>,
    receipts: map<Nonce, Receipt>,
    challenges: map<Nonce, Challenge>,
    settlements: map<Nonce, Settlement>,
    bonds: map<Nonce, Bond>,
    providers: map<Pubkey, Provider>,
    rewards: map<RewardKey, RewardAccount>,
    ledger: Ledger,
    faucet: FaucetState,
    history: History)

  function Gift(h: History, to: TokenId): int {
    if to in h.gifts then h.gifts[to] else 0
  }

  /** A payment out of a vault to an account the payer chose: if that is itself a vault, it counts as a gift to it. */
  function Given(h: History, to: TokenId, amount: int): History {
    h.(gifts := h.gifts[to := Gift(h, to) + amount])
  }

  function FreshReward(key: RewardKey): RewardAccount {
    RewardAccount(key.kind, key.owner, 0, 0, 0, 0)
  }

  function UserKey(owner: Pubkey): RewardKey {
    RewardKey(UserReward, owner)
  }

  function ProviderKey(owner: Pubkey): RewardKey {
    RewardKey(ProviderReward, owner)
  }
}
