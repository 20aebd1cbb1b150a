/** Failure-compatible results, with the error codes of both programs and of the token program. */
module Outcomes {

  datatype Option<+T> = None | Some(value: T)

  datatype Error =
      // Anchor account validation
    | AccountNotInitialized
    | AccountAlreadyInUse
    | MissingSignature
      // token program
    | TokenInsufficientFunds
    | TokenMintMismatch
    | TokenOwnerMismatch
    | TokenOverflow
      // masterpool
    | InvalidTokenOwner
    | InvalidTokenMint
    | InvalidPaymentDelegate
    | InsufficientDelegatedAllowance
    | InvalidProviderAccount
    | InvalidRewardAccountOwner
    | InvalidRewardAccountKind
    | InvalidClawMintAuthority
    | InvalidClawFreezeAuthority
    | InvalidGovernanceParameters
    | InvalidSplitInvariant
    | InvalidPositiveAmount
    | MathOverflow
    | GenesisAlreadyMinted
    | ReceiptRecordingPaused
    | ChallengeProcessingPaused
    | FinalizationPaused
    | ClaimsPaused
    | ProviderNotActive
    | ProviderExitBlocked
    | InvalidReceiptSettlementState
    | InvalidChallengeBondState
    | InvalidChallengeResolution
    | ReceiptChargeTooLarge
    | NoClaimableRewards
    | RewardReleaseExceedsLocked
    | RewardReleaseExceedsVested
    | RewardLockNotStarted
    | FaucetDisabled
    | InvalidFaucetAmount
    | InvalidFaucetLimits
    | FaucetClaimLimitExceeded
    | FaucetWalletDailyLimitExceeded
    | FaucetGlobalDailyLimitExceeded
    | FaucetVaultInsufficientBalance
    | InvalidFaucetUserState
      // attestation
    | ProgramPaused
    | InvalidTokenTotals
    | SignerInactive
    | SignerMismatch
    | SignerAttesterTypeMismatch
    | SignerNotYetValid
    | SignerExpired
    | ReceiptHashMismatch
    | ReceiptIdentityMismatch
    | MissingEd25519Instruction
    | Ed25519InstructionMismatch
    | ReceiptNotChallengeable
    | ChallengeWindowClosed
    | ChallengeTypeInvalid
    | ChallengeNotResolvable
    | ChallengeResolutionInvalid
    | ChallengeResolutionTimeoutOpen
    | ReceiptNotFinalizable
    | ChallengeWindowOpen
    | ReceiptAlreadySettled
    | ReceiptNotClosable
    | ReceiptEconomicsPending
    | ChallengeNotClosable
      // the environment broke a rule of the token program or of the clock
    | NotAnOutsideStep

  datatype Result<+T> = Ok(value: T) | Err(error: Error) {
    predicate IsFailure() {
      Err?
    }

    function PropagateFailure<U>(): Result<U>
      requires Err?
    {
      Err(error)
    }

    function Extract(): T
      requires Ok?
    {
      value
    }
  }

  /** The result of `Need`: it carries no value, so `:-` may be used on it without a left-hand side. */
  datatype Check = Pass | Fail(error: Error) {
    predicate IsFailure() {
      Fail?
    }

    function PropagateFailure<U>(): Result<U>
      requires Fail?
    {
      Err(error)
    }
  }

  /** The programs' `require!`. */
  function Need(condition: bool, error: Error): Check {
    if condition then Pass else Fail(error)
  }
}
