/** What opening, ruling on, finalizing and closing leave in the accounts of both programs. */
module Rulings {
  import opened Widths
  import opened TokenLedger
  import opened Params
  import opened Accounts
  import opened Masterpool
  import opened Attestation
  import opened Invariant
  import opened StepsFinalize
  import opened StepsChallenge
  import opened Runs
  import opened Payments

  // ---- opening -------------------------------------------------------------

  /** The bond of a challenge, on the terms in force: the challenger's part of the slash is rounded down, the rest would
      be burned. */
  ghost predicate IsPosted(b: Bond, st: Settlement, challenger: Pubkey, p: Phase1Params) {
    && b.challenger == challenger && b.payer == st.payer && b.provider == st.provider
    && b.bondAmount == p.challengeBondClawAmount && b.slashAmount == p.providerSlashClawAmount
    && b.challengerRewardBps == p.challengerRewardBps && b.burnBps == p.burnBps
    && b.challengerRewardAmount == p.providerSlashClawAmount * p.challengerRewardBps / 1_000
    && b.challengerRewardAmount + b.burnAmount == p.providerSlashClawAmount
    && b.status == Locked
  }

  /** What opening writes: a bond, a challenge, the receipt's status and one more open challenge of the provider. */
  ghost predicate IsOpened(
    s: State, s': State, n: Nonce, challenger: Pubkey, challengeType: u8, evidence: Bytes32)
    requires n in s.receipts && n in s.settlements && s.settlements[n].provider in s.providers
  {
    var w := s.settlements[n].provider;
    var p := s.providers[w];
    && n in s'.bonds && IsPosted(s'.bonds[n], s.settlements[n], challenger, s.config.params)
    && s' == s.(
         ledger := s'.ledger, bonds := s.bonds[n := s'.bonds[n]],
         challenges := s.challenges[n := Challenge(
           challenger, challengeType, evidence, s.config.params.challengeBondClawAmount, s.now, 0, Open, NoResolution)],
         receipts := s.receipts[n := s.receipts[n].(status := Challenged)],
         providers := s.providers[w := p.(unresolvedChallenges := p.unresolvedChallenges + 1)])
  }

  lemma BondedIsOpened(
    s: State, n: Nonce, challenger: Pubkey, token: TokenId, challengeType: u8, evidence: Bytes32)
    requires SettlementAccounts(s, n) && n in s.receipts && OpenGuard(s, n, challenger, token, challengeType).Ok?
    ensures IsOpened(s, OpenEffect(s, n, challenger, token, challengeType, evidence),
                     n, challenger, challengeType, evidence)
  {
  }

  /** Opening a challenge moves the bond from the challenger to the bond vault and fixes the terms of the slash. */
  lemma OpenPosts(s: State, n: Nonce, challenger: Pubkey, token: TokenId, challengeType: u8, evidence: Bytes32)
    requires Inv(s) && OpenGuard(s, n, challenger, token, challengeType).Ok?
    ensures n in s.receipts && n in s.settlements && s.settlements[n].provider in s.providers && token.Held?
    ensures var s' := OpenEffect(s, n, challenger, token, challengeType, evidence);
            var bond := s.config.params.challengeBondClawAmount;
            && IsOpened(s, s', n, challenger, challengeType, evidence)
            && AmountAt(s'.ledger, token) == AmountAt(s.ledger, token) - bond
            && AmountAt(s'.ledger, BondVault) == AmountAt(s.ledger, BondVault) + bond
            && SameElsewhere(s.ledger, s'.ledger, {token, BondVault})
  {
    OpenableIsBondable(s, n, challenger, token, challengeType);
    BondedIsOpened(s, n, challenger, token, challengeType, evidence);
  }

  // ---- ruling --------------------------------------------------------------

  /** The parts of the state that rulings and settlements leave alone. */
  ghost predicate SameSettings(s: State, s': State) {
    && s'.now == s.now && s'.poolAuthority == s.poolAuthority && s'.sha256 == s.sha256
    && s'.attestation == s.attestation && s'.config == s.config && s'.signers == s.signers
    && s'.faucet == s.faucet && s'.history == s.history
  }

  ghost predicate OnlyAt<K, V>(m: map<K, V>, m': map<K, V>, keys: set<K>) {
    m'.Keys == m.Keys && forall k :: k in m && k !in keys ==> m'[k] == m[k]
  }

  /** What a rejection writes, whoever or whatever rejects: the bond burned, and a receipt that is final and unpaid. */
  ghost predicate IsRejected(s: State, s': State, n: Nonce)
    requires n in s.receipts && n in s.challenges && n in s.bonds && n in s.settlements
    requires s.settlements[n].provider in s.providers
  {
    var w := s.settlements[n].provider;
    var p := s.providers[w];
    s' == s.(
      ledger := s'.ledger,
      bonds := s.bonds[n := s.bonds[n].(status := BondBurned)],
      challenges := s.challenges[n := s.challenges[n].(
        status := ChallengeRejected, resolution := RejectedCode, resolvedAt := s.now)],
      receipts := s.receipts[n := s.receipts[n].(status := Finalized, finalizedAt := s.now, economicsSettled := false)],
      providers := s.providers[w := p.(unresolvedChallenges := p.unresolvedChallenges - 1)])
  }

  /** What a ruling of rejection leaves. */
  lemma RejectionLeaves(s: State, n: Nonce, challengerToken: TokenId, payerToken: TokenId)
    requires Inv(s) && ResolveGuard(s, n, 2, challengerToken, payerToken).Ok?
    ensures n in s.receipts && n in s.challenges && n in s.bonds && n in s.settlements
    ensures s.settlements[n].provider in s.providers
    ensures IsRejected(s, ResolveEffect(s, n, 2, challengerToken, payerToken), n)
  {
    OpenChallengeIsResolvable(s, n);
  }

  /** And a time-out leaves the same. */
  lemma TimeoutLeaves(s: State, n: Nonce)
    requires Inv(s) && TimeoutGuard(s, n).Ok?
    ensures n in s.receipts && n in s.challenges && n in s.bonds && n in s.settlements
    ensures s.settlements[n].provider in s.providers
    ensures IsRejected(s, Apply(s, TimeoutChallenge(n)), n)
  {
    OpenChallengeIsResolvable(s, n);
  }

  /** What an acceptance writes in the masterpool: the receipt's earnings are taken back, and the slash on top. */
  ghost predicate IsReverted(s: State, s': State, n: Nonce)
    requires BondAccounts(s, n)
  {
    var st, b := s.settlements[n], s.bonds[n];
    var p := s.providers[st.provider];
    var user, provider := UserKey(st.payer), ProviderKey(st.provider);
    && s'.settlements == s.settlements[n := st.(status := ChallengedReverted)]
    && s'.bonds == s.bonds[n := b.(status := Returned)]
    && s'.providers == s.providers[st.provider := p.(
         clawNetPosition := p.clawNetPosition - st.clawToProviderTotal - b.slashAmount,
         pendingUsdc := p.pendingUsdc - st.usdcToProvider,
         unsettledReceipts := p.unsettledReceipts - 1, unresolvedChallenges := p.unresolvedChallenges - 1)]
    && OnlyAt(s.rewards, s'.rewards, {user, provider})
    && user in s'.rewards && provider in s'.rewards
    && s'.rewards[user] == s.rewards[user].(pendingClaw := s.rewards[user].pendingClaw - st.clawToUser)
    && s'.rewards[provider] == s.rewards[provider].(
         pendingClaw := s.rewards[provider].pendingClaw - st.clawToProviderLocked)
  }

  /** The end of challenge and receipt, by the ruling: 1 accepted, 3 receipt invalid, 4 signer revoked. */
  ghost predicate IsUpheld(s: State, s': State, n: Nonce, code: u8)
    requires n in s.receipts && n in s.challenges
  {
    && s'.challenges == s.challenges[n := s.challenges[n].(
         status := ChallengeAccepted, resolvedAt := s.now,
         resolution := if code == 1 then AcceptedCode else if code == 3 then ReceiptInvalidatedCode
                       else SignerRevokedCode)]
    && s'.receipts == s.receipts[n := s.receipts[n].(
         status := if code == 4 then Slashed else Rejected, finalizedAt := s.now, economicsSettled := true)]
  }

  lemma AcceptanceIsReverted(s: State, n: Nonce, l: Ledger)
    requires Resolvable(s, n)
    ensures IsReverted(s, AcceptWith(s, n, l), n) && SameSettings(s, AcceptWith(s, n, l))
  {
  }

  lemma RulingUpholds(s: State, n: Nonce, code: u8, challengerToken: TokenId, payerToken: TokenId)
    requires ResolveGuard(s, n, code, challengerToken, payerToken).Ok? && code != 2
    ensures n in s.receipts && n in s.challenges && (code == 1 || code == 3 || code == 4)
    ensures IsUpheld(s, ResolveEffect(s, n, code, challengerToken, payerToken), n, code)
  {
  }

  lemma RulingReverts(s: State, n: Nonce, code: u8, challengerToken: TokenId, payerToken: TokenId)
    requires ResolveGuard(s, n, code, challengerToken, payerToken).Ok? && code != 2 && BondAccounts(s, n)
    ensures var s' := ResolveEffect(s, n, code, challengerToken, payerToken);
            s' == AcceptWith(s, n, s'.ledger).(challenges := s'.challenges, receipts := s'.receipts)
  {
  }

  /** What each accepting ruling leaves. */
  lemma AcceptanceReverts(s: State, n: Nonce, code: u8, challengerToken: TokenId, payerToken: TokenId)
    requires Inv(s) && ResolveGuard(s, n, code, challengerToken, payerToken).Ok? && code != 2
    ensures n in s.receipts && n in s.challenges && BondAccounts(s, n) && (code == 1 || code == 3 || code == 4)
    ensures var s' := ResolveEffect(s, n, code, challengerToken, payerToken);
            IsUpheld(s, s', n, code) && IsReverted(s, s', n) && SameSettings(s, s')
  {
    OpenChallengeIsResolvable(s, n);
    RulingUpholds(s, n, code, challengerToken, payerToken);
    RulingReverts(s, n, code, challengerToken, payerToken);
    AcceptanceIsReverted(s, n, ResolveEffect(s, n, code, challengerToken, payerToken).ledger);
  }

  // ---- finalizing ----------------------------------------------------------

  /** Pending becomes locked. */
  ghost predicate Unlocked(s: State, s': State, key: RewardKey, amount: int) {
    && key in s.rewards && key in s'.rewards
    && s'.rewards[key] == s.rewards[key].(
         pendingClaw := s.rewards[key].pendingClaw - amount, lockedClaw := s.rewards[key].lockedClaw + amount)
  }

  /** What finalizing writes: the lock starts, rewards are locked, and nothing is owed any more. */
  ghost predicate IsSettled(s: State, s': State, n: Nonce)
    requires n in s.receipts && n in s.settlements && s.settlements[n].provider in s.providers
  {
    var st, r := s.settlements[n], s.receipts[n];
    var p := s.providers[st.provider];
    && SameSettings(s, s') && s'.challenges == s.challenges && s'.bonds == s.bonds
    && s'.settlements == s.settlements[n := st.(status := FinalizedSettled, lockStartedAt := s.now)]
    && s'.receipts == s.receipts[n := r.(
         status := Finalized, economicsSettled := true,
         finalizedAt := if r.status == Submitted then s.now else r.finalizedAt)]
    && s'.providers == s.providers[st.provider := p.(
         pendingUsdc := p.pendingUsdc - st.usdcToProvider, unsettledReceipts := p.unsettledReceipts - 1)]
    && Unlocked(s, s', UserKey(st.payer), st.clawToUser)
    && Unlocked(s, s', ProviderKey(st.provider), st.clawToProviderLocked)
    && OnlyAt(s.rewards, s'.rewards, {UserKey(st.payer), ProviderKey(st.provider)})
  }

  lemma SettledIsSettled(s: State, n: Nonce, to: TokenId)
    requires n in s.settlements && Settleable(s, n, to) && FinalizeGuard(s, n, to).Ok?
    ensures n in s.receipts && IsSettled(s, FinalizeEffect(s, n, to), n)
  {
  }

  lemma FinalizeSettles(s: State, n: Nonce, to: TokenId)
    requires Inv(s) && FinalizeGuard(s, n, to).Ok?
    ensures n in s.receipts && n in s.settlements && s.settlements[n].provider in s.providers
    ensures IsSettled(s, FinalizeEffect(s, n, to), n)
  {
    FinalizableIsRecorded(s, n, to);
    RecordedIsSettleable(s, n, to);
    SettledIsSettled(s, n, to);
  }

  // ---- closing -------------------------------------------------------------

  /** A receipt can be closed exactly when the masterpool is done with it: settled or reverted. */
  lemma CloseReceiptSucceedsExactly(s: State, n: Nonce)
    requires Inv(s) && n in s.receipts
    ensures n in s.settlements
    ensures CloseReceiptGuard(s, n).Ok? <==> s.settlements[n].status != Recorded
  {
    assert ReceiptOk(s, n);
  }

  /** And a challenge exactly when its bond is no longer locked. */
  lemma CloseChallengeSucceedsExactly(s: State, n: Nonce)
    requires Inv(s) && n in s.challenges
    ensures n in s.bonds
    ensures CloseChallengeGuard(s, n).Ok? <==> s.bonds[n].status != Locked
  {
    assert ChallengeOk(s, n);
  }
}
