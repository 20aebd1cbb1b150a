/** What happens between instructions: time passes, other programs move tokens, registries and switches change. */
module Environment {
  import opened Outcomes
  import opened TokenLedger
  import opened Accounts

  /** What other programs and holders may do to token accounts: anything that obeys the token program. Vaults can only
      gain, since nobody else signs for the pool authority, and only its holder mints with a mint authority. */
  ghost predicate OutsideOk(s: State, l: Ledger) {
    && Custody(s.ledger, s.poolAuthority)
    && Conserved(l) && Custody(l, s.poolAuthority)
    && (forall id: TokenId :: !id.Held? ==> l.accounts[id].amount >= s.ledger.accounts[id].amount)
    && (s.ledger.clawMintAuthority == None || s.ledger.clawMintAuthority == Some(s.poolAuthority) ==>
          l.clawMintAuthority == s.ledger.clawMintAuthority && l.clawSupply <= s.ledger.clawSupply)
  }

  /** Whatever a vault gained, it was given; whatever the supply changed by, outsiders changed it. */
  ghost function OutsideHistory(s: State, l: Ledger): History
    requires OutsideOk(s, l)
  {
    s.history.(
      gifts := map id | id in l.accounts && !id.Held? ::
        Gift(s.history, id) + l.accounts[id].amount - s.ledger.accounts[id].amount,
      outsideSupply := s.history.outsideSupply + l.clawSupply - s.ledger.clawSupply)
  }

  ghost function OutsideEffect(s: State, l: Ledger): State
    requires OutsideOk(s, l)
  {
    s.(ledger := l, history := OutsideHistory(s, l))
  }
}
