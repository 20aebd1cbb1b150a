/** The token program as the two programs use it: accounts, delegates, transfers, burns and one mint. */
module TokenLedger {
  import opened Outcomes
  import opened Widths
  import opened Sums

  type Bytes32 = b: seq<u8> | |b| == 32 witness seq(32, _ => 0)

  datatype Pubkey = Pubkey(bytes: Bytes32)

  datatype Mint = Claw | Usdc

  /** The program-derived vaults have addresses of their own; every other token account has a plain one. */
  datatype TokenId =
    | RewardVault | BondVault | TreasuryVault | StakeVault | EscrowVault | FaucetClawVault | FaucetUsdcVault
    | Held(address: Pubkey)

  datatype TokenAccount = TokenAccount(
    mint: Mint, owner: Pubkey, amount: int, delegate: Option<Pubkey>, allowance: int)

  datatype Ledger = Ledger(
    accounts: map<TokenId, TokenAccount>,
    clawSupply: int,
    usdcSupply: int,
    clawMintAuthority: Option<Pubkey>,
    clawFreezeAuthority: Option<Pubkey>)

  function VaultMint(id: TokenId): Mint {
    if id.RewardVault? || id.BondVault? || id.FaucetClawVault? then Claw else Usdc
  }

  function Supply(l: Ledger, mint: Mint): int {
    if mint.Claw? then l.clawSupply else l.usdcSupply
  }

  // ---- debits --------------------------------------------------------------

  /** Whether `authority` may take `amount` out of the account: the delegate is tried before the owner. */
  function DebitGuard(t: TokenAccount, authority: Pubkey, amount: int): Result<()> {
    var delegated := t.delegate == Some(authority);
    if t.amount < amount then Err(TokenInsufficientFunds) else
    if delegated then
      if t.allowance < amount then Err(TokenInsufficientFunds) else
      Ok(())
    else
      if t.owner != authority then Err(TokenOwnerMismatch) else
      Ok(())
  }

  /** A delegated debit uses up allowance, and a delegate whose allowance is used up is forgotten. */
  function Debited(t: TokenAccount, authority: Pubkey, amount: int): TokenAccount {
    var t' := t.(amount := t.amount - amount);
    if t.delegate == Some(authority) then
      t'.(allowance := t.allowance - amount,
          delegate := if t.allowance == amount then None else t.delegate)
    else t'
  }

  // ---- transfer ------------------------------------------------------------

  /** What a caller must see to: accounts, funds, mints, authority. */
  function PayGuard(l: Ledger, from: TokenId, mint: Mint, to: TokenId, authority: Pubkey, amount: int): Result<()> {
    var accounts := l.accounts;
    if !(from in accounts && to in accounts) then Err(AccountNotInitialized) else
    if accounts[from].amount < amount then Err(TokenInsufficientFunds) else
    if !(accounts[from].mint == mint == accounts[to].mint) then Err(TokenMintMismatch) else
    DebitGuard(accounts[from], authority, amount)
  }

  function Move(l: Ledger, from: TokenId, to: TokenId, authority: Pubkey, amount: int): Ledger
    requires from in l.accounts && to in l.accounts
  {
    if from == to then l
    else
      var source := Debited(l.accounts[from], authority, amount);
      var target := l.accounts[to].(amount := l.accounts[to].amount + amount);
      l.(accounts := l.accounts[from := source][to := target])
  }

  /** `transfer_checked`: the credit of the target is a checked addition. */
  function Transfer(l: Ledger, from: TokenId, mint: Mint, to: TokenId, authority: Pubkey, amount: int): Result<Ledger> {
    var _ :- PayGuard(l, from, mint, to, authority, amount);
    if !(from == to || FitsU64(l.accounts[to].amount + amount)) then Err(TokenOverflow) else
    Ok(Move(l, from, to, authority, amount))
  }

  // ---- burn and mint of CLAW -----------------------------------------------

  function Burned(l: Ledger, from: TokenId, authority: Pubkey, amount: int): Ledger
    requires from in l.accounts
  {
    l.(accounts := l.accounts[from := Debited(l.accounts[from], authority, amount)],
       clawSupply := l.clawSupply - amount)
  }

  function Burn(l: Ledger, from: TokenId, authority: Pubkey, amount: int): Result<Ledger> {
    var accounts := l.accounts;
    if from !in accounts then Err(AccountNotInitialized) else
    if accounts[from].mint != Claw then Err(TokenMintMismatch) else
    var _ :- DebitGuard(accounts[from], authority, amount);
    if !FitsU64(l.clawSupply - amount) then Err(TokenOverflow) else
    Ok(Burned(l, from, authority, amount))
  }

  function Minted(l: Ledger, to: TokenId, amount: int): Ledger
    requires to in l.accounts
  {
    l.(accounts := l.accounts[to := l.accounts[to].(amount := l.accounts[to].amount + amount)],
       clawSupply := l.clawSupply + amount)
  }

  function MintTo(l: Ledger, to: TokenId, authority: Pubkey, amount: int): Result<Ledger> {
    var accounts := l.accounts;
    if to !in accounts then Err(AccountNotInitialized) else
    if accounts[to].mint != Claw then Err(TokenMintMismatch) else
    if l.clawMintAuthority != Some(authority) then Err(TokenOwnerMismatch) else
    if !FitsU64(l.clawSupply + amount) then Err(TokenOverflow) else
    if !FitsU64(accounts[to].amount + amount) then Err(TokenOverflow) else
    Ok(Minted(l, to, amount))
  }

  // ---- conservation --------------------------------------------------------

  ghost function Balance(mint: Mint): TokenAccount -> int {
    (t: TokenAccount) => if t.mint == mint then t.amount else 0
  }

  /** Every unit of a mint sits in exactly one account, and every number fits its field. */
  ghost predicate Conserved(l: Ledger) {
    && (forall id :: id in l.accounts ==> l.accounts[id].amount >= 0 && l.accounts[id].allowance >= 0)
    && (forall mint :: Sum(l.accounts, Balance(mint)) == Supply(l, mint) && FitsU64(Supply(l, mint)))
  }

  /** The seven vaults exist; what the pool authority owns has no delegate, so only the programs spend it. */
  ghost predicate Custody(l: Ledger, pool: Pubkey) {
    && (forall id: TokenId :: !id.Held? ==>
        id in l.accounts && l.accounts[id].owner == pool && l.accounts[id].mint == VaultMint(id))
    && (forall id :: id in l.accounts && l.accounts[id].owner == pool ==> l.accounts[id].delegate == None)
  }

  lemma AmountFits(l: Ledger, id: TokenId)
    requires Conserved(l) && id in l.accounts
    ensures 0 <= l.accounts[id].amount <= Supply(l, l.accounts[id].mint) <= U64_MAX
  {
    SumAtLeast(l.accounts, id, Balance(l.accounts[id].mint));
  }

  /** A payment that its payer can make succeeds: the credit cannot overflow. */
  lemma PaymentSucceeds(l: Ledger, from: TokenId, mint: Mint, to: TokenId, authority: Pubkey, amount: int)
    requires Conserved(l) && amount >= 0
    requires PayGuard(l, from, mint, to, authority, amount).Ok?
    ensures Transfer(l, from, mint, to, authority, amount) == Ok(Move(l, from, to, authority, amount))
  {
    if from != to {
      SumAtLeastTwo(l.accounts, from, to, Balance(mint));
    }
  }

  lemma MoveConserves(l: Ledger, from: TokenId, to: TokenId, authority: Pubkey, amount: int)
    requires Conserved(l) && amount >= 0 && from in l.accounts && to in l.accounts
    requires l.accounts[from].mint == l.accounts[to].mint
    requires DebitGuard(l.accounts[from], authority, amount).Ok?
    ensures Conserved(Move(l, from, to, authority, amount))
  {
    if from != to {
      var source := Debited(l.accounts[from], authority, amount);
      var target := l.accounts[to].(amount := l.accounts[to].amount + amount);
      forall mint ensures Sum(Move(l, from, to, authority, amount).accounts, Balance(mint)) == Supply(l, mint) {
        SumPut(l.accounts, from, source, Balance(mint));
        SumPut(l.accounts[from := source], to, target, Balance(mint));
      }
    }
  }

  lemma BurnConserves(l: Ledger, from: TokenId, authority: Pubkey, amount: int)
    requires Conserved(l) && amount >= 0 && from in l.accounts && l.accounts[from].mint == Claw
    requires DebitGuard(l.accounts[from], authority, amount).Ok?
    ensures Burn(l, from, authority, amount) == Ok(Burned(l, from, authority, amount))
    ensures Conserved(Burned(l, from, authority, amount))
  {
    AmountFits(l, from);
    var l' := Burned(l, from, authority, amount);
    forall mint ensures Sum(l'.accounts, Balance(mint)) == Supply(l', mint) {
      SumPut(l.accounts, from, Debited(l.accounts[from], authority, amount), Balance(mint));
    }
  }

  lemma MintConserves(l: Ledger, to: TokenId, amount: int)
    requires Conserved(l) && amount >= 0 && to in l.accounts && l.accounts[to].mint == Claw
    requires FitsU64(l.clawSupply + amount)
    ensures FitsU64(l.accounts[to].amount + amount)
    ensures Conserved(Minted(l, to, amount))
  {
    AmountFits(l, to);
    forall mint ensures Sum(Minted(l, to, amount).accounts, Balance(mint)) == Supply(Minted(l, to, amount), mint) {
      SumPut(l.accounts, to, l.accounts[to].(amount := l.accounts[to].amount + amount), Balance(mint));
    }
  }

  /** A payment a holder is able to make goes through and keeps the books of the token program. */
  lemma HolderPays(l: Ledger, pool: Pubkey, from: TokenId, mint: Mint, to: TokenId, authority: Pubkey, amount: int)
    requires Conserved(l) && Custody(l, pool) && amount >= 0
    requires PayGuard(l, from, mint, to, authority, amount).Ok?
    ensures Transfer(l, from, mint, to, authority, amount) == Ok(Move(l, from, to, authority, amount))
    ensures Conserved(Move(l, from, to, authority, amount)) && Custody(Move(l, from, to, authority, amount), pool)
  {
    PaymentSucceeds(l, from, mint, to, authority, amount);
    MoveConserves(l, from, to, authority, amount);
  }

  /** So does a payment out of a vault that holds the amount, to any account of the same mint. */
  lemma VaultPays(l: Ledger, pool: Pubkey, vault: TokenId, to: TokenId, amount: int)
    requires Conserved(l) && Custody(l, pool) && !vault.Held? && to in l.accounts
    requires l.accounts[to].mint == VaultMint(vault) && 0 <= amount <= l.accounts[vault].amount
    ensures Transfer(l, vault, VaultMint(vault), to, pool, amount) == Ok(Move(l, vault, to, pool, amount))
    ensures Conserved(Move(l, vault, to, pool, amount)) && Custody(Move(l, vault, to, pool, amount), pool)
  {
    HolderPays(l, pool, vault, VaultMint(vault), to, pool, amount);
  }

  lemma VaultBurns(l: Ledger, pool: Pubkey, vault: TokenId, amount: int)
    requires Conserved(l) && Custody(l, pool) && !vault.Held? && VaultMint(vault) == Claw
    requires 0 <= amount <= l.accounts[vault].amount
    ensures Burn(l, vault, pool, amount) == Ok(Burned(l, vault, pool, amount))
    ensures Conserved(Burned(l, vault, pool, amount)) && Custody(Burned(l, vault, pool, amount), pool)
  {
    BurnConserves(l, vault, pool, amount);
  }
}
