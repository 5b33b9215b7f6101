/**
 * The on-chain flash-loan arbitrage program: its `initialize` instruction and
 * the `reimburse_relayer` instruction that pays the relayer (the fee payer)
 * back for gas plus a bounty out of the user's lamports.
 *
 * The validation is a pure function returning either an error tag or the
 * one transfer it requests; `Bank` holds the state that the instructions
 * change (lamport balances and the program log).
 */
module FlashLoanArbitrage {
  import opened Wrappers
  import opened U64Arith
  import opened SystemProgram

  /** The program's own error codes. */
  datatype ArbitrageError =
    | UnprofitableArbitrage  // the expected profit is not above gas cost plus bounty
    | MathOverflow           // gas cost plus bounty does not fit in a u64
    | UnauthorizedRelayer    // the relayer did not sign

  /** What an instruction of this program can fail with. */
  datatype ProgramError =
    | Arbitrage(code: ArbitrageError)  // raised by the program itself
    | Cpi(cause: SystemError)          // propagated from the system-program transfer

  /** An account passed to an instruction: its address and whether it signed. */
  datatype AccountInfo<K> = AccountInfo(key: K, isSigner: bool)

  /** The accounts of `reimburse_relayer` that the instruction reads. */
  datatype ReimburseAccounts<K> = ReimburseAccounts(
    user: AccountInfo<K>,
    relayer: AccountInfo<K>,
    userTokenAmount: U64  // `user_token_account.amount`
  )

  /** Lines the program writes to the transaction log with `msg!`. */
  datatype LogLine =
    | Initialized                // "Flash Loan Arbitrage initialized"
    | CurrentBalance(amount: U64) // "Current Arbitrage Balance: {}"
    | Reimbursed(lamports: U64)   // "Reimbursed relayer {} lamports"

  /**
   * The checks of `reimburse_relayer`, in the program's order: the relayer
   * signed, gas cost plus bounty does not overflow, and the expected profit
   * exceeds that total. The first failing check decides the error; when all
   * pass, the one transfer requested moves the total from user to relayer.
   */
  function ValidateReimbursement<K>(accounts: ReimburseAccounts<K>, expectedProfit: U64, gasCost: U64, relayerBounty: U64)
    : (r: Result<Transfer<K>, ArbitrageError>)
    ensures r == Err(UnauthorizedRelayer) <==> !accounts.relayer.isSigner
    ensures r == Err(MathOverflow) <==> accounts.relayer.isSigner && gasCost + relayerBounty > U64_MAX
    ensures r == Err(UnprofitableArbitrage) <==>
              accounts.relayer.isSigner && gasCost + relayerBounty <= U64_MAX && expectedProfit <= gasCost + relayerBounty
    ensures r.Ok? <==> accounts.relayer.isSigner && gasCost + relayerBounty < expectedProfit
    ensures r.Ok? ==> r.value == Transfer(accounts.user.key, accounts.relayer.key, gasCost + relayerBounty)
    ensures r.Ok? ==> r.value.lamports < expectedProfit
  {
    if !accounts.relayer.isSigner then
      Err(UnauthorizedRelayer)
    else
      match CheckedAdd(gasCost, relayerBounty)
      case None => Err(MathOverflow)
      case Some(totalCost) =>
        if !(expectedProfit > totalCost) then Err(UnprofitableArbitrage)
        else Ok(Transfer(accounts.user.key, accounts.relayer.key, totalCost))
  }

  /** The user's token balance is only logged: no decision depends on it. */
  lemma ValidationIgnoresTokenBalance<K>(a: ReimburseAccounts<K>, b: ReimburseAccounts<K>,
                                         expectedProfit: U64, gasCost: U64, relayerBounty: U64)
    requires a.user == b.user && a.relayer == b.relayer
    ensures ValidateReimbursement(a, expectedProfit, gasCost, relayerBounty)
         == ValidateReimbursement(b, expectedProfit, gasCost, relayerBounty)
  {
  }

  /**
   * The ledger the program runs against: the lamports of every account and
   * the program log.
   */
  class Bank<K(==)> {
    var lamports: map<K, U64>
    var log: seq<LogLine>

    constructor (lamports: map<K, U64>)
      ensures this.lamports == lamports && log == []
    {
      this.lamports := lamports;
      log := [];
    }

    /** `initialize`: logs one line and succeeds; no balance changes. */
    method Initialize() returns (r: Outcome<ProgramError>)
      modifies this
      ensures r == Pass
      ensures lamports == old(lamports)
      ensures log == old(log) + [Initialized]
    {
      log := log + [Initialized];
      r := Pass;
    }

    /** `invoke` of a system-program transfer: the balances change only when it succeeds. */
    method Invoke(t: Transfer<K>) returns (r: Outcome<SystemError>)
      modifies this
      ensures ApplyTransfer(old(lamports), t).Ok? ==>
                r == Pass && lamports == ApplyTransfer(old(lamports), t).value
      ensures ApplyTransfer(old(lamports), t).Err? ==>
                r == Fail(ApplyTransfer(old(lamports), t).error) && lamports == old(lamports)
      ensures r == Pass ==> Total(lamports) == Total(old(lamports))
      ensures log == old(log)
    {
      match ApplyTransfer(lamports, t)
      case Ok(after) =>
        TransferConservesLamports(lamports, t);
        lamports := after;
        r := Pass;
      case Err(e) =>
        r := Fail(e);
    }

    /**
     * `reimburse_relayer`: validate, log the user's token balance, transfer
     * gas cost plus bounty from user to relayer, log the amount.
     */
    method ReimburseRelayer(accounts: ReimburseAccounts<K>, expectedProfit: U64, gasCost: U64, relayerBounty: U64)
      returns (r: Outcome<ProgramError>)
      modifies this
      ensures var v := ValidateReimbursement(accounts, expectedProfit, gasCost, relayerBounty);
                v.Err? ==> r == Fail(Arbitrage(v.error)) && lamports == old(lamports) && log == old(log)
      ensures var v := ValidateReimbursement(accounts, expectedProfit, gasCost, relayerBounty);
                v.Ok? && ApplyTransfer(old(lamports), v.value).Err? ==>
                  && r == Fail(Cpi(ApplyTransfer(old(lamports), v.value).error))
                  && lamports == old(lamports)
                  && log == old(log) + [CurrentBalance(accounts.userTokenAmount)]
      ensures var v := ValidateReimbursement(accounts, expectedProfit, gasCost, relayerBounty);
                v.Ok? && ApplyTransfer(old(lamports), v.value).Ok? ==>
                  && r == Pass
                  && lamports == ApplyTransfer(old(lamports), v.value).value
                  && log == old(log) + [CurrentBalance(accounts.userTokenAmount), Reimbursed(gasCost + relayerBounty)]
      ensures r == Pass ==> gasCost + relayerBounty < expectedProfit && Total(lamports) == Total(old(lamports))
    {
      var v := ValidateReimbursement(accounts, expectedProfit, gasCost, relayerBounty);
      if v.Err? {
        return Fail(Arbitrage(v.error));
      }
      var transfer := v.value;
      log := log + [CurrentBalance(accounts.userTokenAmount)];
      var cpi := Invoke(transfer);
      if cpi.Fail? {
        return Fail(Cpi(cpi.error));
      }
      log := log + [Reimbursed(transfer.lamports)];
      r := Pass;
    }
  }
}
