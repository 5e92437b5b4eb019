/** The wallet panel: the ETH transfer form with its ordered checks, and the
    button that withdraws a venue owner's earnings. The wallet, the balance
    and the transaction are inputs: `isConnected`, `account` ("" when there
    is none), the outcome of the transaction, and two tests on the typed
    amount that stand for its floating-point checks. */
module WalletConnect {
  import opened Wrappers
  import opened JsText
  import opened ContractHelpers

  const FieldsError := "Please enter a valid address and amount"
  const AddressError := "Invalid Ethereum address"
  const AmountError := "Invalid amount"
  const BalanceError := "Insufficient balance"
  const TransferFallbackError := "Failed to transfer ETH"
  const WithdrawFallbackError := "Failed to withdraw payment. You may not have any earnings to withdraw."

  // ---------------------------------------------------------------------
  // The address pattern /^0x[a-fA-F0-9]{40}$/
  // ---------------------------------------------------------------------

  /** `s` is exactly `n` hexadecimal digits of either case. */
  predicate HexRun(s: string, n: nat)
    decreases |s|
  {
    if |s| == 0 then n == 0
    else n > 0 && IsHexDigit(s[0]) && HexRun(s[1..], n - 1)
  }

  /** The pattern, anchored at both ends: a lower-case `0x` and forty hex digits. */
  predicate IsAddress(s: string)
  {
    |s| >= 2 && s[0] == '0' && s[1] == 'x' && HexRun(s[2..], 40)
  }

  lemma {:induction false} HexRunIff(s: string, n: nat)
    ensures HexRun(s, n) <==> |s| == n && forall i :: 0 <= i < |s| ==> IsHexDigit(s[i])
    decreases |s|
  {
    if |s| > 0 && n > 0 {
      HexRunIff(s[1..], n - 1);
      assert forall i :: 1 <= i < |s| ==> s[i] == s[1..][i - 1];
    }
  }

  /** An address is accepted exactly when it has 42 characters, begins with a
      lower-case `0x`, and every later character is a hex digit. */
  lemma AddressIff(s: string)
    ensures IsAddress(s) <==>
      && |s| == 42 && s[0] == '0' && s[1] == 'x'
      && forall i :: 2 <= i < 42 ==> IsHexDigit(s[i])
  {
    if |s| >= 2 {
      HexRunIff(s[2..], 40);
      assert forall i :: 2 <= i < |s| ==> s[i] == s[2..][i - 2];
    }
  }

  /** Forty hex digits after an upper-case `0X` are refused, and so is one
      digit too few or too many. */
  lemma AddressRejects(digits: string)
    requires |digits| == 40 && forall i :: 0 <= i < 40 ==> IsHexDigit(digits[i])
    ensures IsAddress("0x" + digits)
    ensures !IsAddress("0X" + digits)
    ensures !IsAddress("0x" + digits[1..])
    ensures !IsAddress("0x" + digits + "0")
  {
    AddressIff("0x" + digits);
    assert forall i :: 2 <= i < 42 ==> ("0x" + digits)[i] == digits[i - 2];
    AddressIff("0x" + digits[1..]);
    AddressIff("0x" + digits + "0");
  }

  // ---------------------------------------------------------------------
  // The transfer checks
  // ---------------------------------------------------------------------

  /** The first failed check of `handleTransfer`, or None when every check
      passes. `amountValid` stands for `!isNaN(parseFloat(amount)) &&
      parseFloat(amount) > 0`, `affordable` for `!(parseFloat(amount) >
      parseFloat(balance))`. */
  function ValidateTransfer(isConnected: bool, account: string, address: string, amount: string,
                            amountValid: string -> bool, affordable: string -> bool): (r: Option<string>)
    ensures r.None? ==> isConnected && account != "" && IsAddress(address) && amountValid(amount) && affordable(amount)
    ensures r.Some? ==> r.value in {FieldsError, AddressError, AmountError, BalanceError}
  {
    if !isConnected || account == "" || address == "" || amount == "" then Some(FieldsError)
    else if !IsAddress(address) then Some(AddressError)
    else if !amountValid(amount) then Some(AmountError)
    else if !affordable(amount) then Some(BalanceError)
    else None
  }

  /** A check of the chain: whether it passed, and the message when it did not. */
  datatype Check = Check(passed: bool, message: string)

  /** The message of the first check that did not pass. */
  function FirstFailure(checks: seq<Check>): (r: Option<string>)
    ensures r.None? <==> forall i :: 0 <= i < |checks| ==> checks[i].passed
    ensures r.Some? ==> exists i :: 0 <= i < |checks| && !checks[i].passed && checks[i].message == r.value
                                    && forall j :: 0 <= j < i ==> checks[j].passed
  {
    if |checks| == 0 then None
    else if !checks[0].passed then Some(checks[0].message)
    else
      var rest := FirstFailure(checks[1..]);
      assert forall i :: 1 <= i < |checks| ==> checks[i] == checks[1..][i - 1];
      if rest.Some? then
        assert exists i :: 1 <= i < |checks| && !checks[i].passed && checks[i].message == rest.value
                           && forall j :: 0 <= j < i ==> checks[j].passed by {
          var k :| 0 <= k < |checks[1..]| && !checks[1..][k].passed && checks[1..][k].message == rest.value
                   && forall j :: 0 <= j < k ==> checks[1..][j].passed;
          assert forall j :: 1 <= j < k + 1 ==> checks[j] == checks[1..][j - 1];
        }
        rest
      else rest
  }

  /** The four checks in the order the handler runs them. */
  function TransferChecks(isConnected: bool, account: string, address: string, amount: string,
                          amountValid: string -> bool, affordable: string -> bool): seq<Check>
  {
    [ Check(isConnected && account != "" && address != "" && amount != "", FieldsError),
      Check(IsAddress(address), AddressError),
      Check(amountValid(amount), AmountError),
      Check(affordable(amount), BalanceError) ]
  }

  /** The handler's chain of early returns reports the first failed check of
      the list, so a later check never hides an earlier one. */
  lemma ValidationOrder(isConnected: bool, account: string, address: string, amount: string,
                        amountValid: string -> bool, affordable: string -> bool)
    ensures ValidateTransfer(isConnected, account, address, amount, amountValid, affordable)
         == FirstFailure(TransferChecks(isConnected, account, address, amount, amountValid, affordable))
  {
    var checks := TransferChecks(isConnected, account, address, amount, amountValid, affordable);
    assert checks[1..] == [checks[1], checks[2], checks[3]];
    assert checks[1..][1..] == [checks[2], checks[3]];
    assert checks[1..][1..][1..] == [checks[3]];
    assert FirstFailure(checks[1..][1..][1..][1..]) == None;
  }

  /** Each message names exactly its own check failing after all earlier ones
      passed. */
  lemma ValidationMessages(isConnected: bool, account: string, address: string, amount: string,
                           amountValid: string -> bool, affordable: string -> bool)
    ensures var r := ValidateTransfer(isConnected, account, address, amount, amountValid, affordable);
      var fields := isConnected && account != "" && address != "" && amount != "";
      && (r == Some(FieldsError) <==> !fields)
      && (r == Some(AddressError) <==> fields && !IsAddress(address))
      && (r == Some(AmountError) <==> fields && IsAddress(address) && !amountValid(amount))
      && (r == Some(BalanceError) <==> fields && IsAddress(address) && amountValid(amount) && !affordable(amount))
      && (r == None <==> fields && IsAddress(address) && amountValid(amount) && affordable(amount))
  {
    assert |FieldsError| == 39 && |AddressError| == 24 && |AmountError| == 14 && |BalanceError| == 20;
  }

  // ---------------------------------------------------------------------
  // The panel's state and its transitions
  // ---------------------------------------------------------------------

  /** What `signer.sendTransaction` is asked to send. */
  datatype Transfer = Transfer(to: string, amount: string)

  datatype WalletState = WalletState(
    withdrawLoading: bool,
    withdrawError: Option<string>,
    withdrawSuccess: bool,
    transferAmount: string,
    transferAddress: string,
    transferLoading: bool,
    transferError: Option<string>,
    transferSuccess: bool)

  /** The transaction `handleTransfer` sends, if it sends one. */
  function TransferSent(s: WalletState, isConnected: bool, account: string,
                        amountValid: string -> bool, affordable: string -> bool): Option<Transfer>
  {
    if ValidateTransfer(isConnected, account, s.transferAddress, s.transferAmount, amountValid, affordable).None?
    then Some(Transfer(s.transferAddress, s.transferAmount))
    else None
  }

  /** `handleTransfer` once the transaction has its outcome. */
  function AfterTransfer(s: WalletState, isConnected: bool, account: string,
                         amountValid: string -> bool, affordable: string -> bool, outcome: TxOutcome): WalletState
  {
    match ValidateTransfer(isConnected, account, s.transferAddress, s.transferAmount, amountValid, affordable)
    case Some(message) => s.(transferError := Some(message))
    case None =>
      match outcome
      case Confirmed =>
        s.(transferLoading := false, transferError := None, transferSuccess := true,
           transferAmount := "", transferAddress := "")
      case Failed(message) =>
        s.(transferLoading := false, transferError := Some(OrElse(message, TransferFallbackError)),
           transferSuccess := false)
  }

  /** `handleWithdrawPayment` once the transaction has its outcome. */
  function AfterWithdraw(s: WalletState, isConnected: bool, hasContract: bool, outcome: TxOutcome): WalletState
  {
    if !isConnected || !hasContract then s
    else
      match outcome
      case Confirmed => s.(withdrawLoading := false, withdrawError := None, withdrawSuccess := true)
      case Failed(message) =>
        s.(withdrawLoading := false, withdrawError := Some(OrElse(message, WithdrawFallbackError)),
           withdrawSuccess := false)
  }

  /** Missing connection, account, address or amount: the fields message, no
      transaction, and nothing else changes. */
  lemma MissingFieldsRefused(s: WalletState, isConnected: bool, account: string,
                             amountValid: string -> bool, affordable: string -> bool, outcome: TxOutcome)
    requires !isConnected || account == "" || s.transferAddress == "" || s.transferAmount == ""
    ensures TransferSent(s, isConnected, account, amountValid, affordable) == None
    ensures AfterTransfer(s, isConnected, account, amountValid, affordable, outcome) == s.(transferError := Some(FieldsError))
  {
  }

  /** A failed check sends nothing and sets only the error: the spinner, the
      success flag and both fields stay as they were. A transaction is sent
      exactly when every check passes, with the typed address and amount. */
  lemma TransferValidation(s: WalletState, isConnected: bool, account: string,
                           amountValid: string -> bool, affordable: string -> bool, outcome: TxOutcome)
    ensures var v := ValidateTransfer(isConnected, account, s.transferAddress, s.transferAmount, amountValid, affordable);
      && (TransferSent(s, isConnected, account, amountValid, affordable).Some? <==> v.None?)
      && (v.None? ==> TransferSent(s, isConnected, account, amountValid, affordable)
                        == Some(Transfer(s.transferAddress, s.transferAmount)))
      && (v.Some? ==> AfterTransfer(s, isConnected, account, amountValid, affordable, outcome) == s.(transferError := v))
  {
  }

  /** After a sent transfer the spinner is off. A confirmed transfer clears both
      fields and shows success; a failed one keeps both fields and shows the
      wallet's message, or the fallback when it has none. */
  lemma TransferOutcome(s: WalletState, isConnected: bool, account: string,
                        amountValid: string -> bool, affordable: string -> bool, outcome: TxOutcome)
    requires TransferSent(s, isConnected, account, amountValid, affordable).Some?
    ensures var t := AfterTransfer(s, isConnected, account, amountValid, affordable, outcome);
      && !t.transferLoading
      && t.withdrawLoading == s.withdrawLoading && t.withdrawError == s.withdrawError
      && t.withdrawSuccess == s.withdrawSuccess
      && (outcome.Confirmed? ==>
            t.transferSuccess && t.transferError == None && t.transferAmount == "" && t.transferAddress == "")
      && (outcome.Failed? ==>
            && !t.transferSuccess
            && t.transferAmount == s.transferAmount && t.transferAddress == s.transferAddress
            && t.transferError == Some(if outcome.message == "" then TransferFallbackError else outcome.message))
  {
  }

  /** Submitting again after a confirmed transfer is refused for missing fields. */
  lemma ConfirmedTransferEmptiesForm(s: WalletState, isConnected: bool, account: string,
                                     amountValid: string -> bool, affordable: string -> bool, next: TxOutcome)
    requires TransferSent(s, isConnected, account, amountValid, affordable).Some?
    ensures var t := AfterTransfer(s, isConnected, account, amountValid, affordable, Confirmed);
      && TransferSent(t, isConnected, account, amountValid, affordable) == None
      && AfterTransfer(t, isConnected, account, amountValid, affordable, next).transferError == Some(FieldsError)
  {
  }

  /** The message of the ReferenceError for the name `ethers`. */
  const EthersMissing := "ethers is not defined"

  /** `handleTransfer` as the file stands: `ethers` is not imported, so
      `new ethers.providers.Web3Provider` throws inside the `try`, before any
      transaction is sent, and the `catch` shows the error's message. */
  function AfterTransferAsWritten(s: WalletState, isConnected: bool, account: string,
                                  amountValid: string -> bool, affordable: string -> bool): WalletState
  {
    match ValidateTransfer(isConnected, account, s.transferAddress, s.transferAmount, amountValid, affordable)
    case Some(message) => s.(transferError := Some(message))
    case None => s.(transferLoading := false, transferError := Some(EthersMissing), transferSuccess := false)
  }

  /** As written, a transfer that passes every check never succeeds: it shows
      "ethers is not defined", keeps both fields, and matches the intended
      handler only when the wallet's transaction fails with that message. */
  lemma TransferAsWrittenFails(s: WalletState, isConnected: bool, account: string,
                               amountValid: string -> bool, affordable: string -> bool)
    requires TransferSent(s, isConnected, account, amountValid, affordable).Some?
    ensures var t := AfterTransferAsWritten(s, isConnected, account, amountValid, affordable);
      && !t.transferSuccess && t.transferError == Some(EthersMissing)
      && t.transferAmount == s.transferAmount && t.transferAddress == s.transferAddress
      && t == AfterTransfer(s, isConnected, account, amountValid, affordable, Failed(EthersMissing))
      && t != AfterTransfer(s, isConnected, account, amountValid, affordable, Confirmed)
  {
  }

  /** Without a connection or a contract the withdraw button does nothing. */
  lemma WithdrawGuard(s: WalletState, isConnected: bool, hasContract: bool, outcome: TxOutcome)
    requires !isConnected || !hasContract
    ensures AfterWithdraw(s, isConnected, hasContract, outcome) == s
  {
  }

  /** Otherwise the previous error and success are reset before the attempt:
      success leaves no error, a failure leaves no success, and the transfer
      form is untouched either way. */
  lemma WithdrawOutcome(s: WalletState, outcome: TxOutcome)
    ensures var t := AfterWithdraw(s, true, true, outcome);
      && !t.withdrawLoading
      && t.(withdrawLoading := s.withdrawLoading, withdrawError := s.withdrawError, withdrawSuccess := s.withdrawSuccess) == s
      && (outcome.Confirmed? ==> t.withdrawSuccess && t.withdrawError == None)
      && (outcome.Failed? ==>
            !t.withdrawSuccess
            && t.withdrawError == Some(if outcome.message == "" then WithdrawFallbackError else outcome.message))
  {
  }

  // ---------------------------------------------------------------------
  // The component
  // ---------------------------------------------------------------------

  class Wallet {
    var withdrawLoading: bool
    var withdrawError: Option<string>
    var withdrawSuccess: bool
    var transferAmount: string
    var transferAddress: string
    var transferLoading: bool
    var transferError: Option<string>
    var transferSuccess: bool

    function State(): WalletState
      reads this
    {
      WalletState(withdrawLoading, withdrawError, withdrawSuccess, transferAmount, transferAddress,
                  transferLoading, transferError, transferSuccess)
    }

    constructor ()
      ensures State() == WalletState(false, None, false, "", "", false, None, false)
    {
      withdrawLoading := false;
      withdrawError := None;
      withdrawSuccess := false;
      transferAmount := "";
      transferAddress := "";
      transferLoading := false;
      transferError := None;
      transferSuccess := false;
    }

    /** The recipient input's `onChange`. */
    method SetTransferAddress(value: string)
      modifies this`transferAddress
      ensures transferAddress == value
    {
      transferAddress := value;
    }

    /** The amount input's `onChange`. */
    method SetTransferAmount(value: string)
      modifies this`transferAmount
      ensures transferAmount == value
    {
      transferAmount := value;
    }

    /** `handleTransfer`: the checks as early returns, then the transaction,
        whose outcome is `outcome`. Returns the transaction sent, if any. */
    method HandleTransfer(isConnected: bool, account: string, amountValid: string -> bool,
                          affordable: string -> bool, outcome: TxOutcome) returns (sent: Option<Transfer>)
      modifies this`transferAmount, this`transferAddress, this`transferLoading,
               this`transferError, this`transferSuccess
      ensures sent == TransferSent(old(State()), isConnected, account, amountValid, affordable)
      ensures State() == AfterTransfer(old(State()), isConnected, account, amountValid, affordable, outcome)
    {
      if !isConnected || account == "" || transferAddress == "" || transferAmount == "" {
        transferError := Some(FieldsError);
        return None;
      }
      if !IsAddress(transferAddress) {
        transferError := Some(AddressError);
        return None;
      }
      if !amountValid(transferAmount) {
        transferError := Some(AmountError);
        return None;
      }
      if !affordable(transferAmount) {
        transferError := Some(BalanceError);
        return None;
      }
      transferLoading := true;
      transferError := None;
      transferSuccess := false;
      sent := Some(Transfer(transferAddress, transferAmount));
      match outcome {
        case Confirmed =>
          transferSuccess := true;
          transferAmount := "";
          transferAddress := "";
        case Failed(message) =>
          transferError := Some(OrElse(message, TransferFallbackError));
      }
      transferLoading := false;
    }

    /** `handleWithdrawPayment`, with `outcome` the result of `withdrawPayment`.
        Returns whether the withdrawal was attempted. */
    method HandleWithdrawPayment(isConnected: bool, hasContract: bool, outcome: TxOutcome) returns (attempted: bool)
      modifies this`withdrawLoading, this`withdrawError, this`withdrawSuccess
      ensures attempted <==> isConnected && hasContract
      ensures State() == AfterWithdraw(old(State()), isConnected, hasContract, outcome)
    {
      if !isConnected || !hasContract {
        return false;
      }
      withdrawLoading := true;
      withdrawError := None;
      withdrawSuccess := false;
      attempted := true;
      match outcome {
        case Confirmed =>
          withdrawSuccess := true;
        case Failed(message) =>
          withdrawError := Some(OrElse(message, WithdrawFallbackError));
      }
      withdrawLoading := false;
    }
  }
}
