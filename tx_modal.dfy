/**
 * The send-STX modal: a four-step controller (describe, preview, then decrypt-and-send or
 * sign-with-Ledger-and-send), the preview figures, and the guards that decide whether a transaction
 * is handed to the network store for broadcast.
 */
module TxModal {
  import opened Wrappers
  import opened StxAmount
  import opened TxForm
  import opened LedgerDevice

  datatype Step = DescribeTx | PreviewTx | DecryptWalletAndSend | SignWithLedgerAndSend

  /** The wallet type held by the key store; Unset stands for any value other than the two known ones. */
  datatype WalletType = Software | Ledger | Unset

  /** How far along the flow a step is: describe, preview, then one of the two sending steps. */
  function Position(s: Step): nat {
    match s
    case DescribeTx => 0
    case PreviewTx => 1
    case DecryptWalletAndSend => 2
    case SignWithLedgerAndSend => 2
  }

  /** Where "Sign transaction and send" leads: the password step for a software wallet, the Ledger step otherwise. */
  function SignStepFor(w: WalletType): (s: Step)
    ensures Position(s) == 2
    ensures s == DecryptWalletAndSend <==> w == Software
  {
    if w == Software then DecryptWalletAndSend else SignWithLedgerAndSend
  }

  /** Where a "Go back" button leads: exactly one step earlier in the flow. */
  function PreviousStep(s: Step): (r: Step)
    requires s != DescribeTx
    ensures Position(r) + 1 == Position(s)
  {
    if s == PreviewTx then DescribeTx else PreviewTx
  }

  /** Going back from either sending step returns to the preview. */
  lemma BackFromSendingStep(w: WalletType)
    ensures PreviousStep(SignStepFor(w)) == PreviewTx
  {
  }

  datatype SpendingCondition = SpendingCondition(fee: nat, signature: string)

  /** A token-transfer transaction, as far as the modal touches it. */
  datatype Transfer = Transfer(recipient: string, microAmount: int, spendingCondition: Option<SpendingCondition>)

  /** The transaction with the device's signature (hex) written into its spending condition, if it has one. */
  function WithSignature(tx: Transfer, signatureHex: string): (r: Transfer)
    ensures r.recipient == tx.recipient && r.microAmount == tx.microAmount
    ensures r.spendingCondition.Some? <==> tx.spendingCondition.Some?
    ensures r.spendingCondition.Some? ==>
      r.spendingCondition.value.signature == signatureHex &&
      r.spendingCondition.value.fee == tx.spendingCondition.value.fee
  {
    match tx.spendingCondition
    case None => tx
    case Some(c) => tx.(spendingCondition := Some(c.(signature := signatureHex)))
  }

  /** The broadcast request handed to the network store: the signed transaction and the amount in micro-STX. */
  datatype Broadcast = Broadcast(signedTx: Transfer, amount: int)

  /**
   * What the foreign calls of one broadcast attempt return; None stands for a call that throws.
   * privateKey: decrypting the stored mnemonic with the password; signedTransfer: building the
   * transaction signed with that key; demoTransfer: building a throw-away transaction signed with a
   * fixed key; unsignedTransfer: building the unsigned transaction for the device's public key;
   * signature: the compact signature the device returns, as hex.
   */
  datatype Externals = Externals(
    privateKey: Option<string>,
    signedTransfer: Option<Transfer>,
    demoTransfer: Option<Transfer>,
    unsignedTransfer: Option<Transfer>,
    signature: Option<string>)

  /** The error the password step shows: which of its two foreign calls threw. */
  datatype Failure = DecryptionFailed | TransferBuildFailed

  /** A value that JavaScript reads as true: present and not the empty string. */
  predicate Present(s: Option<string>) {
    s.Some? && s.value != ""
  }

  class Modal {
    /** The sender's balance in micro-STX. */
    const balance: nat
    /** The sender's own address. */
    const address: string
    const walletType: WalletType
    const encryptedMnemonic: Option<string>
    const salt: Option<string>

    var step: Step
    var fee: nat
    /** The amount in micro-STX recorded by the last completed submit. */
    var amount: int
    var total: int
    var password: string
    var hasSubmitted: bool
    var decryptionError: Option<Failure>
    var isDecrypting: bool
    var loading: bool
    /** The form's field values. */
    var recipient: string
    var amountInput: AmountInput

    /**
     * Past the describe step the preview figures are those of a validated amount, and a sending step
     * is the one for this wallet type, reached only with a total the balance covers.
     */
    ghost predicate Valid()
      reads this
    {
      (step != DescribeTx ==> total == amount + fee && 0 < amount <= balance) &&
      (Position(step) == 2 ==> step == SignStepFor(walletType) && total <= balance)
    }

    /** The preview's "insufficient balance" condition, which also disables the proceed button. */
    predicate TotalIsMoreThanBalance()
      reads this
    {
      total > balance
    }

    /** Software-wallet broadcast needs a password, the encrypted mnemonic and its salt. */
    predicate HasCredentials()
      reads this
    {
      password != "" && Present(encryptedMnemonic) && Present(salt)
    }

    constructor (balance: nat, address: string, walletType: WalletType,
                 encryptedMnemonic: Option<string>, salt: Option<string>)
      ensures Valid()
      ensures this.balance == balance && this.address == address && this.walletType == walletType
      ensures this.encryptedMnemonic == encryptedMnemonic && this.salt == salt
      ensures step == DescribeTx && fee == 0 && amount == 0 && total == 0
      ensures password == "" && !hasSubmitted && decryptionError == None && !isDecrypting && !loading
      ensures recipient == "" && amountInput == Empty
    {
      this.balance, this.address, this.walletType := balance, address, walletType;
      this.encryptedMnemonic, this.salt := encryptedMnemonic, salt;
      step, fee, amount, total := DescribeTx, 0, 0, 0;
      password, hasSubmitted, decryptionError, isDecrypting, loading := "", false, None, false, false;
      recipient, amountInput := "", Empty;
    }

    /**
     * The Preview button: the form takes the entered values, validates them and, only when both
     * fields pass, runs the submit handler. The handler estimates the fee by building a throw-away
     * transaction (feeEstimate; None when that throws, which leaves the modal loading), records the
     * amount in micro-STX and the fee, sets the total and moves to the preview.
     */
    method Preview(recipientEntered: string, amountEntered: AmountInput, checks: AddressChecks,
                   feeEstimate: Option<nat>) returns (errors: FormErrors)
      requires Valid() && step == DescribeTx
      modifies this`recipient, this`amountInput, this`loading, this`decryptionError
      modifies this`fee, this`total, this`amount, this`step
      ensures Valid()
      ensures errors == Validate(recipientEntered, amountEntered, address, checks, balance)
      ensures recipient == recipientEntered && amountInput == amountEntered
      ensures !errors.Passes() ==>
        step == DescribeTx && loading == old(loading) && decryptionError == old(decryptionError) &&
        fee == old(fee) && amount == old(amount) && total == old(total)
      ensures errors.Passes() && feeEstimate.None? ==>
        step == DescribeTx && loading && decryptionError == None &&
        fee == old(fee) && amount == old(amount) && total == old(total)
      ensures errors.Passes() && feeEstimate.Some? ==>
        step == PreviewTx && !loading && decryptionError == None &&
        fee == feeEstimate.value && amount == MicroStx(amountEntered.value) && total == amount + fee
    {
      recipient, amountInput := recipientEntered, amountEntered;
      errors := Validate(recipientEntered, amountEntered, address, checks, balance);
      if !errors.Passes() {
        return;
      }
      loading := true;
      decryptionError := None;
      if feeEstimate.None? {
        return;
      }
      var micro := MicroStx(amountEntered.value);
      fee := feeEstimate.value;
      total := micro + fee;
      amount := micro;
      step := PreviewTx;
      loading := false;
    }

    /** A "Go back" button (shown on every step but the first); the form values are kept. */
    method GoBack()
      requires Valid() && step != DescribeTx
      modifies this`step
      ensures Valid()
      ensures step == PreviousStep(old(step))
    {
      step := PreviousStep(step);
    }

    /**
     * "Sign transaction and send" on the preview; the button is disabled, so the click does nothing,
     * exactly when the total exceeds the balance.
     */
    method Proceed() returns (proceeded: bool)
      requires Valid() && step == PreviewTx
      modifies this`step
      ensures Valid()
      ensures proceeded <==> !TotalIsMoreThanBalance()
      ensures step == if proceeded then SignStepFor(walletType) else PreviewTx
    {
      proceeded := !TotalIsMoreThanBalance();
      if proceeded {
        step := SignStepFor(walletType);
      }
    }

    /** The password field of the decrypt step. */
    method SetPassword(p: string)
      requires Valid()
      modifies this`password
      ensures Valid()
      ensures password == p
    {
      password := p;
    }

    /** Closing the modal (its close and cancel buttons, and a successful broadcast) resets the form. */
    method CloseAndResetForm()
      requires Valid()
      modifies this`recipient, this`amountInput
      ensures Valid()
      ensures recipient == "" && amountInput == Empty
    {
      recipient, amountInput := "", Empty;
    }

    /**
     * One broadcast attempt: "Send transaction" on the decrypt step (no arguments), or the Ledger
     * step's callback with the device's public key and app. Returns the broadcast request handed to
     * the network store, if any, and the key path given to the device's sign call, if it was reached.
     */
    method BroadcastTx(publicKey: Option<Bytes>, app: Option<DeviceApp>, ext: Externals)
      returns (dispatched: Option<Broadcast>, signPath: Option<string>)
      requires Valid()
      modifies this`hasSubmitted, this`isDecrypting, this`decryptionError
      ensures Valid()
      ensures hasSubmitted
      ensures dispatched.Some? ==> dispatched.value.amount == amount
      ensures signPath.Some? ==> signPath.value == StxDerivationPath && walletType == Ledger
      ensures walletType == Software && !HasCredentials() ==>
        dispatched == None && isDecrypting == old(isDecrypting) && decryptionError == old(decryptionError)
      ensures walletType == Software && HasCredentials() ==>
        !isDecrypting &&
        dispatched == (if ext.privateKey.Some? && ext.signedTransfer.Some?
                       then Some(Broadcast(ext.signedTransfer.value, amount)) else None) &&
        decryptionError == (if ext.privateKey.None? then Some(DecryptionFailed)
                            else if ext.signedTransfer.None? then Some(TransferBuildFailed)
                            else old(decryptionError))
      ensures walletType == Ledger && (publicKey.None? || app.None?) ==>
        dispatched == None && signPath == None && isDecrypting == old(isDecrypting) &&
        decryptionError == old(decryptionError)
      ensures walletType == Ledger && publicKey.Some? && app.Some? ==>
        !isDecrypting && decryptionError == old(decryptionError) &&
        (signPath.Some? <==> ext.demoTransfer.Some? && ext.unsignedTransfer.Some?) &&
        dispatched == (if ext.demoTransfer.Some? && ext.unsignedTransfer.Some? && ext.signature.Some?
                       then Some(Broadcast(WithSignature(ext.unsignedTransfer.value, ext.signature.value), amount))
                       else None)
      ensures walletType == Unset ==>
        dispatched == None && !isDecrypting && decryptionError == old(decryptionError)
    {
      dispatched, signPath := None, None;
      hasSubmitted := true;
      if walletType == Software {
        if !HasCredentials() {
          return;
        }
        isDecrypting := true;
        if ext.privateKey.None? {
          decryptionError := Some(DecryptionFailed);
        } else if ext.signedTransfer.None? {
          decryptionError := Some(TransferBuildFailed);
        } else {
          dispatched := Some(Broadcast(ext.signedTransfer.value, amount));
        }
      }
      if walletType == Ledger {
        if publicKey.None? || app.None? {
          return;
        }
        if ext.demoTransfer.Some? && ext.unsignedTransfer.Some? {
          signPath := Some(StxDerivationPath);
          if ext.signature.Some? {
            var tx := WithSignature(ext.unsignedTransfer.value, ext.signature.value);
            dispatched := Some(Broadcast(tx, amount));
          }
        }
      }
      isDecrypting := false;
    }
  }
}
