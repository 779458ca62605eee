# Send-STX modal and Ledger session, modelled in Dafny

This project models the two state machines of a desktop Stacks wallet's send-transaction flow.

- **The send modal** (`app/modals/transaction/transaction-modal.tsx`) has four steps: DescribeTx, PreviewTx,
  DecryptWalletAndSend and SignWithLedgerAndSend. The form's two validated fields are the recipient
  and the amount in STX. Preview shows the figures `total = amount + fee` in micro-STX. `broadcastTx`
  either decrypts the software wallet and broadcasts, or splices the Ledger device's signature into
  an unsigned transaction and broadcasts that.
- **The Ledger connection session** (`app/modals/transaction/sign-tx-with-ledger.tsx`) has a USB attach
  listener, the transport it opens, a 1000 ms "assume disconnected" timer armed on detach, a 250 ms
  version poll, and a button that asks the device for its public key at the STX key path.

Modules, one per concern:

- `Text`: decimal numerals, and JavaScript's `split`/`join` on one character.
- `StxAmount`: amounts as canonical decimals. It also holds their exact base-10 printing and their
  exact micro-STX value. BigNumber's `toString(10)` prints the same text for amounts with at most 20
  fraction digits.
- `TxForm`: the validation tests, as sets of failing tests per field.
- `TxModal`: class `Modal`, the step controller and `broadcastTx`.
- `LedgerDevice`: the key path, the device status words and the app handle.
- `LedgerSession`: class `Session`. Its fields are the component's refs and state, and its methods
  are the callbacks.
- `SendFlow`: whole send attempts and event sequences. Each one allocates fresh objects.

Both classes keep an invariant `Valid()`, and every method preserves it.

- The modal's invariant: past DescribeTx, the figures are those of a validated amount
  (`total == amount + fee`, `0 < amount <= balance`). A sending step is always the one for the wallet
  type, and it is reached only with `total <= balance`.
- The session's invariant: at most one live listener and at most one open channel, never both at
  once. The open channel is the one in the `transport` ref. A pending timer is the one in the timeout
  ref, and it exists only while no transport is held. As a consequence, the poll's
  `listeningForAddEvent` check never changes the outcome: `OnPollTick` queries exactly when a
  transport is held and the step is not HasAddress.

## Model

| member | source | states |
|---|---|---|
| TxModal.Modal.constructor | app/modals/transaction/transaction-modal.tsx:63-71 | initial state: DescribeTx; fee, amount and total zero; no password, error, decrypting or loading; empty form |
| TxForm.RecipientErrors | app/modals/transaction/transaction-modal.tsx:162-175 | the recipient passes exactly when both address checks pass and it is not the sender's own address (an empty field reaches the own-address test as undefined, so that test passes) |
| TxForm.AmountErrors | app/modals/transaction/transaction-modal.tsx:176-200 | the amount passes exactly when it is a number, positive, has at most 6 fraction digits and its micro-STX value is at most the balance. An empty field fails only `required` (it passes the balance test). A non-number fails only the type test |
| TxForm.DecimalsTestCountsFractionDigits | app/modals/transaction/transaction-modal.tsx:180-188 | the six-decimal test, taken on the exact base-10 printing's text after the point, passes exactly when the amount has at most 6 fraction digits |
| TxForm.DecimalsTestIsWholeMicroStx | app/modals/transaction/transaction-modal.tsx:180-188 | the six-decimal test, taken on the exact base-10 printing, passes exactly when the amount is a whole number of micro-STX |
| TxForm.Validate | app/modals/transaction/transaction-modal.tsx:157-201 | a form that passes has a numeric amount whose micro-STX value is in `(0, balance]`, and a recipient that is not the sender's address |
| StxAmount.NoMicroStxBeyondSixDecimals | app/modals/transaction/transaction-modal.tsx:180-188 | an amount with more than 6 fraction digits equals no integer number of micro-STX |
| StxAmount.MicroStx | app/modals/transaction/transaction-modal.tsx:213-214 | the micro-STX value is exactly the amount times 10^6, and it is positive exactly when the amount is |
| StxAmount.MicroStxAtMostIsComparison | app/modals/transaction/transaction-modal.tsx:189-199 | the exact comparison `amount * 10^6 <= balance` agrees with comparing the integer micro-STX value |
| StxAmount.FractionPartOfRendering | app/modals/transaction/transaction-modal.tsx:185-186 | `.split('.')[1]` of the exact base-10 printing of an amount is its fraction digits, or undefined when it has none |
| StxAmount.ParseRendering | app/modals/transaction/transaction-modal.tsx:185 | the exact base-10 printing denotes the amount: reading it back gives the amount |
| Text.Split | app/modals/transaction/transaction-modal.tsx:185 | `split` yields at least one piece and no piece contains the separator |
| Text.JoinSplit | app/modals/transaction/transaction-modal.tsx:185 | joining the pieces of a split restores the string |
| Text.SplitJoin | app/modals/transaction/transaction-modal.tsx:185 | splitting a join of separator-free pieces gives the pieces back |
| Text.NatToString | app/modals/transaction/transaction-modal.tsx:185 | the whole part prints as digits only, without a leading zero |
| Text.ParseNatToString | app/modals/transaction/transaction-modal.tsx:185 | the printed whole part reads back as the number |
| TxModal.Modal.Preview | app/modals/transaction/transaction-modal.tsx:202-222 | the form keeps the entered values. A form that fails changes nothing else. A passing form clears the error. With a fee estimate it records the micro-STX amount and the fee, sets `total = amount + fee`, stops loading and moves to PreviewTx. When the estimate throws, it stays on DescribeTx and keeps loading |
| TxModal.SignStepFor | app/modals/transaction/transaction-modal.tsx:232-235 | proceeding leads to DecryptWalletAndSend exactly for a software wallet, otherwise to SignWithLedgerAndSend |
| TxModal.Modal.Proceed | app/modals/transaction/transaction-modal.tsx:294-301 | the proceed click moves on exactly when `total <= balance` (the button is disabled otherwise), to the wallet's sending step |
| TxModal.PreviousStep | app/modals/transaction/transaction-modal.tsx:321 | going back leads exactly one step earlier in the flow |
| TxModal.Modal.GoBack | app/modals/transaction/transaction-modal.tsx:291 | "Go back" changes only the step: PreviewTx to DescribeTx, a sending step to PreviewTx |
| TxModal.BackFromSendingStep | app/modals/transaction/transaction-modal.tsx:347 | going back from either sending step returns to PreviewTx |
| TxModal.Modal.SetPassword | app/modals/transaction/transaction-modal.tsx:312 | the password field records the entered password |
| TxModal.Modal.CloseAndResetForm | app/modals/transaction/transaction-modal.tsx:227-230 | closing resets the form's values and keeps the invariant |
| TxModal.WithSignature | app/modals/transaction/transaction-modal.tsx:137-142 | the device signature lands in the spending condition whenever there is one. Recipient, amount, fee and the presence of the condition are kept |
| TxModal.Modal.BroadcastTx | app/modals/transaction/transaction-modal.tsx:82-153 | marks submitted. Software path: it dispatches nothing without password, mnemonic and salt, and then leaves the decrypting flag alone; otherwise it dispatches the built transaction, or records which call threw. Ledger path: it dispatches nothing without public key and app; otherwise it signs at the STX path and dispatches the unsigned transaction carrying the device signature. Any other wallet type dispatches nothing. A dispatch always carries the recorded amount |
| LedgerDevice.StxDerivationPathIsBip44 | app/modals/transaction/sign-tx-with-ledger.tsx:12 | `m/44'/5757'/0'/0/0` is the BIP-44 path of coin 5757, account 0, external chain, first address |
| LedgerSession.Session.constructor | app/modals/transaction/sign-tx-with-ledger.tsx:17-21 | mount: Disconnected, no transport, listening, timeout ref 0, nothing open or armed, one listener (the one made at mount) |
| LedgerSession.Session.OnDeviceEvent | app/modals/transaction/sign-tx-with-ledger.tsx:29-37 | only an attach is acted on. It clears any pending timer and unsubscribes. A successful open stores a fresh transport as the only open channel and stops listening; a failed open leaves no transport and no listener. The step is kept |
| LedgerSession.Session.OnDisconnect | app/modals/transaction/sign-tx-with-ledger.tsx:38-50 | detach: listening again, no transport, channel dropped. When the close resolves, it arms one fresh timer, which is the one in the ref, and subscribes one fresh listener. When the close rejects, no timer is armed and no listener is subscribed. The step is kept |
| LedgerSession.Session.OnTimerFired | app/modals/transaction/sign-tx-with-ledger.tsx:44-47 | a pending timer sets Disconnected and is no longer pending |
| LedgerSession.StepAfterPoll | app/modals/transaction/sign-tx-with-ledger.tsx:83-87 | 0x6e00 gives ConnectedAppClosed and 0x9000 gives ConnectedAppOpen. Any other code or a failed query keeps the step. A poll never produces HasAddress or Disconnected |
| LedgerSession.Session.OnPollTick | app/modals/transaction/sign-tx-with-ledger.tsx:71-89 | a tick queries exactly when a transport is held, the step is not HasAddress and the session is not listening (equivalently, given the invariant, transport held and not HasAddress). It never queries without a transport, and the step follows the reply |
| LedgerSession.Session.HandleLedger | app/modals/transaction/sign-tx-with-ledger.tsx:91-123 | without a transport it changes nothing. Otherwise it asks for the fixed STX path unless the version query threw. The callback gets the public key and the app exactly when the reply is NoError with a key, and then the step is HasAddress. Every other outcome keeps the step |
| LedgerSession.Session.TeardownAsWritten | app/modals/transaction/sign-tx-with-ledger.tsx:62-68 | cleanup as written: it unsubscribes only the listener made at mount and closes and drops the transport |
| LedgerSession.Session.Teardown | app/modals/transaction/sign-tx-with-ledger.tsx:62-68 | cleanup as intended: no listener, no transport, no open channel, no armed timer |
| SendFlow.SoftwareSend | app/modals/transaction/transaction-modal.tsx:86-104 | an amount over the balance never passes the form. With a fee, the total is amount plus fee, and proceeding happens exactly when it is covered. A proceeded attempt whose foreign calls succeed dispatches exactly the built transaction with the micro-STX amount |
| SendFlow.LedgerSend | app/modals/transaction/transaction-modal.tsx:341-343 | a draft proceeds exactly when it passes and the total is covered. Then the key handed to `broadcastTx` is the device's key, and the app handed to it is the channel opened on attach. The dispatched transaction carries the device signature and the session ends at HasAddress. A draft that does not proceed dispatches nothing |
| SendFlow.ReattachBeforeTimer | app/modals/transaction/sign-tx-with-ledger.tsx:31-49 | an attach before the timer fires clears it, so the step is not forced to Disconnected, and exactly one channel is open |
| SendFlow.DetachWithRejectedClose | app/modals/transaction/sign-tx-with-ledger.tsx:38-50 | attach, app open, detach with a rejected close: no listener, no timer and no transport remain, and the step stays at ConnectedAppOpen |
| SendFlow.DetachThenTimer | app/modals/transaction/sign-tx-with-ledger.tsx:38-50 | after a detach with no re-attach, the timer forces Disconnected once and nothing stays armed |
| SendFlow.ReconnectThenTeardownAsWritten | app/modals/transaction/sign-tx-with-ledger.tsx:60-68 | attach, detach, unmount with the cleanup as written: one listener stays live and one timer stays armed |
| SendFlow.ReconnectThenTeardown | app/modals/transaction/sign-tx-with-ledger.tsx:60-68 | the same sequence with the intended cleanup leaves no listener and no armed timer |

## Left out

- Rendering is not modelled: JSX, layout, styles, the Escape hotkey, Formik's touched/error display, and the
  preview's human-readable STX formatting.
- Redux is not modelled: the modal-open flag, selectors and dispatch. A dispatched broadcast is the
  `Broadcast` value that `BroadcastTx` returns. Balance, address, wallet type, encrypted mnemonic and salt
  are fixed for a modal's life, although the store could change them.
- Closing the modal only resets the form's values (`CloseAndResetForm`). Step, fee, amount and total keep
  their values. Whether the component is unmounted on close depends on its parent, which is not part of
  this model.
- The foreign calls are inputs, not models:
  - the fee-estimate transaction (`feeEstimate`; None when building it throws);
  - decryption, building, serialising and signing transactions (`Externals`; None when the call throws);
  - the address-format and network checks (`AddressChecks`).
- TxModal.Modal.BroadcastTx: does not relate the built transactions' recipient and amount to the form, because the
  transaction builders are opaque here.
- TxForm.AmountErrors: the six-decimal test is taken on the exact base-10 printing. BigNumber's `toString(10)`
  rounds to 20 fraction digits (half up). An amount below 5·10^-21 STX prints as "0" and passes the test in
  the program, but fails it here. The same holds for any amount with more than 20 fraction digits whose
  rounding has at most 6.
- TxForm.DecimalsTestCountsFractionDigits: states the six-decimal test on the exact printing, so it does not hold
  of the program for amounts with more than 20 fraction digits (see `TxForm.AmountErrors`).
- TxForm.DecimalsTestIsWholeMicroStx: the same gap as `TxForm.DecimalsTestCountsFractionDigits`.
- StxAmount.FractionPartOfRendering: is about the exact printing, not BigNumber's rounded one, for amounts with
  more than 20 fraction digits.
- TxModal.Modal.Preview: one `Amount` stands for both the JavaScript number that the validation tests see
  (transaction-modal.tsx lines 183 and 192-197) and the form text that the submit handler converts (lines 208
  and 214). They differ when the entered text holds more precision than a double.
- TxForm.Validate, SendFlow.SoftwareSend and SendFlow.LedgerSend: the same single `Amount` as `TxModal.Modal.Preview`.
- The fee estimate's missing spending condition (an undefined fee) is not modelled.
- `app/utils/unit-convert` is not part of this model. `stxToMicroStx` is taken to be exact
  multiplication by 10^6 (`StxAmount.MicroStx`, and `MicroStxAtMost` for amounts with more than 6
  fraction digits).
- `@zondax/ledger-blockstack` is not part of this model. Its `ERROR_CODE.NoError` is taken to be the
  device's success status word 0x9000.
- JavaScript number parsing and floating point are not modelled. The amount arrives already classified as
  empty, not a number, or a canonical decimal (BigNumber's normal form: no trailing fraction zero, no
  negative zero). NaN and Infinity are not represented.
- USB-HID transport, the device protocol, and the scheduling of the timer and the poll are not modelled.
  Each callback is one atomic event method. The interleavings across `await`, such as a poll reply
  arriving after a detach, are not modelled. Neither is the 1250 ms delay after HasAddress.
- A disconnect reported by a transport after teardown closed it is not modelled.
- `console.log` output is not modelled.
- The Ledger step's "Sign transaction" footer button has no handler, so there is nothing to model.

## Findings

| source | as written | input that shows it | evidently intended | confidence | as-written member | corrected member |
|---|---|---|---|---|---|---|
| app/modals/transaction/sign-tx-with-ledger.tsx:60-68 | the effect's cleanup unsubscribes the subscription it created at mount. A detach creates a new listener via `createListener()` at line 50, which is stored nowhere, and the pending 1000 ms timer is never cleared | mount, device attach, device detach, unmount: the listener made by the detach stays subscribed and the timer stays armed, so a later attach would open a transport for an unmounted component | after unmount no listener is subscribed, no channel is open and no timer is armed | medium, not executed | SendFlow.ReconnectThenTeardownAsWritten (with LedgerSession.Session.TeardownAsWritten) | LedgerSession.Session.Teardown (with SendFlow.ReconnectThenTeardown) |
