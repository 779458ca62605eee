/**
 * The modal and the Ledger session together: whole send attempts from a fresh modal, and event
 * sequences of the session, each stated as what a caller can rely on.
 */
module SendFlow {
  import opened Wrappers
  import opened StxAmount
  import opened TxForm
  import opened LedgerDevice
  import opened TxModal
  import opened LedgerSession

  /**
   * A software-wallet send: describe, preview, proceed, enter the password, send. An amount over the
   * balance never reaches the preview; a total over the balance never reaches the password step; a
   * valid attempt whose foreign calls succeed hands exactly the built transaction, with the amount in
   * micro-STX, to the network store.
   */
  method SoftwareSend(balance: nat, address: string, recipient: string, amount: Amount, checks: AddressChecks,
                      fee: nat, password: string, mnemonic: string, salt: string, ext: Externals)
    returns (errors: FormErrors, total: int, proceeded: bool, dispatched: Option<Broadcast>)
    requires password != "" && mnemonic != "" && salt != ""
    ensures errors == Validate(recipient, Number(amount), address, checks, balance)
    ensures !MicroStxAtMost(amount, balance) ==> !errors.Passes() && !proceeded
    ensures errors.Passes() ==> total == MicroStx(amount) + fee && (proceeded <==> total <= balance)
    ensures proceeded ==> errors.Passes()
    ensures dispatched.Some? ==> proceeded
    ensures proceeded ==>
      dispatched == (if ext.privateKey.Some? && ext.signedTransfer.Some?
                     then Some(Broadcast(ext.signedTransfer.value, MicroStx(amount))) else None)
  {
    var modal := new Modal(balance, address, Software, Some(mnemonic), Some(salt));
    total, proceeded, dispatched := 0, false, None;
    errors := modal.Preview(recipient, Number(amount), checks, Some(fee));
    if !errors.Passes() {
      return;
    }
    total := modal.total;
    proceeded := modal.Proceed();
    if !proceeded {
      return;
    }
    modal.SetPassword(password);
    var path;
    dispatched, path := modal.BroadcastTx(None, None, ext);
  }

  /**
   * A Ledger send: describe, preview, proceed; the device is attached, the app reports open, the
   * device confirms the public key, and the session's callback starts the broadcast with that key
   * and app. The key and app handed to the broadcast (`sentKey`, `sentApp`) are the device's key
   * and the channel opened on attach; the transaction handed to the network store is the unsigned
   * one carrying the device's signature, and the session ends at HasAddress.
   */
  method LedgerSend(balance: nat, address: string, recipient: string, amount: Amount, checks: AddressChecks,
                    fee: nat, key: Bytes, ext: Externals)
    returns (errors: FormErrors, proceeded: bool, step: ConnectStep, channel: Option<nat>,
             sentKey: Option<Bytes>, sentApp: Option<DeviceApp>, dispatched: Option<Broadcast>)
    requires ext.demoTransfer.Some? && ext.unsignedTransfer.Some? && ext.signature.Some?
    ensures errors == Validate(recipient, Number(amount), address, checks, balance)
    ensures proceeded <==> errors.Passes() && MicroStx(amount) + fee <= balance
    ensures proceeded ==> step == HasAddress
    ensures proceeded ==> channel.Some? && sentKey == Some(key) && sentApp == Some(DeviceApp(channel.value))
    ensures !proceeded ==> channel == None && sentKey == None && sentApp == None
    ensures proceeded ==>
      dispatched == Some(Broadcast(WithSignature(ext.unsignedTransfer.value, ext.signature.value), MicroStx(amount)))
    ensures dispatched.Some? && dispatched.value.signedTx.spendingCondition.Some? ==>
      dispatched.value.signedTx.spendingCondition.value.signature == ext.signature.value
    ensures !proceeded ==> dispatched == None
  {
    var modal := new Modal(balance, address, Ledger, None, None);
    proceeded, step, dispatched := false, Disconnected, None;
    channel, sentKey, sentApp := None, None, None;
    errors := modal.Preview(recipient, Number(amount), checks, Some(fee));
    if !errors.Passes() {
      return;
    }
    proceeded := modal.Proceed();
    if !proceeded {
      return;
    }
    var session := new Session();
    channel := session.OnDeviceEvent(session.mountSubscription, Add(true));
    var queried := session.OnPollTick(Status(AppOpenCode));
    var confirmed, path := session.HandleLedger(false, AddressResponse(NoError, Some(key)));
    step := session.step;
    sentKey, sentApp := Some(confirmed.value.0), Some(confirmed.value.1);
    var signPath;
    dispatched, signPath := modal.BroadcastTx(sentKey, sentApp, ext);
  }

  /**
   * Attach, see the app open, detach, and attach again before the 1000 ms timer fires: the timer
   * is cleared, so the step is not forced to Disconnected, and one channel is open again. A fixed
   * event trace that illustrates the OnDeviceEvent and OnDisconnect contracts composed.
   */
  method ReattachBeforeTimer() returns (step: ConnectStep, armed: set<nat>, open: set<nat>)
    ensures step == ConnectedAppOpen && armed == {} && |open| == 1
  {
    var session := new Session();
    var first := session.OnDeviceEvent(session.mountSubscription, Add(true));
    var queried := session.OnPollTick(Status(AppOpenCode));
    var timer := session.OnDisconnect(true);
    var sub :| sub in session.subscriptions;
    var second := session.OnDeviceEvent(sub, Add(true));
    step, armed, open := session.step, session.pendingTimers, session.openChannels;
  }

  /**
   * Attach, detach, and no attach before the timer fires: the step becomes Disconnected and no timer
   * remains. A fixed event trace that illustrates the OnDisconnect and OnTimerFired contracts composed.
   */
  method DetachThenTimer() returns (step: ConnectStep, armed: set<nat>, listening: bool)
    ensures step == Disconnected && armed == {} && listening
  {
    var session := new Session();
    var channel := session.OnDeviceEvent(session.mountSubscription, Add(true));
    var queried := session.OnPollTick(Status(AppOpenCode));
    var timer := session.OnDisconnect(true);
    session.OnTimerFired(timer.value);
    step, armed, listening := session.step, session.pendingTimers, session.listening;
  }

  /**
   * Attach, see the app open, detach, and the close rejects: no listener and no timer remain, so the
   * step stays at ConnectedAppOpen with no transport and no later attach is seen. A fixed event trace
   * that illustrates the OnDisconnect contract when the close fails.
   */
  method DetachWithRejectedClose() returns (step: ConnectStep, live: set<nat>, armed: set<nat>, held: Option<nat>)
    ensures step == ConnectedAppOpen && live == {} && armed == {} && held == None
  {
    var session := new Session();
    var channel := session.OnDeviceEvent(session.mountSubscription, Add(true));
    var queried := session.OnPollTick(Status(AppOpenCode));
    var timer := session.OnDisconnect(false);
    step, live, armed, held := session.step, session.subscriptions, session.pendingTimers, session.transport;
  }

  /**
   * Attach, detach, then unmount with the cleanup as written: the listener subscribed by the detach
   * is still live and the timer still armed. A fixed event trace that illustrates the
   * TeardownAsWritten contract after a detach.
   */
  method ReconnectThenTeardownAsWritten() returns (live: set<nat>, armed: set<nat>)
    ensures |live| == 1 && |armed| == 1
  {
    var session := new Session();
    var channel := session.OnDeviceEvent(session.mountSubscription, Add(true));
    var timer := session.OnDisconnect(true);
    session.TeardownAsWritten();
    live, armed := session.subscriptions, session.pendingTimers;
  }

  /**
   * The same sequence with the intended cleanup leaves no listener and no timer. A fixed event trace
   * that illustrates the Teardown contract after a detach.
   */
  method ReconnectThenTeardown() returns (live: set<nat>, armed: set<nat>)
    ensures live == {} && armed == {}
  {
    var session := new Session();
    var channel := session.OnDeviceEvent(session.mountSubscription, Add(true));
    var timer := session.OnDisconnect(true);
    session.Teardown();
    live, armed := session.subscriptions, session.pendingTimers;
  }
}
