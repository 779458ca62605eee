/**
 * The Ledger connection session of the signing step: a listener for USB device attach events, the
 * transport channel on attach, a 1000 ms "assume disconnected" timer armed on detach, a 250 ms poll
 * that asks the device app for its version, and the button that asks the device for the public key.
 * Every callback is one atomic event method; timer and poll scheduling are left to the caller.
 */
module LedgerSession {
  import opened Wrappers
  import opened LedgerDevice

  /** What the signing step shows about the device. */
  datatype ConnectStep = Disconnected | ConnectedAppClosed | ConnectedAppOpen | HasAddress

  /** What a listen subscription reports: a device was attached (and opening it succeeded or threw), or removed. */
  datatype DeviceEvent = Add(openSucceeds: bool) | Remove

  /** The outcome of the version query of a poll: a status word, or a rejected query. */
  datatype VersionReply = Status(code: int) | QueryFailed

  /** The outcome of asking the device for the address and public key at the STX path. */
  datatype AddressReply = AddressThrew | AddressResponse(returnCode: int, publicKey: Option<Bytes>)

  /** The step a poll's reply leads to: the app-closed and success words set the step, anything else keeps it. */
  function StepAfterPoll(step: ConnectStep, reply: VersionReply): (r: ConnectStep)
    ensures reply == Status(AppClosedCode) ==> r == ConnectedAppClosed
    ensures reply == Status(AppOpenCode) ==> r == ConnectedAppOpen
    ensures reply != Status(AppClosedCode) && reply != Status(AppOpenCode) ==> r == step
    ensures r == HasAddress ==> step == HasAddress
    ensures r == Disconnected ==> step == Disconnected
  {
    match reply
    case Status(code) =>
      if code == AppClosedCode then ConnectedAppClosed
      else if code == AppOpenCode then ConnectedAppOpen
      else step
    case QueryFailed => step
  }

  class Session {
    var step: ConnectStep
    var loading: bool
    /** The open transport, by handle (the component's `transport` ref). */
    var transport: Option<nat>
    /** The handle of the last timer armed by a detach (the `disconnectTimeouts` ref; 0 before any). */
    var disconnectTimeout: nat
    /** The `listeningForAddEvent` ref. */
    var listening: bool
    /** The live listen subscriptions. */
    var subscriptions: set<nat>
    /** The subscription made when the component mounted; the teardown captures this one. */
    const mountSubscription: nat
    /** The transports channel and not yet closed. */
    var openChannels: set<nat>
    /** The armed timers that have neither fired nor been cleared. */
    var pendingTimers: set<nat>
    /** The next fresh handle (subscriptions, transports and timers draw from one supply). */
    var nextHandle: nat

    /**
     * At most one listener and at most one open channel, never both at once; the channel open is the
     * one in the transport ref; a pending timer is the one in the timeout ref, and only while no
     * transport is held.
     */
    ghost predicate Valid()
      reads this
    {
      (forall a, b :: a in subscriptions && b in subscriptions ==> a == b) &&
      (subscriptions != {} ==> listening && transport == None) &&
      (transport.Some? ==> !listening && pendingTimers == {}) &&
      openChannels == (if transport.Some? then {transport.value} else {}) &&
      pendingTimers <= {disconnectTimeout} &&
      (forall h :: h in subscriptions ==> h < nextHandle) &&
      (transport.Some? ==> transport.value < nextHandle) &&
      disconnectTimeout < nextHandle && mountSubscription < nextHandle
    }

    /** Whether a poll tick queries the device. */
    predicate PollQueries()
      reads this
    {
      transport.Some? && step != HasAddress && !listening
    }

    /** Mounting the component: initial refs and state, then the effect subscribes the first listener. */
    constructor ()
      ensures Valid()
      ensures step == Disconnected && !loading && transport == None && listening
      ensures disconnectTimeout == 0 && pendingTimers == {} && openChannels == {}
      ensures subscriptions == {mountSubscription}
    {
      step, loading := Disconnected, false;
      transport, disconnectTimeout, listening := None, 0, true;
      openChannels, pendingTimers := {}, {};
      mountSubscription := 1;
      subscriptions := {1};
      nextHandle := 2;
    }

    /**
     * An event on a live listen subscription. Only an attach is acted on: it clears the pending
     * timer, unsubscribes, and opens the device; when opening succeeds it stores the new transport
     * and stops listening, when it throws nothing more happens. Returns the opened transport.
     */
    method OnDeviceEvent(sub: nat, event: DeviceEvent) returns (channel: Option<nat>)
      requires Valid() && sub in subscriptions
      modifies this
      ensures Valid()
      ensures step == old(step) && loading == old(loading)
      ensures event.Remove? ==>
        channel == None && transport == old(transport) && listening == old(listening) &&
        subscriptions == old(subscriptions) && pendingTimers == old(pendingTimers) &&
        openChannels == old(openChannels) && disconnectTimeout == old(disconnectTimeout) &&
        nextHandle == old(nextHandle)
      ensures event.Add? ==> subscriptions == {} && pendingTimers == {} && disconnectTimeout == old(disconnectTimeout)
      ensures event.Add? && event.openSucceeds ==>
        channel.Some? && channel.value !in old(openChannels) && transport == channel &&
        openChannels == {channel.value} && !listening
      ensures event.Add? && !event.openSucceeds ==>
        channel == None && transport == None && openChannels == {} && listening
    {
      channel := None;
      if event.Remove? {
        return;
      }
      pendingTimers := pendingTimers - {disconnectTimeout};
      subscriptions := subscriptions - {sub};
      if event.openSucceeds {
        var t := nextHandle;
        nextHandle := nextHandle + 1;
        openChannels := openChannels + {t};
        listening := false;
        transport := Some(t);
        channel := Some(t);
      }
    }

    /**
     * The open transport reports a disconnect: listen again, drop the transport and close it. When the
     * close resolves, arm the timer that will force Disconnected (1000 ms later) and subscribe a new
     * listener; when it rejects, the handler stops there, leaving no listener and no timer, so no later
     * attach is seen. The dropped transport leaves `openChannels` either way, since its device is gone.
     * Returns the armed timer's handle.
     */
    method OnDisconnect(closeSucceeds: bool) returns (timer: Option<nat>)
      requires Valid() && transport.Some?
      modifies this
      ensures Valid()
      ensures step == old(step) && loading == old(loading)
      ensures listening && transport == None && openChannels == {}
      ensures closeSucceeds ==>
        timer.Some? && timer.value >= old(nextHandle) && disconnectTimeout == timer.value &&
        pendingTimers == {timer.value} &&
        exists s :: s >= old(nextHandle) && subscriptions == {s}
      ensures !closeSucceeds ==>
        timer == None && pendingTimers == {} && subscriptions == {} &&
        disconnectTimeout == old(disconnectTimeout) && nextHandle == old(nextHandle)
    {
      listening := true;
      var t := transport.value;
      transport := None;
      openChannels := openChannels - {t};
      if !closeSucceeds {
        return None;
      }
      timer := Some(nextHandle);
      pendingTimers := pendingTimers + {nextHandle};
      disconnectTimeout := nextHandle;
      var s := nextHandle + 1;
      subscriptions := subscriptions + {s};
      nextHandle := nextHandle + 2;
    }

    /** A pending "assume disconnected" timer fires: the step becomes Disconnected. */
    method OnTimerFired(timer: nat)
      requires Valid() && timer in pendingTimers
      modifies this`step, this`pendingTimers
      ensures Valid()
      ensures step == Disconnected && pendingTimers == old(pendingTimers) - {timer}
    {
      step := Disconnected;
      pendingTimers := pendingTimers - {timer};
    }

    /**
     * A poll tick (every 250 ms). When a transport is held, no address was obtained yet, and the session is not
     * listening, the device app is asked for its version and the reply maps to a step. Returns the
     * transport queried, if any.
     */
    method OnPollTick(reply: VersionReply) returns (queried: Option<nat>)
      requires Valid()
      modifies this`step
      ensures Valid()
      ensures queried.Some? <==> old(PollQueries())
      ensures queried.Some? <==> transport.Some? && old(step) != HasAddress
      ensures queried.Some? ==> queried == transport
      ensures step == if queried.Some? then StepAfterPoll(old(step), reply) else old(step)
    {
      queried := None;
      if PollQueries() {
        queried := transport;
        step := StepAfterPoll(step, reply);
      }
    }

    /**
     * The button that asks the device for the address and public key. Without a transport nothing
     * happens. Otherwise the version query runs (versionThrows: it rejected), then the address request
     * at the STX path; a status other than NoError, or no public key, ends the attempt; a public key is
     * handed to the caller's callback with the app, and the step becomes HasAddress.
     */
    method HandleLedger(versionThrows: bool, reply: AddressReply)
      returns (confirmed: Option<(Bytes, DeviceApp)>, requestedPath: Option<string>)
      requires Valid()
      modifies this`step, this`loading
      ensures Valid()
      ensures transport.None? ==> confirmed == None && requestedPath == None
      ensures requestedPath.Some? <==> transport.Some? && !versionThrows
      ensures requestedPath.Some? ==> requestedPath.value == StxDerivationPath
      ensures confirmed.Some? <==>
        transport.Some? && !versionThrows && reply.AddressResponse? &&
        reply.returnCode == NoError && reply.publicKey.Some?
      ensures confirmed.Some? ==>
        confirmed.value == (reply.publicKey.value, DeviceApp(transport.value)) && step == HasAddress && loading
      ensures confirmed.None? ==> step == old(step) && loading == old(loading)
    {
      confirmed, requestedPath := None, None;
      if transport.None? {
        return;
      }
      var app := DeviceApp(transport.value);
      if versionThrows {
        return;
      }
      requestedPath := Some(StxDerivationPath);
      if reply.AddressThrew? || reply.returnCode != NoError {
        return;
      }
      if reply.publicKey.Some? {
        confirmed := Some((reply.publicKey.value, app));
        loading := true;
        step := HasAddress;
      }
    }

    /**
     * The effect's cleanup as written: it unsubscribes the subscription made at mount, and closes and
     * drops the transport if one is held. A listener subscribed later, by a detach, is left live, and
     * so is a pending timer.
     */
    method TeardownAsWritten()
      requires Valid()
      modifies this`subscriptions, this`transport, this`openChannels
      ensures Valid()
      ensures subscriptions == old(subscriptions) - {mountSubscription}
      ensures transport == None && openChannels == {}
    {
      subscriptions := subscriptions - {mountSubscription};
      if transport.Some? {
        openChannels := openChannels - {transport.value};
        transport := None;
      }
    }

    /**
     * The cleanup as intended: no listener stays subscribed, no channel stays open, and no timer
     * stays armed once the component is gone.
     */
    method Teardown()
      requires Valid()
      modifies this`subscriptions, this`transport, this`openChannels, this`pendingTimers
      ensures Valid()
      ensures subscriptions == {} && transport == None && openChannels == {} && pendingTimers == {}
    {
      subscriptions := {};
      pendingTimers := {};
      if transport.Some? {
        openChannels := openChannels - {transport.value};
        transport := None;
      }
    }
  }
}
