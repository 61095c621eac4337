/** MainViewModel: the device screen's UI state, reduced from the controller's flows and from the
    connection results of the current attempt, and the one-shot events it sends to the screen. */
module MainPresentation {
  import opened Domain
  import opened Transport
  import opened Controller

  /** The screen state. MainUiState.kt declares only the first three fields, while the view-model
      copies all six; the model carries all six. */
  datatype MainUiState = MainUiState(
    scannedDevices: seq<Device>,
    pairedDevices: seq<Device>,
    isScanning: bool,
    isConnecting: bool,
    isConnected: bool,
    errorMessage: Option<string>)

  const InitialUiState := MainUiState([], [], false, false, false, None)

  datatype MainEvent = ShowSnackMessage(message: string) | NavigateToChat(device: Device)

  /** The `listen` reducer for one emitted result: the attempt is over, and the result alone
      decides the connected flag and the error message. */
  function OnConnectionResult(s: MainUiState, result: ConnectionResult): (r: MainUiState)
    ensures !r.isConnecting
    ensures r.isConnected <==> result == ConnectionEstablished
    ensures r.errorMessage.Some? <==> result.Error?
    ensures result.Error? ==> r.errorMessage == Some(result.message)
    ensures r.scannedDevices == s.scannedDevices && r.pairedDevices == s.pairedDevices && r.isScanning == s.isScanning
  {
    match result
    case ConnectionEstablished => s.(isConnected := true, isConnecting := false, errorMessage := None)
    case Error(message) => s.(isConnected := false, isConnecting := false, errorMessage := Some(message))
  }

  /** The state after the reducer has seen every result of a flow, in order. */
  function AfterResults(s: MainUiState, results: seq<ConnectionResult>): MainUiState
    decreases |results|
  {
    if results == [] then s else OnConnectionResult(AfterResults(s, results[..|results| - 1]), Last(results))
  }

  /** Reducing is memoryless: a result overwrites everything an earlier result set. */
  lemma ResultOverwrites(s: MainUiState, earlier: ConnectionResult, later: ConnectionResult)
    ensures OnConnectionResult(OnConnectionResult(s, earlier), later) == OnConnectionResult(s, later)
  {
  }

  /** After any non-empty run of results the state is what the last result alone makes of the
      starting state; an empty run changes nothing. */
  lemma {:induction false} LastResultWins(s: MainUiState, results: seq<ConnectionResult>)
    ensures results == [] ==> AfterResults(s, results) == s
    ensures results != [] ==> AfterResults(s, results) == OnConnectionResult(s, Last(results))
    decreases |results|
  {
    if |results| > 1 {
      var init := results[..|results| - 1];
      LastResultWins(s, init);
      ResultOverwrites(s, Last(init), Last(results));
    }
  }

  /** The `catch` of `listen`: the attempt is over and nothing is connected; the error message and
      the device lists stay as they were. */
  function AfterFailure(s: MainUiState): (r: MainUiState)
    ensures !r.isConnecting && !r.isConnected
    ensures r.errorMessage == s.errorMessage
    ensures r.scannedDevices == s.scannedDevices && r.pairedDevices == s.pairedDevices && r.isScanning == s.isScanning
  {
    s.(isConnected := false, isConnecting := false)
  }

  /** The snack text for a failed flow: the throwable's message, or "" when it has none. */
  function SnackText(f: Failure): (t: string)
    ensures f.Message().Some? ==> t == f.Message().value
    ensures f.Message().None? ==> t == ""
  {
    f.Message().GetOr("")
  }

  /** The whole `listen` job over a flow that emitted `results` and then ended as `end`. */
  function AfterFlow(s: MainUiState, results: seq<ConnectionResult>, end: FlowEnd): MainUiState {
    if end.Failed? then AfterFailure(AfterResults(s, results)) else AfterResults(s, results)
  }

  function FlowEvents(end: FlowEnd): seq<MainEvent> {
    if end.Failed? then [ShowSnackMessage(SnackText(end.failure))] else []
  }

  class MainViewModel {
    const controller: BluetoothController
    var state: MainUiState
    /** Every event sent to the screen, in order. */
    var events: seq<MainEvent>
    var lastConnectionDevice: Option<Device>

    constructor (controller: BluetoothController)
      ensures this.controller == controller
      ensures state == InitialUiState && events == [] && lastConnectionDevice == None
    {
      this.controller := controller;
      state := InitialUiState;
      events := [];
      lastConnectionDevice := None;
    }

    /** The combined paired/scanned collector: both lists are copied together. */
    method OnControllerDevicesChanged()
      modifies this`state
      ensures state == old(state).(scannedDevices := controller.scannedDevices, pairedDevices := controller.pairedDevices)
    {
      state := state.(scannedDevices := controller.scannedDevices, pairedDevices := controller.pairedDevices);
    }

    /** The isConnected collector: the flag is copied, and only a connection navigates to the chat
        with the controller's last connected device. */
    method OnControllerConnectionChanged()
      requires controller.Valid()
      modifies this`state, this`events
      ensures state == old(state).(isConnected := controller.isConnected)
      ensures controller.isConnected ==> events == old(events) + [NavigateToChat(controller.lastConnectedDevice.value)]
      ensures !controller.isConnected ==> events == old(events)
    {
      state := state.(isConnected := controller.isConnected);
      if controller.isConnected {
        events := events + [NavigateToChat(controller.lastConnectedDevice.value)];
      }
    }

    /** The errors collector: each error string overwrites the error message. */
    method OnControllerError(error: string)
      modifies this`state
      ensures state == old(state).(errorMessage := Some(error))
    {
      state := state.(errorMessage := Some(error));
    }

    /** startDiscovery: the scanning flag is raised first, then the controller is asked. */
    method StartDiscovery(p: Platform)
      modifies this`state, controller`pairedDevices, controller`calls
      ensures state == old(state).(isScanning := true)
      ensures controller.calls == old(controller.calls) + StartDiscoveryCalls(p)
      ensures controller.pairedDevices == if p.scanPermission && IsBluetoothEnabled(p)
                                          then PairedAfterRefresh(old(controller.pairedDevices), p)
                                          else old(controller.pairedDevices)
    {
      state := state.(isScanning := true);
      controller.StartDiscovery(p);
    }

    /** stopDiscovery: the controller is asked first, then the scanning flag is lowered. */
    method StopDiscovery(p: Platform)
      modifies this`state, controller`calls
      ensures state == old(state).(isScanning := false)
      ensures controller.calls == old(controller.calls) + StopDiscoveryCalls(p)
    {
      controller.StopDiscovery(p);
      state := state.(isScanning := false);
    }

    /** The `listen` job: reduce every result; on a failure close the connection, show its message
        and clear both flags. */
    method Listen(results: seq<ConnectionResult>, end: FlowEnd)
      modifies this`state, this`events, controller`currentClientSocket, controller`currentServerSocket, controller`calls
      ensures state == AfterFlow(old(state), results, end)
      ensures events == old(events) + FlowEvents(end)
      ensures end.Failed? ==>
                && controller.currentClientSocket == None && controller.currentServerSocket == None
                && controller.calls == old(controller.calls)
                                       + CloseCalls(old(controller.currentClientSocket), old(controller.currentServerSocket))
      ensures !end.Failed? ==>
                && controller.currentClientSocket == old(controller.currentClientSocket)
                && controller.currentServerSocket == old(controller.currentServerSocket)
                && controller.calls == old(controller.calls)
    {
      var reduced := state;
      for i := 0 to |results|
        invariant reduced == AfterResults(old(state), results[..i])
      {
        assert results[..i + 1][..i] == results[..i];
        reduced := OnConnectionResult(reduced, results[i]);
      }
      assert results[..|results|] == results;
      state := reduced;
      if end.Failed? {
        controller.CloseConnection();
        events := events + [ShowSnackMessage(SnackText(end.failure))];
        state := AfterFailure(state);
      }
    }

    /** connectToDevice: raise the connecting flag, remember the device, and listen to the attempt. */
    method ConnectToDevice(device: Device, p: Platform, socket: Socket, outcome: ConnectOutcome, nullAdapterMessage: Option<string>)
      modifies this`state, this`events, this`lastConnectionDevice,
               controller`currentClientSocket, controller`currentServerSocket, controller`dataTransferService, controller`calls
      ensures lastConnectionDevice == Some(device)
      // the platform sees the connect attempt, or only the closes that follow a thrown failure
      ensures p.connectPermission && p.adapter.Some? ==>
                controller.calls == old(controller.calls) + ConnectCalls(device, p, socket, outcome)
      ensures !p.connectPermission || p.adapter.None? ==>
                controller.calls == old(controller.calls)
                                    + CloseCalls(old(controller.currentClientSocket), old(controller.currentServerSocket))
      // a permitted attempt leaves the listening socket alone; only a connection installs a service
      ensures p.connectPermission && p.adapter.Some? ==>
                controller.currentServerSocket == old(controller.currentServerSocket)
      ensures !(p.connectPermission && p.adapter.Some? && outcome.Connects?) ==>
                controller.dataTransferService == old(controller.dataTransferService)
      // the controller throws: the connection is closed, the message is shown, nothing is connected
      ensures !p.connectPermission ==>
                && state == old(state).(isConnecting := false, isConnected := false)
                && events == old(events) + [ShowSnackMessage(NoConnectPermission)]
                && controller.currentClientSocket == None && controller.currentServerSocket == None
      ensures p.connectPermission && p.adapter.None? ==>
                && state == old(state).(isConnecting := false, isConnected := false)
                && events == old(events) + [ShowSnackMessage(nullAdapterMessage.GetOr(""))]
                && controller.currentClientSocket == None && controller.currentServerSocket == None
      // the one result decides the state
      ensures p.connectPermission && p.adapter.Some? && outcome.Connects? ==>
                && state == old(state).(isConnecting := false, isConnected := true, errorMessage := None)
                && events == old(events)
                && controller.currentClientSocket == Some(socket)
                && controller.dataTransferService == Some(TransferService(socket))
      ensures p.connectPermission && p.adapter.Some? && outcome.ConnectThrows? ==>
                && state == old(state).(isConnecting := false, isConnected := false,
                                        errorMessage := Some(ExceptionText(outcome.message)))
                && events == old(events)
                && controller.currentClientSocket == None
      // `connect()` has not returned: the screen shows the attempt in progress
      ensures p.connectPermission && p.adapter.Some? && outcome.ConnectPending? ==>
                && state == old(state).(isConnecting := true)
                && events == old(events)
                && controller.currentClientSocket == Some(socket)
                && controller.dataTransferService == old(controller.dataTransferService)
    {
      state := state.(isConnecting := true);
      lastConnectionDevice := Some(device);
      var results, end := controller.ConnectToDevice(device, p, socket, outcome, nullAdapterMessage);
      ghost var connecting := state;
      Listen(results, end);
      LastResultWins(connecting, results);
    }

    /** waitForIncomingConnections: raise the connecting flag and listen to the server flow. */
    method WaitForIncomingConnections(p: Platform, server: ServerSocket, accepts: seq<AcceptOutcome>, iterations: nat)
      modifies this`state, this`events,
               controller`currentClientSocket, controller`currentServerSocket, controller`dataTransferService, controller`calls
      ensures !p.connectPermission ==>
                && state == old(state).(isConnecting := false, isConnected := false)
                && events == old(events) + [ShowSnackMessage(NoConnectPermission)]
                && controller.currentClientSocket == None && controller.currentServerSocket == None
                && controller.calls == old(controller.calls)
                                       + CloseCalls(old(controller.currentClientSocket), old(controller.currentServerSocket))
                && controller.dataTransferService == old(controller.dataTransferService)
      ensures p.connectPermission ==> controller.currentServerSocket == Listening(p, server)
      // the server flow never fails once it started: every accept attempt reports a connection
      ensures p.connectPermission ==>
                var opening := if p.adapter.Some? then [ListenUsingRfcomm(SERVICE_NAME, SERVICE_UUID)] else [];
                var r := Serve(Listening(p, server), true, accepts, 0, iterations,
                               ServerState(old(controller.currentClientSocket), old(controller.dataTransferService),
                                           old(controller.calls) + opening, []));
                && events == old(events)
                && controller.ServerView(r.state.emitted) == r.state
                && (r.state.emitted == [] ==> state == old(state).(isConnecting := true))
                && (r.state.emitted != [] ==>
                      state == old(state).(isConnecting := false, isConnected := true, errorMessage := None))
    {
      state := state.(isConnecting := true);
      ghost var connecting := state;
      var results, end := controller.StartBluetoothServer(p, server, accepts, iterations);
      if p.connectPermission {
        ServerEndsWithoutFailure(Listening(p, server), true, accepts, 0, iterations,
                                 ServerState(old(controller.currentClientSocket), old(controller.dataTransferService),
                                             old(controller.calls) + (if p.adapter.Some? then [ListenUsingRfcomm(SERVICE_NAME, SERVICE_UUID)] else []), []));
        ServeOnlyAppends(Listening(p, server), true, accepts, 0, iterations,
                         ServerState(old(controller.currentClientSocket), old(controller.dataTransferService),
                                     old(controller.calls) + (if p.adapter.Some? then [ListenUsingRfcomm(SERVICE_NAME, SERVICE_UUID)] else []), []));
      }
      Listen(results, end);
      LastResultWins(connecting, results);
    }

    method ShowSnack(message: string)
      modifies this`events
      ensures events == old(events) + [ShowSnackMessage(message)]
    {
      events := events + [ShowSnackMessage(message)];
    }

    /** onCleared: release the controller. */
    method OnCleared()
      modifies controller`currentClientSocket, controller`currentServerSocket, controller`calls
      ensures controller.currentClientSocket == None && controller.currentServerSocket == None
      ensures controller.calls == old(controller.calls)
                                  + [UnregisterReceiver(FoundDeviceReceiver), UnregisterReceiver(StateReceiver),
                                     UnregisterReceiver(DiscoveryStateReceiver)]
                                  + CloseCalls(old(controller.currentClientSocket), old(controller.currentServerSocket))
    {
      controller.Release();
    }
  }
}
