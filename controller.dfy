/** AndroidBluetoothControllerImpl: the device lists, discovery gating, the server accept loop, the
    client connect attempt, the socket references and the message log. Everything the controller asks
    of the platform is appended, in order, to its `calls` log; what the platform answers (permissions,
    the adapter, accept/connect/read/write outcomes) is given as input. */
module Controller {
  import opened Domain
  import opened Receivers
  import opened Transport

  const SERVICE_UUID := "27b7d1da-08c7-4505-a6d1-2459987e5e2d"
  const SERVICE_NAME := "bluetooth_sample_service"
  const NoConnectPermission := "No bluetooth connection permission"
  const NonPairedDevice := "Can't connect to a non-paired device."
  const UnknownName := "Unknown name"
  const ServiceProperty := "dataTransferService"

  /** The intent filters the constructor registers the two receivers with. */
  const StateFilter := [ACTION_CONNECTION_STATE_CHANGED, ACTION_ACL_CONNECTED, ACTION_ACL_DISCONNECTED]
  const DiscoveryFilter := [ACTION_DISCOVERY_STARTED, ACTION_DISCOVERY_FINISHED]

  datatype Receiver = StateReceiver | DiscoveryStateReceiver | FoundDeviceReceiver

  /** The platform calls the controller makes. */
  datatype PlatformCall =
    | RegisterReceiver(receiver: Receiver, actions: seq<string>)
    | UnregisterReceiver(receiver: Receiver)
    | GetBondedDevices
    | RequestEnable
    | AdapterStartDiscovery
    | AdapterCancelDiscovery
    | ListenUsingRfcomm(serviceName: string, uuid: string)
    | Accept(server: ServerSocket)
    | CloseServer(server: ServerSocket)
    | CreateBond(address: string)
    | CreateRfcommSocket(address: string, uuid: string)
    | Connect(socket: Socket)
    | CloseClient(socket: Socket)
    | Write(socket: Socket, bytes: seq<Byte>)

  /** What one `accept()` on an open listening socket does. */
  datatype AcceptOutcome = Accepted(socket: Socket) | AcceptFailed

  /** What `socket.connect()` does: it returns, it throws (an exception may carry no message), or it
      has not returned yet. */
  datatype ConnectOutcome = Connects | ConnectThrows(message: Option<string>) | ConnectPending

  // ---------------------------------------------------------------------------------------------
  // Device lists

  /** The found-device update: append the device unless an equal entry is already listed. */
  function WithFoundDevice(devices: seq<Device>, device: Device): (r: seq<Device>)
    ensures device in r
    ensures forall d :: d in r <==> d in devices || d == device
    ensures |devices| <= |r| <= |devices| + 1
    ensures r[..|devices|] == devices
    ensures NoDuplicates(devices) ==> NoDuplicates(r)
  {
    if device in devices then devices else devices + [device]
  }

  /** The scanned list after a run of device-found broadcasts, in delivery order. */
  function WithFoundDevices(devices: seq<Device>, found: seq<Device>): seq<Device>
    decreases |found|
  {
    if found == [] then devices else WithFoundDevices(WithFoundDevice(devices, found[0]), found[1..])
  }

  /** However many devices are found, and however often each, the scanned list stays free of duplicates,
      keeps its earlier entries in place, and lists exactly the devices seen. */
  lemma FoundDevicesDeduplicated(devices: seq<Device>, found: seq<Device>)
    requires NoDuplicates(devices)
    ensures var r := WithFoundDevices(devices, found);
            && NoDuplicates(r)
            && |devices| <= |r| <= |devices| + |found|
            && r[..|devices|] == devices
            && forall d :: d in r <==> d in devices || d in found
  {
    FoundDevicesKeepOrder(devices, found);
    FoundDevicesSeen(devices, found);
  }

  /** The list only grows at its end, by at most one entry per broadcast, and never gains a duplicate. */
  lemma {:induction false} FoundDevicesKeepOrder(devices: seq<Device>, found: seq<Device>)
    requires NoDuplicates(devices)
    decreases |found|
    ensures var r := WithFoundDevices(devices, found);
            && NoDuplicates(r)
            && |devices| <= |r| <= |devices| + |found|
            && r[..|devices|] == devices
  {
    if found != [] {
      var next := WithFoundDevice(devices, found[0]);
      FoundDevicesKeepOrder(next, found[1..]);
      var r := WithFoundDevices(next, found[1..]);
      assert r[..|devices|] == r[..|next|][..|devices|];
    }
  }

  /** The list holds exactly the devices it held and the devices found. */
  lemma {:induction false} FoundDevicesSeen(devices: seq<Device>, found: seq<Device>)
    decreases |found|
    ensures forall d :: d in WithFoundDevices(devices, found) <==> d in devices || d in found
  {
    if found != [] {
      var next := WithFoundDevice(devices, found[0]);
      FoundDevicesSeen(next, found[1..]);
      assert found == [found[0]] + found[1..];
    }
  }

  /** Whether the platform can enumerate the bonded devices for a refresh. */
  predicate BondedKnown(p: Platform) {
    p.scanPermission && p.adapter.Some? && p.adapter.value.bondedDevices.Some?
  }

  /** getPairedDevices: the paired list after a refresh. */
  function PairedAfterRefresh(paired: seq<Device>, p: Platform): seq<Device> {
    if BondedKnown(p) then p.adapter.value.bondedDevices.value else paired
  }

  /** A refresh replaces the paired list by the bonded set, whatever the list held before,
      and otherwise leaves it as it was. */
  lemma PairedRefreshReplaces(before: seq<Device>, other: seq<Device>, p: Platform)
    ensures BondedKnown(p) ==> PairedAfterRefresh(before, p) == PairedAfterRefresh(other, p) == p.adapter.value.bondedDevices.value
    ensures !BondedKnown(p) ==> PairedAfterRefresh(before, p) == before
  {
  }

  /** A device counts as paired when the adapter's bonded set contains it. */
  predicate Bonded(device: Device, p: Platform) {
    p.adapter.Some? && p.adapter.value.bondedDevices.Some? && device in p.adapter.value.bondedDevices.value
  }

  // ---------------------------------------------------------------------------------------------
  // Platform calls issued by each operation

  /** `bluetoothAdapter?.bondedDevices`: the set is queried only when there is an adapter. */
  function BondedQueryCalls(p: Platform): seq<PlatformCall> {
    if p.adapter.Some? then [GetBondedDevices] else []
  }

  function RefreshCalls(p: Platform): seq<PlatformCall> {
    if p.scanPermission && p.adapter.Some? then [GetBondedDevices] else []
  }

  function StartDiscoveryCalls(p: Platform): seq<PlatformCall> {
    if !p.scanPermission then []
    else if !IsBluetoothEnabled(p) then [RequestEnable]
    else [RegisterReceiver(FoundDeviceReceiver, [ACTION_FOUND])] + RefreshCalls(p) + [AdapterStartDiscovery]
  }

  function StopDiscoveryCalls(p: Platform): seq<PlatformCall> {
    if !p.scanPermission then []
    else if !IsBluetoothEnabled(p) then [RequestEnable]
    else [AdapterCancelDiscovery]
  }

  /** Discovery gating: nothing without scan permission, only the enable request with the radio off,
      and otherwise the bonded devices are read before discovery starts. */
  lemma DiscoveryGating(p: Platform)
    ensures !p.scanPermission ==> StartDiscoveryCalls(p) == [] && StopDiscoveryCalls(p) == []
    ensures p.scanPermission && !IsBluetoothEnabled(p) ==>
              StartDiscoveryCalls(p) == [RequestEnable] && StopDiscoveryCalls(p) == [RequestEnable]
    ensures p.scanPermission && IsBluetoothEnabled(p) ==>
              StartDiscoveryCalls(p)[1] == GetBondedDevices && Last(StartDiscoveryCalls(p)) == AdapterStartDiscovery
  {
  }

  function CloseCalls(client: Option<Socket>, server: Option<ServerSocket>): seq<PlatformCall> {
    (if client.Some? then [CloseClient(client.value)] else [])
    + (if server.Some? then [CloseServer(server.value)] else [])
  }

  /** The calls of a permitted connect attempt when the adapter exists. */
  function ConnectCalls(device: Device, p: Platform, socket: Socket, outcome: ConnectOutcome): seq<PlatformCall> {
    [CreateBond(device.deviceAddress), CreateRfcommSocket(device.deviceAddress, SERVICE_UUID)]
    + StopDiscoveryCalls(p)
    + [Connect(socket)]
    + (if outcome.ConnectThrows? then [CloseClient(socket)] else [])
  }

  /** With the radio on, a connect cancels discovery immediately before the socket's connect call. */
  lemma ConnectCancelsDiscoveryFirst(device: Device, p: Platform, socket: Socket, outcome: ConnectOutcome)
    requires p.scanPermission && IsBluetoothEnabled(p)
    ensures ConnectCalls(device, p, socket, outcome)[2] == AdapterCancelDiscovery
    ensures ConnectCalls(device, p, socket, outcome)[3] == Connect(socket)
  {
  }

  /** The text of the Error result: the exception's message, or "null" when it has none. */
  function ExceptionText(message: Option<string>): string {
    message.GetOr("null")
  }

  /** The sender name of a locally typed message. */
  function SenderName(p: Platform): string {
    if p.adapter.Some? then p.adapter.value.name.GetOr(UnknownName) else UnknownName
  }

  function LocalMessage(text: string, p: Platform): (m: Message)
    ensures m.isFromLocalUser && m.message == text
    ensures p.adapter.Some? && p.adapter.value.name.Some? ==> m.senderName == p.adapter.value.name.value
    ensures p.adapter.None? || p.adapter.value.name.None? ==> m.senderName == UnknownName
  {
    Message(text, SenderName(p), true)
  }

  // ---------------------------------------------------------------------------------------------
  // The server accept loop

  /** What the accept loop touches: the client-socket reference, the transfer service, the platform
      calls so far, and what the result flow has emitted so far. */
  datatype ServerState = ServerState(client: Option<Socket>, service: Option<TransferService>,
                                     calls: seq<PlatformCall>, emitted: seq<ConnectionResult>)

  datatype ServerOutcome = ServerOutcome(state: ServerState, end: FlowEnd)

  /** The loop is blocked in `accept()`: a listening socket that is still open and no peer left to
      connect. */
  predicate Blocked(server: Option<ServerSocket>, open: bool, accepts: seq<AcceptOutcome>, next: nat) {
    server.Some? && open && next >= |accepts|
  }

  /** One iteration of the accept loop that is not blocked: the socket stored in `currentClientSocket`
      (None when `?.accept()` yields null or throws), the platform calls, whether the listening socket
      is still open, the next accept outcome, and whether the loop goes on. */
  datatype Iteration = Iteration(accepted: Option<Socket>, calls: seq<PlatformCall>, open: bool, next: nat, continues: bool)

  function Iterate(server: Option<ServerSocket>, open: bool, accepts: seq<AcceptOutcome>, next: nat): (it: Iteration)
    requires !Blocked(server, open, accepts, next)
    // an iteration consumes at most one accept outcome, and only on an open listening socket
    ensures it.next == next || (it.next == next + 1 && server.Some? && open && next < |accepts|)
    // a connection closes the listening socket and keeps the loop going
    ensures it.accepted.Some? ==> !it.open && it.continues
  {
    match server
    case None => Iteration(None, [], open, next, true)
    case Some(s) =>
      if !open then Iteration(None, [Accept(s)], open, next, false)
      else match accepts[next]
        case AcceptFailed => Iteration(None, [Accept(s)], open, next + 1, false)
        case Accepted(c) => Iteration(Some(c), [Accept(s), CloseServer(s)], false, next + 1, true)
  }

  /** The state after one iteration: the client reference is overwritten with what accept returned,
      a connection installs a new transfer service, and ConnectionEstablished is emitted either way. */
  function Apply(st: ServerState, it: Iteration): ServerState {
    ServerState(it.accepted,
                if it.accepted.Some? then Some(TransferService(it.accepted.value)) else st.service,
                st.calls + it.calls,
                st.emitted + [ConnectionEstablished])
  }

  /** The `while (shouldLoop)` loop, observed for at most `fuel` iterations, from state `st`. `server`
      is the listening socket (None when there is no adapter: `?.accept()` then yields null without an
      exception), `open` whether it has not been closed yet, `accepts[next..]` what the remaining
      `accept()` calls on an open socket do. `accept()` on a closed socket throws; when no accept
      outcome is left, the loop is blocked in accept. */
  function Serve(server: Option<ServerSocket>, open: bool, accepts: seq<AcceptOutcome>, next: nat, fuel: nat, st: ServerState): ServerOutcome
    decreases fuel
  {
    if fuel == 0 then ServerOutcome(st, Pending)
    else if Blocked(server, open, accepts, next) then ServerOutcome(st.(calls := st.calls + [Accept(server.value)]), Pending)
    else
      var it := Iterate(server, open, accepts, next);
      if it.continues then Serve(server, it.open, accepts, it.next, fuel - 1, Apply(st, it))
      else ServerOutcome(Apply(st, it), Completed)
  }

  /** `n` ConnectionEstablished results in a row. */
  function Established(n: nat): seq<ConnectionResult> {
    seq(n, _ => ConnectionEstablished)
  }

  /** The loop only adds: it emits nothing but ConnectionEstablished, at most one per iteration, and
      only appends platform calls. */
  lemma {:induction false} ServeOnlyAppends(server: Option<ServerSocket>, open: bool, accepts: seq<AcceptOutcome>, next: nat, fuel: nat, st: ServerState)
    ensures var r := Serve(server, open, accepts, next, fuel, st).state;
            && |st.emitted| <= |r.emitted| <= |st.emitted| + fuel
            && r.emitted == st.emitted + Established(|r.emitted| - |st.emitted|)
            && st.calls <= r.calls
    decreases fuel
  {
    var r := Serve(server, open, accepts, next, fuel, st).state;
    if fuel == 0 {
      assert r.emitted == st.emitted + [];
    } else if Blocked(server, open, accepts, next) {
      assert r.emitted == st.emitted + [];
    } else {
      var it := Iterate(server, open, accepts, next);
      var st' := Apply(st, it);
      if it.continues {
        ServeOnlyAppends(server, it.open, accepts, it.next, fuel - 1, st');
        assert r.emitted == st.emitted + ([ConnectionEstablished] + Established(|r.emitted| - |st'.emitted|));
        assert [ConnectionEstablished] + Established(|r.emitted| - |st'.emitted|) == Established(|r.emitted| - |st.emitted|);
      } else {
        assert [ConnectionEstablished] == Established(1);
      }
    }
  }

  /** Once the listening socket is open, the server flow never fails: it is blocked, still
      looping, or completed. */
  lemma {:induction false} ServerEndsWithoutFailure(server: Option<ServerSocket>, open: bool, accepts: seq<AcceptOutcome>, next: nat, fuel: nat, st: ServerState)
    ensures Serve(server, open, accepts, next, fuel, st).end in {Pending, Completed}
    decreases fuel
  {
    if fuel > 0 && !Blocked(server, open, accepts, next) {
      var it := Iterate(server, open, accepts, next);
      if it.continues {
        ServerEndsWithoutFailure(server, it.open, accepts, it.next, fuel - 1, Apply(st, it));
      }
    }
  }

  /** The loop only stops after an accept that threw, and it then leaves the client reference null. */
  lemma {:induction false} ServerStopsWithClientCleared(server: Option<ServerSocket>, open: bool, accepts: seq<AcceptOutcome>, next: nat, fuel: nat, st: ServerState)
    requires Serve(server, open, accepts, next, fuel, st).end == Completed
    ensures Serve(server, open, accepts, next, fuel, st).state.client == None
    ensures |Serve(server, open, accepts, next, fuel, st).state.emitted| > |st.emitted|
    // the last thing the loop did was an accept on the listening socket
    ensures var calls := Serve(server, open, accepts, next, fuel, st).state.calls;
            server.Some? && calls != [] && Last(calls) == Accept(server.value)
    decreases fuel
  {
    var it := Iterate(server, open, accepts, next);
    if it.continues {
      ServerStopsWithClientCleared(server, it.open, accepts, it.next, fuel - 1, Apply(st, it));
    }
  }

  /** With a listening socket the server is single-shot: a failing first accept ends the loop after
      one ConnectionEstablished; a successful one installs that socket and closes the listening
      socket, after which the next accept throws, the loop emits a second ConnectionEstablished and
      stops with the client reference null. */
  lemma ServerSingleShot(s: ServerSocket, accepts: seq<AcceptOutcome>, fuel: nat, st: ServerState)
    requires fuel >= 1 && accepts != []
    ensures accepts[0] == AcceptFailed ==>
              Serve(Some(s), true, accepts, 0, fuel, st)
              == ServerOutcome(ServerState(None, st.service, st.calls + [Accept(s)], st.emitted + [ConnectionEstablished]), Completed)
    ensures accepts[0].Accepted? && fuel >= 2 ==>
              Serve(Some(s), true, accepts, 0, fuel, st)
              == ServerOutcome(ServerState(None, Some(TransferService(accepts[0].socket)),
                                           st.calls + [Accept(s), CloseServer(s), Accept(s)],
                                           st.emitted + [ConnectionEstablished, ConnectionEstablished]), Completed)
  {
    if accepts[0].Accepted? && fuel >= 2 {
      var st' := Apply(st, Iterate(Some(s), true, accepts, 0));
      assert Serve(Some(s), false, accepts, 1, fuel - 1, st') == ServerOutcome(Apply(st', Iteration(None, [Accept(s)], false, 1, false)), Completed);
      assert st.calls + [Accept(s), CloseServer(s)] + [Accept(s)] == st.calls + [Accept(s), CloseServer(s), Accept(s)];
      assert st.emitted + [ConnectionEstablished] + [ConnectionEstablished] == st.emitted + [ConnectionEstablished, ConnectionEstablished];
    }
  }

  /** Without an adapter there is no listening socket: every iteration emits ConnectionEstablished
      and sets the client reference to null, no platform call is made, and the loop never ends. */
  lemma {:induction false} ServerWithoutAdapter(open: bool, accepts: seq<AcceptOutcome>, next: nat, fuel: nat, st: ServerState)
    ensures Serve(None, open, accepts, next, fuel, st)
            == ServerOutcome(ServerState(if fuel == 0 then st.client else None, st.service, st.calls,
                                         st.emitted + Established(fuel)), Pending)
    decreases fuel
  {
    if fuel == 0 {
      assert st.emitted + Established(0) == st.emitted;
    } else {
      var st' := Apply(st, Iterate(None, open, accepts, next));
      assert st'.calls == st.calls;
      ServerWithoutAdapter(open, accepts, next, fuel - 1, st');
      assert st.emitted + [ConnectionEstablished] + Established(fuel - 1) == st.emitted + Established(fuel);
    }
  }

  /** The listening socket the server opens: none without an adapter. */
  function Listening(p: Platform, server: ServerSocket): Option<ServerSocket> {
    if p.adapter.Some? then Some(server) else None
  }

  // ---------------------------------------------------------------------------------------------
  // The controller

  class BluetoothController {
    const codec: Codec
    var scannedDevices: seq<Device>
    var pairedDevices: seq<Device>
    var isScanning: bool
    var isConnected: bool
    /** Unset (None) until the first state change for a bonded device. */
    var lastConnectedDevice: Option<Device>
    /** Every error string emitted, in order. */
    var errors: seq<string>
    /** The message log, appended in place. */
    var messages: seq<Message>
    var currentServerSocket: Option<ServerSocket>
    var currentClientSocket: Option<Socket>
    /** Unset (None) until a connect or accept succeeds; reading it unset throws. */
    var dataTransferService: Option<TransferService>
    /** Every platform call issued, in order. */
    var calls: seq<PlatformCall>

    ghost predicate Valid()
      reads this
    {
      && NoDuplicates(scannedDevices)
      && (isConnected ==> lastConnectedDevice.Some?)
    }

    /** The constructor reads the paired devices and registers the two receivers. */
    constructor (codec: Codec, p: Platform)
      ensures Valid()
      ensures this.codec == codec
      ensures scannedDevices == [] && pairedDevices == PairedAfterRefresh([], p)
      ensures !isScanning && !isConnected && lastConnectedDevice == None
      ensures errors == [] && messages == []
      ensures currentServerSocket == None && currentClientSocket == None && dataTransferService == None
      ensures calls == RefreshCalls(p) + [RegisterReceiver(StateReceiver, StateFilter),
                                          RegisterReceiver(DiscoveryStateReceiver, DiscoveryFilter)]
    {
      this.codec := codec;
      scannedDevices, pairedDevices := [], [];
      isScanning, isConnected := false, false;
      lastConnectedDevice := None;
      errors, messages := [], [];
      currentServerSocket, currentClientSocket, dataTransferService := None, None, None;
      calls := [];
      new;
      RefreshPairedDevices(p);
      calls := calls + [RegisterReceiver(StateReceiver, StateFilter),
                        RegisterReceiver(DiscoveryStateReceiver, DiscoveryFilter)];
    }

    /** getPairedDevices. */
    method RefreshPairedDevices(p: Platform)
      modifies this`pairedDevices, this`calls
      ensures pairedDevices == PairedAfterRefresh(old(pairedDevices), p)
      ensures calls == old(calls) + RefreshCalls(p)
    {
      if !p.scanPermission {
        return;
      }
      if p.adapter.Some? {
        calls := calls + [GetBondedDevices];
        if p.adapter.value.bondedDevices.Some? {
          pairedDevices := p.adapter.value.bondedDevices.value;
        }
      }
    }

    /** The found-device receiver's callback. */
    method OnDeviceFound(device: Device)
      requires Valid()
      modifies this`scannedDevices
      ensures Valid()
      ensures scannedDevices == WithFoundDevice(old(scannedDevices), device)
    {
      if device !in scannedDevices {
        scannedDevices := scannedDevices + [device];
      }
    }

    method OnDiscoveryStarted()
      requires Valid()
      modifies this`isScanning
      ensures Valid() && isScanning
    {
      isScanning := true;
    }

    method OnDiscoveryFinished()
      requires Valid()
      modifies this`isScanning
      ensures Valid() && !isScanning
    {
      isScanning := false;
    }

    /** The ACL state-change route: a bonded device becomes the last connected device and sets the
        flag; any other device only emits the non-paired error. */
    method OnStateChanged(connected: bool, device: Device, p: Platform)
      requires Valid()
      modifies this`lastConnectedDevice, this`isConnected, this`errors, this`calls
      ensures Valid()
      ensures calls == old(calls) + BondedQueryCalls(p)
      ensures Bonded(device, p) ==>
                lastConnectedDevice == Some(device) && isConnected == connected && errors == old(errors)
      ensures !Bonded(device, p) ==>
                && lastConnectedDevice == old(lastConnectedDevice) && isConnected == old(isConnected)
                && errors == old(errors) + [NonPairedDevice]
    {
      calls := calls + BondedQueryCalls(p);
      if Bonded(device, p) {
        lastConnectedDevice := Some(device);
        isConnected := connected;
      } else {
        errors := errors + [NonPairedDevice];
      }
    }

    /** The radio-state route: whatever the new state, close the connection and ask to enable the radio. */
    method OnBluetoothTurnStateChanged(isTurnOn: bool)
      modifies this`currentClientSocket, this`currentServerSocket, this`calls
      ensures currentClientSocket == None && currentServerSocket == None
      ensures calls == old(calls) + CloseCalls(old(currentClientSocket), old(currentServerSocket)) + [RequestEnable]
    {
      CloseConnection();
      calls := calls + [RequestEnable];
    }

    /** A broadcast delivered to the state receiver, routed to the callback it selects. */
    method ReceiveStateBroadcast(intent: Option<Intent>, p: Platform)
      requires Valid()
      modifies this`lastConnectedDevice, this`isConnected, this`errors,
               this`currentClientSocket, this`currentServerSocket, this`calls
      ensures Valid()
      ensures StateReceiverOnReceive(intent) == None ==>
                && lastConnectedDevice == old(lastConnectedDevice) && isConnected == old(isConnected)
                && errors == old(errors) && calls == old(calls)
                && currentClientSocket == old(currentClientSocket) && currentServerSocket == old(currentServerSocket)
      ensures StateReceiverOnReceive(intent).Some? && StateReceiverOnReceive(intent).value.OnStateChanged? ==>
                var cb := StateReceiverOnReceive(intent).value;
                && calls == old(calls) + BondedQueryCalls(p)
                && currentClientSocket == old(currentClientSocket) && currentServerSocket == old(currentServerSocket)
                && (Bonded(cb.device, p) ==>
                      lastConnectedDevice == Some(cb.device) && isConnected == cb.isConnected && errors == old(errors))
                && (!Bonded(cb.device, p) ==>
                      && lastConnectedDevice == old(lastConnectedDevice) && isConnected == old(isConnected)
                      && errors == old(errors) + [NonPairedDevice])
      ensures StateReceiverOnReceive(intent).Some? && StateReceiverOnReceive(intent).value.OnBluetoothTurnStateChanged? ==>
                && currentClientSocket == None && currentServerSocket == None
                && calls == old(calls) + CloseCalls(old(currentClientSocket), old(currentServerSocket)) + [RequestEnable]
                && lastConnectedDevice == old(lastConnectedDevice) && isConnected == old(isConnected)
                && errors == old(errors)
    {
      match StateReceiverOnReceive(intent) {
        case None =>
        case Some(OnStateChanged(connected, device)) =>
          OnStateChanged(connected, device, p);
        case Some(OnBluetoothTurnStateChanged(isTurnOn)) =>
          OnBluetoothTurnStateChanged(isTurnOn);
      }
    }

    /** A broadcast delivered to the discovery-state receiver: only the two callbacks set the flag. */
    method ReceiveDiscoveryBroadcast(intent: Option<Intent>)
      requires Valid()
      modifies this`isScanning
      ensures Valid()
      ensures isScanning == match DiscoveryReceiverOnReceive(intent)
                            case Some(OnDiscoveryStarted) => true
                            case Some(OnDiscoveryFinished) => false
                            case None => old(isScanning)
    {
      match DiscoveryReceiverOnReceive(intent) {
        case None =>
        case Some(OnDiscoveryStarted) => OnDiscoveryStarted();
        case Some(OnDiscoveryFinished) => OnDiscoveryFinished();
      }
    }

    /** startDiscovery: gated on scan permission and the radio; refreshes the paired list before the
        adapter starts discovery. It changes neither the scanning flag nor the scanned list. */
    method StartDiscovery(p: Platform)
      modifies this`pairedDevices, this`calls
      ensures calls == old(calls) + StartDiscoveryCalls(p)
      ensures pairedDevices == if p.scanPermission && IsBluetoothEnabled(p)
                               then PairedAfterRefresh(old(pairedDevices), p) else old(pairedDevices)
    {
      if !p.scanPermission {
        return;
      }
      if !IsBluetoothEnabled(p) {
        calls := calls + [RequestEnable];
        return;
      }
      calls := calls + [RegisterReceiver(FoundDeviceReceiver, [ACTION_FOUND])];
      RefreshPairedDevices(p);
      calls := calls + [AdapterStartDiscovery];
    }

    /** stopDiscovery: gated like startDiscovery; only the adapter's cancel call. */
    method StopDiscovery(p: Platform)
      modifies this`calls
      ensures calls == old(calls) + StopDiscoveryCalls(p)
    {
      if !p.scanPermission {
        return;
      }
      if !IsBluetoothEnabled(p) {
        calls := calls + [RequestEnable];
        return;
      }
      calls := calls + [AdapterCancelDiscovery];
    }

    /** The accept loop's view of this controller, with what its flow has emitted. */
    ghost function ServerView(emitted: seq<ConnectionResult>): ServerState
      reads this
    {
      ServerState(currentClientSocket, dataTransferService, calls, emitted)
    }

    /** startBluetoothServer, observed for at most `iterations` loop iterations. Without connect
        permission it throws before opening anything. */
    method StartBluetoothServer(p: Platform, server: ServerSocket, accepts: seq<AcceptOutcome>, iterations: nat)
      returns (emitted: seq<ConnectionResult>, end: FlowEnd)
      modifies this`currentServerSocket, this`currentClientSocket, this`dataTransferService, this`calls
      ensures !p.connectPermission ==>
                && emitted == [] && end == Failed(SecurityException(NoConnectPermission))
                && currentServerSocket == old(currentServerSocket) && currentClientSocket == old(currentClientSocket)
                && dataTransferService == old(dataTransferService) && calls == old(calls)
      ensures p.connectPermission ==>
                var opening := if p.adapter.Some? then [ListenUsingRfcomm(SERVICE_NAME, SERVICE_UUID)] else [];
                var r := Serve(Listening(p, server), true, accepts, 0, iterations,
                               ServerState(old(currentClientSocket), old(dataTransferService), old(calls) + opening, []));
                && currentServerSocket == Listening(p, server)
                && ServerView(emitted) == r.state && end == r.end
    {
      if !p.connectPermission {
        return [], Failed(SecurityException(NoConnectPermission));
      }
      var listening := Listening(p, server);
      if listening.Some? {
        calls := calls + [ListenUsingRfcomm(SERVICE_NAME, SERVICE_UUID)];
      }
      currentServerSocket := listening;
      assert listening.None? ==> calls == old(calls) + [];
      emitted, end := AcceptLoop(listening, accepts, iterations);
    }

    /** The accept loop of startBluetoothServer over the listening socket `listening`. */
    method AcceptLoop(listening: Option<ServerSocket>, accepts: seq<AcceptOutcome>, iterations: nat)
      returns (emitted: seq<ConnectionResult>, end: FlowEnd)
      modifies this`currentClientSocket, this`dataTransferService, this`calls
      ensures var r := Serve(listening, true, accepts, 0, iterations, old(ServerView([])));
              ServerView(emitted) == r.state && end == r.end
    {
      ghost var target := Serve(listening, true, accepts, 0, iterations, ServerView([]));
      emitted := [];
      var open := true;
      var j: nat := 0;
      var n := 0;
      var shouldLoop := true;
      while shouldLoop && n < iterations && !(listening.Some? && open && j == |accepts|)
        invariant j <= |accepts| && n <= iterations
        invariant shouldLoop ==> Serve(listening, open, accepts, j, iterations - n, ServerView(emitted)) == target
        invariant !shouldLoop ==> ServerOutcome(ServerView(emitted), Completed) == target
        decreases iterations - n
      {
        ghost var it := Iterate(listening, open, accepts, j);
        ghost var before := ServerView(emitted);
        var accepted;
        accepted, open, j, shouldLoop := AcceptOnce(listening, open, accepts, j);
        emitted := emitted + [ConnectionEstablished];
        assert ServerView(emitted) == Apply(before, it);
        n := n + 1;
      }
      if shouldLoop && n < iterations {
        // blocked in accept(): no peer connects
        calls := calls + [Accept(listening.value)];
      }
      end := if shouldLoop then Pending else Completed;
    }

    /** One iteration of the accept loop: accept on the listening socket (none without an adapter),
        store whatever it returned as the client socket, and on a connection install the transfer
        service and close the listening socket. Accept on a closed socket, or one that fails, ends the loop. */
    method AcceptOnce(listening: Option<ServerSocket>, open: bool, accepts: seq<AcceptOutcome>, next: nat)
      returns (accepted: Option<Socket>, stillOpen: bool, following: nat, continues: bool)
      requires !Blocked(listening, open, accepts, next)
      modifies this`currentClientSocket, this`dataTransferService, this`calls
      ensures var it := Iterate(listening, open, accepts, next);
              && accepted == it.accepted && stillOpen == it.open && following == it.next && continues == it.continues
              && calls == old(calls) + it.calls
      ensures currentClientSocket == accepted
      ensures dataTransferService == if accepted.Some? then Some(TransferService(accepted.value)) else old(dataTransferService)
    {
      accepted, stillOpen, following, continues := None, open, next, true;
      if listening.Some? {
        calls := calls + [Accept(listening.value)];
        if !open {
          continues := false;
        } else {
          match accepts[next] {
            case AcceptFailed => continues := false;
            case Accepted(socket) => accepted := Some(socket);
          }
          following := next + 1;
        }
      }
      currentClientSocket := accepted;
      if accepted.Some? {
        dataTransferService := Some(TransferService(accepted.value));
        calls := calls + [CloseServer(listening.value)];
        stillOpen := false;
      }
    }

    /** connectToDevice: one result per permitted attempt that has finished, discovery stopped before
        the connect. A null adapter makes `getRemoteDevice` throw a NullPointerException whose message
        is the runtime's (`nullAdapterMessage`). */
    method ConnectToDevice(device: Device, p: Platform, socket: Socket, outcome: ConnectOutcome, nullAdapterMessage: Option<string>)
      returns (emitted: seq<ConnectionResult>, end: FlowEnd)
      modifies this`currentClientSocket, this`dataTransferService, this`calls
      ensures !p.connectPermission ==>
                && emitted == [] && end == Failed(SecurityException(NoConnectPermission))
                && currentClientSocket == old(currentClientSocket) && dataTransferService == old(dataTransferService)
                && calls == old(calls)
      ensures p.connectPermission && p.adapter.None? ==>
                && emitted == [] && end == Failed(NullPointerException(nullAdapterMessage))
                && currentClientSocket == old(currentClientSocket) && dataTransferService == old(dataTransferService)
                && calls == old(calls)
      ensures p.connectPermission && p.adapter.Some? ==>
                && calls == old(calls) + ConnectCalls(device, p, socket, outcome)
                && (outcome.Connects? ==>
                      && emitted == [ConnectionEstablished] && end == Completed
                      && currentClientSocket == Some(socket)
                      && dataTransferService == Some(TransferService(socket)))
                && (outcome.ConnectThrows? ==>
                      && emitted == [Error(ExceptionText(outcome.message))] && end == Completed
                      && currentClientSocket == None
                      && dataTransferService == old(dataTransferService))
                // still inside `socket.connect()`: the socket is referenced, nothing is emitted yet
                && (outcome.ConnectPending? ==>
                      && emitted == [] && end == Pending
                      && currentClientSocket == Some(socket)
                      && dataTransferService == old(dataTransferService))
    {
      if !p.connectPermission {
        return [], Failed(SecurityException(NoConnectPermission));
      }
      if p.adapter.None? {
        // getRemoteDevice on a null adapter
        return [], Failed(NullPointerException(nullAdapterMessage));
      }
      calls := calls + [CreateBond(device.deviceAddress), CreateRfcommSocket(device.deviceAddress, SERVICE_UUID)];
      currentClientSocket := Some(socket);
      StopDiscovery(p);
      calls := calls + [Connect(socket)];
      match outcome {
        case Connects =>
          dataTransferService := Some(TransferService(socket));
          emitted, end := [ConnectionEstablished], Completed;
        case ConnectThrows(message) =>
          calls := calls + [CloseClient(socket)];
          currentClientSocket := None;
          emitted, end := [Error(ExceptionText(message))], Completed;
        case ConnectPending =>
          emitted, end := [], Pending;
      }
    }

    /** closeConnection: closes whichever sockets are referenced and clears both references;
        with neither referenced it does nothing. */
    method CloseConnection()
      modifies this`currentClientSocket, this`currentServerSocket, this`calls
      ensures currentClientSocket == None && currentServerSocket == None
      ensures calls == old(calls) + CloseCalls(old(currentClientSocket), old(currentServerSocket))
      ensures old(currentClientSocket) == None && old(currentServerSocket) == None ==> calls == old(calls)
    {
      if currentClientSocket.Some? {
        calls := calls + [CloseClient(currentClientSocket.value)];
      }
      if currentServerSocket.Some? {
        calls := calls + [CloseServer(currentServerSocket.value)];
      }
      currentServerSocket := None;
      currentClientSocket := None;
    }

    /** release: unregister the three receivers, then close the connection. */
    method Release()
      modifies this`currentClientSocket, this`currentServerSocket, this`calls
      ensures currentClientSocket == None && currentServerSocket == None
      ensures calls == old(calls)
                       + [UnregisterReceiver(FoundDeviceReceiver), UnregisterReceiver(StateReceiver),
                          UnregisterReceiver(DiscoveryStateReceiver)]
                       + CloseCalls(old(currentClientSocket), old(currentServerSocket))
    {
      calls := calls + [UnregisterReceiver(FoundDeviceReceiver), UnregisterReceiver(StateReceiver),
                        UnregisterReceiver(DiscoveryStateReceiver)];
      CloseConnection();
    }

    /** trySendMessage: null without connect permission; otherwise the local message, whether or not
        the write succeeded. Only a successful write adds it to the log. */
    method TrySendMessage(message: string, p: Platform, write: WriteOutcome) returns (r: Call<Option<Message>>)
      modifies this`messages, this`calls
      ensures !p.connectPermission ==> r == Returned(None) && messages == old(messages) && calls == old(calls)
      ensures p.connectPermission && dataTransferService.None? ==>
                r == Raised(UninitializedPropertyAccess(ServiceProperty)) && messages == old(messages) && calls == old(calls)
      ensures p.connectPermission && dataTransferService.Some? ==>
                var sent := LocalMessage(message, p);
                && r == Returned(Some(sent))
                && calls == old(calls) + [Write(dataTransferService.value.socket, codec.encode(sent))]
                && messages == old(messages) + (if write == Written then [sent] else [])
    {
      if !p.connectPermission {
        return Returned(None);
      }
      var sent := LocalMessage(message, p);
      if dataTransferService.None? {
        return Raised(UninitializedPropertyAccess(ServiceProperty));
      }
      var bytes := codec.encode(sent);
      calls := calls + [Write(dataTransferService.value.socket, bytes)];
      var ok := SendMessage(bytes, write);
      if ok {
        messages := messages + [sent];
      }
      r := Returned(Some(sent));
    }

    /** getSubscribeMessages: every incoming message is appended to the log and the whole log is
        emitted as a snapshot. */
    method SubscribeMessages(connected: bool, outcomes: seq<ReadOutcome>)
      returns (snapshots: seq<seq<Message>>, end: FlowEnd)
      requires ChunksFit(outcomes)
      modifies this`messages
      ensures dataTransferService.None? ==>
                snapshots == [] && end == Failed(UninitializedPropertyAccess(ServiceProperty)) && messages == old(messages)
      ensures dataTransferService.Some? ==>
                var heard := ListenSpec(connected, outcomes, codec.decode);
                && messages == old(messages) + heard.messages
                && end == heard.end
                && |snapshots| == |heard.messages|
                && forall k :: 0 <= k < |snapshots| ==> snapshots[k] == old(messages) + heard.messages[..k + 1]
    {
      if dataTransferService.None? {
        return [], Failed(UninitializedPropertyAccess(ServiceProperty));
      }
      var incoming, flowEnd := ListenForIncomingMessages(connected, outcomes, codec.decode);
      snapshots := [];
      for i := 0 to |incoming|
        invariant messages == old(messages) + incoming[..i]
        invariant |snapshots| == i
        invariant forall k :: 0 <= k < i ==> snapshots[k] == old(messages) + incoming[..k + 1]
      {
        assert incoming[..i + 1] == incoming[..i] + [incoming[i]];
        messages := messages + [incoming[i]];
        snapshots := snapshots + [messages];
      }
      assert incoming[..|incoming|] == incoming;
      end := flowEnd;
    }
  }
}
