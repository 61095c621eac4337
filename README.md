# Bluetooth chat core in Dafny

This project models the state-transition core of an Android Bluetooth chat sample and proves
properties of it. The pieces are:

- **Controller** (`AndroidBluetoothControllerImpl`, module `Controller`, class
  `BluetoothController`): the scanned-device list with duplicate suppression, the paired list, the
  permission and radio gating of discovery, the two socket references and the transfer service in
  use, the server accept loop, the client connect attempt, `closeConnection`/`release`, and the
  append-only message log.
- **Transport** (`BluetoothDataTransferService`, module `Transport`): the read loop over a reused
  1024-byte `array` buffer, one message per read, and the single-write send.
- **Broadcast dispatchers** (`BluetoothStateReceiver`, `BluetoothDiscoveryStateReceiver`, module
  `Receivers`): pure maps from an intent to at most one callback.
- **View-models** (modules `MainPresentation` and `ChatPresentation`): the main screen state reduced
  from connection results and controller flows, its one-shot events, and the chat message list.

Shared values live in module `Domain`: devices, messages, connection results, failures, flow ends,
socket handles and the platform snapshot.

How the platform is represented:

- **Platform answers are inputs.** Each operation receives a `Platform` value: scan and connect
  permission plus the adapter (enabled flag, name, bonded set) as they are when the operation runs.
- **Socket behaviour is input.** What `accept()`, `connect()`, `read()` and `write()` do is given as
  a sequence of outcomes.
- **Platform calls are logged.** The controller's commands to the platform are appended to its
  `calls` log: registering and unregistering receivers, the bonded-set query, starting and
  cancelling discovery, the enable-radio request, bonding, opening, accepting on and closing sockets,
  `connect()` and writes.
  The effect of an operation on the platform is therefore stated as exactly what it appends.
- **Reads are inputs.** What the controller only reads is not logged. Permission checks,
  `isEnabled` and the adapter's `name` come from the `Platform` snapshot. A socket's
  `isConnected` and the outcomes of its reads are given as parameters.
- **Sockets are value handles.** They are not modelled as objects.
- **Flows become returned sequences.** A Kotlin flow is modelled by the sequence of values it emits
  plus a `FlowEnd`: `Completed`, `Pending` (still suspended or looping), or `Failed(exception)`.
- **Collectors are methods.** A view-model collector is a method run on what the flow emitted.

The server accept loop is specified by the recursive function `Serve`:

- It carries the loop's state: client reference, transfer service, platform calls and emitted
  results.
- The loop method `AcceptLoop` is proved equal to it.
- The lemmas about `Serve` state what the source promises. The server is single-shot. It emits one
  `ConnectionEstablished` per iteration. When it stops, its last platform call was an accept on the
  listening socket; a successful accept never stops it, so that accept threw. It leaves the client
  reference null. Without an adapter it loops forever.

The read loop is a method over an `array<bv8>` buffer, proved equal to the recursive `ReadLoop`.
The lemmas about `ReadLoop` give one message per successful read, in order, all remote, and nothing
after an I/O error.

Points where the source's behaviour is easy to misread:

- **Duplicate suppression compares whole values.** The scanned list suppresses duplicates with
  whole-value `in` (`AndroidBluetoothControllerImpl.kt:114`), not by address. Device equality is
  modelled as structural equality on (name, address).
- **Missing permission throws.** A missing connect permission makes `startBluetoothServer` and
  `connectToDevice` throw `SecurityException("No bluetooth connection permission")`. They do not
  silently do nothing. The main view-model catches the exception and shows its message.
- **The server emits on every iteration.** It emits `ConnectionEstablished` on every loop iteration,
  including the one where `accept()` throws. Nothing breaks the loop after a successful accept, so
  with a listening socket a successful accept is followed by an accept on the closed socket. That
  accept throws, a second `ConnectionEstablished` is emitted, and the client reference is
  overwritten with null (`Controller.ServerSingleShot`).
- **MainUiState lacks three fields.** `presentation/main/MainUiState.kt:5-9` declares only
  `scannedDevices`, `pairedDevices` and `isScanning`. `MainViewModel` copies `isConnecting`,
  `isConnected` and `errorMessage` as well (`MainViewModel.kt:53,62,74,80,107,115,125-126`).
  `MainPresentation.MainUiState` carries all six fields.

## Model

| member | source | states |
|---|---|---|
| Receivers.StateReceiverOnReceive | app/src/main/java/uz/uni_team/bluetooth_sample/data/chat/BluetoothStateReceiver.kt:14-36 | ACL_CONNECTED / ACL_DISCONNECTED with a device extra, and only those, report `onStateChanged(true/false, device)` with the intent's device. STATE_CHANGED, and only it, reports the radio state, which is "on" exactly when the state extra (ERROR when missing) is STATE_ON. |
| Receivers.StateReceiverIgnoresOtherActions | app/src/main/java/uz/uni_team/bluetooth_sample/data/chat/BluetoothStateReceiver.kt:22-35 | A null intent, a missing action or any other action invokes no callback. |
| Receivers.MissingStateReportsOff | app/src/main/java/uz/uni_team/bluetooth_sample/data/chat/BluetoothStateReceiver.kt:31-34 | STATE_CHANGED without the state extra reports the radio off. |
| Receivers.DiscoveryReceiverOnReceive | app/src/main/java/uz/uni_team/bluetooth_sample/data/chat/BluetoothDiscoveryStateReceiver.kt:11-20 | DISCOVERY_STARTED invokes exactly onDiscoveryStarted, DISCOVERY_FINISHED exactly onDiscoveryFinished, anything else (or no action) neither. |
| Transport.Incoming | app/src/main/java/uz/uni_team/bluetooth_sample/data/chat/BluetoothDataTransferService.kt:31-37 | A decoded message is never marked as local. |
| Transport.ReadLoop | app/src/main/java/uz/uni_team/bluetooth_sample/data/chat/BluetoothDataTransferService.kt:24-38 | At most one message per read. The loop is either still pending or ended by TransferFailedException (read threw) or by the decode failure on end of stream. |
| Transport.ListenSpec | app/src/main/java/uz/uni_team/bluetooth_sample/data/chat/BluetoothDataTransferService.kt:17-39 | The whole listening flow, proved equal to the buffer loop by `Transport.ListenForIncomingMessages`. A socket that is not connected fails with UnknownHostException before any read. Otherwise it is the read loop over the read outcomes. |
| Transport.ReadInto | app/src/main/java/uz/uni_team/bluetooth_sample/data/chat/BluetoothDataTransferService.kt:25-26 | A read copies the delivered bytes to the front of the buffer, returns their count and leaves the rest of the buffer as it was. |
| Transport.ListenForIncomingMessages | app/src/main/java/uz/uni_team/bluetooth_sample/data/chat/BluetoothDataTransferService.kt:17-39 | The loop over the reused 1024-byte buffer emits exactly what `ListenSpec` does. A socket that is not connected fails with UnknownHostException before any read; otherwise the result is `ReadLoop` of the read outcomes. |
| Transport.SendMessage | app/src/main/java/uz/uni_team/bluetooth_sample/data/chat/BluetoothDataTransferService.kt:42-52 | Returns false exactly when the single write throws. |
| Transport.ReadLoopMessages | app/src/main/java/uz/uni_team/bluetooth_sample/data/chat/BluetoothDataTransferService.kt:22-37 | The k-th emitted message is the decoding of the k-th read's bytes, and that read delivered at most 1024 bytes. |
| Transport.ReadLoopCount | app/src/main/java/uz/uni_team/bluetooth_sample/data/chat/BluetoothDataTransferService.kt:24-38 | One message per read before the first read that did not deliver bytes. The end tells which failure stopped the loop, or Pending if none did. |
| Transport.ReadLoopAllRemote | app/src/main/java/uz/uni_team/bluetooth_sample/data/chat/BluetoothDataTransferService.kt:31-37 | No emitted message is from the local user. |
| Transport.FailureEndsStream | app/src/main/java/uz/uni_team/bluetooth_sample/data/chat/BluetoothDataTransferService.kt:25-29 | After a read IOException nothing more is emitted, whatever the socket would deliver, and the flow ends with TransferFailedException. |
| Transport.ReadLoopExtends | app/src/main/java/uz/uni_team/bluetooth_sample/data/chat/BluetoothDataTransferService.kt:24-38 | Messages are emitted as they are read: further reads only extend the emitted sequence. |
| Controller.WithFoundDevice | app/src/main/java/uz/uni_team/bluetooth_sample/data/chat/AndroidBluetoothControllerImpl.kt:112-115 | The found device is listed afterwards and nothing else is added. The list grows by at most one, earlier entries keep their places, and a duplicate-free list stays duplicate-free. |
| Controller.FoundDevicesDeduplicated | app/src/main/java/uz/uni_team/bluetooth_sample/data/chat/AndroidBluetoothControllerImpl.kt:110-117 | After any run of found-device callbacks the list is duplicate-free, keeps its earlier entries in order, grows by at most one per callback and lists exactly the devices seen. |
| Controller.FoundDevicesKeepOrder | app/src/main/java/uz/uni_team/bluetooth_sample/data/chat/AndroidBluetoothControllerImpl.kt:110-117 | Over any run of found-device callbacks the list keeps its earlier entries in place, grows by at most one per callback and never gains a duplicate. |
| Controller.FoundDevicesSeen | app/src/main/java/uz/uni_team/bluetooth_sample/data/chat/AndroidBluetoothControllerImpl.kt:110-117 | Over any run of found-device callbacks the list holds exactly the devices it held and the devices found. |
| Controller.PairedAfterRefresh | app/src/main/java/uz/uni_team/bluetooth_sample/data/chat/AndroidBluetoothControllerImpl.kt:193-200 | getPairedDevices: with scan permission, an adapter and a known bonded set, the paired list is that set; otherwise the list is kept. Its properties are stated by `Controller.PairedRefreshReplaces`. |
| Controller.PairedRefreshReplaces | app/src/main/java/uz/uni_team/bluetooth_sample/data/chat/AndroidBluetoothControllerImpl.kt:193-200 | With scan permission, an adapter and a bonded set, a refresh replaces the paired list wholesale, independent of what it held; otherwise the list is unchanged. |
| Controller.DiscoveryGating | app/src/main/java/uz/uni_team/bluetooth_sample/data/chat/AndroidBluetoothControllerImpl.kt:202-218 | Without scan permission start/stop discovery make no platform call. With the radio off they only request enabling. Otherwise the bonded devices are read before discovery starts. |
| Controller.ConnectCancelsDiscoveryFirst | app/src/main/java/uz/uni_team/bluetooth_sample/data/chat/AndroidBluetoothControllerImpl.kt:257-265 | With scan permission and the radio on, a connect attempt cancels discovery immediately before `socket.connect()`. |
| Controller.LocalMessage | app/src/main/java/uz/uni_team/bluetooth_sample/data/chat/AndroidBluetoothControllerImpl.kt:174-176 | A sent message is local and carries the typed text. The sender is the adapter's name, or "Unknown name" without an adapter or name. |
| Controller.Serve | app/src/main/java/uz/uni_team/bluetooth_sample/data/chat/AndroidBluetoothControllerImpl.kt:229-247 | The `while (shouldLoop)` accept loop run for a bounded number of iterations, from a given client, service, call log and emitted results. An accept on an open socket with no outcome left blocks (pending, one more accept call). Otherwise each iteration applies `Iterate` and emits ConnectionEstablished; the loop completes after the iteration that stops it. Its properties are the Controller.Serve* and Controller.Server* lemmas below. |
| Controller.Iterate | app/src/main/java/uz/uni_team/bluetooth_sample/data/chat/AndroidBluetoothControllerImpl.kt:231-245 | One accept-loop iteration consumes at most one accept outcome, and only on an open listening socket. A connection closes the listening socket and keeps the loop going. |
| Controller.ServeOnlyAppends | app/src/main/java/uz/uni_team/bluetooth_sample/data/chat/AndroidBluetoothControllerImpl.kt:229-247 | The server flow emits only ConnectionEstablished, at most one per iteration, and only appends platform calls. |
| Controller.ServerEndsWithoutFailure | app/src/main/java/uz/uni_team/bluetooth_sample/data/chat/AndroidBluetoothControllerImpl.kt:229-247 | Once listening has started, the server flow never fails: it is blocked or looping (Pending) or has completed. |
| Controller.ServerStopsWithClientCleared | app/src/main/java/uz/uni_team/bluetooth_sample/data/chat/AndroidBluetoothControllerImpl.kt:229-236 | When the loop completes, its last platform call is an accept on the listening socket, it has emitted at least once, and the client reference is null. With `Controller.Iterate` (a successful accept keeps the loop going), this means the loop stops only after an accept that threw. |
| Controller.ServerSingleShot | app/src/main/java/uz/uni_team/bluetooth_sample/data/chat/AndroidBluetoothControllerImpl.kt:229-247 | A failing first accept ends the loop after one ConnectionEstablished. A successful one installs the transfer service and closes the listening socket; the next accept (on the closed socket) throws, a second ConnectionEstablished is emitted and the client reference ends null. |
| Controller.ServerWithoutAdapter | app/src/main/java/uz/uni_team/bluetooth_sample/data/chat/AndroidBluetoothControllerImpl.kt:225-247 | Without an adapter there is no listening socket: every iteration emits ConnectionEstablished with a null client, no platform call is made and the loop never ends. |
| Controller.BluetoothController.constructor | app/src/main/java/uz/uni_team/bluetooth_sample/data/chat/AndroidBluetoothControllerImpl.kt:149-166 | Starts with empty lists, no sockets and no service. The paired list is read, then the two receivers are registered with their filters. |
| Controller.BluetoothController.RefreshPairedDevices | app/src/main/java/uz/uni_team/bluetooth_sample/data/chat/AndroidBluetoothControllerImpl.kt:193-200 | The paired list becomes `PairedAfterRefresh`. The bonded set is read only with scan permission and an adapter. |
| Controller.BluetoothController.OnDeviceFound | app/src/main/java/uz/uni_team/bluetooth_sample/data/chat/AndroidBluetoothControllerImpl.kt:111-115 | The scanned list becomes `WithFoundDevice` of the old one and stays duplicate-free. |
| Controller.BluetoothController.OnDiscoveryStarted | app/src/main/java/uz/uni_team/bluetooth_sample/data/chat/AndroidBluetoothControllerImpl.kt:140-142 | Sets the scanning flag. |
| Controller.BluetoothController.OnDiscoveryFinished | app/src/main/java/uz/uni_team/bluetooth_sample/data/chat/AndroidBluetoothControllerImpl.kt:143-145 | Clears the scanning flag. |
| Controller.BluetoothController.OnStateChanged | app/src/main/java/uz/uni_team/bluetooth_sample/data/chat/AndroidBluetoothControllerImpl.kt:120-131 | The bonded set is queried (and logged) when there is an adapter. A bonded device becomes the last connected device and sets the connected flag to the reported state. Any other device only emits "Can't connect to a non-paired device." and leaves both as they were. |
| Controller.BluetoothController.OnBluetoothTurnStateChanged | app/src/main/java/uz/uni_team/bluetooth_sample/data/chat/AndroidBluetoothControllerImpl.kt:132-135 | Whatever the new radio state: close the connection, then request enabling. |
| Controller.BluetoothController.ReceiveStateBroadcast | app/src/main/java/uz/uni_team/bluetooth_sample/data/chat/AndroidBluetoothControllerImpl.kt:119-136 | A state broadcast changes exactly what its selected callback changes (the ACL route adds only the bonded-set query to the calls and leaves the sockets alone), and nothing when no callback is selected. |
| Controller.BluetoothController.ReceiveDiscoveryBroadcast | app/src/main/java/uz/uni_team/bluetooth_sample/data/chat/AndroidBluetoothControllerImpl.kt:138-147 | Only the started/finished broadcasts set the scanning flag (true/false); anything else leaves it. |
| Controller.BluetoothController.StartDiscovery | app/src/main/java/uz/uni_team/bluetooth_sample/data/chat/AndroidBluetoothControllerImpl.kt:202-212 | Issues exactly `StartDiscoveryCalls`. The paired list is refreshed only when permitted and enabled, and neither the scanning flag nor the scanned list is touched. |
| Controller.BluetoothController.StopDiscovery | app/src/main/java/uz/uni_team/bluetooth_sample/data/chat/AndroidBluetoothControllerImpl.kt:214-218 | Issues exactly `StopDiscoveryCalls` and changes nothing else. |
| Controller.BluetoothController.StartBluetoothServer | app/src/main/java/uz/uni_team/bluetooth_sample/data/chat/AndroidBluetoothControllerImpl.kt:220-249 | Without connect permission: throws SecurityException before opening anything, with nothing changed. Otherwise: opens the listening socket when there is an adapter, and the client, service, calls and emitted results are exactly those of `Serve`. |
| Controller.BluetoothController.AcceptLoop | app/src/main/java/uz/uni_team/bluetooth_sample/data/chat/AndroidBluetoothControllerImpl.kt:229-247 | The `while (shouldLoop)` loop ends in the state and with the end that `Serve` gives. |
| Controller.BluetoothController.AcceptOnce | app/src/main/java/uz/uni_team/bluetooth_sample/data/chat/AndroidBluetoothControllerImpl.kt:231-245 | One iteration changes the references and calls as `Iterate` says: the client becomes what accept returned, and a connection installs a new service. |
| Controller.BluetoothController.ConnectToDevice | app/src/main/java/uz/uni_team/bluetooth_sample/data/chat/AndroidBluetoothControllerImpl.kt:251-277 | Without permission: SecurityException, nothing changed. With a null adapter: NullPointerException carrying the runtime's message, nothing changed. Otherwise bond, socket creation, discovery stopped, then `connect()`, and by its outcome: it returns (one ConnectionEstablished, socket and service installed, completed); it throws (one `Error(message, or "null")` after closing the socket and nulling the client, completed); it has not returned yet (the socket is referenced, nothing is emitted, the flow is pending, the service unchanged). |
| Controller.BluetoothController.CloseConnection | app/src/main/java/uz/uni_team/bluetooth_sample/data/chat/AndroidBluetoothControllerImpl.kt:280-285 | Closes whichever sockets are referenced, and both references end null. With nothing referenced (a second call) it makes no call. |
| Controller.BluetoothController.Release | app/src/main/java/uz/uni_team/bluetooth_sample/data/chat/AndroidBluetoothControllerImpl.kt:287-292 | Unregisters the three receivers, then closes the connection. |
| Controller.BluetoothController.TrySendMessage | app/src/main/java/uz/uni_team/bluetooth_sample/data/chat/AndroidBluetoothControllerImpl.kt:169-185 | Null without connect permission. UninitializedPropertyAccessException when no transfer service was ever installed. Otherwise the local message is returned whether or not the write succeeds, and only a successful write appends it to the log. |
| Controller.BluetoothController.SubscribeMessages | app/src/main/java/uz/uni_team/bluetooth_sample/data/chat/AndroidBluetoothControllerImpl.kt:294-300 | Every incoming message is appended to the log, and the k-th snapshot is the whole log after the k-th message. Without a service the flow fails before reading. |
| MainPresentation.OnConnectionResult | app/src/main/java/uz/uni_team/bluetooth_sample/presentation/main/MainViewModel.kt:102-119 | ConnectionEstablished gives connected, not connecting, no error message. `Error(m)` gives not connected, not connecting, error message m. Lists and scanning flag are kept. |
| MainPresentation.ResultOverwrites | app/src/main/java/uz/uni_team/bluetooth_sample/presentation/main/MainViewModel.kt:104-118 | A later result overwrites everything an earlier one set. |
| MainPresentation.LastResultWins | app/src/main/java/uz/uni_team/bluetooth_sample/presentation/main/MainViewModel.kt:101-119 | After a non-empty run of results the state is what the last result alone makes of the starting state; an empty run changes nothing. |
| MainPresentation.AfterFailure | app/src/main/java/uz/uni_team/bluetooth_sample/presentation/main/MainViewModel.kt:123-128 | A thrown exception clears both flags and keeps the error message and lists. |
| MainPresentation.SnackText | app/src/main/java/uz/uni_team/bluetooth_sample/presentation/main/MainViewModel.kt:122 | The snack shows the throwable's message, or "" when it has none. |
| MainPresentation.MainViewModel.constructor | app/src/main/java/uz/uni_team/bluetooth_sample/presentation/main/MainViewModel.kt:31-39 | Default state, no events, no remembered device. |
| MainPresentation.MainViewModel.OnControllerDevicesChanged | app/src/main/java/uz/uni_team/bluetooth_sample/presentation/main/MainViewModel.kt:42-50 | Paired and scanned lists are copied together; nothing else changes. |
| MainPresentation.MainViewModel.OnControllerConnectionChanged | app/src/main/java/uz/uni_team/bluetooth_sample/presentation/main/MainViewModel.kt:52-57 | The connected flag is copied. Only `true` sends NavigateToChat with the controller's last connected device, which the controller's invariant guarantees is set. |
| MainPresentation.MainViewModel.OnControllerError | app/src/main/java/uz/uni_team/bluetooth_sample/presentation/main/MainViewModel.kt:59-65 | An error string overwrites the error message only. |
| MainPresentation.MainViewModel.StartDiscovery | app/src/main/java/uz/uni_team/bluetooth_sample/presentation/main/MainViewModel.kt:68-71 | Sets isScanning and nothing else in the state, then delegates to the controller. |
| MainPresentation.MainViewModel.StopDiscovery | app/src/main/java/uz/uni_team/bluetooth_sample/presentation/main/MainViewModel.kt:84-87 | Delegates to the controller, then clears isScanning and nothing else in the state. |
| MainPresentation.MainViewModel.Listen | app/src/main/java/uz/uni_team/bluetooth_sample/presentation/main/MainViewModel.kt:101-130 | Reduces every result in order. On a failure it closes the connection, sends one snack with the failure's text and clears both flags. Otherwise it makes no controller call and sends no event. |
| MainPresentation.MainViewModel.ConnectToDevice | app/src/main/java/uz/uni_team/bluetooth_sample/presentation/main/MainViewModel.kt:73-77 | Remembers the device and raises isConnecting; the controller's calls are exactly those of its connect attempt, plus the closes on a thrown failure. By case: permission missing (snack with the exception text, flags false, connection closed); no adapter (snack with the NullPointerException's message, or "" when it has none, flags false); connect pending (isConnecting stays true, nothing else in the state changes, no event); connected (connected, not connecting, no error); connect threw (not connected, not connecting, error text). A permitted attempt with an adapter leaves the listening-socket reference unchanged, and only a connection changes the transfer service. |
| MainPresentation.MainViewModel.WaitForIncomingConnections | app/src/main/java/uz/uni_team/bluetooth_sample/presentation/main/MainViewModel.kt:79-82 | Without permission: snack and flags false. Otherwise no event is sent. The state is connected with no error once any accept attempt was made; while the server is still blocked before its first attempt, it stays connecting. Without permission the controller makes exactly the close calls, and the service is kept. With permission the listening-socket reference is the opened socket (none without an adapter), and client, service and calls are those of `Controller.Serve`. |
| MainPresentation.MainViewModel.ShowSnack | app/src/main/java/uz/uni_team/bluetooth_sample/presentation/main/MainViewModel.kt:95-99 | Sends one ShowSnackMessage event with the text. |
| MainPresentation.MainViewModel.OnCleared | app/src/main/java/uz/uni_team/bluetooth_sample/presentation/main/MainViewModel.kt:89-93 | Releases the controller. |
| ChatPresentation.ChatViewModel.constructor | app/src/main/java/uz/uni_team/bluetooth_sample/presentation/chat/ChatViewModel.kt:22-28 | The list starts empty. After the subscription `init` starts, it is the whole log if any message arrived, and empty otherwise. |
| ChatPresentation.ChatViewModel.SendMessage | app/src/main/java/uz/uni_team/bluetooth_sample/presentation/chat/ChatViewModel.kt:31-41 | With permission and a transfer service: exactly one write on the service's socket, and the returned message is appended at the end even when the write failed (the controller logs it only on success). A null result leaves the state unchanged. Without a service, the uninitialized-property exception escapes the launched coroutine uncaught; the model reports it as the escaping failure `raised` and leaves the state and the calls unchanged. |
| ChatPresentation.ChatViewModel.ListenMessages | app/src/main/java/uz/uni_team/bluetooth_sample/presentation/chat/ChatViewModel.kt:44-52 | Each snapshot replaces the list, so afterwards it is the controller's whole log when anything arrived and unchanged otherwise. A failing subscription is swallowed. |
| ChatPresentation.ChatViewModel.DisconnectFromDevice | app/src/main/java/uz/uni_team/bluetooth_sample/presentation/chat/ChatViewModel.kt:54-56 | Only closes the controller's connection; the chat state is untouched. |

## Left out

- **Coroutines and flows.** Dispatchers, `flowOn`, `launch`, `callbackFlow`/`awaitClose`, SharedFlow and Channel buffering, and any interleaving between tasks are not modelled. A flow is run to its end (or to the end of its inputs), and a collector runs after the producer call that feeds it. The timing between the controller call and the view-model's flag write in startDiscovery/stopDiscovery is only reflected as statement order.
- **StateFlow deduplication.** A StateFlow emits only changed values. The view-model collector methods are invoked by the environment, and the model does not check that repeated values are suppressed.
- **Controller.BluetoothController.StartBluetoothServer, Controller.BluetoothController.AcceptLoop and Controller.Serve: observed for at most `iterations` loop iterations.** Without an adapter the source loop never ends, so the contract describes every finite prefix of the run, not the infinite run.
- **Receiver registration semantics.** Registering and unregistering receivers is only logged. In particular, `release` unregisters the found-device receiver even if discovery never registered it, and ACTION_STATE_CHANGED is not in the filter the state receiver is registered with. The model routes any delivered intent without checking the filter.
- **Platform devices.** The bonded-set membership test compares the mapped (name, address) values rather than platform device objects. Device names are plain strings; a null name is not modelled.
- **Message encoding and decoding.** UTF-8 decoding, `toByteArray` and `toBluetoothMessage` are not shown in the source and are the uninterpreted functions of `Domain.Codec`. End of stream (`read` returning -1) is a separate read outcome, ending the flow with the decode's IllegalArgumentException.
- **Untyped platform exceptions.** `listenUsingRfcommWithServiceRecord`, `createRfcommSocketToServiceRecord` and `getRemoteDevice` can throw (IOException, invalid address); these IOExceptions are not modelled. `close()` on a server or client socket is modelled as always succeeding. An IOException from it is not modelled at three places: at `AndroidBluetoothControllerImpl.kt:243`, outside the try, it would fail the server flow. At kt:271, in the catch, it would escape the connect flow. At kt:281-282 it would skip nulling the references. The NullPointerException message for a null adapter in connectToDevice is the runtime's; it is an input (`nullAdapterMessage`), not a fixed text.
- **Failure messages outside the core.** `Domain.Failure.Message` is None for TransferFailedException, whose class is not part of this model, and for the IllegalArgumentException of the decoder's bounds check, whose text belongs to the Kotlin standard library. For those failures `MainPresentation.SnackText` gives "", which stands for "text not fixed by the core". None of the flows the main view-model listens to ends with either failure.
- **Platform side effects.** `createBond`, the enable-radio intent and the real RFCOMM sockets are only logged.
- **`deviceConnectionJob` in MainViewModel.** It is assigned but never read or cancelled, so it has no observable effect.
- **Logging.** `println`, `Log.e` and the ChatViewModel `logging` call are left out.
- **Android constants.** STATE_ON = 12 and ERROR = Int.MIN_VALUE are the framework's values; they are not part of the repository.
- **Compose UI, navigation, permission helpers and dependency injection.** These are outside the modelled core.
