/** The two broadcast receivers: stateless maps from a delivered intent to at most one callback. */
module Receivers {
  import opened Domain

  // Android broadcast actions the receivers and the controller use.
  const ACTION_ACL_CONNECTED := "android.bluetooth.device.action.ACL_CONNECTED"
  const ACTION_ACL_DISCONNECTED := "android.bluetooth.device.action.ACL_DISCONNECTED"
  const ACTION_FOUND := "android.bluetooth.device.action.FOUND"
  const ACTION_STATE_CHANGED := "android.bluetooth.adapter.action.STATE_CHANGED"
  const ACTION_CONNECTION_STATE_CHANGED := "android.bluetooth.adapter.action.CONNECTION_STATE_CHANGED"
  const ACTION_DISCOVERY_STARTED := "android.bluetooth.adapter.action.DISCOVERY_STARTED"
  const ACTION_DISCOVERY_FINISHED := "android.bluetooth.adapter.action.DISCOVERY_FINISHED"

  // Values of the adapter's EXTRA_STATE extra.
  const STATE_ON: int := 12
  const ERROR: int := -0x8000_0000

  /** A delivered intent: its action, its device extra and its adapter-state extra, each possibly absent. */
  datatype Intent = Intent(action: Option<string>, device: Option<Device>, state: Option<int>)

  /** The callbacks of BluetoothStateReceiver. */
  datatype StateCallback =
    | OnStateChanged(isConnected: bool, device: Device)
    | OnBluetoothTurnStateChanged(isTurnOn: bool)

  /** The callbacks of BluetoothDiscoveryStateReceiver. */
  datatype DiscoveryCallback = OnDiscoveryStarted | OnDiscoveryFinished

  /** The intent's action, or None for a null intent. */
  function ActionOf(intent: Option<Intent>): Option<string> {
    if intent.Some? then intent.value.action else None
  }

  /** BluetoothStateReceiver.onReceive: the callback it invokes, if any. */
  function StateReceiverOnReceive(intent: Option<Intent>): (r: Option<StateCallback>)
    // ACL_CONNECTED with a device, and only that, reports a connection
    ensures (r.Some? && r.value.OnStateChanged? && r.value.isConnected)
            <==> (ActionOf(intent) == Some(ACTION_ACL_CONNECTED) && intent.value.device.Some?)
    // ACL_DISCONNECTED with a device, and only that, reports a disconnection
    ensures (r.Some? && r.value.OnStateChanged? && !r.value.isConnected)
            <==> (ActionOf(intent) == Some(ACTION_ACL_DISCONNECTED) && intent.value.device.Some?)
    // the reported device is the intent's device extra
    ensures r.Some? && r.value.OnStateChanged? ==> intent.Some? && intent.value.device == Some(r.value.device)
    // STATE_CHANGED, and only that, reports the radio state, which is "on" exactly for STATE_ON
    ensures (r.Some? && r.value.OnBluetoothTurnStateChanged?) <==> ActionOf(intent) == Some(ACTION_STATE_CHANGED)
    ensures r.Some? && r.value.OnBluetoothTurnStateChanged? ==>
              (r.value.isTurnOn <==> intent.value.state.GetOr(ERROR) == STATE_ON)
  {
    if intent.None? then None
    else
      var device := intent.value.device;
      match intent.value.action
      case None => None
      case Some(action) =>
        if action == ACTION_ACL_CONNECTED then
          (if device.Some? then Some(OnStateChanged(true, device.value)) else None)
        else if action == ACTION_ACL_DISCONNECTED then
          (if device.Some? then Some(OnStateChanged(false, device.value)) else None)
        else if action == ACTION_STATE_CHANGED then
          Some(OnBluetoothTurnStateChanged(intent.value.state.GetOr(ERROR) == STATE_ON))
        else None
  }

  /** A null intent, an intent without an action, or any action other than the three invokes nothing. */
  lemma StateReceiverIgnoresOtherActions(intent: Option<Intent>)
    requires ActionOf(intent) !in {Some(ACTION_ACL_CONNECTED), Some(ACTION_ACL_DISCONNECTED), Some(ACTION_STATE_CHANGED)}
    ensures StateReceiverOnReceive(intent) == None
  {
  }

  /** A STATE_CHANGED intent without the state extra reads as ERROR and so reports the radio off. */
  lemma MissingStateReportsOff(device: Option<Device>)
    ensures StateReceiverOnReceive(Some(Intent(Some(ACTION_STATE_CHANGED), device, None)))
            == Some(OnBluetoothTurnStateChanged(false))
  {
  }

  /** BluetoothDiscoveryStateReceiver.onReceive: the callback it invokes, if any. */
  function DiscoveryReceiverOnReceive(intent: Option<Intent>): (r: Option<DiscoveryCallback>)
    ensures r == Some(OnDiscoveryStarted) <==> ActionOf(intent) == Some(ACTION_DISCOVERY_STARTED)
    ensures r == Some(OnDiscoveryFinished) <==> ActionOf(intent) == Some(ACTION_DISCOVERY_FINISHED)
    ensures r == None <==> ActionOf(intent) !in {Some(ACTION_DISCOVERY_STARTED), Some(ACTION_DISCOVERY_FINISHED)}
  {
    match ActionOf(intent)
    case Some(action) =>
      if action == ACTION_DISCOVERY_STARTED then Some(OnDiscoveryStarted)
      else if action == ACTION_DISCOVERY_FINISHED then Some(OnDiscoveryFinished)
      else None
    case None => None
  }
}
