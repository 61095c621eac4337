/** Values shared by the Bluetooth chat core: devices, messages, connection results,
    the failures the core can raise, and the snapshot of the platform it queries. */
module Domain {

  datatype Option<+T> = None | Some(value: T) {
    function GetOr(default: T): T {
      match this
      case Some(v) => v
      case None => default
    }
  }

  type Byte = bv8

  /** A remote device as the domain layer sees it (mapped field by field from the platform's device). */
  datatype Device = Device(name: string, deviceAddress: string)

  /** A chat message; `isFromLocalUser` tells a message typed here from one read off the socket. */
  datatype Message = Message(message: string, senderName: string, isFromLocalUser: bool)

  /** What the (unseen) text decoding and message parser yield for one chunk of bytes. */
  datatype Payload = Payload(message: string, senderName: string)

  /** The message encoding and decoding, which this model leaves uninterpreted. */
  datatype Codec = Codec(encode: Message -> seq<Byte>, decode: seq<Byte> -> Payload)

  /** The outcome of one connection attempt as emitted to the view-model. */
  datatype ConnectionResult = ConnectionEstablished | Error(message: string)

  /** Exceptions the core lets escape from an operation or a flow. */
  datatype Failure =
    | SecurityException(text: string)
    | NullPointerException(detail: Option<string>)
    | UninitializedPropertyAccess(property: string)
    | UnknownHostException
    | TransferFailedException
    | IllegalArgumentException
  {
    /** The throwable's message. None means the core does not fix it: the text belongs to a class or
        library outside the core (the transfer failure, the decoder's bounds check) or is absent. */
    function Message(): Option<string> {
      match this
      case SecurityException(t) => Some(t)
      case UninitializedPropertyAccess(p) => Some("lateinit property " + p + " has not been initialized")
      case NullPointerException(detail) => detail
      case _ => None
    }
  }

  /** How a flow ended: it finished, it is still suspended (blocked or still looping), or it threw. */
  datatype FlowEnd = Completed | Pending | Failed(failure: Failure)

  /** The result of a suspending call: a returned value or a raised exception. */
  datatype Call<+T> = Returned(value: T) | Raised(failure: Failure)

  /** Opaque platform handles for an RFCOMM client socket and a listening server socket. */
  datatype Socket = Socket(handle: nat)
  datatype ServerSocket = ServerSocket(handle: nat)

  /** The local radio adapter, when the device has one. */
  datatype Adapter = Adapter(isEnabled: bool, name: Option<string>, bondedDevices: Option<seq<Device>>)

  /** What the platform answers at the moment an operation runs: the two permission
      capabilities (scan and connect) and the adapter. */
  datatype Platform = Platform(scanPermission: bool, connectPermission: bool, adapter: Option<Adapter>)

  predicate IsBluetoothEnabled(p: Platform) {
    p.adapter.Some? && p.adapter.value.isEnabled
  }

  predicate NoDuplicates<T(==)>(s: seq<T>) {
    forall i, j :: 0 <= i < j < |s| ==> s[i] != s[j]
  }

  function Last<T>(s: seq<T>): T
    requires s != []
  {
    s[|s| - 1]
  }
}
