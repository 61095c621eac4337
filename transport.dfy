/** BluetoothDataTransferService: the read loop that turns each socket read into one message,
    and the single-write send. */
module Transport {
  import opened Domain

  /** The size of the buffer the read loop allocates once and reuses for every read. */
  const BufferSize: nat := 1024

  /** What one `read(buffer)` on the socket's input stream does: deliver some bytes,
      report end of stream (-1), or throw an IOException. */
  datatype ReadOutcome = Chunk(bytes: seq<Byte>) | EndOfStream | ReadFailed

  /** What one `write(bytes)` on the socket's output stream does. */
  datatype WriteOutcome = Written | WriteFailed

  /** A transfer service wraps one connected socket. */
  datatype TransferService = TransferService(socket: Socket)

  /** A read into the 1024-byte buffer never delivers more than the buffer holds. */
  predicate ChunksFit(outcomes: seq<ReadOutcome>) {
    forall i :: 0 <= i < |outcomes| && outcomes[i].Chunk? ==> |outcomes[i].bytes| <= BufferSize
  }

  /** A message decoded from the peer's bytes. */
  function Incoming(p: Payload): (m: Message)
    ensures !m.isFromLocalUser
  {
    Message(p.message, p.senderName, false)
  }

  /** The messages a listening flow emitted and how the flow ended. */
  datatype Listened = Listened(messages: seq<Message>, end: FlowEnd)

  function Prepend(ms: seq<Message>, l: Listened): Listened {
    Listened(ms + l.messages, l.end)
  }

  /** The `while (true)` loop over a connected socket, given the outcomes of its reads in order.
      When the outcomes run out, the loop is blocked in the next read: the flow is still pending. */
  function ReadLoop(outcomes: seq<ReadOutcome>, decode: seq<Byte> -> Payload): (r: Listened)
    ensures |r.messages| <= |outcomes|
    ensures r.end == Pending || r.end == Failed(TransferFailedException) || r.end == Failed(IllegalArgumentException)
  {
    if outcomes == [] then Listened([], Pending)
    else match outcomes[0]
      case ReadFailed => Listened([], Failed(TransferFailedException))
      // read returned -1: decoding up to end index -1 throws
      case EndOfStream => Listened([], Failed(IllegalArgumentException))
      case Chunk(bytes) => Prepend([Incoming(decode(bytes))], ReadLoop(outcomes[1..], decode))
  }

  /** listenForIncomingMessages as a whole: a socket that is not connected fails before any read. */
  function ListenSpec(connected: bool, outcomes: seq<ReadOutcome>, decode: seq<Byte> -> Payload): Listened {
    if !connected then Listened([], Failed(UnknownHostException)) else ReadLoop(outcomes, decode)
  }

  /** The number of reads that delivered bytes before the first read that did not. */
  function LeadingChunks(outcomes: seq<ReadOutcome>): (n: nat)
    ensures n <= |outcomes|
    ensures forall k :: 0 <= k < n ==> outcomes[k].Chunk?
    ensures n < |outcomes| ==> !outcomes[n].Chunk?
  {
    if outcomes == [] || !outcomes[0].Chunk? then 0 else 1 + LeadingChunks(outcomes[1..])
  }

  /** The socket's read: copies the delivered bytes to the front of the buffer and leaves the rest of
      the buffer as it was (stale bytes from earlier reads stay there). */
  method ReadInto(buffer: array<Byte>, bytes: seq<Byte>) returns (byteCount: nat)
    requires |bytes| <= buffer.Length
    modifies buffer
    ensures byteCount == |bytes|
    ensures buffer[..byteCount] == bytes
    ensures buffer[byteCount..] == old(buffer[byteCount..])
  {
    byteCount := |bytes|;
    var k := 0;
    while k < byteCount
      invariant 0 <= k <= byteCount
      invariant forall j :: 0 <= j < k ==> buffer[j] == bytes[j]
      invariant forall j :: k <= j < buffer.Length ==> buffer[j] == old(buffer[j])
    {
      buffer[k] := bytes[k];
      k := k + 1;
    }
    assert buffer[..byteCount] == bytes;
  }

  /** listenForIncomingMessages: decode each read's first `byteCount` bytes of the reused buffer into
      one message, in read order, until a read fails. */
  method ListenForIncomingMessages(connected: bool, outcomes: seq<ReadOutcome>, decode: seq<Byte> -> Payload)
    returns (messages: seq<Message>, end: FlowEnd)
    requires ChunksFit(outcomes)
    ensures Listened(messages, end) == ListenSpec(connected, outcomes, decode)
  {
    if !connected {
      return [], Failed(UnknownHostException);
    }
    var buffer := new Byte[BufferSize];
    messages := [];
    var i := 0;
    while i < |outcomes|
      invariant 0 <= i <= |outcomes|
      invariant ReadLoop(outcomes, decode) == Prepend(messages, ReadLoop(outcomes[i..], decode))
    {
      assert outcomes[i..][0] == outcomes[i] && outcomes[i..][1..] == outcomes[i + 1..];
      match outcomes[i] {
        case ReadFailed =>
          return messages, Failed(TransferFailedException);
        case EndOfStream =>
          return messages, Failed(IllegalArgumentException);
        case Chunk(bytes) =>
          var byteCount := ReadInto(buffer, bytes);
          messages := messages + [Incoming(decode(buffer[..byteCount]))];
      }
      i := i + 1;
    }
    assert outcomes[i..] == [];
    end := Pending;
  }

  /** sendMessage: one write; false exactly when the write throws. */
  method SendMessage(bytes: seq<Byte>, write: WriteOutcome) returns (ok: bool)
    ensures ok <==> write == Written
  {
    match write {
      case WriteFailed => return false;
      case Written => return true;
    }
  }

  /** Each emitted message is the decoding of one read's bytes, in read order, and no message comes
      from more than one buffer's worth of input. */
  lemma {:induction false} ReadLoopMessages(outcomes: seq<ReadOutcome>, decode: seq<Byte> -> Payload, k: nat)
    requires ChunksFit(outcomes)
    requires k < |ReadLoop(outcomes, decode).messages|
    ensures outcomes[k].Chunk? && |outcomes[k].bytes| <= BufferSize
    ensures ReadLoop(outcomes, decode).messages[k] == Incoming(decode(outcomes[k].bytes))
  {
    assert outcomes != [] && outcomes[0].Chunk?;
    if k > 0 {
      assert ChunksFit(outcomes[1..]) by {
        forall i | 0 <= i < |outcomes[1..]| && outcomes[1..][i].Chunk? ensures |outcomes[1..][i].bytes| <= BufferSize {
          assert outcomes[1..][i] == outcomes[i + 1];
        }
      }
      ReadLoopMessages(outcomes[1..], decode, k - 1);
    }
  }

  /** Exactly one message per read before the first read that fails, and the end says which failure. */
  lemma {:induction false} ReadLoopCount(outcomes: seq<ReadOutcome>, decode: seq<Byte> -> Payload)
    ensures |ReadLoop(outcomes, decode).messages| == LeadingChunks(outcomes)
    ensures var n := LeadingChunks(outcomes);
            ReadLoop(outcomes, decode).end ==
              if n == |outcomes| then Pending
              else if outcomes[n] == ReadFailed then Failed(TransferFailedException)
              else Failed(IllegalArgumentException)
  {
    if outcomes != [] && outcomes[0].Chunk? {
      ReadLoopCount(outcomes[1..], decode);
    }
  }

  /** No emitted message is marked as coming from the local user. */
  lemma {:induction false} ReadLoopAllRemote(outcomes: seq<ReadOutcome>, decode: seq<Byte> -> Payload)
    ensures forall m :: m in ReadLoop(outcomes, decode).messages ==> !m.isFromLocalUser
  {
    if outcomes != [] && outcomes[0].Chunk? {
      ReadLoopAllRemote(outcomes[1..], decode);
    }
  }

  /** A read IOException ends the stream: whatever the socket would deliver afterwards is never emitted. */
  lemma {:induction false} FailureEndsStream(outcomes: seq<ReadOutcome>, later: seq<ReadOutcome>, decode: seq<Byte> -> Payload)
    requires outcomes != [] && Last(outcomes) == ReadFailed
    requires forall k :: 0 <= k < |outcomes| - 1 ==> outcomes[k].Chunk?
    ensures ReadLoop(outcomes + later, decode) == ReadLoop(outcomes, decode)
    ensures ReadLoop(outcomes, decode).end == Failed(TransferFailedException)
    ensures |ReadLoop(outcomes, decode).messages| == |outcomes| - 1
  {
    if |outcomes| > 1 {
      assert (outcomes + later)[1..] == outcomes[1..] + later;
      FailureEndsStream(outcomes[1..], later, decode);
    }
  }

  /** Messages are emitted as they are read: more reads only extend what was already emitted. */
  lemma {:induction false} ReadLoopExtends(outcomes: seq<ReadOutcome>, later: seq<ReadOutcome>, decode: seq<Byte> -> Payload)
    requires ReadLoop(outcomes, decode).end == Pending
    ensures ReadLoop(outcomes + later, decode) == Prepend(ReadLoop(outcomes, decode).messages, ReadLoop(later, decode))
  {
    if outcomes == [] {
      assert outcomes + later == later;
    } else {
      assert (outcomes + later)[1..] == outcomes[1..] + later;
      ReadLoopExtends(outcomes[1..], later, decode);
    }
  }
}
