/** ChatViewModel: the chat screen's message list, appended to by local sends and replaced by
    each snapshot of the controller's message log. */
module ChatPresentation {
  import opened Domain
  import opened Transport
  import opened Controller

  datatype ChatUiState = ChatUiState(messages: seq<Message>)

  /** The messages the log subscription delivers when the controller holds a transfer service. */
  function Heard(service: Option<TransferService>, connected: bool, outcomes: seq<ReadOutcome>, decode: seq<Byte> -> Payload): seq<Message> {
    if service.None? then [] else ListenSpec(connected, outcomes, decode).messages
  }

  class ChatViewModel {
    const controller: BluetoothController
    var state: ChatUiState

    /** The state starts with no messages; `init` then subscribes to the log. */
    constructor (controller: BluetoothController, connected: bool, outcomes: seq<ReadOutcome>)
      requires ChunksFit(outcomes)
      modifies controller`messages
      ensures this.controller == controller
      ensures var heard := Heard(controller.dataTransferService, connected, outcomes, controller.codec.decode);
              && controller.messages == old(controller.messages) + heard
              && state.messages == if heard == [] then [] else controller.messages
    {
      this.controller := controller;
      state := ChatUiState([]);
      new;
      ListenMessages(connected, outcomes);
    }

    /** sendMessage: a returned message is appended to the end of the list, whether or not the write
        reached the peer; a null result changes nothing. An uninitialized transfer service makes the
        send throw, which is returned here, and the list stays as it was. */
    method SendMessage(message: string, p: Platform, write: WriteOutcome) returns (raised: Option<Failure>)
      modifies this`state, controller`messages, controller`calls
      ensures !p.connectPermission ==>
                state == old(state) && raised == None
                && controller.messages == old(controller.messages) && controller.calls == old(controller.calls)
      ensures p.connectPermission && controller.dataTransferService.None? ==>
                state == old(state) && raised == Some(UninitializedPropertyAccess(ServiceProperty))
                && controller.messages == old(controller.messages) && controller.calls == old(controller.calls)
      ensures p.connectPermission && controller.dataTransferService.Some? ==>
                && state.messages == old(state.messages) + [LocalMessage(message, p)]
                && raised == None
                && controller.calls == old(controller.calls)
                                       + [Write(controller.dataTransferService.value.socket, controller.codec.encode(LocalMessage(message, p)))]
                && controller.messages == old(controller.messages) + (if write == Written then [LocalMessage(message, p)] else [])
    {
      var r := controller.TrySendMessage(message, p, write);
      match r {
        case Raised(failure) =>
          raised := Some(failure);
        case Returned(sent) =>
          raised := None;
          if sent.Some? {
            state := state.(messages := state.messages + [sent.value]);
          }
      }
    }

    /** listenMessages: every snapshot of the log replaces the list; a failure of the subscription is
        only logged. After the flow the list is the whole log, or unchanged when nothing arrived. */
    method ListenMessages(connected: bool, outcomes: seq<ReadOutcome>)
      requires ChunksFit(outcomes)
      modifies this`state, controller`messages
      ensures var heard := Heard(controller.dataTransferService, connected, outcomes, controller.codec.decode);
              && controller.messages == old(controller.messages) + heard
              && state == if heard == [] then old(state) else ChatUiState(controller.messages)
    {
      var snapshots, end := controller.SubscribeMessages(connected, outcomes);
      ghost var log := controller.messages;
      for i := 0 to |snapshots|
        invariant controller.messages == log
        invariant i == 0 ==> state == old(state)
        invariant 0 < i ==> state.messages == snapshots[i - 1]
      {
        state := state.(messages := snapshots[i]);
      }
      if snapshots != [] {
        assert Last(snapshots) == old(controller.messages) + Heard(controller.dataTransferService, connected, outcomes, controller.codec.decode)[..|snapshots|];
        assert Heard(controller.dataTransferService, connected, outcomes, controller.codec.decode)[..|snapshots|]
               == Heard(controller.dataTransferService, connected, outcomes, controller.codec.decode);
      }
    }

    /** disconnectFromDevice: only closes the controller's connection. */
    method DisconnectFromDevice()
      modifies controller`currentClientSocket, controller`currentServerSocket, controller`calls
      ensures controller.currentClientSocket == None && controller.currentServerSocket == None
      ensures controller.calls == old(controller.calls)
                                  + CloseCalls(old(controller.currentClientSocket), old(controller.currentServerSocket))
    {
      controller.CloseConnection();
    }
  }
}
