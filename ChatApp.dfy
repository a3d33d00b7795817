/** The chat component's state as the component holds it: fields that its
    event handlers overwrite one event at a time. Emitting on the socket is
    recorded in the ghost field `outbound`; the transport names the socket
    library reports are passed in as arguments. Each handler is specified by
    the field values it leaves behind and, equivalently, by `Step`. */
module ChatApp {
  import opened JsString
  import opened ChatState

  class ChatSession {
    var messages: Log
    var isConnected: bool
    var transport: string
    var upgradeRegistered: bool
    var input: string
    ghost var outbound: seq<string>

    /** The fields as one value of the model. */
    ghost function State(): Chat
      reads this
    {
      Chat(messages, isConnected, transport, upgradeRegistered, input, outbound)
    }

    ghost predicate Valid()
      reads this
    {
      Inv(State())
    }

    /** The header's status text for the current state. */
    function Label(): (r: string)
      reads this
      ensures r == StatusLabel(isConnected, transport)
      ensures r == "Disconnected" <==> !isConnected
      ensures isConnected ==> |r| >= 14 && r[..14] == "Connected via " && r[14..] == transport
    {
      StatusLabel(isConnected, transport)
    }

    /** Mounting: disconnected over "N/A", an empty log, an empty input. */
    constructor ()
      ensures Valid() && State() == Initial()
      ensures messages == [] && !isConnected && transport == NoTransport
      ensures !upgradeRegistered && input == "" && outbound == []
    {
      messages := [];
      isConnected := false;
      transport := NoTransport;
      upgradeRegistered := false;
      input := "";
      outbound := [];
    }

    /** The mount effect: if the socket is already connected when the
        component subscribes, the connect handler runs at once. */
    method Mount(socketConnected: bool, kind: string)
      requires Valid()
      modifies this
      ensures Valid()
      ensures socketConnected ==> State() == Step(old(State()), Connect(kind))
      ensures !socketConnected ==> State() == old(State())
    {
      if socketConnected {
        OnConnect(kind);
      }
    }

    /** 'connect': connected over the engine's transport, with the upgrade
        listener installed; the log, the input and the emitted payloads stay. */
    method OnConnect(kind: string)
      requires Valid()
      modifies this
      ensures Valid()
      ensures isConnected && transport == kind && upgradeRegistered
      ensures messages == old(messages) && input == old(input) && outbound == old(outbound)
      ensures State() == Step(old(State()), Connect(kind))
    {
      ghost var before := State();
      isConnected := true;
      transport := kind;
      upgradeRegistered := true;
      assert State() == Step(before, Connect(kind));
      StepKeepsInv(before, Connect(kind));
    }

    /** 'disconnect': disconnected, transport back to "N/A"; the upgrade
        listener stays installed and nothing else changes. */
    method OnDisconnect()
      requires Valid()
      modifies this
      ensures Valid()
      ensures !isConnected && transport == NoTransport
      ensures upgradeRegistered == old(upgradeRegistered)
      ensures messages == old(messages) && input == old(input) && outbound == old(outbound)
      ensures State() == Step(old(State()), Disconnect)
    {
      ghost var before := State();
      isConnected := false;
      transport := NoTransport;
      assert State() == Step(before, Disconnect);
      StepKeepsInv(before, Disconnect);
    }

    /** The engine's 'upgrade': once the listener is installed, replaces the
        transport and nothing else; before the first connect it changes
        nothing. While disconnected the label stays "Disconnected". */
    method OnUpgrade(kind: string)
      requires Valid()
      modifies this
      ensures Valid()
      ensures transport == (if old(upgradeRegistered) then kind else old(transport))
      ensures isConnected == old(isConnected) && upgradeRegistered == old(upgradeRegistered)
      ensures messages == old(messages) && input == old(input) && outbound == old(outbound)
      ensures !isConnected ==> Label() == "Disconnected"
      ensures State() == Step(old(State()), Upgrade(kind))
    {
      ghost var before := State();
      if upgradeRegistered {
        transport := kind;
      }
      assert State() == Step(before, Upgrade(kind));
      StepKeepsInv(before, Upgrade(kind));
    }

    /** 'message' from the peer: the payload, whatever it is, "" included,
        becomes one more Stranger entry with the next id. */
    method OnInbound(payload: string, timestamp: string)
      requires Valid()
      modifies this
      ensures Valid()
      ensures messages == old(messages) + [Message(|old(messages)| + 1, Stranger, payload, timestamp)]
      ensures isConnected == old(isConnected) && transport == old(transport)
      ensures upgradeRegistered == old(upgradeRegistered)
      ensures input == old(input) && outbound == old(outbound)
      ensures State() == Step(old(State()), Inbound(payload, timestamp))
    {
      ghost var before := State();
      messages := Append(messages, Stranger, payload, timestamp);
      assert State() == Step(before, Inbound(payload, timestamp));
      StepKeepsInv(before, Inbound(payload, timestamp));
    }

    /** The text field's onChange: the pending input becomes `text`. */
    method EditInput(text: string)
      requires Valid()
      modifies this
      ensures Valid()
      ensures input == text
      ensures messages == old(messages) && outbound == old(outbound)
      ensures isConnected == old(isConnected) && transport == old(transport)
      ensures upgradeRegistered == old(upgradeRegistered)
      ensures State() == Step(old(State()), ChatState.EditInput(text))
    {
      ghost var before := State();
      input := text;
      assert State() == Step(before, ChatState.EditInput(text));
      StepKeepsInv(before, ChatState.EditInput(text));
    }

    /** handleSendMessage: blank input is dropped without any change;
        otherwise the input exactly as typed is emitted once, appended as one
        You entry with the next id, and the input is cleared. */
    method SendText(timestamp: string)
      requires Valid()
      modifies this
      ensures Valid()
      ensures IsBlank(old(input)) ==> State() == old(State())
      ensures !IsBlank(old(input)) ==>
                && outbound == old(outbound) + [old(input)]
                && messages == old(messages) + [Message(|old(messages)| + 1, You, old(input), timestamp)]
                && input == ""
      ensures isConnected == old(isConnected) && transport == old(transport)
      ensures upgradeRegistered == old(upgradeRegistered)
      ensures State() == Step(old(State()), Submit(timestamp))
    {
      ghost var before := State();
      if !IsBlank(input) {
        outbound := outbound + [input];
        messages := Append(messages, You, input, timestamp);
        input := "";
      }
      assert State() == Step(before, Submit(timestamp));
      StepKeepsInv(before, Submit(timestamp));
    }
  }
}
