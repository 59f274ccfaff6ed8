/** `createBroadcaster`: an event emitter of named messages, with
    `subscribeToMessage` for handlers interested in one name only. */
module Broadcaster {
  import opened Commands
  import opened EventEmitter

  /** The message payloads: a command, or `undefined`. */
  datatype Payload = NoPayload | CommandPayload(command: Command)

  datatype Message = Message(name: string, payload: Payload)

  const RenderCommandAdded := "RenderCommandAdded"
  const RenderCommandsCleared := "RenderCommandsCleared"
  const Rendered := "Rendered"

  /** The handler `subscribeToMessage(messageName, handler)` registers: a
      message of another name yields `false`; a message of that name is
      answered by `handler` applied to its payload. */
  function NameFilter(messageName: string, handler: Payload -> bool): (filter: Message -> bool)
    ensures forall m: Message :: m.name != messageName ==> !filter(m)
    ensures forall m: Message :: m.name == messageName ==> filter(m) == handler(m.payload)
  {
    (m: Message) => if m.name == messageName then handler(m.payload) else false
  }

  /** `subscribeToMessage`: the underlying emitter's `subscribe` with the
      filtering handler. */
  method SubscribeToMessage(broadcaster: Emitter<Message>, messageName: string, handler: Payload -> bool)
    returns (id: nat)
    requires broadcaster.Valid()
    modifies broadcaster
    ensures broadcaster.Valid()
    ensures id == broadcaster.handlerId && id !in old(broadcaster.handlers)
    ensures broadcaster.handlers == old(broadcaster.handlers)[id := NameFilter(messageName, handler)]
    ensures broadcaster.history == old(broadcaster.history)
  {
    id := broadcaster.Subscribe(NameFilter(messageName, handler));
  }

  /** A message of another name never removes a name-filtered subscription;
      a message of the subscribed name removes it exactly when the handler's
      result on the payload is truthy. */
  lemma FilteredSubscriptionSurvives(hs: map<nat, Message -> bool>, id: nat, messageName: string,
                                     handler: Payload -> bool, m: Message)
    requires id in hs && hs[id] == NameFilter(messageName, handler)
    ensures m.name != messageName ==> id in Survivors(hs, m)
    ensures m.name == messageName ==> (id in Survivors(hs, m) <==> !handler(m.payload))
  {
    SurvivorsSpec(hs, m, id);
  }
}
