/** Routing shared by both peers of communication.py: the handler table
    (type tag -> one handler) and the listener table (event name -> list of
    listeners). Handlers, listeners and sockets are opaque handles; what a
    handler or listener does is outside the model, the model records that it
    was called and with what. */
module Dispatch {
  import opened Values
  import Messages

  type HandlerId = nat
  type ListenerId = nat
  type Sock = nat

  /** The observable effects of the networking layer, in order. */
  datatype Event =
    | HandlerCalled(handler: HandlerId, message: Value, teacherId: Value)  // student server side
    | ClientHandlerCalled(handler: HandlerId, message: Value)              // teacher client side
    | ListenerCalled(listener: ListenerId, eventName: string, data: Value)
    | Sent(sock: Sock, message: Value)
    | Closed(sock: Sock)

  /** The handler `_process_message` calls for a dict message, if any
      (communication.py:105-109, 230-234): the tag defaults to 'unknown';
      the table is keyed by strings, so a tag of any other kind finds nothing
      (an unhashable tag raises inside the try and is swallowed). */
  function HandlerFor(handlers: map<string, HandlerId>, fields: map<string, Value>): (r: Option<HandlerId>)
    ensures r.Some? <==> (exists t :: Messages.TypeTag(fields) == VStr(t) && t in handlers)
    ensures r.Some? ==> Messages.TypeTag(fields).VStr? && r.value == handlers[Messages.TypeTag(fields).s]
  {
    var tag := Messages.TypeTag(fields);
    if tag.VStr? && tag.s in handlers then Some(handlers[tag.s]) else None
  }

  /** register_handler overwrites: the handler registered last for a tag is
      the one called, and every other tag keeps its handler
      (communication.py:145-147, 253-255). */
  lemma LastRegisteredHandlerWins(handlers: map<string, HandlerId>, tag: string, h: HandlerId, fields: map<string, Value>)
    ensures Messages.TypeTag(fields) == VStr(tag) ==> HandlerFor(handlers[tag := h], fields) == Some(h)
    ensures Messages.TypeTag(fields) != VStr(tag) ==> HandlerFor(handlers[tag := h], fields) == HandlerFor(handlers, fields)
  {
  }

  /** A message without `type` is looked up as 'unknown'; a tag nobody
      registered calls nothing (communication.py:105-109). */
  lemma UnregisteredTagCallsNothing(handlers: map<string, HandlerId>, fields: map<string, Value>)
    ensures "type" !in fields ==> HandlerFor(handlers, fields) == (if "unknown" in handlers then Some(handlers["unknown"]) else None)
    ensures (forall t :: t in handlers ==> Messages.TypeTag(fields) != VStr(t)) ==> HandlerFor(handlers, fields) == None
  {
  }

  /** The listeners stored for one event name, in registration order. */
  function ListenersFor(listeners: map<string, seq<ListenerId>>, eventName: string): seq<ListenerId> {
    if eventName in listeners then listeners[eventName] else []
  }

  /** The table after `add_listener(eventName, l)` (communication.py:149-153):
      the list is created on first use and `l` is appended to it. */
  function AddListener(listeners: map<string, seq<ListenerId>>, eventName: string, l: ListenerId): (r: map<string, seq<ListenerId>>)
    ensures r.Keys == listeners.Keys + {eventName}
    ensures ListenersFor(r, eventName) == ListenersFor(listeners, eventName) + [l]
    ensures forall e :: e in listeners && e != eventName ==> r[e] == listeners[e]
  {
    listeners[eventName := ListenersFor(listeners, eventName) + [l]]
  }

  /** Registration order is kept: adding listeners one after another makes
      the event's list the old list followed by the new ones, in order, and
      other events are untouched. */
  lemma {:induction false} AddListenersKeepsOrder(listeners: map<string, seq<ListenerId>>, eventName: string, ls: seq<ListenerId>, other: string)
    requires other != eventName
    ensures ListenersFor(AddAll(listeners, eventName, ls), eventName) == ListenersFor(listeners, eventName) + ls
    ensures ListenersFor(AddAll(listeners, eventName, ls), other) == ListenersFor(listeners, other)
    decreases |ls|
  {
    if ls != [] {
      var last := ls[|ls| - 1];
      AddListenersKeepsOrder(listeners, eventName, ls[..|ls| - 1], other);
      assert ListenersFor(listeners, eventName) + ls[..|ls| - 1] + [last] == ListenersFor(listeners, eventName) + ls;
    }
  }

  /** `add_listener` called once per element of `ls`, in order. */
  function AddAll(listeners: map<string, seq<ListenerId>>, eventName: string, ls: seq<ListenerId>): map<string, seq<ListenerId>>
    decreases |ls|
  {
    if ls == [] then listeners
    else AddListener(AddAll(listeners, eventName, ls[..|ls| - 1]), eventName, ls[|ls| - 1])
  }

  /** The notification evidently intended at communication.py:82-83 and
      97-98: call every listener registered for `eventName`, in registration
      order, with the event name and its data. */
  function Notify(listeners: map<string, seq<ListenerId>>, eventName: string, data: Value): (r: seq<Event>)
    ensures |r| == |ListenersFor(listeners, eventName)|
    ensures forall k :: 0 <= k < |r| ==> r[k] == ListenerCalled(ListenersFor(listeners, eventName)[k], eventName, data)
  {
    var ls := ListenersFor(listeners, eventName);
    seq(|ls|, k requires 0 <= k < |ls| => ListenerCalled(ls[k], eventName, data))
  }

  /** What the loops at communication.py:82 and :97 actually do: they iterate
      over the table's values, which are lists, and call each; calling a
      list raises TypeError. So the loop raises exactly when some event has
      a listener, whatever the event being notified. */
  predicate NotifyRaisesAsWritten(listeners: map<string, seq<ListenerId>>) {
    listeners != map[]
  }
}
