/** `TeacherClient` of communication.py: the teacher machine connects to a
    student server, introduces itself with a `teacher_connect` handshake,
    and dispatches what it receives to the handlers registered by type. */
module Client {
  import opened Values
  import opened Messages
  import opened Dispatch

  /** What one `recv(1024)` on the client socket yields. */
  datatype Incoming = NoData | Garbled | Got(message: Value)

  /** The events of the client's `_process_message` (communication.py:227-237):
      the `.get` is inside the `try`, so a value that is not a dict is
      swallowed like a handler's exception. */
  function ClientDispatched(handlers: map<string, HandlerId>, message: Value): (r: seq<Event>)
    ensures |r| <= 1
    ensures r != [] ==> message.VObj? && HandlerFor(handlers, message.fields).Some? && r == [ClientHandlerCalled(HandlerFor(handlers, message.fields).value, message)]
    ensures message.VObj? && HandlerFor(handlers, message.fields).Some? ==> r != []
  {
    if !message.VObj? then []
    else match HandlerFor(handlers, message.fields)
      case Some(h) => [ClientHandlerCalled(h, message)]
      case None => []
  }

  /** The handler calls of `_receive_messages` while connected
      (communication.py:210-225): an empty read or a decoding error ends the
      loop, any decoded value is dispatched and the loop goes on. */
  function ClientRun(handlers: map<string, HandlerId>, chunks: seq<Incoming>): (r: seq<Event>)
    ensures |r| <= |chunks|
    ensures forall k :: 0 <= k < |r| ==> r[k].ClientHandlerCalled?
  {
    if chunks == [] then []
    else match chunks[0]
      case NoData => []
      case Garbled => []
      case Got(v) => ClientDispatched(handlers, v) + ClientRun(handlers, chunks[1..])
  }

  /** Unlike the server, the client survives values that are not dicts:
      such a chunk calls nothing and the loop reads on. Nothing after an
      empty read or a decoding error is read. */
  lemma ClientSkipsNonObjects(handlers: map<string, HandlerId>, v: Value, rest: seq<Incoming>)
    ensures !v.VObj? ==> ClientRun(handlers, [Got(v)] + rest) == ClientRun(handlers, rest)
    ensures ClientRun(handlers, [NoData] + rest) == [] && ClientRun(handlers, [Garbled] + rest) == []
  {
    assert ([Got(v)] + rest)[1..] == rest;
  }

  /** Every dict whose tag has a handler reaches it, in the order received,
      as long as the stream has no empty read or decoding error. */
  lemma {:induction false} ClientDeliversInOrder(handlers: map<string, HandlerId>, vs: seq<Value>)
    requires forall k :: 0 <= k < |vs| ==> vs[k].VObj? && HandlerFor(handlers, vs[k].fields).Some?
    ensures ClientRun(handlers, seq(|vs|, k requires 0 <= k < |vs| => Got(vs[k]))) ==
            seq(|vs|, k requires 0 <= k < |vs| => ClientHandlerCalled(HandlerFor(handlers, vs[k].fields).value, vs[k]))
    decreases |vs|
  {
    if vs != [] {
      ClientDeliversInOrder(handlers, vs[1..]);
      var chunks := seq(|vs|, k requires 0 <= k < |vs| => Got(vs[k]));
      assert chunks[1..] == seq(|vs[1..]|, k requires 0 <= k < |vs[1..]| => Got(vs[1..][k]));
      var calls := seq(|vs|, k requires 0 <= k < |vs| => ClientHandlerCalled(HandlerFor(handlers, vs[k].fields).value, vs[k]));
      assert calls == [calls[0]] + seq(|vs[1..]|, k requires 0 <= k < |vs[1..]| => ClientHandlerCalled(HandlerFor(handlers, vs[1..][k].fields).value, vs[1..][k]));
    }
  }

  /** The handshake `connect_to_student_server` sends
      (communication.py:191-196): a falsy `teacher_id` is replaced by a fresh
      uuid. */
  function Handshake(teacherId: Value, teacherName: Value, newId: string, ts: string): (r: Value)
    ensures IsEnvelope(r, TEACHER_CONNECT, ts) && r.fields.Keys == {"type", "teacher_id", "teacher_name", "timestamp"}
    ensures r.fields["teacher_id"] == (if Truthy(teacherId) then teacherId else VStr(newId))
    ensures r.fields["teacher_name"] == teacherName
  {
    TeacherConnect(if Truthy(teacherId) then teacherId else VStr(newId), teacherName, ts)
  }

  class TeacherClient {
    /** `client_socket` */
    var sock: Option<Sock>
    var isConnected: bool
    /** `message_handlers`: type tag -> handler. */
    var handlers: map<string, HandlerId>
    /** What the client has done to its socket and its handlers. */
    var events: seq<Event>

    /** `__init__` (communication.py:175-179). */
    constructor ()
      ensures sock == None && !isConnected && handlers == map[] && events == []
    {
      sock := None;
      isConnected := false;
      handlers := map[];
      events := [];
    }

    /** `_send_message` (communication.py:239-251): sends only while
        connected with a socket; a failing send is reported, not raised. */
    method SendMessage(message: Value, sendOk: bool) returns (ok: bool)
      modifies this
      ensures ok <==> old(isConnected) && old(sock).Some? && sendOk
      ensures events == old(events) + (if ok then [Sent(old(sock).value, message)] else [])
      ensures sock == old(sock) && isConnected == old(isConnected) && handlers == old(handlers)
    {
      if isConnected && sock.Some? {
        if sendOk {
          events := events + [Sent(sock.value, message)];
          ok := true;
        } else {
          ok := false;
        }
      } else {
        ok := false;
      }
    }

    /** `connect_to_student_server` (communication.py:181-208). The new
        socket is kept even when connecting fails, and the connection state
        is then left as it was. Once connected, the handshake is sent; its
        own failure is swallowed and the call still succeeds. Starting the
        receive thread is `ReceiveMessages`. */
    method ConnectToStudentServer(newSock: Sock, connectOk: bool, teacherId: Value, teacherName: Value,
                                  newId: string, ts: string, sendOk: bool) returns (ok: bool)
      modifies this
      ensures ok == connectOk && sock == Some(newSock)
      ensures isConnected == (connectOk || old(isConnected))
      ensures events == old(events) + (if connectOk && sendOk then [Sent(newSock, Handshake(teacherId, teacherName, newId, ts))] else [])
      ensures handlers == old(handlers)
    {
      sock := Some(newSock);
      if !connectOk {
        return false;
      }
      isConnected := true;
      var connectMessage := TeacherConnect(if Truthy(teacherId) then teacherId else VStr(newId), teacherName, ts);
      var _ := SendMessage(connectMessage, sendOk);
      ok := true;
    }

    /** `_process_message` (communication.py:227-237). */
    method ProcessMessage(message: Value)
      modifies this
      ensures events == old(events) + ClientDispatched(handlers, message)
      ensures sock == old(sock) && isConnected == old(isConnected) && handlers == old(handlers)
    {
      if message.VObj? {
        var tag := Get(message.fields, "type", VStr("unknown"));
        if tag.VStr? && tag.s in handlers {
          events := events + [ClientHandlerCalled(handlers[tag.s], message)];
        }
      }
    }

    /** `_receive_messages` (communication.py:210-225) over the chunks the
        socket delivers; whatever ends the loop, the client is disconnected
        afterwards. */
    method ReceiveMessages(chunks: seq<Incoming>)
      modifies this
      ensures !isConnected
      ensures events == old(events) + (if old(isConnected) then ClientRun(handlers, chunks) else [])
      ensures sock == old(sock) && handlers == old(handlers)
    {
      var i := 0;
      var going := isConnected;
      ghost var full := old(events) + (if isConnected then ClientRun(handlers, chunks) else []);
      while going && i < |chunks|
        invariant 0 <= i <= |chunks|
        invariant sock == old(sock) && handlers == old(handlers) && isConnected == old(isConnected)
        invariant going ==> full == events + ClientRun(handlers, chunks[i..])
        invariant !going ==> full == events
        decreases if going then |chunks| - i + 1 else 0
      {
        assert chunks[i..][0] == chunks[i] && chunks[i..][1..] == chunks[i + 1..];
        match chunks[i]
        case NoData =>
          going := false;
        case Garbled =>
          going := false;
        case Got(message) =>
          ProcessMessage(message);
          i := i + 1;
      }
      isConnected := false;
    }

    /** `register_handler` (communication.py:253-255). */
    method RegisterHandler(tag: string, handler: HandlerId)
      modifies this
      ensures handlers == old(handlers)[tag := handler]
      ensures sock == old(sock) && isConnected == old(isConnected) && events == old(events)
    {
      handlers := handlers[tag := handler];
    }

    /** `disconnect` (communication.py:257-264): the socket, if any, is
        closed (a failing close is ignored) but kept. */
    method Disconnect()
      modifies this
      ensures !isConnected && sock == old(sock) && handlers == old(handlers)
      ensures events == old(events) + (if sock.Some? then [Closed(sock.value)] else [])
    {
      isConnected := false;
      if sock.Some? {
        events := events + [Closed(sock.value)];
      }
    }
  }
}
