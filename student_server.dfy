/** `StudentServer` of communication.py: the student machine listens, each
    connected teacher gets one session thread, and the registry maps teacher
    ids to their sockets. A session is modelled as the sequence of chunks
    its socket delivers; each chunk is read, decoded and dispatched in turn
    (communication.py:63-100). */
module Server {
  import opened Values
  import opened Messages
  import opened Dispatch

  /** What one `recv(1024)` of a session yields: nothing (the peer closed),
      bytes that are not one UTF-8 JSON document, or a decoded value. The
      uuid the handshake would draw for a missing id is carried along. */
  datatype Chunk = EmptyRead | Undecodable | Decoded(message: Value, freshId: string)

  /** The registry, the session's `teacher_id` local, and the event log. */
  datatype Session = Session(registry: map<Value, Sock>, teacherId: Value, events: seq<Event>)

  const CONNECTED_EVENT := "teacher_connected"
  const DISCONNECTED_EVENT := "teacher_disconnected"

  function ConnectedData(teacherId: Value, message: Value): Value {
    VObj(map["teacher_id" := teacherId, "teacher_data" := message])
  }

  function DisconnectedData(teacherId: Value): Value {
    VObj(map["teacher_id" := teacherId])
  }

  /** `data_json.get('type') == 'teacher_connect'` on a dict. */
  predicate IsHandshake(fields: map<string, Value>) {
    Get(fields, "type", VNull) == VStr(TEACHER_CONNECT)
  }

  /** `data_json.get('teacher_id', str(uuid.uuid4()))`. */
  function HandshakeId(fields: map<string, Value>, freshId: string): Value {
    Get(fields, "teacher_id", VStr(freshId))
  }

  /** The events of `_process_message(message, sock, teacher_id)` for a
      dict message (communication.py:102-112). */
  function Dispatched(handlers: map<string, HandlerId>, fields: map<string, Value>, teacherId: Value): (r: seq<Event>)
    ensures |r| <= 1
    ensures r != [] <==> HandlerFor(handlers, fields).Some?
    ensures r != [] ==> r[0] == HandlerCalled(HandlerFor(handlers, fields).value, VObj(fields), teacherId)
  {
    match HandlerFor(handlers, fields)
    case Some(h) => [HandlerCalled(h, VObj(fields), teacherId)]
    case None => []
  }

  /** One pass of the receive loop of `_handle_teacher` (communication.py:67-87):
      the session after the chunk, and whether the loop goes on. An empty
      read breaks; a decoding error, a value that is not a dict (`.get`
      raises), or an unhashable teacher id (the registry assignment raises)
      ends the loop through the exception handler. With `asWritten`, the
      listener loop at line 82 raises as soon as any listener is
      registered, after the id was registered. */
  function Step(handlers: map<string, HandlerId>, listeners: map<string, seq<ListenerId>>, sock: Sock,
                s: Session, c: Chunk, asWritten: bool): (r: (Session, bool))
    ensures s.events <= r.0.events
    ensures r.1 <==> && c.Decoded? && c.message.VObj?
                     && (IsHandshake(c.message.fields) ==> Hashable(HandshakeId(c.message.fields, c.freshId)))
                     && !(asWritten && IsHandshake(c.message.fields) && NotifyRaisesAsWritten(listeners))
    ensures !(c.Decoded? && c.message.VObj? && IsHandshake(c.message.fields)) ==>
              r.0.registry == s.registry && r.0.teacherId == s.teacherId
    ensures c.Decoded? && c.message.VObj? && IsHandshake(c.message.fields) ==>
              var id := HandshakeId(c.message.fields, c.freshId);
              && r.0.teacherId == id
              && r.0.registry == (if Hashable(id) then s.registry[id := sock] else s.registry)
    ensures c.Decoded? && c.message.VObj? && !IsHandshake(c.message.fields) ==>
              r.0.events == s.events + Dispatched(handlers, c.message.fields, s.teacherId)
    ensures c.Decoded? && c.message.VObj? && IsHandshake(c.message.fields) && r.1 ==>
              var id := HandshakeId(c.message.fields, c.freshId);
              r.0.events == s.events + Notify(listeners, CONNECTED_EVENT, ConnectedData(id, c.message))
    ensures (c.Decoded? && c.message.VObj? && IsHandshake(c.message.fields) && !r.1) || !c.Decoded? || !c.message.VObj? ==>
              r.0.events == s.events
  {
    match c
    case EmptyRead => (s, false)
    case Undecodable => (s, false)
    case Decoded(msg, newId) =>
      if !msg.VObj? then (s, false)
      else if IsHandshake(msg.fields) then
        var id := HandshakeId(msg.fields, newId);
        if !Hashable(id) then (s.(teacherId := id), false)
        else
          var registered := Session(s.registry[id := sock], id, s.events);
          if asWritten && NotifyRaisesAsWritten(listeners) then (registered, false)
          else (registered.(events := s.events + Notify(listeners, CONNECTED_EVENT, ConnectedData(id, msg))), true)
      else (s.(events := s.events + Dispatched(handlers, msg.fields, s.teacherId)), true)
  }

  /** The `finally` block of `_handle_teacher` (communication.py:91-100). A
      truthy id is popped and the disconnection announced; popping an
      unhashable id raises, and the exception leaves the thread before the
      socket is closed. With `asWritten`, the listener loop at line 97
      raises whenever any listener is registered, with the same effect. */
  function Teardown(listeners: map<string, seq<ListenerId>>, sock: Sock, s: Session, asWritten: bool): (r: Session)
    ensures r.teacherId == s.teacherId && s.events <= r.events
    ensures Truthy(s.teacherId) && Hashable(s.teacherId) ==> r.registry == s.registry - {s.teacherId}
    ensures !(Truthy(s.teacherId) && Hashable(s.teacherId)) ==> r.registry == s.registry
    ensures (r.events != s.events && r.events[|r.events| - 1] == Closed(sock)) <==>
            !(Truthy(s.teacherId) && !Hashable(s.teacherId))
            && !(asWritten && Truthy(s.teacherId) && NotifyRaisesAsWritten(listeners))
    ensures !Truthy(s.teacherId) ==> r.events == s.events + [Closed(sock)]
    ensures !asWritten && Truthy(s.teacherId) && Hashable(s.teacherId) ==>
              r.events == s.events + Notify(listeners, DISCONNECTED_EVENT, DisconnectedData(s.teacherId)) + [Closed(sock)]
    ensures Truthy(s.teacherId) && (!Hashable(s.teacherId) || (asWritten && NotifyRaisesAsWritten(listeners))) ==>
              r.events == s.events
  {
    if !Truthy(s.teacherId) then s.(events := s.events + [Closed(sock)])
    else if !Hashable(s.teacherId) then s
    else
      var popped := s.(registry := s.registry - {s.teacherId});
      if asWritten && NotifyRaisesAsWritten(listeners) then popped
      else popped.(events := s.events + Notify(listeners, DISCONNECTED_EVENT, DisconnectedData(s.teacherId)) + [Closed(sock)])
  }

  /** A whole session: read chunks until the loop ends (running out of
      chunks is the peer closing), then tear down. */
  function Run(handlers: map<string, HandlerId>, listeners: map<string, seq<ListenerId>>, sock: Sock,
               s: Session, chunks: seq<Chunk>, asWritten: bool): (r: Session)
    ensures s.events <= r.events
    decreases |chunks|
  {
    if chunks == [] then Teardown(listeners, sock, s, asWritten)
    else
      var (next, goOn) := Step(handlers, listeners, sock, s, chunks[0], asWritten);
      if goOn then Run(handlers, listeners, sock, next, chunks[1..], asWritten)
      else Teardown(listeners, sock, next, asWritten)
  }

  /** The session with every listener called, as evidently intended. */
  function RunSession(handlers: map<string, HandlerId>, listeners: map<string, seq<ListenerId>>, sock: Sock,
                      s: Session, chunks: seq<Chunk>): (r: Session)
    ensures s.events <= r.events
  {
    Run(handlers, listeners, sock, s, chunks, false)
  }

  /** The session as communication.py:82 and :97 are written. */
  function RunSessionAsWritten(handlers: map<string, HandlerId>, listeners: map<string, seq<ListenerId>>, sock: Sock,
                               s: Session, chunks: seq<Chunk>): (r: Session)
    ensures s.events <= r.events
  {
    Run(handlers, listeners, sock, s, chunks, true)
  }

  /** A chunk that ends the loop ends the session: nothing after it is read. */
  lemma SessionStopsAtBadChunk(handlers: map<string, HandlerId>, listeners: map<string, seq<ListenerId>>, sock: Sock,
                               s: Session, c: Chunk, rest: seq<Chunk>)
    requires c.EmptyRead? || c.Undecodable? || (c.Decoded? && !c.message.VObj?)
    ensures RunSession(handlers, listeners, sock, s, [c] + rest) == Teardown(listeners, sock, s, false)
  {
    assert ([c] + rest)[0] == c;
  }

  /** Chunks that each decode to a dict other than a handshake. */
  predicate NonHandshakeDicts(chunks: seq<Chunk>) {
    forall k :: 0 <= k < |chunks| ==>
      chunks[k].Decoded? && chunks[k].message.VObj? && !IsHandshake(chunks[k].message.fields)
  }

  /** The handler calls such chunks make, one after another, all with the
      session's `teacher_id`. Every chunk whose tag has a handler calls it. */
  function DispatchedAll(handlers: map<string, HandlerId>, chunks: seq<Chunk>, teacherId: Value): (r: seq<Event>)
    requires NonHandshakeDicts(chunks)
    ensures forall k :: 0 <= k < |r| ==> r[k].HandlerCalled? && r[k].teacherId == teacherId
  {
    if chunks == [] then []
    else Dispatched(handlers, chunks[0].message.fields, teacherId) + DispatchedAll(handlers, chunks[1..], teacherId)
  }

  /** Every chunk whose tag has a handler calls it. */
  lemma {:induction false} DispatchedAllCalls(handlers: map<string, HandlerId>, chunks: seq<Chunk>, teacherId: Value)
    requires NonHandshakeDicts(chunks)
    ensures forall k :: 0 <= k < |chunks| && HandlerFor(handlers, chunks[k].message.fields).Some? ==>
              HandlerCalled(HandlerFor(handlers, chunks[k].message.fields).value, chunks[k].message, teacherId)
                in DispatchedAll(handlers, chunks, teacherId)
    decreases |chunks|
  {
    if chunks != [] {
      DispatchedAllCalls(handlers, chunks[1..], teacherId);
      assert forall k :: 1 <= k < |chunks| ==> chunks[k] == chunks[1..][k - 1];
    }
  }

  /** Non-handshake dicts leave the registry and `teacher_id` alone: the
      session reads on, having only made their handler calls. */
  lemma {:induction false} NonHandshakesKeepSession(handlers: map<string, HandlerId>,
                                                    listeners: map<string, seq<ListenerId>>, sock: Sock, s: Session,
                                                    chunks: seq<Chunk>, rest: seq<Chunk>)
    requires NonHandshakeDicts(chunks)
    ensures RunSession(handlers, listeners, sock, s, chunks + rest) ==
            RunSession(handlers, listeners, sock,
                       Session(s.registry, s.teacherId, s.events + DispatchedAll(handlers, chunks, s.teacherId)), rest)
    decreases |chunks|
  {
    if chunks == [] {
      assert chunks + rest == rest;
      assert Session(s.registry, s.teacherId, s.events + []) == s;
    } else {
      var next := NonHandshakeStep(handlers, listeners, sock, s, chunks, rest);
      NonHandshakesKeepSession(handlers, listeners, sock, next, chunks[1..], rest);
    }
  }

  /** One non-handshake dict at the front of the session: its handler call,
      then the rest of the session. */
  lemma NonHandshakeStep(handlers: map<string, HandlerId>, listeners: map<string, seq<ListenerId>>, sock: Sock,
                         s: Session, chunks: seq<Chunk>, rest: seq<Chunk>) returns (next: Session)
    requires NonHandshakeDicts(chunks) && chunks != []
    ensures NonHandshakeDicts(chunks[1..])
    ensures RunSession(handlers, listeners, sock, s, chunks + rest) == RunSession(handlers, listeners, sock, next, chunks[1..] + rest)
    ensures Session(next.registry, next.teacherId, next.events + DispatchedAll(handlers, chunks[1..], next.teacherId)) ==
            Session(s.registry, s.teacherId, s.events + DispatchedAll(handlers, chunks, s.teacherId))
  {
    var c := chunks[0];
    assert (chunks + rest)[0] == c && (chunks + rest)[1..] == chunks[1..] + rest;
    var head := Dispatched(handlers, c.message.fields, s.teacherId);
    next := Session(s.registry, s.teacherId, s.events + head);
    assert Step(handlers, listeners, sock, s, c, false) == (next, true);
    forall k | 0 <= k < |chunks[1..]| ensures chunks[1..][k] == chunks[k + 1] { }
    var tail := DispatchedAll(handlers, chunks[1..], s.teacherId);
    assert DispatchedAll(handlers, chunks, s.teacherId) == head + tail;
    assert s.events + head + tail == s.events + (head + tail);
  }

  /** Before any handshake the handlers see `teacher_id` None
      (communication.py:65, 87): when a session opens with non-handshake
      dicts, each one whose tag has a handler calls it with a null id, and
      those calls are the first events of the session. */
  lemma HandlersBeforeHandshakeSeeNull(handlers: map<string, HandlerId>, listeners: map<string, seq<ListenerId>>,
                                       sock: Sock, reg: map<Value, Sock>, chunks: seq<Chunk>, rest: seq<Chunk>)
    requires NonHandshakeDicts(chunks)
    ensures var r := RunSession(handlers, listeners, sock, Session(reg, VNull, []), chunks + rest);
            && DispatchedAll(handlers, chunks, VNull) <= r.events
            && forall k :: 0 <= k < |chunks| && HandlerFor(handlers, chunks[k].message.fields).Some? ==>
                 HandlerCalled(HandlerFor(handlers, chunks[k].message.fields).value, chunks[k].message, VNull) in r.events
  {
    NonHandshakesKeepSession(handlers, listeners, sock, Session(reg, VNull, []), chunks, rest);
    DispatchedAllCalls(handlers, chunks, VNull);
    var d := DispatchedAll(handlers, chunks, VNull);
    var r := RunSession(handlers, listeners, sock, Session(reg, VNull, []), chunks + rest);
    assert [] + d == d;
    assert d <= r.events;
    forall k | 0 <= k < |chunks| && HandlerFor(handlers, chunks[k].message.fields).Some?
      ensures HandlerCalled(HandlerFor(handlers, chunks[k].message.fields).value, chunks[k].message, VNull) in r.events
    {
      var e := HandlerCalled(HandlerFor(handlers, chunks[k].message.fields).value, chunks[k].message, VNull);
      var i :| 0 <= i < |d| && d[i] == e;
      assert r.events[i] == e;
    }
  }

  /** With the listener loop as intended, a handshake registers the id with
      this socket, calls each listener once with `teacher_connected`, and the
      session goes on with the id as its `teacher_id`. */
  lemma HandshakeRegistersAndNotifies(handlers: map<string, HandlerId>, listeners: map<string, seq<ListenerId>>,
                                      sock: Sock, s: Session, msg: map<string, Value>, newId: string, rest: seq<Chunk>)
    requires IsHandshake(msg) && Hashable(HandshakeId(msg, newId))
    ensures var id := HandshakeId(msg, newId);
            RunSession(handlers, listeners, sock, s, [Decoded(VObj(msg), newId)] + rest) ==
            RunSession(handlers, listeners, sock,
                       Session(s.registry[id := sock], id, s.events + Notify(listeners, CONNECTED_EVENT, ConnectedData(id, VObj(msg)))),
                       rest)
  {
    var chunks := [Decoded(VObj(msg), newId)] + rest;
    assert chunks[0] == Decoded(VObj(msg), newId) && chunks[1..] == rest;
  }

  /** After a handshake, every later non-handshake dict whose tag has a
      handler reaches it with the handshake's id (communication.py:76-87),
      and the session goes on with that id registered. */
  lemma HandshakeThenMessagesReachHandlers(handlers: map<string, HandlerId>, listeners: map<string, seq<ListenerId>>,
                                           sock: Sock, s: Session, hs: map<string, Value>, newId: string,
                                           chunks: seq<Chunk>, rest: seq<Chunk>)
    requires IsHandshake(hs) && Hashable(HandshakeId(hs, newId)) && NonHandshakeDicts(chunks)
    ensures var id := HandshakeId(hs, newId);
            RunSession(handlers, listeners, sock, s, [Decoded(VObj(hs), newId)] + chunks + rest) ==
            RunSession(handlers, listeners, sock,
                       Session(s.registry[id := sock], id,
                               s.events + Notify(listeners, CONNECTED_EVENT, ConnectedData(id, VObj(hs)))
                               + DispatchedAll(handlers, chunks, id)),
                       rest)
  {
    var id := HandshakeId(hs, newId);
    assert [Decoded(VObj(hs), newId)] + chunks + rest == [Decoded(VObj(hs), newId)] + (chunks + rest);
    HandshakeRegistersAndNotifies(handlers, listeners, sock, s, hs, newId, chunks + rest);
    var s1 := Session(s.registry[id := sock], id, s.events + Notify(listeners, CONNECTED_EVENT, ConnectedData(id, VObj(hs))));
    NonHandshakesKeepSession(handlers, listeners, sock, s1, chunks, rest);
  }

  /** A session that ended after one handshake with a truthy hashable id
      leaves the registry as it found it, minus that id, and closes its socket. */
  lemma HandshakeThenCloseUnregisters(handlers: map<string, HandlerId>, listeners: map<string, seq<ListenerId>>,
                                      sock: Sock, reg: map<Value, Sock>, msg: map<string, Value>, newId: string)
    requires IsHandshake(msg) && Hashable(HandshakeId(msg, newId)) && Truthy(HandshakeId(msg, newId))
    ensures var r := RunSession(handlers, listeners, sock, Session(reg, VNull, []), [Decoded(VObj(msg), newId)]);
            && r.registry == reg - {HandshakeId(msg, newId)}
            && r.events != [] && r.events[|r.events| - 1] == Closed(sock)
  {
    var id := HandshakeId(msg, newId);
    HandshakeRegistersAndNotifies(handlers, listeners, sock, Session(reg, VNull, []), msg, newId, []);
    assert [Decoded(VObj(msg), newId)] + [] == [Decoded(VObj(msg), newId)];
    assert reg[id := sock] - {id} == reg - {id};
  }

  /** `if teacher_id:` tests truthiness: a handshake whose id is falsy
      ("" or 0) is registered, but the session's end neither removes it nor
      announces it; the registry keeps a closed socket. */
  lemma FalsyIdStaysRegistered(handlers: map<string, HandlerId>, listeners: map<string, seq<ListenerId>>,
                               sock: Sock, reg: map<Value, Sock>, msg: map<string, Value>, newId: string)
    requires IsHandshake(msg) && Hashable(HandshakeId(msg, newId)) && !Truthy(HandshakeId(msg, newId))
    ensures var r := RunSession(handlers, listeners, sock, Session(reg, VNull, []), [Decoded(VObj(msg), newId)]);
            && r.registry == reg[HandshakeId(msg, newId) := sock]
            && r.events == Notify(listeners, CONNECTED_EVENT, ConnectedData(HandshakeId(msg, newId), VObj(msg))) + [Closed(sock)]
  {
    HandshakeRegistersAndNotifies(handlers, listeners, sock, Session(reg, VNull, []), msg, newId, []);
    assert [Decoded(VObj(msg), newId)] + [] == [Decoded(VObj(msg), newId)];
  }

  /** A handshake chunk for the example sessions. */
  function Hello(id: string): Chunk {
    Decoded(TeacherConnect(VStr(id), VStr("teacher"), "now"), "u")
  }

  /** Two handshakes on one connection: only the second id is popped when the
      session ends, so the first stays registered with a closed socket. */
  lemma SecondHandshakeLeavesStaleEntry(handlers: map<string, HandlerId>, sock: Sock)
    ensures var r := RunSession(handlers, map[], sock, Session(map[], VNull, []), [Hello("a"), Hello("b")]);
            r.registry == map[VStr("a") := sock] && r.events == [Closed(sock)]
  {
    var s0 := Session(map[], VNull, []);
    var s1 := Session(map[VStr("a") := sock], VStr("a"), []);
    var s2 := Session(map[VStr("a") := sock, VStr("b") := sock], VStr("b"), []);
    var s3 := Session(map[VStr("a") := sock], VStr("b"), [Closed(sock)]);
    HelloRegisters(handlers, sock, s0, "a");
    HelloRegisters(handlers, sock, s1, "b");
    ByeUnregisters(sock, s2, "b");
    assert map[VStr("a") := sock, VStr("b") := sock] - {VStr("b")} == map[VStr("a") := sock];
    RunGoesOn(handlers, map[], sock, s0, Hello("a"), [Hello("b")]);
    RunGoesOn(handlers, map[], sock, s1, Hello("b"), []);
    assert [Hello("a")] + [Hello("b")] == [Hello("a"), Hello("b")];
  }

  /** A chunk after which the loop goes on leaves the rest of the session to
      the state it produced. */
  lemma RunGoesOn(handlers: map<string, HandlerId>, listeners: map<string, seq<ListenerId>>, sock: Sock,
                  s: Session, c: Chunk, rest: seq<Chunk>)
    requires Step(handlers, listeners, sock, s, c, false).1
    ensures Run(handlers, listeners, sock, s, [c] + rest, false) ==
            Run(handlers, listeners, sock, Step(handlers, listeners, sock, s, c, false).0, rest, false)
  {
    assert ([c] + rest)[0] == c && ([c] + rest)[1..] == rest;
  }

  /** With no listeners, the end of a session pops its id and closes the
      socket. */
  lemma ByeUnregisters(sock: Sock, s: Session, id: string)
    requires s.teacherId == VStr(id) && id != ""
    ensures Teardown(map[], sock, s, false) == Session(s.registry - {VStr(id)}, VStr(id), s.events + [Closed(sock)])
  {
    assert Notify(map[], DISCONNECTED_EVENT, DisconnectedData(VStr(id))) == [];
    assert s.events + [] + [Closed(sock)] == s.events + [Closed(sock)];
  }

  /** With no listeners, a handshake registers its id and the loop goes on. */
  lemma HelloRegisters(handlers: map<string, HandlerId>, sock: Sock, s: Session, id: string)
    ensures Step(handlers, map[], sock, s, Hello(id), false) == (Session(s.registry[VStr(id) := sock], VStr(id), s.events), true)
  {
    var m := TeacherConnect(VStr(id), VStr("teacher"), "now");
    assert HandshakeId(m.fields, "u") == VStr(id) && IsHandshake(m.fields);
    assert Hello(id).message == m && Hashable(VStr(id));
    assert Notify(map[], CONNECTED_EVENT, ConnectedData(VStr(id), m)) == [];
    assert s.events + [] == s.events;
  }

  /** As written, one registered listener of any event breaks every session
      at its handshake: the id is registered, the listener loop raises, the
      id is popped again, the `finally` loop raises too, and the socket is
      never closed; nothing after the handshake is read. */
  lemma ListenerBreaksHandshakeAsWritten(handlers: map<string, HandlerId>, listeners: map<string, seq<ListenerId>>,
                                         sock: Sock, reg: map<Value, Sock>, msg: map<string, Value>, newId: string,
                                         rest: seq<Chunk>)
    requires listeners != map[]
    requires IsHandshake(msg) && Hashable(HandshakeId(msg, newId)) && Truthy(HandshakeId(msg, newId))
    ensures var r := RunSessionAsWritten(handlers, listeners, sock, Session(reg, VNull, []), [Decoded(VObj(msg), newId)] + rest);
            r.registry == reg - {HandshakeId(msg, newId)} && r.events == []
  {
    var id := HandshakeId(msg, newId);
    var chunks := [Decoded(VObj(msg), newId)] + rest;
    assert chunks[0] == Decoded(VObj(msg), newId);
    assert reg[id := sock] - {id} == reg - {id};
  }

  /** Concretely: the student GUI registers listeners for both events
      (student_gui.py:231-232); a teacher's handshake then leaves no trace in
      the registry, calls no listener, and the socket stays open. */
  lemma StudentListenersBreakHandshakeAsWritten(sock: Sock)
    ensures var listeners := map[CONNECTED_EVENT := [0], DISCONNECTED_EVENT := [1]];
            var hello := Decoded(TeacherConnect(VStr("T1"), VStr("王老师"), "now"), "u");
            var r := RunSessionAsWritten(map[], listeners, sock, Session(map[], VNull, []), [hello]);
            r.registry == map[] && r.events == []
  {
    var listeners := map[CONNECTED_EVENT := [0], DISCONNECTED_EVENT := [1]];
    var msg := TeacherConnect(VStr("T1"), VStr("王老师"), "now");
    assert HandshakeId(msg.fields, "u") == VStr("T1") && IsHandshake(msg.fields);
    assert CONNECTED_EVENT in listeners;
    ListenerBreaksHandshakeAsWritten(map[], listeners, sock, map[], msg.fields, "u", []);
    assert [Decoded(msg, "u")] + [] == [Decoded(msg, "u")];
    var none: map<Value, Sock> := map[];
    assert none - {VStr("T1")} == none;
  }

  /** The same session with the listener loop as intended: registered,
      both listeners told in turn, then unregistered and closed. */
  lemma StudentListenersSeeHandshake(sock: Sock)
    ensures var listeners := map[CONNECTED_EVENT := [0], DISCONNECTED_EVENT := [1]];
            var msg := TeacherConnect(VStr("T1"), VStr("王老师"), "now");
            var r := RunSession(map[], listeners, sock, Session(map[], VNull, []), [Decoded(msg, "u")]);
            && r.registry == map[]
            && r.events == [ListenerCalled(0, CONNECTED_EVENT, ConnectedData(VStr("T1"), msg)),
                            ListenerCalled(1, DISCONNECTED_EVENT, DisconnectedData(VStr("T1"))),
                            Closed(sock)]
  {
    var listeners := map[CONNECTED_EVENT := [0], DISCONNECTED_EVENT := [1]];
    var msg := TeacherConnect(VStr("T1"), VStr("王老师"), "now");
    assert HandshakeId(msg.fields, "u") == VStr("T1");
    HandshakeThenCloseUnregisters(map[], listeners, sock, map[], msg.fields, "u");
    HandshakeRegistersAndNotifies(map[], listeners, sock, Session(map[], VNull, []), msg.fields, "u", []);
    assert [Decoded(msg, "u")] + [] == [Decoded(msg, "u")];
    assert map[VStr("T1") := sock] - {VStr("T1")} == map[];
    var n1 := Notify(listeners, CONNECTED_EVENT, ConnectedData(VStr("T1"), msg));
    var n2 := Notify(listeners, DISCONNECTED_EVENT, DisconnectedData(VStr("T1")));
    assert n1 == [ListenerCalled(0, CONNECTED_EVENT, ConnectedData(VStr("T1"), msg))];
    assert n2 == [ListenerCalled(1, DISCONNECTED_EVENT, DisconnectedData(VStr("T1")))];
  }

  /* ---------- the server object ---------- */

  /** `order` lists the keys of `m`, each once. */
  ghost predicate Enumerates(order: seq<Value>, keys: set<Value>) {
    && (forall x :: x in order <==> x in keys)
    && (forall i, j :: 0 <= i < j < |order| ==> order[i] != order[j])
  }

  /** The sends of a broadcast visiting `order`: a socket in `failing`
      raises and is skipped. */
  function Broadcasts(conn: map<Value, Sock>, order: seq<Value>, failing: set<Value>, message: Value): seq<Event>
    requires forall k :: 0 <= k < |order| ==> order[k] in conn
  {
    if order == [] then []
    else
      var last := order[|order| - 1];
      Broadcasts(conn, order[..|order| - 1], failing, message) + (if last in failing then [] else [Sent(conn[last], message)])
  }

  /** The closes of `stop_server` visiting `order`. */
  function ClosesAll(conn: map<Value, Sock>, order: seq<Value>): seq<Event>
    requires forall k :: 0 <= k < |order| ==> order[k] in conn
  {
    if order == [] then []
    else ClosesAll(conn, order[..|order| - 1]) + [Closed(conn[order[|order| - 1]])]
  }

  /** How many of `ids` are not in `failing`. */
  function CountOk(ids: seq<Value>, failing: set<Value>): nat {
    if ids == [] then 0
    else CountOk(ids[..|ids| - 1], failing) + (if ids[|ids| - 1] in failing then 0 else 1)
  }

  /** A broadcast sends once per id outside `failing`. */
  lemma {:induction false} BroadcastsCountOk(conn: map<Value, Sock>, order: seq<Value>, failing: set<Value>, message: Value)
    requires forall k :: 0 <= k < |order| ==> order[k] in conn
    ensures |Broadcasts(conn, order, failing, message)| == CountOk(order, failing)
    decreases |order|
  {
    if order != [] {
      BroadcastsCountOk(conn, order[..|order| - 1], failing, message);
    }
  }

  /** Visiting every key once and counting the successes counts the keys
      outside `failing`. */
  lemma {:induction false} CountOkEnumerates(ids: seq<Value>, keys: set<Value>, failing: set<Value>)
    requires Enumerates(ids, keys)
    ensures CountOk(ids, failing) == |keys - failing|
    decreases |ids|
  {
    if ids == [] {
      assert keys == {};
    } else {
      var last := ids[|ids| - 1];
      var front := ids[..|ids| - 1];
      var rest := keys - {last};
      forall x ensures x in front <==> x in rest {
        if x in front {
          var k :| 0 <= k < |front| && front[k] == x;
          assert ids[k] == x;
        }
        if x in rest {
          assert x in ids;
          var k :| 0 <= k < |ids| && ids[k] == x;
          assert k < |ids| - 1;
          assert front[k] == x;
        }
      }
      assert Enumerates(front, rest);
      CountOkEnumerates(front, rest, failing);
      if last in failing {
        assert keys - failing == rest - failing;
      } else {
        assert keys - failing == (rest - failing) + {last};
      }
    }
  }

  /** One more visited id extends the sends and the count by that id's. */
  lemma SendEachStep(snapshot: map<Value, Sock>, ids: seq<Value>, i: nat, failing: set<Value>, message: Value)
    requires i < |ids| && forall k :: 0 <= k < |ids| ==> ids[k] in snapshot
    ensures Broadcasts(snapshot, ids[..i + 1], failing, message) ==
            Broadcasts(snapshot, ids[..i], failing, message) + (if ids[i] in failing then [] else [Sent(snapshot[ids[i]], message)])
    ensures forall x :: x in ids[..i + 1] <==> x in ids[..i] || x == ids[i]
  {
    assert ids[..i + 1][..i] == ids[..i] && ids[..i + 1][i] == ids[i];
    assert ids[..i + 1] == ids[..i] + [ids[i]];
  }

  /** The loop of `stop_server` (communication.py:166-171) over the
      snapshot `ids` of the registry `conn`: each socket closed once. */
  method CloseEach(conn: map<Value, Sock>, ids: seq<Value>) returns (closes: seq<Event>)
    requires forall k :: 0 <= k < |ids| ==> ids[k] in conn
    ensures closes == ClosesAll(conn, ids)
  {
    closes := [];
    for i := 0 to |ids|
      invariant closes == ClosesAll(conn, ids[..i])
    {
      assert ids[..i + 1][..i] == ids[..i] && ids[..i + 1][i] == ids[i];
      closes := closes + [Closed(conn[ids[i]])];
    }
    assert ids[..|ids|] == ids;
  }

  /** The loop of `broadcast_to_teachers` over the snapshot `ids` of the
      registry `snapshot`: the teachers whose send fails are dropped, the
      others are sent the message once each and counted. */
  method SendEach(snapshot: map<Value, Sock>, ids: seq<Value>, failing: set<Value>, message: Value)
    returns (conn: map<Value, Sock>, sent: seq<Event>, count: nat)
    requires Enumerates(ids, snapshot.Keys)
    ensures conn == snapshot - failing
    ensures sent == Broadcasts(snapshot, ids, failing, message)
    ensures count == |snapshot.Keys - failing|
  {
    conn := snapshot;
    sent := [];
    count := 0;
    for i := 0 to |ids|
      invariant forall x :: x in conn <==> x in snapshot && !(x in ids[..i] && x in failing)
      invariant forall x :: x in conn ==> conn[x] == snapshot[x]
      invariant count == |sent|
      invariant sent == Broadcasts(snapshot, ids[..i], failing, message)
    {
      var id := ids[i];
      SendEachStep(snapshot, ids, i, failing, message);
      if id in failing {
        conn := conn - {id};
      } else {
        sent := sent + [Sent(snapshot[id], message)];
        count := count + 1;
      }
    }
    assert ids[..|ids|] == ids;
    DroppedAll(conn, snapshot, failing);
    BroadcastsCountOk(snapshot, ids, failing, message);
    CountOkEnumerates(ids, snapshot.Keys, failing);
  }

  /** A map that keeps exactly the entries of `snapshot` outside `failing`
      is `snapshot - failing`. */
  lemma DroppedAll(conn: map<Value, Sock>, snapshot: map<Value, Sock>, failing: set<Value>)
    requires forall x :: x in conn <==> x in snapshot && x !in failing
    requires forall x :: x in conn ==> conn[x] == snapshot[x]
    ensures conn == snapshot - failing
  {
    assert conn.Keys == (snapshot - failing).Keys;
  }

  class StudentServer {
    /** `connected_teachers`: teacher id -> socket. */
    var connected: map<Value, Sock>
    /** `message_handlers`: type tag -> handler. */
    var handlers: map<string, HandlerId>
    /** `teacher_listeners`: event name -> listeners in registration order. */
    var listeners: map<string, seq<ListenerId>>
    var isRunning: bool
    /** `server_socket`. */
    var listening: Option<Sock>
    /** What the server has done to sockets, handlers and listeners. */
    var events: seq<Event>

    /** `__init__` (communication.py:14-21). */
    constructor ()
      ensures connected == map[] && handlers == map[] && listeners == map[]
      ensures !isRunning && listening == None && events == []
    {
      connected := map[];
      handlers := map[];
      listeners := map[];
      isRunning := false;
      listening := None;
      events := [];
    }

    /** `start_server` (communication.py:23-42): the new socket is kept even
        when binding it fails; a successful bind sets the server running, and
        a failed one leaves `is_running` as it was, so a running server that
        fails to rebind stays running. */
    method StartServer(sock: Sock, bindOk: bool) returns (ok: bool)
      modifies this
      ensures ok == bindOk && listening == Some(sock)
      ensures isRunning == (bindOk || old(isRunning))
      ensures connected == old(connected) && handlers == old(handlers) && listeners == old(listeners) && events == old(events)
    {
      listening := Some(sock);
      if bindOk {
        isRunning := true;
        ok := true;
      } else {
        ok := false;
      }
    }

    /** `register_handler` (communication.py:145-147). */
    method RegisterHandler(tag: string, handler: HandlerId)
      modifies this
      ensures handlers == old(handlers)[tag := handler]
      ensures connected == old(connected) && listeners == old(listeners) && events == old(events)
      ensures isRunning == old(isRunning) && listening == old(listening)
    {
      handlers := handlers[tag := handler];
    }

    /** `add_listener` (communication.py:149-153). */
    method AddListener(eventName: string, listener: ListenerId)
      modifies this
      ensures listeners == Dispatch.AddListener(old(listeners), eventName, listener)
      ensures connected == old(connected) && handlers == old(handlers) && events == old(events)
      ensures isRunning == old(isRunning) && listening == old(listening)
    {
      listeners := listeners[eventName := ListenersFor(listeners, eventName) + [listener]];
    }

    /** `get_connected_teachers` (communication.py:155-157): every connected
        id once. The order of a Python dict is not modelled. */
    method GetConnectedTeachers() returns (ids: seq<Value>)
      ensures Enumerates(ids, connected.Keys)
      ensures |ids| == |connected|
    {
      ids := [];
      var remaining := connected.Keys;
      while remaining != {}
        invariant remaining <= connected.Keys
        invariant forall x :: x in ids <==> x in connected.Keys && x !in remaining
        invariant forall i, j :: 0 <= i < j < |ids| ==> ids[i] != ids[j]
        invariant |ids| + |remaining| == |connected.Keys|
        decreases |remaining|
      {
        var id :| id in remaining;
        ids := ids + [id];
        remaining := remaining - {id};
      }
    }

    /** `send_to_teacher` (communication.py:114-127): sends only to a
        connected id, and reports whether the send went through; a failed
        send leaves the registry as it is. An unhashable id raises on the
        membership test and is reported as a failure. */
    method SendToTeacher(teacherId: Value, message: Value, sendOk: bool) returns (ok: bool)
      modifies this
      ensures ok <==> Hashable(teacherId) && teacherId in old(connected) && sendOk
      ensures events == old(events) + (if ok then [Sent(old(connected)[teacherId], message)] else [])
      ensures connected == old(connected) && handlers == old(handlers) && listeners == old(listeners)
      ensures isRunning == old(isRunning) && listening == old(listening)
    {
      if Hashable(teacherId) && teacherId in connected {
        if sendOk {
          events := events + [Sent(connected[teacherId], message)];
          ok := true;
        } else {
          ok := false;
        }
      } else {
        ok := false;
      }
    }

    /** `broadcast_to_teachers` (communication.py:129-143): over a snapshot of
        the registry, one send per teacher; a teacher whose send fails (its id
        in `failing`) is dropped from the registry and not counted. `order`
        is the dict's iteration order, which the model leaves open. */
    method BroadcastToTeachers(message: Value, failing: set<Value>) returns (count: nat, ghost order: seq<Value>)
      modifies this
      ensures Enumerates(order, old(connected).Keys)
      ensures count == |old(connected).Keys - failing|
      ensures connected == old(connected) - failing
      ensures events == old(events) + Broadcasts(old(connected), order, failing, message)
      ensures handlers == old(handlers) && listeners == old(listeners)
      ensures isRunning == old(isRunning) && listening == old(listening)
    {
      var ids := GetConnectedTeachers();
      var sent;
      connected, sent, count := SendEach(connected, ids, failing, message);
      events := events + sent;
      order := ids;
    }

    /** `stop_server` (communication.py:159-171): closes the listening socket
        and every teacher's socket, and empties the registry. */
    method StopServer() returns (ghost order: seq<Value>)
      modifies this
      ensures !isRunning && connected == map[]
      ensures Enumerates(order, old(connected).Keys)
      ensures events == old(events) + (if listening.Some? then [Closed(listening.value)] else [])
                                    + ClosesAll(old(connected), order)
      ensures listening == old(listening) && handlers == old(handlers) && listeners == old(listeners)
    {
      isRunning := false;
      var log := events;
      if listening.Some? {
        log := log + [Closed(listening.value)];
      }
      var ids := GetConnectedTeachers();
      var closes := CloseEach(connected, ids);
      events := log + closes;
      connected := map[];
      order := ids;
    }

    /** The listener loop of communication.py:82-83 and 97-98, as evidently
        intended: every listener of `eventName`, in registration order. */
    method NotifyListeners(eventName: string, data: Value)
      modifies this
      ensures events == old(events) + Notify(listeners, eventName, data)
      ensures connected == old(connected) && handlers == old(handlers) && listeners == old(listeners)
      ensures isRunning == old(isRunning) && listening == old(listening)
    {
      var ls := ListenersFor(listeners, eventName);
      for k := 0 to |ls|
        invariant connected == old(connected) && handlers == old(handlers) && listeners == old(listeners)
        invariant isRunning == old(isRunning) && listening == old(listening)
        invariant events == old(events) + Notify(listeners, eventName, data)[..k]
      {
        assert Notify(listeners, eventName, data)[..k + 1] == Notify(listeners, eventName, data)[..k] + [ListenerCalled(ls[k], eventName, data)];
        events := events + [ListenerCalled(ls[k], eventName, data)];
      }
    }

    /** `_process_message` (communication.py:102-112): the handler for the
        message's tag, if one is registered, is called with the message and
        the session's teacher id; what it raises is swallowed. */
    method ProcessMessage(message: Value, teacherId: Value)
      modifies this
      ensures events == old(events) + (if message.VObj? then Dispatched(handlers, message.fields, teacherId) else [])
      ensures connected == old(connected) && handlers == old(handlers) && listeners == old(listeners)
      ensures isRunning == old(isRunning) && listening == old(listening)
    {
      if message.VObj? {
        var tag := Get(message.fields, "type", VStr("unknown"));
        if tag.VStr? && tag.s in handlers {
          events := events + [HandlerCalled(handlers[tag.s], message, teacherId)];
        }
      }
    }

    /** `_handle_teacher` (communication.py:63-100) for one connection whose
        socket delivers `chunks`, with the listener loops as intended. */
    method HandleTeacher(sock: Sock, chunks: seq<Chunk>)
      modifies this
      ensures var r := RunSession(handlers, listeners, sock, Session(old(connected), VNull, old(events)), chunks);
              connected == r.registry && events == r.events
      ensures handlers == old(handlers) && listeners == old(listeners)
      ensures isRunning == old(isRunning) && listening == old(listening)
    {
      var teacherId := VNull;
      var i := 0;
      var going := true;
      ghost var full := RunSession(handlers, listeners, sock, Session(connected, VNull, events), chunks);
      while going && i < |chunks|
        invariant 0 <= i <= |chunks|
        invariant full == if going then Run(handlers, listeners, sock, Session(connected, teacherId, events), chunks[i..], false)
                          else Teardown(listeners, sock, Session(connected, teacherId, events), false)
        invariant handlers == old(handlers) && listeners == old(listeners)
        invariant isRunning == old(isRunning) && listening == old(listening)
        decreases if going then |chunks| - i + 1 else 0
      {
        assert chunks[i..][0] == chunks[i] && chunks[i..][1..] == chunks[i + 1..];
        teacherId, going := ReceiveChunk(sock, chunks[i], teacherId);
        if going {
          i := i + 1;
        }
      }
      CloseSession(sock, teacherId);
    }

    /** One pass of the receive loop of communication.py:68-90. */
    method ReceiveChunk(sock: Sock, c: Chunk, teacherId: Value) returns (newId: Value, going: bool)
      modifies this
      ensures (Session(connected, newId, events), going) ==
              Step(handlers, listeners, sock, Session(old(connected), teacherId, old(events)), c, false)
      ensures handlers == old(handlers) && listeners == old(listeners)
      ensures isRunning == old(isRunning) && listening == old(listening)
    {
      newId := teacherId;
      going := true;
      match c
      case EmptyRead =>
        going := false;
      case Undecodable =>
        going := false;
      case Decoded(message, freshId) =>
        if !message.VObj? {
          going := false;
        } else if Get(message.fields, "type", VNull) == VStr(TEACHER_CONNECT) {
          newId := Get(message.fields, "teacher_id", VStr(freshId));
          if !Hashable(newId) {
            going := false;
          } else {
            connected := connected[newId := sock];
            NotifyListeners(CONNECTED_EVENT, ConnectedData(newId, message));
          }
        } else {
          ProcessMessage(message, teacherId);
        }
    }

    /** The `finally` of communication.py:91-100. */
    method CloseSession(sock: Sock, teacherId: Value)
      modifies this
      ensures Session(connected, teacherId, events) ==
              Teardown(listeners, sock, Session(old(connected), teacherId, old(events)), false)
      ensures handlers == old(handlers) && listeners == old(listeners)
      ensures isRunning == old(isRunning) && listening == old(listening)
    {
      if Truthy(teacherId) {
        if !Hashable(teacherId) {
          return;
        }
        connected := connected - {teacherId};
        NotifyListeners(DISCONNECTED_EVENT, DisconnectedData(teacherId));
      }
      events := events + [Closed(sock)];
    }
  }
}
