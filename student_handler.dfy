/** `handle_homework_request` of student/student_gui.py (lines 171-225):
    the handler the student registers for `homework_request`. It picks the
    stored homeworks a requesting teacher may see, turns each into a
    response entry, and answers with exactly one `homework_response`. The
    student's selected class and name, tkinter variables in the source, are
    parameters. */
module StudentHandler {
  import opened Values
  import opened Messages
  import opened Dispatch
  import opened Store
  import Server

  /** The "all classes" / "all subjects" choice of the GUI. */
  const ALL := "全部"

  /** The request's class, subject and note, each defaulting to ''
      (student_gui.py:173-175). */
  function RequestClass(request: map<string, Value>): Value { Get(request, "class", VStr("")) }
  function RequestSubject(request: map<string, Value>): Value { Get(request, "subject", VStr("")) }
  function RequestNote(request: map<string, Value>): Value { Get(request, "message", VStr("")) }

  /** A request is served when it names the student's class or all classes
      (student_gui.py:184). */
  predicate Serves(className: Value, studentClass: string) {
    className == VStr(studentClass) || className == VStr(ALL)
  }

  /** The subject filter handed to `get_homeworks`: none for "全部"
      (student_gui.py:188). */
  function SubjectFilter(subject: Value): (r: Value)
    ensures subject == VStr(ALL) ==> !Truthy(r)
    ensures subject != VStr(ALL) ==> r == subject
  {
    if subject != VStr(ALL) then subject else VNull
  }

  /** The stored homeworks a request is answered with, in the order sent. */
  function Matched(hws: seq<Homework>, request: map<string, Value>, studentClass: string): seq<Homework> {
    if Serves(RequestClass(request), studentClass)
    then HomeworksView(hws, VStr(studentClass), SubjectFilter(RequestSubject(request)))
    else []
  }

  /** The response entry for one stored homework (student_gui.py:193-202):
      its fields copied, `student` set to the student's name. */
  function Entry(h: Homework, studentName: string): (r: Value)
    ensures r.VObj? && r.fields.Keys == {"id", "class", "subject", "content", "teacher", "student", "timestamp", "status"}
    ensures r.fields["id"] == VInt(h.id) && r.fields["class"] == VStr(h.className)
    ensures r.fields["subject"] == VStr(h.subject) && r.fields["content"] == VStr(h.content)
    ensures r.fields["teacher"] == VStr(h.teacher) && r.fields["student"] == VStr(studentName)
    ensures r.fields["timestamp"] == VStr(h.timestamp) && r.fields["status"] == VStr(h.status)
  {
    VObj(map["id" := VInt(h.id), "class" := VStr(h.className), "subject" := VStr(h.subject),
             "content" := VStr(h.content), "teacher" := VStr(h.teacher), "student" := VStr(studentName),
             "timestamp" := VStr(h.timestamp), "status" := VStr(h.status)])
  }

  function Entries(hws: seq<Homework>, studentName: string): (r: seq<Value>)
    ensures |r| == |hws|
    ensures forall k :: 0 <= k < |hws| ==> r[k] == Entry(hws[k], studentName)
  {
    seq(|hws|, k requires 0 <= k < |hws| => Entry(hws[k], studentName))
  }

  /** The `homework` payload of the answer (student_gui.py:208-213, 217-222). */
  function Payload(studentClass: string, studentName: string, entries: seq<Value>, note: Value): (r: Value)
    ensures r.VObj? && r.fields.Keys == {"student_class", "student_name", "homeworks", "teacher_message"}
    ensures r.fields["student_class"] == VStr(studentClass) && r.fields["student_name"] == VStr(studentName)
    ensures r.fields["homeworks"] == VList(entries) && r.fields["teacher_message"] == note
  {
    VObj(map["student_class" := VStr(studentClass), "student_name" := VStr(studentName),
             "homeworks" := VList(entries), "teacher_message" := note])
  }

  /** The one envelope the handler sends, empty list or not. */
  function Response(hws: seq<Homework>, request: map<string, Value>, studentClass: string, studentName: string,
                    ts: string): Value {
    HomeworkResponse(Payload(studentClass, studentName, Entries(Matched(hws, request, studentClass), studentName),
                             RequestNote(request)), ts)
  }

  /** Entries identify their homework: nothing of it is lost. */
  lemma EntryInjective(h1: Homework, h2: Homework, studentName: string)
    ensures Entry(h1, studentName) == Entry(h2, studentName) ==> h1 == h2
  {
    if Entry(h1, studentName) == Entry(h2, studentName) {
      assert Entry(h1, studentName).fields["id"] == Entry(h2, studentName).fields["id"];
      assert Entry(h1, studentName).fields["class"] == Entry(h2, studentName).fields["class"];
      assert Entry(h1, studentName).fields["subject"] == Entry(h2, studentName).fields["subject"];
      assert Entry(h1, studentName).fields["content"] == Entry(h2, studentName).fields["content"];
      assert Entry(h1, studentName).fields["teacher"] == Entry(h2, studentName).fields["teacher"];
      assert Entry(h1, studentName).fields["timestamp"] == Entry(h2, studentName).fields["timestamp"];
      assert Entry(h1, studentName).fields["status"] == Entry(h2, studentName).fields["status"];
    }
  }

  /** A served request gets exactly the stored homeworks of the student's
      class (every class when the student has none selected) and of the
      requested subject (every subject for "全部" or ''), newest first; any
      other request gets none (student_gui.py:184-204). */
  lemma MatchedSpec(hws: seq<Homework>, request: map<string, Value>, studentClass: string)
    ensures Serves(RequestClass(request), studentClass) ==>
            forall h :: h in Matched(hws, request, studentClass) <==>
              && h in hws
              && (studentClass == "" || h.className == studentClass)
              && (!Truthy(SubjectFilter(RequestSubject(request))) || VStr(h.subject) == RequestSubject(request))
    ensures Serves(RequestClass(request), studentClass) ==>
            multiset(Matched(hws, request, studentClass)) ==
            multiset(FilterHomeworks(hws, VStr(studentClass), SubjectFilter(RequestSubject(request))))
    ensures SortedDesc(Matched(hws, request, studentClass), HomeworkTime)
    ensures !Serves(RequestClass(request), studentClass) ==> Matched(hws, request, studentClass) == []
  {
    if Serves(RequestClass(request), studentClass) {
      var subject := SubjectFilter(RequestSubject(request));
      assert Matched(hws, request, studentClass) == HomeworksView(hws, VStr(studentClass), subject);
      HomeworksViewSpec(hws, VStr(studentClass), subject);
      forall h ensures HomeworkMatches(h, VStr(studentClass), subject) <==>
                       (studentClass == "" || h.className == studentClass)
                       && (!Truthy(subject) || VStr(h.subject) == RequestSubject(request)) {
      }
    }
  }

  /** Matched homeworks that share a timestamp are answered in the order
      they are stored. */
  lemma MatchedStable(hws: seq<Homework>, request: map<string, Value>, studentClass: string, t: string)
    ensures Serves(RequestClass(request), studentClass) ==>
            Filter(Matched(hws, request, studentClass), KeyIs(HomeworkTime, t)) ==
            Filter(FilterHomeworks(hws, VStr(studentClass), SubjectFilter(RequestSubject(request))), KeyIs(HomeworkTime, t))
  {
    HomeworksViewStable(hws, VStr(studentClass), SubjectFilter(RequestSubject(request)), t);
  }

  /** Asking for "全部" classes is asking for the student's own class. */
  lemma AllClassesIsOwnClass(hws: seq<Homework>, request: map<string, Value>, studentClass: string)
    ensures Matched(hws, request["class" := VStr(ALL)], studentClass) ==
            Matched(hws, request["class" := VStr(studentClass)], studentClass)
  {
    assert RequestSubject(request["class" := VStr(ALL)]) == RequestSubject(request);
    assert RequestSubject(request["class" := VStr(studentClass)]) == RequestSubject(request);
  }

  /** The response lists an entry for a homework exactly when that homework
      is matched, and carries the request's note back. */
  lemma ResponseListsMatched(hws: seq<Homework>, request: map<string, Value>, studentClass: string,
                             studentName: string, ts: string, h: Homework)
    ensures var p := Response(hws, request, studentClass, studentName, ts).fields["homework"];
            && p.fields["homeworks"].VList?
            && (Entry(h, studentName) in p.fields["homeworks"].items <==> h in Matched(hws, request, studentClass))
            && p.fields["teacher_message"] == RequestNote(request)
            && p.fields["student_name"] == VStr(studentName)
  {
    var m := Matched(hws, request, studentClass);
    var es := Entries(m, studentName);
    if Entry(h, studentName) in es {
      var k :| 0 <= k < |es| && es[k] == Entry(h, studentName);
      EntryInjective(m[k], h, studentName);
    }
    if h in m {
      var k :| 0 <= k < |m| && m[k] == h;
      assert es[k] == Entry(h, studentName);
    }
  }

  /** The loop of student_gui.py:192-204: one entry per homework, in order. */
  method BuildEntries(homeworks: seq<Homework>, studentName: string) returns (matched: seq<Value>)
    ensures matched == Entries(homeworks, studentName)
  {
    matched := [];
    for k := 0 to |homeworks|
      invariant matched == Entries(homeworks[..k], studentName)
    {
      matched := matched + [Entry(homeworks[k], studentName)];
    }
    assert homeworks[..|homeworks|] == homeworks;
  }

  /** The lookup of student_gui.py:173-190: `get_homeworks` is called only
      for a served request, and then sorts the stored list in place when the
      student has no class selected and no subject filter applies. */
  method LookUp(store: DataManager, request: map<string, Value>, studentClass: string)
    returns (homeworks: seq<Homework>)
    modifies store
    ensures homeworks == Matched(old(store.data.homeworks), request, studentClass)
    ensures store.data == if Serves(RequestClass(request), studentClass) && studentClass == ""
                             && !Truthy(SubjectFilter(RequestSubject(request)))
                          then old(store.data).(homeworks := homeworks)
                          else old(store.data)
    ensures store.saves == old(store.saves)
  {
    var className := Get(request, "class", VStr(""));
    var subject := Get(request, "subject", VStr(""));
    homeworks := [];
    if className == VStr(studentClass) || className == VStr(ALL) {
      homeworks := store.GetHomeworks(VStr(studentClass), if subject != VStr(ALL) then subject else VNull);
    }
  }

  /** `handle_homework_request(message, client_socket, teacher_id)`
      (student_gui.py:171-225): the lookup above, then one response sent to
      `teacher_id`, whatever was matched. */
  method HandleHomeworkRequest(server: Server.StudentServer, store: DataManager, request: map<string, Value>,
                               teacherId: Value, studentClass: string, studentName: string, ts: string,
                               sendOk: bool)
    returns (response: Value, sent: bool)
    modifies server, store
    ensures response == Response(old(store.data.homeworks), request, studentClass, studentName, ts)
    ensures sent <==> Hashable(teacherId) && teacherId in old(server.connected) && sendOk
    ensures server.events == old(server.events) + (if sent then [Sent(old(server.connected)[teacherId], response)] else [])
    ensures server.connected == old(server.connected) && server.handlers == old(server.handlers)
    ensures server.listeners == old(server.listeners)
    ensures server.isRunning == old(server.isRunning) && server.listening == old(server.listening)
    ensures store.data == if Serves(RequestClass(request), studentClass) && studentClass == ""
                             && !Truthy(SubjectFilter(RequestSubject(request)))
                          then old(store.data).(homeworks := Matched(old(store.data.homeworks), request, studentClass))
                          else old(store.data)
    ensures store.saves == old(store.saves)
  {
    var note := Get(request, "message", VStr(""));
    var homeworks := LookUp(store, request, studentClass);
    var matched := BuildEntries(homeworks, studentName);
    response := HomeworkResponse(Payload(studentClass, studentName, matched, note), ts);
    sent := server.SendToTeacher(teacherId, response, sendOk);
  }
}
