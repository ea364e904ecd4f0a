/** The logic of the teacher window (teacher/teacher_gui.py) that is not
    layout: the checks before connecting and before sending a homework, the
    handlers for the responses a student sends back, the 50-character
    truncation of the homework lists, and the subnet scan of the automatic
    server search. Entry fields are parameters holding the text they
    contain; the widgets they fill are values. */
module TeacherGui {
  import opened Values
  import opened Text
  import opened Messages
  import opened Dispatch
  import opened Store
  import Client
  import StudentHandler

  /* ---------- connecting ---------- */

  const MIN_PORT := 1024
  const MAX_PORT := 65535

  /** What pressing "connect" leads to: an error dialog, the (never started)
      automatic search, or a connection attempt with these arguments. */
  datatype ConnectOutcome =
    | NameMissing
    | IpMissing
    | PortNotNumeric
    | PortOutOfRange
    | Searching
    | Attempt(ip: string, port: nat, teacherName: string)

  /** `manual_connect(server_ip=None)` up to the connection thread
      (teacher_gui.py:446-464). An IP handed in by the server selection
      dialog is used as it is; otherwise the IP field is stripped and must
      not be empty. The name is stripped but not checked here. The port
      field, stripped, must be ASCII digits with a value in 1024..65535. */
  function ManualConnect(serverIp: Option<string>, ipField: string, nameField: string, portField: string)
    : (r: ConnectOutcome)
    ensures !r.NameMissing? && !r.Searching?
    ensures r.IpMissing? <==> serverIp.None? && Strip(ipField) == ""
    ensures r.PortNotNumeric? <==> (serverIp.Some? || Strip(ipField) != "") && !IsDigits(Strip(portField))
    ensures r.Attempt? <==>
              && (serverIp.Some? || Strip(ipField) != "")
              && IsDigits(Strip(portField)) && MIN_PORT <= DecimalValue(Strip(portField)) <= MAX_PORT
    ensures r.Attempt? ==>
              && r.ip == (if serverIp.Some? then serverIp.value else Strip(ipField))
              && r.port == DecimalValue(Strip(portField)) && r.teacherName == Strip(nameField)
  {
    var ip := if serverIp.Some? then serverIp.value else Strip(ipField);
    if serverIp.None? && ip == "" then IpMissing
    else
      var portText := Strip(portField);
      if !IsDigits(portText) then PortNotNumeric
      else
        var port := DecimalValue(portText);
        if port < MIN_PORT || port > MAX_PORT then PortOutOfRange
        else Attempt(ip, port, Strip(nameField))
  }

  /** `connect_to_server` (teacher_gui.py:314-326): a blank teacher name is
      refused first; then the automatic search or the manual connect. */
  function ConnectToServer(nameField: string, autoSearch: bool, ipField: string, portField: string)
    : (r: ConnectOutcome)
    ensures r.NameMissing? <==> Strip(nameField) == ""
    ensures r.Searching? <==> Strip(nameField) != "" && autoSearch
    ensures Strip(nameField) != "" && !autoSearch ==> r == ManualConnect(None, ipField, nameField, portField)
  {
    if Strip(nameField) == "" then NameMissing
    else if autoSearch then Searching
    else ManualConnect(None, ipField, nameField, portField)
  }

  /** A connection is attempted from the connect button exactly when the
      name and IP are not blank, the automatic search is off and the port is
      a valid number; the attempt then carries a non-blank name and IP. */
  lemma ConnectAttemptSpec(nameField: string, autoSearch: bool, ipField: string, portField: string)
    ensures var r := ConnectToServer(nameField, autoSearch, ipField, portField);
            && (r.Attempt? <==>
                  && Strip(nameField) != "" && !autoSearch && Strip(ipField) != ""
                  && IsDigits(Strip(portField)) && MIN_PORT <= DecimalValue(Strip(portField)) <= MAX_PORT)
            && (r.Attempt? ==> r.teacherName != "" && r.ip != "")
  {
  }

  lemma DigitsUnspaced(s: string)
    requires IsDigits(s)
    ensures Strip(s) == s
  {
    assert IsDigit(s[0]) && IsDigit(s[|s| - 1]);
    StripUnspaced(s);
  }

  /** Every port in range, written in decimal, is accepted as itself, and
      every other number is refused as out of range. */
  lemma PortRoundTrip(ip: string, ipField: string, nameField: string, port: nat)
    ensures MIN_PORT <= port <= MAX_PORT ==>
            ManualConnect(Some(ip), ipField, nameField, NatToString(port)) == Attempt(ip, port, Strip(nameField))
    ensures !(MIN_PORT <= port <= MAX_PORT) ==>
            ManualConnect(Some(ip), ipField, nameField, NatToString(port)) == PortOutOfRange
  {
    DigitsUnspaced(NatToString(port));
    DecimalRoundTrip(port);
  }

  /* ---------- sending a homework ---------- */

  /** The error dialogs of `send_homework`, in the order they are checked. */
  datatype SendRejection = NotConnected | NoSubject | NoClass | NoContent

  /** The checks of `send_homework` (teacher_gui.py:509-527): connected,
      then a subject, then a class, then content that is not blank. */
  function ValidateSend(connected: bool, subject: string, className: string, contentField: string)
    : (r: Option<SendRejection>)
    ensures r.None? <==> connected && subject != "" && className != "" && Strip(contentField) != ""
    ensures !connected ==> r == Some(NotConnected)
    ensures connected && subject == "" ==> r == Some(NoSubject)
    ensures connected && subject != "" && className == "" ==> r == Some(NoClass)
    ensures connected && subject != "" && className != "" && Strip(contentField) == "" ==> r == Some(NoContent)
  {
    if !connected then Some(NotConnected)
    else if subject == "" then Some(NoSubject)
    else if className == "" then Some(NoClass)
    else if Strip(contentField) == "" then Some(NoContent)
    else None
  }

  /** How `send_homework` ends: refused with a dialog, raising after the
      homework was stored, or with the message handed to the client. */
  datatype SendOutcome =
    | Rejected(reason: SendRejection)
    | Raised(stored: Homework)
    | Delivered(stored: Homework, message: Value, sent: bool)

  const TEACHER_SENDER := "老师发送"
  const PUBLISHED := "已发布"

  /** The message lines 545-557 evidently mean to build: the one-parameter
      `homework_response` of communication.py:321 given the dict the
      keyword arguments spell out. */
  function IntendedHomeworkMessage(subject: string, className: string, content: string, teacher: string,
                                   stamp: string, ts: string): (r: Value)
    ensures IsEnvelope(r, HOMEWORK_RESPONSE, ts) && r.fields.Keys == {"type", "homework", "timestamp"}
    ensures var p := r.fields["homework"];
            && p.VObj? && p.fields.Keys == {"student_name", "student_class", "homeworks", "teacher_message"}
            && p.fields["student_class"] == VStr(className) && p.fields["student_name"] == VStr(TEACHER_SENDER)
            && p.fields["teacher_message"] == VStr("老师 " + teacher + " 向 " + className + " 发布了作业")
  {
    HomeworkResponse(
      VObj(map["student_name" := VStr(TEACHER_SENDER), "student_class" := VStr(className),
               "homeworks" := VList([VObj(map["subject" := VStr(subject), "content" := VStr(content),
                                              "teacher" := VStr(teacher), "timestamp" := VStr(stamp),
                                              "status" := VStr(PUBLISHED)])]),
               "teacher_message" := VStr("老师 " + teacher + " 向 " + className + " 发布了作业")]),
      ts)
  }

  /** `send_homework` as written (teacher_gui.py:509-545). A refused send
      stores nothing. An accepted one stores the homework (overwriting the
      one of the same subject and class) and then raises: line 545 passes
      keyword arguments to a one-parameter function, a TypeError that the
      `except ImportError` does not catch. Nothing is sent, the text is not
      cleared and no success dialog appears. */
  method SendHomeworkAsWritten(store: DataManager, connected: bool, subject: string, className: string,
                               contentField: string, teacherField: string, now: string)
    returns (outcome: SendOutcome)
    modifies store
    ensures ValidateSend(connected, subject, className, contentField).Some? ==>
            && outcome == Rejected(ValidateSend(connected, subject, className, contentField).value)
            && store.data == old(store.data) && store.saves == old(store.saves)
    ensures ValidateSend(connected, subject, className, contentField).None? ==>
            var a := AddHomeworkSpec(old(store.data.homeworks), subject, Strip(contentField), className,
                                     Strip(teacherField), true, now, ACTIVE);
            && outcome == Raised(a.homework)
            && store.data == old(store.data).(homeworks := a.homeworks) && store.saves == old(store.saves) + 1
  {
    var rejection := ValidateSend(connected, subject, className, contentField);
    if rejection.Some? {
      return Rejected(rejection.value);
    }
    var homework := store.AddHomework(subject, Strip(contentField), className, Some(Strip(teacherField)),
                                      true, None, None, now);
    outcome := Raised(homework);
  }

  /** `send_homework` with line 545 corrected: after storing, the homework
      goes out through the client as `IntendedHomeworkMessage`, stamped with
      the stored homework's timestamp. The client sends only while it is
      connected. */
  method SendHomework(store: DataManager, client: Client.TeacherClient, connected: bool, subject: string,
                      className: string, contentField: string, teacherField: string, now: string, ts: string,
                      sendOk: bool)
    returns (outcome: SendOutcome)
    modifies store, client
    ensures ValidateSend(connected, subject, className, contentField).Some? ==>
            && outcome == Rejected(ValidateSend(connected, subject, className, contentField).value)
            && store.data == old(store.data) && store.saves == old(store.saves)
            && client.events == old(client.events)
    ensures ValidateSend(connected, subject, className, contentField).None? ==>
            var a := AddHomeworkSpec(old(store.data.homeworks), subject, Strip(contentField), className,
                                     Strip(teacherField), true, now, ACTIVE);
            var message := IntendedHomeworkMessage(subject, className, Strip(contentField), Strip(teacherField),
                                                   a.homework.timestamp, ts);
            var sent := old(client.isConnected) && old(client.sock).Some? && sendOk;
            && outcome == Delivered(a.homework, message, sent)
            && store.data == old(store.data).(homeworks := a.homeworks) && store.saves == old(store.saves) + 1
            && client.events == old(client.events) + (if sent then [Sent(old(client.sock).value, message)] else [])
    ensures client.sock == old(client.sock) && client.isConnected == old(client.isConnected)
    ensures client.handlers == old(client.handlers)
  {
    var rejection := ValidateSend(connected, subject, className, contentField);
    if rejection.Some? {
      return Rejected(rejection.value);
    }
    outcome := Publish(store, client, subject, className, Strip(contentField), Strip(teacherField), now, ts, sendOk);
  }

  /** The accepted path of the corrected `send_homework`
      (teacher_gui.py:530-594): store, then send. */
  method Publish(store: DataManager, client: Client.TeacherClient, subject: string, className: string,
                 content: string, teacher: string, now: string, ts: string, sendOk: bool)
    returns (outcome: SendOutcome)
    modifies store, client
    ensures var a := AddHomeworkSpec(old(store.data.homeworks), subject, content, className, teacher, true, now, ACTIVE);
            var message := IntendedHomeworkMessage(subject, className, content, teacher, a.homework.timestamp, ts);
            var sent := old(client.isConnected) && old(client.sock).Some? && sendOk;
            && outcome == Delivered(a.homework, message, sent)
            && store.data == old(store.data).(homeworks := a.homeworks) && store.saves == old(store.saves) + 1
            && client.events == old(client.events) + (if sent then [Sent(old(client.sock).value, message)] else [])
    ensures client.sock == old(client.sock) && client.isConnected == old(client.isConnected)
    ensures client.handlers == old(client.handlers)
  {
    var homework := store.AddHomework(subject, content, className, Some(teacher), true, None, None, now);
    var message := IntendedHomeworkMessage(subject, className, content, teacher, homework.timestamp, ts);
    var sent := client.SendMessage(message, sendOk);
    outcome := Delivered(homework, message, sent);
  }

  /* ---------- homework responses ---------- */

  /** The dict handed to `display_received_homework`. */
  datatype Record = Record(student: Value, className: Value, subject: Value, content: Value, teacher: Value,
                           timestamp: Value, status: Value)

  /** The records a handler call displays, and whether it raised (the
      client swallows the exception; records scheduled before it stay). */
  datatype Shown = Shown(records: seq<Record>, raised: bool)

  const DEFAULT_STATUS := "已完成"
  const JUST_NOW := "刚刚"

  /** The record for one item of the new format (teacher_gui.py:250-258). */
  function ItemRecord(item: map<string, Value>, studentName: Value, studentClass: Value): Record {
    Record(studentName, studentClass, Get(item, "subject", VStr("")), Get(item, "content", VStr("")),
           Get(item, "teacher", VStr("")), Get(item, "timestamp", VStr("")),
           Get(item, "status", VStr(DEFAULT_STATUS)))
  }

  /** The loop of teacher_gui.py:249-258 over a list: one record per item up
      to the first item that is not a dict, whose `.get` raises. */
  function ItemRecords(items: seq<Value>, studentName: Value, studentClass: Value): (r: Shown)
    ensures |r.records| <= |items|
    ensures forall k :: 0 <= k < |r.records| ==>
              items[k].VObj? && r.records[k] == ItemRecord(items[k].fields, studentName, studentClass)
    ensures !r.raised ==> |r.records| == |items|
    ensures r.raised ==> |r.records| < |items| && !items[|r.records|].VObj?
  {
    if items == [] then Shown([], false)
    else if !items[0].VObj? then Shown([], true)
    else
      var rest := ItemRecords(items[1..], studentName, studentClass);
      Shown([ItemRecord(items[0].fields, studentName, studentClass)] + rest.records, rest.raised)
  }

  /** The new format (teacher_gui.py:239-258). `len(homeworks)` raises on a
      value without a length; iterating a non-empty string or dict yields
      strings, whose `.get` raises; empty ones display nothing. */
  function NewFormat(payload: map<string, Value>): (r: Shown)
    ensures forall k :: 0 <= k < |r.records| ==>
              r.records[k].student == Get(payload, "student_name", VStr(""))
              && r.records[k].className == Get(payload, "student_class", VStr(""))
  {
    var studentClass := Get(payload, "student_class", VStr(""));
    var studentName := Get(payload, "student_name", VStr(""));
    match Get(payload, "homeworks", VList([]))
    case VList(items) => ItemRecords(items, studentName, studentClass)
    case VStr(s) => Shown([], s != "")
    case VObj(m) => Shown([], m != map[])
    case _ => Shown([], true)
  }

  /** The old format (teacher_gui.py:259-275): exactly one record. */
  function OldFormat(payload: map<string, Value>): Record {
    Record(Get(payload, "student", VStr("Unknown")), Get(payload, "class", VStr("")),
           Get(payload, "subject", VStr("")), Get(payload, "content", VStr("")),
           Get(payload, "teacher", VStr("")), VStr(JUST_NOW), VStr(DEFAULT_STATUS))
  }

  /** What `handle_homework_response(data)` displays (teacher_gui.py:234-275).
      A `homework` that is not a dict always raises before displaying
      anything: `in` raises on a number, null or boolean, and on a string
      or list it succeeds but the `.get` after it raises. */
  function ResponseRecords(data: map<string, Value>): (r: Shown)
    ensures !Get(data, "homework", EmptyObj).VObj? ==> r == Shown([], true)
  {
    match Get(data, "homework", EmptyObj)
    case VObj(payload) =>
      if "student_class" in payload then NewFormat(payload) else Shown([OldFormat(payload)], false)
    case _ => Shown([], true)
  }

  /** A response in the new format shows one record per listed homework, in
      order, with status '已完成' where the item gives none; nothing raises
      when every item is a dict. */
  lemma NewFormatOneRecordPerItem(data: map<string, Value>, items: seq<Value>)
    requires "homework" in data && data["homework"].VObj? && "student_class" in data["homework"].fields
    requires Get(data["homework"].fields, "homeworks", VList([])) == VList(items)
    requires forall k :: 0 <= k < |items| ==> items[k].VObj?
    ensures var r := ResponseRecords(data); var p := data["homework"].fields;
            && !r.raised && |r.records| == |items|
            && forall k :: 0 <= k < |items| ==>
                 && r.records[k] == ItemRecord(items[k].fields, Get(p, "student_name", VStr("")), p["student_class"])
                 && ("status" !in items[k].fields ==> r.records[k].status == VStr(DEFAULT_STATUS))
  {
  }

  /** A response in the old format shows exactly one record, timestamped
      '刚刚', status '已完成', from 'Unknown' when no student is named. */
  lemma OldFormatOneRecord(data: map<string, Value>)
    requires "homework" in data && data["homework"].VObj? && "student_class" !in data["homework"].fields
    ensures var r := ResponseRecords(data); var p := data["homework"].fields;
            && r == Shown([OldFormat(p)], false)
            && r.records[0].timestamp == VStr(JUST_NOW) && r.records[0].status == VStr(DEFAULT_STATUS)
            && r.records[0].student == (if "student" in p then p["student"] else VStr("Unknown"))
  {
  }

  /** `ItemRecords` is the only result of its shape: records for a prefix
      of dicts, raising exactly at the first item that is not one. */
  lemma ItemRecordsUnique(items: seq<Value>, studentName: Value, studentClass: Value, r: Shown)
    requires |r.records| <= |items|
    requires forall k :: 0 <= k < |r.records| ==>
               items[k].VObj? && r.records[k] == ItemRecord(items[k].fields, studentName, studentClass)
    requires !r.raised ==> |r.records| == |items|
    requires r.raised ==> |r.records| < |items| && !items[|r.records|].VObj?
    ensures r == ItemRecords(items, studentName, studentClass)
  {
    var s := ItemRecords(items, studentName, studentClass);
    assert |r.records| == |s.records|;
    assert r.records == s.records;
  }

  /** The loop of teacher_gui.py:249-258: one display call per item,
      stopping at the first item whose `.get` raises. */
  method CollectItems(items: seq<Value>, studentName: Value, studentClass: Value)
    returns (records: seq<Record>, raised: bool)
    ensures Shown(records, raised) == ItemRecords(items, studentName, studentClass)
  {
    records := [];
    raised := false;
    var i := 0;
    while i < |items| && !raised
      invariant 0 <= i <= |items| && |records| == i
      invariant forall k :: 0 <= k < i ==>
                  items[k].VObj? && records[k] == ItemRecord(items[k].fields, studentName, studentClass)
      invariant raised ==> i < |items| && !items[i].VObj?
      decreases |items| - i, if raised then 0 else 1
    {
      if items[i].VObj? {
        records := records + [ItemRecord(items[i].fields, studentName, studentClass)];
        i := i + 1;
      } else {
        raised := true;
      }
    }
    ItemRecordsUnique(items, studentName, studentClass, Shown(records, raised));
  }

  /** `handle_homework_response` itself: the loop over `homeworks` records
      one display call per item and stops where an exception is raised. */
  method HandleHomeworkResponse(data: map<string, Value>) returns (records: seq<Record>, raised: bool)
    ensures Shown(records, raised) == ResponseRecords(data)
  {
    records := [];
    raised := false;
    var homeworkData := Get(data, "homework", EmptyObj);
    if !homeworkData.VObj? {
      raised := true;
      return;
    }
    var payload := homeworkData.fields;
    if "student_class" !in payload {
      records := [OldFormat(payload)];
      return;
    }
    var studentClass := Get(payload, "student_class", VStr(""));
    var studentName := Get(payload, "student_name", VStr(""));
    var homeworks := Get(payload, "homeworks", VList([]));
    match homeworks {
      case VList(items) =>
        records, raised := CollectItems(items, studentName, studentClass);
      case VStr(s) =>
        raised := s != "";
      case VObj(m) =>
        raised := m != map[];
      case _ =>
        raised := true;
    }
  }

  /** The record a homework answered by a student shows. */
  function StudentRecord(h: Homework, studentName: string, studentClass: string): Record {
    Record(VStr(studentName), VStr(studentClass), VStr(h.subject), VStr(h.content), VStr(h.teacher),
           VStr(h.timestamp), VStr(h.status))
  }

  /** The answer of the student's `handle_homework_request` shows, without
      raising, one record per matched homework, in the order sent, carrying
      the student's name and class and the homework's own fields. */
  lemma StudentResponseShown(hws: seq<Homework>, request: map<string, Value>, studentClass: string,
                             studentName: string, ts: string)
    ensures var m := StudentHandler.Matched(hws, request, studentClass);
            var r := ResponseRecords(StudentHandler.Response(hws, request, studentClass, studentName, ts).fields);
            && !r.raised && |r.records| == |m|
            && forall k :: 0 <= k < |m| ==> r.records[k] == StudentRecord(m[k], studentName, studentClass)
  {
    var m := StudentHandler.Matched(hws, request, studentClass);
    var es := StudentHandler.Entries(m, studentName);
    var payload := StudentHandler.Payload(studentClass, studentName, es, StudentHandler.RequestNote(request));
    assert StudentHandler.Response(hws, request, studentClass, studentName, ts).fields["homework"] == payload;
    assert NewFormat(payload.fields) == ItemRecords(es, VStr(studentName), VStr(studentClass));
    forall k | 0 <= k < |m|
      ensures ItemRecord(es[k].fields, VStr(studentName), VStr(studentClass)) == StudentRecord(m[k], studentName, studentClass)
    {
      assert es[k] == StudentHandler.Entry(m[k], studentName);
    }
  }

  /** The corrected teacher message shows as exactly one published record
      from "老师发送" for the class. */
  lemma IntendedHomeworkShown(subject: string, className: string, content: string, teacher: string,
                              stamp: string, ts: string)
    ensures ResponseRecords(IntendedHomeworkMessage(subject, className, content, teacher, stamp, ts).fields) ==
            Shown([Record(VStr(TEACHER_SENDER), VStr(className), VStr(subject), VStr(content), VStr(teacher),
                          VStr(stamp), VStr(PUBLISHED))], false)
  {
    var p := IntendedHomeworkMessage(subject, className, content, teacher, stamp, ts).fields["homework"].fields;
    var item := VObj(map["subject" := VStr(subject), "content" := VStr(content), "teacher" := VStr(teacher),
                         "timestamp" := VStr(stamp), "status" := VStr(PUBLISHED)]);
    assert p["homeworks"] == VList([item]);
    assert ItemRecords([item], VStr(TEACHER_SENDER), VStr(className)).records ==
           [ItemRecord(item.fields, VStr(TEACHER_SENDER), VStr(className))];
  }

  /** The student registers a handler for `homework_request` only
      (student/student_gui.py:228), so the corrected message reaches no
      handler there either. */
  lemma StudentIgnoresTeacherHomework(h: HandlerId, subject: string, className: string, content: string,
                                      teacher: string, stamp: string, ts: string)
    ensures HandlerFor(map[HOMEWORK_REQUEST := h],
                       IntendedHomeworkMessage(subject, className, content, teacher, stamp, ts).fields) == None
  {
    assert TypeTag(IntendedHomeworkMessage(subject, className, content, teacher, stamp, ts).fields)
           == VStr(HOMEWORK_RESPONSE);
  }

  /* ---------- class list responses ---------- */

  /** The class combo box: its `values` and its current selection. */
  datatype Combo = Combo(values: Value, selection: Value)

  datatype ClassListResult = ClassListResult(combo: Combo, reloaded: bool)

  /** `handle_class_list_response(data)` (teacher_gui.py:294-305). A falsy
      `classes` (default `[]`) changes nothing. Otherwise the values are
      set; a list then selects its first item and a string its first
      character, and the homework list is reloaded; for any other value
      `classes[0]` raises after the values were set, which the handler
      catches, leaving the selection as it was. */
  function ClassListUpdate(combo: Combo, data: map<string, Value>): (r: ClassListResult)
    ensures !Truthy(Get(data, "classes", VList([]))) ==> r == ClassListResult(combo, false)
    ensures Truthy(Get(data, "classes", VList([]))) ==> r.combo.values == data["classes"]
    ensures r.reloaded <==> Truthy(Get(data, "classes", VList([]))) && (data["classes"].VList? || data["classes"].VStr?)
    ensures !r.reloaded ==> r.combo.selection == combo.selection
    ensures r.reloaded && data["classes"].VList? ==> r.combo.selection == data["classes"].items[0]
    ensures r.reloaded && data["classes"].VList? ==> r.combo.selection in r.combo.values.items
  {
    var classes := Get(data, "classes", VList([]));
    if !Truthy(classes) then ClassListResult(combo, false)
    else match classes
      case VList(items) => ClassListResult(Combo(classes, items[0]), true)
      case VStr(s) => ClassListResult(Combo(classes, VStr([s[0]])), true)
      case _ => ClassListResult(Combo(classes, combo.selection), false)
  }

  /** A class list sent by `class_list_response` replaces the combo's values
      and selects its first class when it is not empty, and changes nothing
      when it is. */
  lemma ClassListResponseSelectsFirst(combo: Combo, names: seq<Value>, ts: string)
    ensures var r := ClassListUpdate(combo, ClassListResponse(VList(names), ts).fields);
            && (names == [] ==> r == ClassListResult(combo, false))
            && (names != [] ==> r == ClassListResult(Combo(VList(names), names[0]), true))
  {
  }

  /* ---------- message handlers ---------- */

  /** `setup_message_handlers` as written (teacher_gui.py:308-312): the
      module's own `MessageTypes` (teacher_gui.py:15-22) has no
      `CLASS_LIST_RESPONSE`, so the third registration raises
      AttributeError after the first two, out of the window's constructor. */
  method SetupMessageHandlersAsWritten(client: Client.TeacherClient, onHomework: HandlerId,
                                       onMessage: HandlerId, onClassList: HandlerId)
    returns (raised: bool)
    modifies client
    ensures raised
    ensures client.handlers == old(client.handlers)[HOMEWORK_RESPONSE := onHomework][MESSAGE_RESPONSE := onMessage]
    ensures client.sock == old(client.sock) && client.isConnected == old(client.isConnected)
    ensures client.events == old(client.events)
  {
    client.RegisterHandler(HOMEWORK_RESPONSE, onHomework);
    client.RegisterHandler(MESSAGE_RESPONSE, onMessage);
    raised := true;
  }

  /** `setup_message_handlers` with the missing tag defined as in
      communication.py: all three handlers are registered. */
  method SetupMessageHandlers(client: Client.TeacherClient, onHomework: HandlerId, onMessage: HandlerId,
                              onClassList: HandlerId)
    modifies client
    ensures client.handlers == old(client.handlers)[HOMEWORK_RESPONSE := onHomework]
                                 [MESSAGE_RESPONSE := onMessage][CLASS_LIST_RESPONSE := onClassList]
    ensures client.sock == old(client.sock) && client.isConnected == old(client.isConnected)
    ensures client.events == old(client.events)
  {
    client.RegisterHandler(HOMEWORK_RESPONSE, onHomework);
    client.RegisterHandler(MESSAGE_RESPONSE, onMessage);
    client.RegisterHandler(CLASS_LIST_RESPONSE, onClassList);
  }

  /** With the handlers as written, a class list response reaches no handler
      on a fresh client. */
  lemma ClassListUnhandledAsWritten(onHomework: HandlerId, onMessage: HandlerId, classes: Value, ts: string)
    ensures HandlerFor(map[][HOMEWORK_RESPONSE := onHomework][MESSAGE_RESPONSE := onMessage],
                       ClassListResponse(classes, ts).fields) == None
  {
    assert TypeTag(ClassListResponse(classes, ts).fields) == VStr(CLASS_LIST_RESPONSE);
  }

  /** With the corrected registration each response kind reaches its own
      handler. */
  lemma ResponsesReachTheirHandlers(handlers: map<string, HandlerId>, onHomework: HandlerId, onMessage: HandlerId,
                                    onClassList: HandlerId, payload: Value, content: Value, sender: Value,
                                    className: Value, classes: Value, ts: string)
    ensures var hs := handlers[HOMEWORK_RESPONSE := onHomework][MESSAGE_RESPONSE := onMessage]
                        [CLASS_LIST_RESPONSE := onClassList];
            && HandlerFor(hs, HomeworkResponse(payload, ts).fields) == Some(onHomework)
            && HandlerFor(hs, MessageResponse(content, sender, className, ts).fields) == Some(onMessage)
            && HandlerFor(hs, ClassListResponse(classes, ts).fields) == Some(onClassList)
  {
    var hs := handlers[HOMEWORK_RESPONSE := onHomework][MESSAGE_RESPONSE := onMessage]
                [CLASS_LIST_RESPONSE := onClassList];
    EnvelopesReadBack(content, sender, className, payload, classes, ts);
    Reaches(hs, HomeworkResponse(payload, ts).fields, HOMEWORK_RESPONSE, onHomework);
    Reaches(hs, MessageResponse(content, sender, className, ts).fields, MESSAGE_RESPONSE, onMessage);
    Reaches(hs, ClassListResponse(classes, ts).fields, CLASS_LIST_RESPONSE, onClassList);
  }

  lemma Reaches(hs: map<string, HandlerId>, fields: map<string, Value>, tag: string, h: HandlerId)
    requires TypeTag(fields) == VStr(tag) && tag in hs && hs[tag] == h
    ensures HandlerFor(hs, fields) == Some(h)
  {
  }

  /* ---------- the homework lists ---------- */

  const DISPLAY_WIDTH := 50

  /** The content column of the homework lists (teacher_gui.py:620, 739):
      longer than 50 characters, it shows the first 50 followed by "...". */
  function DisplayContent(s: string): (r: string)
    ensures |r| == if |s| <= DISPLAY_WIDTH then |s| else DISPLAY_WIDTH + 3
    ensures |s| <= DISPLAY_WIDTH ==> r == s
    ensures |s| > DISPLAY_WIDTH ==> r[..DISPLAY_WIDTH] == s[..DISPLAY_WIDTH] && r[DISPLAY_WIDTH..] == "..."
  {
    if |s| > DISPLAY_WIDTH then s[..DISPLAY_WIDTH] + "..." else s
  }

  /** Showing a shown content again changes nothing. */
  lemma DisplayContentIdempotent(s: string)
    ensures DisplayContent(DisplayContent(s)) == DisplayContent(s)
  {
    if |s| > DISPLAY_WIDTH {
      var r := DisplayContent(s);
      assert r[..DISPLAY_WIDTH] + "..." == r;
    }
  }

  /** Two long contents that agree in their first 50 characters show the
      same. */
  lemma DisplayContentForgetsTail(s: string, t: string)
    requires |s| > DISPLAY_WIDTH && |t| > DISPLAY_WIDTH && s[..DISPLAY_WIDTH] == t[..DISPLAY_WIDTH]
    ensures DisplayContent(s) == DisplayContent(t)
  {
  }

  /* ---------- the subnet scan ---------- */

  const FIRST_HOST := 1
  const LAST_HOST := 254
  const SERVER_PORT := 8888

  /** `'.'.join(local_ip.split('.')[:-1])` (teacher_gui.py:339). */
  function ScanPrefix(localIp: string): string {
    var parts := Split(localIp);
    Join(parts[..|parts| - 1])
  }

  /** The prefix drops exactly the last dotted part; an address without a
      dot has the empty prefix. */
  lemma ScanPrefixDropsLastPart(p: string, last: string)
    requires '.' !in last
    ensures ScanPrefix(p + "." + last) == p
    ensures '.' !in p ==> ScanPrefix(p) == ""
  {
    SplitLastDot(p, last);
    assert (Split(p) + [last])[..|Split(p)|] == Split(p);
    JoinSplit(p);
    if '.' !in p {
      SplitNoDot(p);
    }
  }

  /** `f"{network}.{i}"` */
  function ScanTarget(prefix: string, host: nat): string {
    prefix + "." + NatToString(host)
  }

  /** The addresses of hosts 1 to `n`, in the order probed. */
  function Probed(prefix: string, n: nat): (r: seq<string>)
    ensures |r| == n
    ensures forall k :: 0 <= k < n ==> r[k] == ScanTarget(prefix, k + FIRST_HOST)
  {
    if n == 0 then [] else Probed(prefix, n - 1) + [ScanTarget(prefix, n)]
  }

  /** The addresses the scan probes: hosts 1 to 254. */
  function ScanTargets(prefix: string): (r: seq<string>)
    ensures |r| == LAST_HOST - FIRST_HOST + 1
    ensures forall k :: 0 <= k < |r| ==> r[k] == ScanTarget(prefix, k + FIRST_HOST)
  {
    Probed(prefix, LAST_HOST)
  }

  /** Every probed address lies in the prefix's subnet, and no address is
      probed twice. */
  lemma ScanTargetsInSubnet(prefix: string, i: nat, j: nat)
    ensures ScanPrefix(ScanTarget(prefix, i)) == prefix
    ensures ScanTarget(prefix, i) == ScanTarget(prefix, j) ==> i == j
  {
    var d := NatToString(i);
    assert '.' !in d;
    ScanPrefixDropsLastPart(prefix, d);
    if ScanTarget(prefix, i) == ScanTarget(prefix, j) {
      assert ScanTarget(prefix, i)[|prefix| + 1..] == d;
      assert ScanTarget(prefix, j)[|prefix| + 1..] == NatToString(j);
      NatToStringInjective(i, j);
    }
  }

  /** The scan loop of teacher_gui.py:343-346 over one subnet. */
  method ScanSubnet(network: string, reachable: string -> bool) returns (servers: seq<string>, ghost hosts: seq<nat>)
    ensures servers == Filter(ScanTargets(network), reachable)
    ensures |hosts| == |servers|
    ensures forall k :: 0 <= k < |hosts| ==>
              FIRST_HOST <= hosts[k] <= LAST_HOST && servers[k] == ScanTarget(network, hosts[k])
    ensures forall a, b :: 0 <= a < b < |hosts| ==> hosts[a] < hosts[b]
  {
    servers := [];
    hosts := [];
    for i := FIRST_HOST to LAST_HOST + 1
      invariant servers == Filter(Probed(network, i - 1), reachable)
      invariant |hosts| == |servers|
      invariant forall k :: 0 <= k < |hosts| ==>
                  FIRST_HOST <= hosts[k] < i && servers[k] == ScanTarget(network, hosts[k])
      invariant forall a, b :: 0 <= a < b < |hosts| ==> hosts[a] < hosts[b]
    {
      var ip := network + "." + NatToString(i);
      assert Probed(network, i) == Probed(network, i - 1) + [ip];
      FilterSnoc(Probed(network, i - 1), ip, reachable);
      if reachable(ip) {
        servers := servers + [ip];
        hosts := hosts + [i];
      }
    }
  }

  /** The search thread's scan (teacher_gui.py:331-346): no scan without a
      local address; otherwise every host of its subnet from 1 to 254 is
      probed on port 8888 and the answering ones are collected in ascending
      order. `reachable` stands for `test_server_connection`. */
  method SearchServers(localIp: string, reachable: string -> bool)
    returns (found: Option<seq<string>>, ghost hosts: seq<nat>)
    ensures found.None? <==> localIp == ""
    ensures found.Some? ==> found.value == Filter(ScanTargets(ScanPrefix(localIp)), reachable)
    ensures found.Some? ==> |hosts| == |found.value|
    ensures found.Some? ==> forall k :: 0 <= k < |hosts| ==>
              FIRST_HOST <= hosts[k] <= LAST_HOST && found.value[k] == ScanTarget(ScanPrefix(localIp), hosts[k])
    ensures forall a, b :: 0 <= a < b < |hosts| ==> hosts[a] < hosts[b]
  {
    if localIp == "" {
      return None, [];
    }
    var servers;
    servers, hosts := ScanSubnet(ScanPrefix(localIp), reachable);
    found := Some(servers);
  }

  /** An address is found exactly when it is one of the 254 probed and it
      answers. */
  lemma SearchFindsReachable(prefix: string, reachable: string -> bool, ip: string)
    ensures ip in Filter(ScanTargets(prefix), reachable) <==>
            reachable(ip) && exists h :: FIRST_HOST <= h <= LAST_HOST && ip == ScanTarget(prefix, h)
  {
    FilterMember(ScanTargets(prefix), reachable, ip);
    var ts := ScanTargets(prefix);
    if exists h :: FIRST_HOST <= h <= LAST_HOST && ip == ScanTarget(prefix, h) {
      var h :| FIRST_HOST <= h <= LAST_HOST && ip == ScanTarget(prefix, h);
      assert ts[h - FIRST_HOST] == ip;
    }
  }
}
