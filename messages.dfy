/** The message type tags (`MessageTypes`) and the envelope constructors
    (`MessageStructure`) of communication.py. Every envelope is a dict whose
    `type` is its tag; the timestamp, which the source takes from the clock,
    is a parameter here. */
module Messages {
  import opened Values

  const TEACHER_CONNECT := "teacher_connect"
  const TEACHER_DISCONNECT := "teacher_disconnect"
  const HOMEWORK_REQUEST := "homework_request"
  const HOMEWORK_RESPONSE := "homework_response"
  const HOMEWORK_SUBMIT := "homework_submit"
  const MESSAGE_SEND := "message_send"
  const MESSAGE_RESPONSE := "message_response"
  const CLASS_SELECTION := "class_selection"
  const SUBJECT_SELECTION := "subject_selection"
  const TEACHER_STATUS := "teacher_status"
  const CLASS_LIST_REQUEST := "class_list_request"
  const CLASS_LIST_RESPONSE := "class_list_response"
  const HEARTBEAT := "heartbeat"
  const SYSTEM_INFO := "system_info"

  /** An envelope: a dict holding its tag under `type` and a `timestamp`. */
  predicate IsEnvelope(v: Value, tag: string, ts: string) {
    && v.VObj?
    && "type" in v.fields && v.fields["type"] == VStr(tag)
    && "timestamp" in v.fields && v.fields["timestamp"] == VStr(ts)
  }

  function TeacherConnect(teacherId: Value, teacherName: Value, ts: string): (r: Value)
    ensures IsEnvelope(r, TEACHER_CONNECT, ts)
    ensures r.fields.Keys == {"type", "teacher_id", "teacher_name", "timestamp"}
    ensures r.fields["teacher_id"] == teacherId && r.fields["teacher_name"] == teacherName
  {
    VObj(map["type" := VStr(TEACHER_CONNECT), "teacher_id" := teacherId,
             "teacher_name" := teacherName, "timestamp" := VStr(ts)])
  }

  /** `homework_request(class_name, subject, message="")`. */
  function HomeworkRequest(className: Value, subject: Value, message: Value, ts: string): (r: Value)
    ensures IsEnvelope(r, HOMEWORK_REQUEST, ts)
    ensures r.fields.Keys == {"type", "class", "subject", "message", "timestamp"}
    ensures r.fields["class"] == className && r.fields["subject"] == subject
    ensures r.fields["message"] == message
  {
    VObj(map["type" := VStr(HOMEWORK_REQUEST), "class" := className, "subject" := subject,
             "message" := message, "timestamp" := VStr(ts)])
  }

  /** `homework_response(homework_data)`: one positional parameter. */
  function HomeworkResponse(homeworkData: Value, ts: string): (r: Value)
    ensures IsEnvelope(r, HOMEWORK_RESPONSE, ts)
    ensures r.fields.Keys == {"type", "homework", "timestamp"}
    ensures r.fields["homework"] == homeworkData
  {
    VObj(map["type" := VStr(HOMEWORK_RESPONSE), "homework" := homeworkData, "timestamp" := VStr(ts)])
  }

  function MessageSend(content: Value, senderName: Value, className: Value, ts: string): (r: Value)
    ensures IsEnvelope(r, MESSAGE_SEND, ts)
    ensures r.fields.Keys == {"type", "content", "sender_name", "class", "timestamp"}
    ensures r.fields["content"] == content && r.fields["sender_name"] == senderName
    ensures r.fields["class"] == className
  {
    VObj(map["type" := VStr(MESSAGE_SEND), "content" := content, "sender_name" := senderName,
             "class" := className, "timestamp" := VStr(ts)])
  }

  function MessageResponse(content: Value, senderName: Value, className: Value, ts: string): (r: Value)
    ensures IsEnvelope(r, MESSAGE_RESPONSE, ts)
    ensures r.fields.Keys == {"type", "content", "sender_name", "class", "timestamp"}
    ensures r.fields["content"] == content && r.fields["sender_name"] == senderName
    ensures r.fields["class"] == className
  {
    VObj(map["type" := VStr(MESSAGE_RESPONSE), "content" := content, "sender_name" := senderName,
             "class" := className, "timestamp" := VStr(ts)])
  }

  function ClassListRequest(ts: string): (r: Value)
    ensures IsEnvelope(r, CLASS_LIST_REQUEST, ts)
    ensures r.fields.Keys == {"type", "timestamp"}
  {
    VObj(map["type" := VStr(CLASS_LIST_REQUEST), "timestamp" := VStr(ts)])
  }

  function ClassListResponse(classes: Value, ts: string): (r: Value)
    ensures IsEnvelope(r, CLASS_LIST_RESPONSE, ts)
    ensures r.fields.Keys == {"type", "classes", "timestamp"}
    ensures r.fields["classes"] == classes
  {
    VObj(map["type" := VStr(CLASS_LIST_RESPONSE), "classes" := classes, "timestamp" := VStr(ts)])
  }

  /** The tag a dispatcher reads: `message.get('type', 'unknown')`. */
  function TypeTag(fields: map<string, Value>): (r: Value)
    ensures "type" in fields ==> r == fields["type"]
    ensures "type" !in fields ==> r == VStr("unknown")
  {
    Get(fields, "type", VStr("unknown"))
  }

  /** Every envelope a constructor builds reads back with its own tag and
      with the free-form field values it was given, under the defaults the
      receiving handlers use (student_gui.py:173-175; teacher_gui.py:237, 297). */
  lemma {:induction false} EnvelopesReadBack(c: Value, s: Value, m: Value, payload: Value, classes: Value, ts: string)
    ensures TypeTag(HomeworkRequest(c, s, m, ts).fields) == VStr(HOMEWORK_REQUEST)
    ensures Get(HomeworkRequest(c, s, m, ts).fields, "class", VStr("")) == c
    ensures Get(HomeworkRequest(c, s, m, ts).fields, "subject", VStr("")) == s
    ensures Get(HomeworkRequest(c, s, m, ts).fields, "message", VStr("")) == m
    ensures TypeTag(HomeworkResponse(payload, ts).fields) == VStr(HOMEWORK_RESPONSE)
    ensures Get(HomeworkResponse(payload, ts).fields, "homework", EmptyObj) == payload
    ensures TypeTag(ClassListResponse(classes, ts).fields) == VStr(CLASS_LIST_RESPONSE)
    ensures Get(ClassListResponse(classes, ts).fields, "classes", VList([])) == classes
    ensures TypeTag(ClassListRequest(ts).fields) == VStr(CLASS_LIST_REQUEST)
    ensures TypeTag(MessageSend(c, s, m, ts).fields) == VStr(MESSAGE_SEND)
    ensures TypeTag(MessageResponse(c, s, m, ts).fields) == VStr(MESSAGE_RESPONSE)
    ensures TypeTag(TeacherConnect(c, s, ts).fields) == VStr(TEACHER_CONNECT)
  {
  }
}
