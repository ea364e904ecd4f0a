# homework_viewer core, modelled in Dafny

homework_viewer is a classroom tool with two programs. A student machine runs a
`StudentServer`, and a teacher machine connects to it with a `TeacherClient`.
The peers exchange JSON envelopes built by `MessageStructure`. The student
side keeps its homeworks in a `DataManager` store and answers a teacher's
`homework_request` with a `homework_response`. The teacher window checks its
input before connecting and before publishing a homework. It also turns the
responses it receives into display records and can scan its subnet for
student servers.

This project models that logic:

- `values.dfy`: decoded JSON values with Python's truthiness, hashability and `dict.get`.
- `text.dfy`: the string operations the code uses (`strip`, `isdigit`, `int`/`str` on decimals, `split('.')`/`'.'.join`, string order).
- `messages.dfy`: `MessageTypes` and the `MessageStructure` envelope constructors.
- `dispatch.dfy`: the handler table and the listener table shared by both peers, and the event log.
- `student_server.dfy`: `StudentServer` as a class. Each session is a state machine over the chunks its socket delivers.
- `teacher_client.dfy`: `TeacherClient` as a class.
- `data_manager.dfy`: `DataManager` as a class over its `data` state, with specification functions for each operation.
- `student_handler.dfy`: the student's `handle_homework_request`.
- `teacher_gui.dfy`: the teacher window's validators, response handlers, truncation and subnet scan.

Some things are parameters of the model rather than computed:

- Sockets, handlers and listeners are opaque handles.
- What a socket delivers or whether a send succeeds is a parameter.
- Timestamps, uuids and the local address are parameters.
- `test_server_connection` is a predicate `reachable`.

The model keeps a log of the calls the networking layer makes (`Event`). That
log is how the contracts state which handler or listener was called, and
which socket was sent to or closed.

## Model

| member | source | states |
|---|---|---|
| Messages.TeacherConnect | communication.py:299-307 | the envelope is tagged `teacher_connect`, has exactly the keys type, teacher_id, teacher_name, timestamp, and carries the given id and name |
| Messages.HomeworkRequest | communication.py:309-318 | tagged `homework_request`, with exactly the keys type, class, subject, message, timestamp holding the arguments |
| Messages.HomeworkResponse | communication.py:320-327 | tagged `homework_response`, with one `homework` field holding the single argument |
| Messages.MessageSend | communication.py:329-338 | tagged `message_send`, with content, sender_name and class as given |
| Messages.MessageResponse | communication.py:340-349 | tagged `message_response`, with content, sender_name and class as given |
| Messages.ClassListRequest | communication.py:351-357 | tagged `class_list_request`, with only type and timestamp |
| Messages.ClassListResponse | communication.py:359-365 | tagged `class_list_response`, with `classes` as given |
| Messages.TypeTag | communication.py:105 | the tag a dispatcher reads is the `type` field, or 'unknown' when it is absent |
| Messages.EnvelopesReadBack | student/student_gui.py:173-175 | every envelope reads back its own tag and the values it was built from, under the defaults the receiving handlers use |
| Dispatch.HandlerFor | communication.py:102-112 | a handler is found exactly when the message's tag is a string registered in the table, and it is the table's entry for that tag |
| Dispatch.LastRegisteredHandlerWins | communication.py:145-147 | after registering a handler for a tag, that tag reaches the new handler and every other tag keeps its old lookup |
| Dispatch.UnregisteredTagCallsNothing | communication.py:105-109 | a message without `type` is looked up as 'unknown', and a tag nobody registered finds no handler |
| Dispatch.AddListener | communication.py:149-153 | the event gains an entry if it had none, the new listener is appended to its list, and every other event keeps its list |
| Dispatch.AddListenersKeepsOrder | communication.py:149-153 | adding listeners one by one leaves the event's list as the old list followed by the new listeners in order, and other events untouched |
| Dispatch.Notify | communication.py:82-83 | the intended notification calls each listener of the event once, in registration order, with the event name and data |
| Server.IsHandshake | communication.py:76 | a dict is a handshake when its `type`, read with `.get` and so None when missing, is 'teacher_connect' |
| Server.HandshakeId | communication.py:77 | the handshake's id is its `teacher_id`, or the fresh uuid string when that key is missing (a present but falsy id is kept) |
| Server.Dispatched | communication.py:102-112 | a dict message calls a handler exactly when its tag has one registered, and then exactly one call of that handler with the message and the session's teacher id |
| Server.Step | communication.py:67-90 | the loop continues exactly for a decoded dict that is not a handshake with an unhashable id, and, as written, not a handshake while any listener is registered; only a handshake changes the registry and the session's id, which is the message's `teacher_id` or the fresh uuid; a non-handshake dict adds exactly its `Dispatched` calls with the session's id, a handshake that goes on adds the `teacher_connected` notifications, and a chunk that ends the loop adds nothing |
| Server.Teardown | communication.py:91-100 | a truthy hashable id is removed from the registry and any other id leaves it unchanged; the socket is closed last unless an unhashable truthy id, or the as-written listener loop, raises inside `finally`; a falsy id only closes the socket, and with the listener loop as intended a truthy hashable id is announced to each `teacher_disconnected` listener before the close |
| Server.Run | communication.py:63-100 | a session is the chunks read one `Step` at a time while the loop goes on; running out of chunks, or a chunk that ends the loop, leads to `Teardown`; the definition is parameterised by whether the listener loops are as written |
| Server.RunSession | communication.py:63-100 | the session with the listener loops at :82 and :97 calling each registered listener, the intended reading |
| Server.RunSessionAsWritten | communication.py:63-100 | the session with :82 and :97 as written, where calling a stored listener list raises once any listener is registered |
| Server.SessionStopsAtBadChunk | communication.py:67-73 | an empty read, an undecodable chunk or a non-dict value ends the session: nothing after it is read |
| Server.HandlersBeforeHandshakeSeeNull | communication.py:65-87 | when a session opens with any number of non-handshake dicts, their handler calls are its first events, and each one whose tag has a handler reaches it with teacher id None |
| Server.DispatchedAll | communication.py:87 | every handler call of a run of non-handshake dicts carries the session's teacher id |
| Server.DispatchedAllCalls | communication.py:87-109 | in a run of non-handshake dicts, each one whose tag has a handler calls it with the session's teacher id |
| Server.NonHandshakesKeepSession | communication.py:67-87 | non-handshake dicts leave the registry and the session's id alone, add only their handler calls, and the loop reads on |
| Server.HandshakeRegistersAndNotifies | communication.py:76-84 | a handshake maps its id to this socket, tells each connected-listener once, is not forwarded to handlers, and the session continues with that id |
| Server.HandshakeThenMessagesReachHandlers | communication.py:76-87 | after a handshake, the id is registered, the listeners are notified, and every later non-handshake dict whose tag has a handler reaches it with the handshake's id |
| Server.HandshakeThenCloseUnregisters | communication.py:91-100 | after a handshake with a truthy id, the session's end restores the registry minus that id and closes the socket last |
| Server.FalsyIdStaysRegistered | communication.py:92 | a handshake whose id is falsy stays registered after the session, with only the socket close at the end |
| Server.SecondHandshakeLeavesStaleEntry | communication.py:76-94 | with two handshakes on one connection only the second id is removed, so the first stays registered with a closed socket |
| Server.ListenerBreaksHandshakeAsWritten | communication.py:82-100 | as written, with any listener registered, a handshake leaves the registry without its id, calls nothing and never closes the socket |
| Server.StudentListenersBreakHandshakeAsWritten | student/student_gui.py:231-232 | with the student's two listeners, a teacher's handshake as written leaves no registry entry, calls no listener, and leaves the socket open |
| Server.StudentListenersSeeHandshake | communication.py:82-100 | with the listener loop corrected, the same session registers the id, calls the connected and disconnected listeners in turn, and unregisters and closes |
| Server.BroadcastsCountOk | communication.py:134-141 | a broadcast sends one message per visited id outside the failing set |
| Server.CountOkEnumerates | communication.py:134-143 | visiting every registered id once counts exactly the ids outside the failing set |
| Server.SendEach | communication.py:134-141 | the broadcast loop drops exactly the failing ids, sends to the others once each in visiting order, and counts them |
| Server.CloseEach | communication.py:166-171 | the stop loop closes each visited teacher socket once, in visiting order |
| Server.StudentServer.constructor | communication.py:14-21 | empty registry, handler and listener tables; not running; no socket |
| Server.StudentServer.StartServer | communication.py:23-42 | the new listening socket is kept and the result is whether binding succeeded; afterwards the server runs if binding succeeded or it was already running, so a failed rebind leaves a running server running |
| Server.StudentServer.RegisterHandler | communication.py:145-147 | the table maps the tag to the new handler; nothing else changes |
| Server.StudentServer.AddListener | communication.py:149-153 | the listener table becomes `AddListener` of the old one; nothing else changes |
| Server.StudentServer.GetConnectedTeachers | communication.py:155-157 | lists every connected id exactly once |
| Server.StudentServer.SendToTeacher | communication.py:114-127 | true exactly for a connected id whose send succeeds, which is then sent the message once; the registry is never changed |
| Server.StudentServer.BroadcastToTeachers | communication.py:129-143 | over a snapshot, the count is the number of ids outside the failing set, the registry loses exactly the failing ids, and each other id is sent the message once |
| Server.StudentServer.StopServer | communication.py:159-171 | not running, registry empty; the listening socket and then each teacher socket are closed once |
| Server.StudentServer.NotifyListeners | communication.py:82-83 | the corrected listener loop logs exactly `Notify` of the event |
| Server.StudentServer.ProcessMessage | communication.py:102-112 | a dict message whose tag has a registered handler logs one call of that handler with the message and the teacher id; any other message logs nothing (through `Dispatched`) |
| Server.StudentServer.HandleTeacher | communication.py:63-100 | the registry and log after a session are those of `RunSession` over the delivered chunks |
| Server.StudentServer.ReceiveChunk | communication.py:68-90 | one loop pass yields the session and continuation that `Step` gives |
| Server.StudentServer.CloseSession | communication.py:91-100 | the `finally` block yields the session that `Teardown` gives |
| Client.ClientDispatched | communication.py:227-237 | only a dict whose tag has a handler calls it, once; a non-dict is swallowed |
| Client.ClientRun | communication.py:210-225 | at most one handler call per chunk |
| Client.ClientSkipsNonObjects | communication.py:210-237 | a decoded non-dict calls nothing and reading goes on; an empty or undecodable read ends the loop |
| Client.ClientDeliversInOrder | communication.py:210-237 | a stream of dicts with handlers calls those handlers one per message, in arrival order |
| Client.Handshake | communication.py:191-196 | the handshake is tagged `teacher_connect`, carries the given id when it is truthy and the fresh uuid otherwise, and carries the name |
| Client.TeacherClient.constructor | communication.py:175-179 | no socket, not connected, no handlers |
| Client.TeacherClient.SendMessage | communication.py:239-251 | succeeds exactly when connected with a socket and the send goes through; only then is the message sent |
| Client.TeacherClient.ConnectToStudentServer | communication.py:181-208 | the new socket is kept; success is the connect result; a successful connect marks the client connected and sends the handshake if that send goes through |
| Client.TeacherClient.ProcessMessage | communication.py:227-237 | logs exactly what `ClientDispatched` calls |
| Client.TeacherClient.ReceiveMessages | communication.py:210-225 | the client is disconnected afterwards; while connected, the chunks cause exactly the calls of `ClientRun` |
| Client.TeacherClient.RegisterHandler | communication.py:253-255 | the table maps the tag to the new handler |
| Client.TeacherClient.Disconnect | communication.py:257-264 | not connected; a socket, if any, is closed once and kept |
| Store.DefaultData | data_manager.py:27-35 | empty homeworks, messages, classes and class assignments, and the nine default subjects without repeats |
| Store.Filter | data_manager.py:100-104 | a list comprehension: the elements that pass the test, in their stored order (each result element passes, and the result is no longer than the input) |
| Store.FilterHomeworks | data_manager.py:97-104 | the stored homeworks whose class equals a truthy class filter and whose subject equals a truthy subject filter; a falsy filter keeps every homework |
| Store.SortDesc | data_manager.py:106 | `sort(key=timestamp, reverse=True)` as an insertion sort on code-point string order; each element goes ahead of the first later one that is not newer; it keeps the multiset and the length (its order is `Store.SortDescSorted`, its stability `Store.SortDescStable`) |
| Store.HomeworksView | data_manager.py:95-107 | what `get_homeworks` returns: the filtered homeworks, sorted newest first |
| Store.MessagesView | data_manager.py:123-132 | what `get_messages` returns: the messages of a truthy class filter (all for a falsy one), sorted newest first |
| Store.FilterMember | data_manager.py:99-103 | a list comprehension filter keeps exactly the elements that pass |
| Store.FilterShrinksIffSomeFails | data_manager.py:148-166 | a filter shortens the list exactly when some element fails, and returns the list itself when none does |
| Store.FilterSubMultiset | data_manager.py:99-103 | a filter keeps no element more often than the list holds it |
| Store.InsertDescSorted | data_manager.py:106 | inserting into a newest-first list keeps it newest first |
| Store.SortDescSorted | data_manager.py:106 | `sort(key=timestamp, reverse=True)` yields a list ordered by timestamp, largest first |
| Store.SortDescMember | data_manager.py:106 | sorting keeps the same elements |
| Store.InsertDescStable | data_manager.py:106 | inserting an element leaves the order among the elements of any one timestamp unchanged, and puts the new element first among those of its own timestamp |
| Store.SortDescStable | data_manager.py:106 | the sort is stable, as Python's `list.sort` with `reverse=True` is: the elements sharing a timestamp come out in their stored order |
| Store.HomeworksViewSpec | data_manager.py:95-107 | `get_homeworks` returns exactly the stored homeworks that pass the truthy class and subject filters, each as often as stored, newest first; with no filter it is a re-ordering of the whole list |
| Store.MessagesViewSpec | data_manager.py:123-132 | the same for `get_messages` with its class filter |
| Store.HomeworksViewStable | data_manager.py:95-107 | `get_homeworks` lists the matching homeworks that share a timestamp in their stored order |
| Store.MessagesViewStable | data_manager.py:123-132 | `get_messages` lists the matching messages that share a timestamp in their stored order |
| Store.FilterInTwoSteps | data_manager.py:99-103 | filtering by class and then by subject is the combined filter |
| Store.FindSame | data_manager.py:64-68 | the position found is the first homework with the same subject and class; with none found, no homework has them |
| Store.AddHomeworkSpec | data_manager.py:63-93 | with overwrite and a match, the first match takes the new content, teacher, timestamp and status; its id, subject, class and the list length stay, and nothing else moves. Otherwise a homework with id length+1 is appended and returned |
| Store.IdReusedAfterDelete | data_manager.py:83 | after two adds and deleting id 1, the next add appends a second homework with id 2 |
| Store.WithoutHomework | data_manager.py:151 | the homework list after `delete_homework(id)`: the comprehension keeping the entries whose id differs |
| Store.DeleteHomeworkSpec | data_manager.py:148-156 | deleting keeps exactly the homeworks with another id, and shortens the list exactly when some homework had the id |
| Store.DeleteMessageSpec | data_manager.py:158-166 | the same for messages |
| Store.WithClass | data_manager.py:134-138 | a class already present leaves the list unchanged; a new one is appended at the end |
| Store.WithClassIdempotent | data_manager.py:134-138 | adding a class twice equals adding it once, and a list without repeats stays without repeats |
| Store.CountSubject | data_manager.py:181-182 | the number of stored homeworks whose subject equals the given one, at most the list's length |
| Store.CountInAddSubject | data_manager.py:180-190 | counting one more distinct subject adds exactly that subject's count |
| Store.DataManager.constructor | data_manager.py:12-25 | the data are the loaded file, or the default structure when none could be loaded; nothing saved yet |
| Store.DataManager.AddHomework | data_manager.py:47-93 | the homeworks become `AddHomeworkSpec` with defaults teacher '老师', timestamp now and status 'active', the returned dict is its homework, and the store saves once |
| Store.DataManager.GetHomeworks | data_manager.py:95-107 | returns `HomeworksView` of the stored list; with no filter the stored list is replaced by the sorted one, otherwise nothing changes; nothing is saved |
| Store.DataManager.AddMessage | data_manager.py:109-121 | appends a message with id length+1, status 'active' and the given timestamp, then saves once |
| Store.DataManager.GetMessages | data_manager.py:123-132 | returns `MessagesView`; with no filter the stored list is replaced by the sorted one |
| Store.DataManager.AddClass | data_manager.py:134-138 | the classes become `WithClass`, and the store saves only when the class was new |
| Store.DataManager.GetClasses | data_manager.py:140-142 | returns the stored class list |
| Store.DataManager.GetSubjects | data_manager.py:144-146 | returns the stored subject list |
| Store.DataManager.DeleteHomework | data_manager.py:148-156 | the homeworks lose every entry with the id; true exactly when the count fell, and only then does the store save |
| Store.DataManager.DeleteMessage | data_manager.py:158-166 | the same for messages |
| Store.DataManager.ClearAllData | data_manager.py:168-171 | the data are the default structure, saved once |
| Store.DataManager.GetStatistics | data_manager.py:173-190 | the counts are the list lengths; `subject_stats` has one entry per known subject, holding the number of homeworks with that subject; the total is the number of homeworks with a known subject, at most the homework count |
| StudentHandler.SubjectFilter | student/student_gui.py:188 | "全部" means no subject filter; any other subject is the filter |
| StudentHandler.Matched | student/student_gui.py:173-190 | the homeworks a request is answered with: for the student's class or "全部", `get_homeworks` with the student's class and the subject filter; otherwise none |
| StudentHandler.Entry | student/student_gui.py:193-202 | the entry copies id, class, subject, content, teacher, timestamp and status and sets `student` to the student's name |
| StudentHandler.Entries | student/student_gui.py:192-204 | one entry per matched homework, in order |
| StudentHandler.Payload | student/student_gui.py:208-213 | the payload holds exactly student_class, student_name, the entries and the request's note |
| StudentHandler.Response | student/student_gui.py:192-225 | the one `homework_response` sent: an entry per matched homework, the student's class and name, and the request's note |
| StudentHandler.EntryInjective | student/student_gui.py:193-202 | different homeworks give different entries |
| StudentHandler.MatchedSpec | student/student_gui.py:184-204 | a request for the student's class or "全部" gets exactly the stored homeworks of the student's class (all, with none selected) and of the requested subject (all for "全部" or ''), each as often as it is stored (the same multiset as the filter), newest first; any other request gets none |
| StudentHandler.MatchedStable | student/student_gui.py:184-190 | for a served request, matched homeworks that share a timestamp are answered in their stored order |
| StudentHandler.AllClassesIsOwnClass | student/student_gui.py:184 | requesting "全部" classes is requesting the student's own class |
| StudentHandler.ResponseListsMatched | student/student_gui.py:207-223 | the response lists an entry for a homework exactly when it is matched, and carries the request's note and the student's name |
| StudentHandler.BuildEntries | student/student_gui.py:192-204 | the loop builds exactly `Entries` |
| StudentHandler.LookUp | student/student_gui.py:173-190 | returns the matched homeworks; the store changes only through `get_homeworks`' in-place sort; nothing is saved |
| StudentHandler.HandleHomeworkRequest | student/student_gui.py:171-225 | one `homework_response` is built from the matched homeworks and sent to `teacher_id` when it is connected and the send succeeds, empty list or not; the server's registry and tables are unchanged |
| TeacherGui.ManualConnect | teacher/teacher_gui.py:446-464 | the IP field is needed only without a dialog IP; a port that is not digits is refused, then one outside 1024..65535; otherwise the attempt carries the IP, the port's value and the stripped name |
| TeacherGui.ConnectToServer | teacher/teacher_gui.py:314-326 | a blank name is refused first; then the automatic search, or else the manual connect |
| TeacherGui.ConnectAttemptSpec | teacher/teacher_gui.py:316-319 | an attempt happens exactly when name and IP are not blank, the search is off and the port is valid; the attempt's name and IP are not blank |
| TeacherGui.PortRoundTrip | teacher/teacher_gui.py:455-464 | every port in range, written in decimal, is accepted as itself, and every other number is refused as out of range |
| TeacherGui.ValidateSend | teacher/teacher_gui.py:509-527 | accepted exactly when connected, with a subject, a class and non-blank content, and otherwise refused with the first failing check, in that order |
| TeacherGui.IntendedHomeworkMessage | teacher/teacher_gui.py:545-558 | the corrected message is a `homework_response` holding student_name '老师发送', the class, one homework and the teacher message '老师 <teacher> 向 <class> 发布了作业' |
| TeacherGui.SendHomeworkAsWritten | teacher/teacher_gui.py:509-545 | a refused send stores nothing; an accepted one stores the homework with overwrite and then raises at line 545, sending nothing |
| TeacherGui.SendHomework | teacher/teacher_gui.py:509-594 | a refused send stores and sends nothing; an accepted one stores the homework and hands the corrected message to the client, which sends it when connected |
| TeacherGui.Publish | teacher/teacher_gui.py:530-594 | the homework is stored, then the message stamped with its timestamp goes to the client |
| TeacherGui.ItemRecord | teacher/teacher_gui.py:250-258 | the record for one new-format item: the student's name and class, and the item's subject, content, teacher and timestamp defaulting to '', with status defaulting to '已完成' |
| TeacherGui.OldFormat | teacher/teacher_gui.py:259-275 | the one old-format record: student defaulting to 'Unknown', class, subject, content and teacher defaulting to '', timestamp '刚刚' and status '已完成' |
| TeacherGui.ItemRecords | teacher/teacher_gui.py:249-258 | one record per item up to the first non-dict item, where it raises; it does not raise only when every item gave a record |
| TeacherGui.NewFormat | teacher/teacher_gui.py:239-258 | every record carries the payload's student name and class |
| TeacherGui.ResponseRecords | teacher/teacher_gui.py:234-275 | a `homework` that is not a dict raises before anything is displayed |
| TeacherGui.NewFormatOneRecordPerItem | teacher/teacher_gui.py:237-258 | a new-format response with a list of dicts shows one record per item, in order, without raising, with status '已完成' where the item has none |
| TeacherGui.OldFormatOneRecord | teacher/teacher_gui.py:259-275 | an old-format response shows exactly one record, timestamped '刚刚', status '已完成', from 'Unknown' when no student is named |
| TeacherGui.ItemRecordsUnique | teacher/teacher_gui.py:249-258 | any result shaped as records for a prefix of dicts, stopping exactly at the first non-dict, is `ItemRecords` |
| TeacherGui.CollectItems | teacher/teacher_gui.py:249-258 | the display loop yields exactly `ItemRecords` |
| TeacherGui.HandleHomeworkResponse | teacher/teacher_gui.py:234-275 | the handler displays exactly `ResponseRecords` and raises exactly when it says so |
| TeacherGui.StudentResponseShown | teacher/teacher_gui.py:237-258 | the student's answer shows, without raising, one record per matched homework, in order, with the student's name and class and the homework's fields |
| TeacherGui.IntendedHomeworkShown | teacher/teacher_gui.py:237-258 | the corrected teacher message shows as exactly one published record from '老师发送' |
| TeacherGui.StudentIgnoresTeacherHomework | student/student_gui.py:228 | the corrected message reaches no handler on the student, which registers only `homework_request` |
| TeacherGui.ClassListUpdate | teacher/teacher_gui.py:294-305 | a falsy class list changes nothing; otherwise the values are replaced, and a list selects its first class and reloads, while a value that cannot be indexed keeps the selection |
| TeacherGui.ClassListResponseSelectsFirst | teacher/teacher_gui.py:297-305 | a non-empty class list sent by `class_list_response` replaces the values and selects its first class; an empty one changes nothing |
| TeacherGui.SetupMessageHandlersAsWritten | teacher/teacher_gui.py:310-312 | as written, only the homework and message handlers are registered, then the third registration raises |
| TeacherGui.ClassListUnhandledAsWritten | teacher/teacher_gui.py:310-312 | with those registrations a class list response reaches no handler |
| TeacherGui.SetupMessageHandlers | teacher/teacher_gui.py:310-312 | corrected, the three handlers are registered under their tags |
| TeacherGui.ResponsesReachTheirHandlers | teacher/teacher_gui.py:310-312 | corrected, each response kind reaches its own handler |
| TeacherGui.DisplayContent | teacher/teacher_gui.py:620 | content of at most 50 characters is shown as is; longer content shows its first 50 characters and "..." |
| TeacherGui.DisplayContentIdempotent | teacher/teacher_gui.py:739 | showing shown content again changes nothing |
| TeacherGui.DisplayContentForgetsTail | teacher/teacher_gui.py:620 | two long contents that agree on their first 50 characters show the same |
| TeacherGui.ScanPrefix | teacher/teacher_gui.py:339 | the network prefix `'.'.join(local_ip.split('.')[:-1])` |
| TeacherGui.ScanPrefixDropsLastPart | teacher/teacher_gui.py:339 | the prefix is the address without its last dotted part, and an address without a dot has prefix '' |
| TeacherGui.Probed | teacher/teacher_gui.py:343-345 | the k-th probed address is host k+1 of the prefix |
| TeacherGui.ScanTargets | teacher/teacher_gui.py:343-345 | 254 addresses, hosts 1 to 254 in ascending order |
| TeacherGui.ScanTargetsInSubnet | teacher/teacher_gui.py:339-345 | every probed address lies in the prefix's subnet, and no address is probed twice |
| TeacherGui.ScanSubnet | teacher/teacher_gui.py:343-346 | collects exactly the answering probed addresses, in ascending host order |
| TeacherGui.SearchServers | teacher/teacher_gui.py:333-346 | no scan without a local address; otherwise the answering hosts of its subnet, ascending |
| TeacherGui.SearchFindsReachable | teacher/teacher_gui.py:343-346 | an address is found exactly when it is one of the 254 probed and it answers |
| Values.Truthy | communication.py:92 | Python truthiness: None, False, 0, '' and empty lists and dicts are false, as in `if teacher_id:` |
| Values.Hashable | communication.py:78 | only values that are not lists or dicts can be dictionary keys; using another raises TypeError |
| Values.Get | communication.py:105 | `d.get(key, default)`: the stored value when the key is present, else the default |
| Text.Strip | teacher/teacher_gui.py:454-455 | `str.strip()`: leading and trailing `isspace` characters removed (characterised by `Text.StripIsTrimmedSlice`) |
| Text.IsDigits | teacher/teacher_gui.py:457 | `str.isdigit()` on ASCII digits: non-empty and every character '0'-'9' |
| Text.DecimalValue | teacher/teacher_gui.py:461 | `int(s)` of a string of decimal digits, most significant first |
| Text.Split | teacher/teacher_gui.py:339 | `s.split('.')`: at least one part, none containing a dot |
| Text.Join | teacher/teacher_gui.py:339 | `'.'.join(parts)` |
| Text.LexLe | data_manager.py:106 | Python's `<=` on strings: lexicographic by code point, the order the timestamp sort uses |
| Text.StripIsTrimmedSlice | teacher/teacher_gui.py:316 | `strip()` keeps a contiguous middle part, removes only whitespace, and the kept part does not start or end with whitespace |
| Text.StripEmptyIffBlank | teacher/teacher_gui.py:317 | a stripped field is empty exactly when it is all whitespace |
| Text.NatToString | teacher/teacher_gui.py:344 | `str(n)` is a string of digits |
| Text.DecimalRoundTrip | teacher/teacher_gui.py:461 | `int(str(n)) == n` |
| Text.JoinSplit | teacher/teacher_gui.py:339 | `'.'.join(s.split('.')) == s` |
| Text.SplitLastDot | teacher/teacher_gui.py:339 | splitting `p + '.' + last` gives the parts of `p` followed by `last` |
| Text.LexLeRefl | data_manager.py:106 | every string is `<=` itself |
| Text.LexLeTransitive | data_manager.py:106 | the string order the sort uses is transitive |
| Text.LexLeTotal | data_manager.py:106 | and total |

## Left out

- As written, `TeacherGUI()` raises in `setup_message_handlers` (teacher/teacher_gui.py:312, reached from :80), so the teacher window is never built. The members modelling the window (`TeacherGui.ConnectToServer`, `TeacherGui.SendHomework`, `TeacherGui.SendHomeworkAsWritten`, the response handlers and the scan) describe it as if construction had succeeded, with the handler table of `TeacherGui.SetupMessageHandlers`.
- Sockets, threads and the accept loop are left out. Each `recv(1024)` is one `Chunk`, as the source assumes. Binding, connecting and sending succeed or fail through boolean parameters. The sessions run one at a time, since the source has no locking.
- JSON encoding and decoding, `uuid.uuid4()`, the clock and `datetime.now()` are parameters: decoded values, `freshId`/`newId`, `ts` and `now`.
- `_load_data` and `save_data` are file I/O. The constructor takes the loaded data (or none), and the store counts its calls to `save_data`.
- The order of a Python dict is not modelled. `get_connected_teachers`, `broadcast_to_teachers` and `stop_server` visit every id once, in an unspecified order (a ghost `order`).
- Python's `True == 1` and `1.0 == 1` key aliasing, and floating-point JSON numbers, are left out. Registry keys are compared as decoded values.
- A send that raises inside `broadcast_to_teachers` is given by the set `failing` of ids.
- `get_local_ip` and `test_server_connection` are network probes. They are the parameters `localIp` and `reachable`. `auto_search_servers` defines `search_thread` but never starts it (teacher/teacher_gui.py:328-353), so `ConnectToServer` only reports `Searching`. `SearchServers` models what the thread would do.
- The connection thread after an `Attempt` (teacher_gui.py:466-478) is left out. It calls `connect_to_student_server` without a teacher id, so the handshake carries a fresh uuid (`Client.Handshake`).
- The tkinter layout, dialogs, treeviews, fullscreen mode, CSV export, tray icon and `ipconfig` scraping are UI or foreign code. The display functions are left out too: `display_received_homework`, `display_received_message` and `handle_message_response`. The model only records the dicts handed to the display.
- The fallback branch of `send_homework` (teacher_gui.py:559-590) is unreachable, because `hasattr(MessageStructure, 'homework_response')` holds. Its further broken call `teacher_connect(teacher_name=..., server_ip=...)` at line 561 is not modelled.
- String `isdigit` is modelled for ASCII digits only. Python's `isdigit` is also true for other Unicode digits. `int()` parses the decimal ones (category Nd, for example fullwidth '８８８８'), which the model refuses as not digits. On the others (for example '²' or '①') `int()` raises a ValueError that nothing catches at teacher/teacher_gui.py:461; the model refuses them as not digits instead and does not capture that raise.
- StudentHandler.HandleHomeworkRequest: the stored homework records are typed, so every key is present. The `.get` defaults at student_gui.py:194-201, such as status '已完成', never apply and are not stated.
- Store.DataManager.constructor: the loaded data are typed records (`StoreData`, `Homework`, `Message`), so every file is assumed to have the default structure. `_load_data` keeps whatever `json.load` returns (data_manager.py:18-21). A file missing `homeworks`, `messages`, `classes`, `subjects` or a record's `timestamp`, or holding values of other types, would make later calls raise `KeyError` or `TypeError` (for example at data_manager.py:65, 97 and 106). The model does not capture those failures.
- Store.DataManager.AddHomework: the homework dict is updated in place and the same dict is returned. The model returns an equal value, so later aliasing between the returned dict and the stored one is not captured.
- Store.DataManager.GetHomeworks: with no filter, `get_homeworks` returns the stored list object itself (data_manager.py:97, 107), as do `get_messages` with no class (data_manager.py:125, 132) and always `get_classes` and `get_subjects` (data_manager.py:142, 146). The model returns equal values, so aliasing between a returned list and the store is not captured. The callers in the core only read these results.
- The `message_handlers` and `teacher_listeners` callables are handles: what a handler or listener does, and an exception it raises, are not modelled beyond the call being logged.
- The student registers no handler for `homework_response`, so even the corrected teacher message is ignored there (`TeacherGui.StudentIgnoresTeacherHomework`). The student GUI's other handlers are not part of this model.

## Findings

| source | as written | input that shows it | evidently intended | confidence | as-written member | corrected member |
|---|---|---|---|---|---|---|
| communication.py:82, :97 | the listener loops iterate `teacher_listeners.values()`, which are lists, and call each list | the student registers listeners for both events (student_gui.py:231-232), then a teacher sends `teacher_connect` with id "T1": the call at :82 raises TypeError, the `finally` pops "T1" and the loop at :97 raises again, so `client_socket.close()` at :100 never runs | call each listener registered for the event name, with the event and data | not executed | Server.ListenerBreaksHandshakeAsWritten, Server.StudentListenersBreakHandshakeAsWritten | Server.StudentListenersSeeHandshake, Server.Teardown, Server.StudentServer.HandleTeacher |
| teacher/teacher_gui.py:545 | `MessageStructure.homework_response` is called with four keyword arguments, but it takes one positional `homework_data` (communication.py:321) | any accepted `send_homework`: the homework is stored, then TypeError is raised; `except ImportError` does not catch it, so nothing is sent and the text is not cleared | build `homework_response({student_name, student_class, homeworks, teacher_message})` and send it | not executed | TeacherGui.SendHomeworkAsWritten | TeacherGui.SendHomework, TeacherGui.IntendedHomeworkShown |
| teacher/teacher_gui.py:312 | `MessageTypes.CLASS_LIST_RESPONSE` refers to the module's own `MessageTypes` (lines 15-22), which has no such attribute | constructing the window: `setup_message_handlers` raises AttributeError after registering two handlers; the error escapes `TeacherGUI.__init__` at :80, so `app = TeacherGUI()` at :975 raises and the teacher window never opens (no `class_list_response` could reach a handler either) | register `handle_class_list_response` under 'class_list_response' | not executed | TeacherGui.SetupMessageHandlersAsWritten, TeacherGui.ClassListUnhandledAsWritten | TeacherGui.SetupMessageHandlers, TeacherGui.ResponsesReachTheirHandlers |
