/** The in-memory store of data_manager.py (`DataManager`): homeworks,
    messages, classes and subjects, held in `self.data` and changed in place.
    Reading and writing the JSON file (`_load_data`, `save_data`) is an
    opaque effect: the model counts the calls to `save_data`. */
module Store {
  import opened Values
  import opened Text

  /** A stored homework dict (data_manager.py:82-90). */
  datatype Homework = Homework(id: int, subject: string, content: string, className: string,
                               teacher: string, timestamp: string, status: string)

  /** A stored message dict (data_manager.py:111-118). */
  datatype Message = Message(id: int, content: string, student: string, className: string,
                             timestamp: string, status: string)

  datatype StoreData = StoreData(homeworks: seq<Homework>, messages: seq<Message>,
                                 classes: seq<string>, subjects: seq<string>,
                                 classAssignments: map<string, string>)

  /** The result of `get_statistics`. */
  datatype Statistics = Statistics(homeworkCount: nat, messageCount: nat, classCount: nat,
                                   subjectStats: map<string, nat>, totalHomeworks: nat)

  const DEFAULT_TEACHER := "老师"
  const ACTIVE := "active"
  const DEFAULT_SUBJECTS: seq<string> := ["语文", "数学", "英语", "物理", "化学", "生物", "历史", "地理", "政治"]

  /** `_get_default_data` (data_manager.py:27-35). */
  function DefaultData(): (d: StoreData)
    ensures d.homeworks == [] && d.messages == [] && d.classes == [] && d.classAssignments == map[]
    ensures |d.subjects| == 9 && d.subjects[0] == "语文" && d.subjects[8] == "政治"
    ensures forall i, j :: 0 <= i < j < |d.subjects| ==> d.subjects[i] != d.subjects[j]
  {
    StoreData([], [], [], DEFAULT_SUBJECTS, map[])
  }

  /* ---------- filtering (the list comprehensions) ---------- */

  /** `[x for x in xs if p(x)]`. */
  function Filter<T>(xs: seq<T>, p: T -> bool): (r: seq<T>)
    ensures |r| <= |xs|
    ensures forall k :: 0 <= k < |r| ==> p(r[k])
  {
    if xs == [] then []
    else
      var rest := Filter(xs[1..], p);
      if p(xs[0]) then [xs[0]] + rest else rest
  }

  /** A filter keeps each element at most as often as the list holds it. */
  lemma {:induction false} FilterSubMultiset<T>(xs: seq<T>, p: T -> bool)
    ensures multiset(Filter(xs, p)) <= multiset(xs)
  {
    if xs != [] {
      FilterSubMultiset(xs[1..], p);
      assert xs == [xs[0]] + xs[1..];
    }
  }

  /** Filtering a list extended by one element extends the filtered list by
      that element exactly when it passes. */
  lemma {:induction false} FilterSnoc<T>(xs: seq<T>, x: T, p: T -> bool)
    ensures Filter(xs + [x], p) == Filter(xs, p) + (if p(x) then [x] else [])
  {
    FilterAppend(xs, [x], p);
    assert Filter([x], p) == (if p(x) then [x] else []) + Filter([], p) by {
      FilterCons(x, [], p);
      assert [x] + [] == [x];
    }
  }

  lemma {:induction false} FilterAppend<T>(xs: seq<T>, ys: seq<T>, p: T -> bool)
    ensures Filter(xs + ys, p) == Filter(xs, p) + Filter(ys, p)
  {
    if xs != [] {
      var zs := xs[1..];
      FilterAppend(zs, ys, p);
      assert xs + ys == [xs[0]] + (zs + ys);
      assert xs == [xs[0]] + zs;
      FilterCons(xs[0], zs + ys, p);
      FilterCons(xs[0], zs, p);
    } else {
      assert xs + ys == ys;
    }
  }

  lemma FilterCons<T>(x: T, xs: seq<T>, p: T -> bool)
    ensures Filter([x] + xs, p) == (if p(x) then [x] else []) + Filter(xs, p)
  {
    assert ([x] + xs)[1..] == xs;
  }

  /** A filter keeps every element that passes and nothing else. */
  lemma {:induction false} FilterMember<T>(xs: seq<T>, p: T -> bool, x: T)
    ensures x in Filter(xs, p) <==> x in xs && p(x)
  {
    if xs != [] {
      FilterMember(xs[1..], p, x);
      assert xs == [xs[0]] + xs[1..];
    }
  }

  /** Sorting keeps the same elements. */
  lemma SortDescMember<T>(xs: seq<T>, key: T -> string, x: T)
    ensures x in SortDesc(xs, key) <==> x in xs
  {
    assert x in SortDesc(xs, key) <==> x in multiset(SortDesc(xs, key));
    assert x in xs <==> x in multiset(xs);
  }

  /** A filter drops something exactly when some element fails the test;
      when nothing fails, the list comes back unchanged. */
  lemma {:induction false} FilterShrinksIffSomeFails<T>(xs: seq<T>, p: T -> bool)
    ensures |Filter(xs, p)| < |xs| <==> exists k :: 0 <= k < |xs| && !p(xs[k])
    ensures (forall k :: 0 <= k < |xs| ==> p(xs[k])) ==> Filter(xs, p) == xs
  {
    if xs != [] {
      FilterShrinksIffSomeFails(xs[1..], p);
      if !p(xs[0]) {
        assert exists k :: 0 <= k < |xs| && !p(xs[k]);
      } else if exists k :: 0 <= k < |xs| && !p(xs[k]) {
        var k :| 0 <= k < |xs| && !p(xs[k]);
        assert xs[1..][k - 1] == xs[k];
      }
      if forall k :: 0 <= k < |xs| ==> p(xs[k]) {
        assert forall k :: 0 <= k < |xs| - 1 ==> p(xs[1..][k]) by {
          forall k | 0 <= k < |xs| - 1 ensures p(xs[1..][k]) { assert xs[1..][k] == xs[k + 1]; }
        }
        assert xs == [xs[0]] + xs[1..];
      }
    }
  }

  /** The filter of `get_homeworks` (data_manager.py:99-103): a falsy
      class or subject (None, '') does not filter. */
  predicate HomeworkMatches(h: Homework, className: Value, subject: Value) {
    && (!Truthy(className) || VStr(h.className) == className)
    && (!Truthy(subject) || VStr(h.subject) == subject)
  }

  function FilterHomeworks(hws: seq<Homework>, className: Value, subject: Value): seq<Homework> {
    Filter(hws, (h: Homework) => HomeworkMatches(h, className, subject))
  }

  predicate MessageMatches(m: Message, className: Value) {
    !Truthy(className) || VStr(m.className) == className
  }

  function FilterMessages(ms: seq<Message>, className: Value): seq<Message> {
    Filter(ms, (m: Message) => MessageMatches(m, className))
  }

  /* ---------- newest-first ordering (list.sort(key=timestamp, reverse=True)) ---------- */

  /** Ordered by key, largest first. */
  ghost predicate SortedDesc<T>(xs: seq<T>, key: T -> string) {
    forall i, j :: 0 <= i < j < |xs| ==> LexLe(key(xs[j]), key(xs[i]))
  }

  /** Insert `x`, which came earlier in the input than everything in `xs`,
      before the first element whose key is not larger than its own: among
      equal keys the earlier element stays first, as in Python's stable
      `sort(reverse=True)`. */
  function InsertDesc<T>(x: T, xs: seq<T>, key: T -> string): (r: seq<T>)
    ensures multiset(r) == multiset(xs) + multiset{x}
    ensures |r| == |xs| + 1
  {
    if xs == [] then [x]
    else if LexLe(key(xs[0]), key(x)) then [x] + xs
    else
      assert xs == [xs[0]] + xs[1..];
      [xs[0]] + InsertDesc(x, xs[1..], key)
  }

  /** `xs.sort(key=key, reverse=True)`. */
  function SortDesc<T>(xs: seq<T>, key: T -> string): (r: seq<T>)
    ensures multiset(r) == multiset(xs)
    ensures |r| == |xs|
  {
    if xs == [] then []
    else
      assert xs == [xs[0]] + xs[1..];
      InsertDesc(xs[0], SortDesc(xs[1..], key), key)
  }

  lemma {:induction false} InsertDescSorted<T>(x: T, xs: seq<T>, key: T -> string)
    requires SortedDesc(xs, key)
    ensures SortedDesc(InsertDesc(x, xs, key), key)
    decreases |xs|
  {
    if xs == [] {
    } else if LexLe(key(xs[0]), key(x)) {
      InsertAtFrontSorted(x, xs, key);
    } else {
      LexLeTotal(key(xs[0]), key(x));
      InsertDescSorted(x, xs[1..], key);
      InsertBelowHeadSorted(x, xs, key);
    }
  }

  /** `x` goes first when no element of `xs` has a larger key. */
  lemma InsertAtFrontSorted<T>(x: T, xs: seq<T>, key: T -> string)
    requires SortedDesc(xs, key) && xs != [] && LexLe(key(xs[0]), key(x))
    ensures SortedDesc([x] + xs, key)
  {
    var r := [x] + xs;
    forall i, j | 0 <= i < j < |r| ensures LexLe(key(r[j]), key(r[i])) {
      if i == 0 && j > 1 {
        LexLeTransitive(key(xs[j - 1]), key(xs[0]), key(x));
      }
    }
  }

  /** Otherwise the head of `xs` stays first, above the sorted rest. */
  lemma InsertBelowHeadSorted<T>(x: T, xs: seq<T>, key: T -> string)
    requires SortedDesc(xs, key) && xs != [] && LexLe(key(x), key(xs[0]))
    requires SortedDesc(InsertDesc(x, xs[1..], key), key)
    ensures SortedDesc([xs[0]] + InsertDesc(x, xs[1..], key), key)
  {
    var t := InsertDesc(x, xs[1..], key);
    var r := [xs[0]] + t;
    assert forall k :: 0 <= k < |xs[1..]| ==> xs[1..][k] == xs[k + 1];
    InsertDescBounded(x, xs[1..], key, key(xs[0]));
    assert AllAtMost(t, key, key(xs[0]));
    forall i, j | 0 <= i < j < |r| ensures LexLe(key(r[j]), key(r[i])) {
      if i > 0 {
        assert r[i] == t[i - 1] && r[j] == t[j - 1];
      } else {
        assert r[j] == t[j - 1];
      }
    }
  }

  /** No element's key is larger than `bound`. */
  ghost predicate AllAtMost<T>(xs: seq<T>, key: T -> string, bound: string) {
    forall k :: 0 <= k < |xs| ==> LexLe(key(xs[k]), bound)
  }

  /** Inserting an element no larger than a bound into elements no larger
      than it keeps every element no larger than it. */
  lemma {:induction false} InsertDescBounded<T>(x: T, xs: seq<T>, key: T -> string, bound: string)
    requires AllAtMost(xs, key, bound) && LexLe(key(x), bound)
    ensures AllAtMost(InsertDesc(x, xs, key), key, bound)
    decreases |xs|
  {
    if xs == [] {
      assert InsertDesc(x, xs, key) == [x];
    } else if LexLe(key(xs[0]), key(x)) {
      var r := [x] + xs;
      assert InsertDesc(x, xs, key) == r;
      assert forall k :: 0 < k < |r| ==> r[k] == xs[k - 1];
    } else {
      var t := InsertDesc(x, xs[1..], key);
      assert forall k :: 0 <= k < |xs[1..]| ==> xs[1..][k] == xs[k + 1];
      InsertDescBounded(x, xs[1..], key, bound);
      var r := [xs[0]] + t;
      assert InsertDesc(x, xs, key) == r;
      assert forall k :: 0 < k < |r| ==> r[k] == t[k - 1];
    }
  }

  /** The sorted list is ordered newest first (larger timestamp strings first). */
  lemma {:induction false} SortDescSorted<T>(xs: seq<T>, key: T -> string)
    ensures SortedDesc(SortDesc(xs, key), key)
  {
    if xs != [] {
      SortDescSorted(xs[1..], key);
      InsertDescSorted(xs[0], SortDesc(xs[1..], key), key);
    }
  }

  /** The test "has sort key `k`". */
  function KeyIs<T>(key: T -> string, k: string): T -> bool {
    (y: T) => key(y) == k
  }

  /** Inserting `x` puts it after none of the elements with its own key:
      among the elements with any one key, the order is unchanged, and `x`
      comes first among those with its key. */
  lemma {:induction false} InsertDescStable<T>(x: T, ys: seq<T>, key: T -> string, k: string)
    ensures Filter(InsertDesc(x, ys, key), KeyIs(key, k)) ==
            (if key(x) == k then [x] else []) + Filter(ys, KeyIs(key, k))
    decreases |ys|
  {
    var p := KeyIs(key, k);
    if ys == [] {
      FilterCons(x, [], p);
    } else if LexLe(key(ys[0]), key(x)) {
      FilterCons(x, ys, p);
    } else {
      LexLeRefl(key(x));
      assert ys == [ys[0]] + ys[1..];
      FilterCons(ys[0], InsertDesc(x, ys[1..], key), p);
      FilterCons(ys[0], ys[1..], p);
      InsertDescStable(x, ys[1..], key, k);
    }
  }

  /** `list.sort` is stable, `reverse=True` included: the elements sharing a
      timestamp come out in the order they were stored. */
  lemma {:induction false} SortDescStable<T>(xs: seq<T>, key: T -> string, k: string)
    ensures Filter(SortDesc(xs, key), KeyIs(key, k)) == Filter(xs, KeyIs(key, k))
  {
    if xs != [] {
      assert xs == [xs[0]] + xs[1..];
      SortDescStable(xs[1..], key, k);
      InsertDescStable(xs[0], SortDesc(xs[1..], key), key, k);
      FilterCons(xs[0], xs[1..], KeyIs(key, k));
    }
  }

  function HomeworkTime(h: Homework): string { h.timestamp }
  function MessageTime(m: Message): string { m.timestamp }

  /** What `get_homeworks` returns (data_manager.py:95-107). */
  function HomeworksView(hws: seq<Homework>, className: Value, subject: Value): seq<Homework> {
    SortDesc(FilterHomeworks(hws, className, subject), HomeworkTime)
  }

  /** `get_homeworks` returns exactly the stored homeworks that pass both
      filters, each as often as it is stored, newest first
      (data_manager.py:95-107). */
  lemma HomeworksViewSpec(hws: seq<Homework>, className: Value, subject: Value)
    ensures multiset(HomeworksView(hws, className, subject)) == multiset(FilterHomeworks(hws, className, subject))
    ensures forall h :: h in HomeworksView(hws, className, subject) <==> h in hws && HomeworkMatches(h, className, subject)
    ensures SortedDesc(HomeworksView(hws, className, subject), HomeworkTime)
    ensures !Truthy(className) && !Truthy(subject) ==> multiset(HomeworksView(hws, className, subject)) == multiset(hws)
  {
    var p := (h: Homework) => HomeworkMatches(h, className, subject);
    SortDescSorted(Filter(hws, p), HomeworkTime);
    forall h ensures h in HomeworksView(hws, className, subject) <==> h in hws && HomeworkMatches(h, className, subject) {
      SortDescMember(Filter(hws, p), HomeworkTime, h);
      FilterMember(hws, p, h);
    }
    if !Truthy(className) && !Truthy(subject) {
      FilterShrinksIffSomeFails(hws, p);
    }
  }


  /** What `get_messages` returns (data_manager.py:123-132). */
  function MessagesView(ms: seq<Message>, className: Value): seq<Message> {
    SortDesc(FilterMessages(ms, className), MessageTime)
  }

  lemma MessagesViewSpec(ms: seq<Message>, className: Value)
    ensures multiset(MessagesView(ms, className)) == multiset(FilterMessages(ms, className))
    ensures forall m :: m in MessagesView(ms, className) <==> m in ms && MessageMatches(m, className)
    ensures SortedDesc(MessagesView(ms, className), MessageTime)
    ensures !Truthy(className) ==> multiset(MessagesView(ms, className)) == multiset(ms)
  {
    var p := (m: Message) => MessageMatches(m, className);
    SortDescSorted(Filter(ms, p), MessageTime);
    forall m ensures m in MessagesView(ms, className) <==> m in ms && MessageMatches(m, className) {
      SortDescMember(Filter(ms, p), MessageTime, m);
      FilterMember(ms, p, m);
    }
    if !Truthy(className) {
      FilterShrinksIffSomeFails(ms, p);
    }
  }

  /** Homeworks stored within the same second are listed by `get_homeworks`
      in the order they are stored. */
  lemma HomeworksViewStable(hws: seq<Homework>, className: Value, subject: Value, t: string)
    ensures Filter(HomeworksView(hws, className, subject), KeyIs(HomeworkTime, t)) ==
            Filter(FilterHomeworks(hws, className, subject), KeyIs(HomeworkTime, t))
  {
    SortDescStable(FilterHomeworks(hws, className, subject), HomeworkTime, t);
  }

  /** The same for `get_messages`. */
  lemma MessagesViewStable(ms: seq<Message>, className: Value, t: string)
    ensures Filter(MessagesView(ms, className), KeyIs(MessageTime, t)) ==
            Filter(FilterMessages(ms, className), KeyIs(MessageTime, t))
  {
    SortDescStable(FilterMessages(ms, className), MessageTime, t);
  }

  /** `get_homeworks` filters in two steps, first by class and then by
      subject; the two steps keep the same homeworks as the combined filter. */
  lemma {:induction false} FilterInTwoSteps(hws: seq<Homework>, className: Value, subject: Value)
    ensures FilterHomeworks(hws, className, subject) ==
            var a := if Truthy(className) then Filter(hws, (h: Homework) => VStr(h.className) == className) else hws;
            if Truthy(subject) then Filter(a, (h: Homework) => VStr(h.subject) == subject) else a
  {
    if hws != [] {
      FilterInTwoSteps(hws[1..], className, subject);
    }
  }

  /* ---------- add_homework ---------- */

  predicate SameSlot(h: Homework, subject: string, className: string) {
    h.subject == subject && h.className == className
  }

  /** The first stored homework with this subject and class, if any
      (the search loop of data_manager.py:64-68). */
  function FindSame(hws: seq<Homework>, subject: string, className: string): (r: Option<nat>)
    ensures r.Some? ==> r.value < |hws| && SameSlot(hws[r.value], subject, className)
    ensures r.Some? ==> forall k :: 0 <= k < r.value ==> !SameSlot(hws[k], subject, className)
    ensures r.None? ==> forall k :: 0 <= k < |hws| ==> !SameSlot(hws[k], subject, className)
  {
    if hws == [] then None
    else if SameSlot(hws[0], subject, className) then Some(0)
    else match FindSame(hws[1..], subject, className)
      case None => None
      case Some(k) => Some(k + 1)
  }

  datatype Added = Added(homeworks: seq<Homework>, homework: Homework)

  /** The homework list after `add_homework` and the dict it returns
      (data_manager.py:63-93). With overwrite, the first homework of the
      same subject and class is updated in place and returned: its id,
      subject and class stay, the length stays, nothing else moves.
      Otherwise a new homework with id `len + 1` is appended. */
  function AddHomeworkSpec(hws: seq<Homework>, subject: string, content: string, className: string,
                           teacher: string, overwrite: bool, timestamp: string, status: string): (r: Added)
    ensures overwrite && FindSame(hws, subject, className).Some? ==>
      var k := FindSame(hws, subject, className).value;
      && |r.homeworks| == |hws|
      && r.homework == r.homeworks[k]
      && r.homework.id == hws[k].id && r.homework.subject == subject && r.homework.className == className
      && r.homework.content == content && r.homework.teacher == teacher
      && r.homework.timestamp == timestamp && r.homework.status == status
      && (forall j :: 0 <= j < |hws| && j != k ==> r.homeworks[j] == hws[j])
    ensures !(overwrite && FindSame(hws, subject, className).Some?) ==>
      && r.homeworks == hws + [r.homework]
      && r.homework == Homework(|hws| + 1, subject, content, className, teacher, timestamp, status)
  {
    var found := if overwrite then FindSame(hws, subject, className) else None;
    match found
    case Some(k) =>
      var h := hws[k].(content := content, teacher := teacher, timestamp := timestamp, status := status);
      Added(hws[k := h], h)
    case None =>
      var h := Homework(|hws| + 1, subject, content, className, teacher, timestamp, status);
      Added(hws + [h], h)
  }

  /** Ids are `len + 1`, not fresh: after a deletion, the next append can
      reuse an id still in the list (data_manager.py:83 with :151). */
  lemma IdReusedAfterDelete()
    ensures var a := AddHomeworkSpec([], "数学", "p1", "1班", DEFAULT_TEACHER, true, "t1", ACTIVE);
            var b := AddHomeworkSpec(a.homeworks, "语文", "p2", "1班", DEFAULT_TEACHER, true, "t2", ACTIVE);
            var c := AddHomeworkSpec(WithoutHomework(b.homeworks, 1), "英语", "p3", "1班", DEFAULT_TEACHER, true, "t3", ACTIVE);
            |c.homeworks| == 2 && c.homeworks[0].id == 2 && c.homeworks[1].id == 2
  {
    var a := AddHomeworkSpec([], "数学", "p1", "1班", DEFAULT_TEACHER, true, "t1", ACTIVE);
    var b := AddHomeworkSpec(a.homeworks, "语文", "p2", "1班", DEFAULT_TEACHER, true, "t2", ACTIVE);
    var h1 := b.homeworks[1];
    assert b.homeworks == [b.homeworks[0], h1] && b.homeworks[0].id == 1 && h1.id == 2;
    assert b.homeworks[1..] == [h1] && [h1][1..] == [];
    assert WithoutHomework([h1], 1) == [h1];
    assert WithoutHomework(b.homeworks, 1) == [h1];
  }

  /* ---------- delete_homework / delete_message ---------- */

  /** The homework list after `delete_homework(id)` (data_manager.py:150-151). */
  function WithoutHomework(hws: seq<Homework>, id: int): seq<Homework> {
    Filter(hws, (h: Homework) => h.id != id)
  }

  /** The message list after `delete_message(id)` (data_manager.py:160-161). */
  function WithoutMessage(ms: seq<Message>, id: int): seq<Message> {
    Filter(ms, (m: Message) => m.id != id)
  }

  /** Deleting removes every homework with that id and keeps all others;
      the list shrinks (and `delete_homework` reports success) exactly when
      some homework had the id. */
  lemma DeleteHomeworkSpec(hws: seq<Homework>, id: int)
    ensures forall h :: h in WithoutHomework(hws, id) <==> h in hws && h.id != id
    ensures |WithoutHomework(hws, id)| < |hws| <==> exists k :: 0 <= k < |hws| && hws[k].id == id
  {
    var p := (h: Homework) => h.id != id;
    forall h ensures h in WithoutHomework(hws, id) <==> h in hws && h.id != id {
      FilterMember(hws, p, h);
    }
    FilterShrinksIffSomeFails(hws, p);
  }

  /** The same for messages. */
  lemma DeleteMessageSpec(ms: seq<Message>, id: int)
    ensures forall m :: m in WithoutMessage(ms, id) <==> m in ms && m.id != id
    ensures |WithoutMessage(ms, id)| < |ms| <==> exists k :: 0 <= k < |ms| && ms[k].id == id
  {
    var p := (m: Message) => m.id != id;
    forall m ensures m in WithoutMessage(ms, id) <==> m in ms && m.id != id {
      FilterMember(ms, p, m);
    }
    FilterShrinksIffSomeFails(ms, p);
  }

  /* ---------- add_class ---------- */

  /** The class list after `add_class` (data_manager.py:134-138). */
  function WithClass(classes: seq<string>, c: string): (r: seq<string>)
    ensures c in classes ==> r == classes
    ensures c !in classes ==> r == classes + [c]
    ensures forall x :: x in r <==> x in classes || x == c
  {
    if c in classes then classes else classes + [c]
  }

  /** Adding a class twice is adding it once, and a list without repeats
      stays without repeats. */
  lemma WithClassIdempotent(classes: seq<string>, c: string)
    ensures WithClass(WithClass(classes, c), c) == WithClass(classes, c)
    ensures (forall i, j :: 0 <= i < j < |classes| ==> classes[i] != classes[j]) ==>
            var r := WithClass(classes, c); forall i, j :: 0 <= i < j < |r| ==> r[i] != r[j]
  {
  }

  /* ---------- get_statistics ---------- */

  /** `len([h for h in homeworks if h["subject"] == s])`. */
  function CountSubject(hws: seq<Homework>, s: string): (n: nat)
    ensures n <= |hws|
  {
    if hws == [] then 0 else (if hws[0].subject == s then 1 else 0) + CountSubject(hws[1..], s)
  }

  /** The number of homeworks whose subject is in `subjects`. */
  function CountIn(hws: seq<Homework>, subjects: set<string>): (n: nat)
    ensures n <= |hws|
  {
    if hws == [] then 0 else (if hws[0].subject in subjects then 1 else 0) + CountIn(hws[1..], subjects)
  }

  /** Counting a further subject adds that subject's count: the sum of the
      per-subject counts over distinct subjects is the count over their set. */
  lemma {:induction false} CountInAddSubject(hws: seq<Homework>, seen: set<string>, s: string)
    requires s !in seen
    ensures CountIn(hws, seen + {s}) == CountIn(hws, seen) + CountSubject(hws, s)
  {
    if hws != [] {
      CountInAddSubject(hws[1..], seen, s);
    }
  }

  lemma {:induction false} CountInNone(hws: seq<Homework>)
    ensures CountIn(hws, {}) == 0
  {
    if hws != [] {
      CountInNone(hws[1..]);
    }
  }

  class DataManager {
    /** `self.data` */
    var data: StoreData
    /** How many times `save_data` has written the store out. */
    var saves: nat

    /** `__init__`: the loaded file, or the default structure when there is
        none or it cannot be read (data_manager.py:12-25). */
    constructor (loaded: Option<StoreData>)
      ensures data == loaded.GetOr(DefaultData()) && saves == 0
    {
      data := loaded.GetOr(DefaultData());
      saves := 0;
    }

    /** `add_homework` (data_manager.py:47-93). `None` parameters take the
        source's defaults: teacher '老师', status 'active', timestamp `now`. */
    method AddHomework(subject: string, content: string, className: string, teacherName: Option<string>,
                       overwrite: bool, timestamp: Option<string>, status: Option<string>, now: string)
      returns (hw: Homework)
      modifies this
      ensures var r := AddHomeworkSpec(old(data.homeworks), subject, content, className,
                                       teacherName.GetOr(DEFAULT_TEACHER), overwrite,
                                       timestamp.GetOr(now), status.GetOr(ACTIVE));
              data == old(data).(homeworks := r.homeworks) && hw == r.homework
      ensures saves == old(saves) + 1
    {
      var teacher := teacherName.GetOr(DEFAULT_TEACHER);
      var ts := timestamp.GetOr(now);
      var st := status.GetOr(ACTIVE);
      var hws := data.homeworks;
      if overwrite {
        var existing: Option<nat> := None;
        var i := 0;
        while i < |hws|
          invariant 0 <= i <= |hws|
          invariant existing.None? ==> forall k :: 0 <= k < i ==> !SameSlot(hws[k], subject, className)
          invariant existing.Some? ==> existing == FindSame(hws, subject, className)
          decreases if existing.Some? then 0 else |hws| - i
        {
          if hws[i].subject == subject && hws[i].className == className {
            existing := Some(i);
            FindSameFirst(hws, subject, className, i);
            break;
          }
          i := i + 1;
        }
        if existing.Some? {
          var k := existing.value;
          hw := hws[k].(content := content, teacher := teacher, timestamp := ts, status := st);
          data := data.(homeworks := hws[k := hw]);
          saves := saves + 1;
          return;
        }
      }
      hw := Homework(|hws| + 1, subject, content, className, teacher, ts, st);
      data := data.(homeworks := hws + [hw]);
      saves := saves + 1;
    }

    /** `get_homeworks` (data_manager.py:95-107). With no filter the stored
        list itself is sorted in place. */
    method GetHomeworks(className: Value, subject: Value) returns (r: seq<Homework>)
      modifies this
      ensures r == HomeworksView(old(data.homeworks), className, subject)
      ensures !Truthy(className) && !Truthy(subject) ==> data == old(data).(homeworks := r)
      ensures Truthy(className) || Truthy(subject) ==> data == old(data)
      ensures saves == old(saves)
    {
      var hws := data.homeworks;
      if Truthy(className) {
        hws := Filter(hws, (h: Homework) => VStr(h.className) == className);
      }
      if Truthy(subject) {
        hws := Filter(hws, (h: Homework) => VStr(h.subject) == subject);
      }
      FilterInTwoSteps(data.homeworks, className, subject);
      r := SortDesc(hws, HomeworkTime);
      if !Truthy(className) && !Truthy(subject) {
        data := data.(homeworks := r);
      }
    }

    /** `add_message` (data_manager.py:109-121). */
    method AddMessage(content: string, studentName: string, className: string, now: string) returns (m: Message)
      modifies this
      ensures m == Message(|old(data.messages)| + 1, content, studentName, className, now, ACTIVE)
      ensures data == old(data).(messages := old(data.messages) + [m])
      ensures saves == old(saves) + 1
    {
      m := Message(|data.messages| + 1, content, studentName, className, now, ACTIVE);
      data := data.(messages := data.messages + [m]);
      saves := saves + 1;
    }

    /** `get_messages` (data_manager.py:123-132). */
    method GetMessages(className: Value) returns (r: seq<Message>)
      modifies this
      ensures r == MessagesView(old(data.messages), className)
      ensures !Truthy(className) ==> data == old(data).(messages := r)
      ensures Truthy(className) ==> data == old(data)
      ensures saves == old(saves)
    {
      r := SortDesc(FilterMessages(data.messages, className), MessageTime);
      if !Truthy(className) {
        data := data.(messages := r);
      }
    }

    /** `add_class` (data_manager.py:134-138): saves only when it appends. */
    method AddClass(c: string)
      modifies this
      ensures data == old(data).(classes := WithClass(old(data.classes), c))
      ensures saves == old(saves) + (if c in old(data.classes) then 0 else 1)
    {
      if c !in data.classes {
        data := data.(classes := data.classes + [c]);
        saves := saves + 1;
      }
    }

    /** `get_classes` (data_manager.py:140-142). */
    method GetClasses() returns (r: seq<string>)
      ensures r == data.classes
    {
      r := data.classes;
    }

    /** `get_subjects` (data_manager.py:144-146). */
    method GetSubjects() returns (r: seq<string>)
      ensures r == data.subjects
    {
      r := data.subjects;
    }

    /** `delete_homework` (data_manager.py:148-156). */
    method DeleteHomework(id: int) returns (deleted: bool)
      modifies this
      ensures data == old(data).(homeworks := WithoutHomework(old(data.homeworks), id))
      ensures deleted == (|data.homeworks| < |old(data.homeworks)|)
      ensures saves == old(saves) + (if deleted then 1 else 0)
    {
      var originalCount := |data.homeworks|;
      data := data.(homeworks := WithoutHomework(data.homeworks, id));
      deleted := |data.homeworks| < originalCount;
      if deleted {
        saves := saves + 1;
      }
    }

    /** `delete_message` (data_manager.py:158-166). */
    method DeleteMessage(id: int) returns (deleted: bool)
      modifies this
      ensures data == old(data).(messages := WithoutMessage(old(data.messages), id))
      ensures deleted == (|data.messages| < |old(data.messages)|)
      ensures saves == old(saves) + (if deleted then 1 else 0)
    {
      var originalCount := |data.messages|;
      data := data.(messages := WithoutMessage(data.messages, id));
      deleted := |data.messages| < originalCount;
      if deleted {
        saves := saves + 1;
      }
    }

    /** `clear_all_data` (data_manager.py:168-171). */
    method ClearAllData()
      modifies this
      ensures data == DefaultData() && saves == old(saves) + 1
    {
      data := DefaultData();
      saves := saves + 1;
    }

    /** `get_statistics` (data_manager.py:173-191). `subject_stats` has one
        entry per known subject, and `total_homeworks`, the sum of its
        values, is the number of homeworks whose subject is known. */
    method GetStatistics() returns (st: Statistics)
      ensures st.homeworkCount == |data.homeworks|
      ensures st.messageCount == |data.messages|
      ensures st.classCount == |data.classes|
      ensures forall s :: s in st.subjectStats <==> s in data.subjects
      ensures forall s :: s in st.subjectStats ==> st.subjectStats[s] == CountSubject(data.homeworks, s)
      ensures st.totalHomeworks == CountIn(data.homeworks, st.subjectStats.Keys)
      ensures st.totalHomeworks <= st.homeworkCount
    {
      var hws := data.homeworks;
      var subjects := data.subjects;
      var stats: map<string, nat> := map[];
      var total := 0;
      CountInNone(hws);
      assert stats.Keys == {};
      for i := 0 to |subjects|
        invariant forall s :: s in stats <==> s in subjects[..i]
        invariant forall s :: s in stats ==> stats[s] == CountSubject(hws, s)
        invariant total == CountIn(hws, stats.Keys)
      {
        var s := subjects[i];
        var count := CountSubject(hws, s);
        if s !in stats {
          CountInAddSubject(hws, stats.Keys, s);
          total := total + count;
        } else {
          assert stats.Keys + {s} == stats.Keys;
        }
        assert stats[s := count].Keys == stats.Keys + {s};
        stats := stats[s := count];
        assert subjects[..i + 1] == subjects[..i] + [s];
      }
      assert subjects[..|subjects|] == subjects;
      st := Statistics(|hws|, |data.messages|, |data.classes|, stats, total);
    }

  }

  lemma FindSameFirst(hws: seq<Homework>, subject: string, className: string, i: nat)
    requires i < |hws| && SameSlot(hws[i], subject, className)
    requires forall k :: 0 <= k < i ==> !SameSlot(hws[k], subject, className)
    ensures FindSame(hws, subject, className) == Some(i)
  {
  }
}
