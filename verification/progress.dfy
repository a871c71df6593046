/** The upload-progress tracker: a progress record per task id, a list of
    bounded subscriber queues per task id, and the server-sent-event stream
    that drains one queue. Task ids, queue identities and clock readings are
    parameters (the source draws them from `uuid4`, object identity and
    `time.time()`); JSON rendering of a record is an abstract function. */
module Progress {
  import opened Wrappers

  datatype Status = Pending | Uploading | Converting | Indexing | Storing | Completed | Error

  /** The wire value of each status. */
  function StatusValue(s: Status): string {
    match s
    case Pending => "pending"
    case Uploading => "uploading"
    case Converting => "converting"
    case Indexing => "indexing"
    case Storing => "storing"
    case Completed => "completed"
    case Error => "error"
  }

  /** The statuses after which a stream closes. */
  predicate IsTerminal(s: Status) {
    s == Completed || s == Error
  }

  datatype ProgressUpdate = ProgressUpdate(
    taskId: string,
    status: Status,
    progress: real,
    currentStep: string,
    totalFiles: int,
    processedFiles: int,
    indexedPages: Option<int>,
    errorMessage: Option<string>,
    timestamp: real)

  /** `asyncio.Queue(maxsize=100)`. */
  const QueueCapacity: nat := 100

  /** A subscriber queue: its identity and the updates not yet read. */
  datatype Queue = Queue(id: nat, items: seq<ProgressUpdate>)

  /** `put_nowait` raises `QueueFull` exactly when the queue holds
      `maxsize` items. */
  predicate Full(q: Queue) {
    |q.items| >= QueueCapacity
  }

  function Push(q: Queue, u: ProgressUpdate): Queue {
    Queue(q.id, q.items + [u])
  }

  function Pop(q: Queue): Queue
    requires |q.items| > 0
  {
    Queue(q.id, q.items[..|q.items| - 1])
  }

  function Ids(qs: seq<Queue>): seq<nat> {
    seq(|qs|, i requires 0 <= i < |qs| => qs[i].id)
  }

  /** `a` is `b` with some elements deleted, the rest in their order. */
  ghost predicate Embeds<T>(a: seq<T>, b: seq<T>)
    decreases |b|
  {
    if |a| == 0 then true
    else if |b| == 0 then false
    else (a[|a| - 1] == b[|b| - 1] && Embeds(a[..|a| - 1], b[..|b| - 1]))
         || Embeds(a, b[..|b| - 1])
  }

  datatype Manager = Manager(
    tasks: map<string, ProgressUpdate>,
    subscribers: map<string, seq<Queue>>)

  /** The two maps always track the same task ids. */
  predicate Valid(m: Manager) {
    m.tasks.Keys == m.subscribers.Keys
  }

  /** Every record is stored under its own task id and no queue holds more
      than its capacity. */
  predicate WellFormed(m: Manager) {
    && Valid(m)
    && (forall t :: t in m.tasks ==> m.tasks[t].taskId == t)
    && (forall t, i :: t in m.subscribers && 0 <= i < |m.subscribers[t]| ==>
          |m.subscribers[t][i].items| <= QueueCapacity)
  }

  /** `ProgressManager()`: no tasks, no subscribers. */
  function NewManager(): (m: Manager)
    ensures WellFormed(m) && m.tasks.Keys == {}
  {
    Manager(map[], map[])
  }

  /** `create_task`: registers a PENDING record at 0% with no processed
      files and an empty subscriber list under the fresh id; every other
      task is untouched. */
  function CreateTask(m: Manager, taskId: string, totalFiles: int, now: real): (r: Manager)
    ensures r.tasks.Keys == m.tasks.Keys + {taskId}
    ensures r.subscribers.Keys == m.subscribers.Keys + {taskId}
    ensures Valid(m) ==> Valid(r)
    ensures WellFormed(m) ==> WellFormed(r)
    ensures var u := r.tasks[taskId];
      && u.taskId == taskId && u.status == Pending && u.progress == 0.0
      && u.totalFiles == totalFiles && u.processedFiles == 0
      && u.currentStep == "Initializing..." && u.timestamp == now
      && u.indexedPages == None && u.errorMessage == None
    ensures r.subscribers[taskId] == []
    ensures forall t :: t in m.tasks && t != taskId ==> r.tasks[t] == m.tasks[t]
    ensures forall t :: t in m.subscribers && t != taskId ==> r.subscribers[t] == m.subscribers[t]
  {
    var initial := ProgressUpdate(taskId, Pending, 0.0, "Initializing...", totalFiles, 0, None, None, now);
    Manager(m.tasks[taskId := initial], m.subscribers[taskId := []])
  }

  /** Python's `x or fallback` for an optional integer argument: `None` and
      `0` are falsy. */
  function OrInt(x: Option<int>, fallback: int): int {
    if x.Some? && x.value != 0 then x.value else fallback
  }

  function OrOptInt(x: Option<int>, fallback: Option<int>): Option<int> {
    if x.Some? && x.value != 0 then x else fallback
  }

  /** `_notify_subscribers` on one task's list: each queue with room gets
      the update appended; a full queue raises inside the loop and is
      dropped. Written as the loop runs, one queue at a time. */
  function Notify(qs: seq<Queue>, u: ProgressUpdate): (r: seq<Queue>)
    ensures |r| <= |qs|
    ensures forall q :: q in qs && !Full(q) ==> Push(q, u) in r
    ensures forall i :: 0 <= i < |r| ==>
      && |r[i].items| > 0 && r[i].items[|r[i].items| - 1] == u
      && Pop(r[i]) in qs && !Full(Pop(r[i]))
    ensures Embeds(Ids(r), Ids(qs))
    decreases |qs|
  {
    if |qs| == 0 then []
    else
      var front := Notify(qs[..|qs| - 1], u);
      var q := qs[|qs| - 1];
      NotifyStepOrder(qs, front, u);
      NotifyStepSurvivors(qs, front, u);
      NotifyStepCovers(qs, front, u);
      if Full(q) then front else front + [Push(q, u)]
  }

  /** One turn of the loop keeps the survivors in their original order. */
  lemma NotifyStepOrder(qs: seq<Queue>, front: seq<Queue>, u: ProgressUpdate)
    requires |qs| > 0
    requires Embeds(Ids(front), Ids(qs[..|qs| - 1]))
    ensures var q := qs[|qs| - 1];
      Embeds(Ids(if Full(q) then front else front + [Push(q, u)]), Ids(qs))
  {
    var q := qs[|qs| - 1];
    var b := Ids(qs);
    assert b[..|b| - 1] == Ids(qs[..|qs| - 1]);
    if !Full(q) {
      var a := Ids(front + [Push(q, u)]);
      assert a[..|a| - 1] == Ids(front);
    }
  }

  /** One turn of the loop: every survivor is a non-full input queue with
      the update appended. */
  lemma NotifyStepSurvivors(qs: seq<Queue>, front: seq<Queue>, u: ProgressUpdate)
    requires |qs| > 0
    requires forall i :: 0 <= i < |front| ==>
      && |front[i].items| > 0 && front[i].items[|front[i].items| - 1] == u
      && Pop(front[i]) in qs[..|qs| - 1] && !Full(Pop(front[i]))
    ensures var q := qs[|qs| - 1];
      var r := if Full(q) then front else front + [Push(q, u)];
      forall i :: 0 <= i < |r| ==>
        && |r[i].items| > 0 && r[i].items[|r[i].items| - 1] == u
        && Pop(r[i]) in qs && !Full(Pop(r[i]))
  {
    var q := qs[|qs| - 1];
    var r := if Full(q) then front else front + [Push(q, u)];
    forall i | 0 <= i < |r|
      ensures |r[i].items| > 0 && r[i].items[|r[i].items| - 1] == u
      ensures Pop(r[i]) in qs && !Full(Pop(r[i]))
    {
      if i < |front| {
        assert r[i] == front[i];
        var x := Pop(front[i]);
        assert x in qs[..|qs| - 1];
        var j :| 0 <= j < |qs| - 1 && qs[..|qs| - 1][j] == x;
        assert qs[j] == x;
      } else {
        var p := Push(q, u);
        assert r[i] == p;
        assert p.items[..|p.items| - 1] == q.items;
        assert Pop(p) == q;
      }
    }
  }

  /** One turn of the loop: every non-full input queue survives. */
  lemma NotifyStepCovers(qs: seq<Queue>, front: seq<Queue>, u: ProgressUpdate)
    requires |qs| > 0
    requires forall q :: q in qs[..|qs| - 1] && !Full(q) ==> Push(q, u) in front
    ensures var q := qs[|qs| - 1];
      var r := if Full(q) then front else front + [Push(q, u)];
      forall q' :: q' in qs && !Full(q') ==> Push(q', u) in r
  {
    assert forall q' :: q' in qs ==> q' in qs[..|qs| - 1] || q' == qs[|qs| - 1];
  }

  /** A dropped queue is really gone: no survivor is the full queue with the
      update appended. */
  lemma NotifyDropsFull(qs: seq<Queue>, u: ProgressUpdate, q: Queue)
    requires q in qs && Full(q)
    ensures Push(q, u) !in Notify(qs, u)
  {
    var r := Notify(qs, u);
    var p := Push(q, u);
    assert p.items[..|p.items| - 1] == q.items;
    assert |p.items| > 0 && Pop(p) == q;
  }

  /** `update_progress`: for a known task, replaces the record (keeping the
      old `total_files`, falling back to the old `processed_files` and
      `indexed_pages` when the new value is `None` or `0`, and replacing the
      error message outright) and notifies the task's subscribers. For an
      unknown task nothing changes. */
  function UpdateProgress(m: Manager, taskId: string, status: Status, progress: real,
                          currentStep: string, processedFiles: Option<int>,
                          indexedPages: Option<int>, errorMessage: Option<string>,
                          now: real): (r: Manager)
    ensures taskId !in m.tasks ==> r == m
    ensures r.tasks.Keys == m.tasks.Keys && r.subscribers.Keys == m.subscribers.Keys
    ensures WellFormed(m) ==> WellFormed(r)
    ensures taskId in m.tasks ==>
      var old_ := m.tasks[taskId];
      var u := r.tasks[taskId];
      && u.taskId == taskId && u.status == status && u.progress == progress
      && u.currentStep == currentStep
      && u.totalFiles == old_.totalFiles
      && ((processedFiles == None || processedFiles == Some(0)) ==> u.processedFiles == old_.processedFiles)
      && (processedFiles.Some? && processedFiles.value != 0 ==> u.processedFiles == processedFiles.value)
      && ((indexedPages == None || indexedPages == Some(0)) ==> u.indexedPages == old_.indexedPages)
      && (indexedPages.Some? && indexedPages.value != 0 ==> u.indexedPages == indexedPages)
      && u.errorMessage == errorMessage
    ensures taskId in m.tasks && taskId in m.subscribers ==>
      r.subscribers[taskId] == Notify(m.subscribers[taskId], r.tasks[taskId])
    ensures forall t :: t in m.tasks && t != taskId ==> r.tasks[t] == m.tasks[t]
    ensures forall t :: t in m.subscribers && t != taskId ==> r.subscribers[t] == m.subscribers[t]
  {
    if taskId !in m.tasks then m
    else
      var cur := m.tasks[taskId];
      var u := ProgressUpdate(taskId, status, progress, currentStep, cur.totalFiles,
                              OrInt(processedFiles, cur.processedFiles),
                              OrOptInt(indexedPages, cur.indexedPages),
                              errorMessage, now);
      var subs := if taskId in m.subscribers
                  then NotifyBounded(m, taskId, u); m.subscribers[taskId := Notify(m.subscribers[taskId], u)]
                  else m.subscribers;
      Manager(m.tasks[taskId := u], subs)
  }

  lemma NotifyBounded(m: Manager, taskId: string, u: ProgressUpdate)
    requires taskId in m.subscribers
    ensures forall i :: 0 <= i < |Notify(m.subscribers[taskId], u)| ==>
      |Notify(m.subscribers[taskId], u)[i].items| <= QueueCapacity
  {
    var r := Notify(m.subscribers[taskId], u);
    forall i | 0 <= i < |r|
      ensures |r[i].items| <= QueueCapacity
    {
      assert |Pop(r[i]).items| == |r[i].items| - 1;
    }
  }

  /** `subscribe`: `None` for an unknown task; otherwise a fresh queue
      already holding the current record is appended to the task's list. */
  function Subscribe(m: Manager, taskId: string, queueId: nat): (r: (Manager, Option<Queue>))
    ensures taskId !in m.subscribers ==> r == (m, None)
    ensures taskId in m.subscribers ==>
      && r.1.Some? && r.1.value.id == queueId && taskId in r.0.subscribers
      && r.0.subscribers[taskId] == m.subscribers[taskId] + [r.1.value]
      && (taskId in m.tasks ==> r.1.value.items == [m.tasks[taskId]])
    ensures r.0.tasks == m.tasks && r.0.subscribers.Keys == m.subscribers.Keys
    ensures WellFormed(m) ==> WellFormed(r.0)
    ensures forall t :: t in m.subscribers && t != taskId ==> r.0.subscribers[t] == m.subscribers[t]
  {
    if taskId !in m.subscribers then (m, None)
    else
      var q := Queue(queueId, if taskId in m.tasks then [m.tasks[taskId]] else []);
      (Manager(m.tasks, m.subscribers[taskId := m.subscribers[taskId] + [q]]), Some(q))
  }

  /** `get_progress`: the record stored for the id, if any; on a
      well-formed manager it is the task's own record and exists exactly
      when the task has a subscriber list. */
  function GetProgress(m: Manager, taskId: string): (r: Option<ProgressUpdate>)
    ensures r.Some? <==> taskId in m.tasks
    ensures r.Some? ==> r.value == m.tasks[taskId]
    ensures WellFormed(m) ==> (r.Some? <==> taskId in m.subscribers)
    ensures WellFormed(m) && r.Some? ==> r.value.taskId == taskId
  {
    if taskId in m.tasks then Some(m.tasks[taskId]) else None
  }

  /** The record read back right after an update is the update itself:
      the new status, progress and step, with the old total. */
  lemma UpdateThenGet(m: Manager, taskId: string, status: Status, progress: real,
                      currentStep: string, processedFiles: Option<int>,
                      indexedPages: Option<int>, errorMessage: Option<string>, now: real)
    requires taskId in m.tasks
    ensures var g := GetProgress(UpdateProgress(m, taskId, status, progress, currentStep,
                                                processedFiles, indexedPages, errorMessage, now), taskId);
      && g.Some? && g.value.status == status && g.value.progress == progress
      && g.value.currentStep == currentStep && g.value.errorMessage == errorMessage
      && g.value.totalFiles == m.tasks[taskId].totalFiles
  {
  }

  /** The position of the first queue with identity `id`, if any. */
  function FindQueue(qs: seq<Queue>, id: nat): (r: Option<nat>)
    ensures r.Some? ==> r.value < |qs| && qs[r.value].id == id
    ensures r.Some? ==> forall j :: 0 <= j < r.value ==> qs[j].id != id
    ensures r.None? ==> forall j :: 0 <= j < |qs| ==> qs[j].id != id
  {
    if |qs| == 0 then None
    else if qs[0].id == id then Some(0)
    else match FindQueue(qs[1..], id)
      case None => None
      case Some(j) => Some(j + 1)
  }

  /** The stream consumer's `queue.get()` on a subscribed queue: the oldest
      update leaves the queue and is returned. An empty queue blocks, which
      changes nothing here; a queue already dropped from the list is no
      longer the tracker's concern. */
  function Receive(m: Manager, taskId: string, queueId: nat): (r: (Manager, Option<ProgressUpdate>))
    ensures r.0.tasks == m.tasks && r.0.subscribers.Keys == m.subscribers.Keys
    ensures r.1.None? ==> r.0 == m
    ensures taskId in m.subscribers && FindQueue(m.subscribers[taskId], queueId).Some? ==>
      var qs := m.subscribers[taskId];
      var i := FindQueue(qs, queueId).value;
      |qs[i].items| > 0 ==>
        && r.1 == Some(qs[i].items[0])
        && r.0.subscribers[taskId] == qs[i := Queue(queueId, qs[i].items[1..])]
    ensures r.1.Some? <==>
      taskId in m.subscribers && FindQueue(m.subscribers[taskId], queueId).Some?
      && |m.subscribers[taskId][FindQueue(m.subscribers[taskId], queueId).value].items| > 0
    ensures forall t :: t in m.subscribers && t != taskId ==> r.0.subscribers[t] == m.subscribers[t]
    ensures WellFormed(m) ==> WellFormed(r.0)
  {
    if taskId !in m.subscribers then (m, None)
    else
      var qs := m.subscribers[taskId];
      match FindQueue(qs, queueId)
      case None => (m, None)
      case Some(i) =>
        if |qs[i].items| == 0 then (m, None)
        else
          var qs' := qs[i := Queue(queueId, qs[i].items[1..])];
          assert forall j :: 0 <= j < |qs'| ==> |qs'[j].items| <= |qs[j].items|;
          (Manager(m.tasks, m.subscribers[taskId := qs']), Some(qs[i].items[0]))
  }

  /** A fresh subscriber's first read is the task's current record. */
  lemma SubscribeThenReceive(m: Manager, taskId: string, queueId: nat)
    requires taskId in m.tasks && taskId in m.subscribers
    requires forall j :: 0 <= j < |m.subscribers[taskId]| ==> m.subscribers[taskId][j].id != queueId
    ensures Receive(Subscribe(m, taskId, queueId).0, taskId, queueId).1 == Some(m.tasks[taskId])
  {
    var m' := Subscribe(m, taskId, queueId).0;
    var qs := m'.subscribers[taskId];
    var n := |m.subscribers[taskId]|;
    assert qs[n].id == queueId;
    assert forall j :: 0 <= j < n ==> qs[j] == m.subscribers[taskId][j];
    FindQueueAt(qs, queueId, n);
  }

  /** The first queue with the identity is found. */
  lemma FindQueueAt(qs: seq<Queue>, id: nat, n: nat)
    requires n < |qs| && qs[n].id == id
    requires forall j :: 0 <= j < n ==> qs[j].id != id
    ensures FindQueue(qs, id) == Some(n)
  {
  }

  /** A subscriber that reads an update makes room: the next update on the
      task keeps the queue and delivers to it, however many updates went
      before. */
  lemma ReceiveKeepsSubscriber(m: Manager, taskId: string, queueId: nat, status: Status, progress: real,
                               step: string, processed: Option<int>, pages: Option<int>,
                               error: Option<string>, now: real)
    requires WellFormed(m) && taskId in m.tasks
    requires Receive(m, taskId, queueId).1.Some?
    ensures var m1 := Receive(m, taskId, queueId).0;
      var qs := m1.subscribers[taskId];
      var m2 := UpdateProgress(m1, taskId, status, progress, step, processed, pages, error, now);
      && FindQueue(qs, queueId).Some?
      && Push(qs[FindQueue(qs, queueId).value], m2.tasks[taskId]) in m2.subscribers[taskId]
  {
    var qs0 := m.subscribers[taskId];
    var i := FindQueue(qs0, queueId).value;
    var m1 := Receive(m, taskId, queueId).0;
    var qs := m1.subscribers[taskId];
    assert qs == qs0[i := Queue(queueId, qs0[i].items[1..])];
    assert forall j :: 0 <= j < i ==> qs[j] == qs0[j];
    FindQueueAt(qs, queueId, i);
    assert |qs0[i].items| <= QueueCapacity;
    assert !Full(qs[i]);
  }

  /** `cleanup_task`: the id leaves both maps; everything else stays. */
  function CleanupTask(m: Manager, taskId: string): (r: Manager)
    ensures r.tasks.Keys == m.tasks.Keys - {taskId}
    ensures r.subscribers.Keys == m.subscribers.Keys - {taskId}
    ensures Valid(m) ==> Valid(r)
    ensures WellFormed(m) ==> WellFormed(r)
    ensures forall t :: t in r.tasks ==> r.tasks[t] == m.tasks[t]
    ensures forall t :: t in r.subscribers ==> r.subscribers[t] == m.subscribers[t]
  {
    Manager(m.tasks - {taskId}, m.subscribers - {taskId})
  }

  /** After any sequence of the tracker's operations from a fresh manager,
      the task map and the subscriber map have the same keys. */
  datatype Op =
    | Create(taskId: string, totalFiles: int, now: real)
    | Update(taskId: string, status: Status, progress: real, step: string,
             processed: Option<int>, pages: Option<int>, error: Option<string>, now: real)
    | Sub(taskId: string, queueId: nat)
    | Read(taskId: string, queueId: nat)
    | Cleanup(taskId: string)

  function Apply(m: Manager, op: Op): Manager {
    match op
    case Create(t, n, now) => CreateTask(m, t, n, now)
    case Update(t, s, p, step, f, pg, e, now) => UpdateProgress(m, t, s, p, step, f, pg, e, now)
    case Sub(t, q) => Subscribe(m, t, q).0
    case Read(t, q) => Receive(m, t, q).0
    case Cleanup(t) => CleanupTask(m, t)
  }

  function Run(m: Manager, ops: seq<Op>): Manager
    decreases |ops|
  {
    if |ops| == 0 then m else Run(Apply(m, ops[0]), ops[1..])
  }

  lemma {:induction false} RunKeepsWellFormed(m: Manager, ops: seq<Op>)
    requires WellFormed(m)
    ensures WellFormed(Run(m, ops))
    ensures Run(m, ops).tasks.Keys == Run(m, ops).subscribers.Keys
    decreases |ops|
  {
    if |ops| > 0 {
      RunKeepsWellFormed(Apply(m, ops[0]), ops[1..]);
    }
  }

  // -----------------------------------------------------------------------
  // The server-sent-event stream
  // -----------------------------------------------------------------------

  /** What one wait on the queue yields: an update, or the 30-second
      timeout. */
  datatype StreamEvent = Delivered(update: ProgressUpdate) | TimedOut

  /** text/event-stream framing: one `data:` line and a blank line. */
  function Frame(payload: string): string {
    "data: " + payload + "\n\n"
  }

  const HeartbeatPayload: string := "{\"type\": \"heartbeat\"}"

  predicate EndsStream(e: StreamEvent) {
    e.Delivered? && IsTerminal(e.update.status)
  }

  function EventPayload(e: StreamEvent, toJson: ProgressUpdate -> string): string {
    match e
    case Delivered(u) => toJson(u)
    case TimedOut => HeartbeatPayload
  }

  /** The loop of `generate_sse_stream`: one frame per event, stopping right
      after the first COMPLETED or ERROR update. */
  function Stream(events: seq<StreamEvent>, toJson: ProgressUpdate -> string): (frames: seq<string>)
    ensures |frames| <= |events|
    ensures FramesOf(events, frames, toJson)
    ensures NoEndBefore(events, |frames| - 1)
    ensures |frames| < |events| ==> |frames| > 0 && EndsStream(events[|frames| - 1])
    decreases |events|
  {
    if |events| == 0 then []
    else
      var head := [Frame(EventPayload(events[0], toJson))];
      if EndsStream(events[0]) then head
      else
        var tail := events[1..];
        var rest := Stream(tail, toJson);
        FramesShift(events, toJson, rest);
        head + rest
  }

  /** `frames[i]` is the frame of `events[i]`, for every frame. */
  predicate FramesOf(events: seq<StreamEvent>, frames: seq<string>, toJson: ProgressUpdate -> string)
    requires |frames| <= |events|
  {
    forall i :: 0 <= i < |frames| ==> frames[i] == Frame(EventPayload(events[i], toJson))
  }

  /** None of the first `n` events ends the stream. */
  predicate NoEndBefore(events: seq<StreamEvent>, n: int)
    requires n <= |events|
  {
    forall i :: 0 <= i < n ==> !EndsStream(events[i])
  }

  /** The step of `Stream` past an event that does not end it. */
  lemma FramesShift(events: seq<StreamEvent>, toJson: ProgressUpdate -> string, rest: seq<string>)
    requires |events| > 0 && !EndsStream(events[0]) && |rest| <= |events| - 1
    requires FramesOf(events[1..], rest, toJson) && NoEndBefore(events[1..], |rest| - 1)
    ensures var frames := [Frame(EventPayload(events[0], toJson))] + rest;
      FramesOf(events, frames, toJson) && NoEndBefore(events, |frames| - 1)
  {
    var frames := [Frame(EventPayload(events[0], toJson))] + rest;
    forall i | 0 <= i < |frames| ensures frames[i] == Frame(EventPayload(events[i], toJson)) {
      if i > 0 {
        assert frames[i] == rest[i - 1];
        assert events[1..][i - 1] == events[i];
      }
    }
    forall i | 0 <= i < |frames| - 1 ensures !EndsStream(events[i]) {
      if i > 0 {
        assert events[1..][i - 1] == events[i];
      }
    }
  }

  /** `generate_sse_stream(task_id)`: subscribes a fresh queue and streams
      what it delivers, starting with the record the queue was seeded with;
      an unknown task gives an empty stream. */
  function SseStream(m: Manager, taskId: string, queueId: nat,
                     later: seq<StreamEvent>, toJson: ProgressUpdate -> string): seq<string>
  {
    var (_, q) := Subscribe(m, taskId, queueId);
    match q
    case None => []
    case Some(queue) =>
      Stream(seq(|queue.items|, i requires 0 <= i < |queue.items| => Delivered(queue.items[i])) + later, toJson)
  }

  /** The first frame of a stream on a known task is the task's current
      record, and a task that already finished yields that one frame only. */
  lemma SseStreamStartsWithCurrent(m: Manager, taskId: string, queueId: nat,
                                   later: seq<StreamEvent>, toJson: ProgressUpdate -> string)
    requires Valid(m) && taskId in m.tasks
    ensures var frames := SseStream(m, taskId, queueId, later, toJson);
      && |frames| >= 1
      && frames[0] == Frame(toJson(m.tasks[taskId]))
      && (IsTerminal(m.tasks[taskId].status) ==> |frames| == 1)
  {
    var events := [Delivered(m.tasks[taskId])] + later;
    assert events[0] == Delivered(m.tasks[taskId]);
  }

  /** A stream on an unknown task is empty. */
  lemma SseStreamUnknownTask(m: Manager, taskId: string, queueId: nat,
                             later: seq<StreamEvent>, toJson: ProgressUpdate -> string)
    requires Valid(m) && taskId !in m.tasks
    ensures SseStream(m, taskId, queueId, later, toJson) == []
  {
  }
}
