/** The job registry, the progress emitters, the progress subscriptions and
    the download queue of server.js, as a state machine over values. Each
    function below is one event the server reacts to; the class in
    server.dfy performs the same steps in place. */
module Jobs {
  import opened Wrappers
  import Request
  import Stderr
  import Sse

  /** `new PQueue({ concurrency: 2 })`: at most two downloads run at once. */
  const Concurrency: nat := 2

  /** The `id` query value, or the generated identifier. */
  type JobId = string

  /** An admitted download. Every admission creates exactly one emitter, so
      the same number names the queued task and its emitter. */
  type TaskId = nat

  /** One `GET /api/progress/:id` response that found its job. */
  type SubId = nat

  /** The values the queued closure captures. The job id is there for the
      intended close handler; the handler as written cannot reach it. */
  datatype Task = Task(id: JobId, url: string, fmt: Option<string>, audio: Option<string>)

  /** A started `doDownload`: its argument object, its `filename` variable,
      the headers it set on the response, and whether its process closed. */
  datatype Run = Run(args: Request.Args, filename: string, headers: Request.Headers, closed: bool)

  /** A progress response: the emitter it attached to, the events written to
      it so far, and whether its client is still connected. */
  datatype Stream = Stream(emitter: TaskId, events: seq<Sse.Event>, connected: bool)

  datatype State = State(
    jobs: map<JobId, TaskId>,     // the `jobs` map: id to emitter
    listeners: seq<seq<SubId>>,   // per emitter, the attached `send` listeners in order
    streams: seq<Stream>,         // per progress response
    tasks: seq<Task>,             // per admitted download
    waiting: seq<TaskId>,         // the queue's backlog
    pending: set<TaskId>,         // started downloads whose promise has not settled
    runs: seq<Run>,               // started downloads, by task
    uncaught: seq<TaskId>)        // downloads whose close handler threw

  /** What a request handler answers at once. `Accepted` means the download
      response is held open; its headers are written when the download starts. */
  datatype Reply = BadRequest(error: string) | NotFound | EventStream | Accepted

  function Init(): State {
    State(map[], [], [], [], [], {}, [], [])
  }

  // ------------------------------------------------------------ invariant

  /** Every registered id names an existing emitter. */
  ghost predicate RegistryOk(s: State) {
    && |s.listeners| == |s.tasks|
    && (forall id :: id in s.jobs ==> s.jobs[id] < |s.tasks|)
  }

  /** An emitter's listeners are exactly the connected responses attached to
      it, each once. */
  ghost predicate ListenersOk(s: State) {
    && (forall e, k :: 0 <= e < |s.listeners| && 0 <= k < |s.listeners[e]| ==>
          s.listeners[e][k] < |s.streams|
          && s.streams[s.listeners[e][k]].emitter == e
          && s.streams[s.listeners[e][k]].connected)
    && (forall e :: 0 <= e < |s.listeners| ==> Distinct(s.listeners[e]))
    && (forall sub :: 0 <= sub < |s.streams| ==>
          s.streams[sub].emitter < |s.listeners|
          && (s.streams[sub].connected ==> sub in s.listeners[s.streams[sub].emitter]))
  }

  /** The queue is first in, first out: the downloads started so far are
      exactly the earliest ones and the rest wait in arrival order. At most
      `Concurrency` started downloads are unsettled, and nothing waits while
      a slot is free. */
  ghost predicate QueueOk(s: State) {
    && |s.runs| + |s.waiting| == |s.tasks|
    && (forall k :: 0 <= k < |s.waiting| ==> s.waiting[k] == |s.runs| + k)
    && (forall t :: t in s.pending ==> t < |s.runs|)
    && |s.pending| <= Concurrency
    && (s.waiting != [] ==> |s.pending| == Concurrency)
  }

  /** The run of a download has the arguments and headers its query values
      call for (the headers with the default file name), and its file name
      has no slash in it. */
  ghost predicate RunMatches(run: Run, task: Task) {
    && run.args == Request.ExtractorArgs(task.fmt, task.audio)
    && run.headers == Request.ResponseHeaders(Request.DefaultFilename(task.audio), task.audio)
    && '/' !in run.filename
  }

  ghost predicate RunsOk(s: State) {
    && |s.runs| <= |s.tasks|
    && forall t :: 0 <= t < |s.runs| ==> RunMatches(s.runs[t], s.tasks[t])
  }

  /** A response receives `done` at most once, as its last event, and only
      from a download whose process has closed. */
  ghost predicate TerminalOk(s: State) {
    forall sub, k :: 0 <= sub < |s.streams| && 0 <= k < |s.streams[sub].events| && s.streams[sub].events[k] == Sse.Done ==>
      k == |s.streams[sub].events| - 1
      && s.streams[sub].emitter < |s.runs|
      && s.runs[s.streams[sub].emitter].closed
  }

  ghost predicate Valid(s: State) {
    RegistryOk(s) && ListenersOk(s) && QueueOk(s) && RunsOk(s) && TerminalOk(s)
  }

  lemma InitValid()
    ensures Valid(Init())
  {
  }

  // ---------------------------------------------------------- the queue

  /** The queue starts task t: `doDownload` builds the arguments, picks the
      default file name and sets the headers, all before any output of the
      extractor can have been read. */
  function Start(s: State, t: TaskId): State
    requires t < |s.tasks|
  {
    var task := s.tasks[t];
    var name := Request.DefaultFilename(task.audio);
    var run := Run(Request.ExtractorArgs(task.fmt, task.audio), name, Request.ResponseHeaders(name, task.audio), false);
    s.(pending := s.pending + {t}, runs := s.runs + [run])
  }

  /** `queue.add`: start at once when a slot is free, otherwise wait. */
  function Enqueue(s: State, t: TaskId): State
    requires t < |s.tasks|
  {
    if |s.pending| < Concurrency then Start(s, t) else s.(waiting := s.waiting + [t])
  }

  ghost predicate WaitingInRange(s: State) {
    forall k :: 0 <= k < |s.waiting| ==> s.waiting[k] < |s.tasks|
  }

  /** Task t's promise settles: its slot is freed and the oldest waiting task,
      if any, is started. */
  function Settle(s: State, t: TaskId): State
    requires WaitingInRange(s)
  {
    var s1 := s.(pending := s.pending - {t});
    if s1.waiting == [] then s1 else Start(s1.(waiting := s1.waiting[1..]), s1.waiting[0])
  }

  /** Every response attached to emitter e receives event ev. */
  function Emit(s: State, e: TaskId, ev: Sse.Event): (s': State)
    requires e < |s.listeners|
    ensures s'.jobs == s.jobs && s'.listeners == s.listeners && s'.tasks == s.tasks
    ensures s'.waiting == s.waiting && s'.pending == s.pending && s'.runs == s.runs && s'.uncaught == s.uncaught
    ensures |s'.streams| == |s.streams|
    ensures forall i :: 0 <= i < |s.streams| ==>
      s'.streams[i].emitter == s.streams[i].emitter && s'.streams[i].connected == s.streams[i].connected
      && s'.streams[i].events == if i in s.listeners[e] then s.streams[i].events + [ev] else s.streams[i].events
  {
    var streams := seq(|s.streams|, i requires 0 <= i < |s.streams| =>
      if i in s.listeners[e] then s.streams[i].(events := s.streams[i].events + [ev]) else s.streams[i]);
    s.(streams := streams)
  }

  // ----------------------------------------------------------- the events

  /** The state with the download registered under the given id (or a
      generated one), replacing any earlier entry, but not yet handed to the
      queue. */
  function Registered(s: State, url: Option<string>, id: Option<string>, freshId: JobId,
                      fmt: Option<string>, audio: Option<string>): State
    requires Request.OkUrlQuery(url)
  {
    var key := if Request.Truthy(id) then id.value else freshId;
    s.(jobs := s.jobs[key := |s.tasks|], listeners := s.listeners + [[]],
       tasks := s.tasks + [Task(key, url.value, fmt, audio)])
  }

  /** `GET /api/download`: check the URL, register a fresh emitter and hand
      the download to the queue. */
  function Admit(s: State, url: Option<string>, id: Option<string>, freshId: JobId,
                 fmt: Option<string>, audio: Option<string>): State
  {
    if !Request.OkUrlQuery(url) then s
    else Enqueue(Registered(s, url, id, freshId, fmt, audio), |s.tasks|)
  }

  function AdmitReply(url: Option<string>): Reply {
    if !Request.OkUrlQuery(url) then BadRequest("url tak valid") else Accepted
  }

  /** `GET /api/progress/:id`: an unknown id is answered 404; a known one gets
      an event stream whose `send` listens for both `progress` and `done`. */
  function Subscribe(s: State, id: JobId): State
    requires RegistryOk(s)
  {
    if id !in s.jobs then s
    else
      var e := s.jobs[id];
      var sub := |s.streams|;
      s.(streams := s.streams + [Stream(e, [], true)],
         listeners := s.listeners[e := s.listeners[e] + [sub]])
  }

  function SubscribeReply(s: State, id: JobId): Reply {
    if id in s.jobs then EventStream else NotFound
  }

  predicate Distinct(l: seq<SubId>) {
    forall j, k :: 0 <= j < k < |l| ==> l[j] != l[k]
  }

  /** `l` without `x`; `off` removes the one registration `x` has. */
  function Without(l: seq<SubId>, x: SubId): (r: seq<SubId>)
    ensures forall y :: y in r <==> y in l && y != x
    ensures Distinct(l) ==> Distinct(r)
  {
    if l == [] then []
    else
      var r := Without(l[1..], x);
      if l[0] == x then r
      else
        assert Distinct(l) ==> l[0] !in r && Distinct([l[0]] + r) by {
          if Distinct(l) {
            assert forall k :: 0 <= k < |l[1..]| ==> l[1..][k] == l[k + 1];
            var c := [l[0]] + r;
            forall j, k | 0 <= j < k < |c| ensures c[j] != c[k] {
              if j == 0 {
                assert c[k] in r;
              } else {
                assert c[j] == r[j - 1] && c[k] == r[k - 1];
              }
            }
          }
        }
        [l[0]] + r
  }

  /** The progress client disconnects: its listener is removed. */
  function Unsubscribe(s: State, sub: SubId): State
    requires ListenersOk(s)
  {
    if sub >= |s.streams| || !s.streams[sub].connected then s
    else
      var e := s.streams[sub].emitter;
      s.(streams := s.streams[sub := s.streams[sub].(connected := false)],
         listeners := s.listeners[e := Without(s.listeners[e], sub)])
  }

  /** The stderr handler's rename of a running download. */
  function Renamed(s: State, t: TaskId, chunk: string): State
    requires t < |s.runs|
  {
    s.(runs := s.runs[t := s.runs[t].(filename := Stderr.NextFilename(s.runs[t].filename, chunk))])
  }

  /** A chunk of the extractor's stderr: a destination line renames the
      download, a percentage is emitted as one progress event. */
  function OnStderr(s: State, t: TaskId, chunk: string): State
    requires RegistryOk(s) && QueueOk(s)
  {
    if t >= |s.runs| || s.runs[t].closed then s
    else
      var s1 := Renamed(s, t, chunk);
      match Stderr.FindPercent(chunk)
      case Some(p) => Emit(s1, t, Sse.Progress(p))
      case None => s1
  }

  /** The first half of both close handlers: `done` goes out and the run is
      marked closed. */
  function Closed(s: State, t: TaskId): State
    requires t < |s.listeners| && t < |s.runs|
  {
    var s1 := Emit(s, t, Sse.Done);
    s1.(runs := s1.runs[t := s1.runs[t].(closed := true)])
  }

  /** The extractor exits, as the close handler is written: `done` is
      emitted, then `jobs.delete(id)` names a variable that is not in scope
      and throws. The entry stays, and `resolve()` is never reached, so the
      queue slot stays taken. */
  function OnClose(s: State, t: TaskId): State
    requires RegistryOk(s) && QueueOk(s)
  {
    if t >= |s.runs| || s.runs[t].closed then s
    else Closed(s, t).(uncaught := s.uncaught + [t])
  }

  /** The extractor cannot be started: `reject` settles the promise. */
  function OnError(s: State, t: TaskId): State
    requires QueueOk(s)
  {
    if t in s.pending then Settle(s, t) else s
  }

  /** The close handler as evidently intended: `done` is emitted, the job's
      entry is deleted and the promise resolves, freeing the slot. */
  function OnCloseIntended(s: State, t: TaskId): State
    requires RegistryOk(s) && QueueOk(s)
  {
    if t >= |s.runs| || s.runs[t].closed then s
    else
      var s2 := Closed(s, t).(jobs := s.jobs - {s.tasks[t].id});
      if t in s2.pending then Settle(s2, t) else s2
  }

  datatype Input =
    | DownloadRequest(url: Option<string>, id: Option<string>, freshId: JobId, fmt: Option<string>, audio: Option<string>)
    | ProgressRequest(job: JobId)
    | ClientClose(sub: SubId)
    | StderrChunk(task: TaskId, chunk: string)
    | ProcessClose(task: TaskId)
    | ProcessError(task: TaskId)

  function Step(s: State, i: Input): State
    requires Valid(s)
  {
    match i
    case DownloadRequest(url, id, freshId, fmt, audio) => Admit(s, url, id, freshId, fmt, audio)
    case ProgressRequest(id) => Subscribe(s, id)
    case ClientClose(sub) => Unsubscribe(s, sub)
    case StderrChunk(t, chunk) => OnStderr(s, t, chunk)
    case ProcessClose(t) => OnClose(s, t)
    case ProcessError(t) => OnError(s, t)
  }

  /** The same machine with the close handler repaired. */
  function StepIntended(s: State, i: Input): State
    requires Valid(s)
  {
    if i.ProcessClose? then OnCloseIntended(s, i.task) else Step(s, i)
  }
}
