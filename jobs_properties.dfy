/** What the job state machine promises to its clients: the URL gate, the
    registry, which responses receive which events, the queue, and the
    difference the out-of-scope `id` in the close handler makes. */
module JobsProperties {
  import opened Wrappers
  import opened Jobs
  import opened JobsInvariant
  import Request
  import Stderr
  import Sse

  // ------------------------------------------------------------ admission

  /** A download request is refused with 400 exactly when its URL fails the
      check, and then nothing is registered and nothing is queued. */
  lemma AdmitRejectsBadUrl(s: State, url: Option<string>, id: Option<string>, freshId: JobId,
                           fmt: Option<string>, audio: Option<string>)
    ensures AdmitReply(url) == BadRequest("url tak valid") <==> !Request.OkUrlQuery(url)
    ensures Admit(s, url, id, freshId, fmt, audio) == s <==> !Request.OkUrlQuery(url)
  {
    if Request.OkUrlQuery(url) {
      assert |Admit(s, url, id, freshId, fmt, audio).tasks| == |s.tasks| + 1;
    }
  }

  /** An accepted download stores a new emitter under its id (the given one
      when it is truthy, else the generated one), replacing any earlier
      entry. The new emitter is shared with no other id and has no listener
      yet; every other emitter keeps its listeners and every response its
      events. */
  lemma AdmitRegisters(s: State, url: Option<string>, id: Option<string>, freshId: JobId,
                       fmt: Option<string>, audio: Option<string>)
    requires Valid(s) && Request.OkUrlQuery(url)
    ensures var s' := Admit(s, url, id, freshId, fmt, audio);
            var key := if Request.Truthy(id) then id.value else freshId;
            && key in s'.jobs
            && s'.jobs == s.jobs[key := s'.jobs[key]]
            && (forall other :: other in s.jobs ==> s.jobs[other] != s'.jobs[key])
            && s'.listeners == s.listeners + [[]]
            && s'.listeners[s'.jobs[key]] == []
            && s'.streams == s.streams
            && s'.tasks[s'.jobs[key]] == Task(key, url.value, fmt, audio)
  {
  }

  /** An accepted download starts at once when fewer than `Concurrency`
      downloads are unsettled, and otherwise waits at the end of the queue.
      A started download has the arguments its query values call for and
      headers carrying the default file name. */
  lemma AdmitStartsOrQueues(s: State, url: Option<string>, id: Option<string>, freshId: JobId,
                            fmt: Option<string>, audio: Option<string>)
    requires Valid(s) && Request.OkUrlQuery(url)
    ensures var s' := Admit(s, url, id, freshId, fmt, audio);
            var t := |s.tasks|;
            && (t in s'.pending <==> |s.pending| < Concurrency)
            && (t in s'.pending ==>
                  && t < |s'.runs|
                  && s'.runs[t].args == Request.ExtractorArgs(fmt, audio)
                  && s'.runs[t].filename == Request.DefaultFilename(audio)
                  && s'.runs[t].headers == Request.ResponseHeaders(Request.DefaultFilename(audio), audio)
                  && s'.waiting == s.waiting)
            && (t !in s'.pending ==> s'.waiting == s.waiting + [t] && s'.runs == s.runs)
  {
    var t := |s.tasks|;
    assert t !in s.pending;
    if |s.pending| < Concurrency {
      assert s.waiting == [] && |s.runs| == t;
    }
  }

  // --------------------------------------------------------- subscription

  /** A progress request for an unknown id is answered 404 and changes
      nothing; for a known id it opens an event stream. */
  lemma SubscribeAbsent(s: State, id: JobId)
    requires RegistryOk(s)
    ensures SubscribeReply(s, id) == NotFound <==> id !in s.jobs
    ensures Subscribe(s, id) == s <==> id !in s.jobs
  {
    if id in s.jobs {
      assert |Subscribe(s, id).streams| == |s.streams| + 1;
    }
  }

  /** A progress request for a known id attaches one new, empty, connected
      response to that id's emitter, once. */
  lemma SubscribeAttaches(s: State, id: JobId)
    requires Valid(s) && id in s.jobs
    ensures var s' := Subscribe(s, id);
            var sub := |s.streams|;
            && sub < |s'.streams|
            && s'.streams[sub] == Stream(s.jobs[id], [], true)
            && s'.listeners[s.jobs[id]] == s.listeners[s.jobs[id]] + [sub]
            && sub !in s.listeners[s.jobs[id]]
  {
    if sub :| sub == |s.streams| && sub in s.listeners[s.jobs[id]] {
      ReceiverIsAttached(s, s.jobs[id], sub);
    }
  }

  // ------------------------------------------------------------- delivery

  /** How one event changes a response that already exists: it keeps its
      emitter, and its events either stay as they are or grow by exactly one
      event, which happens only while it is connected and only when its own
      download's process reported a percentage or closed. A response that
      has disconnected never changes again. */
  lemma StepDelivery(s: State, i: Input, sub: SubId)
    requires Valid(s) && sub < |s.streams|
    ensures var s' := Step(s, i);
            && sub < |s'.streams|
            && s'.streams[sub].emitter == s.streams[sub].emitter
            && (!s.streams[sub].connected ==> s'.streams[sub] == s.streams[sub])
            && (s'.streams[sub].events == s.streams[sub].events
                || (&& s.streams[sub].connected
                    && (i.StderrChunk? || i.ProcessClose?)
                    && i.task == s.streams[sub].emitter
                    && |s'.streams[sub].events| == |s.streams[sub].events| + 1
                    && s'.streams[sub].events[..|s.streams[sub].events|] == s.streams[sub].events))
  {
    var e := s.streams[sub].emitter;
    match i
    case DownloadRequest(url, id, freshId, fmt, audio) =>
      AdmitDelivery(s, url, id, freshId, fmt, audio, sub);
    case ProgressRequest(id) =>
      assert Delivered(s, Subscribe(s, id), sub, false);
    case ClientClose(c) =>
      assert Delivered(s, Unsubscribe(s, c), sub, false);
    case StderrChunk(t, chunk) =>
      OnStderrDelivery(s, t, chunk, sub);
    case ProcessClose(t) =>
      OnCloseDelivery(s, t, sub);
    case ProcessError(t) =>
      OnErrorDelivery(s, t, sub);
  }

  /** What one step does to response sub: it stays attached to the same
      emitter, a disconnected one is untouched, and its events are either
      unchanged or, when `grows` allows, extended by one while connected. */
  ghost predicate Delivered(s: State, s': State, sub: SubId, grows: bool)
    requires sub < |s.streams|
  {
    && sub < |s'.streams|
    && s'.streams[sub].emitter == s.streams[sub].emitter
    && (!s.streams[sub].connected ==> s'.streams[sub] == s.streams[sub])
    && (s'.streams[sub].events == s.streams[sub].events
        || (&& s.streams[sub].connected && grows
            && |s'.streams[sub].events| == |s.streams[sub].events| + 1
            && s'.streams[sub].events[..|s.streams[sub].events|] == s.streams[sub].events))
  }

  lemma EmitDelivery(s: State, e: TaskId, ev: Sse.Event, sub: SubId)
    requires ListenersOk(s) && e < |s.listeners| && sub < |s.streams|
    ensures Delivered(s, Emit(s, e, ev), sub, e == s.streams[sub].emitter)
  {
    if sub in s.listeners[e] {
      ReceiverIsAttached(s, e, sub);
    }
  }

  lemma AdmitDelivery(s: State, url: Option<string>, id: Option<string>, freshId: JobId,
                      fmt: Option<string>, audio: Option<string>, sub: SubId)
    requires Valid(s) && sub < |s.streams|
    ensures Delivered(s, Admit(s, url, id, freshId, fmt, audio), sub, false)
  {
    if Request.OkUrlQuery(url) {
      AdmitRegisters(s, url, id, freshId, fmt, audio);
    }
  }

  lemma OnStderrDelivery(s: State, t: TaskId, chunk: string, sub: SubId)
    requires Valid(s) && sub < |s.streams|
    ensures Delivered(s, OnStderr(s, t, chunk), sub, t == s.streams[sub].emitter)
  {
    if t < |s.runs| && !s.runs[t].closed {
      var s1 := Renamed(s, t, chunk);
      match Stderr.FindPercent(chunk)
      case Some(p) =>
        assert OnStderr(s, t, chunk) == Emit(s1, t, Sse.Progress(p));
        EmitDelivery(s1, t, Sse.Progress(p), sub);
      case None =>
        assert OnStderr(s, t, chunk) == s1;
    }
  }

  lemma OnCloseDelivery(s: State, t: TaskId, sub: SubId)
    requires Valid(s) && sub < |s.streams|
    ensures Delivered(s, OnClose(s, t), sub, t == s.streams[sub].emitter)
  {
    if t < |s.runs| && !s.runs[t].closed {
      EmitDelivery(s, t, Sse.Done, sub);
      assert OnClose(s, t).streams == Emit(s, t, Sse.Done).streams;
    }
  }

  lemma OnErrorDelivery(s: State, t: TaskId, sub: SubId)
    requires Valid(s) && sub < |s.streams|
    ensures Delivered(s, OnError(s, t), sub, false)
  {
    assert OnError(s, t).streams == s.streams;
  }

  /** The repaired close handler delivers in the same way: `done` reaches
      exactly the responses attached to the closing download. */
  lemma OnCloseIntendedDelivery(s: State, t: TaskId, sub: SubId)
    requires Valid(s) && sub < |s.streams|
    ensures Delivered(s, OnCloseIntended(s, t), sub, t == s.streams[sub].emitter)
  {
    if t < |s.runs| && !s.runs[t].closed {
      EmitDelivery(s, t, Sse.Done, sub);
      assert OnCloseIntended(s, t).streams == Emit(s, t, Sse.Done).streams;
    }
  }

  /** `StepDelivery` for the machine with the repaired close handler. */
  lemma StepIntendedDelivery(s: State, i: Input, sub: SubId)
    requires Valid(s) && sub < |s.streams|
    ensures var s' := StepIntended(s, i);
            && sub < |s'.streams|
            && s'.streams[sub].emitter == s.streams[sub].emitter
            && (!s.streams[sub].connected ==> s'.streams[sub] == s.streams[sub])
            && (s'.streams[sub].events == s.streams[sub].events
                || (&& s.streams[sub].connected
                    && (i.StderrChunk? || i.ProcessClose?)
                    && i.task == s.streams[sub].emitter
                    && |s'.streams[sub].events| == |s.streams[sub].events| + 1
                    && s'.streams[sub].events[..|s.streams[sub].events|] == s.streams[sub].events))
  {
    if i.ProcessClose? {
      OnCloseIntendedDelivery(s, i.task, sub);
    } else {
      StepDelivery(s, i, sub);
    }
  }

  /** Over any sequence of events, a response that has disconnected never
      receives anything again. */
  lemma {:induction false} DisconnectedStaysQuiet(s: State, inputs: seq<Input>, sub: SubId)
    requires Valid(s) && sub < |s.streams| && !s.streams[sub].connected
    ensures sub < |Replay(s, inputs).streams| && Replay(s, inputs).streams[sub] == s.streams[sub]
    decreases |inputs|
  {
    if inputs != [] {
      StepDelivery(s, inputs[0], sub);
      StepValid(s, inputs[0]);
      DisconnectedStaysQuiet(Step(s, inputs[0]), inputs[1..], sub);
    }
  }

  /** Over any sequence of events, what a response has received stays a
      prefix of what it receives later. */
  lemma {:induction false} EventsOnlyGrow(s: State, inputs: seq<Input>, sub: SubId)
    requires Valid(s) && sub < |s.streams|
    ensures var s' := Replay(s, inputs);
            && sub < |s'.streams|
            && s'.streams[sub].emitter == s.streams[sub].emitter
            && |s.streams[sub].events| <= |s'.streams[sub].events|
            && s'.streams[sub].events[..|s.streams[sub].events|] == s.streams[sub].events
    decreases |inputs|
  {
    if inputs != [] {
      var s1 := Step(s, inputs[0]);
      StepDelivery(s, inputs[0], sub);
      StepValid(s, inputs[0]);
      EventsOnlyGrow(s1, inputs[1..], sub);
      var a := s.streams[sub].events;
      var b := s1.streams[sub].events;
      var c := Replay(s1, inputs[1..]).streams[sub].events;
      assert c[..|a|] == c[..|b|][..|a|];
    }
  }

  /** A percentage in a chunk of a running download reaches every connected
      response attached to that download, as one progress event. */
  lemma ProgressDelivered(s: State, t: TaskId, chunk: string, sub: SubId)
    requires Valid(s) && t < |s.runs| && !s.runs[t].closed && Stderr.FindPercent(chunk).Some?
    requires sub < |s.streams| && s.streams[sub].connected && s.streams[sub].emitter == t
    ensures OnStderr(s, t, chunk).streams[sub].events
            == s.streams[sub].events + [Sse.Progress(Stderr.FindPercent(chunk).value)]
  {
  }

  /** A chunk without a percentage sends nothing to anybody. */
  lemma NoPercentNoEvent(s: State, t: TaskId, chunk: string)
    requires Valid(s) && Stderr.FindPercent(chunk) == None
    ensures OnStderr(s, t, chunk).streams == s.streams
  {
  }

  /** A destination line changes the download's `filename` variable but not
      the headers, which were set before any chunk was read: they keep
      naming the default file. */
  lemma HeadersIgnoreDestination(s: State, t: TaskId, chunk: string)
    requires Valid(s) && t < |s.runs| && !s.runs[t].closed
    ensures var s' := OnStderr(s, t, chunk);
            && s'.runs[t].filename == Stderr.NextFilename(s.runs[t].filename, chunk)
            && s'.runs[t].headers == s.runs[t].headers
            && s'.runs[t].headers == Request.ResponseHeaders(Request.DefaultFilename(s.tasks[t].audio), s.tasks[t].audio)
  {
    assert OnStderr(s, t, chunk).runs == Renamed(s, t, chunk).runs;
    assert RunMatches(s.runs[t], s.tasks[t]);
  }

  // ---------------------------------------------------------------- close

  /** The close handler as written: every connected response attached to the
      download receives `done` as its last event, then the handler throws.
      The registry keeps the entry, the download keeps its queue slot, and
      nothing waiting is started. */
  lemma CloseAsWritten(s: State, t: TaskId, sub: SubId)
    requires Valid(s) && t < |s.runs| && !s.runs[t].closed
    requires sub < |s.streams| && s.streams[sub].connected && s.streams[sub].emitter == t
    ensures var s' := OnClose(s, t);
            && s'.streams[sub].events == s.streams[sub].events + [Sse.Done]
            && s'.jobs == s.jobs
            && s'.pending == s.pending
            && s'.waiting == s.waiting
            && s'.uncaught == s.uncaught + [t]
  {
  }

  /** The close handler as intended: `done` goes out in the same way, then
      the job's entry is deleted and the slot is freed for the oldest
      waiting download. */
  lemma CloseIntended(s: State, t: TaskId, sub: SubId)
    requires Valid(s) && t < |s.runs| && !s.runs[t].closed
    requires sub < |s.streams| && s.streams[sub].connected && s.streams[sub].emitter == t
    ensures var s' := OnCloseIntended(s, t);
            && s'.streams[sub].events == s.streams[sub].events + [Sse.Done]
            && s'.jobs == s.jobs - {s.tasks[t].id}
            && t !in s'.pending
            && (t in s.pending && s.waiting != [] ==> s.waiting[0] in s'.pending && s'.waiting == s.waiting[1..])
            && s'.uncaught == s.uncaught
  {
    var s1 := Emit(s, t, Sse.Done);
    assert s1.streams[sub].events == s.streams[sub].events + [Sse.Done];
    if t in s.pending {
      SettleQueue(s, t);
    }
  }

  /** How the queue may change under an event other than a process
      `error`: no unsettled download is settled, started runs are never
      removed or reopened, and nothing starts while both slots are taken. */
  ghost predicate QueueGrows(s: State, s': State) {
    && s.pending <= s'.pending
    && |s.runs| <= |s'.runs|
    && (forall u :: 0 <= u < |s.runs| && s.runs[u].closed ==> s'.runs[u].closed)
    && (|s.pending| >= Concurrency ==> |s'.runs| == |s.runs|)
  }

  lemma AdmitQueueGrows(s: State, url: Option<string>, id: Option<string>, freshId: JobId,
                        fmt: Option<string>, audio: Option<string>)
    requires Valid(s)
    ensures QueueGrows(s, Admit(s, url, id, freshId, fmt, audio))
  {
    if Request.OkUrlQuery(url) {
      var s' := Admit(s, url, id, freshId, fmt, audio);
      AdmitStartsOrQueues(s, url, id, freshId, fmt, audio);
      forall u | 0 <= u < |s.runs| ensures s'.runs[u] == s.runs[u] {
        if |s.pending| < Concurrency {
          assert s'.runs == s.runs + [s'.runs[|s.runs|]];
        }
      }
    }
  }

  lemma OnStderrQueueGrows(s: State, t: TaskId, chunk: string)
    requires Valid(s)
    ensures QueueGrows(s, OnStderr(s, t, chunk))
  {
    if t < |s.runs| && !s.runs[t].closed {
      var s1 := Renamed(s, t, chunk);
      match Stderr.FindPercent(chunk)
      case Some(p) =>
        assert OnStderr(s, t, chunk) == Emit(s1, t, Sse.Progress(p));
      case None =>
        assert OnStderr(s, t, chunk) == s1;
    }
  }

  lemma OnCloseQueueGrows(s: State, t: TaskId)
    requires Valid(s)
    ensures QueueGrows(s, OnClose(s, t))
  {
  }

  lemma StepQueueGrows(s: State, i: Input)
    requires Valid(s) && !i.ProcessError?
    ensures QueueGrows(s, Step(s, i))
  {
    match i
    case DownloadRequest(url, id, freshId, fmt, audio) => AdmitQueueGrows(s, url, id, freshId, fmt, audio);
    case ProgressRequest(id) =>
    case ClientClose(c) =>
    case StderrChunk(u, chunk) => OnStderrQueueGrows(s, u, chunk);
    case ProcessClose(u) => OnCloseQueueGrows(s, u);
  }

  /** An `error` from one process settles only that download; every other
      unsettled one keeps its slot and its run. */
  lemma OnErrorKeepsOthers(s: State, u: TaskId, t: TaskId)
    requires Valid(s) && t in s.pending && t != u
    ensures t in OnError(s, u).pending && OnError(s, u).runs[t] == s.runs[t]
  {
    if u in s.pending {
      SettleQueue(s, u);
      var s1 := s.(pending := s.pending - {u});
      if s1.waiting != [] {
        assert OnError(s, u).runs == s.runs + [OnError(s, u).runs[|s.runs|]];
      }
    }
  }

  /** As written, a download whose process closed keeps its queue slot under
      every later event except an `error` from that same process. */
  lemma ClosedKeepsSlot(s: State, i: Input, t: TaskId)
    requires Valid(s) && t in s.pending && s.runs[t].closed && i != ProcessError(t)
    ensures t in Step(s, i).pending && Step(s, i).runs[t].closed
  {
    if i.ProcessError? {
      OnErrorKeepsOthers(s, i.task, t);
    } else {
      StepQueueGrows(s, i);
    }
  }

  /** One event, not a process `error`, with both slots held by closed
      downloads: the slots stay held and nothing new starts. */
  lemma StuckStep(s: State, i: Input)
    requires Valid(s) && |s.pending| == Concurrency && !i.ProcessError?
    requires forall t :: t in s.pending ==> s.runs[t].closed
    ensures var s1 := Step(s, i);
            && s1.pending == s.pending
            && |s1.runs| == |s.runs|
            && (forall t :: t in s1.pending ==> s1.runs[t].closed)
  {
    var s1 := Step(s, i);
    StepQueueGrows(s, i);
    StepValid(s, i);
    SubsetOfSameSize(s.pending, s1.pending);
  }

  predicate NoErrors(inputs: seq<Input>) {
    forall k :: 0 <= k < |inputs| ==> !inputs[k].ProcessError?
  }

  /** As written, once both slots are held by downloads whose processes
      have closed, no waiting download ever starts, whatever happens next
      (short of a process `error`). */
  lemma {:induction false} QueueStuck(s: State, inputs: seq<Input>)
    requires Valid(s) && |s.pending| == Concurrency
    requires forall t :: t in s.pending ==> s.runs[t].closed
    requires NoErrors(inputs)
    ensures Replay(s, inputs).pending == s.pending
    ensures |Replay(s, inputs).runs| == |s.runs|
    decreases |inputs|
  {
    if inputs != [] {
      StuckStep(s, inputs[0]);
      StepValid(s, inputs[0]);
      assert NoErrors(inputs[1..]) by {
        forall k | 0 <= k < |inputs[1..]| ensures !inputs[1..][k].ProcessError? {
          assert inputs[1..][k] == inputs[k + 1];
        }
      }
      QueueStuck(Step(s, inputs[0]), inputs[1..]);
    }
  }

  // ------------------------------------------------------------ scenario

  /** A download of `url` with no `id`. */
  function Download(url: string, freshId: JobId): Input {
    DownloadRequest(Some(url), None, freshId, None, None)
  }

  /** The processes of the first two downloads close, in order. */
  function Closes(): seq<Input> {
    [ProcessClose(0)] + [ProcessClose(1)]
  }

  function FromThird(url: string): seq<Input> {
    [Download(url, "c")] + Closes()
  }

  function FromSecond(url: string): seq<Input> {
    [Download(url, "b")] + FromThird(url)
  }

  /** Three downloads of the same URL one after another, then the first two
      processes close. */
  function TwoClosed(url: string): seq<Input> {
    [Download(url, "a")] + FromSecond(url)
  }

  lemma ReplayCons(s: State, i: Input, rest: seq<Input>)
    requires Valid(s)
    ensures Valid(Step(s, i)) && Replay(s, [i] + rest) == Replay(Step(s, i), rest)
  {
    StepValid(s, i);
    assert ([i] + rest)[1..] == rest;
  }

  lemma ReplayIntendedCons(s: State, i: Input, rest: seq<Input>)
    requires Valid(s)
    ensures Valid(StepIntended(s, i)) && ReplayIntended(s, [i] + rest) == ReplayIntended(StepIntended(s, i), rest)
  {
    StepIntendedValid(s, i);
    assert ([i] + rest)[1..] == rest;
  }

  /** The queue's shape: the unsettled set, the backlog, which runs have
      closed, and the handlers that threw. */
  ghost predicate Shape(s: State, pending: set<TaskId>, waiting: seq<TaskId>, closed: seq<bool>, uncaught: seq<TaskId>) {
    && s.pending == pending && s.waiting == waiting && s.uncaught == uncaught
    && |s.runs| == |closed| && |s.tasks| == |closed| + |waiting|
    && forall t :: 0 <= t < |closed| ==> s.runs[t].closed == closed[t]
  }

  /** A download of a valid URL while a slot is free starts a new run. */
  lemma StartShape(s: State, url: string, freshId: JobId, pending: set<TaskId>, closed: seq<bool>, uncaught: seq<TaskId>)
    requires Valid(s) && Request.OkUrl(url) && Shape(s, pending, [], closed, uncaught) && |pending| < Concurrency
    ensures Shape(Step(s, Download(url, freshId)), pending + {|closed|}, [], closed + [false], uncaught)
  {
    var s' := Step(s, Download(url, freshId));
    AdmitStartsOrQueues(s, Some(url), None, freshId, None, None);
    assert s'.runs[..|s.runs|] == s.runs;
    forall t | 0 <= t < |closed| + 1 ensures s'.runs[t].closed == (closed + [false])[t] {
      if t < |closed| {
        assert s'.runs[t] == s'.runs[..|s.runs|][t];
      }
    }
  }

  /** A download of a valid URL while both slots are taken waits. */
  lemma WaitShape(s: State, url: string, freshId: JobId, pending: set<TaskId>, waiting: seq<TaskId>, closed: seq<bool>, uncaught: seq<TaskId>)
    requires Valid(s) && Request.OkUrl(url) && Shape(s, pending, waiting, closed, uncaught) && |pending| >= Concurrency
    ensures Shape(Step(s, Download(url, freshId)), pending, waiting + [|closed| + |waiting|], closed, uncaught)
  {
    AdmitStartsOrQueues(s, Some(url), None, freshId, None, None);
  }

  /** As written, a close marks the run closed and records the throw; the
      queue does not move. */
  lemma CloseShape(s: State, t: TaskId, pending: set<TaskId>, waiting: seq<TaskId>, closed: seq<bool>, uncaught: seq<TaskId>)
    requires Valid(s) && Shape(s, pending, waiting, closed, uncaught) && t < |closed| && !closed[t]
    ensures Shape(Step(s, ProcessClose(t)), pending, waiting, closed[t := true], uncaught + [t])
  {
    assert Step(s, ProcessClose(t)) == Closed(s, t).(uncaught := s.uncaught + [t]);
  }

  /** As intended, a close frees its slot for the one waiting download. */
  lemma CloseStartsShape(s: State, t: TaskId, pending: set<TaskId>, w: TaskId, closed: seq<bool>)
    requires Valid(s) && Shape(s, pending, [w], closed, []) && t < |closed| && !closed[t] && t in pending
    ensures Shape(StepIntended(s, ProcessClose(t)), pending - {t} + {w}, [], closed[t := true] + [false], [])
  {
    var s2 := Closed(s, t).(jobs := s.jobs - {s.tasks[t].id});
    assert StepIntended(s, ProcessClose(t)) == Settle(s2, t);
    ClosedShape(s, t, pending, [w], closed);
    assert w == |s2.runs|;
    var s3 := s2.(pending := pending - {t}, waiting := []);
    assert Settle(s2, t) == Start(s3, w);
    StartedShape(s3, w, pending - {t}, closed[t := true]);
  }

  lemma ClosedShape(s: State, t: TaskId, pending: set<TaskId>, waiting: seq<TaskId>, closed: seq<bool>)
    requires Valid(s) && Shape(s, pending, waiting, closed, []) && t < |closed|
    ensures Shape(Closed(s, t).(jobs := s.jobs - {s.tasks[t].id}), pending, waiting, closed[t := true], [])
  {
  }

  lemma StartedShape(s: State, w: TaskId, pending: set<TaskId>, closed: seq<bool>)
    requires s.waiting == [] && Shape(s.(waiting := [w]), pending, [w], closed, []) && w == |closed|
    ensures Shape(Start(s, w), pending + {w}, [], closed + [false], [])
  {
    var s' := Start(s, w);
    forall u | 0 <= u < |closed| + 1 ensures s'.runs[u].closed == (closed + [false])[u] {
      if u < |closed| {
        assert s'.runs[u] == s.runs[u];
      }
    }
  }

  /** As intended, a close with nothing waiting just frees its slot. */
  lemma CloseIdleShape(s: State, t: TaskId, pending: set<TaskId>, closed: seq<bool>)
    requires Valid(s) && Shape(s, pending, [], closed, []) && t < |closed| && !closed[t] && t in pending
    ensures Shape(StepIntended(s, ProcessClose(t)), pending - {t}, [], closed[t := true], [])
  {
    var s2 := Closed(s, t).(jobs := s.jobs - {s.tasks[t].id});
    assert StepIntended(s, ProcessClose(t)) == Settle(s2, t);
  }

  lemma CloseFirst(s: State)
    requires Valid(s) && Shape(s, {0, 1}, [2], [false, false], [])
    ensures Valid(Step(s, ProcessClose(0)))
    ensures Shape(Step(s, ProcessClose(0)), {0, 1}, [2], [true, false], [0])
  {
    StepValid(s, ProcessClose(0));
    CloseShape(s, 0, {0, 1}, [2], [false, false], []);
    assert [false, false][0 := true] == [true, false];
  }

  lemma CloseSecond(s: State)
    requires Valid(s) && Shape(s, {0, 1}, [2], [true, false], [0])
    ensures Shape(Step(s, ProcessClose(1)), {0, 1}, [2], [true, true], [0, 1])
  {
    CloseShape(s, 1, {0, 1}, [2], [true, false], [0]);
    assert [true, false][1 := true] == [true, true];
  }

  lemma CloseBoth(s: State)
    requires Valid(s) && Shape(s, {0, 1}, [2], [false, false], [])
    ensures Shape(Replay(s, Closes()), {0, 1}, [2], [true, true], [0, 1])
  {
    ReplayCons(s, ProcessClose(0), [ProcessClose(1)]);
    CloseFirst(s);
    var s1 := Step(s, ProcessClose(0));
    ReplayCons(s1, ProcessClose(1), []);
    CloseSecond(s1);
  }

  lemma CloseFirstIntended(s: State)
    requires Valid(s) && Shape(s, {0, 1}, [2], [false, false], [])
    ensures Shape(StepIntended(s, ProcessClose(0)), {1, 2}, [], [true, false, false], [])
  {
    FirstSlotHandedOn();
    CloseStartsShape(s, 0, {0, 1}, 2, [false, false]);
  }

  /** The queue's shape after the first close hands its slot to task 2. */
  lemma FirstSlotHandedOn()
    ensures {0, 1} - {0} + {2} == {1, 2}
    ensures [false, false][0 := true] + [false] == [true, false, false]
  {
    assert [false, false][0 := true] == [true, false];
  }

  lemma CloseSecondIntended(s: State)
    requires Valid(s) && Shape(s, {1, 2}, [], [true, false, false], [])
    ensures Shape(StepIntended(s, ProcessClose(1)), {2}, [], [true, true, false], [])
  {
    CloseIdleShape(s, 1, {1, 2}, [true, false, false]);
    assert [true, false, false][1 := true] == [true, true, false];
    assert {1, 2} - {1} == {2};
  }

  lemma CloseBothIntended(s: State)
    requires Valid(s) && Shape(s, {0, 1}, [2], [false, false], [])
    ensures Shape(ReplayIntended(s, Closes()), {2}, [], [true, true, false], [])
  {
    ReplayIntendedCons(s, ProcessClose(0), [ProcessClose(1)]);
    CloseFirstIntended(s);
    var s1 := StepIntended(s, ProcessClose(0));
    ReplayIntendedCons(s1, ProcessClose(1), []);
    CloseSecondIntended(s1);
  }

  /** The third download waits; then both processes close. */
  lemma ThirdDownload(s: State, url: string)
    requires Valid(s) && Request.OkUrl(url) && Shape(s, {0, 1}, [], [false, false], [])
    ensures Shape(Replay(s, FromThird(url)), {0, 1}, [2], [true, true], [0, 1])
    ensures Shape(ReplayIntended(s, FromThird(url)), {2}, [], [true, true, false], [])
  {
    var d := Download(url, "c");
    WaitShape(s, url, "c", {0, 1}, [], [false, false], []);
    ReplayCons(s, d, Closes());
    ReplayIntendedCons(s, d, Closes());
    CloseBoth(Step(s, d));
    CloseBothIntended(Step(s, d));
  }

  lemma SecondStarts(s: State, url: string)
    requires Valid(s) && Request.OkUrl(url) && Shape(s, {0}, [], [false], [])
    ensures Valid(Step(s, Download(url, "b")))
    ensures Shape(Step(s, Download(url, "b")), {0, 1}, [], [false, false], [])
  {
    StepValid(s, Download(url, "b"));
    StartShape(s, url, "b", {0}, [false], []);
    assert {0} + {1} == {0, 1};
  }

  lemma SecondDownload(s: State, url: string)
    requires Valid(s) && Request.OkUrl(url) && Shape(s, {0}, [], [false], [])
    ensures Shape(Replay(s, FromSecond(url)), {0, 1}, [2], [true, true], [0, 1])
    ensures Shape(ReplayIntended(s, FromSecond(url)), {2}, [], [true, true, false], [])
  {
    var d := Download(url, "b");
    SecondStarts(s, url);
    ReplayCons(s, d, FromThird(url));
    ReplayIntendedCons(s, d, FromThird(url));
    ThirdDownload(Step(s, d), url);
  }

  lemma FirstStarts(url: string)
    requires Request.OkUrl(url)
    ensures Valid(Init()) && Valid(Step(Init(), Download(url, "a")))
    ensures Shape(Step(Init(), Download(url, "a")), {0}, [], [false], [])
  {
    InitValid();
    StepValid(Init(), Download(url, "a"));
    StartShape(Init(), url, "a", {}, [], []);
  }

  /** From the initial state: the first download starts. */
  lemma FirstDownload(url: string)
    requires Request.OkUrl(url)
    ensures Valid(Init())
    ensures Shape(Replay(Init(), TwoClosed(url)), {0, 1}, [2], [true, true], [0, 1])
    ensures Shape(ReplayIntended(Init(), TwoClosed(url)), {2}, [], [true, true, false], [])
  {
    var d := Download(url, "a");
    FirstStarts(url);
    ReplayCons(Init(), d, FromSecond(url));
    ReplayIntendedCons(Init(), d, FromSecond(url));
    SecondDownload(Step(Init(), d), url);
  }

  /** As written: after three downloads and the close of the first two
      processes, both slots stay taken and the third download never starts,
      whatever comes next short of a process `error`. */
  lemma StuckScenario(url: string, more: seq<Input>)
    requires Request.OkUrl(url) && NoErrors(more)
    ensures Valid(Init())
    ensures var s := Replay(Init(), TwoClosed(url));
            && Shape(s, {0, 1}, [2], [true, true], [0, 1])
            && Replay(s, more).pending == {0, 1}
            && |Replay(s, more).runs| == 2
  {
    FirstDownload(url);
    StuckAfterTwoClosed(Replay(Init(), TwoClosed(url)), more);
  }

  /** Both slots held by closed runs: nothing but an `error` moves the queue. */
  lemma StuckAfterTwoClosed(s: State, more: seq<Input>)
    requires Valid(s) && Shape(s, {0, 1}, [2], [true, true], [0, 1]) && NoErrors(more)
    ensures Replay(s, more).pending == {0, 1} && |Replay(s, more).runs| == 2
  {
    assert |s.pending| == 2;
    forall t | t in s.pending
      ensures s.runs[t].closed
    {
      assert t == 0 || t == 1;
    }
    QueueStuck(s, more);
  }

  /** As intended: the same events start the third download. */
  lemma IntendedScenario(url: string)
    requires Request.OkUrl(url)
    ensures Valid(Init())
    ensures Shape(ReplayIntended(Init(), TwoClosed(url)), {2}, [], [true, true, false], [])
  {
    FirstDownload(url);
  }

  /** A set with at most as many elements as a subset of it equals it. */
  lemma SubsetOfSameSize(a: set<TaskId>, b: set<TaskId>)
    requires a <= b && |b| <= |a|
    ensures a == b
  {
    var d := b - a;
    assert b == a + d && a !! d;
    assert |b| == |a| + |d|;
    assert d == {};
  }
}
