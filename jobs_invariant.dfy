/** Every event of the job state machine keeps its invariant, for the close
    handler as written and as intended; hence so does every sequence of
    events. Each part of the invariant is kept by its own small lemma. */
module JobsInvariant {
  import opened Wrappers
  import opened Jobs
  import Request
  import Stderr
  import Sse

  // ---------------------------------------------------------- admission

  lemma EnqueueQueue(s: State, t: TaskId)
    requires |s.tasks| >= 1 && t == |s.tasks| - 1
    requires QueueOk(s.(tasks := s.tasks[..t]))
    ensures QueueOk(Enqueue(s, t))
  {
    if |s.pending| < Concurrency {
      assert s.waiting == [];
    } else {
      var s' := s.(waiting := s.waiting + [t]);
      forall k | 0 <= k < |s'.waiting| ensures s'.waiting[k] == |s'.runs| + k {
        if k < |s.waiting| {
          assert s'.waiting[k] == s.waiting[k];
        }
      }
    }
  }

  lemma AdmitQueue(s: State, url: Option<string>, id: Option<string>, freshId: JobId,
                   fmt: Option<string>, audio: Option<string>)
    requires QueueOk(s)
    ensures QueueOk(Admit(s, url, id, freshId, fmt, audio))
  {
    if Request.OkUrlQuery(url) {
      var s1 := Registered(s, url, id, freshId, fmt, audio);
      assert s1.(tasks := s1.tasks[..|s.tasks|]) == s.(jobs := s1.jobs, listeners := s1.listeners);
      EnqueueQueue(s1, |s.tasks|);
    }
  }

  lemma AdmitListeners(s: State, url: Option<string>, id: Option<string>, freshId: JobId,
                       fmt: Option<string>, audio: Option<string>)
    requires ListenersOk(s) && |s.listeners| == |s.tasks|
    ensures ListenersOk(Admit(s, url, id, freshId, fmt, audio))
  {
    if Request.OkUrlQuery(url) {
      var s1 := Registered(s, url, id, freshId, fmt, audio);
      RegisteredListeners(s, url, id, freshId, fmt, audio);
      var s' := Admit(s, url, id, freshId, fmt, audio);
      assert s' == Enqueue(s1, |s.tasks|);
      ListenersFrame(s1, s');
    }
  }

  /** A fresh emitter starts with no listeners. */
  lemma RegisteredListeners(s: State, url: Option<string>, id: Option<string>, freshId: JobId,
                            fmt: Option<string>, audio: Option<string>)
    requires ListenersOk(s) && Request.OkUrlQuery(url)
    ensures ListenersOk(Registered(s, url, id, freshId, fmt, audio))
  {
    var s1 := Registered(s, url, id, freshId, fmt, audio);
    forall sub | 0 <= sub < |s1.streams| && s1.streams[sub].connected
      ensures sub in s1.listeners[s1.streams[sub].emitter]
    {
      assert s1.listeners[s.streams[sub].emitter] == s.listeners[s.streams[sub].emitter];
    }
  }

  /** `ListenersOk` depends on the listener lists and the responses only. */
  lemma ListenersFrame(s: State, s': State)
    requires ListenersOk(s) && s'.listeners == s.listeners && s'.streams == s.streams
    ensures ListenersOk(s')
  {
  }

  lemma AdmitRuns(s: State, url: Option<string>, id: Option<string>, freshId: JobId,
                  fmt: Option<string>, audio: Option<string>)
    requires RunsOk(s) && QueueOk(s)
    ensures RunsOk(Admit(s, url, id, freshId, fmt, audio))
  {
    if Request.OkUrlQuery(url) {
      var s1 := Registered(s, url, id, freshId, fmt, audio);
      var t := |s.tasks|;
      assert RunsOk(s1) by {
        forall u | 0 <= u < |s1.runs| ensures RunMatches(s1.runs[u], s1.tasks[u]) {
          assert s1.tasks[u] == s.tasks[u];
        }
      }
      if |s1.pending| < Concurrency {
        assert s.waiting == [];
        StartRuns(s1, t);
      }
    }
  }

  lemma AdmitTerminal(s: State, url: Option<string>, id: Option<string>, freshId: JobId,
                      fmt: Option<string>, audio: Option<string>)
    requires TerminalOk(s) && QueueOk(s)
    ensures TerminalOk(Admit(s, url, id, freshId, fmt, audio))
  {
    if Request.OkUrlQuery(url) {
      var s1 := Registered(s, url, id, freshId, fmt, audio);
      var s' := Enqueue(s1, |s.tasks|);
      forall u, k | 0 <= u < |s'.streams| && 0 <= k < |s'.streams[u].events| && s'.streams[u].events[k] == Sse.Done
        ensures k == |s'.streams[u].events| - 1 && s'.streams[u].emitter < |s'.runs| && s'.runs[s'.streams[u].emitter].closed
      {
        assert s'.streams[u] == s.streams[u];
        assert s'.runs[s.streams[u].emitter] == s.runs[s.streams[u].emitter];
      }
    }
  }

  lemma AdmitValid(s: State, url: Option<string>, id: Option<string>, freshId: JobId,
                   fmt: Option<string>, audio: Option<string>)
    requires Valid(s)
    ensures Valid(Admit(s, url, id, freshId, fmt, audio))
  {
    AdmitQueue(s, url, id, freshId, fmt, audio);
    AdmitListeners(s, url, id, freshId, fmt, audio);
    AdmitRuns(s, url, id, freshId, fmt, audio);
    AdmitTerminal(s, url, id, freshId, fmt, audio);
  }

  // -------------------------------------------------------- subscription

  lemma SubscribeListeners(s: State, id: JobId)
    requires RegistryOk(s) && ListenersOk(s)
    ensures ListenersOk(Subscribe(s, id))
  {
    if id in s.jobs {
      var e := s.jobs[id];
      var s' := Subscribe(s, id);
      forall f, k | 0 <= f < |s'.listeners| && 0 <= k < |s'.listeners[f]|
        ensures s'.listeners[f][k] < |s'.streams| && s'.streams[s'.listeners[f][k]].emitter == f
          && s'.streams[s'.listeners[f][k]].connected
      {
        if !(f == e && k == |s.listeners[e]|) {
          assert s'.listeners[f][k] == s.listeners[f][k];
        }
      }
      forall f | 0 <= f < |s'.listeners| ensures Distinct(s'.listeners[f]) {
        if f == e {
          forall j, k | 0 <= j < k < |s'.listeners[f]| ensures s'.listeners[f][j] != s'.listeners[f][k] {
            if k == |s.listeners[e]| {
              assert s.listeners[e][j] < |s.streams|;
            } else {
              assert s'.listeners[f][j] == s.listeners[e][j] && s'.listeners[f][k] == s.listeners[e][k];
            }
          }
        }
      }
      forall u | 0 <= u < |s'.streams|
        ensures s'.streams[u].emitter < |s'.listeners|
          && (s'.streams[u].connected ==> u in s'.listeners[s'.streams[u].emitter])
      {
        if u < |s.streams| {
          assert s'.streams[u] == s.streams[u];
        } else {
          assert s'.listeners[e][|s.listeners[e]|] == u;
        }
      }
    }
  }

  lemma SubscribeTerminal(s: State, id: JobId)
    requires RegistryOk(s) && TerminalOk(s)
    ensures TerminalOk(Subscribe(s, id))
  {
    if id in s.jobs {
      var s' := Subscribe(s, id);
      forall u, k | 0 <= u < |s'.streams| && 0 <= k < |s'.streams[u].events| && s'.streams[u].events[k] == Sse.Done
        ensures k == |s'.streams[u].events| - 1 && s'.streams[u].emitter < |s'.runs| && s'.runs[s'.streams[u].emitter].closed
      {
        assert u < |s.streams|;
        assert s'.streams[u] == s.streams[u];
      }
    }
  }

  lemma SubscribeValid(s: State, id: JobId)
    requires Valid(s)
    ensures Valid(Subscribe(s, id))
  {
    SubscribeListeners(s, id);
    SubscribeTerminal(s, id);
  }

  lemma UnsubscribeValid(s: State, sub: SubId)
    requires Valid(s)
    ensures Valid(Unsubscribe(s, sub))
  {
    if sub < |s.streams| && s.streams[sub].connected {
      var e := s.streams[sub].emitter;
      var s' := Unsubscribe(s, sub);
      assert ListenersOk(s') by {
        forall f, k | 0 <= f < |s'.listeners| && 0 <= k < |s'.listeners[f]|
          ensures s'.listeners[f][k] < |s'.streams| && s'.streams[s'.listeners[f][k]].emitter == f
            && s'.streams[s'.listeners[f][k]].connected
        {
          var u := s'.listeners[f][k];
          assert u in s.listeners[f] && (f == e ==> u != sub);
          var k' :| 0 <= k' < |s.listeners[f]| && s.listeners[f][k'] == u;
        }
        forall u | 0 <= u < |s'.streams| && s'.streams[u].connected
          ensures u in s'.listeners[s'.streams[u].emitter]
        {
          assert s'.streams[u] == s.streams[u];
        }
      }
      assert TerminalOk(s') by {
        forall u, k | 0 <= u < |s'.streams| && 0 <= k < |s'.streams[u].events| && s'.streams[u].events[k] == Sse.Done
          ensures k == |s'.streams[u].events| - 1 && s'.streams[u].emitter < |s'.runs| && s'.runs[s'.streams[u].emitter].closed
        {
          assert s'.streams[u].events == s.streams[u].events && s'.streams[u].emitter == s.streams[u].emitter;
        }
      }
    }
  }

  // ------------------------------------------------ the extractor's events

  lemma EmitKeepsListeners(s: State, e: TaskId, ev: Sse.Event)
    requires ListenersOk(s) && e < |s.listeners|
    ensures ListenersOk(Emit(s, e, ev))
  {
  }

  /** A response that receives an event from emitter e is attached to e. */
  lemma ReceiverIsAttached(s: State, e: TaskId, u: SubId)
    requires ListenersOk(s) && e < |s.listeners| && u in s.listeners[e]
    ensures u < |s.streams| && s.streams[u].emitter == e && s.streams[u].connected
  {
    var j :| 0 <= j < |s.listeners[e]| && s.listeners[e][j] == u;
  }

  lemma RenamedValid(s: State, t: TaskId, chunk: string)
    requires Valid(s) && t < |s.runs| && !s.runs[t].closed
    ensures Valid(Renamed(s, t, chunk)) && !Renamed(s, t, chunk).runs[t].closed
  {
    var s1 := Renamed(s, t, chunk);
    assert RunsOk(s1) by {
      forall u | 0 <= u < |s1.runs| ensures RunMatches(s1.runs[u], s1.tasks[u]) {
        if u != t {
          assert s1.runs[u] == s.runs[u];
        }
      }
    }
    assert TerminalOk(s1) by {
      forall u, k | 0 <= u < |s1.streams| && 0 <= k < |s1.streams[u].events| && s1.streams[u].events[k] == Sse.Done
        ensures k == |s1.streams[u].events| - 1 && s1.streams[u].emitter < |s1.runs| && s1.runs[s1.streams[u].emitter].closed
      {
        assert s.runs[s.streams[u].emitter].closed;
      }
    }
  }

  /** A progress event from a download still running keeps the invariant. */
  lemma ProgressValid(s: State, t: TaskId, p: nat)
    requires Valid(s) && t < |s.runs| && !s.runs[t].closed
    ensures Valid(Emit(s, t, Sse.Progress(p)))
  {
    var s' := Emit(s, t, Sse.Progress(p));
    EmitKeepsListeners(s, t, Sse.Progress(p));
    forall u, k | 0 <= u < |s'.streams| && 0 <= k < |s'.streams[u].events| && s'.streams[u].events[k] == Sse.Done
      ensures k == |s'.streams[u].events| - 1 && s'.streams[u].emitter < |s'.runs| && s'.runs[s'.streams[u].emitter].closed
    {
    }
  }

  lemma OnStderrValid(s: State, t: TaskId, chunk: string)
    requires Valid(s)
    ensures Valid(OnStderr(s, t, chunk))
  {
    if t < |s.runs| && !s.runs[t].closed {
      var s1 := Renamed(s, t, chunk);
      RenamedValid(s, t, chunk);
      match Stderr.FindPercent(chunk)
      case Some(p) =>
        assert OnStderr(s, t, chunk) == Emit(s1, t, Sse.Progress(p));
        ProgressValid(s1, t, p);
      case None =>
        assert OnStderr(s, t, chunk) == s1;
    }
  }

  lemma ClosedValid(s: State, t: TaskId)
    requires Valid(s) && t < |s.runs| && !s.runs[t].closed
    ensures Valid(Closed(s, t))
  {
    var s' := Closed(s, t);
    EmitKeepsListeners(s, t, Sse.Done);
    assert RunsOk(s') by {
      forall u | 0 <= u < |s'.runs| ensures RunMatches(s'.runs[u], s'.tasks[u]) {
        if u != t {
          assert s'.runs[u] == s.runs[u];
        }
      }
    }
    forall u, k | 0 <= u < |s'.streams| && 0 <= k < |s'.streams[u].events| && s'.streams[u].events[k] == Sse.Done
      ensures k == |s'.streams[u].events| - 1 && s'.streams[u].emitter < |s'.runs| && s'.runs[s'.streams[u].emitter].closed
    {
      if u in s.listeners[t] {
        ReceiverIsAttached(s, t, u);
      } else {
        assert s.runs[s.streams[u].emitter].closed;
      }
    }
  }

  lemma OnCloseValid(s: State, t: TaskId)
    requires Valid(s)
    ensures Valid(OnClose(s, t))
  {
    if t < |s.runs| && !s.runs[t].closed {
      ClosedValid(s, t);
      var s' := OnClose(s, t);
      assert s' == Closed(s, t).(uncaught := s.uncaught + [t]);
    }
  }

  lemma SettleQueue(s: State, t: TaskId)
    requires QueueOk(s) && t in s.pending
    ensures WaitingInRange(s) && QueueOk(Settle(s, t))
  {
    var s1 := s.(pending := s.pending - {t});
    assert s.pending == s1.pending + {t};
    assert |s1.pending| == |s.pending| - 1;
    if s1.waiting != [] {
      var w := s1.waiting[0];
      var s' := Settle(s, t);
      assert w == |s.runs| && w !in s.pending;
      assert |s'.pending| == |s.pending|;
      forall k | 0 <= k < |s'.waiting| ensures s'.waiting[k] == |s'.runs| + k {
        assert s'.waiting[k] == s.waiting[k + 1];
      }
    }
  }

  /** Starting the next task in line adds a run that matches it. */
  lemma StartRuns(s: State, t: TaskId)
    requires RunsOk(s) && t == |s.runs| && t < |s.tasks|
    ensures RunsOk(Start(s, t))
  {
    var s' := Start(s, t);
    forall u | 0 <= u < |s'.runs| ensures RunMatches(s'.runs[u], s'.tasks[u]) {
      if u < t {
        assert s'.runs[u] == s.runs[u];
      }
    }
  }

  lemma SettleRuns(s: State, t: TaskId)
    requires QueueOk(s) && RunsOk(s) && t in s.pending
    ensures WaitingInRange(s) && RunsOk(Settle(s, t))
  {
    SettleQueue(s, t);
    var s1 := s.(pending := s.pending - {t});
    if s1.waiting != [] {
      StartRuns(s1.(waiting := s1.waiting[1..]), s1.waiting[0]);
    }
  }

  lemma SettleTerminal(s: State, t: TaskId)
    requires QueueOk(s) && TerminalOk(s) && t in s.pending
    ensures WaitingInRange(s) && TerminalOk(Settle(s, t))
  {
    SettleQueue(s, t);
    var s1 := s.(pending := s.pending - {t});
    if s1.waiting != [] {
      var s' := Settle(s, t);
      forall u, k | 0 <= u < |s'.streams| && 0 <= k < |s'.streams[u].events| && s'.streams[u].events[k] == Sse.Done
        ensures k == |s'.streams[u].events| - 1 && s'.streams[u].emitter < |s'.runs| && s'.runs[s'.streams[u].emitter].closed
      {
        assert s'.runs[s.streams[u].emitter] == s.runs[s.streams[u].emitter];
      }
    }
  }

  lemma SettleValid(s: State, t: TaskId)
    requires Valid(s) && t in s.pending
    ensures Valid(Settle(s, t))
  {
    SettleQueue(s, t);
    SettleRuns(s, t);
    SettleTerminal(s, t);
  }

  lemma OnErrorValid(s: State, t: TaskId)
    requires Valid(s)
    ensures Valid(OnError(s, t))
  {
    if t in s.pending {
      SettleValid(s, t);
    }
  }

  lemma OnCloseIntendedValid(s: State, t: TaskId)
    requires Valid(s)
    ensures Valid(OnCloseIntended(s, t))
  {
    if t < |s.runs| && !s.runs[t].closed {
      ClosedValid(s, t);
      var s2 := Closed(s, t).(jobs := s.jobs - {s.tasks[t].id});
      assert Valid(s2);
      if t in s2.pending {
        SettleValid(s2, t);
      }
    }
  }

  // ------------------------------------------------------------ sequences

  lemma StepValid(s: State, i: Input)
    requires Valid(s)
    ensures Valid(Step(s, i))
  {
    match i
    case DownloadRequest(url, id, freshId, fmt, audio) => AdmitValid(s, url, id, freshId, fmt, audio);
    case ProgressRequest(id) => SubscribeValid(s, id);
    case ClientClose(sub) => UnsubscribeValid(s, sub);
    case StderrChunk(t, chunk) => OnStderrValid(s, t, chunk);
    case ProcessClose(t) => OnCloseValid(s, t);
    case ProcessError(t) => OnErrorValid(s, t);
  }

  lemma StepIntendedValid(s: State, i: Input)
    requires Valid(s)
    ensures Valid(StepIntended(s, i))
  {
    if i.ProcessClose? {
      OnCloseIntendedValid(s, i.task);
    } else {
      StepValid(s, i);
    }
  }

  /** The state after a sequence of events, starting from s. */
  function Replay(s: State, inputs: seq<Input>): (s': State)
    requires Valid(s)
    ensures Valid(s')
    decreases |inputs|
  {
    if inputs == [] then s
    else
      StepValid(s, inputs[0]);
      Replay(Step(s, inputs[0]), inputs[1..])
  }

  function ReplayIntended(s: State, inputs: seq<Input>): (s': State)
    requires Valid(s)
    ensures Valid(s')
    decreases |inputs|
  {
    if inputs == [] then s
    else
      StepIntendedValid(s, inputs[0]);
      ReplayIntended(StepIntended(s, inputs[0]), inputs[1..])
  }
}
