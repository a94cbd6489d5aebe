/** The server's mutable state as an object: the `jobs` map, the emitters'
    listener lists, the open progress responses, and the download queue,
    each updated in place by the handler that changes it in server.js.
    Every handler is proved to perform exactly the step of the state machine
    in jobs.dfy, so the properties proved there hold of this object. */
module ServerModel {
  import opened Wrappers
  import Request
  import Stderr
  import Sse
  import Jobs
  import JobsInvariant

  class Server {
    var jobs: map<Jobs.JobId, Jobs.TaskId>
    var listeners: seq<seq<Jobs.SubId>>
    var streams: seq<Jobs.Stream>
    var tasks: seq<Jobs.Task>
    var waiting: seq<Jobs.TaskId>
    var pending: set<Jobs.TaskId>
    var runs: seq<Jobs.Run>
    var uncaught: seq<Jobs.TaskId>

    /** The object's fields as a value of the state machine. */
    function Snapshot(): Jobs.State
      reads this
    {
      Jobs.State(jobs, listeners, streams, tasks, waiting, pending, runs, uncaught)
    }

    ghost predicate Valid()
      reads this
    {
      Jobs.Valid(Snapshot())
    }

    /** Module load: an empty registry and an idle queue. */
    constructor ()
      ensures Snapshot() == Jobs.Init() && Valid()
    {
      jobs := map[];
      listeners := [];
      streams := [];
      tasks := [];
      waiting := [];
      pending := {};
      runs := [];
      uncaught := [];
      Jobs.InitValid();
    }

    /** `emitter.emit`: each listener of emitter e, in the order they were
        added, writes ev to its response. */
    method Emit(e: Jobs.TaskId, ev: Sse.Event)
      requires Jobs.ListenersOk(Snapshot()) && e < |listeners|
      modifies this
      ensures Snapshot() == Jobs.Emit(old(Snapshot()), e, ev)
    {
      var subs := listeners[e];
      assert Jobs.Distinct(subs);
      var k := 0;
      while k < |subs|
        invariant 0 <= k <= |subs|
        invariant jobs == old(jobs) && listeners == old(listeners) && tasks == old(tasks)
        invariant waiting == old(waiting) && pending == old(pending) && runs == old(runs) && uncaught == old(uncaught)
        invariant |streams| == |old(streams)|
        invariant forall i :: 0 <= i < |streams| ==>
          streams[i] == if i in subs[..k] then old(streams)[i].(events := old(streams)[i].events + [ev]) else old(streams)[i]
      {
        var u := subs[k];
        assert u !in subs[..k];
        streams := streams[u := streams[u].(events := streams[u].events + [ev])];
        assert subs[..k + 1] == subs[..k] + [u];
        k := k + 1;
      }
      assert subs[..k] == subs;
    }

    /** The queue starts task t: `doDownload` builds the arguments, picks the
        default file name and sets the response headers. */
    method StartTask(t: Jobs.TaskId)
      requires t < |tasks|
      modifies this
      ensures Snapshot() == Jobs.Start(old(Snapshot()), t)
    {
      var task := tasks[t];
      var args := Request.BuildArgs(task.fmt, task.audio);
      var filename := Request.DefaultFilename(task.audio);
      var headers := Request.ResponseHeaders(filename, task.audio);
      pending := pending + {t};
      runs := runs + [Jobs.Run(args, filename, headers, false)];
    }

    /** Task t's promise settles and the queue starts the oldest waiting
        task, if any. */
    method Settle(t: Jobs.TaskId)
      requires Jobs.WaitingInRange(Snapshot())
      modifies this
      ensures Snapshot() == Jobs.Settle(old(Snapshot()), t)
    {
      pending := pending - {t};
      if waiting != [] {
        var next := waiting[0];
        waiting := waiting[1..];
        StartTask(next);
      }
    }

    /** `GET /api/download`. */
    method HandleDownload(url: Option<string>, id: Option<string>, freshId: Jobs.JobId,
                          fmt: Option<string>, audio: Option<string>) returns (reply: Jobs.Reply)
      requires Valid()
      modifies this
      ensures reply == Jobs.AdmitReply(url)
      ensures Snapshot() == Jobs.Admit(old(Snapshot()), url, id, freshId, fmt, audio) && Valid()
    {
      ghost var s := Snapshot();
      JobsInvariant.AdmitValid(s, url, id, freshId, fmt, audio);
      if !Request.OkUrlQuery(url) {
        return Jobs.BadRequest("url tak valid");
      }
      var t := Register(url, id, freshId, fmt, audio);
      assert Jobs.Admit(s, url, id, freshId, fmt, audio) == Jobs.Enqueue(Snapshot(), t);
      if |pending| < Jobs.Concurrency {
        StartTask(t);
      } else {
        waiting := waiting + [t];
      }
      reply := Jobs.Accepted;
    }

    /** `jobs.set(id, emitter)` with the given id or a generated one, and a
        fresh emitter; the queued task is numbered t. */
    method Register(url: Option<string>, id: Option<string>, freshId: Jobs.JobId,
                    fmt: Option<string>, audio: Option<string>) returns (t: Jobs.TaskId)
      requires Request.OkUrlQuery(url)
      modifies this
      ensures t == |old(tasks)| && t < |tasks|
      ensures Snapshot() == Jobs.Registered(old(Snapshot()), url, id, freshId, fmt, audio)
    {
      var key := if Request.Truthy(id) then id.value else freshId;
      t := |tasks|;
      jobs := jobs[key := t];
      listeners := listeners + [[]];
      tasks := tasks + [Jobs.Task(key, url.value, fmt, audio)];
    }

    /** `GET /api/progress/:id`. */
    method HandleProgress(id: Jobs.JobId) returns (reply: Jobs.Reply)
      requires Valid()
      modifies this
      ensures reply == Jobs.SubscribeReply(old(Snapshot()), id)
      ensures Snapshot() == Jobs.Subscribe(old(Snapshot()), id) && Valid()
    {
      ghost var s := Snapshot();
      JobsInvariant.SubscribeValid(s, id);
      if id !in jobs {
        return Jobs.NotFound;
      }
      var e := jobs[id];
      var sub := |streams|;
      streams := streams + [Jobs.Stream(e, [], true)];
      listeners := listeners[e := listeners[e] + [sub]];
      reply := Jobs.EventStream;
    }

    /** The progress client goes away: `job.off` for its listener. */
    method OnClientClose(sub: Jobs.SubId)
      requires Valid()
      modifies this
      ensures Snapshot() == Jobs.Unsubscribe(old(Snapshot()), sub) && Valid()
    {
      ghost var s := Snapshot();
      JobsInvariant.UnsubscribeValid(s, sub);
      if sub < |streams| && streams[sub].connected {
        var e := streams[sub].emitter;
        streams := streams[sub := streams[sub].(connected := false)];
        listeners := listeners[e := Jobs.Without(listeners[e], sub)];
      }
    }

    /** A chunk of task t's stderr: the `filename` variable takes the
        basename of an announced destination, and a percentage goes out as
        one progress event. */
    method OnStderrData(t: Jobs.TaskId, chunk: string)
      requires Valid()
      modifies this
      ensures Snapshot() == Jobs.OnStderr(old(Snapshot()), t, chunk) && Valid()
    {
      ghost var s := Snapshot();
      JobsInvariant.OnStderrValid(s, t, chunk);
      if t >= |runs| || runs[t].closed {
        return;
      }
      Rename(t, chunk);
      JobsInvariant.RenamedValid(s, t, chunk);
      var pct := Stderr.FindPercent(chunk);
      if pct.Some? {
        Emit(t, Sse.Progress(pct.value));
        assert Jobs.OnStderr(s, t, chunk) == Jobs.Emit(Jobs.Renamed(s, t, chunk), t, Sse.Progress(pct.value));
      } else {
        assert Jobs.OnStderr(s, t, chunk) == Jobs.Renamed(s, t, chunk);
      }
    }

    /** `if (m) filename = path.basename(m[1])` for task t's chunk. */
    method Rename(t: Jobs.TaskId, chunk: string)
      requires t < |runs|
      modifies this
      ensures Snapshot() == Jobs.Renamed(old(Snapshot()), t, chunk)
    {
      ghost var name := Stderr.NextFilename(runs[t].filename, chunk);
      var dest := Stderr.FindDestination(chunk);
      if dest.Some? {
        assert name == Stderr.Basename(dest.value);
        runs := runs[t := runs[t].(filename := Stderr.Basename(dest.value))];
      } else {
        assert name == runs[t].filename;
        assert runs == runs[t := runs[t].(filename := name)];
      }
    }

    /** Task t's process closes, with the handler as written: `done` goes
        out, then the out-of-scope `id` throws. `thrown` reports that. */
    method OnProcessClose(t: Jobs.TaskId) returns (thrown: bool)
      requires Valid()
      modifies this
      ensures thrown <==> t < |old(runs)| && !old(runs)[t].closed
      ensures Snapshot() == Jobs.OnClose(old(Snapshot()), t) && Valid()
    {
      ghost var s := Snapshot();
      JobsInvariant.OnCloseValid(s, t);
      if t >= |runs| || runs[t].closed {
        return false;
      }
      Emit(t, Sse.Done);
      runs := runs[t := runs[t].(closed := true)];
      uncaught := uncaught + [t];
      thrown := true;
    }

    /** Task t's process closes, with the handler as intended: `done` goes
        out, the job's entry is deleted and the promise resolves. */
    method OnProcessCloseIntended(t: Jobs.TaskId)
      requires Valid()
      modifies this
      ensures Snapshot() == Jobs.OnCloseIntended(old(Snapshot()), t) && Valid()
    {
      ghost var s := Snapshot();
      JobsInvariant.OnCloseIntendedValid(s, t);
      if t >= |runs| || runs[t].closed {
        return;
      }
      Emit(t, Sse.Done);
      runs := runs[t := runs[t].(closed := true)];
      jobs := jobs - {tasks[t].id};
      assert Snapshot() == Jobs.Closed(s, t).(jobs := s.jobs - {s.tasks[t].id});
      if t in pending {
        Settle(t);
      }
    }

    /** Task t's process fails to start: `reject` settles its promise. */
    method OnProcessError(t: Jobs.TaskId)
      requires Valid()
      modifies this
      ensures Snapshot() == Jobs.OnError(old(Snapshot()), t) && Valid()
    {
      ghost var s := Snapshot();
      JobsInvariant.OnErrorValid(s, t);
      if t in pending {
        Settle(t);
      }
    }
  }
}
