/** `BosonNLP` and the task objects (`ClusterTask`, `CommentsTask`) as
    classes over an abstract transport. The transport is the client's own
    state: the log of requests sent with the replies they got, the scripted
    replies still to come, the intervals slept, and the number of ids drawn
    from `uuid4`. Every method is proved to change that state exactly as the
    corresponding function of `Workflow` says. */
module Client {
  import opened Text
  import opened Values
  import opened Contents
  import opened Http
  import opened Endpoints
  import opened Backoff
  import Workflow
  import WorkflowLemmas

  const DefaultUrl: string := "https://api.bosonnlp.com"

  /** `DEFAULT_TIMEOUT`, the wait of the one-shot wrappers, in seconds. */
  const DefaultWaitTimeout: real := 1800.0

  /** The HTTP timeout `__init__` defaults to, in seconds. */
  const DefaultHttpTimeout: real := 60.0

  class BosonNLP {
    const token: string
    const config: Config
    var exchanges: seq<Exchange>
    var script: seq<Reply>
    var sleeps: seq<real>
    var ids: nat

    function Snapshot(): Workflow.Env
      reads this
    {
      Workflow.Env(exchanges, script, sleeps, ids)
    }

    /** `BosonNLP(token, bosonnlp_url, compress, timeout)` over a transport
        that will answer with `replies`; `encodedLength` stands for the length
        of `_json_dumps` of a body. */
    constructor (token: string, url: string, compress: bool, timeout: real,
                 encodedLength: seq<Value> -> nat, replies: seq<Reply>)
      ensures this.token == token
      ensures config == Config(TrimTrailingSlashes(url), compress, timeout, encodedLength)
      ensures Snapshot() == Workflow.Env([], replies, [], 0)
    {
      this.token := token;
      config := Config(TrimTrailingSlashes(url), compress, timeout, encodedLength);
      exchanges := [];
      script := replies;
      sleeps := [];
      ids := 0;
    }

    /** `_api_request(method, path, params=..., data=...)`. */
    method ApiRequest(verb: Method, path: string, params: map<string, real>, body: Option<seq<Value>>)
      returns (r: Result<Reply>)
      modifies this`exchanges, this`script
      ensures exchanges == old(exchanges) + [Exchange(MakeRequest(config, verb, path, params, body), Next(old(script)))]
      ensures script == Rest(old(script))
      ensures r == Classify(Next(old(script)))
    {
      var gzip := false;
      if verb == POST && body.Some? {
        gzip := ShouldCompress(config.compress, config.encodedLength(body.value));
      }
      var request := Request(verb, config.baseUrl + path, params, body, gzip, config.timeout);
      var reply := Next(script);
      exchanges := exchanges + [Exchange(request, reply)];
      script := Rest(script);
      if reply.Dropped? {
        return Failure(TransportFailure);
      }
      if 400 <= reply.code < 600 {
        var reason := ReasonOf(reply.code, reply.reason, reply.json);
        return Failure(HttpError(reply.code, HttpErrorMessage(reply.code, reason)));
      }
      r := Success(reply);
    }

    /** `time.sleep(seconds)`: recorded instead of slept; a negative interval
        raises. */
    method Sleep(seconds: real) returns (o: Outcome)
      modifies this`sleeps
      ensures seconds < 0.0 ==> o == Fail(SleepError) && sleeps == old(sleeps)
      ensures 0.0 <= seconds ==> o == Pass && sleeps == old(sleeps) + [seconds]
    {
      if seconds < 0.0 {
        return Fail(SleepError);
      }
      sleeps := sleeps + [seconds];
      o := Pass;
    }

    /** `_generate_id()`. */
    method NewId() returns (id: string)
      modifies this`ids
      ensures Workflow.Step(Snapshot(), id) == Workflow.NewId(old(Snapshot()))
    {
      id := Uuid(ids);
      ids := ids + 1;
    }

    /** `_ClusterTask._prepare_contents(contents)`. */
    method PrepareContents(contents: seq<Value>) returns (r: Result<seq<Value>>)
      modifies this`ids
      ensures Workflow.Step(Snapshot(), r) == Workflow.PrepareContents(contents, old(Snapshot()))
    {
      if |contents| == 0 {
        return Success([]);
      }
      if contents[0].Str? {
        var records: seq<Value> := [];
        var k := 0;
        while k < |contents|
          invariant 0 <= k <= |contents|
          invariant ids == old(ids) + k
          invariant records == seq(k, j requires 0 <= j < k => Dict(Str(Uuid(old(ids) + j)), contents[j]))
        {
          var id := NewId();
          records := records + [Dict(Str(id), contents[k])];
          k := k + 1;
        }
        return Success(records);
      }
      if contents[0].Tuple? {
        return UnpackAll(contents);
      }
      r := Success(contents);
    }

    /** `_cluster_push(task_id, contents)` / `_comments_push(task_id, contents)`:
        normalise, then send the records. */
    method Push(f: Family, id: string, contents: seq<Value>) returns (r: Result<bool>)
      modifies this`exchanges, this`script, this`ids
      ensures Workflow.Step(Snapshot(), r) == Workflow.Push(config, f, id, contents, old(Snapshot()))
    {
      var prepared := PrepareContents(contents);
      if prepared.Failure? {
        return Failure(prepared.error);
      }
      r := PushRecords(f, id, prepared.value);
    }

    /** The loop of `_cluster_push` / `_comments_push`: slices of 100 sent in
        order; the first request that raises ends it. */
    method PushRecords(f: Family, id: string, recs: seq<Value>) returns (r: Result<bool>)
      modifies this`exchanges, this`script
      ensures Workflow.Step(Snapshot(), r) == Workflow.PushRecords(config, f, id, recs, old(Snapshot()))
    {
      if |recs| == 0 {
        return Success(false);
      }
      ghost var before := Snapshot();
      ghost var reqs := PushRequests(config, f, id, recs);
      ghost var s0 := script;
      var i := 0;
      ghost var j: nat := 0;
      var ok := false;
      while i < |recs|
        invariant i == ChunkSize * j && j <= |reqs|
        invariant exchanges == before.exchanges + Sent(reqs, s0, j)
        invariant script == Drop(s0, j)
        invariant forall k :: 0 <= k < j ==> Classify(ReplyAt(s0, k)).Success?
        invariant 0 < j ==> ok
        decreases |recs| - i
      {
        WorkflowLemmas.PushRequestAt(config, f, id, recs, j);
        var chunk := recs[i..Min(i + ChunkSize, |recs|)];
        ghost var sent := exchanges;
        var reply := ApiRequest(POST, TaskPath(f, PushPath, id), map[], Some(chunk));
        assert reply == Classify(ReplyAt(s0, j)) && script == Drop(s0, j + 1) &&
               exchanges == before.exchanges + Sent(reqs, s0, j + 1) by {
          DropStep(s0, j);
          SentStep(reqs, s0, j);
          assert exchanges == sent + [Exchange(reqs[j], ReplyAt(s0, j))];
        }
        if reply.Failure? {
          assert Workflow.Step(Snapshot(), Failure(reply.error)) == Workflow.PushRecords(config, f, id, recs, before) by {
            WorkflowLemmas.PushRecordsStopped(config, f, id, recs, Snapshot(), before, j);
          }
          return Failure(reply.error);
        }
        ok := IsOk(reply.value.code);
        i := i + ChunkSize;
        j := j + 1;
      }
      assert Workflow.Step(Snapshot(), Success(true)) == Workflow.PushRecords(config, f, id, recs, before) by {
        WorkflowLemmas.PushRecordsCompleted(config, f, id, recs, Snapshot(), before, j);
      }
      r := Success(ok);
    }

    /** `_analysis(task_id, alpha, beta)`. */
    method Analysis(f: Family, id: string, alpha: Option<real>, beta: Option<real>) returns (r: Result<bool>)
      modifies this`exchanges, this`script
      ensures Workflow.Step(Snapshot(), r) == Workflow.Analysis(config, f, id, alpha, beta, old(Snapshot()))
    {
      var params: map<string, real> := map[];
      if alpha.Some? {
        params := params["alpha" := alpha.value];
      }
      if beta.Some? {
        params := params["beta" := beta.value];
      }
      var reply := ApiRequest(GET, TaskPath(f, AnalysisPath, id), params, None);
      if reply.Failure? {
        return Failure(reply.error);
      }
      r := Success(IsOk(reply.value.code));
    }

    /** `_status(task_id)`. */
    method Status(f: Family, id: string) returns (r: Result<string>)
      modifies this`exchanges, this`script
      ensures Workflow.Step(Snapshot(), r) == Workflow.Status(config, f, id, old(Snapshot()))
    {
      var reply := ApiRequest(GET, TaskPath(f, StatusPath, id), map[], None);
      if reply.Failure? {
        return Failure(reply.error);
      }
      var field := StatusField(reply.value.json);
      if field.Failure? {
        return Failure(field.error);
      }
      var status := Lower(field.value);
      if status == "not found" {
        return Failure(TaskNotFound(NotFoundMessage(f, id)));
      }
      if status == "error" {
        return Failure(TaskFailed(ErrorMessage(f, id)));
      }
      r := Success(status);
    }

    /** `_result(task_id)`. */
    method FetchResult(f: Family, id: string) returns (r: Result<Json>)
      modifies this`exchanges, this`script
      ensures Workflow.Step(Snapshot(), r) == Workflow.FetchResult(config, f, id, old(Snapshot()))
    {
      var reply := ApiRequest(GET, TaskPath(f, ResultPath, id), map[], None);
      if reply.Failure? {
        return Failure(reply.error);
      }
      var v := reply.value.json;
      if v.None? || !Sized(v.value) {
        return Failure(BadReply);
      }
      r := Success(v.value);
    }

    /** `_clear(task_id)`. */
    method Clear(f: Family, id: string) returns (r: Result<bool>)
      modifies this`exchanges, this`script
      ensures Workflow.Step(Snapshot(), r) == Workflow.Clear(config, f, id, old(Snapshot()))
    {
      var reply := ApiRequest(GET, TaskPath(f, ClearPath, id), map[], None);
      if reply.Failure? {
        return Failure(reply.error);
      }
      r := Success(IsOk(reply.value.code));
    }

    /** `cluster(contents, task_id, alpha, beta, timeout)` for `Cluster`,
        `comments(...)` for `Comments`. */
    method Run(f: Family, contents: seq<Value>, taskId: Option<string>, alpha: Option<real>,
               beta: Option<real>, timeout: Option<real>) returns (r: Result<Json>)
      modifies this`exchanges, this`script, this`sleeps, this`ids
      ensures Workflow.Step(Snapshot(), r) == Workflow.Run(config, f, contents, taskId, alpha, beta, timeout, old(Snapshot()))
    {
      if |contents| == 0 {
        return Success(JArr([]));
      }
      ghost var env := Snapshot();
      var numbered := contents;
      if contents[0].Str? {
        numbered := Positional(contents);
      }
      var task, created := Task.Create(this, f, numbered, taskId);
      WorkflowLemmas.RunSteps(config, f, contents, taskId, alpha, beta, timeout, env);
      if created.Fail? {
        return Failure(created.error);
      }
      var primary := task.Analyse(alpha, beta, timeout);
      var cleared := task.Clear();
      if cleared.Failure? {
        return Failure(cleared.error);
      }
      r := primary;
    }
  }

  /** `ClusterTask` (family `Cluster`) and `CommentsTask` (family
      `Comments`): a task id, the client, and the local mirror `_contents` of
      the records pushed. */
  class Task {
    const client: BosonNLP
    const family: Family
    const taskId: string
    var records: seq<Value>

    /** The part of `__init__` that cannot raise: the id is fixed and the
        mirror is empty. */
    constructor (client: BosonNLP, family: Family, taskId: string)
      ensures this.client == client && this.family == family && this.taskId == taskId
      ensures records == []
    {
      this.client := client;
      this.family := family;
      this.taskId := taskId;
      records := [];
    }

    /** `ClusterTask(nlp, contents, task_id)` / `CommentsTask(...)`: a fresh id
        when none is given, then `self.push(contents)`. When `created` is a
        failure the constructor raised and the caller never sees `task`. */
    static method Create(nlp: BosonNLP, f: Family, contents: seq<Value>, taskId: Option<string>)
      returns (task: Task, created: Outcome)
      modifies nlp`exchanges, nlp`script, nlp`ids
      ensures fresh(task) && task.client == nlp && task.family == f
      ensures Workflow.Created(nlp.Snapshot(), task.taskId, task.records, created) ==
        Workflow.CreateTask(nlp.config, f, contents, taskId, old(nlp.Snapshot()))
    {
      var id: string;
      if taskId.None? {
        id := nlp.NewId();
      } else {
        id := taskId.value;
      }
      task := new Task(nlp, f, id);
      created := task.Push(contents);
    }

    /** `repr(task)`. */
    function Repr(): string
    {
      Workflow.Repr(family, taskId)
    }

    /** `push(contents)`. */
    method Push(contents: seq<Value>) returns (o: Outcome)
      modifies this`records, client`exchanges, client`script, client`ids
      ensures Workflow.TaskStep(client.Snapshot(), records, o) ==
        Workflow.TaskPush(client.config, family, taskId, old(records), contents, old(client.Snapshot()))
    {
      var prepared := client.PrepareContents(contents);
      if prepared.Failure? {
        return Fail(prepared.error);
      }
      var pushed := client.Push(family, taskId, prepared.value);
      if pushed.Failure? {
        return Fail(pushed.error);
      }
      if pushed.value {
        records := records + prepared.value;
      }
      o := Pass;
    }

    /** `analysis(alpha, beta)`. */
    method Analysis(alpha: Option<real>, beta: Option<real>) returns (r: Result<bool>)
      modifies client`exchanges, client`script
      ensures Workflow.Step(client.Snapshot(), r) ==
        Workflow.Analysis(client.config, family, taskId, alpha, beta, old(client.Snapshot()))
    {
      r := client.Analysis(family, taskId, alpha, beta);
    }

    /** `status()`. */
    method Status() returns (r: Result<string>)
      modifies client`exchanges, client`script
      ensures Workflow.Step(client.Snapshot(), r) == Workflow.Status(client.config, family, taskId, old(client.Snapshot()))
    {
      r := client.Status(family, taskId);
    }

    /** `result()`. */
    method FetchResult() returns (r: Result<Json>)
      modifies client`exchanges, client`script
      ensures Workflow.Step(client.Snapshot(), r) == Workflow.FetchResult(client.config, family, taskId, old(client.Snapshot()))
    {
      r := client.FetchResult(family, taskId);
    }

    /** `clear()`. */
    method Clear() returns (r: Result<bool>)
      modifies client`exchanges, client`script
      ensures Workflow.Step(client.Snapshot(), r) == Workflow.Clear(client.config, family, taskId, old(client.Snapshot()))
    {
      r := client.Clear(family, taskId);
    }

    /** The `try` block of `cluster()` / `comments()` once the task exists:
        `analysis()`, `wait_until_complete(timeout)`, `result()`, stopping at
        the first exception. */
    method Analyse(alpha: Option<real>, beta: Option<real>, timeout: Option<real>) returns (r: Result<Json>)
      modifies client`exchanges, client`script, client`sleeps
      ensures Workflow.Step(client.Snapshot(), r) ==
        Workflow.Analyse(client.config, family, taskId, alpha, beta, timeout, old(client.Snapshot()))
    {
      var analysed := Analysis(alpha, beta);
      if analysed.Failure? {
        return Failure(analysed.error);
      }
      var waited := WaitUntilComplete(timeout);
      if waited.Fail? {
        return Failure(waited.error);
      }
      r := FetchResult();
    }

    /** `wait_until_complete(timeout)`. */
    method WaitUntilComplete(timeout: Option<real>) returns (o: Outcome)
      modifies client`exchanges, client`script, client`sleeps
      ensures Workflow.Step(client.Snapshot(), o) ==
        Workflow.WaitUntilComplete(client.config, family, taskId, timeout, old(client.Snapshot()))
    {
      var elapsed := 0.0;
      var interval := 1.0;
      if timeout.Some? && timeout.value < interval {
        interval := timeout.value;
      }
      ghost var before := client.Snapshot();
      ghost var first := FirstInterval(timeout);
      ghost var polls := Workflow.Polls(family, taskId, before.script);
      var i: nat := 0;
      while true
        invariant i <= |before.script|
        invariant interval == IntervalAt(first, i) && elapsed == Elapsed(first, i)
        invariant client.Snapshot() == Workflow.AfterRounds(client.config, family, taskId, first, before, i)
        invariant NoStopBefore(timeout, first, polls, i)
        decreases |before.script| - i
      {
        var slept := client.Sleep(interval);
        if slept.Fail? {
          WorkflowLemmas.WaitSleepFails(client.config, family, taskId, timeout, before, i);
          return slept;
        }
        WorkflowLemmas.StatusRound(client.config, family, taskId, first, before, i);
        var status := Status();
        if status.Failure? {
          WorkflowLemmas.WaitPollFails(client.config, family, taskId, timeout, before, i);
          return Fail(status.error);
        }
        if status.value == "done" {
          WorkflowLemmas.WaitDone(client.config, family, taskId, timeout, before, i);
          return Pass;
        }
        elapsed := elapsed + interval;
        assert elapsed == Elapsed(first, i + 1);
        if timeout.Some? && timeout.value != 0.0 && elapsed >= timeout.value {
          WorkflowLemmas.WaitTimesOut(client.config, family, taskId, timeout, before, i);
          return Fail(Timeout(Repr() + " timed out"));
        }
        NoStopStep(timeout, first, polls, i);
        IntervalStep(first, i);
        i := i + 1;
        if i % 3 == 0 && interval < MaxInterval {
          interval := interval + interval;
        }
      }
    }
  }
}
