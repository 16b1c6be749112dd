/** Concrete runs of the workflow, as the repository's tests exercise it:
    two pushes into one task, a task the server does not know, and a wait
    with a timeout shorter than the first interval. */
module Scenarios {
  import opened Text
  import opened Values
  import opened Contents
  import opened Http
  import opened Endpoints
  import opened Backoff
  import opened Workflow
  import WorkflowLemmas

  /** An accepted request whose body reports the given status. */
  function StatusReply(status: string): Reply
  {
    Answer(200, "OK", Some(JObj(map["status" := JStr(status)])))
  }

  /** The documented input shapes, each used throughout a push: texts,
      `(_id, text)` pairs, or `{_id, text}` dicts. */
  predicate Uniform(xs: seq<Value>)
  {
    (forall k :: 0 <= k < |xs| ==> xs[k].Str?) ||
    (forall k :: 0 <= k < |xs| ==> xs[k].Tuple? && |xs[k].elems| == 2) ||
    (forall k :: 0 <= k < |xs| ==> xs[k].Dict?)
  }

  /** Normalising a uniform input gives one record per item, every one a
      `{_id, text}` dict. */
  lemma UniformPrepare(xs: seq<Value>, next: nat)
    requires Uniform(xs)
    ensures Prepare(xs, next).Success?
    ensures |Prepare(xs, next).value| == |xs|
    ensures forall k :: 0 <= k < |xs| ==> Prepare(xs, next).value[k].Dict?
  {
    PrepareShapes(xs, next);
    if 0 < |xs| && xs[0].Dict? {
      assert forall k :: 0 <= k < |xs| ==> xs[k].Dict?;
    }
  }

  /** Two pushes into one task that both return leave a mirror of as many
      `{_id, text}` records as were pushed. */
  lemma TwoPushes(cfg: Config, f: Family, id: string, a: seq<Value>, b: seq<Value>, env: Env)
    requires Uniform(a) && Uniform(b)
    ensures var s1 := TaskPush(cfg, f, id, [], a, env);
      var s2 := TaskPush(cfg, f, id, s1.records, b, s1.env);
      s1.outcome.Pass? && s2.outcome.Pass? ==>
        |s2.records| == |a| + |b| && forall k :: 0 <= k < |s2.records| ==> s2.records[k].Dict?
  {
    var s1 := TaskPush(cfg, f, id, [], a, env);
    WorkflowLemmas.TaskPushMirror(cfg, f, id, [], a, env);
    WorkflowLemmas.TaskPushMirror(cfg, f, id, s1.records, b, s1.env);
    UniformPrepare(a, env.ids);
    UniformPrepare(b, s1.env.ids);
  }

  /** A push of at most 100 texts whose one request is accepted returns,
      extends the mirror by the normalised texts, and uses one reply. */
  lemma SmallPush(cfg: Config, f: Family, id: string, records: seq<Value>, texts: seq<Value>, env: Env)
    requires 0 < |texts| <= ChunkSize && texts[0].Str?
    requires Classify(ReplyAt(env.script, 0)).Success?
    ensures var s := TaskPush(cfg, f, id, records, texts, env);
      && s.outcome == Pass
      && s.records == records + Prepare(texts, env.ids).value
      && s.env.script == Drop(env.script, 1)
      && |s.env.exchanges| == |env.exchanges| + 1
  {
    var p := Prepare(texts, env.ids).value;
    PrepareShapes(texts, env.ids);
    ChunksPartition(p);
    assert |PushRequests(cfg, f, id, p)| == 1;
    WorkflowLemmas.TaskPushAccepted(cfg, f, id, records, texts, env);
    WorkflowLemmas.TaskPushMirror(cfg, f, id, records, texts, env);
    WorkflowLemmas.PushRecordsTraffic(cfg, f, id, p, env.(ids := env.ids + |texts|));
  }

  /** Four texts, then three more, pushed into a task created without
      contents, each push answered `200`: the mirror holds seven dicts. */
  lemma SevenRecords(cfg: Config, env: Env)
    requires env.script == [StatusReply("ok"), StatusReply("ok")]
    ensures var c := CreateTask(cfg, Cluster, [], None, env);
      var a := [Str("t1"), Str("t2"), Str("t3"), Str("t4")];
      var b := [Str("t5"), Str("t6"), Str("t7")];
      var s1 := TaskPush(cfg, Cluster, c.id, c.records, a, c.env);
      var s2 := TaskPush(cfg, Cluster, c.id, s1.records, b, s1.env);
      && c.outcome == Pass && c.records == []
      && s1.outcome == Pass && s2.outcome == Pass
      && |s2.records| == 7 && (forall k :: 0 <= k < 7 ==> s2.records[k].Dict?)
      && |s2.env.exchanges| == |env.exchanges| + 2
  {
    var c := CreateTask(cfg, Cluster, [], None, env);
    WorkflowLemmas.TaskPushEmpty(cfg, Cluster, Uuid(env.ids), [], env.(ids := env.ids + 1));
    var a := [Str("t1"), Str("t2"), Str("t3"), Str("t4")];
    var b := [Str("t5"), Str("t6"), Str("t7")];
    SmallPush(cfg, Cluster, c.id, c.records, a, c.env);
    var s1 := TaskPush(cfg, Cluster, c.id, c.records, a, c.env);
    assert s1.env.script == [StatusReply("ok")];
    SmallPush(cfg, Cluster, c.id, s1.records, b, s1.env);
    TwoPushes(cfg, Cluster, c.id, a, b, c.env);
  }

  /** `wait_until_complete(timeout=1)` on a task the server reports as
      `Not Found`: one poll after one second, then `TaskNotFoundError`. */
  lemma UnknownTask(cfg: Config, f: Family, id: string, env: Env)
    requires 0 < |env.script| && env.script[0] == StatusReply("Not Found")
    ensures WaitUntilComplete(cfg, f, id, Some(1.0), env) ==
      Step(env.(exchanges := env.exchanges + [Exchange(TaskGet(cfg, f, StatusPath, id), env.script[0])],
                script := env.script[1..],
                sleeps := env.sleeps + [1.0]),
           Fail(TaskNotFound(NotFoundMessage(f, id))))
  {
    var polls := Polls(f, id, env.script);
    assert Lower("Not Found") == "not found";
    assert Poll(polls, 0) == Failure(TaskNotFound(NotFoundMessage(f, id)));
    ShortTimeout(1.0, polls, TimeoutError(f, id));
    assert StatusExchanges(cfg, f, id, env.script, 1) == [Exchange(TaskGet(cfg, f, StatusPath, id), env.script[0])];
    assert Intervals(1.0, 1) == [1.0];
  }

  /** `wait_until_complete(timeout=0.1)` on a task still running: it sleeps
      0.1 seconds, polls once, and raises `TimeoutError` naming the task. */
  lemma ShortWait(cfg: Config, f: Family, id: string, env: Env)
    requires 0 < |env.script| && env.script[0] == StatusReply("RUNNING")
    ensures WaitUntilComplete(cfg, f, id, Some(0.1), env) ==
      Step(env.(exchanges := env.exchanges + [Exchange(TaskGet(cfg, f, StatusPath, id), env.script[0])],
                script := env.script[1..],
                sleeps := env.sleeps + [0.1]),
           Fail(Timeout("<" + ClassName(f) + " " + id + "> timed out")))
  {
    var polls := Polls(f, id, env.script);
    assert Lower("RUNNING") == "running";
    assert Poll(polls, 0) == Success("running");
    ShortTimeout(0.1, polls, TimeoutError(f, id));
    assert StatusExchanges(cfg, f, id, env.script, 1) == [Exchange(TaskGet(cfg, f, StatusPath, id), env.script[0])];
    assert Intervals(0.1, 1) == [0.1];
    assert Repr(f, id) + " timed out" == "<" + ClassName(f) + " " + id + "> timed out";
  }
}
