/** What the task workflow guarantees: chunked upload, the local mirror,
    polling, and the one-shot wrappers' cleanup. */
module WorkflowLemmas {
  import opened Values
  import opened Contents
  import opened Http
  import opened Endpoints
  import opened Backoff
  import opened Workflow

  /** Pushing records sends the chunk requests in order, each with its reply,
      and stops at the first failing one; it returns `True` exactly when there
      were records and every chunk was accepted, and `False` exactly when
      there were none (and then sends nothing). Chunks already sent stay
      sent when a later one fails. */
  lemma PushRecordsTraffic(cfg: Config, f: Family, id: string, recs: seq<Value>, env: Env)
    ensures var s := PushRecords(cfg, f, id, recs, env);
      var reqs := PushRequests(cfg, f, id, recs);
      var n := |s.env.exchanges| - |env.exchanges|;
      && s.env.ids == env.ids && s.env.sleeps == env.sleeps
      && 0 <= n <= |reqs|
      && s.env.exchanges[..|env.exchanges|] == env.exchanges
      && (forall k :: 0 <= k < n ==> s.env.exchanges[|env.exchanges| + k] == Exchange(reqs[k], ReplyAt(env.script, k)))
      && s.env.script == Drop(env.script, n)
      && (s.result == Success(false) <==> |recs| == 0)
      && (s.result == Success(true) <==>
            0 < |recs| && forall k :: 0 <= k < |reqs| ==> Classify(ReplyAt(env.script, k)).Success?)
      && (s.result == Success(true) ==> n == |reqs|)
      && (s.result.Failure? ==> 0 < n && Classify(ReplyAt(env.script, n - 1)) == Failure(s.result.error))
  {
    var reqs := PushRequests(cfg, f, id, recs);
    if 0 < |recs| {
      var t := Transmit(reqs, env.script);
      var s := PushRecords(cfg, f, id, recs, env);
      assert s.env == env.(exchanges := env.exchanges + t.log, script := t.rest);
      assert s.result == if t.failure.None? then Success(true) else Failure(t.failure.value);
      TransmitLog(reqs, env.script);
      TransmitOutcome(reqs, env.script);
      TransmitStop(reqs, env.script);
      forall k | 0 <= k < |t.log|
        ensures s.env.exchanges[|env.exchanges| + k] == Exchange(reqs[k], ReplyAt(env.script, k))
      {
        assert s.env.exchanges[|env.exchanges| + k] == t.log[k];
      }
    } else {
      assert Drop(env.script, 0) == env.script;
    }
  }

  /** Request j of a push carries the j-th slice of 100. */
  lemma PushRequestAt(cfg: Config, f: Family, id: string, recs: seq<Value>, j: nat)
    requires ChunkSize * j < |recs|
    ensures j < |PushRequests(cfg, f, id, recs)|
    ensures PushRequests(cfg, f, id, recs)[j] ==
      MakeRequest(cfg, POST, TaskPath(f, PushPath, id), map[], Some(recs[ChunkSize * j .. Min(ChunkSize * j + ChunkSize, |recs|)]))
  {
    ChunkAt(recs, j);
  }

  /** A push whose every chunk was accepted. */
  lemma PushRecordsCompleted(cfg: Config, f: Family, id: string, recs: seq<Value>, after: Env, before: Env, n: nat)
    requires 0 < |recs| && n <= |PushRequests(cfg, f, id, recs)| && |recs| <= ChunkSize * n
    requires forall k :: 0 <= k < n ==> Classify(ReplyAt(before.script, k)).Success?
    requires after == before.(exchanges := before.exchanges + Sent(PushRequests(cfg, f, id, recs), before.script, n),
                              script := Drop(before.script, n))
    ensures PushRecords(cfg, f, id, recs, before) == Step(after, Success(true))
  {
    ChunksPartition(recs);
    assert n == |PushRequests(cfg, f, id, recs)|;
    TransmitAllOk(PushRequests(cfg, f, id, recs), before.script);
  }

  /** A push whose chunk j was the first one refused. */
  lemma PushRecordsStopped(cfg: Config, f: Family, id: string, recs: seq<Value>, after: Env, before: Env, j: nat)
    requires 0 < |recs| && j < |PushRequests(cfg, f, id, recs)|
    requires forall k :: 0 <= k < j ==> Classify(ReplyAt(before.script, k)).Success?
    requires Classify(ReplyAt(before.script, j)).Failure?
    requires after == before.(exchanges := before.exchanges + Sent(PushRequests(cfg, f, id, recs), before.script, j + 1),
                              script := Drop(before.script, j + 1))
    ensures PushRecords(cfg, f, id, recs, before) == Step(after, Failure(Classify(ReplyAt(before.script, j)).error))
  {
    TransmitFirstFailure(PushRequests(cfg, f, id, recs), before.script, j);
  }

  /** `task.push(contents)`. The mirror grows by the normalised contents when
      the call returns, and stays as it was when the call raises (even if some
      chunks were already accepted). Normalising a second time inside
      `_push` draws no further ids. */
  lemma TaskPushMirror(cfg: Config, f: Family, id: string, records: seq<Value>, contents: seq<Value>, env: Env)
    ensures var s := TaskPush(cfg, f, id, records, contents, env);
      var p := Prepare(contents, env.ids);
      && (s.outcome.Pass? ==> p.Success? && s.records == records + p.value)
      && (s.outcome.Fail? ==> s.records == records)
      && (p.Failure? ==> s.outcome == Fail(UnpackError) && s.env == env)
      && (p.Success? ==> s.env == PushRecords(cfg, f, id, p.value, env.(ids := env.ids + IdsUsed(contents))).env)
      && s.env.ids == env.ids + IdsUsed(contents)
  {
    var p := Prepare(contents, env.ids);
    PrepareShapes(contents, env.ids);
    if p.Success? {
      var later := env.ids + IdsUsed(contents);
      PrepareIdempotent(contents, env.ids, later);
      var q := PushRecords(cfg, f, id, p.value, env.(ids := later));
      assert q.env.ids == later;
      if q.result == Success(false) {
        assert |p.value| == 0;
      }
    }
  }

  /** `task.push(contents)` returns exactly when the contents normalise and
      there are none, or every chunk is accepted. */
  lemma TaskPushAccepted(cfg: Config, f: Family, id: string, records: seq<Value>, contents: seq<Value>, env: Env)
    requires Prepare(contents, env.ids).Success?
    ensures TaskPush(cfg, f, id, records, contents, env).outcome.Pass? <==>
      |contents| == 0 ||
      forall k :: 0 <= k < |PushRequests(cfg, f, id, Prepare(contents, env.ids).value)| ==> Classify(ReplyAt(env.script, k)).Success?
  {
    var p := Prepare(contents, env.ids);
    var later := env.ids + IdsUsed(contents);
    PrepareShapes(contents, env.ids);
    PrepareIdempotent(contents, env.ids, later);
    PushRecordsTraffic(cfg, f, id, p.value, env.(ids := later));
  }

  /** An empty push (or `None`) sends nothing and leaves the mirror alone. */
  lemma TaskPushEmpty(cfg: Config, f: Family, id: string, records: seq<Value>, env: Env)
    ensures TaskPush(cfg, f, id, records, [], env) == TaskStep(env, records, Pass)
  {
    assert env.(ids := env.ids + 0) == env;
  }

  /** A wait ends at the first round that stops it. */
  lemma WaitEndsAt(cfg: Config, f: Family, id: string, timeout: Option<real>, before: Env, d: nat)
    requires Stops(timeout, FirstInterval(timeout), Polls(f, id, before.script), d)
    requires NoStopBefore(timeout, FirstInterval(timeout), Polls(f, id, before.script), d)
    ensures var w := StopAt(timeout, FirstInterval(timeout), Polls(f, id, before.script), TimeoutError(f, id), d);
      WaitUntilComplete(cfg, f, id, timeout, before) ==
        Step(AfterRounds(cfg, f, id, FirstInterval(timeout), before, w.polls), w.outcome)
  {
    FirstStopUnique(timeout, FirstInterval(timeout), Polls(f, id, before.script), d);
  }

  /** The sleep of round `i` raises: no status request in that round. */
  lemma WaitSleepFails(cfg: Config, f: Family, id: string, timeout: Option<real>, before: Env, i: nat)
    requires IntervalAt(FirstInterval(timeout), i) < 0.0
    requires NoStopBefore(timeout, FirstInterval(timeout), Polls(f, id, before.script), i)
    ensures WaitUntilComplete(cfg, f, id, timeout, before) ==
      Step(AfterRounds(cfg, f, id, FirstInterval(timeout), before, i), Fail(SleepError))
  {
    WaitEndsAt(cfg, f, id, timeout, before, i);
  }

  /** The poll of round `i` raises: the wait raises the same, after `i + 1`
      polls. */
  lemma WaitPollFails(cfg: Config, f: Family, id: string, timeout: Option<real>, before: Env, i: nat)
    requires 0.0 <= IntervalAt(FirstInterval(timeout), i)
    requires Poll(Polls(f, id, before.script), i).Failure?
    requires NoStopBefore(timeout, FirstInterval(timeout), Polls(f, id, before.script), i)
    ensures WaitUntilComplete(cfg, f, id, timeout, before) ==
      Step(AfterRounds(cfg, f, id, FirstInterval(timeout), before, i + 1), Fail(Poll(Polls(f, id, before.script), i).error))
  {
    WaitEndsAt(cfg, f, id, timeout, before, i);
  }

  /** The poll of round `i` says `done`: the wait returns after `i + 1` polls. */
  lemma WaitDone(cfg: Config, f: Family, id: string, timeout: Option<real>, before: Env, i: nat)
    requires 0.0 <= IntervalAt(FirstInterval(timeout), i)
    requires Poll(Polls(f, id, before.script), i) == Success("done")
    requires NoStopBefore(timeout, FirstInterval(timeout), Polls(f, id, before.script), i)
    ensures WaitUntilComplete(cfg, f, id, timeout, before) ==
      Step(AfterRounds(cfg, f, id, FirstInterval(timeout), before, i + 1), Pass)
  {
    WaitEndsAt(cfg, f, id, timeout, before, i);
  }

  /** The poll of round `i` is not `done` and the time slept has reached the
      timeout: the wait raises `TimeoutError` after `i + 1` polls. */
  lemma WaitTimesOut(cfg: Config, f: Family, id: string, timeout: Option<real>, before: Env, i: nat)
    requires 0.0 <= IntervalAt(FirstInterval(timeout), i)
    requires Poll(Polls(f, id, before.script), i).Success? && Poll(Polls(f, id, before.script), i).value != "done"
    requires TimesOut(timeout, Elapsed(FirstInterval(timeout), i + 1))
    requires NoStopBefore(timeout, FirstInterval(timeout), Polls(f, id, before.script), i)
    ensures WaitUntilComplete(cfg, f, id, timeout, before) ==
      Step(AfterRounds(cfg, f, id, FirstInterval(timeout), before, i + 1), Fail(TimeoutError(f, id)))
  {
    WaitEndsAt(cfg, f, id, timeout, before, i);
  }

  /** One round more: once the interval of round `i` is slept, `status()`
      sends the status request with the next scripted reply and returns the
      poll of round `i`, leaving the state after `i + 1` rounds. */
  lemma StatusRound(cfg: Config, f: Family, id: string, first: real, before: Env, i: nat)
    ensures var w := AfterRounds(cfg, f, id, first, before, i);
      Status(cfg, f, id, w.(sleeps := w.sleeps + [IntervalAt(first, i)])) ==
        Step(AfterRounds(cfg, f, id, first, before, i + 1), Poll(Polls(f, id, before.script), i))
  {
    DropStep(before.script, i);
    assert StatusExchanges(cfg, f, id, before.script, i) + [Exchange(TaskGet(cfg, f, StatusPath, id), ReplyAt(before.script, i))] ==
      StatusExchanges(cfg, f, id, before.script, i + 1);
    assert Intervals(first, i) + [IntervalAt(first, i)] == Intervals(first, i + 1);
  }

  /** The k-th poll of a wait gets the k-th scripted reply. */
  lemma PollsAt(f: Family, id: string, script: seq<Reply>, k: nat)
    ensures Poll(Polls(f, id, script), k) == PollOutcome(f, id, ReplyAt(script, k))
  {
  }

  /** The URL of an endpoint of a task. */
  function Url(cfg: Config, f: Family, e: Endpoint, id: string): string
  {
    cfg.baseUrl + TaskPath(f, e, id)
  }

  /** Different endpoints of the same task have different URLs. */
  lemma UrlsDiffer(cfg: Config, f: Family, e1: Endpoint, e2: Endpoint, id: string)
    requires e1 != e2
    ensures Url(cfg, f, e1, id) != Url(cfg, f, e2, id)
  {
    if Url(cfg, f, e1, id) == Url(cfg, f, e2, id) {
      assert TaskPath(f, e1, id) == Url(cfg, f, e1, id)[|cfg.baseUrl|..];
      assert TaskPath(f, e2, id) == Url(cfg, f, e2, id)[|cfg.baseUrl|..];
      TaskPathInjective(f, e1, id, f, e2, id);
    }
  }

  /** `after` extends the request log of `before`, and no request added goes
      to `avoid`. */
  predicate Appends(before: Env, after: Env, avoid: string)
  {
    && |before.exchanges| <= |after.exchanges|
    && after.exchanges[..|before.exchanges|] == before.exchanges
    && forall k :: |before.exchanges| <= k < |after.exchanges| ==> after.exchanges[k].request.url != avoid
  }

  lemma AppendsTrans(a: Env, b: Env, c: Env, avoid: string)
    requires Appends(a, b, avoid) && Appends(b, c, avoid)
    ensures Appends(a, c, avoid)
  {
    assert c.exchanges[..|a.exchanges|] == c.exchanges[..|b.exchanges|][..|a.exchanges|];
    forall k | |a.exchanges| <= k < |b.exchanges|
      ensures c.exchanges[k].request.url != avoid
    {
      assert c.exchanges[k] == b.exchanges[k];
    }
  }

  lemma SendAppends(env: Env, req: Request, avoid: string)
    requires req.url != avoid
    ensures Appends(env, Send(env, req), avoid)
  {
    assert Send(env, req).exchanges[..|env.exchanges|] == env.exchanges;
  }

  lemma PushRecordsAppends(cfg: Config, f: Family, id: string, recs: seq<Value>, env: Env, avoid: string)
    requires avoid != Url(cfg, f, PushPath, id)
    ensures Appends(env, PushRecords(cfg, f, id, recs, env).env, avoid)
  {
    PushRecordsTraffic(cfg, f, id, recs, env);
    PushRequestsShape(cfg, f, id, recs);
    var s := PushRecords(cfg, f, id, recs, env);
    forall k | |env.exchanges| <= k < |s.env.exchanges|
      ensures s.env.exchanges[k].request.url != avoid
    {
      var reqs, j := PushRequests(cfg, f, id, recs), k - |env.exchanges|;
      assert s.env.exchanges[|env.exchanges| + j].request == reqs[j];
      assert reqs[j].url == Url(cfg, f, PushPath, id);
    }
  }

  lemma TaskPushAppends(cfg: Config, f: Family, id: string, records: seq<Value>, contents: seq<Value>, env: Env, avoid: string)
    requires avoid != Url(cfg, f, PushPath, id)
    ensures Appends(env, TaskPush(cfg, f, id, records, contents, env).env, avoid)
    ensures TaskPush(cfg, f, id, records, contents, env).env.sleeps == env.sleeps
  {
    TaskPushMirror(cfg, f, id, records, contents, env);
    var p := Prepare(contents, env.ids);
    if p.Success? {
      var e := env.(ids := env.ids + IdsUsed(contents));
      PushRecordsAppends(cfg, f, id, p.value, e, avoid);
      PushRecordsTraffic(cfg, f, id, p.value, e);
    }
  }

  lemma WaitAppends(cfg: Config, f: Family, id: string, timeout: Option<real>, env: Env, avoid: string)
    requires avoid != Url(cfg, f, StatusPath, id)
    ensures Appends(env, WaitUntilComplete(cfg, f, id, timeout, env).env, avoid)
  {
    var w := WaitUntilComplete(cfg, f, id, timeout, env);
    assert w.env.exchanges[..|env.exchanges|] == env.exchanges;
  }

  /** Constructing a task uses the given id, or else a fresh one that differs
      from every id drawn before; it sends push requests only, so none to the
      task's `clear` endpoint. */
  lemma CreateTaskTraffic(cfg: Config, f: Family, contents: seq<Value>, taskId: Option<string>, env: Env)
    ensures var c := CreateTask(cfg, f, contents, taskId, env);
      && Appends(env, c.env, Url(cfg, f, ClearPath, c.id))
      && (taskId.Some? ==> c.id == taskId.value)
      && (taskId.None? ==> c.id == Uuid(env.ids) && forall m :: 0 <= m < env.ids ==> c.id != Uuid(m))
      && c.env.ids == env.ids + (if taskId.None? then 1 else 0) + IdsUsed(contents)
      && c.env.sleeps == env.sleeps
  {
    var n := if taskId.None? then NewId(env) else Step(env, taskId.value);
    UrlsDiffer(cfg, f, PushPath, ClearPath, n.result);
    TaskPushMirror(cfg, f, n.result, [], contents, n.env);
    TaskPushAppends(cfg, f, n.result, [], contents, n.env, Url(cfg, f, ClearPath, n.result));
    if taskId.None? {
      forall m | 0 <= m < env.ids
        ensures Uuid(env.ids) != Uuid(m)
      {
        if Uuid(env.ids) == Uuid(m) {
          UuidInjective(env.ids, m);
        }
      }
    }
  }

  /** The body of the `try` sends an analysis request, status requests and a
      result request, so none to `clear`. */
  lemma AnalyseAppends(cfg: Config, f: Family, id: string, alpha: Option<real>, beta: Option<real>,
                       timeout: Option<real>, env: Env)
    ensures Appends(env, Analyse(cfg, f, id, alpha, beta, timeout, env).env, Url(cfg, f, ClearPath, id))
  {
    var avoid := Url(cfg, f, ClearPath, id);
    UrlsDiffer(cfg, f, AnalysisPath, ClearPath, id);
    UrlsDiffer(cfg, f, StatusPath, ClearPath, id);
    UrlsDiffer(cfg, f, ResultPath, ClearPath, id);
    var a := Analysis(cfg, f, id, alpha, beta, env);
    SendAppends(env, AnalysisRequest(cfg, f, id, alpha, beta), avoid);
    if a.result.Success? {
      var w := WaitUntilComplete(cfg, f, id, timeout, a.env);
      WaitAppends(cfg, f, id, timeout, a.env, avoid);
      AppendsTrans(env, a.env, w.env, avoid);
      if w.result.Pass? {
        SendAppends(w.env, TaskGet(cfg, f, ResultPath, id), avoid);
        AppendsTrans(env, w.env, FetchResult(cfg, f, id, w.env).env, avoid);
      }
    }
  }

  /** When the body of the `try` returns, its value is what the result
      request, the last one it sent, got. */
  lemma AnalyseResult(cfg: Config, f: Family, id: string, alpha: Option<real>, beta: Option<real>,
                      timeout: Option<real>, env: Env)
    ensures var b := Analyse(cfg, f, id, alpha, beta, timeout, env);
      b.result.Success? ==>
        && |env.exchanges| < |b.env.exchanges|
        && b.env.exchanges[|b.env.exchanges| - 1].request == TaskGet(cfg, f, ResultPath, id)
        && b.result == FetchOutcome(b.env.exchanges[|b.env.exchanges| - 1].reply)
  {
  }

  /** The stages of a one-shot run on non-empty contents: the task is
      created from the numbered contents; when that raises, so does the run;
      otherwise the `try` block runs on the created task and `clear()`
      follows, its exception replacing the block's outcome. */
  lemma RunSteps(cfg: Config, f: Family, contents: seq<Value>, taskId: Option<string>, alpha: Option<real>,
                 beta: Option<real>, timeout: Option<real>, env: Env)
    requires 0 < |contents|
    ensures var c := CreateTask(cfg, f, OneShotContents(contents), taskId, env);
      && OneShotContents(contents) == (if contents[0].Str? then Positional(contents) else contents)
      && (c.outcome.Fail? ==> Run(cfg, f, contents, taskId, alpha, beta, timeout, env) == Step(c.env, Failure(c.outcome.error)))
      && (c.outcome.Pass? ==>
            var b := Analyse(cfg, f, c.id, alpha, beta, timeout, c.env);
            var k := Clear(cfg, f, c.id, b.env);
            Run(cfg, f, contents, taskId, alpha, beta, timeout, env) ==
              Step(k.env, if k.result.Failure? then Failure(k.result.error) else b.result))
  {
  }

  /** The cleanup of `cluster` / `comments`: once the task was constructed,
      `clear()` is sent exactly once, as the last request; when the
      constructor raised, it is never sent. */
  lemma RunClearsOnce(cfg: Config, f: Family, contents: seq<Value>, taskId: Option<string>, alpha: Option<real>,
                      beta: Option<real>, timeout: Option<real>, env: Env)
    requires 0 < |contents|
    ensures var c := CreateTask(cfg, f, OneShotContents(contents), taskId, env);
      var r := Run(cfg, f, contents, taskId, alpha, beta, timeout, env);
      var n := |env.exchanges|;
      var clear := Url(cfg, f, ClearPath, c.id);
      && n <= |r.env.exchanges| && r.env.exchanges[..n] == env.exchanges
      && (c.outcome.Fail? ==> forall k :: n <= k < |r.env.exchanges| ==> r.env.exchanges[k].request.url != clear)
      && (c.outcome.Pass? ==>
            n < |r.env.exchanges| &&
            r.env.exchanges[|r.env.exchanges| - 1].request == TaskGet(cfg, f, ClearPath, c.id) &&
            forall k :: n <= k < |r.env.exchanges| - 1 ==> r.env.exchanges[k].request.url != clear)
  {
    var c := CreateTask(cfg, f, OneShotContents(contents), taskId, env);
    CreateTaskTraffic(cfg, f, OneShotContents(contents), taskId, env);
    if c.outcome.Pass? {
      var b := Analyse(cfg, f, c.id, alpha, beta, timeout, c.env);
      AnalyseAppends(cfg, f, c.id, alpha, beta, timeout, c.env);
      AppendsTrans(env, c.env, b.env, Url(cfg, f, ClearPath, c.id));
      var k := Clear(cfg, f, c.id, b.env);
      assert k.env.exchanges[..|b.env.exchanges|] == b.env.exchanges;
      assert k.env.exchanges[..|env.exchanges|] == b.env.exchanges[..|env.exchanges|];
    }
  }

  /** What `cluster` / `comments` return: `[]` without a request for empty
      contents; the constructor's exception when it raised; otherwise the
      exception of `clear()` if it raised (it replaces any earlier one), else
      the outcome of analysis, wait and result. */
  lemma RunOutcome(cfg: Config, f: Family, contents: seq<Value>, taskId: Option<string>, alpha: Option<real>,
                   beta: Option<real>, timeout: Option<real>, env: Env)
    ensures var r := Run(cfg, f, contents, taskId, alpha, beta, timeout, env);
      && (|contents| == 0 ==> r == Step(env, Success(JArr([]))))
      && (0 < |contents| ==>
            var c := CreateTask(cfg, f, OneShotContents(contents), taskId, env);
            && (c.outcome.Fail? ==> r.result == Failure(c.outcome.error))
            && (c.outcome.Pass? ==>
                  var b := Analyse(cfg, f, c.id, alpha, beta, timeout, c.env);
                  var cleared := Acknowledge(Next(b.env.script));
                  && (cleared.Failure? ==> r.result == Failure(cleared.error))
                  && (cleared.Success? ==> r.result == b.result)))
  {
    if 0 < |contents| {
      RunSteps(cfg, f, contents, taskId, alpha, beta, timeout, env);
    }
  }

  /** Constructing a task only adds requests: the old log is a prefix of the new. */
  lemma CreateTaskGrows(cfg: Config, f: Family, contents: seq<Value>, taskId: Option<string>, env: Env)
    ensures |env.exchanges| <= |CreateTask(cfg, f, contents, taskId, env).env.exchanges|
    ensures CreateTask(cfg, f, contents, taskId, env).env.exchanges[..|env.exchanges|] == env.exchanges
  {
    CreateTaskTraffic(cfg, f, contents, taskId, env);
  }

  /** `clear()` after a `try` block that returned a value: the result
      exchange is now the last but one. */
  lemma ClearAfterResult(cfg: Config, f: Family, id: string, b: Step<Result<Json>>, n: nat)
    requires b.result.Success? ==>
      && n < |b.env.exchanges|
      && b.env.exchanges[|b.env.exchanges| - 1].request == TaskGet(cfg, f, ResultPath, id)
      && b.result == FetchOutcome(b.env.exchanges[|b.env.exchanges| - 1].reply)
    ensures var k := Clear(cfg, f, id, b.env);
      b.result.Success? ==>
        && n + 1 < |k.env.exchanges|
        && k.env.exchanges[|k.env.exchanges| - 2] == b.env.exchanges[|b.env.exchanges| - 1]
  {
  }

  /** When `cluster` / `comments` returns a value, it is what the result
      request got: that request, sent after every earlier request of the
      call, is the last one before `clear()`. */
  lemma RunResult(cfg: Config, f: Family, contents: seq<Value>, taskId: Option<string>, alpha: Option<real>,
                  beta: Option<real>, timeout: Option<real>, env: Env)
    requires 0 < |contents|
    ensures var r := Run(cfg, f, contents, taskId, alpha, beta, timeout, env);
      var c := CreateTask(cfg, f, OneShotContents(contents), taskId, env);
      r.result.Success? ==>
        && |env.exchanges| + 1 < |r.env.exchanges|
        && r.env.exchanges[|r.env.exchanges| - 2].request == TaskGet(cfg, f, ResultPath, c.id)
        && r.result == FetchOutcome(r.env.exchanges[|r.env.exchanges| - 2].reply)
  {
    RunSteps(cfg, f, contents, taskId, alpha, beta, timeout, env);
    var c := CreateTask(cfg, f, OneShotContents(contents), taskId, env);
    if c.outcome.Pass? {
      CreateTaskGrows(cfg, f, OneShotContents(contents), taskId, env);
      AnalyseResult(cfg, f, c.id, alpha, beta, timeout, c.env);
      ClearAfterResult(cfg, f, c.id, Analyse(cfg, f, c.id, alpha, beta, timeout, c.env), |c.env.exchanges|);
    }
  }

  /** Plain texts given to `cluster` / `comments` are numbered 0 .. n-1: no id
      is drawn for them, and those numbered records are what the task
      mirrors once its construction returned. */
  lemma RunNumbersTexts(cfg: Config, f: Family, contents: seq<Value>, taskId: Option<string>, env: Env)
    requires 0 < |contents| && contents[0].Str?
    ensures var c := CreateTask(cfg, f, OneShotContents(contents), taskId, env);
      && c.env.ids == env.ids + (if taskId.None? then 1 else 0)
      && (c.outcome.Pass? ==> c.records == Positional(contents))
  {
    var n := if taskId.None? then NewId(env) else Step(env, taskId.value);
    CreateTaskTraffic(cfg, f, Positional(contents), taskId, env);
    PositionalIdsKept(contents, n.env.ids);
    TaskPushMirror(cfg, f, n.result, [], Positional(contents), n.env);
  }
}
