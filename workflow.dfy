/** The task workflow as functions of the client's observable state: the
    requests sent so far with their replies, the replies still to come, the
    intervals slept and the number of ids drawn. `Client.BosonNLP` and
    `Client.Task` are proved to change their fields exactly as these
    functions say. */
module Workflow {
  import opened Values
  import opened Contents
  import opened Http
  import opened Endpoints
  import opened Backoff

  /** Everything a call of the client can change or consume. */
  datatype Env = Env(exchanges: seq<Exchange>, script: seq<Reply>, sleeps: seq<real>, ids: nat)

  /** The state after a call, and what the call returned or raised. */
  datatype Step<T> = Step(env: Env, result: T)

  /** Sending one request: it is logged with the next scripted reply. */
  function Send(env: Env, req: Request): Env
  {
    env.(exchanges := env.exchanges + [Exchange(req, Next(env.script))], script := Rest(env.script))
  }

  /** `_generate_id()`. */
  function NewId(env: Env): Step<string>
  {
    Step(env.(ids := env.ids + 1), Uuid(env.ids))
  }

  /** `_prepare_contents(contents)`, drawing one id per plain text. */
  function PrepareContents(contents: seq<Value>, env: Env): Step<Result<seq<Value>>>
  {
    Step(env.(ids := env.ids + IdsUsed(contents)), Prepare(contents, env.ids))
  }

  /** What pushing already normalised records does to the state, and its
      result: `False` for no records, `True` once every chunk was accepted. */
  function PushRecords(cfg: Config, f: Family, id: string, recs: seq<Value>, env: Env): Step<Result<bool>>
  {
    if |recs| == 0 then Step(env, Success(false))
    else
      var t := Transmit(PushRequests(cfg, f, id, recs), env.script);
      Step(env.(exchanges := env.exchanges + t.log, script := t.rest),
           if t.failure.None? then Success(true) else Failure(t.failure.value))
  }

  /** `_cluster_push(task_id, contents)` / `_comments_push(task_id, contents)`. */
  function Push(cfg: Config, f: Family, id: string, contents: seq<Value>, env: Env): Step<Result<bool>>
  {
    var p := PrepareContents(contents, env);
    match p.result
    case Failure(e) => Step(p.env, Failure(e))
    case Success(recs) => PushRecords(cfg, f, id, recs, p.env)
  }

  /** `_analysis(task_id, alpha, beta)`. */
  function Analysis(cfg: Config, f: Family, id: string, alpha: Option<real>, beta: Option<real>, env: Env): Step<Result<bool>>
  {
    Step(Send(env, AnalysisRequest(cfg, f, id, alpha, beta)), Acknowledge(Next(env.script)))
  }

  /** `_status(task_id)`. */
  function Status(cfg: Config, f: Family, id: string, env: Env): Step<Result<string>>
  {
    Step(Send(env, TaskGet(cfg, f, StatusPath, id)), PollOutcome(f, id, Next(env.script)))
  }

  /** `_result(task_id)`. */
  function FetchResult(cfg: Config, f: Family, id: string, env: Env): Step<Result<Json>>
  {
    Step(Send(env, TaskGet(cfg, f, ResultPath, id)), FetchOutcome(Next(env.script)))
  }

  /** `_clear(task_id)`. */
  function Clear(cfg: Config, f: Family, id: string, env: Env): Step<Result<bool>>
  {
    Step(Send(env, TaskGet(cfg, f, ClearPath, id)), Acknowledge(Next(env.script)))
  }

  /** `repr(task)`. */
  function Repr(f: Family, id: string): string
  {
    "<" + ClassName(f) + " " + id + ">"
  }

  function TimeoutError(f: Family, id: string): Error
  {
    Timeout(Repr(f, id) + " timed out")
  }

  /** What successive `status()` calls return on the scripted replies. */
  function Polls(f: Family, id: string, script: seq<Reply>): seq<Result<string>>
  {
    seq(|script|, k requires 0 <= k < |script| => PollOutcome(f, id, script[k]))
  }

  /** The first `n` status requests with the replies they get. */
  function StatusExchanges(cfg: Config, f: Family, id: string, script: seq<Reply>, n: nat): seq<Exchange>
  {
    seq(n, k requires 0 <= k < n => Exchange(TaskGet(cfg, f, StatusPath, id), ReplyAt(script, k)))
  }

  /** The state after `n` rounds of waiting: `n` intervals slept and `n`
      status requests sent, each with the next scripted reply. */
  function AfterRounds(cfg: Config, f: Family, id: string, first: real, env: Env, n: nat): Env
  {
    env.(exchanges := env.exchanges + StatusExchanges(cfg, f, id, env.script, n),
         script := Drop(env.script, n),
         sleeps := env.sleeps + Intervals(first, n))
  }

  /** `wait_until_complete(timeout)`. */
  function WaitUntilComplete(cfg: Config, f: Family, id: string, timeout: Option<real>, env: Env): Step<Outcome>
  {
    var w := Wait(timeout, Polls(f, id, env.script), TimeoutError(f, id));
    Step(AfterRounds(cfg, f, id, FirstInterval(timeout), env, w.polls), w.outcome)
  }

  /** The state of a task object after a call: the shared client state, the
      local mirror `_contents`, and whether the call raised. */
  datatype TaskStep = TaskStep(env: Env, records: seq<Value>, outcome: Outcome)

  /** `task.push(contents)`: normalise, push, and extend the mirror when the
      push returned true. */
  function TaskPush(cfg: Config, f: Family, id: string, records: seq<Value>, contents: seq<Value>, env: Env): TaskStep
  {
    var p := PrepareContents(contents, env);
    match p.result
    case Failure(e) => TaskStep(p.env, records, Fail(e))
    case Success(recs) =>
      var q := Push(cfg, f, id, recs, p.env);
      match q.result
      case Failure(e) => TaskStep(q.env, records, Fail(e))
      case Success(ok) => TaskStep(q.env, if ok then records + recs else records, Pass)
  }

  /** A constructed task (or a constructor that raised). */
  datatype Created = Created(env: Env, id: string, records: seq<Value>, outcome: Outcome)

  /** `ClusterTask(nlp, contents, task_id)` / `CommentsTask(...)`: pick the id
      (a fresh one when none is given), then push the contents. `None`
      contents are the empty sequence. */
  function CreateTask(cfg: Config, f: Family, contents: seq<Value>, taskId: Option<string>, env: Env): Created
  {
    var n := if taskId.None? then NewId(env) else Step(env, taskId.value);
    var s := TaskPush(cfg, f, n.result, [], contents, n.env);
    Created(s.env, n.result, s.records, s.outcome)
  }

  /** The contents the one-shot wrappers hand to the task: plain texts get the
      ids 0 .. n-1. */
  function OneShotContents(contents: seq<Value>): seq<Value>
  {
    if 0 < |contents| && contents[0].Str? then Positional(contents) else contents
  }

  /** The body of the `try`: analysis, wait, result. */
  function Analyse(cfg: Config, f: Family, id: string, alpha: Option<real>, beta: Option<real>,
                   timeout: Option<real>, env: Env): Step<Result<Json>>
  {
    var a := Analysis(cfg, f, id, alpha, beta, env);
    if a.result.Failure? then Step(a.env, Failure(a.result.error))
    else
      var w := WaitUntilComplete(cfg, f, id, timeout, a.env);
      if w.result.Fail? then Step(w.env, Failure(w.result.error))
      else FetchResult(cfg, f, id, w.env)
  }

  /** `cluster(contents, ...)` / `comments(contents, ...)`. An exception of
      the `finally` clause's `clear()` replaces the outcome of the `try`. */
  function Run(cfg: Config, f: Family, contents: seq<Value>, taskId: Option<string>, alpha: Option<real>,
               beta: Option<real>, timeout: Option<real>, env: Env): Step<Result<Json>>
  {
    if |contents| == 0 then Step(env, Success(JArr([])))
    else
      var c := CreateTask(cfg, f, OneShotContents(contents), taskId, env);
      if c.outcome.Fail? then Step(c.env, Failure(c.outcome.error))
      else
        var b := Analyse(cfg, f, c.id, alpha, beta, timeout, c.env);
        var k := Clear(cfg, f, c.id, b.env);
        Step(k.env, if k.result.Failure? then Failure(k.result.error) else b.result)
  }
}
