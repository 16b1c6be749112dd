/** The task endpoints of the two families (`_cluster_*` and `_comments_*`):
    which request each one sends, and what it makes of the reply. The two
    families differ only in the path prefix. */
module Endpoints {
  import opened Text
  import opened Values
  import opened Contents
  import opened Http

  /** Text clustering (`ClusterTask`) or typical-opinion extraction
      (`CommentsTask`). */
  datatype Family = Cluster | Comments

  function FamilyName(f: Family): string
  {
    match f
    case Cluster => "cluster"
    case Comments => "comments"
  }

  /** `self.__class__.__name__` of the task object of a family. */
  function ClassName(f: Family): string
  {
    match f
    case Cluster => "ClusterTask"
    case Comments => "CommentsTask"
  }

  datatype Endpoint = PushPath | AnalysisPath | StatusPath | ResultPath | ClearPath

  function EndpointName(e: Endpoint): string
  {
    match e
    case PushPath => "push"
    case AnalysisPath => "analysis"
    case StatusPath => "status"
    case ResultPath => "result"
    case ClearPath => "clear"
  }

  /** `'/<family>/<endpoint>/' + task_id`. */
  function TaskPath(f: Family, e: Endpoint, id: string): string
  {
    "/" + FamilyName(f) + "/" + EndpointName(e) + "/" + id
  }

  /** A path names its family, its endpoint and its task unambiguously, so the
      requests of different endpoints, families or tasks never share a URL. */
  lemma TaskPathInjective(f1: Family, e1: Endpoint, id1: string, f2: Family, e2: Endpoint, id2: string)
    requires TaskPath(f1, e1, id1) == TaskPath(f2, e2, id2)
    ensures f1 == f2 && e1 == e2 && id1 == id2
  {
    var p := TaskPath(f1, e1, id1);
    assert p[2] == FamilyName(f1)[1] == FamilyName(f2)[1];
    var n := |FamilyName(f1)|;
    assert p[n + 2] == EndpointName(e1)[0] == EndpointName(e2)[0];
    var m := n + 2 + |EndpointName(e1)| + 1;
    assert id1 == p[m..] == id2;
  }

  /** One POST per chunk of 100 records, all to the push path of the task. */
  function PushRequests(cfg: Config, f: Family, id: string, recs: seq<Value>): seq<Request>
  {
    var cs := Chunks(recs);
    seq(|cs|, j requires 0 <= j < |cs| => MakeRequest(cfg, POST, TaskPath(f, PushPath, id), map[], Some(cs[j])))
  }

  /** ceil(N/100) POSTs to the same URL; request j carries
      `contents[100 * j : 100 * j + 100]`; the bodies, in order, are the
      records; all but the last are full. */
  lemma PushRequestsShape(cfg: Config, f: Family, id: string, recs: seq<Value>)
    ensures var reqs := PushRequests(cfg, f, id, recs);
      && |reqs| == (|recs| + ChunkSize - 1) / ChunkSize
      && (forall j :: 0 <= j < |reqs| ==>
            reqs[j].verb == POST && reqs[j].url == cfg.baseUrl + TaskPath(f, PushPath, id) &&
            reqs[j].params == map[] && reqs[j].body.Some? && 0 < |reqs[j].body.value| <= ChunkSize)
      && (forall j :: 0 <= j < |reqs| - 1 ==> |reqs[j].body.value| == ChunkSize)
      && (forall j: nat :: ChunkSize * j < |recs| ==>
            j < |reqs| && reqs[j].body == Some(recs[ChunkSize * j .. Min(ChunkSize * j + ChunkSize, |recs|)]))
      && Flatten(seq(|reqs|, j requires 0 <= j < |reqs| => reqs[j].body.value)) == recs
  {
    var reqs := PushRequests(cfg, f, id, recs);
    ChunksPartition(recs);
    forall j: nat | ChunkSize * j < |recs|
      ensures j < |reqs| && reqs[j].body == Some(recs[ChunkSize * j .. Min(ChunkSize * j + ChunkSize, |recs|)])
    {
      ChunkAt(recs, j);
    }
    assert seq(|reqs|, j requires 0 <= j < |reqs| => reqs[j].body.value) == Chunks(recs);
  }

  /** `params` of `_analysis`: a key for each of `alpha` and `beta` that is not
      `None`. */
  function AnalysisParams(alpha: Option<real>, beta: Option<real>): (p: map<string, real>)
    ensures "alpha" in p <==> alpha.Some?
    ensures "beta" in p <==> beta.Some?
    ensures alpha.Some? ==> p["alpha"] == alpha.value
    ensures beta.Some? ==> p["beta"] == beta.value
    ensures forall k :: k in p ==> k == "alpha" || k == "beta"
  {
    var p := if alpha.Some? then map["alpha" := alpha.value] else map[];
    if beta.Some? then p["beta" := beta.value] else p
  }

  function AnalysisRequest(cfg: Config, f: Family, id: string, alpha: Option<real>, beta: Option<real>): Request
  {
    MakeRequest(cfg, GET, TaskPath(f, AnalysisPath, id), AnalysisParams(alpha, beta), None)
  }

  /** The GET without parameters that `_status`, `_result` and `_clear` send. */
  function TaskGet(cfg: Config, f: Family, e: Endpoint, id: string): Request
  {
    MakeRequest(cfg, GET, TaskPath(f, e, id), map[], None)
  }

  /** `str(r.json()['status'])`: a reply that is not a JSON object with a
      `status` key raises. */
  function StatusField(json: Option<Json>): (r: Result<string>)
    ensures r.Success? <==> json.Some? && json.value.JObj? && "status" in json.value.fields
    ensures r.Failure? ==> r.error == BadReply
    ensures r.Success? ==> r.value == PyStr(json.value.fields["status"])
    ensures r.Success? && json.value.fields["status"].JStr? ==> r.value == json.value.fields["status"].s
  {
    if json.Some? && json.value.JObj? && "status" in json.value.fields
    then Success(PyStr(json.value.fields["status"]))
    else Failure(BadReply)
  }

  function NotFoundMessage(f: Family, id: string): string
  {
    FamilyName(f) + " " + id + " not found"
  }

  function ErrorMessage(f: Family, id: string): string
  {
    FamilyName(f) + " " + id + " error"
  }

  /** The status mapping: the lower-cased status is returned unless it is
      `not found` (raises `TaskNotFoundError`) or `error` (raises `TaskError`);
      both errors are `HTTPError`s. */
  function ClassifyStatus(f: Family, id: string, s: string): (r: Result<string>)
    ensures r == Failure(TaskNotFound(NotFoundMessage(f, id))) <==> Lower(s) == "not found"
    ensures r == Failure(TaskFailed(ErrorMessage(f, id))) <==> Lower(s) == "error"
    ensures r.Success? <==> Lower(s) != "not found" && Lower(s) != "error"
    ensures r.Success? ==> r.value == Lower(s)
    ensures r.Failure? ==> IsHttpError(r.error)
  {
    var status := Lower(s);
    if status == "not found" then Failure(TaskNotFound(NotFoundMessage(f, id)))
    else if status == "error" then Failure(TaskFailed(ErrorMessage(f, id)))
    else Success(status)
  }

  /** Case does not matter to the mapping, and a returned status is already in
      lower case (so `"DONE"` is reported as `"done"`). */
  lemma ClassifyStatusCaseInsensitive(f: Family, id: string, s: string)
    ensures ClassifyStatus(f, id, s) == ClassifyStatus(f, id, Lower(s))
    ensures ClassifyStatus(f, id, s).Success? ==> Lower(ClassifyStatus(f, id, s).value) == ClassifyStatus(f, id, s).value
  {
    LowerIdempotent(s);
  }

  /** What one `status()` call makes of its reply. */
  function PollOutcome(f: Family, id: string, reply: Reply): Result<string>
  {
    match Classify(reply)
    case Failure(e) => Failure(e)
    case Success(_) =>
      match StatusField(reply.json)
      case Failure(e) => Failure(e)
      case Success(s) => ClassifyStatus(f, id, s)
  }

  /** A poll succeeds exactly for an ok reply carrying a status other than
      `not found` or `error`, and returns that status lower-cased; a
      `TaskNotFoundError` or `TaskError` comes only from an ok reply. */
  lemma PollOutcomeCases(f: Family, id: string, reply: Reply)
    ensures PollOutcome(f, id, reply).Success? <==>
      reply.Answer? && IsOk(reply.code) && StatusField(reply.json).Success? &&
      ClassifyStatus(f, id, StatusField(reply.json).value).Success?
    ensures PollOutcome(f, id, reply).Success? ==>
      PollOutcome(f, id, reply).value == Lower(StatusField(reply.json).value)
    ensures Classify(reply).Failure? ==> PollOutcome(f, id, reply) == Failure(Classify(reply).error)
    ensures PollOutcome(f, id, reply).Failure? && (PollOutcome(f, id, reply).error.TaskNotFound? || PollOutcome(f, id, reply).error.TaskFailed?) ==>
      reply.Answer? && IsOk(reply.code)
  {
  }

  /** `len(v)` is defined for strings, lists and dicts only. */
  predicate Sized(j: Json)
  {
    j.JStr? || j.JArr? || j.JObj?
  }

  /** What `_result` makes of its reply: the decoded body, which must be JSON
      that has a length. */
  function FetchOutcome(reply: Reply): (r: Result<Json>)
    ensures r.Success? <==> Classify(reply).Success? && reply.json.Some? && Sized(reply.json.value)
    ensures r.Success? ==> r.value == reply.json.value
    ensures Classify(reply).Failure? ==> r == Failure(Classify(reply).error)
    ensures r.Failure? && Classify(reply).Success? ==> r.error == BadReply
  {
    match Classify(reply)
    case Failure(e) => Failure(e)
    case Success(_) =>
      if reply.json.Some? && Sized(reply.json.value) then Success(reply.json.value) else Failure(BadReply)
  }

  /** `_analysis`, `_clear` and each chunk of `_push` return `r.ok`, which is
      always true once `_api_request` has returned. */
  function Acknowledge(reply: Reply): (r: Result<bool>)
    ensures r == Success(true) <==> Classify(reply).Success?
    ensures r.Failure? ==> r == Failure(Classify(reply).error)
  {
    match Classify(reply)
    case Failure(e) => Failure(e)
    case Success(ok) => Success(IsOk(ok.code))
  }
}
