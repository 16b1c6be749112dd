# BosonNLP task workflow in Dafny

This project models the asynchronous task workflow of the BosonNLP Python
client (`bosonnlp/client.py`). It covers the text-clustering and
typical-opinion tasks (`ClusterTask`, `CommentsTask`), the endpoint
functions they are bound to (`_cluster_*`, `_comments_*`), and the one-shot
wrappers `BosonNLP.cluster` / `BosonNLP.comments`. It also covers the
decision logic of `_api_request` and the URL trimming of `__init__`.

The HTTP service is replaced by an abstract transport:

- each request is appended to a log together with the reply it got;
- replies come from a script that the caller supplies;
- an exhausted script behaves like a session that raised.

Time is exact (`real`). `time.sleep` appends the interval to a log, and
`uuid4` is a counter whose ids are pairwise distinct.

The project is organised in layers:

- `text.dfy`: decimal rendering, ASCII lower-casing, `rstrip('/')`.
- `values.dfy`: content items, JSON values and the exceptions, as datatypes.
- `contents.dfy`: `_prepare_contents` and the slicing into chunks of 100.
- `http.dfy`: request construction, reply classification, and the sending of
  a sequence of requests that stops at the first failure.
- `endpoints.dfy`: the paths of the two families and what each endpoint
  makes of its reply.
- `backoff.dfy`: the schedule of `wait_until_complete` as functions of the
  poll results.
- `workflow.dfy`: each operation as a function from the client's
  observable state (log, script, sleeps, ids drawn) to the new state and
  the result.
- `workflow_lemmas.dfy`: what those functions guarantee (chunking, the local
  mirror, polling, cleanup of the one-shot wrappers).
- `client.dfy`: the classes `BosonNLP` and `Task`. Their methods are written
  imperatively, with the source's loops. Each method that sends a request
  is proved to change the client's fields exactly as its `Workflow`
  function says: the function of the same name, or `CreateTask` for
  `Task.Create` and `TaskPush` for `Task.Push`. `ApiRequest` is specified
  by `Http.MakeRequest` and `Http.Classify` instead, and `Sleep` and
  `NewId` by the interval and id they record.
- `scenarios.dfy`: concrete runs corresponding to the repository's tests.

`ClusterTask` and `CommentsTask` differ only in the endpoint family their
bindings point at. Both are the one class `Client.Task`, parameterised by a
`Family`. Likewise, `cluster` and `comments` are `Client.BosonNLP.Run`.

## Model

| member | source | states |
|---|---|---|
| Text.Lower | bosonnlp/client.py:478 | `lower()` keeps the length, maps each ASCII capital to its own lower-case letter, and keeps every other character |
| Text.LowerIdempotent | bosonnlp/client.py:478 | lower-casing twice is lower-casing once |
| Text.TrimTrailingSlashes | bosonnlp/client.py:64 | `rstrip('/')` returns a prefix without a trailing slash, and only slashes were removed |
| Text.TrimTrailingSlashesUnique | bosonnlp/client.py:64 | those three properties determine the trimmed URL uniquely |
| Text.TrimTrailingSlashesIdempotent | bosonnlp/client.py:64 | trimming a trimmed URL changes nothing |
| Text.NatToStringRoundTrip | bosonnlp/client.py:102 | the decimal rendering of a status code parses back to the code |
| Text.NatToStringInjective | bosonnlp/client.py:35-36 | distinct numbers render differently |
| Contents.UuidInjective | bosonnlp/client.py:35-36 | the n-th generated id differs from every other one |
| Contents.Unpack | bosonnlp/client.py:719-720 | a pair gives `{_id: first, text: second}`, a two-character string its two characters, a dict its two keys `_id` and `text`; any other tuple length, string length or an integer raises `UnpackError` |
| Contents.UnpackAll | bosonnlp/client.py:719-720 | the comprehension succeeds exactly when every item unpacks, keeps length and order, and raises `UnpackError` otherwise |
| Contents.PrepareShapes | bosonnlp/client.py:713-721 | empty → `[]`; texts → `{_id: fresh, text: s}`; pairs → `{_id: id, text: s}` with the id kept; dict-first lists returned unchanged; a tuple-first list fails exactly when some item does not unpack; length and order kept |
| Contents.PrepareIdsFresh | bosonnlp/client.py:717-718 | the ids drawn for texts are pairwise distinct and differ from every id drawn before |
| Contents.PrepareIdempotent | bosonnlp/client.py:713-721 | `prepare(prepare(x)) == prepare(x)`, and the second pass draws no id |
| Contents.PositionalIdsKept | bosonnlp/client.py:539-540 | texts numbered by `enumerate` get ids 0..n-1, and normalisation keeps them and draws no id |
| Contents.ChunksPartition | bosonnlp/client.py:457-458 | ceil(N/100) chunks, none empty, all but the last exactly 100, concatenating to the input |
| Contents.ChunkAt | bosonnlp/client.py:457-458 | chunk j is `contents[100*j : 100*j+100]` |
| Http.MakeRequest | bosonnlp/client.py:76-92 | the URL is base URL + path, and the body is gzip-compressed iff it is a POST body, `compress` is on, and the encoding is longer than 10240 bytes |
| Http.Classify | bosonnlp/client.py:94-107 | `HTTPError` iff 400 <= code < 600, with message `HTTPError: <code> <json message or reason>`; otherwise the reply is returned and `r.ok` holds |
| Http.HttpErrorMessageCode | bosonnlp/client.py:102 | the message is `HTTPError: `, three digits that parse to the code, a space, then the reason |
| Http.TransmitLog | bosonnlp/client.py:457-460 | request k sent gets scripted reply k, and the unused replies stay in the script |
| Http.TransmitStop | bosonnlp/client.py:457-460 | either every request is sent, or sending stopped at the request whose reply raised, with that error |
| Http.TransmitAnswered | bosonnlp/client.py:457-460 | every request before the last one sent was accepted |
| Http.TransmitOutcome | bosonnlp/client.py:457-460 | no failure iff every reply used was accepted |
| Http.TransmitAllOk | bosonnlp/client.py:457-460 | when every reply is accepted, all requests are sent and logged in order |
| Http.TransmitFirstFailure | bosonnlp/client.py:457-460 | when reply j is the first refused, exactly requests 0..j are sent and j's error is raised |
| Endpoints.TaskPathInjective | bosonnlp/client.py:452-499 | a path `/<family>/<endpoint>/<id>` determines its family, endpoint and task id |
| Endpoints.PushRequestsShape | bosonnlp/client.py:452-461 | ceil(N/100) POSTs to the same push URL with no params; request j carries slice j; bodies of 1..100 records, all but the last full, concatenating to the records |
| Endpoints.AnalysisParams | bosonnlp/client.py:465-470 | `alpha` / `beta` is a key exactly when it is not `None`, with its value, and there are no other keys |
| Endpoints.StatusField | bosonnlp/client.py:478 | indexing `['status']` succeeds exactly on a JSON object holding that key, and then returns `str()` of that field (the string itself for a JSON string); it raises otherwise |
| Endpoints.ClassifyStatus | bosonnlp/client.py:478-487 | `TaskNotFoundError` iff the lower-cased status is `not found`, `TaskError` iff it is `error`, otherwise the lower-cased status is returned; both errors are `HTTPError`s |
| Endpoints.ClassifyStatusCaseInsensitive | bosonnlp/client.py:478 | the classification ignores case, and a returned status is already lower case |
| Endpoints.PollOutcomeCases | bosonnlp/client.py:474-487 | a status call succeeds iff the reply is ok, has a status, and that status is not an error status; HTTP errors propagate unchanged |
| Endpoints.FetchOutcome | bosonnlp/client.py:489-494 | the result is the decoded body iff the reply is ok and the body has a length; HTTP errors propagate |
| Endpoints.Acknowledge | bosonnlp/client.py:496-499 | `r.ok` is returned as true iff `_api_request` returned; otherwise its error is raised |
| Backoff.FirstInterval | bosonnlp/client.py:766-768 | `min(1.0, timeout)` when a timeout is given, else 1.0 |
| Backoff.FirstStop | bosonnlp/client.py:770-783 | the least round that ends the wait |
| Backoff.FirstStopUnique | bosonnlp/client.py:770-783 | any stopping round with no stopping round before it is that least round |
| Backoff.BackoffSchedule | bosonnlp/client.py:781-783 | intervals 1,1,1,2,2,2,4,… = 2^min(k/3, 6), always between 1 and 64 |
| Backoff.IntervalAtLeast | bosonnlp/client.py:781-783 | the interval never shrinks below the first one |
| Backoff.ElapsedAtLeast | bosonnlp/client.py:777 | after k rounds at least k times the first interval has been slept |
| Backoff.ZeroInterval | bosonnlp/client.py:767-768 | with `timeout=0` every interval is 0 |
| Backoff.NegativeTimeout | bosonnlp/client.py:767-771 | a negative timeout makes the first `time.sleep` raise before any poll |
| Backoff.NoTimeoutWaitsForDone | bosonnlp/client.py:770-779 | with no timeout, or the falsy 0, the number of polls is the position (from 1) of the first `done`; a raising poll ends the wait with its error |
| Backoff.TimeoutIsFirstCrossing | bosonnlp/client.py:777-779 | with t > 0, `TimeoutError` comes at the first non-done poll after which the time slept reaches t, and not earlier |
| Backoff.ShortTimeout | bosonnlp/client.py:767-779 | with 0 < t <= 1 there is exactly one poll |
| Backoff.TimeoutBounded | bosonnlp/client.py:777-779 | with a timeout t >= 1 there are at most ceil(t) polls |
| WorkflowLemmas.PushRecordsTraffic | bosonnlp/client.py:452-461 | the chunk requests are sent in order with their replies, stopping at the first refused; the result is True iff there were records and every chunk was accepted, and False iff there were none and nothing was sent |
| WorkflowLemmas.PushRequestAt | bosonnlp/client.py:579-581 | push request j is the POST of slice j |
| WorkflowLemmas.PushRecordsCompleted | bosonnlp/client.py:579-583 | a push whose chunks were all accepted returns True with every request logged |
| WorkflowLemmas.PushRecordsStopped | bosonnlp/client.py:579-581 | a push whose chunk j was the first refused raises that error with chunks 0..j logged |
| WorkflowLemmas.TaskPushMirror | bosonnlp/client.py:723-736 | after a push that returned, `_contents == old + prepare(input)`; after one that raised, `_contents` is unchanged; the second normalisation draws no id |
| WorkflowLemmas.TaskPushAccepted | bosonnlp/client.py:734-736 | a push returns iff the input is empty or every chunk request is accepted |
| WorkflowLemmas.TaskPushEmpty | bosonnlp/client.py:734-736 | an empty push sends nothing and leaves the mirror unchanged |
| WorkflowLemmas.WaitEndsAt | bosonnlp/client.py:770-783 | the wait ends at the first round that stops it, with that round's outcome |
| WorkflowLemmas.WaitSleepFails | bosonnlp/client.py:771 | a raising sleep ends the wait before that round's poll |
| WorkflowLemmas.WaitPollFails | bosonnlp/client.py:773 | a raising poll ends the wait with its error |
| WorkflowLemmas.WaitDone | bosonnlp/client.py:773-775 | a `done` poll ends the wait normally |
| WorkflowLemmas.WaitTimesOut | bosonnlp/client.py:777-779 | a non-done poll once the time slept reaches the timeout raises `TimeoutError` naming the task |
| WorkflowLemmas.StatusRound | bosonnlp/client.py:771-773 | one round sleeps the interval, then sends one status request that gets the next scripted reply |
| WorkflowLemmas.PollsAt | bosonnlp/client.py:773 | poll k reads scripted reply k |
| WorkflowLemmas.UrlsDiffer | bosonnlp/client.py:452-499 | different endpoints of one task have different URLs |
| WorkflowLemmas.SendAppends | bosonnlp/client.py:92 | a request only extends the log |
| WorkflowLemmas.PushRecordsAppends | bosonnlp/client.py:452-461 | a push sends requests to the push URL only |
| WorkflowLemmas.TaskPushAppends | bosonnlp/client.py:723-736 | `task.push` sends requests to the push URL only |
| WorkflowLemmas.WaitAppends | bosonnlp/client.py:770-783 | the wait sends requests to the status URL only |
| WorkflowLemmas.CreateTaskTraffic | bosonnlp/client.py:706-711 | the constructor uses the given id or a fresh one unlike any drawn before, and sends no request to `clear` |
| WorkflowLemmas.CreateTaskGrows | bosonnlp/client.py:877-886 | constructing a task only adds requests to the log: the old log is a prefix of the new one |
| WorkflowLemmas.AnalyseAppends | bosonnlp/client.py:544-547 | the `try` block sends no request to `clear` |
| WorkflowLemmas.AnalyseResult | bosonnlp/client.py:544-547 | when the `try` block returns, its value is what the result request got, and that request is the last one it sent |
| WorkflowLemmas.RunSteps | bosonnlp/client.py:537-550 | a run creates the task (raising if that raises), then runs the `try` block and `clear()`; an exception of `clear()` replaces the outcome |
| WorkflowLemmas.RunClearsOnce | bosonnlp/client.py:541-550 | `clear()` is sent exactly once, as the last request, whenever construction returned, and never when it raised |
| WorkflowLemmas.RunOutcome | bosonnlp/client.py:537-550 | empty contents return `[]` with no request; a construction error is raised; otherwise the error of `clear()` if it raised, else the outcome of analysis, wait and result |
| WorkflowLemmas.ClearAfterResult | bosonnlp/client.py:546-550 | after `clear()` the result exchange is the last but one |
| WorkflowLemmas.RunResult | bosonnlp/client.py:546-547 | a returned value is what the result request, sent during this call, got |
| WorkflowLemmas.RunNumbersTexts | bosonnlp/client.py:539-540 | plain texts get positional ids 0..n-1: no fresh id is drawn, and the mirror holds exactly those records |
| Client.BosonNLP.constructor | bosonnlp/client.py:62-66 | the base URL is trimmed of trailing slashes; the log is empty |
| Client.BosonNLP.ApiRequest | bosonnlp/client.py:76-107 | appends the request and its reply to the log and classifies the reply |
| Client.BosonNLP.Sleep | bosonnlp/client.py:771 | records a non-negative interval; raises for a negative one |
| Client.BosonNLP.NewId | bosonnlp/client.py:35-36 | draws the next id |
| Client.BosonNLP.PrepareContents | bosonnlp/client.py:713-721 | the loop's state change equals `Workflow.PrepareContents` |
| Client.BosonNLP.Push | bosonnlp/client.py:574-578 | equals `Workflow.Push`: normalise, then push the records |
| Client.BosonNLP.PushRecords | bosonnlp/client.py:579-583 | the loop over 100-record slices changes the state exactly as `Workflow.PushRecords` |
| Client.BosonNLP.Analysis | bosonnlp/client.py:585-594 | equals `Workflow.Analysis` |
| Client.BosonNLP.Status | bosonnlp/client.py:596-609 | equals `Workflow.Status` |
| Client.BosonNLP.FetchResult | bosonnlp/client.py:611-616 | equals `Workflow.FetchResult` |
| Client.BosonNLP.Clear | bosonnlp/client.py:618-621 | equals `Workflow.Clear` |
| Client.BosonNLP.Run | bosonnlp/client.py:666-679 | equals `Workflow.Run` |
| Client.Task.constructor | bosonnlp/client.py:706-711 | the id is fixed and the mirror is empty |
| Client.Task.Create | bosonnlp/client.py:950-959 | equals `Workflow.CreateTask`: the id is chosen, then the contents are pushed |
| Client.Task.Push | bosonnlp/client.py:723-736 | the mirror and the client state change as `Workflow.TaskPush` |
| Client.Task.Analysis | bosonnlp/client.py:738-747 | equals `Workflow.Analysis` for the task's id |
| Client.Task.Status | bosonnlp/client.py:785-808 | equals `Workflow.Status` for the task's id |
| Client.Task.FetchResult | bosonnlp/client.py:810-817 | equals `Workflow.FetchResult` for the task's id |
| Client.Task.Clear | bosonnlp/client.py:819-826 | equals `Workflow.Clear` for the task's id |
| Client.Task.Analyse | bosonnlp/client.py:543-547 | equals `Workflow.Analyse`: analysis, wait and result, stopping at the first exception |
| Client.Task.WaitUntilComplete | bosonnlp/client.py:765-783 | the `while True` loop changes the state and ends exactly as `Workflow.WaitUntilComplete` |
| Scenarios.UniformPrepare | bosonnlp/client.py:713-721 | a list of one documented shape normalises to as many dicts |
| Scenarios.TwoPushes | tests.py:187-197 | two pushes that return leave a mirror of `len(a) + len(b)` dicts |
| Scenarios.SmallPush | bosonnlp/client.py:723-736 | a push of at most 100 texts whose one request is accepted extends the mirror and uses one reply |
| Scenarios.SevenRecords | tests.py:187-197 | four texts and then three more, each push accepted, give a mirror of 7 dicts after two requests |
| Scenarios.UnknownTask | tests.py:97-101 | with `timeout=1` and a `Not Found` status, one poll after one second raises `TaskNotFoundError` |
| Scenarios.ShortWait | tests.py:104-109 | with `timeout=0.1` and a running task, one poll after 0.1 seconds raises `TimeoutError('<ClusterTask id> timed out')` |

## Left out

- The `requests` session, its headers (`X-Token`, `Accept`, `User-Agent`) and the actual HTTP send (bosonnlp/client.py:69-74, 92). They are replaced by the request log and the scripted replies. A session that raises is the reply `Dropped`, or an exhausted script.
- `_gzip_compress` and `_json_dumps` (bosonnlp/client.py:39-46). Only the threshold decision is modelled. The UTF-8 length of the encoded body is an input (`Config.encodedLength`).
- `uuid.uuid4()`: it is a counter. `Uuid(n)` is injective, which is the only property the client relies on.
- `time.sleep`: nothing is slept. Each interval is appended to `sleeps`.
- Logging calls: they have no effect on the state.
- The stateless single-call endpoints (`sentiment`, `convert_time`, `classify`, `suggest`, `extract_keywords`, `depparser`, `ner`, `tag`, `summary`), `create_cluster_task` / `create_comments_task` as separate entry points, packaging, and the live-service tests. These are outside the task workflow.
- Text.Lower: lower-cases ASCII letters only. Python's `str.lower()` also maps non-ASCII letters.
- Http.PyStr: gives placeholders for `str()` of JSON arrays and objects, and renders JSON numbers as integers only. Floating-point JSON numbers are not modelled.
- Floating point: times and the `alpha` / `beta` parameters are exact reals.
- `contents=None`: it is the empty sequence, which `_prepare_contents` treats the same way (`if not contents`).
- The default arguments: `DEFAULT_TIMEOUT` (`Client.DefaultWaitTimeout`) and the HTTP timeout of 60 seconds are constants that a caller passes explicitly, since Dafny has no default parameters.
- The constructor of `ClusterTask` / `CommentsTask` raising is modelled as the `created` outcome of `Client.Task.Create`. When it is a failure, the caller never sees the task, as in Python.
- Client.Task.WaitUntilComplete: the wait is bounded by the scripted replies. Once they are used up, the next poll fails like a broken session. So "polls forever" with `timeout=0` and no `done` shows as a wait that lasts as long as the server answers.
- Cleanup of the one-shot wrappers is the plain `finally` of bosonnlp/client.py:548-550: an exception raised by `clear()` replaces the outcome of the `try` block, exception or value (`WorkflowLemmas.RunOutcome`).
