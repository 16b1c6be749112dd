/** The decision logic of `BosonNLP._api_request` over an abstract transport:
    URL joining, the gzip threshold, the classification of replies into
    `HTTPError`s, and requests sent one after another until one fails. */
module Http {
  import opened Text
  import opened Values

  datatype Method = GET | POST

  /** What `BosonNLP.__init__` fixes for every request: the base URL (already
      trimmed), whether large bodies are compressed, the HTTP timeout, and the
      length of the UTF-8 JSON encoding of a body (`_json_dumps` is not part of
      this model, so its length is supplied from outside). */
  datatype Config = Config(baseUrl: string, compress: bool, timeout: real, encodedLength: seq<Value> -> nat)

  /** One request as the session receives it. `gzip` is the
      `Content-Encoding: gzip` header; `body` is the JSON payload before
      encoding. */
  datatype Request = Request(verb: Method, url: string, params: map<string, real>,
                             body: Option<seq<Value>>, gzip: bool, timeout: real)

  /** One scripted reply: an HTTP response (status code, reason phrase, and the
      decoded JSON body, `None` when the body is not JSON), or a session that
      raised instead of answering. */
  datatype Reply = Answer(code: int, reason: string, json: Option<Json>) | Dropped

  datatype Exchange = Exchange(request: Request, reply: Reply)

  /** Bodies whose encoding is longer than this many bytes are compressed. */
  const GzipThreshold: nat := 10 * 1024

  predicate ShouldCompress(compress: bool, encodedLength: nat)
  {
    encodedLength > GzipThreshold && compress
  }

  /** The request `_api_request(method, path, ...)` hands to the session. */
  function MakeRequest(cfg: Config, verb: Method, path: string, params: map<string, real>,
                       body: Option<seq<Value>>): (r: Request)
    ensures r.url == cfg.baseUrl + path && r.url[..|cfg.baseUrl|] == cfg.baseUrl
    ensures r.gzip <==> verb == POST && body.Some? && cfg.compress && cfg.encodedLength(body.value) > 10240
    ensures r.verb == verb && r.params == params && r.body == body && r.timeout == cfg.timeout
  {
    var gzip := verb == POST && body.Some? && ShouldCompress(cfg.compress, cfg.encodedLength(body.value));
    Request(verb, cfg.baseUrl + path, params, body, gzip, cfg.timeout)
  }

  /** Python's `str(v)` for a JSON scalar; arrays and objects are shown by a
      placeholder. */
  function PyStr(j: Json): string
  {
    match j
    case JStr(s) => s
    case JNum(n) => IntToString(n)
    case JBool(b) => if b then "True" else "False"
    case JNull => "None"
    case JArr(_) => "[...]"
    case JObj(_) => "{...}"
  }

  /** `r.json()['message']` when the body is an object holding one, else the
      reason phrase (the bare `except` swallows every other case). */
  function ReasonOf(code: int, reason: string, json: Option<Json>): string
  {
    if json.Some? && json.value.JObj? && "message" in json.value.fields
    then PyStr(json.value.fields["message"])
    else reason
  }

  function HttpErrorMessage(code: int, reason: string): string
  {
    "HTTPError: " + IntToString(code) + " " + reason
  }

  /** `requests.Response.ok`. */
  predicate IsOk(code: int)
  {
    !(400 <= code < 600)
  }

  /** What `_api_request` makes of one reply: it raises `HTTPError` exactly for
      status codes in [400, 600) and returns the response otherwise. */
  function Classify(reply: Reply): (r: Result<Reply>)
    ensures reply.Dropped? ==> r == Failure(TransportFailure)
    ensures reply.Answer? ==> (r.Failure? <==> 400 <= reply.code < 600)
    ensures reply.Answer? && r.Failure? ==>
      r.error == HttpError(reply.code, HttpErrorMessage(reply.code, ReasonOf(reply.code, reply.reason, reply.json)))
    ensures r.Success? ==> r.value == reply && reply.Answer? && IsOk(reply.code)
  {
    match reply
    case Dropped => Failure(TransportFailure)
    case Answer(code, reason, json) =>
      if 400 <= code < 600 then Failure(HttpError(code, HttpErrorMessage(code, ReasonOf(code, reason, json))))
      else Success(reply)
  }

  /** The error message carries the status code where a reader of it finds
      it: three digits right after `HTTPError: `, then the reason. */
  lemma HttpErrorMessageCode(code: int, reason: string)
    requires 400 <= code < 600
    ensures var m := HttpErrorMessage(code, reason);
      |m| == 15 + |reason| && m[..11] == "HTTPError: " && ParseNat(m[11..14]) == code &&
      m[14] == ' ' && m[15..] == reason
  {
    ThreeDigits(code);
    NatToStringRoundTrip(code);
    var m := HttpErrorMessage(code, reason);
    assert m[11..14] == NatToString(code);
  }

  /** The reply the next request gets from the script; once the script is used
      up the session fails. */
  function Next(script: seq<Reply>): Reply
  {
    if |script| == 0 then Dropped else script[0]
  }

  function Rest(script: seq<Reply>): seq<Reply>
  {
    if |script| == 0 then [] else script[1..]
  }

  function ReplyAt(script: seq<Reply>, k: nat): Reply
  {
    if k < |script| then script[k] else Dropped
  }

  function Drop(script: seq<Reply>, n: nat): seq<Reply>
  {
    if n <= |script| then script[n..] else []
  }

  datatype Transmission = Transmission(log: seq<Exchange>, rest: seq<Reply>, failure: Option<Error>)

  /** Sending `reqs` in order, each only after the previous one was answered,
      and stopping at the first one `_api_request` raises for. The requests
      already sent stay sent. */
  function Transmit(reqs: seq<Request>, script: seq<Reply>): (t: Transmission)
    ensures |t.log| <= |reqs|
    decreases |reqs|
  {
    if |reqs| == 0 then Transmission([], script, None)
    else
      var reply := Next(script);
      match Classify(reply)
      case Failure(e) => Transmission([Exchange(reqs[0], reply)], Rest(script), Some(e))
      case Success(_) =>
        var t := Transmit(reqs[1..], Rest(script));
        Transmission([Exchange(reqs[0], reply)] + t.log, t.rest, t.failure)
  }

  lemma ReplyAtRest(script: seq<Reply>, k: nat)
    ensures ReplyAt(Rest(script), k) == ReplyAt(script, k + 1)
    ensures Drop(Rest(script), k) == Drop(script, k + 1)
    ensures Next(script) == ReplyAt(script, 0)
  {
  }

  /** The i-th request sent gets the i-th scripted reply, and the replies not
      used stay in the script. */
  lemma {:induction false} TransmitLog(reqs: seq<Request>, script: seq<Reply>)
    ensures var t := Transmit(reqs, script);
      && (forall k :: 0 <= k < |t.log| ==> t.log[k] == Exchange(reqs[k], ReplyAt(script, k)))
      && t.rest == Drop(script, |t.log|)
    decreases |reqs|
  {
    if 0 < |reqs| && Classify(Next(script)).Success? {
      var t, u := Transmit(reqs, script), Transmit(reqs[1..], Rest(script));
      TransmitLog(reqs[1..], Rest(script));
      ReplyAtRest(script, |u.log|);
      forall k | 0 < k < |t.log| ensures t.log[k] == Exchange(reqs[k], ReplyAt(script, k)) {
        assert t.log[k] == u.log[k - 1];
        ReplyAtRest(script, k - 1);
      }
    }
  }

  /** It stops only at a failing reply, and otherwise sends every request. */
  lemma {:induction false} TransmitStop(reqs: seq<Request>, script: seq<Reply>)
    ensures var t := Transmit(reqs, script);
      && (t.failure.None? ==> |t.log| == |reqs|)
      && (t.failure.Some? ==> 0 < |t.log| && Classify(ReplyAt(script, |t.log| - 1)) == Failure(t.failure.value))
    decreases |reqs|
  {
    if 0 < |reqs| {
      ReplyAtRest(script, 0);
      if Classify(Next(script)).Success? {
        var u := Transmit(reqs[1..], Rest(script));
        TransmitStop(reqs[1..], Rest(script));
        if u.failure.Some? {
          ReplyAtRest(script, |u.log| - 1);
        }
      }
    }
  }

  /** Every reply it got, except a failing last one, was a success. */
  lemma {:induction false} TransmitAnswered(reqs: seq<Request>, script: seq<Reply>)
    ensures var t := Transmit(reqs, script);
      forall k :: 0 <= k < |t.log| && (k < |t.log| - 1 || t.failure.None?) ==> Classify(ReplyAt(script, k)).Success?
    decreases |reqs|
  {
    if 0 < |reqs| && Classify(Next(script)).Success? {
      var t, u := Transmit(reqs, script), Transmit(reqs[1..], Rest(script));
      TransmitAnswered(reqs[1..], Rest(script));
      ReplyAtRest(script, 0);
      forall k | 0 < k < |t.log| && (k < |t.log| - 1 || t.failure.None?)
        ensures Classify(ReplyAt(script, k)).Success?
      {
        ReplyAtRest(script, k - 1);
      }
    }
  }

  /** It fails exactly when one of the replies is an error, and then at the
      first such reply. */
  lemma TransmitOutcome(reqs: seq<Request>, script: seq<Reply>)
    ensures var t := Transmit(reqs, script);
      && (t.failure.None? <==> forall k :: 0 <= k < |reqs| ==> Classify(ReplyAt(script, k)).Success?)
      && (t.failure.Some? ==> forall k :: 0 <= k < |t.log| - 1 ==> Classify(ReplyAt(script, k)).Success?)
  {
    TransmitStop(reqs, script);
    TransmitAnswered(reqs, script);
    var t := Transmit(reqs, script);
    if t.failure.Some? {
      var k := |t.log| - 1;
      assert Classify(ReplyAt(script, k)).Failure?;
    }
  }

  /** One request more: the reply after `n` used ones is the n-th, and the
      script shrinks by one. */
  lemma DropStep(script: seq<Reply>, n: nat)
    ensures Next(Drop(script, n)) == ReplyAt(script, n)
    ensures Rest(Drop(script, n)) == Drop(script, n + 1)
    ensures |Drop(script, n)| == if n <= |script| then |script| - n else 0
  {
  }

  /** The first `n` requests with the replies they get. */
  function Sent(reqs: seq<Request>, script: seq<Reply>, n: nat): seq<Exchange>
    requires n <= |reqs|
  {
    seq(n, k requires 0 <= k < n => Exchange(reqs[k], ReplyAt(script, k)))
  }

  lemma SentStep(reqs: seq<Request>, script: seq<Reply>, n: nat)
    requires n < |reqs|
    ensures Sent(reqs, script, n) + [Exchange(reqs[n], ReplyAt(script, n))] == Sent(reqs, script, n + 1)
  {
  }

  /** When every reply succeeds, every request is sent, each with its reply,
      and nothing fails. */
  lemma TransmitAllOk(reqs: seq<Request>, script: seq<Reply>)
    requires forall k :: 0 <= k < |reqs| ==> Classify(ReplyAt(script, k)).Success?
    ensures Transmit(reqs, script) == Transmission(Sent(reqs, script, |reqs|), Drop(script, |reqs|), None)
  {
    TransmitOutcome(reqs, script);
    TransmitStop(reqs, script);
    TransmitLog(reqs, script);
  }

  /** When reply `j` is the first failing one, requests 0 .. j are sent and
      the error of reply `j` is the outcome. */
  lemma TransmitFirstFailure(reqs: seq<Request>, script: seq<Reply>, j: nat)
    requires j < |reqs|
    requires forall k :: 0 <= k < j ==> Classify(ReplyAt(script, k)).Success?
    requires Classify(ReplyAt(script, j)).Failure?
    ensures Transmit(reqs, script) ==
      Transmission(Sent(reqs, script, j + 1), Drop(script, j + 1), Some(Classify(ReplyAt(script, j)).error))
  {
    TransmitOutcome(reqs, script);
    TransmitStop(reqs, script);
    TransmitAnswered(reqs, script);
    TransmitLog(reqs, script);
    var t := Transmit(reqs, script);
    assert t.failure.Some?;
    assert |t.log| == j + 1;
  }
}
