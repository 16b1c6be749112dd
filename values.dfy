/** The values that cross the client's boundary: caller content items, JSON
    bodies of replies, and the exceptions the client raises. */
module Values {

  datatype Option<+T> = None | Some(value: T)

  /** A Python call that either returns a value or raises. */
  datatype Result<+T> = Success(value: T) | Failure(error: Error)

  /** A Python call that returns nothing or raises. */
  datatype Outcome = Pass | Fail(error: Error)

  /** The exceptions of bosonnlp/exceptions.py plus those Python itself raises
      on the paths modelled here. */
  datatype Error =
    /** `requests.HTTPError` raised by `_api_request` for a 4xx or 5xx reply. */
    | HttpError(code: int, message: string)
    /** `TaskNotFoundError`, a subclass of `HTTPError`. */
    | TaskNotFound(message: string)
    /** `TaskError`, a subclass of `HTTPError`. */
    | TaskFailed(message: string)
    /** `TimeoutError` raised by `wait_until_complete`. */
    | Timeout(message: string)
    /** Anything the HTTP session itself raises (connection refused, reset ...). */
    | TransportFailure
    /** A reply body that is not the JSON the client indexes into
        (`ValueError`, `KeyError` or `TypeError` out of `r.json()[...]` or `len`). */
    | BadReply
    /** `ValueError`/`TypeError` from unpacking an item that is not a pair. */
    | UnpackError
    /** `ValueError` from `time.sleep` given a negative interval. */
    | SleepError

  /** `except HTTPError` catches these three. */
  predicate IsHttpError(e: Error)
  {
    e.HttpError? || e.TaskNotFound? || e.TaskFailed?
  }

  /** A content item as a caller may pass it: a text, an `(_id, text)` tuple
      (of any length, as Python allows), a `{'_id': id, 'text': text}` dict, or
      an integer (the shape an id usually has). */
  datatype Value =
    | Str(s: string)
    | Int(n: int)
    | Tuple(elems: seq<Value>)
    | Dict(id: Value, text: Value)

  /** A decoded JSON document. */
  datatype Json =
    | JNull
    | JBool(b: bool)
    | JNum(n: int)
    | JStr(s: string)
    | JArr(items: seq<Json>)
    | JObj(fields: map<string, Json>)

  /** Python's `min` on two integers. */
  function Min(a: int, b: int): int
  {
    if a <= b then a else b
  }
}
