/**
 * The server as the model sees it: the outcome of `fetch`, the body read with
 * `response.json()`, and the requests it sends.
 */
module Http {
  import opened Wrappers
  import opened Text
  import opened Posts

  /** What `await fetch(...)` gives: a response, or the message it rejected with. */
  datatype Fetched<B> = Answered(status: nat, body: B) | Failed(message: string)

  /** What `await response.json()` gives: the value, or the message of the parse error. */
  datatype Json<T> = Parsed(value: T) | Unparsable(message: string)

  /** The requests the model sends, each to its REST endpoint. */
  datatype Request =
    | ListPosts                                // GET  /api/posts
    | SendNewPost(data: PostData)              // POST /api/posts
    | SendUpdate(id: PostId, data: PostData)   // PUT  /api/posts/{id}
    | SendDelete(id: PostId)                   // DELETE /api/posts/{id}

  /** A request, with the number of notifications the model had sent before sending it. */
  datatype Sent = Sent(request: Request, after: nat)

  const NotFound: nat := 404
  const StatusPrefix: string := "HTTP error! status: "

  /** `response.ok` */
  predicate IsOk(status: nat) {
    200 <= status <= 299
  }

  /** `HTTP error! status: ${response.status}`: the message names the status exactly. */
  function StatusError(status: nat): (m: string)
    ensures |StatusPrefix| < |m| && m[..|StatusPrefix|] == StatusPrefix
    ensures var digits := m[|StatusPrefix|..];
      (forall k :: 0 <= k < |digits| ==> '0' <= digits[k] <= '9') && DecimalValue(digits) == status
  {
    DecimalRoundTrip(status);
    var m := StatusPrefix + Decimal(status);
    assert m[|StatusPrefix|..] == Decimal(status);
    m
  }

  /** `fetch` followed by `if (!response.ok) throw`: the response body, or the error thrown. */
  function Settle<B>(f: Fetched<B>): (r: Result<B>)
    ensures r.Success? <==> f.Answered? && IsOk(f.status)
    ensures r.Success? ==> r.value == f.body
    ensures r.Failure? && f.Answered? ==> r.error == StatusError(f.status)
    ensures r.Failure? && f.Failed? ==> r.error == f.message
  {
    match f
    case Failed(message) => Failure(message)
    case Answered(status, body) => if IsOk(status) then Success(body) else Failure(StatusError(status))
  }

  /** `Settle` and then `await response.json()`. */
  function ReadJson<T>(f: Fetched<Json<T>>): (r: Result<T>)
    ensures r.Success? <==> f.Answered? && IsOk(f.status) && f.body.Parsed?
    ensures r.Success? ==> r.value == f.body.value
    ensures r.Failure? ==> r.error == if Settle(f).Failure? then Settle(f).error else f.body.message
  {
    match Settle(f)
    case Failure(message) => Failure(message)
    case Success(body) =>
      match body
      case Parsed(value) => Success(value)
      case Unparsable(message) => Failure(message)
  }
}
