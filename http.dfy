/** The HTTP exchange as the clients see it: the request they build, the
    outcome of sending it, and the order in which a response is judged. */
module Http {
  import opened Results
  import opened Json

  /** A GET request: the URL and its query pairs, in order. */
  datatype Request = Get(url: string, query: seq<(string, string)>)

  /** A response body as JSON parsing sees it. */
  datatype Text = Malformed | Document(value: Json)

  datatype Body = Unreadable | Readable(text: Text)

  datatype Response = Response(status: int, body: Body)

  datatype Outcome = SendFailed | Received(response: Response)

  /** Sending a request over the network, as a parameter of the model. */
  type Client = Request -> Outcome

  /** Client errors (4xx) and server errors (5xx) are failures. */
  predicate IsErrorStatus(status: int) { 400 <= status < 600 }

  /** Judge the outcome of one request: a failed send, then the status,
      then reading the body, and only then decoding it. */
  function Receive<W>(outcome: Outcome, decode: Text -> Result<W>): (r: Result<W>)
    ensures r.Ok? <==> (outcome.Received? && !IsErrorStatus(outcome.response.status)
                        && outcome.response.body.Readable? && decode(outcome.response.body.text).Ok?)
    ensures r.Ok? ==> r == decode(outcome.response.body.text)
    ensures r.Err? && r.error.Transport? ==>
              outcome.SendFailed? || outcome.response.body.Unreadable? || decode(outcome.response.body.text) == r
  {
    match outcome
    case SendFailed => Err(Transport)
    case Received(Response(status, body)) =>
      if IsErrorStatus(status) then Err(HttpStatus(status))
      else
        match body
        case Unreadable => Err(Transport)
        case Readable(text) => decode(text)
  }

  /** An error status fails with that status whatever the body holds and
      whatever the decoder would have made of it. */
  lemma StatusBeforeBody<W>(status: int, b1: Body, b2: Body, d1: Text -> Result<W>, d2: Text -> Result<W>)
    requires IsErrorStatus(status)
    ensures Receive(Received(Response(status, b1)), d1) == Err(HttpStatus(status))
    ensures Receive(Received(Response(status, b1)), d1) == Receive(Received(Response(status, b2)), d2)
  {
  }

  /** Any other status hands a readable body to the decoder unchanged. */
  lemma SuccessDecodesBody<W>(status: int, text: Text, decode: Text -> Result<W>)
    requires !IsErrorStatus(status)
    ensures Receive(Received(Response(status, Readable(text))), decode) == decode(text)
  {
  }
}
