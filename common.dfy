/** Values that travel between the browser client and the REST backend. */
module Common {

  datatype Option<+T> = None | Some(value: T) {
    function GetOr(default: T): T {
      match this
      case Some(v) => v
      case None => default
    }
  }

  /** A JSON object whose fields are strings: a request body as the backend's
      `request.get_json()` sees it. Numbers and dates travel as their text. */
  type Json = map<string, string>

  /** `dict.get(key)`: the field if the body has it, `None` otherwise. */
  function Field(data: Json, key: string): (r: Option<string>)
    ensures r.Some? <==> key in data
    ensures r.Some? ==> r.value == data[key]
  {
    if key in data then Some(data[key]) else None
  }

  /** One element of the `transactions` array of `GET /transactions`. */
  datatype TxnView = TxnView(id: nat, amount: string, description: Option<string>, date: string)

  /** The fields of a response body that the client looks at; a field the
      body does not carry (or carries as `null`) is `None`. */
  datatype ResponseData = ResponseData(
    accessToken: Option<string>,
    message: Option<string>,
    transactions: Option<seq<TxnView>>)

  /** An HTTP response that axios rejects: its status and parsed body
      (`None` when the body parsed to `null`). */
  datatype HttpError = HttpError(status: int, data: Option<ResponseData>)

  /** What an awaited axios call produces: a resolved response with its body,
      or a rejection, which carries a response unless it is a network error. */
  datatype Outcome =
    | Success(data: Option<ResponseData>)
    | Failure(response: Option<HttpError>)

  /** `response?.data?.access_token` of a resolved response's body. */
  function AccessTokenOf(data: Option<ResponseData>): Option<string> {
    if data.Some? then data.value.accessToken else None
  }

  /** `error.response?.data?.message` of a rejection. */
  function MessageOf(response: Option<HttpError>): Option<string> {
    if response.Some? && response.value.data.Some? then response.value.data.value.message else None
  }

  /** `err?.response?.status` of a rejection. */
  function StatusOf(response: Option<HttpError>): Option<int> {
    if response.Some? then Some(response.value.status) else None
  }

  /** JavaScript truthiness of a value that is a string or absent. */
  predicate Truthy(s: Option<string>) {
    s.Some? && s.value != ""
  }
}
