/** What travels between the services: JSON bodies of replies, the outcome of one
    HTTP call, and the lines an answer is built from. */
module Wire {
  import opened Wrappers

  /** One record of a reply's `data` list: field name to rendered value. Reading a
      field the record lacks raises `KeyError`. */
  type Item = map<string, string>

  /** A JSON object returned by a service. `Empty` is `{}`, which Python treats as
      false; `Body` is any other object, with its `status` and `data` fields (a
      missing `data` reads as `[]`). */
  datatype Reply = Empty | Body(status: Option<string>, data: seq<Item>)

  /** `if reply:` on the optional result of a call. */
  predicate Truthy(r: Option<Reply>)
  {
    r.Some? && r.value.Body?
  }

  /** `reply and reply.get('status') == 'success'` */
  predicate Succeeded(r: Option<Reply>)
  {
    Truthy(r) && r.value.status == Some("success")
  }

  /** How one HTTP call ended: a parsed body, or one of the four failure kinds the
      callers catch (timeout, connection error, 4xx/5xx status, anything else). */
  datatype Outcome =
    | Responded(body: Reply)
    | Timeout
    | ConnectionError
    | HttpStatus(code: int)
    | Unexpected(detail: string)

  /** The two data services an answer draws on. */
  datatype Dep = HospitalDep | InsuranceDep
}
