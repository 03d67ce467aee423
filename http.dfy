/** What a gin handler writes: a status code and the JSON bodies, or a panic that aborts the handler. */
module Http {
  import opened Wrappers

  const StatusOK := 200
  const StatusCreated := 201
  const StatusBadRequest := 400
  const StatusForbidden := 403
  const StatusNotFound := 404
  const StatusInternalServerError := 500

  /** A JSON body: an object of string fields, such an object with one extra field holding a value,
      a bare value, or a bare JSON string. */
  datatype Body<T> =
    | Fields(pairs: seq<(string, string)>)
    | FieldsWith(pairs: seq<(string, string)>, key: string, value: T)
    | Payload(value: T)
    | Text(text: string)

  /** The response. gin commits the status of the first write; a later write only appends its body. */
  datatype Reply<T> = Reply(status: int, bodies: seq<Body<T>>) | Crash(reason: string)

  function Json<T>(status: int, body: Body<T>): (r: Reply<T>)
    ensures r.Reply? && r.status == status && r.bodies == [body]
  {
    Reply(status, [body])
  }

  /** A second write to a reply that already has one: the first status stays. */
  function Then<T>(r: Reply<T>, status: int, body: Body<T>): (r': Reply<T>)
    requires r.Reply?
    ensures r'.Reply? && r'.status == r.status && r'.bodies == r.bodies + [body]
  {
    Reply(r.status, r.bodies + [body])
  }

  /** The query parameters of a request, by name, each with the first value c.Query gives. */
  type Query = map<string, string>

  /** c.Query: a missing parameter reads as "". */
  function QueryGet(q: Query, name: string): (v: string)
    ensures name in q ==> v == q[name]
    ensures name !in q ==> v == ""
  {
    if name in q then q[name] else ""
  }

  /** What c.BindJSON / c.ShouldBindJSON leave behind: the (possibly partly filled) struct and the
      error, if decoding failed. */
  datatype Bound<T> = Bound(value: T, err: Option<string>)
}
