/**
 * What a Go handler leaves on its `http.ResponseWriter`, as a value the handler threads through
 * its steps.  `net/http` keeps the first status code written and ignores later `WriteHeader`
 * calls; a body write before any status implies 200.  Body pieces accumulate in order.
 */
module HttpWriter {
  import opened Wrappers

  const StatusOK: int := 200
  const StatusCreated: int := 201
  const StatusNoContent: int := 204
  const StatusBadRequest: int := 400
  const StatusNotFound: int := 404
  const StatusInternalServerError: int := 500

  /** One piece of response body: the text of `http.Error`, or a JSON-encoded value. */
  datatype Chunk<T> = Text(message: string) | Json(value: T)

  datatype Writer<T> = Writer(header: Option<int>, body: seq<Chunk<T>>)

  function Fresh<T>(): Writer<T>
  {
    Writer(None, [])
  }

  /** `w.WriteHeader(code)`: only the first call has an effect. */
  function WriteHeader<T>(w: Writer<T>, code: int): Writer<T>
  {
    if w.header.None? then w.(header := Some(code)) else w
  }

  /** `w.Write(...)` of one body piece; writing before any header commits status 200. */
  function Write<T>(w: Writer<T>, c: Chunk<T>): Writer<T>
  {
    var w' := WriteHeader(w, StatusOK);
    w'.(body := w'.body + [c])
  }

  /** `http.Error(w, message, code)`. */
  function Error<T>(w: Writer<T>, message: string, code: int): Writer<T>
  {
    Write(WriteHeader(w, code), Text(message))
  }

  /** `w.WriteHeader(code)` followed by `json.NewEncoder(w).Encode(value)`. */
  function Reply<T>(w: Writer<T>, code: int, value: T): Writer<T>
  {
    Write(WriteHeader(w, code), Json(value))
  }

  /** The status the client receives. */
  function Status<T>(w: Writer<T>): int
  {
    w.header.GetOr(StatusOK)
  }
}
