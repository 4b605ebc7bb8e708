/**
 * The slice of Go's net/http that the handlers touch: an inbound request,
 * a header map that is updated in place, and a response writer that
 * records the status, headers and body written to it.
 */
module Http {
  import opened Wrappers

  const StatusOK: int := 200
  const StatusAccepted: int := 202
  const StatusBadRequest: int := 400
  const StatusNotFound: int := 404
  const StatusInternalServerError: int := 500

  /** Header names mapped to their list of values (`http.Header`). */
  type HeaderMap = map<string, seq<string>>

  /**
   * An inbound request; `verb` is its HTTP method. `body` is None when the request carries no body
   * reader at all (a nil `Body`).
   */
  datatype Request = Request(verb: string, header: HeaderMap, body: Option<string>)

  /** The path variable `key`, or "" when the route supplied none (a Go map miss). */
  function Var(vars: map<string, string>, key: string): (v: string)
    ensures key in vars ==> v == vars[key]
    ensures key !in vars ==> v == ""
  {
    if key in vars then vars[key] else ""
  }

  /** A header map owned by a request or response and changed in place. */
  class Header {
    var entries: HeaderMap

    constructor ()
      ensures entries == map[]
    {
      entries := map[];
    }

    /** `Header.Set`: the key now has exactly the one given value. */
    method Set(key: string, value: string)
      modifies this
      ensures entries == old(entries)[key := [value]]
    {
      entries := entries[key := [value]];
    }
  }

  /**
   * `http.ResponseWriter` as the server sees it: the first status written
   * wins, and a body written before any status implies 200. A handler that
   * writes nothing at all is answered with 200.
   */
  class ResponseWriter {
    const header: Header
    var code: Option<int>
    var body: string

    constructor ()
      ensures fresh(header) && header.entries == map[]
      ensures code == None && body == []
    {
      header := new Header();
      code := None;
      body := [];
    }

    /** The status the caller receives once the handler returns. */
    function Status(): int
      reads this
    {
      code.GetOr(StatusOK)
    }

    /** A writer nothing has been written to yet, as the server hands to a handler. */
    predicate Untouched()
      reads this
    {
      code == None && body == []
    }

    method WriteHeader(status: int)
      modifies this
      ensures code == if old(code).None? then Some(status) else old(code)
      ensures body == old(body)
    {
      if code.None? {
        code := Some(status);
      }
    }

    method Write(data: string)
      modifies this
      ensures code == if old(code).None? then Some(StatusOK) else old(code)
      ensures body == old(body) + data
    {
      if code.None? {
        code := Some(StatusOK);
      }
      body := body + data;
    }
  }
}
