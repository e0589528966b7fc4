/**
 * The slice of Express the handlers touch: the parsed request, and the response object
 * that `status`, `send`, `setHeader` and `redirect` update in place.
 */
module Http {
  import opened Wrappers

  /** `req.query` and `req.body` after url-encoded parsing. */
  datatype Request = Request(query: map<string, string>, body: map<string, string>)

  /** One key/value of a `URLSearchParams`, kept as the JavaScript value it was built from. */
  datatype Param = Param(key: string, value: Option<string>)

  function Keys(query: seq<Param>): (keys: seq<string>)
    ensures |keys| == |query|
    ensures forall i :: 0 <= i < |query| ==> keys[i] == query[i].key
  {
    if query == [] then [] else [query[0].key] + Keys(query[1..])
  }

  /** What has been sent: a redirect to `path?query`, or a body. */
  datatype Payload = RedirectTo(path: string, query: seq<Param>) | Content(text: string)

  /** The observable state of a response; `payload` is `None` until something is sent. */
  datatype Reply = Reply(status: int, headers: map<string, string>, payload: Option<Payload>)

  /** The response Express hands to every handler. */
  const Initial := Reply(200, map[], None)

  /** Express's `res`. Sending twice is an error in Express, so each send requires nothing sent yet. */
  class ServerResponse {
    var statusCode: int
    var headers: map<string, string>
    var payload: Option<Payload>

    constructor ()
      ensures Current() == Initial
    {
      statusCode, headers, payload := 200, map[], None;
    }

    function Current(): Reply
      reads this
    {
      Reply(statusCode, headers, payload)
    }

    /** `res.status(code)`. */
    method Status(code: int)
      modifies this
      ensures Current() == old(Current()).(status := code)
    {
      statusCode := code;
    }

    /** `res.setHeader(name, value)`. */
    method SetHeader(name: string, value: string)
      requires payload.None?
      modifies this
      ensures Current() == old(Current()).(headers := old(headers)[name := value])
    {
      headers := headers[name := value];
    }

    /** `res.send(text)`. */
    method Send(text: string)
      requires payload.None?
      modifies this
      ensures Current() == old(Current()).(payload := Some(Content(text)))
    {
      payload := Some(Content(text));
    }

    /** `res.redirect(code, path + "?" + query)`. */
    method Redirect(code: int, path: string, query: seq<Param>)
      requires payload.None?
      modifies this
      ensures Current() == old(Current()).(status := code, payload := Some(RedirectTo(path, query)))
    {
      statusCode, payload := code, Some(RedirectTo(path, query));
    }
  }
}
