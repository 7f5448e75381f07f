/**
 * The application's own middleware: the session's log of requested URLs,
 * the catch-all that turns an unmatched request into a 404 error, and the
 * terminal error handler that maps an error to a status and a JSON body.
 */
module App {
  import opened Http

  type Url = string

  /** The environment name under which the error handler exposes the error object. */
  const Development := "development"

  // ---------------------------------------------------------------------------
  // The session's URL history
  // ---------------------------------------------------------------------------

  /** `req.session.urlHistory`: absent until the first request of the session. */
  class SessionUrlHistory {
    var urlHistory: Option<seq<Url>>

    /** The history as a list; an absent history reads as empty. */
    function Urls(): seq<Url>
      reads this
    {
      if urlHistory.Some? then urlHistory.value else []
    }

    constructor ()
      ensures urlHistory == None
    {
      urlHistory := None;
    }

    /** The middleware: append the request URL (no cap), then call `next()` once. */
    method Record(url: Url) returns (calls: seq<NextCall>)
      modifies this
      ensures urlHistory == Some(old(Urls()) + [url])
      ensures old(urlHistory) == None ==> urlHistory == Some([url])
      ensures |Urls()| == |old(Urls())| + 1
      ensures calls == [NextCall(None)]
    {
      if urlHistory.Some? {
        urlHistory := Some(urlHistory.value + [url]);
      } else {
        assert old(Urls()) + [url] == [url];
        urlHistory := Some([url]);
      }
      calls := [NextCall(None)];
    }
  }

  /** The history after the requests `urls`, one `Record` each, starting from `start`. */
  function HistoryAfter(start: seq<Url>, urls: seq<Url>): seq<Url> {
    if urls == [] then start
    else HistoryAfter(start, urls[..|urls| - 1]) + [urls[|urls| - 1]]
  }

  /** The history never drops an entry: it is the old history followed by every requested URL. */
  lemma {:induction false} HistoryKeepsEveryUrl(start: seq<Url>, urls: seq<Url>)
    ensures HistoryAfter(start, urls) == start + urls
  {
    if urls != [] {
      var init := urls[..|urls| - 1];
      HistoryKeepsEveryUrl(start, init);
      assert init + [urls[|urls| - 1]] == urls;
      assert start + init + [urls[|urls| - 1]] == start + urls;
    }
  }

  /** A session that sees the requests `urls` in turn holds `HistoryAfter` of them. */
  method RecordAll(session: SessionUrlHistory, urls: seq<Url>)
    modifies session
    ensures session.Urls() == HistoryAfter(old(session.Urls()), urls)
    ensures urls != [] ==> session.urlHistory.Some?
    ensures urls == [] ==> session.urlHistory == old(session.urlHistory)
  {
    ghost var start := session.Urls();
    var i := 0;
    while i < |urls|
      invariant 0 <= i <= |urls|
      invariant session.Urls() == HistoryAfter(start, urls[..i])
      invariant i > 0 ==> session.urlHistory.Some?
      invariant i == 0 ==> session.urlHistory == old(session.urlHistory)
    {
      var _ := session.Record(urls[i]);
      assert urls[..i + 1][..i] == urls[..i];
      i := i + 1;
    }
    assert urls[..|urls|] == urls;
  }

  // ---------------------------------------------------------------------------
  // 404 fallthrough and the error handler
  // ---------------------------------------------------------------------------

  /** The error `createError(404)` builds. */
  const NotFound := HttpError("Not Found", Some(404))

  /** The catch-all after the routers: forward a 404 error. */
  function CatchAll(): (calls: seq<NextCall>)
    ensures |calls| == 1 && calls[0].error.Some? && calls[0].error.value.status == Some(404)
  {
    [NextCall(Some(NotFound))]
  }

  /** `res.locals.error`: the error object itself, or `{}`. */
  datatype ExposedError = ErrorObject(err: HttpError) | EmptyObject

  /** The JSON body of an error response, `res.locals`. */
  datatype ErrorLocals = ErrorLocals(message: string, error: ExposedError)

  /** `err.status || 500`: a missing or zero status becomes 500. */
  function ErrorStatus(err: HttpError): (s: int)
    ensures s != 0
    ensures err.status.Some? && err.status.value != 0 ==> s == err.status.value
    ensures err.status.None? || err.status == Some(0) ==> s == 500
  {
    if err.status.Some? && err.status.value != 0 then err.status.value else 500
  }

  /** The terminal error handler. */
  function ErrorResponse(err: HttpError, env: string): (r: Reply<ErrorLocals>)
    ensures r.status == ErrorStatus(err) && r.cookies == []
    ensures r.body.Json? && r.body.value.message == err.message
    ensures r.body.value.error.ErrorObject? <==> env == Development
    ensures r.body.value.error.ErrorObject? ==> r.body.value.error.err == err
  {
    Reply(ErrorStatus(err),
          Json(ErrorLocals(err.message, if env == Development then ErrorObject(err) else EmptyObject)),
          [])
  }

  /** A request that no router answers gets a 404 error response, in every environment. */
  lemma UnmatchedRequestAnswers404(env: string)
    ensures ErrorResponse(CatchAll()[0].error.value, env).status == 404
    ensures ErrorResponse(CatchAll()[0].error.value, env).body.value.message == "Not Found"
  {
  }

  /**
   * The status the client finally receives for a handler's outcome: its own
   * reply's, or the error handler's for a forwarded error (which overrides
   * any status the handler set before forwarding). A rejected async handler
   * reaches no handler of this application.
   */
  function FinalStatus<T>(o: Outcome<T>, env: string): (s: Option<int>)
    ensures o.Sent? ==> s == Some(o.reply.status)
    ensures o.Forwarded? ==> s == Some(ErrorResponse(o.error, env).status)
    ensures o.Rejected? ==> s == None
  {
    match o
    case Sent(reply) => Some(reply.status)
    case Forwarded(_, err) => Some(ErrorResponse(err, env).status)
    case Rejected(_) => None
  }
}
