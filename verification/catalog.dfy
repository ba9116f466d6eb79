/**
 * The catalog client's details call with its reactive CSRF refresh
 * (fetch_item_details and get_session_and_csrf in snipe.py).
 *
 * The server is not modelled: a Script fixes, in advance, the reply each
 * POST the call may make would receive, and the call returns the log of the
 * POSTs it actually made.
 */
module Catalog {
  import opened Wrappers
  import opened Items

  const CsrfHeader: string := "x-csrf-token"
  const Forbidden: int := 403

  /** The headers every fresh session starts with. */
  const BaseHeaders: map<string, string> :=
    map["User-Agent" := "Mozilla/5.0 (Windows NT 10.0; Win64; x64)",
        "Content-Type" := "application/json"]

  /** An HTTP reply: status, headers, and the "data" list of its JSON body ([] if absent). */
  datatype Response = Response(status: int, headers: map<string, string>, data: seq<ItemDetail>)

  /** A POST to the details endpoint: the headers it carried and the items of its payload. */
  datatype Post = Post(headers: map<string, string>, items: seq<Asset>)

  /**
   * The replies the server gives: to the first details POST, to the priming
   * POST of a refresh, and to the retried details POST.
   */
  datatype Script = Script(first: Response, priming: Response, retry: Response)

  /** What the details call yields: a list of details, the empty list of a short-circuit or give-up, or a raised HTTP error. */
  datatype Fetched = Ok(data: seq<ItemDetail>) | Empty | Error(status: int)

  /** The statuses for which `raise_for_status` raises: client and server errors. */
  predicate RaisesForStatus(status: int) {
    400 <= status < 600
  }

  /** The CSRF token a reply carries, if its header is present and non-empty. */
  function CsrfToken(resp: Response): (token: Option<string>)
    ensures token.Some? <==> CsrfHeader in resp.headers && resp.headers[CsrfHeader] != ""
    ensures token.Some? ==> token.value == resp.headers[CsrfHeader]
  {
    if CsrfHeader in resp.headers && resp.headers[CsrfHeader] != "" then Some(resp.headers[CsrfHeader])
    else None
  }

  /**
   * The headers of the session get_session_and_csrf returns after its
   * priming POST, or None when the reply has no token. The priming reply's
   * status is ignored.
   */
  function AcquireSession(priming: Response): (headers: Option<map<string, string>>)
    ensures headers.Some? <==> CsrfToken(priming).Some?
    ensures headers.Some? ==> CsrfHeader in headers.value && headers.value[CsrfHeader] == CsrfToken(priming).value
    ensures headers.Some? ==> forall h :: h in BaseHeaders && h != CsrfHeader ==> h in headers.value && headers.value[h] == BaseHeaders[h]
  {
    match CsrfToken(priming)
    case None => None
    case Some(token) => Some(BaseHeaders[CsrfHeader := token])
  }

  /** Whether an HTTP reply is returned as data or raised. */
  function Checked(resp: Response): (r: Fetched)
    ensures r.Error? <==> RaisesForStatus(resp.status)
    ensures r.Error? ==> r.status == resp.status
    ensures r.Ok? ==> r.data == resp.data
    ensures !r.Empty?
  {
    if RaisesForStatus(resp.status) then Error(resp.status) else Ok(resp.data)
  }

  /** The outcome of the details call for the given items and server replies. */
  function Outcome(items: seq<Asset>, script: Script): (r: Fetched)
    ensures items == [] ==> r == Empty
    ensures items != [] && script.first.status != Forbidden ==> r == Checked(script.first)
    ensures items != [] && script.first.status == Forbidden && AcquireSession(script.priming).None? ==> r == Empty
    ensures items != [] && script.first.status == Forbidden && AcquireSession(script.priming).Some? ==>
      r == if script.retry.status == Forbidden then Empty else Checked(script.retry)
    ensures r.Error? ==> RaisesForStatus(r.status) && r.status != Forbidden
  {
    if items == [] then Empty
    else if script.first.status != Forbidden then Checked(script.first)
    else
      match AcquireSession(script.priming)
      case None => Empty
      case Some(_) => if script.retry.status == Forbidden then Empty else Checked(script.retry)
  }

  /** The POSTs the details call makes, in order, starting from the session's headers. */
  function Requests(headers: map<string, string>, items: seq<Asset>, script: Script): (posts: seq<Post>)
    ensures posts == [] <==> items == []
    ensures |posts| <= 3
    ensures posts != [] ==> posts[0] == Post(headers, items)
    ensures |posts| >= 2 <==> items != [] && script.first.status == Forbidden
    ensures |posts| >= 2 ==> posts[1] == Post(BaseHeaders, [])
    ensures |posts| == 3 <==> items != [] && script.first.status == Forbidden && AcquireSession(script.priming).Some?
    ensures |posts| == 3 ==> posts[2].items == items && CsrfHeader in posts[2].headers && posts[2].headers[CsrfHeader] == CsrfToken(script.priming).value
  {
    if items == [] then []
    else if script.first.status != Forbidden then [Post(headers, items)]
    else
      match AcquireSession(script.priming)
      case None => [Post(headers, items), Post(BaseHeaders, [])]
      case Some(renewed) => [Post(headers, items), Post(BaseHeaders, []), Post(headers + renewed, items)]
  }

  /** The call met a 403 and the refresh that followed obtained a token. */
  predicate Refreshed(items: seq<Asset>, script: Script) {
    items != [] && script.first.status == Forbidden && AcquireSession(script.priming).Some?
  }

  /** The retried POST goes out with the headers the session keeps afterwards. */
  lemma RetryUsesHeadersAfter(headers: map<string, string>, items: seq<Asset>, script: Script)
    ensures Refreshed(items, script) ==>
      |Requests(headers, items, script)| == 3 &&
      Requests(headers, items, script)[2].headers == HeadersAfter(headers, items, script)
  {
  }

  /** The session's headers after the call: merged with the fresh session's when a refresh succeeded. */
  function HeadersAfter(headers: map<string, string>, items: seq<Asset>, script: Script): (r: map<string, string>)
    ensures Refreshed(items, script) ==> CsrfHeader in r && r[CsrfHeader] == CsrfToken(script.priming).value
    ensures Refreshed(items, script) ==>
      forall k :: k in r <==> k in headers || k in BaseHeaders || k == CsrfHeader
    ensures Refreshed(items, script) ==>
      forall k :: k in BaseHeaders && k != CsrfHeader ==> r[k] == BaseHeaders[k]
    ensures Refreshed(items, script) ==>
      forall k :: k in headers && k !in BaseHeaders && k != CsrfHeader ==> r[k] == headers[k]
    ensures !Refreshed(items, script) ==> r == headers
  {
    if Refreshed(items, script) then
      headers + AcquireSession(script.priming).value
    else headers
  }

  /** The number of POSTs that carry a non-empty item list. */
  function DetailPosts(posts: seq<Post>): nat
    decreases |posts|
  {
    if posts == [] then 0
    else (if posts[0].items != [] then 1 else 0) + DetailPosts(posts[1..])
  }

  /** The number of priming POSTs, which carry an empty item list. */
  function PrimingPosts(posts: seq<Post>): nat
    decreases |posts|
  {
    if posts == [] then 0
    else (if posts[0].items == [] then 1 else 0) + PrimingPosts(posts[1..])
  }

  /** The details call makes at most two details POSTs and at most one refresh. */
  lemma RequestBound(headers: map<string, string>, items: seq<Asset>, script: Script)
    ensures DetailPosts(Requests(headers, items, script)) <= 2
    ensures PrimingPosts(Requests(headers, items, script)) <= 1
    ensures items == [] ==> Requests(headers, items, script) == []
  {
    var posts := Requests(headers, items, script);
    if |posts| == 1 {
      assert posts[1..] == [];
    } else if |posts| == 2 {
      assert posts[1..][1..] == [];
      assert DetailPosts(posts[1..]) == 0 && PrimingPosts(posts[1..]) == 1;
    } else if |posts| == 3 {
      assert posts[1..][1..][1..] == [];
      assert DetailPosts(posts[1..][1..]) == 1 && PrimingPosts(posts[1..][1..]) == 0;
      assert DetailPosts(posts[1..]) == 1 && PrimingPosts(posts[1..]) == 1;
    }
  }

  /** The session whose headers the details call sends. */
  class Session {
    var headers: map<string, string>

    constructor (headers: map<string, string>)
      ensures this.headers == headers
    {
      this.headers := headers;
    }
  }

  /**
   * get_session_and_csrf: a fresh session posts an empty item list, ignores
   * any HTTP error, and keeps the token of the reply; None without a token.
   */
  method GetSessionAndCsrf(priming: Response) returns (session: Session?, post: Post)
    ensures post == Post(BaseHeaders, [])
    ensures session == null <==> CsrfToken(priming).None?
    ensures session != null ==> fresh(session) && Some(session.headers) == AcquireSession(priming)
  {
    session := new Session(BaseHeaders);
    post := Post(session.headers, []);
    var token := CsrfToken(priming);
    if token.None? {
      return null, post;
    }
    session.headers := session.headers[CsrfHeader := token.value];
  }

  /**
   * fetch_item_details: POST the items; on 403 refresh the session once and
   * retry once; a failed refresh or a second 403 gives up with an empty list;
   * any other error status raises.
   */
  method FetchItemDetails(session: Session, items: seq<Asset>, script: Script) returns (r: Fetched, posts: seq<Post>)
    modifies session
    ensures r == Outcome(items, script)
    ensures posts == Requests(old(session.headers), items, script)
    ensures session.headers == HeadersAfter(old(session.headers), items, script)
  {
    posts := [];
    if items == [] {
      return Empty, posts;
    }
    posts := posts + [Post(session.headers, items)];
    var resp := script.first;
    if resp.status == Forbidden {
      var renewed, priming := GetSessionAndCsrf(script.priming);
      posts := posts + [priming];
      if renewed != null {
        session.headers := session.headers + renewed.headers;
        posts := posts + [Post(session.headers, items)];
        resp := script.retry;
        if resp.status == Forbidden {
          return Empty, posts;
        }
      } else {
        return Empty, posts;
      }
    }
    if RaisesForStatus(resp.status) {
      r := Error(resp.status);
    } else {
      r := Ok(resp.data);
    }
  }

  /** A 403, a successful refresh and a second 403: the call gives up quietly after three POSTs. */
  lemma ForbiddenTwiceExample(headers: map<string, string>, item: Asset, details: seq<ItemDetail>)
    ensures var script := Script(Response(403, map[], details),
                                 Response(200, map[CsrfHeader := "t"], []),
                                 Response(403, map[], details));
      Outcome([item], script) == Empty && |Requests(headers, [item], script)| == 3
  {
  }
}
