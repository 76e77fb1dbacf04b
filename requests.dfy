/**
 * How the client shapes HTTP requests: base URL and endpoint strings, the
 * HTTP Basic authentication decision (section 2 of RFC 7617), and what a
 * write call does with the response or exception the transport produces.
 */
module Requests {
  import opened Wrappers
  import opened Items

  /** The server URL used when the preference is unset. */
  const DEFAULT_SERVER_URL := "https://justshop.eloque.nz"
  const API_VERSION := "v1"
  /** How long the reconnect callback sleeps before connecting again. */
  const RECONNECT_DELAY_MS: nat := 1000

  datatype HttpMethod = GET | POST | DELETE

  /**
   * The `Authorization` header built by `Credentials.basic(user, password)`:
   * "Basic " followed by the base64 form of `userPass`; the base64 step is not
   * modelled.
   */
  datatype Authorization = Basic(userPass: string)

  datatype Request = Request(verb: HttpMethod, url: string, body: Option<Item>, authorization: Option<Authorization>)

  /** What the transport produced for one call. */
  datatype ExceptionKind = IOException | JsonException | OtherException
  datatype Outcome = Responded(code: int) | Threw(e: ExceptionKind)

  /** What a write call did: returned (logging or not), or let an exception out. */
  datatype WriteResult = Succeeded | LoggedStatus(code: int) | LoggedException(e: ExceptionKind) | Propagated(e: ExceptionKind)

  /** `Credentials.basic(user, password)`: the user-pass string is user ":" password. */
  function BasicCredentials(user: string, password: string): (a: Authorization)
    ensures |a.userPass| == |user| + 1 + |password|
    ensures a.userPass[..|user|] == user && a.userPass[|user|] == ':' && a.userPass[|user| + 1..] == password
  {
    Basic(user + ":" + password)
  }

  /**
   * How an RFC 7617 receiver reads a user-pass string (section 2): the user id
   * is everything before the first colon, the password everything after it.
   * `None` when there is no colon.
   */
  function SplitAtFirstColon(s: string): (r: Option<(string, string)>)
    ensures r.Some? ==> ':' !in r.value.0 && r.value.0 + ":" + r.value.1 == s
    ensures r.None? <==> ':' !in s
  {
    if s == [] then None
    else if s[0] == ':' then Some(([], s[1..]))
    else match SplitAtFirstColon(s[1..])
      case None => None
      case Some(parts) => Some(([s[0]] + parts.0, parts.1))
  }

  /** Splitting `u ":" p` at the first colon gives back `u` and `p` when `u` has no colon. */
  lemma {:induction false} SplitAfterColonFree(u: string, p: string)
    requires ':' !in u
    ensures SplitAtFirstColon(u + [':'] + p) == Some((u, p))
  {
    var s := u + [':'] + p;
    if u == [] {
      assert s[1..] == p;
    } else {
      assert s[0] == u[0];
      assert s[1..] == u[1..] + [':'] + p;
      SplitAfterColonFree(u[1..], p);
      assert [u[0]] + u[1..] == u;
    }
  }

  /**
   * A user name without a colon is read back as it was given, and so is the
   * password (which may contain colons).
   */
  lemma CredentialsReadBack(user: string, password: string)
    requires ':' !in user
    ensures SplitAtFirstColon(BasicCredentials(user, password).userPass) == Some((user, password))
  {
    assert BasicCredentials(user, password).userPass == user + [':'] + password;
    SplitAfterColonFree(user, password);
  }

  /**
   * The encoding `Credentials.basic` applies to the user-pass string before
   * base64: ISO-8859-1, which sends every character above U+00FF as '?'.
   * The result is the string of characters the encoded bytes stand for.
   */
  function Latin1(s: string): (e: string)
    ensures |e| == |s|
    ensures forall i :: 0 <= i < |s| ==> e[i] == if s[i] as int <= 0xFF then s[i] else '?'
  {
    if s == [] then [] else [if s[0] as int <= 0xFF then s[0] else '?'] + Latin1(s[1..])
  }

  /** The encoding works character by character, so it distributes over concatenation. */
  lemma Latin1Concat(a: string, b: string)
    ensures Latin1(a + b) == Latin1(a) + Latin1(b)
  {
  }

  /** The encoding keeps a colon and introduces none: '?' is not a colon. */
  lemma Latin1ColonFree(s: string)
    requires ':' !in s
    ensures ':' !in Latin1(s)
  {
    var e := Latin1(s);
    forall i | 0 <= i < |e| ensures e[i] != ':' {
      assert s[i] != ':';
    }
  }

  /** The encoding changes nothing exactly when no character lies above U+00FF. */
  lemma Latin1Identity(s: string)
    ensures Latin1(s) == s <==> forall i :: 0 <= i < |s| ==> s[i] as int <= 0xFF
  {
    if Latin1(s) == s {
      forall i | 0 <= i < |s| ensures s[i] as int <= 0xFF {
        assert Latin1(s)[i] == s[i];
      }
    }
  }

  /** The encoded user-pass string is the encoded user, a colon, and the encoded password. */
  lemma Latin1Credentials(user: string, password: string)
    ensures Latin1(BasicCredentials(user, password).userPass) == Latin1(user) + [':'] + Latin1(password)
  {
    assert BasicCredentials(user, password).userPass == (user + [':']) + password;
    Latin1Concat(user + [':'], password);
    Latin1Concat(user, [':']);
    assert Latin1([':']) == [':'];
  }

  /**
   * What an RFC 7617 receiver (section 2) decodes from the header actually sent: a colon-free user
   * name and the password come back as their ISO-8859-1 forms, which are the
   * originals exactly when no character lies above U+00FF.
   */
  lemma SentCredentialsReadBack(user: string, password: string)
    requires ':' !in user
    ensures SplitAtFirstColon(Latin1(BasicCredentials(user, password).userPass)) == Some((Latin1(user), Latin1(password)))
    ensures Latin1(user) == user <==> forall i :: 0 <= i < |user| ==> user[i] as int <= 0xFF
  {
    Latin1Credentials(user, password);
    Latin1ColonFree(user);
    SplitAfterColonFree(Latin1(user), Latin1(password));
    Latin1Identity(user);
  }

  /** A user name outside ISO-8859-1, such as "Ł", is read by an RFC 7617 receiver (section 2) as "?". */
  lemma NonLatin1UserArrivesAsQuestionMark()
    ensures Latin1(BasicCredentials("\U{141}", "p").userPass) == Latin1(BasicCredentials("?", "p").userPass)
    ensures SplitAtFirstColon(Latin1(BasicCredentials("\U{141}", "p").userPass)) == Some(("?", "p"))
  {
    var sent := Latin1(BasicCredentials("\U{141}", "p").userPass);
    assert sent == ['?', ':', 'p'];
    var other := Latin1(BasicCredentials("?", "p").userPass);
    assert other == ['?', ':', 'p'];
    SplitAfterColonFree("?", "p");
    assert "?" + [':'] + "p" == ['?', ':', 'p'];
  }

  /**
   * Neither client rejects a colon in the user name, so two different
   * credential pairs can produce the same header.
   */
  lemma ColonInUserIsAmbiguous()
    ensures BasicCredentials("a:b", "c") == BasicCredentials("a", "b:c")
    ensures SplitAtFirstColon(BasicCredentials("a:b", "c").userPass) == Some(("a", "b:c"))
  {
    assert BasicCredentials("a:b", "c").userPass == BasicCredentials("a", "b:c").userPass;
    CredentialsReadBack("a", "b:c");
  }

  /**
   * `BasicAuthInterceptor.intercept`: with both credentials non-empty the
   * request goes on with an `Authorization` header; otherwise it goes on as it
   * came. The credentials are the providers' answers at this call.
   */
  function Intercept(req: Request, user: string, password: string): (r: Request)
    ensures r.verb == req.verb && r.url == req.url && r.body == req.body
    ensures user != "" && password != "" ==> r.authorization == Some(BasicCredentials(user, password))
    ensures user == "" || password == "" ==> r == req
  {
    if user != "" && password != "" then req.(authorization := Some(BasicCredentials(user, password)))
    else req
  }

  /** The header is attached if and only if both credentials are non-empty, and nothing else changes. */
  lemma InterceptAttachesIffBothNonEmpty(req: Request, user: string, password: string)
    requires req.authorization == None
    ensures Intercept(req, user, password).authorization.Some? <==> user != "" && password != ""
    ensures Intercept(req, user, password).(authorization := None) == req
    ensures user == "" || password == "" ==> Intercept(req, user, password) == req
  {
  }

  /** `baseUrlProvider`: the server URL, a slash and the API version. */
  function BaseUrl(serverUrl: string): (url: string)
    ensures url == serverUrl + "/v1"
  {
    serverUrl + "/" + API_VERSION
  }

  function WsUrl(serverUrl: string): string { BaseUrl(serverUrl) + "/ws" }
  function UpdateUrl(serverUrl: string): string { BaseUrl(serverUrl) + "/update" }
  function DeleteCheckedUrl(serverUrl: string): string { BaseUrl(serverUrl) + "/delete-checked" }

  /** The legacy client has no version segment: paths are appended to the server URL. */
  function LegacyUrl(serverUrl: string, path: string): string { serverUrl + path }

  /** The versioned endpoints all sit under `serverUrl + "/v1/"`. */
  lemma VersionedEndpoints(serverUrl: string)
    ensures WsUrl(serverUrl) == serverUrl + "/v1/ws"
    ensures UpdateUrl(serverUrl) == serverUrl + "/v1/update"
    ensures DeleteCheckedUrl(serverUrl) == serverUrl + "/v1/delete-checked"
  {
  }

  /** `post(url, json)`: a POST carrying the item's JSON form. */
  function PostRequest(url: string, item: Item): (r: Request)
    ensures r.verb == POST && r.url == url && r.body == Some(item) && r.authorization == None
  {
    Request(POST, url, Some(item), None)
  }

  /** `delete(url)` of the versioned client: a DELETE. */
  function DeleteRequest(url: string): (r: Request)
    ensures r.verb == DELETE && r.url == url && r.body == None && r.authorization == None
  {
    Request(DELETE, url, None, None)
  }

  /**
   * `delete(url)` of the legacy client never sets a method, so OkHttp's
   * builder default, GET, goes out.
   */
  function LegacyDeleteRequest(url: string): (r: Request)
    ensures r.verb != DELETE && r.verb == GET
    ensures r.url == url && r.body == None
  {
    Request(GET, url, None, None)
  }

  /** `get(url)`. */
  function GetRequest(url: string): (r: Request)
    ensures r.verb == GET && r.url == url && r.body == None && r.authorization == None
  {
    Request(GET, url, None, None)
  }

  /**
   * The versioned client's write calls catch every exception and only log a
   * non-200 code: nothing ever escapes, and only a 200 passes silently.
   */
  function SwallowAll(o: Outcome): (r: WriteResult)
    ensures !r.Propagated?
    ensures r == Succeeded <==> o == Responded(200)
    ensures o.Responded? && o.code != 200 ==> r == LoggedStatus(o.code)
    ensures o.Threw? ==> r == LoggedException(o.e)
  {
    match o
    case Responded(code) => if code != 200 then LoggedStatus(code) else Succeeded
    case Threw(e) => LoggedException(e)
  }

  /**
   * The legacy client's write calls catch only `IOException`: every other
   * exception escapes to the caller.
   */
  function CatchIOOnly(o: Outcome): (r: WriteResult)
    ensures r.Propagated? <==> o.Threw? && o.e != IOException
    ensures r == Succeeded <==> o == Responded(200)
    ensures o.Responded? && o.code != 200 ==> r == LoggedStatus(o.code)
    ensures o == Threw(IOException) ==> r == LoggedException(IOException)
    ensures o.Threw? && o.e != IOException ==> r == Propagated(o.e)
  {
    match o
    case Responded(code) => if code != 200 then LoggedStatus(code) else Succeeded
    case Threw(e) => if e == IOException then LoggedException(e) else Propagated(e)
  }
}
