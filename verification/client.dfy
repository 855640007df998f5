/**
 * The API client: a base endpoint fixed at construction, a bearer token that
 * authentication overwrites, per-request options built from the token, and
 * the posts operations, each of which builds one request and hands it to the
 * transport (directly, or through the redirect-following wrapper).
 */
module GhostApi {
  import opened Js
  import opened Hosts
  import opened Http

  /** The API path appended to every normalised host. */
  const ApiPath := "/ghost/api/v0.1"

  /** The platform's default admin OAuth client, used when the caller gives
      no usable client credentials. */
  const FallbackClientId := "ghost-admin"
  const FallbackClientSecret := "59a57ba8d150"

  datatype Failure =
    | NotAString                        // the host is not a string
    | MissingTitle                      // `create` without a truthy title
    | Transport(error: TransportError)  // the transport's error, unchanged
    | MalformedBody                     // the token response is not JSON

  datatype Result<T> = Ok(value: T) | Err(failure: Failure)

  /** What a posts operation did: the requests it made, in order, and the
      body it settled with (or why it failed). */
  datatype Reply = Reply(calls: seq<Call>, result: Result<string>)

  /** The serialisers the client delegates to: `querystring.stringify` and
      `JSON.stringify`. Their output is not modelled. */
  datatype Codecs = Codecs(queryString: JsObject -> string, json: Value -> string)

  /** What `JSON.parse(body).access_token` yields: a parse failure, or the
      token (`None` when the property is absent). */
  datatype TokenBody = Malformed | Parsed(accessToken: Option<string>)

  /** A transport answer as the outcome of an operation. */
  function Settle(r: Response): Result<string> {
    match r
    case Received(body) => Ok(body)
    case Rejected(e) => Err(Transport(e))
  }

  /** The outcome of the last request of a non-empty chain. */
  function Outcome(send: Transport, calls: seq<Call>): Result<string>
    requires calls != []
  {
    Settle(send(calls[|calls| - 1].url, calls[|calls| - 1].options))
  }

  /** A request through `req`, as the outcome of an operation. */
  function Relay(x: Exchange): Reply {
    Reply(x.calls, Settle(x.response))
  }

  /** The endpoint of a client for `host`: the host normalised with
      `https` preferred, then the API path. */
  function EndpointFor(host: string): (e: string)
    ensures |e| >= |ApiPath| && e[|e| - |ApiPath|..] == ApiPath
    ensures var base, t := e[..|e| - |ApiPath|], Trim(host);
      && IsTrimmed(base)
      && (StartsRelative(base) || HasScheme(base))
      && (base == t || base == "https://" + t || (base == "http://" + t && "localhost" <= t))
      && (base == t <==> StartsRelative(t) || HasScheme(t))
      && (!(StartsRelative(t) || HasScheme(t)) ==>
            base == (if "localhost" <= t then "http://" else "https://") + t)
  {
    var base := PrependHttp(host, true);
    assert (base + ApiPath)[..|base|] == base;
    base + ApiPath
  }

  /** A host that is already trimmed and carries a scheme (or `//`) is used
      as it is, followed by the API path. */
  lemma QualifiedEndpoint(host: string)
    requires IsTrimmed(host) && HasScheme(host)
    ensures EndpointFor(host) == host + ApiPath
  {
    TrimTrimmed(host);
    var e := EndpointFor(host);
    assert e == e[..|e| - |ApiPath|] + e[|e| - |ApiPath|..];
  }

  /** `'Bearer ' + token`, where an unset token prints as `undefined`. */
  function BearerText(token: Option<string>): string {
    "Bearer " + match token
      case None => "undefined"
      case Some(t) => t
  }

  /** The headers every request gets unless the caller replaces them. */
  function DefaultHeaders(token: Option<string>): JsObject {
    [ Field("authorization", Str(BearerText(token))),
      Field("content-type", Str("application/json")) ]
  }

  /** Before authentication the bearer header carries `undefined`; after, it
      carries the token. */
  lemma BearerCarriesToken(token: Option<string>)
    ensures Get(DefaultHeaders(token), "authorization") ==
      Some(Str(if token.None? then "Bearer undefined" else "Bearer " + token.value))
    ensures Get(DefaultHeaders(token), "content-type") == Some(Str("application/json"))
  {
    assert DefaultHeaders(token)[1..] == [Field("content-type", Str("application/json"))];
    assert token.None? ==> BearerText(token) == "Bearer undefined";
  }

  /** The keys of those overrides: `method`, then `body` when there is one. */
  function OverrideKeys(body: Option<Value>): seq<string> {
    if body.Some? then ["method", "body"] else ["method"]
  }

  /** The overrides `create`, `update` and `destroy` pass to `options`:
      the HTTP method, and the body when there is one. */
  function Overrides(verb: string, body: Option<Value>): (o: JsObject)
    ensures Keys(o) == OverrideKeys(body) && DistinctKeys(o)
    ensures Get(o, "method") == Some(Str(verb)) && Get(o, "body") == body
  {
    match body
    case None =>
      var o := [Field("method", Str(verb))];
      assert Keys(o) == ["method"];
      o
    case Some(b) =>
      var o := [Field("method", Str(verb)), Field("body", b)];
      assert Keys(o) == ["method", "body"];
      assert o[1..] == [Field("body", b)];
      o
  }

  /** The overrides `find` and `findOne` pass to `options`. */
  function JsonMode(): (o: JsObject)
    ensures Keys(o) == ["json"] && DistinctKeys(o)
    ensures Get(o, "json") == Some(Bool(true))
  {
    var o := [Field("json", Bool(true))];
    assert Keys(o) == ["json"];
    o
  }

  /** The defaults `find` starts from. */
  const FindDefaults: JsObject :=
    [Field("include", Str("tags")), Field("status", Str("all")), Field("page", Num(1))]

  /** The defaults `findOne` starts from. */
  const FindOneDefaults: JsObject :=
    [Field("status", Str("all")), Field("include", Str("tags"))]

  /** The query `all` passes to `find`. */
  const AllOverrides: JsObject :=
    [Field("limit", Str("all")), Field("status", Str("all"))]

  /** `assign({}, {include, status, page}, query)`: the caller's keys win,
      the defaults fill the rest, defaults first in their own order and new
      keys appended. */
  function FindQuery(query: JsObject): (q: JsObject)
    requires DistinctKeys(query)
    ensures DistinctKeys(q)
    ensures forall k :: Get(q, k) == if k in Keys(query) then Get(query, k) else Get(FindDefaults, k)
    ensures Keys(q) == ["include", "status", "page"] + Unseen(Keys(query), ["include", "status", "page"])
  {
    assert Keys(FindDefaults) == ["include", "status", "page"];
    AssignOverDefaults(FindDefaults, query);
    Assign(Assign([], FindDefaults), query)
  }

  /** `all()` asks for `include=tags, status=all, page=1, limit=all`, in that
      order. */
  lemma AllQuery()
    ensures DistinctKeys(AllOverrides)
    ensures FindQuery(AllOverrides) ==
      [Field("include", Str("tags")), Field("status", Str("all")), Field("page", Num(1)), Field("limit", Str("all"))]
  {
    FindDefaultsFacts();
    FindQueryAppendKeep("limit", Str("all"), "status", Str("all"));
  }

  /** The merge behind `all()`: a key `find` has no default for is
      appended, and a key whose default already holds the value written
      changes nothing. */
  lemma FindQueryAppendKeep(k1: string, v1: Value, k2: string, v2: Value)
    requires k1 !in Keys(FindDefaults) && Get(FindDefaults, k2) == Some(v2)
    ensures DistinctKeys([Field(k1, v1), Field(k2, v2)])
    ensures FindQuery([Field(k1, v1), Field(k2, v2)]) == FindDefaults + [Field(k1, v1)]
  {
    var query := [Field(k1, v1), Field(k2, v2)];
    assert DistinctKeys(query) by {
      KeysOfPair(Field(k1, v1), Field(k2, v2));
    }
    assert Assign([], FindDefaults) == FindDefaults by {
      FindDefaultsFacts();
      AssignDisjoint([], FindDefaults);
    }
    assert Assign(FindDefaults, query) == FindDefaults + [Field(k1, v1)] by {
      AppendThenKeep(FindDefaults, k1, v1, k2, v2);
    }
  }

  /** What the `all()` merge needs to know about `find`'s defaults. */
  lemma FindDefaultsFacts()
    ensures [] + FindDefaults == FindDefaults && DistinctKeys(FindDefaults)
    ensures "limit" !in Keys(FindDefaults) && Get(FindDefaults, "status") == Some(Str("all"))
  {
    KeysOfTriple(Field("include", Str("tags")), Field("status", Str("all")), Field("page", Num(1)));
    assert FindDefaults[1..][0] == Field("status", Str("all"));
  }

  /** `assign({status, include}, query)`: the caller's keys win, the
      defaults fill the rest, defaults first in their own order. */
  function FindOneQuery(query: JsObject): (q: JsObject)
    requires DistinctKeys(query)
    ensures DistinctKeys(q)
    ensures forall k :: Get(q, k) == if k in Keys(query) then Get(query, k) else Get(FindOneDefaults, k)
    ensures Keys(q) == ["status", "include"] + Unseen(Keys(query), ["status", "include"])
  {
    assert Keys(FindOneDefaults) == ["status", "include"];
    AssignOverDefaults(FindOneDefaults, query);
    Assign(FindOneDefaults, query)
  }

  /** `create` goes ahead only for an object whose `title` is truthy; a falsy
      `data` is replaced by `{}`, which has no title. */
  predicate HasTitle(data: Value): (b: bool)
    ensures b ==> data.Obj?
    ensures data.Obj? && DistinctKeys(data.fields) ==>
      (b <==> exists t :: Field("title", t) in data.fields && Truthy(t))
  {
    if !data.Obj? then false
    else
      var title := Get(data.fields, "title");
      if DistinctKeys(data.fields) then
        TitleLookup(data.fields);
        title.Some? && Truthy(title.value)
      else
        title.Some? && Truthy(title.value)
  }

  /** On an object with distinct keys, `title` reads as exactly the value of
      its `title` property. */
  lemma TitleLookup(fields: JsObject)
    requires DistinctKeys(fields)
    ensures forall t :: Get(fields, "title") == Some(t) <==> Field("title", t) in fields
  {
    forall t {
      GetFindsField(fields, "title", t);
    }
  }

  /** `create` replaces a falsy `data` by `{}`; that never gives a title,
      and data that has a title is kept as it is. */
  function Defaulted(data: Value): (r: Value)
    ensures Truthy(r)
    ensures HasTitle(r) <==> HasTitle(data)
    ensures HasTitle(data) ==> r == data
  {
    if Truthy(data) then data else Obj([])
  }

  /** The body of `create` and `update`: `{posts: [data]}`. */
  function PostsEnvelope(data: Value): Value {
    Obj([Field("posts", Arr([data]))])
  }

  /** The client pair `auth` sends: the caller's when both are truthy,
      otherwise the fallback pair. */
  function ClientPair(clientId: Value, clientSecret: Value): (p: (Value, Value))
    ensures Truthy(p.0) && Truthy(p.1)
    ensures Truthy(clientId) && Truthy(clientSecret) ==> p == (clientId, clientSecret)
    ensures !(Truthy(clientId) && Truthy(clientSecret)) ==>
      p == (Str(FallbackClientId), Str(FallbackClientSecret))
  {
    if !Truthy(clientId) || !Truthy(clientSecret) then
      (Str(FallbackClientId), Str(FallbackClientSecret))
    else
      (clientId, clientSecret)
  }

  /** The options of the token request. They are not built by `options`: no
      bearer or content-type header is sent. */
  function AuthOptions(email: Value, password: Value, clientId: Value, clientSecret: Value): (o: JsObject)
    ensures DistinctKeys(o) && Keys(o) == ["method", "body"]
    ensures Get(o, "method") == Some(Str("post"))
    ensures var pair := ClientPair(clientId, clientSecret);
      Get(o, "body") == Some(Obj([
        Field("username", email),
        Field("password", password),
        Field("grant_type", Str("password")),
        Field("client_id", pair.0),
        Field("client_secret", pair.1)]))
  {
    var pair := ClientPair(clientId, clientSecret);
    [ Field("method", Str("post")),
      Field("body", Obj([
        Field("username", email),
        Field("password", password),
        Field("grant_type", Str("password")),
        Field("client_id", pair.0),
        Field("client_secret", pair.1)])) ]
  }

  /** The options object `o` is what `options` builds for the HTTP `verb` from the
      current token: method, default headers, and the given body. */
  predicate Sends(o: JsObject, token: Option<string>, verb: string, body: Option<Value>) {
    && Keys(o) == ["headers"] + OverrideKeys(body)
    && Get(o, "method") == Some(Str(verb))
    && Get(o, "headers") == Some(Obj(DefaultHeaders(token)))
    && Get(o, "body") == body
  }

  class Client {
    const endpoint: string
    /** The bearer token; `None` until an authentication succeeds. */
    var token: Option<string>

    constructor(host: string)
      ensures endpoint == EndpointFor(host)
      ensures token == None
    {
      endpoint := EndpointFor(host);
      token := None;
    }

    /** `options(overrides)`: a shallow merge of `overrides` onto
        `{headers: default headers}`. A caller's `headers` replaces the
        defaults as a whole; the token is read, never changed. */
    function Options(overrides: JsObject): (o: JsObject)
      reads this
      requires DistinctKeys(overrides)
      ensures DistinctKeys(o)
      ensures Keys(o) == ["headers"] + Unseen(Keys(overrides), ["headers"])
      ensures forall k :: k in Keys(overrides) ==> Get(o, k) == Get(overrides, k)
      ensures "headers" !in Keys(overrides) ==> Get(o, "headers") == Some(Obj(DefaultHeaders(token)))
      ensures "headers" !in Keys(overrides) ==> Keys(o) == ["headers"] + Keys(overrides)
      ensures "headers" !in Keys(overrides) ==>
        o == [Field("headers", Obj(DefaultHeaders(token)))] + overrides
    {
      var defaults := [Field("headers", Obj(DefaultHeaders(token)))];
      assert Keys(defaults) == ["headers"];
      AssignOverDefaults(defaults, overrides);
      var o := Assign(Assign([], defaults), overrides);
      if "headers" in Keys(overrides) then o
      else
        ConsDistinct("headers", Keys(overrides));
        UnseenAllNew(Keys(overrides), ["headers"]);
        assert (defaults + overrides)[1..] == overrides;
        assert Keys(defaults + overrides) == ["headers"] + Keys(overrides);
        AssignDisjoint(defaults, overrides);
        o
    }

    /** A GET of `url` with JSON mode on and the default headers, made
        directly (no redirect following): the request `find` and `findOne`
        share. */
    function Fetch(url: string, send: Transport): (x: Reply)
      reads this
      ensures |x.calls| == 1 && x.calls[0].url == url
      ensures Keys(x.calls[0].options) == ["headers", "json"]
      ensures Get(x.calls[0].options, "json") == Some(Bool(true))
      ensures Get(x.calls[0].options, "headers") == Some(Obj(DefaultHeaders(token)))
      ensures x.result == Settle(send(url, x.calls[0].options))
    {
      var options := Options(JsonMode());
      assert options == [Field("headers", Obj(DefaultHeaders(token))), Field("json", Bool(true))];
      KeysOfPair(options[0], options[1]);
      Reply([Call(url, options)], Settle(send(url, options)))
    }

    /** `posts.find(query)`: one GET of the posts listing with the merged
        query, JSON mode on, the default headers, and no redirect following. */
    function Find(query: JsObject, codecs: Codecs, send: Transport): (x: Reply)
      reads this
      requires DistinctKeys(query)
      ensures |x.calls| == 1
      ensures x.calls[0].url == endpoint + "/posts/?" + codecs.queryString(FindQuery(query))
      ensures Keys(x.calls[0].options) == ["headers", "json"]
      ensures Get(x.calls[0].options, "json") == Some(Bool(true))
      ensures Get(x.calls[0].options, "headers") == Some(Obj(DefaultHeaders(token)))
      ensures x.result == Settle(send(x.calls[0].url, x.calls[0].options))
    {
      Fetch(endpoint + "/posts/?" + codecs.queryString(FindQuery(query)), send)
    }

    /** `posts.all()`: `find` with `limit=all`. */
    function All(codecs: Codecs, send: Transport): (x: Reply)
      reads this
      ensures |x.calls| == 1
      ensures x.calls[0].url == endpoint + "/posts/?" + codecs.queryString(
        [Field("include", Str("tags")), Field("status", Str("all")), Field("page", Num(1)), Field("limit", Str("all"))])
      ensures Keys(x.calls[0].options) == ["headers", "json"]
      ensures Get(x.calls[0].options, "json") == Some(Bool(true))
      ensures Get(x.calls[0].options, "headers") == Some(Obj(DefaultHeaders(token)))
      ensures x.result == Settle(send(x.calls[0].url, x.calls[0].options))
    {
      AllQuery();
      Fetch(endpoint + "/posts/?" + codecs.queryString(FindQuery(AllOverrides)), send)
    }

    /** `posts.findOne(id, query)`: a string is a slug, anything else an id
        printed with `%s`; one GET with the merged query. */
    function FindOne(id: Arg, query: JsObject, codecs: Codecs, send: Transport): (x: Reply)
      reads this
      requires DistinctKeys(query)
      ensures |x.calls| == 1
      ensures id.Text? ==>
        x.calls[0].url == endpoint + "/posts/slug/" + id.s + "/?" + codecs.queryString(FindOneQuery(query))
      ensures id.NotText? ==>
        x.calls[0].url == endpoint + "/posts/" + id.shown + "/?" + codecs.queryString(FindOneQuery(query))
      ensures Keys(x.calls[0].options) == ["headers", "json"]
      ensures Get(x.calls[0].options, "json") == Some(Bool(true))
      ensures Get(x.calls[0].options, "headers") == Some(Obj(DefaultHeaders(token)))
      ensures x.result == Settle(send(x.calls[0].url, x.calls[0].options))
    {
      match id
      case Text(slug) => Fetch(endpoint + "/posts/slug/" + slug + "/?" + codecs.queryString(FindOneQuery(query)), send)
      case NotText(shown) => Fetch(endpoint + "/posts/" + shown + "/?" + codecs.queryString(FindOneQuery(query)), send)
    }

    /** A request through `req` with the options `options` builds for the
        HTTP `verb` and `body`: the request `create`, `update` and `destroy`
        share. */
    function Deliver(url: string, verb: string, body: Option<Value>, send: Transport): (x: Reply)
      reads this
      ensures 1 <= |x.calls| <= 2 && x.calls[0].url == url
      ensures Sends(x.calls[0].options, token, verb, body)
      ensures FollowsChain(send, x.calls)
      ensures |x.calls| == 2 <==> IsRedirect(send(url, x.calls[0].options))
      ensures x.result == Outcome(send, x.calls)
    {
      var overrides := Overrides(verb, body);
      var options := Options(overrides);
      assert "method" in Keys(overrides);
      assert body.Some? ==> "body" in Keys(overrides);
      Relay(Req(send, url, options))
    }

    /** `posts.create(data)`: without a truthy title it fails before any
        request; otherwise it POSTs `{posts: [data]}` through `req`. */
    function Create(data: Value, codecs: Codecs, send: Transport): (x: Reply)
      reads this
      ensures x.calls == [] <==> !HasTitle(data)
      ensures !HasTitle(data) ==> x.result == Err(MissingTitle)
      ensures HasTitle(data) ==> 1 <= |x.calls| <= 2 && x.calls[0].url == endpoint + "/posts"
      ensures HasTitle(data) ==>
        Sends(x.calls[0].options, token, "post", Some(Str(codecs.json(PostsEnvelope(data)))))
      ensures FollowsChain(send, x.calls)
      ensures HasTitle(data) ==> (|x.calls| == 2 <==> IsRedirect(send(x.calls[0].url, x.calls[0].options)))
      ensures HasTitle(data) ==>
        x.result == Outcome(send, x.calls)
    {
      var data := Defaulted(data);
      if !HasTitle(data) then Reply([], Err(MissingTitle))
      else
        var body := Str(codecs.json(PostsEnvelope(data)));
        Deliver(endpoint + "/posts", "post", Some(body), send)
    }

    /** `posts.update(id, data)`: a PUT of `{posts: [data]}` to the post's
        URL through `req`. */
    function Update(id: Arg, data: Value, codecs: Codecs, send: Transport): (x: Reply)
      reads this
      ensures 1 <= |x.calls| <= 2
      ensures x.calls[0].url == endpoint + "/posts/" + id.Shown()
      ensures Sends(x.calls[0].options, token, "put", Some(Str(codecs.json(PostsEnvelope(data)))))
      ensures FollowsChain(send, x.calls)
      ensures |x.calls| == 2 <==> IsRedirect(send(x.calls[0].url, x.calls[0].options))
      ensures x.result == Outcome(send, x.calls)
    {
      var body := Str(codecs.json(PostsEnvelope(data)));
      Deliver(endpoint + "/posts/" + id.Shown(), "put", Some(body), send)
    }

    /** `posts.destroy(id)`: a DELETE of the post's URL through `req`. */
    function Destroy(id: Arg, codecs: Codecs, send: Transport): (x: Reply)
      reads this
      ensures 1 <= |x.calls| <= 2
      ensures x.calls[0].url == endpoint + "/posts/" + id.Shown()
      ensures Sends(x.calls[0].options, token, "delete", None)
      ensures FollowsChain(send, x.calls)
      ensures |x.calls| == 2 <==> IsRedirect(send(x.calls[0].url, x.calls[0].options))
      ensures x.result == Outcome(send, x.calls)
    {
      Deliver(endpoint + "/posts/" + id.Shown(), "delete", None, send)
    }

    /** A 302 on an update is followed once, to its location with the same
        options, and the post the second response carries is the result. */
    lemma UpdateFollowsOneRedirect(id: Arg, data: Value, codecs: Codecs, send: Transport,
                                   location: string, body: string)
      requires var o := Options(Overrides("put", Some(Str(codecs.json(PostsEnvelope(data))))));
        && send(endpoint + "/posts/" + id.Shown(), o) == Rejected(HttpError(302, location))
        && send(location, o) == Received(body)
      ensures var x := Update(id, data, codecs, send);
        && x.result == Ok(body)
        && |x.calls| == 2
        && x.calls[1].url == location
        && x.calls[1].options == x.calls[0].options
    {
    }

    /** `auth(email, password, clientId, clientSecret)`: one token request
        through `req`; the token is stored only when the response parses. */
    method Auth(email: Value, password: Value, clientId: Value, clientSecret: Value,
                send: Transport, decode: string -> TokenBody)
      returns (r: Result<Option<string>>, calls: seq<Call>)
      modifies this
      ensures var x := Req(send, endpoint + "/authentication/token",
                           AuthOptions(email, password, clientId, clientSecret));
        && calls == x.calls
        && (r.Ok? <==> x.response.Received? && decode(x.response.body).Parsed?)
        && (r.Ok? ==> r.value == decode(x.response.body).accessToken)
        && (x.response.Rejected? ==> r == Err(Transport(x.response.error)))
        && (x.response.Received? && decode(x.response.body).Malformed? ==> r == Err(MalformedBody))
      ensures token == if r.Ok? then r.value else old(token)
    {
      var x := Req(send, endpoint + "/authentication/token",
                   AuthOptions(email, password, clientId, clientSecret));
      calls := x.calls;
      match x.response
      case Rejected(e) =>
        r := Err(Transport(e));
      case Received(body) =>
        match decode(body)
        case Malformed =>
          r := Err(MalformedBody);
        case Parsed(t) =>
          token := t;
          r := Ok(t);
    }
  }

  /** The one `posts` object on the client prototype, shared by every
      client. `receiver` is the client its functions are bound to, or `null`
      before the first client is built. */
  class SharedPosts {
    var receiver: Client?

    constructor()
      ensures receiver == null
    {
      receiver := null;
    }

    /** `bindAll(client, ['posts'])` as written: every function of the shared
        object is replaced by its binding to `client`, but binding a function
        that is already bound keeps its first receiver. */
    method BindAll(client: Client)
      modifies this
      ensures receiver == if old(receiver) == null then client else old(receiver)
    {
      if receiver == null {
        receiver := client;
      }
    }
  }

  /** Two clients built one after the other for two different qualified
      hosts: the shared posts functions stay bound to the first, so
      `posts.find` and the other posts operations called through the second
      client use the first client's endpoint (and token). */
  method TwoClients(host1: string, host2: string) returns (posts: SharedPosts, first: Client, second: Client)
    requires IsTrimmed(host1) && HasScheme(host1)
    requires IsTrimmed(host2) && HasScheme(host2)
    requires host1 != host2
    ensures posts.receiver == first && first != second
    ensures first.endpoint == host1 + ApiPath && second.endpoint == host2 + ApiPath
    ensures posts.receiver.endpoint != second.endpoint
  {
    posts := new SharedPosts();
    first := new Client(host1);
    posts.BindAll(first);
    second := new Client(host2);
    posts.BindAll(second);
    QualifiedEndpoint(host1);
    QualifiedEndpoint(host2);
    assert first.endpoint[..|host1|] == host1;
    assert second.endpoint[..|host2|] == host2;
  }

  /** `new Client(host)`: a host that is not a string is rejected with the
      `TypeError` of the normaliser. */
  method Connect(host: Arg) returns (r: Result<Client>)
    ensures r.Err? <==> host.NotText?
    ensures r.Err? ==> r.failure == NotAString
    ensures r.Ok? ==> fresh(r.value) && r.value.endpoint == EndpointFor(host.s) && r.value.token == None
  {
    match host
    case NotText(_) =>
      r := Err(NotAString);
    case Text(s) =>
      var c := new Client(s);
      r := Ok(c);
  }
}
