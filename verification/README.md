# ghost-api client, modelled in Dafny

This project models `ghost-api`, an unofficial client for the Ghost
blogging platform's v0.1 JSON API. A client is built from a host. The
host is normalised into a base URL (trimmed, `https://` preferred,
`http://` for `localhost`, a relative path or an existing scheme kept as
it is), and `/ghost/api/v0.1` is appended to form the client's endpoint.
The client keeps a bearer token that `auth` sets from an OAuth password
grant. Every posts request gets default headers built from the current
token, shallow-merged under the caller's options. The token request itself
is sent with a literal options object and carries no such headers.

The posts operations come in two kinds:

- `find`, `all` and `findOne` make one GET. Its query string is built by
  merging the caller's query over fixed defaults.
- `create`, `update` and `destroy` go through `req`. `req` follows a single
  302 redirect to its `location`, with the same options.

The files are:

- `js.dfy` holds JavaScript values, plain objects as ordered property lists,
  property lookup and assignment, and `Object.assign` with its precedence
  and key-order rules.
- `hosts.dfy` holds `String.prototype.trim` and `prependHttp`. The two
  regular expressions are given recursively, and lemmas tie each one to its
  literal reading.
- `http.dfy` holds the transport as a function from a URL and an options
  object to a response, and `req`. A reference redirect policy with a hop
  budget is included, and `req` is proved to be that policy with a budget
  of one.
- `client.dfy` holds the `Client` class. Its `endpoint` is fixed at
  construction and its `token` is a mutable field. The file also has the
  options merge, the posts operations, `auth` and the credential fallback.

Each posts operation returns the requests it handed to the transport, in
order, with the outcome it settled with. The contracts can therefore state
the URL, the options and the redirect chain exactly. The serialisers
(`querystring.stringify` and `JSON.stringify`) are passed in as function
values, and so is the parse of the token response. Their output is not
modelled.

## Model

| member | source | states |
|---|---|---|
| Js.Truthy | index.js:79 | a value is falsy exactly when it is `undefined`, `null`, `false`, `0` or the empty string |
| Js.Assign | index.js:66 | `Object.assign` as the source's properties put onto the target one by one; it never drops a property and adds at most one per source property |
| Js.AssignKeys | index.js:66 | `Object.assign` keeps the target's keys in place and appends the source's new keys once each, in the source's order |
| Js.AssignGet | index.js:66 | after `Object.assign`, a key the source has reads as the source's value and every other key reads as the target's: the last writer wins |
| Js.AssignDisjoint | index.js:118-122 | assigning keys the target lacks is concatenation; in particular `assign({}, d)` is `d` |
| Js.AssignOverDefaults | index.js:118-122 | `assign({}, defaults, query)` has distinct keys, the query's values win, the defaults fill the rest, and the keys are the defaults' in order followed by the query's new keys |
| Js.AppendThenKeep | index.js:141-146 | assigning a new key and then a key that already holds the written value appends the new key and changes nothing else |
| Hosts.Trim | index.js:22 | the trimmed host is the middle of the input, with only whitespace cut from either end and no whitespace left at either end |
| Hosts.TrimTrimmed | index.js:22 | trimming a string with no whitespace at its ends changes nothing, so trimming is idempotent |
| Hosts.StartsRelativeMeans | index.js:24 | the recursive test for `/^\.*\//` holds exactly when some position holds `/` and everything before it is `.` |
| Hosts.HasSchemeMeans | index.js:30 | the test behind the negative lookahead `(?:\w+:)?\/\/` holds exactly when the host starts with `//` or with a non-empty word prefix followed by `://` |
| Hosts.PrependHttp | index.js:22-30 | the result is the trimmed host, `http://` plus it, or `https://` plus it; it is unchanged exactly when it is relative or already has a scheme; `https://` is used only when secure and not `localhost…`; `http://` only when not secure or `localhost…`; the result is trimmed and qualified |
| Hosts.RelativePassthrough | index.js:24-26 | a relative path is returned trimmed, whatever the `secure` flag |
| Hosts.LocalhostIsPlain | index.js:27-30 | a `localhost…` host without a scheme gets `http://` even when `https` is preferred |
| Hosts.PrependHttpIdempotent | index.js:17-31 | normalising a normalised host changes nothing |
| Hosts.PrependHttpChecked | index.js:17-20 | a host that is not a string is rejected, and a string is normalised |
| Http.IsRedirect | index.js:270 | an answer is a redirect exactly when it is an HTTP error with status 302, whatever its location |
| Http.Req | index.js:268-280 | `req` makes one or two calls, the first to the given URL and options; it makes a second call exactly when the first answer is a 302; the second call goes to the 302's location with the same options; the last call's answer is returned unchanged |
| Http.FollowRedirects | index.js:268-280 | a redirect policy with a budget of `hops`: at most `hops + 1` calls, each after the first following the previous 302, the last answer returned, and a 302 returned only once the budget is spent |
| Http.ReqFollowsOneHop | index.js:268-280 | `req` is the redirect policy with a budget of exactly one hop |
| Http.ReqPassesThrough | index.js:269-274 | a success, or any error that is not a 302, is passed through after one call |
| Http.ReqStopsAfterOneHop | index.js:276-278 | a second 302 is not followed: it is the result, after exactly two calls |
| GhostApi.EndpointFor | index.js:48 | the endpoint ends with `/ghost/api/v0.1`; its base equals the trimmed host exactly when that is relative or has a scheme, and otherwise is `http://` plus it for a `localhost…` host and `https://` plus it for any other; the base is trimmed and qualified |
| GhostApi.QualifiedEndpoint | index.js:48 | a trimmed host that already has a scheme or `//` is kept as it is, followed by the API path |
| GhostApi.Client.constructor | index.js:45-48 | a new client's endpoint is the endpoint for its host, and it has no token yet |
| GhostApi.Connect | index.js:45-48 | building a client from a value that is not a string fails with the normaliser's type error; a string gives a fresh client with that host's endpoint and no token |
| GhostApi.BearerCarriesToken | index.js:59-64 | the default headers carry `Bearer undefined` before authentication and `Bearer <token>` after it, plus the JSON content type |
| GhostApi.Client.Options | index.js:58-67 | the options have distinct keys, with `headers` first and then the overrides' other keys in order; every override wins, including a `headers` override, which replaces the defaults as a whole; without one, the options are exactly `{headers: <defaults for the current token>}` followed by the overrides |
| GhostApi.FindQuery | index.js:118-122 | the `find` query: the caller's keys win, and `include=tags`, `status=all` and `page=1` fill the rest, in that order, followed by the caller's new keys |
| GhostApi.FindQueryAppendKeep | index.js:118-122 | a two-key query whose first key `find` has no default for, and whose second key repeats a default's value, merges to the defaults in their order followed by the first key |
| GhostApi.AllQuery | index.js:141-146 | `all` asks for exactly `include=tags, status=all, page=1, limit=all`, in that order |
| GhostApi.FindOneQuery | index.js:165-168 | the `findOne` query: the caller's keys win, and `status=all` and `include=tags` fill the rest, in that order |
| GhostApi.Client.Fetch | index.js:126-130 | a JSON GET: one call to the given URL whose options have exactly the keys `headers` and `json` (no `method`, so a GET, and no body), with `json: true` and the default headers for the current token, settled with the transport's answer |
| GhostApi.Client.Find | index.js:117-133 | one GET of `<endpoint>/posts/?<merged query>` whose options are exactly `headers` and `json`, with `json: true` and the current default headers, with no redirect following |
| GhostApi.Client.All | index.js:141-146 | one GET of `<endpoint>/posts/?` with the `all` query, options exactly `headers` and `json`, `json: true` and the current default headers |
| GhostApi.Client.FindOne | index.js:156-179 | one GET; a string id is a slug (`/posts/slug/<id>/?`), anything else is printed into `/posts/<id>/?`; the merged `findOne` query follows; options exactly `headers` and `json`, with `json: true` and the current default headers |
| GhostApi.Overrides | index.js:226-231 | the overrides of the writing operations are exactly `method`, and `body` when there is one, with the given values |
| GhostApi.Client.Deliver | index.js:268-280 | a request through `req` whose options are exactly `headers`, `method` (and `body` when given), with the current default headers; one or two calls, the second exactly when the first answer is a 302 and to its location with the same options; the last answer is the result |
| GhostApi.HasTitle | index.js:194 | `create` may proceed only for an object; on an object with distinct keys, exactly when it has a `title` property with a truthy value |
| GhostApi.Defaulted | index.js:190-192 | replacing a falsy `data` by `{}` never creates a title, and data that has a title is kept as it is |
| GhostApi.Client.Create | index.js:189-212 | no request at all, and the missing-title error, exactly when the data has no truthy `title`; otherwise a POST of `{posts: [data]}` to `<endpoint>/posts` with options exactly `headers`, `method`, `body`, through `req`: a second call exactly when the first answer is a 302, and the last call's answer is the result |
| GhostApi.Client.Update | index.js:223-236 | a PUT of `{posts: [data]}` to `<endpoint>/posts/<id>` with options exactly `headers`, `method`, `body`, through `req`: a second call exactly when the first answer is a 302, and the last call's answer is the result |
| GhostApi.Client.Destroy | index.js:246-256 | a DELETE of `<endpoint>/posts/<id>` with options exactly `headers` and `method` (no body), through `req`: a second call exactly when the first answer is a 302, and the last call's answer is the result |
| GhostApi.Client.UpdateFollowsOneRedirect | index.js:233-236 | when an update is answered with a 302, it is sent again to the location with the same options, and the second answer is the result |
| GhostApi.SharedPosts.BindAll | index.js:287-295 | `bindAll` on the one `posts` object all clients share: the first client bound stays the receiver, since a bound function ignores a later binding |
| GhostApi.TwoClients | index.js:45-51 | after two clients are built for two different qualified hosts, the shared posts functions act on the first, whose endpoint differs from the second's |
| GhostApi.ClientPair | index.js:79-84 | the caller's client id and secret are sent when both are truthy; otherwise the built-in `ghost-admin` pair is sent; either way both are truthy |
| GhostApi.AuthOptions | index.js:86-94 | the token request is a POST whose body carries username, password, `grant_type=password` and the chosen client pair, with no default headers |
| GhostApi.Client.Auth | index.js:74-100 | `auth` makes the `req` exchange to `<endpoint>/authentication/token`; it succeeds exactly when a body is received and parses; the transport's error and the parse failure are reported as such; the token changes only on success, to the parsed `access_token`, which may be absent |

## Left out

- The HTTP library (`got`) and the network are not modelled. The transport is a total function from a URL and an options object to a body or an error, so timeouts, retries and the library's own redirect handling of GET requests are not modelled.
- Http.Req: it takes an HTTP error to always carry a `location` string. A 302 without that header, which would send the second request to `undefined`, is not modelled.
- Http.IsRedirect: it stands for `err instanceof got.HTTPError`. Every other failure is a `RequestError`, and only an HTTP error can carry status 302.
- `querystring.stringify` and `JSON.stringify` are parameters (`Codecs`). The model states which object is serialised, not the text produced.
- GhostApi.Client.Find: the result is the raw response body. The model does not capture parsing it as JSON or extracting `posts`.
- GhostApi.Client.All: the result is the raw response body. The model does not capture parsing it as JSON or extracting `posts`.
- GhostApi.Client.FindOne: the result is the raw response body. The model does not capture parsing it as JSON or extracting `posts[0]`.
- GhostApi.Client.Create: the result is the raw response body. The model does not capture `JSON.parse(body).posts[0]` or its parse error.
- GhostApi.Client.Update: the result is the raw response body. The model does not capture `JSON.parse(body).posts[0]` or its parse error.
- GhostApi.Client.Destroy: the result is the raw response body. The model does not capture `JSON.parse(body).posts[0]` or its parse error.
- GhostApi.Client.Auth: parsing the token response is a parameter, and `access_token` is taken to be a string or absent. A token of another JSON type is not modelled.
- GhostApi.Client.Options: the overrides are taken to be a plain object with distinct keys. An `undefined` query or override object behaves as `{}` and is given as the empty object.
- Promises and asynchrony are not modelled: each operation is one synchronous step. Concurrent `auth` calls racing to set the token are not modelled either.
- The six posts operations (`find`, `all`, `findOne`, `create`, `update`, `destroy`) are modelled as operations of the client they are called on, with that client's endpoint and token. As written, `bindAll` binds the shared `posts` object once, to the first client built, so on every later client these six operations use the first client's endpoint and token (see Findings). Calling `Client` without `new`, which re-enters the constructor with the same host, is not modelled.
- `util.format('%s', id)` of a value that is not a string is not modelled. Such a value is given together with the text it prints as (`Arg.NotText`).
- Truthiness of `NaN` and of floating-point numbers is not modelled. Numbers are integers.
- `Object.assign` places integer-like keys ahead of other keys, which is not modelled. The model keeps every key in insertion order.
- GhostApi.Client.Options: the merge at index.js:66 is shallow, so a caller's `headers` replaces the default headers as a whole, and the authorization header can be dropped. The model states this behaviour rather than headers that are always present.

## Findings

| source | as written | input that shows it | evidently intended | confidence | as-written member | corrected member |
|---|---|---|---|---|---|---|
| index.js:287-295 | `bindAll(this, ['posts'])` rebinds the functions of the one `posts` object on the prototype; a function that is already bound keeps its first receiver, so every client's posts operations act on the first client built | `new Client('//one.example')`, then `new Client('//two.example')`; the second client's `posts.find()` requests `//one.example/ghost/api/v0.1/posts/?…` with the first client's token | each client's posts operations use that client's own endpoint and token | high; not executed | GhostApi.TwoClients | GhostApi.Client.Find |
