/**
 * The token provider of src/index.js: the cache-aside rule for access tokens
 * (`getTokenH5`), the `appMode` dispatch of `getToken`, and `execute`, which
 * signs an API request with a token obtained the same way.
 *
 * The HTTP endpoint and the backing store are not modelled as processes: each
 * call receives the reply the endpoint would give and the errors the store
 * would report. Argument objects are maps of their string-valued fields; a
 * field missing from the map is JavaScript's `undefined`.
 */
module Sdk {
  import opened Wrappers
  import opened SdkCache

  const DefaultBaseUrl := "https://api.weixin.qq.com/cgi-bin"
  const DefaultAuthTokenUrl := "https://api.weixin.qq.com/cgi-bin/token"
  const DefaultPrefix := "wechat"
  const DefaultGrantType := "client_credential"
  const AccessTokenType := "accessToken"
  const AccessTokenFailedMessage := "get accessToken failed"

  /**
   * The parsed body of the token endpoint's reply: none at all, or the fields
   * the provider reads. An `errcode` the body does not carry is 0; an
   * `expires_in` it does not carry is `None`.
   */
  datatype Response = NoBody | Body(errcode: int, accessToken: string, expiresIn: Option<int>)

  /** An outgoing GET request: the URL and its query parameters. */
  datatype HttpRequest = HttpRequest(url: string, params: map<string, string>)

  /**
   * Why a call rejects: the store failed, the endpoint sent no body (with the
   * fixed message), or the body carried a non-zero `errcode` (the error's
   * message is that body, serialised).
   */
  datatype SdkError =
    | StoreFailure(reason: string)
    | AccessTokenFailed(message: string)
    | UpstreamErrcode(body: Response)

  /** The errors the backing store reports to the three store calls of one token lookup. */
  datatype StoreFaults = StoreFaults(onGet: Option<string>, onWrite: Option<string>, onReadBack: Option<string>)

  /** The effect of one token lookup: its outcome, the new store, and the upstream request it made, if any. */
  datatype Step = Step(outcome: Result<string, SdkError>, store: map<string, Entry>, request: Option<HttpRequest>)

  // ---------------------------------------------------------------------------
  // Cache keys

  /** `Array.prototype.join`: the parts with `sep` between neighbours. */
  function Join(parts: seq<string>, sep: string): string
  {
    if |parts| == 0 then ""
    else if |parts| == 1 then parts[0]
    else parts[0] + sep + Join(parts[1..], sep)
  }

  /** How `join` renders one element: `undefined` becomes the empty string. */
  function KeyPart(v: Option<string>): string
  {
    if v.Some? then v.value else ""
  }

  /** The key the access token of `appId` is cached under. */
  function AccessTokenKey(prefix: string, appId: string): string
  {
    Join([prefix, AccessTokenType, appId], ".")
  }

  lemma CacheKeyShape(prefix: string, appId: string)
    ensures AccessTokenKey(prefix, appId) == prefix + ".accessToken." + appId
  {
    var parts := [prefix, AccessTokenType, appId];
    assert parts[1..] == [AccessTokenType, appId];
    assert parts[1..][1..] == [appId];
    assert Join(parts[1..], ".") == AccessTokenType + "." + appId;
  }

  /** Under one prefix, distinct applications never share a key. */
  lemma KeyDeterminesAppId(prefix: string, a: string, b: string)
    requires AccessTokenKey(prefix, a) == AccessTokenKey(prefix, b)
    ensures a == b
  {
    CacheKeyShape(prefix, a);
    CacheKeyShape(prefix, b);
    var head := prefix + ".accessToken.";
    assert (head + a)[|head|..] == a;
    assert (head + b)[|head|..] == b;
  }

  /** When neither prefix contains a dot, the key determines both the prefix and the application. */
  lemma KeyInjective(p1: string, a1: string, p2: string, a2: string)
    requires '.' !in p1 && '.' !in p2
    requires AccessTokenKey(p1, a1) == AccessTokenKey(p2, a2)
    ensures p1 == p2 && a1 == a2
  {
    CacheKeyShape(p1, a1);
    CacheKeyShape(p2, a2);
    var key := AccessTokenKey(p1, a1);
    assert key[|p1|] == '.' && key[|p2|] == '.';
    assert forall k :: 0 <= k < |p1| ==> key[k] == p1[k];
    assert forall k :: 0 <= k < |p2| ==> key[k] == p2[k];
    assert |p1| == |p2|;
    assert p1 == key[..|p1|] == p2;
    KeyDeterminesAppId(p1, a1, a2);
  }

  /** A prefix that contains the separator can make two configurations share one key. */
  lemma DottedPrefixesCollide()
    ensures AccessTokenKey("wechat.accessToken.a", "b") == AccessTokenKey("wechat", "a.accessToken.b")
  {
    CacheKeyShape("wechat.accessToken.a", "b");
    CacheKeyShape("wechat", "a.accessToken.b");
  }

  // ---------------------------------------------------------------------------
  // The token lookup

  function Arg(args: map<string, string>, name: string): Option<string>
  {
    if name in args then Some(args[name]) else None
  }

  /** The grant type sent upstream: the caller's, or the default when the caller gives none. */
  function GrantType(args: map<string, string>): string
  {
    if "grantType" in args then args["grantType"] else DefaultGrantType
  }

  /** The key `getTokenH5` uses for the arguments `args`. */
  function TokenKey(prefix: string, args: map<string, string>): string
  {
    AccessTokenKey(prefix, KeyPart(Arg(args, "appId")))
  }

  /** The token endpoint request; a parameter whose field is undefined is not sent. */
  function TokenRequest(url: string, args: map<string, string>): (req: HttpRequest)
    ensures req.url == url
    ensures req.params.Keys == {"grant_type"}
                               + (if "appId" in args then {"appid"} else {})
                               + (if "appSecret" in args then {"secret"} else {})
    ensures req.params["grant_type"] == (if "grantType" in args then args["grantType"] else DefaultGrantType)
    ensures "appId" in args ==> req.params["appid"] == args["appId"]
    ensures "appSecret" in args ==> req.params["secret"] == args["appSecret"]
  {
    var withId := if "appId" in args then map["appid" := args["appId"]] else map[];
    var withSecret := if "appSecret" in args then withId["secret" := args["appSecret"]] else withId;
    HttpRequest(url, withSecret["grant_type" := GrantType(args)])
  }

  /** JavaScript truthiness of a cached value: present and not the empty string. */
  predicate Truthy(v: Option<string>)
  {
    v.Some? && v.value != ""
  }

  /** The requests a step sends, as a log suffix. */
  function Sent(request: Option<HttpRequest>): seq<HttpRequest>
  {
    if request.Some? then [request.value] else []
  }

  /**
   * One call of `getTokenH5` against the store `store`, asking `url` and
   * receiving `reply` on a miss.
   */
  function TokenStep(prefix: string, url: string, store: map<string, Entry>, args: map<string, string>,
                     reply: Response, faults: StoreFaults): Step
  {
    var key := TokenKey(prefix, args);
    if faults.onGet.Some? then Step(Failure(StoreFailure(faults.onGet.value)), store, None)
    else if Truthy(Lookup(store, key)) then Step(Success(store[key].value), store, None)
    else
      var request := Some(TokenRequest(url, args));
      match reply
      case NoBody => Step(Failure(AccessTokenFailed(AccessTokenFailedMessage)), store, request)
      case Body(errcode, token, expiresIn) =>
        if errcode != 0 then Step(Failure(UpstreamErrcode(reply)), store, request)
        else if faults.onWrite.Some? then Step(Failure(StoreFailure(faults.onWrite.value)), store, request)
        else
          var written := store[key := Entry(token, expiresIn)];
          if faults.onReadBack.Some? then Step(Failure(StoreFailure(faults.onReadBack.value)), written, request)
          else Step(Success(token), written, request)
  }

  /** A truthy cached value is returned unchanged, with no upstream request and no write. */
  lemma CachedTokenReturned(prefix: string, url: string, store: map<string, Entry>, args: map<string, string>,
                            reply: Response, faults: StoreFaults)
    requires faults.onGet.None?
    requires Truthy(Lookup(store, TokenKey(prefix, args)))
    ensures TokenStep(prefix, url, store, args, reply, faults)
            == Step(Success(Lookup(store, TokenKey(prefix, args)).value), store, None)
  {
  }

  /** An absent or empty cached value is a miss: the endpoint is asked with the caller's credentials. */
  lemma MissRequestsUpstream(prefix: string, url: string, store: map<string, Entry>, args: map<string, string>,
                             reply: Response, faults: StoreFaults)
    requires faults.onGet.None?
    requires !Truthy(Lookup(store, TokenKey(prefix, args)))
    ensures TokenStep(prefix, url, store, args, reply, faults).request == Some(TokenRequest(url, args))
  {
  }

  /** A missing body fails with the fixed message and leaves the store as it was. */
  lemma EmptyBodyFails(prefix: string, url: string, store: map<string, Entry>, args: map<string, string>,
                       faults: StoreFaults)
    requires faults.onGet.None?
    requires !Truthy(Lookup(store, TokenKey(prefix, args)))
    ensures TokenStep(prefix, url, store, args, NoBody, faults)
            == Step(Failure(AccessTokenFailed("get accessToken failed")), store, Some(TokenRequest(url, args)))
  {
  }

  /** A body with a non-zero `errcode` fails carrying that body and leaves the store as it was. */
  lemma ErrcodeFails(prefix: string, url: string, store: map<string, Entry>, args: map<string, string>,
                     reply: Response, faults: StoreFaults)
    requires faults.onGet.None?
    requires !Truthy(Lookup(store, TokenKey(prefix, args)))
    requires reply.Body? && reply.errcode != 0
    ensures TokenStep(prefix, url, store, args, reply, faults)
            == Step(Failure(UpstreamErrcode(reply)), store, Some(TokenRequest(url, args)))
  {
  }

  /** A body with `errcode` 0 stores its token with ttl `expires_in` and returns it. */
  lemma FreshTokenStored(prefix: string, url: string, store: map<string, Entry>, args: map<string, string>,
                         reply: Response)
    requires !Truthy(Lookup(store, TokenKey(prefix, args)))
    requires reply.Body? && reply.errcode == 0
    ensures TokenStep(prefix, url, store, args, reply, StoreFaults(None, None, None))
            == Step(Success(reply.accessToken),
                    store[TokenKey(prefix, args) := Entry(reply.accessToken, reply.expiresIn)],
                    Some(TokenRequest(url, args)))
  {
  }

  /**
   * Store errors reject the call: a failed read before any request, a failed
   * write with the store untouched, a failed read-back with the entry written.
   */
  lemma StoreFaultsReject(prefix: string, url: string, store: map<string, Entry>, args: map<string, string>,
                          reply: Response, faults: StoreFaults)
    ensures faults.onGet.Some? ==>
      TokenStep(prefix, url, store, args, reply, faults) == Step(Failure(StoreFailure(faults.onGet.value)), store, None)
    ensures faults.onGet.None? && !Truthy(Lookup(store, TokenKey(prefix, args)))
            && reply.Body? && reply.errcode == 0 && faults.onWrite.Some? ==>
      TokenStep(prefix, url, store, args, reply, faults)
        == Step(Failure(StoreFailure(faults.onWrite.value)), store, Some(TokenRequest(url, args)))
    ensures faults.onGet.None? && !Truthy(Lookup(store, TokenKey(prefix, args)))
            && reply.Body? && reply.errcode == 0 && faults.onWrite.None? && faults.onReadBack.Some? ==>
      TokenStep(prefix, url, store, args, reply, faults)
        == Step(Failure(StoreFailure(faults.onReadBack.value)),
                store[TokenKey(prefix, args) := Entry(reply.accessToken, reply.expiresIn)],
                Some(TokenRequest(url, args)))
  {
  }

  /** A lookup changes at most the entry under its own key. */
  lemma OnlyTokenKeyChanges(prefix: string, url: string, store: map<string, Entry>, args: map<string, string>,
                            reply: Response, faults: StoreFaults)
    ensures TokenStep(prefix, url, store, args, reply, faults).store - {TokenKey(prefix, args)}
            == store - {TokenKey(prefix, args)}
  {
  }

  /** Once a non-empty token has been obtained, the next call is served from the cache. */
  lemma SecondCallHitsCache(prefix: string, url: string, store: map<string, Entry>, args: map<string, string>,
                            reply1: Response, faults1: StoreFaults, reply2: Response, faults2: StoreFaults)
    requires TokenStep(prefix, url, store, args, reply1, faults1).outcome.Success?
    requires TokenStep(prefix, url, store, args, reply1, faults1).outcome.value != ""
    requires faults2.onGet.None?
    ensures var first := TokenStep(prefix, url, store, args, reply1, faults1);
            TokenStep(prefix, url, first.store, args, reply2, faults2) == Step(first.outcome, first.store, None)
  {
  }

  /** An empty token is stored, yet the next call takes it for a miss and asks the endpoint again. */
  lemma EmptyTokenRefetched(prefix: string, url: string, store: map<string, Entry>, args: map<string, string>,
                            reply1: Response, faults1: StoreFaults, reply2: Response, faults2: StoreFaults)
    requires TokenStep(prefix, url, store, args, reply1, faults1).outcome == Success("")
    requires faults2.onGet.None?
    ensures var first := TokenStep(prefix, url, store, args, reply1, faults1);
            TokenKey(prefix, args) in first.store && first.store[TokenKey(prefix, args)].value == ""
    ensures var first := TokenStep(prefix, url, store, args, reply1, faults1);
            TokenStep(prefix, url, first.store, args, reply2, faults2).request == Some(TokenRequest(url, args))
  {
  }

  // ---------------------------------------------------------------------------
  // getToken and execute

  /** The object `getToken` passes on: only `appId` and `appSecret`, whatever the `appMode`. */
  function ForwardedArgs(options: map<string, string>): (args: map<string, string>)
    ensures args.Keys == options.Keys * {"appId", "appSecret"}
    ensures forall k :: k in args ==> args[k] == options[k]
  {
    map k | k in options && (k == "appId" || k == "appSecret") :: options[k]
  }

  /** `getToken` ignores `appMode` and never forwards a grant type, so the default is always sent. */
  lemma GetTokenIgnoresMode(options: map<string, string>, mode: string)
    ensures ForwardedArgs(options["appMode" := mode]) == ForwardedArgs(options)
    ensures GrantType(ForwardedArgs(options)) == DefaultGrantType
  {
  }

  /** `{...config, ...scope}`: every field of `scope` overrides the field of `config` of the same name. */
  function ScopedArgs(config: map<string, string>, scope: map<string, string>): (args: map<string, string>)
    ensures args.Keys == config.Keys + scope.Keys
    ensures forall k :: k in scope ==> args[k] == scope[k]
    ensures forall k :: k in config && k !in scope ==> args[k] == config[k]
  {
    config + scope
  }

  /** The API request of `execute`: `baseUrl + api`, with the token as the `access_token` parameter. */
  function ApiRequest(baseUrl: string, api: string, params: map<string, string>, token: string): (req: HttpRequest)
    ensures |req.url| == |baseUrl| + |api|
    ensures req.url[..|baseUrl|] == baseUrl && req.url[|baseUrl|..] == api
    ensures req.params.Keys == params.Keys + {"access_token"}
    ensures req.params["access_token"] == token
    ensures forall k :: k in params && k != "access_token" ==> req.params[k] == params[k]
  {
    HttpRequest(baseUrl + api, params["access_token" := token])
  }

  function DefaultConfig(): map<string, string>
  {
    map["baseUrl" := DefaultBaseUrl, "authTokenUrl" := DefaultAuthTokenUrl]
  }

  class WechatSdk {
    /** The string-valued top-level fields of the merged configuration. */
    const config: map<string, string>
    /** The cache key prefix, `config.cache.prefix`. */
    const prefix: string
    const cache: WechatSdkCache
    /** Every HTTP request this instance has sent, oldest first. */
    ghost var requests: seq<HttpRequest>

    ghost predicate Valid()
    {
      "baseUrl" in config && "authTokenUrl" in config
    }

    /** The caller's fields override the defaults; the cache starts empty. */
    constructor (user: map<string, string>, userPrefix: Option<string>)
      ensures Valid()
      ensures config == DefaultConfig() + user
      ensures prefix == (if userPrefix.Some? then userPrefix.value else DefaultPrefix)
      ensures fresh(cache) && cache.store == map[]
      ensures requests == []
    {
      config := DefaultConfig() + user;
      prefix := if userPrefix.Some? then userPrefix.value else DefaultPrefix;
      cache := new WechatSdkCache();
      requests := [];
    }

    /** The access token for `args`: from the cache when it holds a truthy one, else from the endpoint. */
    method GetTokenH5(args: map<string, string>, reply: Response, faults: StoreFaults)
      returns (r: Result<string, SdkError>)
      requires Valid()
      modifies this, cache
      ensures var s := TokenStep(prefix, config["authTokenUrl"], old(cache.store), args, reply, faults);
              r == s.outcome && cache.store == s.store && requests == old(requests) + Sent(s.request)
    {
      var key := TokenKey(prefix, args);
      var cached := cache.Get(key, faults.onGet);
      if cached.Failure? {
        return Failure(StoreFailure(cached.error));
      }
      if Truthy(cached.value) {
        return Success(cached.value.value);
      }
      var request := TokenRequest(config["authTokenUrl"], args);
      requests := requests + [request];
      match reply {
        case NoBody =>
          return Failure(AccessTokenFailed(AccessTokenFailedMessage));
        case Body(errcode, token, expiresIn) =>
          if errcode != 0 {
            return Failure(UpstreamErrcode(reply));
          }
          var stored := cache.Set(key, token, expiresIn, faults.onWrite, faults.onReadBack);
          if stored.Failure? {
            return Failure(StoreFailure(stored.error));
          }
          return Success(token);
      }
    }

    /** Every `appMode`, given or not, takes the 'h5' path with only the credentials forwarded. */
    method GetToken(options: map<string, string>, reply: Response, faults: StoreFaults)
      returns (r: Result<string, SdkError>)
      requires Valid()
      modifies this, cache
      ensures var s := TokenStep(prefix, config["authTokenUrl"], old(cache.store), ForwardedArgs(options), reply, faults);
              r == s.outcome && cache.store == s.store && requests == old(requests) + Sent(s.request)
    {
      r := GetTokenH5(ForwardedArgs(options), reply, faults);
    }

    /**
     * Obtains a token for the configuration overlaid with `scope`, then sends
     * the API request signed with it and resolves with the reply `data`.
     */
    method Execute<D>(api: string, params: map<string, string>, scope: map<string, string>,
                      reply: Response, faults: StoreFaults, data: D)
      returns (r: Result<D, SdkError>)
      requires Valid()
      modifies this, cache
      ensures var s := TokenStep(prefix, config["authTokenUrl"], old(cache.store), ScopedArgs(config, scope), reply, faults);
              cache.store == s.store
              && (s.outcome.Failure? ==>
                    r == Failure(s.outcome.error) && requests == old(requests) + Sent(s.request))
              && (s.outcome.Success? ==>
                    r == Success(data)
                    && requests == old(requests) + Sent(s.request)
                                   + [ApiRequest(config["baseUrl"], api, params, s.outcome.value)])
    {
      var token := GetTokenH5(ScopedArgs(config, scope), reply, faults);
      if token.Failure? {
        return Failure(token.error);
      }
      requests := requests + [ApiRequest(config["baseUrl"], api, params, token.value)];
      return Success(data);
    }
  }
}
