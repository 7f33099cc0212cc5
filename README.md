# node-wechat access-token cache, modelled in Dafny

This project models the core of a small WeChat API client: the cache-aside
rule by which `WechatSdk.getTokenH5` obtains an access token, the promise-style
cache adapter `WechatSdkCache` it relies on, the `appMode` dispatch of
`getToken`, and the way `execute` signs an API request with a token.

- `wrappers.dfy` — `Option` (JavaScript's `undefined` or a value) and `Result`
  (a promise that resolves or rejects).
- `cache.dfy` — module `SdkCache`: the class `WechatSdkCache` over a map from
  keys to entries (value and `ttl` option). `Get` reads without changing the
  store; `Set` writes and then reads back through `Get`.
- `sdk.dfy` — module `Sdk`: cache keys (`Join`, `AccessTokenKey`), the
  specification `TokenStep` of one token lookup (outcome, new store, upstream
  request sent), the lemmas about it, and the class `WechatSdk` whose methods
  `GetTokenH5`, `GetToken` and `Execute` are proved against `TokenStep`.

The token endpoint and the backing store are not run: each call receives the
reply the endpoint would send (`Response`) and the errors the store would
report (`StoreFaults`), and `WechatSdk.requests` is a ghost log of every HTTP
request sent, so that "no upstream call" is a statement about that log.
Argument objects (the argument of `getTokenH5`, the configuration, a `scope`)
are maps of their string-valued fields; a field missing from the map is
`undefined`. Two consequences of the source follow from that and are kept:
`join` renders an undefined `appId` as the empty string, so the key becomes
`wechat.accessToken.`; and the request omits a parameter whose field is
undefined. The default grant type applies only when `grantType` is undefined.

`getTokenH5` sends the caller's `grantType` when one is given
(src/index.js:43), and so does `execute` when the configuration or `scope`
holds one; only `getToken` always sends `client_credential`. A body fails only
on a truthy `errcode` (src/index.js:51), so `errcode: 0` succeeds. A body
without `expires_in` is still accepted, and its token is written with an
undefined `ttl` (src/index.js:52-53).

The key is injective in the application for a fixed prefix, and in both parts
when the prefixes contain no dot (the default `wechat` does not). A prefix that
contains a dot can make two configurations share a key (`DottedPrefixesCollide`).

## Model

| member | source | states |
|---|---|---|
| `SdkCache.WechatSdkCache.Get` | src/cache.js:18-25 | rejects exactly when the store read fails, with its error; otherwise resolves with the stored value, absent exactly when the key is not stored; the store is not modified |
| `SdkCache.WechatSdkCache.Set` | src/cache.js:37-48 | a failed write rejects with the store untouched and no read-back; otherwise the store maps the key to the value and ttl, no other key changes, and the call resolves with the read-back value, which equals the value written, or rejects when the read-back fails |
| `SdkCache.LookupAfterWrite` | src/cache.js:40-44 | after a write the key reads back the written value and every other key reads as before |
| `SdkCache.WechatSdkCache.constructor` | src/cache.js:6-9 | a new adapter starts with an empty store |
| `Sdk.CacheKeyShape` | src/index.js:45 | the key joined from prefix, `accessToken` and appId with dots is exactly `prefix + ".accessToken." + appId` |
| `Sdk.KeyDeterminesAppId` | src/index.js:14-16 | for a fixed prefix, equal keys imply equal appIds: distinct applications never share a cache entry |
| `Sdk.KeyInjective` | src/index.js:45 | for dot-free prefixes the key determines both the prefix and the appId |
| `Sdk.DottedPrefixesCollide` | src/index.js:45 | a prefix containing a dot can give two (prefix, appId) pairs the same key |
| `Sdk.TokenRequest` | src/index.js:48 | the upstream request goes to the token URL with `appid`, `secret` when given, and `grant_type` equal to the caller's grant type or `client_credential` when none is given, and no other parameter |
| `Sdk.CachedTokenReturned` | src/index.js:46-47 | a truthy cached value is returned unchanged, with no upstream request and the store unchanged |
| `Sdk.MissRequestsUpstream` | src/index.js:47-49 | an absent or empty cached value is a miss, and the endpoint is asked with the caller's credentials |
| `Sdk.EmptyBodyFails` | src/index.js:50 | no body fails with `get accessToken failed` and leaves the store unchanged |
| `Sdk.ErrcodeFails` | src/index.js:51 | a non-zero `errcode` fails carrying the body and leaves the store unchanged |
| `Sdk.FreshTokenStored` | src/index.js:52-54 | a body with `errcode` 0 stores `access_token` under the key with ttl `expires_in` (undefined when the body has none), and that token is returned |
| `Sdk.StoreFaultsReject` | src/index.js:46-53 | a failed cache read rejects before any request; a failed write rejects with the store unchanged; a failed read-back rejects with the entry already written |
| `Sdk.OnlyTokenKeyChanges` | src/index.js:53 | a lookup changes no entry other than the one under its own key |
| `Sdk.SecondCallHitsCache` | src/index.js:46-54 | after a call that returned a non-empty token, the next call with the same arguments returns the same token without an upstream request |
| `Sdk.EmptyTokenRefetched` | src/index.js:47 | the first call stores the empty token under the key, but the next call treats it as a miss and asks the endpoint again |
| `Sdk.ForwardedArgs` | src/index.js:76-77 | `getToken` forwards exactly the `appId` and `appSecret` fields of its options, with their values |
| `Sdk.GetTokenIgnoresMode` | src/index.js:71-80 | the forwarded arguments do not depend on `appMode`, and the grant type sent is always the default |
| `Sdk.ScopedArgs` | src/index.js:95 | the arguments of `execute`'s token lookup hold every field of the configuration and of `scope`, with `scope` winning |
| `Sdk.ApiRequest` | src/index.js:96-98 | the API request's URL is `baseUrl` followed by `api`, its `access_token` parameter is the token, and the caller's other parameters are kept |
| `Sdk.WechatSdk.constructor` | src/index.js:21-33 | the caller's configuration fields override the default base and token URLs, the prefix defaults to `wechat`, and the cache starts empty |
| `Sdk.WechatSdk.GetTokenH5` | src/index.js:43-55 | the result, the new store and the requests sent are those of `TokenStep` on the old store |
| `Sdk.WechatSdk.GetToken` | src/index.js:71-81 | behaves as `GetTokenH5` on the forwarded `appId` and `appSecret`, for every `appMode` |
| `Sdk.WechatSdk.Execute` | src/index.js:92-100 | obtains the token as `GetTokenH5` on the configuration overlaid with `scope`; a failure rejects with no API request; otherwise the signed API request is sent and its reply returned unchanged |

## Left out

- HTTP transport: `axios` is not modelled. The token endpoint's parsed body is an input; transport errors, status codes and JSON parsing are not modelled, so a rejected HTTP call does not appear.
- `Sdk.ErrcodeFails`: the error carries the body itself rather than its `JSON.stringify` text; JSON serialisation is not modelled.
- `errcode` truthiness: `TokenStep` reads `errcode` as an integer, where 0 also stands for an absent field. Other falsy or truthy JavaScript values of that field are not modelled.
- Cached values and tokens are strings. Truthiness is "present and not empty", and a missing `access_token` field is not distinguished from an empty one.
- Time-to-live expiry and the `cache-manager` backing store: the `ttl` is recorded with each entry, but entries never expire.
- `deepmerge`: the constructor merges only top-level string fields and the cache prefix. In `execute`, only the request's query parameters are modelled, with `access_token` overriding; other request options are not.
- `Sdk.WechatSdk.Execute`: the reply of the API request is an input, returned unchanged.
- The logger and error classes (`./logger`, `./error`) are not part of this model. `callback` is an identity stub with no logic.
- `getJsapiTicket`, `code2session` and `code2token` are called from the tests, but `src/index.js` defines none of them. They are not modelled.
- Concurrency: each call is one sequential step, so concurrent refreshes of the same token are not modelled.
