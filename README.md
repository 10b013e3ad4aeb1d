# Request admission and response policy of the WhatsApp session backend

This project models, in Dafny, the layer of the backend that decides what happens
to an HTTP request before and after it reaches the WhatsApp session service:

- `RequireAdmin` (`require_admin.dfy`): the `requireAdmin` middleware. A CORS
  preflight (`OPTIONS`) passes through untouched. Any other request needs the header
  `Authorization: Bearer <ADMIN_TOKEN>`. An absent, empty or malformed header gets
  401, a wrong token gets 403, both with code `AUTH_FORBIDDEN`. The right token sets
  `req.isAdmin` and calls `next()`. The decision is the function `Admit`. The
  middleware itself is the method `Middleware`, which writes the `isAdmin` field of
  an `AdminRequest` object and returns exactly one effect: call `next()` or send one
  reply.
- `CorsConfig` (`cors_config.dfy`): the origin predicate of `corsOptions` and its
  constant fields. An absent or empty origin is allowed. Any other origin must equal
  one of six listed strings exactly.
- `Cookies` (`cookie_options.dfy`): `getCookieOptions`. Outside production it gives
  `lax`, not secure, path `/`. In production it gives `none`, secure, and path
  `/auth/refresh` for refresh cookies. `crossDomain` is ignored.
- `WaRoutes` (`wa_routes.dfy`): the four `/wa` handlers and the chain
  `requireAdmin → handler`. `Serve` maps a request, the configured token and the
  service's answers to one reply (400, 200, 202, 401, 403 or 500) plus the list of
  service calls made. The service calls made are never more than one, and none is
  made unless the header carries the admin token. With that token the reply is the
  handler's.
- `Js` (`js.dfy`): the JavaScript built-ins these rely on (`startsWith`, `slice`,
  `includes`, `join`). `startsWith`, `includes` and `join` are written element by
  element, following their definitions in the ECMAScript language specification.
  `startsWith` is proved to agree with Dafny's prefix test, `slice` with taking a
  suffix and `includes` with sequence membership. `join` is written from the right
  and proved equal to the left-to-right construction of its definition.
  `undefined` is `Option.None`, and service payloads are `Json` values.
- `Http` (`http.dfy`): reply bodies, replies and the record of service calls.

Outside inputs are parameters: `process.env.NODE_ENV` (`nodeEnv`),
`config.ADMIN_TOKEN` (`adminToken`, possibly unset) and what each service call
returns or throws (`WaService`).

## Model

| member | source | states |
|---|---|---|
| `Js.StartsWith` | server/src/middleware/requireAdmin.ts:23 | `startsWith("Bearer ")`, computed one character at a time, holds exactly when the header's first 7 characters are `Bearer ` (case and trailing space included) |
| `Js.Slice` | server/src/middleware/requireAdmin.ts:33 | `slice(n)` is the suffix after the first `n` characters: prefix plus result rebuilds the string, and past the end the result is "" |
| `Js.Includes` | server/src/config/cors.config.ts:18 | the in-order scan of `includes` is true exactly when the origin is an element of the list |
| `Js.Join` | server/src/routes/wa.ts:23 | `String` of a repeated query value joins with commas: "" for none, the element for one, and for two or more a string containing a comma |
| `Js.JoinSnoc` | server/src/routes/wa.ts:23 | appending an element to a non-empty list appends "," and the element to the joined string, as the left-to-right definition of `join` builds it |
| `RequireAdmin.ExtractToken` | server/src/middleware/requireAdmin.ts:33 | the token is what follows the prefix: prefix plus token is the header |
| `RequireAdmin.Admit` | server/src/middleware/requireAdmin.ts:14-46 | pass-through iff `OPTIONS`; 401 iff not `OPTIONS` and no well-formed `Bearer ` header; 403 iff well-formed but not `Bearer ` + ADMIN_TOKEN (always so when the token is unset); authorized iff not `OPTIONS` and the header is exactly `Bearer ` + ADMIN_TOKEN |
| `RequireAdmin.AdminRequest.constructor` | server/src/middleware/requireAdmin.ts:5-7 | a request object starts with `isAdmin` false, standing for the declared but unset (`undefined`, falsy) field; `Middleware`'s contract holds for any starting value |
| `RequireAdmin.Middleware` | server/src/middleware/requireAdmin.ts:14-46 | exactly one effect: `next()` for a preflight or an admitted request, otherwise one 401/403 reply; `isAdmin` becomes true iff admitted and is unchanged otherwise |
| `RequireAdmin.PreflightAlwaysPasses` | server/src/middleware/requireAdmin.ts:16-19 | an `OPTIONS` request passes whatever its header and token |
| `RequireAdmin.TokenRoundTrip` | server/src/middleware/requireAdmin.ts:33 | the token extracted from `Bearer ` + t is exactly t |
| `RequireAdmin.UnsetTokenRefusesAll` | server/src/middleware/requireAdmin.ts:34-41 | with ADMIN_TOKEN unset every non-preflight request is refused |
| `RequireAdmin.SchemeIsExact` | server/src/middleware/requireAdmin.ts:23-30 | `bearer t`, `Bearer` and `Bearer` followed directly by a token all get 401 |
| `CorsConfig.Origin` | server/src/config/cors.config.ts:3-21 | the callback's error is always null; absent or empty origin is allowed; any other origin is allowed iff it is one of the six listed strings |
| `CorsConfig.CorsOptions` | server/src/config/cors.config.ts:22-34 | credentials true, success status 200, exposed headers exactly `X-Request-Id`, `Authorization` and `Content-Type` allowed, the six methods |
| `CorsConfig.ListedOriginsAllowed` | server/src/config/cors.config.ts:8-18 | six distinct entries, each of them allowed |
| `CorsConfig.NoListedOriginEndsInSlash` | server/src/config/cors.config.ts:8-15 | no listed origin ends in `/` |
| `CorsConfig.TrailingSlashRefused` | server/src/config/cors.config.ts:18-20 | any origin with a trailing `/` is refused: no normalisation |
| `CorsConfig.SchemeCaseSensitive` | server/src/config/cors.config.ts:18-20 | `HTTP://localhost:3000` is refused: no case folding of the scheme |
| `CorsConfig.HostCaseSensitive` | server/src/config/cors.config.ts:18-20 | `http://LOCALHOST:3001` is refused: no case folding of the host |
| `CorsConfig.DomainCaseSensitive` | server/src/config/cors.config.ts:18-20 | `https://WWW.EVOLUTION-X.IO` is refused: no case folding of the domain |
| `Cookies.GetCookieOptions` | server/src/utils/cookieOptions.ts:4-29 | `httpOnly` true and `maxAge` the argument always; not production: insecure, `lax`, `/`; production: secure, `none`; path `/auth/refresh` iff production and `isRefresh` |
| `Cookies.SameSiteNoneIsSecure` | server/src/utils/cookieOptions.ts:21-24 | `sameSite` `none` implies `secure` |
| `Cookies.CrossDomainIgnored` | server/src/utils/cookieOptions.ts:6 | `crossDomain` never changes the result |
| `Cookies.OmittedFlagsAreFalse` | server/src/utils/cookieOptions.ts:6 | an omitted flag, or omitted flags argument, behaves as `false` |
| `Cookies.DevelopmentIgnoresFlags` | server/src/utils/cookieOptions.ts:10-18 | outside production the options do not depend on the flags |
| `Cookies.ProductionIsExact` | server/src/utils/cookieOptions.ts:8 | only the exact value `production` counts: an unset `NODE_ENV` or `Production` is not production, and unset gives the same options as `development` |
| `WaRoutes.StringOf` | server/src/routes/wa.ts:23 | `String(req.query.sessionId)` throws exactly for an object with its own `toString` key, with the TypeError's message; a single value converts to itself, a one-element list to its element |
| `WaRoutes.MissingSessionIdIff` | server/src/routes/wa.ts:23-24 | the guard refuses exactly: absent, "", "undefined", an empty list, and a one-element list of "" or "undefined"; a value given twice or more is never refused |
| `WaRoutes.ErrorMessage` | server/src/routes/wa.ts:52 | `error.message` when it is present and non-empty, otherwise the route's default text |
| `WaRoutes.InternalError` | server/src/routes/wa.ts:49-53 | status 500, code `INTERNAL_ERROR`, and a non-empty message when the default is non-empty |
| `WaRoutes.LoginQr` | server/src/routes/wa.ts:21-55 | a conversion that throws gives 500 with no call; 400 with no service call iff the id is "" or "undefined"; otherwise exactly one `getWaQr(id)` call; 200 `{dataUrl}` iff it returned a non-empty string; 202 `{pending}` iff it returned null, undefined or ""; 500 iff the conversion or the call threw, with the thrown message or the route's text |
| `WaRoutes.LoginStatus` | server/src/routes/wa.ts:60-81 | a conversion that throws gives 500 with no call; 400 with no call iff the id is missing; otherwise one `getWaStatus(id)` call; 200 `{ok, status}` echoing the value iff it returned; 500 iff the conversion or the call threw, with the thrown message or the route's text |
| `WaRoutes.SessionsConnected` | server/src/routes/wa.ts:86-98 | one service call; 200 `{sessions}` echoing the value iff it returned, else 500 |
| `WaRoutes.SessionsCreate` | server/src/routes/wa.ts:103-116 | one service call; 200 `{sessionId}` echoing the new id iff it returned, else 500 |
| `WaRoutes.Answers` | server/src/routes/wa.ts:21-103 | a route registered with `get` or `post` never answers OPTIONS |
| `WaRoutes.Handler` | server/src/routes/wa.ts:21-116 | each handler makes at most one service call, and none exactly when it is an id route whose id is refused or fails to convert; its status is 200, 202, 400 or 500 |
| `WaRoutes.Serve` | server/src/routes/wa.ts:15-116 | a route answers its own methods only; at most one service call; a service call only if the header is `Bearer ` + ADMIN_TOKEN; otherwise exactly `requireAdmin`'s own reply (401 for a missing or malformed header, 403 for a wrong token) and no call; with that header the result is exactly the handler's |
| `WaRoutes.PreflightNeverHandled` | server/src/routes/wa.ts:15-21 | `requireAdmin` would let an OPTIONS request through, but the route's method check comes first, so none of the four chains runs |
| `WaRoutes.OwnToStringIsInternalError` | server/src/routes/wa.ts:22-53 | `?sessionId[toString]=x` makes both id routes answer 500 `INTERNAL_ERROR` with the TypeError's message and no service call |
| `WaRoutes.AbsentSessionIdRefused` | server/src/routes/wa.ts:23-30 | an absent `sessionId` becomes "undefined" and both id routes answer 400 without a call |
| `WaRoutes.PresentSessionIdReachesService` | server/src/routes/wa.ts:23-34 | a non-empty id other than "undefined" is passed to the service unchanged |
| `WaRoutes.QrReplyByResult` | server/src/routes/wa.ts:34-54 | the QR reply for each kind of service result: null or "" gives 202, a non-empty string u gives 200 `{dataUrl: u}`, a throw gives 500 |
| `WaRoutes.StatusCodes` | server/src/routes/wa.ts:21-116 | every reply is one of 200, 202, 400, 401, 403, 500 |

## Left out

- The WhatsApp session service is not part of this model: `services/wa-simple-final.service`, imported by `server/src/routes/wa.ts:5-10`, and `services/startup-reconnect.service`, `services/health.service` and `services/websocket.service`, imported by `server/src/app.ts:16-18`. What its four calls return or throw is an input (`WaService`).
- `WaRoutes.WaService`: `getConnectedWaSessions` and `createNewSessionId` are called without `await` (`server/src/routes/wa.ts:88,105`) and are modelled as synchronous. If they return a Promise, the handler answers 200 with that Promise serialised, and a rejection is unhandled and ends the process through `server/src/app.ts:208-211`; neither is modelled.
- `server/src/app.ts` is not modelled. It holds Express, Socket.IO and HTTP server wiring, Chrome path detection, signal handlers and the delayed startup reconnect. All of it is process plumbing and I/O. Its Socket.IO origin check uses an `ALLOWED_ORIGINS` list that `cors.config.ts` does not define, so the two lists are not assumed equal.
- `server/src/database/initDb.service.ts` is not modelled: it is database and filesystem I/O only.
- `server/src/routes/auth.ts` is not modelled: its handlers delegate to `controller/auth.controller`, which is not part of this model. Its logout clears `refresh_token` at path `/`. In production `getCookieOptions` gives refresh cookies path `/auth/refresh`. No equality between the two is claimed.
- The `cors` package itself is not modelled: how it turns the origin callback into headers, and how it ends preflights. The model covers only the option values and the origin callback.
- `console.log` output is left out, and so is reading `process.env` and `config`: both become parameters.
- `Cookies.GetCookieOptions`: `maxAgeMs` is an integer. JavaScript numbers that are fractional, NaN or infinite are not modelled. They are passed through unchanged in the same way.
- `WaRoutes.LoginQr`, `WaRoutes.LoginStatus`, `WaRoutes.SessionsConnected`, `WaRoutes.SessionsCreate`: a service that throws `null` or `undefined` is not modelled. In any of the four handlers, reading `.message` would then throw inside the `catch`; no reply would be sent and the rejected handler would end the process through `server/src/app.ts:208-211`. Only thrown values with an optional `message` are modelled.
- `WaRoutes.StringOf`: query arrays whose elements are objects are not modelled. The same goes for qs's limit past which an array becomes an object. A repeated parameter is a list of strings. An object is reduced to whether it has its own `toString` key, as Express 4's query parser (qs with `allowPrototypes`) lets through; other keys such as `valueOf` are treated as plain keys.
- `WaRoutes.Serve`: a HEAD request runs the GET handler, and Express then drops the body. The model returns the body the handler computed.
- Strings are sequences of characters, not UTF-16 code units. The prefix `Bearer ` and the listed origins are ASCII, so the 7-character slice is the same either way.
