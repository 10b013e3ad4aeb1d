/**
 * The `/wa` router: four handlers, each behind `requireAdmin`, that validate the
 * `sessionId` query parameter where they need one, call the WhatsApp session
 * service and turn its result, or the error it throws, into one reply. The service
 * is not part of this model: it is given as a value `WaService` saying what each
 * call returns or throws.
 */
module WaRoutes {
  import opened Js
  import opened Http
  import RequireAdmin

  /** `req.query.sessionId` as Express's extended query parser produces it. */
  datatype QueryValue =
    | Absent                        // parameter not given
    | Text(s: string)               // ?sessionId=s
    | Repeated(items: seq<string>)  // ?sessionId=a&sessionId=b
    | Nested(ownToString: bool)     // ?sessionId[k]=v, an object; ownToString when k is "toString"

  /**
   * The result of one service call or conversion: a value, or a thrown error with
   * its `message`.
   */
  datatype Outcome<T> = Returned(value: T) | Threw(message: Option<string>)

  /** The message of the TypeError that `String` throws for an object it cannot convert. */
  const ConversionErrorText: string := "Cannot convert object to primitive value"

  /**
   * `String(value)`. An object converts to "[object Object]" through the inherited
   * `toString`; an object whose own `toString` key holds a string has neither a
   * callable `toString` nor a primitive `valueOf`, so the conversion throws.
   */
  function StringOf(q: QueryValue): (r: Outcome<string>)
    ensures r.Threw? <==> q == Nested(true)
    ensures r.Threw? ==> r.message == Some(ConversionErrorText)
    ensures q.Text? ==> r == Returned(q.s)
    ensures q.Repeated? && |q.items| == 1 ==> r == Returned(q.items[0])
  {
    match q
    case Absent => Returned("undefined")
    case Text(s) => Returned(s)
    case Repeated(items) => Returned(Join(items))
    case Nested(ownToString) =>
      if ownToString then Threw(Some(ConversionErrorText)) else Returned("[object Object]")
  }

  /** The guard `!id || id === "undefined"`. */
  predicate MissingSessionId(id: string) {
    id == "" || id == "undefined"
  }

  /** The query converts to an id that passes the guard. */
  predicate HasSessionId(q: QueryValue) {
    StringOf(q).Returned? && !MissingSessionId(StringOf(q).value)
  }

  /** The id a handler passes to the service. */
  function SessionId(q: QueryValue): string
    requires HasSessionId(q)
  {
    StringOf(q).value
  }

  /**
   * What the session service answers to each call. `getConnectedWaSessions` and
   * `createNewSessionId` are called without `await` and are taken to be synchronous.
   */
  datatype WaService = WaService(
    getWaQr: string -> Outcome<Option<string>>,
    getWaStatus: string -> Outcome<Json>,
    getConnectedWaSessions: Outcome<Json>,
    createNewSessionId: Outcome<string>)

  const MissingSessionIdReply: Reply :=
    Reply(400, ErrorBody("MISSING_SESSION_ID", "必须提供sessionId参数"))

  const QrFailedText: string := "生成WhatsApp二维码失败"
  const StatusFailedText: string := "查询WhatsApp状态失败"
  const ConnectedFailedText: string := "获取已连接会话失败"
  const CreateFailedText: string := "创建Session ID失败"

  /** `error.message || fallback`: the thrown message unless it is missing or empty. */
  function ErrorMessage(message: Option<string>, fallback: string): (text: string)
    ensures message.Some? && message.value != "" ==> text == message.value
    ensures message.None? || message == Some("") ==> text == fallback
  {
    if message.Some? && message.value != "" then message.value else fallback
  }

  /** The 500 reply of a handler whose service call threw. */
  function InternalError(message: Option<string>, fallback: string): (r: Reply)
    ensures r.status == 500 && r.body.ErrorBody? && r.body.code == "INTERNAL_ERROR"
    ensures fallback != "" ==> r.body.message != ""
  {
    Reply(500, ErrorBody("INTERNAL_ERROR", ErrorMessage(message, fallback)))
  }

  /** A QR image came back: `dataUrl && dataUrl.length > 0`. */
  ghost predicate QrReady(result: Outcome<Option<string>>) {
    result.Returned? && result.value.Some? && |result.value.value| > 0
  }

  /** GET /wa/login/qr, after admission. */
  function LoginQr(query: QueryValue, svc: WaService): (h: Handled)
    ensures StringOf(query).Threw? ==> h == Handled(InternalError(StringOf(query).message, QrFailedText), [])
    ensures h == Handled(MissingSessionIdReply, []) <==> StringOf(query).Returned? && MissingSessionId(StringOf(query).value)
    ensures h.calls != [] <==> HasSessionId(query)
    ensures HasSessionId(query) ==> h.calls == [GetWaQr(SessionId(query))]
    ensures h.reply.status == 200 <==> HasSessionId(query) && QrReady(svc.getWaQr(SessionId(query)))
    ensures h.reply.status == 200 ==> h.reply.body == DataUrlBody(svc.getWaQr(SessionId(query)).value.value)
    ensures h.reply.status == 202 <==>
      HasSessionId(query) && svc.getWaQr(SessionId(query)).Returned? && !QrReady(svc.getWaQr(SessionId(query)))
    ensures h.reply.status == 202 ==> h.reply.body == PendingBody
    ensures h.reply.status == 500 <==> StringOf(query).Threw? || (HasSessionId(query) && svc.getWaQr(SessionId(query)).Threw?)
    ensures HasSessionId(query) && svc.getWaQr(SessionId(query)).Threw? ==>
      h.reply == InternalError(svc.getWaQr(SessionId(query)).message, QrFailedText)
    ensures h.reply.status in {200, 202, 400, 500}
  {
    match StringOf(query)
    case Threw(conversionError) => Handled(InternalError(conversionError, QrFailedText), [])
    case Returned(id) =>
      if MissingSessionId(id) then Handled(MissingSessionIdReply, [])
      else
        var calls := [GetWaQr(id)];
        match svc.getWaQr(id)
        case Threw(message) => Handled(InternalError(message, QrFailedText), calls)
        case Returned(dataUrl) =>
          if dataUrl.Some? && |dataUrl.value| > 0 then Handled(Reply(200, DataUrlBody(dataUrl.value)), calls)
          else Handled(Reply(202, PendingBody), calls)
  }

  /** GET /wa/login/status, after admission. */
  function LoginStatus(query: QueryValue, svc: WaService): (h: Handled)
    ensures StringOf(query).Threw? ==> h == Handled(InternalError(StringOf(query).message, StatusFailedText), [])
    ensures h == Handled(MissingSessionIdReply, []) <==> StringOf(query).Returned? && MissingSessionId(StringOf(query).value)
    ensures h.calls != [] <==> HasSessionId(query)
    ensures HasSessionId(query) ==> h.calls == [GetWaStatus(SessionId(query))]
    ensures h.reply.status == 200 <==> HasSessionId(query) && svc.getWaStatus(SessionId(query)).Returned?
    ensures h.reply.status == 200 ==> h.reply.body == StatusBody(svc.getWaStatus(SessionId(query)).value)
    ensures h.reply.status == 500 <==> StringOf(query).Threw? || (HasSessionId(query) && svc.getWaStatus(SessionId(query)).Threw?)
    ensures HasSessionId(query) && svc.getWaStatus(SessionId(query)).Threw? ==>
      h.reply == InternalError(svc.getWaStatus(SessionId(query)).message, StatusFailedText)
    ensures h.reply.status in {200, 400, 500}
  {
    match StringOf(query)
    case Threw(conversionError) => Handled(InternalError(conversionError, StatusFailedText), [])
    case Returned(id) =>
      if MissingSessionId(id) then Handled(MissingSessionIdReply, [])
      else
        var calls := [GetWaStatus(id)];
        match svc.getWaStatus(id)
        case Threw(message) => Handled(InternalError(message, StatusFailedText), calls)
        case Returned(status) => Handled(Reply(200, StatusBody(status)), calls)
  }

  /** GET /wa/sessions/connected, after admission. */
  function SessionsConnected(svc: WaService): (h: Handled)
    ensures h.calls == [GetConnectedWaSessions]
    ensures h.reply.status == 200 <==> svc.getConnectedWaSessions.Returned?
    ensures h.reply.status == 200 ==> h.reply.body == SessionsBody(svc.getConnectedWaSessions.value)
    ensures h.reply.status == 500 ==> h.reply == InternalError(svc.getConnectedWaSessions.message, ConnectedFailedText)
    ensures h.reply.status in {200, 500}
  {
    match svc.getConnectedWaSessions
    case Threw(message) => Handled(InternalError(message, ConnectedFailedText), [GetConnectedWaSessions])
    case Returned(sessions) => Handled(Reply(200, SessionsBody(sessions)), [GetConnectedWaSessions])
  }

  /** POST /wa/sessions/create, after admission. */
  function SessionsCreate(svc: WaService): (h: Handled)
    ensures h.calls == [CreateNewSessionId]
    ensures h.reply.status == 200 <==> svc.createNewSessionId.Returned?
    ensures h.reply.status == 200 ==> h.reply.body == SessionIdBody(svc.createNewSessionId.value)
    ensures h.reply.status == 500 ==> h.reply == InternalError(svc.createNewSessionId.message, CreateFailedText)
    ensures h.reply.status in {200, 500}
  {
    match svc.createNewSessionId
    case Threw(message) => Handled(InternalError(message, CreateFailedText), [CreateNewSessionId])
    case Returned(sessionId) => Handled(Reply(200, SessionIdBody(sessionId)), [CreateNewSessionId])
  }

  datatype Route = LoginQrRoute | LoginStatusRoute | SessionsConnectedRoute | SessionsCreateRoute

  /**
   * The methods Express dispatches to a route: a `get` route also answers HEAD,
   * a `post` route only POST. No route here answers OPTIONS.
   */
  predicate Answers(route: Route, verb: string)
    ensures Answers(route, verb) ==> verb != "OPTIONS"
  {
    match route
    case SessionsCreateRoute => verb == "POST"
    case _ => verb == "GET" || verb == "HEAD"
  }

  /** The handler registered for a route, run once `requireAdmin` has called `next()`. */
  function Handler(route: Route, query: QueryValue, svc: WaService): (h: Handled)
    ensures |h.calls| <= 1
    ensures h.calls == [] <==> route in {LoginQrRoute, LoginStatusRoute} && !HasSessionId(query)
    ensures h.reply.status in {200, 202, 400, 500}
  {
    match route
    case LoginQrRoute => LoginQr(query, svc)
    case LoginStatusRoute => LoginStatus(query, svc)
    case SessionsConnectedRoute => SessionsConnected(svc)
    case SessionsCreateRoute => SessionsCreate(svc)
  }

  /** A request as these routes read it. */
  datatype Request = Request(verb: string, authorization: Option<string>, sessionId: QueryValue)

  /**
   * The chain `requireAdmin, handler` for one route, or `None` when the route does
   * not answer the request's method and Express passes it on.
   */
  function Serve(route: Route, req: Request, adminToken: Option<string>, svc: WaService): (r: Option<Handled>)
    ensures r.Some? <==> Answers(route, req.verb)
    ensures r.Some? ==> |r.value.calls| <= 1
    ensures r.Some? && r.value.calls != [] ==> RequireAdmin.CarriesAdminToken(req.authorization, adminToken)
    ensures r.Some? && !RequireAdmin.CarriesAdminToken(req.authorization, adminToken) ==>
      r.value.calls == [] && r.value.reply in {RequireAdmin.MissingHeaderReply, RequireAdmin.InvalidTokenReply}
    ensures r.Some? && !RequireAdmin.CarriesAdminToken(req.authorization, adminToken) ==>
      RequireAdmin.Admit(req.verb, req.authorization, adminToken).Reject? &&
      r.value == Handled(RequireAdmin.Admit(req.verb, req.authorization, adminToken).reply, [])
    ensures r.Some? && RequireAdmin.CarriesAdminToken(req.authorization, adminToken) ==>
      r.value == Handler(route, req.sessionId, svc)
  {
    if !Answers(route, req.verb) then None
    else
      match RequireAdmin.Admit(req.verb, req.authorization, adminToken)
      case Reject(reply) => Some(Handled(reply, []))
      case _ => Some(Handler(route, req.sessionId, svc))
  }

  /** An absent `sessionId` becomes the string "undefined", and both routes refuse it without a service call. */
  lemma AbsentSessionIdRefused(svc: WaService)
    ensures StringOf(Absent) == Returned("undefined")
    ensures LoginQr(Absent, svc) == Handled(MissingSessionIdReply, [])
    ensures LoginStatus(Absent, svc) == Handled(MissingSessionIdReply, [])
  {
  }

  /**
   * Exactly these query values are refused as a missing id: absent, "" or
   * "undefined", an empty list, or a one-element list holding "" or "undefined".
   * A value given twice or more is joined with a comma and so is never refused.
   */
  lemma MissingSessionIdIff(q: QueryValue)
    ensures StringOf(q).Returned? && MissingSessionId(StringOf(q).value) <==>
      q in {Absent, Text(""), Text("undefined"), Repeated([]), Repeated([""]), Repeated(["undefined"])}
  {
    match q
    case Repeated(items) =>
      if |items| >= 2 {
        assert ',' in Join(items);
        assert ',' !in "undefined";
      } else if |items| == 1 {
        assert items == [items[0]];
      }
    case _ =>
  }

  /** An object with its own `toString` key makes both id routes answer 500 without a service call. */
  lemma OwnToStringIsInternalError(svc: WaService)
    ensures LoginQr(Nested(true), svc) == Handled(Reply(500, ErrorBody("INTERNAL_ERROR", ConversionErrorText)), [])
    ensures LoginStatus(Nested(true), svc) == Handled(Reply(500, ErrorBody("INTERNAL_ERROR", ConversionErrorText)), [])
  {
  }

  /** A non-empty `sessionId` other than "undefined" reaches the service unchanged. */
  lemma PresentSessionIdReachesService(s: string, svc: WaService)
    requires s != "" && s != "undefined"
    ensures LoginQr(Text(s), svc).calls == [GetWaQr(s)]
    ensures LoginStatus(Text(s), svc).calls == [GetWaStatus(s)]
  {
  }

  /** Whether the QR route answers 200, 202 or 500 depends only on what the service returned for that id. */
  lemma QrReplyByResult(s: string, svc: WaService)
    requires s != "" && s != "undefined"
    ensures svc.getWaQr(s) == Returned(None) ==> LoginQr(Text(s), svc).reply == Reply(202, PendingBody)
    ensures svc.getWaQr(s) == Returned(Some("")) ==> LoginQr(Text(s), svc).reply == Reply(202, PendingBody)
    ensures forall u :: u != "" && svc.getWaQr(s) == Returned(Some(u)) ==> LoginQr(Text(s), svc).reply == Reply(200, DataUrlBody(u))
    ensures forall m :: svc.getWaQr(s) == Threw(m) ==> LoginQr(Text(s), svc).reply == Reply(500, ErrorBody("INTERNAL_ERROR", ErrorMessage(m, QrFailedText)))
  {
  }

  /** Every route replies with one of the codes it is written with. */
  lemma StatusCodes(route: Route, req: Request, adminToken: Option<string>, svc: WaService)
    requires Answers(route, req.verb)
    ensures Serve(route, req, adminToken, svc).value.reply.status in {200, 202, 400, 401, 403, 500}
  {
  }

  /**
   * A preflight never reaches a handler: `requireAdmin` would let it through, but
   * the route's method check comes first, so none of the four chains runs.
   */
  lemma PreflightNeverHandled(route: Route, authorization: Option<string>, sessionId: QueryValue, adminToken: Option<string>, svc: WaService)
    ensures RequireAdmin.Admit("OPTIONS", authorization, adminToken) == RequireAdmin.SkipPreflight
    ensures Serve(route, Request("OPTIONS", authorization, sessionId), adminToken, svc) == None
  {
  }
}
