/**
 * The replies the admission layer and the WA routes write with
 * `res.status(code).json(body)` (or `res.json(body)`, which is status 200).
 */
module Http {
  import opened Js

  /** The JSON bodies the layer sends, one constructor per object shape. */
  datatype Body =
    | ErrorBody(code: string, message: string)   // { ok: false, code, message }
    | DataUrlBody(dataUrl: string)               // { dataUrl }
    | PendingBody                                // { pending: true }
    | StatusBody(status: Json)                   // { ok: true, status }
    | SessionsBody(sessions: Json)               // { sessions }
    | SessionIdBody(sessionId: string)           // { sessionId }

  datatype Reply = Reply(status: nat, body: Body)

  /** The list of calls into the session service a handler made, in order. */
  datatype ServiceCall =
    | GetWaQr(id: string)
    | GetWaStatus(id: string)
    | GetConnectedWaSessions
    | CreateNewSessionId

  /** What a request handler did: the reply it sent and the service calls it made. */
  datatype Handled = Handled(reply: Reply, calls: seq<ServiceCall>)
}
