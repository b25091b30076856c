/**
 * The webhook endpoint: one request carrying a Grafana alert is formatted
 * and sent to the room synchronously, and the outcome becomes the HTTP
 * status and JSON body of the reply.
 */
module Webhook {
  import opened Wrappers
  import opened Json
  import opened Formatter
  import opened Session

  /** The request body as the framework hands it over: decoded JSON, or the exception decoding raised. */
  datatype Request = Decoded(payload: Json) | Undecodable(reason: string)

  /** The JSON reply body: `{"error": ...}` or `{"status": ...}`. */
  datatype Body = ErrorBody(error: string) | StatusBody(status: string)

  datatype Response = Response(code: int, body: Body)

  /** The reply, the client afterwards and the calls made on the client. */
  datatype Exchange = Exchange(response: Response, client: ClientState, calls: seq<Call>)

  const NoDataText: string := "No data received"
  const MatrixErrorPrefix: string := "Matrix error: "
  const WebhookErrorPrefix: string := "Webhook error: "
  const SuccessText: string := "success"

  /** Whether a request reaches the formatter and the send path. */
  predicate Accepted(req: Request) {
    req.Decoded? && Truthy(req.payload)
  }

  /** Handling one POST to the webhook. */
  function Handle(req: Request, client: ClientState, cfg: Config, backend: Backend, show: Json -> string): (x: Exchange)
    ensures x.response.code in {200, 400, 500}
    ensures x.response.code == 400 <==> req.Decoded? && !Truthy(req.payload)
    ensures x.response.code == 400 ==> x.response.body == ErrorBody(NoDataText)
    ensures req.Undecodable? ==>
      x.response == Response(500, ErrorBody(WebhookErrorPrefix + req.reason))
    ensures !Accepted(req) ==> x.client == client && x.calls == []
    ensures x.response.code == 200 <==>
      && req.Decoded? && Truthy(req.payload)
      && (client.Client? || backend.login.LoginAccepted?)
      && backend.send.SendReturned?
    ensures x.response.code == 200 ==> x.response.body == StatusBody(SuccessText)
    ensures Accepted(req) ==>
      var d := SendMessage(client, cfg, FormatAlert(req.payload, show), backend);
      && x.client == d.client
      && x.calls == d.calls
      && (d.error.Some? ==> x.response == Response(500, ErrorBody(MatrixErrorPrefix + d.error.value)))
    ensures req.Decoded? && Truthy(req.payload) ==>
      (TextEvent(cfg, FormatAlert(req.payload, show)) in x.calls <==>
        client.Client? || backend.login.LoginAccepted?)
  {
    match req
    case Undecodable(reason) => Exchange(Response(500, ErrorBody(WebhookErrorPrefix + reason)), client, [])
    case Decoded(payload) =>
      if !Truthy(payload) then Exchange(Response(400, ErrorBody(NoDataText)), client, [])
      else
        var d := SendMessage(client, cfg, FormatAlert(payload, show), backend);
        match d.error
        case Some(e) => Exchange(Response(500, ErrorBody(MatrixErrorPrefix + e)), d.client, d.calls)
        case None => Exchange(Response(200, StatusBody(SuccessText)), d.client, d.calls)
  }

  /** The replies to a series of requests, the client afterwards and all calls made on the client. */
  datatype Traffic = Traffic(responses: seq<Response>, client: ClientState, calls: seq<Call>)

  /** Handling requests one after another, the client carried from each to the next. */
  function Serve(reqs: seq<Request>, backends: seq<Backend>, client: ClientState, cfg: Config, show: Json -> string): (t: Traffic)
    requires |reqs| == |backends|
    ensures |t.responses| == |reqs|
    decreases |reqs|
  {
    if reqs == [] then Traffic([], client, [])
    else
      var x := Handle(reqs[0], client, cfg, backends[0], show);
      var rest := Serve(reqs[1..], backends[1..], x.client, cfg, show);
      Traffic([x.response] + rest.responses, rest.client, x.calls + rest.calls)
  }

  /** The alert texts of the accepted requests, in arrival order. */
  function AlertTexts(reqs: seq<Request>, show: Json -> string): seq<string> {
    if reqs == [] then []
    else (if Accepted(reqs[0]) then [FormatAlert(reqs[0].payload, show)] else []) + AlertTexts(reqs[1..], show)
  }

  /**
   * Once a client exists, logged in or not, no request logs in again, the
   * client never changes, and a room send is attempted for each accepted
   * alert, in arrival order, whether or not it raises. An accepted alert is
   * answered 200 exactly when its room send returns.
   */
  lemma {:induction false} ServeWithClient(reqs: seq<Request>, backends: seq<Backend>, client: ClientState, cfg: Config, show: Json -> string)
    requires |reqs| == |backends|
    requires client.Client?
    ensures Serve(reqs, backends, client, cfg, show).client == client
    ensures LoginCount(Serve(reqs, backends, client, cfg, show).calls) == 0
    ensures RoomSendBodies(Serve(reqs, backends, client, cfg, show).calls) == AlertTexts(reqs, show)
    ensures forall i :: 0 <= i < |reqs| && Accepted(reqs[i]) ==>
      (Serve(reqs, backends, client, cfg, show).responses[i].code == 200 <==> backends[i].send.SendReturned?)
    decreases |reqs|
  {
    if reqs != [] {
      var x := Handle(reqs[0], client, cfg, backends[0], show);
      var rest := Serve(reqs[1..], backends[1..], x.client, cfg, show);
      ServeWithClient(reqs[1..], backends[1..], client, cfg, show);
      LoginCountAppend(x.calls, rest.calls);
      RoomSendBodiesAppend(x.calls, rest.calls);
      if Accepted(reqs[0]) {
        assert RoomSendBodies(x.calls) == [FormatAlert(reqs[0].payload, show)];
      }
      var t := Serve(reqs, backends, client, cfg, show);
      forall i | 1 <= i < |reqs|
        ensures t.responses[i] == rest.responses[i - 1]
        ensures reqs[i] == reqs[1..][i - 1] && backends[i] == backends[1..][i - 1]
      {
      }
    }
  }

  /**
   * Starting without a client, the service logs in at most once over any
   * series of requests: exactly once if some request is accepted, and
   * never otherwise.
   */
  lemma {:induction false} ServeLogsInAtMostOnce(reqs: seq<Request>, backends: seq<Backend>, cfg: Config, show: Json -> string)
    requires |reqs| == |backends|
    ensures LoginCount(Serve(reqs, backends, NoClient, cfg, show).calls) ==
      (if exists i :: 0 <= i < |reqs| && Accepted(reqs[i]) then 1 else 0)
    decreases |reqs|
  {
    if reqs != [] {
      var x := Handle(reqs[0], NoClient, cfg, backends[0], show);
      var rest := Serve(reqs[1..], backends[1..], x.client, cfg, show);
      LoginCountAppend(x.calls, rest.calls);
      if Accepted(reqs[0]) {
        ServeWithClient(reqs[1..], backends[1..], x.client, cfg, show);
      } else {
        ServeLogsInAtMostOnce(reqs[1..], backends[1..], cfg, show);
        assert (exists i :: 0 <= i < |reqs| && Accepted(reqs[i])) <==>
               (exists i :: 0 <= i < |reqs[1..]| && Accepted(reqs[1..][i])) by {
          forall i | 0 <= i < |reqs| && Accepted(reqs[i])
            ensures exists j :: 0 <= j < |reqs[1..]| && Accepted(reqs[1..][j])
          {
            assert i > 0 && reqs[1..][i - 1] == reqs[i];
          }
        }
      }
    }
  }

  /**
   * A first accepted alert whose login fails leaves a client that is not
   * logged in and stays so: for every later accepted alert a room send is
   * attempted without another login.
   */
  lemma FailedLoginIsNeverRetried(reqs: seq<Request>, backends: seq<Backend>, cfg: Config, show: Json -> string)
    requires |reqs| == |backends| > 0
    requires Accepted(reqs[0]) && !backends[0].login.LoginAccepted?
    ensures Serve(reqs, backends, NoClient, cfg, show).responses[0].code == 500
    ensures Serve(reqs, backends, NoClient, cfg, show).client == Client(cfg.homeserver, cfg.user, false)
    ensures LoginCount(Serve(reqs, backends, NoClient, cfg, show).calls) == 1
    ensures RoomSendBodies(Serve(reqs, backends, NoClient, cfg, show).calls) == AlertTexts(reqs[1..], show)
  {
    var x := Handle(reqs[0], NoClient, cfg, backends[0], show);
    var rest := Serve(reqs[1..], backends[1..], x.client, cfg, show);
    ServeWithClient(reqs[1..], backends[1..], x.client, cfg, show);
    LoginCountAppend(x.calls, rest.calls);
    RoomSendBodiesAppend(x.calls, rest.calls);
    assert x.calls == [Login(cfg.user, cfg.password)];
  }
}
