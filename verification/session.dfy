/**
 * The process-wide chat client and the send path that creates it on first
 * use. The client is stored before the login is attempted, so a failed login
 * leaves a client in place that is never logged in again.
 */
module Session {
  import opened Wrappers

  /** The homeserver URL, account and target room, read once when the process starts. */
  datatype Config = Config(homeserver: string, user: string, password: string, roomId: string)

  /** The global client: not yet created, or created for a homeserver and user and either logged in or not. */
  datatype ClientState = NoClient | Client(homeserver: string, user: string, loggedIn: bool)

  /** What the homeserver answers to a login: a response with an access token, one without, or a raised exception. */
  datatype LoginReply = LoginAccepted(accessToken: string) | LoginRejected(response: string) | LoginRaised(error: string)

  /** What sending a room event does: it returns a response (whatever its content), or it raises. */
  datatype SendReply = SendReturned | SendRaised(error: string)

  /** How the homeserver behaves towards the calls of one delivery. */
  datatype Backend = Backend(login: LoginReply, send: SendReply)

  /** A call the service makes on the client; whether it reaches the homeserver is up to the backend. */
  datatype Call =
    | Login(user: string, password: string)
    | RoomSend(roomId: string, messageType: string, msgtype: string, body: string)

  /** The client afterwards, the requests made, and the exception the delivery raised, if any. */
  datatype Delivery = Delivery(client: ClientState, calls: seq<Call>, error: Option<string>)

  const LoginFailurePrefix: string := "Failed to login to Matrix: "

  /** The plain-text room message carrying `body` to the configured room. */
  function TextEvent(cfg: Config, body: string): Call {
    RoomSend(cfg.roomId, "m.room.message", "m.text", body)
  }

  /** The number of login requests among `calls`. */
  function LoginCount(calls: seq<Call>): (n: nat)
    ensures n <= |calls|
    ensures n == 0 <==> forall i :: 0 <= i < |calls| ==> !calls[i].Login?
  {
    if calls == [] then 0
    else (if calls[0].Login? then 1 else 0) + LoginCount(calls[1..])
  }

  /**
   * Creating the client and logging in. The new client is stored whatever the
   * login's outcome; a reply without an access token, or a raised exception,
   * is reported as an error.
   */
  function InitClient(cfg: Config, reply: LoginReply): (ClientState, Option<string>) {
    var created := Client(cfg.homeserver, cfg.user, false);
    match reply
    case LoginAccepted(_) => (created.(loggedIn := true), None)
    case LoginRejected(response) => (created, Some(LoginFailurePrefix + response))
    case LoginRaised(error) => (created, Some(error))
  }

  /** Sending one message: create and log in a client when there is none, then send the room event. */
  function SendMessage(client: ClientState, cfg: Config, message: string, backend: Backend): (d: Delivery)
    ensures d.client.Client?
    ensures client.Client? ==> d.client == client
    ensures client.NoClient? ==>
      d.client == Client(cfg.homeserver, cfg.user, backend.login.LoginAccepted?)
    ensures LoginCount(d.calls) == (if client.NoClient? then 1 else 0)
    ensures client.NoClient? ==> d.calls[0] == Login(cfg.user, cfg.password)
    ensures client.Client? ==> d.calls == [TextEvent(cfg, message)]
    ensures client.NoClient? ==>
      d.calls == [Login(cfg.user, cfg.password)] +
        (if backend.login.LoginAccepted? then [TextEvent(cfg, message)] else [])
    ensures TextEvent(cfg, message) in d.calls <==> client.Client? || backend.login.LoginAccepted?
    ensures d.error.None? <==>
      (client.Client? || backend.login.LoginAccepted?) && backend.send.SendReturned?
    ensures client.NoClient? && backend.login.LoginRejected? ==>
      d.error == Some(LoginFailurePrefix + backend.login.response)
    ensures client.NoClient? && backend.login.LoginRaised? ==> d.error == Some(backend.login.error)
    ensures (client.Client? || backend.login.LoginAccepted?) && backend.send.SendRaised? ==>
      d.error == Some(backend.send.error)
  {
    var (current, loginCalls, loginError) :=
      if client.Client? then (client, [], None)
      else
        var (created, err) := InitClient(cfg, backend.login);
        (created, [Login(cfg.user, cfg.password)], err);
    if loginError.Some? then Delivery(current, loginCalls, loginError)
    else
      var calls := loginCalls + [TextEvent(cfg, message)];
      match backend.send
      case SendReturned => Delivery(current, calls, None)
      case SendRaised(error) => Delivery(current, calls, Some(error))
  }

  /** The bodies of the room-send calls among `calls`, in the order they were made, whether or not they raised. */
  function RoomSendBodies(calls: seq<Call>): seq<string> {
    if calls == [] then []
    else (if calls[0].RoomSend? then [calls[0].body] else []) + RoomSendBodies(calls[1..])
  }

  lemma {:induction false} LoginCountAppend(a: seq<Call>, b: seq<Call>)
    ensures LoginCount(a + b) == LoginCount(a) + LoginCount(b)
    decreases |a|
  {
    if a == [] {
      assert a + b == b;
    } else {
      assert (a + b)[1..] == a[1..] + b;
      LoginCountAppend(a[1..], b);
    }
  }

  lemma {:induction false} RoomSendBodiesAppend(a: seq<Call>, b: seq<Call>)
    ensures RoomSendBodies(a + b) == RoomSendBodies(a) + RoomSendBodies(b)
    decreases |a|
  {
    if a == [] {
      assert a + b == b;
    } else {
      assert (a + b)[1..] == a[1..] + b;
      RoomSendBodiesAppend(a[1..], b);
    }
  }
}
