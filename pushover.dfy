/** A model of the Pushover notification client: the field table of a message,
    the credentials of a client and their resolution from the environment, the
    registry of messages a client creates, the construction of the form payload
    that each dispatch posts, and the outcome rule for the server's reply.

    The HTTPS exchange itself is not modelled: a dispatch hands its payload out
    of the model and takes the server's parsed reply in as a `Response`. */
module Pushover {

  /** A field value. Most fields are strings; callers also store small
      integers (a priority, say). */
  datatype Value = Str(s: string) | Int(i: int)

  datatype Option<T> = None | Some(value: T)

  /** The library raises one exception type, carrying a text. */
  datatype Error = PushoverError(reason: string)

  datatype Result<T> = Ok(value: T) | Err(error: Error)

  /** What the client reads from the server's JSON reply: its `status` and the
      raw body text. */
  datatype Response = Response(status: int, body: string)

  /** The process environment, passed in explicitly. */
  type Env = map<string, string>

  /** A message's field table: field name to value. */
  type Fields = map<string, Value>

  const AppTokenVar := "PUSHOVER_APP_TOKEN"
  const UserTokenVar := "PUSHOVER_USER_TOKEN"

  const NoAppToken :=
    PushoverError("No token supplied and PUSHOVER_APP_TOKEN environment variable not set.")
  const NoUserToken :=
    PushoverError("No user token supplied and PUSHOVER_USER_TOKEN environment variable not set.")

  /** Python truthiness of an optional string: present and non-empty. */
  predicate Truthy(s: Option<string>) {
    s.Some? && s.value != ""
  }

  function AsValue(s: Option<string>): Option<Value> {
    if s.Some? then Some(Str(s.value)) else None
  }

  // ---------------------------------------------------------------------------
  // The field table of a message

  /** `set(key, value)`: an absent value leaves the table alone; a present one
      adds or overwrites `key` and nothing else. */
  function SetField(vars: Fields, key: string, value: Option<Value>): (r: Fields)
    ensures value.None? ==> r == vars
    ensures value.Some? ==> key in r && r[key] == value.value
    ensures r.Keys == if value.Some? then vars.Keys + {key} else vars.Keys
    ensures forall k | k in vars && k != key :: r[k] == vars[k]
  {
    if value.Some? then vars[key := value.value] else vars
  }

  /** `user(user_token, user_device)`: names the single recipient of a
      message. Each part is stored only when present; an absent device leaves
      any device already stored untouched. */
  function AssignUser(vars: Fields, userToken: Option<Value>, userDevice: Option<Value>): (r: Fields)
    ensures userToken.Some? ==> "user" in r && r["user"] == userToken.value
    ensures userToken.None? ==> ("user" in r <==> "user" in vars)
    ensures userToken.None? && "user" in vars ==> r["user"] == vars["user"]
    ensures userDevice.Some? ==> "device" in r && r["device"] == userDevice.value
    ensures userDevice.None? ==> ("device" in r <==> "device" in vars)
    ensures userDevice.None? && "device" in vars ==> r["device"] == vars["device"]
    ensures r.Keys == vars.Keys + (if userToken.Some? then {"user"} else {})
                                + (if userDevice.Some? then {"device"} else {})
    ensures forall k | k in vars && k != "user" && k != "device" :: r[k] == vars[k]
  {
    SetField(SetField(vars, "user", userToken), "device", userDevice)
  }

  class Message {
    var vars: Fields

    /** The invariant of a message: it always carries the `message` field. */
    ghost predicate Valid()
      reads this
    {
      "message" in vars
    }

    constructor (text: string)
      ensures vars == map["message" := Str(text)]
      ensures Valid()
    {
      vars := map["message" := Str(text)];
    }

    method Set(key: string, value: Option<Value>)
      modifies this
      ensures vars == SetField(old(vars), key, value)
      ensures old(Valid()) ==> Valid()
    {
      if value.Some? {
        vars := vars[key := value.value];
      }
    }

    /** Returns the current table as a value. Python returns the dict itself;
        the one write made through it, by the dispatch, is modelled in
        `Client.Dispatch` as a write to `vars`. */
    method Get() returns (fields: Fields)
      ensures fields == vars
    {
      fields := vars;
    }

    method User(userToken: Option<Value>, userDevice: Option<Value>)
      modifies this
      ensures vars == AssignUser(old(vars), userToken, userDevice)
      ensures old(Valid()) ==> Valid()
    {
      Set("user", userToken);
      Set("device", userDevice);
    }
  }

  // ---------------------------------------------------------------------------
  // Credentials

  /** An explicit argument wins; otherwise the environment variable `name`;
      otherwise the error `missing`. An explicit empty string is accepted. */
  function ResolveCredential(arg: Option<string>, env: Env, name: string, missing: Error): (r: Result<string>)
    ensures r.Err? <==> arg.None? && name !in env
    ensures r.Err? ==> r.error == missing
    ensures r.Ok? && arg.Some? ==> r.value == arg.value
    ensures r.Ok? && arg.None? ==> r.value == env[name]
  {
    if arg.Some? then Ok(arg.value)
    else if name in env then Ok(env[name])
    else Err(missing)
  }

  /** The credentials a client is constructed with: the application token is
      resolved first, then the user token, and the first one missing is the
      error raised. */
  function ResolveClient(token: Option<string>, userToken: Option<string>, env: Env): (r: Result<(string, string)>)
    ensures r.Err? <==> (token.None? && AppTokenVar !in env) || (userToken.None? && UserTokenVar !in env)
    ensures r.Err? ==> r.error == if token.None? && AppTokenVar !in env then NoAppToken else NoUserToken
    ensures r.Ok? ==> r.value.0 == (if token.Some? then token.value else env[AppTokenVar])
    ensures r.Ok? ==> r.value.1 == (if userToken.Some? then userToken.value else env[UserTokenVar])
  {
    match ResolveCredential(token, env, AppTokenVar, NoAppToken)
    case Err(e) => Err(e)
    case Ok(app) =>
      match ResolveCredential(userToken, env, UserTokenVar, NoUserToken)
      case Err(e) => Err(e)
      case Ok(user) => Ok((app, user))
  }

  // ---------------------------------------------------------------------------
  // Payloads and outcomes

  /** The form fields a dispatch posts: the message's own table with `token`
      written over; when the table names no `user`, the client's default user
      and (when it has one) default device are written in as well. A table
      that already names a user keeps its `user` and `device` untouched. */
  function Payload(vars: Fields, token: string, userToken: string, userDevice: Option<string>): (r: Fields)
    ensures "token" in r && r["token"] == Str(token)
    ensures r.Keys == vars.Keys + {"token"}
                      + (if "user" in vars then {} else {"user"})
                      + (if "user" !in vars && userDevice.Some? then {"device"} else {})
    ensures "user" in vars ==> forall k | k in vars && k != "token" :: r[k] == vars[k]
    ensures "user" !in vars ==> r["user"] == Str(userToken)
    ensures "user" !in vars && userDevice.Some? ==> r["device"] == Str(userDevice.value)
    ensures forall k | k in vars && k != "token" && k != "device" :: r[k] == vars[k]
    ensures userDevice.None? && "device" in vars ==> r["device"] == vars["device"]
  {
    var withToken := vars["token" := Str(token)];
    if "user" in withToken then withToken
    else
      var withUser := withToken["user" := Str(userToken)];
      if userDevice.Some? then withUser["device" := Str(userDevice.value)] else withUser
  }

  /** Dispatching a message a second time posts what the first dispatch
      posted: the first one left the message equal to its payload. */
  lemma PayloadIdempotent(vars: Fields, token: string, userToken: string, userDevice: Option<string>)
    ensures Payload(Payload(vars, token, userToken, userDevice), token, userToken, userDevice)
            == Payload(vars, token, userToken, userDevice)
  {
  }

  /** The transient message `send` builds from a text: `title` when the title
      is a non-empty string, `url` when the URL is, and `url_title` only when
      both the URL and the URL title are. */
  function TextFields(text: string, title: Option<string>, url: Option<string>, urlTitle: Option<string>): (r: Fields)
    ensures r.Keys == {"message"}
                      + (if Truthy(title) then {"title"} else {})
                      + (if Truthy(url) then {"url"} else {})
                      + (if Truthy(url) && Truthy(urlTitle) then {"url_title"} else {})
    ensures r["message"] == Str(text)
    ensures Truthy(title) ==> r["title"] == Str(title.value)
    ensures Truthy(url) ==> r["url"] == Str(url.value)
    ensures Truthy(url) && Truthy(urlTitle) ==> r["url_title"] == Str(urlTitle.value)
  {
    var base := map["message" := Str(text)];
    var withTitle := if Truthy(title) then SetField(base, "title", AsValue(title)) else base;
    if !Truthy(url) then withTitle
    else
      var withUrl := SetField(withTitle, "url", AsValue(url));
      if Truthy(urlTitle) then SetField(withUrl, "url_title", AsValue(urlTitle)) else withUrl
  }

  /** What `send` posts for a text: the transient message's fields plus the
      client's token, default user and (when set) default device. */
  function TextPayload(text: string, title: Option<string>, url: Option<string>, urlTitle: Option<string>,
                       token: string, userToken: string, userDevice: Option<string>): (r: Fields)
    ensures "message" in r && r["message"] == Str(text)
    ensures "title" in r <==> Truthy(title)
    ensures "url" in r <==> Truthy(url)
    ensures "url_title" in r <==> Truthy(url) && Truthy(urlTitle)
    ensures Truthy(title) ==> r["title"] == Str(title.value)
    ensures Truthy(url) ==> r["url"] == Str(url.value)
    ensures Truthy(url) && Truthy(urlTitle) ==> r["url_title"] == Str(urlTitle.value)
    ensures "token" in r && r["token"] == Str(token)
    ensures "user" in r && r["user"] == Str(userToken)
    ensures "device" in r <==> userDevice.Some?
    ensures userDevice.Some? ==> r["device"] == Str(userDevice.value)
    ensures r.Keys <= {"message", "title", "url", "url_title", "token", "user", "device"}
  {
    Payload(TextFields(text, title, url, urlTitle), token, userToken, userDevice)
  }

  /** Copying the default recipient into a message that names no user, as
      `send` does for a text when the default user token is non-empty, posts
      exactly what leaving it to the dispatch would post. So the payload of a
      text does not depend on whether that branch is taken. */
  lemma DefaultRecipientEquivalence(vars: Fields, token: string, userToken: string, userDevice: Option<string>)
    requires "user" !in vars
    ensures Payload(AssignUser(vars, Some(Str(userToken)), AsValue(userDevice)), token, userToken, userDevice)
            == Payload(vars, token, userToken, userDevice)
  {
  }

  /** A dispatch succeeds exactly when the reply's status is 1; otherwise it
      fails with the raw reply text. */
  function Outcome(response: Response): (r: Result<bool>)
    ensures r.Ok? <==> response.status == 1
    ensures r.Ok? ==> r.value
    ensures r.Err? ==> r.error == PushoverError(response.body)
  {
    if response.status != 1 then Err(PushoverError(response.body)) else Ok(true)
  }

  /** The position of the first failing reply, or the length when none fails. */
  function FirstFailure(rs: seq<Response>): (n: nat)
    ensures n <= |rs|
    ensures forall k | 0 <= k < n :: rs[k].status == 1
    ensures n < |rs| ==> rs[n].status != 1
  {
    if rs == [] then 0
    else if rs[0].status != 1 then 0
    else 1 + FirstFailure(rs[1..])
  }

  /** How many messages `sendall` dispatches: all of them, or up to and
      including the first one whose reply fails. */
  function Dispatched(rs: seq<Response>): (n: nat)
    ensures n <= |rs|
    ensures n == |rs| <==> FirstFailure(rs) >= |rs| - 1
    ensures FirstFailure(rs) < |rs| ==> n == FirstFailure(rs) + 1
  {
    if FirstFailure(rs) < |rs| then FirstFailure(rs) + 1 else |rs|
  }

  /** Message `k` is dispatched exactly when every reply before it succeeded. */
  lemma DispatchedMeaning(rs: seq<Response>, k: nat)
    requires k < |rs|
    ensures k < Dispatched(rs) <==> forall j | 0 <= j < k :: rs[j].status == 1
  {
  }

  /** The outcome of `sendall` given the successive replies: one `true` per
      message when every reply succeeds, otherwise the first failure. */
  function SendAllOutcome(rs: seq<Response>): (r: Result<seq<bool>>)
    ensures r.Ok? <==> forall k | 0 <= k < |rs| :: rs[k].status == 1
    ensures r.Ok? ==> |r.value| == |rs| && forall k | 0 <= k < |r.value| :: r.value[k]
    ensures r.Err? ==> FirstFailure(rs) < |rs| && r == Err(Outcome(rs[FirstFailure(rs)]).error)
  {
    var n := FirstFailure(rs);
    if n == |rs| then Ok(seq(|rs|, _ => true)) else Err(PushoverError(rs[n].body))
  }

  /** `sendall` as a step over one message: a failing reply ends it with that
      reply's error, and otherwise the first `true` is followed by the outcome
      for the rest. */
  lemma {:induction false} SendAllStep(x: Response, rs: seq<Response>)
    ensures SendAllOutcome([x] + rs) ==
            match Outcome(x)
            case Err(e) => Err(e)
            case Ok(_) =>
              match SendAllOutcome(rs)
              case Err(e) => Err(e)
              case Ok(bs) => Ok([true] + bs)
  {
    assert ([x] + rs)[1..] == rs;
    if x.status == 1 {
      assert FirstFailure([x] + rs) == 1 + FirstFailure(rs);
      if SendAllOutcome(rs).Ok? {
        assert seq(|rs| + 1, _ => true) == [true] + seq(|rs|, _ => true);
      } else {
        assert ([x] + rs)[1 + FirstFailure(rs)] == rs[FirstFailure(rs)];
      }
    }
  }

  // ---------------------------------------------------------------------------
  // The client

  /** The argument of `send`: a message object or a plain text. */
  datatype Outgoing = Object(msg: Message) | Text(text: string)

  class Client {
    var token: string
    var userToken: string
    var userDevice: Option<string>
    var messages: seq<Message>

    /** The registry holds each message object once (`Msg` only appends
        objects it has just created), and every registered message carries
        its `message` field. */
    ghost predicate Valid()
      reads this, messages
    {
      && (forall i, j | 0 <= i < j < |messages| :: messages[i] != messages[j])
      && (forall k | 0 <= k < |messages| :: messages[k].Valid())
    }

    constructor Init(token: string, userToken: string, userDevice: Option<string>)
      ensures this.token == token && this.userToken == userToken && this.userDevice == userDevice
      ensures messages == []
      ensures Valid()
    {
      this.token := token;
      this.userToken := userToken;
      this.userDevice := userDevice;
      messages := [];
    }

    /** Construction: resolves the application token, then the user token, and
        fails with the first one that cannot be found. */
    static method Create(token: Option<string>, userToken: Option<string>, userDevice: Option<string>, env: Env)
      returns (r: Result<Client>)
      ensures r.Err? <==> ResolveClient(token, userToken, env).Err?
      ensures r.Err? ==> r.error == ResolveClient(token, userToken, env).error
      ensures r.Ok? ==> fresh(r.value) && r.value.Valid()
      ensures r.Ok? ==> (r.value.token, r.value.userToken) == ResolveClient(token, userToken, env).value
      ensures r.Ok? ==> r.value.userDevice == userDevice && r.value.messages == []
    {
      var app := ResolveCredential(token, env, AppTokenVar, NoAppToken);
      if app.Err? {
        return Err(app.error);
      }
      var user := ResolveCredential(userToken, env, UserTokenVar, NoUserToken);
      if user.Err? {
        return Err(user.error);
      }
      var c := new Client.Init(app.value, user.value, userDevice);
      r := Ok(c);
    }

    /** Sets the default recipient. On failure nothing changes. */
    method User(userToken: Option<string>, userDevice: Option<string>, env: Env) returns (r: Result<()>)
      requires Valid()
      modifies this
      ensures Valid()
      ensures r.Err? <==> userToken.None? && UserTokenVar !in env
      ensures r.Err? ==> r.error == NoUserToken
      ensures r.Err? ==> this.userToken == old(this.userToken) && this.userDevice == old(this.userDevice)
      ensures r.Ok? ==> this.userToken == ResolveCredential(userToken, env, UserTokenVar, NoUserToken).value
      ensures r.Ok? ==> this.userDevice == userDevice
      ensures token == old(token) && messages == old(messages)
    {
      var user := ResolveCredential(userToken, env, UserTokenVar, NoUserToken);
      if user.Err? {
        return Err(user.error);
      }
      this.userToken := user.value;
      this.userDevice := userDevice;
      r := Ok(());
    }

    /** Creates a message, registers it at the end of the registry and returns
        it for further changes before sending. */
    method Msg(text: string) returns (m: Message)
      requires Valid()
      modifies this
      ensures Valid()
      ensures fresh(m) && m.vars == map["message" := Str(text)] && m.Valid()
      ensures messages == old(messages) + [m]
      ensures token == old(token) && userToken == old(userToken) && userDevice == old(userDevice)
    {
      m := new Message(text);
      messages := messages + [m];
    }

    /** `_send`: writes the payload into the message's own table (the table
        `Get` returns is the message's, not a copy), hands it to the network
        and judges the reply. The environment fallback to `PUSHOVER_USER` is
        never taken: its guard tests a bound method, which is never `None`. */
    method Dispatch(m: Message, response: Response) returns (payload: Fields, r: Result<bool>)
      requires m.Valid()
      modifies m
      ensures payload == Payload(old(m.vars), token, userToken, userDevice)
      ensures m.vars == payload && m.Valid()
      ensures old(Valid()) ==> Valid()
      ensures r == Outcome(response)
    {
      var kwargs := m.Get();
      m.vars := kwargs["token" := Str(token)];
      assert "message" in m.vars;
      if "user" !in m.vars {
        m.vars := m.vars["user" := Str(userToken)];
        if userDevice.Some? {
          m.vars := m.vars["device" := Str(userDevice.value)];
        }
      }
      payload := m.vars;
      if response.status != 1 {
        r := Err(PushoverError(response.body));
      } else {
        r := Ok(true);
      }
    }

    /** The transient message `send` builds from a text. */
    static method TextMessage(text: string, title: Option<string>, url: Option<string>, urlTitle: Option<string>)
      returns (temp: Message)
      ensures fresh(temp) && temp.Valid()
      ensures temp.vars == TextFields(text, title, url, urlTitle)
    {
      temp := new Message(text);
      if Truthy(title) {
        temp.Set("title", AsValue(title));
      }
      if Truthy(url) {
        temp.Set("url", AsValue(url));
        if Truthy(urlTitle) {
          temp.Set("url_title", AsValue(urlTitle));
        }
      }
    }

    /** `send`: a message object is dispatched as it is, whatever `title`,
        `url` and `urlTitle` say; a text becomes a transient message (never
        registered) with those fields applied first. */
    method Send(message: Outgoing, title: Option<string>, url: Option<string>, urlTitle: Option<string>,
                response: Response)
      returns (payload: Fields, r: Result<bool>)
      requires message.Object? ==> message.msg.Valid()
      modifies if message.Object? then {message.msg} else {}
      ensures r == Outcome(response)
      ensures old(Valid()) ==> Valid()
      ensures message.Object? ==> payload == Payload(old(message.msg.vars), token, userToken, userDevice)
      ensures message.Object? ==> message.msg.vars == payload
      ensures message.Text? ==> payload == TextPayload(message.text, title, url, urlTitle, token, userToken, userDevice)
    {
      match message
      case Object(m) =>
        payload, r := Dispatch(m, response);
      case Text(text) =>
        var temp := TextMessage(text, title, url, urlTitle);
        if userToken != "" {
          DefaultRecipientEquivalence(temp.vars, token, userToken, userDevice);
          temp.User(Some(Str(userToken)), AsValue(userDevice));
        }
        payload, r := Dispatch(temp, response);
    }

    /** `sendall`: dispatches the registered messages in order, one reply per
        dispatch, and stops at the first failure; the messages after it are
        neither dispatched nor changed. */
    method SendAll(responses: seq<Response>) returns (sent: seq<Fields>, r: Result<seq<bool>>)
      requires Valid()
      requires |responses| == |messages|
      modifies set k | 0 <= k < |messages| :: messages[k]
      ensures Valid()
      ensures r == SendAllOutcome(responses)
      ensures |sent| == Dispatched(responses)
      ensures forall k | 0 <= k < |sent| :: sent[k] == messages[k].vars
      ensures forall k | 0 <= k < |messages| ::
                messages[k].vars == if k < |sent| then Payload(old(messages[k].vars), token, userToken, userDevice)
                                                  else old(messages[k].vars)
    {
      var results: seq<bool> := [];
      sent := [];
      var i := 0;
      while i < |messages|
        invariant Valid()
        invariant i <= |messages| && i <= FirstFailure(responses)
        invariant results == seq(i, _ => true)
        invariant |sent| == i
        invariant forall k | 0 <= k < i :: sent[k] == messages[k].vars
        invariant forall k | 0 <= k < |messages| ::
                    messages[k].vars == if k < i then Payload(old(messages[k].vars), token, userToken, userDevice)
                                                 else old(messages[k].vars)
      {
        var payload, outcome := Dispatch(messages[i], responses[i]);
        sent := sent + [payload];
        if outcome.Err? {
          return sent, Err(outcome.error);
        }
        results := results + [true];
        i := i + 1;
      }
      r := Ok(results);
    }
  }

  /** A caller's view: three registered messages, the second reply fails.
      The first two are dispatched, the error is the second reply's text and
      the third message is left as it was. */
  method SendAllScenario(env: Env)
    requires AppTokenVar in env && UserTokenVar in env
  {
    var created := Client.Create(None, None, None, env);
    var c := created.value;
    var a := c.Msg("A");
    var b := c.Msg("B");
    var d := c.Msg("C");
    b.Set("priority", Some(Int(1)));
    assert c.messages == [a, b, d];
    var sent, r := c.SendAll([Response(1, "ok"), Response(0, "invalid"), Response(1, "ok")]);
    assert FirstFailure([Response(1, "ok"), Response(0, "invalid"), Response(1, "ok")]) == 1;
    assert r == Err(PushoverError("invalid"));
    assert |sent| == 2 && sent[1]["priority"] == Int(1);
    assert d.vars == map["message" := Str("C")];
    assert c.messages[0] == a;
    assert a.vars["user"] == Str(env[UserTokenVar]);
  }
}
