# Pushover client: a verified model

This project models the Python client for the Pushover notification service in
`src/pushover/__init__.py`. The model keeps everything the client does around the
one HTTPS POST and leaves the POST itself out:

- **`PushoverMessage`** becomes the class `Message`. Its field table is a `map` field
  that `Set` and `User` update in place. A present value adds or overwrites one key,
  and an absent value (`None`) changes nothing. So `message` is never removed.
- **`Pushover`** becomes the class `Client`. It holds the application token, the
  default user token, the optional default device and the registry of messages made
  by `Msg`. Construction is the static method `Create`. It resolves each credential
  from the explicit argument first, then from the environment, and otherwise fails.
  The environment is an explicit `map<string, string>` argument.
- **Dispatch** (`_send`) writes `token` into the message's own table. When the
  table names no `user`, it also writes the default user and, when one is set, the
  default device. It then hands the table out as the payload. The table `get()`
  returns is the message's own dict, so after a dispatch the message equals the
  payload. `Dispatch` models this by writing `m.vars`.
- **The reply** is an input: a `Response` holding the parsed `status` and the raw
  body. A dispatch succeeds iff `status == 1`. Otherwise it fails with
  `PushoverError(body)`. `SendAll` takes one reply per registered message. It
  dispatches in order and stops at the first failure.

Two behaviours of the code are modelled as written:

- The guard at line 179 tests `self.user`. That is a bound method, so it is never
  `None`. The `PUSHOVER_USER` fallback at line 184 therefore never runs, and the
  model has no such branch. A message without a `user` always receives the client's
  `user_token`.
- Sending a message changes it (see Dispatch above). `PayloadIdempotent` shows that
  sending it again posts the same payload.

Further facts about the code that the model keeps:

- The library raises one exception type, `PushoverError`. It carries the text of
  line 80 or line 162, or the raw reply.
- `send` copies the default recipient into a text message only when `user_token` is
  truthy (non-empty). `DefaultRecipientEquivalence` proves that this makes no
  difference to the payload.

Field values are the datatype `Value` (a string or an integer). The message text and
the credentials are strings. Optional arguments are `Option`s. Python truthiness of
an optional string (present and non-empty) is `Truthy`.

## Model

| member | source | states |
|---|---|---|
| `Pushover.SetField` | src/pushover/__init__.py:20-25 | an absent value leaves the table unchanged; a present value sets exactly that key, every other key keeps its value, and the key set only grows |
| `Pushover.AssignUser` | src/pushover/__init__.py:33-38 | `user` is set when the token is present; `device` is set only when the device is present, otherwise an existing `device` (or its absence) is kept; all other keys unchanged |
| `Pushover.Message.constructor` | src/pushover/__init__.py:13-18 | a new message's table is exactly `{message: text}` |
| `Pushover.Message.Set` | src/pushover/__init__.py:20-25 | the new table is `SetField` of the old one, and the `message` field survives |
| `Pushover.Message.Get` | src/pushover/__init__.py:27-31 | returns the message's own table |
| `Pushover.Message.User` | src/pushover/__init__.py:33-38 | the new table is `AssignUser` of the old one, and the `message` field survives |
| `Pushover.ResolveCredential` | src/pushover/__init__.py:159-165 | fails iff the argument is absent and the variable is not in the environment; otherwise yields the argument if given, else the environment value |
| `Pushover.ResolveClient` | src/pushover/__init__.py:63-88 | construction fails iff the app token or the user token can be resolved from neither argument nor environment; the app-token error wins; otherwise both tokens are the argument if given, else the environment value |
| `Pushover.Client.Init` | src/pushover/__init__.py:82-85 | stores the given credentials with an empty registry |
| `Pushover.Client.Create` | src/pushover/__init__.py:63-88 | fails exactly when `ResolveClient` fails, with its error; otherwise a fresh client holding the resolved tokens, the given device and no messages |
| `Pushover.Client.User` | src/pushover/__init__.py:146-165 | fails iff no user token is given and `PUSHOVER_USER_TOKEN` is unset, leaving the client unchanged; otherwise stores the resolved token and the given device; token and registry are never touched |
| `Pushover.Client.Msg` | src/pushover/__init__.py:90-98 | appends exactly one fresh message with table `{message: text}` at the end of the registry; earlier entries and credentials unchanged |
| `Pushover.Payload` | src/pushover/__init__.py:172-184 | `token` is always the client token; the key set is the message's plus `token`, plus `user` (and `device` when a default device exists) only when `user` was absent; a present `user` keeps `user` and `device` as they were; `message` and every other field are preserved |
| `Pushover.PayloadIdempotent` | src/pushover/__init__.py:172-184 | dispatching an already dispatched message posts the same payload again |
| `Pushover.Client.Dispatch` | src/pushover/__init__.py:167-195 | the payload is `Payload` of the message's old table, the message afterwards equals the payload, and the result is `Outcome` of the reply |
| `Pushover.Outcome` | src/pushover/__init__.py:192-195 | success (with `True`) iff the status is 1; otherwise `PushoverError` carrying the raw reply text |
| `Pushover.TextFields` | src/pushover/__init__.py:124-131 | the transient message holds `message`, `title` iff the title is a non-empty string, `url` iff the URL is, `url_title` iff both URL and URL title are, with the given values |
| `Pushover.TextPayload` | src/pushover/__init__.py:124-134 | the payload for a text has `title`, `url` and `url_title` under exactly those conditions, the text, the client token, the default user, and `device` iff a default device is set |
| `Pushover.DefaultRecipientEquivalence` | src/pushover/__init__.py:132-133 | copying the default recipient into a message without a user posts the same payload as leaving it to the dispatch |
| `Pushover.Client.TextMessage` | src/pushover/__init__.py:125-131 | a fresh valid message whose table is exactly `TextFields(text, title, url, urlTitle)` |
| `Pushover.Client.Send` | src/pushover/__init__.py:100-134 | a message object is dispatched as is, ignoring title, URL and URL title, and is left equal to its payload; a text posts `TextPayload`; the result is `Outcome` of the reply |
| `Pushover.FirstFailure` | src/pushover/__init__.py:141-143 | the index of the first reply whose status is not 1 (or the length): every earlier status is 1 and the one there is not |
| `Pushover.Dispatched` | src/pushover/__init__.py:141-143 | all messages are dispatched iff no reply before the last one fails; otherwise the count is the first failing position plus one |
| `Pushover.DispatchedMeaning` | src/pushover/__init__.py:141-143 | message k is dispatched iff every earlier reply succeeded |
| `Pushover.SendAllOutcome` | src/pushover/__init__.py:136-144 | success iff every status is 1, then one `True` per message; otherwise the error of the first failing reply |
| `Pushover.SendAllStep` | src/pushover/__init__.py:141-143 | the outcome over `[x] + rest` is the failure of `x` if it fails, else `True` followed by the outcome over `rest` |
| `Pushover.Client.SendAll` | src/pushover/__init__.py:136-144 | keeps the client invariant (distinct registered messages, each with its `message` field); returns `SendAllOutcome` of the replies; dispatches the messages in registry order up to and including the first failure; each dispatched message becomes its payload and the rest are unchanged |

## Left out

- The HTTPS connection, the request and the reading of the reply (lines 186-189): network I/O. A dispatch returns its payload and takes the reply as a `Response` argument. The constants for host, path and content type (lines 59-61) belong to this I/O and are not modelled.
- `urlencode` and `json.loads` (lines 186, 190): library calls. The payload stays a `map`. The reply is already parsed into an integer status and its raw text. The model's `status == 1` stands for every status Python counts as equal to 1 at line 192, which includes `1`, `1.0` and `true`. Every other status is a failure. Three cases are not modelled: a reply that is not a JSON object (a `TypeError`), an object without `status` (a `KeyError`), and a body that is not JSON at all.
- Transport errors (refused connection, TLS failure, malformed JSON), which the code lets propagate: not modelled.
- Pushover.Message.Get: returns the table as a value, whereas Python's `get()` (line 31) returns the dict itself. Callers that change a message through that dict (`m.get()['k'] = v`, `m.get().pop('message')`) are not modelled. Neither is the `AssertionError` at line 175, which only such a removal can trigger. Only `_send`'s own writes through the dict are modelled, in `Pushover.Client.Dispatch`, as writes to the message's table. The model therefore keeps `message` present as an invariant, and `Dispatch` requires it.
- `os.getenv` / `os.environ`: replaced by the explicit `Env` map.
- `__str__` (lines 40-41): display formatting only.
- `send` with an argument that is neither a message nor a string returns `None` in Python. `Outgoing` admits only the two cases.
- `Pushover.Client.SendAll`: when a dispatch fails, Python discards the list of `True`s built so far, because the exception propagates. The model returns just the error, together with the payloads already posted.
- `Pushover.Client.SendAll` requires exactly one reply per registered message. The replies stand in for the server, and replies after a failure are never read.
- Direct assignment by callers to the client's attributes (for example setting `user_token` to `None`): not modelled. Every credential is a string after construction.
- The `PUSHOVER_USER` fallback (line 184): unreachable (see above), so it has no counterpart.
- `src/test.py` and `test.py`: example scripts that send real notifications. They contain no logic.
