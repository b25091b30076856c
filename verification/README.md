# Grafana-to-Matrix alert relay, modelled in Dafny

The relay is a small HTTP service. Grafana posts an alert to its `/webhook`
endpoint. The service turns the alert into a plain-text message and posts
that message to one Matrix room before it replies. This project models the
service's logic as pure functions over immutable values and proves what
each step produces:

- `json.dfy` (module `Json`): the decoded request body as Python sees it.
  It covers truthiness, `dict.get` (for a key written twice, the last
  member wins), `key in dict`, the iteration order of a dict's keys, and the
  type names Python quotes in its error messages.
- `formatter.dfy` (module `Formatter`): the alert formatter. A well-formed
  alert becomes a four-line header. When `evalMatches` is present, a results
  title follows, then one line per match. Every other input becomes an error
  text. That text names the Python exception (`AttributeError` or
  `TypeError`) and the raw data. The formatter never fails.
- `session.dfy` (module `Session`): the process-wide Matrix client. It is
  created on first use. The client is stored *before* the login is
  attempted, so a failed login leaves a client in place that is not logged
  in. Every later send skips the login and goes straight to the room send.
  The service never logs in again until it restarts.
- `webhook.dfy` (module `Webhook`): the reply to one request, and to a
  series of requests that share the client.
  - 400 `No data received` for a falsy body.
  - 500 `Matrix error: …` when the login or the send raises.
  - 500 `Webhook error: …` when decoding the body raises.
  - 200 `success` otherwise.
- `startup.dfy` (module `Startup`): the start-up check on the four
  connection settings. The process exits with status 1 exactly when one of
  them is absent or empty, and lists the missing names in their fixed order.
- `wrappers.dfy` (module `Wrappers`): `Option` and `Result`.

Sending is synchronous: each request waits for its own login and send
before it replies. A message whose send raises is reported to the caller
as a 500 reply and is not retried. The model handles requests one at a
time; see "## Left out" for what that leaves unstated about concurrent
requests.

Python's `str()` of anything other than a string (numbers, `None`, lists,
dicts) is the parameter `show: Json -> string`. A string renders as itself.
The Matrix homeserver's behaviour is an input, `Backend`. It says whether
the login returns an access token, returns a reply without one, or raises,
and whether the room send returns or raises.

## Model

| member | source | states |
|---|---|---|
| `Json.Lookup` | src/main.py:43-45 | `dict.get` finds a value exactly when the key is present, and the value found is the last member written with that key |
| `Json.Keys` | src/main.py:55 | iterating a dict visits each key once, in the order the keys were first written; a dict is iterated zero times exactly when it is empty |
| `Formatter.AppendMatchesAllDicts` | src/main.py:55-58 | over a list of dicts the loop appends one line per match, in list order, with metric and value defaulting to "N/A", and nothing else |
| `Formatter.AppendMatchesFirstNonDict` | src/main.py:55-57 | the loop raises AttributeError at the first match that is not a dict, naming that match's type |
| `Formatter.IterateSucceedsIff` | src/main.py:53-58 | the loop over `evalMatches` completes exactly when that value is an iterable of dicts (a list of dicts, or an empty string or dict) |
| `Formatter.TryFormatMeaning` | src/main.py:42-60 | the try block succeeds exactly on well-formed alerts and returns the expected text, and otherwise raises the expected exception |
| `Formatter.FormatAlertText` | src/main.py:40-62 | the formatter never fails: the expected text for a well-formed alert, otherwise "Error formatting alert: " + the exception + "\nRaw data: " + the alert |
| `Formatter.FormatAlertWithoutMatches` | src/main.py:43-53 | without `evalMatches` the text is exactly the header, with status and rule id defaulting to "unknown" and message to "No message provided" |
| `Formatter.FormatAlertWithMatches` | src/main.py:53-60 | with `evalMatches` a list of dicts, the text is header + "\n\nEvaluation Results:" + one line per match, as many lines as matches |
| `Formatter.FormatAlertBannerIff` | src/main.py:47-62 | the text starts with the alert banner exactly when the alert is well formed, and with the error prefix exactly when it is not |
| `Session.SendMessage` | src/main.py:18-37 | with no client, the calls are the login followed by the room event only if the login returned a token; with a client, the room event alone; the client is stored whatever the login's outcome; the error is "Failed to login to Matrix: " + the reply for a reply without a token, and otherwise the login's or the send's own exception |
| `Webhook.Handle` | src/main.py:66-82 | 400 exactly for a decoded falsy body, with no formatting, no send and the client unchanged; for an accepted body, the client and calls are those of sending its formatted text; 200 exactly when that send completes; 500 "Matrix error: " + the send's error text when it raises; 500 "Webhook error: " + the reason when decoding raises |
| `Webhook.ServeWithClient` | src/main.py:30-33 | for requests handled one at a time: once a client exists, no request logs in, the client never changes, a room send is attempted for each accepted alert in arrival order whether or not it raises, and an accepted alert is answered 200 exactly when its room send returns |
| `Webhook.ServeLogsInAtMostOnce` | src/main.py:15-32 | for requests handled one at a time: from start-up, a series of requests logs in exactly once if any request is accepted and never otherwise |
| `Webhook.FailedLoginIsNeverRetried` | src/main.py:18-32 | for requests handled one at a time: a failed first login answers 500 and leaves a client that is not logged in; no later request logs in, and a room send is attempted for every later accepted alert, with no further login |
| `Startup.MissingVars` | src/main.py:93 | the missing list holds exactly the names that are absent or empty, as a subsequence of the required names |
| `Startup.MissingVarsUnique` | src/main.py:87-93 | for names without repetitions, the missing list is the only ordered selection holding exactly the unset names |
| `Startup.Start` | src/main.py:87-102 | the process exits with status 1 and lists the missing names, joined by ", ", exactly when some required name is unset; otherwise it listens on 0.0.0.0:5000 |

## Left out

- Concurrent requests. The development server started by `app.run`
  handles requests on separate threads. The "is there a client" test and
  the assignment of the new client are separate steps, and nothing locks
  them. Two alerts that arrive together can therefore both log in. Or one
  can reach the room send while the other's login is still in progress.
  The model handles requests one after another. Its statements about how
  often the service logs in hold only for that order of events.
- Webhook.ServeLogsInAtMostOnce: holds only for requests handled one at a
  time, for the concurrency reason above. The same limit applies to
  `Webhook.ServeWithClient` and `Webhook.FailedLoginIsNeverRetried`.
- The Flask application, its routing and `request.get_json`. A request is
  already decoded JSON, or the reason decoding raised.
- The `nio` client's network calls and `asyncio.run`. Login and send
  outcomes are inputs. A room-send reply that reports an error returns
  rather than raises, so the model counts it as success, as the code does.
  What `nio` does when sending on a client that is not logged in is also an
  input.
- Running each request in a fresh event loop while reusing one client
  across loops. It affects transport behaviour only and is not modelled.
- Reading the environment at import time, `print` and `exit`. The check is
  a pure function of a given environment map, and its outcome is a value.
- Python's `str()` of non-string values, including floats such as `95.5`.
  It is the parameter `show`. Floats are exact decimals. A float literal
  that underflows to `0.0` is therefore treated as truthy.
- Python strings iterate by code point, and Dafny strings by Unicode scalar
  value. The two differ only for lone surrogates, which are not modelled.
- The manual test script `test.py`. It posts fixture alerts over HTTP and
  prints the replies.
