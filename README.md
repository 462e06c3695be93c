# Tunnel supervisor and LINE agent relay, in Dafny

This project models the two pieces of the LINE bridge that make decisions.

- The **tunnel supervisor** (`TunnelManager`, tunnel_manager.py) starts a Cloudflare quick tunnel. It scans the tunnel binary's stderr for the public `https://<label>.trycloudflare.com` URL and watches the process. When the process exits it reconnects with a bounded number of retries. It keeps counters and fires connect / disconnect / reconnect / error callbacks.
- The **agent relay** (`MoltbotCLIClient` and `LocalProxy`, local_proxy.py) finds the agent's executable and turns a LINE webhook event into one agent call (`<exe> gateway call agent --params <json> ...`). It maps the call's outcome to a result dict, assembles the reply text from `result.payloads`, and answers with 200, 400 or 500. It also counts the messages it received.

Layout, one module per file:

| file | module | contents |
|---|---|---|
| wrappers.dfy | `Wrappers` | `Option`, `Result` |
| text.dfy | `Text` | `str(int)` and its parse; Python's `str.strip` |
| json_value.dfy | `JsonValue` | parsed JSON values; Python truthiness, `dict.get`, `str()` of scalars, exception messages |
| json_encode.dfy | `JsonEncode` | `json.dumps` of the params dict (ASCII escaping, surrogate pairs) and a decoder proved to invert it |
| tunnel_url.dfy | `TunnelUrl` | the URL regex as a leftmost search; the stderr wait loop with its 30 s budget |
| tunnel_spec.dfy | `TunnelSpec` | the supervisor's state and operations as functions; invariant and lemmas |
| tunnel_manager.dfy | `Tunnel` | class `TunnelManager`, whose methods are proved to follow `TunnelSpec` |
| agent_relay.dfy | `AgentRelay` | executable lookup, agent call, reply assembly and webhook routing as functions; lemmas |
| local_proxy.dfy | `Relay` | classes `MoltbotCLIClient` and `LocalProxy`, and the reply loop, proved to follow `AgentRelay` |

How the outside world enters the model:

- The supervisor has no state enum, and neither does the model. Connected, reconnecting and failed are read off `shouldRun`, `process` (`NoProcess`, `Live`, `Exited(code)`), `tunnelUrl` and `retryCount`.
- Time is integer milliseconds.
- Each stderr read is an event. A line carries the time its read took, a read can time out after 1 s, and the stream can end with the rest of stderr and the exit code.
- Each `_start_tunnel` gets an `Attempt`: the binary's path or the exception raised while installing it, an optional spawn failure, and its stderr events.
- Each monitor poll gets a `Poll`: the exit code if the process died, and the attempts its reconnection will see.
- Callbacks are appended to an event log (`Connected`, `Disconnected`, `Reconnected`, `Error`). This records when a callback would fire. An unset callback fires nothing in Python, but the log entry is still there.
- For the relay, the following are inputs: `shutil.which` (a set of names), `exists and os.access(X_OK)` (a set of paths), `Path.home()`, the uuid4 run id, how the subprocess ended, and `json.loads` (an oracle from text to an optional JSON value).
- Python's `str()` of a list or dict is the parameter `showCompound`. A Dafny map does not keep the key order that `repr` shows.
- Where Python's behaviour depends on the version, the model follows Python 3.11. Slicing a dict raises `TypeError: unhashable type: 'slice'` there.

In four places the behaviour one would expect from the module's purpose is not what the code does, and the model follows the code:

- One would expect the public URL to be cleared on disconnect. The code clears `tunnel_url` only in `stop` (tunnel_manager.py:306), so after a failed reconnection the old URL is still reported.
- One would expect at most one live subprocess at a time. `_reconnect` keeps to that, because each attempt first calls `_stop_process`. `start` does not: calling it while a process runs overwrites the handle. The ghost counter `orphaned` records this. `ReconnectLoopConsistent` and `MonitorPreservesInv` prove that reconnection never orphans a process, and `StartPreservesInv` says exactly when `start` does.
- One would expect the message counter to move on every request received. The code increments `_message_count` only after `data.get` and `event.get` have succeeded (local_proxy.py:190-194). A non-dict body or event answers 500 without counting.
- One would expect a failed agent invocation not to fail the webhook. In the code, this mostly holds: `run_agent` failures come back as `{'ok': False, ...}`, which has no `result`, so the webhook answers 200 with `response: null`. The one exception is the console preview `message[:30]` (local_proxy.py:104). When there is no UI and the text cannot be sliced, that line raises before the `try`, and the webhook answers 500.

## Model

| member | source | states |
|---|---|---|
| TunnelUrl.UrlAt | tunnel_manager.py:159 | the pattern `https://[a-z0-9-]+\.trycloudflare\.com` tried at one position: the scheme, the greedy run of label characters (at least one), then the fixed suffix |
| TunnelUrl.Search | tunnel_manager.py:182 | `url_pattern.search(line)`: the match at the leftmost position that has one, or None |
| TunnelUrl.Scan | tunnel_manager.py:160-186 | the wait loop over the stderr read events: a timeout once more than 30 000 ms have elapsed at the top of an iteration, a read timeout costs 1 000 ms and continues, end of stream ends the wait with the stderr text and exit code, and the first line with a match ends it with the URL |
| TunnelUrl.UrlAtIsMatch | tunnel_manager.py:159 | the greedy label run at a position gives a URL iff the pattern matches there, and the URL is exactly the matched text |
| TunnelUrl.SearchIsLeftmostMatch | tunnel_manager.py:159-184 | `url_pattern.search` returns u iff u matches at some position and nothing matches further left |
| TunnelUrl.SearchNoneIffNoMatch | tunnel_manager.py:182-183 | the search finds nothing iff no position of the line matches |
| TunnelUrl.ScanForUrl | tunnel_manager.py:160-186 | the wait loop (clock check, 1 s read, EOF, search) returns what `Scan` specifies for the stderr events |
| TunnelUrl.ScanFirstDecisive | tunnel_manager.py:160-186 | the first line containing a URL, or the end of stream, decides the wait, unless the elapsed time before it exceeds 30 000 ms; earlier lines and read timeouts are skipped |
| TunnelUrl.ScanWithoutDecisiveTimesOut | tunnel_manager.py:163-175 | without a URL line or end of stream the wait always ends in the timeout |
| TunnelUrl.SilenceTimesOut | tunnel_manager.py:164-175 | a silent stream times out |
| TunnelUrl.ScanFoundFromLine | tunnel_manager.py:181-186 | a found URL is a tunnel URL and is the search result of one of the lines read |
| TunnelSpec.StopProcess | tunnel_manager.py:257-265 | `_stop_process`: with a handle, terminate it and drop it; without one, nothing |
| TunnelSpec.ReconnectLoop | tunnel_manager.py:223-255 | the `while _should_run and _retry_count < max_retries` loop: count the attempt, stop the old process, start a new one; a success counts a reconnection, fires `on_reconnect(url, attempt)` and resets the counter; a failure records `last_error`, fires `on_error` and loops; after the loop, `_should_run` is cleared when the retries ran out |
| TunnelSpec.Reconnect | tunnel_manager.py:219-223 | `_reconnect`: reset `_retry_count` to 0, then the loop |
| TunnelSpec.PollStep | tunnel_manager.py:193-202 | one pass of the monitor: if the process has exited, count the disconnection, fire `on_disconnect("Process exited (code: N)")` and reconnect; otherwise nothing |
| TunnelSpec.Monitor | tunnel_manager.py:188-205 | `while _should_run`: one poll after another until `_should_run` is cleared or the polls run out |
| TunnelSpec.Start | tunnel_manager.py:267-289 | `start`: set the port and `_should_run`, start the tunnel; on success fire `on_connect(url)` and create the monitor task |
| TunnelSpec.Stop | tunnel_manager.py:291-306 | `stop`: clear `_should_run`, cancel and drop the monitor task, stop the process, clear the URL |
| TunnelSpec.TunnelArgv | tunnel_manager.py:145-150 | the command has five arguments, headed by the binary path |
| TunnelSpec.TunnelArgvNamesPort | tunnel_manager.py:145-150 | the `--url` argument is `http://127.0.0.1:` followed by a decimal that parses back to the local port |
| TunnelSpec.DownloadUrl | tunnel_manager.py:24-30 | a download exists exactly for the five supported (system, machine) pairs |
| TunnelSpec.StartTunnel | tunnel_manager.py:141-186 | what `_start_tunnel` returns or raises is `AttemptResult`, a function of the outside world alone |
| TunnelSpec.StartTunnelOutcomes | tunnel_manager.py:141-186 | `_start_tunnel` returns iff the binary is obtained, the spawn works and a URL line arrives in time; a failed install leaves the state alone and a failed spawn leaves the old handle; end of stderr raises `Tunnel startup failed: ` + the stderr text with the process exited with its code; the timeout raises `Timeout waiting for tunnel URL` after `terminate()` was sent to the still-live process |
| TunnelSpec.StartTunnelFacts | tunnel_manager.py:141-186 | on success the URL and `connected_at` are recorded and the process is live; on failure neither URL nor `connected_at` changes; counters, callbacks and `_should_run` are untouched; a process is orphaned exactly when a live one is overwritten |
| TunnelSpec.TryOnceFacts | tunnel_manager.py:224-235 | one reconnection attempt counts itself in `_retry_count`, leaves the counters and callbacks alone, and on success holds a live process and a tunnel URL |
| TunnelSpec.ReconnectLoopConsistent | tunnel_manager.py:219-255 | the retry loop keeps counters equal to the callbacks fired, ends with `_retry_count` 0 or `max_retries`, adds at most one reconnection, never counts a disconnection and orphans no process |
| TunnelSpec.ReconnectSucceeds | tunnel_manager.py:221-244 | if attempt k is the first success: k errors then one `on_reconnect(url, k+1)`, `reconnect_count` + 1, `_retry_count` back to 0, URL recorded, `_should_run` kept |
| TunnelSpec.ReconnectLoopSucceeds | tunnel_manager.py:223-244 | the same, for the loop entered after some failed attempts |
| TunnelSpec.ReconnectExhausted | tunnel_manager.py:223-255 | if every attempt fails: exactly `max_retries` attempts (none when it is negative), `last_error` is the last failure, no reconnection counted, `_should_run` cleared |
| TunnelSpec.ReconnectExhaustedLog | tunnel_manager.py:246-251 | in that case `_reconnect` fires exactly one `on_error` per attempt, in order, and nothing else |
| TunnelSpec.ReconnectLoopExhausted | tunnel_manager.py:223-255 | the loop entered after some failed attempts, when every remaining attempt fails: `_retry_count` ends at `max_retries`, `last_error` is the last failure, no reconnection counted, `_should_run` cleared |
| TunnelSpec.ReconnectLoopFailureLog | tunnel_manager.py:246-251 | in that case the loop fires `on_error` once per remaining attempt, in order, and nothing else |
| TunnelSpec.FailureRunOnePerAttempt | tunnel_manager.py:246-251 | the error callbacks of a run of failed attempts are one per attempt, each carrying that attempt's message |
| TunnelSpec.FailedStep | tunnel_manager.py:223-251 | a failed attempt counts itself, records `last_error`, fires one `on_error` and goes round the loop again with the counters untouched |
| TunnelSpec.SucceededStep | tunnel_manager.py:223-244 | a successful attempt ends the loop: `reconnect_count` + 1, one `on_reconnect(url, attempt)`, `_retry_count` back to 0, a live process |
| TunnelSpec.ReconnectLoopPrefix | tunnel_manager.py:219-255 | the retry loop only appends callbacks and never counts a disconnection |
| TunnelSpec.PollKeepsConfig | tunnel_manager.py:188-202 | a poll leaves `max_retries` alone |
| TunnelSpec.DisconnectConsistent | tunnel_manager.py:195-199 | counting an exit and firing `on_disconnect` keeps the counters equal to the callbacks fired |
| TunnelSpec.PollReportsExit | tunnel_manager.py:193-202 | a poll that finds the process exited adds exactly 1 to `disconnected_count` and fires `on_disconnect("Process exited (code: N)")` before anything else |
| TunnelSpec.PollWhileAlive | tunnel_manager.py:193 | a poll that finds no exited process changes nothing |
| TunnelSpec.PollPreservesInv | tunnel_manager.py:193-202 | a poll keeps the invariant and orphans no process |
| TunnelSpec.MonitorPreservesInv | tunnel_manager.py:188-217 | the monitor loop keeps the invariant over any polls |
| TunnelSpec.MonitorEndsAfterExhaustion | tunnel_manager.py:190 | once a poll's reconnection exhausts the retries the loop stops: later polls are never consumed |
| TunnelSpec.InitialInv | tunnel_manager.py:56-82 | the initial state satisfies the invariant |
| TunnelSpec.StartOutcome | tunnel_manager.py:277-289 | `start` sets `_should_run`; only when `_start_tunnel` returns does it fire `on_connect` once with that URL and create the monitor task; when it raises, neither happens and no URL is recorded |
| TunnelSpec.StartPreservesInv | tunnel_manager.py:267-289 | `start` keeps the invariant and orphans the previous process exactly when it was live and a new one was spawned |
| TunnelSpec.StopPreservesInv | tunnel_manager.py:291-306 | `stop` keeps the invariant |
| TunnelSpec.StatsReportCallbacks | tunnel_manager.py:312-319 | under the invariant `get_stats` reports counters equal to the callbacks fired, no more reconnections than disconnections, `retry_count` 0 unless the retries ran out, `is_running` iff the handle is live, and a URL only together with `connected_at` |
| TunnelSpec.StopClears | tunnel_manager.py:257-310 | after `stop`: `_should_run` false, no monitor task, no process, no URL, `is_running` false, counters untouched; a second `stop` changes nothing |
| Tunnel.TunnelManager.constructor | tunnel_manager.py:36-82 | the fields start as the initial state, which satisfies the invariant |
| Tunnel.TunnelManager.StartTunnel | tunnel_manager.py:141-186 | the fields and the result move exactly as `TunnelSpec.StartTunnel` |
| Tunnel.TunnelManager.StopProcess | tunnel_manager.py:257-265 | drops the handle; no change without one |
| Tunnel.TunnelManager.RetryOnce | tunnel_manager.py:224-251 | one loop body: count, stop, start, then record the success or the error |
| Tunnel.TunnelManager.Reconnect | tunnel_manager.py:219-255 | the fields move exactly as `TunnelSpec.Reconnect` |
| Tunnel.TunnelManager.PollOnce | tunnel_manager.py:193-202 | the fields move exactly as `TunnelSpec.PollStep` |
| Tunnel.TunnelManager.Monitor | tunnel_manager.py:188-217 | the fields move exactly as `TunnelSpec.Monitor` and the invariant holds |
| Tunnel.TunnelManager.Start | tunnel_manager.py:267-289 | the fields and the result move exactly as `TunnelSpec.Start` and the invariant holds |
| Tunnel.TunnelManager.Stop | tunnel_manager.py:291-306 | the fields move exactly as `TunnelSpec.Stop` and the invariant holds |
| Tunnel.TunnelManager.IsRunning | tunnel_manager.py:308-310 | true iff the handle is live, i.e. no return code yet |
| Tunnel.TunnelManager.GetStats | tunnel_manager.py:312-319 | the stats plus `is_running`, `tunnel_url` and `retry_count` |
| AgentRelay.Detect | local_proxy.py:31-66 | `_detect_executable`: a cached executable is returned as it is; otherwise the first candidate found is returned and cached, and a miss caches nothing |
| AgentRelay.RunAgent | local_proxy.py:68-133 | `run_agent`: session `line:` + user id, message prefixed with `[LINE User: <displayName>] ` (default `User`), the params JSON; no executable gives the not-found dict; the console preview may raise; otherwise the argv is spawned and its outcome mapped |
| AgentRelay.MapOutcome | local_proxy.py:106-133 | a spawn that raised gives `{ok: False, error: str(e)}`; a non-zero exit gives the stripped stderr as the error; otherwise the stripped stdout parsed as JSON, or `Invalid CLI output` |
| AgentRelay.PayloadItems | local_proxy.py:220-225 | `response.get('result', {}).get('payloads', [])` and the items iterating it yields, or the exception a non-dict or non-iterable raises |
| AgentRelay.Fragment | local_proxy.py:226-227 | one payload: `AttributeError` when it is not a dict, nothing for a falsy text, the text for a truthy string, and the `TypeError` of `+ "\n"` for any other truthy text |
| AgentRelay.Fold | local_proxy.py:223-227 | the `for p in payloads` loop: each payload's text and a newline appended in order, stopping at the first exception |
| AgentRelay.Initials | local_proxy.py:196 | `user_id[:8] if user_id else "Unknown"`: the first eight characters of a string, the first eight items of a list, the `TypeError` of slicing any other truthy value |
| AgentRelay.Respond | local_proxy.py:220-245 | 200 with the stripped reply and the raw result when the reply is non-empty, 200 with `response: null` when it is empty, 500 with the message when reading the payloads raised |
| AgentRelay.HandleWebhook | local_proxy.py:185-258 | `handle_line_webhook`: 400 for a body that is not JSON; 500 for a body or event that is not a dict, before counting; then count, default the display name to the initials, answer non-text messages with the unsupported reason, and run the agent on a text message |
| AgentRelay.FixedPaths | local_proxy.py:45-59 | there are nine fallback locations |
| AgentRelay.FirstIn | local_proxy.py:37-42 | the first present candidate: it is present and every earlier one is absent; none present gives None |
| AgentRelay.LocateOrder | local_proxy.py:36-66 | a name on PATH wins, the earliest first; otherwise the first fixed location that exists and is executable; None iff neither list has a hit |
| AgentRelay.DetectMemoisesHits | local_proxy.py:33-34 | a found executable is cached and returned later whatever the host; after a miss nothing is cached and the next call searches again |
| AgentRelay.DetectFindsCandidate | local_proxy.py:31-66 | the result is one of the twelve candidates and equals what is cached, unless nothing was found |
| AgentRelay.SessionKeyInjective | local_proxy.py:72 | distinct user ids get distinct `line:` session keys |
| AgentRelay.AgentArgv | local_proxy.py:93-99 | ten arguments, headed by the executable, with the params JSON in position 5 |
| AgentRelay.RunAgentCall | local_proxy.py:72-99 | a launched call is `[exe, gateway, call, agent, --params, json, --expect-final, --timeout, 120000, --json]` with the detected exe, and its JSON decodes to the contextualised message, `line:` + user id and the run id |
| AgentRelay.RunAgentNotFound | local_proxy.py:88-90 | with no executable, nothing is spawned and `{ok: False, error: 'Moltbot/OpenClaw executable not found via CLI'}` comes back |
| AgentRelay.RunAgentOutcomes | local_proxy.py:104-133 | a launched call returns the parsed output or the error dict of the spawn exception, of a non-zero exit (stripped stderr) or of bad output ('Invalid CLI output'); only the console preview of an unsliceable message raises |
| AgentRelay.ErrorShapeIsClosed | local_proxy.py:119 | the failure dict has exactly the keys `ok` (False) and `error` (the message) |
| JsonEncode.ParamsRoundTrip | local_proxy.py:79-85 | the `--params` text decodes back to the message, session id and idempotency key |
| JsonEncode.EscapeCharRoundTrip | local_proxy.py:85 | each character as `json.dumps` escapes it (itself, a short escape, `\uXXXX`, or a surrogate pair above U+FFFF) decodes back to that character |
| Text.IntRoundTrip | tunnel_manager.py:148 | the decimal text `str()` gives an integer parses back to it, so the rendered port loses nothing |
| JsonEncode.EscapeStringRoundTrip | local_proxy.py:85 | a string escaped by `json.dumps` decodes back to itself, followed by the rest of the text |
| Text.Strip | local_proxy.py:117 | the result is the input without its leading and trailing whitespace, and starts and ends with non-whitespace |
| AgentRelay.FoldJoins | local_proxy.py:223-227 | without a fault, the loop builds each payload's non-empty text, in order, each followed by a newline |
| AgentRelay.FoldFault | local_proxy.py:225-227 | the first payload that raises (not a dict, or a non-str truthy text) decides the exception |
| AgentRelay.ReplyEmptyIffNoText | local_proxy.py:223-229 | the reply is empty iff no payload has a truthy text; the emptiness test runs before stripping |
| AgentRelay.ErrorShapeHasNoReply | local_proxy.py:220-221 | a failure dict has no `result`, hence an empty reply |
| AgentRelay.ReplyExample | local_proxy.py:220-227 | `[{text: a}, {}, {text: b}]` gives `a\nb\n`: a payload without text adds nothing |
| AgentRelay.ReplyStripExample | local_proxy.py:238 | the reply text `a\nb\n` is sent stripped, as `a\nb` |
| AgentRelay.RespondStatus | local_proxy.py:220-245 | the agent's result dict is answered with 200, and with 500 exactly when reading its payloads raises |
| AgentRelay.WebhookInvalidJson | local_proxy.py:187-255 | 400 `{error: 'Invalid JSON'}` comes back exactly for a body that is not JSON |
| AgentRelay.WebhookStatus | local_proxy.py:185-258 | every response is 200, 400 or 500 |
| AgentRelay.WebhookCounted | local_proxy.py:188-194 | the message counter moves exactly when the body and its `event` are dicts |
| AgentRelay.WebhookTextOnly | local_proxy.py:205-252 | the agent runs only for a `text` message; a dict message of another type answers 200 with the reason and runs nothing |
| AgentRelay.WebhookAgentCall | local_proxy.py:189-217 | a request that reaches the agent passes it the message text (default `""`), the user id, and metadata with the event, the reply token and the display name (default: the user id's initials) |
| AgentRelay.NamedAgentCall | local_proxy.py:76-85 | with a string display name the agent's message starts with `[LINE User: <name>] ` and its session is `line:` + the user id |
| AgentRelay.WebhookDisplayNameDefault | local_proxy.py:192-217 | without `displayName` the agent's message starts with `[LINE User: ` + first 8 characters of the user id (or `Unknown`) + `] `, and the session is `line:` + the user id (`line:None` without one) |
| AgentRelay.WebhookFailedAgent | local_proxy.py:220-245 | a failure dict from the agent ends in 200 `{success: true, response: null}` |
| AgentRelay.WhitespaceReply | local_proxy.py:229-241 | a whitespace-only text still gives `response: {text: "", raw}`, not null |
| Relay.MoltbotCLIClient.constructor | local_proxy.py:27-29 | no cached executable and nothing launched |
| Relay.MoltbotCLIClient.DetectExecutable | local_proxy.py:31-66 | both search loops return and cache exactly what `AgentRelay.Detect` specifies |
| Relay.MoltbotCLIClient.RunAgent | local_proxy.py:68-133 | result, cache and launched commands are exactly those of `AgentRelay.RunAgent` |
| Relay.AssembleReply | local_proxy.py:220-227 | the payload loop returns `ReplyText` of the agent's result: the reply or the exception |
| Relay.LocalProxy.constructor | local_proxy.py:141-149 | the counter starts at 0 with a fresh client |
| Relay.LocalProxy.HandleLineWebhook | local_proxy.py:185-258 | response as `AgentRelay.HandleWebhook`; the counter rises by 1 exactly for a counted request; the client's cache and launches move as the agent run says |
| Relay.LocalProxy.HealthCheck | local_proxy.py:166-172 | reports status `ok` and the current message count |

## Left out

- The download, tar extraction and chmod of `_ensure_cloudflared` are left out because they are network and file system work. Only the platform table (`TunnelSpec.DownloadUrl`) and the binary name (`TunnelSpec.BinaryName`) are modelled. A path or an exception comes in through `Attempt.install`.
- The sleeps (`retry_delay`, the 5 s poll interval) and `uptime_seconds` are left out. They use `datetime` and floating point and decide nothing.
- `asyncio` task cancellation is left out. `stop` is modelled between operations, not in the middle of a reconnection.
- `Tunnel.TunnelManager.StopProcess` and `TunnelSpec.StopProcess` assume that `terminate()`, `wait()` and `kill()` do not raise, so they always drop the handle. If `terminate()` raised (asyncio raises `ProcessLookupError` once it has released an exited child), `self.process = None` (tunnel_manager.py:265) would not run. In `_reconnect` that exception would fail the attempt before the sleep and before `_start_tunnel`; in `stop` it would propagate before `tunnel_url` is cleared. This raise path is not modelled. `TryOnceFacts`, `SucceededStep`, `ReconnectLoopSucceeds`, `ReconnectSucceeds`, `StopClears` and `StopPreservesInv` hold only under the assumption.
- The monitor's generic `except Exception` branch is left out. It catches only exceptions raised by callbacks, and callbacks are assumed not to raise.
- `Tunnel.TunnelManager.Monitor` covers a finite sequence of polls. The Python loop runs until `_should_run` is cleared or the task is cancelled.
- `TunnelUrl.Scan` does not require a line's read time to be at most 1 s, although a longer read would have timed out.
- The stderr text is taken as already decoded. A decoding failure is not modelled.
- JSON floats and lone surrogate code points are not modelled. Dafny's `char` excludes surrogates.
- `json.loads` is an oracle.
- The subprocess's output is taken as decoded text. A decoding failure falls into the "creating it raised" outcome.
- `str()` of a list or dict is the parameter `showCompound`.
- Python 3.12 and later raise `KeyError` when a dict is sliced. The model uses the 3.11 message.
- Printing and the UI's log calls are left out. They are assumed not to raise, and they return nothing the code uses.
- The `index` and `status` endpoints, the server's `start`/`stop`, and `main` are left out as routing and I/O.
- moltbot_line.py (SaaS HTTP calls, configuration files, command line), ui.py and qr_generator.py are not part of this model.
