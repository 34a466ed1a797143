# File watcher and MCP dispatcher, modelled in Dafny

This project models three parts of an MCP (Model Context Protocol) server written in
Python:

- **The file watcher** (`app/tools/file_watcher.py`). A *watcher* watches one directory
  tree. Each raw filesystem notification goes through the watcher's filter:
  - directories may be excluded;
  - a set of specific files, when given, is an allow-list;
  - exclude patterns are checked next;
  - include patterns are checked only when there is no allow-list.

  An event that passes becomes a `FileWatcherEvent` with resolved paths. The manager
  keeps three tables keyed by watcher id: watcher info, observer threads and
  callbacks. Each observer holds the event handler, whose filter settings are read
  once, when the watcher is created. The manager creates, starts, stops and removes watchers, counts their events and
  runs their callbacks.
- **The notification hub** (`app/tools/file_watcher_sse.py`). Each client owns one or
  more bounded queues (capacity 100) and may listen to a subset of the watchers.
  - A broadcast offers a message to every queue of every listening client.
  - A full queue drops the message.
  - A queue that fails in any other way is unsubscribed after a file-change broadcast.
  - The server-sent-event (SSE) stream subscribes a queue and sends a `connected`
    frame. It then sends one frame per dequeued message and one heartbeat per timeout,
    until an error, and always unsubscribes its queue at the end.
- **The request dispatcher** (`app/core/mcp_core.py`). It builds a tool registry from a
  list of tools and runs a tool, turning any exception into an error dict. It answers
  `initialize` with the tool definitions, runs the tool a request names, and otherwise
  reports "not found". A request with a `jsonrpc` key gets the JSON-RPC 2.0 envelope.
  Under JSON-RPC, tool errors are mapped onto the error object of section 5.1 of the
  JSON-RPC 2.0 specification (-32601 "Method not found", -32000 server error).

Modules:
- `Wrappers`: `Option` and `Result`.
- `Json`: JSON values, plus the Python semantics the dispatcher relies on: truthiness,
  `dict.get`, `or`, `in`, hashing of dict keys and `str()`.
- `Glob`: `fnmatch` with `*`, `?` and literal characters.
- `Paths`: `Path.name`, `os.path.basename` and `os.path.dirname`.
- `Seqs`: sequences without repeats.
- `FileWatcher`: events, filters and the `Manager` class.
- `EventStream`: the SSE text framing and a client's parse of it.
- `FileWatcherSse`: the `MessageQueue` and `Notifier` classes and the stream.
- `McpCore`: the dispatcher.

Modelling choices:
- The filesystem and the clock are parameters. `Path.resolve` is a function
  `Resolver`, `Path.exists` a predicate, and every `datetime.now()` a caller-supplied
  `Instant`.
- An observer thread is represented by its state: not started, alive or finished.
  Whether `join(timeout=5.0)` saw the thread end is a boolean parameter. A stopped
  thread that outlived the join ends later through the step `Manager.ObserverExited`.
- Each tool's callable is a `HandlerId`. A `Runner` says what each callable returns or
  raises.
- Which callbacks raise and which queues fail are parameters too.

Behaviours of the code worth knowing:
- Specific files do **not** bypass exclude patterns (`app/tools/file_watcher.py:75-82`).
  An excluded path is rejected even when it is on the allow-list; see
  `FileWatcher.ExcludeBeatsSpecificFiles`.
- `create_watcher` checks that the path exists before it checks for a duplicate id
  (`app/tools/file_watcher.py:134-142`).
- `start_watcher` does not check the path.
- `cleanup_all` removes every watcher in turn and collects nothing.
  `remove_watcher` reports unknown ids with `False` and raises nothing else
  (`app/tools/file_watcher.py:276-280`).
- `_handle_file_event` counts an event whatever the watcher's status
  (`app/tools/file_watcher.py:259-261`).
- A stopped watcher cannot be started again. The default watchdog observer is a
  thread, and `Thread.start` raises `RuntimeError` on a finished thread
  (`app/tools/file_watcher.py:180-181`).

## Model

| member | source | states |
|---|---|---|
| `Json.Or` | app/core/mcp_core.py:86 | `a or b` is truthy iff one operand is; it is `a` when `a` is truthy and `b` otherwise |
| `Json.Contains` | app/core/mcp_core.py:104 | Python's `in` with a string key raises TypeError exactly on None, bool and int; it is a key test on a dict, a substring test on a string and a membership test on a list |
| `Json.DictHas` | app/core/mcp_core.py:88 | a dict lookup raises exactly for an unhashable list or dict key, and succeeds only for a string key present in the dict |
| `Glob.Match` | app/tools/file_watcher.py:81-87 | `fnmatch`; without `*`, a matching pattern has exactly the name's length (each character, `?` included, stands for one) |
| `Glob.StarMatchesAll` | app/tools/file_watcher.py:56 | the default pattern `*` matches every file name |
| `Glob.LiteralMatchesItself` | app/tools/file_watcher.py:87 | a pattern without wildcards matches exactly itself |
| `Glob.StarSuffixMatch` | app/tools/file_watcher.py:81 | `*S`, for a literal S, matches exactly the names ending in S |
| `Paths.Basename` | app/tools/file_watcher.py:40 | the result has no slash, ends the path, and is either the whole path or preceded by a slash |
| `Paths.Dirname` | app/tools/file_watcher.py:41 | the result is a prefix of the path; it is empty exactly for a path without a slash; it ends in a slash only when it is all slashes |
| `Paths.RootChild` | app/tools/file_watcher.py:40-41 | for `/n` with a slash-free `n`, the basename is `n` and the dirname is `/` |
| `Paths.BasenameDirnameOfChild` | app/tools/file_watcher.py:40-41 | for `d/n` with a slash-free `n` and `d` not ending in a slash, the basename is `n` and the dirname is `d` |
| `Paths.PathName` | app/tools/file_watcher.py:79 | `Path.name` has no slash and is never `.` |
| `Paths.PathNameOfChild` | app/tools/file_watcher.py:79 | `Path(d/n).name` is `n` for a non-empty slash-free `n` other than `.` |
| `FileWatcher.NewEvent` | app/tools/file_watcher.py:24-30 | both paths are resolved; an empty or missing source path is dropped; kind and directory flag are kept; a missing timestamp is the current time; the event is well formed iff it is a move or has no source path |
| `FileWatcher.ToDict` | app/tools/file_watcher.py:32-42 | the dictionary has exactly the seven keys; `src_path` is null iff there is none; `filename` and `parent_dir` are the path's basename and dirname |
| `FileWatcher.ToDictRoundTrip` | app/tools/file_watcher.py:32-42 | an event can be read back from its dictionary unchanged |
| `FileWatcher.EventObjectRoundTrip` | app/tools/file_watcher.py:34-39 | the five entries other than `filename` and `parent_dir` already determine the event |
| `FileWatcher.SetupFilters` | app/tools/file_watcher.py:54-63 | given include, exclude and directory options are used as they are; absent ones default to `['*']`, `[]` and `True`; the specific files become exactly the set of their resolved paths |
| `FileWatcher.ToolFilters` | app/tools/file_watcher.py:293-299 | a missing or empty include list becomes `['*']` and a non-empty one is kept; missing exclude and specific-file lists become `[]`; `recursive` and `include_directories` are passed through |
| `FileWatcher.AnyMatch` | app/tools/file_watcher.py:86-89 | the include loop returns true iff some pattern matches the name |
| `FileWatcher.AnyExcluded` | app/tools/file_watcher.py:80-82 | the exclude loop rejects iff some pattern matches the name or the absolute path |
| `FileWatcher.ShouldProcess` | app/tools/file_watcher.py:65-91 | an event passes iff the directory rule, the allow-list, every exclude pattern and (with no allow-list) some include pattern admit it |
| `FileWatcher.ExcludeBeatsSpecificFiles` | app/tools/file_watcher.py:75-82 | a matching exclude pattern rejects a path even when it is a specific file |
| `FileWatcher.SpecificFilesOverridePatterns` | app/tools/file_watcher.py:84-91 | with specific files, include patterns are ignored: a listed, non-excluded path passes and an unlisted one never does |
| `FileWatcher.EmptyPatternsMatchNothing` | app/tools/file_watcher.py:85-89 | with no specific files, an empty include list rejects every event |
| `FileWatcher.ToolDefaultsPassEverything` | app/tools/file_watcher.py:293-299 | the tool's default filters pass every event |
| `FileWatcher.SuffixFilters` | app/tools/file_watcher.py:78-89 | with include `*A` and exclude `*B`, an event passes iff its name ends in A and neither its name nor its path ends in B |
| `FileWatcher.TxtPasses` | app/tools/file_watcher.py:78-89 | with include `*.txt` and exclude `*.tmp`, `a.txt` passes exactly when its resolved path does not end in `.tmp` |
| `FileWatcher.TmpRejected` | app/tools/file_watcher.py:78-89 | with include `*.txt` and exclude `*.tmp`, `a.tmp` never passes |
| `FileWatcher.TxtTmpRejected` | app/tools/file_watcher.py:78-89 | with include `*.txt` and exclude `*.tmp`, `a.txt.tmp` never passes, although it contains `.txt` |
| `FileWatcher.HandleRaw` | app/tools/file_watcher.py:98-116 | an event is reported iff its source path passes the filter; a move is reported at its destination, carrying the resolved source path; only moves carry one |
| `FileWatcher.RemoveFirst` | app/tools/file_watcher.py:247-254 | `list.remove` with ValueError ignored: exactly the first occurrence goes, the rest keep their order, an absent callback changes nothing |
| `FileWatcher.Failures` | app/tools/file_watcher.py:266-274 | the callbacks that raise are exactly the raising members of the list |
| `FileWatcher.RunCallbacks` | app/tools/file_watcher.py:266-274 | the loop runs every registered callback once, in order, and collects exactly those that raised |
| `FileWatcher.TablesAdd` | app/tools/file_watcher.py:156-170 | adding a new watcher in state `created` with no callbacks, at the end of the order, keeps the tables consistent |
| `FileWatcher.Manager.constructor` | app/tools/file_watcher.py:121-125 | three empty tables |
| `FileWatcher.Manager.CreateWatcher` | app/tools/file_watcher.py:127-171 | a missing path, then a duplicate id, fail without change; otherwise the id enters all three tables with status `created`, no callbacks and count 0, and its handler gets the filter settings read with this call's resolver |
| `FileWatcher.Manager.StartWatcher` | app/tools/file_watcher.py:173-186 | unknown id fails; a live observer is left alone; a new observer starts and the info becomes `running` with a start time; a finished one raises |
| `FileWatcher.Manager.StopWatcher` | app/tools/file_watcher.py:188-202 | unknown id fails; only a live observer is stopped, and the info becomes `stopped` with a stop time whether or not the join succeeded |
| `FileWatcher.Manager.RemoveWatcher` | app/tools/file_watcher.py:204-222 | false and no change for an unknown id; otherwise stop, then the id leaves all three tables, the handlers and the creation order |
| `FileWatcher.Manager.Forget` | app/tools/file_watcher.py:213-219 | the id leaves the three tables, the handlers and the creation order, and the invariant still holds |
| `FileWatcher.Manager.ObserverExited` | app/tools/file_watcher.py:195-200 | a stopped observer still running after the join ends on its own: only its thread state changes, to finished |
| `FileWatcher.Manager.ListWatchers` | app/tools/file_watcher.py:224-227 | one info per watcher, in creation order |
| `FileWatcher.Manager.GetWatcherStatus` | app/tools/file_watcher.py:229-239 | the info plus `is_alive`, which is true iff the observer runs; a live watcher has been started |
| `FileWatcher.Manager.AddEventCallback` | app/tools/file_watcher.py:241-245 | appended for a known id, ignored otherwise; nothing else changes |
| `FileWatcher.Manager.RemoveEventCallback` | app/tools/file_watcher.py:247-254 | the first registration goes; unknown ids and absent callbacks change nothing |
| `FileWatcher.Manager.HandleFileEvent` | app/tools/file_watcher.py:256-274 | a known watcher counts the event and records its time; every callback runs in order and a raising one stops nothing |
| `FileWatcher.Manager.Deliver` | app/tools/file_watcher.py:93-116 | only a live observer with an open event loop reports; the event passes the filter settings its handler read at creation, with only its own path resolved now; only such events reach `_handle_file_event` |
| `FileWatcher.Manager.CleanupAll` | app/tools/file_watcher.py:276-280 | every watcher is removed; afterwards all tables are empty |
| `EventStream.EncodeEvent` | app/tools/file_watcher_sse.py:117-126 | a frame is `data: `, the payload unchanged, and a blank line |
| `EventStream.ParseEncodeRoundTrip` | app/tools/file_watcher_sse.py:117-126 | a client parsing the `data: ...\n\n` frames recovers every payload in order |
| `FileWatcherSse.FileChangeMessage` | app/tools/file_watcher_sse.py:54-59 | a `file_change` message for the watcher, whose event is the event's `to_dict()` and reads back as the event |
| `FileWatcherSse.StatusMessage` | app/tools/file_watcher_sse.py:82-88 | a `watcher_status` message; missing details become `{}` |
| `FileWatcherSse.Offered` | app/tools/file_watcher_sse.py:68-71 | a full queue is unchanged; any other gets the message at the back |
| `FileWatcherSse.MessageQueue.constructor` | app/tools/file_watcher_sse.py:34 | an empty queue of the given capacity |
| `FileWatcherSse.MessageQueue.PutNowait` | app/tools/file_watcher_sse.py:69-71 | accepted iff the queue was not full; the capacity bound is kept |
| `FileWatcherSse.MessageQueue.GetNowait` | app/tools/file_watcher_sse.py:122 | the oldest message leaves first |
| `FileWatcherSse.OfferAll` | app/tools/file_watcher_sse.py:67-74 | every queue of a client is offered the message; a full queue drops it (`QueueFull` comes first); exactly the failing queues with room are reported |
| `FileWatcherSse.ListeningOwner` | app/tools/file_watcher_sse.py:66 | a queue is a broadcast target iff its owner has no filter, an empty filter, or a filter naming the watcher |
| `FileWatcherSse.Notifier.constructor` | app/tools/file_watcher_sse.py:21-24 | no clients |
| `FileWatcherSse.Notifier.AddClient` | app/tools/file_watcher_sse.py:26-38 | a fresh empty queue of capacity 100 is added; the watcher filter is recorded only for a new client |
| `FileWatcherSse.Notifier.RemoveClient` | app/tools/file_watcher_sse.py:40-50 | exactly that queue goes; a client left without queues loses both entries |
| `FileWatcherSse.FanOut` | app/tools/file_watcher_sse.py:63-74 | exactly the target queues that do not fail get the message (unless full); the dead pairs are exactly the failing targets that were not full |
| `FileWatcherSse.Notifier.Unsubscribe` | app/tools/file_watcher_sse.py:76-78 | removing the dead pairs prunes exactly their queues and drops clients left without one |
| `FileWatcherSse.Notifier.BroadcastEvent` | app/tools/file_watcher_sse.py:52-78 | every listening client's working queues get the `file_change` message (full ones drop it); failing queues that were not full are unsubscribed, and full ones stay; the table invariants are kept |
| `FileWatcherSse.Notifier.Publish` | app/tools/file_watcher_sse.py:61-78 | the fan-out and clean-up of a broadcast, for any message: targets get it unless they fail, and the failing targets that were not full are unsubscribed |
| `FileWatcherSse.PruneKeeps` | app/tools/file_watcher_sse.py:76-78 | a queue that is not removed keeps its client and stays subscribed |
| `FileWatcherSse.Notifier.SendStatusUpdate` | app/tools/file_watcher_sse.py:80-99 | the same fan-out with a `watcher_status` message; failures are ignored and nobody is unsubscribed |
| `FileWatcherSse.Notifier.Serve` | app/tools/file_watcher_sse.py:111-135 | the frames are `connected` followed by the polled frames; both tables end as they began |
| `FileWatcherSse.Emitted` | app/tools/file_watcher_sse.py:119-129 | at most one frame per poll, exactly one when no poll fails; frame i is the message or heartbeat of poll i, which did not fail |
| `FileWatcherSse.StreamBody` | app/tools/file_watcher_sse.py:115-129 | the loop produces `connected` and then one frame per poll up to the first failure |
| `FileWatcherSse.AddThenRemove` | app/tools/file_watcher_sse.py:113-135 | subscribing a fresh queue and then unsubscribing it restores both tables |
| `FileWatcherSse.EmittedUpToFailure` | app/tools/file_watcher_sse.py:127-129 | nothing after the first failing poll is sent |
| `FileWatcherSse.StreamShape` | app/tools/file_watcher_sse.py:117-129 | `connected` comes first, then exactly one frame per successful poll in order (message as is, timeout as heartbeat) |
| `FileWatcherSse.WireTextRoundTrip` | app/tools/file_watcher_sse.py:117-126 | a client parsing the stream's text receives the serialised frames one event each, in order |
| `McpCore.Execute` | app/core/mcp_core.py:15-26 | never raises: the callable's value, or `{"error": "Error in tool <name>: <message>"}` |
| `McpCore.NewRegistry` | app/core/mcp_core.py:30-31 | the tool table has distinct keys in insertion order, each bound to a tool of that name |
| `McpCore.RegistryLastWins` | app/core/mcp_core.py:31 | a name is registered iff some tool has it, and it holds the last tool of that name |
| `McpCore.RegistryKeys` | app/core/mcp_core.py:31 | a name is a key of the tool table exactly when some tool in the list has it |
| `McpCore.RegistryOrder` | app/core/mcp_core.py:31 | the key order is the order in which names first occur in the list |
| `McpCore.ToolDefinition` | app/core/mcp_core.py:53-58 | name and description always; `inputSchema` iff the schema is truthy |
| `McpCore.ToolDefinitions` | app/core/mcp_core.py:51-59 | one definition per registered tool, in key order |
| `McpCore.ListTools` | app/core/mcp_core.py:51-59 | the append loop builds that list |
| `McpCore.InitializeResult` | app/core/mcp_core.py:63-73 | an object with exactly `protocolVersion` (the server's version) and `capabilities`, whose only key is `tools`; `tools` has exactly `dynamicRegistration` (false), `toolProvider` (true) and `toolDefinitions` (the tool definitions) |
| `McpCore.Route` | app/core/mcp_core.py:46-93 | `initialize` iff the method is `initialize`; a raise iff not and the effective name is a truthy list or dict; a tool run iff not and the name is a registered non-empty string, with that tool and the chosen parameters |
| `McpCore.NotFoundResponse` | app/core/mcp_core.py:118-129 | an error and no result: under JSON-RPC exactly `jsonrpc`, `id` and an error object with code -32601; otherwise only a string `error` |
| `McpCore.ToolResponse` | app/core/mcp_core.py:97-113 | the result as is, with no error, unless a JSON-RPC tool error; that becomes exactly `jsonrpc`, `id` and an error object with a code |
| `McpCore.ProcessRequest` | app/core/mcp_core.py:34-129 | the corrected dispatcher raises exactly when the routing does |
| `McpCore.ProcessRequestAsWritten` | app/core/mcp_core.py:34-129 | the dispatcher as written raises whenever the routing does, and agrees with the corrected one on every request that runs no tool |
| `McpCore.InitializeHandledFirst` | app/core/mcp_core.py:49-81 | in the corrected dispatcher, `initialize` is answered before any tool lookup, with the protocol version and the tool definitions |
| `McpCore.ToolNamePrecedence` | app/core/mcp_core.py:46-86 | in the corrected dispatcher, a truthy top-level `tool_name` wins; `params.tool_name` counts only when `params` is a dict |
| `McpCore.ToolParamsChoice` | app/core/mcp_core.py:90-93 | the tool gets `params["parameters"]` (or all of `params`) when `params` carries a truthy `tool_name`, even if a top-level `tool_name` chose the tool; else `params` as sent, `{}` when absent |
| `McpCore.NamedToolRuns` | app/core/mcp_core.py:88-97 | in the corrected dispatcher, a request naming a registered tool runs that tool |
| `McpCore.RaisesOnlyForUnhashableName` | app/core/mcp_core.py:88 | the corrected dispatcher raises iff a non-`initialize` request names its tool by a truthy list or dict |
| `McpCore.UnknownToolNotFound` | app/core/mcp_core.py:118-129 | in the corrected dispatcher, no registered tool: -32601 under JSON-RPC, a bare message otherwise |
| `McpCore.EnvelopeInEveryBranch` | app/core/mcp_core.py:75-129 | in the corrected dispatcher, JSON-RPC responses carry `"jsonrpc": "2.0"` and the id; other responses have neither and a single key |
| `McpCore.ResultXorError` | app/core/mcp_core.py:75-129 | in the corrected dispatcher, every response has exactly one of `result` and `error` |
| `McpCore.RpcToolError` | app/core/mcp_core.py:101-113 | the JSON-RPC error is an object with a code: passed through when the tool's error has one, -32000 with the error as data otherwise |
| `McpCore.RpcToolErrorAsWritten` | app/core/mcp_core.py:101-113 | as written: raises on a null, boolean or int error; passes through bare a string mentioning "code"; wraps any other string as -32000; for a list, passes it through iff it holds the string `"code"` |
| `McpCore.RpcErrorsCarryCode` | app/core/mcp_core.py:101-113 | in the corrected dispatcher, every JSON-RPC error response holds an error object with a `code` |
| `McpCore.ToolErrorMapping` | app/core/mcp_core.py:97-113 | a tool error is passed or wrapped under JSON-RPC; other requests always get `{"result": ...}` |
| `McpCore.AsWrittenAgreesOnDictErrors` | app/core/mcp_core.py:101-113 | the code as written and the corrected one agree whenever the tool's error is a dict |
| `McpCore.SoleToolRuns` | app/core/mcp_core.py:31-97 | with one registered tool, every request naming it runs it, in both versions of the dispatcher |
| `McpCore.CodecErrorPassesThroughBare` | app/core/mcp_core.py:104 | a tool raising a "codec" error gets a bare string as its JSON-RPC error as written, and a -32000 object when corrected |
| `McpCore.NullErrorRaises` | app/core/mcp_core.py:104 | a tool returning `{"error": None}` makes the code as written raise TypeError |

## Left out

- Threads, locks and concurrency: watchdog observer threads, `threading.Lock`,
  `asyncio.Lock`, `run_coroutine_threadsafe` and the interleaving of the event loop
  with observer threads are out. Every operation is an atomic sequential method. An
  observer is its state; a delivery is a direct call (`Manager.Deliver`).
- `observer.join(timeout=5.0)`: the timing is out. Whether the thread ended within the
  join is the `joined` parameter, and a later exit is the separate step
  `Manager.ObserverExited`.
- Aliasing of the info dictionaries: `create_watcher`, `start_watcher`,
  `stop_watcher` and `list_watchers` return the live dicts, which later updates change.
  The model returns values.
- `recursive`: it is recorded in the filters, but what watchdog does with it is not
  modelled.
- `FileWatcher.SetupFilters`: a filters dict holding an explicit `None` for
  `file_patterns`, `exclude_patterns` or `specific_files` (rather than omitting the key)
  makes the Python code fail when it iterates that list. The model has no such case
  because an absent option is the only `None`. An explicit `None` for
  `include_directories` does not fail: it is falsy, so directories are skipped, while an
  absent key includes them. The model does not have that case either.
- `fnmatch` character classes (`[...]`, `[!...]`) and case normalisation on
  case-insensitive platforms are out; `*`, `?` and literals are modelled.
- `Path.resolve`, `Path.exists` and `Path.name` normalisation: `resolve` and `exists`
  are parameters. `Path.name` is computed on the string as given: trailing slashes and
  `.` components are dropped, and nothing else is normalised.
- The asynchronous callbacks' own effects (including a callback that changes the
  callback list while it is being iterated) are out; a callback is its identity plus
  whether it raises.
- `setup_watcher_sse_callback` is out: it registers a closure calling
  `broadcast_event`, which `Manager.AddEventCallback` and `Notifier.BroadcastEvent`
  model separately.
- `create_sse_response` is out: its HTTP headers and `StreamingResponse` are transport.
- `json.dumps` is a parameter of `FileWatcherSse.WireText`. Its line-break-free output
  is a precondition of `FileWatcherSse.WireTextRoundTrip`.
- The 30-second `asyncio.wait_for` is out: each wait is a `PollOutcome` supplied by the
  caller. A consumer that stops reading ends the sequence of polls.
- `FileWatcherSse.Notifier.Serve` does not read the queue it subscribes. The messages
  arrive from concurrent broadcasts, so the polls abstract them.
- `datetime.now()` and `isoformat()` are out: timestamps are caller-supplied strings.
- `Json.PyStr` renders lists and dicts as the placeholders `[...]` and `{...}`, not as
  Python's repr. That only affects the wording of a not-found message.
- JSON floats are not modelled.
- The module-level functions `start_file_watcher`, `stop_file_watcher`,
  `remove_file_watcher`, `list_file_watchers` and `get_file_watcher_status` are
  one-line delegations to the manager methods above. `create_file_watcher`'s filter
  construction is `FileWatcher.ToolFilters`.
- Logging is out everywhere.

## Findings

| source | as written | input that shows it | evidently intended | confidence | as-written member | corrected member |
|---|---|---|---|---|---|---|
| app/core/mcp_core.py:104 | `"code" not in tool_result.get("error", {})` is a substring test when the error is a string, so a message containing "code" is passed through as the JSON-RPC error | a JSON-RPC request to a tool that raises `'utf-8' codec can't decode byte 0xff`; `execute` turns this into a string error, and the response's `error` is that bare string | pass the error through only when it is a dict with a `code` member, and wrap everything else as -32000 | not executed | `McpCore.CodecErrorPassesThroughBare` | `McpCore.RpcToolError` |
| app/core/mcp_core.py:104 | the same test raises `TypeError` when the error is `None`, a boolean or a number | a JSON-RPC request to a tool returning `{"error": None}` | answer with a -32000 error object whose data is the tool's error | not executed | `McpCore.NullErrorRaises` | `McpCore.RpcToolError` |
