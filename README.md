# index-rs dashboard core, modelled in Dafny

index-rs is a home-server dashboard. A Rust backend collects system figures, lists Docker containers, serves a small file store and probes configured web services. A React front end (and an older single-page script) shows the figures live over a WebSocket. This project models the logic underneath the views and the handlers, and proves what that logic promises.

- **Realtime connection** (`realtime.dfy`, `websocket.js`): the manager that owns the socket, at most one reconnect interval and two handler sets. Every socket ever constructed stays in the model, so a late close event from an old socket can be stated and proved to re-arm reconnection.
- **Store** (`store.dfy`, `serverStore.js`): the store object, whose actions replace fields. The 60-point history window is proved to hold exactly the most recent points of the whole sample stream.
- **Formatting and colours** (`helpers.dfy`, `legacy_app.dfy`): both uptime formatters, the threshold colours, and the old page's fixed-length chart series, which are shifted and pushed in place.
- **List views** (`file_manager.dfy`, `process_widget.dfy`, `port_widget.dfy`, `docker_widget.dfy`):
  - the filters, comparators and stable sorts, with permutation and order lemmas;
  - the process table's page arithmetic;
  - the file manager's path, breadcrumb and selection state;
  - the container panel's dialog and per-container busy marks.
- **Backend** (`docker_parser.dfy`, `paths.dfy`, `file_handlers.dfy`, `collector_utils.dfy`, `health.dfy`, `collector_config.dfy`, `app_config.dfy`, `handlers.dfy`):
  - the `docker ps` Ports-column parser, proved to read back every column docker prints;
  - the container state flags;
  - the file endpoints' containment checks over a component model of Rust's `Path`;
  - the expiring cache and the retry loop;
  - the collector health registry;
  - the configuration defaults and conversion;
  - service URLs;
  - the handlers' decision tables.

Shared pieces live in `base.dfy` (`Option`, `Result`), `text.dfy` (decimal and octal text, ASCII lower case, search, split and trim), `lists.dfy` (filters), `sorting.dfy` (a stable insertion sort with its order and permutation lemmas) and `models.dfy` (the records the backend and the front end exchange).

Everything the code reads from outside is a parameter of the model:
- the clock (nanoseconds since the Unix epoch in the backend, seconds in the front end);
- `JSON.parse` and serde decoding;
- `canonicalize` and the directory contents;
- the outcomes of subprocesses and HTTP requests;
- a confirmation dialog's answer.

Floating-point figures are `real`.

The Rust files come from different revisions, and the model follows each file as written:
- `src/models.rs:115-120` reads the configuration's `monitoring` section with a serde default;
- `src/config.rs:29-35` builds its default configuration without one;
- `AppConfig.Config` therefore has no monitoring field;
- `CollectorConfig.DecodeMonitoring` models the section's own decoding.

## Model

| member | source | states |
|---|---|---|
| Realtime.AddHandler | frontend/src/api/websocket.js:74-75 | `Set.add` on an insertion-ordered set: the members are the old ones plus `h`, the size grows by one exactly when `h` was absent, and no handler is ever held twice |
| Realtime.RemoveHandler | frontend/src/api/websocket.js:76-78 | `Set.delete`: the members are the old ones without `h`, and the size never grows |
| Realtime.RemoveHandlerNoDup | frontend/src/api/websocket.js:76-78 | deleting from a set without duplicates leaves a set without duplicates |
| Realtime.AddHandlerIdempotent | frontend/src/api/websocket.js:74-75 | registering the same handler twice is the same as registering it once |
| Realtime.RemoveExactly | frontend/src/api/websocket.js:76-78 | deleting a handler held once removes exactly that element and keeps the order of the others |
| Realtime.RemoveUndoesAdd | frontend/src/api/websocket.js:74-79 | the remover returned for a fresh handler restores the set to what it was before the registration |
| Realtime.DeliveriesEach | frontend/src/api/websocket.js:88-106 | call `i` of a notification goes to handler `i` of the set with the event, so every handler is called exactly once, in set order, whether or not an earlier one threw |
| Realtime.Deliveries | frontend/src/api/websocket.js:88-106 | a notification makes exactly as many calls as there are registered handlers |
| Realtime.FailureLog | frontend/src/api/websocket.js:88-106 | never more error lines than handlers |
| Realtime.FailureLogEntries | frontend/src/api/websocket.js:88-106 | every error line names a registered handler that threw, with the event it was given; when no handler throws, nothing is logged |
| Realtime.WebSocketManager.constructor | frontend/src/api/websocket.js:3-10 | no socket, no timer, no handlers, nothing delivered or sent |
| Realtime.WebSocketManager.Connect | frontend/src/api/websocket.js:12-51 | an open socket makes it a no-op; otherwise a new connecting socket becomes current, or a throwing constructor logs and installs the reconnect interval |
| Realtime.WebSocketManager.Disconnect | frontend/src/api/websocket.js:53-63 | the interval is cleared, the current socket is closed and forgotten; the invariant that at most one interval is alive holds |
| Realtime.WebSocketManager.StartReconnect | frontend/src/api/websocket.js:65-72 | a pending interval is kept; otherwise exactly one new interval is installed, so intervals never accumulate |
| Realtime.WebSocketManager.OnMessage | frontend/src/api/websocket.js:74-79 | the message set becomes `AddHandler` of the old one and the returned remover names the handler |
| Realtime.WebSocketManager.OnConnectionChange | frontend/src/api/websocket.js:81-86 | the same for the connection set |
| Realtime.WebSocketManager.Unsubscribe | frontend/src/api/websocket.js:76-78 | a remover deletes its handler from its own set and leaves the other set alone |
| Realtime.WebSocketManager.NotifyMessageHandlers | frontend/src/api/websocket.js:88-96 | every message handler gets the data once, in order, and each one that throws adds one log line |
| Realtime.WebSocketManager.NotifyConnectionHandlers | frontend/src/api/websocket.js:98-106 | the same for connection handlers and the connected flag |
| Realtime.WebSocketManager.Send | frontend/src/api/websocket.js:108-114 | the serialised data is written to the current socket only when it is open; otherwise one warning is logged |
| Realtime.WebSocketManager.HandleOpen | frontend/src/api/websocket.js:20-27 | the socket becomes open, the pending interval is cleared, and every connection handler hears `true` |
| Realtime.WebSocketManager.HandleMessage | frontend/src/api/websocket.js:29-36 | a frame that parses reaches every message handler; one that does not only logs |
| Realtime.WebSocketManager.HandleError | frontend/src/api/websocket.js:44-46 | an error event only logs |
| Realtime.WebSocketManager.HandleClose | frontend/src/api/websocket.js:38-42 | the socket is closed, every connection handler hears `false`, and a reconnect interval is pending afterwards |
| Realtime.WebSocketManager.HandleTimer | frontend/src/api/websocket.js:67-70 | the pending interval stays installed and the manager tries to connect again |
| Realtime.LateCloseAfterDisconnect | frontend/src/api/websocket.js:38-63 | after connect, open and disconnect, the old socket's close event still notifies `false` and re-arms reconnection |
| Store.KeepLast | frontend/src/store/serverStore.js:77 | `slice(-n)`: the last `min(len, n)` elements, in order; `slice(-0)` is the whole array |
| Store.Appended | frontend/src/store/serverStore.js:77-82 | the history gains the new point at the end and keeps the most recent 60 points |
| Store.AppendedAll | frontend/src/store/serverStore.js:73-82 | from a history of at most 60 points, the history holds `min(old + new, 60)` points, and the last sample is the last point |
| Store.AppendedAllWindow | frontend/src/store/serverStore.js:73-82 | from a history of at most 60 points, any stream of samples leaves exactly the last 60 points of the whole stream |
| Store.KeepLastSuffix | frontend/src/store/serverStore.js:77 | trimming before appending does not change the final window |
| Store.WithStatus | frontend/src/store/serverStore.js:92-98 | every service whose id matches gets the new status, every other entry is unchanged, and the length is kept |
| Store.WithStatusWithoutIds | frontend/src/store/serverStore.js:92-98 | cards that have no id are never updated by a real id |
| Store.ServerStore.constructor | frontend/src/store/serverStore.js:7-62 | disconnected, no static information, no services, a zero sample, empty histories |
| Store.ServerStore.SetConnectionStatus | frontend/src/store/serverStore.js:65 | replaces the connection flag only |
| Store.ServerStore.SetSystemInfo | frontend/src/store/serverStore.js:67 | replaces the static information only |
| Store.ServerStore.SetServices | frontend/src/store/serverStore.js:69 | replaces the service list only |
| Store.ServerStore.UpdateRealtimeData | frontend/src/store/serverStore.js:71-89 | installs the sample and appends its four figures to the four histories, each kept within 60 points |
| Store.ServerStore.UpdateServiceStatus | frontend/src/store/serverStore.js:92-98 | the service list becomes `WithStatus` of the old one |
| Store.ServerStore.ClearHistory | frontend/src/store/serverStore.js:101-112 | empties the four histories and nothing else |
| Helpers.Decompose | frontend/src/utils/helpers.js:29-31 | days, hours below 24 and minutes below 60 of an uptime in seconds |
| Helpers.UptimeParts | frontend/src/utils/helpers.js:33-36 | at most three parts, none exactly when every unit is zero, each starting with a digit |
| Helpers.SpanText | frontend/src/utils/helpers.js:38 | a zero span reads "刚刚启动"; any other span is text starting with a digit |
| Helpers.FormatUptime | frontend/src/utils/helpers.js:28-39 | under a minute reads "刚刚启动"; from one minute on the text starts with a digit |
| Helpers.DecomposeByMinutes | frontend/src/utils/helpers.js:29-31 | the three units are the whole-minute count written in base (1440, 60) |
| Helpers.DecomposeExact | frontend/src/utils/helpers.js:29-31 | the units account for every second except the fewer than sixty left over |
| Helpers.DecomposeIgnoresSeconds | frontend/src/utils/helpers.js:29-31 | leftover seconds never change the units |
| Helpers.DecomposeZero | frontend/src/utils/helpers.js:29-31 | all three units are zero exactly when the uptime is under a minute |
| Helpers.FormatUptimeJustStarted | frontend/src/utils/helpers.js:28-39 | the text is "刚刚启动" exactly when the uptime is under a minute, and otherwise the space-joined non-zero units |
| Helpers.SpanTextOfNonZero | frontend/src/utils/helpers.js:33-38 | a span with a non-zero unit is written as its units, which never read as the fallback phrase |
| Helpers.FormatUptimeIgnoresSeconds | frontend/src/utils/helpers.js:28-39 | the text depends on whole minutes only |
| Helpers.UptimePartsShape | frontend/src/utils/helpers.js:33-36 | a unit appears exactly when its count is non-zero, days first and minutes last, each with its own suffix |
| Helpers.StatusColor | frontend/src/utils/helpers.js:42-56 | for cpu and memory green below 50, yellow below 80, red from 80; for temperature the green limit is 60; any other kind is gray (each as an if-and-only-if) |
| Helpers.StatusColorMonotone | frontend/src/utils/helpers.js:42-56 | within a kind a larger value is never shown in a milder colour |
| LegacyApp.Zeros | static/app.js:69-71 | `Array(n).fill(0)`: n points, all zero |
| LegacyApp.ShiftPush | static/app.js:245-249 | `shift` then `push`: a non-empty series keeps its length, ends with the new value, and the rest moves down by one |
| LegacyApp.ShiftPushAll | static/app.js:245-249 | pushes onto a non-empty series keep its length, and the last value pushed is the last point |
| LegacyApp.ShiftPushAllWindow | static/app.js:245-249 | any stream of pushes onto a non-empty series leaves the most recent points of the whole stream, as many as the series had |
| LegacyApp.InitialSeriesWindow | static/app.js:63-131 | from the initial 60 zeros, a chart always holds 60 points: the stream zero-padded on the left and cut to its last 60 |
| LegacyApp.FormatUptime | static/app.js:288-300 | never empty; under an hour it is the whole minutes followed by "分钟" |
| LegacyApp.UptimeText | static/app.js:217 | "NaN分钟" for a frame without an uptime, the formatted uptime otherwise |
| LegacyApp.FormatUptimeEndsWithMinutes | static/app.js:288-300 | the text is never empty and always ends with the minute count |
| LegacyApp.FormatUptimeAgrees | static/app.js:288-300 | when days, hours and minutes are all non-zero, this page and the React dashboard write the same text |
| LegacyApp.Dataset.constructor | static/app.js:69-71 | a dataset of n zeros |
| LegacyApp.UpdateChart | static/app.js:245-249 | the dataset's array becomes `ShiftPush` of the old one |
| LegacyApp.LegacyDashboard.constructor | static/app.js:2-4 | every series is 60 zeros, no socket and no interval |
| LegacyApp.LegacyDashboard.UpdateNetworkChart | static/app.js:252-258 | both network series are shifted and pushed, and stay 60 points long |
| LegacyApp.LegacyDashboard.UpdateRealtimeData | static/app.js:215-242 | the uptime text is always set (to "NaN分钟" without an uptime); the CPU series gains its rounded figure when the frame has one; memory only when CPU and memory are both present; the two network series only when CPU, memory and network all are. A missing figure stops the update there, as the `TypeError` does, and leaves every later series unchanged |
| LegacyApp.LegacyDashboard.ConnectWebSocket | static/app.js:180-184 | always constructs a new socket and makes it current |
| LegacyApp.LegacyDashboard.HandleOpen | static/app.js:186-192 | the socket is open and the pending interval is cleared |
| LegacyApp.LegacyDashboard.HandleMessage | static/app.js:194-197 | a frame that does not parse changes nothing; one that parses sets the uptime text and updates the CPU, memory, rx and tx series exactly as far as its figures reach, in the order `updateRealtimeData` reads them (also lines 215-233) |
| LegacyApp.LegacyDashboard.HandleClose | static/app.js:199-207 | the socket is closed and exactly one interval is pending afterwards, a pending one being kept |
| LegacyApp.LegacyDashboard.HandleTimer | static/app.js:202-205 | the interval opens another socket even while an earlier one is connecting |
| FileManager.ChildPath | frontend/src/components/widgets/FileManager.jsx:136 | the child of the base is the bare name; any other child is the current path, '/', the name |
| FileManager.ChildPathInjective | frontend/src/components/widgets/FileManager.jsx:136 | different names in one directory have different child paths |
| FileManager.ParentPath | frontend/src/components/widgets/FileManager.jsx:188-191 | a path of one segment has the base as its parent (the round trip through a child is `ParentOfChild`) |
| FileManager.ParentOfChild | frontend/src/components/widgets/FileManager.jsx:136 | for a name without '/', going into a child and then to the parent comes back to the same path (also lines 188-191) |
| FileManager.Breadcrumbs | frontend/src/components/widgets/FileManager.jsx:334-338 | no breadcrumb at the base, otherwise one per segment |
| FileManager.LastBreadcrumb | frontend/src/components/widgets/FileManager.jsx:334-338 | the last breadcrumb leads to the current directory itself |
| FileManager.KeyCompareAntisymmetric | frontend/src/components/widgets/FileManager.jsx:113-126 | swapping the entries negates every key comparison |
| FileManager.KeyCompareTransitive | frontend/src/components/widgets/FileManager.jsx:113-126 | every key comparison is transitive |
| FileManager.KeyCompare | frontend/src/components/widgets/FileManager.jsx:113-126 | size and modification time order numerically (negative exactly when smaller); any other key compares names, zero exactly for equal names |
| FileManager.FileCompare | frontend/src/components/widgets/FileManager.jsx:107-129 | between kinds the directory comes first in either order; within a kind the result is zero exactly when the key ties, and for "desc" negative exactly when the key compares greater |
| FileManager.FileOrderIsPreorder | frontend/src/components/widgets/FileManager.jsx:107-129 | the comparator is a total preorder for every key and order, so the sort is well defined |
| FileManager.DescendingNegates | frontend/src/components/widgets/FileManager.jsx:128 | within one kind, "desc" is the exact negation of "asc" |
| FileManager.SortFilesOrder | frontend/src/components/widgets/FileManager.jsx:106-131 | the sorted copy is a permutation of the entries, every directory precedes every file in either order, and within a kind the key follows the chosen direction |
| FileManager.SortFiles | frontend/src/components/widgets/FileManager.jsx:106-131 | the sorted copy is a permutation of the entries, ordered by the comparator |
| FileManager.NextSort | frontend/src/components/widgets/FileManager.jsx:194-201 | the same field flips the order; another field becomes the key, ascending |
| FileManager.NextSortTwice | frontend/src/components/widgets/FileManager.jsx:194-201 | two clicks on the current key restore the order |
| FileManager.Toggle | frontend/src/components/widgets/FileManager.jsx:139-145 | the clicked name changes membership and no other name does |
| FileManager.ToggleTwice | frontend/src/components/widgets/FileManager.jsx:139-145 | two clicks on the same file restore the selection |
| FileManager.FileManager.constructor | frontend/src/components/widgets/FileManager.jsx:7-20 | base path, no entries or selection, sorted by name ascending, and one listing request for "." (also lines 45-47) |
| FileManager.FileManager.LoadFiles | frontend/src/components/widgets/FileManager.jsx:29-34 | one listing request, with "." for the empty path |
| FileManager.FileManager.ListingArrived | frontend/src/components/widgets/FileManager.jsx:35-37 | the entries and path are taken from the reply and the selection is cleared |
| FileManager.FileManager.HandleFileClick | frontend/src/components/widgets/FileManager.jsx:134-147 | a directory requests the child's listing and keeps the selection; a file toggles its selection and requests nothing |
| FileManager.FileManager.HandleDownload | frontend/src/components/widgets/FileManager.jsx:149-152 | one download request for the child path |
| FileManager.FileManager.HandleDelete | frontend/src/components/widgets/FileManager.jsx:154-170 | nothing without a selection or a confirmation; otherwise every request sent before the reload is a delete of a selected name's child path, each selected name's delete occurs exactly once among them (counted as a multiset), and one reload follows |
| FileManager.FileManager.HandleCreateFolder | frontend/src/components/widgets/FileManager.jsx:172-186 | a blank name does nothing; otherwise a mkdir request for the trimmed name, and only on success the dialog closes, the name clears and the list reloads |
| FileManager.FileManager.NavigateToParent | frontend/src/components/widgets/FileManager.jsx:188-191 | one listing request for the parent path |
| FileManager.FileManager.HandleSort | frontend/src/components/widgets/FileManager.jsx:194-201 | the key and order become `NextSort` of the old ones |
| ProcessWidget.FilterProcesses | frontend/src/components/widgets/ProcessWidget.jsx:16-25 | an empty term keeps every process (none when the list is missing); otherwise exactly the processes whose name or command contains the term in any letter case, or whose pid text contains it |
| ProcessWidget.Matches | frontend/src/components/widgets/ProcessWidget.jsx:20-24 | the empty term matches every process |
| ProcessWidget.ProcessCompare | frontend/src/components/widgets/ProcessWidget.jsx:28-34 | the sign of `b - a` on the chosen key: negative exactly when `a` is larger, zero exactly on a tie; any key but "cpu" compares memory |
| ProcessWidget.FilteredProcesses | frontend/src/components/widgets/ProcessWidget.jsx:15-35 | a process is listed exactly when it is in the list and matches (or no term is typed), and the list is ordered by the comparator |
| ProcessWidget.ProcessOrderIsPreorder | frontend/src/components/widgets/ProcessWidget.jsx:28-34 | the descending comparator is a total preorder for either key |
| ProcessWidget.SortedByKey | frontend/src/components/widgets/ProcessWidget.jsx:28-34 | a list sorted by the comparator is in non-increasing order of the key |
| ProcessWidget.FilteredProcessesSorted | frontend/src/components/widgets/ProcessWidget.jsx:15-35 | the list shown is a permutation of the filtered processes, largest key first |
| ProcessWidget.TotalPages | frontend/src/components/widgets/ProcessWidget.jsx:38 | the fewest pages of twenty that hold every item, and zero for no items |
| ProcessWidget.PageItems | frontend/src/components/widgets/ProcessWidget.jsx:39-41 | at most 20 rows; on a real page they are the consecutive items starting at `(page - 1) * 20` |
| ProcessWidget.RangeLabel | frontend/src/components/widgets/ProcessWidget.jsx:226 | on a page that holds items, the label runs from 1 or more to at most the total, spanning fewer than 20 |
| ProcessWidget.PageItemsRange | frontend/src/components/widgets/ProcessWidget.jsx:39-41 | page p shows items from (p-1)*20 up to min(p*20, n), never more than 20, and the range label counts exactly those rows (also line 226) |
| ProcessWidget.PageWindow | frontend/src/components/widgets/ProcessWidget.jsx:243 | min(5, total pages) buttons |
| ProcessWidget.PageWindowShape | frontend/src/components/widgets/ProcessWidget.jsx:243-253 | the button numbers are consecutive, lie in 1..total pages, and include the current page when it is a real page |
| ProcessWidget.PageNumber | frontend/src/components/widgets/ProcessWidget.jsx:243-253 | every button that is shown carries a real page number |
| ProcessWidget.FillerRowsComplete | frontend/src/components/widgets/ProcessWidget.jsx:209-217 | a page with any rows always occupies twenty rows |
| ProcessWidget.FillerRows | frontend/src/components/widgets/ProcessWidget.jsx:209-217 | a partly filled page is padded to exactly 20 rows; an empty or full page gets no padding |
| ProcessWidget.PressStaysInRange | frontend/src/components/widgets/ProcessWidget.jsx:63-65 | from a real page every enabled button leads to a real page; previous is disabled exactly on page 1 and next exactly on the last page (also lines 229-273) |
| ProcessWidget.Press | frontend/src/components/widgets/ProcessWidget.jsx:229-281 | a page button works exactly when it is one of the `min(5, total)` shown and leads to a real page; previous is disabled exactly on page 1 and next exactly on the last page (also lines 63-65) |
| ProcessWidget.StalePage | frontend/src/components/widgets/ProcessWidget.jsx:38-46 | a page past the end shows no rows and no filler, and its next button stays enabled (also lines 209, 273) |
| ProcessWidget.StatusColor | frontend/src/components/widgets/ProcessWidget.jsx:48-61 | running, sleeping and zombie (in any letter case) each have their own colour, if and only if; everything else is gray |
| PortWidget.FilterPorts | frontend/src/components/widgets/PortWidget.jsx:11-20 | an empty term keeps every entry; otherwise exactly the entries whose number text contains the term, or whose program, protocol or state contains it in any letter case; never more entries than before |
| PortWidget.Matches | frontend/src/components/widgets/PortWidget.jsx:14-19 | the empty term matches every entry |
| PortWidget.PortNumberFound | frontend/src/components/widgets/PortWidget.jsx:15 | every entry is found by its own port number |
| PortWidget.PortOrderIsPreorder | frontend/src/components/widgets/PortWidget.jsx:22-33 | the comparator is a total preorder for every choice |
| PortWidget.PortCompare | frontend/src/components/widgets/PortWidget.jsx:22-33 | by port, negative exactly when smaller and zero exactly on equal numbers; by program or protocol, zero exactly on equal text; any other choice compares everything equal |
| PortWidget.FilteredAndSortedPorts | frontend/src/components/widgets/PortWidget.jsx:10-34 | an entry is shown exactly when it is in the list and matches (or no term is typed), never more often than it occurs, ordered by the comparator |
| PortWidget.FilteredAndSortedPortsOrder | frontend/src/components/widgets/PortWidget.jsx:10-34 | the rows are a permutation of the filtered entries, ascending by port number, program or protocol as chosen |
| PortWidget.UnknownSortKeepsOrder | frontend/src/components/widgets/PortWidget.jsx:30-31 | any other choice leaves the filtered order as it was |
| PortWidget.PidCell | frontend/src/components/widgets/PortWidget.jsx:100 | a dash exactly when the pid is missing or zero, digits otherwise |
| PortWidget.EmptyMessage | frontend/src/components/widgets/PortWidget.jsx:108 | the "no data" message exactly when there is no search term |
| DockerWidget.FilterContainers | frontend/src/components/widgets/DockerWidget.jsx:8 | exactly the containers that run (when that filter is on) and whose name, image or id contains the term in any letter case (when a term is typed); never more than there were (also lines 121-138) |
| DockerWidget.TextMatches | frontend/src/components/widgets/DockerWidget.jsx:129-135 | the empty term matches every container |
| DockerWidget.FilterContainersIsOneFilter | frontend/src/components/widgets/DockerWidget.jsx:121-138 | the two filters in sequence are one order-preserving filter by both conditions |
| DockerWidget.BothFilters | frontend/src/components/widgets/DockerWidget.jsx:124-135 | the running filter followed by the text filter is the filter by their conjunction |
| DockerWidget.EmptyMessage | frontend/src/components/widgets/DockerWidget.jsx:177 | the "no containers" message exactly when neither filter is active |
| DockerWidget.StatusText | frontend/src/components/widgets/DockerWidget.jsx:107-113 | paused-while-running, running, restarting and unknown each as an if-and-only-if over the flags; "stopped" is never shown, as the state object has no `exited` field |
| DockerWidget.StatusTextOfParsedState | frontend/src/components/widgets/DockerWidget.jsx:107-113 | for states the backend parser derives, "paused" is never shown either: a paused container reads "unknown" |
| DockerWidget.StatusColor | frontend/src/components/widgets/DockerWidget.jsx:99-104 | green, yellow, blue and gray each as an if-and-only-if over running, paused and restarting in that priority |
| DockerWidget.OfferedActions | frontend/src/components/widgets/DockerWidget.jsx:259-299 | stop, restart and pause or resume while running; start otherwise |
| DockerWidget.ActionVerb | frontend/src/components/widgets/DockerWidget.jsx:27-33 | a verb exactly for the five known actions |
| DockerWidget.OfferedActionsKnown | frontend/src/components/widgets/DockerWidget.jsx:259-299 | every offered action has a verb, is accepted by the backend, and runs the docker subcommand of the same name |
| DockerWidget.ConfirmDialog | frontend/src/components/widgets/DockerWidget.jsx:26-42 | the dialog names the container and action; the button text falls back to the action itself, while the message reads "undefined" for an unknown action |
| DockerWidget.ResultToast | frontend/src/components/widgets/DockerWidget.jsx:60-72 | a success toast exactly for a successful reply, a warning exactly for a client time-out, an error otherwise |
| DockerWidget.DockerPanel.constructor | frontend/src/components/widgets/DockerWidget.jsx:15-17 | no dialog, no busy container, no toast |
| DockerWidget.DockerPanel.ConfirmAction | frontend/src/components/widgets/DockerWidget.jsx:26-42 | the dialog is the one `ConfirmDialog` builds |
| DockerWidget.DockerPanel.Cancel | frontend/src/components/widgets/DockerWidget.jsx:325 | the dialog closes |
| DockerWidget.DockerPanel.BeginAction | frontend/src/components/widgets/DockerWidget.jsx:45-50 | without a dialog nothing happens; otherwise the dialog closes, its container is marked busy, and the dialog is the request sent |
| DockerWidget.DockerPanel.FinishAction | frontend/src/components/widgets/DockerWidget.jsx:52-79 | the toast for the outcome is shown and only that container's busy mark is removed |
| DockerWidget.OverlappingActions | frontend/src/components/widgets/DockerWidget.jsx:45-80 | with two actions in flight, finishing the first leaves the second container busy and the first not |
| DockerParser.PortOrZero | src/docker_parser.rs:126 | a 16-bit port, 0 when the text does not parse as `u16` (also line 146) |
| DockerParser.ParsePart | src/docker_parser.rs:116-155 | a mapping's container port fits in 16 bits, and a published port always comes with an address |
| DockerParser.PublishedPart | src/docker_parser.rs:121-142 | a part with an arrow yields a mapping only when its container side has a '/'; a host port comes with an address |
| DockerParser.LocalPart | src/docker_parser.rs:143-155 | a part without an arrow yields a mapping only when it has a '/', and that mapping has neither host address nor host port |
| DockerParser.Mappings | src/docker_parser.rs:115-158 | at most one mapping per part |
| DockerParser.ParsePortMappings | src/docker_parser.rs:112-159 | the loop yields exactly the mappings of the ", "-separated parts, in order, skipping blank parts and parts without '/' |
| DockerParser.ParsePortPart | src/docker_parser.rs:116-156 | the body of the loop over the parts gives exactly the mapping that part defines, or none |
| DockerParser.MappingsAppend | src/docker_parser.rs:115-158 | parts are parsed independently: the mappings of two runs of parts are the concatenation of each run's mappings |
| DockerParser.PartWithoutSlash | src/docker_parser.rs:125 | a part with no '/', before or after an arrow, contributes no mapping (also line 144) |
| DockerParser.PartWithoutArrow | src/docker_parser.rs:144-155 | "port/proto" gives the port (0 when unparsable), the protocol, and no host address or port |
| DockerParser.DigitsHaveNoMark | src/docker_parser.rs:121-131 | decimal digits contain none of the separators ',', '-', ':' or '/' |
| DockerParser.ParsePublished | src/docker_parser.rs:121-142 | for "H->C/P", the container port is the text of C before its first '/', the protocol the rest, and the host side is read from H alone |
| DockerParser.HostSideOf | src/docker_parser.rs:129-132 | "ip:port" splits at the last ':' into the address and the parsed port, even when the address holds colons itself |
| DockerParser.HostSide | src/docker_parser.rs:129-135 | an address exactly when the host side holds a ':', and then it is the text before the last ':'; a port only with an address, and within 16 bits |
| DockerParser.ParseFormatPart | src/docker_parser.rs:116-155 | every mapping docker can print is read back exactly from its own text |
| DockerParser.Formatted | src/docker_parser.rs:115 | the text of each mapping, one part per mapping, in order |
| DockerParser.MappingsOfFormatted | src/docker_parser.rs:115-158 | the parts docker prints for a list of mappings parse back to that list |
| DockerParser.MappingsOfParts | src/docker_parser.rs:115-158 | parts that each parse to a mapping yield those mappings, one per part and in order |
| DockerParser.PortsColumnRoundTrip | src/docker_parser.rs:112-159 | a whole Ports column docker prints, joined with ", ", parses back to the mappings it lists, in order |
| DockerParser.DeriveState | src/docker_parser.rs:75-84 | each flag is set exactly when the state word is that flag's name; pid, exit code and times are absent |
| DockerParser.DerivedStateExclusive | src/docker_parser.rs:75-79 | at most one flag is ever set, so running and paused are never set together |
| DockerParser.MemoryPercent | src/docker_parser.rs:32 | usage as a percentage of a positive limit, 0 without one |
| DockerParser.StatsTable | src/docker_parser.rs:11-38 | every container named by a non-blank, readable stats line is in the table, and the last such line's figures are the ones kept for its container |
| DockerParser.StatsTableKeys | src/docker_parser.rs:11-38 | every container in the statistics table is named by some non-blank, readable stats line, and carries that line's figures |
| DockerParser.ContainerWith | src/docker_parser.rs:59-110 | id, name, image, status and ports are copied, the state is derived from the state word, and an unparsable creation time is 0 |
| DockerParser.Containers | src/docker_parser.rs:41-56 | one container per line when every line is non-blank and readable; a readable last line gives the last container |
| DockerParser.ParseDockerContainers | src/docker_parser.rs:6-57 | always `Ok`; the result is the containers of the non-blank, readable lines in order, with the stats table built from the stats lines |
| DockerParser.CollectStats | src/docker_parser.rs:11-38 | the loop over the stats lines builds exactly the statistics table those lines define |
| DockerParser.CollectContainers | src/docker_parser.rs:41-54 | the loop over the container lines collects exactly the containers of the non-blank, readable lines, in order |
| DockerParser.ContainersShape | src/docker_parser.rs:41-56 | at most one container per line, each with a derived state and with its name's statistics, or all zeros when there are none (also lines 87-88) |
| Handlers.DecodeAction | src/handlers.rs:111-120 | a request's action decodes exactly when it is one of the five lower-case names |
| Handlers.Command | src/handlers.rs:134-140 | the subcommand of an action decodes back to that action |
| Handlers.CommandRoundTrip | src/handlers.rs:134-140 | the five actions map one-to-one to the docker subcommands of the same names |
| Handlers.TimeoutSecs | src/handlers.rs:143-147 | 30 seconds for stop, 45 for restart, 10 for anything else |
| Handlers.ActionReply | src/handlers.rs:128-188 | success exactly when the command finished in time with a successful exit status; spawn failures, failed exits and time-outs all report failure |
| Handlers.TimeoutReplyNamesLimit | src/handlers.rs:143-147 | a time-out reply fails and names the limit of its own subcommand: 30 for stop, 45 for restart (also lines 179-185) |
| Handlers.ServiceHealth | src/handlers.rs:87-102 | online exactly for a reply with a 2xx or 3xx status; any other status, or no reply, is offline |
| Handlers.TailArgument | src/handlers.rs:196 | the tail argument is a decimal number |
| Handlers.LogsArguments | src/handlers.rs:196-202 | `docker logs --tail N id` with N a decimal number, the requested count when there is one |
| Handlers.DefaultTailArgument | src/handlers.rs:196 | without a requested count the tail is "100" |
| Handlers.LogsReplySplits | src/handlers.rs:203-213 | the log body is stdout, a newline, then stderr: both streams are recovered from it when stdout holds no newline |
| Handlers.LogsReply | src/handlers.rs:203-215 | an error exactly when the command could not run, and then 500; otherwise stdout, a newline, then stderr |
| FileHandlers.BasePath | src/file_handlers.rs:24 | the storage base is `FILE_STORAGE_PATH`, or "/home/xianyu/uploads" when it is unset (also lines 119, 191, 247, 285) |
| FileHandlers.Permissions | src/file_handlers.rs:64-68 | one to three octal digits whose value is `mode & 0o777` |
| FileHandlers.ModifiedSecs | src/file_handlers.rs:57-61 | the modification time in seconds, 0 exactly when there is none or it lies before the epoch |
| FileHandlers.EntryPath | src/file_handlers.rs:54 | the entry's joined path with the base text removed from its front when it is there, and unchanged otherwise (also line 74) |
| FileHandlers.EntryPathUnderDirectory | src/file_handlers.rs:54 | inside a listed directory that textually extends the base, an entry's path is the directory's remaining text, '/', then the name (also line 74) |
| FileHandlers.EntryInfo | src/file_handlers.rs:72-83 | name, size and kind are copied from the entry and its metadata; permissions and time are formatted as above |
| FileHandlers.ReadCount | src/file_handlers.rs:47 | the loop reads entries up to, and not past, the first failed read |
| FileHandlers.ReadCountUnique | src/file_handlers.rs:47 | that count is the only one with those properties |
| FileHandlers.Collected | src/file_handlers.rs:47-84 | at most one listing entry per entry read |
| FileHandlers.CollectedFromEntries | src/file_handlers.rs:48-51 | every listed entry comes from an entry read whose metadata loaded (also line 72) |
| FileHandlers.EntriesAreCollected | src/file_handlers.rs:48-51 | every entry read whose metadata loaded is listed (also line 72) |
| FileHandlers.ListingOrderIsPreorder | src/file_handlers.rs:87-93 | the listing comparator is a total preorder |
| FileHandlers.ListingCompare | src/file_handlers.rs:87-93 | a directory comes before a non-directory; the result is zero exactly for entries of one kind with the same name |
| FileHandlers.SortListingOrder | src/file_handlers.rs:87-93 | sorting keeps the same entries, puts every directory before every other entry, and orders entries of one kind by name |
| FileHandlers.SortListing | src/file_handlers.rs:87-93 | the sorted files are a permutation of the entries, ordered by the comparator |
| FileHandlers.RelativeText | src/file_handlers.rs:105-108 | for a path under the base, the normalised text of its components after the base's; for the canonical path a listing reports this is the raw remainder |
| FileHandlers.ListingParentAtBase | src/file_handlers.rs:96-102 | the parent is absent exactly when the listed path is the base; otherwise it is the listed path without its last component, relative to the base |
| FileHandlers.ListingParent | src/file_handlers.rs:96-102 | no parent for the base itself; a parent is the listed path without its last component, relative to the base |
| FileHandlers.ListFiles | src/file_handlers.rs:20-112 | the loop and sort yield the listing that `Listing` defines |
| FileHandlers.ReadEntries | src/file_handlers.rs:47-84 | the loop collects, in order, the entries read before the first read error, skipping those whose metadata fails to load |
| FileHandlers.ListingErrors | src/file_handlers.rs:29-43 | 403 exactly when the canonical path leaves the base; 404 exactly when there is no canonical path or it is not a readable directory; success otherwise |
| FileHandlers.ListingContents | src/file_handlers.rs:45-111 | a successful listing holds the entries collected, directories first and names ascending, under the path relative to the base |
| FileHandlers.Listing | src/file_handlers.rs:20-112 | only 403 and 404 errors; a listing only for a canonical path under the base that is a directory, holding exactly the entries collected from it |
| FileHandlers.DownloadName | src/file_handlers.rs:206-208 | the file name is the last component when it is a name |
| FileHandlers.DownloadDecision | src/file_handlers.rs:192-232 | 403 exactly when the canonical target is missing or outside the base; 404 exactly when it is inside but not an existing regular file; a reply sends the length the opened file reports |
| FileHandlers.Download | src/file_handlers.rs:188-235 | only 403, 404 and 500 errors; a reply only for a canonical path under the base that is a regular file, with the length its metadata reports |
| FileHandlers.DeleteTarget | src/file_handlers.rs:286-304 | nothing outside the base is ever removed |
| FileHandlers.DeleteReply | src/file_handlers.rs:291-317 | success exactly when a removal was chosen and did not fail; no path is ever returned |
| FileHandlers.DeleteDispatch | src/file_handlers.rs:286-304 | delete refuses exactly the targets without a canonical path or outside the base; it removes directories recursively and anything else as a file |
| FileHandlers.ParentPieces | src/file_handlers.rs:248 | ".." is one parent-directory component |
| FileHandlers.ResolveUpAndName | src/file_handlers.rs:248-251 | going up from a base ending in a name and then down to a name replaces the base's last component |
| FileHandlers.EscapeAfterUp | src/file_handlers.rs:248-251 | such components extend the base component-wise, yet once ".." is applied they no longer lie under it |
| FileHandlers.NewDirectoryUpComponents | src/file_handlers.rs:248 | the components of base joined with ".." and a name |
| FileHandlers.JoinUpThenName | src/file_handlers.rs:248 | joining a ".." path then a plain name appends a parent and that name to the base's components |
| FileHandlers.RelativeJoinExtends | src/file_handlers.rs:248 | joining two relative paths onto a non-empty base extends the base component-wise |
| FileHandlers.CreateDirectoryAllowedAsWritten | src/file_handlers.rs:248-257 | `starts_with` on the joined path accepts every pair of relative parts, ".." included |
| FileHandlers.CreateDirectoryEscapes | src/file_handlers.rs:248-257 | the check as written accepts path ".." and a fresh name, yet the directory created lies beside the base |
| FileHandlers.CreateDirectoryAllowedStaysInside | src/file_handlers.rs:248-257 | the corrected check accepts only directories that stay under the base once ".." is applied, and accepts every plain relative request |
| FileHandlers.CreateDirectoryAllowed | src/file_handlers.rs:248-257 | the corrected check implies the check as written and accepts every pair of parts without ".." |
| FileHandlers.DirectoryToCreate | src/file_handlers.rs:248-259 | a directory to create exactly when the corrected check passes, and then one under the base |
| FileHandlers.CreateDirectory | src/file_handlers.rs:244-274 | success exactly when the corrected check passes and the creation does not fail; success returns the created path |
| FileHandlers.ParentThenNamePieces | src/file_handlers.rs:135-139 | "../name" is a parent component and that name |
| FileHandlers.UploadUpComponents | src/file_handlers.rs:123 | the components of base joined with "." then "../name" (also line 139) |
| FileHandlers.JoinHereThenUp | src/file_handlers.rs:123 | joining a path with no components then "../name" appends a parent and that name to the base's components (also line 139) |
| FileHandlers.UploadEscapes | src/file_handlers.rs:139-151 | a new file named "../name" has no canonical form, so the check as written accepts it, yet it is written beside the base |
| FileHandlers.UploadAllowedAsWritten | src/file_handlers.rs:142-151 | without a canonical form the file is always accepted; with one, exactly when it starts with the base |
| FileHandlers.UploadAllowed | src/file_handlers.rs:139-151 | the corrected check implies the check as written; for a new file it accepts exactly the directory and names without ".." |
| FileHandlers.UploadAllowedStaysInside | src/file_handlers.rs:139-151 | the corrected check writes only under the base, and for plain relative names it agrees with the check as written |
| FileHandlers.UploadDirectoryEscapes | src/file_handlers.rs:120-124 | the upload directory "../name" is created as written beside the base, not under it, and the corrected upload creates no directory for it |
| FileHandlers.ConfinedDirectoryInside | src/file_handlers.rs:123 | a directory without ".." joined to a non-empty base stays under the base once ".." is applied |
| FileHandlers.UploadDirectoryToCreate | src/file_handlers.rs:120-124 | the corrected upload creates a directory exactly when the requested path has no ".." and is relative; it is the joined path, under the base |
| FileHandlers.UploadSucceedsInside | src/file_handlers.rs:115-185 | the corrected upload succeeds only for a field that was read and written, at a path that stays under the base once ".." is applied; with no field it reports "No file received" |
| FileHandlers.Upload | src/file_handlers.rs:115-185 | a requested directory with ".." is refused with "Invalid file path"; 400 only for a multipart stream or body error; success only for a field read and written with no directory error, and it returns a path |
| CollectorUtils.FromSecs | src/collector_utils.rs:102-105 | a duration of exactly that many whole seconds |
| CollectorUtils.Success | src/collector_utils.rs:18-25 | data present, no error, not cached, stamped now |
| CollectorUtils.Failure | src/collector_utils.rs:27-34 | the error present, no data, not cached, stamped now |
| CollectorUtils.Cached | src/collector_utils.rs:36-43 | data present, no error, cached, keeping its own time |
| CollectorUtils.Retained | src/collector_utils.rs:74-78 | exactly the entries younger than twice the time to live are kept, unchanged; an entry stamped in the future is dropped |
| CollectorUtils.DataCache.constructor | src/collector_utils.rs:53-58 | an empty cache with the given time to live |
| CollectorUtils.DataCache.Get | src/collector_utils.rs:60-68 | the stored value exactly when the key is present and its age is below the time to live; a future stamp is never fresh |
| CollectorUtils.DataCache.Set | src/collector_utils.rs:70-79 | the key's value and time are overwritten, then only entries younger than twice the time to live remain; other kept entries are unchanged |
| CollectorUtils.GetAfterSet | src/collector_utils.rs:60-79 | a value just stored survives the clean-up and reads back while younger than the time to live, and not after |
| CollectorUtils.SetKeepsItsKey | src/collector_utils.rs:63 | with a positive time to live and one clock reading, `set` keeps its own key; future stamps are never fresh (also lines 72-78) |
| CollectorUtils.Attempts | src/collector_utils.rs:168-176 | `max_retries` attempts, but at least one |
| CollectorUtils.RetryAsync | src/collector_utils.rs:160-181 | returns the first success; otherwise calls that many times and returns the last error; sleeps only between attempts |
| CollectorUtils.ParseWithDefault | src/collector_utils.rs:141-143 | the parse of the trimmed text, or the default when it fails |
| CollectorUtils.TrimFramed | src/collector_utils.rs:142 | text that neither starts nor ends with whitespace trims to itself, and any runs of whitespace before and after it, of any length, are removed |
| CollectorUtils.ParsePortWithDefault | src/collector_utils.rs:141-143 | a decimal port reads back unchanged, bare or padded with any whitespace on either side |
| CollectorUtils.ParseBlankWithDefault | src/collector_utils.rs:141-143 | text made only of whitespace, or empty, gives the default |
| CollectorUtils.DefaultCollectorConfig | src/collector_utils.rs:99-110 | 5 s, 5 s, 10 s and 3 s, 20 processes, fallback on |
| Health.Registered | src/health.rs:39-48 | a registered collector is "starting" with no errors, no last update and no last error |
| Health.NextErrorCount | src/health.rs:63 | one more error, wrapping to 0 past the `u32` range |
| Health.Updated | src/health.rs:58-66 | every report sets the last update; success sets "healthy" and keeps the count and last error; failure sets "error", counts one more error and records the given error, even an absent one |
| Health.OverallStatus | src/health.rs:74-78 | "healthy" exactly when every collector is, "degraded" otherwise |
| Health.UptimeSeconds | src/health.rs:80 | whole seconds since the start, truncated, and always within `u64` |
| Health.HealthMonitor.constructor | src/health.rs:32-37 | no collectors, started now |
| Health.HealthMonitor.RegisterCollector | src/health.rs:39-48 | inserts or replaces the name's record with a fresh starting one, nothing else changes |
| Health.HealthMonitor.UpdateCollectorStatus | src/health.rs:50-67 | an unregistered name changes nothing; otherwise only that record is updated by the report |
| Health.HealthMonitor.GetHealthStatus | src/health.rs:69-84 | leaves the registry unchanged and returns a copy of it, healthy exactly when every collector is, with the uptime, time and version |
| Health.OverallStatusCases | src/health.rs:74-78 | no collectors is healthy; a starting or failed collector makes the summary degraded |
| Health.AllReportsSucceeded | src/health.rs:59-60 | once every collector reports success, the summary is healthy (also lines 74-78) |
| Health.FailureDegrades | src/health.rs:61-65 | one failed report makes the summary degraded (also lines 74-78) |
| Health.RegisterThenFail | src/health.rs:39-48 | a first failure after registering counts one error and records the given message (also lines 61-65) |
| CollectorConfig.DefaultCollectors | src/collector_config.rs:65-68 | interval 1, all four collectors on, command timeout 5, 20 processes (also lines 83-95) |
| CollectorConfig.DefaultPerformance | src/collector_config.rs:69-72 | GPU cache 5, sensors cache 10, port scan 3, history 60 (also lines 97-106) |
| CollectorConfig.DefaultGlobal | src/collector_config.rs:74-81 | the two default tables |
| CollectorConfig.DecodeCollectors | src/collector_config.rs:16-38 | each key present is taken as written; each missing key takes its serde default (also lines 65-68) |
| CollectorConfig.DecodePerformance | src/collector_config.rs:40-60 | each key present is taken as written; each missing key takes its serde default (also lines 69-72) |
| CollectorConfig.DecodeMonitoring | src/models.rs:115-120 | a missing monitoring section is the default; a present one needs both tables |
| CollectorConfig.EmptyTablesAreDefault | src/collector_config.rs:16-106 | the serde defaults and the `Default` impls agree: empty tables decode to the defaults |
| CollectorConfig.ToCollectorConfig | src/collector_config.rs:108-119 | each seconds field becomes a duration of the same seconds, the process limit is copied, fallback is always on |
| CollectorConfig.ConversionIgnores | src/collector_config.rs:108-119 | the interval, the enable flags and the history size make no difference to the conversion |
| CollectorConfig.ConversionInjective | src/collector_config.rs:108-119 | the fields the conversion reads can be recovered from its result |
| CollectorConfig.DefaultsAgree | src/collector_config.rs:74-119 | converting the default configuration gives exactly the collectors' default settings |
| AppConfig.ServiceUrl | src/config.rs:43-47 | the protocol, "://", the shared address, ':' and the port in decimal, in that order |
| AppConfig.HealthCheckUrl | src/config.rs:49-53 | the address followed by the health path when there is one, the address alone otherwise |
| AppConfig.Card | src/config.rs:55-63 | name, icon and description copied, the card's address is the service address, and its status is the probe of the health address |
| AppConfig.GetServices | src/config.rs:38-67 | one card per configured service, in order |
| AppConfig.ServiceUrlRoundTrip | src/config.rs:43-47 | the port is read back from the text after the address's last ':', and the text before it is the protocol and the address |
| AppConfig.ServiceUrlInjective | src/config.rs:43-47 | for protocols and addresses of equal lengths, different services get different addresses |
| AppConfig.DefaultServices | src/config.rs:69-106 | "localhost" with four services on 3000, 8080, 8096 and 8123, all "http", no health path |
| AppConfig.DefaultConfig | src/config.rs:29-34 | server "0.0.0.0" on port 9876 with the default services |
| AppConfig.LoadConfig | src/config.rs:7-36 | the file's configuration when it was read and parsed, the defaults otherwise |
| AppConfig.DefaultCardsProbe | src/config.rs:29-34 | without a file, each default service is probed at "http://localhost:" and its port (also lines 43-55, 69-106) |
| Paths.StripPrefix | src/file_handlers.rs:98 | removes the base exactly when the path starts with it component-wise, leaving the rest of the components (also line 105) |
| Paths.Components | src/file_handlers.rs:28 | a root component first exactly for an absolute path; after the first component only names and ".." appear, as `Path::components` drops "." and empty pieces |
| Paths.PathJoin | src/file_handlers.rs:28 | an absolute argument replaces the base; otherwise the result starts with the base and ends with the argument (also lines 123, 139, 192, 248) |
| Paths.StartsWith | src/file_handlers.rs:35 | a path that starts with a non-empty base is absolute exactly when the base is (also lines 143, 196, 251) |
| Paths.Resolve | src/file_handlers.rs:248-259 | resolving ".." never lengthens a path, leaves no "." component, and a root only at the front |
| Paths.Parent | src/file_handlers.rs:97 | all components but the last; none for an empty path or the root |
| Paths.JoinComponents | src/file_handlers.rs:28 | joining a relative path appends its components to the base's |
| Paths.ConfinedJoinStaysInside | src/file_handlers.rs:248 | joining relative paths without ".." stays under the base once ".." is applied |
| Health.ClockSetBack | src/health.rs:80 | a clock set back by a second or more reports an uptime of at least 2^63 seconds |

## Left out

- Rendering: JSX markup, Tailwind classes, SVG and the ECharts option objects. Only the values the views compute are modelled.
- Floating-point formatting and arithmetic: `formatBytes` and `formatNetworkSpeed`, the `toFixed(1)` rounding of the old page (a parameter), the upload-progress percentage, and the size parsers of `src/docker_parser.rs` (`parse_size_to_mb`, `parse_memory_usage`, `parse_network_io`), whose results are inputs of `DockerParser.StatsLine`. Floats are `real`, so NaN and rounding are not modelled.
- `localeCompare` and `toLowerCase`: modelled as code-point order and ASCII lower case. Non-ASCII letters compare and fold differently in a browser.
- I/O: HTTP requests (axios, fetch, reqwest), `localStorage`, `window.open`, the DOM, the tokio file operations, `canonicalize` (an oracle, so symbolic links are not modelled), and subprocesses. `execute_command_with_timeout` and `batch_execute_commands` are not part of this model. The docker action's outcome enters `Handlers.ActionReply` as a value.
- `load_config`'s reading and TOML parsing of the configuration file: `AppConfig.LoadConfig` receives the parsed result or its absence.
- Concurrency: the socket tasks and `select!` in `src/handlers.rs`, the broadcast channel, and the `RwLock`s around the cache and the registry. These are modelled as plain sequential state.
- `src/collectors.rs`, `src/main.rs`, `frontend/src/api/index.js`, `frontend/src/utils/logger.js`, the pages and the other widgets are not part of this model.
- The container panel's log viewer (`fetchLogs`) and the toast's five-second timer are not modelled. Toasts are the value last shown.
- DockerWidget.ConfirmDialog: the action-text table is an object literal, so names such as "constructor" reach its prototype. The model treats every name outside the five actions as unknown.
- File names are Unicode strings. The lossy UTF-8 conversion of non-UTF-8 names is not modelled.
- FileHandlers.ModifiedSecs: the `u64` to `i64` cast of the modification time is not modelled. Times beyond 2^63 seconds do not occur.
- CollectorUtils.DataCache.Set: `ttl * 2` panics on `Duration` overflow, which the model does not capture. Unbounded integers cannot overflow.
- Health.NextErrorCount: models the release-build wrap-around of the `u32` counter. A debug build panics instead.
- Health.UptimeSeconds: states the exact value only for a clock that has not gone back and an uptime within `u64`. The wrapped value of a clock set back is only bounded.
- AppConfig.ServiceUrlInjective: proved only for protocols of equal length and addresses of equal length. Without that the claim is false: protocol "a" with address "b://c" and protocol "a://b" with address "c" give the same text.
- `FileHandlers.CreateDirectory` and `FileHandlers.Upload` model the corrected checks. The checks as written are `CreateDirectoryAllowedAsWritten`, `UploadAllowedAsWritten` and `UploadDirectoryAsWritten` (see Findings).
- FileHandlers.RelativeText: renders the remaining components, whereas `Path::strip_prefix` returns the remaining raw text. The two agree on canonical paths, so the listing's `path` is exact. The `file_path` replies of `CreateDirectory` (src/file_handlers.rs:263) and `Upload` (src/file_handlers.rs:163) join the request's own text, so the model shows those paths normalised: a request path "a//b" or "a/./b" with name "c" replies "a//b/c" or "a/./b/c", where the model says "a/b/c".
- LegacyApp.LegacyDashboard.UpdateRealtimeData: the DOM texts, the load averages and the disk list are not modelled. The uptime is a whole number of seconds, as the backend sends it. Only a `null` frame is a parse failure of the oracle and changes nothing, as in the page, where reading `uptime_secs` of `null` throws first. Any other frame that is not an object (`5`, `"x"`, `true`, `[]`) reaches the model as `LegacyFrame(None, None, None, None)`: the uptime text becomes "NaN分钟" (static/app.js:217) and no series changes, since `data.cpu.total_usage` throws next (static/app.js:221).
- FileManager.FileManager.HandleDelete: the selection is a set, so the order of the delete requests is not modelled. The page sends them in the insertion order of its JavaScript `Set` (frontend/src/components/widgets/FileManager.jsx:160); the model states only that each selected name gets exactly one.
- Realtime.WebSocketManager: a handler's own effect is not modelled, only that it was called and whether it threw.

## Findings

| source | as written | input that shows it | evidently intended | confidence | as-written member | corrected member |
|---|---|---|---|---|---|---|
| src/file_handlers.rs:248-257 | the new directory is checked with `Path::starts_with`, which compares components before any ".." is applied | base "/srv/uploads", path "..", name "x": "/srv/uploads/../x" starts with the base, yet the directory created is "/srv/x" | only directories that stay under the base are created | not executed | FileHandlers.CreateDirectoryEscapes | FileHandlers.CreateDirectoryAllowedStaysInside |
| src/file_handlers.rs:139-151 | the upload target is checked only when `canonicalize` succeeds, which needs the file to exist already | file name "../x" for a new file: the target has no canonical form, the check is skipped, and the file is written beside the base | every upload lands under the base | not executed | FileHandlers.UploadEscapes | FileHandlers.UploadAllowedStaysInside |
| src/file_handlers.rs:120-124 | the upload directory `base.join(path)` is created with `create_dir_all` before any containment check | base "/srv/uploads", query path "../x": the directory "/srv/x" is created beside the base, whatever happens to the file afterwards | no directory outside the base is ever created | not executed | FileHandlers.UploadDirectoryEscapes | FileHandlers.UploadDirectoryToCreate |
