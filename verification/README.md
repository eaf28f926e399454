# Verified model of the OpenAlpaca cores

This project models, in Dafny, the parts of OpenAlpaca whose correctness depends on more than one function
body, and proves what they promise over every input, every interleaving and every crash.

| module | what it is |
|---|---|
| `McpClient` | the shared inner of cloned MCP clients as a state machine: any number of tasks, each running from one await to the next, delayed, overtaken or dropped at any of them |
| `McpClientSafety`, `McpClientAttempts`, `McpClientRuns` | what every interleaving keeps, the attempt counter, and the theorems about whole runs |
| `McpClientContinuations` | what can follow a state: sequences of events, and those that are one task's own |
| `McpClientRespawns` | a call is sent once; exactly when a call or a list can bring a dead connection back by itself |
| `McpClientReports` | what a run can go on to: what a sealed client can be made to report, what a disconnect leaves, how far the counter can be driven |
| `ChangeListener` | the change subscription loop of a connection, as a class |
| `PluginStore` | the plugins directory as a map with an atomic rename, and the update, uninstall and recovery jobs on it, one fallible I/O call at a time, with a crash possible between any two |
| `PluginStoreSafety`, `PluginStoreJobs`, `PluginStoreRuns`, `PluginStoreTheorems` | what is kept on disk, what each job knows, and the theorems about whole runs |
| `PluginStoreReports`, `PluginStoreLimits` | that every report of a failed swap is true; where the other theorems end, exactly, with runs that go past them |
| `PluginsRoot` | the swap and its recovery as methods of a class, proved to follow the state machine |
| `Marker` | the one-line swap marker, whole and torn |
| `Staging` | the names of staging copies and the sweep of those an earlier process left |
| `TreeCopy`, `TreeCopyMeaning` | the bounded graph-to-tree copy, and exactly what it accepts |
| `RustMask`, `RustMaskMeaning`, `RustMaskTwice` | the masking scanner and the brace-block scan of the documentation generator, and when masking twice is masking once |
| `RustMaskLiterals` | the scanner's tokens against Rust's own grammar of comments and literals |
| `ToolArguments`, `LlmStream`, `LlmStreamMeaning` | reading tool arguments, assembling a stream, printing a response as one |
| `ConfigStore` | the atomic config writer, its backups and the unparseable copies |
| `CronJobs` | scheduled skills in the cron scheduler's job table |
| `JsonEscape`, `LikeEscape`, `Backoff` | the JSON-preserving escaper, `LIKE` escaping, the reconnect wait |
| `Ordered`, `Wrappers` | numbers in ascending order; `Option` and `Result` |

How the two state machines read off the source:

- `McpClient.RunReconnect` is `reconnect` (crates/openalpaca_mcp/src/client.rs:576-636), `RunHandshake` is
  `do_handshake` and `install_service` (298-402), `RunCall` is `call_tool`, `list_tools`, `ensure_connected`,
  `service_is_live` and `current_peer` (487-495, 639-758), `RunDisconnect` is `disconnect` (537-563), and the
  `Deadline` and `Drop` events are what `with_cancel_and_timeout` (781-804) and a caller may do to any of them.
  A handshake succeeds or fails; a transport is live until it dies. Which errors a list retries is the `Reply`
  (crates/openalpaca_mcp/src/error.rs:112-120).
- `PluginStore.SwapOut` and `SwapIn` are `replace_with` with `write_marker` and `Staged`
  (crates/openalpaca_plugins/src/install.rs:458-500, 775-845), `Recovery` is `recover_swap` and the uninstall's move
  (906-936; crates/openalpaca_plugins/src/manager.rs:2278-2340), and a boot runs `Recover` for every marker
  (crates/openalpaca_plugins/src/manager.rs:437-490). A marker write is not atomic: `Torn` puts any part of its line
  on disk. `ghost` fields of the store (`whole`, `stood`, `last`, `names`) are history, for stating properties.

What the code does and its documentation does not say:

- A sealed client does not always report `Disconnected`: `reconnect` writes `Failed` (client.rs:599) and
  `Reconnecting` (client.rs:627) without the service guard. It never reports `Connected` and never holds a service.
  `McpClientReports.ReportsOtherwiseExactlyWhen` says exactly from which states it can be made to report something
  else, and `SealedClientReportsOtherwise` is a run in which it does.
- The attempt counter is a `u32`. `max_reconnect_attempts` bounds the reconnects between two resets exactly until
  2^32 have been asked for, where the counter of a release build is back at 0
  (`McpClientRuns.ReconnectsAreBounded`); `McpClientReports.BoundIsPassed` is a run that gets there, and
  `ListBoundIsPassed` one in which a list loop sends more requests than it otherwise may.
- `backoff_for_attempt` is documented as `base * 2^(attempt-1)`, capped. Its shift is clamped at 20, so this holds
  for every attempt exactly when the base is zero or `base * 2^20` reaches the cap (`Backoff.DoublesExactlyWhen`);
  it does for every cap of up to 2^20 ms, the default of 1600 ms included.
- Plugin ids may hold dots (crates/openalpaca_plugins/src/manager.rs:2877-2886), so a plugin may be named as another
  one's trash entry is, and then something. A marker whose write failed can then be read as naming the other's tree,
  and after an uninstall cut short by a crash recovery moves it. Over given trash names each tree stays its own
  plugin's, and a restart finds every plugin, in every run exactly when no plugin's name begins another's
  (`PluginStoreLimits.TreesStayHomeExactlyWhen`, `PluginsAreFoundExactlyWhen`). No tree is lost even so
  (`PluginStoreTheorems.EveryTreeIsKept`), and no report is false (`PluginStoreReports.ReportsAreTrue`).
- A rename may put a directory in the place of an empty one, so a directory put at a plugin's name between the look
  and the rename may be lost when it is empty; everything else that ever stood there is kept, in every run
  (`PluginStoreLimits.TreesAreKeptExactlyWhen`).
- Masking literals twice is masking them once exactly when the second scan, which meets the closing quote of an
  escaped char literal without the backslash before it, comes back into step unharmed
  (`RustMaskTwice.LiteralMaskIsIdempotentExactlyWhen`); it does where there are no such literals. Masking comments
  twice is always masking them once.

## Model

| member | source | states |
|---|---|---|
| McpClientSafety.ExclusiveStep | crates/openalpaca_mcp/src/client.rs:363-402 | no event of any task lets two tasks hold one lock, readers of the state apart |
| McpClientSafety.AcquiresUpwards | crates/openalpaca_mcp/src/client.rs:734-758 | whatever a suspended task holds comes before what it waits for in the order reconnect lock, service, change sender, state |
| McpClientSafety.NoCircularWait | crates/openalpaca_mcp/src/client.rs:537-563 | no state has a closed chain of tasks each waiting for a lock the next one keeps from it |
| McpClientSafety.Progress | crates/openalpaca_mcp/src/client.rs:734-758 | while any task is in flight some task can go on, without a drop or a deadline |
| McpClientSafety.SealIsForGood | crates/openalpaca_mcp/src/client.rs:363-402 | no stretch of any task unseals a client, publishes under the seal, restores a cut change channel, or undoes a disconnect's taking of the service |
| McpClientSafety.SealedStep | crates/openalpaca_mcp/src/client.rs:537-563 | the close seal's invariant is kept by every event: under the seal nothing is published and the slot only emptied, a taken slot stays empty, a client once down is never connected |
| McpClientSafety.AccountedStep | crates/openalpaca_mcp/src/client.rs:363-402 | every live transport is in the slot or in the hands of exactly one task, after every event |
| McpClientAttempts.GrantsBounded | crates/openalpaca_mcp/src/client.rs:595-606 | of `asked` reconnects since a reset at most `max` are granted exactly while `asked` is below 2^32 |
| McpClientAttempts.CountedStep | crates/openalpaca_mcp/src/client.rs:595-606 | every event keeps the number granted equal to the closed form over the wrapping counter, and a list loop's requests within the reconnects it was granted and one |
| McpClientRuns.EveryState | crates/openalpaca_mcp/src/client.rs:298-804 | every state of every run keeps exclusion, shape, seal, accounting of transports and counting |
| McpClientRuns.SealedForGood | crates/openalpaca_mcp/src/client.rs:537-563 | from the instant a client is sealed no service is published or installed; once a disconnect has taken the service the slot stays empty; once it has written its state the client is never `Connected` again and its change channel stays cut |
| McpClientRuns.LateServiceIsClosed | crates/openalpaca_mcp/src/client.rs:363-402 | a service handshaken under the seal is never published: while it lives it is held by the task that will be refused or is closing it |
| McpClientRuns.NoOrphan | crates/openalpaca_mcp/src/client.rs:537-563 | when the tasks of a sealed client are done, no transport of it is alive |
| McpClientRuns.ReconnectsAreBounded | crates/openalpaca_mcp/src/client.rs:595-606 | between two resets of the attempt counter at most `max_reconnect_attempts` reconnects are granted, in any interleaving, exactly until the counter wraps |
| McpClientRuns.ListLoopIsBounded | crates/openalpaca_mcp/src/client.rs:639-672 | a list loop during which nobody resets the counter sends at most one list request more than the reconnects granted since, and so at most `max_reconnect_attempts + 1` while fewer than 2^32 have been asked for |
| McpClientRuns.EveryStateOfCalls | crates/openalpaca_mcp/src/client.rs:675-758 | with no list loop about, at most one transport is alive and a respawning task is alone with it |
| McpClientRuns.OneRespawner | crates/openalpaca_mcp/src/client.rs:734-748 | two calls are never respawning at once |
| McpClientRuns.RespawnFindsNothingLive | crates/openalpaca_mcp/src/client.rs:734-758 | a call that finds no live service under the reconnect lock respawns only when every transport the client opened is dead |
| McpClientRuns.RespawnsOnlyTheDead | crates/openalpaca_mcp/src/client.rs:620-636 | with calls only, from the decision to respawn to the handshake nothing the client opened is alive, and nobody else is respawning |
| McpClientRuns.OneHandshakePerDeath | crates/openalpaca_mcp/src/client.rs:734-758 | with calls only, the service of one successful handshake is dead before the next one succeeds |
| McpClientRuns.LiveServiceIsNeverReplaced | crates/openalpaca_mcp/src/client.rs:398-401 | with calls only, no step takes a live service out of the slot but a disconnect's |
| McpClientRuns.QuietStaysDisconnected | crates/openalpaca_mcp/src/client.rs:576-636 | a disconnected client reports `Disconnected` for good once no reconnect is left to write over it |
| McpClientReports.ReportsOtherwiseExactlyWhen | crates/openalpaca_mcp/src/client.rs:576-636 | in every run, a client put down and reporting `Disconnected` can go on to report something else exactly when some reconnect is past its look at the state and has yet to write it |
| McpClientReports.SealedClientReportsOtherwise | crates/openalpaca_mcp/src/client.rs:595-627 | there is such a run from the first handshake on: a disconnect has written its state, and the client reports otherwise after |
| McpClientReports.BoundIsPassed | crates/openalpaca_mcp/src/client.rs:595-606 | for every configured maximum some run grants more reconnects than that between two resets, the counter having wrapped |
| McpClientReports.ListBoundIsPassed | crates/openalpaca_mcp/src/client.rs:639-672 | for every configured maximum some run has a list loop, the counter not reset since it began, that sends a request more than that, the counter having wrapped |
| McpClientRespawns.CallIsSentOnce | crates/openalpaca_mcp/src/client.rs:689-729 | in every run a call has sent one request once it waits for its answer and none before, over a service that was published, and never sends it again |
| McpClientRespawns.CallRespawnsExactlyWhen | crates/openalpaca_mcp/src/client.rs:734-748 | in every state of every run, a call whose pre-send check is not done can by its own steps come to send its one request over a new connection, live, in the slot and reported `Connected`, exactly when no service lives in the slot and the guards of `reconnect` (seal, state, counter) let it |
| McpClientRespawns.ListRespawnsExactlyWhen | crates/openalpaca_mcp/src/client.rs:639-672 | so can a list waiting for its answer, its request failing as retriable, exactly when those guards let it |
| McpClientReports.EndedDisconnectLeaves | crates/openalpaca_mcp/src/client.rs:537-563 | in every run a disconnect that ends without being dropped has sealed the client, emptied its slot, cut its channel and left it not `Connected` |
| McpClientReports.DisconnectTakesDown | crates/openalpaca_mcp/src/client.rs:537-563 | from every state of every run a disconnect left to itself gets there, with no transport left alive, reporting `Disconnected` unless it had already written that |
| ChangeListener.Listener.Forward | crates/openalpaca_mcp/src/client.rs:1232-1246 | a change is sent exactly while the client is there, and says whether it was |
| ChangeListener.Listener.Drain | crates/openalpaca_mcp/src/client.rs:1190-1228 | a stream's list changes are forwarded in order, cut when the client goes; how it stopped is told apart |
| ChangeListener.Listener.Listen | crates/openalpaca_mcp/src/client.rs:1066-1177 | one stream, and a second exactly when the first was cut before its acknowledgment, or opened and ended, not failed, with connection and client alive; what is forwarded is, for each acknowledged stream in turn, first one tool refresh if tools were asked for and then its list changes, up to the client's going |
| ChangeListener.EachIsHeard | crates/openalpaca_mcp/src/client.rs:1190-1228 | wherever a list change stands in a stream it is forwarded in its place, and nothing else is |
| ChangeListener.PrefixSays | crates/openalpaca_mcp/src/client.rs:1190-1228 | what is forwarded of part of a stream is the beginning of what is forwarded of all of it |
| Marker.WholeMarkerReadsName | crates/openalpaca_plugins/src/install.rs:836-845 | a marker written whole reads back as the trash name it was written for |
| Marker.TornMarkerReadsPrefix | crates/openalpaca_plugins/src/install.rs:906-922 | however much of the line reached the disk, recovery reads nothing or a beginning of the name |
| Marker.TornMarkerReads | crates/openalpaca_plugins/src/install.rs:906-922 | some part of a marker's line reads as a given trash name exactly when the marker's own name begins with it |
| PluginStoreSafety.SoundStep | crates/openalpaca_plugins/src/install.rs:745-832 | every event keeps only whole trees at plugin names and in the trash, each directory in one place |
| PluginStoreSafety.StagedStep | crates/openalpaca_plugins/src/install.rs:458-500 | every event keeps this process's finished staging copies whole and its unfinished ones out of the swap |
| PluginStoreSafety.NothingLostStep | crates/openalpaca_plugins/src/install.rs:699-712 | no event makes a directory that ever stood at a name leave both the names and the trash, unless it was an empty one |
| PluginStoreJobs.DotlessNamesAreApart | crates/openalpaca_plugins/src/install.rs:708-712 | trash names of ids without a dot never begin one another |
| PluginStoreTheorems.DotlessRunsAreApart | crates/openalpaca_plugins/src/install.rs:708-712 | in a run whose trash names are all of ids without a dot, no plugin's name begins another's |
| PluginStoreJobs.DottedNamesMayMeet | crates/openalpaca_plugins/src/install.rs:708-712 | of ids with dots they may: for any two stamps there are two ids whose names do |
| PluginStoreJobs.OwnCall | crates/openalpaca_plugins/src/install.rs:775-832 | however a job's I/O call ends, what the job knew (where its incumbent is, what its marker says) it knows at its next call |
| PluginStoreJobs.OtherCall | crates/openalpaca_plugins/src/install.rs:775-832 | a call of a job that knows what it should changes neither the name, nor the marker, nor the trashed trees of another plugin |
| PluginStoreRuns.RecoveryIsIdempotent | crates/openalpaca_plugins/src/install.rs:906-936 | recovering twice is recovering once |
| PluginStoreRuns.RecoveryUndoesNothing | crates/openalpaca_plugins/src/install.rs:906-936 | with the name taken, as after a commit that landed, recovery moves no tree |
| PluginStoreRuns.RecoveryRestores | crates/openalpaca_plugins/src/install.rs:906-936 | from what the jobs keep, recovery leaves at the name, whole, the directory that last stood there |
| PluginStoreTheorems.EveryTreeIsKept | crates/openalpaca_plugins/src/install.rs:699-832 | over every run of installs, updates, uninstalls, crashes and recoveries, every tree that ever stood at a plugin's name, unless an empty directory, is whole at a name or in the trash |
| PluginStoreLimits.TreesAreKeptExactlyWhen | crates/openalpaca_plugins/src/install.rs:460-482 | a content is kept in every run exactly when it is not the empty directory; the run that loses one puts it at a new plugin's name before the commit's rename |
| PluginStoreTheorems.EveryTreeIsAtHome | crates/openalpaca_plugins/src/install.rs:699-832 | in runs without uninstalls, or in which no plugin's trash name begins another's, it stands at its own plugin's name or in the trash under a name drawn for that plugin |
| PluginStoreLimits.MeetingNamesTakeTreesAway | crates/openalpaca_plugins/src/install.rs:906-936 | for any two plugins and names of theirs of which one begins the other there is a run, an update failing while it writes its marker and an uninstall cut short by a crash, after which recovery has moved the one plugin's tree to the other's name |
| PluginStoreLimits.TreesStayHomeExactlyWhen | crates/openalpaca_plugins/src/install.rs:699-936 | over given trash names, where stamps do not run out, every tree stays at home in every run exactly when no plugin's name begins another's |
| PluginStoreLimits.MeetingNamesLosePlugins | crates/openalpaca_plugins/src/install.rs:775-936 | for any two such plugins there is a run, the one's update failing with its tree left in the trash under a whole marker and the other's as before, after which a restart finds neither the old tree nor the new, though the plugin was never uninstalled, and its marker names nothing |
| PluginStoreLimits.PluginsAreFoundExactlyWhen | crates/openalpaca_plugins/src/install.rs:775-936 | over given trash names, where stamps do not run out, each of these holds in every run exactly when no plugin's name begins another's: a restart finds every plugin that stood and was not uninstalled, its whole marker names a tree, its update is all or nothing |
| PluginStoreTheorems.OnlyWholeTreesStand | crates/openalpaca_plugins/src/install.rs:458-500 | what stands at a plugin's name is always a whole tree |
| PluginStoreTheorems.RestartFindsThePlugin | crates/openalpaca_plugins/src/install.rs:906-936 | from any state of a run in which the plugin stands until an uninstall takes it away, wherever the process dies, whatever failed and whatever is done to other plugins, a recovery whose calls succeed leaves at `plugins/<id>`, whole, the directory that last stood there |
| PluginStoreTheorems.OldOrNew | crates/openalpaca_plugins/src/install.rs:775-832 | likewise, unless at first a put-back is under way onto an empty directory, when an update brings only `brought` to the name, a restart at every later state leaves there the old directory or `brought` |
| PluginStoreLimits.AllOrNothingExactlyWhen | crates/openalpaca_plugins/src/install.rs:805-832 | from a state in which the plugin stands, every way to go on is all or nothing exactly when no put-back is under way onto a name that an empty directory has taken since the look |
| PluginStoreLimits.PutBackMayClash | crates/openalpaca_plugins/src/install.rs:805-832 | there are runs that come to such a state |
| PluginStoreTheorems.WholeMarkerNamesATree | crates/openalpaca_plugins/src/install.rs:836-845 | likewise, and at any state of a run without uninstalls, a whole marker names a whole tree still in the trash, the last that stood at the name, unless the name is taken |
| PluginStoreReports.ReportsAreTrue | crates/openalpaca_plugins/src/install.rs:745-832 | over every run of installs, updates, uninstalls, crashes and recoveries, a failed swap reports `incumbent_in_place` exactly when the old tree is at the name |
| PluginsRoot.TrailGoesOn | crates/openalpaca_plugins/src/install.rs:775-936 | what a method does, call by call, goes on a run of the state machine from where it starts, so every disk a crash could leave it at is one of a run |
| PluginsRoot.Root.WriteMarker | crates/openalpaca_plugins/src/install.rs:836-845 | it succeeds exactly when neither of its calls fails; the marker then holds the whole line, after a cut write some of it, and otherwise what it held; nothing else changes but the abandoned staging copy |
| PluginsRoot.Root.TryCommit | crates/openalpaca_plugins/src/install.rs:460-482 | a commit succeeds exactly when it does not fail, the staged copy is there and nobody keeps the name taken; the staged tree is then at the name, and otherwise its copy swept |
| PluginsRoot.Root.ReplaceWith | crates/openalpaca_plugins/src/install.rs:775-832 | for every way its calls may end and whoever takes the name meanwhile: it succeeds exactly when no call up to the commit fails, the staged copy is there and the name stays free, and reports the incumbent in place exactly when it never moved or could go back; on success the staged tree is at the name and the incumbent in the trash, on a failure in place the incumbent is at the name, and otherwise in the trash with its marker kept if the name is free; nothing else is touched, and the code's steps are steps of the state machine |
| PluginsRoot.Root.RecoverSwap | crates/openalpaca_plugins/src/install.rs:906-936 | it restores exactly when the marker is read and names a tree in the trash, the name is free and the rename does not fail, and that tree is then at the name; when each other outcome is reported; the disk is as it was or recovered, up to a marker that could not be removed, and recovering that again gives the same |
| Staging.StagedNameReads | crates/openalpaca_plugins/src/install.rs:977-991 | whatever a plugin, process and stamp, the name a copy is staged under reads back as that process, dots in the plugin's name or not |
| Staging.MarkerIsNoCopy | crates/openalpaca_plugins/src/install.rs:977-991 | a swap marker's name never reads as a staging copy's |
| Staging.StagingDir.SweepStaleStaging | crates/openalpaca_plugins/src/install.rs:948-973 | in whatever order entries come, exactly the directories named for another process go, those that can be removed, and the count is theirs |
| Staging.SweepsOtherProcesses | crates/openalpaca_plugins/src/install.rs:938-973 | a staged copy goes exactly when another process staged it, never one this process is making |
| TreeCopy.AcceptsSplits | crates/openalpaca_plugins/src/install.rs:90-148 | a listing is accepted exactly when all but its last entry is, and then the last, with what the walk has spent by then |
| TreeCopy.Walk.Enter | crates/openalpaca_plugins/src/install.rs:110-123 | a directory is entered exactly when it was not before |
| TreeCopy.Walk.CountEntry | crates/openalpaca_plugins/src/install.rs:125-134 | one entry more, refused exactly over the entry budget |
| TreeCopy.Walk.Charge | crates/openalpaca_plugins/src/install.rs:136-147 | its bytes more, saturating, refused exactly over the byte budget |
| TreeCopy.CopyTree | crates/openalpaca_plugins/src/install.rs:562-636 | the walk succeeds exactly when it accepts the dereferenced unfolding, and then the copy is the unfolding, with as many entries counted and bytes charged as the copy has; it ends on every source, cycles included |
| TreeCopy.CopyEntry | crates/openalpaca_plugins/src/install.rs:587-633 | the same for one entry, through a link or not |
| TreeCopy.UnfoldingMeasures | crates/openalpaca_plugins/src/install.rs:562-636 | where directories list a name once, what a directory's unfolding counts and charges is the number of entries and the total file length of its tree, as defined on trees alone |
| TreeCopy.EntryMeasures | crates/openalpaca_plugins/src/install.rs:587-633 | the same for one entry, a file's content by its length |
| TreeCopy.Stage | crates/openalpaca_plugins/src/install.rs:531-555 | staging succeeds exactly when a new walk accepts the source's unfolding, and copies it: when each directory is entered once and the tree's own entries and total file length are within budget |
| TreeCopyMeaning.OrderDoesNotMatter | crates/openalpaca_plugins/src/install.rs:581-585 | whatever order directories list in, the copy succeeds or fails alike, with the same tree |
| TreeCopyMeaning.RouteByRoute | crates/openalpaca_plugins/src/install.rs:562-636 | the copy holds at every route exactly what the route leads to in the source, links followed |
| TreeCopyMeaning.OneRouteEach | crates/openalpaca_plugins/src/install.rs:90-148 | where every directory is entered once, one route leads to each |
| TreeCopyMeaning.SecondRouteRefused | crates/openalpaca_plugins/src/install.rs:90-148 | a source with two routes to one directory is refused under every budget |
| TreeCopyMeaning.CycleRefused | crates/openalpaca_plugins/src/install.rs:90-148 | so is a source with a cycle |
| TreeCopyMeaning.UnfoldsExactlyWhen | crates/openalpaca_plugins/src/install.rs:562-636 | a source unfolds exactly when no route leads to a directory over 32 deep, to a node neither directory nor file, or to a name gone or linking out of the root |
| TreeCopyMeaning.SucceedsExactlyWhen | crates/openalpaca_plugins/src/install.rs:562-636 | the copy succeeds exactly when no route is bad, no two routes lead to one directory, and the dereferenced tree's own number of entries and total file length are within budget |
| RustMask.BlankOut | scripts/gen_api_docs.py:66-69 | a range of the buffer becomes spaces, newlines kept, the rest untouched |
| RustMask.SkipBlock | scripts/gen_api_docs.py:83-97 | the index scan finds the end of a nested block comment as the tokenizer does |
| RustMask.SkipString | scripts/gen_api_docs.py:114-127 | and the end of a string's body, an escape stepping over the end of the text included |
| RustMask.ScanOne | scripts/gen_api_docs.py:71-149 | each turn of the loop ends where the next token ends and blanks exactly what a mask hides of it |
| RustMask.MaskRustNoncode | scripts/gen_api_docs.py:49-151 | the in-place scanner, which always ends, returns the rendering of the tokenizer's tokens: code and delimiters kept, comments and, when asked, the insides of literals blanked |
| RustMaskLiterals.RawStringIsOneLiteral | scripts/gen_api_docs.py:98-112 | not after a word character, `b?r`, hashes, a quote, a body in which no quote has that many hashes after it, a quote and as many hashes are one literal whose inside is the body, whatever follows |
| RustMaskLiterals.OpenRawStringRunsOn | scripts/gen_api_docs.py:104-106 | one that is never closed runs to the end of the text |
| RustMaskLiterals.WordOpensNoRawString | scripts/gen_api_docs.py:99 | after a word character the same letters are code |
| RustMaskLiterals.StringIsOneLiteral | scripts/gen_api_docs.py:114-127 | a quote, characters and escapes, escaped quotes included, and a quote are one literal |
| RustMaskLiterals.OpenStringRunsOn | scripts/gen_api_docs.py:114-127 | unclosed, it runs to the end of the text |
| RustMaskLiterals.CharIsOneLiteral | scripts/gen_api_docs.py:129-143 | a plain char between ticks, a brace or a quote included, is one literal, and so is an escaped one, an escaped tick included |
| RustMaskLiterals.LoneTickIsCode | scripts/gen_api_docs.py:144-147 | a tick that closes nothing is one character of code |
| RustMaskLiterals.LineCommentIsOneToken | scripts/gen_api_docs.py:75-80 | a line comment ends before its newline, or with the text |
| RustMaskLiterals.BlockCommentIsOneToken | scripts/gen_api_docs.py:82-96 | a block comment, with whole comments nested in it to any depth, is one comment |
| RustMaskLiterals.ElseIsCode | scripts/gen_api_docs.py:71-149 | what begins with none of these is one character of code |
| RustMaskMeaning.OffsetsKept | scripts/gen_api_docs.py:52-60 | length, every offset and every newline of the text are kept, and no character becomes anything but a space |
| RustMaskMeaning.SameToken | scripts/gen_api_docs.py:98-149 | a token that is not a comment is found again in any blanking of the text that spares it |
| RustMaskMeaning.CommentMaskIsIdempotent | scripts/gen_api_docs.py:49-151 | masking comments twice is masking them once, on every text |
| RustMaskTwice.FoundAgain | scripts/gen_api_docs.py:98-149 | a token other than a comment or an escaped char literal is found again with its inside blanked, whatever of the rest is blanked |
| RustMaskTwice.LiteralMaskIsIdempotentExactlyWhen | scripts/gen_api_docs.py:49-151 | masking literals twice is masking them once exactly when, from the closing quote of an escaped char literal on, past chars that follow each other one blank apart, no backslash and no other character of code with a quote after it comes next |
| RustMaskTwice.NoEscapesRealigns | scripts/gen_api_docs.py:129-147 | so it is on every text without a closed escaped char literal |
| RustMaskTwice.ListDoesNot | scripts/gen_api_docs.py:129-147 | and is not on a list of an escaped and a plain char, whose comma the second pass blanks |
| RustMaskMeaning.BracesAreCode | scripts/gen_api_docs.py:49-151 | a mask shows a brace exactly where the code has that brace |
| RustMaskMeaning.ExtractBraceBlock | scripts/gen_api_docs.py:235-257 | the scan returns the first closing brace at which nothing is open, and the text up to it, or fails when there is none |
| RustMaskMeaning.BlockShutsWhereItMatches | scripts/gen_api_docs.py:235-257 | over the mask, that is exactly the brace of code matching the one of code it started from |
| ToolArguments.StandInIsRecognised | crates/openalpaca_llm/src/tool_arguments.rs:39-55 | the registry reads back from the stand-in exactly the unreadable arguments it stands for |
| ToolArguments.Plain | crates/openalpaca_llm/src/tool_arguments.rs:87-96 | the problem holds no backtick and no control character, and is as long as the message |
| ToolArguments.AlwaysAnObject | crates/openalpaca_llm/src/tool_arguments.rs:69-79 | whatever was sent, a call carries an object |
| ToolArguments.ReadOrRefused | crates/openalpaca_llm/src/tool_arguments.rs:54-79 | past one byte-order mark, a text that says its arguments (blank, `null`, an object, a string of one) is read as saying them; any other becomes the stand-in for its length in bytes, and so never `{}` |
| ToolArguments.SecondBomIsRefused | crates/openalpaca_llm/src/tool_arguments.rs:69-79 | of two byte-order marks only one is dropped, and the text is refused |
| ToolArguments.BomIsDropped | crates/openalpaca_llm/src/tool_arguments.rs:69-79 | one byte-order mark in front changes nothing |
| ToolArguments.ReadsBack | crates/openalpaca_llm/src/tool_arguments.rs:69-123 | a printed value is read back as itself exactly when it is an object |
| ToolArguments.SecondPassChangesNothing | crates/openalpaca_llm/src/tool_arguments.rs:69-123 | what was read, printed and read again stays |
| LlmStream.Gather | crates/openalpaca_llm/src/streaming.rs:60-84 | one event more in the loop's string, maps and counters is one event more on each channel |
| LlmStream.TakeCalls | crates/openalpaca_llm/src/streaming.rs:87-102 | the calls are the started indices in ascending order, with the last start's id and name and the reading of that index's JSON |
| LlmStream.CollectStream | crates/openalpaca_llm/src/streaming.rs:43-113 | the loop returns the response its events mean channel by channel, or, exactly when an item fails, what the first that does says |
| LlmStream.FirstFailureSays | crates/openalpaca_llm/src/streaming.rs:54-84 | a stream fails with what its first failing item says: the provider's message, the transport's error, or the idle timeout's text |
| LlmStream.ResponseToEvents | crates/openalpaca_llm/src/lib.rs:139-167 | a response as its events, in the order the printer pushes them |
| LlmStreamMeaning.UsageIsTheSum | crates/openalpaca_llm/src/streaming.rs:74-79 | each counter of the response is the sum of what the usage events report, modulo 2^32 |
| LlmStreamMeaning.InterleavingChangesNothing | crates/openalpaca_llm/src/streaming.rs:43-113 | streams that say the same on every channel, however interleaved, mean the same response |
| LlmStreamMeaning.RechunkingChangesNothing | crates/openalpaca_llm/src/streaming.rs:43-113 | two deltas of one channel in a row mean what the one they come to means, wherever they stand |
| LlmStreamMeaning.EventsSay | crates/openalpaca_llm/src/lib.rs:139-167 | a response's events say its content, thinking, usage and finish |
| LlmStreamMeaning.CallsComeBack | crates/openalpaca_llm/src/lib.rs:152-161 | its calls come back in their places, each with what its printed arguments are read as |
| LlmStreamMeaning.ComesBack | crates/openalpaca_llm/src/lib.rs:139-167 | collecting a response's events gives it back, parts dropped, exactly when every call's arguments are an object |
| LlmStreamMeaning.CollectedComesBack | crates/openalpaca_llm/src/streaming.rs:87-113 | what was collected once, unreadable arguments included, comes back whole |
| ConfigStore.Store.RemoveOldest | crates/openalpaca_core/src/config_io.rs:288-293 | the loop removes exactly the oldest listed backups over five, those that can be removed, and never touches the file |
| ConfigStore.Store.RotateBackup | crates/openalpaca_core/src/config_io.rs:260-293 | the backups afterwards, whatever of it fails; the file is untouched at every step |
| ConfigStore.Store.WriteLocked | crates/openalpaca_core/src/config_io.rs:158-196 | the disk afterwards whatever fails; between any two steps the file is whole, the old text or the new |
| ConfigStore.Store.AtomicWriteToml | crates/openalpaca_core/src/config_io.rs:82-126 | each refusal is returned exactly when its step refuses, the lock, the read, the parse, the edit or the re-parse, and changes nothing on disk; on success the file is the rendering of what the edit made of the document parsed from the old file (an empty one if there was none), and its reader accepts it; an error leaves the file as it was, and a file its reader accepts is one it accepts at every crash point |
| ConfigStore.Store.CopyUnparseableOnce | crates/openalpaca_core/src/config_io.rs:205-236 | a content already kept is not kept again, what is returned holds the file's content, and earlier copies stay |
| ConfigStore.OneMoreVersion | crates/openalpaca_core/src/config_io.rs:260-293 | one more version pushes out the oldest, if there were five |
| ConfigStore.LastFiveVersionsAreKept | crates/openalpaca_core/src/config_io.rs:260-293 | from no backup, any replacements with rising stamps and no backup error leave exactly the last five versions replaced, or all of fewer, each under its stamp |
| CronJobs.JobIdOfSkill | apps/openalpacad/src/scheduled_skills.rs:41-48 | a job id parses as a skill exactly when it is that skill's id |
| CronJobs.Scheduler.ScheduleCron | crates/openalpaca_wake/src/scheduler/mod.rs:59-94 | a job is added exactly when its expression is accepted and its id free |
| CronJobs.Scheduler.RemoveJob | crates/openalpaca_wake/src/scheduler/mod.rs:97-110 | the job goes, if there is one, and no other |
| CronJobs.Scheduler.ListJobs | crates/openalpaca_wake/src/scheduler/mod.rs:113-126 | every job and nothing else is listed, strictly in the order of ids, so each once |
| CronJobs.Scheduler.RegisterSkill | apps/openalpacad/src/scheduled_skills.rs:103-134 | a skill's job is added exactly when it has an accepted expression and no job yet |
| CronJobs.Scheduler.RemoveSkillJobs | apps/openalpacad/src/scheduled_skills.rs:58-64 | no skill's job is left, and every other job is |
| CronJobs.Scheduler.SyncAll | apps/openalpacad/src/scheduled_skills.rs:55-81 | the jobs are one for each catalog skill with an accepted expression while enabled, none while not, all other jobs untouched; the count is of those registered |
| CronJobs.Scheduler.ResyncSkill | apps/openalpacad/src/scheduled_skills.rs:86-97 | one skill's job is dropped and made again from the catalog, when it is enabled and wanted |
| CronJobs.ResyncKeepsSync | apps/openalpacad/src/scheduled_skills.rs:86-97 | after a skill's edit, re-syncing that one leaves what a full re-sync would |
| CronJobs.AlwaysInSync | apps/openalpacad/src/scheduled_skills.rs:41-134 | after any sequence of edits each re-synced, kill-switch flips and other parties' jobs, the table is exactly one job per wanted skill while enabled, none while not, and the others' jobs as they left them |
| CronJobs.ResyncAllChangesNothing | apps/openalpacad/src/scheduled_skills.rs:55-81 | so a full re-sync at any moment would change nothing |
| JsonEscape.JsonWithHiddenEscaped | apps/openalpaca/src/output.rs:121-138 | the loop writes each hidden character but the newline as escapes of its UTF-16 units, and every other as it is |
| JsonEscape.NothingHidden | apps/openalpaca/src/output.rs:121-138 | no hidden character but the newline is left, whatever the text |
| JsonEscape.OthersStay | apps/openalpaca/src/output.rs:121-138 | a newline stays a newline, and what is not hidden stays what it is, wherever it stands |
| JsonEscape.EscapesRead | apps/openalpaca/src/output.rs:126-132 | a character's escapes read in a string as the character itself, surrogate pairs included |
| JsonEscape.ReadsTheSame | apps/openalpaca/src/output.rs:107-138 | a reader of the escaped text sees what it saw of the text exactly when no hidden character stands outside its strings |
| LikeEscape.EscapeLike | crates/openalpaca_storage/src/sql.rs:7-16 | the loop puts the escape before each of the three metacharacters and nothing else |
| LikeEscape.MatchesOnlyItself | crates/openalpaca_storage/src/sql.rs:3-6 | the escaped needle matches the needle, case aside, and nothing else |
| LikeEscape.MatchesWhatContains | crates/openalpaca_storage/src/sql.rs:3-6 | with `%` on both sides it matches exactly the texts that contain the needle |
| Backoff.DoublesExactlyWhen | crates/openalpaca_mcp/src/lifecycle.rs:83-95 | the documented formula holds for every attempt exactly when the base is zero or twenty doublings reach the cap |
| Backoff.DoublesUpToCap | crates/openalpaca_mcp/src/lifecycle.rs:87-95 | it holds for every attempt, every base and every cap of up to 2^20 ms |
| Backoff.DoublesByDefault | crates/openalpaca_mcp/src/lifecycle.rs:105-106 | and so with the default cap |
| Backoff.DiffersOnceClamped | crates/openalpaca_mcp/src/lifecycle.rs:91-94 | where they do not, the 22nd attempt waits less than the formula says |
| Backoff.NeverLessNeverMore | crates/openalpaca_mcp/src/lifecycle.rs:87-95 | later attempts never wait less, and none waits longer than the cap, whatever the cap |

## Left out

- The MCP client is a state machine over values and not a class, since its methods run interleaved: an await is a
  step boundary, and dropping a task drops the service it holds.
- `ping`, `list_tools_once`, `connection_state`, the exit observer, connection events and peer information: they read,
  or announce what is modelled.
- The SDK, JSON-RPC, child processes, HTTP and the handshake's own steps: a handshake succeeds or fails.
- A cancel token and a call's timeout are one event, a deadline, that may come at any await it covers.
- A debug build panics where a counter overflows; the model wraps as a release build does (attempt counter, usage sums).
- ChangeListener.Listener.Listen: how often the channel can be reached before the client goes stands for the moment it
  goes, and a receiver dropped earlier is not told apart from one that listens.
- PluginsRoot.Root.RecoverSwap: nobody puts a directory at the name between its look and its rename; the runs of
  `PluginStore` have that.
- Fsync and the reordering of writes at power loss: a crash stops between two steps.
- The copy of a tree writes its destination step by step; the model copies a readable source into a value, leaves out
  I/O errors of the destination, and lets the staging copy be anything until it is done.
- The plugin data directory's own trash move, the manifest and the consent that an update drops.
- PluginStoreTheorems.EveryTreeIsAtHome: with uninstalls, only for trash names none of which begins another plugin's,
  since over any others it fails in some run.
- PluginStoreTheorems.RestartFindsThePlugin: the same premise, for the same reason.
- PluginStoreTheorems.OldOrNew: the same premise, for the same reason; and not from a moment a put-back is under way
  onto a name that an empty directory has taken, from which it may fail.
- PluginStoreTheorems.WholeMarkerNamesATree: the same premise, for the same reason.
- `swap_markers`, which lists the markers a boot recovers; a run of `PluginStore` may recover any plugin at any time,
  and its sweep may take any staging entry that is not this process's.
- `extract_route_calls`, `extract_wrapped_types`, `split_top_level` and the Markdown generators: regular expressions
  with approximations. Which non-ASCII characters are alphanumeric is a parameter of the scanner.
- `read_tool_arguments_field`: the same reading, of a field a server sent unencoded.
- JSON parsing and printing are a pair of functions of which only what is stated in `ToolArguments.Lawful` is assumed;
  TOML parsing, cron syntax and the set of hidden characters are parameters.
- UnreadableArguments.of accepts further keys inside the stand-in, so only the direction from `to_arguments` is stated.
- Stamps are numbers that rise; their text form, and the age order of names, are not modelled.
- ConfigStore.Store.CopyUnparseableOnce: two copies may agree when an earlier one was cut short.
- The scheduler's own job ids and its timer: adding and removing fail only for a bad expression, a taken id or a missing one.
- CronJobs.Scheduler.ListJobs: the ids of the jobs, without the rest of each.
- The jitter of the backoff, which is floating-point.
