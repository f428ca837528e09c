# LSP manager model

A Dafny model of Spyder's language-server manager, the `LSPManager` class in
`spyder/plugins/editor/lsp/manager.py`. The manager keeps one record per
language in `clients`, holding a status (`STOPPED` or `RUNNING`), a server
configuration and an optional client instance. It also keeps a queue of file
registrations per language in `register_queue`, and the plugin types to
replay into new instances in `lsp_plugins`. It starts, stops, restarts and
reinitialises clients, routes requests and file registrations to them, and
reconciles its records with the `lsp-server` configuration section.

The project has six modules:

- `LspTypes` (`lsp_types.dfy`) holds the values:
  - records, configurations and instances;
  - the calls the manager makes on an instance (`Event`);
  - everything it reads from outside (`Env`): the `CI` and
    `SPY_TEST_USE_INTROSPECTION` environment variables, the active project
    path, the `lsp_root_path` configuration directory, `getcwd_or_home()` and
    `select_port`.
- `Lifecycle` (`lifecycle.dfy`) gives the manager's state as a value:
  - the dictionaries, plus the order languages were first recorded (Python
    dictionaries iterate in insertion order);
  - the calls made so far on instances;
  - the bookkeeping invariant `Wf`;
  - one function per method of the class, and the lemmas that state what the
    source promises.
- `Manager` (`manager.dfy`) is the class itself. Its fields are the
  dictionaries, and its methods update them in place, with the loops of the
  source. Each method is proved to leave the object in exactly the state the
  matching `Lifecycle` function computes. Each method also preserves
  `Valid()`, which is `Wf` of the fields.
- `PythonConfig` (`python_config.dfy`) covers two pure parts of
  `generate_python_configuration`:
  - the `LOCALHOST` rule for `args` and `external`;
  - the comma-separated option strings that become lists of stripped names.
- `DrainAsWritten` (`drain_finding.dfy`) models `start_client` exactly as
  written (see Findings).
- `SeqFacts` (`seq_facts.dfy`) holds a sequence fact the other modules share.

The model keeps these behaviours of the code:

- `start_client` returns whether the client was *already running*, so a
  start that takes a stopped client to running returns false.
- `close_client` keeps the instance in the record, so a stopped client can
  still hold an instance. After a close, a file registration goes to the
  stopped instance instead of the queue (`Lifecycle.RegisterAfterClose`).
  The invariant `Wf` states that a running client has an instance, and that
  entries are queued only while there is no instance.
- When an update of the configuration needs no restart, the record keeps its
  old configuration. Only the plugin configurations are sent to a running
  client.

## Model

| member | source | states |
|---|---|---|
| Lifecycle.InitFrom | spyder/plugins/editor/lsp/manager.py:39-59 | the state built from the configured options satisfies the bookkeeping invariant, with no plugin types and no calls made |
| Lifecycle.InitFromKnown | spyder/plugins/editor/lsp/manager.py:53-59 | after construction a language has a record exactly when some option names it |
| Lifecycle.InitFromRecord | spyder/plugins/editor/lsp/manager.py:53-59 | each such record is stopped, has no instance, holds the configuration of an option for that language, and its queue is empty |
| Manager.LSPManager.constructor | spyder/plugins/editor/lsp/manager.py:39-59 | the fields hold exactly `Lifecycle.InitFrom(options)` and the object is valid |
| Lifecycle.GetRootPath | spyder/plugins/editor/lsp/manager.py:72-100 | a non-empty active project path wins; otherwise `lsp_root_path` for python and the current directory or home for any other language |
| Lifecycle.RegisterPluginType | spyder/plugins/editor/lsp/manager.py:61-62 | the plugin type maps to the signal, the other plugin types and everything else are unchanged, and the invariant is preserved |
| Manager.LSPManager.RegisterPluginType | spyder/plugins/editor/lsp/manager.py:61-62 | updates the fields as `Lifecycle.RegisterPluginType` says and keeps the object valid |
| Lifecycle.RegisterFile | spyder/plugins/editor/lsp/manager.py:64-70 | an unknown language changes nothing; with no instance the entry is appended to the language's queue and no call is made; with an instance exactly one registration call is made and no queue changes; the invariant is preserved |
| Manager.LSPManager.RegisterFile | spyder/plugins/editor/lsp/manager.py:64-70 | updates the fields as `Lifecycle.RegisterFile` says and keeps the object valid |
| Lifecycle.StartClient | spyder/plugins/editor/lsp/manager.py:116-154 | returns true exactly when the client is known, not suppressed by `CI`, and already running. An unknown, suppressed or running client leaves everything unchanged. A stopped one ends running, with a port chosen by `select_port` unless external, and an instance built from that configuration, the root path and every plugin type. Exactly one start call is made, followed by one registration call per queued entry in queue order. The queue ends empty, other languages are untouched, and the invariant is preserved |
| Manager.LSPManager.StartClient | spyder/plugins/editor/lsp/manager.py:116-154 | replays the plugin types and drains the queue in loops; the fields and the result equal `Lifecycle.StartClient` |
| Lifecycle.StartIdempotent | spyder/plugins/editor/lsp/manager.py:116-131 | after a start outside CI the client is running, and a second start changes nothing and returns true |
| Lifecycle.QueueThenDrain | spyder/plugins/editor/lsp/manager.py:64-70 | files registered while a client has no instance reach it when it starts, after the entries already queued and in submission order, and the queue ends empty |
| Lifecycle.Registrations | spyder/plugins/editor/lsp/manager.py:151-153 | one registration call per queued entry, in queue order, with the entry's file name and signal |
| Lifecycle.CloseClient | spyder/plugins/editor/lsp/manager.py:197-205 | an unknown language changes nothing; a known record ends stopped with its configuration and instance kept, and a stop call is made exactly when it was running; the invariant is preserved |
| Manager.LSPManager.CloseClient | spyder/plugins/editor/lsp/manager.py:197-205 | updates the fields as `Lifecycle.CloseClient` says and keeps a valid object valid |
| Lifecycle.RegisterAfterClose | spyder/plugins/editor/lsp/manager.py:64-70 | a file registered after a running client was closed goes to the kept instance, not into the queue |
| Lifecycle.ShutdownEffect | spyder/plugins/editor/lsp/manager.py:156-159 | after shutdown every record is stopped with its configuration and instance kept. One stop call is made per running language, in dictionary order, and each language is stopped once. Queues and languages are unchanged |
| Manager.LSPManager.Shutdown | spyder/plugins/editor/lsp/manager.py:156-159 | closes each language in dictionary order; the fields equal `Lifecycle.Shutdown` of the old ones |
| Lifecycle.UpdateClientStatusEffect | spyder/plugins/editor/lsp/manager.py:192-195 | languages outside the active set end stopped, with one stop call each if they were running, in dictionary order; languages inside it keep their records unchanged |
| Lifecycle.CloseInactiveIsCloseEach | spyder/plugins/editor/lsp/manager.py:192-195 | testing each language against the active set while looping is the same as closing the sublist of inactive languages |
| Manager.LSPManager.UpdateClientStatus | spyder/plugins/editor/lsp/manager.py:192-195 | the loop's effect equals `Lifecycle.UpdateClientStatus` |
| Lifecycle.ReinitializeAllClientsEffect | spyder/plugins/editor/lsp/manager.py:103-114 | only running clients are touched. Each gets an instance whose folder is the current root path, and one reinitialisation call, in dictionary order. Statuses and configurations do not change |
| Lifecycle.ReinitializeAllClients | spyder/plugins/editor/lsp/manager.py:103-114 | reinitialisation preserves the invariant and keeps every running client's instance present |
| Manager.LSPManager.ReinitializeAllClients | spyder/plugins/editor/lsp/manager.py:103-114 | the loop's effect equals `Lifecycle.ReinitializeAllClients` |
| Manager.LSPManager.ReinitializeClient | spyder/plugins/editor/lsp/manager.py:108-114 | a running language's instance gets the current root folder and one reinitialisation call; any other language is left alone (`Lifecycle.ReinitOne`) |
| Lifecycle.SendRequest | spyder/plugins/editor/lsp/manager.py:207-212 | a request call is made exactly when the language is known and running; nothing else changes |
| Manager.LSPManager.SendRequest | spyder/plugins/editor/lsp/manager.py:207-212 | updates the fields as `Lifecycle.SendRequest` says |
| Lifecycle.NeedsRestartIff | spyder/plugins/editor/lsp/manager.py:176-178 | a restart is needed exactly when `cmd`, `args`, `host`, `port` or `external` differ |
| Lifecycle.PluginConfigurationsNeverRestart | spyder/plugins/editor/lsp/manager.py:176-178 | a change confined to the plugin configurations never restarts a server |
| Lifecycle.RestartRunningEffect | spyder/plugins/editor/lsp/manager.py:182-184 | restarting a running client makes exactly one stop call and then one start call, and builds the new instance from the new configuration. Under CI it makes only the stop call and leaves a fresh stopped record. Other languages are untouched |
| Lifecycle.ApplyOption | spyder/plugins/editor/lsp/manager.py:162-190 | for one option: an unsupported option changes nothing. A new language gets a fresh stopped record and an empty queue. With no restart field changed, the records stay and a running client receives the new plugin configurations. With a restart field changed, a stopped record is replaced, and a running client is stopped, replaced and started. The invariant is preserved |
| Lifecycle.ApplyEachKeys | spyder/plugins/editor/lsp/manager.py:161-190 | after the refresh the known languages are the old ones plus every supported option |
| Lifecycle.UpdateServerList | spyder/plugins/editor/lsp/manager.py:161-190 | the refresh preserves the invariant and adds exactly the supported options as languages |
| Lifecycle.Supported | spyder/plugins/editor/lsp/manager.py:163 | a name is supported exactly when it is the lower-cased form of a name in `LSP_LANGUAGES` |
| Manager.LSPManager.UpdateServerList | spyder/plugins/editor/lsp/manager.py:161-190 | the loop over the options has the effect of `Lifecycle.UpdateServerList` |
| Manager.LSPManager.ApplyOption | spyder/plugins/editor/lsp/manager.py:163-190 | one option, with the effect `Lifecycle.ApplyOption` states; a restart of a running client goes through `CloseClient` and `StartClient`, and the object stays valid |
| PythonConfig.PythonServerConfig | spyder/plugins/editor/lsp/manager.py:269-276 | the generated configuration has the given command, host and port. It is external exactly when the host is not in `LOCALHOST`. It has the local launch arguments when the host is local, and none otherwise |
| PythonConfig.GeneratedRestartIff | spyder/plugins/editor/lsp/manager.py:269-276 | two generated configurations need a restart exactly when their command, host or port differ |
| PythonConfig.SplitPieces | spyder/plugins/editor/lsp/manager.py:222-225 | splitting at commas gives one piece more than there are commas, and no piece contains a comma |
| PythonConfig.JoinSplit | spyder/plugins/editor/lsp/manager.py:222-225 | joining the pieces with the separator gives back the option string |
| PythonConfig.SplitJoin | spyder/plugins/editor/lsp/manager.py:244-247 | splitting a join of separator-free names gives back the names |
| PythonConfig.Strip | spyder/plugins/editor/lsp/manager.py:230-233 | the stripped name is a slice of the piece. It neither starts nor ends with whitespace, and all that was cut off on either side is whitespace |
| PythonConfig.StripIdempotent | spyder/plugins/editor/lsp/manager.py:252-255 | stripping twice is stripping once |
| PythonConfig.OptionList | spyder/plugins/editor/lsp/manager.py:222-233 | one stripped name per comma-separated piece, in order |
| PythonConfig.OptionListNames | spyder/plugins/editor/lsp/manager.py:244-255 | every listed name is free of commas and of surrounding whitespace, and there is one name more than commas |
| DrainAsWritten.StartClientAsWritten | spyder/plugins/editor/lsp/manager.py:116-154 | the code as written raises exactly when a stopped client with a non-empty queue is started outside CI. In every other case it agrees with `Lifecycle.StartClient`. When it raises, the client is already running, the start call was made and the queue is untouched |
| DrainAsWritten.LostRegistrations | spyder/plugins/editor/lsp/manager.py:151-153 | the raise loses the queued registrations. No registration call is made, the entries stay queued next to an instance, and the invariant breaks. The next start on that state returns true and changes nothing. After a `close_client` the next start raises again, and the queue is still not drained |
| DrainAsWritten.RaisesAgainAfterClose | spyder/plugins/editor/lsp/manager.py:197-205 | closing a running client whose queue was left non-empty, then starting it as written, raises again after one stop call and one start call, and the queue is untouched |
| DrainAsWritten.OneQueuedFile | spyder/plugins/editor/lsp/manager.py:151-153 | a stopped python client with one file queued makes the call raise |

## Left out

- Qt (`QObject`, the `Slot` decorator) and logging are left out. Signals are opaque values.
- The configuration store `CONF` is not modelled. `CONF.options` and
  `CONF.get` become parameters: the `ServerOption` list given to the
  constructor and `UpdateServerList`.
- `LSP_LANGUAGES` is a parameter of `UpdateServerList`.
- `os.environ`, the main window's projects plugin, `get_conf_path`,
  `getcwd_or_home` and `select_port` are not modelled; their values come in
  through `Env`.
- The `os.mkdir` call that creates `lsp_root_path` when it is missing is not
  modelled.
- `LSPClient` is not part of this model. Its constructor, `start`, `stop`,
  `register_plugin_type`, `register_file`, `initialize`, `perform_request` and
  `send_plugin_configurations` are captured only through the instance value
  the manager builds and through the calls appended to the trace. Failures
  of those calls are not modelled.
- The field `self.requests` is left out. The manager never reads or writes it
  after `__init__`.
- `self.main` is left out; it enters only through the active project in `Env`.
- Lifecycle.Lower: lower-cases ASCII letters only. Python's `str.lower` also
  maps other Unicode letters; the names in `LSP_LANGUAGES` are ASCII.
- Manager.LSPManager.StartClient: plugin types are replayed in whatever order
  the key set yields, not in dictionary order. The order of the
  `register_plugin_type` calls on the instance is not recorded; only the
  resulting plugin map is.
- `start_client` writes the selected port into the same dictionary that the
  record holds as its configuration. This aliasing is modelled as the record
  getting the updated configuration. Other holders of that dictionary are not
  tracked.
- The remaining parts of `generate_python_configuration` are left out:
  - it mutates the module-global `PYTHON_LSP_CONFIG`;
  - it reads its options through `self.get_option`, which this class does not
    define;
  - it builds the plugin dictionaries (pycodestyle, pyflakes, pydocstyle, jedi).
  Only the host rule and the split-and-strip lists are modelled, as pure
  functions of the option strings.
- Concurrency is left out. Every operation runs to completion before the next
  one starts, as on Qt's single owner thread.

## Findings

| source | as written | input that shows it | evidently intended | confidence | as-written member | corrected member |
|---|---|---|---|---|---|---|
| spyder/plugins/editor/lsp/manager.py:151-153 | each queued entry is passed to `register_file` on the record dictionary, which has no such method, so the first entry raises `AttributeError`. By then the client is started and marked running, and the queue is never cleared | start a stopped client, outside CI, with one file queued (`DrainAsWritten.OneQueuedFile`) | hand each entry to the record's instance in queue order, then clear the queue | high; not executed | DrainAsWritten.LostRegistrations | Lifecycle.QueueThenDrain |
