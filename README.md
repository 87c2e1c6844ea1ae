# Neutron, modelled in Dafny

Neutron (`main.py`) is a small command-line tool that runs shell commands on
a list of Linux servers over SSH, one server and one command at a time. The
`LinuxSSHTool` constructor reads an `ssh` section from `config.cfg` and a
`servers` list from `source.yaml`. The tool then either runs the `commands`
of a task file on every server (batch mode, `execute_task`), or reads lines
at an `ssh>` prompt and runs each line on every server (`interactive_mode`).
Every call goes through `run_command`, which connects, runs the command,
prints a report and closes the client.

This project models the decisions the tool makes around that I/O. It works
on values the YAML loader has already parsed, and it treats what the SSH
library does as an outcome given to the model:

- `values.dfy`: YAML scalars and mappings, Python truthiness, and the two
  forms of `dict.get`. `Inventory.DefaultPort` (`config.get('port', 22)`)
  and `Batch.CommandsOf` (`.get('commands', [])`) are definitions built on
  them. The contracts of `NormalizeEntry` and `ExecuteTask` state what
  they give.
- `config.dfy`: the validation in `load_config`, and the choice between key
  file, password or no credential.
- `inventory.dfy`: the normalisation loop of `load_servers`.
- `tool.dfy`: the constructor, which loads the configuration and then the
  server list, and the server lookups (`server['host']`, `server['port']`).
- `command.dfy`: `run_command`. This covers the keyword arguments of
  `connect`, the printed report blocks, and the client calls, in which
  `close` comes last and happens exactly once. It also holds the log of a
  whole run: its calls, their reports and the client calls.
- `grid.dfy`: row-major positions, used to say which call comes where.
- `batch.dfy`: `execute_task`, modelled as a nested loop and a plan function
  that gives its calls in server-major order.
- `text.dfy`: Python's `str.strip()` and the case-insensitive test against
  `exit`/`quit`.
- `interactive.dfy`: the prompt loop, modelled as a loop over input events
  (a line, or Ctrl-C), and a plan function that gives its calls line by
  line.

The transport is a function `network: nat -> TransportOutcome`, giving the
outcome of the n-th call of the run. An outcome is either "raised", at
`connect` or at `exec_command`, or "ran" with the decoded and stripped
stdout and stderr.

Some facts about `main.py` that the model keeps:

- `main.py` makes its calls strictly sequentially. It keeps no per-host
  working directory, and SSH is its only transport.
- A configuration with neither `key_path` nor `password` is accepted.
- A record entry without `host` is accepted at load time. It fails only when
  a dispatch loop reaches it.
- An empty server list is accepted.
- A `key_path` that is truthy but not a string (a number, `true`) makes
  `os.path.expanduser` raise `TypeError` before `connect`. The handler in
  `run_command` prints a connection error and `close` is still called, but
  no call of the run connects.

Some paths end with an exception:

- In batch mode, a server without `host` raises `KeyError` at its first
  call. The handler around both loops catches it, so no further call is
  made and "Task execution failed" is reported (`BatchRun.failed`).
- In interactive mode the same `KeyError` is not caught, and neither is
  `EOFError` at the end of input. Both end the process; the model records
  them as the endings `MissingAddress` and `EndOfInput`.
- Ctrl-C at the prompt leaves the loop normally (`Interrupted`).

## Model

| member | source | states |
|---|---|---|
| Config.LoadConfig | main.py:23-31 | Rejected as missing user exactly when the `ssh` entry is absent or null, or `user` is absent or falsy. An empty section is one such case. Rejected as conflicting exactly when both `key_path` and `password` are truthy. Otherwise the section is accepted unchanged and has a `user` key. |
| Config.AcceptedConfigUsesItsCredential | main.py:28-75 | On an accepted configuration, a key path is chosen iff `key_path` is truthy, the password iff `password` is truthy, and no credential iff neither is. |
| Config.AuthOf | main.py:72-75 | A key path is chosen iff `key_path` is truthy (a usable key file iff it is a string), a password iff `key_path` is falsy and `password` truthy, and no credential iff both are falsy. Each choice carries the configured value. |
| Config.KeyFileHidesPassword | main.py:24-29 | With both credentials, the key-file-first rule never picks the password. Validation rejects such a configuration: as conflicting credentials when it names a user, as a missing user otherwise. |
| Inventory.NormalizeEntry | main.py:44-49 | A bare host name becomes exactly `{host, port}`, with the configured `port` if that key is present (whatever its value) and 22 otherwise. A record keeps every field and its own `port` if present; otherwise it gains the default port. Only entries that are neither strings nor mappings fail. |
| Inventory.NormalizeIdempotent | main.py:47-49 | A normalised server, normalised again under any configuration, is unchanged. |
| Inventory.LoadServers | main.py:43-50 | Succeeds iff no entry is malformed. Output i is the normalisation of entry i, so length and declaration order are kept. On failure it reports the first malformed entry. |
| Neutron.Startup | main.py:11-15 | The server list is read only after the configuration is accepted. A rejected configuration ends startup with its reason. On success the configuration is the accepted section and the servers are the entries normalised with it. With an accepted configuration and a malformed entry, the failure is a server-list failure naming the first malformed entry. |
| Neutron.Reachable | main.py:103 | The number of leading servers whose `host` and `port` lookups succeed. The server just after them, if any, fails the lookup. |
| Command.ConnectParams | main.py:65-75 | Building the `connect` arguments fails iff `key_path` is truthy and not a string. Otherwise the arguments hold hostname, port and username. They also hold `key_filename` iff `key_path` is truthy, else `password` iff `password` is truthy, never both, with the configured values, and no other key. |
| Command.BuildConnectParams | main.py:65-75 | Building the arguments step by step, as `run_command` does, gives exactly ConnectParams. |
| Command.Report | main.py:62-91 | A report starts with the connection banner. It is the banner and a connection error, and nothing more, iff building the arguments or the transport raised. Otherwise it has exactly one block per non-empty stream, or one "no output" block when both are empty. Output comes right after the banner and the error block comes last. |
| Command.PrintStreams | main.py:83-88 | The three tests print the blocks of Report for a call that ran, in the same order. |
| Command.CallEvents | main.py:73-93 | A call closes its client exactly once, and `close` comes last. It connects once, first, iff its arguments could be built. `exec_command` happens iff it connected and `connect` did not raise. |
| Command.RunCommand | main.py:56-93 | One `run_command` prints exactly the Report and makes exactly the client calls of CallEvents for its outcome. |
| Command.Perform | main.py:122 | Each `run_command` issued by a loop appends the call to the run, and the next transport outcome's report and client calls to the log. |
| Command.TranscriptPaired | main.py:58-93 | Over any run of n calls, whatever the transport does, `close` is called exactly n times. `connect` is called n times, or never when the key path is unusable. |
| Batch.BatchPlan | main.py:99-106 | The batch fails iff there is a command and some server lacks a host or port. Without commands (no `commands` key) no call is made. |
| Batch.BatchComplete | main.py:101-103 | When every server has a host, the batch completes and makes the server-major calls. |
| Batch.BatchStopsAtMissingHost | main.py:101-106 | When some server has no host and there is a command, the batch fails. It has then run every command on the servers before that one, and made no other call: Reachable × c calls for c commands. |
| Batch.BatchOrder | main.py:101-103 | When every server has a host, the batch makes one call per server and command. With c commands, call i × c + j runs command j on server i. |
| Batch.RunOnServer | main.py:102-103 | The inner loop runs every command on one server, in file order. Before any call it fails iff there is a command and the server lacks a host. |
| Batch.ExecuteTask | main.py:95-106 | The nested loop makes exactly the calls of BatchPlan and fails exactly when it does. Without a `commands` key it makes no call and does not fail. The log holds their reports and client calls. `close` is called once per call, and `connect` once per call unless the key path is unusable. |
| Text.Strip | main.py:117 | `strip()` keeps one contiguous piece of the line and removes only whitespace. The result neither starts nor ends with whitespace. It is empty iff the line is all whitespace, and a line without surrounding whitespace is kept. |
| Text.StripIdempotent | main.py:117 | Stripping a stripped line changes nothing. |
| Text.ExitTokenSpelling | main.py:118 | A line is an exit token iff each of its characters is the lower- or upper-case letter of `exit` at that position, or each is that of `quit`. So every mix of case is accepted and nothing else is. |
| Text.ExitTokenExamples | main.py:118 | `exit`, `QUIT` and `eXiT` end the loop; the empty line, `exit now` and `quit!` do not. |
| Text.ExitTokenIgnoresCase | main.py:118 | The exit test gives the same answer for two lines that agree up to case. An exit token has four characters. |
| Interactive.SessionPlan | main.py:115-126 | The session ends on a server without a host iff some line is dispatched and some server lacks a host. Otherwise it ends as the event after the dispatched lines says: end of input, interrupt or exit. Without a dispatched line it makes no call. |
| Interactive.SessionStopsAtMissingHost | main.py:121-122 | When some server has no host, the first dispatched line runs on the servers before it, and the session then ends on the uncaught KeyError. Without a dispatched line, no call is made and the first event decides the ending. |
| Interactive.Dispatches | main.py:115-122 | The commands sent to the servers are the stripped lines before the first interrupt or exit token, in order. The event after them is an interrupt or an exit token. |
| Interactive.ExitTokenStops | main.py:117-119 | A first line that strips to `exit` or `quit`, in any case, ends the session with no call. |
| Interactive.BlankLineDispatched | main.py:117-122 | A blank line is not an exit token. It is sent as the empty command. |
| Interactive.SessionCalls | main.py:115-126 | When every server has a host, the session runs the dispatched lines one after the other on every server. It ends as the event after them says: end of input, interrupt or exit. |
| Interactive.SessionOrder | main.py:115-126 | When every server has a host, the session makes one call per dispatched line and server. With s servers, call k × s + i runs dispatched line k on server i, and nothing after the first exit token or interrupt runs. |
| Interactive.FanOutCommand | main.py:121-122 | The inner loop runs the command on the servers in order. It completes iff every server has a host; otherwise it stops at the first server without one. |
| Interactive.InteractiveMode | main.py:108-126 | The prompt loop makes exactly the calls of SessionPlan and ends as it says. The log holds their reports and client calls. `close` is called once per call, and `connect` once per call unless the key path is unusable. |

## Left out

- Reading and parsing the YAML files (`open`, `yaml.safe_load`). The model
  starts from parsed values. A truthy `ssh` entry that is not a mapping
  (`ssh: "x"`, `ssh: [1]`) is not represented. `main.py` fails on it with
  `AttributeError` at line 24 and exits with status 1, as for any rejected
  configuration. A document that is not a mapping, a
  `servers` or `commands` value that is not a list, nested values inside a
  record, and YAML floats (`port: 22.0`, or `password: 0.0`, which is
  falsy) are not represented.
- The SSH library: the client object, the host-key policy, and what
  `connect` and `exec_command` do on the network. What a call did is the
  `TransportOutcome` given to the model.
- Decoding the output streams and stripping them: outcomes arrive as
  decoded, stripped strings.
- The text and colours of what is printed, and the banner of the prompt.
  The model records which report blocks appear, not their wording.
  Exception messages inside "Connection error" are not modelled.
- Command.ConnectParams: for a string `key_path`, the `~` expansion of
  `os.path.expanduser` is not modelled, so `key_filename` holds the path as
  configured. Its refusal of a non-string path is modelled.
- `sys.exit(1)`: a failed startup is a `StartupError` value.
- Reading a line with `input()`: the prompt loop is given the sequence of
  input events.
- Ctrl-C while a command is running. Only Ctrl-C at the prompt is
  modelled.
- Exceptions other than those named above, such as a non-string command in
  a task file.
- Choosing the mode from the command-line arguments (main.py:129-135).
- Inventory.LoadServers: the source writes the port into the record dict it
  was given, in place. The model builds a new record, so aliasing of that
  dict is not represented.
- Text.ExitTokenIgnoresCase: `lower()` is modelled on ASCII letters only.
  No other character lower-cases to a single letter of `exit` or `quit`.
  U+0130, for instance, lowers to two characters, which makes the line too
  long to match. So the exit test is unaffected.
