/** `LinuxSSHTool.run_command`: the connection parameters it builds, the
    report blocks it prints for each outcome of the transport, and the
    transport calls it makes, of which `close` is always the last and
    happens exactly once. The SSH library itself is not modelled: what it
    does for one call is a TransportOutcome. */
module Command {
  import opened Values
  import opened Config

  /** One invocation of `run_command(host, port, command)`. */
  datatype Call = Call(host: Scalar, port: Scalar, cmd: string)

  /** Concatenation of call lists regroups freely. */
  lemma Regroup(a: seq<Call>, b: seq<Call>, c: seq<Call>)
    ensures a + (b + c) == (a + b) + c
  {
  }

  /** Where the SSH library raised, if it did. */
  datatype Stage = AtConnect | AtExec

  /** What the transport did for one call; the streams arrive decoded and
      stripped of surrounding whitespace. */
  datatype TransportOutcome = Raised(stage: Stage) | Ran(stdout: string, stderr: string)

  /** A call the tool makes on the SSH client object. */
  datatype Event = Connect(params: Record) | Exec(cmd: string) | Close

  /** One printed block of the report of a call. */
  datatype Block =
    | Banner(host: Scalar, port: Scalar, cmd: string)  // "Connecting to host:port" and "$ command"
    | Output(text: string)
    | ErrorText(text: string)
    | NoOutput
    | ConnectionError

  /** The keyword arguments given to `connect`; None when building them
      raises, because the `key_path` handed to `os.path.expanduser` is not
      a string. */
  function ConnectParams(config: Record, host: Scalar, port: Scalar): (p: Option<Record>)
    requires "user" in config
    ensures p.None? <==> AuthOf(config).UnusableKeyPath?
    ensures p.Some? ==>
      && "hostname" in p.value && p.value["hostname"] == host
      && "port" in p.value && p.value["port"] == port
      && "username" in p.value && p.value["username"] == config["user"]
      && ("key_filename" in p.value <==> AuthOf(config).KeyFile?)
      && ("password" in p.value <==> AuthOf(config).Password?)
      && !("key_filename" in p.value && "password" in p.value)
      && ("key_filename" in p.value ==> p.value["key_filename"] == config["key_path"])
      && ("password" in p.value ==> p.value["password"] == config["password"])
      && p.value.Keys <= {"hostname", "port", "username", "key_filename", "password"}
  {
    var base := map["hostname" := host, "port" := port, "username" := config["user"]];
    match AuthOf(config)
    case KeyFile(path) => Some(base["key_filename" := Text(path)])
    case UnusableKeyPath(_) => None
    case Password(secret) => Some(base["password" := secret])
    case NoCredential => Some(base)
  }

  /** The number of blocks the report of a call that ran prints after its
      banner: one for each non-empty stream, or the "no output" marker. */
  function RanBlocks(stdout: string, stderr: string): nat
  {
    (if stdout != "" then 1 else 0) + (if stderr != "" then 1 else 0)
    + (if stdout == "" && stderr == "" then 1 else 0)
  }

  /** The blocks printed after the banner by a call whose command ran. */
  function StreamBlocks(stdout: string, stderr: string): seq<Block>
  {
    (if stdout != "" then [Output(stdout)] else []) +
    (if stderr != "" then [ErrorText(stderr)] else []) +
    (if stdout == "" && stderr == "" then [NoOutput] else [])
  }

  /** The blocks printed for one call, whose `connect` arguments are
      `params` (None when building them raised). */
  function Report(call: Call, params: Option<Record>, outcome: TransportOutcome): (r: seq<Block>)
    ensures |r| >= 2 && r[0] == Banner(call.host, call.port, call.cmd)
    ensures ConnectionError in r <==> params.None? || outcome.Raised?
    ensures params.None? || outcome.Raised? ==> r == [r[0], ConnectionError]
    ensures params.Some? && outcome.Ran? ==>
      && |r| == 1 + RanBlocks(outcome.stdout, outcome.stderr)
      && (Output(outcome.stdout) in r <==> outcome.stdout != "")
      && (ErrorText(outcome.stderr) in r <==> outcome.stderr != "")
      && (NoOutput in r <==> outcome.stdout == "" && outcome.stderr == "")
      && (outcome.stdout != "" ==> r[1] == Output(outcome.stdout))
      && (outcome.stderr != "" ==> r[|r| - 1] == ErrorText(outcome.stderr))
  {
    [Banner(call.host, call.port, call.cmd)] +
    if params.None? then [ConnectionError]
    else match outcome
      case Raised(_) => [ConnectionError]
      case Ran(out, err) => StreamBlocks(out, err)
  }

  /** The number of `close` calls in a trace. */
  function Closes(events: seq<Event>): nat
  {
    if events == [] then 0 else (if events[0] == Close then 1 else 0) + Closes(events[1..])
  }

  /** The number of `connect` calls in a trace. */
  function Connects(events: seq<Event>): nat
  {
    if events == [] then 0 else (if events[0].Connect? then 1 else 0) + Connects(events[1..])
  }

  /** The calls one `run_command` makes on its SSH client: none but `close`
      when the arguments could not be built. */
  function CallEvents(params: Option<Record>, cmd: string, outcome: TransportOutcome): (e: seq<Event>)
    ensures 1 <= |e| <= 3
    ensures e[|e| - 1] == Close && Closes(e) == 1
    ensures Connects(e) == (if params.Some? then 1 else 0)
    ensures params.Some? ==> e[0] == Connect(params.value)
    ensures Exec(cmd) in e <==> params.Some? && outcome != Raised(AtConnect)
    ensures forall ev :: ev in e ==> ev == Close || ev == Exec(cmd) || (params.Some? && ev == Connect(params.value))
  {
    var tail := [Close];
    assert Closes(tail) == 1 && Connects(tail) == 0 by { assert tail[1..] == []; }
    if params.None? then
      tail
    else if outcome == Raised(AtConnect) then
      assert ([Connect(params.value)] + tail)[1..] == tail;
      [Connect(params.value)] + tail
    else
      assert ([Exec(cmd)] + tail)[1..] == tail;
      assert ([Connect(params.value), Exec(cmd)] + tail)[1..] == [Exec(cmd)] + tail;
      [Connect(params.value), Exec(cmd)] + tail
  }

  /** The keyword arguments of `connect`, built as `run_command` builds
      them: the three fixed ones, then the key file, or else the password. */
  method BuildConnectParams(config: Record, host: Scalar, port: Scalar) returns (params: Option<Record>)
    requires "user" in config
    ensures params == ConnectParams(config, host, port)
  {
    var p := map["hostname" := host, "port" := port, "username" := config["user"]];
    var keyPath := Get(config, "key_path");
    if Truthy(keyPath) {
      if !keyPath.Text? {
        // `os.path.expanduser` raises TypeError
        return None;
      }
      p := p["key_filename" := keyPath];
    } else if Truthy(Get(config, "password")) {
      p := p["password" := config["password"]];
    }
    params := Some(p);
  }

  /** The three `if` statements that print the streams of a command that ran. */
  method PrintStreams(output: string, error: string) returns (blocks: seq<Block>)
    ensures blocks == StreamBlocks(output, error)
  {
    blocks := [];
    if output != "" {
      blocks := blocks + [Output(output)];
    }
    if error != "" {
      blocks := blocks + [ErrorText(error)];
    }
    if output == "" && error == "" {
      blocks := blocks + [NoOutput];
    }
  }

  /** One `run_command`: the transport's outcome decides the printed blocks,
      and the `finally` clause closes the client on every path. */
  method RunCommand(config: Record, call: Call, outcome: TransportOutcome)
    returns (report: seq<Block>, events: seq<Event>)
    requires "user" in config
    ensures report == Report(call, ConnectParams(config, call.host, call.port), outcome)
    ensures events == CallEvents(ConnectParams(config, call.host, call.port), call.cmd, outcome)
  {
    report := [Banner(call.host, call.port, call.cmd)];
    events := [];
    var params := BuildConnectParams(config, call.host, call.port);
    if params.None? {
      // the handler catches the error before `connect`
      report := report + [ConnectionError];
    } else {
      events := [Connect(params.value)];
      match outcome {
        case Raised(AtConnect) =>
          report := report + [ConnectionError];
        case Raised(AtExec) =>
          events := events + [Exec(call.cmd)];
          report := report + [ConnectionError];
        case Ran(output, error) =>
          events := events + [Exec(call.cmd)];
          var blocks := PrintStreams(output, error);
          report := report + blocks;
      }
    }
    events := events + [Close];
  }

  /** The client calls of a run of `calls`, the n-th call meeting the
      transport outcome `network(n)`. */
  function Transcript(config: Record, calls: seq<Call>, network: nat -> TransportOutcome): seq<Event>
    requires "user" in config
  {
    if calls == [] then []
    else
      var last := calls[|calls| - 1];
      Transcript(config, calls[..|calls| - 1], network)
      + CallEvents(ConnectParams(config, last.host, last.port), last.cmd, network(|calls| - 1))
  }

  /** The reports printed by a run of `calls`. */
  function Reports(config: Record, calls: seq<Call>, network: nat -> TransportOutcome): seq<seq<Block>>
    requires "user" in config
  {
    seq(|calls|, i requires 0 <= i < |calls| =>
      Report(calls[i], ConnectParams(config, calls[i].host, calls[i].port), network(i)))
  }

  /** Appending one call to a run appends its report. */
  lemma ReportsAppend(config: Record, calls: seq<Call>, call: Call, network: nat -> TransportOutcome)
    requires "user" in config
    ensures Reports(config, calls + [call], network)
         == Reports(config, calls, network) + [Report(call, ConnectParams(config, call.host, call.port), network(|calls|))]
  {
    var a := Reports(config, calls + [call], network);
    var b := Reports(config, calls, network) + [Report(call, ConnectParams(config, call.host, call.port), network(|calls|))];
    assert |a| == |b|;
    forall i | 0 <= i < |a| ensures a[i] == b[i] {
      if i < |calls| {
        assert (calls + [call])[i] == calls[i];
      }
    }
  }

  /** Appending one call to a run appends its client calls. */
  lemma TranscriptAppend(config: Record, calls: seq<Call>, call: Call, network: nat -> TransportOutcome)
    requires "user" in config
    ensures Transcript(config, calls + [call], network)
         == Transcript(config, calls, network)
            + CallEvents(ConnectParams(config, call.host, call.port), call.cmd, network(|calls|))
  {
    assert (calls + [call])[..|calls|] == calls;
  }

  /** What a run has done so far: its calls, their reports, the client calls. */
  datatype Log = Log(calls: seq<Call>, reports: seq<seq<Block>>, events: seq<Event>)

  /** The reports and client calls of a log are those of its calls. */
  predicate Logged(config: Record, network: nat -> TransportOutcome, log: Log)
    requires "user" in config
  {
    log.reports == Reports(config, log.calls, network) && log.events == Transcript(config, log.calls, network)
  }

  /** `self.run_command(...)` as the dispatch loops see it: the next call
      meets the next transport outcome, and its report and client calls are
      appended to the log. */
  method Perform(config: Record, network: nat -> TransportOutcome, log: Log, call: Call) returns (log': Log)
    requires "user" in config && Logged(config, network, log)
    ensures log'.calls == log.calls + [call]
    ensures Logged(config, network, log')
  {
    var report, events := RunCommand(config, call, network(|log.calls|));
    ReportsAppend(config, log.calls, call, network);
    TranscriptAppend(config, log.calls, call, network);
    log' := Log(log.calls + [call], log.reports + [report], log.events + events);
  }

  lemma {:induction false} CountsAppend(a: seq<Event>, b: seq<Event>)
    ensures Closes(a + b) == Closes(a) + Closes(b)
    ensures Connects(a + b) == Connects(a) + Connects(b)
  {
    if a == [] {
      assert a + b == b;
    } else {
      assert (a + b)[1..] == a[1..] + b;
      CountsAppend(a[1..], b);
    }
  }

  /** Over a whole run every call closes its client exactly once, whatever
      the transport did, and opens one connection unless the configured key
      path is unusable, in which case no call connects. */
  lemma {:induction false} TranscriptPaired(config: Record, calls: seq<Call>, network: nat -> TransportOutcome)
    requires "user" in config
    ensures Closes(Transcript(config, calls, network)) == |calls|
    ensures Connects(Transcript(config, calls, network))
         == if AuthOf(config).UnusableKeyPath? then 0 else |calls|
  {
    if calls != [] {
      var last := calls[|calls| - 1];
      TranscriptPaired(config, calls[..|calls| - 1], network);
      CountsAppend(Transcript(config, calls[..|calls| - 1], network),
                   CallEvents(ConnectParams(config, last.host, last.port), last.cmd, network(|calls| - 1)));
    }
  }
}
