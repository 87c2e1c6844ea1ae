/** `LinuxSSHTool.interactive_mode`: a prompt loop that runs each line, once
    stripped, on every server in declaration order, until an exit token, an
    interrupt at the prompt, or the end of input. */
module Interactive {
  import opened Values
  import opened Config
  import opened Text
  import opened Command
  import opened Neutron
  import opened Batch
  import opened Grid

  /** What the operator does at the prompt: type a line, or press Ctrl-C. */
  datatype InputEvent = Line(text: string) | Interrupt

  /** How the loop ends. Quit and Interrupted leave it normally; at the end
      of input `input()` raises EOFError and a server without a host raises
      KeyError, and neither is caught, so both end the process. */
  datatype Ending = Quit | Interrupted | EndOfInput | MissingAddress

  /** What a prompt session does: its calls and how it ends. */
  datatype Session = Session(calls: seq<Call>, ending: Ending)

  /** One command on every server, in declaration order. */
  function FanOut(servers: seq<Record>, cmd: string): seq<Call>
  {
    seq(|servers|, i requires 0 <= i < |servers| => CallOf(servers[i], cmd))
  }

  lemma FanOutExtend(servers: seq<Record>, cmd: string, i: nat)
    requires i < |servers|
    ensures FanOut(servers[..i + 1], cmd) == FanOut(servers[..i], cmd) + [CallOf(servers[i], cmd)]
  {
    var a := FanOut(servers[..i + 1], cmd);
    var b := FanOut(servers[..i], cmd) + [CallOf(servers[i], cmd)];
    assert |a| == |b|;
    forall k | 0 <= k < |a| ensures a[k] == b[k] {
      assert servers[..i + 1][k] == servers[k];
    }
  }

  /** The calls of the prompt loop over a sequence of input events. A line
      that strips to an exit token ends the loop before any call; any other
      line, the empty one included, goes to every server. */
  function SessionPlan(servers: seq<Record>, input: seq<InputEvent>): (r: Session)
    ensures r.ending == MissingAddress <==> Dispatches(input) != [] && Reachable(servers) < |servers|
    ensures r.ending != MissingAddress ==> r.ending == EndingAt(input, |Dispatches(input)|)
    ensures Dispatches(input) == [] ==> r.calls == []
    decreases |input|
  {
    if input == [] then Session([], EndOfInput)
    else match input[0]
      case Interrupt => Session([], Interrupted)
      case Line(raw) =>
        var cmd := Strip(raw);
        if IsExitToken(cmd) then Session([], Quit)
        else
          var n := Reachable(servers);
          if n < |servers| then Session(FanOut(servers[..n], cmd), MissingAddress)
          else
            var rest := SessionPlan(servers, input[1..]);
            Session(FanOut(servers, cmd) + rest.calls, rest.ending)
  }

  /** A line that is run on the servers rather than ending the loop. */
  predicate Dispatched(e: InputEvent)
  {
    e.Line? && !IsExitToken(Strip(e.text))
  }

  /** The stripped lines that are dispatched, in order: those before the
      first interrupt or exit token. */
  function Dispatches(input: seq<InputEvent>): (cmds: seq<string>)
    ensures |cmds| <= |input|
    ensures forall k :: 0 <= k < |cmds| ==> Dispatched(input[k]) && cmds[k] == Strip(input[k].text)
    ensures |cmds| < |input| ==> !Dispatched(input[|cmds|])
  {
    if input == [] || !Dispatched(input[0]) then []
    else
      var rest := Dispatches(input[1..]);
      assert forall k :: 1 <= k <= |rest| ==> input[k] == input[1..][k - 1];
      [Strip(input[0].text)] + rest
  }

  /** A line that strips to an exit token, in any case, ends the session
      before it reaches any server, whatever the servers are. */
  lemma ExitTokenStops(servers: seq<Record>, input: seq<InputEvent>)
    requires |input| > 0 && input[0].Line? && IsExitToken(Strip(input[0].text))
    ensures SessionPlan(servers, input) == Session([], Quit)
    ensures Dispatches(input) == []
  {
  }

  /** A blank line is not an exit token: it is stripped to the empty
      command, which is sent to the servers like any other. */
  lemma BlankLineDispatched(text: string)
    requires forall k :: 0 <= k < |text| ==> IsSpace(text[k])
    ensures Dispatched(Line(text)) && Strip(text) == ""
  {
  }

  /** How the loop ends once the first `n` lines have been dispatched. */
  function EndingAt(input: seq<InputEvent>, n: nat): Ending
    requires n <= |input|
  {
    if n == |input| then EndOfInput else if input[n].Interrupt? then Interrupted else Quit
  }

  /** A dispatched line at position `i` runs on every server, then the loop goes on. */
  lemma SessionStep(servers: seq<Record>, input: seq<InputEvent>, i: nat)
    requires i < |input| && input[i].Line? && !IsExitToken(Strip(input[i].text))
    requires Reachable(servers) == |servers|
    ensures SessionPlan(servers, input[i..]).calls
         == FanOut(servers, Strip(input[i].text)) + SessionPlan(servers, input[i + 1..]).calls
    ensures SessionPlan(servers, input[i..]).ending == SessionPlan(servers, input[i + 1..]).ending
  {
    assert input[i..][0] == input[i] && input[i..][1..] == input[i + 1..];
  }

  /** Each command on every server in turn. */
  function CommandMajor(servers: seq<Record>, cmds: seq<string>): seq<Call>
  {
    if cmds == [] then [] else FanOut(servers, cmds[0]) + CommandMajor(servers, cmds[1..])
  }

  lemma {:induction false} CommandMajorLength(servers: seq<Record>, cmds: seq<string>)
    ensures |CommandMajor(servers, cmds)| == |cmds| * |servers|
  {
    if cmds != [] {
      CommandMajorLength(servers, cmds[1..]);
      RowsGrow(|cmds|, |servers|);
    }
  }

  lemma {:induction false} CommandMajorAt(servers: seq<Record>, cmds: seq<string>, k: nat, i: nat)
    requires k < |cmds| && i < |servers|
    ensures Position(k, i, |servers|) < |CommandMajor(servers, cmds)|
    ensures CommandMajor(servers, cmds)[Position(k, i, |servers|)] == CallOf(servers[i], cmds[k])
  {
    var head := FanOut(servers, cmds[0]);
    var rest := CommandMajor(servers, cmds[1..]);
    CommandMajorLength(servers, cmds);
    PositionBelow(k, i, |cmds|, |servers|);
    if k > 0 {
      CommandMajorAt(servers, cmds[1..], k - 1, i);
      PositionNextRow(k - 1, i, |servers|);
      assert cmds[1..][k - 1] == cmds[k];
      assert (head + rest)[|head| + Position(k - 1, i, |servers|)] == rest[Position(k - 1, i, |servers|)];
    }
  }

  /** When every server has a host, the session runs the dispatched lines
      one after the other on every server, and ends as the event after them
      says. */
  lemma {:induction false} SessionCalls(servers: seq<Record>, input: seq<InputEvent>)
    requires forall k :: 0 <= k < |servers| ==> Addressable(servers[k])
    ensures SessionPlan(servers, input).calls == CommandMajor(servers, Dispatches(input))
    ensures SessionPlan(servers, input).ending == EndingAt(input, |Dispatches(input)|)
    decreases |input|
  {
    var cmds := Dispatches(input);
    if cmds != [] {
      assert Reachable(servers) == |servers|;
      SessionCalls(servers, input[1..]);
      assert cmds[1..] == Dispatches(input[1..]);
    }
  }

  /** Line by line, server by server: call Position(k, i, |servers|), that
      is k * |servers| + i, runs the k-th dispatched line (the k-th input
      line, stripped) on server i, and nothing after the first exit token or
      interrupt is run. */
  lemma SessionOrder(servers: seq<Record>, input: seq<InputEvent>)
    requires forall k :: 0 <= k < |servers| ==> Addressable(servers[k])
    ensures |SessionPlan(servers, input).calls| == |Dispatches(input)| * |servers|
    ensures SessionPlan(servers, input).ending == EndingAt(input, |Dispatches(input)|)
    ensures forall k: nat, i: nat :: k < |Dispatches(input)| && i < |servers| ==>
      Position(k, i, |servers|) < |SessionPlan(servers, input).calls| &&
      SessionPlan(servers, input).calls[Position(k, i, |servers|)] == CallOf(servers[i], Dispatches(input)[k])
  {
    var cmds := Dispatches(input);
    var calls := SessionPlan(servers, input).calls;
    SessionCalls(servers, input);
    CommandMajorLength(servers, cmds);
    forall k: nat, i: nat | k < |cmds| && i < |servers|
      ensures Position(k, i, |servers|) < |calls| && calls[Position(k, i, |servers|)] == CallOf(servers[i], cmds[k])
    {
      CommandMajorAt(servers, cmds, k, i);
    }
  }

  /** When some server has no host, the first dispatched line runs on the
      servers before it and the session then ends with the uncaught
      KeyError; with no dispatched line it ends as the first event says. */
  lemma SessionStopsAtMissingHost(servers: seq<Record>, input: seq<InputEvent>)
    requires Reachable(servers) < |servers|
    ensures Dispatches(input) == [] ==> SessionPlan(servers, input) == Session([], EndingAt(input, 0))
    ensures Dispatches(input) != [] ==>
      SessionPlan(servers, input) == Session(FanOut(servers[..Reachable(servers)], Dispatches(input)[0]), MissingAddress)
  {
  }

  /** The inner `for` loop of `interactive_mode`: one command on every
      server. A server without a host stops it after the servers before it
      have run the command. */
  method FanOutCommand(config: Record, network: nat -> TransportOutcome, servers: seq<Record>,
                       cmd: string, log: Log) returns (ok: bool, log': Log)
    requires "user" in config && Logged(config, network, log)
    ensures ok <==> Reachable(servers) == |servers|
    ensures log'.calls == log.calls + FanOut(servers[..Reachable(servers)], cmd)
    ensures Logged(config, network, log')
  {
    log' := log;
    var i := 0;
    assert servers[..0] == [];
    while i < |servers|
      invariant 0 <= i <= |servers|
      invariant i <= Reachable(servers)
      invariant log'.calls == log.calls + FanOut(servers[..i], cmd)
      invariant Logged(config, network, log')
    {
      var server := servers[i];
      if !Addressable(server) {
        // `server['host']` raises KeyError
        return false, log';
      }
      var call := Call(server["host"], server["port"], cmd);
      assert call == CallOf(server, cmd);
      FanOutExtend(servers, cmd, i);
      Regroup(log.calls, FanOut(servers[..i], cmd), [call]);
      log' := Perform(config, network, log', call);
      assert Reachable(servers) != i;
      i := i + 1;
    }
    ok := true;
  }

  /** The prompt loop over the events `input`, with `network(n)` the
      transport's outcome for the n-th call. */
  method InteractiveMode(tool: Tool, input: seq<InputEvent>, network: nat -> TransportOutcome)
    returns (ending: Ending, log: Log)
    requires "user" in tool.config
    ensures Session(log.calls, ending) == SessionPlan(tool.servers, input)
    ensures Logged(tool.config, network, log)
    ensures Closes(log.events) == |log.calls|
    ensures Connects(log.events) == if AuthOf(tool.config).UnusableKeyPath? then 0 else |log.calls|
  {
    var servers := tool.servers;
    log := Log([], [], []);
    var i := 0;
    while i < |input|
      invariant 0 <= i <= |input|
      invariant Logged(tool.config, network, log)
      invariant log.calls + SessionPlan(servers, input[i..]).calls == SessionPlan(servers, input).calls
      invariant SessionPlan(servers, input[i..]).ending == SessionPlan(servers, input).ending
    {
      assert input[i..][0] == input[i] && input[i..][1..] == input[i + 1..];
      match input[i] {
        case Interrupt =>
          ending := Interrupted;
          TranscriptPaired(tool.config, log.calls, network);
          return;
        case Line(raw) =>
          var cmd := Strip(raw);
          if IsExitToken(cmd) {
            ending := Quit;
            TranscriptPaired(tool.config, log.calls, network);
            return;
          }
          ghost var before := log.calls;
          var ok;
          ok, log := FanOutCommand(tool.config, network, servers, cmd, log);
          if !ok {
            ending := MissingAddress;
            TranscriptPaired(tool.config, log.calls, network);
            return;
          }
          assert servers[..|servers|] == servers;
          SessionStep(servers, input, i);
          ghost var rest := SessionPlan(servers, input[i + 1..]).calls;
          Regroup(before, FanOut(servers, cmd), rest);
      }
      i := i + 1;
    }
    ending := EndOfInput;
    TranscriptPaired(tool.config, log.calls, network);
  }
}
