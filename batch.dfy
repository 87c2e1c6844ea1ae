/** `LinuxSSHTool.execute_task`: every command of the task file is run on
    every server, server by server, in declaration order. */
module Batch {
  import opened Values
  import opened Config
  import opened Command
  import opened Neutron
  import opened Grid

  /** The `commands` entry of the task file; an absent key gives no commands. */
  function CommandsOf(entry: Option<seq<string>>): (commands: seq<string>)
    ensures entry.None? ==> commands == []
    ensures entry.Some? ==> commands == entry.value
  {
    if entry.Some? then entry.value else []
  }

  /** The call made for `cmd` on a server; it is made only when the server
      is Addressable, and then carries its `host` and `port`. */
  function CallOf(server: Record, cmd: string): Call
  {
    Call(Get(server, "host"), Get(server, "port"), cmd)
  }

  /** The calls made for one server: each command, in file order. */
  function CallsFor(server: Record, commands: seq<string>): seq<Call>
  {
    seq(|commands|, j requires 0 <= j < |commands| => CallOf(server, commands[j]))
  }

  lemma CallsForExtend(server: Record, commands: seq<string>, j: nat)
    requires j < |commands|
    ensures CallsFor(server, commands[..j + 1]) == CallsFor(server, commands[..j]) + [CallOf(server, commands[j])]
  {
    var a := CallsFor(server, commands[..j + 1]);
    var b := CallsFor(server, commands[..j]) + [CallOf(server, commands[j])];
    assert |a| == |b|;
    forall k | 0 <= k < |a| ensures a[k] == b[k] {
      assert commands[..j + 1][k] == commands[k];
    }
  }

  /** The calls made for a list of servers, server by server. */
  function ServerMajor(servers: seq<Record>, commands: seq<string>): seq<Call>
  {
    if servers == [] then []
    else ServerMajor(servers[..|servers| - 1], commands) + CallsFor(servers[|servers| - 1], commands)
  }

  lemma ServerMajorExtend(servers: seq<Record>, commands: seq<string>, i: nat)
    requires i < |servers|
    ensures ServerMajor(servers[..i + 1], commands) == ServerMajor(servers[..i], commands) + CallsFor(servers[i], commands)
  {
    assert servers[..i + 1][..i] == servers[..i];
  }

  /** What a batch run does: the calls, and whether it ended with
      "Task execution failed". */
  datatype BatchRun = BatchRun(calls: seq<Call>, failed: bool)

  /** The calls of `execute_task`. A server without a host raises KeyError
      at its first call; the handler around both loops reports the failure
      and no further call is made. Without commands no lookup happens. */
  function BatchPlan(servers: seq<Record>, commands: seq<string>): (r: BatchRun)
    ensures r.failed <==> commands != [] && exists k :: 0 <= k < |servers| && !Addressable(servers[k])
    ensures commands == [] ==> r.calls == []
  {
    if commands == [] then BatchRun([], false)
    else
      var n := Reachable(servers);
      BatchRun(ServerMajor(servers[..n], commands), n < |servers|)
  }

  lemma {:induction false} ServerMajorLength(servers: seq<Record>, commands: seq<string>)
    ensures |ServerMajor(servers, commands)| == |servers| * |commands|
  {
    if servers != [] {
      ServerMajorLength(servers[..|servers| - 1], commands);
      RowsGrow(|servers|, |commands|);
    }
  }

  lemma {:induction false} ServerMajorAt(servers: seq<Record>, commands: seq<string>, i: nat, j: nat)
    requires i < |servers| && j < |commands|
    ensures Position(i, j, |commands|) < |ServerMajor(servers, commands)|
    ensures ServerMajor(servers, commands)[Position(i, j, |commands|)] == CallOf(servers[i], commands[j])
  {
    var m := |servers| - 1;
    var init := ServerMajor(servers[..m], commands);
    var row := CallsFor(servers[m], commands);
    ServerMajorLength(servers[..m], commands);
    ServerMajorLength(servers, commands);
    PositionBelow(i, j, |servers|, |commands|);
    if i == m {
      assert Position(i, j, |commands|) == |init| + j;
      assert (init + row)[|init| + j] == row[j];
    } else {
      assert servers[..m][i] == servers[i];
      ServerMajorAt(servers[..m], commands, i, j);
      assert (init + row)[Position(i, j, |commands|)] == init[Position(i, j, |commands|)];
    }
  }

  /** When every server has a host, the batch completes and makes every
      call of the server-major order. */
  lemma BatchComplete(servers: seq<Record>, commands: seq<string>)
    requires forall k :: 0 <= k < |servers| ==> Addressable(servers[k])
    ensures BatchPlan(servers, commands) == BatchRun(ServerMajor(servers, commands), false)
  {
    if commands == [] {
      ServerMajorLength(servers, commands);
    } else {
      assert Reachable(servers) == |servers|;
      assert servers[..|servers|] == servers;
    }
  }

  /** When every server has a host, the batch makes |servers| * |commands|
      calls, server-major: call Position(i, j, |commands|), that is
      i * |commands| + j, runs command j on server i. */
  lemma BatchOrder(servers: seq<Record>, commands: seq<string>)
    requires forall k :: 0 <= k < |servers| ==> Addressable(servers[k])
    ensures !BatchPlan(servers, commands).failed
    ensures |BatchPlan(servers, commands).calls| == |servers| * |commands|
    ensures forall i: nat, j: nat :: i < |servers| && j < |commands| ==>
      Position(i, j, |commands|) < |BatchPlan(servers, commands).calls| &&
      BatchPlan(servers, commands).calls[Position(i, j, |commands|)] == CallOf(servers[i], commands[j])
  {
    BatchComplete(servers, commands);
    ServerMajorLength(servers, commands);
    forall i: nat, j: nat | i < |servers| && j < |commands|
      ensures Position(i, j, |commands|) < |ServerMajor(servers, commands)|
      ensures ServerMajor(servers, commands)[Position(i, j, |commands|)] == CallOf(servers[i], commands[j])
    {
      ServerMajorAt(servers, commands, i, j);
    }
  }

  /** When some server has no host and there is a command, the batch fails
      after running every command on the servers before that one, and
      makes no call for it or any server after it. */
  lemma BatchStopsAtMissingHost(servers: seq<Record>, commands: seq<string>)
    requires commands != [] && Reachable(servers) < |servers|
    ensures BatchPlan(servers, commands).failed
    ensures BatchPlan(servers, commands).calls == ServerMajor(servers[..Reachable(servers)], commands)
    ensures |BatchPlan(servers, commands).calls| == Reachable(servers) * |commands|
  {
    ServerMajorLength(servers[..Reachable(servers)], commands);
  }

  /** The inner loop of `execute_task`: every command on one server, in file
      order. It fails, before any call, when the server has no host and
      there is a command to run. */
  method RunOnServer(config: Record, network: nat -> TransportOutcome, server: Record,
                     commands: seq<string>, log: Log) returns (ok: bool, log': Log)
    requires "user" in config && Logged(config, network, log)
    ensures ok <==> commands == [] || Addressable(server)
    ensures ok ==> log'.calls == log.calls + CallsFor(server, commands)
    ensures !ok ==> log' == log
    ensures Logged(config, network, log')
  {
    log' := log;
    var j := 0;
    assert commands[..0] == [];
    while j < |commands|
      invariant 0 <= j <= |commands|
      invariant j > 0 ==> Addressable(server)
      invariant log'.calls == log.calls + CallsFor(server, commands[..j])
      invariant j == 0 ==> log' == log
      invariant Logged(config, network, log')
    {
      if !Addressable(server) {
        // `server['host']` raises KeyError
        return false, log';
      }
      var call := Call(server["host"], server["port"], commands[j]);
      assert call == CallOf(server, commands[j]);
      CallsForExtend(server, commands, j);
      Regroup(log.calls, CallsFor(server, commands[..j]), [call]);
      log' := Perform(config, network, log', call);
      j := j + 1;
    }
    assert commands[..j] == commands;
    ok := true;
  }

  /** `execute_task`, with `network(n)` the transport's outcome for the n-th
      call. Each call's own failure is reported inside `run_command` and does
      not stop the loop; a server without a host stops it, and the handler
      around both loops reports the failure. */
  method ExecuteTask(tool: Tool, commandsEntry: Option<seq<string>>, network: nat -> TransportOutcome)
    returns (failed: bool, log: Log)
    requires "user" in tool.config
    ensures BatchRun(log.calls, failed) == BatchPlan(tool.servers, CommandsOf(commandsEntry))
    ensures commandsEntry.None? ==> !failed && log.calls == []
    ensures Logged(tool.config, network, log)
    ensures Closes(log.events) == |log.calls|
    ensures Connects(log.events) == if AuthOf(tool.config).UnusableKeyPath? then 0 else |log.calls|
  {
    var commands := CommandsOf(commandsEntry);
    var servers := tool.servers;
    log := Log([], [], []);
    var i := 0;
    while i < |servers|
      invariant 0 <= i <= |servers|
      invariant commands != [] ==> i <= Reachable(servers)
      invariant log.calls == ServerMajor(servers[..i], commands)
      invariant commands == [] ==> log.calls == []
      invariant Logged(tool.config, network, log)
    {
      var ok;
      ok, log := RunOnServer(tool.config, network, servers[i], commands, log);
      if !ok {
        assert Reachable(servers) == i;
        failed := true;
        TranscriptPaired(tool.config, log.calls, network);
        return;
      }
      ServerMajorExtend(servers, commands, i);
      assert commands != [] ==> Reachable(servers) != i;
      i := i + 1;
    }
    assert servers[..i] == servers;
    assert commands != [] ==> Reachable(servers) == |servers|;
    failed := false;
    TranscriptPaired(tool.config, log.calls, network);
  }
}
