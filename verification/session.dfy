/** The session controller: `start_stream`, and the dispatch with its binary
    checks and error-to-exit-status mapping in `main`.

    Everything outside the program is a `World`: which binaries PATH holds and
    what each external command line returns. A run yields the exit status and
    the trace of what the program did, in order. */
module Session {
  import opened Results
  import opened Gateway
  import opened Profiles
  import opened Devices
  import opened Commands

  /** The parsed options of `start`; `--profile` is limited to the table's keys. */
  datatype StartArgs = StartArgs(
    profile: Key, serial: Option<string>, maxSize: Option<int>,
    turnScreenOff: bool, stayAwake: bool, noAudio: bool)

  /** The three subcommands. */
  datatype Subcommand = ShowProfiles | ShowDevices | Start(args: StartArgs)

  /** What the program writes to the error stream. */
  datatype Diagnostic =
    | NoReadyDevice                  // no device in `device` state
    | DeviceUnavailable(serial: string)
    | RestoreFailed                  // stay-awake could not be switched back off
    | Fatal(error: Error)            // a `RuntimeError` that ends the run

  /** One observable step. */
  datatype Event =
    | Locate(binary: string)         // a PATH lookup
    | Run(argv: seq<string>)         // an external process, waited for
    | Report(diagnostic: Diagnostic)

  /** PATH, and the result each command line would return if run. */
  datatype World = World(onPath: set<string>, run: seq<string> -> ProcessResult)

  /** The exit status and the trace of a run. */
  datatype Outcome = Outcome(code: int, trace: seq<Event>)

  /** The command lines a trace runs, in order. */
  function Runs(trace: seq<Event>): (cmds: seq<seq<string>>)
    ensures |cmds| <= |trace|
  {
    if |trace| == 0 then []
    else (if trace[0].Run? then [trace[0].argv] else []) + Runs(trace[1..])
  }

  /** A command line is among the runs exactly when the trace runs it. */
  lemma {:induction false} RunsMember(trace: seq<Event>, argv: seq<string>)
    ensures argv in Runs(trace) <==> Run(argv) in trace
    decreases |trace|
  {
    if |trace| > 0 {
      RunsMember(trace[1..], argv);
      assert trace == [trace[0]] + trace[1..];
    }
  }

  lemma {:induction false} RunsAppend(a: seq<Event>, b: seq<Event>)
    ensures Runs(a + b) == Runs(a) + Runs(b)
    decreases |a|
  {
    if |a| == 0 {
      assert a + b == b;
    } else {
      assert (a + b)[0] == a[0];
      assert (a + b)[1..] == a[1..] + b;
      RunsAppend(a[1..], b);
      var head := if a[0].Run? then [a[0].argv] else [];
      assert head + (Runs(a[1..]) + Runs(b)) == (head + Runs(a[1..])) + Runs(b);
    }
  }

  /** `args.serial or devices[0]`: an absent or empty serial means the first
      ready device. */
  function ChosenSerial(serial: Option<string>, devices: seq<string>): (device: string)
    requires |devices| > 0
    ensures serial.None? || serial.value == "" ==> device == devices[0]
    ensures serial.Some? && serial.value != "" ==> device == serial.value
    ensures device in devices <==> serial.None? || serial.value == "" || serial.value in devices
  {
    match serial
    case Some(s) => if s != "" then s else devices[0]
    case None => devices[0]
  }

  function Options(args: StartArgs): MirrorOptions {
    MirrorOptions(args.maxSize, args.turnScreenOff, args.noAudio)
  }

  /** The scrcpy command line `start` runs on `device`. */
  function Mirror(args: StartArgs, device: string): seq<string> {
    MirrorCommand(device, Lookup(args.profile), Options(args))
  }

  /** The stay-awake bracket around scrcpy: `enable` runs before `mirror` and
      `disable` after it, both only with `stayAwake`; a failed `enable` aborts
      the run, a failed `disable` only draws a warning. */
  function Bracket(stayAwake: bool, enable: seq<string>, mirror: seq<string>, disable: seq<string>,
                   world: World): (o: Outcome)
    ensures if stayAwake && world.run(enable).status != 0 then
              // enabling failed: abort before scrcpy
              && o.code == 1
              && Runs(o.trace) == [enable]
              && o.trace[|o.trace| - 1] == Report(Fatal(StayAwakeSetFailed))
            else
              // scrcpy's status passes through, whatever the restoration did
              && o.code == world.run(mirror).status
              && Runs(o.trace) == (if stayAwake then [enable, mirror, disable] else [mirror])
              && (Report(RestoreFailed) in o.trace
                  <==> stayAwake && world.run(disable).status != 0)
              && (forall e :: e in o.trace && e.Report? ==> e == Report(RestoreFailed))
  {
    var status := world.run(mirror).status;
    if !stayAwake then
      RunsOne(Run(mirror));
      Outcome(status, [Run(mirror)])
    else if world.run(enable).status != 0 then
      RunsOne(Run(enable));
      RunsThenReport([Run(enable)], Fatal(StayAwakeSetFailed));
      Outcome(1, [Run(enable)] + [Report(Fatal(StayAwakeSetFailed))])
    else
      var runs := [Run(enable), Run(mirror), Run(disable)];
      RunsThree(enable, mirror, disable);
      RunsThenReport(runs, RestoreFailed);
      if world.run(disable).status == 0 then Outcome(status, runs)
      else Outcome(status, runs + [Report(RestoreFailed)])
  }

  /** A diagnostic after a trace adds no run. */
  lemma RunsThenReport(trace: seq<Event>, d: Diagnostic)
    ensures Runs(trace + [Report(d)]) == Runs(trace)
  {
    RunsAppend(trace, [Report(d)]);
    RunsOne(Report(d));
  }

  lemma RunsThree(a: seq<string>, b: seq<string>, c: seq<string>)
    ensures Runs([Run(a), Run(b), Run(c)]) == [a, b, c]
  {
    assert [Run(a), Run(b), Run(c)][1..] == [Run(b), Run(c)];
    assert [Run(b), Run(c)][1..] == [Run(c)];
    RunsOne(Run(c));
  }

  /** From stay-awake to restoration, on a device that is known to be ready. */
  function Stream(args: StartArgs, device: string, world: World): Outcome {
    Bracket(args.stayAwake, StayAwakeCommand(device, true), Mirror(args, device),
            StayAwakeCommand(device, false), world)
  }

  lemma RunsOne(e: Event)
    ensures Runs([e]) == if e.Run? then [e.argv] else []
  {
    assert [e][1..] == [];
  }

  /** `start_stream`, after both binaries were found. */
  function StartStream(args: StartArgs, world: World): (o: Outcome)
    ensures |o.trace| > 0 && o.trace[0] == Run(ListCommand)
    ensures match ListDevices(world.run(ListCommand))
      case Failure(e) =>
        // the listing failed: exit 1, nothing else runs
        o.code == 1 && Runs(o.trace) == [ListCommand] && Report(Fatal(e)) in o.trace
      case Success(devices) =>
        if |devices| == 0 then
          o.code == 2 && Runs(o.trace) == [ListCommand] && Report(NoReadyDevice) in o.trace
        else
          var device := ChosenSerial(args.serial, devices);
          if device !in devices then
            // a requested serial that is not ready: exit 2, nothing else runs
            && o.code == 2 && Runs(o.trace) == [ListCommand]
            && Report(DeviceUnavailable(args.serial.value)) in o.trace
          else
            && Runs(o.trace)[0] == ListCommand
            && o == Outcome(Stream(args, device, world).code,
                            [Run(ListCommand)] + Stream(args, device, world).trace)
  {
    var head := [Run(ListCommand)];
    assert Runs(head) == [ListCommand] + Runs([]);
    match ListDevices(world.run(ListCommand))
    case Failure(e) =>
      RunsAppend(head, [Report(Fatal(e))]);
      Outcome(1, head + [Report(Fatal(e))])
    case Success(devices) =>
      if |devices| == 0 then
        RunsAppend(head, [Report(NoReadyDevice)]);
        Outcome(2, head + [Report(NoReadyDevice)])
      else
        var device := ChosenSerial(args.serial, devices);
        if device !in devices then
          RunsAppend(head, [Report(DeviceUnavailable(device))]);
          Outcome(2, head + [Report(DeviceUnavailable(device))])
        else
          var rest := Stream(args, device, world);
          RunsAppend(head, rest.trace);
          Outcome(rest.code, head + rest.trace)
  }

  /** What the PATH checks did: the lookups made, in order, and the error of
      the first binary found missing, if one was. */
  datatype Checked = Checked(lookups: seq<Event>, failure: Option<Error>)

  /** `_require_binary` for each of `binaries` in turn, stopping at the first
      one missing from PATH. */
  function Require(binaries: seq<string>, world: World): (c: Checked)
    // the binaries are looked up in order, and nothing is run
    ensures |c.lookups| <= |binaries|
    ensures forall i :: 0 <= i < |c.lookups| ==> c.lookups[i] == Locate(binaries[i])
    ensures Runs(c.lookups) == []
    ensures c.failure.None? <==> forall b :: b in binaries ==> b in world.onPath
    ensures c.failure.None? ==> |c.lookups| == |binaries|
    // the last lookup made is the first binary that is missing, and it is the one named
    ensures c.failure.Some? ==>
              && |c.lookups| > 0
              && c.failure.value == MissingDependency(binaries[|c.lookups| - 1])
              && binaries[|c.lookups| - 1] !in world.onPath
              && forall i :: 0 <= i < |c.lookups| - 1 ==> binaries[i] in world.onPath
  {
    if |binaries| == 0 then Checked([], None)
    else
      var here := [Locate(binaries[0])];
      RunsOne(Locate(binaries[0]));
      if binaries[0] !in world.onPath then Checked(here, Some(MissingDependency(binaries[0])))
      else
        var rest := Require(binaries[1..], world);
        RunsAppend(here, rest.lookups);
        assert forall b :: b in binaries ==> b == binaries[0] || b in binaries[1..];
        Checked(here + rest.lookups, rest.failure)
  }

  /** The binaries each subcommand needs on PATH, in the order they are checked. */
  function Needs(cmd: Subcommand): seq<string> {
    match cmd
    case ShowProfiles => []
    case ShowDevices => ["adb"]
    case Start(_) => ["adb", "scrcpy"]
  }

  /** `main`: check the binaries, run the subcommand, and map a raised
      `RuntimeError` to exit status 1. */
  function Dispatch(cmd: Subcommand, world: World): (o: Outcome)
    // `profiles` touches nothing outside the program
    ensures cmd.ShowProfiles? ==> o.code == 0 && Runs(o.trace) == []
    // a missing binary: exit 1 before any process runs
    ensures (exists b :: b in Needs(cmd) && b !in world.onPath)
            ==> o.code == 1 && Runs(o.trace) == []
    // `devices`: one listing, exit 0 when it succeeds and 1 when it fails
    ensures cmd.ShowDevices? && "adb" in world.onPath
            ==> Runs(o.trace) == [ListCommand]
                && (o.code == 0 <==> world.run(ListCommand).status == 0)
                && (o.code == 1 <==> world.run(ListCommand).status != 0)
    // `start` with both binaries present: exactly `start_stream`
    ensures cmd.Start? && "adb" in world.onPath && "scrcpy" in world.onPath
            ==> o.code == StartStream(cmd.args, world).code
                && Runs(o.trace) == Runs(StartStream(cmd.args, world).trace)
  {
    var checked := Require(Needs(cmd), world);
    var checks := checked.lookups;
    match checked.failure
    case Some(e) =>
      RunsThenReport(checks, Fatal(e));
      Outcome(1, checks + [Report(Fatal(e))])
    case None =>
      match cmd
      case ShowProfiles => Outcome(0, checks)
      case ShowDevices =>
        assert Needs(cmd)[0] == "adb";
        var listing := world.run(ListCommand);
        match ListDevices(listing) {
          case Failure(e) =>
            var trace := checks + [Run(ListCommand), Report(Fatal(e))];
            RunsAppend(checks, [Run(ListCommand), Report(Fatal(e))]);
            assert Runs([Run(ListCommand), Report(Fatal(e))]) == [ListCommand] + Runs([Report(Fatal(e))]);
            Outcome(1, trace)
          case Success(_) =>
            var trace := checks + [Run(ListCommand)];
            RunsAppend(checks, [Run(ListCommand)]);
            assert Runs([Run(ListCommand)]) == [ListCommand] + Runs([]);
            Outcome(0, trace)
        }
      case Start(args) =>
        var stream := StartStream(args, world);
        RunsAppend(checks, stream.trace);
        Outcome(stream.code, checks + stream.trace)
  }

  /** The binaries are checked in the order `main` names them, `adb` first:
      every lookup up to the first missing binary is made, and the error names
      that binary. */
  lemma MissingBinaryTrace(cmd: Subcommand, world: World)
    ensures !cmd.ShowProfiles? && "adb" !in world.onPath ==>
              Dispatch(cmd, world) == Outcome(1, [Locate("adb"), Report(Fatal(MissingDependency("adb")))])
    ensures cmd.Start? && "adb" in world.onPath && "scrcpy" !in world.onPath ==>
              Dispatch(cmd, world)
              == Outcome(1, [Locate("adb"), Locate("scrcpy"), Report(Fatal(MissingDependency("scrcpy")))])
  {
    var checked := Require(Needs(cmd), world);
    if !cmd.ShowProfiles? && "adb" !in world.onPath {
      assert Needs(cmd)[0] == "adb";
      assert |checked.lookups| == 1;
    } else if cmd.Start? && "adb" in world.onPath && "scrcpy" !in world.onPath {
      assert Needs(cmd) == ["adb", "scrcpy"];
      assert |checked.lookups| == 2;
      assert checked.lookups == [Locate("adb"), Locate("scrcpy")];
    }
  }
}
