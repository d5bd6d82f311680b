/** Whole-run guarantees of the command-line program: which external commands
    a run makes, in which order, and how its exit status comes about.

    `Plan` and `ExitCode` restate the control flow of `main` and
    `start_stream` as one flat decision each, without traces; `DispatchMatches`
    proves that every run agrees with them, and the guarantees are proved on
    the flat definitions and carried over. */
module Guarantees {
  import opened Results
  import opened Profiles
  import opened Devices
  import opened Commands
  import opened Session
  import opened Sequences

  /** A command line that starts scrcpy. */
  predicate IsMirror(argv: seq<string>) {
    |argv| > 0 && argv[0] == "scrcpy"
  }

  /** A command line that writes a global device setting through adb. */
  predicate IsSettingsWrite(argv: seq<string>) {
    |argv| >= 6 && argv[0] == "adb" && argv[4] == "settings" && argv[5] == "put"
  }

  /** No element occurs twice. */
  predicate Distinct<T(==)>(xs: seq<T>) {
    forall i, j :: 0 <= i < j < |xs| ==> xs[i] != xs[j]
  }

  // ---------------------------------------------------------------------------
  // The reference: commands and exit status, decision by decision
  // ---------------------------------------------------------------------------

  /** The external commands a run makes: binary checks, the listing, device
      resolution, then the stay-awake bracket around scrcpy. */
  function Plan(cmd: Subcommand, world: World): seq<seq<string>> {
    if !(forall b :: b in Needs(cmd) ==> b in world.onPath) then []
    else
      match cmd
      case ShowProfiles => []
      case ShowDevices => [ListCommand]
      case Start(args) => StartPlan(args, world)
  }

  /** The exit status of a run, along the same decisions. */
  function ExitCode(cmd: Subcommand, world: World): int {
    if !(forall b :: b in Needs(cmd) ==> b in world.onPath) then 1
    else
      match cmd
      case ShowProfiles => 0
      case ShowDevices => if world.run(ListCommand).status == 0 then 0 else 1
      case Start(args) => StartExit(args, world)
  }

  /** The device `start` resolves to, when there is one. */
  predicate Resolved(args: StartArgs, world: World, device: string) {
    var listing := world.run(ListCommand);
    var devices := ParseDeviceList(listing.stdout);
    && listing.status == 0 && |devices| > 0
    && device == ChosenSerial(args.serial, devices) && device in devices
  }

  /** The commands `start` makes once both binaries were found. */
  function StartPlan(args: StartArgs, world: World): seq<seq<string>> {
    var listing := world.run(ListCommand);
    var devices := ParseDeviceList(listing.stdout);
    if listing.status != 0 || |devices| == 0 then [ListCommand]
    else
      var device := ChosenSerial(args.serial, devices);
      var enable := StayAwakeCommand(device, true);
      if device !in devices then [ListCommand]
      else [ListCommand] + Steps(args.stayAwake, world.run(enable).status == 0,
                                 enable, Mirror(args, device), StayAwakeCommand(device, false))
  }

  /** The exit status of `start` once both binaries were found. */
  function StartExit(args: StartArgs, world: World): int {
    var listing := world.run(ListCommand);
    var devices := ParseDeviceList(listing.stdout);
    if listing.status != 0 then 1
    else if |devices| == 0 then 2
    else
      var device := ChosenSerial(args.serial, devices);
      var enable := StayAwakeCommand(device, true);
      if device !in devices then 2
      else StepsExit(args.stayAwake, world.run(enable).status == 0,
                     world.run(Mirror(args, device)).status)
  }

  /** After the device is resolved: scrcpy alone, or bracketed by the two
      settings writes; a failed enabling is the last command. */
  function Steps(stayAwake: bool, enabled: bool, enable: seq<string>, mirror: seq<string>,
                 disable: seq<string>): seq<seq<string>> {
    if !stayAwake then [mirror]
    else if !enabled then [enable]
    else [enable, mirror, disable]
  }

  /** A failed enabling exits 1; otherwise scrcpy's status is passed on. */
  function StepsExit(stayAwake: bool, enabled: bool, mirrorStatus: int): int {
    if stayAwake && !enabled then 1 else mirrorStatus
  }

  // ---------------------------------------------------------------------------
  // Every run agrees with the reference
  // ---------------------------------------------------------------------------

  lemma StreamMatches(args: StartArgs, device: string, world: World)
    ensures var enable := StayAwakeCommand(device, true);
            var mirror := Mirror(args, device);
            var o := Stream(args, device, world);
            && Runs(o.trace) == Steps(args.stayAwake, world.run(enable).status == 0, enable, mirror,
                                      StayAwakeCommand(device, false))
            && o.code == StepsExit(args.stayAwake, world.run(enable).status == 0, world.run(mirror).status)
  {
  }

  lemma StartMatches(args: StartArgs, world: World)
    ensures Runs(StartStream(args, world).trace) == StartPlan(args, world)
    ensures StartStream(args, world).code == StartExit(args, world)
  {
    var listing := world.run(ListCommand);
    var devices := ParseDeviceList(listing.stdout);
    if listing.status == 0 && |devices| > 0 {
      var device := ChosenSerial(args.serial, devices);
      if device in devices {
        var stream := Stream(args, device, world);
        RunsAppend([Run(ListCommand)], stream.trace);
        RunsOne(Run(ListCommand));
        StreamMatches(args, device, world);
      }
    }
  }

  /** Every run makes exactly the commands of the reference plan, in that
      order, and exits with the reference status. */
  lemma DispatchMatches(cmd: Subcommand, world: World)
    ensures Runs(Dispatch(cmd, world).trace) == Plan(cmd, world)
    ensures Dispatch(cmd, world).code == ExitCode(cmd, world)
  {
    if !(forall b :: b in Needs(cmd) ==> b in world.onPath) {
      MissingMatches(cmd, world);
    } else if cmd.Start? {
      StartDispatchMatches(cmd.args, world);
    }
  }

  lemma MissingMatches(cmd: Subcommand, world: World)
    requires !(forall b :: b in Needs(cmd) ==> b in world.onPath)
    ensures Runs(Dispatch(cmd, world).trace) == Plan(cmd, world) == []
    ensures Dispatch(cmd, world).code == ExitCode(cmd, world) == 1
  {
    var b :| b in Needs(cmd) && b !in world.onPath;
  }

  lemma StartDispatchMatches(args: StartArgs, world: World)
    requires forall b :: b in Needs(Start(args)) ==> b in world.onPath
    ensures Runs(Dispatch(Start(args), world).trace) == Plan(Start(args), world)
    ensures Dispatch(Start(args), world).code == ExitCode(Start(args), world)
  {
    assert "adb" in Needs(Start(args)) && "scrcpy" in Needs(Start(args));
    StartMatches(args, world);
  }

  // ---------------------------------------------------------------------------
  // Facts about the reference
  // ---------------------------------------------------------------------------

  /** The plan and status of `start` on a resolved device. */
  lemma StartResolved(args: StartArgs, world: World, device: string)
    requires Resolved(args, world, device)
    ensures var enable := StayAwakeCommand(device, true);
            var mirror := Mirror(args, device);
            && StartPlan(args, world)
               == [ListCommand] + Steps(args.stayAwake, world.run(enable).status == 0, enable, mirror,
                                        StayAwakeCommand(device, false))
            && StartExit(args, world)
               == StepsExit(args.stayAwake, world.run(enable).status == 0, world.run(mirror).status)
  {
  }

  /** Among the steps, only `mirror` starts scrcpy, and it is reached only
      after a successful enabling when stay-awake is asked for. */
  lemma MirrorInSteps(stayAwake: bool, enabled: bool, enable: seq<string>, mirror: seq<string>,
                      disable: seq<string>)
    requires !IsMirror(enable) && !IsMirror(disable)
    ensures forall argv :: argv in Steps(stayAwake, enabled, enable, mirror, disable) && IsMirror(argv) ==>
              argv == mirror && (stayAwake ==> enabled)
  {
  }

  /** Unless enabling failed, the steps reach `mirror`. */
  lemma MirrorReached(stayAwake: bool, enabled: bool, enable: seq<string>, mirror: seq<string>,
                      disable: seq<string>)
    requires !stayAwake || enabled
    ensures mirror in Steps(stayAwake, enabled, enable, mirror, disable)
  {
  }

  /** Three distinct command lines give distinct steps. */
  lemma StepsDistinct(stayAwake: bool, enabled: bool, enable: seq<string>, mirror: seq<string>,
                      disable: seq<string>)
    requires enable != mirror && mirror != disable && enable != disable
    ensures Distinct(Steps(stayAwake, enabled, enable, mirror, disable))
  {
  }

  lemma StepsExclude(x: seq<string>, stayAwake: bool, enabled: bool, enable: seq<string>,
                     mirror: seq<string>, disable: seq<string>)
    requires x != enable && x != mirror && x != disable
    ensures x !in Steps(stayAwake, enabled, enable, mirror, disable)
  {
  }

  /** Settings writes among the steps come only with stay-awake. */
  lemma SettingsInSteps(stayAwake: bool, enabled: bool, enable: seq<string>, mirror: seq<string>,
                        disable: seq<string>)
    requires !IsSettingsWrite(mirror)
    ensures forall argv :: argv in Steps(stayAwake, enabled, enable, mirror, disable) && IsSettingsWrite(argv) ==>
              stayAwake
  {
  }

  lemma DistinctCons<T>(x: T, xs: seq<T>)
    requires x !in xs && Distinct(xs)
    ensures Distinct([x] + xs)
  {
    var ys := [x] + xs;
    forall i, j | 0 <= i < j < |ys|
      ensures ys[i] != ys[j]
    {
      assert ys[j] == xs[j - 1];
      if i > 0 {
        assert ys[i] == xs[i - 1];
      }
    }
  }

  /** A scrcpy command in the plan of `start` is the one for the resolved
      device, and follows a successful enabling when stay-awake was asked for. */
  lemma MirrorInStartPlan(args: StartArgs, world: World)
    ensures forall argv :: argv in StartPlan(args, world) && IsMirror(argv) ==>
              exists device ::
                && Resolved(args, world, device)
                && argv == Mirror(args, device)
                && (args.stayAwake ==> world.run(StayAwakeCommand(device, true)).status == 0)
  {
    var listing := world.run(ListCommand);
    var devices := ParseDeviceList(listing.stdout);
    var plan := StartPlan(args, world);
    assert !IsMirror(ListCommand);
    if listing.status == 0 && |devices| > 0 {
      var device := ChosenSerial(args.serial, devices);
      if device in devices {
        var enable := StayAwakeCommand(device, true);
        var disable := StayAwakeCommand(device, false);
        var steps := Steps(args.stayAwake, world.run(enable).status == 0,
                           enable, Mirror(args, device), disable);
        assert enable[..8][0] == "adb" && disable[..8][0] == "adb";
        MirrorInSteps(args.stayAwake, world.run(enable).status == 0, enable, Mirror(args, device), disable);
        assert Resolved(args, world, device);
        forall argv | argv in plan && IsMirror(argv)
          ensures argv == Mirror(args, device)
          ensures args.stayAwake ==> world.run(enable).status == 0
        {
          assert argv in steps;
        }
      }
    }
  }

  /** scrcpy on a resolved device, once stay-awake is settled: it names the
      device, and its status is the exit status. */
  lemma ResolvedMirror(args: StartArgs, world: World, device: string)
    requires Resolved(args, world, device)
    requires args.stayAwake ==> world.run(StayAwakeCommand(device, true)).status == 0
    ensures ReadMirrorCommand(Mirror(args, device)).Some?
    ensures ReadMirrorCommand(Mirror(args, device)).value.device == device
    ensures StartExit(args, world) == world.run(Mirror(args, device)).status
  {
    MirrorCommandRoundTrip(device, Lookup(args.profile), Options(args));
    StartResolved(args, world, device);
  }

  lemma StartPlanMirror(args: StartArgs, world: World)
    ensures var listing := world.run(ListCommand);
            forall argv :: argv in StartPlan(args, world) && IsMirror(argv) ==>
              && listing.status == 0
              && ReadMirrorCommand(argv).Some?
              && ReadMirrorCommand(argv).value.device in ParseDeviceList(listing.stdout)
              && StartExit(args, world) == world.run(argv).status
  {
    MirrorInStartPlan(args, world);
    forall argv | argv in StartPlan(args, world) && IsMirror(argv)
      ensures ReadMirrorCommand(argv).Some?
      ensures ReadMirrorCommand(argv).value.device in ParseDeviceList(world.run(ListCommand).stdout)
      ensures StartExit(args, world) == world.run(argv).status
    {
      var device :| && Resolved(args, world, device)
                     && argv == Mirror(args, device)
                     && (args.stayAwake ==> world.run(StayAwakeCommand(device, true)).status == 0);
      ResolvedMirror(args, world, device);
    }
  }

  /** The facts behind `ScrcpyOnlyOnReadyDevice`, on the reference. */
  lemma PlanMirror(cmd: Subcommand, world: World)
    ensures var listing := world.run(ListCommand);
            forall argv :: argv in Plan(cmd, world) && IsMirror(argv) ==>
              && cmd.Start? && "adb" in world.onPath && "scrcpy" in world.onPath
              && listing.status == 0
              && ReadMirrorCommand(argv).Some?
              && ReadMirrorCommand(argv).value.device in ParseDeviceList(listing.stdout)
              && ExitCode(cmd, world) == world.run(argv).status
  {
    if cmd.Start? && (forall b :: b in Needs(cmd) ==> b in world.onPath) {
      assert "adb" in Needs(cmd) && "scrcpy" in Needs(cmd);
      assert Plan(cmd, world) == StartPlan(cmd.args, world);
      assert ExitCode(cmd, world) == StartExit(cmd.args, world);
      StartPlanMirror(cmd.args, world);
    } else {
      assert Plan(cmd, world) == [] || Plan(cmd, world) == [ListCommand];
      assert !IsMirror(ListCommand);
    }
  }

  lemma PlanDistinct(cmd: Subcommand, world: World)
    ensures Distinct(Plan(cmd, world))
  {
    if cmd.Start? && (forall b :: b in Needs(cmd) ==> b in world.onPath) {
      var args := cmd.args;
      var listing := world.run(ListCommand);
      var devices := ParseDeviceList(listing.stdout);
      if listing.status == 0 && |devices| > 0 {
        var device := ChosenSerial(args.serial, devices);
        if device in devices {
          var enable := StayAwakeCommand(device, true);
          var disable := StayAwakeCommand(device, false);
          var mirror := Mirror(args, device);
          var enabled := world.run(enable).status == 0;
          CommandsDistinct(device, true, device, false, device, Lookup(args.profile), Options(args));
          CommandsDistinct(device, false, device, true, device, Lookup(args.profile), Options(args));
          assert |ListCommand| == 2 && |enable| == 9 && |disable| == 9 && |mirror| >= 9;
          StepsDistinct(args.stayAwake, enabled, enable, mirror, disable);
          StepsExclude(ListCommand, args.stayAwake, enabled, enable, mirror, disable);
          DistinctCons(ListCommand, Steps(args.stayAwake, enabled, enable, mirror, disable));
        }
      }
    }
  }

  lemma PlanSettings(cmd: Subcommand, world: World)
    ensures forall argv :: argv in Plan(cmd, world) && IsSettingsWrite(argv) ==>
              cmd.Start? && cmd.args.stayAwake
  {
    assert !IsSettingsWrite(ListCommand);
    if cmd.Start? && (forall b :: b in Needs(cmd) ==> b in world.onPath) {
      StartPlanSettings(cmd.args, world);
    }
  }

  lemma StartPlanSettings(args: StartArgs, world: World)
    ensures forall argv :: argv in StartPlan(args, world) && IsSettingsWrite(argv) ==> args.stayAwake
  {
    assert !IsSettingsWrite(ListCommand);
    var listing := world.run(ListCommand);
    var devices := ParseDeviceList(listing.stdout);
    if listing.status == 0 && |devices| > 0 {
      var device := ChosenSerial(args.serial, devices);
      if device in devices {
        var enable := StayAwakeCommand(device, true);
        var mirror := Mirror(args, device);
        var steps := Steps(args.stayAwake, world.run(enable).status == 0, enable, mirror,
                           StayAwakeCommand(device, false));
        assert !IsSettingsWrite(mirror);
        StartResolved(args, world, device);
        SettingsInSteps(args.stayAwake, world.run(enable).status == 0, enable, mirror,
                        StayAwakeCommand(device, false));
        forall argv | argv in StartPlan(args, world) && IsSettingsWrite(argv)
          ensures args.stayAwake
        {
          assert argv in steps;
        }
      }
    }
  }

  /** The facts behind `StartExitStatus`, on the reference. */
  lemma StartReference(args: StartArgs, world: World)
    ensures var listing := world.run(ListCommand);
            && (listing.status != 0 ==> StartExit(args, world) == 1 && StartPlan(args, world) == [ListCommand])
            && (listing.status == 0 && (forall d :: !Resolved(args, world, d))
                ==> StartExit(args, world) == 2 && StartPlan(args, world) == [ListCommand])
            && (forall d :: Resolved(args, world, d) ==>
                  var enable := StayAwakeCommand(d, true);
                  if args.stayAwake && world.run(enable).status != 0 then
                    StartExit(args, world) == 1 && StartPlan(args, world) == [ListCommand, enable]
                  else
                    StartExit(args, world) == world.run(Mirror(args, d)).status)
  {
    var listing := world.run(ListCommand);
    var devices := ParseDeviceList(listing.stdout);
    if listing.status == 0 && |devices| > 0 {
      var device := ChosenSerial(args.serial, devices);
      if device !in devices {
        assert forall d :: !Resolved(args, world, d);
      }
    }
    forall d | Resolved(args, world, d)
      ensures var enable := StayAwakeCommand(d, true);
              if args.stayAwake && world.run(enable).status != 0 then
                StartExit(args, world) == 1 && StartPlan(args, world) == [ListCommand, enable]
              else
                StartExit(args, world) == world.run(Mirror(args, d)).status
    {
      StartResolved(args, world, d);
    }
  }

  lemma PlanExitWithoutScrcpy(cmd: Subcommand, world: World)
    ensures (forall argv :: argv in Plan(cmd, world) ==> !IsMirror(argv)) ==> ExitCode(cmd, world) in {0, 1, 2}
  {
    if cmd.Start? && (forall b :: b in Needs(cmd) ==> b in world.onPath) {
      StartExitWithoutScrcpy(cmd.args, world);
    }
  }

  lemma StartExitWithoutScrcpy(args: StartArgs, world: World)
    ensures (forall argv :: argv in StartPlan(args, world) ==> !IsMirror(argv)) ==> StartExit(args, world) in {0, 1, 2}
  {
    var listing := world.run(ListCommand);
    var devices := ParseDeviceList(listing.stdout);
    if listing.status == 0 && |devices| > 0 {
      var device := ChosenSerial(args.serial, devices);
      if device in devices {
        var enable := StayAwakeCommand(device, true);
        var mirror := Mirror(args, device);
        var enabled := world.run(enable).status == 0;
        assert IsMirror(mirror);
        StartResolved(args, world, device);
        if !args.stayAwake || enabled {
          MirrorReached(args.stayAwake, enabled, enable, mirror, StayAwakeCommand(device, false));
        }
      }
    }
  }

  // ---------------------------------------------------------------------------
  // Guarantees of every run
  // ---------------------------------------------------------------------------

  /** scrcpy is only ever started by `start`, after both binaries were found
      and the listing succeeded, on a device the listing reports ready; and
      its exit status is the program's. */
  lemma ScrcpyOnlyOnReadyDevice(cmd: Subcommand, world: World)
    ensures var o := Dispatch(cmd, world);
            var listing := world.run(ListCommand);
            forall argv :: argv in Runs(o.trace) && IsMirror(argv) ==>
              && cmd.Start? && "adb" in world.onPath && "scrcpy" in world.onPath
              && listing.status == 0
              && ReadMirrorCommand(argv).Some?
              && ReadMirrorCommand(argv).value.device in ParseDeviceList(listing.stdout)
              && o.code == world.run(argv).status
  {
    DispatchMatches(cmd, world);
    PlanMirror(cmd, world);
  }

  /** No external command is ever run twice: nothing is retried. */
  lemma NoRepeatedRuns(cmd: Subcommand, world: World)
    ensures Distinct(Runs(Dispatch(cmd, world).trace))
  {
    DispatchMatches(cmd, world);
    PlanDistinct(cmd, world);
  }

  /** The stay-awake setting is written only by `start --stay-awake`. */
  lemma SettingsOnlyWithStayAwake(cmd: Subcommand, world: World)
    ensures forall argv :: argv in Runs(Dispatch(cmd, world).trace) && IsSettingsWrite(argv) ==>
              cmd.Start? && cmd.args.stayAwake
  {
    DispatchMatches(cmd, world);
    PlanSettings(cmd, world);
  }

  /** The exit status of `start` once both binaries were found, and the
      commands made: a failed listing exits 1, an unresolved device exits 2,
      both after the listing alone; a failed enabling exits 1 before scrcpy;
      otherwise scrcpy's status is the program's. */
  lemma StartExitStatus(args: StartArgs, world: World)
    requires "adb" in world.onPath && "scrcpy" in world.onPath
    ensures var o := Dispatch(Start(args), world);
            var listing := world.run(ListCommand);
            && (listing.status != 0 ==> o.code == 1 && Runs(o.trace) == [ListCommand])
            && (listing.status == 0 && (forall d :: !Resolved(args, world, d))
                ==> o.code == 2 && Runs(o.trace) == [ListCommand])
            && (forall d :: Resolved(args, world, d) ==>
                  var enable := StayAwakeCommand(d, true);
                  if args.stayAwake && world.run(enable).status != 0 then
                    o.code == 1 && Runs(o.trace) == [ListCommand, enable]
                  else
                    o.code == world.run(Mirror(args, d)).status)
  {
    DispatchMatches(Start(args), world);
    assert forall b :: b in Needs(Start(args)) ==> b in world.onPath;
    StartReference(args, world);
  }

  /** Without a serial, or with an empty one, scrcpy is pointed at the first
      ready device. */
  lemma DefaultDevice(args: StartArgs, world: World)
    requires args.serial.None? || args.serial == Some("")
    ensures var runs := Runs(Dispatch(Start(args), world).trace);
            var devices := ParseDeviceList(world.run(ListCommand).stdout);
            forall argv :: argv in runs && IsMirror(argv) ==>
              |devices| > 0 && argv == Mirror(args, devices[0])
  {
    DispatchMatches(Start(args), world);
    DefaultDeviceInPlan(args, world);
  }

  lemma DefaultDeviceInPlan(args: StartArgs, world: World)
    requires args.serial.None? || args.serial == Some("")
    ensures var devices := ParseDeviceList(world.run(ListCommand).stdout);
            forall argv :: argv in Plan(Start(args), world) && IsMirror(argv) ==>
              |devices| > 0 && argv == Mirror(args, devices[0])
  {
    var devices := ParseDeviceList(world.run(ListCommand).stdout);
    if forall b :: b in Needs(Start(args)) ==> b in world.onPath {
      MirrorInStartPlan(args, world);
      forall argv | argv in StartPlan(args, world) && IsMirror(argv)
        ensures |devices| > 0 && argv == Mirror(args, devices[0])
      {
        var device :| Resolved(args, world, device) && argv == Mirror(args, device);
        assert device == ChosenSerial(args.serial, devices) == devices[0];
      }
    }
  }

  /** A run that never starts scrcpy exits with 0, 1 or 2. */
  lemma ExitWithoutScrcpy(cmd: Subcommand, world: World)
    ensures var o := Dispatch(cmd, world);
            (forall argv :: argv in Runs(o.trace) ==> !IsMirror(argv)) ==> o.code in {0, 1, 2}
  {
    DispatchMatches(cmd, world);
    PlanExitWithoutScrcpy(cmd, world);
  }

  /** With stay-awake enabled on the resolved device, scrcpy runs between the
      enabling and the restoring write, the restoring write comes whatever
      scrcpy returned, and scrcpy's status is the program's. */
  lemma StayAwakeBracket(args: StartArgs, world: World, device: string)
    requires "adb" in world.onPath && "scrcpy" in world.onPath
    requires args.stayAwake && Resolved(args, world, device)
    requires world.run(StayAwakeCommand(device, true)).status == 0
    ensures var o := Dispatch(Start(args), world);
            && Runs(o.trace) == [ListCommand, StayAwakeCommand(device, true), Mirror(args, device),
                                 StayAwakeCommand(device, false)]
            && o.code == world.run(Mirror(args, device)).status
  {
    var enable, disable := StayAwakeCommand(device, true), StayAwakeCommand(device, false);
    var mirror := Mirror(args, device);
    DispatchMatches(Start(args), world);
    assert forall b :: b in Needs(Start(args)) ==> b in world.onPath;
    StartResolved(args, world, device);
    assert Steps(true, true, enable, mirror, disable) == [enable, mirror, disable];
    PrependToThree(ListCommand, enable, mirror, disable);
  }
}
