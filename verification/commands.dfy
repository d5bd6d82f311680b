/** The two command lines the program assembles: the scrcpy invocation of
    `start_stream` and the `settings put` invocation of `set_stay_awake`. */
module Commands {
  import opened Results
  import opened Decimal
  import opened Profiles

  /** The options of `start` that shape the scrcpy command line. */
  datatype MirrorOptions = MirrorOptions(maxSize: Option<int>, turnScreenOff: bool, noAudio: bool)

  /** `if args.max_size:` — the size is used only when given and nonzero
      (a negative size is truthy and is passed on). */
  function EffectiveMaxSize(maxSize: Option<int>): (r: Option<int>)
    ensures r.Some? <==> maxSize.Some? && maxSize.value != 0
    ensures r.Some? ==> r == maxSize
  {
    match maxSize
    case Some(n) => if n != 0 then Some(n) else None
    case None => None
  }

  /** The on/off flags, in the order they are appended. */
  function Switches(turnScreenOff: bool, noAudio: bool): seq<string> {
    (if turnScreenOff then ["--turn-screen-off"] else []) + (if noAudio then ["--no-audio"] else [])
  }

  /** Everything after the nine fixed arguments. */
  function MirrorTail(opts: MirrorOptions): (tail: seq<string>)
    ensures "--max-size" in tail <==> EffectiveMaxSize(opts.maxSize).Some?
    ensures "--turn-screen-off" in tail <==> opts.turnScreenOff
    ensures "--no-audio" in tail <==> opts.noAudio
  {
    var sizing := match EffectiveMaxSize(opts.maxSize) {
      case Some(n) => NumeralIsNoFlag(n); ["--max-size", IntToDecimal(n)]
      case None => []
    };
    sizing + Switches(opts.turnScreenOff, opts.noAudio)
  }

  /** The scrcpy command line for `device` with preset `p`. */
  function MirrorCommand(device: string, p: Profile, opts: MirrorOptions): (argv: seq<string>)
    ensures |argv| >= 9
    ensures argv[..9] == ["scrcpy", "--serial", device, "--video-bit-rate", p.bitrate,
                          "--max-fps", IntToDecimal(p.maxFps), "--video-codec", p.codec]
    ensures |argv| == 9 + (if EffectiveMaxSize(opts.maxSize).Some? then 2 else 0)
                        + (if opts.turnScreenOff then 1 else 0) + (if opts.noAudio then 1 else 0)
    ensures "--max-size" in argv[9..] <==> EffectiveMaxSize(opts.maxSize).Some?
    ensures "--turn-screen-off" in argv[9..] <==> opts.turnScreenOff
    ensures "--no-audio" in argv[9..] <==> opts.noAudio
  {
    var base := ["scrcpy", "--serial", device, "--video-bit-rate", p.bitrate,
                 "--max-fps", IntToDecimal(p.maxFps), "--video-codec", p.codec];
    var tail := MirrorTail(opts);
    assert (base + tail)[9..] == tail;
    base + tail
  }

  /** What a scrcpy command line asks for. */
  datatype MirrorRequest = MirrorRequest(
    device: string, bitrate: string, maxFps: int, codec: string,
    maxSize: Option<int>, turnScreenOff: bool, noAudio: bool)

  /** The optional tail of a scrcpy command line. */
  datatype Flags = Flags(maxSize: Option<int>, turnScreenOff: bool, noAudio: bool)

  /** Reads `--turn-screen-off` then `--no-audio`, each optional, and nothing else. */
  function ReadSwitches(rest: seq<string>): Option<(bool, bool)> {
    var off := |rest| >= 1 && rest[0] == "--turn-screen-off";
    var r1 := if off then rest[1..] else rest;
    var mute := |r1| >= 1 && r1[0] == "--no-audio";
    var r2 := if mute then r1[1..] else r1;
    if |r2| == 0 then Some((off, mute)) else None
  }

  /** Reads an optional `--max-size N` pair, then the switches. */
  function ReadFlags(rest: seq<string>): Option<Flags> {
    if |rest| >= 2 && rest[0] == "--max-size" then
      match (DecimalValue(rest[1]), ReadSwitches(rest[2..]))
      case (Some(n), Some(sw)) => Some(Flags(Some(n), sw.0, sw.1))
      case _ => None
    else
      match ReadSwitches(rest)
      case Some(sw) => Some(Flags(None, sw.0, sw.1))
      case None => None
  }

  /** Reads a command line of the shape `MirrorCommand` builds. */
  function ReadMirrorCommand(argv: seq<string>): Option<MirrorRequest> {
    if |argv| < 9 || argv[0] != "scrcpy" || argv[1] != "--serial" || argv[3] != "--video-bit-rate"
       || argv[5] != "--max-fps" || argv[7] != "--video-codec"
    then None
    else
      match (DecimalValue(argv[6]), ReadFlags(argv[9..]))
      case (Some(fps), Some(f)) =>
        Some(MirrorRequest(argv[2], argv[4], fps, argv[8], f.maxSize, f.turnScreenOff, f.noAudio))
      case _ => None
  }

  /** A numeral is never mistaken for one of the flags. */
  lemma NumeralIsNoFlag(n: int)
    ensures IntToDecimal(n) != "--max-size"
    ensures IntToDecimal(n) != "--turn-screen-off"
    ensures IntToDecimal(n) != "--no-audio"
  {
    var s := IntToDecimal(n);
    if n < 0 {
      assert IsDigit(s[1..][0]);
    } else {
      assert IsDigit(s[0]);
    }
  }

  lemma ReadSwitchesRoundTrip(off: bool, mute: bool)
    ensures ReadSwitches(Switches(off, mute)) == Some((off, mute))
  {
    var audio := if mute then ["--no-audio"] else [];
    if off {
      assert Switches(off, mute)[1..] == audio;
    } else {
      assert Switches(off, mute) == audio;
    }
  }

  lemma ReadSizedFlags(n: int, off: bool, mute: bool)
    ensures ReadFlags(["--max-size", IntToDecimal(n)] + Switches(off, mute)) == Some(Flags(Some(n), off, mute))
  {
    var sw := Switches(off, mute);
    var tail := ["--max-size", IntToDecimal(n)] + sw;
    ReadSwitchesRoundTrip(off, mute);
    DecimalRoundTrip(n);
    assert tail[0] == "--max-size" && tail[1] == IntToDecimal(n);
    assert tail[2..] == sw;
  }

  lemma ReadUnsizedFlags(off: bool, mute: bool)
    ensures ReadFlags(Switches(off, mute)) == Some(Flags(None, off, mute))
  {
    var sw := Switches(off, mute);
    ReadSwitchesRoundTrip(off, mute);
    assert sw == [] || sw[0] != "--max-size";
  }

  lemma ReadFlagsRoundTrip(opts: MirrorOptions)
    ensures ReadFlags(MirrorTail(opts))
         == Some(Flags(EffectiveMaxSize(opts.maxSize), opts.turnScreenOff, opts.noAudio))
  {
    var sw := Switches(opts.turnScreenOff, opts.noAudio);
    match EffectiveMaxSize(opts.maxSize)
    case Some(n) =>
      assert MirrorTail(opts) == ["--max-size", IntToDecimal(n)] + sw;
      ReadSizedFlags(n, opts.turnScreenOff, opts.noAudio);
    case None =>
      assert MirrorTail(opts) == [] + sw;
      ReadUnsizedFlags(opts.turnScreenOff, opts.noAudio);
  }

  /** scrcpy reads back from the command line exactly the device, the preset's
      settings and the options that were requested (a zero size counting as
      no size). */
  lemma MirrorCommandRoundTrip(device: string, p: Profile, opts: MirrorOptions)
    ensures ReadMirrorCommand(MirrorCommand(device, p, opts))
         == Some(MirrorRequest(device, p.bitrate, p.maxFps, p.codec,
                               EffectiveMaxSize(opts.maxSize), opts.turnScreenOff, opts.noAudio))
  {
    var argv := MirrorCommand(device, p, opts);
    assert argv[9..] == MirrorTail(opts);
    assert argv[..9][6] == IntToDecimal(p.maxFps);
    ReadFlagsRoundTrip(opts);
    DecimalRoundTrip(p.maxFps);
  }

  /** Two scrcpy command lines are equal exactly when they ask for the same
      device, preset settings and options; the preset's name and a zero size
      leave no trace. */
  lemma MirrorCommandInjective(d1: string, p1: Profile, o1: MirrorOptions,
                               d2: string, p2: Profile, o2: MirrorOptions)
    ensures MirrorCommand(d1, p1, o1) == MirrorCommand(d2, p2, o2)
        <==> && d1 == d2 && p1.bitrate == p2.bitrate && p1.maxFps == p2.maxFps && p1.codec == p2.codec
             && EffectiveMaxSize(o1.maxSize) == EffectiveMaxSize(o2.maxSize)
             && o1.turnScreenOff == o2.turnScreenOff && o1.noAudio == o2.noAudio
  {
    MirrorCommandRoundTrip(d1, p1, o1);
    MirrorCommandRoundTrip(d2, p2, o2);
    if && d1 == d2 && p1.bitrate == p2.bitrate && p1.maxFps == p2.maxFps && p1.codec == p2.codec
       && EffectiveMaxSize(o1.maxSize) == EffectiveMaxSize(o2.maxSize)
       && o1.turnScreenOff == o2.turnScreenOff && o1.noAudio == o2.noAudio
    {
      assert MirrorTail(o1) == MirrorTail(o2);
    }
  }

  /** `set_stay_awake`: the setting is written as `"3"` to enable and `"0"` to
      disable. */
  function StayAwakeCommand(device: string, enabled: bool): (argv: seq<string>)
    ensures |argv| == 9
    ensures argv[..8] == ["adb", "-s", device, "shell", "settings", "put", "global", "stay_on_while_plugged_in"]
  {
    ["adb", "-s", device, "shell", "settings", "put", "global", "stay_on_while_plugged_in",
     if enabled then "3" else "0"]
  }

  /** The value a `settings put` command line writes, read back. */
  function StayAwakeValue(argv: seq<string>): Option<bool> {
    if |argv| == 9 && argv[8] == "3" then Some(true)
    else if |argv| == 9 && argv[8] == "0" then Some(false)
    else None
  }

  /** Enabling and disabling are told apart by the written value, and the
      command names its device. */
  lemma StayAwakeCommandRoundTrip(device: string, enabled: bool)
    ensures StayAwakeValue(StayAwakeCommand(device, enabled)) == Some(enabled)
    ensures StayAwakeCommand(device, enabled)[2] == device
  {
  }

  /** The invocations the program makes are pairwise distinguishable: a
      settings write is never a scrcpy run, and two settings writes are equal
      only when they ask for the same thing (for two scrcpy runs, see
      `MirrorCommandInjective`). */
  lemma CommandsDistinct(d1: string, e1: bool, d2: string, e2: bool,
                         device: string, p: Profile, opts: MirrorOptions)
    ensures StayAwakeCommand(d1, e1) != MirrorCommand(device, p, opts)
    ensures StayAwakeCommand(d1, e1) == StayAwakeCommand(d2, e2) <==> d1 == d2 && e1 == e2
  {
    if StayAwakeCommand(d1, e1) == StayAwakeCommand(d2, e2) {
      StayAwakeCommandRoundTrip(d1, e1);
      StayAwakeCommandRoundTrip(d2, e2);
    }
    assert StayAwakeCommand(d1, e1)[0] != MirrorCommand(device, p, opts)[0];
  }

  lemma SixtyNumeral()
    ensures IntToDecimal(60) == "60"
  {
    assert NatToDecimal(6) == "6";
  }

  lemma SizeNumeral()
    ensures IntToDecimal(1024) == "1024"
  {
    assert NatToDecimal(1) == "1";
    assert NatToDecimal(10) == "10";
    assert NatToDecimal(102) == "102";
  }

  /** The balanced preset without options gives exactly the nine fixed
      arguments. */
  lemma BalancedExample(device: string)
    ensures MirrorCommand(device, Lookup(Balanced), MirrorOptions(None, false, false))
            == ["scrcpy", "--serial", device, "--video-bit-rate", "8M", "--max-fps", "60",
                "--video-codec", "h264"]
  {
    SixtyNumeral();
    var short := MirrorCommand(device, Lookup(Balanced), MirrorOptions(None, false, false));
    assert short == short[..9];
  }

  /** Adding a maximum size of 1024 appends exactly one pair. */
  lemma SizedExample(device: string)
    ensures MirrorCommand(device, Lookup(Balanced), MirrorOptions(Some(1024), false, false))
            == MirrorCommand(device, Lookup(Balanced), MirrorOptions(None, false, false))
               + ["--max-size", "1024"]
  {
    SizeNumeral();
    var short := MirrorCommand(device, Lookup(Balanced), MirrorOptions(None, false, false));
    var sized := MirrorCommand(device, Lookup(Balanced), MirrorOptions(Some(1024), false, false));
    assert short == short[..9];
    assert MirrorTail(MirrorOptions(Some(1024), false, false)) == ["--max-size", "1024"];
    assert sized == sized[..9] + sized[9..];
  }
}
