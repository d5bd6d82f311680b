# PhonixCast core, modelled in Dafny

PhonixCast is a small command-line wrapper that mirrors an Android screen over
USB. It checks that `adb` and `scrcpy` are on PATH. It reads the ready devices
out of `adb devices` and picks one. Optionally it sets the device's
`stay_on_while_plugged_in` setting around the session. It runs scrcpy with the
bit rate, frame-rate cap and codec of one of three presets, and passes scrcpy's
exit status through.

This project models that decision logic as pure functions. Everything outside
the program is a `Session.World`: the set of binaries PATH holds, and the
`ProcessResult` (status, stdout, stderr) each command line would return. A run
of the program (`Session.Dispatch`, which is `main`) yields an
`Outcome`: the exit status plus a trace of events. The events are PATH
lookups, processes run, and diagnostics written to the error stream.

Modules, in dependency order:

- `Results`: `Option` and `Result`.
- `Sequences`: generic sequence facts.
- `Text`: Python's `str.splitlines`, `str.split()` and `str.strip()`, over Python's exact whitespace and line-boundary sets.
- `Decimal`: `str()` on integers, and reading a numeral back.
- `Profiles`: the `Profile` record and the `PROFILES` table.
- `Gateway`: the process result and the program's `RuntimeError` cases.
- `Devices`: `list_devices`.
- `Commands`: the scrcpy and `settings put` command lines, with decoders that read them back.
- `Session`: `start_stream`, `_require_binary` and `main`.
- `Guarantees`: whole-run properties. `Guarantees.Plan` and `Guarantees.ExitCode` restate the commands and the exit status of a run as flat decisions. Every run is proved to agree with them, and the ordering, no-retry and exit-status guarantees are proved from them.

Three behaviours of `app/main.py` are easy to miss:

- `devices` exits 1 when `adb devices` itself fails, although `print_devices` has no failure path of its own. The `RuntimeError` from `list_devices` reaches `main`'s handler.
- An empty `--serial ""` behaves like an absent one, because of `args.serial or devices[0]`.
- `--max-size 0` adds nothing and a negative size is passed on. Only the truthiness of the value is tested.

## Model

| member | source | states |
|---|---|---|
| Profiles.LookupByName | app/main.py:24-30 | exactly the three names have a preset: balanced 8M/60/h264, low-latency 6M/45/h264, ultra-low-latency 4M/30/h264; any other name has none |
| Profiles.Lookup | app/main.py:69 | `PROFILES[args.profile]` is the preset carrying the key's own name, with the h264 codec |
| Profiles.KeyNameRoundTrip | app/main.py:24-30 | each key the `--profile` choices accept has its own name, which reads back as that key, and looking the name up in the table gives exactly `PROFILES[key]`, so bit rate and frame cap are those of the table row |
| Text.SplitLines | app/main.py:53 | `splitlines` yields lines free of line boundaries, none for empty text, at most one per character |
| Text.SplitLinesOfJoin | app/main.py:53 | text whose lines each end in `\n` or `\r\n` splits back into exactly those lines |
| Text.Tokens | app/main.py:54 | `split()` yields non-empty fields free of whitespace, never more than there are characters, and written one after another they are exactly the text's non-whitespace characters in order |
| Text.Strip | app/main.py:50-54 | `strip()` keeps one contiguous piece of the text, starting at its first non-whitespace character, with only whitespace cut on either side and none left at either end |
| Text.TokensOfStrip | app/main.py:54 | `strip()` before `split()` changes no field |
| Text.TokensOfJoin | app/main.py:54 | words joined by any non-empty whitespace split back into exactly those words |
| Decimal.IntToDecimal | app/main.py:91 | `str(n)` is non-empty, has a minus sign exactly when n is negative, and digits otherwise |
| Decimal.DecimalRoundTrip | app/main.py:97 | reading back the numeral `str(n)` gives n, for every integer n |
| Decimal.IntToDecimalInjective | app/main.py:97 | distinct sizes give distinct `--max-size` numerals |
| Devices.ListDevices | app/main.py:47-57 | a nonzero listing status is a failure carrying the stripped stderr; a zero status yields the parsed serials |
| Devices.Fields | app/main.py:54 | a line's fields are whitespace-free words that together hold exactly its non-whitespace characters, in order |
| Devices.ReadySerials | app/main.py:55-56 | never more serials than rows, and none when no row is ready (membership and order: the two rows below) |
| Devices.ParseDeviceList | app/main.py:52-57 | at most one serial per line after the header; a listing of at most one line yields none |
| Devices.ReadySerialsMember | app/main.py:53-56 | a serial is reported iff some row has at least two fields, the second exactly `device`, and the first is that serial |
| Devices.ReadySerialsAppend | app/main.py:52-57 | the result of concatenated rows is the concatenation of the results: row order is kept |
| Devices.NotReadyIgnored | app/main.py:55-56 | a row that is not ready (`unauthorized`, `offline`, blank, one field) contributes nothing wherever it stands |
| Devices.FieldsOfJoin | app/main.py:54 | a line of fields separated by whitespace, with any whitespace before and after, yields exactly those fields |
| Devices.ParseJoinedListing | app/main.py:53-56 | the first line is skipped whatever it holds, and the rest are filtered row by row |
| Devices.HeaderOnlyListing | app/main.py:53 | a header-only listing yields no device |
| Devices.MixedListing | app/main.py:53-56 | a `device` row and an `unauthorized` row yield only the ready serial |
| Commands.EffectiveMaxSize | app/main.py:96 | the size is used iff it was given and is nonzero, and then unchanged |
| Commands.MirrorTail | app/main.py:96-103 | each optional flag appears iff its option is set |
| Commands.MirrorCommand | app/main.py:84-103 | the first nine arguments are fixed by device and preset; the length counts exactly the optional flags; each flag appears after them iff requested |
| Commands.ReadFlagsRoundTrip | app/main.py:96-103 | the optional part decodes back to the effective size and the two switches, in order |
| Commands.MirrorCommandRoundTrip | app/main.py:84-103 | decoding the scrcpy command gives back device, bit rate, frame cap, codec, effective size and switches: nothing is lost or added |
| Commands.MirrorCommandInjective | app/main.py:84-103 | two scrcpy command lines are equal iff they agree on device, bit rate, frame cap, codec, effective size and both switches; the preset's name never reaches the command |
| Commands.NumeralIsNoFlag | app/main.py:97 | a size numeral never reads as one of the flags |
| Commands.BalancedExample | app/main.py:84-94 | balanced without options gives exactly the nine base arguments `scrcpy --serial d --video-bit-rate 8M --max-fps 60 --video-codec h264` |
| Commands.SizedExample | app/main.py:96-97 | adding `--max-size 1024` appends exactly the pair `--max-size 1024` to that |
| Commands.StayAwakeCommand | app/main.py:60-62 | the settings command has nine arguments with the fixed `settings put global stay_on_while_plugged_in` prefix for the device |
| Commands.StayAwakeCommandRoundTrip | app/main.py:61-62 | the written value reads back as enabling (`3`) or disabling (`0`), and the command names its device |
| Commands.CommandsDistinct | app/main.py:62-94 | a settings write is never a scrcpy command; two settings writes are equal iff device and value are |
| Session.ChosenSerial | app/main.py:76-77 | no serial or an empty one picks the first ready device, a non-empty one is used as given, and the choice is ready iff the request was empty or listed |
| Session.Bracket | app/main.py:81-117 | a failed enabling aborts with status 1 after that command alone; otherwise scrcpy's status is returned, the restoring write follows scrcpy, and only its failure draws the warning |
| Session.StartStream | app/main.py:68-117 | the listing runs first; a failed listing exits 1, no ready device or an unavailable one exits 2, each after the listing alone; otherwise the stay-awake bracket follows |
| Session.Require | app/main.py:33-35 | the needed binaries are looked up in order, stopping after the first one missing from PATH; success iff all are on PATH; a failure names exactly that first missing binary, every earlier one having been found; nothing is run |
| Session.MissingBinaryTrace | app/main.py:163-184 | `adb` is checked before `scrcpy`: without `adb` the run is one lookup and the error naming `adb`; with `adb` but not `scrcpy`, `start` makes both lookups and reports `scrcpy`; either way it exits 1 |
| Session.Dispatch | app/main.py:163-184 | `profiles` exits 0 running nothing; a missing binary exits 1 running nothing; `devices` runs one listing and exits 0 or 1 with it; `start` is `start_stream` |
| Guarantees.StartMatches | app/main.py:68-117 | the commands `start_stream` runs and the status it returns are exactly the reference ones: listing, then resolution, then the bracket |
| Guarantees.DispatchMatches | app/main.py:163-184 | every run makes exactly the commands of the reference plan, in order, and exits with the reference status |
| Guarantees.MirrorInStartPlan | app/main.py:72-106 | a scrcpy command in the plan is the one for the resolved device, after a successful enabling when stay-awake was asked for |
| Guarantees.ResolvedMirror | app/main.py:84-117 | the scrcpy command for a resolved device names that device, and its status is the exit status once stay-awake is settled |
| Guarantees.PlanDistinct | app/main.py:47-117 | the listing, the two settings writes and the scrcpy command of one plan are pairwise different |
| Guarantees.ScrcpyOnlyOnReadyDevice | app/main.py:68-117 | scrcpy runs only for `start` with both binaries present and a successful listing, on a serial the listing reports ready, and its status is the exit status |
| Guarantees.NoRepeatedRuns | app/main.py:163-184 | no command line is run twice in one run |
| Guarantees.SettingsOnlyWithStayAwake | app/main.py:81-82 | without `--stay-awake` no settings write is made |
| Guarantees.StartExitStatus | app/main.py:68-117 | listing failure exits 1 and no resolved device exits 2, each after the listing alone; a failed enabling exits 1 before scrcpy; otherwise scrcpy's status is returned |
| Guarantees.DefaultDevice | app/main.py:76 | with no serial or an empty one, scrcpy is pointed at the first ready device |
| Guarantees.ExitWithoutScrcpy | app/main.py:163-184 | a run that never starts scrcpy exits with 0, 1 or 2 |
| Guarantees.StayAwakeBracket | app/main.py:106-117 | with stay-awake enabled, the commands are listing, enable, scrcpy, disable, whatever scrcpy returned, and scrcpy's status is returned |

## Left out

- Process spawning (`run_command`, `subprocess.run`) and PATH lookup (`shutil.which`) are inputs of the model, a `World`. So is text-mode decoding of the captured output. `splitlines` treats `\r\n` as one boundary, so the result is the same either way.
- Argument parsing (`build_parser`) is not modelled. The parsed arguments are a `StartArgs` record, and `--profile` is a `Key`, which mirrors the `choices=` restriction. The `print_help` fallthrough in `main` is unreachable, because argparse requires a subcommand, so it is not modelled.
- Printing is left out: the profile and device lists, the start banner, and the message texts. What goes to the error stream becomes a `Report` event naming the condition.
- `print_profiles` only prints. `print_devices` runs the listing through `list_devices` and prints the result. Their printing is left out; their exit status and the commands they run are modelled inside `Session.Dispatch`.
- Interrupts (`KeyboardInterrupt`) and signals ending scrcpy are not modelled. Neither is the operating system truncating an exit status to 8 bits.
- Devices.ReadySerialsMember: order is not stated as a list of positions. It follows from Devices.ReadySerialsAppend instead.
- Session.Dispatch: the exact trace of `devices` and `start` is stated through the commands it runs (`Session.Runs`). Diagnostics are stated at the `start_stream` and bracket level (`Session.StartStream`, `Session.Bracket`).
