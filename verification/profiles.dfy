/** The fixed table of quality presets (`Profile` and `PROFILES`). */
module Profiles {
  import opened Results

  /** The three keys the `--profile` option accepts. */
  datatype Key = Balanced | LowLatency | UltraLowLatency

  /** A quality preset: scrcpy's bit rate, frame-rate cap and codec. */
  datatype Profile = Profile(name: string, bitrate: string, maxFps: int, codec: string)

  function KeyName(k: Key): string {
    match k
    case Balanced => "balanced"
    case LowLatency => "low-latency"
    case UltraLowLatency => "ultra-low-latency"
  }

  /** `PROFILES[k]`. */
  function Lookup(k: Key): (p: Profile)
    ensures p.name == KeyName(k)
    ensures p.codec == "h264"
  {
    match k
    case Balanced => Profile("balanced", "8M", 60, "h264")
    case LowLatency => Profile("low-latency", "6M", 45, "h264")
    case UltraLowLatency => Profile("ultra-low-latency", "4M", 30, "h264")
  }

  /** The `choices=` check on `--profile`: the key spelled `name`, if any. */
  function KeyOf(name: string): (r: Option<Key>)
    ensures r.Some? ==> KeyName(r.value) == name
    ensures r.None? ==> forall k :: KeyName(k) != name
  {
    if name == "balanced" then Some(Balanced)
    else if name == "low-latency" then Some(LowLatency)
    else if name == "ultra-low-latency" then Some(UltraLowLatency)
    else None
  }

  /** Looking a profile up by name: the recorded preset for each of the three
      names, nothing for any other name. */
  function LookupByName(name: string): (r: Option<Profile>)
    ensures r.Some? <==> name in {"balanced", "low-latency", "ultra-low-latency"}
    ensures r.Some? ==> r.value.name == name
    ensures name == "balanced" ==> r == Some(Profile("balanced", "8M", 60, "h264"))
    ensures name == "low-latency" ==> r == Some(Profile("low-latency", "6M", 45, "h264"))
    ensures name == "ultra-low-latency" ==> r == Some(Profile("ultra-low-latency", "4M", 30, "h264"))
  {
    match KeyOf(name)
    case None => None
    case Some(k) => Some(Lookup(k))
  }

  /** Every key is named once, its name reads back as the key, and looking that
      name up gives the key's preset: `PROFILES[k]` is the recorded entry. */
  lemma KeyNameRoundTrip(k: Key)
    ensures KeyOf(KeyName(k)) == Some(k)
    ensures forall other: Key :: KeyName(other) == KeyName(k) ==> other == k
    ensures LookupByName(KeyName(k)) == Some(Lookup(k))
  {
  }
}
