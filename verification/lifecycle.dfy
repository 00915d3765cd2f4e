/**
 Detection, start-up and shut-down of the BeOS MIDI driver. The host synth
 (the driver's BMidiSynth object and the shared BSynth it configures) is
 modelled by the calls made to it, in order, and by the answers it gives;
 the configuration file is replaced by the raw integers read from it.
 */
module Lifecycle {

  import opened Optional

  /**
   Allegro's `MID(x, y, z)` macro, `MAX(x, MIN(y, z))`: `v` clamped into
   `lo..hi`.
   */
  function Mid(lo: int, v: int, hi: int): (r: int)
    ensures lo <= hi ==> lo <= r <= hi
    ensures lo <= v <= hi ==> r == v
    ensures v < lo ==> r == lo
    ensures lo <= hi < v ==> r == hi
  {
    var m := if v < hi then v else hi;
    if lo > m then lo else m
  }

  datatype SynthMode = LittleSynth | BigSynth

  datatype Interpolation = DropSample | TwoPointInterpolation | LinearInterpolation

  /** The reverb names, indexed by reverb mode 0..5. */
  const REVERB_NAMES: seq<string> := ["no", "closet", "garage", "ballroom", "cavern", "dungeon"]

  /**
   The raw integers of the `be_midi_quality`, `be_midi_reverb`,
   `be_midi_freq` and `be_midi_interpolation` settings of the "sound"
   section, before clamping.
   */
  datatype Config = Config(quality: int, reverb: int, freq: int, interpolation: int)

  /** The values used when the settings are absent. */
  const DEFAULT_CONFIG: Config := Config(1, 0, 22050, 1)

  /** A call the driver makes on the host synth. */
  datatype HostCall =
    | LoadSynthData(mode: SynthMode)
    | EnableInput(enable: bool, removeCache: bool)
    | FlushInstrumentCache(startStopCache: bool)
    | SetReverb(reverb: int)
    | EnableReverb(on: bool)
    | SetSamplingRate(rate: int)
    | SetInterpolation(interpolation: Interpolation)
    | AllNotesOff(justChannel: bool)

  /**
   The answers of the host: whether the BMidiSynth object could be made,
   whether loading the instrument data returned B_OK, whether the synth
   then reports it loaded, and the sampling rate it reports.
   */
  datatype Host = Host(constructs: bool, loadOk: bool, isLoaded: bool, samplingRate: int)

  /** The parts of the driver description string: quality, interpolation, kHz and reverb. */
  datatype Description = Description(quality: string, interpolation: string, kHz: int, reverb: string)

  /** The driver's synth handle: null, or an open synth with its description. */
  datatype Handle = NoSynth | Synth(desc: Description)

  datatype InitError = InputNotSupported | NotEnoughMemory | CannotLoadInstruments

  /** What be_midi_init returns, the synth handle it leaves and the host calls it made. */
  datatype InitOutcome = InitOutcome(status: int, error: Option<InitError>, handle: Handle, host: seq<HostCall>)

  datatype ExitOutcome = ExitOutcome(handle: Handle, host: seq<HostCall>)

  /** be_midi_detect: output is always available, input never is. */
  function Detect(input: int): (failure: Option<InitError>)
    ensures failure.None? <==> input == 0
    ensures failure.Some? ==> failure.value == InputNotSupported
  {
    if input != 0 then Some(InputNotSupported) else None
  }

  /** The interpolation mode and its description label for a quality setting. */
  datatype InterpolationChoice = InterpolationChoice(mode: Interpolation, text: string)

  /**
   The switch on the interpolation setting. It has no default branch, so a
   value outside 0..2 would keep the initial two-point mode with an empty
   label; after clamping that cannot happen.
   */
  function InterpolationFor(quality: int): (c: InterpolationChoice)
    ensures c.text in {"", "fast", "linear"}
    ensures c.text == "" <==> quality != 1 && quality != 2
    ensures c.mode == DropSample <==> quality == 0
    ensures c.mode == LinearInterpolation <==> c.text == "linear"
    ensures c.text == "fast" <==> quality == 1
    ensures c.mode == LinearInterpolation <==> quality == 2
    ensures c.mode == TwoPointInterpolation <==> quality != 0 && quality != 2
  {
    match quality
    case 0 => InterpolationChoice(DropSample, "")
    case 1 => InterpolationChoice(TwoPointInterpolation, "fast")
    case 2 => InterpolationChoice(LinearInterpolation, "linear")
    case _ => InterpolationChoice(TwoPointInterpolation, "")
  }

  /**
   The label of an interpolation setting names it: within the clamped range
   0..2 different settings give different labels and different modes.
   */
  lemma InterpolationLabelsDistinct(q1: int, q2: int)
    requires 0 <= q1 <= 2 && 0 <= q2 <= 2
    ensures InterpolationFor(q1).text == InterpolationFor(q2).text <==> q1 == q2
    ensures InterpolationFor(q1).mode == InterpolationFor(q2).mode <==> q1 == q2
  {
  }

  /** The integer division of C, which truncates toward zero. */
  function TruncDiv(a: int, b: int): (q: int)
    requires b > 0
    ensures a >= 0 ==> 0 <= a - q * b < b
    ensures a < 0 ==> -b < a - q * b <= 0
  {
    if a >= 0 then a / b else -((-a) / b)
  }

  /** The reverb calls for a reverb mode: mode 0 only switches reverb off. */
  function ReverbCalls(reverb: int): seq<HostCall> {
    if reverb != 0 then [SetReverb(reverb), EnableReverb(true)] else [EnableReverb(false)]
  }

  /**
   be_midi_init. Input is refused before the synth handle is touched; a
   synth that cannot be made leaves the handle null; instrument data that
   cannot be loaded deletes the synth and leaves the handle null. Otherwise
   the synth is configured from the clamped settings and its description
   recorded. The sampling rate is passed on unclamped.
   */
  function Init(handle: Handle, input: int, cfg: Config, host: Host): (r: InitOutcome)
    ensures r.status == 0 || r.status == -1
    ensures r.status == 0 <==> r.error.None?
    ensures input != 0 ==> r == InitOutcome(-1, Some(InputNotSupported), handle, [])
    ensures input == 0 ==> (r.status == 0 <==> host.constructs && host.loadOk && host.isLoaded)
    ensures input == 0 && r.status != 0 ==> r.handle == NoSynth
    ensures input == 0 && !host.constructs ==> r.error == Some(NotEnoughMemory) && r.host == []
    ensures input == 0 && host.constructs && !(host.loadOk && host.isLoaded) ==>
      r.error == Some(CannotLoadInstruments) && |r.host| == 1
    ensures input == 0 && host.constructs ==>
      |r.host| >= 1 && r.host[0] == LoadSynthData(if cfg.quality >= 1 then BigSynth else LittleSynth)
    ensures r.status == 0 ==>
      && r.handle.Synth?
      && r.handle.desc.quality == (if cfg.quality >= 1 then "high" else "low")
      && r.handle.desc.reverb in REVERB_NAMES
      && r.handle.desc.reverb == REVERB_NAMES[if cfg.reverb < 0 then 0 else if cfg.reverb > 5 then 5 else cfg.reverb]
      && r.handle.desc.interpolation in {"", "fast", "linear"}
      && (r.handle.desc.interpolation == "" <==> cfg.interpolation <= 0)
      && (r.handle.desc.interpolation == "fast" <==> cfg.interpolation == 1)
      && (r.handle.desc.interpolation == "linear" <==> cfg.interpolation >= 2)
      && r.handle.desc.kHz == TruncDiv(host.samplingRate, 1000)
      && |r.host| == (if cfg.reverb > 0 then 7 else 6)
      && r.host[1] == EnableInput(true, true)
      && r.host[2] == FlushInstrumentCache(true)
      && EnableReverb(cfg.reverb > 0) in r.host
      && (forall i :: 0 <= i < |r.host| && r.host[i].SetReverb? ==> 1 <= r.host[i].reverb <= 5)
      && (cfg.reverb > 0 ==> SetReverb(if cfg.reverb > 5 then 5 else cfg.reverb) in r.host)
      && SetSamplingRate(cfg.freq) in r.host
      && r.host[3..|r.host| - 1] ==
           (if cfg.reverb > 0 then [SetReverb(if cfg.reverb > 5 then 5 else cfg.reverb), EnableReverb(true)]
            else [EnableReverb(false)])
           + [SetSamplingRate(cfg.freq)]
      && r.host[|r.host| - 1] == SetInterpolation(
           if cfg.interpolation <= 0 then DropSample
           else if cfg.interpolation == 1 then TwoPointInterpolation
           else LinearInterpolation)
  {
    if input != 0 then InitOutcome(-1, Some(InputNotSupported), handle, [])
    else if !host.constructs then InitOutcome(-1, Some(NotEnoughMemory), NoSynth, [])
    else
      var mode := Mid(0, cfg.quality, 1);
      var sm := if mode != 0 then BigSynth else LittleSynth;
      var load := [LoadSynthData(sm)];
      if !host.loadOk || !host.isLoaded then InitOutcome(-1, Some(CannotLoadInstruments), NoSynth, load)
      else
        var reverb := Mid(0, cfg.reverb, 5);
        var quality := Mid(0, cfg.interpolation, 2);
        var interp := InterpolationFor(quality);
        var calls := load + [EnableInput(true, true), FlushInstrumentCache(true)]
                     + ReverbCalls(reverb)
                     + [SetSamplingRate(cfg.freq), SetInterpolation(interp.mode)];
        var desc := Description(if mode != 0 then "high" else "low", interp.text,
                                TruncDiv(host.samplingRate, 1000), REVERB_NAMES[reverb]);
        InitOutcome(0, None, Synth(desc), calls)
  }

  /** be_midi_exit: an open synth has its notes stopped and is released; a null one is left alone. */
  function Exit(handle: Handle): (r: ExitOutcome)
    ensures r.handle == NoSynth
    ensures handle.Synth? <==> r.host != []
    ensures handle.Synth? ==> r.host == [AllNotesOff(false)]
  {
    match handle
    case Synth(_) => ExitOutcome(NoSynth, [AllNotesOff(false)])
    case NoSynth => ExitOutcome(NoSynth, [])
  }

  /** Shutting down twice is the same as shutting down once: the second does nothing. */
  lemma ExitIdempotent(handle: Handle)
    ensures Exit(Exit(handle).handle) == ExitOutcome(NoSynth, [])
  {
  }

  /**
   A failed start-up other than a refused input leaves no open synth behind:
   shutting down afterwards makes no host call.
   */
  lemma FailedInitLeavesNothing(handle: Handle, cfg: Config, host: Host)
    requires Init(handle, 0, cfg, host).status != 0
    ensures Exit(Init(handle, 0, cfg, host).handle) == ExitOutcome(NoSynth, [])
  {
  }

  /** Detection and start-up refuse exactly the same requests as unsupported. */
  lemma DetectAgreesWithInit(handle: Handle, input: int, cfg: Config, host: Host)
    ensures Detect(input) == Some(InputNotSupported) <==> Init(handle, input, cfg, host).error == Some(InputNotSupported)
  {
  }

  /**
   With the default settings a successful start-up loads the big synth,
   switches reverb off and uses fast two-point interpolation.
   */
  lemma DefaultInit(handle: Handle, host: Host)
    requires host.constructs && host.loadOk && host.isLoaded
    ensures var r := Init(handle, 0, DEFAULT_CONFIG, host);
      && r.host == [LoadSynthData(BigSynth), EnableInput(true, true), FlushInstrumentCache(true),
                    EnableReverb(false), SetSamplingRate(22050), SetInterpolation(TwoPointInterpolation)]
      && r.handle == Synth(Description("high", "fast", TruncDiv(host.samplingRate, 1000), "no"))
  {
  }
}
