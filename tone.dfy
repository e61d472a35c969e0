/**
 * The audio engine (Tone.js) as the controller sees it: every instance it
 * constructs is an opaque record of its constructor parameters, its wet level
 * and whether it has been disposed. What the instances do to sound is not
 * modelled.
 */
module Tone {
  import opened Wrappers

  /** The six effect slots of the synthesizer. */
  datatype EffectKind = BitCrusher | Chorus | Distortion | Reverb | Filter | Compressor

  const AllEffects: set<EffectKind> := {BitCrusher, Chorus, Distortion, Reverb, Filter, Compressor}

  lemma EveryEffect(k: EffectKind)
    ensures k in AllEffects
  {
    match k
    case BitCrusher =>
    case Chorus =>
    case Distortion =>
    case Reverb =>
    case Filter =>
    case Compressor =>
  }

  /**
   * Constructor parameters of each effect. `None` is an argument left
   * undefined, for which the library uses its own default.
   */
  datatype Params =
    | BitCrusherParams(bits: Option<real>)
    | ChorusParams(frequency: real, delay: real, depth: real, feedback: Option<real>, spread: Option<real>)
    | DistortionParams(amount: Option<real>)
    | ReverbParams(decay: real)
    | FilterParams(cutoff: Option<real>, filterType: Option<string>, rolloff: Option<int>)
    | CompressorParams(threshold: Option<real>, ratio: Option<real>)
  {
    function Kind(): EffectKind
    {
      match this
      case BitCrusherParams(_) => BitCrusher
      case ChorusParams(_, _, _, _, _) => Chorus
      case DistortionParams(_) => Distortion
      case ReverbParams(_) => Reverb
      case FilterParams(_, _, _) => Filter
      case CompressorParams(_, _) => Compressor
    }
  }

  /**
   * One effect instance. `wet` is `None` when the controller never set it
   * (the compressor); `alive` becomes false when the instance is disposed.
   */
  datatype EffectNode = EffectNode(params: Params, wet: Option<real>, alive: bool)
  {
    function Kind(): EffectKind { params.Kind() }
  }

  /** The voice algorithms a PolySynth can be built from. */
  datatype VoiceKind = AMSynth | FMSynth | DuoSynth

  datatype Envelope = Envelope(attack: real, decay: real, sustain: real, release: real)

  /**
   * One argument of a `chain` call: an effect read from the named slot, the
   * arrow function standing where the compressor would be (its effect on the
   * audio graph is the library's business), or the output sink.
   */
  datatype Stage = EffectStage(slot: EffectKind, node: nat) | CompressorThunk(compress: bool) | Destination

  /** A note event the voice received, with the envelope it held at that moment. */
  datatype Trigger =
    | Attack(note: string, velocity: real, envelope: Option<Envelope>)
    | Release(note: string, envelope: Option<Envelope>)

  /**
   * A PolySynth instance: its kind, output volume in decibels, the envelope
   * and detune last pushed to it (`None`: library default), every `chain`
   * call made on it and every note event it received, oldest first.
   */
  datatype Voice = Voice(
    kind: VoiceKind,
    volume: real,
    envelope: Option<Envelope>,
    detune: Option<real>,
    routes: seq<seq<Stage>>,
    played: seq<Trigger>)
}
