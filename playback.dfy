/**
 * How the envelope sliders reach the notes the synthesizer plays.
 */
module Playback {
  import opened Wrappers
  import opened Tone
  import opened Synthesizer

  /**
   * Whatever envelope a synthesizer held before, after its sliders are set to
   * 0.05, 0.1, 0.7 and 1 it plays its next note with the scaled envelope
   * 0.1, 0.2, 0.7, 20.
   */
  method ScaledEnvelopeReachesNote(s: Synthesizer, velocity: real) returns (played: Trigger)
    requires s.Ready()
    modifies s`attack, s`decay, s`sustain, s`release, s`synth
    ensures played == Attack("C4", velocity, Some(Envelope(0.1, 0.2, 0.7, 20.0)))
  {
    s.SetAttack(0.05);
    s.SetDecay(0.1);
    s.SetSustain(0.7);
    s.SetRelease(1.0);
    assert s.CurrentEnvelope() == Envelope(0.1, 0.2, 0.7, 20.0);
    s.TriggerAttackCallback("C4", velocity);
    played := s.synth.played[|s.synth.played| - 1];
  }
}
