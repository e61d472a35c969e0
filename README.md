# InSynth controller — a Dafny model

This project models the stateful core of InSynth, a browser synthesizer played from a MIDI controller.
The core is the `Synthesizer` controller class and the handlers of the chorus panel.

- **Envelope store.** Each slider setter stores a scaled value: attack and decay are doubled, release is multiplied by 20 and sustain is stored as given. The setter then pushes the envelope to the voice and re-chains the effects.
- **Effect slots.** There are six slots: bit-crusher, chorus, distortion, reverb, filter and compressor. Each `set*Effect` disposes the instance its slot holds and then constructs a replacement. The compressor gets a fixed default (threshold -24, ratio 12) when its wet level is 0.
- **Voice selector.** `synthInit` builds an AMSynth, FMSynth or DuoSynth voice, and an AMSynth for any other name. It sets the volume to -20 dB and resets every slot to a dry instance.
- **Effect chain.** `chainEffects` always passes the slots in the fixed order bit-crusher, chorus, distortion, reverb, filter. These are followed by the compressor's arrow function and the output.
- **MIDI binding.** The controller resolves its input device by name. On the bound channel it registers one listener for each of note-on, note-off, pitch-bend and control-change. `reInit` removes the listeners at list positions 1, 0, 1 and 1, rebuilds the voice and registers a new set.
- **Chorus panel.** The switch flips the chorus between dry and fully wet. Moving any of the five sliders switches the chorus on and retunes its own field in place.

Layout:

- `wrappers.dfy`: `Option`.
- `tone.dfy`: the audio library's instances as records (parameters, wet level, alive flag), voices and `chain` arguments.
- `webmidi.dfy`: the MIDI library.
  - Callbacks are objects compared by identity.
  - Channels are objects whose listener lists `addListener` and `removeListener` change in place.
  - Devices are looked up by name.
- `synthesizer.dfy`: the slot discipline as functions and lemmas on a `Rack` value (every instance ever constructed, plus the slot map), and the imperative class `Synthesizer`.
- `playback.dfy`: the envelope sliders reach the next note.
- `chorus.dfy`: the panel's behaviour as pure functions (`Clicked`, `Slid`, `Run`) with lemmas, and the class `ChorusPanel` whose handlers are proved against them.

How the model is built:

- Every effect instance the controller ever constructs stays in `nodes`. Disposing one clears its `alive` flag.
- The invariant `Consistent` says two things:
  - each slot holds a live instance of its own kind;
  - every live instance is held by its slot.

  So nothing constructed is left running unreferenced.
- A JavaScript `TypeError` becomes an `Outcome`. It happens when the controller or the channel is `undefined`, or when a listener list is too short for the position `reInit` reads. Removals done before the error stay done.

Behaviour of the code worth knowing:

- `synthInit` does not dispose the previous voice.
- `reInit` removes listeners by list position, not by the handles it registered.
- The constructor registers no listeners.
- The stored envelope starts at 0.05/0.1/0.7/1, not at scaled values. A note gets the scaled envelope 0.1/0.2/0.7/20 only after the sliders are moved; this is `ScaledEnvelopeReachesNote`.
- `chainEffects` passes an arrow function where the compressor would be, so the compressor is never passed to `chain` as an instance.
- `setInput` and `setChannel` only re-resolve the controller. The listeners registered earlier stay on the previous channel, and a later `reInit` removes positions 1, 0, 1, 1 from the lists of the newly bound channel, not the old one. Rebinding therefore leaves stale listeners behind.

## Model

| member | source | states |
|---|---|---|
| Synthesizer.VoiceFor | utils/synthesizer.js:59-73 | FMSynth exactly for "FMSynth", DuoSynth exactly for "DuoSynth", AMSynth for every other name, including none |
| Synthesizer.ReplaceKeepsConsistent | utils/synthesizer.js:195-261 | dispose-then-replace keeps the slot discipline; the new instance is the only live one of its kind, the old one is disposed, and the other slots keep the same unchanged instance |
| Synthesizer.LiveAreSlotted | utils/synthesizer.js:188-192 | under the discipline each slot holds the only live instance of its kind and the live instances are exactly those the slots hold (no accumulation) |
| Synthesizer.RetuneKeepsConsistent | components/EffectRack/Chorus.jsx:24-26 | changing a slotted instance in place (same kind, still alive) keeps the slot discipline |
| Synthesizer.DryNode | utils/synthesizer.js:264-270 | the instance `effectInit` leaves in each slot is live, of that slot's kind, and at wet 0 except the compressor, which has no wet value |
| Synthesizer.CompressorFor | utils/synthesizer.js:251-261 | wet 0 gives threshold -24 and ratio 12 whatever the arguments; any other wet gives the arguments; no wet value is stored |
| Synthesizer.ReplaceAllEffect | utils/synthesizer.js:264-270 | resetting a duplicate-free list of slots disposes every earlier instance of those kinds, touches no other earlier instance, fills each of those slots with a new dry instance and leaves the other slots as they were |
| Synthesizer.Replaced | utils/synthesizer.js:195-261 | one `set*Effect`: the new instance is appended and becomes its kind's slot, the instance the slot held before is disposed, and every slot still names an existing instance |
| Synthesizer.ReplaceAll | utils/synthesizer.js:264-270 | resetting the listed slots one after the other keeps the slot discipline and constructs one new instance per listed slot |
| Synthesizer.ResetIsDry | utils/synthesizer.js:264-272 | resetting each of the six slots once, in any order, leaves every earlier instance disposed, all six slots filled and each holding a new dry instance |
| Synthesizer.EffectInitResets | utils/synthesizer.js:264-270 | the six setter calls of `effectInit`, in its order, leave every earlier instance disposed and each slot holding a new dry instance |
| Synthesizer.DryOrderCoversAll | utils/synthesizer.js:265-270 | `effectInit` resets each of the six slots, and none twice |
| Synthesizer.ChainOf | utils/synthesizer.js:275-288 | the `chain` arguments are the five slots in the fixed order, then the compressor's arrow function carrying the flag, then the output |
| Synthesizer.ChainUsesLiveSlots | utils/synthesizer.js:275-288 | under the discipline every effect passed to `chain` is its slot's live instance and never the compressor |
| Synthesizer.Appended | utils/synthesizer.js:112-125 | the four registrations append each event type's callback at the end of its list and add a list for every event type |
| Synthesizer.AppendedAddsOne | utils/synthesizer.js:112-125 | registering one callback per event type adds exactly that callback at the end of each list |
| Synthesizer.Strip | utils/synthesizer.js:46-53 | a removal throws only at a step whose list is shorter than its position, and the error names that step |
| Synthesizer.StripOnlyShrinks | utils/synthesizer.js:46-53 | the removals never lengthen a list and leave the lists of event types no step names untouched |
| Synthesizer.StripRemovesOnePerType | utils/synthesizer.js:45-53 | with duplicate-free lists long enough, the removals do not throw and take out exactly positions 1, 0, 1, 1 of the note-on, note-off, pitch-bend and control-change lists |
| Synthesizer.ReInitKeepsCounts | utils/synthesizer.js:45-56 | with duplicate-free lists long enough, removal then re-registration leaves every listener count unchanged |
| Synthesizer.Synthesizer.constructor | utils/synthesizer.js:13-42 | binds input and channel, resolves the controller, stores the envelope 0.05/0.1/0.7/1, builds an AMSynth at -20 dB chained once, and fills every slot with a dry instance |
| Synthesizer.Synthesizer.GetInput | utils/synthesizer.js:86-88 | returns the stored private input name |
| Synthesizer.Synthesizer.GetChannel | utils/synthesizer.js:97-99 | returns the stored private channel |
| Synthesizer.Synthesizer.GetController | utils/synthesizer.js:107-109 | returns the stored private controller |
| Synthesizer.Synthesizer.Port | utils/synthesizer.js:46-53 | `getController().channels[getChannel()]` is a channel exactly when the controller exists and has the stored channel number, and then it is that channel |
| Synthesizer.Synthesizer.SetController | utils/synthesizer.js:102-104 | the controller is the device the stored input name resolves to |
| Synthesizer.Synthesizer.SetInput | utils/synthesizer.js:80-83 | `GetInput` returns the new name and the controller is re-resolved from it |
| Synthesizer.Synthesizer.SetChannel | utils/synthesizer.js:91-94 | `GetChannel` returns the new channel and the controller is re-resolved from the stored input |
| Synthesizer.Synthesizer.SynthInit | utils/synthesizer.js:59-77 | the voice is the selected kind at -20 dB, chained once in the fixed order, and every earlier effect instance is disposed and replaced by a dry one |
| Synthesizer.Synthesizer.Install | utils/synthesizer.js:196-200 | the rack becomes `Replaced` (dispose the slot's instance, construct the new one) and the discipline holds |
| Synthesizer.Synthesizer.SetBitCrusherEffect | utils/synthesizer.js:195-204 | the bit-crusher slot is replaced by an instance with the given bits and wet level |
| Synthesizer.Synthesizer.SetChorusEffect | utils/synthesizer.js:207-215 | the chorus slot is replaced by an instance with the given frequency, delay, depth and wet level |
| Synthesizer.Synthesizer.SetDistortionEffect | utils/synthesizer.js:218-226 | the distortion slot is replaced by an instance with the given amount and wet level |
| Synthesizer.Synthesizer.SetReverbEffect | utils/synthesizer.js:229-237 | the reverb slot is replaced by an instance with the given decay and wet level |
| Synthesizer.Synthesizer.SetFilterEffect | utils/synthesizer.js:240-248 | the filter slot is replaced by an instance with the given cutoff, type, rolloff and wet level |
| Synthesizer.Synthesizer.SetCompressorEffect | utils/synthesizer.js:251-261 | the compressor slot is replaced by `CompressorFor(wet, threshold, ratio)` |
| Synthesizer.Synthesizer.EffectInit | utils/synthesizer.js:264-272 | every earlier instance is disposed, every slot holds a new dry instance, and one chain call is recorded; nothing else about the voice changes |
| Synthesizer.Synthesizer.ChainEffects | utils/synthesizer.js:275-288 | exactly one `chain` call with the fixed-order arguments is recorded on the voice, and every call so far has that order |
| Synthesizer.Synthesizer.SetEffects | utils/synthesizer.js:152-162 | the voice receives the stored envelope and one chain call; nothing else changes |
| Synthesizer.Synthesizer.SetAttack | utils/synthesizer.js:165-168 | stores twice the value, changes no other envelope field, and pushes the envelope |
| Synthesizer.Synthesizer.SetDecay | utils/synthesizer.js:171-174 | stores twice the value, changes no other envelope field, and pushes the envelope |
| Synthesizer.Synthesizer.SetSustain | utils/synthesizer.js:177-180 | stores the value unscaled, changes no other envelope field, and pushes the envelope |
| Synthesizer.Synthesizer.SetRelease | utils/synthesizer.js:183-186 | stores 20 times the value, changes no other envelope field, and pushes the envelope |
| Synthesizer.Synthesizer.TriggerAttackCallback | utils/synthesizer.js:128-131 | the envelope is pushed before the attack, so the note carries the current stored envelope |
| Synthesizer.Synthesizer.TriggerReleaseCallback | utils/synthesizer.js:134-137 | the envelope is pushed before the release, so the release carries the current stored envelope |
| Synthesizer.Synthesizer.SetDetuneCallback | utils/synthesizer.js:140-143 | pushes the envelope, then sets detune to the bend value times 400 |
| Synthesizer.Synthesizer.SetVolumeCallback | utils/synthesizer.js:146-149 | pushes the envelope, then sets the volume to the given level |
| Synthesizer.Synthesizer.SynthListeners | utils/synthesizer.js:112-125 | `TypeError` when the controller or the channel is missing; otherwise one fresh callback per event type, owned by this controller, is appended to each list of the bound channel |
| Synthesizer.Synthesizer.AddOwnListeners | utils/synthesizer.js:113-124 | four fresh callbacks owned by this controller, one per event type, are appended to the channel's lists as `Appended` states |
| Synthesizer.Synthesizer.RemoveOwnListeners | utils/synthesizer.js:46-53 | the channel's lists become `Strip` of the old ones, and the error is the first position missing |
| Synthesizer.Synthesizer.ReInit | utils/synthesizer.js:45-56 | if a removal throws, the removals before it stay done and the voice and effects are untouched; otherwise the voice and effects are rebuilt and a fresh listener set is appended to the stripped lists |
| WebMidi.Without | utils/synthesizer.js:50-53 | `removeListener` keeps exactly the callbacks other than the one removed, and shortens the list when that callback is present |
| WebMidi.WithoutAt | utils/synthesizer.js:50-53 | in a duplicate-free list, removing the callback read at a position takes out exactly that position |
| WebMidi.WithoutAbsent | utils/synthesizer.js:50-53 | removing a callback the list does not hold leaves the list unchanged |
| WebMidi.InputChannel.AddListener | utils/synthesizer.js:113-124 | the callback is appended to its event type's list; other lists are unchanged |
| WebMidi.InputChannel.RemoveListener | utils/synthesizer.js:50-53 | the event type's list loses that callback; other lists are unchanged |
| WebMidi.MidiAccess.GetInputByName | utils/synthesizer.js:102-104 | a device exactly when the name is registered, and then the registered device |
| Playback.ScaledEnvelopeReachesNote | utils/synthesizer.js:165-186 | after the sliders are set to 0.05, 0.1, 0.7 and 1, the next note carries the envelope 0.1, 0.2, 0.7, 20 |
| ChorusControls.Initial | components/EffectRack/Chorus.jsx:15-20 | the mounted panel has a falsy empty-string switch and every slider at 0 |
| ChorusControls.WithKnob | components/EffectRack/Chorus.jsx:37-93 | a slider's state setter changes its own displayed value and no other cell |
| ChorusControls.Tuned | components/EffectRack/Chorus.jsx:42-45 | the chorus `set` of one slider changes that field to the value and leaves the other four as they were |
| ChorusControls.Clicked | components/EffectRack/Chorus.jsx:22-36 | the switch becomes a boolean that is on exactly when it was not; the chorus is fully wet when on and dry when off; no slider changes |
| ChorusControls.Slid | components/EffectRack/Chorus.jsx:37-93 | whatever the prior state, the switch is on and the chorus fully wet; the slider shows the value and its field holds it; the other four sliders and fields are unchanged |
| ChorusControls.TwoClicksRestore | components/EffectRack/Chorus.jsx:22-36 | from a boolean switch, two clicks give back the switch and leave the chorus at the wet level the switch stands for, so they restore the whole panel exactly when the switch agreed with the chorus; from the initial empty string they leave the switch false and the chorus dry |
| ChorusControls.SlideIdempotent | components/EffectRack/Chorus.jsx:37-93 | moving a slider twice to the same value gives the same state as moving it once |
| ChorusControls.RunCoherent | components/EffectRack/Chorus.jsx:22-93 | any sequence of clicks and slider moves keeps the switch in step with the wet level and every slider in step with its chorus field |
| ChorusControls.RunInRange | components/EffectRack/Chorus.jsx:101-145 | with slider values from their ranges, every displayed value stays 0 or in its slider's range |
| ChorusControls.FromMount | components/EffectRack/Chorus.jsx:15-20 | from the initial state over the dry chorus, any actions keep the panel coherent and in range |
| ChorusControls.ChorusPanel.constructor | components/EffectRack/Chorus.jsx:15-20 | the switch starts as the empty string and all five sliders at 0 |
| ChorusControls.ChorusPanel.Retune | components/EffectRack/Chorus.jsx:24-26 | the chorus slot's instance takes the new settings in place; no instance is replaced and the discipline holds |
| ChorusControls.ChorusPanel.HandleClick | components/EffectRack/Chorus.jsx:22-36 | the panel becomes `Clicked` of what it was, the chorus is changed in place, and one chain call is recorded |
| ChorusControls.ChorusPanel.Slide | components/EffectRack/Chorus.jsx:37-93 | the panel becomes `Slid` of what it was for that slider, the chorus is changed in place, and one chain call is recorded |
| ChorusControls.ChorusPanel.HandleFreq | components/EffectRack/Chorus.jsx:37-47 | `Slid` for the frequency slider; the chorus is changed in place and re-chained |
| ChorusControls.ChorusPanel.HandleDelay | components/EffectRack/Chorus.jsx:48-58 | `Slid` for the delay slider; the chorus is changed in place and re-chained |
| ChorusControls.ChorusPanel.HandleDepth | components/EffectRack/Chorus.jsx:59-69 | `Slid` for the depth slider; the chorus is changed in place and re-chained |
| ChorusControls.ChorusPanel.HandleFeedback | components/EffectRack/Chorus.jsx:71-81 | `Slid` for the feedback slider; the chorus is changed in place and re-chained |
| ChorusControls.ChorusPanel.HandleSpread | components/EffectRack/Chorus.jsx:83-93 | `Slid` for the spread slider; the chorus is changed in place and re-chained |

## Left out

- Audio processing. What `dispose`, `start`, `toDestination` and `chain` do to sound belongs to the audio library. Instances are records with an alive flag, and each `chain` call is kept only as an entry in the voice's `routes`.
- The compressor flag's effect on the graph. `chainEffects` passes an arrow function, so whether the compressor is reached depends on library internals. `Stage.CompressorThunk` only records the flag.
- SetVolumeCallback: takes the decibel level as an argument. The code computes `Math.log(value) * 20`, which is transcendental floating point and -Infinity at 0.
- The `'+0'` start time of `triggerAttack`, and the note identifier and velocity extraction from the MIDI event. The callbacks take the note and velocity directly.
- `WebMidi.enable()` is asynchronous and its promise does nothing, so it is left out.
- Device lookup is a name-to-device map, and device connection and permission are not modelled.
- The arrow functions registered as listeners are `Callback` objects. Which method each one calls is not modelled.
- WebMidi's `getListeners` returns listener objects whose `.callback` is removed. The model keeps the callbacks in the lists directly.
- The chorus panel's JSX rendering and the `isDisabled` prop. The slider ranges appear only as the `RunInRange` precondition.
- ChorusControls.RunInRange: does not model the step sizes of the frequency, depth and feedback sliders (0.25, 0.05 and 0.05), only their ranges.
- ChorusControls.ChorusPanel.HandleDelay: the handler passes the key `delay` to the chorus `set`. The model treats it as the chorus delay field; whether the audio library honours that key is outside the model.
- The chorus panel's view of the synthesizer after `reInit` or `synthInit`. Those replace the chorus instance while the panel keeps its own state cells, and the model proves nothing about that pairing.
- Numbers are modelled as exact reals. The code works on IEEE doubles, so the rounding of `release * 20` and `value * 400` is not captured, and neither are NaN and Infinity passing through the setters.
- The browser end-to-end scripts and the colour theme contain no controller logic.
