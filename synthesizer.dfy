/**
 * The synthesizer controller (class `Synthesizer` of utils/synthesizer.js):
 * the envelope store, the six effect slots and their dispose-then-replace
 * discipline, the voice selector, the fixed-order effect chain, the MIDI
 * input/channel binding and its listener registry.
 */
module Synthesizer {
  import opened Wrappers
  import opened Tone
  import opened WebMidi

  // ---------------------------------------------------------------------------
  // Voice selection

  /** The voice `synthInit` builds for a name: the three known names, AMSynth for anything else. */
  function VoiceFor(name: Option<string>): (k: VoiceKind)
    ensures k == FMSynth <==> name == Some("FMSynth")
    ensures k == DuoSynth <==> name == Some("DuoSynth")
    ensures k == AMSynth <==> name != Some("FMSynth") && name != Some("DuoSynth")
  {
    if name == Some("AMSynth") then AMSynth
    else if name == Some("FMSynth") then FMSynth
    else if name == Some("DuoSynth") then DuoSynth
    else AMSynth
  }

  /** Output volume, in decibels, of every freshly built voice. */
  const InitialVolume: real := -20.0

  /** Detune applied per unit of pitch-bend value. */
  const BendRange: real := 400.0

  // ---------------------------------------------------------------------------
  // Effect slots

  /**
   * The effect instances of one controller: `nodes` lists every instance it
   * ever constructed, oldest first, and `slots` names the one each of the six
   * effect fields holds.
   */
  datatype Rack = Rack(nodes: seq<EffectNode>, slots: map<EffectKind, nat>)

  /** Every slot names an instance that exists. */
  predicate Bounded(r: Rack)
  {
    forall k :: k in r.slots ==> r.slots[k] < |r.nodes|
  }

  /**
   * The slot discipline: a slot holds a live instance of its own kind, and
   * every live instance is held by the slot of its kind (nothing constructed
   * is left running unreferenced).
   */
  ghost predicate Consistent(r: Rack)
  {
    && (forall k :: k in r.slots ==> r.slots[k] < |r.nodes| && r.nodes[r.slots[k]].alive && r.nodes[r.slots[k]].Kind() == k)
    && (forall i :: 0 <= i < |r.nodes| && r.nodes[i].alive ==> r.nodes[i].Kind() in r.slots && r.slots[r.nodes[i].Kind()] == i)
  }

  /** Indices of the live instances of one kind. */
  ghost function LiveOfKind(r: Rack, k: EffectKind): set<nat>
  {
    set i: nat | i < |r.nodes| && r.nodes[i].alive && r.nodes[i].Kind() == k
  }

  /** Indices of all live instances. */
  ghost function Live(r: Rack): set<nat>
  {
    set i: nat | i < |r.nodes| && r.nodes[i].alive
  }

  /**
   * A `set*Effect` call: `dispose()` the instance the slot of `node`'s kind
   * holds, if it holds one, then construct `node` and store it in that slot.
   */
  function Replaced(r: Rack, node: EffectNode): (r': Rack)
    requires Bounded(r)
    ensures Bounded(r')
    ensures |r'.nodes| == |r.nodes| + 1 && r'.nodes[|r.nodes|] == node
    ensures r'.slots == r.slots[node.Kind() := |r.nodes|]
    ensures node.Kind() in r.slots ==> r'.nodes[r.slots[node.Kind()]] == r.nodes[r.slots[node.Kind()]].(alive := false)
  {
    var k := node.Kind();
    var disposed := if k in r.slots then r.nodes[r.slots[k] := r.nodes[r.slots[k]].(alive := false)] else r.nodes;
    Rack(disposed + [node], r.slots[k := |r.nodes|])
  }

  /**
   * Under the slot discipline each slot holds the only live instance of its
   * kind, and the live instances are exactly those the slots hold.
   */
  lemma LiveAreSlotted(r: Rack)
    requires Consistent(r)
    ensures forall k :: LiveOfKind(r, k) == if k in r.slots then {r.slots[k]} else {}
    ensures Live(r) == r.slots.Values
  {
    forall k ensures LiveOfKind(r, k) == if k in r.slots then {r.slots[k]} else {} {
      if k in r.slots {
        assert r.slots[k] in LiveOfKind(r, k);
      }
    }
    forall i | i in r.slots.Values ensures i in Live(r) {
      var k :| k in r.slots && r.slots[k] == i;
    }
    forall i | i in Live(r) ensures i in r.slots.Values {
      assert r.nodes[i].Kind() in r.slots;
    }
  }

  /**
   * Replacing keeps the discipline: the old instance of the slot is disposed,
   * the new instance is the only live one of its kind, and every other slot
   * still holds the same, unchanged instance.
   */
  lemma ReplaceKeepsConsistent(r: Rack, node: EffectNode)
    requires Consistent(r) && node.alive
    ensures var k, r' := node.Kind(), Replaced(r, node);
            && Consistent(r')
            && LiveOfKind(r', k) == {|r.nodes|}
            && (k in r.slots ==> !r'.nodes[r.slots[k]].alive)
            && (forall j :: j in r.slots && j != k ==> r'.slots[j] == r.slots[j] && r'.nodes[r.slots[j]] == r.nodes[r.slots[j]])
  {
    var k, r' := node.Kind(), Replaced(r, node);
    forall i | 0 <= i < |r'.nodes| && r'.nodes[i].alive
      ensures r'.nodes[i].Kind() in r'.slots && r'.slots[r'.nodes[i].Kind()] == i
    {
      if i < |r.nodes| {
        assert r'.nodes[i] == r.nodes[i];
        assert r.nodes[i].Kind() != k;
      }
    }
    LiveAreSlotted(r');
  }

  /** An instance changed in place (same kind, still alive) keeps the discipline. */
  lemma RetuneKeepsConsistent(r: Rack, k: EffectKind, node: EffectNode)
    requires Consistent(r) && k in r.slots && node.alive && node.Kind() == k
    ensures Consistent(Rack(r.nodes[r.slots[k] := node], r.slots))
  {
    var nodes' := r.nodes[r.slots[k] := node];
    forall i | 0 <= i < |nodes'| && nodes'[i].alive
      ensures nodes'[i].Kind() in r.slots && r.slots[nodes'[i].Kind()] == i
    {
      if i != r.slots[k] {
        assert nodes'[i] == r.nodes[i];
      }
    }
  }

  /** The instance `effectInit` leaves in each slot. */
  function DryNode(k: EffectKind): (node: EffectNode)
    ensures node.alive && node.Kind() == k
    ensures k != Compressor ==> node.wet == Some(0.0)
  {
    match k
    case BitCrusher => EffectNode(BitCrusherParams(None), Some(0.0), true)
    case Chorus => EffectNode(ChorusParams(0.0, 0.0, 0.0, None, None), Some(0.0), true)
    case Distortion => EffectNode(DistortionParams(None), Some(0.0), true)
    case Reverb => EffectNode(ReverbParams(0.1), Some(0.0), true)
    case Filter => EffectNode(FilterParams(None, None, None), Some(0.0), true)
    case Compressor => EffectNode(CompressorParams(Some(-24.0), Some(12.0)), None, true)
  }

  /** The compressor `setCompressorEffect` builds: the fixed default when wet is 0, otherwise the given settings. */
  function CompressorFor(wet: real, threshold: Option<real>, ratio: Option<real>): (node: EffectNode)
    ensures node.alive && node.Kind() == Compressor && node.wet == None
    ensures wet == 0.0 ==> node.params == CompressorParams(Some(-24.0), Some(12.0))
    ensures wet != 0.0 ==> node.params == CompressorParams(threshold, ratio)
  {
    if wet == 0.0 then EffectNode(CompressorParams(Some(-24.0), Some(12.0)), None, true)
    else EffectNode(CompressorParams(threshold, ratio), None, true)
  }

  /** The order in which `effectInit` resets the slots. */
  const DryOrder: seq<EffectKind> := [BitCrusher, Chorus, Distortion, Reverb, Filter, Compressor]

  predicate NoDuplicates(ks: seq<EffectKind>)
  {
    forall i, j :: 0 <= i < j < |ks| ==> ks[i] != ks[j]
  }

  /** Replacing the slots of `ks`, one after the other, with dry instances. */
  ghost function ReplaceAll(r: Rack, ks: seq<EffectKind>): (r': Rack)
    requires Consistent(r)
    ensures Consistent(r')
    ensures |r'.nodes| == |r.nodes| + |ks|
    decreases |ks|
  {
    if ks == [] then r
    else
      ReplaceKeepsConsistent(r, DryNode(ks[0]));
      ReplaceAll(Replaced(r, DryNode(ks[0])), ks[1..])
  }

  /**
   * What resetting the slots of `ks` does: every instance of one of those
   * kinds constructed before is disposed, everything else constructed before
   * is untouched, each of those slots holds a new dry instance and the other
   * slots keep theirs.
   */
  lemma {:induction false} ReplaceAllEffect(r: Rack, ks: seq<EffectKind>)
    requires Consistent(r) && NoDuplicates(ks)
    ensures var r' := ReplaceAll(r, ks);
      && |r'.nodes| == |r.nodes| + |ks|
      && (forall i :: 0 <= i < |r.nodes| ==>
            r'.nodes[i] == if r.nodes[i].Kind() in ks then r.nodes[i].(alive := false) else r.nodes[i])
      && (forall k :: k in r'.slots <==> k in r.slots || k in ks)
      && (forall k :: k in ks ==> |r.nodes| <= r'.slots[k] < |r'.nodes| && r'.nodes[r'.slots[k]] == DryNode(k))
      && (forall k :: k in r.slots && k !in ks ==> r'.slots[k] == r.slots[k])
    decreases |ks|
  {
    if ks != [] {
      var k := ks[0];
      var r1 := Replaced(r, DryNode(k));
      ReplaceKeepsConsistent(r, DryNode(k));
      assert NoDuplicates(ks[1..]) by {
        forall a, b | 0 <= a < b < |ks[1..]| ensures ks[1..][a] != ks[1..][b] {
          assert ks[1..][a] == ks[a + 1] && ks[1..][b] == ks[b + 1];
        }
      }
      assert k !in ks[1..] by {
        forall a | 0 <= a < |ks[1..]| ensures ks[1..][a] != k {
          assert ks[1..][a] == ks[a + 1];
        }
      }
      ReplaceAllEffect(r1, ks[1..]);
      var r' := ReplaceAll(r, ks);
      assert r' == ReplaceAll(r1, ks[1..]);
      forall i | 0 <= i < |r.nodes|
        ensures r'.nodes[i] == if r.nodes[i].Kind() in ks then r.nodes[i].(alive := false) else r.nodes[i]
      {
        assert r1.nodes[i].Kind() == r.nodes[i].Kind();
        if r.nodes[i].Kind() == k && r.nodes[i].alive {
          assert r.slots[k] == i;
        }
      }
      forall j | j in ks
        ensures |r.nodes| <= r'.slots[j] < |r'.nodes| && r'.nodes[r'.slots[j]] == DryNode(j)
      {
        if j == k {
          assert r1.nodes[|r.nodes|] == DryNode(k);
          assert r'.slots[k] == r1.slots[k] == |r.nodes|;
        } else {
          assert j in ks[1..];
        }
      }
    }
  }

  /**
   * The rack `effectInit` leaves, starting from the instances `before`: all of
   * them disposed, and each of the six slots holding a new dry instance.
   */
  ghost predicate ResetFrom(before: seq<EffectNode>, r: Rack)
  {
    && |r.nodes| == |before| + 6
    && (forall i :: 0 <= i < |before| ==> r.nodes[i] == before[i].(alive := false))
    && r.slots.Keys == AllEffects
    && (forall k :: k in r.slots ==> |before| <= r.slots[k] < |r.nodes| && r.nodes[r.slots[k]] == DryNode(k))
  }

  /**
   * Resetting every slot once, in any order (`effectInit`'s is `DryOrder`),
   * leaves a dry rack and no instance from before alive.
   */
  lemma ResetIsDry(r: Rack, ks: seq<EffectKind>)
    requires Consistent(r) && |ks| == 6 && NoDuplicates(ks) && forall k :: k in ks
    ensures ResetFrom(r.nodes, ReplaceAll(r, ks))
  {
    ReplaceAllEffect(r, ks);
    var r' := ReplaceAll(r, ks);
    forall k ensures k in r'.slots <==> k in AllEffects {
      EveryEffect(k);
    }
  }

  /** Resetting in `DryOrder` is six replacements, one per slot, in that order. */
  lemma ResetInOrder(r: Rack)
    requires Consistent(r)
    ensures ReplaceAll(r, DryOrder)
         == Replaced(Replaced(Replaced(Replaced(Replaced(Replaced(r,
              DryNode(BitCrusher)), DryNode(Chorus)), DryNode(Distortion)), DryNode(Reverb)), DryNode(Filter)), DryNode(Compressor))
  {
    var order := DryOrder;
    assert order[1..] == [Chorus, Distortion, Reverb, Filter, Compressor];
    assert order[1..][1..] == [Distortion, Reverb, Filter, Compressor];
    assert order[1..][1..][1..] == [Reverb, Filter, Compressor];
    assert order[1..][1..][1..][1..] == [Filter, Compressor];
    assert order[1..][1..][1..][1..][1..] == [Compressor];
    assert order[1..][1..][1..][1..][1..][1..] == [];
  }

  /** The six setter calls of `effectInit`, in its order, leave a dry rack and no instance from before alive. */
  lemma EffectInitResets(r: Rack)
    requires Consistent(r)
    ensures ResetFrom(r.nodes,
      Replaced(Replaced(Replaced(Replaced(Replaced(Replaced(r,
        DryNode(BitCrusher)), DryNode(Chorus)), DryNode(Distortion)), DryNode(Reverb)), DryNode(Filter)), DryNode(Compressor)))
  {
    ResetInOrder(r);
    DryOrderCoversAll();
    ResetIsDry(r, DryOrder);
  }

  /** `effectInit` resets each of the six slots exactly once. */
  lemma DryOrderCoversAll()
    ensures NoDuplicates(DryOrder)
    ensures forall k :: k in DryOrder
  {
    forall k ensures k in DryOrder {
      EveryEffect(k);
    }
  }

  // ---------------------------------------------------------------------------
  // The effect chain

  /** The slots in the order `chainEffects` passes them. */
  const ChainOrder: seq<EffectKind> := [BitCrusher, Chorus, Distortion, Reverb, Filter]

  /** The argument list of a `chain` call has the fixed shape. */
  predicate InFixedOrder(route: seq<Stage>)
  {
    && |route| == 7
    && (forall i :: 0 <= i < 5 ==> route[i].EffectStage? && route[i].slot == ChainOrder[i])
    && route[5].CompressorThunk?
    && route[6] == Destination
  }

  /** What `chainEffects(compress)` passes to `chain`, read from the current slots. */
  function ChainOf(slots: map<EffectKind, nat>, compress: bool): (route: seq<Stage>)
    requires AllEffects <= slots.Keys
    ensures InFixedOrder(route)
    ensures forall i :: 0 <= i < 5 ==> route[i].node == slots[route[i].slot]
    ensures route[5] == CompressorThunk(compress)
  {
    [ EffectStage(BitCrusher, slots[BitCrusher]), EffectStage(Chorus, slots[Chorus]),
      EffectStage(Distortion, slots[Distortion]), EffectStage(Reverb, slots[Reverb]),
      EffectStage(Filter, slots[Filter]), CompressorThunk(compress), Destination ]
  }

  /**
   * Under the slot discipline every effect in a chain is the live instance of
   * its slot, and the compressor instance itself is never one of them.
   */
  lemma ChainUsesLiveSlots(r: Rack, compress: bool)
    requires Consistent(r) && AllEffects <= r.slots.Keys
    ensures forall i :: 0 <= i < 5 ==>
      var st := ChainOf(r.slots, compress)[i];
      && st.node < |r.nodes| && r.nodes[st.node].alive && r.nodes[st.node].Kind() == st.slot
      && st.node != r.slots[Compressor]
  {
  }

  // ---------------------------------------------------------------------------
  // Listener bookkeeping

  /** Why a JavaScript TypeError interrupts an operation: what was `undefined`. */
  datatype Fault = NoController | NoChannel | NoListenerAt(event: EventType, index: nat)

  datatype Outcome = Done | TypeError(fault: Fault)

  /** The listener positions `reInit` removes, in the order it removes them. */
  const OwnRemovals: seq<(EventType, nat)> := [(NoteOn, 1), (NoteOff, 0), (PitchBend, 1), (ControlChange, 1)]

  function PositionFor(t: EventType): nat
  {
    if t == NoteOff then 0 else 1
  }

  /** A table after removals, and the removal that threw if one did. */
  datatype Stripped = Stripped(table: Table, fault: Option<Fault>)

  /**
   * The removals `reInit` performs: for each step, the callback at that
   * position is removed from its list; a list too short for its position
   * throws, and the removals done before stay done.
   */
  function Strip(tab: Table, steps: seq<(EventType, nat)>): (s: Stripped)
    ensures s.fault.Some? ==> s.fault.value.NoListenerAt? && (s.fault.value.event, s.fault.value.index) in steps
    ensures s.fault.Some? ==> s.fault.value.index >= |Listeners(s.table, s.fault.value.event)|
    decreases |steps|
  {
    if steps == [] then Stripped(tab, None)
    else
      var l := Listeners(tab, steps[0].0);
      if steps[0].1 < |l| then Strip(tab[steps[0].0 := Without(l, l[steps[0].1])], steps[1..])
      else Stripped(tab, Some(NoListenerAt(steps[0].0, steps[0].1)))
  }

  /** Removals never lengthen a list, and leave the lists of event types no step names untouched. */
  lemma {:induction false} StripOnlyShrinks(tab: Table, steps: seq<(EventType, nat)>)
    ensures forall t :: |Listeners(Strip(tab, steps).table, t)| <= |Listeners(tab, t)|
    ensures forall t :: (forall i :: 0 <= i < |steps| ==> steps[i].0 != t) ==>
              Listeners(Strip(tab, steps).table, t) == Listeners(tab, t)
    decreases |steps|
  {
    if steps != [] {
      var l := Listeners(tab, steps[0].0);
      if steps[0].1 < |l| {
        var tab' := tab[steps[0].0 := Without(l, l[steps[0].1])];
        StripOnlyShrinks(tab', steps[1..]);
        forall t | forall i :: 0 <= i < |steps| ==> steps[i].0 != t
          ensures Listeners(Strip(tab, steps).table, t) == Listeners(tab, t)
        {
          assert steps[0].0 != t;
          assert forall i :: 0 <= i < |steps[1..]| ==> steps[1..][i] == steps[i + 1];
        }
      }
    }
  }

  /** The lists are long enough for every position `reInit` reads. */
  predicate LongEnough(tab: Table)
  {
    forall t :: PositionFor(t) < |Listeners(tab, t)|
  }

  /** The table after `synthListeners` registers `cbs[t]` for each event type, in its order. */
  function Appended(tab: Table, cbs: map<EventType, Callback>): (r: Table)
    requires AllEvents <= cbs.Keys
    ensures r.Keys == tab.Keys + AllEvents
    ensures forall t :: t in AllEvents ==> Listeners(r, t) == Listeners(tab, t) + [cbs[t]]
  {
    tab[NoteOn := Listeners(tab, NoteOn) + [cbs[NoteOn]]]
       [NoteOff := Listeners(tab, NoteOff) + [cbs[NoteOff]]]
       [PitchBend := Listeners(tab, PitchBend) + [cbs[PitchBend]]]
       [ControlChange := Listeners(tab, ControlChange) + [cbs[ControlChange]]]
  }

  /** Registering one callback per type adds exactly one listener to each list, at its end. */
  lemma AppendedAddsOne(tab: Table, cbs: map<EventType, Callback>)
    requires AllEvents <= cbs.Keys
    ensures forall t :: t in cbs && Listeners(Appended(tab, cbs), t) == Listeners(tab, t) + [cbs[t]]
  {
    forall t ensures t in cbs && Listeners(Appended(tab, cbs), t) == Listeners(tab, t) + [cbs[t]] {
      EveryEvent(t);
    }
  }

  lemma StripStep(tab: Table, steps: seq<(EventType, nat)>)
    requires steps != [] && steps[0].1 < |Listeners(tab, steps[0].0)|
    ensures var l := Listeners(tab, steps[0].0);
            Strip(tab, steps) == Strip(tab[steps[0].0 := Without(l, l[steps[0].1])], steps[1..])
  {
  }

  /**
   * With distinct callbacks and lists long enough, `reInit`'s removals do not
   * throw and take out exactly position 1, 0, 1, 1 of the note-on, note-off,
   * pitch-bend and control-change lists.
   */
  lemma StripRemovesOnePerType(tab: Table)
    requires AllDistinct(tab) && LongEnough(tab)
    ensures Strip(tab, OwnRemovals).fault == None
    ensures forall t :: Listeners(Strip(tab, OwnRemovals).table, t) == Drop(Listeners(tab, t), PositionFor(t))
  {
    var l0, l1, l2, l3 := Listeners(tab, NoteOn), Listeners(tab, NoteOff), Listeners(tab, PitchBend), Listeners(tab, ControlChange);
    assert PositionFor(NoteOn) < |l0| && PositionFor(NoteOff) < |l1|;
    assert PositionFor(PitchBend) < |l2| && PositionFor(ControlChange) < |l3|;
    WithoutAt(l0, 1);
    WithoutAt(l1, 0);
    WithoutAt(l2, 1);
    WithoutAt(l3, 1);
    var t1 := tab[NoteOn := Drop(l0, 1)];
    var t2 := t1[NoteOff := Drop(l1, 0)];
    var t3 := t2[PitchBend := Drop(l2, 1)];
    var t4 := t3[ControlChange := Drop(l3, 1)];
    var s1 := OwnRemovals[1..];
    var s2 := s1[1..];
    var s3 := s2[1..];
    assert s1 == [(NoteOff, 0), (PitchBend, 1), (ControlChange, 1)];
    assert s2 == [(PitchBend, 1), (ControlChange, 1)];
    assert s3 == [(ControlChange, 1)];
    StripStep(tab, OwnRemovals);
    assert Listeners(t1, NoteOff) == l1;
    StripStep(t1, s1);
    assert Listeners(t2, PitchBend) == l2;
    StripStep(t2, s2);
    assert Listeners(t3, ControlChange) == l3;
    StripStep(t3, s3);
    assert s3[1..] == [];
    assert Strip(tab, OwnRemovals) == Stripped(t4, None);
  }

  /**
   * The listener counts `reInit` leaves: one removal and one registration per
   * event type, so with distinct callbacks and lists long enough every count
   * is what it was.
   */
  lemma ReInitKeepsCounts(tab: Table, cbs: map<EventType, Callback>)
    requires AllDistinct(tab) && LongEnough(tab) && AllEvents <= cbs.Keys
    ensures Strip(tab, OwnRemovals).fault == None
    ensures forall t :: |Listeners(Appended(Strip(tab, OwnRemovals).table, cbs), t)| == |Listeners(tab, t)|
  {
    StripRemovesOnePerType(tab);
    AppendedAddsOne(Strip(tab, OwnRemovals).table, cbs);
    forall t ensures PositionFor(t) < |Listeners(tab, t)| {
    }
  }

  // ---------------------------------------------------------------------------
  // The controller

  class Synthesizer {
    /** The WebMidi library object used for device lookup. */
    const midi: MidiAccess

    var synth: Voice
    var controller: MidiInput?
    var input: Option<string>
    var channel: Option<int>

    var attack: real
    var decay: real
    var sustain: real
    var release: real

    /** Every effect instance constructed so far; `slots` stands for the six effect fields. */
    var nodes: seq<EffectNode>
    var slots: map<EffectKind, nat>

    function Effects(): Rack
      reads this`nodes, this`slots
    {
      Rack(nodes, slots)
    }

    ghost predicate Sound()
      reads this`nodes, this`slots
    {
      Consistent(Effects())
    }

    /** Every chain call made on the current voice had the fixed order. */
    ghost predicate Routed()
      reads this`synth
    {
      forall r :: r in synth.routes ==> InFixedOrder(r)
    }

    /** The state after construction: slot discipline, all six slots filled, chains in order. */
    ghost predicate Ready()
      reads this`nodes, this`slots, this`synth
    {
      Sound() && slots.Keys == AllEffects && Routed()
    }

    function CurrentEnvelope(): (e: Envelope)
      reads this`attack, this`decay, this`sustain, this`release
    {
      Envelope(attack, decay, sustain, release)
    }

    /** `controller.channels[channel]`, or null where JavaScript reads `undefined`. */
    function Port(): (port: InputChannel?)
      reads this`controller, this`channel
      ensures port != null <==> controller != null && channel.Some? && channel.value in controller.channels
      ensures port != null ==> port == controller.channels[channel.value]
    {
      if controller != null && channel.Some? && channel.value in controller.channels
      then controller.channels[channel.value] else null
    }

    function GetInput(): (name: Option<string>)
      reads this`input
      ensures name == input
    {
      input
    }

    function GetChannel(): (number: Option<int>)
      reads this`channel
      ensures number == channel
    {
      channel
    }

    function GetController(): (device: MidiInput?)
      reads this`controller
      ensures device == controller
    {
      controller
    }

    /** Binds to the named input and channel, then builds the default voice and dry effects. */
    constructor (midi: MidiAccess, input: Option<string>, channel: Option<int>)
      ensures this.midi == midi && Ready()
      ensures GetInput() == input && GetChannel() == channel && GetController() == midi.GetInputByName(input)
      ensures CurrentEnvelope() == Envelope(0.05, 0.1, 0.7, 1.0)
      ensures synth == Voice(AMSynth, InitialVolume, None, None, [ChainOf(slots, false)], [])
      ensures ResetFrom([], Effects())
    {
      this.midi := midi;
      attack, decay, sustain, release := 0.05, 0.1, 0.7, 1.0;
      nodes, slots := [], map[];
      new;
      SetInput(input);
      SetChannel(channel);
      SynthInit(None);
    }

    method SetController()
      modifies this`controller
      ensures controller == midi.GetInputByName(input)
    {
      controller := midi.GetInputByName(input);
    }

    method SetInput(name: Option<string>)
      modifies this`input, this`controller
      ensures GetInput() == name
      ensures GetController() == midi.GetInputByName(name)
    {
      input := name;
      SetController();
    }

    method SetChannel(number: Option<int>)
      modifies this`channel, this`controller
      ensures GetChannel() == number
      ensures GetController() == midi.GetInputByName(input)
    {
      channel := number;
      SetController();
    }

    /** Builds a new voice of the named kind at -20 dB and resets every effect. */
    method SynthInit(name: Option<string>)
      requires Sound()
      modifies this`synth, this`nodes, this`slots
      ensures Ready()
      ensures synth == Voice(VoiceFor(name), InitialVolume, None, None, [ChainOf(slots, false)], [])
      ensures ResetFrom(old(nodes), Effects())
    {
      synth := Voice(VoiceFor(name), 0.0, None, None, [], []);
      synth := synth.(volume := InitialVolume);
      EffectInit();
    }

    /** Disposes the instance the slot of `node`'s kind holds, if any, then stores `node` there. */
    method Install(node: EffectNode)
      requires Sound() && node.alive
      modifies this`nodes, this`slots
      ensures Sound()
      ensures Effects() == Replaced(old(Effects()), node)
    {
      ReplaceKeepsConsistent(Effects(), node);
      var k := node.Kind();
      if k in slots {
        var i := slots[k];
        nodes := nodes[i := nodes[i].(alive := false)];
      }
      slots := slots[k := |nodes|];
      nodes := nodes + [node];
    }

    method SetBitCrusherEffect(wet: real, bits: Option<real>)
      requires Sound()
      modifies this`nodes, this`slots
      ensures Sound()
      ensures Effects() == Replaced(old(Effects()), EffectNode(BitCrusherParams(bits), Some(wet), true))
    {
      Install(EffectNode(BitCrusherParams(bits), Some(wet), true));
    }

    method SetChorusEffect(wet: real, frequency: real, delay: real, depth: real)
      requires Sound()
      modifies this`nodes, this`slots
      ensures Sound()
      ensures Effects() == Replaced(old(Effects()), EffectNode(ChorusParams(frequency, delay, depth, None, None), Some(wet), true))
    {
      Install(EffectNode(ChorusParams(frequency, delay, depth, None, None), Some(wet), true));
    }

    method SetDistortionEffect(wet: real, amount: Option<real>)
      requires Sound()
      modifies this`nodes, this`slots
      ensures Sound()
      ensures Effects() == Replaced(old(Effects()), EffectNode(DistortionParams(amount), Some(wet), true))
    {
      Install(EffectNode(DistortionParams(amount), Some(wet), true));
    }

    method SetReverbEffect(wet: real, decay: real)
      requires Sound()
      modifies this`nodes, this`slots
      ensures Sound()
      ensures Effects() == Replaced(old(Effects()), EffectNode(ReverbParams(decay), Some(wet), true))
    {
      Install(EffectNode(ReverbParams(decay), Some(wet), true));
    }

    method SetFilterEffect(wet: real, cutoff: Option<real>, filterType: Option<string>, rolloff: Option<int>)
      requires Sound()
      modifies this`nodes, this`slots
      ensures Sound()
      ensures Effects() == Replaced(old(Effects()), EffectNode(FilterParams(cutoff, filterType, rolloff), Some(wet), true))
    {
      Install(EffectNode(FilterParams(cutoff, filterType, rolloff), Some(wet), true));
    }

    method SetCompressorEffect(wet: real, threshold: Option<real>, ratio: Option<real>)
      requires Sound()
      modifies this`nodes, this`slots
      ensures Sound()
      ensures Effects() == Replaced(old(Effects()), CompressorFor(wet, threshold, ratio))
    {
      if wet == 0.0 {
        Install(EffectNode(CompressorParams(Some(-24.0), Some(12.0)), None, true));
      } else {
        Install(EffectNode(CompressorParams(threshold, ratio), None, true));
      }
    }

    /** Replaces every slot with a dry instance and chains them. */
    method EffectInit()
      requires Sound() && Routed()
      modifies this`synth, this`nodes, this`slots
      ensures Ready()
      ensures synth == old(synth).(routes := old(synth.routes) + [ChainOf(slots, false)])
      ensures ResetFrom(old(nodes), Effects())
    {
      ghost var before, voice := Effects(), synth;
      SetBitCrusherEffect(0.0, None);
      assert synth == voice;
      SetChorusEffect(0.0, 0.0, 0.0, 0.0);
      assert synth == voice;
      SetDistortionEffect(0.0, None);
      assert synth == voice;
      SetReverbEffect(0.0, 0.1);
      assert synth == voice;
      SetFilterEffect(0.0, None, None, None);
      assert synth == voice;
      SetCompressorEffect(0.0, None, None);
      assert synth == voice;
      EffectInitResets(before);
      ChainEffects(false);
    }

    /** Records a `chain` call linking the slots, in the fixed order, into the output. */
    method ChainEffects(compress: bool)
      requires Sound() && slots.Keys == AllEffects && Routed()
      modifies this`synth
      ensures Ready()
      ensures synth == old(synth).(routes := old(synth.routes) + [ChainOf(slots, compress)])
    {
      synth := synth.(routes := synth.routes + [ChainOf(slots, compress)]);
    }

    /** Pushes the stored envelope to the voice and re-chains the effects. */
    method SetEffects()
      requires Ready()
      modifies this`synth
      ensures Ready()
      ensures synth == old(synth).(envelope := Some(CurrentEnvelope()), routes := old(synth.routes) + [ChainOf(slots, false)])
    {
      synth := synth.(envelope := Some(CurrentEnvelope()));
      ChainEffects(false);
    }

    method SetAttack(value: real)
      requires Ready()
      modifies this`attack, this`synth
      ensures Ready()
      ensures attack == 2.0 * value
      ensures synth == old(synth).(envelope := Some(CurrentEnvelope()), routes := old(synth.routes) + [ChainOf(slots, false)])
    {
      attack := value * 2.0;
      SetEffects();
    }

    method SetDecay(value: real)
      requires Ready()
      modifies this`decay, this`synth
      ensures Ready()
      ensures decay == 2.0 * value
      ensures synth == old(synth).(envelope := Some(CurrentEnvelope()), routes := old(synth.routes) + [ChainOf(slots, false)])
    {
      decay := value * 2.0;
      SetEffects();
    }

    method SetSustain(value: real)
      requires Ready()
      modifies this`sustain, this`synth
      ensures Ready()
      ensures sustain == value
      ensures synth == old(synth).(envelope := Some(CurrentEnvelope()), routes := old(synth.routes) + [ChainOf(slots, false)])
    {
      sustain := value;
      SetEffects();
    }

    method SetRelease(value: real)
      requires Ready()
      modifies this`release, this`synth
      ensures Ready()
      ensures release == 20.0 * value
      ensures synth == old(synth).(envelope := Some(CurrentEnvelope()), routes := old(synth.routes) + [ChainOf(slots, false)])
    {
      release := value * 20.0;
      SetEffects();
    }

    /** Note-on: push the envelope, then start the note. */
    method TriggerAttackCallback(note: string, velocity: real)
      requires Ready()
      modifies this`synth
      ensures Ready()
      ensures synth == old(synth).(envelope := Some(CurrentEnvelope()),
                                   routes := old(synth.routes) + [ChainOf(slots, false)],
                                   played := old(synth.played) + [Attack(note, velocity, Some(CurrentEnvelope()))])
    {
      SetEffects();
      synth := synth.(played := synth.played + [Attack(note, velocity, synth.envelope)]);
    }

    /** Note-off: push the envelope, then release the note. */
    method TriggerReleaseCallback(note: string)
      requires Ready()
      modifies this`synth
      ensures Ready()
      ensures synth == old(synth).(envelope := Some(CurrentEnvelope()),
                                   routes := old(synth.routes) + [ChainOf(slots, false)],
                                   played := old(synth.played) + [Release(note, Some(CurrentEnvelope()))])
    {
      SetEffects();
      synth := synth.(played := synth.played + [Release(note, synth.envelope)]);
    }

    /** Pitch-bend: push the envelope, then detune by the bend value times 400. */
    method SetDetuneCallback(value: real)
      requires Ready()
      modifies this`synth
      ensures Ready()
      ensures synth == old(synth).(envelope := Some(CurrentEnvelope()),
                                   routes := old(synth.routes) + [ChainOf(slots, false)],
                                   detune := Some(value * BendRange))
    {
      SetEffects();
      synth := synth.(detune := Some(value * BendRange));
    }

    /** Control-change: push the envelope, then set the volume to `level`, the decibel value computed from the event. */
    method SetVolumeCallback(level: real)
      requires Ready()
      modifies this`synth
      ensures Ready()
      ensures synth == old(synth).(envelope := Some(CurrentEnvelope()),
                                   routes := old(synth.routes) + [ChainOf(slots, false)],
                                   volume := level)
    {
      SetEffects();
      synth := synth.(volume := level);
    }

    /** `synthListeners`' four `addListener` calls on `port`, each with a new arrow function closing over this controller. */
    method AddOwnListeners(port: InputChannel) returns (ghost added: map<EventType, Callback>)
      modifies port
      ensures added.Keys == AllEvents
      ensures fresh(added.Values)
      ensures forall t :: t in added ==> added[t].owner == this && added[t].event == t
      ensures port.table == Appended(old(port.table), added)
    {
      var onNoteOn := new Callback(this, NoteOn);
      port.AddListener(NoteOn, onNoteOn);
      var onNoteOff := new Callback(this, NoteOff);
      port.AddListener(NoteOff, onNoteOff);
      var onPitchBend := new Callback(this, PitchBend);
      port.AddListener(PitchBend, onPitchBend);
      var onControlChange := new Callback(this, ControlChange);
      port.AddListener(ControlChange, onControlChange);
      added := map[NoteOn := onNoteOn, NoteOff := onNoteOff, PitchBend := onPitchBend, ControlChange := onControlChange];
    }

    /** Registers one new listener per event type on the bound channel; `added` names them. */
    method SynthListeners() returns (outcome: Outcome, ghost added: map<EventType, Callback>)
      modifies Port()
      ensures old(controller) == null ==> outcome == TypeError(NoController)
      ensures old(controller) != null && Port() == null ==> outcome == TypeError(NoChannel)
      ensures Port() != null ==>
        && outcome == Done
        && added.Keys == AllEvents
        && fresh(added.Values)
        && (forall t :: t in added ==> added[t].owner == this && added[t].event == t)
        && Port().table == Appended(old(Port().table), added)
    {
      added := map[];
      if controller == null {
        return TypeError(NoController), added;
      }
      var port := Port();
      if port == null {
        return TypeError(NoChannel), added;
      }
      added := AddOwnListeners(port);
      outcome := Done;
    }

    /**
     * `reInit`'s four `removeListener` calls on `port`: each reads the list of
     * its event type and removes the callback at its position; the first list
     * too short throws, after the removals before it.
     */
    method RemoveOwnListeners(port: InputChannel) returns (fault: Option<Fault>)
      modifies port
      ensures Stripped(port.table, fault) == Strip(old(port.table), OwnRemovals)
    {
      ghost var tab := port.table;
      var noteon := port.GetListeners(NoteOn);
      var noteoff := port.GetListeners(NoteOff);
      var pitchbend := port.GetListeners(PitchBend);
      var controlchange := port.GetListeners(ControlChange);
      ghost var rest := OwnRemovals;
      assert rest[0] == (NoteOn, 1) && rest[1..] == [(NoteOff, 0), (PitchBend, 1), (ControlChange, 1)];
      if |noteon| < 2 {
        return Some(NoListenerAt(NoteOn, 1));
      }
      StripStep(port.table, rest);
      port.RemoveListener(NoteOn, noteon[1]);
      rest := rest[1..];
      assert Strip(tab, OwnRemovals) == Strip(port.table, rest);
      assert rest[0] == (NoteOff, 0) && rest[1..] == [(PitchBend, 1), (ControlChange, 1)];
      if |noteoff| < 1 {
        return Some(NoListenerAt(NoteOff, 0));
      }
      StripStep(port.table, rest);
      port.RemoveListener(NoteOff, noteoff[0]);
      rest := rest[1..];
      assert Strip(tab, OwnRemovals) == Strip(port.table, rest);
      assert rest[0] == (PitchBend, 1) && rest[1..] == [(ControlChange, 1)];
      if |pitchbend| < 2 {
        return Some(NoListenerAt(PitchBend, 1));
      }
      StripStep(port.table, rest);
      port.RemoveListener(PitchBend, pitchbend[1]);
      rest := rest[1..];
      assert Strip(tab, OwnRemovals) == Strip(port.table, rest);
      assert rest[0] == (ControlChange, 1) && rest[1..] == [];
      if |controlchange| < 2 {
        return Some(NoListenerAt(ControlChange, 1));
      }
      StripStep(port.table, rest);
      port.RemoveListener(ControlChange, controlchange[1]);
      rest := rest[1..];
      return None;
    }

    /**
     * Removes the listeners at positions 1, 0, 1, 1 of the note-on, note-off,
     * pitch-bend and control-change lists of the bound channel, rebuilds the
     * voice and effects, and registers a new listener set.
     */
    method ReInit(name: Option<string>) returns (outcome: Outcome, ghost added: map<EventType, Callback>)
      requires Sound()
      modifies this`synth, this`nodes, this`slots, Port()
      ensures Sound()
      ensures old(controller) == null ==> outcome == TypeError(NoController)
      ensures old(controller) != null && Port() == null ==> outcome == TypeError(NoChannel)
      ensures Port() == null ==> synth == old(synth) && Effects() == old(Effects())
      ensures Port() != null ==>
        var s := Strip(old(Port().table), OwnRemovals);
        && (s.fault.Some? ==>
              && outcome == TypeError(s.fault.value)
              && Port().table == s.table
              && synth == old(synth) && Effects() == old(Effects()))
        && (s.fault.None? ==>
              && outcome == Done
              && Ready()
              && synth == Voice(VoiceFor(name), InitialVolume, None, None, [ChainOf(slots, false)], [])
              && ResetFrom(old(nodes), Effects())
              && added.Keys == AllEvents
              && fresh(added.Values)
              && (forall t :: t in added ==> added[t].owner == this && added[t].event == t)
              && Port().table == Appended(s.table, added))
    {
      added := map[];
      if controller == null {
        return TypeError(NoController), added;
      }
      var port := Port();
      if port == null {
        return TypeError(NoChannel), added;
      }
      var fault := RemoveOwnListeners(port);
      if fault.Some? {
        return TypeError(fault.value), added;
      }
      SynthInit(name);
      outcome, added := SynthListeners();
    }
  }
}
