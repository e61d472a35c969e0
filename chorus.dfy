/**
 * The chorus panel of the effect rack: an on/off switch and five sliders
 * whose handlers keep the panel's own state cells and retune the
 * synthesizer's chorus instance in place.
 *
 * The pure part (`Panel`, `Clicked`, `Slid`, `Run`) states what the handlers
 * do; the class `ChorusPanel` does it step by step and is proved against it.
 */
module ChorusControls {
  import opened Wrappers
  import opened Tone
  import opened Synthesizer

  /**
   * The `toggle` state cell: the empty string it starts as, or a boolean.
   * Only `true` is truthy.
   */
  datatype Toggle = Blank | Flag(on: bool)
  {
    predicate Truthy()
    {
      this == Flag(true)
    }
  }

  /** The five sliders, each with its own displayed value and chorus setting. */
  datatype Knob = Frequency | Delay | Depth | Feedback | Spread

  /** What the panel holds: the six state cells and the chorus instance it drives. */
  datatype Panel = Panel(toggle: Toggle, frequency: real, delay: real, depth: real, feedback: real, spread: real,
                         chorus: EffectNode)

  predicate Valid(p: Panel)
  {
    p.chorus.params.ChorusParams?
  }

  /** The state cells after the component mounts, driving `chorus`: switch off, every slider at 0. */
  function Initial(chorus: EffectNode): (p: Panel)
    ensures !p.toggle.Truthy() && p.toggle.Blank?
    ensures forall k :: KnobValue(p, k) == 0.0
    ensures p.chorus == chorus
  {
    Panel(Blank, 0.0, 0.0, 0.0, 0.0, 0.0, chorus)
  }

  /** The value a slider's state cell displays. */
  function KnobValue(p: Panel, k: Knob): real
  {
    match k
    case Frequency => p.frequency
    case Delay => p.delay
    case Depth => p.depth
    case Feedback => p.feedback
    case Spread => p.spread
  }

  /** `setFrequency(e)` and its siblings: only the slider's own cell changes. */
  function WithKnob(p: Panel, k: Knob, e: real): (r: Panel)
    ensures KnobValue(r, k) == e
    ensures forall j :: j != k ==> KnobValue(r, j) == KnobValue(p, j)
    ensures r.toggle == p.toggle && r.chorus == p.chorus
  {
    match k
    case Frequency => p.(frequency := e)
    case Delay => p.(delay := e)
    case Depth => p.(depth := e)
    case Feedback => p.(feedback := e)
    case Spread => p.(spread := e)
  }

  /** The chorus field a slider drives; `None` when it was never set. */
  function Setting(params: Params, k: Knob): Option<real>
    requires params.ChorusParams?
  {
    match k
    case Frequency => Some(params.frequency)
    case Delay => Some(params.delay)
    case Depth => Some(params.depth)
    case Feedback => params.feedback
    case Spread => params.spread
  }

  /** `Chorus.set({ <field>: e })`: only the slider's own chorus field changes. */
  function Tuned(params: Params, k: Knob, e: real): (r: Params)
    requires params.ChorusParams?
    ensures r.ChorusParams?
    ensures Setting(r, k) == Some(e)
    ensures forall j :: j != k ==> Setting(r, j) == Setting(params, j)
  {
    match k
    case Frequency => params.(frequency := e)
    case Delay => params.(delay := e)
    case Depth => params.(depth := e)
    case Feedback => params.(feedback := Some(e))
    case Spread => params.(spread := Some(e))
  }

  /** `handleClick`: a truthy switch turns the chorus dry and off, any other turns it fully wet and on. */
  function Clicked(p: Panel): (r: Panel)
    ensures r.toggle.Flag? && (r.toggle.Truthy() <==> !p.toggle.Truthy())
    ensures r.chorus == p.chorus.(wet := Some(if r.toggle.Truthy() then 1.0 else 0.0))
    ensures forall k :: KnobValue(r, k) == KnobValue(p, k)
  {
    if p.toggle.Truthy() then
      p.(chorus := p.chorus.(wet := Some(0.0)), toggle := Flag(false))
    else
      p.(chorus := p.chorus.(wet := Some(1.0)), toggle := Flag(true))
  }

  /**
   * A slider handler: switch on if off, show `e`, and set the chorus fully
   * wet with the slider's field at `e`; nothing else changes.
   */
  function Slid(p: Panel, k: Knob, e: real): (r: Panel)
    requires Valid(p)
    ensures Valid(r)
    ensures r.toggle == Flag(true) && r.chorus.wet == Some(1.0) && r.chorus.alive == p.chorus.alive
    ensures KnobValue(r, k) == e && Setting(r.chorus.params, k) == Some(e)
    ensures forall j :: j != k ==> KnobValue(r, j) == KnobValue(p, j)
    ensures forall j :: j != k ==> Setting(r.chorus.params, j) == Setting(p.chorus.params, j)
  {
    var on := if !p.toggle.Truthy() then Flag(true) else p.toggle;
    var shown := WithKnob(p.(toggle := on), k, e);
    shown.(chorus := p.chorus.(wet := Some(1.0), params := Tuned(p.chorus.params, k, e)))
  }

  /** A user action on the panel. */
  datatype Action = Click | Slide(knob: Knob, value: real)

  function Step(p: Panel, a: Action): (r: Panel)
    requires Valid(p)
    ensures Valid(r)
  {
    match a
    case Click => Clicked(p)
    case Slide(k, e) => Slid(p, k, e)
  }

  /** The panel after the actions, in order. */
  function Run(p: Panel, actions: seq<Action>): (r: Panel)
    requires Valid(p)
    ensures Valid(r)
    decreases |actions|
  {
    if actions == [] then p else Run(Step(p, actions[0]), actions[1..])
  }

  /** The switch shows the chorus state: on exactly when fully wet, otherwise dry. */
  predicate Agrees(p: Panel)
  {
    p.chorus.wet == Some(if p.toggle.Truthy() then 1.0 else 0.0)
  }

  /** Each slider shows its chorus field, or 0 while that field was never set. */
  predicate Mirrors(p: Panel)
    requires Valid(p)
  {
    forall k :: Setting(p.chorus.params, k) == Some(KnobValue(p, k))
             || (Setting(p.chorus.params, k) == None && KnobValue(p, k) == 0.0)
  }

  predicate Coherent(p: Panel)
    requires Valid(p)
  {
    Agrees(p) && Mirrors(p)
  }

  /**
   * Two clicks from a boolean switch give back the switch and leave the
   * chorus at the wet level that switch stands for, so they restore the whole
   * panel exactly when the switch agreed with the chorus. From the initial
   * empty string they leave the switch `false` and the chorus dry.
   */
  lemma TwoClicksRestore(p: Panel)
    ensures p.toggle.Flag? ==>
      && Clicked(Clicked(p)).toggle == p.toggle
      && Clicked(Clicked(p)).chorus == p.chorus.(wet := Some(if p.toggle.Truthy() then 1.0 else 0.0))
    ensures p.toggle.Flag? ==> (Clicked(Clicked(p)) == p <==> Agrees(p))
    ensures p.toggle == Blank ==> Clicked(Clicked(p)) == p.(toggle := Flag(false), chorus := p.chorus.(wet := Some(0.0)))
  {
    var once := Clicked(p);
    if p.toggle.Flag? {
      assert once.toggle == Flag(!p.toggle.on);
      if Clicked(once) == p {
        assert p.chorus.wet == Clicked(once).chorus.wet;
      }
    }
  }

  /** Moving a slider twice to the same value is moving it once. */
  lemma SlideIdempotent(p: Panel, k: Knob, e: real)
    requires Valid(p)
    ensures Slid(Slid(p, k, e), k, e) == Slid(p, k, e)
  {
    var once := Slid(p, k, e);
    assert Tuned(once.chorus.params, k, e) == once.chorus.params;
    assert WithKnob(once, k, e) == once;
  }

  /** Clicks and slider moves keep the switch and the sliders in step with the chorus. */
  lemma {:induction false} RunCoherent(p: Panel, actions: seq<Action>)
    requires Valid(p) && Coherent(p)
    ensures Coherent(Run(p, actions))
    decreases |actions|
  {
    if actions != [] {
      var q := Step(p, actions[0]);
      assert Mirrors(q) by {
        forall k ensures Setting(q.chorus.params, k) == Some(KnobValue(q, k))
                      || (Setting(q.chorus.params, k) == None && KnobValue(q, k) == 0.0)
        {
          match actions[0]
          case Click =>
            assert KnobValue(q, k) == KnobValue(p, k);
          case Slide(j, e) =>
            if k != j {
              assert KnobValue(q, k) == KnobValue(p, k);
            }
        }
      }
      RunCoherent(q, actions[1..]);
    }
  }

  /** The range of each slider. */
  predicate InSliderRange(k: Knob, e: real)
  {
    match k
    case Frequency => 0.0 <= e <= 10.0
    case Delay => 1.0 <= e <= 1000.0
    case Depth => 0.0 <= e <= 1.0
    case Feedback => 0.0 <= e <= 0.95
    case Spread => 0.0 <= e <= 180.0
  }

  /** Every slider shows its initial 0 or a value from its range. */
  predicate InRange(p: Panel)
  {
    forall k :: KnobValue(p, k) == 0.0 || InSliderRange(k, KnobValue(p, k))
  }

  predicate FromSliders(actions: seq<Action>)
  {
    forall i :: 0 <= i < |actions| && actions[i].Slide? ==> InSliderRange(actions[i].knob, actions[i].value)
  }

  /** With slider values from their ranges, every displayed value stays 0 or in its range. */
  lemma {:induction false} RunInRange(p: Panel, actions: seq<Action>)
    requires Valid(p) && InRange(p) && FromSliders(actions)
    ensures InRange(Run(p, actions))
    decreases |actions|
  {
    if actions != [] {
      var q := Step(p, actions[0]);
      assert InRange(q) by {
        forall k ensures KnobValue(q, k) == 0.0 || InSliderRange(k, KnobValue(q, k)) {
          match actions[0]
          case Click =>
            assert KnobValue(q, k) == KnobValue(p, k);
          case Slide(j, e) =>
            if k != j {
              assert KnobValue(q, k) == KnobValue(p, k);
            }
        }
      }
      assert FromSliders(actions[1..]) by {
        forall i | 0 <= i < |actions[1..]| && actions[1..][i].Slide?
          ensures InSliderRange(actions[1..][i].knob, actions[1..][i].value)
        {
          assert actions[1..][i] == actions[i + 1];
        }
      }
      RunInRange(q, actions[1..]);
    }
  }

  /**
   * From mount, over the dry chorus `effectInit` leaves, any sequence of
   * clicks and slider moves keeps the switch and sliders in step with the
   * chorus and every displayed value in range.
   */
  lemma FromMount(actions: seq<Action>)
    requires FromSliders(actions)
    ensures Valid(Run(Initial(DryNode(Chorus)), actions))
    ensures Coherent(Run(Initial(DryNode(Chorus)), actions))
    ensures InRange(Run(Initial(DryNode(Chorus)), actions))
  {
    var p := Initial(DryNode(Chorus));
    assert Mirrors(p) by {
      forall k ensures Setting(p.chorus.params, k) == Some(KnobValue(p, k))
                    || (Setting(p.chorus.params, k) == None && KnobValue(p, k) == 0.0)
      {
        match k
        case Frequency =>
        case Delay =>
        case Depth =>
        case Feedback =>
        case Spread =>
      }
    }
    RunCoherent(p, actions);
    RunInRange(p, actions);
  }

  /**
   * The chorus component: its state cells, and the synthesizer whose chorus
   * slot it retunes in place.
   */
  class ChorusPanel {
    const synth: Synthesizer
    var toggle: Toggle
    var frequency: real
    var delay: real
    var depth: real
    var feedback: real
    var spread: real

    /** The `useState` initial values. */
    constructor (synth: Synthesizer)
      ensures this.synth == synth
      ensures toggle == Blank && frequency == 0.0 && delay == 0.0 && depth == 0.0 && feedback == 0.0 && spread == 0.0
    {
      this.synth := synth;
      toggle := Blank;
      frequency, delay, depth, feedback, spread := 0.0, 0.0, 0.0, 0.0, 0.0;
    }

    /** The chorus instance the synthesizer's chorus slot holds. */
    ghost function Current(): EffectNode
      reads synth`nodes, synth`slots, synth`synth
      requires synth.Ready()
    {
      EveryEffect(Chorus);
      synth.nodes[synth.slots[Chorus]]
    }

    ghost function View(): Panel
      reads this, synth`nodes, synth`slots, synth`synth
      requires synth.Ready()
    {
      Panel(toggle, frequency, delay, depth, feedback, spread, Current())
    }

    /** `synth.Chorus.set(...)`: the chorus instance takes the new settings; no instance is replaced. */
    method Retune(node: EffectNode)
      requires synth.Ready() && node.alive && node.Kind() == Chorus
      modifies synth`nodes
      ensures synth.Ready()
      ensures synth.nodes == old(synth.nodes)[synth.slots[Chorus] := node]
    {
      EveryEffect(Chorus);
      RetuneKeepsConsistent(synth.Effects(), Chorus, node);
      synth.nodes := synth.nodes[synth.slots[Chorus] := node];
    }

    method HandleClick()
      requires synth.Ready()
      modifies this`toggle, synth`nodes, synth`synth
      ensures synth.Ready()
      ensures View() == Clicked(old(View()))
      ensures synth.nodes == old(synth.nodes)[synth.slots[Chorus] := Current()]
      ensures synth.synth == old(synth.synth).(routes := old(synth.synth.routes) + [ChainOf(synth.slots, false)])
    {
      var chorus := synth.nodes[synth.slots[Chorus]];
      if toggle.Truthy() {
        Retune(chorus.(wet := Some(0.0)));
        synth.ChainEffects(false);
        toggle := Flag(false);
      } else {
        Retune(chorus.(wet := Some(1.0)));
        synth.ChainEffects(false);
        toggle := Flag(true);
      }
    }

    /** The shared shape of the five slider handlers, for the slider `k`. */
    method Slide(k: Knob, e: real)
      requires synth.Ready()
      modifies this`toggle, this`frequency, this`delay, this`depth, this`feedback, this`spread, synth`nodes, synth`synth
      ensures synth.Ready()
      ensures View() == Slid(old(View()), k, e)
      ensures synth.nodes == old(synth.nodes)[synth.slots[Chorus] := Current()]
      ensures synth.synth == old(synth.synth).(routes := old(synth.synth.routes) + [ChainOf(synth.slots, false)])
    {
      if !toggle.Truthy() {
        toggle := Flag(true);
      }
      match k {
        case Frequency => frequency := e;
        case Delay => delay := e;
        case Depth => depth := e;
        case Feedback => feedback := e;
        case Spread => spread := e;
      }
      var chorus := synth.nodes[synth.slots[Chorus]];
      Retune(chorus.(wet := Some(1.0), params := Tuned(chorus.params, k, e)));
      synth.ChainEffects(false);
    }

    method HandleFreq(e: real)
      requires synth.Ready()
      modifies this`toggle, this`frequency, this`delay, this`depth, this`feedback, this`spread, synth`nodes, synth`synth
      ensures synth.Ready()
      ensures View() == Slid(old(View()), Frequency, e)
      ensures synth.nodes == old(synth.nodes)[synth.slots[Chorus] := Current()]
      ensures synth.synth == old(synth.synth).(routes := old(synth.synth.routes) + [ChainOf(synth.slots, false)])
    {
      Slide(Frequency, e);
    }

    method HandleDelay(e: real)
      requires synth.Ready()
      modifies this`toggle, this`frequency, this`delay, this`depth, this`feedback, this`spread, synth`nodes, synth`synth
      ensures synth.Ready()
      ensures View() == Slid(old(View()), Delay, e)
      ensures synth.nodes == old(synth.nodes)[synth.slots[Chorus] := Current()]
      ensures synth.synth == old(synth.synth).(routes := old(synth.synth.routes) + [ChainOf(synth.slots, false)])
    {
      Slide(Delay, e);
    }

    method HandleDepth(e: real)
      requires synth.Ready()
      modifies this`toggle, this`frequency, this`delay, this`depth, this`feedback, this`spread, synth`nodes, synth`synth
      ensures synth.Ready()
      ensures View() == Slid(old(View()), Depth, e)
      ensures synth.nodes == old(synth.nodes)[synth.slots[Chorus] := Current()]
      ensures synth.synth == old(synth.synth).(routes := old(synth.synth.routes) + [ChainOf(synth.slots, false)])
    {
      Slide(Depth, e);
    }

    method HandleFeedback(e: real)
      requires synth.Ready()
      modifies this`toggle, this`frequency, this`delay, this`depth, this`feedback, this`spread, synth`nodes, synth`synth
      ensures synth.Ready()
      ensures View() == Slid(old(View()), Feedback, e)
      ensures synth.nodes == old(synth.nodes)[synth.slots[Chorus] := Current()]
      ensures synth.synth == old(synth.synth).(routes := old(synth.synth.routes) + [ChainOf(synth.slots, false)])
    {
      Slide(Feedback, e);
    }

    method HandleSpread(e: real)
      requires synth.Ready()
      modifies this`toggle, this`frequency, this`delay, this`depth, this`feedback, this`spread, synth`nodes, synth`synth
      ensures synth.Ready()
      ensures View() == Slid(old(View()), Spread, e)
      ensures synth.nodes == old(synth.nodes)[synth.slots[Chorus] := Current()]
      ensures synth.synth == old(synth.synth).(routes := old(synth.synth.routes) + [ChainOf(synth.slots, false)])
    {
      Slide(Spread, e);
    }
  }
}
