/**
 * The part of the WebMidi library the controller uses: devices looked up by
 * name, their per-channel event emitters, and the listener lists those
 * emitters keep. A listener callback is an object compared by identity, as a
 * JavaScript closure is.
 */
module WebMidi {
  import opened Wrappers

  /** The four MIDI event types the synthesizer listens for. */
  datatype EventType = NoteOn | NoteOff | PitchBend | ControlChange

  /** An arrow function registered as a listener; `owner` is the object it closes over. */
  class Callback {
    const owner: object
    const event: EventType

    constructor (owner: object, event: EventType)
      ensures this.owner == owner && this.event == event
    {
      this.owner := owner;
      this.event := event;
    }
  }

  const AllEvents: set<EventType> := {NoteOn, NoteOff, PitchBend, ControlChange}

  lemma EveryEvent(t: EventType)
    ensures t in AllEvents
  {
    match t
    case NoteOn =>
    case NoteOff =>
    case PitchBend =>
    case ControlChange =>
  }

  /** Listener lists of one channel, by event type; a missing entry is an empty list. */
  type Table = map<EventType, seq<Callback>>

  function Listeners(tab: Table, t: EventType): seq<Callback>
  {
    if t in tab then tab[t] else []
  }

  predicate Distinct(l: seq<Callback>)
  {
    forall i, j :: 0 <= i < j < |l| ==> l[i] != l[j]
  }

  /** Every listener list of the table registers each callback at most once. */
  predicate AllDistinct(tab: Table)
  {
    forall t :: t in tab ==> Distinct(tab[t])
  }

  /** The list with position `i` taken out. */
  function Drop(l: seq<Callback>, i: nat): seq<Callback>
    requires i < |l|
  {
    l[..i] + l[i + 1..]
  }

  /** What `removeListener(type, callback)` leaves of a list: every entry holding that callback goes. */
  function Without(l: seq<Callback>, cb: Callback): (r: seq<Callback>)
    ensures forall i :: 0 <= i < |r| ==> r[i] in l && r[i] != cb
    ensures forall i :: 0 <= i < |l| && l[i] != cb ==> l[i] in r
    ensures |r| <= |l|
    ensures cb in l ==> |r| < |l|
  {
    if l == [] then []
    else if l[0] == cb then Without(l[1..], cb)
    else [l[0]] + Without(l[1..], cb)
  }

  /** With distinct callbacks, removing the callback found at position `i` removes exactly that position. */
  lemma {:induction false} WithoutAt(l: seq<Callback>, i: nat)
    requires Distinct(l) && i < |l|
    ensures Without(l, l[i]) == Drop(l, i)
  {
    if i == 0 {
      WithoutAbsent(l[1..], l[0]);
      assert l[1..] == Drop(l, 0);
    } else {
      assert Distinct(l[1..]) by {
        forall a, b | 0 <= a < b < |l[1..]| ensures l[1..][a] != l[1..][b] {
          assert l[1..][a] == l[a + 1] && l[1..][b] == l[b + 1];
        }
      }
      assert l[0] != l[i];
      WithoutAt(l[1..], i - 1);
      assert l[1..][i - 1] == l[i];
      DropFirst(l, i);
    }
  }

  /** Taking out a later position keeps the head in front. */
  lemma DropFirst(l: seq<Callback>, i: nat)
    requires 0 < i < |l|
    ensures Drop(l, i) == [l[0]] + Drop(l[1..], i - 1)
  {
    assert l[1..][..i - 1] == l[1..i] && l[1..][i..] == l[i + 1..];
    assert [l[0]] + l[1..i] == l[..i];
  }

  /** Removing a callback that is not registered leaves the list as it was. */
  lemma {:induction false} WithoutAbsent(l: seq<Callback>, cb: Callback)
    requires cb !in l
    ensures Without(l, cb) == l
  {
    if l != [] {
      assert cb !in l[1..];
      WithoutAbsent(l[1..], cb);
    }
  }

  /**
   * One channel of an input device (`input.channels[n]`). It keeps the
   * listener lists that `addListener` and `removeListener` change in place.
   */
  class InputChannel {
    var table: Table

    constructor (table: Table)
      ensures this.table == table
    {
      this.table := table;
    }

    function GetListeners(t: EventType): (l: seq<Callback>)
      reads this
      ensures l == Listeners(table, t)
    {
      Listeners(table, t)
    }

    method AddListener(t: EventType, cb: Callback)
      modifies this
      ensures table == old(table)[t := old(GetListeners(t)) + [cb]]
    {
      table := table[t := GetListeners(t) + [cb]];
    }

    method RemoveListener(t: EventType, cb: Callback)
      modifies this
      ensures table == old(table)[t := Without(old(GetListeners(t)), cb)]
    {
      table := table[t := Without(GetListeners(t), cb)];
    }
  }

  /** An input device: its channels by number (normally 1 to 16). */
  class MidiInput {
    const channels: map<int, InputChannel>

    constructor (channels: map<int, InputChannel>)
      ensures this.channels == channels
    {
      this.channels := channels;
    }
  }

  /** The library object: the devices it can find by name. */
  class MidiAccess {
    const inputs: map<string, MidiInput>

    constructor (inputs: map<string, MidiInput>)
      ensures this.inputs == inputs
    {
      this.inputs := inputs;
    }

    /** `getInputByName`: the device registered under the name, or nothing (`undefined`). */
    function GetInputByName(name: Option<string>): (device: MidiInput?)
      ensures device != null <==> name.Some? && name.value in inputs
      ensures device != null ==> device == inputs[name.value]
    {
      if name.Some? && name.value in inputs then inputs[name.value] else null
    }
  }
}
