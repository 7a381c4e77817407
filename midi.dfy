/** MIDI events as the VST host exchanges them, and the processor's time-ordered
    MIDI queue the wrapper fills from the host and drains back to it. */
module Midi {
  import opened Common

  /** VstEvent::type of a MIDI event. */
  const kVstMidiType: int := 1

  /** VstMidiEvent::byteSize the wrapper writes into its outgoing slots. */
  const MidiEventByteSize: int := 24

  /** A VstMidiEvent's four raw bytes. */
  type MidiBytes = s: seq<uint8> | |s| == 4 witness [0, 0, 0, 0]

  /** The fields of a VstMidiEvent the wrapper reads or writes. */
  datatype VstMidiEvent = VstMidiEvent(eventType: int, byteSize: int, deltaFrames: int, midiData: MidiBytes)

  /** One entry of the processor's MIDI queue: raw bytes and a sample position. */
  datatype MidiMessage = MidiMessage(data: seq<uint8>, position: int)

  /** A freshly calloc'ed outgoing slot: typed as MIDI, sized, otherwise all zero. */
  const BlankMidiEvent := VstMidiEvent(kVstMidiType, MidiEventByteSize, 0, [0, 0, 0, 0])

  predicate SortedByTime(q: seq<MidiMessage>) {
    forall i, j :: 0 <= i < j < |q| ==> q[i].position <= q[j].position
  }

  /** Where the queue inserts an event at `position`: after every leading event
      at or before that position. */
  function InsertionPoint(q: seq<MidiMessage>, position: int): (k: nat)
    ensures k <= |q|
    ensures forall i :: 0 <= i < k ==> q[i].position <= position
    ensures k < |q| ==> q[k].position > position
  {
    if q == [] || q[0].position > position then 0 else 1 + InsertionPoint(q[1..], position)
  }

  /** MidiBuffer::addEvent: the event goes after all queued events at the same or an
      earlier position, so events keep their arrival order within one position.
      Nothing queued is lost and just that event is added. */
  function AddEvent(q: seq<MidiMessage>, m: MidiMessage): (r: seq<MidiMessage>)
    ensures multiset(r) == multiset(q) + multiset{m}
  {
    var k := InsertionPoint(q, m.position);
    assert q == q[..k] + q[k..];
    q[..k] + [m] + q[k..]
  }

  /** The queue after AddEvent, position by position. */
  lemma AddEventLayout(q: seq<MidiMessage>, m: MidiMessage)
    ensures var k := InsertionPoint(q, m.position); var r := AddEvent(q, m);
      |r| == |q| + 1 && r[k] == m &&
      (forall i :: 0 <= i < k ==> r[i] == q[i]) &&
      (forall i :: k < i < |r| ==> r[i] == q[i - 1])
  {
  }

  /** Adding an event to a sorted queue keeps it sorted. */
  lemma AddEventKeepsOrder(q: seq<MidiMessage>, m: MidiMessage)
    requires SortedByTime(q)
    ensures SortedByTime(AddEvent(q, m))
  {
    var k := InsertionPoint(q, m.position);
    var r := AddEvent(q, m);
    AddEventLayout(q, m);
    forall i, j | 0 <= i < j < |r|
      ensures r[i].position <= r[j].position
    {
      if i == k && j > k {
        assert q[k].position <= q[j - 1].position;
      }
    }
  }

  /** The queue entry a host event becomes, if the wrapper accepts it: only
      non-null events of MIDI type, with all four bytes and their deltaFrames as is. */
  function Accepted(e: Option<VstMidiEvent>): Option<MidiMessage> {
    if e.Some? && e.value.eventType == kVstMidiType then
      Some(MidiMessage(e.value.midiData, e.value.deltaFrames))
    else None
  }

  /** The messages the wrapper accepts from an event list, in host order. */
  function AcceptedMessages(events: seq<Option<VstMidiEvent>>): seq<MidiMessage>
    decreases |events|
  {
    if events == [] then []
    else
      var a := Accepted(events[|events| - 1]);
      AcceptedMessages(events[..|events| - 1]) + if a.Some? then [a.value] else []
  }

  /** The queue after processEvents has walked the host's event list in order:
      exactly the accepted events are added, none dropped and none invented. */
  function Incoming(q: seq<MidiMessage>, events: seq<Option<VstMidiEvent>>): (r: seq<MidiMessage>)
    ensures multiset(r) == multiset(q) + multiset(AcceptedMessages(events))
    decreases |events|
  {
    if events == [] then q
    else
      var before := Incoming(q, events[..|events| - 1]);
      var a := Accepted(events[|events| - 1]);
      if a.Some? then AddEvent(before, a.value) else before
  }

  /** processEvents' walk over the host's event list: each non-null MIDI-typed
      event is added to the queue, in list order. */
  method QueueIncoming(q: seq<MidiMessage>, events: seq<Option<VstMidiEvent>>) returns (r: seq<MidiMessage>)
    ensures r == Incoming(q, events)
  {
    r := q;
    var i := 0;
    while i < |events|
      invariant 0 <= i <= |events|
      invariant r == Incoming(q, events[..i])
    {
      var e := events[i];
      assert events[..i + 1][..i] == events[..i];
      if e.Some? && e.value.eventType == kVstMidiType {
        r := AddEvent(r, MidiMessage(e.value.midiData, e.value.deltaFrames));
      }
      i := i + 1;
    }
    assert events[..i] == events;
  }

  /** processEvents keeps a time-ordered queue time-ordered. */
  lemma {:induction false} IncomingKeepsOrder(q: seq<MidiMessage>, events: seq<Option<VstMidiEvent>>)
    requires SortedByTime(q)
    ensures SortedByTime(Incoming(q, events))
    decreases |events|
  {
    if events != [] {
      var init := events[..|events| - 1];
      IncomingKeepsOrder(q, init);
      var a := Accepted(events[|events| - 1]);
      if a.Some? {
        AddEventKeepsOrder(Incoming(q, init), a.value);
      }
    }
  }

  /** An event of another type, or a null entry, is never queued. */
  lemma NonMidiEventsIgnored(q: seq<MidiMessage>, events: seq<Option<VstMidiEvent>>, e: Option<VstMidiEvent>)
    requires e.None? || e.value.eventType != kVstMidiType
    ensures Incoming(q, events + [e]) == Incoming(q, events)
  {
    assert (events + [e])[..|events|] == events;
  }

  /** The queued messages that fit a VstMidiEvent (at most four bytes), in queue order. */
  function Representable(q: seq<MidiMessage>): (r: seq<MidiMessage>)
    ensures |r| <= |q|
    decreases |q|
  {
    if q == [] then []
    else Representable(q[..|q| - 1]) + if |q[|q| - 1].data| <= 4 then [q[|q| - 1]] else []
  }

  /** Selecting the representable messages commutes with splitting the queue. */
  lemma {:induction false} RepresentableDistributes(a: seq<MidiMessage>, b: seq<MidiMessage>)
    ensures Representable(a + b) == Representable(a) + Representable(b)
    decreases |b|
  {
    if b == [] {
      assert a + b == a;
    } else {
      var init := b[..|b| - 1];
      assert (a + b)[..|a + b| - 1] == a + init;
      RepresentableDistributes(a, init);
    }
  }

  /** Exactly the messages of at most four bytes are sent, none other. */
  lemma {:induction false} RepresentableSelectsShortMessages(q: seq<MidiMessage>)
    ensures forall m :: m in Representable(q) <==> m in q && |m.data| <= 4
    decreases |q|
  {
    if q != [] {
      var init := q[..|q| - 1];
      RepresentableSelectsShortMessages(init);
      assert q == init + [q[|q| - 1]];
    }
  }

  /** An outgoing slot after a message has been copied into it: the message's bytes
      overwrite the start of midiData, the rest keeps what the slot held before,
      and deltaFrames becomes the message's position. */
  function Fill(slot: VstMidiEvent, m: MidiMessage): (r: VstMidiEvent)
    requires |m.data| <= 4
    ensures r.midiData[..|m.data|] == m.data && r.deltaFrames == m.position
    ensures r.eventType == slot.eventType && r.byteSize == slot.byteSize
  {
    slot.(midiData := m.data + slot.midiData[|m.data|..], deltaFrames := m.position)
  }

  /** The outgoing slots after a block: slot i carries the i-th representable
      message, the slots past the last one are untouched. */
  predicate FilledFrom(slots: seq<VstMidiEvent>, old_slots: seq<VstMidiEvent>, msgs: seq<MidiMessage>)
  {
    |slots| == |old_slots| && |msgs| <= |slots| &&
    (forall i :: 0 <= i < |msgs| ==> |msgs[i].data| <= 4 && slots[i] == Fill(old_slots[i], msgs[i])) &&
    (forall i :: |msgs| <= i < |slots| ==> slots[i] == old_slots[i])
  }

  /** An outgoing slot as the host reads it: a MIDI event of the VST size. */
  predicate IsMidiSlot(e: VstMidiEvent) {
    e.eventType == kVstMidiType && e.byteSize == MidiEventByteSize
  }

  /** A batch sent to the host carries the messages one for one, in order:
      each slot is a MIDI event starting with the message's bytes at its position. */
  predicate CarriesMessages(batch: seq<VstMidiEvent>, msgs: seq<MidiMessage>) {
    |batch| == |msgs| &&
    forall i :: 0 <= i < |batch| ==>
      IsMidiSlot(batch[i]) && |msgs[i].data| <= 4 &&
      batch[i].midiData[..|msgs[i].data|] == msgs[i].data && batch[i].deltaFrames == msgs[i].position
  }

  /** Slots filled from MIDI-typed slots carry the messages they were filled with. */
  lemma FilledSlotsCarryMessages(slots: seq<VstMidiEvent>, old_slots: seq<VstMidiEvent>, msgs: seq<MidiMessage>)
    requires FilledFrom(slots, old_slots, msgs)
    requires forall i :: 0 <= i < |old_slots| ==> IsMidiSlot(old_slots[i])
    ensures CarriesMessages(slots[..|msgs|], msgs)
    ensures forall i :: 0 <= i < |slots| ==> IsMidiSlot(slots[i])
  {
  }
}
