/** The "kitty decimator" processor that the wrapper drives: two parameters
    (bit depth and sample rate), state saved as an XML element, and a block
    callback that clears the output-only channels. The per-sample quantisation
    is not part of this model. */
module Kitty {
  import opened Common
  import opened Buffers

  /** Parameter indices. */
  const kBitDepth: int := 0
  const kSampleRate: int := 1

  /** The two fields that make up the processor's settings. */
  datatype Settings = Settings(bitDepth: int, sampleRate: real)

  /** What a freshly constructed processor holds. */
  const DefaultSettings := Settings(32, 1.0)

  function NumParameters(): nat { 2 }

  /** The normalised value the processor reports for a parameter index. */
  function ParameterValue(s: Settings, index: int): (r: real)
    ensures index == kBitDepth ==> Trunc(r * 32.0) == s.bitDepth
    ensures index == kBitDepth && 0 <= s.bitDepth <= 32 ==> 0.0 <= r <= 1.0
    ensures index == kSampleRate ==> r == s.sampleRate
    ensures index != kBitDepth && index != kSampleRate ==> r == 0.0
  {
    if index == kBitDepth then s.bitDepth as real / 32.0
    else if index == kSampleRate then s.sampleRate
    else 0.0
  }

  function ParameterName(index: int): string {
    if index == kBitDepth then "Bit Depth"
    else if index == kSampleRate then "Sample Rate"
    else ""
  }

  /** Exactly the declared parameters have a name. */
  lemma ParameterNamesCoverDeclaredParameters(index: int)
    ensures ParameterName(index) != "" <==> 0 <= index < NumParameters()
    ensures ParameterName(kBitDepth) != ParameterName(kSampleRate)
  {
  }

  /** C's (int) cast of a real: truncation toward zero. */
  function Trunc(x: real): (r: int)
    ensures x >= 0.0 ==> r as real <= x < r as real + 1.0
    ensures x < 0.0 ==> r as real - 1.0 < x <= r as real
  {
    if x >= 0.0 then x.Floor else -((-x).Floor)
  }

  /** JUCE's roundFloatToInt: nearest integer, ties to the even neighbour. */
  function RoundToInt(x: real): (r: int)
    ensures r as real - 0.5 <= x <= r as real + 0.5
  {
    var f := x.Floor;
    var frac := x - f as real;
    if frac < 0.5 then f
    else if frac > 0.5 then f + 1
    else if f % 2 == 0 then f else f + 1
  }

  /** The new settings after setParameter, and whether a change message was sent. */
  datatype SetOutcome = SetOutcome(settings: Settings, changeMessage: bool)

  /** setParameter as written: the bit depth is compared with the ROUNDED value,
      not with the value it would be set to. */
  function AfterSetParameter(s: Settings, index: int, v: real): (o: SetOutcome)
    ensures index != kBitDepth ==> o.settings.bitDepth == s.bitDepth
    ensures index != kSampleRate ==> o.settings.sampleRate == s.sampleRate
    ensures o.settings != s ==> o.changeMessage
  {
    if index == kBitDepth then
      if s.bitDepth != RoundToInt(v) then SetOutcome(s.(bitDepth := Trunc(v * 32.0)), true)
      else SetOutcome(s, false)
    else if index == kSampleRate then
      if s.sampleRate != v then SetOutcome(s.(sampleRate := v), true)
      else SetOutcome(s, false)
    else SetOutcome(s, false)
  }

  /** An index other than the two parameters changes nothing and sends no message. */
  lemma SetUnknownParameterIsIgnored(s: Settings, index: int, v: real)
    requires index != kBitDepth && index != kSampleRate
    ensures AfterSetParameter(s, index, v) == SetOutcome(s, false)
  {
  }

  /** Setting the sample rate reads back exactly, leaves the bit depth alone,
      and notifies only when the value differs; so a repeated set is silent. */
  lemma SampleRateRoundTrip(s: Settings, v: real)
    ensures var o := AfterSetParameter(s, kSampleRate, v);
      ParameterValue(o.settings, kSampleRate) == v &&
      o.settings.bitDepth == s.bitDepth &&
      (o.changeMessage <==> s.sampleRate != v) &&
      !AfterSetParameter(o.settings, kSampleRate, v).changeMessage
  {
  }

  /** When the update is taken, the value read back lies within one step (1/32)
      of the value set, on the side of zero: the depth is truncated, not rounded. */
  lemma BitDepthReadsBackWithinOneStep(s: Settings, v: real)
    ensures var o := AfterSetParameter(s, kBitDepth, v); var back := ParameterValue(o.settings, kBitDepth);
      o.changeMessage ==>
        (v >= 0.0 ==> 0.0 <= v - back < 1.0 / 32.0) &&
        (v < 0.0 ==> 0.0 <= back - v < 1.0 / 32.0)
  {
    var t := Trunc(v * 32.0);
    assert ParameterValue(Settings(t, s.sampleRate), kBitDepth) * 32.0 == t as real;
  }

  /** When the update is taken and 32 v is a whole number, the value reads back exactly. */
  lemma BitDepthEchoesWholeSteps(s: Settings, k: int)
    ensures var v := k as real / 32.0;
      s.bitDepth != RoundToInt(v) ==> ParameterValue(AfterSetParameter(s, kBitDepth, v).settings, kBitDepth) == v
  {
    assert Trunc(k as real / 32.0 * 32.0) == k;
  }

  /** Setting the bit depth twice to 0.5 sends a change message both times:
      depth 16 differs from round(0.5) = 0 although nothing changes. */
  lemma BitDepthRepeatedSetNotifiesAgain(r: real)
    ensures var first := AfterSetParameter(Settings(32, r), kBitDepth, 0.5);
      first == SetOutcome(Settings(16, r), true) &&
      AfterSetParameter(first.settings, kBitDepth, 0.5) == SetOutcome(Settings(16, r), true)
  {
    assert RoundToInt(0.5) == 0;
    assert Trunc(0.5 * 32.0) == 16;
  }

  /** With depth 1 (set from 1/32), a request for 0.6 is skipped because
      round(0.6) = 1, although it would have stored trunc(19.2) = 19. */
  lemma BitDepthUpdateSkipped(r: real)
    ensures AfterSetParameter(Settings(1, r), kBitDepth, 0.6) == SetOutcome(Settings(1, r), false)
    ensures Trunc(0.6 * 32.0) == 19
  {
    assert RoundToInt(0.6) == 1;
  }

  /** Channel names are the 1-based channel number, for inputs and outputs alike. */
  function ChannelName(channelIndex: int): string {
    IntToString(channelIndex + 1)
  }

  lemma ChannelNameIsIndexPlusOne(channelIndex: int)
    ensures var s := ChannelName(channelIndex);
      (s[0] == '-' ==> AllDigits(s[1..])) && (s[0] != '-' ==> AllDigits(s)) &&
      ParseInt(s) == channelIndex + 1
  {
    IntToStringRoundTrip(channelIndex + 1);
  }

  lemma ChannelNamesDistinct(i: int, j: int)
    requires i != j
    ensures ChannelName(i) != ChannelName(j)
  {
    if ChannelName(i) == ChannelName(j) {
      IntToStringInjective(i + 1, j + 1);
    }
  }

  function IsChannelStereoPair(index: int): bool { false }

  /** The single-program stubs. */
  function NumPrograms(): int { 0 }
  function CurrentProgram(): int { 0 }
  function ProgramName(index: int): string { "" }

  // ---------------------------------------------------------------------------
  // Saved state. The XML library and its binary encoding are outside the
  // model: an element is a tag and typed attributes, and the encoding is a
  // pair of functions supplied with the processor.

  datatype AttrValue = IntValue(i: int) | DoubleValue(d: real)

  datatype XmlElement = XmlElement(tagName: string, attributes: map<string, AttrValue>)

  datatype XmlCodec = XmlCodec(encode: XmlElement -> seq<uint8>, decode: seq<uint8> -> Option<XmlElement>)

  /** The encoding reads back every element it writes. */
  ghost predicate RoundTrips(c: XmlCodec) {
    forall e :: c.decode(c.encode(e)) == Some(e)
  }

  const SettingsTag := "kittySettings"

  function GetIntAttribute(e: XmlElement, name: string, default: int): int {
    if name !in e.attributes then default
    else match e.attributes[name]
      case IntValue(i) => i
      case DoubleValue(d) => Trunc(d)
  }

  function GetDoubleAttribute(e: XmlElement, name: string, default: real): real {
    if name !in e.attributes then default
    else match e.attributes[name]
      case IntValue(i) => i as real
      case DoubleValue(d) => d
  }

  /** The element getStateInformation writes. */
  function StateXml(s: Settings): XmlElement {
    XmlElement(SettingsTag, map["bitDepth" := IntValue(s.bitDepth), "sampleRate" := DoubleValue(s.sampleRate)])
  }

  function StateInformation(c: XmlCodec, s: Settings): (r: seq<uint8>)
    ensures RoundTrips(c) ==> c.decode(r) == Some(StateXml(s))
  {
    c.encode(StateXml(s))
  }

  /** The settings setStateInformation installs over `current`, or None when the
      blob does not parse to a settings element (then nothing changes). A missing
      attribute keeps its current value. */
  function RestoredSettings(c: XmlCodec, current: Settings, data: seq<uint8>): (r: Option<Settings>)
    ensures r.Some? <==> c.decode(data).Some? && c.decode(data).value.tagName == SettingsTag
    ensures forall t :: c.decode(data) == Some(StateXml(t)) ==> r == Some(t)
  {
    match c.decode(data)
    case None => None
    case Some(xml) =>
      if xml.tagName != SettingsTag then None
      else Some(Settings(GetIntAttribute(xml, "bitDepth", current.bitDepth),
                         GetDoubleAttribute(xml, "sampleRate", current.sampleRate)))
  }

  /** Restoring a blob that getStateInformation produced brings back both fields,
      whatever the restoring processor held before. */
  lemma StateRoundTrip(c: XmlCodec, saved: Settings, current: Settings)
    requires RoundTrips(c)
    ensures RestoredSettings(c, current, StateInformation(c, saved)) == Some(saved)
  {
    assert c.decode(c.encode(StateXml(saved))) == Some(StateXml(saved));
  }

  /** A settings element without attributes restores nothing but still parses. */
  lemma MissingAttributesKeepCurrent(c: XmlCodec, current: Settings, data: seq<uint8>)
    requires c.decode(data) == Some(XmlElement(SettingsTag, map[]))
    ensures RestoredSettings(c, current, data) == Some(current)
  {
  }

  /** An element with another tag changes nothing. */
  lemma ForeignElementIgnored(c: XmlCodec, current: Settings, data: seq<uint8>)
    requires c.decode(data).Some? && c.decode(data).value.tagName != SettingsTag
    ensures RestoredSettings(c, current, data) == None
  {
  }

  /** The processor object. Besides kitty's own two fields it carries the
      AudioProcessor bookkeeping the wrapper drives (channel configuration,
      suspension, the non-realtime flag); change messages and editor
      deletions are counted. */
  class Processor {
    const codec: XmlCodec
    var bitDepth: int
    var sampleRate: real
    var changeMessages: nat

    var numInputChannels: nat
    var numOutputChannels: nat
    var playSampleRate: real
    var playBlockSize: int
    var nonRealtime: bool
    var suspended: bool
    var editorsDeleted: nat

    function State(): Settings
      reads this
    {
      Settings(bitDepth, sampleRate)
    }

    constructor (codec: XmlCodec)
      ensures this.codec == codec && State() == DefaultSettings && changeMessages == 0
      ensures numInputChannels == 0 && numOutputChannels == 0
      ensures !suspended && !nonRealtime && editorsDeleted == 0
    {
      this.codec := codec;
      bitDepth := 32;
      sampleRate := 1.0;
      changeMessages := 0;
      numInputChannels, numOutputChannels := 0, 0;
      playSampleRate, playBlockSize := 0.0, 0;
      nonRealtime, suspended := false, false;
      editorsDeleted := 0;
    }

    method SetParameter(index: int, newValue: real)
      modifies this`bitDepth, this`sampleRate, this`changeMessages
      ensures State() == AfterSetParameter(old(State()), index, newValue).settings
      ensures changeMessages ==
        old(changeMessages) + if AfterSetParameter(old(State()), index, newValue).changeMessage then 1 else 0
    {
      if index == kBitDepth {
        if bitDepth != RoundToInt(newValue) {
          bitDepth := Trunc(newValue * 32.0);
          changeMessages := changeMessages + 1;
        }
      }
      if index == kSampleRate {
        if sampleRate != newValue {
          sampleRate := newValue;
          changeMessages := changeMessages + 1;
        }
      }
    }

    method SetStateInformation(data: seq<uint8>)
      modifies this`bitDepth, this`sampleRate, this`changeMessages
      ensures RestoredSettings(codec, old(State()), data).None? ==>
        State() == old(State()) && changeMessages == old(changeMessages)
      ensures RestoredSettings(codec, old(State()), data).Some? ==>
        State() == RestoredSettings(codec, old(State()), data).value && changeMessages == old(changeMessages) + 1
    {
      var xmlState := codec.decode(data);
      if xmlState.Some? {
        if xmlState.value.tagName == SettingsTag {
          bitDepth := GetIntAttribute(xmlState.value, "bitDepth", bitDepth);
          sampleRate := GetDoubleAttribute(xmlState.value, "sampleRate", sampleRate);
          changeMessages := changeMessages + 1;
        }
      }
    }

    /** The channel-clearing part of the block callback: output channels that have
        no input are silenced; the input channels are not modelled (left as they are). */
    method ProcessBlock(chans: seq<Ptr>, numSamples: nat, m: Mem) returns (r: Mem)
      requires numOutputChannels <= |chans|
      requires numInputChannels < numOutputChannels ==>
        AllHold(m, chans, numInputChannels, numOutputChannels, numSamples)
      ensures numInputChannels < numOutputChannels ==>
        r == ZeroChannels(m, chans, numInputChannels, numOutputChannels, numSamples)
      ensures numInputChannels >= numOutputChannels ==> r == m
    {
      r := m;
      if numInputChannels < numOutputChannels {
        r := ZeroRange(m, chans, numInputChannels, numOutputChannels, numSamples);
      }
    }

    method SetPlayConfigDetails(numIns: nat, numOuts: nat, rate: real, blockSize: int)
      modifies this`numInputChannels, this`numOutputChannels, this`playSampleRate, this`playBlockSize
      ensures numInputChannels == numIns && numOutputChannels == numOuts
      ensures playSampleRate == rate && playBlockSize == blockSize
    {
      numInputChannels, numOutputChannels := numIns, numOuts;
      playSampleRate, playBlockSize := rate, blockSize;
    }

    method SetNonRealtime(isNonRealtime: bool)
      modifies this`nonRealtime
      ensures nonRealtime == isNonRealtime
    {
      nonRealtime := isNonRealtime;
    }

    method SuspendProcessing(shouldBeSuspended: bool)
      modifies this`suspended
      ensures suspended == shouldBeSuspended
    {
      suspended := shouldBeSuspended;
    }

    method EditorBeingDeleted()
      modifies this`editorsDeleted
      ensures editorsDeleted == old(editorsDeleted) + 1
    {
      editorsDeleted := editorsDeleted + 1;
    }

    /** setCurrentProgram and changeProgramName have empty bodies. */
    method SetCurrentProgram(index: int)
      ensures CurrentProgram() == 0 && State() == old(State())
    {
    }

    method ChangeProgramName(index: int, newName: string)
      ensures ProgramName(CurrentProgram()) == "" && State() == old(State())
    {
    }
  }
}
