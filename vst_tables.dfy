/** The wrapper's answers that depend only on their arguments: capability
    queries, pin properties, the program-index range check, and the
    translation of the host's transport record into a play-head position. */
module VstTables {
  import opened Common

  // ---------------------------------------------------------------------------
  // canDo

  const ReceiveQueries: seq<string> := ["receiveVstEvents", "receiveVstMidiEvent", "receiveVstMidiEvents"]
  const SendQueries: seq<string> := ["sendVstEvents", "sendVstMidiEvent", "sendVstMidiEvents"]
  const AlwaysQueries: seq<string> := ["receiveVstTimeInfo", "conformsToWindowRules"]

  /** The answer to a capability query: 1 yes, -1 no, 0 don't know. The MIDI
      answers follow how the plug-in was built. */
  function CanDo(text: string, wantsMidiInput: bool, producesMidiOutput: bool): (r: int)
    ensures -1 <= r <= 1
    ensures r == -1 ==> text in ReceiveQueries + SendQueries
  {
    if text == "receiveVstEvents" || text == "receiveVstMidiEvent" || text == "receiveVstMidiEvents" then
      if wantsMidiInput then 1 else -1
    else if text == "sendVstEvents" || text == "sendVstMidiEvent" || text == "sendVstMidiEvents" then
      if producesMidiOutput then 1 else -1
    else if text == "receiveVstTimeInfo" || text == "conformsToWindowRules" then 1
    else 0
  }

  /** The three answers in terms of the query tables: a "yes" for a supported
      capability, a "no" exactly for the MIDI direction the build leaves out,
      and "don't know" for every string in no table. */
  lemma CanDoAnswers(text: string, wantsMidiInput: bool, producesMidiOutput: bool)
    ensures var r := CanDo(text, wantsMidiInput, producesMidiOutput);
      (r == 1 <==> (text in ReceiveQueries && wantsMidiInput) || (text in SendQueries && producesMidiOutput) ||
                   text in AlwaysQueries) &&
      (r == -1 <==> (text in ReceiveQueries && !wantsMidiInput) || (text in SendQueries && !producesMidiOutput)) &&
      (r == 0 <==> text !in ReceiveQueries + SendQueries + AlwaysQueries)
  {
    assert forall s :: s in ReceiveQueries + SendQueries + AlwaysQueries <==>
      s in ReceiveQueries || s in SendQueries || s in AlwaysQueries;
  }

  // ---------------------------------------------------------------------------
  // Pin properties

  const kVstMaxLabelLen: nat := 64
  const kVstMaxShortLabelLen: nat := 8

  const kVstPinIsActive: bv32 := 1
  const kVstPinIsStereo: bv32 := 2

  datatype PinProperties = PinProperties(fullLabel: string, shortLabel: string, flags: bv32, arrangementType: int)

  /** String::copyToBuffer: at most maxChars characters of s, then the terminator. */
  function CopyToBuffer(s: string, maxChars: nat): (r: string)
    ensures |r| <= maxChars && r <= s
    ensures |s| <= maxChars ==> r == s
  {
    if |s| <= maxChars then s else s[..maxChars]
  }

  /** The properties reported for pin `index` of a side with `numChannels`
      channels, or None when the index is not below the count. The check is
      signed, so a negative index is answered too. */
  function PinFor(numChannels: int, index: int, name: string, stereo: bool): (r: Option<PinProperties>)
    ensures r.Some? <==> index < numChannels
    ensures r.Some? ==> r.value.shortLabel <= r.value.fullLabel
  {
    if index >= numChannels then None
    else Some(PinProperties(CopyToBuffer(name, kVstMaxLabelLen - 1), CopyToBuffer(name, kVstMaxShortLabelLen - 1),
                            if stereo then kVstPinIsActive | kVstPinIsStereo else kVstPinIsActive, 0))
  }

  /** Every answered pin is active and flagged stereo exactly when the processor
      pairs it; each label is the longest start of the channel name that fits its
      buffer with the terminator, so a name that fits is reported whole. */
  lemma PinForReports(numChannels: int, index: int, name: string, stereo: bool)
    ensures PinFor(numChannels, index, name, stereo).Some? ==>
      var p := PinFor(numChannels, index, name, stereo).value;
      p.flags & kVstPinIsActive != 0 && (p.flags & kVstPinIsStereo != 0 <==> stereo) &&
      p.fullLabel <= name && |p.fullLabel| == Min(|name|, kVstMaxLabelLen - 1) &&
      p.shortLabel <= name && |p.shortLabel| == Min(|name|, kVstMaxShortLabelLen - 1) &&
      (|name| < kVstMaxLabelLen ==> p.fullLabel == name) &&
      (|name| < kVstMaxShortLabelLen ==> p.shortLabel == name) &&
      p.arrangementType == 0
  {
  }

  // ---------------------------------------------------------------------------
  // Program index check

  const TwoTo32: int := 0x1_0000_0000

  predicate IsInt32(x: int) { -0x8000_0000 <= x < 0x8000_0000 }

  /** The C conversion of a 32-bit signed value to unsigned int. */
  function AsUnsigned32(x: int): (u: int)
    requires IsInt32(x)
    ensures 0 <= u < TwoTo32 && u % TwoTo32 == x % TwoTo32
  {
    if x < 0 then x + TwoTo32 else x
  }

  /** getProgramNameIndexed's test: index and count compared as unsigned. */
  function ProgramIndexInRange(index: int, numPrograms: int): bool
    requires IsInt32(index) && IsInt32(numPrograms)
  {
    AsUnsigned32(index) < AsUnsigned32(numPrograms)
  }

  /** For a non-negative program count the unsigned test is the signed range
      test: negative indices are rejected. */
  lemma ProgramIndexCheckIsRange(index: int, numPrograms: int)
    requires IsInt32(index) && IsInt32(numPrograms) && numPrograms >= 0
    ensures ProgramIndexInRange(index, numPrograms) <==> 0 <= index < numPrograms
  {
  }

  // ---------------------------------------------------------------------------
  // Transport

  const kVstTransportPlaying: bv32 := 2
  const kVstTransportRecording: bv32 := 8
  const kVstPpqPosValid: bv32 := 0x200
  const kVstTempoValid: bv32 := 0x400
  const kVstBarsValid: bv32 := 0x800
  const kVstTimeSigValid: bv32 := 0x2000
  const kVstSmpteValid: bv32 := 0x4000

  /** The fields of VstTimeInfo the wrapper reads (sample position and SMPTE
      offset only feed the floating-point times, which are not modelled). */
  datatype TimeInfo = TimeInfo(flags: bv32, sampleRate: real, tempo: real,
                               timeSigNumerator: int, timeSigDenominator: int,
                               ppqPos: real, barStartPos: real, smpteFrameRate: int)

  datatype FrameRateType = Fps24 | Fps25 | Fps2997 | Fps30 | Fps2997Drop | Fps30Drop | FpsUnknown

  datatype PositionInfo = PositionInfo(bpm: real, timeSigNumerator: int, timeSigDenominator: int,
                                       ppqPosition: real, ppqPositionOfLastBarStart: real,
                                       frameRate: FrameRateType, isRecording: bool, isPlaying: bool)

  function HasFlag(flags: bv32, flag: bv32): bool { flags & flag != 0 }

  /** The play-head frame rate for a VST SMPTE code. Only the six broadcast rates
      have a counterpart; the film and HDTV codes, and unknown codes, give FpsUnknown. */
  function FrameRateOf(smpteCode: int): FrameRateType {
    if smpteCode == 0 then Fps24
    else if smpteCode == 1 then Fps25
    else if smpteCode == 2 then Fps2997
    else if smpteCode == 3 then Fps30
    else if smpteCode == 4 then Fps2997Drop
    else if smpteCode == 5 then Fps30Drop
    else FpsUnknown
  }

  /** The VST SMPTE code of a known play-head frame rate. */
  function SmpteCodeOf(rate: FrameRateType): int
    requires rate != FpsUnknown
  {
    match rate
    case Fps24 => 0
    case Fps25 => 1
    case Fps2997 => 2
    case Fps30 => 3
    case Fps2997Drop => 4
    case Fps30Drop => 5
  }

  /** The code mapping is a bijection between the codes 0..5 and the known rates. */
  lemma FrameRateCodesRoundTrip(rate: FrameRateType, smpteCode: int)
    ensures rate != FpsUnknown ==> FrameRateOf(SmpteCodeOf(rate)) == rate
    ensures FrameRateOf(smpteCode) != FpsUnknown <==> 0 <= smpteCode <= 5
    ensures FrameRateOf(smpteCode) != FpsUnknown ==> SmpteCodeOf(FrameRateOf(smpteCode)) == smpteCode
  {
  }

  /** The position the play head reports when the host gives only a sample rate. */
  const DefaultPosition := PositionInfo(0.0, 4, 4, 0.0, 0.0, FpsUnknown, false, false)

  /** getCurrentPosition: None when the host has no time info or a non-positive
      sample rate; otherwise each group of fields is taken from the host when its
      validity flag is set and defaulted when not. */
  function CurrentPosition(ti: Option<TimeInfo>): (r: Option<PositionInfo>)
    ensures r.Some? <==> ti.Some? && ti.value.sampleRate > 0.0
    ensures r.Some? && r.value.isRecording ==> r.value.isPlaying
  {
    if ti.None? || ti.value.sampleRate <= 0.0 then None
    else
      var t := ti.value;
      var recording := HasFlag(t.flags, kVstTransportRecording);
      Some(PositionInfo(
        if HasFlag(t.flags, kVstTempoValid) then t.tempo else 0.0,
        if HasFlag(t.flags, kVstTimeSigValid) then t.timeSigNumerator else 4,
        if HasFlag(t.flags, kVstTimeSigValid) then t.timeSigDenominator else 4,
        if HasFlag(t.flags, kVstPpqPosValid) then t.ppqPos else 0.0,
        if HasFlag(t.flags, kVstBarsValid) then t.barStartPos else 0.0,
        if HasFlag(t.flags, kVstSmpteValid) then FrameRateOf(t.smpteFrameRate) else FpsUnknown,
        recording,
        HasFlag(t.flags, kVstTransportPlaying) || recording))
  }

  /** With no flags set the reported position is the default one. */
  lemma CurrentPositionDefaults(ti: Option<TimeInfo>)
    ensures CurrentPosition(ti).Some? && ti.value.flags == 0 ==> CurrentPosition(ti).value == DefaultPosition
  {
  }

  /** Each validity flag governs only its own fields: raising the tempo flag on a
      record that lacked it changes the reported tempo and nothing else. */
  lemma TempoFlagIsIndependent(t: TimeInfo)
    requires t.sampleRate > 0.0 && !HasFlag(t.flags, kVstTempoValid)
    ensures CurrentPosition(Some(t.(flags := t.flags | kVstTempoValid))) ==
      Some(CurrentPosition(Some(t)).value.(bpm := t.tempo))
  {
    var f := t.flags | kVstTempoValid;
    assert HasFlag(f, kVstTempoValid);
    assert HasFlag(f, kVstTimeSigValid) == HasFlag(t.flags, kVstTimeSigValid);
    assert HasFlag(f, kVstPpqPosValid) == HasFlag(t.flags, kVstPpqPosValid);
    assert HasFlag(f, kVstBarsValid) == HasFlag(t.flags, kVstBarsValid);
    assert HasFlag(f, kVstSmpteValid) == HasFlag(t.flags, kVstSmpteValid);
    assert HasFlag(f, kVstTransportRecording) == HasFlag(t.flags, kVstTransportRecording);
    assert HasFlag(f, kVstTransportPlaying) == HasFlag(t.flags, kVstTransportPlaying);
  }
}
