# kitty decimator as a VST 2 plug-in, modelled in Dafny

This project models the VST 2 adapter `JuceVSTWrapper` (wrapper/formats/VST/juce_VstWrapper.cpp)
together with the small "kitty decimator" processor it wraps (kitty.cpp, trunk/kitty.h), and
proves what the two promise each other and the host.

- `common.dfy` (module `Common`): option values, bytes, pointer ids and samples, and the decimal
  text JUCE's `String(int)` writes (used for channel names), with its parse-back round trip.
- `kitty.dfy` (module `Kitty`): the processor. The pure parameter tables (value, name, channel
  names, the single-program stubs) are functions. The object is a `class Processor` whose methods
  update `bitDepth`, `sampleRate` and a change-message counter: `setParameter`,
  `setStateInformation`, and the output-clearing part of `processBlock`. The XML element and its
  binary encoding are abstracted as a codec value; the save/restore round trip is proved for any
  codec that reads back what it writes.
- `buffers.dfy` (module `Buffers`): host sample memory as a map from pointer ids to integer
  sample sequences. 0 is the null pointer, host buffers have positive ids and scratch buffers
  negative ids. Memory is passed as a value: each operation that writes samples takes the memory
  and returns it after the writes. The module defines, as functions over that memory, what one
  block does:
  - the clearing of a channel range;
  - the input copies of the channel build;
  - the processor's clearing of output-only channels;
  - the accumulating path's save and add-back.

  It also holds the methods with loops that the wrapper runs (`ZeroRange`, `CopyIntoChannels`,
  `PointChannels`, `SaveStarts`, `AddSavedBack`), each proved equal to its function, and `Alloc`,
  the scratch allocation, whose contract states the fresh block directly. It proves the aliasing
  facts: the scratch layout makes the channel buffers distinct, and, when every host pointer is
  positive and the host either processes in place or passes inputs and outputs that share no
  buffer (`InPlaceOrSeparate`), no copy overwrites an input that a later copy still reads.
- `midi.dfy` (module `Midi`): VST MIDI events and the processor's time-ordered MIDI queue: how
  `processEvents` fills it, and how the outgoing slots are filled from it.
- `vst_tables.dfy` (module `VstTables`): the answers that depend only on their arguments:
  `canDo`, pin properties, the unsigned program-index check, and the flag and frame-rate
  translation of `getCurrentPosition`.
- `vst_wrapper.dfy` (module `VstWrapper`): the process-wide state (`class Globals`: the recursion
  guard, the last master-idle time, the registry of live plug-ins) and `class JuceVstWrapper`
  with the wrapper's fields. It covers:
  - the constructor and destructor, `resume` and `suspend`;
  - `processReplacing` and `process` over the memory value;
  - MIDI in and out, and the outgoing event array's growth;
  - the chunk store and its timer expiry in wrapping 32-bit milliseconds;
  - `tryMasterIdle` and the guard of `doIdleCallback`;
  - editor creation and deletion, and the four editor opcodes of `dispatcher`;
  - the processor-null guards of the parameter and program calls.

Calls into the host and the GUI are parameters or counters:
- the editor the processor creates is an `Option<Editor>` argument;
- the millisecond counters are arguments;
- whether the mouse is down, and whether the caller is the message thread, are arguments;
- events sent to the host, `masterIdle` calls, idle pumps and GUI shut-downs are recorded in
  fields.

The plug-in build flags `JucePlugin_WantsMidiInput` and `JucePlugin_ProducesMidiOutput`, and the
channel counts, are constructor arguments.

Behaviour of the code that the model keeps as written:
- `processEvents` queues `deltaFrames` as it comes: no clamping to the block.
- Only the later slot of an aliased output pair gets a scratch buffer; the first keeps the host's
  pointer.
- `setChunk` clears the stored chunk and its time stamp even when the data is null or empty.
- `setParameter(kBitDepth, v)` compares the stored depth with round(v), but stores trunc(32 v).
- The constructor never initialises `hasCreatedTempChannels`; the model starts it false, which
  `resume` sets anyway before any block can use it.

## Model

| member | source | states |
|---|---|---|
| `Common.NatToStringRoundTrip` | kitty.cpp:95-103 | parsing the decimal digits written for n gives n back |
| `Common.IntToStringRoundTrip` | kitty.cpp:95-103 | the text of an integer is an optional minus sign and digits, and parses back to that integer |
| `Common.IntToStringInjective` | kitty.cpp:95-103 | two integers with the same text are equal |
| `Kitty.ParameterNamesCoverDeclaredParameters` | kitty.cpp:66-79 | a parameter has a non-empty name exactly when its index is below getNumParameters() = 2; the two names differ |
| `Kitty.Trunc` | kitty.cpp:51 | the (int) cast lies within one of x, on the side of zero |
| `Kitty.RoundToInt` | kitty.cpp:49 | roundFloatToInt gives an integer within 0.5 of x |
| `Kitty.ParameterValue` | kitty.cpp:30-43 | the bit-depth value, set back through setParameter's trunc(32 v), gives the stored depth again and lies in [0, 1] for depths 0 to 32; the sample-rate value is the stored rate; any other index reports 0 |
| `Kitty.AfterSetParameter` | kitty.cpp:45-64 | only the indexed field can change, and any change of the settings comes with a change message |
| `Kitty.SetUnknownParameterIsIgnored` | kitty.cpp:45-64 | setParameter with an index other than kBitDepth and kSampleRate changes no setting and sends no change message |
| `Kitty.SampleRateRoundTrip` | kitty.cpp:56-63 | after setting the sample rate to v, getParameter(kSampleRate) is v and the bit depth is unchanged; a change message is sent iff v differed, so a repeated set is silent |
| `Kitty.BitDepthReadsBackWithinOneStep` | kitty.cpp:30-54 | when the update is taken, getParameter(kBitDepth) reads back a value within 1/32 of the one set, on the side of zero, for every v |
| `Kitty.BitDepthEchoesWholeSteps` | kitty.cpp:30-54 | when the update is taken and 32 v is whole, getParameter(kBitDepth) reads v back |
| `Kitty.BitDepthRepeatedSetNotifiesAgain` | kitty.cpp:47-54 | setting 0.5 twice stores depth 16 both times and sends a change message both times |
| `Kitty.BitDepthUpdateSkipped` | kitty.cpp:47-54 | with depth 1, a request for 0.6 is skipped although it would store 19 |
| `Kitty.ChannelNameIsIndexPlusOne` | kitty.cpp:95-103 | a channel's name is decimal text that parses to its index plus one |
| `Kitty.ChannelNamesDistinct` | kitty.cpp:95-103 | different channel indices get different names |
| `Kitty.StateInformation` | kitty.cpp:173-179 | for an encoding that reads back what it writes, the blob decodes to the kittySettings element with both attributes |
| `Kitty.RestoredSettings` | kitty.cpp:181-197 | a restore happens iff the blob decodes to a kittySettings element, and an element getStateInformation would write restores exactly its settings |
| `Kitty.StateRoundTrip` | kitty.cpp:173-197 | for an encoding that reads back what it writes, restoring a blob from getStateInformation brings back both fields, whatever was held before |
| `Kitty.MissingAttributesKeepCurrent` | kitty.cpp:187-192 | a kittySettings element without attributes keeps both current values |
| `Kitty.ForeignElementIgnored` | kitty.cpp:183-196 | an element with another tag restores nothing |
| `Kitty.Processor.constructor` | kitty.cpp:10-14 | a new processor has bit depth 32, sample rate 1.0 and has sent no message |
| `Kitty.Processor.SetParameter` | kitty.cpp:45-64 | the new settings and message count are those of the setParameter rule above |
| `Kitty.Processor.SetStateInformation` | kitty.cpp:181-197 | when the blob decodes to a kittySettings element, the fields become its attributes (missing ones kept) and one message is sent; otherwise nothing changes |
| `Kitty.Processor.ProcessBlock` | kitty.cpp:150-153 | with fewer inputs than outputs, channels numIn..numOut-1 are cleared for the block; otherwise memory is unchanged |
| `Kitty.Processor.SetCurrentProgram` | trunk/kitty.h:38-39 | the current program stays 0 and no setting changes |
| `Kitty.Processor.ChangeProgramName` | trunk/kitty.h:40-41 | program names stay empty and no setting changes |
| `Buffers.Copied` | wrapper/formats/VST/juce_VstWrapper.cpp:672 | memcpy: the first n samples of dst become those of src, the rest of dst and every other buffer stay |
| `Buffers.Zeroed` | wrapper/formats/VST/juce_VstWrapper.cpp:634 | zeromem: the first n samples of p become silence, the rest of p and every other buffer stay |
| `Buffers.ZeroChannelsKeepsLengths` | wrapper/formats/VST/juce_VstWrapper.cpp:633-634 | clearing a channel range keeps every buffer's length |
| `Buffers.ZeroChannelsUntouched` | wrapper/formats/VST/juce_VstWrapper.cpp:633-634 | clearing a channel range leaves every buffer outside the range as it was |
| `Buffers.ZeroChannelsKeepsTails` | wrapper/formats/VST/juce_VstWrapper.cpp:633-634 | clearing n samples never changes anything past the first n |
| `Buffers.ZeroChannelsSilences` | wrapper/formats/VST/juce_VstWrapper.cpp:633-634 | every buffer of the range starts with n zeros afterwards |
| `Buffers.ZeroChannelsEffect` | wrapper/formats/VST/juce_VstWrapper.cpp:631-635 | after clearing, each listed buffer is n zeros followed by its old tail, and every other buffer is unchanged |
| `Buffers.BlockChannels` | wrapper/formats/VST/juce_VstWrapper.cpp:659-681 | the channel list has max(numIn, numOut) entries: slot i < numOut is its scratch buffer if it has one, else outputs[i]; slot numOut <= i < numIn is inputs[i] |
| `Buffers.CopyInputsKeepsLengths` | wrapper/formats/VST/juce_VstWrapper.cpp:661-675 | the input copies keep every buffer's length |
| `Buffers.CopyInputsUntouched` | wrapper/formats/VST/juce_VstWrapper.cpp:661-675 | the input copies change no buffer outside the channel list |
| `Buffers.CopyInputsKeepsTails` | wrapper/formats/VST/juce_VstWrapper.cpp:661-675 | the input copies change nothing past the first n samples |
| `Buffers.CopyInputsTailStep` | wrapper/formats/VST/juce_VstWrapper.cpp:671-672 | one more copy step keeps the tails the earlier steps kept |
| `Buffers.CopyInputsDelivers` | wrapper/formats/VST/juce_VstWrapper.cpp:661-675 | with distinct channels that never overwrite a pending input, channel i ends holding input i's first n samples |
| `Buffers.ChannelsDistinct` | wrapper/formats/VST/juce_VstWrapper.cpp:638-675 | with the scratch layout the scan produces, the output slots' channel buffers are pairwise distinct |
| `Buffers.ScratchLayoutSeparatesChannels` | wrapper/formats/VST/juce_VstWrapper.cpp:643-675 | with that layout and a host that works in place or on separate buffers, channels are distinct and no copy overwrites an input a later copy reads |
| `Buffers.RenderBlockFrame` | wrapper/formats/VST/juce_VstWrapper.cpp:659-685 | an unsuspended block keeps every buffer's length and its samples past n, leaves buffers outside the channel list as they were, and silences the output-only channels |
| `Buffers.RenderBlockDelivers` | wrapper/formats/VST/juce_VstWrapper.cpp:659-685 | with distinct, non-clobbering channels, after the block channel i < min(numIn, numOut) holds input i's samples |
| `Buffers.AddSamples` | wrapper/formats/VST/juce_VstWrapper.cpp:594 | the sum is taken sample by sample |
| `Buffers.Saved` | wrapper/formats/VST/juce_VstWrapper.cpp:584-587 | the saved runs are the first n samples of each of the first k outputs |
| `Buffers.AddedInto` | wrapper/formats/VST/juce_VstWrapper.cpp:594 | addFrom adds the saved run onto the first n samples of one buffer and changes nothing else |
| `Buffers.AddBackEffect` | wrapper/formats/VST/juce_VstWrapper.cpp:593-594 | with distinct outputs each gets exactly its own saved run added, and every other buffer is unchanged |
| `Buffers.AddOntoSilenceRestores` | wrapper/formats/VST/juce_VstWrapper.cpp:579-595 | adding a buffer's saved start onto its cleared start gives the buffer back |
| `Buffers.SuspendedAccumulateKeepsOutputs` | wrapper/formats/VST/juce_VstWrapper.cpp:579-595 | while suspended, an accumulating block leaves every distinct output it adds back exactly as it was |
| `Buffers.BlockKeepsOutputs` | wrapper/formats/VST/juce_VstWrapper.cpp:579-595 | after a cleared or rendered block the outputs still hold n samples, and when cleared the add-back restores distinct outputs |
| `Buffers.Alloc` | wrapper/formats/VST/juce_VstWrapper.cpp:652 | a scratch buffer of the requested size with an id no buffer had, every existing buffer unchanged |
| `Buffers.ZeroRange` | wrapper/formats/VST/juce_VstWrapper.cpp:633-634 | the clearing loop's memory is the range clear ZeroChannels specifies |
| `Buffers.CopyIntoChannels` | wrapper/formats/VST/juce_VstWrapper.cpp:661-675 | the copy loop's memory is CopyInputs of the channel list |
| `Buffers.PointChannels` | wrapper/formats/VST/juce_VstWrapper.cpp:661-678 | the channels array's first max(numIn, numOut) slots are the channel list |
| `Buffers.SaveStarts` | wrapper/formats/VST/juce_VstWrapper.cpp:584-587 | the save loop yields the saved runs of the first k outputs |
| `Buffers.AddSavedBack` | wrapper/formats/VST/juce_VstWrapper.cpp:591-594 | the add-back loop's memory is AddBack of the saved runs, last slot first |
| `Midi.InsertionPoint` | wrapper/formats/VST/juce_VstWrapper.cpp:567-569 | an event is inserted after every leading event at or before its position and before the first later one |
| `Midi.AddEventLayout` | wrapper/formats/VST/juce_VstWrapper.cpp:567-569 | the queue after an insert is one longer, with the event at the insertion point and the rest shifted |
| `Midi.AddEventKeepsOrder` | wrapper/formats/VST/juce_VstWrapper.cpp:567-569 | inserting into a time-ordered queue keeps it ordered |
| `Midi.AddEvent` | wrapper/formats/VST/juce_VstWrapper.cpp:567-569 | an insert adds exactly that event and loses none (as multisets) |
| `Midi.Incoming` | wrapper/formats/VST/juce_VstWrapper.cpp:556-577 | walking the host's events adds exactly the non-null MIDI events, none dropped and none invented, deltaFrames unclamped (as multisets) |
| `Midi.QueueIncoming` | wrapper/formats/VST/juce_VstWrapper.cpp:560-570 | the walk over the host's event list leaves the queue Incoming specifies |
| `Midi.IncomingKeepsOrder` | wrapper/formats/VST/juce_VstWrapper.cpp:556-577 | walking the host's events keeps a time-ordered queue time-ordered |
| `Midi.NonMidiEventsIgnored` | wrapper/formats/VST/juce_VstWrapper.cpp:561-563 | a null entry or an event of another type leaves the queue unchanged |
| `Midi.Representable` | wrapper/formats/VST/juce_VstWrapper.cpp:699-710 | the messages sent are never more than those queued |
| `Midi.RepresentableDistributes` | wrapper/formats/VST/juce_VstWrapper.cpp:699-710 | selecting the sendable messages commutes with splitting the queue |
| `Midi.RepresentableSelectsShortMessages` | wrapper/formats/VST/juce_VstWrapper.cpp:701 | a message is sent iff it is queued and has at most four bytes |
| `Midi.Fill` | wrapper/formats/VST/juce_VstWrapper.cpp:703-706 | a filled slot starts with the message's bytes, has its position as deltaFrames, and keeps type and size |
| `Midi.FilledSlotsCarryMessages` | wrapper/formats/VST/juce_VstWrapper.cpp:699-712 | filled MIDI slots carry the messages one for one, in order, and every slot stays a MIDI event of size 24 |
| `VstTables.CanDo` | wrapper/formats/VST/juce_VstWrapper.cpp:477-508 | the answer is 1, 0 or -1, and -1 is given only for a MIDI capability |
| `VstTables.CanDoAnswers` | wrapper/formats/VST/juce_VstWrapper.cpp:477-508 | canDo answers 1 for a supported capability, -1 exactly for the MIDI direction the build leaves out, 0 exactly for an unknown string |
| `VstTables.CopyToBuffer` | wrapper/formats/VST/juce_VstWrapper.cpp:522-523 | the copy is a prefix of the string of at most the buffer size, and the whole string when it fits |
| `VstTables.PinFor` | wrapper/formats/VST/juce_VstWrapper.cpp:515-553 | a pin is answered iff its index is below the channel count (a signed test), and its short label starts its full label |
| `VstTables.PinForReports` | wrapper/formats/VST/juce_VstWrapper.cpp:515-553 | an answered pin is active and stereo iff paired, arrangement 0; its labels are the first min(\|name\|, 63) and min(\|name\|, 7) characters of its name, the whole name when it fits |
| `VstTables.AsUnsigned32` | wrapper/formats/VST/juce_VstWrapper.cpp:931 | the unsigned conversion lies in [0, 2^32) and agrees with the value modulo 2^32 |
| `VstTables.ProgramIndexCheckIsRange` | wrapper/formats/VST/juce_VstWrapper.cpp:931 | for a non-negative count the unsigned test is 0 <= index < count, so negative indices fail |
| `VstTables.FrameRateCodesRoundTrip` | wrapper/formats/VST/juce_VstWrapper.cpp:839-897 | SMPTE codes 0-5 and the six known frame rates map to each other both ways; every other code is fpsUnknown |
| `VstTables.CurrentPosition` | wrapper/formats/VST/juce_VstWrapper.cpp:798-903 | a position is reported iff the host gives time info with a positive rate, and recording implies playing |
| `VstTables.CurrentPositionDefaults` | wrapper/formats/VST/juce_VstWrapper.cpp:798-903 | with no flags set the reported position is the default one (tempo 0, 4/4, positions 0, frame rate unknown, neither playing nor recording) |
| `VstTables.TempoFlagIsIndependent` | wrapper/formats/VST/juce_VstWrapper.cpp:811-814 | raising the tempo flag changes the reported tempo and nothing else |
| `VstWrapper.RemoveFirst` | wrapper/formats/VST/juce_VstWrapper.cpp:425 | removing a value that is absent changes nothing; removing a present one shortens the list by one |
| `VstWrapper.RemoveFirstTakesOne` | wrapper/formats/VST/juce_VstWrapper.cpp:425 | removal takes exactly one copy of the value out of the registry |
| `VstWrapper.RegistryRestored` | wrapper/formats/VST/juce_VstWrapper.cpp:396-425 | a plug-in added and then removed leaves the registry as it was |
| `VstWrapper.ChunkExpired` | wrapper/formats/VST/juce_VstWrapper.cpp:1059-1061 | a chunk is freed only when stamped and outside an idle call; away from wrap-around, exactly when more than 2000 ms have passed |
| `VstWrapper.ChunkFreedEarlyAfterWrap` | wrapper/formats/VST/juce_VstWrapper.cpp:1059-1061 | within 2000 ms after the counter wraps, every chunk stamped below 2^32 - (2000 - now) is freed, however young |
| `VstWrapper.MasterIdleDue` | wrapper/formats/VST/juce_VstWrapper.cpp:1077 | away from wrap-around, idle is due exactly when more than 20 ms have passed |
| `VstWrapper.MasterIdleEagerNearWrap` | wrapper/formats/VST/juce_VstWrapper.cpp:1077 | when last + 20 wraps past 2^32, every reading above the wrapped sum is taken as due |
| `VstWrapper.MasterIdleStallsAfterWrap` | wrapper/formats/VST/juce_VstWrapper.cpp:1077 | once the counter wraps below the last call's time, idle is not due until it climbs back past it |
| `VstWrapper.SaveAsWritten` | wrapper/formats/VST/juce_VstWrapper.cpp:584-587 | the save as written (slots below numIn) reads past the host's output array iff numIn > numOut; where it does not, it saves exactly the slots the corrected save saves |
| `VstWrapper.SaveAsWrittenReadsPastOutputs` | wrapper/formats/VST/juce_VstWrapper.cpp:584-587 | a plug-in with two inputs and one output, given the host's one-entry output array, reads past it in the save as written |
| `VstWrapper.AccumulateSaved` | wrapper/formats/VST/juce_VstWrapper.cpp:589-594 | the saved starts of the first min(numIn, numOut) outputs are added back onto the block's memory; while suspended, distinct outputs end as they began |
| `VstWrapper.Globals.constructor` | wrapper/formats/VST/juce_VstWrapper.cpp:131-132 | the guard starts clear, the last idle time at 0, the registry empty |
| `VstWrapper.Globals.Register` | wrapper/formats/VST/juce_VstWrapper.cpp:396 | the plug-in is appended to the registry |
| `VstWrapper.Globals.Unregister` | wrapper/formats/VST/juce_VstWrapper.cpp:424-433 | the plug-in's first entry is removed, and the GUI is shut down iff the registry is then empty |
| `VstWrapper.JuceVstWrapper.constructor` | wrapper/formats/VST/juce_VstWrapper.cpp:344-397 | no editor, no events, no chunk time, window 0, not processing, first callback pending; the processor gets the channel counts with rate and block size 0 and nothing else of it changes; the instance joins the registry and no other shared state changes |
| `VstWrapper.JuceVstWrapper.Destroy` | wrapper/formats/VST/juce_VstWrapper.cpp:399-434 | the timer stops, the editor is deleted (window 0, guard clear), the processor and every buffer are dropped, the instance leaves the registry, and the GUI shuts down after the last instance |
| `VstWrapper.JuceVstWrapper.ReleaseProcessor` | wrapper/formats/VST/juce_VstWrapper.cpp:404-422 | marks the shutdown and drops the processor, the event array, the channel pointers and the scratch slots |
| `VstWrapper.JuceVstWrapper.DeleteEditor` | wrapper/formats/VST/juce_VstWrapper.cpp:1130-1161 | afterwards there is no editor, the window is 0 and the guard clear; editorBeingDeleted runs once iff an editor existed |
| `VstWrapper.JuceVstWrapper.CreateEditorComp` | wrapper/formats/VST/juce_VstWrapper.cpp:1107-1128 | the created editor is kept only when there was none and the processor is live; an existing editor is never replaced |
| `VstWrapper.JuceVstWrapper.DoIdleCallback` | wrapper/formats/VST/juce_VstWrapper.cpp:1088-1105 | the idle pump runs once iff on the message thread and not inside a guarded call; the guard is restored |
| `VstWrapper.JuceVstWrapper.TryMasterIdle` | wrapper/formats/VST/juce_VstWrapper.cpp:1070-1086 | masterIdle runs and stamps the time iff the mouse is down, the guard is clear, the interval test passes and an editor exists; the guard is restored |
| `VstWrapper.JuceVstWrapper.TimerCallback` | wrapper/formats/VST/juce_VstWrapper.cpp:1057-1068 | the chunk and its stamp are cleared iff the expiry test holds, then the master-idle step runs |
| `VstWrapper.JuceVstWrapper.Open` | wrapper/formats/VST/juce_VstWrapper.cpp:436-439 | the timer runs with a period of 250 ms (1000 / 4) |
| `VstWrapper.JuceVstWrapper.Close` | wrapper/formats/VST/juce_VstWrapper.cpp:441-447 | the timer stops and the editor is deleted |
| `VstWrapper.JuceVstWrapper.EditOpen` | wrapper/formats/VST/juce_VstWrapper.cpp:1173-1247 | any old editor is deleted (one notification) and the guard ends clear; the answer is 1 with the host window kept iff a new editor was created, otherwise the base dispatcher answers |
| `VstWrapper.JuceVstWrapper.EditGetRect` | wrapper/formats/VST/juce_VstWrapper.cpp:1253-1272 | an editor is created if missing; the answer is the rect (0, 0, height, width) when one exists, 0 otherwise |
| `VstWrapper.JuceVstWrapper.Dispatcher` | wrapper/formats/VST/juce_VstWrapper.cpp:1163-1275 | after shutdown every call answers 0 and changes nothing; idle runs the pump under the guard; open, close and get-rect behave as EditOpen, DeleteEditor and EditGetRect, each stating every field it leaves; for other opcodes the wrapper itself changes nothing before delegating to the base dispatcher, which is outside the model |
| `VstWrapper.JuceVstWrapper.GetChunk` | wrapper/formats/VST/juce_VstWrapper.cpp:1018-1036 | with no processor, answers 0 and changes nothing; otherwise the chunk is the processor's state, stamped now, and its size is returned |
| `VstWrapper.JuceVstWrapper.SetChunk` | wrapper/formats/VST/juce_VstWrapper.cpp:1038-1055 | answers 0; with a processor, the chunk and stamp are cleared and the state is restored only from non-null data of positive size, with one change message; only the processor's settings and message count can change |
| `VstWrapper.JuceVstWrapper.DeleteTempChannels` | wrapper/formats/VST/juce_VstWrapper.cpp:1398-1410 | one empty scratch slot per processor channel (none without a processor), and the scan will run again |
| `VstWrapper.JuceVstWrapper.EnsureOutgoingEventSize` | wrapper/formats/VST/juce_VstWrapper.cpp:1412-1435 | a large enough array is kept; a smaller one grows to exactly n + 32, keeping the old slots and adding blank MIDI slots of size 24 |
| `VstWrapper.JuceVstWrapper.Resume` | wrapper/formats/VST/juce_VstWrapper.cpp:739-779 | unless shut down: processing, fresh null channel pointers, the host's rate (44100 if not positive) and block size, offline flag from the level, empty scratch slots, empty MIDI queue, at least 64 event slots when producing MIDI |
| `VstWrapper.JuceVstWrapper.StartProcessing` | wrapper/formats/VST/juce_VstWrapper.cpp:744-763 | resume's set-up of channels, rate, block size, offline flag and scratch slots |
| `VstWrapper.JuceVstWrapper.AllocateChannels` | wrapper/formats/VST/juce_VstWrapper.cpp:744-746 | processing starts with a fresh array of null channel pointers, one per channel |
| `VstWrapper.JuceVstWrapper.ConfigureProcessor` | wrapper/formats/VST/juce_VstWrapper.cpp:758-761 | the processor gets the offline flag, the rate and the block size |
| `VstWrapper.JuceVstWrapper.Suspend` | wrapper/formats/VST/juce_VstWrapper.cpp:781-796 | unless shut down: not processing, no channel pointers, empty scratch slots and an empty MIDI queue |
| `VstWrapper.JuceVstWrapper.ProcessEvents` | wrapper/formats/VST/juce_VstWrapper.cpp:556-577 | with MIDI input the queue becomes the accepted events inserted in host order and the answer is 1; without it nothing changes and the answer is 0 |
| `VstWrapper.JuceVstWrapper.FillOutgoingEvents` | wrapper/formats/VST/juce_VstWrapper.cpp:693-710 | the count is the number of queued messages of at most four bytes, and those fill the first slots in queue order |
| `VstWrapper.JuceVstWrapper.SendOutgoingMidi` | wrapper/formats/VST/juce_VstWrapper.cpp:687-732 | the queue is empty afterwards; a non-empty queue of a MIDI-producing plug-in goes to the host as one batch carrying exactly its short messages in order |
| `VstWrapper.JuceVstWrapper.EmitOutgoingEvents` | wrapper/formats/VST/juce_VstWrapper.cpp:690-712 | the array fits the queue, and one batch carrying its short messages is sent |
| `VstWrapper.JuceVstWrapper.CreateTempChannels` | wrapper/formats/VST/juce_VstWrapper.cpp:638-657 | slot i gets a fresh scratch buffer of twice the block size iff an earlier output holds the same non-null pointer; scratch buffers are distinct; host buffers are kept |
| `VstWrapper.JuceVstWrapper.BuildChannels` | wrapper/formats/VST/juce_VstWrapper.cpp:659-679 | the channels array holds the channel list and memory is the input copies of that list |
| `VstWrapper.JuceVstWrapper.RenderUnsuspended` | wrapper/formats/VST/juce_VstWrapper.cpp:636-684 | the scan runs on the first block only, and the memory is the rendered block over the channel list |
| `VstWrapper.JuceVstWrapper.PrepareScratch` | wrapper/formats/VST/juce_VstWrapper.cpp:638-657 | after the one-time scan every channel and input holds the block, and host buffers are unchanged |
| `VstWrapper.JuceVstWrapper.RenderChannels` | wrapper/formats/VST/juce_VstWrapper.cpp:659-684 | the channels array holds the channel list and memory is the rendered block |
| `VstWrapper.JuceVstWrapper.BeginBlock` | wrapper/formats/VST/juce_VstWrapper.cpp:599-617 | on the first callback a host that skipped resume gets one (fresh channels, resumed play configuration) and the processor learns the offline flag; the flag clears when resume had already run, while after a late resume it stays set, so the next block repeats the step; later callbacks change nothing |
| `VstWrapper.JuceVstWrapper.ProcessReplacing` | wrapper/formats/VST/juce_VstWrapper.cpp:597-733 | the first-callback effects of BeginBlock; then a suspended processor gets every output cleared, otherwise memory is the rendered block over the channel list; the queue is sent as in SendOutgoingMidi and ends empty |
| `VstWrapper.JuceVstWrapper.RenderAudio` | wrapper/formats/VST/juce_VstWrapper.cpp:625-685 | cleared outputs when suspended, the rendered block otherwise |
| `VstWrapper.JuceVstWrapper.Process` | wrapper/formats/VST/juce_VstWrapper.cpp:579-595 | the first-callback effects of BeginBlock; the first min(numIn, numOut) outputs are saved, the block rendered as by processReplacing, and the saved runs added back; when suspended, distinct outputs come out unchanged |
| `VstWrapper.JuceVstWrapper.GetProgram` | wrapper/formats/VST/juce_VstWrapper.cpp:906-909 | the program is always 0, with or without a processor, since kitty's current program is 0 |
| `VstWrapper.JuceVstWrapper.SetProgram` | wrapper/formats/VST/juce_VstWrapper.cpp:911-915 | setting a program leaves getProgram at 0 |
| `VstWrapper.JuceVstWrapper.ProgramNameLookupsFail` | wrapper/formats/VST/juce_VstWrapper.cpp:929-938 | with no programs every indexed program-name lookup fails, negative indices included |
| `VstWrapper.JuceVstWrapper.GetParameter` | wrapper/formats/VST/juce_VstWrapper.cpp:941-948 | 0 without a processor or for an unknown index; bitDepth/32 for kBitDepth; the sample rate for kSampleRate |
| `VstWrapper.JuceVstWrapper.SetParameter` | wrapper/formats/VST/juce_VstWrapper.cpp:950-957 | with a processor its settings and message count follow the setParameter rule; only those can change |
| `VstWrapper.JuceVstWrapper.GetParameterName` | wrapper/formats/VST/juce_VstWrapper.cpp:968-975 | a name is written iff a processor exists, and it is the parameter's whole name ("Bit Depth", "Sample Rate", empty otherwise), within 16 characters |
| `VstWrapper.JuceVstWrapper.GetInputProperties` | wrapper/formats/VST/juce_VstWrapper.cpp:515-533 | answered iff a processor exists and the index is below its input count; the labels are the first min(\|name\|, 63) and min(\|name\|, 7) characters of the channel name, the pin is active and not stereo, arrangement 0 |
| `VstWrapper.JuceVstWrapper.GetOutputProperties` | wrapper/formats/VST/juce_VstWrapper.cpp:535-553 | answered iff a processor exists and the index is below its output count; the labels are the first min(\|name\|, 63) and min(\|name\|, 7) characters of the channel name, the pin is active and not stereo, arrangement 0 |
| `VstWrapper.JuceVstWrapper.CanDoQuery` | wrapper/formats/VST/juce_VstWrapper.cpp:477-508 | the plug-in claims to receive MIDI iff built with MIDI input, and to send MIDI iff built with MIDI output |

## Left out

- Floating point: samples are integers and parameter values are reals, so float rounding,
  kitty's decimation loop (`decimate`, the per-sample quantisation of the input channels) and
  the seconds and fps divisions of `getCurrentPosition` are not modelled.
- Kitty.Processor.ProcessBlock: does not model the quantisation of the input channels (floating
  point); those channels are left as they are.
- Kitty.Processor.SetStateInformation: the `(float)` narrowing of the restored sample rate is not
  modelled (floating point).
- Kitty.RoundToInt: `roundFloatToInt`'s tie rule comes from a JUCE header that is not part of this
  model; ties go to the even neighbour.
- `getParameterText`'s formatting is not modelled (string formatting of floats).
- The XML library and its binary encoding are an abstract codec; restore is proved for any codec
  that reads back what it writes.
- Native window embedding and resizing, `SharedMessageThread`, and the locks are not modelled
  (platform calls and threading). Windows are plain ids.
- The body of `doIdleCallback` (running timers, repainting peers) is not modelled: only its guard
  and the fact that it ran.
- The Win32 thread-priority test that forces non-realtime mode is not modelled (platform call).
- `pluginEntryPoint`, the platform exports, and the editor class `kittyEditor` are not part of
  this model (ABI glue and generated UI).
- Allocator details: `deleteTempChannels` does not free scratch buffers in the model, and a new
  scratch buffer's contents are zeros where the C allocator leaves them unspecified.
- Pointers identify whole buffers: two host buffers that partially overlap are not modelled.
- `setSpeakerArrangement` is not modelled: the channel counts are fixed at construction.
- `prepareToPlay` and `releaseResources` are empty in kitty. The host calls `setInitialDelay` and
  `wantEvents`, and the `AudioEffectX` base class's own resume and suspend, are outside the model.
- `getCurrentProgramStateInformation` and `setCurrentProgramStateInformation` are taken as the
  whole-state calls: kitty keeps no per-program state.
- VstWrapper.JuceVstWrapper.ProcessReplacing: requires that `resume` ran or the first callback is
  still pending. After `suspend` without `resume` the code would use the null channel array; the
  model does not cover that host misuse.
- VstWrapper.JuceVstWrapper.Process: requires the same as ProcessReplacing. It saves only the
  outputs it adds back (see Findings).
- VstWrapper.JuceVstWrapper.PrepareScratch: when some output repeats an earlier output pointer,
  requires a block of at most twice the block size set at resume. That is the size of the scratch
  buffers the source allocates, and a longer block would overflow them; the host promises
  sampleFrames <= blockSize. Blocks with no aliased output have no such bound.
- VstWrapper.JuceVstWrapper.RenderUnsuspended: the same aliased-output block bound as PrepareScratch.
- VstWrapper.JuceVstWrapper.RenderAudio: the same aliased-output block bound as PrepareScratch.
- VstWrapper.JuceVstWrapper.ProcessReplacing: the same aliased-output block bound as PrepareScratch.
- VstWrapper.JuceVstWrapper.Process: the same aliased-output block bound as PrepareScratch.
- VstWrapper.JuceVstWrapper.SetChunk: requires that non-null data holds at least `byteSize` bytes;
  the host guarantees this.
- The `jassert` debugging checks are not modelled.
- `MidiBuffer::addEvent` is not part of this model. The queue keeps every event with all four
  of its data bytes, where JUCE sizes each stored message from its status byte.
- The `hostWindow = 0` of the constructor and of `deleteEditor` follow the Mac and Linux build
  (`JUCE_MAC || JUCE_LINUX`); the Windows build leaves the handle as it was.

## Findings

| source | as written | input that shows it | evidently intended | confidence | as-written member | corrected member |
|---|---|---|---|---|---|---|
| wrapper/formats/VST/juce_VstWrapper.cpp:584-594 | `process` copies `outputs[i]` aside for every i < numIn, but adds back only i < min(numIn, numOut) | numIn = 2, numOut = 1: the save reads `outputs[1]`, past the host's one-entry output array, and that copy is never used | save only the first min(numIn, numOut) outputs, the ones added back | medium, not executed | `VstWrapper.SaveAsWritten`, `VstWrapper.SaveAsWrittenReadsPastOutputs` | `VstWrapper.JuceVstWrapper.Process`, `Buffers.AddBackEffect` |
