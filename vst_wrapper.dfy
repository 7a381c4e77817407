/** The VST 2 adapter around the processor: lifecycle and the process-wide
    plug-in registry, resume/suspend, block processing over host buffers,
    MIDI in and out, the state chunk and its expiry, idle pumping with the
    shared recursion guard, and the editor opcodes of the dispatcher. */
module VstWrapper {
  import opened Common
  import opened Buffers
  import opened Midi
  import opened Kitty
  import opened VstTables

  /** Dispatcher opcodes the wrapper handles itself. */
  const effEditGetRect: int := 13
  const effEditOpen: int := 14
  const effEditClose: int := 15
  const effEditIdle: int := 19

  const kVstProcessLevelOffline: int := 4

  /** open() starts a timer of 1000 / 4 milliseconds. */
  const TimerIntervalMillis: int := 250

  /** A chunk handed to the host is freed by the timer once it is older than this. */
  const ChunkLifetimeMillis: int := 2000

  /** masterIdle is called at most once per this many milliseconds. */
  const MasterIdleIntervalMillis: int := 20

  /** Used by resume() when the host reports no positive sample rate. */
  const FallbackSampleRate: real := 44100.0

  /** resume() makes room for this many outgoing events when the plug-in produces MIDI. */
  const InitialOutgoingEvents: int := 64

  /** ensureOutgoingEventSize grows to the request plus this many slots. */
  const OutgoingEventHeadroom: int := 32

  /** The editor component: only its size is observable here. */
  datatype Editor = Editor(width: int, height: int)

  /** VST's ERect, in its field order. */
  datatype ERect = ERect(top: int, left: int, bottom: int, right: int)

  /** What a dispatcher call answers: a value, the editor rectangle (returned
      as a pointer in the ABI), or the base class's answer. */
  datatype DispatchResult = Returned(value: int) | EditorRect(rect: ERect) | PassedToBase

  function NullSlots(n: nat): (s: seq<Ptr>)
    ensures |s| == n && forall i :: 0 <= i < n ==> s[i] == NullPtr
  {
    seq(n, _ => NullPtr)
  }

  /** VoidArray::removeValue: drops the first occurrence of x, if any. */
  function RemoveFirst<T(==)>(s: seq<T>, x: T): (r: seq<T>)
    ensures x !in s ==> r == s
    ensures x in s ==> |r| == |s| - 1
  {
    if s == [] then []
    else if s[0] == x then s[1..]
    else [s[0]] + RemoveFirst(s[1..], x)
  }

  /** Removing an occurrence takes exactly one copy of x out of the registry. */
  lemma {:induction false} RemoveFirstTakesOne<T>(s: seq<T>, x: T)
    requires x in s
    ensures multiset(RemoveFirst(s, x)) == multiset(s) - multiset{x}
  {
    assert s == [s[0]] + s[1..];
    if s[0] != x {
      RemoveFirstTakesOne(s[1..], x);
    }
  }

  /** A plug-in created and then destroyed leaves the registry as it found it. */
  lemma {:induction false} RegistryRestored<T>(s: seq<T>, x: T)
    requires x !in s
    ensures RemoveFirst(s + [x], x) == s
  {
    if s != [] {
      assert (s + [x])[1..] == s[1..] + [x];
      RegistryRestored(s[1..], x);
    } else {
      assert s + [x] == [x];
    }
  }

  /** A reading of the 32-bit millisecond counter. */
  type Millis = x: int | 0 <= x < 0x1_0000_0000

  /** 32-bit unsigned arithmetic: the result taken modulo 2^32. */
  function Wrap32(x: int): (r: Millis)
    ensures 0 <= x < 0x1_0000_0000 ==> r == x
  {
    x % 0x1_0000_0000
  }

  /** The timer's test for freeing the chunk: stamped, older than the lifetime in
      wrapping 32-bit arithmetic, and not inside an idle call. Away from the
      counter's wrap-around, that is exactly "more than the lifetime has passed". */
  function ChunkExpired(chunkTime: Millis, now: Millis, recursionCheck: bool): (r: bool)
    ensures r ==> chunkTime > 0 && !recursionCheck
    ensures chunkTime > 0 && now >= ChunkLifetimeMillis ==>
      (r <==> now - chunkTime > ChunkLifetimeMillis && !recursionCheck)
  {
    chunkTime > 0 && chunkTime < Wrap32(now - ChunkLifetimeMillis) && !recursionCheck
  }

  /** Within the lifetime after the counter wraps, `now - 2000` wraps too: every
      chunk stamped below 2^32 - (2000 - now) is freed at once, however young. */
  lemma ChunkFreedEarlyAfterWrap(chunkTime: Millis, now: Millis)
    requires now < ChunkLifetimeMillis && 0 < chunkTime < TwoTo32 - (ChunkLifetimeMillis - now)
    ensures ChunkExpired(chunkTime, now, false)
  {
    assert Wrap32(now - ChunkLifetimeMillis) == TwoTo32 - (ChunkLifetimeMillis - now);
  }

  /** tryMasterIdle's interval test, in wrapping 32-bit arithmetic. Away from the
      wrap-around, it is due exactly when more than the interval has passed. */
  function MasterIdleDue(now: Millis, last: Millis): (r: bool)
    ensures last + MasterIdleIntervalMillis < TwoTo32 ==> (r <==> now - last > MasterIdleIntervalMillis)
  {
    now > Wrap32(last + MasterIdleIntervalMillis)
  }

  /** Once `last + 20` wraps past the top of the counter, every reading above the
      wrapped sum looks due, although less than the interval has passed. */
  lemma MasterIdleEagerNearWrap(now: Millis, last: Millis)
    requires last + MasterIdleIntervalMillis >= TwoTo32 && now > last + MasterIdleIntervalMillis - TwoTo32
    ensures MasterIdleDue(now, last)
  {
    assert Wrap32(last + MasterIdleIntervalMillis) == last + MasterIdleIntervalMillis - TwoTo32;
  }

  /** Once the counter wraps below the last call's time, the test fails until the
      counter climbs back past that time, however long that takes. */
  lemma MasterIdleStallsAfterWrap(now: Millis, last: Millis)
    requires last + MasterIdleIntervalMillis < TwoTo32 && now < last
    ensures !MasterIdleDue(now, last)
  {
  }

  /** process()'s save as written: output slot i is copied aside for every i below
      the INPUT count, from the host's outputs array, which has one entry per output.
      None when that reads past the end of the array. Where it is defined, it saves
      just the slots the corrected save (the one Process performs) saves. */
  function SaveAsWritten(m: Mem, outputs: seq<Ptr>, numIn: nat, n: nat): (r: Option<seq<seq<Sample>>>)
    requires AllHold(m, outputs, 0, Min(numIn, |outputs|), n)
    ensures r.None? <==> numIn > |outputs|
    ensures r.Some? ==> r.value == Saved(m, outputs, Min(numIn, |outputs|), n)
  {
    if numIn > |outputs| then None else Some(Saved(m, outputs, numIn, n))
  }

  /** The case behind the finding: a plug-in with two inputs and one output, given
      the host's one-entry output array, reads past it in the save as written. */
  lemma SaveAsWrittenReadsPastOutputs(m: Mem, output: Ptr, n: nat)
    requires Holds(m, output, n)
    ensures SaveAsWritten(m, [output], 2, n).None?
  {
  }

  /** The end of process(): the saved starts of the first min(numIn, numOut)
      outputs are added back onto the memory the block left. While suspended,
      distinct outputs end as they began. */
  method AccumulateSaved(m: Mem, rendered: Mem, ghost withScratch: Mem, saved: seq<seq<Sample>>, ghost temp: seq<Ptr>,
                         inputs: seq<Ptr>, outputs: seq<Ptr>, numIn: nat, numOut: nat, n: nat, suspended: bool)
    returns (r: Mem)
    requires numOut <= |temp| && numOut == |outputs| && numIn <= |inputs|
    requires AllHold(m, outputs, 0, numOut, n) && saved == Saved(m, outputs, Min(numIn, numOut), n)
    requires forall q :: q in m ==> q in withScratch && withScratch[q] == m[q]
    requires suspended ==> rendered == ZeroChannels(m, outputs, 0, numOut, n)
    requires !suspended ==>
      var chans := BlockChannels(temp, inputs, outputs, numIn, numOut);
      AllHold(withScratch, chans, 0, |chans|, n) && AllHold(withScratch, inputs, 0, numIn, n) &&
      rendered == RenderBlock(withScratch, chans, inputs, numIn, numOut, n)
    ensures var k := Min(numIn, numOut);
      AllHold(rendered, outputs, 0, k, n) && r == AddBack(rendered, outputs, saved, k, n)
    ensures suspended && Distinct(outputs, numOut) ==>
      forall i :: 0 <= i < Min(numIn, numOut) ==> r[outputs[i]] == m[outputs[i]]
  {
    BlockKeepsOutputs(m, rendered, withScratch, temp, inputs, outputs, numIn, numOut, n, suspended);
    r := AddSavedBack(rendered, outputs, saved, Min(numIn, numOut), n);
  }

  /** State shared by every plug-in instance in the process. */
  class Globals {
    var recursionCheck: bool
    var lastMasterIdleCall: Millis
    var activePlugins: seq<object>
    /** How often the GUI subsystem was shut down because the last instance went away. */
    var guiShutdowns: nat

    constructor ()
      ensures !recursionCheck && lastMasterIdleCall == 0 && activePlugins == [] && guiShutdowns == 0
    {
      recursionCheck := false;
      lastMasterIdleCall := 0;
      activePlugins := [];
      guiShutdowns := 0;
    }

    /** activePlugins.add in the constructor. */
    method Register(plugin: object)
      modifies this`activePlugins
      ensures activePlugins == old(activePlugins) + [plugin]
    {
      activePlugins := activePlugins + [plugin];
    }

    /** The destructor's removal from activePlugins, shutting the GUI down after the last instance. */
    method Unregister(plugin: object)
      modifies this`activePlugins, this`guiShutdowns
      ensures activePlugins == RemoveFirst(old(activePlugins), plugin)
      ensures guiShutdowns == old(guiShutdowns) + if activePlugins == [] then 1 else 0
    {
      activePlugins := RemoveFirst(activePlugins, plugin);
      if activePlugins == [] {
        guiShutdowns := guiShutdowns + 1;
      }
    }
  }

  class JuceVstWrapper {
    const globals: Globals
    const wantsMidiInput: bool
    const producesMidiOutput: bool
    const numInChans: nat
    const numOutChans: nat
    /** The processor the wrapper was built around; `filter` points to it until shutdown. */
    const processor: Processor

    var filter: Processor?
    var chunkMemory: seq<uint8>
    var chunkMemoryTime: Millis
    var editorComp: Option<Editor>
    var editorSize: ERect
    var hostWindow: int
    var midiEvents: seq<MidiMessage>
    var outgoingEvents: array?<VstMidiEvent>
    var outgoingEventSize: int
    var outgoingNumEvents: int
    var isProcessing: bool
    var hasShutdown: bool
    var firstProcessCallback: bool
    var channels: array?<Ptr>
    var tempChannels: seq<Ptr>
    var hasCreatedTempChannels: bool
    /** The output pointers the scratch scan looked at. */
    ghost var scannedOutputs: seq<Ptr>

    /** The host's sample rate and block size as the base class holds them. */
    var sampleRate: real
    var blockSize: nat

    /** Observable effects of calls into the host and the GUI. */
    var timerRunning: bool
    /** The period the running timer was started with, in milliseconds. */
    var timerInterval: int
    var sentToHost: seq<seq<VstMidiEvent>>
    var masterIdleCalls: nat
    var idleCallbacks: nat

    /** The processor is present exactly until shutdown and keeps the wrapper's channel counts. */
    ghost predicate FilterValid()
      reads this`filter, this`hasShutdown, this`editorComp, processor`numInputChannels, processor`numOutputChannels
    {
      (filter == null <==> hasShutdown) && (filter != null ==> filter == processor) &&
      processor.numInputChannels == numInChans && processor.numOutputChannels == numOutChans &&
      (editorComp.Some? ==> filter != null)
    }

    /** The outgoing event array holds `outgoingEventSize` MIDI-typed slots. */
    ghost predicate EventsValid()
      reads this`outgoingEvents, this`outgoingEventSize, this`outgoingNumEvents, this`hasShutdown, outgoingEvents
    {
      0 <= outgoingNumEvents <= outgoingEventSize &&
      (outgoingEvents == null ==> outgoingEventSize == 0 || hasShutdown) &&
      (outgoingEvents != null ==>
        outgoingEvents.Length == outgoingEventSize &&
        forall i :: 0 <= i < outgoingEvents.Length ==> IsMidiSlot(outgoingEvents[i]))
    }

    /** Scratch slots: one per channel once resumed, all empty until the scan,
        and after the scan laid out by the aliasing of the scanned outputs. */
    ghost predicate TempValid()
      reads this`hasShutdown, this`tempChannels, this`firstProcessCallback, this`isProcessing,
            this`hasCreatedTempChannels, this`scannedOutputs
    {
      (!hasShutdown ==>
        |tempChannels| == numInChans + numOutChans || (tempChannels == [] && firstProcessCallback && !isProcessing)) &&
      (!hasCreatedTempChannels ==> forall i :: 0 <= i < |tempChannels| ==> tempChannels[i] == NullPtr) &&
      (hasCreatedTempChannels ==>
        |tempChannels| == numInChans + numOutChans && |scannedOutputs| == numOutChans &&
        ScratchMatchesAliasing(tempChannels, scannedOutputs, numOutChans) &&
        forall i :: numOutChans <= i < |tempChannels| ==> tempChannels[i] == NullPtr)
    }

    /** While processing, the channel pointer array has a slot per channel. */
    ghost predicate ChannelsValid()
      reads this`isProcessing, this`hasShutdown, this`channels
    {
      isProcessing && !hasShutdown ==> channels != null && channels.Length == numInChans + numOutChans
    }

    ghost predicate Valid()
      reads this`filter, this`hasShutdown, this`editorComp, processor`numInputChannels, processor`numOutputChannels
      reads this`outgoingEvents, this`outgoingEventSize, this`outgoingNumEvents, outgoingEvents, this`midiEvents
      reads this`isProcessing, this`channels, this`tempChannels, this`firstProcessCallback,
            this`hasCreatedTempChannels, this`scannedOutputs
    {
      FilterValid() && EventsValid() && SortedByTime(midiEvents) && ChannelsValid() && TempValid()
    }

    /** The slots of the outgoing event array, none before it is first allocated. */
    ghost function SlotContents(): seq<VstMidiEvent>
      reads this, outgoingEvents
    {
      if outgoingEvents == null then [] else outgoingEvents[..]
    }

    constructor (globals: Globals, filter: Processor, wantsMidiInput: bool, producesMidiOutput: bool,
                 numInChans: nat, numOutChans: nat)
      modifies globals`activePlugins, filter`numInputChannels, filter`numOutputChannels,
               filter`playSampleRate, filter`playBlockSize
      ensures Valid()
      ensures this.globals == globals && this.filter == filter
      ensures this.wantsMidiInput == wantsMidiInput && this.producesMidiOutput == producesMidiOutput
      ensures this.numInChans == numInChans && this.numOutChans == numOutChans
      ensures !isProcessing && !hasShutdown && firstProcessCallback && channels == null
      ensures editorComp.None? && chunkMemoryTime == 0 && outgoingEvents == null && outgoingEventSize == 0
      ensures hostWindow == 0
      ensures filter.numInputChannels == numInChans && filter.numOutputChannels == numOutChans
      ensures filter.playSampleRate == 0.0 && filter.playBlockSize == 0 && filter.State() == old(filter.State())
      ensures globals.activePlugins == old(globals.activePlugins) + [this]
    {
      this.globals := globals;
      this.wantsMidiInput := wantsMidiInput;
      this.producesMidiOutput := producesMidiOutput;
      this.numInChans := numInChans;
      this.numOutChans := numOutChans;
      this.filter := filter;
      processor := filter;
      editorComp := None;
      outgoingEvents := null;
      outgoingEventSize := 0;
      outgoingNumEvents := 0;
      chunkMemory := [];
      chunkMemoryTime := 0;
      isProcessing := false;
      hasShutdown := false;
      firstProcessCallback := true;
      channels := null;
      hostWindow := 0;
      editorSize := ERect(0, 0, 0, 0);
      midiEvents := [];
      tempChannels := [];
      hasCreatedTempChannels := false;
      scannedOutputs := [];
      sampleRate := FallbackSampleRate;
      blockSize := 1024;
      timerRunning := false;
      sentToHost := [];
      masterIdleCalls := 0;
      idleCallbacks := 0;
      new;
      filter.SetPlayConfigDetails(numInChans, numOutChans, 0.0, 0);
      globals.Register(this);
    }

    method DeleteEditor()
      requires Valid()
      modifies this`editorComp, this`hostWindow, globals`recursionCheck, processor`editorsDeleted
      ensures Valid()
      ensures editorComp.None? && hostWindow == 0 && !globals.recursionCheck
      ensures processor.editorsDeleted == old(processor.editorsDeleted) + if old(editorComp).Some? then 1 else 0
    {
      globals.recursionCheck := true;
      if editorComp.Some? {
        filter.EditorBeingDeleted();
        editorComp := None;
      }
      hostWindow := 0;
      globals.recursionCheck := false;
    }

    method CreateEditorComp(created: Option<Editor>)
      requires Valid()
      modifies this`editorComp
      ensures Valid()
      ensures editorComp == if !hasShutdown && filter != null && old(editorComp).None? then created else old(editorComp)
    {
      if hasShutdown || filter == null {
        return;
      }
      if editorComp.None? {
        if created.Some? {
          editorComp := created;
        }
      }
    }

    /** The message-thread idle pump, guarded against re-entry; the timers and
        repaints it runs are not modelled, only that it ran. */
    method DoIdleCallback(isMessageThread: bool)
      modifies globals`recursionCheck, this`idleCallbacks
      ensures globals.recursionCheck == old(globals.recursionCheck)
      ensures idleCallbacks == old(idleCallbacks) + if isMessageThread && !old(globals.recursionCheck) then 1 else 0
    {
      if isMessageThread && !globals.recursionCheck {
        globals.recursionCheck := true;
        idleCallbacks := idleCallbacks + 1;
        globals.recursionCheck := false;
      }
    }

    method TryMasterIdle(mouseDown: bool, now: Millis)
      modifies globals`recursionCheck, globals`lastMasterIdleCall, this`masterIdleCalls
      ensures globals.recursionCheck == old(globals.recursionCheck)
      ensures var due := mouseDown && !old(globals.recursionCheck) &&
                         MasterIdleDue(now, old(globals.lastMasterIdleCall)) && editorComp.Some?;
        (due ==> globals.lastMasterIdleCall == now && masterIdleCalls == old(masterIdleCalls) + 1) &&
        (!due ==> globals.lastMasterIdleCall == old(globals.lastMasterIdleCall) && masterIdleCalls == old(masterIdleCalls))
    {
      if mouseDown && !globals.recursionCheck {
        if now > Wrap32(globals.lastMasterIdleCall + MasterIdleIntervalMillis) && editorComp.Some? {
          globals.lastMasterIdleCall := now;
          globals.recursionCheck := true;
          masterIdleCalls := masterIdleCalls + 1;
          globals.recursionCheck := false;
        }
      }
    }

    method TimerCallback(approxNow: Millis, mouseDown: bool, now: Millis)
      modifies this`chunkMemory, this`chunkMemoryTime, this`masterIdleCalls, globals`recursionCheck, globals`lastMasterIdleCall
      ensures ChunkExpired(old(chunkMemoryTime), approxNow, old(globals.recursionCheck)) ==>
        chunkMemory == [] && chunkMemoryTime == 0
      ensures !ChunkExpired(old(chunkMemoryTime), approxNow, old(globals.recursionCheck)) ==>
        chunkMemory == old(chunkMemory) && chunkMemoryTime == old(chunkMemoryTime)
      ensures globals.recursionCheck == old(globals.recursionCheck)
      ensures var due := mouseDown && !old(globals.recursionCheck) &&
                         MasterIdleDue(now, old(globals.lastMasterIdleCall)) && editorComp.Some?;
        (due ==> globals.lastMasterIdleCall == now && masterIdleCalls == old(masterIdleCalls) + 1) &&
        (!due ==> globals.lastMasterIdleCall == old(globals.lastMasterIdleCall) && masterIdleCalls == old(masterIdleCalls))
    {
      if chunkMemoryTime > 0 && chunkMemoryTime < Wrap32(approxNow - ChunkLifetimeMillis) && !globals.recursionCheck {
        chunkMemoryTime := 0;
        chunkMemory := [];
      }
      TryMasterIdle(mouseDown, now);
    }

    method Open()
      modifies this`timerRunning, this`timerInterval
      ensures timerRunning && timerInterval == TimerIntervalMillis
    {
      timerRunning := true;
      timerInterval := 1000 / 4;
    }

    method Close()
      requires Valid()
      modifies this`timerRunning, this`editorComp, this`hostWindow, globals`recursionCheck, processor`editorsDeleted
      ensures Valid()
      ensures !timerRunning && editorComp.None? && hostWindow == 0 && !globals.recursionCheck
      ensures processor.editorsDeleted == old(processor.editorsDeleted) + if old(editorComp).Some? then 1 else 0
    {
      timerRunning := false;
      DeleteEditor();
    }

    /** effEditOpen: any old editor is deleted and a new one created; when one was
        created it is attached to the host's window and the call answers 1. */
    method EditOpen(ptr: int, created: Option<Editor>) returns (r: DispatchResult)
      requires Valid() && !hasShutdown
      modifies this`editorComp, this`hostWindow, globals`recursionCheck, processor`editorsDeleted
      ensures Valid() && !globals.recursionCheck
      ensures editorComp == created
      ensures created.Some? ==> r == Returned(1) && hostWindow == ptr
      ensures created.None? ==> r == PassedToBase && hostWindow == 0
      ensures processor.editorsDeleted == old(processor.editorsDeleted) + if old(editorComp).Some? then 1 else 0
    {
      DeleteEditor();
      CreateEditorComp(created);
      if editorComp.Some? {
        hostWindow := ptr;
        return Returned(1);
      }
      return PassedToBase;
    }

    /** effEditGetRect: creates the editor if there is none yet and reports its
        bounds, or 0 when there is still no editor. */
    method EditGetRect(created: Option<Editor>) returns (r: DispatchResult)
      requires Valid() && !hasShutdown
      modifies this`editorComp, this`editorSize
      ensures Valid()
      ensures editorComp == if old(editorComp).Some? then old(editorComp) else created
      ensures editorComp.Some? ==>
        r == EditorRect(ERect(0, 0, editorComp.value.height, editorComp.value.width)) && editorSize == r.rect
      ensures editorComp.None? ==> r == Returned(0) && editorSize == old(editorSize)
    {
      CreateEditorComp(created);
      if editorComp.Some? {
        editorSize := ERect(0, 0, editorComp.value.height, editorComp.value.width);
        return EditorRect(editorSize);
      }
      return Returned(0);
    }

    /** The dispatcher's own opcodes; after shutdown every call answers 0 and
        changes nothing, and other opcodes go to the base class untouched. */
    method Dispatcher(opCode: int, ptr: int, isMessageThread: bool, created: Option<Editor>) returns (r: DispatchResult)
      requires Valid()
      modifies this`editorComp, this`hostWindow, this`editorSize, this`idleCallbacks, globals`recursionCheck, processor`editorsDeleted
      ensures Valid()
      ensures hasShutdown ==> r == Returned(0)
      ensures !hasShutdown && opCode !in {effEditIdle, effEditOpen, effEditClose, effEditGetRect} ==> r == PassedToBase
      ensures hasShutdown || opCode !in {effEditIdle, effEditOpen, effEditClose, effEditGetRect} ==>
        unchanged(this) && unchanged(globals) && unchanged(processor)
      ensures !hasShutdown && opCode == effEditIdle ==>
        r == Returned(0) && editorComp == old(editorComp) && hostWindow == old(hostWindow) &&
        editorSize == old(editorSize) && globals.recursionCheck == old(globals.recursionCheck) &&
        idleCallbacks == old(idleCallbacks) + (if isMessageThread && !old(globals.recursionCheck) then 1 else 0) &&
        processor.editorsDeleted == old(processor.editorsDeleted)
      ensures !hasShutdown && opCode == effEditOpen ==>
        editorComp == created &&
        (created.Some? ==> r == Returned(1) && hostWindow == ptr) &&
        (created.None? ==> r == PassedToBase && hostWindow == 0) &&
        editorSize == old(editorSize) && idleCallbacks == old(idleCallbacks) && !globals.recursionCheck &&
        processor.editorsDeleted == old(processor.editorsDeleted) + (if old(editorComp).Some? then 1 else 0)
      ensures !hasShutdown && opCode == effEditClose ==>
        r == Returned(0) && editorComp.None? && hostWindow == 0 &&
        editorSize == old(editorSize) && idleCallbacks == old(idleCallbacks) && !globals.recursionCheck &&
        processor.editorsDeleted == old(processor.editorsDeleted) + (if old(editorComp).Some? then 1 else 0)
      ensures !hasShutdown && opCode == effEditGetRect ==>
        editorComp == (if old(editorComp).Some? then old(editorComp) else created) &&
        (editorComp.Some? ==> r == EditorRect(ERect(0, 0, editorComp.value.height, editorComp.value.width)) &&
                              editorSize == r.rect) &&
        (editorComp.None? ==> r == Returned(0) && editorSize == old(editorSize)) &&
        hostWindow == old(hostWindow) && idleCallbacks == old(idleCallbacks) &&
        globals.recursionCheck == old(globals.recursionCheck) && processor.editorsDeleted == old(processor.editorsDeleted)
    {
      if hasShutdown {
        return Returned(0);
      }
      if opCode == effEditIdle {
        DoIdleCallback(isMessageThread);
        r := Returned(0);
      } else if opCode == effEditOpen {
        r := EditOpen(ptr, created);
      } else if opCode == effEditClose {
        DeleteEditor();
        r := Returned(0);
      } else if opCode == effEditGetRect {
        r := EditGetRect(created);
      } else {
        r := PassedToBase;
      }
    }

    method GetChunk(onlyStoreCurrentProgramData: bool, approxNow: Millis) returns (size: int, data: Option<seq<uint8>>)
      requires Valid()
      modifies this`chunkMemory, this`chunkMemoryTime
      ensures Valid()
      ensures filter == null ==>
        size == 0 && data.None? && chunkMemory == old(chunkMemory) && chunkMemoryTime == old(chunkMemoryTime)
      ensures filter != null ==>
        chunkMemory == StateInformation(filter.codec, filter.State()) &&
        data == Some(chunkMemory) && size == |chunkMemory| && chunkMemoryTime == approxNow
    {
      if filter == null {
        return 0, None;
      }
      chunkMemory := [];
      // The processor keeps no per-program state, so both requests store the whole state.
      chunkMemory := StateInformation(filter.codec, filter.State());
      data := Some(chunkMemory);
      chunkMemoryTime := approxNow;
      size := |chunkMemory|;
    }

    method SetChunk(data: Option<seq<uint8>>, byteSize: int, onlyRestoreCurrentProgramData: bool) returns (r: int)
      requires Valid()
      requires data.Some? && byteSize > 0 ==> byteSize <= |data.value|
      modifies this`chunkMemory, this`chunkMemoryTime, processor`bitDepth, processor`sampleRate, processor`changeMessages
      ensures Valid() && r == 0
      ensures filter == null ==> chunkMemory == old(chunkMemory) && chunkMemoryTime == old(chunkMemoryTime)
      ensures filter != null ==> chunkMemory == [] && chunkMemoryTime == 0
      ensures filter != null && data.Some? && byteSize > 0 ==>
        var restored := RestoredSettings(filter.codec, old(filter.State()), data.value[..byteSize]);
        (restored.Some? ==> filter.State() == restored.value && filter.changeMessages == old(filter.changeMessages) + 1) &&
        (restored.None? ==> filter.State() == old(filter.State()) && filter.changeMessages == old(filter.changeMessages))
      ensures filter != null && !(data.Some? && byteSize > 0) ==>
        filter.State() == old(filter.State()) && filter.changeMessages == old(filter.changeMessages)
    {
      if filter == null {
        return 0;
      }
      chunkMemory := [];
      chunkMemoryTime := 0;
      if byteSize > 0 && data.Some? {
        // The processor keeps no per-program state, so both requests restore the whole state.
        filter.SetStateInformation(data.value[..byteSize]);
      }
      return 0;
    }

    /** deleteTempChannels: frees the scratch buffers and leaves one empty slot per
        channel of the processor (none once it is gone); the scan must run again. */
    method DeleteTempChannels()
      modifies this`tempChannels, this`hasCreatedTempChannels
      ensures tempChannels == if filter == null then [] else NullSlots(filter.numInputChannels + filter.numOutputChannels)
      ensures !hasCreatedTempChannels
    {
      tempChannels := [];
      if filter != null {
        tempChannels := NullSlots(filter.numInputChannels + filter.numOutputChannels);
      }
      hasCreatedTempChannels := false;
    }

    /** The destructor: stops the timer, deletes the editor, drops the processor and
        every buffer, leaves the registry, and shuts the GUI down after the last instance. */
    method Destroy()
      requires Valid()
      modifies this`timerRunning, this`editorComp, this`hostWindow, this`hasShutdown, this`filter,
               this`outgoingEvents, this`channels, this`tempChannels, this`hasCreatedTempChannels,
               globals`recursionCheck, globals`activePlugins, globals`guiShutdowns, processor`editorsDeleted
      ensures Valid()
      ensures hasShutdown && filter == null && editorComp.None? && !timerRunning
      ensures hostWindow == 0 && !globals.recursionCheck
      ensures outgoingEvents == null && channels == null && tempChannels == [] && !hasCreatedTempChannels
      ensures processor.editorsDeleted == old(processor.editorsDeleted) + if old(editorComp).Some? then 1 else 0
      ensures globals.activePlugins == RemoveFirst(old(globals.activePlugins), this)
      ensures globals.guiShutdowns == old(globals.guiShutdowns) + if globals.activePlugins == [] then 1 else 0
    {
      timerRunning := false;
      DeleteEditor();
      ReleaseProcessor();
      globals.Unregister(this);
    }

    /** The destructor's middle part: marks the shutdown and drops the processor,
        the outgoing events, the channel pointers and the scratch buffers. */
    method ReleaseProcessor()
      requires Valid() && editorComp.None?
      modifies this`hasShutdown, this`filter, this`outgoingEvents, this`channels, this`tempChannels,
               this`hasCreatedTempChannels
      ensures Valid()
      ensures hasShutdown && filter == null
      ensures outgoingEvents == null && channels == null && tempChannels == [] && !hasCreatedTempChannels
    {
      hasShutdown := true;
      filter := null;
      outgoingEvents := null;
      channels := null;
      DeleteTempChannels();
    }

    /** ensureOutgoingEventSize: when fewer slots than requested exist, grows the
        array to the request plus headroom, keeping the old slots and adding blank
        MIDI slots. */
    method EnsureOutgoingEventSize(numEvents: int)
      requires EventsValid() && !hasShutdown
      modifies this`outgoingEvents, this`outgoingEventSize
      ensures EventsValid()
      ensures old(outgoingEventSize) >= numEvents ==>
        outgoingEvents == old(outgoingEvents) && outgoingEventSize == old(outgoingEventSize)
      ensures old(outgoingEventSize) < numEvents ==>
        fresh(outgoingEvents) && outgoingEventSize == numEvents + OutgoingEventHeadroom &&
        outgoingEvents[..old(outgoingEventSize)] == old(SlotContents()) &&
        forall i :: old(outgoingEventSize) <= i < outgoingEventSize ==> outgoingEvents[i] == BlankMidiEvent
    {
      if outgoingEventSize < numEvents {
        var size := numEvents + OutgoingEventHeadroom;
        var kept := if outgoingEvents == null then [] else outgoingEvents[..];
        assert |kept| == outgoingEventSize;
        // realloc keeps the existing slots; the new ones are set up below.
        var grown := new VstMidiEvent[size](i requires 0 <= i < size =>
          if i < |kept| then kept[i] else VstMidiEvent(0, 0, 0, [0, 0, 0, 0]));
        var i := outgoingEventSize;
        while i < size
          invariant |kept| == outgoingEventSize <= i <= size == grown.Length
          invariant grown[..outgoingEventSize] == kept
          invariant forall k :: outgoingEventSize <= k < i ==> grown[k] == BlankMidiEvent
        {
          grown[i] := BlankMidiEvent;
          i := i + 1;
        }
        outgoingEvents := grown;
        outgoingEventSize := size;
      }
    }

    /** resume: (re)starts processing with fresh channel pointers, the host's rate
        (44100 if it reports none) and block size, no scratch buffers and an empty
        MIDI queue. Does nothing once the processor is gone. */
    method Resume(processLevel: int)
      requires Valid()
      modifies this`isProcessing, this`channels, this`firstProcessCallback, this`tempChannels,
               this`hasCreatedTempChannels, this`midiEvents, this`outgoingEvents, this`outgoingEventSize,
               processor`nonRealtime, processor`numInputChannels, processor`numOutputChannels,
               processor`playSampleRate, processor`playBlockSize
      ensures Valid()
      ensures old(hasShutdown) ==> unchanged(this) && unchanged(processor)
      ensures !hasShutdown ==>
        isProcessing && firstProcessCallback && fresh(channels) &&
        channels[..] == NullSlots(numInChans + numOutChans) &&
        processor.nonRealtime == (processLevel == kVstProcessLevelOffline) &&
        processor.playSampleRate == (if sampleRate <= 0.0 then FallbackSampleRate else sampleRate) &&
        processor.playBlockSize == blockSize &&
        tempChannels == NullSlots(numInChans + numOutChans) && !hasCreatedTempChannels && midiEvents == []
      ensures !hasShutdown && producesMidiOutput ==> outgoingEventSize >= InitialOutgoingEvents
      ensures !(!hasShutdown && producesMidiOutput) ==>
        outgoingEvents == old(outgoingEvents) && outgoingEventSize == old(outgoingEventSize)
      ensures outgoingEvents == old(outgoingEvents) || fresh(outgoingEvents)
    {
      if filter == null {
        return;
      }
      StartProcessing(processLevel);
      midiEvents := [];
      if producesMidiOutput {
        EnsureOutgoingEventSize(InitialOutgoingEvents);
      }
    }

    /** resume's set-up of the processing state, up to and including deleteTempChannels. */
    method StartProcessing(processLevel: int)
      requires Valid() && !hasShutdown
      modifies this`isProcessing, this`channels, this`firstProcessCallback, this`tempChannels,
               this`hasCreatedTempChannels, processor`nonRealtime, processor`numInputChannels,
               processor`numOutputChannels, processor`playSampleRate, processor`playBlockSize
      ensures Valid()
      ensures isProcessing && firstProcessCallback && fresh(channels) &&
        channels[..] == NullSlots(numInChans + numOutChans) &&
        processor.nonRealtime == (processLevel == kVstProcessLevelOffline) &&
        processor.playSampleRate == (if sampleRate <= 0.0 then FallbackSampleRate else sampleRate) &&
        processor.playBlockSize == blockSize &&
        tempChannels == NullSlots(numInChans + numOutChans) && !hasCreatedTempChannels
    {
      AllocateChannels();
      var rate := sampleRate;
      if rate <= 0.0 {
        rate := FallbackSampleRate;
      }
      firstProcessCallback := true;
      ConfigureProcessor(processLevel == kVstProcessLevelOffline, rate);
      DeleteTempChannels();
    }

    /** Marks processing as started with a zeroed pointer slot per channel (calloc). */
    method AllocateChannels()
      modifies this`isProcessing, this`channels
      ensures isProcessing && fresh(channels) && channels[..] == NullSlots(numInChans + numOutChans)
    {
      isProcessing := true;
      channels := new Ptr[numInChans + numOutChans](_ => NullPtr);
    }

    /** Tells the processor whether it runs offline and the wrapper's channel counts, rate and block size. */
    method ConfigureProcessor(nonRealtime: bool, rate: real)
      requires FilterValid() && !hasShutdown
      modifies processor`nonRealtime, processor`numInputChannels, processor`numOutputChannels,
               processor`playSampleRate, processor`playBlockSize
      ensures FilterValid()
      ensures processor.nonRealtime == nonRealtime && processor.playSampleRate == rate &&
        processor.playBlockSize == blockSize
    {
      filter.SetNonRealtime(nonRealtime);
      filter.SetPlayConfigDetails(numInChans, numOutChans, rate, blockSize);
    }

    /** suspend: stops processing, dropping the MIDI queue, the channel pointers and
        the scratch buffers. Does nothing once the processor is gone. */
    method Suspend()
      requires Valid()
      modifies this`midiEvents, this`isProcessing, this`channels, this`tempChannels, this`hasCreatedTempChannels
      ensures Valid()
      ensures old(hasShutdown) ==> unchanged(this)
      ensures !hasShutdown ==>
        midiEvents == [] && !isProcessing && channels == null &&
        tempChannels == NullSlots(numInChans + numOutChans) && !hasCreatedTempChannels
    {
      if filter == null {
        return;
      }
      midiEvents := [];
      isProcessing := false;
      channels := null;
      DeleteTempChannels();
    }

    /** processEvents: queues every non-null MIDI-typed event of the host's list, in
        list order, when the plug-in takes MIDI input, and answers whether it does. */
    method ProcessEvents(events: seq<Option<VstMidiEvent>>) returns (r: int)
      requires Valid()
      modifies this`midiEvents
      ensures Valid()
      ensures wantsMidiInput ==> r == 1 && midiEvents == Incoming(old(midiEvents), events)
      ensures !wantsMidiInput ==> r == 0 && midiEvents == old(midiEvents)
    {
      if !wantsMidiInput {
        return 0;
      }
      var q := QueueIncoming(midiEvents, events);
      IncomingKeepsOrder(midiEvents, events);
      midiEvents := q;
      return 1;
    }

    /** Copies the messages of q that fit a VstMidiEvent into the outgoing slots,
        in queue order, counting them in outgoingNumEvents. */
    method FillOutgoingEvents(q: seq<MidiMessage>)
      requires outgoingEvents != null && |q| <= outgoingEvents.Length
      modifies this`outgoingNumEvents, outgoingEvents
      ensures outgoingNumEvents == |Representable(q)|
      ensures FilledFrom(outgoingEvents[..], old(outgoingEvents[..]), Representable(q))
    {
      outgoingNumEvents := 0;
      var i := 0;
      while i < |q|
        invariant 0 <= i <= |q|
        invariant outgoingNumEvents == |Representable(q[..i])|
        invariant FilledFrom(outgoingEvents[..], old(outgoingEvents[..]), Representable(q[..i]))
      {
        assert q[..i + 1][..i] == q[..i];
        if |q[i].data| <= 4 {
          outgoingEvents[outgoingNumEvents] := Fill(outgoingEvents[outgoingNumEvents], q[i]);
          outgoingNumEvents := outgoingNumEvents + 1;
        }
        i := i + 1;
      }
      assert q[..i] == q;
    }

    /** The end of processReplacing: a non-empty queue is copied, message by message
        and skipping those longer than four bytes, into the outgoing slots, sent to
        the host when the plug-in produces MIDI, and cleared. */
    method SendOutgoingMidi()
      requires Valid() && !hasShutdown
      modifies this`outgoingEvents, this`outgoingEventSize, this`outgoingNumEvents, this`sentToHost,
               this`midiEvents, outgoingEvents
      ensures Valid() && midiEvents == []
      ensures producesMidiOutput && old(midiEvents) != [] ==>
        outgoingEventSize >= |old(midiEvents)| && outgoingNumEvents == |Representable(old(midiEvents))| &&
        |sentToHost| == |old(sentToHost)| + 1 && sentToHost[..|old(sentToHost)|] == old(sentToHost) &&
        CarriesMessages(sentToHost[|sentToHost| - 1], Representable(old(midiEvents)))
      ensures !(producesMidiOutput && old(midiEvents) != []) ==>
        sentToHost == old(sentToHost) && outgoingNumEvents == old(outgoingNumEvents)
    {
      if midiEvents == [] {
        return;
      }
      if producesMidiOutput {
        EmitOutgoingEvents(midiEvents);
      }
      midiEvents := [];
    }

    /** Makes room for q, fills the slots from it and hands the filled slots to the host. */
    method EmitOutgoingEvents(q: seq<MidiMessage>)
      requires EventsValid() && !hasShutdown && q != []
      modifies this`outgoingEvents, this`outgoingEventSize, this`outgoingNumEvents, this`sentToHost, outgoingEvents
      ensures EventsValid()
      ensures outgoingEventSize >= |q| && outgoingNumEvents == |Representable(q)|
      ensures |sentToHost| == |old(sentToHost)| + 1 && sentToHost[..|old(sentToHost)|] == old(sentToHost)
      ensures CarriesMessages(sentToHost[|sentToHost| - 1], Representable(q))
    {
      EnsureOutgoingEventSize(|q|);
      ghost var slots0 := outgoingEvents[..];
      FillOutgoingEvents(q);
      FilledSlotsCarryMessages(outgoingEvents[..], slots0, Representable(q));
      var batch := outgoingEvents[..outgoingNumEvents];
      sentToHost := sentToHost + [batch];
    }

    /** The first unsuspended block's scan: output slot i gets a fresh scratch buffer
        of twice the block size when an earlier slot holds the same non-null pointer. */
    method CreateTempChannels(outputs: seq<Ptr>, mem: Memory) returns (r: Memory)
      requires mem.Valid() && |outputs| == numOutChans && |tempChannels| == numInChans + numOutChans
      requires forall i :: 0 <= i < |tempChannels| ==> tempChannels[i] == NullPtr
      modifies this`tempChannels, this`hasCreatedTempChannels, this`scannedOutputs
      ensures r.Valid() && hasCreatedTempChannels && scannedOutputs == outputs
      ensures |tempChannels| == numInChans + numOutChans
      ensures ScratchMatchesAliasing(tempChannels, outputs, numOutChans)
      ensures forall i :: numOutChans <= i < |tempChannels| ==> tempChannels[i] == NullPtr
      ensures forall i :: 0 <= i < |tempChannels| && tempChannels[i] != NullPtr ==>
        Holds(r.blocks, tempChannels[i], 2 * blockSize)
      ensures forall q :: q in mem.blocks ==> q in r.blocks && r.blocks[q] == mem.blocks[q]
    {
      hasCreatedTempChannels := true;
      scannedOutputs := outputs;
      r := mem;
      var i := 0;
      while i < numOutChans
        modifies this`tempChannels
        invariant 0 <= i <= numOutChans && |tempChannels| == numInChans + numOutChans
        invariant r.Valid()
        invariant forall k :: 0 <= k < i ==> (tempChannels[k] != NullPtr <==> HasEarlierTwin(outputs, k))
        invariant forall k :: i <= k < |tempChannels| ==> tempChannels[k] == NullPtr
        invariant forall k :: 0 <= k < i && tempChannels[k] != NullPtr ==>
          IsScratch(tempChannels[k]) && Holds(r.blocks, tempChannels[k], 2 * blockSize)
        invariant forall k, l :: 0 <= k < l < i && tempChannels[k] != NullPtr ==> tempChannels[k] != tempChannels[l]
        invariant forall q :: q in mem.blocks ==> q in r.blocks && r.blocks[q] == mem.blocks[q]
      {
        ghost var temp0 := tempChannels;
        ghost var r0 := r;
        var j := i;
        while j > 0
          modifies this`tempChannels
          invariant 0 <= j <= i
          invariant forall k :: j <= k < i ==> !(outputs[k] == outputs[i] && outputs[i] != NullPtr)
          invariant tempChannels == temp0 && r == r0
        {
          j := j - 1;
          if outputs[j] == outputs[i] && outputs[i] != NullPtr {
            var p;
            p, r := Alloc(r, 2 * blockSize);
            tempChannels := tempChannels[i := p];
            break;
          }
        }
        i := i + 1;
      }
    }

    /** The channel list for one block: each output slot's buffer (its scratch buffer
        or the host's output), receiving the slot's input unless it is that very
        buffer, then the remaining inputs as they are. */
    method BuildChannels(inputs: seq<Ptr>, outputs: seq<Ptr>, n: nat, m: Mem) returns (r: Mem)
      requires channels != null && channels.Length == numInChans + numOutChans
      requires |inputs| == numInChans && |outputs| == numOutChans && numOutChans <= |tempChannels|
      requires forall i :: 0 <= i < numOutChans ==> Holds(m, ChannelFor(tempChannels, outputs, i), n)
      requires AllHold(m, inputs, 0, numInChans, n)
      modifies channels
      ensures var chans := BlockChannels(tempChannels, inputs, outputs, numInChans, numOutChans);
        channels[..|chans|] == chans &&
        r == CopyInputs(m, chans, inputs, Min(numInChans, numOutChans), n)
    {
      ghost var chans := BlockChannels(tempChannels, inputs, outputs, numInChans, numOutChans);
      PointChannels(channels, tempChannels, inputs, outputs, numInChans, numOutChans);
      r := CopyIntoChannels(tempChannels, inputs, outputs, Min(numInChans, numOutChans), n, m, chans);
    }

    /** The unsuspended part of processReplacing: the scratch scan on the first block,
        the channel build, and the processor's block callback. `withScratch` is the
        memory once the scan's scratch buffers exist. */
    method RenderUnsuspended(inputs: seq<Ptr>, outputs: seq<Ptr>, n: nat, mem: Memory)
      returns (r: Memory, ghost withScratch: Mem)
      requires Valid() && !hasShutdown && isProcessing && mem.Valid()
      requires |inputs| == numInChans && |outputs| == numOutChans
      requires AllHold(mem.blocks, inputs, 0, numInChans, n) && AllHold(mem.blocks, outputs, 0, numOutChans, n)
      requires SomeOutputAliased(outputs, numOutChans) ==> n <= 2 * blockSize
      requires forall i :: 0 <= i < |tempChannels| && tempChannels[i] != NullPtr ==> Holds(mem.blocks, tempChannels[i], n)
      modifies this`tempChannels, this`hasCreatedTempChannels, this`scannedOutputs, channels
      ensures Valid() && r.Valid() && hasCreatedTempChannels
      ensures scannedOutputs == if old(hasCreatedTempChannels) then old(scannedOutputs) else outputs
      ensures forall q :: q in mem.blocks ==> q in withScratch && withScratch[q] == mem.blocks[q]
      ensures var chans := BlockChannels(tempChannels, inputs, outputs, numInChans, numOutChans);
        channels[..|chans|] == chans &&
        AllHold(withScratch, chans, 0, |chans|, n) && AllHold(withScratch, inputs, 0, numInChans, n) &&
        r.blocks == RenderBlock(withScratch, chans, inputs, numInChans, numOutChans, n)
    {
      var cur := PrepareScratch(inputs, outputs, n, mem);
      withScratch := cur.blocks;
      var rendered := RenderChannels(inputs, outputs, n, cur.blocks);
      r := cur.(blocks := rendered);
    }

    /** The scratch scan, run on the first unsuspended block only. Afterwards every
        channel of the block and every input holds the block's samples. */
    method PrepareScratch(inputs: seq<Ptr>, outputs: seq<Ptr>, n: nat, mem: Memory) returns (r: Memory)
      requires Valid() && !hasShutdown && isProcessing && mem.Valid()
      requires |inputs| == numInChans && |outputs| == numOutChans
      requires AllHold(mem.blocks, inputs, 0, numInChans, n) && AllHold(mem.blocks, outputs, 0, numOutChans, n)
      requires SomeOutputAliased(outputs, numOutChans) ==> n <= 2 * blockSize
      requires forall i :: 0 <= i < |tempChannels| && tempChannels[i] != NullPtr ==> Holds(mem.blocks, tempChannels[i], n)
      modifies this`tempChannels, this`hasCreatedTempChannels, this`scannedOutputs
      ensures Valid() && r.Valid() && hasCreatedTempChannels
      ensures scannedOutputs == if old(hasCreatedTempChannels) then old(scannedOutputs) else outputs
      ensures forall q :: q in mem.blocks ==> q in r.blocks && r.blocks[q] == mem.blocks[q]
      ensures AllHold(r.blocks, BlockChannels(tempChannels, inputs, outputs, numInChans, numOutChans), 0,
                      Max(numInChans, numOutChans), n)
      ensures AllHold(r.blocks, inputs, 0, numInChans, n)
    {
      r := mem;
      if !hasCreatedTempChannels {
        r := CreateTempChannels(outputs, mem);
      }
    }

    /** The channel build and the processor's block callback on memory m. */
    method RenderChannels(inputs: seq<Ptr>, outputs: seq<Ptr>, n: nat, m: Mem) returns (r: Mem)
      requires FilterValid() && ChannelsValid() && !hasShutdown && isProcessing
      requires |inputs| == numInChans && |outputs| == numOutChans && numOutChans <= |tempChannels|
      requires AllHold(m, BlockChannels(tempChannels, inputs, outputs, numInChans, numOutChans), 0,
                       Max(numInChans, numOutChans), n)
      requires AllHold(m, inputs, 0, numInChans, n)
      modifies channels
      ensures var chans := BlockChannels(tempChannels, inputs, outputs, numInChans, numOutChans);
        channels[..|chans|] == chans && r == RenderBlock(m, chans, inputs, numInChans, numOutChans, n)
    {
      ghost var chans := BlockChannels(tempChannels, inputs, outputs, numInChans, numOutChans);
      var copied := BuildChannels(inputs, outputs, n, m);
      CopyInputsKeepsLengths(m, chans, inputs, Min(numInChans, numOutChans), n);
      r := filter.ProcessBlock(channels[..Max(numInChans, numOutChans)], n, copied);
    }

    /** The start of processReplacing: on the first callback since resume (or ever),
        a host that has not called resume gets one, and the processor learns whether
        the host renders offline. The flag is cleared, except that resume sets it
        again, so after a late resume the next block runs this step once more. */
    method BeginBlock(processLevel: int)
      requires Valid() && !hasShutdown
      modifies this`isProcessing, this`channels, this`firstProcessCallback, this`tempChannels,
               this`hasCreatedTempChannels, this`midiEvents, this`outgoingEvents, this`outgoingEventSize,
               processor`nonRealtime, processor`numInputChannels, processor`numOutputChannels,
               processor`playSampleRate, processor`playBlockSize
      ensures Valid() && !hasShutdown
      ensures channels == old(channels) || fresh(channels)
      ensures outgoingEvents == old(outgoingEvents) || fresh(outgoingEvents)
      ensures !old(firstProcessCallback) ==> unchanged(this) && unchanged(processor)
      ensures old(firstProcessCallback) ==> isProcessing && processor.nonRealtime == (processLevel == kVstProcessLevelOffline)
      ensures midiEvents == if old(firstProcessCallback) && !old(isProcessing) then [] else old(midiEvents)
      ensures old(firstProcessCallback) && old(isProcessing) ==>
        !firstProcessCallback && channels == old(channels) && tempChannels == old(tempChannels) &&
        hasCreatedTempChannels == old(hasCreatedTempChannels)
      ensures old(firstProcessCallback) && !old(isProcessing) ==>
        firstProcessCallback && tempChannels == NullSlots(numInChans + numOutChans) && !hasCreatedTempChannels
      ensures FirstCallbackEffects(old(firstProcessCallback), old(isProcessing), old(channels), processLevel,
                                   old(processor.nonRealtime), old(processor.playSampleRate), old(processor.playBlockSize))
      ensures old(firstProcessCallback) && !old(isProcessing) ==> fresh(channels)
    {
      if firstProcessCallback {
        // The source clears the flag before calling resume, which sets it again.
        if !isProcessing {
          Resume(processLevel);
        } else {
          firstProcessCallback := false;
        }
        filter.SetNonRealtime(processLevel == kVstProcessLevelOffline);
      }
    }

    /** What the first-callback step leaves, given the state before it: the flag stays
        set only after a late resume; on the first callback the processor learns
        whether the host renders offline, and a late resume also gives fresh channel
        pointers (checked with `fresh` by the callers) and the resumed play
        configuration; otherwise the channel array and the play configuration stay. */
    ghost predicate FirstCallbackEffects(wasFirst: bool, wasProcessing: bool, oldChannels: array?<Ptr>, processLevel: int,
                                         oldNonRealtime: bool, oldRate: real, oldBlockSize: int)
      reads this, processor
    {
      firstProcessCallback == (wasFirst && !wasProcessing) &&
      processor.nonRealtime == (if wasFirst then processLevel == kVstProcessLevelOffline else oldNonRealtime) &&
      (wasFirst && !wasProcessing ==>
        processor.playSampleRate == (if sampleRate <= 0.0 then FallbackSampleRate else sampleRate) &&
        processor.playBlockSize == blockSize) &&
      (!(wasFirst && !wasProcessing) ==>
        channels == oldChannels && processor.playSampleRate == oldRate && processor.playBlockSize == oldBlockSize)
    }

    /** processReplacing: after the first-callback step, a suspended processor gets
        its outputs cleared; otherwise the block is rendered through the channel list
        (scratch buffers for aliased outputs, inputs copied in, the processor's
        callback). Then any queued MIDI goes to the host and the queue is emptied. */
    method ProcessReplacing(inputs: seq<Ptr>, outputs: seq<Ptr>, n: nat, processLevel: int, mem: Memory)
      returns (r: Memory, ghost withScratch: Mem)
      requires Valid() && !hasShutdown && (isProcessing || firstProcessCallback) && mem.Valid()
      requires |inputs| == numInChans && |outputs| == numOutChans
      requires AllHold(mem.blocks, inputs, 0, numInChans, n) && AllHold(mem.blocks, outputs, 0, numOutChans, n)
      requires SomeOutputAliased(outputs, numOutChans) ==> n <= 2 * blockSize
      requires forall i :: 0 <= i < |tempChannels| && tempChannels[i] != NullPtr ==> Holds(mem.blocks, tempChannels[i], n)
      modifies this`isProcessing, this`channels, this`firstProcessCallback, this`tempChannels,
               this`hasCreatedTempChannels, this`midiEvents, this`outgoingEvents, this`outgoingEventSize,
               processor`nonRealtime, processor`numInputChannels, processor`numOutputChannels,
               processor`playSampleRate, processor`playBlockSize,
               this`scannedOutputs, this`outgoingNumEvents, this`sentToHost, channels, outgoingEvents
      ensures Valid() && r.Valid() && isProcessing && midiEvents == []
      ensures FirstCallbackEffects(old(firstProcessCallback), old(isProcessing), old(channels), processLevel,
                                   old(processor.nonRealtime), old(processor.playSampleRate), old(processor.playBlockSize))
      ensures old(firstProcessCallback) && !old(isProcessing) ==> fresh(channels)
      ensures forall q :: q in mem.blocks ==> q in withScratch && withScratch[q] == mem.blocks[q]
      ensures processor.suspended ==>
        withScratch == mem.blocks && r == mem.(blocks := ZeroChannels(mem.blocks, outputs, 0, numOutChans, n))
      ensures !processor.suspended ==>
        var chans := BlockChannels(tempChannels, inputs, outputs, numInChans, numOutChans);
        hasCreatedTempChannels && channels[..|chans|] == chans &&
        AllHold(withScratch, chans, 0, |chans|, n) && AllHold(withScratch, inputs, 0, numInChans, n) &&
        r.blocks == RenderBlock(withScratch, chans, inputs, numInChans, numOutChans, n)
      ensures var queue := if old(firstProcessCallback) && !old(isProcessing) then [] else old(midiEvents);
        (producesMidiOutput && queue != [] ==>
          |sentToHost| == |old(sentToHost)| + 1 && sentToHost[..|old(sentToHost)|] == old(sentToHost) &&
          CarriesMessages(sentToHost[|sentToHost| - 1], Representable(queue))) &&
        (!(producesMidiOutput && queue != []) ==> sentToHost == old(sentToHost))
    {
      BeginBlock(processLevel);
      r, withScratch := RenderAudio(inputs, outputs, n, mem);
      SendOutgoingMidi();
    }

    /** processReplacing's audio part: cleared outputs while the processor is
        suspended, the rendered block otherwise. */
    method RenderAudio(inputs: seq<Ptr>, outputs: seq<Ptr>, n: nat, mem: Memory)
      returns (r: Memory, ghost withScratch: Mem)
      requires Valid() && !hasShutdown && isProcessing && mem.Valid()
      requires |inputs| == numInChans && |outputs| == numOutChans
      requires AllHold(mem.blocks, inputs, 0, numInChans, n) && AllHold(mem.blocks, outputs, 0, numOutChans, n)
      requires SomeOutputAliased(outputs, numOutChans) ==> n <= 2 * blockSize
      requires forall i :: 0 <= i < |tempChannels| && tempChannels[i] != NullPtr ==> Holds(mem.blocks, tempChannels[i], n)
      modifies this`tempChannels, this`hasCreatedTempChannels, this`scannedOutputs, channels
      ensures Valid() && r.Valid()
      ensures forall q :: q in mem.blocks ==> q in withScratch && withScratch[q] == mem.blocks[q]
      ensures processor.suspended ==>
        withScratch == mem.blocks && r == mem.(blocks := ZeroChannels(mem.blocks, outputs, 0, numOutChans, n))
      ensures !processor.suspended ==>
        var chans := BlockChannels(tempChannels, inputs, outputs, numInChans, numOutChans);
        hasCreatedTempChannels && channels[..|chans|] == chans &&
        AllHold(withScratch, chans, 0, |chans|, n) && AllHold(withScratch, inputs, 0, numInChans, n) &&
        r.blocks == RenderBlock(withScratch, chans, inputs, numInChans, numOutChans, n)
    {
      if filter.suspended {
        var silenced := ZeroRange(mem.blocks, outputs, 0, numOutChans, n);
        r := mem.(blocks := silenced);
        withScratch := mem.blocks;
      } else {
        r, withScratch := RenderUnsuspended(inputs, outputs, n, mem);
      }
    }

    /** process, the accumulating call: the first min(numIn, numOut) outputs are
        saved, the block is rendered as by processReplacing, and the saved samples
        are added back onto those outputs, last slot first. `rendered` is the
        memory processReplacing leaves. */
    method Process(inputs: seq<Ptr>, outputs: seq<Ptr>, n: nat, processLevel: int, mem: Memory)
      returns (r: Memory, ghost rendered: Memory, ghost withScratch: Mem)
      requires Valid() && !hasShutdown && (isProcessing || firstProcessCallback) && mem.Valid()
      requires |inputs| == numInChans && |outputs| == numOutChans
      requires AllHold(mem.blocks, inputs, 0, numInChans, n) && AllHold(mem.blocks, outputs, 0, numOutChans, n)
      requires SomeOutputAliased(outputs, numOutChans) ==> n <= 2 * blockSize
      requires forall i :: 0 <= i < |tempChannels| && tempChannels[i] != NullPtr ==> Holds(mem.blocks, tempChannels[i], n)
      modifies this`isProcessing, this`channels, this`firstProcessCallback, this`tempChannels,
               this`hasCreatedTempChannels, this`midiEvents, this`outgoingEvents, this`outgoingEventSize,
               processor`nonRealtime, processor`numInputChannels, processor`numOutputChannels,
               processor`playSampleRate, processor`playBlockSize,
               this`scannedOutputs, this`outgoingNumEvents, this`sentToHost, channels, outgoingEvents
      ensures Valid() && r.Valid() && rendered.Valid() && isProcessing && midiEvents == []
      ensures FirstCallbackEffects(old(firstProcessCallback), old(isProcessing), old(channels), processLevel,
                                   old(processor.nonRealtime), old(processor.playSampleRate), old(processor.playBlockSize))
      ensures old(firstProcessCallback) && !old(isProcessing) ==> fresh(channels)
      ensures processor.suspended ==> rendered.blocks == ZeroChannels(mem.blocks, outputs, 0, numOutChans, n)
      ensures !processor.suspended ==>
        var chans := BlockChannels(tempChannels, inputs, outputs, numInChans, numOutChans);
        (forall q :: q in mem.blocks ==> q in withScratch && withScratch[q] == mem.blocks[q]) &&
        AllHold(withScratch, chans, 0, |chans|, n) && AllHold(withScratch, inputs, 0, numInChans, n) &&
        rendered.blocks == RenderBlock(withScratch, chans, inputs, numInChans, numOutChans, n)
      ensures var k := Min(numInChans, numOutChans);
        AllHold(rendered.blocks, outputs, 0, k, n) && r.nextScratch == rendered.nextScratch &&
        r.blocks == AddBack(rendered.blocks, outputs, Saved(mem.blocks, outputs, k, n), k, n)
      ensures processor.suspended && Distinct(outputs, numOutChans) ==>
        forall i :: 0 <= i < Min(numInChans, numOutChans) ==> r.blocks[outputs[i]] == mem.blocks[outputs[i]]
    {
      var k := Min(numInChans, numOutChans);
      var saved := SaveStarts(mem.blocks, outputs, k, n);
      var after;
      after, withScratch := ProcessReplacing(inputs, outputs, n, processLevel, mem);
      rendered := after;
      var added := AccumulateSaved(mem.blocks, after.blocks, withScratch, saved, tempChannels, inputs, outputs,
                                   numInChans, numOutChans, n, processor.suspended);
      r := after.(blocks := added);
    }

    /** The processor's program and parameter calls, guarded against a missing processor. */
    function GetProgram(): (p: int)
      reads this
      ensures p == 0
    {
      if filter != null then CurrentProgram() else 0
    }

    method SetProgram(program: int)
      ensures GetProgram() == 0
    {
      if filter != null {
        filter.SetCurrentProgram(program);
      }
    }

    function GetProgramNameIndexed(index: int): Option<string>
      requires IsInt32(index)
      reads this
    {
      if filter != null && ProgramIndexInRange(index, NumPrograms()) then Some(CopyToBuffer(ProgramName(index), 24))
      else None
    }

    /** The processor declares no programs, so every indexed program-name lookup,
        negative indices included, is out of range. */
    lemma ProgramNameLookupsFail(index: int)
      requires IsInt32(index)
      ensures GetProgramNameIndexed(index).None?
    {
      ProgramIndexCheckIsRange(index, NumPrograms());
    }

    function GetParameter(index: int): (r: real)
      reads this, filter
      ensures filter == null || (index != kBitDepth && index != kSampleRate) ==> r == 0.0
      ensures filter != null && index == kBitDepth ==> r == filter.bitDepth as real / 32.0
      ensures filter != null && index == kSampleRate ==> r == filter.sampleRate
    {
      if filter == null then 0.0 else ParameterValue(filter.State(), index)
    }

    method SetParameter(index: int, value: real)
      requires Valid()
      modifies processor`bitDepth, processor`sampleRate, processor`changeMessages
      ensures Valid()
      ensures filter != null ==>
        var o := AfterSetParameter(old(filter.State()), index, value);
        filter.State() == o.settings && filter.changeMessages == old(filter.changeMessages) + if o.changeMessage then 1 else 0
    {
      if filter != null {
        filter.SetParameter(index, value);
      }
    }

    /** None when the host's buffer is left untouched. */
    function GetParameterName(index: int): (r: Option<string>)
      reads this
      ensures r.Some? <==> filter != null
      ensures r.Some? ==> r.value == ParameterName(index) && |r.value| <= 16
    {
      if filter == null then None else Some(CopyToBuffer(ParameterName(index), 16))
    }

    function GetInputProperties(index: int): (r: Option<PinProperties>)
      reads this, filter
      ensures r.Some? <==> filter != null && index < filter.numInputChannels
      ensures r.Some? ==>
        var name := ChannelName(index);
        r.value.fullLabel <= name && |r.value.fullLabel| == Min(|name|, kVstMaxLabelLen - 1) &&
        r.value.shortLabel <= name && |r.value.shortLabel| == Min(|name|, kVstMaxShortLabelLen - 1) &&
        r.value.flags == kVstPinIsActive && r.value.arrangementType == 0
    {
      if filter == null then None
      else
        PinForReports(filter.numInputChannels, index, ChannelName(index), IsChannelStereoPair(index));
        PinFor(filter.numInputChannels, index, ChannelName(index), IsChannelStereoPair(index))
    }

    function GetOutputProperties(index: int): (r: Option<PinProperties>)
      reads this, filter
      ensures r.Some? <==> filter != null && index < filter.numOutputChannels
      ensures r.Some? ==>
        var name := ChannelName(index);
        r.value.fullLabel <= name && |r.value.fullLabel| == Min(|name|, kVstMaxLabelLen - 1) &&
        r.value.shortLabel <= name && |r.value.shortLabel| == Min(|name|, kVstMaxShortLabelLen - 1) &&
        r.value.flags == kVstPinIsActive && r.value.arrangementType == 0
    {
      if filter == null then None
      else
        PinForReports(filter.numOutputChannels, index, ChannelName(index), IsChannelStereoPair(index));
        PinFor(filter.numOutputChannels, index, ChannelName(index), IsChannelStereoPair(index))
    }

    /** The plug-in claims each MIDI direction exactly when it was built with it. */
    function CanDoQuery(text: string): (r: int)
      ensures text in ReceiveQueries ==> (r == 1 <==> wantsMidiInput)
      ensures text in SendQueries ==> (r == 1 <==> producesMidiOutput)
    {
      CanDoAnswers(text, wantsMidiInput, producesMidiOutput);
      CanDo(text, wantsMidiInput, producesMidiOutput)
    }
  }
}
