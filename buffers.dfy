/** Sample memory shared by the host and the wrapper, and the effect of the
    copies and clears that the block-processing path performs on it.

    Memory is a map from pointer ids to sample buffers. The host owns the
    buffers it passes in; the wrapper allocates its own scratch buffers when
    the host hands it aliased output pointers. Pointers identify whole
    buffers: partial overlap of two buffers is not modelled. Memory is passed
    as a value: an operation that writes samples takes the memory and returns
    the memory after its writes. */
module Buffers {
  import opened Common

  type Mem = map<Ptr, seq<Sample>>

  /** p points at a live buffer holding at least n samples. */
  predicate Holds(m: Mem, p: Ptr, n: nat) {
    p in m && n <= |m[p]|
  }

  function Zeros(n: nat): (z: seq<Sample>)
    ensures |z| == n && forall k :: 0 <= k < n ==> z[k] == 0
  {
    if n == 0 then [] else Zeros(n - 1) + [0]
  }

  /** memcpy (dst, src, n): the first n samples of dst become those of src. */
  function Copied(m: Mem, dst: Ptr, src: Ptr, n: nat): (r: Mem)
    requires Holds(m, dst, n) && Holds(m, src, n)
    ensures r.Keys == m.Keys
    ensures |r[dst]| == |m[dst]| && r[dst][..n] == m[src][..n] && r[dst][n..] == m[dst][n..]
    ensures forall q :: q in m && q != dst ==> r[q] == m[q]
  {
    m[dst := m[src][..n] + m[dst][n..]]
  }

  /** zeromem (p, n): the first n samples of p become silence. */
  function Zeroed(m: Mem, p: Ptr, n: nat): (r: Mem)
    requires Holds(m, p, n)
    ensures r.Keys == m.Keys
    ensures |r[p]| == |m[p]| && r[p][..n] == Zeros(n) && r[p][n..] == m[p][n..]
    ensures forall q :: q in m && q != p ==> r[q] == m[q]
  {
    m[p := Zeros(n) + m[p][n..]]
  }

  /** r has the buffers of m, each as long as before and equal to it beyond the first n samples. */
  predicate SameTails(r: Mem, m: Mem, n: nat) {
    r.Keys == m.Keys &&
    forall q :: q in m && n <= |m[q]| ==> |r[q]| == |m[q]| && r[q][n..] == m[q][n..]
  }

  lemma SameTailsTransitive(a: Mem, b: Mem, c: Mem, n: nat)
    requires SameTails(b, a, n) && SameTails(c, b, n)
    ensures SameTails(c, a, n)
  {
  }

  lemma CopiedSameTails(m: Mem, dst: Ptr, src: Ptr, n: nat)
    requires Holds(m, dst, n) && Holds(m, src, n)
    ensures SameTails(Copied(m, dst, src, n), m, n)
  {
  }

  lemma ZeroedSameTails(m: Mem, p: Ptr, n: nat)
    requires Holds(m, p, n)
    ensures SameTails(Zeroed(m, p, n), m, n)
  {
  }

  predicate AllHold(m: Mem, ptrs: seq<Ptr>, lo: nat, hi: nat, n: nat)
    requires lo <= hi <= |ptrs|
  {
    forall i :: lo <= i < hi ==> Holds(m, ptrs[i], n)
  }

  /** Clearing ptrs[lo], ..., ptrs[hi-1] in that order, n samples each. */
  function ZeroChannels(m: Mem, ptrs: seq<Ptr>, lo: nat, hi: nat, n: nat): (r: Mem)
    requires lo <= hi <= |ptrs| && AllHold(m, ptrs, lo, hi, n)
    ensures r.Keys == m.Keys
    decreases hi, 0
  {
    if hi == lo then m
    else
      var before := ZeroChannels(m, ptrs, lo, hi - 1, n);
      ZeroChannelsKeepsLengths(m, ptrs, lo, hi - 1, n);
      Zeroed(before, ptrs[hi - 1], n)
  }

  /** Clearing keeps every buffer's length. */
  lemma {:induction false} ZeroChannelsKeepsLengths(m: Mem, ptrs: seq<Ptr>, lo: nat, hi: nat, n: nat)
    requires lo <= hi <= |ptrs| && AllHold(m, ptrs, lo, hi, n)
    ensures forall q :: q in m ==> |ZeroChannels(m, ptrs, lo, hi, n)[q]| == |m[q]|
    decreases hi, 1
  {
    if hi > lo {
      ZeroChannelsKeepsLengths(m, ptrs, lo, hi - 1, n);
    }
  }

  /** Clearing never touches a buffer outside the list. */
  lemma {:induction false} ZeroChannelsUntouched(m: Mem, ptrs: seq<Ptr>, lo: nat, hi: nat, n: nat)
    requires lo <= hi <= |ptrs| && AllHold(m, ptrs, lo, hi, n)
    ensures forall q :: q in m && q !in ptrs[lo..hi] ==> ZeroChannels(m, ptrs, lo, hi, n)[q] == m[q]
    decreases hi
  {
    if hi > lo {
      ZeroChannelsUntouched(m, ptrs, lo, hi - 1, n);
      assert ptrs[lo..hi] == ptrs[lo..hi - 1] + [ptrs[hi - 1]];
    }
  }

  /** Clearing n samples never changes what lies beyond the first n samples. */
  lemma {:induction false} ZeroChannelsKeepsTails(m: Mem, ptrs: seq<Ptr>, lo: nat, hi: nat, n: nat)
    requires lo <= hi <= |ptrs| && AllHold(m, ptrs, lo, hi, n)
    ensures SameTails(ZeroChannels(m, ptrs, lo, hi, n), m, n)
    decreases hi
  {
    if hi > lo {
      var before := ZeroChannels(m, ptrs, lo, hi - 1, n);
      ZeroChannelsKeepsTails(m, ptrs, lo, hi - 1, n);
      ZeroChannelsKeepsLengths(m, ptrs, lo, hi - 1, n);
      ZeroedSameTails(before, ptrs[hi - 1], n);
      SameTailsTransitive(m, before, Zeroed(before, ptrs[hi - 1], n), n);
    }
  }

  /** Every listed buffer starts with n zeros afterwards. */
  lemma {:induction false} ZeroChannelsSilences(m: Mem, ptrs: seq<Ptr>, lo: nat, hi: nat, n: nat)
    requires lo <= hi <= |ptrs| && AllHold(m, ptrs, lo, hi, n)
    ensures forall i :: lo <= i < hi ==>
      n <= |ZeroChannels(m, ptrs, lo, hi, n)[ptrs[i]]| && ZeroChannels(m, ptrs, lo, hi, n)[ptrs[i]][..n] == Zeros(n)
    decreases hi
  {
    if hi > lo {
      ZeroChannelsSilences(m, ptrs, lo, hi - 1, n);
    }
  }

  /** After clearing, exactly the listed buffers start with n zeros and keep
      the rest of their samples; every other buffer is as it was. */
  lemma ZeroChannelsEffect(m: Mem, ptrs: seq<Ptr>, lo: nat, hi: nat, n: nat)
    requires lo <= hi <= |ptrs| && AllHold(m, ptrs, lo, hi, n)
    ensures forall i :: lo <= i < hi ==>
      ZeroChannels(m, ptrs, lo, hi, n)[ptrs[i]] == Zeros(n) + m[ptrs[i]][n..]
    ensures forall q :: q in m && q !in ptrs[lo..hi] ==> ZeroChannels(m, ptrs, lo, hi, n)[q] == m[q]
  {
    var r := ZeroChannels(m, ptrs, lo, hi, n);
    ZeroChannelsUntouched(m, ptrs, lo, hi, n);
    ZeroChannelsKeepsTails(m, ptrs, lo, hi, n);
    ZeroChannelsSilences(m, ptrs, lo, hi, n);
    forall i | lo <= i < hi
      ensures r[ptrs[i]] == Zeros(n) + m[ptrs[i]][n..]
    {
      assert r[ptrs[i]] == r[ptrs[i]][..n] + r[ptrs[i]][n..];
    }
  }

  /** The pointer the block-processing path writes output channel i through:
      the wrapper's scratch buffer if one was allocated for slot i, else the host's output. */
  function ChannelFor(temp: seq<Ptr>, outputs: seq<Ptr>, i: nat): Ptr
    requires i < |temp| && i < |outputs|
  {
    if temp[i] != NullPtr then temp[i] else outputs[i]
  }

  /** The channel list handed to the processor: one entry per output slot (its
      scratch buffer or the host's output), then the remaining inputs as they are. */
  function BlockChannels(temp: seq<Ptr>, inputs: seq<Ptr>, outputs: seq<Ptr>, numIn: nat, numOut: nat): (c: seq<Ptr>)
    requires numOut <= |temp| && numOut <= |outputs| && numIn <= |inputs|
    ensures |c| == Max(numIn, numOut)
    ensures forall i :: 0 <= i < numOut ==> c[i] == ChannelFor(temp, outputs, i)
    ensures forall i :: numOut <= i < numIn ==> c[i] == inputs[i]
  {
    seq(Max(numIn, numOut), i requires 0 <= i < Max(numIn, numOut) =>
      if i < numOut then ChannelFor(temp, outputs, i) else inputs[i])
  }

  /** A buffer the host owns. */
  predicate IsHost(p: Ptr) { p > 0 }

  /** A scratch buffer the wrapper allocated. */
  predicate IsScratch(p: Ptr) { p < 0 }

  /** Output slot i is the later member of an aliased pair: an earlier slot holds the same non-null pointer. */
  predicate HasEarlierTwin(outputs: seq<Ptr>, i: nat)
    requires i < |outputs|
  {
    outputs[i] != NullPtr && exists j :: 0 <= j < i && outputs[j] == outputs[i]
  }

  /** Some output slot repeats an earlier non-null output pointer, so the scan gives it a scratch buffer. */
  predicate SomeOutputAliased(outputs: seq<Ptr>, numOut: nat)
    requires numOut <= |outputs|
  {
    exists i :: 0 <= i < numOut && HasEarlierTwin(outputs, i)
  }

  /** The first k copy steps of the channel build: slot i receives input i
      unless it already is that input's buffer. */
  function CopyInputs(m: Mem, chans: seq<Ptr>, inputs: seq<Ptr>, k: nat, n: nat): (r: Mem)
    requires k <= |chans| && k <= |inputs|
    requires AllHold(m, chans, 0, k, n) && AllHold(m, inputs, 0, k, n)
    ensures r.Keys == m.Keys
    decreases k, 0
  {
    if k == 0 then m
    else
      var before := CopyInputs(m, chans, inputs, k - 1, n);
      CopyInputsKeepsLengths(m, chans, inputs, k - 1, n);
      if chans[k - 1] != inputs[k - 1] then Copied(before, chans[k - 1], inputs[k - 1], n) else before
  }

  /** The copy steps keep every buffer's length. */
  lemma {:induction false} CopyInputsKeepsLengths(m: Mem, chans: seq<Ptr>, inputs: seq<Ptr>, k: nat, n: nat)
    requires k <= |chans| && k <= |inputs|
    requires AllHold(m, chans, 0, k, n) && AllHold(m, inputs, 0, k, n)
    ensures forall q :: q in m ==> |CopyInputs(m, chans, inputs, k, n)[q]| == |m[q]|
    decreases k, 1
  {
    if k > 0 {
      CopyInputsKeepsLengths(m, chans, inputs, k - 1, n);
    }
  }

  /** One more copy step, as the channel build takes it. */
  lemma CopyInputsStep(m: Mem, chans: seq<Ptr>, inputs: seq<Ptr>, k: nat, n: nat)
    requires k < |chans| && k < |inputs|
    requires AllHold(m, chans, 0, k + 1, n) && AllHold(m, inputs, 0, k + 1, n)
    ensures var before := CopyInputs(m, chans, inputs, k, n);
      Holds(before, chans[k], n) && Holds(before, inputs[k], n) &&
      CopyInputs(m, chans, inputs, k + 1, n) ==
        if chans[k] != inputs[k] then Copied(before, chans[k], inputs[k], n) else before
  {
    CopyInputsKeepsLengths(m, chans, inputs, k, n);
  }

  predicate Distinct(ptrs: seq<Ptr>, k: nat)
    requires k <= |ptrs|
  {
    forall i, j :: 0 <= i < j < k ==> ptrs[i] != ptrs[j]
  }

  /** No copy step overwrites an input that a later step still has to read. */
  predicate NoClobber(chans: seq<Ptr>, inputs: seq<Ptr>, k: nat)
    requires k <= |chans| && k <= |inputs|
  {
    forall s, i :: 0 <= s < i < k && chans[s] != inputs[s] ==> chans[s] != inputs[i]
  }

  /** The copy phase never touches a buffer outside the channel list. */
  lemma {:induction false} CopyInputsUntouched(m: Mem, chans: seq<Ptr>, inputs: seq<Ptr>, k: nat, n: nat)
    requires k <= |chans| && k <= |inputs|
    requires AllHold(m, chans, 0, k, n) && AllHold(m, inputs, 0, k, n)
    ensures forall q :: q in m && q !in chans[..k] ==> CopyInputs(m, chans, inputs, k, n)[q] == m[q]
    decreases k
  {
    if k > 0 {
      CopyInputsUntouched(m, chans, inputs, k - 1, n);
      assert chans[..k] == chans[..k - 1] + [chans[k - 1]];
    }
  }

  /** Copying n samples never changes what lies beyond the first n samples. */
  lemma {:induction false} CopyInputsKeepsTails(m: Mem, chans: seq<Ptr>, inputs: seq<Ptr>, k: nat, n: nat)
    requires k <= |chans| && k <= |inputs|
    requires AllHold(m, chans, 0, k, n) && AllHold(m, inputs, 0, k, n)
    ensures SameTails(CopyInputs(m, chans, inputs, k, n), m, n)
    decreases k
  {
    if k > 0 {
      CopyInputsKeepsTails(m, chans, inputs, k - 1, n);
      CopyInputsTailStep(m, chans, inputs, k, n);
    }
  }

  /** One copy step keeps the tails the earlier steps kept. */
  lemma CopyInputsTailStep(m: Mem, chans: seq<Ptr>, inputs: seq<Ptr>, k: nat, n: nat)
    requires 0 < k <= |chans| && k <= |inputs|
    requires AllHold(m, chans, 0, k, n) && AllHold(m, inputs, 0, k, n)
    requires SameTails(CopyInputs(m, chans, inputs, k - 1, n), m, n)
    ensures SameTails(CopyInputs(m, chans, inputs, k, n), m, n)
  {
    var before := CopyInputs(m, chans, inputs, k - 1, n);
    if chans[k - 1] != inputs[k - 1] {
      CopiedSameTails(before, chans[k - 1], inputs[k - 1], n);
      SameTailsTransitive(m, before, Copied(before, chans[k - 1], inputs[k - 1], n), n);
    }
  }

  /** With distinct channel buffers that never overwrite a pending input, every
      channel ends up holding its own input's first n samples. */
  lemma {:induction false} CopyInputsDelivers(m: Mem, chans: seq<Ptr>, inputs: seq<Ptr>, k: nat, n: nat)
    requires k <= |chans| && k <= |inputs|
    requires AllHold(m, chans, 0, k, n) && AllHold(m, inputs, 0, k, n)
    requires Distinct(chans, k) && NoClobber(chans, inputs, k)
    ensures forall i :: 0 <= i < k ==>
      n <= |CopyInputs(m, chans, inputs, k, n)[chans[i]]| && CopyInputs(m, chans, inputs, k, n)[chans[i]][..n] == m[inputs[i]][..n]
    decreases k
  {
    if k > 0 {
      var s := k - 1;
      assert Distinct(chans, s);
      assert NoClobber(chans, inputs, s);
      CopyInputsDelivers(m, chans, inputs, s, n);
      var before := CopyInputs(m, chans, inputs, s, n);
      // Input s still holds its original samples when step s reads it.
      assert before[inputs[s]][..n] == m[inputs[s]][..n] by {
        if inputs[s] in chans[..s] {
          var t :| 0 <= t < s && chans[t] == inputs[s];
          assert chans[t] == inputs[t];
        } else {
          CopyInputsUntouched(m, chans, inputs, s, n);
        }
      }
      forall i | 0 <= i < s
        ensures CopyInputs(m, chans, inputs, k, n)[chans[i]] == before[chans[i]]
      {
        assert chans[i] != chans[s];
      }
    }
  }

  /** The scratch slots line up with the aliasing found in the output pointers:
      exactly the later member of each aliased pair has a fresh scratch buffer,
      scratch buffers are pairwise distinct, and none is a host buffer. */
  predicate ScratchMatchesAliasing(temp: seq<Ptr>, outputs: seq<Ptr>, numOut: nat)
    requires numOut <= |temp| && numOut <= |outputs|
  {
    (forall i :: 0 <= i < numOut ==> (temp[i] != NullPtr <==> HasEarlierTwin(outputs, i))) &&
    (forall i :: 0 <= i < numOut && temp[i] != NullPtr ==> IsScratch(temp[i])) &&
    (forall i, j :: 0 <= i < j < numOut && temp[i] != NullPtr ==> temp[i] != temp[j])
  }

  /** Thanks to the scratch buffers, the channel pointers of the output slots are pairwise distinct. */
  lemma ChannelsDistinct(temp: seq<Ptr>, inputs: seq<Ptr>, outputs: seq<Ptr>, numIn: nat, numOut: nat)
    requires numOut <= |temp| && numOut <= |outputs| && numIn <= |inputs|
    requires ScratchMatchesAliasing(temp, outputs, numOut)
    requires forall i :: 0 <= i < numOut ==> IsHost(outputs[i])
    ensures Distinct(BlockChannels(temp, inputs, outputs, numIn, numOut), numOut)
  {
    var c := BlockChannels(temp, inputs, outputs, numIn, numOut);
    forall i, j | 0 <= i < j < numOut
      ensures c[i] != c[j]
    {
      if temp[j] == NullPtr {
        assert !HasEarlierTwin(outputs, j);
        assert outputs[i] != outputs[j];
      }
    }
  }

  /** Hosts either process in place (output i is input i) or use output buffers
      that are no later channel's input. */
  predicate InPlaceOrSeparate(inputs: seq<Ptr>, outputs: seq<Ptr>, k: nat)
    requires k <= |inputs| && k <= |outputs|
  {
    forall s, i :: 0 <= s < i < k && outputs[s] == inputs[i] ==> outputs[s] == inputs[s]
  }

  /** When the scratch layout matches the host's aliasing, the channel buffers
      are distinct and no copy step overwrites an input a later step reads. */
  lemma ScratchLayoutSeparatesChannels(temp: seq<Ptr>, inputs: seq<Ptr>, outputs: seq<Ptr>, numIn: nat, numOut: nat)
    requires numOut <= |temp| && numOut <= |outputs| && numIn <= |inputs|
    requires ScratchMatchesAliasing(temp, outputs, numOut)
    requires forall i :: 0 <= i < numOut ==> IsHost(outputs[i])
    requires forall i :: 0 <= i < numIn ==> IsHost(inputs[i])
    requires InPlaceOrSeparate(inputs, outputs, Min(numIn, numOut))
    ensures var c := BlockChannels(temp, inputs, outputs, numIn, numOut);
      Distinct(c, numOut) && NoClobber(c, inputs, Min(numIn, numOut))
  {
    var c := BlockChannels(temp, inputs, outputs, numIn, numOut);
    var k := Min(numIn, numOut);
    ChannelsDistinct(temp, inputs, outputs, numIn, numOut);
    forall s, i | 0 <= s < i < k && c[s] != inputs[s]
      ensures c[s] != inputs[i]
    {
    }
  }

  /** The memory after one unsuspended block: the copy phase, then the
      processor clearing the output-only channels numIn..numOut-1. */
  function RenderBlock(m: Mem, chans: seq<Ptr>, inputs: seq<Ptr>, numIn: nat, numOut: nat, n: nat): (r: Mem)
    requires |chans| == Max(numIn, numOut) && numIn <= |inputs|
    requires AllHold(m, chans, 0, |chans|, n) && AllHold(m, inputs, 0, numIn, n)
    ensures r.Keys == m.Keys
  {
    var copied := CopyInputs(m, chans, inputs, Min(numIn, numOut), n);
    CopyInputsKeepsLengths(m, chans, inputs, Min(numIn, numOut), n);
    if numIn < numOut then ZeroChannels(copied, chans, numIn, numOut, n) else copied
  }

  /** A block leaves every buffer that is not a channel as it was, keeps every
      buffer's samples beyond n, and silences the output-only channels. */
  lemma RenderBlockFrame(m: Mem, chans: seq<Ptr>, inputs: seq<Ptr>, numIn: nat, numOut: nat, n: nat)
    requires |chans| == Max(numIn, numOut) && numIn <= |inputs|
    requires AllHold(m, chans, 0, |chans|, n) && AllHold(m, inputs, 0, numIn, n)
    ensures var r := RenderBlock(m, chans, inputs, numIn, numOut, n);
      (forall q :: q in m ==> |r[q]| == |m[q]|) &&
      (forall q :: q in m && q !in chans ==> r[q] == m[q]) &&
      (forall q :: q in m && n <= |m[q]| ==> r[q][n..] == m[q][n..]) &&
      (forall i :: numIn <= i < numOut ==> r[chans[i]][..n] == Zeros(n))
  {
    var k := Min(numIn, numOut);
    var copied := CopyInputs(m, chans, inputs, k, n);
    CopyInputsKeepsLengths(m, chans, inputs, k, n);
    CopyInputsUntouched(m, chans, inputs, k, n);
    CopyInputsKeepsTails(m, chans, inputs, k, n);
    assert forall q :: q !in chans ==> q !in chans[..k];
    if numIn < numOut {
      ZeroChannelsKeepsLengths(copied, chans, numIn, numOut, n);
      ZeroChannelsUntouched(copied, chans, numIn, numOut, n);
      ZeroChannelsKeepsTails(copied, chans, numIn, numOut, n);
      ZeroChannelsSilences(copied, chans, numIn, numOut, n);
      assert forall q :: q !in chans ==> q !in chans[numIn..numOut];
    }
  }

  /** With distinct channel buffers that never overwrite a pending input, every
      channel below min(numIn, numOut) holds its own input's samples after the block. */
  lemma RenderBlockDelivers(m: Mem, chans: seq<Ptr>, inputs: seq<Ptr>, numIn: nat, numOut: nat, n: nat)
    requires |chans| == Max(numIn, numOut) && numIn <= |inputs|
    requires AllHold(m, chans, 0, |chans|, n) && AllHold(m, inputs, 0, numIn, n)
    requires Distinct(chans, numOut) && NoClobber(chans, inputs, Min(numIn, numOut))
    ensures var r := RenderBlock(m, chans, inputs, numIn, numOut, n);
      forall i :: 0 <= i < Min(numIn, numOut) ==> n <= |r[chans[i]]| && r[chans[i]][..n] == m[inputs[i]][..n]
  {
    var k := Min(numIn, numOut);
    var copied := CopyInputs(m, chans, inputs, k, n);
    CopyInputsDelivers(m, chans, inputs, k, n);
    CopyInputsKeepsLengths(m, chans, inputs, k, n);
    if numIn < numOut {
      ZeroChannelsUntouched(copied, chans, numIn, numOut, n);
      forall i | 0 <= i < k
        ensures chans[i] !in chans[numIn..numOut]
      {
      }
    }
  }

  /** Sample-wise sum of two equally long runs. */
  function AddSamples(a: seq<Sample>, b: seq<Sample>): (r: seq<Sample>)
    requires |a| == |b|
    ensures |r| == |a| && forall k :: 0 <= k < |r| ==> r[k] == a[k] + b[k]
  {
    seq(|a|, k requires 0 <= k < |a| => a[k] + b[k])
  }

  /** The first n samples of each of ptrs[0..k), as the accumulating path saves them. */
  function Saved(m: Mem, ptrs: seq<Ptr>, k: nat, n: nat): (s: seq<seq<Sample>>)
    requires k <= |ptrs| && AllHold(m, ptrs, 0, k, n)
    ensures |s| == k && forall i :: 0 <= i < k ==> s[i] == m[ptrs[i]][..n]
  {
    seq(k, i requires 0 <= i < k => m[ptrs[i]][..n])
  }

  /** addFrom: the saved run s is added onto the first n samples of p. */
  function AddedInto(m: Mem, p: Ptr, s: seq<Sample>, n: nat): (r: Mem)
    requires Holds(m, p, n) && |s| == n
    ensures r.Keys == m.Keys && |r[p]| == |m[p]| && r[p][n..] == m[p][n..]
    ensures r[p][..n] == AddSamples(m[p][..n], s)
    ensures forall q :: q in m && q != p ==> r[q] == m[q]
  {
    m[p := AddSamples(m[p][..n], s) + m[p][n..]]
  }

  /** Adding saved[i] onto ptrs[i] for i = k-1 down to 0. */
  function AddBack(m: Mem, ptrs: seq<Ptr>, saved: seq<seq<Sample>>, k: nat, n: nat): (r: Mem)
    requires k <= |ptrs| && k <= |saved| && AllHold(m, ptrs, 0, k, n)
    requires forall i :: 0 <= i < k ==> |saved[i]| == n
    ensures r.Keys == m.Keys
    decreases k
  {
    if k == 0 then m
    else AddBack(AddedInto(m, ptrs[k - 1], saved[k - 1], n), ptrs, saved, k - 1, n)
  }

  /** With distinct pointers each buffer gets exactly its own saved run added,
      and every other buffer is left as it was. */
  lemma {:induction false} AddBackEffect(m: Mem, ptrs: seq<Ptr>, saved: seq<seq<Sample>>, k: nat, n: nat)
    requires k <= |ptrs| && k <= |saved| && AllHold(m, ptrs, 0, k, n)
    requires forall i :: 0 <= i < k ==> |saved[i]| == n
    requires Distinct(ptrs, k)
    ensures forall i :: 0 <= i < k ==>
      AddBack(m, ptrs, saved, k, n)[ptrs[i]] == AddSamples(m[ptrs[i]][..n], saved[i]) + m[ptrs[i]][n..]
    ensures forall q :: q in m && q !in ptrs[..k] ==> AddBack(m, ptrs, saved, k, n)[q] == m[q]
    decreases k
  {
    if k > 0 {
      var m1 := AddedInto(m, ptrs[k - 1], saved[k - 1], n);
      assert Distinct(ptrs, k - 1);
      AddBackEffect(m1, ptrs, saved, k - 1, n);
      assert ptrs[..k] == ptrs[..k - 1] + [ptrs[k - 1]];
      forall i | 0 <= i < k - 1
        ensures ptrs[k - 1] !in ptrs[..k - 1] && m1[ptrs[i]] == m[ptrs[i]]
      {
      }
      assert m1[ptrs[k - 1]] == AddSamples(m[ptrs[k - 1]][..n], saved[k - 1]) + m[ptrs[k - 1]][n..];
    }
  }

  /** Adding a buffer's own saved start onto a cleared start restores the buffer. */
  lemma AddOntoSilenceRestores(x: seq<Sample>, y: seq<Sample>, n: nat)
    requires n <= |x| && |y| == |x| && y[..n] == Zeros(n) && y[n..] == x[n..]
    ensures AddSamples(y[..n], x[..n]) + y[n..] == x
  {
    assert x == x[..n] + x[n..];
  }

  /** While the processor is suspended, an accumulating block adds silence: every
      distinct output below k ends with the samples it started with. */
  lemma SuspendedAccumulateKeepsOutputs(m: Mem, outputs: seq<Ptr>, k: nat, numOut: nat, n: nat)
    requires k <= numOut <= |outputs| && AllHold(m, outputs, 0, numOut, n) && Distinct(outputs, numOut)
    ensures AllHold(ZeroChannels(m, outputs, 0, numOut, n), outputs, 0, numOut, n)
    ensures var silenced := ZeroChannels(m, outputs, 0, numOut, n);
      forall i :: 0 <= i < k ==>
        AddBack(silenced, outputs, Saved(m, outputs, k, n), k, n)[outputs[i]] == m[outputs[i]]
  {
    var silenced := ZeroChannels(m, outputs, 0, numOut, n);
    var saved := Saved(m, outputs, k, n);
    ZeroChannelsKeepsLengths(m, outputs, 0, numOut, n);
    ZeroChannelsSilences(m, outputs, 0, numOut, n);
    ZeroChannelsKeepsTails(m, outputs, 0, numOut, n);
    assert Distinct(outputs, k);
    AddBackEffect(silenced, outputs, saved, k, n);
    forall i | 0 <= i < k
      ensures AddBack(silenced, outputs, saved, k, n)[outputs[i]] == m[outputs[i]]
    {
      AddOntoSilenceRestores(m[outputs[i]], silenced[outputs[i]], n);
    }
  }

  /** The memory a block leaves, cleared (suspended) or rendered, still has every
      output holding n samples; when cleared, adding the saved starts of distinct
      outputs back restores them. */
  lemma BlockKeepsOutputs(m: Mem, r: Mem, withScratch: Mem, temp: seq<Ptr>, inputs: seq<Ptr>, outputs: seq<Ptr>,
                          numIn: nat, numOut: nat, n: nat, suspended: bool)
    requires numOut <= |temp| && numOut == |outputs| && numIn <= |inputs|
    requires AllHold(m, outputs, 0, numOut, n)
    requires forall q :: q in m ==> q in withScratch && withScratch[q] == m[q]
    requires suspended ==> r == ZeroChannels(m, outputs, 0, numOut, n)
    requires !suspended ==>
      var chans := BlockChannels(temp, inputs, outputs, numIn, numOut);
      AllHold(withScratch, chans, 0, |chans|, n) && AllHold(withScratch, inputs, 0, numIn, n) &&
      r == RenderBlock(withScratch, chans, inputs, numIn, numOut, n)
    ensures AllHold(r, outputs, 0, Min(numIn, numOut), n)
    ensures suspended && Distinct(outputs, numOut) ==>
      var k := Min(numIn, numOut);
      forall i :: 0 <= i < k ==> AddBack(r, outputs, Saved(m, outputs, k, n), k, n)[outputs[i]] == m[outputs[i]]
  {
    var k := Min(numIn, numOut);
    if suspended {
      ZeroChannelsKeepsLengths(m, outputs, 0, numOut, n);
      if Distinct(outputs, numOut) {
        SuspendedAccumulateKeepsOutputs(m, outputs, k, numOut, n);
      }
    } else {
      var chans := BlockChannels(temp, inputs, outputs, numIn, numOut);
      RenderBlockFrame(withScratch, chans, inputs, numIn, numOut, n);
    }
  }

  /** The process's sample memory: the buffers, and the id the next scratch
      buffer takes. The host's buffers have positive ids; the wrapper's scratch
      buffers take negative ids, counting down from `nextScratch`. */
  datatype Memory = Memory(blocks: Mem, nextScratch: Ptr) {
    predicate Valid() {
      nextScratch < 0 && forall q :: q in blocks && IsScratch(q) ==> nextScratch < q
    }
  }

  /** malloc: a fresh scratch buffer of the given size; every existing buffer stays as it was. */
  method Alloc(mem: Memory, size: nat) returns (p: Ptr, r: Memory)
    requires mem.Valid()
    ensures r.Valid() && IsScratch(p) && p !in mem.blocks
    ensures r.blocks.Keys == mem.blocks.Keys + {p} && |r.blocks[p]| == size
    ensures forall q :: q in mem.blocks ==> r.blocks[q] == mem.blocks[q]
  {
    p := mem.nextScratch;
    r := Memory(mem.blocks[p := Zeros(size)], mem.nextScratch - 1);
  }

  /** Clears ptrs[lo], ..., ptrs[hi-1], n samples each, in order. */
  method ZeroRange(m: Mem, ptrs: seq<Ptr>, lo: nat, hi: nat, n: nat) returns (r: Mem)
    requires lo <= hi <= |ptrs| && AllHold(m, ptrs, lo, hi, n)
    ensures r == ZeroChannels(m, ptrs, lo, hi, n)
  {
    r := m;
    var i := lo;
    while i < hi
      invariant lo <= i <= hi
      invariant r == ZeroChannels(m, ptrs, lo, i, n)
    {
      ZeroChannelsKeepsLengths(m, ptrs, lo, i, n);
      r := r[ptrs[i] := Zeros(n) + r[ptrs[i]][n..]];
      i := i + 1;
    }
  }

  /** The memcpy steps of the channel build, slots 0..shared-1 in order: each slot's
      channel buffer receives its input unless it is that very buffer. */
  method CopyIntoChannels(temp: seq<Ptr>, inputs: seq<Ptr>, outputs: seq<Ptr>,
                          shared: nat, n: nat, m: Mem, ghost chans: seq<Ptr>) returns (r: Mem)
    requires shared <= |temp| && shared <= |inputs| && shared <= |outputs| && shared <= |chans|
    requires forall k :: 0 <= k < shared ==> chans[k] == ChannelFor(temp, outputs, k)
    requires AllHold(m, chans, 0, shared, n) && AllHold(m, inputs, 0, shared, n)
    ensures r == CopyInputs(m, chans, inputs, shared, n)
  {
    r := m;
    var i := 0;
    while i < shared
      invariant 0 <= i <= shared
      invariant r == CopyInputs(m, chans, inputs, i, n)
    {
      CopyInputsStep(m, chans, inputs, i, n);
      var chan := temp[i];
      if chan == NullPtr {
        chan := outputs[i];
      }
      if chan != inputs[i] {
        r := Copied(r, chan, inputs[i], n);
      }
      i := i + 1;
    }
  }

  /** The pointer half of the channel build: dest[i] becomes output slot i's channel
      buffer for i < numOut, then input i for the remaining slots. */
  method PointChannels(dest: array<Ptr>, temp: seq<Ptr>, inputs: seq<Ptr>, outputs: seq<Ptr>, numIn: nat, numOut: nat)
    requires Max(numIn, numOut) <= dest.Length
    requires numOut <= |temp| && numIn <= |inputs| && numOut <= |outputs|
    modifies dest
    ensures dest[..Max(numIn, numOut)] == BlockChannels(temp, inputs, outputs, numIn, numOut)
  {
    ghost var chans := BlockChannels(temp, inputs, outputs, numIn, numOut);
    var i := 0;
    while i < numOut
      invariant 0 <= i <= numOut
      invariant forall k :: 0 <= k < i ==> dest[k] == chans[k]
    {
      var chan := temp[i];
      if chan == NullPtr {
        chan := outputs[i];
      }
      dest[i] := chan;
      i := i + 1;
    }
    while i < numIn
      invariant numOut <= i <= Max(numIn, numOut)
      invariant forall k :: 0 <= k < i ==> dest[k] == chans[k]
    {
      dest[i] := inputs[i];
      i := i + 1;
    }
    assert dest[..Max(numIn, numOut)] == chans;
  }

  /** The accumulating path's save: the first n samples of ptrs[k-1], ..., ptrs[0]. */
  method SaveStarts(m: Mem, ptrs: seq<Ptr>, k: nat, n: nat) returns (s: seq<seq<Sample>>)
    requires k <= |ptrs| && AllHold(m, ptrs, 0, k, n)
    ensures s == Saved(m, ptrs, k, n)
  {
    var runs := new seq<Sample>[k];
    var i := k;
    while i > 0
      invariant 0 <= i <= k
      invariant forall j :: i <= j < k ==> runs[j] == m[ptrs[j]][..n]
    {
      i := i - 1;
      runs[i] := m[ptrs[i]][..n];
    }
    s := runs[..];
  }

  /** The accumulating path's add-back: saved[i] onto ptrs[i] for i = k-1 down to 0. */
  method AddSavedBack(m: Mem, ptrs: seq<Ptr>, saved: seq<seq<Sample>>, k: nat, n: nat) returns (r: Mem)
    requires k <= |ptrs| && k <= |saved| && AllHold(m, ptrs, 0, k, n)
    requires forall i :: 0 <= i < k ==> |saved[i]| == n
    ensures r == AddBack(m, ptrs, saved, k, n)
  {
    r := m;
    var i := k;
    while i > 0
      invariant 0 <= i <= k && AllHold(r, ptrs, 0, i, n)
      invariant AddBack(r, ptrs, saved, i, n) == AddBack(m, ptrs, saved, k, n)
    {
      i := i - 1;
      r := r[ptrs[i] := AddSamples(r[ptrs[i]][..n], saved[i]) + r[ptrs[i]][n..]];
    }
  }
}
