/**
 The block-data provider worker (`VoxelProviderThread`) as a sequential state
 machine. The foreground side calls `Push` and `Pop`; the worker side runs
 `Sync` (the synchronisation boundary) and `LoopIteration` (one pass of the
 inner loop of `thread_func`). Each mutex-guarded section of the original is
 one atomic step here, so no threads appear.

 Ghost history (`pushed`, `processed`, `popped`, `window`) records what has
 happened so far; `Valid()` ties it to the queues, which is how request
 conservation is stated.
 */
module ProviderThread {
  import opened Vectors
  import opened PriorityOrder

  /** `InputData`: emerge and immerge requests plus the priority position. */
  datatype InputData = InputData(
    blocksToEmerge: seq<Vector3i>,
    blocksToImmerge: seq<Vector3i>,
    priorityBlockPosition: Vector3i)
  {
    /** `is_empty`: both request lists are empty, so the input holds no request at all. */
    predicate IsEmpty(): (empty: bool)
      ensures empty ==> forall p :: p !in blocksToEmerge && p !in blocksToImmerge
    {
      blocksToEmerge == [] && blocksToImmerge == []
    }
  }

  const EmptyInput := InputData([], [], Vector3i(0, 0, 0))

  /** `EmergeOutput` as the worker fills it: only the origin in voxel space (the voxel buffer is opaque). */
  datatype EmergeOutput = EmergeOutput(originInVoxels: Vector3i)

  /** `Stats`: timing window (microseconds) and the number of blocks still queued. */
  datatype Stats = Stats(first: bool, minTime: nat, maxTime: nat, remainingBlocks: nat)

  /** `Stats()`: first set, everything else zero. */
  const FreshStats := Stats(true, 0, 0, 0)

  /** Folds one timing sample into the window (the "Do some stats" block of `thread_func`). */
  function RecordSample(s: Stats, t: nat): (r: Stats)
    ensures !r.first && r.remainingBlocks == s.remainingBlocks
    ensures r.minTime <= t <= r.maxTime
  {
    if s.first then
      s.(first := false, minTime := t, maxTime := t)
    else
      s.(minTime := if t < s.minTime then t else s.minTime,
         maxTime := if t > s.maxTime then t else s.maxTime)
  }

  /**
   The first sample of a window sets both bounds to it and clears `first`;
   a later sample only widens the bounds, to the sample itself.
   */
  lemma RecordSampleBounds(s: Stats, t: nat)
    ensures !RecordSample(s, t).first && RecordSample(s, t).remainingBlocks == s.remainingBlocks
    ensures RecordSample(s, t).minTime <= t <= RecordSample(s, t).maxTime
    ensures s.first ==> RecordSample(s, t).minTime == t == RecordSample(s, t).maxTime
    ensures !s.first ==> RecordSample(s, t).minTime <= s.minTime && s.maxTime <= RecordSample(s, t).maxTime
    ensures !s.first ==> RecordSample(s, t).minTime in {s.minTime, t} && RecordSample(s, t).maxTime in {s.maxTime, t}
  {
  }

  /** The stats of a window that started fresh and saw `samples` in this order. */
  function WindowStats(samples: seq<nat>): Stats
  {
    if samples == [] then FreshStats
    else RecordSample(WindowStats(samples[..|samples| - 1]), samples[|samples| - 1])
  }

  /**
   The window's stats are exactly the minimum and maximum of its samples:
   both are samples, every sample lies between them, and `first` is set
   only while the window is empty.
   */
  lemma {:induction false} WindowStatsBounds(samples: seq<nat>)
    ensures WindowStats(samples).first <==> samples == []
    ensures WindowStats(samples).remainingBlocks == 0
    ensures samples == [] ==> WindowStats(samples) == FreshStats
    ensures samples != [] ==> WindowStats(samples).minTime in samples && WindowStats(samples).maxTime in samples
    ensures forall i :: 0 <= i < |samples| ==>
      WindowStats(samples).minTime <= samples[i] <= WindowStats(samples).maxTime
  {
    if samples != [] {
      var init := samples[..|samples| - 1];
      WindowStatsBounds(init);
      RecordSampleBounds(WindowStats(init), samples[|samples| - 1]);
      assert samples == init + [samples[|samples| - 1]];
    }
  }

  /** The outputs produced for `blocks`, one per block, in the same order. */
  function Origins(blocks: seq<Vector3i>, blockSize: int): (r: seq<EmergeOutput>)
    ensures |r| == |blocks|
  {
    if blocks == [] then []
    else Origins(blocks[..|blocks| - 1], blockSize) + [EmergeOutput(Scale(blocks[|blocks| - 1], blockSize))]
  }

  /** Each block yields its own output: outputs for `c` are as many as occurrences of `c`. */
  lemma {:induction false} OriginsCount(blocks: seq<Vector3i>, blockSize: int, c: Vector3i)
    requires blockSize > 0
    ensures multiset(Origins(blocks, blockSize))[EmergeOutput(Scale(c, blockSize))] == multiset(blocks)[c]
  {
    if blocks != [] {
      var init, last := blocks[..|blocks| - 1], blocks[|blocks| - 1];
      OriginsCount(init, blockSize, c);
      assert blocks == init + [last];
      ScaleInjective(last, c, blockSize);
    }
  }

  /**
   `shift_up(v, pos)`: moves `v[pos..]` to the front, one element at a time,
   then shrinks `v` to the moved part.
   */
  method ShiftUp<T>(v: seq<T>, pos: nat) returns (r: seq<T>)
    requires pos <= |v|
    ensures r == v[pos..]
  {
    r := v;
    var i, j := pos, 0;
    while i < |r|
      invariant |r| == |v| && pos <= i <= |v| && j == i - pos
      invariant forall k :: 0 <= k < j ==> r[k] == v[pos + k]
      invariant forall k :: j <= k < |v| ==> r[k] == v[k]
    {
      r := r[j := r[i]];
      i, j := i + 1, j + 1;
    }
    r := r[..|v| - pos];
  }

  /**
   The local emerge requests not yet handed to the provider when the first
   `emergeIndex` of them were: the suffix after them, or nothing once the
   index reaches the end.
   */
  function PendingOf(emerge: seq<Vector3i>, emergeIndex: nat): seq<Vector3i>
  {
    if emergeIndex < |emerge| then emerge[emergeIndex..] else []
  }

  /** Handing one more request to the provider takes the head off the pending requests. */
  lemma PendingOfNext(emerge: seq<Vector3i>, emergeIndex: nat)
    requires emergeIndex < |emerge|
    ensures PendingOf(emerge, emergeIndex) == [emerge[emergeIndex]] + PendingOf(emerge, emergeIndex + 1)
  {
    assert emerge[emergeIndex..] == [emerge[emergeIndex]] + emerge[emergeIndex + 1..];
  }

  /** Nothing is pending exactly when the local list is empty, as long as the index stays inside a non-empty list. */
  lemma PendingOfEmpty(emerge: seq<Vector3i>, emergeIndex: nat)
    requires emerge != [] ==> emergeIndex < |emerge|
    ensures PendingOf(emerge, emergeIndex) == [] <==> emerge == []
  {
    if emerge != [] {
      PendingOfNext(emerge, emergeIndex);
    }
  }

  /**
   The cleanup at the start of `thread_sync`: the first `emergeIndex` items
   have been handed to the provider and are dropped; what remains keeps its
   order.
   */
  method DropProcessed(emerge: seq<Vector3i>, emergeIndex: nat) returns (r: seq<Vector3i>)
    ensures r == PendingOf(emerge, emergeIndex)
  {
    r := emerge;
    if r != [] {
      if emergeIndex >= |r| {
        r := [];
      } else if emergeIndex > 0 {
        r := ShiftUp(r, emergeIndex);
      }
    }
  }

  /** The number of occurrences of `c` in `s`: its multiplicity in `multiset(s)`, counted one element at a time. */
  function Count(s: seq<Vector3i>, c: Vector3i): nat
  {
    if s == [] then 0 else (if s[0] == c then 1 else 0) + Count(s[1..], c)
  }

  lemma {:induction false} CountAppend(a: seq<Vector3i>, b: seq<Vector3i>, c: Vector3i)
    ensures Count(a + b, c) == Count(a, c) + Count(b, c)
  {
    if a != [] {
      CountAppend(a[1..], b, c);
      assert (a + b)[1..] == a[1..] + b;
    } else {
      assert a + b == b;
    }
  }

  lemma {:induction false} CountIsMultiplicity(s: seq<Vector3i>, c: Vector3i)
    ensures Count(s, c) == multiset(s)[c]
  {
    if s != [] {
      CountIsMultiplicity(s[1..], c);
      assert s == [s[0]] + s[1..];
      assert multiset(s) == multiset{s[0]} + multiset(s[1..]);
    }
  }

  /** The pending requests after the head has been handed out. */
  function Rest(pending: seq<Vector3i>): seq<Vector3i>
  {
    if pending == [] then [] else pending[1..]
  }

  /** The output recorded for the head of the pending requests, if there is one. */
  function HeadOutput(pending: seq<Vector3i>, blockSize: int): seq<EmergeOutput>
  {
    if pending == [] then [] else [EmergeOutput(Scale(pending[0], blockSize))]
  }

  /** Request conservation: every pushed emerge request is pending (shared or local) or processed. */
  ghost predicate Conserved(pushed: seq<Vector3i>, shared: seq<Vector3i>, pending: seq<Vector3i>, processed: seq<Vector3i>)
  {
    forall c :: Count(pushed, c) == Count(shared, c) + Count(pending, c) + Count(processed, c)
  }

  /** Every processed request has produced exactly one output, in order: popped, published or local. */
  ghost predicate Delivered(popped: seq<EmergeOutput>, shared: seq<EmergeOutput>, local: seq<EmergeOutput>,
                            processed: seq<Vector3i>, blockSize: int)
  {
    popped + shared + local == Origins(processed, blockSize)
  }

  lemma PushConserves(pushed: seq<Vector3i>, shared: seq<Vector3i>, pending: seq<Vector3i>,
                      processed: seq<Vector3i>, requests: seq<Vector3i>)
    requires Conserved(pushed, shared, pending, processed)
    ensures Conserved(pushed + requests, shared + requests, pending, processed)
  {
    forall c ensures Count(pushed + requests, c)
                  == Count(shared + requests, c) + Count(pending, c) + Count(processed, c) {
      CountAppend(pushed, requests, c);
      CountAppend(shared, requests, c);
    }
  }

  lemma MergeConserves(pushed: seq<Vector3i>, shared: seq<Vector3i>, pending: seq<Vector3i>,
                       processed: seq<Vector3i>)
    requires Conserved(pushed, shared, pending, processed)
    ensures Conserved(pushed, [], pending + shared, processed)
  {
    forall c {
      CountAppend(pending, shared, c);
    }
  }

  lemma EmergeConserves(pushed: seq<Vector3i>, shared: seq<Vector3i>, blockPos: Vector3i,
                        rest: seq<Vector3i>, processed: seq<Vector3i>)
    requires Conserved(pushed, shared, [blockPos] + rest, processed)
    ensures Conserved(pushed, shared, rest, processed + [blockPos])
  {
    forall c ensures Count(pushed, c) == Count(shared, c) + Count(rest, c) + Count(processed + [blockPos], c) {
      CountAppend([blockPos], rest, c);
      CountAppend(processed, [blockPos], c);
    }
  }

  lemma PermuteConserves(pushed: seq<Vector3i>, shared: seq<Vector3i>, pending: seq<Vector3i>,
                         processed: seq<Vector3i>, permuted: seq<Vector3i>)
    requires Conserved(pushed, shared, pending, processed)
    requires multiset(permuted) == multiset(pending)
    ensures Conserved(pushed, shared, permuted, processed)
  {
    forall c ensures Count(pushed, c) == Count(shared, c) + Count(permuted, c) + Count(processed, c) {
      CountIsMultiplicity(permuted, c);
      CountIsMultiplicity(pending, c);
    }
  }

  lemma PopDelivers(popped: seq<EmergeOutput>, shared: seq<EmergeOutput>, local: seq<EmergeOutput>,
                    processed: seq<Vector3i>, blockSize: int)
    requires Delivered(popped, shared, local, processed, blockSize)
    ensures Delivered(popped + shared, [], local, processed, blockSize)
  {
    assert popped + shared + [] == popped + shared;
  }

  lemma PublishDelivers(popped: seq<EmergeOutput>, shared: seq<EmergeOutput>, local: seq<EmergeOutput>,
                        processed: seq<Vector3i>, blockSize: int)
    requires Delivered(popped, shared, local, processed, blockSize)
    ensures Delivered(popped, shared + local, [], processed, blockSize)
  {
    assert popped + (shared + local) + [] == popped + shared + local;
  }

  lemma EmergeDelivers(popped: seq<EmergeOutput>, shared: seq<EmergeOutput>, local: seq<EmergeOutput>,
                       processed: seq<Vector3i>, blockSize: int, blockPos: Vector3i)
    requires Delivered(popped, shared, local, processed, blockSize)
    ensures Delivered(popped, shared, local + [EmergeOutput(Scale(blockPos, blockSize))], processed + [blockPos], blockSize)
  {
    var next := processed + [blockPos];
    assert next[..|next| - 1] == processed;
  }

  lemma RecordExtendsWindow(window: seq<nat>, t: nat)
    ensures WindowStats(window + [t]) == RecordSample(WindowStats(window), t)
  {
    assert (window + [t])[..|window|] == window;
  }

  class VoxelProviderThread {
    /** `_block_size_pow2`; blocks are `1 << blockSizePow2` voxels wide. */
    const blockSizePow2: nat

    /** `_shared_input`, guarded by the input mutex. */
    var sharedInput: InputData
    /** `_input`, the worker's local working copy. */
    var input: InputData
    /** `_output`, the worker's local accumulator. */
    var output: seq<EmergeOutput>
    /** `_shared_output` and `_shared_stats`, guarded by the output mutex. */
    var sharedOutput: seq<EmergeOutput>
    var sharedStats: Stats

    /** The locals `emerge_index` and `stats` of `thread_func`, which live across inner-loop passes. */
    var emergeIndex: nat
    var stats: Stats

    /** Every emerge request ever pushed, in push order. */
    ghost var pushed: seq<Vector3i>
    /** Every block position handed to the provider, in processing order. */
    ghost var processed: seq<Vector3i>
    /** Every output ever handed to a caller of `Pop`, in order. */
    ghost var popped: seq<EmergeOutput>
    /** The timing samples of the current synchronisation window. */
    ghost var window: seq<nat>

    /** `1 << _block_size_pow2`, the block edge length in voxels. */
    function BlockSize(): nat
    {
      Pow2(blockSizePow2)
    }

    /** The local emerge requests not yet handed to the provider. */
    function Pending(): seq<Vector3i>
      reads this
    {
      PendingOf(input.blocksToEmerge, emergeIndex)
    }

    /** Request conservation between the request queues and the history. */
    ghost predicate QueueValid()
      reads this`sharedInput, this`input, this`emergeIndex, this`pushed, this`processed
    {
      && (input.blocksToEmerge != [] ==> emergeIndex < |input.blocksToEmerge|)
      && Conserved(pushed, sharedInput.blocksToEmerge, PendingOf(input.blocksToEmerge, emergeIndex), processed)
    }

    /** One output per processed request, split between the caller, the shared and the local list. */
    ghost predicate OutputValid()
      reads this`popped, this`sharedOutput, this`output, this`processed
    {
      Delivered(popped, sharedOutput, output, processed, Pow2(blockSizePow2))
    }

    /** The worker's stats summarise the current window. */
    ghost predicate StatsValid()
      reads this`stats, this`window
    {
      stats == WindowStats(window)
    }

    ghost predicate Valid()
      reads this
    {
      blockSizePow2 > 0 && QueueValid() && OutputValid() && StatsValid()
    }

    /** The constructor; a null provider, the other construction error, has no counterpart here. */
    constructor (blockSizePow2: int)
      requires blockSizePow2 > 0
      ensures Valid()
      ensures this.blockSizePow2 == blockSizePow2
      ensures sharedInput == EmptyInput && input == EmptyInput
      ensures output == [] && sharedOutput == [] && sharedStats == FreshStats
      ensures emergeIndex == 0 && stats == FreshStats
      ensures pushed == [] && processed == [] && popped == [] && window == []
    {
      this.blockSizePow2 := blockSizePow2;
      sharedInput, input := EmptyInput, EmptyInput;
      output, sharedOutput, sharedStats := [], [], FreshStats;
      emergeIndex, stats := 0, FreshStats;
      pushed, processed, popped, window := [], [], [], [];
    }

    /**
     `push`: appends the requests (duplicates kept) and overwrites the
     priority position; `shouldRun` says whether the worker is signalled.
     */
    method Push(data: InputData) returns (shouldRun: bool)
      requires Valid()
      modifies this`sharedInput, this`pushed
      ensures Valid()
      ensures sharedInput.blocksToEmerge == old(sharedInput.blocksToEmerge) + data.blocksToEmerge
      ensures sharedInput.blocksToImmerge == old(sharedInput.blocksToImmerge) + data.blocksToImmerge
      ensures sharedInput.priorityBlockPosition == data.priorityBlockPosition
      ensures pushed == old(pushed) + data.blocksToEmerge
      ensures shouldRun <==> !sharedInput.IsEmpty()
    {
      PushConserves(pushed, sharedInput.blocksToEmerge, PendingOf(input.blocksToEmerge, emergeIndex),
                    processed, data.blocksToEmerge);
      sharedInput := InputData(
        sharedInput.blocksToEmerge + data.blocksToEmerge,
        sharedInput.blocksToImmerge + data.blocksToImmerge,
        data.priorityBlockPosition);
      pushed := pushed + data.blocksToEmerge;
      shouldRun := !sharedInput.IsEmpty();
    }

    /** `pop`: appends all shared output to the caller's list, copies the shared stats and drains the shared output. */
    method Pop(emergedBlocks: seq<EmergeOutput>) returns (blocks: seq<EmergeOutput>, outStats: Stats)
      requires Valid()
      modifies this`sharedOutput, this`popped
      ensures Valid()
      ensures blocks == emergedBlocks + old(sharedOutput)
      ensures outStats == sharedStats
      ensures sharedOutput == []
      ensures popped == old(popped) + old(sharedOutput)
    {
      PopDelivers(popped, sharedOutput, output, processed, BlockSize());
      blocks := emergedBlocks + sharedOutput;
      outStats := sharedStats;
      popped := popped + sharedOutput;
      sharedOutput := [];
    }

    /**
     The first two blocks of `thread_sync`: drops the requests already handed
     to the provider, then moves the shared requests behind the remaining
     local ones (duplicates kept) and takes over the priority position. The
     caller's reset of `emerge_index` is made here, since the cleanup has
     consumed it.
     */
    method TakeInput()
      requires Valid()
      modifies this`input, this`sharedInput, this`emergeIndex
      ensures Valid()
      ensures input.blocksToEmerge == old(Pending()) + old(sharedInput.blocksToEmerge)
      ensures input.blocksToImmerge == old(input.blocksToImmerge) + old(sharedInput.blocksToImmerge)
      ensures input.priorityBlockPosition == old(sharedInput.priorityBlockPosition)
      ensures sharedInput == old(sharedInput).(blocksToEmerge := [], blocksToImmerge := [])
      ensures emergeIndex == 0
    {
      var kept := DropProcessed(input.blocksToEmerge, emergeIndex);
      var emerge := kept + sharedInput.blocksToEmerge;
      MergeConserves(pushed, sharedInput.blocksToEmerge, kept, processed);
      input := InputData(emerge, input.blocksToImmerge + sharedInput.blocksToImmerge, sharedInput.priorityBlockPosition);
      sharedInput := sharedInput.(blocksToEmerge := [], blocksToImmerge := []);
      emergeIndex := 0;
    }

    /**
     The "post output" block of `thread_sync`: the local output is appended
     to the shared output and the window's stats are published with the
     number of remaining requests. The caller's reset of `stats` is made
     here, which starts a new window.
     */
    method PostOutput()
      requires Valid()
      modifies this`output, this`sharedOutput, this`sharedStats, this`stats, this`window
      ensures Valid()
      ensures sharedOutput == old(sharedOutput) + old(output) && output == []
      ensures sharedStats == old(stats).(remainingBlocks := |input.blocksToEmerge|)
      ensures stats == FreshStats && window == []
    {
      PublishDelivers(popped, sharedOutput, output, processed, BlockSize());
      sharedOutput, output := sharedOutput + output, [];
      sharedStats := stats.(remainingBlocks := |input.blocksToEmerge|);
      stats, window := FreshStats, [];
    }

    /** The last block of `thread_sync`: a non-empty local list is re-sorted nearest first. */
    method ReSort()
      requires Valid() && emergeIndex == 0
      modifies this`input
      ensures Valid()
      ensures multiset(input.blocksToEmerge) == multiset(old(input.blocksToEmerge))
      ensures |input.blocksToEmerge| == |old(input.blocksToEmerge)|
      ensures SortedByDistance(input.blocksToEmerge, input.priorityBlockPosition)
      ensures input.blocksToImmerge == old(input.blocksToImmerge)
      ensures input.priorityBlockPosition == old(input.priorityBlockPosition)
    {
      if input.blocksToEmerge != [] {
        var sorted := SortByDistance(input.blocksToEmerge, input.priorityBlockPosition);
        assert |sorted| == |multiset(sorted)| == |input.blocksToEmerge|;
        PermuteConserves(pushed, sharedInput.blocksToEmerge, input.blocksToEmerge, processed, sorted);
        input := input.(blocksToEmerge := sorted);
      }
    }

    /**
     A synchronisation boundary: `thread_sync(emerge_index, stats)` followed
     by the caller's reset of `emerge_index` and `stats`. The call at the
     head of the outer loop of `thread_func` is the same step, made while
     both counters hold their fresh values.
     */
    method Sync()
      requires Valid()
      modifies this`input, this`sharedInput, this`output, this`sharedOutput, this`sharedStats
      modifies this`emergeIndex, this`stats, this`window
      ensures Valid()
      // the unprocessed local requests and all shared ones, re-sorted nearest first
      ensures multiset(input.blocksToEmerge) == multiset(old(Pending())) + multiset(old(sharedInput.blocksToEmerge))
      ensures SortedByDistance(input.blocksToEmerge, input.priorityBlockPosition)
      ensures input.blocksToImmerge == old(input.blocksToImmerge) + old(sharedInput.blocksToImmerge)
      ensures input.priorityBlockPosition == old(sharedInput.priorityBlockPosition)
      ensures sharedInput == old(sharedInput).(blocksToEmerge := [], blocksToImmerge := [])
      // output published, stats published with the remaining count
      ensures sharedOutput == old(sharedOutput) + old(output) && output == []
      ensures sharedStats == old(stats).(remainingBlocks := |input.blocksToEmerge|)
      ensures emergeIndex == 0 && stats == FreshStats && window == []
    {
      TakeInput();
      PostOutput();
      ReSort();
    }

    /**
     The work part of one inner-loop pass of `thread_func`: drops the
     immerge requests, and if an emerge request is left, hands it to the
     provider (which took `timeTaken` microseconds), records one output at
     its voxel-space origin and folds the sample into the window's stats.
     The local list is cleared once its last request has been handed out.
     */
    method EmergeNext(timeTaken: nat)
      requires Valid()
      modifies this`input, this`emergeIndex, this`stats, this`output, this`processed, this`window
      ensures Valid()
      ensures input.blocksToImmerge == []
      ensures input.priorityBlockPosition == old(input.priorityBlockPosition)
      ensures old(Pending()) == [] ==>
        && input.blocksToEmerge == [] && emergeIndex == old(emergeIndex)
        && output == old(output) && processed == old(processed)
        && stats == old(stats) && window == old(window)
      ensures old(Pending()) != [] ==>
        var blockPos := old(Pending())[0];
        && old(Pending()) == [blockPos] + Pending()
        && emergeIndex == old(emergeIndex) + 1
        && input.blocksToEmerge == (if emergeIndex >= |old(input.blocksToEmerge)| then [] else old(input.blocksToEmerge))
        && output == old(output) + [EmergeOutput(Scale(blockPos, BlockSize()))]
        && processed == old(processed) + [blockPos]
        && stats == RecordSample(old(stats), timeTaken)
        && window == old(window) + [timeTaken]
    {
      // immerge requests are dropped unprocessed: the worker never saves blocks
      input := input.(blocksToImmerge := []);
      if input.blocksToEmerge != [] {
        var blockPos := ProvideNext();
        RecordTime(timeTaken);
      }
    }

    /**
     Takes the next local request, clearing the list after its last one,
     and records the output the provider filled for it at the block's
     origin in voxels.
     */
    method ProvideNext() returns (blockPos: Vector3i)
      requires Valid() && input.blocksToEmerge != []
      modifies this`input, this`emergeIndex, this`output, this`processed
      ensures Valid()
      ensures blockPos == old(input.blocksToEmerge[emergeIndex])
      ensures old(Pending()) == [blockPos] + Pending()
      ensures emergeIndex == old(emergeIndex) + 1
      ensures input == old(input).(blocksToEmerge :=
        if emergeIndex >= |old(input.blocksToEmerge)| then [] else old(input.blocksToEmerge))
      ensures output == old(output) + [EmergeOutput(Scale(blockPos, BlockSize()))]
      ensures processed == old(processed) + [blockPos]
    {
      blockPos := input.blocksToEmerge[emergeIndex];
      var index := emergeIndex + 1;
      var emerge := if index >= |input.blocksToEmerge| then [] else input.blocksToEmerge;
      PendingOfNext(input.blocksToEmerge, emergeIndex);
      assert PendingOf(input.blocksToEmerge, index) == PendingOf(emerge, index);

      var bs := BlockSize();
      var blockOriginInVoxels := Scale(blockPos, bs);
      EmergeConserves(pushed, sharedInput.blocksToEmerge, blockPos, PendingOf(emerge, index), processed);
      EmergeDelivers(popped, sharedOutput, output, processed, bs, blockPos);

      input, emergeIndex := input.(blocksToEmerge := emerge), index;
      output, processed := output + [EmergeOutput(blockOriginInVoxels)], processed + [blockPos];
    }

    /** The "do some stats" block: the provider's time for one block joins the window. */
    method RecordTime(timeTaken: nat)
      requires Valid()
      modifies this`stats, this`window
      ensures Valid()
      ensures stats == RecordSample(old(stats), timeTaken)
      ensures window == old(window) + [timeTaken]
    {
      RecordExtendsWindow(window, timeTaken);
      stats, window := RecordSample(stats, timeTaken), window + [timeTaken];
    }

    /**
     One pass of the inner loop of `thread_func`, entered while the local
     input is not empty. `deadlinePassed` stands for the 100 ms clock check;
     the pass ends in a synchronisation boundary when the deadline passed or
     the local input ran out.
     */
    method LoopIteration(timeTaken: nat, deadlinePassed: bool) returns (synced: bool)
      requires Valid()
      requires !input.IsEmpty()
      modifies this`input, this`sharedInput, this`output, this`sharedOutput, this`sharedStats
      modifies this`emergeIndex, this`stats, this`window, this`processed
      ensures Valid()
      ensures old(Pending()) == [] ==> processed == old(processed)
      ensures old(Pending()) != [] ==> processed == old(processed) + [old(Pending())[0]]
      ensures pushed == old(pushed) && popped == old(popped)
      ensures synced <==> deadlinePassed || |old(Pending())| <= 1
      // no boundary: the head was handed out, the rest is still queued and nothing was published
      ensures !synced ==> sharedInput == old(sharedInput)
      ensures !synced ==> sharedOutput == old(sharedOutput) && sharedStats == old(sharedStats)
      ensures !synced ==> input == old(input).(blocksToImmerge := []) && emergeIndex == old(emergeIndex) + 1
      ensures !synced ==> output == old(output) + [EmergeOutput(Scale(old(Pending())[0], BlockSize()))]
      ensures !synced ==> stats == RecordSample(old(stats), timeTaken) && window == old(window) + [timeTaken]
      // a boundary: the unprocessed rest and the shared requests are merged and re-sorted, and the
      // window, including this pass's output and sample, is published
      ensures synced ==>
        multiset(input.blocksToEmerge) == multiset(Rest(old(Pending()))) + multiset(old(sharedInput.blocksToEmerge))
      ensures synced ==> SortedByDistance(input.blocksToEmerge, input.priorityBlockPosition)
      ensures synced ==> input.blocksToImmerge == old(sharedInput.blocksToImmerge)
      ensures synced ==> input.priorityBlockPosition == old(sharedInput.priorityBlockPosition)
      ensures synced ==> sharedInput == old(sharedInput).(blocksToEmerge := [], blocksToImmerge := [])
      ensures synced ==> sharedOutput == old(sharedOutput) + old(output) + HeadOutput(old(Pending()), BlockSize())
      ensures synced ==>
        sharedStats == (if old(Pending()) == [] then old(stats) else RecordSample(old(stats), timeTaken))
                       .(remainingBlocks := |input.blocksToEmerge|)
      ensures synced ==> emergeIndex == 0 && stats == FreshStats && window == [] && output == []
    {
      ghost var pending, shared := Pending(), sharedInput;
      EmergeNext(timeTaken);
      PendingOfEmpty(input.blocksToEmerge, emergeIndex);
      assert Pending() == Rest(pending);
      assert output == old(output) + HeadOutput(pending, BlockSize());
      assert sharedInput == shared;
      synced := deadlinePassed || input.IsEmpty();
      if synced {
        Sync();
      }
    }

    /**
     The inner loop runs while the local input is not empty: it is empty
     exactly when no emerge request is pending and no immerge request is
     queued locally.
     */
    lemma NoWorkExactlyWhenEmpty()
      requires Valid()
      ensures input.IsEmpty() <==> Pending() == [] && input.blocksToImmerge == []
    {
      PendingOfEmpty(input.blocksToEmerge, emergeIndex);
    }

    /** Request conservation, for each block position `c`. */
    lemma RequestConservation(c: Vector3i)
      requires Valid()
      ensures multiset(pushed)[c]
           == multiset(sharedInput.blocksToEmerge)[c] + multiset(Pending())[c] + multiset(processed)[c]
      ensures multiset(popped + sharedOutput + output)[EmergeOutput(Scale(c, BlockSize()))] == multiset(processed)[c]
    {
      OriginsCount(processed, BlockSize(), c);
      CountIsMultiplicity(pushed, c);
      CountIsMultiplicity(sharedInput.blocksToEmerge, c);
      CountIsMultiplicity(Pending(), c);
      CountIsMultiplicity(processed, c);
    }

    /** Once nothing is pending or queued, every pushed request has been returned by `Pop` exactly once. */
    lemma AllDeliveredWhenDrained(c: Vector3i)
      requires Valid()
      requires sharedInput.blocksToEmerge == [] && Pending() == []
      requires sharedOutput == [] && output == []
      ensures multiset(popped)[EmergeOutput(Scale(c, BlockSize()))] == multiset(pushed)[c]
    {
      RequestConservation(c);
      assert popped + sharedOutput + output == popped;
    }
  }
}
