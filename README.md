# Voxel pipeline core, modelled in Dafny

This project models three parts of a voxel terrain module for a game engine:

- **The block-data provider worker** (`VoxelProviderThread`). The foreground pushes emerge requests (block positions whose voxel data should be produced) and immerge requests (blocks to be saved). A worker takes them over at synchronisation boundaries, re-sorts them nearest-first around a priority position, and hands them to a provider one at a time. It records one output per block at the block's origin in voxel space, keeps min/max timing statistics per synchronisation window, and publishes output and statistics for the foreground to pop.
- **Hermite sampling for dual marching cubes.** This covers the clamped isolevel read, the central-difference gradient over `unsigned` coordinates (including the wrap at 0), and the choice of the eight cell corners and the relative position for an interpolated query.
- **The voxel library** (`VoxelLibrary`). This is a fixed table of 256 optional voxel types with bounds-checked create, set, get, remove, count and add operations. It also holds atlas settings that reject non-positive values and an editor page setter whose bound divides a signed count by an unsigned constant.

Modules:

- `Wrappers`: `Option`.
- `Vectors`: `Vector3i`, `distance_sq`, scaling, `1 << n`.
- `PriorityOrder`: the nearest-first order and a sort that meets its contract.
- `ProviderThread`: the worker as a class.
- `HermiteValue`: pure functions and lemmas.
- `VoxelLibrary`: the library as a class over an array of `Option<Voxel>`.

The provider worker is a sequential state machine. Each mutex-guarded section of the original is one atomic method. The locals `emerge_index` and `stats` of `thread_func` live across inner-loop passes, so they are fields.

Ghost history fields record what has happened so far:

- `pushed`: every pushed emerge request;
- `processed`: every request handed to the provider;
- `popped`: every output returned by `pop`;
- `window`: the timing samples of the current window.

`Valid()` ties this history to the queues. That is how request conservation is stated: every pushed request is pending (shared or local) or has produced exactly one output, and that output is popped, published or still local.

Behaviour of the code worth stating outright:

- Duplicate emerge requests are kept. `push` appends without merging, so one position can be pending several times.
- `thread_sync` pulls in the shared input before it posts the output. `remaining_blocks` is therefore the local emerge count after the merge.
- `SortArray` promises no stability, so re-sorting an already sorted list need not return the same list. What holds, and is proved (`PriorityOrder.SortedPermutationsAgree`), is that the distance at every position stays the same, so only equally distant requests can change places.

Values without a contract of their own:

- `HermiteValue.DefaultHermiteValue` is the default-constructed `HermiteValue` (value 1.0, zero gradient). `GetHermiteValue` builds its result from it, as the source does.
- `HermiteValue.Corners` lists the eight corners in the order `v0` to `v7`; what that order means is proved by `CornerOrderIsEachCombinationOnce` and `CornersAreTheCellProduct`.
- The plain getters `GetVoxelEditorCount`, `GetVoxelEditorPage`, `GetIsTextured` and `GetMaterial` return their field.

## Model

| member | source | states |
|---|---|---|
| Vectors.DistanceSqZero | terrain/voxel_provider_thread.cpp:150-155 | the squared distance used by the comparator is never negative and is zero exactly when the two positions coincide |
| Vectors.ScaleInjective | terrain/voxel_provider_thread.cpp:104 | `block_pos * bs` with a positive block size maps distinct block positions to distinct voxel origins, in both directions |
| Vectors.Pow2 | terrain/voxel_provider_thread.cpp:99 | the block size `1 << n` is at least 1 |
| PriorityOrder.CloserIsStrictWeakOrder | terrain/voxel_provider_thread.cpp:150-155 | `BlockPositionComparator` (`Closer`) is a strict weak ordering: irreflexive, asymmetric, transitive, and equally distant positions form classes |
| PriorityOrder.InsertPermutes | terrain/voxel_provider_thread.cpp:197-203 | inserting into the sorted prefix adds exactly the new request and keeps all others (multiset) |
| PriorityOrder.InsertSorted | terrain/voxel_provider_thread.cpp:150-155 | inserting a request into a list sorted by ascending distance keeps it sorted |
| PriorityOrder.SortedPermutationsAgree | terrain/voxel_provider_thread.cpp:150-155 | two sorted arrangements of the same requests have the same length and the same distance at every position |
| PriorityOrder.SortByDistance | terrain/voxel_provider_thread.cpp:197-203 | the re-sort returns a permutation of its input in ascending `distance_sq` order to the centre; on an already sorted input every position keeps its distance |
| ProviderThread.RecordSample | terrain/voxel_provider_thread.cpp:110-119 | folding a sample clears `first`, keeps `remaining_blocks`, and leaves the sample between the new min and max |
| ProviderThread.RecordSampleBounds | terrain/voxel_provider_thread.cpp:110-119 | the first sample sets min = max = t and clears `first`; a later sample only widens the bounds, to the sample itself; `remaining_blocks` is untouched |
| ProviderThread.WindowStatsBounds | terrain/voxel_provider_thread.cpp:110-119 | over a window of samples, `first` is set only while the window is empty, min and max are samples of the window, and every sample lies between them |
| ProviderThread.RecordExtendsWindow | terrain/voxel_provider_thread.cpp:110-119 | folding one more sample into the stats equals the stats of the window extended by that sample |
| ProviderThread.OriginsCount | terrain/voxel_provider_thread.cpp:121-124 | each processed block yields exactly as many outputs at its voxel origin as it was processed times |
| ProviderThread.ShiftUp | terrain/voxel_provider_thread.cpp:165-169 | shifting the items from `pos` to the front and shrinking leaves exactly the suffix from `pos`, in order |
| ProviderThread.DropProcessed | terrain/voxel_provider_thread.cpp:159-170 | the cleanup removes exactly the first `emerge_index` local requests: the list is emptied when the index reaches its size, otherwise the rest is kept in order |
| ProviderThread.PushConserves | terrain/voxel_provider_thread.cpp:45 | appending requests to the shared list and to the push history keeps request conservation |
| ProviderThread.MergeConserves | terrain/voxel_provider_thread.cpp:176-180 | moving the shared requests behind the local ones keeps request conservation |
| ProviderThread.EmergeConserves | terrain/voxel_provider_thread.cpp:92-97 | taking the next pending request and recording it as processed keeps request conservation |
| ProviderThread.PermuteConserves | terrain/voxel_provider_thread.cpp:197-203 | replacing the local requests by a permutation of them keeps request conservation |
| ProviderThread.PopDelivers | terrain/voxel_provider_thread.cpp:62-64 | handing the shared output to the caller keeps one output per processed request |
| ProviderThread.PublishDelivers | terrain/voxel_provider_thread.cpp:192-194 | appending the local output to the shared output keeps one output per processed request |
| ProviderThread.EmergeDelivers | terrain/voxel_provider_thread.cpp:121-124 | one processed request with one new local output at `block_pos * bs` keeps one output per processed request |
| ProviderThread.VoxelProviderThread.constructor | terrain/voxel_provider_thread.cpp:10-22 | requires `block_size_pow2 > 0`; starts with empty shared and local input, empty output, fresh stats and an empty history |
| ProviderThread.VoxelProviderThread.Push | terrain/voxel_provider_thread.cpp:36-56 | appends the emerge and immerge requests to the shared lists in order, duplicates kept; overwrites the priority position; signals the worker exactly when the shared input is non-empty; keeps the invariant |
| ProviderThread.VoxelProviderThread.Pop | terrain/voxel_provider_thread.cpp:58-65 | appends all shared output in order to the caller's list, copies the shared stats, leaves the shared output empty (so a second pop adds nothing) |
| ProviderThread.VoxelProviderThread.TakeInput | terrain/voxel_provider_thread.cpp:159-182 | the local emerge list becomes the unprocessed remainder followed by all shared requests; immerge requests are appended likewise; the priority position is copied; the shared lists are emptied |
| ProviderThread.VoxelProviderThread.PostOutput | terrain/voxel_provider_thread.cpp:184-194 | the local output is appended to the shared output and cleared; the published stats are the window's with `remaining_blocks` equal to the local emerge count after the merge; a new window starts |
| ProviderThread.VoxelProviderThread.ReSort | terrain/voxel_provider_thread.cpp:197-203 | the local emerge list becomes a permutation of itself sorted ascending by distance to the priority position; nothing else changes |
| ProviderThread.VoxelProviderThread.Sync | terrain/voxel_provider_thread.cpp:157-204 | the whole synchronisation: merged requests re-sorted as a permutation, shared input emptied, output published and cleared, `remaining_blocks` equal to the new local count, counters and stats reset |
| ProviderThread.VoxelProviderThread.EmergeNext | terrain/voxel_provider_thread.cpp:88-125 | immerge requests are discarded; with nothing pending nothing else changes; otherwise the next pending request is consumed, the index advanced, the list cleared once the index reaches its size, one output at `block_pos * (1 << pow2)` appended and the sample folded into the stats |
| ProviderThread.VoxelProviderThread.ProvideNext | terrain/voxel_provider_thread.cpp:92-97 | returns `blocks_to_emerge[emerge_index]`, advances the index, clears the list at its end, and records exactly one output at the block's voxel origin |
| ProviderThread.VoxelProviderThread.RecordTime | terrain/voxel_provider_thread.cpp:109-119 | the stats become the stats of the window extended by the new sample |
| ProviderThread.VoxelProviderThread.LoopIteration | terrain/voxel_provider_thread.cpp:84-135 | one inner-loop pass processes the head of the pending requests, if any, and ends in a synchronisation exactly when the deadline passed or at most one request was pending; without one, the index is advanced, one output at the head's origin appended, the sample folded in, immerge requests dropped and the shared state untouched; with one, the rest and the shared requests are merged and re-sorted, the window's output (this pass's included) and stats are published with the new remaining count, and index, stats and local output are reset |
| ProviderThread.VoxelProviderThread.NoWorkExactlyWhenEmpty | terrain/voxel_provider_thread.cpp:84 | `is_empty` on the local input holds exactly when no emerge request is pending and no immerge request is queued, so the inner loop stops exactly when there is no work |
| ProviderThread.VoxelProviderThread.RequestConservation | terrain/voxel_provider_thread.cpp:36-204 | for every block position, pushed occurrences = shared + local pending + processed occurrences, and the outputs at its origin (popped, shared or local) number exactly its processed occurrences |
| ProviderThread.VoxelProviderThread.AllDeliveredWhenDrained | terrain/voxel_provider_thread.cpp:58-65 | once nothing is pending, queued or unpublished, `pop` has returned exactly one output per pushed request |
| HermiteValue.ToU32 | meshers/dmc/hermite_value.h:37-39 | `unsigned` arithmetic on a coordinate: in-range values are kept, `0 - 1` wraps to 2^32-1 |
| HermiteValue.ClampAxis | meshers/dmc/hermite_value.h:22-24 | a coordinate at or past the size becomes `size - 1`, an in-range coordinate is unchanged, and the result is always in range |
| HermiteValue.IsolevelClamped | meshers/dmc/hermite_value.h:20-27 | the clamped read always returns the value of some cell of the grid, and an in-bounds query reads its own cell |
| HermiteValue.ClampedReadInBounds | meshers/dmc/hermite_value.h:20-26 | with every size at least 1, every clamped read is in bounds, and an in-bounds read is the raw cell |
| HermiteValue.GetHermiteValue | meshers/dmc/hermite_value.h:29-44 | the value is the unclamped `get_voxel_f` read at the cell; along an axis one cell thick that gradient component is 0 |
| HermiteValue.InteriorCentralDifference | meshers/dmc/hermite_value.h:37-39 | for `0 < c < size - 1` each gradient component is the plain central difference of the raw isolevel |
| HermiteValue.LowFaceReadsFarBoundary | meshers/dmc/hermite_value.h:37-39 | at coordinate 0 the step down wraps and is clamped to `size - 1`, so the gradient subtracts the far face, not cell 0 |
| HermiteValue.HighFaceOneSided | meshers/dmc/hermite_value.h:37-39 | at the far face the step up is clamped back, giving a one-sided difference |
| HermiteValue.ConstantGridZeroGradient | meshers/dmc/hermite_value.h:29-44 | on a constant isolevel grid the gradient is zero at every cell; the value is the unclamped `get_voxel_f` read |
| HermiteValue.Trunc | meshers/dmc/hermite_value.h:48-50 | `static_cast<int>` truncates toward zero |
| HermiteValue.Ceil | meshers/dmc/hermite_value.h:52-54 | `Math::ceil` gives the least integer not below its argument |
| HermiteValue.CellSpan | meshers/dmc/hermite_value.h:48-54 | for a non-negative coordinate, x1 == x0 exactly when it is whole, x1 == x0 + 1 otherwise, and the offset lies in [0, 1) |
| HermiteValue.NegativeCellCollapses | meshers/dmc/hermite_value.h:48-54 | for a negative fractional coordinate truncation rounds up, so x0 == x1 and the offset is negative |
| HermiteValue.CornerIndexNonNegative | meshers/dmc/hermite_value.h:48-54 | above -1 both corner indices are at least 0; in (-1, 0) truncation and ceiling both give 0, so the cell collapses onto index 0 |
| HermiteValue.RelativePosition | meshers/dmc/hermite_value.h:73 | each component of `rpos` lies in (-1, 1), and in [0, 1) for a non-negative coordinate |
| HermiteValue.RelativePositionInUnitCell | meshers/dmc/hermite_value.h:73 | for a non-negative query each component of `rpos` lies in [0, 1) |
| HermiteValue.CornerOrderIsEachCombinationOnce | meshers/dmc/hermite_value.h:63-71 | the corner order v0..v7 lists each of the eight low/high combinations exactly once |
| HermiteValue.CornersAreTheCellProduct | meshers/dmc/hermite_value.h:63-71 | the sampled corners are exactly {x0,x1}×{y0,y1}×{z0,z1}, eight distinct points when no coordinate is whole |
| HermiteValue.InterpolationInputs | meshers/dmc/hermite_value.h:46-73 | for a query whose coordinates are above -1 and whose ceiling is inside the grid, the eight samples are the Hermite values at the eight corners, all in bounds; `rpos` lies in (-1, 1), and in the unit cell [0, 1) for a non-negative query |
| VoxelLibrary.Occupied | voxel_library.cpp:32-39 | the number of non-empty slots is at most the number of slots |
| VoxelLibrary.OccupiedUpdate | voxel_library.cpp:82 | overwriting one slot changes the count by what the slot lost and gained |
| VoxelLibrary.OccupiedExtremes | voxel_library.cpp:32-39 | the count is 0 exactly when all slots are empty, and full exactly when none is |
| VoxelLibrary.PageLimit | voxel_library.cpp:61 | the page bound is the count divided by `ITEMS_PER_PAGE` for a non-negative count; a negative count is first converted to `unsigned` |
| VoxelLibrary.NegativeCountWidensPages | voxel_library.cpp:61 | with an editor count of -1 any page up to 16777215 is accepted |
| VoxelLibrary.Library.constructor | voxel_library.cpp:3-12 | atlas size 1, rows 8, columns 8, textured, editor count and page 0, all 256 slots empty, no material |
| VoxelLibrary.Library.GetVoxelCount | voxel_library.cpp:32-39 | the loop counts exactly the non-empty slots; the count lies in [0, 256] |
| VoxelLibrary.Library.CreateVoxel | voxel_library.cpp:74-85 | an id outside [0, 256) returns null and changes nothing; otherwise slot `id` holds a new voxel with that id and name, the other slots are unchanged, and the count grows by one exactly when the slot was empty |
| VoxelLibrary.Library.AddVoxel | voxel_library.cpp:87-93 | the voxel is renumbered to the current count, or left unchanged when the table is full; the table itself is never changed |
| VoxelLibrary.Library.SetVoxel | voxel_library.cpp:95-101 | an invalid id changes nothing; otherwise slot `id` holds the voxel renumbered to `id` and the other slots are unchanged |
| VoxelLibrary.Library.GetVoxel | voxel_library.cpp:103-107 | an invalid id yields null; otherwise the slot's content, whose id is `id` |
| VoxelLibrary.Library.RemoveVoxel | voxel_library.cpp:109-113 | an invalid id changes nothing; otherwise slot `id` becomes empty and the count drops by one exactly when it held a voxel |
| VoxelLibrary.Library.LoadDefault | voxel_library.cpp:41-46 | slot 0 holds the transparent "air" voxel and slot 1 the opaque cube "solid" voxel; the other slots are unchanged |
| VoxelLibrary.Library.HasVoxel | voxel_library.h:39 | requires a valid id, since there is no range check; an occupied slot means the count is at least 1, an empty one that the table is not full |
| VoxelLibrary.Library.GetVoxelConst | voxel_library.h:40 | for a valid, occupied id, the voxel stored in the slot, which carries that id |
| VoxelLibrary.Library.SetVoxelEditorCount | voxel_library.cpp:52-54 | any count is stored |
| VoxelLibrary.Library.SetVoxelEditorPage | voxel_library.cpp:60-66 | the page changes exactly when `0 <= value <= count / ITEMS_PER_PAGE` (unsigned division); otherwise the old page is kept |
| VoxelLibrary.Library.GetAtlasSize | voxel_library.h:19 | the stored atlas size, which is never below 1 |
| VoxelLibrary.Library.SetAtlasSize | voxel_library.cpp:69-72 | a size of 0 or less is rejected and the old one kept; otherwise it is stored; the size stays at least 1 |
| VoxelLibrary.Library.GetAtlasColumns | voxel_library.h:43 | the stored column count, which is never below 1 |
| VoxelLibrary.Library.SetAtlasColumns | voxel_library.cpp:148-151 | a count of 0 or less is rejected and the old one kept; otherwise it is stored; columns stay at least 1 |
| VoxelLibrary.Library.GetAtlasRows | voxel_library.h:46 | the stored row count, which is never below 1 |
| VoxelLibrary.Library.SetAtlasRows | voxel_library.cpp:153-156 | a count of 0 or less is rejected and the old one kept; otherwise it is stored; rows stay at least 1 |
| VoxelLibrary.Library.SetIsTextured | voxel_library.cpp:162-164 | the flag is stored |
| VoxelLibrary.Library.SetMaterial | voxel_library.h:52-53 | `get_material` then returns the material just set, and nothing else changes |

## Left out

- **Threads and synchronisation.** Threads, the semaphore, mutexes, the exit flag and the destructor are not modelled. Each locked section is one atomic method, and the outer wait loop of `thread_func` is not modelled.
- **Clocks.** The millisecond sync deadline and the microsecond timing come in as the `deadlinePassed` and `timeTaken` parameters.
- **The provider.** `VoxelProvider::emerge_block` and the `VoxelBuffer` it fills are opaque. An output carries only its voxel-space origin.
- **Null provider.** The constructor's null-provider check has no counterpart: there is no provider object.
- **Unseen helpers.** `shift_up` and `SortArray` live in files that are not part of this model. `ShiftUp` is written from the call's intent. `SortByDistance` is an insertion sort meeting the sorted-permutation contract, and nothing relies on its order among equally distant requests.
- **Where the counter resets happen.** The resets of `emerge_index` and `stats` that follow each `thread_sync` call are made inside `TakeInput` and `PostOutput`. Only the combined effect, in `Sync`, matters.
- **The stats type.** `InputData`, `OutputData` and `Stats` are declared in `terrain/voxel_provider_thread.h`, which is not part of this model. `Stats` follows the same-named struct in `terrain/voxel_mesh_updater.h`: first set, zeros elsewhere.
- **ProviderThread.Stats:** `remaining_blocks`, `min_time` and `max_time` are unbounded naturals. `remaining_blocks` is a `uint32_t` that receives a list size. A list size cannot exceed 2^31 - 1, so it always fits. `min_time` and `max_time` are `uint64_t` copies of a single sample. A sample is the difference of two microsecond clock readings and arrives as the natural `timeTaken`. Its width matters only for a provider call longer than 2^64 microseconds, or for a clock that runs backwards, which would make the unsigned difference wrap.
- **Vectors.Pow2:** `1 << block_size_pow2` is not limited to 32 bits. The source has undefined behaviour for shifts of 31 or more, and `block_pos * bs` can overflow `int`; neither is modelled.
- **Floating point.**
  - The trilinear `::interpolate` is defined in a file that is not part of this model. `InterpolationInputs` stops at its inputs.
  - Reals stand in for `float`. The integer isolevel read by `get_voxel` is converted to `real` exactly.
  - `get_voxel_f` is an independent channel view, because the buffer's scaling is not part of this model.
- **HermiteValue.InterpolationInputs:** it requires every coordinate to be above -1 and its ceiling to lie inside the grid. A coordinate of -1 or less truncates to a negative index, which the `unsigned` parameter turns into a huge one. A ceiling at or past the size is read unclamped by `get_voxel_f`. Either way the source reads out of bounds.
- **UV atlas math.** `rebuild_uvs`, `get_material_uv`, `get_uvs_test` and the `_uvs` storage are floating-point work with no contract.
- **Engine glue.** Reflection (`_validate_property`, `_bind_methods`), `Resource` behaviour and `set_library` are not modelled.
- **Ref aliasing.** A voxel is a value, so changes made through a `Ref<Voxel>` the caller keeps are not modelled. `AddVoxel` and `SetVoxel` return the renumbered voxel instead of mutating the caller's. Three guarantees hold only because of this: `Library.Valid()`'s "every stored voxel carries its slot's id", and the id clauses of `GetVoxel` and `GetVoxelConst`. In the source, `set_voxel(1, v)` followed by `set_voxel(2, v)` stores one shared voxel in both slots, so slot 1 then holds a voxel with id 2. Likewise `add_voxel(get_voxel(3))` renumbers a voxel that is still stored in slot 3.
- **Null voxels.** Passing a null `Ref<Voxel>` to `add_voxel` or `set_voxel` dereferences null; the model has no null voxel.
- **Voxel defaults.** A new voxel's other defaults are declared in `voxel.h`, which is not part of this model. `NewVoxel` fixes an opaque voxel with no geometry.
- **Materials.** The material is an opaque handle.
