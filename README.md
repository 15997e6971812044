# ionengine GPU backend bookkeeping in Dafny

This project models the parts of the ionengine renderer that do not depend on the GPU, and proves properties of them. These are the integer state, loops and error conditions around the Direct3D 12 backends, plus a handful of small data structures and text generators. Native Direct3D 12 and DXGI objects appear as opaque tokens or as entries in a log of requested calls. The value a GPU fence reports as completed is an input supplied by the environment.

The modules follow the source files:

- `ResourceSets` (renderer/d3d12/backend_d3d12.cpp): `ResourceSet<Type, Size>`. It is a fixed slot array plus a FIFO free list of indices. `push` takes the front of the list and `erase` appends to the back. Neither has a guard, so a double `erase` lets two `push`es return the same slot.
- `BackendResources`: the CPU descriptor pools and `allocate_descriptor`'s pool selection. It also holds the create/delete pairs of textures and buffers as updates to the pools and to the memory allocator.
- `BackendSubmission`: the per-queue fence counters of `submit`, `submit_after`, `wait`, `is_completed` and `wait_for_idle`, and the encoder's lazy `is_reset` flag.
- `DescriptorLayouts` and `DescriptorSets`:
  - shader-register assignment by per-kind running counters, shared by both backends;
  - descriptor-set sizing and `update_descriptor_set`;
  - the older backend's shader-visible descriptor requests and table bindings.
- `Pipelines`: the per-slot vertex-stride accumulation of `create_pipeline` in both backends.
- `ShaderCaches`: the pipeline-cache hit/miss decision and the byte layout `serialize_shader_cache` writes, together with a parser it round-trips with.
- `MemoryPools` (lgfx/d3d12/memory_pool.cpp, .h): the block-bitmap memory pool. It has heaps of 256 block flags and a cursor. Allocation is first-fit; it counts free blocks rather than a contiguous run. Deallocation zeroes the flags.
- `LgfxTypes` (lgfx/types.h): the flag bits, the render-pass description defaults and their lexicographic `operator<`.
- `LegacyBackends` (renderer/backend_d3d12.cpp): the older backend's per-frame swapchain resources and the descriptor array `create_texture` fills. It also covers the descriptors and root tables of descriptor sets, and command-list selection in `begin_context`/`end_context`.
- `DX12Devices` (renderer/rhi/dx12/device.cpp): adapter choice, queue setup, command-buffer allocation and submission. It also covers `wait_for_idle` and the frame pacing through `present_fence_value`. The protocol is modelled twice: as a pure function on counters, and as a `Device` class that keeps a log of the native calls it would make.
- `ConcurrentQueues` (lib/concurrent_queue.h): the bounded ring buffer of `Size + 1` slots, run sequentially.
- `RefPtrs` (core/ref_ptr.hpp): `ref_counted_object` and `ref_ptr`, including the assignment and `release` behaviour the code actually has.
- `BufferPools` (renderer/buffer_pool.h): constant- and structured-buffer bump allocators with reset.
- `ShaderBinders` (renderer/shader_binder.cpp): the write list from location to descriptor write, and `update_resource`.
- `Techniques` (asset/technique.cpp):
  - register locations;
  - uniform data and visibility;
  - the HLSL generated for uniforms, stage structs and whole shaders;
  - the type and flag tables;
  - `load_from_file`'s error mapping.
- `MicroShaders` and `MicroShaderBlocks` (src/compositor/microshader.cpp): `parse_shader`. `MicroShaderBlocks` proves that a well-formed field block parses back to its field.
- `InputNodes` (tools/editor/components/input.hpp): the Input node's shader code generators.
- `HResults` (renderer/rhi/dx12/utils.hpp): `hresult_to_string` and `THROW_IF_FAILED`.
- `Wrappers`: `Option` and `Result`. A `Result` error carries the message of the exception the source throws.

Fixed-width arithmetic is written out where the source relies on it:

- `uint32` counters and strides wrap modulo 2^32;
- `uint64` fence values and `size_t` sizes wrap modulo 2^64;
- the ring buffer's `size()` underflows.

Where the code does something other than what its names suggest, the model states what the code does:

- the memory pool marks blocks that are already in use;
- `delete_buffer` frees a descriptor it may never have allocated;
- `is_completed` indexes the fences by the raw flag value;
- copy assignment of `ref_ptr` leaks a reference;
- the older backend's `create_texture` writes past its two-entry array;
- `submit_after` hands `ExecuteCommandLists` the addresses of the encoders' list holders instead of the lists that `submit` passes.

Assertions are modelled as they behave in a debug build: a failing `assert` is an outcome of its own (an error result, a fault value or a flag) and nothing after it happens, or, where the model has no outcome for it, a `requires`. The members this applies to are listed under "## Left out".

## Model

| member | source | states |
|---|---|---|
| ResourceSets.Indices | renderer/d3d12/backend_d3d12.cpp:131-134 | the list fill_data builds has Size entries and entry k is k |
| ResourceSets.Fresh | renderer/d3d12/backend_d3d12.cpp:127-135 | a new table has Size empty slots and the free list 0, 1, …, Size - 1 in ascending order, without duplicates, each naming a slot |
| ResourceSets.AfterPush | renderer/d3d12/backend_d3d12.cpp:78-96 | push returns the front of the free list and drops it from the list; that slot holds the element; no other slot changes |
| ResourceSets.AfterErase | renderer/d3d12/backend_d3d12.cpp:98-102 | erase appends the index to the back of the free list and resets that slot to Type{}; no other slot changes |
| ResourceSets.PushAll | renderer/d3d12/backend_d3d12.cpp:78-96 | n pushes in a row hand out n indices and keep the table's size |
| ResourceSets.PushAllIsFifo | renderer/d3d12/backend_d3d12.cpp:78-102 | n pushes hand out the first n free indices in free-list order and leave the rest of the list, so reuse is first-in first-out |
| ResourceSets.FreshHandsOutAscending | renderer/d3d12/backend_d3d12.cpp:73-96 | a fresh table hands out 0, 1, 2, … in ascending order |
| ResourceSets.EraseOfLiveIndexKeepsNoDuplicates | renderer/d3d12/backend_d3d12.cpp:98-102 | erasing an index that is not already free keeps the free list free of duplicates |
| ResourceSets.DoubleEraseHandsOutTwice | renderer/d3d12/backend_d3d12.cpp:78-102 | erase has no guard: erasing one index twice lists it twice, and the two pushes that reach those entries both return it |
| ResourceSets.ResourceSet.State | renderer/d3d12/backend_d3d12.cpp:124-125 | the table's value (slots and free list); while Valid every free index names a slot |
| ResourceSets.ResourceSet.FillIds | renderer/d3d12/backend_d3d12.cpp:127-135 | the fill loop leaves the free list 0, …, Size - 1 |
| ResourceSets.ResourceSet.constructor | renderer/d3d12/backend_d3d12.cpp:73-76 | a new table is Fresh |
| ResourceSets.ResourceSet.Push | renderer/d3d12/backend_d3d12.cpp:78-96 | the table and the returned index are those of AfterPush |
| ResourceSets.ResourceSet.Erase | renderer/d3d12/backend_d3d12.cpp:98-102 | the new table is AfterErase of the old one |
| ResourceSets.ResourceSet.Clear | renderer/d3d12/backend_d3d12.cpp:104-110 | after clear the table is Fresh again |
| BackendResources.TakeRecord | renderer/d3d12/backend_d3d12.cpp:403-405 | taking a record from a pool with space keeps every pool within its capacity, and every live token stays below the next one |
| BackendResources.FirstCbvWithSpace | renderer/d3d12/backend_d3d12.cpp:402-408 | the answer is the lowest CBV/SRV/UAV pool index at or after `from` whose space() is positive; None means that every such pool is full |
| BackendResources.SelectPool | renderer/d3d12/backend_d3d12.cpp:395-425 | a CBV/SRV/UAV request goes to a CBV pool with space, and every lower-indexed pool is full; None means all four are full; an RTV, DSV or sampler request goes to its single pool exactly when that pool has space |
| BackendResources.DepthStencilPoolHoldsTwo | renderer/d3d12/backend_d3d12.cpp:144 | the DSV pool holds two records: with both taken, the next depth-stencil request throws, whatever else is free |
| BackendResources.TextureReleasesEachViewOnce | renderer/d3d12/backend_d3d12.cpp:719-738 | for a texture created without unordered access, delete_texture releases each of its views exactly once, RTV, DSV, SRV |
| BackendResources.UnorderedShaderTextureReleasesSrvTwice | renderer/d3d12/backend_d3d12.cpp:731-738 | a texture created for unordered access and shader reads has its SRV record released twice |
| BackendResources.UnorderedOnlyTextureReleasesNullRecord | renderer/d3d12/backend_d3d12.cpp:731-734 | a texture created for unordered access without shader reads releases the null record to CBV/SRV/UAV pool 0 |
| BackendResources.PlainBufferReleasesNullRecord | renderer/d3d12/backend_d3d12.cpp:807-811 | a buffer created with neither the constant-buffer nor the unordered-access flag still releases the null record to pool 0 when deleted |
| BackendResources.Backend.constructor | renderer/d3d12/backend_d3d12.cpp:440 | the backend starts with four empty CBV/SRV/UAV pools, empty RTV, DSV and sampler pools, no releases and fresh texture and buffer tables |
| BackendResources.Backend.AllocateDescriptor | renderer/d3d12/backend_d3d12.cpp:395-425 | it throws "Backend: Out of memory" exactly when SelectPool finds no pool, and then nothing changes; otherwise it returns a new record and the pool index (the CBV pool's index, else 0), and only that pool gains the record |
| BackendResources.Backend.FindPool | renderer/d3d12/backend_d3d12.cpp:399-420 | the switch and the CBV pool loop find the pool SelectPool names |
| BackendResources.Backend.Deallocate | renderer/d3d12/backend_d3d12.cpp:726 | one deallocate call is logged, and a non-null record leaves its pool: the pools become Returned of the old ones |
| BackendResources.Backend.AllocateMemory | renderer/d3d12/backend_d3d12.cpp:625-629 | the memory allocator hands out a new allocation on the heap type asked for |
| BackendResources.Backend.DeallocateMemory | renderer/d3d12/backend_d3d12.cpp:740 | one memory deallocate call is logged, and a non-null allocation is returned |
| BackendResources.Backend.AddView | renderer/d3d12/backend_d3d12.cpp:660 | one view of create_texture throws "Backend: Out of memory" exactly when SelectPool finds no pool, and then changes nothing; otherwise it stores the record numbered with the next token for its heap type, in the pool SelectPool names, keeps the other records, and only that pool gains the token |
| BackendResources.Backend.TextureViews | renderer/d3d12/backend_d3d12.cpp:642-713 | a depth-stencil texture of three dimensions trips the unsupported-dimension assertion before any record is taken; otherwise the records made are DSV, RTV and SRV, each present exactly when its flag is set, none for unordered access or samplers, none null, all new and from real pools, and the pools are TakenViews of the old ones; the SRV record comes from the pool SelectPool picks in the old pools; otherwise it throws out of memory exactly when RoomFor fails, and such a throw keeps the records already taken |
| BackendResources.Backend.CreateTexture | renderer/d3d12/backend_d3d12.cpp:566-717 | the memory is a new DEFAULT-heap allocation and stays allocated even when a later step throws; on success the texture takes the front free slot and holds the resource flags create_texture sets, that memory and TextureViews' records, the SRV record from the pool SelectPool picks, and the pools are TakenViews of the old ones; outside the dimension assertion it throws out of memory exactly when RoomFor fails; on the dimension assertion no record is taken; any throw leaves the table unchanged and creates no release |
| BackendResources.Backend.ReleaseTextureViews | renderer/d3d12/backend_d3d12.cpp:725-738 | the release log grows by exactly TextureReleases: RTV if render targets are allowed, DSV if depth-stencil is allowed, the CBV/SRV/UAV record if unordered access is allowed and once more if shader reads are not denied; the pools are AfterReleases of those calls |
| BackendResources.Backend.DeallocateTwice | renderer/d3d12/backend_d3d12.cpp:725-730 | two guarded deallocate calls log their releases in order and return their records in order |
| BackendResources.Backend.DeallocateIf | renderer/d3d12/backend_d3d12.cpp:725-727 | a guarded deallocate call logs and returns a record exactly when its flag holds |
| BackendResources.Backend.DeleteTexture | renderer/d3d12/backend_d3d12.cpp:719-743 | delete_texture logs and serves TextureReleases, then returns the memory, then erases the slot |
| BackendResources.AfterReleasesAppend | renderer/d3d12/backend_d3d12.cpp:725-738 | serving two runs of deallocate calls one after the other is serving their concatenation |
| BackendResources.ViewStepsCompose | renderer/d3d12/backend_d3d12.cpp:642-713 | the DSV, RTV and SRV steps of create_texture, one after the other, take exactly TakenViews' records, each new and from a real pool, and the records match the flags |
| BackendResources.ViewStepKeepsOtherHeaps | renderer/d3d12/backend_d3d12.cpp:642-713 | taking a record from one heap leaves the DSV and RTV space and the CBV/SRV/UAV pool choice of the other heaps as they were |
| BackendResources.SameCbvPoolsSameChoice | renderer/d3d12/backend_d3d12.cpp:399-420 | allocate_descriptor's choice of a CBV/SRV/UAV pool depends only on those pools |
| BackendResources.ViewStepsRoom | renderer/d3d12/backend_d3d12.cpp:642-713 | when the three steps succeed, each flagged heap had room in the pools create_texture started from (RoomFor), and the SRV record is from the pool SelectPool picks there |
| BackendResources.TakenViewsAt | renderer/d3d12/backend_d3d12.cpp:642-713 | creation adds to each pool exactly the tokens of the texture's views in that pool |
| BackendResources.ReturnedViewsAt | renderer/d3d12/backend_d3d12.cpp:725-738 | deletion removes from each pool exactly the tokens of the texture's views in that pool |
| BackendResources.DeleteReturnsWhatCreateTook | renderer/d3d12/backend_d3d12.cpp:642-738 | for a texture created without unordered access, delete_texture returns exactly the records create_texture took, each once: the pools end as they were before the texture was created |
| BackendResources.Backend.BufferView | renderer/d3d12/backend_d3d12.cpp:782-801 | a buffer holds a record exactly when it has the constant-buffer or the unordered-access flag; on success the record and the pools are BufferCreated's and one token is used per flag, the first record taken from the pool SelectPool picks and the second, with both flags, from the pool SelectPool picks after the first; it throws exactly when some flag is set and every CBV/SRV/UAV pool is full, or with both flags when the first record took the last space; a throw of the first request changes nothing, a throw of the second leaves the first record taken |
| BackendResources.Backend.CreateBuffer | renderer/d3d12/backend_d3d12.cpp:745-805 | the memory is a new record on the UPLOAD heap for host writes, else READBACK for host reads, else DEFAULT, and stays allocated on every path; on success the buffer takes the front free slot and the pools are BufferCreated's: unchanged without view flags, plus the one record with one flag, plus both records with both, each FirstBufferRecord of the pools it was taken from, the first no longer named by the buffer; an out-of-memory throw leaves the table unchanged and the pools only grown, with both flags the first record still taken |
| BackendResources.Backend.DeleteBuffer | renderer/d3d12/backend_d3d12.cpp:807-815 | delete_buffer always releases the buffer's one CBV/SRV/UAV record, whatever flags it was created with, and the pools become Returned of that release; then its memory is released and leaves the live memory; then the slot is erased |
| BackendResources.Backend.AllocateCbv | renderer/d3d12/backend_d3d12.cpp:395-425 | a CBV/SRV/UAV request throws exactly when SelectPool finds no pool, changing nothing; otherwise it returns FirstBufferRecord, a record of a real pool, and only that pool gains it |
| BackendResources.BufferStepsCompose | renderer/d3d12/backend_d3d12.cpp:782-801 | the constant-buffer request and then the unordered-access request of create_buffer, each taking FirstBufferRecord of the pools it sees, leave exactly BufferCreated's record and pools, with the second record pinned to the pools after the first and use one token per flag |
| BackendResources.DeleteBufferAfterCreate | renderer/d3d12/backend_d3d12.cpp:745-815 | delete_buffer after create_buffer: with one view flag the pools end as they were; with both the constant-buffer record stays taken for good, so the pools differ; with neither the null record goes to pool 0 and nothing changes |
| BackendSubmission.QueueIndex | renderer/d3d12/backend_d3d12.cpp:1374-1381 | get_queue_index gives queue 1 exactly for Copy, 2 exactly for Compute, and 0 for Graphics and every other value |
| BackendSubmission.ListTypeFor | renderer/d3d12/backend_d3d12.cpp:1688-1695 | get_command_list_type gives COPY exactly for Copy, COMPUTE exactly for Compute, and DIRECT otherwise |
| BackendSubmission.Prologue | renderer/d3d12/backend_d3d12.cpp:1722-1731 | reset binds descriptor heaps exactly on a direct list |
| BackendSubmission.AfterRecord | renderer/d3d12/backend_d3d12.cpp:1736-1741 | after any recording call the encoder is reset; on an encoder that was already reset the call only appends its command |
| BackendSubmission.RecordingAfterSubmitResetsOnce | renderer/d3d12/backend_d3d12.cpp:1714-1741 | after a submit, recording any non-empty sequence of commands resets the list exactly once: the list is the reset prologue followed by the commands |
| BackendSubmission.Encoder.constructor | renderer/d3d12/backend_d3d12.cpp:1686-1712 | a new encoder has its list type from its flags, is not reset and holds no commands |
| BackendSubmission.Encoder.Reset | renderer/d3d12/backend_d3d12.cpp:1714-1734 | reset requires that the encoder is not reset yet; afterwards it is reset and its list holds only the prologue |
| BackendSubmission.Encoder.Record | renderer/d3d12/backend_d3d12.cpp:1736-1741 | a recording method changes the encoder as AfterRecord says |
| BackendSubmission.SignalsOnAppend | renderer/d3d12/backend_d3d12.cpp:1399 | the values signalled on queue q grow by a signal's value exactly when the appended operation is a signal on q |
| BackendSubmission.SignalsOnOther | renderer/d3d12/backend_d3d12.cpp:1391 | an operation that is not a signal on q leaves q's signalled values unchanged |
| BackendSubmission.Counted | renderer/d3d12/backend_d3d12.cpp:492 | a counter that starts at 0 hands out n values in n calls |
| BackendSubmission.CountedValues | renderer/d3d12/backend_d3d12.cpp:1393-1401 | the k-th value a queue's counter hands out is k modulo 2^64: results on one queue are 0, 1, 2, … |
| BackendSubmission.CountedDistinct | renderer/d3d12/backend_d3d12.cpp:1393-1401 | before the counter wraps, the values handed out on one queue are distinct |
| BackendSubmission.IsCompleted | renderer/d3d12/backend_d3d12.cpp:1456-1459 | is_completed indexes the fences with the raw flag value: a graphics result is read from the copy queue's fence, a copy result from the compute queue's, and a compute result (flag 4) indexes past the three fences |
| BackendSubmission.WaitBlocks | renderer/d3d12/backend_d3d12.cpp:1450 | wait blocks exactly when the fence of the result's own queue has completed less than the value |
| BackendSubmission.IsCompletedDisagreesWithWait | renderer/d3d12/backend_d3d12.cpp:1439-1459 | for a graphics or copy result there is a completion state in which is_completed answers true while wait blocks |
| BackendSubmission.SignalKeepsCounting | renderer/d3d12/backend_d3d12.cpp:1393-1401 | signalling a queue with its counter and then incrementing it keeps the invariant that each queue's signals are exactly the values it has counted |
| BackendSubmission.Backend.constructor | renderer/d3d12/backend_d3d12.cpp:492 | every fence counter starts at 0, with no queue operations and no batch |
| BackendSubmission.Backend.SignalAndCount | renderer/d3d12/backend_d3d12.cpp:1393-1401 | the queue is signalled with its current counter, which is returned, and then only that counter is incremented modulo 2^64 |
| BackendSubmission.Backend.Note | renderer/d3d12/backend_d3d12.cpp:1391 | a queue operation that is not a signal is logged and changes no counter |
| BackendSubmission.Backend.CloseEncoders | renderer/d3d12/backend_d3d12.cpp:1383-1389 | the batch is cleared and then holds, in order, each encoder's list, or for submit_after the address of each encoder's list holder; every encoder loses is_reset and keeps its commands |
| BackendSubmission.Backend.Submit | renderer/d3d12/backend_d3d12.cpp:1372-1403 | submit executes the encoders' lists on the flags' queue, signals that queue's counter and returns it with the flags, then increments only that counter |
| BackendSubmission.Backend.SubmitAfter | renderer/d3d12/backend_d3d12.cpp:1405-1437 | the queue first waits on the fence of the earlier result's queue for the earlier value, then executes a batch of the addresses of the encoders' list holders (line 1421), then signals and increments as submit does |
| BackendSubmission.SubmitAfterPassesHolders | renderer/d3d12/backend_d3d12.cpp:1385-1422 | for any non-empty run of encoders submit and submit_after pass different batches, and no entry submit_after passes is a command list |
| BackendSubmission.Backend.Wait | renderer/d3d12/backend_d3d12.cpp:1439-1454 | the host waits on the result's queue exactly when WaitBlocks; no counter changes |
| BackendSubmission.Backend.IdleQueue | renderer/d3d12/backend_d3d12.cpp:1463-1473 | one flagged queue of wait_for_idle is signalled with its counter, waited on, then incremented; an unflagged one is left alone |
| BackendSubmission.Backend.WaitForIdle | renderer/d3d12/backend_d3d12.cpp:1461-1498 | the counters and the log become IdleValues and IdleLog of the old counters |
| BackendSubmission.IdleStep | renderer/d3d12/backend_d3d12.cpp:1463-1473 | one queue's part of wait_for_idle keeps the number of counters |
| BackendSubmission.IdleStepKeeps | renderer/d3d12/backend_d3d12.cpp:1465 | one queue's part of wait_for_idle leaves every other counter alone |
| BackendSubmission.IdleValues | renderer/d3d12/backend_d3d12.cpp:1461-1498 | wait_for_idle keeps three counters |
| BackendSubmission.IdleTouchesFlaggedQueues | renderer/d3d12/backend_d3d12.cpp:1461-1498 | wait_for_idle raises, by one, exactly the counters of the queues whose bit is in the flags; for each of them, in queue order, it signals the old value and waits on the host for it |
| DescriptorLayouts.KindOf | renderer/d3d12/backend_d3d12.cpp:981-989 | get_descriptor_range_type maps the four range types one to one onto SRV, CBV, UAV and sampler |
| DescriptorLayouts.VisibilityOf | renderer/d3d12/backend_d3d12.cpp:991-1001 | get_shader_visibility maps All, Vertex and Pixel exactly onto ALL, VERTEX and PIXEL |
| DescriptorLayouts.Layout | renderer/d3d12/backend_d3d12.cpp:1016-1025 | one range per description, in order |
| DescriptorLayouts.CountersStep | renderer/d3d12/backend_d3d12.cpp:1024 | after range i, each of the four counters of index_ranges holds the total count of its kind in ranges 0..i, modulo 2^32 |
| DescriptorLayouts.AssignRegisters | renderer/d3d12/backend_d3d12.cpp:1010-1034 | the loop with its four counters starting at 0 builds Layout: range i of kind k starts at the total count of the earlier ranges of kind k, modulo 2^32; the older backend runs the same loop with the same per-kind running counters (renderer/backend_d3d12.cpp lines 832-856), so it builds the same Layout |
| DescriptorLayouts.RegistersMonotone | renderer/d3d12/backend_d3d12.cpp:1024 | a kind's running total only grows along the list |
| DescriptorLayouts.RegistersCover | renderer/d3d12/backend_d3d12.cpp:1021-1024 | range i's count is included in every later total of its kind |
| DescriptorLayouts.RegistersStep | renderer/d3d12/backend_d3d12.cpp:1019-1024 | one more range adds its count to the running total of its own kind and leaves the other kinds' totals alone |
| DescriptorLayouts.SameKindRangesDoNotOverlap | renderer/d3d12/backend_d3d12.cpp:1016-1025 | while no counter wraps, two ranges of the same kind get disjoint register intervals, the earlier one below the later |
| DescriptorLayouts.FirstOfKindStartsAtZero | renderer/d3d12/backend_d3d12.cpp:1011-1014 | the first range of each kind starts at register 0, whatever index its description names |
| DescriptorLayouts.NoneOfKind | renderer/d3d12/backend_d3d12.cpp:1011-1014 | a kind no range has keeps total 0 |
| DescriptorLayouts.LayoutIgnoresIndex | renderer/d3d12/backend_d3d12.cpp:1018-1022 | the layout reads only each description's type, count and stages: two lists that differ only in their register indices give the same layout |
| DescriptorLayouts.RegistersAgree | renderer/d3d12/backend_d3d12.cpp:1019-1024 | the totals depend only on the types and counts of the ranges |
| DescriptorLayouts.PbrLayoutRegisters | renderer/world_renderer.cpp:108-113 | the world renderer's layout (two constant buffers, two and then one shader resources, one sampler, declared with indices 0, 2, 4, 5) gets b0, t0, t2 and s0 |
| DescriptorLayouts.OffsetStep | renderer/d3d12/backend_d3d12.cpp:1779 | the offset of table i + 1 is that of table i plus range i's count |
| DescriptorLayouts.OffsetMonotone | renderer/d3d12/backend_d3d12.cpp:1779 | the offsets of later tables are never smaller |
| DescriptorLayouts.LayoutTotal | renderer/d3d12/backend_d3d12.cpp:1020 | a layout declares exactly as many descriptors as its descriptions count |
| DescriptorSets.CreateBindings | renderer/d3d12/backend_d3d12.cpp:1290-1297 | create_descriptor_set makes exactly ΣNumDescriptors bindings, all of them the default (null) record |
| DescriptorSets.ApplyWrites | renderer/d3d12/backend_d3d12.cpp:1312-1334 | the writes keep the number of bindings |
| DescriptorSets.UpdateBindings | renderer/d3d12/backend_d3d12.cpp:1312-1334 | the update loop gives ApplyWrites: each write overwrites bindings[index] in turn |
| DescriptorSets.LastWrite | renderer/d3d12/backend_d3d12.cpp:1333 | the answer is the position of the last write to binding k; None means that no write names k |
| DescriptorSets.WriteOutcome | renderer/d3d12/backend_d3d12.cpp:1312-1334 | later writes win and nothing else changes: a binding no write names keeps its record, a written one holds the record of its last write |
| DescriptorSets.TextureWithoutViewWritesNull | renderer/d3d12/backend_d3d12.cpp:1317-1320 | writing a texture that has no shader view stores the null record |
| DescriptorSets.CopyRange | renderer/d3d12/backend_d3d12.cpp:1769-1777 | the copy loop of table i reads the bindings from binding_count on, one per descriptor of the range |
| DescriptorSets.BindTables | renderer/d3d12/backend_d3d12.cpp:1751-1786 | bind_descriptor_set gives root table i the records from the total of the earlier ranges on, with the heap its range type uses |
| DescriptorSets.CreatedBindingsAreInRange | renderer/d3d12/backend_d3d12.cpp:1751-1779 | for a binding list of create_descriptor_set's size under 2^32 descriptors every table reads in range, table i from the total of the earlier tables on |
| DescriptorSets.TablesCoverPrefix | renderer/d3d12/backend_d3d12.cpp:1753-1779 | the first n tables, read in order, are the bindings up to the offset of table n |
| DescriptorSets.TablesPartitionBindings | renderer/d3d12/backend_d3d12.cpp:1290-1297 | the tables partition the bindings: read in root-table order they are the set's bindings, each exactly once |
| DescriptorSets.SamplerTablesCopiedAsCbvSrvUav | renderer/d3d12/backend_d3d12.cpp:1764-1776 | a sampler table comes from the sampler range allocator, but the descriptor copies into it name the CBV/SRV/UAV heap type |
| Pipelines.SlotSumStep | renderer/d3d12/backend_d3d12.cpp:1156 | one more input adds its stride to its own slot's sum only |
| Pipelines.Accumulate | renderer/d3d12/backend_d3d12.cpp:1146-1157 | starting from any strides, the loop leaves each slot's start value plus the strides of the inputs naming it, modulo 2^32 |
| Pipelines.VertexStrides | renderer/d3d12/backend_d3d12.cpp:1144-1157 | after the fill(0) and the loop each slot's stride is the sum, modulo 2^32, of the strides of the inputs in that slot |
| Pipelines.LegacyVertexStrides | renderer/backend_d3d12.cpp:963-975 | the older backend adds the strides onto whatever the uninitialised array held |
| Pipelines.LegacyStridesNeedZeroedMemory | renderer/backend_d3d12.cpp:963-975 | the older backend's strides are the sums exactly when the memory it started from held zeros in every slot |
| Pipelines.UnusedSlotHasZeroStride | renderer/d3d12/backend_d3d12.cpp:1144 | a slot no input names keeps stride 0 |
| Pipelines.SlotsTotalStep | renderer/d3d12/backend_d3d12.cpp:1156 | one more input adds its stride to the total over the slots below n exactly when its slot is below n |
| Pipelines.NoSlotsTotal | renderer/d3d12/backend_d3d12.cpp:1144 | with no inputs every slot total is 0 |
| Pipelines.SlotSumsAddUp | renderer/d3d12/backend_d3d12.cpp:1146-1157 | every stride goes to exactly one slot: the slot sums add up to the sum of all strides |
| Pipelines.CreatePipeline | renderer/d3d12/backend_d3d12.cpp:1144-1270 | the strides are VertexStrides'; a cache key that is found supplies its blob and leaves the cache alone, an absent key stores the new blob, and no key touches nothing |
| Pipelines.PublicCreatePipeline | renderer/d3d12/backend_d3d12.cpp:1599-1611 | the public create_pipeline drops the cache key, so the cache is neither read nor written |
| ShaderCaches.LittleEndian | renderer/d3d12/backend_d3d12.cpp:370-383 | memcpy of an n-byte integer writes n bytes |
| ShaderCaches.FromLittleEndian | renderer/d3d12/backend_d3d12.cpp:370-383 | n little-endian bytes denote a number below 256^n |
| ShaderCaches.LittleEndianRoundTrip | renderer/d3d12/backend_d3d12.cpp:370-383 | reading back the n bytes written for a number below 256^n gives the number |
| ShaderCaches.MagicIsD3D1 | renderer/d3d12/backend_d3d12.cpp:184 | the magic is stored as the bytes 'D', '3', 'D', '1' |
| ShaderCaches.EncodeEntry | renderer/d3d12/backend_d3d12.cpp:378-384 | an entry takes 4 bytes of id, 8 bytes of size and its blob bytes |
| ShaderCaches.EncodedSize | renderer/d3d12/backend_d3d12.cpp:351-366 | the bytes written are exactly total_bytes long: 8 + Σ(12 + blob size) |
| ShaderCaches.EncodeFrontIsEncode | renderer/d3d12/backend_d3d12.cpp:376-385 | writing the entries front to back gives the same bytes as appending them one by one |
| ShaderCaches.EntryFields | renderer/d3d12/backend_d3d12.cpp:378-384 | an entry's id, size and blob read back from its bytes, and the rest follows them |
| ShaderCaches.DecodeEncodeEntries | renderer/d3d12/backend_d3d12.cpp:376-385 | reading the entry bytes back gives the entries, in order |
| ShaderCaches.HeaderFields | renderer/d3d12/backend_d3d12.cpp:370-374 | the magic and the count read back from the first 8 bytes |
| ShaderCaches.SerializeRoundTrip | renderer/d3d12/backend_d3d12.cpp:349-388 | the layout is lossless: with fewer than 2^32 entries, reading back what serialize_shader_cache writes gives the entries in the order it wrote them |
| ShaderCaches.EntriesRoundTrip | renderer/d3d12/backend_d3d12.cpp:376-385 | the entry bytes alone read back as the entries |
| ShaderCaches.IdsOfDistinct | renderer/d3d12/backend_d3d12.cpp:372 | entries with distinct ids have as many ids as entries |
| ShaderCaches.IdsMembers | renderer/d3d12/backend_d3d12.cpp:376 | the ids of a walk are the ids of its entries and nothing else |
| ShaderCaches.NotAmongIds | renderer/d3d12/backend_d3d12.cpp:376 | an identifier that no entry of the walk carries is not among its ids |
| ShaderCaches.EnumerationCountsEntries | renderer/d3d12/backend_d3d12.cpp:372-376 | the count field is the size of the map: walking it yields exactly that many entries |
| ShaderCaches.ShaderCache.constructor | renderer/d3d12/backend_d3d12.cpp:186 | the cache starts empty |
| ShaderCaches.ShaderCache.Create | renderer/d3d12/backend_d3d12.cpp:1240-1270 | a found key supplies its blob as the cached state and leaves the map alone; an absent key stores the new state's blob; no key touches nothing |
| ShaderCaches.ShaderCache.Serialize | renderer/d3d12/backend_d3d12.cpp:349-388 | the bytes are Encode of the entries in the order the map is walked, and the returned count is their length, 8 + Σ(12 + size) |
| ShaderCaches.CountBytes | renderer/d3d12/backend_d3d12.cpp:351-364 | the first loop computes 8 + Σ(12 + blob size) |
| ShaderCaches.WriteBytes | renderer/d3d12/backend_d3d12.cpp:366-385 | the header and the second loop write the magic, the count modulo 2^32 and each entry's id, size and blob |
| ShaderCaches.HitOrNoKeyKeepsCache | renderer/d3d12/backend_d3d12.cpp:1242-1270 | a hit or no key leaves the cache unchanged |
| ShaderCaches.MissThenHit | renderer/d3d12/backend_d3d12.cpp:1263-1269 | after a miss the key holds the new blob, and the next creation with that key is a hit that returns it, whatever blob the driver makes then |
| ShaderCaches.StoredBlobIsStable | renderer/d3d12/backend_d3d12.cpp:1240-1270 | once stored, a key's blob never changes, whatever creations follow |
| ShaderCaches.Deserialize | renderer/d3d12/backend_d3d12.cpp:390-393 | deserialize_shader_cache accepts every input and loads nothing |
| MemoryPools.DefaultHeapHoldsWholeBlocks | lgfx/d3d12/memory_pool.h:10-11 | the default heap size is exactly 256 default blocks of 1 MiB, with nothing left over |
| MemoryPools.FreeCount | lgfx/d3d12/memory_pool.cpp:69-82 | the count of free flags the scan keeps never exceeds the number of blocks |
| MemoryPools.FirstFree | lgfx/d3d12/memory_pool.cpp:69-82 | the block the scan starts marking from is free, and every block before it is in use; it is the block count when no block is free |
| MemoryPools.Fill | lgfx/d3d12/memory_pool.cpp:71 | the memset sets exactly the flags of the n blocks from `from` to the value and keeps every other flag |
| MemoryPools.FreeCountStep | lgfx/d3d12/memory_pool.cpp:80-81 | one more block raises the count by one exactly when that block is free |
| MemoryPools.FreeCountBeforeFirst | lgfx/d3d12/memory_pool.cpp:69-82 | no free block is counted before the first free one; after it the counted blocks all lie between the first free block and the current one |
| MemoryPools.FreeCountMonotone | lgfx/d3d12/memory_pool.cpp:80-81 | the running count never decreases along the heap |
| MemoryPools.FreeCountReaches | lgfx/d3d12/memory_pool.cpp:69-82 | the running count passes through every value up to its final one, so a request of k free blocks is met at some block |
| MemoryPools.AfterScan | lgfx/d3d12/memory_pool.cpp:68-87 | the scan of one heap keeps the number of blocks and changes only the marked run |
| MemoryPools.FirstFit | lgfx/d3d12/memory_pool.cpp:64-91 | the heap chosen is the first one, in creation order, whose cursor leaves room and whose scan succeeds; none before it fits, and none at all when nothing is chosen |
| MemoryPools.AfterAllocate | lgfx/d3d12/memory_pool.cpp:59-99 | after an allocation only the chosen heap's flags differ, every heap keeps its block count and no heap's cursor moves |
| MemoryPools.ZeroSizeNeverFits | lgfx/d3d12/memory_pool.cpp:69-87 | a request of 0 bytes never finds a heap, because the empty count already matches at block 0, before any heap is recorded |
| MemoryPools.AllocationMayCoverUsedBlock | lgfx/d3d12/memory_pool.cpp:69-82 | the counted free blocks need not be contiguous: free, used, free gives a two-block record at offset 0 whose marking covers the used block 1 and leaves block 2 free |
| MemoryPools.NoFreeInUsed | lgfx/d3d12/memory_pool.cpp:80-81 | a run of used blocks contributes nothing to the count |
| MemoryPools.LastBlockIsNeverMarked | lgfx/d3d12/memory_pool.cpp:74-87 | when only the last block is free, a one-block request succeeds at the last block without marking it, so the heap is unchanged |
| MemoryPools.UnmarkedAllocationRepeats | lgfx/d3d12/memory_pool.cpp:59-99 | an allocation whose scan does not mark leaves every heap as it was, so the next identical request picks the same heap again |
| MemoryPools.DeallocateUndoesMarking | lgfx/d3d12/memory_pool.cpp:101-105 | deallocating a fresh record restores the flags exactly when all the blocks it covers were free before the allocation |
| MemoryPools.DeclaredRecordLosesSize | lgfx/d3d12/memory_pool.h:39-48 | the record the header declares, heap and offset only, is the same for two allocations of different sizes that the implementation's record tells apart |
| MemoryPools.HeapCount | lgfx/d3d12/memory_pool.cpp:47-57 | a pool gets at least one heap, one heap for a size up to the default heap size, and otherwise the floor of size over the heap size |
| MemoryPools.MemoryHeap.constructor | lgfx/d3d12/memory_pool.cpp:10-26 | a new heap has 256 free blocks and its cursor at 0 |
| MemoryPools.MemoryHeap.Scan | lgfx/d3d12/memory_pool.cpp:68-87 | the scan succeeds exactly as the scan specification says, reports the first free block's byte offset, and leaves the flags as AfterScan gives them |
| MemoryPools.MemoryHeap.Mark | lgfx/d3d12/memory_pool.cpp:71 | the heap's flags become the memset of n ones from block `from` |
| MemoryPools.ScanStopsBeforeEnd | lgfx/d3d12/memory_pool.cpp:73-79 | a count that reaches k blocks before the last block makes the scan mark, and the marked run lies before that block |
| MemoryPools.ScanRunsToEnd | lgfx/d3d12/memory_pool.cpp:83-87 | a count that never equals the request before the last block never marks, and the scan succeeds exactly when the whole heap's count equals the request |
| MemoryPools.MemoryPool.States | lgfx/d3d12/memory_pool.h:29-36 | the pool's state is the sequence of its heaps' flags and cursors, one per heap |
| MemoryPools.MemoryPool.constructor | lgfx/d3d12/memory_pool.cpp:47-57 | a new pool has HeapCount(size) fresh heaps, all blocks free and every cursor at 0, and keeps its type and flags |
| MemoryPools.MemoryPool.Allocate | lgfx/d3d12/memory_pool.cpp:59-99 | allocation fails with "Memory Pool error" exactly when no heap fits, always for 0 bytes; otherwise it returns the first fitting heap and its first free block's offset, and the heaps become AfterAllocate of the old ones |
| MemoryPools.MemoryPool.ScanHeap | lgfx/d3d12/memory_pool.cpp:68-87 | scanning heap i changes only that heap's flags, as AfterScan of its old flags |
| MemoryPools.MemoryPool.Deallocate | lgfx/d3d12/memory_pool.cpp:101-105 | deallocation clears exactly the record's blocks and moves the heap's cursor to the record's offset |
| LgfxTypes.OrdinalsIdentify | lgfx/types.h:228-239 | two load ops, or two store ops, with the same ordinal are the same enumerator |
| LgfxTypes.LexIrreflexive | lgfx/types.h:304-307 | no tuple is less than itself under the lexicographic tuple order |
| LgfxTypes.LexTransitive | lgfx/types.h:304-307 | the lexicographic tuple order is transitive |
| LgfxTypes.LexTotal | lgfx/types.h:304-307 | any two different tuples of the same length are ordered one way or the other |
| LgfxTypes.ColorKey | lgfx/types.h:298-307 | the tuple a colour description is compared by has its three fields |
| LgfxTypes.DepthStencilKey | lgfx/types.h:310-322 | the tuple a depth-stencil description is compared by has its five fields |
| LgfxTypes.ColorKeyInjective | lgfx/types.h:298-307 | two colour descriptions with the same tuple are equal, so the tuple loses nothing |
| LgfxTypes.DepthStencilKeyInjective | lgfx/types.h:310-322 | two depth-stencil descriptions with the same tuple are equal |
| LgfxTypes.ColorLessIsStrictTotalOrder | lgfx/types.h:298-307 | RenderPassColorDesc's operator< is irreflexive, transitive and total on different descriptions, so it is a valid key order for ordered containers |
| LgfxTypes.DepthStencilLessIsStrictTotalOrder | lgfx/types.h:310-322 | RenderPassDepthStencilDesc's operator< is irreflexive, transitive and total on different descriptions |
| LgfxTypes.FormatDecidesFirst | lgfx/types.h:304-307 | a colour description with a smaller format is less than one with a larger format, whatever their load and store ops |
| LgfxTypes.FlagsAreDistinctBits | lgfx/types.h:77-95 | every buffer flag and every texture flag is a single bit, and two different flags of the same kind share no bit |
| LegacyBackends.ViewOrder | renderer/backend_d3d12.cpp:412-517 | a texture gets one view for each of its depth-stencil, render-target and shader-resource flags, none for unordered access, created depth-stencil first, then render-target, then shader-resource |
| LegacyBackends.Slots | renderer/backend_d3d12.cpp:409 | the texture's descriptor array always has two entries |
| LegacyBackends.CreateTextureViews | renderer/backend_d3d12.cpp:409-522 | a depth-stencil texture of three dimensions trips the unsupported-dimension assertion; otherwise three views would be written past the two-entry array; otherwise the count is the number of views and the array holds them in creation order |
| LegacyBackends.FirstSlotIsFirstView | renderer/backend_d3d12.cpp:412-517 | entry 0 of the array holds the depth-stencil view if there is one, else the render-target view, else the shader-resource view, else nothing |
| LegacyBackends.EntryZeroMatchesItsUse | renderer/backend_d3d12.cpp:639-677 | render passes and write_descriptor_set read entry 0; it holds the render-target view exactly for a render target without depth-stencil, and the shader-resource view exactly for a texture with neither of those flags |
| LegacyBackends.SlotsKeepCreatedViews | renderer/backend_d3d12.cpp:409-522 | an entry of the array holds a view exactly when that many views were created |
| LegacyBackends.HeapOf | renderer/backend_d3d12.cpp:1080-1089 | a range's descriptors come from the sampler heap exactly for sampler ranges, and from the CBV/SRV/UAV heap otherwise |
| LegacyBackends.RequestsStep | renderer/backend_d3d12.cpp:1074-1093 | one more range appends its descriptor count of allocations from that range's heap |
| LegacyBackends.CreateDescriptorSet | renderer/backend_d3d12.cpp:1068-1100 | the nested loops request, range by range, one descriptor per declared descriptor from the range's heap |
| LegacyBackends.RequestsLayout | renderer/backend_d3d12.cpp:1068-1100 | a set has as many descriptors as its layout declares, and descriptor j of range i sits at the range's offset plus j, in the range's heap |
| LegacyBackends.RequestsCount | renderer/backend_d3d12.cpp:1074-1093 | the number of descriptors requested is the sum of the ranges' counts |
| LegacyBackends.BindDescriptorSet | renderer/backend_d3d12.cpp:1173-1211 | there is one table per range, at root index i, reading the descriptor at the sum of the earlier ranges' counts with the increment size of the range's own heap |
| LegacyBackends.BoundTablesReadTheirRange | renderer/backend_d3d12.cpp:1173-1211 | for a set from create_descriptor_set, every non-empty range's table reads the first descriptor of that range, from the heap its increment size belongs to |
| LegacyBackends.EmptyRangeReadsWhatFollows | renderer/backend_d3d12.cpp:1180-1207 | an empty range's table reads at the same position as the next range, so the next range's first descriptor when that range is non-empty |
| LegacyBackends.TrailingEmptyRangeReadsPastEnd | renderer/backend_d3d12.cpp:1180-1207 | an empty last range's table reads past the end of the set's descriptors |
| LegacyBackends.Resized | renderer/backend_d3d12.cpp:230-237 | resizing keeps the existing frames and fills the rest with default-constructed ones |
| LegacyBackends.FreshFrames | renderer/backend_d3d12.cpp:228-340 | set up from empty vectors, every frame has closed lists, fence counters of 1 and a 64 MiB host-writable upload buffer at offset 0 |
| LegacyBackends.WithList | renderer/backend_d3d12.cpp:1397-1426 | changing one list's state leaves the frame's other lists, fence counters and upload buffer as they were |
| LegacyBackends.LegacyBackend.constructor | renderer/backend_d3d12.cpp:221-223 | a new backend has swap index 0, no current list and the requested number of fresh frames |
| LegacyBackends.LegacyBackend.CreateSwapchainResources | renderer/backend_d3d12.cpp:228-340 | the frame vectors get the requested size and every frame is set up by one loop iteration; the swap index and current list are kept |
| LegacyBackends.LegacyBackend.BeginContext | renderer/backend_d3d12.cpp:1397-1420 | the current list becomes the given type's list at the swap index; a failing allocator or list reset throws with the current list set; otherwise that list records |
| LegacyBackends.LegacyBackend.EndContext | renderer/backend_d3d12.cpp:1422-1426 | a failing Close throws and changes nothing; otherwise the current list is closed and the current list cleared |
| DX12Devices.Bump | renderer/rhi/dx12/device.cpp:258 | a uint64 fence value increment adds one whenever it does not wrap |
| DX12Devices.FirstStop | renderer/rhi/dx12/device.cpp:36-49 | the enumeration stops at the first adapter whose description fails or that is not a software adapter; every adapter before it is a software adapter whose description succeeded |
| DX12Devices.AdapterChoice | renderer/rhi/dx12/device.cpp:33-50 | the adapter kept is the first non-software one, with only software adapters before it; none is kept exactly when every adapter is a software one with a good description; a failing GetDesc1 throws that HRESULT's message |
| DX12Devices.ChooseAdapter | renderer/rhi/dx12/device.cpp:36-49 | the enumeration loop returns exactly the choice AdapterChoice describes |
| DX12Devices.ListTypeFor | renderer/rhi/dx12/device.cpp:139-159 | Graphics, Copy and Compute map to the DIRECT, COPY and COMPUTE list types, and every other buffer type, and only those, to the BUNDLE type |
| DX12Devices.QueueFor | renderer/rhi/dx12/device.cpp:233-251 | every list type but BUNDLE has one of the three queues; a BUNDLE has none and trips the assertion |
| DX12Devices.SubmittedToItsOwnQueue | renderer/rhi/dx12/device.cpp:56-76 | a graphics, copy or compute buffer is submitted to the queue that was created for its own list type |
| DX12Devices.Initial | renderer/rhi/dx12/device.cpp:74 | the state after construction has three counters and one present value per frame, all 0 |
| DX12Devices.Submit | renderer/rhi/dx12/device.cpp:258-260 | a submission raises one queue's counter and keeps the state well formed; SubmitSignalsNext states what it changes |
| DX12Devices.Idle | renderer/rhi/dx12/device.cpp:263-275 | wait_for_idle raises each of the three counters once |
| DX12Devices.Presented | renderer/rhi/dx12/device.cpp:298-306 | after present the current frame's present value is the queue-0 counter just raised |
| DX12Devices.Request | renderer/rhi/dx12/device.cpp:278-296 | the requested frame becomes current and its present value becomes the next frame's value plus one; the counters do not change |
| DX12Devices.Resize | renderer/rhi/dx12/device.cpp:308-316 | after a resize every present value is 0 |
| DX12Devices.WaitFor | renderer/rhi/dx12/device.cpp:270-274 | the host does not wait exactly when the fence has already reached the value, and waits forever exactly when the value is ahead of both what was completed and what was ever signalled |
| DX12Devices.InitialSettled | renderer/rhi/dx12/device.cpp:74 | a new device is settled: no present value is ahead of the queue-0 counter |
| DX12Devices.SettledRequestReturns | renderer/rhi/dx12/device.cpp:278-296 | from a settled state the request's wait always ends, and only the current frame may then be one ahead of the queue-0 counter |
| DX12Devices.SubmitsKeepPending | renderer/rhi/dx12/device.cpp:225-261 | a run of submissions keeps that pending state, raises each counter by at most the number of submissions and leaves the present values and the current frame alone |
| DX12Devices.SubmitAll | renderer/rhi/dx12/device.cpp:225-261 | a run of submissions keeps the state well formed |
| DX12Devices.PresentSettles | renderer/rhi/dx12/device.cpp:298-306 | present after a request settles the device again |
| DX12Devices.FrameKeepsPacing | renderer/rhi/dx12/device.cpp:225-306 | one frame of request, submissions and present never blocks forever and leaves the device settled, as long as the counters do not wrap |
| DX12Devices.DoubleRequestHangs | renderer/rhi/dx12/device.cpp:282-290 | two requests for the same back buffer without a present between them, right after construction with two frames, wait for a value queue 0 was never signalled |
| DX12Devices.ResizeSettles | renderer/rhi/dx12/device.cpp:308-316 | a resize settles the device from any state |
| DX12Devices.SubmitSignalsNext | renderer/rhi/dx12/device.cpp:258-260 | a submission raises its own queue's counter by exactly one and leaves the other two counters alone |
| DX12Devices.Device.PresentValues | renderer/rhi/dx12/device.cpp:289-305 | there is one present value per frame |
| DX12Devices.Device.constructor | renderer/rhi/dx12/device.cpp:56-122 | a new device has DIRECT, COPY and COMPUTE queues with counter 0 and one frame per swapchain buffer with present value 0, and is in the initial pacing state |
| DX12Devices.Device.AllocateCommandBuffer | renderer/rhi/dx12/device.cpp:137-163 | the buffer has the mapped list type and comes from the current frame's allocator, is reset before it is returned, and no fence state changes |
| DX12Devices.Device.SubmitCommandLists | renderer/rhi/dx12/device.cpp:225-261 | every list joins the batch; a first buffer of a supported type runs the batch on its queue, clears the batch and signals the raised counter; a BUNDLE first trips the assertion with the lists added and nothing executed |
| DX12Devices.Device.IdleQueue | renderer/rhi/dx12/device.cpp:265-274 | one queue's counter is raised and signalled, and the host waits for it only when the fence reports less |
| DX12Devices.Device.WaitForIdle | renderer/rhi/dx12/device.cpp:263-276 | every counter is raised and signalled in queue order, each wait is for the value just signalled, and the state becomes Idle of the old one |
| DX12Devices.Device.RequestNextSwapchainBuffer | renderer/rhi/dx12/device.cpp:278-296 | the frame named by the swapchain becomes current; the host waits as WaitFor says; unless that blocks forever, the pacing state becomes Request of the old one, the frame's allocator and the upload context are reset, and its texture is returned |
| DX12Devices.Device.Present | renderer/rhi/dx12/device.cpp:298-306 | the swapchain presents, the queue-0 counter is raised and signalled, and the pacing state becomes Presented of the old one |
| DX12Devices.Device.ResizeSwapchainBuffers | renderer/rhi/dx12/device.cpp:308-333 | wait_for_idle runs, every present value becomes 0, the buffers are resized and every frame gets a new texture |
| ConcurrentQueues.Next | lib/concurrent_queue.h:53 | the next index of a ring of Capacity slots stays in the ring and is the index plus one, modulo Capacity |
| ConcurrentQueues.Count | lib/concurrent_queue.h:82-100 | the number of slots from head to tail going round the ring is less than Capacity |
| ConcurrentQueues.At | lib/concurrent_queue.h:86-87 | the slot k places after head stays in the ring and is head plus k, modulo Capacity |
| ConcurrentQueues.Contents | lib/concurrent_queue.h:105-108 | the queued elements are the slots from head up to tail, going round the ring, in that order |
| ConcurrentQueues.FullIffSizeElements | lib/concurrent_queue.h:52-61 | try_push's guard fails exactly when the ring holds Size elements, one less than its Capacity of Size + 1 slots |
| ConcurrentQueues.EmptyIffHeadIsTail | lib/concurrent_queue.h:78-95 | head equals tail exactly when the ring holds no element |
| ConcurrentQueues.PushAppends | lib/concurrent_queue.h:55-58 | storing at tail and advancing tail appends the element at the back of the queue when the ring is not full |
| ConcurrentQueues.PopDropsFirst | lib/concurrent_queue.h:86-87 | advancing head removes exactly the oldest element |
| ConcurrentQueues.UnsignedSize | lib/concurrent_queue.h:97-101 | size() in size_t arithmetic is tail - head while tail is not behind head, and wraps to 2^64 - (head - tail) once it is |
| ConcurrentQueues.SizeAfterWrap | lib/concurrent_queue.h:97-101 | size() is the element count while tail is not behind head; once tail wraps behind head it is the count plus 2^64 - Capacity, far more than Size |
| ConcurrentQueues.ConcurrentQueue.Elements | lib/concurrent_queue.h:105-108 | a queue never holds more than Size elements |
| ConcurrentQueues.ConcurrentQueue.constructor | lib/concurrent_queue.h:15-18 | a new queue has Capacity slots, head and tail at 0, and no elements |
| ConcurrentQueues.ConcurrentQueue.Moved | lib/concurrent_queue.h:27-32 | the move constructor gives a queue with a fresh copy of the slots, the same head and tail, and so the same elements |
| ConcurrentQueues.ConcurrentQueue.TryPush | lib/concurrent_queue.h:50-76 | try_push succeeds exactly when fewer than Size elements are held, and then appends the element; when it fails nothing changes; the head never moves |
| ConcurrentQueues.ConcurrentQueue.TryPop | lib/concurrent_queue.h:78-89 | try_pop fails exactly when the queue is empty, and then nothing changes; otherwise it hands out the oldest element and drops it; the tail never moves |
| ConcurrentQueues.ConcurrentQueue.Empty | lib/concurrent_queue.h:91-95 | empty() holds exactly when head equals tail, which is exactly when no element is held |
| ConcurrentQueues.ConcurrentQueue.Size | lib/concurrent_queue.h:97-101 | size() is the unsigned difference: the element count while tail is not behind head, and otherwise the count plus 2^64 - Capacity |
| RefPtrs.RefCounted.constructor | core/ref_ptr.hpp:12-14 | a new object has reference count 0 |
| RefPtrs.RefCounted.Copied | core/ref_ptr.hpp:20-22 | the copy and move constructors take over the other object's count |
| RefPtrs.RefCounted.AssignCount | core/ref_ptr.hpp:24-32 | the copy and move assignments overwrite the count with the other object's count |
| RefPtrs.RefCounted.AddRef | core/ref_ptr.hpp:34-36 | add_ref increments the uint32 count, wrapping at 2^32, and returns the new count |
| RefPtrs.RefCounted.Release | core/ref_ptr.hpp:38-40 | release decrements the uint32 count and returns the new count; a count of 0 wraps to 2^32 - 1 |
| RefPtrs.RefPtr.Null | core/ref_ptr.hpp:58 | a pointer made from nullptr holds nothing |
| RefPtrs.RefPtr.constructor | core/ref_ptr.hpp:69-86 | a pointer made from a raw pointer, or copied from another, holds that object, which gains one reference when it is not null |
| RefPtrs.RefPtr.Converted | core/ref_ptr.hpp:75-80 | the converting move constructor asserts a non-null source, shares its object and adds a reference, and the source keeps its pointer |
| RefPtrs.RefPtr.Destroy | core/ref_ptr.hpp:60-67 | the destructor releases a held object once and deletes it exactly when the count reaches 0 |
| RefPtrs.RefPtr.Assign | core/ref_ptr.hpp:88-103 | assignment takes the source's object and adds a reference to it, the source keeps its pointer, and the object held before is not released |
| RefPtrs.RefPtr.Get | core/ref_ptr.hpp:105-118 | get, operator-> and operator& return the held object and demand it is not null |
| RefPtrs.RefPtr.ReleaseRef | core/ref_ptr.hpp:120-123 | ref_ptr::release decrements the count and returns the pointer, which is kept |
| RefPtrs.MakeRef | core/ref_ptr.hpp:134-138 | make_ref gives a fresh object held by one pointer, with count 1 |
| RefPtrs.SelfAssignment | core/ref_ptr.hpp:88-94 | assigning a pointer to itself adds a reference without releasing one, so a make_ref object ends with count 2 |
| RefPtrs.AssignmentLeaks | core/ref_ptr.hpp:60-94 | after assigning b to a and destroying both, a's old object keeps count 1 and is never deleted, while b's object is deleted |
| RefPtrs.ReleaseThenDestroy | core/ref_ptr.hpp:60-123 | release followed by the destructor counts down twice, so a make_ref object wraps to 2^32 - 1 and is never deleted |
| RefPtrs.CopyThenDestroyBoth | core/ref_ptr.hpp:60-86 | a copy destroyed before the original leaves the object alive, and destroying the original then deletes it |
| BufferPools.CreateBuffers | renderer/buffer_pool.h:36-70 | the constructor loop creates pool_size buffers, all with the same size, flags and stride, the i-th created i-th |
| BufferPools.Allocations | renderer/buffer_pool.h:46-50 | n allocations from a cursor give n results |
| BufferPools.AllocationsInOrder | renderer/buffer_pool.h:46-50 | between resets the k-th allocation returns the buffer k places after the cursor while that buffer exists, and every allocation after the last buffer throws |
| BufferPools.AllocationsDistinct | renderer/buffer_pool.h:37-50 | after a reset, two different successful allocations never hand out the same buffer |
| BufferPools.SBufferFlags | renderer/buffer_pool.h:64-68 | an SBuffer pool's buffers are shader resources, never constant buffers, and host-writable exactly when the pool is dynamic |
| BufferPools.BufferPool.CBuffer | renderer/buffer_pool.h:36-40 | a CBuffer pool holds pool_size constant buffers of DataSize bytes that are host-writable, whatever the usage, with the cursor at 0 |
| BufferPools.BufferPool.SBuffer | renderer/buffer_pool.h:62-70 | an SBuffer pool holds pool_size structured buffers of DataSize times element_count bytes with stride DataSize, with the cursor at 0 |
| BufferPools.BufferPool.Reset | renderer/buffer_pool.h:42-44 | reset puts the cursor back at the first buffer, keeps the buffers and keeps the pool valid, so allocate can be called after it |
| BufferPools.BufferPool.Allocate | renderer/buffer_pool.h:46-50 | allocate returns the buffer at the cursor and advances it; past the last buffer vector::at throws and the cursor stays |
| ShaderBinders.UniformWrites | renderer/shader_binder.cpp:15-36 | a Sampler2D uniform contributes a null-texture write at its index and a null-sampler write at index + 1; a CBuffer or SBuffer one null write at its index; RWBuffer and RWTexture2D none |
| ShaderBinders.Insert | renderer/shader_binder.cpp:17-27 | map::insert adds a missing key with the value and keeps the value of a key already present; no other key changes |
| ShaderBinders.Positions | renderer/shader_binder.cpp:13-39 | every location the constructor records points at a position inside the write list |
| ShaderBinders.PositionsAppend | renderer/shader_binder.cpp:17-28 | recording one more write inserts its index with the position it is appended at |
| ShaderBinders.PositionsKnowEveryIndex | renderer/shader_binder.cpp:13-39 | a location is known exactly when some write in the list has that index |
| ShaderBinders.PositionsAreFirstWrites | renderer/shader_binder.cpp:13-39 | a known location points at the first write with that index, since a repeated index keeps its first position |
| ShaderBinders.PositionsPointAtTheirWrites | renderer/shader_binder.cpp:13-39 | every known location's position holds a write with that very index |
| ShaderBinders.WritesAreNull | renderer/shader_binder.cpp:13-39 | every write the constructor makes uses a null resource |
| ShaderBinders.WritesCounted | renderer/shader_binder.cpp:13-39 | the constructor makes two writes per Sampler2D, one per CBuffer or SBuffer and none for the other uniforms |
| ShaderBinders.Updated | renderer/shader_binder.cpp:42-44 | update_resource throws exactly for an unknown location; otherwise the write at that location's position becomes the location and the resource, and all other writes stay |
| ShaderBinders.UpdateLeavesSamplerWrite | renderer/shader_binder.cpp:16-44 | updating a Sampler2D's location replaces only its texture write; the sampler write at index + 1 keeps the null sampler |
| ShaderBinders.ShaderBinder.constructor | renderer/shader_binder.cpp:10-40 | the binder's write list is the uniforms' writes in order, and its location map is the positions of those writes |
| ShaderBinders.ShaderBinder.AppendWrites | renderer/shader_binder.cpp:17-28 | one uniform's writes are appended and the location map stays the positions of the whole list |
| ShaderBinders.ShaderBinder.UpdateResource | renderer/shader_binder.cpp:42-44 | the binder throws exactly for an unknown location, changing nothing; otherwise its writes become Updated of the old ones, and the location map is kept |
| InputNodes.Members | tools/editor/components/input.hpp:16-24 | there is one member line per output, in order, each built from that output's socket type and name |
| InputNodes.GenerateResourceShaderCode | tools/editor/components/input.hpp:10-28 | the stream loop, which writes a newline before every output but the first, produces the opening line, the member lines joined by newlines, and the closing declaration |
| InputNodes.MembersStep | tools/editor/components/input.hpp:18-22 | one more output adds its member line, after a newline unless it is the first |
| InputNodes.JoinSnoc | tools/editor/components/input.hpp:18-22 | joining a list with one more line adds a newline and the line, or gives the line alone when the list was empty |
| InputNodes.ComputeCodeIgnoresNode | tools/editor/components/input.hpp:30-33 | the compute code is the same connection placeholder for every node |
| InputNodes.NoOutputs | tools/editor/components/input.hpp:12-27 | a node without outputs gives the opening line directly followed by the closing declaration |
| InputNodes.SplitLines | tools/editor/components/input.hpp:18-22 | splitting at newlines always gives at least one line |
| InputNodes.SplitOneLine | tools/editor/components/input.hpp:22 | a text without a newline splits into itself |
| InputNodes.SplitAfterLine | tools/editor/components/input.hpp:18-22 | a line without a newline, a newline and a rest split into that line followed by the rest's lines |
| InputNodes.SplitJoin | tools/editor/components/input.hpp:16-24 | splitting the joined member lines gives the lines back, when none holds a newline |
| InputNodes.MembersReadBack | tools/editor/components/input.hpp:10-28 | the code starts with the opening line and ends with the closing declaration, and what lies between splits back into each output's member line in order, when no socket type or name holds a newline; without outputs nothing lies between |
| HResults.HResultToString | renderer/rhi/dx12/utils.hpp:18-33 | each of the ten listed codes gives its own message and every other code the unknown-error text |
| HResults.MessagesDistinct | renderer/rhi/dx12/utils.hpp:20-32 | the ten messages differ from one another and from the unknown-error text |
| HResults.MessagesIdentifyCodes | renderer/rhi/dx12/utils.hpp:18-33 | the message of a listed code is given by no other code, so it identifies the code |
| HResults.OnlySuccessCodesDoNotFail | renderer/rhi/dx12/utils.hpp:21-30 | S_OK and S_FALSE are the only listed codes that are not failures |
| HResults.ThrowIfFailed | renderer/rhi/dx12/utils.hpp:8-10 | THROW_IF_FAILED throws exactly for a failing code, with that code's message; S_FALSE passes |
| MicroShaders.Find | src/compositor/microshader.cpp:21-55 | a position string_view::find answers lies at or after the start and holds a match of the pattern |
| MicroShaders.FindChar | src/compositor/microshader.cpp:28-60 | a position find and find_first_of answer for one character lies at or after the start, inside the text, and holds that character |
| MicroShaders.FindIsFirst | src/compositor/microshader.cpp:21-48 | find answers the first match: nothing matches between the start and its answer, and nothing from the start on when it answers npos |
| MicroShaders.FindCharIsFirstOccurrence | src/compositor/microshader.cpp:28-45 | the character does not occur between the start and the answer, nor anywhere after the start when the answer is npos |
| MicroShaders.FindIsFirstMatch | src/compositor/microshader.cpp:21-48 | a match with none before it, from the start on, is what find answers |
| MicroShaders.FindCharIsFirst | src/compositor/microshader.cpp:28-60 | an occurrence of the character with none before it, from the start on, is what find answers |
| MicroShaders.Lower | src/compositor/microshader.cpp:36-37 | lowering keeps the length, turns the ASCII capitals into small letters and keeps every other character |
| MicroShaders.TaggedValue | src/compositor/microshader.cpp:49-57 | the offset the loop goes on from after a tagged line lies past where it started and inside the struct body |
| MicroShaders.Step | src/compositor/microshader.cpp:49-60 | in the model, one field block that can be read moves the offset forward and keeps it inside the struct body, so the model's loop ends; the code's offset need not move forward (MissingTagsLoopAsWritten) |
| MicroShaders.StepFromName | src/compositor/microshader.cpp:54-60 | after the name line the offset moves forward and stays inside the body |
| MicroShaders.StepFromDescription | src/compositor/microshader.cpp:59-60 | after the description line the offset moves forward and stays inside the body |
| MicroShaders.FieldsFromUnfold | src/compositor/microshader.cpp:48-63 | without a further marker there are no more fields; a block that cannot be read makes the result undefined; otherwise its field comes before the fields after it |
| MicroShaders.PrefixedAssoc | src/compositor/microshader.cpp:48-63 | fields found one by one can be collected in any grouping |
| MicroShaders.MissingNameTagWrapsToStart | src/compositor/microshader.cpp:49-51 | when no name tag follows a marker's line, the code's size_t offset after the name search wraps from npos + 1 to 0, while the model's step reads no field |
| MicroShaders.MissingTagsLoopAsWritten | src/compositor/microshader.cpp:48-60 | when the body starts with a line break and also holds no description tag, the code's pass for the marker ends at offset 1 and its next search finds the same marker, so the code's loop never ends; the model gives Undefined |
| MicroShaders.BareMarkerLoopsAsWritten | src/compositor/microshader.cpp:48-60 | the struct body made of a line break, the marker line and a line holding one quote is such a case |
| MicroShaders.ParseFields | src/compositor/microshader.cpp:47-63 | the while loop over serialize-field markers yields exactly the fields FieldsFrom describes from offset 0, in order |
| MicroShaders.ReadName | src/compositor/microshader.cpp:21-32 | when the header and the name are read, no field has been read yet and the name is the non-empty rest of the header line (NamedLine); it fails only with the unknown-format or unknown-shader-name message |
| MicroShaders.ReadStruct | src/compositor/microshader.cpp:36-63 | a parsed struct keeps the shader name it was looked up by; it fails exactly when the buffer declares no `struct <name>_in_t ` (HasInputStruct), and then with the unknown-input-data message |
| MicroShaders.Parse | src/compositor/microshader.cpp:20-67 | a parsed shader's name is the non-empty rest of the header line and the buffer declares its input struct; a failure carries one of the three parse-error messages |
| MicroShaders.UnknownFormatIffNoHeader | src/compositor/microshader.cpp:21-24 | parsing fails with "Unknown format" exactly when the buffer does not start with the microshader header |
| MicroShaders.UnknownShaderNameIffEmptyLine | src/compositor/microshader.cpp:26-32 | parsing fails with "Unknown shader name" exactly when the header is followed at once by a newline |
| MicroShaders.ParsedNameIsFirstLine | src/compositor/microshader.cpp:21-32 | a parsed shader's name is the non-empty rest of the header line, right after the header and up to the first newline |
| MicroShaders.NameIsFirstLine | src/compositor/microshader.cpp:26-28 | a name the first stage reads is the non-empty rest of the header line, up to the first newline |
| MicroShaders.UnknownInputDataIffNoStruct | src/compositor/microshader.cpp:36-42 | once the name is read, parsing fails with "Unknown input data" exactly when the struct declaration with the lower-case name occurs nowhere |
| MicroShaderBlocks.FixedText | src/compositor/microshader.cpp:48-55 | the marker and tags have 18, 9 and 16 characters, the marker has no newline and the tags have no quote |
| MicroShaderBlocks.TaggedValueReads | src/compositor/microshader.cpp:49-52 | on a next line that starts with the tag followed by a quoted value, the tagged line gives that value and continues just past its opening quote |
| MicroShaderBlocks.TagThenQuote | src/compositor/microshader.cpp:50-51 | a tag at the search position is found there, and the next quote is the one right after it |
| MicroShaderBlocks.Quoted | src/compositor/microshader.cpp:52 | the value between a quote and the next quote is read back whole |
| MicroShaderBlocks.DescriptionTailLayout | src/compositor/microshader.cpp:55-60 | the description tail holds the description, a quote, a newline, the data and a newline, at those positions |
| MicroShaderBlocks.NameTailLayout | src/compositor/microshader.cpp:50-57 | the name tail holds the name, a quote, a newline and the description line, at those positions |
| MicroShaderBlocks.BlockHeadLayout | src/compositor/microshader.cpp:48-51 | a block starts with the marker, a newline, the name tag and a quote |
| MicroShaderBlocks.BlockLayout | src/compositor/microshader.cpp:48-60 | the text of a block as a shader author writes it has the layout the parser reads |
| MicroShaderBlocks.BlockPieces | src/compositor/microshader.cpp:48-60 | the layout follows from where the marker, the tags, the values and the newlines sit |
| MicroShaderBlocks.NameLineReads | src/compositor/microshader.cpp:49-52 | in a laid-out block the name line gives the field's name and continues past its opening quote |
| MicroShaderBlocks.DescriptionLineReads | src/compositor/microshader.cpp:54-57 | in a laid-out block the description line, read from the name's opening quote on, gives the field's description |
| MicroShaderBlocks.DescriptionLineEnds | src/compositor/microshader.cpp:59 | the description line ends at the first newline after the description's opening quote |
| MicroShaderBlocks.DataLineEnds | src/compositor/microshader.cpp:59-60 | the data line runs from after that newline to the block's last newline and is the field's data |
| MicroShaderBlocks.StepAfterNameLine | src/compositor/microshader.cpp:49-54 | once the name line is read, Step continues as StepFromName |
| MicroShaderBlocks.StepAfterDescriptionLine | src/compositor/microshader.cpp:54-59 | once the description line is read, StepFromName continues as StepFromDescription |
| MicroShaderBlocks.StepAfterLineEnds | src/compositor/microshader.cpp:59-60 | with both line ends found, the step yields the name, the description and the data line, and continues at the data line |
| MicroShaderBlocks.StepFromLines | src/compositor/microshader.cpp:49-60 | the four searches of one step determine its field and the offset it continues from |
| MicroShaderBlocks.LayoutMarker | src/compositor/microshader.cpp:48 | the marker search finds a laid-out block at its start |
| MicroShaderBlocks.StepReadsLayout | src/compositor/microshader.cpp:48-60 | one step over a laid-out block yields exactly its field and continues at the start of its data line |
| MicroShaderBlocks.OneField | src/compositor/microshader.cpp:48-63 | a step followed by no further marker gives exactly that one field |
| MicroShaderBlocks.SingleBlockRoundTrip | src/compositor/microshader.cpp:47-63 | a struct body laid out as one block parses back to exactly that field, when the data line holds no further marker |
| Techniques.DataStringMatchesDataType | asset/technique.cpp:178-200 | get_shader_data_string names the HLSL type of the data type get_shader_data_type gives, and both fall back to float for an unlisted property type |
| Techniques.DataTypesOneToOne | asset/technique.cpp:178-200 | different data types have different HLSL names, and the five listed property types map one-to-one onto the data types |
| Techniques.FlagsOneToOne | asset/technique.cpp:202-213 | get_shader_flags gives All exactly for a value that is not one of the six stages, the absent visibility's -1 among them, and maps the six stages one-to-one |
| Techniques.Entry | asset/technique.cpp:25-44 | a uniform's entry keeps its name; it is CBuffer data exactly when properties are given and the type is not sampler2D, with one member per property in order, name and data type; its visibility is the stage's flags, or All when none is given |
| Techniques.CountOfAppend | asset/technique.cpp:46-47 | one more uniform raises the count of its own type by one and no other |
| Techniques.ScanAppend | asset/technique.cpp:23-48 | a failed scan stays failed after one more uniform; otherwise that uniform fails the scan or updates the locations and counters |
| Techniques.ScanFailsIffUnregistered | asset/technique.cpp:14-47 | the uniform loop throws, with the unordered_map::at message, exactly when some uniform has a type other than cbuffer and sampler2D |
| Techniques.ScanCounts | asset/technique.cpp:14-47 | after the loop each register counter holds the number of uniforms of its type, modulo 2^32 |
| Techniques.WrapSucc | asset/technique.cpp:47 | incrementing a uint32 counter is incrementing the count and reducing modulo 2^32 |
| Techniques.LocationsAreEarlierCounts | asset/technique.cpp:46-47 | a uniform's location is the number of uniforms of the same type before the first uniform with its name, modulo 2^32, since a later uniform with the same name is not inserted again |
| Techniques.NamesInScan | asset/technique.cpp:46 | the names that get a location are exactly the uniforms' names |
| Techniques.CollectUniforms | asset/technique.cpp:20-49 | the first for_each succeeds exactly when the scan does, throwing the at message otherwise; it builds one entry per uniform, in order, and the scan's locations |
| Techniques.ScanStaysFailed | asset/technique.cpp:20-49 | once a uniform has made the loop throw, the later uniforms change nothing |
| Techniques.Decimal | asset/technique.cpp:148-157 | the decimal spelling of a register number has at least one digit |
| Techniques.DecimalRoundTrip | asset/technique.cpp:148-157 | the register number in the generated code reads back as the location, holds only digits and has no leading zero |
| Techniques.StructMembersStep | asset/technique.cpp:171-173 | one more property appends its member, with its semantic or the empty one |
| Techniques.GenerateStructCode | asset/technique.cpp:164-176 | generate_struct_code's loop gives the struct head, one member per property in order, and the closing line |
| Techniques.BufferMembersStep | asset/technique.cpp:149-151 | one more property appends its cbuffer member |
| Techniques.UniformCode | asset/technique.cpp:136-162 | generate_uniform_code throws exactly for a cbuffer without properties; a sampler2D ignores its properties; any other type gives no code |
| Techniques.AppendBufferMembers | asset/technique.cpp:149-151 | the property loop appends every property's member, in order, to the head |
| Techniques.GenerateUniformCode | asset/technique.cpp:136-162 | the imperative generator gives exactly UniformCode's result |
| Techniques.Filter | asset/technique.cpp:69-75 | the uniforms kept for a stage are all visible to it and all among the document's uniforms |
| Techniques.HiddenUniformsContributeNothing | asset/technique.cpp:69-82 | the uniforms whose visibility names another stage add nothing to a shader's code: keeping only the visible ones first gives the same code or the same exception |
| Techniques.BuildShaderCode | asset/technique.cpp:56-86 | one shader's code is its stage's input and output structs, the code of each visible uniform in document order, and its own source, with the stage's flags |
| Techniques.UniformsStayFailed | asset/technique.cpp:69-82 | once a uniform's code generation has thrown, the later uniforms change nothing |
| Techniques.LocatedByScan | asset/technique.cpp:46-80 | every uniform's name has a location after the first loop, so locations.at never throws in the second |
| Techniques.Shaders | asset/technique.cpp:51-88 | on success there is one shader per definition, each ShaderCode of its definition; it throws exactly when some shader's code generation throws |
| Techniques.Build | asset/technique.cpp:10-89 | it throws exactly when the uniform layout throws or some shader's code generation throws (ShaderFails); on success the technique keeps the document's name, one entry per uniform in order, and the code of every shader in order (ShadersBuilt) |
| Techniques.BuildShaders | asset/technique.cpp:51-88 | the second for_each builds the shaders one after the other, exactly as Shaders says |
| Techniques.Construct | asset/technique.cpp:10-89 | the constructor gives exactly Build's result: the name, one entry per uniform, and one shader per shader definition, or the first exception |
| Techniques.ShadersStayFailed | asset/technique.cpp:51-88 | once a shader's code generation has thrown, the later shaders change nothing |
| Techniques.BuildFailsOnlyForTheseReasons | asset/technique.cpp:10-89 | construction can throw only two errors: the unordered_map::at error, exactly when some uniform type is unregistered, and the bad optional access, only when some cbuffer has no properties |
| Techniques.ShaderErrors | asset/technique.cpp:51-88 | the shader loop can throw only the bad optional access |
| Techniques.UniformErrors | asset/technique.cpp:69-82 | a stage's uniform code can throw only the bad optional access |
| Techniques.WellTypedDocumentsBuild | asset/technique.cpp:10-89 | a document whose uniforms are all sampler2Ds or cbuffers with properties is always built |
| Techniques.ShadersSucceed | asset/technique.cpp:51-88 | with such uniforms every shader's code is generated |
| Techniques.UniformsSucceed | asset/technique.cpp:69-82 | with such uniforms every stage's uniform code is generated |
| Techniques.LoadFromFile | asset/technique.cpp:91-111 | a file json5 cannot open is an IO error and any other json5 error a parse error, and only those fail to load; a document that parses loads exactly when the constructor does not throw |

## Left out

- Native Direct3D 12 and DXGI calls are foreign code. This covers device, queue, swapchain, heap, resource, view, root-signature and pipeline-state creation, `CopyDescriptorsSimple`, `Present`, `Signal` and `GetCompletedValue`. Their results are opaque tokens, their requests are logged, and completed fence values are inputs.
- The CPU/GPU descriptor pools and the `d3d12::MemoryAllocator` are declared in renderer/d3d12/d3d12_cpu_desc_pool.h, d3d12_gpu_desc_pool.h and memory_allocator.h, which are not modelled. They are used through an assumed contract:
  - a pool has a fixed capacity and `space()` counts its free records;
  - `allocate` returns a null record when the pool is exhausted;
  - `deallocate` returns a record the pool handed out;
  - `deallocate` of a null or already returned record changes nothing. This half is what keeps the pools well formed after the double release of `BackendResources.UnorderedShaderTextureReleasesSrvTwice`.
- The result of `AlignedBlockSize` is the `size` parameter of `MemoryPools.MemoryPool.Allocate`. The function is declared at lgfx/d3d12/memory_pool.h:69 and defined in neither memory pool file.
- Concurrency is not modelled. The queue's and the reference count's atomics are plain fields, and the device's mutex, thread pools and OS event waits are left out. A host wait for a value nothing will signal is reported as `Hangs`.
- Floating point is not modelled: viewports, clear colours, `ClearValueColor::operator<` and MaxLOD.
- `lgfx/types.h` enumerators are compared by their declared ordinal. `Format`'s 40 enumerators are numbered by position rather than named.
- `BackendSubmission`'s encoder flags are taken as the single bits 1, 2 and 4 (graphics, copy, compute). They are declared outside the modelled files, in the interface header renderer/backend.h that the backend includes.
- The technique document's enumerations are declared in asset/technique.h, which is not modelled. Each is modelled with the cases the code names plus one case standing for every other value.
- The backend's pipeline-cache key (`PipelineCacheId`) is an abstract value. The `unordered_map` walk order `serialize_shader_cache` follows is a parameter.
- `ShaderBinders`: the uniform index is taken to be a `uint32`. It is declared outside the modelled files, in the shader program header renderer/shader_program.h that the binder includes. `bind` is a native call and is left out.
- `HResults.ThrowIfFailed` models the macro as utils.hpp defines it. The `#ifndef` guard, under which an earlier definition of `THROW_IF_FAILED` takes precedence, is preprocessor ordering and is not modelled.
- `ConcurrentQueues`: a popped slot keeps its value, since moved-from contents are not modelled. The copy constructor and both assignment operators read `other.data` (lib/concurrent_queue.h:22, 36 and 44), a member the class does not have, so they do not compile once instantiated, and are left out. The move constructor reads `other._data` and is modelled as `ConcurrentQueue.Moved`.
- Sampler creation, the native bind calls of descriptor sets, and the declared-only `RWBuffer` template are left out.
- `BufferPools`: overflow of `DataSize × element_count` is not modelled.
- `Pipelines`: `Accumulate`, `VertexStrides`, `LegacyVertexStrides`, `SlotSumsAddUp`, `CreatePipeline` and `PublicCreatePipeline` require `SlotsInRange`, every input slot below 16. The source indexes its 16-entry stride array with the slot unchecked (renderer/d3d12/backend_d3d12.cpp:1156, renderer/backend_d3d12.cpp:974), so a larger slot writes out of bounds. That is undefined behaviour, and the model does not follow it.
- `MicroShaders.FieldsFrom`: a field block that lacks its name or description tag, an opening or a closing quote, or a line break gives `Undefined`. There the code behaves in one of two ways. Its offset may stay npos, from which it builds a string_view. Or the offset wraps from npos + 1 to 0 and the code reads the struct body again from its start, which may never end (`MicroShaders.MissingTagsLoopAsWritten`). The model does not follow either path.
- `MicroShaders.Step`: same as `MicroShaders.FieldsFrom`. Its `None` result becomes `Undefined` in `Parse`. Its guarantee that the offset moves forward holds for the model's step only.
- Reading the micro-shader file and printing the parsed fields are I/O. The constructor is left out, and the fields are returned instead.
- `MicroShaderBlocks`: the parse-back property is stated for one block written in the documented layout, not for every buffer.
- `Technique`'s accessors and `cache_entry` are left out. The json5 parse in `load_from_file` is a parameter (its result or error code), because the parse itself is I/O.
- The editor UI around the Input node is left out.
- Legacy backend parts left out:
  - the contents of render-pass and view descriptions;
  - `_swap_buffers`, the duplicate `wait_for_context`, `copy_texture_data` and `wait_for_idle_device`, which are stubs or do not compile;
  - `SetDescriptorHeaps`;
  - the memory and resource half of `create_texture`;
  - the swapchain RTVs.

  The seven per-frame vectors appear as one record per frame.
- `DX12Devices`: fence counters wrap after 2^64 increments. The pacing lemmas assume headroom before that (`Headroom`).
- `DX12Devices.Device.SubmitCommandLists` requires at least one buffer, because the source reads `buffers[0]` unchecked.
- `DX12Devices` and `LegacyBackends.LegacyBackend.CreateSwapchainResources`: native HRESULTs are assumed to succeed; in the latter these are the `THROW_IF_FAILED` calls of renderer/backend_d3d12.cpp:244-329. `upload_context`, `create_texture`, `create_buffer`, `write_buffer`, `create_shader` and the allocator factory are left out.
- `DX12Devices`: `FRAMES_IN_FLIGHT` is the number of frames the device was built with. It is declared outside the modelled files.
- The newer backend's `recreate_swapchain` and `copy_texture_region` are stubs or do not compile, and are left out.
- `BackendResources.Backend.TextureViews`: on an out-of-memory throw the contract states when it happens (RoomFor) and that the pools only grow, not which records the allocations before the throw took.
- The newer backend's `upload_buffer_data` maps, copies into and unmaps an UPLOAD or READBACK buffer. These are native calls, and the operation is left out.
- `ShaderCaches.CountBytes` and `ShaderCaches.ShaderCache.Serialize`: `total_bytes` is a `size_t`, but the model computes it as an unbounded number. It differs only for a cache of 2^64 bytes or more, which cannot be in memory.
- `deserialize_shader_cache` is a stub that accepts everything. It is modelled as it is written.
- `MemoryPools`: the model keeps the size with each allocation record, as the implementation does. The header's declared record lacks it; `DeclaredRecordLosesSize` states what that costs.
- `RefPtrs`: `delete` is a `deleted` flag on the object, and touching a deleted object is excluded by preconditions. Only the default deleter is modelled.
- `RefPtrs`: the `std::cout` logging in `ref_counted_object`'s constructor and destructor (core/ref_ptr.hpp:13 and 17) is I/O and is left out.
- Strings are Dafny sequences of `char`, not C++ byte strings; no encoding is modelled.
- `MicroShaders.Lower` maps 'A' to 'Z' to small letters and keeps every other character. For a non-ASCII byte, a negative `char`, `std::tolower` has undefined behaviour (src/compositor/microshader.cpp:37), which the model does not capture.
- Assertions are modelled as a debug build runs them: a failed `assert` ends the operation with an outcome of its own, or the model excludes it with a `requires`. A build with `NDEBUG` goes on past the check instead, and the model does not follow it there. The members this concerns:
  - `DX12Devices.QueueFor` and `DX12Devices.Device.SubmitCommandLists`: a first buffer of BUNDLE type is a fault with nothing executed. Without the assertion the batch would run on queue 0, whose counter would be raised and signalled.
  - `LegacyBackends.CreateTextureViews`: a three-dimensional depth-stencil texture is a fault. Without the assertion the depth-stencil view would be created with an unset view dimension, and the other views would follow.
  - `BackendResources.Backend.TextureViews` and `BackendResources.Backend.CreateTexture`: the same assertion in the newer backend (renderer/d3d12/backend_d3d12.cpp:656) is an error result, after the memory was allocated and before any record is taken. Without it the DSV record would be taken and creation would go on.
  - `RefPtrs.RefPtr.Get` and `RefPtrs.RefPtr.Converted` require a non-null pointer. Without the assertion the null pointer would be returned or shared.
  - `BackendSubmission.Encoder.Reset` requires an encoder that is not reset yet. Without the assertion the list would be reset again.
  - `ResourceSets.ResourceSet.Push`, `BackendResources.Backend.CreateTexture` and `BackendResources.Backend.CreateBuffer` require a free slot. Without the assertion `push` would read the front of an empty `std::list`, which is undefined behaviour.
  - `get_format`'s assertion on an invalid format, in both backends, is not modelled, because texture formats are not part of the model.
  - The assertions of the device's `write_buffer` on empty data (renderer/rhi/dx12/device.cpp:213) and of the newer backend's `upload_buffer_data` on a buffer that cannot be written (renderer/d3d12/backend_d3d12.cpp:1352) sit in operations that are left out.
