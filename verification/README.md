# A verified model of valubench

valubench checks every fast hash path against a slow reference by XORing
digests. This project models the code that makes that equality hold and proves
it, from the bytes of a message to the checksums a streamed run reports. The
parts meet at one specification: the checksum of a range of message indices is
the XOR of their final digests (`Workload.RangeSum`).

How the modules follow the program:

- `Checksums`, `Slices`, `Arithmetic`: XOR sums over indices and sequences, the
  near-equal contiguous slices used for devices, chunks, workers and reference
  threads, and division facts for index arithmetic.
- `Algorithms`, `Reference`, `Workload`, `Corpus`, `Oracle`: the algorithm
  descriptor, the reference's update and final, messages, padding and the
  interleaved corpus, and the reference checksums with their one-walk ladder and
  threaded form.
- `Words`, `Sha1`, `Sha512`, `Md5`, `ShaNi`: word arithmetic and the block steps:
  the reference's, the CPU templates', the device kernels' and the SHA-NI form,
  each against RFC 1321 section 3.4 or FIPS 180-4 sections 6.1.2 and 6.4.2.
- `ByteOrder`, `Standards`: what the specifications above are in numbers: block
  words, length fields and digests over their bytes, truth tables of the round
  functions, and steps of the standards' own example.
- `Hashes`: the three functions as code. One step of a reference context, of a
  CPU template and of a device kernel, for each of them; every loop around a
  block step calls these.
- `Chain`, `Cells`, `CpuKernel`, `ShaNiKernel`, `Sweeps`, `GpuKernel`: the
  iteration chain that never pads twice, the kernels over the interleaved
  corpus, and a device launch with its grid stride, repeats and tree reduction.
- `Protocol`, `Pipeline`: streamed uploads as a step system, and the host that
  drives any number of devices, each of which runs the kernel's code on what it
  has loaded.
- `Barriers`, `PoolProtocol`, `Pool`, `PoolVerdict`: the generation barrier, the
  worker pool over two barriers, a gate and a stop flag, what its verdict means,
  and that in every schedule the driver judges the batch it ordered last.
- `Geometry`, `Capacity`, `Power`, `Ptx`: the tuner, the capacity probe, energy
  de-duplication and the PTX rewriter.
- `System`: the parts composed. A corpus as built, cut into groups, sliced over
  devices whose grids their tuners chose and streamed, gives the oracle's checksum
  for every pass; a pool of template kernels over it always passes its own gate.

Specifications are written against a descriptor with a compression function;
methods take the code of one of the three hash functions besides, and
`Code.Computes` says that the descriptor is that function's. So the reference
context, the oracle, the CPU template and the device launch run the modelled
rounds, windows and renamed registers of MD5, SHA-1 or SHA-512, and what is
proved of their loops is proved of that code. Round-constant tables and initial
states are parameters shared by both sides. 32-bit words live in the low half of
a 64-bit word, as the checksum slots hold them, and 32-bit additions drop what
does not fit.

What a driver, a clock or a foreign call decides is left open: a driver call may
fail (each device has a script that says which of its calls do, and every
operation says that it succeeds exactly if all it made did), a device takes any
steps it can in any order, a probe may take any time, a kernel under the
verification gate may return anything, a thread may fail to start or to be
joined, a condition variable may wake anybody.

Two statements about the code are false as they stand. The code is kept as it is,
with inputs that show it and the exact condition under which they hold:

- The PTX rewriter's buffer of n + n/8 + 1 bytes is too small for some inputs,
  because the register number is parsed past blanks and a sign while the position
  is moved past digits only; nine characters suffice (`Ptx.BlankOverruns`). A turn
  keeps the bound exactly if it is not at a group-count register with no digit
  right after its name (`Ptx.TurnGrows`); an input whose registers all have one is
  never written past the buffer; and `Ptx.Translate` says for every input whether
  it is.
- The capacity probe's unsigned difference wraps when one read of `finished` is
  past the read of `started` before it. Runs in which that happens, every group
  counts in and out and the answer is beyond the launch exist exactly if there are
  three groups or more and they read at all (`Capacity.ReadsCross`); at the group
  sizes the tuner tries the host launches at least sixteen
  (`Capacity.ProbesCanCross`). The answer is at most the
  true peak exactly if it is at most the number of groups launched, a test the
  host could make, and exactly if no read pair crossed (`Capacity.AnswerIsHonest`).
  The source's comment says that reading `started` first can only undercount; of
  one read pair that is so exactly as long as it does not cross
  (`Capacity.PairUndercounts`).

Two branches behave oddly on inputs the program never gives them; they are
modelled as they are:

- A little-endian length field of more than eight bytes gets the length twice, at
  its start and at its end. It is still right exactly if the length fits in the
  bytes the two copies share (`Algorithms.FieldRight`, `Corpus.PadMessage`). The
  three algorithms have no such field.
- A ladder of iteration counts that starts at zero leaves every rung zero
  (`Oracle.ReferenceChecksums`, with a one-word hash as an example in
  `Oracle.ZeroRungSticks`). The command line refuses such ladders and iteration
  counts below one (src/main.c:402-406 and src/main.c:767).

## Model

| member | source | states |
|---|---|---|
| Slices.Bounds | src/device/device.c:683-686 | slice 0 is the largest, none is empty when there are items enough, all lie inside |
| Slices.SlicesCover | src/device/device.c:113-121 | the slices of a sequence partition it: their sums XOR to the sum of the whole |
| Algorithms.RoundTrip | src/workload.c:85-97 | a word of the algorithm's width survives being stored and loaded, in both byte orders |
| Algorithms.LengthExact | src/reference/sha512.c:123-129 | the 64-bit counter is the bit length the standards mean exactly below 2^61 bytes |
| Algorithms.FieldRight | src/workload.c:70-82 | the length field as built is the length in the algorithm's byte order exactly if it is big-endian, eight bytes, or the length fits in what its two copies share |
| ByteOrder.LengthFields | src/reference/md5.c:196-209 | over bytes: MD5's length field spells the bit length low byte first in eight bytes, SHA-1's and SHA-512's high byte first in eight and sixteen |
| ByteOrder.PaddingBytes | src/workload.c:60-83 | what a padded message is, byte by byte: the message, a byte of 128, zeros, and the length field at the end of the last block, with no block to spare |
| ByteOrder.Md5Words | src/reference/md5.c:44-50 | over bytes: word j of an MD5 block is the number its four bytes spell low byte first |
| ByteOrder.Sha1Words | src/reference/sha1.c:67-72 | and of a SHA-1 block high byte first |
| ByteOrder.Sha512Words | src/reference/sha512.c:27-33 | and of a SHA-512 block high byte first, over eight bytes |
| ByteOrder.Md5Digest | src/reference/md5.c:189-212 | the bytes of an MD5 digest spell its words low byte first |
| ByteOrder.Sha1Digest | src/reference/sha1.c:148-168 | those of a SHA-1 digest high byte first |
| ByteOrder.Sha512Digest | src/reference/sha512.c:121-146 | and those of a SHA-512 digest |
| Algorithms.AbsorbAppend | src/reference/sha1.c:136-140 | absorbing is a fold over blocks: a prefix of whole blocks may be absorbed first |
| Reference.Context.Update | src/reference/sha1.c:114-146 | after any number of bytes, the whole blocks fed so far are in the state, compressed by the function's own rounds, and the rest in the buffer |
| Reference.Context.Final | src/reference/sha512.c:121-146 | final gives the hash of everything fed, padded as the standards say below 2^61 bytes and with the low 64 bits of the length from there on, spilling into a second block when needed |
| Reference.HashInPieces | src/reference/md5.c:154-212 | feeding a message in any sequence of pieces and finishing is folding the standard's compression over the padded whole |
| Reference.HashWhole | src/reference/md5.c:214-220 | a message hashed at once, as the oracle hashes every message |
| Reference.BitLengthWraps | src/reference/md5.c:196 | the wrapped 64-bit byte counter gives the 64-bit bit length |
| Workload.RangeSplit | src/workload.c:176-179 | a range's checksum is the XOR of its parts', wrapping 32-bit indices included |
| Workload.StoredWord | src/workload.c:327-329 | loading word j of a stored digest gives digest word j |
| Workload.HashIsDigest | src/workload.c:333-337 | a hash has the digest's word count, width and byte length |
| Workload.MessageSpells | src/workload.c:20-39 | the first four bytes of a message, low byte first, are its 32-bit index; from byte four on byte i is 157 i + 59 modulo 256; a shorter message is the index's low bytes |
| Workload.MessagesDiffer | src/workload.c:41-45 | two messages of the same length are the same exactly if their indices agree modulo the number of distinct messages of that length |
| Workload.OneMessage | src/workload.c:314-339 | the checksum of one message hashed once is its digest's words, with zeros after them |
| Corpus.LoadWord | src/workload.c:85-97 | the two loading loops give the big-endian and little-endian value of the bytes |
| Corpus.BuildMessage | src/workload.c:20-39 | at any length, the message the oracle hashes for that index: its number low byte first, then the fixed pattern (what that spells is Workload.MessageSpells) |
| Corpus.PadMessage | src/workload.c:60-83 | message, terminator, zeros and the length field, the move in a wide little-endian one included: the padding that final applies exactly under the condition of FieldRight |
| Corpus.PositionDecodes | src/workload.c:127-151 | the scatter position of word x of message m decodes to m and x |
| Corpus.DecodePosition | src/workload.c:127-151 | and back: no two words share a place and no place is left over |
| Corpus.Build | src/workload.c:99-167 | refuses exactly the shapes it should; otherwise every corpus word is the right word of the right padded message |
| Oracle.Walk | src/workload.c:314-339 | one message: every rung of an ascending ladder, duplicates included, takes the digest at its own count |
| Oracle.ReferenceChecksums | src/workload.c:301-342 | one walk, hashing by the reference's code, gives every rung the checksum of a separate run, and zeros throughout if the ladder starts at zero |
| Oracle.CutRange | src/workload.c:245-257 | the threads' slices, started by a running offset, are the contiguous near-equal ones |
| Oracle.Settle | src/workload.c:260-269 | whatever became of a slice's thread, its part ends up computed |
| Oracle.ReferenceChecksumsMt | src/workload.c:198-275 | the threaded form gives the single-threaded values for any thread count and any pattern of create and join failures |
| Words.AddAssoc | src/reference/sha1.c:92 | 32-bit addition in the low half of a 64-bit word is associative |
| Sha1.ReferenceCompress | src/reference/sha1.c:67-105 | the eighty-word schedule and moving registers compute FIPS 180-4 section 6.1.2 |
| Sha1.TemplateCompress | src/kernels/cpu/sha1_kernel_impl.h:93-133 | the rolling sixteen-word window with moving registers computes the same, for every block and state |
| Sha1.DeviceCompress | src/kernels/gpu/sha1_device_impl.h:39-50 | so does the window with registers whose names rotate, adding in another order |
| Sha1.FiveSteps | src/kernels/gpu/sha1_device_impl.h:172-176 | five steps bring every register name back to its part |
| Sha1.DescriptorValid | src/reference/sha1.c:148-168 | SHA-1 is a valid descriptor: five 32-bit words for every state and block |
| Standards.Sha1Tables | src/reference/sha1.c:87-91 | the round functions as truth tables, twenty rounds each: selection, parity, majority, parity |
| Standards.Sha1Steps | src/reference/sha1.c:80-98 | on the standard's example, the message abc: the registers after the first, twenty-first, forty-first and last round |
| Standards.Schedules | src/reference/sha1.c:76-77 | which four words of a block the seventeenth schedule word is made of, for SHA-1 and SHA-512 |
| Sha512.ReferenceCompress | src/reference/sha512.c:49-79 | the reference computes FIPS 180-4 section 6.4.2 |
| Sha512.TemplateCompress | src/kernels/cpu/sha512_kernel_impl.h:78-103 | the CPU template's window and moving registers compute the same |
| Sha512.DeviceCompress | src/kernels/gpu/sha512_device_impl.h:57-73 | so does the in-place arithmetic recurrence with eight renamed registers |
| Sha512.EightSteps | src/kernels/gpu/sha512_device_impl.h:225-232 | eight steps bring every register name back to its part |
| Sha512.DescriptorValid | src/reference/sha512.c:88-146 | SHA-512 is a valid descriptor |
| Standards.Sha512Bits | src/reference/sha512.c:42-47 | where the four rotating functions send the lowest bit and the highest |
| Standards.Sha512Steps | src/reference/sha512.c:61-74 | on the example abc: the registers after the first and the last round, and the last schedule word |
| Md5.ReferenceCompress | src/reference/md5.c:102-141 | the reference computes RFC 1321 section 3.4 |
| Md5.NamedWords | src/kernels/gpu/md5_device_impl.h:168-231 | the sixty-four word indices written out in the kernels are the standard's three formulas |
| Md5.KernelCompress | src/kernels/cpu/md5_kernel_impl.h:285-366 | renamed registers, with words 0 to 3 from registers and the rest from the corpus, compute compress of the spliced block |
| Md5.DescriptorValid | src/reference/md5.c:189-212 | MD5 is a valid descriptor |
| Standards.Md5Tables | src/reference/md5.c:29-32 | the round functions as truth tables, sixteen steps each |
| Standards.Md5Shifts | src/reference/md5.c:115-141 | how far each of the sixty-four steps rotates |
| Standards.Md5Steps | src/reference/md5.c:102-141 | on the example abc: the registers after the first step of each round and after the last step |
| ShaNi.Completes | src/kernels/cpu/sha1_ni_kernel_impl.h:109-114 | SHA1MSG1, XOR and SHA1MSG2 in turn form the next schedule quad, its first word feeding its last |
| ShaNi.WorkKeepsSchedule | src/kernels/cpu/sha1_ni_kernel_impl.h:217-236 | before group g register g mod 4 holds its quad and two others their partial ones, despite the taper at both ends |
| ShaNi.GroupRounds | src/kernels/cpu/sha1_ni_kernel_impl.h:102-107 | one SHA1RNDS4 is four rounds of the standard |
| ShaNi.FourBack | src/kernels/cpu/sha1_ni_kernel_impl.h:57-61 | E four rounds on is A rotated by 30, which is what SHA1NEXTE uses |
| ShaNi.LastGroup | src/kernels/cpu/sha1_ni_kernel_impl.h:238-244 | the last stash gives the chained E and plain addition the other four words |
| ShaNi.SplicedQuad | src/kernels/cpu/sha1_ni_kernel_impl.h:160-162 | masking and OR-ing replaces word 4 alone |
| ShaNi.Block | src/kernels/cpu/sha1_ni_kernel_impl.h:209-244 | twenty groups equal SHA-1's compress, for every state and block |
| ShaNi.BlockStep | src/kernels/cpu/sha1_ni_kernel_impl.h:194-244 | with loads, reversed order and the digest spliced over block 0: compress of the spliced block |
| Hashes.ReferenceStep | src/reference/sha1.c:67-105 | for each of MD5, SHA-1 and SHA-512 the reference's compression function in place computes the descriptor's |
| Hashes.TemplateStep | src/kernels/cpu/sha1_kernel_impl.h:240-284 | for each of the three, a CPU template's block, with its loads, feedback, window and registers, computes the descriptor's compression of the spliced block |
| Hashes.HeldStep | src/kernels/cpu/md5_kernel_impl.h:264-366 | the MD5 kernels' four held words are the feedback in block 0 and corpus words in every other, which is the spliced block |
| Hashes.DeviceStep | src/kernels/gpu/sha1_device_impl.h:155-322 | for each of the three, a device kernel's block computes the same |
| Chain.AbsorbIsWords | src/workload.c:139-151 | absorbing a padded message's bytes is absorbing its corpus words |
| Chain.PadSpliced | src/workload.c:333-337 | copying a digest over the message and padding again is splicing its words over the padded words |
| Chain.ChainIsIterated | src/kernels/cpu/md5_kernel_impl.h:254-378 | feedback in registers, never padding again, equals hashing the fed-back message, if the message has room for a digest |
| Cells.LoadIsPart | src/kernels/cpu/sha1_kernel_impl.h:240-255 | the strided loads of a block read that block of that lane's message |
| Cells.CellSumIsTerm | src/workload.c:127-151 | what a lane of a slot of a built corpus adds is what the oracle adds for its index |
| CpuKernel.StepBlock | src/kernels/cpu/sha1_kernel_impl.h:240-284 | one block of every lane of a slot, by the function's own template, is compress of each lane's spliced block |
| CpuKernel.HashGroup | src/kernels/cpu/sha1_kernel_impl.h:213-293 | the streams of a group, carried side by side block by block through the template's rounds, each end with their chain's digest in every lane |
| CpuKernel.Kernel | src/kernels/cpu/md5_kernel_impl.h:209-414 | for each of the three functions and any lanes, streams, blocks and iterations, the template counts every message once; zero iterations or blocks give zero |
| CpuKernel.ViewSumIsRangeSum | src/kernels/cpu/sha512_kernel_impl.h:149-257 | on a built corpus that is the oracle's checksum |
| ShaNiKernel.HashGroup | src/kernels/cpu/sha1_ni_kernel_impl.h:167-253 | the streams of a group, carried side by side block by block in quads, each end with their chain's digest |
| ShaNiKernel.Kernel | src/kernels/cpu/sha1_ni_kernel_impl.h:145-274 | the SHA-NI loops, streams side by side, feedback and sums in quads and the final reordering, give the same value |
| ShaNiKernel.BuiltUsable | src/kernels/cpu/sha1_ni_kernel_impl.h:196-202 | every word of a built SHA-1 corpus is a 32-bit lane, as the kernel's masking needs |
| Sweeps.ItemsCover | src/kernels/gpu/sha1_device_impl.h:115-131 | with a grid of whole lanes the strides visit every group and lane exactly once a sweep |
| Sweeps.Repeats | src/kernels/gpu/md5_device_impl.h:128-134 | an odd number of sweeps adds the corpus once, an even number cancels it |
| Sweeps.TreeSums | src/kernels/gpu/md5_device_impl.h:252-272 | the tree leaves the work-group's XOR when the group size is a power of two |
| Sweeps.TreeLoses | src/device/device.c:125-131 | at every other size some work-item's digests are lost |
| Sweeps.Reduce | src/kernels/gpu/sha1_device_impl.h:335-352 | the reduction rounds, each a simultaneous step between barriers, compute the tree |
| GpuKernel.HashStreams | src/kernels/gpu/sha1_device_impl.h:148-328 | one hash of a work-item's streams, side by side block by block through the device rounds, leaves every stream's next digest in state and feedback |
| GpuKernel.HashLane | src/kernels/gpu/sha1_device_impl.h:139-329 | a work-item's loops over iterations, blocks and streams give every stream's chain digest |
| GpuKernel.Run | src/kernels/gpu/sha512_device_impl.h:163-181 | a launch of any of the three functions leaves one partial a work-group; if it is legal their fold is the checksum of its groups |
| GpuKernel.LaunchFolds | src/device/device.c:602-620 | the host's fold of a legal launch's partials is the checksum of the groups, the law the pipeline asks for |
| Protocol.InvStep | src/opencl/backend.c:533-592 | every step of host or device keeps the counters, captured events, buffers and ring as they should be |
| Protocol.KernelSeesItsChunk | src/opencl/backend.c:544-555 | in every interleaving a running kernel's buffer holds exactly its chunk, within the size taken from slice 0 |
| Protocol.RingHoldsPartials | src/cuda/backend.c:719-722 | in every interleaving ring slot s mod 8 holds chunk s's partials until they are collected |
| Protocol.AwaitedEventIsLive | src/device/device.c:741-762 | when chunk s is queued, chunk s - 2 is uncollected and its event neither released nor reused |
| Protocol.StepsConsume | src/opencl/backend.c:594-613 | every device step lowers a measure, so each wait returns |
| Protocol.NextAction | src/device/device.c:714-762 | with an uncollected chunk some device command can always go on |
| Pipeline.Device.Perform | src/opencl/backend.c:533-592 | a device step; a kernel that ends leaves what its launch computes on the groups it loaded, by the function's own code, which is what the step system says |
| Pipeline.Device.Queue | src/device/device.c:698-712 | queues exactly the next chunk, whatever the device does meanwhile, exactly if every driver call it makes succeeds; otherwise it fails with the pipeline still consistent |
| Pipeline.Device.Wait | src/opencl/backend.c:594-613 | whatever steps the device takes, returns after finitely many that change anything, with the oldest chunk read back exactly if its driver calls succeed |
| Pipeline.Device.Oldest | src/device/device.c:752-759 | the ring slot pipe_wait points at holds the oldest chunk's own partials, however far the device has run on |
| Pipeline.Device.End | src/device/device.c:774-792 | collects everything queued and leaves the device idle, exactly if every wait succeeds |
| Pipeline.PipeNext | src/device/device.c:714-772 | under any schedule of every device a call succeeds exactly if every driver call made for it does; then every pass is the single-pass checksum over all devices, and every device ends on a pass boundary without draining |
| Pipeline.Session | src/device/device.c:689-772 | so over begin and any number of calls, on devices with different chunk counts: success exactly if no driver call fails, and every pass of every call right |
| Barriers.RunIsABarrier | include/vb_threads.h:148-166 | in every run nobody leaves a round before all have arrived, and a thread inside finds it open exactly when they have, however often the generation wraps |
| Barriers.OpenIsDone | include/vb_threads.h:158-168 | a changed generation means the round is complete, and only then |
| Barriers.OpenIsSignalled | include/vb_threads.h:153-161 | whoever finds the barrier open has been reached by the broadcast |
| Barriers.NeverStuck | include/vb_threads.h:148-166 | some thread can always arrive, or leave on a wake-up that was sent |
| PoolProtocol.StepKeeps | src/bench.c:364-427 | every step of every thread keeps the pool's invariant |
| PoolProtocol.HashesAsOrdered | src/bench.c:585-593 | a hashing worker is on the batch ordered last and reads the count set for it |
| PoolProtocol.ReturnIsQuiet | src/bench.c:585-593 | when a run returns, all have hashed every batch and none is hashing |
| PoolProtocol.EndsCleanly | src/bench.c:545-582 | an aborted start lets no worker reach a barrier; a stopped pool lets one go only after every batch; and when the driver has freed the pool every worker it created has returned |
| PoolProtocol.NeverStuck | src/bench.c:409-427 | unless the driver is between calls or done, some thread can make progress without a wake-up that was not sent |
| PoolProtocol.WorkFalls | src/bench.c:384-427 | every step of a thread lowers the work left before the driver must call again |
| PoolProtocol.StartEnds | src/bench.c:545-582 | starting ends after boundedly many steps: with every thread at work, or with those created joined |
| PoolProtocol.CallsReturn | src/bench.c:585-593 | every call returns: boundedly many steps, until the driver is back with every part hashed some thread is sure to move |
| PoolProtocol.StopEndsAll | src/bench.c:409-427 | a stop ends everything: boundedly many steps, and by the end every thread has returned with every batch behind it |
| Pool.Cut | src/bench.c:433-488 | the workers' groups, corpus slots and reference ranges are the contiguous near-equal shares; as many workers as asked, but none without a group |
| Pool.SharesCover | src/bench.c:465-488 | the shares' references add up to the reference of all the groups |
| Pool.Worker.RunSlice | src/bench.c:324-352 | with its own reference a worker is content exactly if every call gave that; with one supplied for the whole corpus, exactly if all its calls gave the same, which it records |
| Pool.PoolRun | src/bench.c:585-615 | "ok" exactly if, with own references, every call of every worker gave its worker's; with one supplied, every worker's calls agree and the first ones fold to it; either way every repetition's calls together gave the reference |
| Pool.PassesIsRight | src/bench.c:600-615 | the driver's pass over the workers' records says just that of what their kernels gave |
| PoolVerdict.VerdictIsRight | src/bench.c:585-615 | in every run of the threads, when a call is over the records the driver judges are of the batch ordered last, and passing means that on every repetition of it all the calls together gave the reference |
| Pool.ReferencesFold | src/bench.c:354-362 | the workers' own references fold to the whole corpus's, so the two kinds of gate say the same |
| Pool.CalibrateReps | src/bench.c:713-746 | whatever runs take and whichever fail: no repetitions exactly if a run failed; every run under a quarter of the target is followed by one of two to 64 times the repetitions, towards what that has room for; the last is scaled to what the target has room for, or the next is beyond 2^40 |
| Geometry.FloorLocal | src/device/device.c:179-194 | the halving loop finds the largest floor the device allows |
| Geometry.FloorIsLargest | src/device/device.c:189-191 | that is the largest of 64, 32, 16 and 8 within the ceiling, and 8 if none is |
| Geometry.CeilingIsBoth | src/device/device.c:182-187 | a group size is within the ceiling exactly if device and kernel both allow it; a device that does not say allows 512 |
| Geometry.CapIsLarge | src/device/device.c:163-171 | the cap covers every message and 8192 work-items a compute unit, and exceeds one of them by less than a unit |
| Geometry.TopIsHeld | src/device/device.c:312-320 | the largest grid tried is the whole units in what the device holds, one if that is none, never beyond the cap, which it is if nothing was measured |
| Geometry.GridIsNext | src/device/device.c:322-329 | a grid below the largest is the next whole units at or above its multiple; a larger one is the largest |
| Geometry.RateIsFaster | src/device/device.c:344-348 | a launch counts by the faster of its two measured runs |
| Geometry.WavesFit | src/device/device.c:252-261 | a launch runs in the fewest waves its busy work-items fit in, one exactly if the grid or the corpus fits the device at once |
| Geometry.CandidateSound | src/device/device.c:322-333 | every grid tried is sound: power-of-two group dividing it, whole lanes or the cap, no more partials than allocated, one wave when the measured capacity holds a unit |
| Geometry.Tune | src/device/device.c:284-370 | whatever the device holds and whatever each launch does: of the grids the search is to try at the group sizes it is to look at, each while those before it ran, the choice is one that ran and the fastest that did; nothing is chosen exactly if none ran; it is sound, and at the device kernels' 64 lanes it is whole lanes and passes the check a pinned geometry must |
| Geometry.SoundServes | src/device/device.c:196-207 | a sound launch is whole groups of a power of two between 8 and 512, within what device and kernel allow, its scratch within the local memory, all resident at once if one unit is |
| Geometry.CapOnLanes | src/device/device.c:163-171 | which lane counts the cap serves: it is whole lanes for every corpus on every device with a compute unit exactly if the larger of 512 and the lanes is |
| Geometry.SoundIsOk | src/device/device.c:196-207 | with such lanes every sound grid is whole lanes and passes the check a pinned geometry must |
| Geometry.CalibrateRepeats | src/device/device.c:382-399 | the repeat count is odd, at most 65535 and the largest such whose sweeps but the last take no longer than 20 ms; one if nothing was measured |
| Geometry.AutoChunks | src/device/device.c:650-664 | the fewest chunks whose buffer pair fits, as far as groups and limit allow |
| Geometry.PairsFit | src/device/device.c:650-664 | two buffers of the largest chunk fit exactly if those of any two chunks do |
| Capacity.AnswerIsHonest | src/kernels/gpu/device_capacity.h:53-69 | in every interleaving the answer is at most the true peak residency exactly if it is at most the launch, and exactly if no read pair crossed |
| Capacity.PairUndercounts | src/kernels/gpu/device_capacity.h:43-45 | in every run a read pair gives at most the groups resident at its first read if it does not cross, and more than the launch if it does |
| Capacity.NothingForgotten | src/kernels/gpu/device_capacity.h:61-67 | in every run the answer is at least what any read pair gave |
| Capacity.SpinsOut | src/kernels/gpu/device_capacity.h:59-66 | in every run a group makes at most as many read pairs as it is told to, and leaves its loop after fewer only if all are in or somebody is gone; the pair that sees that is its last |
| Capacity.ReadsCross | src/kernels/gpu/device_capacity.h:53-69 | a run in which every group counts in and out and the answer is beyond the launch exists exactly if there are three groups or more and they read at all |
| Capacity.ProbesCanCross | src/device/device.c:218-250 | at the tuner's group sizes the host's probe has at least sixteen groups, and up to a third of 8192 such a run exists for it at any spin |
| Power.DuplicateOfEarlier | src/power.c:574-596 | a source is a duplicate exactly if it is not the least, by provider and place, of its device's sources |
| Power.OneSpeaker | src/power.c:574-596 | no device counts twice |
| Power.SomeSpeaker | src/power.c:574-596 | no device is left out |
| Power.SameDeviceIs | src/power.c:574-596 | two spellings are of one device exactly if they differ in the case of ASCII letters only |
| Power.SpeakerIsPreferred | src/power.c:574-596 | who counts has the lowest provider number of its device's sources and the first place among those |
| Power.ScopeJoules | src/power.c:598-615 | the scope's energy is the sum over those sources; -1 exactly if there is no live source |
| Power.SpokenAlone | src/power.c:598-615 | one live source among any others gives the scope its own report |
| Power.SpokenOnce | src/power.c:598-615 | of two sources of one device only the preferred one's report counts |
| Ptx.TurnGrows | src/cuda/ptx_import.c:51-101 | a turn keeps to nine written for eight read exactly if it is not at a group-count register with no digit right after its name |
| Ptx.TightFits | src/cuda/ptx_import.c:38-43 | on input whose registers all do, the output and its terminator fit |
| Ptx.BlankOverruns | src/cuda/ptx_import.c:63-67 | nine characters that need twelve bytes of a buffer of eleven |
| Ptx.SearchBack | src/cuda/ptx_import.c:79-91 | the back-scan reads only what is written and finds the first whole mnemonic in reach |
| Ptx.ReachIs | src/cuda/ptx_import.c:84-85 | the search goes back to the last line break or semicolon, at most 256 characters, and no less |
| Ptx.RespelledText | src/cuda/ptx_import.c:79-91 | respelling changes the first whole mov.b32 in reach to mov.u32, if there is one, and nothing else |
| Ptx.NumberedRegister | src/cuda/ptx_import.c:63-97 | a register followed at once by its number, of any length: 6 becomes %nctaid.x with its mnemonic respelled, 0 and 3 become 0, any other is refused; all its digits go |
| Ptx.AnnotationGoes | src/cuda/ptx_import.c:52-62 | a parameter annotation whose alignment begins within 32 characters goes, with all the digits of it |
| Ptx.AnnotationStays | src/cuda/ptx_import.c:52-62 | any other is kept |
| Ptx.Translate | src/cuda/ptx_import.c:36-104 | gives the translation, refuses naming the first register it does not know, or writes past the buffer: which of the three, for every input; and says whether any parameter is annotated as shared |
| Ptx.Untouched | src/cuda/ptx_import.c:51-100 | text with nothing to translate comes out as it went in |
| System.GroupsAreReference | src/device/device.c:490-509 | the groups a built corpus is cut into add up to the oracle's checksum |
| System.ChosenIsLegal | src/device/device.c:541-572 | what the tuner chooses, with the calibrated repeats, is a legal launch |
| System.LaunchIsLawful | src/device/device.c:586-600 | every chunk of a device's slice, launched legally, meets the pipeline's law |
| System.PlanIsLawful | src/device/device.c:564-573 | a device given its slice, a grid its tuner chose and an odd repeat count launches lawfully on every chunk |
| System.DevicesCover | src/device/device.c:113-121 | one pass over all the devices is the sum of all the groups |
| System.StreamCorpus | src/device/device.c:689-772 | devices made from a built corpus, tuned grids and odd repeats, running the function's own kernel and streamed under any schedule: it succeeds exactly if every driver call made does, so always if none fails, and then every pass is the oracle's checksum of the whole corpus |
| System.HashShare | src/bench.c:469-488 | the template of any of the three functions over the groups and from the slot of a worker's share gives the share's reference |
| System.SharesAreFair | src/bench.c:469-488 | every share lies in the corpus, and its reference range is its own groups' messages |
| System.CorrectKernelPasses | src/bench.c:325-362 | a pool of template kernels always passes, at any thread and repetition count, with its own references or with the oracle's checksum of all the groups supplied |

## Left out

- Oracle.ReferenceChecksums: allocation failure is not modelled; a walk that cannot get its message buffer leaves zeros in the source.
- Oracle.ReferenceChecksumsMt: a thread whose join fails is taken to have stopped writing; in the source it could still be running while its slice is recomputed.
- Corpus.Build: sizes are unbounded, so overflow of the size computation and failed allocation are not modelled.
- Reference.Context.Final: from 2^61 bytes on the length field keeps the low 64 bits of the length, as the code does; FIPS 180-4 wants the rest too.
- Hashes.TemplateStep: within one block the template takes lanes and streams round by round together; the model takes them one after the other. They share nothing.
- ShaNiKernel.HashGroup: likewise for the streams of the SHA-NI kernel within one block.
- PoolVerdict.VerdictIsRight: a slice that has failed stops calling its kernel; the model counts the calls it would have made, which change no verdict.
- GpuKernel.Run: within one block a work-item takes its streams round by round together; the model takes them one after the other. A launch of zero iterations, which the device kernels leave undefined, is excluded. Groups are separate sequences, not offsets into one buffer; `System.GroupsOf` cuts them from it.
- System.StreamCorpus: grids pinned by hand and lane counts the cap is not a multiple of are excluded; device kernels have 64 lanes.
- Pipeline.PipeNext: kernel and transfer times are not modelled. The CUDA and OpenCL backends are one model with a flag for whether events are released on collection.
- Capacity.AnswerIsHonest: launches are of fewer than 2^31 work-groups.
- Geometry.Tune: at least one compute unit is required; without one every candidate is the empty grid, and unless the corpus is empty none is the last, so the search ends only when a launch fails (`NoUnitsNoEnd`). size_t overflow in the growing multiple is not modelled, and rates are real numbers.
- Pool.CalibrateReps: times are integers and ratios real; a target of zero milliseconds on a run of zero time, which divides zero by zero in the source, is taken as one repetition.
- Ptx.Translate: the register number does not overflow, and a failed allocation is not modelled.
- Power.ScopeJoules: address classes are by ASCII case only, and joules are real numbers.
- Per-instruction-set spellings of rotate, Ch and Maj: taken as the specification.
- Round-constant tables: parameters, so no digit is checked.
- Driver and operating-system calls, thread pinning, clocks, sampling and energy wrap-around: foreign code or plumbing.
- Command line parsing, report writing, statistics and the Python tools: they take what the modelled code computes and turn it into text, tables and summaries; no checksum or schedule depends on them.
