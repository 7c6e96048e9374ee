# nanokube, modelled and proved

nanokube runs a whole Kubernetes node in one process. Most of it is wiring around other systems,
but a few parts do their own hard work: an allocator that carves /28 subnets out of an address
range, the pipeline that turns Docker's multiplexed log stream into CRI log files, an in-memory
bidirectional stream, the gates that order startup and shutdown, and the driver's bookkeeping of
names, listings and volumes. This project models those parts and proves what holds of them for
every input, every run and every interleaving.

Each module can be read on its own:

- `Bytes`, `Octets`, `Subnets`: big-endian addresses, the in-place carry and borrow loops, /28 masks.
- `Allocator`: the subnet allocator as a state machine over all runs. `Network`: the mutating
  object, whose methods are proved to take exactly those steps.
- `Lines`, `Framing`, `LogSource`, `Pump`, `LogPipeline`: frames, lines, CRI formatting, the bounded
  line splitter, and the composition of all of them.
- `LogStream`: Start, Stop and Destroy interleaved with the pumps of every run so far.
- `BidiPipe`: the in-memory stream. `Startup`: startup and shutdown. `Drain`: waiting for evictions.
- `Names`, `Decimal`, `Retry`, `Listing`, `Volumes`: name normalisation, the conflict-retry loop,
  filter push-down, and volume claims.

Concurrent parts are step relations whose steps are the critical sections, channel operations and
atomic flag operations of the source; a `Trace` is any history such steps can produce. Clocks, the
timestamp parser, the container runtime, the API server and failures are parameters.

## What turned out not to hold as one might expect

In each case the model keeps the code's behaviour, shows the failure, and proves the exact
condition under which the expectation is met.

- The number of subnets ever created is the peak number in use, throughout a run, if and only if no
  block is ever cut while another is free (`Allocator.CreatedIsPeak`). That can happen, because
  `Deallocate` does not take the allocation lock: a block is free at that moment exactly when it was
  released since the scan (`Allocator.FreeIsReleased`, `Allocator.LateReleaseOvershoots`,
  `Allocator.OvershootExists`).
- What the pump emits is independent of where its reads fall if and only if no 65536 bytes in a row
  without a newline are followed by anything more (`Pump.ReadIndependence`); it splits exactly at
  newlines if and only if there is no such stretch at all (`Pump.SplitsAtNewlines`).
- Restarting a log stream, as reopening a container log does, can put lines of an earlier run into
  the new file if and only if some earlier pump has a line left (`LogStream.RestartMixes`), and what
  is left of earlier runs can close the new file if and only if a pump is still running or a call of
  Stop, even one that already won its swap, is still under way (`LogStream.RestartStops`).
- The stop body of a log stream can run twice for one Start, because Start stores the started flag
  before it clears the stopped flag and Stop reads both without the lock. It runs at most once per
  Start unless a Stop wins its swap between the first Start's two stores, and then at most once more
  (`LogStream.StopOncePerStart`); `LogStream.StopsCanExceed` says exactly when that can still
  happen and `LogStream.StoppedTwice` that it does.
- Shutdown can reach the cancellation of storage if and only if none of these has happened:
  `updateKubeconfig` returned without publishing, the kubelet without having provided its server, or
  the API server without having launched every hook. If a component returns only when cancelled, the
  node must besides still be drainable, which it is not once the stop hooks have been run before the
  drain was registered; and if what needs an answer of the API server has to happen before that
  returns, the node must have been ready by then. All of this is `Startup.ShutdownPossible`; each
  case happens (`Startup.GaveUpRun`, `Startup.KubeletLostRun`, `Startup.UnlaunchedRun`,
  `Startup.DrainMissedRun`, `Startup.UnreadyRun`).
- The retry loop stops making progress once the attempt no longer fits 32 bits
  (`Retry.SpinsForever`), and the attempt label then differs from the name (`Retry.LabelMatchesName`).
- Pushing list filters down to the runtime equals filtering afterwards if and only if no managed
  item answers only by a raw runtime label, a missing key, a loosely matched identifier, or because
  the unknown state adds no filter (`Listing.PushDown`; `Listing.RawLabelListed`,
  `Listing.MissingKeyListed`, `Listing.LooseIdListed` and `Listing.UnknownListsAll` show each).
- This node's volumes follow the claims if and only if each deletion that ends a claim shows it
  bound to its volume (`Volumes.VolumesFollowClaims`), and, given that, if and only if the derived
  names are distinct (`Volumes.DistinctNamesNeeded`, `Volumes.NamesCollide`).

## Model

| member | source | states |
|---|---|---|
| Bytes.AddInPlace | pkg/nanokube/network.go:241-246 | The ripple-carry loop over a byte array of any length adds modulo 256^n, for every amount its 32-bit sums can hold |
| Bytes.DecrementInPlace | pkg/nanokube/network.go:66-71 | The borrow loop over a byte array of any length subtracts one modulo 256^n |
| Bytes.ValueInjective | pkg/nanokube/network.go:272-273 | Equal-length addresses with the same numeric value are the same, so a map keyed by value is keyed by address |
| Subnets.MaskedValue | pkg/nanokube/network.go:154 | Masking an address with /28 octet by octet rounds its value down to a multiple of 16 |
| Subnets.PinnedGateway | pkg/nanokube/network.go:58-71 | Or-ing in the inverted mask and stepping down once gives the broadcast address less one, inside the block, octet for octet |
| Subnets.SetHostBits | pkg/nanokube/network.go:63-65 | Or-ing in the inverted mask gives the broadcast address |
| Subnets.To4Exact | pkg/nanokube/network.go:149-153 | A 4-byte address and its 16-byte mapped form are taken for the same address, and nothing else is |
| Allocator.StepInv | pkg/nanokube/network.go:184-250 | Every step, failures and releases included, keeps the recorded blocks exactly the first ones cut, each under its own base, with distinct identifiers |
| Allocator.RunInv | pkg/nanokube/network.go:184-250 | The same in every state of every run, address wrap-around included |
| Allocator.Layout | pkg/nanokube/network.go:224-246 | With k blocks cut the map keys are exactly base, base+16, ..., base+16(k-1) modulo 2^32, or all blocks once the space is used up |
| Allocator.Disjoint | pkg/nanokube/network.go:224-246 | No address lies in two recorded blocks |
| Allocator.OwnersKept | pkg/nanokube/network.go:201-222 | No allocation changes the entry of a held non-default block; only its own release does |
| Allocator.AllocationGives | pkg/nanokube/network.go:201-250 | Every reclaimed or newly cut block is owned by its sandbox afterwards, was held by nobody before, and no other entry changes |
| Allocator.HeldUntilReleased | pkg/nanokube/network.go:300-329 | In every run a held block stays with its owner until it is released |
| Allocator.NeverGivenTwice | pkg/nanokube/network.go:201-250 | In every run a block that was given to someone is not given again before it is released |
| Allocator.CreatedIsPeak | pkg/nanokube/network.go:201-250 | In every run, blocks ever created equal the largest number held at once in every state so far, if and only if no commit cut a block while another was free |
| Allocator.FreeIsReleased | pkg/nanokube/network.go:201-250 | While an allocation is under way the free blocks are exactly those released since its scan |
| Allocator.SerialReuses | pkg/nanokube/network.go:201-250 | If releases are serialised with allocations, no block is cut beside a free one and reuse is perfect |
| Allocator.CreatedBounds | pkg/nanokube/network.go:201-250 | In every run, blocks created lie between the peak number held and the peak held plus the allocation under way |
| Allocator.LateReleaseOvershoots | pkg/nanokube/network.go:300-306 | In every run with perfect reuse so far, a held block released while an allocation is under way makes the commit cut one block more than the peak |
| Allocator.OvershootExists | pkg/nanokube/network.go:300-306 | A run with that effect exists |
| Network.NetworkImpl.constructor | pkg/nanokube/network.go:31-36 | A new allocator has no networks and has not created the default one |
| Network.NetworkImpl.CreateDefault | pkg/nanokube/network.go:58-96 | The runtime is asked for a gateway at the block's base plus 14; if it grants the network, that is recorded at the probed block as the runtime reports it, with the next address one block on |
| Network.NetworkImpl.Record | pkg/nanokube/network.go:79-96 | The default network is filed under its own base and the high-water mark lies one block on, which is the initial state of the state machine |
| Network.NetworkImpl.Default | pkg/nanokube/network.go:38-104 | The default network is created on the first call only, exists afterwards exactly when every runtime call of that call succeeded, and later calls change nothing |
| Network.NetworkImpl.WithSandboxUID | pkg/nanokube/network.go:312-329 | Refuses to change one owner into another as seen by the handle; otherwise rewrites the block's owner and returns the entry it replaced |
| Network.NetworkImpl.Deallocate | pkg/nanokube/network.go:300-306 | Succeeds for every handle ever issued, leaves its block without an owner and every other entry as it was |
| Network.NetworkImpl.FindFree | pkg/nanokube/network.go:203-217 | Finds a free block other than the default one exactly when there is one |
| Network.NetworkImpl.NextBlock | pkg/nanokube/network.go:224-228 | The block at the high-water mark is the next one in cutting order |
| Network.NetworkImpl.Advance | pkg/nanokube/network.go:240-246 | The high-water mark moves by exactly one block |
| Network.NetworkImpl.Cut | pkg/nanokube/network.go:224-250 | Files the next block under its new owner, keeps an entry already there, and returns the entry as it was before the owner went in |
| Network.NetworkImpl.FromConfig | pkg/nanokube/network.go:184-250 | An allocation is a static, reclaim, commit or aborted step of the state machine, chosen as the source chooses, with the handle the source returns |
| Network.OutcomesHold | pkg/nanokube/network.go:184-250 | It fails exactly when a new block is needed and not granted; otherwise the sandbox owns the block of its handle, which nobody held before unless the address space is used up, a new block is as the runtime reported it, and no other entry changes |
| Network.NetworkImpl.FromIP | pkg/nanokube/network.go:149-165 | The masked lookup returns a block exactly when some recorded block contains the address, and then the only such block; other than IPv4 finds nothing |
| Lines.SplitUnique | pkg/nanokube/log.go:270-280 | There is only one way to cut a byte stream into lines that end at their only newline and a newline-free rest |
| Lines.SplitAppend | pkg/driver/docker/docker.go:1594-1605 | Feeding a stream in two parts finishes the fragment the first part left |
| Framing.ParseEncoded | pkg/nanokube/streams.go:346-359 | Parsing inverts framing for every frame list, whatever incomplete frame follows |
| Framing.ParseSound | pkg/nanokube/streams.go:346-359 | Every byte stream is the frames parsing finds followed by what is left |
| Framing.WireFormat | pkg/driver/docker/docker.go:1626-1640 | A frame is its type, three bytes, the payload size in four bytes most significant first, and the payload |
| Framing.Proxy | pkg/nanokube/streams.go:346-375 | Each requested sink receives exactly its stream's payloads up to the end of the input or the first failed write, of which it may receive a part; without a failed write an error is reported exactly when the input breaks or ends inside a frame |
| Framing.Write | pkg/nanokube/streams.go:359-374 | One payload goes to the sink its frame names if that was asked for, and fails only there |
| LogSource.PeelLine | pkg/driver/docker/docker.go:1607-1619 | Stamp and message put together are the line when it starts with a timestamp, otherwise the clock stamps the whole line; the message always keeps its newline |
| LogSource.PrintReadBack | pkg/driver/docker/docker.go:1620 | A CRI line reads back as the stamp and message it was printed from |
| LogSource.PrintIsLine | pkg/driver/docker/docker.go:1620 | A formatted line has exactly one newline, at its end |
| LogSource.LineSpelled | pkg/driver/docker/docker.go:1607-1620 | A CRI line is spelled stamp, space, name of the stream, " F ", message, and the message ends at its only newline |
| LogSource.NamesTellApart | pkg/driver/docker/docker.go:1641-1648 | A line printed for one stream does not read back as a line of another whose name is as long |
| LogSource.Flush | pkg/driver/docker/docker.go:1598-1624 | Appends the formatted complete lines of the accumulator to the pipe and leaves exactly the unterminated fragment |
| LogSource.Feed | pkg/driver/docker/docker.go:1639-1649 | After one more payload the pipe and accumulator are those of the whole stream so far |
| LogSource.Route | pkg/driver/docker/docker.go:1632-1649 | Type 2 goes to stderr, every other type to stdout, and empty frames change nothing |
| LogSource.Demux | pkg/driver/docker/docker.go:1626-1650 | The stderr pipe holds the formatted complete lines of the payload bytes of type 2 under the name stderr, the stdout pipe those of all other types under the name stdout |
| LogSource.SameStdout | pkg/driver/docker/docker.go:1639-1649 | The log source and the stream proxy agree on stdout exactly when frames of other types than 1 and 2 are empty |
| Pump.Drain | pkg/nanokube/log.go:270-296 | The inner loop emits the cut of its buffer at newlines and at the length limit, and stops early exactly after the first line whose tap write fails |
| Pump.Run | pkg/nanokube/log.go:261-304 | The pump emits the fold of that cut over its reads, or its beginning up to the first line whose tap write fails |
| Pump.PumpShape | pkg/nanokube/log.go:261-304 | Every emitted line ends at its only newline or was forced without one at 65536 bytes or more, none exceeds 69631 bytes, and the residual buffer is newline-free and shorter than 65536 |
| Pump.BoundReached | pkg/nanokube/log.go:261-278 | Some reads make a line of exactly 69631 bytes, so the bound is the best one |
| Pump.PumpConserves | pkg/nanokube/log.go:261-304 | Emitted lines and residual buffer together are exactly the bytes read |
| Pump.PumpIsSplit | pkg/nanokube/log.go:270-280 | Without a newline-free stretch of 65536 bytes the pump splits exactly at newlines |
| Pump.LongForces | pkg/nanokube/log.go:273-278 | A pump that has read up to the end of such a stretch has broken a line without a newline |
| Pump.SplitsAtNewlines | pkg/nanokube/log.go:261-304 | The pump splits at newlines wherever its reads fall if and only if there is no such stretch |
| Pump.EndFlushed | pkg/nanokube/log.go:273-278 | With such a stretch only at the very end, every placing of the reads emits the complete lines and then that stretch as one line |
| Pump.ReadsMatter | pkg/nanokube/log.go:273-278 | With something behind such a stretch, two placings of the reads emit different lines |
| Pump.ReadIndependence | pkg/nanokube/log.go:261-304 | The lines emitted are independent of where the reads fall if and only if such a stretch occurs at most at the very end |
| LogPipeline.PassedWhole | pkg/driver/docker/docker.go:1590-1651 | Every CRI line reaches the file unsplit for all read boundaries if and only if each is at most 65536 bytes |
| LogPipeline.PassageEmits | pkg/driver/docker/docker.go:1590-1651 | For every framing, broken-off end and placing of reads the pipeline emits the CRI lines of the stream's complete lines and nothing else |
| LogPipeline.FramingIndependence | pkg/driver/docker/docker.go:1590-1651 | For any two framings of the same stream bytes, broken-off ends, placings of reads and clocks, one line comes out per complete input line, with the same message, and the same altogether where the input carried a stamp |
| LogPipeline.LineReadsBack | pkg/driver/docker/docker.go:1607-1620 | Each emitted line reads back as what was peeled off its input line |
| LogPipeline.LinesNameTheirStream | pkg/driver/docker/docker.go:1641-1648 | No line of the stderr pipe reads back as stdout, and none of the stdout pipe as stderr |
| LogPipeline.LinesSpelled | pkg/driver/docker/docker.go:1620 | Every line that comes out is stamp, space, name of the stream, " F ", message |
| LogStream.RunInv | pkg/nanokube/log.go:216-256 | In every interleaving the current file is open, files belong to existing pumps, and no pump has emitted more than it has |
| LogStream.StopBalance | pkg/nanokube/log.go:221-222 | In every interleaving stop bodies run, swaps won but not yet acted on, the swap that can be won now and the starts that found nothing stopped add up to the starts, plus one if a swap was won between the two flag stores of the first Start |
| LogStream.StopOncePerStart | pkg/nanokube/log.go:306-326 | In every interleaving the stop body runs at most once per Start unless a swap was won between those stores, and then at most once more |
| LogStream.StopsCanExceed | pkg/nanokube/log.go:306-326 | Once a Start has run, and until the next, stop bodies can come to outnumber the starts if and only if a swap was won between those stores and every later Start found the run before it stopped |
| LogStream.StoppedTwice | pkg/nanokube/log.go:221-222 | A run with one Start and two stop bodies exists |
| LogStream.CallsAccounted | pkg/nanokube/log.go:306-326 | In every interleaving each call of Stop is under way, has lost its swap, or has run the body, and only one of these |
| LogStream.LosesRightly | pkg/nanokube/log.go:306-313 | A call of Stop does nothing only if no Start has set its flag yet or another call has won since the last Start |
| LogStream.StartPumps | pkg/nanokube/log.go:224-255 | A Start that cannot open its file or source leaves no new pump running, and any other starts one for stdout and one for stderr |
| LogStream.StartsAccounted | pkg/nanokube/log.go:216-220 | In every interleaving the critical section of Start runs at most once per call |
| LogStream.DestroyedForGood | pkg/nanokube/log.go:216-219 | After Destroy no Start does anything but those already past its check |
| LogStream.ClosedStaysPut | pkg/nanokube/log.go:279-290 | No step of any interleaving writes to or reopens a closed log file, and a file is closed exactly by a stop body that finds it current |
| LogStream.OwnPrefixes | pkg/nanokube/log.go:279-290 | A file's lines from a pump of its own run are always a prefix of what that pump emitted, and all of it while the file is current |
| LogStream.QuietMerge | pkg/nanokube/log.go:216-256 | If no earlier pump has a line left when Start runs, each file is an order-preserving merge of whole-line prefixes of its own run's stdout and stderr |
| LogStream.RestartMixes | pkg/nanokube/log.go:279-290 | After any Start that opens a file, and until the next Start, a line of another run can reach that file if and only if some earlier pump had a line left |
| LogStream.RestartStops | pkg/nanokube/log.go:306-326 | After any Start that opens a file, and until the next Start, that file can be closed by a pump of another run or by a call made before this Start if and only if a pump was running or a call of Stop was under way |
| LogStream.CalmCloses | pkg/nanokube/log.go:306-326 | If every Start finds no pump running and no call of Stop under way, a file is only ever closed by its own run's pumps or by a call made after its Start |
| LogStream.ReopenRace | pkg/driver/docker/docker.go:1092-1099 | Reopening a log reaches a state where one file holds a line of its own run and then one of the earlier run |
| BidiPipe.RunInv | pkg/storage/stream.go:32-122 | In every run what was sent is what was received plus what is queued, queues stay within capacity, and responses close only after the result is stored |
| BidiPipe.Delivery | pkg/storage/stream.go:54-79 | In every run, cancelled ones included, each side has received, one message per receive, a prefix of the messages of the other's sends, at most 16 behind |
| BidiPipe.Endings | pkg/storage/stream.go:63-84 | The client sees the end only after the handler returned and everything it sent was received, and exactly the result it returned; the server sees end-of-file only after the half-close and every request |
| BidiPipe.EndReachable | pkg/storage/stream.go:41-48 | Once the handler has returned, its goroutine and the client can always go on until the client sees the end |
| BidiPipe.EndIsFinal | pkg/storage/stream.go:63-79 | Nothing arrives after the client has seen the end |
| BidiPipe.BlocksExactlyWhenStuck | pkg/storage/stream.go:54-122 | An operation blocks exactly on a full or empty open queue, and none blocks after cancellation |
| BidiPipe.PanicsExactly | pkg/storage/stream.go:41-45 | A run panics exactly at a client send after the half-close or a handler's send after its goroutine closed the responses |
| BidiPipe.DisciplinedNeverPanics | pkg/storage/stream.go:28-31 | A client that does not send after its half-close and a handler that does not send after returning never panic |
| Startup.RunInv | pkg/command.go:365-455 | In every interleaving hook bodies run behind their gates and the wait groups count the bodies still to return |
| Startup.Safety | pkg/command.go:217-229 | Every hook body starts only after what it waits for: the host name for update-kubeconfig, a ready node with its kubelet for untaint-node and update-status, complete custom paths for update-rbac, the kubeconfig with flags set for all others; startHooksDone closes only after all seven start hooks, the drain is registered only with complete paths and runs only in a shutdown, components are cancelled only after it, the server does not return during it, and storage is cancelled only after the server and all ten bodies returned |
| Startup.FailureCancels | pkg/command.go:890-942 | A body that fails cancels the process |
| Startup.InjectorWaits | pkg/nanokube/sync.go:12-25 | The injector can provide the paths by itself if and only if the kubelet's server is there, the process was cancelled, or it had begun |
| Startup.NoDeadlock | pkg/command.go:890-942 | In every run, some startup step is enabled until startHooksDone closes, unless update-kubeconfig returned without publishing, the kubelet without providing its server, or the API server without launching the kubelet or a start hook |
| Startup.StartupCompletes | pkg/command.go:365-443 | A run without failures and without a shutdown request has at most 36 steps plus one per custom path, and one that cannot go on has closed startHooksDone |
| Startup.ShutdownPossible | pkg/command.go:445-455 | From every state of every run, and whatever of the two assumptions on the rest of the run is made, some continuation cancels storage if and only if none of the named obstacles has occurred |
| Startup.StartupPossible | pkg/command.go:405-443 | Some continuation closes startHooksDone if and only if none of the obstacles to the start hooks has occurred; the drain, the scheduler and the controller manager are not among them |
| Startup.GaveUpRun | pkg/command.go:578-605 | A run in which update-kubeconfig returns without publishing exists |
| Startup.KubeletLostRun | pkg/command.go:224-225 | A run in which the kubelet returns without having provided its server exists, so that the hooks waiting for NodeReady never run |
| Startup.UnlaunchedRun | pkg/command.go:445-452 | A run in which the API server returns before it has launched a hook exists, so that the wait groups never reach zero |
| Startup.DrainMissedRun | pkg/command.go:399-402 | A run in which the stop hooks are run before the drain is among them exists, with nothing else amiss, so that no component is ever cancelled |
| Startup.UnreadyRun | pkg/command.go:450-452 | A run in which the API server returns before the node is ready exists, with every hook launched |
| Drain.Poll | pkg/command.go:860-869 | The filter over its own backing array leaves exactly the ordered subsequence of pods still found |
| Drain.Wait | pkg/command.go:859-872 | What is left is, in order, the pods found in every poll, and nothing is left exactly when each evicted pod was reported gone in some poll |
| Names.NormalizeLabels | pkg/nanokube/tags.go:57-66 | The result is empty or label syntax apart from length, and labels are exactly the strings left unchanged |
| Names.NormalizeIdempotent | pkg/nanokube/tags.go:57-66 | Normalising twice is normalising once, for every string and every lower-casing |
| Names.NormalizeJoinsWords | pkg/nanokube/tags.go:57-66 | The result is the lower-cased words of the name, in order, joined by single dashes |
| Decimal.ParsePrint | pkg/nanokube/tags.go:124-127 | A printed number reads back as itself, or as the 32-bit maximum when it does not fit |
| Decimal.PrintDecimal | pkg/nanokube/tags.go:328-333 | An attempt is printed in decimal digits without a leading zero |
| Decimal.ParseGarbage | pkg/nanokube/tags.go:124-127 | What is no numeral, the empty string included, reads as zero |
| Retry.TagBuilder.Clone | pkg/nanokube/tags.go:318-326 | A clone is a new object with equal tags |
| Retry.NextTry | pkg/driver/docker/docker.go:484-487 | One conflict yields a fresh builder whose label and name both carry the next attempt, every other tag as it was, and leaves the old builder alone |
| Retry.CreateContainer | pkg/driver/docker/docker.go:482-493 | The loop ends at the first free name, every name before it was taken, and label and name carry the same attempt |
| Retry.NameInjective | pkg/nanokube/tags.go:299-300 | Different attempts of a container have different names |
| Retry.NameSpelled | pkg/nanokube/tags.go:299-300 | A name spells container, attempt, pod and namespace in that order |
| Retry.LabelKeys | pkg/nanokube/tags.go:31-44 | Name, attempt and sandbox configuration are read under the driver's prefix |
| Retry.EndsWithin | pkg/driver/docker/docker.go:482-488 | With k of the container's names taken and the attempt within 32 bits the loop ends within k + 1 tries |
| Retry.SpinsForever | pkg/driver/docker/docker.go:483-488 | If every name up to attempt 2^32 is taken, every try however late is of a taken name |
| Retry.NeverTwice | pkg/driver/docker/docker.go:483-488 | No name is tried twice while the attempt grows |
| Retry.LabelMatchesName | pkg/nanokube/tags.go:328-333 | The attempt read back equals the one in the name exactly while it fits 32 bits |
| Listing.MatchLabels | pkg/driver/docker/docker.go:787-799 | The loop accepts exactly when every selected pair matches an unpacked or a raw label, missing keys reading as empty |
| Listing.ListContainers | pkg/driver/docker/docker.go:715-785 | Lists, in order, the records of the containers that pass the pushed-down query, identifier included, and the selector |
| Listing.ContainersListed | pkg/driver/docker/docker.go:715-785 | Every record listed describes an item labelled as managed by this driver and as a container, in the wanted sandbox and state |
| Listing.AllContainersListed | pkg/driver/docker/docker.go:715-722 | Without a filter exactly the items so labelled are listed |
| Listing.RawMatchExact | pkg/driver/docker/docker.go:787-799 | The driver accepts a selector exactly when the CRI labels carry each pair, or each pair they lack is an equal raw label or an empty value under a missing key |
| Listing.PushDown | pkg/driver/docker/docker.go:715-799 | Push-down equals listing everything managed and filtering the records if and only if no managed container of the wanted sandbox answers only by a loosely matched identifier, a raw label, a missing key, or because the unknown state was asked for |
| Listing.RawLabelListed | pkg/driver/docker/docker.go:792-795 | A container is listed for a pair it carries only as a raw runtime label |
| Listing.MissingKeyListed | pkg/driver/docker/docker.go:792-795 | A container is listed for an empty value under a key it does not have |
| Listing.LooseIdListed | pkg/driver/docker/docker.go:725-727 | A container is listed for an identifier that is not its own |
| Listing.UnknownListsAll | pkg/driver/docker/docker.go:731-744 | A filter for the unknown state lists what no state filter would |
| Listing.ListPodSandbox | pkg/driver/docker/docker.go:822-879 | Lists, in order, the records of the sandboxes that pass the pushed-down query, identifier included, and the selector |
| Listing.SandboxesListed | pkg/driver/docker/docker.go:822-879 | Every record listed describes an item labelled as managed by this driver and as a sandbox, in the wanted state |
| Listing.AllSandboxesListed | pkg/driver/docker/docker.go:822-829 | Without a filter exactly the items so labelled are listed |
| Listing.NeverBoth | pkg/driver/docker/docker.go:716-829 | Nothing is listed both as a container and as a sandbox |
| Listing.SandboxPushDown | pkg/driver/docker/docker.go:822-879 | For sandboxes push-down equals filtering afterwards if and only if no managed one in the wanted state answers only by a loosely matched identifier, a raw label or a missing key |
| Volumes.Backend.Handle | pkg/backend.go:225-258 | Handling events one after the other replays them on the volumes |
| Volumes.VolumesFollowClaims | pkg/driver/docker/docker.go:1686-1735 | Over every event sequence on claims with distinct derived names, this node holds after every event exactly the volumes of claims taken and not deleted since, if and only if each deletion that ends a claim carries the bound spec |
| Volumes.HeldUntilBound | pkg/driver/docker/docker.go:1774-1787 | At the end of every such sequence, whatever its deletions carry, a volume is held exactly when its claim was taken and no deletion since carried the bound spec |
| Volumes.DataGoesWithClaim | pkg/driver/docker/docker.go:1774-1838 | Over every event sequence on claims with distinct derived names, the data of a claim taken and then deleted while shown bound is gone |
| Volumes.ReleaseRemoves | pkg/driver/docker/docker.go:1826-1838 | A deletion that shows a claim bound removes this node's unretained volume and its data, and nothing else |
| Volumes.OthersUntouched | pkg/driver/docker/docker.go:1774-1838 | Over every event sequence, names derived from none of its claims keep their volume and data, and nothing is lost without a deletion that names it |
| Volumes.Kept | pkg/driver/docker/docker.go:1789-1838 | No event deletes another node's volume or retained data |
| Volumes.Repeated | pkg/backend.go:237-258 | Repeating any event changes nothing further |
| Volumes.SharedNameLoses | pkg/driver/docker/docker.go:1775-1779 | Two claims with one derived name lose a volume that is still owed, though every deletion carries the bound spec |
| Volumes.DistinctNamesNeeded | pkg/driver/docker/docker.go:1687-1691 | The volumes follow the claims over all event sequences with bound deletions if and only if the derived names are distinct |
| Volumes.VolumeNameShape | pkg/nanokube/tags.go:301-316 | Every derived name is two labels joined by a dot |
| Volumes.VolumeNameSpelled | pkg/driver/docker/docker.go:1687-1691 | Where prefix, namespace and name are labels the derived name spells them out |
| Volumes.NamesCollide | pkg/driver/docker/docker.go:1687-1691 | Such claims exist |
| Volumes.StaleDeleteLeaks | pkg/driver/docker/docker.go:1784-1787 | After every event sequence, deleting an owed claim through a spec that does not show it bound leaves its volume |

## Left out

- The pump and the log source see a finished byte stream; blocking reads, pipes filling up and write errors to the log file are not modelled.
- LogStream: a line is opaque there, a pump's lines are fixed when it starts, and the taps for external readers are in module Pump.
- Network.NetworkImpl.FromConfig: one call is one method call here; its interleaving with releases is in module Allocator, where storing the fresh block and setting its owner is one step.
- FromID, FromUID, Networks and FromStatus of the allocator: plain scans that would only add easy members.
- IPv6 bridge addresses: the default network is taken to be IPv4, as the 4-byte mask in the source needs.
- BidiPipe: the message-copying RecvMsg wrappers are left out.
- Startup: hook bodies other than update-kubeconfig only start and return, timeouts are steps that may happen at any time, an error while the server is being prepared ends the process before anything modelled here, and the kubelet may report the node ready after its command has returned.
- Drain.Wait: the choice of pods to evict and the eviction calls are left out; an answer depends on the poll and the pod.
- Listing: how the runtime matches an identifier is a parameter that only has to match an identifier with itself; images and statistics are left out.
- Volumes: API calls succeed, and mounting and creating the data volume are left out.
- Base64 and JSON decoding are uninterpreted; certificates, tunnels, discovery, storage back ends, other drivers and logging are not modelled.
