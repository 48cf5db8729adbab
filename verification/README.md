# gr-sched: a verified model of the benchmark blocks and flowgraphs

gr-sched measures the GNU Radio scheduler with a handful of its own blocks and with flowgraphs built from
them. This project models these blocks and flowgraphs as concurrent systems and proves what every schedule
keeps: any interleaving, any chunking, any random draw, any number of pipes and stages, any buffer size.
It also covers the two self-contained stateful parts of the repository, the sliding windows of the two
monitors and the lazily parsed doxygen object graph.

`dafny verify dfyconfig.toml` checks everything.

## What is modelled

**Messages** (`MessageNet`, `MessageFlowgraph`, `MessageSystem`, `MessageRuns`). A transition system over
an arbitrary graph of `msg_forward` blocks. Calling a handler and delivering the publication to each
subscriber are separate steps, so any other block may run between two deliveries; posting is a step of the
environment and may happen at any time. `CreateFork` and `CreateDiamond` are the two builders; their loops
are proved to produce the graphs that the theorems are about.

**Streams** (`StreamNet`, `StreamGraphs`, `StreamShapes`, `StreamDrain`, `StreamRuns`, `StreamDiamond`). A transition
system over graphs of stream blocks with bounded buffers. A buffer is the complete log of its writer
together with how far each reader has read. The scheduler may call any block with any number of items from
1 up to the chunk limit for which the output has room and the inputs hold enough. The five stream builders
are proved against the graphs; where the code of a builder is undefined or throws, they say so instead.

**Latency markers** (`Latency`, `LatencyBlocks`, `LatencyChain`). The tracepoint arithmetic with its 64-bit
and `int` counters, the two latency blocks as objects, and the chain source, any number of `copy_rand`,
sink.

**Copying** (`CopyBlocks`, `BlockSteps`, `PerfRefinement`). `copy_rand` and `ncopy` on the runtime's buffers,
the work calls of these two and of the latency blocks as steps of the stream transition system, and the
equivalence of `create_perf` with `create_default` and `create_opti`: the same streams can be delivered, each
simulates the other, and every sample is copied equally often. The networks carry two copy counters, one per
block and one per item, that every call updates. `copy`, `copy_rand` and `ncopy` count as copying; what
`head` and `interleave` pass on is not counted.

**Monitors** (`Monitor`). `repaint`, its three loops, and `filter_dict`.

**Documentation tree** (`DoxyPaths`, `DoxyDocs`, `DoxyMeaning`, `DoxyTree`). `DoxyDocs` is a resolver without
objects, caches or parsing. `DoxyMeaning` says in terms of positions, names, kinds and classes what its member
lists hold and what it answers. `DoxyTree` is the object graph, in which objects are indices into one table,
and every lookup is proved to return what the resolver says.

`Strides` holds the layout arithmetic (entry `j` of row `p`) by repeated addition, so that proofs stay
linear; `TimesIsProduct` and `RowIsQuotient` lead back to `*`, `/` and `%`. `Common` holds two shared types and
the size of items in bytes.

## The environment

Stated once, and taken from GNU Radio, whose runtime is not part of this model:

- A message port delivers every publication to every subscriber, in publication order; a block handles
  one message at a time, in arrival order.
- A stream buffer has one writer, any number of readers and a capacity of at least one item. The writer
  never gets further ahead of a reader than that capacity.
- `work` is called with at least one item and at most what fits. `nitems_read` and `nitems_written` are the
  totals before the call.
- The library's `copy` and `null_sink` take what they are given, `head` passes its first N items,
  `null_source` produces forever, `interleave(.., 1)` is round-robin. Whether `interleave` may stop in the
  middle of a round is a parameter (`whole`), and the results hold for both.
- The random draw of `copy_rand` is a parameter, any value the distribution admits.
- Doxygen gives every compound one refid and one file and lists nothing but compounds in its index; every
  compound listed and every member definition has a kind that one of the classes parses (`Sensible`).

`Quiescent`, `Settled` and `Quiet` describe the ends of runs: no message queued and no publication
unfinished, no block but a source callable, no block callable.

## Findings

- A `copy_rand` built with `max_copy` 0 stops its chain for good. A chain that was offered something
  drains exactly when no block has the limit 0 (`ChainDrains`). With the source at rest every schedule
  ends, whatever the limits and draws (`ChainEnds`).
- The stream diamond cannot deadlock, with one exception: if `interleave` works in whole rounds only, and
  a round is longer than its output buffer or the chunk limit, nothing ever reaches the sink. Complete
  delivery holds if and only if this is not the case or there is nothing to deliver
  (`DiamondCompletesIff`).
- The `int` loop counter of the latency blocks leaves its range exactly when the granularity is 1 and one
  call covers 2^31 - 1 items (`CounterInRange`). When the 64-bit item counter wraps, the tracepoints of that
  call are never the ones due (`ExactIff`): their number is wrong for every granularity except 1
  (`WrapCondition`), and for every granularity from 2 up to the count reached the loop overruns its counter
  (`DefinedIff`).
- The latency blocks accept a granularity of 0; the first call of `work` then divides by zero. The condition
  is `granularity > 0`, part of `Defined`.
- With `stages` below 1 the fork and diamond builders still make one block per pipe. The default and opti
  builders make none, so the sink of every pipe is connected to `d_blocks.back()` of an empty vector
  (utils/run_opti_flowgraph.cpp:62), which is undefined. This happens exactly when `stages` is below 1 and
  there is a pipe (`CreateDefault`). With a fifth pipe the opti and perf builders read past the end of
  `cpu_map` (utils/run_opti_flowgraph.cpp:80, 114), unless they have failed before (`CreateOpti`,
  `CreatePerf`).
- `name()` fails for every object made by `from_refid`: without parse data it reads the attribute `name` of
  the record parsed from the compound's file, and that record has `compoundname` instead
  (docs/doxygen/doxyxml/base.py:208, docs/doxygen/doxyxml/generated/compoundsuper.py:259-263). So every lookup
  at a level that holds, in the category, a compound the index does not list raises an AttributeError,
  whatever name is asked for (`FailsIff`, `UnlistedClassFails`). Lookups are safe from this exactly when every
  inner group and inner class is in the index (`NeverFailsIff`).
- An object whose documented name holds `::`, such as the qualified name of a class in a namespace, cannot be
  found under that name (`FoundByOwnName`).
- `_get_dict_members` says in its docstring that ambiguous names are mapped to `None`; the code maps them
  to the exception class `Duplicate`. The model follows the code.
- `process_memberdefs` keeps one definition per name, because the class it pairs the name with is that of
  the parse record and the same for all of them. So overloads never make a name ambiguous inside a class,
  file or namespace (`NoDuplicatesInside`).
- Splitting a joined path gives back the path only for lists of plain components (`SplitJoin` says
  exactly which); the lookups rely on it only for rests of paths, where it always holds (`RestSplits`).

## Model

In the rows about the fork and diamond builders, `pipes` stands for max(0, pipes) and `stages` for
max(1, stages), which is what their loops amount to (`PipeCount`, `PipeLength`).

| member | source | states |
|---|---|---|
| MessageNet.StepInv | lib/msg_forward_impl.cc:33-50 | each post, handler call and delivery keeps the invariant: at every block, handled log plus queue interleaves its posts with a prefix of each publisher's log |
| MessageNet.RunInv | lib/msg_forward_impl.cc:47-50 | the invariant holds after every schedule on every graph |
| MessageNet.SinglePublisherFifo | lib/msg_forward_impl.cc:47-50 | a block with one publisher has received exactly what was delivered of the publisher's log, in order |
| MessageNet.ArrivalsConserved | lib/msg_forward_impl.cc:47-50 | in every reachable state, how often a message arrived at a block is how often it was posted there plus how often each publisher delivered it |
| MessageNet.UnjoinedHandlesPosts | lib/msg_forward_impl.cc:47-50 | above any join, a block handles a prefix of the posts in posted order, and all of them at quiescence |
| MessageNet.SameHandledMultisets | lib/msg_forward_impl.cc:47-50 | on any acyclic graph, two complete runs with the same posts end with the same multiset of handled messages at every block |
| MessageNet.StepWork | lib/msg_forward_impl.cc:47-50 | the exact account of work done and still to be done is kept by every step: no step loses or invents a handler call or delivery |
| MessageNet.Progress | lib/msg_forward_impl.cc:47-50 | unless the network is quiescent some step other than a post is enabled |
| MessageNet.CanFinish | lib/msg_forward_impl.cc:47-50 | from every state the network can finish what it was given, in exactly as many steps as there is work remaining |
| MessageNet.CallsLogged | lib/msg_forward_impl.cc:47-50 | a schedule logs one handled message per handler call |
| MessageNet.RunCalls | lib/msg_forward_impl.cc:47-50 | the handler calls of a schedule are bounded by what the posts cost, and reach the bound exactly at quiescence |
| MessageNet.RunLength | lib/msg_forward_impl.cc:47-50 | every schedule is finite, and all complete schedules of the same posts are equally long |
| MessageFlowgraph.MsgFlowgraph.CreateFork | utils/run_msg_flowgraph.cpp:28-45 | the loops subscribe every first block to the source and every other block to the previous one of its own pipe, and nothing else |
| MessageFlowgraph.MsgFlowgraph.CreateDiamond | utils/run_msg_flowgraph.cpp:48-68 | the same with the sink subscribed to the last block of every pipe |
| MessageFlowgraph.MakeFlowgraph | utils/run_msg_flowgraph.cpp:12-26 | "fork" gives the fork, "diamond" the diamond, and any other string is refused, for any numbers of pipes and stages |
| MessageFlowgraph.ForkIsFork | utils/run_msg_flowgraph.cpp:28-45 | nobody publishes to the source, and to every other block exactly one block publishes: the one before it in its pipe, or the source |
| MessageFlowgraph.DiamondIsDiamond | utils/run_msg_flowgraph.cpp:48-68 | the same for the pipes, and to the sink the last block of every pipe publishes, in the order of the pipes |
| MessageFlowgraph.ForkMessageCost | utils/run_msg_flowgraph.cpp:28-45 | one message posted to a fork costs 1 + pipes * stages handler calls and pipes * stages deliveries |
| MessageFlowgraph.DiamondMessageCalls | utils/run_msg_flowgraph.cpp:48-68 | one message posted to a diamond costs 1 + pipes * (stages + 1) handler calls |
| MessageFlowgraph.DiamondMessageSteps | utils/run_msg_flowgraph.cpp:48-68 | ... and one delivery for each of them but the first |
| MessageSystem.MsgSystem.PostMsg | utils/run_msg_flowgraph.cpp:138-142 | posting is the environment step of the transition system and changes nothing but the queue and log of the source |
| MessageSystem.MsgSystem.HandleMsg | lib/msg_forward_impl.cc:47-50 | taking the head of the queue and publishing it to every subscriber is a schedule of the transition system: one handler call and one delivery per subscription, in subscription order |
| MessageSystem.PublicationInOrder | lib/msg_forward_impl.cc:47-50 | this schedule is one handler call followed by one delivery along every subscription of the block, in subscription order |
| MessageRuns.ForkDelivers | utils/run_msg_flowgraph.cpp:28-45 | in every run every block of the fork has received a prefix of the burst in posted order, and handled all of it at quiescence |
| MessageRuns.ForkCalls | utils/run_msg_flowgraph.cpp:28-45 | B posted messages cause at most B * (1 + pipes * stages) handler calls, and exactly that many if and only if the run is complete |
| MessageRuns.ForkTerminates | utils/run_msg_flowgraph.cpp:28-45 | the number of scheduler steps is bounded likewise, so every schedule of the fork ends |
| MessageRuns.DiamondPipeDelivers | utils/run_msg_flowgraph.cpp:48-68 | every block of every pipe of the diamond receives the burst in posted order |
| MessageRuns.DiamondSinkShuffles | utils/run_msg_flowgraph.cpp:48-68 | in every reachable state the sink has received a shuffle of one prefix of the burst per pipe, and at quiescence a shuffle of one whole burst per pipe |
| MessageRuns.DiamondSinkMultiset | utils/run_msg_flowgraph.cpp:48-68 | every message arrives at the sink exactly `pipes` times as often as it was posted |
| MessageRuns.DiamondCalls | utils/run_msg_flowgraph.cpp:48-68 | B posted messages cause at most B * (1 + pipes * (stages + 1)) handler calls, and exactly that many if and only if the run is complete |
| MessageRuns.DiamondTerminates | utils/run_msg_flowgraph.cpp:48-68 | every schedule of the diamond ends, and all complete ones are equally long |
| MessageRuns.DiamondScheduleIndependent | utils/run_msg_flowgraph.cpp:48-68 | two complete runs from the same burst end with equal logs everywhere but at the sink, and with the same multiset there |
| Latency.CallContinues | lib/null_source_latency_impl.cc:47-52 | a call continues the numbering exactly where the calls before it stopped |
| Latency.ChunkingIrrelevant | lib/null_source_latency_impl.cc:47-52 | however W items are chunked into calls, the log is 1, 2, ..., floor(W / granularity) |
| Latency.MarkersInFlight | lib/null_sink_latency_impl.cc:43-48 | received markers are a prefix of sent ones; with B items between, floor(B / g) to ceil(B / g) markers are outstanding |
| Latency.CounterInRange | lib/null_source_latency_impl.cc:48-50 | a call emits at most ceil(n / g) markers, and the `int` counter stays in range if and only if g > 1 or n < 2^31 - 1 |
| Latency.WrapCondition | lib/null_source_latency_impl.cc:47-50 | 64-bit arithmetic counts the markers of a call right if and only if the item counter does not wrap or g = 1 |
| Latency.ExactIff | lib/null_source_latency_impl.cc:47-52 | the tracepoints of a call are the ones due if and only if the 64-bit item counter does not wrap |
| Latency.DefinedIff | lib/null_source_latency_impl.cc:47-52 | exactly which calls keep the `int` counter in range, wrapping ones included |
| LatencyBlocks.EmitTracepoints | lib/null_source_latency_impl.cc:47-52 | for every call that has a defined outcome, the loop appends the numbers that 64-bit arithmetic gives |
| LatencyBlocks.NullSourceLatency.constructor | lib/null_source_latency_impl.cc:25-32 | a new source has sent no items and no markers |
| LatencyBlocks.NullSourceLatency.Work | lib/null_source_latency_impl.cc:39-55 | the output is zeroed over the bytes produced and untouched beyond them, and unless the item counter wraps the log stays the markers due for all items written so far |
| LatencyBlocks.NullSinkLatency.constructor | lib/null_sink_latency_impl.cc:25-32 | a new sink has read no items and received no markers |
| LatencyBlocks.NullSinkLatency.Work | lib/null_sink_latency_impl.cc:39-51 | unless the item counter wraps the log stays the markers due for all items read so far |
| LatencyChain.ChainConserves | lib/copy_rand_impl.cc:61-79 | in every reachable state, what a block passed on followed by everything buffered before it is exactly what the source produced: nothing lost, duplicated or reordered |
| LatencyChain.ChainMarkers | lib/null_sink_latency_impl.cc:39-51 | in every reachable state the received markers are a prefix of the sent ones and between floor(B / g) and ceil(B / g) are outstanding, B being the items in transit |
| LatencyChain.ChainDrains | lib/copy_rand_impl.cc:69-78 | a chain in which only the source can still act has delivered everything if and only if every `max_copy` is at least 1 |
| LatencyChain.ChainCalls | lib/copy_rand_impl.cc:69-78 | every schedule from the start calls each `copy_rand` at most N times, N being the items produced; a schedule that drains them calls it at least N / max_copy times |
| LatencyChain.ChainEnds | lib/copy_rand_impl.cc:61-79 | every schedule without the source moves exactly the hops by which it lowers the number of hops left, at least one per call, so it ends, whatever the limits and the draws |
| LatencyChain.ChainDelivers | lib/copy_rand_impl.cc:69-78 | if every `max_copy` is at least 1, a schedule without the source is complete if and only if it has moved all hops that were left, and if and only if the sink has received everything produced |
| LatencyChain.ChainCanDrain | lib/copy_rand_impl.cc:69-78 | ... and from every reachable state there is one that delivers everything with all markers, in at most one call per hop |
| CopyBlocks.CopyRand.GeneralWork | lib/copy_rand_impl.cc:61-79 | as many items as are drawn are produced and consumed, their bytes are the input's first bytes and are copied once, the rest of the output is untouched; nothing happens exactly when there is no room, no input or a limit of 0 |
| CopyBlocks.Make | lib/ncopy_impl.cc:33-49 | more than 99 copies are refused, anything else is built |
| CopyBlocks.NCopy.constructor | lib/ncopy_impl.cc:39-49 | the block fits its member array of 100 rows of 32768 |
| CopyBlocks.NCopy.Work | lib/ncopy_impl.cc:53-75 | for any stale contents of the rows the output is the current input; each sample is copied max(1, n) times; only rows 0 to n - 2, and of those only the first entries, are touched |
| BlockSteps.CopyRandStep | lib/copy_rand_impl.cc:61-79 | in any graph, `general_work` on byte buffers is a step of the transition system for the number of items drawn; what it writes are the bytes of the items that the step logs, and it copies as many as the step counts |
| BlockSteps.NCopyStep | lib/ncopy_impl.cc:53-75 | in any graph, `work` of an `ncopy` is the step for all its items, and makes as many single copies as the step counts |
| BlockSteps.SourceStep | lib/null_source_latency_impl.cc:39-55 | in any graph, `work` of the latency source is the step for all its items, and the tracepoints and the item counter of the object are those of the step |
| BlockSteps.SinkStep | lib/null_sink_latency_impl.cc:39-51 | the same for the latency sink |
| BlockSteps.BytesConserved | lib/copy_rand_impl.cc:69-78 | in every reachable state of the chain, the bytes a block passed on followed by the bytes buffered before it are the bytes the source produced |
| StreamNet.FireInv | lib/copy_rand_impl.cc:61-79 | every call of every kind of block keeps the invariant: each log is what its inputs make of it, no buffer over- or underflows, markers and copies match the items moved, and calls are at most the items and at least the items over the limit |
| StreamNet.RunInv | utils/run_buf_flowgraph.cpp:36-90 | the invariant holds after every schedule on every graph |
| StreamNet.ReachesInv | utils/run_buf_flowgraph.cpp:36-90 | every state reachable from the empty network satisfies the invariant |
| StreamRuns.ForkHeaded | utils/run_buf_flowgraph.cpp:36-58 | in the fork every input port is connected exactly once, to a block created earlier, and the source is read by the head alone |
| StreamDiamond.DiamondWellFormed | utils/run_buf_flowgraph.cpp:61-90 | in the diamond every input port, those of the interleaver included, is connected exactly once, to a block created earlier |
| StreamRuns.PipesHeaded | utils/run_opti_flowgraph.cpp:40-129 | the same for the flowgraphs of disjoint pipes: every input port is connected exactly once, to a block created earlier, and every source is read by the head of its pipe alone |
| StreamGraphs.BufFlowgraph.CreateFork | utils/run_buf_flowgraph.cpp:36-58 | `blocks.back()` is always the previous stage of the same pipe: the loops build, pipe by pipe, chains of copies that end in a sink of their own |
| StreamGraphs.BufFlowgraph.CreateDiamond | utils/run_buf_flowgraph.cpp:61-90 | ... and in the diamond `ends[i]` is the last copy of pipe i, connected to port i of the interleaver |
| StreamGraphs.JoinEnds | utils/run_buf_flowgraph.cpp:84-89 | the interleaver reads the ends in order and the sink reads the interleaver |
| StreamShapes.ForkBlock | utils/run_buf_flowgraph.cpp:44-57 | which block stands at every position of every pipe of the fork, and that it reads the one before it in its own pipe, or the head |
| StreamDiamond.DiamondCopy | utils/run_buf_flowgraph.cpp:70-82 | the same for the pipes of the diamond |
| StreamShapes.PipePosition | utils/run_opti_flowgraph.cpp:40-129 | the same for disjoint pipes |
| StreamGraphs.OptiFlowgraph.CreateDefault | utils/run_opti_flowgraph.cpp:40-64 | one source, head, chain of `stages` copies and sink per pipe, with no connection between pipes; undefined if and only if there is a pipe without stages |
| StreamGraphs.OptiFlowgraph.CreateOpti | utils/run_opti_flowgraph.cpp:66-100 | the same graph, with the runtime limited to 8192 items per call; undefined likewise, and with more than four pipes |
| StreamGraphs.OptiFlowgraph.CreatePerf | utils/run_opti_flowgraph.cpp:103-129 | one `ncopy` per pipe in place of the chain; a pipe of more than 99 stages fails, more than four pipes are undefined; at most 8192 items per call |
| StreamShapes.ForkConnections | utils/run_buf_flowgraph.cpp:42-57 | the fork has 1 + pipes * (stages + 1) connections |
| StreamShapes.DiamondConnections | utils/run_buf_flowgraph.cpp:66-89 | the diamond has 2 + pipes * (stages + 1) connections |
| StreamShapes.PipesConnections | utils/run_opti_flowgraph.cpp:40-129 | the other flowgraphs have one connection less than blocks in every pipe, so none between pipes |
| StreamShapes.ForkPath | utils/run_buf_flowgraph.cpp:44-57 | every sink of the fork is reached from the head over exactly `stages` copies of its own pipe |
| StreamShapes.DiamondPath | utils/run_buf_flowgraph.cpp:70-82 | the interleaver reads every pipe behind exactly `stages` copies |
| StreamShapes.ForkItemsCopied | utils/run_buf_flowgraph.cpp:36-58 | in every reachable state every item at a sink of the fork has been copied exactly `stages` times |
| StreamShapes.DiamondItemsCopied | utils/run_buf_flowgraph.cpp:61-90 | in every reachable state every item at the sink of the diamond has been copied exactly `stages` times |
| StreamShapes.PipeItemsCopied | utils/run_opti_flowgraph.cpp:40-129 | the same for disjoint pipes: once per copy block, or as often as the `ncopy` stands for |
| StreamDrain.DeliversPrefix | utils/run_buf_flowgraph.cpp:36-58 | in any graph without joins whose sources are read by heads only, each block has received a prefix of its source's first N items, whatever its `copy_rand` blocks can move |
| StreamDrain.Delivers | utils/run_buf_flowgraph.cpp:36-58 | ... and all of them when nothing can be called, if every `copy_rand` can move something |
| StreamDrain.SameOutcome | utils/run_buf_flowgraph.cpp:36-58 | complete runs end with equal logs whatever the schedules, chunk limits and buffer sizes |
| StreamDrain.RunEnds | utils/run_buf_flowgraph.cpp:36-58 | the number of calls of a run is bounded before it starts |
| StreamDrain.CanFinish | utils/run_buf_flowgraph.cpp:36-58 | from every reachable state some schedule completes the run |
| StreamDrain.CallsCounted | lib/copy_rand_impl.cc:61-79 | over every run the call counter of a block grows by the number of its calls in the schedule |
| StreamDrain.CallBounds | lib/copy_rand_impl.cc:69-78 | every schedule from the start calls a block at most once per item, and a `copy_rand` at least items / max_copy times |
| StreamDrain.MaxZeroBlocks | lib/copy_rand_impl.cc:69-78 | a `copy_rand` with limit 0 never passes on anything |
| StreamRuns.ForkDelivers | utils/run_buf_flowgraph.cpp:36-58 | every copy and sink of the fork receives the source's first N items, in order, and all of them in a complete run |
| StreamRuns.PipeDelivers | utils/run_opti_flowgraph.cpp:40-64 | the same for every position of every pipe of the three other flowgraphs |
| StreamRuns.PerfCallsFit | utils/run_opti_flowgraph.cpp:106 | in every run under the limit that `create_perf` sets, every call is for no more items than a row of `ncopy` holds |
| StreamDiamond.SinkItem | utils/run_buf_flowgraph.cpp:61-90 | in every reachable state item k at the sink is the head's item floor(k / pipes) |
| StreamDiamond.DiamondCompletes | utils/run_buf_flowgraph.cpp:61-90 | no deadlock: when nothing can be called, every block has passed on all samples and the sink has received pipes * samples items |
| StreamDiamond.DiamondCompletesIff | utils/run_buf_flowgraph.cpp:61-90 | a run that ends delivers everything if and only if one quantum of the interleaver fits its buffer and the chunk limit, or there is nothing to deliver |
| StreamDiamond.DiamondCanComplete | utils/run_buf_flowgraph.cpp:61-90 | from every reachable state some schedule delivers all pipes * samples items to the sink |
| StreamDiamond.DiamondEnds | utils/run_buf_flowgraph.cpp:61-90 | the number of calls of a run of the diamond is bounded before it starts |
| PerfRefinement.RunToLengths | utils/run_opti_flowgraph.cpp:40-129 | every run of a pipe flowgraph is a run on the lengths of its logs |
| PerfRefinement.LengthsToRun | utils/run_opti_flowgraph.cpp:40-129 | every run on lengths is the trace of a run of the flowgraph |
| PerfRefinement.DeliverableIff | utils/run_opti_flowgraph.cpp:40-129 | what the sinks of disjoint pipes can have received is exactly, for every pipe independently, any beginning of its source's first N items, whatever the copies, buffers and chunk limit |
| PerfRefinement.PerfDeliversSame | utils/run_opti_flowgraph.cpp:103-129 | the `ncopy` flowgraph and the chain flowgraph can deliver exactly the same streams, for any chunk limits and buffers on either side |
| PerfRefinement.MatchCall | lib/ncopy_impl.cc:53-75 | a call of a sink is matched by as many items flowing through the other flowgraph's pipe, a call of any other block by nothing |
| PerfRefinement.PipesSimulate | utils/run_opti_flowgraph.cpp:40-129 | every run of a flowgraph of disjoint pipes is matched by a run of any other with as many pipes and samples, whatever the two runtimes |
| PerfRefinement.PerfRefinesChains | utils/run_opti_flowgraph.cpp:103-129 | every run of the `ncopy` flowgraph is matched by a run of the chain flowgraph, ending in matching states |
| PerfRefinement.ChainsRefinePerf | utils/run_opti_flowgraph.cpp:103-129 | ... and the other way round |
| PerfRefinement.MatchedSinksAgree | utils/run_opti_flowgraph.cpp:103-129 | in matching states the sinks have received the same streams |
| PerfRefinement.PerfSameOutcome | utils/run_opti_flowgraph.cpp:103-129 | complete runs with `ncopy` and with chains deliver the same streams to the sinks |
| PerfRefinement.PerfBehavesLikeChains | utils/run_opti_flowgraph.cpp:103-129 | whatever the `ncopy` flowgraph has delivered at some moment of some run, the chain flowgraph can deliver, under any runtime |
| PerfRefinement.ChainsBehaveLikePerf | utils/run_opti_flowgraph.cpp:103-129 | ... and the other way round |
| PerfRefinement.SameCopies | lib/ncopy_impl.cc:53-75 | any two complete runs, under any two runtimes, have made stages * samples copies in every pipe |
| PerfRefinement.PerfItemsCopied | lib/ncopy_impl.cc:53-75 | in every reachable state of the `ncopy` flowgraph every item at a sink has been copied exactly `stages` times |
| PerfRefinement.ChainItemsCopied | utils/run_opti_flowgraph.cpp:40-64 | ... and in every reachable state of the chain flowgraph |
| Monitor.FilterDict | utils/mon_mig.py:83-94 | exactly the counts of the watched thread names remain |
| Monitor.Max | utils/mon_mig.py:116 | the largest sample of a window |
| Monitor.TicksAgree | utils/mon_mig.py:96-120 | after any ticks a name is present if and only if one of its last n samples is not zero, and then with exactly these samples |
| Monitor.PruningInvisible | utils/mon_mig.py:114-119 | deleting names and adding them again later shows the same curves as never deleting any |
| Monitor.Plot.UpdateExisting | utils/mon_cache.py:123-129 | every known name is shifted by its count or by zero, and only new names are left over |
| Monitor.Plot.AddNew | utils/mon_cache.py:131-133 | every new name gets a curve of zeros that ends with its count, and a legend entry |
| Monitor.Plot.DeleteOutdated | utils/mon_cache.py:135-140 | exactly the all-zero curves and their legend entries are removed |
| Monitor.Plot.Repaint | utils/mon_cache.py:118-140 | a tick keeps the agreement with the full history, which grows by this tick |
| Monitor.Plot.RepaintWatched | utils/mon_mig.py:96-120 | the same for the watched names only; other names count as absent |
| DoxyPaths.JoinSplit | docs/doxygen/doxyxml/base.py:140-142 | joining the components of a name gives back the name |
| DoxyPaths.RestSplits | docs/doxygen/doxyxml/base.py:140-148 | the joined rest of a path splits into the remaining components, is shorter, and is empty exactly at the end of the path or before a trailing `::` |
| DoxyPaths.SplitJoin | docs/doxygen/doxyxml/base.py:140-142 | a list of components survives joining and splitting if and only if no component holds a separator or ends with a colon before one |
| DoxyMeaning.FilterPicks | docs/doxygen/doxyxml/base.py:128-135 | the members of a category are the members that are instances of one of its classes, with their order and multiplicity; `None` is every member |
| DoxyMeaning.LevelIs | docs/doxygen/doxyxml/base.py:111-146 | a component is found if exactly one position of the category has the name, a duplicate if two have it, missing if none has; if any member of the category has no name the lookup is an error instead |
| DoxyMeaning.PathIs | docs/doxygen/doxyxml/base.py:137-149 | a lookup goes from level to level by what each level finds, and the first level that fails, or the last one, decides the answer; an empty last component is not asked for |
| DoxyMeaning.PathOnly | docs/doxygen/doxyxml/base.py:137-149 | no other answer can be reached that way |
| DoxyMeaning.IndexLaid | docs/doxygen/doxyxml/doxyindex.py:28-46 | the members of the index are one group per entry in index order: of a header or namespace its members in their order and then itself, of another file nothing, of anything else the compound |
| DoxyMeaning.IndexHolds | docs/doxygen/doxyxml/doxyindex.py:28-46 | so the members of listed headers and namespaces are members of the index, and nothing else is besides the listed compounds that are no other files |
| DoxyMeaning.CompoundMembersLaid | docs/doxygen/doxyxml/doxyindex.py:167-254 | the members of a group are its inner groups, its inner classes and its kept definitions, of a class, file or namespace its kept definitions, each in the order of the documentation; kept is the first definition of every name |
| DoxyMeaning.SectionsInOrder | docs/doxygen/doxyxml/base.py:166-169 | the definitions of a compound are those of its sections, section by section |
| DoxyMeaning.EntryIs | docs/doxygen/doxyxml/doxyindex.py:49-59 | a listed compound has the class of its kind and the name of its entry |
| DoxyMeaning.InnerIs | docs/doxygen/doxyxml/doxyindex.py:239-251 | an unlisted inner compound is a group or a class according to the list it is in, and has no name |
| DoxyMeaning.DefIs | docs/doxygen/doxyxml/doxyindex.py:49-59 | a definition has the class of its kind, its own name and no members |
| DoxyDocs.ResolveInParts | docs/doxygen/doxyxml/base.py:137-149 | looking up a path in two parts is looking up the whole path |
| DoxyDocs.NoDuplicatesInside | docs/doxygen/doxyxml/base.py:166-179 | inside a class, file or namespace no name is ambiguous, and every defined name is found |
| DoxyDocs.IndexListsHeaders | docs/doxygen/doxyxml/doxyindex.py:33-46 | a compound is a member of the index if and only if the index lists it and it is not a file other than a header |
| DoxyDocs.FailsIff | docs/doxygen/doxyxml/base.py:203-208 | a lookup fails with an AttributeError if and only if some level it reaches holds, in the category, a compound that the index does not list |
| DoxyDocs.NeverFailsIff | docs/doxygen/doxyxml/base.py:203-208 | no lookup anywhere fails this way if and only if the index lists every inner group and inner class |
| DoxyDocs.IndexLevelNeverFails | docs/doxygen/doxyxml/base.py:203-208 | a single component looked up at the index never fails this way |
| DoxyDocs.UnlistedClassFails | docs/doxygen/doxyxml/base.py:203-208 | documentation in which every lookup inside a group fails this way |
| DoxyDocs.FoundByOwnName | docs/doxygen/doxyxml/base.py:137-149 | a member is found under its own name if and only if the name holds no `::` and is unambiguous |
| DoxyTree.Tree.constructor | docs/doxygen/doxyxml/base.py:36-51 | a new tree holds the unparsed index and no references |
| DoxyTree.Tree.FromRefid | docs/doxygen/doxyxml/base.py:53-63 | a refid yields the object bound to it, and is bound to a new one only if it was unbound |
| DoxyTree.Tree.ConvertEntry | docs/doxygen/doxyxml/base.py:65-98 | the same for an entry of the index |
| DoxyTree.Tree.ConvertDef | docs/doxygen/doxyxml/base.py:65-98 | a member definition gets an object of its own and binds nothing |
| DoxyTree.Tree.ProcessMemberdefs | docs/doxygen/doxyxml/base.py:166-179 | the first definition of every name becomes a member, in order |
| DoxyTree.Tree.FillGroup | docs/doxygen/doxyxml/doxyindex.py:234-254 | a group's members are its inner groups, inner classes and definitions, each compound being the one object of its refid, however the groups refer to each other |
| DoxyTree.Tree.FillMembers | docs/doxygen/doxyxml/doxyindex.py:167-254 | the members of a compound are those the documentation gives it |
| DoxyTree.Tree.CheckCompound | docs/doxygen/doxyxml/base.py:190-192 | an object is parsed at most once; its members, and what every refid is bound to, never change afterwards |
| DoxyTree.Tree.ParseIndex | docs/doxygen/doxyxml/doxyindex.py:28-46 | the index's members are the contents of the headers and namespaces, each followed by its container, and all other compounds but files, in index order (`IndexLaid`) |
| DoxyTree.Tree.CheckParsed | docs/doxygen/doxyxml/base.py:190-192 | after the check the members stand for what the documentation says |
| DoxyTree.Tree.Name | docs/doxygen/doxyxml/base.py:203-208 | the name from the parse data, and a failure exactly for objects made from a refid, whose parsed record has no such attribute |
| DoxyTree.Tree.InCategory | docs/doxygen/doxyxml/base.py:128-135 | the members of a category (`FilterPicks`), cached or not |
| DoxyTree.Tree.GetDictMembers | docs/doxygen/doxyxml/base.py:111-126 | fails exactly if a member of the category has no name; otherwise a name is in the dictionary if and only if a member has it, and marked if and only if several have it |
| DoxyTree.Tree.GetMember | docs/doxygen/doxyxml/base.py:137-149 | in every state of the caches the result is the resolver's: the member, no such member, duplicate, or an AttributeError, decided at the first failing component (`PathIs`, `LevelIs`) |
| DoxyTree.Tree.HasMember | docs/doxygen/doxyxml/base.py:151-156 | true for a member, false for none; a duplicate or an AttributeError gets through |
| DoxyTree.LookUpAll | docs/doxygen/doxyxml/base.py:111-156 | any sequence of lookups is answered by the resolver, whatever was parsed and cached before |
| DoxyTree.SameObject | docs/doxygen/doxyxml/base.py:53-78 | equal questions are answered with the same object |

## Left out

- The `system` port, the `done` message, thread shutdown and timing: the runtime decides them. Runs end at quiescence instead.
- Processor affinity, real-time priority, performance counters, option parsing and output of the `main` functions.
- The internals of the Mersenne Twister, and LTTng: a draw is any admitted value, a tracepoint is an entry of a log without the block's unique id.
- `copy_rand`'s `forecast`: a hint to the runtime; the model lets the scheduler choose any chunk, so it covers every hint.
- What the opti and perf builders do after undefined behaviour: the model stops there.
- A stream diamond with no pipe: an interleaver without inputs is not a block the runtime accepts.
- LatencyBlocks.NullSourceLatency.Work: requires a call with a defined outcome, one that neither divides by zero nor overruns the `int` counter; `DefinedIff` says which these are. The same holds for `EmitTracepoints` and the sink.
- CopyBlocks.NCopy.Work: requires at most 32768 items when there are two or more copies, because the code overruns its rows otherwise; `PerfCallsFit` shows that the limit of `create_perf` ensures it.
- Plotting, the horizontal axis, BPF programs and the cache monitor's batching of events; dictionary loops iterate over a snapshot of the keys, as the Python 2 scripts do.
- utils/mon_tp.py: it divides the counts of known names by the interval but not those of new ones, so its windows are not the samples.
- DoxyTree.Tree.ConvertEntry: the error path of `convert_mem`, which prints and returns nothing, is not modelled; `Sensible` says that every kind has a class.
- XML reading, `ParsingError`, descriptions and parameters in `_data`, and the categories that `update_pydoc.py` defines for itself.
- An unindexed compound that is both an inner group and an inner class: the code gives it the class of whichever reference is met first; `Sensible` excludes it.
- Object identity in the documentation tree is an index into one table, so aliasing between trees is not modelled.
- Generated code, build files, bindings, shell scripts and log parsers.
