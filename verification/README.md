# A verified model of the packet inspection engine

The engine reads a capture, groups packets into flows by five-tuple, names each flow by the TLS server name or HTTP host
it carries, and drops the packets of blocked flows. There are two drivers: V1, one sequential pass with an analyzer's
second pass behind it, and V2, a producer with N worker threads, each with its own queue, processor and flow table.
This project models both drivers, the two name extractors and the rules in Dafny, and proves what the design claims of
them, above all that V2 needs no locks.

| files | what they model |
|---|---|
| `Base`, `Text` | sequences, UTF-8 (decoding with `errors="ignore"` included), `split`, `join`, `strip` |
| `ClientHello`, `HttpHost` | the TLS server name walk, the ClientHello builder, the HTTP Host scan |
| `Rules`, `Subdomains` | normalisation, label matching, classification, blocking, and when subdomains share them |
| `Parser`, `Tracker`, `Sightings`, `Processor` | parsed packets, flow objects and the flow table updated in place, V2's `process` |
| `Runs`, `Verdicts`, `Engine` | whole captures: closed forms of every verdict, V1 against V2, the analyzer's second pass, the offline filter |
| `Witnesses` | captures on which the drivers differ, under the default rules |
| `Balancer` | flow keys, their hashed text, the choice of worker; the checksum is an arbitrary function of the bytes |
| `Pool`, `PoolInvariant`, `PoolLiveness` | the threads as a step system under any schedule, for any processor that may fail |
| `PoolObjects` | queue, worker, pool and pipeline objects, refining that step system turn by turn |
| `Pipeline`, `Report`, `LiveResults` | the pool running `process`: every interleaving equals the sequential run; the report |
| `Configured`, `Totals` | the verdicts of a configured engine and the numbers of its report, on the captured packets and the lists of rules alone |

How the pieces fit:

* Code that updates objects in place is a class whose methods are proved against a function of the old state
  (`ConnectionTracker` against `Tracker.Track`, `DPIProcessor` against `Processor.ProcessTable`, the V2 objects against
  `Pool.Turn`). The theorems are about those functions.
* The flow theorems take the rules as a `Policy`, four arbitrary functions, and a packet as a `Sighting`: its key and
  the names the extractors find in it. `RuleManager.ToPolicy` and `Sightings.See` connect them to the real rules and the
  real byte parsers, and `Configured` states the verdicts for those, without policies, flows or tables.
* A schedule is any sequence of thread names. A thread that cannot move (a `join` that has to wait) stutters. A worker's
  turn ends wherever another thread could observe the difference: at the stop test, in `pop` (where an empty queue is
  the timeout), after the processor, after `task_done`.
* An exception is `None`, or `Raised` with its text where a worker catches it. `get_or_create_flow` without a five-tuple is modelled as it is: the entry is created, and then
  reading the rules raises.

What the proofs turned up:

* The original README, line 1194, says the rule `facebook` does not match `facebook.evil.com`. The code matches a
  dotless rule against any label of the domain (`Subdomains.LabelRuleHitsAnyPosition`), and blocks that domain
  (`Subdomains.LabelRuleBlocksItsNamesake`).
* `lower().strip().rstrip(".")` is not idempotent: `a.com .` needs two rounds. `Rules.NormalizeTwice` says for which
  domains: those where stripping the white space and then the dots at the right end uncovers white space.
* Not every subdomain of a blocked domain is blocked, in two ways. White space in front of a domain is stripped from the
  domain alone, but not behind a label (`Subdomains.WhiteSpaceLetsSubdomainsThrough`), and a domain that is nothing but
  dots normalises to nothing, while its subdomains do not (`Subdomains.NothingLetsSubdomainsThrough`).
  `Subdomains.SubdomainsBlockedExactly` gives the exact condition for all subdomains to be blocked, for every domain.
  Classification has the first of these gaps (`Subdomains.WhiteSpaceLosesTheApp`), with its own exact condition
  (`Subdomains.SubdomainsAppExactly`).
* The offline filter of `main.py` is not contained in what V1's engine forwards. `Engine.FilterAgainstEngine` gives the
  exact difference: packets without a five-tuple, which the engine never forwards, and packets to port 0 with evidence
  against their flow, which the analyzer does not track. `Witnesses.FilterKeepsPortZero` and
  `Witnesses.FilterKeepsNotIp` are such captures.
* V1 and V2 do not give the same verdicts. V2 drops whatever V1 drops (`Verdicts.V2IsStricter`),
  `Verdicts.WhereTheyDiffer` says exactly which packets only V2 drops, and `Witnesses.FacebookByHttp` is one.

## Model

| member | source | states |
|---|---|---|
| `Pipeline.RaceFree` | src/v2/pipeline.py:58-79 | Under every schedule that finishes, any worker count and any checksum, a worker ends with exactly the sequential flow table restricted to the flows that hash to it, exactly the sequential results for those flows in capture order, and no error: the "no locks" claim of the original README, lines 598 to 602. |
| `Pipeline.TablesPartition` | src/v2/pipeline.py:28-31 | A key is in the sequential table if and only if some worker holds it; the worker that holds it is the one it hashes to, with the sequential entry. |
| `Pipeline.AffinityByKey` | src/v2/pipeline.py:61-74 | The reader's guard implies a five-tuple, and a packet is submitted to the worker that belongs to its tracker five-tuple. |
| `Pipeline.RouteIsResidue` | src/v2/pipeline.py:66-74 | That worker is what the checksum of the five-tuple's text leaves over, divided by the worker count. |
| `Pipeline.PacketsMayPart` | src/v2/pipeline.py:66-74 | With two workers or more, some checksum sends any two packets of different conversations to different workers. |
| `Totals.GuardIsTuple` | src/v2/pipeline.py:62 | The reader's guard lets through exactly the packets that have a five-tuple, of any protocol. |
| `Pipeline.ShareOfRun` | src/v2/worker.py:44-65 | A worker alone with its share computes its flows' part of the sequential table and results, and never fails. |
| `Pipeline.PipelineFinishes` | src/v2/pipeline.py:76-82 | Every fair schedule of enough rounds brings `run` to its end, `join` and `wait_until_empty` included. |
| `PoolInvariant.Reachable` | src/v2/worker.py:44-65 | In every reachable state: unfinished equals queued plus in flight; submitted items are the processed ones, then the one in hand, then the queue, in FIFO order; the log is that of a sequential run over the processed ones; joined queues stay drained; only stopped workers exit. |
| `PoolInvariant.WorkerTurnKeeps` | src/v2/worker.py:44-65 | A worker's turn keeps its part of the invariant, and a queue with nothing unfinished stays so. |
| `PoolInvariant.JoinedIsComplete` | src/v2/worker_pool.py:86-91 | When the last `join` has returned, every queue is empty at once and every worker has processed its whole share, although the queues were joined one after another. |
| `PoolInvariant.EveryScheduleAgrees` | src/v2/pipeline.py:76-82 | For any processor, failing or not: every finished run has read the same statistics, results and errors, those of lone processors on their shares, and skipped exactly the rejected items. |
| `PoolInvariant.NothingIsLost` | src/v2/pipeline.py:58-82 | Skipped, processed and failed items add up to the input. |
| `PoolInvariant.StatsAreResults` | src/v2/worker_pool.py:100-118 | A worker's statistic is its number of results; its error statistic, there only if it had one, is the number of its items without a result. |
| `PoolInvariant.LastErrorIsLatest` | src/v2/worker.py:57-62 | The error a worker remembers is that of the last item that failed, for any processor. |
| `PoolInvariant.ResultsByWorker` | src/v2/worker_pool.py:120-130 | Result k of a worker stands behind all results of the workers before it. |
| `PoolInvariant.SharesAddUp` | src/v2/worker_pool.py:76-84 | At every point of the submission, the workers' shares add up to the accepted items. |
| `PoolLiveness.SomeoneHelps` | src/v2/worker.py:46-65 | Until the run is over some thread can use up work: the main thread, or the very worker it waits for, even if the processor fails on arbitrary items. |
| `PoolLiveness.HelpfulTurn` | src/v2/worker.py:46-65 | Such a turn strictly lowers the measure of remaining work. |
| `PoolLiveness.TurnPotential` | src/v2/worker.py:44-65 | No turn of any thread, timeouts included, raises that measure. |
| `PoolLiveness.HelpArrives` | src/v2/worker_pool.py:86-91 | A thread that can help still can when its turn comes, so a stretch of schedule that contains it makes progress. |
| `PoolLiveness.FairRunsFinish` | src/v2/worker_pool.py:86-91 | With an explicit bound on the rounds, no fair interleaving blocks for ever. |
| `PoolObjects.ThreadSafeQueue.Push` | src/v2/thread_safe_queue.py:15-17 | Appends at the back and counts one more unfinished task. |
| `PoolObjects.ThreadSafeQueue.Pop` | src/v2/thread_safe_queue.py:19-21 | Takes the front item and leaves the unfinished count alone; an empty queue raises and stays as it is. |
| `PoolObjects.ThreadSafeQueue.TaskDone` | src/v2/thread_safe_queue.py:23-25 | One unfinished task less, or the ValueError when there is none. |
| `PoolObjects.DPIWorker.Turn` | src/v2/worker.py:41-65 | The worker object and its queue change as the step system says, in each of the loop's five places; the latest error is kept. |
| `PoolObjects.WorkerPool.constructor` | src/v2/worker_pool.py:31-56 | One new queue, processor state and worker per index, none shared, all in their initial state. |
| `PoolObjects.WorkerPool.Submit` | src/v2/worker_pool.py:76-84 | Pushes onto the chosen worker's queue and no other. |
| `PoolObjects.WorkerPool.GetResults` | src/v2/worker_pool.py:120-130 | The results of the workers, one worker after another. |
| `PoolObjects.V2Pipeline.MainThread` | src/v2/pipeline.py:58-82 | The main thread's object state changes as the step system says, in each place of `run`. |
| `PoolObjects.V2Pipeline.Interleave` | src/v2/pipeline.py:51-94 | Under any schedule the objects go through exactly the states of the step system. |
| `PoolObjects.RunPipeline` | src/v2/pipeline.py:51-82 | A new pipeline that finishes has read what lone processors compute, whatever the schedule. |
| `Report.ReportIsSequential` | src/v2/pipeline.py:96-121 | Every field of the report of a finished run is that of the sequential run; the per-worker numbers are the kept packets that hash to each worker. |
| `Report.PoolIsIrrelevant` | src/v2/pipeline.py:96-121 | Two finished runs with any two schedules, worker counts and checksums report the same, but for the per-worker numbers. |
| `Report.ApplicationCount` | src/v2/pipeline.py:103-107 | An application's number is the total packet count of the flows that finally are that application. |
| `Totals.SkippedIsTupleless` | src/v2/pipeline.py:58-64 | The packets skipped are exactly those without a five-tuple, those with one all have a result, and the number of flows is the number of distinct five-tuples of the capture. |
| `Totals.DroppedIsBlamed` | src/v2/pipeline.py:98-113 | The packets reported as dropped are as many as have evidence against their flow so far, those reported as forwarded as many as have none. |
| `Totals.DroppedIsListed` | src/v2/pipeline.py:98-113 | For any configuration, the number dropped is that of the packets that the lists given, or the default ones, speak against. |
| `Totals.ApplicationsAreFinal` | src/v2/pipeline.py:103-107 | An application is reported if and only if some packet's flow ends as it, with the number of such packets. |
| `Report.PacketsAreConserved` | src/v2/pipeline.py:109-121 | Skipped, forwarded and dropped packets add up to the packets read; no worker has an error. |
| `Report.ResultsArePermuted` | src/v2/pipeline.py:84-90 | The collected results, seen through any test such as the FORWARD filter of the output file, are a permutation of the sequential ones. |
| `Report.FlowOrderIsKept` | src/v2/pipeline.py:84-90 | Within each flow the collected results keep capture order and carry the sequential verdicts. |
| `Report.RunCapture` | src/v2/pipeline.py:14-94 | The pipeline's objects on a capture end with the sequential report, whatever the interleaving; a worker count that is not positive is the ValueError. |
| `LiveResults.ProcessAll` | src/v2/worker.py:53-55 | A processor fed its packets: the sequential table and results, each result holding the very flow object filed under its key. |
| `LiveResults.CountApplications` | src/v2/pipeline.py:103-107 | The results of all workers, counted by their live flows after the last packet, give each application the packets of its flows in the sequential table: under their final names, not the names at the time of the result. |
| `LiveResults.ProcessShare` | src/v2/worker.py:53-55 | A worker's live results, counted by application, are the packets of its own flows of that application. |
| `Processor.DPIProcessor.Process` | src/v2/dpi_processor.py:28-66 | Touches its own five-tuple's entry only, raises exactly on an unblocked flow without a five-tuple, returns the live flow with DROP exactly when that flow is blocked, and counts only packets that did not raise. |
| `Processor.DPIProcessor.RenameFlow` | src/v2/dpi_processor.py:50-55 | The latest name replaces the flow's name and application, and the rules are applied again. |
| `Sightings.SeeIsSound` | src/v2/dpi_processor.py:42-48 | Neither extractor returns an empty name, and the HTTP host is only looked for without a TLS name. |
| `Parser.Parse` | src/packet_parser.py:6-42 | The dictionary built key by key: addresses and protocol from the IP layer, ports and payload from TCP or else UDP. |
| `Parser.ParsedIsExact` | src/packet_parser.py:6-42 | The packets that the theorems assume are exactly those the parser can produce. |
| `Parser.ProtocolIsNumber` | src/packet_parser.py:16-24 | TCP, UDP and ICMP are the numbers 6, 17 and 1. |
| `Parser.PortsAreTransport` | src/packet_parser.py:26-40 | The payload is TCP's, or else UDP's; a frame with neither has no port and no payload. |
| `Parser.TupleOfFrame` | src/connection_tracker.py:80-101 | A frame has a five-tuple if and only if it has an IP layer with both addresses; the five fields are those of its layers, with port 0 where there is no port. |
| `Tracker.ConnectionTracker.GetOrCreateFlow` | src/connection_tracker.py:24-48 | Changes the flow under the key and no other, keeps the identity of all flow objects, counts the packet, keeps the first name, and raises exactly when there is no five-tuple and the flow is not blocked. |
| `Tracker.ConnectionTracker.ApplyBlockingRules` | src/connection_tracker.py:50-78 | Blocks on address, application or domain, never unblocks, and touches nothing but the flag. |
| `Tracker.ConnectionTracker.IsPacketBlocked` | src/connection_tracker.py:109-115 | The flag of the packet's own flow, false when it has none. |
| `Tracker.ConnectionTracker.GetFlowCount` | src/connection_tracker.py:117-122 | The number of flows in the table. |
| `Runs.FlowIsLocal2` | src/v2/dpi_processor.py:36-55 | In a whole V2 run a flow's entry depends on that flow's packets only. |
| `Runs.FlowIsLocal1` | src/dpi_engine.py:42-60 | In a whole V1 run likewise. |
| `Runs.ClosedForm2` | src/v2/dpi_processor.py:46-55 | A V2 flow carries its latest domain and that domain's application, counts its packets, and is blocked if and only if its address is blocked, UNKNOWN is, or any domain seen so far is condemned. |
| `Runs.ClosedForm1` | src/connection_tracker.py:37-78 | A V1 flow carries its first SNI, and is blocked if and only if its address is blocked, UNKNOWN is and the first packet had no SNI, or the first SNI is condemned. |
| `Verdicts.Verdict2` | src/v2/dpi_processor.py:59-66 | V2 drops packet i if and only if its flow's packets up to i give that evidence. |
| `Verdicts.Verdict1` | src/dpi_engine.py:64-74 | V1 drops packet i if and only if its flow's packets up to i give V1's evidence. |
| `Configured.DecisionsOfV2` | src/v2/dpi_processor.py:28-66 | For any lists of addresses, applications and domains, given or default: V2's decision on packet i is DROP if and only if its source address is listed, or UNKNOWN is, or some name seen in its flow so far has a listed application or is hit by a listed domain. |
| `Configured.DecisionsOfV1` | src/dpi_engine.py:42-66 | For any such lists: V1's decision on packet i is DROP if and only if its source address is listed, or UNKNOWN is and the first packet of the flow has no TLS name, or the first TLS name of the flow has a listed application or is hit by a listed domain. |
| `Configured.ConfiguredSets` | src/rule_manager.py:44-71 | Each list given replaces the default one of its kind, and only that. |
| `Configured.ConfiguredPolicy` | src/rule_manager.py:93-127 | Addresses and applications are blocked exactly when listed; a name is condemned exactly when its application is listed or a listed domain hits it. |
| `Verdicts.DropsAreSticky` | src/connection_tracker.py:55-57 | In each flow and both drivers, decisions are FORWARD up to a point and DROP from there on. |
| `Verdicts.V2IsStricter` | src/v2/dpi_processor.py:46-55 | Every packet that V1's pass drops, V2 drops. |
| `Verdicts.WhereTheyDiffer` | src/v2/dpi_processor.py:40-55 | The verdicts differ if and only if V1 has no evidence and either UNKNOWN is blocked or some domain seen so far is condemned. |
| `Witnesses.HostSplitsTheDrivers` | src/v2/dpi_processor.py:43-55 | A packet whose only name is an HTTP Host that the rules condemn is forwarded by V1 and dropped by V2, for any rules that block neither its address nor UNKNOWN. |
| `Witnesses.FacebookByHttp` | src/v2/dpi_processor.py:43-55 | Under the default rules, the header `Host: facebook.com` is such a packet. |
| `Witnesses.HelloDecidesBoth` | src/v2/dpi_processor.py:40-55 | A packet with a built ClientHello is dropped by either driver if and only if the rules condemn its host, when they block neither its address nor UNKNOWN. |
| `Verdicts.WhereTheyAgree` | src/v2/dpi_processor.py:40-55 | They agree on a flow that names a single domain, by TLS only, when UNKNOWN is not blocked. |
| `Verdicts.ResultIsEvidence` | src/v2/dpi_processor.py:59-66 | With a five-tuple in every packet nothing raises: one result a packet, in order, DROP if and only if the flow so far gives V2's evidence. |
| `Verdicts.Shard` | src/v2/pipeline.py:28-31 | Running on the packets of some flows only gives exactly those flows' part of the table and of the results. |
| `Engine.CapturesAreSound` | src/dpi_engine.py:42-56 | What the extractors see in any capture meets the assumptions of the theorems on runs. |
| `Engine.DPIEngine.ProcessPackets` | src/dpi_engine.py:28-78 | Parsed packets, protocol statistics, decisions, forwarded packets and table of the two passes, and the application count of the final table. |
| `Engine.DecisionIsEvidence` | src/dpi_engine.py:46-74 | The decision list has one entry for each packet with a five-tuple, in order: DROP if and only if the packet's flow so far gives V1's evidence. |
| `Engine.ForwardsAreUnblamed` | src/dpi_engine.py:72-74 | The forwarded packets are those with a five-tuple and no such evidence, in capture order. |
| `Engine.TallyCounts` | src/analyzer.py:252-261 | Each protocol's number is that of the packets of that protocol. |
| `Engine.SecondPassIsFixpoint` | src/analyzer.py:234-250 | Analyzing after V1's pass adds no flow and changes no flow's name, application or blocking. |
| `Engine.DropsAreConfirmed` | src/dpi_engine.py:60-77 | Every DROP of V1's pass is confirmed by `is_packet_blocked` after the analyzer's pass. |
| `Engine.PacketAnalyzer.TrackAll` | src/analyzer.py:138-261 | The analyzer tracks exactly the packets with a five-tuple and a destination port other than 0, and counts the packets of each protocol. |
| `Engine.PacketAnalyzer.CountFlows` | src/analyzer.py:270-287 | The number of flows of each application that has any, in whatever order the table is walked. |
| `Engine.FilterIsAllOrNothing` | main.py:254 | The offline filter keeps or removes a tracked flow as a whole, on the evidence of all its packets. |
| `Engine.FilterAgainstEngine` | main.py:254 | The filter keeps what the one-pass engine does not forward if and only if the packet has no five-tuple, or goes to port 0 and its flow so far gives V1's evidence. |
| `Engine.FilterIsStricter` | main.py:254 | For every packet the analyzer tracks: what the filter keeps, the engine forwards. |
| `Witnesses.FilterKeepsPortZero` | main.py:254 | Under the default rules, a packet of 10.0.0.50 to port 0 is kept by the filter and not forwarded by the engine. |
| `Witnesses.FilterKeepsNotIp` | main.py:254 | So is a frame that is not IP. |
| `Balancer.CanonicalIsDirectionFree` | src/v2/flow_balancer.py:15-40 | Two flow keys have one canonical form if and only if they are equal or mirror images, with Python's tuple order. |
| `Balancer.CanonicalIsLeast` | src/v2/flow_balancer.py:27 | It starts from the lesser address, and between equal addresses from the lesser port. |
| `Balancer.LessIsFirstDifference` | src/v2/flow_balancer.py:27 | Strings are compared by code points at their first difference. |
| `Balancer.KeyTextHolds` | src/v2/flow_balancer.py:61-64 | Between bars the hashed text holds the lesser end's and the other's address, the port of each, and the protocol. |
| `Balancer.KeyTextIsFaithful` | src/v2/flow_balancer.py:61-64 | Keys without a bar in them are hashed from the same text if and only if they are equal or mirror images. |
| `Balancer.DecimalHasValue` | src/v2/flow_balancer.py:61-64 | The decimal text of a number stands for it, without a leading zero. |
| `Balancer.WorkerIsResidue` | src/v2/flow_balancer.py:51-66 | The worker is the checksum of the key text less a multiple of the worker count. |
| `Balancer.AnyWorkerMayServe` | src/v2/flow_balancer.py:51-66 | For every key and every worker, some checksum chooses that worker. |
| `Balancer.ConversationsMayPart` | src/v2/flow_balancer.py:51-66 | With two workers or more, some checksum parts any two keys that are neither equal nor mirror images. |
| `Balancer.FlowBalancer.BothDirectionsMeet` | src/v2/flow_balancer.py:51-66 | Both directions of a conversation go to one worker. |
| `ClientHello.Extract` | src/sni_extractor.py:15-128 | The walk by offsets, every index in bounds, computes the recursive grammar's answer on every byte string. |
| `ClientHello.SearchExtensions` | src/sni_extractor.py:87-128 | The extension loop with its clamped end stops at the first server_name extension and terminates. |
| `ClientHello.WalkIsGrammar` | src/sni_extractor.py:15-128 | A name is found if and only if the payload is a ClientHello as the walk reads one: session ID, ciphers, compressions, skipped extensions, then a server_name extension with that name (sections 4.1.2 and 4.2 of RFC 8446, section 3 of RFC 6066). The record, handshake and list lengths, the versions and the name type are unconstrained, as the code leaves them. |
| `ClientHello.ParsePrinted` | src/sni_extractor.py:42-124 | Whatever the session ID, ciphers, compressions and skipped extensions, the name printed is the name found. |
| `ClientHello.PrintParsed` | src/sni_extractor.py:42-124 | Whatever is found was printed: the fields read back make up the payload. |
| `ClientHello.SniIsStable` | src/sni_extractor.py:42-126 | An answer on a prefix of a payload is the answer on every longer prefix, despite the clamped end and the early exits. |
| `ClientHello.BuiltShape` | generate_test_pcap.py:46-66 | The builder succeeds if and only if the encoded host has at most 65479 bytes; beyond that a length does not fit. |
| `ClientHello.BuiltHeaders` | generate_test_pcap.py:62-66 | Record and handshake header of what is built: types, version, and lengths that count exactly the bytes behind them (sections 4 and 5.1 of RFC 8446). |
| `ClientHello.BuiltBody` | generate_test_pcap.py:52-60 | The fixed fields of its body, and an extensions length that counts exactly the extensions. |
| `ClientHello.BuildParses` | generate_test_pcap.py:46-66 | What is built parses to the host's bytes, with nothing after them. |
| `ClientHello.RoundTrip` | generate_test_pcap.py:46-66 | Extracting from a built ClientHello gives the domain back, for every Unicode string that fits; the empty one gives None. |
| `ClientHello.TruncatedIsSilent` | generate_test_pcap.py:46-66 | No proper prefix of what is built yields a name. |
| `Text.DecodeEncode` | src/sni_extractor.py:120-124 | Decoding with errors ignored undoes encoding, on every string of Unicode scalar values. |
| `Text.DecodeDropsOnlyJunk` | src/http_host_extractor.py:11 | Decoding takes every character that is encoded at the front and drops, one by one, exactly the bytes where none is. |
| `Text.LowerIsAlphabetic` | src/rule_manager.py:83 | Lowering maps A to Z onto a to z and changes nothing else. |
| `Text.SpaceIsListed` | src/rule_manager.py:83 | The characters stripped are Python's 29 white space characters. |
| `HttpHost.Extract` | src/http_host_extractor.py:5-21 | The scan computes the first answer among the CRLF-delimited lines. |
| `HttpHost.ScanIsFirst` | src/http_host_extractor.py:15-21 | It answers with the first line that starts with `host:` in any letter case and has a value that is not blank, and with None if and only if no line is such. |
| `HttpHost.RoundTrip` | src/http_host_extractor.py:15-21 | Joining any CRLF-free lines and extracting gives the stripped value of the first such line. |
| `HttpHost.NoHostLineNoHost` | src/http_host_extractor.py:15-21 | Joining CRLF-free lines none of which starts with `host:` in any letter case, and extracting, gives None. |
| `HttpHost.HeaderLine` | src/http_host_extractor.py:16-20 | `host:` in any letter case counts, and the value is stripped. |
| `Rules.RuleManager.ClassifyDomain` | src/rule_manager.py:73-91 | The loop computes the first matching entry of the table. |
| `Rules.RuleManager.IsDomainBlocked` | src/rule_manager.py:107-127 | Walking the set in any order answers whether some rule hits. |
| `Rules.MatchIsLabelSuffix` | src/rule_manager.py:125-126 | The string test holds if and only if the rule's labels are the last labels of the domain, for all strings. |
| `Rules.MatchingRulesNest` | src/rule_manager.py:89-90 | Two rules that match one domain are nested. |
| `Rules.TableIsUnnested` | src/rule_manager.py:16-42 | No two entries of the built-in table are nested. |
| `Rules.OrderIsIrrelevant` | src/rule_manager.py:85-91 | A table without nested entries classifies the same in any order. |
| `Rules.ClassifyIsSends` | src/rule_manager.py:73-91 | A domain gets an application if and only if some entry of that application matches it. |
| `Rules.FirstSites` | src/rule_manager.py:16-27 | google.com, facebook.com, youtube.com and github.com are what they are named after. |
| `Rules.SecondSites` | src/rule_manager.py:30-33 | So are instagram.com, twitter.com, amazon.com and netflix.com. |
| `Rules.ThirdSites` | src/rule_manager.py:34-37 | So are discord.com, zoom.us, telegram.org and tiktok.com. |
| `Rules.LastSites` | src/rule_manager.py:38-41 | So are spotify.com, cloudflare.com, microsoft.com and apple.com. |
| `Rules.NormalizeSubdomain` | src/rule_manager.py:83 | Normalising a subdomain normalises the prefix and the domain on their own if and only if the domain does not start with white space. |
| `Rules.NormalizeTwice` | src/rule_manager.py:83 | Normalising twice differs from normalising once if and only if removing the white space and then the dots at the right end of the domain leaves white space there, behind something else. |
| `Rules.NormalizeIsNotIdempotent` | src/rule_manager.py:83 | Every name followed by a space and a dot, such as `a.com .`, needs two rounds. |
| `Subdomains.SubdomainsBlockedExactly` | src/rule_manager.py:107-127 | For every domain and rule set: all subdomains are blocked if and only if some rule hits the domain with only its right end stripped, which must not be empty. |
| `Subdomains.SubdomainsStayBlocked` | src/rule_manager.py:107-127 | So every subdomain of a blocked domain is blocked when the domain neither starts with white space nor normalises to nothing, by dotless rules too. |
| `Subdomains.WhiteSpaceLetsSubdomainsThrough` | src/rule_manager.py:113-127 | Any dotted rule, such as `a.com`, blocks the domain with a space in front and not the subdomain `x.` of that. |
| `Subdomains.NothingLetsSubdomainsThrough` | src/rule_manager.py:113-127 | The rule `.` blocks the domain `.` and not `x..`. |
| `Subdomains.SubdomainsAppExactly` | src/rule_manager.py:73-91 | For every prefix and classified domain: the subdomain has the same application if and only if some entry of that application matches the domain with only its right end stripped. |
| `Subdomains.SubdomainsKeepTheirApp` | src/rule_manager.py:73-91 | So it has whenever the domain does not start with white space. |
| `Subdomains.WhiteSpaceLosesTheApp` | src/rule_manager.py:73-91 | At every entry of the table: with a space in front the domain is classified, and the subdomain `x.` of that is UNKNOWN. |
| `Subdomains.LabelRuleHitsAnyPosition` | src/rule_manager.py:118-123 | A dotless rule hits its word as first, middle, last and only label. |
| `Subdomains.LabelRuleBlocksItsNamesake` | src/rule_manager.py:118-123 | The rule `facebook` blocks `facebook.evil.com`. |

## Left out

- Scapy, the PCAP reader and writer, live capture: `Parser` starts from the layers that Scapy finds in a frame.
- CRC-32 and the hash seed: the checksum is an arbitrary function of the key bytes, which is all that affinity needs.
- Threads, the GIL and real time: threads are interleaved turns; a timeout is a turn on an empty queue; a queue's `maxsize` is not modelled because the pool builds only unbounded queues. `start` is the initial state, so a worker may take its first turn at any time after it.
- Rules.RuleManager.ClassifyDomain: `lower()` changes A to Z only; Unicode case mapping, which can change the length of a string, is not modelled. White space is Python's full list. Surrogate code points, which Python strings can hold and UTF-8 cannot, do not occur.
- Rules.RuleManager.IsDomainBlocked: the same `lower()`.
- Exception objects: an exception is its text, and only the text of the latest one is kept.
- PoolObjects.WorkerPool.constructor: does not model the pool with one processor shared by all workers, whose state would be raced on, nor the ValueError when no processor is given; the pipeline always passes a factory. The ValueError for a bad worker count is in `Report.RunCapture`.
- Workers with live flow objects inside the interleaved pool: `PoolObjects` keeps a processor's state as a value, the flow table, and `Report` looks a result's flow up in it. `LiveResults` proves, running the workers' processors one after another on their shares, that the results hold the live objects themselves. Concurrent access to one flow object does not occur, by `Pipeline.TablesPartition`.
- `ThreadSafeQueue.empty` and `size`, `DPIProcessor.packet_count`: plain reads.
- The analyzer's service, port and address counters, HTTP paths, user agents and status codes, blacklist, printing and JSON: counters that are independent of the flow table and decide nothing.
- `PacketAnalyzer.sni_application_report` and the order of the application counter: the table is walked in any order.
- `src/data_engineering`, the command line and the Docker files.
