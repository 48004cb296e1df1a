# Malbox: a verified model

Malbox runs a malware sample in a throw-away Windows machine. A controller creates the machine, exchanges certificates
with an agent in it, uploads the sample and follows the analysis; the agent decodes the log the monitored processes
write into a report. This project models the algorithms and protocols of both programs in Dafny and proves what they
guarantee. `dafny verify dfyconfig.toml` checks everything.

How the model is laid out, one module a component:

| module | file | what it models |
|---|---|---|
| `Types`, `Hex` | `types.dfy`, `hex.dfy` | machine widths; hexadecimal renderings and their inverse |
| `RawPipe`, `Framing` | `raw_pipe.dfy`, `framing.dfy` | reading a pipe in pieces of any size; header line and length-prefixed frames |
| `BsonLog` | `bson_log.dfy` | the schema registry and the decoding of one log document |
| `Collector` | `collector.dfy` | the shared process table and link list, over any history of uses |
| `LogServer` | `log_server.dfy` | the reader thread of a pipe |
| `Confluence`, `Connections` | `confluence.dfy`, `connections.dfy` | any interleaving of readers: exactly when all end alike; threads on whole connections and the report at any moment |
| `Forest`, `ForestCoverage` | `forest.dfy`, `forest_coverage.dfy` | the process tree: when its unfolding ends and what it holds |
| `Report` | `report.dfy` | the process list, and independence of both from hash-map order |
| `Pipeline` | `pipeline.dfy` | a log stream's bytes to its process's entry in the report |
| `Job`, `JobRuns` | `job.dfy`, `job_runs.dfy` | the job tracker; all interleavings of job tasks, routes and subscribers |
| `Vm`, `VmLedger`, `RunJob` | `vm.dfy`, `vm_ledger.dfy`, `run_job.dfy` | making and removing machines; the account of the host over all runs; the code of one job against the step machine |
| `Template`, `DomainXml` | `template.dfy`, `domain_xml.dfy` | chained replacement against simultaneous substitution; the domain description and drawn identities |
| `Upload` | `upload.dfy` | the sample upload over a four-slot channel |
| `Handshake` | `handshake.dfy` | the certificate exchange with symbolic keys |
| `CommandServer` | `command_server.dfy` | shutting down the command pipe |
| `ProcessHandles` | `process.dfy` | the handle ledger of the monitored process |

Conventions. A class carries the fields the program's object has, and each of its methods is proved to take the object
from one abstract state to the next (`After`, `StatusSet`, `Handle`, ...); what is promised is then proved about those
functions, over all histories or all interleavings. Four classes also carry state of their surroundings as fields, so
that their methods can change it: `Process` the open handles and misuses of the operating system, `JobTracker` what was
sent on each channel, `CommandPipe` its clients and the threads it started, and `VmManager` consists of the host's files
and domains. Code that runs beside other code (`RunJob.Run`, `Upload.Produce`, `Upload.Receive`,
`CommandServer.ServeCommandPipe`) takes what the others do between its steps as a parameter; the `Script` of its module
says which steps of all parties follow from that, one by one, and the code is proved to take its objects to where the
step machine gets on them. Each call under a lock is one step. Foreign calls (the operating system, libvirt, the
network, random draws) are parameters: every outcome they can have is an input of the step. A hash map's iteration order
is a parameter that ranges over every enumeration of its keys. `build_tree` recurses without a bound, so its result is
an option whose `None` stands for the run that never ends. A panicking `unwrap` or slice is an outcome of its own. Flags
shared between threads are sequentially consistent.

Facts the proofs bring out. The process tree is built for every history that registers each pid once, but a pid
registered again under one of its descendants can make the recursion endless; the exact condition is
`EndsIffNoReachableCycle`. A machine is left running when bootstrap, connection or upload fails (`WaysOut`,
`BootstrapFailureAbandons`), and a domain stays, without its files, when creation fails after it was started or when it
can be undefined in neither way (`RefusedRestoresHost`, `NoLeaseLeavesRunningDomain`). The command server can miss its
shutdown nudge in exactly one place (`OnlyTheWindowBlocks`, `WindowIsReachable`). Two log streams that name one process
give a report that depends on the schedule, but for the case `ThreadsConfluentIff` names. If the other values open no
brace, a path that contains a placeholder replaced after it is not rendered as it is (`DomainExact`); two such paths can
make up for each other (`TwoPathsNoConverse`). The agent acknowledges a sample that was cut short by a failing read
(`TruncatedIsAccepted`).

## Model

| member | source | states |
|---|---|---|
| `Collector.AnalysisCollector.RegisterProcess` | crates/malbox-agent/src/collector.rs:17-30 | a new pid enters with the next order number; a known pid keeps its record; a link is added for every nonzero parent even for a known pid |
| `Collector.AnalysisCollector.PushCall` | crates/malbox-agent/src/collector.rs:31-36 | a call and its thread go to the pid's record; calls of unknown pids vanish |
| `Collector.KnownIffRegistered` | crates/malbox-agent/src/collector.rs:17-30 | over any history, a pid is in the table iff some use registered it |
| `Collector.FirstRegistrationWins` | crates/malbox-agent/src/collector.rs:17-36 | the first registration fixes parent, name and order number; the calls are exactly those pushed from then on |
| `Collector.LinkIffRegistration` | crates/malbox-agent/src/collector.rs:27-29 | a link is in the list iff some registration named that nonzero parent and child, repeated or not |
| `Collector.Reachable` | crates/malbox-agent/src/collector.rs:17-36 | every reachable collector: order numbers are a bijection onto 0..n-1, thread sets equal the threads of the calls, links match the table |
| `Collector.OnceGivesParents` | crates/malbox-agent/src/collector.rs:17-30 | if each pid is registered at most once the links are exactly the parent relation, each child linked once |
| `Forest.IndexChildren` | crates/malbox-agent/src/report.rs:157-161 | the loop builds, for every parent, its children in link order |
| `Forest.ChildrenAreLinks` | crates/malbox-agent/src/report.rs:157-161 | a child is listed once for every link that names it |
| `Forest.BuildTree` | crates/malbox-agent/src/report.rs:153-194 | the code computes the unfolding of the roots for the given map order, or is the run that never ends |
| `Forest.EndsIffNoReachableCycle` | crates/malbox-agent/src/report.rs:157-194 | for every history and map order the unfolding ends iff no link cycle is reachable from a root; then a depth of the number of processes suffices, else no depth does |
| `Forest.DepthBound` | crates/malbox-agent/src/report.rs:167-189 | a built tree has no more levels than its depth bound |
| `Forest.DepthIrrelevant` | crates/malbox-agent/src/report.rs:167-189 | every depth at which the recursion ends gives the same tree |
| `Forest.RepeatedRegistrationCycle` | crates/malbox-agent/src/collector.rs:19-29 | registering (1,0), (2,1), (1,2) gives a reachable cycle and no tree |
| `ForestCoverage.ForestIsLinkPaths` | crates/malbox-agent/src/report.rs:157-194 | any history: a walk of pids from a root occurs in the forest once for every link path along it, any other walk not at all |
| `ForestCoverage.NodesFaithful` | crates/malbox-agent/src/report.rs:172-188 | every node has its process's name and one child per link, in link order |
| `ForestCoverage.ForestCoversOnce` | crates/malbox-agent/src/report.rs:153-194 | each pid registered at most once, any parents: the forest is built, and a pid occurs once if its parent chain reaches a root, else never |
| `ForestCoverage.EdgesAreParents` | crates/malbox-agent/src/report.rs:153-194 | then the edges of the forest are exactly the parent relation of the processes under a root |
| `ForestCoverage.NoCycleFromRoot` | crates/malbox-agent/src/report.rs:162-166 | in-degree at most one and roots without a known parent rule out a cycle reachable from a root |
| `ForestCoverage.UnderRootIffReached` | crates/malbox-agent/src/report.rs:153-194 | a parent chain reaches a root iff a root reaches the process along the links |
| `Report.SortByFirstSeen` | crates/malbox-agent/src/report.rs:100-101 | sorting yields an ordered permutation |
| `Report.SortedIsFirstSeen` | crates/malbox-agent/src/report.rs:100-101 | whatever the map order, position k of the sorted list holds the k-th registered process |
| `Report.Build` | crates/malbox-agent/src/report.rs:99-131 | for a reachable collector and any map orders, the list holds every process once in first-seen order with ascending threads and calls in push order; the tree is the unfolding |
| `Report.ListDeterministic` | crates/malbox-agent/src/report.rs:100-130 | a reachable collector has one process list |
| `Report.TreeDeterministic` | crates/malbox-agent/src/report.rs:162-194 | the trees for two map orders agree up to a permutation of the roots, and one ends iff the other does |
| `BsonLog.IntTextsInvertible` | crates/malbox-agent/src/bson_log.rs:67-68 | parsing a rendered Int32 or Int64 and reading it as two's complement gives the number back |
| `BsonLog.BinaryTextInvertible` | crates/malbox-agent/src/bson_log.rs:72-75 | a rendered Binary has length 2+2n and parses back to its bytes |
| `BsonLog.SchemaRegistry.IngestInfo` | crates/malbox-agent/src/bson_log.rs:19-47 | a complete info document replaces the schema of its index; an incomplete one changes nothing |
| `LogServer.RegistryIsLatest` | crates/malbox-agent/src/bson_log.rs:45-50 | after any documents the registry knows an index iff some ingested info document provided it, and holds the schema of the latest one |
| `BsonLog.ProcessDoc` | crates/malbox-agent/src/bson_log.rs:128-188 | statement by statement: info documents feed the registry; others give a call, nothing, or a panic |
| `BsonLog.Decode` | crates/malbox-agent/src/bson_log.rs:139-180 | each field of the call as the document and schema mean it; names and values from position 2 zipped to the shorter length |
| `BsonLog.DecodesUnique` | crates/malbox-agent/src/bson_log.rs:139-180 | that meaning determines the call |
| `RawPipe.NamedPipe.Read` | crates/malbox-agent/src/pipes/raw.rs:125-145 | a broken pipe reads as end of file, a partial message as data, anything else as an error |
| `RawPipe.NamedPipe.ReadExact` | crates/malbox-agent/src/pipes/raw.rs:125-145 | exactly the next bytes, or the right error, however reads split them |
| `Framing.ReadHeader` | crates/malbox-agent/src/bson_log.rs:92-106 | the first line's two words, with pid 0 if it does not parse; no newline, no header |
| `Framing.HeaderNamesPid` | crates/malbox-agent/src/bson_log.rs:102-105 | a line "word pid" is read back as that word and pid |
| `Framing.ReadFrame` | crates/malbox-agent/src/bson_log.rs:108-123 | the next frame, the end of the stream, or an error, and what is left of the stream |
| `Framing.WholeStream` | crates/malbox-agent/src/bson_log.rs:92-126 | any header line and any list of frames of 5 bytes to 20 MiB, written one behind the other, split back into the words of that line and those frames, then end of stream |
| `Framing.CutStream` | crates/malbox-agent/src/bson_log.rs:92-126 | the same stream cut anywhere: inside the line it has no header, behind it the same header and the whole frames before the cut |
| `Framing.RoundTrip` | crates/malbox-agent/src/bson_log.rs:108-126 | any list of frames alone reads back as itself, then end of stream |
| `Framing.Truncation` | crates/malbox-agent/src/bson_log.rs:110-120 | a cut anywhere keeps the whole frames before it; inside a prefix it reads as end of stream, inside a body as an error |
| `Framing.WholeFramesMeaning` | crates/malbox-agent/src/bson_log.rs:108-126 | the number of kept frames is the largest that fits before the cut |
| `Framing.FailingPipe` | crates/malbox-agent/src/bson_log.rs:110-114 | on a pipe that fails instead of closing the same frames arrive and only the ending differs |
| `LogServer.DocumentsAreFrames` | crates/malbox-agent/src/bson_log.rs:124-125 | the documents of a stream are its frames, parsed, up to the first that does not parse |
| `LogServer.OutcomeMeaning` | crates/malbox-agent/src/bson_log.rs:128-188 | document i yields a call iff an earlier ingested info document has its index; it is decoded under the latest such schema, and panics iff its shape or the schema's is wrong |
| `LogServer.PanicsIffIllFormed` | crates/malbox-agent/src/bson_log.rs:141-170 | a reader panics somewhere iff its stream is not well formed in that sense |
| `LogServer.WrittenContribution` | crates/malbox-agent/src/pipes/logserver.rs:19-52 | what a written stream cut anywhere brings: nothing inside the header line, else the calls of the documents of the whole frames before the cut, for the pid of the line |
| `LogServer.CallsInOrder` | crates/malbox-agent/src/pipes/logserver.rs:32-51 | calls are pushed in stream order and nothing follows a panic |
| `LogServer.PushAllAppends` | crates/malbox-agent/src/collector.rs:31-36 | pushing a list appends it to that process and changes nothing else |
| `LogServer.ReadLoop` | crates/malbox-agent/src/pipes/logserver.rs:19-52 | the whole stateful loop leaves in the collector exactly the calls the declarative meaning of the bytes gives, for the header's pid |
| `LogServer.ReadDocuments` | crates/malbox-agent/src/pipes/logserver.rs:32-51 | the loop over frames, for any end of the stream |
| `Confluence.ConfluentIff` | crates/malbox-agent/src/pipes/logserver.rs:19-52 | any readers: all complete interleavings end in the same collector iff of every two readers of one registered pid one pushes nothing or both push one and the same call |
| `Confluence.HarmlessEnd` | crates/malbox-agent/src/pipes/logserver.rs:19-52 | then every complete interleaving gives each registered process its calls followed by those of its readers, and changes nothing else |
| `Connections.ThreadsAreReaders` | crates/malbox-agent/src/pipes/logserver.rs:19-52 | every run of the threads on whole connections, from connecting to the last frame, is a run of readers of decoded outcomes |
| `Connections.ThreadsConfluent` | crates/malbox-agent/src/pipes/logserver.rs:19-52 | threads on connections whose headers name distinct pids: in every complete interleaving each registered process ends with its calls followed by what its connection brings, whichever pipe carried it; the rest is as it was |
| `Connections.ThreadsConfluentIff` | crates/malbox-agent/src/pipes/logserver.rs:19-52 | any connections: all complete interleavings of the threads end in the same collector iff of every two that name one registered process one brings nothing or both bring one and the same call |
| `Confluence.RunKeepsTotals` | crates/malbox-agent/src/pipes/logserver.rs:35-37 | no step of any interleaving of such readers changes where the processes will end |
| `Connections.MomentShowsPrefixes` | crates/malbox-agent/src/analysis.rs:109-118 | at any moment of any interleaving each named process has its calls followed by a prefix of what its connection brings |
| `Connections.ReportNow` | crates/malbox-agent/src/analysis.rs:109-118 | a report built at any moment lists every process once in first-seen order, each with such a prefix |
| `LogServer.SharedPidNotConfluent` | crates/malbox-agent/src/pipes/logserver.rs:25-37 | a witness: two readers of one pid that begin with different calls leave different collectors after one step each, by which steps first |
| `Pipeline.CallsAreDocuments` | crates/malbox-agent/src/bson_log.rs:128-188 | for a well-formed stream the pushed calls are, in order, one for each call document under an earlier schema, each what its document means under the latest such schema |
| `Pipeline.ReadAndReport` | crates/malbox-agent/src/analysis.rs:80-118 | end to end: reading a connection and building the report gives the named process its earlier calls followed by the stream's, and leaves every other entry as it would have been |
| `Job.JobTracker.Submit` | crates/malbox-controller/src/job.rs:88-126 | a queued job with an open, empty channel |
| `Job.JobTracker.Get` | crates/malbox-controller/src/job.rs:127-136 | the job's id, status, name and result, if it is in the table |
| `Job.JobTracker.Subscribe` | crates/malbox-controller/src/job.rs:137-141 | a subscription behind everything sent, if there is a sender |
| `Job.JobTracker.Cancel` | crates/malbox-controller/src/job.rs:142-144 | the job leaves the table; whether it was there |
| `Job.JobTracker.SetStatus` | crates/malbox-controller/src/job.rs:148-158 | the new status and its event, if the job is there |
| `Job.JobTracker.SetResult` | crates/malbox-controller/src/job.rs:159-171 | the result, the completed status and the last event, and the sender is gone |
| `Job.JobTracker.EmitError` | crates/malbox-controller/src/job.rs:173-180 | the error event, and the sender is gone |
| `JobRuns.EveryRunIsOrderly` | crates/malbox-controller/src/job.rs:148-272 | over all interleavings: every channel's log follows the event grammar, a result is present iff the status is completed and equals the completion event, no sender implies a terminal status |
| `JobRuns.JobsReachable` | crates/malbox-controller/src/job.rs:88-272 | in every run the table entry and log of each job mirror its task's place in the code |
| `JobRuns.TerminalEventIsLast` | crates/malbox-controller/src/job.rs:159-180 | nothing follows an error or completion event |
| `JobRuns.GrammaticalIsShort` | crates/malbox-controller/src/job.rs:97 | a log has at most six events |
| `JobRuns.RunsForward` | crates/malbox-controller/src/job.rs:148-171 | a job's status only moves forward over any stretch of a run, a terminal one is final, logs only grow |
| `JobRuns.CancelledWindsDown` | crates/malbox-controller/src/job.rs:142-180 | a cancelled job never reappears, its channel gets no further event, its task starts at most one more phase |
| `JobRuns.TaskMovesBounded` | crates/malbox-controller/src/job.rs:191-272 | no run moves a task more than fourteen times |
| `JobRuns.StepLocality` | crates/malbox-controller/src/job.rs:148-180 | a job is touched only by its own task and its submission; cancelling only drops its entry |
| `JobRuns.SubscribersReplay` | crates/malbox-controller/src/routes.rs:92-108 | in every run no subscriber lags; each receives a gapless stretch from its subscription on, all of it once closed; replaying it on the status it subscribed at gives the job's status |
| `JobRuns.ClosedChannelDrains` | crates/malbox-controller/src/routes.rs:93-106 | a subscriber of a closed channel gets the rest of the events, then the end |
| `JobRuns.LogReplaysStatus` | crates/malbox-controller/src/job.rs:148-171 | replaying a job's whole log gives its status |
| `JobRuns.Route` | crates/malbox-controller/src/job.rs:88-144 | submitting under a fresh id, cancelling and subscribing through the tracker are the steps of the system of that name |
| `RunJob.Run` | crates/malbox-controller/src/job.rs:191-272 | the code of a job, while all other jobs, routes and subscribers do the given stretch of events before each of its operations, ends with tracker and host where the step machine gets on its script: those stretches in order, each followed by the job's own step with the given outcome; undisturbed it ends with the result, completed in the table |
| `RunJob.CheckAndEnter` | crates/malbox-controller/src/job.rs:233-237 | the phase is entered iff the job is in the table when it is looked for, and then announced, in vain if it is cancelled in between; otherwise its machine is torn down and it fails |
| `RunJob.DoPhase` | crates/malbox-controller/src/job.rs:233-251 | a phase goes on iff the job was there and it ends well; otherwise the job ends with "job cancelled" or the phase's error |
| `Vm.VmManager.CreateOverlay` | crates/malbox-controller/src/vm.rs:90-121 | an overlay is made iff the image exists, the file does not, and the tool succeeds |
| `Vm.VmManager.CreateNvram` | crates/malbox-controller/src/vm.rs:75-89 | an nvram copy is made iff the master exists, the file does not, and the copy succeeds |
| `Vm.VmManager.DefineAndStart` | crates/malbox-controller/src/vm.rs:294-305 | a domain that does not start is undefined one way or the other, or stays defined; one that starts runs |
| `Vm.VmManager.CreateJobDomain` | crates/malbox-controller/src/vm.rs:206-293 | outcome and host at every exit |
| `Vm.VmManager.Teardown` | crates/malbox-controller/src/vm.rs:308-334 | stopping, undefining and removing both files are each tried whatever the others did |
| `Vm.RefusedLeavesNoFiles` | crates/malbox-controller/src/vm.rs:219-282 | if removals work, a refused creation leaves no file at any failure point |
| `Vm.RefusedRestoresHost` | crates/malbox-controller/src/vm.rs:219-305 | then it restores the host iff the domain is not left: defined iff it ran or could be undefined in neither way, running iff it ran |
| `Vm.NoLeaseLeavesDomain` | crates/malbox-controller/src/vm.rs:259-272 | a machine without an address in time: refused, files gone, domain running |
| `Vm.CreationAdds` | crates/malbox-controller/src/vm.rs:206-293 | a creation adds the new machine, or if it is refused exactly its leftovers |
| `Vm.TeardownUndoesCreation` | crates/malbox-controller/src/vm.rs:206-334 | tearing down a created machine restores the host iff all four removals work |
| `VmLedger.MachinesConserved` | crates/malbox-controller/src/job.rs:231-271 | all runs of many jobs: machines made are those held, abandoned and torn down, without overlap; none is torn down twice |
| `VmLedger.WaysOut` | crates/malbox-controller/src/job.rs:231-271 | a held machine is torn down exactly at an observed cancellation or the end of the analysis, and abandoned exactly when bootstrap, connect or upload fails |
| `VmLedger.HostAccounted` | crates/malbox-controller/src/vm.rs:206-334 | all runs, whatever the calls do: overlays, nvrams, defined and running domains are each those of before, of held, abandoned and panicked machines, of leftovers of refused creations, and what removals failed to remove |
| `VmLedger.DomainLeftBehind` | crates/malbox-controller/src/vm.rs:235-305 | a creation adds to the leftover domains iff it is refused and the domain ran or could not be undefined |
| `VmLedger.FilesAccounted` | crates/malbox-controller/src/vm.rs:206-334 | if removals work, the added files are exactly those of held, abandoned and panicked machines |
| `VmLedger.BootstrapFailureAbandons` | crates/malbox-controller/src/job.rs:238-240 | a run that ends with an abandoned machine, all of it still there |
| `VmLedger.NoLeaseLeavesRunningDomain` | crates/malbox-controller/src/vm.rs:259-272 | a run that ends with a domain running on that belongs to no job |
| `VmLedger.CloudReachable` | crates/malbox-controller/src/job.rs:231-271 | the account holds at every moment of every run |
| `Template.ChainedIsSimultaneous` | crates/malbox-controller/src/vm.rs:144-154 | for templates of literals without an opening brace and placeholders, and values without one, replacing one after another is one simultaneous substitution |
| `Template.ReplaceFills` | crates/malbox-controller/src/vm.rs:145-154 | one replacement fills the placeholders of its key, whatever the value, and nothing else |
| `Template.OrderIrrelevant` | crates/malbox-controller/src/vm.rs:144-154 | the order of the replacements does not matter |
| `Template.NoPlaceholderSurvives` | crates/malbox-controller/src/vm.rs:144-154 | no known placeholder is left |
| `Template.PlaceholderInValue` | crates/malbox-controller/src/vm.rs:144-154 | some condition is needed: a value that is a later key's placeholder is filled in turn, and the order shows |
| `Template.ChainedForAnyValues` | crates/malbox-controller/src/vm.rs:144-154 | any values: in a template whose placeholders are separated, each is replaced by its value as the later replacements leave it, and nothing else changes |
| `Template.ExactForOneValue` | crates/malbox-controller/src/vm.rs:144-154 | if all other values open no brace, the chain is the simultaneous substitution iff the one value holds no placeholder replaced later |
| `Template.UntouchedValues` | crates/malbox-controller/src/vm.rs:144-154 | any number of values that open braces: if none holds a placeholder replaced later, the chain is the simultaneous substitution |
| `DomainXml.DomainRendered` | crates/malbox-controller/src/vm.rs:131-155 | the rendered domain is the template with each placeholder's value in place, if name, uuid and paths open no brace |
| `DomainXml.DomainHasNoPlaceholder` | templates/domain.xml:1-116 | none of the template's placeholders survives |
| `DomainXml.DomainForAnyValues` | crates/malbox-controller/src/vm.rs:131-155 | the rendered domain for any name, uuid and paths: each value as the later replacements leave it |
| `DomainXml.DomainExact` | crates/malbox-controller/src/vm.rs:131-155 | for any one of the values, overlay path and nvram path included: the domain is rendered as intended iff that value holds no placeholder of a key replaced after it |
| `DomainXml.DomainUntouched` | crates/malbox-controller/src/vm.rs:131-155 | any name, uuid and paths, none of which holds a placeholder of a key replaced after it: the domain is rendered as intended |
| `DomainXml.TwoPathsNoConverse` | crates/malbox-controller/src/vm.rs:131-155 | for two values at once that is not necessary: with both paths the nvram placeholder the domain is rendered as intended |
| `DomainXml.DrawnUnopened` | crates/malbox-controller/src/vm.rs:58-74 | drawn serials, WWN and MAC address never open a brace |
| `DomainXml.WwnMeaning` | crates/malbox-controller/src/vm.rs:66-71 | a WWN has 18 characters and denotes 5·16^15 + part1·16^8 + part2 |
| `DomainXml.WwnInjective` | crates/malbox-controller/src/vm.rs:66-71 | different draws give different WWNs |
| `DomainXml.MacMeaning` | crates/malbox-controller/src/vm.rs:122-130 | a MAC address has 17 characters: prefix and draws, octet by octet |
| `DomainXml.MacInjective` | crates/malbox-controller/src/vm.rs:122-130 | different draws give different MAC addresses |
| `Hex.PaddedRoundTrip` | crates/malbox-controller/src/vm.rs:70 | a zero-padded rendering has its width and parses back |
| `Hex.BytesRoundTrip` | crates/malbox-agent/src/bson_log.rs:73-74 | a rendered byte string has two characters a byte and parses back |
| `Upload.UploadConserves` | crates/malbox-controller/src/job.rs:346-390 | every interleaving and all read sizes: written, in hand, queued, being sent and unread bytes make up the source; chunks are non-empty, at most 32 KiB, only the first flagged and named |
| `Upload.AcceptedIsComplete` | crates/malbox-agent/src/agent.rs:31-80 | an accepted upload is what had been read when the producer ended: the whole source iff nothing was left unread, and only a read error leaves something |
| `Upload.TruncatedIsAccepted` | crates/malbox-controller/src/job.rs:355-380 | a run in which the second read fails: the agent accepts one byte of two |
| `Upload.EmptyStream` | crates/malbox-agent/src/agent.rs:32-39 | unless the stream itself fails, the call ends with "file stream is empty" iff it ends and no chunk was made |
| `Upload.NeverBothBlocked` | crates/malbox-controller/src/job.rs:346-390 | without any failure something can happen until both sides have ended, within 5·size+3 effective steps |
| `Upload.HealthyUploadDelivers` | crates/malbox-agent/src/agent.rs:31-80 | without failures a non-empty named sample has arrived whole exactly when nothing more can happen |
| `Upload.Produce` | crates/malbox-controller/src/job.rs:355-380 | the producer's loop, while the consumer does the given stretch of steps before each of its own, leaves the channel where the step machine gets on its script: the stretches in order, each followed by the next read of the given size or the send; it ends or a send waits, and the source is cut into fit chunks without loss |
| `Upload.Receive` | crates/malbox-agent/src/agent.rs:31-80 | the receiver's code, while the producer does the given stretch of steps before each of its own, leaves channel and file where the step machine gets on its script: the stretches in order, each followed by the next message, check, write or flush with its given outcome; if it accepts it has counted and written all that was made |
| `Handshake.BootstrapService.WhoAmI` | crates/malbox-agent/src/bootstrap.rs:39-46 | stores and returns the caller's address |
| `Handshake.BootstrapService.RequestCsr` | crates/malbox-agent/src/bootstrap.rs:47-61 | a new key and request; a request that panics has already replaced the root |
| `Handshake.BootstrapService.SwitchConnection` | crates/malbox-agent/src/bootstrap.rs:63-80 | an empty certificate is refused; otherwise it is stored and the end signalled if it was not |
| `Handshake.DoneOnce` | crates/malbox-agent/src/bootstrap.rs:63-80 | any sequence of calls: the end is signalled at most once, exactly when a non-empty certificate has been stored, the last of which the agent holds |
| `Handshake.Agreement` | crates/malbox-controller/src/job.rs:274-311 | any number of controllers, any interleaving: both TLS verifications succeed with one iff the last request and the last certificate are both its own |
| `Handshake.SingleControllerAgrees` | crates/malbox-agent/src/main.rs:14-31 | one controller: the agent starts with that controller's root, a key, and a certificate for the dialed address signed by that root over that key |
| `Handshake.AgreesUnlessOvertaken` | crates/malbox-controller/src/job.rs:274-322 | a controller that finished its bootstrap agrees unless another asked or stored after it |
| `Handshake.TwoControllersDisagree` | crates/malbox-agent/src/bootstrap.rs:47-80 | two interleaved controllers can leave the agent with nobody it agrees with |
| `CommandServer.OnlyTheWindowBlocks` | crates/malbox-agent/src/pipes/command.rs:9-26 | after the nudge the server blocks only if the nudge fell between a passed check and the pipe's creation and no client came since |
| `CommandServer.StepsLeft` | crates/malbox-agent/src/pipes/command.rs:9-26 | with the flag down every step of the server brings it closer to its exit, at most three |
| `CommandServer.NudgedServerExits` | crates/malbox-agent/src/analysis.rs:110-112 | a nudge outside the window: three turns of the server suffice, however clients interleave |
| `CommandServer.WindowWaits` | crates/malbox-agent/src/pipes/command.rs:9-20 | in the window the server waits for ever without a client and exits after one |
| `CommandServer.WindowIsReachable` | crates/malbox-agent/src/pipes/raw.rs:181-200 | the window is real |
| `CommandServer.HandlersAfterStop` | crates/malbox-agent/src/pipes/command.rs:21-25 | after the flag is lowered at most the client whose check had passed is handed over |
| `CommandServer.NoHandlerAfterLoweredCheck` | crates/malbox-agent/src/pipes/command.rs:21-23 | none once the check after the connection reads a lowered flag |
| `CommandServer.ExitHasACause` | crates/malbox-agent/src/pipes/command.rs:9-16 | the loop ends only for a lowered flag or a pipe that cannot be created |
| `CommandServer.ServeCommandPipe` | crates/malbox-agent/src/pipes/command.rs:6-27 | the loop, while clients and the shutdown do the given stretch of steps before each of its own, leaves flag, pipe and threads where the step machine gets on its script: round after round check, creation, connection, second check and hand-over with their given outcomes, to the exit, a wait, or the end of all rounds |
| `ProcessHandles.Process.Open` | crates/malbox-agent/src/process.rs:51-95 | which handles are asked for and stored, failed ones included |
| `ProcessHandles.OpenMeaning` | crates/malbox-agent/src/process.rs:51-95 | existing handles stay; it fails iff one it asked for came back null, else every known id has its handle; limited access only if full access was refused |
| `ProcessHandles.Process.Execute` | crates/malbox-agent/src/process.rs:111-184 | the fields of a created process; the suspended flag is set even if creation fails |
| `ProcessHandles.Process.ExitCode` | crates/malbox-agent/src/process.rs:185-199 | opens if there is no usable handle; panics without any |
| `ProcessHandles.Process.IsAlive` | crates/malbox-agent/src/process.rs:200-206 | alive iff the exit code is 0x103 |
| `ProcessHandles.Process.Resume` | crates/malbox-agent/src/process.rs:415-432 | clears the flag iff the thread was resumed |
| `ProcessHandles.Process.Close` | crates/malbox-agent/src/process.rs:433-458 | stops at the first handle that cannot be closed |
| `ProcessHandles.Process.TerminateAndClose` | crates/malbox-agent/src/process.rs:459-478 | closes both and clears the fields |
| `ProcessHandles.LedgerHolds` | crates/malbox-agent/src/process.rs:51-95 | one execute and any other operations: the open handles are exactly the real ones in the fields, none closed twice, null never among them |
| `ProcessHandles.ExecuteAgain` | crates/malbox-agent/src/process.rs:111-184 | a further execute keeps the ledger iff it creates nothing or no handle was open |
| `ProcessHandles.CloseReleases` | crates/malbox-agent/src/process.rs:433-458 | close fails iff a field holds null, leaving the thread handle open if it is the process's; twice releases all |
| `ProcessHandles.TerminationReleases` | crates/malbox-agent/src/process.rs:459-478 | termination leaves nothing open |
| `ProcessHandles.NullSticks` | crates/malbox-agent/src/process.rs:51-95 | a failed open is not tried again before the process is closed or terminated |

## Left out

- The document parser of the `bson` crate is an arbitrary partial function on frames; key generation, signing and TLS are symbolic, with every generated key different.
- Win32, libvirt, `qemu-img`, the file systems and gRPC are steps with every outcome; time limits, sleeps and polling intervals are outcomes of those steps.
- A recursion that overflows the stack is not told apart from one that never ends: both are `None`.
- A zero-byte message on a pipe, which would read as an end of file, is not among the pieces `ReadFile` delivers.
- A failed nvram copy or a failed `qemu-img` is taken to leave no file; libvirt's own removal of the nvram file on undefine is not modelled.
- A job whose task panics in a phase after creation is not followed further; no code of that stretch panics on its own.
- Writing the received chunks: the path check of the upload directory is an outcome, as Windows path semantics are not modelled.
- The stream between the upload channel and the receiver holds no chunks of its own.
- Calls on the plain bootstrap server that are still running after the end was signalled are ordinary steps of `Handshake.Run`.
- Creation times, request bodies, JSON shapes, HTTP status codes, the front end, configuration and volatility: plumbing around the modelled operations.
- The loop that answers commands on a connected command pipe: it reads until the end and answers OK.
- `inject`, `get_filepath`, `write_monitor_config`, `set_terminate_event`, `detect_pe_type`, `get_state`, `is_64bit`: effects on, or single look-ups in, systems outside the model.
- Log printing is not modelled.
- RunJob.Run: creating a machine and tearing one down are each one step, during which the others do nothing.
