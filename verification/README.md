# A verified model of the OpenOLT scale tester

The scale tester provisions many fake ONUs, and the subscribers behind them, on one OLT. This Dafny
project models how it does so and proves what holds over every interleaving of its goroutines and
for every way the device may answer.

## How the model is built

- **The run** (`Batches`, `Protocol`, `Safety`, `Launches`, `Progress`, `Draws`, `Isolation`,
  `TagRanges`, `Witnesses`, `Limits`, `Instances`, `Devices`). The checks, the halving loop and the triple launch
  loop are methods; the triple loop yields a launch program of slots and barriers. `Protocol` runs that program as a transition system with one event per
  atomic step of the main goroutine, of an activated ONU and of a subscriber, and the two levels of
  wait groups as counters. `Done` is called where the source calls it and nowhere else: an ONU whose
  activation returned an error and a subscriber whose technology-profile instance failed never call
  it. `Safety` and `Progress` prove the barriers and the outcome; `Launches`, `Draws` and `Instances`
  account for every launch attempt, tag draw and technology-profile instance; `Isolation` adds the shared tag allocators, serial
  numbers and port numbers and proves that no two subscribers clash; `TagRanges` and `Limits` give
  the exact conditions, in the end in terms of the configuration alone, under which tags are usable
  and port numbers and names distinct, with runs built in `Witnesses` where a condition fails.
- **The allocators** (`Tags`, `Serials`, `UniPorts`, `FlowIds`). Classes with the source's fields,
  specified by the history of draws made from them: C-tags count draws per port, the DT S-tag memo
  numbers subscribers in order of first request, flow ids count draws per resource manager. Words
  wrap as they do in Go. Where several goroutines share an allocator, other goroutines' draws may
  fall between any two draws of one goroutine.
- **The flows** (`Pbits`, `Frames`). The bitmap decoder, and classifiers and actions with a meaning
  on stacks of VLAN ids, outermost first. An id of zero in a classifier or action is unset. Pushing a
  tag also names the customer tag beneath it, popping one names the tag that is left.
- **The stages** (`Provisioning`, `Scripts`, `Flows`, `Outcomes`, `Workflow`). The device is an oracle from the trace of
  calls so far and the next call to an answer; lookups in the technology profile, random MAC
  addresses and the ids drawn by other goroutines are oracles too. `Provisioning` gives a script of
  items its reference meaning, `Scripts` writes each workflow down as a script and proves what every
  run of it guarantees, `Flows` and `Outcomes` say field by field and answer by answer what is sent and
  how it ends, and the methods of `Workflow` follow the source's stages, loops and early
  returns and are proved to run exactly their script. The four TT stages share one pair of loops
  here, and the scheduler and queue stages of ATT, DT and TT are one method each, because their
  source texts are the same.
- **The group test** (`Elections`, `GroupRuns`, `Multicast`). The `lastPonIntf` election with its atomic read and
  its atomic addition as separate steps of a shared counter object; whole runs in which subscribers
  take part in the election while they are deployed, batch by batch; and the calls an election leads
  to.

Assumptions: the ONU-id allocator gives out ids of the device's range only, the same range for every
port, and never an id already in use on the port (the guard of the launch event); it may fail at any
time, and while an id is left it may also succeed. The workflow is ATT, DT or TT; the list of
technology-profile ids is not empty.

## Where the code and its promises part

- The comment in `core/olt_manager.go:241` says the least batch size is 1. It is 0, and the loop bound
  divides by zero, exactly when the low 32 bits of the per-port count are zero
  (`Batches.HalvingReachesZero`), as for 2^32 ONUs on one port (`Batches.HalvingFault`).
- The launch loop selects a resource manager by batch index, not by port. It stays in range exactly
  while the per-port count, cut to 32 bits, is at most 4 * PonPorts + 3 (`Batches.IndexCondition`);
  8 ONUs on one port are too many (`Batches.IndexFault`).
- A power-of-two ONU count is meant to ensure an even distribution. The distribution is always even;
  but all ONUs are attempted exactly when the port count divides the ONU count and the per-port
  count fits 32 bits (`Batches.Coverage`). Of 4 ONUs on 3 ports one is left out
  (`Batches.CoverageGap`).
- The printer reads four bytes of a serial number. Printed serial numbers are unique for at most 9000
  ONUs and no more (`Serials.PrintedUniqueBound`), and so are the subscriber names of a completed run
  without skipped launches (`Limits.NamesDistinctExactly`).
- An activation answered with "already exists" is logged as in progress, but no run that meets it
  completes (`Progress.AlreadyExistsBlocks`): like any other error it blocks the barrier of its batch
  for ever (`Progress.FailureBlocksBatch`).
- The multicast election reads and advances its counter in two steps. A configured run elects the
  ports in order in every interleaving exactly when a batch brings a port at most one subscriber
  (`GroupRuns.ElectionInRun`); a single election does exactly when no two subscribers of a port
  overlap between the two steps (`Elections.ElectionOrder`). With two subscribers on each of two
  ports, port 0 can win twice and port 1 never (`Elections.SkippedPort`).
- Tags are handed out without a look at the 12-bit VLAN range. A completed run without skipped launches stays
  within it exactly up to 4093 (ATT) or 4094 (DT, TT) subscribers per port for C-tags
  (`TagRanges.CtagsUsableExactly`), and up to 4094 subscribers on all ports together for DT S-tags
  (`TagRanges.DtStagsUsableExactly`); `Limits.ConfiguredTags` has both in terms of the configuration.
- Port numbers pack the subscriber index into four bits. With at most 2^20 ports and a range of two or
  more ONU ids below 256, all subscribers of every run have distinct port numbers exactly when an ONU
  has at most 16 (`Limits.PortsDistinctExactly`).

## Model

| member | source | states |
|---|---|---|
| Batches.PowerOfTwoTest | core/olt_manager.go:455-457 | for every count but zero the bit test accepts exactly the powers of two; zero passes it |
| Batches.PlanBatches | core/olt_manager.go:216-248 | the checks and the halving loop settle on the reference plan, division faults included |
| Batches.PlanOutcome | core/olt_manager.go:216-248 | which configurations each check stops: not a power of two, then fewer ONUs than ports, then a division by zero |
| Batches.PlanLaunch | core/olt_manager.go:237-248 | the batch size is the largest of 4, 2 and 1 within the 32-bit per-port count, and the batches are that count divided by it |
| Batches.HalvingReachesZero | core/olt_manager.go:237-248 | the batch size is 1, 2 or 4, or the run faults, the latter exactly when the 32-bit per-port count is zero |
| Batches.HalvingFault | core/olt_manager.go:237-248 | 2^32 ONUs on one port fault |
| Batches.LaunchLoop | core/olt_manager.go:247-270 | the triple loop performs exactly the launch program: per batch, per port, the batch size in attempts, then one barrier |
| Batches.ProgramAt | core/olt_manager.go:248-267 | batch b makes attempt l on port p at place b * (pons * k + 1) + p * k + l, and waits at the end of its round |
| Batches.Coverage | core/olt_manager.go:228-267 | for every configuration past the checks: each port gets the same number of attempts; fewer than 4 per port are missing exactly when the per-port count fits 32 bits; none is missing exactly when it fits and the port count divides the ONU count; when the port count divides, the run faults exactly when the per-port count does not fit |
| Batches.CoverageGap | core/olt_manager.go:228-250 | of 4 ONUs on 3 ports only 3 are attempted |
| Batches.IndexCondition | core/olt_manager.go:248-257 | every batch index selects an existing resource manager exactly when the 32-bit per-port count is at most 4 * PonPorts + 3 |
| Batches.IndexFault | core/olt_manager.go:248-257 | 8 ONUs on one port run out of resource managers |
| Serials.Generator.GenerateNext | core/utils.go:55-68 | the n-th serial number of a run is the vendor name with the decimal numeral of 1000 + n |
| Serials.FirstSerial | core/utils.go:45-68 | the first serial number is ABCD and 1001, printed ABCD31303031, and its first subscriber is ABCD31303031-0 |
| Serials.VendorSpecificDistinct | core/utils.go:57-68 | no two serial numbers of a run carry the same bytes |
| Serials.DecimalLength | core/utils.go:55-62 | the four bytes the printer reads are always there |
| Serials.PrinterInjective | core/olt_manager.go:349-359 | the hexadecimal form tells byte strings apart exactly as far as their first four bytes |
| Serials.PrintedAlike | core/olt_manager.go:342-359 | two serial numbers print alike exactly when their ids share their first four digits |
| Serials.PrintedUniqueBound | core/olt_manager.go:342-359 | printed serial numbers of a run are pairwise distinct exactly when there are at most 9000 |
| Serials.ParsePrinted | core/olt_manager.go:349-359 | the printed form can be read back to the id exactly for the first 8999 ids |
| Serials.NamesAlike | core/onu_manager.go:55 | subscriber names agree exactly when the printed serial numbers and the indices agree |
| UniPorts.UnpackInverts | core/utils.go:71-77 | the packed port can be unpacked exactly when each field fits its width |
| UniPorts.PackedSum | core/utils.go:71-77 | fitting fields are packed as port * 4096 + ONU * 16 + UNI |
| UniPorts.PortsDistinct | core/utils.go:71-77 | different fitting identities get different port numbers |
| UniPorts.PortsClash | core/utils.go:71-77 | the seventeenth subscriber takes the port of its own ONU's first if the ONU id is odd, and of the next ONU's first if it is even |
| Tags.TagAllocator.GetAttCtag | core/utils.go:79-91 | the tag is the port's ATT draw count plus one, whatever other ports and workflows draw |
| Tags.TagAllocator.GetDtCtag | core/utils.go:93-105 | the tag is the port's DT draw count |
| Tags.TagAllocator.GetTtCtag | core/utils.go:107-119 | the tag is the port's TT draw count |
| Tags.TagAllocator.GetDtStag | core/utils.go:126-138 | the tag is the subscriber's place in the order of first requests |
| Tags.TagAllocator.GetCtag | core/utils.go:146-158 | dispatch by workflow; an unknown workflow gets zero and draws nothing |
| Tags.TagAllocator.GetStag | core/utils.go:160-172 | dispatch by workflow; only DT draws from the memo |
| Tags.DtStagStable | core/utils.go:126-138 | a DT S-tag never changes, however many draws follow |
| Tags.FirstSeenMeaning | core/utils.go:126-138 | the order of first requests holds exactly the subscribers that asked, each before all that first asked later |
| Tags.DtStagBijection | core/utils.go:126-138 | before the counter wraps, the memo is a bijection onto 1 to the number of subscribers seen |
| Tags.CtagCounts | core/utils.go:79-119 | a draw on a port gets the number of draws there before it plus 2 (ATT) or 1 (DT, TT), in 32 bits |
| Tags.CountMeaning | core/utils.go:79-119 | a port's count is the number of its workflow's draws in the history |
| Tags.CtagUsable | core/utils.go:79-119 | before the counter wraps, a C-tag is a usable VLAN id, 1 to 4094 as in section 9.6 of IEEE 802.1Q, exactly up to the 4093rd (ATT) or 4094th (DT, TT) draw on its port |
| Tags.CtagsDiffer | core/utils.go:79-119 | draws on the same port get increasing tags |
| Tags.PairsDiffer | core/utils.go:79-172 | two subscribers never share both tags, wherever their draws fall in the history |
| Safety.StepKeepsInv | core/olt_manager.go:248-270 | every step of every goroutine keeps the wait-group and barrier invariant |
| Safety.BarrierSafety | core/olt_manager.go:248-340 | in every reachable state both kinds of wait group count exactly the goroutines not yet done, and behind each passed barrier every launched ONU activated and each of its subscribers has a final reason |
| Launches.LaunchesCount | core/olt_manager.go:248-267 | in every state the serial numbers taken count the attempts, each attempt launched an ONU or was skipped, and each port's ONUs are its attempts less skips |
| Launches.PoolBound | core/olt_manager.go:257-261 | no port ever has more ONUs than the device's range has ids, and an id is left there exactly while it has fewer |
| Progress.StepLessWork | core/onu_manager.go:48-85 | every step strictly decreases one natural-number measure |
| Progress.RunsEnd | core/olt_manager.go:248-340 | no run is longer than a bound fixed by the configuration |
| Progress.Outcome | core/olt_manager.go:264-270 | a run that cannot go on has completed exactly when no activation and no instance creation failed and no index was out of range |
| Progress.FailureBlocks | core/subscriber_manager.go:95-108 | after one failed activation or instance creation no continuation ever completes |
| Progress.FailureBlocksBatch | core/olt_manager.go:264-267 | the barrier of the failed ONU's batch, and every later one, is never passed |
| Progress.AlreadyExistsBlocks | core/olt_manager.go:306-339 | a run in which an activation was answered with "already exists" never completes |
| Instances.InstancesFirst | core/subscriber_manager.go:95-110 | over every run, by its events: a subscriber in or after deployment was given an instance for each profile id and refused none; a failed one was refused one before it had them all |
| Instances.RefusalIsLast | core/subscriber_manager.go:102-109 | a refused instance ends the subscriber's attempts |
| Instances.ReasonReported | core/workflow_manager.go:42-107 | a final reason is the one the subscriber's deployment ended with |
| Progress.CompletedCreates | core/subscriber_manager.go:95-110 | in a completed run every subscriber was given all its instances |
| Progress.CanComplete | core/olt_manager.go:248-340 | while nothing has failed, indices are in range and the range of ids covers a port's attempts, every run can be continued, skipping no further launch, until every attempt not skipped before has its ONU and every ONU and subscriber is provisioned: there is no deadlock |
| Progress.CompletesInRange | core/olt_manager.go:257 | a completed run never had a batch index out of range |
| Progress.NoCrash | core/olt_manager.go:257 | with all batch indices in range no run crashes |
| Progress.ConfiguredOutcome | core/olt_manager.go:204-270 | for every configuration, the launch loop is reached and completes exactly when the ONU count is a power of two and at least the port count, the 32-bit per-port count is 1 to 4 * PonPorts + 3, and nothing failed |
| Progress.ConfiguredLaunches | core/olt_manager.go:228-270 | a completed run has launched and provisioned all planned ONUs but the skipped ones, equally many per port if none was skipped, and the requested number exactly when none was skipped and the batches cover it |
| Progress.ConfiguredCompletes | core/olt_manager.go:248-270 | some run completes without skipping a launch exactly when the configuration is within the limits and the range of ids covers a port's attempts |
| Progress.LaunchAll | core/olt_manager.go:248-270 | then there is a run that launches and provisions every planned ONU |
| Draws.DrawsBounded | core/onu_manager.go:54-77 | in every state a port's C-tag draws are at most the subscribers planned there, and DT S-tags at most those planned in all |
| Isolation.StepKeepsTagInv | core/onu_manager.go:54-77 | every step keeps each subscriber's recorded tags those of its own draws, and ONU identities and serial numbers distinct |
| Isolation.DeviceKeysDistinct | core/olt_manager.go:302-331 | no entry of the device map is ever overwritten |
| Isolation.TagPairsDistinct | core/onu_manager.go:61-63 | while no single tag counter can wrap, in every state of every interleaving distinct subscribers hold distinct tag pairs, none of them zero |
| Isolation.FramesIsolated | core/workflow_utils.go:196-202 | in ATT and DT runs no frame matches the downstream internet flows of two subscribers |
| Isolation.PortsDistinctInRun | core/onu_manager.go:61 | in every state any two subscribers have distinct UNI port numbers while their fields fit |
| Limits.PortsDistinctExactly | core/onu_manager.go:54-61 | with at most 2^20 ports and a range of at least two ids, all below 256, the port numbers of every run are distinct exactly when an ONU has at most 16 subscribers |
| Isolation.NamesDistinctInRun | core/onu_manager.go:55 | in every state of a run of at most 9000 attempts any two subscribers have distinct names |
| Limits.NamesDistinctExactly | core/onu_manager.go:55 | the names of a completed run without skipped launches are distinct exactly up to 9000 launches |
| TagRanges.CtagsUsableInRun | core/utils.go:79-119 | in every state all C-tags are usable while no port has more planned subscribers than usable tags |
| TagRanges.CtagsUsableExactly | core/utils.go:79-119 | a completed run without skipped launches has only usable C-tags exactly up to 4093 (ATT) or 4094 subscribers per port |
| TagRanges.DtStagsUsableInRun | core/utils.go:126-138 | in every state of a DT run all S-tags are usable while at most 4094 subscribers are planned in all |
| TagRanges.DtStagsUsableExactly | core/utils.go:126-138 | a completed DT run without skipped launches has only usable S-tags exactly when it has at most 4094 subscribers |
| TagRanges.PortStagUsable | core/utils.go:121-124 | in ATT and TT a subscriber's S-tag is usable exactly on ports up to 4092 |
| Batches.PerPortWhenDivides | core/olt_manager.go:228-250 | a dividing port count whose per-port count fits 32 bits gives every port its share of launch attempts |
| Limits.ConfiguredPorts | core/onu_manager.go:54-61 | the exact condition for port numbers, for every configuration that reaches the launch loop |
| Limits.ConfiguredNames | core/onu_manager.go:55 | the exact condition for names in launch attempts per port times ports |
| Limits.ConfiguredTags | core/utils.go:79-138 | the exact conditions for usable C-tags and DT S-tags in launch attempts per port, ports and subscribers per ONU |
| Limits.ConfiguredCounters | core/utils.go:79-138 | the configurations whose tag counters cannot wrap, in the same terms |
| Devices.Manager.ActivateOnu | core/olt_manager.go:288-340 | the ONU is recorded whatever the answer, and started exactly when the protocol's activation step starts it, which is on no error |
| Devices.OnuDevice.Start | core/onu_manager.go:48-77 | with other goroutines drawing in between, each subscriber is started once and is the only entry under its own name, with its own port and the tags of its own draws |
| Frames.FormatClassifierAction | core/workflow_utils.go:143-209 | field-by-field filling yields the reference classifier and action |
| Frames.FormatTtClassifierAction | core/tt_workflow.go:85-196 | field-by-field filling yields the reference classifier and action |
| Frames.HsiaFrames | core/workflow_utils.go:172-202 | in ATT and DT the upstream internet flow takes exactly the frames tagged with the customer tag and adds the service tag, the downstream flow the reverse |
| Frames.TtFrames | core/tt_workflow.go:100-189 | exactly so in TT: internet 33 in 7, voice 63 in 10, video 55 in 555, management 75 in 575 |
| Frames.TtPriorityValues | core/tt_workflow.go:100-189 | the priorities of the TT services: 0, 7, 5 and 7 |
| Frames.TtAddresses | core/tt_workflow.go:150-189 | a random address is matched downstream for voice, video and management only |
| Frames.HsiaInverse | core/workflow_utils.go:172-202 | the upstream and downstream internet flows undo each other on every frame either matches, exactly when the service tag is set |
| Frames.TtInverse | core/tt_workflow.go:100-189 | the flows of each TT service undo each other on every frame either matches |
| Frames.TtServicesDisjoint | core/tt_workflow.go:100-189 | no frame belongs to two TT services, in either direction |
| Frames.InverseAnyPriority | core/tt_workflow.go:205-208 | overwriting the priorities of two flows does not change whether they undo each other |
| Frames.TtFramesShared | core/tt_workflow.go:100-189 | a TT service's downstream flows match the same single frame for every subscriber: TT does not isolate subscribers by tag |
| Frames.TrapsOnly | core/workflow_utils.go:147-171 | exactly the upstream EAP, DHCP and IGMP flows send packets to the host, tags unchanged |
| Frames.TrapPackets | core/workflow_utils.go:147-171 | which single-tagged packets the EAP, DHCP and IGMP flows take, by ether type, protocol and ports |
| Frames.TrapsDisjoint | core/workflow_utils.go:147-171 | no packet belongs to two kinds of trap flow |
| Frames.TrapReach | core/workflow_utils.go:147-181 | the EAP flow is tied to one C-tag and lies within that subscriber's internet flow; DHCP and IGMP flows take every subscriber's packets |
| Pbits.Decode | core/att_workflow.go:307-320 | the decoding loops build the reference map |
| Pbits.WrittenDigits | core/att_workflow.go:312-320 | a bitmap carries a priority exactly when its digit at that place from the right is a one, after the prefix 0b if it has one |
| Pbits.DecodedMap | core/att_workflow.go:307-320 | for bitmaps as they are written, a priority is mapped exactly when one carries it, and then to the last GEM port that does |
| Pbits.PbitToGemMeaning | core/dt_workflow.go:150-158 | a priority is mapped exactly when some bitmap's number has that bit, and then to the last such GEM port |
| Pbits.RecoverableWhenDisjoint | core/att_workflow.go:312-320 | with distinct ids every bitmap can be read back exactly when no two overlap |
| Pbits.MappedWhenCarried | core/att_workflow.go:312-320 | exactly the priorities carried by some bitmap are mapped |
| Pbits.PrioritiesMeaning | core/tt_workflow.go:346-350 | scanning a bitmap meets exactly its set bits, in strictly decreasing order |
| Provisioning.RunFollows | core/workflow_manager.go:42-108 | a deployment makes its script's calls in order, all of them if it succeeds |
| Provisioning.RunSucceeds | core/workflow_manager.go:42-108 | it succeeds exactly when every lookup succeeds and every call made is accepted |
| Provisioning.RunFails | core/workflow_manager.go:42-108 | it stops at the first failing item, whose reason it reports |
| Scripts.Staged | core/workflow_manager.go:55-103 | no queue before both schedulers are accepted, no flow before both queues are accepted, for every workflow and device |
| Outcomes.SetupCalls | core/att_workflow.go:118-194 | the setup calls are downstream then upstream schedulers, downstream then upstream queues, and every answer recorded is the device's |
| Outcomes.SetupStops | core/att_workflow.go:118-194 | setup stops at the first lookup that fails or the first call not answered Ok |
| Outcomes.ReasonByCodes | core/workflow_utils.go:230-244 | the reason by lookups and answer codes: setup needs Ok, a flow Ok or already exists, and a failed flow fails the subscriber |
| Outcomes.RejectedIsLast | core/workflow_manager.go:65-103 | in ATT and DT nothing is sent after a rejected call |
| Scripts.ReasonSuccess | core/workflow_manager.go:55-107 | the reason is success exactly when every lookup and every call succeeded |
| Scripts.ReasonStage | core/workflow_manager.go:55-103 | the reason is that of the first stage with a missing lookup or a rejected call: schedulers, else queues, else flows, else success; nothing is called after it |
| Scripts.NthFlow | core/workflow_utils.go:211-230 | the n-th flow sent is the script's n-th and carries the subscriber's n-th id |
| Scripts.SymmetricIds | core/tt_workflow.go:352-367 | each downstream flow directly follows the upstream flow of its service, GEM port and priority and names its id; in ATT and DT that flow was accepted |
| Scripts.PairsInvert | core/att_workflow.go:323-336 | as sent, a downstream flow and the upstream flow it names undo each other on VLAN ids: always in TT, and in ATT and DT exactly when the service tag is set |
| Scripts.TtFlowCount | core/tt_workflow.go:334-566 | the TT script has twelve flows for every set bit |
| Scripts.TtTotal | core/tt_workflow.go:334-566 | a successful TT subscriber makes four setup calls and twelve flow calls per set bit |
| Scripts.TtGroupAt | core/tt_workflow.go:346-377 | every flow group stands for a set bit of a GEM port |
| Flows.PlacesMeaning | core/tt_workflow.go:346-350 | the TT groups are the set bits of the bitmaps as written, GEM ports in list order and the most significant bit first |
| Flows.TtFlowAt | core/tt_workflow.go:346-377 | for every flow sent in TT, by its number: service, direction, GEM port, priority override, and the fields taken from the subscriber |
| Flows.TtPlace | core/tt_workflow.go:334-566 | every TT flow stands in the order internet, voice, video, management, bit by bit |
| Flows.ReplicatedFlowAt | core/att_workflow.go:196-337 | for every flow sent in ATT and DT, by its number: kind, direction, classifier, the decoded map, and the fields taken from the subscriber |
| Words.SignedMeaning | core/workflow_utils.go:222-227 | the signed fields differ from the unsigned values by 0 or 2^32 |
| Scripts.TtFailure | core/tt_workflow.go:425-433 | on failure every flow of the failing bit was attempted, nothing after it, and the first rejected flow's error is returned |
| FlowIds.ResourceMgr.GetFlowID | core/resource_manager.go:172-177 | each draw gets the count of draws so far by all goroutines, modulo 2^64 |
| FlowIds.ViewOfHistory | core/resource_manager.go:172-177 | in any interleaving each goroutine gets exactly the ids its own view predicts |
| FlowIds.ViewIncreases | core/resource_manager.go:172-177 | a goroutine's ids increase until the counter wraps |
| FlowIds.IssuedDistinct | core/resource_manager.go:172-177 | the first n ids are pairwise distinct exactly while n is at most 2^64, and are 1 to n before that |
| FlowIds.IdsNeverShared | core/resource_manager.go:172-177 | over any interleaving of any goroutines, no two draws get the same id exactly up to 2^64 draws |
| Workflow.Subscriber.Start | core/subscriber_manager.go:89-113 | hand-off happens exactly when all instances were created; the failing instance is stored before the early return |
| Workflow.Subscriber.ProvisionScheds | core/att_workflow.go:118-153 | runs the scheduler items of the script |
| Workflow.Subscriber.ProvisionQueues | core/att_workflow.go:155-194 | runs the queue items of the script |
| Workflow.Subscriber.AddFlow | core/tt_workflow.go:198-234 | sends one flow built from its template and maps the answer to an error |
| Workflow.Subscriber.ProvisionEapFlow | core/att_workflow.go:196-226 | runs the EAP stage of the script |
| Workflow.Subscriber.ProvisionDhcpIpv4Flow | core/att_workflow.go:228-258 | runs the DHCP stage of the script |
| Workflow.Subscriber.ProvisionHsiaPair | core/dt_workflow.go:139-177 | runs the two internet flow items; the second only after the first was accepted |
| Workflow.Subscriber.ProvisionBit | core/tt_workflow.go:458-504 | runs one bit's group and returns the first error in the order upstream, downstream, DHCP, IGMP |
| Workflow.Subscriber.ProvisionGem | core/tt_workflow.go:348-376 | the loop over one bitmap runs its groups most significant bit first |
| Workflow.Subscriber.ProvisionPosition | core/tt_workflow.go:348-376 | one bitmap position runs its group if the bit is set and sends nothing if not |
| Workflow.Subscriber.ProvisionTtService | core/tt_workflow.go:334-380 | the loop over the GEM ports runs the service's script |
| Workflow.Subscriber.ProvisionMulticastFlow | core/tt_workflow.go:568-613 | takes its part in the shared election, with other subscribers free to act in between, then runs the group-test script of the port and the result |
| Workflow.Subscriber.AddMulticastFlow | core/workflow_utils.go:379-421 | runs the multicast flow item |
| Workflow.Subscriber.SendMulticast | core/workflow_utils.go:393-420 | sends one multicast flow and maps the answer to an error |
| Workflow.Subscriber.FinishMulticast | core/workflow_utils.go:514-533 | runs the scheduler, queue and member items |
| Workflow.Subscriber.DeployFlows | core/workflow_manager.go:65-103 | the flow stages in stage order run the workflow's flow script |
| Workflow.Subscriber.DeployWorkflow | core/workflow_manager.go:42-108 | the deployment runs exactly its script, records the reason and calls Done exactly once |
| Workflow.DeployedSymmetricIds | core/att_workflow.go:323-336 | in every deployment, before 2^64 draws, each downstream flow names the smaller id of the flow sent just before it |
| Elections.Election.Elect | core/tt_workflow.go:595-602 | the test and the increment are a read and an addition of the shared counter, each atomic, others free to act around them |
| Elections.StepKeepsOrder | core/tt_workflow.go:595-602 | without overlap, each step keeps the elected ports 0, 1, 2, ... in order |
| Elections.ElectionOrder | core/tt_workflow.go:595-602 | the elected ports are in order, each once, exactly when no two subscribers of a port overlapped |
| GroupRuns.ElectionInRun | core/tt_workflow.go:595-602 | in a configured run, barriers, failures and skipped launches included, every interleaving elects the ports in order exactly when a batch brings a port at most one subscriber |
| GroupRuns.AccessInBatch | core/workflow_manager.go:42-53 | the counter is accessed only by subscribers under deployment, hence only while their batch is |
| GroupRuns.RunKeepsDecided | core/tt_workflow.go:595-611 | a subscriber whose deployment has ended has taken its part in the election |
| Elections.AtomicElection | core/tt_workflow.go:595-602 | with read and addition as one step the order always holds |
| Elections.SkippedPort | core/tt_workflow.go:595-602 | an overlap can elect port 0 twice and leave port 1 without a winner |
| Multicast.GroupTest | core/workflow_utils.go:494-536 | the group-test calls are made in order, each only after all before it were accepted |
| Outcomes.GroupCallsMade | core/workflow_utils.go:379-536 | the calls of a group test and the fields of its flow, by port and election result |
| Outcomes.GroupOutcome | core/workflow_utils.go:379-536 | its outcome by answer codes: success, the scheduler's reason or the device's own; only the multicast flow may already exist |
| Outcomes.NoGroupTest | core/att_workflow.go:355-358 | in ATT and DT a group test makes no call and succeeds |
| Multicast.SchedulerAttempt | core/workflow_utils.go:494-536 | the scheduler is attempted exactly by an elected subscriber, on port 0 only after the group and its flow were accepted |
| Multicast.ScheduledPorts | core/tt_workflow.go:595-602 | after an election in order, the ports whose scheduler is attempted are exactly 0 to lastPonIntf - 1, each by one subscriber, port 0 only with its group and flow accepted |

## Left out

- Dialling, device info, indications, etcd, JSON, logging, signals and timestamps: input and output only.
- Flag parsing: the configuration is taken as given; a subscriber count per ONU is a 32-bit number here.
- NNI trap flows: three fixed flows whose errors are ignored; their ids are draws like any other in `FlowIds`.
- The retry helpers: nothing calls them.
- Resource-manager construction, technology-profile instances, shaping rates and weights: results of an unseen library, or constants.
- The request bodies of scheduler and queue calls carry the subscriber's identity and the direction only.
- Group-before-member order across ports, and a scheduler on every port: goroutine order does not give them.
- The meaning of priority bits: classifiers match VLAN ids only.
- Serials.Generator.GenerateNext: does not model the wrap of Go's int after 2^63 calls.
- Serials.SubscriberName: the subscriber index is unbounded, where the source converts a uint to int.
- Pbits.Decode: bit positions are unbounded, so bitmaps of 2^32 characters or more are not modelled. Strings are byte strings; a character outside ASCII never equals '1', so it counts as zeros.
