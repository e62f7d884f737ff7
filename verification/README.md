# Reclaim under a hostile kernel: a verified model

The repository asks whether guest RAM can be handed back to macOS and taken again without losing
data, and answers with experiments: hand-assembled guest programs that leave a trace in every
page, host loops that drive them while the kernel is pressed for memory, and surveys that look
for damage afterwards. This project models those experiments and proves what their verdicts are
worth. The kernel is an adversary throughout: between any two guest instructions it may throw
away any page, which then reads as zero.

The model is layered, one module a file.

* `Words`, `Arm64`: 64-bit words, bitwise operators, demand-zero memory; a decoder and a
  small-step machine for the AArch64 subset the programs use (encodings as in the Arm
  Architecture Reference Manual for A-profile, DDI 0487, chapters C4 and C6.2). A data access
  aborts unless its page has a stage-2 mapping, and an abort leaves pc where it was.
* `GuestCode`, `Passes`: the five programs as the raw words of the source, the code page they are
  laid into, and the refinement from machine steps to a page cursor.
* `Runs`, `Hammer`, `Vcpu`: runs under arbitrary discards, cancels and resumptions; exact results
  of whole passes and of the hammer; the host calls as methods of a VM object.
* `Patience`, `HammerCheck`, `Probes`, `Canary`: the closure that decides how long the hammer runs,
  the surveys, the two probes from the first touch to the verdict, the positive control.
* `Soak`, `SoakWorker`, `SoakSystem`, `SoakTheorems`, `SoakDetection`, `ColdStamp`: the soak as a
  system of N vCPUs interleaved instruction by instruction and host step by host step, with
  discards in between.
* `SoakThread`, `SoakPlay`, `SoakSilent`: one worker written as the loop it is, each of whose
  states is reached by the steps of that system; a run of it in which the self-test fails.
* `Reclaim`, `Ownership`, `FleetSim`, `Session`: the unmap, release, remap triple on the host's
  address space, in one piece and by extents, and the advice in place that is not one; who owns
  which mapping over all cycles and over a whole run of the program; the simulated fleet and a
  fleet child's working set.
* `Text`, `Fleet`: the line protocol between the driver and the guest's command server.

Memory and page counts, sweeps, vCPUs, cycles, services and run lengths are unbounded. Where the
source's 64-bit counters could wrap, the model wraps them and the theorems that need room say so.

## Where the code and its comments part ways

* `crates/hv-reclaim/src/guest.rs:39-42` says a lost page shows no matter when it was lost. A
  discard between the load and the store of the page's own increment is undone by that store.
  `Hammer.DiscardCanBeMasked` is such a run; `Hammer.HammerExact` is the exact statement: a
  page that started nonzero is at its expected counter if and only if every discard of it fell
  into such a window.
* `crates/hv-reclaim/src/soak.rs:228-229` says the rotating stamp makes a page left over from the
  previous cycle a failure. The sweep before the reclaim adds one, and so does the next cycle: a
  page that came through untouched already holds the new stamp, except in the first cycle of a
  worker other than 0 (`ColdStamp.SweepRotates`, `ColdStamp.StampAlreadyThere`).
* `crates/hv-reclaim/src/soak.rs:55-57` says the self-test runs before the threads start. It runs
  inside worker 0's thread while the others work; that this does not matter is part of
  `SoakSystem.RunOk` and `SoakDetection.SelfTestExact`.
* `crates/hv-reclaim/src/soak.rs:149-151` drops the result of `join`. A self-test that fails
  prints its panic message and ends worker 0, and the run goes on to report the other workers'
  numbers as if nothing had happened. `SoakSilent.SilentPanic` is such a run of every soak, with
  a page of live data lost, worker 0 gone and no mismatch counted; `SoakDetection.SelfTestExact`
  says that the worker panics exactly when a probe loaded a damaged page.
* All guest loops test after the access, so a pass over an empty range still touches a page
  (`Runs.CoversItsRange`).
* `crates/hv-reclaim/src/soak.rs:75-80` rounds only half a slot to pages. The ranges of all
  workers are page ranges exactly when there is one vCPU or the slot is a page multiple
  (`SoakTheorems.RangesAligned`); the soak theorems assume the latter. With 1 GiB and three
  vCPUs, which `run` accepts, the first load of worker 1 is an alignment fault
  (`SoakTheorems.ThreeWorkersFault`).
* `guest-init/src/main.rs:129-149` turns an unreadable size into 0, and an empty mapping is
  refused by mmap, so `touch` with a bad number ends the command server (`Fleet.Server.Obey`
  says exactly which commands do).

## Model

| member | source | states |
|---|---|---|
| Arm64.DecodeEncode | crates/hv-reclaim/src/guest.rs:14-155 | every instruction of the subset is decoded back from its word |
| Arm64.EncodeDecode | crates/hv-reclaim/src/guest.rs:25-33 | a word that decodes at all is the encoding of what it decodes to |
| Arm64.CompareThenBranch | crates/hv-reclaim/src/guest.rs:28-29 | after a compare each condition code means the unsigned or signed relation it is named for |
| GuestCode.Assembled | crates/hv-reclaim/src/guest.rs:25-155 | each of the 41 raw words is the instruction its comment shows |
| GuestCode.WriteCodePage | crates/hv-reclaim/src/guest.rs:174-198 | all five programs end up intact on the page, the rest of which is unchanged |
| GuestCode.StepAt | crates/hv-reclaim/src/guest.rs:157-198 | a vCPU whose pc is at instruction i of a program executes that instruction, from the raw bytes |
| Passes.StepRefines | crates/hv-reclaim/src/guest.rs:14-155 | one machine step of any program is one step of its page cursor, a silent step, or the doorbell abort, and brings the doorbell nearer |
| Runs.PassRun | crates/hv-reclaim/src/guest.rs:292-312 | after any schedule of instructions and discards a pass is exactly where its cursor says; remaining steps plus retired ones never grow |
| Runs.PassResult | crates/hv-reclaim/src/guest.rs:292-312 | a pass only ever stops at the doorbell, within a bounded number of instructions, and then word = GPA, word + 1, word, word or x5 on the range, nothing else changed, and x4 counts the differing pages |
| Runs.MismatchesIsCardinality | crates/hv-reclaim/src/guest.rs:104-127 | the guest's running count is the size of the set of mismatching pages |
| Runs.CoversItsRange | crates/hv-reclaim/src/guest.rs:245-247 | a pass covers the range it was given if and only if that is nonempty and ends on a page boundary; an empty one has its first page accessed |
| Runs.ScheduleIndependent | crates/hv-reclaim/src/guest.rs:306-311 | two runs without discards that have reached the doorbell, however many instructions each entry retired, are in the same state |
| Runs.CancelsDoNotMatter | crates/hv-reclaim/src/guest.rs:306-311 | wherever the cancels fell, a pass the kernel left alone ends in the one state of an uninterrupted pass, registers and all |
| Runs.CallsAreAFold | crates/hv-reclaim/src/guest.rs:233-312 | any sequence of passes on one vCPU, whatever registers each inherits, acts on memory as a fold of pure word functions |
| Runs.VerdictOfFold | crates/hv-reclaim/src/guest.rs:276-290 | a verify at the end of any sequence reports exactly the pages on which the fold differs |
| Hammer.HammerExact | crates/hv-reclaim/src/guest.rs:35-67 | a page that started nonzero reads start + sweeps if and only if every discard of it fell between the load and store of one of its increments; a struck page reads at most the sweeps, one that was never struck start + sweeps |
| Hammer.DiscardCanBeMasked | crates/hv-reclaim/src/guest.rs:39-42 | a concrete run that discards live data and leaves the page at its expected counter |
| Hammer.CounterIsLaps | crates/hv-reclaim/src/guest.rs:343-358 | x4 at the doorbell is the number of resumptions plus one, through any mix of cancels, discards and resumptions |
| Vcpu.Vm.HvVcpuRun | crates/hv-reclaim/src/guest.rs:205-211 | one entry of the vCPU: any number of instructions, any discards; a cancelled one has made progress |
| Vcpu.Vm.RunToDoorbell | crates/hv-reclaim/src/guest.rs:205-225 | classifies the exit; anything but a cancel and the doorbell abort is unexpected |
| Vcpu.Vm.RunPass | crates/hv-reclaim/src/guest.rs:292-312 | terminates against every schedule of cancels, never meets an unexpected exit, leaves what PassResult says, fixes the final state down to the registers, and without discards it is the uninterrupted one |
| Vcpu.Vm.RunTouchRange | crates/hv-reclaim/src/guest.rs:245-247 | every spared page of the range reads its own address |
| Vcpu.Vm.RunReadPass | crates/hv-reclaim/src/guest.rs:240-242 | spared memory is unchanged |
| Vcpu.Vm.RunSweepRange | crates/hv-reclaim/src/guest.rs:253-259 | every spared page of the range is one higher |
| Vcpu.Vm.RunFillRange | crates/hv-reclaim/src/guest.rs:262-271 | every spared page of the range reads the value |
| Vcpu.Vm.RunVerifyRange | crates/hv-reclaim/src/guest.rs:276-290 | the number returned is the number of pages that do not hold the expected word |
| Vcpu.Vm.StepPastDoorbell | crates/hv-reclaim/src/guest.rs:351-355 | stepping pc by 4 completes exactly one sweep and starts the next |
| Vcpu.Vm.RunHammer | crates/hv-reclaim/src/guest.rs:320-358 | driven by the closure through any session that ends: as many sweeps as the session has calls, the j-th of which reports j; the vCPU is left at the doorbell with that count |
| HammerCheck.LostListIsLost | crates/hv-reclaim/src/main.rs:622-635 | the survey's tally in address order is the size of the set of lost pages |
| HammerCheck.SurveyHammer | crates/hv-reclaim/src/main.rs:620-635 | counts every page once, intact and lost; the examples are the first three losses in address order, with the words found there |
| HammerCheck.ExamplesAreFirst | crates/hv-reclaim/src/main.rs:622-635 | the examples kept are min(3, lost) lost pages, ascending, and every lost page left out lies above them |
| HammerCheck.SurveyParked | crates/hv-reclaim/src/main.rs:546-557 | counts every page once against its own address |
| HammerCheck.TouchExact | crates/hv-reclaim/src/guest.rs:14-23 | after a touch pass a page reads its own address if and only if it was not discarded after its store, and else zero |
| HammerCheck.ParkedSurveyExact | crates/hv-reclaim/src/main.rs:546-557 | whatever was lost before, the pages surveyed as lost are exactly those and the ones discarded since |
| HammerCheck.HammerSurveyExact | crates/hv-reclaim/src/main.rs:620-635 | the pages surveyed as lost are exactly those missing at the start and those discarded outside their own load-to-store windows |
| Patience.KeepGoing.Call | crates/hv-reclaim/src/main.rs:594-611 | one call of the closure, state and answer, against the phase function, whose meaning by the clock is in the rows below |
| Patience.KeepGoing.Next | crates/hv-reclaim/src/main.rs:590-611 | in any session that ends, the closure's state, the channel and its answer follow the session from call to call, and only its last call does not say continue |
| Patience.SessionOrderly | crates/hv-reclaim/src/main.rs:584-611 | in every session: three phases only, guard held at least HOLD, stop at least TAIL after release, no panic once success was sent |
| Patience.PhasesAdvance | crates/hv-reclaim/src/main.rs:590-611 | phases never go back between any two moments of a session |
| Patience.CallOutcome | crates/hv-reclaim/src/main.rs:594-611 | exactly when a call stops or panics, and that the channel is not polled after its message |
| Patience.GuardHeldExactly | crates/hv-reclaim/src/main.rs:594-611 | over the clock readings alone: the guard is held at a moment if and only if the call that found the message has been and no call since came HOLD after it |
| Patience.StopsExactly | crates/hv-reclaim/src/main.rs:606-610 | the hammer stops if and only if the guard was taken, let go at the first call HOLD later, and the present call comes TAIL after that one |
| Patience.Untaken | crates/hv-reclaim/src/main.rs:595-604 | before the message nothing is captured, and the closure panics if and only if it finds the thread dead or the result bad |
| Patience.ThreeCallsEnd | crates/hv-reclaim/src/main.rs:594-611 | once success was sent, a call to take the guard, one HOLD later and one TAIL after that end the hammer with a stop |
| Probes.HammerProbe | crates/hv-reclaim/src/main.rs:568-640 | the number printed as lost is the number of pages discarded after their first store, at any moment from the touch pass on, other than within their own windows; surveyed only if the closure says stop |
| Probes.ParkedProbe | crates/hv-reclaim/src/main.rs:527-562 | the number printed as lost is the number of pages discarded after their first store, during the touch pass or after it |
| Canary.Marker | crates/ledger/src/canary.rs:15-57 | no marker reads as a discarded page |
| Canary.MarkerIsPattern | crates/ledger/src/canary.rs:15-57 | the offset taken off a marker again leaves the pattern |
| Canary.MarkersDiffer | crates/ledger/src/canary.rs:15-57 | no two pages have the same marker |
| Canary.Buffer.constructor | crates/ledger/src/canary.rs:40-61 | every page of the fresh buffer carries its marker |
| Canary.Buffer.Survey | crates/ledger/src/canary.rs:34-75 | the count is the number of distinct pages lost, for any set of them; conclusive means at least half |
| SoakSystem.SlotsApart | crates/hv-reclaim/src/soak.rs:201-202 | no two workers' halves overlap |
| SoakTheorems.HalvesFill | crates/hv-reclaim/src/soak.rs:77-80 | the two halves fill a slot but for less than two pages, and half a slot is slot / (2 * PAGE) pages |
| SoakTheorems.EveryPageOwned | crates/hv-reclaim/src/soak.rs:201-203 | every page of guest RAM is hot or cold, not both, for exactly one worker, except the last page of a slot with an odd number of them |
| SoakTheorems.RangesAligned | crates/hv-reclaim/src/soak.rs:75-80 | every worker's ranges are page ranges if and only if there is one vCPU or the slot is a page multiple |
| SoakTheorems.UnalignedSlotFaults | crates/hv-reclaim/src/soak.rs:201-206 | a worker whose slot starts off a doubleword faults on its first load |
| SoakTheorems.ThreeWorkersFault | crates/hv-reclaim/src/soak.rs:75-80 | 1 GiB over three vCPUs passes the assertion, and worker 1 is such a worker |
| SoakWorker.GuestInstruction | crates/hv-reclaim/src/soak.rs:208-266 | one instruction of a worker's vCPU retires inside its own slot or is the doorbell, and keeps the thread's invariant |
| SoakWorker.ActOk | crates/hv-reclaim/src/soak.rs:205-300 | every action of a worker, guest or host, the self-test's load and store of its victim included, keeps the thread's invariant and stays inside its slot |
| SoakWorker.DiscardOk | crates/hv-reclaim/src/soak.rs:98-117 | a discard of any page at any moment keeps the invariant, with the damage on record |
| SoakSystem.RunOk | crates/hv-reclaim/src/soak.rs:119-127 | every interleaving of any number of workers, with any discards, keeps every thread's invariant |
| SoakTheorems.Isolation | crates/hv-reclaim/src/soak.rs:53-61 | in every reachable state each running vCPU's next instruction retires or rings the doorbell, and a turn changes no memory outside the slot and no mapping outside its cold half |
| SoakTheorems.StageTwoRestored | crates/hv-reclaim/src/soak.rs:302-334 | a page of a slot is unmapped if and only if it is cold and its owner is between unmap and remap |
| SoakTheorems.MismatchesExact | crates/hv-reclaim/src/soak.rs:215-266 | both shared counters exactly: mismatches are the sum of what verifies found, checks the pages of all verifies; each hit on a damaged page is accounted for; mismatches never exceed checks |
| SoakTheorems.SoakAccounting | crates/hv-reclaim/src/soak.rs:215-267 | between cycles the counters are 5 sweeps, 6 * slot / (2 * PAGE) checks and 1 reclaim for every completed cycle of every worker |
| SoakDetection.CleanRun | crates/hv-reclaim/src/soak.rs:205-266 | without discards outside the reclaims, in either mode, mismatches stay 0, no self-test fails, and hot words equal the sweeps done |
| SoakDetection.SelfTestExact | crates/hv-reclaim/src/soak.rs:275-300 | the first verify reports the planted page plus one per load of another damaged page, the second one per load of a damaged page; the worker panics if and only if there was such a load |
| SoakDetection.HotLossDetected | crates/hv-reclaim/src/soak.rs:216-225 | a damaged hot page stays damaged, at any moment from its first store on, and every later verify load of it is a hit |
| SoakDetection.ColdLossDetected | crates/hv-reclaim/src/soak.rs:251-266 | the same for a cold page from its fill store to the second verify |
| SoakDetection.LoadsAreVerifies | crates/hv-reclaim/src/soak.rs:216-266 | the loads counted there are the verifies the worker reports: none is left out or counted twice |
| SoakDetection.LossIsReported | crates/hv-reclaim/src/soak.rs:155-175 | end to end: a discard that destroys an expected word, loaded again and reported, leaves the mismatch counter nonzero |
| SoakSilent.SilentPanic | crates/hv-reclaim/src/soak.rs:149-151 | every soak has a run in which worker 0's self-test panics over a lost page and the counters end with no mismatch |
| ColdStamp.StampsApart | crates/hv-reclaim/src/soak.rs:227-231 | below 2^32 stamps are nonzero, distinct over worker and cycle, and differ from the previous one |
| ColdStamp.StampsCollide | crates/hv-reclaim/src/soak.rs:231 | in cycle 2^32 the stamps of workers 0 and 1 are equal |
| ColdStamp.DistinctUntil | crates/hv-reclaim/src/soak.rs:227-231 | all stamps of n workers up to a cycle are distinct if and only if there is one worker or that cycle is below 2^32 |
| ColdStamp.SweepRotates | crates/hv-reclaim/src/soak.rs:228-232 | the swept previous stamp is the new stamp if and only if this is not the first cycle of a worker other than 0 |
| ColdStamp.LeftoverPasses | crates/hv-reclaim/src/soak.rs:228-252 | exactly which leftovers the verify cannot tell from a fill |
| ColdStamp.UnfilledVerdict | crates/hv-reclaim/src/soak.rs:232-252 | run on the machine: a cold half swept and never filled is reported clean, or wholly bad in that first cycle |
| ColdStamp.StampAlreadyThere | crates/hv-reclaim/src/soak.rs:230-236 | in every lossless soak run each cold page holds the new stamp before the reclaim, with that one exception |
| SoakThread.HotRound | crates/hv-reclaim/src/soak.rs:217-224 | one sweep and verify of the hot half, counters and words |
| SoakThread.ColdRound | crates/hv-reclaim/src/soak.rs:227-266 | sweep, reclaim, fill, two verifies: the hot half is untouched, the cold half is stamped |
| SoakThread.SelfTest | crates/hv-reclaim/src/soak.rs:275-300 | on an intact hot half it passes and leaves every word as it was; in every case its steps, registers and verdict are those of the system's worker |
| SoakThread.ReclaimCold | crates/hv-reclaim/src/soak.rs:302-334 | stage 2 is restored and the hot half spared, whichever cold pages the kernel takes; those and, under munmap, all read zero, the rest keep their words |
| SoakThread.RunWorker | crates/hv-reclaim/src/soak.rs:179-270 | the whole loop: exact counters whatever the kernel does; no panic, no mismatch and exact contents of both halves if it leaves the slot alone; its states are a play of the system's worker from boot to the end |
| SoakThread.ScriptIsRun | crates/hv-reclaim/src/soak.rs:119-127 | every play of one worker is a run of the whole system in which the other workers stand still |
| SoakPlay.PassEnds | crates/hv-reclaim/src/soak.rs:205-266 | a whole pass of a vCPU, cancels, discards and all, is that many turns of the system's worker, the last of which finishes its job |
| Reclaim.Host.ReclaimRange | crates/hv-reclaim/src/timing.rs:153-192 | one triple in either mode restores stage 2, releases each page of the range once and no other |
| Reclaim.Host.ReclaimExtents | crates/hv-reclaim/src/timing.rs:141-194 | the loop releases every page of RAM exactly once and restores stage 2 |
| Reclaim.OneExtentAtATime | crates/hv-reclaim/src/timing.rs:153-192 | at every moment of it at most one extent is missing from stage 2, in order, and nothing is moved |
| Reclaim.ExtentsRefineWhole | crates/hv-reclaim/src/timing.rs:141-194 | same map, same pages released as often, same page states as one whole-range triple; munmap extents differ only in sharing one fresh object each |
| Ownership.ResetCycle | crates/hv-reclaim/src/main.rs:423-434 | the old mapping is closed, a new one opened, and guest RAM backed by it alone |
| Ownership.ExtentAccepted | crates/hv-reclaim/src/timing.rs:52-66 | an extent in KiB is accepted if and only if it is none, or whole pages that divide RAM |
| Ownership.GivenInAll | crates/hv-reclaim/src/timing.rs:85-136 | conservation over the cycles of any run: a page goes to the kernel once in each cycle in which it is guest RAM, and once with the mapping closed before the next |
| Ownership.TimingRun | crates/hv-reclaim/src/timing.rs:51-136 | for any repeat count and regime: refused exactly for bad extents; the record of every cycle, all of RAM dirty before and taken back after; one live RAM mapping, regions in balance, exact object churn; steady, each page released once a cycle |
| Reclaim.InPlaceFallsShort | crates/hv-reclaim/src/main.rs:19-26 | the trap: after the triple every page is with the kernel, after advice in place exactly those without a guest mark; all-dirty ranges are left as they were; the two agree if and only if no page is marked |
| Ownership.ReclaimPlain | crates/hv-reclaim/src/main.rs:284-302 | the triple takes back every page; advice in place only those the guest has not marked, and stage 2 stays as it was in both |
| Ownership.Trapped | crates/hv-reclaim/src/main.rs:19-26 | what is left unreclaimed: pages the guest stored to under `--naive`, and those it loaded if loads pin; never what the host dirtied |
| Ownership.PlainRun | crates/hv-reclaim/src/main.rs:422-495 | for any repeat count the same balance and record: what every cycle touched, how it was taken back and left, every release of every page, and the second pass of a single guest-driven cycle |
| Session.HvReclaim | crates/hv-reclaim/src/main.rs:358-522 | an accepted run carries out its mission as recorded, leaves the address space as it found it, no mapping behind, and every region unmapped exactly once; which command lines are refused |
| FleetSim.Run | crates/hv-reclaim/src/fleet_sim.rs:36-88 | the state after every start and every stop: one region more dirty, one region more given back, nothing else changed; each page of the fleet released once; refused exactly when the fleet does not fit |
| FleetSim.FallReleases | crates/hv-reclaim/src/fleet_sim.rs:76-92 | by the j-th stop exactly the pages of the first j services have been released, once |
| FleetSim.FleetFootprint | crates/hv-reclaim/src/fleet_sim.rs:16-17 | the number of dirty pages at each step of the stair |
| FleetSim.EveryEightRounds | guest-init/src/main.rs:99-110 | any eight consecutive rounds rewrite each 4 KiB step of the set exactly once and nothing outside it |
| FleetSim.ChildByteIs | guest-init/src/main.rs:91-110 | a step has been rewritten after some rounds if and only if the rotation has passed its eighth; before that it holds the first pattern |
| FleetSim.FleetChild | guest-init/src/main.rs:77-111 | the exact contents of the working set after any number of rounds; every write inside the mapping |
| Text.ParseDecimal | guest-init/src/main.rs:159-161 | a printed number is parsed back if it fits 64 bits and refused otherwise |
| Text.ParseStart | crates/vz-ratchet/src/fleet.rs:64 | the driver's start command is understood as written |
| Text.ParseStartAlone | guest-init/src/main.rs:158-161 | without a second number the working set is empty |
| Text.ParseTouch | guest-init/src/main.rs:128-130 | a touch command with a printed number is understood as written |
| Text.ParseTouchArgument | guest-init/src/main.rs:128-129 | any other argument is trimmed, and counts as 0 when it is no number |
| Text.ParseForms | guest-init/src/main.rs:123-182 | which trimmed lines are which commands, each an if-and-only-if; the rest is refused with its own text |
| Text.ParseAround | guest-init/src/main.rs:123 | whitespace around a line does not change its command |
| Fleet.Server.Start | guest-init/src/main.rs:162-169 | k more children behind the old ones, pids distinct, each on record with its working set |
| Fleet.Server.Stop | guest-init/src/main.rs:173-179 | the oldest n are killed and reaped, in order |
| Fleet.Server.Obey | guest-init/src/main.rs:129-183 | the whole new state for every command, but for the pids; which commands end the server; every forked child is in the fleet or was killed and reaped once, every mapping held or unmapped once |
| Fleet.Server.Handle | guest-init/src/main.rs:123-185 | the same for every line of input as it is parsed, and the reply, if any |
| Fleet.ReplyTexts | guest-init/src/main.rs:151-184 | the replies to touch, free and an unknown line, word for word |
| Fleet.TouchBytesAre | guest-init/src/main.rs:130 | a touch is gib * 2^30 bytes below 2^34 GiB, and none exactly for multiples of 2^34 |
| Fleet.OwnReply | crates/vz-ratchet/src/harness.rs:57-75 | over unrelated lines a wait finds its own reply |
| Fleet.Harness.Wait | crates/vz-ratchet/src/harness.rs:57-75 | consumes up to and including the first line with the prefix and returns the rest of it, trimmed |
| Fleet.Harness.Ask | crates/vz-ratchet/src/harness.rs:52-75 | the answer heard is the number this command produced, or none exactly when the command ended the server; only unrelated lines stay queued |
| Fleet.Harness.GuestMemAvailable | crates/vz-ratchet/src/harness.rs:78-83 | the host gets the very number the guest read |
| Fleet.FleetRun | crates/vz-ratchet/src/fleet.rs:41-96 | lock step: i after the i-th start, services - j after the j-th stop, no wait empty, no drain of an empty fleet, every child forked with the working set asked for and reaped once |
| Fleet.TouchThenFree | crates/vz-ratchet/src/main.rs:145-154 | the guest survives if and only if the touch asks for something it can grant; then that is mapped and unmapped once |
| Fleet.RatchetRun | crates/vz-ratchet/src/main.rs:144-183 | the plain run of the driver: the same, the balloon target, and which of the guest's own readings the poll ends on |

## Left out

- The kernel's ledger (footprint, sticky reusable pages, wiring), MiB figures, CSV and timing columns, the rule-of-three bound: measurements, not logic.
- Hypervisor.framework, madvise, mmap and fork beyond what they do to mappings, pages, registers and pids; their calls succeed when their arguments are valid. The window between munmap and mmap in which another thread could take the address.
- What pins a page: that a guest store does while stage 2 leads to the page, and that a host store does not, is taken from `crates/hv-reclaim/src/main.rs:19-26`; whether a guest load does is open there and a parameter, `readsPin`, here.
- Instruction-cache maintenance, timers, and vCPU exits other than a cancel and a data abort.
- Guest RAM is modelled at aligned doublewords, and the code page cannot be read as data; the programs never do either.
- Argument parsing, `alloc_shape.rs`, `pressure.rs`, helper discovery, the Swift bridge and the shell scripts.
- Vcpu.Vm.RunHammer: the clock readings and the pressure thread's doings are the record of a session, and the method ends because the record does; a session that never ends is not a run of it.
- Hammer.HammerExact: assumes that no counter has room to wrap within the run; for a page that started at zero it says nothing about how a struck page looks beyond its bound.
- Probes.HammerProbe: the count is exact for runs of fewer than 2^64 events less the address of the last page.
- Patience.KeepGoing.Call: clock readings are arguments; dropping the guard to kill the generator is a flag.
- SoakSystem.RunOk: the workers' own 64-bit counters do not wrap.
- SoakThread.RunWorker: one worker while the others stand still, whose deadline is a number of cycles; all interleavings are in SoakSystem.RunOk.
- The soak's progress lines, its `reclaimed_mib` list and its lock, and the pressure thread, which is part of the adversary.
- SoakDetection.LossIsReported: says nonzero, unless 2^64 mismatches or more were added in all.
- Session.HvReclaim: a run that is refused ends in a panic and frees nothing itself; soak mode and the safety probes are modelled in their own modules.
- FleetSim.Run: a service size of zero, for which an empty range would go to the hypervisor.
- FleetSim.FleetChild: a child asked for an empty working set exits at once, because mmap refuses it; here it holds nothing.
- Fleet.Server.Handle: whitespace is ASCII; `MemAvailable` is a parameter; a size that overflows wraps, as in a release build.
- Fleet.Harness.Wait: time is not modelled; running out of lines stands for both panics.
- Fleet.RatchetRun: the deadline of the poll is the end of the guest's readings; the host's samples and the pressure step are left out.
