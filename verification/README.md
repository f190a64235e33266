# Edge observer: a model of what it promises

The edge observer watches the TLS calls of admitted processes from the kernel and
rebuilds each connection's plaintext streams. Any event may be lost on the way.
What makes the result usable is that the observer says, for each direction of each
connection, up to which offset the bytes it delivered are where the process put
them. This project models the parts that carry that promise and proves it, together
with the admission tables that decide who is watched and the bounded decoding of what
was captured.

Three cores are modelled.

**Losses located (Values, Probe, Connection, Capture, CaptureEffects, Session and the
law modules).** `Producer` is the kernel side as steps of any number of threads: a
call holds its direction, takes a number, returns, reads its place, tries to reserve
an event, and lets the direction go. The hold's compare-and-swap and the mark it leaves
on a direction found held are two steps, and so are the two halves of the count of
refused reservations, which the program increments unatomically; what a return reads of
its place is one step, and a reservation with its submission one. A release finds its
entry, reads four words of it one at a time, and deletes it. `Capture` is userspace as a state machine over values, and `Session` the
same thing as the program runs it: objects changed in place, every method proved
against that machine. `EndToEnd` puts the two together over a ring that loses, repeats
and reorders, with any number of deliverers and sinks that answer in any order, and
proves that whatever a placement calls placeable starts at the sum of the bytes of all
lower-numbered calls of its occupancy and direction. `TailLoss` and `Settlement` prove
what the session's end counts as lost, `Releases` and `Conservation` what a release
says and what is counted at it, `Disagreement` when a record contradicts a fragment,
`Splicing` that no two occupancies of a handle are run together, `LaterWord` that a later record does not
contradict an earlier fragment, `Overlap` that overlapping calls are always noticed.

**Admission (Stamp, Reads, Allowlist, Inventory, Group).** Small-step models of the
holder's compare-and-swap, of the read counter against its retraction, of the allowlist
under fork, exec, exit and reuse of numbers, of the inventory kept through
swap-removal, and of one admission across several owners while they report ends.

**Bounded decoding (ZstdFrames, ZstdPlan, Workspace, Growth, Output, Decoding).** The
Zstandard frame walkers against the frame layout of section 3.1 of RFC 8878, the
history plan against a decoder that keeps its largest history, the output buffer
against any way of splitting the same bytes, and every charge accounted for.

Times are numbers with zero for the absent time, payload bytes are only counted, and
what the kernel, a sink, a reserver or a decoder answers is an input of the step or
the method that asks. Generations, occupancies and execution births are never reused,
which the source states of each. In `Producer` the fields of a line after the mark of
an overlap, in `EndToEnd` the list of fragments unanswered, in `Allowlist` what was said
of a taken entry's execution since, and in `Group` what was granted, reported, handed
back and dropped, are history kept for the statements and read by no step that models
the program's own decisions.

## Where the source promises more than it does

- Evidence on a fragment can break its own rule though nothing was lost: a direction
  told of more empty transfers since its last fragment than its highest number.
  `EvidenceBreaksExactly` says so of every run, both ways, and `RecordsStand` that a
  record of the connection disagrees exactly then. `ExcessOnlyFrom` names the causes: a
  place delivered twice (`RepeatedEmptyBreaksEvidence` is such a run), a number without
  an occupancy, or, with every place delivered once, a stream that follows no occupancy
  and takes one number of two (`MixedOccupanciesBreakEvidence`). `OnceEachStands` is what
  delivering each place once does give: no such excess in a stream that follows an
  occupancy.
- With two deliverers a fragment can be refused after a later one was accepted, and the
  record then contradicts the accepted one. `RecordsDisagreeExactly` is the condition
  over every history: some refusal, after the fragment was offered and before the
  record, first cut a direction below what the fragment's evidence reached.
  `RefusedAfterAccepted` is every such pair of transfers.
- The tail loss of an open connection is not always exact. Wherever the producer's counts
  tally it is, if and only if the settlement's upper clamp changes nothing, and the clamp
  bites exactly where a call is said to be in flight and every number above the last seen
  was refused (`LocatedExactly`). Where no two calls of the direction met it never bites
  (`TailExact`). `HeldHidesTail` is a run from nothing in which it does: a call that never
  returned keeps its direction held.
- An ending can be behind an event of its occupancy: a call that found the entry goes on
  while a release reads it (`TakenInTheGap` is such a run, for every handle). An event is
  past the ending's last number exactly where its number was taken after the release had
  read that direction, and only calls that had read their place before the delete can be
  (`BehindExactly`). At a release the losses counted are the numbers taken less those
  delivered if and only if the last one delivered is not such a number
  (`ReleaseConserves`); `LossConserved` is the condition for any ending at all.
- An execution can be accepted on a grant it no longer has. To delete an entry userspace
  takes whatever is in the slot and puts another occupant's back; one that execs in
  between finds no entry to end, and its grant is restored for the new image
  (`ExecInTheGap`). `Allowlist.RestoreExactly` is the condition at the restore, both ways:
  that since the take the execution execed, was excluded, or was written under another
  mode, and nothing stands in the slot. `AcceptedStands` is every run without such a
  restore.
- A stamp can go backwards if userspace puts back a grant of the running execution it
  took aside (`PutBackGoesBackwards`). `Stamp.RestoreExactly` is the condition at the moment it
  is put back, both ways: that it was installed before the stamp, or before a generation
  a thread has checked and can still store. `StampNeverBackwards` is every run without
  such a step.
- A receipt hands each selection back at most once, and so does `Retract` with its one
  owner, but not the two together: a selection without a scope that is both withdrawn and
  named to its call's receipt reaches the owner twice (`HandedTwice`), and only such a one
  does (`HandedTwiceOnly`).
- The inventory stays exact if and only if no predecessor under the same number lacks a
  generation (`Inventory.Inventory.Recorded`).
- The workspace ceiling holds for every input exactly outside the bounds 16385 to 20480
  (`CeilingExactly`); inside them it is passed by less than 32 bytes, by the frames
  `CeilingExceeded` lays out.
- The comment on `reclaimReads` says a read past its grant check recreates the counter
  and it stays (ebpf/ebpf.go:2176-2179). The second check of `obs_read_taken` removes
  it, and the model follows the code (`RetractionLeavesNothing`).
- The comment on `struct occupancy` says a number is taken where bytes are known to have
  moved and that a call that moved none takes none (bpf/ssl.bpf.h:873-877). The code
  numbers at entry, and so does the model.

## Model

| member | source | states |
|---|---|---|
| `EndToEnd.PlaceableIsPlaced` | capture/capture.go:334-615 | for every run of producer threads, ring, gate, sinks and endings: a fragment offered whose offset its connection's placement calls placeable, now or in any record made of it, starts at the sum of what all lower-numbered calls of its own occupancy and direction moved, each of those calls having returned, and has its own call's length |
| `EndToEnd.PlaceTrue` | capture/capture.go:334-439 | a placed transfer keeps an uncut direction's offset equal to the bytes of every call up to the last number, and moves no cut |
| `EndToEnd.FragmentTrue` | capture/capture.go:386-421 | a fragment offered is at its true offset or already at or past its direction's cut |
| `EndToEnd.NumberReads` | capture/capture.go:497-541 | once a number is read, a direction still not cut stands exactly at the place that number names |
| `EndToEnd.EndingsTrue` | capture/capture.go:713-856 | retirement, settlement and the session's end leave what a stream says true and every cut where it was |
| `EndToEnd.RefuseWriteTrue` | capture/capture.go:423-434 | a sink's refusal, answered late and out of turn or not, leaves what a stream says true |
| `Numbering.MakeKeeps` | bpf/ssl.bpf.h:2051-2339 | in every interleaving a number names one call, an event carries what its call moved, and what a call is known to have moved never changes |
| `Overlap.OverlapDetected` | bpf/ssl.bpf.h:1413-1433 | two calls hold one direction at once only if it is marked, and the events submitted without the mark, of calls entered under a grant, are in strictly increasing number order |
| `Overlap.MarkNeverClears` | bpf/ssl.bpf.h:1413-1424 | once a direction is marked no later step clears the mark |
| `TailLoss.TailExact` | capture/capture.go:748-810 | where no two calls of a direction met and production has stopped, the located loss is the number of refused reservations above the last number seen, whatever other gaps there are, and neither clamp changes it |
| `TailLoss.LocatedExactly` | capture/capture.go:755-770 | wherever the counts tally, overlapped or not, the located loss is the refused above the last number seen if and only if the upper clamp does not bite, and it bites exactly where a call is in flight and every number above the last seen was refused |
| `TailLoss.MakeTallies` | bpf/ssl.bpf.h:2011-2019 | on such a direction the count of refused reservations, its unatomic increments included, is the number of refused calls, and every event carries how many lie below it |
| `Settlement.OpenTailExact` | capture/capture.go:864-926 | at the session's end an open connection's count of losses grows by exactly the reservations refused above the last number capture saw of it, over whole runs |
| `HeldLines.HeldHidesTail` | capture/capture.go:761-765 | a run of the producer from nothing, for every handle, direction and length, after which production has stopped, the counts tally and the one refused call above everything seen is located as no loss |
| `LaterWord.RecordsAgree` | connection/evidence.go:25-89 | with one deliverer, a record of a stream agrees with the evidence of every fragment its sink accepted if and only if that evidence is valid in itself |
| `LaterWord.BackedAgrees` | connection/evidence.go:60-89 | against a record of a stream that extends what an evidence said, the evidence can fail only on its own validity |
| `EvidenceLaws.EvidenceExactlyValid` | capture/capture.go:553-579 | evidence on a delivered fragment is valid if and only if its process is named and no direction counts more empty transfers than numbers |
| `DeliveredOnce.EvidenceBreaksExactly` | capture/capture.go:553-579 | of every run, evidence on a delivered fragment is valid if and only if its process is named and the inputs up to it told neither direction of more empty transfers since the last fragment than its highest number |
| `DeliveredOnce.RecordsStand` | connection/evidence.go:25-58 | of every run with one deliverer, a record of a connection agrees with a fragment accepted of it if and only if the same holds |
| `DeliveredOnce.ExcessOnlyFrom` | capture/capture.go:380-384 | such an excess always comes of a place told twice, of a number without an occupancy, or, in a stream that follows no occupancy, of one number of two occupancies |
| `DeliveredOnce.OnceEachStands` | connection/evidence.go:25-58 | with each place delivered once, no fragment of a stream that follows an occupancy meets such an excess |
| `DeliveredOnce.RepeatedEmptyBreaksEvidence` | capture/capture.go:380-384 | a run of three deliveries, one empty transfer twice, after which a fragment's evidence is invalid |
| `DeliveredOnce.MixedOccupanciesBreakEvidence` | capture/capture.go:621-629 | a run of four deliveries, no place twice, after which a fragment's evidence is invalid |
| `Disagreement.RecordsDisagreeExactly` | connection/evidence.go:60-89 | of every history with any number of deliverers, record and fragment of its connection ever offered: the record agrees with the fragment's evidence if and only if that is valid and no refusal between the offer and the record first cut a direction below what it reached |
| `Disagreement.StandsExactly` | capture/capture.go:423-434 | the same of a record that would be made of the stream as it stands |
| `Deliverers.RefusalAgrees` | capture/capture.go:427-434 | a refusal contradicts an accepted fragment if and only if it is the direction's first cut and lies below what that fragment's evidence reached |
| `Deliverers.RefusedAfterAccepted` | capture/capture.go:423-434 | for every two transfers numbered one and two of one direction, refusing the first after the second was accepted makes the record disagree |
| `Splicing.NeverSplicedAcross` | capture/capture.go:621-629 | over every history of deliverers and sinks answering when they will: fragments of two different occupancies, answered for or not, never share a connection in which any offset of either direction is placeable, in its stream or in its records |
| `Splicing.NeverSpliced` | capture/capture.go:621-629 | the same of any inputs at all, from a producer or not, with one deliverer |
| `Splicing.OlderChangesNothing` | capture/capture.go:338-344 | a transfer, refusal or ending of an older occupancy of a followed handle changes counters and nothing else |
| `Conservation.ReleaseConserves` | capture/capture.go:815-856 | over every history of producer, ring, sinks and other endings: at an ending a release sent, having read no call in flight, a direction delivered in order counts lost exactly the numbers taken less the numbers delivered if and only if the last one delivered was not taken after the release had read the direction |
| `Releases.BehindExactly` | bpf/ssl.bpf.h:2906-2917 | of every run with a release in it: an event of the ended occupancy is past the ending's last number exactly where its number was taken after the release had read that direction, and every event of the occupancy is of a call that had read its place before the delete |
| `Releases.TakenInTheGap` | bpf/ssl.bpf.h:2906-2917 | for every handle, direction and length, a run in which the ending says nothing was taken and no call is in flight while the event numbered one is on the ring |
| `Releases.ReadThen` | bpf/ssl.bpf.h:2906-2917 | an ending's last number is what had been taken when the release read it, whatever other threads did until it was sent |
| `LossLaws.LossConserved` | capture/capture.go:742-856 | at any ending with no call in flight, a direction delivered in order has lost exactly the numbers taken less the numbers seen if and only if the ending's last number is not behind one seen |
| `LossLaws.AfterLoses` | capture/capture.go:515-531 | placing a transfer adds to its direction's losses exactly the numbers between it and the last seen, and to the other direction's none |
| `Accounts.AccountsBalance` | capture/capture.go:334-439 | in every run transfers are records, empty, unmeasured and rejected together; streams begun are open, closed, retired and finished together; lost and cut are the sums over all streams |
| `RecordLaws.RecordExactlyValid` | connection/record.go:178-231 | a record of any stream is valid if and only if its identity, first time, ending and followed bindings are named |
| `RecordLaws.RecordsValid` | capture/capture.go:944-1200 | every record of a run given valid instances, times and binding generations is valid |
| `RecordLaws.AssociationExactlyValid` | capture/capture.go:1028-1117 | an association capture makes is valid exactly where the binding it follows is dated and has a generation, or none is established |
| `Connection.ValidateRecord` | connection/record.go:178-231 | the check as it runs, filling its sets as it goes, accepts exactly the valid records |
| `CaptureEffects.TransferEffect` | capture/capture.go:334-439 | a transfer changes the stream it belongs to and the one it replaces, and no other |
| `CaptureEffects.CloseEffect` | capture/capture.go:815-856 | an ending ends at most the one stream its handle names |
| `Session.Session.Transfer` | capture/capture.go:334-439 | the session as objects ends in the state the machine's transfer step gives, its sink having answered |
| `Session.Session.Offer` | capture/capture.go:334-421 | the part before the sink is asked, with the fragment it offers |
| `Session.Session.Answered` | capture/capture.go:425-438 | the part after the sink answered, in a stream ended meanwhile or not |
| `Session.Session.Refused` | capture/capture.go:447-483 | a gate's refusal takes a number as seen and cuts its direction, in the stream of its own occupancy only |
| `Session.Session.Number` | capture/capture.go:497-541 | reads a number as the machine does, and says whether it was the next |
| `Session.Follower.Bind` | capture/capture.go:944-990 | folds a transfer's socket evidence into its direction's binding as the machine does |
| `Session.Session.Follow` | capture/capture.go:621-707 | finds, retires or begins the stream a transfer belongs to as the machine does |
| `Session.Session.SettleLocked` | capture/capture.go:742-810 | settles both directions of a tail as the machine does |
| `Session.Session.Closed` | capture/capture.go:815-856 | ends a handle's occupancy as the machine does |
| `Session.Session.Finish` | capture/capture.go:864-880 | records every connection still open, each exactly once, and leaves none |
| `Session.Judge` | capture/capture.go:884-924 | asking the producers in turn gives the machine's verdict |
| `Session.SettledExactly` | capture/capture.go:884-924 | a tail is settled if and only if every producer could be read, exactly one holds the handle, in the stream's occupancy, and its unlocated count is readable |
| `Stamp.StampNeverBackwards` | bpf/ssl.bpf.h:1271-1312 | in every interleaving in which no grant of the running execution is put back behind the stamp or behind one about to be stored, each stamp retained after another was installed after it |
| `Stamp.RestoreExactly` | ebpf/retirement.go:23-49 | of every run up to a restore, further events can reverse the order of the stamps if and only if what is put back is of the running execution and was installed before the stamp or before a generation a thread has checked and can still store |
| `Stamp.OlderGrantReverses` | bpf/ssl.bpf.h:1298-1309 | wherever a grant of the running execution older than the stamp stands, one more event reverses the order |
| `Stamp.PutBackGoesBackwards` | ebpf/retirement.go:23-49 | a run in which a take and a restore around a newer grant make the stamp go backwards if and only if both are grants of the running execution |
| `Reads.RetractionLeavesNothing` | bpf/ssl.bpf.h:1461-1539 | in every interleaving, with entries written over, deleted by a hook, taken aside and put back: once a retraction folded a generation's counter, an entry of it exists only while some return has yet to check again, so once all have finished there is none |
| `Allowlist.AcceptedStands` | bpf/ssl.bpf.h:1131-1163 | in every run in which no grant is put back that means something else by then, a running execution the lookup accepts was written as a target and neither execed nor was excluded since, or descends from one by an unbroken chain of propagating follow grants with neither along it, under the mode its entry carries |
| `Allowlist.RestoreExactly` | ebpf/retirement.go:23-49 | of every such run up to a restore into an empty slot: the execution is accepted again, and its authority is what the entry carries if and only if nothing else was said of it since the take |
| `Allowlist.ExecInTheGap` | ebpf/retirement.go:12-17 | for every execution and grant, a run in which an exec between the take and the restore leaves the new image accepted under no authority |
| `Allowlist.DeniedChildRefused` | bpf/ssl.bpf.h:3113-3138 | the child of an execution then denied is not accepted, whether or not its denial could be recorded |
| `Allowlist.RefusedUntilWritten` | bpf/ssl.bpf.h:3313-3384 | an execution once not accepted stays so through any forks, execs, exits, reuse, takes and other restores until a grant is written for it or one of its own is put back |
| `Inventory.Inventory.RemoveRecorded` | ebpf/ended.go:55-75 | removes the entry of exactly the generation named and leaves every other, index and list still describing each other after the swap |
| `Inventory.Inventory.Retire` | ebpf/ended.go:43-53 | the same, counted once under its target |
| `Inventory.Inventory.Recorded` | ebpf/ebpf.go:1899-1938 | the first record of a generation stands and another replaces its predecessor; the inventory stays exact, named and balanced if and only if no predecessor lacked a generation |
| `Inventory.Inventory.RecordAdmission` | ebpf/ebpf.go:1942-1954 | for every selection: it is accepted and its names kept exactly where its slot holds it, the record is as Recorded says, and it stays exact if and only if no predecessor lacked a generation |
| `Inventory.Inventory.Retract` | ebpf/reload.go:182-208 | takes back exactly the admissions named, counting none as ended |
| `Inventory.WithoutExactly` | ebpf/ended.go:71-73 | deleting an admission from the accepted list keeps every other and nothing of it |
| `Group.NoRouteOutlivesItsEnd` | attachment/group.go:74-88 | in every interleaving, from any routes confirmed or not, no route stands for an admission its owner has reported ended, before, during or after the call that granted it |
| `Group.RouteLeavesOnly` | attachment/group.go:82-84 | in every interleaving a confirmed route goes only by its own end, by being taken back, or where a later call with a grant of its process installed |
| `Group.TakenBackAsAsked` | attachment/group.go:236-258 | a route is taken back only by a receipt asked for a selection its call was granted by the route's own owner, or by the only owner's Retract, of one without a scope |
| `Group.EndSparesSuccessor` | attachment/group.go:272-281 | of every run around an install: a grant whose own end was not reported has its process routed by the call, and the route stays until its own end is reported, it is taken back, or a later call with a grant of that process installs, whatever else ends |
| `Group.HandsBackOnce` | attachment/group.go:207-271 | in every interleaving of answers, ends, refusals and receipts: nothing is handed back twice, to another owner, or of a call not refused unless its receipt was asked for it; once a refusal is done each selection granted to the call was handed back to its own owner exactly once, and once a receipt is, each it took; and a call that did not install has no route |
| `Group.HandedTwiceOnly` | attachment/group.go:293-309 | in every interleaving a selection is handed back in one call at most and by Retract at most once, and by both only where its one owner gave it no scope and the receipt of its call was asked for it as well |
| `Group.HandedTwice` | attachment/group.go:293-309 | for every selection without a scope, a run in which both hand it back |
| `Group.Laid` | attachment/group.go:272-281 | a process with a grant whose end was not noted is routed by such a grant of the call, and every other keeps the route it had or none |
| `Group.Group.Ended` | attachment/group.go:74-88 | the callback as it runs: noted in every pending call it can belong to, and the route it names let go |
| `Group.Group.Install` | attachment/group.go:272-281 | the routes as they are laid, grant after grant |
| `Group.Group.HandBack` | attachment/group.go:224-228 | the loop hands back every grant of every batch up to the one that failed, each to the owner that granted it |
| `Group.Group.Redeem` | attachment/group.go:238-258 | the receipt's loop lets go the routes of what it took and hands it back, batch after batch |
| `Group.RestoredHeld` | attachment/group.go:238-258 | and that is each selection taken, to each owner, as often as the batches hold it |
| `Group.Receipt.Take` | probe/retraction.go:42-66 | takes of what is pending what is named and keeps the rest |
| `Group.TakenOnce` | probe/retraction.go:38-41 | asked again, a receipt takes only what it had not taken |
| `Group.Group.Withdraw` | attachment/group.go:293-309 | lets go the unscoped route of each selection named |
| `Group.AllBackHeld` | attachment/group.go:224-228 | and that is each selection to each owner as often as the batches hold it |
| `Group.NoteEach` | attachment/group.go:76-80 | notes an end in each batch of its owner asked for that process, and in no other |
| `ZstdFrames.FrameFound` | contentcoding/zstd.go:112-140 | every frame of the layout is found with its length, whatever follows |
| `ZstdFrames.FrameLaidOut` | contentcoding/zstd.go:112-140 | whatever is found is a frame of the layout |
| `ZstdFrames.FramesFound` | contentcoding/zstd.go:99-109 | the walk over a list of frames ends where they end, and further only by frames that follow |
| `ZstdFrames.FramesLaidOut` | contentcoding/zstd.go:99-109 | every byte string is the frames found in it and then nothing that starts with a frame |
| `ZstdFrames.WindowFound` | contentcoding/bounds.go:383-409 | the window read is the one the frame's header declares |
| `ZstdFrames.WalkBlocks` | contentcoding/bounds.go:344-373 | the walk over blocks ends where the function of the bytes says |
| `ZstdFrames.WalkFrame` | contentcoding/zstd.go:112-140 | the frame length as it is read |
| `ZstdFrames.WalkFrames` | contentcoding/zstd.go:99-109 | the frames' end as it is walked |
| `ZstdFrames.ReadWindow` | contentcoding/bounds.go:383-409 | the declared window as it is read |
| `ZstdPlan.Walk` | contentcoding/bounds.go:284-338 | the plan and the cut as they are walked |
| `ZstdPlan.CutAtFrameEnd` | contentcoding/zstd.go:32-36 | where the input is cut, the complete frames of what is left end exactly there |
| `ZstdPlan.PlanDominates` | contentcoding/bounds.go:242-273 | however far into the cut input a decoder that keeps its largest history gets, it makes one at most three times and holds at most the plan, and exactly the plan if it goes all the way |
| `ZstdPlan.FramesReached` | contentcoding/bounds.go:242-273 | the windows planned for are those of the frames of the layout, skippable ones aside |
| `ZstdPlan.EnvelopeHolds` | contentcoding/bounds.go:229-240 | no window up to a limit takes a larger history than the envelope |
| `Workspace.CeilingExactly` | contentcoding/bounds.go:507-542 | the zstd workspace stays within its ceiling for every input if and only if the bound is not from 16385 to 20480, and always within 32 bytes of it |
| `Workspace.CeilingExceeded` | contentcoding/bounds.go:39-47 | at every bound in that range two frames of 16380 and 16384 bytes of content pass the ceiling |
| `Workspace.BrotliWithin` | contentcoding/bounds.go:510-520 | the brotli workspace stays within its ceiling for every input and bound |
| `Workspace.LargestRing` | contentcoding/bounds.go:148-159 | the loop finds the largest ring the bound admits |
| `Growth.CeilIsHalved` | contentcoding/bounds.go:454-461 | rounding a shift up is halving and rounding up as often |
| `Growth.NextDoubles` | contentcoding/decode.go:371-391 | each capacity is at most double the last and every one below the limit at most half of it, rounded up |
| `Growth.OutputGrowth` | contentcoding/bounds.go:437-452 | what it sums is exactly the capacities the buffer passes through from nothing to its limit |
| `Output.NextCapacity` | contentcoding/decode.go:379-388 | the loop over shifts finds the next capacity |
| `Output.Output.Grow` | contentcoding/decode.go:379-399 | grows by one capacity, reserved whole before the old one is released; a refusal changes nothing |
| `Output.Output.Fill` | contentcoding/decode.go:406-442 | nothing read is lost or invented; for every way of splitting the same bytes, with fewer than a hundred empty reads in a row and reservations granted, the outcome and the bytes held depend on the bytes alone, and it is Decoded exactly when they are at most the bound |
| `Decoding.Decode` | contentcoding/decode.go:232-312 | whatever is refused and wherever the decoder stops, every charge is released exactly once but on Decoded the output's, which is nothing or one of the capacities the bound gives, with the body at most the bound, and the total held is at most Charges, with the zstd slack |

## Left out

- The payload bytes, their truncation and their slots: fragments are lengths and places.
- The order in which `Finish` hands its records on, and the sinks themselves.
- 32-bit and 64-bit wrap-around of counters, numbers and offsets.
- Kernel and procfs access, the wire encoding of events, and the association of a call
  with its socket beyond what a transfer carries: these are inputs.
- Allowlist: each hook and each map operation is one step.
- Allowlist: thread counting is modelled as the program does it, but how many threads a
  group really has is the environment's.
- Producer: a nested call is a lost number; the counter that pairs nested returns, and
  its bound of 255, are not modelled. The check that keeps a recycled handle's occupancy
  is not modelled either: a release may happen at any time.
- TailLoss.TailExact: does not cover a direction marked overlapped, because the result
  is false there (`HeldHidesTail`); `LocatedExactly` is the condition where the counts
  still tally.
- LossLaws.LossConserved: is stated of deliveries in increasing number order, as the
  source promises it; so is Conservation.ReleaseConserves.
- DeliveredOnce.RecordsStand: is of one deliverer; with more,
  `Disagreement.RecordsDisagreeExactly` is the condition.
- Group.NoRouteOutlivesItsEnd: assumes an owner grants only processes it was asked for
  and reports the end only of what it granted.
- Group: the confirmation of routes from the grants an owner reads while it attaches is
  not a step; a run may start from any routes it can leave.
- Group: the preflight that refuses before any owner is asked is not modelled.
- Reads.RetractionLeavesNothing: says nothing of the counts folded, only of what stays.
- ZstdPlan.Walk: does not model the number of bytes the walk read, which only feeds an
  observation.
- The decoder libraries, the measured constants of `StageAllocation`, gzip member and
  zlib framing, and the brotli work budget: a decoder is any sequence of reads.
- The bounded retry of `obs_holds`: a thread may retry as often as it likes.
- `Attach`, capability reports, preflight, supervision and rendering: plumbing.
