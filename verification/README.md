# Aquamarine, modelled and proved

Aquamarine is a display backend library. Most of its code talks to the kernel, to EGL and to PipeWire; this
project models the parts that decide who owns a CRTC, a framebuffer, a property blob, a buffer, a descriptor or
the next frame, and proves what they keep. Every foreign call is replaced by its possible answers, which are
parameters, and by a ledger of what it handed out and took back.

Each file holds one component twice. The first half is a value model: a state, the steps the code takes on it,
runs of any length, and the theorems about them. The second half, under "the code", is the component as the
source has it, with its fields, loops, arrays and early returns; each of its methods is proved to do to the
state exactly what the value model says, so the theorems are about the code.

| file | component | main results |
|---|---|---|
| AtomicCommit | blobs of one atomic commit | what a commit destroys, keeps and loses, exactly |
| PlaneRotation | framebuffers on the primary plane | every buffer is released once, when it leaves the screen, if and only if each step is safe; the condition read off the history |
| OutputCommit | a DRM output from commit to page flip | what is accepted and what reaches the CRTC, one flip pending, the blob ledger, and the exact condition of the rotation over every run, with the modeset retry, tearing and replugs |
| CrtcAllocation | CRTC assignment, tile pruning, hotplug with the connector scan | exclusive, maximal, at least half of optimal |
| Framebuffer | importing a buffer into KMS | one submission, each handle and id released once |
| Swapchain | rotation and reconfiguration | transactional under allocation failure, ages are right, exactly when buffers fit the options |
| HeadlessTimers | timers of the headless backend | each runs once, on time, in order, and the timer is armed for it |
| FrameTokens | frame scheduling, idle queue, timers | a flag is up exactly when one callback is outstanding, under re-entrant callbacks |
| Producer | connection to an Anland consumer | connected or fallen back, never between; exactly when it connects and falls; who owns each descriptor |
| MicRing | microphone ring buffer | refines a bounded queue; every byte read, dropped or stored once |
| Projection | matrices of the renderer | bijections onto clip space, over the reals |
| Refresh | refresh rate of a mode | when nested division rounds like one division |

OutputExamples holds runs of OutputCommit on which natural claims fail. Options, Sequences, Arithmetic and Partition
are shared: an optional value, lists of ids, division with remainder, and std::stable_partition.

## What turned out not to hold

The models follow the code. Where a natural claim fails, the exact condition is proved instead, and a lemma shows
the failing side reached from the initial state.

- A commit that carries no buffer and reconfigures nothing, made while a flip is pending and retried as a modeset,
  may ask for a second flip event: `OutputCommit.FlipBreaksExactly`, reached in `OutputExamples.TwoFlipsOwed`. A
  connector that is unplugged and plugged in again with a flip pending starts out of step:
  `OutputCommit.ReplugWithFlipPending`, reached in `OutputExamples.OutOfStepAfterReplug`.
- With a second event owed, or one of the connector's former life, a flip can release the buffer on screen although
  every commit was safe: the flip clause of `OutputCommit.RunRotatesExactly`, reached in
  `OutputExamples.ReplugReleases`. While the flag knows of every event, the commits alone decide:
  `OutputCommit.CarefulRunRotates`.
- A tearing commit rotates the plane at once and still asks for a flip event, which then releases the buffer on
  screen: no accepted one is safe, `OutputCommit.NewBuffer`, reached in `OutputExamples.TearingReleases`.
- A commit without the buffer bit resubmits the buffer of the last accepted commit and asks for no flip event. After
  the output was off, that buffer waits with nobody to bring it up, and the next commit of another buffer overwrites
  it: it stays locked for ever. `OutputExamples.RepeatedBufferStrands` is such a run;
  `PlaneRotation.ResubmitExact` and `OutputCommit.NewBuffer` give the exact conditions. Retried as a modeset, the same
  commit asks for an event, and releases the buffer it shows if that was on screen: `OutputCommit.RepeatedBuffer`,
  reached in `OutputExamples.RepeatedBufferReleased`.
- Committing the buffer on screen again releases it while it is shown: `PlaneRotation.RecommitBreaks`, reached in
  `PlaneRotation.RecommittedBuffer`. Disabling an output with a flip pending strands the waiting buffer
  unless it was on screen just before the current one: `PlaneRotation.DisableOnHistory`, reached in
  `PlaneRotation.StrandedBuffer`.
- Blobs are lost when preparation stops at the damage blob after others were made, when a mode blob is made for a
  framebuffer commit whose mode the kernel already has, and for every degamma table: `AtomicCommit.LeaksNothing`,
  reached in `AtomicCommit.LostBlobs` and, over a run, in `OutputExamples.ModeBlobLost`.
- A connector keeps its CRTC while unplugged and can share it when it comes back, unless the kernel stopped listing
  it: `CrtcAllocation.RunExclusive`, reached in `CrtcAllocation.ReplugShares`.
- An import that obtains a handle and then fails never closes it: `Framebuffer.HandlesLeftOpen`, reached in
  `Framebuffer.HandleForgotten`.
- A header cut short makes receive_dmabufs forget the descriptors that came along: `Producer.ExitGood`, reached in
  `Producer.CutHeaderLeaks`.
- A swapchain asked for a length without a size leaves `next` without a buffer: `Swapchain.ReconfigureServes`, reached
  in `Swapchain.HollowChain`. A rollback of a chain with no length leaves a position the next rollback does not step
  back from: `Swapchain.RollbackSteps`, reached in `Swapchain.RollbackStandsStill`. A reconfiguration of the same
  size, format and length ignores new scanout, cursor and multigpu flags, and a resize keeps buffers made for other
  flags and never asks for multigpu ones: `Swapchain.SuccessHonours` and `Swapchain.RunConsistent`, reached in
  `Swapchain.GrownForOneGpu`.
- The refresh rate is one millihertz below the nearest in one family of modes: `Refresh.RoundsHalfUp`, reached in
  `Refresh.OneTooSmall`.
- Destroying a DRM output from inside the batch that holds its frame callback leaves that callback behind:
  `FrameTokens.DestroyDrmExact`, reached in `FrameTokens.DestroyedInItsBatch`.

## Model

Beside the members in this table, each file has short methods that only carry a step of the value model over to the
fields: OutputCommit (ExpectFlip, ApplyCommit, HandlePageFlip, Disconnect, Connect), AtomicCommit (CommitBlob,
RollbackBlob, Rollback, AddConnectorModeset, DestroyBlob), PlaneRotation (SubmitFb, OnPresent), CrtcAllocation
(See, Add, UnplugAll, PlugAll), Framebuffer (OnDestroy), Swapchain (Rollback), HeadlessTimers (AddTimer), FrameTokens
(RunCallback, DestroyDrmOutput), Producer (SetFence, Refresh, Perform, the constructor) and MicRing (Clear).

| member | source | states |
|---|---|---|
| OutputCommit.DisabledCommitIsModeset | src/backend/drm/DRM.cpp:2021-2022 | a commit with the output disabled is always a modeset |
| OutputCommit.StepKeepsTracked | src/backend/drm/DRM.cpp:2050-2053 | unless lastCommitNoBuffer is set, a disabled output has the enabled bit and a missing buffer the buffer bit; every edit, commit, flip and hotplug keeps this |
| OutputCommit.CommitKeepsOneFlip | src/backend/drm/DRM.cpp:1889-2045 | a commit that is not risky, with its retry and whatever the kernel answers, keeps isPageFlipPending equal to one outstanding event |
| OutputCommit.RunKeepsOneFlip | src/backend/drm/DRM.cpp:1813-2082 | over every run without a risky commit, and without a replug while an event is owed, isPageFlipPending is up exactly when one flip event is outstanding |
| OutputCommit.StartKeepsOneFlip | src/backend/drm/DRM.cpp:1813-2082 | the same for every such run from the initial state |
| OutputCommit.CarefulClient | src/backend/drm/DRM.cpp:1905 | a client whose enabled commits each carry a buffer or reconfigure makes no risky commit |
| OutputCommit.FlipBreaksExactly | src/backend/drm/DRM.cpp:2035-2041 | answers the kernel can give break it if and only if the commit is risky: untainted, without the buffer bit, no modeset, while a flip is pending |
| OutputExamples.TwoFlipsOwed | src/backend/drm/DRM.cpp:2035-2041 | from the start, a run whose last commit is risky and breaks it |
| OutputCommit.ReplugWithFlipPending | src/backend/drm/DRM.cpp:1702-1715 | unplugging and replugging keeps it if and only if no flip was pending |
| OutputExamples.OutOfStepAfterReplug | src/backend/drm/DRM.cpp:1702-1715 | from the start, a run after which it breaks |
| OutputCommit.CommitExactly | src/backend/drm/DRM.cpp:1813-2045 | a commit that asks for something the output cannot do changes nothing; any other succeeds if and only if the kernel takes the attempt, or the one retry as a modeset |
| OutputCommit.SupportedSucceeds | src/backend/drm/DRM.cpp:1813-1940 | a supported request with an importable buffer and no flip pending succeeds on a kernel that makes the blobs and accepts |
| OutputCommit.NewOutputIsDark | src/backend/drm/DRM.cpp:1885-1887 | a new output refuses every commit until it has a mode, and is committed dark until it is enabled |
| OutputCommit.CommitLeaves | src/backend/drm/DRM.cpp:2035-2057 | what an admissible commit leaves of requests, format, damage, lastCommitNoBuffer, tainted and enabled state: accepted, refused or a test |
| OutputCommit.AttemptsMake | src/backend/drm/impl/Atomic.cpp:325-443 | from the wishes and the hardware: which blobs each attempt makes |
| OutputCommit.CommittedColours | src/backend/drm/impl/Atomic.cpp:345-427 | from the wishes and the hardware: which of the kernel's blobs an accepted commit leaves in the matrix, gamma and metadata slots, and that what was not committed leaves none, but for the matrix at a modeset |
| OutputCommit.CommittedMode | src/backend/drm/impl/Atomic.cpp:200-215 | from the wishes: an accepted modeset leaves the mode blob made for it, none for a dark output, the old one when a lit output runs that mode already |
| OutputCommit.CommitDestroysOnce | src/backend/drm/impl/Atomic.cpp:445-471 | both attempts of a commit destroy only live blobs, none twice |
| OutputCommit.CommitLedger | src/backend/drm/DRM.cpp:2033-2045 | after a commit, retried or not, slots are sound and the unowned blobs are the old ones and the listed losses |
| OutputCommit.RetryIsClean | src/backend/drm/DRM.cpp:2035-2041 | the retry reuses the refused commit data without a stale blob id in it |
| OutputCommit.RunLedger | src/backend/drm/impl/Atomic.cpp:271-319 | over every run no slot holds a destroyed id and the live blobs are the slots' and exactly those lost on the way |
| OutputCommit.LosesNothing | src/backend/drm/impl/Atomic.cpp:325-443 | one step loses no blob if and only if the guards of its attempts make them lossless |
| OutputCommit.LiveAreHeld | src/backend/drm/impl/Atomic.cpp:325-471 | over every run from the start the live blobs are exactly the non-zero slots if and only if every commit on the way was lossless by its guards |
| OutputExamples.ModeBlobLost | src/backend/drm/impl/Atomic.cpp:200-215 | from the start, a run that loses the mode blob of its first commit |
| OutputCommit.CommitRotates | src/backend/drm/DRM.cpp:1717-1750 | on the plane any commit is nothing, one submission, one torn submission or one disable, also through the retry, with or without the buffer bit |
| OutputCommit.CommitShows | src/backend/drm/DRM.cpp:1905-1909 | from the wishes: which buffer an accepted commit submits, whether it asks for a flip event, and whether it tears |
| OutputCommit.StepRotatesExactly | src/backend/drm/DRM.cpp:1728-1780 | any step keeps the plane sound if and only if it is safe: an accepted commit by what it does to the plane, a flip of a connected output if front and back differ |
| OutputCommit.RunRotatesExactly | src/backend/drm/DRM.cpp:1391-1425 | over every run, tearing commits, retries and replugs with events owed included, the locked buffers are those of front and back and each is released once all along, if and only if every accepted commit and every flip on the way is safe for the plane |
| OutputCommit.StartRotates | src/backend/drm/DRM.cpp:1391-1425 | the same for every run from the initial state |
| OutputCommit.CarefulRunRotates | src/backend/drm/DRM.cpp:1044-1064 | over every run without a risky commit, and without a replug while an event is owed, the plane is sound all along if and only if every accepted commit is safe: no flip is at fault |
| OutputExamples.ReplugReleases | src/backend/drm/DRM.cpp:1044-1064 | from the start, a run to a sound plane whose next event, owed from before a replug, releases the buffer on screen |
| OutputExamples.TearingReleases | src/backend/drm/DRM.cpp:2060-2079 | from the start, a run in which the event of a tearing commit releases the buffer it brought on screen |
| OutputCommit.RunRemembers | src/backend/drm/DRM.cpp:1914-1985 | without the buffer bit the state repeats the buffer of the last accepted commit, unless the plane was cleared since |
| OutputCommit.RepeatedBuffer | src/backend/drm/DRM.cpp:1905-1914 | in reachable states with a sound plane an enabled commit without the buffer bit is safe if and only if it was not retried or its buffer is not on screen |
| OutputCommit.NewBuffer | src/backend/drm/DRM.cpp:1728-1734 | a buffer commit with no flip pending is safe if and only if it does not tear, the buffer is not on screen, and nothing waits but what is on screen or this buffer |
| OutputExamples.RepeatedBufferStrands | src/backend/drm/DRM.cpp:1905-1914 | from the start, a careful run without tearing after which a buffer stays locked and no plane names it |
| OutputExamples.RepeatedBufferReleased | src/backend/drm/DRM.cpp:2035-2041 | from the start, a repeated buffer whose retry asks for the event that will release it on screen |
| OutputCommit.RunKeepsRotating | src/backend/drm/DRM.cpp:1728-1780 | over every run whose enabled commits are vsync commits of a buffer that is not on screen, whose disables come with no flip pending, and which plugs a connector in only when no event is owed, nothing is locked but front and back, and without a pending flip nothing waits |
| OutputCommit.StartKeepsRotating | src/backend/drm/DRM.cpp:1728-1780 | the same for every such run from the initial state |
| OutputCommit.Connector.Check | src/backend/drm/DRM.cpp:1814-1985 | accepts exactly the commits that none of the early returns refuses |
| OutputCommit.Connector.BuildCommit | src/backend/drm/DRM.cpp:1889-2031 | commit data, flags, and the format the state changes to on a mismatch |
| OutputCommit.Connector.ConnectorCommit | src/backend/drm/DRM.cpp:1717-1726 | one attempt: slots, blobs, plane and flip flag change as the kernel's answer says, a test changes no plane and no flag |
| OutputCommit.Connector.Attempt | src/backend/drm/DRM.cpp:2033-2045 | the attempt and at most one retry as a modeset, with the tainted flag |
| OutputCommit.Connector.Finish | src/backend/drm/DRM.cpp:2047-2081 | what an accepted commit resets, and the immediate rotation of a tearing one |
| OutputCommit.Connector.CommitOutput | src/backend/drm/DRM.cpp:1813-2082 | commitState leaves exactly the state and result of the value model the run theorems are about |
| AtomicCommit.CommitSlots | src/backend/drm/impl/Atomic.cpp:292-319 | a refused commit leaves all four slots as they were, an accepted one installs the ids of the data |
| AtomicCommit.AcceptedExactly | src/backend/drm/impl/Atomic.cpp:445-471 | a commit succeeds if and only if the kernel accepts and made the mode and damage blobs that were due |
| AtomicCommit.ColourSlots | src/backend/drm/impl/Atomic.cpp:345-427 | on the raw wishes: which id each colour slot holds after an accepted commit |
| AtomicCommit.ModeSlot | src/backend/drm/impl/Atomic.cpp:128-215 | on the raw wishes: which id the mode slot holds after an accepted commit |
| AtomicCommit.MadeExactly | src/backend/drm/impl/Atomic.cpp:325-443 | which blobs are made: all that are wished for and supported, none after a refused mode blob |
| AtomicCommit.CommitLedger | src/backend/drm/impl/Atomic.cpp:445-471 | one commit destroys only live ids and none twice, and every live blob is in a slot, was lost before, or is a listed loss |
| AtomicCommit.ApplyLedger | src/backend/drm/impl/Atomic.cpp:305-319 | applying swaps old slot ids for new ones; only an unplaced mode blob and the degamma blob are orphaned |
| AtomicCommit.RollbackLedger | src/backend/drm/impl/Atomic.cpp:292-303 | rolling back destroys exactly the new blobs, but for an unplaced mode blob and the degamma blob |
| AtomicCommit.LeaksNothing | src/backend/drm/impl/Atomic.cpp:325-443 | a commit loses no blob if and only if, by its guards and the answers: it stopped at the mode blob, or it stopped at the damage blob having made no other, or it made no degamma blob and placed its mode blob |
| AtomicCommit.LostBlobs | src/backend/drm/impl/Atomic.cpp:325-443 | each of the three ways to lose a blob, on the first commit of a CRTC |
| AtomicCommit.PrepareKeepsClean | src/backend/drm/impl/Atomic.cpp:325-443 | preparing leaves no id that the same job retried as a modeset would not overwrite |
| AtomicCommit.PrepareConnector | src/backend/drm/impl/Atomic.cpp:325-443 | which blobs are asked for, made and named, and when preparation stops |
| AtomicCommit.PrepareMode | src/backend/drm/impl/Atomic.cpp:330-343 | a failed mode blob stops preparation and leaves the id alone |
| AtomicCommit.PrepareLut | src/backend/drm/impl/Atomic.cpp:345-376 | an empty table clears the id, a failed one clears it too, a missing property leaves it alone |
| AtomicCommit.PrepareCtm | src/backend/drm/impl/Atomic.cpp:378-400 | the matrix blob is made for modesets and committed matrices only |
| AtomicCommit.PrepareHdr | src/backend/drm/impl/Atomic.cpp:402-427 | metadata without a transfer function clears the id |
| AtomicCommit.PrepareDamage | src/backend/drm/impl/Atomic.cpp:429-440 | a failed damage blob stops preparation after all others were made |
| AtomicCommit.AddConnector | src/backend/drm/impl/Atomic.cpp:128-198 | when the mode blob is placed in the request |
| AtomicCommit.CrtcSlots.Apply | src/backend/drm/impl/Atomic.cpp:305-319 | all four slots and the order in which ids are destroyed |
| AtomicCommit.CrtcSlots.ImplCommit | src/backend/drm/impl/Atomic.cpp:445-471 | prepare, place, then apply or roll back, as the ledger theorems assume |
| PlaneRotation.RunKeepsGood | src/backend/drm/DRM.cpp:1391-1425 | over every allowed run the locked buffers are those of front and back, and every accepted buffer was released once or is one of these |
| PlaneRotation.StepExact | src/backend/drm/DRM.cpp:1728-1780 | from a sound plane each submission, torn submission, flip, disable and disconnect leaves a sound one if and only if it is safe |
| PlaneRotation.RunExact | src/backend/drm/DRM.cpp:1391-1425 | over every run the plane is sound all along if and only if every step is safe |
| PlaneRotation.ResubmitExact | src/backend/drm/DRM.cpp:1728-1746 | after a resubmission without an event, the next buffer keeps the balance if and only if it is not on screen and the resubmitted one is on screen or is this buffer; a disable if and only if it is on screen or `last` |
| PlaneRotation.RecommittedBuffer | src/backend/drm/DRM.cpp:1764-1770 | two commits of one buffer, after which the buffer on screen is unlocked |
| PlaneRotation.ReleasedWhenItLeaves | src/backend/drm/DRM.cpp:1764-1770 | a step releases exactly the buffers that leave both front and back, once each |
| PlaneRotation.RecommitBreaks | src/backend/drm/DRM.cpp:1764-1770 | a commit and its flip keep the rotation if and only if the buffer was not on screen |
| PlaneRotation.DisableWhilePending | src/backend/drm/DRM.cpp:1728-1746 | disabling with a flip pending keeps the balance if and only if the waiting buffer is also `last`; otherwise it stays locked |
| PlaneRotation.StrandedBuffer | src/backend/drm/DRM.cpp:1745-1746 | a run of three buffers after which the third stays locked |
| PlaneRotation.LastIsPrevious | src/backend/drm/DRM.cpp:1764-1766 | over every run, `front` is the buffer that waited at the most recent present and `last` the one on screen before it |
| PlaneRotation.NothingPresented | src/backend/drm/DRM.cpp:1391-1413 | and both are empty when nothing was presented since the plane was cleared |
| PlaneRotation.DisableOnHistory | src/backend/drm/DRM.cpp:1728-1746 | over every allowed run, a disable with a flip pending loses no buffer if and only if the waiting one was on screen just before the current one |
| PlaneRotation.DoubleBuffered | src/backend/drm/DRM.cpp:1728-1770 | a client of two buffers loses none by such a disable if and only if something was on screen before the current one, and then nothing stays locked |
| PlaneRotation.TurnsLoseNothing | src/backend/drm/DRM.cpp:1391-1413 | two buffers in turn and a disable before the third flip: all are released |
| PlaneRotation.PrimaryPlane.ReleaseFb | src/backend/drm/DRM.cpp:1394-1406 | a reference releases its buffer only when it is locked and was not released in this pass |
| PlaneRotation.PrimaryPlane.ReleaseFbReferences | src/backend/drm/DRM.cpp:1391-1413 | all three references are cleared and each locked buffer among them is released once |
| CrtcAllocation.AssignServes | src/backend/drm/DRM.cpp:706-763 | a connector keeps its state, or wanted a CRTC and got one its mask allows; live connectors never lose or change theirs |
| CrtcAllocation.AssignExclusive | src/backend/drm/DRM.cpp:723-763 | nobody shares a CRTC afterwards if and only if nobody did before |
| CrtcAllocation.AssignIsMaximal | src/backend/drm/DRM.cpp:723-763 | no connector is left wanting while a CRTC it allows is free |
| CrtcAllocation.AtLeastHalf | src/backend/drm/DRM.cpp:700-767 | the number newly served is at least half of what any valid assignment to the free CRTCs serves |
| CrtcAllocation.ServedInstead | src/backend/drm/DRM.cpp:741-763 | a CRTC another assignment would use went to somebody |
| CrtcAllocation.HalfIsTight | src/backend/drm/DRM.cpp:741-763 | two connectors for which it is exactly half |
| CrtcAllocation.TileGroupPruned | src/backend/drm/DRM.cpp:835-873 | a group is pruned if and only if it has two members and one that covers the full tiled size, and then exactly one such member survives |
| CrtcAllocation.RedundantExactly | src/backend/drm/DRM.cpp:842-872 | with the products written out: redundant if and only if connected, in a group that has a connector with a mode of at least numH * hSize by numV * vSize, and not the first such one |
| CrtcAllocation.LonersStay | src/backend/drm/DRM.cpp:835-840 | without a group, or not connected, a connector is never redundant |
| CrtcAllocation.TwoHalvesStay | src/backend/drm/DRM.cpp:847-863 | the two halves of a tiled monitor that neither can show alone both stay |
| CrtcAllocation.OneShowsAll | src/backend/drm/DRM.cpp:847-872 | a half that can show all of it makes the other redundant |
| CrtcAllocation.OutputsMatch | src/backend/drm/DRM.cpp:876-916 | afterwards a connector has an output exactly when it is connected and not redundant, but for a failed lookup of a new one |
| CrtcAllocation.PrunedGroupShows | src/backend/drm/DRM.cpp:876-916 | of a pruned group only the covering member still counts after the whole pass |
| CrtcAllocation.RecheckedConnector | src/backend/drm/DRM.cpp:876-912 | what a pass changes of a connector, and nothing else: its mark, its status when it loses its output, its CRTC when it had none, its output, which starts disabled |
| CrtcAllocation.RecheckExclusive | src/backend/drm/DRM.cpp:876-916 | connectors that share a CRTC after a hotplug pass shared it when it began to assign |
| CrtcAllocation.ScanExact | src/backend/drm/DRM.cpp:918-985 | after a scan the connectors are those the kernel lists, known ones with their CRTC and new ones on the CRTC the kernel reports, no two with one id |
| CrtcAllocation.ScanReports | src/backend/drm/DRM.cpp:927-971 | the last report of a known or usable connector settles its status and largest mode; one the kernel says nothing about stays as it is |
| CrtcAllocation.PassConnector | src/backend/drm/DRM.cpp:829-912 | a pass keeps the connectors of its scan, each with the tile read in this pass, and gives an output only to those it can look up |
| CrtcAllocation.PassExclusive | src/backend/drm/DRM.cpp:876-985 | one pass, with its scan that erases and adds connectors, keeps CRTCs exclusive if and only if no connector, known or new, comes to drive a CRTC another one drives |
| CrtcAllocation.RunExclusive | src/backend/drm/DRM.cpp:876-985 | over every run of passes nobody ever shares a CRTC if and only if there is no such comeback |
| CrtcAllocation.ReplugShares | src/backend/drm/DRM.cpp:1702-1715 | from no connectors, three passes: unplug, reassign and replug make two connectors share a CRTC, since disconnect keeps it |
| CrtcAllocation.FirstFit | src/backend/drm/DRM.cpp:741-763 | the first connector of the list that wants a CRTC and can use this one, none if there is none |
| CrtcAllocation.Backend.CollectRecheck | src/backend/drm/DRM.cpp:706-719 | exactly the connectors that are neither redundant nor live, in order |
| CrtcAllocation.Backend.IsTaken | src/backend/drm/DRM.cpp:723-736 | whether a live connector drives the CRTC |
| CrtcAllocation.Backend.Serve | src/backend/drm/DRM.cpp:741-763 | the CRTC goes to the first fit, whose old output is turned off, and the list shrinks by it |
| CrtcAllocation.Backend.RecheckCrtcs | src/backend/drm/DRM.cpp:700-767 | the connectors afterwards are those of the assignment the theorems are about |
| CrtcAllocation.Backend.FindFullRes | src/backend/drm/DRM.cpp:854-860 | the first member whose largest mode covers the group |
| CrtcAllocation.Backend.TileGroups | src/backend/drm/DRM.cpp:835-840 | every non-zero group with its connected members in order |
| CrtcAllocation.Backend.PruneGroup | src/backend/drm/DRM.cpp:842-872 | one group is decided, the others are left alone |
| CrtcAllocation.Backend.MarkRedundantTiles | src/backend/drm/DRM.cpp:829-874 | whatever the order of the map, exactly the redundant connectors are marked |
| CrtcAllocation.Backend.Note | src/backend/drm/DRM.cpp:927-971 | a listed connector is found and updated, or added, or dropped again when init fails |
| CrtcAllocation.Backend.EraseUnlisted | src/backend/drm/DRM.cpp:973-982 | exactly the connectors the kernel lists remain, in order |
| CrtcAllocation.Backend.ScanConnectors | src/backend/drm/DRM.cpp:918-985 | the scan the theorems are about; nothing happens without resources |
| CrtcAllocation.Backend.RecheckOutputs | src/backend/drm/DRM.cpp:876-912 | scan, prune, unplug, assign, plug, as the theorems assume |
| Framebuffer.RunOnIdle | src/backend/drm/DRM.cpp:2260-2398 | any sequence of creations, drops, destroy events and the destructor: nothing was made and nothing released, or one framebuffer whose handles were closed once and whose id is removed once |
| Framebuffer.SubmittedOnce | src/backend/drm/DRM.cpp:2260-2323 | one buffer is submitted to KMS at most once, no handle is closed twice, no id removed twice |
| Framebuffer.GoneIsRemoved | src/backend/drm/DRM.cpp:2329-2348 | after the destroy event or the destructor the id of the framebuffer has been removed, whatever came before |
| Framebuffer.CreateOnIdle | src/backend/drm/DRM.cpp:2292-2323 | the first import that reaches submitBuffer decides for good: attached, or unimportable |
| Framebuffer.HandlesLeftOpen | src/backend/drm/DRM.cpp:2379-2388 | an import closes what it obtained if and only if it succeeded or obtained no non-zero handle |
| Framebuffer.HandleForgotten | src/backend/drm/DRM.cpp:2318-2323 | a first import refused by submitBuffer, whose handle stays open |
| Framebuffer.ObtainedUpTo | src/backend/drm/DRM.cpp:2304-2316 | the handles obtained are those of the planes before the first failure, in order |
| Framebuffer.DropExactly | src/backend/drm/DRM.cpp:2379-2398 | a drop from any state appends one removal and the handles still open, does nothing without an id, and a second drop does nothing |
| Framebuffer.DistinctIsExact | src/backend/drm/DRM.cpp:2356-2376 | the closed handles are the distinct non-zero ones, each once |
| Framebuffer.DrmFb.CloseFbHandles | src/backend/drm/DRM.cpp:2350-2377 | the nested search closes exactly those, once over the life of the framebuffer |
| Framebuffer.DrmFb.DropFromKms | src/backend/drm/DRM.cpp:2379-2398 | one-shot: closes what is open and removes the id, or does nothing without an id |
| Framebuffer.DrmFb.ImportPlanes | src/backend/drm/DRM.cpp:2304-2316 | handles up to the first failure, zero after it |
| Framebuffer.DrmBuffer.ImportNew | src/backend/drm/DRM.cpp:2288-2335 | the framebuffer, the unimportable mark and the kernel calls of an import |
| Framebuffer.DrmBuffer.Create | src/backend/drm/DRM.cpp:2260-2286 | an attached framebuffer is returned without a kernel call, a failed import attaches nothing |
| Swapchain.RunServes | src/allocator/Swapchain.cpp:22-132 | in every reachable state next finds a buffer of the configured size, whatever the allocator refused, if no length comes without a size |
| Swapchain.ReconfigureServes | src/allocator/Swapchain.cpp:22-60 | a reconfiguration keeps next in range if and only if it does not ask for a length without a size |
| Swapchain.HollowChain | src/allocator/Swapchain.cpp:26-32 | a first request after which next has a slot and no buffer |
| Swapchain.ReconfigureConsistent | src/allocator/Swapchain.cpp:22-118 | every buffer stays one acquired for the options of the chain if and only if no resize keeps buffers of other flags than it takes on, nor adds one, which is never for multigpu, for other flags than the chain ends up with |
| Swapchain.RunConsistent | src/allocator/Swapchain.cpp:22-118 | over every run the buffers fit the options all along if and only if every resize on the way does so |
| Swapchain.SuccessHonours | src/allocator/Swapchain.cpp:34-46 | a success means buffers made for this very request if and only if it changed the size or format, or its flags fit those there |
| Swapchain.GrownForOneGpu | src/allocator/Swapchain.cpp:104-105 | from the start, a multigpu chain grown by a buffer that is not |
| Swapchain.Transactional | src/allocator/Swapchain.cpp:22-118 | a failure keeps options, position and every old buffer; a success has exactly the length asked for and keeps the common prefix of a resize |
| Swapchain.FailsOnRefusal | src/allocator/Swapchain.cpp:74-118 | it succeeds if and only if the allocator answers every request that is needed |
| Swapchain.OptionsTaken | src/allocator/Swapchain.cpp:22-60 | the options after a success: as asked, with a format left open taken from the first new buffer; unchanged when size, format and length were there already |
| Swapchain.FirstIsWhole | src/allocator/Swapchain.cpp:74-95 | the first request of a chain is served anew, with exactly the parameters it names |
| Swapchain.FailureUnobservable | src/allocator/Swapchain.cpp:97-118 | no sequence of next and rollback can tell that a reconfiguration failed |
| Swapchain.AgeIsLength | src/allocator/Swapchain.cpp:62-72 | the slot next returns was returned exactly length calls ago and not since, as the age says |
| Swapchain.TurnVisitsAll | src/allocator/Swapchain.cpp:62-72 | a full turn hands out every slot |
| Swapchain.RollbackUndoesNext | src/allocator/Swapchain.cpp:128-132 | next then rollback is the old position modulo the length, even from out of range |
| Swapchain.RollbackSteps | src/allocator/Swapchain.cpp:128-132 | rollback is one step back if and only if the position is not the one an empty chain leaves, or the length is one |
| Swapchain.RollbackStandsStill | src/allocator/Swapchain.cpp:128-132 | a run from the start after which rollback does not step back |
| Swapchain.RunCounts | src/allocator/Swapchain.cpp:62-132 | any mix of next and rollback ends where the calls add up to |
| Swapchain.CSwapchain.Reconfigure | src/allocator/Swapchain.cpp:22-60 | clear, no change, resize or full reconfiguration, as the theorems assume |
| Swapchain.CSwapchain.FullReconfigure | src/allocator/Swapchain.cpp:74-95 | all buffers or none are replaced |
| Swapchain.CSwapchain.Resize | src/allocator/Swapchain.cpp:97-118 | shrinks from the end, grows until the first refusal and keeps what it got |
| Swapchain.CSwapchain.Next | src/allocator/Swapchain.cpp:62-72 | the buffer of the next slot and its age, nothing on an empty chain |
| HeadlessTimers.RunKeepsExact | src/backend/Headless.cpp:187-230 | over every run, with callbacks that add timers, each added timer is pending or ran once, only after its own reading passed its deadline; survivors keep their order; the armed instant is no later than any pending deadline |
| HeadlessTimers.DispatchKeepsExact | src/backend/Headless.cpp:187-209 | one dispatch, failed read included, keeps that |
| HeadlessTimers.AddKeepsExact | src/backend/Headless.cpp:227-230 | adding a timer keeps that |
| HeadlessTimers.RunsWhenPast | src/backend/Headless.cpp:194-206 | in one dispatch a pending timer runs if and only if its own reading was strictly past its deadline |
| HeadlessTimers.PartitionOrder | src/backend/Headless.cpp:194-202 | the timers that stay keep the order they were added in |
| HeadlessTimers.Soonest | src/backend/Headless.cpp:211-217 | the armed instant is a pending deadline or four minutes from now, whichever is first |
| HeadlessTimers.ArmedAfter | src/backend/Headless.cpp:211-225 | after an addition or a dispatch the armed instant is the earliest pending deadline, or four minutes after the last reading, whichever is first |
| HeadlessTimers.HeadlessBackend.UpdateTimerFd | src/backend/Headless.cpp:211-225 | arms that instant |
| HeadlessTimers.HeadlessBackend.FireAll | src/backend/Headless.cpp:204-207 | callbacks run in order, each followed by the timers it adds |
| HeadlessTimers.HeadlessBackend.DispatchTimers | src/backend/Headless.cpp:187-209 | a failed read changes nothing, otherwise partition, run, rearm |
| Partition.NothingLost | src/backend/Headless.cpp:194-202 | every element is kept or moved, once |
| Partition.StablePartition | src/backend/Headless.cpp:194-202 | the kept and the moved elements, each in their old order |
| FrameTokens.PlayExact | src/backend/Backend.cpp:500-520 | under any re-entrant script, at every point, a live output's flag is up exactly when one callback is outstanding over queue, timers and batches under way, and accepted = run + cancelled + outstanding |
| FrameTokens.OneTokenPerFlag | src/backend/Headless.cpp:58-94 | from the start and outside the dispatchers, the flag is up if and only if exactly one callback is queued |
| FrameTokens.HeadlessFrame | src/backend/Headless.cpp:58-94 | a due frame runs in the next idle dispatch, any other when its timer expires, and then not if the output was destroyed |
| FrameTokens.DrmFrame | src/backend/drm/DRM.cpp:2184-2196 | a frame of a DRM output runs in the next idle dispatch if and only if it is enabled and no flip or frame is under way |
| FrameTokens.DrainExact | src/backend/Backend.cpp:514-517 | the loop over a batch keeps that while callbacks schedule, destroy and dispatch again |
| FrameTokens.DestroyDrmExact | src/backend/drm/DRM.cpp:1782-1787 | a destroyed DRM output is left without a token if and only if no batch under way holds its callback |
| FrameTokens.DestroyedInItsBatch | src/backend/drm/DRM.cpp:1782-1787 | a batch whose first callback destroys the output whose frame callback is second |
| FrameTokens.FireExact | src/backend/Headless.cpp:21-25 | running a callback clears the flag before anything else sees it |
| FrameTokens.TakeIdleExact | src/backend/Backend.cpp:511-512 | copying and clearing the queue loses no token |
| FrameTokens.TakeTimersExact | src/backend/Headless.cpp:194-202 | nor does taking the expired timers out |
| FrameTokens.Backend.ScheduleHeadless | src/backend/Headless.cpp:58-94 | nothing if the flag is up, else one callback, idle or timed |
| FrameTokens.Backend.ScheduleDrm | src/backend/drm/DRM.cpp:2184-2196 | nothing if blocked or the flag is up, else one idle callback |
| FrameTokens.Backend.RemoveIdleEvent | src/backend/Backend.cpp:475-477 | every copy leaves the queue, none leaves a batch |
| FrameTokens.Backend.RunBatch | src/backend/Backend.cpp:514-517 | each callback of the copy runs once, followed by what it does |
| FrameTokens.Backend.RunIdle | src/backend/Backend.cpp:500-520 | takes the whole queue first, so that callbacks added meanwhile wait |
| FrameTokens.Backend.RunTimers | src/backend/Headless.cpp:187-209 | takes the expired timers first; a failed read does nothing |
| Producer.PlayGood | src/backend/anland/display_producer.c:43-226 | after any calls, with any answers of peer and kernel and any callbacks, the context is fallen back and holds nothing of the consumer, or holds five descriptors, the mapping and one to eight buffers; every open descriptor is held once or was leaked |
| Producer.LifeGood | src/backend/anland/display_producer.c:290-298 | after disconnect only what a cut header brought is open, nothing was closed twice, nothing is mapped |
| Producer.ExitGood | src/backend/anland/display_producer.c:534-561 | reconnecting succeeds whole or leaves nothing behind; it leaks if and only if it starts fallen back, the handshake brings five descriptors that can be mapped, and the buffer message has a header cut short with descriptors |
| Producer.CutHeaderLeaks | src/backend/anland/display_producer.c:188-193 | a first connection attempt that leaves a descriptor open and held by nobody |
| Producer.ConnectsExactly | src/backend/anland/display_producer.c:109-226 | a reconnection succeeds if and only if the handshake is complete, and puts each descriptor in its place by the order of the messages; otherwise every field is reset |
| Producer.FallsExactly | src/backend/anland/display_producer.c:361-519 | a connected context falls if and only if a poll reports a hang-up or a send fails; any other call leaves it as it is, but for the fence or the callback set |
| Producer.StaysFallen | src/backend/anland/display_producer.c:361-519 | polls and sends do nothing to a context that has fallen back; only a reconnection ends it |
| Producer.ConnectionLasts | src/backend/anland/display_producer.c:361-519 | over every script, a connection keeps its descriptors and does not fall if and only if no call of it breaks |
| Producer.AllAreCounted | src/backend/anland/display_producer.c:43-81 | every received descriptor is accounted for, descriptor 0 included |
| Producer.OncePerFall | src/backend/anland/display_producer.c:83-107 | a fall runs the callback exactly once if there is one, and none while fallen or inside a callback |
| Producer.PlayInCallback | src/backend/anland/display_producer.c:83-86 | whatever a callback calls, no other callback starts |
| Producer.CallbackStays | src/backend/anland/display_producer.c:94-106 | a callback once set stays set, even if a callback clears it |
| Producer.SelectedExists | src/backend/anland/display_producer.c:583-596 | while connected the selected buffer exists for any shared value, and is the shared one when there is one of that index |
| Producer.ReleaseGood | src/backend/anland/display_producer.c:43-81 | releasing closes exactly what is held |
| Producer.ClosingOrder | src/backend/anland/display_producer.c:43-81 | the closing order of the code closes each held descriptor once |
| Producer.FenceGood | src/backend/anland/display_producer.c:311-359 | setting and sending a fence closes the previous one once |
| Producer.PickupBalanced | src/backend/anland/display_producer.c:109-158 | on success five descriptors and the mapping, no held one overwritten; on failure none lost |
| Producer.DmabufsBalanced | src/backend/anland/display_producer.c:160-226 | on success one to eight buffers; on failure all closed, but for a cut header |
| Producer.DisplayCtx.ReleaseConsumerResources | src/backend/anland/display_producer.c:43-81 | everything closed, unmapped and reset |
| Producer.DisplayCtx.EnterFallback | src/backend/anland/display_producer.c:83-107 | guarded release and callback, with the callback put back |
| Producer.DisplayCtx.PickupFds | src/backend/anland/display_producer.c:109-158 | every way the handshake can end |
| Producer.DisplayCtx.ReceiveDmabufs | src/backend/anland/display_producer.c:160-226 | every way the offer can end |
| Producer.DisplayCtx.TryExitFallback | src/backend/anland/display_producer.c:534-561 | returns success exactly when the context is connected afterwards |
| Producer.DisplayCtx.PollExtendFds | src/backend/anland/display_producer.c:416-450 | descriptors go to the caller of a well-formed message and are closed otherwise |
| Producer.DisplayCtx.GetSelectedIdx | src/backend/anland/display_producer.c:583-589 | the shared value if it is in range, else zero |
| MicRing.Ring.RingWrite | src/backend/anland/anland_audio.c:67-86 | leaves the last ring-size bytes of old contents and input, input longer than the ring included |
| MicRing.Ring.RingRead | src/backend/anland/anland_audio.c:88-98 | returns the first bytes in order across the wrap and keeps the rest |
| MicRing.Ring.OnSourceProcess | src/backend/anland/anland_audio.c:118-142 | whole frames only, ring bytes first, then zeros, the rest of the buffer untouched |
| MicRing.FramesFit | src/backend/anland/anland_audio.c:126-130 | as many frames as fit, or as were asked for if fewer, and not one less |
| MicRing.WholeFrames | src/backend/anland/anland_audio.c:126-130 | in bytes: whole frames of two bytes a channel, as many as fit or were asked for |
| MicRing.EveryByteAccounted | src/backend/anland/anland_audio.c:67-98 | over any interleaving every written position was read once, dropped once or is stored, reads and drops in order, dropped ones older than stored ones |
| MicRing.ReadersSeeASubsequence | src/backend/anland/anland_audio.c:88-98 | the bytes read are the written bytes at those positions, and the ring holds the end of the stream |
| MicRing.RunMatches | src/backend/anland/anland_audio.c:67-98 | the queue and the fate of each position agree over every run |
| MicRing.TwoPartWrite | src/backend/anland/anland_audio.c:78-85 | the two copies append the input after what is stored, around the end |
| MicRing.TwoPartRead | src/backend/anland/anland_audio.c:91-95 | the two copies are the stored bytes in order |
| Projection.ProjectionIsBijective | src/backend/drm/Math.cpp:162-181 | for every size and all eight transforms the box (sides swapped for quarter turns) is mapped one-to-one onto the square from -1 to 1, and nothing else is |
| Projection.ProjectedIsIdeal | src/backend/drm/Math.cpp:162-181 | which side runs which way in each transform |
| Projection.PlacedIsIdeal | src/backend/drm/Math.cpp:183-204 | projectBox turns the unit square about its middle, stretches it to the box and rotates it about the centre of the box |
| Projection.CentreIsFixed | src/backend/drm/Math.cpp:183-204 | the centre of the box is fixed for every rotation and transform |
| Projection.UnitSquareFillsBox | src/backend/drm/Math.cpp:183-204 | without a rotation a point is in the unit square if and only if its image is in the box |
| Projection.RotationKeepsDistance | src/backend/drm/Math.cpp:192-196 | a rotation keeps distances to the centre |
| Projection.BlitFillsTheTarget | src/backend/drm/Renderer.cpp:1047-1066 | for every buffer size the composed matrix is exactly (u, v) to (2u - 1, 2v - 1) |
| Projection.TableComposes | src/backend/drm/Math.cpp:59-156 | the table of transforms is closed under products, as turns and reflections compose |
| Projection.ProductComposes | src/backend/drm/Math.cpp:13-29 | multiplying affine matrices composes their maps |
| Projection.ProductEntries | src/backend/drm/Math.cpp:13-29 | entry by entry the matrix product, of any two matrices |
| Projection.MatrixMultiply | src/backend/drm/Math.cpp:13-29 | right also when the result is one of the factors |
| Projection.MatrixProjection | src/backend/drm/Math.cpp:162-181 | writes the matrix the theorems are about |
| Projection.ProjectBox | src/backend/drm/Math.cpp:183-207 | the successive in-place steps give the outer projection times the placement |
| Projection.Blit | src/backend/drm/Renderer.cpp:1047-1066 | the in-place sequence of the renderer ends with that matrix |
| Refresh.RoundingBound | src/backend/drm/DRM.cpp:1432 | r - 1/2 <= exact < r + 1/2 + 1/(2 vtotal), and the last term goes for an even vtotal |
| Refresh.RoundsHalfUp | src/backend/drm/DRM.cpp:1432 | the result is the exact rate rounded half up, except that it is one less if and only if vtotal is odd, the first quotient is in the middle of its residues and the first remainder is at least half |
| Refresh.OneTooSmall | src/backend/drm/DRM.cpp:1432 | a mode whose rate is one below the nearest |
| Refresh.NarrowWraps | src/backend/drm/DRM.cpp:1432 | the conversion to 32 bits keeps the residue and the range |
| Refresh.DivTruncates | src/backend/drm/DRM.cpp:1437-1441 | the divisions cut off toward zero |
| Refresh.ScanSteps | src/backend/drm/DRM.cpp:1434-1441 | the interlace, doublescan and vscan steps cut off no more than one division at the end |
| Refresh.InterlaceCancelsDoubleScan | src/backend/drm/DRM.cpp:1434-1438 | an interlaced doublescan mode has the rate of the plain one |

## Left out

- Calls into the kernel, libdrm, GBM, EGL, libseat, libinput, udev, PipeWire and Wayland: their answers are parameters.
- Multi-GPU blitting and the secondary renderer state in commitState and applyCommit: the model is of a backend without a primary.
- The cursor plane, its formats and its release with every flip.
- CDRMFB.reimport, restoreAfterVT, leases and the legacy KMS path.
- What init reads of a new connector beyond its CRTC and its mask, and the properties of a known CRTC, rechecked by every scan. The commit recheckCRTCs makes for an old output does nothing, because that connector has no CRTC, and is modelled as its state change only.
- OutputCommit.Connector.Connect: the mode connect presets and the first frame it schedules are left to the edits and commits that follow.
- OutputCommit.Connector.BuildCommit: the cursor framebuffer and the blocking flag are left out, because neither owns a blob, an event or the primary plane.
- OutputCommit.Connector.ApplyCommit: the cursor plane, the refresh rate and the secondary renderer are left out.
- FrameTokens.Backend.ScheduleHeadless: whether the next frame time has passed is a parameter, since only the queue the callback goes to depends on it.
- FrameTokens.Backend.ScheduleDrm: flip pending, frame running and the enabled state are parameters, because the tokens are the same for every course of them.
- Producer.DisplayCtx.constructor: the hello handshake is left out, because a context that fails it is never seen by a caller.
- Producer.DisplayCtx.Refresh: the message on the fence socket is left out; its result is ignored by the code.
- Producer.DisplayCtx.Perform: payloads and return codes of polls and pushes are left out, except the descriptors of PollExtendFds.
- Explicit fences, content type, bit depth and the other request properties that own nothing.
- Handlers of commit, present and release events that call back into commitState.
- Buffers destroyed while on a plane. On the plane a framebuffer is identified with its buffer, and the lock flag is known for buffers of one connector only.
- Gamma tables and matrices inside blobs; only whether they are empty, identical or refused matters here.
- Narrowing of a swapchain length beyond 31 bits in next and rollback, and of the sizes of the ring beyond size_t.
- timerfd_settime failures: the armed instant is the last one asked for. The refresh of the idle timer is not modelled.
- Callbacks of headless timers that dispatch again: HeadlessTimers lets them add timers, FrameTokens lets them do anything.
- Frame callbacks of outputs that are already destroyed, beyond the flag of the timer's weak reference.
- The contents of buf_info records, input events and the bytes of the protocol; recv_fds is modelled by the descriptors it stores.
- Rounding of the float matrices: they are over the reals, and the cosine and sine of an angle are parameters.
- Signed overflow in calculateRefresh is undefined in the source; the model wraps, and the theorems ask for rates that fit.
- Attachments, property tables, format guessing, EDID parsing, CVT timing, sessions, input devices, camera, IME and clipboard.
