# Verified models of the desktop app's core

Dafny models of four parts of the repository, with proofs about whole runs of each.

1. **RaptorQ decoding pipeline** (`patches/asupersync/src/decoding.rs`). An object is cut into
   blocks, its symbols arrive in any order, each block is decoded by solving a linear system,
   and the object is put together again. `BlockLayout` holds the layout and the thresholds,
   `RaptorQ` the decoding of one block, `DecodingPipeline` the operations, `DecodingRuns` what
   holds over whole runs, `RoundTrip` the end-to-end law (encode, deliver, decode gives the
   object back), `DecodingVerdicts` what each answer of the solver leads to and which symbols
   are taken, and `DecodingProgress` when a block is sure to be completed.
2. **Actor runtime** (`patches/asupersync/src/actor.rs`) and the **clean-up of a failed start**
   (`patches/asupersync/src/app.rs`). `Actor` is one actor task with its senders, `stop` and
   `abort` callers, and the supervised restart loop; `ActorProgress` what makes it start, serve,
   stop and restart. `Regions` and `RegionClosing` model the
   region tree and the cascade by which regions close, with the handling of leaked obligations
   and its re-entrant calls, `LeakAccounts` when leaks count and escalate, and
   `ClosingProgress` that no region waits that could close; `RegionWalk` the
   explicit-stack walk; `AppStart` starting an application, `StartSuccess` what is there when
   that succeeds and `AppCleanup` cleaning up when it fails; `HeldObligations`, `CarefulStart`
   and `LeakPanics` when leaked obligations make that panic and when they cannot; `Runtime` the
   object that the code updates in place.
3. **Dictation** (`src-tauri/src/transcription.rs`, `src-tauri/src/lib.rs`,
   `src-tauri/src/audio.rs`). `SilenceDetector` is the streaming detector, `Recorder` the
   microphone buffer, `Dictation` the protocol between the audio callback, the poll thread and
   the start and stop handlers, `DictationProgress` what each tick and each handler achieves,
   `Resampler` and `ResamplerRamps` the resampling to 16 kHz.
4. **Meetings** (`src-tauri/src/voice_db.rs`, `src-tauri/src/meeting.rs`). `VoiceDb` is the
   store with its full-text table, `Meeting` the life of a session while commands,
   transcription threads, deletions and restarts interleave, and `MeetingProgress` what each
   command achieves.

## How to read the models

Code that updates an object in place is a class (`Detector`, `AudioRecorder`, `Pipeline`,
`RuntimeState`, `Connection`). Each of its methods is proved equal to a function on a value
that holds the same fields, and the laws are proved about those functions. The concurrent
parts (`Actor`, `Dictation`, `Meeting`) are state machines: one action per effect that another
thread can observe, any interleaving of actions is a run, and an action that is not enabled
does nothing.

What the code leaves open is an argument: the solver of a block and its code tables
(`Library`), the order in which a hash map lists its values, whether an authentication tag is
good, whether the symbol set reports its threshold, the answer of the supervisor, what an
application does inside its tree before it fails, the silence test on a frame, which statement
of a transaction fails, and sine, cosine and pi.

Where code and comments disagree, the code is followed:

- `low_pass_filter` documents its cutoff as 1.0 at the Nyquist frequency, but its kernel uses
  cycles per sample, where that frequency is 0.5. The model uses the kernel as written.
- `ActorState::Stopped` reads like a final state. It is not: `stop` stores `Stopping`
  whatever the state was, and a restart stores `Created`. Nothing here relies on it.
- `validate_object_params_layout` compares `symbols_per_block` with the largest K of any
  block, which is that of the first block.
- `is_complete` says "all expected blocks are decoded" but compares two counts. With one
  layout the two are the same (`CompleteMeansEveryBlock`). When a later `set_object_params`
  shrinks the layout they are not, and `into_data` fails (`CompletionIsOnlyACount` gives a run);
  when it grows the layout, `into_data` can succeed with fewer bytes than declared
  (`AnswerCanComeUpShort` gives a run). `IntoDataSucceedsExactly` says when there is an answer,
  `WholeObjectExactly` when it has the declared size, and `BlocksUnderTheirPlans` when it is the
  object.
- A block in state Failed reads like a final state. It is not: the next attempt sets it to
  Decoding, and when that attempt meets a singular system it stays there
  (`FaultIsForgottenInARun` gives a run). `FailedExactly` says when a block is Failed.
- The comment on `cleanup_failed_start` says that region close can reach quiescence. It does,
  unless a region of the tree has an async finalizer, which only a scheduler could run
  (`AsyncFinalizerStays` gives a start), or a leak panics (`ReservedForNobodyPanics` gives a
  start). A panic takes a policy that asks for it and an obligation that is not held by a task
  at or below its region (`CleanupNeverPanics`, `CarefulStartIsUndone`); `PanicsExactly` says
  when it happens.

## Model

| member | source | states |
|---|---|---|
| BlockLayout.PlanBlocks | patches/asupersync/src/decoding.rs:594-637 | the planning loop, with its wrapping u8 block number and saturating limit, ends for every input (a zero block size included) and yields the closed form `Layout` |
| BlockLayout.LayoutTiles | patches/asupersync/src/decoding.rs:594-637 | whenever planning succeeds the blocks tile the object without gap or overlap, at most 256 of them, numbered 0, 1, 2, ..., all but the last full, each K the rounded-up quotient |
| BlockLayout.LayoutFailsExactly | patches/asupersync/src/decoding.rs:598-617 | planning fails if and only if a size is zero or more than 256 blocks are needed, also where the limit saturates |
| BlockLayout.ValidLayoutExactly | patches/asupersync/src/decoding.rs:639-682 | declared metadata is accepted if and only if the block count is right and the declared K is that of the first block |
| BlockLayout.RequiredAtLeastMinimum | patches/asupersync/src/decoding.rs:684-704 | for every overhead, NaN, infinite and negative included, the threshold is at least K plus the minimum overhead |
| BlockLayout.RequiredMonotone | patches/asupersync/src/decoding.rs:684-704 | the threshold is monotone in K, in a finite overhead and in the minimum overhead |
| BlockLayout.RequiredIsLeast | patches/asupersync/src/decoding.rs:684-704 | the threshold is the least number that is at least K plus the minimum overhead and at least K times a finite overhead, as far as a usize goes; infinite and NaN overheads ask for everything or for the minimum |
| BlockLayout.ScaleIsProduct | patches/asupersync/src/decoding.rs:684-704 | the target that is rounded up is K times the overhead for finite overheads, and NaN or infinite with it |
| BlockLayout.SumSaturatesExactly | patches/asupersync/src/decoding.rs:706-714 | the saturating fold is the exact sum cut off once at the largest usize |
| BlockLayout.SumIgnoresOrder | patches/asupersync/src/decoding.rs:706-714 | that total is the same for every order of the blocks |
| RaptorQ.DecodeBlock | patches/asupersync/src/decoding.rs:717-852 | the loops that build the system, and the error mapping, compute `Decoded` |
| RaptorQ.DecodingKeepsSources | patches/asupersync/src/decoding.rs:741-771 | for every solver whose answers satisfy the equations: K symbols of full size come out, one per ESI, every received source symbol is unchanged at its own ESI, and every source ESI was below K |
| RaptorQ.AllSourcesComeOutInOrder | patches/asupersync/src/decoding.rs:839-851 | with all K source symbols present the output is those symbols in ESI order, whatever repair symbols are mixed in |
| RaptorQ.DecodingInvertsEncoding | patches/asupersync/src/decoding.rs:736-851 | if all received symbols encode the same intermediate symbols, a successful decode returns the first K of those |
| RaptorQ.SourcesDetermine | patches/asupersync/src/decoding.rs:736-783 | with a systematic code, all K source symbols, the padding and the constraints determine the intermediate symbols, whatever repair symbols are mixed in |
| RaptorQ.AllSourcesDecode | patches/asupersync/src/decoding.rs:717-852 | so a solver that answers determined systems makes decoding succeed |
| DecodingPipeline.Pipeline.constructor | patches/asupersync/src/decoding.rs:237-253 | a new pipeline is empty |
| DecodingPipeline.Pipeline.SetObjectParams | patches/asupersync/src/decoding.rs:265-294 | the new state, or an error that leaves the whole state as it was |
| DecodingPipeline.Pipeline.ConfigureBlockK | patches/asupersync/src/decoding.rs:493-501 | each planned block gets its K, capped at u16; nothing else changes |
| DecodingPipeline.Pipeline.TryDecodeBlock | patches/asupersync/src/decoding.rs:503-571 | the new state and the answer for every outcome of the solver |
| DecodingPipeline.Pipeline.Feed | patches/asupersync/src/decoding.rs:297-359 | the refusals in their order, the latched object id, the block entry, duplicates and the buffer limit |
| DecodingPipeline.Pipeline.Store | patches/asupersync/src/decoding.rs:361-395 | what storing a symbol changes, including the early return that leaves a block in Decoding |
| DecodingPipeline.Pipeline.Finish | patches/asupersync/src/decoding.rs:459-491 | the object, or which error |
| DecodingRuns.StepKeeps | patches/asupersync/src/decoding.rs:265-396 | every call keeps the invariant: completed blocks are exactly those in state Decoded and exactly those that hold bytes; buffered symbols carry the one object id and belong to no completed block; completed blocks are not touched |
| DecodingRuns.EveryRunKeeps | patches/asupersync/src/decoding.rs:265-396 | so the invariant holds after every sequence of calls |
| DecodingRuns.DecodedBytesNeverChange | patches/asupersync/src/decoding.rs:341-346 | once a block is completed its bytes never change, and the object id is set at most once |
| DecodingRuns.SymbolsAccountedFor | patches/asupersync/src/decoding.rs:355-366 | over every run, the accepted total is the buffered symbols plus those retired by completed blocks, up to saturation |
| DecodingRuns.StoringTells | patches/asupersync/src/decoding.rs:361-395 | what the answer to a stored symbol tells: Accepted reports the block's true count, a completed block holds the returned bytes and no symbols, a block that cannot be solved yet rests in Decoding, bad metadata fails it |
| DecodingRuns.OneObjectId | patches/asupersync/src/decoding.rs:272-282 | symbols buffered at any two times of a run belong to one object, and so does every layout accepted from then on |
| DecodingRuns.CompletionMeans | patches/asupersync/src/decoding.rs:503-571 | what a completed block was decoded from: its own plan, and only buffered symbols of that block |
| DecodingRuns.FixedLayoutRun | patches/asupersync/src/decoding.rs:553-565 | when only one object size ever takes effect, every completed block is planned and holds exactly its planned number of bytes |
| DecodingRuns.CompleteMeansEveryBlock | patches/asupersync/src/decoding.rs:408-491 | when only one object size ever takes effect, completeness means that every planned block is there and the object has exactly its size |
| DecodingVerdicts.AttemptFollowsSolver | patches/asupersync/src/decoding.rs:503-571 | from the solver's answer to the pipeline's: too few symbols, a singular and a corrupt system leave the whole state alone; a source symbol at or beyond K, bad arity, a bad column and a wrong size fail the block, each with its reason; an answer completes it |
| DecodingVerdicts.NotTried | patches/asupersync/src/decoding.rs:503-519 | without K buffered symbols of a planned block nothing is attempted and nothing changes |
| DecodingVerdicts.FailedExactly | patches/asupersync/src/decoding.rs:361-571 | over every run, a block is Failed if and only if the last attempt that was due on it found a source symbol beyond its K or one of the solver's three answers for malformed input |
| DecodingVerdicts.FaultIsForgottenInARun | patches/asupersync/src/decoding.rs:374-395 | a concrete run in which a block is Failed and, after one more symbol, Decoding, without ever being completed: a fault is not kept |
| DecodingVerdicts.TakenExactly | patches/asupersync/src/decoding.rs:297-359 | a fed symbol is buffered, or used up in completing its block, if and only if its tag is good where tags are checked, its size and object are right, its block is not complete, it is not there yet, and its block is below the limit |
| DecodingVerdicts.AnswersAreTrue | patches/asupersync/src/decoding.rs:297-359 | over every run, what is said to a symbol that is turned away is true of the run: a duplicate was fed before, a full block holds exactly the limit, a decoded block has its bytes, and every buffered symbol belongs to another object |
| DecodingVerdicts.OnlyAuthenticSymbols | patches/asupersync/src/decoding.rs:297-321 | in every reachable state each buffered symbol was fed, with a good tag if tags are checked |
| DecodingVerdicts.BufferStaysWithinLimit | patches/asupersync/src/decoding.rs:347-359 | no block ever has more symbols buffered than the limit |
| DecodingVerdicts.EveryBlockHasItsK | patches/asupersync/src/decoding.rs:493-501 | in every reachable state the symbol set knows the K of every planned block, capped at u16, across any change of layout |
| DecodingVerdicts.TotalAsksForEachBlock | patches/asupersync/src/decoding.rs:706-714 | in every reachable state the total asks of each block exactly what `feed` reports as needed for it |
| DecodingVerdicts.ParamsAcceptedExactly | patches/asupersync/src/decoding.rs:265-294 | which object parameters are accepted, in terms of their numbers alone, which error the others get, and what accepting them leaves unchanged |
| DecodingVerdicts.MissingBlockIsNamed | patches/asupersync/src/decoding.rs:473-482 | when a complete pipeline has no answer, the error names the first planned block without bytes |
| DecodingVerdicts.UnfinishedReports | patches/asupersync/src/decoding.rs:459-471 | what `into_data` reports when it is too early: the symbols taken so far, buffered or used up, and the saturating sum of what the blocks need |
| RoundTrip.CompletedBlockIsASlice | patches/asupersync/src/decoding.rs:503-571 | a block decoded from symbols of an object, under the object's own plan, holds exactly its slice of that object |
| RoundTrip.EveryRunIsFaithful | patches/asupersync/src/decoding.rs:297-396 | over every order, selection and repetition of an object's symbols, with any layouts and any refused calls in between, every block completed under the object's own plan holds its slice |
| RoundTrip.CompleteGivesTheObjectBack | patches/asupersync/src/decoding.rs:297-491 | the end-to-end law: when only the object's symbols are stored and only its size takes effect, whenever the pipeline reports completion `into_data` returns exactly the encoded object |
| RoundTrip.BlocksUnderTheirPlans | patches/asupersync/src/decoding.rs:459-571 | with layouts changing in between: if the last layout is the object's and each block was decoded under the plan it has now, `into_data` returns exactly the object |
| RoundTrip.IntoDataSucceedsExactly | patches/asupersync/src/decoding.rs:459-491 | in every reachable state, layouts changing or not, `into_data` gives an answer if and only if the completed blocks are the planned ones |
| RoundTrip.WholeObjectExactly | patches/asupersync/src/decoding.rs:459-491 | in every reachable state the answer has the declared size if and only if moreover the planned blocks hold at least that many bytes |
| RoundTrip.AnswerCanComeUpShort | patches/asupersync/src/decoding.rs:473-488 | a concrete run with a growing layout whose answer is one byte of a two-byte object |
| RoundTrip.CompletionIsOnlyACount | patches/asupersync/src/decoding.rs:408-413 | a concrete run with a shrinking layout and an exact solver that is complete but has no object |
| DecodingProgress.LastSourceCompletesTheBlock | patches/asupersync/src/decoding.rs:374-382 | in every run under the object's layout, the feed that brings in the last of a block's K source symbols, with the threshold reported, completes the block with its slice of the object |
| Actor.SupervisedConservation | patches/asupersync/src/actor.rs:1050-1127 | over any number of restarts: accepted messages are the deliveries to successive incarnations in FIFO order, then those dropped by an abort, then those left at the end, then the queue; the factory ran once plus once per restart; hooks are in order; the mask depth is raised exactly in on_stop |
| Actor.NeverRedelivered | patches/asupersync/src/actor.rs:1069-1126 | no message is given to two incarnations, so one that caused a panic is not delivered again |
| Actor.CleanRun | patches/asupersync/src/actor.rs:704-798 | a run without panics: on_start once before all handling, on_stop once after it, accepted is handled then dropped, nothing is dropped unless cancellation was seen, the mask depth is restored |
| Actor.UncancelledNeverSees | patches/asupersync/src/actor.rs:763-785 | without abort or region cancellation the drain never drops |
| Actor.CrashlessHasOneIncarnation | patches/asupersync/src/actor.rs:884-905 | without a panic there is one incarnation, and it ends completed |
| Actor.StepKeeps | patches/asupersync/src/actor.rs:704-798 | every single effect of the actor task, a sender, `stop`, `abort` or the supervisor keeps the message account, the hook order and the mask depth |
| Actor.EveryRunKeeps | patches/asupersync/src/actor.rs:704-798 | so every interleaving keeps them |
| ActorProgress.EachRestartMakesOne | patches/asupersync/src/actor.rs:1050-1127 | over every run, the incarnations after the first are as many as the panics that the supervisor answered with Restart, but for one still waiting for the factory, and the factory was called once for each incarnation |
| ActorProgress.StopVerdictIsFinal | patches/asupersync/src/actor.rs:1094-1121 | a panic answered with Stop or Escalate ends the actor as crashed in every continuation: nothing more is delivered and no factory is called |
| ActorProgress.RestartVerdictStartsOver | patches/asupersync/src/actor.rs:1094-1112 | a panic answered with Restart leads to a fresh incarnation, from state Created, with the mailbox, the mask and the cancellation as they are |
| ActorProgress.StartsServing | patches/asupersync/src/actor.rs:704-721 | a new incarnation runs on_start and reaches its loop, Running unless it was stopped before |
| ActorProgress.RoundsServeInOrder | patches/asupersync/src/actor.rs:722-760 | left alone, the loop hands the queued messages to the actor one by one, in order |
| ActorProgress.SendIsAccepted | patches/asupersync/src/actor.rs:216-228 | a sender that gets a free place in an open mailbox has its message queued last and accepted; without a free place it gets none |
| ActorProgress.UnusedPlaceIsFree | patches/asupersync/src/channel/mpsc.rs:584-640 | a place that is given back unused leaves no trace |
| ActorProgress.ClosedTakesNothing | patches/asupersync/src/actor.rs:763-770 | in every continuation a closed mailbox stays closed, hands out no place and accepts nothing |
| ActorProgress.LastSenderEndsTheLoop | patches/asupersync/src/actor.rs:730-752 | the last sender to leave ends the loop once the mailbox is empty; an earlier one changes nothing for the actor or the other senders |
| ActorProgress.ServesUntilDisturbed | patches/asupersync/src/actor.rs:722-760 | over every run in which nobody stops, aborts, cancels, leaves or crashes, the actor stays in its loop, and what it accepted is handled or still queued |
| ActorProgress.CancelledIsGivenNothing | patches/asupersync/src/actor.rs:722-772 | once the loop has seen a cancellation, that incarnation is given nothing more in any continuation |
| ActorProgress.AbortEndsDelivery | patches/asupersync/src/actor.rs:312-322 | so an abort, or a cancelled region, at the head of the loop ends all delivery to that incarnation |
| ActorProgress.CancelReachesThePoll | patches/asupersync/src/actor.rs:730-738 | a cancellation that arrives during the poll ends the loop, unless it is masked and a message waits |
| ActorProgress.WindingDownIsStopping | patches/asupersync/src/actor.rs:761-798 | over every run, from the end of the loop until it has ended the actor is in state Stopping |
| ActorProgress.StopIsNoticed | patches/asupersync/src/actor.rs:730-770 | a stopped actor with an empty mailbox leaves its loop, closes the mailbox and handles nothing more |
| ActorProgress.StopIsGraceful | patches/asupersync/src/actor.rs:259-261 | from `stop` on, with nobody else acting: everything that is queued is handled in order, the mailbox is closed, on_stop runs, and the actor ends as completed in state Stopped |
| ActorProgress.DrainServesInOrder | patches/asupersync/src/actor.rs:773-785 | what is queued when a stopped actor leaves its loop is handed to it in order |
| ActorProgress.EndsStopped | patches/asupersync/src/actor.rs:786-798 | with the mailbox drained, on_stop runs once, the mask returns to where it was, and the state is Stopped |
| Regions.RunSyncStopsAtAsync | patches/asupersync/src/runtime/state.rs:2182-2198 | running the sync finalizers empties the stack if and only if no async finalizer is on it |
| RegionClosing.InnerAdvanceSettles | patches/asupersync/src/runtime/state.rs:2264-2395 | advancing while leaks are handled keeps the tree, and whatever it leaves able to close lies at or above the region |
| RegionClosing.RegionLeaks | patches/asupersync/src/runtime/state.rs:2314-2336 | handling the leaks of a region resolves every obligation of it and of no other, and leaves at most the region and its ancestors able to close |
| RegionClosing.TurnSettles | patches/asupersync/src/runtime/state.rs:2264-2395 | one turn of the advancing loop keeps the tree and everything outside it; unless it goes on with the same region or a leak panics, that region cannot close afterwards |
| RegionClosing.AdvanceSettles | patches/asupersync/src/runtime/state.rs:2264-2395 | advancing a region, leaks and cascade included, removes only regions without an async finalizer, changes nothing outside the tree but the parent's child list, and leaves at most ancestors of the region able to close |
| RegionClosing.CompletedShrinks | patches/asupersync/src/runtime/state.rs:1930-2011 | completing a task of the tree, with what it held, removes it and changes nothing outside the tree |
| ClosingProgress.AdvanceClosesAll | patches/asupersync/src/runtime/state.rs:2264-2395 | advancing the one region that could close leaves none that could anywhere, all the way up, unless a leak panics |
| ClosingProgress.LeaksLetRegionsClose | patches/asupersync/src/runtime/state.rs:1144-1245 | handling leaks, with its re-entrant advances, closes every region that only waited for them |
| ClosingProgress.CompletingClosesAll | patches/asupersync/src/runtime/state.rs:1930-2011 | when a task has ended, no region is left that only waited for it or for what it held |
| ClosingProgress.NothingIsLeftToClose | patches/asupersync/src/runtime/state.rs:1366-2395 | creating, cancelling, ending a task, resolving an obligation, advancing: no step leaves a region that could close, unless a leak panics in it |
| ClosingProgress.SetUpLeavesNothingToClose | patches/asupersync/src/app.rs:161-172 | so no state that a set-up reaches has such a region |
| LeakAccounts.LeaksAreCounted | patches/asupersync/src/runtime/state.rs:1144-1245 | handling leaks counts each of them once, up to saturation, whatever closes meanwhile |
| LeakAccounts.EscalationIsExact | patches/asupersync/src/runtime/state.rs:1144-1245 | an escalating policy changes its response with exactly the leak that reaches the threshold |
| LeakAccounts.UncancelledTaskLeaks | patches/asupersync/src/runtime/state.rs:1930-2011 | a task that ends otherwise than cancelled while it holds obligations leaks them: they are counted, and under the policy that panics on every leak it panics |
| LeakAccounts.ClosingWithChildrenDrains | patches/asupersync/src/runtime/state.rs:2264-2312 | a closing region with children goes to Draining and nothing else changes |
| LeakAccounts.ClosingWithTasksWaits | patches/asupersync/src/runtime/state.rs:2264-2312 | a closing region that only tasks keep open waits as it is |
| LeakAccounts.CancelOnlyBegins | patches/asupersync/src/runtime/state.rs:1844-1862 | a cancel closes nothing by itself: an open region without children, tasks and finalizers is Closing afterwards and still there |
| LeakAccounts.CancelRunsFinalizers | patches/asupersync/src/runtime/state.rs:1651-1866 | after a cancel of the root, no region of the tree that had no children and no tasks is left in Closing with a finalizer to run, unless a leak panicked |
| RegionWalk.WalkTurn | patches/asupersync/src/app.rs:75-86 | one turn of the explicit-stack loop: what is still to be visited after a pop |
| RegionWalk.TreeIsExact | patches/asupersync/src/app.rs:71-89 | the walk visits each region of the tree exactly once, with its true depth, and nothing else |
| RegionWalk.DescendantsComeFirst | patches/asupersync/src/app.rs:123-127 | the deepest-first order has the same regions once each, and everything below a region before it |
| RegionWalk.SortsAreStable | patches/asupersync/src/app.rs:123-127 | both sorts are stable: regions of one depth stay in their order |
| AppCleanup.CancelledKeeps | patches/asupersync/src/runtime/state.rs:1651-1866 | cancelling a region of the tree changes phases of the tree, then only closes |
| AppCleanup.RootClosed | patches/asupersync/src/runtime/state.rs:1684-1755 | cancelling the root starts the close of every region of the tree, whatever phases they are in |
| AppCleanup.EmptiedKeeps | patches/asupersync/src/app.rs:96-115 | completing the start-up tasks leaves no task of the tree |
| AppCleanup.PassSettles | patches/asupersync/src/app.rs:117-128 | one deepest-first pass leaves no region of the tree that could still close |
| AppCleanup.SweptSettles | patches/asupersync/src/app.rs:117-128 | the loop ends, and if the root is still there nothing of the tree could close |
| AppCleanup.CleanupIsExact | patches/asupersync/src/app.rs:90-129 | whatever phases the regions are in, clean-up leaves no task of the tree and exactly those of its regions that have a region at or below them with an async finalizer, unless a leak panics, which needs a policy that asks for it |
| HeldObligations.CleanupNeverPanics | patches/asupersync/src/runtime/state.rs:2314-2336 | under every policy on leaks: when each obligation of the tree is held by a task, not ended uncancelled, at or below its region, and that region is not finalizing, the whole clean-up never panics |
| HeldObligations.AdvanceStaysGuarded | patches/asupersync/src/runtime/state.rs:2264-2395 | advancing keeps every such obligation held that way, and leaks none |
| HeldObligations.CompletedStaysGuarded | patches/asupersync/src/runtime/state.rs:1930-2011 | completing a task that was cancelled, or holds nothing, aborts what it holds, leaks nothing, and keeps the others held |
| AppStart.ApplyIsOk | patches/asupersync/src/app.rs:148-184 | whatever the supervisor does in the tree (regions, tasks, finalizers, reserving, committing and aborting obligations, cancelling, advancing, completing) keeps the tree and everything outside it |
| AppStart.FailedStartRestores | patches/asupersync/src/app.rs:148-184 | for every such set-up that fails: the tasks are those from before `start`, old regions are untouched up to the parent's child list, and the region table is restored if and only if no region of the tree has an async finalizer, and the obligations with it; or a leak panicked, under a policy that asks for it, and, when the set-up leaves every obligation held properly, under no policy at all |
| AppStart.FailedStartWithoutAsync | patches/asupersync/src/supervision.rs:1430-1478 | a set-up that registers no async finalizer, the supervisor's own cancel and advance after a failed child included, leaves regions, tasks and obligations as they were before `start` |
| AppStart.AsyncFinalizerStays | patches/asupersync/src/app.rs:117-128 | one async finalizer on the root is enough to leave the region behind |
| StartSuccess.SuccessRunsTheApp | patches/asupersync/src/app.rs:173-193 | a start that does not fail answers with the new root and the tables exactly as the set-up left them |
| StartSuccess.SuccessfulStart | patches/asupersync/src/app.rs:148-193 | for every set-up that only builds: the root is in the table, open and below its parent; every admitted task is live and every obligation is there; regions, tasks and obligations from before are as they were, but that the parent has the root as one more child |
| StartSuccess.SetUpBuilds | patches/asupersync/src/app.rs:161-172 | such a set-up adds exactly as many regions, tasks and obligations as it has steps that name a region of the tree, and removes nothing |
| StartSuccess.StepAdds | patches/asupersync/src/runtime/region_table.rs:155-202 | what each single step adds, to which list of which region, and that nothing else is issued |
| StartSuccess.ChildAdmittedExactly | patches/asupersync/src/runtime/region_table.rs:155-202 | a child is admitted if and only if its parent exists, is open and has room, and a refusal names the one that fails |
| StartSuccess.WorkAdmittedExactly | patches/asupersync/src/record/region.rs:94-96 | a region takes tasks and obligations unless it is closing or draining, and finalizers only while it is open |
| LeakPanics.OrphanPanics | patches/asupersync/src/runtime/state.rs:1175-1203 | under the policy that panics on every leak, an obligation of the tree without a holder makes the clean-up panic, unless its region is stuck |
| LeakPanics.PanicsExactly | patches/asupersync/src/runtime/state.rs:1144-1245 | when each obligation of the tree is held properly or is an orphan of a region that is not stuck, the clean-up panics under that policy if and only if there is an orphan |
| LeakPanics.ReservedForNobodyPanics | patches/asupersync/src/app.rs:148-184 | one obligation reserved for a task that is gone is enough to make the failed start panic under that policy |
| CarefulStart.SetUpStaysGuarded | patches/asupersync/src/app.rs:161-172 | a set-up that reserves only for tasks at or below the region, and ends tasks that hold something only as cancelled, does not panic and leaves every obligation held properly |
| CarefulStart.CarefulStartIsUndone | patches/asupersync/src/app.rs:148-184 | for every policy: a careful set-up that fails never panics, its tasks are gone, and without async finalizers regions, tasks and obligations are in the end what they were before `start` |
| CarefulStart.NoReserveIsCareful | patches/asupersync/src/app.rs:148-184 | a set-up that reserves no obligation is careful, whatever else it does |
| Runtime.RuntimeState.AdvanceRegionState | patches/asupersync/src/runtime/state.rs:2264-2395 | the loop over the current region ends and computes `Advance`, and `InnerAdvance` when it is called while leaks are being handled |
| Runtime.RuntimeState.AdvanceOnce | patches/asupersync/src/runtime/state.rs:2267-2392 | the body of that loop: draining, finalizers, leaks and closing in their order, with the region to go on with |
| Runtime.RuntimeState.HandleObligationLeaks | patches/asupersync/src/runtime/state.rs:1144-1245 | with the re-entrancy guard: a nested call does nothing, the outer one resolves every leak under each policy, and panics under one |
| Runtime.RuntimeState.ResolveObligation | patches/asupersync/src/runtime/state.rs:1366-1481 | marking or aborting an obligation removes it and advances its region |
| Runtime.RuntimeState.TaskCompleted | patches/asupersync/src/runtime/state.rs:1930-2011 | what the task still held is handled as leaked or aborted, the task leaves the table and its region, and the region is advanced; an unknown task changes nothing |
| Runtime.RuntimeState.CollectRegionTree | patches/asupersync/src/app.rs:71-89 | the explicit-stack loop ends and returns the pre-order of the tree |
| Runtime.RuntimeState.CancelRequest | patches/asupersync/src/runtime/state.rs:1651-1866 | both passes over the collected regions compute `Cancelled` |
| Runtime.RuntimeState.CleanupFailedStart | patches/asupersync/src/app.rs:90-129 | the whole clean-up, with its loop bounded by the falling region count, computes `CleanedUp` |
| Runtime.RuntimeState.CreateChildRegion | patches/asupersync/src/runtime/region_table.rs:155-202 | the new child under its open parent, or which of three errors with nothing changed |
| Runtime.RuntimeState.Start | patches/asupersync/src/app.rs:148-184 | creating the root, the set-up as far as it gets, and cleaning up on failure compute `Started` |
| SilenceDetector.Detector.constructor | src-tauri/src/transcription.rs:39-57 | the derived frame counts and limits; an empty detector that satisfies the invariant |
| SilenceDetector.Detector.TakeBuffer | src-tauri/src/transcription.rs:101-107 | the buffer is handed out and all counters are reset |
| SilenceDetector.Detector.Push | src-tauri/src/transcription.rs:60-87 | the in-place loop computes `AfterPush` |
| SilenceDetector.Detector.Flush | src-tauri/src/transcription.rs:89-99 | `AfterFlush`; the detector is empty afterwards either way |
| SilenceDetector.ScanIsExact | src-tauri/src/transcription.rs:66-85 | the incremental scan finds a boundary if and only if a direct computation on the buffer finds one; otherwise its counters are exact and less than a frame is unread |
| SilenceDetector.PushIsExact | src-tauri/src/transcription.rs:60-87 | a push returns the whole buffer if and only if it is full or an utterance ends in it, and re-establishes the invariant |
| SilenceDetector.PushGranularity | src-tauri/src/transcription.rs:60-87 | if push(a) gives nothing, push(a) then push(b) equals push(a ++ b) in result and state |
| SilenceDetector.AnyCutIsOnePush | src-tauri/src/transcription.rs:60-87 | any number of pushes that give nothing, and one more, act as one push of everything |
| SilenceDetector.LoudSamplesIsFrameSizeTimesLoudFrames | src-tauri/src/transcription.rs:71-78 | the speech counter is the frame size times the number of loud frames |
| SilenceDetector.RunConserves | src-tauri/src/transcription.rs:60-107 | over every run of pushes and flushes, emitted, discarded and buffered samples are the input in order, the buffer stays below its limit, and every chunk obeys the size and speech limits |
| SilenceDetector.StopIdiomEmpties | src-tauri/src/lib.rs:111 | push-or-else-flush always leaves the detector empty, and loses audio only when it held too little speech |
| Recorder.AudioRecorder.Start | src-tauri/src/audio.rs:39-85 | the rate is stored even when the stream then fails; the buffer is not touched |
| Recorder.MixDown | src-tauri/src/audio.rs:99-106 | the loop over chunks computes one mean for each frame, the last one possibly incomplete |
| Recorder.AudioRecorder.PushMono | src-tauri/src/audio.rs:99-108 | a callback appends the mixed-down frames, as the dictation protocol assumes |
| Recorder.DownmixAppends | src-tauri/src/audio.rs:99-108 | callbacks that deliver whole frames can be cut anywhere between frames |
| Recorder.DownmixUndoesSpread | src-tauri/src/audio.rs:103-105 | mixing down undoes playing a mono signal on every channel |
| Recorder.OneValueAFrame | src-tauri/src/audio.rs:99-108 | a callback yields one value for each frame, counting an incomplete last one |
| Recorder.EachSampleMovesItsFrame | src-tauri/src/audio.rs:99-108 | every sample counts for its own frame only, with one share in the number of channels, in whole and incomplete frames alike |
| Recorder.SilenceStaysSilent | src-tauri/src/audio.rs:99-108 | zeros mix down to zeros, which with the law above determines every value |
| Dictation.EverySampleIsAccountedFor | src-tauri/src/lib.rs:78-135 | in every interleaving, the samples captured in a session are, in order, the chunks sent or dropped, then what the flush discarded, then the tail cleared by `stop`; every chunk has its session's rate and routing, no item is shared, only the starting source ends a session |
| Dictation.NothingLostMidSession | src-tauri/src/lib.rs:558-581 | while recording, captured samples are those offered to the worker, held by the detector, drained but not pushed, and still in the recorder, in that order |
| Dictation.StepKeeps | src-tauri/src/lib.rs:185-259 | every action of callback, poll thread and handlers keeps the account of all samples and the lock discipline |
| Dictation.PushedKeeps | src-tauri/src/lib.rs:574-579 | a poll tick keeps the account whether the detector emits a chunk, which may be dropped, or not |
| Dictation.ReleasedKeeps | src-tauri/src/lib.rs:107-115 | so does a stop handler that pushes or else flushes |
| DictationProgress.TickBegins | src-tauri/src/lib.rs:558-568 | the poll thread gets in exactly when it is idle, nobody else is in, and a session records |
| DictationProgress.TickMovesTheAudio | src-tauri/src/lib.rs:558-581 | a poll tick adds exactly what the recorder held, in order, to what was sent or is held by the detector, leaves the recorder with exactly what callbacks brought meanwhile, and frees the lock |
| DictationProgress.TickSendsUtterances | src-tauri/src/lib.rs:574-579 | if an utterance ends in what the detector then has, or it is full, this tick offers all of it to the worker with the rate and routing of the session |
| DictationProgress.LimitsInTime | src-tauri/src/lib.rs:92 | at every device rate: frames of 20 ms, an utterance ends after 300 ms of silence with at least 300 ms of speech, and the buffer is full at ten seconds, each rounded down to whole samples |
| DictationProgress.StartRecords | src-tauri/src/lib.rs:78-98 | from rest, a press starts a session of that source at the rate of the device, with an empty recorder and an empty detector |
| DictationProgress.FailedStartRecordsNothing | src-tauri/src/lib.rs:82-92 | when the device fails nothing is started; at most its rate stays behind |
| DictationProgress.StopEndsTheSession | src-tauri/src/lib.rs:100-135 | a stop by the starting source ends the session: what detector and recorder held is sent as one last chunk unless it holds too little speech, and the stream and all buffers are gone |
| DictationProgress.OtherSourceIsIgnored | src-tauri/src/lib.rs:185-217 | a press of the other source while a session records changes nothing |
| DictationProgress.EveryCallbackIsCaptured | src-tauri/src/audio.rs:93-108 | over every run, what a session has captured is exactly what the callbacks of its stream brought, mixed down |
| Resampler.LowPassFilter | src-tauri/src/transcription.rs:220-257 | the kernel loop fills the 63 taps and the result is the convolution with the normalised kernel |
| Resampler.LengthIsExact | src-tauri/src/transcription.rs:205 | the output has floor(n * 16000 / rate) samples |
| Resampler.IndexInRange | src-tauri/src/transcription.rs:207-212 | every index is inside the signal, so the default of zero is never used |
| Resampler.OutputsAreConvex | src-tauri/src/transcription.rs:206-215 | every output is a convex combination of two adjacent filtered samples |
| Resampler.ConstantPassesFilter | src-tauri/src/transcription.rs:220-257 | a constant passes the normalised filter unchanged 31 samples away from both ends |
| Resampler.ConstantIsResampled | src-tauri/src/transcription.rs:192-216 | so a constant is resampled to itself, everywhere when the rate goes up |
| Resampler.ResamplingIsLinear | src-tauri/src/transcription.rs:192-216 | resampling a weighted mix of two signals gives the mix of the resampled signals |
| Resampler.UpsamplingKeepsSamples | src-tauri/src/transcription.rs:192-216 | from a rate that divides 16000 by m, every m-th output is an input sample |
| ResamplerRamps.KernelIsSymmetric | src-tauri/src/transcription.rs:220-240 | with an odd sine and a cosine of period two pi the kernel is symmetric |
| ResamplerRamps.EndsAndCentre | src-tauri/src/transcription.rs:220-240 | the window closes the kernel at both ends, and its centre is twice the cutoff |
| ResamplerRamps.ImpulseGivesTheKernel | src-tauri/src/transcription.rs:241-256 | the filter answers one sample with its kernel, centred on that sample |
| ResamplerRamps.RampPassesFilter | src-tauri/src/transcription.rs:220-257 | a ramp passes every symmetric kernel unchanged 31 samples away from both ends |
| ResamplerRamps.RampIsResampled | src-tauri/src/transcription.rs:192-216 | a ramp is resampled to itself at the new rate: output i is its value at time i * rate / 16000, for every rate but 16000 itself, away from the edges of the filter |
| ResamplerRamps.LastSampleIsHeld | src-tauri/src/transcription.rs:206-215 | when the rate goes up, outputs after the last sample hold it |
| ResamplerRamps.LeftAlone | src-tauri/src/transcription.rs:192-195 | audio at 16000 Hz, and audio with rate zero, is returned unchanged |
| ResamplerRamps.KeptSampleStaysAlone | src-tauri/src/transcription.rs:196-216 | the cutoff is half the new rate: from a multiple of 16000, with a sine that vanishes at the multiples of pi, one sample at a kept position reaches only its own output |
| VoiceDb.Connection.constructor | src-tauri/src/voice_db.rs:79-107 | an empty store is consistent |
| VoiceDb.Connection.DeleteSession | src-tauri/src/voice_db.rs:177-186 | full-text rows, session and child rows go together or, whichever statement fails, not at all |
| VoiceDb.Connection.InsertSegment | src-tauri/src/voice_db.rs:216-234 | a segment and its full-text row are added together or not at all; an absent session is refused |
| VoiceDb.Connection.Sweep | src-tauri/src/lib.rs:588-594 | the start-up loop computes `Swept` |
| VoiceDb.DeleteKeeps | src-tauri/src/voice_db.rs:136-186 | deleting keeps the full-text table in step and leaves no row of the session anywhere |
| VoiceDb.InsertKeeps | src-tauri/src/voice_db.rs:216-234 | inserting adds one row to both tables or to neither |
| VoiceDb.InsertsExactly | src-tauri/src/voice_db.rs:216-234 | a segment is stored if and only if no statement fails, no stored segment has its id, and its session exists; then it and its full-text row come last, and otherwise nothing changes |
| VoiceDb.OthersKeep | src-tauri/src/voice_db.rs:163-250 | creating, finishing, a status change and notes keep the tables consistent, whichever statement fails |
| VoiceDb.WritesExactly | src-tauri/src/voice_db.rs:163-250 | when creating, finishing, a status change and notes succeed, and what each makes of every row |
| VoiceDb.SweepIsExact | src-tauri/src/lib.rs:588-594 | the sweep closes exactly the listed unfinished sessions whose write does not fail |
| VoiceDb.SweepFinishesSmallStores | src-tauri/src/voice_db.rs:269-286 | with at most 200 sessions and no failing write no session stays unfinished |
| Meeting.StepKeeps | src-tauri/src/meeting.rs:68-231 | every step of a command, thread, deletion or restart keeps the invariant, and changes a status only as its action may: a stop from recording to processing, the end of a thread from processing to complete or error, a restart from unfinished to error; a new row is recording |
| Meeting.SearchIndexInStep | src-tauri/src/meeting.rs:277-287 | in every reachable state, with failing statements and threads inserting during a deletion, the full-text rows are those of the segments and every row's session exists |
| Meeting.ActiveIsRecording | src-tauri/src/meeting.rs:68-103 | the one active meeting has its row in status recording, and no thread or deletion works on it |
| Meeting.UnfinishedIsWorkedOn | src-tauri/src/meeting.rs:106-133 | a session that is not finished is held, has a thread, or was stranded by a failed write or a restart |
| Meeting.NoStatusIsSkipped | src-tauri/src/meeting.rs:106-231 | over every run, a session that is processing or complete was recording and then processing, in this order, after earlier parts of the run; one in error was recording |
| Meeting.HistoryOnlyMovesForward | src-tauri/src/meeting.rs:202-231 | over every run, a status never moves back, and a session that is gone stays gone |
| Meeting.FinalStaysAndDeletedStaysAway | src-tauri/src/meeting.rs:164-185 | complete and error are final, and a deleted session never reappears |
| Meeting.LateThreadWritesNothing | src-tauri/src/meeting.rs:202-231 | a transcription thread whose session was deleted changes nothing in the store |
| MeetingProgress.StartRecords | src-tauri/src/meeting.rs:68-103 | a start from rest makes the new session the active one, with a row in status recording, and changes nothing else |
| MeetingProgress.OneAtATime | src-tauri/src/meeting.rs:68-72 | while a meeting is active, or a start or a stop is under way, no other can start |
| MeetingProgress.FailedStartLeavesNothing | src-tauri/src/meeting.rs:93-96 | a start whose insertion fails leaves the store and the active meeting as they were |
| MeetingProgress.StopProcesses | src-tauri/src/meeting.rs:106-133 | a stop leaves no active meeting, its session processing with its end and duration, and one more thread |
| MeetingProgress.FailedStopStrands | src-tauri/src/meeting.rs:106-133 | a stop whose write fails leaves the session recording with nothing working on it |
| MeetingProgress.TranscriptIsStored | src-tauri/src/meeting.rs:202-231 | without faults, segments with distinct new ids are all stored, in order and after what was there, each with its full-text row |
| MeetingProgress.ThreadCloses | src-tauri/src/meeting.rs:202-231 | the end of a thread makes its session complete or, after a failure, error, and touches no other row |
| MeetingProgress.DeleteDeletes | src-tauri/src/meeting.rs:164-185 | a session that is not active is deleted from all tables, and nothing of any other session is |
| MeetingProgress.ActiveIsNotDeleted | src-tauri/src/meeting.rs:164-172 | the active session is not deleted |
| MeetingProgress.NotesAreStored | src-tauri/src/voice_db.rs:238-250 | notes are stored for a session that exists and refused for one that does not |
| MeetingProgress.WholeMeeting | src-tauri/src/meeting.rs:68-231 | start, stop, any transcript and the end of the thread, without faults: the meeting is complete in the store with exactly its segments, its end and its duration, and everything else is as before |

## Left out

- Inside of the solver and its code tables: `InactivationDecoder` is assumed sound (its answer satisfies the equations it was given) and, for the round trip, exact (it is the only answer). Its panic on a K outside the table of section 5.6 of RFC 6330 is not modelled.
- The encoder: an encoding is described by what it has to satisfy, not computed.
- Authentication tags are a free answer of good or bad; progress and status reports of the pipeline are not modelled.
- Symbol set: memory budgets (the pipeline sets none) and the threshold formula, which is a free answer because `try_decode_block` counts the symbols itself.
- BlockLayout.RequiredMonotone: finite overheads are real numbers, so rounding of the f64 product is not modelled.
- Actor, Dictation and Meeting are state machines on values rather than classes: what matters in them is the interleaving, which one method body cannot show. Aliasing through shared handles is therefore not captured.
- Actor: `join` and its one-shot channel, timers, tracing, the backoff sleep, and panics of the factory are not modelled; nor is user code that changes the mask depth itself.
- The evicting sends of the channel: the actor handles do not use them.
- Regions: outcomes, cancel reasons, budgets, wakers, close notifications, heaps, and the bookkeeping of finalizing and recently closed regions. A leak that is found while the thread is already panicking is not modelled.
- Runtime.RuntimeState.Start: the supervisor and the children it starts act inside the app's tree only. Task and obligation limits of a region, the application handle and the registry are not modelled.
- LeakPanics.PanicsExactly: does not decide the panic for an obligation whose holder exists but ended uncancelled or works outside the region, or whose region is already finalizing or stuck; whether such an obligation leaks depends on the order in which regions close.
- DecodingProgress.LastSourceCompletesTheBlock: assumes a solver that answers every system with exactly one solution, and a code whose first K' columns determine the rest.
- Ids of regions, tasks and obligations are creation numbers, never reused; in the arenas they are an index with a generation.
- Dictation: the worker that receives the chunks, the overlay and tray, and poisoned locks. Handlers are serialised, as the recorder requires; rates are from 50 Hz up to where the detector's u32 products would overflow.
- SilenceDetector.Detector.constructor: u32 overflow of the products is excluded, as is the debug assertion on a zero rate.
- Recorder.AudioRecorder.Start: the device is a parameter, and the conversion from integer sample formats is not modelled. A channel count of zero, on which the code panics, is excluded.
- Resampler.LowPassFilter: f32 and f64 rounding; a kernel that sums to zero, by which the code would divide, is excluded.
- VoiceDb: tokenisation and ranking of the full-text search, the read queries apart from the listing, and schema migration. SQLite is taken to enforce foreign keys and atomic transactions.
- Meeting: ffmpeg and the WAV file, events to the front end, the cutting of the recording into chunks, and the AI summary. Session ids are fresh.
- Everything outside these four parts: user interface, windows, keychain, HTTP, configuration tables.
