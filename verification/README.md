# agentswap, modelled and proved

agentswap relays requests of coding agents through a pool of accounts, and moves sessions between agents. This
project models the two parts of it whose comments promise most and proves those promises for all inputs, all runs
and all interleavings.

**The request engine and its store** (`internal/engine`, `internal/store`). `EngineRun` is one iteration of
`Engine.Execute` as a function of the state and of one `Input`: what the clock, the upstream, the lane and the
caller did meanwhile. `Engine` is the loop itself, a class over mutable fields, proved to follow that function;
`EngineTheorems`, `EngineSpin`, `EngineSafety` and `EngineReplies` speak of whole runs. `Store` is the pool with its
file, `PoolLocks` its two locks as a state machine over single steps, `Refresh`, `RefreshExact` and `RefreshProgress`
the single-flight token exchange on top of that state machine, and `Probe` the goroutine that samples a response while
relaying it.

**The canonical session** (`internal/session`). `Conversation` is the check of an event stream, `StreamLaws` what that
check means for the stream as a whole. `Reduction`, `Archive`, `MediaHome`, `Collapse`, `Compact` and `CompactEstimate`
are the compaction ladder, `ArchiveFiles` the names of the files it leaves; `Codex*` and `Claude*` two writer and reader
pairs, of which `CodexNative` and `ClaudeNative` treat what the agents themselves record; `Branches`, `CodexTree`,
`CodexLinks` and `CodexTreeRoundTrip` the forests of delegated runs; `Remap` the renaming of their ids; `Config*` and
`Toml*` the printer and parser of agent definitions, `*ByHand` those that people write; `NaturalOrder` the order on ids.
`MediaUrl` is base64 and data URLs; `Basics`, `Text` and `Selection` are shared by the rest.

Code that works by changing things is a method or a class with loops, proved against a specification function; the
theorems are lemmas about those functions. Where a promise turned out not to hold of every input, the lemma states
exactly when it does, and a concrete counterexample stands beside it.

## What the proofs turned up

- With `RotateAfter == 1` and parking on, an unreachable upstream is retried without bound and without a wait
  (`EngineSpin.RotateAfterOneSpins`). With an initial overload delay of at least two nanoseconds any larger value rules
  that out (`EngineSpin.NoBusyLoopExactly`), unless a throttle names no wait (`EngineSpin.ThrottlesMustWait`); with
  overload delays capped at one nanosecond, which jitter may round to none, nothing does (`EngineSpin.DelaysMustCount`).
- Backoff exceeds its cap by up to half, because jitter is applied after the cap: a minute becomes seventy-five seconds
  (`EngineRun.SeventhRetryOverCap`), and only a cap of two nanoseconds or less is safe (`EngineRun.CapHoldsExactly`).
- A token update whose write fails leaves memory ahead of the file, and a reload takes it back
  (`PoolLocks.FailedWriteIsTakenBack`, `PoolLocks.ReloadTakesBackExactly`); a caller that still holds the old access
  token then presents the refresh token that the update had retired (`RefreshExact.RetiredTokenReturnsExactly`).
- A caller whose token was refused can join a call that was led with an older copy, and is handed the refused token
  back (`Refresh.JoinerMayGetItsOwnTokenBack`), exactly when callers may hold both (`RefreshExact.OwnTokenBackExactly`).
- Media that alone answer one call but stand in two events make the stripping rungs produce an invalid session, and
  `Compact` fails (`Compact.CompactSession`, `Compact.SpreadIsUntransferable`).
- A tool result recorded in two parts of one event is written to Codex as two outputs, which read back as a duplicate
  result (`CodexValid.TwoPartResultComesBackRefused`). Media by which an assistant message answers a call lose that
  call in both formats (`CodexValid.AssistantAnswerLosesItsCall`, `ClaudeValid.AssistantAnswerLosesItsCall`).
- Media whose type holds a comma are written to Codex as a data URL that no reader can decode, so a message of nothing
  else comes back as nothing (`CodexLoss.NothingComesBack`), and a delegated run of nothing else is not listed, nor is
  anything below it (`CodexTreeRoundTrip.ReadWrittenTree`).
- An assistant text that proposes an empty plan comes back from Claude records as a plan event that validation refuses
  (`ClaudeValid.EmptyProposalComesBackRefused`), so does the result of a call made inside a plan
  (`ClaudeValid.PlanCallComesBackRefused`), and a remote image comes back as application/octet-stream
  (`ClaudeValid.RemoteImageLosesItsType`).
- Definitions with an empty key, or with a null inside a list, do not survive being printed as TOML
  (`TomlRoundTrip.EmptyNameIsRefused`, `TomlRoundTrip.NullInListIsRefused`, `TomlRoundTrip.DefinitionReturns`).
- The counter that keeps the files of an archive apart is kept under the new name, so a third file of one name, such as
  the third long text of one message, replaces the second, whose note then names the wrong text
  (`ArchiveFiles.DistinctExactly`, `ArchiveFiles.SecondOfThreeIsLost`).
- In agent definitions a list over several lines makes the whole file unreadable when a comment stands behind its closing
  bracket (`TomlByHand.CommentBehindBracketIsRefused`), or when it ends in a list without a comma
  (`TomlByHand.ListLinesExactly`); a multi-line string may not end in its own quote (`TomlByHand.OnLinesExactly`).
- In `truncateWithMarker` the guard against eliding nothing can never fire: opening and closing never overlap
  (`Reduction.TruncateKeepsEnds`).

## Model

| member | source | states |
|---|---|---|
| `Selection.SelectIsChoice` | internal/engine/select.go:26-65 | On every pool with unique ids the choice is an enabled, problem-free, untried, available account; undrained if any usable account is; the sticky one if it is in that pool, else the first by subscription, priority and id; nothing exactly when no account is usable |
| `Selection.ChoiceUnique` | internal/engine/select.go:26-65 | That promise leaves at most one answer |
| `Selection.SelectIgnoresStoredOrder` | internal/store/store.go:193-218 | Two stores holding the same accounts in different orders lead to the same choice |
| `Selection.RankRanked` | internal/store/store.go:207-216 | The ranking used for the pool is sorted by the preference order |
| `Selection.LaneMembers` | internal/store/store.go:197-206 | The lane's pool holds exactly its enabled accounts without a problem |
| `EngineRun.JitteredBound` | internal/engine/engine.go:444-456 | Backoff is never negative and stays below one and a half times the cap, because jitter comes after the cap |
| `EngineRun.WithinLimitExactly` | internal/engine/engine.go:444-456 | Jitter leaves a delay within a limit, whatever its draw, if and only if three times the delay is at most twice the limit and two |
| `EngineRun.CapHoldsExactly` | internal/engine/engine.go:444-456 | Every backoff of a valid configuration stays within the cap if and only if the cap is at most two nanoseconds |
| `EngineRun.SeventhRetryOverCap` | internal/engine/engine.go:444-456 | With the default second and minute the seventh retry may wait for seventy-five seconds |
| `EngineRun.BackoffDoubles` | internal/engine/engine.go:444-456 | The first delay is the configured one and each is twice the one before, up to the cap |
| `Engine.Executor.Execute` | internal/engine/engine.go:158-364 | The retry loop over mutable fields: which lanes are unknown or empty, and otherwise the trace and final state of the run of the given inputs |
| `Engine.Executor.TryAccount` | internal/engine/engine.go:202-362 | One send with the chosen account, and everything that follows from the reply |
| `Engine.Executor.OnRefusal` | internal/engine/engine.go:288-322 | A refused credential: mark invalid, or renew and retry, or give up, leaving exactly the stated state |
| `Engine.Executor.OnOverload` | internal/engine/engine.go:324-343 | An overload or a transport failure: back off, or set the account aside after `RotateAfter` in a row |
| `Engine.Executor.OnReply` | internal/engine/engine.go:260-362 | Dispatch on what the lane makes of the response |
| `Engine.Executor.ParkRequest` | internal/engine/engine.go:393-419 | Parking: fail if nothing recovers or the hold is too long, else sleep and start a new round |
| `Engine.Executor.WhyUnusable` | internal/engine/engine.go:371-389 | The error that explains why a lane could not serve |
| `Engine.Executor.SelectAccount` | internal/engine/select.go:26-65 | The loop over the ranked pool returns the choice characterised above |
| `Engine.Executor.NextAvailable` | internal/engine/select.go:87-103 | The running minimum over recoveries |
| `Engine.Executor.Accounts` | internal/store/store.go:193-218 | Filtering and sorting give the ranked pool of the lane |
| `Engine.Executor.BackoffDelay` | internal/engine/engine.go:444-456 | The doubling loop computes the capped, jittered delay, within its real bound |
| `EngineTheorems.StepKeeps` | internal/engine/engine.go:180-363 | Every iteration keeps the invariant, moves the clock forward only, keeps the lane's membership, and touches nobody's health or refusal count but those of the account it picked, which was eligible |
| `EngineSpin.NoBusyLoop` | internal/engine/engine.go:180-363 | In every run, with positive throttle waits, an initial overload delay of at least two nanoseconds and `RotateAfter >= 2` or parking off, the iterations that read the clock as one instant send at most n*(A+1)+2 requests |
| `EngineSpin.StepPays` | internal/engine/engine.go:180-363 | Under the same conditions, every iteration that ends nothing and during which the clock stands still lowers a measure by what it sends |
| `EngineSpin.RotateAfterOneSpins` | internal/engine/engine.go:216-234 | With `RotateAfter == 1` and parking on, an unreachable upstream is retried any number of times at one instant |
| `EngineSpin.NoBusyLoopExactly` | internal/engine/engine.go:180-363 | So the condition on rotation is exact, wherever the initial overload delay is at least two nanoseconds: the bound holds over all runs if and only if `RotateAfter >= 2` or parking is off |
| `EngineSpin.DelaysMustCount` | internal/engine/engine.go:444-456 | A condition on the delays is needed too: with an overload cap of one nanosecond every delay may be jittered to nothing, and then the only account of a lane is retried any number of times at one instant, whatever else is configured |
| `EngineSpin.ThrottlesMustWait` | internal/engine/engine.go:344-350 | The hypothesis on throttles is needed too: under every configuration a throttle that names no wait lets requests be sent without bound at one instant |
| `EngineSafety.NextRecoveryExact` | internal/engine/select.go:87-103 | The reported recovery is the first instant at which some lane account is available; there is none exactly when all are invalid |
| `EngineSafety.RejectedExact` | internal/engine/engine.go:371-389 | The rejection lists exactly the invalid accounts, each with its kind, its name and whether it can be renewed, all of them when all are invalid |
| `EngineSafety.ParkDecides` | internal/engine/engine.go:393-439 | A park that waits sleeps to the earliest recovery plus min(buffer, wait), never over `MaxHold`; it refuses only when no account is available and that is too long, and reports rejection only when all are invalid |
| `EngineSafety.StepDecides` | internal/engine/engine.go:186-200 | An iteration uses an eligible account, or parks because there is none |
| `EngineSafety.EndingsAreTrue` | internal/engine/engine.go:371-419 | Over whole runs: what an ending says of the pool is true of the pool the run leaves behind |
| `EngineSafety.ParkThenPick` | internal/engine/engine.go:186-200 | However long a park oversleeps, the next selection finds an account |
| `EngineSafety.StaysAvailable` | internal/store/health.go:45-72 | An account available at one instant stays available at later ones |
| `EngineSafety.ExhaustionHolds` | internal/engine/engine.go:550-560 | An account marked exhausted is not picked before its recorded reset, which lies ahead, can be picked from then on, and nobody else is affected |
| `EngineSafety.SuccessSticks` | internal/engine/engine.go:519-529 | After a success a later request of the same conversation, while stickiness lasts, goes to the same account if and only if that is not drained or every usable account is |
| `EngineSafety.ExhaustedStaysOut` | internal/engine/engine.go:550-560 | In every run an exhausted account is not picked before its recorded reset |
| `EngineSafety.InvalidStaysOut` | internal/engine/engine.go:562-568 | In every run an account marked invalid is never picked again |
| `EngineSafety.RotationIsRespected` | internal/engine/engine.go:352-358 | In every run, after a lane rotates away from an account the recorded reset lies strictly ahead and the account is not sent to before it |
| `EngineSafety.RefusalsAreBounded` | internal/engine/engine.go:288-322 | In every run an account is refused at most A+1 times, an API key at most once |
| `EngineReplies.RunIsTold` | internal/engine/engine.go:180-363 | Over whole runs: each account, its health, its refusals and whether it was set aside are what its own replies, in order, have made of it, whoever else was tried meanwhile; the streak of overloads and the attempts are counted from the replies |
| `EngineReplies.EveryReplyIsTold` | internal/engine/engine.go:260-362 | Over whole runs: the account each iteration uses is the one its history left, it is asked for renewal exactly when that is due, and how the iteration ends and what it waits for follow from the reply, the streak and the refusals so far |
| `EngineReplies.OverloadsRotate` | internal/engine/engine.go:324-343 | When overloads on one account of several fill the streak, each but the last waits its backoff, the last waits for nothing, and the next request does not go to that account but to another if any can be used |
| `EngineReplies.LoneAccountBacksOff` | internal/engine/engine.go:324-343 | The only account of a lane is never walked away from: each overload waits its backoff, longer and longer, and the next request goes to the same account |
| `EngineReplies.ThrottleIsRespected` | internal/engine/engine.go:344-350 | An account told to hold is waited for, and in the rest of the run is not used before that time has passed since the request |
| `EngineReplies.ServedSticks` | internal/engine/engine.go:519-529 | After a run that ended served, a later request of the same conversation goes to the account that served it while stickiness lasts, unless it is nearly spent while another is not; after that nothing is preferred |
| `Store.ValidateAccounts` | internal/store/store.go:146-166 | Accepts exactly the pools whose accounts can be addressed; a fault names the first offender |
| `Store.Pool.constructor` | internal/store/store.go:52-74 | A store that has loaded nothing holds no account and no health |
| `Store.Pool.Upsert` | internal/store/store.go:246-277 | Replaces or appends; memory, file, error and validity in every case |
| `Store.Pool.UpdateAccount` | internal/store/store.go:291-312 | Changes one account; memory, file, error and validity in every case, and field by field what a renewal, an edit and a profile leave of the account |
| `Store.Pool.Remove` | internal/store/store.go:326-348 | Removes one account and its health; memory, file, error and validity in every case |
| `Store.Pool.Reload` | internal/store/store.go:491-527 | Adopts an addressable file and names the accounts that sign in differently; otherwise changes nothing |
| `Store.Pool.Get` | internal/store/store.go:232-241 | The first account with the id |
| `Store.UpsertIsMapUpdate` | internal/store/store.go:246-277 | On unique ids, `Upsert` is an update of the map from ids to accounts |
| `Store.UpdateIsMapUpdate` | internal/store/store.go:291-312 | On unique ids, `UpdateAccount` updates one entry of that map, each field as the change says and no other: a renewal stores the access token, the refresh token and the expiry, or keeps the expiry where none is named |
| `Store.RemoveIsMapRemoval` | internal/store/store.go:326-348 | On unique ids, `Remove` takes one entry out of that map |
| `Store.DifferingExactly` | internal/store/store.go:491-527 | The accounts a reload reports are exactly those whose next request signs in with something the pool did not hold |
| `PoolLocks.FileAgreesWhenFree` | internal/store/store.go:246-348 | In every interleaving of store operations, with no failed write outstanding, file equals memory whenever `writeMu` is free, and ids stay unique |
| `PoolLocks.PoolIsItsLedger` | internal/store/store.go:246-348 | In every interleaving, failed writes included: the file is what the changes up to the last successful write leave, memory what those and the ones since leave |
| `PoolLocks.ReloadTakesBackExactly` | internal/store/store.go:491-527 | A reload takes back exactly the changes since the last successful write, and changes nothing if and only if those leave the pool as it was written |
| `PoolLocks.EveryChangeStands` | internal/store/store.go:491-527 | As long as no reload finds a failed write outstanding, the changes that stand are all that were made, in order: none is reverted |
| `PoolLocks.AdoptChangesNothing` | internal/store/store.go:491-527 | A reload inside a run without failed writes adopts what memory already holds |
| `PoolLocks.FailedWriteIsTakenBack` | internal/store/store.go:291-312 | A concrete run in which an update whose write failed changes memory and is undone by a reload |
| `PoolLocks.NobodyIsStuck` | internal/store/store.go:246-348 | Whoever is inside an operation, some thread can take a step |
| `PoolLocks.HolderGetsOut` | internal/store/store.go:246-348 | Every step of the holder of `writeMu` brings its release closer |
| `Refresh.NeverSpendsTwice` | internal/engine/refresh.go:36-93 | In every interleaving of any number of callers with edits, removals and reloads: each exchange presents the refresh token its predecessor left, none presents a retired one, and one stale access token causes at most one exchange |
| `Refresh.ChainNeverRepeats` | internal/engine/refresh.go:65-93 | In any such chain no retired token and no stale access token comes twice |
| `Refresh.OneExchangeForAll` | internal/engine/refresh.go:36-93 | Callers that all hold the pool's access token cause at most one exchange, exactly one if any of them is given a credential, and that is another one |
| `Refresh.LeaderGetsAnotherToken` | internal/engine/refresh.go:65-93 | A caller that leads is never given back the access token it came with |
| `Refresh.EditsSurvive` | internal/engine/refresh.go:65-93 | Renewals leave concurrent edits standing: but for its tokens the account has each setting as the last edit to set it has set it |
| `Refresh.PoolHoldsLastExchange` | internal/engine/refresh.go:65-93 | In every interleaving, whenever nobody is in the middle of a renewal the pool holds the access token, the refresh token and the expiry that the last exchange left, the expiry its reply names or else the one held before, and what the account started with if there was none; a caller coming back from its own exchange is given just that |
| `Refresh.JoinerMayGetItsOwnTokenBack` | internal/engine/refresh.go:36-56 | A concrete run in which a caller that joins a call led with an older copy is handed the refused token back |
| `RefreshExact.OwnTokenBackExactly` | internal/engine/refresh.go:36-93 | Over all runs of callers holding tokens of a given set: nobody is handed back the token it came with if and only if the pool's token is not in the set or is all of it |
| `RefreshExact.RetiredTokenReturnsExactly` | internal/store/store.go:491-527 | A retired refresh token is presented again only in a run that reloads a file lacking changes, and from every start with a renewable account there is such a run |
| `RefreshProgress.EveryAwaitedStepHelps` | internal/engine/refresh.go:36-93 | Whoever a caller waits for (itself, the leader of its call, the holder of `writeMu` while that one needs it), every step that one can take brings the caller closer to being served |
| `RefreshProgress.CallerAdvances` | internal/engine/refresh.go:36-56 | Whoever has not been served waits for somebody who can take a step, and that step brings it closer |
| `RefreshProgress.EveryCallerIsServed` | internal/engine/refresh.go:36-93 | Whatever came before, failed writes and reloads included: those a caller waits for, acting in any order, take at most sixteen steps, and one of them can take another until the caller is served |
| `RefreshProgress.EveryCallerCanBeServed` | internal/engine/refresh.go:36-93 | Whatever came before, failed writes and reloads included, every caller can be served in at most sixteen steps of those it waits for |
| `Probe.RelaysEverything` | internal/engine/http.go:74-148 | In every interleaving of reader goroutine, timeout and consumer: relayed bytes are a prefix of the body and all of it at the end of the pipe, which ends as the body did; the sample is nothing or a prefix |
| `Probe.SampleIsEnough` | internal/engine/http.go:74-111 | In every interleaving the sample the caller is given ends with the read that brought an empty line or eight kilobytes, or gave nothing, or ended the body, and with no later one |
| `Probe.SignalNeverBlocks` | internal/engine/http.go:74-139 | Sending the sample never blocks, whether the caller stayed or not |
| `Probe.OnlyWritesWait` | internal/engine/http.go:74-139 | The goroutine waits for the upstream or in a write that the consumer can release, and for nothing else |
| `Conversation.ValidateEvents` | internal/session/types.go:260-362 | The loop accepts exactly the well-formed streams, reports their calls and unanswered calls in order, and on rejection names the first event that cannot follow |
| `Conversation.ValidatePart` | internal/session/types.go:287-348 | One part against the tables kept so far |
| `StreamLaws.WellFormedMeans` | internal/session/types.go:260-362 | Well-formedness said of the whole stream: every event has content, every part suits its speaker, calls are unique, answers come after their calls, the results of one call share an event; unanswered calls are those no part answers |
| `Compact.Validate` | internal/session/types.go:195-254 | A session is accepted exactly when it has id, directory and events, its branches form a forest, and every stream is well formed |
| `NaturalOrder.Less` | internal/session/types.go:392-417 | The loop over shrinking strings computes the order |
| `NaturalOrder.NaturalIsLexicographic` | internal/session/types.go:392-417 | The order is lexicographic on a tokenisation in which each digit run is one number |
| `NaturalOrder.StrictWeakOrder` | internal/session/types.go:392-417 | Irreflexive, transitive, and incomparable exactly on equal tokens |
| `Branches.OrderedBranches` | internal/session/branches.go:12-53 | Succeeds if and only if ids are non-empty and unique, parents exist and no parent chain cycles; then a permutation with parents first, each branch listed for the first listed one that is it or descends from it, in the order of those and from the top down; else a fault that is really there |
| `Branches.Walk.Visit` | internal/session/branches.go:26-46 | The recursive colouring visit: what it keeps, and that every fault is true |
| `Branches.Walk.VisitAll` | internal/session/branches.go:47-51 | A visit from every branch lists them all or reports a true fault |
| `Branches.Descend` | internal/session/branches.go:12-53 | In such an order every step towards the root moves strictly earlier |
| `Branches.OrderIsUnique` | internal/session/branches.go:26-51 | There is one such order of a forest only |
| `Branches.OrderStays` | internal/session/branches.go:26-51 | Branches listed parents first stay as they are |
| `Branches.DepthTable` | internal/session/codex_branches.go:178-186 | The writers' depth table holds true distances from the root |
| `Reduction.TruncateKeepsEnds` | internal/session/compact.go:389-434 | A truncated payload keeps a true opening and closing that never overlap, within the limit and with most of the opening, around a note; a short payload is untouched |
| `Reduction.ThinnedWellFormed` | internal/session/compact.go:276-317 | Reducing a well-formed stream is well formed exactly when no call's results end up in two events, and keeps every call in order |
| `Archive.ThinnedIsArchived` | internal/session/compact.go:276-364 | Every rung: the archive has, in order, one shard with the full payload, event number and call id or role of each tool result or text that was shortened and each media part that was stripped, and no other; what stands in its place is a true opening and closing around a note, or a note, that names the file of that very shard; everything else but reasoning stands as it was; the counts are those of the parts |
| `Archive.ThinnedSurvives` | internal/session/compact.go:276-364 | So every plan and every part stands, is stored in full or was reasoning, and there are as many shards as payloads counted |
| `Compact.CandidateAccounts` | internal/session/compact.go:266-340 | Every candidate: such a thread, its collapsed turns rendered whole in one more shard that the brief names, a digest in front exactly if anything was counted, the title kept unless blank, and all else of the session as it was |
| `Compact.NothingIsLost` | internal/session/compact.go:266-340 | So of every session nothing is lost but reasoning: each plan and part is in what is handed over, in full in a shard, or in the run of turns that one renders; one shard for each payload counted and one for the run |
| `Compact.FirstTimestampIs` | internal/session/compact.go:524-531 | The time a brief or digest is given is that of the first event with a known one |
| `ArchiveFiles.ArchiveBuilder.Add` | internal/session/archive.go:107-125 | A file is added under the name asked for, or under a numbered one if that was given before |
| `ArchiveFiles.DistinctExactly` | internal/session/archive.go:107-125 | Where nothing is asked for under the numbered name of another, the files of an archive get distinct names if and only if no name is asked for three times |
| `ArchiveFiles.DistinctAreThere` | internal/session/archive.go:189-205 | Files of distinct names are all on disk as they were added |
| `ArchiveFiles.SecondOfThreeIsLost` | internal/session/archive.go:107-125 | Of three files of one name the second is gone from disk: the third stands under its name |
| `MediaHome.HomeIsExact` | internal/session/compact.go:374-384 | The index of results points at the one event that holds each |
| `MediaHome.TogetherExactly` | internal/session/compact.go:346-364 | Results stay together exactly when media are not stripped, or media answering a call without a tool result share an event |
| `MediaHome.ThinnedAnswers` | internal/session/compact.go:276-317 | Exactly which calls are answered after reduction |
| `MediaHome.ThinnedDangling` | internal/session/compact.go:346-364 | A call becomes unanswered exactly when its only answers were stripped media in an assistant message |
| `Collapse.Boundary` | internal/session/compact.go:453-489 | The closure loop stops at the best boundary, or at or before the head when that lies there |
| `Collapse.EarliestNeeded` | internal/session/compact.go:463-484 | How far back the unresolved answers of the tail reach |
| `Collapse.MustReachBack` | internal/session/compact.go:463-484 | A boundary after a call that a kept answer needs is not closed |
| `Collapse.CallsSplit` | internal/session/types.go:260-362 | In a well-formed stream every prefix holds the calls of its answers, and no call is made on both sides of a cut |
| `Compact.TailStandsAlone` | internal/session/compact.go:442-504 | A closed tail is a well-formed thread by itself, with the last of the calls, answered as before |
| `Compact.CollapsedStandsAlone` | internal/session/compact.go:442-504 | Collapsing keeps a thread well formed; no kept call gains or loses an answer |
| `Compact.CollapseIsOptimal` | internal/session/compact.go:442-504 | Unchanged exactly when short or when no closed boundary lies after the head; otherwise the kept tail is the longest closed one no longer than asked |
| `Compact.CollapseOldTurns` | internal/session/compact.go:442-504 | The method does what the two rows above speak of |
| `Compact.BodyWellFormed` | internal/session/compact.go:266-340 | A rung without collapsing is well formed if and only if it strips no media or the media hypothesis holds; with collapsing the hypothesis is enough |
| `Compact.ApplyReduction` | internal/session/compact.go:266-340 | The loop over the pristine source builds the candidate of the rung, of which `CandidateAccounts` speaks |
| `Compact.UnchangedExactly` | internal/session/compact.go:634-637 | A candidate leaves the events as they were if and only if it counts nothing removed, or the source already is its digest followed by what the rung leaves |
| `Compact.CountText` | internal/session/compact.go:105-118 | The loop over the characters of a UTF-8 text, a byte that begins none counting as one, computes its estimate |
| `Compact.EstimateTokens` | internal/session/compact.go:72-100 | The estimate as a loop over events and parts |
| `CompactEstimate.EstimateIsOfCharacters` | internal/session/compact.go:105-118 | Of a text in UTF-8 the estimate counts characters: each that is not ASCII is a token, or two where it takes four bytes, and the ASCII ones are two sevenths of one each, rounded up once |
| `CompactEstimate.EstimateOfBoth` | internal/session/compact.go:105-118 | A longer text is never estimated at less, and two texts together at no more than apart |
| `Compact.CompactSession` | internal/session/compact.go:194-255 | For every valid session: the first rung that fits, else the last; `Untransferable` exactly when no rung before the stripping one fits and the media hypothesis fails; the result is valid, `Fit` is truth, there is an archive exactly when something was removed, it accounts for the thread as `CandidateAccounts` says, nothing but reasoning is lost between it and the session, and it has one shard for each payload counted and one for collapsed turns |
| `Compact.SpreadIsUntransferable` | internal/session/compact.go:194-255 | A valid session, one call whose screenshots arrived in two messages, cannot be moved within any budget below 3200 tokens, although a command line may ask for as few as 1000 |
| `Compact.CompactionKeepsAnswers` | internal/session/compact.go:266-384 | Over every rung: the calls kept are the last ones, in order, and one is unanswered exactly when it was, or its only answers were stripped media in an assistant message |
| `Codex.WriteThread` | internal/session/codex.go:526-678 | The writer loop emits the records of every event |
| `Codex.ReadThread` | internal/session/codex.go:178-353 | The reader loop appends what each record says |
| `CodexRoundTrip.PartReturns` | internal/session/codex.go:584-674 | One part: what came back and what still waits say what the part says |
| `CodexRoundTrip.EventsReturn` | internal/session/codex.go:242-353 | For faithful streams the flattened conversation read back is the original with reasoning as text, inputs as objects, plans trimmed and interrupted results after dangling calls |
| `CodexRoundTrip.BlocksAreTheSpeakers` | internal/session/codex.go:526-678 | Every message that is written holds something, and only blocks of its speaker's kinds |
| `CodexRoundTrip.MediaSpoken` | internal/session/codex.go:599-636 | Media of an image type, in any case, are written as an image and others as a file |
| `CodexRoundTrip.TimesReturn` | internal/session/codex.go:526-678 | What comes back was said when it was said, or now where that is unknown, and in the same order |
| `CodexRoundTrip.PlanReads` | internal/session/util.go:360-374 | A plan written between its tags reads back as the trimmed plan |
| `CodexNative.ProposalExactly` | internal/session/util.go:360-374 | A text is taken for a plan if and only if it is one between its tags, in any case, with nothing but white space around them |
| `CodexNative.RolloutReads` | internal/session/codex.go:242-423 | What Codex itself records, reasoning, outputs in several blocks, input that is no JSON and unknown blocks included, is read record by record as what it says |
| `CodexNative.EveryRolloutIsNative` | internal/session/codex.go:242-423 | Every rollout is of that kind, so this is what the reader makes of any |
| `MediaUrl.CarriedExactly` | internal/session/util.go:229-273 | Media written as a URL beside their type come back as they were exactly when inline only with no comma in the type, or a link that is no data URL, and there is no space around what they are made of |
| `MediaUrl.Base64Exactly` | internal/session/util.go:275-282 | A payload is accepted if and only if, without its line breaks, it spells bytes by four digits to three in the standard or the URL-safe alphabet, with its padding or without |
| `MediaUrl.DataUrlReads` | internal/session/util.go:229-265 | A data URL with any fields, in any case, gives its payload exactly when a field after the first says base64 and the payload is that; its type is the one given beside it, else its first field |
| `CodexLoss.ComesBackExactly` | internal/session/codex.go:526-678 | For every well-formed stream this holds if and only if plans carry no parts, no assistant text is plan-shaped, media answer calls in tool events only, and all media are of those kinds |
| `CodexLoss.SomethingComesBack` | internal/session/codex.go:242-353 | Something comes back of a valid conversation if and only if there is more in it than media, outside tool messages, whose URL cannot be decoded |
| `CodexLoss.NothingComesBack` | internal/session/util.go:234-252 | A valid message of nothing but an inline image whose type holds a comma: nothing comes back |
| `CodexValid.ComesBackWellFormed` | internal/session/codex.go:242-353 | What comes back is well formed if and only if no event holds two results for one call; then the same calls in order, none dangling |
| `CodexValid.EveryCallIsAnswered` | internal/session/codex.go:637-657 | The same calls come back, and every one of them is answered |
| `CodexValid.TwoPartResultComesBackRefused` | internal/session/claude.go:597-625 | A result in two parts, as the Claude reader makes it, comes back refused |
| `CodexValid.AssistantAnswerLosesItsCall` | internal/session/codex.go:584-636 | A call that an assistant message answers with media comes back with no answer, and the media with no call |
| `CodexFixedPoint.SecondTripChangesNothing` | internal/session/codex.go:242-353 | A second trip, at any later time, returns event by event what the first returned |
| `CodexTree.CodexSpawnLinks` | internal/session/codex_branches.go:113-165 | Which call spawned which thread, gathered in two loops; `CodexLinks` says what that comes to |
| `CodexLinks.LinksExactly` | internal/session/codex_branches.go:113-165 | For every stream and file: a thread is linked if and only if a spawn record names it or the result of an earlier delegation does; the last record has the last word, else the last such result, with that call and its message |
| `CodexTree.TreeReader.Index` | internal/session/codex_branches.go:18-52 | The directory walk indexes rollouts by parent and by id |
| `CodexTree.TreeReader.Load` | internal/session/codex_branches.go:53-110 | The recursive walk visits everything below a thread once, without fault in a directory where no id hangs twice |
| `CodexTree.TreeReader.Attach` | internal/session/codex_branches.go:60-99 | One child: read, listed unless empty, and loaded in its turn |
| `CodexTree.ReadTree` | internal/session/codex_branches.go:13-111 | The walk ends, and what it returns is everything reachable from the root |
| `CodexLinks.EveryBranchSays` | internal/session/codex_branches.go:53-110 | Every branch that the walk of any directory lists: its id, parent, events and metadata are those of its rollout, and call, description and status are the link of its parent, where there is one, as far as the rollout does not say them |
| `CodexTreeRoundTrip.SpawnEvents` | internal/session/codex_branches.go:202-213 | The spawn records of every parent, gathered in one pass |
| `CodexTreeRoundTrip.WriteTree` | internal/session/codex_branches.go:167-269 | Writes root and children exactly when the branches form a forest, under the ids taken |
| `CodexTreeRoundTrip.MapIds` | internal/session/codex_branches.go:173-186 | Every branch gets its own fresh id |
| `CodexTreeRoundTrip.ReferenceIdsExactly` | internal/session/branches.go:157-172 | The names that records go by are the ids of the branches, and for Claude also those without their prefix, each standing for the new id |
| `CodexTreeRoundTrip.ChildEvents` | internal/session/codex_branches.go:222-248 | A child rollout holds the branch's events, renamed, as records carry them, and is empty exactly when those say nothing |
| `CodexTreeRoundTrip.TreeIsTame` | internal/session/codex_branches.go:53-110 | A written tree among arbitrary unrelated rollouts cannot make the walk fail |
| `CodexTreeRoundTrip.WholeTreeReturns` | internal/session/codex_branches.go:13-111 | Whatever the walk of a written tree explores is the forest of the branches that are heard, those that say something and hang from nothing silent: each once, under its new id and its parent's, and no other |
| `CodexTreeRoundTrip.ReadWrittenTree` | internal/session/codex_branches.go:13-111 | Reading back what was written ends without fault and returns that forest, with every spawning call and the events of every branch; it is the whole one if and only if every branch says something |
| `CodexTreeRoundTrip.RootAmongOthers` | internal/session/codex_branches.go:255-268 | A directory that lists the root, the children and rollouts known by other ids is one the tree can be read from |
| `CodexTreeRoundTrip.WriteThenRead` | internal/session/codex_branches.go:13-269 | Writing a session into a directory that holds other rollouts and reading it back from there is refused exactly when the branches are no forest, and else returns the forest of those that are heard |
| `Remap.RemapIdText` | internal/session/branches.go:131-155 | The scanning loop computes the renamed text |
| `Remap.RemapTokens` | internal/session/branches.go:131-155 | Renaming is a homomorphism on tokens: each maximal id token once, all other text copied |
| `Remap.WordRenamed` | internal/session/branches.go:131-155 | A word of letters, digits, `_` and `-` that stands by itself becomes its new id where it has one, whatever stands around it |
| `Remap.NoWordStays` | internal/session/branches.go:131-155 | A text without such words stays as it is |
| `Remap.RemapUndone` | internal/session/branches.go:131-155 | Renaming to tokens the text does not hold and back gives the text back |
| `Remap.RewriteJson` | internal/session/branches.go:87-109 | Recursive rewriting of a JSON value, keys and strings alike |
| `Remap.RewriteUndone` | internal/session/branches.go:87-109 | Rewriting a JSON value to unused tokens and back gives the value back |
| `Remap.RemapDelegation` | internal/session/branches.go:77-129 | Only parts of delegation calls change, and those only by renaming |
| `Remap.ChecksAlike` | internal/session/branches.go:77-129 | A renamed stream is checked exactly as the stream: same verdict, calls and answers |
| `Remap.RemapKeepsMeaning` | internal/session/branches.go:77-129 | Renaming keeps validity, call order and dangling calls |
| `Remap.RemapDelegationUndone` | internal/session/branches.go:77-129 | Renaming a stream to unused tokens and back gives back every part, inputs being encoded anew |
| `Claude.ClaudeBlocks` | internal/session/claude.go:675-713 | The three lists built from one event: assistant blocks, user blocks, calls to interrupt |
| `Claude.WriteClaudeEvents` | internal/session/claude.go:719-806 | The writer loop emits the records of every event and reports the last plan |
| `Claude.ClaudeStream.Record` | internal/session/claude.go:285-410 | One user or assistant record appends at most one message and then the plans it proposed |
| `Claude.ParseRecords` | internal/session/claude.go:414-423 | Reading record by record appends what each says |
| `ClaudeNative.TranscriptReads` | internal/session/claude.go:299-412 | What Claude itself records, thinking, results in several blocks, plans left plan mode with and unknown blocks included, is read record by record as what it says, as the tool's if all of it answers calls |
| `ClaudeNative.EveryTranscriptIsNative` | internal/session/claude.go:299-412 | Every transcript is of that kind, so this is what the reader makes of any |
| `ClaudeRoundTrip.MediaComesBack` | internal/session/util.go:229-273 | Media come back as they were exactly when inline only, with no space around payload or type and no comma in the type, or remote and of type application/octet-stream |
| `ClaudeRoundTrip.ComesBackExactly` | internal/session/claude.go:719-806 | For every well-formed stream: what comes back is, event by event and part by part, the healed original if and only if no assistant text is a proposed plan, no call leaves plan mode with one, plans carry no parts, assistant media answer no call, and all media are of those kinds |
| `ClaudeValid.ComesBackWellFormed` | internal/session/claude.go:285-410 | What comes back is well formed if and only if no assistant text proposes an empty plan, no link is a data URL of blank type and no answer that comes back names a call made in a plan; then the same calls in order but for those of plans, and exactly which are left unanswered |
| `ClaudeValid.EmptyProposalComesBackRefused` | internal/session/util.go:360-374 | A valid stream that comes back refused |
| `ClaudeValid.PlanCallComesBackRefused` | internal/session/claude.go:771-780 | A valid stream with a call inside a plan: its result comes back refused |
| `ClaudeValid.AssistantAnswerLosesItsCall` | internal/session/claude.go:693-703 | A call that an assistant message answers with media comes back unanswered |
| `ClaudeValid.RemoteImageLosesItsType` | internal/session/claude.go:693-700 | A remote image comes back as application/octet-stream, because its type is not written |
| `ConfigText.SplitConfig` | internal/session/definition_config.go:104-136 | The one-pass split with open quote and bracket depth computes the split |
| `ConfigQuote.QuotesUnquote` | internal/session/definition_config.go:92-102 | What either printer quotes, unquoting gives back |
| `ConfigQuote.JsonBodyReads` | internal/session/definitions.go:734-736 | A JSON string reads back as itself, whatever follows it |
| `ConfigRoundTrip.PrintsUnlessNull` | internal/session/definitions.go:709-738 | A value can be printed if and only if it holds no null |
| `ConfigRoundTrip.JsonReads` | internal/session/definition_config.go:19-23 | What is printed is JSON if and only if no map inside has entries |
| `ConfigRoundTrip.ConfigReads` | internal/session/definition_config.go:14-90 | What is printed reads as the value it was, through quotes, `#`, `=`, `.`, brackets and braces, if and only if no key is empty; otherwise it is refused |
| `ConfigByHand.UnquotedReads` | internal/session/definition_config.go:66-90 | Text without quotes or brackets is a truth value, nothing, a number, a refused feature of YAML, or itself |
| `ConfigByHand.BracesRead` | internal/session/definition_config.go:40-65 | A map in braces with bare keys, before a colon or an equals sign, is the map of its entries, the later of two that share a name, and refused only where a map inside has a key without a name |
| `Toml.TomlWriter.Write` | internal/session/definitions.go:739-770 | The recursive writer appends a table and the tables inside it to the shared builder |
| `Toml.EncodeDefinitionToml` | internal/session/definitions.go:706-775 | The whole document |
| `Toml.ParseDefinitionToml` | internal/session/definition_config.go:143-234 | The line loop with its index, root and current table computes the parse, of which `DefinitionReturns` and `TomlByHand` speak |
| `Toml.ReadMultiline` | internal/session/definition_config.go:183-213 | Multi-line strings gather lines until their delimiter; `TomlByHand.OnLinesExactly` says what they read as |
| `Toml.ContinueList` | internal/session/definition_config.go:215-222 | An open list goes on over the lines that follow |
| `TomlRoundTrip.HeaderLine` | internal/session/definition_config.go:152-172 | A printed header opens exactly the table its quoted keys name |
| `TomlRoundTrip.EntryEnters` | internal/session/definition_config.go:173-231 | A printed entry adds exactly its entry, or is refused for a missing name |
| `TomlRoundTrip.TableReads` | internal/session/definition_config.go:143-234 | The lines of a table fill the table they were printed from, without its nulls |
| `TomlRoundTrip.DefinitionReturns` | internal/session/definitions.go:706-775 | For every nested map: printing fails exactly on a null inside a list or inline map; parsing what was printed returns the map without its null entries if and only if no printed key is empty, and is refused otherwise |
| `TomlRoundTrip.EmptyNameIsRefused` | internal/session/definition_config.go:92-102 | An entry with an empty name is printed and then refused |
| `TomlRoundTrip.NullInListIsRefused` | internal/session/definitions.go:732-733 | A null inside a list cannot be printed, where one that stands alone is left out |
| `TomlByHand.DocumentReads` | internal/session/definition_config.go:143-274 | Every document written by hand, of comments, bare and quoted keys, printed and unquoted values, maps in braces, literal strings, multi-line strings with escapes and joined lines, and lists over several lines with comments, is read as what its entries say, whatever its line ends |
| `TomlByHand.EntriesExactly` | internal/session/definition_config.go:143-234 | It is read if and only if every name is given once and none is empty; then each name has its value and there are no others |
| `TomlByHand.StatementReads` | internal/session/definition_config.go:173-231 | The same of one entry wherever it stands, in any table and before anything else |
| `TomlByHand.PiecesDecode` | internal/session/definition_config.go:236-274 | A `"""` string says what stands in it, escapes undone, and a backslash at the end of a line joins the next thing that is not white space |
| `TomlByHand.OnLinesExactly` | internal/session/definition_config.go:183-213 | A text can be written on lines of its own between either delimiter, line breaks kept, if and only if the delimiter first stands where it ends |
| `TomlByHand.LineEndsDoNotMatter` | internal/session/definition_config.go:146-146 | Two-character line ends read as the short ones |
| `TomlByHand.CommentBehindBracketIsRefused` | internal/session/definition_config.go:215-222 | A comment behind the bracket that closes a list on a line of its own is no comment: the document is refused |
| `TomlByHand.ListLinesExactly` | internal/session/definition_config.go:215-222 | A list over several lines, comments between them included, reads as its values if and only if a comma stands behind the last or that is no list: the first line that ends in a bracket is taken for the end, and otherwise the document is refused |

## Left out

- The Kimi and OpenCode adapters: the same writer shape as Codex around more I/O.
- Claude attachments, queued prompts, sidechain records, the plan file and the sidecar of delegated runs: foreign formats around the same reader.
- HTTP, streaming, keepalive pings, logging, signals, the CLI, the importer, service files and configuration loading.
- Lane classifiers and header parsing: their outcome is an arbitrary input of each engine iteration.
- The clock, the network, jitter and the caller's context: components of `EngineRun.Input`.
- Durations do not overflow 64 bits.
- Edits of the pool by other goroutines while one `Execute` is under way, except as the renewal protocol in `Refresh` sees them.
- Edits of `accounts.json` by other processes, health flushing, and the way the file is replaced on disk.
- An exchange whose reply is lost after the server has retired the token.
- `redactSecrets`, display names and the wording of warnings and errors.
- `sortBranches`: a stable sort by position.
- The words that archive file names are made of, the archive index, and the wording of digest, brief and notes: parameters that give any non-empty text.
- Title truncation, record ids, copies of messages kept for display, and shell prompts in native records.
- Fresh UUIDs: the parameter `taken`, a list of distinct ids.
- JSON text: whitespace is not compacted when an input is wrapped, and `encode` stands for the printer; floating-point re-encoding of numbers inside delegation inputs is part of `encode`.
- Error flags of Codex media that answer no call.
- Lower-casing in plan tags, media types and delegation names is that of ASCII.
- Strings are sequences of characters, so `\x` escapes above 0x7f denote characters, not bytes.
- Go's map iteration and `sort.Strings`: the parameter `order`, any enumeration of the keys of a map, the same whether the map is printed as a table or inline; `strconv.ParseFloat` and `unicode.IsPrint` are the parameters `parseFloat` and `printable`.
- JSON nesting limits, and the YAML definition parser.
- TomlByHand.DocumentReads: speaks of documents without table headers; `TomlByHand.StatementReads` speaks of an entry in any table, and `TomlRoundTrip.HeaderLine` of headers.
- ArchiveFiles.DistinctExactly: supposes that no file is asked for under the numbered name of another.
- EngineSpin.NoBusyLoopExactly: supposes an initial overload delay of at least two nanoseconds; one nanosecond under a larger cap is not settled.
- CodexFixedPoint.SecondTripChangesNothing: supposes a clock that does not read the zero time, which the writer takes for no time at all.
