# Payroll Entry autosave: a verified model

This project models the part of the payroll application that decides whether an edit survives: the autosave
protocol of the Payroll Entry grid. Every row of the grid runs an editor. It overlays drafts on a cached entry,
debounces edits, flushes the sendable part of the drafts as a chain of version-stamped PATCH requests, runs a
flush again that was asked for meanwhile, retries with backoff, and stops on a 409. Each status change is
mirrored into a store that the unload guard, the navigation guard and the release interlock read. Around this
core stand the release check, the batched page fetch, the recovery from a rejected CSRF token, and the
lifecycle of the server's session pool.

The protocol is a labelled transition system over one payroll entry (`RowSystem`): the server's content of the
entry as a history indexed by version, this tab's cached copy, GET responses under way, every editor the tab
created for the entry, and its store record. A step is one JavaScript turn, one decision of the server, a
response that arrives or is lost, a render, or a write by somebody else. Renders lag: what an editor sees of
its status and of the entry (`seenStatus`, `seen`) changes only when it renders. The theorems quantify over
every run of this system.

`EntryEditor`, `SaveStatusStore`, `ApiClient` and `SessionLifecycle` hold classes with the fields and loops of
the program. Each of their methods is proved to compute the step, or the function, that the theorems are about.

Three modules tie the books an editor keeps to what happened. `TypedLaw` reads off the list of actions what was
typed last, `ViewLaw` off the responses and renders what is cached and seen, and `StatusLaw` off the fate of the
requests what a row shows and records, when requests start, and when a row retries by itself.

Where the code does not meet the plain statement, the theorem gives the exact condition, and for the protocol
`FailingRuns` holds a run that breaks it. These runs type what the cells of the row produce, and what the server
applies in them passes its request schemas:

- Cycle Days is parsed when a flush starts, but the text it is compared with is read when its request leaves.
  A text typed in between is cleared without being sent.
- Adding or removing a line is reported as `saved` without a look at the drafts, and removing a line cancels
  the save timer of the whole row. A draft can stay behind with no record and no timer.
- A flush asked for mid-flight starts in the turn that ends its predecessor. It can be accepted only if the row
  was already rendered with the server's current version; otherwise it meets a conflict, and the row reports a
  change made elsewhere that may have been its own.
- A unit belongs to one line of an entry, and the editor takes the 409 that answers a request that breaks this for
  a change made elsewhere. When one line is moved to the unit another one leaves, the order of the requests can make
  that conflict with no other writer at all.
- A row scrolled away and back has two editors with one record between them. A save or a reload of one removes the
  record of both, and typing in a row that is in conflict does not bring it back.
- The release check covers the listed entries only. An entry that was created or became a candidate since the list
  was cached is released without having been displayed as one.
- A token refresh that is answered without a token counts as done; the request is sent again with the old one.
- A line that disappears and comes back with a late response brings its draft back without a timer.
- A note of nothing but spaces is stored as an empty text, an empty one as null (`RequestSchema.StoredIsAccepted`).

Some comments of the source claim more than the code does. The editor's comment at line 63 takes every 409 for
another writer's change; the error handler also answers 409 to a unit that is taken or gone
(backend/src/common/middleware/error-handler.ts:146-165). The editor's comment at line 69 calls a rejected
payload unreachable because the same validation runs first; the note is not part of that validation, its cell's
`maxLength` is what keeps it short (`RequestSchema.FlushIsAcceptedIff`). The comment at lines 461 to 463 says
that removing a line clears that line's draft; the code also cancels the save timer of all the row's drafts.

Modules, in the order they build on each other: `Options`, `Sequences`, `NumericText`, `Drafts`,
`RequestSchema`, `ServerModel`, `EditorProtocol`, `RowSystem`, `TypedLaw`, `Invariants`; the theorems
`VersionSafety`, `LosslessEdits`, `UnloadGuard`, `WakeUp`, `StatusLaw`, `ViewLaw`, `Ranks`, `Quiescence`, `EndToEnd`, `Release`, `PlausibleRuns`, `FailingRuns`; the
program's own objects `SummaryCounts`, `SaveStatusStore`, `DraftObjects`, `EntryEditor`, `RetryAll`,
`EntriesCache`; and on their own `CsrfRecovery`, `ApiClient`, `SessionLifecycle`. `dafny verify dfyconfig.toml` checks all of it.

## Model

| member | source | states |
|---|---|---|
| Invariants.NextKeeps | frontend/src/hooks/use-payroll-entry-editor.ts:267-355 | Every step keeps, for any number of editors, what ties drafts, request under way, cache and server history together: the accepted prefix of a flush is exactly the versions since its base, written by this editor alone, and the draft still holds every key not yet acknowledged |
| Invariants.ReachableOk | frontend/src/hooks/use-payroll-entry-editor.ts:128-175 | That invariant holds in every state any run leads to |
| TypedLaw.TypedIsLastTyped | frontend/src/hooks/use-payroll-entry-editor.ts:367-389 | For every field and every run, what an editor keeps as typed is the value of the last `Type` of that field in the list of actions that no reload of the editor and no started removal of its line followed, and nothing if there is none |
| ViewLaw.ShowsLatestResponse | frontend/src/hooks/use-payroll-entry-editor.ts:144-147 | In every run the cached entry is the one the latest response brought, and what an editor sees of its status and entry is what they were when it last rendered; it is mounted until it is unmounted |
| StatusLaw.ShowsLatestNews | frontend/src/hooks/use-payroll-entry-editor.ts:287-330 | In every state of every run a row shows the last news of its requests: saving when a chain of them starts; at the end of one that none follows, dirty if a draft is left and saved otherwise, conflict after a 409 and error after any other failure; dirty after typing outside a conflict; idle after a reload |
| StatusLaw.RecordsLatestNews | frontend/src/hooks/use-payroll-entry-editor.ts:243-250 | The store holds the last such news of any editor of the entry, and no record exactly if that was idle or saved |
| StatusLaw.ErrorHasACause | frontend/src/hooks/use-payroll-entry-editor.ts:331-347 | A row shows an error only if a request of it failed with something other than a 409 and nothing was said since; it counts as refused for good exactly if that was a flush answered with 400 |
| StatusLaw.ChainStartsIff | frontend/src/hooks/use-payroll-entry-editor.ts:267-287 | Requests start exactly if a timer or the user asks outside a conflict and a save while something is sendable, if a line is added or removed outside both, or at the end of a chain if a flush is pending and something is sendable |
| StatusLaw.FollowUpIff | frontend/src/hooks/use-payroll-entry-editor.ts:348-354 | A flush follows the end of a chain exactly if a timer or the user had asked for one, with something to send, while the chain ran, and there is something to send now outside a conflict |
| StatusLaw.RetriesByTheCount | frontend/src/hooks/use-payroll-entry-editor.ts:320-345 | In every run the retry count is the number of flushes lost since the last chain was accepted or the row was retried or reloaded by hand; exactly a lost flush, and none after the third, arms a retry timer: a 400, a 409 and a failed line change do not |
| StatusLaw.ReloadStartsOver | frontend/src/hooks/use-payroll-entry-editor.ts:409-420 | A reloaded editor is a new one but for requests under way and retry timers it has lost sight of, and its entry has no record |
| VersionSafety.CacheIsASnapshot | frontend/src/hooks/use-payroll-entries.ts:201-214 | A cached entry with version v holds exactly what the server held at version v, after any interleaving of merges, reloads, lost responses and other writers; so do responses under way and the entry each editor shows |
| VersionSafety.OneFlushAtATime | frontend/src/hooks/use-payroll-entry-editor.ts:281-287 | Across commit, add line and delete line at most one flush of an editor is active, and the saving flag is set exactly while one is |
| VersionSafety.FlushSendsTheSendablePart | frontend/src/hooks/use-payroll-entry-editor.ts:270-290 | A flush that starts sends exactly the sendable part of the draft, from the version and content the row shows, and leaves the draft alone; nothing sendable, nothing happens |
| VersionSafety.AcceptedFlushIsOneWrite | frontend/src/hooks/use-payroll-entry-editor.ts:289-318 | If all n requests of a flush are accepted, the version went up by exactly n, no other write fell in between, and the content is that of one write of everything sent |
| VersionSafety.FailedFlushIsExact | frontend/src/hooks/use-payroll-entry-editor.ts:292-347 | If request i fails, the server has requests 1 to i-1, and i as well only if its answer was lost; the draft is unchanged by the failure and holds every key of the requests from i on |
| VersionSafety.AcknowledgedKeysLeave | frontend/src/hooks/use-payroll-entry-editor.ts:204-234 | On an acknowledgement a sent key stays in the draft if and only if it was changed meanwhile, and then with the newer value |
| VersionSafety.AcceptedVersionsIncrease | backend/src/modules/payroll-entry/payroll-entry.service.ts:883-892 | The versions that accepted requests were stamped with strictly increase over any run |
| VersionSafety.LostWriteIsNotRepeated | backend/src/modules/payroll-entry/payroll-entry.service.ts:883-892 | After the answer to an applied request is lost, no later request is accepted from the version that request was stamped with |
| VersionSafety.OnceBehindAlwaysRejected | frontend/src/hooks/use-payroll-entry-editor.ts:267-290 | Once neither the cache, nor what a row shows, nor a request under way has the server's current version, no PATCH, added or removed line of this tab is accepted until a response with the current version reaches the cache, whatever else happens |
| VersionSafety.StaysBehindIff | frontend/src/hooks/use-payroll-entries.ts:317-320 | A step ends that condition if and only if it is the arrival of such a response |
| VersionSafety.FailureLeavesBehind | frontend/src/hooks/use-payroll-entry-editor.ts:331-347 | A failed request, a 409 or a lost acknowledgement included, leaves the tab in that condition if and only if nothing else in the tab has the current version; then nothing is accepted from it until the cached version is refreshed |
| VersionSafety.ConflictHasACause | backend/prisma/schema.prisma:722 | A 409 means that there is a newer version, or that the request gives a work line a unit, which another line has or which is gone |
| LosslessEdits.StepIsLosslessIff | frontend/src/hooks/use-payroll-entry-editor.ts:204-234 | A step loses no typed value if and only if every text its acknowledgement clears is what the payload said |
| LosslessEdits.LosslessIff | frontend/src/hooks/use-payroll-entry-editor.ts:299-318 | No state of a run has lost what an editor keeps as typed, if and only if every acknowledgement is of that kind |
| LosslessEdits.LastTypedIsKeptIff | frontend/src/hooks/use-payroll-entry-editor.ts:204-234 | The same of what was typed, as the list of actions alone tells it: in every state of a run the last value typed into each field is in the draft or is the last acknowledged value, if and only if every acknowledgement clears faithfully |
| LosslessEdits.OnlyCycleDaysIsAtRisk | frontend/src/hooks/use-payroll-entry-editor.ts:311-316 | An acknowledgement without Cycle Days never loses a value |
| LosslessEdits.LosslessIfUndisturbed | frontend/src/hooks/use-payroll-entry-editor.ts:302-317 | If Cycle Days is never typed while its earlier text waits to be sent, no typed value is ever lost |
| EndToEnd.StepKeepsAcks | frontend/src/hooks/use-payroll-entry-editor.ts:292-317 | Every step keeps: a value counted as acknowledged, and not typed over since, stands on the server in a version this editor wrote, and no later version of this editor changes that field |
| EndToEnd.TypedIsDraftedOrStored | frontend/src/hooks/use-payroll-entry-editor.ts:204-234 | After every run without an unfaithful acknowledgement, the value typed last into each field, as the list of actions alone tells it, is in the draft of that field, or is this editor's latest write of the field |
| EndToEnd.SettledIsStored | frontend/src/hooks/use-payroll-entry-editor.ts:320-330 | The promise of the autosave: after every run in which acknowledgements clear only what they sent, and no line change or render strands a draft, an editor at rest, neither in conflict nor given up, has the value typed last into each of the row's fields on the server if it is complete, as its latest write and as the current value unless somebody else changed the field since |
| EndToEnd.LatestIsHeld | frontend/src/hooks/use-payroll-entry-editor.ts:292-298 | An editor's latest write of a field is what the server holds now, or another writer changed the field after it |
| UnloadGuard.StepIsGuardedIff | frontend/src/hooks/use-payroll-entry-editor.ts:243-250 | For any number of editors of an entry: a step leaves the guard right if and only if what it reports as saved is saved, here and in every other editor; a reload finds every other editor quiet; and typing in a row in conflict finds a record |
| UnloadGuard.GuardedIff | frontend/src/lib/payroll-entry-save-status-store.ts:77-88 | Over any run, no record means empty drafts and no request under way in every editor, unmounted ones included, if and only if every step is safe in that sense |
| UnloadGuard.NoRecordMeansSaved | frontend/src/lib/payroll-entry-save-status-store.ts:187-201 | The unload guard's silence means that nothing is unsaved, in every state reached by safe steps |
| WakeUp.StepWatchedIff | frontend/src/hooks/use-payroll-entry-editor.ts:348-365 | A step keeps every editor watched (at rest and not in conflict, a sendable draft has an armed timer or an error that retrying does not lift; mid-flight, everything the flush does not cover has a timer or a flush to follow) if and only if it is not a line change or a render that strands a draft |
| WakeUp.RenderWatchesIff | frontend/src/hooks/use-payroll-entry-editor.ts:144-147 | A render keeps an editor watched if and only if it brings back no line with a sendable draft that nothing is sending, or the editor is busy anyway |
| WakeUp.WatchedIff | frontend/src/hooks/use-payroll-entry-editor.ts:278-284 | Every state of a run is watched if and only if no step of it strands a draft |
| WakeUp.NoLostWakeUp | frontend/src/hooks/use-payroll-entry-editor.ts:278-284 | After any run without such a step no wake-up is lost, for mounted and unmounted editors |
| WakeUp.StrandedDraftSleepsIff | frontend/src/hooks/use-payroll-entry-editor.ts:465-494 | Once a line change is answered, its editor is awake if and only if it stranded no draft, or ended in a conflict, or failed in an editor without retries left |
| WakeUp.LostLineChangeSleepsIff | frontend/src/hooks/use-payroll-entry-editor.ts:478-491 | The same when the answer is lost |
| WakeUp.ManualRetryRestoresTheBudget | frontend/src/hooks/use-payroll-entry-editor.ts:339-345 | When everything fails, a manual retry is followed by exactly three automatic ones, and the row gives up again |
| Quiescence.WorkGoesDown | frontend/src/hooks/use-payroll-entry-editor.ts:331-354 | Without input and other writers every step of an editor's work lowers a lexicographic rank: stale flush, drafts, retries left, wake-ups, progress of the request |
| Quiescence.OthersKeepRank | frontend/src/hooks/use-payroll-entry-editor.ts:267-287 | What other editors of the entry do, renders and responses that arrive do not change that rank |
| Ranks.StopsFalling | frontend/src/hooks/use-payroll-entry-editor.ts:339-345 | A rank that never rises falls only finitely often |
| Quiescence.NoInfiniteRun | frontend/src/hooks/use-payroll-entry-editor.ts:331-354 | So there is no infinite run of all editors of an entry, their renders and the responses under way together |
| Quiescence.SettledState | frontend/src/hooks/use-payroll-entry-editor.ts:348-354 | After every run in which no line change or render strands a draft, an editor that cannot move has no request and no timer, and nothing sendable, or is in conflict, or gave up after its retries or a 400 |
| Quiescence.EverySchedulerSettles | frontend/src/hooks/use-payroll-entry-editor.ts:339-345 | Every scheduler brings the whole row to rest in finitely many steps, and every editor to such a state if no step strands a draft |
| Drafts.PatchesAreTheSendablePart | frontend/src/hooks/use-payroll-entry-editor.ts:270-279 | The requests of a flush carry exactly the valid part of the draft, each key once, grouped by target; there are none exactly if nothing is sendable |
| Drafts.PatchesInOrder | frontend/src/hooks/use-payroll-entry-editor.ts:270-279 | The requests go out in the row's order: the entry first, then its lines as the row has them |
| Drafts.WireOfCycleDays | frontend/src/hooks/use-payroll-entry-editor.ts:93-107 | What is sent for Cycle Days is the number of days its text is the decimal notation of, and nothing exactly if it is the notation of none |
| NumericText.ParseIsInverseOfPrint | frontend/src/components/payroll-entry/numeric-validation.ts:21-25 | A text parses to n exactly if n is from 1 to 31 and the text is the decimal notation of n in one or two digits, a leading zero allowed |
| NumericText.DecimalIffNotation | frontend/src/components/payroll-entry/numeric-validation.ts:13-16 | A text is a decimal exactly if it is one to ten digits, followed by nothing or by a point and one or two digits |
| RequestSchema.WireIsAcceptedIff | shared/src/schemas/payroll-entry.ts:73-117 | What the editor sends for a field passes the request schema if and only if it is not a note longer than 2000 characters |
| RequestSchema.HeldBackIsRejected | frontend/src/components/payroll-entry/numeric-validation.ts:13-16 | A number the editor holds back would have been rejected: nothing valid waits |
| RequestSchema.FlushIsAcceptedIff | frontend/src/hooks/use-payroll-entry-editor.ts:69-107 | All requests of a flush pass the schemas if and only if the draft holds no overlong note |
| NumericText.TrimCuts | shared/src/schemas/common.ts:9-10 | Trimming takes white space off both ends and nothing else |
| RequestSchema.StoredMeans | shared/src/schemas/common.ts:4-10 | An accepted empty text is stored as null, another one without the spaces around it unless it names a unit, and every other value as it is |
| RequestSchema.StoredIsAccepted | shared/src/schemas/common.ts:4-10 | What is stored would be accepted again, and be stored the same if and only if it was no note of nothing but spaces |
| ServerModel.ApplyAllIsOneWrite | backend/src/modules/payroll-entry/payroll-entry.service.ts:883-892 | A chain of requests writes what one request with all their fields would write |
| ServerModel.AddedLine | backend/src/modules/payroll-entry/payroll-entry.service.ts:1185-1195 | A new line is the last one and has what the request gives |
| ServerModel.AddedLineDefaults | backend/src/modules/payroll-entry/payroll-entry.service.ts:1185-1195 | What the request does not give has the service's default |
| ServerModel.RemovedLine | backend/src/modules/payroll-entry/payroll-entry.service.ts:1379 | A removed line is gone with its fields, and nothing else is |
| Release.ListsExactlyTheCandidates | frontend/src/routes/salary-release-candidates.ts:10-23 | Exactly the cached candidates of the unit are listed, each with its cached version |
| Release.FiltersAgree | frontend/src/routes/salary-release-candidates.ts:3-9 | The filter of the client and the query of the server agree on every entry |
| Release.EachIsListedOnce | frontend/src/routes/salary-release-candidates.ts:14-22 | The list keeps the order of the cached entries and names none twice |
| Release.ReleaseAgreement | backend/src/modules/payroll-release/payroll-release.service.ts:325-342 | With nothing pending in the tab, an accepted release finds every listed entry on the server exactly as it is cached, and as its row displays it if and only if the row was rendered with that content |
| Release.SweptAsCachedIff | backend/src/modules/payroll-release/payroll-release.service.ts:283-292 | An accepted release resolves every entry of the cycle as cached if and only if none was created or became a candidate since the list was cached |
| FailingRuns.LateCycleDaysIsLost | frontend/src/hooks/use-payroll-entry-editor.ts:302-316 | A run that ends with 6 typed, 5 on the server, an empty draft, status saved and no record |
| FailingRuns.DeleteLineStrandsADraft | frontend/src/hooks/use-payroll-entry-editor.ts:465-475 | A run that ends with a draft, status saved, no record, no timer and no request |
| FailingRuns.OwnWriteConflicts | frontend/src/hooks/use-payroll-entry-editor.ts:348-354 | A run that ends in conflict although every write was this editor's |
| FailingRuns.RecommitIsAcceptedIff | frontend/src/hooks/use-payroll-entry-editor.ts:144-147 | In general: a flush started by the end of its predecessor can be accepted if and only if the row was already rendered with the server's current version and its first request takes no other line's unit, and is open to a conflict if and only if the row was not, or that request gives a line a unit |
| FailingRuns.MovingAUnitConflicts | frontend/src/components/payroll-entry/split-work-lines-modal.tsx:51-64 | Two lines moved so that one gets the unit the other leaves: a conflict at the current version, though nobody else wrote anything |
| FailingRuns.SecondEditorHidesTheFirst | frontend/src/hooks/use-payroll-entry-editor.ts:160-175 | A run in which the save of a second editor of the entry removes the record while the first one is dirty |
| FailingRuns.ReloadHidesTheOther | frontend/src/hooks/use-payroll-entry-editor.ts:409-420 | A run in which reloading the second editor does |
| FailingRuns.TypingInConflictIsUnrecorded | frontend/src/hooks/use-payroll-entry-editor.ts:357-360 | A run in which a value typed into a row in conflict has no record, because the other editor's save removed it |
| FailingRuns.ReloadMidFlightLetsASecondFlushStart | frontend/src/hooks/use-payroll-entry-editor.ts:409-422 | Reload during a flush would let the next save start a second one beside it |
| FailingRuns.LiftedHoldIsSwept | backend/src/modules/payroll-release/payroll-release.service.ts:332-342 | A hold lifted elsewhere: for every unit, the release lists nothing, is accepted and resolves an entry cached as held |
| FailingRuns.NewEntryIsSwept | backend/src/modules/payroll-entry/payroll-entry.service.ts:653-665 | An entry created after the list was cached is resolved without ever having been displayed |
| FailingRuns.ReturnedLineSleeps | frontend/src/hooks/use-payroll-entries.ts:317-320 | A run in which a line with a draft disappears, the timer fires, and an older response brings the line back: a sendable draft, no timer, no request |
| SummaryCounts.CountsAreSizes | frontend/src/lib/payroll-entry-save-status-store.ts:115-129 | Each counter is the number of rows of the cycle in that status |
| SummaryCounts.RetriesOfFailedRows | frontend/src/lib/payroll-entry-save-status-store.ts:125-127 | The collected retry handles are those of the failed rows that have one, in order, one for each |
| SummaryCounts.TotalsSumToRecords | frontend/src/lib/payroll-entry-save-status-store.ts:131-132 | The totals of the cycles add up to the number of records |
| SummaryCounts.PendingIff | frontend/src/lib/payroll-entry-save-status-store.ts:155-158 | A cycle has a positive total if and only if some record belongs to it |
| SummaryCounts.NothingCounted | frontend/src/lib/payroll-entry-save-status-store.ts:132-135 | A cycle with total zero has the counts and handles of the shared empty summary |
| SummaryCounts.AfterSetSoundIff | frontend/src/lib/payroll-entry-save-status-store.ts:77-88 | Storing a status keeps every cached summary equal to a recount if and only if the entry was not recorded under another cycle whose summary was cached |
| SummaryCounts.AfterClearSoundIff | frontend/src/lib/payroll-entry-save-status-store.ts:93-98 | The same for clearing a record |
| SummaryCounts.SoundIff | frontend/src/lib/payroll-entry-save-status-store.ts:77-98 | Every cached summary equals a recount after every call of a sequence if and only if no call takes an entry's record out of another cycle whose summary is cached |
| SummaryCounts.NeverStale | frontend/src/lib/payroll-entry-save-status-store.ts:69-88 | That is so if every entry is reported under its own cycle |
| SummaryCounts.StaysTheSameObject | frontend/src/lib/payroll-entry-save-status-store.ts:111-113 | Reads return the same object until a call for that very cycle |
| SaveStatusStore.Store.Set | frontend/src/lib/payroll-entry-save-status-store.ts:77-88 | The new records, order and cache are those the laws above are about |
| SaveStatusStore.Store.Clear | frontend/src/lib/payroll-entry-save-status-store.ts:93-98 | The same for clearing |
| SaveStatusStore.Store.CountCycle | frontend/src/lib/payroll-entry-save-status-store.ts:115-129 | The counting loop computes the recount |
| SaveStatusStore.Store.GetSummary | frontend/src/lib/payroll-entry-save-status-store.ts:111-150 | The cached object, or a new one with a recount, or the shared empty one; other cycles' objects are untouched |
| SaveStatusStore.Store.HasPendingForCycle | frontend/src/lib/payroll-entry-save-status-store.ts:155-158 | True if and only if a record belongs to the cycle, given sound summaries, which it keeps |
| SaveStatusStore.Store.HasAnyPending | frontend/src/lib/payroll-entry-save-status-store.ts:163-165 | True if and only if there is a record |
| DraftObjects.SanitizeEntryDraft | frontend/src/hooks/use-payroll-entry-editor.ts:81-91 | The loop keeps exactly the valid values of the entry draft |
| DraftObjects.SanitizeLineDraft | frontend/src/hooks/use-payroll-entry-editor.ts:93-107 | The same for a line, with Cycle Days as the number of days its text is the decimal notation of, and left out exactly if there is none |
| DraftObjects.BuildPayload | frontend/src/hooks/use-payroll-entry-editor.ts:270-279 | The requests built from both draft objects are those of the flat draft they stand for |
| DraftObjects.ClearSavedEntryKeys | frontend/src/hooks/use-payroll-entry-editor.ts:204-214 | Exactly the keys that still hold what was sent leave the entry draft |
| DraftObjects.ClearSavedLineKeys | frontend/src/hooks/use-payroll-entry-editor.ts:217-234 | The same for a line, whose draft is removed when it becomes empty |
| DraftObjects.FlatIsEmptyIff | frontend/src/hooks/use-payroll-entry-editor.ts:321-322 | The test for a remaining draft is right because no line draft is empty |
| EntryEditor.PayrollEntryEditor.Report | frontend/src/hooks/use-payroll-entry-editor.ts:243-250 | Row status and store record change together: a pending status leaves exactly the record of this cycle, this status and this editor's retry handle, another leaves none; other entries' records stay, sound summaries stay sound |
| EntryEditor.PayrollEntryEditor.Commit | frontend/src/hooks/use-payroll-entry-editor.ts:267-287 | Refines the protocol's commit: refused in conflict, without work, deferred mid-flight, or a flush starts |
| EntryEditor.PayrollEntryEditor.ScheduleSave | frontend/src/hooks/use-payroll-entry-editor.ts:357-365 | Refines the debounce: dirty unless in conflict, timer armed |
| EntryEditor.PayrollEntryEditor.SetEntryField | frontend/src/hooks/use-payroll-entry-editor.ts:367-377 | Refines typing into an entry field |
| EntryEditor.PayrollEntryEditor.SetLineField | frontend/src/hooks/use-payroll-entry-editor.ts:379-389 | Refines typing into a line |
| EntryEditor.PayrollEntryEditor.OnSaveTimer | frontend/src/hooks/use-payroll-entry-editor.ts:362-364 | Refines the firing of the save timer |
| EntryEditor.PayrollEntryEditor.OnRetryTimer | frontend/src/hooks/use-payroll-entry-editor.ts:342-344 | Refines the firing of a retry timer, also of one whose handle was overwritten |
| EntryEditor.PayrollEntryEditor.RetryNow | frontend/src/hooks/use-payroll-entry-editor.ts:402-406 | Refines the manual retry |
| EntryEditor.PayrollEntryEditor.Reload | frontend/src/hooks/use-payroll-entry-editor.ts:409-420 | Refines the reload up to its await |
| EntryEditor.PayrollEntryEditor.AddLine | frontend/src/hooks/use-payroll-entry-editor.ts:429-438 | Refines the start of adding a line |
| EntryEditor.PayrollEntryEditor.DeleteLine | frontend/src/hooks/use-payroll-entry-editor.ts:465-473 | Refines the start of removing a line, with its draft and the row's timer |
| EntryEditor.PayrollEntryEditor.OnPatchAccepted | frontend/src/hooks/use-payroll-entry-editor.ts:292-330 | Refines the continuation after an accepted PATCH: clear, then the next request with the new version, or the end of the flush |
| EntryEditor.PayrollEntryEditor.OnLineChanged | frontend/src/hooks/use-payroll-entry-editor.ts:439-456 | Refines the continuation after an accepted line change |
| EntryEditor.PayrollEntryEditor.OnFailure | frontend/src/hooks/use-payroll-entry-editor.ts:331-354 | Refines the catch and finally blocks: conflict, rejected, or counted with a retry timer while any is left |
| RetryAll.HandlesOfFailedRows | frontend/src/lib/payroll-entry-save-status-store.ts:121-128 | If every record has a retry handle of its own, the handles of a summary are distinct, and exactly those of the failed rows of the cycle |
| RetryAll.PerformAll | frontend/src/hooks/use-payroll-entry-editor.ts:243-250 | Whatever turns registered editors take in whatever order, every record keeps the handle of the editor of its entry, summaries stay sound, and each editor ends where its own turns take it |
| RetryAll.RetryEach | frontend/src/lib/payroll-entry-save-status-store.ts:144-146 | Each handle is called exactly once, although every call changes the store; no other editor changes |
| RetryAll.RetryAllFailed | frontend/src/lib/payroll-entry-save-status-store.ts:144-146 | Exactly the failed rows of the cycle are retried, once each, for any registered editors |
| RetryAll.RetryAllOnPage | frontend/src/components/payroll-entry/save-status-banner.tsx:49 | So from an empty store on, after any turns of any rows: "retry all" retries a row exactly if it is of the cycle and its own turns left it failed |
| EntriesCache.CacheWritesAreLocal | frontend/src/hooks/use-payroll-entries.ts:201-214 | After any merges and reloads the list keeps length and order, every entry holds the last snapshot written for it and no other, and the employee and site of its last reload |
| EntriesCache.AskedPagesAreTheList | frontend/src/hooks/use-payroll-entries.ts:164-168 | On a stable list the pages asked for are the whole list, for every length and page size |
| EntriesCache.NoPageInVain | frontend/src/hooks/use-payroll-entries.ts:164-168 | The last page asked for begins before the end of the list, unless it is the first |
| EntriesCache.FetchPages | frontend/src/hooks/use-payroll-entries.ts:164-175 | The batches request the first page alone and then every page once, in order, never more than the batch width at a time |
| EntriesCache.FetchAll | frontend/src/hooks/use-payroll-entries.ts:158-176 | The result is the pages in order, and on a stable list the list |
| CsrfRecovery.NextKeeps | frontend/src/lib/api-client.ts:89-102 | Every step keeps: one refresh at most is under way, exactly while the shared promise is set, and each call's contract |
| CsrfRecovery.RecoveryContract | frontend/src/lib/api-client.ts:123-179 | For any number of concurrent calls: a request leaves at most twice, again only after a mismatch; its handler runs at most once, and not at all if the call ends in a mismatch. A finished call returns if and only if the last reply that arrived was a success, throws a code if and only if that was the last reply, is an error and no mismatch still to be retried, and ends in a network error otherwise |
| CsrfRecovery.BookkeepingIsTrue | frontend/src/lib/api-client.ts:123-179 | Over every run the replies, handler runs and sends a call counts are the replies that arrived, the requests that passed the comparison at the server, and its start and its resumption after a refresh |
| CsrfRecovery.OnlyDisagreeingCallsAreRetried | frontend/src/lib/api-client.ts:169-172 | A call is sent again only if it is a writing one that left with another token than the browser's cookie |
| CsrfRecovery.AgreeingRetryIsHandled | frontend/src/lib/api-client.ts:169-178 | A retry that leaves with the cookie's token and reaches the comparison is handled once; it returns exactly if its own reply is a success, and ends in a network error exactly if no reply to it arrives |
| CsrfRecovery.RefreshedCallReturns | frontend/src/lib/api-client.ts:89-102 | A waiting call whose refresh brings the cookie's token and whose retry succeeds returns after one handler |
| CsrfRecovery.ReadingCallTeachesTheToken | frontend/src/lib/api-client.ts:41-44 | After an answered GET the client holds the browser's token, so the next writing call passes |
| CsrfRecovery.StepGoesDown | frontend/src/lib/api-client.ts:169-172 | Every step but a new call or another tab's lowers a rank |
| CsrfRecovery.NeverStuck | frontend/src/lib/api-client.ts:91-102 | A call that is not done can always go on |
| CsrfRecovery.EveryCallEnds | frontend/src/lib/api-client.ts:79-84 | Without new calls every run is bounded, and when it stops every call is done |
| CsrfRecovery.NextSteadyIff | frontend/src/lib/api-client.ts:91-102 | While the browser's cookie stays, a step leaves every retry with the right token if and only if it is not a refresh that was answered without the token, is waited for, and finds the client without it |
| CsrfRecovery.SteadyCookieRecoversIff | frontend/src/lib/api-client.ts:68-77 | So it is over any run; and then no call ends with a mismatch, whatever token the client starts with |
| CsrfRecovery.TokenlessRefreshSurfaces | frontend/src/lib/api-client.ts:93-96 | Wherever such a refresh arrives, the waiting call goes on to surface a mismatch, though the cookie never changed |
| CsrfRecovery.FirstCallMeetsTokenlessRefresh | backend/src/app.ts:159-184 | The first call of a page gets there when the session store fails, because the session is loaded before the token is issued |
| CsrfRecovery.SecondMismatchIff | backend/src/common/middleware/csrf.ts:127-142 | Whatever happens until its end, a retry ends with a second mismatch if and only if it reached the comparison, its answer was not lost, and the browser's cookie was not the client's token when it left |
| ApiClient.Client.ApiRequest | frontend/src/lib/api-client.ts:128-153 | A call up to its first await takes the protocol's step |
| ApiClient.Client.RefreshCsrfToken | frontend/src/lib/api-client.ts:91-102 | Joins the refresh under way or starts one |
| ApiClient.Client.OnReply | frontend/src/lib/api-client.ts:158-178 | The continuation after a reply takes the protocol's step |
| ApiClient.Client.SettleRefresh | frontend/src/lib/api-client.ts:97-99 | Clears the shared promise and wakes every call that waits for it |
| ApiClient.Client.OnRefreshed | frontend/src/lib/api-client.ts:170-171 | Sends the same request once more with the token held now, or fails with the refresh |
| SessionLifecycle.RunKeeps | backend/src/app.ts:83-121 | Every interleaving of gets and closes keeps the invariant of pools, stores and closes |
| SessionLifecycle.LifecycleContract | backend/src/app.ts:104-121 | A store that is not closed has a live pool and is the current one, of the current pool; nothing is closed or ended twice; no pool is ended before its store is closed, nor while that closing is awaited |
| SessionLifecycle.NothingLeaks | backend/src/app.ts:111-121 | With no current pool and no close outstanding, every pool ever made was ended exactly once |
| SessionLifecycle.SessionModule.GetSessionPool | backend/src/app.ts:83-88 | The current pool if there is one, otherwise a new one that becomes current |
| SessionLifecycle.SessionModule.GetSessionStore | backend/src/app.ts:90-102 | The current store, which belongs to the current pool |
| SessionLifecycle.SessionModule.CloseSessionPool | backend/src/app.ts:111-121 | Clears both variables before anything is awaited, closes the store first, and is a no-op without a pool |

## Left out

- React, TanStack Query, the virtualizer and rendering: only the step that assigns the refs at render is kept. A state updater is taken to run when it is called.
- Net salary (`calcNet`, `buildCalcInput`), the display of effective values beside an invalid draft, error messages, backoff durations, the fade of the "saved" icon, and the store's listeners.
- Time: a timer is armed or not and may fire at any moment. The 15 second abort is a lost response; a request the server handles after the tab gave it up counts as another client's write.
- The database: a version's content is an abstract map. Reprinting of decimals by the column type, integer width and columns copied live from the employee record are not part of a content. Server rules beyond the version, the existing line, the last line and the unit of a line (an entry already released, days within the cycle) are a 400 at any moment. Which units exist is not part of a content: a request that gives a line a unit may find it deleted, a 409. Other references, to the acting user say, are taken to hold.
- A GET of an entry is one read of the entry and its lines together; the service reads them in two queries outside a transaction, and a write between them is not modelled.
- The candidate query's site condition: a unit belongs to one site, so the condition on work lines decides.
- The action that applies an employee's new assignment, which replaces the cached site.
- Cookies, sessions and tokens beyond equality; uploads and downloads that bypass `apiRequest`.
- Reload: the model takes the click and the render it causes as one step, and offers it in conflict only, as the row does (frontend/src/components/payroll-entry/save-status-indicator.tsx:55-66).
- EntriesCache.FetchAll: a page's answer depends on its number only; a list that shifts while it is fetched is not described further.
- RetryAll.RetryAllFailed: one editor per entry. The record of a row scrolled away and back has the handle of the editor that reported last, and is retried by that one; a store with two editors of an entry is not modelled there.
- SummaryCounts.StaysTheSameObject: object identity is the creation number of a summary, its retry callback the list of handles collected with it.
- SessionLifecycle.NothingLeaks: a store whose `close` rejects leaves its pool unended, as in the code.
