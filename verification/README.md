# Verified models of the hospitality runtime

Dafny models of the parts of this repository whose correctness is hardest to see from the code,
with the properties they are for. `dafny verify dfyconfig.toml` checks everything.

| part of the system | files |
|---|---|
| pricing cleanup: one override, one DELETE, many uncoordinated workers | IsoStamps, CleanupOwnership, CleanupStore, CleanupClaims, CleanupProtocol, CleanupSafety, CleanupVerdicts, CleanupRunner |
| agent runs: a bounded loop that parks for approval, persists and resumes | AgentProtocol, AgentCore, AgentInvariants, AgentHistory, AgentExecutions, AgentTranscript, AgentSaves, AgentReplies, AgentServices, ApprovalOverlap, ApprovalConflicts, ApprovalLedger |
| pricing decisions: clamp, directional rounding, guardrails, replay | PyNumbers, PricingConfig, PricingPolicy, PricingRecommendations, PricingDecisions, PricingReplay |
| booking outcomes: write-once evidence beside overwritten state | Outcomes, OutcomeProtocol, OutcomeSafety, OutcomeReconciler |
| proactive drafting: at most one model call a conversation state | Hospitality, Drafts, ConversationRefresh, DraftMeaning, DraftSafety, DraftOverlap |
| the Inbox's activity index: ordering, seeding, rotating sweep | ConversationActivity, InboxView, IndexMaintenance, SweepCoverage, SeedCoverage, InboxIndexer |
| knowledge: consolidation, promotion, extraction, cosine similarity | Similarity, KnowledgeConsolidation, GlobalPromotion, HistoricalReplies |
| shared | Wrappers, Texts, Sorting |

How they are built. A database table is a map or a sequence of rows, and each committed UPDATE or
session is one atomic step. Whatever is outside (the model, tools, providers, clocks, uuids, what
other processes do in between) is an oracle or an action anybody may take, so each statement holds
for every behaviour of it. Protocols are total functions from a state and an action to a state,
and a run is any sequence of actions: a worker that stalls or dies is one whose next action never
comes. Classes hold the fields the Python objects and tables hold; their methods are proved to do
what the pure specification says, and the promises are then lemmas about the specification. The
cleanup runner and the outcome reconciler make their steps through their stores, with other
processes acting on the same table between any two calls.

Where code and documentation differ, the model follows the code:

- `app/pricing_cleanup.py:99-102` says reconciliation never touches DELETE_STARTED. `resolve`
  compares the token and not the state (763-771), so with a stale copy it can. Both versions are
  proved: `ReconcileSparesTheFence` gives the exact condition, `StaleCopyOutrunsTheFence` and
  `OvertakenIsReachable` a run in which it happens, the `Atomic...` lemmas the promise when read and
  write are one step. `AtMostOneDelete` holds in both.
- `_process` ignores the answer of `release`, so a reported ACTIVE need not be the row's state;
  `ReleaseReachesActive` says exactly when it is.
- In `app/connectors/pricelabs/write_client.py` an unavailable provider escapes `remove_override` only
  from the read before the DELETE, so an outcome may say `deleted` although nothing was sent. The
  log here counts attempts past the write guard.
- `app/inbox_view.py:451-469` says a seed has nothing to lose, and 625-640 that an empty read never
  replaces known activity. A poll reads the index, then the threads, then writes, and GET /inbox and the
  refresh run at once: a seed writes unguarded, a sweep and a page by a copy taken before the read.
  `LossIsExact` says exactly which write loses activity, `SeedsRace` and `TwoPollsRace` are runs in which
  one does, and `KnownActivitySurvives` is the promise for polls that do not overlap, which take one step
  each (`UndisturbedPollIsOneStep`).
- `app/inbox_view.py:399-448` presents an unreadable thread as progress merely not made. One booking
  that is not indexed and can never be read stops sweeping for good
  (`OneUnreadableBookingStopsSweeping`); `SweepingIsReachedIffAllReadable` is the exact condition.
- `app/inbox_view.py:472-507` rotates only while fewer rows are stuck than a sweep has places
  (`SweepingGoesOnIffThereIsRoom`).
- `app/pricing_reconciler.py:246-250` takes the least stamp as text for the earliest booking.
  `EarliestIffTextAgrees` is the exact condition, `LaterBookingRecordedFirst` a run where it fails.
- `app/pricing_reconciler.py:325-359` counts a booking made before the action when it reopens a row
  (`ReopeningGoesByCover`, `OldBookingReopensFinalized`), which polling never does
  (`OldBookingsCountForNothing`).
- `app/agent.py:256-279` reads PENDING in one session, and `resolve` and all that follows are written
  without asking again. AgentHistory takes a decision as one step; ApprovalOverlap takes it apart.
  `SoundIffDecidedOnce` and `LedgerIsExact` say exactly what a second decision costs,
  `TwiceMeansOverlap` that only an overlap lets one through, `OverlapLetsBothWrite` and
  `LateCopyUnbalancesAPrompt` what it then does.
- `app/conversation_refresh.py:201-252` finds a state unsettled in one session and records in another,
  whose own guard (`app/drafts.py:310-318`) spares only rows that are not up for review. DraftSafety takes a
  refresh as one step; DraftOverlap takes it apart. `SettledRowChangesExactly` and `DecidedRowsStand` are
  what holds, `FailureUnsettles` a run in which a settled draft is lost, `OverlapIsBounded` what it costs.
- The docstring of `app/conversation_refresh.py` says one model call a state; a call that fails without
  text is retried, and `ModelCallsAreBounded` counts those.

## Model

| member | source | states |
|---|---|---|
| IsoStamps.IsoOrder | app/pricing_cleanup.py:563-589 | comparing two UTC isoformat stamps as strings gives the order of the instants, even though a zero microsecond field is left off |
| CleanupOwnership.TruncationKeepsTheToken | app/pricing_cleanup.py:151-172 | a built reason cut anywhere reads back as its own token when the cut leaves the closing colon, and as no token otherwise: never as another one |
| CleanupOwnership.ReasonFits | app/pricing_cleanup.py:151-157 | the length cap never reaches into a uuid-sized token, and a text of up to 111 characters is kept whole |
| CleanupOwnership.OneOwner | app/pricing_cleanup.py:207-278 | an override proved to belong to two non-adopted records names one marker and one creation time |
| CleanupOwnership.OwnedExactly | app/pricing_cleanup.py:207-278 | an override written for a record is owned if and only if its token was not cut, its price rounds to the same dollar, and its creation and update stamps are the recorded one |
| CleanupOwnership.AdoptedOwnedExactly | app/pricing_cleanup.py:207-278 | the adopted record owns an override if and only if the price rounds to the same dollar, the creation stamp is the recorded one where one is known, and it was not updated since; whatever the reason says |
| CleanupOwnership.ForeignReasonIsRefused | app/pricing_cleanup.py:207-278 | a reason built for another marker, cut anywhere, is refused as unmarked or foreign |
| CleanupStore.DueIsExact | app/pricing_cleanup.py:796-823 | `due` holds a row if and only if it is in the table, ACTIVE, and its instant has come |
| CleanupStore.ExpiredMeansLapsed | app/pricing_cleanup.py:484-589 | a claim made at a moment is listed as expired exactly once its lease has run out |
| CleanupStore.PricingCleanupStore.MarkActive | app/pricing_cleanup.py:411-482 | whatever the row was, the answer is the state it is left in, and it is ACTIVE if and only if the row is the adopted one or the override has a creation stamp and no later update, which is what ownership is proved by |
| CleanupClaims.TrueClaimHoldsAlone | app/pricing_cleanup.py:484-526 | after a true claim, whatever sequence of calls anybody makes, the row stays CLAIMED or DELETE_STARTED under that token and every claim and every call with another token is refused, until the row is released or resolved with that token |
| CleanupClaims.SpentTokenWinsNothing | app/pricing_cleanup.py:528-773 | a token that is not on the row wins no fence, release or verdict, ever, unless the row is claimed with it |
| CleanupClaims.ActiveAgainMeansReleased | app/pricing_cleanup.py:591-620 | a claim ends in a closing verdict or is put down by its holder: a row that is ACTIVE again was released with the token that had claimed it |
| CleanupClaims.LosersChangeNothing | app/pricing_cleanup.py:484-773 | however many calls answer false, the row is what it was |
| CleanupStore.PricingCleanupStore.RecordManualResolution | app/pricing_cleanup.py:660-732 | a person closes a row exactly when text and user are given and the row is one automation gave up on; every refusal changes nothing |
| CleanupStore.PricingCleanupStore.Workload | app/pricing_cleanup.py:894-981 | the one pass counts what the table holds, its due number is the size of `due`, the oldest overdue stamp is the least among the stuck rows, and the rows named for a person are exactly the fenced, reviewed and unknown ones |
| CleanupProtocol.ExecKeepsInv | app/pricing_cleanup.py:484-785 | every interleaving of workers, stale reconcilers and people keeps the invariant that ties row, token, lease holder, attempts and DELETE log together |
| CleanupSafety.AtMostOneDelete | app/pricing_cleanup_runner.py:109-384 | over every interleaving, stall, crash and lapsed lease, at most one provider DELETE is attempted for a record |
| CleanupSafety.NoWayBackAfterDelete | app/pricing_cleanup_runner.py:223-384 | once a DELETE has been attempted the row is never ACTIVE, CLAIMED or VANISHED again and no second one follows |
| CleanupSafety.DeleteIsJustified | app/pricing_cleanup_runner.py:223-331 | behind a DELETE stands one worker that claimed, then read and proved the override owned, then crossed the fence, with its token on the row at every step from the claim to the fence |
| CleanupSafety.TokenExactlyInHands | app/pricing_cleanup.py:484-785 | a reachable row holds a token if and only if it is CLAIMED or DELETE_STARTED |
| CleanupSafety.RowEdges | app/pricing_cleanup.py:484-785 | which action may move a row out of or into each state; the only move of a fenced row not made by its holder is to NEEDS_REVIEW, by a stale copy with the same token |
| CleanupSafety.ClosedForever | app/pricing_cleanup.py:660-773 | CLEANED_UP, VANISHED and MANUALLY_RESOLVED rows never change again |
| CleanupSafety.VerdictSurvives | app/pricing_cleanup.py:660-732 | a NEEDS_REVIEW or UNKNOWN row changes only to MANUALLY_RESOLVED, and automation's own verdict, stamp and identity stay |
| CleanupSafety.ReleaseReachesActive | app/pricing_cleanup_runner.py:223-331 | putting a claim down leaves the row ACTIVE if and only if it was still held (or ACTIVE already); the source reports ACTIVE either way |
| CleanupSafety.NoTokenlessClaim | app/pricing_cleanup_runner.py:146-221 | no reconciler ever reads an expired claim without a token, so the tokenless branch never applies |
| CleanupSafety.ReconcileSparesTheFence | app/pricing_cleanup.py:763-771 | a reconciler with a stale copy leaves a DELETE_STARTED row alone if and only if the copy carries another token than the row |
| CleanupSafety.FenceHeldThroughout | app/pricing_cleanup.py:99-102 | when each reconciler reads and writes in one step, whoever crossed the fence still holds the fenced row |
| CleanupSafety.AtomicDeleteIsFenced | app/pricing_cleanup.py:99-102 | with one-step reconciling, a DELETE is sent only for a row still fenced by its sender |
| CleanupSafety.AtomicFenceMovesOnlyByHolder | app/pricing_cleanup.py:99-102 | with one-step reconciling, only the fencing worker moves a DELETE_STARTED row |
| CleanupSafety.StaleCopyOutrunsTheFence | app/pricing_cleanup.py:763-771 | with read and write split: from every such state the fenced row is settled and closed by hand, and the DELETE goes out after that |
| CleanupSafety.OvertakenIsReachable | app/pricing_cleanup.py:763-771 | that state is reached by an ordinary run from any record the system has just written, at any moment from which it is due, with the stamps `isoformat` writes |
| CleanupSafety.OneRecordOwnsAnOverride | app/pricing_cleanup.py:207-278 | no override is provably owned by two different non-adopted records |
| CleanupSafety.EachRecordRunsAlone | app/pricing_cleanup.py:281-785 | what any sequence of table events does to one record is a run of the protocol around that record |
| CleanupSafety.TableIsSafe | app/pricing_cleanup_runner.py:109-384 | over the whole table: at most one DELETE a record, and never two non-adopted records deleting the same override |
| CleanupVerdicts.DecidedAsHeard | app/pricing_cleanup_runner.py:332-384 | over every run: a CLEANED_UP row was fenced, removed with the provider confirming that it applied, and written by one worker in that order, and an UNKNOWN one the same with no answer or an unknown write state, each if and only if |
| CleanupVerdicts.LandedAsHeard | app/pricing_cleanup_runner.py:223-384 | over every run each verdict an attempt writes is the one its answer stands for: after a removal CLEANED_UP if and only if it was confirmed, NEEDS_REVIEW if and only if it was confirmed to have failed, UNKNOWN if and only if neither is known; without one VANISHED if and only if the listing is banded and nothing was found |
| CleanupVerdicts.RemovalIsWritten | app/pricing_cleanup_runner.py:332-384 | a sender whose token is still on the row writes CLEANED_UP for a confirmed removal, NEEDS_REVIEW for a confirmed failure, UNKNOWN for any other answer, whatever happened since |
| CleanupVerdicts.ReadingIsWritten | app/pricing_cleanup_runner.py:223-307 | a reader that goes no further, with its token still on the row, writes VANISHED if and only if the listing is banded and the read found nothing, and NEEDS_REVIEW otherwise |
| CleanupVerdicts.PutDownIsActive | app/pricing_cleanup_runner.py:236-331 | where nothing can have been sent (the read gave no answer, or writes are off) a release with the token still on the row makes it ACTIVE and logs no DELETE |
| CleanupRunner.PricingCleanupRunner.Process | app/pricing_cleanup_runner.py:223-384 | one claimed row from read to verdict, with others acting between any two steps: it is a run of the protocol; which state is reported follows, both ways, from whether the listing is banded, what the read and the removal answered and whether writes were on; `deleted` exactly when this worker logged a DELETE; and a committed verdict is the row's state |
| CleanupRunner.PricingCleanupRunner.Reconcile | app/pricing_cleanup_runner.py:146-221 | a lapsed claim is reported NEEDS_REVIEW without a DELETE, and as committed only if that is what the row says |
| CleanupRunner.PricingCleanupRunner.Resolve | app/pricing_cleanup_runner.py:386-446 | the outcome claims a committed verdict only when the row holds it |
| CleanupRunner.PricingCleanupRunner.RunOnce | app/pricing_cleanup_runner.py:109-144 | a whole pass amid arbitrary interference is a run of the protocol: every lapsed claim and every due row it was shown is tried, every reported deletion is a logged DELETE, and no two are for one record |
| CleanupRunner.Summarise | app/pricing_cleanup_runner.py:448-478 | the loop's counts are the true numbers of outcomes by reported state and of attempted deletions |
| AgentProtocol.ConversationRoundTrip | app/protocol.py:38-182 | a conversation persisted and restored is the same, message for message |
| AgentInvariants.DriveOk | app/agent.py:490-638 | the loop, whatever model and tools answer, leaves a sound run and a reply unless a model call raised |
| AgentInvariants.RequestActionOk | app/agent.py:163-254 | the direct path leaves a sound run for every tool, risk and outcome |
| AgentInvariants.ApproveOk | app/agent.py:327-467 | an approval, its one execution and the resumed loop leave a sound run |
| AgentInvariants.RejectOk | app/agent.py:281-325 | a rejection leaves a sound, cancelled run with its request answered |
| AgentInvariants.ReconcileRunOk | app/reconciliation.py:59-108 | reconciling a stale run keeps it sound and leaves it not RUNNING |
| AgentHistory.EveryRunIsSound | app/agent.py:138-467 | over every sequence of calls on any number of runs, every run keeps the whole invariant |
| AgentHistory.EveryPromptIsBalanced | app/agent.py:490-653 | every conversation handed to the model is one user message and then calls, each followed at once by its own result, across any number of parks and approvals |
| AgentHistory.SavedConversationsExtend | app/agent.py:640-653 | each saved conversation extends every earlier one, and the persisted form restores to the last |
| AgentHistory.StepsAndAuditAgree | app/agent.py:847-906 | the steps without model answers equal the audit log without its three entries of its own |
| AgentHistory.EveryRequestIsAnswered | app/agent.py:490-722 | every TOOL_REQUESTED is answered by exactly one outcome for the same call, with nothing but approval entries between, unless its run waits |
| AgentHistory.WaitingMeansOnePending | app/agent.py:640-697 | a resting run is WAITING_FOR_APPROVAL if and only if it has a pending approval, and it never has two |
| AgentHistory.RunningMeansRaised | app/agent.py:741-782 | a run rests in RUNNING only because a model call raised |
| AgentHistory.ModelCallsAreBounded | app/agent.py:490-638 | model calls of a run number at most max_iterations times one plus the approvals granted |
| AgentHistory.TracesAreExecutions | app/agent.py:490-638 | unless a model call raised, the traces of all responses concatenate to the TOOL_EXECUTED events |
| AgentHistory.HistoriesOnlyGrow | app/agent.py:256-467 | steps, audit, saves and traces are append-only, a decision never changes, and a finished run asks no model and runs no tool again |
| AgentHistory.ApprovedWasGranted | app/approval_store.py:131-154 | an APPROVED approval was PENDING when one decision call of the history granted it |
| AgentHistory.GatedCallsHaveTheirOwnApproval | app/tool_registry.py:102-143 | each execution of a WRITE or DANGEROUS tool has an approval of its own, naming that tool and those arguments, that a decision moved from PENDING to APPROVED |
| AgentExecutions.EveryCallIsRecorded | app/tool_registry.py:129-143 | over every history: the log has as many outcomes of calls that reach a function as there were invocations, and the j-th is what the function answered to the j-th call, with just the tool and the arguments it was asked with |
| AgentExecutions.OutcomesAreTrue | app/agent.py:814-906 | an execution or crash is on record only where a function answered just that; a failure only there, where the registry refused the call, or where the arguments could not be read |
| AgentExecutions.GatedCallsWait | app/tool_registry.py:102-143 | a requested call is held for approval if and only if its tool is registered as WRITE or DANGEROUS |
| AgentTranscript.EveryPromptIsTheTranscript | app/agent.py:490-638 | each prompt is what the steps before it spell out: the user's message, and for each answer the text and the first call, and the rendered outcome of that call, across parks and approvals |
| AgentTranscript.EveryAnswerIsTheModels | app/agent.py:741-812 | every answer on record is what the model gave to that prompt, and a run that raised did so at its last prompt |
| AgentTranscript.FirstCallIsServed | app/agent.py:520-620 | of what the model asks for, the first call is the one served next, with its tool and arguments |
| AgentTranscript.CompletedRunsAnswer | app/agent.py:520-545 | a run that asked the model and is COMPLETED has the text of its last answer, which asked for nothing |
| AgentSaves.EverySaveIsTheTranscript | app/agent.py:520-653 | over every history: a run that a message began is saved at its start, when a call is held and after every call the loop served (not after one an approval released), each time as the transcript so far, and at no other time |
| AgentReplies.EveryRunEndsOnRecord | app/agent.py:699-739 | every run rests in a status that the last entry of its log, its answer and its approvals account for |
| AgentReplies.ApprovalsCarryTheirRisk | app/agent.py:640-697 | every approval carries the registered risk of a tool that needs one |
| AgentReplies.EveryDenialIsOnRecord | app/main.py:655-685 | the log names each user turned away from deciding an approval, and nobody else |
| AgentReplies.EveryReplyIsTrue | app/agent.py:138-467 | what each entry point replies is what has become of the run: its status, its answer or open approval, and the executions since |
| AgentReplies.GivingUpMeansAsked | app/agent.py:622-638 | the loop gives up only when it has asked the model as often as it may |
| ApprovalOverlap.UndisturbedDecisionIsOneStep | app/agent.py:256-467 | with the status read, the conversation copied and the decision written in steps of their own: with nobody in between, a decision is the one step that AgentHistory takes it for |
| ApprovalOverlap.TwiceMeansOverlap | app/agent.py:256-279 | over every interleaving of decisions, refusals and sweeps: two decisions were written on one approval only if at some moment both had read PENDING and neither had written |
| ApprovalConflicts.SoundIffDecidedOnce | app/approval_store.py:131-154 | over every interleaving, a run keeps the whole invariant (histories, balanced prompts, approvals, invocations, budget) if and only if no approval of it was decided twice |
| ApprovalLedger.LedgerIsExact | app/agent.py:327-467 | over every interleaving, a call was executed under its approval exactly once for each decision that approved it, and not at all if the registry never gets as far as the function |
| ApprovalLedger.UnsoundMeansOverlap | app/agent.py:256-467 | a run is unsound only if two decisions on one approval overlapped |
| ApprovalLedger.RunTwiceMeansOverlap | app/agent.py:327-467 | two invocations carry one approval only if two decisions that approve it overlapped |
| ApprovalLedger.RunThoughRejectedMeansOverlap | app/agent.py:281-325 | a call was executed although its approval reads REJECTED only if one decision that approves it and one that rejects it overlapped |
| ApprovalLedger.ApartMeansSound | app/agent.py:256-467 | where no two decisions on one approval overlap, the run is sound, each approval released its call at most once, and a REJECTED one never |
| ApprovalLedger.OverlapLetsBothWrite | app/approval_store.py:131-154 | from every overlap both can write, and then the run is unsound, the call was executed once more for each of the two that approves it, the later word is the status, and a rejection after an execution leaves the run CANCELLED |
| ApprovalLedger.LatePromptIsBalancedIff | app/agent.py:335-345 | whatever the run has become, an approval first asks the model about the conversation it copied and its result; that prompt is balanced if and only if the copy ends in this very call, unanswered |
| ApprovalLedger.LateCopyUnbalancesAPrompt | app/agent.py:335-345 | two approve one approval and the second copies the conversation when the first is through: if the first saved more and did not park again, the model is sent an unbalanced prompt |
| ApprovalLedger.SomePromptIsUnbalanced | app/agent.py:327-467 | such a run: a model that asks for a gated call, then for a read, then answers |
| AgentServices.AgentService.ExecuteTool | app/tool_registry.py:102-143 | the registry's branches in order: unknown tool, approval required, reserved argument, call |
| AgentServices.AgentService.ParkRun | app/agent.py:640-697 | parking saves the conversation, opens one pending approval and records it in both histories |
| AgentServices.AgentService.ServeCall | app/agent.py:520-620 | one answered model call, write by write, does to the run what the specification says and touches no other run |
| AgentServices.AgentService.DriveRun | app/agent.py:490-638 | the bounded loop over the stores computes the recursive specification of `drive` |
| AgentServices.AgentService.RunMessage | app/agent.py:138-161 | a started run becomes the specified run, and every run stays sound |
| AgentServices.AgentService.RequestTool | app/agent.py:163-254 | a direct request becomes the specified run, and every run stays sound |
| AgentServices.AgentService.Resolve | app/agent.py:256-279 | a decision on a pending approval does what the specification says; on any other it changes nothing |
| AgentServices.AgentService.ReconcileStale | app/reconciliation.py:59-108 | exactly the runs that are RUNNING and were last written before the cutoff are failed, in whatever order they are listed and although the cutoff is compared as text; all others are left as they are |
| PricingConfig.FirstMatchDecides | app/pricing_config.py:543-569 | the band found is the first that matches, and none is found only when none matches |
| PricingConfig.DynamicFloorIsSafe | app/pricing_config.py:543-569 | the dynamic floor is never below the hard floor, nor below the floor of a band that matches |
| PricingConfig.BandsAreSound | app/pricing_config.py:378-538 | for every listing of the table the limits are positive and ordered, and a schedule, where there is one, names a floor for every night |
| PricingPolicy.CapSafeIffPossible | app/pricing_policy.py:226-264 | the proposal is within the cap if and only if some whole-dollar price is |
| PricingPolicy.CapAdmitsAWholeDollar | app/pricing_policy.py:226-264 | from five dollars up there always is one |
| PricingPolicy.CapSafeIsNearest | app/pricing_policy.py:210-264 | of all whole-dollar prices within the cap, the proposal is one nearest to the target, or to the end of the cap that the target is past |
| PricingPolicy.FullStepDown | app/pricing_policy.py:226-264 | a target at or past the cap gives exactly the ceiling of nine tenths, the least whole-dollar price the cap allows |
| PricingPolicy.FullStepUp | app/pricing_policy.py:226-264 | a target at or past the cap gives exactly the floor of eleven tenths, the greatest the cap allows |
| PricingPolicy.CapNeverRefusesItsOwn | app/pricing_policy.py:267-308 | from five dollars up the guardrail never refuses a cap-safe proposal for its size |
| PricingPolicy.RefusalsAreTrue | app/pricing_policy.py:267-308 | the refusal named is one that applies: no bands and low confidence if and only if so and in that order, a step too large, a floor or a ceiling only where it is passed |
| PricingRecommendations.SurvivingLower | app/pricing_recommendations.py:218-270 | a LOWER that comes out is a whole-dollar price below the current one, at or above the hard floor, within the cap and its slack, at least the historical price less a half |
| PricingRecommendations.SurvivingRaise | app/pricing_recommendations.py:259-289 | a RAISE that comes out is a whole-dollar price above the current one, at most both ceilings, within the cap and its slack |
| PricingDecisions.NightIsDecided | app/pricing_recommendations.py:181-296 | every night not pinned: a LOWER is proposed if and only if the history rule applies, a RAISE if and only if the market rule does and the history rule does not, and it is held otherwise; each with its strength written out; a proposal that does not come out is held as refused |
| PricingDecisions.LowerComesOut | app/pricing_recommendations.py:218-257 | a LOWER aims at the history or a tenth down, whichever is nearer, and comes out if and only if there are bands and market occupancy, it is a move, and it is not below the hard floor |
| PricingDecisions.RaiseComesOut | app/pricing_recommendations.py:259-289 | a RAISE aims at p25 or a tenth up, whichever is nearer, and comes out if and only if there are bands and market occupancy, it is a move, and it passes neither ceiling |
| PricingDecisions.PinnedNightIsDecided | app/pricing_recommendations.py:155-180 | a pin is removed if and only if the night is open, its date strong, the market has passed its price, and nothing is missing; it is kept otherwise, as refused where the market had passed it |
| PricingDecisions.ConfidenceMeans | app/pricing_recommendations.py:114-131 | confidence is low if and only if market occupancy is missing, and high if and only if besides it demand is known and three years of history are |
| PricingDecisions.NotesAreTrue | app/pricing_policy.py:311-428 | a note that a person must decide, or that the price is under the floor the owner wants, is there if and only if it is true |
| PricingReplay.ReplayStops | app/pricing_recommendations.py:218-257 | feeding each surviving LOWER back in always stops, after at most one step per dollar above the floor, with every price above the hard floor and the historical price less a half, and each below the one before |
| PricingReplay.ReplayRests | app/pricing_recommendations.py:218-270 | on a near-term date without strength signals the replay comes to rest on HOLD |
| PricingReplay.MixedReplayRests | app/pricing_recommendations.py:211-289 | following LOWER and RAISE alike comes to rest, within the dollars below the price and those up to p25: without signals, beyond fourteen days, without weak demand, without history, and whenever p25 and a half is at most 1.15 times the history |
| PricingReplay.MixedReplayIsDecided | app/pricing_recommendations.py:181-289 | on every night whatever: if following LOWER and RAISE alike has not come to rest within as many steps as there are dollars to move in, it never will |
| PricingReplay.TornNightsNeverRest | app/pricing_recommendations.py:218-270 | on every near-term night with weak demand and a strength signal, a history line of 17 or more, p25 and both ceilings a tenth above it and the hard floor a tenth below it, no decision from any price of 15 or more is ever HOLD: the two rules undo each other for ever |
| Outcomes.CoversIffBetween | app/pricing_reconciler.py:73-94 | a reservation occupies a night if and only if check-in is on or before it and check-out after it |
| Outcomes.EarliestIsLeast | app/pricing_reconciler.py:247-250 | the booking picked is least by its stamp as text |
| Outcomes.FinalizableIsLate | app/pricing_reconciler.py:384-407 | a row that may be finalized is thirty days past its night and past the check-out of every stay that covers it |
| Outcomes.FinalizableExactly | app/pricing_reconciler.py:384-407 | a row may be finalized if and only if it had three passes and a month is over since the last covering check-out, or since the night where nothing covers it |
| Outcomes.DueMeans | app/pricing_reconciler.py:362-381 | a row is due from a day after its last look while the stay date has not passed, from a week after it in any case, and not before |
| Outcomes.DueLapses | app/pricing_reconciler.py:362-381 | so a look that was due and not taken lapses exactly when the stay date passes, until the week is over |
| Outcomes.OneRacerWrites | app/pricing_outcomes.py:156-200 | however many passes race to record the first booking, only the first to arrive is told that it wrote, only on a row that had none, and what it wrote stays |
| Outcomes.PricingOutcomeStore.SetCurrent | app/pricing_outcomes.py:202-256 | the current columns are overwritten, the cancellation flag only when given, the cancellation stamp only once, and `first_*` never |
| OutcomeProtocol.ExecKeepsInv | app/pricing_reconciler.py:231-359 | every interleaving of passes and reopenings with stale copies keeps the row sound |
| OutcomeSafety.EvidenceIsWriteOnce | app/pricing_outcomes.py:156-256 | over any later steps the first booking, the cancellation flag and its stamp never change once written, and the pass count never falls |
| OutcomeSafety.FirstBookingQualified | app/pricing_reconciler.py:97-116 | a recorded first booking was shown to some pass, was made after the action and covers the night |
| OutcomeSafety.CurrentBookingQualified | app/pricing_reconciler.py:268-286 | a reservation named as holding the night was shown to some pass, qualifies, and the row says BOOKED |
| OutcomeSafety.CancellationsAreOfBookings | app/pricing_reconciler.py:288-302 | CANCELLED implies a recorded first booking, and the flag and the stamp of the first notice go together |
| OutcomeSafety.PassConcludes | app/pricing_reconciler.py:262-323 | the concluding step of a pass leaves the row BOOKED if and only if something it was shown qualifies, CANCELLED if and only if nothing does and its copy held a first booking, NONE otherwise; CANCELLED comes with the flag and the stamp of first notice; the other columns are as stated |
| OutcomeSafety.PassNotes | app/pricing_reconciler.py:246-260 | the first step of a pass records the least qualifying booking if and only if neither its copy nor the row had one and one was shown, and changes nothing else |
| OutcomeSafety.PassesBegin | app/pricing_reconciler.py:157-209 | a pass begins if and only if the row is not finalized and is due, and keeps the row as it reads it |
| OutcomeSafety.FirstCancellationIsKept | app/pricing_outcomes.py:202-256 | over every run: the cancellation flag and stamp are there if and only if some pass concluded one, and the stamp is the moment of the first |
| OutcomeSafety.FinalizedRowsAreSettled | app/pricing_reconciler.py:384-407 | a finalized row had three passes and is thirty days past its night |
| OutcomeSafety.FirstIsEarliest | app/pricing_reconciler.py:246-260 | over every run the first booking on the row is the one some pass took from what it was shown, and the earliest qualifying one shown to that pass if the stamps it was shown agree with time |
| OutcomeSafety.EarliestIffTextAgrees | app/pricing_reconciler.py:249-250 | every list drawn from a set of reservations records its earliest qualifying booking if and only if text order is time order on the qualifying pairs of the set |
| OutcomeSafety.IsoStampsAgree | app/pricing_reconciler.py:249-250 | UTC stamps as `isoformat` writes them do agree |
| OutcomeSafety.LaterBookingRecordedFirst | app/pricing_reconciler.py:249-250 | with other offsets they need not: of a booking made at ten, stamped +14:00, and one made at noon, the run records the one at noon |
| OutcomeSafety.OldBookingsCountForNothing | app/pricing_reconciler.py:97-116 | while nothing shown was booked after the action, polling makes neither a booking nor a cancellation of the row |
| OutcomeSafety.ReopeningGoesByCover | app/pricing_reconciler.py:325-359 | whatever the row and its history, reopening leaves it BOOKED if and only if a booked reservation covering the night is shown, CANCELLED or NONE otherwise by whether a first booking is recorded, and BOOKED without a booking made after the action if and only if, besides, every such one was made by then or cannot be dated |
| OutcomeSafety.OldBookingReopensFinalized | app/pricing_reconciler.py:325-359 | a row that three quiet passes had finalized as never booked is BOOKED again by a stay sold before the action |
| OutcomeReconciler.RowReconciler.Reconcile | app/pricing_reconciler.py:231-323 | one pass through the store, with others acting between its calls, is a run of the protocol; it reports BOOKED if and only if a reservation it fetched qualifies, CANCELLED if and only if none does and its copy held a first booking, NONE if and only if neither; a cancellation as observed only where the copy had not said so |
| OutcomeReconciler.RowReconciler.ReopenIfChanged | app/pricing_reconciler.py:325-359 | reopening, with others acting between its two store calls, is a run of the protocol; it answers whether what covers the night disagreed with the copy, and then the row says what covers it: BOOKED, or CANCELLED or NONE by the first booking it holds |
| Hospitality.UnansweredIsOpen | app/hospitality.py:1276-1289 | the unanswered texts are exactly those of guest messages with nothing of ours after them |
| Hospitality.VerdictMeans | app/hospitality.py:1335-1342 | already_replied means no guest message is open, reply_needed that an open one does not close the exchange, both ways |
| Hospitality.FlagsMean | app/hospitality.py:1312-1333 | each of the four request flags is raised if and only if an open guest message is one its own classifier accepts |
| Hospitality.SignalsMean | app/hospitality.py:1290-1311 | the open signals and the business categories are exactly those of the open guest messages |
| Hospitality.AnsweredClearsEverything | app/hospitality.py:1252-1382 | once we have written after the last guest message every open-request flag is false |
| Drafts.DraftStore.RecordOutcome | app/drafts.py:284-346 | a row for the state is kept as it is unless it asks for review |
| Drafts.DraftStore.Edit | app/drafts.py:348-390 | an edit keeps the fields not given, and is refused on an unknown, sent or discarded draft |
| Drafts.DraftStore.MarkSent | app/drafts.py:431-451 | a known draft becomes SENT and nothing else changes |
| Drafts.DraftStore.LatestByConversation | app/drafts.py:496-504 | the walk in row order finds for every conversation the row the per-conversation query finds |
| ConversationRefresh.ConversationRefreshService.ProcessConversation | app/conversation_refresh.py:201-339 | the escalation reassigned topic by topic and the recording do what the specification of one refresh says, and a skipped refresh changes nothing |
| DraftMeaning.EscalationMeans | app/conversation_refresh.py:291-334 | a reply is escalated if and only if something is the owner's to decide (a late check-out, an early check-in by the turnover, a longer stay, cancellation mechanics or an offer accepted), for the last topic that applies |
| DraftMeaning.VisitsGoOn | app/conversation_refresh.py:201-252 | a refresh goes on if and only if there is a thread and its state is unsettled or regenerated |
| DraftMeaning.ModelIsAsked | app/conversation_refresh.py:254-290 | and asks the model if and only if something is open that is not a mere closing, or anything is and a person asked again |
| DraftMeaning.AnswersAreKept | app/conversation_refresh.py:363-497 | what an answer comes to: ready, closed in silence or for review, each if and only if, with the text and the subject it is stored with |
| DraftMeaning.ReasonsAreTrue | app/conversation_refresh.py:402-497 | the reason for review that a person is shown is a true one |
| DraftMeaning.SilencesAreExplained | app/conversation_refresh.py:79-113 | a silence not accepted is on record with exactly the signals that were open, and whether a person had asked again |
| DraftSafety.UnforcedTouchesOnlyItsOwn | app/conversation_refresh.py:201-252 | an unforced refresh changes at most its own state's row, and not even that once it is settled |
| DraftSafety.SettledStatesCostNothing | app/conversation_refresh.py:201-252 | once a state is settled no sequence of refreshes, edits and sends without its own Regenerate makes another model call for it |
| DraftSafety.ModelCallsAreBounded | app/conversation_refresh.py:363-497 | a state nobody regenerates costs at most one model call plus one for each that failed without text |
| DraftSafety.OwedRepliesAreNeverSilenced | app/conversation_refresh.py:402-453 | a state with an open guest message that asks something or does not close is never stored NO_REPLY_NEEDED, whatever the model answers and forced or not |
| DraftSafety.ReadyDraftsAreClear | app/conversation_refresh.py:455-497 | a DRAFT_READY row was written by a model call with nothing to escalate, holds text passing both policy checks, and answers a state where some guest message is open but none asks for a check-out past the ceiling or a longer stay, and none at all asks how a cancellation works |
| DraftSafety.OurLastWordEndsIt | app/conversation_refresh.py:271-282 | a conversation whose last word is ours never reaches the model, forced or not |
| DraftOverlap.UndisturbedVisitsAreSteps | app/conversation_refresh.py:201-252 | with the guard and the write of a refresh in steps of their own: visits with nobody in between are the one-step operations of DraftSafety |
| DraftOverlap.SettledRowChangesExactly | app/drafts.py:284-346 | of all steps but a person's own edit or send, a settled row that nobody regenerates is changed by exactly this one: a refresh under way for it records, the row as it then is asks for review, and the outcome is another |
| DraftOverlap.DecidedRowsStand | app/drafts.py:310-318 | over every interleaving, a row that is ready, edited, sent or needs no reply is changed by no unforced refresh and costs no further model call |
| DraftOverlap.OverlapIsBounded | app/conversation_refresh.py:201-252 | with at most w refreshes of one state under way at a time, its model calls are at most those that failed and w for each time it had to be settled, and each time but the first takes a failure |
| DraftOverlap.OneAtATimeSettlesOnce | app/conversation_refresh.py:201-252 | with one at a time for that state, whatever goes on elsewhere, it stays settled once it is, at one model call and one for each that failed |
| DraftOverlap.FailureUnsettles | app/drafts.py:310-318 | two overlap, the first records an escalated draft and the failed call of the second wipes it out: a third refresh, which overlaps neither, asks the model again |
| DraftOverlap.OverlapSilencesNobody | app/conversation_refresh.py:363-497 | however refreshes overlap, a state stored as needing no reply has only open messages that close and ask nothing, and a ready draft came from a call with nothing to escalate, passes both checks and leaves nothing of the owner's open |
| InboxView.DiscoveryIsPermutation | app/inbox_view.py:282-319 | the discovery order lists every reference exactly as often as it was given |
| InboxView.UnindexedComeFirst | app/inbox_view.py:282-319 | every never-read conversation comes before every indexed one |
| InboxView.TwoSortsAreOneOrder | app/inbox_view.py:303-319 | the two stable sorts leave the rows in the composite order: newer message first, unknown last, reference ascending |
| InboxView.DiscoveryAgreesWithDatabase | app/conversation_activity.py:200-203 | the indexed part of a discovery is exactly what ordering those rows in the database gives |
| ConversationActivity.UpsertedRefs | app/conversation_activity.py:109-155 | an upsert keeps references unique and adds at most its own |
| ConversationActivity.UpsertedMeans | app/conversation_activity.py:109-155 | a row that stands for the reference takes the new summary and stamp and keeps when it was first seen; without one, one row is added; no other changes |
| ConversationActivity.ConversationActivityStore.Upsert | app/conversation_activity.py:109-155 | one row a reference, `first_seen_at` written once, `last_refreshed_at` every time |
| ConversationActivity.ConversationActivityStore.KnownRefs | app/conversation_activity.py:243-268 | the chunked lookup answers what one unbounded query would |
| ConversationActivity.ConversationActivityStore.OldestRefreshedAt | app/conversation_activity.py:270-294 | the chunked minimum is the least stamp among all rows asked for, or absent if there is none |
| IndexMaintenance.LossIsExact | app/inbox_view.py:585-640 | known activity is lost by a write if and only if the row holds some, the read is empty, and the copy it is judged by held none; a seed is judged by no copy at all |
| IndexMaintenance.LossMeans | app/inbox_view.py:600-640 | the same by the fields: a row with a last message or a count of messages becomes one without either if and only if the read has neither and the copy, if any, had neither |
| IndexMaintenance.StepLosesExactly | app/inbox_view.py:451-507 | of all steps of overlapping polls and webhooks exactly such a write, or an empty webhook, loses what was known |
| IndexMaintenance.LostByAnOverwrite | app/inbox_view.py:451-695 | over every interleaving of seeds, sweeps, pages and webhooks, activity that is gone was lost at one such step |
| IndexMaintenance.SeedsRace | app/inbox_view.py:451-469 | two polls that both found a booking unindexed: the later write of the emptier read wipes out the activity the other one wrote |
| IndexMaintenance.TwoPollsRace | app/inbox_view.py:442-507 | two polls of any kind (seeding, sweeping, paging) begin together and see one thread, the first as empty and the second with activity: written in the other order, the activity is lost if and only if the index held none of that thread when they began |
| IndexMaintenance.UndisturbedPollIsOneStep | app/inbox_view.py:399-507 | a poll with nobody between its reads and its writes does what the one-step model says |
| IndexMaintenance.KnownActivitySurvives | app/inbox_view.py:600-640 | polls that do not overlap never turn known activity into none, whatever they look at and read |
| SweepCoverage.SweepServes | app/inbox_view.py:472-507 | one sweep serves every waiting row, or as many as it has places not taken by stuck ones |
| SweepCoverage.SweepsReachEverybody | app/inbox_view.py:472-507 | while fewer rows are stuck (not observed, or known and read as empty) than a sweep has places, every other row is refreshed once the remaining places cover the others; with none stuck, within the size of the index over that of a sweep, rounded up |
| SweepCoverage.StuckRowsStarveTheRest | app/inbox_view.py:472-507 | with as many stuck rows as places, wherever they are, after at most as many sweeps as there are other rows nothing is ever refreshed again |
| SweepCoverage.SweepingGoesOnIffThereIsRoom | app/inbox_view.py:472-507 | once they had time to gather, another sweep changes something if and only if fewer rows are stuck than it has places and some row is not stuck |
| SeedCoverage.SeedingMovesIffObserved | app/inbox_view.py:428-440 | a cycle with bookings left to seed leaves the index as it is if and only if none of its batch is observed |
| SeedCoverage.OneUnreadableBookingStopsSweeping | app/inbox_view.py:428-448 | one unindexed booking that cannot be read stops sweeping for good: no row is ever refreshed, however many cycles run |
| SeedCoverage.SweepingIsReachedIffAllReadable | app/inbox_view.py:428-448 | once cycles had room for all that was unseeded, nothing is left to seed, and so sweeping runs, if and only if every unseeded booking can be read |
| InboxIndexer.ActivityIndexer.Seed | app/inbox_view.py:451-469 | the loop writes every observed reference of its batch over whatever the index holds by then, and counts them |
| InboxIndexer.ActivityIndexer.SweepRows | app/inbox_view.py:487-507 | the loop judges each read by the row as it was copied and writes it to the index as it is |
| InboxIndexer.ActivityIndexer.Sweep | app/inbox_view.py:472-507 | the loop refreshes exactly the observed, superseding rows of the oldest slice and counts them |
| InboxIndexer.ActivityIndexer.Prepare | app/inbox_view.py:399-448 | seeding outranks sweeping, and the number reported as left to seed is the number that is |
| InboxIndexer.ActivityIndexer.Enrich | app/inbox_view.py:643-695 | in place, each page row without a preview becomes what was read of it if that supersedes the page row, and stays otherwise; the index takes the same reads |
| InboxIndexer.ActivityIndexer.BuildPage | app/inbox_view.py:360-385 | a page is the first rows of the index in activity order, of one property or of all, each enriched |
| InboxIndexer.PageIsTheFirstOfItsProperty | app/conversation_activity.py:170-206 | a page holds rows of its property alone, or of any, in activity order, and a row of the property is missing only from a full page, behind all that are on it |
| Similarity.DotIsBounded | app/reply_retrieval.py:182-199 | the Cauchy-Schwarz inequality for the dot product of two non-negative weight vectors |
| Similarity.CosineIsBounded | app/reply_retrieval.py:182-199 | the cosine of two vectors of non-negative weights lies between 0 and 1 |
| Similarity.SetSimilarityIsIntegral | app/knowledge_consolidation.py:133-144 | similarity of two word sets reaches a threshold if and only if a comparison of whole numbers holds |
| KnowledgeConsolidation.MergeSpansBoth | app/knowledge_consolidation.py:147-181 | a merged rule spans from the least to the greatest stamp of both |
| KnowledgeConsolidation.FoldedSpans | app/knowledge_consolidation.py:147-181 | a rule folded of several spans whatever any of them was observed on |
| KnowledgeConsolidation.ConsolidationIsSound | app/knowledge_consolidation.py:184-215 | consolidation conserves the union of the evidence, and leaves no two rules of one bucket at or above the duplicate threshold |
| KnowledgeConsolidation.KeptWordingIsBestSupported | app/knowledge_consolidation.py:184-215 | the kept rules partition their bucket (the rules of one property, topic and audience) into groups, each folded from its members and worded as one with the most evidence among them |
| KnowledgeConsolidation.ConsolidateBucket | app/knowledge_consolidation.py:199-213 | the nested loop over one bucket computes the specified placement |
| KnowledgeConsolidation.Consolidate | app/knowledge_consolidation.py:184-215 | buckets in order of first appearance, each merged, as specified |
| GlobalPromotion.CheckMayBeGlobal | app/knowledge_consolidation.py:218-255 | the loops decide exactly the four conditions |
| GlobalPromotion.PromotionIsSound | app/knowledge_consolidation.py:258-321 | promotion conserves the union of the evidence, and each rule it adds rests on three properties at least, on no number and on no local wording |
| GlobalPromotion.PromotedExactly | app/knowledge_consolidation.py:258-321 | a topic is promoted if and only if what is near its best supported rule agrees; it then loses exactly those rules, and every other rule stays |
| GlobalPromotion.PromotedRuleSpeaksForAll | app/knowledge_consolidation.py:300-321 | a promoted rule has the words of the best supported one, and exactly the evidence, properties and safety reasons of its cluster |
| GlobalPromotion.PromotedRuleSpansAll | app/knowledge_consolidation.py:300-321 | and what it was first and last seen on spans what each of its cluster was |
| GlobalPromotion.PromoteRules | app/knowledge_consolidation.py:258-321 | the loops over topics and candidates compute the specified result and count |
| HistoricalReplies.ExchangesAreThePairs | app/historical_replies.py:268-358 | every exchange pairs a maximal guest run, on the guest's side, with the maximal owner run at once behind it, on ours, both at least three characters long; every such pair is there; no reference is there twice |
| HistoricalReplies.BodiesMean | app/historical_replies.py:285-330 | what a run says is each row's words in order, without empty rows and without system messages of ours |
| HistoricalReplies.FirstCreatedMeans | app/historical_replies.py:285-330 | an exchange is dated by the first guest row that says something and has a stamp |
| HistoricalReplies.ExtractExchanges | app/historical_replies.py:268-358 | the nested scan terminates and computes that declarative reading |
| HistoricalReplies.HistoricalReplyStore.Upsert | app/historical_replies.py:395-438 | each exchange is inserted or refreshed, and the two counts are the true ones |
| HistoricalReplies.FirstStampStays | app/historical_replies.py:395-438 | a row keeps the stamp of the first exchange it was ever given |
| HistoricalReplies.LastSourceCounts | app/historical_replies.py:395-438 | its property and source are those of the last exchange with its reference; a row given none is as it was |
| HistoricalReplies.IndexingAgainCreatesNothing | app/historical_replies.py:395-438 | indexing the same exchanges again adds no row |

## Left out

- HTTP routes, FastAPI wiring, Pydantic models, authentication, roles, CLI jobs and the console: plumbing over the parts above.
- SQLAlchemy, Alembic and JSON text encoding: a stored value is the value; SELECTs that return several rows are read row by row where other processes act in between.
- The Lodgify, PriceLabs and OpenAI clients: oracles with success, refusal and unavailable answers.
- Regexes, marker lists, redaction, topic detection, tokenising and prompt text: uninterpreted functions of the text, or fields that hold their result.
- SHA-256, uuid4 and the blake2s message references: an identity stands for what it is taken of, and a fresh one never repeats. An approval's uuid is its run and its place there.
- Float rounding: prices, weights and norms are reals; Python's half-to-even `round` is explicit.
- Wording of reasons, details and notes in pricing, cleanup and drafting, as they decide nothing.
- Triage display, overview counts, model cost, observability, webhook decoding, provenance headers, seeds: they would add only easy members.
- Audit rows of the cleanup runner, and `oldest_overdue_hours`: derived from what is modelled.
- CleanupProtocol.ExecKeepsInv: confirms a write only on a PENDING_WRITE row, as its one caller does; the unconditional write of `mark_active` would take a claimed row from its holder.
- CleanupRunner.PricingCleanupRunner.RunOnce: queries return their rows in any order, one claim token belongs to one attempt, and no two processes share a clock.
- CleanupRunner.PricingCleanupRunner.PutDown: reports ACTIVE whatever became of the row, as the source does.
- AgentHistory.EveryRunIsSound: entry points are atomic; decisions that overlap are in ApprovalOverlap. There everything a decision writes, to the end of the loop it resumes, is one step, and a process that dies inside it is not modelled.
- AgentServices.AgentService.ExecuteTool: tool results are JSON values, and a callable that itself raises the approval exception is not modelled.
- AgentServices.AgentService.ReconcileStale: the time each run was last written is given, not kept up by the other methods; listing and failing are one step.
- PricingConfig.BandsAreSound: `automation_enabled`, the verification gates and the basis texts are not modelled.
- PricingReplay.ReplayStops: is about LOWER alone; `MixedReplayRests` and `TornNightsNeverRest` are about both.
- PricingReplay.MixedReplayRests: between its nights and those of `TornNightsNeverRest` it depends on the price; `MixedReplayIsDecided` bounds the steps that tell.
- Outcomes.OneRacerWrites: the derived columns for lead days and hours are not modelled; the six columns are written as one. `touch`, which the reconciler never calls, is left out.
- OutcomeSafety.OldBookingsCountForNothing: is about polling; reopening is the exception proved beside it. `FINALIZATION_STABLE_PASSES` is never used by the source and is not modelled.
- OutcomeReconciler.RowReconciler.Reconcile: is one row's pass; grouping rows by listing, the windowed fetch and an unavailable provider (which leaves all rows alone) are not modelled.
- ConversationRefresh.ConversationRefreshService.ProcessConversation: one refresh is atomic; overlapping ones are in DraftOverlap, where the guard, the analysis and the model call are one step, and each session that writes another; the failure of the turnover lookup is the absent answer it becomes; property slug and stamps are not modelled.
- DraftSafety.OurLastWordEndsIt: does not cover the cancellation escalation, which reads all guest messages; that only decides how a reply is escalated once the model is asked.
- SweepCoverage.SweepsReachEverybody: stamps are instants, which string order agrees with (`IsoOrder`); the same rows are stuck throughout, and nobody else writes between the sweeps.
- SeedCoverage.SweepingIsReachedIffAllReadable: the same bookings are listed throughout; `OneUnreadableBookingStopsSweeping` asks only that the one is.
- Similarity.CosineIsBounded: the two norms are given as square roots, not computed.
- GlobalPromotion.PromoteRules: Python's object identity is a position in the list, so the same object listed twice would count twice.
- HistoricalReplies.ExchangesAreThePairs: bodies come redacted, rows that are not dictionaries are left out, and topics and `indexed_at` are not modelled.
- Ranking of retrieved examples (`score_example`, `find`) and inverse document frequencies.
- Drafts' `status_for` and operator attention, `DiscoveryCache`, and the Inbox page's own flags.
