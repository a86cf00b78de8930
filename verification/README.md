# Verification of the paid-run control plane

The control plane in `ops/pi` spends real money on model calls and publishes what comes of
them, so its guarantees have to hold whatever order its processes run in and wherever they
crash. This project models its core in Dafny and proves those guarantees for all inputs and
all runs.

Verify everything with `dafny verify dfyconfig.toml`.

## What is modelled

**The operation ledger and the metered budget.** `Ledger.dfy` is the insert-only operation
table with its append-only event log; what one committed transaction leaves behind is a value
of type `State`. `Authority.dfy` recomputes the effective limits of the local trial from
immutable rows and approval events and holds the four one-way amendments; `Pricing.dfy` and
`Reservation.dfy` reserve a worst-case price before a call and settle it from reported usage.
`LedgerStore.dfy` is the same as the host runs it: a class with the rows and the events as
fields, every method one transaction, rolled back when it is refused, with the source's loops
over rows, events and usage dimensions. Its methods follow the functions that specify them
closely; what they add is that the loops compute those functions, that a refusal leaves nothing
behind, and that the invariant holds after every call. The same goes for `RunHost.dfy`.

`Decisions.dfy` and `RunDecisions.dfy` say what each of these transactions decides and writes
in the fields of rows and requests alone, without the functions the transactions are made of:
exactly when each is accepted, what it charges or grants, and what its rows then hold. Their
hypothesis is the invariant, which `Machine.Reachable` gives for every ledger a run reaches.

**Thirty-slot analysis runs on the same ledger.** `AnalysisRun.dfy` and `AnalysisBudget.dfy`
hold ordered claims, immutable outcomes, token bindings, the frozen budget of a run and the
authorisation of one attempt a slot; `RunHost.dfy` is the imperative form.

**All interleavings.** `Machine.dfy` has one step for each transaction of any host (reserve,
reserve for a slot, settle, amend, create, claim, finish, bind a token, bind a budget, the
phase fence, admissions and other operations). A refused or crashed transaction is a step that
changes nothing, and a run is any sequence of steps from the empty ledger. `BudgetSafety.dfy`,
`BudgetSteps.dfy`, `RunSafety.dfy` and `RunSteps.dfy` prove what every step keeps, and
`Guarantees.dfy` states what follows for every run. `Preflight.dfy` is the independent recount.

**Container ownership.** `ContainerProbe.dfy` models the probe host against an adversarial
daemon: creates and removals may take effect late or never, any answer may be lost, containers
start, stop and vanish by themselves. The daemon does not lie and never reuses an identifier.
It logs what it was asked and how it answered, so that the host's methods also say what they
ask for and that every failure has a cause in those answers.

**Backups.** `BackupPublication.dfy` is the publication of one backup as a crash-and-restart
protocol, with a crash or an exception at every numbered point; `Retention.dfy` selects what may
be deleted.

**Evidence.** `Utf8.dfy` is strict UTF-8 (RFC 3629, sections 3 and 4) over code points with
surrogates; `Evidence.dfy` validates byte-offset citations and derives offsets of unique
quotes; `BlindReview.dfy` blinds evidence for a judge, restores its references, and shows that
the check of a citation does not notice, over the JSON values of `JsonData.dfy`;
`FrameStream.dfy` reads bounded newline frames from arbitrary chunks; `Audit.dfy` and
`AuditExport.dfy` hold the audit chain, its pages and its indexes.

**Two smaller machines.** `DevelopmentLimits.dfy` is the completion reserve of a development
run. `AdminConsole.dfy` is the administrator's publication console with its threads, the
publisher's claims and restarts, acting on the approval gate of `NightlyGate.dfy`, whose cycles
others move meanwhile and whose approvals can lapse at any time.

## Where the code does not keep what one might expect

- Recomputing the limits can fail on a reachable ledger: a policy with a budget of zero and free
  prices opens a scope that every later recomputation refuses
  (`Guarantees.ZeroBudgetLocksTheTrial`). It succeeds exactly when the scope is funded
  (`Guarantees.LimitsRecomputable`), which holds in every run whose policies carry a positive
  budget or none (`Guarantees.LimitsNeverFail`). `reserve` itself accepts such a policy, but one
  read by `load_policy` never has it: a budget has to be positive there (ops/pi/policy.py:75-81).
- The preflight recount can reject a reachable ledger: a policy with a negative input bound
  reserves less than nothing (`Guarantees.NegativeBoundSpoilsTheRecount`). It succeeds exactly
  when no accepted reservation of the run was quoted below zero (`Guarantees.RecountOnRuns`),
  which holds in every run whose policies have non-negative input bounds
  (`Guarantees.RecountNeverFails`); `load_policy` reads no others (ops/pi/policy.py:75-81).
- The console can record as failed a command whose publication had begun: its exception handler
  reads the gate's one phase after the publication lock is released, and the gate reports that it
  waits for an approval once the approval on record has lapsed, or once the cycle is over and the
  next one waits (`AdminConsole.LapsedPublicationFails` is such a history, and
  `AdminConsole.LapseMisrecords` says that a lapse is always enough before deployment is
  attested). It happens exactly when the handler finds the gate so
  (`AdminConsole.MisrecordedExactly`), and never while the approval does not lapse and nobody
  ends the cycle (`AdminConsole.UndisturbedNeverFails`). The cycle can then be submitted and
  approved again, but is still published at most once, because its preparation can be claimed
  only once (`AdminConsole.RunsAndPublishesOnce`).
- A restored citation is refused although the judge quoted exactly, when two documents of the
  case and the output came with the same name (`BlindReview.CitationSurvives`).
- Without a completion reserve, a patch can be let through that can no longer be checked
  (`DevelopmentLimits.UnreservedPatchStrands`); `UnreservedFinishing` says exactly when it can.

## Model

| member | source | states |
|---|---|---|
| Ledger.InsertSound | ops/pi/ledger.py:120-130 | inserting a row with its events keeps identifiers unique and the event log an exact mirror of the table |
| Ledger.FinishSound | ops/pi/ledger.py:132-145 | writing a terminal outcome with its receipt keeps the table and the log in the same correspondence |
| Pricing.MaxRateBounds | ops/pi/budget.py:465 | the reservation's input rate is one of the present prices and none exceeds it |
| Pricing.CostWithinWorstCase | ops/pi/budget.py:520-529 | for usage within the bounds, the exact cost of all four dimensions lies between zero and the worst case |
| Pricing.ChargeWithinReservation | ops/pi/budget.py:514-530 | for every price list that could be reserved and every report, the ceiling of the cost is at most the reserved ceiling, so the final comparison never rejects |
| Pricing.ReservationNonNegative | ops/pi/budget.py:466 | a reservation with non-negative bounds is non-negative |
| BudgetSafety.FiniteAudit | ops/pi/budget.py:310-321 | the scan by declaration or identity finds exactly the events of the recorded amendment 4, and none when there is none |
| BudgetSafety.RecomputationRefines | ops/pi/budget.py:310-335 | the limits recomputed from rows and events are those of the authority's stage, and the recomputation does not fail |
| BudgetSafety.InsertForeign | ops/pi/ledger.py:120-130 | a row that is no scope, attempt or amendment leaves the budget's invariant, stage and total alone |
| BudgetSafety.FinishKeeps | ops/pi/ledger.py:132-145 | finishing a pending row that is no amendment, scope or fence keeps the budget's invariant and never raises the total |
| BudgetSteps.ReceiptInOrder | ops/pi/budget.py:511-533 | every attempt can be settled with every report: a known charge within the reservation, or the whole reservation |
| BudgetSteps.SettleKeeps | ops/pi/budget.py:502-539 | settlement keeps the invariant, the stage and the count, and never raises the total |
| BudgetSteps.SettleOnce | ops/pi/budget.py:509-510 | a second settlement with any report changes nothing |
| BudgetSteps.ReserveKeeps | ops/pi/budget.py:453-499 | an accepted reservation keeps total and count within the effective limits, adds exactly its amount and one attempt, and leaves the stage |
| BudgetSteps.AmendKeeps | ops/pi/budget.py:106-147 | an accepted amendment is either already recorded and changes nothing, or moves the authority one stage forward from the one stage it applies to |
| BudgetSteps.AmendAgain | ops/pi/budget.py:128-133 | repeating a recorded amendment with the same identity and payload is accepted at any later stage and changes nothing |
| BudgetSteps.AmendmentAccepted | ops/pi/budget.py:106-436 | a fresh amendment is accepted if and only if the authority stands at the one stage it applies to and its own conditions hold: valid, trusted, fence in place, no transport in flight, usage within the ceiling it sets |
| BudgetSteps.ReservationAccepted | ops/pi/budget.py:453-499 | on an opened scope a reservation is accepted if and only if it can be priced, custody and grant hold, the identifier is fresh, and one attempt of that amount more fits policy, standing ceiling and the limits of the authority's stage |
| Decisions.QuoteDecides | ops/pi/budget.py:439-466 | a request is priced exactly under a known kind of policy with usable prices and within its token limit, at the dearest input price for the whole input bound plus the output price for every token, rounded up |
| Decisions.ReservationDecides | ops/pi/budget.py:453-499 | a reservation is accepted if and only if it is for the one scope, priced, in custody, granted, fresh, and has room under policy, standing ceiling and stage; it writes the attempt with prices, bounds, tag and the sooner of the two deadlines |
| Decisions.SettlementDecides | ops/pi/budget.py:502-539 | every permit can be settled with every report; a report within both bounds with all used quantities priced leaves the attempt done, charged the sum of quantity times own price rounded up, and any other uncertain with the whole reservation |
| Decisions.AmendmentDecides | ops/pi/budget.py:106-436 | a fresh amendment is accepted if and only if the scope is open and funded, it says word for word what its kind must say, is trusted, and the authority is where it takes it on from; it is then on record with its receipt and two events |
| LedgerStore.CostOf | ops/pi/budget.py:519-529 | settlement's loop computes the specified cost, stopping at the first used dimension without a price |
| LedgerStore.LedgerStore.Totals | ops/pi/budget.py:24-32 | the loop over attempt rows yields the count and the charged-or-reserved total of the scope |
| LedgerStore.LedgerStore.AuditTrail | ops/pi/budget.py:96-100 | the loop over events yields exactly one operation's intents and receipts, in order |
| LedgerStore.LedgerStore.FiniteTrail | ops/pi/budget.py:313-318 | the loop yields exactly the events that declare amendment 4 or belong to one |
| LedgerStore.LedgerStore.ReadLimits | ops/pi/budget.py:310-335 | the effective limits as the host reads them are the specified ones, errors included |
| LedgerStore.LedgerStore.Reserve | ops/pi/budget.py:453-499 | the transaction is accepted exactly when there is room for a priced request with custody and grant, then writes exactly the scope if missing and the attempt with its deadline, and on any refusal leaves the ledger as it was, the opened scope taken back |
| LedgerStore.LedgerStore.Settle | ops/pi/budget.py:502-539 | settlement is accepted from exactly the holder of the permit and leaves the attempt done with the bill of all four quantities at their own prices rounded up, or uncertain with the whole reservation |
| LedgerStore.LedgerStore.AmendFirst | ops/pi/budget.py:106-147 | amendment 1, inserted pending and finished in one transaction, leaves exactly the specified ledger |
| LedgerStore.LedgerStore.AmendSecond | ops/pi/budget.py:388-436 | amendment 2 with its scan for pending transports leaves exactly the specified ledger |
| LedgerStore.LedgerStore.AmendThird | ops/pi/budget.py:262-297 | amendment 3 leaves exactly the specified ledger |
| LedgerStore.LedgerStore.AmendFourth | ops/pi/budget.py:338-366 | amendment 4 with its check of existing usage leaves exactly the specified ledger |
| LedgerStore.LedgerStore.Amend | ops/pi/budget.py:106-436 | every amendment as the host runs it is the specified one and keeps the budget's invariant |
| Guarantees.BudgetIsSafe | ops/pi/budget.py:489-496 | in every ledger any interleaving reaches, the total stays within the effective budget while it is finite, and the attempts within their limit while there is one |
| Guarantees.LimitsRecomputable | ops/pi/budget.py:369-380 | on every reachable ledger the limits can be recomputed if and only if the scope is funded, and are then those of the stage |
| Guarantees.FirstReservation | ops/pi/budget.py:483-496 | the first reservation of all is accepted exactly when it fits the scope it opens |
| Guarantees.OpeningFunds | ops/pi/budget.py:484-486 | the opening reservation funds the scope exactly when its policy's budget is absent or positive |
| Guarantees.ZeroBudgetLocksTheTrial | ops/pi/budget.py:65-69 | a policy with budget zero and free prices reaches a ledger whose limits cannot be recomputed |
| Guarantees.LimitsNeverFail | ops/pi/budget.py:369-380 | in every run whose policies carry no empty budget, recomputation never fails |
| Guarantees.AuthoritySimulation | ops/pi/budget.py:310-366 | every step of every reachable ledger simulates a step of a five-stage authority that only opens and advances, and the recomputed limits are the authority's |
| Guarantees.HistoryPersists | ops/pi/ledger.py:27-31 | whatever happens later, rows stay, intents stay and terminal outcomes stay |
| Guarantees.SettlementIsAtomic | ops/pi/budget.py:503-539 | settlement read in one transaction and written in a later one, with any steps between, equals settlement in the later one |
| Machine.StepKeeps | ops/pi/budget.py:453-539 | every transaction of every host keeps the whole invariant and moves the authority at most one stage, by the due amendment |
| Machine.Reachable | ops/pi/ledger.py:51-98 | the invariant holds after any sequence of committed, refused or crashed transactions |
| Machine.FenceKeeps | ops/pi/trial_runtime.py:21-34 | freezing the inherited attempts in the phase fence keeps the invariant |
| Machine.FenceDecides | ops/pi/trial_runtime.py:21-34 | the fence is set up once, from exactly the attempts there are, if they are at most fifteen, and one that stands is left as it is |
| Preflight.CountAttempts | ops/pi/analysis_preflight.py:43-70 | the five counters updated in one pass equal the recount, refusals included |
| Preflight.RecountAgrees | ops/pi/analysis_preflight.py:43-74 | on settled attempts the recount succeeds exactly when no reservation is negative; its counts split known and unknown, its two sums are the charges of the known and the reservations of the others, and together they are the reserving total |
| Preflight.RecountDecides | ops/pi/analysis_preflight.py:43-69 | of any rows whatever the recount is refused exactly when an attempt is of another scope, negative, or settled otherwise than settlement writes it |
| Guarantees.RecountOnRuns | ops/pi/analysis_preflight.py:43-74 | on every ledger any interleaving reaches, the recount succeeds if and only if no accepted reservation was quoted below zero, and then agrees with the totals reservation uses |
| Guarantees.RecountNeverFails | ops/pi/analysis_preflight.py:43-74 | in every run whose policies have non-negative input bounds the recount succeeds, with all its equalities |
| Guarantees.NegativeBoundSpoilsTheRecount | ops/pi/analysis_preflight.py:36-50 | a policy with a negative input bound is accepted and reaches a ledger the recount refuses |
| Guarantees.RemainderOnRuns | ops/pi/analysis_preflight.py:70-115 | the remainder is never negative, adds up with the use to the effective budget on every run, and against a smaller budget of the policy while the use is within it |
| RunSteps.ClaimAccepted | ops/pi/analysis_run.py:170-181 | on a run that reads, a claim is accepted if and only if the slot was never claimed, all earlier slots are done or failed, and the body is the frozen request |
| RunDecisions.RunReads | ops/pi/analysis_run.py:95-123 | a run reads exactly when it and its thirty slots and claims stand as the handle has them, and each state is what status and claim amount to |
| RunDecisions.ClaimDecides | ops/pi/analysis_run.py:170-181 | a claim is accepted if and only if the run stands, the slot has none, all earlier ones are done or failed, and the body is the frozen request of at most 64 KiB; it adds the claim row with its two events |
| RunDecisions.OutcomeDecides | ops/pi/analysis_run.py:183-204 | an outcome is accepted if and only if it is terminal, the slot is claimed, and it is recorded already or its last checks pass; only the first time changes the slot, and nothing else |
| RunDecisions.CreationDecides | ops/pi/analysis_run.py:45-56 | a run is created if and only if neither it nor any of its slots is there, and then is there with thirty pending slots |
| RunDecisions.TokenDecides | ops/pi/analysis_run.py:137-155 | a token is bound if and only if either half, where it is there, is this very binding, and both are there afterwards |
| RunDecisions.BindingDecides | ops/pi/analysis_budget.py:44-72 | limits are frozen if and only if cap and policy may be bound on an original scope past amendment 2, and either they are the limits frozen before, or the deadline is ahead and no slot is claimed |
| RunDecisions.AuthorizationDecides | ops/pi/analysis_budget.py:98-140 | on a bound run an attempt is authorised if and only if the captured binding is the stored one, identity, scope, policy, order, claim, body and known attempts hold, and amount and time are within cap and deadline; the grant names slot and deadline; an unbound run adds nothing |
| RunSteps.ClaimKeeps | ops/pi/analysis_run.py:170-181 | an accepted claim was unclaimed before, is claimed after, and keeps the whole invariant |
| RunSteps.FinishSlotKeeps | ops/pi/analysis_run.py:183-204 | recording an outcome keeps the whole invariant |
| RunSteps.BindTokenKeeps | ops/pi/analysis_run.py:144-155 | binding a token both ways keeps the whole invariant, whichever half was there |
| RunSteps.TokenNamesOneSlot | ops/pi/analysis_run.py:137-142 | a private token is bound to one slot of one run |
| RunSteps.AuthorizedMayTag | ops/pi/analysis_budget.py:98-140 | an authorised attempt belongs to a claimed slot, follows only known attempts of earlier slots, and fits the run's cap |
| RunSteps.ReserveForSlotKeeps | ops/pi/analysis_budget.py:98-140 | a slot's reservation keeps the run's and the ledger's invariant |
| RunHost.AnalysisRunHost.Check | ops/pi/analysis_run.py:95-123 | the loop over thirty slots yields all states or the first drift |
| RunHost.AnalysisRunHost.Create | ops/pi/analysis_run.py:45-56 | a run and its thirty slots are registered together or not at all |
| RunHost.AnalysisRunHost.Admit | ops/pi/analysis_run.py:170-181 | the claim, inserted and finished in one transaction, is the specified one, and a refusal changes nothing |
| RunHost.AnalysisRunHost.Finish | ops/pi/analysis_run.py:183-204 | the outcome is recorded as specified, and a failing check before or after the write leaves no trace |
| RunHost.AnalysisRunHost.Gateway | ops/pi/analysis_run.py:144-155 | both halves of a token binding are written, or none |
| RunHost.AnalysisRunHost.BindBudget | ops/pi/analysis_budget.py:44-72 | the binding transaction is the specified one: refused after any claim, never reset, never extended |
| RunHost.AnalysisBudgetSlot.UsedByRun | ops/pi/analysis_budget.py:123-133 | the scan succeeds exactly when the slot has no attempt and all others of the run are known, and then sums their charges |
| RunHost.AnalysisBudgetSlot.Authorize | ops/pi/analysis_budget.py:98-140 | a context of another ledger is refused; otherwise the answer is the specified one, granted exactly when everything the binding freezes still holds |
| Guarantees.RunMoneyIsSafe | ops/pi/analysis_budget.py:123-140 | in every run a bound analysis run with a cap holds at most its cap, has at most one attempt a slot, in slot order, all but the newest known, each in a claimed slot |
| Guarantees.ClaimsArePrefix | ops/pi/analysis_run.py:170-181 | claimed slots form a prefix of the thirty, and all but the last of them are done or failed |
| Guarantees.ClaimedOnce | ops/pi/analysis_run.py:161-181 | a claimed slot can never be claimed again, whatever happens between |
| Guarantees.StoppedForGood | ops/pi/analysis_run.py:183-204 | once a slot is finished uncertain or blocked, its outcome stands and no later slot is ever claimed |
| ContainerProbe.DriftsTransitive | ops/pi/container_probe.py:136-253 | one step of the adversarial daemon stands for any number of them |
| ContainerProbe.DriftTracked | ops/pi/container_probe.py:136-190 | whatever the daemon does by itself, every container this operation made is owned or pending by name, and there is at most one of either for a mode |
| ContainerProbe.RequestTracked | ops/pi/container_probe.py:147-164 | sending a create request for a mode that is neither pending nor owned keeps the ownership invariant |
| ContainerProbe.FoundTracked | ops/pi/container_probe.py:179-190 | taking a found container over from its pending name leaves nothing behind that name |
| ContainerProbe.ProbeHost.Create | ops/pi/container_probe.py:136-177 | the one container of a free mode is requested once and owned unless the daemon fails or loses it at once; whatever goes wrong nothing is forgotten, and a mode that is pending or owned cannot restart |
| ContainerProbe.ProbeHost.Reconcile | ops/pi/container_probe.py:179-190 | every pending name is looked up, and leaves the pending ones exactly when a container is found behind it, which is then owned; it fails only with the daemon or on a foreign container |
| ContainerProbe.ProbeHost.Stop | ops/pi/container_probe.py:192-201 | a container is killed exactly when found running, and stopped unless the daemon fails, loses it or lets it run on; a stopped answer comes with an exit code the daemon reported |
| ContainerProbe.ProbeHost.RemovedAfterAttempt | ops/pi/container_probe.py:203-221 | a removal is believed exactly when the recorded container is no longer found, and only if it is gone; it fails only with the daemon or while other names are pending |
| ContainerProbe.ProbeHost.Cleanup | ops/pi/container_probe.py:231-253 | an owned container is stopped, killed if running, and its removal asked for, and it is removed with its reported exit code unless the daemon fails, loses it, lets it run on or knows no exit code; it leaves `owned` only when gone for good |
| ContainerProbe.History | ops/pi/container_probe.py:136-253 | over any sequence of calls and daemon moves, every live container of the operation is owned or pending by name, a mode has at most one, what was ever owned is owned or gone after its reported exit, and every claimed removal is true |
| BackupPublication.BackupStore.Create | ops/pi/backup.py:311-385 | the answer, the record, the publication and the number of collections of a call, for every fate of each of its points: unreleased, closed and locked calls change nothing, a first call collects and publishes as far as it gets, a crash after publication is made good, and one before it is left to an operator |
| BackupPublication.BackupStore.Publish | ops/pi/backup.py:344-381 | collection, mirror, publication and receipt in this order: what was reached, recorded and answered at a crash or exception at any point |
| BackupPublication.BackupStore.Resume | ops/pi/backup.py:335-343 | a published manifest is brought into place and finished with its own hash |
| BackupPublication.BackupStore.Revalidate | ops/pi/backup.py:476-492 | a failed receipt is returned as it is, and a done one is confirmed exactly when its check goes through |
| BackupPublication.History | ops/pi/backup.py:305-385 | over any number of calls and crashes the source is collected at most once, every done answer carries the one published manifest hash, and calls without their release do nothing |
| Retention.Candidates | ops/pi/backup.py:454-467 | the loops select exactly the manifests of pairs that are verified throughout, held by nobody, older than thirteen midnights and behind five others, in ascending order |
| Retention.Group | ops/pi/backup.py:458-459 | pairs in order of their first manifest, each with all its manifests |
| Retention.FirstFive | ops/pi/backup.py:461 | the first five of the stably sorted complete pairs are those with fewer than five pairs ahead of them |
| Retention.ProtectedPairs | ops/pi/backup.py:462-466 | a pair is protected exactly when it is incomplete, among the five newest, or one of its manifests is recent, stable, referenced or pending |
| Retention.DeletableLater | ops/pi/backup.py:454-467 | what may be deleted may still be deleted at any later time |
| Retention.NothingMore | ops/pi/backup.py:454-467 | once everything deletable is deleted, nothing more is |
| Utf8.DecodeEncode | ops/pi/evaluate.py:172-173 | encoded text decodes to itself |
| Utf8.EncodeDecode | ops/pi/evaluate.py:172-173 | bytes that decode are exactly the encoding of their text |
| Utf8.DecodesExactly | ops/pi/evaluate.py:164-173 | bytes decode to a text exactly when it holds no surrogate and they are its encoding |
| Utf8.LeadIsBoundary | ops/pi/feedback_evidence_v2.py:67-68 | a byte that is no continuation byte starts a code point |
| Utf8.ByteOccurrence | ops/pi/feedback_evidence_v2.py:67-70 | every occurrence of an encoded quote among the bytes is one among the code points, at its offset |
| Utf8.AlignedExactly | ops/pi/evaluate.py:171-173 | the three decodings succeed exactly when both offsets lie between code points |
| Evidence.CitationMeaning | ops/pi/evaluate.py:159-174 | a citation is accepted exactly when one intact, equally framed document has a nonempty stretch of code points with the given quote and byte offsets, inside one retained range |
| Evidence.FoundOnceMeansOnce | ops/pi/feedback_evidence_v2.py:67-71 | find, then no second find, holds exactly when the quote occurs once among the code points, and then the offsets cut out the quote between code points |
| Evidence.DeriveRefs | ops/pi/feedback_evidence_v2.py:61-71 | offsets are derived exactly when every quote is admissible and occurs once, and each says where its quote stands |
| Evidence.DeriveItems | ops/pi/feedback_evidence_v2.py:51-72 | derivation succeeds exactly when every item can be derived, and the derived references keep order and place |
| FrameStream.SplitResume | ops/pi/container_runtime.py:102-105 | splitting at newlines resumes from the unfinished line |
| FrameStream.SplitJoins | ops/pi/container_runtime.py:102-105 | splitting cuts at all newlines and loses nothing |
| FrameStream.OverlongRefused | ops/pi/container_runtime.py:124 | an unfinished line over the frame limit spoils every continuation |
| FrameStream.WholeMeaning | ops/pi/container_runtime.py:93-125 | a stream succeeds exactly when it is within 1 MiB, ends with a newline, and its lines, none empty or over 192 KiB, are at most four relayed requests and then exactly one result |
| FrameStream.Exchange | ops/pi/container_runtime.py:93-130 | under every chunking, and with a host that may answer each request differently, the exchange fares as the whole stream does when the deadline holds and the process ends well, with the same requests and result, and never sends more than four requests |
| Audit.AuditStore.Append | ops/pi/audit.py:210-237 | append keeps the chain valid, is idempotent for a key and its input, refuses another input, and otherwise extends the chain by one event with the next number, the last digest, its day and the clock |
| Audit.AuditStore.Iterate | ops/pi/audit.py:185-190 | reading succeeds exactly when every row is readable and linked, and yields all events in order |
| Audit.ChainHolds | ops/pi/audit.py:166-190 | a chain is intact exactly when every row holds its event: within the size, own digest, key, number and day in order, linked to the digest before |
| Audit.HeadDetermines | ops/pi/audit.py:185-190 | two chains with the same head digest have the same events |
| AuditExport.Paginate | ops/pi/audit_export.py:64-77 | the pages concatenate to the chain, each is nonempty and within both bounds, none has room for the next event, and each is linked to the one before |
| AuditExport.CutsAreLinked | ops/pi/audit_export.py:69 | however a chain is cut into pages, their numbers and digests link |
| AuditExport.TableMeaning | ops/pi/audit_export.py:15-26 | an index holds a key exactly when an event has it, with its event count, the other keys seen with it, and each of its pages once |
| AuditExport.Indexes | ops/pi/audit_export.py:15-26 | the nested loops over pages and events fill both indexes as specified |
| AuditExport.CountsAgree | ops/pi/audit_export.py:15-26 | both indexes count exactly the events of the chain, however it was cut |
| AuditExport.ExportSnapshot | ops/pi/audit_export.py:51-84 | pages are written exactly when the chain is intact, and then hold all of it, with the watermark and head of the store; the export succeeds exactly when its manifest also keeps its two bounds |
| BlindReview.BlindIsClean | ops/pi/evaluate.py:316-326 | no blinded key survives at any depth, and exactly values without one are left as they are |
| BlindReview.GetBlind | ops/pi/evaluate.py:321-326 | every field that is not blinded is kept |
| BlindReview.AnonymousDocuments | ops/pi/evaluate.py:329-336 | documents are blinded and renamed in order, whatever their identity and path are, the mapping leads back, and exactly a document without them refuses all |
| BlindReview.NamespacesAreApart | ops/pi/evaluate.py:358-364 | across the source, A and B namespaces every anonymous name leads back to its own document and no other name leads anywhere |
| BlindReview.ForwardAndBack | ops/pi/evaluate.py:377-389 | a source reference renamed for the judge is restored to its original |
| BlindReview.UnknownStays | ops/pi/evaluate.py:388-389 | a reference to an unknown source is never restored to a document |
| BlindReview.ReferenceRestored | ops/pi/evaluate.py:339-346 | restoration gives a reference its document's original name and changes nothing else of it |
| BlindReview.CitationFieldsKept | ops/pi/evaluate.py:316-336 | no field a citation is checked by is blinded |
| BlindReview.HiddenDocument | ops/pi/evaluate.py:316-336 | of a blinded and renamed document the check sees the same text, frame and retained ranges, under the other name |
| BlindReview.RestoredReference | ops/pi/evaluate.py:339-346 | of a restored reference the check sees the same offsets and quote under the original name, and a frame that equals a document's exactly when it did before (`FrameRestored`) |
| BlindReview.CitationSurvives | ops/pi/evaluate.py:329-411 | for each document of the source and of either output: a citation of it, restored by the mapping of all three namespaces, is valid against the original documents exactly when it is valid against those the judge saw and the original name is unique among them |
| DevelopmentLimits.Limits.Open | ops/pi/development_launcher.py:70-81 | limits whose reserve could not be honoured are refused, exactly those |
| DevelopmentLimits.Limits.BeforeTool | ops/pi/development_launcher.py:83-103 | the gate lets through exactly the specified tools, and enters the completion mode even when it refuses |
| DevelopmentLimits.GateDecides | ops/pi/development_launcher.py:83-103 | the gate in numbers: what passes with how many requests left, one read at the boundary included |
| DevelopmentLimits.Limits.Claim | ops/pi/development_launcher.py:113-117 | a request is counted exactly when its budget is not used up |
| DevelopmentLimits.Bounded | ops/pi/development_launcher.py:83-117 | in every history the counts stay within their maxima and the completion mode never resets |
| DevelopmentLimits.OneLateRead | ops/pi/development_launcher.py:90-98 | at most one read passes the gate once the mode is entered, the one that enters it |
| DevelopmentLimits.PatchCanBeFinished | ops/pi/development_launcher.py:83-117 | with a reserve, a patch that is let through can be checked and reported within both budgets, each tool verified, with or without a model request between |
| DevelopmentLimits.UnreservedFinishing | ops/pi/development_launcher.py:86-87 | without a reserve finishing is possible exactly when six tool requests and the model requests are left |
| DevelopmentLimits.UnreservedPatchStrands | ops/pi/development_launcher.py:86-87 | without a reserve a patch can be let through that cannot be checked |
| NightlyGate.Reachable | ops/pi/nightly_gate.py:99-318 | whatever the operators do in any order, at most one cycle is live, nothing is deployed or observed without its approval, and a cycle with a candidate completes only once deployed |
| NightlyGate.EndingsDecide | ops/pi/nightly_gate.py:255-311 | completion, interruption, an ending without release and reconciliation close the current cycle exactly from the phases they may |
| NightlyGate.HaltsAndRebuilds | ops/pi/nightly_gate.py:139-318 | a halt always takes effect on the current cycle, and a rebuild exactly on a candidate that waits unapproved |
| NightlyGate.ReportsAfterApproval | ops/pi/nightly_gate.py:178-191 | after an approval the gate reports that it waits for one exactly when the approval has lapsed before deployment, or the cycle is over and the next one waits |
| NightlyGate.SettledStays | ops/pi/nightly_gate.py:226-318 | only a lapse, completion or interruption ends the standing of a readable approval of the current cycle |
| AdminConsole.NextKeeps | ops/pi/admin_console.py:154-215 | every step of every thread, every move of the gate and a restart keep the console's invariant |
| AdminConsole.AtMostOnePublication | ops/pi/admin_console.py:62-68 | a cycle never has more than one publish command that is recording, queued, running, uncertain or succeeded |
| AdminConsole.RunsAndPublishesOnce | ops/pi/admin_publication.py:156-208 | over all restarts, lapses and repeated approvals a command enters running at most once, and a cycle is prepared at most once and published at most once |
| AdminConsole.OutcomesAreTrue | ops/pi/admin_console.py:176-206 | a succeeded command was approved and published, a deferred one was never published |
| AdminConsole.MisrecordedExactly | ops/pi/admin_console.py:207-215 | in every history a command whose publication began is recorded as failed if and only if its exception handler read the gate while its own approval had lapsed before deployment, or while its cycle was over and the next one waited |
| AdminConsole.UndisturbedNeverFails | ops/pi/admin_console.py:204-215 | once publication has begun under a standing approval, no continuation without a lapse or an end of the cycle records the command as failed |
| AdminConsole.LapseMisrecords | ops/pi/admin_console.py:207-215 | from every reachable state with an unattested publication under way, a lapse and an exception record it as failed |
| AdminConsole.LapsedPublicationFails | ops/pi/admin_console.py:199-215 | a history from the empty gate in which a published command ends as failed |
| AdminConsole.Succeeds | ops/pi/admin_console.py:181-206 | a queued command of a waiting, never prepared cycle succeeds when its calls go well |
| AdminConsole.ResubmissionIsNoSecond | ops/pi/admin_console.py:154-173 | once a request is known, submitting under its identity again changes nothing, however much later |
| AdminConsole.Console.constructor | ops/pi/admin_console.py:67-68 | opening the table makes exactly the recording, queued and running commands uncertain and changes nothing else |
| AdminConsole.Console.Submit | ops/pi/admin_console.py:154-179 | a known request is answered or refused without change, and a new one is added once, deferred, queued or uncertain |
| AdminConsole.Console.Process | ops/pi/admin_console.py:181-215 | a queued command is published exactly when it was prepared on the waiting, unclaimed cycle, approved with an answer, and begun while the gate still permitted it; it ends succeeded, failed or uncertain as the gates its calls find say, and succeeds when nothing goes wrong |

## Left out

- SQLite itself (journal modes, busy waiting, schema validation, triggers as SQL), file modes, fsync, links, locks, subprocesses, HTTP and signals: only the atomic steps, crash points and answers they give rise to are modelled.
- Canonical JSON and SHA-256: structural equality stands for equal encodings, and the digested value for its digest; identifiers built from text are structured values.
- Decimal precision: rates are exact non-negative rationals, amounts unbounded integers.
- Policy files and their loading, private tokens' character checks, regular expressions over identifiers, fixed sets of field names: long conjunctions without interaction.
- The order and identity checks on the frozen slot list when a run handle is built (ops/pi/analysis_run.py:20-43 beyond its length): a handle is any identity with thirty slots.
- Other writers of the ledger may insert and finish operations of other kinds, phase admissions and notes, under identifiers of their own; a writer that forges model attempts, scopes or amendments is not modelled.
- The capture of a probe's output and the verification of its hardening: between any two answers the modelled daemon may start and stop containers as capture would.
- The contents of a backup and their verification, restore rehearsals, release gating beyond the POST phase's own check, and calendar gaps; a verification that fails is an exception at its point. Files are not damaged from outside between calls.
- Redaction and truncation of audit entries: an abstract normalisation, assumed idempotent where the chain is to stay readable. The sorted order of a manifest's indexes is not modelled, and its encoded length is a parameter.
- The order of the source's checks within one refusal where all of them raise the same kind of error.
- Restoration of references whose identity or path is a list or an object: the judge's answer is then refused as a whole, which is not modelled.
- Random presentation order of the two outputs, scoring, recall and extraction metrics, and the comparison of variants.
- Autonomy, candidate and diagnosis orchestration, deployment scripts, browser checks and the web configuration.
- The gate's contents: nights, tasks, packages, receipts and who may issue them. A move of the gate that one of them would refuse is a move that does not happen, and a deployment receipt that can no longer be read counts as an unreadable phase for the console. The gate is modelled on values, because the console only reads and asks it.
- What publication does with containers and maintenance: the publisher begins once its first check of authority passes, and may then end in any way.
- Evidence.DeriveItems: the checks of the envelope around the items and the final validation of the whole answer, which can still refuse it.
- Retention of days in the zone Asia/Shanghai: a fixed offset of eight hours stands for the zone, which has had no other since 1991.
- Documents of an evaluation whose text is no text, or whose frame or retained ranges have another shape than the check expects; a repeated JSON key.
- AuditExport.Indexes: yields maps; the lists the export writes are these maps in sorted order.
