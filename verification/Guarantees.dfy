/** What the control plane guarantees over whole runs. */
module Guarantees {
  import opened Outcome
  import opened Ledger
  import opened Authority
  import opened Pricing
  import opened Reservation
  import opened BudgetSafety
  import opened BudgetSteps
  import opened AnalysisRun
  import opened AnalysisBudget
  import opened RunSafety
  import opened RunSteps
  import opened Machine
  import opened Preflight

  // ---- The metered budget ----

  /** In every ledger reachable by any interleaving, recomputed limits bound what is held:
      the charged-or-reserved total while the budget is finite, the attempts while they
      are limited. */
  lemma {:induction false} BudgetIsSafe(steps: seq<Step>, limits: Limits)
    requires EffectiveLimits(Run(steps)) == Ok(limits)
    ensures limits.budget.Some? ==> Total(Run(steps).rows, LOCAL_TRIAL) <= limits.budget.value
    ensures limits.maxAttempts.Some? ==> Attempts(Run(steps).rows, LOCAL_TRIAL) <= limits.maxAttempts.value
  {
    hide AuthorityInv, TrialLimits, AttemptsOk, RunInv, LimitsAt, StageOf, Total, Attempts;
    Reachable(steps);
    var s := Run(steps);
    match Lookup(s.rows, ScopeKey(LOCAL_TRIAL)) {
      case None =>
        Unopened(s);
        NothingHeld(s.rows);
      case Some(r) =>
        OpenScope(s);
        RecomputationRefines(s, r.payload);
    }
  }

  /** The scope was opened with a positive budget, or not at all. */
  ghost predicate Funded(s: State) {
    var scope := Lookup(s.rows, ScopeKey(LOCAL_TRIAL));
    scope.None? || (scope.value.payload.ScopeP? && scope.value.payload.budget > 0)
  }

  /** Recomputation succeeds on a reachable ledger exactly when its scope is funded, and
      then yields the limits of the authority's stage. */
  lemma {:induction false} LimitsRecomputable(steps: seq<Step>)
    ensures EffectiveLimits(Run(steps)).Ok? <==> Funded(Run(steps))
    ensures Funded(Run(steps)) && Lookup(Run(steps).rows, ScopeKey(LOCAL_TRIAL)).Some? ==>
              EffectiveLimits(Run(steps)) ==
              Ok(LimitsAt(StageOf(Run(steps).rows), Lookup(Run(steps).rows, ScopeKey(LOCAL_TRIAL)).value.payload))
    ensures Lookup(Run(steps).rows, ScopeKey(LOCAL_TRIAL)).None? ==>
              EffectiveLimits(Run(steps)) == Ok(Limits(Some(TRIAL_ATTEMPTS), Some(FIRST_BUDGET), true))
  {
    hide TrialLimits, Sound, RunInv, Grounded, Within, AttemptsOk, LimitsAt, StageIn, IsAmendment;
    Reachable(steps);
    var s := Run(steps);
    match Lookup(s.rows, ScopeKey(LOCAL_TRIAL)) {
      case None =>
        assert Chain(ViewOf(s.rows));
      case Some(r) =>
        assert AmendmentOk(r);
        RecomputationRefines(s, r.payload);
    }
  }

  /** Every reservation of the step carries a budget of more than nothing. */
  ghost predicate Funds(step: Step) {
    var policy := if step.DoReserve? then Some(step.policy) else if step.DoReserveForSlot? then Some(step.policy) else None;
    policy.Some? && policy.value.budget.Some? ==> policy.value.budget.value > 0
  }

  /** The reservation that opens the scope funds it exactly when its policy's budget, if it
      has one, is positive. */
  lemma {:induction false} OpeningFunds(s: State, step: Step)
    requires LedgerInv(s) && (step.DoReserve? || step.DoReserveForSlot?) && Try(s, step).Ok?
    requires Lookup(s.rows, ScopeKey(LOCAL_TRIAL)).None?
    ensures Lookup(Apply(s, step).rows, ScopeKey(LOCAL_TRIAL)).Some?
    ensures Funded(Apply(s, step)) <==> Funds(step)
  {
    if step.DoReserve? {
      ReserveOpens(s, step.uuid, step.scopeId, step.req, step.policy, step.now, step.custody, Ok(NO_GRANT));
    } else {
      ReserveOpens(s, step.uuid, LOCAL_TRIAL, step.req, step.policy, step.now, step.custody,
                   Authorize(s, step.h, step.slot, step.captured, step.req, step.policy,
                             Quote(step.req, step.policy).value, step.lockedNow));
    }
  }

  lemma {:induction false} ReserveOpens(s: State, uuid: nat, scopeId: string, req: Request, policy: Policy, now: real,
                     custody: bool, grant: Result<Grant>)
    requires Reserve(s, uuid, scopeId, req, policy, now, custody, grant).Ok?
    requires Lookup(s.rows, ScopeKey(LOCAL_TRIAL)).None?
    ensures var t := Reserve(s, uuid, scopeId, req, policy, now, custody, grant).value.0;
            && Lookup(t.rows, ScopeKey(LOCAL_TRIAL)).Some?
            && (Funded(t) <==> policy.budget.None? || policy.budget.value > 0)
  {
    var policyAttempts, amount, scope, limits := ReserveShape(s, uuid, scopeId, req, policy, now, custody, grant);
    ScopeAfterOpening(s, policyAttempts, policy, Reserved(uuid, req, policy, now, grant.value, amount),
                      [Note("model-reserved", AttemptKey(uuid))]);
  }

  lemma {:induction false} ScopeAfterOpening(s: State, policyAttempts: Option<int>, policy: Policy, row: Row,
          events: seq<Event>)
    requires Lookup(s.rows, ScopeKey(LOCAL_TRIAL)).None? && row.id.AttemptKey?
    ensures var t := Insert(Opened(s, policyAttempts, policy), row, events);
            && Lookup(t.rows, ScopeKey(LOCAL_TRIAL)).Some?
            && (Funded(t) <==> policy.budget.None? || policy.budget.value > 0)
  {
    var opening := Row(ScopeKey(LOCAL_TRIAL), OpeningScope(policyAttempts, policy.budget), Pending, None);
    LookupInsert(s.rows, opening, ScopeKey(LOCAL_TRIAL));
    LookupInsert(s.rows + [opening], row, ScopeKey(LOCAL_TRIAL));
  }

  lemma {:induction false} OpeningAccepted(s: State, uuid: nat, req: Request, policy: Policy, now: real,
          attempts: Option<int>,
                        amount: int, limits: Limits)
    requires Lookup(s.rows, ScopeKey(LOCAL_TRIAL)).None? && Lookup(Opened(s, attempts, policy).rows, AttemptKey(uuid)).None?
    requires PolicyAttemptLimit(policy) == Ok(attempts) && Quote(req, policy) == Ok(amount)
    requires TrialLimits(Opened(s, attempts, policy), OpeningScope(attempts, policy.budget)) == Ok(limits)
    ensures Reserve(s, uuid, LOCAL_TRIAL, req, policy, now, true, Ok(NO_GRANT)).Ok? <==>
            Fits(Attempts(s.rows, LOCAL_TRIAL), Total(s.rows, LOCAL_TRIAL), amount, attempts, policy, limits)
  {
    hide TrialLimits, PolicyAttemptLimit, Quote, Fits, Attempts, Total, PermitDeadline, AttemptPayload;
  }

  /** The first reservation of all is accepted exactly when it fits the scope it opens. */
  lemma {:induction false} FirstReservation(uuid: nat, req: Request, policy: Policy, now: real)
    requires PolicyAttemptLimit(policy).Ok? && Quote(req, policy).Ok?
    ensures var attempts := PolicyAttemptLimit(policy).value;
            Try(EMPTY, DoReserve(uuid, LOCAL_TRIAL, req, policy, now, true)).Ok? <==>
            Fits(0, 0, Quote(req, policy).value, attempts, policy, LimitsAt(Original, OpeningScope(attempts, policy.budget)))
  {
    hide TrialLimits, AuthorityInv, LimitsAt, Fits, Quote, PolicyAttemptLimit, Reserve;
    var attempts := PolicyAttemptLimit(policy).value;
    var scope := OpeningScope(attempts, policy.budget);
    EmptyInv();
    OpenedKeeps(EMPTY, attempts, policy, scope);
    RecomputationRefines(Opened(EMPTY, attempts, policy), scope);
    LookupInsert([], Row(ScopeKey(LOCAL_TRIAL), scope, Pending, None), AttemptKey(uuid));
    OpeningAccepted(EMPTY, uuid, req, policy, now, attempts, Quote(req, policy).value, LimitsAt(Original, scope));
  }

  const FREE := Prices(Some(0.0), Some(0.0), Some(0.0), None)
  const BROKE := Policy(1, false, Some(1), Some(0), 1.0, 1, 1, FREE, "")

  lemma {:induction false} FreeQuote()
    ensures Quote(Request(1, "", 1), BROKE) == Ok(0)
  {
    var ps := InputPrices(FREE);
    assert ps[..2] == [Some(0.0), Some(0.0)] && ps[..2][..1] == [Some(0.0)];
    assert MaxRate([Some(0.0)]) == Ok(0.0);
    assert MaxRate([Some(0.0), Some(0.0)]) == Ok(0.0);
    assert MaxRate(ps) == Ok(0.0);
  }

  /** A policy with a budget of zero and free prices opens a scope on which every later
      recomputation is refused. */
  lemma {:induction false} ZeroBudgetLocksTheTrial()
    ensures var step := DoReserve(0, LOCAL_TRIAL, Request(1, "", 1), BROKE, 0.0, true);
            Try(EMPTY, step).Ok? && EffectiveLimits(Run([step])).Err?
  {
    hide Reserve, TrialLimits, EffectiveLimits, LedgerInv, Quote, ReserveForSlot, ScopePayload;
    var step := DoReserve(0, LOCAL_TRIAL, Request(1, "", 1), BROKE, 0.0, true);
    FreeQuote();
    FirstReservation(0, Request(1, "", 1), BROKE, 0.0);
    EmptyInv();
    OpeningFunds(EMPTY, step);
    LimitsRecomputable([step]);
    assert RunFrom(EMPTY, [step][..0]) == EMPTY;
  }

  // ---- Persistence: nothing is deleted, nothing terminal changes ----

  /** Every row of `s` is still in `t` with its intent, and unchanged once finished. */
  ghost predicate Persists(s: State, t: State) {
    forall id :: Lookup(s.rows, id).Some? ==>
      var r := Lookup(s.rows, id).value;
      && Lookup(t.rows, id).Some?
      && Lookup(t.rows, id).value.payload == r.payload
      && (r.status != Pending ==> Lookup(t.rows, id).value == r)
  }

  predicate IsMoney(p: Payload) {
    p.AttemptP? || p.ScopeP?
  }

  /** And what `t` holds beyond `s` is no attempt and no scope. */
  ghost predicate Grows(s: State, t: State) {
    && Persists(s, t)
    && forall id :: Lookup(s.rows, id).None? && Lookup(t.rows, id).Some? ==> !IsMoney(Lookup(t.rows, id).value.payload)
  }

  lemma {:induction false} GrowsRefl(s: State)
    ensures Grows(s, s)
  {
  }

  lemma {:induction false} GrowsTransitive(s: State, t: State, u: State)
    requires Grows(s, t) && Grows(t, u)
    ensures Grows(s, u)
  {
    PersistsTransitive(s, t, u);
    forall id | Lookup(s.rows, id).None? && Lookup(u.rows, id).Some? ensures !IsMoney(Lookup(u.rows, id).value.payload) {
      assert Lookup(t.rows, id).Some? ==> Lookup(u.rows, id).value.payload == Lookup(t.rows, id).value.payload;
    }
    hide Persists;
  }

  lemma {:induction false} PersistsTransitive(s: State, t: State, u: State)
    requires Persists(s, t) && Persists(t, u)
    ensures Persists(s, u)
  {
  }

  lemma {:induction false} InsertPersists(s: State, row: Row, events: seq<Event>)
    requires Lookup(s.rows, row.id).None?
    ensures Persists(s, Insert(s, row, events))
    ensures !IsMoney(row.payload) ==> Grows(s, Insert(s, row, events))
  {
    forall id ensures Lookup(Insert(s, row, events).rows, id) == if row.id == id then Some(row) else Lookup(s.rows, id) {
      LookupInsert(s.rows, row, id);
    }
  }

  lemma {:induction false} FinishGrows(s: State, id: OpId, status: Status, evidence: Evidence)
    requires Lookup(s.rows, id).Some? && Lookup(s.rows, id).value.status == Pending
    ensures Grows(s, Finish(s, id, status, evidence))
  {
    forall key
      ensures Lookup(Finish(s, id, status, evidence).rows, key) ==
              if key == id then Some(Lookup(s.rows, id).value.(status := status, evidence := Some(evidence)))
              else Lookup(s.rows, key)
    {
      LookupFinish(s.rows, id, status, evidence, key);
    }
  }

  lemma {:induction false} RegisterSlotsGrows(s: State, h: Handle, i: nat)
    requires i <= SLOT_COUNT && RegisterSlots(s, h, i).Ok?
    ensures Grows(s, RegisterSlots(s, h, i).value)
    decreases SLOT_COUNT - i
  {
    if i < SLOT_COUNT {
      var row := Row(SlotKey(h.runId, i), SlotP(h.runId, i, h.slots), Pending, None);
      var t := Register(s, row).value;
      InsertPersists(s, row, ExpectedEvents(Some(row)));
      RegisterSlotsGrows(t, h, i + 1);
      GrowsTransitive(s, t, RegisterSlots(t, h, i + 1).value);
    }
  }

  lemma {:induction false} CreateGrows(s: State, h: Handle)
    requires CreateRun(s, h).Ok?
    ensures Grows(s, CreateRun(s, h).value)
  {
    var row := Row(RunKey(h.runId), RunP(h), Pending, None);
    var t := Register(s, row).value;
    InsertPersists(s, row, ExpectedEvents(Some(row)));
    RegisterSlotsGrows(t, h, 0);
    GrowsTransitive(s, t, RegisterSlots(t, h, 0).value);
  }

  lemma {:induction false} ReservePersists(s: State, uuid: nat, scopeId: string, req: Request, policy: Policy,
          now: real,
                        custody: bool, grant: Result<Grant>)
    requires Reserve(s, uuid, scopeId, req, policy, now, custody, grant).Ok?
    ensures Persists(s, Reserve(s, uuid, scopeId, req, policy, now, custody, grant).value.0)
  {
    var policyAttempts, amount, scope, limits := ReserveShape(s, uuid, scopeId, req, policy, now, custody, grant);
    var s1 := Opened(s, policyAttempts, policy);
    if Lookup(s.rows, ScopeKey(LOCAL_TRIAL)).None? {
      InsertPersists(s, Row(ScopeKey(LOCAL_TRIAL), OpeningScope(policyAttempts, policy.budget), Pending, None), []);
    }
    var row := Reserved(uuid, req, policy, now, grant.value, amount);
    InsertPersists(s1, row, [Note("model-reserved", AttemptKey(uuid))]);
    PersistsTransitive(s, s1, Insert(s1, row, [Note("model-reserved", AttemptKey(uuid))]));
  }

  lemma {:induction false} BindTokenGrows(s: State, h: Handle, i: nat, token: string)
    requires i < SLOT_COUNT && BindToken(s, h, i, token).Ok?
    ensures Grows(s, BindToken(s, h, i, token).value)
  {
    hide With, CheckRun, BindToken;
    BindTokenShape(s, h, i, token);
    var t := With(s, GateRow(h, i, token));
    WithGrows(s, GateRow(h, i, token));
    WithGrows(t, TokenRow(h, i, token));
    GrowsTransitive(s, t, With(t, TokenRow(h, i, token)));
  }

  lemma {:induction false} WithGrows(s: State, row: Row)
    requires !IsMoney(row.payload)
    ensures Grows(s, With(s, row))
  {
    if Lookup(s.rows, row.id).None? {
      InsertPersists(s, row, BirthEvents(row));
    }
  }

  lemma {:induction false} RunStepGrows(s: State, step: Step)
    requires Try(s, step).Ok?
    requires step.DoCreate? || step.DoClaim? || step.DoFinish? || step.DoBindToken? || step.DoBindRun?
    ensures Grows(s, Try(s, step).value)
  {
    match step
    case DoCreate(h) => CreateGrows(s, h);
    case DoClaim(h, i, req) =>
      ClaimShape(s, h, i, req, CheckRun(s.rows, h));
      InsertPersists(s, ClaimRow(h, i), BirthEvents(ClaimRow(h, i)));
    case DoFinish(h, i, status, checked) =>
      FinishSlotShape(s, h, i, status, checked);
      if Lookup(s.rows, SlotKey(h.runId, i)).value.status == Pending {
        FinishGrows(s, SlotKey(h.runId, i), status, HostStatusE(status));
      }
    case DoBindToken(h, i, token) => BindTokenGrows(s, h, i, token);
    case DoBindRun(h, policy, cap, deadline, now) => BindRunGrows(s, h, policy, cap, deadline, now);
  }

  lemma {:induction false} BindRunGrows(s: State, h: Handle, policy: Policy, cap: Option<int>, deadline: real,
          now: real)
    requires BindRun(s, h, policy, cap, deadline, now).Ok?
    ensures Grows(s, BindRun(s, h, policy, cap, deadline, now).value)
  {
    BindGrows(s, h, policy, cap, deadline, now, CheckRun(s.rows, h), ScopeIdentity(s), EffectiveLimits(s));
  }

  lemma {:induction false} BindGrows(s: State, h: Handle, policy: Policy, cap: Option<int>, deadline: real,
          now: real,
                     read: Result<seq<SlotState>>, scope: Result<seq<Row>>, present: Result<Limits>)
    requires BindWith(s, h, policy, cap, deadline, now, read, scope, present).Ok?
    ensures Grows(s, BindWith(s, h, policy, cap, deadline, now, read, scope, present).value)
  {
    BindWithShape(s, h, policy, cap, deadline, now, read, scope, present);
    if Lookup(s.rows, BudgetKey(h.runId)).None? {
      var row := Row(BudgetKey(h.runId), BudgetP(h, cap, deadline, policy, scope.value), Pending, None);
      InsertPersists(s, row, BirthEvents(row));
    }
  }

  lemma {:induction false} HostStepGrows(s: State, step: Step)
    requires Try(s, step).Ok?
    requires step.DoFence? || step.DoAdmission? || step.DoIntent? || step.DoReceipt? || step.DoNote?
    ensures Grows(s, Try(s, step).value)
  {
    match step
    case DoFence =>
      if Lookup(s.rows, FenceKey).None? {
        InsertPersists(s, Row(FenceKey, FenceP(IdsInOrder(Filter(s.rows, InScope(LOCAL_TRIAL)))), Pending, None), []);
      }
    case DoAdmission(attempt, category) =>
      InsertPersists(s, Row(AdmissionKey(attempt), AdmissionP(attempt, category), Pending, None), []);
    case DoIntent(text, kind, body) =>
      IntentShape(s, text, kind, body);
      if Lookup(s.rows, Named(text)).None? {
        var row := Row(Named(text), OtherP(kind, body), Pending, None);
        InsertPersists(s, row, BirthEvents(row));
      }
    case DoReceipt(id, status, body) =>
      if Lookup(s.rows, id).value.status == Pending {
        FinishGrows(s, id, status, OtherE(body));
      }
    case DoNote(_, _) =>
  }

  lemma {:induction false} AmendGrows(s: State, id: OpId, p: Payload)
    requires BudgetInv(s) && IsAmendment(p) && Amend(s, id, p).Ok?
    ensures Grows(s, Amend(s, id, p).value)
  {
    hide Amend, StageOf, AuthorityInv, AttemptsOk, Within, Persists;
    AmendKeeps(s, id, p);
    hide Amend, BudgetInv, StageOf, Total;
    if Lookup(s.rows, id).None? {
      InsertPersists(s, AmendmentRow(id, p), [Intent(id, p), Receipt(id, Done, Approval(p))]);
    } else {
      GrowsRefl(s);
    }
  }

  lemma {:induction false} SettleGrows(s: State, permit: Permit, usage: Usage)
    requires Settle(s, permit, usage).Ok?
    ensures Grows(s, Settle(s, permit, usage).value)
  {
    var row := Lookup(s.rows, permit.attempt).value;
    if row.status == Pending {
      var r := Receipted(row.payload, usage).value;
      FinishGrows(s, permit.attempt, r.0, r.1);
    }
  }

  predicate Reserves(step: Step) {
    step.DoReserve? || step.DoReserveForSlot?
  }

  /** Nothing but a reservation adds an attempt or opens the scope. */
  lemma {:induction false} StepGrows(s: State, step: Step)
    requires LedgerInv(s) && !Reserves(step)
    ensures Grows(s, Apply(s, step))
  {
    hide Try, BudgetInv, RunInv, Grows;
    if Try(s, step).Ok? {
      MadeGrows(s, step);
    } else {
      GrowsRefl(s);
    }
  }

  lemma {:induction false} MadeGrows(s: State, step: Step)
    requires LedgerInv(s) && !Reserves(step) && Try(s, step).Ok?
    ensures Grows(s, Try(s, step).value)
  {
    hide BudgetInv, RunInv, Grows, Amend, Settle, CreateRun, Claim, FinishSlot, BindToken, BindRun, EnsureFence, Admit, RecordIntent, HostReceipt;
    match step
    case DoSettle(permit, usage) => SettleGrows(s, permit, usage);
    case DoAmend(id, p) => AmendGrows(s, id, p);
    case DoFence => HostStepGrows(s, step);
    case DoAdmission(_, _) => HostStepGrows(s, step);
    case DoIntent(_, _, _) => HostStepGrows(s, step);
    case DoReceipt(_, _, _) => HostStepGrows(s, step);
    case DoNote(_, _) => HostStepGrows(s, step);
    case _ => RunStepGrows(s, step);
  }

  lemma {:induction false} ReservingPersists(s: State, step: Step)
    requires Reserves(step) && Try(s, step).Ok?
    ensures Persists(s, Try(s, step).value)
  {
    hide Reserve, Persists, Authorize;
    match step
    case DoReserve(uuid, scopeId, req, policy, now, custody) =>
      ReservePersists(s, uuid, scopeId, req, policy, now, custody, Ok(NO_GRANT));
    case DoReserveForSlot(uuid, h, i, captured, req, policy, now, lockedNow, custody) =>
      ReservePersists(s, uuid, LOCAL_TRIAL, req, policy, now, custody,
                      Authorize(s, h, i, captured, req, policy, Quote(req, policy).value, lockedNow));
  }

  /** No step of any host deletes a row, changes an intent or changes a terminal outcome. */
  lemma {:induction false} StepPersists(s: State, step: Step)
    requires LedgerInv(s)
    ensures Persists(s, Apply(s, step))
  {
    hide Try, BudgetInv, RunInv;
    if !Reserves(step) {
      StepGrows(s, step);
    } else if Try(s, step).Ok? {
      ReservingPersists(s, step);
    }
    hide Persists;
  }

  /** Whatever happens later, rows stay, intents stay, outcomes stay. */
  lemma {:induction false} HistoryPersists(s: State, later: seq<Step>)
    requires LedgerInv(s)
    ensures Persists(s, RunFrom(s, later))
  {
    if later != [] {
      var init := RunFrom(s, later[..|later| - 1]);
      HistoryPersists(s, later[..|later| - 1]);
      RunFromKeeps(s, later[..|later| - 1]);
      StepPersists(init, later[|later| - 1]);
      PersistsTransitive(s, init, Apply(init, later[|later| - 1]));
    }
  }

  // ---- Only a reservation opens the scope ----

  lemma {:induction false} OnlyReservationOpens(s: State, step: Step)
    requires LedgerInv(s) && Lookup(s.rows, ScopeKey(LOCAL_TRIAL)).None? && !Reserves(step)
    ensures Lookup(Apply(s, step).rows, ScopeKey(LOCAL_TRIAL)).None?
  {
    StepGrows(s, step);
    StepKeeps(s, step);
    var t := Apply(s, step);
    if Lookup(t.rows, ScopeKey(LOCAL_TRIAL)).Some? {
      OpenScope(t);
    }
    hide LedgerInv, Apply, TrialOf, Persists;
  }

  lemma {:induction false} StepFunds(s: State, step: Step)
    requires LedgerInv(s) && Funded(s) && Funds(step)
    ensures Funded(Apply(s, step))
  {
    StepPersists(s, step);
    if Lookup(s.rows, ScopeKey(LOCAL_TRIAL)).None? && Try(s, step).Ok? {
      if step.DoReserve? || step.DoReserveForSlot? {
        OpeningFunds(s, step);
      } else {
        OnlyReservationOpens(s, step);
      }
    }
  }

  /** When no policy comes with an empty budget, limits are recomputable on every ledger
      the run passes through: they never fail. */
  lemma {:induction false} LimitsNeverFail(steps: seq<Step>)
    requires forall step :: step in steps ==> Funds(step)
    ensures Funded(Run(steps)) && EffectiveLimits(Run(steps)).Ok?
  {
    if steps != [] {
      var init := steps[..|steps| - 1];
      LimitsNeverFail(init);
      Reachable(init);
      StepFunds(Run(init), steps[|steps| - 1]);
    }
    LimitsRecomputable(steps);
  }

  // ---- The authority as an abstract machine ----

  /** The authority: closed, or an original scope at one of five stages. */
  datatype Trial = Closed | Open(maxAttempts: int, budget: int, stage: Stage)

  ghost function TrialOf(s: State): Trial {
    match Lookup(s.rows, ScopeKey(LOCAL_TRIAL))
    case None => Closed
    case Some(r) => if r.payload.ScopeP? then Open(r.payload.maxAttempts, r.payload.budget, StageOf(s.rows)) else Closed
  }

  function TrialLimitsOf(t: Trial): Limits {
    match t
    case Closed => Limits(Some(TRIAL_ATTEMPTS), Some(FIRST_BUDGET), true)
    case Open(m, b, stage) => LimitsAt(stage, ScopeP(m, b))
  }

  /** The abstract step: a first reservation opens, the due amendment advances, nothing else
      changes the authority, and nothing ever reopens or rewinds it. */
  ghost predicate TrialStep(t: Trial, step: Step, u: Trial) {
    || u == t
    || (t.Closed? && u.Open? && (step.DoReserve? || step.DoReserveForSlot?) && u.stage == Original)
    || (t.Open? && step.DoAmend? && IsAmendment(step.amendment) && t.stage == StageBefore(step.amendment)
        && u == t.(stage := Next(t.stage)))
  }

  lemma {:induction false} ClosedIsOriginal(s: State)
    requires LedgerInv(s) && Lookup(s.rows, ScopeKey(LOCAL_TRIAL)).None?
    ensures StageOf(s.rows) == Original && TrialOf(s) == Closed
  {
    assert Chain(ViewOf(s.rows));
  }

  lemma {:induction false} OpenScope(s: State)
    requires LedgerInv(s) && Lookup(s.rows, ScopeKey(LOCAL_TRIAL)).Some?
    ensures var r := Lookup(s.rows, ScopeKey(LOCAL_TRIAL)).value;
            r.payload.ScopeP? && TrialOf(s) == Open(r.payload.maxAttempts, r.payload.budget, StageOf(s.rows))
  {
    assert AmendmentOk(Lookup(s.rows, ScopeKey(LOCAL_TRIAL)).value);
  }

  lemma {:induction false} SimulateClosed(s: State, step: Step)
    requires LedgerInv(s) && Lookup(s.rows, ScopeKey(LOCAL_TRIAL)).None?
    ensures TrialStep(TrialOf(s), step, TrialOf(Apply(s, step)))
  {
    var t := Apply(s, step);
    ClosedIsOriginal(s);
    StepKeeps(s, step);
    if Lookup(t.rows, ScopeKey(LOCAL_TRIAL)).None? {
      ClosedIsOriginal(t);
    } else {
      OpenScope(t);
      if !step.DoReserve? && !step.DoReserveForSlot? {
        OnlyReservationOpens(s, step);
      } else {
        assert !step.DoAmend?;
      }
    }
  }

  lemma {:induction false} SimulateOpen(s: State, step: Step)
    requires LedgerInv(s) && Lookup(s.rows, ScopeKey(LOCAL_TRIAL)).Some?
    ensures TrialStep(TrialOf(s), step, TrialOf(Apply(s, step)))
  {
    OpenScope(s);
    StepKeeps(s, step);
    StepPersists(s, step);
    OpenScope(Apply(s, step));
  }

  /** Every step of every reachable ledger simulates an abstract one, and while the scope is
      funded the limits recomputed from rows and events are those of the authority. */
  lemma {:induction false} AuthoritySimulation(steps: seq<Step>, step: Step)
    ensures TrialStep(TrialOf(Run(steps)), step, TrialOf(Apply(Run(steps), step)))
    ensures Funded(Run(steps)) ==> EffectiveLimits(Run(steps)) == Ok(TrialLimitsOf(TrialOf(Run(steps))))
  {
    Reachable(steps);
    LimitsRecomputable(steps);
    if Lookup(Run(steps).rows, ScopeKey(LOCAL_TRIAL)).None? {
      SimulateClosed(Run(steps), step);
      ClosedIsOriginal(Run(steps));
    } else {
      SimulateOpen(Run(steps), step);
      OpenScope(Run(steps));
    }
  }

  // ---- The independent recount ----

  lemma {:induction false} ReserveCounts(s: State, uuid: nat, scopeId: string, req: Request, policy: Policy, now: real,
                     custody: bool, grant: Result<Grant>)
    requires Reserve(s, uuid, scopeId, req, policy, now, custody, grant).Ok?
    ensures Quote(req, policy).Ok?
    ensures NonNegative(Reserve(s, uuid, scopeId, req, policy, now, custody, grant).value.0.rows) <==>
            NonNegative(s.rows) && Quote(req, policy).value >= 0
  {
    var policyAttempts, amount, scope, limits := ReserveShape(s, uuid, scopeId, req, policy, now, custody, grant);
    var s1 := Opened(s, policyAttempts, policy);
    var row := Reserved(uuid, req, policy, now, grant.value, amount);
    assert (s1.rows + [row])[|s1.rows|] == row;
    assert NonNegative(s1.rows + [row]) <==> NonNegative(s1.rows) && amount >= 0 by {
      assert row in s1.rows + [row];
    }
    hide Reserve, Quote, TrialLimits, Fits;
  }

  lemma {:induction false} ReservingCounts(s: State, step: Step)
    requires Reserves(step) && Try(s, step).Ok?
    ensures Quote(step.req, step.policy).Ok?
    ensures NonNegative(Try(s, step).value.rows) <==> NonNegative(s.rows) && Quote(step.req, step.policy).value >= 0
  {
    hide Reserve, NonNegative, Authorize, Quote;
    match step
    case DoReserve(uuid, scopeId, req, policy, now, custody) =>
      ReserveCounts(s, uuid, scopeId, req, policy, now, custody, Ok(NO_GRANT));
    case DoReserveForSlot(uuid, h, i, captured, req, policy, now, lockedNow, custody) =>
      ReserveCounts(s, uuid, LOCAL_TRIAL, req, policy, now, custody,
                    Authorize(s, h, i, captured, req, policy, Quote(req, policy).value, lockedNow));
  }

  /** Growing neither adds nor changes a reserved amount. */
  lemma {:induction false} GrowingCounts(s: State, t: State)
    requires UniqueIds(s.rows) && UniqueIds(t.rows) && Grows(s, t)
    ensures NonNegative(t.rows) <==> NonNegative(s.rows)
  {
    forall r | r in s.rows && r.payload.AttemptP?
      ensures Lookup(t.rows, r.id).Some? && Lookup(t.rows, r.id).value in t.rows && Lookup(t.rows, r.id).value.payload == r.payload
    {
      LookupUnique(s.rows, r);
    }
    forall r | r in t.rows && r.payload.AttemptP?
      ensures Lookup(s.rows, r.id).Some? && Lookup(s.rows, r.id).value in s.rows && Lookup(s.rows, r.id).value.payload == r.payload
    {
      LookupUnique(t.rows, r);
    }
  }

  lemma {:induction false} UniqueRows(s: State)
    requires LedgerInv(s)
    ensures UniqueIds(s.rows)
  {
  }

  lemma {:induction false} StepCounts(s: State, step: Step)
    requires LedgerInv(s)
    ensures NonNegative(Apply(s, step).rows) <==> NonNegative(s.rows) && !Underquotes(s, step)
  {
    hide Try, NonNegative, LedgerInv, UniqueIds, Quote, Grows;
    if !Reserves(step) {
      StepGrows(s, step);
      StepKeeps(s, step);
      UniqueRows(s);
      UniqueRows(Apply(s, step));
      GrowingCounts(s, Apply(s, step));
    } else if Try(s, step).Ok? {
      ReservingCounts(s, step);
    }
  }

  /** An accepted reservation of less than nothing. */
  ghost predicate Underquotes(s: State, step: Step) {
    Reserves(step) && Try(s, step).Ok? && Quote(step.req, step.policy).Ok? && Quote(step.req, step.policy).value < 0
  }

  ghost predicate UnderquotesAt(steps: seq<Step>, n: int)
    requires 0 <= n < |steps|
  {
    Underquotes(Run(steps[..n]), steps[n])
  }

  lemma {:induction false} UnderquotedBefore(steps: seq<Step>, last: int, n: int)
    requires 0 <= n < last <= |steps|
    ensures UnderquotesAt(steps, n) <==> UnderquotesAt(steps[..last], n)
  {
    hide Underquotes, Run;
    assert steps[..last][..n] == steps[..n];
  }

  lemma {:induction false} UnderquotedLast(steps: seq<Step>, last: int)
    requires 0 <= last == |steps| - 1
    ensures Apply(Run(steps[..last]), steps[last]) == Run(steps)
    ensures UnderquotesAt(steps, last) <==> Underquotes(Run(steps[..last]), steps[last])
  {
    hide Underquotes, Apply;
  }

  lemma {:induction false} RunCounts(steps: seq<Step>)
    ensures NonNegative(Run(steps).rows) <==> forall n :: 0 <= n < |steps| ==> !UnderquotesAt(steps, n)
  {
    hide Underquotes, UnderquotesAt, LedgerInv, Apply, Run;
    if steps == [] {
      assert Run(steps) == EMPTY by {
        EmptyRun();
      }
    } else {
      hide NonNegative;
      var last := |steps| - 1;
      RunCounts(steps[..last]);
      Reachable(steps[..last]);
      StepCounts(Run(steps[..last]), steps[last]);
      UnderquotedLast(steps, last);
      forall n | 0 <= n < last ensures UnderquotesAt(steps, n) <==> UnderquotesAt(steps[..last], n) {
        UnderquotedBefore(steps, last, n);
      }
    }
  }

  lemma {:induction false} EmptyRun()
    ensures Run([]) == EMPTY
  {
  }

  /** The recount succeeds, and its counts and sums are those of the rows. */
  ghost predicate Recounted(rows: seq<Row>) {
    Accounting(rows).Ok? && Tallied(Accounting(rows).value, rows)
  }

  /** The recount of a ledger any interleaving reaches succeeds if and only if none of the
      run's accepted reservations was of less than nothing, and then agrees with the totals. */
  lemma {:induction false} RecountOnRuns(steps: seq<Step>)
    ensures Accounting(Run(steps).rows).Ok? <==> forall n :: 0 <= n < |steps| ==> !UnderquotesAt(steps, n)
    ensures Accounting(Run(steps).rows).Ok? ==> Recounted(Run(steps).rows)
  {
    hide UnderquotesAt, Run, Recount, Total, Attempts, Filter;
    Reachable(steps);
    RunCounts(steps);
    AttemptsSettleable(Run(steps));
    RecountAgrees(Run(steps).rows);
    hide LedgerInv, NonNegative, AllSettleable;
  }

  lemma {:induction false} AttemptsSettleable(s: State)
    requires LedgerInv(s)
    ensures AllSettleable(s.rows)
  {
    forall r | r in s.rows && r.payload.AttemptP? ensures Settleable(r) {
      assert AttemptOk(r);
    }
  }

  /** Against the effective budget the remainder of a recount is exact on every run: use and
      remainder add up to the budget. Against a smaller one of the policy they do so while
      the use is within it, and beyond it nothing remains. */
  lemma {:induction false} RemainderOnRuns(steps: seq<Step>, limits: Limits, policyBudget: Option<int>)
    requires Accounting(Run(steps).rows).Ok? && EffectiveLimits(Run(steps)) == Ok(limits)
    ensures var a := Accounting(Run(steps).rows).value;
            var budget := AuditBudget(limits.budget, policyBudget);
            var left := Remaining(a, budget);
            && (left.None? <==> limits.budget.None? && policyBudget.None?)
            && (left.Some? ==>
                  && left.value >= 0
                  && (Used(a) <= budget.value ==> Used(a) + left.value == budget.value)
                  && (Used(a) > budget.value ==> left.value == 0 && policyBudget.Some? && policyBudget.value < Used(a)))
  {
    hide EffectiveLimits, Accounting, Run, UnderquotesAt, Total, Attempts;
    RecountOnRuns(steps);
    BudgetIsSafe(steps, limits);
  }

  lemma {:induction false} BoundQuotesWell(s: State, step: Step)
    requires Reserves(step) ==> step.policy.inputTokenBound >= 0
    ensures !Underquotes(s, step)
  {
    if Reserves(step) && Quote(step.req, step.policy).Ok? {
      ReservationNonNegative(step.policy.prices, step.policy.inputTokenBound, step.req.maxTokens);
    }
    hide Try, ReservedAmount;
  }

  /** When no policy comes with a negative input bound, the recount never fails. */
  lemma {:induction false} RecountNeverFails(steps: seq<Step>)
    requires forall step :: step in steps && Reserves(step) ==> step.policy.inputTokenBound >= 0
    ensures Recounted(Run(steps).rows)
  {
    forall n | 0 <= n < |steps| ensures !UnderquotesAt(steps, n) {
      assert steps[n] in steps;
      BoundQuotesWell(Run(steps[..n]), steps[n]);
    }
    RecountOnRuns(steps);
    hide UnderquotesAt, Recounted, Run;
  }

  const UNIT_PRICES := Prices(Some(1.0), Some(1.0), Some(1.0), None)
  const INVERTED := Policy(1, false, Some(1), Some(1), 1.0, -10, 1, UNIT_PRICES, "")

  lemma {:induction false} InvertedQuote()
    ensures Quote(Request(1, "", 1), INVERTED) == Ok(-9)
  {
    var ps := InputPrices(UNIT_PRICES);
    assert ps[..2] == [Some(1.0), Some(1.0)] && ps[..2][..1] == [Some(1.0)];
    assert MaxRate([Some(1.0)]) == Ok(1.0);
    assert MaxRate([Some(1.0), Some(1.0)]) == Ok(1.0);
    assert MaxRate(ps) == Ok(1.0);
  }

  /** A policy with a negative input bound reserves less than nothing, and every later recount
      is refused. */
  lemma {:induction false} NegativeBoundSpoilsTheRecount()
    ensures var step := DoReserve(0, LOCAL_TRIAL, Request(1, "", 1), INVERTED, 0.0, true);
            Try(EMPTY, step).Ok? && Accounting(Run([step]).rows).Err?
  {
    hide Reserve, TrialLimits, LedgerInv, Quote, ReserveForSlot, Accounting;
    var step := DoReserve(0, LOCAL_TRIAL, Request(1, "", 1), INVERTED, 0.0, true);
    InvertedQuote();
    FirstReservation(0, Request(1, "", 1), INVERTED, 0.0);
    RecountOnRuns([step]);
    assert RunFrom(EMPTY, [step][..0]) == EMPTY;
    assert UnderquotesAt([step], 0);
  }

  // ---- Analysis runs ----

  /** A bound run with a finite cap never holds more than the cap; its attempts are one a
      slot, in slot order, all but the newest settled with known usage, and each belongs to
      a claimed slot. */
  lemma {:induction false} RunMoneyIsSafe(steps: seq<Step>, run: string)
    ensures var rows := Run(steps).rows;
            && Sequenced(RunAttempts(rows, run), run)
            && (RunAttempts(rows, run) != [] ==> Bound(rows, run))
            && (Bound(rows, run) && CapOf(rows, run).Some? ==> RunTotal(rows, run) <= CapOf(rows, run).value)
            && (forall r :: r in RunAttempts(rows, run) ==> r.payload.AttemptP? && r.payload.tag.Some?
                                                            && Claimed(rows, run, r.payload.tag.value.index))
  {
    Reachable(steps);
    var rows := Run(steps).rows;
    assert Accounted(rows, run);
    FilterMembers(rows, TaggedWith(run));
    forall r | r in RunAttempts(rows, run)
      ensures r.payload.AttemptP? && r.payload.tag.Some? && Claimed(rows, run, r.payload.tag.value.index)
    {
      assert TaggedWith(run)(r);
    }
  }

  /** Claimed slots form a prefix of the thirty, and all of them but the last are done or failed. */
  lemma {:induction false} ClaimsArePrefix(steps: seq<Step>, run: string, i: nat, j: nat)
    requires Claimed(Run(steps).rows, run, i) && j < i
    ensures i < SLOT_COUNT && Claimed(Run(steps).rows, run, j) && Cleared(Run(steps).rows, run, j)
  {
    Reachable(steps);
    assert Keyed(Lookup(Run(steps).rows, ClaimKey(run, i)).value);
  }

  /** A claimed slot is never claimed again, whatever happens in between. */
  lemma {:induction false} ClaimedOnce(before: seq<Step>, h: Handle, i: nat, body: Request, later: seq<Step>,
          again: Handle, body': Request)
    requires i < SLOT_COUNT && Claim(Run(before), h, i, body).Ok? && again.runId == h.runId
    ensures Claim(RunFrom(Claim(Run(before), h, i, body).value, later), again, i, body').Err?
  {
    Reachable(before);
    var s := Run(before);
    var t := Claim(s, h, i, body).value;
    ClaimKeeps(s, h, i, body);
    HistoryPersists(t, later);
    RunFromKeeps(t, later);
    var u := RunFrom(t, later);
    assert Claimed(u.rows, h.runId, i);
    if Claim(u, again, i, body').Ok? {
      ClaimShape(u, again, i, body', CheckRun(u.rows, again));
      assert false;
    }
  }

  lemma {:induction false} ClearedBelow(rows: seq<Row>, run: string, i: nat, k: nat)
    requires Ordered(rows) && i < k
    ensures Claimed(rows, run, k) ==> Cleared(rows, run, i)
  {
    if Claimed(rows, run, k) {
      assert Claimed(rows, run, i) && Cleared(rows, run, i);
    }
  }

  /** Once a slot is finished uncertain or blocked, its outcome stands and no later slot of
      the run is ever claimed. */
  lemma {:induction false} StoppedForGood(before: seq<Step>, run: string, i: nat, k: nat, later: seq<Step>)
    requires var slot := Lookup(Run(before).rows, SlotKey(run, i));
             slot.Some? && slot.value.payload.SlotP? && slot.value.status in {Uncertain, Status.Blocked}
    requires i < k
    ensures !Claimed(RunFrom(Run(before), later).rows, run, k)
    ensures Lookup(RunFrom(Run(before), later).rows, SlotKey(run, i)) == Lookup(Run(before).rows, SlotKey(run, i))
  {
    Reachable(before);
    HistoryPersists(Run(before), later);
    RunFromKeeps(Run(before), later);
    ClearedBelow(RunFrom(Run(before), later).rows, run, i, k);
  }

  lemma {:induction false} SettleLater(s: State, u: State, permit: Permit, usage: Usage)
    requires Persists(s, u) && Settle(s, permit, usage).Ok?
    requires Receipted(Lookup(s.rows, permit.attempt).value.payload, usage).Ok?
    ensures var r := Receipted(Lookup(s.rows, permit.attempt).value.payload, usage).value;
            r.0 != Pending ==>
              && Settle(u, permit, usage).Ok?
              && Settle(u, permit, usage) == match RecordReceipt(u, permit.attempt, r.0, r.1)
                                             case Ok(t) => Ok(t)
                                             case Err(_) => Ok(u)
  {
    assert Lookup(u.rows, permit.attempt).Some?;
  }

  /** Settlement read in one transaction and written in a later one, with any run of steps
      in between, is the same as settlement in the later one alone: a conflicting receipt
      means that another consumer settled first, and is no change. */
  lemma {:induction false} SettlementIsAtomic(before: seq<Step>, permit: Permit, usage: Usage, between: seq<Step>)
    requires Settle(Run(before), permit, usage).Ok?
    ensures Receipted(Lookup(Run(before).rows, permit.attempt).value.payload, usage).Ok?
    ensures var u := RunFrom(Run(before), between);
            var r := Receipted(Lookup(Run(before).rows, permit.attempt).value.payload, usage).value;
            Settle(u, permit, usage) == match RecordReceipt(u, permit.attempt, r.0, r.1)
                                        case Ok(t) => Ok(t)
                                        case Err(_) => Ok(u)
  {
    Reachable(before);
    HistoryPersists(Run(before), between);
    ReceiptInOrder(Lookup(Run(before).rows, permit.attempt).value, usage);
    SettleLater(Run(before), RunFrom(Run(before), between), permit, usage);
  }
}
