/** Each transaction of the budget against its invariant. */
module BudgetSteps {
  import opened Outcome
  import opened Ledger
  import opened Authority
  import opened Pricing
  import opened Reservation
  import opened BudgetSafety

  // ---- Settlement ----

  /** Every attempt on the ledger can be settled with every report: the receipt is either a
      known charge within the reservation or the whole reservation, never more. */
  lemma {:induction false} ReceiptInOrder(r: Row, usage: Usage)
    requires r.payload.AttemptP? && AttemptOk(r)
    ensures Receipted(r.payload, usage).Ok?
    ensures var (status, e) := Receipted(r.payload, usage).value;
            && AttemptOk(r.(status := status, evidence := Some(e)))
            && e.charged <= r.payload.reserved
            && (e.usageKnown <==> KnownCharge(usage, r.payload.prices, r.payload.inputBound, r.payload.maxTokens).value.Some?)
  {
    ChargeWithinReservation(usage, r.payload.prices, r.payload.inputBound, r.payload.maxTokens);
  }

  /** What an accepted settlement has checked and written. */
  lemma {:induction false} SettleShape(s: State, permit: Permit, usage: Usage)
    requires AttemptsOk(s.rows) && Settle(s, permit, usage).Ok?
    ensures var row := Lookup(s.rows, permit.attempt);
            && row.Some? && row.value.payload.AttemptP? && row.value.id == permit.attempt && row.value in s.rows
            && row.value.payload.scopeId == permit.scopeId && row.value.payload.reserved == permit.reserved
            && row.value.payload.deadline == permit.deadline
            && Receipted(row.value.payload, usage).Ok?
            && var r := Receipted(row.value.payload, usage).value;
               && r.0 != Pending && AttemptOk(row.value.(status := r.0, evidence := Some(r.1)))
               && r.1.AttemptE? && r.1.charged <= row.value.payload.reserved
               && Settle(s, permit, usage).value == if row.value.status != Pending then s else Finish(s, permit.attempt, r.0, r.1)
  {
    ReceiptInOrder(Lookup(s.rows, permit.attempt).value, usage);
  }

  lemma {:induction false} SettleKeeps(s: State, permit: Permit, usage: Usage)
    requires BudgetInv(s) && Settle(s, permit, usage).Ok?
    ensures var t := Settle(s, permit, usage).value;
            && BudgetInv(t)
            && StageOf(t.rows) == StageOf(s.rows)
            && Total(t.rows, LOCAL_TRIAL) <= Total(s.rows, LOCAL_TRIAL)
            && Attempts(t.rows, LOCAL_TRIAL) == Attempts(s.rows, LOCAL_TRIAL)
  {
    SettleShape(s, permit, usage);
    var row := Lookup(s.rows, permit.attempt).value;
    if row.status == Pending {
      var r := Receipted(row.payload, usage).value;
      hide Receipted, AttemptOk, AuthorityInv, AttemptsOk, Within, StageOf, Settle, FinishRows;
      assert r.1.AttemptE? && HeldBy(row.(status := r.0, evidence := Some(r.1))) <= HeldBy(row) by {
        AttemptUnsettled(s, row);
      }
      FinishKeeps(s, row, r.0, r.1);
      assert UniqueIds(s.rows) by {
        SoundOf(s);
      }
      FinishUsage(s.rows, row, r.0, r.1, LOCAL_TRIAL);
    }
  }

  lemma {:induction false} SoundOf(s: State)
    requires AuthorityInv(s)
    ensures UniqueIds(s.rows) && ReceiptShape(s.rows)
  {
  }

  lemma {:induction false} AttemptUnsettled(s: State, row: Row)
    requires AuthorityInv(s) && row in s.rows && row.status == Pending && row.payload.AttemptP?
    ensures HeldBy(row) == row.payload.reserved
  {
  }

  lemma {:induction false} SettledAgain(s: State, permit: Permit, usage: Usage, row: Row)
    requires Lookup(s.rows, permit.attempt) == Some(row) && row.status != Pending && row.payload.AttemptP?
    requires row.payload.scopeId == permit.scopeId && row.payload.reserved == permit.reserved && row.payload.deadline == permit.deadline
    ensures Settle(s, permit, usage) == Ok(s)
  {
  }

  /** A second settlement, with any report, changes nothing. */
  lemma {:induction false} SettleOnce(s: State, permit: Permit, usage: Usage, again: Usage)
    requires BudgetInv(s) && Settle(s, permit, usage).Ok?
    ensures var t := Settle(s, permit, usage).value; Settle(t, permit, again) == Ok(t)
  {
    hide Receipted, AttemptOk, AuthorityInv, FinishRows, Within, Total, Attempts, StageOf;
    SettleShape(s, permit, usage);
    var row := Lookup(s.rows, permit.attempt).value;
    hide Settle;
    if row.status == Pending {
      var r := Receipted(row.payload, usage).value;
      LookupFinish(s.rows, permit.attempt, r.0, r.1, permit.attempt);
      SettledAgain(Settle(s, permit, usage).value, permit, again, row.(status := r.0, evidence := Some(r.1)));
    } else {
      SettledAgain(s, permit, again, row);
    }
  }

  // ---- Reservation ----

  /** A ledger without scope holds no amendment and no attempt. */
  lemma {:induction false} Unopened(s: State)
    requires AuthorityInv(s) && Lookup(s.rows, ScopeKey(LOCAL_TRIAL)).None?
    ensures NoAttempts(s.rows) && ViewOf(s.rows) == View(None, [], [], [], [])
  {
    assert Chain(ViewOf(s.rows));
    hide Sound, AmendmentsOk;
  }

  lemma {:induction false} OpeningView(rows: seq<Row>, row: Row)
    requires ViewOf(rows) == View(None, [], [], [], []) && row.id == ScopeKey(LOCAL_TRIAL) && row.payload.ScopeP?
    ensures Chain(ViewOf(rows + [row])) && StageOf(rows + [row]) == Original
    ensures Lookup(rows + [row], ScopeKey(LOCAL_TRIAL)) == Some(row)
  {
    InsertKinds(rows, row);
    LookupInsert(rows, row, ScopeKey(LOCAL_TRIAL));
  }

  lemma {:induction false} OpeningKeeps(s: State, policyAttempts: Option<int>, policy: Policy)
    requires AuthorityInv(s) && Lookup(s.rows, ScopeKey(LOCAL_TRIAL)).None?
    requires PolicyAttemptLimit(policy) == Ok(policyAttempts)
    ensures AuthorityInv(Opened(s, policyAttempts, policy))
    ensures StageOf(s.rows) == StageOf(Opened(s, policyAttempts, policy).rows) == Original
    ensures NoAttempts(s.rows) && NoAttempts(Opened(s, policyAttempts, policy).rows)
    ensures var t := Opened(s, policyAttempts, policy);
            Lookup(t.rows, ScopeKey(LOCAL_TRIAL)).Some? &&
            Lookup(t.rows, ScopeKey(LOCAL_TRIAL)).value.payload == OpeningScope(policyAttempts, policy.budget)
  {
    var row := Row(ScopeKey(LOCAL_TRIAL), OpeningScope(policyAttempts, policy.budget), Pending, None);
    assert Opened(s, policyAttempts, policy) == Insert(s, row, BirthEvents(row));
    assert AmendmentOk(row);
    hide AmendmentOk, Sound, Chain, Grounded, FenceStands, PolicyAttemptLimit, Opened;
    Unopened(s);
    InsertSound(s, row);
    AmendmentsInsert(s.rows, row);
    GroundedInsert(s.rows, row);
    OpeningView(s.rows, row);
  }

  lemma {:induction false} NothingHeld(rows: seq<Row>)
    requires NoAttempts(rows)
    ensures Total(rows, LOCAL_TRIAL) == 0 && Attempts(rows, LOCAL_TRIAL) == 0
  {
    if rows != [] {
      NothingHeld(rows[..|rows| - 1]);
      assert rows[|rows| - 1] in rows;
    }
  }

  lemma {:induction false} NoteChain(s: State, kind: string, subject: OpId)
    requires AuthorityInv(s)
    ensures AuthorityInv(State(s.rows, s.events + [Note(kind, subject)]))
  {
    NoteSound(s, kind, subject);
  }

  lemma {:induction false} InsertAttemptChain(s: State, row: Row)
    requires AuthorityInv(s) && Lookup(s.rows, row.id).None? && Lookup(s.rows, ScopeKey(LOCAL_TRIAL)).Some?
    requires row.id.AttemptKey? && row.payload.AttemptP? && row.status == Pending && row.evidence == None
    ensures var t := Insert(s, row, [Note("model-reserved", row.id)]);
            AuthorityInv(t) && StageOf(t.rows) == StageOf(s.rows)
  {
    hide AuthorityInv, StageOf;
    var born := Insert(s, row, BirthEvents(row));
    InsertOrdinary(s, row);
    NoteChain(born, "model-reserved", row.id);
    assert born.events == s.events;
  }

  lemma {:induction false} InsertAttempt(s: State, row: Row, limits: Limits)
    requires AuthorityInv(s) && AttemptsOk(s.rows) && Lookup(s.rows, row.id).None?
    requires Lookup(s.rows, ScopeKey(LOCAL_TRIAL)).Some? && Lookup(s.rows, ScopeKey(LOCAL_TRIAL)).value.payload.ScopeP?
    requires row.id.AttemptKey? && row.payload.AttemptP? && row.status == Pending && row.evidence == None && AttemptOk(row)
    requires limits == LimitsAt(StageOf(s.rows), Lookup(s.rows, ScopeKey(LOCAL_TRIAL)).value.payload)
    requires WithinOption(Attempts(s.rows, LOCAL_TRIAL) + 1, limits.maxAttempts)
    requires WithinOption(Total(s.rows, LOCAL_TRIAL) + row.payload.reserved, limits.budget)
    ensures var t := Insert(s, row, [Note("model-reserved", row.id)]);
            && BudgetInv(t) && StageOf(t.rows) == StageOf(s.rows)
            && Total(t.rows, LOCAL_TRIAL) == Total(s.rows, LOCAL_TRIAL) + row.payload.reserved
            && Attempts(t.rows, LOCAL_TRIAL) == Attempts(s.rows, LOCAL_TRIAL) + 1
  {
    InsertAttemptChain(s, row);
    InsertUsage(s.rows, row, LOCAL_TRIAL);
    LookupInsert(s.rows, row, ScopeKey(LOCAL_TRIAL));
  }

  /** The attempt row an accepted reservation writes. */
  ghost function Reserved(uuid: nat, req: Request, policy: Policy, now: real, grant: Grant, amount: int): Row {
    Row(AttemptKey(uuid), AttemptPayload(amount, PermitDeadline(now, policy, grant), req, policy, grant.tag), Pending, None)
  }

  lemma {:induction false} ReservedInOrder(uuid: nat, req: Request, policy: Policy, now: real, grant: Grant,
          amount: int)
    requires Quote(req, policy) == Ok(amount)
    ensures AttemptOk(Reserved(uuid, req, policy, now, grant, amount))
  {
  }

  /** What an accepted reservation has checked and written. */
  lemma {:induction false} ReserveShape(s: State, uuid: nat, scopeId: string, req: Request, policy: Policy, now: real,
                     custody: bool, grant: Result<Grant>)
    returns (policyAttempts: Option<int>, amount: int, scope: Payload, limits: Limits)
    requires Reserve(s, uuid, scopeId, req, policy, now, custody, grant).Ok?
    ensures scopeId == LOCAL_TRIAL && custody && grant.Ok?
    ensures PolicyAttemptLimit(policy) == Ok(policyAttempts) && Quote(req, policy) == Ok(amount)
    ensures scope.ScopeP?
    ensures scope == match Lookup(s.rows, ScopeKey(LOCAL_TRIAL))
                     case None => OpeningScope(policyAttempts, policy.budget)
                     case Some(r) => r.payload
    ensures Lookup(s.rows, ScopeKey(LOCAL_TRIAL)).Some? ==> scope.budget > 0
    ensures TrialLimits(Opened(s, policyAttempts, policy), scope) == Ok(limits)
    ensures Fits(Attempts(s.rows, LOCAL_TRIAL), Total(s.rows, LOCAL_TRIAL), amount, policyAttempts, policy, limits)
    ensures Lookup(Opened(s, policyAttempts, policy).rows, AttemptKey(uuid)).None?
    ensures var (t, permit) := Reserve(s, uuid, scopeId, req, policy, now, custody, grant).value;
            && t == Insert(Opened(s, policyAttempts, policy), Reserved(uuid, req, policy, now, grant.value, amount),
                           [Note("model-reserved", AttemptKey(uuid))])
            && permit == Permit(AttemptKey(uuid), LOCAL_TRIAL, amount, PermitDeadline(now, policy, grant.value))
  {
    policyAttempts := PolicyAttemptLimit(policy).value;
    amount := Quote(req, policy).value;
    var row := Lookup(s.rows, ScopeKey(LOCAL_TRIAL));
    scope := if row.None? then OpeningScope(policyAttempts, policy.budget) else ScopePayload(row).value;
    limits := TrialLimits(Opened(s, policyAttempts, policy), scope).value;
  }

  lemma {:induction false} OpenedKeeps(s: State, policyAttempts: Option<int>, policy: Policy, scope: Payload)
    requires BudgetInv(s) && PolicyAttemptLimit(policy) == Ok(policyAttempts)
    requires scope == match Lookup(s.rows, ScopeKey(LOCAL_TRIAL))
                      case None => OpeningScope(policyAttempts, policy.budget)
                      case Some(r) => r.payload
    ensures var t := Opened(s, policyAttempts, policy);
            && AuthorityInv(t) && AttemptsOk(t.rows)
            && ScopeIs(t.rows, scope)
            && StageOf(t.rows) == StageOf(s.rows)
            && Total(t.rows, LOCAL_TRIAL) == Total(s.rows, LOCAL_TRIAL)
            && Attempts(t.rows, LOCAL_TRIAL) == Attempts(s.rows, LOCAL_TRIAL)
  {
    hide AuthorityInv, StageOf, AttemptOk, Total, Attempts, OpeningScope;
    if Lookup(s.rows, ScopeKey(LOCAL_TRIAL)).None? {
      OpeningKeeps(s, policyAttempts, policy);
      NothingHeld(s.rows);
      NothingHeld(Opened(s, policyAttempts, policy).rows);
    }
  }

  /** Whatever grant and policy a reservation comes with, it keeps the invariant. */
  lemma {:induction false} ReserveKeeps(s: State, uuid: nat, scopeId: string, req: Request, policy: Policy, now: real,
                     custody: bool, grant: Result<Grant>)
    requires BudgetInv(s) && Reserve(s, uuid, scopeId, req, policy, now, custody, grant).Ok?
    ensures var (t, permit) := Reserve(s, uuid, scopeId, req, policy, now, custody, grant).value;
            && BudgetInv(t)
            && StageOf(t.rows) == StageOf(s.rows)
            && Total(t.rows, LOCAL_TRIAL) == Total(s.rows, LOCAL_TRIAL) + permit.reserved
            && Attempts(t.rows, LOCAL_TRIAL) == Attempts(s.rows, LOCAL_TRIAL) + 1
  {
    var policyAttempts, amount, scope, limits := ReserveShape(s, uuid, scopeId, req, policy, now, custody, grant);
    var s1 := Opened(s, policyAttempts, policy);
    assert scope.ScopeP?;
    OpenedKeeps(s, policyAttempts, policy, scope);
    RecomputationRefines(s1, scope);
    ReservedInOrder(uuid, req, policy, now, grant.value, amount);
    InsertAttempt(s1, Reserved(uuid, req, policy, now, grant.value, amount), limits);
  }

  // ---- Amendments ----

  function Next(stage: Stage): Stage {
    match stage
    case Original => Twenty
    case Twenty => FeeOnly
    case FeeOnly => Uncapped
    case Uncapped => Finite
    case Finite => Finite
  }

  /** The one stage an amendment applies to. */
  function StageBefore(p: Payload): Stage
    requires IsAmendment(p)
  {
    if p.AmendV1P? then Original
    else if p.AmendV2P? then Twenty
    else if p.AmendV3P? then FeeOnly
    else Uncapped
  }

  ghost predicate StageAllows(s: State, scope: Row, id: OpId, p: Payload)
    requires IsAmendment(p)
  {
    && Lookup(s.rows, ScopeKey(LOCAL_TRIAL)) == Some(scope) && scope.payload.ScopeP?
    && ValidAmendment(p) && TrustedId(id) && StageOf(s.rows) == StageBefore(p)
    && (p.AmendV1P? ==> scope.payload.budget == FIRST_BUDGET)
    && (p.AmendV2P? ==> scope.payload == ScopeP(TRIAL_ATTEMPTS, FIRST_BUDGET) && FenceStands(s.rows))
    && (p.AmendV4P? ==> Total(s.rows, LOCAL_TRIAL) <= FINITE_BUDGET)
  }

  lemma {:induction false} AmendedChain(s: State, id: OpId, p: Payload, scope: Row)
    requires AuthorityInv(s) && IsAmendment(p) && StageAllows(s, scope, id, p) && Lookup(s.rows, id).None?
    ensures var t := Amended(s, id, p);
            && AuthorityInv(t) && StageOf(t.rows) == Next(StageOf(s.rows))
            && Lookup(t.rows, ScopeKey(LOCAL_TRIAL)) == Some(scope)
  {
    hide Sound, TrustedReference, Approval, TrustedId, EventsOf, ViewOf, Chain, Grounded, StageOf, FenceStands;
    var row := AmendmentRow(id, p);
    assert Amended(s, id, p) == Insert(s, row, BirthEvents(row));
    InsertSound(s, row);
    AmendmentsInsert(s.rows, row);
    AmendedView(s.rows, row, scope);
    AmendedGround(s.rows, row);
  }

  /** Usage within a stage's limits is within those of the next. */
  lemma {:induction false} WithinNext(stage: Stage, scope: Payload, p: Payload, count: int, total: int)
    requires scope.ScopeP? && IsAmendment(p) && stage == StageBefore(p)
    requires p.AmendV1P? ==> scope.budget == FIRST_BUDGET
    requires p.AmendV4P? ==> total <= FINITE_BUDGET
    requires WithinOption(count, LimitsAt(stage, scope).maxAttempts) && WithinOption(total, LimitsAt(stage, scope).budget)
    ensures WithinOption(count, LimitsAt(Next(stage), scope).maxAttempts)
    ensures WithinOption(total, LimitsAt(Next(stage), scope).budget)
  {
  }

  lemma {:induction false} AmendedKeeps(s: State, id: OpId, p: Payload, scope: Row)
    requires BudgetInv(s) && IsAmendment(p) && StageAllows(s, scope, id, p) && Lookup(s.rows, id).None?
    ensures var t := Amended(s, id, p);
            && BudgetInv(t)
            && StageOf(t.rows) == Next(StageOf(s.rows))
            && Total(t.rows, LOCAL_TRIAL) == Total(s.rows, LOCAL_TRIAL)
  {
    AmendedChain(s, id, p, scope);
    AmendedUsage(s, id, p);
    hide AuthorityInv, StageOf, Amended, Total, Attempts, AttemptsOk, ValidAmendment, TrustedId, FenceStands;
    WithinNext(StageOf(s.rows), scope.payload, p, Attempts(s.rows, LOCAL_TRIAL), Total(s.rows, LOCAL_TRIAL));
  }

  lemma {:induction false} AmendedUsage(s: State, id: OpId, p: Payload)
    requires IsAmendment(p)
    ensures var t := Amended(s, id, p);
            && Total(t.rows, LOCAL_TRIAL) == Total(s.rows, LOCAL_TRIAL)
            && Attempts(t.rows, LOCAL_TRIAL) == Attempts(s.rows, LOCAL_TRIAL)
            && (AttemptsOk(s.rows) ==> AttemptsOk(t.rows))
  {
    hide Total, Attempts, AttemptOk;
    InsertUsage(s.rows, AmendmentRow(id, p), LOCAL_TRIAL);
  }

  lemma {:induction false} AmendedGround(rows: seq<Row>, row: Row)
    requires Grounded(rows) && Lookup(rows, row.id).None? && IsAmendment(row.payload)
    requires row.payload.AmendV2P? ==> FenceStands(rows)
    ensures Grounded(rows + [row])
  {
    FilterInsert(rows, row, IsKind(V2K));
    LookupInsert(rows, row, ScopeKey(LOCAL_TRIAL));
    if FenceStands(rows) {
      InsertFence(rows, row);
    }
  }

  lemma {:induction false} AmendedView(rows: seq<Row>, row: Row, scope: Row)
    requires Chain(ViewOf(rows)) && IsAmendment(row.payload) && Lookup(rows, row.id).None?
    requires Lookup(rows, ScopeKey(LOCAL_TRIAL)) == Some(scope) && scope.payload.ScopeP?
    requires StageOf(rows) == StageBefore(row.payload)
    requires row.payload.AmendV1P? ==> scope.payload.budget == FIRST_BUDGET
    requires row.payload.AmendV2P? ==> scope.payload == ScopeP(TRIAL_ATTEMPTS, FIRST_BUDGET)
    ensures Chain(ViewOf(rows + [row])) && StageOf(rows + [row]) == Next(StageOf(rows))
    ensures Lookup(rows + [row], ScopeKey(LOCAL_TRIAL)) == Some(scope)
  {
    InsertKinds(rows, row);
    LookupInsert(rows, row, ScopeKey(LOCAL_TRIAL));
  }

  lemma {:induction false} DueV1(s: State, id: OpId, p: Payload, scope: Row)
    requires AuthorityInv(s) && p.AmendV1P? && AmendV1(s, id, p).Ok? && Lookup(s.rows, id).None?
    requires Lookup(s.rows, ScopeKey(LOCAL_TRIAL)) == Some(scope) && scope.payload.ScopeP?
    ensures StageAllows(s, scope, id, p) && AmendV1(s, id, p).value == Amended(s, id, p)
  {
    FirstBudgetAt(s, scope.payload);
    StageLimits(s.rows, scope.payload);
  }

  lemma {:induction false} ConcludedV2(s: State, id: OpId, p: Payload, scope: Payload, limits: Limits)
    requires p.AmendV2P? && ConcludeV2(s, id, p, scope, limits).Ok? && Lookup(s.rows, id).None?
    ensures scope == ScopeP(TRIAL_ATTEMPTS, FIRST_BUDGET) && FenceStands(s.rows)
    ensures limits == Limits(Some(TRIAL_ATTEMPTS), Some(SECOND_BUDGET), true)
    ensures ConcludeV2(s, id, p, scope, limits).value == Amended(s, id, p)
  {
  }

  lemma {:induction false} ConcludedV3(s: State, id: OpId, p: Payload, limits: Limits)
    requires p.AmendV3P? && ConcludeV3(s, id, p, limits).Ok? && Lookup(s.rows, id).None?
    ensures limits == FEE_ONLY && ConcludeV3(s, id, p, limits).value == Amended(s, id, p)
  {
  }

  lemma {:induction false} ConcludedV4(s: State, id: OpId, p: Payload, limits: Limits)
    requires p.AmendV4P? && ConcludeV4(s, id, p, limits).Ok? && Lookup(s.rows, id).None?
    ensures limits == UNCAPPED && Total(s.rows, p.scopeId) <= FINITE_BUDGET
    ensures ConcludeV4(s, id, p, limits).value == Amended(s, id, p)
  {
  }

  lemma {:induction false} DueV2(s: State, id: OpId, p: Payload, scope: Row)
    requires AuthorityInv(s) && p.AmendV2P? && AmendV2(s, id, p).Ok? && Lookup(s.rows, id).None?
    requires Lookup(s.rows, ScopeKey(LOCAL_TRIAL)) == Some(scope) && scope.payload.ScopeP?
    ensures StageAllows(s, scope, id, p) && AmendV2(s, id, p).value == Amended(s, id, p)
  {
    hide Sound, Grounded, AmendmentsOk, TrialLimits, TrustedId, TrustedReference, Total, Amended;
    var limits := LimitsAt(StageOf(s.rows), scope.payload);
    RecomputationRefines(s, scope.payload);
    assert AmendV2(s, id, p) == ConcludeV2(s, id, p, scope.payload, limits);
    ConcludedV2(s, id, p, scope.payload, limits);
  }

  lemma {:induction false} DueV3(s: State, id: OpId, p: Payload, scope: Row)
    requires AuthorityInv(s) && p.AmendV3P? && AmendV3(s, id, p).Ok? && Lookup(s.rows, id).None?
    requires Lookup(s.rows, ScopeKey(LOCAL_TRIAL)) == Some(scope) && scope.payload.ScopeP?
    ensures StageAllows(s, scope, id, p) && AmendV3(s, id, p).value == Amended(s, id, p)
  {
    hide Sound, Grounded, AmendmentsOk, TrialLimits, TrustedId, TrustedReference, Total, Amended;
    var limits := LimitsAt(StageOf(s.rows), scope.payload);
    RecomputationRefines(s, scope.payload);
    assert AmendV3(s, id, p) == ConcludeV3(s, id, p, limits);
    ConcludedV3(s, id, p, limits);
  }

  lemma {:induction false} DueV4(s: State, id: OpId, p: Payload, scope: Row)
    requires AuthorityInv(s) && p.AmendV4P? && AmendV4(s, id, p).Ok? && Lookup(s.rows, id).None?
    requires Lookup(s.rows, ScopeKey(LOCAL_TRIAL)) == Some(scope) && scope.payload.ScopeP?
    ensures StageAllows(s, scope, id, p) && AmendV4(s, id, p).value == Amended(s, id, p)
  {
    hide Sound, Grounded, AmendmentsOk, TrialLimits, TrustedId, TrustedReference, Total, Amended;
    var limits := LimitsAt(StageOf(s.rows), scope.payload);
    RecomputationRefines(s, scope.payload);
    assert AmendV4(s, id, p) == ConcludeV4(s, id, p, limits);
    ConcludedV4(s, id, p, limits);
  }

  lemma {:induction false} AmendReadsScope(s: State, id: OpId, p: Payload)
    requires IsAmendment(p) && Amend(s, id, p).Ok?
    ensures Lookup(s.rows, ScopeKey(LOCAL_TRIAL)).Some? && Lookup(s.rows, ScopeKey(LOCAL_TRIAL)).value.payload.ScopeP?
  {
    hide TrialLimits, EffectiveBudget, TrustedId, TrustedReference, Total, Amended, ConcludeV2, ConcludeV3, ConcludeV4;
  }

  /** A fresh amendment is accepted only at the stage it applies to. */
  lemma {:induction false} AmendDue(s: State, id: OpId, p: Payload)
    returns (scope: Row)
    requires AuthorityInv(s) && IsAmendment(p) && Amend(s, id, p).Ok? && Lookup(s.rows, id).None?
    ensures StageAllows(s, scope, id, p) && Amend(s, id, p).value == Amended(s, id, p)
  {
    hide AuthorityInv, StageAllows, AmendV1, AmendV2, AmendV3, AmendV4, Amended;
    AmendReadsScope(s, id, p);
    scope := Lookup(s.rows, ScopeKey(LOCAL_TRIAL)).value;
    if p.AmendV1P? {
      DueV1(s, id, p, scope);
    } else if p.AmendV2P? {
      DueV2(s, id, p, scope);
    } else if p.AmendV3P? {
      DueV3(s, id, p, scope);
    } else {
      DueV4(s, id, p, scope);
    }
  }

  lemma {:induction false} AmendExisting(s: State, id: OpId, p: Payload)
    requires IsAmendment(p) && Amend(s, id, p).Ok? && Lookup(s.rows, id).Some?
    ensures Amend(s, id, p).value == s && Lookup(s.rows, id).value.payload == p
  {
    hide TrialLimits, EffectiveBudget, ScopePayload, Total, TrustedId, TrustedReference, Amended;
  }

  /** An accepted amendment either was already there and changes nothing, or moves the
      authority exactly one stage forward, from the one stage it applies to. */
  lemma {:induction false} AmendKeeps(s: State, id: OpId, p: Payload)
    requires BudgetInv(s) && IsAmendment(p) && Amend(s, id, p).Ok?
    ensures var t := Amend(s, id, p).value;
            && BudgetInv(t)
            && Total(t.rows, LOCAL_TRIAL) == Total(s.rows, LOCAL_TRIAL)
            && (if Lookup(s.rows, id).Some? then t == s && Lookup(s.rows, id).value.payload == p
                else && StageOf(s.rows) == StageBefore(p) && StageOf(t.rows) == Next(StageOf(s.rows))
                     && t == Amended(s, id, p))
  {
    if Lookup(s.rows, id).None? {
      var scope := AmendDue(s, id, p);
      AmendedKeeps(s, id, p, scope);
    } else {
      AmendExisting(s, id, p);
    }
  }

  lemma {:induction false} KindPresent(rows: seq<Row>, row: Row)
    requires row in rows
    ensures OfKind(rows, KindOf(row.payload)) != []
  {
    FilterMembers(rows, IsKind(KindOf(row.payload)));
    assert row in OfKind(rows, KindOf(row.payload));
  }

  /** A recorded amendment stands on a scope that can still be read. */
  lemma {:induction false} AmendedScope(s: State, row: Row)
    requires AuthorityInv(s) && row in s.rows && IsAmendment(row.payload)
    ensures Lookup(s.rows, row.id) == Some(row) && ValidAmendment(row.payload) && TrustedId(row.id)
    ensures var scope := Lookup(s.rows, ScopeKey(LOCAL_TRIAL));
            scope.Some? && scope.value.payload.ScopeP? && ScopePayload(scope) == Ok(scope.value.payload)
  {
    LookupUnique(s.rows, row);
    KindPresent(s.rows, row);
    assert AmendmentOk(row);
    AmendmentNeedsScope(s, KindOf(row.payload));
    assert AmendmentOk(Lookup(s.rows, ScopeKey(LOCAL_TRIAL)).value);
  }

  lemma {:induction false} AmendmentNeedsScope(s: State, k: Kind)
    requires AuthorityInv(s) && AmendmentKind(k) && OfKind(s.rows, k) != []
    ensures var scope := Lookup(s.rows, ScopeKey(LOCAL_TRIAL));
            scope.Some? && scope.value.payload.ScopeP? && scope.value.payload.budget == FIRST_BUDGET
  {
    assert Chain(ViewOf(s.rows));
    hide Sound, AmendmentsOk, Grounded;
  }

  /** Repeating a recorded amendment, at any later stage, is accepted and changes nothing. */
  lemma {:induction false} AmendAgain(s: State, row: Row)
    requires BudgetInv(s) && row in s.rows && IsAmendment(row.payload)
    ensures Amend(s, row.id, row.payload) == Ok(s)
  {
    AmendedScope(s, row);
    var scope := Lookup(s.rows, ScopeKey(LOCAL_TRIAL)).value.payload;
    FirstBudgetAt(s, scope);
    RecomputationRefines(s, scope);
    hide BudgetInv, TrialLimits, EffectiveBudget, ValidV1, ValidV2, ValidV3, ValidV4, Total, LimitsAt, StageOf, TrustedId;
    RecordedAgain(s, row, scope, LimitsAt(StageOf(s.rows), scope));
  }

  lemma {:induction false} RecordedAgain(s: State, row: Row, scope: Payload, limits: Limits)
    requires Lookup(s.rows, row.id) == Some(row) && IsAmendment(row.payload) && ValidAmendment(row.payload) && TrustedId(row.id)
    requires scope.ScopeP? && ScopePayload(Lookup(s.rows, ScopeKey(LOCAL_TRIAL))) == Ok(scope)
    requires EffectiveBudget(s, scope).Ok? && TrialLimits(s, scope) == Ok(limits)
    ensures Amend(s, row.id, row.payload) == Ok(s)
  {
    hide TrialLimits, EffectiveBudget, ScopePayload, Total, TrustedId, TrustedReference, Amended;
  }

  // ---- Exactly when an operation is accepted ----

  /** What a fresh amendment needs, in terms of the authority's stage. */
  ghost predicate Admissible(s: State, scope: Payload, id: OpId, p: Payload)
    requires IsAmendment(p) && scope.ScopeP?
  {
    && ValidAmendment(p) && TrustedId(id) && StageOf(s.rows) == StageBefore(p)
    && (p.AmendV1P? ==> scope.budget == FIRST_BUDGET)
    && (p.AmendV2P? ==> scope == ScopeP(TRIAL_ATTEMPTS, FIRST_BUDGET) && FenceStands(s.rows)
                        && forall r :: r in s.rows ==> !PendingTransport(r, Some(LOCAL_TRIAL)))
    && (p.AmendV3P? || p.AmendV4P? ==> forall r :: r in s.rows ==> !PendingTransport(r, None))
    && (p.AmendV4P? ==> Total(s.rows, LOCAL_TRIAL) <= FINITE_BUDGET)
  }

  lemma {:induction false} LimitsTellStage(stage: Stage, scope: Payload)
    requires scope.ScopeP? && 0 < scope.budget <= FIRST_BUDGET
    ensures LimitsAt(stage, scope) == FEE_ONLY <==> stage == FeeOnly
    ensures LimitsAt(stage, scope) == UNCAPPED <==> stage == Uncapped
    ensures scope == ScopeP(TRIAL_ATTEMPTS, FIRST_BUDGET) ==>
              (LimitsAt(stage, scope) == Limits(Some(TRIAL_ATTEMPTS), Some(SECOND_BUDGET), true) <==> stage == Twenty)
  {
  }

  lemma {:induction false} FirstAccepted(s: State, scope: Payload, id: OpId, p: Payload)
    requires AuthorityInv(s) && p.AmendV1P? && Lookup(s.rows, id).None?
    requires ScopeIs(s.rows, scope) && ScopePayload(Lookup(s.rows, ScopeKey(LOCAL_TRIAL))) == Ok(scope) && scope.ScopeP?
    ensures AmendV1(s, id, p).Ok? <==> Admissible(s, scope, id, p)
  {
    FirstBudgetAt(s, scope);
    StageLimits(s.rows, scope);
    OriginalIsFirst(s);
    hide AuthorityInv, EffectiveBudget, StageOf, ScopePayload, TrustedId, TrustedReference, Amended, FenceStands, Total;
  }

  lemma {:induction false} OriginalIsFirst(s: State)
    requires AuthorityInv(s)
    ensures StageOf(s.rows) == Original <==> OfKind(s.rows, V1K) == []
  {
    assert Chain(ViewOf(s.rows));
    hide Sound, AmendmentsOk, Grounded;
  }

  lemma {:induction false} SecondAccepted(s: State, scope: Payload, id: OpId, p: Payload, limits: Limits)
    requires p.AmendV2P? && Lookup(s.rows, id).None? && scope.ScopeP? && 0 < scope.budget <= FIRST_BUDGET
    requires ScopePayload(Lookup(s.rows, ScopeKey(LOCAL_TRIAL))) == Ok(scope)
    requires TrialLimits(s, scope) == Ok(limits) && limits == LimitsAt(StageOf(s.rows), scope)
    ensures AmendV2(s, id, p).Ok? <==> Admissible(s, scope, id, p)
  {
    hide TrialLimits, StageOf, ScopePayload, TrustedId, TrustedReference, Amended, FenceStands, Total;
    LimitsTellStage(StageOf(s.rows), scope);
    hide LimitsAt;
  }

  lemma {:induction false} ThirdAccepted(s: State, scope: Payload, id: OpId, p: Payload, limits: Limits)
    requires p.AmendV3P? && Lookup(s.rows, id).None? && scope.ScopeP? && 0 < scope.budget <= FIRST_BUDGET
    requires ScopePayload(Lookup(s.rows, ScopeKey(LOCAL_TRIAL))) == Ok(scope)
    requires TrialLimits(s, scope) == Ok(limits) && limits == LimitsAt(StageOf(s.rows), scope)
    ensures AmendV3(s, id, p).Ok? <==> Admissible(s, scope, id, p)
  {
    hide TrialLimits, StageOf, ScopePayload, TrustedId, TrustedReference, Amended, FenceStands, Total;
    LimitsTellStage(StageOf(s.rows), scope);
    hide LimitsAt;
  }

  lemma {:induction false} FourthAccepted(s: State, scope: Payload, id: OpId, p: Payload, limits: Limits)
    requires p.AmendV4P? && Lookup(s.rows, id).None? && scope.ScopeP? && 0 < scope.budget <= FIRST_BUDGET
    requires ScopePayload(Lookup(s.rows, ScopeKey(LOCAL_TRIAL))) == Ok(scope)
    requires TrialLimits(s, scope) == Ok(limits) && limits == LimitsAt(StageOf(s.rows), scope)
    ensures AmendV4(s, id, p).Ok? <==> Admissible(s, scope, id, p)
  {
    hide TrialLimits, StageOf, ScopePayload, TrustedId, TrustedReference, Amended, FenceStands, Total;
    LimitsTellStage(StageOf(s.rows), scope);
    hide LimitsAt;
  }

  /** A fresh amendment is accepted if and only if the authority stands at the one stage it
      applies to and its own conditions hold: valid, trusted, no transport in flight, usage
      within the ceiling it sets. */
  lemma {:induction false} AmendmentAccepted(s: State, scope: Payload, id: OpId, p: Payload)
    requires BudgetInv(s) && IsAmendment(p) && Lookup(s.rows, id).None? && scope.ScopeP?
    requires ScopeIs(s.rows, scope) && scope.budget > 0
    ensures Amend(s, id, p).Ok? <==> Admissible(s, scope, id, p)
  {
    ScopeReads(s, scope);
    RecomputationRefines(s, scope);
    hide BudgetInv, Admissible, AmendV1, AmendV2, AmendV3, AmendV4, TrialLimits, LimitsAt, StageOf;
    var limits := LimitsAt(StageOf(s.rows), scope);
    if p.AmendV1P? {
      FirstAccepted(s, scope, id, p);
    } else if p.AmendV2P? {
      SecondAccepted(s, scope, id, p, limits);
    } else if p.AmendV3P? {
      ThirdAccepted(s, scope, id, p, limits);
    } else {
      FourthAccepted(s, scope, id, p, limits);
    }
  }

  lemma {:induction false} ScopeReads(s: State, scope: Payload)
    requires BudgetInv(s) && ScopeIs(s.rows, scope) && scope.ScopeP? && scope.budget > 0
    ensures AuthorityInv(s)
    ensures ScopePayload(Lookup(s.rows, ScopeKey(LOCAL_TRIAL))) == Ok(scope) && scope.budget <= FIRST_BUDGET
  {
    assert AmendmentOk(Lookup(s.rows, ScopeKey(LOCAL_TRIAL)).value);
  }

  /** On an opened scope a reservation is accepted if and only if the request can be priced,
      custody and grant hold, the identifier is fresh, and one attempt of that amount more
      fits the limits of the authority's stage. */
  lemma {:induction false} ReservationAccepted(s: State, scope: Payload, uuid: nat, req: Request, policy: Policy,
          now: real,
                            custody: bool, grant: Result<Grant>)
    requires BudgetInv(s) && ScopeIs(s.rows, scope) && scope.ScopeP? && scope.budget > 0
    ensures Reserve(s, uuid, LOCAL_TRIAL, req, policy, now, custody, grant).Ok? <==>
            && PolicyAttemptLimit(policy).Ok? && Quote(req, policy).Ok? && custody && grant.Ok?
            && Fits(Attempts(s.rows, LOCAL_TRIAL), Total(s.rows, LOCAL_TRIAL), Quote(req, policy).value,
                    PolicyAttemptLimit(policy).value, policy, LimitsAt(StageOf(s.rows), scope))
            && Lookup(s.rows, AttemptKey(uuid)).None?
  {
    ScopeReads(s, scope);
    RecomputationRefines(s, scope);
    hide BudgetInv, TrialLimits, ScopePayload, PolicyAttemptLimit, Quote, Fits, Attempts, Total, LimitsAt, StageOf,
         PermitDeadline, AttemptPayload;
  }
}
