/** Whole-run limits on the canonical attempts of an analysis run: an immutable binding,
    and the authorisation of one attempt per claimed slot. */
module AnalysisBudget {
  import opened Outcome
  import opened Ledger
  import opened Authority
  import opened Reservation
  import opened AnalysisRun

  function IdentityRow(): Row -> bool {
    (r: Row) => r.id == ScopeKey(LOCAL_TRIAL)
                || r.payload.AmendV1P? || r.payload.AmendV2P? || r.payload.AmendV3P? || r.payload.AmendV4P?
  }

  /** The scope and amendment rows a binding freezes; they stand for their digest. */
  function ScopeIdentity(s: State): Result<seq<Row>> {
    var original :- ScopePayload(Lookup(s.rows, ScopeKey(LOCAL_TRIAL)));
    :- Need(original == ScopeP(TRIAL_ATTEMPTS, FIRST_BUDGET), Denied);
    var limits :- TrialLimits(s, original);
    :- Need(limits in {FEE_ONLY, UNCAPPED, FINITE}, Denied);
    Ok(Filter(s.rows, IdentityRow()))
  }

  function Binding(rows: seq<Row>, run: string): Result<Option<Payload>> {
    match Lookup(rows, BudgetKey(run))
    case None => Ok(None)
    case Some(r) =>
      :- Need(r.payload.BudgetP? && r.status == Pending && r.evidence == None, Denied);
      Ok(Some(r.payload))
  }

  predicate IsUncapped(policy: Policy) {
    policy.schemaVersion == 3 && policy.budget == None
  }

  predicate BindablePolicy(policy: Policy) {
    && policy.maxAttempts == None && !policy.serverDaily
    && (|| IsUncapped(policy)
        || (policy.schemaVersion == 2 && policy.budget == Some(SECOND_BUDGET))
        || (policy.schemaVersion == 4 && policy.budget == Some(FINITE_BUDGET)))
  }

  predicate NoneRun(states: seq<SlotState>) {
    forall st :: st in states ==> st == NotRun
  }

  /** Freezing of explicit limits, given the states, the scope and the limits the transaction read. */
  function BindWith(s: State, h: Handle, policy: Policy, cap: Option<int>, deadline: real, now: real,
                    read: Result<seq<SlotState>>, scopeIdentity: Result<seq<Row>>, present: Result<Limits>): Result<State>
  {
    var capped := if cap.None? then IsUncapped(policy) else 0 < cap.value <= SECOND_BUDGET;
    :- Need(capped, Denied);
    :- Need(BindablePolicy(policy), Denied);
    var states :- read;
    var scope :- scopeIdentity;
    var limits :- present;
    :- Need(IsUncapped(policy) ==> limits.budget.None?, Denied);
    var payload := BudgetP(h, cap, deadline, policy, scope);
    var existing :- Binding(s.rows, h.runId);
    if existing.Some? then
      :- Need(existing.value == payload, Error.Conflict);
      Ok(s)
    else
      :- Need(deadline > now, Denied);
      :- Need(NoneRun(states), Error.Conflict);
      Register(s, Row(BudgetKey(h.runId), payload, Pending, None))
  }

  /** Freeze explicit limits before any slot is admitted; never reset, never extended. */
  function BindRun(s: State, h: Handle, policy: Policy, cap: Option<int>, deadline: real, now: real): Result<State> {
    BindWith(s, h, policy, cap, deadline, now, CheckRun(s.rows, h), ScopeIdentity(s), EffectiveLimits(s))
  }

  function TaggedWith(run: string): Row -> bool {
    (r: Row) => r.payload.AttemptP? && r.payload.tag.Some? && r.payload.tag.value.run == run
  }

  /** What the run's attempts hold together. */
  function HeldByRun(run: string): Row -> int {
    (r: Row) => if TaggedWith(run)(r) then HeldBy(r) else 0
  }

  predicate KnownAttempt(r: Row) {
    r.status == Done && r.evidence.Some? && r.evidence.value.AttemptE? && r.evidence.value.usageKnown
  }

  predicate Elsewhere(r: Row, i: nat)
    requires r.payload.AttemptP? && r.payload.tag.Some?
  {
    r.payload.tag.value.index != i
  }

  /** The frozen policy, possibly with a shorter timeout. */
  predicate SamePolicy(policy: Policy, frozen: Policy) {
    0.0 < policy.timeout <= frozen.timeout && policy.(timeout := frozen.timeout) == frozen
  }

  predicate MayReserve(states: seq<SlotState>, i: nat)
    requires i < |states|
  {
    states[i] == Unresolved && Preceding(states, i)
  }

  /** Authorisation, given the states and the scope identity the transaction read. */
  function AuthorizeWith(rows: seq<Row>, h: Handle, i: nat, captured: Option<Payload>, body: Request, policy: Policy,
                         amount: int, now: real, read: Result<seq<SlotState>>, scopeIdentity: Result<seq<Row>>): Result<Grant>
    requires i < SLOT_COUNT && (read.Ok? ==> |read.value| == SLOT_COUNT)
  {
    var binding :- Binding(rows, h.runId);
    :- Need(binding == captured, Denied);
    if binding.None? then Ok(NO_GRANT)
    else
      var b := binding.value;
      var scope :- scopeIdentity;
      :- Need(b.BudgetP? && b.identity == h && b.scope == scope, Denied);
      :- Need(SamePolicy(policy, b.policy), Denied);
      var states :- read;
      :- Need(MayReserve(states, i), Denied);
      :- Need(MatchesSlot(body, h.slots[i]), Denied);
      :- Need(forall r :: r in rows && TaggedWith(h.runId)(r) ==> Elsewhere(r, i) && KnownAttempt(r), Denied);
      :- Need(WithinOption(Sum(rows, HeldByRun(h.runId)) + amount, b.cap), Denied);
      :- Need(now < b.runDeadline, Denied);
      Ok(Grant(Some(SlotTag(h.runId, i)), Some(b.runDeadline)))
  }

  /** Authorisation of the one attempt of slot `i`, inside the reserving transaction.
      `captured` is the binding the slot's handler saw when it was built. */
  function Authorize(s: State, h: Handle, i: nat, captured: Option<Payload>, body: Request, policy: Policy,
                     amount: int, now: real): Result<Grant>
    requires i < SLOT_COUNT
  {
    AuthorizeWith(s.rows, h, i, captured, body, policy, amount, now, CheckRun(s.rows, h), ScopeIdentity(s))
  }

  /** Reservation by a slot's handler. */
  function ReserveForSlot(s: State, uuid: nat, h: Handle, i: nat, captured: Option<Payload>, req: Request,
                          policy: Policy, now: real, lockedNow: real, custody: bool): Result<(State, Permit)>
    requires i < SLOT_COUNT
  {
    var amount :- Quote(req, policy);
    Reserve(s, uuid, LOCAL_TRIAL, req, policy, now, custody,
            Authorize(s, h, i, captured, req, policy, amount, lockedNow))
  }
}
