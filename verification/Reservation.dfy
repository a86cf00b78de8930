/** Reservation of a worst-case price before a model call, and its settlement. */
module Reservation {
  import opened Outcome
  import opened Ledger
  import opened Authority
  import opened Pricing

  /** What a run's own budget adds to a reservation: a tag and an earlier deadline. */
  datatype Grant = Grant(tag: Option<SlotTag>, deadline: Option<real>)

  const NO_GRANT := Grant(None, None)

  datatype Permit = Permit(attempt: OpId, scopeId: string, reserved: int, deadline: real)

  function Least(a: int, b: int): int {
    if a < b then a else b
  }

  function PolicyAttemptLimit(p: Policy): Result<Option<int>> {
    if p.maxAttempts.None? then
      :- Need(!p.serverDaily && (|| (p.schemaVersion == 2 && p.budget == Some(SECOND_BUDGET))
                                 || (p.schemaVersion == 3 && p.budget == None)
                                 || (p.schemaVersion == 4 && p.budget == Some(FINITE_BUDGET))), Denied);
      Ok(None)
    else
      :- Need(p.maxAttempts.value > 0 && p.schemaVersion == 1, Denied);
      Ok(Some(Least(TRIAL_ATTEMPTS, p.maxAttempts.value)))
  }

  /** The worst-case price of a request under a policy. */
  function Quote(req: Request, policy: Policy): Result<int> {
    var _ :- PolicyAttemptLimit(policy);
    :- Need(0 < req.maxTokens <= policy.maxTokens, BadValue);
    ReservedAmount(policy.prices, policy.inputTokenBound, req.maxTokens)
  }

  function OpeningScope(policyAttempts: Option<int>, budget: Option<int>): Payload {
    ScopeP(if policyAttempts.None? then TRIAL_ATTEMPTS else policyAttempts.value,
           if budget.None? then FIRST_BUDGET else Least(FIRST_BUDGET, budget.value))
  }

  predicate WithinOption(x: int, bound: Option<int>) {
    bound.Some? ==> x <= bound.value
  }

  /** One attempt of `amount` more fits the policy, the effective limits and the standing ceiling. */
  predicate Fits(count: nat, used: int, amount: int, policyAttempts: Option<int>, policy: Policy, limits: Limits) {
    && WithinOption(count + 1, policyAttempts)
    && WithinOption(count + 1, limits.maxAttempts)
    && WithinOption(used + amount, policy.budget)
    && WithinOption(used + amount, limits.budget)
    && (policy.schemaVersion !in {3, 4} ==> used + amount <= SECOND_BUDGET)
  }

  function AttemptPayload(amount: int, deadline: real, req: Request, policy: Policy, tag: Option<SlotTag>): Payload {
    AttemptP(LOCAL_TRIAL, amount, deadline, policy.prices, policy.inputTokenBound, req.maxTokens, tag)
  }

  function PermitDeadline(now: real, policy: Policy, grant: Grant): real {
    var d := now + policy.timeout;
    if grant.deadline.Some? && grant.deadline.value < d then grant.deadline.value else d
  }

  /** The ledger with its scope, opened by the first reservation. */
  function Opened(s: State, policyAttempts: Option<int>, policy: Policy): State {
    if Lookup(s.rows, ScopeKey(LOCAL_TRIAL)).Some? then s
    else Insert(s, Row(ScopeKey(LOCAL_TRIAL), OpeningScope(policyAttempts, policy.budget), Pending, None), [])
  }

  function Reserve(s: State, uuid: nat, scopeId: string, req: Request, policy: Policy, now: real,
                   custody: bool, grant: Result<Grant>): Result<(State, Permit)>
  {
    var enabled := scopeId == LOCAL_TRIAL;
    :- Need(enabled, Denied);
    var policyAttempts :- PolicyAttemptLimit(policy);
    var amount :- Quote(req, policy);
    :- Need(custody, Denied);
    var g :- grant;
    var deadline := PermitDeadline(now, policy, g);
    var key := AttemptKey(uuid);
    var s1 := Opened(s, policyAttempts, policy);
    var row := Lookup(s.rows, ScopeKey(LOCAL_TRIAL));
    var scope :- if row.None? then Ok(OpeningScope(policyAttempts, policy.budget)) else ScopePayload(row);
    var limits :- TrialLimits(s1, scope);
    :- Need(Fits(Attempts(s.rows, scopeId), Total(s.rows, scopeId), amount, policyAttempts, policy, limits), Denied);
    :- Need(Lookup(s1.rows, key).None?, Error.Blocked);
    Ok((Insert(s1, Row(key, AttemptPayload(amount, deadline, req, policy, g.tag), Pending, None),
               [Note("model-reserved", key)]),
        Permit(key, scopeId, amount, deadline)))
  }

  function ProviderId(usage: Usage): Option<string> {
    if usage.NoUsage? || usage.providerId.None? then None
    else Some(if |usage.providerId.value| > 256 then usage.providerId.value[..256] else usage.providerId.value)
  }

  /** The receipt settlement writes for an attempt. */
  function Receipted(p: Payload, usage: Usage): Result<(Status, Evidence)>
    requires p.AttemptP?
  {
    var charge :- KnownCharge(usage, p.prices, p.inputBound, p.maxTokens);
    var known := charge.Some? && charge.value <= p.reserved;
    Ok((if known then Done else Uncertain,
        AttemptE(if known then charge.value else p.reserved, known, ProviderId(usage))))
  }

  function Settle(s: State, permit: Permit, usage: Usage): Result<State> {
    var row := Lookup(s.rows, permit.attempt);
    :- Need(row.Some? && row.value.payload.AttemptP?, Error.Conflict);
    var p := row.value.payload;
    :- Need(p.scopeId == permit.scopeId && p.reserved == permit.reserved && p.deadline == permit.deadline, Error.Conflict);
    if row.value.status != Pending then Ok(s)
    else
      var r :- Receipted(p, usage);
      Ok(Finish(s, permit.attempt, r.0, r.1))
  }
}
