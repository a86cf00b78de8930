/** What the transactions of an analysis run decide and write, said in the statuses and fields of
    the ledger's rows alone. */
module RunDecisions {
  import opened Outcome
  import opened Ledger
  import opened Authority
  import opened Pricing
  import opened Reservation
  import opened BudgetSafety
  import opened BudgetSteps
  import opened AnalysisRun
  import opened AnalysisBudget
  import opened RunSafety
  import opened RunSteps

  // ---- Reading a run ----

  ghost function SlotRow(rows: seq<Row>, run: string, i: nat): Option<Row> {
    Lookup(rows, SlotKey(run, i))
  }

  ghost predicate HasClaim(rows: seq<Row>, run: string, i: nat) {
    Lookup(rows, ClaimKey(run, i)).Some?
  }

  /** Slot `i` is registered with the handle's requests, and so is its claim if there is one. */
  ghost predicate SlotStands(rows: seq<Row>, h: Handle, i: nat) {
    var slot, claim := Lookup(rows, SlotKey(h.runId, i)), Lookup(rows, ClaimKey(h.runId, i));
    && slot.Some? && slot.value.payload == SlotP(h.runId, i, h.slots)
    && (claim.Some? ==> claim.value.payload == ClaimP(h.runId, i, h.slots))
  }

  /** The run and all its slots are on the ledger as the handle has them. */
  ghost predicate RunStands(rows: seq<Row>, h: Handle) {
    && Lookup(rows, RunKey(h.runId)) == Some(Row(RunKey(h.runId), RunP(h), Pending, None))
    && forall i: nat :: i < 30 ==> SlotStands(rows, h, i)
  }

  /** The state a slot's status and claim amount to. */
  ghost predicate ReadsAs(rows: seq<Row>, run: string, i: nat, st: SlotState)
    requires Lookup(rows, SlotKey(run, i)).Some?
  {
    var status := Lookup(rows, SlotKey(run, i)).value.status;
    match st
    case NotRun => !HasClaim(rows, run, i) && status == Pending
    case Unresolved => HasClaim(rows, run, i) && (status == Pending || status == Uncertain)
    case SlotDone => HasClaim(rows, run, i) && status == Done
    case SlotFailed => HasClaim(rows, run, i) && status == Failed
    case SlotBlocked => HasClaim(rows, run, i) && status == Status.Blocked
  }

  lemma {:induction false} ShapesOf(s: State, id: OpId)
    requires LedgerInv(s) && Lookup(s.rows, id).Some?
    ensures var r := Lookup(s.rows, id).value;
            && Keyed(r) && (r.status == Pending <==> r.evidence == None)
            && (r.payload.SlotP? && r.status != Pending ==> Claimed(s.rows, r.payload.run, r.payload.index))
  {
    hide Chain, AmendmentsOk, Grounded, AttemptsOk, Within, Ordered, AttemptsClaimed, Accounted, TokensMatch, Mirror, UniqueIds, Keyed, Claimed;
  }

  lemma {:induction false} SlotReads(s: State, h: Handle, i: nat)
    requires LedgerInv(s) && i < SLOT_COUNT
    ensures StateAt(s.rows, h, i).Ok? <==> SlotStands(s.rows, h, i)
    ensures SlotStands(s.rows, h, i) ==> ReadsAs(s.rows, h.runId, i, StateAt(s.rows, h, i).value)
  {
    hide LedgerInv;
    if Lookup(s.rows, SlotKey(h.runId, i)).Some? {
      ShapesOf(s, SlotKey(h.runId, i));
    }
    if Lookup(s.rows, ClaimKey(h.runId, i)).Some? {
      ShapesOf(s, ClaimKey(h.runId, i));
    }
  }

  lemma {:induction false} StatesDefined(rows: seq<Row>, h: Handle, i: nat)
    requires i <= SLOT_COUNT
    ensures StatesFrom(rows, h, i).Ok? <==> forall k: nat :: i <= k < SLOT_COUNT ==> StateAt(rows, h, k).Ok?
    decreases SLOT_COUNT - i
  {
    if i < SLOT_COUNT {
      StatesDefined(rows, h, i + 1);
    }
    hide StateAt;
  }

  /** A run reads exactly when it stands as the handle has it, and each of its thirty states is
      what the slot's status and its claim amount to. */
  lemma {:induction false} RunReads(s: State, h: Handle)
    requires LedgerInv(s)
    ensures CheckRun(s.rows, h).Ok? <==> RunStands(s.rows, h)
    ensures CheckRun(s.rows, h).Ok? ==>
              forall i: nat :: i < 30 ==> SlotStands(s.rows, h, i) && ReadsAs(s.rows, h.runId, i, CheckRun(s.rows, h).value[i])
  {
    hide LedgerInv, StateAt, ReadsAs, StatesFrom, HasClaim;
    StatesDefined(s.rows, h, 0);
    forall i: nat | i < SLOT_COUNT
      ensures StateAt(s.rows, h, i).Ok? <==> SlotStands(s.rows, h, i)
      ensures SlotStands(s.rows, h, i) ==> ReadsAs(s.rows, h.runId, i, StateAt(s.rows, h, i).value)
    {
      SlotReads(s, h, i);
    }
    hide SlotStands;
    var run := Lookup(s.rows, RunKey(h.runId));
    if run.Some? {
      RunRow(run.value, h);
    }
    if CheckRun(s.rows, h).Ok? {
      forall i: nat | i < 30 ensures SlotStands(s.rows, h, i) && StateAt(s.rows, h, i) == Ok(CheckRun(s.rows, h).value[i]) {
      }
    }
  }

  lemma {:induction false} RunRow(row: Row, h: Handle)
    requires row.id == RunKey(h.runId)
    ensures row == Row(RunKey(h.runId), RunP(h), Pending, None) <==> row.payload == RunP(h) && row.status == Pending && row.evidence == None
  {
  }

  /** The slot's outcome lets the next one run. */
  ghost predicate Passed(rows: seq<Row>, run: string, i: nat) {
    var slot := Lookup(rows, SlotKey(run, i));
    slot.Some? && (slot.value.status == Done || slot.value.status == Failed)
  }

  lemma {:induction false} StateTells(rows: seq<Row>, run: string, i: nat, st: SlotState)
    requires Lookup(rows, SlotKey(run, i)).Some? && ReadsAs(rows, run, i, st)
    ensures st == NotRun <==> !HasClaim(rows, run, i)
    ensures Resolved(st) <==> Passed(rows, run, i)
    ensures st == Unresolved <==> HasClaim(rows, run, i) && Lookup(rows, SlotKey(run, i)).value.status in {Pending, Uncertain}
  {
  }

  /** All thirty states at once. */
  lemma {:induction false} StatesTell(s: State, h: Handle, states: seq<SlotState>)
    requires LedgerInv(s) && CheckRun(s.rows, h) == Ok(states)
    ensures |states| == 30
    ensures forall i: nat :: i < 30 ==>
              && Lookup(s.rows, SlotKey(h.runId, i)).Some?
              && (states[i] == NotRun <==> !HasClaim(s.rows, h.runId, i))
              && (Resolved(states[i]) <==> Passed(s.rows, h.runId, i))
              && (states[i] == Unresolved <==>
                    HasClaim(s.rows, h.runId, i) && Lookup(s.rows, SlotKey(h.runId, i)).value.status in {Pending, Uncertain})
  {
    hide LedgerInv, ReadsAs, HasClaim, Passed, Resolved, StatesFrom, StateAt;
    RunReads(s, h);
    forall i: nat | i < 30
      ensures Lookup(s.rows, SlotKey(h.runId, i)).Some?
      ensures states[i] == NotRun <==> !HasClaim(s.rows, h.runId, i)
      ensures Resolved(states[i]) <==> Passed(s.rows, h.runId, i)
      ensures states[i] == Unresolved <==>
                HasClaim(s.rows, h.runId, i) && Lookup(s.rows, SlotKey(h.runId, i)).value.status in {Pending, Uncertain}
    {
      assert SlotStands(s.rows, h, i);
      StateTells(s.rows, h.runId, i, states[i]);
    }
  }

  // ---- Claims and outcomes ----

  /** A claim is accepted if and only if the run stands, the slot has no claim, all earlier ones
      are done or failed, and the body is the slot's frozen request, of at most 64 KiB; it adds
      the claim row, done, with its two events. */
  lemma {:induction false} ClaimDecides(s: State, h: Handle, i: nat, body: Request)
    requires LedgerInv(s) && i < SLOT_COUNT
    ensures Claim(s, h, i, body).Ok? <==>
            && RunStands(s.rows, h) && !HasClaim(s.rows, h.runId, i)
            && (forall j: nat :: j < i ==> Passed(s.rows, h.runId, j))
            && body == h.slots[i] && body.encodedBytes <= 65536
    ensures Claim(s, h, i, body).Ok? ==>
              var t := Claim(s, h, i, body).value;
              var id, p := ClaimKey(h.runId, i), ClaimP(h.runId, i, h.slots);
              t == State(s.rows + [Row(id, p, Done, Some(AdmittedE))], s.events + [Intent(id, p), Receipt(id, Done, AdmittedE)])
  {
    hide LedgerInv, CheckRun, RunStands, Passed, Resolved;
    RunReads(s, h);
    if CheckRun(s.rows, h).Ok? {
      StatesTell(s, h, CheckRun(s.rows, h).value);
      ClaimSteps(s, h, i, body, CheckRun(s.rows, h).value);
    }
  }

  lemma {:induction false} ClaimSteps(s: State, h: Handle, i: nat, body: Request, states: seq<SlotState>)
    requires i < SLOT_COUNT == |states|
    ensures ClaimWith(s, h, i, body, Ok(states)).Ok? <==>
            && states[i] == NotRun && (forall j: nat :: j < i ==> Resolved(states[j]))
            && body == h.slots[i] && body.encodedBytes <= 65536 && !HasClaim(s.rows, h.runId, i)
    ensures ClaimWith(s, h, i, body, Ok(states)).Ok? ==>
              var id, p := ClaimKey(h.runId, i), ClaimP(h.runId, i, h.slots);
              ClaimWith(s, h, i, body, Ok(states)).value ==
              State(s.rows + [Row(id, p, Done, Some(AdmittedE))], s.events + [Intent(id, p), Receipt(id, Done, AdmittedE)])
  {
  }

  /** An outcome is accepted if and only if it is terminal, the run stands, the slot is claimed,
      and its outcome is either this one already or not yet written while the last checks pass.
      It changes the slot's row alone, and only the first time. */
  lemma {:induction false} OutcomeDecides(s: State, h: Handle, i: nat, status: Status, checked: bool)
    requires LedgerInv(s) && i < SLOT_COUNT
    ensures FinishSlot(s, h, i, status, checked).Ok? <==>
            && status != Pending && RunStands(s.rows, h) && HasClaim(s.rows, h.runId, i)
            && var slot := Lookup(s.rows, SlotKey(h.runId, i));
               slot.Some? && if slot.value.status == Pending then checked else slot.value.status == status
    ensures FinishSlot(s, h, i, status, checked).Ok? ==>
              var t := FinishSlot(s, h, i, status, checked).value;
              var slot := Lookup(s.rows, SlotKey(h.runId, i)).value;
              if slot.status != Pending then t == s
              else && Lookup(t.rows, slot.id) == Some(Row(slot.id, slot.payload, status, Some(HostStatusE(status))))
                   && (forall id :: id != slot.id ==> Lookup(t.rows, id) == Lookup(s.rows, id))
                   && t.events == s.events + [Receipt(slot.id, status, HostStatusE(status))]
  {
    hide LedgerInv, CheckRun, RunStands, Passed, Resolved, FinishRows, HasClaim;
    RunReads(s, h);
    if CheckRun(s.rows, h).Ok? {
      StatesTell(s, h, CheckRun(s.rows, h).value);
      forall id ensures Lookup(FinishRows(s.rows, SlotKey(h.runId, i), status, HostStatusE(status)), id) ==
                        match Lookup(s.rows, id)
                        case None => None
                        case Some(r) => Some(if id == SlotKey(h.runId, i) then r.(status := status, evidence := Some(HostStatusE(status))) else r)
      {
        LookupFinish(s.rows, SlotKey(h.runId, i), status, HostStatusE(status), id);
      }
    }
  }

  // ---- The run's budget ----

  /** The rows a binding freezes: the scope and every amendment, in their order. */
  ghost predicate FrozenRows(rows: seq<Row>, frozen: seq<Row>) {
    frozen == Filter(rows, (r: Row) => r.id == ScopeKey("local-trial-1") || IsAmendment(r.payload))
  }

  /** The scope is the original one, and its authority stands at least at the fee-only stage. */
  ghost predicate Bindable(s: State) {
    && Lookup(s.rows, ScopeKey("local-trial-1")).Some?
    && Lookup(s.rows, ScopeKey("local-trial-1")).value.payload == ScopeP(100, 10_000_000)
    && (StageOf(s.rows) == FeeOnly || StageOf(s.rows) == Uncapped || StageOf(s.rows) == Finite)
  }

  lemma {:induction false} FilterSame(rows: seq<Row>, p: Row -> bool, q: Row -> bool)
    requires forall r <- rows :: p(r) <==> q(r)
    ensures Filter(rows, p) == Filter(rows, q)
  {
    if rows != [] {
      var init, last := rows[..|rows| - 1], rows[|rows| - 1];
      assert rows == init + [last];
      FilterSame(init, p, q);
    }
  }

  lemma {:induction false} IdentityRows(rows: seq<Row>)
    ensures FrozenRows(rows, Filter(rows, IdentityRow()))
  {
    FilterSame(rows, IdentityRow(), (r: Row) => r.id == ScopeKey("local-trial-1") || IsAmendment(r.payload));
  }

  lemma {:induction false} IdentityDecides(s: State)
    requires BudgetInv(s)
    ensures ScopeIdentity(s).Ok? <==> Bindable(s)
    ensures ScopeIdentity(s).Ok? ==> FrozenRows(s.rows, ScopeIdentity(s).value)
    ensures Bindable(s) ==> EffectiveLimits(s) == Ok(LimitsAt(StageOf(s.rows), ScopeP(100, 10_000_000)))
  {
    hide BudgetInv, TrialLimits, StageOf, IsAmendment;
    var row := Lookup(s.rows, ScopeKey(LOCAL_TRIAL));
    if row.Some? && row.value.payload == ScopeP(TRIAL_ATTEMPTS, FIRST_BUDGET) {
      ScopeReads(s, row.value.payload);
      RecomputationRefines(s, row.value.payload);
    }
    IdentityRows(s.rows);
  }

  /** The row is an attempt of a slot of the run. */
  ghost predicate OfRun(r: Row, run: string) {
    r.payload.AttemptP? && r.payload.tag.Some? && r.payload.tag.value.run == run
  }

  /** What the run's attempts are charged, or hold while they are not. */
  ghost function ChargedTo(rows: seq<Row>, run: string): int {
    if rows == [] then 0
    else
      var last := rows[|rows| - 1];
      ChargedTo(rows[..|rows| - 1], run) +
      if !OfRun(last, run) then 0
      else if last.evidence.Some? && last.evidence.value.AttemptE? then last.evidence.value.charged
      else last.payload.reserved
  }

  lemma {:induction false} RunCharge(rows: seq<Row>, run: string)
    ensures Sum(rows, HeldByRun(run)) == ChargedTo(rows, run)
  {
    if rows != [] {
      RunCharge(rows[..|rows| - 1], run);
      var last := rows[|rows| - 1];
      assert TaggedWith(run)(last) <==> OfRun(last, run);
      assert OfRun(last, run) ==> HeldByRun(run)(last) == HeldBy(last);
    }
  }

  /** The policy is the frozen one, but for a timeout that may be shorter. */
  ghost predicate Unchanged(policy: Policy, frozen: Policy) {
    && 0.0 < policy.timeout <= frozen.timeout
    && policy.schemaVersion == frozen.schemaVersion && policy.serverDaily == frozen.serverDaily
    && policy.maxAttempts == frozen.maxAttempts && policy.budget == frozen.budget
    && policy.inputTokenBound == frozen.inputTokenBound && policy.maxTokens == frozen.maxTokens
    && policy.prices == frozen.prices && policy.rest == frozen.rest
  }

  /** What a bound run asks of the one attempt of slot `i`. */
  ghost predicate Authorisable(s: State, h: Handle, i: nat, b: Payload, body: Request, policy: Policy, amount: int, now: real)
    requires i < SLOT_COUNT && b.BudgetP?
  {
    && b.identity == h && Bindable(s) && FrozenRows(s.rows, b.scope)
    && Unchanged(policy, b.policy)
    && RunStands(s.rows, h) && HasClaim(s.rows, h.runId, i)
    && Lookup(s.rows, SlotKey(h.runId, i)).Some? && Lookup(s.rows, SlotKey(h.runId, i)).value.status in {Pending, Uncertain}
    && (forall j: nat :: j < i ==> Passed(s.rows, h.runId, j))
    && body == h.slots[i] && body.encodedBytes <= 65536
    && (forall r <- s.rows :: OfRun(r, h.runId) ==>
          && r.payload.tag.value.index != i && r.status == Done
          && r.evidence.Some? && r.evidence.value.AttemptE? && r.evidence.value.usageKnown)
    && (b.cap.Some? ==> ChargedTo(s.rows, h.runId) + amount <= b.cap.value)
    && now < b.runDeadline
  }

  /** The answer to a slot's handler. On a bound run it is a grant if and only if the handler saw
      this binding and everything it freezes still holds; the grant names the slot and the run's
      deadline. On an unbound run it is one if and only if the handler saw no binding, and adds
      nothing. */
  ghost predicate Authorization(s: State, h: Handle, i: nat, captured: Option<Payload>, body: Request, policy: Policy, amount: int,
                                now: real, r: Result<Grant>)
    requires i < SLOT_COUNT
  {
    var row := Lookup(s.rows, BudgetKey(h.runId));
    if row.None? then (r.Ok? <==> captured == None) && (r.Ok? ==> r.value == Grant(None, None))
    else
      && (r.Ok? <==>
            && row.value.payload.BudgetP? && captured == Some(row.value.payload)
            && Authorisable(s, h, i, row.value.payload, body, policy, amount, now))
      && (r.Ok? ==> r.value == Grant(Some(SlotTag(h.runId, i)), Some(row.value.payload.runDeadline)))
  }

  lemma {:induction false} AuthorizationDecides(s: State, h: Handle, i: nat, captured: Option<Payload>, body: Request,
          policy: Policy, amount: int, now: real)
    requires LedgerInv(s) && i < SLOT_COUNT
    ensures Authorization(s, h, i, captured, body, policy, amount, now, Authorize(s, h, i, captured, body, policy, amount, now))
  {
    hide LedgerInv, CheckRun, RunStands, Passed, Resolved, HasClaim, Bindable, ScopeIdentity, FrozenRows;
    var row := Lookup(s.rows, BudgetKey(h.runId));
    if row.Some? {
      ShapesOf(s, BudgetKey(h.runId));
      BindingRead(s, h.runId);
      if row.value.payload.BudgetP? && captured == Some(row.value.payload) {
        BudgetPart(s);
        IdentityDecides(s);
        RunReads(s, h);
        RunCharge(s.rows, h.runId);
        AuthorizeBound(s, h, i, row.value.payload, body, policy, amount, now);
      }
    }
  }

  lemma {:induction false} BudgetPart(s: State)
    requires LedgerInv(s)
    ensures BudgetInv(s)
  {
  }

  lemma {:induction false} BindingRead(s: State, run: string)
    requires Lookup(s.rows, BudgetKey(run)).Some?
    requires var r := Lookup(s.rows, BudgetKey(run)).value; Keyed(r) && (r.status == Pending <==> r.evidence == None)
    ensures var r := Lookup(s.rows, BudgetKey(run)).value;
            Binding(s.rows, run) == if r.payload.BudgetP? then Ok(Some(r.payload)) else Err(Denied)
  {
  }

  lemma {:induction false} AuthorizeBound(s: State, h: Handle, i: nat, b: Payload, body: Request, policy: Policy, amount: int,
          now: real)
    requires LedgerInv(s) && i < SLOT_COUNT && b.BudgetP? && Binding(s.rows, h.runId) == Ok(Some(b))
    requires ScopeIdentity(s).Ok? <==> Bindable(s)
    requires ScopeIdentity(s).Ok? ==> FrozenRows(s.rows, ScopeIdentity(s).value)
    requires CheckRun(s.rows, h).Ok? <==> RunStands(s.rows, h)
    requires Sum(s.rows, HeldByRun(h.runId)) == ChargedTo(s.rows, h.runId)
    ensures Authorize(s, h, i, Some(b), body, policy, amount, now).Ok? <==> Authorisable(s, h, i, b, body, policy, amount, now)
    ensures Authorize(s, h, i, Some(b), body, policy, amount, now).Ok? ==>
              Authorize(s, h, i, Some(b), body, policy, amount, now).value == Grant(Some(SlotTag(h.runId, i)), Some(b.runDeadline))
  {
    hide LedgerInv, CheckRun, RunStands, Passed, Resolved, HasClaim, Bindable, ScopeIdentity, ChargedTo, Binding;
    if CheckRun(s.rows, h).Ok? {
      StatesTell(s, h, CheckRun(s.rows, h).value);
    }
  }

  /** A cap and a policy a run may be bound to. */
  ghost predicate Capped(policy: Policy, cap: Option<int>) {
    && policy.maxAttempts == None && !policy.serverDaily
    && (|| (policy.schemaVersion == 3 && policy.budget == None)
        || (policy.schemaVersion == 2 && policy.budget == Some(20_000_000))
        || (policy.schemaVersion == 4 && policy.budget == Some(50_000_000)))
    && (if cap.Some? then 0 < cap.value <= 20_000_000 else policy.schemaVersion == 3 && policy.budget == None)
  }

  ghost predicate Freezable(s: State, h: Handle, policy: Policy, cap: Option<int>, deadline: real, now: real) {
    var row := Lookup(s.rows, BudgetKey(h.runId));
    && Capped(policy, cap) && RunStands(s.rows, h) && Bindable(s)
    && (policy.schemaVersion == 3 ==> StageOf(s.rows) == Uncapped)
    && (if row.Some? then
          && row.value.payload.BudgetP? && row.value.payload.identity == h && row.value.payload.cap == cap
          && row.value.payload.runDeadline == deadline && row.value.payload.policy == policy
          && FrozenRows(s.rows, row.value.payload.scope)
        else now < deadline && forall i: nat :: i < 30 ==> !HasClaim(s.rows, h.runId, i))
  }

  ghost predicate FrozenAs(s: State, t: State, h: Handle, policy: Policy, cap: Option<int>, deadline: real) {
    if Lookup(s.rows, BudgetKey(h.runId)).Some? then t == s
    else exists frozen :: FrozenRows(s.rows, frozen) &&
           var id, p := BudgetKey(h.runId), BudgetP(h, cap, deadline, policy, frozen);
           t == State(s.rows + [Row(id, p, Pending, None)], s.events + [Intent(id, p)])
  }

  /** Limits are frozen if and only if they are such a cap and policy on a bindable scope, a
      policy without budget only while the authority has none, and on a run that stands: again,
      if they are the very limits frozen before, or for the first time, before the deadline and
      before any claim. Only the first time changes anything, by the one row. */
  lemma {:induction false} BindingDecides(s: State, h: Handle, policy: Policy, cap: Option<int>, deadline: real, now: real)
    requires LedgerInv(s)
    ensures BindRun(s, h, policy, cap, deadline, now).Ok? <==> Freezable(s, h, policy, cap, deadline, now)
    ensures BindRun(s, h, policy, cap, deadline, now).Ok? ==>
              FrozenAs(s, BindRun(s, h, policy, cap, deadline, now).value, h, policy, cap, deadline)
  {
    hide LedgerInv, CheckRun, RunStands, HasClaim, Bindable, ScopeIdentity, FrozenRows, EffectiveLimits, StageOf, Capped, BindRun;
    BudgetPart(s);
    IdentityDecides(s);
    RunReads(s, h);
    if Lookup(s.rows, BudgetKey(h.runId)).Some? {
      ShapesOf(s, BudgetKey(h.runId));
      BindingRead(s, h.runId);
    }
    if CheckRun(s.rows, h).Ok? {
      StatesTell(s, h, CheckRun(s.rows, h).value);
      NoneClaimed(s.rows, h, CheckRun(s.rows, h).value);
    }
    BindSteps(s, h, policy, cap, deadline, now);
  }

  lemma {:induction false} NoneClaimed(rows: seq<Row>, h: Handle, states: seq<SlotState>)
    requires |states| == 30 && forall i: nat :: i < 30 ==> (states[i] == NotRun <==> !HasClaim(rows, h.runId, i))
    ensures NoneRun(states) <==> forall i: nat :: i < 30 ==> !HasClaim(rows, h.runId, i)
  {
    hide HasClaim;
    if NoneRun(states) {
      forall i: nat | i < 30 ensures !HasClaim(rows, h.runId, i) {
        assert states[i] in states;
      }
    }
  }

  lemma {:induction false} CappedIs(policy: Policy, cap: Option<int>)
    ensures Capped(policy, cap) <==> BindablePolicy(policy) && if cap.None? then IsUncapped(policy) else 0 < cap.value <= SECOND_BUDGET
    ensures Capped(policy, cap) ==> (IsUncapped(policy) <==> policy.schemaVersion == 3)
  {
  }

  lemma {:induction false} FrozenOnce(rows: seq<Row>, a: seq<Row>, b: seq<Row>)
    requires FrozenRows(rows, a)
    ensures FrozenRows(rows, b) <==> a == b
  {
  }

  lemma {:induction false} BindSteps(s: State, h: Handle, policy: Policy, cap: Option<int>, deadline: real, now: real)
    requires ScopeIdentity(s).Ok? <==> Bindable(s)
    requires ScopeIdentity(s).Ok? ==> FrozenRows(s.rows, ScopeIdentity(s).value)
    requires Bindable(s) ==> EffectiveLimits(s) == Ok(LimitsAt(StageOf(s.rows), ScopeP(100, 10_000_000)))
    requires CheckRun(s.rows, h).Ok? <==> RunStands(s.rows, h)
    requires CheckRun(s.rows, h).Ok? ==> (NoneRun(CheckRun(s.rows, h).value) <==> forall i: nat :: i < 30 ==> !HasClaim(s.rows, h.runId, i))
    requires Lookup(s.rows, BudgetKey(h.runId)).Some? ==>
               var p := Lookup(s.rows, BudgetKey(h.runId)).value.payload;
               Binding(s.rows, h.runId) == if p.BudgetP? then Ok(Some(p)) else Err(Denied)
    ensures BindRun(s, h, policy, cap, deadline, now).Ok? <==> Freezable(s, h, policy, cap, deadline, now)
    ensures BindRun(s, h, policy, cap, deadline, now).Ok? ==>
              FrozenAs(s, BindRun(s, h, policy, cap, deadline, now).value, h, policy, cap, deadline)
  {
    hide CheckRun, RunStands, HasClaim, Bindable, ScopeIdentity, FrozenRows, EffectiveLimits, StageOf, Capped, NoneRun, BindablePolicy, IsUncapped;
    CappedIs(policy, cap);
    var row := Lookup(s.rows, BudgetKey(h.runId));
    if ScopeIdentity(s).Ok? && row.Some? && row.value.payload.BudgetP? {
      FrozenOnce(s.rows, ScopeIdentity(s).value, row.value.payload.scope);
    }
  }

  // ---- Registration and tokens ----

  function SlotsOf(h: Handle): (r: seq<Row>)
    ensures |r| == 30 && forall i: nat :: i < 30 ==> r[i] == Row(SlotKey(h.runId, i), SlotP(h.runId, i, h.slots), Pending, None)
  {
    seq(30, i requires 0 <= i < 30 => Row(SlotKey(h.runId, i), SlotP(h.runId, i, h.slots), Pending, None))
  }

  lemma {:induction false} RegisterDecides(s: State, h: Handle, i: nat)
    requires i <= SLOT_COUNT
    ensures RegisterSlots(s, h, i).Ok? <==> forall k: nat :: i <= k < 30 ==> Lookup(s.rows, SlotKey(h.runId, k)).None?
    ensures RegisterSlots(s, h, i).Err? ==> RegisterSlots(s, h, i).error == Error.Blocked
    ensures RegisterSlots(s, h, i).Ok? ==> RegisterSlots(s, h, i).value.rows == s.rows + SlotsOf(h)[i..]
    decreases SLOT_COUNT - i
  {
    if i < SLOT_COUNT && Lookup(s.rows, SlotKey(h.runId, i)).None? {
      var row := Row(SlotKey(h.runId, i), SlotP(h.runId, i, h.slots), Pending, None);
      var t := Register(s, row).value;
      forall k: nat | i < k < 30 ensures Lookup(t.rows, SlotKey(h.runId, k)) == Lookup(s.rows, SlotKey(h.runId, k)) {
        LookupInsert(s.rows, row, SlotKey(h.runId, k));
      }
      RegisterDecides(t, h, i + 1);
      assert SlotsOf(h)[i..] == [row] + SlotsOf(h)[i + 1..];
    }
  }

  /** A run is created if and only if neither it nor any of its slots is on the ledger, and then
      is there with its thirty slots, all pending. A run that is there already is a conflict. */
  lemma {:induction false} CreationDecides(s: State, h: Handle)
    ensures CreateRun(s, h).Ok? <==>
            Lookup(s.rows, RunKey(h.runId)).None? && forall i: nat :: i < 30 ==> Lookup(s.rows, SlotKey(h.runId, i)).None?
    ensures CreateRun(s, h) == Err(Error.Conflict) <==> Lookup(s.rows, RunKey(h.runId)).Some?
    ensures CreateRun(s, h).Ok? ==>
              CreateRun(s, h).value.rows == s.rows + [Row(RunKey(h.runId), RunP(h), Pending, None)] + SlotsOf(h)
  {
    if Lookup(s.rows, RunKey(h.runId)).None? {
      var row := Row(RunKey(h.runId), RunP(h), Pending, None);
      var t := Register(s, row).value;
      forall k: nat | k < 30 ensures Lookup(t.rows, SlotKey(h.runId, k)) == Lookup(s.rows, SlotKey(h.runId, k)) {
        LookupInsert(s.rows, row, SlotKey(h.runId, k));
      }
      RegisterDecides(t, h, 0);
    }
  }

  /** A token is bound if and only if the run stands and either half, where it is there, is this
      very binding; both halves are there afterwards. */
  lemma {:induction false} TokenDecides(s: State, h: Handle, i: nat, token: string)
    requires LedgerInv(s) && i < SLOT_COUNT
    ensures var gate, back := Lookup(s.rows, GatewayKey(h.runId, i)), Lookup(s.rows, TokenKey(token));
            BindToken(s, h, i, token).Ok? <==>
            && RunStands(s.rows, h)
            && (gate.Some? ==> gate.value.payload == GatewayP(h.runId, i, h.slots, token))
            && (back.Some? ==> back.value.payload == TokenP(h.runId, i, h.slots, token))
    ensures BindToken(s, h, i, token).Ok? ==>
              var t := BindToken(s, h, i, token).value;
              && Lookup(t.rows, GatewayKey(h.runId, i)) == Some(Row(GatewayKey(h.runId, i), GatewayP(h.runId, i, h.slots, token), Pending, None))
              && Lookup(t.rows, TokenKey(token)) == Some(Row(TokenKey(token), TokenP(h.runId, i, h.slots, token), Pending, None))
              && forall id :: id != GatewayKey(h.runId, i) && id != TokenKey(token) ==> Lookup(t.rows, id) == Lookup(s.rows, id)
  {
    hide LedgerInv, CheckRun, RunStands;
    RunReads(s, h);
    var gate, back := Lookup(s.rows, GatewayKey(h.runId, i)), Lookup(s.rows, TokenKey(token));
    if gate.Some? {
      ShapesOf(s, GatewayKey(h.runId, i));
    }
    if back.Some? {
      ShapesOf(s, TokenKey(token));
    }
    HalfDecides(s, GateRow(h, i, token));
    var t := BindHalf(s, GatewayKey(h.runId, i), GatewayP(h.runId, i, h.slots, token));
    if t.Ok? {
      HalfDecides(t.value, TokenRow(h, i, token));
    }
    hide BindHalf;
  }

  lemma {:induction false} HalfDecides(s: State, row: Row)
    requires row.status == Pending && row.evidence == None
    ensures var t := BindHalf(s, row.id, row.payload);
            && (t.Ok? <==> Lookup(s.rows, row.id).None? || Lookup(s.rows, row.id) == Some(row))
            && (t.Ok? ==> Lookup(t.value.rows, row.id) == Some(row)
                          && forall id :: id != row.id ==> Lookup(t.value.rows, id) == Lookup(s.rows, id))
  {
    forall id ensures Lookup(s.rows + [row], id) == if row.id == id then Some(row) else Lookup(s.rows, id) {
      LookupInsert(s.rows, row, id);
    }
  }
}
