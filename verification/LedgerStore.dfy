/** The budget operations as the host runs them: each method is one transaction on the
    operation table and the event log, rolled back when it is refused. */
module LedgerStore {
  import opened Outcome
  import opened Ledger
  import opened Authority
  import opened Pricing
  import opened Reservation
  import opened BudgetSafety
  import opened BudgetSteps
  import opened Decisions

  /** A row inserted pending and finished at once is inserted finished. */
  lemma {:induction false} FinishInserted(rows: seq<Row>, row: Row, status: Status, evidence: Evidence)
    requires Lookup(rows, row.id).None?
    ensures FinishRows(rows + [row], row.id, status, evidence) == rows + [row.(status := status, evidence := Some(evidence))]
  {
    assert (rows + [row])[..|rows|] == rows;
    forall r | r in rows ensures r.id != row.id {
      LookupPresent(rows, r);
    }
    FinishAbsent(rows, row.id, status, evidence);
  }

  lemma {:induction false} FiniteAppend(events: seq<Event>, e: Event, ids: set<OpId>)
    ensures FiniteEvents(events + [e], ids) ==
            FiniteEvents(events, ids) + if !e.Note? && (DeclaresFinite(e) || e.id in ids) then [e] else []
  {
    assert (events + [e])[..|events|] == events;
  }

  /** Once the cost of a prefix is an error or unknown, so is the cost of the whole. */
  lemma {:induction false} CostSticky(dims: seq<(int, Option<real>)>, i: nat)
    requires i <= |dims| && (Cost(dims[..i]).Err? || Cost(dims[..i]).value.None?)
    ensures Cost(dims) == Cost(dims[..i])
    decreases |dims| - i
  {
    if i == |dims| {
      assert dims[..i] == dims;
    } else {
      assert dims[..i + 1][..i] == dims[..i];
      CostSticky(dims, i + 1);
    }
  }

  lemma {:induction false} CostNext(dims: seq<(int, Option<real>)>, cost: real)
    requires dims != [] && Cost(dims[..|dims| - 1]) == Ok(Some(cost))
    ensures var (used, price) := dims[|dims| - 1];
            Cost(dims) == if price.None? then Ok(if used != 0 then None else Some(cost))
                          else if price.value < 0.0 then Err(BadValue)
                          else Ok(Some(cost + Term(used, price)))
  {
  }

  /** Settlement's walk over the reported dimensions; it stops at the first that was used
      without a price. */
  method CostOf(dims: seq<(int, Option<real>)>) returns (r: Result<Option<real>>)
    ensures r == Cost(dims)
  {
    var cost := 0.0;
    var i := 0;
    while i < |dims|
      invariant 0 <= i <= |dims|
      invariant Cost(dims[..i]) == Ok(Some(cost))
    {
      var (used, price) := dims[i];
      assert dims[..i + 1][..i] == dims[..i];
      CostNext(dims[..i + 1], cost);
      if used != 0 && price.None? {
        CostSticky(dims, i + 1);
        return Ok(None);
      }
      if price.Some? {
        if price.value < 0.0 {
          CostSticky(dims, i + 1);
          return Err(BadValue);
        }
        cost := cost + used as real * price.value;
      }
      i := i + 1;
    }
    assert dims[..i] == dims;
    r := Ok(Some(cost));
  }

  class LedgerStore {
    var rows: seq<Row>
    var events: seq<Event>

    /** What the file holds. */
    function Contents(): State
      reads this
    {
      State(rows, events)
    }

    /** The budget's invariant. */
    ghost predicate Valid()
      reads this
    {
      BudgetInv(Contents())
    }

    constructor ()
      ensures Contents() == EMPTY && Valid()
    {
      rows, events := [], [];
    }

    // ---- Reading ----

    method Totals(scope: string) returns (count: nat, total: int)
      ensures count == Attempts(rows, scope) && total == Total(rows, scope)
    {
      count, total := 0, 0;
      var i := 0;
      while i < |rows|
        invariant 0 <= i <= |rows|
        invariant count == Attempts(rows[..i], scope) && total == Total(rows[..i], scope)
      {
        InsertUsage(rows[..i], rows[i], scope);
        assert rows[..i] + [rows[i]] == rows[..i + 1];
        var p := rows[i].payload;
        if p.AttemptP? && p.scopeId == scope {
          count := count + 1;
          var evidence := rows[i].evidence;
          total := total + if evidence.Some? && evidence.value.AttemptE? then evidence.value.charged else p.reserved;
        }
        i := i + 1;
      }
      assert rows[..i] == rows;
    }

    /** The intents and receipts of one operation, in log order. */
    method AuditTrail(id: OpId) returns (actual: seq<Event>)
      ensures actual == EventsOf(events, id)
    {
      actual := [];
      var i := 0;
      while i < |events|
        invariant 0 <= i <= |events|
        invariant actual == EventsOf(events[..i], id)
      {
        EventsAppend(events[..i], events[i], id);
        assert events[..i] + [events[i]] == events[..i + 1];
        if !events[i].Note? && events[i].id == id {
          actual := actual + [events[i]];
        }
        i := i + 1;
      }
      assert events[..i] == events;
    }

    /** The events that declare a finite approval or belong to one of the given operations. */
    method FiniteTrail(ids: set<OpId>) returns (actual: seq<Event>)
      ensures actual == FiniteEvents(events, ids)
    {
      actual := [];
      var i := 0;
      while i < |events|
        invariant 0 <= i <= |events|
        invariant actual == FiniteEvents(events[..i], ids)
      {
        FiniteAppend(events[..i], events[i], ids);
        assert events[..i] + [events[i]] == events[..i + 1];
        if !events[i].Note? && (DeclaresFinite(events[i]) || events[i].id in ids) {
          actual := actual + [events[i]];
        }
        i := i + 1;
      }
      assert events[..i] == events;
    }

    method ReadBudget(scope: Payload) returns (r: Result<int>)
      requires scope.ScopeP?
      ensures r == EffectiveBudget(Contents(), scope)
    {
      var v1 := OfKind(rows, V1K);
      if v1 == [] {
        return Ok(scope.budget);
      }
      if |v1| != 1 || scope.budget != FIRST_BUDGET || !v1[0].payload.AmendV1P? {
        return Err(Denied);
      }
      var actual := AuditTrail(v1[0].id);
      r := if Approved(v1[0], actual) then Ok(v1[0].payload.newBudget) else Err(Denied);
    }

    method ReadFeeOnly(scope: Payload) returns (r: Result<Limits>)
      requires scope.ScopeP?
      ensures r == FeeOnlyLimits(Contents(), scope)
    {
      hide EffectiveBudget, Approved, FenceStands;
      var effective :- ReadBudget(scope);
      var v2 := OfKind(rows, V2K);
      if v2 == [] {
        return Ok(Limits(Some(scope.maxAttempts), Some(effective), true));
      }
      if |v2| != 1 || scope != ScopeP(TRIAL_ATTEMPTS, FIRST_BUDGET) || effective != SECOND_BUDGET
         || !FenceStands(rows) || !v2[0].payload.AmendV2P? {
        return Err(Denied);
      }
      var actual := AuditTrail(v2[0].id);
      r := if Approved(v2[0], actual) then Ok(FEE_ONLY) else Err(Denied);
    }

    method ReadUncapped(scope: Payload) returns (r: Result<Limits>)
      requires scope.ScopeP?
      ensures r == UncappedLimits(Contents(), scope)
    {
      hide FeeOnlyLimits, Approved;
      var limits := ReadFeeOnly(scope);
      var v3 := OfKind(rows, V3K);
      if limits.Err? || v3 == [] {
        return limits;
      }
      if |v3| != 1 || limits.value != FEE_ONLY || !v3[0].payload.AmendV3P? {
        return Err(Denied);
      }
      var actual := AuditTrail(v3[0].id);
      r := if Approved(v3[0], actual) then Ok(UNCAPPED) else Err(Denied);
    }

    /** The effective limits, derived anew from rows and events. */
    method ReadLimits(scope: Payload) returns (r: Result<Limits>)
      requires scope.ScopeP?
      ensures r == TrialLimits(Contents(), scope)
    {
      hide UncappedLimits, Approved, FiniteEvents, Ids;
      var limits := ReadUncapped(scope);
      if limits.Err? {
        return limits;
      }
      var v4 := OfKind(rows, V4K);
      var actual := FiniteTrail(Ids(v4));
      if v4 == [] {
        return if actual == [] then limits else Err(Denied);
      }
      if |v4| != 1 || limits.value != UNCAPPED || !v4[0].payload.AmendV4P? {
        return Err(Denied);
      }
      r := if Approved(v4[0], actual) then Ok(FINITE) else Err(Denied);
    }

    // ---- Writing ----

    method InsertRow(row: Row, born: seq<Event>)
      modifies this
      ensures Contents() == Insert(old(Contents()), row, born)
    {
      rows, events := rows + [row], events + born;
    }

    method UpdateRow(id: OpId, status: Status, evidence: Evidence)
      modifies this
      ensures Contents() == Finish(old(Contents()), id, status, evidence)
    {
      rows, events := FinishRows(rows, id, status, evidence), events + [Receipt(id, status, evidence)];
    }

    method Rollback(before: State)
      modifies this
      ensures Contents() == before
    {
      rows, events := before.rows, before.events;
    }

    /** Reserve the worst-case price of a request. The scope is inserted by the first
        reservation of all, before limits are read; a refusal takes it back. */
    method Reserve(uuid: nat, scopeId: string, req: Request, policy: Policy, now: real, custody: bool,
                   grant: Result<Grant>) returns (r: Result<Permit>)
      modifies this
      ensures match Reservation.Reserve(old(Contents()), uuid, scopeId, req, policy, now, custody, grant)
              case Ok((t, permit)) => Contents() == t && r == Ok(permit)
              case Err(e) => Contents() == old(Contents()) && r == Err(e)
      ensures old(Valid()) ==>
                && Valid() && ScopeFor(old(Contents()), policy).ScopeP?
                && (r.Ok? <==> Reservable(old(Contents()), uuid, scopeId, req, policy, custody, grant))
                && (r.Ok? ==> ReservedAs(old(Contents()), Contents(), r.value, uuid, req, policy, now, grant.value))
    {
      hide TrialLimits, Attempts, Total, Fits, Quote, PolicyAttemptLimit, ScopePayload, BudgetInv, StageOf, Reservable, ReservedAs, ScopeFor;
      if BudgetInv(Contents()) {
        ReservationDecides(Contents(), uuid, scopeId, req, policy, now, custody, grant);
      }
      if scopeId != LOCAL_TRIAL {
        return Err(Denied);
      }
      var policyAttempts :- PolicyAttemptLimit(policy);
      var amount :- Quote(req, policy);
      if !custody {
        return Err(Denied);
      }
      var granted :- grant;
      var before := Contents();
      var row := Lookup(rows, ScopeKey(scopeId));
      var scope: Result<Payload>;
      if row.None? {
        var opening := OpeningScope(policyAttempts, policy.budget);
        InsertRow(Row(ScopeKey(scopeId), opening, Pending, None), []);
        scope := Ok(opening);
      } else {
        scope := ScopePayload(row);
      }
      if scope.Err? {
        return Err(scope.error);
      }
      assert scope.value.ScopeP? by {
        ScopePayloadKind(row);
      }
      assert Contents() == Opened(before, policyAttempts, policy);
      var limits := ReadLimits(scope.value);
      if limits.Err? {
        Rollback(before);
        return Err(limits.error);
      }
      OpenedUsage(before, policyAttempts, policy);
      var count, used := Totals(scopeId);
      if !Fits(count, used, amount, policyAttempts, policy, limits.value) {
        Rollback(before);
        return Err(Denied);
      }
      var key := AttemptKey(uuid);
      if Lookup(rows, key).Some? {
        Rollback(before);
        return Err(Error.Blocked);
      }
      var deadline := PermitDeadline(now, policy, granted);
      InsertRow(Row(key, AttemptPayload(amount, deadline, req, policy, granted.tag), Pending, None),
                [Note("model-reserved", key)]);
      r := Ok(Permit(key, scopeId, amount, deadline));
      if BudgetInv(before) {
        ReserveKeeps(before, uuid, scopeId, req, policy, now, custody, grant);
      }
    }

    /** Settle a permit from reported usage, once; a later settlement changes nothing. */
    method Settle(permit: Permit, usage: Usage) returns (r: Result<()>)
      modifies this
      ensures match Reservation.Settle(old(Contents()), permit, usage)
              case Ok(t) => Contents() == t && r == Ok(())
              case Err(e) => Contents() == old(Contents()) && r == Err(e)
      ensures old(Valid()) ==> Valid() && Settlement(old(Contents()), permit, usage, r.Ok?, Contents())
    {
      hide BudgetInv, Cost, Dimensions, Ceil, StageOf, Attempts, Total, FinishRows, Settlement;
      ghost var before := Contents();
      if BudgetInv(before) {
        SettlementDecides(before, permit, usage);
      }
      var row := Lookup(rows, permit.attempt);
      if row.None? || !row.value.payload.AttemptP? {
        return Err(Error.Conflict);
      }
      var p := row.value.payload;
      if (p.scopeId, p.reserved, p.deadline) != (permit.scopeId, permit.reserved, permit.deadline) {
        return Err(Error.Conflict);
      }
      if row.value.status != Pending {
        return Ok(());
      }
      var charged, known := permit.reserved, WithinBounds(usage, p.inputBound, p.maxTokens);
      if known {
        var cost :- CostOf(Dimensions(usage, p.prices));
        known := cost.Some?;
        if known {
          charged := Ceil(cost.value);
          known := charged <= permit.reserved;
        }
      }
      UpdateRow(permit.attempt, if known then Done else Uncertain,
                AttemptE(if known then charged else permit.reserved, known, ProviderId(usage)));
      r := Ok(());
      if BudgetInv(before) {
        SettleKeeps(before, permit, usage);
      }
    }

    /** Amendments 1 and 2 insert their row pending and finish it in the same transaction;
        3 and 4 insert it finished. */
    method Approve(id: OpId, p: Payload)
      requires IsAmendment(p) && Lookup(rows, id).None?
      modifies this
      ensures Contents() == Amended(old(Contents()), id, p)
    {
      if p.AmendV1P? || p.AmendV2P? {
        FinishInserted(rows, Row(id, p, Pending, None), Done, Approval(p));
        InsertRow(Row(id, p, Pending, None), [Intent(id, p)]);
        UpdateRow(id, Done, Approval(p));
      } else {
        InsertRow(AmendmentRow(id, p), [Intent(id, p), Receipt(id, Done, Approval(p))]);
      }
    }

    method AmendFirst(id: OpId, p: Payload) returns (r: Result<()>)
      requires p.AmendV1P?
      modifies this
      ensures match AmendV1(old(Contents()), id, p)
              case Ok(t) => Contents() == t && r == Ok(())
              case Err(e) => Contents() == old(Contents()) && r == Err(e)
    {
      hide EffectiveBudget, Amended, TrustedReference, TrustedId;
      :- Need(ValidV1(p) && TrustedId(id), Denied);
      var original :- ScopePayload(Lookup(rows, ScopeKey(p.scopeId)));
      var existing := Lookup(rows, id);
      :- Need(existing.None? || existing.value.payload == p, Error.Conflict);
      var effective :- ReadBudget(original);
      if existing.Some? {
        return Ok(());
      }
      :- Need(original.budget == p.expectedOriginal, Denied);
      :- Need(effective == p.expectedEffective, Error.Conflict);
      Approve(id, p);
      r := Ok(());
    }

    method AmendSecond(id: OpId, p: Payload) returns (r: Result<()>)
      requires p.AmendV2P?
      modifies this
      ensures match AmendV2(old(Contents()), id, p)
              case Ok(t) => Contents() == t && r == Ok(())
              case Err(e) => Contents() == old(Contents()) && r == Err(e)
    {
      hide TrialLimits, Amended, TrustedReference, TrustedId, FenceStands;
      :- Need(ValidV2(p) && TrustedId(id), Denied);
      var original :- ScopePayload(Lookup(rows, ScopeKey(p.scopeId)));
      var existing := Lookup(rows, id);
      :- Need(existing.None? || existing.value.payload == p, Error.Conflict);
      var limits :- ReadLimits(original);
      if existing.Some? {
        return Ok(());
      }
      :- Need(limits.maxAttempts.Some?, Error.Conflict);
      :- Need(original == ScopeP(TRIAL_ATTEMPTS, FIRST_BUDGET)
              && limits == Limits(Some(TRIAL_ATTEMPTS), Some(SECOND_BUDGET), true), Denied);
      :- Need(FenceStands(rows), Denied);
      var idle := NoneInTransport(Some(p.scopeId));
      :- Need(idle, Denied);
      Approve(id, p);
      r := Ok(());
    }

    /** No model attempt (of the scope, when one is given) and no phase admission is pending. */
    method NoneInTransport(scope: Option<string>) returns (idle: bool)
      ensures idle <==> forall r :: r in rows ==> !PendingTransport(r, scope)
    {
      var i := 0;
      while i < |rows|
        invariant 0 <= i <= |rows|
        invariant forall k :: 0 <= k < i ==> !PendingTransport(rows[k], scope)
      {
        if PendingTransport(rows[i], scope) {
          return false;
        }
        i := i + 1;
      }
      idle := true;
    }

    method AmendThird(id: OpId, p: Payload) returns (r: Result<()>)
      requires p.AmendV3P?
      modifies this
      ensures match AmendV3(old(Contents()), id, p)
              case Ok(t) => Contents() == t && r == Ok(())
              case Err(e) => Contents() == old(Contents()) && r == Err(e)
    {
      hide TrialLimits, Amended, TrustedReference, TrustedId;
      :- Need(ValidV3(p) && TrustedId(id), Denied);
      var original :- ScopePayload(Lookup(rows, ScopeKey(p.scopeId)));
      var limits :- ReadLimits(original);
      var existing := Lookup(rows, id);
      if existing.Some? {
        :- Need(existing.value.payload == p, Error.Conflict);
        return Ok(());
      }
      :- Need(limits.budget.Some?, Error.Conflict);
      :- Need(limits == FEE_ONLY, Denied);
      var idle := NoneInTransport(None);
      :- Need(idle, Denied);
      Approve(id, p);
      r := Ok(());
    }

    method AmendFourth(id: OpId, p: Payload) returns (r: Result<()>)
      requires p.AmendV4P?
      modifies this
      ensures match AmendV4(old(Contents()), id, p)
              case Ok(t) => Contents() == t && r == Ok(())
              case Err(e) => Contents() == old(Contents()) && r == Err(e)
    {
      hide TrialLimits, Amended, TrustedReference, TrustedId, Total, Attempts;
      :- Need(ValidV4(p) && TrustedId(id), Denied);
      var original :- ScopePayload(Lookup(rows, ScopeKey(p.scopeId)));
      var limits :- ReadLimits(original);
      var existing := Lookup(rows, id);
      if existing.Some? {
        :- Need(existing.value.payload == p, Error.Conflict);
        return Ok(());
      }
      :- Need(limits.budget != Some(FINITE_BUDGET), Error.Conflict);
      :- Need(limits == UNCAPPED, Denied);
      var idle := NoneInTransport(None);
      :- Need(idle, Denied);
      var _, used := Totals(p.scopeId);
      :- Need(used <= FINITE_BUDGET, Denied);
      Approve(id, p);
      r := Ok(());
    }

    /** Any amendment keeps the budget's invariant. */
    method Amend(id: OpId, p: Payload) returns (r: Result<()>)
      requires IsAmendment(p)
      modifies this
      ensures match Authority.Amend(old(Contents()), id, p)
              case Ok(t) => Contents() == t && r == Ok(())
              case Err(e) => Contents() == old(Contents()) && r == Err(e)
      ensures old(Valid()) ==> Valid()
    {
      hide AmendV1, AmendV2, AmendV3, AmendV4, BudgetInv, StageOf, Total, Amended;
      ghost var before := Contents();
      if p.AmendV1P? {
        r := AmendFirst(id, p);
      } else if p.AmendV2P? {
        r := AmendSecond(id, p);
      } else if p.AmendV3P? {
        r := AmendThird(id, p);
      } else {
        r := AmendFourth(id, p);
      }
      if BudgetInv(before) && r.Ok? {
        AmendKeeps(before, id, p);
      }
    }
  }

  /** The scope row itself holds nothing. */
  lemma {:induction false} OpenedUsage(s: State, policyAttempts: Option<int>, policy: Policy)
    ensures var t := Opened(s, policyAttempts, policy);
            && Attempts(t.rows, LOCAL_TRIAL) == Attempts(s.rows, LOCAL_TRIAL)
            && Total(t.rows, LOCAL_TRIAL) == Total(s.rows, LOCAL_TRIAL)
  {
    hide Attempts, Total;
    InsertUsage(s.rows, Row(ScopeKey(LOCAL_TRIAL), OpeningScope(policyAttempts, policy.budget), Pending, None), LOCAL_TRIAL);
  }

  lemma {:induction false} ScopePayloadKind(row: Option<Row>)
    ensures ScopePayload(row).Ok? ==> ScopePayload(row).value.ScopeP?
  {
  }
}
