/** What every transaction of the metered budget keeps: the recomputed limits are those
    of a five-stage authority, and usage stays within them. */
module BudgetSafety {
  import opened Outcome
  import opened Ledger
  import opened Authority
  import opened Pricing
  import opened Reservation

  /** The authority, as an abstract state: nothing opened yet, or a scope at a stage. */
  datatype Stage = Original | Twenty | FeeOnly | Uncapped | Finite

  /** The rows the limits are derived from. */
  datatype View = View(scope: Option<Row>, v1: seq<Row>, v2: seq<Row>, v3: seq<Row>, v4: seq<Row>)

  function ViewOf(rows: seq<Row>): View {
    View(Lookup(rows, ScopeKey(LOCAL_TRIAL)), OfKind(rows, V1K), OfKind(rows, V2K), OfKind(rows, V3K), OfKind(rows, V4K))
  }

  function StageIn(v: View): Stage {
    if v.v4 != [] then Finite
    else if v.v3 != [] then Uncapped
    else if v.v2 != [] then FeeOnly
    else if v.v1 != [] then Twenty
    else Original
  }

  function StageOf(rows: seq<Row>): Stage {
    StageIn(ViewOf(rows))
  }

  function LimitsAt(stage: Stage, scope: Payload): Limits
    requires scope.ScopeP?
  {
    match stage
    case Original => Limits(Some(scope.maxAttempts), Some(scope.budget), true)
    case Twenty => Limits(Some(scope.maxAttempts), Some(SECOND_BUDGET), true)
    case FeeOnly => FEE_ONLY
    case Uncapped => UNCAPPED
    case Finite => FINITE
  }

  // ---- The invariant ----

  ghost predicate AttemptOk(r: Row)
    requires r.payload.AttemptP?
  {
    var p := r.payload;
    && p.scopeId == LOCAL_TRIAL
    && p.maxTokens > 0
    && ReservedAmount(p.prices, p.inputBound, p.maxTokens) == Ok(p.reserved)
    && (r.evidence.Some? ==>
          && r.evidence.value.AttemptE?
          && (if r.evidence.value.usageKnown then r.status == Done && 0 <= r.evidence.value.charged <= p.reserved
              else r.status == Uncertain && r.evidence.value.charged == p.reserved))
  }

  ghost predicate ScopeOk(r: Row) {
    && r.payload.ScopeP? && r.status == Pending && r.evidence == None
    && 0 < r.payload.maxAttempts <= TRIAL_ATTEMPTS && r.payload.budget <= FIRST_BUDGET
  }

  ghost predicate AmendmentOk(r: Row) {
    && (IsAmendment(r.payload) ==> ValidAmendment(r.payload) && TrustedId(r.id) && r == AmendmentRow(r.id, r.payload))
    && (r.evidence.Some? && r.evidence.value.AmendE? ==> IsAmendment(r.payload))
    && (r.id == ScopeKey(LOCAL_TRIAL) ==> ScopeOk(r))
  }

  ghost predicate AmendmentsOk(rows: seq<Row>) {
    forall r :: r in rows ==> AmendmentOk(r)
  }

  ghost predicate AttemptsOk(rows: seq<Row>) {
    forall r :: r in rows && r.payload.AttemptP? ==> AttemptOk(r)
  }

  ghost predicate NoAttempts(rows: seq<Row>) {
    forall r :: r in rows ==> !r.payload.AttemptP?
  }

  /** The amendments form a chain on one original scope. */
  ghost predicate Chain(v: View) {
    && |v.v1| <= 1 && |v.v2| <= 1 && |v.v3| <= 1 && |v.v4| <= 1
    && (v.v4 != [] ==> v.v3 != [])
    && (v.v3 != [] ==> v.v2 != [])
    && (v.v2 != [] ==> v.v1 != [] && v.scope.Some? && v.scope.value.payload == ScopeP(TRIAL_ATTEMPTS, FIRST_BUDGET))
    && (v.v1 != [] ==> v.scope.Some? && v.scope.value.payload.ScopeP? && v.scope.value.payload.budget == FIRST_BUDGET)
  }

  ghost predicate Grounded(rows: seq<Row>) {
    && (OfKind(rows, V2K) != [] ==> FenceStands(rows))
    && (Lookup(rows, ScopeKey(LOCAL_TRIAL)).None? ==> NoAttempts(rows))
  }

  ghost predicate WithinLimits(rows: seq<Row>, limits: Limits) {
    && WithinOption(Attempts(rows, LOCAL_TRIAL), limits.maxAttempts)
    && WithinOption(Total(rows, LOCAL_TRIAL), limits.budget)
  }

  ghost predicate Within(rows: seq<Row>) {
    match Lookup(rows, ScopeKey(LOCAL_TRIAL))
    case None => true
    case Some(r) => r.payload.ScopeP? && WithinLimits(rows, LimitsAt(StageOf(rows), r.payload))
  }

  ghost predicate AuthorityInv(s: State) {
    Sound(s) && AmendmentsOk(s.rows) && Chain(ViewOf(s.rows)) && Grounded(s.rows)
  }

  ghost predicate BudgetInv(s: State) {
    AuthorityInv(s) && AttemptsOk(s.rows) && Within(s.rows)
  }

  // ---- Recomputation refines the authority ----

  ghost predicate ScopeIs(rows: seq<Row>, scope: Payload) {
    var r := Lookup(rows, ScopeKey(LOCAL_TRIAL));
    r.Some? && r.value.payload == scope
  }

  predicate AmendmentKind(k: Kind) {
    k == V1K || k == V2K || k == V3K || k == V4K
  }

  lemma {:induction false} OnlyRow(rows: seq<Row>, k: Kind)
    requires |OfKind(rows, k)| == 1
    ensures OfKind(rows, k) == [OfKind(rows, k)[0]]
    ensures OfKind(rows, k)[0] in rows && KindOf(OfKind(rows, k)[0].payload) == k
  {
    FilterMembers(rows, IsKind(k));
    assert OfKind(rows, k)[0] in OfKind(rows, k);
  }

  lemma {:induction false} AuditOf(s: State, r: Row)
    requires Sound(s) && r in s.rows && IsAmendment(r.payload) && AmendmentOk(r)
    ensures Approved(r, EventsOf(s.events, r.id))
  {
    LookupUnique(s.rows, r);
    assert EventsOf(s.events, r.id) == ExpectedEvents(Some(r));
  }

  /** Scanning for finite approvals by declaration or identity finds the events of `ids`. */
  lemma {:induction false} FiniteScan(events: seq<Event>, ids: set<OpId>)
    requires forall e :: e in events && !e.Note? && DeclaresFinite(e) ==> e.id in ids
    ensures ids == {} ==> FiniteEvents(events, ids) == []
    ensures forall id :: ids == {id} ==> FiniteEvents(events, ids) == EventsOf(events, id)
  {
    if events != [] {
      var init := events[..|events| - 1];
      assert forall e :: e in init ==> e in events;
      FiniteScan(init, ids);
      var last := events[|events| - 1];
      assert last in events;
    }
  }

  lemma {:induction false} EventsOfContains(events: seq<Event>, e: Event)
    requires e in events && !e.Note?
    ensures e in EventsOf(events, e.id)
  {
    var init := events[..|events| - 1];
    assert events == init + [events[|events| - 1]];
    if e in init {
      EventsOfContains(init, e);
    }
  }

  /** No event declares a finite approval except those of the approved row. */
  lemma {:induction false} DeclaredAreRecorded(s: State, e: Event)
    requires AuthorityInv(s) && e in s.events && !e.Note? && DeclaresFinite(e)
    ensures e.id in Ids(OfKind(s.rows, V4K))
  {
    hide Chain, Grounded, UniqueIds, ReceiptShape;
    EventsOfContains(s.events, e);
    var found := Lookup(s.rows, e.id);
    assert e in ExpectedEvents(found);
    FilterMembers(s.rows, IsKind(V4K));
    assert AmendmentOk(found.value);
    assert found.value.payload.AmendV4P?;
  }

  lemma {:induction false} FiniteAudit(s: State)
    requires AuthorityInv(s)
    ensures var v4 := OfKind(s.rows, V4K);
            FiniteEvents(s.events, Ids(v4)) == if v4 == [] then [] else EventsOf(s.events, v4[0].id)
  {
    hide Sound, AmendmentsOk, Grounded, DeclaresFinite;
    var v4 := OfKind(s.rows, V4K);
    forall e | e in s.events && !e.Note? && DeclaresFinite(e) ensures e.id in Ids(v4) {
      DeclaredAreRecorded(s, e);
    }
    FiniteScan(s.events, Ids(v4));
    if v4 == [] {
      assert Ids(v4) == {};
    } else {
      assert v4 == [v4[0]];
      assert Ids(v4) == {v4[0].id};
    }
  }

  lemma {:induction false} FirstBudgetAt(s: State, scope: Payload)
    requires AuthorityInv(s) && scope.ScopeP?
    requires ScopeIs(s.rows, scope)
    ensures EffectiveBudget(s, scope) == Ok(if OfKind(s.rows, V1K) == [] then scope.budget else SECOND_BUDGET)
  {
    hide Sound, Grounded, TrustedId, TrustedReference, EventsOf;
    if OfKind(s.rows, V1K) != [] {
      OnlyRow(s.rows, V1K);
      AuditOf(s, OfKind(s.rows, V1K)[0]);
    }
  }

  ghost function Settled(rows: seq<Row>, scope: Payload): Limits
    requires scope.ScopeP?
  {
    if OfKind(rows, V2K) != [] then FEE_ONLY
    else Limits(Some(scope.maxAttempts), Some(if OfKind(rows, V1K) == [] then scope.budget else SECOND_BUDGET), true)
  }

  lemma {:induction false} FeeOnlyAt(s: State, scope: Payload)
    requires AuthorityInv(s) && scope.ScopeP?
    requires ScopeIs(s.rows, scope)
    ensures FeeOnlyLimits(s, scope) == Ok(Settled(s.rows, scope))
  {
    hide Sound, TrustedId, TrustedReference, EventsOf, EffectiveBudget;
    FirstBudgetAt(s, scope);
    if OfKind(s.rows, V2K) != [] {
      OnlyRow(s.rows, V2K);
      AuditOf(s, OfKind(s.rows, V2K)[0]);
    }
  }

  lemma {:induction false} UncappedStep(s: State, scope: Payload, limits: Limits)
    requires scope.ScopeP? && FeeOnlyLimits(s, scope) == Ok(limits)
    requires var v3 := OfKind(s.rows, V3K);
             v3 != [] ==> |v3| == 1 && limits == FEE_ONLY && v3[0].payload.AmendV3P?
                          && Approved(v3[0], EventsOf(s.events, v3[0].id))
    ensures UncappedLimits(s, scope) == Ok(if OfKind(s.rows, V3K) != [] then UNCAPPED else limits)
  {
  }

  lemma {:induction false} FiniteStep(s: State, scope: Payload, limits: Limits, audit: seq<Event>)
    requires scope.ScopeP? && UncappedLimits(s, scope) == Ok(limits)
    requires audit == FiniteEvents(s.events, Ids(OfKind(s.rows, V4K)))
    requires var v4 := OfKind(s.rows, V4K);
             if v4 == [] then audit == []
             else |v4| == 1 && limits == UNCAPPED && v4[0].payload.AmendV4P? && Approved(v4[0], audit)
    ensures TrialLimits(s, scope) == Ok(if OfKind(s.rows, V4K) != [] then FINITE else limits)
  {
  }

  lemma {:induction false} ApprovedOnly(s: State, k: Kind)
    requires AuthorityInv(s) && AmendmentKind(k) && OfKind(s.rows, k) != []
    ensures var rows := OfKind(s.rows, k);
            |rows| == 1 && KindOf(rows[0].payload) == k && IsAmendment(rows[0].payload)
            && Approved(rows[0], EventsOf(s.events, rows[0].id))
  {
    hide Sound, Grounded, Approved;
    assert |OfKind(s.rows, k)| == 1;
    OnlyRow(s.rows, k);
    AuditOf(s, OfKind(s.rows, k)[0]);
  }

  lemma {:induction false} ChainLinks(s: State)
    requires AuthorityInv(s)
    ensures OfKind(s.rows, V3K) != [] ==> OfKind(s.rows, V2K) != []
    ensures OfKind(s.rows, V4K) != [] ==> OfKind(s.rows, V3K) != []
  {
    assert Chain(ViewOf(s.rows));
  }

  lemma {:induction false} UncappedAt(s: State, scope: Payload)
    requires AuthorityInv(s) && scope.ScopeP?
    requires ScopeIs(s.rows, scope)
    ensures UncappedLimits(s, scope) == Ok(if OfKind(s.rows, V3K) != [] then UNCAPPED else Settled(s.rows, scope))
  {
    hide AuthorityInv, Approved, FeeOnlyLimits;
    FeeOnlyAt(s, scope);
    if OfKind(s.rows, V3K) != [] {
      ApprovedOnly(s, V3K);
      ChainLinks(s);
    }
    UncappedStep(s, scope, Settled(s.rows, scope));
  }

  lemma {:induction false} FiniteReady(s: State)
    requires AuthorityInv(s)
    ensures var v4, audit := OfKind(s.rows, V4K), FiniteEvents(s.events, Ids(OfKind(s.rows, V4K)));
            if v4 == [] then audit == [] else |v4| == 1 && v4[0].payload.AmendV4P? && Approved(v4[0], audit)
  {
    hide AuthorityInv, Approved, Ids, FiniteEvents;
    FiniteAudit(s);
    if OfKind(s.rows, V4K) != [] {
      ApprovedOnly(s, V4K);
    }
  }

  lemma {:induction false} FiniteAt(s: State, scope: Payload, limits: Limits)
    requires AuthorityInv(s) && scope.ScopeP? && UncappedLimits(s, scope) == Ok(limits)
    requires OfKind(s.rows, V4K) != [] ==> limits == UNCAPPED
    ensures TrialLimits(s, scope) == Ok(if OfKind(s.rows, V4K) != [] then FINITE else limits)
  {
    FiniteReady(s);
    FiniteStep(s, scope, limits, FiniteEvents(s.events, Ids(OfKind(s.rows, V4K))));
  }

  /** On every ledger the invariant admits, the limits recomputed from rows and events are
      those of the authority's stage, and recomputation does not fail. */
  lemma {:induction false} RecomputationRefines(s: State, scope: Payload)
    requires AuthorityInv(s) && scope.ScopeP?
    requires ScopeIs(s.rows, scope)
    ensures TrialLimits(s, scope) == Ok(LimitsAt(StageOf(s.rows), scope))
  {
    var limits := if OfKind(s.rows, V3K) != [] then UNCAPPED else Settled(s.rows, scope);
    UncappedAt(s, scope);
    StageLimits(s.rows, scope);
    FiniteAt(s, scope, limits);
  }

  lemma {:induction false} StageLimits(rows: seq<Row>, scope: Payload)
    requires scope.ScopeP? && Chain(ViewOf(rows))
    ensures OfKind(rows, V4K) != [] ==> OfKind(rows, V3K) != []
    ensures LimitsAt(StageOf(rows), scope) ==
            if OfKind(rows, V4K) != [] then FINITE
            else if OfKind(rows, V3K) != [] then UNCAPPED
            else Settled(rows, scope)
  {
  }

  // ---- Preservation ----

  lemma {:induction false} InsertKinds(rows: seq<Row>, row: Row)
    ensures forall k :: OfKind(rows + [row], k) == OfKind(rows, k) + if KindOf(row.payload) == k then [row] else []
  {
    forall k ensures OfKind(rows + [row], k) == OfKind(rows, k) + if KindOf(row.payload) == k then [row] else [] {
      FilterInsert(rows, row, IsKind(k));
    }
  }

  lemma {:induction false} InsertUsage(rows: seq<Row>, row: Row, scope: string)
    ensures Attempts(rows + [row], scope) == Attempts(rows, scope) + if InScope(scope)(row) then 1 else 0
    ensures Total(rows + [row], scope) == Total(rows, scope) + Held(scope)(row)
  {
    FilterInsert(rows, row, InScope(scope));
    SumInsert(rows, row, Held(scope));
  }

  lemma {:induction false} InsertFence(rows: seq<Row>, row: Row)
    requires FenceStands(rows) && Lookup(rows, row.id).None?
    ensures FenceStands(rows + [row])
  {
    LookupInsert(rows, row, FenceKey);
  }

  ghost predicate OrdinaryRow(row: Row) {
    && (row.status == Pending <==> row.evidence == None)
    && (row.evidence.Some? ==> !row.evidence.value.AmendE?)
    && row.id != ScopeKey(LOCAL_TRIAL) && !IsAmendment(row.payload)
  }

  ghost predicate ForeignRow(row: Row) {
    OrdinaryRow(row) && !row.payload.AttemptP?
  }

  lemma {:induction false} ViewInsert(rows: seq<Row>, row: Row)
    requires row.id != ScopeKey(LOCAL_TRIAL) && !IsAmendment(row.payload)
    ensures ViewOf(rows + [row]) == ViewOf(rows)
  {
    InsertKinds(rows, row);
    LookupInsert(rows, row, ScopeKey(LOCAL_TRIAL));
  }

  lemma {:induction false} AmendmentsInsert(rows: seq<Row>, row: Row)
    requires AmendmentsOk(rows) && AmendmentOk(row)
    ensures AmendmentsOk(rows + [row])
  {
  }

  lemma {:induction false} GroundedInsert(rows: seq<Row>, row: Row)
    requires Grounded(rows) && Lookup(rows, row.id).None? && !row.payload.AmendV2P?
    requires Lookup(rows, ScopeKey(LOCAL_TRIAL)).None? ==> !row.payload.AttemptP?
    ensures Grounded(rows + [row])
  {
    FilterInsert(rows, row, IsKind(V2K));
    LookupInsert(rows, row, ScopeKey(LOCAL_TRIAL));
    if OfKind(rows, V2K) != [] {
      InsertFence(rows, row);
    }
  }

  lemma {:induction false} InsertOrdinary(s: State, row: Row)
    requires AuthorityInv(s) && Lookup(s.rows, row.id).None? && OrdinaryRow(row)
    requires row.payload.AttemptP? ==> Lookup(s.rows, ScopeKey(LOCAL_TRIAL)).Some?
    ensures AuthorityInv(Insert(s, row, BirthEvents(row)))
    ensures StageOf(s.rows + [row]) == StageOf(s.rows)
  {
    InsertSound(s, row);
    ViewInsert(s.rows, row);
    AmendmentsInsert(s.rows, row);
    GroundedInsert(s.rows, row);
  }

  /** Any row that is no amendment, scope or attempt leaves the budget alone. */
  lemma {:induction false} InsertForeign(s: State, row: Row)
    requires BudgetInv(s) && Lookup(s.rows, row.id).None? && ForeignRow(row)
    ensures BudgetInv(Insert(s, row, BirthEvents(row)))
    ensures StageOf(Insert(s, row, BirthEvents(row)).rows) == StageOf(s.rows)
    ensures Total(Insert(s, row, BirthEvents(row)).rows, LOCAL_TRIAL) == Total(s.rows, LOCAL_TRIAL)
  {
    hide AuthorityInv, StageOf, AttemptOk, Total, Attempts;
    InsertOrdinary(s, row);
    InsertUsage(s.rows, row, LOCAL_TRIAL);
    LookupInsert(s.rows, row, ScopeKey(LOCAL_TRIAL));
  }

  lemma {:induction false} FinishUsage(rows: seq<Row>, r: Row, status: Status, evidence: Evidence, scope: string)
    requires UniqueIds(rows) && r in rows
    ensures var done := FinishRows(rows, r.id, status, evidence);
            && Attempts(done, scope) == Attempts(rows, scope)
            && Total(done, scope) == Total(rows, scope) - Held(scope)(r) +
                                     Held(scope)(r.(status := status, evidence := Some(evidence)))
  {
    FilterFinish(rows, InScope(scope), r.id, status, evidence);
    SumFinish(rows, Held(scope), r.id, status, evidence, r);
  }

  ghost predicate Finishable(s: State, r: Row, status: Status, evidence: Evidence) {
    && r in s.rows && r.status == Pending && status != Pending
    && !IsAmendment(r.payload) && !r.payload.FenceP? && !r.payload.ScopeP? && !evidence.AmendE?
  }

  lemma {:induction false} FinishedMembers(s: State, r: Row, status: Status, evidence: Evidence, x: Row)
    requires UniqueIds(s.rows) && r in s.rows && x in Finish(s, r.id, status, evidence).rows
    ensures x in s.rows || x == r.(status := status, evidence := Some(evidence))
  {
    FinishMembers(s.rows, r.id, status, evidence);
    var rows := Finish(s, r.id, status, evidence).rows;
    var i :| 0 <= i < |rows| && rows[i] == x;
    if s.rows[i].id == r.id {
      LookupUnique(s.rows, s.rows[i]);
      LookupUnique(s.rows, r);
    }
  }

  lemma {:induction false} ViewFinish(s: State, r: Row, status: Status, evidence: Evidence)
    requires UniqueIds(s.rows) && AmendmentsOk(s.rows) && Finishable(s, r, status, evidence)
    ensures ViewOf(Finish(s, r.id, status, evidence).rows) == ViewOf(s.rows)
  {
    LookupUnique(s.rows, r);
    KindFinish(s, r.id, status, evidence, V1K);
    KindFinish(s, r.id, status, evidence, V2K);
    KindFinish(s, r.id, status, evidence, V3K);
    KindFinish(s, r.id, status, evidence, V4K);
    assert AmendmentOk(r);
    LookupFinish(s.rows, r.id, status, evidence, ScopeKey(LOCAL_TRIAL));
  }

  lemma {:induction false} AmendmentsFinish(s: State, r: Row, status: Status, evidence: Evidence)
    requires UniqueIds(s.rows) && AmendmentsOk(s.rows) && Finishable(s, r, status, evidence)
    ensures AmendmentsOk(Finish(s, r.id, status, evidence).rows)
  {
    forall x | x in Finish(s, r.id, status, evidence).rows ensures AmendmentOk(x) {
      FinishedMembers(s, r, status, evidence, x);
      assert AmendmentOk(r);
    }
  }

  lemma {:induction false} GroundedFinish(s: State, r: Row, status: Status, evidence: Evidence)
    requires UniqueIds(s.rows) && Grounded(s.rows) && Finishable(s, r, status, evidence)
    ensures Grounded(Finish(s, r.id, status, evidence).rows)
  {
    var t := Finish(s, r.id, status, evidence);
    LookupUnique(s.rows, r);
    KindFinish(s, r.id, status, evidence, V2K);
    LookupFinish(s.rows, r.id, status, evidence, FenceKey);
    LookupFinish(s.rows, r.id, status, evidence, ScopeKey(LOCAL_TRIAL));
    if Lookup(t.rows, ScopeKey(LOCAL_TRIAL)).None? {
      forall x | x in t.rows ensures !x.payload.AttemptP? {
        FinishedMembers(s, r, status, evidence, x);
      }
    }
  }

  lemma {:induction false} FinishChain(s: State, r: Row, status: Status, evidence: Evidence)
    requires AuthorityInv(s) && Finishable(s, r, status, evidence)
    ensures AuthorityInv(Finish(s, r.id, status, evidence))
    ensures StageOf(Finish(s, r.id, status, evidence).rows) == StageOf(s.rows)
  {
    LookupUnique(s.rows, r);
    FinishSound(s, r.id, status, evidence);
    ViewFinish(s, r, status, evidence);
    AmendmentsFinish(s, r, status, evidence);
    GroundedFinish(s, r, status, evidence);
  }

  /** Finishing a row that is no amendment, scope or fence keeps the budget, provided it is
      in order as an attempt and holds no more than before. */
  lemma {:induction false} FinishKeeps(s: State, r: Row, status: Status, evidence: Evidence)
    requires BudgetInv(s) && Finishable(s, r, status, evidence)
    requires var r' := r.(status := status, evidence := Some(evidence));
             r.payload.AttemptP? ==> AttemptOk(r') && HeldBy(r') <= HeldBy(r)
    ensures BudgetInv(Finish(s, r.id, status, evidence))
    ensures StageOf(Finish(s, r.id, status, evidence).rows) == StageOf(s.rows)
    ensures Total(Finish(s, r.id, status, evidence).rows, LOCAL_TRIAL) <= Total(s.rows, LOCAL_TRIAL)
  {
    var t := Finish(s, r.id, status, evidence);
    FinishChain(s, r, status, evidence);
    forall x | x in t.rows && x.payload.AttemptP? ensures AttemptOk(x) {
      FinishedMembers(s, r, status, evidence, x);
    }
    FinishUsage(s.rows, r, status, evidence, LOCAL_TRIAL);
    LookupFinish(s.rows, r.id, status, evidence, ScopeKey(LOCAL_TRIAL));
    assert AmendmentOk(r);
  }
}
