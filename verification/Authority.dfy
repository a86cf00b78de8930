/** The effective limits of the local trial, derived from immutable rows and approval
    events, and the four one-way amendments that change them. */
module Authority {
  import opened Outcome
  import opened Ledger

  const FIRST_BUDGET := 10_000_000
  const SECOND_BUDGET := 20_000_000
  const FINITE_BUDGET := 50_000_000
  const TRIAL_ATTEMPTS := 100

  /** Effective limits; `phased` says the phase allocations still apply. */
  datatype Limits = Limits(maxAttempts: Option<int>, budget: Option<int>, phased: bool)

  /** White space as str.strip sees it. */
  predicate IsSpace(c: char) {
    var n := c as int;
    || 9 <= n <= 13 || 28 <= n <= 32 || n == 0x85 || n == 0xa0 || n == 0x1680
    || 0x2000 <= n <= 0x200a || n == 0x2028 || n == 0x2029 || n == 0x202f || n == 0x205f || n == 0x3000
  }

  predicate TrustedReference(s: string, maximum: nat) {
    && 0 < |s| <= maximum
    && !IsSpace(s[0]) && !IsSpace(s[|s| - 1])
    && forall c :: c in s ==> c as int >= 32 && c as int != 127
  }

  /** Structured identifiers are short and printable; a named one is checked. */
  predicate TrustedId(id: OpId) {
    id.Named? ==> TrustedReference(id.text, 128)
  }

  // ---- Usage already held ----

  function InScope(scope: string): Row -> bool {
    (r: Row) => r.payload.AttemptP? && r.payload.scopeId == scope
  }

  /** What an attempt holds: its charge when finished, else its reservation. */
  function HeldBy(r: Row): int
    requires r.payload.AttemptP?
  {
    if r.evidence.Some? && r.evidence.value.AttemptE? then r.evidence.value.charged else r.payload.reserved
  }

  function Held(scope: string): Row -> int {
    (r: Row) => if InScope(scope)(r) then HeldBy(r) else 0
  }

  function Attempts(rows: seq<Row>, scope: string): nat {
    |Filter(rows, InScope(scope))|
  }

  function Total(rows: seq<Row>, scope: string): int {
    Sum(rows, Held(scope))
  }

  // ---- Limits from rows and events ----

  function ScopePayload(row: Option<Row>): Result<Payload> {
    if row.None? then Err(Denied)
    else if !row.value.payload.ScopeP? then Err(Error.Conflict)
    else
      var p := row.value.payload;
      :- Need(0 < p.maxAttempts <= TRIAL_ATTEMPTS && 0 < p.budget <= FIRST_BUDGET
              && row.value.status == Pending && row.value.evidence == None, Denied);
      Ok(p)
  }

  predicate ValidV1(p: Payload) {
    && p.AmendV1P? && p.scopeId == LOCAL_TRIAL && p.approved && TrustedReference(p.reference, 512)
    && p.expectedOriginal == FIRST_BUDGET && p.expectedEffective == FIRST_BUDGET && p.newBudget == SECOND_BUDGET
  }

  predicate ValidV2(p: Payload) {
    && p.AmendV2P? && p.scopeId == LOCAL_TRIAL && p.approved && TrustedReference(p.reference, 512)
    && p.version == 2 && p.expectedOriginal == FIRST_BUDGET && p.expectedEffective == SECOND_BUDGET
    && p.expectedMaxAttempts == TRIAL_ATTEMPTS && p.newBudget == SECOND_BUDGET && p.noAttemptLimit && p.noPhases
  }

  predicate ValidV3(p: Payload) {
    p.AmendV3P? && p.scopeId == LOCAL_TRIAL && p.approved && TrustedReference(p.reference, 512)
  }

  predicate ValidV4(p: Payload) {
    p.AmendV4P? && p.scopeId == LOCAL_TRIAL && p.approved && TrustedReference(p.reference, 512)
  }

  predicate IsAmendment(p: Payload) {
    p.AmendV1P? || p.AmendV2P? || p.AmendV3P? || p.AmendV4P?
  }

  predicate ValidAmendment(p: Payload) {
    ValidV1(p) || ValidV2(p) || ValidV3(p) || ValidV4(p)
  }

  /** The receipt an approved amendment carries. */
  function Approval(p: Payload): Evidence
    requires IsAmendment(p)
  {
    match p
    case AmendV1P(_, _, _, b, reference, ok) => AmendV1E(ok, b, reference)
    case AmendV2P(v, _, _, _, _, b, noAttempts, noPhases, reference, ok) => AmendE(v, ok, Some(b), noAttempts, noPhases, reference)
    case AmendV3P(_, reference, ok) => AmendE(3, ok, None, true, true, reference)
    case AmendV4P(_, reference, ok) => AmendE(4, ok, Some(FINITE_BUDGET), true, true, reference)
  }

  function AmendmentRow(id: OpId, p: Payload): Row
    requires IsAmendment(p)
  {
    Row(id, p, Done, Some(Approval(p)))
  }

  /** The row is finished with its approval receipt, and its audit events agree. */
  predicate Approved(row: Row, audit: seq<Event>)
    requires IsAmendment(row.payload)
  {
    && ValidAmendment(row.payload)
    && TrustedId(row.id)
    && row == AmendmentRow(row.id, row.payload)
    && audit == [Intent(row.id, row.payload), Receipt(row.id, Done, Approval(row.payload))]
  }

  function EffectiveBudget(s: State, scope: Payload): Result<int>
    requires scope.ScopeP?
  {
    var v1 := OfKind(s.rows, V1K);
    if v1 == [] then Ok(scope.budget)
    else
      :- Need(|v1| == 1 && scope.budget == FIRST_BUDGET, Denied);
      :- Need(v1[0].payload.AmendV1P? && Approved(v1[0], EventsOf(s.events, v1[0].id)), Denied);
      Ok(v1[0].payload.newBudget)
  }

  /** The original phase fence is in place: pending, at most fifteen distinct inherited attempts. */
  predicate FenceStands(rows: seq<Row>) {
    match Lookup(rows, FenceKey)
    case None => false
    case Some(r) =>
      && r.payload.FenceP? && r.status == Pending && r.evidence == None
      && |r.payload.inherited| <= 15
      && (forall id :: id in r.payload.inherited ==> TrustedId(id))
      && (forall i, j :: 0 <= i < j < |r.payload.inherited| ==> r.payload.inherited[i] != r.payload.inherited[j])
  }

  const FEE_ONLY := Limits(None, Some(SECOND_BUDGET), false)
  const UNCAPPED := Limits(None, None, false)
  const FINITE := Limits(None, Some(FINITE_BUDGET), false)

  function FeeOnlyLimits(s: State, scope: Payload): Result<Limits>
    requires scope.ScopeP?
  {
    var effective :- EffectiveBudget(s, scope);
    var v2 := OfKind(s.rows, V2K);
    if v2 == [] then Ok(Limits(Some(scope.maxAttempts), Some(effective), true))
    else
      :- Need(|v2| == 1 && scope == ScopeP(TRIAL_ATTEMPTS, FIRST_BUDGET) && effective == SECOND_BUDGET, Denied);
      :- Need(FenceStands(s.rows), Denied);
      :- Need(v2[0].payload.AmendV2P? && Approved(v2[0], EventsOf(s.events, v2[0].id)), Denied);
      Ok(FEE_ONLY)
  }

  function UncappedLimits(s: State, scope: Payload): Result<Limits>
    requires scope.ScopeP?
  {
    var limits :- FeeOnlyLimits(s, scope);
    var v3 := OfKind(s.rows, V3K);
    if v3 == [] then Ok(limits)
    else
      :- Need(|v3| == 1 && limits == FEE_ONLY, Denied);
      :- Need(v3[0].payload.AmendV3P? && Approved(v3[0], EventsOf(s.events, v3[0].id)), Denied);
      Ok(UNCAPPED)
  }

  /** The event claims to belong to a finite amendment, whatever operation it names. */
  predicate DeclaresFinite(e: Event) {
    || (e.Intent? && e.payload.AmendV4P?)
    || (e.Receipt? && e.evidence.AmendE? && e.evidence.version == 4)
  }

  function FiniteEvents(events: seq<Event>, ids: set<OpId>): seq<Event> {
    if events == [] then []
    else
      var last := events[|events| - 1];
      FiniteEvents(events[..|events| - 1], ids) +
      if !last.Note? && (DeclaresFinite(last) || last.id in ids) then [last] else []
  }

  function Ids(rows: seq<Row>): set<OpId> {
    set r | r in rows :: r.id
  }

  function TrialLimits(s: State, scope: Payload): Result<Limits>
    requires scope.ScopeP?
  {
    var limits :- UncappedLimits(s, scope);
    var v4 := OfKind(s.rows, V4K);
    var audit := FiniteEvents(s.events, Ids(v4));
    if v4 == [] then
      :- Need(audit == [], Denied);
      Ok(limits)
    else
      :- Need(|v4| == 1 && limits == UNCAPPED, Denied);
      :- Need(v4[0].payload.AmendV4P? && Approved(v4[0], audit), Denied);
      Ok(FINITE)
  }

  /** Limits a host reads from a snapshot; a missing scope has the opening limits. */
  function EffectiveLimits(s: State): Result<Limits> {
    match Lookup(s.rows, ScopeKey(LOCAL_TRIAL))
    case None =>
      :- Need(OfKind(s.rows, V1K) == [] && OfKind(s.rows, V2K) == [] && OfKind(s.rows, V3K) == []
              && OfKind(s.rows, V4K) == [], Denied);
      Ok(Limits(Some(TRIAL_ATTEMPTS), Some(FIRST_BUDGET), true))
    case Some(r) =>
      var scope :- ScopePayload(Some(r));
      TrialLimits(s, scope)
  }

  // ---- The amendments ----

  predicate PendingTransport(r: Row, scope: Option<string>) {
    && r.status == Pending
    && (|| r.payload.AdmissionP?
        || (r.payload.AttemptP? && (scope.None? || r.payload.scopeId == scope.value)))
  }

  function Amended(s: State, id: OpId, p: Payload): State
    requires IsAmendment(p)
  {
    Insert(s, AmendmentRow(id, p), [Intent(id, p), Receipt(id, Done, Approval(p))])
  }

  function AmendV1(s: State, id: OpId, p: Payload): Result<State>
    requires p.AmendV1P?
  {
    var trusted := ValidV1(p) && TrustedId(id);
    :- Need(trusted, Denied);
    var scope :- ScopePayload(Lookup(s.rows, ScopeKey(p.scopeId)));
    var existing := Lookup(s.rows, id);
    :- Need(existing.None? || existing.value.payload == p, Error.Conflict);
    var effective :- EffectiveBudget(s, scope);
    if existing.Some? then Ok(s)
    else
      :- Need(scope.budget == p.expectedOriginal, Denied);
      :- Need(effective == p.expectedEffective, Error.Conflict);
      Ok(Amended(s, id, p))
  }

  /** The rest of amendment 2, once the present limits are known. */
  function ConcludeV2(s: State, id: OpId, p: Payload, scope: Payload, limits: Limits): Result<State>
    requires p.AmendV2P?
  {
    var existing := Lookup(s.rows, id);
    if existing.Some? then Ok(s)
    else
      :- Need(limits.maxAttempts.Some?, Error.Conflict);
      :- Need(scope == ScopeP(TRIAL_ATTEMPTS, FIRST_BUDGET)
              && limits == Limits(Some(TRIAL_ATTEMPTS), Some(SECOND_BUDGET), true), Denied);
      :- Need(FenceStands(s.rows), Denied);
      :- Need(forall r :: r in s.rows ==> !PendingTransport(r, Some(p.scopeId)), Denied);
      Ok(Amended(s, id, p))
  }

  function AmendV2(s: State, id: OpId, p: Payload): Result<State>
    requires p.AmendV2P?
  {
    var trusted := ValidV2(p) && TrustedId(id);
    :- Need(trusted, Denied);
    var scope :- ScopePayload(Lookup(s.rows, ScopeKey(p.scopeId)));
    var existing := Lookup(s.rows, id);
    :- Need(existing.None? || existing.value.payload == p, Error.Conflict);
    var limits :- TrialLimits(s, scope);
    ConcludeV2(s, id, p, scope, limits)
  }

  /** The rest of amendment 3, once the present limits are known. */
  function ConcludeV3(s: State, id: OpId, p: Payload, limits: Limits): Result<State>
    requires p.AmendV3P?
  {
    var existing := Lookup(s.rows, id);
    if existing.Some? then
      :- Need(existing.value.payload == p, Error.Conflict);
      Ok(s)
    else
      :- Need(limits.budget.Some?, Error.Conflict);
      :- Need(limits == FEE_ONLY, Denied);
      :- Need(forall r :: r in s.rows ==> !PendingTransport(r, None), Denied);
      Ok(Amended(s, id, p))
  }

  function AmendV3(s: State, id: OpId, p: Payload): Result<State>
    requires p.AmendV3P?
  {
    var trusted := ValidV3(p) && TrustedId(id);
    :- Need(trusted, Denied);
    var scope :- ScopePayload(Lookup(s.rows, ScopeKey(p.scopeId)));
    var limits :- TrialLimits(s, scope);
    ConcludeV3(s, id, p, limits)
  }

  /** The rest of amendment 4, once the present limits are known. */
  function ConcludeV4(s: State, id: OpId, p: Payload, limits: Limits): Result<State>
    requires p.AmendV4P?
  {
    var existing := Lookup(s.rows, id);
    if existing.Some? then
      :- Need(existing.value.payload == p, Error.Conflict);
      Ok(s)
    else
      :- Need(limits.budget != Some(FINITE_BUDGET), Error.Conflict);
      :- Need(limits == UNCAPPED, Denied);
      :- Need(forall r :: r in s.rows ==> !PendingTransport(r, None), Denied);
      :- Need(Total(s.rows, p.scopeId) <= FINITE_BUDGET, Denied);
      Ok(Amended(s, id, p))
  }

  function AmendV4(s: State, id: OpId, p: Payload): Result<State>
    requires p.AmendV4P?
  {
    var trusted := ValidV4(p) && TrustedId(id);
    :- Need(trusted, Denied);
    var scope :- ScopePayload(Lookup(s.rows, ScopeKey(p.scopeId)));
    var limits :- TrialLimits(s, scope);
    ConcludeV4(s, id, p, limits)
  }

  function Amend(s: State, id: OpId, p: Payload): Result<State>
    requires IsAmendment(p)
  {
    if p.AmendV1P? then AmendV1(s, id, p)
    else if p.AmendV2P? then AmendV2(s, id, p)
    else if p.AmendV3P? then AmendV3(s, id, p)
    else AmendV4(s, id, p)
  }
}
