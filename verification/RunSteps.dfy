/** Each transaction of an analysis run against the invariants of the shared ledger. */
module RunSteps {
  import opened Outcome
  import opened Ledger
  import opened Authority
  import opened Pricing
  import opened Reservation
  import opened BudgetSafety
  import opened BudgetSteps
  import opened AnalysisRun
  import opened AnalysisBudget
  import opened RunSafety

  /** What every reachable ledger satisfies. */
  ghost predicate LedgerInv(s: State) {
    BudgetInv(s) && RunInv(s.rows)
  }

  lemma {:induction false} StateRead(rows: seq<Row>, h: Handle, i: nat)
    requires AllKeyed(rows) && StateAt(rows, h, i).Ok?
    ensures StateAt(rows, h, i).value != NotRun ==> Claimed(rows, h.runId, i)
    ensures StateAt(rows, h, i).value == NotRun ==> Lookup(rows, ClaimKey(h.runId, i)).None?
    ensures Resolved(StateAt(rows, h, i).value) ==> Cleared(rows, h.runId, i)
    ensures Cleared(rows, h.runId, i) ==> Resolved(StateAt(rows, h, i).value)
    ensures Lookup(rows, SlotKey(h.runId, i)).Some? && Lookup(rows, SlotKey(h.runId, i)).value.payload == SlotP(h.runId, i, h.slots)
  {
  }

  // ---- Registration ----

  lemma {:induction false} RegisterInert(s: State, row: Row)
    requires LedgerInv(s) && Register(s, row).Ok?
    requires MayJoin(s.rows, row) && ForeignRow(row) && !row.payload.GatewayP?
    ensures LedgerInv(Register(s, row).value) && StageOf(Register(s, row).value.rows) == StageOf(s.rows)
  {
    InsertForeign(s, row);
    InsertInert(s.rows, row);
  }

  lemma {:induction false} RegisterSlot(s: State, h: Handle, i: nat)
    requires LedgerInv(s) && i < SLOT_COUNT
    requires Register(s, Row(SlotKey(h.runId, i), SlotP(h.runId, i, h.slots), Pending, None)).Ok?
    ensures var t := Register(s, Row(SlotKey(h.runId, i), SlotP(h.runId, i, h.slots), Pending, None)).value;
            LedgerInv(t) && StageOf(t.rows) == StageOf(s.rows)
  {
    RegisterInert(s, Row(SlotKey(h.runId, i), SlotP(h.runId, i, h.slots), Pending, None));
  }

  lemma {:induction false} RegisterSlotsKeeps(s: State, h: Handle, i: nat)
    requires LedgerInv(s) && i <= SLOT_COUNT && RegisterSlots(s, h, i).Ok?
    ensures LedgerInv(RegisterSlots(s, h, i).value) && StageOf(RegisterSlots(s, h, i).value.rows) == StageOf(s.rows)
    decreases SLOT_COUNT - i
  {
    hide LedgerInv, StageOf, Insert, ExpectedEvents;
    if i < SLOT_COUNT {
      RegisterSlot(s, h, i);
      RegisterSlotsKeeps(Register(s, Row(SlotKey(h.runId, i), SlotP(h.runId, i, h.slots), Pending, None)).value, h, i + 1);
    }
  }

  lemma {:induction false} CreateKeeps(s: State, h: Handle)
    requires LedgerInv(s) && CreateRun(s, h).Ok?
    ensures LedgerInv(CreateRun(s, h).value) && StageOf(CreateRun(s, h).value.rows) == StageOf(s.rows)
  {
    var row := Row(RunKey(h.runId), RunP(h), Pending, None);
    RegisterInert(s, row);
    RegisterSlotsKeeps(Register(s, row).value, h, 0);
  }

  // ---- Claims and outcomes ----

  ghost predicate Read(rows: seq<Row>, h: Handle, states: Result<seq<SlotState>>) {
    states.Ok? ==> |states.value| == SLOT_COUNT && forall k :: 0 <= k < SLOT_COUNT ==> StateAt(rows, h, k) == Ok(states.value[k])
  }

  /** What an accepted claim has checked and written. */
  lemma {:induction false} ClaimShape(s: State, h: Handle, i: nat, body: Request, read: Result<seq<SlotState>>)
    requires i < SLOT_COUNT && Read(s.rows, h, read) && ClaimWith(s, h, i, body, read).Ok?
    ensures StateAt(s.rows, h, i) == Ok(NotRun)
    ensures forall j: nat :: j < i ==> StateAt(s.rows, h, j).Ok? && Resolved(StateAt(s.rows, h, j).value)
    ensures Lookup(s.rows, ClaimKey(h.runId, i)).None?
    ensures ClaimWith(s, h, i, body, read).value == Insert(s, ClaimRow(h, i), BirthEvents(ClaimRow(h, i)))
  {
  }

  lemma {:induction false} ClaimAllowed(s: State, h: Handle, i: nat, body: Request)
    requires RunInv(s.rows) && i < SLOT_COUNT && Claim(s, h, i, body).Ok?
    ensures MayJoin(s.rows, ClaimRow(h, i))
    ensures Claim(s, h, i, body).value == Insert(s, ClaimRow(h, i), BirthEvents(ClaimRow(h, i)))
  {
    ClaimShape(s, h, i, body, CheckRun(s.rows, h));
    forall j: nat | j < i ensures Claimed(s.rows, h.runId, j) && Cleared(s.rows, h.runId, j) {
      StateRead(s.rows, h, j);
    }
  }

  lemma {:induction false} ClaimKeeps(s: State, h: Handle, i: nat, body: Request)
    requires LedgerInv(s) && i < SLOT_COUNT && Claim(s, h, i, body).Ok?
    ensures LedgerInv(Claim(s, h, i, body).value) && StageOf(Claim(s, h, i, body).value.rows) == StageOf(s.rows)
    ensures Claimed(Claim(s, h, i, body).value.rows, h.runId, i) && !Claimed(s.rows, h.runId, i)
  {
    hide BudgetInv, RunInv, StageOf, Claim;
    ClaimAllowed(s, h, i, body);
    hide Claim, BudgetInv, RunInv, StageOf;
    InsertForeign(s, ClaimRow(h, i));
    InsertInert(s.rows, ClaimRow(h, i));
    LookupInsert(s.rows, ClaimRow(h, i), ClaimKey(h.runId, i));
  }

  lemma {:induction false} UnclaimedIsNotRun(rows: seq<Row>, h: Handle, i: nat)
    requires AllKeyed(rows) && StateAt(rows, h, i).Ok?
    ensures StateAt(rows, h, i).value == NotRun <==> Lookup(rows, ClaimKey(h.runId, i)).None?
  {
  }

  /** On a run that reads, a claim is accepted if and only if the slot was never claimed, all
      earlier slots are done or failed, and the body is the slot's frozen request. */
  lemma {:induction false} ClaimAccepted(s: State, h: Handle, i: nat, body: Request)
    requires RunInv(s.rows) && i < SLOT_COUNT && CheckRun(s.rows, h).Ok?
    ensures Claim(s, h, i, body).Ok? <==>
            && Lookup(s.rows, ClaimKey(h.runId, i)).None?
            && (forall j: nat :: j < i ==> Cleared(s.rows, h.runId, j))
            && MatchesSlot(body, h.slots[i])
  {
    hide CheckRun, Cleared, Resolved, MatchesSlot, RunInv, ClaimWith;
    var states := CheckRun(s.rows, h).value;
    StatesMean(s.rows, h, states);
    ClaimDecides(s, h, i, body, states);
  }

  lemma {:induction false} StatesMean(rows: seq<Row>, h: Handle, states: seq<SlotState>)
    requires RunInv(rows) && |states| == SLOT_COUNT && forall k :: 0 <= k < SLOT_COUNT ==> StateAt(rows, h, k) == Ok(states[k])
    ensures forall j: nat :: j < SLOT_COUNT ==> (Resolved(states[j]) <==> Cleared(rows, h.runId, j))
    ensures forall j: nat :: j < SLOT_COUNT ==> (states[j] == NotRun <==> Lookup(rows, ClaimKey(h.runId, j)).None?)
  {
    assert AllKeyed(rows);
    hide StateAt, Cleared, Resolved, RunInv, AllKeyed;
    forall j: nat | j < SLOT_COUNT
      ensures Resolved(states[j]) <==> Cleared(rows, h.runId, j)
      ensures states[j] == NotRun <==> Lookup(rows, ClaimKey(h.runId, j)).None?
    {
      assert StateAt(rows, h, j) == Ok(states[j]);
      StateRead(rows, h, j);
      UnclaimedIsNotRun(rows, h, j);
    }
  }

  lemma {:induction false} ClaimDecides(s: State, h: Handle, i: nat, body: Request, states: seq<SlotState>)
    requires i < SLOT_COUNT == |states|
    ensures ClaimWith(s, h, i, body, Ok(states)).Ok? <==>
            && states[i] == NotRun && (forall j: nat :: j < i ==> Resolved(states[j]))
            && MatchesSlot(body, h.slots[i]) && Lookup(s.rows, ClaimKey(h.runId, i)).None?
  {
  }

  /** What an accepted outcome has checked and written. */
  lemma {:induction false} FinishSlotShape(s: State, h: Handle, i: nat, status: Status, checked: bool)
    requires i < SLOT_COUNT && FinishSlot(s, h, i, status, checked).Ok?
    ensures status != Pending
    ensures var slot := Lookup(s.rows, SlotKey(h.runId, i));
            && slot.Some? && slot.value.payload == SlotP(h.runId, i, h.slots)
            && Lookup(s.rows, ClaimKey(h.runId, i)).Some?
            && Lookup(s.rows, ClaimKey(h.runId, i)).value.payload == ClaimP(h.runId, i, h.slots)
            && FinishSlot(s, h, i, status, checked).value ==
               if slot.value.status != Pending then s else Finish(s, SlotKey(h.runId, i), status, HostStatusE(status))
  {
    var states := CheckRun(s.rows, h).value;
    assert StateAt(s.rows, h, i) == Ok(states[i]);
    hide CheckRun, Finish, StateAt;
    StartedSlot(s.rows, h, i);
  }

  lemma {:induction false} StartedSlot(rows: seq<Row>, h: Handle, i: nat)
    requires StateAt(rows, h, i).Ok?
    ensures var slot, claim := Lookup(rows, SlotKey(h.runId, i)), Lookup(rows, ClaimKey(h.runId, i));
            && slot.Some? && slot.value.payload == SlotP(h.runId, i, h.slots)
            && (StateAt(rows, h, i).value != NotRun ==> claim.Some? && claim.value.payload == ClaimP(h.runId, i, h.slots))
  {
  }

  lemma {:induction false} FinishSlotKeeps(s: State, h: Handle, i: nat, status: Status, checked: bool)
    requires LedgerInv(s) && i < SLOT_COUNT && FinishSlot(s, h, i, status, checked).Ok?
    ensures LedgerInv(FinishSlot(s, h, i, status, checked).value)
    ensures StageOf(FinishSlot(s, h, i, status, checked).value.rows) == StageOf(s.rows)
  {
    FinishSlotShape(s, h, i, status, checked);
    hide FinishSlot, BudgetInv, RunInv, StageOf, FinishRows;
    var row := Lookup(s.rows, SlotKey(h.runId, i)).value;
    if row.status == Pending {
      FinishKeeps(s, row, status, HostStatusE(status));
      FinishRunInv(s.rows, row, status, HostStatusE(status));
    }
  }

  // ---- Tokens ----

  function GateRow(h: Handle, i: nat, token: string): Row {
    Row(GatewayKey(h.runId, i), GatewayP(h.runId, i, h.slots, token), Pending, None)
  }

  function TokenRow(h: Handle, i: nat, token: string): Row {
    Row(TokenKey(token), TokenP(h.runId, i, h.slots, token), Pending, None)
  }

  /** The ledger with a row, inserted if it was missing. */
  function With(s: State, row: Row): State {
    if Lookup(s.rows, row.id).None? then Insert(s, row, BirthEvents(row)) else s
  }

  /** Both halves are there afterwards, whichever of them was missing. */
  lemma {:induction false} BindTokenShape(s: State, h: Handle, i: nat, token: string)
    requires i < SLOT_COUNT && BindToken(s, h, i, token).Ok?
    ensures var t := With(s, GateRow(h, i, token));
            var tok := TokenRow(h, i, token);
            && (Lookup(t.rows, tok.id).Some? ==> Lookup(t.rows, tok.id).value.payload == tok.payload)
            && BindToken(s, h, i, token).value == With(t, tok)
  {
    hide CheckRun, Insert, ExpectedEvents;
  }

  lemma {:induction false} WithHalf(s: State, row: Row)
    requires BudgetInv(s) && RunCore(s.rows)
    requires row.payload.GatewayP? || row.payload.TokenP?
    requires Keyed(row) && row.status == Pending && row.evidence == None && row.id != ScopeKey(LOCAL_TRIAL)
    ensures BudgetInv(With(s, row)) && RunCore(With(s, row).rows) && StageOf(With(s, row).rows) == StageOf(s.rows)
  {
    hide BudgetInv, RunCore, StageOf, Keyed, BirthEvents;
    if Lookup(s.rows, row.id).None? {
      InsertForeign(s, row);
      InsertCore(s.rows, row);
    }
  }

  lemma {:induction false} BindTokenKeeps(s: State, h: Handle, i: nat, token: string)
    requires LedgerInv(s) && i < SLOT_COUNT && BindToken(s, h, i, token).Ok?
    ensures LedgerInv(BindToken(s, h, i, token).value)
    ensures StageOf(BindToken(s, h, i, token).value.rows) == StageOf(s.rows)
  {
    hide BudgetInv, RunCore, StageOf, TokensMatch, With, BindToken;
    BindTokenShape(s, h, i, token);
    WithHalf(s, GateRow(h, i, token));
    WithHalf(With(s, GateRow(h, i, token)), TokenRow(h, i, token));
    TokensBound(s, GateRow(h, i, token), TokenRow(h, i, token));
  }

  lemma {:induction false} TokensBound(s: State, gate: Row, tok: Row)
    requires TokensMatch(s.rows) && gate.payload.GatewayP? && !tok.payload.GatewayP?
    requires tok.id == TokenKey(gate.payload.token)
    requires tok.payload == TokenP(gate.payload.run, gate.payload.index, gate.payload.slots, gate.payload.token)
    requires var k := Lookup(With(s, gate).rows, tok.id); k.Some? ==> k.value.payload == tok.payload
    ensures TokensMatch(With(With(s, gate), tok).rows)
  {
    hide BirthEvents;
    var gated := With(s, gate);
    var bound := With(gated, tok).rows;
    forall r | r in bound && r.payload.GatewayP?
      ensures var k := Lookup(bound, TokenKey(r.payload.token));
              k.Some? && k.value.payload == TokenP(r.payload.run, r.payload.index, r.payload.slots, r.payload.token)
    {
      assert r in s.rows || r == gate;
      LookupInsert(s.rows, gate, TokenKey(r.payload.token));
      LookupInsert(gated.rows, tok, TokenKey(r.payload.token));
      LookupInsert(gated.rows, tok, tok.id);
    }
  }

  /** A token is bound to one slot of one run, for ever. */
  lemma {:induction false} TokenNamesOneSlot(rows: seq<Row>, a: Row, b: Row)
    requires RunInv(rows) && a in rows && b in rows && a.payload.GatewayP? && b.payload.GatewayP?
    requires a.payload.token == b.payload.token
    ensures a == b
  {
    assert Keyed(a) && Keyed(b);
    LookupUnique(rows, a);
    LookupUnique(rows, b);
  }

  // ---- The run's budget ----

  lemma {:induction false} BindWithShape(s: State, h: Handle, policy: Policy, cap: Option<int>, deadline: real,
          now: real,
                      read: Result<seq<SlotState>>, scope: Result<seq<Row>>, present: Result<Limits>)
    requires BindWith(s, h, policy, cap, deadline, now, read, scope, present).Ok?
    ensures cap.Some? ==> cap.value > 0
    ensures scope.Ok?
    ensures var row := Row(BudgetKey(h.runId), BudgetP(h, cap, deadline, policy, scope.value), Pending, None);
            if Lookup(s.rows, BudgetKey(h.runId)).None?
            then BindWith(s, h, policy, cap, deadline, now, read, scope, present) == Register(s, row)
            else BindWith(s, h, policy, cap, deadline, now, read, scope, present) == Ok(s)
  {
  }

  lemma {:induction false} BindWithKeeps(s: State, h: Handle, policy: Policy, cap: Option<int>, deadline: real,
          now: real,
                      read: Result<seq<SlotState>>, scope: Result<seq<Row>>, present: Result<Limits>)
    requires LedgerInv(s) && BindWith(s, h, policy, cap, deadline, now, read, scope, present).Ok?
    ensures LedgerInv(BindWith(s, h, policy, cap, deadline, now, read, scope, present).value)
    ensures StageOf(BindWith(s, h, policy, cap, deadline, now, read, scope, present).value.rows) == StageOf(s.rows)
  {
    BindWithShape(s, h, policy, cap, deadline, now, read, scope, present);
    if Lookup(s.rows, BudgetKey(h.runId)).None? {
      RegisterInert(s, Row(BudgetKey(h.runId), BudgetP(h, cap, deadline, policy, scope.value), Pending, None));
    }
  }

  lemma {:induction false} BindRunKeeps(s: State, h: Handle, policy: Policy, cap: Option<int>, deadline: real,
          now: real)
    requires LedgerInv(s) && BindRun(s, h, policy, cap, deadline, now).Ok?
    ensures LedgerInv(BindRun(s, h, policy, cap, deadline, now).value)
    ensures StageOf(BindRun(s, h, policy, cap, deadline, now).value.rows) == StageOf(s.rows)
  {
    BindWithKeeps(s, h, policy, cap, deadline, now, CheckRun(s.rows, h), ScopeIdentity(s), EffectiveLimits(s));
  }

  /** A tagged reservation: claimed, ordered after every earlier attempt, all of them known,
      and within the cap. */
  ghost predicate MayTag(rows: seq<Row>, tag: SlotTag, amount: int) {
    && Claimed(rows, tag.run, tag.index) && tag.index < SLOT_COUNT
    && Bound(rows, tag.run)
    && (forall r :: r in RunAttempts(rows, tag.run) ==> KnownAttempt(r) && Tagged(r, tag.run) && r.payload.tag.value.index < tag.index)
    && (CapOf(rows, tag.run).Some? ==> RunTotal(rows, tag.run) + amount <= CapOf(rows, tag.run).value)
  }

  /** What an authorisation with a tag has checked. */
  lemma {:induction false} AuthorizedShape(rows: seq<Row>, h: Handle, i: nat, captured: Option<Payload>,
          body: Request, policy: Policy,
                        amount: int, now: real, read: Result<seq<SlotState>>, scope: Result<seq<Row>>)
    requires i < SLOT_COUNT && Read(rows, h, read) && AuthorizeWith(rows, h, i, captured, body, policy, amount, now, read, scope).Ok?
    requires AuthorizeWith(rows, h, i, captured, body, policy, amount, now, read, scope).value.tag.Some?
    ensures AuthorizeWith(rows, h, i, captured, body, policy, amount, now, read, scope).value.tag.value == SlotTag(h.runId, i)
    ensures Bound(rows, h.runId)
    ensures CapOf(rows, h.runId).Some? ==> RunTotal(rows, h.runId) + amount <= CapOf(rows, h.runId).value
    ensures StateAt(rows, h, i) == Ok(Unresolved)
    ensures forall r :: r in rows && TaggedWith(h.runId)(r) ==> Elsewhere(r, i) && KnownAttempt(r)
  {
    assert StateAt(rows, h, i) == Ok(read.value[i]);
  }

  lemma {:induction false} EarlierSlot(rows: seq<Row>, h: Handle, i: nat, j: nat)
    requires AllKeyed(rows) && Ordered(rows) && StateAt(rows, h, i) == Ok(Unresolved) && Claimed(rows, h.runId, j) && j != i
    ensures j < i
  {
    StateRead(rows, h, i);
  }

  lemma {:induction false} AuthorizedMayTag(rows: seq<Row>, h: Handle, i: nat, captured: Option<Payload>,
          body: Request, policy: Policy,
                         amount: int, now: real, read: Result<seq<SlotState>>, scope: Result<seq<Row>>)
    requires RunInv(rows) && i < SLOT_COUNT && Read(rows, h, read)
    requires AuthorizeWith(rows, h, i, captured, body, policy, amount, now, read, scope).Ok?
    requires AuthorizeWith(rows, h, i, captured, body, policy, amount, now, read, scope).value.tag.Some?
    ensures AuthorizeWith(rows, h, i, captured, body, policy, amount, now, read, scope).value.tag.value == SlotTag(h.runId, i)
    ensures MayTag(rows, SlotTag(h.runId, i), amount)
  {
    AuthorizedShape(rows, h, i, captured, body, policy, amount, now, read, scope);
    StateRead(rows, h, i);
    FilterMembers(rows, TaggedWith(h.runId));
    forall r | r in RunAttempts(rows, h.runId)
      ensures KnownAttempt(r) && Tagged(r, h.runId) && r.payload.tag.value.index < i
    {
      assert TaggedWith(h.runId)(r);
      EarlierSlot(rows, h, i, r.payload.tag.value.index);
    }
  }

  lemma {:induction false} AccountedJoin(rows: seq<Row>, row: Row, run: string)
    requires Accounted(rows, run) && Lookup(rows, row.id).None? && row.id.AttemptKey?
    requires row.payload.AttemptP? && row.status == Pending && row.evidence == None
    requires Tagged(row, run) ==> MayTag(rows, row.payload.tag.value, row.payload.reserved)
    ensures Accounted(rows + [row], run)
  {
    if Tagged(row, run) {
      InsertAttemptsOf(rows, row, run);
      InsertKeepsBound(rows, row, run);
      TagSequenced(rows, row, run);
    } else {
      AccountedInsert(rows, row, run);
    }
  }

  lemma {:induction false} AttemptJoins(rows: seq<Row>, row: Row)
    requires RunInv(rows) && Lookup(rows, row.id).None? && row.id.AttemptKey?
    requires row.payload.AttemptP? && row.status == Pending && row.evidence == None
    requires row.payload.tag.Some? ==> MayTag(rows, row.payload.tag.value, row.payload.reserved)
    ensures RunInv(rows + [row])
  {
    UniqueInsert(rows, row);
    OrderInsert(rows, row);
    OutcomesInsert(rows, row);
    TokensInsert(rows, row);
    forall run ensures Accounted(rows + [row], run) {
      AccountedJoin(rows, row, run);
    }
  }

  lemma {:induction false} TagSequenced(rows: seq<Row>, row: Row, run: string)
    requires Sequenced(RunAttempts(rows, run), run) && Tagged(row, run)
    requires MayTag(rows, row.payload.tag.value, row.payload.reserved)
    ensures Sequenced(RunAttempts(rows, run) + [row], run)
  {
    var attempts := RunAttempts(rows, run);
    forall k | 0 <= k < |attempts| ensures KnownAttempt(attempts[k]) && attempts[k].payload.tag.value.index < row.payload.tag.value.index {
      assert attempts[k] in attempts;
    }
  }

  /** The scope row a first reservation opens is of no concern to runs. */
  lemma {:induction false} OpenedRunInv(s: State, policyAttempts: Option<int>, policy: Policy, tag: Option<SlotTag>,
          amount: int)
    requires RunInv(s.rows) && (tag.Some? ==> MayTag(s.rows, tag.value, amount))
    ensures RunInv(Opened(s, policyAttempts, policy).rows)
    ensures tag.Some? ==> MayTag(Opened(s, policyAttempts, policy).rows, tag.value, amount)
  {
    if Lookup(s.rows, ScopeKey(LOCAL_TRIAL)).None? {
      var row := Row(ScopeKey(LOCAL_TRIAL), OpeningScope(policyAttempts, policy.budget), Pending, None);
      InsertInert(s.rows, row);
      if tag.Some? {
        InsertAttemptsOf(s.rows, row, tag.value.run);
        InsertKeepsBound(s.rows, row, tag.value.run);
        InsertKeepsClaims(s.rows, row, tag.value.run, tag.value.index);
      }
    }
  }

  lemma {:induction false} ReserveRunInv(s: State, uuid: nat, scopeId: string, req: Request, policy: Policy, now: real,
                      custody: bool, grant: Result<Grant>)
    requires LedgerInv(s) && grant.Ok? && Reserve(s, uuid, scopeId, req, policy, now, custody, grant).Ok?
    requires grant.value.tag.Some? ==> Quote(req, policy).Ok? && MayTag(s.rows, grant.value.tag.value, Quote(req, policy).value)
    ensures LedgerInv(Reserve(s, uuid, scopeId, req, policy, now, custody, grant).value.0)
  {
    ReserveKeeps(s, uuid, scopeId, req, policy, now, custody, grant);
    var policyAttempts, amount, scope, limits := ReserveShape(s, uuid, scopeId, req, policy, now, custody, grant);
    OpenedRunInv(s, policyAttempts, policy, grant.value.tag, amount);
    AttemptJoins(Opened(s, policyAttempts, policy).rows, Reserved(uuid, req, policy, now, grant.value, amount));
  }

  lemma {:induction false} ReserveForSlotKeeps(s: State, uuid: nat, h: Handle, i: nat, captured: Option<Payload>,
          req: Request,
                            policy: Policy, now: real, lockedNow: real, custody: bool)
    requires LedgerInv(s) && i < SLOT_COUNT
    requires ReserveForSlot(s, uuid, h, i, captured, req, policy, now, lockedNow, custody).Ok?
    ensures LedgerInv(ReserveForSlot(s, uuid, h, i, captured, req, policy, now, lockedNow, custody).value.0)
    ensures StageOf(ReserveForSlot(s, uuid, h, i, captured, req, policy, now, lockedNow, custody).value.0.rows) == StageOf(s.rows)
  {
    var amount := Quote(req, policy).value;
    var grant := Authorize(s, h, i, captured, req, policy, amount, lockedNow);
    var _, _, _, _ := ReserveShape(s, uuid, LOCAL_TRIAL, req, policy, now, custody, grant);
    if grant.value.tag.Some? {
      AuthorizedMayTag(s.rows, h, i, captured, req, policy, amount, lockedNow, CheckRun(s.rows, h), ScopeIdentity(s));
    }
    ReserveRunInv(s, uuid, LOCAL_TRIAL, req, policy, now, custody, grant);
    ReserveKeeps(s, uuid, LOCAL_TRIAL, req, policy, now, custody, grant);
  }

  lemma {:induction false} SettleRunInv(s: State, permit: Permit, usage: Usage)
    requires LedgerInv(s) && Settle(s, permit, usage).Ok?
    ensures LedgerInv(Settle(s, permit, usage).value)
  {
    SettleKeeps(s, permit, usage);
    SettleShape(s, permit, usage);
    var row := Lookup(s.rows, permit.attempt).value;
    if row.status == Pending {
      var r := Receipted(row.payload, usage).value;
      hide BudgetInv, RunInv, FinishRows, Receipted, AttemptOk, Settle, StageOf, Total, Attempts;
      FinishRunInv(s.rows, row, r.0, r.1);
    }
  }

  lemma {:induction false} AmendRunInv(s: State, id: OpId, p: Payload)
    requires LedgerInv(s) && IsAmendment(p) && Amend(s, id, p).Ok?
    ensures LedgerInv(Amend(s, id, p).value)
  {
    AmendKeeps(s, id, p);
    if Lookup(s.rows, id).None? {
      InsertInert(s.rows, AmendmentRow(id, p));
    }
  }
}
