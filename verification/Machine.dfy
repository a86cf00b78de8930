/** The control plane as a state machine: one step is one committed transaction of any
    host, a refused or crashed transaction leaves the ledger as it was, and a run is any
    interleaving of steps from the empty ledger. */
module Machine {
  import opened Outcome
  import opened Ledger
  import opened Authority
  import opened Pricing
  import opened Reservation
  import opened BudgetSafety
  import opened BudgetSteps
  import opened AnalysisRun
  import opened AnalysisBudget
  import opened RunSafety
  import opened RunSteps

  datatype Step =
    | DoReserve(uuid: nat, scopeId: string, req: Request, policy: Policy, now: real, custody: bool)
    | DoReserveForSlot(uuid: nat, h: Handle, slot: nat, captured: Option<Payload>, req: Request, policy: Policy,
                       now: real, lockedNow: real, custody: bool)
    | DoSettle(permit: Permit, usage: Usage)
    | DoAmend(id: OpId, amendment: Payload)
    | DoCreate(h: Handle)
    | DoClaim(h: Handle, slot: nat, req: Request)
    | DoFinish(h: Handle, slot: nat, status: Status, checked: bool)
    | DoBindToken(h: Handle, slot: nat, token: string)
    | DoBindRun(h: Handle, policy: Policy, cap: Option<int>, deadline: real, now: real)
    | DoFence
    | DoAdmission(attempt: OpId, category: string)
    | DoIntent(text: string, kind: string, body: string)
    | DoReceipt(id: OpId, status: Status, body: string)
    | DoNote(kind: string, id: OpId)

  // ---- The other writers of the ledger ----

  function IdsInOrder(rows: seq<Row>): (r: seq<OpId>)
    ensures |r| == |rows| && forall i :: 0 <= i < |rows| ==> r[i] == rows[i].id
  {
    seq(|rows|, i requires 0 <= i < |rows| => rows[i].id)
  }

  /** The phase fence freezes the attempts made before it, at most fifteen. */
  function EnsureFence(s: State): Result<State> {
    match Lookup(s.rows, FenceKey)
    case Some(r) => if r.payload.FenceP? then Ok(s) else Err(BadValue)
    case None =>
      var inherited := IdsInOrder(Filter(s.rows, InScope(LOCAL_TRIAL)));
      :- Need(|inherited| <= 15, BadValue);
      Ok(Insert(s, Row(FenceKey, FenceP(inherited), Pending, None), []))
  }

  function Admit(s: State, attempt: OpId, category: string): Result<State> {
    var existing := Lookup(s.rows, AdmissionKey(attempt));
    :- Need(existing.None?, Error.Blocked);
    Ok(Insert(s, Row(AdmissionKey(attempt), AdmissionP(attempt, category), Pending, None), []))
  }

  /** Other host code finishes only its own operations. */
  function HostReceipt(s: State, id: OpId, status: Status, body: string): Result<State> {
    var r := Lookup(s.rows, id);
    :- Need(r.Some? && (r.value.payload.OtherP? || r.value.payload.AdmissionP?), Error.Conflict);
    RecordReceipt(s, id, status, OtherE(body))
  }

  function Try(s: State, step: Step): Result<State> {
    match step
    case DoReserve(uuid, scopeId, req, policy, now, custody) =>
      var r :- Reserve(s, uuid, scopeId, req, policy, now, custody, Ok(NO_GRANT));
      Ok(r.0)
    case DoReserveForSlot(uuid, h, i, captured, req, policy, now, lockedNow, custody) =>
      :- Need(i < SLOT_COUNT, BadValue);
      var r :- ReserveForSlot(s, uuid, h, i, captured, req, policy, now, lockedNow, custody);
      Ok(r.0)
    case DoSettle(permit, usage) => Settle(s, permit, usage)
    case DoAmend(id, p) => if IsAmendment(p) then Amend(s, id, p) else Err(BadValue)
    case DoCreate(h) => CreateRun(s, h)
    case DoClaim(h, i, req) => if i < SLOT_COUNT then Claim(s, h, i, req) else Err(BadValue)
    case DoFinish(h, i, status, checked) => if i < SLOT_COUNT then FinishSlot(s, h, i, status, checked) else Err(BadValue)
    case DoBindToken(h, i, token) => if i < SLOT_COUNT then BindToken(s, h, i, token) else Err(BadValue)
    case DoBindRun(h, policy, cap, deadline, now) => BindRun(s, h, policy, cap, deadline, now)
    case DoFence => EnsureFence(s)
    case DoAdmission(attempt, category) => Admit(s, attempt, category)
    case DoIntent(text, kind, body) => RecordIntent(s, Named(text), OtherP(kind, body))
    case DoReceipt(id, status, body) => HostReceipt(s, id, status, body)
    case DoNote(kind, id) => Ok(State(s.rows, s.events + [Note(kind, id)]))
  }

  function Apply(s: State, step: Step): State {
    match Try(s, step)
    case Ok(t) => t
    case Err(_) => s
  }

  function RunFrom(s: State, steps: seq<Step>): State {
    if steps == [] then s else Apply(RunFrom(s, steps[..|steps| - 1]), steps[|steps| - 1])
  }

  function Run(steps: seq<Step>): State {
    RunFrom(EMPTY, steps)
  }

  /** The fence is set up once, by the attempts there are, if they are at most fifteen; one that
      stands is left as it is. */
  lemma {:induction false} FenceDecides(s: State)
    ensures EnsureFence(s).Ok? <==>
            match Lookup(s.rows, FenceKey)
            case Some(r) => r.payload.FenceP?
            case None => Attempts(s.rows, "local-trial-1") <= 15
    ensures EnsureFence(s).Ok? && Lookup(s.rows, FenceKey).Some? ==> EnsureFence(s).value == s
    ensures EnsureFence(s).Ok? && Lookup(s.rows, FenceKey).None? ==>
              exists inherited: seq<OpId> ::
                && |inherited| == Attempts(s.rows, "local-trial-1")
                && (forall id :: id in inherited <==> exists r <- s.rows :: r.id == id && r.payload.AttemptP? && r.payload.scopeId == "local-trial-1")
                && EnsureFence(s).value == State(s.rows + [Row(FenceKey, FenceP(inherited), Pending, None)], s.events)
  {
    var held := Filter(s.rows, InScope(LOCAL_TRIAL));
    FilterMembers(s.rows, InScope(LOCAL_TRIAL));
    var inherited := IdsInOrder(held);
    forall id ensures id in inherited <==> exists r <- s.rows :: r.id == id && r.payload.AttemptP? && r.payload.scopeId == LOCAL_TRIAL {
      if r :| r in s.rows && r.id == id && r.payload.AttemptP? && r.payload.scopeId == LOCAL_TRIAL {
        assert InScope(LOCAL_TRIAL)(r);
        var k :| 0 <= k < |held| && held[k] == r;
        assert inherited[k] == id;
      }
      if id in inherited {
        var k :| 0 <= k < |inherited| && inherited[k] == id;
        assert held[k] in held && InScope(LOCAL_TRIAL)(held[k]);
      }
    }
    assert s.events + [] == s.events;
  }

  // ---- Every step keeps the invariant ----

  lemma {:induction false} FenceKeeps(s: State)
    requires LedgerInv(s) && EnsureFence(s).Ok?
    ensures LedgerInv(EnsureFence(s).value) && StageOf(EnsureFence(s).value.rows) == StageOf(s.rows)
  {
    if Lookup(s.rows, FenceKey).None? {
      var row := Row(FenceKey, FenceP(IdsInOrder(Filter(s.rows, InScope(LOCAL_TRIAL)))), Pending, None);
      InsertForeign(s, row);
      InsertInert(s.rows, row);
      assert EnsureFence(s).value == Insert(s, row, BirthEvents(row));
    }
  }

  lemma {:induction false} AdmitKeeps(s: State, attempt: OpId, category: string)
    requires LedgerInv(s) && Admit(s, attempt, category).Ok?
    ensures LedgerInv(Admit(s, attempt, category).value)
    ensures StageOf(Admit(s, attempt, category).value.rows) == StageOf(s.rows)
  {
    hide BudgetInv, RunInv, StageOf, Total;
    var row := Row(AdmissionKey(attempt), AdmissionP(attempt, category), Pending, None);
    assert Admit(s, attempt, category).value == Insert(s, row, BirthEvents(row));
    InsertForeign(s, row);
    InsertInert(s.rows, row);
  }

  lemma {:induction false} IntentKeeps(s: State, text: string, kind: string, body: string)
    requires LedgerInv(s) && RecordIntent(s, Named(text), OtherP(kind, body)).Ok?
    ensures LedgerInv(RecordIntent(s, Named(text), OtherP(kind, body)).value)
    ensures StageOf(RecordIntent(s, Named(text), OtherP(kind, body)).value.rows) == StageOf(s.rows)
  {
    IntentShape(s, text, kind, body);
    if Lookup(s.rows, Named(text)).None? {
      var row := Row(Named(text), OtherP(kind, body), Pending, None);
      InsertForeign(s, row);
      InsertInert(s.rows, row);
    }
  }

  lemma {:induction false} IntentShape(s: State, text: string, kind: string, body: string)
    requires RecordIntent(s, Named(text), OtherP(kind, body)).Ok?
    ensures var row := Row(Named(text), OtherP(kind, body), Pending, None);
            RecordIntent(s, Named(text), OtherP(kind, body)).value ==
            if Lookup(s.rows, Named(text)).None? then Insert(s, row, BirthEvents(row)) else s
  {
  }

  lemma {:induction false} ReceiptKeeps(s: State, id: OpId, status: Status, body: string)
    requires LedgerInv(s) && HostReceipt(s, id, status, body).Ok?
    ensures LedgerInv(HostReceipt(s, id, status, body).value)
    ensures StageOf(HostReceipt(s, id, status, body).value.rows) == StageOf(s.rows)
  {
    hide BudgetInv, RunInv, StageOf;
    var r := Lookup(s.rows, id).value;
    if r.status == Pending {
      FinishKeeps(s, r, status, OtherE(body));
      FinishRunInv(s.rows, r, status, OtherE(body));
    }
  }

  ghost predicate Forward(before: Stage, after: Stage, step: Step) {
    || after == before
    || (step.DoAmend? && IsAmendment(step.amendment) && before == StageBefore(step.amendment) && after == Next(before))
  }

  lemma {:induction false} ReservePlainKeeps(s: State, step: Step)
    requires LedgerInv(s) && step.DoReserve? && Try(s, step).Ok?
    ensures LedgerInv(Try(s, step).value) && StageOf(Try(s, step).value.rows) == StageOf(s.rows)
  {
    var _, _, _, _ := ReserveShape(s, step.uuid, step.scopeId, step.req, step.policy, step.now, step.custody, Ok(NO_GRANT));
    ReserveRunInv(s, step.uuid, step.scopeId, step.req, step.policy, step.now, step.custody, Ok(NO_GRANT));
    ReserveKeeps(s, step.uuid, step.scopeId, step.req, step.policy, step.now, step.custody, Ok(NO_GRANT));
  }

  lemma {:induction false} RunStepKeeps(s: State, step: Step)
    requires LedgerInv(s) && Try(s, step).Ok?
    requires step.DoCreate? || step.DoClaim? || step.DoFinish? || step.DoBindToken? || step.DoBindRun?
    ensures LedgerInv(Try(s, step).value) && StageOf(Try(s, step).value.rows) == StageOf(s.rows)
  {
    match step
    case DoCreate(h) => CreateKeeps(s, h);
    case DoClaim(h, i, req) => ClaimKeeps(s, h, i, req);
    case DoFinish(h, i, status, checked) => FinishSlotKeeps(s, h, i, status, checked);
    case DoBindToken(h, i, token) => BindTokenKeeps(s, h, i, token);
    case DoBindRun(h, policy, cap, deadline, now) => BindRunKeeps(s, h, policy, cap, deadline, now);
  }

  lemma {:induction false} HostStepKeeps(s: State, step: Step)
    requires LedgerInv(s) && Try(s, step).Ok?
    requires step.DoFence? || step.DoAdmission? || step.DoIntent? || step.DoReceipt? || step.DoNote?
    ensures LedgerInv(Try(s, step).value) && StageOf(Try(s, step).value.rows) == StageOf(s.rows)
  {
    match step
    case DoFence => FenceKeeps(s);
    case DoAdmission(attempt, category) => AdmitKeeps(s, attempt, category);
    case DoIntent(text, kind, body) => IntentKeeps(s, text, kind, body);
    case DoReceipt(id, status, body) => ReceiptKeeps(s, id, status, body);
    case DoNote(kind, id) => NoteChain(s, kind, id);
  }

  /** Every step of every host keeps the ledger's invariant, and the authority only ever
      moves one stage forward, by the amendment of its present stage. */
  lemma {:induction false} StepKeeps(s: State, step: Step)
    requires LedgerInv(s)
    ensures LedgerInv(Apply(s, step))
    ensures Forward(StageOf(s.rows), StageOf(Apply(s, step).rows), step)
  {
    if Try(s, step).Ok? {
      match step
      case DoReserve(_, _, _, _, _, _) => ReservePlainKeeps(s, step);
      case DoReserveForSlot(uuid, h, i, captured, req, policy, now, lockedNow, custody) =>
        ReserveForSlotKeeps(s, uuid, h, i, captured, req, policy, now, lockedNow, custody);
      case DoSettle(permit, usage) =>
        SettleRunInv(s, permit, usage);
        SettleKeeps(s, permit, usage);
      case DoAmend(id, p) =>
        AmendRunInv(s, id, p);
        AmendKeeps(s, id, p);
      case DoFence => HostStepKeeps(s, step);
      case DoAdmission(_, _) => HostStepKeeps(s, step);
      case DoIntent(_, _, _) => HostStepKeeps(s, step);
      case DoReceipt(_, _, _) => HostStepKeeps(s, step);
      case DoNote(_, _) => HostStepKeeps(s, step);
      case _ => RunStepKeeps(s, step);
    }
  }

  lemma {:induction false} EmptyInv()
    ensures LedgerInv(EMPTY)
  {
  }

  lemma {:induction false} RunFromKeeps(s: State, steps: seq<Step>)
    requires LedgerInv(s)
    ensures LedgerInv(RunFrom(s, steps))
  {
    if steps != [] {
      RunFromKeeps(s, steps[..|steps| - 1]);
      StepKeeps(RunFrom(s, steps[..|steps| - 1]), steps[|steps| - 1]);
    }
  }

  lemma {:induction false} Reachable(steps: seq<Step>)
    ensures LedgerInv(Run(steps))
  {
    EmptyInv();
    RunFromKeeps(EMPTY, steps);
  }
}
