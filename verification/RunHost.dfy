/** Analysis runs as the host drives them: a run handle and a slot's budget context over
    one ledger, every method one transaction. */
module RunHost {
  import opened Outcome
  import opened Ledger
  import opened Authority
  import opened Pricing
  import opened Reservation
  import opened BudgetSafety
  import opened BudgetSteps
  import opened AnalysisRun
  import opened AnalysisBudget
  import opened RunSafety
  import opened RunSteps
  import opened RunDecisions
  import opened LedgerStore

  /** What is read so far, before the rest. */
  function Joined(states: seq<SlotState>, rest: Result<seq<SlotState>>): Result<seq<SlotState>> {
    var r :- rest;
    Ok(states + r)
  }

  lemma {:induction false} JoinedNone(rest: Result<seq<SlotState>>)
    ensures Joined([], rest) == rest
  {
    if rest.Ok? {
      assert [] + rest.value == rest.value;
    }
  }

  lemma {:induction false} JoinedAll(rows: seq<Row>, h: Handle, states: seq<SlotState>)
    ensures Joined(states, StatesFrom(rows, h, SLOT_COUNT)) == Ok(states)
  {
    assert states + [] == states;
  }

  lemma {:induction false} StatesNext(rows: seq<Row>, h: Handle, states: seq<SlotState>, i: nat)
    requires i < SLOT_COUNT
    ensures Joined(states, StatesFrom(rows, h, i)) ==
            match StateAt(rows, h, i)
            case Err(e) => Err(e)
            case Ok(st) => Joined(states + [st], StatesFrom(rows, h, i + 1))
  {
    hide StateAt;
    var rest := StatesFrom(rows, h, i + 1);
    if StateAt(rows, h, i).Ok? && rest.Ok? {
      assert states + ([StateAt(rows, h, i).value] + rest.value) == states + [StateAt(rows, h, i).value] + rest.value;
    }
  }

  lemma {:induction false} SlotsNext(s: State, h: Handle, i: nat)
    requires i < SLOT_COUNT
    ensures RegisterSlots(s, h, i) ==
            match Register(s, Row(SlotKey(h.runId, i), SlotP(h.runId, i, h.slots), Pending, None))
            case Err(e) => Err(e)
            case Ok(t) => RegisterSlots(t, h, i + 1)
  {
  }

  class AnalysisRunHost {
    const ledger: LedgerStore
    const h: Handle

    constructor (ledger: LedgerStore, h: Handle)
      ensures this.ledger == ledger && this.h == h
    {
      this.ledger, this.h := ledger, h;
    }

    /** The run's identity and all thirty slot states, read in one transaction. */
    method Check() returns (r: Result<seq<SlotState>>)
      ensures r == CheckRun(ledger.rows, h)
    {
      hide StateAt, StatesFrom, Joined;
      var run := Lookup(ledger.rows, RunKey(h.runId));
      if run.None? || run.value.payload != RunP(h) {
        return Err(Error.Conflict);
      }
      if run.value.status != Pending || run.value.evidence != None {
        return Err(Error.Blocked);
      }
      var states: seq<SlotState> := [];
      JoinedNone(StatesFrom(ledger.rows, h, 0));
      for i := 0 to SLOT_COUNT
        invariant CheckRun(ledger.rows, h) == Joined(states, StatesFrom(ledger.rows, h, i))
      {
        StatesNext(ledger.rows, h, states, i);
        var st :- StateAt(ledger.rows, h, i);
        states := states + [st];
      }
      JoinedAll(ledger.rows, h, states);
      r := Ok(states);
    }

    /** INSERT with its intent; a taken identifier is a storage error. */
    method Insert(row: Row) returns (r: Result<()>)
      modifies ledger
      ensures match Register(old(ledger.Contents()), row)
              case Ok(t) => ledger.Contents() == t && r == Ok(())
              case Err(e) => ledger.Contents() == old(ledger.Contents()) && r == Err(e)
    {
      if Lookup(ledger.rows, row.id).Some? {
        return Err(Error.Blocked);
      }
      ledger.InsertRow(row, ExpectedEvents(Some(row)));
      r := Ok(());
    }

    /** Register the run and its slots; all of them or none. */
    method Create() returns (r: Result<()>)
      modifies ledger
      ensures match CreateRun(old(ledger.Contents()), h)
              case Ok(t) => ledger.Contents() == t && r == Ok(())
              case Err(e) => ledger.Contents() == old(ledger.Contents()) && r == Err(e)
    {
      hide Register;
      var before := ledger.Contents();
      if Lookup(ledger.rows, RunKey(h.runId)).Some? {
        return Err(Error.Conflict);
      }
      var _ :- Insert(Row(RunKey(h.runId), RunP(h), Pending, None));
      for i := 0 to SLOT_COUNT
        invariant CreateRun(before, h) == RegisterSlots(ledger.Contents(), h, i)
      {
        SlotsNext(ledger.Contents(), h, i);
        var slot := Insert(Row(SlotKey(h.runId, i), SlotP(h.runId, i, h.slots), Pending, None));
        if slot.Err? {
          ledger.Rollback(before);
          return slot;
        }
      }
      r := Ok(());
    }

    /** A claim is inserted pending and finished in the same transaction. */
    method WriteClaim(i: nat) returns (r: Result<()>)
      modifies ledger
      ensures match Register(old(ledger.Contents()), ClaimRow(h, i))
              case Ok(t) => ledger.Contents() == t && r == Ok(())
              case Err(e) => ledger.Contents() == old(ledger.Contents()) && r == Err(e)
    {
      var pending := Row(ClaimKey(h.runId, i), ClaimP(h.runId, i, h.slots), Pending, None);
      ghost var rows := ledger.rows;
      var _ :- Insert(pending);
      FinishInserted(rows, pending, Done, AdmittedE);
      ledger.UpdateRow(pending.id, Done, AdmittedE);
      r := Ok(());
    }

    method PrecedingResolved(states: seq<SlotState>, i: nat) returns (ok: bool)
      requires i <= |states|
      ensures ok <==> Preceding(states, i)
    {
      for j := 0 to i
        invariant Preceding(states, j)
      {
        if !Resolved(states[j]) {
          return false;
        }
      }
      ok := true;
    }

    /** Admit one slot: its claim is inserted and finished before any request may be sent. */
    method Admit(i: nat, body: Request) returns (r: Result<()>)
      requires i < SLOT_COUNT
      modifies ledger
      ensures match Claim(old(ledger.Contents()), h, i, body)
              case Ok(t) => ledger.Contents() == t && r == Ok(())
              case Err(e) => ledger.Contents() == old(ledger.Contents()) && r == Err(e)
      ensures old(LedgerInv(ledger.Contents())) ==> LedgerInv(ledger.Contents())
    {
      hide CheckRun, LedgerInv, MatchesSlot, Register, Preceding;
      ghost var before := ledger.Contents();
      var states :- Check();
      var ordered := PrecedingResolved(states, i);
      :- Need(states[i] == NotRun && ordered, Error.Conflict);
      :- Need(MatchesSlot(body, h.slots[i]), BadValue);
      var _ :- WriteClaim(i);
      r := Ok(());
      if LedgerInv(before) {
        ClaimKeeps(before, h, i, body);
      }
    }

    /** Record an outcome; `checked` and `rechecked` are the host's checks before and after
        the write, and a failed one rolls the write back. */
    method Finish(i: nat, status: Status, checked: bool, rechecked: bool) returns (r: Result<()>)
      requires i < SLOT_COUNT
      modifies ledger
      ensures match FinishSlot(old(ledger.Contents()), h, i, status, checked && rechecked)
              case Ok(t) => ledger.Contents() == t && r == Ok(())
              case Err(e) => ledger.Contents() == old(ledger.Contents()) && r == Err(e)
      ensures old(LedgerInv(ledger.Contents())) ==> LedgerInv(ledger.Contents())
    {
      hide CheckRun, LedgerInv, FinishRows;
      var before := ledger.Contents();
      :- Need(status != Pending, BadValue);
      var states :- Check();
      var row := Lookup(ledger.rows, SlotKey(h.runId, i));
      var recorded := match row case None => Pending case Some(slot) => slot.status;
      :- Need(states[i] != NotRun, Error.Conflict);
      if recorded != Pending {
        :- Need(recorded == status, Error.Conflict);
        return Ok(());
      }
      :- Need(checked, Denied);
      ledger.UpdateRow(SlotKey(h.runId, i), status, HostStatusE(status));
      if !rechecked {
        ledger.Rollback(before);
        return Err(Denied);
      }
      r := Ok(());
      if LedgerInv(before) {
        FinishSlotKeeps(before, h, i, status, true);
      }
    }

    /** Bind a private token to a slot, both ways or not at all. */
    method Gateway(i: nat, token: string) returns (r: Result<()>)
      requires i < SLOT_COUNT
      modifies ledger
      ensures match BindToken(old(ledger.Contents()), h, i, token)
              case Ok(t) => ledger.Contents() == t && r == Ok(())
              case Err(e) => ledger.Contents() == old(ledger.Contents()) && r == Err(e)
      ensures old(LedgerInv(ledger.Contents())) ==> LedgerInv(ledger.Contents())
    {
      hide CheckRun, LedgerInv, Register;
      var before := ledger.Contents();
      var _ :- Check();
      var bindings := [(GatewayKey(h.runId, i), GatewayP(h.runId, i, h.slots, token)),
                       (TokenKey(token), TokenP(h.runId, i, h.slots, token))];
      var first := Half(bindings[0].0, bindings[0].1);
      if first.Err? {
        return first;
      }
      var second := Half(bindings[1].0, bindings[1].1);
      if second.Err? {
        ledger.Rollback(before);
        return second;
      }
      r := Ok(());
      if LedgerInv(before) {
        BindTokenKeeps(before, h, i, token);
      }
    }

    method Half(id: OpId, p: Payload) returns (r: Result<()>)
      modifies ledger
      ensures match BindHalf(old(ledger.Contents()), id, p)
              case Ok(t) => ledger.Contents() == t && r == Ok(())
              case Err(e) => ledger.Contents() == old(ledger.Contents()) && r == Err(e)
    {
      hide Register;
      var row := Lookup(ledger.rows, id);
      if row.None? {
        r := Insert(Row(id, p, Pending, None));
      } else {
        :- Need(row.value.payload == p && row.value.status == Pending && row.value.evidence == None, Error.Conflict);
        r := Ok(());
      }
    }

    /** The scope and amendment rows a binding freezes. */
    method ReadScope() returns (r: Result<seq<Row>>)
      ensures r == ScopeIdentity(ledger.Contents())
    {
      hide ScopePayload, TrialLimits;
      var original :- ScopePayload(Lookup(ledger.rows, ScopeKey(LOCAL_TRIAL)));
      :- Need(original == ScopeP(TRIAL_ATTEMPTS, FIRST_BUDGET), Denied);
      var limits :- ledger.ReadLimits(original);
      :- Need(limits in {FEE_ONLY, UNCAPPED, FINITE}, Denied);
      r := Ok(Filter(ledger.rows, IdentityRow()));
    }

    /** Freeze the run's limits before any slot is admitted. */
    method BindBudget(policy: Policy, cap: Option<int>, deadline: real, now: real) returns (r: Result<()>)
      modifies ledger
      ensures match BindRun(old(ledger.Contents()), h, policy, cap, deadline, now)
              case Ok(t) => ledger.Contents() == t && r == Ok(())
              case Err(e) => ledger.Contents() == old(ledger.Contents()) && r == Err(e)
      ensures old(LedgerInv(ledger.Contents())) ==> LedgerInv(ledger.Contents())
    {
      hide CheckRun, LedgerInv, Register, EffectiveLimits, ScopeIdentity, BindablePolicy, IsUncapped, Binding, NoneRun;
      ghost var before := ledger.Contents();
      :- Need(if cap.None? then IsUncapped(policy) else 0 < cap.value <= SECOND_BUDGET, Denied);
      :- Need(BindablePolicy(policy), Denied);
      var states :- Check();
      var scope :- ReadScope();
      var limits :- EffectiveLimits(ledger.Contents());
      :- Need(IsUncapped(policy) ==> limits.budget.None?, Denied);
      var payload := BudgetP(h, cap, deadline, policy, scope);
      var existing :- Binding(ledger.rows, h.runId);
      if existing.Some? {
        :- Need(existing.value == payload, Error.Conflict);
        return Ok(());
      }
      :- Need(deadline > now, Denied);
      :- Need(NoneRun(states), Error.Conflict);
      var _ :- Insert(Row(BudgetKey(h.runId), payload, Pending, None));
      r := Ok(());
      if LedgerInv(before) {
        BindRunKeeps(before, h, policy, cap, deadline, now);
      }
    }
  }

  /** Once an attempt of the run is refused, the run's attempts as a whole are. */
  predicate Permitted(r: Row, run: string, i: nat) {
    TaggedWith(run)(r) ==> Elsewhere(r, i) && KnownAttempt(r)
  }

  /** The budget context of one slot, captured when its handler is built. */
  class AnalysisBudgetSlot {
    const run: AnalysisRunHost
    const index: nat
    const captured: Option<Payload>

    constructor (run: AnalysisRunHost, index: nat, captured: Option<Payload>)
      ensures this.run == run && this.index == index && this.captured == captured
    {
      this.run, this.index, this.captured := run, index, captured;
    }

    /** The run's attempts so far: refused if this slot has one or an earlier one is not
        known, and otherwise what they were charged. */
    method UsedByRun() returns (r: Result<int>)
      ensures r.Ok? <==> forall x :: x in run.ledger.rows ==> Permitted(x, run.h.runId, index)
      ensures r.Ok? ==> r.value == Sum(run.ledger.rows, HeldByRun(run.h.runId))
      ensures r.Err? ==> r.error == Denied
    {
      var rows, id := run.ledger.rows, run.h.runId;
      var used := 0;
      var k := 0;
      while k < |rows|
        invariant 0 <= k <= |rows|
        invariant used == Sum(rows[..k], HeldByRun(id))
        invariant forall l :: 0 <= l < k ==> Permitted(rows[l], id, index)
      {
        var row := rows[k];
        SumInsert(rows[..k], row, HeldByRun(id));
        assert HeldByRun(id)(row) == if TaggedWith(id)(row) then HeldBy(row) else 0;
        assert rows[..k] + [row] == rows[..k + 1];
        if row.payload.AttemptP? && row.payload.tag.Some? && row.payload.tag.value.run == id {
          if row.payload.tag.value.index == index || !KnownAttempt(row) {
            assert !Permitted(row, id, index);
            return Err(Denied);
          }
          used := used + row.evidence.value.charged;
        }
        k := k + 1;
      }
      assert rows[..k] == rows;
      r := Ok(used);
    }

    /** Authorise the slot's one attempt, inside the transaction of a ledger that reserves it. */
    method Authorize(ledger: LedgerStore, body: Request, policy: Policy, amount: int, now: real) returns (r: Result<Grant>)
      requires index < SLOT_COUNT
      ensures r == if ledger != run.ledger then Err(Denied)
                   else AnalysisBudget.Authorize(ledger.Contents(), run.h, index, captured, body, policy, amount, now)
      ensures ledger == run.ledger && LedgerInv(ledger.Contents()) ==>
                Authorization(ledger.Contents(), run.h, index, captured, body, policy, amount, now, r)
    {
      hide CheckRun, ScopeIdentity, Binding, MatchesSlot, HeldByRun, KnownAttempt, Sum, SamePolicy, MayReserve, LedgerInv, Authorization;
      if LedgerInv(ledger.Contents()) {
        AuthorizationDecides(ledger.Contents(), run.h, index, captured, body, policy, amount, now);
      }
      :- Need(ledger == run.ledger, Denied);
      var binding :- Binding(run.ledger.rows, run.h.runId);
      :- Need(binding == captured, Denied);
      if binding.None? {
        return Ok(NO_GRANT);
      }
      var b := binding.value;
      var scope :- run.ReadScope();
      :- Need(b.BudgetP? && b.identity == run.h && b.scope == scope, Denied);
      :- Need(SamePolicy(policy, b.policy), Denied);
      var states :- run.Check();
      :- Need(MayReserve(states, index), Denied);
      :- Need(MatchesSlot(body, run.h.slots[index]), Denied);
      var used :- UsedByRun();
      :- Need(b.cap.None? || used + amount <= b.cap.value, Denied);
      :- Need(now < b.runDeadline, Denied);
      r := Ok(Grant(Some(SlotTag(run.h.runId, index)), Some(b.runDeadline)));
    }
  }
}
