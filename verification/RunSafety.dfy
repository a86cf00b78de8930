/** What every transaction keeps about analysis runs: ordered at-most-once claims and
    the money of a bound run. */
module RunSafety {
  import opened Outcome
  import opened Ledger
  import opened Authority
  import opened Reservation
  import opened AnalysisRun
  import opened AnalysisBudget

  // ---- The invariant ----

  /** Rows of a run carry the identifier their content names. */
  ghost predicate Keyed(r: Row) {
    match r.payload
    case RunP(h) => r.id == RunKey(h.runId)
    case SlotP(run, i, _) => r.id == SlotKey(run, i) && i < SLOT_COUNT
                             && (r.evidence.Some? ==> r.evidence == Some(HostStatusE(r.status)))
    case ClaimP(run, i, _) => r.id == ClaimKey(run, i) && i < SLOT_COUNT && r.status == Done && r.evidence == Some(AdmittedE)
    case BudgetP(h, _, _, _, _) => r.id == BudgetKey(h.runId) && r.status == Pending
    case GatewayP(run, i, _, _) => r.id == GatewayKey(run, i) && r.status == Pending
    case TokenP(_, _, _, token) => r.id == TokenKey(token) && r.status == Pending
    case _ => true
  }

  ghost predicate AllKeyed(rows: seq<Row>) {
    forall r :: r in rows ==> Keyed(r)
  }

  ghost predicate Claimed(rows: seq<Row>, run: string, i: nat) {
    var c := Lookup(rows, ClaimKey(run, i));
    c.Some? && c.value.payload.ClaimP? && c.value.payload.run == run && c.value.payload.index == i
  }

  /** The slot was finished with an outcome that lets the next one run. */
  ghost predicate Cleared(rows: seq<Row>, run: string, i: nat) {
    var r := Lookup(rows, SlotKey(run, i));
    r.Some? && r.value.payload.SlotP? && (r.value.status == Done || r.value.status == Failed)
  }

  /** Below every claimed slot all slots are claimed and cleared. */
  ghost predicate Ordered(rows: seq<Row>) {
    forall run, i: nat, j: nat :: Claimed(rows, run, i) && j < i ==> Claimed(rows, run, j) && Cleared(rows, run, j)
  }

  ghost predicate OutcomesClaimed(rows: seq<Row>) {
    forall r :: r in rows && r.payload.SlotP? && r.status != Pending ==> Claimed(rows, r.payload.run, r.payload.index)
  }

  ghost predicate Bound(rows: seq<Row>, run: string) {
    var b := Lookup(rows, BudgetKey(run));
    b.Some? && b.value.payload.BudgetP?
  }

  ghost function CapOf(rows: seq<Row>, run: string): Option<int>
    requires Bound(rows, run)
  {
    Lookup(rows, BudgetKey(run)).value.payload.cap
  }

  function RunAttempts(rows: seq<Row>, run: string): seq<Row> {
    Filter(rows, TaggedWith(run))
  }

  function RunTotal(rows: seq<Row>, run: string): int {
    Sum(rows, HeldByRun(run))
  }

  ghost predicate Tagged(r: Row, run: string) {
    r.payload.AttemptP? && r.payload.tag.Some? && r.payload.tag.value.run == run
  }

  /** One attempt a slot, in slot order, and every attempt but the newest known. */
  ghost predicate Sequenced(attempts: seq<Row>, run: string) {
    && (forall k :: 0 <= k < |attempts| ==> Tagged(attempts[k], run))
    && (forall k, l :: 0 <= k < l < |attempts| ==> attempts[k].payload.tag.value.index < attempts[l].payload.tag.value.index)
    && (forall k :: 0 <= k < |attempts| - 1 ==> KnownAttempt(attempts[k]))
  }

  ghost predicate Accounted(rows: seq<Row>, run: string) {
    && Sequenced(RunAttempts(rows, run), run)
    && (RunAttempts(rows, run) != [] ==> Bound(rows, run))
    && (Bound(rows, run) && CapOf(rows, run).Some? ==> RunTotal(rows, run) <= CapOf(rows, run).value)
  }

  ghost predicate AttemptsClaimed(rows: seq<Row>) {
    forall r :: r in rows && r.payload.AttemptP? && r.payload.tag.Some? ==>
      Claimed(rows, r.payload.tag.value.run, r.payload.tag.value.index)
  }

  /** A bound slot and its token name each other. */
  ghost predicate TokensMatch(rows: seq<Row>) {
    forall r :: r in rows && r.payload.GatewayP? ==>
      var t := Lookup(rows, TokenKey(r.payload.token));
      t.Some? && t.value.payload == TokenP(r.payload.run, r.payload.index, r.payload.slots, r.payload.token)
  }

  ghost predicate RunCore(rows: seq<Row>) {
    && UniqueIds(rows) && AllKeyed(rows) && Ordered(rows) && OutcomesClaimed(rows) && AttemptsClaimed(rows)
    && forall run :: Accounted(rows, run)
  }

  ghost predicate RunInv(rows: seq<Row>) {
    RunCore(rows) && TokensMatch(rows)
  }

  // ---- Inserting ----

  lemma {:induction false} InsertKeepsClaims(rows: seq<Row>, row: Row, run: string, i: nat)
    requires Lookup(rows, row.id).None?
    ensures Claimed(rows, run, i) ==> Claimed(rows + [row], run, i)
    ensures Cleared(rows, run, i) ==> Cleared(rows + [row], run, i)
    ensures Claimed(rows + [row], run, i) ==> Claimed(rows, run, i) || row.id == ClaimKey(run, i)
  {
    LookupInsert(rows, row, ClaimKey(run, i));
    LookupInsert(rows, row, SlotKey(run, i));
  }

  lemma {:induction false} InsertKeepsBound(rows: seq<Row>, row: Row, run: string)
    requires Lookup(rows, row.id).None?
    ensures Bound(rows, run) ==> Bound(rows + [row], run) && CapOf(rows + [row], run) == CapOf(rows, run)
    ensures Bound(rows + [row], run) ==> Bound(rows, run) || row.payload.BudgetP?
  {
    LookupInsert(rows, row, BudgetKey(run));
  }

  lemma {:induction false} InsertAttemptsOf(rows: seq<Row>, row: Row, run: string)
    ensures RunAttempts(rows + [row], run) == RunAttempts(rows, run) + if Tagged(row, run) then [row] else []
    ensures RunTotal(rows + [row], run) == RunTotal(rows, run) + if Tagged(row, run) then HeldBy(row) else 0
  {
    FilterInsert(rows, row, TaggedWith(run));
    SumInsert(rows, row, HeldByRun(run));
  }

  /** Without attempts a run holds nothing. */
  lemma {:induction false} NoneHeld(rows: seq<Row>, run: string)
    requires RunAttempts(rows, run) == []
    ensures RunTotal(rows, run) == 0
  {
    if rows != [] {
      NoneHeld(rows[..|rows| - 1], run);
    }
  }

  lemma {:induction false} AccountedInsert(rows: seq<Row>, row: Row, run: string)
    requires Accounted(rows, run) && Lookup(rows, row.id).None? && !Tagged(row, run)
    requires row.payload.BudgetP? && row.id == BudgetKey(run) ==> row.payload.cap.None? || row.payload.cap.value > 0
    ensures Accounted(rows + [row], run)
  {
    InsertKeepsBound(rows, row, run);
    InsertAttemptsOf(rows, row, run);
    if !Bound(rows, run) {
      NoneHeld(rows, run);
      LookupInsert(rows, row, BudgetKey(run));
    }
  }

  /** A row that may join: a claim only above claimed and cleared slots, a slot only
      pending, an attempt only untagged, a budget only with a positive cap. */
  ghost predicate MayJoin(rows: seq<Row>, row: Row) {
    && Lookup(rows, row.id).None? && Keyed(row)
    && (row.payload.ClaimP? ==> LowerSlotsCleared(rows, row.payload.run, row.payload.index))
    && (row.payload.SlotP? ==> row.status == Pending)
    && (row.payload.AttemptP? ==> row.payload.tag.None?)
    && (row.payload.BudgetP? ==> row.payload.cap.None? || row.payload.cap.value > 0)
  }

  ghost predicate LowerSlotsCleared(rows: seq<Row>, run: string, i: nat) {
    forall j: nat :: j < i ==> Claimed(rows, run, j) && Cleared(rows, run, j)
  }

  lemma {:induction false} OrderInsert(rows: seq<Row>, row: Row)
    requires Ordered(rows) && Lookup(rows, row.id).None?
    requires row.payload.ClaimP? ==> LowerSlotsCleared(rows, row.payload.run, row.payload.index)
    ensures Ordered(rows + [row])
  {
    forall run, i: nat, j: nat | Claimed(rows + [row], run, i) && j < i
      ensures Claimed(rows + [row], run, j) && Cleared(rows + [row], run, j)
    {
      InsertKeepsClaims(rows, row, run, i);
      InsertKeepsClaims(rows, row, run, j);
      LookupInsert(rows, row, ClaimKey(run, i));
    }
  }

  lemma {:induction false} OutcomesInsert(rows: seq<Row>, row: Row)
    requires OutcomesClaimed(rows) && AttemptsClaimed(rows) && Lookup(rows, row.id).None?
    requires row.payload.SlotP? ==> row.status == Pending
    requires row.payload.AttemptP? && row.payload.tag.Some? ==> Claimed(rows, row.payload.tag.value.run, row.payload.tag.value.index)
    ensures OutcomesClaimed(rows + [row]) && AttemptsClaimed(rows + [row])
  {
    forall r | r in rows + [row] && r.payload.SlotP? && r.status != Pending
      ensures Claimed(rows + [row], r.payload.run, r.payload.index)
    {
      InsertKeepsClaims(rows, row, r.payload.run, r.payload.index);
    }
    forall r | r in rows + [row] && r.payload.AttemptP? && r.payload.tag.Some?
      ensures Claimed(rows + [row], r.payload.tag.value.run, r.payload.tag.value.index)
    {
      InsertKeepsClaims(rows, row, r.payload.tag.value.run, r.payload.tag.value.index);
    }
  }

  lemma {:induction false} TokensInsert(rows: seq<Row>, row: Row)
    requires TokensMatch(rows) && Lookup(rows, row.id).None? && !row.payload.GatewayP?
    ensures TokensMatch(rows + [row])
  {
    forall r | r in rows + [row] && r.payload.GatewayP?
      ensures var t := Lookup(rows + [row], TokenKey(r.payload.token));
              t.Some? && t.value.payload == TokenP(r.payload.run, r.payload.index, r.payload.slots, r.payload.token)
    {
      LookupInsert(rows, row, TokenKey(r.payload.token));
    }
  }

  lemma {:induction false} InsertCore(rows: seq<Row>, row: Row)
    requires RunCore(rows) && MayJoin(rows, row)
    ensures RunCore(rows + [row])
  {
    UniqueInsert(rows, row);
    OrderInsert(rows, row);
    OutcomesInsert(rows, row);
    forall run ensures Accounted(rows + [row], run) {
      AccountedInsert(rows, row, run);
    }
  }

  lemma {:induction false} InsertInert(rows: seq<Row>, row: Row)
    requires RunInv(rows) && MayJoin(rows, row) && !row.payload.GatewayP?
    ensures RunInv(rows + [row])
  {
    InsertCore(rows, row);
    TokensInsert(rows, row);
  }

  // ---- Finishing ----

  lemma {:induction false} FinishKeepsClaims(rows: seq<Row>, r: Row, status: Status, evidence: Evidence, run: string,
          i: nat)
    requires UniqueIds(rows) && r in rows && r.status == Pending
    ensures var done := FinishRows(rows, r.id, status, evidence);
            && (Claimed(done, run, i) <==> Claimed(rows, run, i))
            && (Cleared(rows, run, i) ==> Cleared(done, run, i))
            && (Bound(rows, run) <==> Bound(done, run))
            && (Bound(rows, run) ==> CapOf(done, run) == CapOf(rows, run))
  {
    LookupUnique(rows, r);
    LookupFinish(rows, r.id, status, evidence, ClaimKey(run, i));
    LookupFinish(rows, r.id, status, evidence, SlotKey(run, i));
    LookupFinish(rows, r.id, status, evidence, BudgetKey(run));
  }

  lemma {:induction false} FinishUnknownIsLast(attempts: seq<Row>, r: Row, status: Status, evidence: Evidence,
          run: string)
    requires UniqueIds(attempts) && Sequenced(attempts, run) && r.status == Pending
    requires r in attempts || forall x :: x in attempts ==> x.id != r.id
    ensures Sequenced(FinishRows(attempts, r.id, status, evidence), run)
  {
    FinishMembers(attempts, r.id, status, evidence);
    var done := FinishRows(attempts, r.id, status, evidence);
    forall k | 0 <= k < |done| - 1 ensures KnownAttempt(done[k]) {
      assert KnownAttempt(attempts[k]);
      LookupUnique(attempts, attempts[k]);
      if r in attempts {
        LookupUnique(attempts, r);
      }
    }
  }

  lemma {:induction false} FilterUnique(rows: seq<Row>, p: Row -> bool)
    requires UniqueIds(rows)
    ensures UniqueIds(Filter(rows, p))
  {
    if rows != [] {
      var init, last := rows[..|rows| - 1], rows[|rows| - 1];
      FilterUnique(init, p);
      FilterMembers(init, p);
      var kept := Filter(init, p);
      if p(last) {
        if Lookup(kept, last.id).Some? {
          LookupPresent(init, Lookup(kept, last.id).value);
        }
        UniqueInsert(kept, last);
      } else {
        assert Filter(rows, p) == kept;
      }
    }
  }

  lemma {:induction false} AccountedFinish(rows: seq<Row>, r: Row, status: Status, evidence: Evidence, run: string)
    requires UniqueIds(rows) && r in rows && r.status == Pending && Accounted(rows, run)
    requires r.payload.AttemptP? ==> HeldBy(r.(status := status, evidence := Some(evidence))) <= HeldBy(r)
    ensures Accounted(FinishRows(rows, r.id, status, evidence), run)
  {
    var attempts := RunAttempts(rows, run);
    FilterFinish(rows, TaggedWith(run), r.id, status, evidence);
    FilterMembers(rows, TaggedWith(run));
    FilterUnique(rows, TaggedWith(run));
    if r !in attempts {
      forall x | x in attempts ensures x.id != r.id {
        LookupUnique(rows, x);
        LookupUnique(rows, r);
      }
    }
    FinishUnknownIsLast(attempts, r, status, evidence, run);
    SumFinish(rows, HeldByRun(run), r.id, status, evidence, r);
    FinishKeepsClaims(rows, r, status, evidence, run, 0);
  }

  lemma {:induction false} FinishedRow(rows: seq<Row>, r: Row, status: Status, evidence: Evidence, x: Row)
    requires UniqueIds(rows) && r in rows && x in FinishRows(rows, r.id, status, evidence)
    ensures x == r.(status := status, evidence := Some(evidence)) || (x in rows && x.id != r.id)
  {
    FinishMembers(rows, r.id, status, evidence);
    var done := FinishRows(rows, r.id, status, evidence);
    var i :| 0 <= i < |done| && done[i] == x;
    if rows[i].id == r.id {
      LookupUnique(rows, rows[i]);
      LookupUnique(rows, r);
    }
  }

  lemma {:induction false} OutcomesFinish(rows: seq<Row>, r: Row, status: Status, evidence: Evidence)
    requires UniqueIds(rows) && r in rows && r.status == Pending
    requires OutcomesClaimed(rows) && AttemptsClaimed(rows)
    requires r.payload.SlotP? ==> Claimed(rows, r.payload.run, r.payload.index)
    ensures OutcomesClaimed(FinishRows(rows, r.id, status, evidence)) && AttemptsClaimed(FinishRows(rows, r.id, status, evidence))
  {
    var done := FinishRows(rows, r.id, status, evidence);
    forall x | x in done && x.payload.SlotP? && x.status != Pending ensures Claimed(done, x.payload.run, x.payload.index) {
      FinishedRow(rows, r, status, evidence, x);
      FinishKeepsClaims(rows, r, status, evidence, x.payload.run, x.payload.index);
    }
    forall x | x in done && x.payload.AttemptP? && x.payload.tag.Some?
      ensures Claimed(done, x.payload.tag.value.run, x.payload.tag.value.index)
    {
      FinishedRow(rows, r, status, evidence, x);
      FinishKeepsClaims(rows, r, status, evidence, x.payload.tag.value.run, x.payload.tag.value.index);
    }
  }

  lemma {:induction false} TokensFinish(rows: seq<Row>, r: Row, status: Status, evidence: Evidence)
    requires UniqueIds(rows) && r in rows && TokensMatch(rows)
    ensures TokensMatch(FinishRows(rows, r.id, status, evidence))
  {
    var done := FinishRows(rows, r.id, status, evidence);
    forall x | x in done && x.payload.GatewayP?
      ensures var t := Lookup(done, TokenKey(x.payload.token));
              t.Some? && t.value.payload == TokenP(x.payload.run, x.payload.index, x.payload.slots, x.payload.token)
    {
      FinishedRow(rows, r, status, evidence, x);
      LookupFinish(rows, r.id, status, evidence, TokenKey(x.payload.token));
    }
  }

  lemma {:induction false} FinishRunInv(rows: seq<Row>, r: Row, status: Status, evidence: Evidence)
    requires RunInv(rows) && r in rows && r.status == Pending && status != Pending
    requires Keyed(r.(status := status, evidence := Some(evidence)))
    requires r.payload.SlotP? ==> Claimed(rows, r.payload.run, r.payload.index)
    requires r.payload.AttemptP? ==> HeldBy(r.(status := status, evidence := Some(evidence))) <= HeldBy(r)
    ensures RunInv(FinishRows(rows, r.id, status, evidence))
  {
    var done := FinishRows(rows, r.id, status, evidence);
    UniqueFinish(rows, r.id, status, evidence);
    forall x | x in done ensures Keyed(x) {
      FinishedRow(rows, r, status, evidence, x);
    }
    forall run, i: nat, j: nat | Claimed(done, run, i) && j < i ensures Claimed(done, run, j) && Cleared(done, run, j) {
      FinishKeepsClaims(rows, r, status, evidence, run, i);
      FinishKeepsClaims(rows, r, status, evidence, run, j);
    }
    OutcomesFinish(rows, r, status, evidence);
    TokensFinish(rows, r, status, evidence);
    forall run ensures Accounted(done, run) {
      AccountedFinish(rows, r, status, evidence, run);
    }
  }
}
