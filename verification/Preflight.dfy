/** The preflight recount of the attempts: an independent reading of the same rows. */
module Preflight {
  import opened Outcome
  import opened Ledger
  import opened Authority
  import opened BudgetSafety
  import opened Reservation

  datatype Account = Counts(known: nat, unknown: nat, pending: nat, knownCost: int, unknownReserve: int)

  const NOTHING := Counts(0, 0, 0, 0, 0)

  /** One attempt's contribution, refusing anything settlement could not have written. */
  function Recount(a: Account, r: Row): Result<Account>
    requires r.payload.AttemptP?
  {
    var p := r.payload;
    :- Need(p.scopeId == LOCAL_TRIAL, Error.Blocked);
    :- Need(p.reserved >= 0, Error.Blocked);
    if r.status == Pending then
      Ok(a.(pending := a.pending + 1, unknown := a.unknown + 1, unknownReserve := a.unknownReserve + p.reserved))
    else
      :- Need(r.evidence.Some? && r.evidence.value.AttemptE?, Error.Blocked);
      var e := r.evidence.value;
      :- Need(e.charged >= 0, Error.Blocked);
      if e.usageKnown then
        :- Need(r.status == Done && e.charged <= p.reserved, Error.Blocked);
        Ok(a.(known := a.known + 1, knownCost := a.knownCost + e.charged))
      else
        :- Need(r.status == Uncertain && e.charged == p.reserved, Error.Blocked);
        Ok(a.(unknown := a.unknown + 1, unknownReserve := a.unknownReserve + p.reserved))
  }

  /** The recount of all attempts, oldest first. */
  function Accounting(rows: seq<Row>): Result<Account> {
    if rows == [] then Ok(NOTHING)
    else
      var a :- Accounting(rows[..|rows| - 1]);
      var r := rows[|rows| - 1];
      if r.payload.AttemptP? then Recount(a, r) else Ok(a)
  }

  function Used(a: Account): int {
    a.knownCost + a.unknownReserve
  }

  function Remaining(a: Account, budget: Option<int>): Option<int> {
    match budget
    case None => None
    case Some(b) => Some(if b > Used(a) then b - Used(a) else 0)
  }

  /** The budget the recount is read against: the smaller of the effective and the policy's. */
  function AuditBudget(effective: Option<int>, policy: Option<int>): Option<int> {
    if policy.None? then effective
    else if effective.None? then policy
    else Some(if policy.value < effective.value then policy.value else effective.value)
  }

  ghost predicate NonNegative(rows: seq<Row>) {
    forall r :: r in rows && r.payload.AttemptP? ==> r.payload.reserved >= 0
  }

  function PendingAttempt(): Row -> bool {
    (r: Row) => r.payload.AttemptP? && r.status == Pending
  }

  function KnownUse(): Row -> bool {
    (r: Row) => r.payload.AttemptP? && r.status == Done
  }

  /** What a settled attempt was charged. */
  function KnownCost(): Row -> int {
    (r: Row) => if r.payload.AttemptP? && r.status == Done && r.evidence.Some? && r.evidence.value.AttemptE?
                then r.evidence.value.charged else 0
  }

  /** What any other attempt reserves. */
  function UnknownReserve(): Row -> int {
    (r: Row) => if r.payload.AttemptP? && r.status != Done then r.payload.reserved else 0
  }

  /** What settlement may have written on an attempt, prices aside. */
  ghost predicate Settleable(r: Row)
    requires r.payload.AttemptP?
  {
    && r.payload.scopeId == LOCAL_TRIAL
    && (r.status == Pending <==> r.evidence == None)
    && (r.evidence.Some? ==>
          && r.evidence.value.AttemptE?
          && (if r.evidence.value.usageKnown then r.status == Done && 0 <= r.evidence.value.charged <= r.payload.reserved
              else r.status == Uncertain && r.evidence.value.charged == r.payload.reserved))
  }

  ghost predicate AllSettleable(rows: seq<Row>) {
    forall r :: r in rows && r.payload.AttemptP? ==> Settleable(r)
  }

  lemma {:induction false} RecountRow(a: Account, r: Row)
    requires r.payload.AttemptP? && Settleable(r)
    ensures Recount(a, r).Ok? <==> r.payload.reserved >= 0
    ensures Recount(a, r).Ok? ==>
              var b := Recount(a, r).value;
              && b.known == a.known + (if KnownUse()(r) then 1 else 0)
              && b.unknown == a.unknown + (if KnownUse()(r) then 0 else 1)
              && b.pending == a.pending + (if PendingAttempt()(r) then 1 else 0)
              && Used(b) == Used(a) + Held(LOCAL_TRIAL)(r)
              && b.knownCost == a.knownCost + KnownCost()(r) && b.unknownReserve == a.unknownReserve + UnknownReserve()(r)
              && b.knownCost >= a.knownCost && b.unknownReserve >= a.unknownReserve
  {
    assert InScope(LOCAL_TRIAL)(r) && Held(LOCAL_TRIAL)(r) == HeldBy(r);
  }

  /** The counts and sums of a recount are those of the rows: the attempts split into known and
      unknown, the pending among the unknown, each part with its own sum, both together what
      reservation reads as the total. */
  ghost predicate Tallied(a: Account, rows: seq<Row>) {
    && a.known + a.unknown == Attempts(rows, LOCAL_TRIAL)
    && a.known == |Filter(rows, KnownUse())|
    && a.pending == |Filter(rows, PendingAttempt())| <= a.unknown
    && a.knownCost == Sum(rows, KnownCost()) && a.unknownReserve == Sum(rows, UnknownReserve())
    && Used(a) == Total(rows, LOCAL_TRIAL)
    && a.knownCost >= 0 && a.unknownReserve >= 0
  }

  lemma {:induction false} TalliedOther(a: Account, rows: seq<Row>, r: Row)
    requires Tallied(a, rows) && !r.payload.AttemptP?
    ensures Tallied(a, rows + [r])
  {
    hide Filter, Sum;
    FilterInsert(rows, r, InScope(LOCAL_TRIAL));
    FilterInsert(rows, r, KnownUse());
    FilterInsert(rows, r, PendingAttempt());
    SumInsert(rows, r, KnownCost());
    SumInsert(rows, r, UnknownReserve());
    SumInsert(rows, r, Held(LOCAL_TRIAL));
  }

  lemma {:induction false} TalliedNext(a: Account, rows: seq<Row>, r: Row)
    requires Tallied(a, rows) && r.payload.AttemptP? && Settleable(r) && Recount(a, r).Ok?
    ensures Tallied(Recount(a, r).value, rows + [r])
  {
    hide Filter, Sum, Recount;
    RecountRow(a, r);
    FilterInsert(rows, r, InScope(LOCAL_TRIAL));
    FilterInsert(rows, r, KnownUse());
    FilterInsert(rows, r, PendingAttempt());
    SumInsert(rows, r, KnownCost());
    SumInsert(rows, r, UnknownReserve());
    SumInsert(rows, r, Held(LOCAL_TRIAL));
  }

  /** On attempts that reservation and settlement wrote, the recount succeeds exactly when
      no reservation is negative, and then tallies. */
  lemma {:induction false} RecountAgrees(rows: seq<Row>)
    requires AllSettleable(rows)
    ensures Accounting(rows).Ok? <==> NonNegative(rows)
    ensures Accounting(rows).Ok? ==> Tallied(Accounting(rows).value, rows)
  {
    hide Recount;
    if rows != [] {
      var init, last := rows[..|rows| - 1], rows[|rows| - 1];
      assert rows == init + [last];
      RecountAgrees(init);
      hide Tallied;
      if Accounting(init).Ok? {
        if last.payload.AttemptP? {
          RecountRow(Accounting(init).value, last);
          if Recount(Accounting(init).value, last).Ok? {
            TalliedNext(Accounting(init).value, init, last);
          }
        } else {
          TalliedOther(Accounting(init).value, init, last);
        }
      }
    }
  }

  /** An attempt the recount can count: of the one scope, with a reservation that is not negative,
      and pending, or known and charged within it, or uncertain and charged all of it. */
  ghost predicate Countable(r: Row)
    requires r.payload.AttemptP?
  {
    && r.payload.scopeId == "local-trial-1" && r.payload.reserved >= 0
    && (r.status == Pending ||
        (&& r.evidence.Some? && r.evidence.value.AttemptE?
         && if r.evidence.value.usageKnown then r.status == Done && 0 <= r.evidence.value.charged <= r.payload.reserved
            else r.status == Uncertain && r.evidence.value.charged == r.payload.reserved))
  }

  lemma {:induction false} CountsOne(a: Account, r: Row)
    requires r.payload.AttemptP?
    ensures Recount(a, r).Ok? <==> Countable(r)
  {
  }

  /** Of any rows whatever, the recount is refused exactly when one of the attempts cannot be
      counted. */
  lemma {:induction false} RecountDecides(rows: seq<Row>)
    ensures Accounting(rows).Ok? <==> forall r <- rows :: r.payload.AttemptP? ==> Countable(r)
  {
    hide Recount, Countable;
    if rows != [] {
      var init, last := rows[..|rows| - 1], rows[|rows| - 1];
      assert rows == init + [last];
      RecountDecides(init);
      if last.payload.AttemptP? && Accounting(init).Ok? {
        CountsOne(Accounting(init).value, last);
      }
    }
  }

  lemma {:induction false} AccountingNext(rows: seq<Row>, i: nat)
    requires i < |rows|
    ensures Accounting(rows[..i + 1]) ==
            match Accounting(rows[..i])
            case Err(e) => Err(e)
            case Ok(a) => if rows[i].payload.AttemptP? then Recount(a, rows[i]) else Ok(a)
  {
    assert rows[..i + 1][..i] == rows[..i];
  }

  /** A refusal stands, whatever rows follow. */
  lemma {:induction false} AccountingRefused(rows: seq<Row>, i: nat)
    requires i <= |rows| && Accounting(rows[..i]).Err?
    ensures Accounting(rows) == Accounting(rows[..i])
    decreases |rows| - i
  {
    if i == |rows| {
      assert rows[..i] == rows;
    } else {
      AccountingNext(rows, i);
      AccountingRefused(rows, i + 1);
    }
  }

  /** The recount as the host runs it, five counters over one pass. */
  method CountAttempts(rows: seq<Row>) returns (r: Result<Account>)
    ensures r == Accounting(rows)
  {
    var known, unknown, pending := 0, 0, 0;
    var knownCost, unknownReserve := 0, 0;
    for i := 0 to |rows|
      invariant known >= 0 && unknown >= 0 && pending >= 0
      invariant Accounting(rows[..i]) == Ok(Counts(known, unknown, pending, knownCost, unknownReserve))
    {
      AccountingNext(rows, i);
      var row := rows[i];
      if row.payload.AttemptP? {
        var p, e := row.payload, row.evidence;
        if p.scopeId != LOCAL_TRIAL || p.reserved < 0 {
          AccountingRefused(rows, i + 1);
          return Err(Error.Blocked);
        }
        if row.status == Pending {
          pending, unknown, unknownReserve := pending + 1, unknown + 1, unknownReserve + p.reserved;
        } else if e.None? || !e.value.AttemptE? || e.value.charged < 0 {
          AccountingRefused(rows, i + 1);
          return Err(Error.Blocked);
        } else if e.value.usageKnown && row.status == Done && e.value.charged <= p.reserved {
          known, knownCost := known + 1, knownCost + e.value.charged;
        } else if !e.value.usageKnown && row.status == Uncertain && e.value.charged == p.reserved {
          unknown, unknownReserve := unknown + 1, unknownReserve + p.reserved;
        } else {
          AccountingRefused(rows, i + 1);
          return Err(Error.Blocked);
        }
      }
    }
    assert rows[..|rows|] == rows;
    r := Ok(Counts(known, unknown, pending, knownCost, unknownReserve));
  }
}
