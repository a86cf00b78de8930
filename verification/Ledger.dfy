/** The durable operation ledger: an insert-only table of operations whose rows
    are finished at most once, and an append-only event log. One value of `State`
    is what a committed transaction leaves behind. Canonical JSON is modelled by
    structural equality of payloads and evidence, a row identifier by the structured
    text it is built from. */
module Ledger {
  import opened Outcome

  const LOCAL_TRIAL := "local-trial-1"

  datatype OpId =
    | ScopeKey(scope: string)
    | FenceKey
    | AttemptKey(uuid: nat)
    | AdmissionKey(attempt: OpId)
    | RunKey(run: string)
    | SlotKey(run: string, index: nat)
    | ClaimKey(run: string, index: nat)
    | BudgetKey(run: string)
    | GatewayKey(run: string, index: nat)
    | TokenKey(digest: string)
    | Named(text: string)

  /** Prices per token, in micro-yuan; an absent dimension is `None`. */
  datatype Prices = Prices(input: Option<real>, output: Option<real>, cacheRead: Option<real>, cacheWrite: Option<real>)

  datatype Policy = Policy(schemaVersion: int, serverDaily: bool, maxAttempts: Option<int>, budget: Option<int>,
                           timeout: real, inputTokenBound: int, maxTokens: int, prices: Prices, rest: string)

  /** A model request: what reservation reads of it, its content and its encoded size. */
  datatype Request = Request(maxTokens: int, content: string, encodedBytes: nat)

  datatype RunIdentity = RunIdentity(runId: string, source: string, config: string, slots: seq<Request>)

  datatype SlotTag = SlotTag(run: string, index: nat)

  datatype Payload =
    | ScopeP(maxAttempts: int, budget: int)
    | AttemptP(scopeId: string, reserved: int, deadline: real, prices: Prices, inputBound: int, maxTokens: int,
               tag: Option<SlotTag>)
    | AmendV1P(scopeId: string, expectedOriginal: int, expectedEffective: int, newBudget: int,
               reference: string, approved: bool)
    | AmendV2P(version: int, scopeId: string, expectedOriginal: int, expectedEffective: int, expectedMaxAttempts: int,
               newBudget: int, noAttemptLimit: bool, noPhases: bool, reference: string, approved: bool)
    | AmendV3P(scopeId: string, reference: string, approved: bool)
    | AmendV4P(scopeId: string, reference: string, approved: bool)
    | FenceP(inherited: seq<OpId>)
    | AdmissionP(attempt: OpId, category: string)
    | RunP(identity: RunIdentity)
    | SlotP(run: string, index: nat, slots: seq<Request>)
    | ClaimP(run: string, index: nat, slots: seq<Request>)
    | BudgetP(identity: RunIdentity, cap: Option<int>, runDeadline: real, policy: Policy, scope: seq<Row>)
    | GatewayP(run: string, index: nat, slots: seq<Request>, token: string)
    | TokenP(run: string, index: nat, slots: seq<Request>, token: string)
    | OtherP(kind: string, body: string)

  datatype Evidence =
    | AttemptE(charged: int, usageKnown: bool, providerId: Option<string>)
    | AmendV1E(approved: bool, newBudget: int, reference: string)
    | AmendE(version: int, approved: bool, limit: Option<int>, noAttemptLimit: bool, noPhases: bool, reference: string)
    | AdmittedE
    | HostStatusE(status: Status)
    | OtherE(body: string)

  datatype Status = Pending | Done | Failed | Uncertain | Blocked

  datatype Row = Row(id: OpId, payload: Payload, status: Status, evidence: Option<Evidence>)

  datatype Event =
    | Intent(id: OpId, payload: Payload)
    | Receipt(id: OpId, status: Status, evidence: Evidence)
    | Note(kind: string, subject: OpId)

  datatype State = State(rows: seq<Row>, events: seq<Event>)

  const EMPTY := State([], [])

  datatype Kind = ScopeK | AttemptK | V1K | V2K | V3K | V4K | FenceK | AdmissionK
                | RunK | SlotK | ClaimK | BudgetK | GatewayK | TokenK | OtherK

  function KindOf(p: Payload): Kind {
    match p
    case ScopeP(_, _) => ScopeK
    case AttemptP(_, _, _, _, _, _, _) => AttemptK
    case AmendV1P(_, _, _, _, _, _) => V1K
    case AmendV2P(_, _, _, _, _, _, _, _, _, _) => V2K
    case AmendV3P(_, _, _) => V3K
    case AmendV4P(_, _, _) => V4K
    case FenceP(_) => FenceK
    case AdmissionP(_, _) => AdmissionK
    case RunP(_) => RunK
    case SlotP(_, _, _) => SlotK
    case ClaimP(_, _, _) => ClaimK
    case BudgetP(_, _, _, _, _) => BudgetK
    case GatewayP(_, _, _, _) => GatewayK
    case TokenP(_, _, _, _) => TokenK
    case OtherP(_, _) => OtherK
  }

  // ---- Queries ----

  /** SELECT by primary key. */
  function Lookup(rows: seq<Row>, id: OpId): (r: Option<Row>)
    ensures r.Some? ==> r.value.id == id && r.value in rows
  {
    if rows == [] then None
    else if rows[|rows| - 1].id == id then Some(rows[|rows| - 1])
    else Lookup(rows[..|rows| - 1], id)
  }

  /** SELECT by condition, in insertion order. */
  function Filter(rows: seq<Row>, p: Row -> bool): seq<Row> {
    if rows == [] then []
    else Filter(rows[..|rows| - 1], p) + if p(rows[|rows| - 1]) then [rows[|rows| - 1]] else []
  }

  function Sum(rows: seq<Row>, w: Row -> int): int {
    if rows == [] then 0 else Sum(rows[..|rows| - 1], w) + w(rows[|rows| - 1])
  }

  /** The events that speak of one operation, oldest first. */
  function EventsOf(events: seq<Event>, id: OpId): seq<Event> {
    if events == [] then []
    else
      var last := events[|events| - 1];
      EventsOf(events[..|events| - 1], id) + if !last.Note? && last.id == id then [last] else []
  }

  function IsKind(k: Kind): Row -> bool {
    (r: Row) => KindOf(r.payload) == k
  }

  function OfKind(rows: seq<Row>, k: Kind): seq<Row> {
    Filter(rows, IsKind(k))
  }

  // ---- Writes ----

  /** INSERT of one row with the events of its transaction. */
  function Insert(s: State, row: Row, events: seq<Event>): State {
    State(s.rows + [row], s.events + events)
  }

  function FinishRows(rows: seq<Row>, id: OpId, status: Status, evidence: Evidence): (r: seq<Row>)
    ensures |r| == |rows|
  {
    if rows == [] then []
    else
      var last := rows[|rows| - 1];
      FinishRows(rows[..|rows| - 1], id, status, evidence) +
      [if last.id == id then last.(status := status, evidence := Some(evidence)) else last]
  }

  /** UPDATE of a pending row to its terminal outcome, with its receipt event. */
  function Finish(s: State, id: OpId, status: Status, evidence: Evidence): State {
    State(FinishRows(s.rows, id, status, evidence), s.events + [Receipt(id, status, evidence)])
  }

  /** A durable intent: repeating it returns the recorded row, changing it is refused. */
  function RecordIntent(s: State, id: OpId, p: Payload): Result<State>
    requires HasIntentEvent(p)
  {
    match Lookup(s.rows, id)
    case None => Ok(Insert(s, Row(id, p, Pending, None), [Intent(id, p)]))
    case Some(r) => if r.payload == p then Ok(s) else Err(Error.Conflict)
  }

  /** A terminal outcome: repeating it is accepted, replacing it is refused. */
  function RecordReceipt(s: State, id: OpId, status: Status, evidence: Evidence): Result<State> {
    var terminal := status != Pending;
    :- Need(terminal, BadValue);
    match Lookup(s.rows, id)
    case None => Err(Error.Conflict)
    case Some(r) =>
      if r.status != Pending then
        if r.status == status && r.evidence == Some(evidence) then Ok(s) else Err(Error.Conflict)
      else Ok(Finish(s, id, status, evidence))
  }

  // ---- What every ledger keeps ----

  /** No two rows share an identifier. */
  ghost predicate UniqueIds(rows: seq<Row>) {
    rows == [] || (UniqueIds(rows[..|rows| - 1]) && Lookup(rows[..|rows| - 1], rows[|rows| - 1].id).None?)
  }

  /** A pending row has no evidence and a finished row has some. */
  ghost predicate ReceiptShape(rows: seq<Row>) {
    forall r :: r in rows ==> (r.status == Pending <==> r.evidence == None)
  }

  predicate HasIntentEvent(p: Payload) {
    !(p.ScopeP? || p.AttemptP? || p.FenceP? || p.AdmissionP?)
  }

  /** The events a row must have left behind. */
  function ExpectedEvents(r: Option<Row>): seq<Event> {
    if r.None? then []
    else
      (if HasIntentEvent(r.value.payload) then [Intent(r.value.id, r.value.payload)] else []) +
      (if r.value.evidence.Some? then [Receipt(r.value.id, r.value.status, r.value.evidence.value)] else [])
  }

  /** The event log is an exact mirror of the table: every row has its intent and
      receipt once, in order, and no event speaks of a row that is not there. */
  ghost predicate Mirror(s: State) {
    forall id :: EventsOf(s.events, id) == ExpectedEvents(Lookup(s.rows, id))
  }

  ghost predicate Sound(s: State) {
    UniqueIds(s.rows) && ReceiptShape(s.rows) && Mirror(s)
  }

  // ---- Lemmas on queries ----

  lemma {:induction false} LookupPresent(rows: seq<Row>, r: Row)
    requires r in rows
    ensures Lookup(rows, r.id).Some?
  {
    var init, last := rows[..|rows| - 1], rows[|rows| - 1];
    assert rows == init + [last];
    if r in init {
      LookupPresent(init, r);
    }
  }

  lemma {:induction false} LookupUnique(rows: seq<Row>, r: Row)
    requires UniqueIds(rows) && r in rows
    ensures Lookup(rows, r.id) == Some(r)
  {
    var init, last := rows[..|rows| - 1], rows[|rows| - 1];
    assert rows == init + [last];
    if r in init {
      LookupUnique(init, r);
    }
  }

  lemma {:induction false} UniqueInsert(rows: seq<Row>, row: Row)
    requires UniqueIds(rows) && Lookup(rows, row.id).None?
    ensures UniqueIds(rows + [row])
  {
    assert (rows + [row])[..|rows|] == rows;
  }

  lemma {:induction false} UniqueFinish(rows: seq<Row>, id: OpId, status: Status, evidence: Evidence)
    requires UniqueIds(rows)
    ensures UniqueIds(FinishRows(rows, id, status, evidence))
  {
    if rows != [] {
      var init, last := rows[..|rows| - 1], rows[|rows| - 1];
      var done := FinishRows(rows, id, status, evidence);
      UniqueFinish(init, id, status, evidence);
      LookupFinish(init, id, status, evidence, last.id);
      assert done[..|done| - 1] == FinishRows(init, id, status, evidence);
    }
  }

  lemma {:induction false} LookupInsert(rows: seq<Row>, row: Row, id: OpId)
    ensures Lookup(rows + [row], id) == if row.id == id then Some(row) else Lookup(rows, id)
  {
    assert (rows + [row])[..|rows|] == rows;
  }

  lemma {:induction false} FilterInsert(rows: seq<Row>, row: Row, p: Row -> bool)
    ensures Filter(rows + [row], p) == Filter(rows, p) + if p(row) then [row] else []
  {
    assert (rows + [row])[..|rows|] == rows;
  }

  lemma {:induction false} SumInsert(rows: seq<Row>, row: Row, w: Row -> int)
    ensures Sum(rows + [row], w) == Sum(rows, w) + w(row)
  {
    assert (rows + [row])[..|rows|] == rows;
  }

  lemma {:induction false} FilterMembers(rows: seq<Row>, p: Row -> bool)
    ensures forall r :: r in Filter(rows, p) <==> r in rows && p(r)
  {
    if rows != [] {
      var init, last := rows[..|rows| - 1], rows[|rows| - 1];
      FilterMembers(init, p);
      assert rows == init + [last];
    }
  }

  lemma {:induction false} FinishMembers(rows: seq<Row>, id: OpId, status: Status, evidence: Evidence)
    ensures forall i :: 0 <= i < |rows| ==>
              FinishRows(rows, id, status, evidence)[i] ==
              if rows[i].id == id then rows[i].(status := status, evidence := Some(evidence)) else rows[i]
  {
    if rows != [] {
      FinishMembers(rows[..|rows| - 1], id, status, evidence);
    }
  }

  lemma {:induction false} LookupFinish(rows: seq<Row>, id: OpId, status: Status, evidence: Evidence, key: OpId)
    ensures Lookup(FinishRows(rows, id, status, evidence), key) ==
            match Lookup(rows, key)
            case None => None
            case Some(r) => Some(if key == id then r.(status := status, evidence := Some(evidence)) else r)
  {
    if rows != [] {
      var init := rows[..|rows| - 1];
      var done := FinishRows(rows, id, status, evidence);
      LookupFinish(init, id, status, evidence, key);
      assert done[..|done| - 1] == FinishRows(init, id, status, evidence);
    }
  }

  /** A condition that looks only at identity and intent. */
  ghost predicate Immutable(p: Row -> bool) {
    forall r: Row, st: Status, e: Option<Evidence> :: p(r.(status := st, evidence := e)) == p(r)
  }

  lemma {:induction false} FilterFinish(rows: seq<Row>, p: Row -> bool, id: OpId, status: Status, evidence: Evidence)
    requires Immutable(p)
    ensures Filter(FinishRows(rows, id, status, evidence), p) == FinishRows(Filter(rows, p), id, status, evidence)
  {
    if rows != [] {
      var init, last := rows[..|rows| - 1], rows[|rows| - 1];
      var done := FinishRows(rows, id, status, evidence);
      FilterFinish(init, p, id, status, evidence);
      assert done[..|done| - 1] == FinishRows(init, id, status, evidence);
      var kept := Filter(init, p);
      var last' := last.(status := status, evidence := Some(evidence));
      assert p(last') == p(last);
      assert done[|done| - 1] == if last.id == id then last' else last;
      assert Filter(done, p) == FinishRows(kept, id, status, evidence) + if p(last) then [done[|done| - 1]] else [];
      if p(last) {
        assert (kept + [last])[..|kept|] == kept;
      } else {
        assert Filter(rows, p) == kept;
      }
    }
  }

  lemma {:induction false} FinishAbsent(rows: seq<Row>, id: OpId, status: Status, evidence: Evidence)
    requires forall r :: r in rows ==> r.id != id
    ensures FinishRows(rows, id, status, evidence) == rows
  {
    if rows != [] {
      FinishAbsent(rows[..|rows| - 1], id, status, evidence);
    }
  }

  lemma {:induction false} KindFinish(s: State, id: OpId, status: Status, evidence: Evidence, k: Kind)
    requires UniqueIds(s.rows) && Lookup(s.rows, id).Some? && KindOf(Lookup(s.rows, id).value.payload) != k
    ensures OfKind(Finish(s, id, status, evidence).rows, k) == OfKind(s.rows, k)
  {
    FilterFinish(s.rows, IsKind(k), id, status, evidence);
    FilterMembers(s.rows, IsKind(k));
    forall r | r in OfKind(s.rows, k) ensures r.id != id {
      LookupUnique(s.rows, r);
    }
    FinishAbsent(OfKind(s.rows, k), id, status, evidence);
  }

  lemma {:induction false} SumFinish(rows: seq<Row>, w: Row -> int, id: OpId, status: Status, evidence: Evidence,
          was: Row)
    requires UniqueIds(rows) && was in rows && was.id == id
    ensures Sum(FinishRows(rows, id, status, evidence), w) ==
            Sum(rows, w) - w(was) + w(was.(status := status, evidence := Some(evidence)))
  {
    var init, last := rows[..|rows| - 1], rows[|rows| - 1];
    var done := FinishRows(rows, id, status, evidence);
    assert done[..|done| - 1] == FinishRows(init, id, status, evidence);
    assert rows == init + [last];
    LookupUnique(rows, was);
    if last.id == id {
      forall r | r in init ensures r.id != id {
        LookupPresent(init, r);
      }
      FinishAbsent(init, id, status, evidence);
    } else {
      SumFinish(init, w, id, status, evidence, was);
    }
  }

  lemma {:induction false} EventsAppend(events: seq<Event>, e: Event, id: OpId)
    ensures EventsOf(events + [e], id) == EventsOf(events, id) + if !e.Note? && e.id == id then [e] else []
  {
    assert (events + [e])[..|events|] == events;
  }

  // ---- Every write keeps the ledger sound ----

  /** The events written by the transaction that inserts `row`: its intent and, when it
      is inserted finished, its receipt. Notes may follow. */
  function BirthEvents(row: Row): seq<Event> {
    ExpectedEvents(Some(row))
  }

  lemma {:induction false} InsertSound(s: State, row: Row)
    requires Sound(s) && Lookup(s.rows, row.id).None?
    requires row.status == Pending <==> row.evidence == None
    ensures Sound(Insert(s, row, BirthEvents(row)))
  {
    var t := Insert(s, row, BirthEvents(row));
    UniqueInsert(s.rows, row);
    forall id ensures EventsOf(t.events, id) == ExpectedEvents(Lookup(t.rows, id)) {
      LookupInsert(s.rows, row, id);
      assert EventsOf(s.events, id) == ExpectedEvents(Lookup(s.rows, id));
      EventsAppendAll(s.events, BirthEvents(row), id);
      BirthMirrored(row, id);
    }
  }

  lemma {:induction false} EventsAppendAll(events: seq<Event>, more: seq<Event>, id: OpId)
    ensures EventsOf(events + more, id) == EventsOf(events, id) + EventsOf(more, id)
  {
    if more == [] {
      assert events + more == events;
    } else {
      EventsAppendAll(events, more[..|more| - 1], id);
      assert events + more == events + more[..|more| - 1] + [more[|more| - 1]];
      EventsAppend(events + more[..|more| - 1], more[|more| - 1], id);
    }
  }

  lemma {:induction false} EventsOne(e: Event, id: OpId)
    requires !e.Note?
    ensures EventsOf([e], id) == if e.id == id then [e] else []
  {
    EventsAppend([], e, id);
    assert [] + [e] == [e];
  }

  /** Everything a row's birth logs is about that row. */
  lemma {:induction false} BirthMirrored(row: Row, id: OpId)
    ensures EventsOf(BirthEvents(row), id) == if row.id == id then BirthEvents(row) else []
  {
    var intent := if HasIntentEvent(row.payload) then [Intent(row.id, row.payload)] else [];
    var receipt := if row.evidence.Some? then [Receipt(row.id, row.status, row.evidence.value)] else [];
    assert BirthEvents(row) == intent + receipt;
    hide HasIntentEvent, BirthEvents, ExpectedEvents;
    EventsAppendAll(intent, receipt, id);
    if intent != [] {
      EventsOne(intent[0], id);
    }
    if receipt != [] {
      EventsOne(receipt[0], id);
    }
  }

  lemma {:induction false} NoteSound(s: State, kind: string, subject: OpId)
    requires Sound(s)
    ensures Sound(State(s.rows, s.events + [Note(kind, subject)]))
  {
    forall id ensures EventsOf(s.events + [Note(kind, subject)], id) == ExpectedEvents(Lookup(s.rows, id)) {
      EventsAppend(s.events, Note(kind, subject), id);
    }
  }

  lemma {:induction false} ShapeFinish(rows: seq<Row>, id: OpId, status: Status, evidence: Evidence)
    requires ReceiptShape(rows) && status != Pending
    ensures ReceiptShape(FinishRows(rows, id, status, evidence))
  {
    FinishMembers(rows, id, status, evidence);
    var done := FinishRows(rows, id, status, evidence);
    forall r | r in done ensures r.status == Pending <==> r.evidence == None {
      var i :| 0 <= i < |done| && done[i] == r;
    }
  }

  /** A receipt completes the events expected of a pending row. */
  lemma {:induction false} ReceiptExpected(r: Row, status: Status, evidence: Evidence)
    requires r.evidence == None
    ensures ExpectedEvents(Some(r.(status := status, evidence := Some(evidence)))) ==
            ExpectedEvents(Some(r)) + [Receipt(r.id, status, evidence)]
  {
  }

  lemma {:induction false} FinishSound(s: State, id: OpId, status: Status, evidence: Evidence)
    requires Sound(s) && status != Pending
    requires Lookup(s.rows, id).Some? && Lookup(s.rows, id).value.status == Pending
    ensures Sound(Finish(s, id, status, evidence))
  {
    hide ExpectedEvents, UniqueIds;
    var t := Finish(s, id, status, evidence);
    var was := Lookup(s.rows, id).value;
    UniqueFinish(s.rows, id, status, evidence);
    ShapeFinish(s.rows, id, status, evidence);
    ReceiptExpected(was, status, evidence);
    forall key ensures EventsOf(t.events, key) == ExpectedEvents(Lookup(t.rows, key)) {
      assert EventsOf(s.events, key) == ExpectedEvents(Lookup(s.rows, key));
      LookupFinish(s.rows, id, status, evidence, key);
      EventsAppend(s.events, Receipt(id, status, evidence), key);
    }
  }
}
