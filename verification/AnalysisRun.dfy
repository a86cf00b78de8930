/** Durable, at-most-once admission of the thirty ordered slots of an analysis run. */
module AnalysisRun {
  import opened Outcome
  import opened Ledger

  const SLOT_COUNT := 30
  const MAX_BODY := 65536

  /** A run handle always carries exactly thirty frozen slots. */
  type Handle = h: RunIdentity | |h.slots| == SLOT_COUNT
    witness RunIdentity("r", "", "", seq(SLOT_COUNT, _ => Request(1, "", 1)))

  datatype SlotState = NotRun | Unresolved | SlotDone | SlotFailed | SlotBlocked

  /** The outcome lets the next slot run. */
  predicate Resolved(st: SlotState) {
    st == SlotDone || st == SlotFailed
  }

  function HostState(status: Status): SlotState {
    match status
    case Pending => NotRun
    case Done => SlotDone
    case Failed => SlotFailed
    case Uncertain => Unresolved
    case Blocked => SlotBlocked
  }

  /** One slot's state. A claimed slot without outcome reads as unresolved, like one that
      was finished uncertain. */
  function StateAt(rows: seq<Row>, h: Handle, i: nat): Result<SlotState> {
    var slot := Lookup(rows, SlotKey(h.runId, i));
    var claim := Lookup(rows, ClaimKey(h.runId, i));
    :- Need(slot.Some? && slot.value.payload == SlotP(h.runId, i, h.slots), Error.Conflict);
    :- Need(claim.None? || claim.value.payload == ClaimP(h.runId, i, h.slots), Error.Conflict);
    :- Need(claim.None? || (claim.value.status == Done && claim.value.evidence == Some(AdmittedE)), Error.Blocked);
    if slot.value.status == Pending && slot.value.evidence == None then
      Ok(if claim.Some? then Unresolved else NotRun)
    else
      :- Need(claim.Some? && slot.value.status != Pending
              && slot.value.evidence == Some(HostStatusE(slot.value.status)), Error.Blocked);
      Ok(HostState(slot.value.status))
  }

  function StatesFrom(rows: seq<Row>, h: Handle, i: nat): (r: Result<seq<SlotState>>)
    requires i <= SLOT_COUNT
    ensures r.Ok? ==> |r.value| == SLOT_COUNT - i
                      && forall k :: 0 <= k < |r.value| ==> StateAt(rows, h, i + k) == Ok(r.value[k])
    decreases SLOT_COUNT - i
  {
    if i == SLOT_COUNT then Ok([])
    else
      var first :- StateAt(rows, h, i);
      var rest :- StatesFrom(rows, h, i + 1);
      Ok([first] + rest)
  }

  /** All thirty states, or the refusal of a run whose stored identity drifted. */
  function CheckRun(rows: seq<Row>, h: Handle): (r: Result<seq<SlotState>>)
    ensures r.Ok? ==> |r.value| == SLOT_COUNT
                      && forall k :: 0 <= k < SLOT_COUNT ==> StateAt(rows, h, k) == Ok(r.value[k])
  {
    var run := Lookup(rows, RunKey(h.runId));
    :- Need(run.Some? && run.value.payload == RunP(h), Error.Conflict);
    :- Need(run.value.status == Pending && run.value.evidence == None, Error.Blocked);
    StatesFrom(rows, h, 0)
  }

  /** INSERT with its intent event; a taken identifier is a storage error. */
  function Register(s: State, row: Row): Result<State> {
    var existing := Lookup(s.rows, row.id);
    :- Need(existing.None?, Error.Blocked);
    Ok(Insert(s, row, ExpectedEvents(Some(row))))
  }

  function RegisterSlots(s: State, h: Handle, i: nat): Result<State>
    requires i <= SLOT_COUNT
    decreases SLOT_COUNT - i
  {
    if i == SLOT_COUNT then Ok(s)
    else
      var t :- Register(s, Row(SlotKey(h.runId, i), SlotP(h.runId, i, h.slots), Pending, None));
      RegisterSlots(t, h, i + 1)
  }

  /** A run and its thirty slots are registered in one transaction, once. */
  function CreateRun(s: State, h: Handle): Result<State> {
    var existing := Lookup(s.rows, RunKey(h.runId));
    :- Need(existing.None?, Error.Conflict);
    var t :- Register(s, Row(RunKey(h.runId), RunP(h), Pending, None));
    RegisterSlots(t, h, 0)
  }

  /** The normalised body is exactly the frozen request of the slot. */
  predicate MatchesSlot(body: Request, slot: Request) {
    body == slot && body.encodedBytes <= MAX_BODY
  }

  /** Every slot before slot `i` is done or failed. */
  predicate Preceding(states: seq<SlotState>, i: nat)
    requires i <= |states|
  {
    forall j :: 0 <= j < i ==> Resolved(states[j])
  }

  predicate MayClaim(states: seq<SlotState>, i: nat)
    requires i < |states|
  {
    states[i] == NotRun && Preceding(states, i)
  }

  function ClaimRow(h: Handle, i: nat): Row {
    Row(ClaimKey(h.runId, i), ClaimP(h.runId, i, h.slots), Done, Some(AdmittedE))
  }

  /** Admission, given the states the transaction read. */
  function ClaimWith(s: State, h: Handle, i: nat, body: Request, read: Result<seq<SlotState>>): Result<State>
    requires i < SLOT_COUNT && (read.Ok? ==> |read.value| == SLOT_COUNT)
  {
    var states :- read;
    :- Need(MayClaim(states, i), Error.Conflict);
    :- Need(MatchesSlot(body, h.slots[i]), BadValue);
    Register(s, ClaimRow(h, i))
  }

  /** Admission of one slot: the claim commits before any request may be sent. */
  function Claim(s: State, h: Handle, i: nat, body: Request): Result<State>
    requires i < SLOT_COUNT
  {
    ClaimWith(s, h, i, body, CheckRun(s.rows, h))
  }

  /** The host records an outcome; `checked` says its last checks passed. */
  function FinishSlot(s: State, h: Handle, i: nat, status: Status, checked: bool): Result<State>
    requires i < SLOT_COUNT
  {
    var terminal := status != Pending;
    :- Need(terminal, BadValue);
    var states :- CheckRun(s.rows, h);
    var recorded := match Lookup(s.rows, SlotKey(h.runId, i)) case None => Pending case Some(r) => r.status;
    :- Need(states[i] != NotRun, Error.Conflict);
    if recorded != Pending then
      :- Need(recorded == status, Error.Conflict);
      Ok(s)
    else
      :- Need(checked, Denied);
      Ok(Finish(s, SlotKey(h.runId, i), status, HostStatusE(status)))
  }

  /** Insert one half of a token binding, or confirm the one that is there. */
  function BindHalf(s: State, id: OpId, p: Payload): Result<State> {
    match Lookup(s.rows, id)
    case None => Register(s, Row(id, p, Pending, None))
    case Some(r) =>
      :- Need(r.payload == p && r.status == Pending && r.evidence == None, Error.Conflict);
      Ok(s)
  }

  /** Bind a private token to a slot, both ways, in one transaction. */
  function BindToken(s: State, h: Handle, i: nat, token: string): Result<State>
    requires i < SLOT_COUNT
  {
    var _ :- CheckRun(s.rows, h);
    var t :- BindHalf(s, GatewayKey(h.runId, i), GatewayP(h.runId, i, h.slots, token));
    BindHalf(t, TokenKey(token), TokenP(h.runId, i, h.slots, token))
  }
}
