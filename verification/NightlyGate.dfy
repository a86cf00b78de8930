/** The gate of human approvals the console acts on: its cycles, what each operation does to
    them, and what it reports, which falls back when an approval lapses. */
module NightlyGate {
  import opened Outcome

  datatype Phase = Preparing | AwaitingApproval | AwaitingDeployment | Observing | Halted | Completed

  /** The stored row of a cycle. `lapsed` is not stored: it says that the approval on record has
      expired or cannot be read. `archived` says that a rebuild has taken the row's place. */
  datatype Row = Row(phase: Phase, sealed: bool, approved: bool, lapsed: bool, deployed: bool, archived: bool)

  datatype State = State(rows: map<string, Row>, current: Option<string>)

  const EMPTY := State(map[], None)

  datatype Move =
    | Begin(cycle: string)
    | Ready(cycle: string)
    | Approve(cycle: string)
    | Lapse(cycle: string)     // the approval expires, or can no longer be read
    | Renew(cycle: string)     // the approval can be read again
    | Deployed(cycle: string)
    | Complete(cycle: string)
    | Interrupt(cycle: string)
    | NoRelease(cycle: string)
    | Reconcile(cycle: string)
    | Halt(cycle: string)
    | Rebuild(cycle: string, next: string)

  const FRESH := Row(Preparing, false, false, false, false, false)

  predicate Live(row: Row) {
    row.phase != Completed && !row.archived
  }

  predicate Approvable(row: Row) {
    !row.archived && (row.phase.AwaitingApproval? || row.phase.AwaitingDeployment?)
  }

  /** A cycle's row after an operation; refused, it stays. */
  function Change(row: Row, move: Move): Row {
    match move
    case Ready(_) => if row.phase == Preparing then row.(phase := AwaitingApproval, sealed := true) else row
    case Approve(_) => if Approvable(row) then row.(phase := AwaitingDeployment, approved := true, lapsed := false) else row
    case Lapse(_) => row.(lapsed := true)
    case Renew(_) => row.(lapsed := false)
    case Deployed(_) =>
      if row.approved && (row.phase.AwaitingDeployment? || row.phase.Observing?) then row.(phase := Observing, deployed := true) else row
    case Complete(_) => if row.phase == Observing then row.(phase := Completed) else row
    case Interrupt(_) =>
      if row.deployed && (row.phase.Observing? || row.phase.Halted?) then row.(phase := Completed) else row
    case NoRelease(_) => if row.phase == Preparing then row.(phase := Completed) else row
    case Reconcile(_) =>
      if row.phase == Halted && !row.sealed && !row.approved && !row.deployed then row.(phase := Completed) else row
    case Halt(_) => if row.phase != Completed then row.(phase := Halted) else row
    case _ => row
  }

  function Put(g: State, cycle: string, row: Row): State {
    State(g.rows[cycle := row], if row.phase == Completed && g.current == Some(cycle) then None else g.current)
  }

  function Act(g: State, move: Move): State {
    match move
    case Begin(cycle) => if g.current.Some? || cycle in g.rows then g else State(g.rows[cycle := FRESH], Some(cycle))
    case Rebuild(cycle, next) =>
      if g.current == Some(cycle) && cycle in g.rows && next !in g.rows
         && g.rows[cycle].phase == AwaitingApproval && !g.rows[cycle].approved && !g.rows[cycle].deployed
      then State(g.rows[cycle := g.rows[cycle].(archived := true)][next := FRESH], Some(next))
      else g
    case _ =>
      if move.cycle !in g.rows || g.rows[move.cycle].archived then g
      else Put(g, move.cycle, Change(g.rows[move.cycle], move))
  }

  function Acts(g: State, moves: seq<Move>): State {
    if moves == [] then g else Act(Acts(g, moves[..|moves| - 1]), moves[|moves| - 1])
  }

  // ---- What the gate reports ----

  /** The phase a stored row is described by, none when the gate is idle. */
  function Described(row: Row): Option<Phase> {
    if row.phase == Completed then None
    else if row.phase == AwaitingDeployment && row.lapsed then Some(AwaitingApproval)
    else Some(row.phase)
  }

  predicate Reports(g: State, phase: Phase) {
    g.current.Some? && g.current.value in g.rows && Described(g.rows[g.current.value]) == Some(phase)
  }

  /** The gate waits for the approval of this cycle. */
  predicate WaitsFor(g: State, cycle: string) {
    g.current == Some(cycle) && Reports(g, AwaitingApproval)
  }

  predicate Grants(g: State, cycle: string) {
    cycle in g.rows && Approvable(g.rows[cycle])
  }

  /** A deployment of this cycle is authorised. */
  predicate Permits(g: State, cycle: string) {
    cycle in g.rows && !g.rows[cycle].archived && Described(g.rows[cycle]) == Some(AwaitingDeployment)
  }

  predicate Approved(g: State, cycle: string) {
    cycle in g.rows && g.rows[cycle].approved
  }

  // ---- What every move keeps ----

  predicate Sound(row: Row) {
    && (row.phase.Preparing? ==> !row.sealed)
    && (row.phase.AwaitingApproval? ==> row.sealed)
    && (row.approved ==> row.sealed && !row.phase.Preparing? && !row.phase.AwaitingApproval?)
    && (row.phase.AwaitingDeployment? ==> row.approved && !row.deployed)
    && (row.phase.Observing? ==> row.deployed)
    && (row.deployed ==> row.approved)
    && (row.phase.Completed? && row.sealed ==> row.deployed)
    && (row.archived ==> row.phase.AwaitingApproval? && !row.approved)
  }

  /** At most one cycle is live, the current one. */
  ghost predicate Inv(g: State) {
    && (g.current.Some? ==> g.current.value in g.rows)
    && forall cycle <- g.rows :: Sound(g.rows[cycle]) && (Live(g.rows[cycle]) <==> g.current == Some(cycle))
  }

  lemma {:induction false} ChangeSound(row: Row, move: Move)
    requires Sound(row) && !row.archived
    ensures Sound(Change(row, move)) && !Change(row, move).archived
    ensures row.phase.Completed? ==> Change(row, move).phase.Completed?
  {
  }

  lemma {:induction false} ActKeeps(g: State, move: Move)
    requires Inv(g)
    ensures Inv(Act(g, move))
  {
    if move.cycle in g.rows && !g.rows[move.cycle].archived {
      ChangeSound(g.rows[move.cycle], move);
    }
    hide Change;
  }

  /** Whatever the operators do, in any order, at most one cycle is live, nothing is deployed
      or observed without its approval, and a cycle with a candidate completes only once that is
      deployed. */
  lemma {:induction false} Reachable(moves: seq<Move>)
    ensures Inv(Acts(EMPTY, moves))
  {
    if moves != [] {
      Reachable(moves[..|moves| - 1]);
      ActKeeps(Acts(EMPTY, moves[..|moves| - 1]), moves[|moves| - 1]);
    }
  }

  /** The cycle is closed, and the gate idle. */
  predicate Closed(g: State, cycle: string) {
    cycle in g.rows && g.rows[cycle].phase == Completed && g.current == None
  }

  /** The current cycle is over exactly from where it may be: observation ends by completion; a
      deployment that is observed or halted can be interrupted; a preparation may end without
      release; and a halted cycle that came to nothing can be reconciled. */
  lemma {:induction false} EndingsDecide(g: State, cycle: string)
    requires Inv(g) && g.current == Some(cycle)
    ensures Closed(Act(g, Complete(cycle)), cycle) <==> g.rows[cycle].phase == Observing
    ensures Closed(Act(g, Interrupt(cycle)), cycle) <==>
            g.rows[cycle].deployed && (g.rows[cycle].phase == Observing || g.rows[cycle].phase == Halted)
    ensures Closed(Act(g, NoRelease(cycle)), cycle) <==> g.rows[cycle].phase == Preparing
    ensures Closed(Act(g, Reconcile(cycle)), cycle) <==>
            g.rows[cycle].phase == Halted && !g.rows[cycle].sealed && !g.rows[cycle].approved && !g.rows[cycle].deployed
  {
  }

  /** Whatever is not over can be halted, and exactly an unapproved candidate gives way to its
      rebuild. */
  lemma {:induction false} HaltsAndRebuilds(g: State, cycle: string, next: string)
    requires Inv(g) && g.current == Some(cycle)
    ensures Act(g, Halt(cycle)).rows[cycle].phase == Halted && Act(g, Halt(cycle)).current == Some(cycle)
    ensures next !in g.rows ==>
              (Act(g, Rebuild(cycle, next)).current == Some(next) <==> g.rows[cycle].phase == AwaitingApproval && !g.rows[cycle].approved)
  {
  }

  /** An approval is never taken back from the record. */
  lemma {:induction false} ApprovalStays(g: State, move: Move, cycle: string)
    requires Inv(g) && Approved(g, cycle)
    ensures Approved(Act(g, move), cycle)
  {
  }

  lemma {:induction false} ApproveGrants(g: State, cycle: string)
    requires Grants(g, cycle)
    ensures Approved(Act(g, Approve(cycle)), cycle) && Permits(Act(g, Approve(cycle)), cycle)
  {
  }

  lemma {:induction false} WaitingGrants(g: State, cycle: string)
    requires Inv(g) && WaitsFor(g, cycle)
    ensures Grants(g, cycle) && Permits(Act(g, Approve(cycle)), cycle)
  {
  }

  lemma {:induction false} ApprovedObserves(g: State, cycle: string)
    requires Inv(g) && WaitsFor(g, cycle)
    ensures Reports(Act(Act(g, Approve(cycle)), Deployed(cycle)), Observing)
  {
  }

  lemma {:induction false} OneReady(cycle: string)
    ensures WaitsFor(Acts(EMPTY, [Begin(cycle), Ready(cycle)]), cycle)
  {
    var moves := [Begin(cycle), Ready(cycle)];
    assert moves[..1] == [Begin(cycle)] && [Begin(cycle)][..0] == [];
    assert Acts(EMPTY, [Begin(cycle)]) == Act(EMPTY, Begin(cycle));
  }

  /** An approved cycle for which the gate yet reports, of itself or of another cycle, that it
      waits for an approval. */
  predicate Misleads(g: State, cycle: string) {
    && Approved(g, cycle)
    && ((g.rows[cycle].phase == AwaitingDeployment && g.rows[cycle].lapsed)
        || (g.rows[cycle].phase == Completed && Reports(g, AwaitingApproval)))
  }

  /** After an approval the gate reports that it waits for one exactly when the approval has
      lapsed before deployment, or the cycle is completed and the next one waits. */
  lemma {:induction false} ReportsAfterApproval(g: State, cycle: string)
    requires Inv(g) && Approved(g, cycle)
    ensures Reports(g, AwaitingApproval) <==> Misleads(g, cycle)
  {
  }

  /** The cycle is the current one and its approval can be read. */
  predicate Settled(g: State, cycle: string) {
    g.current == Some(cycle) && Approved(g, cycle) && g.rows[cycle].phase != Completed && !g.rows[cycle].lapsed
  }

  /** The only moves that can end that. */
  predicate Disturbs(move: Move, cycle: string) {
    (move.Lapse? || move.Complete? || move.Interrupt?) && move.cycle == cycle
  }

  lemma {:induction false} SettledStays(g: State, move: Move, cycle: string)
    requires Inv(g) && Settled(g, cycle) && !Disturbs(move, cycle)
    ensures Settled(Act(g, move), cycle)
  {
  }

  lemma {:induction false} PermitSettles(g: State, cycle: string)
    requires Inv(g) && Permits(g, cycle)
    ensures Settled(g, cycle)
  {
  }

  lemma {:induction false} SettledNeverMisleads(g: State, cycle: string)
    requires Settled(g, cycle)
    ensures !Misleads(g, cycle)
  {
  }
}
