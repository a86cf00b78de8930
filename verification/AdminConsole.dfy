/** The administrator's publication console: command rows, the threads that move them, the
    publisher's claims, the gate everyone acts on, and restarts, as one state machine. */
module AdminConsole {
  import opened Outcome
  import Gate = NightlyGate

  datatype Decision = Publish | Defer

  datatype Packet = Packet(requestId: string, actor: string, cycle: string, candidate: string, decision: Decision)

  datatype Status = Recording | Queued | Running | Uncertain | Succeeded | Failed | Deferred

  /** Where the one thread that owns a command stands; `Idle` when there is none. */
  datatype Point = Idle | Auditing | Audited | Started | Checked | Approving | Deploying | Publishing | Handling

  datatype Command = Command(packet: Packet, status: Status, point: Point)

  /** `approvals`, `prepared`, `publishes` and `starts` are what has happened so far, in order:
      the cycles this console approved, the cycles the publisher's preparation is claimed for,
      the cycles the publisher began to publish with the command it did so for, and the
      commands that began to run. */
  datatype State = State(commands: seq<Command>, gate: Gate.State, approvals: seq<string>, prepared: seq<string>,
                         publishes: seq<(string, string)>, starts: seq<string>)

  predicate Active(c: Command) {
    c.packet.decision == Publish && (c.status.Recording? || c.status.Queued? || c.status.Running? || c.status.Uncertain? || c.status.Succeeded?)
  }

  function Find(commands: seq<Command>, id: string): (i: int)
    ensures -1 <= i < |commands|
    ensures i >= 0 ==> commands[i].packet.requestId == id
    ensures i < 0 ==> forall c <- commands :: c.packet.requestId != id
  {
    if commands == [] then -1
    else if commands[|commands| - 1].packet.requestId == id then |commands| - 1
    else Find(commands[..|commands| - 1], id)
  }

  predicate ActiveIn(commands: seq<Command>, cycle: string) {
    exists c <- commands :: c.packet.cycle == cycle && Active(c)
  }

  /** What a remote call came to: it happened, it did not, or it happened without an answer. */
  datatype Answer = Yes | No | Lost

  /** What checking and preparing a publication came to: refused before the publisher's claim,
      failed after it, or done. */
  datatype Preparation = Refused | Broken | Planned

  datatype Step =
    | Insert(packet: Packet)                    // submit: the transaction that records a new command
    | AuditDecision(id: string, ok: bool)       // submit: the decision is audited
    | Settle(id: string)                        // submit: deferred, or queued
    | Start(id: string)                         // process: queued becomes running
    | Verify(id: string, plan: Preparation)     // process: candidate and audit are checked, publication prepared
    | Approve(id: string, answer: Answer)       // process: the gate is asked to approve
    | Deploy(id: string, ok: bool)              // process: the publisher checks its authority and begins
    | Attest(id: string, deployed: bool, ok: bool) // process: the publisher ends, with or without a deployment
    | Confirm(id: string, ok: bool, read: bool) // process: the phase is read, the outcome is recorded
    | Handle(id: string, readable: bool)        // process: the exception handler
    | Elsewhere(move: Gate.Move)                // the gate is moved by others, or by the clock
    | Restart                                   // every thread is gone, open commands become uncertain

  /** A step of a thread that owns a command. */
  predicate Owned(step: Step) {
    !step.Restart? && !step.Elsewhere? && !step.Insert?
  }

  function SetCommand(s: State, i: int, status: Status, point: Point): State
    requires 0 <= i < |s.commands|
  {
    s.(commands := s.commands[i := s.commands[i].(status := status, point := point)])
  }

  function Recovered(c: Command): Command {
    c.(status := if (c.status.Recording? || c.status.Queued? || c.status.Running?) then Uncertain else c.status, point := Idle)
  }

  function RecoverAll(commands: seq<Command>): (r: seq<Command>)
    ensures |r| == |commands| && forall i :: 0 <= i < |r| ==> r[i] == Recovered(commands[i])
  {
    if commands == [] then []
    else RecoverAll(commands[..|commands| - 1]) + [Recovered(commands[|commands| - 1])]
  }

  /** One step; a step that is not enabled changes nothing. */
  function Next(s: State, step: Step): State {
    match step
    case Restart => s.(commands := RecoverAll(s.commands))
    case Elsewhere(move) => s.(gate := Gate.Act(s.gate, move))
    case Insert(p) =>
      if Find(s.commands, p.requestId) >= 0 || ActiveIn(s.commands, p.cycle) then s
      else s.(commands := s.commands + [Command(p, Recording, Auditing)])
    case _ =>
      var i := Find(s.commands, step.id);
      if i < 0 then s else Move(s, i, step)
  }

  /** A step of the thread that owns command `i`. */
  function Move(s: State, i: int, step: Step): State
    requires 0 <= i < |s.commands| && Owned(step)
  {
    var c := s.commands[i];
    var p := c.packet;
    match step
    case AuditDecision(_, ok) =>
      if c.point != Auditing then s
      else if ok then SetCommand(s, i, c.status, Audited) else SetCommand(s, i, Uncertain, Idle)
    case Settle(_) =>
      if c.point != Audited then s
      else SetCommand(s, i, if p.decision == Defer then Deferred else if c.status == Recording then Queued else c.status, Idle)
    case Start(_) =>
      if c.status != Queued then s
      else SetCommand(s, i, Running, Started).(starts := s.starts + [p.requestId])
    case Verify(_, plan) =>
      if c.point != Started then s
      else if plan == Refused || !Gate.WaitsFor(s.gate, p.cycle) || p.cycle in s.prepared then SetCommand(s, i, c.status, Handling)
      else SetCommand(s, i, c.status, if plan == Planned then Checked else Handling).(prepared := s.prepared + [p.cycle])
    case Approve(_, answer) =>
      if c.point != Checked then s
      else if answer == No || !Gate.Grants(s.gate, p.cycle) then SetCommand(s, i, c.status, Handling)
      else SetCommand(s, i, c.status, if answer == Yes then Approving else Handling)
           .(gate := Gate.Act(s.gate, Gate.Approve(p.cycle)), approvals := s.approvals + [p.cycle])
    case Deploy(_, ok) =>
      if c.point != Approving then s
      else if !ok || !Gate.Permits(s.gate, p.cycle) then SetCommand(s, i, c.status, Handling)
      else SetCommand(s, i, c.status, Deploying).(publishes := s.publishes + [(p.cycle, p.requestId)])
    case Attest(_, deployed, ok) =>
      if c.point != Deploying then s
      else SetCommand(s, i, c.status, if ok then Publishing else Handling)
           .(gate := if deployed then Gate.Act(s.gate, Gate.Deployed(p.cycle)) else s.gate)
    case Confirm(_, ok, read) =>
      if c.point != Publishing then s
      else if ok && Gate.Reports(s.gate, Gate.Observing) then SetCommand(s, i, Succeeded, if read then Idle else Handling)
      else SetCommand(s, i, c.status, Handling)
    case Handle(_, readable) =>
      if c.point != Handling then s
      else SetCommand(s, i, if readable && Gate.Reports(s.gate, Gate.AwaitingApproval) then Failed else Uncertain, Idle)
  }

  function Run(s: State, steps: seq<Step>): State {
    if steps == [] then s else Next(Run(s, steps[..|steps| - 1]), steps[|steps| - 1])
  }

  // ---- The invariant ----

  ghost predicate UniqueIds(commands: seq<Command>) {
    forall i, j :: 0 <= i < j < |commands| ==> commands[i].packet.requestId != commands[j].packet.requestId
  }

  ghost predicate OneActive(commands: seq<Command>) {
    forall i, j :: 0 <= i < j < |commands| && Active(commands[i]) && Active(commands[j]) ==>
      commands[i].packet.cycle != commands[j].packet.cycle
  }

  /** Which thread positions go with which statuses. */
  ghost predicate Placed(c: Command) {
    && (c.status == Queued ==> c.packet.decision == Publish)
    && match c.point
       case Idle => c.status != Recording && c.status != Running
       case Auditing => c.status == Recording
       case Audited => c.status == Recording
       case Handling => c.packet.decision == Publish && (c.status.Running? || c.status.Succeeded?)
       case _ => c.packet.decision == Publish && c.status == Running
  }

  ghost predicate AllPlaced(commands: seq<Command>) {
    forall c <- commands :: Placed(c)
  }

  ghost predicate NoRepeats<T(!new)>(s: seq<T>) {
    forall i, j :: 0 <= i < j < |s| ==> s[i] != s[j]
  }

  /** Only commands that are past the queue have started, each once. */
  ghost predicate StartedOnce(s: State) {
    && NoRepeats(s.starts)
    && forall id <- s.starts ::
         var i := Find(s.commands, id); i >= 0 && !(s.commands[i].status.Recording? || s.commands[i].status.Queued?)
  }

  /** What this console approved is approved on the gate's record, and a command that has got
      past the approval, or succeeded, has one. */
  ghost predicate ApprovedBefore(s: State) {
    && Gate.Inv(s.gate)
    && (forall cycle <- s.approvals :: Gate.Approved(s.gate, cycle))
    && forall c <- s.commands :: PastApproval(c) ==> c.packet.cycle in s.approvals
  }

  predicate PastApproval(c: Command) {
    c.point.Approving? || c.point.Deploying? || c.point.Publishing? || c.status.Succeeded?
  }

  /** A command between the publisher's preparation and its publication. */
  predicate Holds(c: Command) {
    c.point.Checked? || c.point.Approving?
  }

  /** Preparation is claimed once for a cycle, and until its holder publishes nobody has. */
  ghost predicate PreparedOnce(s: State) {
    && NoRepeats(s.prepared)
    && forall c <- s.commands :: Holds(c) ==> Unpublished(s, c.packet.cycle) && c.packet.cycle in s.prepared
  }

  ghost predicate Unpublished(s: State, cycle: string) {
    forall q <- s.publishes :: q.0 != cycle
  }

  ghost predicate Published(s: State, c: Command) {
    (c.packet.cycle, c.packet.requestId) in s.publishes
  }

  /** Where a command stands that the publisher began to publish. */
  predicate Reached(c: Command) {
    && c.packet.decision == Publish
    && (c.status.Running? || c.status.Uncertain? || c.status.Succeeded? || c.status.Failed?)
    && !(c.point.Started? || Holds(c))
  }

  ghost predicate PublishedBy(s: State, q: (string, string)) {
    var i := Find(s.commands, q.1);
    i >= 0 && s.commands[i].packet.cycle == q.0 && Reached(s.commands[i])
  }

  /** A cycle is published once, prepared and approved, by the command that succeeds if any does. */
  ghost predicate PublishedOnce(s: State) {
    && (forall i, j :: 0 <= i < j < |s.publishes| ==> s.publishes[i].0 != s.publishes[j].0)
    && (forall q <- s.publishes :: q.0 in s.approvals && q.0 in s.prepared && PublishedBy(s, q))
    && forall c <- s.commands :: c.point.Deploying? || c.point.Publishing? || c.status.Succeeded? ==> Published(s, c)
  }

  ghost predicate Inv(s: State) {
    UniqueIds(s.commands) && OneActive(s.commands) && AllPlaced(s.commands) && StartedOnce(s) && ApprovedBefore(s) && PreparedOnce(s) && PublishedOnce(s)
  }

  // ---- Preservation ----

  lemma {:induction false} FindIs(commands: seq<Command>, i: nat)
    requires UniqueIds(commands) && i < |commands|
    ensures Find(commands, commands[i].packet.requestId) == i
  {
  }

  /** Rewriting one row keeps identities, and finds. */
  lemma {:induction false} SetFinds(s: State, i: int, status: Status, point: Point, id: string)
    requires UniqueIds(s.commands) && 0 <= i < |s.commands|
    ensures UniqueIds(SetCommand(s, i, status, point).commands)
    ensures Find(SetCommand(s, i, status, point).commands, id) == Find(s.commands, id)
  {
    var t := SetCommand(s, i, status, point).commands;
    var j := Find(s.commands, id);
    if j >= 0 {
      FindIs(t, j);
    }
  }

  lemma {:induction false} SetActive(s: State, i: int, status: Status, point: Point)
    requires OneActive(s.commands) && 0 <= i < |s.commands|
    requires Active(s.commands[i].(status := status)) ==> Active(s.commands[i])
    ensures OneActive(SetCommand(s, i, status, point).commands)
  {
  }

  lemma {:induction false} SetPlaced(s: State, i: int, status: Status, point: Point)
    requires AllPlaced(s.commands) && 0 <= i < |s.commands| && Placed(s.commands[i].(status := status, point := point))
    ensures AllPlaced(SetCommand(s, i, status, point).commands)
  {
    hide Placed;
  }

  lemma {:induction false} SetStarted(s: State, i: int, status: Status, point: Point)
    requires UniqueIds(s.commands) && StartedOnce(s) && 0 <= i < |s.commands|
    requires (status.Recording? || status.Queued?) ==> (s.commands[i].status.Recording? || s.commands[i].status.Queued?)
    ensures StartedOnce(SetCommand(s, i, status, point))
  {
    var t := SetCommand(s, i, status, point);
    forall id | id in t.starts ensures var k := Find(t.commands, id); k >= 0 && !(t.commands[k].status.Recording? || t.commands[k].status.Queued?) {
      SetFinds(s, i, status, point, id);
    }
  }

  lemma {:induction false} SetApproved(s: State, i: int, status: Status, point: Point)
    requires ApprovedBefore(s) && 0 <= i < |s.commands|
    requires PastApproval(s.commands[i].(status := status, point := point)) ==> s.commands[i].packet.cycle in s.approvals
    ensures ApprovedBefore(SetCommand(s, i, status, point))
  {
    hide Gate.Inv, Gate.Approved;
  }

  lemma {:induction false} SetPrepared(s: State, i: int, status: Status, point: Point)
    requires PreparedOnce(s) && 0 <= i < |s.commands|
    requires var d := s.commands[i].(status := status, point := point);
             Holds(d) ==> Unpublished(s, d.packet.cycle) && d.packet.cycle in s.prepared
    ensures PreparedOnce(SetCommand(s, i, status, point))
  {
    hide NoRepeats;
  }

  /** What a rewritten row must satisfy towards the claims and publications so far. */
  ghost predicate Publishable(s: State, c: Command) {
    && ((exists q <- s.publishes :: q.1 == c.packet.requestId) ==> Reached(c))
    && (Holds(c) ==> Unpublished(s, c.packet.cycle) && c.packet.cycle in s.prepared)
    && (c.point.Deploying? || c.point.Publishing? || c.status.Succeeded? ==> Published(s, c))
  }

  lemma {:induction false} SetPublished(s: State, i: int, status: Status, point: Point)
    requires UniqueIds(s.commands) && PublishedOnce(s) && 0 <= i < |s.commands|
    requires Publishable(s, s.commands[i].(status := status, point := point))
    ensures PublishedOnce(SetCommand(s, i, status, point))
  {
    var t := SetCommand(s, i, status, point);
    forall q | q in t.publishes ensures PublishedBy(t, q) {
      assert PublishedBy(s, q);
      SetFinds(s, i, status, point, q.1);
    }
  }

  /** A row may be rewritten: it stays in its place, does not return to the queue or become
      active again, and agrees with the approvals, claims and publications so far. */
  ghost predicate Rewritable(s: State, c: Command, d: Command) {
    && d.packet == c.packet && Placed(d) && Publishable(s, d)
    && (Active(d) ==> Active(c))
    && (d.status.Recording? || d.status.Queued? ==> c.status.Recording? || c.status.Queued?)
    && (PastApproval(d) ==> c.packet.cycle in s.approvals)
  }

  lemma {:induction false} SetKeeps(s: State, i: int, status: Status, point: Point)
    requires Inv(s) && 0 <= i < |s.commands|
    requires Rewritable(s, s.commands[i], s.commands[i].(status := status, point := point))
    ensures Inv(SetCommand(s, i, status, point))
  {
    hide UniqueIds, OneActive, AllPlaced, StartedOnce, ApprovedBefore, PreparedOnce, PublishedOnce, Placed;
    SetFinds(s, i, status, point, "");
    SetActive(s, i, status, point);
    SetPlaced(s, i, status, point);
    SetStarted(s, i, status, point);
    SetApproved(s, i, status, point);
    SetPrepared(s, i, status, point);
    SetPublished(s, i, status, point);
  }

  lemma {:induction false} GateKeeps(s: State, move: Gate.Move)
    requires Inv(s)
    ensures Inv(s.(gate := Gate.Act(s.gate, move)))
  {
    var t := s.(gate := Gate.Act(s.gate, move));
    Gate.ActKeeps(s.gate, move);
    forall cycle | cycle in s.approvals ensures Gate.Approved(t.gate, cycle) {
      Gate.ApprovalStays(s.gate, move, cycle);
    }
    assert forall q :: PublishedBy(s, q) ==> PublishedBy(t, q);
    hide Gate.Inv, Gate.Act, Gate.Approved, UniqueIds, OneActive, AllPlaced, NoRepeats, PublishedBy;
  }

  lemma {:induction false} RecoverKeeps(s: State)
    requires Inv(s)
    ensures Inv(s.(commands := RecoverAll(s.commands)))
  {
    var t := s.(commands := RecoverAll(s.commands));
    forall id ensures Find(t.commands, id) == Find(s.commands, id) {
      RecoverFinds(s.commands, id);
    }
    forall c | c in t.commands ensures exists d <- s.commands :: c == Recovered(d) {
      var k :| 0 <= k < |t.commands| && t.commands[k] == c;
      assert s.commands[k] in s.commands;
    }
    RecoverOthers(s, t);
  }

  lemma {:induction false} RecoverFinds(commands: seq<Command>, id: string)
    ensures Find(RecoverAll(commands), id) == Find(commands, id)
  {
    if commands != [] {
      RecoverFinds(commands[..|commands| - 1], id);
      var r := RecoverAll(commands);
      assert r[..|r| - 1] == RecoverAll(commands[..|commands| - 1]);
    }
  }

  /** `t` holds the rows of `s`, closed. */
  ghost predicate Reopened(s: State, t: State) {
    && t == s.(commands := RecoverAll(s.commands))
    && (forall id :: Find(t.commands, id) == Find(s.commands, id))
    && forall c <- t.commands :: exists d <- s.commands :: c == Recovered(d)
  }

  lemma {:induction false} RecoverOthers(s: State, t: State)
    requires Inv(s) && Reopened(s, t)
    ensures Inv(t)
  {
    RecoverTable(s, t);
    RecoverStarts(s, t);
    RecoverClaims(s, t);
    RecoverPublished(s, t);
    hide UniqueIds, OneActive, AllPlaced, StartedOnce, ApprovedBefore, PreparedOnce, PublishedOnce;
  }

  lemma {:induction false} RecoverStarts(s: State, t: State)
    requires StartedOnce(s) && Reopened(s, t)
    ensures StartedOnce(t)
  {
    hide NoRepeats, Find;
  }

  lemma {:induction false} RecoverClaims(s: State, t: State)
    requires ApprovedBefore(s) && PreparedOnce(s) && Reopened(s, t)
    ensures ApprovedBefore(t) && PreparedOnce(t)
  {
    hide NoRepeats, Find, Gate.Inv, Gate.Approved, RecoverAll;
  }

  lemma {:induction false} RecoverPublished(s: State, t: State)
    requires PublishedOnce(s) && Reopened(s, t)
    ensures PublishedOnce(t)
  {
    forall q | q in t.publishes ensures PublishedBy(t, q) {
      assert PublishedBy(s, q);
      RecoverRow(s.commands, Find(s.commands, q.1));
    }
    hide Find, PublishedBy, RecoverAll;
  }

  lemma {:induction false} RecoverRow(commands: seq<Command>, i: int)
    requires 0 <= i < |commands|
    ensures RecoverAll(commands)[i] == Recovered(commands[i])
  {
  }

  lemma {:induction false} RecoverTable(s: State, t: State)
    requires UniqueIds(s.commands) && OneActive(s.commands) && AllPlaced(s.commands) && t.commands == RecoverAll(s.commands)
    ensures UniqueIds(t.commands) && OneActive(t.commands) && AllPlaced(t.commands)
  {
  }

  lemma {:induction false} InsertFinds(commands: seq<Command>, c: Command, id: string)
    ensures Find(commands + [c], id) == if c.packet.requestId == id then |commands| else Find(commands, id)
  {
    assert (commands + [c])[..|commands|] == commands;
  }

  lemma {:induction false} InsertKeeps(s: State, p: Packet)
    requires Inv(s) && Find(s.commands, p.requestId) < 0 && !ActiveIn(s.commands, p.cycle)
    ensures Inv(s.(commands := s.commands + [Command(p, Recording, Auditing)]))
  {
    var t := s.(commands := s.commands + [Command(p, Recording, Auditing)]);
    hide Find, NoRepeats, UniqueIds, OneActive, ActiveIn, Gate.Inv;
    forall q | q in t.publishes ensures PublishedBy(t, q) {
      assert PublishedBy(s, q);
      InsertFinds(s.commands, Command(p, Recording, Auditing), q.1);
    }
    forall id | id in t.starts ensures var k := Find(t.commands, id); k >= 0 && !(t.commands[k].status.Recording? || t.commands[k].status.Queued?) {
      InsertFinds(s.commands, Command(p, Recording, Auditing), id);
    }
    InsertOneActive(s.commands, Command(p, Recording, Auditing));
    hide PublishedBy;
  }

  lemma {:induction false} InsertOneActive(commands: seq<Command>, c: Command)
    requires OneActive(commands) && UniqueIds(commands) && !ActiveIn(commands, c.packet.cycle) && Find(commands, c.packet.requestId) < 0
    ensures OneActive(commands + [c]) && UniqueIds(commands + [c])
  {
    hide Active;
    forall i | 0 <= i < |commands| ensures commands[i] in commands {
    }
  }

  /** What the invariant says of one row. */
  ghost predicate RowOk(s: State, c: Command) {
    && Placed(c) && Publishable(s, c)
    && (PastApproval(c) ==> c.packet.cycle in s.approvals)
    && (c.status.Queued? ==> c.packet.requestId !in s.starts)
    && ((exists q <- s.publishes :: q.1 == c.packet.requestId) ==> Gate.Approved(s.gate, c.packet.cycle))
  }

  lemma {:induction false} RowFacts(s: State, i: int)
    requires Inv(s) && 0 <= i < |s.commands|
    ensures RowOk(s, s.commands[i]) && Find(s.commands, s.commands[i].packet.requestId) == i
  {
    var c := s.commands[i];
    assert c in s.commands;
    FindIs(s.commands, i);
    hide UniqueIds, OneActive, Find, NoRepeats, Gate.Inv, Gate.Approved;
    if q :| q in s.publishes && q.1 == c.packet.requestId {
      assert PublishedBy(s, q);
    }
  }

  lemma {:induction false} StartKeeps(s: State, i: int)
    requires Inv(s) && 0 <= i < |s.commands| && s.commands[i].status == Queued
    ensures Inv(SetCommand(s, i, Running, Started).(starts := s.starts + [s.commands[i].packet.requestId]))
  {
    var c := s.commands[i];
    var id := c.packet.requestId;
    RowFacts(s, i);
    hide Inv, Find;
    assert Rewritable(s, c, c.(status := Running, point := Started));
    SetKeeps(s, i, Running, Started);
    assert UniqueIds(s.commands) by {
      InvIds(s);
    }
    SetFinds(s, i, Running, Started, id);
    LogStart(SetCommand(s, i, Running, Started), id);
  }

  lemma {:induction false} InvIds(s: State)
    requires Inv(s)
    ensures UniqueIds(s.commands)
  {
  }

  lemma {:induction false} LogStart(t: State, id: string)
    requires Inv(t) && id !in t.starts
    requires var k := Find(t.commands, id); k >= 0 && !(t.commands[k].status.Recording? || t.commands[k].status.Queued?)
    ensures Inv(t.(starts := t.starts + [id]))
  {
    var u := t.(starts := t.starts + [id]);
    assert forall q :: PublishedBy(t, q) ==> PublishedBy(u, q);
    hide UniqueIds, OneActive, AllPlaced, Find, Gate.Inv, PublishedBy;
  }

  /** A command that stands nowhere a publication leads to has published nothing. */
  lemma {:induction false} NeverPublished(s: State, i: int)
    requires Inv(s) && 0 <= i < |s.commands| && !Reached(s.commands[i])
    ensures forall q <- s.publishes :: q.1 != s.commands[i].packet.requestId
  {
    FindIs(s.commands, i);
    forall q | q in s.publishes ensures q.1 != s.commands[i].packet.requestId {
      assert PublishedBy(s, q);
    }
  }

  lemma {:induction false} LogApproval(t: State, cycle: string)
    requires Inv(t) && Gate.Grants(t.gate, cycle)
    ensures Inv(t.(gate := Gate.Act(t.gate, Gate.Approve(cycle)), approvals := t.approvals + [cycle]))
  {
    GateKeeps(t, Gate.Approve(cycle));
    Gate.ApproveGrants(t.gate, cycle);
    var u := t.(gate := Gate.Act(t.gate, Gate.Approve(cycle)));
    var v := u.(approvals := u.approvals + [cycle]);
    assert forall q :: PublishedBy(u, q) ==> PublishedBy(v, q);
    hide UniqueIds, OneActive, AllPlaced, Find, StartedOnce, NoRepeats, PublishedBy, Gate.Inv, Gate.Act, Gate.Approved;
  }

  /** The publisher claims the preparation of a cycle. */
  lemma {:induction false} LogPrepared(t: State, cycle: string)
    requires Inv(t) && cycle !in t.prepared
    ensures Inv(t.(prepared := t.prepared + [cycle])) && Unpublished(t, cycle)
  {
    var u := t.(prepared := t.prepared + [cycle]);
    assert forall q :: PublishedBy(t, q) ==> PublishedBy(u, q);
    hide UniqueIds, OneActive, AllPlaced, Find, StartedOnce, PublishedBy, ApprovedBefore;
  }

  /** The publisher begins; first as if its command went to the exception handler. */
  lemma {:induction false} LogHandled(t: State, i: int)
    requires Inv(t) && 0 <= i < |t.commands| && t.commands[i].point == Approving
    ensures var p := t.commands[i].packet;
            Inv(SetCommand(t, i, t.commands[i].status, Handling).(publishes := t.publishes + [(p.cycle, p.requestId)]))
  {
    var c := t.commands[i];
    RowFacts(t, i);
    LoggedTwin(t, i);
    hide Inv, Find, NoRepeats;
    assert Rewritable(t, c, c.(point := Handling));
    SetKeeps(t, i, c.status, Handling);
    var u := SetCommand(t, i, c.status, Handling);
    forall d | d in u.commands && Holds(d) ensures d.packet.cycle != c.packet.cycle {
      var k :| 0 <= k < |u.commands| && u.commands[k] == d;
    }
    hide Publishable, Holds;
    LoggedPublish(u, i, (c.packet.cycle, c.packet.requestId));
  }

  lemma {:induction false} LogPublish(t: State, i: int)
    requires Inv(t) && 0 <= i < |t.commands| && t.commands[i].point == Approving
    ensures var p := t.commands[i].packet;
            Inv(SetCommand(t, i, t.commands[i].status, Deploying).(publishes := t.publishes + [(p.cycle, p.requestId)]))
  {
    hide Inv, Find, NoRepeats;
    var c := t.commands[i];
    LogHandled(t, i);
    RowFacts(t, i);
    var q := (c.packet.cycle, c.packet.requestId);
    var v := SetCommand(t, i, c.status, Handling).(publishes := t.publishes + [q]);
    RowFacts(v, i);
    assert q in v.publishes;
    assert Rewritable(v, v.commands[i], v.commands[i].(point := Deploying));
    SetKeeps(v, i, c.status, Deploying);
    assert SetCommand(v, i, c.status, Deploying) == SetCommand(t, i, c.status, Deploying).(publishes := t.publishes + [q]);
  }

  /** No other command of the cycle holds its preparation. */
  lemma {:induction false} LoggedTwin(t: State, i: int)
    requires Inv(t) && 0 <= i < |t.commands| && t.commands[i].point == Approving
    ensures forall k :: 0 <= k < |t.commands| && k != i && Holds(t.commands[k]) ==>
              t.commands[k].packet.cycle != t.commands[i].packet.cycle
  {
    hide UniqueIds, StartedOnce, ApprovedBefore, PublishedOnce, PreparedOnce;
    forall k | 0 <= k < |t.commands| && k != i && Holds(t.commands[k])
      ensures t.commands[k].packet.cycle != t.commands[i].packet.cycle
    {
      assert t.commands[k] in t.commands && t.commands[i] in t.commands;
      assert Placed(t.commands[k]) && Placed(t.commands[i]);
      assert Active(t.commands[k]) && Active(t.commands[i]);
    }
  }

  /** Recording that the publisher began, by a running command, for an approved cycle. */
  lemma {:induction false} LoggedPublish(u: State, i: int, q: (string, string))
    requires Inv(u) && 0 <= i < |u.commands| && u.commands[i].point == Handling && u.commands[i].status == Running
    requires q == (u.commands[i].packet.cycle, u.commands[i].packet.requestId) && q.0 in u.approvals && q.0 in u.prepared
    requires Unpublished(u, q.0)
    requires forall c <- u.commands :: Holds(c) ==> c.packet.cycle != q.0
    ensures Inv(u.(publishes := u.publishes + [q]))
  {
    var v := u.(publishes := u.publishes + [q]);
    RowFacts(u, i);
    forall r | r in v.publishes ensures r.0 in v.approvals && r.0 in v.prepared && PublishedBy(v, r) {
      if r in u.publishes {
        assert PublishedBy(u, r);
      }
    }
    hide Find, UniqueIds, OneActive, AllPlaced, NoRepeats, PublishedBy, Gate.Inv, Gate.Approved;
  }

  /** Where each step of a thread may take its row. */
  lemma {:induction false} MoveRow(s: State, c: Command, step: Step, d: Command)
    requires RowOk(s, c) && d.packet == c.packet
    requires match step
             case AuditDecision(_, ok) => c.point == Auditing && d.status == (if ok then c.status else Uncertain)
                                          && d.point == if ok then Audited else Idle
             case Settle(_) => c.point == Audited && d.status == (if c.packet.decision == Defer then Deferred else Queued) && d.point == Idle
             case Verify(_, _) => c.point == Started && d.status == c.status
                                  && (d.point.Handling? || (d.point.Checked? && c.packet.cycle in s.prepared && Unpublished(s, c.packet.cycle)))
             case Approve(_, _) => c.point == Checked && d.status == c.status
                                   && (d.point.Handling? || (d.point.Approving? && c.packet.cycle in s.approvals))
             case Deploy(_, _) => c.point == Approving && d.status == c.status && d.point == Handling
             case Attest(_, _, _) => c.point == Deploying && d.status == c.status && (d.point.Publishing? || d.point.Handling?)
             case Confirm(_, _, _) => c.point == Publishing && ((d.status == c.status && d.point.Handling?) ||
                                                                (d.status.Succeeded? && (d.point.Handling? || d.point.Idle?)))
             case Handle(_, _) => c.point == Handling && d.point.Idle? && (d.status.Uncertain? || d.status.Failed?)
             case _ => false
    ensures Rewritable(s, c, d)
  {
  }

  /** Every step of every thread keeps the invariant. */
  lemma {:induction false} MoveKeeps(s: State, i: int, step: Step)
    requires Inv(s) && 0 <= i < |s.commands| && Owned(step)
    ensures Inv(Move(s, i, step))
  {
    var c := s.commands[i];
    RowFacts(s, i);
    hide Inv, Find, RowOk, Rewritable, Gate.Act, Gate.Permits, Gate.Reports;
    var t := Move(s, i, step);
    match step
    case AuditDecision(_, ok) =>
      if c.point == Auditing {
        MoveRow(s, c, step, t.commands[i]);
        SetKeeps(s, i, t.commands[i].status, t.commands[i].point);
      }
    case Settle(_) =>
      if c.point == Audited {
        assert c.status == Recording by {
          RowPlaced(s, c);
        }
        MoveRow(s, c, step, t.commands[i]);
        SetKeeps(s, i, t.commands[i].status, t.commands[i].point);
      }
    case Start(_) =>
      if c.status == Queued {
        StartKeeps(s, i);
      }
    case Verify(_, plan) =>
      if c.point == Started {
        VerifyKeeps(s, i, plan);
      }
    case Approve(_, answer) =>
      if c.point == Checked {
        ApproveKeeps(s, i, answer);
      }
    case Deploy(_, ok) =>
      if c.point == Approving {
        if t.commands[i].point == Deploying {
          LogPublish(s, i);
        } else {
          MoveRow(s, c, step, t.commands[i]);
          SetKeeps(s, i, t.commands[i].status, t.commands[i].point);
        }
      }
    case Attest(_, deployed, ok) =>
      if c.point == Deploying {
        MoveRow(s, c, step, t.commands[i]);
        SetKeeps(s, i, t.commands[i].status, t.commands[i].point);
        GateKeeps(SetCommand(s, i, t.commands[i].status, t.commands[i].point), Gate.Deployed(c.packet.cycle));
      }
    case Confirm(_, ok, read) =>
      if c.point == Publishing {
        MoveRow(s, c, step, t.commands[i]);
        SetKeeps(s, i, t.commands[i].status, t.commands[i].point);
      }
    case Handle(_, readable) =>
      if c.point == Handling {
        MoveRow(s, c, step, t.commands[i]);
        SetKeeps(s, i, t.commands[i].status, t.commands[i].point);
      }
  }

  lemma {:induction false} RowPlaced(s: State, c: Command)
    requires RowOk(s, c)
    ensures Placed(c)
  {
  }

  lemma {:induction false} VerifyKeeps(s: State, i: int, plan: Preparation)
    requires Inv(s) && 0 <= i < |s.commands| && s.commands[i].point == Started
    ensures Inv(Move(s, i, Verify("", plan)))
  {
    var c := s.commands[i];
    hide Inv, Find, RowOk, Rewritable, Gate.WaitsFor;
    var d := Move(s, i, Verify("", plan)).commands[i];
    if Move(s, i, Verify("", plan)).prepared == s.prepared {
      RowFacts(s, i);
      MoveRow(s, c, Verify("", plan), d);
      SetKeeps(s, i, c.status, d.point);
    } else {
      LogPrepared(s, c.packet.cycle);
      var t := s.(prepared := s.prepared + [c.packet.cycle]);
      RowFacts(t, i);
      MoveRow(t, c, Verify("", plan), d);
      SetKeeps(t, i, c.status, d.point);
    }
  }

  lemma {:induction false} ApproveKeeps(s: State, i: int, answer: Answer)
    requires Inv(s) && 0 <= i < |s.commands| && s.commands[i].point == Checked
    ensures Inv(Move(s, i, Approve("", answer)))
  {
    var c := s.commands[i];
    hide Inv, Find, RowOk, Rewritable, Gate.Act, Gate.Grants;
    if answer == No || !Gate.Grants(s.gate, c.packet.cycle) {
      RowFacts(s, i);
      MoveRow(s, c, Approve("", answer), c.(point := Handling));
      SetKeeps(s, i, c.status, Handling);
    } else {
      LogApproval(s, c.packet.cycle);
      var t := s.(gate := Gate.Act(s.gate, Gate.Approve(c.packet.cycle)), approvals := s.approvals + [c.packet.cycle]);
      var point := if answer == Yes then Approving else Handling;
      RowFacts(t, i);
      MoveRow(t, c, Approve("", answer), c.(point := point));
      SetKeeps(t, i, c.status, point);
    }
  }

  lemma {:induction false} NextKeeps(s: State, step: Step)
    requires Inv(s)
    ensures Inv(Next(s, step))
  {
    match step
    case Restart => RecoverKeeps(s);
    case Elsewhere(move) => GateKeeps(s, move);
    case Insert(p) =>
      if Find(s.commands, p.requestId) < 0 && !ActiveIn(s.commands, p.cycle) {
        InsertKeeps(s, p);
      }
    case _ =>
      if Find(s.commands, step.id) >= 0 {
        MoveKeeps(s, Find(s.commands, step.id), step);
      }
  }

  function Opened(gate: Gate.State): State {
    State([], gate, [], [], [], [])
  }

  lemma {:induction false} Reachable(gate: Gate.State, steps: seq<Step>)
    requires Gate.Inv(gate)
    ensures Inv(Run(Opened(gate), steps))
  {
    if steps != [] {
      Reachable(gate, steps[..|steps| - 1]);
      NextKeeps(Run(Opened(gate), steps[..|steps| - 1]), steps[|steps| - 1]);
    }
  }

  // ---- What holds over every history ----

  /** For a cycle there is never more than one publish command that is recorded, queued,
      running, uncertain or succeeded. */
  lemma {:induction false} AtMostOnePublication(gate: Gate.State, steps: seq<Step>, i: nat, j: nat)
    requires Gate.Inv(gate)
    requires var cs := Run(Opened(gate), steps).commands;
             i < |cs| && j < |cs| && Active(cs[i]) && Active(cs[j]) && cs[i].packet.cycle == cs[j].packet.cycle
    ensures i == j
  {
    Reachable(gate, steps);
  }

  /** Across restarts a command enters running at most once, and, though a cycle whose
      publication failed may be submitted and approved again, its preparation is claimed at
      most once and it is published at most once, by one command. */
  lemma {:induction false} RunsAndPublishesOnce(gate: Gate.State, steps: seq<Step>)
    requires Gate.Inv(gate)
    ensures var s := Run(Opened(gate), steps);
            && NoRepeats(s.starts) && NoRepeats(s.prepared)
            && (forall i, j :: 0 <= i < j < |s.publishes| ==> s.publishes[i].0 != s.publishes[j].0)
            && forall q <- s.publishes :: q.0 in s.prepared
  {
    Reachable(gate, steps);
  }

  /** A succeeded command was approved and published, and a deferred one was never published. */
  lemma {:induction false} OutcomesAreTrue(gate: Gate.State, steps: seq<Step>, i: nat)
    requires Gate.Inv(gate) && i < |Run(Opened(gate), steps).commands|
    ensures var s := Run(Opened(gate), steps);
            var c := s.commands[i];
            && (c.status == Succeeded ==> c.packet.cycle in s.approvals && Published(s, c))
            && (c.status == Deferred ==> forall q <- s.publishes :: q.1 != c.packet.requestId)
  {
    Reachable(gate, steps);
    var s := Run(Opened(gate), steps);
    assert s.commands[i] in s.commands;
    if s.commands[i].status == Deferred {
      NeverPublished(s, i);
    }
  }

  // ---- When a published command is recorded as failed ----

  /** The publisher began this command's publication, and yet it is recorded as failed. */
  ghost predicate Misrecorded(s: State, id: string) {
    var i := Find(s.commands, id);
    i >= 0 && s.commands[i].status == Failed && Published(s, s.commands[i])
  }

  /** The exception handler of a published command finds the gate waiting for an approval:
      this cycle's own has lapsed, or the cycle is over and the next one waits. */
  ghost predicate Misread(s: State, step: Step) {
    && step.Handle? && step.readable
    && var i := Find(s.commands, step.id);
       && i >= 0 && s.commands[i].point == Handling && Published(s, s.commands[i])
       && Gate.Misleads(s.gate, s.commands[i].packet.cycle)
  }

  lemma {:induction false} PublishedApproved(s: State, i: int)
    requires Inv(s) && 0 <= i < |s.commands| && Published(s, s.commands[i])
    ensures Gate.Inv(s.gate) && Gate.Approved(s.gate, s.commands[i].packet.cycle)
  {
    hide UniqueIds, OneActive, AllPlaced, StartedOnce, PreparedOnce, Find, Gate.Inv, Gate.Approved;
  }

  lemma {:induction false} OwnStep(s: State, i: int, step: Step)
    requires Inv(s) && 0 <= i < |s.commands| && Owned(step) && step.id == s.commands[i].packet.requestId
    ensures Misrecorded(Move(s, i, step), step.id) <==> Misrecorded(s, step.id) || Misread(s, step)
  {
    MoveFinds(s, i, step, step.id);
    hide Inv, Find, Gate.Misleads, Gate.Act, Gate.Reports, Gate.Permits, Gate.Grants, Gate.WaitsFor, Publishable, Gate.Approved;
    var c := s.commands[i];
    RowFacts(s, i);
    if Published(s, c) {
      PublishedApproved(s, i);
      Gate.ReportsAfterApproval(s.gate, c.packet.cycle);
    }
  }

  lemma {:induction false} MoveFinds(s: State, i: int, step: Step, id: string)
    requires UniqueIds(s.commands) && 0 <= i < |s.commands| && Owned(step)
    ensures Find(Move(s, i, step).commands, id) == Find(s.commands, id)
  {
    MoveAdvances(s, i, step);
    var t := Move(s, i, step);
    SetFinds(s, i, t.commands[i].status, t.commands[i].point, id);
  }

  lemma {:induction false} OtherStep(s: State, i: int, step: Step, id: string)
    requires Inv(s) && 0 <= i < |s.commands| && Owned(step) && step.id == s.commands[i].packet.requestId != id
    ensures Misrecorded(Move(s, i, step), id) <==> Misrecorded(s, id)
  {
    MoveFinds(s, i, step, id);
    MoveAdvances(s, i, step);
    RowFacts(s, i);
    hide Inv, Find, Move, RowOk, Advances;
  }

  lemma {:induction false} RestartMisrecords(s: State, id: string)
    ensures Misrecorded(Next(s, Restart), id) <==> Misrecorded(s, id)
  {
    RecoverFinds(s.commands, id);
    hide Find;
  }

  lemma {:induction false} ElsewhereMisrecords(s: State, step: Step, id: string)
    requires step.Elsewhere?
    ensures Misrecorded(Next(s, step), id) <==> Misrecorded(s, id)
  {
    hide Find, Gate.Act;
  }

  lemma {:induction false} InsertMisrecords(s: State, p: Packet, id: string)
    ensures Misrecorded(Next(s, Insert(p)), id) <==> Misrecorded(s, id)
  {
    InsertFinds(s.commands, Command(p, Recording, Auditing), id);
    hide ActiveIn;
  }

  lemma {:induction false} OwnedMisrecords(s: State, step: Step, id: string)
    requires Inv(s) && Owned(step)
    ensures Misrecorded(Next(s, step), id) <==> Misrecorded(s, id) || (Misread(s, step) && step.id == id)
  {
    var i := Find(s.commands, step.id);
    if i >= 0 {
      if step.id == id {
        OwnStep(s, i, step);
      } else {
        OtherStep(s, i, step, id);
      }
    }
    hide Inv, Move, Misrecorded, Find, Gate.Misleads;
  }

  lemma {:induction false} StepMisrecords(s: State, step: Step, id: string)
    requires Inv(s)
    ensures Misrecorded(Next(s, step), id) <==> Misrecorded(s, id) || (Misread(s, step) && step.id == id)
  {
    hide Next, Misrecorded, Inv, Find;
    match step
    case Restart => RestartMisrecords(s, id);
    case Elsewhere(_) => ElsewhereMisrecords(s, step, id);
    case Insert(p) => InsertMisrecords(s, p, id);
    case _ => OwnedMisrecords(s, step, id);
  }

  /** The misreading of a history: its step `n` handles this command's exception so. */
  ghost predicate MisreadAt(gate: Gate.State, steps: seq<Step>, n: int, id: string)
    requires 0 <= n < |steps|
  {
    Misread(Run(Opened(gate), steps[..n]), steps[n]) && steps[n].id == id
  }

  lemma {:induction false} NothingMisrecorded(gate: Gate.State, id: string)
    ensures !Misrecorded(Opened(gate), id)
  {
  }

  lemma {:induction false} MisreadHere(gate: Gate.State, steps: seq<Step>, n: int, id: string)
    requires 0 <= n < |steps|
    ensures MisreadAt(gate, steps, n, id) <==> Misread(Run(Opened(gate), steps[..n]), steps[n]) && steps[n].id == id
  {
  }

  lemma {:induction false} MisreadBefore(gate: Gate.State, steps: seq<Step>, last: int, n: int, id: string)
    requires 0 <= n < last < |steps|
    ensures MisreadAt(gate, steps, n, id) <==> MisreadAt(gate, steps[..last], n, id)
  {
    assert steps[..last][..n] == steps[..n];
  }

  /** In every history, a command the publisher began to publish is recorded as failed if and
      only if its exception handler found the gate misleading. */
  lemma {:induction false} MisrecordedExactly(gate: Gate.State, steps: seq<Step>, id: string)
    requires Gate.Inv(gate)
    ensures Misrecorded(Run(Opened(gate), steps), id) <==>
            exists n :: 0 <= n < |steps| && MisreadAt(gate, steps, n, id)
  {
    hide Next, Misrecorded, MisreadAt, Inv, Gate.Inv;
    if steps == [] {
      NothingMisrecorded(gate, id);
    } else {
      var last := |steps| - 1;
      var before := steps[..last];
      MisrecordedExactly(gate, before, id);
      Reachable(gate, before);
      StepMisrecords(Run(Opened(gate), before), steps[last], id);
      MisreadHere(gate, steps, last, id);
      forall n | 0 <= n < last ensures MisreadAt(gate, steps, n, id) <==> MisreadAt(gate, before, n, id) {
        MisreadBefore(gate, steps, last, n, id);
      }
    }
  }

  /** Others end the cycle, or its approval lapses. */
  predicate Disturbs(step: Step, cycle: string) {
    step.Elsewhere? && Gate.Disturbs(step.move, cycle)
  }

  /** A published command of a cycle whose gate is not misleading. */
  ghost predicate Sheltered(s: State, id: string, cycle: string) {
    var i := Find(s.commands, id);
    && i >= 0 && s.commands[i].packet.cycle == cycle && Published(s, s.commands[i])
    && s.commands[i].status != Failed && Gate.Settled(s.gate, cycle)
  }

  /** A thread moves the gate only by approving or deploying its own cycle. */
  lemma {:induction false} MoveGate(s: State, i: int, step: Step)
    requires 0 <= i < |s.commands| && Owned(step)
    ensures var g := Move(s, i, step).gate;
            var cycle := s.commands[i].packet.cycle;
            g == s.gate || g == Gate.Act(s.gate, Gate.Approve(cycle)) || g == Gate.Act(s.gate, Gate.Deployed(cycle))
  {
    hide Gate.Act, Gate.Permits, Gate.Reports, Gate.Grants, Gate.WaitsFor;
  }

  lemma {:induction false} GateStaysSettled(s: State, step: Step, cycle: string)
    requires Gate.Inv(s.gate) && Gate.Settled(s.gate, cycle) && !Disturbs(step, cycle)
    ensures Gate.Settled(Next(s, step).gate, cycle)
  {
    hide Find, Move, Gate.Act, Gate.Settled, Gate.Inv;
    if Owned(step) {
      var i := Find(s.commands, step.id);
      if i >= 0 {
        MoveGate(s, i, step);
        Gate.SettledStays(s.gate, Gate.Approve(s.commands[i].packet.cycle), cycle);
        Gate.SettledStays(s.gate, Gate.Deployed(s.commands[i].packet.cycle), cycle);
      }
    } else if step.Elsewhere? {
      Gate.SettledStays(s.gate, step.move, cycle);
    }
  }

  lemma {:induction false} NextFinds(s: State, step: Step, id: string)
    requires Inv(s) && Find(s.commands, id) >= 0
    ensures Find(Next(s, step).commands, id) == Find(s.commands, id)
    ensures s.publishes <= Next(s, step).publishes
  {
    match step
    case Restart => RecoverFinds(s.commands, id);
    case Elsewhere(_) =>
    case Insert(p) => InsertFinds(s.commands, Command(p, Recording, Auditing), id);
    case _ =>
      var i := Find(s.commands, step.id);
      if i >= 0 {
        MoveFinds(s, i, step, id);
        MoveAdvances(s, i, step);
      }
      hide Move, Find, Advances;
  }

  lemma {:induction false} StaysSheltered(s: State, step: Step, id: string, cycle: string)
    requires Inv(s) && Sheltered(s, id, cycle) && !Disturbs(step, cycle)
    ensures Sheltered(Next(s, step), id, cycle)
  {
    var i := Find(s.commands, id);
    GateStaysSettled(s, step, cycle);
    Gate.SettledNeverMisleads(s.gate, cycle);
    StepMisrecords(s, step, id);
    NextFinds(s, step, id);
    Kept(s, step);
    hide Next, Inv, Find, Gate.Settled, Gate.Misleads;
  }

  lemma {:induction false} RunStaysSheltered(s: State, later: seq<Step>, id: string, cycle: string)
    requires Inv(s) && Sheltered(s, id, cycle) && forall step <- later :: !Disturbs(step, cycle)
    ensures Inv(Run(s, later)) && Sheltered(Run(s, later), id, cycle)
  {
    hide Inv, Sheltered, Next, Disturbs;
    if later != [] {
      var before := later[..|later| - 1];
      RunStaysSheltered(s, before, id, cycle);
      StaysSheltered(Run(s, before), later[|later| - 1], id, cycle);
      NextKeeps(Run(s, before), later[|later| - 1]);
    }
  }

  /** A command whose publication began is never recorded as failed while the approval it
      began under does not lapse and nobody ends the cycle. */
  lemma {:induction false} UndisturbedNeverFails(gate: Gate.State, before: seq<Step>, id: string, later: seq<Step>)
    requires Gate.Inv(gate)
    requires var s := Run(Opened(gate), before);
             var i := Find(s.commands, id);
             && i >= 0 && s.commands[i].point == Approving && Gate.Permits(s.gate, s.commands[i].packet.cycle)
             && forall step <- later :: !Disturbs(step, s.commands[i].packet.cycle)
    ensures var s := Run(Run(Opened(gate), before), [Deploy(id, true)]);
            var t := Run(s, later);
            var i := Find(t.commands, id);
            i >= 0 && Published(t, t.commands[i]) && t.commands[i].status != Failed
  {
    var s := Run(Opened(gate), before);
    var i := Find(s.commands, id);
    Reachable(gate, before);
    var t := Next(s, Deploy(id, true));
    RunOne(s, Deploy(id, true));
    NextKeeps(s, Deploy(id, true));
    assert Sheltered(t, id, s.commands[i].packet.cycle) by {
      BeginsSheltered(s, i, id);
    }
    RunStaysSheltered(t, later, id, s.commands[i].packet.cycle);
    hide Inv, Run, Next, Gate.Inv, Gate.Permits;
  }

  lemma {:induction false} RunOne(s: State, step: Step)
    ensures Run(s, [step]) == Next(s, step)
  {
    assert [step][..0] == [];
  }

  lemma {:induction false} BeginsSheltered(s: State, i: int, id: string)
    requires Inv(s) && i >= 0 && i == Find(s.commands, id) && s.commands[i].point == Approving
    requires Gate.Permits(s.gate, s.commands[i].packet.cycle)
    ensures Sheltered(Next(s, Deploy(id, true)), id, s.commands[i].packet.cycle)
  {
    Gate.PermitSettles(s.gate, s.commands[i].packet.cycle);
    RowFacts(s, i);
    SetFinds(s, i, s.commands[i].status, Deploying, id);
    hide Inv, Find, Gate.Permits, Gate.Settled, Publishable;
  }

  lemma {:induction false} AttestFails(s: State, i: int)
    requires UniqueIds(s.commands) && 0 <= i < |s.commands| && s.commands[i].point == Deploying
    ensures Next(s, Attest(s.commands[i].packet.requestId, false, false)) == SetCommand(s, i, s.commands[i].status, Handling)
    ensures UniqueIds(SetCommand(s, i, s.commands[i].status, Handling).commands)
  {
    FindIs(s.commands, i);
    hide Find, Gate.Act;
  }

  lemma {:induction false} HandleFails(s: State, i: int)
    requires UniqueIds(s.commands) && 0 <= i < |s.commands| && s.commands[i].point == Handling
    requires Gate.Reports(s.gate, Gate.AwaitingApproval) && Published(s, s.commands[i])
    ensures Misrecorded(Next(s, Handle(s.commands[i].packet.requestId, true)), s.commands[i].packet.requestId)
  {
    FindIs(s.commands, i);
    SetFinds(s, i, Failed, Idle, s.commands[i].packet.requestId);
    hide Find, Gate.Reports, UniqueIds;
  }

  /** From every reachable state with a publication under way and not yet attested, a lapse and
      an exception are enough to record the published command as failed. */
  lemma {:induction false} LapseMisrecords(s: State, i: int)
    requires Inv(s) && 0 <= i < |s.commands| && s.commands[i].point == Deploying
    requires s.commands[i].packet.cycle in s.gate.rows && s.gate.rows[s.commands[i].packet.cycle].phase == Gate.AwaitingDeployment
    ensures var p := s.commands[i].packet;
            var steps := [Elsewhere(Gate.Lapse(p.cycle)), Attest(p.requestId, false, false), Handle(p.requestId, true)];
            Misrecorded(Run(s, steps), p.requestId)
  {
    var p := s.commands[i].packet;
    LapseShows(s.gate, p.cycle);
    DeployingPublished(s, i);
    var s1 := Next(s, Elsewhere(Gate.Lapse(p.cycle)));
    AttestFails(s1, i);
    HandleFails(Next(s1, Attest(p.requestId, false, false)), i);
    RunThree(s, Elsewhere(Gate.Lapse(p.cycle)), Attest(p.requestId, false, false), Handle(p.requestId, true));
    hide Find, Run, Gate.Act, Gate.Reports, Inv, UniqueIds, Move, Misrecorded;
  }

  lemma {:induction false} DeployingPublished(s: State, i: int)
    requires Inv(s) && 0 <= i < |s.commands| && s.commands[i].point == Deploying
    ensures Published(s, s.commands[i]) && UniqueIds(s.commands) && Gate.Inv(s.gate)
  {
    assert s.commands[i] in s.commands;
    hide UniqueIds, OneActive, AllPlaced, StartedOnce, PreparedOnce, Find, Gate.Inv;
  }

  lemma {:induction false} RunThree(s: State, a: Step, b: Step, c: Step)
    ensures Run(s, [a, b, c]) == Next(Next(Next(s, a), b), c)
  {
    hide Next;
    assert [a, b, c][..2] == [a, b] && [a, b][..1] == [a];
    RunOne(s, a);
  }

  lemma {:induction false} LapseShows(g: Gate.State, cycle: string)
    requires Gate.Inv(g) && cycle in g.rows && g.rows[cycle].phase == Gate.AwaitingDeployment
    ensures Gate.Reports(Gate.Act(g, Gate.Lapse(cycle)), Gate.AwaitingApproval)
  {
  }

  lemma {:induction false} RunAppend(s: State, a: seq<Step>, b: seq<Step>)
    ensures Run(s, a + b) == Run(Run(s, a), b)
  {
    hide Next;
    if b == [] {
      assert a + b == a;
    } else {
      RunAppend(s, a, b[..|b| - 1]);
      assert (a + b)[..|a + b| - 1] == a + b[..|b| - 1];
    }
  }

  lemma {:induction false} NextOwn(s: State, i: int, step: Step)
    requires Inv(s) && 0 <= i < |s.commands| && Owned(step) && step.id == s.commands[i].packet.requestId
    ensures Next(s, step) == Move(s, i, step) && Inv(Move(s, i, step))
  {
    RowFacts(s, i);
    MoveKeeps(s, i, step);
    hide Move, Inv, Find;
  }

  lemma {:induction false} Authorises(s: State, i: int)
    requires Inv(s) && 0 <= i < |s.commands| && s.commands[i].status == Queued
    requires Gate.WaitsFor(s.gate, s.commands[i].packet.cycle) && s.commands[i].packet.cycle !in s.prepared
    ensures var id := s.commands[i].packet.requestId;
            var t := Next(Next(s, Start(id)), Verify(id, Planned));
            && Inv(t) && t.gate == s.gate && t.publishes == s.publishes
            && |t.commands| == |s.commands| && t.commands[i] == Command(s.commands[i].packet, Running, Checked)
  {
    var id := s.commands[i].packet.requestId;
    hide Inv, Next, Gate.WaitsFor;
    NextOwn(s, i, Start(id));
    NextOwn(Next(s, Start(id)), i, Verify(id, Planned));
  }

  lemma {:induction false} ApprovesWell(s: State, i: int)
    requires 0 <= i < |s.commands| && s.commands[i].point == Checked && Gate.Grants(s.gate, s.commands[i].packet.cycle)
    ensures var p := s.commands[i].packet;
            Move(s, i, Approve(p.requestId, Yes)) == SetCommand(s, i, s.commands[i].status, Approving)
            .(gate := Gate.Act(s.gate, Gate.Approve(p.cycle)), approvals := s.approvals + [p.cycle])
  {
  }

  lemma {:induction false} DeploysWell(s: State, i: int)
    requires 0 <= i < |s.commands| && s.commands[i].point == Approving && Gate.Permits(s.gate, s.commands[i].packet.cycle)
    ensures var p := s.commands[i].packet;
            Move(s, i, Deploy(p.requestId, true)) == SetCommand(s, i, s.commands[i].status, Deploying)
            .(publishes := s.publishes + [(p.cycle, p.requestId)])
  {
  }

  lemma {:induction false} Begins(s: State, i: int)
    requires Inv(s) && 0 <= i < |s.commands| && s.commands[i].point == Checked
    requires Gate.WaitsFor(s.gate, s.commands[i].packet.cycle)
    ensures var p := s.commands[i].packet;
            var t := Next(Next(s, Approve(p.requestId, Yes)), Deploy(p.requestId, true));
            && Inv(t) && t.gate == Gate.Act(s.gate, Gate.Approve(p.cycle)) && t.publishes == s.publishes + [(p.cycle, p.requestId)]
            && |t.commands| == |s.commands| && t.commands[i] == s.commands[i].(point := Deploying)
  {
    var p := s.commands[i].packet;
    RowFacts(s, i);
    GateSound(s);
    Gate.WaitingGrants(s.gate, p.cycle);
    hide Inv, Next, Move, Gate.Act, Gate.Permits, Gate.Grants, Gate.WaitsFor, Gate.Inv, RowOk;
    NextOwn(s, i, Approve(p.requestId, Yes));
    ApprovesWell(s, i);
    var t := Next(s, Approve(p.requestId, Yes));
    NextOwn(t, i, Deploy(p.requestId, true));
    DeploysWell(t, i);
  }

  lemma {:induction false} AttestsWell(s: State, i: int)
    requires 0 <= i < |s.commands| && s.commands[i].point == Deploying
    ensures Move(s, i, Attest(s.commands[i].packet.requestId, true, true)) ==
            SetCommand(s, i, s.commands[i].status, Publishing).(gate := Gate.Act(s.gate, Gate.Deployed(s.commands[i].packet.cycle)))
  {
  }

  lemma {:induction false} ConfirmsWell(s: State, i: int)
    requires 0 <= i < |s.commands| && s.commands[i].point == Publishing && Gate.Reports(s.gate, Gate.Observing)
    ensures Move(s, i, Confirm(s.commands[i].packet.requestId, true, true)) == SetCommand(s, i, Succeeded, Idle)
  {
  }

  lemma {:induction false} Ends(s: State, i: int)
    requires Inv(s) && 0 <= i < |s.commands| && s.commands[i].point == Deploying
    requires Gate.Reports(Gate.Act(s.gate, Gate.Deployed(s.commands[i].packet.cycle)), Gate.Observing)
    ensures var p := s.commands[i].packet;
            var t := Next(Next(s, Attest(p.requestId, true, true)), Confirm(p.requestId, true, true));
            |t.commands| == |s.commands| && t.commands[i] == Command(p, Succeeded, Idle)
  {
    var p := s.commands[i].packet;
    hide Inv, Next, Move, Gate.Act, Gate.Reports;
    NextOwn(s, i, Attest(p.requestId, true, true));
    AttestsWell(s, i);
    var t := Next(s, Attest(p.requestId, true, true));
    NextOwn(t, i, Confirm(p.requestId, true, true));
    ConfirmsWell(t, i);
  }

  lemma {:induction false} RunTwo(s: State, a: Step, b: Step)
    ensures Run(s, [a, b]) == Next(Next(s, a), b)
  {
    assert [a, b][..1] == [a];
    RunOne(s, a);
  }

  /** A queued command whose cycle waits for its approval and was never prepared gets to the
      publisher when its calls go well. */
  lemma {:induction false} Publishes(s: State, i: int)
    requires Inv(s) && 0 <= i < |s.commands| && s.commands[i].status == Queued
    requires Gate.WaitsFor(s.gate, s.commands[i].packet.cycle) && s.commands[i].packet.cycle !in s.prepared
    ensures var p := s.commands[i].packet;
            var id := p.requestId;
            var t := Run(s, [Start(id), Verify(id, Planned)] + [Approve(id, Yes), Deploy(id, true)]);
            && Inv(t) && |t.commands| == |s.commands| && t.commands[i] == Command(p, Running, Deploying)
            && t.gate == Gate.Act(s.gate, Gate.Approve(p.cycle)) && t.publishes == s.publishes + [(p.cycle, id)]
  {
    var id := s.commands[i].packet.requestId;
    Authorises(s, i);
    RunTwo(s, Start(id), Verify(id, Planned));
    var t := Run(s, [Start(id), Verify(id, Planned)]);
    Begins(t, i);
    RunTwo(t, Approve(id, Yes), Deploy(id, true));
    RunAppend(s, [Start(id), Verify(id, Planned)], [Approve(id, Yes), Deploy(id, true)]);
    hide Inv, Next, Run, Gate.Act, Gate.WaitsFor;
  }

  /** And it succeeds when the publisher deploys and nothing else happens. */
  lemma {:induction false} Succeeds(s: State, i: int)
    requires Inv(s) && 0 <= i < |s.commands| && s.commands[i].status == Queued
    requires Gate.WaitsFor(s.gate, s.commands[i].packet.cycle) && s.commands[i].packet.cycle !in s.prepared
    ensures var id := s.commands[i].packet.requestId;
            var published := [Start(id), Verify(id, Planned)] + [Approve(id, Yes), Deploy(id, true)];
            var t := Run(s, published + [Attest(id, true, true), Confirm(id, true, true)]);
            |t.commands| == |s.commands| && t.commands[i] == Command(s.commands[i].packet, Succeeded, Idle)
  {
    var p := s.commands[i].packet;
    var published := [Start(p.requestId), Verify(p.requestId, Planned)] + [Approve(p.requestId, Yes), Deploy(p.requestId, true)];
    Publishes(s, i);
    GateSound(s);
    Gate.ApprovedObserves(s.gate, p.cycle);
    var t := Run(s, published);
    Ends(t, i);
    RunTwo(t, Attest(p.requestId, true, true), Confirm(p.requestId, true, true));
    RunAppend(s, published, [Attest(p.requestId, true, true), Confirm(p.requestId, true, true)]);
    hide Inv, Next, Run, Gate.Act, Gate.WaitsFor, Gate.Reports, Gate.Inv;
  }

  lemma {:induction false} GateSound(s: State)
    requires Inv(s)
    ensures Gate.Inv(s.gate)
  {
    hide UniqueIds, OneActive, AllPlaced, StartedOnce, PreparedOnce, PublishedOnce, Find;
  }

  /** The history of a failure that was a publication: cycle "c" is submitted and published by
      command "a", the approval lapses, and the publisher raises. */
  lemma {:induction false} LapsedPublicationFails(packet: Packet)
    requires packet.requestId == "a" && packet.cycle == "c" && packet.decision == Publish
    ensures var gate := Gate.Acts(Gate.EMPTY, [Gate.Begin("c"), Gate.Ready("c")]);
            var submitted := [Insert(packet), AuditDecision("a", true), Settle("a")];
            var published := [Start("a"), Verify("a", Planned)] + [Approve("a", Yes), Deploy("a", true)];
            var lapsed := [Elsewhere(Gate.Lapse("c")), Attest("a", false, false), Handle("a", true)];
            Misrecorded(Run(Opened(gate), submitted + published + lapsed), "a")
  {
    var gate := Gate.Acts(Gate.EMPTY, [Gate.Begin("c"), Gate.Ready("c")]);
    var submitted := [Insert(packet), AuditDecision("a", true), Settle("a")];
    var published := [Start("a"), Verify("a", Planned)] + [Approve("a", Yes), Deploy("a", true)];
    var lapsed := [Elsewhere(Gate.Lapse("c")), Attest("a", false, false), Handle("a", true)];
    Gate.OneReady("c");
    Gate.Reachable([Gate.Begin("c"), Gate.Ready("c")]);
    SubmittedRow(gate, packet);
    Reachable(gate, submitted);
    var s := Run(Opened(gate), submitted);
    Publishes(s, 0);
    RunAppend(Opened(gate), submitted, published);
    var t := Run(s, published);
    Gate.ApproveGrants(gate, "c");
    LapseMisrecords(t, 0);
    RunAppend(Opened(gate), submitted + published, lapsed);
    hide Run, Inv, Gate.Inv, Gate.Act, Gate.Acts, Gate.WaitsFor, Misrecorded, Gate.Grants;
  }

  lemma {:induction false} SubmittedRow(gate: Gate.State, packet: Packet)
    requires packet.requestId == "a" && packet.decision == Publish
    ensures Run(Opened(gate), [Insert(packet), AuditDecision("a", true), Settle("a")]) ==
            State([Command(packet, Queued, Idle)], gate, [], [], [], [])
  {
    RunThree(Opened(gate), Insert(packet), AuditDecision("a", true), Settle("a"));
    var s1 := State([Command(packet, Recording, Auditing)], gate, [], [], [], []);
    assert Next(Opened(gate), Insert(packet)).commands == s1.commands;
    assert Find(s1.commands, "a") == 0;
    var s2 := State([Command(packet, Recording, Audited)], gate, [], [], [], []);
    assert Next(s1, AuditDecision("a", true)).commands == s2.commands;
    assert Find(s2.commands, "a") == 0;
    assert Next(s2, Settle("a")).commands == [Command(packet, Queued, Idle)];
    hide Run, Find;
  }

  /** Commands are only added, and their content never changes. */
  lemma {:induction false} Kept(s: State, step: Step)
    ensures |s.commands| <= |Next(s, step).commands| <= |s.commands| + 1
    ensures forall i :: 0 <= i < |s.commands| ==> Next(s, step).commands[i].packet == s.commands[i].packet
  {
  }

  lemma {:induction false} KeptOverRuns(s: State, steps: seq<Step>)
    ensures |s.commands| <= |Run(s, steps).commands|
    ensures forall i :: 0 <= i < |s.commands| ==> Run(s, steps).commands[i].packet == s.commands[i].packet
  {
    if steps != [] {
      KeptOverRuns(s, steps[..|steps| - 1]);
      Kept(Run(s, steps[..|steps| - 1]), steps[|steps| - 1]);
    }
  }

  /** Once a request is known, submitting anything under its identity again, however much
      later, changes nothing. */
  lemma {:induction false} ResubmissionIsNoSecond(gate: Gate.State, before: seq<Step>, later: seq<Step>,
          packet: Packet)
    requires Find(Run(Opened(gate), before).commands, packet.requestId) >= 0
    ensures var s := Run(Run(Opened(gate), before), later);
            Next(s, Insert(packet)) == s
  {
    var s := Run(Opened(gate), before);
    KeptOverRuns(s, later);
    var i := Find(s.commands, packet.requestId);
    var t := Run(s, later);
    assert t.commands[i] in t.commands;
  }

  // ---- Undisturbed calls ----

  /** What an enabled step of a thread does to its command, the gate, and the record of claims
      and publications. */
  predicate Advances(s: State, c: Command, step: Step, t: State, d: Command) {
    var cycle := c.packet.cycle;
    d.packet == c.packet &&
    match step
    case AuditDecision(_, ok) =>
      c.point == Auditing ==> t == s.(commands := t.commands) && d.status == (if ok then c.status else Uncertain) && d.point == if ok then Audited else Idle
    case Settle(_) =>
      c.point == Audited && c.status == Recording ==>
        t == s.(commands := t.commands) && d.status == (if c.packet.decision == Defer then Deferred else Queued) && d.point == Idle
    case Start(_) =>
      c.status == Queued ==>
        d.status == Running && d.point == Started && t.gate == s.gate && t.publishes == s.publishes && t.prepared == s.prepared
    case Verify(_, plan) =>
      c.point == Started ==>
        && d.status == c.status && t.gate == s.gate && t.publishes == s.publishes
        && d.point == (if plan == Planned && Gate.WaitsFor(s.gate, cycle) && cycle !in s.prepared then Checked else Handling)
    case Approve(_, answer) =>
      c.point == Checked ==>
        && d.status == c.status && t.publishes == s.publishes
        && t.gate == (if answer != No && Gate.Grants(s.gate, cycle) then Gate.Act(s.gate, Gate.Approve(cycle)) else s.gate)
        && d.point == (if answer == Yes && Gate.Grants(s.gate, cycle) then Approving else Handling)
    case Deploy(_, ok) =>
      c.point == Approving ==>
        && d.status == c.status && t.gate == s.gate
        && (if ok && Gate.Permits(s.gate, cycle) then d.point == Deploying && t.publishes == s.publishes + [(cycle, c.packet.requestId)]
            else d.point == Handling && t.publishes == s.publishes)
    case Attest(_, deployed, ok) =>
      c.point == Deploying ==>
        && d.status == c.status && t.publishes == s.publishes && d.point == (if ok then Publishing else Handling)
        && t.gate == if deployed then Gate.Act(s.gate, Gate.Deployed(cycle)) else s.gate
    case Confirm(_, ok, read) =>
      c.point == Publishing ==>
        && t.gate == s.gate && t.publishes == s.publishes
        && (if ok && Gate.Reports(s.gate, Gate.Observing) then d.status == Succeeded && d.point == if read then Idle else Handling
            else d.status == c.status && d.point == Handling)
    case Handle(_, readable) =>
      c.point == Handling ==>
        && t.gate == s.gate && t.publishes == s.publishes && d.point == Idle
        && d.status == if readable && Gate.Reports(s.gate, Gate.AwaitingApproval) then Failed else Uncertain
    case _ => false
  }

  lemma {:induction false} MoveAdvances(s: State, i: int, step: Step)
    requires 0 <= i < |s.commands| && Owned(step)
    ensures var t := Move(s, i, step);
            && |t.commands| == |s.commands| && t.commands == s.commands[i := t.commands[i]]
            && Advances(s, s.commands[i], step, t, t.commands[i])
            && (t.publishes == s.publishes || t.publishes == s.publishes + [(s.commands[i].packet.cycle, s.commands[i].packet.requestId)])
  {
    hide Gate.Act, Gate.Permits, Gate.Reports, Gate.Grants, Gate.WaitsFor;
  }

  /** What the calls of one execution come to, and what others do to the gate before each. */
  datatype Calls = Calls(plan: Preparation, answer: Answer, begun: bool, deployed: bool, ended: bool, confirmed: bool,
                         read: bool, readable: bool, others: nat -> seq<Gate.Move>)

  // What one execution comes to, told by the gates its calls find: the gate before each call is
  // the gate after the one before, moved on by others.

  function PrepareGate(g: Gate.State, calls: Calls): Gate.State {
    Gate.Acts(g, calls.others(1))
  }

  predicate Prepares(g: Gate.State, cycle: string, claimed: bool, calls: Calls) {
    calls.plan == Planned && !claimed && Gate.WaitsFor(PrepareGate(g, calls), cycle)
  }

  function ApproveGate(g: Gate.State, calls: Calls): Gate.State {
    Gate.Acts(PrepareGate(g, calls), calls.others(2))
  }

  predicate Approves(g: Gate.State, cycle: string, claimed: bool, calls: Calls) {
    Prepares(g, cycle, claimed, calls) && calls.answer == Yes && Gate.Grants(ApproveGate(g, calls), cycle)
  }

  function DeployGate(g: Gate.State, cycle: string, calls: Calls): Gate.State {
    Gate.Acts(Gate.Act(ApproveGate(g, calls), Gate.Approve(cycle)), calls.others(3))
  }

  /** The publisher begins. */
  predicate Begun(g: Gate.State, cycle: string, claimed: bool, calls: Calls) {
    Approves(g, cycle, claimed, calls) && calls.begun && Gate.Permits(DeployGate(g, cycle, calls), cycle)
  }

  /** The gate once the publisher has ended. */
  function EndGate(g: Gate.State, cycle: string, calls: Calls): Gate.State {
    var before := Gate.Acts(DeployGate(g, cycle, calls), calls.others(4));
    if calls.deployed then Gate.Act(before, Gate.Deployed(cycle)) else before
  }

  function ConfirmGate(g: Gate.State, cycle: string, calls: Calls): Gate.State {
    Gate.Acts(EndGate(g, cycle, calls), calls.others(5))
  }

  /** The gate the exception handler reads, after whichever call failed. */
  function HandleGate(g: Gate.State, cycle: string, claimed: bool, calls: Calls): Gate.State {
    Gate.Acts(if !Prepares(g, cycle, claimed, calls) then PrepareGate(g, calls)
              else if !Approves(g, cycle, claimed, calls) then
                if calls.answer == Lost && Gate.Grants(ApproveGate(g, calls), cycle) then Gate.Act(ApproveGate(g, calls), Gate.Approve(cycle))
                else ApproveGate(g, calls)
              else if !Begun(g, cycle, claimed, calls) then DeployGate(g, cycle, calls)
              else if !calls.ended then EndGate(g, cycle, calls)
              else ConfirmGate(g, cycle, calls), calls.others(6))
  }

  /** Succeeded when every call went well and the gate observes; otherwise failed if the gate
      can be read and waits for an approval, and uncertain if not. */
  function Verdict(g: Gate.State, cycle: string, claimed: bool, calls: Calls): Status {
    if Begun(g, cycle, claimed, calls) && calls.ended && calls.confirmed && calls.read
       && Gate.Reports(ConfirmGate(g, cycle, calls), Gate.Observing) then Succeeded
    else if calls.readable && Gate.Reports(HandleGate(g, cycle, claimed, calls), Gate.AwaitingApproval) then Failed
    else Uncertain
  }

  lemma {:induction false} VerdictSucceeds(g: Gate.State, cycle: string, claimed: bool, calls: Calls)
    requires Begun(g, cycle, claimed, calls) && calls.ended && calls.confirmed && calls.read
    requires Gate.Reports(ConfirmGate(g, cycle, calls), Gate.Observing)
    ensures Verdict(g, cycle, claimed, calls) == Succeeded
  {
  }

  lemma {:induction false} ApprovesPrepared(g: Gate.State, cycle: string, claimed: bool, calls: Calls)
    requires Approves(g, cycle, claimed, calls)
    ensures Prepares(g, cycle, claimed, calls)
  {
  }

  lemma {:induction false} NeverBegun(g: Gate.State, cycle: string, claimed: bool, calls: Calls)
    requires !Approves(g, cycle, claimed, calls)
    ensures !Begun(g, cycle, claimed, calls)
  {
  }

  /** All calls go well and nobody else moves the gate. */
  predicate Smooth(calls: Calls) {
    && calls.plan == Planned && calls.answer == Yes && calls.begun && calls.deployed && calls.ended && calls.confirmed && calls.read
    && forall k <- [1, 2, 3, 4, 5] :: calls.others(k) == []
  }

  lemma {:induction false} SmoothSucceeds(g: Gate.State, cycle: string, calls: Calls)
    requires Gate.Inv(g) && Gate.WaitsFor(g, cycle) && Smooth(calls)
    ensures Begun(g, cycle, false, calls) && Verdict(g, cycle, false, calls) == Succeeded
  {
    Gate.WaitingGrants(g, cycle);
    Gate.ApprovedObserves(g, cycle);
    assert calls.others(1) == [] && calls.others(2) == [] && calls.others(3) == [] && calls.others(4) == [] && calls.others(5) == [] by {
      assert 1 in [1, 2, 3, 4, 5] && 2 in [1, 2, 3, 4, 5] && 3 in [1, 2, 3, 4, 5] && 4 in [1, 2, 3, 4, 5] && 5 in [1, 2, 3, 4, 5];
    }
    hide Gate.Act, Gate.WaitsFor, Gate.Permits, Gate.Grants, Gate.Reports, Gate.Inv;
  }

  /** The command table of one host process. */
  class Console {
    var state: State

    ghost predicate Valid()
      reads this
    {
      Inv(state)
    }

    /** Opening the table after a restart leaves no command open. */
    constructor (was: State)
      requires Inv(was)
      ensures Valid() && state == Next(was, Restart)
      ensures state == was.(commands := state.commands) && |state.commands| == |was.commands|
      ensures forall i :: 0 <= i < |was.commands| ==>
                var c := was.commands[i];
                state.commands[i] == Command(c.packet, if c.status in {Recording, Queued, Running} then Uncertain else c.status, Idle)
    {
      hide Inv;
      var commands: seq<Command> := [];
      for i := 0 to |was.commands|
        invariant commands == RecoverAll(was.commands[..i])
      {
        assert was.commands[..i + 1][..i] == was.commands[..i];
        commands := commands + [Recovered(was.commands[i])];
      }
      assert was.commands[..|was.commands|] == was.commands;
      state := was.(commands := commands);
      new;
      RecoverKeeps(was);
    }

    /** Submit a decision. `current` says that the candidate is the one under review and that
        the publication channel is there; `audited`, that the decision could be audited. */
    method Submit(packet: Packet, current: bool, audited: bool) returns (r: Result<Status>)
      requires Valid()
      modifies this
      ensures Valid()
      ensures Find(old(state).commands, packet.requestId) >= 0 ==>
                state == old(state) &&
                var known := old(state).commands[Find(old(state).commands, packet.requestId)];
                r == if known.packet == packet then Ok(known.status) else Err(Error.Conflict)
      ensures Find(old(state).commands, packet.requestId) < 0 ==>
                if !current || !Gate.WaitsFor(old(state).gate, packet.cycle) || ActiveIn(old(state).commands, packet.cycle)
                then r.Err? && state == old(state)
                else && (r.Ok? <==> audited)
                     && state == old(state).(commands := old(state).commands +
                          [Command(packet, if !audited then Uncertain else if packet.decision == Defer then Deferred else Queued, Idle)])
    {
      hide Inv, ActiveIn, Move, UniqueIds, Gate.WaitsFor;
      var known := Find(state.commands, packet.requestId);
      if known >= 0 {
        var c := state.commands[known];
        return if c.packet == packet then Ok(c.status) else Err(Error.Conflict);
      }
      if !current || !Gate.WaitsFor(state.gate, packet.cycle) || ActiveIn(state.commands, packet.cycle) {
        return Err(Denied);
      }
      InsertKeeps(state, packet);
      var status := Record(packet, audited);
      r := if audited then Ok(status) else Err(Denied);
    }

    /** The new row, its audited decision, and what becomes of it. */
    method Record(packet: Packet, audited: bool) returns (status: Status)
      requires Valid() && Inv(state.(commands := state.commands + [Command(packet, Recording, Auditing)]))
      modifies this
      ensures Valid() && status == if !audited then Uncertain else if packet.decision == Defer then Deferred else Queued
      ensures state == old(state).(commands := old(state).commands + [Command(packet, status, Idle)])
    {
      hide Inv, Move, Find;
      ghost var before := state.commands;
      state := state.(commands := state.commands + [Command(packet, Recording, Auditing)]);
      var i := |state.commands| - 1;
      Take(i, AuditDecision(packet.requestId, audited));
      if audited {
        assert state.commands == before + [Command(packet, Recording, Audited)];
        Take(i, Settle(packet.requestId));
      }
      status := state.commands[i].status;
      assert state.commands == before + [Command(packet, status, Idle)];
    }

    /** Process a queued command to its end. */
    method Process(id: string, calls: Calls) returns (r: Result<Status>)
      requires Valid()
      modifies this
      ensures Valid()
      ensures var i := Find(old(state).commands, id);
              if i < 0 then r.Err? && state == old(state)
              else if old(state).commands[i].status != Queued then r == Ok(old(state).commands[i].status) && state == old(state)
              else
                var cycle := old(state).commands[i].packet.cycle;
                var claimed := cycle in old(state).prepared;
                // the command ends as the gates along its way say, and is published if it gets there
                && r == Ok(Verdict(old(state).gate, cycle, claimed, calls))
                && Find(state.commands, id) == i && state.commands[i] == Command(old(state).commands[i].packet, r.value, Idle)
                && state.publishes == old(state).publishes + (if Begun(old(state).gate, cycle, claimed, calls) then [(cycle, id)] else [])
                // in particular when nothing goes wrong
                && (Gate.WaitsFor(old(state).gate, cycle) && !claimed && Smooth(calls) ==>
                      r == Ok(Succeeded) && state.publishes == old(state).publishes + [(cycle, id)])
    {
      hide Inv, Move, UniqueIds, Verdict, Begun, Smooth, Gate.WaitsFor, Gate.Inv;
      var i := Find(state.commands, id);
      if i < 0 {
        return Err(Denied);
      }
      if state.commands[i].status != Queued {
        return Ok(state.commands[i].status);
      }
      GateSound(state);
      if Gate.WaitsFor(state.gate, state.commands[i].packet.cycle) && Smooth(calls) {
        SmoothSucceeds(state.gate, state.commands[i].packet.cycle, calls);
      }
      hide Find;
      Execute(i, id, calls);
      r := Ok(state.commands[i].status);
    }

    /** Carry out a command from the queue to its outcome. */
    method Execute(i: int, id: string, calls: Calls)
      requires Valid() && 0 <= i < |state.commands| && id == state.commands[i].packet.requestId && state.commands[i].status == Queued
      modifies this
      ensures Valid() && |state.commands| == |old(state).commands| && Find(state.commands, id) == i
      ensures var p := old(state).commands[i].packet;
              var claimed := p.cycle in old(state).prepared;
              && state.commands[i] == Command(p, Verdict(old(state).gate, p.cycle, claimed, calls), Idle)
              && state.publishes == old(state).publishes + if Begun(old(state).gate, p.cycle, claimed, calls) then [(p.cycle, id)] else []
    {
      hide Inv, Move, Find, Gate.Acts, Gate.Reports, Approves, HandleGate, ConfirmGate, ApproveGate, Verdict, Begun;
      ghost var g, cycle := state.gate, state.commands[i].packet.cycle;
      ghost var claimed := cycle in state.prepared;
      Authorise(i, id, calls);
      if state.commands[i].point == Approving {
        Carry(i, id, calls, g, claimed);
      } else {
        NeverBegun(g, cycle, claimed, calls);
      }
      if state.commands[i].point == Handling {
        Conclude(i, id, calls, g, claimed);
      } else {
        VerdictSucceeds(g, cycle, claimed, calls);
      }
    }

    /** From the queue to the gate's approval. */
    method Authorise(i: int, id: string, calls: Calls)
      requires Valid() && 0 <= i < |state.commands| && id == state.commands[i].packet.requestId && state.commands[i].status == Queued
      modifies this
      ensures Valid() && |state.commands| == |old(state).commands| && Find(state.commands, id) == i
      ensures state.publishes == old(state).publishes && state.commands[i].status == Running
      ensures state.commands[i].packet == old(state).commands[i].packet
      ensures var cycle := state.commands[i].packet.cycle;
              var claimed := cycle in old(state).prepared;
              if Approves(old(state).gate, cycle, claimed, calls)
              then state.commands[i].point == Approving && state.gate == Gate.Act(ApproveGate(old(state).gate, calls), Gate.Approve(cycle))
              else state.commands[i].point == Handling && Gate.Acts(state.gate, calls.others(6)) == HandleGate(old(state).gate, cycle, claimed, calls)
    {
      hide Inv, Find, Move, Gate.Act, Gate.WaitsFor, Gate.Grants;
      Take(i, Start(id));
      Meanwhile(calls.others(1));
      Take(i, Verify(id, calls.plan));
      if state.commands[i].point == Checked {
        Meanwhile(calls.others(2));
        Take(i, Approve(id, calls.answer));
      }
    }

    /** From the approval to the recorded outcome, of an execution that found gate `g` first. */
    method Carry(i: int, id: string, calls: Calls, ghost g: Gate.State, ghost claimed: bool)
      requires Valid() && 0 <= i < |state.commands| && id == state.commands[i].packet.requestId && state.commands[i].point == Approving
      requires Approves(g, state.commands[i].packet.cycle, claimed, calls)
      requires state.gate == Gate.Act(ApproveGate(g, calls), Gate.Approve(state.commands[i].packet.cycle))
      modifies this
      ensures Valid() && |state.commands| == |old(state).commands| && Find(state.commands, id) == i
      ensures state.commands[i].packet == old(state).commands[i].packet
      ensures var cycle := state.commands[i].packet.cycle;
              && state.publishes == old(state).publishes + (if Begun(g, cycle, claimed, calls) then [(cycle, id)] else [])
              && (state.commands[i].point == Handling || (state.commands[i].point == Idle && state.commands[i].status == Succeeded))
              && (state.commands[i].point == Idle <==>
                    Begun(g, cycle, claimed, calls) && calls.ended && calls.confirmed && calls.read
                    && Gate.Reports(ConfirmGate(g, cycle, calls), Gate.Observing))
              && (state.commands[i].point == Handling ==> Gate.Acts(state.gate, calls.others(6)) == HandleGate(g, cycle, claimed, calls))
    {
      hide Inv, Find, Move, Gate.Act, Gate.Permits, Gate.Reports, Approves, ApproveGate;
      ApprovesPrepared(g, state.commands[i].packet.cycle, claimed, calls);
      Meanwhile(calls.others(3));
      Take(i, Deploy(id, calls.begun));
      if state.commands[i].point == Deploying {
        Meanwhile(calls.others(4));
        Take(i, Attest(id, calls.deployed, calls.ended));
        if state.commands[i].point == Publishing {
          Meanwhile(calls.others(5));
          Take(i, Confirm(id, calls.confirmed, calls.read));
        }
      }
    }

    /** The exception handler. */
    method Conclude(i: int, id: string, calls: Calls, ghost g: Gate.State, ghost claimed: bool)
      requires Valid() && 0 <= i < |state.commands| && id == state.commands[i].packet.requestId && state.commands[i].point == Handling
      requires Gate.Acts(state.gate, calls.others(6)) == HandleGate(g, state.commands[i].packet.cycle, claimed, calls)
      requires var cycle := state.commands[i].packet.cycle;
               !(Begun(g, cycle, claimed, calls) && calls.ended && calls.confirmed && calls.read
                 && Gate.Reports(ConfirmGate(g, cycle, calls), Gate.Observing))
      modifies this
      ensures Valid() && |state.commands| == |old(state).commands| && Find(state.commands, id) == i
      ensures state.publishes == old(state).publishes
      ensures var p := old(state).commands[i].packet; state.commands[i] == Command(p, Verdict(g, p.cycle, claimed, calls), Idle)
    {
      hide Inv, Find, Move, Gate.Act, Gate.Acts, Gate.Reports, Begun, HandleGate, ConfirmGate;
      Meanwhile(calls.others(6));
      Take(i, Handle(id, calls.readable));
    }

    /** Others move the gate. */
    method Meanwhile(moves: seq<Gate.Move>)
      requires Valid()
      modifies this
      ensures Valid() && state == old(state).(gate := Gate.Acts(old(state).gate, moves))
    {
      hide Inv, Gate.Act;
      for k := 0 to |moves|
        invariant Valid() && state == old(state).(gate := Gate.Acts(old(state).gate, moves[..k]))
      {
        GateKeeps(state, moves[k]);
        state := state.(gate := Gate.Act(state.gate, moves[k]));
        assert moves[..k + 1][..k] == moves[..k];
      }
      assert moves[..|moves|] == moves;
    }

    method Take(i: int, step: Step)
      requires Valid() && 0 <= i < |state.commands| && Owned(step)
      requires step.id == state.commands[i].packet.requestId
      modifies this
      ensures Valid() && state == Move(old(state), i, step) && |state.commands| == |old(state).commands|
      ensures state.commands == old(state).commands[i := state.commands[i]] && Find(state.commands, step.id) == i
      ensures Advances(old(state), old(state).commands[i], step, state, state.commands[i])
    {
      MoveKeeps(state, i, step);
      MoveAdvances(state, i, step);
      state := Move(state, i, step);
      FindIs(state.commands, i);
    }
  }
}
