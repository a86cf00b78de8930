/** The request budgets of a development run, and the part of them that is held back so
    that a patch can always be checked and reported. */
module DevelopmentLimits {
  import opened Outcome

  datatype Tool = ReadSource | CandidateStatus | ApplyPatch | RunCheck(unit: bool) | OtherTool

  datatype Kind = ModelCall | ToolCall | Verify

  /** `deadline` and cancellation appear as whether the run is still alive. */
  datatype Budget = Budget(maxModel: int, maxTool: int, model: nat, tool: nat, reserve: int, completionOnly: bool)

  function ToolsLeft(b: Budget): int {
    b.maxTool - b.tool
  }

  function ModelsLeft(b: Budget): int {
    b.maxModel - b.model
  }

  predicate Acceptable(requests: int, tools: int, reserve: int) {
    && reserve >= 0
    && (reserve > 0 ==> reserve >= 4 && tools >= reserve + 4 && requests >= 7)
  }

  predicate Entering(b: Budget) {
    !b.completionOnly && (ToolsLeft(b) <= b.reserve + 2 || ModelsLeft(b) <= 4)
  }

  /** What the gate before a tool leaves behind, whether it passes or not. */
  function Gated(b: Budget): Budget {
    if b.reserve > 0 then b.(completionOnly := b.completionOnly || Entering(b)) else b
  }

  /** Does the gate let the tool through? */
  predicate Passes(b: Budget, t: Tool) {
    b.reserve == 0 || !Gated(b).completionOnly ||
    match t
    case ReadSource => Entering(b) && ToolsLeft(b) >= b.reserve + 2 && ModelsLeft(b) >= 4
    case CandidateStatus => ToolsLeft(b) >= 2 && ModelsLeft(b) >= 1
    case ApplyPatch => ToolsLeft(b) >= 6 && ModelsLeft(b) >= 3
    case RunCheck(unit) => unit && ToolsLeft(b) >= 4 && ModelsLeft(b) >= 2
    case OtherTool => false
  }

  predicate Claimable(b: Budget, k: Kind) {
    if k.ModelCall? then b.model < b.maxModel else b.tool < b.maxTool
  }

  function Claimed(b: Budget, k: Kind): Budget {
    if k.ModelCall? then b.(model := b.model + 1) else b.(tool := b.tool + 1)
  }

  /** The class the host shares between its routes. */
  class Limits {
    const maxModel: int
    const maxTool: int
    const reserve: int
    var model: nat
    var tool: nat
    var completionOnly: bool

    function State(): Budget
      reads this
    {
      Budget(maxModel, maxTool, model, tool, reserve, completionOnly)
    }

    constructor (requests: int, tools: int, reserve: int)
      ensures State() == Budget(requests, tools, 0, 0, reserve, false)
    {
      maxModel, maxTool, this.reserve := requests, tools, reserve;
      model, tool, completionOnly := 0, 0, false;
    }

    /** Limits whose reserve could not be honoured are refused. */
    static method Open(requests: int, tools: int, reserve: int) returns (r: Result<Limits>)
      ensures r.Ok? <==> Acceptable(requests, tools, reserve)
      ensures r.Ok? ==> fresh(r.value) && r.value.State() == Budget(requests, tools, 0, 0, reserve, false)
    {
      if reserve < 0 || (reserve != 0 && (reserve < 4 || tools < reserve + 4)) {
        return Err(BadValue);
      }
      if reserve != 0 && requests < 7 {
        return Err(BadValue);
      }
      var limits := new Limits(requests, tools, reserve);
      r := Ok(limits);
    }

    method BeforeTool(t: Tool, alive: bool) returns (r: Result<()>)
      requires reserve >= 0
      modifies this
      ensures r.Ok? <==> alive && Passes(old(State()), t)
      ensures State() == if alive then Gated(old(State())) else old(State())
    {
      if !alive {
        return Err(Denied);
      }
      if reserve == 0 {
        return Ok(());
      }
      var remaining, modelRemaining := maxTool - tool, maxModel - model;
      var entering := !completionOnly && (remaining <= reserve + 2 || modelRemaining <= 4);
      completionOnly := completionOnly || entering;
      if !completionOnly {
        return Ok(());
      }
      if t.ReadSource? {
        r := if entering && remaining >= reserve + 2 && modelRemaining >= 4 then Ok(()) else Err(Denied);
        return;
      }
      var (needed, modelNeeded) := match t
        case CandidateStatus => (2, 1)
        case ApplyPatch => (6, 3)
        case RunCheck(_) => (4, 2)
        case _ => (remaining + 1, 0);
      r := if remaining >= needed && modelRemaining >= modelNeeded && (t.RunCheck? ==> t.unit) then Ok(()) else Err(Denied);
    }

    /** The broker's own gate: nothing is read any more once only completion is left. */
    method AdmitTool(t: Tool) returns (r: Result<()>)
      ensures r.Err? <==> completionOnly && t.ReadSource?
    {
      r := if completionOnly && t.ReadSource? then Err(Denied) else Ok(());
    }

    method Claim(k: Kind, alive: bool) returns (r: Result<()>)
      modifies this
      ensures r.Ok? <==> alive && Claimable(old(State()), k)
      ensures State() == if r.Ok? then Claimed(old(State()), k) else old(State())
    {
      if !alive {
        return Err(Denied);
      }
      if k.ModelCall? {
        :- Need(model < maxModel, Denied);
        model := model + 1;
      } else {
        :- Need(tool < maxTool, Denied);
        tool := tool + 1;
      }
      r := Ok(());
    }
  }

  // ---- Histories ----

  datatype Action = UseTool(tool: Tool) | Call(kind: Kind)

  /** A tool request is gated, then counted; a refusal leaves the gate's mark. */
  function Next(b: Budget, a: Action): Budget {
    match a
    case UseTool(t) => if Passes(b, t) && Claimable(Gated(b), ToolCall) then Claimed(Gated(b), ToolCall) else Gated(b)
    case Call(k) => if Claimable(b, k) then Claimed(b, k) else b
  }

  predicate Succeeds(b: Budget, a: Action) {
    match a
    case UseTool(t) => Passes(b, t) && Claimable(Gated(b), ToolCall)
    case Call(k) => Claimable(b, k)
  }

  function Play(b: Budget, actions: seq<Action>): Budget {
    if actions == [] then b else Next(Play(b, actions[..|actions| - 1]), actions[|actions| - 1])
  }

  predicate AllSucceed(b: Budget, actions: seq<Action>) {
    actions == [] || (AllSucceed(b, actions[..|actions| - 1]) && Succeeds(Play(b, actions[..|actions| - 1]), actions[|actions| - 1]))
  }

  /** Counts never pass their maximum, and the mode never resets, in any history. */
  lemma {:induction false} Bounded(b: Budget, actions: seq<Action>)
    requires b.model <= b.maxModel && b.tool <= b.maxTool
    ensures var c := Play(b, actions);
            && b.model <= c.model <= c.maxModel == b.maxModel && b.tool <= c.tool <= c.maxTool == b.maxTool
            && c.reserve == b.reserve && (b.completionOnly ==> c.completionOnly)
  {
    if actions != [] {
      Bounded(b, actions[..|actions| - 1]);
    }
  }

  /** The gate in numbers. Nothing is held back without a reserve, or while more than two tool
      requests beyond it and more than four model requests are left. After that one read may
      still pass, by which the first of these bounds is reached and neither is undercut; a patch
      needs six tool requests and three model requests, the unit check four and two, the status
      two and one; and nothing else passes. */
  lemma {:induction false} GateDecides(b: Budget, t: Tool)
    requires b.reserve >= 0
    ensures var tools, models := b.maxTool - b.tool, b.maxModel - b.model;
            Passes(b, t) <==>
            || b.reserve == 0
            || (!b.completionOnly && tools > b.reserve + 2 && models > 4)
            || (t == ReadSource && !b.completionOnly && tools >= b.reserve + 2 && models >= 4)
            || (t == ApplyPatch && tools >= 6 && models >= 3)
            || (t == RunCheck(true) && tools >= 4 && models >= 2)
            || (t == CandidateStatus && tools >= 2 && models >= 1)
    ensures Gated(b).completionOnly <==>
            b.completionOnly || (b.reserve > 0 && (b.maxTool - b.tool <= b.reserve + 2 || b.maxModel - b.model <= 4))
  {
  }

  /** How many reads pass the gate while, or by which, only completion is left. */
  function LateReads(b: Budget, actions: seq<Action>): nat {
    if actions == [] then 0
    else
      var before := Play(b, actions[..|actions| - 1]);
      var a := actions[|actions| - 1];
      LateReads(b, actions[..|actions| - 1]) +
      if a == UseTool(ReadSource) && Gated(before).completionOnly && Passes(before, ReadSource) then 1 else 0
  }

  /** In any history at most one read passes once the mode is entered: the one that enters
      it. (The broker's gate, which sees the mode entered, then stops it.) */
  lemma {:induction false} OneLateRead(b: Budget, actions: seq<Action>)
    requires b.reserve > 0
    ensures Play(b, actions).reserve == b.reserve && (b.completionOnly ==> Play(b, actions).completionOnly)
    ensures LateReads(b, actions) <= if Play(b, actions).completionOnly && !b.completionOnly then 1 else 0
  {
    if actions != [] {
      OneLateRead(b, actions[..|actions| - 1]);
    }
  }

  /** The ways to finish after a patch: a check and a report, each tool verified once, with
      at most one model request between them. */
  function Finishing(first: bool, second: bool): seq<Action> {
    [UseTool(ApplyPatch), Call(Verify)] + (if first then [Call(ModelCall)] else []) +
    [UseTool(RunCheck(true)), Call(Verify)] + (if second then [Call(ModelCall)] else []) +
    [UseTool(CandidateStatus), Call(Verify)]
  }

  lemma {:induction false} PlayAppend(b: Budget, xs: seq<Action>, a: Action)
    ensures Play(b, xs + [a]) == Next(Play(b, xs), a)
    ensures AllSucceed(b, xs + [a]) <==> AllSucceed(b, xs) && Succeeds(Play(b, xs), a)
  {
    assert (xs + [a])[..|xs|] == xs;
  }

  lemma {:induction false} PlayConcat(b: Budget, xs: seq<Action>, ys: seq<Action>)
    ensures Play(b, xs + ys) == Play(Play(b, xs), ys)
    ensures AllSucceed(b, xs + ys) <==> AllSucceed(b, xs) && AllSucceed(Play(b, xs), ys)
  {
    if ys == [] {
      assert xs + ys == xs;
    } else {
      var init, last := ys[..|ys| - 1], ys[|ys| - 1];
      PlayConcat(b, xs, init);
      assert xs + ys == xs + init + [last] && ys == init + [last];
      PlayAppend(b, xs + init, last);
      PlayAppend(Play(b, xs), init, last);
    }
  }

  function Stage(t: Tool, model: bool): seq<Action> {
    [UseTool(t), Call(Verify)] + if model then [Call(ModelCall)] else []
  }

  /** One tool with its verification, and a model request or none. */
  lemma {:induction false} StagePlays(b: Budget, t: Tool, model: bool)
    ensures AllSucceed(b, Stage(t, model)) <==>
            Passes(b, t) && ToolsLeft(b) >= 2 && (model ==> ModelsLeft(b) >= 1)
    ensures AllSucceed(b, Stage(t, model)) ==>
              Play(b, Stage(t, model)) == Gated(b).(tool := b.tool + 2, model := b.model + if model then 1 else 0)
  {
    var one := [UseTool(t)];
    assert one == [] + [UseTool(t)];
    PlayAppend(b, [], UseTool(t));
    assert one + [Call(Verify)] == [UseTool(t), Call(Verify)];
    PlayAppend(b, one, Call(Verify));
    if model {
      PlayAppend(b, one + [Call(Verify)], Call(ModelCall));
    } else {
      assert [UseTool(t), Call(Verify)] + [] == [UseTool(t), Call(Verify)];
    }
  }

  lemma {:induction false} FinishingStages(first: bool, second: bool)
    ensures Finishing(first, second) == Stage(ApplyPatch, first) + Stage(RunCheck(true), second) + Stage(CandidateStatus, false)
  {
  }

  /** With a reserve, whenever a patch is let through, it can be checked and reported within
      both budgets. */
  lemma {:induction false} PatchCanBeFinished(b: Budget, first: bool, second: bool)
    requires b.reserve >= 4 && Succeeds(b, UseTool(ApplyPatch))
    ensures AllSucceed(b, Finishing(first, second))
  {
    FinishingStages(first, second);
    StagePlays(b, ApplyPatch, first);
    var c := Play(b, Stage(ApplyPatch, first));
    PlayConcat(b, Stage(ApplyPatch, first), Stage(RunCheck(true), second));
    StagePlays(c, RunCheck(true), second);
    var d := Play(c, Stage(RunCheck(true), second));
    PlayConcat(b, Stage(ApplyPatch, first) + Stage(RunCheck(true), second), Stage(CandidateStatus, false));
    StagePlays(d, CandidateStatus, false);
  }

  /** Without a reserve nothing is held back: finishing is possible exactly when six tool
      requests and the model requests happen to be left. */
  lemma {:induction false} UnreservedFinishing(b: Budget, first: bool, second: bool)
    requires b.reserve == 0
    ensures AllSucceed(b, Finishing(first, second)) <==>
            ToolsLeft(b) >= 6 && (first || second ==> ModelsLeft(b) >= if first && second then 2 else 1)
  {
    FinishingStages(first, second);
    StagePlays(b, ApplyPatch, first);
    var c := Play(b, Stage(ApplyPatch, first));
    PlayConcat(b, Stage(ApplyPatch, first), Stage(RunCheck(true), second));
    StagePlays(c, RunCheck(true), second);
    var d := Play(c, Stage(RunCheck(true), second));
    PlayConcat(b, Stage(ApplyPatch, first) + Stage(RunCheck(true), second), Stage(CandidateStatus, false));
    StagePlays(d, CandidateStatus, false);
  }

  /** A patch let through without a reserve that can no longer be checked. */
  lemma {:induction false} UnreservedPatchStrands()
    ensures var b := Budget(1, 1, 0, 0, 0, false);
            Acceptable(1, 1, 0) && Succeeds(b, UseTool(ApplyPatch)) && !AllSucceed(b, Finishing(false, false))
  {
    UnreservedFinishing(Budget(1, 1, 0, 0, 0, false), false, false);
  }
}
