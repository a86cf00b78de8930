/** What the transactions of the budget decide and write, said in the fields of the ledger and
    of the request alone: when each is accepted, and what its row then holds. */
module Decisions {
  import opened Outcome
  import opened Ledger
  import opened Authority
  import opened Pricing
  import opened Reservation
  import opened BudgetSafety
  import opened BudgetSteps

  // ---- Prices ----

  /** `n` is `x` rounded up. */
  ghost predicate RoundedUp(n: int, x: real) {
    x <= n as real < x + 1.0
  }

  /** What a price comes to, nothing when there is none. */
  function At(price: Option<real>): real {
    if price.Some? then price.value else 0.0
  }

  /** The report is within the attempt's bounds, and nothing it used is without a price. */
  ghost predicate Payable(u: Usage, p: Payload)
    requires p.AttemptP?
  {
    && u.Counts?
    && u.input >= 0 && u.output >= 0 && u.cacheRead >= 0 && u.cacheCreation >= 0
    && u.input + u.cacheRead + u.cacheCreation <= p.inputBound && u.output <= p.maxTokens
    && (u.input > 0 ==> p.prices.input.Some?) && (u.output > 0 ==> p.prices.output.Some?)
    && (u.cacheRead > 0 ==> p.prices.cacheRead.Some?) && (u.cacheCreation > 0 ==> p.prices.cacheWrite.Some?)
  }

  /** Each reported quantity at its own price. */
  function Bill(u: Usage, prices: Prices): real
    requires u.Counts?
  {
    u.input as real * At(prices.input) + u.output as real * At(prices.output)
    + u.cacheRead as real * At(prices.cacheRead) + u.cacheCreation as real * At(prices.cacheWrite)
  }

  lemma {:induction false} CeilRounds(x: real)
    ensures RoundedUp(Ceil(x), x)
  {
    CeilMonotone(x, x);
  }

  lemma {:induction false} CostDefined(dims: seq<(int, Option<real>)>)
    requires Cost(dims).Ok?
    ensures Cost(dims).value.Some? <==> forall k :: 0 <= k < |dims| ==> dims[k].0 == 0 || dims[k].1.Some?
  {
    if dims != [] {
      var init := dims[..|dims| - 1];
      CostDefined(init);
      assert forall k :: 0 <= k < |init| ==> dims[k] == init[k];
    }
  }

  lemma {:induction false} TermIsShare(used: int, price: Option<real>)
    ensures Term(used, price) == used as real * At(price)
  {
  }

  lemma {:induction false} BillIsCost(u: Usage, prices: Prices)
    requires u.Counts? && Priced(Dimensions(u, prices))
    ensures Cost(Dimensions(u, prices)).value.value == Bill(u, prices)
  {
    hide Term, At;
    CostOfFour(Dimensions(u, prices));
    TermIsShare(u.input, prices.input);
    TermIsShare(u.output, prices.output);
    TermIsShare(u.cacheRead, prices.cacheRead);
    TermIsShare(u.cacheCreation, prices.cacheWrite);
    hide Cost, Priced;
  }

  lemma {:induction false} PayableIsPriced(u: Usage, p: Payload)
    requires p.AttemptP? && Cost(if u.Counts? then Dimensions(u, p.prices) else []).Ok?
    ensures Payable(u, p) <==> WithinBounds(u, p.inputBound, p.maxTokens) && Priced(Dimensions(u, p.prices))
  {
    hide Cost;
    if u.Counts? {
      var dims := Dimensions(u, p.prices);
      CostDefined(dims);
      assert dims[0] == (u.input, p.prices.input) && dims[1] == (u.output, p.prices.output);
      assert dims[2] == (u.cacheRead, p.prices.cacheRead) && dims[3] == (u.cacheCreation, p.prices.cacheWrite);
    }
  }

  lemma {:induction false} ChargeIsBill(u: Usage, p: Payload)
    requires p.AttemptP? && KnownCharge(u, p.prices, p.inputBound, p.maxTokens).Ok?
    ensures KnownCharge(u, p.prices, p.inputBound, p.maxTokens).value.Some? <==> Payable(u, p)
    ensures Payable(u, p) ==>
              RoundedUp(KnownCharge(u, p.prices, p.inputBound, p.maxTokens).value.value, Bill(u, p.prices))
  {
    if WithinBounds(u, p.inputBound, p.maxTokens) {
      PayableIsPriced(u, p);
      if Priced(Dimensions(u, p.prices)) {
        BillIsCost(u, p.prices);
        CeilRounds(Bill(u, p.prices));
      }
    }
    hide Cost, Ceil, Dimensions, Bill;
  }

  /** What a settlement leaves of an attempt: the bill rounded up when the report can be paid,
      and otherwise the whole reservation, uncertain. */
  ghost predicate SettledAs(before: Row, after: Row, u: Usage)
    requires before.payload.AttemptP?
  {
    && after.id == before.id && after.payload == before.payload && after.evidence.Some? && after.evidence.value.AttemptE?
    && var e := after.evidence.value;
       && (if Payable(u, before.payload)
           then after.status == Done && e.usageKnown && RoundedUp(e.charged, Bill(u, before.payload.prices))
           else after.status == Uncertain && !e.usageKnown && e.charged == before.payload.reserved)
       && (if u.NoUsage? || u.providerId.None? then e.providerId.None?
           else e.providerId.Some? && e.providerId.value <= u.providerId.value && |e.providerId.value| == Least(|u.providerId.value|, 256))
  }

  lemma {:induction false} ReceiptSettles(row: Row, u: Usage)
    requires row.payload.AttemptP? && AttemptOk(row) && row.status == Pending
    ensures Receipted(row.payload, u).Ok?
    ensures var r := Receipted(row.payload, u).value; SettledAs(row, row.(status := r.0, evidence := Some(r.1)), u)
  {
    var p := row.payload;
    ChargeWithinReservation(u, p.prices, p.inputBound, p.maxTokens);
    ChargeIsBill(u, p);
    hide KnownCharge, Payable, Bill;
  }

  /** A settlement that leads from `s` to `t`, or is refused: it is accepted from exactly the
      holder of the attempt's permit, an attempt already settled stays, and of a pending one its
      own row alone changes, as `SettledAs` says. */
  ghost predicate Settlement(s: State, permit: Permit, u: Usage, accepted: bool, t: State) {
    var row := Lookup(s.rows, permit.attempt);
    && (accepted <==>
          && row.Some? && row.value.payload.AttemptP? && row.value.payload.scopeId == permit.scopeId
          && row.value.payload.reserved == permit.reserved && row.value.payload.deadline == permit.deadline)
    && (!accepted || row.value.status != Pending ==> t == s)
    && (accepted && row.value.status == Pending ==>
          && Lookup(t.rows, permit.attempt).Some? && SettledAs(row.value, Lookup(t.rows, permit.attempt).value, u)
          && (forall id :: id != permit.attempt ==> Lookup(t.rows, id) == Lookup(s.rows, id))
          && t.events == s.events + [Receipt(permit.attempt, Lookup(t.rows, permit.attempt).value.status,
                                             Lookup(t.rows, permit.attempt).value.evidence.value)])
  }

  /** Every pending attempt of the ledger is settled, with every report, by whoever holds its permit. */
  lemma {:induction false} SettlementDecides(s: State, permit: Permit, u: Usage)
    requires BudgetInv(s)
    ensures var t := Settle(s, permit, u); Settlement(s, permit, u, t.Ok?, if t.Ok? then t.value else s)
  {
    hide SettledAs, AttemptOk, Receipted, AuthorityInv, Within;
    var row := Lookup(s.rows, permit.attempt);
    if row.Some? && row.value.payload.AttemptP? && row.value.status == Pending {
      ReceiptSettles(row.value, u);
      var r := Receipted(row.value.payload, u).value;
      forall id ensures Lookup(FinishRows(s.rows, permit.attempt, r.0, r.1), id) ==
                        if id == permit.attempt then Some(row.value.(status := r.0, evidence := Some(r.1))) else Lookup(s.rows, id)
      {
        LookupFinish(s.rows, permit.attempt, r.0, r.1, id);
      }
    } else if row.Some? && row.value.payload.AttemptP? {
      ReceiptOf(row.value, u);
    }
    hide FinishRows;
  }

  lemma {:induction false} ReceiptOf(row: Row, u: Usage)
    requires row.payload.AttemptP? && AttemptOk(row)
    ensures Receipted(row.payload, u).Ok?
  {
    ReceiptInOrder(row, u);
  }

  // ---- Reservation ----

  /** The kinds of policy a reservation is made under. */
  ghost predicate KnownPolicy(p: Policy) {
    if p.maxAttempts.Some? then p.schemaVersion == 1 && p.maxAttempts.value > 0
    else !p.serverDaily && (|| (p.schemaVersion == 2 && p.budget == Some(20_000_000))
                            || (p.schemaVersion == 3 && p.budget == None)
                            || (p.schemaVersion == 4 && p.budget == Some(50_000_000)))
  }

  predicate Dear(price: Option<real>) {
    price.Some? ==> price.value >= 0.0
  }

  /** The prices allow a worst case: output has one, input has some, and none is negative. */
  ghost predicate KnownPrices(p: Prices) {
    && p.output.Some? && (p.input.Some? || p.cacheRead.Some? || p.cacheWrite.Some?)
    && Dear(p.input) && Dear(p.output) && Dear(p.cacheRead) && Dear(p.cacheWrite)
  }

  /** `m` is the dearest of the present input prices. */
  ghost predicate Dearest(m: real, p: Prices) {
    && (p.input == Some(m) || p.cacheRead == Some(m) || p.cacheWrite == Some(m))
    && AtMost(p.input, m) && AtMost(p.cacheRead, m) && AtMost(p.cacheWrite, m)
  }

  lemma {:induction false} MaxRateDefined(prices: seq<Option<real>>)
    ensures MaxRate(prices).Ok? <==> (exists v <- prices :: v.Some?) && forall v <- prices :: v.Some? ==> v.value >= 0.0
  {
    if prices != [] {
      var init, last := prices[..|prices| - 1], prices[|prices| - 1];
      MaxRateDefined(init);
      assert prices == init + [last];
    }
  }

  lemma {:induction false} DearestRate(p: Prices)
    ensures MaxRate(InputPrices(p)).Ok? <==>
            (p.input.Some? || p.cacheRead.Some? || p.cacheWrite.Some?) && Dear(p.input) && Dear(p.cacheRead) && Dear(p.cacheWrite)
    ensures MaxRate(InputPrices(p)).Ok? ==> Dearest(MaxRate(InputPrices(p)).value, p)
  {
    var ps := InputPrices(p);
    assert ps[0] == p.input && ps[1] == p.cacheRead && ps[2] == p.cacheWrite;
    MaxRateDefined(ps);
    if MaxRate(ps).Ok? {
      MaxRateBounds(ps);
    }
    hide MaxRate;
  }

  /** A request is priced under a known policy with known prices, within its token limit, at
      the dearest input price for the whole input bound and the output price for every token
      asked for, rounded up. */
  lemma {:induction false} QuoteDecides(req: Request, policy: Policy)
    ensures Quote(req, policy).Ok? <==> KnownPolicy(policy) && KnownPrices(policy.prices) && 0 < req.maxTokens <= policy.maxTokens
    ensures Quote(req, policy).Ok? ==>
              exists m :: Dearest(m, policy.prices) &&
                          RoundedUp(Quote(req, policy).value, m * policy.inputTokenBound as real + policy.prices.output.value * req.maxTokens as real)
    ensures PolicyAttemptLimit(policy).Ok? <==> KnownPolicy(policy)
    ensures KnownPolicy(policy) ==>
              PolicyAttemptLimit(policy).value == if policy.maxAttempts.None? then None else Some(Least(100, policy.maxAttempts.value))
  {
    DearestRate(policy.prices);
    hide MaxRate, Dearest, Ceil;
    if Quote(req, policy).Ok? {
      var m := MaxRate(InputPrices(policy.prices)).value;
      CeilRounds(WorstCase(m, policy.inputTokenBound, policy.prices.output.value, req.maxTokens));
    }
  }

  /** One attempt more, and a total of `used`, are within the policy, the standing ceiling and
      the limits of the authority's stage. */
  ghost predicate Room(stage: Stage, scope: Payload, policy: Policy, n: nat, used: int)
    requires scope.ScopeP?
  {
    && (policy.maxAttempts.Some? ==> n <= 100 && n <= policy.maxAttempts.value)
    && (policy.budget.Some? ==> used <= policy.budget.value)
    && (policy.schemaVersion != 3 && policy.schemaVersion != 4 ==> used <= 20_000_000)
    && match stage
       case Original => n <= scope.maxAttempts && used <= scope.budget
       case Twenty => n <= scope.maxAttempts && used <= 20_000_000
       case FeeOnly => used <= 20_000_000
       case Uncapped => true
       case Finite => used <= 50_000_000
  }

  /** The scope a reservation is made in: the one on the ledger, or the one it opens. */
  ghost function ScopeFor(s: State, policy: Policy): Payload {
    var row := Lookup(s.rows, ScopeKey("local-trial-1"));
    if row.Some? then row.value.payload
    else ScopeP(if policy.maxAttempts.None? then 100 else Least(100, policy.maxAttempts.value),
                if policy.budget.None? then 10_000_000 else Least(10_000_000, policy.budget.value))
  }

  /** The deadline of a permit: the policy's timeout from now, or the run's deadline if sooner. */
  ghost predicate Deadline(d: real, now: real, policy: Policy, grant: Grant) {
    && (d == now + policy.timeout || Some(d) == grant.deadline)
    && d <= now + policy.timeout && (grant.deadline.Some? ==> d <= grant.deadline.value)
  }

  ghost predicate Reservable(s: State, uuid: nat, scopeId: string, req: Request, policy: Policy, custody: bool, grant: Result<Grant>)
    requires ScopeFor(s, policy).ScopeP?
  {
    && scopeId == "local-trial-1" && Quote(req, policy).Ok? && custody && grant.Ok? && Lookup(s.rows, AttemptKey(uuid)).None?
    && (Lookup(s.rows, ScopeKey("local-trial-1")).Some? ==> ScopeFor(s, policy).budget > 0)
    && Room(StageOf(s.rows), ScopeFor(s, policy), policy, Attempts(s.rows, scopeId) + 1,
            Total(s.rows, scopeId) + Quote(req, policy).value)
  }

  /** What an accepted reservation writes: the scope if it was not there, and the attempt,
      pending, with all that its settlement will need. */
  ghost predicate ReservedAs(s: State, t: State, permit: Permit, uuid: nat, req: Request, policy: Policy, now: real, grant: Grant)
    requires Quote(req, policy).Ok?
  {
    var amount := Quote(req, policy).value;
    var scope := Row(ScopeKey("local-trial-1"), ScopeFor(s, policy), Pending, None);
    && permit.attempt == AttemptKey(uuid) && permit.scopeId == "local-trial-1" && permit.reserved == amount
    && Deadline(permit.deadline, now, policy, grant)
    && t.rows == s.rows + (if Lookup(s.rows, ScopeKey("local-trial-1")).Some? then [] else [scope]) +
                 [Row(AttemptKey(uuid),
                      AttemptP("local-trial-1", amount, permit.deadline, policy.prices, policy.inputTokenBound, req.maxTokens, grant.tag),
                      Pending, None)]
    && t.events == s.events + [Note("model-reserved", AttemptKey(uuid))]
  }

  lemma {:induction false} FitsIsRoom(stage: Stage, scope: Payload, policy: Policy, attempts: Option<int>, count: nat, used: int, amount: int)
    requires scope.ScopeP? && KnownPolicy(policy)
    requires attempts == if policy.maxAttempts.None? then None else Some(Least(100, policy.maxAttempts.value))
    ensures Fits(count, used, amount, attempts, policy, LimitsAt(stage, scope)) <==> Room(stage, scope, policy, count + 1, used + amount)
  {
  }

  lemma {:induction false} LimitsKnown(s: State, policy: Policy)
    requires BudgetInv(s) && KnownPolicy(policy)
    requires Lookup(s.rows, ScopeKey(LOCAL_TRIAL)).Some? ==> ScopeFor(s, policy).ScopeP? && ScopeFor(s, policy).budget > 0
    ensures var attempts := PolicyAttemptLimit(policy).value;
            var scope := ScopeFor(s, policy);
            && scope.ScopeP? && TrialLimits(Opened(s, attempts, policy), scope) == Ok(LimitsAt(StageOf(s.rows), scope))
    ensures Lookup(s.rows, ScopeKey(LOCAL_TRIAL)).Some? ==>
              ScopePayload(Lookup(s.rows, ScopeKey(LOCAL_TRIAL))) == Ok(ScopeFor(s, policy))
  {
    QuoteDecides(Request(1, "", 1), policy);
    var attempts := PolicyAttemptLimit(policy).value;
    var scope := ScopeFor(s, policy);
    if Lookup(s.rows, ScopeKey(LOCAL_TRIAL)).Some? {
      ScopeReads(s, scope);
    }
    OpenedKeeps(s, attempts, policy, scope);
    RecomputationRefines(Opened(s, attempts, policy), scope);
    hide BudgetInv, TrialLimits, StageOf, LimitsAt, AuthorityInv, Total, Attempts, AttemptsOk, Quote, ScopePayload;
  }

  /** A reservation is accepted if and only if it is for the one scope, is priced, has custody
      and a grant, bears a fresh identifier, and has room; and it then writes what it says. */
  lemma {:induction false} ReservationDecides(s: State, uuid: nat, scopeId: string, req: Request, policy: Policy, now: real,
          custody: bool, grant: Result<Grant>)
    requires BudgetInv(s)
    ensures ScopeFor(s, policy).ScopeP?
    ensures Reserve(s, uuid, scopeId, req, policy, now, custody, grant).Ok? <==> Reservable(s, uuid, scopeId, req, policy, custody, grant)
    ensures Reservable(s, uuid, scopeId, req, policy, custody, grant) ==>
              var r := Reserve(s, uuid, scopeId, req, policy, now, custody, grant).value;
              ReservedAs(s, r.0, r.1, uuid, req, policy, now, grant.value)
  {
    hide BudgetInv, TrialLimits, StageOf, LimitsAt, Fits, Room, KnownPolicy, KnownPrices, Quote, PolicyAttemptLimit, Total, Attempts, ScopePayload, Dearest, Reserve, ReservedAs;
    QuoteDecides(req, policy);
    ScopeKnown(s, policy);
    if Quote(req, policy).Ok? && Lookup(s.rows, ScopeKey(LOCAL_TRIAL)).Some? && ScopeFor(s, policy).budget <= 0 {
      UnfundedRefused(s, uuid, scopeId, req, policy, now, custody, grant);
    } else if Quote(req, policy).Ok? {
      LimitsKnown(s, policy);
      FitsIsRoom(StageOf(s.rows), ScopeFor(s, policy), policy, PolicyAttemptLimit(policy).value, Attempts(s.rows, scopeId),
                 Total(s.rows, scopeId), Quote(req, policy).value);
      OpenedLookup(s, PolicyAttemptLimit(policy).value, policy, AttemptKey(uuid));
      ReserveUnfolds(s, uuid, scopeId, req, policy, now, custody, grant, LimitsAt(StageOf(s.rows), ScopeFor(s, policy)));
      if Reservable(s, uuid, scopeId, req, policy, custody, grant) {
        ReserveWrites(s, uuid, scopeId, req, policy, now, custody, grant);
      }
    } else {
      UnquotedRefused(s, uuid, scopeId, req, policy, now, custody, grant);
    }
  }

  lemma {:induction false} ScopeKnown(s: State, policy: Policy)
    requires BudgetInv(s)
    ensures ScopeFor(s, policy).ScopeP?
  {
    var row := Lookup(s.rows, ScopeKey(LOCAL_TRIAL));
    if row.Some? {
      assert AmendmentOk(row.value);
    }
    hide Sound, Chain, Grounded, AttemptsOk, Within;
  }

  lemma {:induction false} UnfundedRefused(s: State, uuid: nat, scopeId: string, req: Request, policy: Policy, now: real,
          custody: bool, grant: Result<Grant>)
    requires Lookup(s.rows, ScopeKey(LOCAL_TRIAL)).Some?
    requires Lookup(s.rows, ScopeKey(LOCAL_TRIAL)).value.payload.ScopeP? && Lookup(s.rows, ScopeKey(LOCAL_TRIAL)).value.payload.budget <= 0
    ensures Reserve(s, uuid, scopeId, req, policy, now, custody, grant).Err?
  {
    hide Quote, PolicyAttemptLimit, TrialLimits, Fits, Opened;
  }

  lemma {:induction false} UnquotedRefused(s: State, uuid: nat, scopeId: string, req: Request, policy: Policy, now: real,
          custody: bool, grant: Result<Grant>)
    requires Quote(req, policy).Err?
    ensures Reserve(s, uuid, scopeId, req, policy, now, custody, grant).Err?
  {
    hide Quote, PolicyAttemptLimit;
  }

  lemma {:induction false} ReserveUnfolds(s: State, uuid: nat, scopeId: string, req: Request, policy: Policy, now: real,
          custody: bool, grant: Result<Grant>, limits: Limits)
    requires PolicyAttemptLimit(policy).Ok? && Quote(req, policy).Ok? && ScopeFor(s, policy).ScopeP?
    requires PolicyAttemptLimit(policy).value == if policy.maxAttempts.None? then None else Some(Least(100, policy.maxAttempts.value))
    requires TrialLimits(Opened(s, PolicyAttemptLimit(policy).value, policy), ScopeFor(s, policy)) == Ok(limits)
    requires Lookup(s.rows, ScopeKey(LOCAL_TRIAL)).Some? ==>
               ScopePayload(Lookup(s.rows, ScopeKey(LOCAL_TRIAL))) == Ok(ScopeFor(s, policy))
    requires Lookup(Opened(s, PolicyAttemptLimit(policy).value, policy).rows, AttemptKey(uuid)) == Lookup(s.rows, AttemptKey(uuid))
    ensures Reserve(s, uuid, scopeId, req, policy, now, custody, grant).Ok? <==>
            && scopeId == "local-trial-1" && custody && grant.Ok? && Lookup(s.rows, AttemptKey(uuid)).None?
            && Fits(Attempts(s.rows, scopeId), Total(s.rows, scopeId), Quote(req, policy).value, PolicyAttemptLimit(policy).value, policy, limits)
  {
    hide TrialLimits, Fits, Quote, PolicyAttemptLimit, Total, Attempts, ScopePayload, Opened, PermitDeadline;
  }

  lemma {:induction false} ReserveWrites(s: State, uuid: nat, scopeId: string, req: Request, policy: Policy, now: real,
          custody: bool, grant: Result<Grant>)
    requires Reserve(s, uuid, scopeId, req, policy, now, custody, grant).Ok? && ScopeFor(s, policy).ScopeP?
    requires PolicyAttemptLimit(policy).Ok? ==>
               PolicyAttemptLimit(policy).value == if policy.maxAttempts.None? then None else Some(Least(100, policy.maxAttempts.value))
    ensures Quote(req, policy).Ok? && grant.Ok?
    ensures var r := Reserve(s, uuid, scopeId, req, policy, now, custody, grant).value;
            ReservedAs(s, r.0, r.1, uuid, req, policy, now, grant.value)
  {
    hide TrialLimits, Fits, Quote, PolicyAttemptLimit, Total, Attempts, ScopePayload, Reserve;
    var _, _, _, _ := ReserveShape(s, uuid, scopeId, req, policy, now, custody, grant);
  }

  lemma {:induction false} OpenedLookup(s: State, attempts: Option<int>, policy: Policy, key: OpId)
    requires key.AttemptKey?
    ensures Lookup(Opened(s, attempts, policy).rows, key) == Lookup(s.rows, key)
  {
    LookupInsert(s.rows, Row(ScopeKey(LOCAL_TRIAL), OpeningScope(attempts, policy.budget), Pending, None), key);
  }

  // ---- Amendments ----

  /** Neither a phase admission nor an attempt is under way. */
  ghost predicate NothingInFlight(rows: seq<Row>) {
    forall r <- rows :: r.payload.AdmissionP? || r.payload.AttemptP? ==> r.status != Pending
  }

  /** The approval says what its kind must say, word for word. */
  ghost predicate SaysSo(p: Payload) {
    match p
    case AmendV1P(scopeId, original, effective, budget, reference, approved) =>
      scopeId == "local-trial-1" && original == 10_000_000 && effective == 10_000_000 && budget == 20_000_000
      && approved && TrustedReference(reference, 512)
    case AmendV2P(version, scopeId, original, effective, attempts, budget, noAttemptLimit, noPhases, reference, approved) =>
      version == 2 && scopeId == "local-trial-1" && original == 10_000_000 && effective == 20_000_000 && attempts == 100
      && budget == 20_000_000 && noAttemptLimit && noPhases && approved && TrustedReference(reference, 512)
    case AmendV3P(scopeId, reference, approved) => scopeId == "local-trial-1" && approved && TrustedReference(reference, 512)
    case AmendV4P(scopeId, reference, approved) => scopeId == "local-trial-1" && approved && TrustedReference(reference, 512)
    case _ => false
  }

  /** The authority is where this amendment takes it on from. */
  ghost predicate Due(s: State, scope: Payload, p: Payload)
    requires scope.ScopeP? && IsAmendment(p)
  {
    match p
    case AmendV1P(_, _, _, _, _, _) => StageOf(s.rows) == Original && scope.budget == 10_000_000
    case AmendV2P(_, _, _, _, _, _, _, _, _, _) =>
      StageOf(s.rows) == Twenty && scope == ScopeP(100, 10_000_000) && FenceStands(s.rows) && NothingInFlight(s.rows)
    case AmendV3P(_, _, _) => StageOf(s.rows) == FeeOnly && NothingInFlight(s.rows)
    case AmendV4P(_, _, _) => StageOf(s.rows) == Uncapped && NothingInFlight(s.rows) && Total(s.rows, "local-trial-1") <= 50_000_000
  }

  /** The receipt of an approval. */
  function ReceiptFor(p: Payload): Evidence
    requires IsAmendment(p)
  {
    match p
    case AmendV1P(_, _, _, _, reference, _) => AmendV1E(true, 20_000_000, reference)
    case AmendV2P(_, _, _, _, _, _, _, _, reference, _) => AmendE(2, true, Some(20_000_000), true, true, reference)
    case AmendV3P(_, reference, _) => AmendE(3, true, None, true, true, reference)
    case AmendV4P(_, reference, _) => AmendE(4, true, Some(50_000_000), true, true, reference)
  }

  lemma {:induction false} SayingIsValid(p: Payload)
    requires IsAmendment(p)
    ensures ValidAmendment(p) <==> SaysSo(p)
    ensures SaysSo(p) ==> Approval(p) == ReceiptFor(p)
  {
    hide TrustedReference;
  }

  lemma {:induction false} DueIsAdmissible(s: State, scope: Payload, id: OpId, p: Payload)
    requires scope.ScopeP? && IsAmendment(p) && AttemptsOk(s.rows)
    ensures Admissible(s, scope, id, p) <==> SaysSo(p) && TrustedId(id) && Due(s, scope, p)
  {
    SayingIsValid(p);
    forall r | r in s.rows
      ensures r.payload.AttemptP? ==> r.payload.scopeId == LOCAL_TRIAL
    {
    }
    hide StageOf, TrustedId, SaysSo, ValidAmendment, FenceStands, Total;
  }

  /** A fresh amendment is accepted if and only if the scope it speaks of is open and funded, it
      says what its kind must say, its identifier is trusted and the authority is where it takes
      it on from; it is then on record, done, with its receipt and its two events. */
  lemma {:induction false} AmendmentDecides(s: State, id: OpId, p: Payload)
    requires BudgetInv(s) && IsAmendment(p) && Lookup(s.rows, id).None?
    ensures var row := Lookup(s.rows, ScopeKey("local-trial-1"));
            Amend(s, id, p).Ok? <==>
            && row.Some? && row.value.payload.ScopeP? && row.value.payload.budget > 0
            && SaysSo(p) && TrustedId(id) && Due(s, row.value.payload, p)
    ensures Amend(s, id, p).Ok? ==>
              Amend(s, id, p).value ==
              State(s.rows + [Row(id, p, Done, Some(ReceiptFor(p)))],
                    s.events + [Intent(id, p), Receipt(id, Done, ReceiptFor(p))])
  {
    hide BudgetInv, Amend, Admissible, SaysSo, TrustedId, Due, StageOf;
    var row := Lookup(s.rows, ScopeKey(LOCAL_TRIAL));
    if Amend(s, id, p).Ok? {
      AmendReadsScope(s, id, p);
      AmendFunded(s, id, p);
      AmendKeeps(s, id, p);
    }
    if row.Some? && row.value.payload.ScopeP? && row.value.payload.budget > 0 {
      AmendmentAccepted(s, row.value.payload, id, p);
      AttemptsPart(s);
      DueIsAdmissible(s, row.value.payload, id, p);
      SayingIsValid(p);
    }
  }

  lemma {:induction false} AttemptsPart(s: State)
    requires BudgetInv(s)
    ensures AttemptsOk(s.rows)
  {
    hide AttemptsOk;
  }

  lemma {:induction false} AmendFunded(s: State, id: OpId, p: Payload)
    requires IsAmendment(p) && Amend(s, id, p).Ok?
    ensures var row := Lookup(s.rows, ScopeKey(LOCAL_TRIAL)); row.Some? && row.value.payload.ScopeP? && row.value.payload.budget > 0
  {
    hide TrialLimits, EffectiveBudget, TrustedId, TrustedReference, Total, Amended, ConcludeV2, ConcludeV3, ConcludeV4;
  }
}
