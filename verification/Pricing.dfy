/** Worst-case reservation prices and their settlement from reported usage.
    Rates are exact non-negative rationals; amounts are rounded up to whole
    micro-yuan. */
module Pricing {
  import opened Outcome
  import opened Ledger

  function Ceil(x: real): int {
    -(-x).Floor
  }

  lemma {:induction false} CeilMonotone(x: real, y: real)
    requires x <= y
    ensures Ceil(x) <= Ceil(y)
    ensures x <= Ceil(x) as real < x + 1.0
  {
  }

  lemma {:induction false} CeilBetween(x: real, y: real)
    requires 0.0 <= x <= y
    ensures 0 <= Ceil(x) <= Ceil(y)
  {
    CeilMonotone(0.0, x);
    CeilMonotone(x, y);
  }

  function Rate(v: Option<real>): Result<real> {
    if v.None? || v.value < 0.0 then Err(BadValue) else Ok(v.value)
  }

  /** The largest of the prices that are present; an invalid price is an error, and so
      is having no price at all. */
  function MaxRate(prices: seq<Option<real>>): Result<real> {
    if prices == [] then Err(BadValue)
    else
      var last := prices[|prices| - 1];
      var rest := prices[..|prices| - 1];
      if last.None? then MaxRate(rest)
      else
        var r :- Rate(last);
        if forall v :: v in rest ==> v.None? then Ok(r)
        else
          var m :- MaxRate(rest);
          Ok(if m < r then r else m)
  }

  function InputPrices(p: Prices): seq<Option<real>> {
    [p.input, p.cacheRead, p.cacheWrite]
  }

  function WorstCase(inputRate: real, inputBound: int, outputRate: real, tokens: int): real {
    inputRate * inputBound as real + outputRate * tokens as real
  }

  /** The reservation: dearest input dimension for the whole input bound, plus output. */
  function ReservedAmount(prices: Prices, inputBound: int, tokens: int): Result<int> {
    var m :- MaxRate(InputPrices(prices));
    var out :- Rate(prices.output);
    Ok(Ceil(WorstCase(m, inputBound, out, tokens)))
  }

  datatype Usage =
    | NoUsage
    | Malformed(providerId: Option<string>)
    | Counts(input: int, output: int, cacheRead: int, cacheCreation: int, providerId: Option<string>)

  /** The reported quantities beside their prices, in the order settlement reads them. */
  function Dimensions(u: Usage, p: Prices): seq<(int, Option<real>)>
    requires u.Counts?
  {
    [(u.input, p.input), (u.output, p.output), (u.cacheRead, p.cacheRead), (u.cacheCreation, p.cacheWrite)]
  }

  /** What one dimension contributes to the cost. */
  function Term(used: int, price: Option<real>): real {
    if price.None? then 0.0 else used as real * price.value
  }

  /** Cost of the dimensions: an invalid price is an error, and `None` says that
      something unpriced was used. */
  function Cost(dims: seq<(int, Option<real>)>): Result<Option<real>> {
    if dims == [] then Ok(Some(0.0))
    else
      var (used, price) := dims[|dims| - 1];
      var before :- Cost(dims[..|dims| - 1]);
      if before.None? then Ok(None)
      else if price.None? then Ok(if used != 0 then None else before)
      else
        var _ :- Rate(price);
        Ok(Some(before.value + Term(used, price)))
  }

  predicate WithinBounds(u: Usage, inputBound: int, maxTokens: int) {
    && u.Counts?
    && u.input >= 0 && u.output >= 0 && u.cacheRead >= 0 && u.cacheCreation >= 0
    && u.output <= maxTokens
    && u.input + u.cacheRead + u.cacheCreation <= inputBound
  }

  /** The charge settlement finds, when the usage is known. */
  function KnownCharge(u: Usage, prices: Prices, inputBound: int, maxTokens: int): Result<Option<int>> {
    if !WithinBounds(u, inputBound, maxTokens) then Ok(None)
    else
      var c :- Cost(Dimensions(u, prices));
      Ok(if c.None? then None else Some(Ceil(c.value)))
  }

  lemma {:induction false} MaxRateBounds(prices: seq<Option<real>>)
    requires MaxRate(prices).Ok?
    ensures MaxRate(prices).value >= 0.0
    ensures forall v :: v in prices && v.Some? ==> 0.0 <= v.value <= MaxRate(prices).value
    ensures Some(MaxRate(prices).value) in prices
  {
    var last, rest := prices[|prices| - 1], prices[..|prices| - 1];
    assert prices == rest + [last];
    if last.None? || !(forall v :: v in rest ==> v.None?) {
      MaxRateBounds(rest);
      assert Some(MaxRate(prices).value) in rest || Some(MaxRate(prices).value) == last;
    } else {
      assert Some(MaxRate(prices).value) == last;
    }
  }

  lemma {:induction false} TermBounds(used: int, price: Option<real>, m: real)
    requires used >= 0 && m >= 0.0
    requires price.Some? ==> 0.0 <= price.value <= m
    ensures 0.0 <= Term(used, price) <= used as real * m
  {
    if price.Some? {
      Scale(used as real, 0.0, price.value);
      Scale(used as real, price.value, m);
    } else {
      Scale(used as real, 0.0, m);
    }
  }

  lemma {:induction false} Scale(a: real, p: real, m: real)
    requires a >= 0.0 && p <= m
    ensures a * p <= a * m
  {
  }

  predicate Priced(dims: seq<(int, Option<real>)>) {
    Cost(dims).Ok? && Cost(dims).value.Some?
  }

  lemma {:induction false} CostOfFour(dims: seq<(int, Option<real>)>)
    requires |dims| == 4 && Priced(dims)
    ensures Cost(dims).value.value == Term(dims[0].0, dims[0].1) + Term(dims[1].0, dims[1].1) +
                                      Term(dims[2].0, dims[2].1) + Term(dims[3].0, dims[3].1)
  {
    CostStep(dims);
    CostStep(dims[..3]);
    CostStep(dims[..2]);
    CostStep(dims[..1]);
    assert dims[..3][..2] == dims[..2] && dims[..2][..1] == dims[..1] && dims[..1][..0] == [];
  }

  lemma {:induction false} CostStep(dims: seq<(int, Option<real>)>)
    requires dims != [] && Priced(dims)
    ensures Priced(dims[..|dims| - 1])
    ensures Cost(dims).value.value ==
            Cost(dims[..|dims| - 1]).value.value + Term(dims[|dims| - 1].0, dims[|dims| - 1].1)
  {
  }

  lemma {:induction false} CostSucceeds(dims: seq<(int, Option<real>)>)
    requires forall d :: d in dims && d.1.Some? ==> d.1.value >= 0.0
    ensures Cost(dims).Ok?
  {
    if dims != [] {
      CostSucceeds(dims[..|dims| - 1]);
      assert dims[|dims| - 1] in dims;
    }
  }

  ghost predicate AtMost(price: Option<real>, m: real) {
    price.Some? ==> 0.0 <= price.value <= m
  }

  lemma {:induction false} Distribute(x: real, y: real, z: real, m: real)
    ensures x * m + y * m + z * m == m * (x + y + z)
  {
  }

  lemma {:induction false} SumOfShares(tx: real, ty: real, tz: real, xm: real, ym: real, zm: real, whole: real,
          most: real)
    requires 0.0 <= tx <= xm && 0.0 <= ty <= ym && 0.0 <= tz <= zm
    requires xm + ym + zm == whole <= most
    ensures 0.0 <= tx + ty + tz <= most
  {
  }

  /** Three input dimensions priced at most m use at most the whole bound at m. */
  lemma {:induction false} InputShare(x: real, y: real, z: real, tx: real, ty: real, tz: real, m: real, bound: real)
    requires m >= 0.0 && x + y + z <= bound
    requires 0.0 <= tx <= x * m && 0.0 <= ty <= y * m && 0.0 <= tz <= z * m
    ensures 0.0 <= tx + ty + tz <= m * bound
  {
    Distribute(x, y, z, m);
    Scale(m, x + y + z, bound);
    SumOfShares(tx, ty, tz, x * m, y * m, z * m, m * (x + y + z), m * bound);
  }

  /** The input side of a report, priced, stays within the dearest rate for the bound. */
  lemma {:induction false} InputTerms(u: Usage, prices: Prices, m: real, inputBound: int)
    requires u.Counts? && u.input >= 0 && u.cacheRead >= 0 && u.cacheCreation >= 0 && m >= 0.0
    requires u.input + u.cacheRead + u.cacheCreation <= inputBound
    requires AtMost(prices.input, m) && AtMost(prices.cacheRead, m) && AtMost(prices.cacheWrite, m)
    ensures 0.0 <= Term(u.input, prices.input) + Term(u.cacheRead, prices.cacheRead) +
                   Term(u.cacheCreation, prices.cacheWrite) <= m * inputBound as real
  {
    TermBounds(u.input, prices.input, m);
    TermBounds(u.cacheRead, prices.cacheRead, m);
    TermBounds(u.cacheCreation, prices.cacheWrite, m);
    InputShare(u.input as real, u.cacheRead as real, u.cacheCreation as real,
               Term(u.input, prices.input), Term(u.cacheRead, prices.cacheRead), Term(u.cacheCreation, prices.cacheWrite),
               m, inputBound as real);
  }

  lemma {:induction false} OutputShare(used: int, price: Option<real>, maxTokens: int)
    requires 0 <= used <= maxTokens && price.Some? && price.value >= 0.0
    ensures 0.0 <= Term(used, price) <= price.value * maxTokens as real
  {
    TermBounds(used, price, price.value);
    Scale(price.value, used as real, maxTokens as real);
  }

  lemma {:induction false} RatesBelowMax(prices: Prices)
    requires MaxRate(InputPrices(prices)).Ok?
    ensures var m := MaxRate(InputPrices(prices)).value;
            m >= 0.0 && AtMost(prices.input, m) && AtMost(prices.cacheRead, m) && AtMost(prices.cacheWrite, m)
  {
    var ps := InputPrices(prices);
    MaxRateBounds(ps);
    assert ps[0] in ps && ps[1] in ps && ps[2] in ps;
  }

  lemma {:induction false} AddShares(tx: real, ty: real, tz: real, tOut: real, mostIn: real, mostOut: real, total: real)
    requires 0.0 <= tx + ty + tz <= mostIn && 0.0 <= tOut <= mostOut
    requires total == tx + tOut + ty + tz
    ensures 0.0 <= total <= mostIn + mostOut
  {
  }

  lemma {:induction false} CostWithinWorstCase(u: Usage, prices: Prices, inputBound: int, maxTokens: int)
    requires MaxRate(InputPrices(prices)).Ok? && Rate(prices.output).Ok?
    requires WithinBounds(u, inputBound, maxTokens) && Priced(Dimensions(u, prices))
    ensures 0.0 <= Cost(Dimensions(u, prices)).value.value <=
            WorstCase(MaxRate(InputPrices(prices)).value, inputBound, prices.output.value, maxTokens)
  {
    var m, dims := MaxRate(InputPrices(prices)).value, Dimensions(u, prices);
    RatesBelowMax(prices);
    CostOfFour(dims);
    InputTerms(u, prices, m, inputBound);
    OutputShare(u.output, prices.output, maxTokens);
    AddShares(Term(u.input, prices.input), Term(u.cacheRead, prices.cacheRead),
              Term(u.cacheCreation, prices.cacheWrite), Term(u.output, prices.output),
              m * inputBound as real, prices.output.value * maxTokens as real, Cost(dims).value.value);
  }

  lemma {:induction false} RatesNonNegative(u: Usage, prices: Prices)
    requires u.Counts? && MaxRate(InputPrices(prices)).Ok? && Rate(prices.output).Ok?
    ensures forall d :: d in Dimensions(u, prices) && d.1.Some? ==> d.1.value >= 0.0
  {
    RatesBelowMax(prices);
  }

  /** For every price list and bound that could be reserved and every report, settlement
      finds no invalid price, and a charge it derives never exceeds the reservation: its
      final comparison never rejects. */
  lemma {:induction false} ChargeWithinReservation(u: Usage, prices: Prices, inputBound: int, maxTokens: int)
    requires ReservedAmount(prices, inputBound, maxTokens).Ok?
    ensures KnownCharge(u, prices, inputBound, maxTokens).Ok?
    ensures KnownCharge(u, prices, inputBound, maxTokens).value.Some? ==>
              0 <= KnownCharge(u, prices, inputBound, maxTokens).value.value
                <= ReservedAmount(prices, inputBound, maxTokens).value
  {
    if WithinBounds(u, inputBound, maxTokens) {
      var ps, dims := InputPrices(prices), Dimensions(u, prices);
      RatesNonNegative(u, prices);
      hide Dimensions, InputPrices, WithinBounds, Cost, MaxRate, Priced, Ceil, WorstCase;
      CostSucceeds(dims);
      if Priced(dims) {
        CostWithinWorstCase(u, prices, inputBound, maxTokens);
        CeilBetween(Cost(dims).value.value, WorstCase(MaxRate(ps).value, inputBound, prices.output.value, maxTokens));
      }
    }
  }

  /** The reservation of a non-negative bound is non-negative. */
  lemma {:induction false} ReservationNonNegative(prices: Prices, inputBound: int, tokens: int)
    requires inputBound >= 0 && tokens >= 0
    requires ReservedAmount(prices, inputBound, tokens).Ok?
    ensures ReservedAmount(prices, inputBound, tokens).value >= 0
  {
    MaxRateBounds(InputPrices(prices));
    Scale(MaxRate(InputPrices(prices)).value, 0.0, inputBound as real);
    Scale(prices.output.value, 0.0, tokens as real);
    CeilMonotone(0.0, WorstCase(MaxRate(InputPrices(prices)).value, inputBound, prices.output.value, tokens));
  }
}
