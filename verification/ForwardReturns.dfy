/**
 * Labelling past signals with forward returns: apps/server/src/db/forwardReturns.ts, and the
 * lookups and the loop around it in apps/server/src/db/marketDataRepository.ts. Instants are
 * integer milliseconds and prices exact reals.
 */
module ForwardReturns {
  import opened Wrappers

  /** A tick of the symbol being labelled; ties in time come in whatever order the table gives them. */
  datatype Tick = Tick(ts: int, price: real)

  datatype Status = Ready | MissingBasePrice | MissingFuturePrice | Failed

  datatype Calculation = Calculation(
    status: Status, returnPct: Option<real>, maxReturnPct: Option<real>, minReturnPct: Option<real>)

  // ---- the calculation ----------------------------------------------------------------------

  function PercentReturn(base: real, future: real): real
    requires base != 0.0
  {
    (future - base) / base * 100.0
  }

  function MaxOf(xs: seq<real>): real
    requires xs != []
  {
    if |xs| == 1 then xs[0]
    else
      var rest := MaxOf(xs[1..]);
      if rest >= xs[0] then rest else xs[0]
  }

  function MinOf(xs: seq<real>): real
    requires xs != []
  {
    if |xs| == 1 then xs[0]
    else
      var rest := MinOf(xs[1..]);
      if rest <= xs[0] then rest else xs[0]
  }

  /** The returns of the valid window prices, in window order. */
  function WindowReturns(base: real, window: seq<real>): seq<real>
    requires base != 0.0
  {
    if window == [] then []
    else (if window[0] > 0.0 then [PercentReturn(base, window[0])] else []) + WindowReturns(base, window[1..])
  }

  function CalculateForwardReturn(base: Option<real>, future: Option<real>, window: seq<real>): Calculation {
    if base.None? || base.value <= 0.0 then Calculation(MissingBasePrice, None, None, None)
    else if future.None? then Calculation(MissingFuturePrice, None, None, None)
    else
      var returnPct := PercentReturn(base.value, future.value);
      var valid := WindowReturns(base.value, window);
      var moves := if valid == [] then [returnPct] else valid;
      Calculation(Ready, Some(returnPct), Some(MaxOf(moves)), Some(MinOf(moves)))
  }

  // ---- lookups ------------------------------------------------------------------------------

  datatype Direction = AtOrBefore | AtOrAfter

  /** The skew is rounded up to whole seconds, and is at least one. */
  function SkewMs(maxSkewMs: int): (ms: int)
    ensures ms >= 1000 && ms >= maxSkewMs
  {
    var seconds := (maxSkewMs + 999) / 1000;
    1000 * if seconds < 1 then 1 else seconds
  }

  predicate InReach(t: Tick, target: int, maxSkewMs: int, direction: Direction) {
    match direction
    case AtOrBefore => target - SkewMs(maxSkewMs) <= t.ts <= target
    case AtOrAfter => target <= t.ts <= target + SkewMs(maxSkewMs)
  }

  predicate Nearer(t: Tick, than: Tick, direction: Direction) {
    match direction
    case AtOrBefore => t.ts > than.ts
    case AtOrAfter => t.ts < than.ts
  }

  function FindNearestPrice(ticks: seq<Tick>, target: int, maxSkewMs: int, direction: Direction): (found: Option<Tick>)
    ensures found.None? <==> forall t <- ticks :: !InReach(t, target, maxSkewMs, direction)
    ensures found.Some? ==> found.value in ticks && InReach(found.value, target, maxSkewMs, direction)
    ensures found.Some? ==>
            forall t <- ticks | InReach(t, target, maxSkewMs, direction) :: !Nearer(t, found.value, direction)
  {
    if ticks == [] then None
    else
      var last, found := ticks[|ticks| - 1], FindNearestPrice(ticks[..|ticks| - 1], target, maxSkewMs, direction);
      assert ticks == ticks[..|ticks| - 1] + [last];
      if InReach(last, target, maxSkewMs, direction) && (found.None? || Nearer(last, found.value, direction))
      then Some(last)
      else found
  }

  function WindowPrices(ticks: seq<Tick>, from: int, to: int): seq<real> {
    if ticks == [] then []
    else (if from <= ticks[0].ts <= to then [ticks[0].price] else []) + WindowPrices(ticks[1..], from, to)
  }

  // ---- labelling rows -----------------------------------------------------------------------

  /** A row of `forward_returns`: where its label starts and ends, and the label once computed. */
  datatype Row = Row(
    baseTs: int, targetTs: int, basePrice: Option<real>, futureTs: Option<int>, futurePrice: Option<real>,
    outcome: Option<Calculation>)

  function BaseTick(ticks: seq<Tick>, row: Row, maxSkewMs: int): Option<Tick> {
    FindNearestPrice(ticks, row.baseTs, maxSkewMs, AtOrBefore)
  }

  function FutureTick(ticks: seq<Tick>, row: Row, maxSkewMs: int): Option<Tick> {
    FindNearestPrice(ticks, row.targetTs, maxSkewMs, AtOrAfter)
  }

  function PriceOf(t: Option<Tick>): Option<real> {
    match t
    case Some(tick) => Some(tick.price)
    case None => None
  }

  function Labelled(ticks: seq<Tick>, row: Row, maxSkewMs: int): Row {
    var base, future := BaseTick(ticks, row, maxSkewMs), FutureTick(ticks, row, maxSkewMs);
    var window := if base.Some? && future.Some? then WindowPrices(ticks, base.value.ts, future.value.ts) else [];
    Row(if base.Some? then base.value.ts else row.baseTs, row.targetTs,
        PriceOf(base), if future.Some? then Some(future.value.ts) else None, PriceOf(future),
        Some(CalculateForwardReturn(PriceOf(base), PriceOf(future), window)))
  }

  /** What the error handler writes. */
  function Errored(row: Row): Row {
    Row(row.baseTs, row.targetTs, None, None, None, Some(Calculation(Failed, None, None, None)))
  }

  datatype Tally = Tally(scanned: nat, ready: nat, missingBase: nat, missingFuture: nat, errors: nat)

  /** How many of the rows end up with a status. */
  function CountStatus(rows: seq<Row>, status: Status): nat {
    if rows == [] then 0
    else
      CountStatus(rows[..|rows| - 1], status) +
      if rows[|rows| - 1].outcome.Some? && rows[|rows| - 1].outcome.value.status == status then 1 else 0
  }

  /** `fails` picks the rows on which a lookup or the update throws; the error itself is recorded. */
  method ComputeDueForwardReturns(ticks: seq<Tick>, due: seq<Row>, maxSkewMs: int, fails: nat -> bool)
    returns (rows: seq<Row>, tally: Tally)
    ensures |rows| == |due|
    ensures forall i: nat | i < |due| ::
            rows[i] == if fails(i) then Errored(due[i]) else Labelled(ticks, due[i], maxSkewMs)
    ensures tally == Tally(|due|, CountStatus(rows, Ready), CountStatus(rows, MissingBasePrice),
                           CountStatus(rows, MissingFuturePrice), CountStatus(rows, Failed))
    ensures tally.scanned == tally.ready + tally.missingBase + tally.missingFuture + tally.errors
  {
    hide Labelled, CountStatus;
    rows := [];
    NothingCounted();
    var ready, missingBase, missingFuture, errors := 0, 0, 0, 0;
    for i := 0 to |due|
      invariant |rows| == i
      invariant forall k: nat | k < i ::
                rows[k] == if fails(k) then Errored(due[k]) else Labelled(ticks, due[k], maxSkewMs)
      invariant ready == CountStatus(rows, Ready) && missingBase == CountStatus(rows, MissingBasePrice)
      invariant missingFuture == CountStatus(rows, MissingFuturePrice) && errors == CountStatus(rows, Failed)
      invariant i == ready + missingBase + missingFuture + errors
    {
      var row := if fails(i) then Errored(due[i]) else Labelled(ticks, due[i], maxSkewMs);
      LabelledStatus(ticks, due[i], maxSkewMs);
      CountMore(rows, row);
      match row.outcome.value.status {
        case Ready => ready := ready + 1;
        case MissingBasePrice => missingBase := missingBase + 1;
        case MissingFuturePrice => missingFuture := missingFuture + 1;
        case Failed => errors := errors + 1;
      }
      rows := rows + [row];
    }
    tally := Tally(|due|, ready, missingBase, missingFuture, errors);
  }

  lemma CountMore(rows: seq<Row>, row: Row)
    requires row.outcome.Some?
    ensures forall status :: CountStatus(rows + [row], status) ==
                             CountStatus(rows, status) + if row.outcome.value.status == status then 1 else 0
  {
    assert (rows + [row])[..|rows|] == rows;
  }

  lemma NothingCounted()
    ensures forall status :: CountStatus([], status) == 0
  {
  }

  lemma LabelledStatus(ticks: seq<Tick>, row: Row, maxSkewMs: int)
    ensures Labelled(ticks, row, maxSkewMs).outcome.Some?
  {
  }

  // ---- enclosure ----------------------------------------------------------------------------

  lemma {:induction false} MaxBounds(xs: seq<real>)
    requires xs != []
    ensures MaxOf(xs) in xs && forall x <- xs :: x <= MaxOf(xs)
  {
    if |xs| > 1 {
      MaxBounds(xs[1..]);
      assert xs == [xs[0]] + xs[1..];
    }
  }

  lemma {:induction false} MinBounds(xs: seq<real>)
    requires xs != []
    ensures MinOf(xs) in xs && forall x <- xs :: MinOf(xs) <= x
  {
    if |xs| > 1 {
      MinBounds(xs[1..]);
      assert xs == [xs[0]] + xs[1..];
    }
  }

  lemma {:induction false} WindowReturnsOf(base: real, window: seq<real>, x: real)
    requires base != 0.0
    ensures x in WindowReturns(base, window) <==> exists p <- window :: p > 0.0 && x == PercentReturn(base, p)
  {
    if window != [] {
      WindowReturnsOf(base, window[1..], x);
      assert window == [window[0]] + window[1..];
    }
  }

  lemma {:induction false} WindowPricesOf(ticks: seq<Tick>, from: int, to: int, p: real)
    ensures p in WindowPrices(ticks, from, to) <==> exists t <- ticks :: from <= t.ts <= to && t.price == p
  {
    if ticks != [] {
      WindowPricesOf(ticks[1..], from, to, p);
      assert ticks == [ticks[0]] + ticks[1..];
    }
  }

  lemma ReturnGrows(base: real, low: real, high: real)
    requires base > 0.0 && low < high
    ensures PercentReturn(base, low) < PercentReturn(base, high)
  {
    assert (high - base) / base - (low - base) / base == (high - low) / base > 0.0;
  }

  lemma ReturnOfBase(base: real)
    requires base > 0.0
    ensures PercentReturn(base, base) == 0.0
  {
  }

  lemma ReturnOfNothing(base: real)
    requires base > 0.0
    ensures PercentReturn(base, 0.0) == -100.0
  {
    assert 0.0 - base == base * -1.0;
    assert base * -1.0 / base == -1.0;
  }

  /** The ticks a label looks at between its two ends. */
  predicate InWindow(ticks: seq<Tick>, row: Row, maxSkewMs: int, t: Tick) {
    var base, future := BaseTick(ticks, row, maxSkewMs), FutureTick(ticks, row, maxSkewMs);
    base.Some? && future.Some? && t in ticks && base.value.ts <= t.ts <= future.value.ts
  }

  lemma WindowAroundBase(ticks: seq<Tick>, row: Row, maxSkewMs: int)
    requires row.baseTs <= row.targetTs && Labelled(ticks, row, maxSkewMs).outcome.value.status == Ready
    ensures var base, future := BaseTick(ticks, row, maxSkewMs), FutureTick(ticks, row, maxSkewMs);
      && base.Some? && future.Some? && base.value.price > 0.0
      && InWindow(ticks, row, maxSkewMs, base.value)
      && base.value.price in WindowPrices(ticks, base.value.ts, future.value.ts)
  {
    hide WindowReturns, PercentReturn;
    var base, future := BaseTick(ticks, row, maxSkewMs), FutureTick(ticks, row, maxSkewMs);
    WindowPricesOf(ticks, base.value.ts, future.value.ts, base.value.price);
  }

  lemma WindowReturn(ticks: seq<Tick>, row: Row, maxSkewMs: int, x: real)
    requires row.baseTs <= row.targetTs && Labelled(ticks, row, maxSkewMs).outcome.value.status == Ready
    ensures var base, future := BaseTick(ticks, row, maxSkewMs), FutureTick(ticks, row, maxSkewMs);
      && base.Some? && future.Some? && base.value.price > 0.0
      && (x in WindowReturns(base.value.price, WindowPrices(ticks, base.value.ts, future.value.ts)) <==>
          exists t <- ticks ::
            && InWindow(ticks, row, maxSkewMs, t) && t.price > 0.0
            && PercentReturn(base.value.price, t.price) == x)
  {
    hide PercentReturn, Labelled;
    WindowAroundBase(ticks, row, maxSkewMs);
    var base, future := BaseTick(ticks, row, maxSkewMs).value, FutureTick(ticks, row, maxSkewMs).value;
    var window := WindowPrices(ticks, base.ts, future.ts);
    WindowReturnsOf(base.price, window, x);
    if p :| p in window && p > 0.0 && x == PercentReturn(base.price, p) {
      WindowPricesOf(ticks, base.ts, future.ts, p);
      var t :| t in ticks && base.ts <= t.ts <= future.ts && t.price == p;
      assert InWindow(ticks, row, maxSkewMs, t);
    }
    if t :|
      && t in ticks && InWindow(ticks, row, maxSkewMs, t) && t.price > 0.0
      && PercentReturn(base.price, t.price) == x
    {
      WindowPricesOf(ticks, base.ts, future.ts, t.price);
    }
  }

  lemma ReadyBounds(ticks: seq<Tick>, row: Row, maxSkewMs: int)
    requires row.baseTs <= row.targetTs && Labelled(ticks, row, maxSkewMs).outcome.value.status == Ready
    ensures var base, future := BaseTick(ticks, row, maxSkewMs), FutureTick(ticks, row, maxSkewMs);
      && base.Some? && future.Some? && base.value.price > 0.0
      && var moves := WindowReturns(base.value.price, WindowPrices(ticks, base.value.ts, future.value.ts));
      && moves != [] && 0.0 in moves
      && Labelled(ticks, row, maxSkewMs).outcome ==
         Some(Calculation(Ready, Some(PercentReturn(base.value.price, future.value.price)), Some(MaxOf(moves)),
                          Some(MinOf(moves))))
  {
    hide WindowPrices, WindowReturns, MaxOf, MinOf, FindNearestPrice;
    WindowAroundBase(ticks, row, maxSkewMs);
    var base := BaseTick(ticks, row, maxSkewMs).value;
    ReturnOfBase(base.price);
    WindowReturn(ticks, row, maxSkewMs, 0.0);
    assert InWindow(ticks, row, maxSkewMs, base) && PercentReturn(base.price, base.price) == 0.0;
  }

  /**
   * A ready label's extremes enclose zero and the return of every positive tick between its ends,
   * and each is the return of one of them.
   */
  lemma ReadyEncloses(ticks: seq<Tick>, row: Row, maxSkewMs: int)
    requires row.baseTs <= row.targetTs && Labelled(ticks, row, maxSkewMs).outcome.value.status == Ready
    ensures var base, c := BaseTick(ticks, row, maxSkewMs), Labelled(ticks, row, maxSkewMs).outcome.value;
      && base.Some? && base.value.price > 0.0 && c.minReturnPct.Some? && c.maxReturnPct.Some?
      && c.minReturnPct.value <= 0.0 <= c.maxReturnPct.value
      && (forall t <- ticks | InWindow(ticks, row, maxSkewMs, t) && t.price > 0.0 ::
            c.minReturnPct.value <= PercentReturn(base.value.price, t.price) <= c.maxReturnPct.value)
      && (exists t <- ticks ::
            && InWindow(ticks, row, maxSkewMs, t) && t.price > 0.0
            && PercentReturn(base.value.price, t.price) == c.maxReturnPct.value)
      && (exists t <- ticks ::
            && InWindow(ticks, row, maxSkewMs, t) && t.price > 0.0
            && PercentReturn(base.value.price, t.price) == c.minReturnPct.value)
  {
    hide PercentReturn, InWindow, BaseTick, FutureTick, Labelled, WindowReturns, WindowPrices, MaxOf, MinOf;
    ReadyBounds(ticks, row, maxSkewMs);
    var base, future := BaseTick(ticks, row, maxSkewMs).value, FutureTick(ticks, row, maxSkewMs).value;
    var moves := WindowReturns(base.price, WindowPrices(ticks, base.ts, future.ts));
    MaxBounds(moves);
    MinBounds(moves);
    WindowReturn(ticks, row, maxSkewMs, MaxOf(moves));
    WindowReturn(ticks, row, maxSkewMs, MinOf(moves));
    forall t <- ticks | InWindow(ticks, row, maxSkewMs, t) && t.price > 0.0
      ensures PercentReturn(base.price, t.price) in moves
    {
      WindowReturn(ticks, row, maxSkewMs, PercentReturn(base.price, t.price));
    }
  }

  /** The label's own return lies between its extremes exactly when the future price is positive. */
  lemma ReturnEnclosed(ticks: seq<Tick>, row: Row, maxSkewMs: int)
    requires row.baseTs <= row.targetTs && Labelled(ticks, row, maxSkewMs).outcome.value.status == Ready
    ensures var future, c := FutureTick(ticks, row, maxSkewMs), Labelled(ticks, row, maxSkewMs).outcome.value;
      && future.Some? && c.returnPct.Some? && c.minReturnPct.Some? && c.maxReturnPct.Some?
      && (c.minReturnPct.value <= c.returnPct.value <= c.maxReturnPct.value <==> future.value.price > 0.0)
  {
    hide PercentReturn, BaseTick, FutureTick, Labelled, WindowReturns, WindowPrices, MaxOf, MinOf, FindNearestPrice;
    ReadyEncloses(ticks, row, maxSkewMs);
    ReadyBounds(ticks, row, maxSkewMs);
    var base, future := BaseTick(ticks, row, maxSkewMs).value, FutureTick(ticks, row, maxSkewMs).value;
    if future.price > 0.0 {
      FutureInWindow(ticks, row, maxSkewMs);
    } else {
      var c := Labelled(ticks, row, maxSkewMs).outcome.value;
      var t :| t in ticks && InWindow(ticks, row, maxSkewMs, t) && t.price > 0.0 &&
        PercentReturn(base.price, t.price) == c.minReturnPct.value;
      ReturnGrows(base.price, future.price, t.price);
    }
  }

  /** A price of zero at the target is not rejected: the label is ready and its return is below both extremes. */
  lemma ZeroFutureEscapes(price: real, maxSkewMs: int)
    requires price > 0.0
    ensures var ticks, row := [Tick(0, price), Tick(1000, 0.0)], Row(0, 1000, None, None, None, None);
      var c := Labelled(ticks, row, maxSkewMs).outcome.value;
      && c.status == Ready && c.returnPct == Some(-100.0)
      && c.minReturnPct == Some(0.0) == c.maxReturnPct
  {
    var ticks, row := [Tick(0, price), Tick(1000, 0.0)], Row(0, 1000, None, None, None, None);
    var base, future := BaseTick(ticks, row, maxSkewMs), FutureTick(ticks, row, maxSkewMs);
    assert InReach(ticks[0], 0, maxSkewMs, AtOrBefore) && InReach(ticks[1], 1000, maxSkewMs, AtOrAfter);
    assert base == Some(ticks[0]) && future == Some(ticks[1]);
    hide FindNearestPrice;
    var window := WindowPrices(ticks, 0, 1000);
    assert ticks[1..][1..] == [] && ticks[1..][0] == ticks[1];
    assert WindowPrices(ticks[1..], 0, 1000) == [0.0] + WindowPrices(ticks[1..][1..], 0, 1000);
    assert window == [price] + [0.0];
    assert window[1..][0] == 0.0 && window[1..][1..] == [];
    assert WindowReturns(price, window[1..]) == WindowReturns(price, window[1..][1..]) == [];
    ReturnOfBase(price);
    assert WindowReturns(price, window) == [0.0] + WindowReturns(price, window[1..]);
    ReturnOfNothing(price);
  }

  lemma FutureInWindow(ticks: seq<Tick>, row: Row, maxSkewMs: int)
    requires row.baseTs <= row.targetTs
    requires BaseTick(ticks, row, maxSkewMs).Some? && FutureTick(ticks, row, maxSkewMs).Some?
    ensures InWindow(ticks, row, maxSkewMs, FutureTick(ticks, row, maxSkewMs).value)
  {
  }

  /** Writing the base tick's time back into the row does not let the base drift on a retry. */
  lemma RetryKeepsBase(ticks: seq<Tick>, row: Row, maxSkewMs: int)
    requires BaseTick(ticks, row, maxSkewMs).Some?
    ensures var again := Labelled(ticks, Labelled(ticks, row, maxSkewMs), maxSkewMs);
      again.baseTs == Labelled(ticks, row, maxSkewMs).baseTs <= row.baseTs
  {
    hide CalculateForwardReturn, WindowPrices;
    var base := BaseTick(ticks, row, maxSkewMs).value;
    assert InReach(base, base.ts, maxSkewMs, AtOrBefore);
    var found := FindNearestPrice(ticks, base.ts, maxSkewMs, AtOrBefore);
    assert found.Some? && !Nearer(base, found.value, AtOrBefore);
  }
}
