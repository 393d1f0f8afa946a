/**
 * The per-item loop of `send_dms` (identical in instagram-bot/app.py and
 * instagram_bot.py) and its summary.
 *
 * For each item in order: check the rate limits; on rejection record the
 * limit message and move on without dispatching; otherwise dispatch,
 * update the counters only on success, record the result, and after a
 * success draw the random wait. Exceptions inside an item are caught and
 * turned into a failed result, except that the handler itself reads
 * `igUsername` and `rowIndex` again: an item lacking either key makes the
 * handler raise, which ends the whole request.
 *
 * Dispatch is an oracle indexed by the item's position; the clock readings
 * each item sees are given by `clock`.
 */
module Batch {
  import opened Common
  import opened RateLimiter

  /** One entry of the request's `data` list; a field is `None` when its key is absent. */
  datatype Item = Item(rowIndex: Option<Json>, igUsername: Option<Json>, dmContent: Option<Json>)

  /** One entry of the reply's `results` list. */
  datatype SendResult = SendResult(rowIndex: Json, igUsername: Json, success: bool, error: Option<string>)

  /** The reply's `summary`. */
  datatype Summary = Summary(total: int, success: int, failed: int)

  /** What the dispatch call did: returned a bool, or raised. */
  datatype Reply = Returned(ok: bool) | Raised(message: string)

  /**
   * What one item reads from the clock and the random source: the hour and
   * instant at the check, the instant of the counter update, and the draw
   * behind `random.randint(min_interval, max_interval)`.
   */
  datatype Tick = Tick(hour: Hour, checkedAt: nat, sentAt: nat, draw: nat)

  /** The error recorded when dispatch returned `False`. */
  const SendFailedMessage := "發送失敗"

  /**
   * The error recorded when `random.randint(min_interval, max_interval)`
   * raises because the range is empty (the exact wording of Python's
   * ValueError varies between versions).
   */
  const WaitRangeMessage := "empty range for randrange()"

  /** The error `time.sleep` raises for a negative wait. */
  const SleepNegativeMessage := "sleep length must be non-negative"

  /**
   * The longest wait, in whole seconds, that `time.sleep` accepts: CPython
   * holds the duration as a signed 64-bit count of nanoseconds, and
   * (2^63 - 1) / 10^9 rounds down to this.
   */
  const MaxSleep := 9223372036

  /**
   * The OverflowError `time.sleep` raises when the wait does not fit, in
   * either direction; it is raised before the sign is tested.
   */
  const SleepOverflowMessage := "timestamp too large to convert to C _PyTime_t"

  /** Limits whose random wait never raises: a non-empty range of waits `time.sleep` accepts. */
  predicate QuietWaits(limits: Limits) {
    0 <= limits.minInterval <= limits.maxInterval <= MaxSleep
  }

  /** The wait `randint` draws: any value of `[minInterval, maxInterval]`, chosen by `tick.draw`. */
  function Wait(limits: Limits, tick: Tick): (w: int)
    requires limits.minInterval <= limits.maxInterval
    ensures limits.minInterval <= w <= limits.maxInterval
  {
    limits.minInterval + tick.draw % (limits.maxInterval - limits.minInterval + 1)
  }

  /** Every value of the range is drawn by some tick. */
  lemma WaitCoversRange(limits: Limits, tick: Tick, v: int)
    requires limits.minInterval <= v <= limits.maxInterval
    ensures Wait(limits, tick.(draw := v - limits.minInterval)) == v
  {
    var d := v - limits.minInterval;
    var m := limits.maxInterval - limits.minInterval + 1;
    assert 0 <= d < m;
    assert d % m == d;
  }

  /**
   * The exception the random wait after a success raises, if any: `randint`
   * on an empty range, or `time.sleep` on a draw too large for it or
   * negative.
   */
  function WaitFailure(limits: Limits, tick: Tick): (r: Option<string>)
    ensures r.Some? ==> r.value in {WaitRangeMessage, SleepOverflowMessage, SleepNegativeMessage}
    ensures r == Some(WaitRangeMessage) <==> limits.minInterval > limits.maxInterval
    ensures QuietWaits(limits) ==> r.None?
    ensures limits.maxInterval < 0 ==> r.Some?
    // a range lying wholly beyond what `time.sleep` accepts always overflows
    ensures limits.minInterval <= limits.maxInterval && (limits.minInterval > MaxSleep || limits.maxInterval < -MaxSleep) ==>
              r == Some(SleepOverflowMessage)
    // a negative wait that fits is refused for its sign
    ensures limits.minInterval <= limits.maxInterval && -MaxSleep <= limits.minInterval && limits.maxInterval < 0 ==>
              r == Some(SleepNegativeMessage)
  {
    if limits.minInterval > limits.maxInterval then Some(WaitRangeMessage)
    else if Wait(limits, tick) > MaxSleep || Wait(limits, tick) < -MaxSleep then Some(SleepOverflowMessage)
    else if Wait(limits, tick) < 0 then Some(SleepNegativeMessage)
    else None
  }

  /**
   * Limits that are not quiet make the wait raise for some draw: the
   * quiet limits are exactly those that never raise.
   */
  lemma WaitRaisesUnlessQuiet(limits: Limits, tick: Tick)
    requires !QuietWaits(limits)
    ensures exists d: nat :: WaitFailure(limits, tick.(draw := d)).Some?
  {
    if limits.minInterval > limits.maxInterval {
      assert WaitFailure(limits, tick.(draw := 0)).Some?;
    } else if limits.minInterval < 0 {
      // the lowest wait is negative
      WaitCoversRange(limits, tick, limits.minInterval);
      assert WaitFailure(limits, tick.(draw := 0)).Some?;
    } else {
      // the highest wait is too long
      var d := limits.maxInterval - limits.minInterval;
      WaitCoversRange(limits, tick, limits.maxInterval);
      assert WaitFailure(limits, tick.(draw := d)).Some?;
    }
  }

  /** `str(KeyError(key))` */
  function KeyErrorMessage(key: string): string {
    "'" + key + "'"
  }

  /** The item carries both keys the `except` handler reads. */
  predicate Keyed(item: Item) {
    item.rowIndex.Some? && item.igUsername.Some?
  }

  /** The key whose absence escapes the handler: `igUsername` is read before `rowIndex`. */
  function MissingKey(item: Item): string {
    if item.igUsername.None? then "igUsername" else "rowIndex"
  }

  /** The outcome of one item: results appended, or an exception that escapes the loop. */
  datatype StepOut =
    | Emit(results: seq<SendResult>, rate: RateState, dispatched: bool)
    | Escape(error: string, rate: RateState, dispatched: bool)

  /** The per-item `except` handler: record the error, if the item's keys can be read. */
  function Caught(item: Item, rate: RateState, dispatched: bool, message: string): StepOut
    requires item.igUsername.Some?
  {
    if item.rowIndex.None? then Escape(KeyErrorMessage("rowIndex"), rate, dispatched)
    else Emit([SendResult(item.rowIndex.value, item.igUsername.value, false, Some(message))], rate, dispatched)
  }

  /** How many results report success. */
  function CountSuccess(results: seq<SendResult>): nat {
    if |results| == 0 then 0 else (if results[0].success then 1 else 0) + CountSuccess(results[1..])
  }

  /** Every result carries an error exactly when it failed. */
  ghost predicate ErrorIffFailed(results: seq<SendResult>) {
    forall i :: 0 <= i < |results| ==> (results[i].success <==> results[i].error.None?)
  }

  /** Every result names the item it came from. */
  ghost predicate Labelled(results: seq<SendResult>, item: Item)
    requires Keyed(item)
  {
    forall i :: 0 <= i < |results| ==>
      results[i].rowIndex == item.rowIndex.value && results[i].igUsername == item.igUsername.value
  }

  /** Every error some result carries is one of `msgs`. */
  ghost predicate ErrorsAmong(results: seq<SendResult>, msgs: set<string>) {
    forall i :: 0 <= i < |results| && results[i].error.Some? ==> results[i].error.value in msgs
  }

  /** The message dispatch raised for this item, when it was called and raised. */
  function RaisedMessages(item: Item, pos: nat, dispatch: (nat, Json, Json) -> Reply): set<string> {
    if item.igUsername.Some? && item.dmContent.Some? && dispatch(pos, item.igUsername.value, item.dmContent.value).Raised?
    then {dispatch(pos, item.igUsername.value, item.dmContent.value).message}
    else {}
  }

  /** One iteration of the loop, for the item at position `pos`. */
  function Step(limits: Limits, rate: RateState, item: Item, pos: nat, tick: Tick,
                dispatch: (nat, Json, Json) -> Reply): (o: StepOut)
    // the loop continues exactly when the item has both keys the handler reads
    ensures o.Emit? <==> Keyed(item)
    ensures o.Escape? ==> o.error == KeyErrorMessage(MissingKey(item))
    // dispatch is called exactly when the check allowed it and the call's arguments exist
    ensures o.dispatched <==>
              Check(limits, rate, tick.hour, tick.checkedAt).verdict.Allowed?
              && item.igUsername.Some? && item.dmContent.Some?
    // the counters move past the check only when dispatch returned True
    ensures o.rate ==
              var c := Check(limits, rate, tick.hour, tick.checkedAt).state;
              if o.dispatched && dispatch(pos, item.igUsername.value, item.dmContent.value) == Returned(true)
              then Record(c, tick.sentAt) else c
    // a rejected item gets the limit message and nothing else happens
    ensures var c := Check(limits, rate, tick.hour, tick.checkedAt);
              c.verdict.Rejected? && Keyed(item) ==>
                o.results == [SendResult(item.rowIndex.value, item.igUsername.value, false, Some(Message(c.verdict)))]
    ensures o.Emit? ==> 1 <= |o.results| <= 2 && Labelled(o.results, item) && ErrorIffFailed(o.results)
    // a dispatched item's first result is what dispatch reported
    ensures o.Emit? && o.dispatched ==>
              o.results[0].success == (dispatch(pos, item.igUsername.value, item.dmContent.value) == Returned(true))
    ensures o.Emit? && o.dispatched && dispatch(pos, item.igUsername.value, item.dmContent.value) == Returned(false) ==>
              o.results == [SendResult(item.rowIndex.value, item.igUsername.value, false, Some(SendFailedMessage))]
    // past the check, an error is the missing content, a raised message, a failed send, or an error of the random wait
    ensures Check(limits, rate, tick.hour, tick.checkedAt).verdict.Allowed? && o.Emit? ==>
              ErrorsAmong(o.results, {KeyErrorMessage("dmContent"), SendFailedMessage, WaitRangeMessage, SleepOverflowMessage, SleepNegativeMessage}
                                     + RaisedMessages(item, pos, dispatch))
    // a second result comes exactly from a successful send whose random wait then raised
    ensures o.Emit? ==>
              (|o.results| == 2 <==>
                 o.dispatched && dispatch(pos, item.igUsername.value, item.dmContent.value) == Returned(true)
                 && WaitFailure(limits, tick).Some?)
    ensures o.Emit? && |o.results| == 2 ==> o.results[1].error == WaitFailure(limits, tick)
    ensures o.Emit? && |o.results| == 2 ==> !QuietWaits(limits)
    // a success is recorded exactly when the daily counter moved
    ensures o.Emit? ==> o.rate.daily == rate.daily + CountSuccess(o.results)
  {
    var c := Check(limits, rate, tick.hour, tick.checkedAt);
    if c.verdict.Rejected? then
      if !Keyed(item) then Escape(KeyErrorMessage(MissingKey(item)), c.state, false)
      else Emit([SendResult(item.rowIndex.value, item.igUsername.value, false, Some(Message(c.verdict)))], c.state, false)
    else if item.igUsername.None? then Escape(KeyErrorMessage("igUsername"), c.state, false)
    else if item.dmContent.None? then Caught(item, c.state, false, KeyErrorMessage("dmContent"))
    else match dispatch(pos, item.igUsername.value, item.dmContent.value)
      case Raised(m) => Caught(item, c.state, true, m)
      case Returned(ok) =>
        var r := if ok then Record(c.state, tick.sentAt) else c.state;
        if item.rowIndex.None? then Escape(KeyErrorMessage("rowIndex"), r, true)
        else
          var res := SendResult(item.rowIndex.value, item.igUsername.value, ok, if ok then None else Some(SendFailedMessage));
          if ok && WaitFailure(limits, tick).Some? then
            // the wait raises after the success was appended; the handler appends a failure too
            var pair := [res, SendResult(item.rowIndex.value, item.igUsername.value, false, WaitFailure(limits, tick))];
            assert CountSuccess(pair[1..]) == 0 by { assert pair[1..][1..] == []; }
            Emit(pair, r, true)
          else Emit([res], r, true)
  }

  /** The loop's outcome: every item processed, or an exception escaped at some item. */
  datatype BatchOut =
    | Completed(results: seq<SendResult>, rate: RateState, dispatched: seq<nat>)
    | Aborted(error: string, rate: RateState, dispatched: seq<nat>)

  /** Prefix one item's results and dispatch to the outcome of the items after it. */
  function Prepend(results: seq<SendResult>, dispatched: seq<nat>, rest: BatchOut): BatchOut {
    match rest
    case Completed(rs, r, ds) => Completed(results + rs, r, dispatched + ds)
    case Aborted(e, r, ds) => Aborted(e, r, dispatched + ds)
  }

  /** The loop over `items[k..]`. */
  function Run(limits: Limits, rate: RateState, items: seq<Item>, k: nat,
               clock: nat -> Tick, dispatch: (nat, Json, Json) -> Reply): (out: BatchOut)
    requires k <= |items|
    // at most one dispatch per item, and one or two results per item
    ensures |out.dispatched| <= |items| - k
    ensures out.Completed? ==> |items| - k <= |out.results| <= 2 * (|items| - k)
    decreases |items| - k
  {
    if k == |items| then Completed([], rate, [])
    else
      var o := Step(limits, rate, items[k], k, clock(k), dispatch);
      var d := if o.dispatched then [k] else [];
      match o
      case Escape(e, r, _) => Aborted(e, r, d)
      case Emit(rs, r, _) => Prepend(rs, d, Run(limits, r, items, k + 1, clock, dispatch))
  }

  /** The loop completes exactly when every item has both keys the handler reads. */
  lemma {:induction false} RunCompletesIffKeyed(limits: Limits, rate: RateState, items: seq<Item>, k: nat,
                                                clock: nat -> Tick, dispatch: (nat, Json, Json) -> Reply)
    requires k <= |items|
    ensures Run(limits, rate, items, k, clock, dispatch).Completed? <==>
              forall j :: k <= j < |items| ==> Keyed(items[j])
    decreases |items| - k
  {
    if k < |items| {
      var o := Step(limits, rate, items[k], k, clock(k), dispatch);
      if o.Emit? {
        RunCompletesIffKeyed(limits, o.rate, items, k + 1, clock, dispatch);
      }
    }
  }

  /** The positions dispatch was called for, in `items[k..]`, each once, in increasing order. */
  ghost predicate Ascending(ds: seq<nat>, k: nat, n: nat) {
    (forall a :: 0 <= a < |ds| ==> k <= ds[a] < n) && (forall a, b :: 0 <= a < b < |ds| ==> ds[a] < ds[b])
  }

  /** Dispatch is called at most once per item, in increasing positions. */
  lemma {:induction false} RunDispatchesInOrder(limits: Limits, rate: RateState, items: seq<Item>, k: nat,
                                                clock: nat -> Tick, dispatch: (nat, Json, Json) -> Reply)
    requires k <= |items|
    ensures Ascending(Run(limits, rate, items, k, clock, dispatch).dispatched, k, |items|)
    decreases |items| - k
  {
    if k < |items| {
      var o := Step(limits, rate, items[k], k, clock(k), dispatch);
      if o.Emit? {
        var rest := Run(limits, o.rate, items, k + 1, clock, dispatch).dispatched;
        RunDispatchesInOrder(limits, o.rate, items, k + 1, clock, dispatch);
        assert Ascending(rest, k + 1, |items|);
        var d := if o.dispatched then [k] else [];
        assert Run(limits, rate, items, k, clock, dispatch).dispatched == d + rest;
        AscendingCons(d, rest, k, |items|);
      }
    }
  }

  /** Putting at most the position `k` in front of later positions keeps them ascending. */
  lemma AscendingCons(d: seq<nat>, rest: seq<nat>, k: nat, n: nat)
    requires d == [] || (d == [k] && k < n)
    requires Ascending(rest, k + 1, n)
    ensures Ascending(d + rest, k, n)
  {
    var all := d + rest;
    assert forall a :: 0 <= a < |all| ==> k <= all[a] < n && (a >= |d| ==> all[a] == rest[a - |d|]);
  }

  /**
   * One result per item, in input order, each naming its item, provided
   * the limits are quiet, so that the random wait never raises.
   */
  lemma {:induction false} RunOneToOne(limits: Limits, rate: RateState, items: seq<Item>, k: nat,
                                       clock: nat -> Tick, dispatch: (nat, Json, Json) -> Reply)
    requires k <= |items| && QuietWaits(limits)
    ensures var out := Run(limits, rate, items, k, clock, dispatch);
      out.Completed? ==>
        && |out.results| == |items| - k
        && forall i :: 0 <= i < |out.results| ==>
             && items[k + i].rowIndex == Some(out.results[i].rowIndex)
             && items[k + i].igUsername == Some(out.results[i].igUsername)
    decreases |items| - k
  {
    if k < |items| {
      var o := Step(limits, rate, items[k], k, clock(k), dispatch);
      if o.Emit? {
        RunOneToOne(limits, o.rate, items, k + 1, clock, dispatch);
        var rest := Run(limits, o.rate, items, k + 1, clock, dispatch);
        if rest.Completed? {
          var out := Run(limits, rate, items, k, clock, dispatch);
          assert out.results == o.results + rest.results;
          forall i | 0 <= i < |out.results|
            ensures items[k + i].rowIndex == Some(out.results[i].rowIndex)
            ensures items[k + i].igUsername == Some(out.results[i].igUsername)
          {
            if i > 0 {
              assert out.results[i] == rest.results[i - 1];
            }
          }
        }
      }
    }
  }

  lemma {:induction false} CountSuccessAppend(a: seq<SendResult>, b: seq<SendResult>)
    ensures CountSuccess(a + b) == CountSuccess(a) + CountSuccess(b)
  {
    if |a| > 0 {
      assert (a + b)[1..] == a[1..] + b;
      CountSuccessAppend(a[1..], b);
    } else {
      assert a + b == b;
    }
  }

  /**
   * A completed loop leaves the daily counter raised by exactly the number
   * of successful results, reports an error exactly for the failures, and
   * keeps `hourly <= daily`.
   */
  lemma {:induction false} RunAccounting(limits: Limits, rate: RateState, items: seq<Item>, k: nat,
                                         clock: nat -> Tick, dispatch: (nat, Json, Json) -> Reply)
    requires k <= |items|
    ensures var out := Run(limits, rate, items, k, clock, dispatch);
      out.Completed? ==> out.rate.daily == rate.daily + CountSuccess(out.results) && ErrorIffFailed(out.results)
    ensures Inv(rate) ==> Inv(Run(limits, rate, items, k, clock, dispatch).rate)
    ensures rate.daily <= Run(limits, rate, items, k, clock, dispatch).rate.daily
    decreases |items| - k
  {
    if k < |items| {
      var o := Step(limits, rate, items[k], k, clock(k), dispatch);
      if o.Emit? {
        RunAccounting(limits, o.rate, items, k + 1, clock, dispatch);
        var rest := Run(limits, o.rate, items, k + 1, clock, dispatch);
        if rest.Completed? {
          CountSuccessAppend(o.results, rest.results);
          var all := o.results + rest.results;
          forall i | 0 <= i < |all|
            ensures all[i].success <==> all[i].error.None?
          {
            if i >= |o.results| {
              assert all[i] == rest.results[i - |o.results|];
            }
          }
        }
      }
    }
  }

  // ------------------------------------------------------------ summary

  /** The summary block: total, successes, failures. */
  function Summarize(results: seq<SendResult>): (sm: Summary)
    ensures sm.total == |results|
    ensures 0 <= sm.success <= sm.total
    ensures sm.failed == sm.total - sm.success && sm.failed >= 0
  {
    var success := CountSuccess(results);
    CountSuccessBounded(results);
    Summary(|results|, success, |results| - success)
  }

  lemma {:induction false} CountSuccessBounded(results: seq<SendResult>)
    ensures CountSuccess(results) <= |results|
  {
    if |results| > 0 {
      CountSuccessBounded(results[1..]);
    }
  }

  /** How many results report failure. */
  function CountFailed(results: seq<SendResult>): nat {
    if |results| == 0 then 0 else (if results[0].success then 0 else 1) + CountFailed(results[1..])
  }

  /** The `failed` field, computed as a difference, counts exactly the failed results. */
  lemma {:induction false} SummaryFailedCountsFailures(results: seq<SendResult>)
    ensures Summarize(results).failed == CountFailed(results)
    ensures Summarize(results).success == CountSuccess(results)
  {
    if |results| > 0 {
      SummaryFailedCountsFailures(results[1..]);
    }
  }

  // ------------------------------------------------------------ scenarios

  /**
   * A daily limit of one and two items: the first is dispatched and counted,
   * the second is answered with the daily-limit message without a dispatch.
   */
  lemma DailyLimitOfOne(limits: Limits, rate: RateState, a: Item, b: Item,
                        clock: nat -> Tick, dispatch: (nat, Json, Json) -> Reply)
    requires limits.dailyLimit == 1 && rate.daily == 0 && QuietWaits(limits)
    requires Keyed(a) && Keyed(b) && a.dmContent.Some? && b.dmContent.Some?
    requires Check(limits, rate, clock(0).hour, clock(0).checkedAt).verdict == Allowed
    requires dispatch(0, a.igUsername.value, a.dmContent.value) == Returned(true)
    ensures var out := Run(limits, rate, [a, b], 0, clock, dispatch);
      && out.Completed?
      && out.dispatched == [0]
      && out.results == [SendResult(a.rowIndex.value, a.igUsername.value, true, None),
                         SendResult(b.rowIndex.value, b.igUsername.value, false, Some(Message(Rejected(DailyLimit))))]
      && out.rate.daily == 1
      && Summarize(out.results) == Summary(2, 1, 1)
  {
    var items := [a, b];
    var first := Step(limits, rate, a, 0, clock(0), dispatch);
    assert first.results == [SendResult(a.rowIndex.value, a.igUsername.value, true, None)];
    var second := Step(limits, first.rate, b, 1, clock(1), dispatch);
    assert Check(limits, first.rate, clock(1).hour, clock(1).checkedAt).verdict == Rejected(DailyLimit);
    var tail := Run(limits, second.rate, items, 2, clock, dispatch);
    assert tail == Completed([], second.rate, []);
    assert second.Emit? && !second.dispatched;
    var mid := Run(limits, first.rate, items, 1, clock, dispatch);
    assert mid == Completed(second.results + [], second.rate, []);
    var out := Run(limits, rate, items, 0, clock, dispatch);
    assert out == Completed(first.results + mid.results, second.rate, [0] + []);
    CountSuccessAppend(first.results, second.results);
  }
}
