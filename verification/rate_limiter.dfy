/**
 * The send gate shared by both bots (`check_rate_limits` and
 * `update_rate_limit_counters`): a daily counter that is never reset, an
 * hourly counter that is reset whenever the hour of day changes, and a
 * minimum spacing between recorded sends.
 *
 * The wall clock is explicit: `hour` is the hour of day at the check and
 * `now` the instant, in whole seconds, at which `time.time()` is read.
 */
module RateLimiter {

  /** The hour of day, as Python's `datetime.now().hour` reports it. */
  type Hour = h: int | 0 <= h < 24

  /** The configured limits (`RATE_LIMITS`). */
  datatype Limits = Limits(dailyLimit: int, hourlyLimit: int, minInterval: int, maxInterval: int)

  /** instagram-bot/app.py: the defaults used when no environment variable overrides them. */
  const AppDefaults := Limits(50, 10, 60, 180)

  /** instagram_bot.py: fixed limits, hourly equal to daily. */
  const LegacyLimits := Limits(1500, 1500, 60, 180)

  /** The process-wide counters. */
  datatype RateState = RateState(daily: nat, hourly: nat, lastResetHour: Hour, lastSentTime: nat)

  /** The counters at process start: nothing sent, last send at instant 0. */
  function Initial(startHour: Hour): RateState {
    RateState(0, 0, startHour, 0)
  }

  datatype Reason = DailyLimit | HourlyLimit | IntervalTooShort

  datatype Verdict = Allowed | Rejected(reason: Reason)

  /** The message the check returns next to its verdict. */
  function Message(v: Verdict): string {
    match v
    case Allowed => "可以發送"
    case Rejected(DailyLimit) => "已達每日發送限制"
    case Rejected(HourlyLimit) => "已達每小時發送限制"
    case Rejected(IntervalTooShort) => "發送間隔太短"
  }

  /** Distinct verdicts carry distinct messages. */
  lemma MessageInjective(v: Verdict, w: Verdict)
    requires Message(v) == Message(w)
    ensures v == w
  {
  }

  /** The state after a check and the verdict it gave. */
  datatype Checked = Checked(verdict: Verdict, state: RateState)

  /** The hourly bucket as a check at `hour` sees it. */
  function Rebucket(s: RateState, hour: Hour): RateState {
    if hour != s.lastResetHour then s.(hourly := 0, lastResetHour := hour) else s
  }

  /**
   * `check_rate_limits`: first move to the current hour's bucket, then test
   * the daily limit, the hourly limit and the spacing, in that order.
   */
  function Check(limits: Limits, s: RateState, hour: Hour, now: nat): (c: Checked)
    // the bucket reset happens whatever the verdict
    ensures c.state.lastResetHour == hour
    ensures c.state.hourly == (if hour != s.lastResetHour then 0 else s.hourly)
    // a check never touches the daily counter or the last send time
    ensures c.state.daily == s.daily && c.state.lastSentTime == s.lastSentTime
    // rejection priority: daily, then hourly, then interval
    ensures c.verdict == Rejected(DailyLimit) <==> s.daily >= limits.dailyLimit
    ensures c.verdict == Rejected(HourlyLimit) <==>
              s.daily < limits.dailyLimit && c.state.hourly >= limits.hourlyLimit
    ensures c.verdict == Rejected(IntervalTooShort) <==>
              s.daily < limits.dailyLimit && c.state.hourly < limits.hourlyLimit
              && now - s.lastSentTime < limits.minInterval
  {
    var t := Rebucket(s, hour);
    if t.daily >= limits.dailyLimit then Checked(Rejected(DailyLimit), t)
    else if t.hourly >= limits.hourlyLimit then Checked(Rejected(HourlyLimit), t)
    else if now - t.lastSentTime < limits.minInterval then Checked(Rejected(IntervalTooShort), t)
    else Checked(Allowed, t)
  }

  /** A check allows a send exactly when all three tests pass. */
  lemma AllowedIffAllTestsPass(limits: Limits, s: RateState, hour: Hour, now: nat)
    ensures Check(limits, s, hour, now).verdict == Allowed <==>
              s.daily < limits.dailyLimit
              && Rebucket(s, hour).hourly < limits.hourlyLimit
              && now - s.lastSentTime >= limits.minInterval
  {
    var c := Check(limits, s, hour, now);
    if c.verdict != Allowed {
      assert c.verdict.reason in {DailyLimit, HourlyLimit, IntervalTooShort};
    }
  }

  /** `update_rate_limit_counters`: one more send today and this hour, stamped `now`. */
  function Record(s: RateState, now: nat): (t: RateState)
    ensures t.daily == s.daily + 1 && t.hourly == s.hourly + 1
    ensures t.lastSentTime == now && t.lastResetHour == s.lastResetHour
  {
    s.(daily := s.daily + 1, hourly := s.hourly + 1, lastSentTime := now)
  }

  /** A check made less than `minInterval` seconds after a recorded send is rejected. */
  lemma RecheckTooSoonRejected(limits: Limits, s: RateState, sentAt: nat, hour: Hour, now: nat)
    requires now - sentAt < limits.minInterval
    ensures Check(limits, Record(s, sentAt), hour, now).verdict.Rejected?
  {
  }

  /** A full hourly bucket rejects within the same hour (as daily when that limit is also reached). */
  lemma FullBucketRejects(limits: Limits, s: RateState, now: nat)
    requires s.hourly >= limits.hourlyLimit
    ensures Check(limits, s, s.lastResetHour, now).verdict
              == (if s.daily >= limits.dailyLimit then Rejected(DailyLimit) else Rejected(HourlyLimit))
  {
  }

  /** The hourly counter never exceeds the daily one. */
  predicate Inv(s: RateState) {
    s.hourly <= s.daily
  }

  /** One step of the limiter's life: a check, or a recorded send. */
  datatype Event = CheckAt(hour: Hour, now: nat) | RecordAt(at: nat)

  /** The states and check verdicts a sequence of events produces. */
  datatype Replayed = Replayed(verdicts: seq<Verdict>, final: RateState)

  function Replay(limits: Limits, s: RateState, events: seq<Event>): Replayed
    decreases |events|
  {
    if |events| == 0 then Replayed([], s)
    else match events[0]
      case CheckAt(h, now) =>
        var c := Check(limits, s, h, now);
        var rest := Replay(limits, c.state, events[1..]);
        Replayed([c.verdict] + rest.verdicts, rest.final)
      case RecordAt(at) =>
        Replay(limits, Record(s, at), events[1..])
  }

  /** How many sends a sequence of events records. */
  function Records(events: seq<Event>): nat {
    if |events| == 0 then 0 else (if events[0].RecordAt? then 1 else 0) + Records(events[1..])
  }

  /**
   * Counters start equal and move together except for the hourly reset to
   * zero, so any run keeps `hourly <= daily`; the daily counter grows by
   * exactly the number of recorded sends.
   */
  lemma {:induction false} ReplayKeepsInv(limits: Limits, s: RateState, events: seq<Event>)
    requires Inv(s)
    ensures Inv(Replay(limits, s, events).final)
    ensures Replay(limits, s, events).final.daily == s.daily + Records(events)
    decreases |events|
  {
    if |events| > 0 {
      match events[0]
      case CheckAt(h, now) =>
        ReplayKeepsInv(limits, Check(limits, s, h, now).state, events[1..]);
      case RecordAt(at) =>
        ReplayKeepsInv(limits, Record(s, at), events[1..]);
    }
  }

  /**
   * With the hourly limit equal to the daily one (instagram_bot.py sets both
   * to 1500) the hourly rejection can never fire: it is cancelled.
   */
  lemma {:induction false} EqualLimitsNeverRejectHourly(limits: Limits, s: RateState, events: seq<Event>)
    requires Inv(s) && limits.hourlyLimit == limits.dailyLimit
    ensures forall v :: v in Replay(limits, s, events).verdicts ==> v != Rejected(HourlyLimit)
    decreases |events|
  {
    if |events| > 0 {
      match events[0]
      case CheckAt(h, now) =>
        var c := Check(limits, s, h, now);
        EqualLimitsNeverRejectHourly(limits, c.state, events[1..]);
      case RecordAt(at) =>
        EqualLimitsNeverRejectHourly(limits, Record(s, at), events[1..]);
    }
  }

  /** From process start, instagram_bot.py's limiter never answers "hourly limit". */
  lemma LegacyNeverRejectsHourly(startHour: Hour, events: seq<Event>)
    ensures Rejected(HourlyLimit) !in Replay(LegacyLimits, Initial(startHour), events).verdicts
  {
    EqualLimitsNeverRejectHourly(LegacyLimits, Initial(startHour), events);
  }
}
