/**
 * The `send_dms` endpoint of both bots: validate the body, make sure a
 * browser exists and is logged in, run the per-item loop, summarise.
 *
 * Flask's routing, JSON decoding and status codes are reduced to the reply
 * shape: `Done` is the 200 reply with `success: true`, `BadRequest` the 400
 * reply and `ServerError` the 500 reply, each with its error text.
 */
module Handlers {
  import opened Common
  import opened RateLimiter
  import opened Session
  import opened Dispatcher
  import opened Batch

  /** The `data` key of a JSON-object body. */
  datatype DataField = Absent | NullData | Items(items: seq<Item>)

  /** A JSON-object body (other keys are ignored); a null body is `None`. */
  datatype Body = Body(data: DataField)

  datatype Response =
    | Done(results: seq<SendResult>, summary: Summary)
    | BadRequest(error: string)
    | ServerError(error: string)

  /** The process-wide state a request reads and leaves behind. */
  datatype World = World(session: Session, rate: RateState)

  /** The reply, the state left behind, and the item positions dispatched. */
  datatype Handled = Handled(reply: Response, world: World, dispatched: seq<nat>)

  /** What the browser and the clock do during one request. */
  datatype Env = Env(setup: SetupObs, login: LoginObs, clock: nat -> Tick, pages: nat -> Browser)

  const InvalidRequestMessage := "無效的請求資料"
  const BrowserInitMessage := "無法初始化瀏覽器"
  const LoginFailedMessage := "無法登入 Instagram"
  /** `str()` of the TypeError from `len(None)`. */
  const NoneLenMessage := "object of type 'NoneType' has no len()"
  /** `str()` of the AttributeError from `None.get(...)`. */
  const NoneGetMessage := "'NoneType' object has no attribute 'get'"

  /** The body carries a `data` list. */
  predicate HasItems(body: Option<Body>) {
    body.Some? && body.value.data.Items?
  }

  /** The dispatch oracle of instagram-bot/app.py: `send_direct_message`, which never raises. */
  function AppDispatch(s: Session, pages: nat -> Browser): (d: (nat, Json, Json) -> Reply)
    ensures forall p: nat, u: Json, c: Json :: d(p, u, c).Returned?
    ensures !s.loggedIn ==> forall p: nat, u: Json, c: Json :: d(p, u, c) == Returned(false)
  {
    var d := (pos: nat, user: Json, content: Json) => Returned(AppSend(s, Display(user), content, pages(pos)).outcome == Sent);
    assert forall p: nat, u: Json, c: Json :: d(p, u, c) == Returned(AppSend(s, Display(u), c, pages(p)).outcome == Sent);
    d
  }

  /** The dispatch oracle of instagram_bot.py. */
  function LegacyDispatch(s: Session, pages: nat -> Browser): (d: (nat, Json, Json) -> Reply)
    ensures forall p: nat, u: Json, c: Json :: d(p, u, c).Returned?
    ensures !s.loggedIn ==> forall p: nat, u: Json, c: Json :: d(p, u, c) == Returned(false)
  {
    var d := (pos: nat, user: Json, content: Json) => Returned(LegacySend(s, Display(user), content, pages(pos)).outcome == Sent);
    assert forall p: nat, u: Json, c: Json :: d(p, u, c) == Returned(LegacySend(s, Display(u), c, pages(p)).outcome == Sent);
    d
  }

  /** Run the loop and build the 200 reply, or the 500 reply of an escaped exception. */
  function Finish(limits: Limits, s: Session, rate: RateState, items: seq<Item>, env: Env,
                  dispatch: (nat, Json, Json) -> Reply): (h: Handled)
    ensures h.world.session == s
    ensures h.reply.Done? ==> h.reply.summary == Summarize(h.reply.results)
  {
    match Run(limits, rate, items, 0, env.clock, dispatch)
    case Completed(rs, r, ds) => Handled(Done(rs, Summarize(rs)), World(s, r), ds)
    case Aborted(e, r, ds) => Handled(ServerError(e), World(s, r), ds)
  }

  /** `send_dms` in instagram-bot/app.py. */
  function AppSendDms(limits: Limits, w: World, body: Option<Body>, env: Env): (h: Handled)
    // a null body or a missing `data` key: 400, nothing else happens
    ensures body.None? || body.value.data.Absent? ==> h == Handled(BadRequest(InvalidRequestMessage), w, [])
    // the summary is the arithmetic of the results
    ensures h.reply.Done? ==>
              h.reply.summary.total == |h.reply.results|
              && h.reply.summary.success == CountSuccess(h.reply.results)
              && h.reply.summary.failed == h.reply.summary.total - h.reply.summary.success >= 0
    // nothing is dispatched and no counter moves unless the bot ends up logged in
    ensures !h.world.session.loggedIn ==> h.dispatched == [] && h.world.rate == w.rate
  {
    if body.None? || body.value.data.Absent? then Handled(BadRequest(InvalidRequestMessage), w, [])
    else if body.value.data.NullData? then Handled(ServerError(NoneLenMessage), w, [])
    else
      var setup := if w.session.driverReady then SetupOutcome(true, w.session) else AppSetup(w.session, env.setup);
      if !setup.ok then Handled(ServerError(BrowserInitMessage), w.(session := setup.session), [])
      else
        var login := if setup.session.loggedIn then LoginOutcome(true, setup.session) else AppLogin(setup.session, env.login);
        if !login.ok then Handled(ServerError(LoginFailedMessage), w.(session := login.session), [])
        else Finish(limits, login.session, w.rate, body.value.data.items, env, AppDispatch(login.session, env.pages))
  }

  /** `send_dms` in instagram_bot.py. */
  function LegacySendDms(w: World, body: Option<Body>, env: Env): (h: Handled)
    // the item count is logged before the null check: a null body is a 500, not a 400
    ensures body.None? ==> h == Handled(ServerError(NoneGetMessage), w, [])
    ensures body.Some? && body.value.data.Absent? ==> h == Handled(BadRequest(InvalidRequestMessage), w, [])
    ensures h.reply.Done? ==>
              h.reply.summary.total == |h.reply.results|
              && h.reply.summary.success == CountSuccess(h.reply.results)
              && h.reply.summary.failed == h.reply.summary.total - h.reply.summary.success >= 0
    ensures !h.world.session.loggedIn ==> h.dispatched == [] && h.world.rate == w.rate
  {
    if body.None? then Handled(ServerError(NoneGetMessage), w, [])
    else if body.value.data.NullData? then Handled(ServerError(NoneLenMessage), w, [])
    else if body.value.data.Absent? then Handled(BadRequest(InvalidRequestMessage), w, [])
    else
      // instagram_bot.py has no configuration step after launching Chrome
      var setup := if w.session.driverReady then SetupOutcome(true, w.session)
                   else LegacySetup(w.session, env.setup != LaunchFailed);
      if !setup.ok then Handled(ServerError(BrowserInitMessage), w.(session := setup.session), [])
      else
        var login := if setup.session.loggedIn then LoginOutcome(true, setup.session) else LegacyLogin(setup.session, env.login);
        if !login.ok then Handled(ServerError(LoginFailedMessage), w.(session := login.session), [])
        else Finish(LegacyLimits, login.session, w.rate, body.value.data.items, env, LegacyDispatch(login.session, env.pages))
  }

  /** The session app.py's handler reaches before the loop, and whether it got there. */
  function AppReady(s: Session, env: Env): LoginOutcome {
    var setup := if s.driverReady then SetupOutcome(true, s) else AppSetup(s, env.setup);
    if !setup.ok then LoginOutcome(false, setup.session)
    else if setup.session.loggedIn then LoginOutcome(true, setup.session)
    else AppLogin(setup.session, env.login)
  }

  /**
   * A failed browser setup or login answers 500 before any item is looked
   * at: no result, no dispatch, counters untouched.
   */
  lemma AppSetupOrLoginFailureShortCircuits(limits: Limits, w: World, body: Option<Body>, env: Env)
    requires HasItems(body) && !AppReady(w.session, env).ok
    ensures var h := AppSendDms(limits, w, body, env);
      && h.reply.ServerError?
      && h.reply.error in {BrowserInitMessage, LoginFailedMessage}
      && h.dispatched == []
      && h.world.rate == w.rate
  {
  }

  /**
   * With a `data` list, a ready browser and every item carrying `rowIndex`
   * and `igUsername`, app.py answers 200 with one result per item, in
   * order (given quiet limits, so that no wait raises); an item lacking either key
   * turns the whole reply into a 500.
   */
  lemma AppRepliesOnePerItem(limits: Limits, w: World, body: Option<Body>, env: Env)
    requires HasItems(body) && AppReady(w.session, env).ok
    ensures var h := AppSendDms(limits, w, body, env);
      var items := body.value.data.items;
      h.reply.Done? <==> forall j :: 0 <= j < |items| ==> Keyed(items[j])
    ensures var h := AppSendDms(limits, w, body, env);
      var items := body.value.data.items;
      h.reply.Done? && QuietWaits(limits) ==>
        && |h.reply.results| == |items|
        && forall i :: 0 <= i < |items| ==>
             items[i].rowIndex == Some(h.reply.results[i].rowIndex)
             && items[i].igUsername == Some(h.reply.results[i].igUsername)
  {
    var s := AppReady(w.session, env).session;
    var items := body.value.data.items;
    var d := AppDispatch(s, env.pages);
    AppReadyRunsLoop(limits, w, body, env);
    var out := Run(limits, w.rate, items, 0, env.clock, d);
    var h := AppSendDms(limits, w, body, env);
    assert h.reply.Done? <==> out.Completed?;
    assert h.reply.Done? ==> h.reply.results == out.results;
    RunCompletesIffKeyed(limits, w.rate, items, 0, env.clock, d);
    if QuietWaits(limits) {
      RunOneToOne(limits, w.rate, items, 0, env.clock, d);
    }
  }

  /** Once the browser is ready, app.py's handler is the loop over the `data` list. */
  lemma AppReadyRunsLoop(limits: Limits, w: World, body: Option<Body>, env: Env)
    requires HasItems(body) && AppReady(w.session, env).ok
    ensures AppSendDms(limits, w, body, env)
              == Finish(limits, AppReady(w.session, env).session, w.rate, body.value.data.items, env,
                        AppDispatch(AppReady(w.session, env).session, env.pages))
  {
  }

  /** Under the default limits, a 200 reply of app.py holds one result per item, in order. */
  lemma AppDefaultsRepliesOnePerItem(w: World, body: Option<Body>, env: Env)
    requires HasItems(body) && AppReady(w.session, env).ok
    ensures var h := AppSendDms(AppDefaults, w, body, env);
      var items := body.value.data.items;
      h.reply.Done? ==>
        && |h.reply.results| == |items|
        && forall i :: 0 <= i < |items| ==>
             items[i].rowIndex == Some(h.reply.results[i].rowIndex)
             && items[i].igUsername == Some(h.reply.results[i].igUsername)
  {
    AppRepliesOnePerItem(AppDefaults, w, body, env);
  }

  /**
   * Neither handler leaves the bot logged in without a driver: setup runs
   * before login, and a login needs a driver to succeed.
   */
  lemma HandlersKeepSessionConsistent(limits: Limits, w: World, body: Option<Body>, env: Env)
    requires Consistent(w.session)
    ensures Consistent(AppSendDms(limits, w, body, env).world.session)
    ensures Consistent(LegacySendDms(w, body, env).world.session)
  {
  }

  /** app.py's handler keeps `hourly <= daily` and counts every success in the daily counter. */
  lemma AppKeepsCounters(limits: Limits, w: World, body: Option<Body>, env: Env)
    ensures var h := AppSendDms(limits, w, body, env);
      && (Inv(w.rate) ==> Inv(h.world.rate))
      && (h.reply.Done? ==> h.world.rate.daily == w.rate.daily + h.reply.summary.success)
  {
    if HasItems(body) && AppReady(w.session, env).ok {
      RunAccounting(limits, w.rate, body.value.data.items, 0, env.clock,
                    AppDispatch(AppReady(w.session, env).session, env.pages));
    }
  }

  /**
   * Under instagram_bot.py's equal limits, starting from any state with
   * `hourly <= daily` (the process start is one), no reply ever carries the
   * hourly-limit message.
   */
  lemma LegacyNeverReportsHourlyLimit(w: World, body: Option<Body>, env: Env)
    requires Inv(w.rate)
    ensures var h := LegacySendDms(w, body, env);
      h.reply.Done? ==> NoHourlyMessage(h.reply.results)
  {
    if body.Some? && body.value.data.Items? {
      var setup := if w.session.driverReady then SetupOutcome(true, w.session)
                   else LegacySetup(w.session, env.setup != LaunchFailed);
      var login := if setup.session.loggedIn then LoginOutcome(true, setup.session) else LegacyLogin(setup.session, env.login);
      if setup.ok && login.ok {
        RunNeverHourly(LegacyLimits, w.rate, body.value.data.items, 0, env.clock, LegacyDispatch(login.session, env.pages));
      }
    }
  }

  /** No result of a loop under equal limits carries the hourly-limit message. */
  lemma {:induction false} RunNeverHourly(limits: Limits, rate: RateState, items: seq<Item>, k: nat,
                                          clock: nat -> Tick, dispatch: (nat, Json, Json) -> Reply)
    requires k <= |items| && Inv(rate) && limits.hourlyLimit == limits.dailyLimit
    requires forall p: nat, u: Json, c: Json :: dispatch(p, u, c).Returned?
    ensures var out := Run(limits, rate, items, k, clock, dispatch);
      out.Completed? ==> NoHourlyMessage(out.results)
    decreases |items| - k
  {
    if k < |items| {
      var o := Step(limits, rate, items[k], k, clock(k), dispatch);
      var c := Check(limits, rate, clock(k).hour, clock(k).checkedAt);
      assert c.verdict != Rejected(HourlyLimit);
      if o.Emit? {
        assert Inv(o.rate);
        if c.verdict.Rejected? {
          if Message(c.verdict) == Message(Rejected(HourlyLimit)) {
            MessageInjective(c.verdict, Rejected(HourlyLimit));
          }
        } else {
          assert RaisedMessages(items[k], k, dispatch) == {};
        }
        assert NoHourlyMessage(o.results);
        RunNeverHourly(limits, o.rate, items, k + 1, clock, dispatch);
        var rest := Run(limits, o.rate, items, k + 1, clock, dispatch);
        if rest.Completed? {
          NoHourlyMessageAppend(o.results, rest.results);
        }
      }
    }
  }

  /** No result carries the hourly-limit message. */
  ghost predicate NoHourlyMessage(results: seq<SendResult>) {
    forall i :: 0 <= i < |results| ==> results[i].error != Some(Message(Rejected(HourlyLimit)))
  }

  lemma NoHourlyMessageAppend(a: seq<SendResult>, b: seq<SendResult>)
    requires NoHourlyMessage(a) && NoHourlyMessage(b)
    ensures NoHourlyMessage(a + b)
  {
    forall i | 0 <= i < |a + b|
      ensures (a + b)[i].error != Some(Message(Rejected(HourlyLimit)))
    {
      if i >= |a| {
        assert (a + b)[i] == b[i - |a|];
      }
    }
  }
}
