/**
 * The mock `send_dms` of simple_app.py: no browser, no rate limiter; every
 * item is echoed back as a success.
 *
 * Unlike the real handlers it reads the item fields with `.get`, so a
 * missing `rowIndex` or `igUsername` becomes `null` in the result instead
 * of failing the request, and a null body is treated as an empty object.
 */
module SimpleApp {
  import opened Common
  import opened Batch
  import opened Handlers

  /** `str()` of the TypeError from iterating over `None`. */
  const NotIterableMessage := "'NoneType' object is not iterable"

  /** The list the mock iterates over: `data` when it is a list, `[]` when the key or the body is missing. */
  function MockItems(body: Option<Body>): seq<Item> {
    if HasItems(body) then body.value.data.items else []
  }

  /** The mock's result for one item. */
  function Echo(item: Item): SendResult {
    SendResult(item.rowIndex.GetOr(JNull), item.igUsername.GetOr(JNull), true, None)
  }

  /** `send_dms` in simple_app.py. */
  function SimpleSendDms(body: Option<Body>): (r: Response)
    // only an explicit `"data": null` fails, because `None` is not iterable
    ensures r.ServerError? <==> body.Some? && body.value.data.NullData?
    ensures r.ServerError? ==> r.error == NotIterableMessage
    ensures !r.BadRequest?
    // one result per listed item, in order, each a success without error
    ensures r.Done? ==>
              && |r.results| == |MockItems(body)|
              && forall i :: 0 <= i < |r.results| ==>
                   && r.results[i].success && r.results[i].error.None?
                   && (MockItems(body)[i].rowIndex.Some? ==> r.results[i].rowIndex == MockItems(body)[i].rowIndex.value)
                   && (MockItems(body)[i].rowIndex.None? ==> r.results[i].rowIndex == JNull)
                   && (MockItems(body)[i].igUsername.Some? ==> r.results[i].igUsername == MockItems(body)[i].igUsername.value)
                   && (MockItems(body)[i].igUsername.None? ==> r.results[i].igUsername == JNull)
    // the summary claims every item succeeded
    ensures r.Done? ==> r.summary == Summary(|r.results|, |r.results|, 0)
  {
    if body.Some? && body.value.data.NullData? then ServerError(NotIterableMessage)
    else
      var items := MockItems(body);
      var results := seq(|items|, i requires 0 <= i < |items| => Echo(items[i]));
      Done(results, Summary(|results|, |results|, 0))
  }

  /** A list of successes counts every entry as a success. */
  lemma {:induction false} AllSuccessCounted(results: seq<SendResult>)
    requires forall i :: 0 <= i < |results| ==> results[i].success
    ensures CountSuccess(results) == |results|
  {
    if |results| > 0 {
      AllSuccessCounted(results[1..]);
    }
  }

  /** The mock's hard-coded summary is the one the real handlers compute from the same results. */
  lemma SimpleSummaryAgrees(body: Option<Body>)
    ensures SimpleSendDms(body).Done? ==> SimpleSendDms(body).summary == Summarize(SimpleSendDms(body).results)
  {
    var r := SimpleSendDms(body);
    if r.Done? {
      AllSuccessCounted(r.results);
    }
  }

  /**
   * Wherever app.py answers 200 with one result per item, the mock answers
   * 200 for the same body with results naming the same rows and users; it
   * differs only in claiming every send succeeded.
   */
  lemma MockLabelsMatchApp(limits: RateLimiter.Limits, w: World, body: Option<Body>, env: Env)
    requires HasItems(body) && AppReady(w.session, env).ok && QuietWaits(limits)
    ensures var app := AppSendDms(limits, w, body, env);
      var mock := SimpleSendDms(body);
      app.reply.Done? ==>
        && mock.Done? && |mock.results| == |app.reply.results|
        && forall i :: 0 <= i < |mock.results| ==>
             mock.results[i].rowIndex == app.reply.results[i].rowIndex
             && mock.results[i].igUsername == app.reply.results[i].igUsername
             && (app.reply.results[i].success ==> mock.results[i].success)
  {
    AppRepliesOnePerItem(limits, w, body, env);
  }
}
