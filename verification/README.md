# Instagram DM bot: send gating and batch bookkeeping

This is a Dafny model of the decision logic of a small Flask service. The service sends Instagram
direct messages by driving a headless Chrome browser. The repository holds two near-identical bots
and a mock:

- `instagram-bot/app.py` is the current bot;
- `instagram_bot.py` is the older, simpler bot;
- `simple_app.py` is a mock endpoint that echoes every request item as a success.

The model covers the parts of these files that make decisions:

- **Rate limiter** (`RateLimiter`, rate_limiter.dfy). This is `check_rate_limits` and
  `update_rate_limit_counters`, written as pure transitions over the record
  `RateState(daily, hourly, lastResetHour, lastSentTime)`.
  - The hour of day and the current second are explicit parameters.
  - A check first moves to the current hour's bucket. It then tests the daily limit, then the
    hourly limit, then the spacing.
  - Recording a send adds one to both counters and stamps the time.
  - `Replay` runs a whole sequence of checks and records, so invariants such as
    `hourly <= daily` can be stated over any history.
- **Login and setup verdicts** (`Session`, session.dfy). These cover `setup_driver` and `login`
  of both bots. The browser is reduced to what these procedures observe: the post-submit URL,
  the URL after returning to the home page, or an exception.
- **Locator search** (`Locator`, locator.dfy). This is first-match-wins over an ordered list of
  selectors with a probe oracle. A probe answers `Hit` (found and clicked), `Miss` (the lookup
  timed out or found nothing) or `Crash` (any other exception). A tolerant search treats a crash
  as a miss, as app.py's message-button loop does.
- **Message dispatch** (`Dispatcher`, dispatcher.dfy). This is `send_direct_message` of both
  bots. The browser is an oracle record `Browser`. The model returns the source's boolean as
  `Sent` or as a failure naming the path that returned `False`. It also returns the trace of
  browser actions taken: navigation, re-login, clicks and typing. app.py reads the browser's
  current URL before it navigates. A browser that has gone away fails that read, and the
  attempt returns False before any action (`Browser.urlReadable`).
- **Per-item loop and summary** (`Batch`, batch.dfy). This is the loop of `send_dms`, which is
  the same in both bots. It is a fold over the request items with a dispatch oracle. The oracle
  returns a bool or raises, and is indexed by the item's position. The clock readings each item
  sees come from `clock`.
- **Endpoints** (`Handlers`, handlers.dfy, and `SimpleApp`, simple_app.dfy). This is `send_dms`
  of each file: body validation, browser setup, login, the loop and the reply. Flask's reply is
  reduced to `Done(results, summary)` (200), `BadRequest(error)` (400) or `ServerError(error)`
  (500).

The shared types are in common.dfy (`Option`, a small `Json` value type, and Python's `str()` of
such a value). Python's substring test `in` is in text.dfy.

Where the source is ambiguous or surprising, the model follows the code:

- The hourly bucket is reset before the daily limit is tested. A check that the daily limit
  rejects still moves the bucket to the current hour.
- The daily counter is never reset while the process lives.
- A failed send is reported with the error `發送失敗` ("send failed"), whatever the cause in the
  browser. The private-account and follow-to-message checks in app.py only change the log line.
- Per-item exceptions are caught. However, the `except` handler reads `igUsername` and
  `rowIndex` from the item again, so an item lacking either key makes the handler raise. That
  ends the whole request with a 500 reply. An item without `dmContent` only fails that item,
  with the error `'dmContent'`.
- After a successful send, the random wait can raise after the success was already appended.
  `random.randint` raises when `min_interval > max_interval`. `time.sleep` raises an
  OverflowError when the drawn wait does not fit CPython's signed 64-bit count of nanoseconds
  (9223372037 seconds or more, in either direction). It raises a ValueError when the drawn wait
  is negative, which can happen when `min_interval < 0`. In every such case the handler appends a
  second, failed result for the same item. One result per item is therefore proved for quiet
  limits, `0 <= min_interval <= max_interval <= 9223372036`. The default limits of both bots are
  quiet.
- instagram_bot.py logs `len(data.get('data', []))` before validating the body. A null body is
  therefore a 500 reply (`'NoneType' object has no attribute 'get'`), not the 400 reply of
  app.py. An explicit `"data": null` is a 500 reply in both bots.
- A login never clears `is_logged_in`. A failed re-login inside `send_direct_message` leaves the
  flag set.

## Model

| member | source | states |
|---|---|---|
| RateLimiter.Check | instagram-bot/app.py:435-457 | The hourly bucket is reset to the current hour whatever the verdict. The daily counter and the last send time are untouched. The verdict is DailyLimit iff daily >= dailyLimit. It is HourlyLimit iff the daily test passed and the rebucketed hourly count >= hourlyLimit. It is IntervalTooShort iff both tests passed and now - lastSentTime < minInterval. |
| RateLimiter.AllowedIffAllTestsPass | instagram-bot/app.py:448-457 | A check allows exactly when all three tests pass, evaluated on the rebucketed state. |
| RateLimiter.MessageInjective | instagram-bot/app.py:448-457 | The four check messages are pairwise distinct, so the message identifies the verdict. |
| RateLimiter.Record | instagram-bot/app.py:459-465 | Recording a send adds exactly one to the daily and the hourly counters, sets the last send time to now, and keeps the bucket hour. |
| RateLimiter.RecheckTooSoonRejected | instagram-bot/app.py:454-465 | A check made less than minInterval seconds after a recorded send is rejected, for any counters and any hour. |
| RateLimiter.FullBucketRejects | instagram-bot/app.py:448-452 | Within the same hour, a full hourly bucket is rejected as HourlyLimit. When the daily limit is also reached, it is rejected as DailyLimit, which takes priority. |
| RateLimiter.ReplayKeepsInv | instagram_bot.py:197-219 | Over any sequence of checks and records, hourly <= daily is preserved. The daily counter grows by exactly the number of records. |
| RateLimiter.EqualLimitsNeverRejectHourly | instagram_bot.py:197-206 | When hourlyLimit equals dailyLimit and hourly <= daily holds at the start, no check in any history answers HourlyLimit. |
| RateLimiter.LegacyNeverRejectsHourly | instagram_bot.py:42-47 | With the fixed 1500/1500 limits and the counters as the process starts them, the hourly rejection never fires. |
| Session.AppSetup | instagram-bot/app.py:55-112 | Setup reports success iff Chrome launched and was configured. A driver exists afterwards unless the launch itself failed. The login flag is untouched. |
| Session.LegacySetup | instagram_bot.py:61-78 | Setup reports success iff Chrome launched. The driver exists afterwards iff it existed before or the launch succeeded. |
| Session.AppLogin | instagram-bot/app.py:114-202 | Login succeeds iff a driver exists, the post-submit URL was read and passes the three indicators, and the home-page URL was read and lacks "login". Only success sets the flag; every other path leaves the session as it was. |
| Session.SubmitVerdictSimplified | instagram-bot/app.py:174-178 | The "accounts/login" indicator is implied by the "login" one. The post-submit verdict is therefore: contains "instagram.com", lacks "login", lacks "/accounts/onetap". |
| Session.LegacyLogin | instagram_bot.py:80-120 | Login succeeds iff a driver exists and the post-submit URL contains "instagram.com" and lacks "login". There is no second check. Only success sets the flag. |
| Session.AppLoginRefinesLegacy | instagram_bot.py:110-116 | Every observation that app.py's login accepts is accepted by instagram_bot.py's login, with the same resulting session. |
| Session.LoginMonotone | instagram-bot/app.py:188-202 | Neither login clears the flag or touches the driver: afterwards the flag is the old flag or the login's success. |
| Locator.ResolveFrom | instagram-bot/app.py:313-328 | The search result is explained by the probes. Found(i) means every earlier selector missed and selector i hit. Exhausted means all selectors missed. Aborted(i) means the earlier ones missed and i crashed. |
| Locator.ResolveIgnoresUntried | instagram-bot/app.py:313-328 | Two probe oracles that agree on the selectors up to the one the search stopped at give the same result. Later selectors are never consulted. |
| Locator.TolerantNeverAborts | instagram-bot/app.py:324-328 | When an exception counts as a miss, as in app.py's message-button loop, the search ends in Found or Exhausted, never Aborted. |
| Locator.ResolveLoop | instagram-bot/app.py:400-407 | The imperative loop of the send-button search gives a result explained by the probes: the first hit, exhaustion, or the first unexpected exception. |
| Dispatcher.AppOnProfile | instagram-bot/app.py:250-417 | From the profile page on, the attempt succeeds iff the page is not the missing-user page, the tolerant message-button search finds a button, the composer appears, and the send-button search finds a button. The trace only grows and the session is untouched. |
| Dispatcher.AppSend | instagram-bot/app.py:204-421 | When not logged in, the result is False with no browser action. When logged in but the browser cannot report its current URL, the result is False, again with no browser action. Any attempt that takes an action starts with the navigation to the profile URL. The session is never changed. |
| Dispatcher.AppSentIff | instagram-bot/app.py:204-421 | A message is sent exactly when the current URL could be read, a profile page was reached, at most once through a successful re-login, and every later step succeeded. |
| Dispatcher.AppReloginAtMostOnce | instagram-bot/app.py:231-248 | The number of re-logins is 1 if the current URL could be read and the first landing URL contains "login", else 0. A failed re-login ends the attempt as False after exactly the navigation and the re-login. |
| Dispatcher.AppClicksFirstMessageButton | instagram-bot/app.py:313-328 | At most one message button is clicked. If one is clicked, it is the first selector whose probe hit. |
| Dispatcher.AppExhaustedSearchFails | instagram-bot/app.py:330-378 | When no message-button selector hits, the attempt fails whatever the private-account and follow checks find. |
| Dispatcher.AppSentClicksFirstSendButton | instagram-bot/app.py:393-417 | A sent message ends with typing the content and then clicking the first send-button selector that was found. |
| Dispatcher.LegacySend | instagram_bot.py:122-178 | When not logged in, the result is False with no navigation. There is never a re-login. Sent iff the page loaded, one of the two message buttons was clicked, the composer appeared, and the one send button was found. |
| Dispatcher.LegacyMessageButtonOrder | instagram_bot.py:141-155 | The '訊息' button is clicked when it is clickable. The 'Message' button is clicked only if the '訊息' lookup timed out. Any other exception on the first lookup fails the attempt right after the navigation, without trying 'Message'. Neither button being clickable fails the attempt. |
| Batch.Step | instagram-bot/app.py:546-587 | The loop goes on iff the item has rowIndex and igUsername; otherwise the KeyError of the missing key escapes. Dispatch is called iff the check allowed and the arguments exist. The counters move past the check only on a True dispatch. A rejected item gets exactly the limit message. Each result carries an error iff it failed. A False dispatch gives the "send failed" error. An item gets a second, failed result exactly when its send succeeded and the random wait then raised. That result carries the wait's error, and the limits were not quiet. The daily counter grows by the item's successes. |
| Batch.Wait | instagram-bot/app.py:575-576 | The drawn wait lies in [minInterval, maxInterval]. |
| Batch.WaitCoversRange | instagram-bot/app.py:575-576 | Every value of [minInterval, maxInterval] is the wait for some draw, so the draw is an arbitrary randint result. |
| Batch.WaitFailure | instagram-bot/app.py:575-578 | The wait raises the empty-range error exactly when minInterval > maxInterval. Otherwise it raises the overflow error, the negative-sleep error, or nothing. It never raises for quiet limits (0 <= minInterval <= maxInterval <= 9223372036). It always raises when maxInterval < 0. It always overflows for a non-empty range lying wholly above 9223372036 or below -9223372036. It always gives the negative-sleep error for a non-empty range of negative waits that fit. |
| Batch.WaitRaisesUnlessQuiet | instagram-bot/app.py:575-578 | For limits that are not quiet, some draw makes the wait raise. So the quiet limits are exactly those whose wait never raises. |
| Batch.Run | instagram-bot/app.py:544-587 | The loop dispatches at most once per item. A completed loop gives between one and two results per item. Order, labels and accounting are in RunOneToOne, RunDispatchesInOrder and RunAccounting. |
| Batch.RunCompletesIffKeyed | instagram-bot/app.py:580-587 | The loop completes iff every item has both keys the exception handler reads. |
| Batch.RunDispatchesInOrder | instagram-bot/app.py:544-570 | Dispatch is called at most once per item, at strictly increasing positions within the batch. |
| Batch.RunOneToOne | instagram-bot/app.py:544-587 | For quiet limits, a completed loop gives exactly one result per item, in input order, each carrying its item's rowIndex and igUsername. This holds even when dispatch raised. |
| Batch.RunAccounting | instagram-bot/app.py:558-572 | After a completed loop, the daily counter has grown by exactly the number of successful results, and every result has an error iff it failed. Any loop keeps hourly <= daily and never lowers the daily count. |
| Batch.Summarize | instagram-bot/app.py:589-602 | total is the number of results, 0 <= success <= total, and failed == total - success >= 0. |
| Batch.SummaryFailedCountsFailures | instagram_bot.py:321-334 | The failed field, computed as a difference, equals the number of results whose success is false. The success field counts the successes. |
| Batch.DailyLimitOfOne | instagram-bot/app.py:544-587 | With quiet limits, a daily limit of 1, two items and a first send that succeeds: only item 0 is dispatched. Item 1 gets the daily-limit message. The daily count ends at 1 and the summary is 2/1/1. |
| Handlers.Finish | instagram-bot/app.py:589-603 | The 200 reply's summary is the summary of its results. The session is not changed by the loop. |
| Handlers.AppSendDms | instagram-bot/app.py:511-610 | A null body or a missing data key gives the 400 reply with nothing else changed. A 200 reply's summary is the arithmetic of its results. When the bot is not logged in afterwards, nothing was dispatched and the counters are unchanged. |
| Handlers.AppSetupOrLoginFailureShortCircuits | instagram-bot/app.py:526-541 | A failed setup or login answers 500 with the browser or login error before any item: no results, no dispatch, counters untouched. |
| Handlers.AppReadyRunsLoop | instagram-bot/app.py:544-603 | Once setup and login succeed and the body lists its items, the handler's reply and final world are exactly those of the send loop over `data` with the logged-in session's dispatcher. |
| Handlers.AppRepliesOnePerItem | instagram-bot/app.py:544-603 | Once the browser is ready, the reply is 200 iff every item has both keys. For quiet limits, it then holds one result per item, in order, labelled with the item. |
| Handlers.AppDefaultsRepliesOnePerItem | instagram-bot/app.py:36-41 | Under the default limits (50, 10, 60, 180), a 200 reply holds one result per item, in order, labelled with the item. |
| Handlers.HandlersKeepSessionConsistent | instagram-bot/app.py:526-541 | Starting from a session where logged-in implies a driver exists, both handlers leave such a session: setup runs before login, and login needs a driver. |
| Handlers.AppDispatch | instagram-bot/app.py:558-562 | The dispatch call of app.py never raises, because send_direct_message catches every exception. When the bot is not logged in, it returns False for every item. |
| Handlers.LegacyDispatch | instagram_bot.py:291-294 | The dispatch call of instagram_bot.py never raises. When the bot is not logged in, it returns False for every item. |
| Handlers.AppKeepsCounters | instagram-bot/app.py:544-587 | A request keeps hourly <= daily. A 200 reply raises the daily counter by exactly its summary's success count. |
| Handlers.LegacySendDms | instagram_bot.py:243-342 | A null body gives the 500 "no attribute 'get'" reply. A missing data key gives the 400 reply. A 200 reply's summary is the arithmetic of its results. Nothing is dispatched unless the bot ends up logged in. |
| Handlers.RunNeverHourly | instagram_bot.py:276-319 | Under equal limits, with hourly <= daily and a dispatch that never raises, no result of the loop carries the hourly-limit message. |
| Handlers.LegacyNeverReportsHourlyLimit | instagram_bot.py:276-319 | instagram_bot.py's endpoint never reports the hourly-limit message, from any state with hourly <= daily. |
| SimpleApp.SimpleSendDms | simple_app.py:49-85 | Only an explicit "data": null fails (500, None is not iterable). There is never a 400. Otherwise there is one result per listed item, in order. Each result is a success without error, copies rowIndex and igUsername, and uses null for a missing key. The summary is total = success = count and failed = 0. A null body or a missing data key gives empty results. |
| SimpleApp.SimpleSummaryAgrees | simple_app.py:69-78 | The mock's fixed summary equals the summary the real handlers compute from the same results. |
| SimpleApp.MockLabelsMatchApp | simple_app.py:60-67 | For quiet limits, wherever app.py answers 200 with one result per item, the mock answers 200 with results that name the same rows and users in the same order. Every success of app.py is a success of the mock. |

## Left out

- The browser itself is not modelled: Chrome options, WebDriver waits, page-source scans, element
  lookup, clicking and typing. It is foreign code with no visible semantics, so each step appears
  only as the observation the source later reads (`Browser`, `LoginObs`, `SetupObs`).
- The `time.sleep` settle delays are left out because they are timing only. The inter-item wait
  is an arbitrary draw from its range (`Tick.draw`). Of sleeping on it, the model keeps only the
  errors that `random.randint` and `time.sleep` raise.
- `datetime.now()` and `time.time()` are parameters (`Tick`). Fractional seconds are not
  modelled, so `now` is a whole number of seconds.
- The limits that app.py reads from environment variables are a `Limits` parameter. `AppDefaults`
  holds the defaults. Parsing the variables is not modelled.
- Flask routing, JSON decoding and HTTP status codes are left out, as are the `/`, `/health`,
  `/test` and `/status` endpoints, all logging, and the diagnostic listing of buttons. The reply
  keeps only its shape and error text. The `message` and `note` fields of simple_app.py's reply
  are dropped.
- Item fields holding JSON booleans, floats, objects or arrays are not modelled (`Json` has null,
  integers and strings).
- Request bodies that are not JSON objects, `data` values that are neither a list nor null, and
  items that are not objects are not modelled; the model makes no claim about the replies they get.
- `WaitRangeMessage` is a stand-in for the text of Python's ValueError for an empty `randrange`.
  That text differs between Python versions, and most versions include the arguments.
  `SleepOverflowMessage` is likewise a stand-in, because CPython's wording for this
  OverflowError has changed between versions. Platform limits on
  sleeping below CPython's 64-bit bound are not modelled.
- The composer wait of instagram_bot.py looks for a text area with a
  placeholder, and app.py looks for any text area. Both are reduced to the same `composer`
  observation (`Browser.composer`).
- The private-account and follow-to-message checks only choose the
  failure label. The reply cannot tell them apart, because both return False.
- main.py's switch between the apps, and the dotenv and Google Sheets imports, are process
  configuration and are left out.
- The threaded Flask server is not modelled. Requests are treated as strictly sequential, and the
  counters and session are passed explicitly (`World`).
