/**
 * `send_direct_message` of both bots: navigate to the target's profile,
 * recover once from a redirect to the login page (app.py only), find and
 * click the message button, type the message, find and click the send
 * button.
 *
 * The browser is an oracle (`Browser`): what each navigation landed on and
 * how each selector probe went. The model returns the bool the source
 * returns (as `Sent` or a failure cause naming the path that produced
 * `False`) and the trace of browser actions taken, so that "no navigation",
 * "one re-login" and "only the first clickable selector is clicked" can be
 * stated.
 */
module Dispatcher {
  import opened Common
  import opened Text
  import opened Locator
  import opened Session

  const BaseUrl := "https://www.instagram.com"

  /** `f"{base_url}/{username}/"` */
  function ProfileUrl(username: string): string {
    BaseUrl + "/" + username + "/"
  }

  /** instagram-bot/app.py: the message-button selectors, in the order they are tried. */
  const MessageButtonSelectors: seq<string> := [
    "//div[normalize-space(.)='Message']",
    "//div[normalize-space(text())='Message']",
    "//span[normalize-space(.)='Message']",
    "//button[normalize-space(.)='Message']",
    "//div[normalize-space(.)='訊息']",
    "//span[normalize-space(.)='訊息']",
    "//button[normalize-space(.)='訊息']",
    "//div[text()='Message']",
    "//span[text()='Message']",
    "//button[text()='Message']",
    "//div[text()='訊息']",
    "//span[text()='訊息']",
    "//button[text()='訊息']",
    "//div[@role='button' and normalize-space(.)='Message']",
    "//div[@role='button' and contains(., 'Message')]",
    "//button[@type='button' and normalize-space(.)='Message']",
    "//button[@type='button' and text()='Message']",
    "//div[contains(text(), 'Message') and not(contains(text(), 'Messages'))]",
    "//span[contains(text(), 'Message') and not(contains(text(), 'Messages'))]",
    "//button[contains(text(), 'Message') and not(contains(text(), 'Messages'))]",
    "//div[contains(text(), '訊息')]",
    "//*[contains(@aria-label, 'Message')]",
    "//*[contains(@aria-label, '訊息')]",
    "//*[@aria-label='Message']",
    "/html/body/div[2]/div/div/div[1]/div/div/div/div[1]/section/main/div/header/section/div[1]/div[2]/div/div[2]",
    "//a[contains(@href, '/direct/')]",
    "//a[contains(@href, '/direct/new/')]",
    "//button[contains(@class, 'message')]",
    "//div[contains(@class, 'message')]",
    "//*[contains(@data-testid, 'message')]",
    "//*[contains(@class, '_acan') and text()='Message']",
    "//*[contains(@class, '_acas') and text()='Message']"
  ]

  /** instagram-bot/app.py: the send-button selectors: English label, Chinese label, any submit button. */
  const SendButtonSelectors: seq<string> := [
    "//button[text()='Send']",
    "//button[text()='傳送']",
    "//button[contains(@type, 'submit')]"
  ]

  /** instagram_bot.py: the Chinese label first, then the English one. */
  const LegacyMessageSelectors: seq<string> := ["//div[text()='訊息']", "//div[text()='Message']"]

  /** instagram_bot.py: the one send button it looks for. */
  const LegacySendSelectors: seq<string> := ["//button[text()='傳送']"]

  /** Page texts app.py looks for in the page source. */
  const MissingPageText := "Sorry, this page isn't available"
  const PrivateText := "This Account is Private"
  const FollowText := "Follow to message"

  /** A profile navigation: the landmark element never appeared, or the page rendered. */
  datatype Visit = PageTimeout | Landed(url: string, source: string)

  /** Everything one send attempt observes from the browser. */
  datatype Browser = Browser(
    urlReadable: bool,              // app.py reads the current URL before navigating; false once the browser is gone
    first: Visit,                   // the profile navigation
    relogin: LoginObs,              // the re-login, if the navigation hit a login page
    second: Visit,                  // the profile navigation after a successful re-login
    messageProbe: string -> Probe,  // per message-button selector: wait until clickable, click
    composer: bool,                 // the text area appeared and the message was typed
    sendProbe: string -> Probe)     // per send-button selector: look it up, click

  /** A browser action the attempt performs. */
  datatype Action =
    | GoTo(url: string)
    | Relogin
    | ClickMessage(selector: string)
    | TypeMessage(content: Json)
    | ClickSend(selector: string)

  /** Which path made the attempt return `False`. */
  datatype Failure =
    | NotLoggedIn | PageLoadTimeout | ReauthFailed | UserMissing
    | AccountPrivate | FollowRequired | NoMessageButton
    | ComposerTimeout | NoSendButton | Crashed

  datatype Outcome = Sent | Failed(reason: Failure)

  datatype Attempt = Attempt(outcome: Outcome, trace: seq<Action>, session: Session)

  /** How often `a` occurs in a trace. */
  function Count(trace: seq<Action>, a: Action): nat {
    if |trace| == 0 then 0 else (if trace[0] == a then 1 else 0) + Count(trace[1..], a)
  }

  lemma {:induction false} CountAppend(t: seq<Action>, u: seq<Action>, a: Action)
    ensures Count(t + u, a) == Count(t, a) + Count(u, a)
  {
    if |t| > 0 {
      assert (t + u)[1..] == t[1..] + u;
      CountAppend(t[1..], u, a);
    } else {
      assert t + u == u;
    }
  }

  /** The message-button clicks in a trace. */
  function MessageClicks(trace: seq<Action>): seq<string> {
    if |trace| == 0 then []
    else (if trace[0].ClickMessage? then [trace[0].selector] else []) + MessageClicks(trace[1..])
  }

  lemma {:induction false} MessageClicksAppend(t: seq<Action>, u: seq<Action>)
    ensures MessageClicks(t + u) == MessageClicks(t) + MessageClicks(u)
  {
    if |t| > 0 {
      assert (t + u)[1..] == t[1..] + u;
      MessageClicksAppend(t[1..], u);
    } else {
      assert t + u == u;
    }
  }

  // ------------------------------------------------------------ app.py

  /** From the profile page on: the message button, the composer, the send button. */
  function AppOnProfile(s: Session, content: Json, source: string, b: Browser, trace: seq<Action>): (a: Attempt)
    ensures a.session == s
    ensures |a.trace| >= |trace| && a.trace[..|trace|] == trace
    ensures a.outcome == Sent <==>
              && !Contains(source, MissingPageText)
              && Resolve(MessageButtonSelectors, Tolerant(b.messageProbe)).Found?
              && b.composer
              && Resolve(SendButtonSelectors, b.sendProbe).Found?
  {
    if Contains(source, MissingPageText) then Attempt(Failed(UserMissing), trace, s)
    else match Resolve(MessageButtonSelectors, Tolerant(b.messageProbe))
      case Exhausted(_) =>
        // diagnostics and the private/follow checks only pick the log line
        var why := if Contains(source, PrivateText) then AccountPrivate
                   else if Contains(source, FollowText) then FollowRequired
                   else NoMessageButton;
        Attempt(Failed(why), trace, s)
      case Aborted(_) =>
        // a tolerant search never aborts (TolerantNeverAborts)
        Attempt(Failed(Crashed), trace, s)
      case Found(i) =>
        var clicked := trace + [ClickMessage(MessageButtonSelectors[i])];
        if !b.composer then Attempt(Failed(ComposerTimeout), clicked, s)
        else
          var typed := clicked + [TypeMessage(content)];
          match Resolve(SendButtonSelectors, b.sendProbe)
          case Found(j) => Attempt(Sent, typed + [ClickSend(SendButtonSelectors[j])], s)
          case Exhausted(_) => Attempt(Failed(NoSendButton), typed, s)
          case Aborted(_) => Attempt(Failed(Crashed), typed, s)
  }

  /** `send_direct_message` in instagram-bot/app.py. */
  function AppSend(s: Session, username: string, content: Json, b: Browser): (a: Attempt)
    // not logged in: False, and no browser action at all
    ensures !s.loggedIn ==> a == Attempt(Failed(NotLoggedIn), [], s)
    // a re-login that succeeds sets a flag that was already set: the session never changes
    ensures a.session == s
    // a browser that cannot report its URL fails the attempt before any navigation
    ensures s.loggedIn && !b.urlReadable ==> a == Attempt(Failed(Crashed), [], s)
    // every other attempt starts with the profile navigation
    ensures s.loggedIn && b.urlReadable ==> |a.trace| >= 1 && a.trace[0] == GoTo(ProfileUrl(username))
    ensures |a.trace| >= 1 ==> a.trace[0] == GoTo(ProfileUrl(username))
  {
    if !s.loggedIn then Attempt(Failed(NotLoggedIn), [], s)
    else if !b.urlReadable then Attempt(Failed(Crashed), [], s)
    else
      var go := [GoTo(ProfileUrl(username))];
      match b.first
      case PageTimeout => Attempt(Failed(PageLoadTimeout), go, s)
      case Landed(url, source) =>
        if !Contains(url, "login") then AppOnProfile(s, content, source, b, go)
        else
          var l := AppLogin(s, b.relogin);
          if !l.ok then Attempt(Failed(ReauthFailed), go + [Relogin], s)
          else match b.second
            case PageTimeout => Attempt(Failed(PageLoadTimeout), go + [Relogin] + go, s)
            case Landed(_, source2) => AppOnProfile(s, content, source2, b, go + [Relogin] + go)
  }

  /**
   * The page the message search runs on: the first landing when it is not
   * a login page, else the landing after one successful re-login (its URL is
   * not tested again).
   */
  ghost function ProfileSource(s: Session, b: Browser): Option<string> {
    if !s.loggedIn || !b.urlReadable || b.first.PageTimeout? then None
    else if !Contains(b.first.url, "login") then Some(b.first.source)
    else if !AppLogin(s, b.relogin).ok || b.second.PageTimeout? then None
    else Some(b.second.source)
  }

  /** app.py sends exactly when every step on the way succeeds. */
  lemma AppSentIff(s: Session, username: string, content: Json, b: Browser)
    ensures AppSend(s, username, content, b).outcome == Sent <==>
              && ProfileSource(s, b).Some?
              && !Contains(ProfileSource(s, b).value, MissingPageText)
              && Resolve(MessageButtonSelectors, Tolerant(b.messageProbe)).Found?
              && b.composer
              && Resolve(SendButtonSelectors, b.sendProbe).Found?
  {
  }

  /**
   * From the profile page on, the attempt only appends clicks and typing: no
   * re-login, and a message-button click exactly when the search found one.
   */
  lemma OnProfileTrace(s: Session, content: Json, source: string, b: Browser, trace: seq<Action>)
    ensures var a := AppOnProfile(s, content, source, b, trace);
      var r := Resolve(MessageButtonSelectors, Tolerant(b.messageProbe));
      && Count(a.trace, Relogin) == Count(trace, Relogin)
      && MessageClicks(a.trace) == MessageClicks(trace)
           + (if !Contains(source, MissingPageText) && r.Found? then [MessageButtonSelectors[r.index]] else [])
  {
    var r := Resolve(MessageButtonSelectors, Tolerant(b.messageProbe));
    if !Contains(source, MissingPageText) && r.Found? {
      var click := [ClickMessage(MessageButtonSelectors[r.index])];
      assert MessageClicks(click) == [MessageButtonSelectors[r.index]];
      MessageClicksAppend(trace, click);
      CountAppend(trace, click, Relogin);
      if b.composer {
        var typing := [TypeMessage(content)];
        assert MessageClicks(typing) == [];
        MessageClicksAppend(trace + click, typing);
        CountAppend(trace + click, typing, Relogin);
        var sr := Resolve(SendButtonSelectors, b.sendProbe);
        if sr.Found? {
          var send := [ClickSend(SendButtonSelectors[sr.index])];
          assert MessageClicks(send) == [];
          MessageClicksAppend(trace + click + typing, send);
          CountAppend(trace + click + typing, send, Relogin);
        }
      }
    }
  }

  /**
   * A redirect to the login page triggers exactly one re-login and nothing
   * else does; a failed re-login ends the attempt right there.
   */
  lemma AppReloginAtMostOnce(s: Session, username: string, content: Json, b: Browser)
    ensures var a := AppSend(s, username, content, b);
      Count(a.trace, Relogin) == (if s.loggedIn && b.urlReadable && b.first.Landed? && Contains(b.first.url, "login") then 1 else 0)
    ensures var a := AppSend(s, username, content, b);
      s.loggedIn && b.urlReadable && b.first.Landed? && Contains(b.first.url, "login") && !AppLogin(s, b.relogin).ok ==>
        a.outcome == Failed(ReauthFailed) && a.trace == [GoTo(ProfileUrl(username)), Relogin]
  {
    var go := [GoTo(ProfileUrl(username))];
    assert Count(go, Relogin) == 0;
    assert Count([Relogin], Relogin) == 1;
    CountAppend(go, [Relogin], Relogin);
    CountAppend(go + [Relogin], go, Relogin);
    if s.loggedIn && b.urlReadable && b.first.Landed? {
      if !Contains(b.first.url, "login") {
        OnProfileTrace(s, content, b.first.source, b, go);
      } else if AppLogin(s, b.relogin).ok && b.second.Landed? {
        OnProfileTrace(s, content, b.second.source, b, go + [Relogin] + go);
      }
    }
  }

  /**
   * Only the first clickable message-button selector is clicked, and it is
   * clicked once; later selectors are never tried.
   */
  lemma AppClicksFirstMessageButton(s: Session, username: string, content: Json, b: Browser)
    ensures var a := AppSend(s, username, content, b);
      var r := Resolve(MessageButtonSelectors, Tolerant(b.messageProbe));
      |MessageClicks(a.trace)| <= 1
      && (|MessageClicks(a.trace)| == 1 ==> r.Found? && MessageClicks(a.trace) == [MessageButtonSelectors[r.index]])
  {
    var go := [GoTo(ProfileUrl(username))];
    assert MessageClicks(go) == [];
    assert MessageClicks([Relogin]) == [];
    MessageClicksAppend(go, [Relogin]);
    MessageClicksAppend(go + [Relogin], go);
    if s.loggedIn && b.urlReadable && b.first.Landed? {
      if !Contains(b.first.url, "login") {
        OnProfileTrace(s, content, b.first.source, b, go);
      } else if AppLogin(s, b.relogin).ok && b.second.Landed? {
        OnProfileTrace(s, content, b.second.source, b, go + [Relogin] + go);
      }
    }
  }

  /**
   * Exhausting the message-button selectors fails the attempt whatever the
   * private-account and follow-to-message checks find.
   */
  lemma AppExhaustedSearchFails(s: Session, username: string, content: Json, b: Browser)
    requires Resolve(MessageButtonSelectors, Tolerant(b.messageProbe)).Exhausted?
    ensures AppSend(s, username, content, b).outcome != Sent
  {
    AppSentIff(s, username, content, b);
  }

  /** A sent message ends with a click on the first send button found. */
  lemma AppSentClicksFirstSendButton(s: Session, username: string, content: Json, b: Browser)
    requires AppSend(s, username, content, b).outcome == Sent
    ensures var a := AppSend(s, username, content, b);
      var r := Resolve(SendButtonSelectors, b.sendProbe);
      r.Found? && |a.trace| >= 3 && a.trace[|a.trace| - 1] == ClickSend(SendButtonSelectors[r.index])
      && a.trace[|a.trace| - 2] == TypeMessage(content)
  {
  }

  // ------------------------------------------------------------ instagram_bot.py

  /**
   * `send_direct_message` in instagram_bot.py: no re-login, two message
   * buttons where only a timeout moves on to the next, one send button whose
   * absence raises.
   */
  function LegacySend(s: Session, username: string, content: Json, b: Browser): (a: Attempt)
    ensures !s.loggedIn ==> a == Attempt(Failed(NotLoggedIn), [], s)
    ensures a.session == s
    ensures Count(a.trace, Relogin) == 0
    ensures a.outcome == Sent <==>
              && s.loggedIn && b.first.Landed?
              && Resolve(LegacyMessageSelectors, b.messageProbe).Found?
              && b.composer
              && b.sendProbe(LegacySendSelectors[0]) == Hit
  {
    if !s.loggedIn then Attempt(Failed(NotLoggedIn), [], s)
    else
      var go := [GoTo(ProfileUrl(username))];
      assert Count(go, Relogin) == 0;
      match b.first
      case PageTimeout => Attempt(Failed(PageLoadTimeout), go, s)
      case Landed(_, _) =>
        match Resolve(LegacyMessageSelectors, b.messageProbe)
        case Exhausted(_) => Attempt(Failed(NoMessageButton), go, s)
        case Aborted(_) => Attempt(Failed(Crashed), go, s)
        case Found(i) =>
          var clicked := go + [ClickMessage(LegacyMessageSelectors[i])];
          CountAppend(go, [ClickMessage(LegacyMessageSelectors[i])], Relogin);
          if !b.composer then Attempt(Failed(ComposerTimeout), clicked, s)
          else
            var typed := clicked + [TypeMessage(content)];
            CountAppend(clicked, [TypeMessage(content)], Relogin);
            match Resolve(LegacySendSelectors, b.sendProbe)
            case Found(j) =>
              CountAppend(typed, [ClickSend(LegacySendSelectors[j])], Relogin);
              Attempt(Sent, typed + [ClickSend(LegacySendSelectors[j])], s)
            case Exhausted(_) => Attempt(Failed(NoSendButton), typed, s)
            case Aborted(_) => Attempt(Failed(Crashed), typed, s)
  }

  /** instagram_bot.py tries '訊息' first and 'Message' only after it timed out. */
  lemma LegacyMessageButtonOrder(s: Session, username: string, content: Json, b: Browser)
    requires s.loggedIn && b.first.Landed?
    ensures var a := LegacySend(s, username, content, b);
      && (b.messageProbe(LegacyMessageSelectors[0]) == Hit ==>
            |a.trace| >= 2 && a.trace[1] == ClickMessage("//div[text()='訊息']"))
      && (b.messageProbe(LegacyMessageSelectors[0]) == Miss && b.messageProbe(LegacyMessageSelectors[1]) == Hit ==>
            |a.trace| >= 2 && a.trace[1] == ClickMessage("//div[text()='Message']"))
      && (b.messageProbe(LegacyMessageSelectors[0]) != Hit && b.messageProbe(LegacyMessageSelectors[1]) != Hit ==>
            a.outcome.Failed?)
    // an exception other than a timeout on the first lookup fails without trying 'Message'
    ensures var a := LegacySend(s, username, content, b);
      b.messageProbe(LegacyMessageSelectors[0]) == Crash ==>
        a.outcome.Failed? && a.trace == [GoTo(ProfileUrl(username))]
    // 'Message' is clicked only after the '訊息' lookup timed out
    ensures var a := LegacySend(s, username, content, b);
      ClickMessage("//div[text()='Message']") in a.trace ==> b.messageProbe(LegacyMessageSelectors[0]) == Miss
  {
    var r := Resolve(LegacyMessageSelectors, b.messageProbe);
    if b.messageProbe(LegacyMessageSelectors[0]) != Hit && b.messageProbe(LegacyMessageSelectors[1]) != Hit {
      assert !r.Found?;
    }
  }
}
