/**
 * The bot's session: whether a browser driver exists and whether the bot
 * believes it is logged in (`driver`, `is_logged_in`), with the two login
 * procedures' verdicts over the URLs the browser reports.
 *
 * Browser work is an oracle: every step that waits, types or clicks is
 * summarised by what the procedure later reads (a URL), or by the
 * exception that step raised.
 */
module Session {
  import opened Text

  datatype Session = Session(driverReady: bool, loggedIn: bool)

  /** A fresh bot: no driver, not logged in. */
  const Fresh := Session(false, false)

  /** The bot only believes it is logged in while it has a driver. */
  predicate Consistent(s: Session) {
    s.loggedIn ==> s.driverReady
  }

  /** What a browser step produced: a value, or an exception it raised. */
  datatype Observed<+T> = Seen(value: T) | Threw(error: string)

  // ---------------------------------------------------------------- setup

  /** The outcome of `setup_driver` in instagram-bot/app.py. */
  datatype SetupObs =
    | Launched         // Chrome started and the timeouts were set
    | LaunchFailed     // creating the driver raised: `driver` stays unset
    | ConfigureFailed  // the driver was created, then setting a timeout raised

  datatype SetupOutcome = SetupOutcome(ok: bool, session: Session)

  /** `setup_driver`: reports success only when every step succeeded. */
  function AppSetup(s: Session, obs: SetupObs): (r: SetupOutcome)
    ensures r.ok <==> obs == Launched
    ensures r.session.loggedIn == s.loggedIn
    ensures r.session.driverReady <==> s.driverReady || obs != LaunchFailed
  {
    match obs
    case Launched => SetupOutcome(true, s.(driverReady := true))
    case LaunchFailed => SetupOutcome(false, s)
    case ConfigureFailed => SetupOutcome(false, s.(driverReady := true))
  }

  /** `setup_driver` in instagram_bot.py: one step, launched or not. */
  function LegacySetup(s: Session, launched: bool): (r: SetupOutcome)
    ensures r.ok == launched && r.session.loggedIn == s.loggedIn
    ensures r.session.driverReady <==> s.driverReady || launched
  {
    if launched then SetupOutcome(true, s.(driverReady := true)) else SetupOutcome(false, s)
  }

  // ---------------------------------------------------------------- login

  /**
   * What the login procedure observes: the URL after filling the form,
   * submitting and settling (or the exception a wait, lookup or click
   * raised), and the URL after navigating to the home page.
   */
  datatype LoginObs = LoginObs(submitted: Observed<string>, home: Observed<string>)

  datatype LoginOutcome = LoginOutcome(ok: bool, session: Session)

  /** instagram-bot/app.py: the three success indicators on the post-submit URL. */
  predicate SubmitUrlAccepted(url: string) {
    && (Contains(url, "instagram.com") && !Contains(url, "login"))
    && !Contains(url, "accounts/login")
    && !Contains(url, "/accounts/onetap")
  }

  /** instagram-bot/app.py: the home page did not bounce back to a login page. */
  predicate HomeUrlAccepted(url: string) {
    !Contains(url, "login")
  }

  /** instagram_bot.py: the single post-submit test. */
  predicate LegacyUrlAccepted(url: string) {
    Contains(url, "instagram.com") && !Contains(url, "login")
  }

  /**
   * `InstagramBot.login` in instagram-bot/app.py. The flag is only ever set
   * here, and only on the one successful path; no failure clears it.
   */
  function AppLogin(s: Session, obs: LoginObs): (r: LoginOutcome)
    ensures r.ok <==>
              && s.driverReady
              && obs.submitted.Seen? && SubmitUrlAccepted(obs.submitted.value)
              && obs.home.Seen? && HomeUrlAccepted(obs.home.value)
    ensures r.ok ==> r.session == s.(loggedIn := true)
    ensures !r.ok ==> r.session == s
  {
    if !s.driverReady then LoginOutcome(false, s)
    else match obs.submitted
      case Threw(_) => LoginOutcome(false, s)
      case Seen(url) =>
        if !SubmitUrlAccepted(url) then LoginOutcome(false, s)
        else match obs.home
          case Threw(_) => LoginOutcome(false, s)
          case Seen(final) =>
            if HomeUrlAccepted(final) then LoginOutcome(true, s.(loggedIn := true))
            else LoginOutcome(false, s)
  }

  /**
   * `InstagramBot.login` in instagram_bot.py: one URL test, no home-page
   * re-check (the second observation is never consulted).
   */
  function LegacyLogin(s: Session, obs: LoginObs): (r: LoginOutcome)
    ensures r.ok <==> s.driverReady && obs.submitted.Seen? && LegacyUrlAccepted(obs.submitted.value)
    ensures r.ok ==> r.session == s.(loggedIn := true)
    ensures !r.ok ==> r.session == s
  {
    if s.driverReady && obs.submitted.Seen? && LegacyUrlAccepted(obs.submitted.value)
    then LoginOutcome(true, s.(loggedIn := true))
    else LoginOutcome(false, s)
  }

  /** "accounts/login" contains "login". */
  lemma LoginMarkerInAccountsLogin()
    ensures Contains("accounts/login", "login")
  {
    assert OccursAt("accounts/login", "login", 9);
  }

  /**
   * The second success indicator of app.py is implied by the first: the
   * post-submit verdict is "on the site, no `login`, no one-tap interstitial".
   */
  lemma SubmitVerdictSimplified(url: string)
    ensures SubmitUrlAccepted(url) <==>
              Contains(url, "instagram.com") && !Contains(url, "login") && !Contains(url, "/accounts/onetap")
  {
    if Contains(url, "accounts/login") {
      LoginMarkerInAccountsLogin();
      ContainsTransitive(url, "accounts/login", "login");
    }
  }

  /**
   * app.py's login is strictly more demanding than instagram_bot.py's: every
   * observation app.py accepts, the legacy login accepts too.
   */
  lemma AppLoginRefinesLegacy(s: Session, obs: LoginObs)
    ensures AppLogin(s, obs).ok ==> LegacyLogin(s, obs).ok
    ensures AppLogin(s, obs).ok ==> AppLogin(s, obs) == LegacyLogin(s, obs)
  {
  }

  /** A login attempt never logs the bot out and never touches the driver. */
  lemma LoginMonotone(s: Session, obs: LoginObs)
    ensures AppLogin(s, obs).session.loggedIn == (s.loggedIn || AppLogin(s, obs).ok)
    ensures LegacyLogin(s, obs).session.loggedIn == (s.loggedIn || LegacyLogin(s, obs).ok)
    ensures AppLogin(s, obs).session.driverReady == s.driverReady
    ensures LegacyLogin(s, obs).session.driverReady == s.driverReady
  {
  }
}
