/**
 * The account session workflow of the sweep as pure functions over the site
 * oracle: each step takes the requests issued before it and yields the
 * requests it issues, the messages it prints and how it ends. These are the
 * specifications that the methods of `PaypalSweepApp.PaypalSweep` are proved
 * to follow, and the properties of the workflow are lemmas about them.
 */
module Workflow {
  import opened RubyText
  import opened Navigator
  import opened BalanceText

  datatype Option<T> = None | Some(value: T)

  /** How a Ruby method ends: it returns a value, or an exception escapes. */
  datatype Outcome<T> = Returned(value: T) | Raised

  /** What one step of the workflow does: the requests it issues, in order,
      the messages it outputs, in order, and how it ends. */
  datatype Step<T> = Step(actions: seq<Action>, messages: seq<string>, outcome: Outcome<T>)

  /** The parsed command line. */
  datatype Settings = Settings(user: string, password: string, sweepMode: bool)

  /** What a run achieved: nothing past the login, a balance read, or a
      balance read followed by a withdrawal that did or did not complete. */
  datatype Report = NotLoggedIn | BalanceOnly(balance: Balance) | Swept(balance: Balance, transferred: bool)

  /** `sprintf("%.2f", text)`: the two-decimal rendering of a numeric text,
      or `None` where Ruby raises because the text is not a number. */
  type Formatter = string -> Option<string>

  /** Concatenation is associative; stated once so that proofs can regroup a
      request history or a message log without unfolding it. */
  lemma AppendAssoc<T>(a: seq<T>, b: seq<T>, c: seq<T>)
    ensures (a + b) + c == a + (b + c)
  {
  }

  // Landmarks and form names the workflow looks for
  const AccountOverviewHeading := "My Account Overview"
  const WithdrawHeading := "Withdraw Funds by Electronic Transfer"
  const ReviewHeading := "Review Withdraw Funds"
  const TransferInProcessHeading := "Your electronic funds transfer request is in process"
  const LoginFormName := "login_form"
  const WithdrawFormName := "WithDrawForm"

  const BalanceOnlyBanner := "[Mode] Balance only"
  const SweepBanner := "[Mode] Balance and Sweep"
  // The messages the workflow outputs
  const LoginSuccessMessage := "Login successful.\n\n"
  const LoginFailureMessage := "Login failed."
  const LogoutStartMessage := "Logging out of Paypal..."
  const LogoutDoneMessage := "Logged out.\n\n"
  const BalanceStartMessage := "Retrieving account balance..."
  const BalanceErrorMessage := "Error attempting to retrieve balance."
  const BalanceUnavailableMessage := "Unable to retrieve balance."

  function LoginAttemptMessage(user: string): string {
    "Attempting login to Paypal account (" + user + ")..."
  }

  function BalanceMessage(amount: string, now: string): string {
    "Balance: £" + amount + " (at " + now + ") \n\n"
  }

  function TransferSuccessMessage(headline: string): string {
    "Transfer success: " + headline + "\n\n"
  }

  function TransferUnconfirmedMessage(headline: string): string {
    "Transfer unconfirmed: " + headline
  }

  function TransferFailedMessage(error: string): string {
    "Transfer Failed: " + error
  }

  /** The banner naming the run mode, printed first by every run. */
  function DisplayMode(sweepMode: bool): (r: string)
    ensures r == SweepBanner <==> sweepMode
    ensures r == BalanceOnlyBanner <==> !sweepMode
  {
    if sweepMode then SweepBanner else BalanceOnlyBanner
  }

  /** The `td.heading h1` text of a page, trimmed. */
  function H1For(page: Reply): (r: string)
    requires page.Page?
    ensures |r| <= |page.h1Text|
    ensures r == [] || (!IsSpace(r[0]) && !IsSpace(r[|r| - 1]))
  {
    Strip(page.h1Text)
  }

  /** The `div#headline h2` text of a page, trimmed. */
  function HeadlineFor(page: Reply): (r: string)
    requires page.Page?
    ensures |r| <= |page.headlineText|
    ensures r == [] || (!IsSpace(r[0]) && !IsSpace(r[|r| - 1]))
  {
    Strip(page.headlineText)
  }

  /** The `div.messageBox.error p` text of a page, trimmed. */
  function ErrorMessageFor(page: Reply): (r: string)
    requires page.Page?
    ensures |r| <= |page.errorText|
    ensures r == [] || (!IsSpace(r[0]) && !IsSpace(r[|r| - 1]))
  {
    Strip(page.errorText)
  }

  // ---------------------------------------------------------------------
  // The steps of a run

  /** `login_to_paypal?`: fetch the login page, submit the login form with
      the credentials, fetch the overview page whatever the submit returned,
      and succeed when its heading is the account overview landmark. */
  function LoginToPaypal(user: string, password: string, site: Site, past: seq<Action>): (s: Step<bool>)
    ensures 1 <= |s.actions| <= 3
    ensures s.actions == [Get(LoginPage), Submit(LoginForm(user, password)), Get(OverviewPage)][..|s.actions|]
    ensures s.outcome.Returned? ==> |s.actions| == 3
  {
    var hello := [LoginAttemptMessage(user)];
    var fetch := [Get(LoginPage)];
    var loginPage := Answer(site, past + fetch);
    if loginPage.Fault? || LoginFormName !in loginPage.forms then Step(fetch, hello, Raised)
    else
      var submit := [Get(LoginPage), Submit(LoginForm(user, password))];
      if Answer(site, past + submit).Fault? then Step(submit, hello, Raised)
      else
        var acts := [Get(LoginPage), Submit(LoginForm(user, password)), Get(OverviewPage)];
        var overview := Answer(site, past + acts);
        if overview.Fault? then Step(acts, hello, Raised)
        else if H1For(overview) == AccountOverviewHeading then
          Step(acts, hello + [LoginSuccessMessage], Returned(true))
        else
          Step(acts, hello + [LoginFailureMessage], Returned(false))
  }

  /** `logout_of_paypal`: fetch the logout page without checking the result. */
  function LogoutOfPaypal(site: Site, past: seq<Action>): (s: Step<()>)
    ensures s.actions == [Get(LogoutPage)]
    ensures 1 <= |s.messages| <= 2 && s.messages[0] == LogoutStartMessage
    ensures s.outcome.Returned? <==> |s.messages| == 2
  {
    var bye := [LogoutStartMessage];
    var acts := [Get(LogoutPage)];
    if Answer(site, past + acts).Fault? then Step(acts, bye, Raised)
    else Step(acts, bye + [LogoutDoneMessage], Returned(()))
  }

  /** `current_balance`: the balance shown on the withdrawal page, once the
      page's headline shows it is that page. Every fault inside is rescued,
      so the step always returns, after exactly one request. */
  function CurrentBalance(site: Site, format: Formatter, now: string, past: seq<Action>): (s: Step<Balance>)
    ensures s.outcome.Returned? && s.actions == [Get(WithdrawalPage)]
    ensures |s.messages| == 2 && s.messages[0] == BalanceStartMessage
  {
    var hello := [BalanceStartMessage];
    var acts := [Get(WithdrawalPage)];
    var page := Answer(site, past + acts);
    if page.Fault? then Step(acts, hello + [BalanceErrorMessage], Returned(NoBalance))
    else if HeadlineFor(page) != WithdrawHeading then
      Step(acts, hello + [BalanceUnavailableMessage], Returned(NoBalance))
    else
      match format(CleanBalanceText(page.balanceText))
      case None => Step(acts, hello + [BalanceErrorMessage], Returned(NoBalance))
      case Some(amount) =>
        Step(acts, hello + [BalanceMessage(amount, now)], Returned(Amount(amount)))
  }

  /** `do_withdrawal`: submit the withdrawal form with the amount, then, if
      the review page is reached, submit its confirmation form. */
  function DoWithdrawal(amount: Balance, site: Site, past: seq<Action>): (s: Step<bool>)
    ensures 1 <= |s.actions| <= 3
    ensures s.actions == [Get(WithdrawalPage), Submit(WithdrawForm(amount)), Submit(ConfirmForm)][..|s.actions|]
    ensures s.outcome.Returned? ==> 2 <= |s.actions|
  {
    var fetch := [Get(WithdrawalPage)];
    var page := Answer(site, past + fetch);
    if page.Fault? || WithdrawFormName !in page.forms then Step(fetch, [], Raised)
    else
      var submit := [Get(WithdrawalPage), Submit(WithdrawForm(amount))];
      var review := Answer(site, past + submit);
      if review.Fault? then Step(submit, [], Raised)
      else if HeadlineFor(review) != ReviewHeading then
        Step(submit, [TransferFailedMessage(ErrorMessageFor(review))], Returned(false))
      else if |review.forms| < 2 then Step(submit, [], Raised)
      else
        var confirm := [Get(WithdrawalPage), Submit(WithdrawForm(amount)), Submit(ConfirmForm)];
        var confPage := Answer(site, past + confirm);
        if confPage.Fault? then Step(confirm, [], Raised)
        else if HeadlineFor(confPage) == TransferInProcessHeading then
          Step(confirm, [TransferSuccessMessage(HeadlineFor(confPage))], Returned(true))
        else
          Step(confirm, [TransferUnconfirmedMessage(HeadlineFor(confPage))], Returned(false))
  }

  /** Logging out after the requests `acts` and messages `msgs` of a session
      whose report is `report`. */
  function CloseSession(acts: seq<Action>, msgs: seq<string>, report: Report, site: Site, past: seq<Action>): Step<Report>
  {
    var out := LogoutOfPaypal(site, past + acts);
    Step(acts + out.actions, msgs + out.messages, if out.outcome.Raised? then Raised else Returned(report))
  }

  /** The logged-in part of `run`: read the balance, withdraw it in sweep
      mode, log out. It starts with the balance fetch; when it returns, it
      has logged out last and reports the mode it ran in. */
  function Session(settings: Settings, site: Site, format: Formatter, now: string, past: seq<Action>): (s: Step<Report>)
    ensures |s.actions| >= 2 && s.actions[0] == Get(WithdrawalPage)
    ensures s.outcome.Returned? ==> s.actions[|s.actions| - 1] == Get(LogoutPage)
    ensures s.outcome.Returned? ==> (s.outcome.value.Swept? <==> settings.sweepMode) && !s.outcome.value.NotLoggedIn?
    ensures !settings.sweepMode ==> s.actions == [Get(WithdrawalPage), Get(LogoutPage)]
    ensures |s.messages| >= 2 && s.messages[0] == BalanceStartMessage
  {
    var balance := CurrentBalance(site, format, now, past);
    var b := balance.outcome.value;
    if settings.sweepMode then
      var transfer := DoWithdrawal(b, site, past + balance.actions);
      var acts := balance.actions + transfer.actions;
      var msgs := balance.messages + transfer.messages;
      if transfer.outcome.Raised? then Step(acts, msgs, Raised)
      else CloseSession(acts, msgs, Swept(b, transfer.outcome.value), site, past)
    else
      CloseSession(balance.actions, balance.messages, BalanceOnly(b), site, past)
  }

  /** `run`, once the arguments are processed: print the mode, log in, and
      only when the login succeeded go on with the session. Every run
      prints the mode banner first and starts with the login page fetch; a
      run that reports more than a failed login has logged out last. */
  function Run(settings: Settings, site: Site, format: Formatter, now: string, past: seq<Action>): (r: Step<Report>)
    ensures |r.messages| >= 2 && r.messages[0] == DisplayMode(settings.sweepMode)
    ensures |r.actions| >= 1 && r.actions[0] == Get(LoginPage)
    ensures r.outcome.Returned? && r.outcome.value != NotLoggedIn ==> r.actions[|r.actions| - 1] == Get(LogoutPage)
  {
    var banner := [DisplayMode(settings.sweepMode)];
    var login := LoginToPaypal(settings.user, settings.password, site, past);
    if login.outcome.Raised? then Step(login.actions, banner + login.messages, Raised)
    else if !login.outcome.value then Step(login.actions, banner + login.messages, Returned(NotLoggedIn))
    else
      var session := Session(settings, site, format, now, past + login.actions);
      Step(login.actions + session.actions, banner + login.messages + session.messages, session.outcome)
  }
}
