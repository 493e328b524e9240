/**
 * What the sweep's workflow promises, stated over the requests a step
 * issues, the messages it outputs and how it ends: the landmark that gates
 * each step, the three outcomes of a withdrawal, and the shape of a whole
 * run's request trace.
 */
module WorkflowProperties {
  import opened Navigator
  import opened BalanceText
  import opened Workflow

  // ---------------------------------------------------------------------
  // login_to_paypal?

  /** The login succeeds exactly when all three requests are answered, the
      login page has the login form and the trimmed overview heading is the
      account overview landmark. Whenever it returns, it has fetched the
      overview page after submitting the form. */
  lemma LoginSucceedsIff(user: string, password: string, site: Site, past: seq<Action>)
    ensures var s := LoginToPaypal(user, password, site, past);
            var loginPage := Answer(site, past + [Get(LoginPage)]);
            var submitted := Answer(site, past + [Get(LoginPage), Submit(LoginForm(user, password))]);
            var overview := Answer(site, past + [Get(LoginPage), Submit(LoginForm(user, password)), Get(OverviewPage)]);
            (s.outcome == Returned(true) <==>
               loginPage.Page? && LoginFormName in loginPage.forms && submitted.Page? &&
               overview.Page? && H1For(overview) == AccountOverviewHeading)
            && (s.outcome.Returned? ==>
                  s.actions == [Get(LoginPage), Submit(LoginForm(user, password)), Get(OverviewPage)])
  {
  }

  /** The login announces the attempt with the user's name, then reports
      success or failure when it returns. */
  lemma LoginMessages(user: string, password: string, site: Site, past: seq<Action>)
    ensures var s := LoginToPaypal(user, password, site, past);
            (s.outcome == Returned(true) ==> s.messages == [LoginAttemptMessage(user), LoginSuccessMessage])
            && (s.outcome == Returned(false) ==> s.messages == [LoginAttemptMessage(user), LoginFailureMessage])
            && (s.outcome.Raised? ==> s.messages == [LoginAttemptMessage(user)])
  {
  }

  /** The page the login form's submit returns is never looked at: two
      sites that answer the other two requests alike, and the submit either
      both with a page or both with a fault, give the same login. */
  lemma LoginIgnoresSubmittedPage(user: string, password: string, site1: Site, site2: Site, past: seq<Action>)
    requires Answer(site1, past + [Get(LoginPage)]) == Answer(site2, past + [Get(LoginPage)])
    requires Answer(site1, past + [Get(LoginPage), Submit(LoginForm(user, password))]).Page?
             == Answer(site2, past + [Get(LoginPage), Submit(LoginForm(user, password))]).Page?
    requires Answer(site1, past + [Get(LoginPage), Submit(LoginForm(user, password)), Get(OverviewPage)])
             == Answer(site2, past + [Get(LoginPage), Submit(LoginForm(user, password)), Get(OverviewPage)])
    ensures LoginToPaypal(user, password, site1, past) == LoginToPaypal(user, password, site2, past)
  {
  }

  // ---------------------------------------------------------------------
  // logout_of_paypal

  /** The logout is one request, whose answer is not checked beyond its
      arriving. */
  lemma LogoutIsOneRequest(site: Site, past: seq<Action>)
    ensures var s := LogoutOfPaypal(site, past);
            s.actions == [Get(LogoutPage)]
            && (s.outcome.Returned? <==> Answer(site, past + [Get(LogoutPage)]).Page?)
            && s.messages == if s.outcome.Returned? then [LogoutStartMessage, LogoutDoneMessage] else [LogoutStartMessage]
  {
  }

  // ---------------------------------------------------------------------
  // current_balance

  /** The balance is read only from a page whose trimmed headline is the
      withdrawal landmark and whose cleaned balance text the formatter
      accepts; every other case yields no balance with the message that
      says why. */
  lemma CurrentBalanceOutcomes(site: Site, format: Formatter, now: string, past: seq<Action>)
    ensures var s := CurrentBalance(site, format, now, past);
            var page := Answer(site, past + [Get(WithdrawalPage)]);
            (page.Fault? ==> s.outcome.value == NoBalance && s.messages[1] == BalanceErrorMessage)
            && (page.Page? && HeadlineFor(page) != WithdrawHeading ==>
                  s.outcome.value == NoBalance && s.messages[1] == BalanceUnavailableMessage)
            && (page.Page? && HeadlineFor(page) == WithdrawHeading && format(CleanBalanceText(page.balanceText)).None? ==>
                  s.outcome.value == NoBalance && s.messages[1] == BalanceErrorMessage)
            && (s.outcome.value.Amount? <==>
                  page.Page? && HeadlineFor(page) == WithdrawHeading && format(CleanBalanceText(page.balanceText)).Some?)
            && (s.outcome.value.Amount? ==>
                  Some(s.outcome.value.text) == format(CleanBalanceText(page.balanceText))
                  && s.messages[1] == BalanceMessage(s.outcome.value.text, now))
  {
  }

  /** It is the cleaned text that is formatted: two withdrawal pages with the
      same headline whose balance texts clean to the same text give the same
      balance read. */
  lemma CurrentBalanceFormatsCleanedText(site1: Site, site2: Site, format: Formatter, now: string, past: seq<Action>)
    requires var page1 := Answer(site1, past + [Get(WithdrawalPage)]);
             var page2 := Answer(site2, past + [Get(WithdrawalPage)]);
             page1.Page? && page2.Page? && page1.headlineText == page2.headlineText
             && CleanBalanceText(page1.balanceText) == CleanBalanceText(page2.balanceText)
    ensures CurrentBalance(site1, format, now, past) == CurrentBalance(site2, format, now, past)
  {
  }

  // ---------------------------------------------------------------------
  // do_withdrawal

  /** Failed: the withdrawal form was submitted but the review page's
      headline is not the review landmark. The step then returns `false`
      with the trimmed error-box text, and issues no further request. */
  lemma WithdrawalFailedIff(amount: Balance, site: Site, past: seq<Action>)
    ensures var s := DoWithdrawal(amount, site, past);
            var page := Answer(site, past + [Get(WithdrawalPage)]);
            var review := Answer(site, past + [Get(WithdrawalPage), Submit(WithdrawForm(amount))]);
            var failed := page.Page? && WithdrawFormName in page.forms && review.Page? && HeadlineFor(review) != ReviewHeading;
            (failed <==> s.outcome == Returned(false) && s.actions == [Get(WithdrawalPage), Submit(WithdrawForm(amount))])
            && (failed ==> s.messages == [TransferFailedMessage(ErrorMessageFor(review))])
  {
  }

  /** Success: the review headline matched, the review page has a second
      form, and the confirmation page's headline is the in-process landmark.
      Exactly then the step returns `true`, after three requests. */
  lemma WithdrawalSucceededIff(amount: Balance, site: Site, past: seq<Action>)
    ensures var s := DoWithdrawal(amount, site, past);
            var page := Answer(site, past + [Get(WithdrawalPage)]);
            var review := Answer(site, past + [Get(WithdrawalPage), Submit(WithdrawForm(amount))]);
            var confirmation := Answer(site, past + [Get(WithdrawalPage), Submit(WithdrawForm(amount)), Submit(ConfirmForm)]);
            var succeeded := page.Page? && WithdrawFormName in page.forms && review.Page? && HeadlineFor(review) == ReviewHeading
                             && |review.forms| >= 2 && confirmation.Page? && HeadlineFor(confirmation) == TransferInProcessHeading;
            (succeeded <==> s.outcome == Returned(true))
            && (succeeded ==>
                  s.actions == [Get(WithdrawalPage), Submit(WithdrawForm(amount)), Submit(ConfirmForm)]
                  && s.messages == [TransferSuccessMessage(HeadlineFor(confirmation))])
  {
  }

  /** Unconfirmed: the confirmation was submitted and answered, but its
      headline is not the in-process landmark. The step returns `false` with
      the observed headline. */
  lemma WithdrawalUnconfirmedIff(amount: Balance, site: Site, past: seq<Action>)
    ensures var s := DoWithdrawal(amount, site, past);
            var page := Answer(site, past + [Get(WithdrawalPage)]);
            var review := Answer(site, past + [Get(WithdrawalPage), Submit(WithdrawForm(amount))]);
            var confirmation := Answer(site, past + [Get(WithdrawalPage), Submit(WithdrawForm(amount)), Submit(ConfirmForm)]);
            var unconfirmed := page.Page? && WithdrawFormName in page.forms && review.Page? && HeadlineFor(review) == ReviewHeading
                               && |review.forms| >= 2 && confirmation.Page? && HeadlineFor(confirmation) != TransferInProcessHeading;
            (unconfirmed <==>
               s.outcome == Returned(false) && s.actions == [Get(WithdrawalPage), Submit(WithdrawForm(amount)), Submit(ConfirmForm)])
            && (unconfirmed ==> s.messages == [TransferUnconfirmedMessage(HeadlineFor(confirmation))])
  {
  }

  /** The confirmation form is submitted only after the review headline
      matched, and every withdrawal form submitted carries the amount. */
  lemma ConfirmOnlyAfterReview(amount: Balance, site: Site, past: seq<Action>)
    ensures var s := DoWithdrawal(amount, site, past);
            var review := Answer(site, past + [Get(WithdrawalPage), Submit(WithdrawForm(amount))]);
            (Submit(ConfirmForm) in s.actions ==> review.Page? && HeadlineFor(review) == ReviewHeading)
            && (forall x :: Submit(WithdrawForm(x)) in s.actions ==> x == amount)
            && s.actions[0] == Get(WithdrawalPage)
            && Get(LogoutPage) !in s.actions
  {
    var s := DoWithdrawal(amount, site, past);
    var full := [Get(WithdrawalPage), Submit(WithdrawForm(amount)), Submit(ConfirmForm)];
    if |s.actions| == 1 {
      assert s.actions == [Get(WithdrawalPage)];
    } else if |s.actions| == 2 {
      assert s.actions == [Get(WithdrawalPage), Submit(WithdrawForm(amount))];
    } else {
      assert s.actions == full;
    }
  }

  // ---------------------------------------------------------------------
  // run

  /** A run whose login does not succeed stops there: no balance read, no
      withdrawal and no logout request follow the login's own requests. */
  lemma RunStopsWithoutLogin(settings: Settings, site: Site, format: Formatter, now: string, past: seq<Action>)
    ensures var login := LoginToPaypal(settings.user, settings.password, site, past);
            var r := Run(settings, site, format, now, past);
            login.outcome != Returned(true) ==>
              r.actions == login.actions
              && r.outcome == (if login.outcome.Raised? then Raised else Returned(NotLoggedIn))
              && Get(WithdrawalPage) !in r.actions
              && Get(LogoutPage) !in r.actions
              && (forall a :: a in r.actions ==> a.Get? || a.form.LoginForm?)
  {
    var login := LoginToPaypal(settings.user, settings.password, site, past);
    if login.outcome != Returned(true) {
      var banner := [DisplayMode(settings.sweepMode)];
      assert Run(settings, site, format, now, past)
          == Step(login.actions, banner + login.messages, if login.outcome.Raised? then Raised else Returned(NotLoggedIn));
      LoginRequests(settings.user, settings.password, site, past);
    }
  }

  /** Every request of a login is one of its three: the login page fetch,
      the form submit, the overview fetch. */
  lemma LoginRequests(user: string, password: string, site: Site, past: seq<Action>)
    ensures forall a :: a in LoginToPaypal(user, password, site, past).actions ==>
              a == Get(LoginPage) || a == Submit(LoginForm(user, password)) || a == Get(OverviewPage)
  {
    var all := [Get(LoginPage), Submit(LoginForm(user, password)), Get(OverviewPage)];
    var acts := LoginToPaypal(user, password, site, past).actions;
    assert acts == all[..|acts|];
    forall a | a in acts
      ensures a in all
    {
      var k :| 0 <= k < |acts| && acts[k] == a;
      assert all[k] == a;
    }
  }

  /** A logout request is only ever issued by a run whose login succeeded. */
  lemma LogoutOnlyAfterLogin(settings: Settings, site: Site, format: Formatter, now: string, past: seq<Action>)
    ensures Get(LogoutPage) in Run(settings, site, format, now, past).actions ==>
              LoginToPaypal(settings.user, settings.password, site, past).outcome == Returned(true)
  {
    RunStopsWithoutLogin(settings, site, format, now, past);
  }

  /** The requests of the logged-in part of a run: the balance read's one
      fetch, in sweep mode the withdrawal's requests, and the logout, unless
      the withdrawal raised. */
  lemma SessionTrace(settings: Settings, site: Site, format: Formatter, now: string, past: seq<Action>)
    ensures var read := CurrentBalance(site, format, now, past);
            var transfer := DoWithdrawal(read.outcome.value, site, past + read.actions);
            var raised := settings.sweepMode && transfer.outcome.Raised?;
            var s := Session(settings, site, format, now, past);
            s.actions == [Get(WithdrawalPage)] + (if settings.sweepMode then transfer.actions else [])
                         + (if raised then [] else [Get(LogoutPage)])
            && (raised ==> s.outcome.Raised?)
            && (s.outcome.Returned? ==>
                  s.outcome.value == if settings.sweepMode then Swept(read.outcome.value, transfer.outcome.value)
                                     else BalanceOnly(read.outcome.value))
  {
    var read := CurrentBalance(site, format, now, past);
    var transfer := DoWithdrawal(read.outcome.value, site, past + read.actions);
    if !settings.sweepMode {
      assert [Get(WithdrawalPage)] + [] == [Get(WithdrawalPage)];
    } else if transfer.outcome.Raised? {
      assert read.actions + transfer.actions + [] == read.actions + transfer.actions;
    }
  }

  /** The requests of a run whose login succeeded: the login's, then the
      session's. */
  lemma LoggedInRunTrace(settings: Settings, site: Site, format: Formatter, now: string, past: seq<Action>)
    requires LoginToPaypal(settings.user, settings.password, site, past).outcome == Returned(true)
    ensures var login := LoginToPaypal(settings.user, settings.password, site, past);
            var r := Run(settings, site, format, now, past);
            var session := Session(settings, site, format, now, past + login.actions);
            r.actions == login.actions + session.actions && r.outcome == session.outcome
  {
  }

  /** In balance-only mode a logged-in run reads the balance and logs out,
      and no run ever submits a withdrawal or a confirmation. */
  lemma BalanceOnlyNeverWithdraws(settings: Settings, site: Site, format: Formatter, now: string, past: seq<Action>)
    requires !settings.sweepMode
    ensures var login := LoginToPaypal(settings.user, settings.password, site, past);
            var r := Run(settings, site, format, now, past);
            (login.outcome == Returned(true) ==>
               r.actions == login.actions + [Get(WithdrawalPage), Get(LogoutPage)])
            && (forall a :: a in r.actions ==> a.Get? || a.form.LoginForm?)
  {
    var login := LoginToPaypal(settings.user, settings.password, site, past);
    RunStopsWithoutLogin(settings, site, format, now, past);
    if login.outcome == Returned(true) {
      LoggedInRunTrace(settings, site, format, now, past);
      SessionTrace(settings, site, format, now, past + login.actions);
      AppendAssoc(login.actions, [Get(WithdrawalPage)], [Get(LogoutPage)]);
    }
  }

  /** In sweep mode a logged-in run hands the withdrawal whatever the balance
      read returned, no balance included, and the withdrawal fetches the
      withdrawal page afresh. The run logs out unless the withdrawal raised. */
  lemma SweepWithdrawsBalanceRead(settings: Settings, site: Site, format: Formatter, now: string, past: seq<Action>)
    requires settings.sweepMode
    ensures var login := LoginToPaypal(settings.user, settings.password, site, past);
            var r := Run(settings, site, format, now, past);
            var read := CurrentBalance(site, format, now, past + login.actions);
            var transfer := DoWithdrawal(read.outcome.value, site, past + login.actions + read.actions);
            login.outcome == Returned(true) ==>
              r.actions == login.actions + [Get(WithdrawalPage)] + transfer.actions
                           + (if transfer.outcome.Raised? then [] else [Get(LogoutPage)])
              && transfer.actions[0] == Get(WithdrawalPage)
              && (forall x :: Submit(WithdrawForm(x)) in r.actions ==> x == read.outcome.value)
              && (r.outcome.Returned? ==> r.outcome.value == Swept(read.outcome.value, transfer.outcome.value))
  {
    var login := LoginToPaypal(settings.user, settings.password, site, past);
    if login.outcome == Returned(true) {
      var r := Run(settings, site, format, now, past);
      var past1 := past + login.actions;
      var read := CurrentBalance(site, format, now, past1);
      var transfer := DoWithdrawal(read.outcome.value, site, past1 + read.actions);
      var tail: seq<Action> := if transfer.outcome.Raised? then [] else [Get(LogoutPage)];
      LoggedInRunTrace(settings, site, format, now, past);
      SessionTrace(settings, site, format, now, past1);
      ConfirmOnlyAfterReview(read.outcome.value, site, past1 + read.actions);
      AppendAssoc(login.actions, [Get(WithdrawalPage)] + transfer.actions, tail);
      AppendAssoc(login.actions, [Get(WithdrawalPage)], transfer.actions);
      assert r.actions == login.actions + [Get(WithdrawalPage)] + transfer.actions + tail;
    }
  }

  /** A run whose login succeeded issues exactly one logout request, as its
      last request, unless the withdrawal raised, in which case it issues
      none and the run raises. */
  lemma LoggedInRunLogsOutOnceLast(settings: Settings, site: Site, format: Formatter, now: string, past: seq<Action>)
    ensures var login := LoginToPaypal(settings.user, settings.password, site, past);
            var r := Run(settings, site, format, now, past);
            var read := CurrentBalance(site, format, now, past + login.actions);
            var raised := settings.sweepMode
                          && DoWithdrawal(read.outcome.value, site, past + login.actions + read.actions).outcome.Raised?;
            login.outcome == Returned(true) ==>
              (!raised ==> |r.actions| > 0 && r.actions[|r.actions| - 1] == Get(LogoutPage)
                           && Get(LogoutPage) !in r.actions[..|r.actions| - 1])
              && (raised ==> Get(LogoutPage) !in r.actions && r.outcome == Raised)
  {
    var login := LoginToPaypal(settings.user, settings.password, site, past);
    if login.outcome == Returned(true) {
      var r := Run(settings, site, format, now, past);
      var past1 := past + login.actions;
      var read := CurrentBalance(site, format, now, past1);
      var transfer := DoWithdrawal(read.outcome.value, site, past1 + read.actions);
      var middle: seq<Action> := [Get(WithdrawalPage)] + (if settings.sweepMode then transfer.actions else []);
      var raised := settings.sweepMode && transfer.outcome.Raised?;
      LoggedInRunTrace(settings, site, format, now, past);
      SessionTrace(settings, site, format, now, past1);
      ConfirmOnlyAfterReview(read.outcome.value, site, past1 + read.actions);
      assert Get(LogoutPage) !in login.actions;
      assert Get(LogoutPage) !in middle;
      if raised {
        assert r.actions == login.actions + middle;
      } else {
        AppendAssoc(login.actions, middle, [Get(LogoutPage)]);
        assert r.actions[..|r.actions| - 1] == login.actions + middle;
      }
    }
  }
}
