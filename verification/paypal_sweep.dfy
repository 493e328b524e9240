/**
 * The `PaypalSweep` object: the command-line settings it keeps in fields,
 * the browser agent whose session each request advances, and the messages it
 * has output. Each method issues its requests through the agent step by
 * step, returning early where the Ruby code does, and is proved to do
 * exactly what the matching function of `Workflow` describes.
 */
module PaypalSweepApp {
  import opened Navigator
  import opened BalanceText
  import opened Workflow

  class PaypalSweep {
    const agent: Agent
    /** `sprintf("%.2f", ...)` as the Ruby runtime provides it */
    const format: Formatter
    var user: string
    var password: string
    var sweepMode: bool
    /** every message output so far, in order */
    var log: seq<string>

    /** `initialize`: a fresh agent on the site, the defaults for the settings
        (balance-only mode) and nothing output yet. */
    constructor (site: Site, format: Formatter)
      ensures fresh(agent) && agent.site == site && agent.history == []
      ensures this.format == format
      ensures user == "" && password == "" && !sweepMode && log == []
    {
      agent := new Agent(site);
      this.format := format;
      user, password, sweepMode := "", "", false;
      log := [];
    }

    /** `process_arguments`: sweep mode is switched on by the flag, never off. */
    method ProcessArguments(flags: Settings)
      modifies this`user, this`password, this`sweepMode
      ensures user == flags.user && password == flags.password
      ensures sweepMode == (old(sweepMode) || flags.sweepMode)
    {
      user := flags.user;
      password := flags.password;
      if flags.sweepMode {
        sweepMode := true;
      }
    }

    /** `output_message`, keeping the line instead of printing and logging it */
    method OutputMessage(content: string)
      modifies this`log
      ensures log == old(log) + [content]
    {
      log := log + [content];
    }

    /** `run`: process the arguments, print the mode, and run the session when
        the login succeeds. */
    method Run(flags: Settings, now: string) returns (result: Outcome<Report>)
      modifies this, agent
      ensures user == flags.user && password == flags.password
      ensures sweepMode == (old(sweepMode) || flags.sweepMode)
      ensures var s := Workflow.Run(Settings(user, password, sweepMode), agent.site, format, now, old(agent.history));
              agent.history == old(agent.history) + s.actions && log == old(log) + s.messages && result == s.outcome
    {
      ProcessArguments(flags);
      OutputMessage(DisplayMode(sweepMode));
      ghost var banner := [DisplayMode(sweepMode)];
      ghost var login := Workflow.LoginToPaypal(user, password, agent.site, old(agent.history));
      var loggedIn := LoginToPaypal();
      AppendAssoc(old(log), banner, login.messages);
      if loggedIn.Raised? {
        return Raised;
      }
      if !loggedIn.value {
        return Returned(NotLoggedIn);
      }
      ghost var session := Session(Settings(user, password, sweepMode), agent.site, format, now, agent.history);
      result := RunSession(now);
      AppendAssoc(old(agent.history), login.actions, session.actions);
      AppendAssoc(old(log), banner + login.messages, session.messages);
    }

    /** Lines 58-63 of `run`: the part of the run after a successful login. */
    method RunSession(now: string) returns (result: Outcome<Report>)
      modifies this`log, agent
      ensures var s := Session(Settings(user, password, sweepMode), agent.site, format, now, old(agent.history));
              agent.history == old(agent.history) + s.actions && log == old(log) + s.messages && result == s.outcome
    {
      ghost var past := agent.history;
      ghost var read := Workflow.CurrentBalance(agent.site, format, now, past);
      var balance := CurrentBalance(now);
      ghost var acts, msgs := read.actions, read.messages;
      var report: Report;
      if sweepMode {
        ghost var transfer := Workflow.DoWithdrawal(balance, agent.site, agent.history);
        var transferred := DoWithdrawal(balance);
        acts, msgs := read.actions + transfer.actions, read.messages + transfer.messages;
        AppendAssoc(past, read.actions, transfer.actions);
        AppendAssoc(old(log), read.messages, transfer.messages);
        if transferred.Raised? {
          return Raised;
        }
        report := Swept(balance, transferred.value);
      } else {
        report := BalanceOnly(balance);
      }
      ghost var out := Workflow.LogoutOfPaypal(agent.site, agent.history);
      var loggedOut := LogoutOfPaypal();
      AppendAssoc(past, acts, out.actions);
      AppendAssoc(old(log), msgs, out.messages);
      if loggedOut.Raised? {
        return Raised;
      }
      return Returned(report);
    }

    /** `login_to_paypal?` */
    method LoginToPaypal() returns (result: Outcome<bool>)
      modifies this`log, agent
      ensures var s := Workflow.LoginToPaypal(user, password, agent.site, old(agent.history));
              agent.history == old(agent.history) + s.actions && log == old(log) + s.messages && result == s.outcome
    {
      OutputMessage(LoginAttemptMessage(user));
      var page := agent.Get(LoginPage);
      if page.Fault? || LoginFormName !in page.forms {
        return Raised;
      }
      page := agent.Submit(LoginForm(user, password));
      assert agent.history == old(agent.history) + [Get(LoginPage), Submit(LoginForm(user, password))];
      if page.Fault? {
        return Raised;
      }
      // the login does not redirect properly, so the overview is fetched
      page := agent.Get(OverviewPage);
      assert agent.history == old(agent.history) + [Get(LoginPage), Submit(LoginForm(user, password)), Get(OverviewPage)];
      if page.Fault? {
        return Raised;
      }
      if H1For(page) == AccountOverviewHeading {
        OutputMessage(LoginSuccessMessage);
        AppendAssoc(old(log), [LoginAttemptMessage(user)], [LoginSuccessMessage]);
        return Returned(true);
      } else {
        OutputMessage(LoginFailureMessage);
        AppendAssoc(old(log), [LoginAttemptMessage(user)], [LoginFailureMessage]);
        return Returned(false);
      }
    }

    /** `logout_of_paypal` */
    method LogoutOfPaypal() returns (result: Outcome<()>)
      modifies this`log, agent
      ensures var s := Workflow.LogoutOfPaypal(agent.site, old(agent.history));
              agent.history == old(agent.history) + s.actions && log == old(log) + s.messages && result == s.outcome
    {
      OutputMessage(LogoutStartMessage);
      var page := agent.Get(LogoutPage);
      if page.Fault? {
        return Raised;
      }
      OutputMessage(LogoutDoneMessage);
      AppendAssoc(old(log), [LogoutStartMessage], [LogoutDoneMessage]);
      return Returned(());
    }

    /** `current_balance`, with `now` the time its clock reads. The scraped
        text is cleaned in place by three deletions before it is formatted. */
    method CurrentBalance(now: string) returns (balance: Balance)
      modifies this`log, agent
      ensures var s := Workflow.CurrentBalance(agent.site, format, now, old(agent.history));
              agent.history == old(agent.history) + s.actions && log == old(log) + s.messages && balance == s.outcome.value
    {
      OutputMessage(BalanceStartMessage);
      var page := agent.Get(WithdrawalPage);
      if page.Fault? {
        OutputMessage(BalanceErrorMessage);
        AppendAssoc(old(log), [BalanceStartMessage], [BalanceErrorMessage]);
        return NoBalance;
      }
      if HeadlineFor(page) == WithdrawHeading {
        var balanceText := page.balanceText;
        balanceText := RubyText.RemoveAll(balanceText, "GBP");
        balanceText := RubyText.RemoveAll(balanceText, "£");
        balanceText := RubyText.RemoveAll(balanceText, ",");
        assert balanceText == CleanBalanceText(page.balanceText);
        var formatted := format(balanceText);
        if formatted.None? {
          OutputMessage(BalanceErrorMessage);
          AppendAssoc(old(log), [BalanceStartMessage], [BalanceErrorMessage]);
          return NoBalance;
        }
        OutputMessage(BalanceMessage(formatted.value, now));
        AppendAssoc(old(log), [BalanceStartMessage], [BalanceMessage(formatted.value, now)]);
        return Amount(formatted.value);
      } else {
        OutputMessage(BalanceUnavailableMessage);
        AppendAssoc(old(log), [BalanceStartMessage], [BalanceUnavailableMessage]);
        return NoBalance;
      }
    }

    /** `do_withdrawal` */
    method DoWithdrawal(amount: Balance) returns (result: Outcome<bool>)
      modifies this`log, agent
      ensures var s := Workflow.DoWithdrawal(amount, agent.site, old(agent.history));
              agent.history == old(agent.history) + s.actions && log == old(log) + s.messages && result == s.outcome
    {
      var page := agent.Get(WithdrawalPage);
      if page.Fault? || WithdrawFormName !in page.forms {
        return Raised;
      }
      var review := agent.Submit(WithdrawForm(amount));
      assert agent.history == old(agent.history) + [Get(WithdrawalPage), Submit(WithdrawForm(amount))];
      if review.Fault? {
        return Raised;
      }
      if HeadlineFor(review) == ReviewHeading {
        if |review.forms| < 2 {
          return Raised;
        }
        var confirmation := agent.Submit(ConfirmForm);
        assert agent.history == old(agent.history) + [Get(WithdrawalPage), Submit(WithdrawForm(amount)), Submit(ConfirmForm)];
        if confirmation.Fault? {
          return Raised;
        }
        if HeadlineFor(confirmation) == TransferInProcessHeading {
          OutputMessage(TransferSuccessMessage(HeadlineFor(confirmation)));
          return Returned(true);
        } else {
          OutputMessage(TransferUnconfirmedMessage(HeadlineFor(confirmation)));
          return Returned(false);
        }
      } else {
        OutputMessage(TransferFailedMessage(ErrorMessageFor(review)));
        return Returned(false);
      }
    }
  }
}
