# PayPal sweep: a verified model

`paypal_sweep.rb` is a command-line script. It logs in to a PayPal UK account
with a scripted browser and reads the available balance from the bank
withdrawal page. In sweep mode it then withdraws that balance to the linked
bank account, and it logs out at the end. Each step except the logout checks
that it reached the page it expected by comparing a trimmed heading text with
a fixed landmark string. When a check fails, the step stops with `false` and
a message. The logout fetches the logout page and checks nothing.

This project models that workflow in Dafny and proves what it does.

- **`RubyText`** (`ruby_text.dfy`): the two Ruby string operations the script
  relies on.
  - `String#strip` is `Strip`, which removes Ruby whitespace from both ends.
  - `String#gsub!(pattern, '')` is `RemoveAll`, a leftmost, non-overlapping
    deletion of a literal pattern.
  - Both are pinned down on every input:
    - `StripIsTrimmedSlice` proves that `Strip(s)` is the slice of `s` framed
      by whitespace on both sides that neither starts nor ends with whitespace.
    - `RemoveAllChangesIffContains` and `RemoveAllFirstMatch` together fix
      `RemoveAll`: a text without the pattern is unchanged, and otherwise the
      first occurrence is deleted and the scan goes on after it, so it is
      `gsub` and not a first-match-only `sub`.
    - For one-character patterns, `RemoveCharIsWithout` also equates it with
      `Without`, a reference definition of deleting one character.
- **`BalanceText`** (`balance_text.dfy`): the cleaning of the scraped balance
  text by three in-place deletions. The deletions remove `"GBP"`, then `£`,
  then `,`.
- **`Navigator`** (`navigator.dfy`): the browser agent.
  - The site is an oracle. It answers each request from the whole history of
    requests in the session, with a transport fault or with a page.
  - A page carries the raw texts under the four locators the script reads,
    and the names of its forms.
  - The `Agent` class keeps the request history. Its `Get` and `Submit`
    methods extend that history.
- **`Workflow`** (`workflow.dfy`): each step of a run as a pure function of
  the site and of the requests issued before it.
  - The steps are `LoginToPaypal`, `LogoutOfPaypal`, `CurrentBalance`,
    `DoWithdrawal`, the logged-in `Session` and the whole `Run`.
  - Each returns the requests it issues, the messages it outputs and how it
    ends: it returns a value, or an exception escapes (`Raised`).
  - `DisplayMode` and the three text extractors are also here.
- **`WorkflowProperties`** (`workflow_properties.dfy`): what the workflow
  promises, as lemmas about those functions.
  - Which landmark gates each step.
  - The three outcomes of a withdrawal.
  - The shape of a run's request trace: logout only after a successful
    login, exactly once and last; no withdrawal in balance-only mode; in
    sweep mode the withdrawal is handed the balance that was read.
- **`PaypalSweepApp`** (`paypal_sweep.dfy`): the `PaypalSweep` object.
  - Its fields are the settings, the agent and the output log.
  - Its methods issue their requests one by one through the agent and return
    early where the Ruby code does. `CurrentBalance` cleans the balance text
    in place.
  - Each method is proved to change the agent's history and the log exactly
    as the matching `Workflow` function says.

The clock reading is the `now` parameter. The two-decimal formatting
`sprintf("%.2f", text)` is the `format` parameter: a partial function, whose
failure stands for the exception that the `rescue` in `current_balance`
catches.

Two behaviours of the script are worth noting.

- **What is formatted.** `gsub!` changes `balance_text` in place (lines
  147-149), so `sprintf` on line 154 formats the cleaned text. The float
  computed on line 151 is never used. `CurrentBalanceFormatsCleanedText`
  states this.
- **Logout on failure.** The script logs out only when nothing escaped before
  line 63. An exception escaping `do_withdrawal` therefore skips the logout.
  `LoggedInRunLogsOutOnceLast` states both cases.

## Model

| member | source | states |
|---|---|---|
| `RubyText.LStrip` | paypal_sweep.rb:113 | the result is a suffix of the input; everything dropped is Ruby whitespace; the result does not start with whitespace |
| `RubyText.RStrip` | paypal_sweep.rb:113 | the result is a prefix of the input; everything dropped is Ruby whitespace; the result does not end with whitespace |
| `RubyText.LStripDropsLeading` | paypal_sweep.rb:113 | when `s[..i]` is all whitespace and `s[i]` is not, `lstrip` gives exactly `s[i..]` |
| `RubyText.RStripDropsTrailing` | paypal_sweep.rb:113 | when `s[j..]` is all whitespace and `s[j-1]` is not, `rstrip` gives exactly `s[..j]` |
| `RubyText.Strip` | paypal_sweep.rb:113 | `strip` never lengthens a text, and neither end of its result is whitespace |
| `RubyText.StripIsTrimmedSlice` | paypal_sweep.rb:118 | `strip` is exactly the slice framed by whitespace only that neither starts nor ends with whitespace |
| `RubyText.RemoveAll` | paypal_sweep.rb:147 | `gsub(p, '')` never lengthens the text |
| `RubyText.RemoveAllKeepsOthers` | paypal_sweep.rb:147-149 | the result of `gsub(p, '')` is a sub-multiset of the text and keeps every character not in the pattern as often as the text has it |
| `RubyText.RemoveAllFirstMatch` | paypal_sweep.rb:147 | when the first occurrence of `p` in `a + p + b` is the one right after `a`, `gsub(p, '')` gives `a` followed by `gsub(p, '')` of `b`: the first match is deleted and the scan carries on after it |
| `RubyText.RemoveAllChangesIffContains` | paypal_sweep.rb:147-149 | `gsub(p, '')` leaves the text unchanged when `p` does not occur in it, and otherwise shortens it |
| `RubyText.Without` | paypal_sweep.rb:148-149 | reference deletion of one character: the character is gone, and a text without it is unchanged |
| `RubyText.RemoveCharIsWithout` | paypal_sweep.rb:148-149 | `gsub` with a one-character pattern equals the reference deletion of that character |
| `BalanceText.CleanBalanceText` | paypal_sweep.rb:147-149 | after the three deletions, no comma and no pound sign remains, every character other than G, B, P, £ and comma is kept as often as the text has it, and the text is no longer than before |
| `BalanceText.CleanUnchangedIff` | paypal_sweep.rb:147-149 | the cleaning leaves a text unchanged if and only if it contains no "GBP", no pound sign and no comma |
| `BalanceText.CleanNotIdempotent` | paypal_sweep.rb:147-149 | cleaning "GGBPBP" gives "GBP", and cleaning that again gives "", so the cleaning is not idempotent |
| `BalanceText.CleanLeavesJoinedCode` | paypal_sweep.rb:147-149 | removing the comma from "G,BP" forms a "GBP" that the earlier pass did not see, and it survives |
| `BalanceText.CleanCodeExample` | paypal_sweep.rb:147-149 | "GBP1,234.5" cleans to "1234.5" |
| `BalanceText.CleanPoundExample` | paypal_sweep.rb:147-149 | "£2,500.00" cleans to "2500.00" |
| `Workflow.DisplayMode` | paypal_sweep.rb:122-128 | the banner is "[Mode] Balance and Sweep" if and only if sweep mode is set, and "[Mode] Balance only" otherwise |
| `Workflow.H1For` | paypal_sweep.rb:112-115 | the `td.heading h1` text stripped: no longer than the raw text and not framed by whitespace |
| `Workflow.HeadlineFor` | paypal_sweep.rb:117-120 | the `div#headline h2` text stripped: no longer than the raw text and not framed by whitespace |
| `Workflow.ErrorMessageFor` | paypal_sweep.rb:130-133 | the `div.messageBox.error p` text stripped: no longer than the raw text and not framed by whitespace |
| `Workflow.LoginToPaypal` | paypal_sweep.rb:82-102 | the requests of a login are a prefix of login-page fetch, form submit, overview fetch; a login that returns has issued all three |
| `Workflow.CurrentBalance` | paypal_sweep.rb:135-167 | every StandardError fault is rescued: the balance read always returns, after exactly one request and two messages, the first being "Retrieving account balance..." |
| `Workflow.DoWithdrawal` | paypal_sweep.rb:169-197 | the requests of a withdrawal are a prefix of page fetch, withdraw-form submit, confirmation submit; a withdrawal that returns has submitted the withdraw form |
| `Workflow.LogoutOfPaypal` | paypal_sweep.rb:104-110 | the logout issues only the logout-page fetch; it announces itself first and prints one more message exactly when it returns |
| `Workflow.Session` | paypal_sweep.rb:58-63 | the logged-in part (with `CloseSession`, the logout at line 63) starts with the balance fetch; in balance-only mode it is that fetch and the logout; when it returns it has logged out last and reports sweep mode exactly when it ran in it |
| `Workflow.Run` | paypal_sweep.rb:53-65 | every run first outputs the mode banner and first fetches the login page; a run that reports more than a failed login has logged out last |
| `WorkflowProperties.LoginSucceedsIff` | paypal_sweep.rb:82-102 | the login returns true if and only if all three requests are answered, the login form exists and the stripped overview heading is "My Account Overview"; a login that returns always fetched the overview after the submit |
| `WorkflowProperties.LoginRequests` | paypal_sweep.rb:86-95 | a login issues no request other than the login-page fetch, the submit of the login form with the user's credentials and the overview fetch |
| `WorkflowProperties.LoginMessages` | paypal_sweep.rb:83-100 | the login announces the attempt with the user's name, then prints "Login successful." on true and "Login failed." on false, and nothing more when it raises |
| `WorkflowProperties.LoginIgnoresSubmittedPage` | paypal_sweep.rb:87-93 | the page the login submit returns is not inspected: sites that differ only in that page's content give the same login |
| `WorkflowProperties.LogoutIsOneRequest` | paypal_sweep.rb:104-110 | the logout is the single logout-page fetch; it returns exactly when that fetch is answered, with "Logged out." printed only then |
| `WorkflowProperties.CurrentBalanceOutcomes` | paypal_sweep.rb:138-166 | a fault gives no balance with "Error attempting to retrieve balance."; a wrong headline gives no balance with "Unable to retrieve balance."; a formatter failure gives the error message; a balance is read if and only if the headline matched and the cleaned text formats, and it is that formatted text, printed with the clock reading |
| `WorkflowProperties.CurrentBalanceFormatsCleanedText` | paypal_sweep.rb:147-154 | it is the cleaned text that is formatted: balance texts that clean alike read alike |
| `WorkflowProperties.WithdrawalFailedIff` | paypal_sweep.rb:192-195 | Failed: returns false after exactly the page fetch and the withdraw submit if and only if the review headline is not "Review Withdraw Funds", with the stripped error-box text as its message |
| `WorkflowProperties.WithdrawalSucceededIff` | paypal_sweep.rb:178-186 | Success: returns true if and only if the review headline matched, the review page has a second form and the confirmation headline is "Your electronic funds transfer request is in process" |
| `WorkflowProperties.WithdrawalUnconfirmedIff` | paypal_sweep.rb:184-190 | Unconfirmed: returns false after three requests if and only if the confirmation was answered with another headline, which the message reports |
| `WorkflowProperties.ConfirmOnlyAfterReview` | paypal_sweep.rb:174-179 | the confirmation is submitted only after the review headline matched; every withdraw-form submission carries the amount; the withdrawal starts with a fresh page fetch and never logs out |
| `WorkflowProperties.RunStopsWithoutLogin` | paypal_sweep.rb:57-64 | when the login does not return true, the run issues only the login's requests: no balance read, no withdrawal and no logout |
| `WorkflowProperties.LogoutOnlyAfterLogin` | paypal_sweep.rb:57-64 | a logout request appears only in runs whose login returned true |
| `WorkflowProperties.SessionTrace` | paypal_sweep.rb:58-63 | the logged-in part issues the balance fetch, in sweep mode the withdrawal's requests, then the logout unless the withdrawal raised; what it reports |
| `WorkflowProperties.LoggedInRunTrace` | paypal_sweep.rb:57-64 | after a successful login, the run's requests are the login's followed by the session's, and the run ends as the session does |
| `WorkflowProperties.BalanceOnlyNeverWithdraws` | paypal_sweep.rb:58-62 | in balance-only mode a logged-in run issues exactly the login's requests, the balance fetch and the logout, and no run submits a withdrawal or a confirmation |
| `WorkflowProperties.SweepWithdrawsBalanceRead` | paypal_sweep.rb:58-59 | in sweep mode the withdrawal is given whatever the balance read returned, including no balance; it fetches the withdrawal page again; the run's full request trace and its report |
| `WorkflowProperties.LoggedInRunLogsOutOnceLast` | paypal_sweep.rb:57-64 | after a successful login, exactly one logout is issued, as the last request, unless the withdrawal raised; in that case there is no logout and the run raises |
| `Navigator.Agent.Get` | paypal_sweep.rb:86 | a fetch appends itself to the session's history and returns the site's answer to that history |
| `Navigator.Agent.Submit` | paypal_sweep.rb:176 | a submit appends itself to the session's history and returns the site's answer to that history |
| `PaypalSweepApp.PaypalSweep.constructor` | paypal_sweep.rb:32-50 | a fresh agent with an empty history, balance-only mode, empty credentials and nothing output |
| `PaypalSweepApp.PaypalSweep.ProcessArguments` | paypal_sweep.rb:70-74 | the credentials are taken from the flags; the sweep flag can switch sweep mode on, never off |
| `PaypalSweepApp.PaypalSweep.OutputMessage` | paypal_sweep.rb:76-80 | the message is appended to the output log |
| `PaypalSweepApp.PaypalSweep.Run` | paypal_sweep.rb:53-65 | processes the flags, then extends the history and the log, and ends, exactly as `Workflow.Run` describes |
| `PaypalSweepApp.PaypalSweep.RunSession` | paypal_sweep.rb:58-63 | extends the history and the log, and ends, exactly as `Workflow.Session` describes |
| `PaypalSweepApp.PaypalSweep.LoginToPaypal` | paypal_sweep.rb:82-102 | extends the history and the log, and ends, exactly as `Workflow.LoginToPaypal` describes |
| `PaypalSweepApp.PaypalSweep.LogoutOfPaypal` | paypal_sweep.rb:104-110 | extends the history and the log, and ends, exactly as `Workflow.LogoutOfPaypal` describes |
| `PaypalSweepApp.PaypalSweep.CurrentBalance` | paypal_sweep.rb:135-167 | cleans the balance text in place by the three deletions, and extends the history and the log exactly as `Workflow.CurrentBalance` describes, returning its balance |
| `PaypalSweepApp.PaypalSweep.DoWithdrawal` | paypal_sweep.rb:169-197 | extends the history and the log, and ends, exactly as `Workflow.DoWithdrawal` describes |

## Left out

- HTTP, cookies, SSL, the agent's configuration and HTML parsing through Mechanize and Nokogiri (lines 37-43): replaced by the site oracle. It gives, for each request, a fault or the raw texts under the four locators and the form names.
- Pages that are not HTML: any reply on which the script's `search` would raise is modelled as a fault, in the same way as a failed request.
- The page URLs (lines 27-30): opaque labels of the four pages.
- The logger, `puts` and the log file (lines 34-35, 76-80): every output message is appended to `log`, in order.
- `DateTime.now.strftime` (line 156): the `now` parameter.
- `to_f` and `sprintf("%.2f", …)` (lines 151, 154): floating point is out of scope. The formatting is the `format` parameter, and its failure is the rescued exception. The value computed on line 151 is never used.
- The OptiFlag declarations and `ARGV.flags` (lines 201-227): the `Settings` value passed to `Run`.
- `PaypalSweepApp.PaypalSweep.constructor`: the Ruby defaults `@user = false` and `@password = false` are modelled as empty strings, because `process_arguments` always replaces them before they are used.
- Field names of the login form (`login_email`, `login_password`) and of the withdrawal form (`amount`): a submission records the values it carries, not the fields. Mechanize raising on an unknown field is not modelled.
- Button choice on a submit (the first button of `forms[1]` on line 179): the confirmation submission is one action. A review page whose second form has no button is not modelled separately.
- Ruby's return values of `run` and `logout_of_paypal`, which no caller uses: `Run` reports a `Report` summary instead (not logged in, balance only, or swept with the withdrawal's result).
- `RubyText.Strip`: treats NUL as whitespace at both ends, as current Ruby does. Older Ruby versions stripped NUL only at the end.
- `Workflow.CurrentBalance`: `Fault` stands for the StandardError faults the navigator raises, which the bare `rescue` on line 163 catches. Exceptions outside StandardError (such as `Interrupt`, or `Timeout::Error` on Ruby 1.8) would escape `current_balance` and `run`; they are not modelled.
