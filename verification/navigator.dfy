/**
 * The page navigator the sweep drives: a browser session against the
 * provider's site. The network, cookies and HTML parsing are replaced by a
 * site oracle that, given every request issued so far in the session,
 * answers the latest one with a transport fault or with a page, of which the
 * workflow only ever sees the raw texts under four locators and the names of
 * the page's forms.
 */
module Navigator {

  /** The four fixed pages of the site, as opaque labels. */
  datatype Url = LoginPage | LogoutPage | OverviewPage | WithdrawalPage

  /** What `current_balance` hands on: the formatted two-decimal balance, or
      Ruby's `false` when it could not be read. */
  datatype Balance = NoBalance | Amount(text: string)

  /** A filled-in form and the button clicked to submit it. */
  datatype Submission =
    | LoginForm(email: string, password: string)  // 'login_form', first button
    | WithdrawForm(amount: Balance)               // 'WithDrawForm', amount field
    | ConfirmForm                                 // second form on the review page, first button

  /** One request of the session: fetching a page or submitting a form. */
  datatype Action = Get(url: Url) | Submit(form: Submission)

  /** The answer to a request. A page carries the untrimmed inner text under
      `td.heading h1`, `div#headline h2`, `div.messageBox.error p` and the
      balance span, and the names of its forms, in document order. */
  datatype Reply =
    | Fault
    | Page(h1Text: string, headlineText: string, errorText: string,
           balanceText: string, forms: seq<string>)

  /** The site: the reply to the last request of a request history. */
  type Site = seq<Action> -> Reply

  /** The reply the site gives to the last request of `requests`. It is named
      so that the contracts of the agent's methods, and the workflow functions
      they are proved against, speak of a reply as a function of the requests
      alone, not of an arrow applied in a particular heap. */
  function Answer(site: Site, requests: seq<Action>): Reply {
    site(requests)
  }

  /** The browser agent: one session against one site, remembering the
      requests it has issued. */
  class Agent {
    const site: Site
    var history: seq<Action>

    constructor (site: Site)
      ensures this.site == site && history == []
    {
      this.site := site;
      history := [];
    }

    /** `@agent.get(url)` */
    method Get(url: Url) returns (reply: Reply)
      modifies this
      ensures history == old(history) + [Action.Get(url)]
      ensures reply == Answer(site, history)
    {
      history := history + [Action.Get(url)];
      reply := Answer(site, history);
    }

    /** `@agent.submit(form, button)`, and `click_button` on a form */
    method Submit(form: Submission) returns (reply: Reply)
      modifies this
      ensures history == old(history) + [Action.Submit(form)]
      ensures reply == Answer(site, history)
    {
      history := history + [Action.Submit(form)];
      reply := Answer(site, history);
    }
  }
}
