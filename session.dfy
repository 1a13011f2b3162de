/** The browser-local token store shared by the app, the login form and the editor. */
module Session {
  import opened Wrappers

  /** The `localStorage` entry `admin_token`: `None` when it is absent. */
  class TokenStore {
    var token: Option<string>

    constructor (initial: Option<string>)
      ensures token == initial
    {
      token := initial;
    }
  }

  /** `if (localStorage.getItem('admin_token'))`: present and not the empty string. */
  predicate HasToken(t: Option<string>) {
    t.Some? && t.value != ""
  }
}
