/**
 * The editor and the worker together: a document saved from the admin
 * panel is what the page loads next.
 */
module EndToEnd {
  import opened Wrappers
  import opened Json
  import opened Http
  import opened Strings
  import Worker
  import AdminPanel
  import AdminLogin
  import App

  /** The page's `GET /portfolio`. */
  const LoadRequest: Request := Request("GET", "/portfolio", None, Text(""))

  /** What the browser's `fetch` hands the page for a worker response. */
  function Received(r: Response): (f: Fetch)
    ensures f.Responded? && f.status == r.status && f.json == r.body
  {
    Responded(r.status, r.body)
  }

  /**
   * With a lawful codec, a live store and a token the identity provider
   * accepts, the panel's save request is answered 200, and the page's next
   * load shows the saved document, or the fallback document when the saved
   * one is falsy.
   */
  lemma SavedDocumentIsLoaded(token: string, v: Json, stores: Worker.Stores, env: Worker.Env, bundled: Json)
    requires Lawful(env.codec) && env.kvUp
    requires token != "" && ' ' !in token && env.identity.getUser(token).Some?
    ensures var saved := Worker.Handle(AdminPanel.SaveRequest(env.codec, token, v), stores, env);
      && saved.response.status == 200
      && App.LoadedContent(Received(Worker.Handle(LoadRequest, saved.stores, env).response), bundled)
         == if Truthy(Some(v)) then v else env.defaultContent
  {
    var put := AdminPanel.SaveRequest(env.codec, token, v);
    Worker.BearerTokenOfHeader("Bearer", token, "");
    assert "Bearer " == "Bearer" + " ";
    assert put.authorization == Some("Bearer" + " " + token);
    assert Worker.Authorized(put, env);
    assert Worker.ReadJson(put.body, env.codec) == Some(v);
    var after := Worker.PutPortfolio(put, stores, env);
    assert Worker.Handle(put, stores, env) == after;
    Worker.PutThenGet(put, LoadRequest, stores, env);
  }

  /**
   * With a lawful codec, the login form's request reaches the identity
   * provider with the typed email and password; the form succeeds exactly
   * when the provider issues a session for a user, and then stores the
   * token the provider issued.
   */
  lemma LoginStoresIssuedToken(email: string, password: string, stores: Worker.Stores, env: Worker.Env)
    requires Lawful(env.codec)
    ensures var r := Worker.Handle(AdminLogin.LoginRequest(env.codec, email, password), stores, env).response;
      var issued := env.identity.signIn(Some(JStr(email)), Some(JStr(password)));
      && (AdminLogin.Outcome(Received(r)).success <==>
            issued.error.None? && issued.accessToken.Some? && issued.user.Some?)
      && (AdminLogin.Outcome(Received(r)).success ==>
            AdminLogin.Outcome(Received(r)).stored == Some(issued.accessToken.value))
  {
    var req := AdminLogin.LoginRequest(env.codec, email, password);
    assert Worker.Handle(req, stores, env) == Worker.Served(Worker.Login(req, env), stores);
    assert Worker.Credentials(req, env).Some?;
  }
}
