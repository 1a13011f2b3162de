/**
 * The login form (`src/components/AdminLogin.tsx`). `handleSubmit` awaits
 * one `fetch`; it is split at that await into `BeginSubmit`, which builds
 * the request, and `FinishSubmit`, which consumes the response and returns
 * the flag handed to `onLogin`.
 */
module AdminLogin {
  import opened Wrappers
  import opened Json
  import opened Http
  import opened Session

  const LoginFailed: string := "Login failed"
  const UnexpectedError: string := "An unexpected error occurred"

  /** The POST to the login route with the form's credentials as its JSON body. */
  function LoginRequest(codec: Codec, email: string, password: string): (r: Request)
    ensures r.verb == "POST" && r.path == "/api/login" && r.authorization.None? && r.body.Text?
    ensures Lawful(codec) ==>
      var sent := codec.parse(r.body.text);
      && sent.Some? && sent.value.JObj?
      && Member(sent.value, "email") == Some(JStr(email))
      && Member(sent.value, "password") == Some(JStr(password))
  {
    Request("POST", "/api/login", None,
      Text(codec.stringify(JObj(map["email" := JStr(email), "password" := JStr(password)]))))
  }

  /** What a finished submission leaves: the `onLogin` flag, the error text, the token written. */
  datatype SubmitOutcome = SubmitOutcome(success: bool, error: string, stored: Option<string>)

  /**
   * The part of `handleSubmit` after the `fetch`: the body is read as JSON
   * first (a failure there, a network error, or a property read on `null`
   * is the unexpected-error path); a non-2xx answer shows `data.error` or
   * "Login failed"; a 2xx answer stores `String(data.access_token)`.
   */
  function Outcome(response: Fetch): (o: SubmitOutcome)
    ensures o.success <==> response.Responded? && IsOk(response.status) &&
                           response.json.Some? && !response.json.value.JNull?
    ensures o.success ==>
      o.stored == Some(JsString(Member(response.json.value, "access_token")))
    ensures !o.success ==> o.stored.None?
    ensures response.NetworkError? || response.json.None? || response.json.value.JNull? ==>
      !o.success && o.error == UnexpectedError
  {
    match response
    case NetworkError => SubmitOutcome(false, UnexpectedError, None)
    case Responded(status, json) =>
      if json.None? || json.value.JNull? then SubmitOutcome(false, UnexpectedError, None)
      else
        var data := json.value;
        if !IsOk(status) then
          var e := Member(data, "error");
          SubmitOutcome(false, if Truthy(e) then JsString(e) else LoginFailed, None)
        else
          SubmitOutcome(true, "", Some(JsString(Member(data, "access_token"))))
  }

  class LoginForm {
    const store: TokenStore
    const codec: Codec
    var email: string
    var password: string
    var showPassword: bool
    var loading: bool
    var error: string

    constructor (store: TokenStore, codec: Codec)
      ensures this.store == store && this.codec == codec
      ensures email == "" && password == "" && !showPassword && !loading && error == ""
    {
      this.store := store;
      this.codec := codec;
      email, password, showPassword, loading, error := "", "", false, false, "";
    }

    /** The submit button is disabled while a submission is in flight. */
    function SubmitDisabled(): (disabled: bool)
      reads this
      ensures disabled <==> loading
    {
      loading
    }

    /** Typing in the email field replaces the email and keeps the password. */
    method SetEmail(value: string)
      modifies this
      ensures email == value && password == old(password)
      ensures showPassword == old(showPassword) && loading == old(loading) && error == old(error)
    {
      email := value;
    }

    /** Typing in the password field replaces the password and keeps the email. */
    method SetPassword(value: string)
      modifies this
      ensures password == value && email == old(email)
      ensures showPassword == old(showPassword) && loading == old(loading) && error == old(error)
    {
      password := value;
    }

    /** The start of `handleSubmit`: loading on, error cleared, the login request built. */
    method BeginSubmit() returns (request: Request)
      modifies this
      ensures loading && error == "" && SubmitDisabled()
      ensures request == LoginRequest(codec, email, password)
      ensures email == old(email) && password == old(password) && showPassword == old(showPassword)
    {
      loading := true;
      error := "";
      request := LoginRequest(codec, email, password);
    }

    /**
     * The rest of `handleSubmit`: on success the token is written before
     * `onLogin(true)`; otherwise the error text is set and nothing is
     * written. Loading is off afterwards in every case.
     */
    method FinishSubmit(response: Fetch) returns (success: bool)
      modifies this, store
      ensures !loading && !SubmitDisabled()
      ensures success == Outcome(response).success
      ensures error == if success then old(error) else Outcome(response).error
      ensures store.token == if success then Outcome(response).stored else old(store.token)
      ensures email == old(email) && password == old(password) && showPassword == old(showPassword)
    {
      var o := Outcome(response);
      if o.success {
        store.token := o.stored;
      } else {
        error := o.error;
      }
      success := o.success;
      loading := false;
    }
  }

  /** A non-2xx answer whose body has no truthy `error` shows "Login failed". */
  lemma RejectedWithoutMessage(status: int, data: Json)
    requires !IsOk(status) && !data.JNull? && !Truthy(Member(data, "error"))
    ensures Outcome(Responded(status, Some(data))) == SubmitOutcome(false, LoginFailed, None)
  {
  }

  /** A non-2xx answer with a non-empty string `error` shows exactly that text. */
  lemma RejectedWithMessage(status: int, data: Json, message: string)
    requires !IsOk(status) && data.JObj? && "error" in data.fields && data.fields["error"] == JStr(message)
    requires message != ""
    ensures Outcome(Responded(status, Some(data))) == SubmitOutcome(false, message, None)
  {
  }

  /** A 2xx answer without `access_token` still logs in, storing the text "undefined". */
  lemma AcceptedWithoutToken(status: int, fields: map<string, Json>)
    requires IsOk(status) && "access_token" !in fields
    ensures Outcome(Responded(status, Some(JObj(fields)))) == SubmitOutcome(true, "", Some("undefined"))
  {
  }
}
