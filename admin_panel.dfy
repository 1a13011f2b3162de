/**
 * The JSON editor (`src/components/AdminPanel.tsx`). `saveContent` awaits
 * one `fetch`; it is split at that await into `BeginSave`, which runs the
 * guards and builds the PUT, and `FinishSave`, which consumes the response.
 * Between the two, `pending` holds the parsed document the awaiting code
 * will hand to `onContentUpdate`.
 */
module AdminPanel {
  import opened Wrappers
  import opened Json
  import opened Http
  import opened Session

  const InvalidJson: string := "Invalid JSON format. Please correct the syntax."
  const AuthError: string := "Authentication error. Please log in again."
  const Saved: string := "Content saved successfully!"
  const UnexpectedSaveError: string := "An unexpected error occurred while saving."

  /** The PUT of a document with the bearer token, as `saveContent` sends it. */
  function SaveRequest(codec: Codec, token: string, content: Json): (r: Request)
    ensures r.verb == "PUT" && r.path == "/portfolio" && r.authorization == Some("Bearer " + token)
    ensures r.body.Text? && (Lawful(codec) ==> codec.parse(r.body.text) == Some(content))
  {
    Request("PUT", "/portfolio", Some("Bearer " + token), Text(codec.stringify(content)))
  }

  /** The alert after the save request: success, the server's error, or the unexpected-error text. */
  function SaveAlert(response: Fetch): (text: string)
    ensures response.Responded? && IsOk(response.status) <==> text == Saved
  {
    match response
    case NetworkError => UnexpectedSaveError
    case Responded(status, json) =>
      if IsOk(status) then Saved
      else if json.None? || json.value.JNull? then UnexpectedSaveError
      else
        var e := Member(json.value, "error");
        var text := "Error saving content: " + (if Truthy(e) then JsString(e) else "Unknown error");
        assert text[0] != Saved[0];
        text
  }

  class Panel {
    const store: TokenStore
    const codec: Codec
    var jsonText: string
    var jsonError: Option<string>
    var saving: bool
    var token: Option<string>
    var pending: Option<Json>

    /** A save is in flight exactly when there is a document awaiting the response. */
    ghost predicate Valid()
      reads this
    {
      saving <==> pending.Some?
    }

    constructor (store: TokenStore, codec: Codec)
      ensures Valid() && this.store == store && this.codec == codec
      ensures jsonText == "" && jsonError.None? && !saving && token.None?
    {
      this.store := store;
      this.codec := codec;
      jsonText, jsonError, saving, token, pending := "", None, false, None, None;
    }

    /** The save button is disabled while saving or while the text is invalid. */
    function SaveDisabled(): (disabled: bool)
      reads this
      ensures jsonError.Some? ==> disabled
      ensures !disabled <==> !saving && jsonError.None?
    {
      saving || jsonError.Some?
    }

    /**
     * The mount effect: the editor shows the document serialised with
     * two-space indentation; the stored token is taken when there is one,
     * and otherwise the result asks the app to log out.
     */
    method Mount(content: Json) returns (logout: bool)
      requires Valid()
      modifies this
      ensures Valid()
      ensures jsonText == codec.stringifyIndented(content)
      ensures logout <==> !HasToken(store.token)
      ensures token == if logout then old(token) else store.token
      ensures jsonError == old(jsonError) && saving == old(saving) && pending == old(pending)
    {
      jsonText := codec.stringifyIndented(content);
      if HasToken(store.token) {
        token := store.token;
        logout := false;
      } else {
        logout := true;
      }
    }

    /** An edit: the text is replaced and the error is cleared exactly when the new text parses. */
    method HandleTextChange(text: string)
      requires Valid()
      modifies this
      ensures Valid()
      ensures jsonText == text
      ensures jsonError == if codec.parse(text).Some? then None else Some(InvalidJson)
      ensures SaveDisabled() <==> saving || codec.parse(text).None?
      ensures saving == old(saving) && token == old(token) && pending == old(pending)
    {
      jsonText := text;
      if codec.parse(text).Some? {
        jsonError := None;
      } else {
        jsonError := Some(InvalidJson);
      }
    }

    /**
     * The part of `saveContent` before the `fetch`. With an error shown or
     * no token it alerts and returns before any request; when the text does
     * not parse it ends on the unexpected-error alert. Otherwise it sends
     * the parsed document with the bearer token and waits, saving.
     */
    method BeginSave() returns (alert: Option<string>, request: Option<Request>)
      requires Valid() && !saving
      modifies this
      ensures Valid()
      ensures request.Some? <==>
        jsonError.None? && HasToken(token) && codec.parse(jsonText).Some?
      ensures request.Some? ==>
        && alert.None? && saving && pending == codec.parse(jsonText)
        && request.value == SaveRequest(codec, token.value, pending.value)
      ensures request.None? ==> !saving && alert.Some?
      ensures jsonError.Some? ==> alert == Some("Cannot save: " + jsonError.value)
      ensures jsonError.None? && !HasToken(token) ==> alert == Some(AuthError)
      ensures jsonError.None? && HasToken(token) && codec.parse(jsonText).None? ==>
        alert == Some(UnexpectedSaveError)
      ensures jsonText == old(jsonText) && jsonError == old(jsonError) && token == old(token)
    {
      request := None;
      if jsonError.Some? {
        alert := Some("Cannot save: " + jsonError.value);
        return;
      }
      if !HasToken(token) {
        alert := Some(AuthError);
        return;
      }
      saving := true;
      var parsed := codec.parse(jsonText);
      if parsed.None? {
        alert := Some(UnexpectedSaveError);
        saving := false;
        return;
      }
      pending := parsed;
      alert := None;
      request := Some(SaveRequest(codec, token.value, parsed.value));
    }

    /**
     * The part of `saveContent` after the `fetch`: a 2xx answer hands the
     * pending document to `onContentUpdate`; anything else hands nothing.
     * Saving is off afterwards in every case.
     */
    method FinishSave(response: Fetch) returns (alert: string, update: Option<Json>)
      requires Valid() && saving
      modifies this
      ensures Valid() && !saving
      ensures update == if response.Responded? && IsOk(response.status) then old(pending) else None
      ensures alert == SaveAlert(response)
      ensures jsonText == old(jsonText) && jsonError == old(jsonError) && token == old(token)
    {
      alert := SaveAlert(response);
      if response.Responded? && IsOk(response.status) {
        update := pending;
      } else {
        update := None;
      }
      saving := false;
      pending := None;
    }
  }

  /**
   * A panel mounted on `content` with a stored token and saved without
   * edits sends exactly `content`: the shown text parses back to it, the
   * button is enabled, and the request is the PUT of that document.
   */
  method UneditedSaveSendsShownDocument(codec: Codec, token: string, content: Json)
    returns (enabled: bool, request: Option<Request>)
    requires Lawful(codec) && token != ""
    ensures enabled
    ensures request == Some(SaveRequest(codec, token, content))
  {
    var store := new TokenStore(Some(token));
    var panel := new Panel(store, codec);
    var logout := panel.Mount(content);
    enabled := !panel.SaveDisabled();
    var alert;
    alert, request := panel.BeginSave();
  }
}
