/**
 * The page component (`src/App.tsx`): content loading, the admin session
 * with its inactivity timer, which view is shown, and the small display
 * helpers. Time is a discrete millisecond clock; the inactivity timer is
 * the one deadline it holds.
 */
module App {
  import opened Wrappers
  import opened Json
  import opened Http
  import opened Session
  import opened Strings
  import AdminLogin
  import AdminPanel

  /** Five minutes, in milliseconds. */
  const InactivityTimeout: nat := 5 * 60 * 1000

  /** How many certifications are shown before the list is expanded. */
  const CertificationsPreview: nat := 6

  const InactivityNotice: string := "You have been logged out due to 5 minutes of inactivity."

  /** What the page renders, in the order the component tests for it. */
  datatype View = LoadingScreen | LoginView | PanelView | HomePage(adminControls: bool)

  /**
   * The content after `loadPortfolioData`: the response body on a 2xx answer
   * whose body parses, and the bundled document on any other answer or
   * error.
   */
  function LoadedContent(response: Fetch, bundled: Json): (c: Json)
    ensures response.Responded? && IsOk(response.status) && response.json.Some? ==>
      c == response.json.value
    ensures !(response.Responded? && IsOk(response.status) && response.json.Some?) ==>
      c == bundled
  {
    match response
    case Responded(status, json) =>
      if IsOk(status) && json.Some? then json.value else bundled
    case NetworkError => bundled
  }

  /** The icons a social link can show. */
  datatype Icon = GithubIcon | LinkedinIcon | TwitterIcon

  /** `getSocialIcon`: 'linkedin' and 'twitter' have their own icons; every other name shows GitHub. */
  function SocialIcon(name: string): (icon: Icon)
    ensures icon == LinkedinIcon <==> name == "linkedin"
    ensures icon == TwitterIcon <==> name == "twitter"
    ensures icon == GithubIcon <==> name != "linkedin" && name != "twitter"
  {
    if name == "github" then GithubIcon
    else if name == "linkedin" then LinkedinIcon
    else if name == "twitter" then TwitterIcon
    else GithubIcon
  }

  /** `key.charAt(0).toUpperCase() + key.slice(1)`: only the first character changes. */
  function LinkLabel(key: string): (caption: string)
    ensures |caption| == |key|
    ensures forall i :: 1 <= i < |key| ==> caption[i] == key[i]
    ensures |key| > 0 ==> caption[0] == UpperChar(key[0])
  {
    if key == "" then "" else [UpperChar(key[0])] + key[1..]
  }

  /** Capitalising a label twice changes nothing more. */
  lemma LinkLabelIdempotent(key: string)
    ensures LinkLabel(LinkLabel(key)) == LinkLabel(key)
  {
  }

  function Min(a: nat, b: nat): nat {
    if a <= b then a else b
  }

  /**
   * `certifications.slice(0, showAll ? length : 6)`: a prefix of the list,
   * all of it once expanded and at most six before.
   */
  function VisibleCertifications<T>(certs: seq<T>, showAll: bool): (shown: seq<T>)
    ensures |shown| == if showAll then |certs| else Min(CertificationsPreview, |certs|)
    ensures shown == certs[..|shown|]
  {
    if showAll || |certs| <= CertificationsPreview then certs else certs[..CertificationsPreview]
  }

  /** The control under the certification list. */
  datatype CertificationControl = NoControl | ShowMoreButton | LinkedInLink

  /** "Show More" while collapsed and more than six exist; the LinkedIn link once expanded. */
  function CertificationFooter(count: nat, showAll: bool): (c: CertificationControl)
    ensures c == ShowMoreButton <==> count > CertificationsPreview && !showAll
    ensures c == LinkedInLink <==> count > CertificationsPreview && showAll
  {
    if count > CertificationsPreview then (if showAll then LinkedInLink else ShowMoreButton)
    else NoControl
  }

  /** Whenever "Show More" is offered, some certification is hidden, and expanding shows them all. */
  lemma ShowMoreRevealsAll<T>(certs: seq<T>)
    requires CertificationFooter(|certs|, false) == ShowMoreButton
    ensures |VisibleCertifications(certs, false)| < |certs|
    ensures VisibleCertifications(certs, true) == certs
  {
  }

  /** The component's state; `store` is the browser's token entry. */
  class Portfolio {
    const store: TokenStore
    const bundled: Json
    var content: Json
    var showAllCertifications: bool
    var isAdmin: bool
    var showAdminLogin: bool
    var showAdminPanel: bool
    var isLoading: bool
    var now: nat
    var deadline: Option<nat>
    var alerts: seq<string>

    /**
     * The inactivity timer is armed exactly while the user is an admin, and
     * an armed deadline lies in the future, at most five minutes away.
     */
    ghost predicate Valid()
      reads this
    {
      && (isAdmin <==> deadline.Some?)
      && (deadline.Some? ==> now < deadline.value <= now + InactivityTimeout)
    }

    constructor (store: TokenStore, bundled: Json, start: nat)
      ensures Valid() && this.store == store && this.bundled == bundled
      ensures content == bundled && isLoading && now == start && alerts == []
      ensures !showAllCertifications && !isAdmin && !showAdminLogin && !showAdminPanel
    {
      this.store := store;
      this.bundled := bundled;
      content := bundled;
      showAllCertifications, isAdmin, showAdminLogin, showAdminPanel := false, false, false, false;
      isLoading := true;
      now := start;
      deadline := None;
      alerts := [];
    }

    /** What is rendered: loading screen, then login view, then the panel (admins only), else the page. */
    function View(): (v: View)
      reads this
      ensures v == PanelView ==> isAdmin && showAdminPanel
      ensures isLoading <==> v == LoadingScreen
      ensures !isLoading && showAdminLogin ==> v == LoginView
      ensures !isLoading && !showAdminLogin && showAdminPanel && isAdmin ==> v == PanelView
      ensures v.HomePage? ==> !isLoading && !showAdminLogin && !(showAdminPanel && isAdmin)
      ensures v.HomePage? ==> v.adminControls == isAdmin
      ensures v == LoginView ==> !isLoading && showAdminLogin
      ensures !isLoading && !showAdminLogin && !(showAdminPanel && isAdmin) ==> v == HomePage(isAdmin)
    {
      if isLoading then LoadingScreen
      else if showAdminLogin then LoginView
      else if showAdminPanel && isAdmin then PanelView
      else HomePage(isAdmin)
    }

    /**
     * `setIsAdmin(b)` together with the effect keyed on `isAdmin`: a change
     * to true arms the timer five minutes ahead, a change to false clears
     * it, and no change leaves it alone.
     */
    method SetAdmin(b: bool)
      requires Valid()
      modifies this
      ensures Valid() && isAdmin == b
      ensures deadline == if b == old(isAdmin) then old(deadline)
                          else if b then Some(now + InactivityTimeout) else None
      ensures content == old(content) && isLoading == old(isLoading) && now == old(now)
      ensures showAdminLogin == old(showAdminLogin) && showAdminPanel == old(showAdminPanel)
      ensures showAllCertifications == old(showAllCertifications) && alerts == old(alerts)
    {
      if b != isAdmin {
        isAdmin := b;
        deadline := if b then Some(now + InactivityTimeout) else None;
      }
    }

    /** `loadPortfolioData`: the content per the answer, and loading off in every case. */
    method LoadPortfolioData(response: Fetch)
      requires Valid()
      modifies this
      ensures Valid()
      ensures content == LoadedContent(response, bundled) && !isLoading
      ensures isAdmin == old(isAdmin) && deadline == old(deadline) && now == old(now)
      ensures showAdminLogin == old(showAdminLogin) && showAdminPanel == old(showAdminPanel)
      ensures showAllCertifications == old(showAllCertifications) && alerts == old(alerts)
    {
      isLoading := true;
      content := LoadedContent(response, bundled);
      isLoading := false;
    }

    /** The mount effect: admin when a token is stored, then the content is loaded. */
    method Mount(response: Fetch)
      requires Valid()
      modifies this
      ensures Valid()
      ensures isAdmin == (old(isAdmin) || HasToken(store.token))
      ensures isAdmin && !old(isAdmin) ==> deadline == Some(now + InactivityTimeout)
      ensures old(isAdmin) || !HasToken(store.token) ==> deadline == old(deadline)
      ensures content == LoadedContent(response, bundled) && !isLoading
      ensures now == old(now) && alerts == old(alerts) && showAllCertifications == old(showAllCertifications)
      ensures showAdminLogin == old(showAdminLogin) && showAdminPanel == old(showAdminPanel)
    {
      if HasToken(store.token) {
        SetAdmin(true);
      }
      LoadPortfolioData(response);
    }

    /**
     * `handleAdminLogout`: the token is removed, the user is no longer an
     * admin, the panel is hidden and the timer cleared; the inactivity
     * notice is raised only for an automatic logout.
     */
    method HandleAdminLogout(isAutoLogout: bool)
      requires Valid()
      modifies this, store
      ensures Valid()
      ensures store.token.None? && !isAdmin && !showAdminPanel && deadline.None?
      ensures alerts == old(alerts) + (if isAutoLogout then [InactivityNotice] else [])
      ensures content == old(content) && isLoading == old(isLoading) && now == old(now)
      ensures showAdminLogin == old(showAdminLogin) && showAllCertifications == old(showAllCertifications)
    {
      store.token := None;
      SetAdmin(false);
      showAdminPanel := false;
      if isAutoLogout {
        alerts := alerts + [InactivityNotice];
      }
    }

    /**
     * `handleAdminLogin`: admin exactly on success; the login view closes
     * either way and the panel opens only on success.
     */
    method HandleAdminLogin(success: bool)
      requires Valid()
      modifies this
      ensures Valid()
      ensures isAdmin == success && !showAdminLogin
      ensures showAdminPanel == (success || old(showAdminPanel))
      ensures deadline == if success == old(isAdmin) then old(deadline)
                          else if success then Some(now + InactivityTimeout) else None
      ensures content == old(content) && isLoading == old(isLoading) && now == old(now)
      ensures alerts == old(alerts) && showAllCertifications == old(showAllCertifications)
    {
      SetAdmin(success);
      showAdminLogin := false;
      if success {
        showAdminPanel := true;
      }
    }

    /**
     * A `mousemove`, `keydown`, `click`, `scroll` or `touchstart`: while
     * admin it re-arms the one timer five minutes from now, replacing the
     * earlier deadline; otherwise no listener is attached.
     */
    method Interact()
      requires Valid()
      modifies this
      ensures Valid()
      ensures deadline == if isAdmin then Some(now + InactivityTimeout) else None
      ensures isAdmin == old(isAdmin) && now == old(now) && content == old(content)
      ensures isLoading == old(isLoading) && alerts == old(alerts)
      ensures showAdminLogin == old(showAdminLogin) && showAdminPanel == old(showAdminPanel)
      ensures showAllCertifications == old(showAllCertifications)
    {
      if isAdmin {
        deadline := Some(now + InactivityTimeout);
      }
    }

    /**
     * Time passes by `elapsed` milliseconds. The timer fires, logging out
     * automatically, exactly when its deadline is reached in that span;
     * otherwise only the clock moves.
     */
    method Elapse(elapsed: nat)
      requires Valid()
      modifies this, store
      ensures Valid()
      ensures now == old(now) + elapsed
      ensures var fired := old(deadline).Some? && old(deadline).value <= now;
        && (fired ==> !isAdmin && store.token.None? && !showAdminPanel && deadline.None?
                      && alerts == old(alerts) + [InactivityNotice])
        && (!fired ==> isAdmin == old(isAdmin) && deadline == old(deadline) && alerts == old(alerts)
                       && showAdminPanel == old(showAdminPanel) && store.token == old(store.token))
      ensures content == old(content) && isLoading == old(isLoading)
      ensures showAdminLogin == old(showAdminLogin) && showAllCertifications == old(showAllCertifications)
    {
      if deadline.Some? && deadline.value <= now + elapsed {
        HandleAdminLogout(true);
      }
      now := now + elapsed;
    }

    /** The settings button shown to visitors opens the login view. */
    method OpenAdminLogin()
      requires Valid()
      modifies this
      ensures Valid() && showAdminLogin
      ensures isAdmin == old(isAdmin) && deadline == old(deadline) && showAdminPanel == old(showAdminPanel)
      ensures content == old(content) && isLoading == old(isLoading) && now == old(now) && alerts == old(alerts)
      ensures showAllCertifications == old(showAllCertifications)
    {
      showAdminLogin := true;
    }

    /** The login view's close button. */
    method CloseAdminLogin()
      requires Valid()
      modifies this
      ensures Valid() && !showAdminLogin
      ensures isAdmin == old(isAdmin) && deadline == old(deadline) && showAdminPanel == old(showAdminPanel)
      ensures content == old(content) && isLoading == old(isLoading) && now == old(now) && alerts == old(alerts)
      ensures showAllCertifications == old(showAllCertifications)
    {
      showAdminLogin := false;
    }

    /** The edit button shown to admins opens the panel. */
    method OpenAdminPanel()
      requires Valid()
      modifies this
      ensures Valid() && showAdminPanel
      ensures isAdmin == old(isAdmin) && deadline == old(deadline) && showAdminLogin == old(showAdminLogin)
      ensures content == old(content) && isLoading == old(isLoading) && now == old(now) && alerts == old(alerts)
      ensures showAllCertifications == old(showAllCertifications)
    {
      showAdminPanel := true;
    }

    /** The panel's close button. */
    method CloseAdminPanel()
      requires Valid()
      modifies this
      ensures Valid() && !showAdminPanel
      ensures isAdmin == old(isAdmin) && deadline == old(deadline) && showAdminLogin == old(showAdminLogin)
      ensures content == old(content) && isLoading == old(isLoading) && now == old(now) && alerts == old(alerts)
      ensures showAllCertifications == old(showAllCertifications)
    {
      showAdminPanel := false;
    }

    /** "Show More Certifications". */
    method ExpandCertifications()
      requires Valid()
      modifies this
      ensures Valid() && showAllCertifications
      ensures isAdmin == old(isAdmin) && deadline == old(deadline) && content == old(content)
      ensures showAdminLogin == old(showAdminLogin) && showAdminPanel == old(showAdminPanel)
      ensures isLoading == old(isLoading) && now == old(now) && alerts == old(alerts)
    {
      showAllCertifications := true;
    }

    /**
     * The login form's answer reaches `handleAdminLogin`: a success has
     * stored the token and leaves the user an admin looking at the panel; a
     * failure stores nothing and leaves the user a visitor.
     */
    method FinishLogin(form: AdminLogin.LoginForm, response: Fetch) returns (success: bool)
      requires Valid() && form.store == store
      modifies this, form, store
      ensures Valid()
      ensures success == AdminLogin.Outcome(response).success
      ensures isAdmin == success && !showAdminLogin && !form.loading
      ensures success ==> store.token == AdminLogin.Outcome(response).stored && showAdminPanel
      ensures !success ==> store.token == old(store.token) && showAdminPanel == old(showAdminPanel)
      ensures deadline == if success == old(isAdmin) then old(deadline)
                          else if success then Some(now + InactivityTimeout) else None
      ensures content == old(content) && isLoading == old(isLoading) && alerts == old(alerts)
      ensures now == old(now) && showAllCertifications == old(showAllCertifications)
    {
      success := form.FinishSubmit(response);
      HandleAdminLogin(success);
    }

    /**
     * The panel mounts on the current content; without a stored token it
     * calls `onLogout`, which ends the admin session.
     */
    method MountPanel(panel: AdminPanel.Panel)
      requires Valid() && panel.Valid() && panel.store == store
      modifies this, panel, store
      ensures Valid() && panel.Valid()
      ensures panel.jsonText == panel.codec.stringifyIndented(content)
      ensures panel.saving == old(panel.saving) && panel.jsonError == old(panel.jsonError)
      ensures !HasToken(old(store.token)) ==>
        !isAdmin && !showAdminPanel && store.token.None? && View() != PanelView
      ensures HasToken(old(store.token)) ==>
        isAdmin == old(isAdmin) && showAdminPanel == old(showAdminPanel) && store.token == old(store.token)
        && deadline == old(deadline) && panel.token == store.token
      ensures content == old(content) && alerts == old(alerts) && now == old(now) && isLoading == old(isLoading)
      ensures showAdminLogin == old(showAdminLogin) && showAllCertifications == old(showAllCertifications)
    {
      var logout := panel.Mount(content);
      if logout {
        HandleAdminLogout(false);
      }
    }

    /**
     * The save request's answer: on a 2xx the app's content becomes exactly
     * the document that was sent, and the re-rendered panel shows it again;
     * otherwise the content is unchanged.
     */
    method FinishSave(panel: AdminPanel.Panel, response: Fetch) returns (alert: string)
      requires Valid() && panel.Valid() && panel.saving && panel.store == store
      modifies this, panel, store
      ensures Valid() && panel.Valid() && !panel.saving
      ensures response.Responded? && IsOk(response.status) ==>
        content == old(panel.pending).value && panel.jsonText == panel.codec.stringifyIndented(content)
      ensures !(response.Responded? && IsOk(response.status)) ==>
        content == old(content) && isAdmin == old(isAdmin) && store.token == old(store.token)
        && deadline == old(deadline) && showAdminPanel == old(showAdminPanel)
      ensures response.Responded? && IsOk(response.status) && HasToken(old(store.token)) ==>
        isAdmin == old(isAdmin) && deadline == old(deadline) && showAdminPanel == old(showAdminPanel)
        && store.token == old(store.token)
      ensures response.Responded? && IsOk(response.status) && !HasToken(old(store.token)) ==>
        !isAdmin && !showAdminPanel && store.token.None? && deadline.None?
      ensures alerts == old(alerts) && now == old(now) && isLoading == old(isLoading)
      ensures showAdminLogin == old(showAdminLogin) && showAllCertifications == old(showAllCertifications)
      ensures alert == AdminPanel.SaveAlert(response)
    {
      var update;
      alert, update := panel.FinishSave(response);
      if update.Some? {
        content := update.value;
        MountPanel(panel);
      }
    }
  }
}
