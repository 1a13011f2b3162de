/**
 * The edge API (`worker/index.ts`): one dispatcher from a request to a
 * response. The key-value namespace is a map from key to the JSON value
 * stored under it, the object bucket a map from file name to the metadata
 * written with it, and the identity provider an oracle.
 */
module Worker {
  import opened Wrappers
  import opened Json
  import opened Strings
  import opened Http

  /** The one key under which the portfolio document is stored. */
  const PortfolioKey: string := "portfolio_data"

  /** The headers of the CORS preflight answer. */
  const CorsHeaders: map<string, string> := map[
    "Access-Control-Allow-Origin" := "*",
    "Access-Control-Allow-Methods" := "GET, POST, PUT, DELETE, OPTIONS",
    "Access-Control-Allow-Headers" := "Content-Type, Authorization"]

  /** The headers of every JSON answer: the CORS headers and the JSON content type. */
  const JsonHeaders: map<string, string> := CorsHeaders["Content-Type" := "application/json"]

  /** Base of the public URL handed back for an uploaded image. */
  const PublicBase: string := "https://your-r2-domain.com/"

  /** Cache policy written with every uploaded image. */
  const ImageCacheControl: string := "public, max-age=31536000"

  /** A user known to the identity provider. */
  datatype User = User(id: string, email: string)

  /** What a password sign-in gives: an error message, or a session token and a user. */
  datatype SignInResult = SignInResult(error: Option<string>, accessToken: Option<string>, user: Option<User>)

  /**
   * The identity provider. `getUser` is `None` when it reports an error or no
   * user; `createUser` gives the error message of a failed registration.
   * Email, password and name are passed as read from the body (`None` for `undefined`).
   */
  datatype Identity = Identity(
    getUser: string -> Option<User>,
    signIn: (Option<Json>, Option<Json>) -> SignInResult,
    createUser: (Option<Json>, Option<Json>, Option<Json>) -> Option<string>)

  /** What the bucket keeps of an uploaded image. */
  datatype StoredFile = StoredFile(contentType: string, cacheControl: string)

  /** The two stores the worker writes. */
  datatype Stores = Stores(kv: map<string, Json>, bucket: map<string, StoredFile>)

  /**
   * Everything else a request may depend on: the JSON codec, the identity
   * provider, whether each store answers or throws, the clock's ISO text,
   * the unique `<time>-<random>` prefix of an upload's file name, and the
   * document `getDefaultContent()` returns (`Deployed` pins it to
   * `DefaultContent()`; the handlers take it from here so that the long
   * literal stays out of the proofs about them).
   */
  datatype Env = Env(
    codec: Codec, identity: Identity, kvUp: bool, bucketUp: bool,
    now: string, uniquePrefix: string, defaultContent: Json)

  /** The worker as deployed: its fallback document is the built-in one. */
  predicate Deployed(env: Env) {
    env.defaultContent == DefaultContent()
  }

  /** A response together with the stores after the request. */
  datatype Served = Served(response: Response, stores: Stores)

  /** `jsonResponse(data, status = 200)`: the body with CORS and JSON content-type headers. */
  function JsonResponse(data: Json, status: int := 200): (r: Response)
    ensures r.status == status && r.body == Some(data) && r.headers == JsonHeaders
  {
    Response(status, JsonHeaders, Some(data))
  }

  /** `{ error: message }`. */
  function ErrorBody(message: string): Json {
    Obj1("error", JStr(message))
  }

  /** One entry of the default social links. */
  function SocialLink(name: string, url: string, icon: string): Json {
    JObj(map["name" := JStr(name), "url" := JStr(url), "icon" := JStr(icon)])
  }

  /** The default hero tagline. */
  function DefaultTagline(): string {
    "<strong>GSoC Contributor</strong> • <strong>ICPC Regionalist</strong> • <strong>SIH Grand Finalist</strong>"
  }

  /** The default hero subtitle. */
  function DefaultSubtitle(): string {
    "Building scalable solutions at the intersection of algorithms and innovation."
  }

  /** The default hero biography. */
  function DefaultBio(): string {
    "Focused on transforming complex technical challenges into elegant, production-ready systems."
  }

  /** The default social links. */
  function DefaultSocials(): seq<Json> {
    [ SocialLink("GitHub", "https://github.com/vididvidid/", "github"),
      SocialLink("LinkedIn", "https://www.linkedin.com/in/yash-kumar-kasaudhan/", "linkedin"),
      SocialLink("Twitter", "https://x.com/yashKumarKasau", "twitter") ]
  }

  /** `getDefaultContent()`: the hero section alone. */
  function DefaultContent(): (c: Json)
    ensures c.JObj? && c.fields.Keys == {"hero"} && c.fields["hero"] == DefaultHero()
  {
    JObj(map["hero" := DefaultHero()])
  }

  /** The default hero: name, tagline, subtitle, biography and three social links. */
  function DefaultHero(): Json {
    JObj(map[
      "name" := JStr("Yash Kumar Kasaudhan"),
      "tagline" := JStr(DefaultTagline()),
      "subtitle" := JStr(DefaultSubtitle()),
      "bio" := JStr(DefaultBio()),
      "socials" := JArr(DefaultSocials())])
  }

  /**
   * `authorization?.split(' ')[1]`, taken only when it is a non-empty
   * string. The scheme word before the space is not checked.
   */
  function BearerToken(authorization: Option<string>): (t: Option<string>)
    ensures t.Some? ==> t.value != "" && ' ' !in t.value
    ensures authorization.None? ==> t.None?
    ensures authorization.Some? && ' ' !in authorization.value ==> t.None?
  {
    match authorization
    case None => None
    case Some(h) =>
      var parts := Split(h, ' ');
      if |parts| >= 2 && parts[1] != "" then Some(parts[1]) else None
  }

  /** The token of `<scheme> <token>`, with or without further space-separated words. */
  lemma BearerTokenOfHeader(scheme: string, token: string, rest: string)
    requires ' ' !in scheme && ' ' !in token && token != ""
    ensures BearerToken(Some(scheme + " " + token)) == Some(token)
    ensures BearerToken(Some(scheme + " " + token + " " + rest)) == Some(token)
  {
    SplitCons(scheme, ' ', token);
    SplitJoin([token], ' ');
    assert scheme + " " + token + " " + rest == scheme + [' '] + (token + [' '] + rest);
    SplitCons(scheme, ' ', token + [' '] + rest);
    SplitCons(token, ' ', rest);
  }

  /** Two spaces after the scheme leave an empty second piece: no token. */
  lemma BearerTokenDoubleSpace(scheme: string, token: string)
    requires ' ' !in scheme
    ensures BearerToken(Some(scheme + "  " + token)) == None
  {
    assert scheme + "  " + token == scheme + [' '] + ("" + [' '] + token);
    SplitCons(scheme, ' ', "" + [' '] + token);
    SplitCons("", ' ', token);
  }

  /** `image.name.split('.').pop() || 'jpg'`. */
  function FileExtension(name: string): (ext: string)
    ensures ext != "" && '.' !in ext
  {
    var parts := Split(name, '.');
    var last := parts[|parts| - 1];
    assert '.' !in last;
    if last == "" then "jpg" else last
  }

  /** Joining one more piece appends a separator and the piece. */
  lemma {:induction false} JoinSnoc(parts: seq<string>, sep: char, x: string)
    requires |parts| >= 1
    ensures Join(parts + [x], sep) == Join(parts, sep) + [sep] + x
  {
    if |parts| > 1 {
      assert (parts + [x])[1..] == parts[1..] + [x];
      JoinSnoc(parts[1..], sep, x);
    }
  }

  /**
   * The extension is the text after the last dot, whatever the name holds
   * before it; a name without a dot is its own extension.
   */
  lemma ExtensionAfterLastDot(base: string, ext: string)
    requires '.' !in ext && ext != ""
    ensures FileExtension(base + "." + ext) == ext
    ensures base != "" && '.' !in base ==> FileExtension(base) == base
  {
    var parts := Split(base, '.');
    JoinSnoc(parts, '.', ext);
    assert SepFree(parts + [ext], '.');
    SplitJoin(parts + [ext], '.');
    if '.' !in base {
      assert Split(base, '.') == [base];
    }
  }

  /** An empty name falls back to `jpg`. */
  lemma ExtensionOfEmptyName()
    ensures FileExtension("") == "jpg"
  {
    assert Split("", '.') == [""];
  }

  /** A name ending in a dot falls back to `jpg`. */
  lemma ExtensionOfTrailingDot(base: string)
    ensures FileExtension(base + ".") == "jpg"
  {
    var parts := Split(base, '.');
    JoinSnoc(parts, '.', "");
    assert base + "." == Join(parts + [""], '.');
    assert SepFree(parts + [""], '.');
    SplitJoin(parts + [""], '.');
  }

  /** `req.json()`: the parsed text body; a form body, or text that does not parse, throws. */
  function ReadJson(body: Body, codec: Codec): (r: Option<Json>)
    ensures body.Form? ==> r.None?
    ensures body.Text? ==> r == codec.parse(body.text)
  {
    match body
    case Text(t) => codec.parse(t)
    case Form(_) => None
  }

  /** A bearer token is present and the identity provider knows its user. */
  predicate Authorized(req: Request, env: Env) {
    var token := BearerToken(req.authorization);
    token.Some? && env.identity.getUser(token.value).Some?
  }

  /** The answer to every `OPTIONS` request: 200, the CORS headers and a `null` body. */
  function Preflight(): (r: Response)
    ensures r.status == 200 && r.body.None? && r.headers == CorsHeaders
  {
    Response(200, CorsHeaders, None)
  }

  /**
   * GET /portfolio: the stored document when the store answers and holds a
   * truthy value under the key, otherwise the default document. Never an
   * error status, never an empty body.
   */
  function GetPortfolio(stores: Stores, env: Env): (r: Response)
    ensures r.status == 200 && r.body.Some?
    ensures r.body.value == env.defaultContent || Truthy(r.body)
    ensures r.body.value != env.defaultContent ==>
      env.kvUp && PortfolioKey in stores.kv && r.body.value == stores.kv[PortfolioKey]
    ensures env.kvUp && PortfolioKey in stores.kv && Truthy(Some(stores.kv[PortfolioKey])) ==>
      r.body == Some(stores.kv[PortfolioKey])
  {
    if env.kvUp && PortfolioKey in stores.kv && Truthy(Some(stores.kv[PortfolioKey])) then
      JsonResponse(stores.kv[PortfolioKey])
    else
      JsonResponse(env.defaultContent)
  }

  /**
   * PUT /portfolio: 401 without a token or when the provider rejects it,
   * 500 when the body is not JSON or the store throws; otherwise the body
   * is stored under the key and the answer is 200. Only the 200 path
   * writes.
   */
  function PutPortfolio(req: Request, stores: Stores, env: Env): (out: Served)
    ensures !Authorized(req, env) ==> out.response.status == 401 && out.stores == stores
    ensures out.response.status in {200, 401, 500}
    ensures out.response.status == 401 <==> !Authorized(req, env)
    ensures out.response.status == 200 <==>
      Authorized(req, env) && ReadJson(req.body, env.codec).Some? && env.kvUp
    ensures out.response.status == 200 ==>
      out.stores == stores.(kv := stores.kv[PortfolioKey := ReadJson(req.body, env.codec).value])
    ensures out.response.status != 200 ==> out.stores == stores
  {
    var token := BearerToken(req.authorization);
    if token.None? then
      Served(JsonResponse(ErrorBody("No authorization token provided"), 401), stores)
    else if env.identity.getUser(token.value).None? then
      Served(JsonResponse(ErrorBody("Unauthorized"), 401), stores)
    else
      match ReadJson(req.body, env.codec)
      case None => Served(JsonResponse(ErrorBody("Internal server error"), 500), stores)
      case Some(content) =>
        if !env.kvUp then
          Served(JsonResponse(ErrorBody("Internal server error"), 500), stores)
        else
          Served(JsonResponse(Obj1("message", JStr("Portfolio updated successfully"))),
                 stores.(kv := stores.kv[PortfolioKey := content]))
  }

  /** The credentials object read from a login or registration body, unless reading it throws. */
  function Credentials(req: Request, env: Env): (c: Option<Json>)
    ensures c.Some? <==> ReadJson(req.body, env.codec).Some? && !ReadJson(req.body, env.codec).value.JNull?
    ensures c.Some? ==> c == ReadJson(req.body, env.codec)
  {
    var v := ReadJson(req.body, env.codec);
    if v.Some? && !v.value.JNull? then v else None
  }

  /** The successful login answer. */
  function SessionBody(token: string, user: User): Json {
    JObj(map["access_token" := JStr(token), "user_id" := JStr(user.id), "email" := JStr(user.email)])
  }

  /**
   * POST /api/login: 400 with the provider's message when it reports an
   * error; 200 with the session's token, the user's id and email when it
   * gives both a session and a user; 500 otherwise, and when the body
   * cannot be read.
   */
  function Login(req: Request, env: Env): (r: Response)
    ensures r.status in {200, 400, 500}
    ensures Credentials(req, env).None? ==> r.status == 500
    ensures Credentials(req, env).Some? ==>
      var c := Credentials(req, env).value;
      var res := env.identity.signIn(Member(c, "email"), Member(c, "password"));
      && (r.status == 400 <==> res.error.Some?)
      && (r.status == 400 ==> r.body == Some(ErrorBody(res.error.value)))
      && (r.status == 200 <==> res.error.None? && res.accessToken.Some? && res.user.Some?)
      && (r.status == 200 ==> r.body == Some(SessionBody(res.accessToken.value, res.user.value)))
  {
    match Credentials(req, env)
    case None => JsonResponse(ErrorBody("An internal server error occurred."), 500)
    case Some(c) =>
      var res := env.identity.signIn(Member(c, "email"), Member(c, "password"));
      if res.error.Some? then
        JsonResponse(ErrorBody(res.error.value), 400)
      else if res.accessToken.Some? && res.user.Some? then
        JsonResponse(SessionBody(res.accessToken.value, res.user.value))
      else
        JsonResponse(ErrorBody("Login successful but no session was created."), 500)
  }

  /**
   * POST /register: 400 with the provider's message when it refuses the new
   * user, 200 when it accepts, 500 when the body cannot be read.
   */
  function Register(req: Request, env: Env): (r: Response)
    ensures r.status in {200, 400, 500}
    ensures r.status == 500 <==> Credentials(req, env).None?
    ensures Credentials(req, env).Some? ==>
      var c := Credentials(req, env).value;
      var refused := env.identity.createUser(Member(c, "email"), Member(c, "password"), Member(c, "name"));
      && (r.status == 400 <==> refused.Some?)
      && (r.status == 400 ==> r.body == Some(ErrorBody(refused.value)))
  {
    match Credentials(req, env)
    case None => JsonResponse(ErrorBody("Registration failed"), 500)
    case Some(c) =>
      var refused := env.identity.createUser(Member(c, "email"), Member(c, "password"), Member(c, "name"));
      if refused.Some? then JsonResponse(ErrorBody(refused.value), 400)
      else JsonResponse(Obj1("message", JStr("Admin registered successfully")))
  }

  /** `formData.get('image')`; `None` when the body is not a form or has no such field. */
  function ImageField(body: Body): Option<FormEntry> {
    match body
    case Form(entries) => if "image" in entries then Some(entries["image"]) else None
    case Text(_) => None
  }

  /** The stored name of an upload: the unique prefix, a dot, the extension. */
  function UploadName(prefix: string, fileName: string): string {
    prefix + "." + FileExtension(fileName)
  }

  /**
   * POST /upload-image: 401 without a usable token, 400 when the form has no
   * image (or an empty text value in its place), 500 when the body is not a
   * form, the field is not a file or the bucket throws; otherwise the file
   * is written under a fresh name and its URL and name are answered.
   */
  function UploadImage(req: Request, stores: Stores, env: Env): (out: Served)
    ensures !Authorized(req, env) ==> out.response.status == 401 && out.stores == stores
    ensures out.response.status in {200, 400, 401, 500}
    ensures out.response.status == 401 <==> !Authorized(req, env)
    ensures out.response.status == 400 <==>
      Authorized(req, env) && req.body.Form? &&
      (ImageField(req.body).None? || ImageField(req.body) == Some(TextEntry("")))
    ensures var image := ImageField(req.body);
      out.response.status == 500 <==>
        Authorized(req, env) &&
        (|| !req.body.Form?
         || (image.Some? && image.value.TextEntry? && image.value.value != "")
         || (image.Some? && image.value.FileEntry? && !env.bucketUp))
    ensures out.response.status == 200 <==>
      Authorized(req, env) && ImageField(req.body).Some? && ImageField(req.body).value.FileEntry? && env.bucketUp
    ensures out.response.status == 200 ==>
      var file := ImageField(req.body).value;
      var name := UploadName(env.uniquePrefix, file.name);
      && out.stores == stores.(bucket := stores.bucket[name := StoredFile(file.contentType, ImageCacheControl)])
      && out.response.body == Some(JObj(map["url" := JStr(PublicBase + name), "fileName" := JStr(name)]))
    ensures out.response.status != 200 ==> out.stores == stores
  {
    var token := BearerToken(req.authorization);
    if token.None? then
      Served(JsonResponse(ErrorBody("No authorization token provided"), 401), stores)
    else if env.identity.getUser(token.value).None? then
      Served(JsonResponse(ErrorBody("Unauthorized"), 401), stores)
    else if !req.body.Form? then
      Served(JsonResponse(ErrorBody("Upload failed"), 500), stores)
    else
      match ImageField(req.body)
      case None => Served(JsonResponse(ErrorBody("No image provided"), 400), stores)
      case Some(TextEntry(v)) =>
        if v == "" then Served(JsonResponse(ErrorBody("No image provided"), 400), stores)
        else Served(JsonResponse(ErrorBody("Upload failed"), 500), stores)
      case Some(FileEntry(fileName, contentType)) =>
        var name := UploadName(env.uniquePrefix, fileName);
        if !env.bucketUp then
          Served(JsonResponse(ErrorBody("Upload failed"), 500), stores)
        else
          Served(JsonResponse(JObj(map["url" := JStr(PublicBase + name), "fileName" := JStr(name)])),
                 stores.(bucket := stores.bucket[name := StoredFile(contentType, ImageCacheControl)]))
  }

  /** GET /health. */
  function Health(env: Env): (r: Json)
    ensures r.JObj? && r.fields.Keys == {"status", "timestamp", "service"}
    ensures r.fields["status"] == JStr("OK") && r.fields["timestamp"] == JStr(env.now)
    ensures r.fields["service"] == JStr("Portfolio API")
  {
    JObj(map["status" := JStr("OK"), "timestamp" := JStr(env.now), "service" := JStr("Portfolio API")])
  }

  /** The method and path pairs the worker answers; any method on any path for `OPTIONS`. */
  predicate Routed(verb: string, path: string) {
    || verb == "OPTIONS"
    || (path == "/portfolio" && verb == "GET")
    || (path == "/portfolio" && verb == "PUT")
    || (path == "/api/login" && verb == "POST")
    || (path == "/register" && verb == "POST")
    || (path == "/upload-image" && verb == "POST")
    || (path == "/health" && verb == "GET")
  }

  /** The handler a request reaches. */
  datatype Route = PreflightRoute | GetPortfolioRoute | PutPortfolioRoute | LoginRoute
                 | RegisterRoute | UploadRoute | HealthRoute | NotFoundRoute

  /** The dispatcher's chain of tests on method and pathname, in the source's order. */
  function RouteOf(verb: string, path: string): (r: Route)
    ensures r == NotFoundRoute <==> !Routed(verb, path)
    ensures r == PutPortfolioRoute <==> verb == "PUT" && path == "/portfolio"
    ensures r == UploadRoute <==> verb == "POST" && path == "/upload-image"
    ensures r == GetPortfolioRoute <==> verb == "GET" && path == "/portfolio"
    ensures r == PreflightRoute <==> verb == "OPTIONS"
    ensures r == LoginRoute <==> verb == "POST" && path == "/api/login"
    ensures r == RegisterRoute <==> verb == "POST" && path == "/register"
    ensures r == HealthRoute <==> verb == "GET" && path == "/health"
  {
    if verb == "OPTIONS" then PreflightRoute
    else if path == "/portfolio" && verb == "GET" then GetPortfolioRoute
    else if path == "/portfolio" && verb == "PUT" then PutPortfolioRoute
    else if path == "/api/login" && verb == "POST" then LoginRoute
    else if path == "/register" && verb == "POST" then RegisterRoute
    else if path == "/upload-image" && verb == "POST" then UploadRoute
    else if path == "/health" && verb == "GET" then HealthRoute
    else NotFoundRoute
  }

  /** The `fetch` dispatcher: the route's handler, with the stores after it. */
  function Handle(req: Request, stores: Stores, env: Env): (out: Served)
    ensures out.response.status in {200, 400, 401, 404, 500}
    ensures out.response.status == 404 <==> !Routed(req.verb, req.path)
  {
    match RouteOf(req.verb, req.path)
    case PreflightRoute => Served(Preflight(), stores)
    case GetPortfolioRoute => Served(GetPortfolio(stores, env), stores)
    case PutPortfolioRoute => PutPortfolio(req, stores, env)
    case LoginRoute => Served(Login(req, env), stores)
    case RegisterRoute => Served(Register(req, env), stores)
    case UploadRoute => UploadImage(req, stores, env)
    case HealthRoute => Served(JsonResponse(Health(env)), stores)
    case NotFoundRoute => Served(JsonResponse(ErrorBody("Not found"), 404), stores)
  }

  /** An `OPTIONS` request on any path gets the CORS preflight answer and changes nothing. */
  lemma PreflightOnAnyPath(req: Request, stores: Stores, env: Env)
    requires req.verb == "OPTIONS"
    ensures Handle(req, stores, env) == Served(Preflight(), stores)
  {
  }

  /** Any method and path pair the worker does not route is a 404 that changes nothing. */
  lemma NotFoundFallThrough(req: Request, stores: Stores, env: Env)
    requires !Routed(req.verb, req.path)
    ensures Handle(req, stores, env) == Served(JsonResponse(ErrorBody("Not found"), 404), stores)
  {
  }

  /**
   * Only an authorised PUT /portfolio changes the key-value store, and only
   * an authorised upload changes the bucket.
   */
  lemma OnlyAuthorisedWrites(req: Request, stores: Stores, env: Env)
    ensures var out := Handle(req, stores, env);
      && (out.stores.kv != stores.kv ==>
            req.verb == "PUT" && req.path == "/portfolio" && Authorized(req, env))
      && (out.stores.bucket != stores.bucket ==>
            req.verb == "POST" && req.path == "/upload-image" && Authorized(req, env))
  {
    var route := RouteOf(req.verb, req.path);
    if route == PutPortfolioRoute {
      assert Handle(req, stores, env) == PutPortfolio(req, stores, env);
    } else if route == UploadRoute {
      assert Handle(req, stores, env) == UploadImage(req, stores, env);
    } else {
      RoutesWithoutWrites(req, stores, env);
    }
  }

  /** Every route other than PUT /portfolio and the upload answers without writing. */
  lemma RoutesWithoutWrites(req: Request, stores: Stores, env: Env)
    requires RouteOf(req.verb, req.path) !in {PutPortfolioRoute, UploadRoute}
    ensures Handle(req, stores, env).stores == stores
  {
    if RouteOf(req.verb, req.path) == GetPortfolioRoute {
      assert Handle(req, stores, env) == Served(GetPortfolio(stores, env), stores);
    }
  }

  /** A request without a usable token leaves both stores as they were. */
  lemma UnauthenticatedLeavesStores(req: Request, stores: Stores, env: Env)
    requires !Authorized(req, env)
    ensures Handle(req, stores, env).stores == stores
  {
  }

  /**
   * A successful PUT followed by a GET answers the document written, unless
   * that document is falsy (`null`, `false`, `0`, `""`), which reads back as
   * the default document.
   */
  lemma PutThenGet(put: Request, get: Request, stores: Stores, env: Env)
    requires put.verb == "PUT" && put.path == "/portfolio"
    requires get.verb == "GET" && get.path == "/portfolio"
    requires Handle(put, stores, env).response.status == 200
    ensures var v := ReadJson(put.body, env.codec).value;
      Handle(get, Handle(put, stores, env).stores, env).response.body ==
        Some(if Truthy(Some(v)) then v else env.defaultContent)
  {
    var after := PutPortfolio(put, stores, env);
    assert Handle(put, stores, env) == after;
    assert Handle(get, after.stores, env) == Served(GetPortfolio(after.stores, env), after.stores);
  }

  /**
   * The deployed worker never answers GET /portfolio with a falsy body:
   * either the stored value is truthy or the built-in document, an object,
   * is served.
   */
  lemma DeployedGetIsTruthy(get: Request, stores: Stores, env: Env)
    requires Deployed(env) && get.verb == "GET" && get.path == "/portfolio"
    ensures Truthy(Handle(get, stores, env).response.body)
  {
    assert Handle(get, stores, env) == Served(GetPortfolio(stores, env), stores);
    assert env.defaultContent.JObj?;
  }
}
