# Portfolio site and its content API, modelled in Dafny

This project models the logic of a personal portfolio site. The site has two parts:

- **The page** is a single-page React application. It loads a JSON content document and renders it, with a fallback document bundled into the app. It also hosts an admin area: a login form, a JSON editor panel, and a session that ends after five minutes of inactivity. It additionally carries a scroll-feedback component and a rich-text editor.
- **The content API** is a small worker. It serves and stores the document in a key-value store, delegates sign-in and registration to an identity provider, and stores uploaded images in a bucket.

The modules follow the source files:

| module | models |
|---|---|
| `Worker` (worker.dfy) | `worker/index.ts` |
| `App` (app.dfy) | `src/App.tsx` |
| `AdminPanel` (admin_panel.dfy) | `src/components/AdminPanel.tsx` |
| `AdminLogin` (admin_login.dfy) | `src/components/AdminLogin.tsx` |
| `ScrollAudio` (scroll_audio.dfy) | `src/components/ScrollAudio.tsx` |
| `RichTextEditor` (rich_text_editor.dfy) | `src/components/RichTextEditor.tsx` |
| `EndToEnd` (end_to_end.dfy) | the page and the worker together |

Shared modules:

- `Wrappers` holds `Option`.
- `Json` holds the JSON value type and the JavaScript semantics the code leans on: truthiness, property access and `String()` conversion. It also holds the `Codec`, which carries `JSON.parse` and `JSON.stringify` as functions. `Lawful` states that parse undoes both stringify forms.
- `Strings` holds `split`, `join` and the prefix test.
- `Http` holds requests, responses and what `fetch` returns.
- `Session` holds the browser's `admin_token` entry. Both admin components and the page share it as one `TokenStore` object.

**The worker** is a pure function `Worker.Handle(request, stores, env)`. It returns the response together with the stores as they are afterwards:

- The stores are the key-value map and the bucket.
- The environment carries the identity provider as three oracle functions. It also carries whether each store answers or throws, the clock string, the unique upload prefix and the fallback document.

**The components** are classes whose fields are the components' state:

- The page's inactivity timer is an optional deadline on a millisecond clock.
- `Interact` stands for one user interaction; `Elapse` stands for the passing of time.
- A handler that awaits a network answer is split at the await: `BeginSubmit`/`FinishSubmit` and `BeginSave`/`FinishSave`. The answer is a parameter, and the in-flight flags (`loading`, `saving`) can be observed in between.

Where the code and the written design of the system disagree, the model follows the code:

- GET /portfolio answers the fallback document when nothing is stored. It also does so when the stored value is falsy (for example `null`, `false`, `0` or `""`) and when the store throws.
- PUT /portfolio does not store the request body verbatim. It stores the parsed value, re-serialised.
- After a 2xx login answer without an `access_token`, the login form stores the string "undefined" as the token, and the page treats the user as an admin.
- Bearer extraction takes the second space-separated piece of the `Authorization` header and never checks the scheme. "Bearer  x", with two spaces, therefore carries no token.

## Model

| member | source | states |
|---|---|---|
| Worker.JsonResponse | worker/index.ts:14-24 | the status defaults to 200; the body is the data; the headers are the CORS set plus `Content-Type: application/json` |
| Worker.BearerToken | worker/index.ts:101-104 | no header, or a header without a space, gives no token; a token extracted from the header is never empty and contains no space |
| Worker.BearerTokenOfHeader | worker/index.ts:102 | `<scheme> <token>` yields the token, with or without further space-separated words after it |
| Worker.BearerTokenDoubleSpace | worker/index.ts:102 | two spaces after the scheme yield no token, so the request is unauthorised |
| Worker.FileExtension | worker/index.ts:201 | the extension is never empty and contains no dot |
| Worker.ExtensionAfterLastDot | worker/index.ts:201 | the extension is the text after the last dot; a name without a dot is its own extension |
| Worker.ExtensionOfEmptyName | worker/index.ts:201 | an empty file name falls back to `jpg` |
| Worker.ExtensionOfTrailingDot | worker/index.ts:201 | a name ending in a dot falls back to `jpg` |
| Worker.Preflight | worker/index.ts:59-68 | OPTIONS answers 200 with a null body and the CORS headers; `PreflightOnAnyPath` gives it to every OPTIONS request |
| Worker.GetPortfolio | worker/index.ts:81-97 | the answer is always 200 with a body; a truthy value under the key in a store that answers is exactly what is served; any body other than the fallback is that stored value |
| Worker.PutPortfolio | worker/index.ts:100-122 | 401 exactly when unauthorised; 200 exactly when authorised, the body parses and the store answers; 500 otherwise; a 200 writes the parsed value under the key, and every other status leaves the stores unchanged |
| Worker.Credentials | worker/index.ts:127 | the credentials are exactly the body read as JSON, and they are absent exactly when the body cannot be read or is `null`, because destructuring `null` throws |
| Worker.Login | worker/index.ts:125-154 | 500 when the body cannot be read; 400 with the provider's message exactly when it reports an error; 200 with token, user id and email exactly when it gives a session and a user; only these three statuses occur |
| Worker.Register | worker/index.ts:157-178 | 500 exactly when the body cannot be read; 400 with the provider's message exactly when it refuses; only 200, 400 or 500 occur |
| Worker.UploadImage | worker/index.ts:181-224 | only 200, 400, 401 or 500; 401 exactly when unauthorised; 400 exactly when authorised and the form has no image (or an empty text value in its place); 500 exactly when authorised and the body is not a form, the field is a non-empty text value or the bucket throws; 200 writes the file under the prefix plus extension and answers its URL and name; nothing else writes |
| Worker.RouteOf | worker/index.ts:59-235 | a request is 404 exactly when its method and path pair is not routed; OPTIONS on any path is the preflight, and each other route is reached exactly by its own method and path |
| Worker.Handle | worker/index.ts:54-241 | the dispatcher answers only 200, 400, 401, 404 or 500, and 404 exactly for a method and path pair that no route handles |
| Worker.DefaultContent | worker/index.ts:27-52 | the fallback document is an object whose only section is `hero`, itself an object |
| Worker.Health | worker/index.ts:227-233 | GET /health answers an object with exactly three keys: `status` "OK", the clock's `timestamp`, and `service` "Portfolio API" |
| Worker.ReadJson | worker/index.ts:113 | `req.json()`: a text body is parsed, a form body never reads as JSON |
| Worker.PreflightOnAnyPath | worker/index.ts:59-68 | an OPTIONS request on any path gets the preflight answer and changes no store |
| Worker.NotFoundFallThrough | worker/index.ts:235 | an unrouted request answers 404 `{error: "Not found"}` and changes nothing |
| Worker.OnlyAuthorisedWrites | worker/index.ts:79-240 | whenever the dispatcher changes the stores, the request was authorised and was a PUT /portfolio or a POST /upload-image |
| Worker.RoutesWithoutWrites | worker/index.ts:79-240 | every route other than PUT /portfolio and POST /upload-image leaves both stores unchanged |
| Worker.UnauthenticatedLeavesStores | worker/index.ts:100-111 | an unauthorised request never changes the stores, whatever its route |
| Worker.PutThenGet | worker/index.ts:81-122 | after a successful PUT, GET answers the document that was put, or the fallback when that document is falsy |
| Worker.DeployedGetIsTruthy | worker/index.ts:81-97 | the deployed worker never answers GET /portfolio with a falsy body |
| AdminLogin.Outcome | src/components/AdminLogin.tsx:38-55 | success exactly on a 2xx answer with a non-null JSON body; a success stores `String(access_token)`; a failure stores nothing; a network error, an unreadable body or a `null` body shows the unexpected-error text |
| AdminLogin.LoginRequest | src/components/AdminLogin.tsx:27-36 | POST /api/login without authorisation, whose body reads back, through a lawful codec, as an object with the typed email and password |
| AdminLogin.RejectedWithoutMessage | src/components/AdminLogin.tsx:40-43 | a rejection without a truthy `error` shows "Login failed" and stores nothing |
| AdminLogin.RejectedWithMessage | src/components/AdminLogin.tsx:40-43 | a rejection carrying an error message shows that message and stores nothing |
| AdminLogin.AcceptedWithoutToken | src/components/AdminLogin.tsx:47-48 | a 2xx answer without `access_token` still succeeds and stores the text "undefined" |
| AdminLogin.LoginForm.constructor | src/components/AdminLogin.tsx:10-16 | the form starts empty, hidden, idle and without an error |
| AdminLogin.LoginForm.SetEmail | src/components/AdminLogin.tsx:84 | editing the email keeps the password and every other field |
| AdminLogin.LoginForm.SetPassword | src/components/AdminLogin.tsx:99 | editing the password keeps the email and every other field |
| AdminLogin.LoginForm.SubmitDisabled | src/components/AdminLogin.tsx:122 | the submit button is disabled exactly while a submission is in flight |
| AdminLogin.LoginForm.BeginSubmit | src/components/AdminLogin.tsx:18-36 | submitting sets loading, which disables the button, clears the error and sends POST /api/login with the email and password as JSON |
| AdminLogin.LoginForm.FinishSubmit | src/components/AdminLogin.tsx:38-55 | loading ends in every case, re-enabling the button; the reported success, the error text and the token written all follow `Outcome`, and the token is written only on success |
| AdminPanel.SaveAlert | src/components/AdminPanel.tsx:70-82 | the success alert is shown exactly when the save answer is 2xx |
| AdminPanel.SaveRequest | src/components/AdminPanel.tsx:58-68 | PUT /portfolio with `Bearer <token>`, whose body reads back, through a lawful codec, as exactly the document being saved |
| AdminPanel.UneditedSaveSendsShownDocument | src/components/AdminPanel.tsx:21-71 | a panel mounted on a document with a stored token, saved without edits, has Save enabled and sends exactly the PUT of that document |
| AdminPanel.Panel.constructor | src/components/AdminPanel.tsx:13-18 | the panel starts with empty text, no error, not saving and no token |
| AdminPanel.Panel.SaveDisabled | src/components/AdminPanel.tsx:94 | Save is enabled exactly when no save is in flight and the text is valid; an error always disables it |
| AdminPanel.Panel.Mount | src/components/AdminPanel.tsx:21-30 | the text becomes the indented serialisation of the content; logout is requested exactly when no token is stored; otherwise the token is taken from storage |
| AdminPanel.Panel.HandleTextChange | src/components/AdminPanel.tsx:32-43 | the text is replaced; the error is cleared exactly when the new text parses, so text that does not parse keeps Save disabled |
| AdminPanel.Panel.BeginSave | src/components/AdminPanel.tsx:45-68 | a request is sent exactly when there is no error, a token exists and the text parses; it is PUT /portfolio with the bearer token and the re-serialised parsed text. Each failed guard has its own alert: "Cannot save: …", the authentication error, or the unexpected-error alert when the text no longer parses |
| AdminPanel.Panel.FinishSave | src/components/AdminPanel.tsx:70-82 | saving ends in every case; the app is updated with the sent document exactly on a 2xx answer; the alert follows `SaveAlert` |
| App.LoadedContent | src/App.tsx:19-37 | a 2xx answer with a body gives that body; any other answer or error gives the bundled document |
| App.SocialIcon | src/App.tsx:121-128 | the LinkedIn and Twitter icons are shown exactly for their names; every other name shows GitHub |
| App.LinkLabel | src/App.tsx:239 | the label has the key's length; only the first character changes, to its upper case |
| App.LinkLabelIdempotent | src/App.tsx:239 | capitalising a label again changes nothing |
| App.VisibleCertifications | src/App.tsx:372 | the visible list is a prefix of the certifications: all of them once expanded, at most six before |
| App.CertificationFooter | src/App.tsx:399-405 | "Show More" exactly when there are more than six and the list is collapsed; the LinkedIn link exactly when there are more than six and it is expanded |
| App.ShowMoreRevealsAll | src/App.tsx:372-405 | whenever "Show More" is offered some certification is hidden, and expanding shows them all |
| App.Portfolio.constructor | src/App.tsx:10-15 | the page starts loading, with the bundled content, not admin, nothing open, no timer |
| App.Portfolio.View | src/App.tsx:130-154 | the render order: the loading screen exactly while loading, then the login view exactly when it is open, then the panel for an admin who opened it, otherwise the page, with admin controls exactly for an admin |
| App.Portfolio.SetAdmin | src/App.tsx:55-73 | a change to admin arms the timer five minutes ahead; a change away clears it; no change leaves it; the timer stays armed exactly while admin |
| App.Portfolio.LoadPortfolioData | src/App.tsx:19-37 | the content follows `LoadedContent` and loading is off afterwards in every case |
| App.Portfolio.Mount | src/App.tsx:39-44 | the user is admin after mount exactly when already admin or a token is stored, and a new admin's timer is armed while an existing one's is kept; the content is loaded; the views, the list and the clock stay |
| App.Portfolio.HandleAdminLogout | src/App.tsx:46-53 | the token is removed, admin ends, the panel closes and the timer is cleared; the inactivity notice is raised exactly for an automatic logout |
| App.Portfolio.HandleAdminLogin | src/App.tsx:111-115 | admin exactly on success; the timer is armed for a new admin, kept for an existing one and cleared on failure; the login view closes either way; the panel opens only on success; nothing else changes |
| App.Portfolio.Interact | src/App.tsx:58-66 | an interaction while admin re-arms the single timer to now plus 300000 ms, replacing the earlier deadline; otherwise no timer exists; nothing else changes |
| App.Portfolio.Elapse | src/App.tsx:55-73 | automatic logout, with its notice, happens exactly when the armed deadline is reached; otherwise only the clock moves |
| App.Portfolio.OpenAdminLogin | src/App.tsx:162 | the settings button opens the login view and changes nothing else |
| App.Portfolio.CloseAdminLogin | src/App.tsx:142 | the login view's close closes it and changes nothing else |
| App.Portfolio.OpenAdminPanel | src/App.tsx:167 | the edit button opens the panel and changes nothing else |
| App.Portfolio.CloseAdminPanel | src/App.tsx:150 | the panel's close hides it and changes nothing else |
| App.Portfolio.ExpandCertifications | src/App.tsx:402 | "Show More" expands the list and changes nothing else |
| App.Portfolio.FinishLogin | src/App.tsx:111-115 | the login answer makes the user an admin exactly on success, with the timer as `HandleAdminLogin` sets it; a success has stored the token and opens the panel; a failure changes neither token nor panel; content, clock and list stay |
| App.Portfolio.MountPanel | src/App.tsx:145-153 | the panel shows the current content; without a stored token the admin session ends and the panel cannot be shown; with one the session and its timer stay; the clock, loading flag, login view and list stay |
| App.Portfolio.FinishSave | src/App.tsx:117-119 | on a 2xx save the page content becomes exactly the document sent, and the panel shows it again. The remounted panel keeps the session, timer, panel and token when a token is stored, and ends the session when none is. Otherwise the content, session, timer and panel are unchanged. The clock, loading flag, login view and list stay |
| ScrollAudio.NextFeedbackY | src/components/ScrollAudio.tsx:93-102 | the feedback position becomes the scroll position exactly on a dot and stays otherwise; after any handled scroll it is within 50 pixels of the scroll position |
| ScrollAudio.Dots | src/components/ScrollAudio.tsx:87-103 | a run of scroll events gives at most one dot per event, and none when no position crosses the threshold |
| ScrollAudio.DotsBoundedByTravel | src/components/ScrollAudio.tsx:87-103 | each dot costs at least 50 pixels of scrolling: dots times 50 never exceeds the distance travelled plus the initial gap |
| ScrollAudio.ContextAfterSetup | src/components/ScrollAudio.tsx:106-111 | an existing context that is not suspended is kept, a suspended one is resumed; without one a constructible browser gets a fresh context (resumed when it starts suspended) and any other browser none; a running context comes only from these |
| ScrollAudio.ClosedContextStaysClosed | src/components/ScrollAudio.tsx:106-111 | a closed context is never resumed or replaced by a later interaction |
| ScrollAudio.Player.constructor | src/components/ScrollAudio.tsx:8-11 | the feature starts disabled with feedback position 0 and no context |
| ScrollAudio.Player.CreateAudioContext | src/components/ScrollAudio.tsx:15-31 | idempotent: an existing context is reused and true returned; otherwise it succeeds exactly when the browser can construct one |
| ScrollAudio.Player.Cleanup | src/components/ScrollAudio.tsx:137-148 | the effect's cleanup closes the context when there is one |
| ScrollAudio.Player.SetEnabled | src/components/ScrollAudio.tsx:149 | changing the enabled flag re-runs the effect, whose cleanup closes the context |
| ScrollAudio.Player.EnableFeature | src/components/ScrollAudio.tsx:106-116 | enabled exactly when setup reaches a running context, with the feedback position reset to the current scroll; enabling leaves the context closed |
| ScrollAudio.Player.EnableFeatureIntended | src/components/ScrollAudio.tsx:106-116 | the same without the re-run: enabling leaves the context running |
| ScrollAudio.Player.HandleScroll | src/components/ScrollAudio.tsx:87-103 | nothing while disabled; while enabled a dot exactly when the distance is at least 50 either way, moving the feedback position to the scroll; sound only from a running context |
| ScrollAudio.Player.Unmount | src/components/ScrollAudio.tsx:137-148 | unmounting closes the context |
| ScrollAudio.FirstDotAsWritten | src/components/ScrollAudio.tsx:106-149 | after enabling, the first dot vibrates but is silent |
| ScrollAudio.FirstDotIntended | src/components/ScrollAudio.tsx:106-116 | with the intended enabling, the first dot is heard and felt |
| RichTextEditor.NormalizeUrl | src/components/RichTextEditor.tsx:83 | the result starts with "http" and ends with what was typed; input starting with "http" is kept, anything else gets "https://" |
| RichTextEditor.NormalizeUrlIdempotent | src/components/RichTextEditor.tsx:83 | normalising twice is normalising once |
| RichTextEditor.NormalizeUrlKeepsQuotes | src/components/RichTextEditor.tsx:83 | normalisation neither adds nor removes a quote character |
| RichTextEditor.LinkHtml | src/components/RichTextEditor.tsx:86 | the anchor opens with `href` set to the URL and the `_blank`/`noopener noreferrer` attributes, then the text, then the closing tag; `LinkHtmlRoundTrip` is its inverse |
| RichTextEditor.ParseLink | src/components/RichTextEditor.tsx:86 | a URL read back from an anchor contains no quote |
| RichTextEditor.LinkHtmlRoundTrip | src/components/RichTextEditor.tsx:86 | with a quote-free URL, the anchor reads back as exactly its URL and text |
| RichTextEditor.LinkHtmlInjective | src/components/RichTextEditor.tsx:86 | two anchors with quote-free URLs are equal only when URL and text agree |
| RichTextEditor.LinkHtmlAmbiguousWithQuotes | src/components/RichTextEditor.tsx:86 | since nothing is escaped, a URL holding a quote gives the same markup as a different URL and text |
| RichTextEditor.InsertedLinkReadsBack | src/components/RichTextEditor.tsx:83-86 | the anchor an insertion writes reads back as the normalised URL and the selected text |
| RichTextEditor.Editor.constructor | src/components/RichTextEditor.tsx:26-30 | the editor starts with the given value and has reported nothing |
| RichTextEditor.Editor.HandleInput | src/components/RichTextEditor.tsx:32-36 | an edit replaces the HTML and reports exactly the new HTML |
| RichTextEditor.Editor.FormatText | src/components/RichTextEditor.tsx:49-54 | a formatting command's result replaces the HTML and is reported |
| RichTextEditor.Editor.InsertLink | src/components/RichTextEditor.tsx:73-108 | without selected text only the notice is raised; a cancelled or empty answer changes nothing; otherwise the selection becomes the anchor around the selected text and the new HTML is reported |
| EndToEnd.SavedDocumentIsLoaded | worker/index.ts:81-122 | with an accepted token and a live store, the panel's save is answered 200, and the page's next load shows the saved document, or the fallback when it is falsy |
| EndToEnd.LoginStoresIssuedToken | worker/index.ts:125-154 | the form's login request reaches the provider with the typed credentials; the form succeeds exactly when the provider issues a session for a user, and then stores the issued token |

## Left out

- JSON is abstract. Numbers are integers, and key order and floating point are not modelled. `JSON.parse`/`JSON.stringify` are the codec's functions, constrained only by `Lawful` where a property needs it.
- The identity provider is three oracle functions. The key-value store and the bucket are maps plus a flag saying whether they answer or throw. The stream write to the bucket, the time-and-random upload prefix and the public URL host are inputs or constants.
- The worker's outer `catch`, which answers 500, is not modelled. The routes that can throw (the two /portfolio routes, login, registration, upload) each have their own `try`. GET /health and the 404 have none, but building their answers cannot throw, so the outer `catch` is never reached.
- Worker.Health: the timestamp is the environment's clock string, not an ISO date computed from a clock.
- The fallback document's literal is reached through `Worker.Deployed(env)`; the dispatcher's lemmas speak of `env.defaultContent`.
- React rendering, JSX, CSS, the fade-opacity effect, the background animation and the bundled data file are not modelled.
- AdminLogin.Outcome: the form keeps the raw `data.error` and renders it as a React child; the model keeps `String(data.error)`. They differ for non-string errors: React renders nothing for `true`, joins array items without commas, and throws on a plain object, where `String()` gives "true", comma-joined items and "[object Object]".
- App.LinkLabel: upper-casing covers the ASCII letters only. JavaScript's full Unicode case mapping is not modelled.
- Async scheduling is collapsed into atomic steps at each await. A second submit while a request is in flight is not modelled beyond the disabled-button state.
- App.Portfolio.Elapse: a timer that fires is modelled as firing at its deadline, before the clock moves on. Timer drift and throttling are not modelled.
- ScrollAudio: the oscillator, the gain ramps and the vibration call are reduced to the `sound` and `haptic` flags. `close()` is modelled as taking effect at once. The first-interaction listeners are not modelled as objects: each interaction is a call to `EnableFeature`.
- RichTextEditor.Editor.InsertLink: the selection is a range of the HTML string. A DOM selection that crosses element boundaries, a selection with text but no range, and the browser's re-serialisation of the inserted nodes are not modelled. `handleSelection` only feeds unused state, and the image-upload path depends on a file upload callback; neither is modelled.

## Findings

| source | as written | input that shows it | evidently intended | confidence | as-written member | corrected member |
|---|---|---|---|---|---|---|
| src/components/ScrollAudio.tsx:149 | the effect lists `isEnabled` as a dependency, so enabling re-runs it and its cleanup closes the AudioContext that was just resumed; sound never plays, although the vibration still does | a browser whose AudioContext starts suspended and resumes; a click at scroll position 0, then a scroll to 60 | each dot plays the tick sound once the feature is enabled | high, not executed | ScrollAudio.FirstDotAsWritten | ScrollAudio.FirstDotIntended |
