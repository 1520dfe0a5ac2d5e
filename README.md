# Spaces: a Dafny model of the site registry, its GitHub and Slack routes, and the editor's tab state

Spaces is a small Flask service. Users sign up with a preview code and own at most three
sites, web or Python. Each site has a unique slug and can be linked to one GitHub
repository. Users can sign in with Slack. In the browser, an editor keeps three tabs
(index.html, styles.css, script.js) and renders a live preview.

This project models that core and proves what its routes promise:

- **`Models` (models.dfy).** The rows `User`, `Site` and `GitHubRepo` are datatypes. Three
  pieces of behaviour are modelled:
  - the `Site` constructor's slug default;
  - the column defaults;
  - the password hash and its check.

  The tables live in a `Database` class: three maps from ids to rows, plus id counters.
  Its ghost `Valid()` states what holds of the tables:
  - unique usernames, emails and slugs (declared unique in models.py);
  - foreign keys that point at existing rows (declared NOT NULL);
  - at most one repository per site. models.py declares no unique constraint on
    `github_repo.site_id`. The `UNIQUE(site_id)` in setup_db.py sits in a
    `CREATE TABLE IF NOT EXISTS` that runs after `db.create_all()` has made the table,
    so `create_repo`'s "already has a repository" guard is what keeps this one.

  `slugify` and the password digest are library code the model does not see inside. They
  are function values in a `Library` that the database carries.
- **`App` (app.py).** Each route is a method over the database. Its guards, in the route's
  order, are pure functions. A rejected request leaves every table as it was. Every route
  keeps `Valid()` and the three-sites-per-user limit (`App.Good`), with requests handled
  one at a time.
- **`GitHubRoutes` (github_routes.py).** The Flask session is a class (`Session`), and so
  is GitHub as the routes reach it (`GitHub`): the valid tokens, and the repositories with
  their files and commits. Pushing is the source's loop, proved against `WriteAll`.
- **`SlackRoutes` (slack_routes.py) and `Quoting`.** The authorization URL follows section
  4.1.1 of RFC 6749. `Quoting` models `requests.utils.quote(s, safe='')`: UTF-8 encoding,
  then percent-encoding as in section 2.1 of RFC 3986. The callback's two HTTP replies from
  Slack are inputs.
- **`Editor` (static/js/editor.js).** A `Tabs` value and the `Switch` function specify the
  tab state. The `EditorPage` class holds the module-level variables, and its methods
  update them in place.

Responses are `Response(status, message)`:
- a redirect is 302 with the endpoint it goes to;
- a re-rendered form is 200 with the flashed text;
- a JSON reply carries its `message` or `error` text.

Timestamps are a counter `now` passed in by the caller. JSON request bodies are
`Option<map<string, Json>>`, where `None` means the body was JSON `null`. Field values are
`null`, booleans and strings.

## Model

| member | source | states |
|---|---|---|
| Models.HashPassword | models.py:22-23 | the stored hash keeps its salt, and the password it was made from checks against it |
| Models.SetPassword | models.py:22-26 | after `set_password(p)`, `check_password(p)` holds; no field other than the hash changes |
| Models.NewUser | app.py:141-142 | a new user has the given username and email, is active, has the preview unlocked, has no GitHub token, and its password checks |
| Models.InitSite | models.py:60-63 | without a `slug` argument the slug is `slugify(name or '')`; an explicit slug is kept; no other argument changes |
| Models.SiteRow | models.py:48-57 | a row exists only when name and slug are set; unset columns get type 'web', the welcome HTML, the hello-world Python and public; the owner is the given one |
| Models.CreatedSiteRow | app.py:249-251 | the rows the two create routes build: slug from the name, the caller as owner, defaults as above; the Python route stores the Python greeting as HTML |
| Models.UserWithEmail | models.py:13 | `filter_by(email=…).first()` finds a user exactly when one holds that email, and it is that one |
| Models.SiteWithSlug | models.py:50 | the lookup by slug finds a site exactly when one holds that slug |
| Models.RepoOf | models.py:41 | the single-valued backref finds a link exactly when the site has one, and it points at that site |
| Models.ReplaceUserKeepsConstraints | models.py:12-13 | rewriting a user with a username and email that are unchanged or free keeps every constraint |
| Models.ReplaceSiteKeepsConstraints | models.py:50 | rewriting a site with the same owner and a slug no other site holds keeps every constraint |
| Models.LinksWithout | setup_db.py:35 | the links left after a cascading delete are exactly those of other sites, each unchanged |
| Models.DeleteSiteKeepsConstraints | models.py:40-41 | removing a site together with its links keeps every constraint |
| Models.RemoveRepoKeepsConstraints | models.py:40-41 | dropping one link keeps every constraint |
| Models.ReplaceRepoKeepsConstraints | models.py:40-41 | rewriting a link that stays with its site keeps one link per site and every other constraint |
| Models.SiteCountInsert | app.py:228 | adding a site raises its owner's count by one and no one else's |
| Models.SiteCountRemove | app.py:228 | removing a site lowers its owner's count by one and no one else's |
| Models.SiteCountReplace | app.py:228 | rewriting a site without changing its owner changes no count |
| Models.Database.AddUser | models.py:12-13 | the insert succeeds exactly when username and email are both free, adds exactly that row under a fresh id, and otherwise changes nothing |
| Models.Database.AddSite | models.py:50 | the insert succeeds exactly when the slug is free, adds exactly that row under a fresh id, and otherwise changes nothing |
| Models.Database.AddRepo | models.py:40-41 | a link to an existing, unlinked site is added under a fresh id and keeps one link per site |
| App.SignupRejection | app.py:120-139 | the checks run in order (logged in, which redirects to welcome; wrong preview code; email taken; username taken), each with its answer; no rejection exactly when all pass |
| App.Signup | app.py:117-148 | a rejected signup adds no user; an accepted one adds exactly one user (`NewUser`) and redirects to login; constraints and the site limit are kept |
| App.Login | app.py:94-114 | a matching email and password record the login time on that user only; anything else changes nothing and flashes the error |
| App.Settings | app.py:406-454 | a new username or email held by another user is refused with nothing changed; the profile update rewrites only those two fields; the password changes only when the current one checks |
| App.ViewSite | app.py:213-220 | 404 when no site has the slug; 403 exactly when the site is private and the viewer is not its owner; otherwise 200 with its HTML |
| App.OwnerGuard | app.py:269-271 | the owner-only guard: 404 exactly when the site is missing, 403 exactly when someone else owns it |
| App.EditSite | app.py:162-176 | with its aborts answered as they ask, the owner gets the editor for the site's type, a non-owner gets 403, and a missing site gets 404 |
| App.EditSiteAsWritten | app.py:166-179 | every request that is not the owner's gets 500; the owner's gets the same as `EditSite` |
| App.EditSiteNonOwnerGets500 | app.py:168-179 | a non-owner gets 500 from the route as written where 403 was meant |
| App.RunPythonGuard | app.py:186-189 | the guard before the code runs passes exactly for the owner, and answers 404 or 403 otherwise |
| App.RunPythonGuardAsWritten | app.py:186-210 | the same guard as written answers 500 whenever it does not pass, with werkzeug's full `NotFound` or `Forbidden` text as the message |
| App.RunPythonNonOwnerGets500 | app.py:188-210 | a non-owner gets 500 with the text of werkzeug's `Forbidden` where 403 was meant |
| App.PythonEditor | app.py:364-371 | 200 exactly for the owner, 403 exactly for another user, 404 exactly for a missing site |
| App.CreateRejection | app.py:228-245 | 403 when the caller already owns three sites, checked before the body; then 400 for a missing body; then 400 for a falsy name; none exactly when all pass |
| App.InsertSite | app.py:249-261 | the insert succeeds exactly when the name's slug is free, adds exactly that row, and keeps the three-site limit |
| App.CreateSite | app.py:223-261 | a rejection or a taken slug adds nothing; success adds exactly one web site with the name's slug, owned by the caller; no user ever exceeds three sites |
| App.CreatePythonSite | app.py:328-361 | the same checks as `create_site`; success adds exactly one site of type 'python' |
| App.ContentValue | app.py:274-282 | the text a content column holds after assignment: nothing for `None`, a string as given, a boolean as `true` or `false` |
| App.Updated | app.py:280-285 | each content field that was given (not `None`) replaces the stored one as its text, the other is kept, and nothing but the contents and `updated_at` changes |
| App.UpdateSite | app.py:264-292 | 404 or 403 before anything else; neither content field given is 400 with nothing changed; otherwise 200, and only that site changes, as `Updated` says |
| App.SiteCountPreserved | app.py:317-319 | rewriting a site without moving it to another owner keeps the three-site limit |
| App.RenameSite | app.py:295-325 | a falsy name is 400; a slug held by another site is 400 with nothing changed; otherwise only name, slug and `updated_at` of that site change, and a site may keep its own slug |
| App.DeleteSiteAsWritten | app.py:374-388 | the owner's delete of a site with a GitHub link fails with 500; of a site without one it succeeds |
| App.DeleteLinkedSiteFails | app.py:382-388 | a concrete linked site whose owner cannot delete it through the route as written |
| App.DeleteSite | app.py:374-388 | a non-owner changes nothing; the owner's delete removes exactly that site and its link and keeps every constraint |
| GitHubRoutes.ResolveToken | github_routes.py:98-107 | the session's token if set; else the user's stored token; else none; each case exactly when its condition holds |
| GitHubRoutes.UseToken | github_routes.py:98-102 | a stored token that is used is copied into the session; otherwise the session is unchanged |
| GitHubRoutes.SiteIdOf | github_routes.py:109 | the `site_id` argument wins over the session's current site; none exactly when neither is given |
| GitHubRoutes.SiteGuard | github_routes.py:110-120 | no site id is 400, a missing site 404, another owner's site 403; passes exactly for an existing site the caller owns |
| GitHubRoutes.GitHubStatus | github_routes.py:20-49 | with no session token nothing is connected; connected exactly when GitHub accepts the token; the repository is reported exactly when the current site has a link |
| GitHubRoutes.CreateRepoRejection | github_routes.py:109-134 | the six guards in order (site id, site, owner, no link yet, body, name), each with its status and message; passes exactly when all hold |
| GitHubRoutes.PrivateFlag | github_routes.py:137 | `private` defaults to true; a boolean is taken as given; any other value is refused |
| GitHubRoutes.CreateRepo | github_routes.py:95-165 | 401 without any token; any guard failure or GitHub error adds no link and creates nothing; success creates one repository and adds one link for the site with its privacy flag |
| GitHubRoutes.RepoInfo | github_routes.py:200-267 | a repository the token cannot see has its link deleted, whether it was deleted or is private to another account; a changed URL replaces the stored one; every other path changes nothing |
| GitHubRoutes.CommitMessage | github_routes.py:304 | the message defaults to 'Update from Spaces'; a string is taken as given; any other value is refused |
| GitHubRoutes.GitHub.UpdateFile | github_routes.py:316-317 | an existing file gets the new content and one commit |
| GitHubRoutes.GitHub.CreateFile | github_routes.py:319-320 | a missing file is created with the content and one commit |
| GitHubRoutes.GitHub.WriteFiles | github_routes.py:314-322 | the loop updates or creates each file in order, as `WriteAll` says, and changes no other repository |
| GitHubRoutes.WriteAllAt | github_routes.py:314-322 | after the writes, each path holds the content last written to it; a path no write names is as it was; each write adds one commit after the old ones |
| GitHubRoutes.PushWritesTwoFiles | github_routes.py:309-322 | a push writes exactly index.html and main.py with the site's two contents in two commits; no other path changes |
| GitHubRoutes.PushChanges | github_routes.py:272-334 | token, guards, link and body are checked in order and failures touch nothing; success writes the site's files to the linked repository only |
| GitHubRoutes.DisconnectRepo | github_routes.py:339-361 | the owner's link is removed and the site has none after; 404 without a link, 403 for a non-owner; GitHub is not touched |
| Quoting.Utf8 | slack_routes.py:14 | one to four bytes per character, one exactly for ASCII, the rest continuation bytes |
| Quoting.DecodeEncodeUtf8 | slack_routes.py:14 | UTF-8 decoding gives back the encoded string |
| Quoting.QuoteByte | slack_routes.py:14 | an unreserved byte stays itself; any other becomes `%` and two hex digits of its value |
| Quoting.Quote | slack_routes.py:14 | the quoted string holds only unreserved characters and `%`, so no `&`, `=`, `?` or `#` |
| Quoting.UnquoteQuoteBytes | slack_routes.py:14 | percent-decoding gives back the quoted bytes |
| Quoting.UnquoteQuote | slack_routes.py:14 | decoding a quoted string gives back the original, so quoting loses nothing |
| Quoting.QuoteUnreserved | slack_routes.py:14 | a string of unreserved ASCII characters is quoted as itself |
| SlackRoutes.SlackOAuthUrl | slack_routes.py:10-22 | no URL exactly when the client id or redirect URI is unset or empty; otherwise the authorize endpoint with the query of the four parameters |
| SlackRoutes.SplitJoin | slack_routes.py:16-22 | splitting at `&` gives back pieces that were joined with it, when no piece holds `&` |
| SlackRoutes.ParseJoinedPairs | slack_routes.py:16-22 | `name=value` pairs joined with `&` are read back exactly, when names hold no `=` or `&` and values no `&` |
| SlackRoutes.AuthorizeQueryParses | slack_routes.py:16-22 | the server reads back client_id, scope, redirect_uri and response_type in that order, and decoding redirect_uri gives the configured URI |
| SlackRoutes.CallbackFailure | slack_routes.py:30-64 | no code, a failed or not-ok token exchange, or a failed user-info request redirect to login; a missing `authed_user` is 500; no failure exactly when all succeed |
| SlackRoutes.SlackCallback | slack_routes.py:29-83 | early exits change no user; an existing email gets only its Slack id set; an unknown one adds exactly one user with the Slack name, preview unlocked and the random password; a missing email or name or a taken name is 500 with nothing changed |
| Editor.Initial | static/js/editor.js:2-16 | the three files, all null; index.html current in html mode; the textarea's text in the buffer |
| Editor.LastSegmentIsSuffix | static/js/editor.js:69 | the extension is a suffix of the name with no `.`, preceded by a `.` unless it is the whole name |
| Editor.LastSegmentAfterDot | static/js/editor.js:69 | the extension of `stem.ext` is `ext` whenever `ext` holds no `.` |
| Editor.ModeFor | static/js/editor.js:69-70 | the mode is the table's entry for the extension, and undefined when the table has none |
| Editor.ModeOfExtension | static/js/editor.js:9-13 | the mode of `stem.ext` is the table's entry for `ext`, whatever the stem |
| Editor.ModesOfSiteFiles | static/js/editor.js:9-13 | index.html opens in html mode, styles.css in css mode, script.js in javascript mode |
| Editor.Switch | static/js/editor.js:66-73 | the buffer is stored under the old current file, the new file becomes current, and the mode follows its extension |
| Editor.SwitchLoadsBuffer | static/js/editor.js:73 | the new buffer is the file's stored text, or '' when it is null, undefined or empty; switching to the current file keeps the buffer |
| Editor.SwitchKeepsOtherFiles | static/js/editor.js:67-73 | no stored file other than the previous current one changes |
| Editor.SwitchRoundTrip | static/js/editor.js:67-73 | switching A to B and back to A restores A's buffer and current file |
| Editor.SwitchToCurrent | static/js/editor.js:67-73 | switching to the current file stores the buffer and leaves the buffer and current file as they were |
| Editor.DocumentLayout | static/js/editor.js:108-119 | the styles sit inside `<style>…</style>`; the HTML follows `<body>`; the script sits inside `<script>…</script>` after the HTML |
| Editor.Load | static/js/editor.js:53-64 | a failed load changes nothing; a successful one sets that file's entry and no other |
| Editor.LoadsCommute | static/js/editor.js:33-37 | loads of two different files give the same state in either order |
| Editor.StartupPreview | static/js/editor.js:33-50 | after the loads and `switchFile('index.html')`, index.html holds the editor's text and not its loaded content, and the first preview shows the loaded styles and script around it |
| Editor.PreviewWithoutFileRoutes | static/js/editor.js:33-50 | when every load fails, the first preview shows `null` for the styles and the script and the editor's text as the HTML |
| Editor.EditorPage.constructor | static/js/editor.js:2-16 | the page starts in the `Initial` state |
| Editor.EditorPage.SwitchFile | static/js/editor.js:66-73 | the page's new state is `Switch` of its old state |
| Editor.EditorPage.SaveCurrentFile | static/js/editor.js:80-100 | the buffer is stored under the current file whatever the server answers; the notice says which |
| Editor.EditorPage.LoadFile | static/js/editor.js:53-64 | the page's new state is `Load` of its old state |

## Left out

- Concurrent requests. Each route is one atomic step over the database. The source checks and then writes in separate steps: `create_site` and `create_python_site` count the user's sites and commit later (app.py:228-251, 333-353), and `create_repo` checks `site.github_repo` and adds the link later (github_routes.py:122-152). Nothing in the schema stops two concurrent requests that both passed their check, so the three-site limit and one link per site hold only when requests run one at a time.
- Request bodies that are not JSON. On current Flask, `request.get_json()` and `request.json` raise for them. In `create_site`, `create_python_site`, `create_repo`, `push_changes` and `run_python` the read sits inside the route's `try`, which answers 500. For a `null` body the model instead answers `create_site` with 400 "Invalid request data", `create_repo` with 400 "No repository data provided" and `push_changes` with 400 "No commit data provided". Only in `update_site` and `rename_site`, where the read is outside any `try`, does Flask answer 400 or 415.
- Top-level JSON bodies that are not objects. `Body` holds only an object or `null`. A falsy one (`false`, `0`, `""`, `[]`) gets the `not data` 400 in the routes that test it, and a 500 from `data.get` in `update_site` and `rename_site`. A truthy one (a string, `true`, a non-zero number, a non-empty array) passes `not data`, and then `data.get` raises `AttributeError`, which is a 500 in every route.
- JSON numbers, arrays and objects as field values. `Json` holds only `null`, booleans and strings. A number as `name` would make `slugify` raise (500), and a number as content would be stored as its text.

- `run_python`'s `exec` and its stdout redirection (app.py:194-207). Running arbitrary code with global I/O state cannot be stated; only the guard in front of it is modelled.
- Database connection checks, `initialize_database` and setup_db.py. The only exception is the `ON DELETE CASCADE` on `github_repo.site_id`. It likely never takes effect, because `db.create_all()` creates the table first, but it shows the intent that the corrected `App.DeleteSite` follows.
- Flask routing, templates, `flash` texts on redirects, `login_required` and `login_user`/`logout_user`. Callers of the routes that need a login pass the user's id.
- The GET forms of login, signup and settings, which only render a template.
- Column length limits (`String(80)` and the like). The database would reject over-long values; the model does not.
- Real HTTP calls to GitHub and Slack, and PyGithub's internals. GitHub is the `GitHub` class: valid tokens and repositories. Errors are reduced to one 400 or 401 status with a short message instead of `str(e)`. Other GitHub failures, such as rate limits and 5xx answers, are not modelled.
- `slugify`, `generate_password_hash` and `check_password_hash`. They are uninterpreted function values. The model relies only on the hash recomputing from its salt.
- `os.urandom(24).hex()` in the Slack callback. It is the `randomPassword` input.
- `datetime.utcnow`. It is the `now` counter.
- github_routes.py:166-195. That code follows a `try` whose branches all return, so it never runs.
- `github_login` and `github_callback`. They only build a redirect and store a token, and are outside the routes modelled here.
- `slack_login`: a redirect to `SlackRoutes.SlackOAuthUrl`, or a 500 from its `ValueError`.
- Site ids in query strings are naturals. A non-numeric `site_id` argument is not modelled.
- `GitHubRoutes.CreateRepo`: the `description` value is only checked for its type; it is not stored.
- static/js/github.js, static/js/main.js, and `debounce`, `showNotification`, `showDeployModal` and `deploySite` in editor.js. These are DOM, timers and modals.
- The editor's `loadFile` calls run concurrently at page load. The model treats each load as one atomic step. Loads of different files commute (`Editor.LoadsCommute`), but interleavings with tab switches are not captured. The same holds for `saveCurrentFile`: it builds its notice from `currentFile` after the request returns, so a tab switch during the save makes the notice name the new file, while `Editor.EditorPage.SaveCurrentFile` names the file that was saved.
- `fileExtToMode` and `files` are plain JavaScript objects. A key such as `constructor` or `toString` reads an inherited prototype member rather than `undefined`. `Editor.ModeFor` and `Editor.Lookup` treat every key absent from the table or the map as `undefined`, so they differ from the source on those names.
- `Editor.EditorPage.SaveCurrentFile`: the server's answer is a boolean input. The request it sends is not modelled. app.py has no `/api/sites/<id>/files/<name>` route, so against this server every load and save fails. The first preview then shows `null` for the styles and the script, as `Editor.PreviewWithoutFileRoutes` shows.
- `Editor.Initial`: the textarea's text is an input. It comes from the page template, which is not part of this model.
- `App.Signup`, `App.Login`, `App.Settings`: form fields are strings. `request.form.get` gives `None` for a missing field. Signup then fails its NOT NULL commit or `generate_password_hash(None)` with 500, and the settings profile update commits a NULL username with 500. Those paths are not modelled.
- `GitHubRoutes.FullName`, `GitHubRoutes.HtmlUrl`: the repository keeps the requested name. GitHub rewrites characters outside letters, digits, `-`, `_` and `.` to `-`, so two names the model keeps apart can collide there (a 422 that the route turns into 400), and the stored `repo_name` can differ from the one GitHub uses. That normalisation is not modelled.
- `GitHubRoutes.RepoInfo`: GitHub shows each token only some repositories. `GitHub.repos` stands for what the token in use can see, so a private repository of another account reads as missing, and the route deletes its link as it would for a deleted one.
- main.py: it only re-registers '/' as a health check.

## Findings

| source | as written | input that shows it | evidently intended | confidence | as-written member | corrected member |
|---|---|---|---|---|---|---|
| app.py:166-179 | `abort(404)` and `abort(403)` are raised inside `try … except Exception`, whose handler calls `abort(500)` | a logged-in user opens `/edit/<id>` of a site owned by someone else | 403 for a non-owner and 404 for a missing site | high; not executed | App.EditSiteAsWritten | App.EditSite |
| app.py:186-210 | `get_or_404` and `abort(403)` raise inside `try … except Exception`, which answers 500 with the exception's text | a logged-in user posts to `/api/sites/<id>/run` for a site owned by someone else | 403 for a non-owner and 404 for a missing site, before any code runs | high; not executed | App.RunPythonGuardAsWritten | App.RunPythonGuard |
| app.py:382-388 | the ORM relationship has no delete cascade, so deleting a site sets its link's NOT NULL `site_id` to NULL and the commit fails | the owner deletes a site that has a GitHub repository connected | the site is deleted together with its link, as the `ON DELETE CASCADE` in setup_db.py intends | medium; not executed | App.DeleteSiteAsWritten | App.DeleteSite |
