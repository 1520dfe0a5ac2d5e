/** The account and site routes: signup, login, settings, and the routes that
    create, view, edit, update, rename and delete sites. Each route is a method
    over the database; a rejected request leaves every table as it was. */
module App {
  import opened Common
  import opened Models

  const PreviewCode := "iloveboba"
  const MaxSitesPerUser := 3
  const LimitMessage := "You have reached the maximum limit of 3 sites per account"

  /** No user owns more than three sites, web and Python sites counted together. */
  ghost predicate WithinSiteLimit(sites: map<nat, Site>) {
    forall owner :: SiteCount(sites, owner) <= MaxSitesPerUser
  }

  /** What every route keeps: the schema's constraints and the site limit. */
  ghost predicate Good(db: Database)
    reads db
  {
    db.Valid() && WithinSiteLimit(db.sites)
  }

  /** `data.get(key)` when the value is a string. */
  function Text(data: map<string, Json>, key: string): (r: Option<string>)
    ensures r.Some? <==> key in data && data[key].JStr?
    ensures r.Some? ==> data[key] == JStr(r.value)
  {
    if key in data && data[key].JStr? then Some(data[key].s) else None
  }

  /** `data.get(key) is None`: missing, or JSON null. */
  predicate IsNone(data: map<string, Json>, key: string) {
    key !in data || data[key] == JNull
  }

  // ----- accounts -----

  /** The checks `signup` runs, in order; `None` when all pass. */
  function SignupRejection(users: map<nat, User>, authenticated: bool, username: string,
                           email: string, previewCode: string): (r: Option<Response>)
    ensures r.None? <==> !authenticated && previewCode == PreviewCode
                         && !EmailTaken(users, email) && !UsernameTaken(users, username)
    ensures authenticated ==> r == Some(Response(302, "welcome"))
    ensures !authenticated && previewCode != PreviewCode ==> r == Some(Response(200, "Invalid preview code"))
    ensures !authenticated && previewCode == PreviewCode && EmailTaken(users, email)
            ==> r == Some(Response(200, "Email already registered"))
    ensures !authenticated && previewCode == PreviewCode && !EmailTaken(users, email) && UsernameTaken(users, username)
            ==> r == Some(Response(200, "Username already taken"))
  {
    if authenticated then Some(Response(302, "welcome"))
    else if previewCode != PreviewCode then Some(Response(200, "Invalid preview code"))
    else if EmailTaken(users, email) then Some(Response(200, "Email already registered"))
    else if UsernameTaken(users, username) then Some(Response(200, "Username already taken"))
    else None
  }

  /** `signup` (POST): a rejected request adds no user; an accepted one adds
      exactly one, whose password checks and whose preview code is verified. */
  method Signup(db: Database, authenticated: bool, username: string, email: string, password: string,
                previewCode: string, salt: string, now: nat) returns (r: Response)
    requires Good(db)
    modifies db`users, db`nextUserId
    ensures Good(db)
    ensures var rejection := SignupRejection(old(db.users), authenticated, username, email, previewCode);
            if rejection.Some? then r == rejection.value && unchanged(db)
            else && r == Response(302, "login")
                 && db.users == old(db.users)[old(db.nextUserId) := NewUser(db.lib, username, email, password, salt, None, now)]
                 && old(db.nextUserId) !in old(db.users)
  {
    var rejection := SignupRejection(db.users, authenticated, username, email, previewCode);
    if rejection.Some? {
      return rejection.value;
    }
    var id := db.AddUser(NewUser(db.lib, username, email, password, salt, None, now));
    r := Response(302, "login");
  }

  /** `login` (POST): the user with that email logs in when the password
      checks, which records the login time and changes nothing else. */
  method Login(db: Database, authenticated: bool, email: string, password: string, now: nat)
    returns (r: Response)
    requires Good(db)
    modifies db`users
    ensures Good(db)
    ensures authenticated ==> r == Response(302, "welcome") && unchanged(db)
    ensures var found := UserWithEmail(old(db.users), email);
            !authenticated && found.Some? && CheckPassword(db.lib, old(db.users)[found.value], password)
            ==> && r == Response(302, "welcome")
                && db.users == old(db.users)[found.value := old(db.users)[found.value].(lastLogin := now)]
    ensures var found := UserWithEmail(old(db.users), email);
            !authenticated && !(found.Some? && CheckPassword(db.lib, old(db.users)[found.value], password))
            ==> r == Response(200, "Invalid email or password") && unchanged(db)
  {
    if authenticated {
      return Response(302, "welcome");
    }
    var found := UserWithEmail(db.users, email);
    if found.Some? && CheckPassword(db.lib, db.users[found.value], password) {
      db.users := db.users[found.value := db.users[found.value].(lastLogin := now)];
      return Response(302, "welcome");
    }
    r := Response(200, "Invalid email or password");
  }

  /** The settings form's actions. */
  datatype SettingsAction = UpdateProfile(username: string, email: string)
                          | ChangePassword(currentPassword: string, newPassword: string)
                          | OtherAction

  /** `settings` (POST): a new username or email already held by another user
      is refused; the password changes only when the current one checks. */
  method Settings(db: Database, me: nat, action: SettingsAction, salt: string) returns (r: Response)
    requires Good(db) && me in db.users
    modifies db`users
    ensures Good(db)
    ensures action.UpdateProfile? ==>
      var old_ := old(db.users)[me];
      if action.username != old_.username && UsernameTaken(old(db.users), action.username) then
        r == Response(200, "Username already taken") && unchanged(db)
      else if action.email != old_.email && EmailTaken(old(db.users), action.email) then
        r == Response(200, "Email already registered") && unchanged(db)
      else
        && r == Response(200, "Profile updated successfully")
        && db.users == old(db.users)[me := old_.(username := action.username, email := action.email)]
    ensures action.ChangePassword? ==>
      if !CheckPassword(db.lib, old(db.users)[me], action.currentPassword) then
        r == Response(200, "Current password is incorrect") && unchanged(db)
      else
        && r == Response(200, "Password changed successfully")
        && db.users == old(db.users)[me := SetPassword(db.lib, old(db.users)[me], action.newPassword, salt)]
    ensures action.OtherAction? ==> r == Response(200, "settings.html") && unchanged(db)
  {
    var user := db.users[me];
    match action
    case UpdateProfile(username, email) =>
      if username != user.username && UsernameTaken(db.users, username) {
        return Response(200, "Username already taken");
      }
      if email != user.email && EmailTaken(db.users, email) {
        return Response(200, "Email already registered");
      }
      ReplaceUserKeepsConstraints(db.users, db.sites, db.repos, me, user.(username := username, email := email));
      db.users := db.users[me := user.(username := username, email := email)];
      r := Response(200, "Profile updated successfully");
    case ChangePassword(current, newPassword) =>
      if !CheckPassword(db.lib, user, current) {
        return Response(200, "Current password is incorrect");
      }
      ReplaceUserKeepsConstraints(db.users, db.sites, db.repos, me, SetPassword(db.lib, user, newPassword, salt));
      db.users := db.users[me := SetPassword(db.lib, user, newPassword, salt)];
      r := Response(200, "Password changed successfully");
    case OtherAction =>
      r := Response(200, "settings.html");
  }

  // ----- reading a site -----

  /** `view_site`: the site's HTML, unless the site is private and the
      visitor is not its logged-in owner. */
  function ViewSite(sites: map<nat, Site>, viewer: Option<nat>, slug: string): (r: Response)
    requires UniqueSlugs(sites)
    ensures r.status == 404 <==> !SlugTaken(sites, slug)
    ensures r.status == 403 <==> exists id | id in sites && sites[id].slug == slug ::
                                   !sites[id].isPublic && viewer != Some(sites[id].userId)
    ensures r.status == 200 <==> exists id | id in sites && sites[id].slug == slug ::
                                   (sites[id].isPublic || viewer == Some(sites[id].userId))
                                   && r.message == sites[id].htmlContent
  {
    var found := SiteWithSlug(sites, slug);
    if found.None? then Response(404, "")
    else
      var site := sites[found.value];
      if !site.isPublic && (viewer.None? || site.userId != viewer.value) then Response(403, "")
      else Response(200, site.htmlContent)
  }

  /** The guard on every owner-only route: the site must exist (404) and
      belong to the caller (403). */
  function OwnerGuard(sites: map<nat, Site>, me: nat, siteId: nat): (r: Option<Response>)
    ensures r.None? <==> siteId in sites && sites[siteId].userId == me
    ensures r == Some(Response(404, "")) <==> siteId !in sites
    ensures r == Some(Response(403, "")) <==> siteId in sites && sites[siteId].userId != me
  {
    if siteId !in sites then Some(Response(404, ""))
    else if sites[siteId].userId != me then Some(Response(403, ""))
    else None
  }

  /** `edit_site`, with its guard answering 404 and 403 as its `abort` calls
      ask: the owner gets the editor that matches the site's type. */
  function EditSite(sites: map<nat, Site>, me: nat, siteId: nat): (r: Response)
    ensures r.status == 200 <==> siteId in sites && sites[siteId].userId == me
    ensures r.status == 403 <==> siteId in sites && sites[siteId].userId != me
    ensures r.status == 404 <==> siteId !in sites
    ensures r.status == 200 ==> r.message == (if sites[siteId].siteType == "python"
                                              then "python_editor.html" else "site_editor.html")
  {
    var guard := OwnerGuard(sites, me, siteId);
    if guard.Some? then guard.value
    else if sites[siteId].siteType == "python" then Response(200, "python_editor.html")
    else Response(200, "site_editor.html")
  }

  /** `edit_site` as written: `abort(404)` and `abort(403)` raise inside the
      `try`, whose `except Exception` turns them into `abort(500)`. */
  function EditSiteAsWritten(sites: map<nat, Site>, me: nat, siteId: nat): (r: Response)
    ensures r.status == 500 <==> !(siteId in sites && sites[siteId].userId == me)
    ensures r.status != 500 ==> r == EditSite(sites, me, siteId)
  {
    if OwnerGuard(sites, me, siteId).Some? then Response(500, "") else EditSite(sites, me, siteId)
  }

  /** A non-owner opening the editor gets 500 from the route as written,
      where the 403 that was meant never reaches the client. */
  lemma EditSiteNonOwnerGets500(site: Site, me: nat)
    requires site.userId != me
    ensures EditSiteAsWritten(map[1 := site], me, 1).status == 500
    ensures EditSite(map[1 := site], me, 1).status == 403
  {
  }

  /** The guard of `run_python` before it runs the code (the run itself is
      not modelled), with 404 and 403 as its `abort` calls ask. */
  function RunPythonGuard(sites: map<nat, Site>, me: nat, siteId: nat): (r: Option<Response>)
    ensures r.None? <==> siteId in sites && sites[siteId].userId == me
    ensures r.Some? ==> r.value.status == (if siteId in sites then 403 else 404)
  {
    OwnerGuard(sites, me, siteId)
  }

  /** `str(e)` of werkzeug's `NotFound`: its code, name and default
      description. */
  const NotFoundText := "404 Not Found: The requested URL was not found on the server. "
                        + "If you entered the URL manually please check your spelling and try again."

  /** `str(e)` of werkzeug's `Forbidden`. */
  const ForbiddenText := "403 Forbidden: You don't have the permission to access the requested resource. "
                         + "It is either read-protected or not readable by the server."

  /** The same guard as written: the `abort` raises inside the `try` and the
      `except Exception` answers 500 with the exception's text. */
  function RunPythonGuardAsWritten(sites: map<nat, Site>, me: nat, siteId: nat): (r: Option<Response>)
    ensures r.None? <==> RunPythonGuard(sites, me, siteId).None?
    ensures r.Some? ==> r.value.status == 500
    ensures siteId !in sites ==> r == Some(Response(500, NotFoundText))
    ensures siteId in sites && sites[siteId].userId != me ==> r == Some(Response(500, ForbiddenText))
  {
    if siteId !in sites then Some(Response(500, NotFoundText))
    else if sites[siteId].userId != me then Some(Response(500, ForbiddenText))
    else None
  }

  lemma RunPythonNonOwnerGets500(site: Site, me: nat)
    requires site.userId != me
    ensures RunPythonGuardAsWritten(map[1 := site], me, 1) == Some(Response(500, ForbiddenText))
    ensures RunPythonGuard(map[1 := site], me, 1) == Some(Response(403, ""))
  {
  }

  /** `python_editor`: owners only. */
  function PythonEditor(sites: map<nat, Site>, me: nat, siteId: nat): (r: Response)
    ensures r.status == 200 <==> siteId in sites && sites[siteId].userId == me
    ensures r.status == 403 <==> siteId in sites && sites[siteId].userId != me
    ensures r.status == 404 <==> siteId !in sites
  {
    var guard := OwnerGuard(sites, me, siteId);
    if guard.Some? then guard.value else Response(200, "python_editor.html")
  }

  // ----- creating sites -----

  /** The checks `create_site` and `create_python_site` run before building
      the site, in order: the limit (before the body is read), then the body,
      then the name. */
  function CreateRejection(sites: map<nat, Site>, me: nat, body: Body): (r: Option<Response>)
    ensures SiteCount(sites, me) >= MaxSitesPerUser ==> r == Some(Response(403, LimitMessage))
    ensures SiteCount(sites, me) < MaxSitesPerUser && EmptyBody(body)
            ==> r == Some(Response(400, "Invalid request data"))
    ensures SiteCount(sites, me) < MaxSitesPerUser && !EmptyBody(body) && !Truthy(Field(body.value, "name"))
            ==> r == Some(Response(400, "Name is required"))
    ensures r.None? <==> SiteCount(sites, me) < MaxSitesPerUser && !EmptyBody(body)
                         && Truthy(Field(body.value, "name"))
  {
    if SiteCount(sites, me) >= MaxSitesPerUser then Some(Response(403, LimitMessage))
    else if EmptyBody(body) then Some(Response(400, "Invalid request data"))
    else if !Truthy(Field(body.value, "name")) then Some(Response(400, "Name is required"))
    else None
  }

  /** The insert both create routes end in: the row `Site(**kwargs)` builds;
      the commit fails, and is rolled back, on a slug that is taken. The caller
      is below the limit, so the limit still holds after the insert. */
  method InsertSite(db: Database, kwargs: SiteArgs, now: nat) returns (id: Option<nat>)
    requires Good(db) && kwargs.userId in db.users && kwargs.name.Some?
    requires SiteCount(db.sites, kwargs.userId) < MaxSitesPerUser
    modifies db`sites, db`nextSiteId
    ensures Good(db)
    ensures var row := SiteRow(InitSite(db.lib, kwargs), now).value;
            && (id.Some? <==> !SlugTaken(old(db.sites), row.slug))
            && (id.None? ==> unchanged(db))
            && (id.Some? ==> id.value == old(db.nextSiteId) && id.value !in old(db.sites)
                             && db.sites == old(db.sites)[id.value := row])
  {
    var row := SiteRow(InitSite(db.lib, kwargs), now).value;
    id := db.AddSite(row);
    if id.Some? {
      forall owner ensures SiteCount(db.sites, owner) <= MaxSitesPerUser {
        SiteCountInsert(old(db.sites), id.value, row, owner);
      }
    }
  }

  /** `create_site`: over the limit is 403 whatever the body; a missing body
      or name is 400; a name whose slug is taken fails the commit (500). On
      success exactly one web site is added, with the slug of its name. */
  method CreateSite(db: Database, me: nat, body: Body, now: nat) returns (r: Response)
    requires Good(db) && me in db.users
    modifies db`sites, db`nextSiteId
    ensures Good(db)
    ensures CreateRejection(old(db.sites), me, body).Some? ==>
              r == CreateRejection(old(db.sites), me, body).value && unchanged(db)
    ensures CreateRejection(old(db.sites), me, body).None? && Text(body.value, "name").None? ==>
              r == Response(500, "Failed to create site") && unchanged(db)
    ensures CreateRejection(old(db.sites), me, body).None? && Text(body.value, "name").Some? ==>
              var name := Text(body.value, "name").value;
              if SlugTaken(old(db.sites), db.lib.slugify(name)) then
                r == Response(500, "Failed to create site") && unchanged(db)
              else
                && r == Response(200, "Site created successfully")
                && old(db.nextSiteId) !in old(db.sites)
                && db.sites == old(db.sites)[old(db.nextSiteId) :=
                     Site(name, db.lib.slugify(name), DefaultSiteType, DefaultHtml, DefaultPython,
                          true, now, now, me)]
  {
    var rejection := CreateRejection(db.sites, me, body);
    if rejection.Some? {
      return rejection.value;
    }
    var name := Text(body.value, "name");
    if name.None? {
      // a non-string name: `slugify` raises and the route rolls back
      return Response(500, "Failed to create site");
    }
    CreatedSiteRow(db.lib, name.value, me, false, now);
    var id := InsertSite(db, WebSiteArgs(name.value, me), now);
    if id.None? {
      return Response(500, "Failed to create site");
    }
    r := Response(200, "Site created successfully");
  }

  /** `create_python_site`: the same checks as `create_site`; on success
      exactly one site of type 'python' is added. */
  method CreatePythonSite(db: Database, me: nat, body: Body, now: nat) returns (r: Response)
    requires Good(db) && me in db.users
    modifies db`sites, db`nextSiteId
    ensures Good(db)
    ensures CreateRejection(old(db.sites), me, body).Some? ==>
              r == CreateRejection(old(db.sites), me, body).value && unchanged(db)
    ensures CreateRejection(old(db.sites), me, body).None? && Text(body.value, "name").None? ==>
              r == Response(500, "Failed to create Python script") && unchanged(db)
    ensures CreateRejection(old(db.sites), me, body).None? && Text(body.value, "name").Some? ==>
              var name := Text(body.value, "name").value;
              if SlugTaken(old(db.sites), db.lib.slugify(name)) then
                r == Response(500, "Failed to create Python script") && unchanged(db)
              else
                && r == Response(200, "Python script created successfully")
                && old(db.nextSiteId) !in old(db.sites)
                && db.sites == old(db.sites)[old(db.nextSiteId) :=
                     Site(name, db.lib.slugify(name), "python", DefaultPython, DefaultPython,
                          true, now, now, me)]
  {
    var rejection := CreateRejection(db.sites, me, body);
    if rejection.Some? {
      return rejection.value;
    }
    var name := Text(body.value, "name");
    if name.None? {
      return Response(500, "Failed to create Python script");
    }
    CreatedSiteRow(db.lib, name.value, me, true, now);
    var id := InsertSite(db, PythonSiteArgs(name.value, me), now);
    if id.None? {
      return Response(500, "Failed to create Python script");
    }
    r := Response(200, "Python script created successfully");
  }

  // ----- changing sites -----

  /** The text a `Text` column holds after `data.get(key)` is assigned to it:
      a string as it is, a boolean as PostgreSQL's assignment cast from
      `boolean` to `text` writes it; `None` when the value is `None`, which
      the route does not assign. */
  function ContentValue(data: map<string, Json>, key: string): (r: Option<string>)
    ensures r.None? <==> IsNone(data, key)
    ensures key in data && data[key].JStr? ==> r == Some(data[key].s)
    ensures key in data && data[key].JBool? ==> r == Some(if data[key].b then "true" else "false")
  {
    if key !in data then None
    else match data[key]
      case JNull => None
      case JStr(s) => Some(s)
      case JBool(b) => Some(if b then "true" else "false")
  }

  /** The site after `update_site`: each content field that was given is
      overwritten, the other kept, and `updated_at` set. */
  function Updated(site: Site, data: map<string, Json>, now: nat): (s: Site)
    ensures s.htmlContent == ContentValue(data, "html_content").GetOr(site.htmlContent)
    ensures s.pythonContent == ContentValue(data, "python_content").GetOr(site.pythonContent)
    ensures s.updatedAt == now
    ensures s.(htmlContent := site.htmlContent, pythonContent := site.pythonContent, updatedAt := site.updatedAt) == site
  {
    site.(htmlContent := ContentValue(data, "html_content").GetOr(site.htmlContent),
          pythonContent := ContentValue(data, "python_content").GetOr(site.pythonContent),
          updatedAt := now)
  }

  /** `update_site`: a partial update by the owner. */
  method UpdateSite(db: Database, me: nat, siteId: nat, body: Body, now: nat) returns (r: Response)
    requires Good(db)
    modifies db`sites
    ensures Good(db)
    ensures OwnerGuard(old(db.sites), me, siteId).Some? ==>
              r == OwnerGuard(old(db.sites), me, siteId).value && unchanged(db)
    ensures OwnerGuard(old(db.sites), me, siteId).None? && body.None? ==>
              r == Response(500, "") && unchanged(db)
    ensures OwnerGuard(old(db.sites), me, siteId).None? && body.Some? ==>
              if IsNone(body.value, "html_content") && IsNone(body.value, "python_content") then
                r == Response(400, "Content is required") && unchanged(db)
              else
                && r == Response(200, "Site updated successfully")
                && db.sites == old(db.sites)[siteId := Updated(old(db.sites)[siteId], body.value, now)]
  {
    var guard := OwnerGuard(db.sites, me, siteId);
    if guard.Some? {
      return guard.value;
    }
    if body.None? {
      // `data.get` on a missing body raises, and Flask answers 500
      return Response(500, "");
    }
    var data := body.value;
    if IsNone(data, "html_content") && IsNone(data, "python_content") {
      return Response(400, "Content is required");
    }
    var site := Updated(db.sites[siteId], data, now);
    SiteCountPreserved(db.sites, siteId, site);
    ReplaceSiteKeepsConstraints(db.users, db.sites, db.repos, siteId, site);
    db.sites := db.sites[siteId := site];
    r := Response(200, "Site updated successfully");
  }

  /** Rewriting one site without moving it to another owner keeps the site limit. */
  lemma SiteCountPreserved(sites: map<nat, Site>, id: nat, s: Site)
    requires id in sites && s.userId == sites[id].userId && WithinSiteLimit(sites)
    ensures WithinSiteLimit(sites[id := s])
  {
    var sites' := sites[id := s];
    forall owner ensures SiteCount(sites', owner) <= MaxSitesPerUser {
      SiteCountReplace(sites, id, s, owner);
      assert SiteCount(sites, owner) <= MaxSitesPerUser;
    }
  }

  /** `rename_site`: a site may keep its own slug; a slug held by another
      site is refused with 400 and nothing changes. */
  method RenameSite(db: Database, me: nat, siteId: nat, body: Body, now: nat) returns (r: Response)
    requires Good(db)
    modifies db`sites
    ensures Good(db)
    ensures OwnerGuard(old(db.sites), me, siteId).Some? ==>
              r == OwnerGuard(old(db.sites), me, siteId).value && unchanged(db)
    ensures OwnerGuard(old(db.sites), me, siteId).None? && body.None? ==>
              r == Response(500, "") && unchanged(db)
    ensures OwnerGuard(old(db.sites), me, siteId).None? && body.Some? ==>
              if !Truthy(Field(body.value, "name")) then
                r == Response(400, "New name is required") && unchanged(db)
              else if Text(body.value, "name").None? then
                r == Response(500, "Failed to rename site") && unchanged(db)
              else
                var newName := Text(body.value, "name").value;
                var newSlug := db.lib.slugify(newName);
                if SlugTakenByOther(old(db.sites), newSlug, siteId) then
                  r == Response(400, "A site with this name already exists") && unchanged(db)
                else
                  && r == Response(200, "Site renamed successfully")
                  && db.sites == old(db.sites)[siteId :=
                       old(db.sites)[siteId].(name := newName, slug := newSlug, updatedAt := now)]
  {
    var guard := OwnerGuard(db.sites, me, siteId);
    if guard.Some? {
      return guard.value;
    }
    if body.None? {
      return Response(500, "");
    }
    if !Truthy(Field(body.value, "name")) {
      return Response(400, "New name is required");
    }
    var newName := Text(body.value, "name");
    if newName.None? {
      // a non-string name: `slugify` raises inside the `try`
      return Response(500, "Failed to rename site");
    }
    var newSlug := db.lib.slugify(newName.value);
    if SlugTakenByOther(db.sites, newSlug, siteId) {
      return Response(400, "A site with this name already exists");
    }
    var site := db.sites[siteId].(name := newName.value, slug := newSlug, updatedAt := now);
    SiteCountPreserved(db.sites, siteId, site);
    ReplaceSiteKeepsConstraints(db.users, db.sites, db.repos, siteId, site);
    db.sites := db.sites[siteId := site];
    r := Response(200, "Site renamed successfully");
  }

  /** `delete_site` as written: deleting a site that has a GitHub link makes
      the ORM set the link's NOT NULL `site_id` to NULL, the commit fails and
      is rolled back (500); any other owned site is deleted. */
  function DeleteSiteAsWritten(sites: map<nat, Site>, repos: map<nat, GitHubRepo>, me: nat, siteId: nat)
    : (r: Response)
    ensures r.status == 500 <==> siteId in sites && sites[siteId].userId == me && HasRepo(repos, siteId)
    ensures r.status == 200 <==> siteId in sites && sites[siteId].userId == me && !HasRepo(repos, siteId)
  {
    var guard := OwnerGuard(sites, me, siteId);
    if guard.Some? then guard.value
    else if HasRepo(repos, siteId) then Response(500, "Failed to delete site")
    else Response(200, "Site deleted successfully")
  }

  /** The owner of a linked site cannot delete it through the route as written. */
  lemma DeleteLinkedSiteFails(site: Site, link: GitHubRepo)
    requires link.siteId == 1
    ensures DeleteSiteAsWritten(map[1 := site], map[1 := link], site.userId, 1).status == 500
  {
    assert HasRepo(map[1 := link], 1) by { assert 1 in map[1 := link]; }
  }

  /** `delete_site`, with the link going along with its site (the cascade
      the schema's `ON DELETE CASCADE` asks for): only the owner may delete. */
  method DeleteSite(db: Database, me: nat, siteId: nat) returns (r: Response)
    requires Good(db)
    modifies db`sites, db`repos
    ensures Good(db)
    ensures OwnerGuard(old(db.sites), me, siteId).Some? ==>
              r == OwnerGuard(old(db.sites), me, siteId).value && unchanged(db)
    ensures OwnerGuard(old(db.sites), me, siteId).None? ==>
              && r == Response(200, "Site deleted successfully")
              && db.sites == old(db.sites) - {siteId}
              && db.repos == LinksWithout(old(db.repos), siteId)
  {
    var guard := OwnerGuard(db.sites, me, siteId);
    if guard.Some? {
      return guard.value;
    }
    forall owner ensures SiteCount(db.sites - {siteId}, owner) <= MaxSitesPerUser {
      SiteCountRemove(db.sites, siteId, owner);
    }
    DeleteSiteKeepsConstraints(db.users, db.sites, db.repos, siteId);
    db.repos := LinksWithout(db.repos, siteId);
    db.sites := db.sites - {siteId};
    r := Response(200, "Site deleted successfully");
  }
}
