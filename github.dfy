/** The GitHub routes: connection status, creating the one repository a site
    may have, pushing a site's two files to it, checking it still exists, and
    disconnecting it. GitHub itself is a map from repository names to their
    files; the Flask session holds the access token and the current site. */
module GitHubRoutes {
  import opened Common
  import opened Models
  import App

  /** The Flask session's GitHub fields. */
  class Session {
    var githubToken: Option<string>
    var currentSiteId: Option<nat>

    constructor (githubToken: Option<string>, currentSiteId: Option<nat>)
      ensures this.githubToken == githubToken && this.currentSiteId == currentSiteId
    {
      this.githubToken := githubToken;
      this.currentSiteId := currentSiteId;
    }
  }

  datatype Commit = Commit(message: string, path: string, content: string)

  /** A repository on GitHub: its page URL, its files by path, and the commits
      made through the API, oldest first. */
  datatype RemoteRepo = RemoteRepo(htmlUrl: string, files: map<string, string>, commits: seq<Commit>)

  /** GitHub as the routes reach it: which access tokens are valid (and whose
      login each belongs to), and the repositories by full name. */
  class GitHub {
    var accounts: map<string, string>
    var repos: map<string, RemoteRepo>

    constructor (accounts: map<string, string>, repos: map<string, RemoteRepo>)
      ensures this.accounts == accounts && this.repos == repos
    {
      this.accounts := accounts;
      this.repos := repos;
    }

    /** `repo.update_file(path, message, content, sha)` on a file that exists. */
    method UpdateFile(name: string, path: string, message: string, content: string)
      requires name in repos && path in repos[name].files
      modifies this`repos
      ensures repos == old(repos)[name := Write(old(repos)[name], (path, content), message)]
    {
      var repo := repos[name];
      repos := repos[name := repo.(files := repo.files[path := content],
                                   commits := repo.commits + [Commit(message, path, content)])];
    }

    /** `repo.create_file(path, message, content)` after `get_contents` said 404. */
    method CreateFile(name: string, path: string, message: string, content: string)
      requires name in repos && path !in repos[name].files
      modifies this`repos
      ensures repos == old(repos)[name := Write(old(repos)[name], (path, content), message)]
    {
      var repo := repos[name];
      repos := repos[name := repo.(files := repo.files[path := content],
                                   commits := repo.commits + [Commit(message, path, content)])];
    }

    /** The loop of `push_changes`: for each (path, content) in order, update
        the file when it exists and create it when it does not. */
    method WriteFiles(name: string, updates: seq<(string, string)>, message: string)
      requires name in repos
      modifies this`repos
      ensures repos == old(repos)[name := WriteAll(old(repos)[name], updates, message)]
    {
      var i := 0;
      while i < |updates|
        invariant 0 <= i <= |updates|
        invariant repos == old(repos)[name := WriteAll(old(repos)[name], updates[..i], message)]
      {
        var (path, content) := updates[i];
        if path in repos[name].files {
          UpdateFile(name, path, message, content);
        } else {
          CreateFile(name, path, message, content);
        }
        assert updates[..i + 1][..i] == updates[..i];
        i := i + 1;
      }
      assert updates[..i] == updates;
    }
  }

  /** One file written with one commit, whether it was updated or created. */
  function Write(repo: RemoteRepo, update: (string, string), message: string): (r: RemoteRepo)
    ensures r.htmlUrl == repo.htmlUrl
    ensures r.files.Keys == repo.files.Keys + {update.0} && r.files[update.0] == update.1
    ensures forall path | path in repo.files && path != update.0 :: r.files[path] == repo.files[path]
    ensures |r.commits| == |repo.commits| + 1 && r.commits[..|repo.commits|] == repo.commits
    ensures r.commits[|repo.commits|] == Commit(message, update.0, update.1)
  {
    repo.(files := repo.files[update.0 := update.1],
          commits := repo.commits + [Commit(message, update.0, update.1)])
  }

  /** The files written in order, each with its own commit. */
  function WriteAll(repo: RemoteRepo, updates: seq<(string, string)>, message: string): RemoteRepo
  {
    if updates == [] then repo
    else Write(WriteAll(repo, updates[..|updates| - 1], message), updates[|updates| - 1], message)
  }

  /** The content a sequence of writes leaves at a path: the last one's. */
  function LastWrite(updates: seq<(string, string)>, path: string): Option<string>
  {
    if updates == [] then None
    else if updates[|updates| - 1].0 == path then Some(updates[|updates| - 1].1)
    else LastWrite(updates[..|updates| - 1], path)
  }

  /** After the writes, a path holds the content last written to it, and a
      path no write names is exactly as it was; the repository's URL is kept
      and each write added one commit. */
  lemma {:induction false} WriteAllAt(repo: RemoteRepo, updates: seq<(string, string)>, message: string,
                                      path: string)
    ensures var r := WriteAll(repo, updates, message);
            && r.htmlUrl == repo.htmlUrl
            && |r.commits| == |repo.commits| + |updates|
            && r.commits[..|repo.commits|] == repo.commits
            && (LastWrite(updates, path).Some? ==> path in r.files && r.files[path] == LastWrite(updates, path).value)
            && (LastWrite(updates, path).None? ==>
                  (path in r.files <==> path in repo.files)
                  && (path in repo.files ==> r.files[path] == repo.files[path]))
  {
    if updates != [] {
      var init := updates[..|updates| - 1];
      WriteAllAt(repo, init, message, path);
      var before := WriteAll(repo, init, message);
      assert (before.commits + [Commit(message, updates[|updates| - 1].0, updates[|updates| - 1].1)])[..|repo.commits|]
          == before.commits[..|repo.commits|];
    }
  }

  const IndexPath := "index.html"
  const MainPath := "main.py"
  const DefaultCommitMessage := "Update from Spaces"

  /** `files_to_update`: the site's HTML as index.html, its Python as main.py. */
  function SiteFiles(site: Site): seq<(string, string)> {
    [(IndexPath, site.htmlContent), (MainPath, site.pythonContent)]
  }

  /** A push writes exactly two files, index.html and main.py, with the
      site's contents and two commits; every other path stays as it was. */
  lemma PushWritesTwoFiles(repo: RemoteRepo, site: Site, message: string, path: string)
    ensures var r := WriteAll(repo, SiteFiles(site), message);
            && IndexPath in r.files && r.files[IndexPath] == site.htmlContent
            && MainPath in r.files && r.files[MainPath] == site.pythonContent
            && r.commits == repo.commits + [Commit(message, IndexPath, site.htmlContent),
                                            Commit(message, MainPath, site.pythonContent)]
            && (path != IndexPath && path != MainPath ==>
                  (path in r.files <==> path in repo.files)
                  && (path in repo.files ==> r.files[path] == repo.files[path]))
  {
    var ups := SiteFiles(site);
    assert ups[..1] == [ups[0]];
    assert ups[..1][..0] == [];
    assert WriteAll(repo, [], message) == repo;
    assert WriteAll(repo, ups[..1], message) == Write(repo, ups[0], message);
    assert WriteAll(repo, ups, message) == Write(WriteAll(repo, ups[..1], message), ups[1], message);
  }

  // ----- resolving the token and the site -----

  /** Where the access token comes from. */
  datatype TokenSource = SessionToken(token: string) | StoredToken(token: string) | NoToken

  /** `create_repo` and `push_changes`: the session's token first; else the
      user's stored token (which is then copied into the session); else none. */
  function ResolveToken(sessionToken: Option<string>, stored: Option<string>): (r: TokenSource)
    ensures r.SessionToken? <==> Present(sessionToken)
    ensures r.SessionToken? ==> r.token == sessionToken.value
    ensures r.StoredToken? <==> !Present(sessionToken) && Present(stored)
    ensures r.StoredToken? ==> r.token == stored.value
    ensures r.NoToken? <==> !Present(sessionToken) && !Present(stored)
  {
    if Present(sessionToken) then SessionToken(sessionToken.value)
    else if Present(stored) then StoredToken(stored.value)
    else NoToken
  }

  /** The session side of token resolution: a stored token is copied into
      the session; nothing else changes. */
  method UseToken(session: Session, stored: Option<string>) returns (token: Option<string>)
    modifies session`githubToken
    ensures var source := ResolveToken(old(session.githubToken), stored);
            && (token.Some? <==> !source.NoToken?)
            && (token.Some? ==> token.value == source.token)
            && session.githubToken == (if source.StoredToken? then stored else old(session.githubToken))
  {
    var source := ResolveToken(session.githubToken, stored);
    match source
    case SessionToken(t) =>
      token := Some(t);
    case StoredToken(t) =>
      session.githubToken := stored;
      token := Some(t);
    case NoToken =>
      token := None;
  }

  /** `request.args.get('site_id') or session.get('current_site_id')` */
  function SiteIdOf(arg: Option<nat>, sessionSite: Option<nat>): (r: Option<nat>)
    ensures arg.Some? ==> r == arg
    ensures arg.None? && PresentId(sessionSite) ==> r == sessionSite
    ensures r.None? <==> arg.None? && !PresentId(sessionSite)
  {
    if arg.Some? then arg else if PresentId(sessionSite) then sessionSite else None
  }

  /** The guards shared by the site-level GitHub routes, in order: a site id
      (400), a site with that id (404), owned by the caller (403). */
  function SiteGuard(sites: map<nat, Site>, me: nat, siteId: Option<nat>, noIdMessage: string,
                     deniedMessage: string): (r: Option<Response>)
    ensures r.None? <==> siteId.Some? && siteId.value in sites && sites[siteId.value].userId == me
    ensures siteId.None? ==> r == Some(Response(400, noIdMessage))
    ensures siteId.Some? && siteId.value !in sites ==> r == Some(Response(404, "Site not found"))
    ensures siteId.Some? && siteId.value in sites && sites[siteId.value].userId != me
            ==> r == Some(Response(403, deniedMessage))
  {
    if siteId.None? then Some(Response(400, noIdMessage))
    else if siteId.value !in sites then Some(Response(404, "Site not found"))
    else if sites[siteId.value].userId != me then Some(Response(403, deniedMessage))
    else None
  }

  const PermissionMessage := "You do not have permission to access this site"

  // ----- github_status -----

  datatype Status = Status(connected: bool, repoConnected: bool, username: Option<string>,
                           repoName: Option<string>, repoUrl: Option<string>)

  /** `github_status`: without a token in the session nothing is connected;
      with a token GitHub accepts, the account is connected, and so is the
      current site's repository when it has one. */
  method GitHubStatus(db: Database, session: Session, gh: GitHub) returns (s: Status)
    requires db.Valid()
    ensures !Present(session.githubToken) ==> !s.connected && !s.repoConnected
    ensures s.connected <==> Present(session.githubToken) && session.githubToken.value in gh.accounts
    ensures s.connected ==> s.username == Some(gh.accounts[session.githubToken.value])
    ensures s.repoConnected <==> s.connected && PresentId(session.currentSiteId)
                                 && session.currentSiteId.value in db.sites
                                 && HasRepo(db.repos, session.currentSiteId.value)
    ensures s.repoConnected ==> var link := db.repos[RepoOf(db.repos, session.currentSiteId.value).value];
                                s.repoName == Some(link.repoName) && s.repoUrl == Some(link.repoUrl)
  {
    if !Present(session.githubToken) || session.githubToken.value !in gh.accounts {
      // no token, or `user.login` raises for a token GitHub refuses
      return Status(false, false, None, None, None);
    }
    var login := gh.accounts[session.githubToken.value];
    var siteId := session.currentSiteId;
    if PresentId(siteId) && siteId.value in db.sites {
      var link := RepoOf(db.repos, siteId.value);
      if link.Some? {
        var repo := db.repos[link.value];
        return Status(true, true, Some(login), Some(repo.repoName), Some(repo.repoUrl));
      }
    }
    s := Status(true, false, Some(login), None, None);
  }

  // ----- create_repo -----

  /** The checks `create_repo` runs after finding a token, in order: site id,
      site, owner, no repository yet, a body, a name. */
  function CreateRepoRejection(sites: map<nat, Site>, repos: map<nat, GitHubRepo>, me: nat,
                               siteId: Option<nat>, body: Body): (r: Option<Response>)
    ensures r.None? <==> && siteId.Some? && siteId.value in sites && sites[siteId.value].userId == me
                         && !HasRepo(repos, siteId.value) && !EmptyBody(body)
                         && Truthy(Field(body.value, "name"))
    ensures SiteGuard(sites, me, siteId, "No site ID provided. Please select a site.", PermissionMessage).Some?
            ==> r == SiteGuard(sites, me, siteId, "No site ID provided. Please select a site.", PermissionMessage)
    ensures SiteGuard(sites, me, siteId, "No site ID provided. Please select a site.", PermissionMessage).None?
            && HasRepo(repos, siteId.value)
            ==> r == Some(Response(400, "This site already has a GitHub repository connected"))
    ensures SiteGuard(sites, me, siteId, "No site ID provided. Please select a site.", PermissionMessage).None?
            && !HasRepo(repos, siteId.value) && EmptyBody(body)
            ==> r == Some(Response(400, "No repository data provided"))
    ensures SiteGuard(sites, me, siteId, "No site ID provided. Please select a site.", PermissionMessage).None?
            && !HasRepo(repos, siteId.value) && !EmptyBody(body) && !Truthy(Field(body.value, "name"))
            ==> r == Some(Response(400, "Repository name is required"))
  {
    var guard := SiteGuard(sites, me, siteId, "No site ID provided. Please select a site.", PermissionMessage);
    if guard.Some? then guard
    else if HasRepo(repos, siteId.value) then Some(Response(400, "This site already has a GitHub repository connected"))
    else if EmptyBody(body) then Some(Response(400, "No repository data provided"))
    else if !Truthy(Field(body.value, "name")) then Some(Response(400, "Repository name is required"))
    else None
  }

  /** `data.get('private', True)` when it is a boolean; `None` for any other
      value, which the GitHub client refuses. */
  function PrivateFlag(data: map<string, Json>): (r: Option<bool>)
    ensures "private" !in data ==> r == Some(true)
    ensures "private" in data ==> (r.Some? <==> data["private"].JBool?)
    ensures "private" in data && data["private"].JBool? ==> r == Some(data["private"].b)
  {
    if "private" !in data then Some(true)
    else if data["private"].JBool? then Some(data["private"].b)
    else None
  }

  /** `data.get('description', '')` is a string the GitHub client accepts. */
  predicate DescriptionOk(data: map<string, Json>) {
    "description" !in data || data["description"].JStr?
  }

  /** `repo.full_name` of a repository created under an account. */
  function FullName(login: string, name: string): string {
    login + "/" + name
  }

  /** `repo.html_url` GitHub gives a new repository. */
  function HtmlUrl(fullName: string): string {
    "https://github.com/" + fullName
  }

  /** `create_repo`: the token is resolved first (401 without one); then the
      guards run in order and any failure adds no link and creates nothing;
      on success GitHub has one more repository and the site one link to it,
      private unless the request says otherwise. */
  method CreateRepo(db: Database, session: Session, gh: GitHub, me: nat, siteArg: Option<nat>, body: Body,
                    initialFiles: map<string, string>, now: nat) returns (r: Response)
    requires App.Good(db) && me in db.users
    modifies session`githubToken, db`repos, db`nextRepoId, gh`repos
    ensures App.Good(db)
    ensures var source := ResolveToken(old(session.githubToken), old(db.users)[me].githubToken);
            session.githubToken == (if source.StoredToken? then Some(source.token) else old(session.githubToken))
    ensures var source := ResolveToken(old(session.githubToken), old(db.users)[me].githubToken);
            source.NoToken? ==> && r == Response(401, "No GitHub account connected. Please link your GitHub account.")
                                && unchanged(db) && unchanged(gh)
    ensures var source := ResolveToken(old(session.githubToken), old(db.users)[me].githubToken);
            var siteId := SiteIdOf(siteArg, old(session.currentSiteId));
            var rejection := CreateRepoRejection(old(db.sites), old(db.repos), me, siteId, body);
            !source.NoToken? && rejection.Some? ==> r == rejection.value && unchanged(db) && unchanged(gh)
    ensures var source := ResolveToken(old(session.githubToken), old(db.users)[me].githubToken);
            var siteId := SiteIdOf(siteArg, old(session.currentSiteId));
            var rejection := CreateRepoRejection(old(db.sites), old(db.repos), me, siteId, body);
            !source.NoToken? && rejection.None? ==>
              var name := App.Text(body.value, "name");
              var private := PrivateFlag(body.value);
              if name.None? || !DescriptionOk(body.value) || private.None? then
                r == Response(500, "Failed to create repository") && unchanged(db) && unchanged(gh)
              else if source.token !in gh.accounts then
                r == Response(400, "Bad credentials") && unchanged(db) && unchanged(gh)
              else
                var fullName := FullName(gh.accounts[source.token], name.value);
                if fullName in old(gh.repos) then
                  r == Response(400, "Repository creation failed") && unchanged(db) && unchanged(gh)
                else
                  && r == Response(200, "Repository created successfully")
                  && gh.repos == old(gh.repos)[fullName := RemoteRepo(HtmlUrl(fullName), initialFiles, [])]
                  && old(db.nextRepoId) !in old(db.repos)
                  && db.repos == old(db.repos)[old(db.nextRepoId) :=
                       GitHubRepo(fullName, HtmlUrl(fullName), private.value, now, now, siteId.value)]
  {
    var token := UseToken(session, db.users[me].githubToken);
    if token.None? {
      return Response(401, "No GitHub account connected. Please link your GitHub account.");
    }
    var siteId := SiteIdOf(siteArg, session.currentSiteId);
    var rejection := CreateRepoRejection(db.sites, db.repos, me, siteId, body);
    if rejection.Some? {
      return rejection.value;
    }
    var name := App.Text(body.value, "name");
    var private := PrivateFlag(body.value);
    if name.None? || !DescriptionOk(body.value) || private.None? {
      // the GitHub client refuses a non-string name or description, or a non-boolean flag
      return Response(500, "Failed to create repository");
    }
    if token.value !in gh.accounts {
      return Response(400, "Bad credentials");
    }
    var fullName := FullName(gh.accounts[token.value], name.value);
    if fullName in gh.repos {
      return Response(400, "Repository creation failed");
    }
    gh.repos := gh.repos[fullName := RemoteRepo(HtmlUrl(fullName), initialFiles, [])];
    var id := db.AddRepo(GitHubRepo(fullName, HtmlUrl(fullName), private.value, now, now, siteId.value));
    r := Response(200, "Repository created successfully");
  }

  // ----- repo_info -----

  /** `repo_info`: a link whose repository GitHub does not show to the token
      (deleted, or private to another account) is dropped; a repository whose
      URL changed has the stored URL refreshed. `gh.repos` stands for what the
      token in use can see. */
  method RepoInfo(db: Database, session: Session, gh: GitHub, me: nat, siteArg: Option<nat>, now: nat)
    returns (r: Response)
    requires App.Good(db) && me in db.users
    modifies db`repos
    ensures App.Good(db)
    ensures var siteId := SiteIdOf(siteArg, session.currentSiteId);
            var guard := SiteGuard(old(db.sites), me, siteId, "No site ID provided", PermissionMessage);
            guard.Some? ==> r == guard.value && unchanged(db)
    ensures var siteId := SiteIdOf(siteArg, session.currentSiteId);
            var guard := SiteGuard(old(db.sites), me, siteId, "No site ID provided", PermissionMessage);
            guard.None? ==>
              var link := RepoOf(old(db.repos), siteId.value);
              var token := if Present(session.githubToken) then session.githubToken else old(db.users)[me].githubToken;
              if link.None? then
                r == Response(404, "No repository connected to this site") && unchanged(db)
              else if !Present(token) then
                r == Response(401, "No GitHub token found") && unchanged(db)
              else if token.value !in gh.accounts then
                r == Response(401, "GitHub token is invalid") && unchanged(db)
              else
                var stored := old(db.repos)[link.value];
                if stored.repoName !in gh.repos then
                  && r == Response(404, "Repository no longer exists on GitHub")
                  && db.repos == old(db.repos) - {link.value}
                else
                  var url := gh.repos[stored.repoName].htmlUrl;
                  && r == Response(200, url)
                  && db.repos == (if url != stored.repoUrl
                                  then old(db.repos)[link.value := stored.(repoUrl := url, updatedAt := now)]
                                  else old(db.repos))
  {
    var siteId := SiteIdOf(siteArg, session.currentSiteId);
    var guard := SiteGuard(db.sites, me, siteId, "No site ID provided", PermissionMessage);
    if guard.Some? {
      return guard.value;
    }
    var link := RepoOf(db.repos, siteId.value);
    if link.None? {
      return Response(404, "No repository connected to this site");
    }
    var token := if Present(session.githubToken) then session.githubToken else db.users[me].githubToken;
    if !Present(token) {
      return Response(401, "No GitHub token found");
    }
    if token.value !in gh.accounts {
      return Response(401, "GitHub token is invalid");
    }
    var stored := db.repos[link.value];
    if stored.repoName !in gh.repos {
      RemoveRepoKeepsConstraints(db.users, db.sites, db.repos, link.value);
      db.repos := db.repos - {link.value};
      return Response(404, "Repository no longer exists on GitHub");
    }
    var url := gh.repos[stored.repoName].htmlUrl;
    if url != stored.repoUrl {
      ReplaceRepoKeepsConstraints(db.users, db.sites, db.repos, link.value, stored.(repoUrl := url, updatedAt := now));
      db.repos := db.repos[link.value := stored.(repoUrl := url, updatedAt := now)];
    }
    r := Response(200, url);
  }

  // ----- push_changes -----

  /** `data.get('message', 'Update from Spaces')` when it is a string; `None`
      for any other value, which the GitHub client refuses. */
  function CommitMessage(data: map<string, Json>): (r: Option<string>)
    ensures "message" !in data ==> r == Some(DefaultCommitMessage)
    ensures "message" in data ==> (r.Some? <==> data["message"].JStr?)
    ensures "message" in data && data["message"].JStr? ==> r == Some(data["message"].s)
  {
    if "message" !in data then Some(DefaultCommitMessage)
    else if data["message"].JStr? then Some(data["message"].s)
    else None
  }

  /** `push_changes`: writes exactly index.html and main.py of the linked
      repository, with the site's contents, and touches nothing else. */
  method PushChanges(db: Database, session: Session, gh: GitHub, me: nat, siteArg: Option<nat>, body: Body)
    returns (r: Response)
    requires App.Good(db) && me in db.users
    modifies session`githubToken, gh`repos
    ensures var source := ResolveToken(old(session.githubToken), db.users[me].githubToken);
            session.githubToken == (if source.StoredToken? then Some(source.token) else old(session.githubToken))
    ensures var source := ResolveToken(old(session.githubToken), db.users[me].githubToken);
            source.NoToken? ==> r == Response(401, "No GitHub account connected") && unchanged(gh)
    ensures var source := ResolveToken(old(session.githubToken), db.users[me].githubToken);
            var siteId := SiteIdOf(siteArg, old(session.currentSiteId));
            var guard := SiteGuard(db.sites, me, siteId, "No site ID provided", PermissionMessage);
            !source.NoToken? && guard.Some? ==> r == guard.value && unchanged(gh)
    ensures var source := ResolveToken(old(session.githubToken), db.users[me].githubToken);
            var siteId := SiteIdOf(siteArg, old(session.currentSiteId));
            var guard := SiteGuard(db.sites, me, siteId, "No site ID provided", PermissionMessage);
            !source.NoToken? && guard.None? ==>
              var link := RepoOf(db.repos, siteId.value);
              if link.None? then
                r == Response(404, "No repository connected to this site") && unchanged(gh)
              else if EmptyBody(body) then
                r == Response(400, "No commit data provided") && unchanged(gh)
              else if source.token !in gh.accounts then
                r == Response(400, "Bad credentials") && unchanged(gh)
              else if db.repos[link.value].repoName !in old(gh.repos) then
                r == Response(400, "Not Found") && unchanged(gh)
              else if CommitMessage(body.value).None? then
                r == Response(500, "Failed to push changes") && unchanged(gh)
              else
                var name := db.repos[link.value].repoName;
                && r == Response(200, "Changes pushed successfully")
                && gh.repos == old(gh.repos)[name := WriteAll(old(gh.repos)[name], SiteFiles(db.sites[siteId.value]),
                                                              CommitMessage(body.value).value)]
  {
    var token := UseToken(session, db.users[me].githubToken);
    if token.None? {
      return Response(401, "No GitHub account connected");
    }
    var siteId := SiteIdOf(siteArg, session.currentSiteId);
    var guard := SiteGuard(db.sites, me, siteId, "No site ID provided", PermissionMessage);
    if guard.Some? {
      return guard.value;
    }
    var link := RepoOf(db.repos, siteId.value);
    if link.None? {
      return Response(404, "No repository connected to this site");
    }
    if EmptyBody(body) {
      return Response(400, "No commit data provided");
    }
    if token.value !in gh.accounts {
      return Response(400, "Bad credentials");
    }
    var name := db.repos[link.value].repoName;
    if name !in gh.repos {
      return Response(400, "Not Found");
    }
    var message := CommitMessage(body.value);
    if message.None? {
      return Response(500, "Failed to push changes");
    }
    gh.WriteFiles(name, SiteFiles(db.sites[siteId.value]), message.value);
    r := Response(200, "Changes pushed successfully");
  }

  // ----- disconnect_repo -----

  /** `disconnect_repo`: the owner's link is removed; GitHub is not touched. */
  method DisconnectRepo(db: Database, session: Session, me: nat, siteArg: Option<nat>) returns (r: Response)
    requires App.Good(db)
    modifies db`repos
    ensures App.Good(db)
    ensures var siteId := SiteIdOf(siteArg, session.currentSiteId);
            var guard := SiteGuard(old(db.sites), me, siteId, "No site ID provided", "Permission denied");
            if guard.Some? then r == guard.value && unchanged(db)
            else
              var link := RepoOf(old(db.repos), siteId.value);
              if link.None? then r == Response(404, "No repository connected") && unchanged(db)
              else && r == Response(200, "Repository disconnected successfully")
                   && db.repos == old(db.repos) - {link.value}
                   && !HasRepo(db.repos, siteId.value)
  {
    var siteId := SiteIdOf(siteArg, session.currentSiteId);
    var guard := SiteGuard(db.sites, me, siteId, "No site ID provided", "Permission denied");
    if guard.Some? {
      return guard.value;
    }
    var link := RepoOf(db.repos, siteId.value);
    if link.None? {
      return Response(404, "No repository connected");
    }
    RemoveRepoKeepsConstraints(db.users, db.sites, db.repos, link.value);
    db.repos := db.repos - {link.value};
    r := Response(200, "Repository disconnected successfully");
  }
}
