/** The three tables (users, sites, GitHub links), the constraints the schema
    puts on them, password hashing, and the `Site` constructor's slug default. */
module Models {
  import opened Common

  /** Library functions the models call without this model seeing inside them:
      `slugify` from python-slugify, and the keyed digest that werkzeug's
      password hashing applies to a salt and a password. */
  datatype Library = Library(slugify: string -> string, digest: (string, string) -> string)

  /** A stored password hash: the random salt and the digest of salt and password. */
  datatype PasswordHash = PasswordHash(salt: string, digest: string)

  datatype User = User(
    username: string,
    email: string,
    passwordHash: PasswordHash,
    isActive: bool,
    previewCodeVerified: bool,
    createdAt: nat,
    lastLogin: nat,
    githubToken: Option<string>,
    slackId: Option<string>)

  datatype Site = Site(
    name: string,
    slug: string,
    siteType: string,
    htmlContent: string,
    pythonContent: string,
    isPublic: bool,
    createdAt: nat,
    updatedAt: nat,
    userId: nat)

  datatype GitHubRepo = GitHubRepo(
    repoName: string,
    repoUrl: string,
    isPrivate: bool,
    createdAt: nat,
    updatedAt: nat,
    siteId: nat)

  const DefaultSiteType := "web"
  const DefaultHtml := "<h1>Welcome to my site!</h1>"
  const DefaultPython := "print(\"Hello, World!\")"

  // ----- passwords -----

  /** `check_password_hash`: recompute the digest with the stored salt. */
  predicate CheckHash(lib: Library, h: PasswordHash, password: string) {
    lib.digest(h.salt, password) == h.digest
  }

  /** `generate_password_hash` with the random salt given as an input. */
  function HashPassword(lib: Library, password: string, salt: string): (h: PasswordHash)
    ensures h.salt == salt
    ensures CheckHash(lib, h, password)
  {
    PasswordHash(salt, lib.digest(salt, password))
  }

  /** `User.check_password` */
  predicate CheckPassword(lib: Library, u: User, password: string) {
    CheckHash(lib, u.passwordHash, password)
  }

  /** `User.set_password`: afterwards the new password checks, and no other
      field of the user has changed. */
  function SetPassword(lib: Library, u: User, password: string, salt: string): (r: User)
    ensures CheckPassword(lib, r, password)
    ensures r.(passwordHash := u.passwordHash) == u
  {
    u.(passwordHash := HashPassword(lib, password, salt))
  }

  /** A new user row: `User(username=..., email=..., ...)` followed by
      `set_password`, with the column defaults for everything not given. */
  function NewUser(lib: Library, username: string, email: string, password: string, salt: string,
                   slackId: Option<string>, now: nat): (u: User)
    ensures u.username == username && u.email == email
    ensures u.previewCodeVerified && u.isActive
    ensures u.slackId == slackId && u.githubToken == None
    ensures CheckPassword(lib, u, password)
  {
    User(username, email, HashPassword(lib, password, salt), true, true, now, now, None, slackId)
  }

  // ----- the Site constructor -----

  /** The keyword arguments a route passes to `Site(...)`. */
  datatype SiteArgs = SiteArgs(
    name: Option<string>,
    slug: Option<string>,
    siteType: Option<string>,
    htmlContent: Option<string>,
    pythonContent: Option<string>,
    isPublic: Option<bool>,
    userId: nat)

  /** `Site.__init__`: when no slug is passed, it is `slugify(name)`, with
      `''` for a missing name; an explicit slug is kept; nothing else changes. */
  function InitSite(lib: Library, kwargs: SiteArgs): (r: SiteArgs)
    ensures r.slug.Some?
    ensures kwargs.slug.Some? ==> r.slug == kwargs.slug
    ensures kwargs.slug.None? ==> r.slug.value == lib.slugify(kwargs.name.GetOr(""))
    ensures r.(slug := kwargs.slug) == kwargs
  {
    if kwargs.slug.None? then kwargs.(slug := Some(lib.slugify(kwargs.name.GetOr("")))) else kwargs
  }

  /** The row inserted for the arguments: column defaults fill what was not
      given; `None` when a NOT NULL column (`name`, `slug`) would be NULL. */
  function SiteRow(kwargs: SiteArgs, now: nat): (r: Option<Site>)
    ensures r.Some? <==> kwargs.name.Some? && kwargs.slug.Some?
    ensures r.Some? ==> r.value.name == kwargs.name.value && r.value.slug == kwargs.slug.value
    ensures r.Some? ==> r.value.userId == kwargs.userId
    ensures r.Some? ==> r.value.siteType == kwargs.siteType.GetOr(DefaultSiteType)
    ensures r.Some? ==> r.value.htmlContent == kwargs.htmlContent.GetOr(DefaultHtml)
    ensures r.Some? ==> r.value.pythonContent == kwargs.pythonContent.GetOr(DefaultPython)
    ensures r.Some? ==> r.value.isPublic == kwargs.isPublic.GetOr(true)
  {
    if kwargs.name.None? || kwargs.slug.None? then None
    else Some(Site(kwargs.name.value, kwargs.slug.value,
                   kwargs.siteType.GetOr(DefaultSiteType),
                   kwargs.htmlContent.GetOr(DefaultHtml),
                   kwargs.pythonContent.GetOr(DefaultPython),
                   kwargs.isPublic.GetOr(true), now, now, kwargs.userId))
  }

  /** The arguments `create_site` passes: only name and owner. */
  function WebSiteArgs(name: string, owner: nat): SiteArgs {
    SiteArgs(Some(name), None, None, None, None, None, owner)
  }

  /** The arguments `create_python_site` passes: the Python greeting goes into
      `html_content` (as the route is written), and the type is 'python'. */
  function PythonSiteArgs(name: string, owner: nat): SiteArgs {
    SiteArgs(Some(name), None, Some("python"), Some(DefaultPython), None, None, owner)
  }

  /** A site created through either route gets the slug of its name, the
      defaults for every column not passed, and belongs to its creator. */
  lemma CreatedSiteRow(lib: Library, name: string, owner: nat, python: bool, now: nat)
    ensures var kwargs := if python then PythonSiteArgs(name, owner) else WebSiteArgs(name, owner);
            var row := SiteRow(InitSite(lib, kwargs), now);
            && row.Some?
            && row.value.name == name
            && row.value.slug == lib.slugify(name)
            && row.value.userId == owner
            && row.value.isPublic
            && row.value.pythonContent == DefaultPython
            && row.value.siteType == (if python then "python" else DefaultSiteType)
            && row.value.htmlContent == (if python then DefaultPython else DefaultHtml)
  {
  }

  // ----- lookups and constraints -----

  predicate UsernameTaken(users: map<nat, User>, username: string) {
    exists id | id in users :: users[id].username == username
  }

  predicate EmailTaken(users: map<nat, User>, email: string) {
    exists id | id in users :: users[id].email == email
  }

  predicate SlugTaken(sites: map<nat, Site>, slug: string) {
    exists id | id in sites :: sites[id].slug == slug
  }

  /** `unique=True` on `User.username` */
  predicate UniqueUsernames(users: map<nat, User>) {
    forall i, j | i in users && j in users && i != j :: users[i].username != users[j].username
  }

  /** `unique=True` on `User.email` */
  predicate UniqueEmails(users: map<nat, User>) {
    forall i, j | i in users && j in users && i != j :: users[i].email != users[j].email
  }

  /** `unique=True` on `Site.slug` */
  predicate UniqueSlugs(sites: map<nat, Site>) {
    forall i, j | i in sites && j in sites && i != j :: sites[i].slug != sites[j].slug
  }

  /** No two links for one site. The `GitHubRepo` class declares no unique
      constraint on `site_id` (the `UNIQUE(site_id)` in setup_db.py sits in a `CREATE TABLE
      IF NOT EXISTS` that runs after `db.create_all()` has already made the
      table); the single-valued `Site.github_repo` backref assumes it, and
      `create_repo`'s "already has a repository" guard is what keeps it. */
  predicate OneRepoPerSite(repos: map<nat, GitHubRepo>) {
    forall i, j | i in repos && j in repos && i != j :: repos[i].siteId != repos[j].siteId
  }

  /** What holds of the three tables: the unique columns and the NOT NULL
      foreign keys the schema enforces (every site has an owner, every link a
      site), and at most one link per site, which the routes keep. */
  predicate Constrained(users: map<nat, User>, sites: map<nat, Site>, repos: map<nat, GitHubRepo>) {
    && UniqueUsernames(users)
    && UniqueEmails(users)
    && UniqueSlugs(sites)
    && OneRepoPerSite(repos)
    && (forall id | id in sites :: sites[id].userId in users)
    && (forall id | id in repos :: repos[id].siteId in sites)
  }

  /** `User.query.filter_by(email=...).first()` */
  function UserWithEmail(users: map<nat, User>, email: string): (r: Option<nat>)
    requires UniqueEmails(users)
    ensures r.Some? <==> EmailTaken(users, email)
    ensures r.Some? ==> r.value in users && users[r.value].email == email
  {
    if EmailTaken(users, email) then
      var id :| id in users && users[id].email == email; Some(id)
    else None
  }

  /** `Site.query.filter_by(slug=...).first()` */
  function SiteWithSlug(sites: map<nat, Site>, slug: string): (r: Option<nat>)
    requires UniqueSlugs(sites)
    ensures r.Some? <==> SlugTaken(sites, slug)
    ensures r.Some? ==> r.value in sites && sites[r.value].slug == slug
  {
    if SlugTaken(sites, slug) then
      var id :| id in sites && sites[id].slug == slug; Some(id)
    else None
  }

  predicate HasRepo(repos: map<nat, GitHubRepo>, siteId: nat) {
    exists id | id in repos :: repos[id].siteId == siteId
  }

  /** `site.github_repo` / `GitHubRepo.query.filter_by(site_id=...).first()` */
  function RepoOf(repos: map<nat, GitHubRepo>, siteId: nat): (r: Option<nat>)
    requires OneRepoPerSite(repos)
    ensures r.Some? <==> HasRepo(repos, siteId)
    ensures r.Some? ==> r.value in repos && repos[r.value].siteId == siteId
  {
    if HasRepo(repos, siteId) then
      var id :| id in repos && repos[id].siteId == siteId; Some(id)
    else None
  }

  /** Another site (a different id) already has this slug. */
  predicate SlugTakenByOther(sites: map<nat, Site>, slug: string, id: nat) {
    exists other | other in sites && other != id :: sites[other].slug == slug
  }

  /** Rewriting a user keeps every constraint when the new username and
      email are the user's own or held by nobody. */
  lemma ReplaceUserKeepsConstraints(users: map<nat, User>, sites: map<nat, Site>,
                                    repos: map<nat, GitHubRepo>, id: nat, u: User)
    requires Constrained(users, sites, repos) && id in users
    requires u.username == users[id].username || !UsernameTaken(users, u.username)
    requires u.email == users[id].email || !EmailTaken(users, u.email)
    ensures Constrained(users[id := u], sites, repos)
  {
    var users' := users[id := u];
    forall i, j | i in users' && j in users' && i != j
      ensures users'[i].username != users'[j].username && users'[i].email != users'[j].email
    {
      if i != id && j != id {
      } else if i == id {
        assert j in users;
      } else {
        assert i in users;
      }
    }
  }

  /** Rewriting a site keeps every constraint when its owner stays and its
      slug is held by no other site. */
  lemma ReplaceSiteKeepsConstraints(users: map<nat, User>, sites: map<nat, Site>,
                                    repos: map<nat, GitHubRepo>, id: nat, s: Site)
    requires Constrained(users, sites, repos) && id in sites
    requires s.userId == sites[id].userId && !SlugTakenByOther(sites, s.slug, id)
    ensures Constrained(users, sites[id := s], repos)
  {
    var sites' := sites[id := s];
    forall i, j | i in sites' && j in sites' && i != j ensures sites'[i].slug != sites'[j].slug {
      if i == id {
        assert j in sites && j != id;
      } else if j == id {
        assert i in sites && i != id;
      }
    }
  }

  /** The links that remain once a site's own link goes with it. */
  function LinksWithout(repos: map<nat, GitHubRepo>, siteId: nat): (r: map<nat, GitHubRepo>)
    ensures !HasRepo(r, siteId)
    ensures r.Keys <= repos.Keys
    ensures forall id | id in repos && repos[id].siteId != siteId :: id in r && r[id] == repos[id]
  {
    map id | id in repos && repos[id].siteId != siteId :: repos[id]
  }

  /** Deleting a site together with its link keeps every constraint. */
  lemma DeleteSiteKeepsConstraints(users: map<nat, User>, sites: map<nat, Site>,
                                   repos: map<nat, GitHubRepo>, id: nat)
    requires Constrained(users, sites, repos)
    ensures Constrained(users, sites - {id}, LinksWithout(repos, id))
  {
  }

  /** Dropping one link keeps every constraint. */
  lemma RemoveRepoKeepsConstraints(users: map<nat, User>, sites: map<nat, Site>,
                                   repos: map<nat, GitHubRepo>, id: nat)
    requires Constrained(users, sites, repos)
    ensures Constrained(users, sites, repos - {id})
  {
  }

  /** Rewriting a link that stays with the same site keeps every constraint. */
  lemma ReplaceRepoKeepsConstraints(users: map<nat, User>, sites: map<nat, Site>,
                                    repos: map<nat, GitHubRepo>, id: nat, link: GitHubRepo)
    requires Constrained(users, sites, repos) && id in repos
    requires link.siteId == repos[id].siteId
    ensures Constrained(users, sites, repos[id := link])
  {
    var repos' := repos[id := link];
    forall i, j | i in repos' && j in repos' && i != j ensures repos'[i].siteId != repos'[j].siteId {
      if i == id {
        assert j in repos && j != id;
      } else if j == id {
        assert i in repos && i != id;
      }
    }
  }

  // ----- site counts -----

  function SitesOf(sites: map<nat, Site>, owner: nat): set<nat> {
    set id | id in sites && sites[id].userId == owner
  }

  /** `Site.query.filter_by(user_id=owner).count()`: web and Python sites alike. */
  function SiteCount(sites: map<nat, Site>, owner: nat): nat {
    |SitesOf(sites, owner)|
  }

  /** Inserting a site under a fresh id adds one to its owner's count and
      leaves every other user's count alone. */
  lemma SiteCountInsert(sites: map<nat, Site>, id: nat, s: Site, owner: nat)
    requires id !in sites
    ensures SiteCount(sites[id := s], owner) == SiteCount(sites, owner) + (if s.userId == owner then 1 else 0)
  {
    if s.userId == owner {
      assert SitesOf(sites[id := s], owner) == SitesOf(sites, owner) + {id};
    } else {
      assert SitesOf(sites[id := s], owner) == SitesOf(sites, owner);
    }
  }

  /** Deleting a site takes one off its owner's count only. */
  lemma SiteCountRemove(sites: map<nat, Site>, id: nat, owner: nat)
    requires id in sites
    ensures SiteCount(sites - {id}, owner) == SiteCount(sites, owner) - (if sites[id].userId == owner then 1 else 0)
  {
    if sites[id].userId == owner {
      assert SitesOf(sites, owner) == SitesOf(sites - {id}, owner) + {id};
    } else {
      assert SitesOf(sites - {id}, owner) == SitesOf(sites, owner);
    }
  }

  /** Rewriting a site without moving it to another owner changes no count. */
  lemma SiteCountReplace(sites: map<nat, Site>, id: nat, s: Site, owner: nat)
    requires id in sites && s.userId == sites[id].userId
    ensures SiteCount(sites[id := s], owner) == SiteCount(sites, owner)
  {
    assert SitesOf(sites[id := s], owner) == SitesOf(sites, owner);
  }

  /** The database session: the three tables, the next value of each id
      sequence, and the library functions the models call. */
  class Database {
    const lib: Library
    var users: map<nat, User>
    var sites: map<nat, Site>
    var repos: map<nat, GitHubRepo>
    var nextUserId: nat
    var nextSiteId: nat
    var nextRepoId: nat

    ghost predicate Valid()
      reads this
    {
      && Constrained(users, sites, repos)
      && 0 < nextUserId && 0 < nextSiteId && 0 < nextRepoId
      && (forall id | id in users :: 0 < id < nextUserId)
      && (forall id | id in sites :: 0 < id < nextSiteId)
      && (forall id | id in repos :: 0 < id < nextRepoId)
    }

    constructor (lib: Library)
      ensures Valid() && this.lib == lib
      ensures users == map[] && sites == map[] && repos == map[]
    {
      this.lib := lib;
      users, sites, repos := map[], map[], map[];
      nextUserId, nextSiteId, nextRepoId := 1, 1, 1;
    }

    /** `db.session.add(user); db.session.commit()`: the commit fails, and is
        rolled back, when the username or the email is already taken. */
    method AddUser(u: User) returns (id: Option<nat>)
      requires Valid()
      modifies this`users, this`nextUserId
      ensures Valid()
      ensures id.Some? <==> !UsernameTaken(old(users), u.username) && !EmailTaken(old(users), u.email)
      ensures id.None? ==> unchanged(this)
      ensures id.Some? ==> id.value == old(nextUserId) && id.value !in old(users)
      ensures id.Some? ==> users == old(users)[id.value := u] && nextUserId == old(nextUserId) + 1
    {
      if UsernameTaken(users, u.username) || EmailTaken(users, u.email) {
        return None;
      }
      id := Some(nextUserId);
      users := users[nextUserId := u];
      nextUserId := nextUserId + 1;
    }

    /** `db.session.add(site); db.session.commit()`: the commit fails, and is
        rolled back, when the slug is already taken. */
    method AddSite(s: Site) returns (id: Option<nat>)
      requires Valid() && s.userId in users
      modifies this`sites, this`nextSiteId
      ensures Valid()
      ensures id.Some? <==> !SlugTaken(old(sites), s.slug)
      ensures id.None? ==> unchanged(this)
      ensures id.Some? ==> id.value == old(nextSiteId) && id.value !in old(sites)
      ensures id.Some? ==> sites == old(sites)[id.value := s] && nextSiteId == old(nextSiteId) + 1
    {
      if SlugTaken(sites, s.slug) {
        return None;
      }
      id := Some(nextSiteId);
      sites := sites[nextSiteId := s];
      nextSiteId := nextSiteId + 1;
    }

    /** `db.session.add(github_repo); db.session.commit()` for a site that has
        no link yet. */
    method AddRepo(r: GitHubRepo) returns (id: nat)
      requires Valid() && r.siteId in sites && !HasRepo(repos, r.siteId)
      modifies this`repos, this`nextRepoId
      ensures Valid()
      ensures id == old(nextRepoId) && id !in old(repos)
      ensures repos == old(repos)[id := r] && nextRepoId == old(nextRepoId) + 1
    {
      id := nextRepoId;
      repos := repos[id := r];
      nextRepoId := nextRepoId + 1;
    }
  }
}
