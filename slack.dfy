/** Signing in with Slack: the authorization request URL (section 4.1.1 of
    RFC 6749) and the callback that finds the user by email or creates one.
    The two HTTP calls to Slack are inputs: the caller passes what Slack
    answered. */
module SlackRoutes {
  import opened Common
  import opened Models
  import opened Quoting
  import App

  // ----- get_slack_oauth_url -----

  const AuthorizeEndpoint := "https://slack.com/oauth/v2/authorize"
  const Scope := "openid,email,profile"

  /** The parameters of the authorization request, in order: the client id
      as it is configured, the scope, the quoted redirect URI, and
      `response_type=code`. */
  function AuthorizeParameters(clientId: string, redirectUri: string): seq<(string, string)> {
    [("client_id", clientId), ("scope", Scope), ("redirect_uri", Quote(redirectUri)), ("response_type", "code")]
  }

  /** `name=value` */
  function Pair(name: string, value: string): string {
    name + "=" + value
  }

  function Pairs(ps: seq<(string, string)>): (r: seq<string>)
    ensures |r| == |ps|
  {
    seq(|ps|, i requires 0 <= i < |ps| => Pair(ps[i].0, ps[i].1))
  }

  /** The query string of the authorization request: the parameters joined
      with `&`. */
  function AuthorizeQuery(clientId: string, redirectUri: string): string {
    Join(Pairs(AuthorizeParameters(clientId, redirectUri)), '&')
  }

  /** `get_slack_oauth_url`: `None` (the `ValueError`) when the client id or
      the redirect URI is unset or empty; otherwise the authorization URL. */
  function SlackOAuthUrl(clientId: Option<string>, redirectUri: Option<string>): (r: Option<string>)
    ensures r.None? <==> !Present(clientId) || !Present(redirectUri)
    ensures r.Some? ==> r.value == AuthorizeEndpoint + "?" + AuthorizeQuery(clientId.value, redirectUri.value)
  {
    if !Present(clientId) || !Present(redirectUri) then None
    else Some(AuthorizeEndpoint + "?" + AuthorizeQuery(clientId.value, redirectUri.value))
  }

  // ----- reading a query string back -----

  /** The pieces of `s` between occurrences of `sep`. */
  function Split(s: string, sep: char): (r: seq<string>)
    ensures |r| >= 1
  {
    if s == [] then [""]
    else
      var rest := Split(s[1..], sep);
      if s[0] == sep then [""] + rest else [[s[0]] + rest[0]] + rest[1..]
  }

  /** The pieces joined with `sep` between them. */
  function Join(parts: seq<string>, sep: char): string
    requires |parts| >= 1
  {
    if |parts| == 1 then parts[0] else parts[0] + [sep] + Join(parts[1..], sep)
  }

  lemma {:induction false} SplitPiece(a: string, b: string, sep: char)
    requires sep !in a
    ensures Split(a + [sep] + b, sep) == [a] + Split(b, sep)
    ensures Split(a, sep) == [a]
  {
    if a == [] {
      assert a + [sep] + b == [sep] + b;
      assert ([sep] + b)[1..] == b;
    } else {
      SplitPiece(a[1..], b, sep);
      assert (a + [sep] + b)[1..] == a[1..] + [sep] + b;
      assert [a[0]] + a[1..] == a;
    }
  }

  /** Splitting undoes joining when no piece contains the separator. */
  lemma {:induction false} SplitJoin(parts: seq<string>, sep: char)
    requires |parts| >= 1
    requires forall i | 0 <= i < |parts| :: sep !in parts[i]
    ensures Split(Join(parts, sep), sep) == parts
  {
    SplitPiece(parts[0], [], sep);
    if |parts| > 1 {
      SplitJoin(parts[1..], sep);
      SplitPiece(parts[0], Join(parts[1..], sep), sep);
      assert [parts[0]] + parts[1..] == parts;
    }
  }

  /** `key=value` split at the first `=`; a piece without one is a key with
      an empty value. */
  function Parameter(piece: string): (r: (string, string))
  {
    if piece == [] then ("", "")
    else if piece[0] == '=' then ("", piece[1..])
    else var (k, v) := Parameter(piece[1..]); ([piece[0]] + k, v)
  }

  lemma {:induction false} ParameterOf(key: string, value: string)
    requires '=' !in key
    ensures Parameter(Pair(key, value)) == (key, value)
  {
    if key == [] {
      assert key + "=" + value == "=" + value;
    } else {
      ParameterOf(key[1..], value);
      assert (key + "=" + value)[1..] == key[1..] + "=" + value;
      assert [key[0]] + key[1..] == key;
    }
  }

  /** A query string as the authorization server reads it: the `&`-separated
      pieces, each split into name and value. */
  function ParseQuery(q: string): (r: seq<(string, string)>)
    ensures |r| == |Split(q, '&')|
  {
    var pieces := Split(q, '&');
    seq(|pieces|, i requires 0 <= i < |pieces| => Parameter(pieces[i]))
  }

  /** Parameters joined into a query string are read back as they were,
      provided no name holds `=` or `&` and no value holds `&`. */
  lemma ParseJoinedPairs(ps: seq<(string, string)>)
    requires |ps| >= 1
    requires forall i | 0 <= i < |ps| :: '=' !in ps[i].0 && '&' !in ps[i].0 && '&' !in ps[i].1
    ensures ParseQuery(Join(Pairs(ps), '&')) == ps
  {
    var pieces := Pairs(ps);
    forall i | 0 <= i < |pieces| ensures '&' !in pieces[i] {
      assert pieces[i] == ps[i].0 + "=" + ps[i].1;
    }
    SplitJoin(pieces, '&');
    var parsed := ParseQuery(Join(pieces, '&'));
    forall i | 0 <= i < |ps| ensures parsed[i] == ps[i] {
      ParameterOf(ps[i].0, ps[i].1);
    }
  }

  /** The authorization server reads back exactly the four parameters of
      section 4.1.1 of RFC 6749, and decoding the `redirect_uri` value gives
      the configured URI. The client id is inserted without quoting, so this
      holds when it has no `&`. */
  lemma AuthorizeQueryParses(clientId: string, redirectUri: string)
    requires '&' !in clientId
    ensures ParseQuery(AuthorizeQuery(clientId, redirectUri))
            == [("client_id", clientId), ("scope", Scope), ("redirect_uri", Quote(redirectUri)),
                ("response_type", "code")]
    ensures Unquote(Quote(redirectUri)) == Some(redirectUri)
  {
    ParseJoinedPairs(AuthorizeParameters(clientId, redirectUri));
    UnquoteQuote(redirectUri);
  }

  // ----- slack_callback -----

  /** An HTTP reply from Slack: `response.ok` false, or the decoded body. */
  datatype Reply<T> = Failed | Ok(body: T)

  /** The body of `oauth.v2.access`: its `ok` field, and `authed_user`'s `id`
      and `access_token` (`None` when either key is missing). */
  datatype AccessBody = AccessBody(ok: Option<Json>, authedUser: Option<(string, string)>)

  /** The body of `openid.connect.userInfo`: its `email` and `name` fields. */
  datatype UserInfo = UserInfo(email: Option<string>, name: Option<string>)

  /** The early exits of `slack_callback`, in order: no code, the token
      exchange failed or said `ok: false`, `authed_user` is missing (a
      `KeyError`, 500), the user information request failed. */
  function CallbackFailure(code: Option<string>, access: Reply<AccessBody>, userInfo: Reply<UserInfo>)
    : (r: Option<Response>)
    ensures r.None? <==> && Present(code) && access.Ok? && Truthy(access.body.ok)
                         && access.body.authedUser.Some? && userInfo.Ok?
    ensures r.Some? ==> r.value == Response(302, "login") || r.value == Response(500, "")
    ensures r.Some? && r.value.status == 500 <==>
              Present(code) && access.Ok? && Truthy(access.body.ok) && access.body.authedUser.None?
  {
    if !Present(code) then Some(Response(302, "login"))
    else if access.Failed? then Some(Response(302, "login"))
    else if !Truthy(access.body.ok) then Some(Response(302, "login"))
    else if access.body.authedUser.None? then Some(Response(500, ""))
    else if userInfo.Failed? then Some(Response(302, "login"))
    else None
  }

  /** `slack_callback`: an existing account with the Slack email gets only its
      Slack id recorded; otherwise a new account is created with the Slack
      name, the Slack id, the preview already unlocked and the random
      password. A missing email or name, or a name already taken, makes the
      commit fail (500) and nothing changes. */
  method SlackCallback(db: Database, code: Option<string>, access: Reply<AccessBody>, userInfo: Reply<UserInfo>,
                       randomPassword: string, salt: string, now: nat) returns (r: Response)
    requires App.Good(db)
    modifies db`users, db`nextUserId
    ensures App.Good(db)
    ensures var failure := CallbackFailure(code, access, userInfo);
            failure.Some? ==> r == failure.value && unchanged(db)
    ensures var failure := CallbackFailure(code, access, userInfo);
            failure.None? ==>
              var slackId := access.body.authedUser.value.0;
              var info := userInfo.body;
              if info.email.None? then
                r == Response(500, "") && unchanged(db)
              else
                var found := UserWithEmail(old(db.users), info.email.value);
                if found.Some? then
                  && r == Response(302, "welcome")
                  && db.users == old(db.users)[found.value := old(db.users)[found.value].(slackId := Some(slackId))]
                else if info.name.None? || UsernameTaken(old(db.users), info.name.value) then
                  r == Response(500, "") && unchanged(db)
                else
                  && r == Response(302, "welcome")
                  && old(db.nextUserId) !in old(db.users)
                  && db.users == old(db.users)[old(db.nextUserId) :=
                       NewUser(db.lib, info.name.value, info.email.value, randomPassword, salt, Some(slackId), now)]
  {
    var failure := CallbackFailure(code, access, userInfo);
    if failure.Some? {
      return failure.value;
    }
    var slackId := access.body.authedUser.value.0;
    var info := userInfo.body;
    if info.email.None? {
      // `filter_by(email=None)` finds nobody and the new row's NOT NULL email fails
      return Response(500, "");
    }
    var found := UserWithEmail(db.users, info.email.value);
    if found.Some? {
      var u := db.users[found.value];
      ReplaceUserKeepsConstraints(db.users, db.sites, db.repos, found.value, u.(slackId := Some(slackId)));
      db.users := db.users[found.value := u.(slackId := Some(slackId))];
      return Response(302, "welcome");
    }
    if info.name.None? {
      return Response(500, "");
    }
    var id := db.AddUser(NewUser(db.lib, info.name.value, info.email.value, randomPassword, salt, Some(slackId), now));
    if id.None? {
      return Response(500, "");
    }
    r := Response(302, "welcome");
  }
}
