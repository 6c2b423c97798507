/** The link view: one GET or POST on a token drives the link through
    validate, authorize, audit and respond (and, on a successful POST, login
    and disable before the audit).

    `Check`, `Serve` and `Replay` state what a request does to a link as
    functions of its stored state; the `MagicLinkView` methods do it step by
    step on the stored objects and are proved to agree with `Serve`. */
module Views {
  import opened Wrappers
  import opened Settings
  import opened Exceptions
  import opened Models

  datatype Verb = GET | POST

  /** The outcome surfaced to the HTTP layer: the login page (200), a
      redirect (302), the error page with its error (403), or not found (404). */
  datatype Response = Page | Redirect(location: string) | Forbidden(error: Denial) | NotFound

  /** One request on a link, by `user`, at time `now`. */
  datatype Attempt = Attempt(verb: Verb, user: User, now: int)

  /** The guarded part of both views: validate, and only if that passes,
      authorize. A link error is reported in preference to a user mismatch. */
  function Check(s: LinkState, owner: UserId, user: User, now: int): (r: Outcome<Denial>)
    ensures s.Validate(now).Fail? ==> r == Fail(LinkDenied(s.Validate(now).error))
    ensures r.Pass? <==> s.IsValid(now) && !(user.authenticated && user.id != owner)
    ensures r == Fail(PermissionDenied) <==>
              s.IsValid(now) && user.authenticated && user.id != owner
    ensures r != Fail(LinkDenied(InvalidLink))
  {
    match s.Validate(now)
    case Fail(e) => Fail(LinkDenied(e))
    case Pass => Authorize(owner, user)
  }

  /** The error a check raised, if any. */
  function Raised(o: Outcome<Denial>): (e: Option<Denial>) {
    if o.Fail? then Some(o.error) else None
  }

  /** What one request on an existing link does: the new lifecycle state and
      the response. Every request records an access; only a POST that passes
      the check logs in (and so disables the link) and redirects. */
  function Serve(s: LinkState, owner: UserId, redirectTo: string, a: Attempt): (r: (LinkState, Response))
    ensures !r.1.NotFound?
    ensures r.1.Forbidden? <==> Check(s, owner, a.user, a.now).Fail?
    ensures r.1.Forbidden? ==> r.1.error == Check(s, owner, a.user, a.now).error
    ensures r.1.Page? <==> a.verb == GET && Check(s, owner, a.user, a.now).Pass?
    ensures r.1.Redirect? <==> a.verb == POST && Check(s, owner, a.user, a.now).Pass?
    ensures r.1.Redirect? ==>
              r.1.location == redirectTo && !r.0.isActive && r.0.loggedInAt == Some(a.now)
    ensures !r.1.Redirect? ==>
              r.0.isActive == s.isActive && r.0.loggedInAt == s.loggedInAt
    ensures r.0.expiresAt == s.expiresAt
    ensures r.0.accessedAt == (if s.accessedAt.Some? then s.accessedAt else Some(a.now))
  {
    match Check(s, owner, a.user, a.now)
    case Fail(e) => (s.Access(a.now), Forbidden(e))
    case Pass =>
      match a.verb
      case GET => (s.Access(a.now), Page)
      case POST =>
        var used := s.Login(a.now).Disable();
        (used.Access(used.loggedInAt.value), Redirect(redirectTo))
  }

  /** A link that a successful POST consumed refuses every later request
      as inactive (not as used): disabling ran, and inactivity is checked
      first. */
  lemma ConsumedLinkReportsInactive(s: LinkState, owner: UserId, redirectTo: string, first: Attempt, next: Attempt)
    requires Serve(s, owner, redirectTo, first).1.Redirect?
    ensures Serve(Serve(s, owner, redirectTo, first).0, owner, redirectTo, next).1
              == Forbidden(LinkDenied(InactiveLink))
  {
    var after := Serve(s, owner, redirectTo, first).0;
    assert after.Validate(next.now) == Fail(InactiveLink);
  }

  /** A logged-in link is never active again: the invariant that the
      consuming POST establishes. */
  predicate Consumed(s: LinkState) {
    s.loggedInAt.Some? ==> !s.isActive
  }

  /** A sequence of requests served one after another on the same link. */
  function Replay(s: LinkState, owner: UserId, redirectTo: string, attempts: seq<Attempt>): (r: (LinkState, seq<Response>))
    ensures |r.1| == |attempts|
    decreases |attempts|
  {
    if attempts == [] then (s, [])
    else
      var (next, resp) := Serve(s, owner, redirectTo, attempts[0]);
      var (last, rest) := Replay(next, owner, redirectTo, attempts[1..]);
      (last, [resp] + rest)
  }

  /** The number of logins (redirects) among the responses. */
  function Logins(rs: seq<Response>): (n: nat) {
    if rs == [] then 0 else (if rs[0].Redirect? then 1 else 0) + Logins(rs[1..])
  }

  /** Over any sequence of requests, the one-way fields only move one way:
      an inactive link stays inactive, the access and login times are written
      once and kept, the expiry never changes, and a consumed link stays
      consumed. */
  lemma {:induction false} ReplayIsOneWay(s: LinkState, owner: UserId, redirectTo: string, attempts: seq<Attempt>)
    ensures var f := Replay(s, owner, redirectTo, attempts).0;
      && (!s.isActive ==> !f.isActive)
      && (s.accessedAt.Some? ==> f.accessedAt == s.accessedAt)
      && (s.loggedInAt.Some? ==> f.loggedInAt == s.loggedInAt)
      && (attempts != [] ==> f.accessedAt.Some?)
      && f.expiresAt == s.expiresAt
      && (Consumed(s) ==> Consumed(f))
    decreases |attempts|
  {
    if attempts != [] {
      var next := Serve(s, owner, redirectTo, attempts[0]).0;
      ReplayIsOneWay(next, owner, redirectTo, attempts[1..]);
    }
  }

  /** Replaying a link can log in at most once: once a POST has succeeded
      the link is inactive and every later request is refused. A link that
      is inactive or used to begin with never logs in. */
  lemma {:induction false} AtMostOneLogin(s: LinkState, owner: UserId, redirectTo: string, attempts: seq<Attempt>)
    ensures var (f, rs) := Replay(s, owner, redirectTo, attempts);
      && Logins(rs) <= 1
      && (!s.isActive || s.loggedInAt.Some? ==> Logins(rs) == 0)
      && (Logins(rs) == 1 ==> !f.isActive && f.loggedInAt.Some?)
    decreases |attempts|
  {
    if attempts != [] {
      var (next, resp) := Serve(s, owner, redirectTo, attempts[0]);
      var (f, rest) := Replay(next, owner, redirectTo, attempts[1..]);
      AtMostOneLogin(next, owner, redirectTo, attempts[1..]);
      ReplayIsOneWay(next, owner, redirectTo, attempts[1..]);
      assert Replay(s, owner, redirectTo, attempts).1 == [resp] + rest;
      assert ([resp] + rest)[1..] == rest;
    }
  }

  /** The view, over the stored links (indexed by token) and the table of
      their uses. */
  class MagicLinkView {
    const links: map<string, MagicLink>
    const table: UseTable

    constructor (links: map<string, MagicLink>, table: UseTable)
      ensures this.links == links && this.table == table
    {
      this.links := links;
      this.table := table;
    }

    /** Render the login page for a valid link, or the error page. An
        unknown token is not found and writes no audit record; otherwise
        exactly one record is written, carrying the error if there was one. */
    method Get(req: Request, token: string, now: int) returns (resp: Response)
      modifies table, if token in links then {links[token]} else {}
      ensures token !in links ==> resp == NotFound && table.rows == old(table.rows)
      ensures token in links ==>
        var link := links[token];
        var check := Check(old(link.State()), link.user, req.user, now);
        && (link.State(), resp) == Serve(old(link.State()), link.user, link.redirectTo, Attempt(GET, req.user, now))
        && table.rows == old(table.rows) + [NewUse(link.id, req, req.session.key, Raised(check), None, now)]
    {
      if token !in links {
        return NotFound;
      }
      var link := links[token];
      var error: Option<Denial> := None;
      var validation := link.State().Validate(now);
      if validation.Fail? {
        error := Some(LinkDenied(validation.error));
      } else {
        var authorization := Authorize(link.user, req.user);
        if authorization.Fail? {
          error := Some(authorization.error);
        }
      }
      if error.Some? {
        var _ := link.Audit(table, req, error, None, now);
        resp := Forbidden(error.value);
      } else {
        var _ := link.Audit(table, req, None, None, now);
        resp := Page;
      }
    }

    /** Log in with a valid link: login, then disable, then one audit record
        stamped with the login time, then redirect. A refused request writes
        one audit record carrying the error and leaves the session alone. An
        unknown token is not found and writes nothing. */
    method Post(req: Request, token: string, now: int) returns (resp: Response)
      modifies table, req.session, if token in links then {links[token]} else {}
      ensures token !in links ==>
        resp == NotFound && table.rows == old(table.rows) && unchanged(req.session)
      ensures token in links ==>
        var link := links[token];
        var check := Check(old(link.State()), link.user, req.user, now);
        && (link.State(), resp) == Serve(old(link.State()), link.user, link.redirectTo, Attempt(POST, req.user, now))
        && table.rows == old(table.rows) +
             [NewUse(link.id, req, old(req.session.key), Raised(check), if check.Pass? then Some(now) else None, now)]
        && (resp.Redirect? ==>
              && UsedForLogin(table.rows[|table.rows| - 1], link.State())
              && req.session.user == Some(link.user)
              && req.session.expiry == Some(SessionExpiry)
              && req.session.key == old(req.session.key))
        && (!resp.Redirect? ==> unchanged(req.session))
    {
      if token !in links {
        return NotFound;
      }
      var link := links[token];
      var error: Option<Denial> := None;
      var validation := link.State().Validate(now);
      if validation.Fail? {
        error := Some(LinkDenied(validation.error));
      } else {
        var authorization := Authorize(link.user, req.user);
        if authorization.Fail? {
          error := Some(authorization.error);
        }
      }
      if error.Some? {
        var _ := link.Audit(table, req, error, None, now);
        resp := Forbidden(error.value);
      } else {
        link.Login(req.session, now);
        link.Disable();
        var _ := link.Audit(table, req, None, link.loggedInAt, now);
        resp := Redirect(link.redirectTo);
      }
    }
  }

  /** A link issued with the defaults is shown (GET), consumed (POST) and
      then replayed (POST): the replay is refused as inactive, and each of
      the three requests wrote one audit record, the second stamped with the
      login time. */
  method ReusedLinkScenario(created: int) returns (shown: Response, consumed: Response, replayed: Response, uses: seq<MagicLinkUse>)
    ensures shown == Page && consumed == Redirect(DefaultRedirect)
    ensures replayed == Forbidden(LinkDenied(InactiveLink))
    ensures |uses| == 3 && uses[0].error == "" && uses[1].error == ""
    ensures uses[0].timestamp == created && uses[1].timestamp == created + 1
    ensures uses[2].error == "Link is inactive"
  {
    var link := new MagicLink(1, 7, "token", None, created);
    var table := new UseTable();
    var view := new MagicLinkView(map["token" := link], table);
    var session := new Session(Some("key"));
    var req := Request("GET", map[], map[], User(0, false), session);
    shown := view.Get(req, "token", created);
    consumed := view.Post(req.(httpMethod := "POST"), "token", created + 1);
    replayed := view.Post(req.(httpMethod := "POST"), "token", created + 2);
    uses := table.rows;
  }

  /** A link for one user, requested by another user who is logged in
      already, is refused; the owner and an anonymous user are shown the
      login page. An unknown token is not found and writes nothing. */
  method CrossUserScenario(created: int) returns (other: Response, owner: Response, anonymous: Response, missing: Response, uses: nat)
    ensures other == Forbidden(PermissionDenied)
    ensures owner == Page && anonymous == Page
    ensures missing == NotFound && uses == 3
  {
    var link := new MagicLink(1, 7, "token", Some("/home"), created);
    var table := new UseTable();
    var view := new MagicLinkView(map["token" := link], table);
    var session := new Session(None);
    other := view.Get(Request("GET", map[], map[], User(8, true), session), "token", created);
    owner := view.Get(Request("GET", map[], map[], User(7, true), session), "token", created);
    anonymous := view.Get(Request("GET", map[], map[], User(8, false), session), "token", created);
    missing := view.Get(Request("GET", map[], map[], User(8, false), session), "other", created);
    uses := |table.rows|;
  }

  /** A link is still valid at its expiry instant and refused as expired one
      second later. */
  method ExpiredLinkScenario(created: int) returns (atExpiry: Response, afterExpiry: Response)
    ensures atExpiry == Page
    ensures afterExpiry == Forbidden(LinkDenied(ExpiredLink))
  {
    var link := new MagicLink(1, 7, "token", None, created);
    var table := new UseTable();
    var view := new MagicLinkView(map["token" := link], table);
    var session := new Session(None);
    var req := Request("GET", map[], map[], User(0, false), session);
    atExpiry := view.Get(req, "token", created + DefaultExpiry);
    afterExpiry := view.Get(req, "token", created + DefaultExpiry + 1);
  }
}
