/** The magic link, its audit record and the request helpers they use.

    A link's lifecycle is held in four stored fields (`isActive`, `expiresAt`,
    `accessedAt`, `loggedInAt`); everything else about it is derived from them
    and from the current time, which is passed in as an integer timestamp. */
module Models {
  import opened Wrappers
  import opened Settings
  import opened Exceptions

  // ---------------------------------------------------------------------
  // Users, sessions and requests
  // ---------------------------------------------------------------------

  type UserId = nat

  /** The user attached to a request: an id and whether the session is
      authenticated. The anonymous user is any value with
      `authenticated == false`. */
  datatype User = User(id: UserId, authenticated: bool)

  /** The part of the request's session this core reads or writes: its key
      (read by the audit), and the user and lifetime that logging in sets. */
  class Session {
    var key: Option<string>
    var user: Option<UserId>
    var expiry: Option<nat>

    constructor (key: Option<string>)
      ensures this.key == key && user == None && expiry == None
    {
      this.key := key;
      user := None;
      expiry := None;
    }
  }

  /** An HTTP request: its verb, its headers, the server's META variables,
      the requesting user and the session. */
  datatype Request = Request(
    httpMethod: string,
    headers: map<string, string>,
    meta: map<string, string>,
    user: User,
    session: Session)

  const XForwardedFor: string := "X-Forwarded-For"
  const RemoteAddr: string := "REMOTE_ADDR"
  const UserAgent: string := "User-Agent"

  /** The value stored under `key`, or "" when there is none. */
  function Lookup(m: map<string, string>, key: string): (v: string) {
    if key in m then m[key] else ""
  }

  /** The first comma-separated entry of `s`: its longest prefix holding
      no comma (all of `s` when it has none). */
  function FirstField(s: string): (r: string)
    ensures r <= s && ',' !in r
    ensures |r| < |s| ==> s[|r|] == ','
  {
    if s == [] || s[0] == ',' then [] else [s[0]] + FirstField(s[1..])
  }

  /** The client address: the first entry of X-Forwarded-For when that header
      is non-empty, otherwise REMOTE_ADDR, otherwise "". */
  function ParseRemoteAddr(headers: map<string, string>, meta: map<string, string>): (r: string)
    ensures var xff := Lookup(headers, XForwardedFor);
      xff != "" ==> r <= xff && ',' !in r && (|r| < |xff| ==> xff[|r|] == ',')
    ensures Lookup(headers, XForwardedFor) == "" ==>
      r == (if RemoteAddr in meta then meta[RemoteAddr] else "")
  {
    var xff := Lookup(headers, XForwardedFor);
    if xff != "" then FirstField(xff) else Lookup(meta, RemoteAddr)
  }

  /** The header parser's specified cases: with neither header the address
      is empty, and without a forwarded header it is REMOTE_ADDR. */
  lemma RemoteAddrWithoutForwarding()
    ensures ParseRemoteAddr(map[], map[]) == ""
    ensures ParseRemoteAddr(map[], map[RemoteAddr := "192.168.0.1"]) == "192.168.0.1"
  {
  }

  /** A lone forwarded address is the client address, whether or not
      REMOTE_ADDR is present. */
  lemma RemoteAddrFromForwarding()
    ensures ParseRemoteAddr(map[XForwardedFor := "127.0.0.1"], map[]) == "127.0.0.1"
    ensures ParseRemoteAddr(map[XForwardedFor := "127.0.0.1"], map[RemoteAddr := "192.168.0.1"]) == "127.0.0.1"
  {
    FirstFieldWithoutComma("127.0.0.1");
    ForwardedAddrWins("127.0.0.1", map[]);
    ForwardedAddrWins("127.0.0.1", map[RemoteAddr := "192.168.0.1"]);
  }

  /** Of a forwarded list only the first entry is kept. */
  lemma RemoteAddrFromForwardedList()
    ensures ParseRemoteAddr(map[XForwardedFor := "127.0.0.1,192.168.0.1"], map[]) == "127.0.0.1"
  {
    var local, lan := "127.0.0.1", "192.168.0.1";
    assert local + "," + lan == "127.0.0.1,192.168.0.1";
    FirstFieldStopsAtComma(local, lan);
    ForwardedAddrWins(local + "," + lan, map[]);
  }

  /** A non-empty forwarded header alone decides the address. */
  lemma ForwardedAddrWins(xff: string, meta: map<string, string>)
    requires xff != ""
    ensures ParseRemoteAddr(map[XForwardedFor := xff], meta) == FirstField(xff)
  {
    assert Lookup(map[XForwardedFor := xff], XForwardedFor) == xff;
  }

  lemma {:induction false} FirstFieldWithoutComma(s: string)
    requires ',' !in s
    ensures FirstField(s) == s
  {
    if s != [] {
      FirstFieldWithoutComma(s[1..]);
    }
  }

  lemma {:induction false} FirstFieldStopsAtComma(s: string, t: string)
    requires ',' !in s
    ensures FirstField(s + "," + t) == s
  {
    if s != [] {
      assert (s + "," + t)[1..] == s[1..] + "," + t;
      FirstFieldStopsAtComma(s[1..], t);
    }
  }

  /** The client's User-Agent header, or "" when it is absent. */
  function ParseUaString(headers: map<string, string>): (r: string)
    ensures UserAgent in headers ==> r == headers[UserAgent]
    ensures UserAgent !in headers ==> r == ""
  {
    Lookup(headers, UserAgent)
  }

  // ---------------------------------------------------------------------
  // The link's lifecycle
  // ---------------------------------------------------------------------

  /** The expiry given to a link issued at `now`: `interval` seconds later,
      DefaultExpiry unless another interval is asked for. An active, unused
      link with this expiry stays valid up to and including that instant. */
  function LinkExpiresAt(now: int, interval: int := DefaultExpiry): (r: int)
    ensures r - now == interval
    ensures forall t :: LinkState(true, Some(r), None, None).IsValid(t) <==> t <= now + interval
  {
    now + interval
  }

  /** The four stored lifecycle fields of a link. Timestamps are integers;
      `None` is a NULL column. */
  datatype LinkState = LinkState(
    isActive: bool,
    expiresAt: Option<int>,
    accessedAt: Option<int>,
    loggedInAt: Option<int>)
  {
    /** Tri-state: unknown (`None`) when no expiry is set, otherwise whether
        the expiry lies strictly before `now`. */
    function HasExpired(now: int): (r: Option<bool>)
      ensures r.None? <==> expiresAt.None?
      ensures r == Some(true) <==> expiresAt.Some? && now > expiresAt.value
    {
      if expiresAt.Some? then Some(expiresAt.value < now) else None
    }

    /** Whether the link has already been used to log in. */
    function HasBeenUsed(): (r: bool)
      ensures r <==> loggedInAt != None
    {
      loggedInAt.Some?
    }

    /** Whether the link can be used: active, not expired, never used. An
        unknown expiry counts as not expired. */
    function IsValid(now: int): (r: bool)
      ensures r <==> isActive && loggedInAt.None? &&
                     (expiresAt.None? || now <= expiresAt.value)
    {
      isActive && HasExpired(now) != Some(true) && !HasBeenUsed()
    }

    /** Validation as the source evaluates it: the expiry check reads the
        clock at `checked`, and the closing validity check reads it again at
        `rechecked`. The first violated condition is raised, in the priority
        order inactive, expired, used; the generic fallback fires exactly
        when the expiry falls between the two readings. */
    function ValidateAcrossReadings(checked: int, rechecked: int): (r: Outcome<LinkError>)
      ensures r.Pass? <==> IsValid(checked) && IsValid(rechecked)
      ensures r == Fail(InvalidLink) <==>
                isActive && loggedInAt.None? && expiresAt.Some? &&
                checked <= expiresAt.value < rechecked
      ensures r == Fail(InactiveLink) <==> !isActive
      ensures r == Fail(ExpiredLink) <==> isActive && HasExpired(checked) == Some(true)
      ensures r == Fail(UsedLink) <==>
                isActive && HasExpired(checked) != Some(true) && HasBeenUsed()
    {
      if !isActive then Fail(InactiveLink)
      else if HasExpired(checked) == Some(true) then Fail(ExpiredLink)
      else if HasBeenUsed() then Fail(UsedLink)
      else if !IsValid(rechecked) then Fail(InvalidLink)
      else Pass
    }

    /** Validation with a single clock reading: it raises the error for the
        first violated condition, in the priority order inactive, expired,
        used, and the generic fallback never fires. */
    function Validate(now: int): (r: Outcome<LinkError>)
      ensures r.Pass? <==> IsValid(now)
      ensures r == Fail(InactiveLink) <==> !isActive
      ensures r == Fail(ExpiredLink) <==> isActive && HasExpired(now) == Some(true)
      ensures r == Fail(UsedLink) <==>
                isActive && HasExpired(now) != Some(true) && HasBeenUsed()
      ensures r != Fail(InvalidLink)
    {
      ValidateAcrossReadings(now, now)
    }

    /** The state after a login at `now`: the link is used, and so can never
        be valid again, whatever the time. */
    function Login(now: int): (r: LinkState)
      ensures r.loggedInAt == Some(now) && r.HasBeenUsed()
      ensures r.isActive == isActive && r.expiresAt == expiresAt && r.accessedAt == accessedAt
      ensures forall t :: !r.IsValid(t)
    {
      this.(loggedInAt := Some(now))
    }

    /** The kill switch: the state with `isActive` cleared and nothing else
        changed; from it every validation fails as inactive. */
    function Disable(): (r: LinkState)
      ensures !r.isActive
      ensures r.expiresAt == expiresAt && r.accessedAt == accessedAt && r.loggedInAt == loggedInAt
      ensures forall t :: r.Validate(t) == Fail(InactiveLink)
    {
      this.(isActive := false)
    }

    /** The state after an access recorded at `ts`: the first access is
        remembered, later ones leave the field as it was. */
    function Access(ts: int): (r: LinkState)
      ensures r.accessedAt.Some?
      ensures accessedAt.Some? ==> r.accessedAt == accessedAt
      ensures accessedAt.None? ==> r.accessedAt == Some(ts)
      ensures r.isActive == isActive && r.expiresAt == expiresAt && r.loggedInAt == loggedInAt
    {
      if accessedAt.None? then this.(accessedAt := Some(ts)) else this
    }
  }

  /** The state of a link created at `now` with the defaults. */
  function Fresh(now: int): (s: LinkState)
    ensures s.isActive && s.accessedAt.None? && s.loggedInAt.None?
    ensures s.expiresAt == Some(now + DefaultExpiry)
  {
    LinkState(true, Some(LinkExpiresAt(now)), None, None)
  }

  /** A freshly issued link is valid exactly up to and including its expiry
      instant, DefaultExpiry seconds after creation. */
  lemma FreshLinkLifetime(created: int, now: int)
    ensures Fresh(created).IsValid(now) <==> now <= created + DefaultExpiry
    ensures Fresh(created).HasExpired(now) == Some(now > created + DefaultExpiry)
  {
  }

  /** Expiry is driven by the clock alone: once expired, a link stays
      expired, and once invalid it stays invalid as time goes on. */
  lemma ExpiryIsMonotone(s: LinkState, t1: int, t2: int)
    requires t1 <= t2
    ensures s.HasExpired(t1) == Some(true) ==> s.HasExpired(t2) == Some(true)
    ensures !s.IsValid(t1) ==> !s.IsValid(t2)
  {
  }

  /** The fallback's window: an active, unused link expiring at 100 whose
      expiry check reads 100 and whose validity check reads 101 is refused
      with the generic InvalidLink. */
  lemma InvalidLinkWindow()
    ensures LinkState(true, Some(100), None, None).ValidateAcrossReadings(100, 101) == Fail(InvalidLink)
    ensures LinkState(true, Some(100), None, None).Validate(100) == Pass
  {
  }

  /** Disabling is idempotent. */
  lemma DisableIsIdempotent(s: LinkState)
    ensures s.Disable().Disable() == s.Disable()
  {
  }

  /** First access wins: a second access never overwrites the first. */
  lemma FirstAccessWins(s: LinkState, t1: int, t2: int)
    ensures s.Access(t1).Access(t2) == s.Access(t1)
    ensures s.Access(t1).accessedAt == (if s.accessedAt.Some? then s.accessedAt else Some(t1))
  {
  }

  /** The cross-user check: refused exactly when the requester is logged in
      already, as someone other than the link's owner. */
  function Authorize(owner: UserId, requester: User): (r: Outcome<Denial>)
    ensures r.Fail? <==> requester.authenticated && requester.id != owner
    ensures r.Fail? ==> r.error == PermissionDenied
    ensures !requester.authenticated ==> r.Pass?
    ensures requester.id == owner ==> r.Pass?
  {
    if requester.authenticated && requester.id != owner then Fail(PermissionDenied) else Pass
  }

  /** The text of an error, as recorded in the audit log. */
  function Message(d: Denial): (r: string)
    ensures |r| > 0
  {
    match d
    case LinkDenied(InactiveLink) => "Link is inactive"
    case LinkDenied(ExpiredLink) => "Link has expired"
    case LinkDenied(UsedLink) => "Link has already been used"
    case LinkDenied(InvalidLink) => "Link is invalid"
    case PermissionDenied => "User is already logged in as another user."
  }

  /** Distinct errors are recorded with distinct texts, so the audit log
      tells the error kinds apart. */
  lemma MessagesAreDistinct(d1: Denial, d2: Denial)
    requires d1 != d2
    ensures Message(d1) != Message(d2)
  {
  }

  // ---------------------------------------------------------------------
  // The audit log
  // ---------------------------------------------------------------------

  /** One recorded use of a link; never changed once written. */
  datatype MagicLinkUse = MagicLinkUse(
    link: nat,
    timestamp: int,
    httpMethod: string,
    sessionKey: string,
    remoteAddr: string,
    uaString: string,
    error: string)

  /** The record an audit call writes for link `link`, given the request,
      the session key at that moment, the optional error and the optional
      forced timestamp. */
  function NewUse(
    link: nat, req: Request, sessionKey: Option<string>,
    error: Option<Denial>, timestamp: Option<int>, now: int): (u: MagicLinkUse)
    ensures u.link == link && u.httpMethod == req.httpMethod
    ensures u.error == "" <==> error.None?
    ensures error.Some? ==> u.error == Message(error.value)
    ensures u.timestamp == (if timestamp.Some? then timestamp.value else now)
    ensures u.sessionKey == (if sessionKey.Some? then sessionKey.value else "")
    ensures u.remoteAddr == ParseRemoteAddr(req.headers, req.meta)
    ensures u.uaString == ParseUaString(req.headers)
  {
    MagicLinkUse(
      link,
      if timestamp.Some? then timestamp.value else now,
      req.httpMethod,
      if sessionKey.Some? then sessionKey.value else "",
      ParseRemoteAddr(req.headers, req.meta),
      ParseUaString(req.headers),
      if error.Some? then Message(error.value) else "")
  }

  /** The admin's "used for login" flag: the record carries the link's
      login timestamp. */
  predicate UsedForLogin(u: MagicLinkUse, s: LinkState): (b: bool)
    ensures b <==> s.HasBeenUsed() && s.loggedInAt.value == u.timestamp
  {
    s.loggedInAt == Some(u.timestamp)
  }

  /** The table of all link uses, appended to by audit calls only. */
  class UseTable {
    var rows: seq<MagicLinkUse>

    constructor ()
      ensures rows == []
    {
      rows := [];
    }
  }

  /** A stored magic link. Its identity, owner, token, redirect target and
      creation time never change; its lifecycle fields are updated in place. */
  class MagicLink {
    const id: nat
    const user: UserId
    const token: string
    const redirectTo: string
    const createdAt: int
    var isActive: bool
    var expiresAt: Option<int>
    var accessedAt: Option<int>
    var loggedInAt: Option<int>

    /** The stored lifecycle fields as a value. */
    function State(): LinkState
      reads this
    {
      LinkState(isActive, expiresAt, accessedAt, loggedInAt)
    }

    /** A link issued at `now` with the column defaults: active, expiring
        DefaultExpiry seconds later, never accessed or used. */
    constructor (id: nat, user: UserId, token: string, redirectTo: Option<string>, now: int)
      ensures this.id == id && this.user == user && this.token == token
      ensures this.redirectTo == (if redirectTo.Some? then redirectTo.value else DefaultRedirect)
      ensures createdAt == now
      ensures State() == Fresh(now) && State().IsValid(now)
    {
      this.id := id;
      this.user := user;
      this.token := token;
      this.redirectTo := if redirectTo.Some? then redirectTo.value else DefaultRedirect;
      createdAt := now;
      isActive := true;
      expiresAt := Some(LinkExpiresAt(now));
      accessedAt := None;
      loggedInAt := None;
    }

    /** Log the session in as the link's user, with the magic-link session
        lifetime, and stamp the login time. */
    method Login(session: Session, now: int)
      modifies this, session
      ensures State() == old(State()).Login(now)
      ensures session.user == Some(user) && session.expiry == Some(SessionExpiry)
      ensures session.key == old(session.key)
    {
      session.user := Some(user);
      session.expiry := Some(SessionExpiry);
      loggedInAt := Some(now);
    }

    /** Deactivate the link regardless of its expiry. */
    method Disable()
      modifies this
      ensures State() == old(State()).Disable()
    {
      isActive := false;
    }

    /** Append one use record for this link and, on the first access only,
        remember the record's timestamp as the access time. */
    method Audit(table: UseTable, req: Request, error: Option<Denial>, timestamp: Option<int>, now: int)
      returns (log: MagicLinkUse)
      modifies this, table
      ensures log == NewUse(id, req, req.session.key, error, timestamp, now)
      ensures table.rows == old(table.rows) + [log]
      ensures State() == old(State()).Access(log.timestamp)
    {
      log := NewUse(id, req, req.session.key, error, timestamp, now);
      table.rows := table.rows + [log];
      if accessedAt.None? {
        accessedAt := Some(log.timestamp);
      }
    }
  }
}
