# Magic-link token lifecycle

A model of the core of django-magic-link. That library issues single-use,
time-limited login tokens ("magic links") and keeps an audit trail of every
attempt to use one. The model covers the link's lifecycle: whether it has
expired, been used or is valid; validation with its fixed error priority;
the cross-user authorization check; and the in-place updates `login`,
`disable` and `audit`. It also covers the two request handlers of the link
view. A GET shows the login page. A POST consumes the link and redirects.

Files, one module each:

- `wrappers.dfy` holds `Option` (nullable columns and arguments) and `Outcome` (a check that passes or raises).
- `settings.dfy` holds the configuration defaults as constants.
- `exceptions.dfy` holds the `InvalidLink` exception family, and `Denial`, which is that family plus `PermissionDenied`.
- `models.dfy` holds the header helpers and the pure lifecycle state `LinkState`, with its predicates and transitions. It also has the cross-user check, the audit record `MagicLinkUse` and the classes `Session`, `UseTable` and `MagicLink`.
- `views.dfy` holds the pure meaning of one request (`Check`, `Serve`) and of a sequence of requests (`Replay`). It has the `MagicLinkView` class, whose `Get` and `Post` are proved to agree with `Serve`, and three end-to-end scenarios.

Time is an integer timestamp, and the current time `now` is a parameter. A
user is an id with an `authenticated` flag, so the anonymous user is any
user whose flag is false. The stored links are a map from token to
`MagicLink` object, which is how the view looks a link up by its token. The
audit table is a `UseTable` object whose `rows` sequence is only ever
appended to.

Three points of the code's behaviour are easy to get wrong:

- A link with `expires_at == now` is still valid. The code compares
  `expires_at < now`, so expiry is strict.
- After a successful POST the link is refused as inactive, not as used.
  This is because `disable` runs after `login` and inactivity is checked
  first. `ConsumedLinkReportsInactive` proves it.
- `has_expired` is tri-state. It is `None` when no expiry is stored, and
  such a link never counts as expired.

## Model

| member | source | states |
|---|---|---|
| Models.FirstField | magic_link/models.py:27 | The result is the longest comma-free prefix of the header. It is a prefix, it holds no comma, and it stops at the end or at a comma. |
| Models.ParseRemoteAddr | magic_link/models.py:23-28 | A non-empty X-Forwarded-For wins, even when REMOTE_ADDR is present, and the result is its text before the first comma. Otherwise the result is REMOTE_ADDR, or "" when that is absent. |
| Models.RemoteAddrWithoutForwarding | tests/test_models.py:26-30 | With neither header the address is "". With only REMOTE_ADDR it is that address. |
| Models.RemoteAddrFromForwarding | tests/test_models.py:27-29 | A lone forwarded address "127.0.0.1" is the result, whether or not REMOTE_ADDR is also present. |
| Models.RemoteAddrFromForwardedList | tests/test_models.py:28 | From the forwarded list "127.0.0.1,192.168.0.1" only the first entry is kept. |
| Models.ForwardedAddrWins | magic_link/models.py:25-27 | Whenever the forwarded header is non-empty, the result is its first comma-separated entry, whatever REMOTE_ADDR holds. |
| Models.ParseUaString | magic_link/models.py:31-33 | The result is the User-Agent header, or "" when it is absent. |
| Models.LinkState.HasExpired | magic_link/models.py:81-86 | The result is None exactly when no expiry is stored. It is true exactly when the expiry is strictly before now. |
| Models.LinkState.HasBeenUsed | magic_link/models.py:88-91 | A link is used exactly when `logged_in_at` is set. |
| Models.LinkState.IsValid | magic_link/models.py:93-96 | A link is valid iff it is active, has no login time, and has no expiry or an expiry at or after now. |
| Models.LinkState.ValidateAcrossReadings | magic_link/models.py:98-115 | With the expiry check and the closing validity check reading the clock separately, the check passes iff the link is valid at both readings. Otherwise it reports the first violated condition, in the order inactive, expired, used, with each error given as an iff. The generic InvalidLink is raised iff the link is active and unused and its expiry lies at or after the first reading and before the second. |
| Models.InvalidLinkWindow | magic_link/models.py:108-115 | A link expiring at 100, checked at 100 and rechecked at 101, is refused with InvalidLink, although one reading at 100 passes. |
| Models.LinkState.Validate | magic_link/models.py:98-115 | With a single clock reading, the check passes iff the link is valid. Otherwise it reports the first violated condition, in the order inactive, expired, used, with each error given as an iff. The generic InvalidLink is never raised. |
| Models.LinkState.Login | magic_link/models.py:128-133 | The new state has `logged_in_at = now`, so the link counts as used and is invalid at every time. No other lifecycle field changes. |
| Models.LinkState.Disable | magic_link/models.py:135-138 | The new state is inactive and no other field changes. Validation then fails with InactiveLink at every time. |
| Models.LinkState.Access | magic_link/models.py:162-164 | `accessed_at` is set to the record's timestamp only when it was unset. Otherwise it is kept. No other field changes. |
| Models.LinkExpiresAt | magic_link/models.py:36-38 | The expiry lies exactly `interval` seconds after issue, 300 by default. An active, unused link with that expiry is valid exactly up to and including that instant. |
| Models.Fresh | magic_link/models.py:55-70 | A link created with the defaults is active, never accessed or used, and expires DefaultExpiry seconds after creation. |
| Models.FreshLinkLifetime | magic_link/models.py:36-38 | A link issued with the default expiry is valid exactly until creation + DefaultExpiry, that instant included. It has expired exactly after that instant. |
| Models.ExpiryIsMonotone | magic_link/models.py:81-96 | Expiry depends only on the clock. Once expired, a link stays expired, and once invalid it stays invalid at later times. |
| Models.DisableIsIdempotent | magic_link/models.py:135-138 | Disabling twice gives the same state as disabling once. |
| Models.FirstAccessWins | magic_link/models.py:162-164 | A second access never overwrites the access time that the first access recorded. |
| Models.Authorize | magic_link/models.py:117-126 | The check fails, with PermissionDenied, iff the requester is authenticated as a user other than the link's owner. Anonymous users and the owner always pass. |
| Models.Message | magic_link/models.py:106-126 | The text recorded for every error is non-empty. |
| Models.MessagesAreDistinct | magic_link/models.py:106-126 | Different errors have different texts, so the audit log tells the error kinds apart. |
| Models.NewUse | magic_link/models.py:153-161 | The record's error is "" iff no error was given, and otherwise it is the error's text. The timestamp is the forced one, or now when none is forced. The session key is recorded as it is, or as "" when the session has none. Address and agent come from the header helpers. |
| Models.UsedForLogin | magic_link/admin.py:9-11 | A use record is flagged as used for login iff the link has a login time equal to the record's timestamp. |
| Models.MagicLink.constructor | magic_link/models.py:44-70 | A new link takes the column defaults: active, expiring DefaultExpiry seconds after creation, redirect DefaultRedirect unless given. It is valid at creation. |
| Models.MagicLink.Login | magic_link/models.py:128-133 | The session is authenticated as the link's user with the magic-link session lifetime. `logged_in_at` becomes now and nothing else in the link changes. |
| Models.MagicLink.Disable | magic_link/models.py:135-138 | Only `is_active` changes, and it becomes false. |
| Models.MagicLink.Audit | magic_link/models.py:140-165 | Exactly one record is appended to the table and returned. The link's state changes only by the first-access rule, applied to that record's timestamp. |
| Views.Check | magic_link/views.py:25-28 | A validation error is reported in preference to a user mismatch, because authorize runs only after validate passes. The check passes iff the link is valid and the requester is authorized. |
| Views.Serve | magic_link/views.py:16-75 | A request is refused iff the check fails, and then it carries that error. It shows the page iff it is a GET that passes, and redirects to `redirect_to` iff it is a POST that passes. Only the redirect deactivates the link and sets `logged_in_at = now`. Any other request changes only the access time. |
| Views.ConsumedLinkReportsInactive | magic_link/views.py:61-73 | After a successful POST, every later request on the link is refused with InactiveLink, not UsedLink. |
| Views.Replay | magic_link/views.py:16-75 | A sequence of requests yields one response per request. |
| Views.ReplayIsOneWay | magic_link/views.py:16-75 | Over any sequence of requests, an inactive link stays inactive. The access and login times are written at most once and then kept, and any request sets the access time. The expiry never changes. "Logged in implies inactive" is preserved. |
| Views.AtMostOneLogin | magic_link/views.py:45-75 | Over any sequence of requests, at most one login happens. A link that starts inactive or used never logs in. After a login the link is inactive and has a login time. |
| Views.MagicLinkView.Get | magic_link/views.py:16-43 | An unknown token gives 404 and writes no record. Otherwise the response and new link state are those of `Serve`, and exactly one record is appended, carrying the check's error if there was one. |
| Views.MagicLinkView.Post | magic_link/views.py:45-75 | An unknown token gives 404, writes nothing and leaves the session alone. Otherwise the outcome is that of `Serve` and exactly one record is appended. On success the record has the login timestamp and the admin flags it as used for login. The session is then logged in as the owner. A refused POST leaves the session unchanged. |
| Views.ReusedLinkScenario | magic_link/views.py:36-75 | GET then POST then POST on a fresh link gives 200, a redirect to the default target, and a 403 InactiveLink. Three records are written, and the first two are error-free. |
| Views.CrossUserScenario | tests/test_views.py:15-47 | A GET by a different logged-in user gives 403 PermissionDenied. A GET by the owner or by an anonymous user gives 200. An unknown token gives 404 and writes no record. |
| Views.ExpiredLinkScenario | magic_link/models.py:81-86 | A GET at the expiry instant succeeds. A GET one second later gives 403 ExpiredLink. |

## Left out

- Persistence (`save`, `objects.create`, `get_object_or_404`) is replaced by in-memory objects, a token-indexed map and the `UseTable` row sequence.
- `transaction.atomic` and racing POSTs are left out. They depend on database isolation. The model is sequential: `AtMostOneLogin` states the one-login guarantee for requests served one after another.
- The framework's `login` and `set_expiry` are modelled only by their effect on the session, which becomes authenticated as the link's user with the magic-link lifetime. The authentication backend setting is not modelled.
- Models.MagicLink.Login: does not model the framework's session-key rotation on login, or the update of `request.user`. The key is kept as it was, so the POST audit records the pre-login key.
- Templates, URL routing, `reverse`, `get_absolute_url`, `__str__` and `__repr__` are left out. Responses are the abstract outcomes 200, 302, 403 and 404.
- UUID token generation relies on randomness. Tokens are opaque unique map keys.
- The wall clock is an integer parameter. Each request reads it once. The source reads it again in `validate` (through `has_expired` at magic_link/models.py:108 and through `is_valid` at :114), in `login` and in `audit`.
- Models.LinkState.Validate: reads the clock once, so its "InvalidLink is never raised" holds only for one reading. With two readings the generic InvalidLink is raised when the expiry falls between them. `ValidateAcrossReadings` models that window, but the views do not use it.
- Views.Check: uses the one-reading `Validate`, so its "never InvalidLink" clause does not cover the window between the source's two clock readings during validation.
- Header lookup uses the exact key. The framework's case-insensitive header access is not modelled.
- The `MAGIC_LINK` settings override is not modelled. The settings are the defaults only.
- Column length limits (`max_length`) are not enforced.
- The admin display classes are left out, except the "used for login" predicate `Models.UsedForLogin`. The app config and migrations are left out too.
