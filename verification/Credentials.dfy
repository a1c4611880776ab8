/** Agent credentials: authorization codes, OAuth tokens with rotating refresh tokens, and API keys. The tables,
    and what each endpoint does to them. The handlers of module `CredentialHandlers` are proved against this. */
module Credentials {
  import opened Wrappers

  /** A PKCE challenge: the digest of a verifier, or a text that is no verifier's digest. Digests are injective. */
  datatype Challenge = S256(verifier: string) | NoDigest(text: string)

  /** A row of `oauth_codes`. Codes and tokens stand for their hashes, which are injective. Times are seconds. */
  datatype Code = Code(
    client: string, user: string, org: string, redirect: string, challenge: Challenge, expiresAt: int)

  datatype Kind = Key | OAuth

  /** A row of `agent_tokens`. */
  datatype Row = Row(
    org: string, user: string, kind: Kind, token: string, refresh: Option<string>, prevRefresh: Option<string>,
    expiresAt: Option<int>, createdAt: int, revoked: bool)

  /** The tables; `members` are the users that are active in an organisation. The last three fields are history:
      every code and token ever issued, when each code was approved, and the approval each row goes back to. */
  datatype Store = Store(
    clients: map<string, set<string>>,
    members: set<(string, string)>,
    codes: map<string, Code>,
    rows: map<string, Row>,
    issued: set<string>,
    approvals: map<string, int>,
    granted: map<string, int>)

  const MINUTE := 60
  const DAY := 24 * 3600
  const CODE_TTL := 10 * MINUTE
  const ACCESS_TTL := 30 * DAY
  const REFRESH_TTL := 90 * DAY
  const EXCHANGED_KEY_TTL := 90 * DAY
  const KEY_CAP := 25
  const NAME_CAP := 100

  datatype Reply =
    | Issued | Done
    | MissingField | BadMethod | UnknownClient | RedirectNotRegistered | RedirectRefused
    | UnknownCode | CodeExpired | WrongClient | WrongRedirect | WrongVerifier
    | ReuseDetected | UnknownRefresh | TokenRevoked | RefreshExpired
    | Unauthorized | NotOAuth | BadName | TooManyKeys | NotFound

  datatype Call =
    | Approve(user: string, org: string, client: string, redirect: string, challenge: Option<Challenge>,
              s256: bool, now: int, code: string)
    | RedeemCode(code: string, verifier: string, client: string, redirect: string, now: int,
                 id: string, access: string, refresh: string)
    | Refresh(token: string, now: int, access: string, refresh: string)
    | CreateKey(user: string, org: string, now: int, id: string, token: string)
    | Exchange(bearer: string, now: int, id: string, token: string)
    | Revoke(user: string, org: string, id: string)
    | RevokeAll(user: string)
    | SetMember(user: string, org: string, active: bool)

  /** A parsed redirect URI: its scheme in lower case, and whether its host is a loopback address. */
  datatype Uri = Uri(scheme: string, loopback: bool)

  /** The redirect policy: a loopback address, or the reverse-domain scheme of a native app (section 7 of RFC 8252). */
  predicate RedirectAllowed(uri: Option<Uri>) {
    && uri.Some? && uri.value.scheme != ""
    && if uri.value.scheme == "http" || uri.value.scheme == "https" then uri.value.loopback
       else uri.value.scheme !in {"javascript", "data", "vbscript", "file"} && '.' in uri.value.scheme
  }

  // --- lookups ---

  function RowsWithToken(s: Store, token: string): set<string> {
    set id | id in s.rows && s.rows[id].token == token
  }

  function RowsWithRefresh(s: Store, refresh: string): set<string> {
    set id | id in s.rows && s.rows[id].refresh == Some(refresh)
  }

  /** The unrevoked rows a refresh token was rotated away from last. */
  function RowsSuperseding(s: Store, refresh: string): set<string> {
    set id | id in s.rows && s.rows[id].prevRefresh == Some(refresh) && !s.rows[id].revoked
  }

  function ActiveOf(s: Store, user: string): set<string> {
    set id | id in s.rows && s.rows[id].user == user && !s.rows[id].revoked
  }

  ghost function Pick(ids: set<string>): (id: Option<string>)
    ensures id.Some? <==> ids != {}
    ensures id.Some? ==> id.value in ids
  {
    if id :| id in ids then Some(id) else None
  }

  /** The row a bearer token resolves to. */
  ghost function Lookup(s: Store, bearer: string, now: int): (id: Option<string>)
    ensures id.Some? ==> id.value in s.rows && s.rows[id.value].token == bearer
  {
    var id := Pick(RowsWithToken(s, bearer));
    if bearer == "" || id.None? || !Usable(s, s.rows[id.value], now) then None else id
  }

  predicate Usable(s: Store, r: Row, now: int) {
    !r.revoked && (r.expiresAt.Some? ==> now <= r.expiresAt.value) && (r.user, r.org) in s.members
  }

  // --- endpoints ---

  function ApproveReply(s: Store, c: Call): Reply
    requires c.Approve?
  {
    if c.client == "" || c.redirect == "" || c.challenge.None? then MissingField
    else if !c.s256 then BadMethod
    else if c.client !in s.clients then UnknownClient
    else if c.redirect !in s.clients[c.client] then RedirectNotRegistered
    else Issued
  }

  function Approved(s: Store, c: Call): Store
    requires c.Approve? && c.challenge.Some?
  {
    s.(codes := s.codes[c.code := Code(c.client, c.user, c.org, c.redirect, c.challenge.value, c.now + CODE_TTL)],
       issued := s.issued + {c.code},
       approvals := s.approvals[c.code := c.now])
  }

  /** The checks of a code grant against the stored code. */
  function GrantReply(row: Code, verifier: string, client: string, redirect: string, now: int): Reply {
    if now > row.expiresAt then CodeExpired
    else if client == "" || client != row.client then WrongClient
    else if redirect == "" || redirect != row.redirect then WrongRedirect
    else if S256(verifier) != row.challenge then WrongVerifier
    else Issued
  }

  function RedeemReply(s: Store, c: Call): Reply
    requires c.RedeemCode?
  {
    if c.code == "" || c.verifier == "" then MissingField
    else if c.code !in s.codes then UnknownCode
    else GrantReply(s.codes[c.code], c.verifier, c.client, c.redirect, c.now)
  }

  /** Looking a code up deletes it, whatever the outcome. */
  function CodeTaken(s: Store, c: Call): Store
    requires c.RedeemCode?
  {
    if c.code == "" || c.verifier == "" then s else s.(codes := s.codes - {c.code})
  }

  function Redeemed(s: Store, c: Call): Store
    requires c.RedeemCode? && c.code in s.codes
  {
    var row := s.codes[c.code];
    var taken := CodeTaken(s, c);
    taken.(rows := s.rows[c.id := Row(row.org, row.user, OAuth, c.access, Some(c.refresh), None,
                                      Some(c.now + ACCESS_TTL), c.now, false)],
           issued := s.issued + {c.access, c.refresh},
           granted := if c.code in s.approvals then s.granted[c.id := s.approvals[c.code]] else s.granted)
  }

  ghost function RefreshReply(s: Store, c: Call): Reply
    requires c.Refresh?
  {
    if c.token == "" then MissingField
    else if RowsSuperseding(s, c.token) != {} then ReuseDetected
    else
      var id := Pick(RowsWithRefresh(s, c.token));
      if id.None? then UnknownRefresh
      else if s.rows[id.value].revoked then TokenRevoked
      else if c.now - s.rows[id.value].createdAt > REFRESH_TTL then RefreshExpired
      else Issued
  }

  function Rotated(s: Store, c: Call, id: string): Store
    requires c.Refresh? && id in s.rows
  {
    s.(rows := s.rows[id := s.rows[id].(token := c.access, refresh := Some(c.refresh), prevRefresh := Some(c.token),
                                        expiresAt := Some(c.now + ACCESS_TTL))],
       issued := s.issued + {c.access, c.refresh})
  }

  function WithRevoked(s: Store, id: string): Store
    requires id in s.rows
  {
    s.(rows := s.rows[id := s.rows[id].(revoked := true)])
  }

  function CreateReply(s: Store, user: string): Reply {
    if |ActiveOf(s, user)| >= KEY_CAP then TooManyKeys else Issued
  }

  function WithKey(
    s: Store, org: string, user: string, id: string, token: string, now: int, expiresAt: Option<int>): Store
  {
    s.(rows := s.rows[id := Row(org, user, Key, token, None, None, expiresAt, now, false)],
       issued := s.issued + {token})
  }

  ghost function ExchangeReply(s: Store, c: Call): Reply
    requires c.Exchange?
  {
    var id := Lookup(s, c.bearer, c.now);
    if id.None? then Unauthorized
    else if s.rows[id.value].kind != OAuth then NotOAuth
    else CreateReply(s, s.rows[id.value].user)
  }

  /** The key minted from an OAuth row goes back to the row's approval. */
  function Exchanged(s: Store, c: Call, from: string): Store
    requires c.Exchange? && from in s.rows
  {
    var r := s.rows[from];
    var minted := WithKey(s, r.org, r.user, c.id, c.token, c.now, Some(c.now + EXCHANGED_KEY_TTL));
    if from in s.granted then minted.(granted := s.granted[c.id := s.granted[from]]) else minted
  }

  function RevokeReply(s: Store, user: string, org: string, id: string): Reply {
    if id in s.rows && s.rows[id].user == user && s.rows[id].org == org && !s.rows[id].revoked then Done else NotFound
  }

  ghost function Next(s: Store, c: Call): Store {
    match c
    case Approve(_, _, _, _, _, _, _, _) => if ApproveReply(s, c) == Issued then Approved(s, c) else s
    case RedeemCode(_, _, _, _, _, _, _, _) => if RedeemReply(s, c) == Issued then Redeemed(s, c) else CodeTaken(s, c)
    case Refresh(token, _, _, _) =>
      if RefreshReply(s, c) == ReuseDetected then WithRevoked(s, Pick(RowsSuperseding(s, token)).value)
      else if RefreshReply(s, c) == Issued then Rotated(s, c, Pick(RowsWithRefresh(s, token)).value)
      else s
    case CreateKey(user, org, now, id, token) =>
      if CreateReply(s, user) == Issued then WithKey(s, org, user, id, token, now, None) else s
    case Exchange(bearer, now, _, _) =>
      if ExchangeReply(s, c) == Issued then Exchanged(s, c, Lookup(s, bearer, now).value) else s
    case Revoke(user, org, id) => if RevokeReply(s, user, org, id) == Done then WithRevoked(s, id) else s
    case RevokeAll(user) =>
      s.(rows := map id | id in s.rows ::
           if s.rows[id].user == user then s.rows[id].(revoked := true) else s.rows[id])
    case SetMember(user, org, active) =>
      s.(members := if active then s.members + {(user, org)} else s.members - {(user, org)})
  }

  /** Codes, tokens and row ids are random: never issued before, and not empty. */
  predicate Fresh(s: Store, c: Call) {
    match c
    case Approve(_, _, _, _, _, _, _, code) => NewSecret(s, code)
    case RedeemCode(_, _, _, _, _, id, access, refresh) =>
      id !in s.rows && id !in s.granted && NewSecret(s, access) && NewSecret(s, refresh) && access != refresh
    case Refresh(_, _, access, refresh) => NewSecret(s, access) && NewSecret(s, refresh) && access != refresh
    case CreateKey(_, _, _, id, token) => id !in s.rows && id !in s.granted && NewSecret(s, token)
    case Exchange(_, _, id, token) => id !in s.rows && id !in s.granted && NewSecret(s, token)
    case _ => true
  }

  predicate NewSecret(s: Store, secret: string) {
    secret !in s.issued && secret != ""
  }
}
