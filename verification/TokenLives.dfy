/** How long each credential lives and what ends it, over every run: access tokens, refresh tokens and keys. */
module TokenLives {
  import opened Wrappers
  import opened Credentials
  import opened CredentialRuns
  import opened ConsentBound

  /** A bearer token resolves to the one row that holds it, while the row is unrevoked, not past its expiry, and its
      user an active member of its organisation; and to nothing otherwise. */
  lemma ResolvesIff(s: Store, bearer: string, now: int, id: string)
    requires SecretsOk(s)
    ensures Lookup(s, bearer, now) == Some(id) <==>
      && id in s.rows && s.rows[id].token == bearer && !s.rows[id].revoked
      && (s.rows[id].expiresAt.None? || now <= s.rows[id].expiresAt.value)
      && (s.rows[id].user, s.rows[id].org) in s.members
  {
    if id in s.rows && s.rows[id].token == bearer {
      assert RowIssued(s, s.rows[id]);
      OneRowPerToken(s, id);
      PickOnly(RowsWithToken(s, bearer), id);
    }
  }

  // --- what stays the same ---

  /** What a credential is for never changes. */
  predicate SameHolder(a: Row, b: Row) {
    a.user == b.user && a.org == b.org && a.kind == b.kind && a.createdAt == b.createdAt
  }

  lemma StepKeepsHolder(s: Store, c: Call, id: string)
    requires Fresh(s, c) && id in s.rows
    ensures id in Next(s, c).rows && SameHolder(s.rows[id], Next(s, c).rows[id])
    ensures s.rows[id].revoked ==> Next(s, c).rows[id].revoked
  {
    RowsStay(s, c, id);
    match c
    case RedeemCode(_, _, _, _, _, _, _, _) => RedeemKeepsRow(s, c, id);
    case Refresh(_, _, _, _) => RefreshKeepsHolder(s, c, id);
    case Exchange(_, _, _, _) => ExchangeKeepsRow(s, c, id);
    case _ =>
  }

  lemma RedeemKeepsRow(s: Store, c: Call, id: string)
    requires Fresh(s, c) && id in s.rows && c.RedeemCode?
    ensures id in Next(s, c).rows && Next(s, c).rows[id] == s.rows[id]
  {
  }

  lemma ExchangeKeepsRow(s: Store, c: Call, id: string)
    requires Fresh(s, c) && id in s.rows && c.Exchange?
    ensures id in Next(s, c).rows && Next(s, c).rows[id] == s.rows[id]
  {
  }

  lemma RefreshKeepsHolder(s: Store, c: Call, id: string)
    requires c.Refresh? && id in s.rows
    ensures id in Next(s, c).rows && SameHolder(s.rows[id], Next(s, c).rows[id])
    ensures s.rows[id].revoked ==> Next(s, c).rows[id].revoked
  {
    if RefreshReply(s, c) == ReuseDetected {
      RevokedKeepsHolder(s, Pick(RowsSuperseding(s, c.token)).value, id);
    } else if RefreshReply(s, c) == Issued {
      RotatedKeepsHolder(s, c, Pick(RowsWithRefresh(s, c.token)).value, id);
    }
  }

  lemma RevokedKeepsHolder(s: Store, revoked: string, id: string)
    requires revoked in s.rows && id in s.rows
    ensures id in WithRevoked(s, revoked).rows && SameHolder(s.rows[id], WithRevoked(s, revoked).rows[id])
    ensures s.rows[id].revoked ==> WithRevoked(s, revoked).rows[id].revoked
  {
  }

  lemma RotatedKeepsHolder(s: Store, c: Call, rotated: string, id: string)
    requires c.Refresh? && rotated in s.rows && id in s.rows
    ensures id in Rotated(s, c, rotated).rows && SameHolder(s.rows[id], Rotated(s, c, rotated).rows[id])
    ensures s.rows[id].revoked ==> Rotated(s, c, rotated).rows[id].revoked
  {
  }

  lemma {:induction false} RunKeepsHolder(s: Store, calls: seq<Call>, id: string)
    requires AllFresh(s, calls) && id in s.rows
    ensures id in Run(s, calls).rows && SameHolder(s.rows[id], Run(s, calls).rows[id])
    ensures s.rows[id].revoked ==> Run(s, calls).rows[id].revoked
    decreases calls
  {
    if calls != [] {
      StepKeepsHolder(s, calls[0], id);
      RunKeepsHolder(Next(s, calls[0]), calls[1..], id);
    }
  }

  // --- refresh tokens ---

  /** What a refresh makes of the tables: the one row that holds the token gets a new pair of tokens and 30 more days if
      it is unrevoked and was created at most 90 days ago; no other row changes, and none does otherwise. */
  lemma RefreshIff(s: Store, c: Call, id: string)
    requires SecretsOk(s) && Fresh(s, c) && c.Refresh? && id in s.rows && s.rows[id].refresh == Some(c.token)
    ensures var r := s.rows[id];
      Next(s, c).rows ==
        if !r.revoked && c.now <= r.createdAt + 90 * 24 * 3600
        then s.rows[id := Row(r.org, r.user, r.kind, c.access, Some(c.refresh), Some(c.token),
                              Some(c.now + 30 * 24 * 3600), r.createdAt, false)]
        else s.rows
  {
    assert RowIssued(s, s.rows[id]);
    NotSuperseded(s, c.token, id);
    OneRowPerToken(s, id);
    PickOnly(RowsWithRefresh(s, c.token), id);
  }

  /** What the refresh of a current token is told: that it is revoked, or else that it is too old. */
  lemma RefreshRefusedIff(s: Store, c: Call, id: string)
    requires SecretsOk(s) && c.Refresh? && id in s.rows && s.rows[id].refresh == Some(c.token)
    ensures RefreshReply(s, c) == TokenRevoked <==> s.rows[id].revoked
    ensures RefreshReply(s, c) == RefreshExpired
            <==> !s.rows[id].revoked && c.now > s.rows[id].createdAt + 90 * 24 * 3600
    ensures RefreshReply(s, c) in {TokenRevoked, RefreshExpired, Issued}
  {
    assert RowIssued(s, s.rows[id]);
    NotSuperseded(s, c.token, id);
    OneRowPerToken(s, id);
    PickOnly(RowsWithRefresh(s, c.token), id);
  }

  lemma NotSuperseded(s: Store, token: string, id: string)
    requires SecretsOk(s) && id in s.rows && s.rows[id].refresh == Some(token)
    ensures RowsSuperseding(s, token) == {}
  {
    forall i | i in s.rows
      ensures s.rows[i].prevRefresh != Some(token)
    {
      assert !Recycled(s.rows[id], s.rows[i]);
    }
  }

  /** A session can be kept up for 90 days and no longer: over every run after a code was redeemed, however often it was
      refreshed, the refresh token the row then has gets a new access token exactly when the row has not been revoked
      and the redemption is at most 90 days back. */
  lemma SessionLasts90Days(s: Store, redeem: Call, calls: seq<Call>, c: Call)
    requires SecretsOk(s) && Fresh(s, redeem) && redeem.RedeemCode? && redeem.id in Next(s, redeem).rows
    requires AllFresh(Next(s, redeem), calls) && Fresh(Run(Next(s, redeem), calls), c) && c.Refresh?
    requires redeem.id in Run(Next(s, redeem), calls).rows
    requires Run(Next(s, redeem), calls).rows[redeem.id].refresh == Some(c.token)
    ensures var t := Run(Next(s, redeem), calls);
      && redeem.id in Next(t, c).rows
      && (Next(t, c).rows[redeem.id].token == c.access
          <==> !t.rows[redeem.id].revoked && c.now <= redeem.now + 90 * 24 * 3600)
  {
    var t := Run(Next(s, redeem), calls);
    StepKeepsSecrets(s, redeem);
    RunKeepsSecrets(Next(s, redeem), calls);
    RunKeepsHolder(Next(s, redeem), calls, redeem.id);
    RefreshIff(t, c, redeem.id);
    assert RowIssued(t, t.rows[redeem.id]);
    RedeemedNow(s, redeem);
  }

  lemma RedeemedNow(s: Store, redeem: Call)
    requires Fresh(s, redeem) && redeem.RedeemCode? && redeem.id in Next(s, redeem).rows
    ensures redeem.access in Next(s, redeem).issued
    ensures Next(s, redeem).rows[redeem.id].createdAt == redeem.now
    ensures Next(s, redeem).rows[redeem.id].expiresAt == Some(redeem.now + 30 * 24 * 3600)
  {
  }

  /** A refresh token that no row has now or had last buys nothing. */
  lemma UnknownRefreshBuysNothing(s: Store, c: Call)
    requires c.Refresh? && forall id :: id in s.rows ==>
      s.rows[id].refresh != Some(c.token) && s.rows[id].prevRefresh != Some(c.token)
    ensures Next(s, c) == s
  {
  }

  /** The expiry of an access token, as long as the row still holds it. */
  ghost predicate ExpiresWith(s: Store, id: string, token: string, at: int) {
    id in s.rows && (s.rows[id].token == token ==> s.rows[id].expiresAt == Some(at))
  }

  lemma StepKeepsExpiry(s: Store, c: Call, id: string, token: string, at: int)
    requires Fresh(s, c) && token in s.issued && ExpiresWith(s, id, token, at)
    ensures ExpiresWith(Next(s, c), id, token, at)
  {
    match c
    case RedeemCode(_, _, _, _, _, _, _, _) => RedeemKeepsRow(s, c, id);
    case Refresh(_, _, _, _) => RefreshKeepsExpiry(s, c, id, token, at);
    case Exchange(_, _, _, _) => ExchangeKeepsRow(s, c, id);
    case _ =>
  }

  lemma RefreshKeepsExpiry(s: Store, c: Call, id: string, token: string, at: int)
    requires Fresh(s, c) && c.Refresh? && token in s.issued && ExpiresWith(s, id, token, at)
    ensures ExpiresWith(Next(s, c), id, token, at)
  {
    if RefreshReply(s, c) == ReuseDetected {
      var k := Pick(RowsSuperseding(s, c.token)).value;
      assert Next(s, c) == WithRevoked(s, k);
    } else if RefreshReply(s, c) == Issued {
      var k := Pick(RowsWithRefresh(s, c.token)).value;
      assert Next(s, c) == Rotated(s, c, k);
    }
  }

  lemma {:induction false} RunKeepsExpiry(s: Store, calls: seq<Call>, id: string, token: string, at: int)
    requires SecretsOk(s) && AllFresh(s, calls) && token in s.issued && ExpiresWith(s, id, token, at)
    ensures ExpiresWith(Run(s, calls), id, token, at)
    decreases calls
  {
    if calls != [] {
      StepKeepsSecrets(s, calls[0]);
      StepKeepsExpiry(s, calls[0], id, token, at);
      RunKeepsExpiry(Next(s, calls[0]), calls[1..], id, token, at);
    }
  }

  /** How long an access token lives: over every run after the code was redeemed, it resolves exactly while its row
      still holds it (no refresh has replaced it) and is unrevoked, the user is an active member, and no more than 30
      days have passed. */
  lemma AccessLivesIff(s: Store, redeem: Call, calls: seq<Call>, now: int)
    requires SecretsOk(s) && Fresh(s, redeem) && redeem.RedeemCode? && redeem.id in Next(s, redeem).rows
    requires AllFresh(Next(s, redeem), calls)
    ensures var t := Run(Next(s, redeem), calls);
      && redeem.id in t.rows
      && (Lookup(t, redeem.access, now) == Some(redeem.id) <==>
            var r := t.rows[redeem.id];
            && r.token == redeem.access && !r.revoked && (r.user, r.org) in t.members
            && now <= redeem.now + 30 * 24 * 3600)
  {
    var s1 := Next(s, redeem);
    StepKeepsSecrets(s, redeem);
    RedeemedNow(s, redeem);
    RunKeepsSecrets(s1, calls);
    RunKeepsExpiry(s1, calls, redeem.id, redeem.access, redeem.now + 30 * 24 * 3600);
    ResolvesIff(Run(s1, calls), redeem.access, now, redeem.id);
  }

  // --- keys ---

  /** The user's unrevoked credentials of either kind. */
  function Unrevoked(s: Store, user: string): set<string> {
    set id | id in s.rows && s.rows[id].user == user && !s.rows[id].revoked
  }

  /** A user with fewer than 25 unrevoked credentials gets a key, which is his and has no expiry; nobody else does. */
  lemma KeyIssuedIff(s: Store, c: Call)
    requires Fresh(s, c) && c.CreateKey?
    ensures Next(s, c).rows ==
      if |Unrevoked(s, c.user)| < 25
      then s.rows[c.id := Row(c.org, c.user, Key, c.token, None, None, None, c.now, false)] else s.rows
  {
    assert ActiveOf(s, c.user) == Unrevoked(s, c.user);
  }

  /** Only a live access token is exchanged: one held by an OAuth row that resolves, of a user below the cap. The key
      belongs to the same user and organisation and lasts 90 days. No row changes otherwise. */
  lemma ExchangedIff(s: Store, c: Call, from: string)
    requires SecretsOk(s) && Fresh(s, c) && c.Exchange? && from in s.rows && s.rows[from].token == c.bearer
    ensures var r := s.rows[from];
      Next(s, c).rows ==
        if && r.kind == OAuth && !r.revoked && (r.expiresAt.None? || c.now <= r.expiresAt.value)
           && (r.user, r.org) in s.members && |Unrevoked(s, r.user)| < 25
        then s.rows[c.id := Row(r.org, r.user, Key, c.token, None, None, Some(c.now + 90 * 24 * 3600), c.now, false)]
        else s.rows
  {
    ResolvesIff(s, c.bearer, c.now, from);
    assert ActiveOf(s, s.rows[from].user) == Unrevoked(s, s.rows[from].user);
    var id := Lookup(s, c.bearer, c.now);
    if id.Some? { ResolvesIff(s, c.bearer, c.now, id.value); assert Overlap(s.rows[from], s.rows[id.value]); }
  }

  lemma UnknownBearerBuysNothing(s: Store, c: Call)
    requires c.Exchange? && forall id :: id in s.rows ==> s.rows[id].token != c.bearer
    ensures Next(s, c).rows == s.rows
  {
  }

  /** The calls that revoke a key: its owner's, in the organisation of the key, and the revocation of all he has. */
  predicate Ends(c: Call, id: string, r: Row) {
    c == Revoke(r.user, r.org, id) || c == RevokeAll(r.user)
  }

  lemma StepKeepsKey(s: Store, c: Call, id: string)
    requires SecretsOk(s) && Fresh(s, c) && id in s.rows && s.rows[id].kind == Key
    ensures id in Next(s, c).rows
    ensures Next(s, c).rows[id] == s.rows[id].(revoked := s.rows[id].revoked || Ends(c, id, s.rows[id]))
  {
    assert RowIssued(s, s.rows[id]);
    match c
    case RedeemCode(_, _, _, _, _, _, _, _) => RedeemKeepsRow(s, c, id);
    case Refresh(_, _, _, _) => RefreshKeepsKey(s, c, id);
    case Exchange(_, _, _, _) => ExchangeKeepsRow(s, c, id);
    case Revoke(_, _, _) => RevokesIff(s, c.user, c.org, c.id, id);
    case RevokeAll(_) => RevokesIff(s, c.user, "", "", id);
    case _ =>
  }

  /** A key has no refresh token, so that no refresh and no replay concerns it. */
  lemma RefreshKeepsKey(s: Store, c: Call, id: string)
    requires c.Refresh? && id in s.rows && s.rows[id].refresh.None? && s.rows[id].prevRefresh.None?
    ensures id in Next(s, c).rows && Next(s, c).rows[id] == s.rows[id]
  {
    if RefreshReply(s, c) == ReuseDetected {
      assert Pick(RowsSuperseding(s, c.token)).value in RowsSuperseding(s, c.token);
    } else if RefreshReply(s, c) == Issued {
      assert Pick(RowsWithRefresh(s, c.token)).value in RowsWithRefresh(s, c.token);
    }
  }

  /** Over every run a key stays as it is, but for its revocation by its owner. */
  lemma {:induction false} RunKeepsKey(s: Store, calls: seq<Call>, id: string)
    requires SecretsOk(s) && AllFresh(s, calls) && id in s.rows && s.rows[id].kind == Key
    ensures id in Run(s, calls).rows
    ensures Run(s, calls).rows[id]
         == s.rows[id].(revoked := s.rows[id].revoked || exists c :: c in calls && Ends(c, id, s.rows[id]))
    decreases calls
  {
    if calls != [] {
      StepKeepsSecrets(s, calls[0]);
      StepKeepsKey(s, calls[0], id);
      RunKeepsKey(Next(s, calls[0]), calls[1..], id);
      assert forall c :: c in calls <==> c == calls[0] || c in calls[1..];
    }
  }

  /** How long a key lives. Over every run after it was made, a key resolves exactly while nobody has revoked it for its
      owner, he is an active member, and, if it was exchanged for an access token, no more than 90 days have passed. */
  lemma KeyLivesIff(s: Store, make: Call, calls: seq<Call>, now: int)
    requires SecretsOk(s) && Fresh(s, make) && (make.CreateKey? || make.Exchange?) && make.id in Next(s, make).rows
    requires AllFresh(Next(s, make), calls)
    ensures var t, r := Run(Next(s, make), calls), Next(s, make).rows[make.id];
      Lookup(t, make.token, now) == Some(make.id) <==>
        && (forall c :: c in calls ==> !Ends(c, make.id, r))
        && (r.user, r.org) in t.members
        && (make.Exchange? ==> now <= make.now + 90 * 24 * 3600)
  {
    var t := Run(Next(s, make), calls);
    KeyMade(s, make);
    StepKeepsSecrets(s, make);
    RunKeepsSecrets(Next(s, make), calls);
    RunKeepsKey(Next(s, make), calls, make.id);
    ResolvesIff(t, make.token, now, make.id);
  }

  lemma KeyMade(s: Store, make: Call)
    requires Fresh(s, make) && (make.CreateKey? || make.Exchange?) && make.id in Next(s, make).rows
    ensures var r := Next(s, make).rows[make.id];
      && r.kind == Key && !r.revoked && r.token == make.token
      && r.expiresAt == if make.Exchange? then Some(make.now + 90 * 24 * 3600) else None
  {
  }

  // --- revocation and membership ---

  /** A revocation reaches the caller's own credential in his organisation, the revocation of all reaches all of the
      user's, and neither reaches any other. */
  lemma RevokesIff(s: Store, user: string, org: string, id: string, j: string)
    requires j in s.rows
    ensures j in Next(s, Revoke(user, org, id)).rows
    ensures Next(s, Revoke(user, org, id)).rows[j] ==
      if j == id && s.rows[j].user == user && s.rows[j].org == org then s.rows[j].(revoked := true) else s.rows[j]
    ensures j in Next(s, RevokeAll(user)).rows
    ensures Next(s, RevokeAll(user)).rows[j] ==
      if s.rows[j].user == user then s.rows[j].(revoked := true) else s.rows[j]
  {
  }

  /** A member who was deactivated in an organisation is locked out of it over every run, whatever credentials he holds
      or gets, until he is activated again. */
  lemma {:induction false} DeactivatedResolvesNothing(
    s: Store, calls: seq<Call>, user: string, org: string, bearer: string, now: int)
    requires SecretsOk(s) && AllFresh(s, calls) && (user, org) !in s.members
    requires SetMember(user, org, true) !in calls
    ensures var t := Run(s, calls); var id := Lookup(t, bearer, now);
      id.Some? ==> t.rows[id.value].user != user || t.rows[id.value].org != org
    decreases calls
  {
    if calls == [] {
      if Lookup(s, bearer, now).Some? { ResolvesIff(s, bearer, now, Lookup(s, bearer, now).value); }
    } else {
      assert calls[0] in calls;
      StepKeepsSecrets(s, calls[0]);
      StaysOut(s, calls[0], user, org);
      DeactivatedResolvesNothing(Next(s, calls[0]), calls[1..], user, org, bearer, now);
    }
  }

  lemma StaysOut(s: Store, c: Call, user: string, org: string)
    requires (user, org) !in s.members && c != SetMember(user, org, true)
    ensures (user, org) !in Next(s, c).members
  {
  }

  /** And an activation gives back what he had: the tokens of his unrevoked, unexpired credentials resolve again. */
  lemma ActivationGivesBack(s: Store, user: string, org: string, id: string, now: int)
    requires SecretsOk(s) && id in s.rows && s.rows[id].user == user && s.rows[id].org == org
    ensures Lookup(Next(s, SetMember(user, org, true)), s.rows[id].token, now) == Some(id) <==>
      !s.rows[id].revoked && (s.rows[id].expiresAt.None? || now <= s.rows[id].expiresAt.value)
  {
    StepKeepsSecrets(s, SetMember(user, org, true));
    ResolvesIff(Next(s, SetMember(user, org, true)), s.rows[id].token, now, id);
  }
}
