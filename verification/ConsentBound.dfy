/** The consent lifetime bound is exact: a run that uses every grant at its last moment reaches it. */
module ConsentBound {
  import opened Wrappers
  import opened Credentials
  import opened CredentialRuns

  lemma PickOnly(ids: set<string>, id: string)
    requires ids == {id}
    ensures Pick(ids) == Some(id)
  {
  }

  lemma OneRowPerToken(s: Store, id: string)
    requires SecretsOk(s) && id in s.rows
    ensures RowsWithToken(s, s.rows[id].token) == {id}
    ensures s.rows[id].refresh.Some? ==> RowsWithRefresh(s, s.rows[id].refresh.value) == {id}
    ensures s.rows[id].refresh.Some? ==> RowsSuperseding(s, s.rows[id].refresh.value) == {}
  {
    forall i | i in s.rows
      ensures s.rows[i].token == s.rows[id].token ==> i == id
      ensures s.rows[id].refresh.Some? && s.rows[i].refresh == s.rows[id].refresh ==> i == id
      ensures s.rows[id].refresh.Some? ==> s.rows[i].prevRefresh != s.rows[id].refresh
    {
      assert Overlap(s.rows[i], s.rows[id]) ==> i == id;
      assert !Recycled(s.rows[id], s.rows[i]);
    }
  }

  /** An OAuth row of a member, created at `created` from a consent given at `a`. */
  ghost predicate Holding(s: Store, id: string, user: string, org: string, a: int, created: int) {
    && SecretsOk(s) && ConsentOk(s)
    && (user, org) in s.members
    && id in s.rows && id in s.granted && s.granted[id] == a
    && s.rows[id].kind == OAuth && s.rows[id].user == user && s.rows[id].org == org && !s.rows[id].revoked
    && s.rows[id].createdAt == created && s.rows[id].refresh.Some?
    && |ActiveOf(s, user)| < KEY_CAP
  }

  /** A code redeemed in its last second. */
  lemma RedeemLast(s: Store, approve: Call, redeem: Call)
    requires SecretsOk(s) && ConsentOk(s) && Fresh(s, approve) && approve.Approve?
    requires approve.redirect != "" && ApproveReply(s, approve) == Issued
    requires (approve.user, approve.org) in s.members && |ActiveOf(s, approve.user)| < KEY_CAP - 1
    requires redeem.RedeemCode? && redeem.code == approve.code && redeem.client == approve.client
    requires redeem.redirect == approve.redirect && redeem.verifier != ""
    requires approve.challenge == Some(S256(redeem.verifier)) && redeem.now == approve.now + CODE_TTL
    requires Fresh(Next(s, approve), redeem)
    ensures RedeemReply(Next(s, approve), redeem) == Issued
    ensures var t := Next(Next(s, approve), redeem);
      && Holding(t, redeem.id, approve.user, approve.org, approve.now, approve.now + CODE_TTL)
      && t.rows[redeem.id].refresh == Some(redeem.refresh)
  {
    var s1 := Next(s, approve);
    StepKeepsSecrets(s, approve);
    StepKeepsConsent(s, approve);
    StepKeepsSecrets(s1, redeem);
    StepKeepsConsent(s1, redeem);
    CodeGrantIgnoresCap(s1, redeem);
    assert ActiveOf(s1, approve.user) == ActiveOf(s, approve.user);
  }

  lemma RefreshAccepted(s: Store, c: Call, id: string, user: string, org: string, a: int, created: int)
    requires Holding(s, id, user, org, a, created) && c.Refresh?
    requires s.rows[id].refresh == Some(c.token) && c.now == created + REFRESH_TTL
    ensures RefreshReply(s, c) == Issued && Pick(RowsWithRefresh(s, c.token)) == Some(id)
  {
    OneRowPerToken(s, id);
    PickOnly(RowsWithRefresh(s, c.token), id);
    assert RowIssued(s, s.rows[id]);
  }

  lemma RefreshKeepsActive(s: Store, c: Call, id: string, user: string)
    requires c.Refresh? && RefreshReply(s, c) == Issued && Pick(RowsWithRefresh(s, c.token)) == Some(id) && id in s.rows
    ensures ActiveOf(Next(s, c), user) == ActiveOf(s, user)
  {
    var t := Next(s, c);
    assert t.rows.Keys == s.rows.Keys;
    forall k | k in s.rows
      ensures k in ActiveOf(t, user) <==> k in ActiveOf(s, user)
    {
    }
  }

  /** A refresh in the last second of the 90 days. */
  lemma RefreshLast(s: Store, c: Call, id: string, user: string, org: string, a: int, created: int)
    requires Holding(s, id, user, org, a, created) && c.Refresh? && Fresh(s, c)
    requires s.rows[id].refresh == Some(c.token) && c.now == created + REFRESH_TTL
    ensures RefreshReply(s, c) == Issued
    ensures var t := Next(s, c);
      && Holding(t, id, user, org, a, created)
      && t.rows[id].token == c.access && t.rows[id].expiresAt == Some(c.now + ACCESS_TTL)
  {
    RefreshAccepted(s, c, id, user, org, a, created);
    StepKeepsSecrets(s, c);
    StepKeepsConsent(s, c);
    RefreshKeepsActive(s, c, id, user);
  }

  /** An exchange in the last second of an access token, and the key at the end of its 90 days. */
  lemma ExchangeLast(s: Store, c: Call, id: string, user: string, org: string, a: int, created: int)
    requires Holding(s, id, user, org, a, created) && c.Exchange? && Fresh(s, c)
    requires s.rows[id].token == c.bearer && s.rows[id].expiresAt == Some(c.now)
    ensures ExchangeReply(s, c) == Issued
    ensures var t := Next(s, c);
      Lookup(t, c.token, c.now + EXCHANGED_KEY_TTL) == Some(c.id) && c.id in t.granted && t.granted[c.id] == a
  {
    OneRowPerToken(s, id);
    PickOnly(RowsWithToken(s, c.bearer), id);
    assert RowIssued(s, s.rows[id]);
    StepKeepsSecrets(s, c);
    var t := Next(s, c);
    OneRowPerToken(t, c.id);
    PickOnly(RowsWithToken(t, c.token), c.id);
  }

  /** From every consistent state in which a member below the key cap gives a consent, some run ends with a key
      that goes back to it and still resolves 10 minutes and 210 days later, to the second. */
  lemma ConsentBoundIsReached(s: Store, approve: Call, redeem: Call, refresh: Call, exchange: Call)
    requires SecretsOk(s) && ConsentOk(s) && approve.Approve? && approve.redirect != ""
    requires ApproveReply(s, approve) == Issued
    requires (approve.user, approve.org) in s.members && |ActiveOf(s, approve.user)| < KEY_CAP - 1
    requires redeem.RedeemCode? && redeem.code == approve.code && redeem.client == approve.client
    requires redeem.redirect == approve.redirect && redeem.verifier != ""
    requires approve.challenge == Some(S256(redeem.verifier)) && redeem.now == approve.now + CODE_TTL
    requires refresh.Refresh? && refresh.token == redeem.refresh && refresh.now == redeem.now + REFRESH_TTL
    requires exchange.Exchange? && exchange.bearer == refresh.access && exchange.now == refresh.now + ACCESS_TTL
    requires AllFresh(s, [approve, redeem, refresh, exchange])
    ensures var end := Run(s, [approve, redeem, refresh, exchange]);
      && Lookup(end, exchange.token, approve.now + 10 * MINUTE + 210 * DAY) == Some(exchange.id)
      && exchange.id in end.granted && end.granted[exchange.id] == approve.now
  {
    FourCalls(s, approve, redeem, refresh, exchange);
    var s2 := Next(Next(s, approve), redeem);
    RedeemLast(s, approve, redeem);
    RefreshLast(s2, refresh, redeem.id, approve.user, approve.org, approve.now, redeem.now);
    ExchangeLast(Next(s2, refresh), exchange, redeem.id, approve.user, approve.org, approve.now, redeem.now);
  }

  lemma FourCalls(s: Store, a: Call, b: Call, c: Call, d: Call)
    ensures Run(s, [a, b, c, d]) == Next(Next(Next(Next(s, a), b), c), d)
    ensures AllFresh(s, [a, b, c, d]) ==>
      Fresh(s, a) && Fresh(Next(s, a), b) && Fresh(Next(Next(s, a), b), c) && Fresh(Next(Next(Next(s, a), b), c), d)
  {
    var s1 := Next(s, a);
    var s2 := Next(s1, b);
    var s3 := Next(s2, c);
    OneCall(s, a, [b, c, d]);
    OneCall(s1, b, [c, d]);
    OneCall(s2, c, [d]);
    OneCall(s3, d, []);
  }

  lemma OneCall(s: Store, a: Call, rest: seq<Call>)
    ensures Run(s, [a] + rest) == Run(Next(s, a), rest)
    ensures AllFresh(s, [a] + rest) <==> Fresh(s, a) && AllFresh(Next(s, a), rest)
  {
    assert ([a] + rest)[1..] == rest;
  }
}
