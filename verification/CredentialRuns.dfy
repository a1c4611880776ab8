/** Runs of the credential endpoints: how long a consent lasts, and what can be used how often. */
module CredentialRuns {
  import opened Wrappers
  import opened Credentials

  // --- the invariant ---

  /** Every secret of a row has been issued. */
  predicate RowIssued(s: Store, r: Row) {
    && r.token in s.issued
    && (r.refresh.Some? ==> r.refresh.value in s.issued)
    && (r.prevRefresh.Some? ==> r.prevRefresh.value in s.issued)
    && (r.kind == Key ==> r.refresh == None && r.prevRefresh == None)
  }

  /** Two rows, or the current and the superseded token of one, share a secret. */
  predicate Overlap(a: Row, b: Row) {
    || a.token == b.token
    || (a.refresh.Some? && a.refresh == b.refresh)
    || (a.prevRefresh.Some? && a.prevRefresh == b.prevRefresh)
  }

  predicate Recycled(a: Row, b: Row) {
    a.refresh.Some? && a.refresh == b.prevRefresh
  }

  ghost predicate SecretsOk(s: Store) {
    && (forall c :: c in s.codes ==> c in s.issued)
    && (forall id :: id in s.rows ==> RowIssued(s, s.rows[id]))
    && (forall i, j {:trigger Overlap(s.rows[i], s.rows[j])} ::
          i in s.rows && j in s.rows && Overlap(s.rows[i], s.rows[j]) ==> i == j)
    && (forall i, j {:trigger Recycled(s.rows[i], s.rows[j])} ::
          i in s.rows && j in s.rows ==> !Recycled(s.rows[i], s.rows[j]))
    && "" !in s.issued
  }

  /** How long a row with an approval at `a` behind it can last. */
  predicate WithinConsent(r: Row, a: int) {
    match r.kind
    case OAuth =>
      r.createdAt <= a + CODE_TTL && r.expiresAt.Some? && r.expiresAt.value <= r.createdAt + REFRESH_TTL + ACCESS_TTL
    case Key => r.expiresAt.Some? && r.expiresAt.value <= a + CODE_TTL + REFRESH_TTL + ACCESS_TTL + EXCHANGED_KEY_TTL
  }

  /** Every code and every OAuth row goes back to an approval, and keeps within it. */
  ghost predicate ConsentOk(s: Store) {
    && (forall c :: c in s.codes ==> c in s.approvals && s.codes[c].expiresAt == s.approvals[c] + CODE_TTL)
    && (forall id :: id in s.rows && s.rows[id].kind == OAuth ==> id in s.granted)
    && (forall id :: id in s.granted ==> id in s.rows && WithinConsent(s.rows[id], s.granted[id]))
  }

  lemma NewRowKeepsConsent(s: Store, t: Store, id: string, a: Option<int>)
    requires ConsentOk(s) && id !in s.rows && id !in s.granted && id in t.rows
    requires t.rows == s.rows[id := t.rows[id]]
    requires forall c :: c in t.codes ==> c in s.codes && t.codes[c] == s.codes[c]
    requires t.approvals == s.approvals
    requires t.granted == if a.Some? then s.granted[id := a.value] else s.granted
    requires if a.Some? then WithinConsent(t.rows[id], a.value) else t.rows[id].kind == Key
    ensures ConsentOk(t)
  {
  }

  /** A row keeps its kind and creation time; its expiry moves only while the consent allows a refresh. */
  ghost predicate Aged(a: Row, b: Row) {
    && b.kind == a.kind && b.createdAt == a.createdAt
    && (b.expiresAt == a.expiresAt
        || (a.kind == OAuth && b.expiresAt.Some? && b.expiresAt.value <= a.createdAt + REFRESH_TTL + ACCESS_TTL))
  }

  lemma AgingKeepsConsent(s: Store, t: Store)
    requires ConsentOk(s) && t.rows.Keys == s.rows.Keys && t.codes == s.codes
    requires t.approvals == s.approvals && t.granted == s.granted
    requires forall id :: id in s.rows ==> Aged(s.rows[id], t.rows[id])
    ensures ConsentOk(t)
  {
    forall id | id in t.granted
      ensures id in t.rows && WithinConsent(t.rows[id], t.granted[id])
    {
      assert WithinConsent(s.rows[id], s.granted[id]) && Aged(s.rows[id], t.rows[id]);
    }
  }

  lemma RedeemKeepsConsent(s: Store, c: Call)
    requires ConsentOk(s) && Fresh(s, c) && c.RedeemCode?
    ensures ConsentOk(Next(s, c))
  {
    if RedeemReply(s, c) == Issued {
      NewRowKeepsConsent(s, Redeemed(s, c), c.id, Some(s.approvals[c.code]));
    }
  }

  lemma RefreshKeepsConsent(s: Store, c: Call)
    requires ConsentOk(s) && SecretsOk(s) && c.Refresh?
    ensures ConsentOk(Next(s, c))
  {
    var reply := RefreshReply(s, c);
    if reply == ReuseDetected {
      AgingKeepsConsent(s, WithRevoked(s, Pick(RowsSuperseding(s, c.token)).value));
    } else if reply == Issued {
      var id := Pick(RowsWithRefresh(s, c.token)).value;
      assert RowIssued(s, s.rows[id]);
      AgingKeepsConsent(s, Rotated(s, c, id));
    }
  }

  lemma ExchangeKeepsConsent(s: Store, c: Call)
    requires ConsentOk(s) && Fresh(s, c) && c.Exchange?
    ensures ConsentOk(Next(s, c))
  {
    if ExchangeReply(s, c) == Issued {
      var from := Lookup(s, c.bearer, c.now).value;
      assert from in s.granted && WithinConsent(s.rows[from], s.granted[from]);
      NewRowKeepsConsent(s, Exchanged(s, c, from), c.id, Some(s.granted[from]));
    }
  }

  lemma StepKeepsConsent(s: Store, c: Call)
    requires ConsentOk(s) && SecretsOk(s) && Fresh(s, c)
    ensures ConsentOk(Next(s, c))
  {
    match c
    case Approve(_, _, _, _, _, _, _, _) => ApproveKeepsConsent(s, c);
    case RedeemCode(_, _, _, _, _, _, _, _) => RedeemKeepsConsent(s, c);
    case Refresh(_, _, _, _) => RefreshKeepsConsent(s, c);
    case CreateKey(_, _, _, _, _) => CreateKeepsConsent(s, c);
    case Exchange(_, _, _, _) => ExchangeKeepsConsent(s, c);
    case _ => MembersKeepConsent(s, c);
  }

  lemma ApproveKeepsConsent(s: Store, c: Call)
    requires ConsentOk(s) && c.Approve?
    ensures ConsentOk(Next(s, c))
  {
  }

  lemma CreateKeepsConsent(s: Store, c: Call)
    requires ConsentOk(s) && Fresh(s, c) && c.CreateKey?
    ensures ConsentOk(Next(s, c))
  {
    if CreateReply(s, c.user) == Issued { NewRowKeepsConsent(s, Next(s, c), c.id, None); }
  }

  lemma MembersKeepConsent(s: Store, c: Call)
    requires ConsentOk(s) && (c.Revoke? || c.RevokeAll? || c.SetMember?)
    ensures ConsentOk(Next(s, c))
  {
    AgingKeepsConsent(s, Next(s, c));
  }

  ghost function Run(s: Store, calls: seq<Call>): Store
    decreases calls
  {
    if calls == [] then s else Run(Next(s, calls[0]), calls[1..])
  }

  ghost predicate AllFresh(s: Store, calls: seq<Call>)
    decreases calls
  {
    calls != [] ==> Fresh(s, calls[0]) && AllFresh(Next(s, calls[0]), calls[1..])
  }

  /** The consent lifetime bound. After every run of approvals, token requests, exchanges and revocations, no
      access token or exchanged key that goes back to an approval at time `a` resolves later than 10 minutes and
      210 days after it. */
  lemma {:induction false} ConsentLifetime(s: Store, calls: seq<Call>, bearer: string, now: int)
    requires ConsentOk(s) && SecretsOk(s) && AllFresh(s, calls)
    ensures var end := Run(s, calls); var id := Lookup(end, bearer, now);
      && (id.Some? && end.rows[id.value].kind == OAuth ==> id.value in end.granted)
      && (id.Some? && id.value in end.granted ==> now <= end.granted[id.value] + 10 * MINUTE + 210 * DAY)
    decreases calls
  {
    if calls != [] {
      StepKeepsConsent(s, calls[0]);
      StepKeepsSecrets(s, calls[0]);
      ConsentLifetime(Next(s, calls[0]), calls[1..], bearer, now);
    } else {
      var id := Lookup(s, bearer, now);
      if id.Some? && id.value in s.granted { assert WithinConsent(s.rows[id.value], s.granted[id.value]); }
    }
  }

  // --- secrets ---

  /** A new row with new secrets shares none with the others. */
  lemma NewRowKeepsSecrets(s: Store, t: Store, id: string)
    requires SecretsOk(s) && id !in s.rows && id in t.rows && t.rows == s.rows[id := t.rows[id]]
    requires s.issued <= t.issued && "" !in t.issued && forall c :: c in t.codes ==> c in s.codes
    requires var r := t.rows[id];
      && r.token in t.issued && r.token !in s.issued && r.prevRefresh == None
      && (r.refresh.Some? ==> r.refresh.value in t.issued && r.refresh.value !in s.issued)
      && (r.kind == Key ==> r.refresh == None)
    ensures SecretsOk(t)
  {
    forall i | i in t.rows
      ensures RowIssued(t, t.rows[i])
    {
      if i != id { assert RowIssued(s, s.rows[i]); }
    }
    forall i, j | i in t.rows && j in t.rows
      ensures Overlap(t.rows[i], t.rows[j]) ==> i == j
      ensures !Recycled(t.rows[i], t.rows[j])
    {
      NewRowSharesNothing(s, t, id, i, j);
    }
  }

  lemma NewRowSharesNothing(s: Store, t: Store, id: string, i: string, j: string)
    requires SecretsOk(s) && id !in s.rows && id in t.rows && t.rows == s.rows[id := t.rows[id]]
    requires var r := t.rows[id];
      r.token !in s.issued && r.prevRefresh == None && (r.refresh.Some? ==> r.refresh.value !in s.issued)
    requires i in t.rows && j in t.rows
    ensures Overlap(t.rows[i], t.rows[j]) ==> i == j
    ensures !Recycled(t.rows[i], t.rows[j])
  {
    if i != id { assert RowIssued(s, s.rows[i]); }
    if j != id { assert RowIssued(s, s.rows[j]); }
    if i != id && j != id {
      assert !Recycled(s.rows[i], s.rows[j]);
      assert Overlap(s.rows[i], s.rows[j]) ==> i == j;
    }
  }

  lemma RotationKeepsSecrets(s: Store, c: Call, id: string)
    requires SecretsOk(s) && c.Refresh? && Fresh(s, c) && id in s.rows && s.rows[id].refresh == Some(c.token)
    ensures SecretsOk(Rotated(s, c, id))
  {
    var t := Rotated(s, c, id);
    assert RowIssued(s, s.rows[id]);
    forall i | i in t.rows
      ensures RowIssued(t, t.rows[i])
    {
      if i != id { assert RowIssued(s, s.rows[i]); }
    }
    forall i, j | i in t.rows && j in t.rows
      ensures Overlap(t.rows[i], t.rows[j]) ==> i == j
      ensures !Recycled(t.rows[i], t.rows[j])
    {
      assert RowIssued(s, s.rows[i]) && RowIssued(s, s.rows[j]);
      assert !Recycled(s.rows[i], s.rows[j]) && !Recycled(s.rows[id], s.rows[j]) && !Recycled(s.rows[id], s.rows[i]);
      assert Overlap(s.rows[i], s.rows[j]) ==> i == j;
      assert Overlap(s.rows[i], s.rows[id]) ==> i == id;
      assert Overlap(s.rows[id], s.rows[j]) ==> id == j;
    }
  }

  ghost predicate SameSecrets(a: Store, b: Store) {
    && a.rows.Keys == b.rows.Keys && a.issued == b.issued
    && (forall c :: c in b.codes ==> c in a.codes)
    && forall id :: id in a.rows ==> b.rows[id].(revoked := a.rows[id].revoked) == a.rows[id]
  }

  lemma SameSecretsOk(a: Store, b: Store)
    requires SecretsOk(a) && SameSecrets(a, b)
    ensures SecretsOk(b)
  {
    forall i | i in b.rows
      ensures RowIssued(b, b.rows[i])
    {
      assert RowIssued(a, a.rows[i]);
    }
    forall i, j | i in b.rows && j in b.rows
      ensures Overlap(b.rows[i], b.rows[j]) ==> i == j
      ensures !Recycled(b.rows[i], b.rows[j])
    {
      assert Overlap(a.rows[i], a.rows[j]) ==> i == j;
      assert !Recycled(a.rows[i], a.rows[j]);
    }
  }

  lemma CodeKeepsSecrets(s: Store, codes: map<string, Code>, code: string)
    requires SecretsOk(s) && code != "" && forall c :: c in codes ==> c in s.codes || c == code
    ensures SecretsOk(s.(codes := codes, issued := s.issued + {code}))
  {
    var t := s.(codes := codes, issued := s.issued + {code});
    forall i | i in t.rows
      ensures RowIssued(t, t.rows[i])
    {
      assert RowIssued(s, s.rows[i]);
    }
  }

  lemma StepKeepsSecrets(s: Store, c: Call)
    requires SecretsOk(s) && Fresh(s, c)
    ensures SecretsOk(Next(s, c))
    ensures s.issued <= Next(s, c).issued
  {
    IssuedGrows(s, c);
    match c
    case Approve(_, _, _, _, _, _, _, _) => ApproveKeepsSecrets(s, c);
    case RedeemCode(_, _, _, _, _, _, _, _) => RedeemKeepsSecrets(s, c);
    case Refresh(_, _, _, _) => RefreshKeepsSecrets(s, c);
    case CreateKey(_, _, _, _, _) => CreateKeepsSecrets(s, c);
    case Exchange(_, _, _, _) => ExchangeKeepsSecrets(s, c);
    case Revoke(_, _, _) => RevokeKeepsSecrets(s, c);
    case RevokeAll(_) => RevokeAllKeepsSecrets(s, c);
    case SetMember(_, _, _) => MembersKeepSecrets(s, c);
  }

  lemma IssuedGrows(s: Store, c: Call)
    ensures s.issued <= Next(s, c).issued
  {
  }

  lemma RevokeKeepsSecrets(s: Store, c: Call)
    requires SecretsOk(s) && c.Revoke?
    ensures SecretsOk(Next(s, c))
  {
    SameSecretsOk(s, Next(s, c));
  }

  lemma RevokeAllKeepsSecrets(s: Store, c: Call)
    requires SecretsOk(s) && c.RevokeAll?
    ensures SecretsOk(Next(s, c))
  {
    SameSecretsOk(s, Next(s, c));
  }

  lemma MembersKeepSecrets(s: Store, c: Call)
    requires SecretsOk(s) && c.SetMember?
    ensures SecretsOk(Next(s, c))
  {
    SameSecretsOk(s, Next(s, c));
  }

  lemma CreateKeepsSecrets(s: Store, c: Call)
    requires SecretsOk(s) && Fresh(s, c) && c.CreateKey?
    ensures SecretsOk(Next(s, c))
  {
    if CreateReply(s, c.user) == Issued { NewRowKeepsSecrets(s, Next(s, c), c.id); }
  }

  lemma ApproveKeepsSecrets(s: Store, c: Call)
    requires SecretsOk(s) && Fresh(s, c) && c.Approve?
    ensures SecretsOk(Next(s, c))
  {
    if ApproveReply(s, c) == Issued {
      CodeKeepsSecrets(s, Approved(s, c).codes, c.code);
      SameSecretsOk(s.(codes := Approved(s, c).codes, issued := s.issued + {c.code}), Approved(s, c));
    }
  }

  lemma RedeemKeepsSecrets(s: Store, c: Call)
    requires SecretsOk(s) && Fresh(s, c) && c.RedeemCode?
    ensures SecretsOk(Next(s, c))
  {
    if RedeemReply(s, c) == Issued {
      NewRowKeepsSecrets(s, Redeemed(s, c), c.id);
    } else {
      SameSecretsOk(s, CodeTaken(s, c));
    }
  }

  lemma RefreshKeepsSecrets(s: Store, c: Call)
    requires SecretsOk(s) && Fresh(s, c) && c.Refresh?
    ensures SecretsOk(Next(s, c))
  {
    if RefreshReply(s, c) == ReuseDetected {
      SameSecretsOk(s, Next(s, c));
    } else if RefreshReply(s, c) == Issued {
      RotationKeepsSecrets(s, c, Pick(RowsWithRefresh(s, c.token)).value);
    }
  }

  lemma ExchangeKeepsSecrets(s: Store, c: Call)
    requires SecretsOk(s) && Fresh(s, c) && c.Exchange?
    ensures SecretsOk(Next(s, c))
  {
    if ExchangeReply(s, c) == Issued {
      NewRowKeepsSecrets(s, Exchanged(s, c, Lookup(s, c.bearer, c.now).value), c.id);
    }
  }

  // --- single use ---

  /** A code is spent: issued once, and no longer stored. */
  predicate CodeSpent(s: Store, code: string) {
    code in s.issued && code !in s.codes
  }

  /** A code yields a token row at this call. */
  predicate Redeems(s: Store, c: Call, code: string) {
    c.RedeemCode? && c.code == code && RedeemReply(s, c) == Issued
  }

  ghost function Redemptions(s: Store, calls: seq<Call>, code: string): nat
    decreases calls
  {
    if calls == [] then 0
    else (if Redeems(s, calls[0], code) then 1 else 0) + Redemptions(Next(s, calls[0]), calls[1..], code)
  }

  lemma StepSpendsCode(s: Store, c: Call, code: string)
    requires SecretsOk(s) && Fresh(s, c) && code in s.issued
    ensures CodeSpent(s, code) ==> !Redeems(s, c, code) && CodeSpent(Next(s, c), code)
    ensures Redeems(s, c, code) ==> CodeSpent(Next(s, c), code)
  {
  }

  /** Each code yields at most one token row, over every run (section 4.1.2 of RFC 6749); and none after an
      attempt with it, successful or not. */
  lemma {:induction false} CodeIsSingleUse(s: Store, calls: seq<Call>, code: string)
    requires SecretsOk(s) && AllFresh(s, calls)
    ensures Redemptions(s, calls, code) <= 1
    ensures CodeSpent(s, code) ==> Redemptions(s, calls, code) == 0
    decreases calls
  {
    if calls != [] {
      StepKeepsSecrets(s, calls[0]);
      if code in s.issued { StepSpendsCode(s, calls[0], code); }
      CodeIsSingleUse(Next(s, calls[0]), calls[1..], code);
    }
  }

  /** An attempt that names a stored code spends it even when it is refused. */
  lemma AttemptSpendsCode(s: Store, c: Call)
    requires SecretsOk(s) && Fresh(s, c) && c.RedeemCode? && c.code in s.codes && c.verifier != ""
    ensures CodeSpent(Next(s, c), c.code)
  {
  }

  ghost predicate Refreshes(s: Store, c: Call, token: string) {
    c.Refresh? && c.token == token && RefreshReply(s, c) == Issued
  }

  ghost function Refreshments(s: Store, calls: seq<Call>, token: string): nat
    decreases calls
  {
    if calls == [] then 0
    else (if Refreshes(s, calls[0], token) then 1 else 0) + Refreshments(Next(s, calls[0]), calls[1..], token)
  }

  /** A refresh token that is no row's current one any more. */
  predicate Retired(s: Store, token: string) {
    token in s.issued && RowsWithRefresh(s, token) == {}
  }

  lemma StepRetires(s: Store, c: Call, token: string)
    requires SecretsOk(s) && Fresh(s, c) && token in s.issued
    ensures Retired(s, token) ==> !Refreshes(s, c, token) && Retired(Next(s, c), token)
    ensures Refreshes(s, c, token) ==> Retired(Next(s, c), token)
  {
    if Refreshes(s, c, token) {
      var id := Pick(RowsWithRefresh(s, token)).value;
      forall i | i in s.rows && s.rows[i].refresh == Some(token)
        ensures i == id
      {
        assert Overlap(s.rows[i], s.rows[id]);
      }
      assert RowsWithRefresh(Rotated(s, c, id), token) == {};
    } else if Retired(s, token) {
      forall i | i in Next(s, c).rows && Next(s, c).rows[i].refresh == Some(token)
        ensures i in s.rows && s.rows[i].refresh == Some(token)
      {
        RefreshIsNewOrOld(s, c, i);
      }
      assert forall i :: i in s.rows ==> i !in RowsWithRefresh(s, token);
      assert RowsWithRefresh(Next(s, c), token) == {};
    }
  }

  /** A step leaves each row the refresh token it had, or gives it a new one. */
  lemma RefreshIsNewOrOld(s: Store, c: Call, i: string)
    requires Fresh(s, c) && i in Next(s, c).rows
    ensures var r := Next(s, c).rows[i];
      || (i in s.rows && r.refresh == s.rows[i].refresh && r.prevRefresh == s.rows[i].prevRefresh)
      || r.refresh.None?
      || r.refresh.value !in s.issued
    ensures i in s.rows ==> Next(s, c).rows[i].kind == s.rows[i].kind
  {
    match c
    case RedeemCode(_, _, _, _, _, _, _, _) =>
      if RedeemReply(s, c) == Issued { assert Redeemed(s, c).rows == s.rows[c.id := Redeemed(s, c).rows[c.id]]; }
    case Refresh(_, _, _, _) => RotationIsNewOrOld(s, c, i);
    case Exchange(_, _, _, _) => MintedIsNewOrOld(s, c, i);
    case _ =>
  }

  lemma RotationIsNewOrOld(s: Store, c: Call, i: string)
    requires Fresh(s, c) && c.Refresh? && i in Next(s, c).rows
    ensures var r := Next(s, c).rows[i];
      && i in s.rows && r.kind == s.rows[i].kind
      && ((r.refresh == s.rows[i].refresh && r.prevRefresh == s.rows[i].prevRefresh) || r.refresh == Some(c.refresh))
  {
    RefreshTaken(s, c);
    if RefreshReply(s, c) == ReuseDetected {
      RevokedTokens(s, Pick(RowsSuperseding(s, c.token)).value, i);
    } else if RefreshReply(s, c) == Issued {
      RotatedTokens(s, c, Pick(RowsWithRefresh(s, c.token)).value, i);
    }
  }

  lemma RevokedTokens(s: Store, id: string, i: string)
    requires id in s.rows && i in WithRevoked(s, id).rows
    ensures i in s.rows && WithRevoked(s, id).rows[i].(revoked := s.rows[i].revoked) == s.rows[i]
  {
  }

  lemma RotatedTokens(s: Store, c: Call, id: string, i: string)
    requires c.Refresh? && id in s.rows && i in Rotated(s, c, id).rows
    ensures i in s.rows && Rotated(s, c, id).rows[i].kind == s.rows[i].kind
    ensures Rotated(s, c, id).rows[i] == s.rows[i] || Rotated(s, c, id).rows[i].refresh == Some(c.refresh)
  {
  }

  /** What a refresh does to the tables, by its reply. */
  lemma RefreshTaken(s: Store, c: Call)
    requires c.Refresh?
    ensures match RefreshReply(s, c)
      case ReuseDetected => Next(s, c) == WithRevoked(s, Pick(RowsSuperseding(s, c.token)).value)
      case Issued => Next(s, c) == Rotated(s, c, Pick(RowsWithRefresh(s, c.token)).value)
      case _ => Next(s, c) == s
  {
  }

  lemma MintedIsNewOrOld(s: Store, c: Call, i: string)
    requires Fresh(s, c) && c.Exchange? && i in Next(s, c).rows
    ensures if i in s.rows then Next(s, c).rows[i] == s.rows[i] else Next(s, c).rows[i].refresh.None?
  {
    if ExchangeReply(s, c) == Issued {
      var from := Lookup(s, c.bearer, c.now).value;
      assert Exchanged(s, c, from).rows == s.rows[c.id := Exchanged(s, c, from).rows[c.id]];
    }
  }

  /** Each refresh token is accepted at most once, over every run, and never once it is retired. */
  lemma {:induction false} RefreshIsSingleUse(s: Store, calls: seq<Call>, token: string)
    requires SecretsOk(s) && AllFresh(s, calls)
    ensures Refreshments(s, calls, token) <= 1
    ensures Retired(s, token) ==> Refreshments(s, calls, token) == 0
    decreases calls
  {
    if calls != [] {
      StepKeepsSecrets(s, calls[0]);
      if token in s.issued {
        StepRetires(s, calls[0], token);
      } else {
        forall i | i in s.rows
          ensures s.rows[i].refresh != Some(token)
        {
          assert RowIssued(s, s.rows[i]);
        }
      }
      RefreshIsSingleUse(Next(s, calls[0]), calls[1..], token);
    }
  }

  /** Replaying the token a row was just rotated away from is refused and revokes the row (section 4.14.2 of
      RFC 9700), at any later time at which the row has not been rotated again. */
  lemma ReplayRevokes(s: Store, c: Call, id: string, calls: seq<Call>, replay: Call)
    requires SecretsOk(s) && Fresh(s, c) && c.Refresh? && RefreshReply(s, c) == Issued
    requires id == Pick(RowsWithRefresh(s, c.token)).value && AllFresh(Next(s, c), calls)
    requires var end := Run(Next(s, c), calls);
      id in end.rows && end.rows[id].refresh == Some(c.refresh) && !end.rows[id].revoked
    requires replay.Refresh? && replay.token == c.token
    ensures var end := Run(Next(s, c), calls);
      && RefreshReply(end, replay) == ReuseDetected
      && id in Next(end, replay).rows && Next(end, replay).rows[id].revoked
  {
    StepKeepsSecrets(s, c);
    RotationRemembers(Next(s, c), calls, id, c.refresh, c.token);
    var end := Run(Next(s, c), calls);
    RunKeepsSecrets(Next(s, c), calls);
    forall i | i in RowsSuperseding(end, c.token)
      ensures i == id
    {
      assert Overlap(end.rows[i], end.rows[id]);
    }
    assert RowsSuperseding(end, c.token) == {id};
    assert c.token != "" by { assert RowIssued(s, s.rows[id]); }
  }

  lemma {:induction false} RunKeepsSecrets(s: Store, calls: seq<Call>)
    requires SecretsOk(s) && AllFresh(s, calls)
    ensures SecretsOk(Run(s, calls))
    decreases calls
  {
    if calls != [] {
      StepKeepsSecrets(s, calls[0]);
      RunKeepsSecrets(Next(s, calls[0]), calls[1..]);
    }
  }

  /** A row that still has its refresh token at the end of a run still remembers the one before it. */
  lemma {:induction false} RotationRemembers(s: Store, calls: seq<Call>, id: string, current: string, prev: string)
    requires SecretsOk(s) && AllFresh(s, calls) && current in s.issued && id in s.rows
    requires s.rows[id].refresh == Some(current) ==> s.rows[id].prevRefresh == Some(prev)
    ensures var end := Run(s, calls);
      id in end.rows && (end.rows[id].refresh == Some(current) ==> end.rows[id].prevRefresh == Some(prev))
    decreases calls
  {
    if calls != [] {
      StepKeepsSecrets(s, calls[0]);
      StepRemembers(s, calls[0], id, current, prev);
      RotationRemembers(Next(s, calls[0]), calls[1..], id, current, prev);
    }
  }

  lemma StepRemembers(s: Store, c: Call, id: string, current: string, prev: string)
    requires SecretsOk(s) && Fresh(s, c) && current in s.issued && id in s.rows
    requires s.rows[id].refresh == Some(current) ==> s.rows[id].prevRefresh == Some(prev)
    ensures var r := Next(s, c);
      id in r.rows && (r.rows[id].refresh == Some(current) ==> r.rows[id].prevRefresh == Some(prev))
  {
    RowsStay(s, c, id);
    RefreshIsNewOrOld(s, c, id);
  }

  /** Rows are never deleted. */
  lemma RowsStay(s: Store, c: Call, id: string)
    requires id in s.rows
    ensures id in Next(s, c).rows
  {
    match c
    case RedeemCode(_, _, _, _, _, _, _, _) => RowsStayRedeemed(s, c, id);
    case Refresh(_, _, _, _) => RowsStayRefreshed(s, c, id);
    case _ =>
  }

  lemma RowsStayRedeemed(s: Store, c: Call, id: string)
    requires id in s.rows && c.RedeemCode?
    ensures id in Next(s, c).rows
  {
  }

  lemma RowsStayRefreshed(s: Store, c: Call, id: string)
    requires id in s.rows && c.Refresh?
    ensures id in Next(s, c).rows
  {
  }

  /** The rows that know a refresh token: as the current one, or as the one before it. */
  function KnownTo(s: Store, token: string): set<string> {
    set id | id in s.rows && (s.rows[id].refresh == Some(token) || s.rows[id].prevRefresh == Some(token))
  }

  /** A refresh token that was issued and that no row knows any more. */
  predicate Forgotten(s: Store, token: string) {
    token in s.issued && KnownTo(s, token) == {}
  }

  /** No step makes one more row know an issued token. */
  lemma StepKnows(s: Store, c: Call, token: string)
    requires SecretsOk(s) && Fresh(s, c) && token in s.issued
    ensures KnownTo(Next(s, c), token) <= KnownTo(s, token)
  {
    forall i | i in KnownTo(Next(s, c), token)
      ensures i in KnownTo(s, token)
    {
      PreviousIsOldOrCurrent(s, c, i);
      RefreshIsNewOrOld(s, c, i);
    }
  }

  /** A step leaves each row the superseded token it had, or makes it the one it had as current. */
  lemma PreviousIsOldOrCurrent(s: Store, c: Call, i: string)
    requires Fresh(s, c) && i in Next(s, c).rows
    ensures var r := Next(s, c).rows[i];
      r.prevRefresh.Some? ==> i in s.rows && r.prevRefresh in {s.rows[i].prevRefresh, s.rows[i].refresh}
  {
    match c
    case RedeemCode(_, _, _, _, _, _, _, _) => RedeemedHasNoPrevious(s, c, i);
    case Refresh(_, _, _, _) => RotatedPrevious(s, c, i);
    case Exchange(_, _, _, _) => MintedIsNewOrOld(s, c, i);
    case _ =>
  }

  lemma RedeemedHasNoPrevious(s: Store, c: Call, i: string)
    requires Fresh(s, c) && c.RedeemCode? && i in Next(s, c).rows
    ensures if i in s.rows then Next(s, c).rows[i] == s.rows[i] else Next(s, c).rows[i].prevRefresh.None?
  {
    if RedeemReply(s, c) == Issued { assert Redeemed(s, c).rows == s.rows[c.id := Redeemed(s, c).rows[c.id]]; }
  }

  lemma RotatedPrevious(s: Store, c: Call, i: string)
    requires Fresh(s, c) && c.Refresh? && i in Next(s, c).rows
    ensures i in s.rows && Next(s, c).rows[i].prevRefresh in {s.rows[i].prevRefresh, s.rows[i].refresh}
  {
    RefreshTaken(s, c);
  }

  lemma {:induction false} RunKnows(s: Store, calls: seq<Call>, token: string)
    requires SecretsOk(s) && AllFresh(s, calls) && token in s.issued
    ensures KnownTo(Run(s, calls), token) <= KnownTo(s, token) && token in Run(s, calls).issued
    decreases calls
  {
    if calls != [] {
      StepKeepsSecrets(s, calls[0]);
      StepKnows(s, calls[0], token);
      RunKnows(Next(s, calls[0]), calls[1..], token);
    }
  }

  /** Only one row knows a current refresh token. */
  lemma CurrentIsKnownOnce(s: Store, id: string)
    requires SecretsOk(s) && id in s.rows && s.rows[id].refresh.Some?
    ensures KnownTo(s, s.rows[id].refresh.value) == {id}
  {
    forall i | i in KnownTo(s, s.rows[id].refresh.value)
      ensures i == id
    {
      assert !Recycled(s.rows[id], s.rows[i]);
      assert Overlap(s.rows[i], s.rows[id]) ==> i == id;
    }
  }

  /** A rotation makes the row forget the token before the one it rotates away from. */
  lemma TwoRotationsForget(s: Store, first: Call, between: seq<Call>, second: Call)
    requires SecretsOk(s) && Fresh(s, first) && first.Refresh? && RefreshReply(s, first) == Issued
    requires AllFresh(Next(s, first), between)
    requires var mid := Run(Next(s, first), between);
      Fresh(mid, second) && second.Refresh? && second.token == first.refresh && RefreshReply(mid, second) == Issued
    ensures Forgotten(Next(Run(Next(s, first), between), second), first.token)
  {
    var id := Pick(RowsWithRefresh(s, first.token)).value;
    var once := Next(s, first);
    var mid := Run(once, between);
    assert RowIssued(s, s.rows[id]);
    StepKeepsSecrets(s, first);
    RunKeepsSecrets(once, between);
    StepKeepsSecrets(mid, second);
    CurrentIsKnownOnce(s, id);
    CurrentIsKnownOnce(once, id);
    StepKnows(s, first, first.token);
    RunKnows(once, between, first.token);
    RunKnows(once, between, first.refresh);
    assert Pick(RowsWithRefresh(mid, second.token)).value in KnownTo(mid, first.refresh);
    StepKnows(mid, second, first.token);
    assert Next(mid, second) == Rotated(mid, second, id);
    assert id !in KnownTo(Next(mid, second), first.token);
  }

  /** A forgotten token is refused as unknown at the end of every run, and changes nothing. */
  lemma ForgottenIsRejected(s: Store, calls: seq<Call>, replay: Call)
    requires SecretsOk(s) && AllFresh(s, calls) && replay.Refresh? && Forgotten(s, replay.token)
    ensures var end := Run(s, calls);
      && Forgotten(end, replay.token)
      && RefreshReply(end, replay) == UnknownRefresh && Next(end, replay) == end
  {
    RunKnows(s, calls, replay.token);
    var end := Run(s, calls);
    forall i | i in end.rows
      ensures i !in RowsSuperseding(end, replay.token) && i !in RowsWithRefresh(end, replay.token)
    {
      assert i !in KnownTo(end, replay.token);
    }
    assert RowsSuperseding(end, replay.token) == {} && RowsWithRefresh(end, replay.token) == {};
  }

  /** A token its row was rotated away from twice is forgotten: over every run, before and after the second
      rotation, a replay of it after that rotation is refused as unknown, revokes nothing and changes nothing. */
  lemma OlderIsRejected(
    s: Store, first: Call, between: seq<Call>, second: Call, later: seq<Call>, replay: Call)
    requires SecretsOk(s) && Fresh(s, first) && first.Refresh? && RefreshReply(s, first) == Issued
    requires AllFresh(Next(s, first), between)
    requires var mid := Run(Next(s, first), between);
      && Fresh(mid, second) && second.Refresh? && second.token == first.refresh && RefreshReply(mid, second) == Issued
      && AllFresh(Next(mid, second), later)
    requires replay.Refresh? && replay.token == first.token
    ensures var end := Run(Next(Run(Next(s, first), between), second), later);
      RefreshReply(end, replay) == UnknownRefresh && Next(end, replay) == end
  {
    var mid := Run(Next(s, first), between);
    TwoRotationsForget(s, first, between, second);
    StepKeepsSecrets(s, first);
    RunKeepsSecrets(Next(s, first), between);
    StepKeepsSecrets(mid, second);
    ForgottenIsRejected(Next(mid, second), later, replay);
  }

  // --- revocation ---

  /** A revoked row never changes again: over every run it never mints, never rotates and never resolves. */
  lemma {:induction false} RevokedForGood(s: Store, calls: seq<Call>, id: string)
    requires SecretsOk(s) && AllFresh(s, calls) && id in s.rows && s.rows[id].revoked
    ensures id in Run(s, calls).rows && Run(s, calls).rows[id] == s.rows[id]
    ensures forall bearer, now :: Lookup(Run(s, calls), bearer, now) != Some(id)
    decreases calls
  {
    if calls != [] {
      StepKeepsSecrets(s, calls[0]);
      RevokedStays(s, calls[0], id);
      RevokedForGood(Next(s, calls[0]), calls[1..], id);
    }
  }

  lemma RevokedStays(s: Store, c: Call, id: string)
    requires Fresh(s, c) && id in s.rows && s.rows[id].revoked
    ensures id in Next(s, c).rows && Next(s, c).rows[id] == s.rows[id]
  {
    match c
    case Refresh(_, _, _, _) =>
      if RefreshReply(s, c) == ReuseDetected { assert Pick(RowsSuperseding(s, c.token)).value != id; }
    case RedeemCode(_, _, _, _, _, _, _, _) =>
    case Exchange(_, _, _, _) => if ExchangeReply(s, c) == Issued { assert c.id != id; }
    case _ =>
  }

  // --- the key cap ---

  function KeysOf(s: Store, user: string): set<string> {
    set id | id in ActiveOf(s, user) && s.rows[id].kind == Key
  }

  /** In every reachable state a user has at most 25 unrevoked keys, although OAuth tokens count too. */
  lemma {:induction false} KeyCap(s: Store, calls: seq<Call>, user: string)
    requires AllFresh(s, calls) && |KeysOf(s, user)| <= KEY_CAP
    ensures |KeysOf(Run(s, calls), user)| <= KEY_CAP
    decreases calls
  {
    if calls != [] {
      StepKeepsCap(s, calls[0], user);
      KeyCap(Next(s, calls[0]), calls[1..], user);
    }
  }

  lemma Smaller(a: set<string>, b: set<string>)
    requires a <= b
    ensures |a| <= |b|
  {
    assert b == a + (b - a);
  }

  lemma NewKeyCounted(s: Store, t: Store, id: string, user: string)
    requires id !in s.rows && id in t.rows && t.rows == s.rows[id := t.rows[id]]
    requires |KeysOf(s, user)| <= KEY_CAP && (t.rows[id].user == user ==> |ActiveOf(s, user)| < KEY_CAP)
    ensures |KeysOf(t, user)| <= KEY_CAP
  {
    if t.rows[id].user == user {
      Smaller(KeysOf(s, user), ActiveOf(s, user));
      Smaller(KeysOf(t, user), KeysOf(s, user) + {id});
    } else {
      assert KeysOf(t, user) == KeysOf(s, user);
    }
  }

  lemma StepKeepsCap(s: Store, c: Call, user: string)
    requires Fresh(s, c) && |KeysOf(s, user)| <= KEY_CAP
    ensures |KeysOf(Next(s, c), user)| <= KEY_CAP
  {
    var t := Next(s, c);
    if c.CreateKey? && CreateReply(s, c.user) == Issued {
      NewKeyCounted(s, t, c.id, user);
    } else if c.Exchange? && ExchangeReply(s, c) == Issued {
      NewKeyCounted(s, t, c.id, user);
    } else {
      NoNewKeys(s, c, user);
      Smaller(KeysOf(t, user), KeysOf(s, user));
    }
  }

  lemma NoNewKeys(s: Store, c: Call, user: string)
    requires c.CreateKey? ==> CreateReply(s, c.user) != Issued
    requires c.Exchange? ==> ExchangeReply(s, c) != Issued
    ensures KeysOf(Next(s, c), user) <= KeysOf(s, user)
  {
    match c
    case RedeemCode(_, _, _, _, _, _, _, _) =>
    case Refresh(_, _, _, _) =>
    case _ =>
  }

  /** The code grant does not look at the cap: it adds one credential whatever their number, so the total of a
      user at the cap goes over it. */
  lemma CodeGrantIgnoresCap(s: Store, c: Call)
    requires Fresh(s, c) && c.RedeemCode? && RedeemReply(s, c) == Issued
    ensures var user := s.codes[c.code].user;
      |ActiveOf(Next(s, c), user)| == |ActiveOf(s, user)| + 1 && KeysOf(Next(s, c), user) == KeysOf(s, user)
  {
    var user := s.codes[c.code].user;
    assert ActiveOf(Next(s, c), user) == ActiveOf(s, user) + {c.id};
  }
}
