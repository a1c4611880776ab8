/** The credential endpoints as the server runs them: queries and updates on the tables, in order. Each is proved
    against the functions of `Credentials`, and keeps every secret in one place. */
module CredentialHandlers {
  import opened Wrappers
  import opened Credentials
  import opened CredentialRuns
  import opened ConsentBound

  class CredentialHandler {
    var clients: map<string, set<string>>
    var members: set<(string, string)>
    var codes: map<string, Code>
    var rows: map<string, Row>
    ghost var issued: set<string>
    ghost var approvals: map<string, int>
    ghost var granted: map<string, int>

    ghost function Value(): Store
      reads this
    {
      Store(clients, members, codes, rows, issued, approvals, granted)
    }

    ghost predicate Valid()
      reads this
    {
      SecretsOk(Value()) && ConsentOk(Value())
    }

    constructor (clients: map<string, set<string>>, members: set<(string, string)>)
      ensures Valid() && Value() == Store(clients, members, map[], map[], {}, map[], map[])
    {
      this.clients, this.members := clients, members;
      codes, rows := map[], map[];
      issued, approvals, granted := {}, map[], map[];
    }

    // --- the store ---

    method StoreCode(ghost c: Call, code: string, row: Code, ghost now: int)
      requires c.Approve? && c.code == code && c.now == now && c.challenge.Some?
      requires row == Code(c.client, c.user, c.org, c.redirect, c.challenge.value, now + CODE_TTL)
      modifies this
      ensures Value() == Approved(old(Value()), c)
    {
      codes := codes[code := row];
      issued := issued + {code};
      approvals := approvals[code := now];
    }

    method InsertOAuth(ghost before: Store, ghost c: Call, row: Code, id: string, access: string, refresh: string,
                       now: int)
      requires c.RedeemCode? && c.id == id && c.access == access && c.refresh == refresh && c.now == now
      requires c.code != "" && c.verifier != ""
      requires c.code in before.codes && row == before.codes[c.code] && Value() == CodeTaken(before, c)
      modifies this
      ensures Value() == Redeemed(before, c)
    {
      var expiry := now + ACCESS_TTL;
      rows := rows[id := Row(row.org, row.user, OAuth, access, Some(refresh), None, Some(expiry), now, false)];
      issued := issued + {access, refresh};
      granted := if c.code in approvals then granted[id := approvals[c.code]] else granted;
    }

    method FindSuperseded(token: string) returns (id: Option<string>)
      requires Valid()
      ensures id == Pick(RowsSuperseding(Value(), token))
    {
      var found := set i | i in rows && rows[i].prevRefresh == Some(token) && !rows[i].revoked;
      assert found == RowsSuperseding(Value(), token);
      if found == {} { return None; }
      var reuseID :| reuseID in found;
      OneSuperseded(Value(), token, reuseID);
      return Some(reuseID);
    }

    method FindByRefresh(token: string) returns (id: Option<string>)
      requires Valid()
      ensures id == Pick(RowsWithRefresh(Value(), token))
    {
      var found := set i | i in rows && rows[i].refresh == Some(token);
      assert found == RowsWithRefresh(Value(), token);
      if found == {} { return None; }
      var tokenID :| tokenID in found;
      OneRowPerToken(Value(), tokenID);
      PickOnly(found, tokenID);
      return Some(tokenID);
    }

    method RevokeRow(id: string)
      requires id in rows
      modifies this
      ensures Value() == WithRevoked(old(Value()), id)
    {
      rows := rows[id := rows[id].(revoked := true)];
    }

    method RotateRow(ghost c: Call, id: string, token: string, access: string, refresh: string, now: int)
      requires c == Refresh(token, now, access, refresh) && id in rows
      modifies this
      ensures Value() == Rotated(old(Value()), c, id)
    {
      rows := rows[id := rows[id].(token := access, refresh := Some(refresh), prevRefresh := Some(token),
                                   expiresAt := Some(now + ACCESS_TTL))];
      issued := issued + {access, refresh};
    }

    method InsertKey(org: string, user: string, id: string, token: string, now: int, expiresAt: Option<int>)
      modifies this
      ensures Value() == WithKey(old(Value()), org, user, id, token, now, expiresAt)
    {
      rows := rows[id := Row(org, user, Key, token, None, None, expiresAt, now, false)];
      issued := issued + {token};
    }

    method InsertExchanged(ghost c: Call, from: string, id: string, token: string, now: int)
      requires c.Exchange? && c.now == now && c.id == id && c.token == token && from in rows
      modifies this
      ensures Value() == Exchanged(old(Value()), c, from)
    {
      var r := rows[from];
      InsertKey(r.org, r.user, id, token, now, Some(now + EXCHANGED_KEY_TTL));
      granted := if from in granted then granted[id := granted[from]] else granted;
    }

    method CountActive(user: string) returns (count: nat)
      ensures count == |ActiveOf(Value(), user)|
    {
      var active := set i | i in rows && rows[i].user == user && !rows[i].revoked;
      assert active == ActiveOf(Value(), user);
      return |active|;
    }

    // --- the endpoints ---

    /** The consent page: check the request against the registered client, then store a code. */
    method ApproveClient(ghost c: Call, user: string, org: string, client: string, redirect: string,
                         challenge: Option<Challenge>, s256: bool, now: int, code: string, uri: Option<Uri>)
      returns (reply: Reply)
      requires c == Approve(user, org, client, redirect, challenge, s256, now, code)
      requires Valid() && Fresh(Value(), c)
      modifies this
      ensures Valid()
      ensures if ApproveReply(old(Value()), c) == Issued && !RedirectAllowed(uri)
              then reply == RedirectRefused && Value() == old(Value())
              else reply == ApproveReply(old(Value()), c) && Value() == Next(old(Value()), c)
    {
      StepKeepsSecrets(Value(), c);
      StepKeepsConsent(Value(), c);
      if client == "" || redirect == "" || challenge.None? { return MissingField; }
      if !s256 { return BadMethod; }
      if client !in clients { return UnknownClient; }
      if redirect !in clients[client] { return RedirectNotRegistered; }
      if !RedirectAllowed(uri) { return RedirectRefused; }
      StoreCode(c, code, Code(client, user, org, redirect, challenge.value, now + CODE_TTL), now);
      return Issued;
    }

    method CheckGrant(row: Code, verifier: string, client: string, redirect: string, now: int) returns (reply: Reply)
      ensures reply == GrantReply(row, verifier, client, redirect, now)
    {
      if now > row.expiresAt { return CodeExpired; }
      if client == "" || client != row.client { return WrongClient; }
      if redirect == "" || redirect != row.redirect { return WrongRedirect; }
      if S256(verifier) != row.challenge { return WrongVerifier; }
      return Issued;
    }

    /** The authorization code grant. The code is deleted as it is read, before any check. */
    method TokenFromCode(ghost c: Call, code: string, verifier: string, client: string, redirect: string, now: int,
                         id: string, access: string, refresh: string)
      returns (reply: Reply)
      requires c == RedeemCode(code, verifier, client, redirect, now, id, access, refresh)
      requires Valid() && Fresh(Value(), c)
      modifies this
      ensures Valid()
      ensures reply == RedeemReply(old(Value()), c) && Value() == Next(old(Value()), c)
    {
      StepKeepsSecrets(Value(), c);
      StepKeepsConsent(Value(), c);
      if code == "" || verifier == "" { return MissingField; }
      if code !in codes {
        assert codes - {code} == codes;
        return UnknownCode;
      }
      var row := codes[code];
      codes := codes - {code};
      reply := CheckGrant(row, verifier, client, redirect, now);
      if reply == Issued { InsertOAuth(old(Value()), c, row, id, access, refresh, now); }
    }

    /** The refresh grant: first the replay check, then the rotation. */
    method TokenFromRefresh(ghost c: Call, token: string, now: int, access: string, refresh: string)
      returns (reply: Reply)
      requires c == Refresh(token, now, access, refresh)
      requires Valid() && Fresh(Value(), c)
      modifies this
      ensures Valid()
      ensures reply == RefreshReply(old(Value()), c) && Value() == Next(old(Value()), c)
    {
      StepKeepsSecrets(Value(), c);
      StepKeepsConsent(Value(), c);
      if token == "" { return MissingField; }
      var reuse := FindSuperseded(token);
      if reuse.Some? {
        RevokeRow(reuse.value);
        return ReuseDetected;
      }
      var found := FindByRefresh(token);
      if found.None? { return UnknownRefresh; }
      var tokenID := found.value;
      if rows[tokenID].revoked { return TokenRevoked; }
      if now - rows[tokenID].createdAt > REFRESH_TTL { return RefreshExpired; }
      RotateRow(c, tokenID, token, access, refresh, now);
      return Issued;
    }

    /** Resolves a bearer token to a live credential. */
    method LookupToken(raw: string, now: int) returns (id: Option<string>)
      requires Valid()
      ensures id == Lookup(Value(), raw, now)
    {
      if raw == "" { return None; }
      var found := set i | i in rows && rows[i].token == raw;
      assert found == RowsWithToken(Value(), raw);
      if found == {} { return None; }
      var tokenID :| tokenID in found;
      OneRowPerToken(Value(), tokenID);
      PickOnly(found, tokenID);
      var r := rows[tokenID];
      if (r.user, r.org) !in members { return None; }
      if r.revoked { return None; }
      if r.expiresAt.Some? && r.expiresAt.value < now { return None; }
      return Some(tokenID);
    }

    /** A new key under a name, which may be empty. */
    method CreateKeyFor(user: string, org: string, name: seq<bv8>, now: int, id: string, token: string)
      returns (reply: Reply)
      requires Valid() && Fresh(Value(), CreateKey(user, org, now, id, token))
      modifies this
      ensures Valid()
      ensures if |name| > 100 then reply == BadName && Value() == old(Value())
              else reply == CreateReply(old(Value()), user)
                   && Value() == Next(old(Value()), CreateKey(user, org, now, id, token))
      ensures Value() != old(Value()) ==> reply == Issued
    {
      StepKeepsSecrets(Value(), CreateKey(user, org, now, id, token));
      StepKeepsConsent(Value(), CreateKey(user, org, now, id, token));
      if |name| > NAME_CAP { return BadName; }
      var count := CountActive(user);
      if count >= KEY_CAP { return TooManyKeys; }
      InsertKey(org, user, id, token, now, None);
      return Issued;
    }

    /** Turns an OAuth access token into a key that lasts 90 days. */
    method ExchangeToken(ghost c: Call, bearer: string, name: seq<bv8>, now: int, id: string, token: string)
      returns (reply: Reply)
      requires c == Exchange(bearer, now, id, token)
      requires Valid() && Fresh(Value(), c)
      modifies this
      ensures Valid()
      ensures if |name| > 100 && ExchangeReply(old(Value()), c) !in {Unauthorized, NotOAuth}
              then reply == BadName && Value() == old(Value())
              else reply == ExchangeReply(old(Value()), c) && Value() == Next(old(Value()), c)
    {
      StepKeepsSecrets(Value(), c);
      StepKeepsConsent(Value(), c);
      var from := LookupToken(bearer, now);
      if from.None? { return Unauthorized; }
      if rows[from.value].kind != OAuth { return NotOAuth; }
      if |name| > NAME_CAP { return BadName; }
      var count := CountActive(rows[from.value].user);
      if count >= KEY_CAP { return TooManyKeys; }
      InsertExchanged(c, from.value, id, token, now);
      return Issued;
    }

    method RevokeKey(user: string, org: string, id: string) returns (reply: Reply)
      requires Valid()
      modifies this
      ensures Valid()
      ensures reply == RevokeReply(old(Value()), user, org, id)
      ensures Value() == Next(old(Value()), Revoke(user, org, id))
    {
      StepKeepsSecrets(Value(), Revoke(user, org, id));
      StepKeepsConsent(Value(), Revoke(user, org, id));
      if id !in rows || rows[id].user != user || rows[id].org != org || rows[id].revoked { return NotFound; }
      RevokeRow(id);
      return Done;
    }
  }

  lemma OneSuperseded(s: Store, token: string, id: string)
    requires SecretsOk(s) && id in RowsSuperseding(s, token)
    ensures Pick(RowsSuperseding(s, token)) == Some(id)
  {
    forall i | i in RowsSuperseding(s, token)
      ensures i == id
    {
      assert Overlap(s.rows[i], s.rows[id]);
    }
    PickOnly(RowsSuperseding(s, token), id);
  }
}
