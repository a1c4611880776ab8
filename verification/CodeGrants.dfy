/** What an approval is worth: which token request gets a credential for it, over every run in between. */
module CodeGrants {
  import opened Wrappers
  import opened Credentials
  import opened CredentialRuns

  /** The redirect policy in short. The list of refused schemes decides nothing: none of them has a dot. */
  lemma RedirectPolicyIff(uri: Option<Uri>)
    ensures RedirectAllowed(uri) <==>
      && uri.Some?
      && if uri.value.scheme in {"http", "https"} then uri.value.loopback else '.' in uri.value.scheme
  {
  }

  /** What an approval must bring: every field, the S256 method, and a redirect URI registered for its client. */
  predicate IsRegistered(s: Store, c: Call)
    requires c.Approve?
  {
    && c.client != "" && c.redirect != "" && c.challenge.Some? && c.s256
    && c.client in s.clients && c.redirect in s.clients[c.client]
  }

  /** An approval leaves a code exactly when it does; otherwise it changes nothing. */
  lemma ApprovalIff(s: Store, c: Call)
    requires SecretsOk(s) && Fresh(s, c) && c.Approve?
    ensures c.code in Next(s, c).codes <==> IsRegistered(s, c)
    ensures !IsRegistered(s, c) ==> Next(s, c) == s
    ensures IsRegistered(s, c) ==>
      Next(s, c).codes[c.code] == Code(c.client, c.user, c.org, c.redirect, c.challenge.value, c.now + 10 * 60)
    ensures Next(s, c).rows == s.rows && forall k :: k in s.codes ==> k in Next(s, c).codes
  {
  }

  /** A token request that spends a code: it names it, with some verifier. */
  predicate Attempts(c: Call, code: string) {
    c.RedeemCode? && c.code == code && c.verifier != ""
  }

  lemma StepKeepsCode(s: Store, c: Call, code: string)
    requires SecretsOk(s) && Fresh(s, c) && code in s.issued
    ensures code in Next(s, c).codes <==> code in s.codes && !Attempts(c, code)
    ensures code in Next(s, c).codes ==> Next(s, c).codes[code] == s.codes[code]
  {
    match c
    case Approve(_, _, _, _, _, _, _, _) => ApproveKeepsCode(s, c, code);
    case RedeemCode(_, _, _, _, _, _, _, _) => RedeemKeepsCode(s, c, code);
    case Refresh(_, _, _, _) => RefreshKeepsCodes(s, c);
    case Exchange(_, _, _, _) => ExchangeKeepsCodes(s, c);
    case _ =>
  }

  lemma ApproveKeepsCode(s: Store, c: Call, code: string)
    requires Fresh(s, c) && code in s.issued && c.Approve?
    ensures code in Next(s, c).codes <==> code in s.codes
    ensures code in Next(s, c).codes ==> Next(s, c).codes[code] == s.codes[code]
  {
  }

  lemma RedeemKeepsCode(s: Store, c: Call, code: string)
    requires SecretsOk(s) && code in s.issued && c.RedeemCode?
    ensures code in Next(s, c).codes <==> code in s.codes && !Attempts(c, code)
    ensures code in Next(s, c).codes ==> Next(s, c).codes[code] == s.codes[code]
  {
  }

  lemma RefreshKeepsCodes(s: Store, c: Call)
    requires c.Refresh?
    ensures Next(s, c).codes == s.codes
  {
  }

  lemma ExchangeKeepsCodes(s: Store, c: Call)
    requires c.Exchange?
    ensures Next(s, c).codes == s.codes
  {
  }

  lemma {:induction false} RunKeepsCode(s: Store, calls: seq<Call>, code: string)
    requires SecretsOk(s) && AllFresh(s, calls) && code in s.issued
    ensures code in Run(s, calls).codes <==> code in s.codes && forall c :: c in calls ==> !Attempts(c, code)
    ensures code in Run(s, calls).codes ==> Run(s, calls).codes[code] == s.codes[code]
    decreases calls
  {
    if calls != [] {
      StepKeepsSecrets(s, calls[0]);
      StepKeepsCode(s, calls[0], code);
      RunKeepsCode(Next(s, calls[0]), calls[1..], code);
      assert forall c :: c in calls <==> c == calls[0] || c in calls[1..];
    }
  }

  /** What the token request must bring for the approval. */
  predicate Answers(redeem: Call, approve: Call)
    requires redeem.RedeemCode? && approve.Approve? && approve.challenge.Some?
  {
    && redeem.verifier != "" && S256(redeem.verifier) == approve.challenge.value
    && redeem.client == approve.client && redeem.redirect == approve.redirect
    && redeem.now <= approve.now + 10 * 60
  }

  /** The credential of an approval: for the user and organisation that approved, 30 days. */
  function Credential(redeem: Call, approve: Call): Row
    requires redeem.RedeemCode? && approve.Approve?
  {
    Row(approve.org, approve.user, OAuth, redeem.access, Some(redeem.refresh), None,
        Some(redeem.now + 30 * 24 * 3600), redeem.now, false)
  }

  /** Proof of possession (section 4.6 of RFC 7636) over every run. After an approval and any calls whatever, a token
      request for its code adds a credential exactly when nobody has tried the code before, its verifier digests to the
      approved challenge, its client and redirect URI are the approved ones, and it comes within 10 minutes; the
      credential is then the approving user's. Otherwise no row changes. */
  lemma CodeGrantIff(s: Store, approve: Call, calls: seq<Call>, redeem: Call)
    requires SecretsOk(s) && Fresh(s, approve) && approve.Approve? && IsRegistered(s, approve)
    requires AllFresh(Next(s, approve), calls) && Fresh(Run(Next(s, approve), calls), redeem)
    requires redeem.RedeemCode? && redeem.code == approve.code
    ensures var t := Run(Next(s, approve), calls);
      var granted := (forall c :: c in calls ==> !Attempts(c, approve.code)) && Answers(redeem, approve);
      && (redeem.id in Next(t, redeem).rows <==> granted)
      && Next(t, redeem).rows == if granted then t.rows[redeem.id := Credential(redeem, approve)] else t.rows
  {
    var t := Run(Next(s, approve), calls);
    ApprovalIff(s, approve);
    StepKeepsSecrets(s, approve);
    RunKeepsCode(Next(s, approve), calls, approve.code);
    RunKeepsSecrets(Next(s, approve), calls);
    RedeemStep(t, redeem, approve);
  }

  /** The last call of such a run. */
  lemma RedeemStep(t: Store, redeem: Call, approve: Call)
    requires redeem.RedeemCode? && approve.Approve? && approve.challenge.Some? && redeem.id !in t.rows
    requires redeem.code == approve.code != "" && approve.client != "" && approve.redirect != ""
    requires approve.code in t.codes ==>
      t.codes[approve.code] == Code(approve.client, approve.user, approve.org, approve.redirect,
                                    approve.challenge.value, approve.now + 10 * 60)
    ensures Next(t, redeem).rows ==
      if approve.code in t.codes && Answers(redeem, approve) then t.rows[redeem.id := Credential(redeem, approve)]
      else t.rows
  {
  }

  /** What a token request for the code is told over every run: that the code is unknown exactly when somebody tried it
      before, and otherwise the first of these that is wrong: the time, the client, the redirect URI, the verifier. */
  lemma CodeRefusedIff(s: Store, approve: Call, calls: seq<Call>, redeem: Call)
    requires SecretsOk(s) && Fresh(s, approve) && approve.Approve? && IsRegistered(s, approve)
    requires AllFresh(Next(s, approve), calls)
    requires redeem.RedeemCode? && redeem.code == approve.code && redeem.verifier != ""
    ensures var reply := RedeemReply(Run(Next(s, approve), calls), redeem);
      var inTime := redeem.now <= approve.now + 10 * 60;
      var client, redirect := redeem.client == approve.client, redeem.redirect == approve.redirect;
      && (reply == UnknownCode <==> exists c :: c in calls && Attempts(c, approve.code))
      && (reply != UnknownCode ==>
            && (reply == CodeExpired <==> !inTime)
            && (reply == WrongClient <==> inTime && !client)
            && (reply == WrongRedirect <==> inTime && client && !redirect)
            && (reply == WrongVerifier <==>
                  inTime && client && redirect && S256(redeem.verifier) != approve.challenge.value)
            && (reply == Issued <==> Answers(redeem, approve)))
  {
    ApprovalIff(s, approve);
    StepKeepsSecrets(s, approve);
    RunKeepsCode(Next(s, approve), calls, approve.code);
  }

  /** A code nobody was given buys nothing. */
  lemma UnknownCodeBuysNothing(s: Store, redeem: Call)
    requires redeem.RedeemCode? && redeem.code !in s.codes
    ensures Next(s, redeem).rows == s.rows
  {
  }
}
