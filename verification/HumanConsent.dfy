/** Buyer consent and the token hook: one decision computed twice and tied together by a seal. */
module HumanConsent {
  import opened Storage
  import opened Text
  import opened TokenProfile

  const MIN_KEY := 32
  const SEAL_DOMAIN := "baobab-iam/human-consent/v1"
  const CONSENT_SCOPES := ["openid", "profile", "email"]
  const ISSUED_ACR := ["aal1", "aal2"]
  const ISSUED_AMR := ["pwd", "otp", "hwk", "mfa"]

  /* ---- The seal ---- */

  datatype Decision = Decision(request: string, client: string, subject: string, scopes: seq<string>,
                               audience: seq<string>)

  datatype Seal = Seal(audience: seq<string>, tag: string)

  predicate Sealable(s: string)
  {
    s != "" && Trimmed(s) && ' ' !in s && '\t' !in s && '\r' !in s && '\n' !in s && '\0' !in s
  }

  predicate AllSealable(xs: seq<string>)
  {
    forall i :: 0 <= i < |xs| ==> Sealable(xs[i])
  }

  function Parts(d: Decision): seq<string>
  {
    [SEAL_DOMAIN, d.request, d.client, d.subject, Join(Sort(d.scopes), ' '), Join(d.audience, ' ')]
  }

  /** The canonical sealed form; scope order is not part of the decision. */
  function Message(d: Decision): Option<string>
  {
    if !AllSealable([d.request, d.client, d.subject] + Sort(d.scopes) + d.audience)
       || Sort(d.scopes) == [] || d.audience == [] then None
    else Some(Join(Parts(d), '\0'))
  }

  type Mac = (string, string) -> string

  function SealConsent(mac: Mac, key: string, d: Decision): Option<Seal>
  {
    var m := Message(d);
    if m.None? || |key| < MIN_KEY then None else Some(Seal(d.audience, mac(key, m.value)))
  }

  predicate VerifyConsent(mac: Mac, key: string, seal: Option<Seal>, d: Decision)
  {
    && seal.Some? && |key| >= MIN_KEY && seal.value.audience == d.audience
    && Message(d).Some? && seal.value.tag == mac(key, Message(d).value)
  }

  /** Exactly the complete, canonical decisions have a message. */
  lemma MessageDefined(d: Decision)
    ensures Message(d).Some? <==>
              && Sealable(d.request) && Sealable(d.client) && Sealable(d.subject)
              && d.scopes != [] && AllSealable(d.scopes) && d.audience != [] && AllSealable(d.audience)
  {
    SortOrders(d.scopes);
    PermutationKeeps(Sort(d.scopes), d.scopes);
    var all := [d.request, d.client, d.subject] + Sort(d.scopes) + d.audience;
    assert AllSealable(all) <==> forall v :: v in all ==> Sealable(v);
    assert AllSealable(d.scopes) <==> forall v :: v in Elems(d.scopes) ==> Sealable(v);
    assert AllSealable(d.audience) <==> forall v :: v in d.audience ==> Sealable(v);
    forall v
      ensures v in all <==> v == d.request || v == d.client || v == d.subject || v in Elems(d.scopes) || v in d.audience
    {
      assert v in Sort(d.scopes) <==> v in Elems(d.scopes);
    }
  }

  lemma PartsFree(d: Decision)
    requires Message(d).Some?
    ensures Free(Parts(d), '\0')
    ensures Free(Sort(d.scopes), ' ') && Free(d.audience, ' ') && Sort(d.scopes) != [] && d.audience != []
  {
    var all := [d.request, d.client, d.subject] + Sort(d.scopes) + d.audience;
    assert d.request == all[0] && d.client == all[1] && d.subject == all[2];
    forall i | 0 <= i < |Sort(d.scopes)| ensures Sealable(Sort(d.scopes)[i]) { assert Sort(d.scopes)[i] == all[3 + i]; }
    forall i | 0 <= i < |d.audience| ensures Sealable(d.audience[i]) {
      assert d.audience[i] == all[3 + |Sort(d.scopes)| + i];
    }
    JoinFree(Sort(d.scopes), ' ', '\0');
    JoinFree(d.audience, ' ', '\0');
  }

  /** Two decisions are the same up to the order of their scopes. */
  predicate SameDecision(a: Decision, b: Decision)
  {
    a.request == b.request && a.client == b.client && a.subject == b.subject && a.audience == b.audience
    && multiset(a.scopes) == multiset(b.scopes)
  }

  /** The sealed message is unambiguous: it determines the decision, and the decision determines it. */
  lemma MessageUnambiguous(a: Decision, b: Decision)
    requires Message(a).Some? && Message(b).Some?
    ensures Message(a) == Message(b) <==> SameDecision(a, b)
  {
    PartsFree(a);
    PartsFree(b);
    SortForgetsOrder(a.scopes, b.scopes);
    if Message(a) == Message(b) {
      JoinInjective(Parts(a), Parts(b), '\0');
      var p, q := Parts(a), Parts(b);
      assert p[1] == q[1] && p[2] == q[2] && p[3] == q[3] && p[4] == q[4] && p[5] == q[5];
      JoinInjective(Sort(a.scopes), Sort(b.scopes), ' ');
      JoinInjective(a.audience, b.audience, ' ');
    }
  }

  /** A MAC under which different messages have different tags. */
  ghost predicate Injective(mac: Mac, key: string)
  {
    forall m, n :: mac(key, m) == mac(key, n) ==> m == n
  }

  /** Under an ideal MAC a seal verifies for exactly the decision it was made for. */
  lemma SealVerifiesIff(mac: Mac, key: string, d: Decision, e: Decision)
    requires Injective(mac, key) && SealConsent(mac, key, d).Some?
    ensures VerifyConsent(mac, key, SealConsent(mac, key, d), e) <==> Message(e).Some? && SameDecision(d, e)
  {
    if Message(e).Some? { MessageUnambiguous(d, e); }
  }

  /* ---- Scopes and audiences ---- */

  /** The profile scopes among `scopes`, in order. */
  function Resources(scopes: seq<string>, profile: seq<string>): seq<string>
  {
    if scopes == [] then []
    else (if scopes[0] in profile then [scopes[0]] else []) + Resources(scopes[1..], profile)
  }

  lemma {:induction false} ResourcesElems(scopes: seq<string>, profile: seq<string>)
    ensures Elems(Resources(scopes, profile)) == Elems(scopes) * Elems(profile)
  {
    if scopes != [] {
      ResourcesElems(scopes[1..], profile);
      assert scopes == [scopes[0]] + scopes[1..];
      assert Elems(scopes) == {scopes[0]} + Elems(scopes[1..]);
      var r := Resources(scopes[1..], profile);
      assert Elems([scopes[0]] + r) == {scopes[0]} + Elems(r);
      assert [] + r == r;
    }
  }

  /** No repeated scope, and nothing outside the profile and the permitted OIDC scopes. */
  predicate Permitted(scopes: seq<string>, profile: seq<string>, oidc: seq<string>)
  {
    NoRepeat(scopes) && forall i :: 0 <= i < |scopes| ==> scopes[i] in profile || scopes[i] in oidc
  }

  /** The loop that sorts scopes into profile scopes and companions, refusing anything else. */
  method Classify(scopes: seq<string>, profile: seq<string>, oidc: seq<string>) returns (granted: Option<seq<string>>)
    ensures granted == if Permitted(scopes, profile, oidc) then Some(Resources(scopes, profile)) else None
  {
    var seen: set<string>, found: seq<string> := {}, [];
    for i := 0 to |scopes|
      invariant seen == Elems(scopes[..i]) && Permitted(scopes[..i], profile, oidc)
      invariant found + Resources(scopes[i..], profile) == Resources(scopes, profile)
    {
      var s := scopes[i];
      assert scopes[..i + 1] == scopes[..i] + [s] && scopes[i..][1..] == scopes[i + 1..];
      if s in seen {
        var j :| 0 <= j < i && scopes[j] == s;
        return None;
      }
      seen := seen + {s};
      if s in profile { found := found + [s]; }
      else if s !in oidc { return None; }
    }
    assert scopes[..|scopes|] == scopes && scopes[|scopes|..] == [] && found + [] == found;
    granted := Some(found);
  }

  ghost predicate Reached(w: Workload, scopes: seq<string>, a: string)
  {
    exists i :: 0 <= i < |scopes| && Serves(w, a, scopes[i])
  }

  ghost function Keep(w: Workload, audiences: seq<string>, scopes: seq<string>): seq<string>
  {
    if audiences == [] then []
    else (if Reached(w, scopes, audiences[0]) then [audiences[0]] else []) + Keep(w, audiences[1..], scopes)
  }

  /** Whether some scope of the list is issued for this audience. */
  method Serving(w: Workload, scopes: seq<string>, a: string) returns (found: bool)
    ensures found <==> Reached(w, scopes, a)
  {
    for j := 0 to |scopes|
      invariant forall k :: 0 <= k < j ==> !Serves(w, a, scopes[k])
    {
      if Serves(w, a, scopes[j]) { return true; }
    }
    found := false;
  }

  /** The profile audiences some granted scope is issued for, in profile order. */
  method Audience(w: Workload, scopes: seq<string>) returns (audiences: seq<string>)
    requires w.human.Some?
    ensures audiences == Keep(w, w.human.value.audiences, scopes)
  {
    var all := w.human.value.audiences;
    audiences := [];
    ghost var todo := all;
    for i := 0 to |all|
      invariant todo == all[i..]
      invariant audiences + Keep(w, todo, scopes) == Keep(w, all, scopes)
    {
      var found := Serving(w, scopes, all[i]);
      assert todo[0] == all[i];
      if found { audiences := audiences + [all[i]]; }
      todo := todo[1..];
    }
  }

  /** `xs` lists some entries of `of`, in that order and each place once. */
  ghost predicate Follows(xs: seq<string>, of: seq<string>)
  {
    if xs == [] then true
    else exists k :: 0 <= k < |of| && of[k] == xs[0] && Follows(xs[1..], of[k + 1..])
  }

  lemma {:induction false} FollowsLater(xs: seq<string>, of: seq<string>)
    requires of != [] && Follows(xs, of[1..])
    ensures Follows(xs, of)
  {
    if xs != [] {
      var k :| 0 <= k < |of[1..]| && of[1..][k] == xs[0] && Follows(xs[1..], of[1..][k + 1..]);
      assert of[1..][k + 1..] == of[k + 2..] && of[k + 1] == xs[0];
    }
  }

  lemma {:induction false} KeepFollows(w: Workload, audiences: seq<string>, scopes: seq<string>)
    ensures Follows(Keep(w, audiences, scopes), audiences)
    ensures forall a :: a in Keep(w, audiences, scopes) <==> a in audiences && Reached(w, scopes, a)
    ensures NoRepeat(audiences) ==> NoRepeat(Keep(w, audiences, scopes))
  {
    if audiences != [] {
      var a, t := audiences[0], Keep(w, audiences[1..], scopes);
      KeepFollows(w, audiences[1..], scopes);
      assert audiences == [a] + audiences[1..];
      NoRepeatCons(a, audiences[1..]);
      if Reached(w, scopes, a) {
        NoRepeatCons(a, t);
        assert ([a] + t)[1..] == t && audiences[0] == ([a] + t)[0];
        assert Follows([a] + t, audiences);
      } else {
        assert [] + t == t;
        FollowsLater(t, audiences);
      }
    }
  }

  /** The audience depends only on which scopes are granted, not on their order. */
  lemma {:induction false} KeepBySet(w: Workload, audiences: seq<string>, s: seq<string>, t: seq<string>)
    requires Elems(s) == Elems(t)
    ensures Keep(w, audiences, s) == Keep(w, audiences, t)
  {
    if audiences != [] {
      KeepBySet(w, audiences[1..], s, t);
      ReachedBySet(w, s, t, audiences[0]);
      ReachedBySet(w, t, s, audiences[0]);
    }
  }

  lemma ReachedBySet(w: Workload, s: seq<string>, t: seq<string>, a: string)
    requires Elems(s) <= Elems(t)
    ensures Reached(w, s, a) ==> Reached(w, t, a)
  {
    if Reached(w, s, a) {
      var i :| 0 <= i < |s| && Serves(w, a, s[i]);
      assert s[i] in Elems(t);
      var j :| 0 <= j < |t| && t[j] == s[i];
      assert Serves(w, a, t[j]);
    }
  }

  /* ---- Consent ---- */

  /** An active registration with a human profile in this issuer's environment. */
  predicate Eligible(c: Config, client: string)
  {
    var w := Lookup(c, client);
    ProposalClear(client, w) && client in c.workloads && w.status == "ACTIVE" && w.human.Some?
    && w.environment != "" && w.environment == c.environment
  }

  ghost function ConsentOf(c: Config, client: string, requested: seq<string>): Option<seq<string>>
  {
    if !Eligible(c, client) then None
    else
      var w := Lookup(c, client);
      var granted := Resources(requested, w.human.value.scopes);
      if "openid" !in requested || !Permitted(requested, w.human.value.scopes, CONSENT_SCOPES)
         || granted == [] then None
      else Some(Keep(w, w.human.value.audiences, granted))
  }

  method Consent(c: Config, client: string, requested: seq<string>) returns (audience: Option<seq<string>>)
    ensures audience == ConsentOf(c, client, requested)
  {
    if !Eligible(c, client) || "openid" !in requested { return None; }
    var w := Lookup(c, client);
    var granted := Classify(requested, w.human.value.scopes, CONSENT_SCOPES);
    if granted.None? || granted.value == [] { return None; }
    var a := Audience(w, granted.value);
    audience := Some(a);
  }

  /** The registry audiences of the profile scopes among `requested`. */
  ghost predicate InUnion(w: Workload, requested: seq<string>, a: string)
    requires w.human.Some?
  {
    exists s :: s in requested && s in w.human.value.scopes && Serves(w, a, s)
  }

  /**
   * For a validated configuration the granted audience is the union of the registry audiences of the granted
   * profile scopes: each once, in profile order, and never empty.
   */
  lemma AudienceIsUnion(x: Lexicon, c: Config, client: string, requested: seq<string>)
    requires ConfigValid(x, c) && ConsentOf(c, client, requested).Some?
    ensures var w, audience := c.workloads[client], ConsentOf(c, client, requested).value;
            && NoRepeat(audience) && Follows(audience, w.human.value.audiences) && audience != []
            && (forall a :: a in audience <==> InUnion(w, requested, a))
  {
    var w := c.workloads[client];
    var p := w.human.value;
    var granted := Resources(requested, p.scopes);
    assert WorkloadValid(x, c, client, w) && ProfileValid(p, w);
    KeepFollows(w, p.audiences, granted);
    ResourcesElems(requested, p.scopes);
    forall a ensures a in p.audiences && Reached(w, granted, a) <==> InUnion(w, requested, a) {
      ReachedIsUnion(p, w, requested, a);
    }
    var s := granted[0];
    assert s in Elems(granted);
    assert s in Elems(p.scopes);
    var a := Registry(w)[s][0];
    assert Serves(w, a, s);
    assert InUnion(w, requested, a);
  }

  lemma ReachedIsUnion(p: HumanProfile, w: Workload, requested: seq<string>, a: string)
    requires w.human == Some(p) && RegistryFits(p, w)
    ensures a in p.audiences && Reached(w, Resources(requested, p.scopes), a) <==> InUnion(w, requested, a)
  {
    var granted := Resources(requested, p.scopes);
    ResourcesElems(requested, p.scopes);
    if Reached(w, granted, a) {
      var i :| 0 <= i < |granted| && Serves(w, a, granted[i]);
      assert granted[i] in Elems(granted);
    }
    if InUnion(w, requested, a) {
      var s :| s in requested && s in p.scopes && Serves(w, a, s);
      assert s in Elems(granted);
      var i :| 0 <= i < |granted| && granted[i] == s;
      assert Serves(w, a, granted[i]);
    }
  }

  /* ---- The token hook ---- */

  datatype HumanEvidence = HumanEvidence(
    clientId: string, subject: string, grant: string, consentRequest: string, consent: Option<Seal>,
    requestedScopes: seq<string>, grantedScopes: seq<string>, grantedAudiences: seq<string>,
    acr: string, amr: seq<string>, authTime: int)

  datatype HumanClaims = HumanClaims(actorType: string, azp: string, acr: string, authTime: int,
                                     amr: Option<seq<string>>)

  /** On a code exchange the grant is not known yet and the requested scopes are its ceiling. */
  predicate CodeExchange(e: HumanEvidence) { e.grantedScopes == [] && e.grant == "authorization_code" }

  function JudgedScopes(e: HumanEvidence): seq<string>
  {
    if CodeExchange(e) then e.requestedScopes else e.grantedScopes
  }

  predicate Assured(e: HumanEvidence) { e.acr in ISSUED_ACR && e.authTime > 0 && IsSubset(e.amr, ISSUED_AMR) }

  predicate Human(e: HumanEvidence)
  {
    (e.grant == "authorization_code" || e.grant == "refresh_token")
    && e.subject != "" && Trimmed(e.subject) && e.subject != e.clientId
  }

  predicate Admissible(c: Config, e: HumanEvidence)
  {
    && Eligible(c, e.clientId) && GrantClear(e.clientId, e.requestedScopes, e.grantedScopes, e.grantedAudiences)
    && Human(e) && (CodeExchange(e) ==> e.grantedAudiences == [])
  }

  function ClaimsFor(e: HumanEvidence): HumanClaims
  {
    HumanClaims("human", e.clientId, e.acr, e.authTime, if e.amr == [] then None else Some(e.amr))
  }

  /** The audience the hook derives from the scopes it judges. */
  ghost function Derived(c: Config, e: HumanEvidence): seq<string>
    requires Lookup(c, e.clientId).human.Some?
  {
    var w := Lookup(c, e.clientId);
    Keep(w, w.human.value.audiences, Resources(JudgedScopes(e), w.human.value.scopes))
  }

  ghost function HookDecision(c: Config, e: HumanEvidence): Decision
    requires Lookup(c, e.clientId).human.Some?
  {
    Decision(e.consentRequest, e.clientId, e.subject, JudgedScopes(e), Derived(c, e))
  }

  ghost function HookClaims(mac: Mac, c: Config, e: HumanEvidence, key: string): Option<HumanClaims>
  {
    if |key| < MIN_KEY || !Admissible(c, e) then None
    else
      var p := Lookup(c, e.clientId).human.value;
      var resource := Resources(JudgedScopes(e), p.scopes);
      if !Permitted(JudgedScopes(e), p.scopes, OIDC_SCOPES) || resource == []
         || !VerifyConsent(mac, key, e.consent, HookDecision(c, e))
         || (!CodeExchange(e) && !IsSameSet(e.grantedAudiences, Derived(c, e))) || !Assured(e) then None
      else Some(ClaimsFor(e))
  }

  method Hook(mac: Mac, c: Config, e: HumanEvidence, key: string) returns (claims: Option<HumanClaims>)
    ensures claims == HookClaims(mac, c, e, key)
  {
    if |key| < MIN_KEY || !Admissible(c, e) { return None; }
    var w := Lookup(c, e.clientId);
    var scopes := JudgedScopes(e);
    var resource := Classify(scopes, w.human.value.scopes, OIDC_SCOPES);
    if resource.None? || resource.value == [] { return None; }
    var audience := Audience(w, resource.value);
    if !VerifyConsent(mac, key, e.consent, Decision(e.consentRequest, e.clientId, e.subject, scopes, audience)) {
      return None;
    }
    if !CodeExchange(e) {
      SameSetIff(e.grantedAudiences, audience);
      var same := SameSet(e.grantedAudiences, audience);
      if !same { return None; }
    }
    if e.acr !in ISSUED_ACR || e.authTime <= 0 { return None; }
    var amr := Subset(e.amr, ISSUED_AMR);
    if !amr { return None; }
    claims := Some(ClaimsFor(e));
  }

  /** The tag is one the holder of the key produced: whatever message it authenticates was sealed. */
  ghost predicate Unforged(mac: Mac, key: string, sealed: set<Decision>, tag: string)
  {
    forall m :: mac(key, m) == tag ==> exists d :: d in sealed && Message(d) == Some(m)
  }

  /** The hook issues only for a decision that governed consent really sealed. */
  lemma HookNeedsSealedConsent(mac: Mac, c: Config, e: HumanEvidence, key: string, sealed: set<Decision>)
    requires HookClaims(mac, c, e, key).Some? && Unforged(mac, key, sealed, e.consent.value.tag)
    ensures exists d :: d in sealed && SameDecision(d, HookDecision(c, e))
  {
    var h := HookDecision(c, e);
    var m := Message(h).value;
    assert mac(key, m) == e.consent.value.tag;
    var d :| d in sealed && Message(d) == Some(m);
    MessageUnambiguous(d, h);
  }

  /* ---- Consent and hook agree ---- */

  lemma TokenIsSealable(s: string)
    requires SingleToken(s)
    ensures Sealable(s)
  {
    assert TokenChar(s[0]) && TokenChar(s[|s| - 1]);
    assert !TokenChar(' ') && !TokenChar('\t') && !TokenChar('\r') && !TokenChar('\n') && !TokenChar('\0');
  }

  lemma CompanionsAreTokens(s: string)
    requires s in CONSENT_SCOPES
    ensures SingleToken(s) && !NativeScope(s) && s in OIDC_SCOPES
  {
    assert s == "openid" || s == "profile" || s == "email";
    assert s[0] != 't';
  }

  /** Granted consent asks only for canonical tokens, none of them native. */
  lemma ConsentedScopesClear(c: Config, client: string, requested: seq<string>)
    requires ConsentOf(c, client, requested).Some?
    ensures AllTokens(requested) && NoNative(requested)
    ensures Permitted(requested, c.workloads[client].human.value.scopes, OIDC_SCOPES)
  {
    var p := c.workloads[client].human.value;
    forall i | 0 <= i < |requested|
      ensures SingleToken(requested[i]) && !NativeScope(requested[i])
      ensures requested[i] in p.scopes || requested[i] in OIDC_SCOPES
    {
      if requested[i] in p.scopes {
        var j :| 0 <= j < |p.scopes| && p.scopes[j] == requested[i];
        assert SingleToken(p.scopes[j]) && !NativeScope(p.scopes[j]);
      } else {
        CompanionsAreTokens(requested[i]);
      }
    }
  }

  lemma GrantedAudienceIsTokens(c: Config, client: string, requested: seq<string>)
    requires ConsentOf(c, client, requested).Some?
    ensures AllTokens(ConsentOf(c, client, requested).value)
  {
    var w := c.workloads[client];
    var p, a := w.human.value, ConsentOf(c, client, requested).value;
    KeepFollows(w, p.audiences, Resources(requested, p.scopes));
    forall i | 0 <= i < |a| ensures SingleToken(a[i]) {
      assert a[i] in a;
      var j :| 0 <= j < |p.audiences| && p.audiences[j] == a[i];
    }
  }

  /**
   * A granted consent can be sealed exactly when the request, client and subject are canonical and the key long enough.
   */
  lemma GrantedConsentSeals(x: Lexicon, mac: Mac, key: string, c: Config,
                            request: string, client: string, subject: string, requested: seq<string>)
    requires ConfigValid(x, c) && ConsentOf(c, client, requested).Some?
    ensures SealConsent(mac, key, Decision(request, client, subject, requested,
                                           ConsentOf(c, client, requested).value)).Some?
       <==> Sealable(request) && Sealable(client) && Sealable(subject) && |key| >= MIN_KEY
  {
    var a := ConsentOf(c, client, requested).value;
    ConsentedScopesClear(c, client, requested);
    GrantedAudienceIsTokens(c, client, requested);
    AudienceIsUnion(x, c, client, requested);
    forall i | 0 <= i < |requested| ensures Sealable(requested[i]) { TokenIsSealable(requested[i]); }
    forall i | 0 <= i < |a| ensures Sealable(a[i]) { TokenIsSealable(a[i]); }
    MessageDefined(Decision(request, client, subject, requested, a));
  }

  /** A code exchange that presents `seal` for the scopes `scopes`. */
  predicate Exchanges(e: HumanEvidence, d: Decision, seal: Seal)
  {
    && e.clientId == d.client && e.subject == d.subject && e.consentRequest == d.request && e.consent == Some(seal)
    && e.grant == "authorization_code" && e.grantedScopes == [] && e.grantedAudiences == []
    && multiset(e.requestedScopes) == multiset(d.scopes)
  }

  lemma PermutedResources(w: Workload, s: seq<string>, t: seq<string>)
    requires w.human.Some? && multiset(s) == multiset(t)
    ensures var p := w.human.value;
            && Keep(w, p.audiences, Resources(s, p.scopes)) == Keep(w, p.audiences, Resources(t, p.scopes))
            && (Resources(s, p.scopes) == [] <==> Resources(t, p.scopes) == [])
            && (forall oidc :: Permitted(s, p.scopes, oidc) <==> Permitted(t, p.scopes, oidc))
  {
    var p := w.human.value;
    PermutationKeeps(s, t);
    ResourcesElems(s, p.scopes);
    ResourcesElems(t, p.scopes);
    KeepBySet(w, p.audiences, Resources(s, p.scopes), Resources(t, p.scopes));
    assert Resources(s, p.scopes) == [] <==> Elems(Resources(s, p.scopes)) == {} by {
      EmptyElems(Resources(s, p.scopes));
    }
    assert Resources(t, p.scopes) == [] <==> Elems(Resources(t, p.scopes)) == {} by {
      EmptyElems(Resources(t, p.scopes));
    }
    forall oidc ensures Permitted(s, p.scopes, oidc) <==> Permitted(t, p.scopes, oidc) {
      PermittedBySet(s, t, p.scopes, oidc);
      PermittedBySet(t, s, p.scopes, oidc);
    }
  }

  lemma EmptyElems(xs: seq<string>)
    ensures xs == [] <==> Elems(xs) == {}
  {
    if xs != [] { assert xs[0] in Elems(xs); }
  }

  lemma PermittedBySet(s: seq<string>, t: seq<string>, profile: seq<string>, oidc: seq<string>)
    requires Elems(s) == Elems(t) && (NoRepeat(s) ==> NoRepeat(t))
    ensures Permitted(s, profile, oidc) ==> Permitted(t, profile, oidc)
  {
    forall i | 0 <= i < |t| ensures t[i] in s { assert t[i] in Elems(s); }
  }

  /** Consent decides alike for any order of the scopes. */
  lemma ConsentPermutes(c: Config, client: string, s: seq<string>, t: seq<string>)
    requires multiset(s) == multiset(t)
    ensures ConsentOf(c, client, s) == ConsentOf(c, client, t)
  {
    if Eligible(c, client) {
      PermutedResources(Lookup(c, client), s, t);
      PermutationKeeps(s, t);
      assert "openid" in s <==> "openid" in Elems(s);
      assert "openid" in t <==> "openid" in Elems(t);
    }
  }

  /** A validated profile names no OIDC scope, and of those consent lets only the companions pass. */
  lemma OfflineNotConsented(x: Lexicon, c: Config, client: string, scopes: seq<string>)
    requires ConfigValid(x, c) && ConsentOf(c, client, scopes).Some?
    ensures "offline_access" !in scopes
  {
    var p := c.workloads[client].human.value;
    assert WorkloadValid(x, c, client, c.workloads[client]);
    forall i | 0 <= i < |scopes| ensures scopes[i] != "offline_access" {
      if scopes[i] in p.scopes {
        var j :| 0 <= j < |p.scopes| && p.scopes[j] == scopes[i];
        assert ResourceScope(p.scopes[j]);
      } else {
        assert scopes[i] in CONSENT_SCOPES;
      }
    }
  }

  /** Everything sealed under the key was decided by governed consent. */
  ghost predicate AllConsented(c: Config, sealed: set<Decision>)
  {
    forall d :: d in sealed ==> ConsentOf(c, d.client, d.scopes) == Some(d.audience)
  }

  /**
   * The hook issues only for scopes and an audience that consent grants that client. In a validated configuration
   * that leaves out offline_access, which the hook's own check lets pass.
   */
  lemma HookIssuesOnlyConsented(x: Lexicon, mac: Mac, c: Config, e: HumanEvidence, key: string, sealed: set<Decision>)
    requires HookClaims(mac, c, e, key).Some? && Unforged(mac, key, sealed, e.consent.value.tag)
             && AllConsented(c, sealed)
    ensures ConsentOf(c, e.clientId, JudgedScopes(e)) == Some(Derived(c, e))
    ensures ConfigValid(x, c) ==> "offline_access" !in JudgedScopes(e)
  {
    HookNeedsSealedConsent(mac, c, e, key, sealed);
    var d :| d in sealed && SameDecision(d, HookDecision(c, e));
    ConsentPermutes(c, d.client, d.scopes, JudgedScopes(e));
    if ConfigValid(x, c) { OfflineNotConsented(x, c, e.clientId, JudgedScopes(e)); }
  }

  /**
   * Consent and hook agree: once consent granted `requested` and sealed it, the hook issues claims on a code
   * exchange for any permutation of those scopes, provided subject and assurance are acceptable.
   */
  lemma ConsentAndHookAgree(mac: Mac, key: string, c: Config, d: Decision, e: HumanEvidence)
    requires ConsentOf(c, d.client, d.scopes) == Some(d.audience) && SealConsent(mac, key, d).Some?
    requires Exchanges(e, d, SealConsent(mac, key, d).value)
    ensures HookClaims(mac, c, e, key) == if e.subject != e.clientId && Assured(e) then Some(ClaimsFor(e)) else None
  {
    PermutationKeeps(d.scopes, e.requestedScopes);
    PermutedResources(c.workloads[d.client], d.scopes, e.requestedScopes);
    ConsentedScopesClear(c, d.client, d.scopes);
    TokensPermute(d.scopes, e.requestedScopes);
    MessageDefined(d);
    assert Admissible(c, e) <==> e.subject != e.clientId;
    SealHoldsForPermutation(mac, key, d, HookDecision(c, e));
  }

  /** A refresh that presents `seal` for the granted scopes in any order. */
  predicate Refreshes(e: HumanEvidence, d: Decision, seal: Seal)
  {
    && e.clientId == d.client && e.subject == d.subject && e.consentRequest == d.request && e.consent == Some(seal)
    && e.grant == "refresh_token" && multiset(e.grantedScopes) == multiset(d.scopes)
  }

  lemma ConsentedAudienceClear(c: Config, d: Decision, granted: seq<string>)
    requires ConsentOf(c, d.client, d.scopes) == Some(d.audience) && Elems(granted) == Elems(d.audience)
    ensures AllTokens(granted) && NoneReserved(granted)
  {
    GrantedAudienceIsTokens(c, d.client, d.scopes);
    var w := c.workloads[d.client];
    KeepFollows(w, w.human.value.audiences, Resources(d.scopes, w.human.value.scopes));
    forall i | 0 <= i < |granted| ensures SingleToken(granted[i]) && !ReservedAudience(granted[i]) {
      assert granted[i] in Elems(d.audience);
      var j :| 0 <= j < |d.audience| && d.audience[j] == granted[i];
      assert d.audience[j] in w.human.value.audiences;
    }
  }

  /** The scopes first requested, which a refresh still carries, are canonical and none native. */
  predicate RequestClear(e: HumanEvidence) { AllTokens(e.requestedScopes) && NoNative(e.requestedScopes) }

  predicate SameAudience(e: HumanEvidence, d: Decision)
  {
    NoRepeat(e.grantedAudiences) && NoRepeat(d.audience) && Elems(e.grantedAudiences) == Elems(d.audience)
  }

  /**
   * They agree on refresh too: for any permutation of the granted scopes the hook issues exactly when the granted
   * audience is the consented one as a set, and subject, assurance and requested scopes are acceptable.
   */
  lemma ConsentAndRefreshAgree(mac: Mac, key: string, c: Config, d: Decision, e: HumanEvidence)
    requires ConsentOf(c, d.client, d.scopes) == Some(d.audience) && SealConsent(mac, key, d).Some?
    requires Refreshes(e, d, SealConsent(mac, key, d).value)
    ensures HookClaims(mac, c, e, key)
         == if e.subject != e.clientId && Assured(e) && RequestClear(e) && SameAudience(e, d) then Some(ClaimsFor(e))
            else None
  {
    PermutationKeeps(d.scopes, e.grantedScopes);
    PermutedResources(c.workloads[d.client], d.scopes, e.grantedScopes);
    ConsentedScopesClear(c, d.client, d.scopes);
    TokensPermute(d.scopes, e.grantedScopes);
    MessageDefined(d);
    SameSetIff(e.grantedAudiences, d.audience);
    if SameAudience(e, d) { ConsentedAudienceClear(c, d, e.grantedAudiences); }
    SealHoldsForPermutation(mac, key, d, HookDecision(c, e));
  }

  lemma SealHoldsForPermutation(mac: Mac, key: string, d: Decision, h: Decision)
    requires SealConsent(mac, key, d).Some? && SameDecision(d, h)
    ensures VerifyConsent(mac, key, SealConsent(mac, key, d), h)
  {
    MessageDefined(d);
    MessageDefined(h);
    PermutationKeeps(d.scopes, h.scopes);
    SealablePermutes(d.scopes, h.scopes);
    MessageUnambiguous(d, h);
  }

  lemma TokensPermute(s: seq<string>, t: seq<string>)
    requires Elems(s) == Elems(t) && AllTokens(s) && NoNative(s)
    ensures AllTokens(t) && NoNative(t)
  {
    forall i | 0 <= i < |t| ensures SingleToken(t[i]) && !NativeScope(t[i]) {
      assert t[i] in Elems(s);
      var j :| 0 <= j < |s| && s[j] == t[i];
    }
  }

  lemma SealablePermutes(s: seq<string>, t: seq<string>)
    requires Elems(s) == Elems(t) && AllSealable(s)
    ensures AllSealable(t)
  {
    forall i | 0 <= i < |t| ensures Sealable(t[i]) {
      assert t[i] in Elems(s);
      var j :| 0 <= j < |s| && s[j] == t[i];
    }
  }
}
