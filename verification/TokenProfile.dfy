/** Governed workload token profiles: configuration, scope ceilings, admission and the issued scope claim. */
module TokenProfile {
  import opened Storage
  import opened Text

  datatype HumanProfile = HumanProfile(purpose: string, audiences: seq<string>, scopes: seq<string>)

  datatype Workload = Workload(
    environment: string, credentialType: string, status: string, scopes: seq<string>, audiences: seq<string>,
    human: Option<HumanProfile>, humanScopeAudiences: Option<map<string, seq<string>>>)

  datatype Binding = Binding(issuer: string, subject: string)

  datatype Config = Config(sharedCommit: string, environment: string, workloads: map<string, Workload>,
                           bindings: map<string, Binding>)

  datatype Evidence = Evidence(
    clientId: string, subject: string, grant: string, assertionIssuer: string, assertionSubject: string,
    requestedScopes: seq<string>, grantedScopes: seq<string>, grantedAudiences: seq<string>)

  /** The regular expressions the profile relies on, left arbitrary. */
  datatype Lexicon = Lexicon(commit: string -> bool, workloadKey: string -> bool, scopeKey: string -> bool,
                             clientId: string -> bool)

  const BUYER_PURPOSE := "ESTATE_BFF_BUYER"
  const BUYER_HANDOFF := "trade:buyer-handoff"
  const FEDERATED_GRANT := "urn:ietf:params:oauth:grant-type:jwt-bearer"
  const SUBMIT_SCOPE := "trade:native-commitment:submit"
  const SUBMIT_AUDIENCE := "baobab-trade"
  const OIDC_SCOPES := ["openid", "profile", "email", "offline_access"]

  /** The zero value a missing map entry yields. */
  const NO_WORKLOAD := Workload("", "", "", [], [], None, None)

  function Lookup(c: Config, id: string): Workload
  {
    if id in c.workloads then c.workloads[id] else NO_WORKLOAD
  }

  function Registry(w: Workload): map<string, seq<string>>
  {
    if w.humanScopeAudiences.Some? then w.humanScopeAudiences.value else map[]
  }

  /* ---- Canonical strings ---- */

  predicate CanonicalValue(s: string)
  {
    s != "" && Trimmed(s) && ' ' !in s && '\t' !in s && '\r' !in s && '\n' !in s && '*' !in s
  }

  predicate TokenChar(c: char)
  {
    0x20 < c as int < 0x7f && c != '*' && c != '\"' && c != '\\'
  }

  /** One issuance token: joining a list of them cannot smuggle in another. */
  predicate SingleToken(s: string)
  {
    0 < |s| <= 256 && forall i :: 0 <= i < |s| ==> TokenChar(s[i])
  }

  predicate AllTokens(xs: seq<string>)
  {
    forall i :: 0 <= i < |xs| ==> SingleToken(xs[i])
  }

  predicate NativeScope(s: string) { "tms:" <= s }

  predicate NoNative(xs: seq<string>)
  {
    forall i :: 0 <= i < |xs| ==> !NativeScope(xs[i])
  }

  predicate ReservedClient(id: string) { id == "baobab-tms" || "baobab-tms-" <= id || "baobab-dev-tms-" <= id }

  predicate ReservedAudience(a: string) { a == "baobab-tms" || "baobab-tms-" <= a }

  predicate NoneReserved(xs: seq<string>)
  {
    forall i :: 0 <= i < |xs| ==> !ReservedAudience(xs[i])
  }

  /** The profile may issue at all: canonical tokens only, nothing of the held transport system. */
  predicate ProposalClear(id: string, w: Workload)
  {
    && AllTokens(w.scopes) && AllTokens(w.audiences) && !ReservedClient(id) && NoneReserved(w.audiences)
    && NoNative(w.scopes)
    && (forall s :: s in Registry(w) ==>
          SingleToken(s) && AllTokens(Registry(w)[s]) && NoneReserved(Registry(w)[s]) && !NativeScope(s))
    && (w.human.Some? ==>
          && AllTokens(w.human.value.audiences) && NoneReserved(w.human.value.audiences)
          && AllTokens(w.human.value.scopes) && NoNative(w.human.value.scopes))
  }

  predicate GrantClear(clientId: string, requested: seq<string>, granted: seq<string>, audiences: seq<string>)
  {
    && !ReservedClient(clientId) && AllTokens(audiences) && NoneReserved(audiences)
    && AllTokens(requested) && NoNative(requested) && AllTokens(granted) && NoNative(granted)
  }

  /* ---- Lists as ceilings ---- */

  /** What `subset` decides: no repetition, and every value allowed. */
  predicate IsSubset(values: seq<string>, allowed: seq<string>)
  {
    NoRepeat(values) && forall i :: 0 <= i < |values| ==> values[i] in allowed
  }

  method Subset(values: seq<string>, allowed: seq<string>) returns (ok: bool)
    ensures ok <==> IsSubset(values, allowed)
  {
    var seen := {};
    for i := 0 to |values|
      invariant seen == Elems(values[..i])
      invariant IsSubset(values[..i], allowed)
    {
      var value, found, j := values[i], false, 0;
      while j < |allowed| && !found
        invariant 0 <= j <= |allowed|
        invariant found <==> value in allowed[..j]
      {
        found := value == allowed[j];
        j := j + 1;
      }
      assert found <==> value in allowed;
      assert values[..i + 1] == values[..i] + [value];
      if !found || value in seen { return false; }
      seen := seen + {value};
    }
    assert values[..|values|] == values;
    ok := true;
  }

  predicate IsSameSet(a: seq<string>, b: seq<string>)
  {
    |a| == |b| && IsSubset(a, b)
  }

  /** Equal length and one inclusion decide set equality of two repeat-free lists, by counting. */
  lemma SameSetIff(a: seq<string>, b: seq<string>)
    ensures IsSameSet(a, b) <==> NoRepeat(a) && NoRepeat(b) && Elems(a) == Elems(b)
  {
    ElemsSize(a);
    ElemsSize(b);
    if IsSameSet(a, b) { SubsetSize(Elems(a), Elems(b)); }
    if Elems(a) == Elems(b) {
      forall i | 0 <= i < |a| ensures a[i] in b { assert a[i] in Elems(b); }
    }
  }

  method SameSet(a: seq<string>, b: seq<string>) returns (ok: bool)
    ensures ok <==> NoRepeat(a) && NoRepeat(b) && Elems(a) == Elems(b)
  {
    SameSetIff(a, b);
    ok := false;
    if |a| == |b| { ok := Subset(a, b); }
  }

  /** A governed list: present, canonical, without repetition. */
  predicate Governed(values: seq<string>)
  {
    values != [] && NoRepeat(values) && forall i :: 0 <= i < |values| ==> CanonicalValue(values[i])
  }

  method CheckValues(values: seq<string>) returns (ok: bool)
    ensures ok <==> Governed(values)
  {
    if values == [] { return false; }
    var seen := {};
    for i := 0 to |values|
      invariant seen == Elems(values[..i]) && NoRepeat(values[..i])
      invariant forall j :: 0 <= j < i ==> CanonicalValue(values[j])
    {
      assert values[..i + 1] == values[..i] + [values[i]];
      if !CanonicalValue(values[i]) || values[i] in seen { return false; }
      seen := seen + {values[i]};
    }
    assert values[..|values|] == values;
    ok := true;
  }

  /* ---- Configuration ---- */

  predicate Serves(w: Workload, a: string, scope: string) { scope in Registry(w) && a in Registry(w)[scope] }

  predicate ResourceScope(s: string) { s !in OIDC_SCOPES && s != BUYER_HANDOFF }

  /** Registry and profile match: the same scopes, each inside the profile's audiences, which are all reached. */
  ghost predicate RegistryFits(p: HumanProfile, w: Workload)
  {
    && Registry(w).Keys == Elems(p.scopes)
    && (forall s :: s in Registry(w) ==> Registry(w)[s] != [] && IsSubset(Registry(w)[s], p.audiences))
    && (forall a :: a in p.audiences ==> exists s :: s in p.scopes && Serves(w, a, s))
  }

  ghost predicate ProfileValid(p: HumanProfile, w: Workload)
  {
    && p.purpose == BUYER_PURPOSE && w.credentialType == "client_credentials" && BUYER_HANDOFF in w.scopes
    && Governed(p.audiences) && Governed(p.scopes) && "baobab-control-plane" !in p.audiences
    && (forall i :: 0 <= i < |p.scopes| ==> ResourceScope(p.scopes[i]))
    && RegistryFits(p, w)
  }

  /** The registry part of the profile check: counting keys and reached audiences is enough. */
  method CheckRegistry(p: HumanProfile, w: Workload) returns (ok: bool)
    requires NoRepeat(p.scopes) && NoRepeat(p.audiences)
    ensures ok <==> RegistryFits(p, w)
  {
    var m := Registry(w);
    ElemsSize(p.scopes);
    ElemsSize(p.audiences);
    if |m| != |p.scopes| { return false; }
    var reached := {};
    for i := 0 to |p.scopes|
      invariant forall j :: 0 <= j < i ==>
                  p.scopes[j] in m && m[p.scopes[j]] != [] && IsSubset(m[p.scopes[j]], p.audiences)
      invariant forall a :: a in reached <==> exists j :: 0 <= j < i && Serves(w, a, p.scopes[j])
    {
      var s := p.scopes[i];
      if s !in m { return false; }
      var inside := Subset(m[s], p.audiences);
      if m[s] == [] || !inside { return false; }
      reached := reached + Elems(m[s]);
    }
    SubsetSize(Elems(p.scopes), m.Keys);
    assert forall s :: s in m ==> s in p.scopes;
    assert reached <= Elems(p.audiences);
    SubsetSize(reached, Elems(p.audiences));
    ok := |reached| == |p.audiences|;
    ReachedAll(p, w, reached);
  }

  lemma ReachedAll(p: HumanProfile, w: Workload, reached: set<string>)
    requires forall a :: a in reached <==> exists j :: 0 <= j < |p.scopes| && Serves(w, a, p.scopes[j])
    requires reached <= Elems(p.audiences)
    ensures reached == Elems(p.audiences) <==>
              forall a :: a in p.audiences ==> exists s :: s in p.scopes && Serves(w, a, s)
  {
    if forall a :: a in p.audiences ==> exists s :: s in p.scopes && Serves(w, a, s) {
      forall a | a in p.audiences ensures a in reached {
        var s :| s in p.scopes && Serves(w, a, s);
        var j :| 0 <= j < |p.scopes| && p.scopes[j] == s;
      }
    } else {
      var a :| a in p.audiences && !exists s :: s in p.scopes && Serves(w, a, s);
      assert forall j :: 0 <= j < |p.scopes| ==> p.scopes[j] in p.scopes;
      assert a !in reached;
    }
  }

  method ValidateProfile(p: HumanProfile, w: Workload) returns (ok: bool)
    ensures ok <==> ProfileValid(p, w)
  {
    if p.purpose != BUYER_PURPOSE || w.credentialType != "client_credentials" || BUYER_HANDOFF !in w.scopes {
      return false;
    }
    var a := CheckValues(p.audiences);
    var s := CheckValues(p.scopes);
    if !a || !s || "baobab-control-plane" in p.audiences { return false; }
    for i := 0 to |p.scopes|
      invariant forall j :: 0 <= j < i ==> ResourceScope(p.scopes[j])
    {
      if p.scopes[i] in OIDC_SCOPES || p.scopes[i] == BUYER_HANDOFF { return false; }
    }
    ok := CheckRegistry(p, w);
  }

  predicate SubmitterValid(x: Lexicon, id: string, w: Workload)
  {
    && (w.human.Some? ==> SUBMIT_SCOPE !in w.human.value.scopes)
    && (SUBMIT_SCOPE in w.scopes ==>
          x.clientId(id) && w.human.None? && BUYER_HANDOFF !in w.scopes && SUBMIT_AUDIENCE in w.audiences)
  }

  ghost predicate WorkloadValid(x: Lexicon, c: Config, id: string, w: Workload)
  {
    && ProposalClear(id, w) && w.environment == c.environment && id != "" && Trimmed(id)
    && Governed(w.scopes) && Governed(w.audiences)
    && w.credentialType in ["client_credentials", "federated_workload_token"]
    && w.status in ["ACTIVE", "PROVISIONED", "SUSPENDED", "REVOKED", "RETIRED"]
    && (match w.human
        case Some(p) => ProfileValid(p, w)
        case None => BUYER_HANDOFF !in w.scopes && w.humanScopeAudiences.None?)
    && SubmitterValid(x, id, w)
  }

  ghost predicate ConfigValid(x: Lexicon, c: Config)
  {
    && x.commit(c.sharedCommit) && |c.workloads| > 0 && c.environment in ["development", "staging", "production"]
    && (forall id :: id in c.workloads ==> WorkloadValid(x, c, id, c.workloads[id]))
    && (forall id :: id in c.bindings ==>
          && id in c.workloads && c.workloads[id].credentialType == "federated_workload_token"
          && c.bindings[id].issuer != "" && c.bindings[id].subject != "")
    && (forall a, b :: a in c.bindings && b in c.bindings && a != b ==> c.bindings[a] != c.bindings[b])
  }

  /* ---- Workload claims ---- */

  datatype WorkloadClaims = WorkloadClaims(actorType: string, azp: string, scope: string)

  predicate CredentialFits(c: Config, e: Evidence)
  {
    var w := Lookup(c, e.clientId);
    if w.credentialType == "client_credentials" then e.grant == "client_credentials" && e.subject == e.clientId
    else
      && w.credentialType == "federated_workload_token" && e.clientId in c.bindings
      && var b := c.bindings[e.clientId];
      && e.grant == FEDERATED_GRANT && e.subject == b.subject && e.assertionSubject == b.subject
      && e.assertionIssuer == b.issuer
  }

  /** Whether the workload may be issued anything in this environment. */
  predicate Issuable(c: Config, e: Evidence)
  {
    var w := Lookup(c, e.clientId);
    && ProposalClear(e.clientId, w) && GrantClear(e.clientId, e.requestedScopes, e.grantedScopes, e.grantedAudiences)
    && e.clientId in c.workloads && (w.status == "ACTIVE" || w.status == "PROVISIONED")
    && w.environment != "" && w.environment == c.environment && CredentialFits(c, e)
  }

  /** A token carrying the submit scope is for Trade alone. */
  predicate SubmitScoped(e: Evidence) { SUBMIT_SCOPE in e.grantedScopes ==> e.grantedAudiences == [SUBMIT_AUDIENCE] }

  function ClaimsOf(c: Config, e: Evidence): Option<WorkloadClaims>
  {
    var w := Lookup(c, e.clientId);
    if Issuable(c, e) && e.requestedScopes != [] && IsSubset(e.requestedScopes, w.scopes)
       && IsSameSet(e.grantedScopes, e.requestedScopes) && e.grantedAudiences != []
       && IsSubset(e.grantedAudiences, w.audiences) && SubmitScoped(e)
    then Some(WorkloadClaims("workload", e.clientId, Join(e.grantedScopes, ' ')))
    else None
  }

  method Claims(c: Config, e: Evidence) returns (claims: Option<WorkloadClaims>)
    ensures claims == ClaimsOf(c, e)
  {
    if !Issuable(c, e) { return None; }
    var w := Lookup(c, e.clientId);
    SameSetIff(e.grantedScopes, e.requestedScopes);
    var inside := Subset(e.requestedScopes, w.scopes);
    var same := SameSet(e.grantedScopes, e.requestedScopes);
    if e.requestedScopes == [] || !inside || !same { return None; }
    var aimed := Subset(e.grantedAudiences, w.audiences);
    if e.grantedAudiences == [] || !aimed || !SubmitScoped(e) { return None; }
    claims := Some(WorkloadClaims("workload", e.clientId, Join(e.grantedScopes, ' ')));
  }

  lemma TokensAreSpaceFree(xs: seq<string>)
    requires AllTokens(xs)
    ensures Free(xs, ' ')
  {
    forall i | 0 <= i < |xs| ensures ' ' !in xs[i] { assert SingleToken(xs[i]) && !TokenChar(' '); }
  }

  /**
   * For any configuration, validated or not, splitting the issued scope claim gives back exactly the granted
   * scopes, which are the requested ones, inside the workload's ceiling, and none of them native.
   */
  lemma ScopeClaimRoundTrip(c: Config, e: Evidence)
    requires ClaimsOf(c, e).Some?
    ensures Split(ClaimsOf(c, e).value.scope, ' ') == e.grantedScopes
    ensures Elems(e.grantedScopes) == Elems(e.requestedScopes) && NoRepeat(e.grantedScopes)
    ensures forall s :: s in Split(ClaimsOf(c, e).value.scope, ' ') ==>
              s in Lookup(c, e.clientId).scopes && !NativeScope(s)
  {
    TokensAreSpaceFree(e.grantedScopes);
    SameSetIff(e.grantedScopes, e.requestedScopes);
    SplitJoin(e.grantedScopes, ' ');
    forall s | s in e.grantedScopes ensures s in Lookup(c, e.clientId).scopes && !NativeScope(s) {
      assert s in Elems(e.requestedScopes);
    }
  }

  /* ---- Canonical requests and responses ---- */

  /** Absent scopes are not the same as an explicit empty list. */
  datatype Request = Request(workloadId: string, audience: string, scopes: Option<seq<string>>)

  datatype Response = Response(accessToken: string, tokenType: string, expiresIn: int, scope: Option<string>)

  function ScopesOf(r: Request): seq<string> { if r.scopes.Some? then r.scopes.value else [] }

  predicate RequestValid(x: Lexicon, r: Request)
  {
    && |r.workloadId| <= 63 && x.workloadKey(r.workloadId) && |r.audience| <= 63 && x.workloadKey(r.audience)
    && |ScopesOf(r)| <= 32 && NoRepeat(ScopesOf(r))
    && forall i :: 0 <= i < |ScopesOf(r)| ==> |ScopesOf(r)[i]| <= 63 && x.scopeKey(ScopesOf(r)[i])
  }

  method ValidateRequest(x: Lexicon, r: Request) returns (ok: bool)
    ensures ok <==> RequestValid(x, r)
  {
    var scopes := ScopesOf(r);
    if |r.workloadId| > 63 || !x.workloadKey(r.workloadId) || |r.audience| > 63 || !x.workloadKey(r.audience)
       || |scopes| > 32 { return false; }
    var seen := {};
    for i := 0 to |scopes|
      invariant seen == Elems(scopes[..i]) && NoRepeat(scopes[..i])
      invariant forall j :: 0 <= j < i ==> |scopes[j]| <= 63 && x.scopeKey(scopes[j])
    {
      assert scopes[..i + 1] == scopes[..i] + [scopes[i]];
      if |scopes[i]| > 63 || !x.scopeKey(scopes[i]) || scopes[i] in seen { return false; }
      seen := seen + {scopes[i]};
    }
    assert scopes[..|scopes|] == scopes;
    ok := true;
  }

  type Defaults = map<string, map<string, seq<string>>>

  function DefaultScopes(d: Defaults, r: Request): seq<string>
  {
    if r.workloadId in d && r.audience in d[r.workloadId] then d[r.workloadId][r.audience] else []
  }

  /** The request with only omitted scopes filled in. */
  function Completed(r: Request, d: Defaults): Request
  {
    if r.scopes.None? then r.(scopes := Some(DefaultScopes(d, r))) else r
  }

  ghost function Admit(x: Lexicon, c: Config, r: Request, d: Defaults, e: Evidence): Option<Request>
  {
    var w, q := Lookup(c, r.workloadId), Completed(r, d);
    if ConfigValid(x, c) && RequestValid(x, r) && r.workloadId in c.workloads && w.status == "ACTIVE"
       && e.clientId == r.workloadId && r.audience in w.audiences && ScopesOf(q) != [] && RequestValid(x, q)
       && IsSameSet(e.requestedScopes, ScopesOf(q)) && IsSameSet(e.grantedScopes, ScopesOf(q))
       && IsSameSet(e.grantedAudiences, [r.audience]) && ClaimsOf(c, e).Some?
    then Some(q) else None
  }

  /** The token length counts characters. */
  predicate ResponseValid(r: Response)
  {
    20 <= |r.accessToken| && r.tokenType == "Bearer" && 60 <= r.expiresIn <= 86400 && r.scope != Some("")
  }

  predicate Binds(x: Lexicon, r: Response, q: Request)
  {
    ResponseValid(r) && RequestValid(x, q) && ScopesOf(q) != [] && r.scope.Some?
    && IsSameSet(Split(r.scope.value, ' '), ScopesOf(q))
  }

  /** A response binds to an admitted request exactly when its scope claim lists the admitted scopes once each. */
  lemma BindsAdmittedIff(x: Lexicon, c: Config, r: Request, d: Defaults, e: Evidence, s: Response)
    requires Admit(x, c, r, d, e).Some? && ResponseValid(s) && s.scope.Some?
    ensures var q := Admit(x, c, r, d, e).value;
            Binds(x, s, q) <==>
              NoRepeat(Split(s.scope.value, ' '))
              && Elems(Split(s.scope.value, ' ')) == Elems(e.grantedScopes)
  {
    var q := Admit(x, c, r, d, e).value;
    SameSetIff(Split(s.scope.value, ' '), ScopesOf(q));
    SameSetIff(e.grantedScopes, ScopesOf(q));
  }

  /** A valid response carrying the claim issued for the evidence binds to the admitted request. */
  lemma IssuedClaimBinds(x: Lexicon, c: Config, r: Request, d: Defaults, e: Evidence, s: Response)
    requires Admit(x, c, r, d, e).Some? && ResponseValid(s) && s.scope == Some(ClaimsOf(c, e).value.scope)
    ensures Binds(x, s, Admit(x, c, r, d, e).value)
  {
    ScopeClaimRoundTrip(c, e);
    BindsAdmittedIff(x, c, r, d, e, s);
  }

  /** What admission promises: the exact audience, scopes within the ceiling, and only omission uses the defaults. */
  lemma AdmittedWithinCeiling(x: Lexicon, c: Config, r: Request, d: Defaults, e: Evidence)
    requires Admit(x, c, r, d, e).Some?
    ensures var q := Admit(x, c, r, d, e).value;
            && q.workloadId == r.workloadId && q.audience == r.audience && e.grantedAudiences == [r.audience]
            && (r.scopes.Some? ==> q.scopes == r.scopes) && r.scopes != Some([])
            && (forall s :: s in ScopesOf(q) ==> s in c.workloads[r.workloadId].scopes && !NativeScope(s))
  {
    var q := Admit(x, c, r, d, e).value;
    ScopeClaimRoundTrip(c, e);
    SameSetIff(e.grantedScopes, ScopesOf(q));
    SameSetIff(e.grantedAudiences, [r.audience]);
    assert e.grantedAudiences[0] in [r.audience];
    forall s | s in ScopesOf(q) ensures s in e.grantedScopes { assert s in Elems(ScopesOf(q)); }
  }
}
