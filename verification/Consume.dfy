/** Consuming an authentication event: every relied-on expiry bounds the decision. */
module Consume {
  import opened Storage
  import opened Models
  import A = Approvals
  import G = Governance

  datatype Policy = Policy(scope: Scope, maxEventLifetime: Time, maxAuthenticationAge: Time, maxDecisionLifetime: Time)

  datatype Facet = OidcFacet | SamlFacet | OtherFacet

  datatype Platform = Platform(
    providerId: string, engineInstanceId: string, scope: Scope, providerActive: bool, instanceActive: bool,
    bindingActive: bool, supportVerified: bool, capability: Facet, profileRevision: nat, artifactDigest: string,
    deployedDigest: string, evidenceExpiresAt: Time)

  datatype Canonical = Canonical(
    issuer: string, subject: string, principalId: string, externalIdentityId: string, mappingReference: string,
    principalActive: bool, identityActive: bool, human: bool, issuerSubject: bool, validUntil: Time)

  datatype Decision = Decision(principalId: string, externalIdentityId: string, eventId: string, level: string,
                               expiresAt: Time)

  datatype Env = Env(grammar: Grammar, evidenceDigest: Assurance -> string)

  /**
   * What the remote authorities answered, and the two clock readings. Receipts 0 to 5 are the trust's own
   * references, 6 the assurance mapping decision and 7 the canonical identity mapping.
   */
  datatype Answers = Answers(
    started: Time, snapshot: Option<TrustSnapshot>, receipts: nat -> Option<A.Receipt>, platform: Option<Platform>,
    evidence: Option<(Principal, Assurance)>, canonical: Option<Canonical>, latest: Option<TrustSnapshot>,
    finished: Time)

  /* ---- The least of several times ---- */

  predicate IsLeast(x: Time, xs: seq<Time>) { x in xs && forall i :: 0 <= i < |xs| ==> x <= xs[i] }

  method Minimum(values: seq<Time>) returns (r: Time)
    requires values != []
    ensures IsLeast(r, values)
  {
    r := values[0];
    for i := 1 to |values|
      invariant r in values && forall j :: 0 <= j < i ==> r <= values[j]
    {
      if values[i] < r { r := values[i]; }
    }
  }

  function Least(xs: seq<Time>): (r: Time)
    requires xs != []
    ensures IsLeast(r, xs)
  {
    if |xs| == 1 then xs[0] else Min(xs[0], Least(xs[1..]))
  }

  /** Lowering the least by more values keeps it the least of all. */
  lemma LeastOfBoth(x: Time, xs: seq<Time>, y: Time, ys: seq<Time>)
    requires IsLeast(x, xs) && IsLeast(y, [x] + ys)
    ensures IsLeast(y, xs + ys)
  {
    var all := xs + ys;
    assert ([x] + ys)[0] == x;
    forall i | 0 <= i < |all| ensures y <= all[i] {
      if i >= |xs| { assert all[i] == ([x] + ys)[i - |xs| + 1]; }
    }
    if y != x {
      var k :| 0 <= k < |[x] + ys| && ([x] + ys)[k] == y;
      assert all[|xs| + k - 1] == y;
    } else {
      var k :| 0 <= k < |xs| && xs[k] == x;
      assert all[k] == y;
    }
  }

  /** Lower a running expiry by further ones. */
  method Lower(x: Time, ghost xs: seq<Time>, ys: seq<Time>) returns (y: Time)
    requires IsLeast(x, xs)
    ensures IsLeast(y, xs + ys)
  {
    y := Minimum([x] + ys);
    LeastOfBoth(x, xs, y, ys);
  }

  /* ---- What each answer must show ---- */

  predicate SnapshotFits(g: Grammar, policy: Policy, trustId: string, s: TrustSnapshot, now: Time)
  {
    && s.trust.id == trustId && s.snapshotId != "" && s.approvedRevision == s.trust.revision && s.trust.revision >= 1
    && s.trust.updatedAt <= now && now < s.validUntil && s.trust.status == Active
    && policy.scope.organisationId in s.trust.organisationIds && policy.scope.estateId in s.trust.estateIds
    && ValidBinding(g, s.trust.binding)
  }

  predicate ReceiptFits(g: Grammar, want: A.Expectation, r: Option<A.Receipt>, now: Time)
  {
    g.reference(want.id) && r.Some? && r.value.expectation == want && r.value.approved && r.value.nonSecret
    && Fresh(r.value.validFrom, r.value.expiresAt, now)
  }

  predicate PlatformFits(g: Grammar, policy: Policy, t: Trust, p: Platform, now: Time)
  {
    var facet := if t.protocol == Saml2 then SamlFacet else OidcFacet;
    && p.providerId == t.binding.providerId && p.engineInstanceId == t.binding.engineInstanceId
    && p.scope == policy.scope
    && p.providerActive && p.instanceActive && p.bindingActive && p.supportVerified && p.capability == facet
    && p.profileRevision >= 1 && g.digest(p.artifactDigest) && p.artifactDigest == p.deployedDigest
    && now < p.evidenceExpiresAt
  }

  /** When the person last authenticated, a step-up counting as anew. */
  function AuthenticatedAt(a: Assurance): Time
  {
    if a.oidc.Some? then (if a.oidc.value.stepUpAt.Some? then a.oidc.value.stepUpAt.value
                          else a.oidc.value.authenticatedAt)
    else if a.saml.Some? then a.saml.value.authenticatedAt else 0
  }

  predicate EvidenceFits(g: Grammar, policy: Policy, t: Trust, eventId: string, p: Principal, a: Assurance, now: Time)
  {
    && p.eventId == eventId && ValidateBundle(g, Bundle(t, p, a))
    && Fresh(p.observedAt, p.expiresAt, now) && Fresh(a.evaluatedAt, a.expiresAt, now)
    && p.expiresAt - p.observedAt <= policy.maxEventLifetime
    && now - AuthenticatedAt(a) <= policy.maxAuthenticationAge && a.mapping.Mapped?
  }

  function MappingWant(env: Env, s: TrustSnapshot, scope: Scope, eventId: string, p: Principal,
                       a: Assurance): A.Expectation
    requires a.mapping.Mapped?
  {
    G.Expect(s, scope, a.mapping.evidenceReference, A.AssuranceMappingDecision).(
      eventId := eventId, issuer := p.issuer, subject := p.subject, level := a.mapping.level,
      evidenceDigest := env.evidenceDigest(a))
  }

  function IdentityWant(s: TrustSnapshot, scope: Scope, p: Principal, c: Canonical): A.Expectation
  {
    G.Expect(s, scope, c.mappingReference, A.CanonicalIdentityMapping).(
      issuer := p.issuer, subject := p.subject, principalId := c.principalId,
      externalIdentityId := c.externalIdentityId)
  }

  predicate CanonicalFits(g: Grammar, p: Principal, c: Canonical, now: Time)
  {
    && c.issuer == p.issuer && c.subject == p.subject && c.issuerSubject && c.principalActive && c.identityActive
    && c.human
    && g.uuid(c.principalId) && g.uuid(c.externalIdentityId) && g.reference(c.mappingReference) && now < c.validUntil
  }

  predicate ResolutionAgrees(p: Principal, c: Canonical)
  {
    p.resolution.Resolved? ==>
      p.resolution.principalId == c.principalId && p.resolution.externalIdentityId == c.externalIdentityId
      && p.resolution.mappingReference == c.mappingReference
  }

  predicate LatestFits(s: TrustSnapshot, latest: TrustSnapshot)
  {
    latest.trust == s.trust && latest.approvedRevision == s.approvedRevision && latest.snapshotId == s.snapshotId
  }

  predicate TrustStage(env: Env, policy: Policy, trustId: string, a: Answers)
  {
    && a.started != 0 && a.snapshot.Some? && SnapshotFits(env.grammar, policy, trustId, a.snapshot.value, a.started)
    && forall i :: 0 <= i < 6 ==>
         ReceiptFits(env.grammar, G.Expectations(a.snapshot.value, policy.scope)[i], a.receipts(i), a.started)
  }

  predicate PlatformStage(env: Env, policy: Policy, a: Answers)
    requires a.snapshot.Some?
  {
    a.platform.Some? && PlatformFits(env.grammar, policy, a.snapshot.value.trust, a.platform.value, a.started)
  }

  predicate EvidenceStage(env: Env, policy: Policy, eventId: string, a: Answers)
    requires a.snapshot.Some?
  {
    && a.evidence.Some?
    && var (p, e) := a.evidence.value;
    && EvidenceFits(env.grammar, policy, a.snapshot.value.trust, eventId, p, e, a.started)
    && ReceiptFits(env.grammar, MappingWant(env, a.snapshot.value, policy.scope, eventId, p, e), a.receipts(6),
                   a.started)
  }

  predicate IdentityStage(env: Env, policy: Policy, a: Answers)
    requires a.snapshot.Some? && a.evidence.Some?
  {
    var p := a.evidence.value.0;
    && a.canonical.Some? && CanonicalFits(env.grammar, p, a.canonical.value, a.started)
    && ReceiptFits(env.grammar, IdentityWant(a.snapshot.value, policy.scope, p, a.canonical.value), a.receipts(7),
                   a.started)
    && ResolutionAgrees(p, a.canonical.value)
  }

  /** Everything the decision is built on, before the final clock reading. */
  predicate Supported(env: Env, policy: Policy, trustId: string, eventId: string, a: Answers)
  {
    && env.grammar.uuid(trustId) && env.grammar.uuid(eventId) && TrustStage(env, policy, trustId, a)
    && PlatformStage(env, policy, a) && EvidenceStage(env, policy, eventId, a) && IdentityStage(env, policy, a)
    && a.latest.Some? && LatestFits(a.snapshot.value, a.latest.value)
  }

  /* ---- The expiries relied on ---- */

  function TrustExpiries(policy: Policy, a: Answers): seq<Time>
    requires a.snapshot.Some? && forall i :: 0 <= i < 6 ==> a.receipts(i).Some?
  {
    [a.snapshot.value.validUntil, a.started + policy.maxDecisionLifetime]
    + seq(6, i requires 0 <= i < 6 => a.receipts(i).value.expiresAt)
  }

  function LaterExpiries(policy: Policy, a: Answers): seq<Time>
    requires a.platform.Some? && a.evidence.Some? && a.receipts(6).Some? && a.canonical.Some? && a.receipts(7).Some?
  {
    var (p, e) := a.evidence.value;
    [a.platform.value.evidenceExpiresAt, AuthenticatedAt(e) + policy.maxAuthenticationAge,
     a.receipts(6).value.expiresAt, a.receipts(7).value.expiresAt, a.canonical.value.validUntil,
     p.expiresAt, e.expiresAt]
  }

  /** Every expiry of a receipt, platform, canonical, principal, assurance or trust answer, and the policy bounds. */
  function Relied(env: Env, policy: Policy, trustId: string, eventId: string, a: Answers): seq<Time>
    requires Supported(env, policy, trustId, eventId, a)
  {
    TrustExpiries(policy, a) + LaterExpiries(policy, a) + [a.latest.value.validUntil]
  }

  /** The second clock reading does not run back and still lies before everything relied on. */
  predicate Timely(a: Answers, relied: seq<Time>)
  {
    a.started <= a.finished && a.finished != 0 && forall i :: 0 <= i < |relied| ==> a.finished < relied[i]
  }

  /** The trust snapshot and its six receipts, lowering the expiry one by one. */
  method CheckTrust(env: Env, policy: Policy, trustId: string, a: Answers) returns (expires: Option<Time>)
    ensures expires.Some? <==> TrustStage(env, policy, trustId, a)
    ensures expires.Some? ==> IsLeast(expires.value, TrustExpiries(policy, a))
  {
    if a.started == 0 || a.snapshot.None? { return None; }
    var s := a.snapshot.value;
    if !SnapshotFits(env.grammar, policy, trustId, s, a.started) { return None; }
    var e := Minimum([s.validUntil, a.started + policy.maxDecisionLifetime]);
    var wants := G.Expectations(s, policy.scope);
    ghost var relied := [s.validUntil, a.started + policy.maxDecisionLifetime];
    for i := 0 to 6
      invariant forall j :: 0 <= j < i ==> ReceiptFits(env.grammar, wants[j], a.receipts(j), a.started)
      invariant |relied| == 2 + i && relied[0] == s.validUntil && relied[1] == a.started + policy.maxDecisionLifetime
      invariant forall j :: 0 <= j < i ==> relied[2 + j] == a.receipts(j).value.expiresAt
      invariant IsLeast(e, relied)
    {
      if !ReceiptFits(env.grammar, wants[i], a.receipts(i), a.started) { return None; }
      var next := a.receipts(i).value.expiresAt;
      e := Lower(e, relied, [next]);
      relied := relied + [next];
    }
    assert relied == TrustExpiries(policy, a);
    expires := Some(e);
  }

  /** The closing clock check against everything relied on so far and the trust's latest validity. */
  method Close(a: Answers, e: Time, ghost relied: seq<Time>, until: Time) returns (expires: Option<Time>)
    requires IsLeast(e, relied)
    ensures expires.Some? <==> Timely(a, relied + [until])
    ensures expires.Some? ==> IsLeast(expires.value, relied + [until]) && a.finished < expires.value
  {
    var least := Lower(e, relied, [until]);
    assert (relied + [until])[|relied|] == until;
    ghost var k: nat :| k < |relied| && relied[k] == e;
    assert (relied + [until])[k] == e;
    if a.finished < a.started || a.finished == 0 || !(a.finished < e) || !(a.finished < until) { return None; }
    expires := Some(least);
  }

  /** When Consume decides. */
  predicate Decided(env: Env, policy: Policy, trustId: string, eventId: string, a: Answers)
  {
    Supported(env, policy, trustId, eventId, a) && Timely(a, Relied(env, policy, trustId, eventId, a))
  }

  /** What it decides: the canonical identity and mapped level, until the first of everything relied on expires. */
  function DecisionOf(env: Env, policy: Policy, trustId: string, eventId: string, a: Answers): (d: Decision)
    requires Decided(env, policy, trustId, eventId, a)
    ensures IsLeast(d.expiresAt, Relied(env, policy, trustId, eventId, a)) && a.finished < d.expiresAt
  {
    var c := a.canonical.value;
    Decision(c.principalId, c.externalIdentityId, eventId, a.evidence.value.1.mapping.level,
             Least(Relied(env, policy, trustId, eventId, a)))
  }

  /**
   * A decision is made exactly when every answer fits and the clock is still in time; it expires at the least expiry
   * relied on.
   */
  method Consume(env: Env, policy: Policy, trustId: string, eventId: string, a: Answers) returns (d: Option<Decision>)
    ensures d.Some? <==> Decided(env, policy, trustId, eventId, a)
    ensures d.Some? ==>
              && IsLeast(d.value.expiresAt, Relied(env, policy, trustId, eventId, a)) && a.finished < d.value.expiresAt
              && d.value == DecisionOf(env, policy, trustId, eventId, a)
  {
    if !env.grammar.uuid(trustId) || !env.grammar.uuid(eventId) { return None; }
    var trust := CheckTrust(env, policy, trustId, a);
    if trust.None? || !PlatformStage(env, policy, a) || !EvidenceStage(env, policy, eventId, a)
       || !IdentityStage(env, policy, a) || a.latest.None?
       || !LatestFits(a.snapshot.value, a.latest.value) { return None; }
    d := Conclude(env, policy, trustId, eventId, a, trust.value);
  }

  method Conclude(env: Env, policy: Policy, trustId: string, eventId: string, a: Answers, trust: Time)
    returns (d: Option<Decision>)
    requires Supported(env, policy, trustId, eventId, a) && IsLeast(trust, TrustExpiries(policy, a))
    ensures d.Some? <==> Timely(a, Relied(env, policy, trustId, eventId, a))
    ensures d.Some? ==> d.value == DecisionOf(env, policy, trustId, eventId, a)
  {
    var later := LaterExpiries(policy, a);
    var e := Lower(trust, TrustExpiries(policy, a), later);
    var expires := Close(a, e, TrustExpiries(policy, a) + later, a.latest.value.validUntil);
    if expires.None? { return None; }
    var c := a.canonical.value;
    d := Some(Decision(c.principalId, c.externalIdentityId, eventId, a.evidence.value.1.mapping.level, expires.value));
  }
}
