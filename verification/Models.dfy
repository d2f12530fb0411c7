/** The federation wire records and their structural rules. */
module Models {
  import opened Storage

  /** Nanoseconds since Go's zero time; 0 is the zero time itself. */
  type Time = int

  const SECOND := 1_000_000_000
  const MINUTE := 60 * SECOND
  const UNIX_EPOCH := 62_135_596_800 * SECOND
  const MAX_REVISION := 0xFFFF_FFFF_FFFF_FFFF

  /** The identifier grammars (regular expressions and URL rules), left arbitrary. */
  datatype Grammar = Grammar(
    uuid: string -> bool, reference: string -> bool, provider: string -> bool, engine: string -> bool,
    organisation: string -> bool, estate: string -> bool, digest: string -> bool, exact: string -> bool,
    snapshotId: string -> bool, issuer: (Protocol, string) -> bool)

  datatype Protocol = Oidc | Saml2 | UnknownProtocol

  datatype Status = Requested | Configuring | Verifying | Active | Suspended | Rotating | Revoked | UnknownStatus

  datatype Binding = Binding(providerId: string, engineInstanceId: string,
                             configurationReference: string, trustMaterialReference: string)

  datatype Trust = Trust(
    id: string, protocol: Protocol, upstreamIssuer: string, organisationIds: seq<string>, estateIds: seq<string>,
    binding: Binding, status: Status, assurancePolicyReference: string, attributeMappingReference: string,
    provisioningPolicyReference: string, revision: nat, createdAt: Time, updatedAt: Time,
    activationEvidenceReference: string, activatedAt: Option<Time>, revokedAt: Option<Time>)

  datatype TrustSnapshot = TrustSnapshot(trust: Trust, approvedRevision: nat, snapshotId: string, validUntil: Time)

  datatype Scope = Scope(organisationId: string, estateId: string)

  datatype Resolution = Unresolved
    | Resolved(principalId: string, externalIdentityId: string, mappingReference: string,
               issuerSubject: bool, resolvedAt: Time)
    | MalformedResolution

  datatype Principal = Principal(
    eventId: string, trustId: string, providerId: string, engineInstanceId: string, protocol: Protocol,
    issuer: string, subject: string, human: bool, observedAt: Time, expiresAt: Time, resolution: Resolution)

  datatype OidcAssurance = OidcAssurance(human: bool, acr: string, amr: Option<seq<string>>, authenticatedAt: Time,
                                         stepUpAt: Option<Time>, issuer: string, clientId: string)

  datatype SamlAssurance = SamlAssurance(classRef: string, authenticatedAt: Time, sessionExpiresAt: Time)

  datatype Mapping = Unmapped | Mapped(level: string, evidenceReference: string) | MalformedMapping

  datatype Assurance = Assurance(
    eventId: string, trustId: string, providerId: string, engineInstanceId: string, protocol: Protocol,
    issuer: string, subject: string, oidc: Option<OidcAssurance>, saml: Option<SamlAssurance>,
    mapping: Mapping, policyReference: string, evaluatedAt: Time, expiresAt: Time)

  datatype Bundle = Bundle(trust: Trust, principal: Principal, assurance: Assurance)

  datatype StoredRequest = StoredRequest(
    id: string, trustId: string, snapshotId: string, revision: nat,
    sessionDigest: string, stateDigest: string, nonceDigest: string,
    createdAt: Time, expiresAt: Time, consumed: bool)

  datatype StoredEvent = StoredEvent(snapshotId: string, revision: nat, bundle: Bundle, consumed: bool)

  function Min(a: Time, b: Time): Time { if b < a then b else a }

  predicate Fresh(from: Time, until: Time, now: Time)
  {
    from != 0 && until != 0 && from <= now && now < until
  }

  predicate ValidBinding(g: Grammar, b: Binding)
  {
    g.provider(b.providerId) && g.engine(b.engineInstanceId)
    && g.reference(b.configurationReference) && g.reference(b.trustMaterialReference)
  }

  predicate Distinct<T(==)>(xs: seq<T>)
  {
    forall i, j :: 0 <= i < j < |xs| ==> xs[i] != xs[j]
  }

  predicate UniqueScope(ids: seq<string>, ok: string -> bool)
  {
    1 <= |ids| <= 64 && Distinct(ids) && forall i :: 0 <= i < |ids| ==> ok(ids[i])
  }

  predicate ValidateTrust(g: Grammar, t: Trust)
  {
    && g.uuid(t.id) && ValidBinding(g, t.binding) && t.revision >= 1
    && UniqueScope(t.organisationIds, g.organisation) && UniqueScope(t.estateIds, g.estate)
    && g.reference(t.assurancePolicyReference) && g.reference(t.attributeMappingReference)
    && g.reference(t.provisioningPolicyReference)
    && t.protocol != UnknownProtocol && g.issuer(t.protocol, t.upstreamIssuer)
    && t.status != UnknownStatus
    && t.createdAt != 0 && t.createdAt <= t.updatedAt
    && (t.activatedAt.Some? ==> t.createdAt <= t.activatedAt.value <= t.updatedAt)
    && (t.status == Active ==> t.activatedAt.Some? && g.reference(t.activationEvidenceReference))
    && (t.activationEvidenceReference != "" ==> g.reference(t.activationEvidenceReference))
    && (if t.status == Revoked
        then t.revokedAt.Some? && t.createdAt <= t.revokedAt.value <= t.updatedAt
             && (t.activatedAt.Some? ==> t.activatedAt.value <= t.revokedAt.value)
        else t.revokedAt.None?)
  }

  predicate ValidResolution(g: Grammar, p: Principal)
  {
    match p.resolution
    case Unresolved => true
    case Resolved(principal, external, mapping, issuerSubject, at) =>
      g.uuid(principal) && g.uuid(external) && g.reference(mapping) && issuerSubject
      && p.observedAt <= at && at < p.expiresAt
    case MalformedResolution => false
  }

  predicate ValidMapping(g: Grammar, m: Mapping)
  {
    match m
    case Unmapped => true
    case Mapped(level, reference) =>
      (level == "BAOBAB-A1" || level == "BAOBAB-A2" || level == "BAOBAB-A3") && g.reference(reference)
    case MalformedMapping => false
  }

  predicate ValidEvidence(g: Grammar, t: Trust, p: Principal, a: Assurance)
  {
    if t.protocol == Oidc then
      && a.oidc.Some? && a.saml.None?
      && var e := a.oidc.value;
      && e.human && e.issuer == p.issuer && g.exact(e.acr) && g.exact(e.clientId)
      && e.authenticatedAt != 0 && e.authenticatedAt <= p.observedAt
      && (e.stepUpAt.Some? ==> e.authenticatedAt <= e.stepUpAt.value <= a.evaluatedAt)
      && (e.amr.Some? ==> |e.amr.value| > 0 && forall i :: 0 <= i < |e.amr.value| ==> g.exact(e.amr.value[i]))
    else
      && a.saml.Some? && a.oidc.None?
      && var e := a.saml.value;
      && g.exact(e.classRef) && e.authenticatedAt != 0 && e.authenticatedAt <= p.observedAt
      && a.expiresAt <= e.sessionExpiresAt
  }

  predicate ValidateBundle(g: Grammar, b: Bundle)
  {
    var t, p, a := b.trust, b.principal, b.assurance;
    && ValidateTrust(g, t)
    && g.uuid(p.eventId) && p.trustId == t.id && p.protocol == t.protocol && p.issuer == t.upstreamIssuer
    && g.exact(p.subject) && p.human && p.providerId == t.binding.providerId
    && p.engineInstanceId == t.binding.engineInstanceId && p.observedAt != 0 && p.observedAt < p.expiresAt
    && a.eventId == p.eventId && a.trustId == p.trustId && a.providerId == p.providerId
    && a.engineInstanceId == p.engineInstanceId && a.protocol == p.protocol && a.issuer == p.issuer
    && a.subject == p.subject && a.policyReference == t.assurancePolicyReference
    && p.observedAt <= a.evaluatedAt && a.evaluatedAt < a.expiresAt && a.expiresAt <= p.expiresAt
    && ValidResolution(g, p) && ValidMapping(g, a.mapping) && ValidEvidence(g, t, p, a)
  }

  predicate ActiveSnapshot(g: Grammar, s: TrustSnapshot, now: Time)
  {
    && s.trust.status == Active && g.uuid(s.trust.id) && s.snapshotId != ""
    && s.approvedRevision == s.trust.revision && s.trust.revision > 0
    && now < s.validUntil && s.trust.updatedAt <= now
  }
}
