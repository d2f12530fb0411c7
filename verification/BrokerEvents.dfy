/** The broker event ledger: captured upstream assertions, their replay fences, and verified events. */
module BrokerEvents {
  import opened KeyOrder
  import opened Storage
  import opened Models
  import O = OidcEvents

  const CAPACITY := 4096

  datatype BrokerRequest = BrokerRequest(request: StoredRequest, pkceDigest: string, configurationDigest: string)

  datatype Capture = Capture(principal: Principal, assurance: Assurance, digest: string, replayId: string)

  /** `wellFormed` is the verdict on its URLs, keys, certificates and client secret. */
  datatype Configuration = Configuration(
    trustId: string, snapshotId: string, revision: nat, binding: Binding, validUntil: Time, issuer: string,
    clientId: string, providerRoute: string, upstream: O.Configuration, entityId: string, acsUrl: string,
    wellFormed: bool)

  /** The broker's own ID token also names the upstream evidence it stands for. */
  datatype BrokerToken = BrokerToken(token: O.IdToken, evidenceDigest: string)

  datatype SamlAssertion = SamlAssertion(
    id: string, issuer: string, nameId: string, audience: string, recipient: string, inResponseTo: string,
    notBefore: Time, notOnOrAfter: Time, confirmedUntil: Time, issueInstant: Time, authnInstant: Time,
    sessionUntil: Option<Time>, classRef: string, profileOk: bool)

  /** Hashing, decoding and the configuration digest are arbitrary functions. */
  datatype Env = Env(grammar: Grammar, route: string -> bool, digest: string -> string,
                     configDigest: Configuration -> string, decodeToken: string -> BrokerToken,
                     decodeSaml: string -> SamlAssertion, samlSubject: (string, string, string) -> string,
                     maxLifetime: int)

  datatype Ledger = Ledger(
    requests: map<Key, BrokerRequest>, nonces: map<Key, Key>, captures: map<Key, Capture>,
    replay: map<Key, Time>, verified: map<Key, StoredEvent>, clock: Option<Time>)

  predicate Behind(l: Ledger, now: Time) { l.clock.Some? && now < l.clock.value }

  /** An answer of the configuration authority, between the clock readings before and after it. */
  datatype Asked = Asked(entered: Time, config: Configuration, answered: Time)

  /** The configuration answered for an active snapshot fits it and is still valid. */
  predicate ConfigurationFits(env: Env, s: TrustSnapshot, q: Asked)
  {
    var g, c := env.grammar, q.config;
    && ActiveSnapshot(g, s, q.entered) && ValidateTrust(g, s.trust)
    && c.trustId == s.trust.id && c.snapshotId == s.snapshotId && c.revision == s.approvedRevision
    && c.binding == s.trust.binding && q.answered < c.validUntil && g.exact(c.clientId) && g.exact(c.providerRoute)
    && env.route(c.providerRoute) && c.wellFormed
    && match s.trust.protocol
       case Oidc =>
         c.upstream.binding == c.binding && c.upstream.trustId == s.trust.id && c.upstream.snapshotId == s.snapshotId
         && c.upstream.revision == c.revision && g.exact(c.upstream.clientId)
       case Saml2 => g.exact(c.entityId)
       case UnknownProtocol => false
  }

  /** Asked again, the authority still answers the same configuration. */
  predicate ConfigurationStands(env: Env, s: TrustSnapshot, c: Configuration, again: Option<Asked>)
  {
    again.Some? && ConfigurationFits(env, s, again.value) && env.configDigest(again.value.config) == env.configDigest(c)
  }

  datatype BeginCall = BeginCall(snapshot: TrustSnapshot, asked: Asked, sessionDigest: string, id: Key,
                                 state: string, nonce: string, pkceVerifier: string, now: Time, observed: Time,
                                 checked: Time)

  predicate BeginAdmitted(env: Env, c: BeginCall)
  {
    env.grammar.digest(c.sessionDigest) && ConfigurationFits(env, c.snapshot, c.asked)
  }

  function Request(env: Env, c: BeginCall): BrokerRequest
  {
    BrokerRequest(
      StoredRequest(c.id, c.snapshot.trust.id, c.snapshot.snapshotId, c.snapshot.approvedRevision, c.sessionDigest,
                    env.digest(c.state), env.digest(c.nonce), c.now,
                    Min(Min(c.snapshot.validUntil, c.asked.config.validUntil), c.now + 5 * MINUTE), false),
      env.digest(c.pkceVerifier), env.configDigest(c.asked.config))
  }

  predicate TransactionBinding(s: string) { s == "" || 16 <= |s| <= 500 }

  /** The authorization request for the login is canonical; its other fields are constants that always pass. */
  predicate CanonicalRequest(c: BeginCall)
  {
    |c.asked.config.clientId| <= 255 && TransactionBinding(c.state) && TransactionBinding(c.nonce)
  }

  function BeginTx(env: Env, l: Ledger, c: BeginCall): Option<Ledger>
  {
    var r := Request(env, c);
    if !BeginAdmitted(env, c) || !CanonicalRequest(c) || Behind(l, c.observed) || !(c.checked < r.request.expiresAt)
       || |l.requests| >= CAPACITY || c.id in l.requests || c.id == "" || r.request.nonceDigest == "" then None
    else Some(l.(clock := Some(c.observed), requests := l.requests[c.id := r],
                 nonces := l.nonces[r.request.nonceDigest := c.id]))
  }

  /** A request a live exchange may use under this snapshot and configuration. */
  predicate UsableRequest(env: Env, r: BrokerRequest, s: TrustSnapshot, c: Configuration, now: Time)
  {
    && !r.request.consumed && r.request.trustId == s.trust.id && r.request.snapshotId == s.snapshotId
    && r.request.revision == s.approvedRevision && Fresh(r.request.createdAt, r.request.expiresAt, now)
    && r.configurationDigest == env.configDigest(c)
  }

  predicate Usable(env: Env, l: Ledger, id: Key, s: TrustSnapshot, c: Configuration, now: Time)
  {
    id in l.requests && UsableRequest(env, l.requests[id], s, c, now)
  }

  /** The size of a raw token, its client and the windows it must meet, upstream or broker-issued. */
  predicate TokenAccepted(env: Env, raw: string, issuer: string, clientId: string, until: Time, nonceDigest: string,
                          created: Time, now: Time)
  {
    var t := env.decodeToken(raw).token;
    && 0 < |raw| <= 32768 && env.grammar.exact(clientId) && now < until
    && t.issuer == issuer && env.grammar.exact(t.subject) && t.audience == [clientId]
    && (t.azp == "" || t.azp == clientId) && (t.kind == "" || t.kind == "ID") && env.digest(t.nonce) == nonceDigest
    && now < t.expiry && t.issuedAt != 0 && t.issuedAt <= now && created - SECOND <= t.issuedAt
    && t.expiry - t.issuedAt <= env.maxLifetime && t.authTime > 0 && O.Authenticated(t) <= t.issuedAt
    && now - O.Authenticated(t) <= env.maxLifetime && t.notBefore <= O.UnixSeconds(now)
  }

  /** Section 4.1.4 of the SAML 2.0 Profiles, as narrowed by this verifier. */
  predicate AssertionAccepted(env: Env, a: SamlAssertion, s: TrustSnapshot, c: Configuration, correlation: string,
                              created: Time, now: Time)
  {
    && a.issuer == s.trust.upstreamIssuer && env.grammar.exact(a.nameId) && a.profileOk
    && a.audience == c.entityId && a.inResponseTo == correlation && a.recipient == c.acsUrl
    && now < a.confirmedUntil && a.notBefore <= now && now < a.notOnOrAfter
    && a.notOnOrAfter - a.notBefore <= env.maxLifetime
    && a.issueInstant <= now && created - SECOND <= a.issueInstant
    && a.authnInstant != 0 && a.authnInstant <= now && now - a.authnInstant <= env.maxLifetime
    && a.sessionUntil.Some? && now < a.sessionUntil.value && env.grammar.exact(a.classRef)
  }

  datatype Evidence = Evidence(trustId: string, nonce: string, providerRoute: string, correlation: string,
                               assertion: string)

  /** What the read transaction of Capture found: the request the nonce index points at. */
  datatype Found = Found(snapshot: TrustSnapshot, config: Configuration, nonce: string, id: Key, request: BrokerRequest)

  /** The read transaction of Capture: nonce index, then request, which must be usable. */
  function Lookup(env: Env, l: Ledger, s: TrustSnapshot, c: Configuration, nonce: string, now: Time): Option<Found>
  {
    var key := env.digest(nonce);
    if key !in l.nonces || !Usable(env, l, l.nonces[key], s, c, now) then None
    else Some(Found(s, c, nonce, l.nonces[key], l.requests[l.nonces[key]]))
  }

  /** A capture in progress: the request it found by nonce, and when and how it verified the assertion. */
  datatype CaptureCall = CaptureCall(
    snapshot: TrustSnapshot, asked: Asked, input: Evidence, id: Key, read: BrokerRequest, signatureOk: bool,
    again: Option<Asked>, verifiedAt: Time, observed: Time, checked: Time, fencedAt: Time)

  /** What the call's own read transaction found. */
  function FoundBy(k: CaptureCall): Found { Found(k.snapshot, k.asked.config, k.input.nonce, k.id, k.read) }

  /** When the upstream assertion itself ends. */
  function AssertionEnd(env: Env, p: Protocol, assertion: string): Time
  {
    if p == Oidc then env.decodeToken(assertion).token.expiry else env.decodeSaml(assertion).notOnOrAfter
  }

  function ReplayId(env: Env, s: TrustSnapshot, assertion: string): string
  {
    s.trust.upstreamIssuer + "\0" +
    if s.trust.protocol == Oidc then env.digest(assertion) else env.decodeSaml(assertion).id
  }

  predicate UpstreamAccepted(env: Env, k: CaptureCall)
  {
    && k.signatureOk && env.grammar.exact(k.input.nonce) && env.grammar.exact(k.input.correlation)
    && k.input.trustId == k.snapshot.trust.id && k.input.providerRoute == k.asked.config.providerRoute
    && if k.snapshot.trust.protocol == Oidc
       then var u := k.asked.config.upstream;
            TokenAccepted(env, k.input.assertion, k.snapshot.trust.upstreamIssuer, u.clientId, u.validUntil,
                          env.digest(k.input.correlation), k.read.request.createdAt, k.verifiedAt)
       else k.snapshot.trust.protocol == Saml2
            && AssertionAccepted(env, env.decodeSaml(k.input.assertion), k.snapshot, k.asked.config,
                                 k.input.correlation, k.read.request.createdAt, k.verifiedAt)
  }

  function CaptureUntil(env: Env, k: CaptureCall): Time
  {
    var common := Min(Min(k.snapshot.validUntil, k.asked.config.validUntil), k.read.request.expiresAt);
    if k.snapshot.trust.protocol == Oidc then Min(env.decodeToken(k.input.assertion).token.expiry, common)
    else
      var a := env.decodeSaml(k.input.assertion);
      Min(Min(Min(Min(common, a.notOnOrAfter), a.confirmedUntil), k.verifiedAt + env.maxLifetime),
          if a.sessionUntil.Some? then a.sessionUntil.value else 0)
  }

  function Captured(env: Env, k: CaptureCall): Capture
  {
    var s, c, now, until := k.snapshot, k.asked.config, k.verifiedAt, CaptureUntil(env, k);
    var t, a := env.decodeToken(k.input.assertion).token, env.decodeSaml(k.input.assertion);
    var oidc := s.trust.protocol == Oidc;
    var subject := if oidc then t.subject else env.samlSubject(s.trust.upstreamIssuer, c.entityId, a.nameId);
    Capture(
      Principal(k.id, s.trust.id, c.binding.providerId, c.binding.engineInstanceId, s.trust.protocol,
                s.trust.upstreamIssuer, subject, true, now, until, Unresolved),
      Assurance(k.id, s.trust.id, c.binding.providerId, c.binding.engineInstanceId, s.trust.protocol,
                s.trust.upstreamIssuer, subject,
                if oidc then Some(OidcAssurance(true, t.acr, t.amr, O.Authenticated(t), None, s.trust.upstreamIssuer,
                                                c.upstream.clientId))
                else None,
                if oidc then None
                else Some(SamlAssurance(a.classRef, a.authnInstant,
                                        if a.sessionUntil.Some? then a.sessionUntil.value else 0)),
                Unmapped, s.trust.assurancePolicyReference, now, until),
      env.digest(k.input.assertion), ReplayId(env, s, k.input.assertion))
  }

  /** The assertion verifies and its evidence is a valid bundle. */
  predicate CaptureVerified(env: Env, k: CaptureCall)
  {
    var cap := Captured(env, k);
    && ConfigurationFits(env, k.snapshot, k.asked) && UpstreamAccepted(env, k)
    && ValidateBundle(env.grammar, Bundle(k.snapshot.trust, cap.principal, cap.assurance))
    && ConfigurationStands(env, k.snapshot, k.asked.config, k.again)
  }

  /** Store the capture and fence its replay ID for the longest lifetime an assertion may have. */
  function CaptureTx(env: Env, l: Ledger, k: CaptureCall): Option<Ledger>
  {
    if CaptureVerified(env, k) then CaptureCommitTx(env, l, k, Captured(env, k)) else None
  }

  function CaptureCommitTx(env: Env, l: Ledger, k: CaptureCall, cap: Capture): Option<Ledger>
  {
    if Behind(l, k.observed) || !Usable(env, l, k.id, k.snapshot, k.asked.config, k.checked) then None
    else StoreTx(l, k.id, cap, env.digest(cap.replayId), k.fencedAt + env.maxLifetime, k.observed)
  }

  function StoreTx(l: Ledger, id: Key, cap: Capture, key: Key, fence: Time, observed: Time): Option<Ledger>
  {
    if id in l.captures || key in l.replay || key == "" || id == "" then None
    else Some(l.(clock := Some(observed), replay := l.replay[key := fence], captures := l.captures[id := cap]))
  }

  datatype CompleteCall = CompleteCall(
    snapshot: TrustSnapshot, asked: Asked, id: Key, issuer: string, state: string, browserSecret: string,
    pkceVerifier: string, observed: Time, checked: Time, captureChecked: Time)

  predicate CompleteAdmitted(env: Env, c: CompleteCall)
  {
    ConfigurationFits(env, c.snapshot, c.asked) && env.grammar.uuid(c.id) && c.issuer == c.asked.config.issuer
    && |c.state| <= 512 && 32 <= |c.browserSecret| <= 512
  }

  /** First transaction of Complete: burn the request that has a live capture. */
  function BurnTx(env: Env, l: Ledger, c: CompleteCall): Option<Ledger>
  {
    if !CompleteAdmitted(env, c) || Behind(l, c.observed)
       || !Usable(env, l, c.id, c.snapshot, c.asked.config, c.checked) || c.id == "" then None
    else
      var r := l.requests[c.id];
      if env.digest(c.state) != r.request.stateDigest || env.digest(c.browserSecret) != r.request.sessionDigest
         || env.digest(c.pkceVerifier) != r.pkceDigest || c.id !in l.captures
         || !(c.captureChecked < l.captures[c.id].assurance.expiresAt) then None
      else Some(l.(clock := Some(c.observed),
                   requests := l.requests[c.id := r.(request := r.request.(consumed := true))]))
  }

  /** The code exchange, the assurance mapping and the clock readings of the second transaction. */
  datatype Answers = Answers(rawToken: Option<string>, signatureOk: bool, exchangedAt: Time, mapped: Option<Assurance>,
                             again: Option<Asked>, observed: Time, checked: Time)

  function Verified(env: Env, c: CompleteCall, r: BrokerRequest, cap: Capture, a: Answers): Option<StoredEvent>
  {
    if a.rawToken.None? || !a.signatureOk then None
    else
      var t, config := env.decodeToken(a.rawToken.value), c.asked.config;
      if !TokenAccepted(env, a.rawToken.value, config.issuer, config.clientId, config.validUntil,
                        r.request.nonceDigest, r.request.createdAt, a.exchangedAt)
         || !env.grammar.digest(t.evidenceDigest) || t.evidenceDigest != cap.digest then None
      else
        var before := cap.assurance.(expiresAt := Min(cap.assurance.expiresAt, t.token.expiry));
        if a.mapped.None? || !O.MappingAllowed(before, a.mapped.value)
           || !ValidateBundle(env.grammar, Bundle(c.snapshot.trust, cap.principal, a.mapped.value))
           || !ConfigurationStands(env, c.snapshot, config, a.again) then None
        else Some(StoredEvent(c.snapshot.snapshotId, c.snapshot.approvedRevision,
                              Bundle(c.snapshot.trust, cap.principal, a.mapped.value), false))
  }

  function CommitTx(l: Ledger, id: Key, e: StoredEvent, observed: Time, checked: Time): Option<Ledger>
  {
    if Behind(l, observed) || !(checked < e.bundle.assurance.expiresAt) || id in l.verified || id == "" then None
    else Some(l.(clock := Some(observed), verified := l.verified[id := e]))
  }

  function VerifyTx(env: Env, l: Ledger, id: Key, s: TrustSnapshot, observed: Time, checked: Time): Option<Ledger>
  {
    if !env.grammar.uuid(id) || Behind(l, observed) || id !in l.verified || id == "" then None
    else
      var e := l.verified[id];
      if e.consumed || e.snapshotId != s.snapshotId || e.revision != s.approvedRevision || e.bundle.trust != s.trust
         || !ActiveSnapshot(env.grammar, s, checked) || !(checked < e.bundle.assurance.expiresAt) then None
      else Some(l.(clock := Some(observed), verified := l.verified[id := e.(consumed := true)]))
  }

  datatype Drops = Drops(requests: set<Key>, captures: set<Key>, verified: set<Key>, replay: set<Key>)

  function RequestExpiry(r: BrokerRequest): Time { r.request.expiresAt }

  function CaptureExpiry(c: Capture): Time { c.assurance.expiresAt }

  function EventExpiry(e: StoredEvent): Time { e.bundle.assurance.expiresAt }

  function FenceExpiry(t: Time): Time { t }

  function NoncesOf(requests: map<Key, BrokerRequest>, ids: set<Key>): set<Key>
    requires ids <= requests.Keys
  {
    set id | id in ids :: requests[id].request.nonceDigest
  }

  function ExpiredKeys<V>(m: map<Key, V>, now: Time, expiry: V -> Time): set<Key>
  {
    set k | k in m && expiry(m[k]) <= now
  }

  /** Everything that has expired: what a batch with a large enough limit removes. */
  function AllExpired(l: Ledger, now: Time): Drops
  {
    Drops(ExpiredKeys(l.requests, now, RequestExpiry), ExpiredKeys(l.captures, now, CaptureExpiry),
          ExpiredKeys(l.verified, now, EventExpiry), ExpiredKeys(l.replay, now, FenceExpiry))
  }

  function Records(l: Ledger): nat { |l.requests| + |l.captures| + |l.verified| + |l.replay| }

  /** Maintenance: any set of expired records may go; a request takes its nonce entry with it. */
  function PruneTx(l: Ledger, observed: Time, now: Time, d: Drops): Option<Ledger>
  {
    if Behind(l, observed) || !O.Expired(l.requests, d.requests, now, RequestExpiry)
       || !O.Expired(l.captures, d.captures, now, CaptureExpiry) || !O.Expired(l.verified, d.verified, now, EventExpiry)
       || !O.Expired(l.replay, d.replay, now, FenceExpiry) then None
    else Some(l.(clock := Some(observed), requests := l.requests - d.requests,
                 nonces := l.nonces - NoncesOf(l.requests, d.requests), captures := l.captures - d.captures,
                 verified := l.verified - d.verified, replay := l.replay - d.replay))
  }
}
