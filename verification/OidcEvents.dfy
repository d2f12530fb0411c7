/** The OIDC authentication-event ledger: its transactions, their interleavings, and replay safety. */
module OidcEvents {
  import opened KeyOrder
  import opened Storage
  import opened Models

  /** The claims a raw ID token carries. */
  datatype IdToken = IdToken(
    issuer: string, subject: string, audience: seq<string>, azp: string, kind: string, nonce: string,
    expiry: Time, issuedAt: Time, authTime: int, notBefore: int, acr: string, amr: Option<seq<string>>)

  /** Decoding and hashing are arbitrary functions of the raw bytes. */
  datatype Env = Env(grammar: Grammar, digest: string -> string, decode: string -> IdToken, maxLifetime: int)

  datatype Configuration = Configuration(trustId: string, snapshotId: string, clientId: string, revision: nat,
                                         binding: Binding, validUntil: Time)

  /** The durable state; the clock is the high-water mark. */
  datatype Ledger = Ledger(requests: map<Key, StoredRequest>, events: map<Key, StoredEvent>,
                           replay: map<Key, Time>, clock: Option<Time>)

  datatype BeginCall = BeginCall(snapshot: TrustSnapshot, sessionDigest: string, id: Key, state: string,
                                 nonce: string, entered: Time, now: Time, observed: Time, checked: Time)

  datatype CompleteCall = CompleteCall(id: Key, state: string, sessionSecret: string, rawToken: string,
                                       snapshot: TrustSnapshot, entered: Time, observed: Time, checked: Time)

  /** What the second half of a Complete call learns from its authorities, and its clock readings. */
  datatype Answers = Answers(config: Option<Configuration>, keysOk: bool, signatureOk: bool,
                             mapped: Option<Assurance>, configured: Time, now: Time, observed: Time, checked: Time)

  datatype VerifyCall = VerifyCall(id: Key, snapshot: TrustSnapshot, observed: Time, checked: Time)

  /** The records one maintenance transaction removes. */
  datatype Drops = Drops(requests: set<Key>, events: set<Key>, replay: set<Key>)

  /** Every transaction first raises the watermark, and is refused by a clock behind it. */
  function ObserveClock(l: Ledger, now: Time): Option<Ledger>
  {
    if l.clock.Some? && now < l.clock.value then None else Some(l.(clock := Some(now)))
  }

  function Request(env: Env, c: BeginCall): StoredRequest
  {
    StoredRequest(c.id, c.snapshot.trust.id, c.snapshot.snapshotId, c.snapshot.approvedRevision, c.sessionDigest,
                  env.digest(c.state), env.digest(c.nonce), c.now, Min(c.snapshot.validUntil, c.now + 5 * MINUTE),
                  false)
  }

  function BeginTx(env: Env, l: Ledger, c: BeginCall): Option<Ledger>
  {
    if !env.grammar.digest(c.sessionDigest) || !ActiveSnapshot(env.grammar, c.snapshot, c.entered)
       || c.snapshot.trust.protocol != Oidc || c.id == "" then None
    else
      match ObserveClock(l, c.observed)
      case None => None
      case Some(o) =>
        var r := Request(env, c);
        if c.checked < r.expiresAt then Some(o.(requests := o.requests[c.id := r])) else None
  }

  predicate Correlated(env: Env, r: StoredRequest, c: CompleteCall)
  {
    && !r.consumed && r.trustId == c.snapshot.trust.id && r.snapshotId == c.snapshot.snapshotId
    && r.revision == c.snapshot.approvedRevision && Fresh(r.createdAt, r.expiresAt, c.checked)
    && env.digest(c.state) == r.stateDigest && env.digest(c.sessionSecret) == r.sessionDigest
  }

  predicate CompleteAdmitted(env: Env, c: CompleteCall)
  {
    && env.grammar.uuid(c.id) && 0 < |c.rawToken| <= 32768 && 32 <= |c.sessionSecret| <= 512 && |c.state| <= 512
    && ActiveSnapshot(env.grammar, c.snapshot, c.entered) && c.snapshot.trust.protocol == Oidc && c.id != ""
  }

  /** First transaction of Complete: burn the correlated request. */
  function BurnTx(env: Env, l: Ledger, c: CompleteCall): Option<Ledger>
  {
    if !CompleteAdmitted(env, c) then None
    else
      match ObserveClock(l, c.observed)
      case None => None
      case Some(o) =>
        if c.id in o.requests && Correlated(env, o.requests[c.id], c)
        then Some(o.(requests := o.requests[c.id := o.requests[c.id].(consumed := true)]))
        else None
  }

  function Authenticated(t: IdToken): Time { UNIX_EPOCH + t.authTime * SECOND }

  function UnixSeconds(t: Time): int { (t - UNIX_EPOCH) / SECOND }

  predicate ConfigurationFits(env: Env, s: TrustSnapshot, c: Configuration, now: Time)
  {
    && c.trustId == s.trust.id && c.snapshotId == s.snapshotId && c.revision == s.approvedRevision
    && c.binding == s.trust.binding && env.grammar.exact(c.clientId) && now < c.validUntil
  }

  /** Section 3.1.3.7 of OpenID Connect Core 1.0, as narrowed by this verifier. */
  predicate TokenAccepted(env: Env, t: IdToken, s: TrustSnapshot, c: Configuration, r: StoredRequest, now: Time)
  {
    && t.issuer == s.trust.upstreamIssuer && env.grammar.exact(t.subject) && t.audience == [c.clientId]
    && (t.azp == "" || t.azp == c.clientId) && (t.kind == "" || t.kind == "ID")
    && env.digest(t.nonce) == r.nonceDigest
    && now < t.expiry && t.issuedAt != 0 && t.issuedAt <= now && t.expiry - t.issuedAt <= env.maxLifetime
    && r.createdAt - SECOND <= t.issuedAt && t.authTime > 0 && Authenticated(t) <= t.issuedAt
    && now - Authenticated(t) <= env.maxLifetime && t.notBefore <= UnixSeconds(now) && env.grammar.exact(t.acr)
  }

  function Until(env: Env, t: IdToken, s: TrustSnapshot, c: Configuration, r: StoredRequest, now: Time): Time
  {
    Min(Min(Min(Min(t.expiry, s.validUntil), c.validUntil), r.expiresAt), now + env.maxLifetime)
  }

  function EvidenceOf(env: Env, call: CompleteCall, r: StoredRequest, c: Configuration, now: Time): (Principal,
                                                                                                     Assurance)
  {
    var s, t := call.snapshot, env.decode(call.rawToken);
    var until := Until(env, t, s, c, r, now);
    (Principal(call.id, s.trust.id, c.binding.providerId, c.binding.engineInstanceId, Oidc, t.issuer, t.subject,
               true, now, until, Unresolved),
     Assurance(call.id, s.trust.id, c.binding.providerId, c.binding.engineInstanceId, Oidc, t.issuer, t.subject,
               Some(OidcAssurance(true, t.acr, t.amr, Authenticated(t), None, t.issuer, c.clientId)), None,
               Unmapped, s.trust.assurancePolicyReference, now, until))
  }

  /** A mapper may only set its mapping result and shorten the expiry. */
  predicate MappingAllowed(before: Assurance, mapped: Assurance)
  {
    mapped.(mapping := before.mapping, expiresAt := before.expiresAt) == before && mapped.expiresAt <= before.expiresAt
  }

  /** The verification between the two transactions of Complete. */
  function Verified(env: Env, call: CompleteCall, r: StoredRequest, a: Answers): Option<StoredEvent>
  {
    if a.config.None? || !ConfigurationFits(env, call.snapshot, a.config.value, a.configured)
       || !a.keysOk || !a.signatureOk
       || !TokenAccepted(env, env.decode(call.rawToken), call.snapshot, a.config.value, r, a.now) then None
    else
      var s := call.snapshot;
      var (p, before) := EvidenceOf(env, call, r, a.config.value, a.now);
      if !ValidateBundle(env.grammar, Bundle(s.trust, p, before)) || a.mapped.None?
         || !MappingAllowed(before, a.mapped.value)
         || !ValidateBundle(env.grammar, Bundle(s.trust, p, a.mapped.value)) then None
      else Some(StoredEvent(s.snapshotId, s.approvedRevision, Bundle(s.trust, p, a.mapped.value), false))
  }

  /** Second transaction of Complete: fence the raw token and store the event. */
  function CommitTx(env: Env, l: Ledger, call: CompleteCall, event: StoredEvent, observed: Time,
                    checked: Time): Option<Ledger>
  {
    match ObserveClock(l, observed)
    case None => None
    case Some(o) =>
      var key := env.digest(call.rawToken);
      if !(checked < event.bundle.assurance.expiresAt) || key in o.replay || call.id in o.events || key == "" then None
      else Some(o.(replay := o.replay[key := env.decode(call.rawToken).expiry],
                   events := o.events[call.id := event]))
  }

  predicate Releasable(env: Env, e: StoredEvent, c: VerifyCall)
  {
    && !e.consumed && e.snapshotId == c.snapshot.snapshotId && e.revision == c.snapshot.approvedRevision
    && e.bundle.trust.id == c.snapshot.trust.id && ActiveSnapshot(env.grammar, c.snapshot, c.checked)
    && c.checked < e.bundle.assurance.expiresAt && e.bundle.trust == c.snapshot.trust
  }

  function VerifyTx(env: Env, l: Ledger, c: VerifyCall): Option<Ledger>
  {
    if !env.grammar.uuid(c.id) || c.snapshot.trust.protocol != Oidc || c.id == "" then None
    else
      match ObserveClock(l, c.observed)
      case None => None
      case Some(o) =>
        if c.id in o.events && Releasable(env, o.events[c.id], c)
        then Some(o.(events := o.events[c.id := o.events[c.id].(consumed := true)]))
        else None
  }

  function RequestExpiry(r: StoredRequest): Time { r.expiresAt }

  function EventExpiry(e: StoredEvent): Time { Min(e.bundle.principal.expiresAt, e.bundle.assurance.expiresAt) }

  function FenceExpiry(t: Time): Time { t }

  predicate Expired<V>(m: map<Key, V>, gone: set<Key>, now: Time, expiry: V -> Time)
  {
    forall k :: k in gone ==> k in m && expiry(m[k]) <= now
  }

  /** Maintenance: any set of records already expired at `now` may go. */
  function PruneTx(l: Ledger, now: Time, d: Drops): Option<Ledger>
  {
    match ObserveClock(l, now)
    case None => None
    case Some(o) =>
      if Expired(o.requests, d.requests, now, RequestExpiry) && Expired(o.events, d.events, now, EventExpiry)
         && Expired(o.replay, d.replay, now, FenceExpiry)
      then Some(o.(requests := o.requests - d.requests, events := o.events - d.events, replay := o.replay - d.replay))
      else None
  }

  /* ---- Interleaved calls ---- */

  datatype InFlight = InFlight(call: CompleteCall, request: StoredRequest)

  datatype Committed = Committed(id: Key, rawToken: string, event: StoredEvent)

  datatype Released = Released(id: Key, principal: Principal, assurance: Assurance)

  /** The ledger, the Complete calls between their transactions, and what has been observed from outside. */
  datatype World = World(ledger: Ledger, issued: set<Key>, inFlight: multiset<InFlight>,
                         commits: seq<Committed>, releases: seq<Released>)

  datatype Step =
    | DoBegin(begin: BeginCall)
    | DoBurn(complete: CompleteCall)
    | DoCommit(pending: InFlight, answers: Answers)
    | DoVerify(verify: VerifyCall)
    | DoPrune(now: Time, drops: Drops)

  /** Random request IDs are fresh, and the clock does not run backwards inside one transaction. */
  predicate Plausible(w: World, s: Step)
  {
    match s
    case DoBegin(c) => c.id !in w.issued
    case DoCommit(p, a) => a.observed <= a.checked
    case DoVerify(c) => c.observed <= c.checked
    case _ => true
  }

  function Apply(env: Env, w: World, s: Step): World
  {
    match s
    case DoBegin(c) =>
      (match BeginTx(env, w.ledger, c)
       case None => w
       case Some(l) => w.(ledger := l, issued := w.issued + {c.id}))
    case DoBurn(c) =>
      (match BurnTx(env, w.ledger, c)
       case None => w
       case Some(l) =>
         assert c.id in l.requests;
         w.(ledger := l, inFlight := w.inFlight + multiset{InFlight(c, l.requests[c.id])}))
    case DoCommit(p, a) =>
      if p !in w.inFlight then w
      else
        (match Verified(env, p.call, p.request, a)
         case None => w
         case Some(event) =>
           match CommitTx(env, w.ledger, p.call, event, a.observed, a.checked)
           case None => w
           case Some(l) => w.(ledger := l, inFlight := w.inFlight - multiset{p},
                              commits := w.commits + [Committed(p.call.id, p.call.rawToken, event)]))
    case DoVerify(c) =>
      (match VerifyTx(env, w.ledger, c)
       case None => w
       case Some(l) =>
         assert c.id in l.events;
         var b := l.events[c.id].bundle;
         w.(ledger := l, releases := w.releases + [Released(c.id, b.principal, b.assurance)]))
    case DoPrune(now, d) =>
      match PruneTx(w.ledger, now, d)
      case None => w
      case Some(l) => w.(ledger := l)
  }

  const Initial := World(Ledger(map[], map[], map[], None), {}, multiset{}, [], [])

  ghost predicate Follows(env: Env, steps: seq<Step>, ws: seq<World>, i: nat)
    requires i < |steps| < |ws|
  {
    Plausible(ws[i], steps[i]) && ws[i + 1] == Apply(env, ws[i], steps[i])
  }

  /** The worlds a sequence of steps passes through; a refused call changes nothing. */
  ghost predicate Run(env: Env, steps: seq<Step>, ws: seq<World>)
  {
    && |ws| == |steps| + 1 && ws[0] == Initial
    && forall i: nat {:trigger Follows(env, steps, ws, i)} :: i < |steps| ==> Follows(env, steps, ws, i)
  }

  /* ---- Invariants ---- */

  /** The clock has passed `t`. */
  predicate Past(l: Ledger, t: Time) { l.clock.Some? && t <= l.clock.value }

  /** Each committed token is still fenced, or the watermark is past its expiry. */
  ghost predicate Fenced(env: Env, w: World)
  {
    forall i :: 0 <= i < |w.commits| ==>
      var raw := w.commits[i].rawToken;
      var key := env.digest(raw);
      Past(w.ledger, env.decode(raw).expiry)
      || (key in w.ledger.replay && env.decode(raw).expiry <= w.ledger.replay[key])
  }

  ghost predicate NoTokenTwice(w: World)
  {
    forall i, j :: 0 <= i < j < |w.commits| ==> w.commits[i].rawToken != w.commits[j].rawToken
  }

  /** Once an ID is burned it stays burned, and at most one call holds it. */
  ghost predicate Spent(w: World, id: Key)
  {
    id in w.issued && (id in w.ledger.requests ==> w.ledger.requests[id].consumed)
  }

  /** At most one call in flight holds an ID, and it has been spent. */
  ghost predicate CallsDistinct(w: World)
  {
    && (forall p :: p in w.inFlight ==> w.inFlight[p] == 1 && Spent(w, p.call.id))
    && (forall p, q :: p in w.inFlight && q in w.inFlight && p.call.id == q.call.id ==> p == q)
  }

  /** Each commit spent its own ID, and no call in flight holds it. */
  ghost predicate CommitsDistinct(w: World)
  {
    && (forall i :: 0 <= i < |w.commits| ==> Spent(w, w.commits[i].id))
    && (forall i, p :: 0 <= i < |w.commits| && p in w.inFlight ==> w.commits[i].id != p.call.id)
    && (forall i, j :: 0 <= i < j < |w.commits| ==> w.commits[i].id != w.commits[j].id)
  }

  ghost predicate CallsHoldTheirIds(w: World)
  {
    (forall id :: id in w.ledger.requests ==> id in w.issued) && CallsDistinct(w) && CommitsDistinct(w)
  }

  /** `e` is, up to its consumed mark, the event committed under `id`. */
  ghost predicate CommittedAs(commits: seq<Committed>, id: Key, e: StoredEvent)
  {
    exists i :: 0 <= i < |commits| && commits[i].id == id && commits[i].event.(consumed := e.consumed) == e
  }

  /** `r` hands out the evidence committed under its ID. */
  ghost predicate ReleasedFrom(commits: seq<Committed>, r: Released)
  {
    exists i :: 0 <= i < |commits| && commits[i].id == r.id
      && commits[i].event.bundle.principal == r.principal && commits[i].event.bundle.assurance == r.assurance
  }

  /** Stored and released evidence is the committed evidence; a released event is consumed or gone. */
  ghost predicate EvidenceTraced(w: World)
  {
    && (forall id :: id in w.ledger.events ==> CommittedAs(w.commits, id, w.ledger.events[id]))
    && (forall r :: 0 <= r < |w.releases| ==> ReleasedFrom(w.commits, w.releases[r]))
    && (forall r :: 0 <= r < |w.releases| && w.releases[r].id in w.ledger.events ==>
          w.ledger.events[w.releases[r].id].consumed)
    && (forall r, q :: 0 <= r < q < |w.releases| ==> w.releases[r].id != w.releases[q].id)
  }

  ghost predicate Safe(env: Env, w: World)
  {
    Fenced(env, w) && NoTokenTwice(w) && CallsHoldTheirIds(w) && EvidenceTraced(w)
  }

  /** A stored event never outlives the token it came from. */
  lemma EventWithinToken(env: Env, call: CompleteCall, r: StoredRequest, a: Answers)
    requires Verified(env, call, r, a).Some?
    ensures Verified(env, call, r, a).value.bundle.assurance.expiresAt <= env.decode(call.rawToken).expiry
  {
  }

  /**
   * In a fenced world a token that was committed before can be committed again only if the clock
   * ran backwards between the two readings of the committing transaction.
   */
  lemma RecommitNeedsClockRollback(env: Env, w: World, p: InFlight, a: Answers, i: nat)
    requires Fenced(env, w) && i < |w.commits| && w.commits[i].rawToken == p.call.rawToken
    requires Apply(env, w, DoCommit(p, a)) != w
    ensures a.checked < env.decode(p.call.rawToken).expiry <= a.observed
  {
    EventWithinToken(env, p.call, p.request, a);
    assert Past(w.ledger, env.decode(p.call.rawToken).expiry);
  }

  lemma CommitKeepsTokensUnique(env: Env, w: World, p: InFlight, a: Answers)
    requires Fenced(env, w) && NoTokenTwice(w) && a.observed <= a.checked
    ensures Fenced(env, Apply(env, w, DoCommit(p, a))) && NoTokenTwice(Apply(env, w, DoCommit(p, a)))
  {
    var w' := Apply(env, w, DoCommit(p, a));
    if w' != w {
      forall i | 0 <= i < |w.commits| ensures w.commits[i].rawToken != p.call.rawToken {
        if w.commits[i].rawToken == p.call.rawToken { RecommitNeedsClockRollback(env, w, p, a, i); }
      }
    }
  }

  lemma StepKeepsFences(env: Env, w: World, s: Step)
    requires Fenced(env, w) && NoTokenTwice(w) && Plausible(w, s)
    ensures Fenced(env, Apply(env, w, s)) && NoTokenTwice(Apply(env, w, s))
  {
    match s
    case DoCommit(p, a) => CommitKeepsTokensUnique(env, w, p, a);
    case _ =>
  }

  /** What a Complete call changes when it commits. */
  lemma CommitEffect(env: Env, w: World, p: InFlight, a: Answers) returns (e: StoredEvent)
    requires Apply(env, w, DoCommit(p, a)) != w
    ensures p in w.inFlight && p.call.id !in w.ledger.events && !e.consumed
    ensures var w' := Apply(env, w, DoCommit(p, a));
            && w'.inFlight == w.inFlight - multiset{p} && w'.issued == w.issued && w'.releases == w.releases
            && w'.commits == w.commits + [Committed(p.call.id, p.call.rawToken, e)]
            && w'.ledger.requests == w.ledger.requests && w'.ledger.events == w.ledger.events[p.call.id := e]
  {
    e := Verified(env, p.call, p.request, a).value;
  }

  lemma CommitRemovesCall(w: World, w': World, p: InFlight)
    requires CallsDistinct(w) && p in w.inFlight && w'.inFlight == w.inFlight - multiset{p}
    ensures forall q :: q in w'.inFlight ==> q in w.inFlight && w'.inFlight[q] == 1 && q.call.id != p.call.id
  {
    forall q | q in w'.inFlight ensures q in w.inFlight && w'.inFlight[q] == 1 && q.call.id != p.call.id {
      assert q in w.inFlight && w.inFlight[p] == 1;
    }
  }

  lemma CommitKeepsCalls(w: World, w': World, p: InFlight)
    requires CallsDistinct(w) && p in w.inFlight && w'.inFlight == w.inFlight - multiset{p}
    requires forall id :: Spent(w, id) ==> Spent(w', id)
    ensures CallsDistinct(w')
  {
    CommitRemovesCall(w, w', p);
  }

  lemma CommitKeepsCommits(w: World, w': World, p: InFlight, c: Committed)
    requires CommitsDistinct(w) && p in w.inFlight && c.id == p.call.id && w'.commits == w.commits + [c]
    requires forall q :: q in w'.inFlight ==> q in w.inFlight && q.call.id != p.call.id
    requires Spent(w, p.call.id) && forall id :: Spent(w, id) ==> Spent(w', id)
    ensures CommitsDistinct(w')
  {
  }

  lemma CommitKeepsIds(w: World, w': World, p: InFlight, e: StoredEvent)
    requires CallsHoldTheirIds(w) && p in w.inFlight
    requires w'.inFlight == w.inFlight - multiset{p} && w'.issued == w.issued
    requires w'.ledger.requests == w.ledger.requests
    requires w'.commits == w.commits + [Committed(p.call.id, p.call.rawToken, e)]
    ensures CallsHoldTheirIds(w')
  {
    forall id | Spent(w, id) ensures Spent(w', id) { }
    CommitKeepsCalls(w, w', p);
    CommitRemovesCall(w, w', p);
    CommitKeepsCommits(w, w', p, Committed(p.call.id, p.call.rawToken, e));
  }

  lemma BurnKeepsIds(env: Env, w: World, c: CompleteCall)
    requires CallsHoldTheirIds(w)
    ensures CallsHoldTheirIds(Apply(env, w, DoBurn(c)))
  {
    var w' := Apply(env, w, DoBurn(c));
    if w' != w {
      assert !w.ledger.requests[c.id].consumed;
      var n := InFlight(c, w'.ledger.requests[c.id]);
      assert w'.inFlight == w.inFlight + multiset{n};
      forall p | p in w.inFlight ensures p.call.id != c.id && Spent(w', p.call.id) { assert Spent(w, p.call.id); }
      forall i | 0 <= i < |w.commits| ensures w.commits[i].id != c.id && Spent(w', w.commits[i].id) {
        assert Spent(w, w.commits[i].id);
      }
      forall p | p in w'.inFlight ensures p == n || p in w.inFlight { }
      assert n !in w.inFlight;
    }
  }

  /** Steps that neither issue nor burn: requests keep their marks or disappear. */
  lemma OtherStepsKeepIds(w: World, w': World)
    requires CallsHoldTheirIds(w)
    requires w'.inFlight == w.inFlight && w'.commits == w.commits && w.issued <= w'.issued
    requires forall id :: id in w'.ledger.requests ==> id in w'.issued
    requires forall id :: id in w'.ledger.requests && id in w.issued ==>
               id in w.ledger.requests && w'.ledger.requests[id] == w.ledger.requests[id]
    ensures CallsHoldTheirIds(w')
  {
    forall id | Spent(w, id) ensures Spent(w', id) { }
  }

  lemma StepKeepsIds(env: Env, w: World, s: Step)
    requires CallsHoldTheirIds(w) && Plausible(w, s)
    ensures CallsHoldTheirIds(Apply(env, w, s))
  {
    var w' := Apply(env, w, s);
    match s
    case DoBurn(c) => BurnKeepsIds(env, w, c);
    case DoCommit(p, a) =>
      if w' != w {
        var e := CommitEffect(env, w, p, a);
        CommitKeepsIds(w, w', p, e);
      }
    case DoBegin(c) => OtherStepsKeepIds(w, w');
    case DoVerify(c) => OtherStepsKeepIds(w, w');
    case DoPrune(now, d) => OtherStepsKeepIds(w, w');
  }

  lemma TracesExtend(commits: seq<Committed>, more: seq<Committed>)
    requires commits <= more
    ensures forall id, e :: CommittedAs(commits, id, e) ==> CommittedAs(more, id, e)
    ensures forall r :: ReleasedFrom(commits, r) ==> ReleasedFrom(more, r)
  {
    forall id, e | CommittedAs(commits, id, e) ensures CommittedAs(more, id, e) {
      var i :| 0 <= i < |commits| && commits[i].id == id && commits[i].event.(consumed := e.consumed) == e;
      assert more[i] == commits[i];
    }
    forall r | ReleasedFrom(commits, r) ensures ReleasedFrom(more, r) {
      var i :| 0 <= i < |commits| && commits[i].id == r.id
        && commits[i].event.bundle.principal == r.principal && commits[i].event.bundle.assurance == r.assurance;
      assert more[i] == commits[i];
    }
  }

  lemma CommitKeepsEvidence(w: World, w': World, p: InFlight, e: StoredEvent)
    requires CallsHoldTheirIds(w) && EvidenceTraced(w) && p in w.inFlight && p.call.id !in w.ledger.events
    requires w'.releases == w.releases && w'.ledger.events == w.ledger.events[p.call.id := e]
    requires w'.commits == w.commits + [Committed(p.call.id, p.call.rawToken, e)]
    ensures EvidenceTraced(w')
  {
    TracesExtend(w.commits, w'.commits);
    var n := |w.commits|;
    assert w'.commits[n].event.(consumed := e.consumed) == e;
    assert CommittedAs(w'.commits, p.call.id, e);
    forall r | 0 <= r < |w.releases| ensures w.releases[r].id != p.call.id {
      assert ReleasedFrom(w.commits, w.releases[r]);
    }
  }

  /** What a successful Verify call changes. */
  lemma VerifyEffect(env: Env, w: World, c: VerifyCall) returns (e: StoredEvent)
    requires Apply(env, w, DoVerify(c)) != w
    ensures c.id in w.ledger.events && e == w.ledger.events[c.id] && !e.consumed
    ensures var w' := Apply(env, w, DoVerify(c));
            && w'.ledger.events == w.ledger.events[c.id := e.(consumed := true)] && w'.commits == w.commits
            && w'.releases == w.releases + [Released(c.id, e.bundle.principal, e.bundle.assurance)]
  {
    e := w.ledger.events[c.id];
  }

  /** The mark does not matter to where an event came from, and releasing it hands out what was committed. */
  lemma ConsumedTraces(commits: seq<Committed>, id: Key, e: StoredEvent)
    requires CommittedAs(commits, id, e)
    ensures CommittedAs(commits, id, e.(consumed := true))
    ensures ReleasedFrom(commits, Released(id, e.bundle.principal, e.bundle.assurance))
  {
    var i :| 0 <= i < |commits| && commits[i].id == id && commits[i].event.(consumed := e.consumed) == e;
    assert commits[i].event.(consumed := true) == e.(consumed := true);
    assert commits[i].event.bundle == e.bundle;
  }

  lemma ReleaseKeepsEvidence(w: World, w': World, id: Key, e: StoredEvent)
    requires EvidenceTraced(w) && id in w.ledger.events && e == w.ledger.events[id] && !e.consumed
    requires w'.ledger.events == w.ledger.events[id := e.(consumed := true)] && w'.commits == w.commits
    requires w'.releases == w.releases + [Released(id, e.bundle.principal, e.bundle.assurance)]
    ensures EvidenceTraced(w')
  {
    ConsumedTraces(w.commits, id, e);
  }

  lemma StepKeepsEvidence(env: Env, w: World, s: Step)
    requires CallsHoldTheirIds(w) && EvidenceTraced(w)
    ensures EvidenceTraced(Apply(env, w, s))
  {
    var w' := Apply(env, w, s);
    match s
    case DoCommit(p, a) =>
      if w' != w {
        var e := CommitEffect(env, w, p, a);
        CommitKeepsEvidence(w, w', p, e);
      }
    case DoVerify(c) =>
      if w' != w {
        var e := VerifyEffect(env, w, c);
        ReleaseKeepsEvidence(w, w', c.id, e);
      }
    case _ =>
  }

  lemma {:induction false} RunIsSafe(env: Env, steps: seq<Step>, ws: seq<World>, n: nat)
    requires Run(env, steps, ws) && n <= |steps|
    ensures Safe(env, ws[n])
  {
    if n > 0 {
      RunIsSafe(env, steps, ws, n - 1);
      assert Follows(env, steps, ws, n - 1);
      StepKeepsFences(env, ws[n - 1], steps[n - 1]);
      StepKeepsIds(env, ws[n - 1], steps[n - 1]);
      StepKeepsEvidence(env, ws[n - 1], steps[n - 1]);
    }
  }

  /** No raw ID token is ever committed as two events, however fences are pruned and clocks rolled back. */
  lemma ReplaySafety(env: Env, steps: seq<Step>, ws: seq<World>)
    requires Run(env, steps, ws)
    ensures forall n, i, j :: 0 <= n < |ws| && 0 <= i < j < |ws[n].commits| ==>
              ws[n].commits[i].rawToken != ws[n].commits[j].rawToken
  {
    forall n | 0 <= n < |ws| ensures NoTokenTwice(ws[n]) { RunIsSafe(env, steps, ws, n); }
  }

  /** Each event ID's evidence is released at most once, and it is the evidence that was committed. */
  lemma EvidenceReleasedOnce(env: Env, steps: seq<Step>, ws: seq<World>)
    requires Run(env, steps, ws)
    ensures var w := ws[|steps|];
            && (forall i, j :: 0 <= i < j < |w.releases| ==> w.releases[i].id != w.releases[j].id)
            && (forall i :: 0 <= i < |w.releases| ==> ReleasedFrom(w.commits, w.releases[i]))
  {
    RunIsSafe(env, steps, ws, |steps|);
  }
}
