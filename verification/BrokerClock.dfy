/**
 * Why maintenance must not find a fence between its readings: for every environment and every two logins the code
 * admits, there is a run in which one login completes, maintenance reads the clock ahead and removes all that has
 * expired there, the clock falls back, and a second login completes with the same assertion.
 */
module BrokerClock {
  import opened KeyOrder
  import opened Storage
  import opened Models
  import opened BrokerEvents
  import opened BrokerRuns

  /** One login: its event ID, its nonce, and the broker token its code is exchanged for. */
  datatype Login = Login(id: Key, nonce: string, raw: string)

  datatype Scene = Scene(env: Env, snapshot: TrustSnapshot, config: Configuration, first: Login, second: Login,
                         state: string, secret: string, pkce: string, correlation: string, assertion: string,
                         start: Time)

  function AskedOf(sc: Scene): Asked { Asked(sc.start, sc.config, sc.start) }

  function Upstream(sc: Scene): O.IdToken { sc.env.decodeToken(sc.assertion).token }

  predicate LoginFits(sc: Scene, x: Login)
  {
    && sc.env.grammar.uuid(x.id) && x.id != "" && sc.env.grammar.exact(x.nonce) && sc.env.digest(x.nonce) != ""
    && TransactionBinding(x.nonce)
    && TokenAccepted(sc.env, x.raw, sc.config.issuer, sc.config.clientId, sc.config.validUntil, sc.env.digest(x.nonce),
                     sc.start, sc.start)
    && sc.env.decodeToken(x.raw).evidenceDigest == sc.env.digest(sc.assertion)
  }

  predicate AssertionFits(sc: Scene)
  {
    var u, t := sc.config.upstream, Upstream(sc);
    && sc.env.grammar.exact(sc.correlation) && sc.env.grammar.exact(t.acr)
    && (t.amr.Some? ==>
          |t.amr.value| > 0 && forall i :: 0 <= i < |t.amr.value| ==> sc.env.grammar.exact(t.amr.value[i]))
    && TokenAccepted(sc.env, sc.assertion, sc.snapshot.trust.upstreamIssuer, u.clientId, u.validUntil,
                     sc.env.digest(sc.correlation), sc.start, sc.start)
  }

  function FenceKey(sc: Scene): Key { sc.env.digest(ReplayId(sc.env, sc.snapshot, sc.assertion)) }

  /** What the code demands of the two logins and of the assertion they share. */
  predicate Admitted(sc: Scene)
  {
    && sc.start > 0 && sc.snapshot.trust.protocol == Oidc && ConfigurationFits(sc.env, sc.snapshot, AskedOf(sc))
    && sc.first.id != sc.second.id && sc.env.digest(sc.first.nonce) != sc.env.digest(sc.second.nonce)
    && LoginFits(sc, sc.first) && LoginFits(sc, sc.second) && AssertionFits(sc)
    && TransactionBinding(sc.state) && 32 <= |sc.secret| <= 512 && |sc.config.clientId| <= 255
    && sc.env.grammar.digest(sc.env.digest(sc.secret)) && sc.env.grammar.digest(sc.env.digest(sc.assertion))
    && FenceKey(sc) != "" && 0 < sc.env.maxLifetime
  }

  /* ---- The calls ---- */

  function Begin(sc: Scene, x: Login): BeginCall
  {
    BeginCall(sc.snapshot, AskedOf(sc), sc.env.digest(sc.secret), x.id, sc.state, x.nonce, sc.pkce, sc.start, sc.start,
              sc.start)
  }

  function Stored(sc: Scene, x: Login, consumed: bool): BrokerRequest
  {
    var r := Request(sc.env, Begin(sc, x));
    r.(request := r.request.(consumed := consumed))
  }

  function Looked(sc: Scene, x: Login): Found { Found(sc.snapshot, sc.config, x.nonce, x.id, Stored(sc, x, false)) }

  function Capturing(sc: Scene, x: Login): CaptureCall
  {
    CaptureCall(sc.snapshot, AskedOf(sc),
                Evidence(sc.snapshot.trust.id, x.nonce, sc.config.providerRoute, sc.correlation, sc.assertion),
                x.id, Stored(sc, x, false), true, Some(AskedOf(sc)), sc.start, sc.start, sc.start, sc.start)
  }

  function Held(sc: Scene, x: Login): Origin { OriginOf(sc.env, Capturing(sc, x)) }

  function Completing(sc: Scene, x: Login): CompleteCall
  {
    CompleteCall(sc.snapshot, AskedOf(sc), x.id, sc.config.issuer, sc.state, sc.secret, sc.pkce, sc.start, sc.start,
                 sc.start)
  }

  function Burned(sc: Scene, x: Login): InFlight { InFlight(Completing(sc, x), Stored(sc, x, true), Held(sc, x)) }

  /** The assurance a mapper that changes nothing hands back. */
  function Unchanged(sc: Scene, x: Login): Assurance
  {
    var a := Held(sc, x).capture.assurance;
    a.(expiresAt := Min(a.expiresAt, sc.env.decodeToken(x.raw).token.expiry))
  }

  function Answering(sc: Scene, x: Login): Answers
  {
    Answers(Some(x.raw), true, sc.start, Some(Unchanged(sc, x)), Some(AskedOf(sc)), sc.start, sc.start)
  }

  function Event(sc: Scene, x: Login): StoredEvent
  {
    StoredEvent(sc.snapshot.snapshotId, sc.snapshot.approvedRevision,
                Bundle(sc.snapshot.trust, Held(sc, x).capture.principal, Unchanged(sc, x)), false)
  }

  /** When the fence ends. */
  function Later(sc: Scene): Time { sc.start + sc.env.maxLifetime }

  /** A reading at which the fence, the capture, the event and the request have all expired. */
  function Ahead(sc: Scene): Time
  {
    sc.start + if sc.env.maxLifetime < 5 * MINUTE then 5 * MINUTE else sc.env.maxLifetime
  }

  /* ---- Each is accepted ---- */

  lemma RequestFresh(sc: Scene, x: Login)
    requires Admitted(sc)
    ensures var r := Stored(sc, x, false).request; r.createdAt == sc.start && sc.start < r.expiresAt <= Ahead(sc)
  {
  }

  lemma CaptureWindow(sc: Scene, x: Login)
    requires Admitted(sc)
    ensures var c := Held(sc, x).capture;
            sc.start < c.assurance.expiresAt <= Later(sc) && c.principal.expiresAt == c.assurance.expiresAt
    ensures Held(sc, x).fence == Later(sc) && Held(sc, x).id == x.id && Held(sc, x).assertion == sc.assertion
    ensures sc.env.digest(Held(sc, x).capture.replayId) == FenceKey(sc)
    ensures Held(sc, x).capture.digest == sc.env.digest(sc.assertion)
  {
    RequestFresh(sc, x);
  }

  /** The evidence is a valid bundle, also under a shorter expiry. */
  lemma BundleValid(sc: Scene, x: Login, until: Time)
    requires Admitted(sc) && LoginFits(sc, x) && sc.start < until <= Held(sc, x).capture.assurance.expiresAt
    ensures var c := Held(sc, x).capture;
            ValidateBundle(sc.env.grammar, Bundle(sc.snapshot.trust, c.principal, c.assurance.(expiresAt := until)))
  {
    CaptureWindow(sc, x);
    var t := Upstream(sc);
    assert O.Authenticated(t) == UNIX_EPOCH + t.authTime * SECOND;
    assert O.Authenticated(t) != 0;
  }

  lemma CaptureAccepted(sc: Scene, x: Login)
    requires Admitted(sc) && LoginFits(sc, x)
    ensures CaptureVerified(sc.env, Capturing(sc, x))
  {
    CaptureWindow(sc, x);
    var a := Held(sc, x).capture.assurance;
    BundleValid(sc, x, a.expiresAt);
    assert a.(expiresAt := a.expiresAt) == a;
  }

  lemma EventAccepted(sc: Scene, x: Login)
    requires Admitted(sc) && LoginFits(sc, x)
    ensures Verified(sc.env, Completing(sc, x), Stored(sc, x, true), Held(sc, x).capture, Answering(sc, x))
         == Some(Event(sc, x))
    ensures sc.start < Unchanged(sc, x).expiresAt
  {
    CaptureWindow(sc, x);
    BundleValid(sc, x, Unchanged(sc, x).expiresAt);
  }

  /* ---- Each step of the run ---- */

  /** Maintenance takes everything expired, which a batch of 128 covers. */
  predicate WholeBatch(w: World, s: Step)
  {
    s.DoPrune? ==> s.drops == AllExpired(w.ledger, s.now) && Records(w.ledger) <= 128
  }

  predicate Leads(env: Env, w: World, s: Step, v: World)
  {
    Plausible(env, w, s) && WholeBatch(w, s) && v == Apply(env, w, s)
  }

  lemma BeginStep(sc: Scene, w: World, x: Login)
    requires Admitted(sc) && LoginFits(sc, x) && |w.ledger.requests| < CAPACITY && x.id !in w.ledger.requests
    requires w.ledger.clock.Some? ==> w.ledger.clock.value == sc.start
    ensures Apply(sc.env, w, DoBegin(Begin(sc, x))) == w.(
              ledger := w.ledger.(clock := Some(sc.start), requests := w.ledger.requests[x.id := Stored(sc, x, false)],
                                  nonces := w.ledger.nonces[sc.env.digest(x.nonce) := x.id]),
              issued := w.issued + {x.id})
  {
    RequestFresh(sc, x);
    assert Request(sc.env, Begin(sc, x)) == Stored(sc, x, false);
  }

  lemma RequestUsable(sc: Scene, l: Ledger, x: Login)
    requires Admitted(sc) && x.id in l.requests && l.requests[x.id] == Stored(sc, x, false)
    ensures Usable(sc.env, l, x.id, sc.snapshot, sc.config, sc.start)
  {
    RequestFresh(sc, x);
  }

  lemma LookupStep(sc: Scene, w: World, x: Login)
    requires Admitted(sc) && x.id in w.ledger.requests && w.ledger.requests[x.id] == Stored(sc, x, false)
    requires sc.env.digest(x.nonce) in w.ledger.nonces && w.ledger.nonces[sc.env.digest(x.nonce)] == x.id
    ensures Apply(sc.env, w, DoLookup(sc.snapshot, sc.config, x.nonce, sc.start))
         == w.(found := w.found + {Looked(sc, x)})
  {
    RequestUsable(sc, w.ledger, x);
  }

  lemma CaptureCommits(sc: Scene, l: Ledger, x: Login, cap: Capture)
    requires Usable(sc.env, l, x.id, sc.snapshot, sc.config, sc.start) && sc.env.digest(cap.replayId) == FenceKey(sc)
    requires l.clock == Some(sc.start) && x.id !in l.captures && FenceKey(sc) !in l.replay && x.id != ""
             && FenceKey(sc) != ""
    ensures CaptureCommitTx(sc.env, l, Capturing(sc, x), cap)
         == Some(l.(replay := l.replay[FenceKey(sc) := Later(sc)], captures := l.captures[x.id := cap]))
  {
  }

  lemma CaptureStores(sc: Scene, l: Ledger, x: Login)
    requires Admitted(sc) && LoginFits(sc, x)
    ensures CaptureTx(sc.env, l, Capturing(sc, x)) == CaptureCommitTx(sc.env, l, Capturing(sc, x), Held(sc, x).capture)
  {
    CaptureAccepted(sc, x);
  }

  lemma CaptureStep(sc: Scene, w: World, x: Login)
    requires Admitted(sc) && LoginFits(sc, x) && x.id in w.ledger.requests
             && w.ledger.requests[x.id] == Stored(sc, x, false)
    requires w.ledger.clock == Some(sc.start) && x.id !in w.ledger.captures && FenceKey(sc) !in w.ledger.replay
    requires Looked(sc, x) in w.found
    ensures Apply(sc.env, w, DoCapture(Capturing(sc, x))) == w.(
              ledger := w.ledger.(replay := w.ledger.replay[FenceKey(sc) := Later(sc)],
                                  captures := w.ledger.captures[x.id := Held(sc, x).capture]),
              captured := w.captured + {Held(sc, x)}, source := w.source[x.id := Held(sc, x)])
  {
    CaptureStores(sc, w.ledger, x);
    CaptureWindow(sc, x);
    RequestUsable(sc, w.ledger, x);
    CaptureCommits(sc, w.ledger, x, Held(sc, x).capture);
    assert FoundBy(Capturing(sc, x)) == Looked(sc, x);
  }

  lemma BurnStep(sc: Scene, w: World, x: Login)
    requires Admitted(sc) && LoginFits(sc, x) && x.id in w.ledger.requests
             && w.ledger.requests[x.id] == Stored(sc, x, false)
    requires w.ledger.clock == Some(sc.start) && x.id in w.ledger.captures
             && w.ledger.captures[x.id] == Held(sc, x).capture
    requires x.id in w.source && w.source[x.id] == Held(sc, x)
    ensures Apply(sc.env, w, DoBurn(Completing(sc, x))) == w.(
              ledger := w.ledger.(requests := w.ledger.requests[x.id := Stored(sc, x, true)]),
              inFlight := w.inFlight + multiset{Burned(sc, x)})
  {
    CaptureWindow(sc, x);
    RequestUsable(sc, w.ledger, x);
  }

  lemma CommitStep(sc: Scene, w: World, x: Login)
    requires Admitted(sc) && LoginFits(sc, x) && Burned(sc, x) in w.inFlight
    requires w.ledger.clock == Some(sc.start) && x.id !in w.ledger.verified
    ensures Apply(sc.env, w, DoCommit(Burned(sc, x), Answering(sc, x))) == w.(
              ledger := w.ledger.(verified := w.ledger.verified[x.id := Event(sc, x)]),
              inFlight := w.inFlight - multiset{Burned(sc, x)},
              commits := w.commits + [Committed(Held(sc, x), Event(sc, x))])
  {
    EventAccepted(sc, x);
  }

  /* ---- One login on an empty ledger ---- */

  function Cleared(sc: Scene): Ledger { Ledger(map[], map[], map[], map[], map[], Some(sc.start)) }

  function Begun(sc: Scene, x: Login): Ledger
  {
    Cleared(sc).(requests := map[x.id := Stored(sc, x, false)], nonces := map[sc.env.digest(x.nonce) := x.id])
  }

  function Fencing(sc: Scene, x: Login): Ledger
  {
    Begun(sc, x).(replay := map[FenceKey(sc) := Later(sc)], captures := map[x.id := Held(sc, x).capture])
  }

  function Spending(sc: Scene, x: Login): Ledger { Fencing(sc, x).(requests := map[x.id := Stored(sc, x, true)]) }

  function Completed(sc: Scene, x: Login): Ledger { Spending(sc, x).(verified := map[x.id := Event(sc, x)]) }

  function W1(sc: Scene, w: World, x: Login): World { w.(ledger := Begun(sc, x), issued := w.issued + {x.id}) }

  function W2(sc: Scene, w: World, x: Login): World { W1(sc, w, x).(found := w.found + {Looked(sc, x)}) }

  function W3(sc: Scene, w: World, x: Login): World
  {
    W2(sc, w, x).(ledger := Fencing(sc, x), captured := w.captured + {Held(sc, x)},
                  source := w.source[x.id := Held(sc, x)])
  }

  function W4(sc: Scene, w: World, x: Login): World
  {
    W3(sc, w, x).(ledger := Spending(sc, x), inFlight := multiset{Burned(sc, x)})
  }

  function W5(sc: Scene, w: World, x: Login): World
  {
    W3(sc, w, x).(ledger := Completed(sc, x), commits := w.commits + [Committed(Held(sc, x), Event(sc, x))])
  }

  /** Where a login can start: an empty ledger, no call in flight, and an ID not issued before. */
  predicate Ready(sc: Scene, w: World, x: Login)
  {
    Admitted(sc) && LoginFits(sc, x) && w.ledger == Cleared(sc) && x.id !in w.issued && w.inFlight == multiset{}
  }

  lemma BeginLeads(sc: Scene, w: World, x: Login)
    requires Ready(sc, w, x)
    ensures Leads(sc.env, w, DoBegin(Begin(sc, x)), W1(sc, w, x))
  {
    BeginStep(sc, w, x);
  }

  function LookupOf(sc: Scene, x: Login): Step { DoLookup(sc.snapshot, sc.config, x.nonce, sc.start) }

  lemma LookupLeads(sc: Scene, w: World, x: Login)
    requires Ready(sc, w, x)
    ensures Leads(sc.env, W1(sc, w, x), LookupOf(sc, x), W2(sc, w, x))
  {
    LookupStep(sc, W1(sc, w, x), x);
  }

  lemma CaptureLeads(sc: Scene, w: World, x: Login)
    requires Ready(sc, w, x)
    ensures Leads(sc.env, W2(sc, w, x), DoCapture(Capturing(sc, x)), W3(sc, w, x))
  {
    CaptureStep(sc, W2(sc, w, x), x);
  }

  lemma BurnLeads(sc: Scene, w: World, x: Login)
    requires Ready(sc, w, x)
    ensures Leads(sc.env, W3(sc, w, x), DoBurn(Completing(sc, x)), W4(sc, w, x))
  {
    BurnStep(sc, W3(sc, w, x), x);
  }

  function CommitOf(sc: Scene, x: Login): Step { DoCommit(Burned(sc, x), Answering(sc, x)) }

  lemma CommitLeads(sc: Scene, w: World, x: Login)
    requires Ready(sc, w, x)
    ensures Leads(sc.env, W4(sc, w, x), CommitOf(sc, x), W5(sc, w, x))
  {
    CommitStep(sc, W4(sc, w, x), x);
  }

  /* ---- Maintenance ---- */

  const NOTHING := Drops({}, {}, {}, {})

  /** The batch every login begins with, here with one reading. */
  function Quiet(sc: Scene): Step { DoPrune(sc.start, sc.start, NOTHING) }

  lemma QuietLeads(sc: Scene, w: World)
    requires w.ledger == Cleared(sc) || w.ledger == Cleared(sc).(clock := None)
    ensures Leads(sc.env, w, Quiet(sc), w.(ledger := Cleared(sc)))
  {
    assert AllExpired(w.ledger, sc.start) == NOTHING;
    assert NoncesOf(w.ledger.requests, {}) == {};
  }

  /** The batch between the logins, its second reading ahead of its first. */
  function Unsettled(sc: Scene, x: Login): Step
  {
    DoPrune(sc.start, Ahead(sc), Drops({x.id}, {x.id}, {x.id}, {FenceKey(sc)}))
  }

  /** A ledger with one record of each kind. */
  predicate OneOfEach(l: Ledger, id: Key, key: Key)
  {
    && l.requests.Keys == l.captures.Keys == l.verified.Keys == {id} && l.replay.Keys == {key}
    && l.nonces.Keys == {l.requests[id].request.nonceDigest}
  }

  predicate AllDue(l: Ledger, id: Key, key: Key, now: Time)
    requires OneOfEach(l, id, key)
  {
    && RequestExpiry(l.requests[id]) <= now && CaptureExpiry(l.captures[id]) <= now
    && EventExpiry(l.verified[id]) <= now && FenceExpiry(l.replay[key]) <= now
  }

  /** When all of it has expired, a batch empties such a ledger. */
  lemma BatchEmpties(l: Ledger, id: Key, key: Key, observed: Time, now: Time)
    requires OneOfEach(l, id, key) && AllDue(l, id, key, now) && l.clock == Some(observed)
    ensures PruneTx(l, observed, now, Drops({id}, {id}, {id}, {key}))
         == Some(Ledger(map[], map[], map[], map[], map[], Some(observed)))
    ensures observed < l.replay[key] ==> !NoFenceBetween(l, observed, now)
  {
    assert NoncesOf(l.requests, {id}) == l.nonces.Keys;
    Emptied(l.requests, {id});
    Emptied(l.captures, {id});
    Emptied(l.verified, {id});
    Emptied(l.replay, {key});
    Emptied(l.nonces, l.nonces.Keys);
    assert key in l.replay;
  }

  lemma Emptied<V>(m: map<Key, V>, keys: set<Key>)
    requires m.Keys == keys
    ensures m - keys == map[] && |m| == |keys|
  {
    assert |m| == |m.Keys|;
  }

  lemma AllTaken(l: Ledger, id: Key, key: Key, now: Time)
    requires OneOfEach(l, id, key) && AllDue(l, id, key, now)
    ensures AllExpired(l, now) == Drops({id}, {id}, {id}, {key}) && Records(l) == 4
  {
    Emptied(l.requests, {id});
    Emptied(l.captures, {id});
    Emptied(l.verified, {id});
    Emptied(l.replay, {key});
    assert ExpiredKeys(l.requests, now, RequestExpiry) == {id} && ExpiredKeys(l.captures, now, CaptureExpiry) == {id};
    assert ExpiredKeys(l.verified, now, EventExpiry) == {id} && ExpiredKeys(l.replay, now, FenceExpiry) == {key};
  }

  lemma CompletedIsDue(sc: Scene, x: Login)
    requires Admitted(sc) && LoginFits(sc, x)
    ensures var l := Completed(sc, x);
            && OneOfEach(l, x.id, FenceKey(sc)) && AllDue(l, x.id, FenceKey(sc), Ahead(sc))
            && l.clock == Some(sc.start) && sc.start < l.replay[FenceKey(sc)]
  {
    RequestFresh(sc, x);
    CaptureWindow(sc, x);
  }

  lemma PruneLeads(env: Env, w: World, l: Ledger, observed: Time, now: Time, d: Drops, m: Ledger)
    requires w.ledger == l && observed <= now && d == AllExpired(l, now) && Records(l) <= 128
    requires PruneTx(l, observed, now, d) == Some(m)
    ensures Leads(env, w, DoPrune(observed, now, d), w.(ledger := m))
  {
  }

  lemma UnsettledLeads(sc: Scene, w: World, l: Ledger, x: Login)
    requires Admitted(sc) && LoginFits(sc, x) && l == Completed(sc, x) && w.ledger == l
    ensures Leads(sc.env, w, Unsettled(sc, x), w.(ledger := Cleared(sc))) && !NoFenceBetween(l, sc.start, Ahead(sc))
  {
    CompletedIsDue(sc, x);
    BatchEmpties(l, x.id, FenceKey(sc), sc.start, Ahead(sc));
    AllTaken(l, x.id, FenceKey(sc), Ahead(sc));
    PruneLeads(sc.env, w, l, sc.start, Ahead(sc), Unsettled(sc, x).drops, Cleared(sc));
  }

  /* ---- Paths ---- */

  /** `ss` leads from `from` to `to` through the worlds `ws`, each step as `ok` allows. */
  ghost predicate Chain(ok: (World, Step, World) -> bool, ss: seq<Step>, ws: seq<World>, from: World, to: World)
  {
    && |ws| == |ss| + 1 && ws[0] == from && ws[|ss|] == to
    && forall i :: 0 <= i < |ss| ==> ok(ws[i], ss[i], ws[i + 1])
  }

  lemma Joined(ok: (World, Step, World) -> bool, ss: seq<Step>, ws: seq<World>, more: seq<Step>, vs: seq<World>,
               from: World, mid: World, to: World)
    requires Chain(ok, ss, ws, from, mid) && Chain(ok, more, vs, mid, to)
    ensures Chain(ok, ss + more, ws + vs[1..], from, to)
  {
    var s, v := ss + more, ws + vs[1..];
    forall i | 0 <= i < |s| ensures ok(v[i], s[i], v[i + 1]) {
      if i < |ss| {
        assert ok(ws[i], ss[i], ws[i + 1]);
      } else {
        var j := i - |ss|;
        assert ok(vs[j], more[j], vs[j + 1]);
        assert v[i] == vs[j] && s[i] == more[j] && v[i + 1] == vs[j + 1];
      }
    }
  }

  ghost function Leading(env: Env): (World, Step, World) -> bool { (w, s, v) => Leads(env, w, s, v) }

  ghost predicate Path(env: Env, ss: seq<Step>, ws: seq<World>, from: World, to: World)
  {
    Chain(Leading(env), ss, ws, from, to)
  }

  lemma Extended(env: Env, ss: seq<Step>, ws: seq<World>, from: World, w: World, s: Step, v: World)
    requires Path(env, ss, ws, from, w) && Leads(env, w, s, v)
    ensures Path(env, ss + [s], ws + [v], from, v)
  {
    assert Chain(Leading(env), [s], [w, v], w, v);
    Joined(Leading(env), ss, ws, [s], [w, v], from, w, v);
    assert [w, v][1..] == [v];
  }

  /** What a login is: its maintenance batch, and then the five transactions. */
  function LoginStep(sc: Scene, x: Login, i: nat): Step
  {
    match i
    case 0 => Quiet(sc)
    case 1 => DoBegin(Begin(sc, x))
    case 2 => LookupOf(sc, x)
    case 3 => DoCapture(Capturing(sc, x))
    case 4 => DoBurn(Completing(sc, x))
    case _ => CommitOf(sc, x)
  }

  function LoginSteps(sc: Scene, x: Login): seq<Step> { seq(6, i requires 0 <= i < 6 => LoginStep(sc, x, i)) }

  /** The worlds it passes through, from `w` on; `v` is `w` with the watermark set. */
  function Stop(sc: Scene, w: World, v: World, x: Login, i: nat): World
  {
    match i
    case 0 => w
    case 1 => v
    case 2 => W1(sc, v, x)
    case 3 => W2(sc, v, x)
    case 4 => W3(sc, v, x)
    case 5 => W4(sc, v, x)
    case _ => W5(sc, v, x)
  }

  predicate Startable(sc: Scene, w: World, v: World, x: Login)
  {
    v == w.(ledger := Cleared(sc)) && (w.ledger == v.ledger || w.ledger == v.ledger.(clock := None)) && Ready(sc, v, x)
  }

  lemma LoginLeads(sc: Scene, w: World, v: World, x: Login, i: nat)
    requires Startable(sc, w, v, x) && i < 6
    ensures Leads(sc.env, Stop(sc, w, v, x, i), LoginStep(sc, x, i), Stop(sc, w, v, x, i + 1))
  {
    if i == 0 {
      QuietLeads(sc, w);
    } else if i == 1 {
      BeginLeads(sc, v, x);
    } else if i == 2 {
      LookupLeads(sc, v, x);
    } else if i == 3 {
      CaptureLeads(sc, v, x);
    } else if i == 4 {
      BurnLeads(sc, v, x);
    } else {
      CommitLeads(sc, v, x);
    }
  }

  /** A login appended to a path. */
  lemma LoginExtends(sc: Scene, ss: seq<Step>, ws: seq<World>, from: World, w: World, v: World, x: Login)
    returns (t: seq<Step>, u: seq<World>)
    requires Path(sc.env, ss, ws, from, w) && Startable(sc, w, v, x)
    ensures Path(sc.env, t, u, from, W5(sc, v, x)) && ws <= u && t == ss + LoginSteps(sc, x)
  {
    var vs, more := seq(7, i requires 0 <= i < 7 => Stop(sc, w, v, x, i)), LoginSteps(sc, x);
    forall i | 0 <= i < 6 ensures Leads(sc.env, vs[i], more[i], vs[i + 1]) { LoginLeads(sc, w, v, x, i); }
    assert Chain(Leading(sc.env), more, vs, w, W5(sc, v, x));
    Joined(Leading(sc.env), ss, ws, more, vs, from, w, W5(sc, v, x));
    t, u := ss + more, ws + vs[1..];
  }

  lemma PathIsRun(env: Env, ss: seq<Step>, ws: seq<World>, end: World)
    requires Path(env, ss, ws, Initial, end)
    ensures Run(env, ss, ws) && forall i :: 0 <= i < |ss| ==> WholeBatch(ws[i], ss[i])
  {
    forall i: nat | i < |ss| ensures Follows(env, ss, ws, i) && WholeBatch(ws[i], ss[i]) {
      assert Leading(env)(ws[i], ss[i], ws[i + 1]);
    }
  }

  lemma FirstStartable(sc: Scene)
    requires Admitted(sc)
    ensures Startable(sc, Initial, Initial.(ledger := Cleared(sc)), sc.first)
  {
  }

  lemma SecondStartable(sc: Scene, w: World)
    requires Admitted(sc) && w.ledger == Cleared(sc) && w.issued == {sc.first.id} && w.inFlight == multiset{}
    ensures Startable(sc, w, w, sc.second)
  {
  }

  lemma FirstLogin(sc: Scene) returns (ss: seq<Step>, ws: seq<World>)
    requires Admitted(sc)
    ensures ss == LoginSteps(sc, sc.first) && |ws| == 7 && Path(sc.env, ss, ws, Initial, ws[6])
    ensures var w := ws[6];
            && w.ledger == Completed(sc, sc.first) && w.issued == {sc.first.id} && w.inFlight == multiset{}
            && w.commits == [Committed(Held(sc, sc.first), Event(sc, sc.first))]
  {
    assert Path(sc.env, [], [Initial], Initial, Initial);
    FirstStartable(sc);
    ss, ws := LoginExtends(sc, [], [Initial], Initial, Initial, Initial.(ledger := Cleared(sc)), sc.first);
    assert [] + LoginSteps(sc, sc.first) == LoginSteps(sc, sc.first);
  }

  /** After it, the maintenance that removes its fence. */
  lemma FenceRemoved(sc: Scene, ss: seq<Step>, ws: seq<World>, v: World) returns (w: World)
    requires Admitted(sc) && Path(sc.env, ss, ws, Initial, v)
    requires v.ledger == Completed(sc, sc.first) && v.issued == {sc.first.id} && v.inFlight == multiset{}
    ensures w == v.(ledger := Cleared(sc)) && Startable(sc, w, w, sc.second)
    ensures Path(sc.env, ss + [Unsettled(sc, sc.first)], ws + [w], Initial, w)
    ensures !NoFenceBetween(v.ledger, sc.start, Ahead(sc))
  {
    w := v.(ledger := Cleared(sc));
    UnsettledLeads(sc, v, v.ledger, sc.first);
    SecondStartable(sc, w);
    Extended(sc.env, ss, ws, Initial, v, Unsettled(sc, sc.first), w);
  }

  lemma NotClear(ss: seq<Step>, ws: seq<World>, i: nat)
    requires i < |ss| < |ws| && ss[i].DoPrune? && !NoFenceBetween(ws[i].ledger, ss[i].observedAt, ss[i].now)
    ensures !ClearBefore(ss, ws, |ss|)
  {
  }

  /** Both logins, and where they lead. */
  lemma TwoLogins(sc: Scene) returns (ss: seq<Step>, ws: seq<World>)
    requires Admitted(sc)
    ensures ss == LoginSteps(sc, sc.first) + [Unsettled(sc, sc.first)] + LoginSteps(sc, sc.second) && |ws| == 14
    ensures Path(sc.env, ss, ws, Initial, ws[13]) && !NoFenceBetween(ws[6].ledger, sc.start, Ahead(sc))
    ensures ws[13].commits == [Committed(Held(sc, sc.first), Event(sc, sc.first)),
                               Committed(Held(sc, sc.second), Event(sc, sc.second))]
  {
    var s, v := FirstLogin(sc);
    var w := FenceRemoved(sc, s, v, v[6]);
    ss, ws := LoginExtends(sc, s + [Unsettled(sc, sc.first)], v + [w], Initial, w, w, sc.second);
    assert ws[6] == v[6];
  }

  /**
   * One assertion, two verified events, for every admitted scene: two complete logins, each after its own batch, and
   * between them a batch that takes everything expired at its second reading.
   */
  lemma UnsettledMaintenanceAllowsReplay(sc: Scene) returns (ss: seq<Step>, ws: seq<World>)
    requires Admitted(sc)
    ensures Run(sc.env, ss, ws) && (forall i :: 0 <= i < |ss| ==> WholeBatch(ws[i], ss[i]))
            && !ClearBefore(ss, ws, |ss|)
    ensures ss == LoginSteps(sc, sc.first) + [Unsettled(sc, sc.first)] + LoginSteps(sc, sc.second)
    ensures var w := ws[|ss|];
            && |w.commits| == 2 && w.commits[0].origin.assertion == w.commits[1].origin.assertion == sc.assertion
            && w.commits[0].origin.capture.principal.protocol == w.commits[1].origin.capture.principal.protocol
  {
    ss, ws := TwoLogins(sc);
    PathIsRun(sc.env, ss, ws, ws[13]);
    assert ss[6] == Unsettled(sc, sc.first);
    NotClear(ss, ws, 6);
  }
}
