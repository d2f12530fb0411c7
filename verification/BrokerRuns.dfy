/** Interleaved broker calls: one upstream assertion never yields two verified events. */
module BrokerRuns {
  import opened KeyOrder
  import opened Storage
  import opened Models
  import opened BrokerEvents

  /** A stored capture with its provenance: assertion end, fence, and the watermark when it was stored. */
  datatype Origin = Origin(id: Key, assertion: string, replayId: string, end: Time, fence: Time, born: Time,
                           capture: Capture)

  datatype InFlight = InFlight(call: CompleteCall, request: BrokerRequest, origin: Origin)

  datatype Committed = Committed(origin: Origin, event: StoredEvent)

  datatype Released = Released(id: Key, principal: Principal, assurance: Assurance)

  /** The ledger, what is known of each capture, the calls between their transactions, and what was observed. */
  datatype World = World(ledger: Ledger, issued: set<Key>, found: set<Found>, captured: set<Origin>,
                         source: map<Key, Origin>, inFlight: multiset<InFlight>, commits: seq<Committed>,
                         releases: seq<Released>)

  datatype Step =
    | DoBegin(begin: BeginCall)
    | DoLookup(lookup: TrustSnapshot, config: Configuration, nonce: string, at: Time)
    | DoCapture(capture: CaptureCall)
    | DoBurn(complete: CompleteCall)
    | DoCommit(pending: InFlight, answers: Answers)
    | DoVerify(id: Key, snapshot: TrustSnapshot, observed: Time, checked: Time)
    | DoPrune(observedAt: Time, now: Time, drops: Drops)

  /** Random IDs and nonces are fresh, and clock readings inside one call never go back. */
  predicate Plausible(env: Env, w: World, s: Step)
  {
    match s
    case DoBegin(c) => c.id !in w.issued && env.digest(c.nonce) !in w.ledger.nonces
    case DoLookup(_, _, _, _) => true
    case DoCapture(k) => k.verifiedAt <= k.observed <= k.checked <= k.fencedAt
    case DoBurn(c) => c.observed <= c.checked <= c.captureChecked
    case DoCommit(p, a) => a.exchangedAt <= a.observed <= a.checked
    case DoVerify(_, _, o, c) => o <= c
    case DoPrune(o, n, _) => o <= n
  }

  /** No replay fence expires after the reading that becomes durable and by the one that decides expiry. */
  ghost predicate NoFenceBetween(l: Ledger, observed: Time, now: Time)
  {
    forall k :: k in l.replay && l.replay[k] <= now ==> l.replay[k] <= observed
  }

  /** A maintenance step that, when it commits, drops only fences expired at the reading it makes durable. */
  predicate Settled(w: World, s: Step)
  {
    s.DoPrune? && PruneTx(w.ledger, s.observedAt, s.now, s.drops).Some? ==>
      O.Expired(w.ledger.replay, s.drops.replay, s.observedAt, FenceExpiry)
  }

  /**
   * A batch that takes everything expired is settled exactly when no fence lies between its two readings, and then
   * so is every smaller one.
   */
  lemma SettledIff(w: World, observed: Time, now: Time)
    requires !Behind(w.ledger, observed)
    ensures Settled(w, DoPrune(observed, now, AllExpired(w.ledger, now))) <==> NoFenceBetween(w.ledger, observed, now)
    ensures (forall d: Drops :: Settled(w, DoPrune(observed, now, d))) <==> NoFenceBetween(w.ledger, observed, now)
  {
    var all := AllExpired(w.ledger, now);
    if Settled(w, DoPrune(observed, now, all)) {
      forall k | k in w.ledger.replay && w.ledger.replay[k] <= now ensures w.ledger.replay[k] <= observed {
        assert k in all.replay;
      }
    }
  }

  /** One reading for both uses is enough. */
  lemma OneReadingSettles(w: World, now: Time, d: Drops)
    ensures NoFenceBetween(w.ledger, now, now) && Settled(w, DoPrune(now, now, d))
  {
  }

  function OriginOf(env: Env, k: CaptureCall): Origin
  {
    var cap := Captured(env, k);
    Origin(k.id, k.input.assertion, cap.replayId, AssertionEnd(env, k.snapshot.trust.protocol, k.input.assertion),
           k.fencedAt + env.maxLifetime, k.observed, cap)
  }

  function Apply(env: Env, w: World, s: Step): World
  {
    match s
    case DoBegin(c) =>
      (match BeginTx(env, w.ledger, c)
       case None => w
       case Some(l) => w.(ledger := l, issued := w.issued + {c.id}))
    case DoLookup(t, c, nonce, now) =>
      (match Lookup(env, w.ledger, t, c, nonce, now)
       case None => w
       case Some(f) => w.(found := w.found + {f}))
    case DoCapture(k) =>
      if FoundBy(k) !in w.found then w
      else (match CaptureTx(env, w.ledger, k)
       case None => w
       case Some(l) => w.(ledger := l, captured := w.captured + {OriginOf(env, k)},
                          source := w.source[k.id := OriginOf(env, k)]))
    case DoBurn(c) =>
      if c.id !in w.source then w
      else (match BurnTx(env, w.ledger, c)
            case None => w
            case Some(l) =>
              assert c.id in l.requests;
              w.(ledger := l, inFlight := w.inFlight + multiset{InFlight(c, l.requests[c.id], w.source[c.id])}))
    case DoCommit(p, a) =>
      if p !in w.inFlight then w
      else (match Verified(env, p.call, p.request, p.origin.capture, a)
            case None => w
            case Some(e) =>
              match CommitTx(w.ledger, p.call.id, e, a.observed, a.checked)
              case None => w
              case Some(l) => w.(ledger := l, inFlight := w.inFlight - multiset{p},
                                 commits := w.commits + [Committed(p.origin, e)]))
    case DoVerify(id, s, o, c) =>
      (match VerifyTx(env, w.ledger, id, s, o, c)
       case None => w
       case Some(l) =>
         assert id in l.verified;
         var b := l.verified[id].bundle;
         w.(ledger := l, releases := w.releases + [Released(id, b.principal, b.assurance)]))
    case DoPrune(o, n, d) =>
      match PruneTx(w.ledger, o, n, d)
      case None => w
      case Some(l) => w.(ledger := l)
  }

  /** The capture's read found its request and its storing transaction commits. */
  predicate Captures(env: Env, w: World, k: CaptureCall) { FoundBy(k) in w.found && CaptureTx(env, w.ledger, k).Some? }

  /* ---- Which tables a step touches ---- */

  predicate Shaped(s: Step, l: Ledger, m: Ledger, t: Time)
  {
    m == l ||
    (&& !Behind(l, t) && m.clock == Some(t)
     && (s.DoBegin? || s.DoBurn? || s.DoPrune? || (m.requests == l.requests && m.nonces == l.nonces))
     && (s.DoCapture? || s.DoPrune? || (m.captures == l.captures && m.replay == l.replay))
     && (s.DoCommit? || s.DoVerify? || s.DoPrune? || m.verified == l.verified))
  }

  lemma CaptureShape(env: Env, w: World, k: CaptureCall)
    ensures Shaped(DoCapture(k), w.ledger, Apply(env, w, DoCapture(k)).ledger, k.observed)
  {
  }

  lemma BurnShape(env: Env, w: World, c: CompleteCall)
    ensures Shaped(DoBurn(c), w.ledger, Apply(env, w, DoBurn(c)).ledger, c.observed)
  {
  }

  lemma CommitShape(env: Env, w: World, p: InFlight, a: Answers)
    ensures Shaped(DoCommit(p, a), w.ledger, Apply(env, w, DoCommit(p, a)).ledger, a.observed)
  {
  }

  lemma BeginShape(env: Env, w: World, c: BeginCall)
    ensures Shaped(DoBegin(c), w.ledger, Apply(env, w, DoBegin(c)).ledger, c.observed)
  {
  }

  /** A step leaves the ledger alone, or raises the watermark to a reading not behind it and writes its own tables. */
  lemma StepShape(env: Env, w: World, s: Step, m: Ledger) returns (t: Time)
    requires m == Apply(env, w, s).ledger
    ensures Shaped(s, w.ledger, m, t)
  {
    match s
    case DoBegin(c) =>
      t := c.observed;
      BeginShape(env, w, c);
    case DoLookup(_, _, _, _) => t := 0;
    case DoCapture(k) =>
      t := k.observed;
      CaptureShape(env, w, k);
    case DoBurn(c) =>
      t := c.observed;
      BurnShape(env, w, c);
    case DoCommit(p, a) =>
      t := a.observed;
      CommitShape(env, w, p, a);
    case DoVerify(_, _, o, _) => t := o;
    case DoPrune(o, _, _) => t := o;
  }

  const Initial := World(Ledger(map[], map[], map[], map[], map[], None), {}, {}, {}, map[], multiset{}, [], [])

  ghost predicate Follows(env: Env, steps: seq<Step>, ws: seq<World>, i: nat)
    requires i < |steps| < |ws|
  {
    Plausible(env, ws[i], steps[i]) && ws[i + 1] == Apply(env, ws[i], steps[i])
  }

  ghost predicate Run(env: Env, steps: seq<Step>, ws: seq<World>)
  {
    && |ws| == |steps| + 1 && ws[0] == Initial
    && forall i: nat {:trigger Follows(env, steps, ws, i)} :: i < |steps| ==> Follows(env, steps, ws, i)
  }

  /* ---- Index and capacity ---- */

  ghost predicate NoncesPoint(requests: map<Key, BrokerRequest>, nonces: map<Key, Key>)
  {
    && (forall id :: id in requests ==>
          requests[id].request.nonceDigest in nonces
          && nonces[requests[id].request.nonceDigest] == id)
    && (forall n :: n in nonces ==> nonces[n] in requests && requests[nonces[n]].request.nonceDigest == n)
  }

  /** Nonce entries and live requests correspond one to one, and there are never more than 4096 requests. */
  ghost predicate Indexed(l: Ledger)
  {
    |l.requests| <= CAPACITY && NoncesPoint(l.requests, l.nonces)
  }

  lemma PruneKeepsIndex(l: Ledger, o: Time, n: Time, d: Drops)
    requires Indexed(l) && PruneTx(l, o, n, d).Some?
    ensures Indexed(PruneTx(l, o, n, d).value)
  {
    var m := PruneTx(l, o, n, d).value;
    var gone := NoncesOf(l.requests, d.requests);
    SubsetSize(m.requests.Keys, l.requests.Keys);
    forall id | id in m.requests ensures m.requests[id].request.nonceDigest !in gone { }
    forall x | x in m.nonces ensures l.nonces[x] !in d.requests {
      assert l.requests[l.nonces[x]].request.nonceDigest == x;
    }
  }

  lemma SubsetSize<T>(a: set<T>, b: set<T>)
    requires a <= b
    ensures |a| <= |b|
  {
    assert b == a + (b - a);
  }

  lemma InsertKeepsIndex(l: Ledger, m: Ledger, id: Key, r: BrokerRequest)
    requires Indexed(l) && id !in l.requests && r.request.nonceDigest !in l.nonces && |l.requests| < CAPACITY
    requires m.requests == l.requests[id := r] && m.nonces == l.nonces[r.request.nonceDigest := id]
    ensures Indexed(m)
  {
    assert m.requests.Keys == l.requests.Keys + {id};
    InsertKeepsNonces(l.requests, l.nonces, id, r);
  }

  lemma InsertKeepsNonces(requests: map<Key, BrokerRequest>, nonces: map<Key, Key>, id: Key, r: BrokerRequest)
    requires NoncesPoint(requests, nonces) && id !in requests && r.request.nonceDigest !in nonces
    ensures NoncesPoint(requests[id := r], nonces[r.request.nonceDigest := id])
  {
  }

  lemma BeginEffect(env: Env, l: Ledger, c: BeginCall)
    requires BeginTx(env, l, c).Some?
    ensures var m, r := BeginTx(env, l, c).value, Request(env, c);
            && m.requests == l.requests[c.id := r] && m.nonces == l.nonces[r.request.nonceDigest := c.id]
            && m.captures == l.captures && m.verified == l.verified
            && r.request.nonceDigest == env.digest(c.nonce) && c.id !in l.requests && |l.requests| < CAPACITY
  {
  }

  lemma BurnKeepsIndex(env: Env, l: Ledger, c: CompleteCall)
    requires Indexed(l) && BurnTx(env, l, c).Some?
    ensures Indexed(BurnTx(env, l, c).value)
  {
    var m := BurnTx(env, l, c).value;
    assert m.requests.Keys == l.requests.Keys;
  }

  /** Captures, commits and releases leave the requests and their index alone. */
  lemma RequestsUntouched(env: Env, w: World, s: Step)
    requires s.DoLookup? || s.DoCapture? || s.DoCommit? || s.DoVerify?
    ensures var m := Apply(env, w, s).ledger; m.requests == w.ledger.requests && m.nonces == w.ledger.nonces
  {
    var t := StepShape(env, w, s, Apply(env, w, s).ledger);
  }

  lemma StepKeepsIndex(env: Env, w: World, s: Step, m: Ledger)
    requires Indexed(w.ledger) && Plausible(env, w, s) && m == Apply(env, w, s).ledger
    ensures Indexed(m)
  {
    var l := w.ledger;
    match s
    case DoBegin(c) =>
      if BeginTx(env, l, c).Some? {
        BeginEffect(env, l, c);
        InsertKeepsIndex(l, m, c.id, Request(env, c));
      }
    case DoBurn(c) => if c.id in w.source && BurnTx(env, l, c).Some? { BurnKeepsIndex(env, l, c); }
    case DoPrune(o, n, d) => if PruneTx(l, o, n, d).Some? { PruneKeepsIndex(l, o, n, d); }
    case _ => RequestsUntouched(env, w, s);
  }

  /** In every reachable world the nonce index matches the live requests, of which there are at most 4096. */
  lemma {:induction false} RunKeepsIndex(env: Env, steps: seq<Step>, ws: seq<World>, n: nat)
    requires Run(env, steps, ws) && n < |ws|
    ensures Indexed(ws[n].ledger)
  {
    if n > 0 {
      RunKeepsIndex(env, steps, ws, n - 1);
      assert Follows(env, steps, ws, n - 1);
      StepKeepsIndex(env, ws[n - 1], steps[n - 1], ws[n].ledger);
    }
  }

  /* ---- Replay ---- */

  predicate Past(l: Ledger, t: Time) { l.clock.Some? && t <= l.clock.value }

  /** Each capture's fence is still there, or the watermark is past it. */
  ghost predicate Fenced(env: Env, w: World)
  {
    forall x :: x in w.captured ==>
      Past(w.ledger, x.fence)
      || (env.digest(x.replayId) in w.ledger.replay && x.fence <= w.ledger.replay[env.digest(x.replayId)])
  }

  /** No assertion outlives its fence, no capture its assertion, and every capture lies behind the watermark. */
  ghost predicate Covered(w: World)
  {
    forall x :: x in w.captured ==> x.end <= x.fence && x.capture.assurance.expiresAt <= x.end && Past(w.ledger, x.born)
  }

  /** Captures of one replay ID follow each other's fences. */
  ghost predicate Spaced(captured: set<Origin>)
  {
    forall x, y :: x in captured && y in captured && x != y && x.replayId == y.replayId ==>
      x.fence <= y.born || y.fence <= x.born
  }

  /** A capture that got as far as Complete was stored before its assertion ended. */
  ghost predicate Timely(w: World)
  {
    && (forall id :: id in w.source ==> w.source[id] in w.captured && w.source[id].id == id)
    && (forall id :: id in w.ledger.captures ==> id in w.source && w.source[id].capture == w.ledger.captures[id])
    && (forall p :: p in w.inFlight ==>
          p.origin in w.captured && p.origin.id == p.call.id
          && p.origin.born < p.origin.end)
    && (forall i :: 0 <= i < |w.commits| ==>
          w.commits[i].origin in w.captured && w.commits[i].origin.born < w.commits[i].origin.end)
  }

  /** The fence written with a capture lasts at least as long as the assertion. */
  lemma FenceCoversAssertion(env: Env, k: CaptureCall)
    requires UpstreamAccepted(env, k)
    ensures k.verifiedAt <= k.fencedAt ==> OriginOf(env, k).end <= OriginOf(env, k).fence
    ensures OriginOf(env, k).capture.assurance.expiresAt <= OriginOf(env, k).end
  {
  }

  /** The watermark never goes back, and only Capture adds captures. */
  lemma OthersCaptureNothing(env: Env, w: World, s: Step)
    requires !s.DoCapture?
    ensures Apply(env, w, s).captured == w.captured
  {
  }

  lemma ClockAdvances(env: Env, w: World, s: Step, w': World)
    requires !s.DoCapture? && w' == Apply(env, w, s)
    ensures w.ledger.clock.Some? ==> w'.ledger.clock.Some? && w.ledger.clock.value <= w'.ledger.clock.value
    ensures w'.captured == w.captured
  {
    OthersCaptureNothing(env, w, s);
    var t := StepShape(env, w, s, w'.ledger);
  }

  /** What a capture adds, and that its fence covers the assertion. */
  lemma CaptureEffect(env: Env, w: World, k: CaptureCall)
    requires Plausible(env, w, DoCapture(k)) && Captures(env, w, k)
    ensures var x, w' := OriginOf(env, k), Apply(env, w, DoCapture(k));
            && w'.captured == w.captured + {x} && !Behind(w.ledger, k.observed) && w'.ledger.clock == Some(k.observed)
            && x.end <= x.fence && x.capture.assurance.expiresAt <= x.end && Past(w'.ledger, x.born)
  {
    FenceCoversAssertion(env, k);
  }

  lemma StepKeepsCover(env: Env, w: World, s: Step, w': World)
    requires Covered(w) && Plausible(env, w, s) && w' == Apply(env, w, s)
    ensures Covered(w')
  {
    if !s.DoCapture? {
      ClockAdvances(env, w, s, w');
    } else if Captures(env, w, s.capture) {
      CaptureEffect(env, w, s.capture);
    }
  }

  lemma CaptureKeepsFences(env: Env, w: World, k: CaptureCall)
    requires Fenced(env, w) && Spaced(w.captured)
    ensures Fenced(env, Apply(env, w, DoCapture(k))) && Spaced(Apply(env, w, DoCapture(k)).captured)
  {
    if Captures(env, w, k) {
      var y := OriginOf(env, k);
      forall x | x in w.captured && x.replayId == y.replayId ensures x.fence <= y.born { }
    }
  }

  /**
   * Maintenance keeps the fence invariant exactly when each capture whose fence it drops is past at the durable
   * reading.
   */
  lemma PruneKeepsFencesIff(env: Env, w: World, o: Time, n: Time, d: Drops)
    requires Fenced(env, w) && PruneTx(w.ledger, o, n, d).Some?
    ensures Fenced(env, Apply(env, w, DoPrune(o, n, d)))
       <==> forall x :: x in w.captured && env.digest(x.replayId) in d.replay ==> x.fence <= o
  {
    var w' := Apply(env, w, DoPrune(o, n, d));
    assert w'.ledger.clock == Some(o);
    if forall x :: x in w.captured && env.digest(x.replayId) in d.replay ==> x.fence <= o {
      forall x | x in w'.captured
        ensures Past(w'.ledger, x.fence)
             || (env.digest(x.replayId) in w'.ledger.replay && x.fence <= w'.ledger.replay[env.digest(x.replayId)])
      {
      }
    }
  }

  /** A higher watermark over the same fences and captures. */
  lemma FencesStand(env: Env, w: World, w': World)
    requires Fenced(env, w) && w'.captured == w.captured && w'.ledger.replay == w.ledger.replay
    requires w.ledger.clock.Some? ==> w'.ledger.clock.Some? && w.ledger.clock.value <= w'.ledger.clock.value
    ensures Fenced(env, w')
  {
  }

  lemma PruneKeepsFences(env: Env, w: World, o: Time, n: Time, d: Drops)
    requires Fenced(env, w) && NoFenceBetween(w.ledger, o, n)
    ensures Fenced(env, Apply(env, w, DoPrune(o, n, d)))
  {
    if PruneTx(w.ledger, o, n, d).Some? {
      forall x | x in w.captured && env.digest(x.replayId) in d.replay ensures x.fence <= o { }
      PruneKeepsFencesIff(env, w, o, n, d);
    }
  }

  lemma StepKeepsFences(env: Env, w: World, s: Step, w': World)
    requires Fenced(env, w) && Spaced(w.captured) && w' == Apply(env, w, s)
    requires s.DoPrune? ==> NoFenceBetween(w.ledger, s.observedAt, s.now)
    ensures Fenced(env, w') && Spaced(w'.captured)
  {
    if s.DoCapture? {
      CaptureKeepsFences(env, w, s.capture);
    } else if s.DoPrune? {
      PruneKeepsFences(env, w, s.observedAt, s.now, s.drops);
      OthersCaptureNothing(env, w, s);
    } else {
      ClockAdvances(env, w, s, w');
      var t := StepShape(env, w, s, w'.ledger);
      FencesStand(env, w, w');
    }
  }

  /** Every fence in the ledger was written with a capture. */
  ghost predicate Written(env: Env, w: World)
  {
    forall k :: k in w.ledger.replay ==>
      exists x :: x in w.captured && env.digest(x.replayId) == k && x.fence == w.ledger.replay[k]
  }

  lemma CaptureWrites(env: Env, w: World, c: CaptureCall, w': World, k: Key)
    requires w' == Apply(env, w, DoCapture(c)) && k in w'.ledger.replay && k !in w.ledger.replay
    ensures var x := OriginOf(env, c);
            x in w'.captured && env.digest(x.replayId) == k && x.fence == w'.ledger.replay[k]
  {
  }

  /** No step rewrites a fence, and only Capture adds one. */
  lemma FencesEffect(env: Env, w: World, s: Step, w': World, k: Key)
    requires w' == Apply(env, w, s) && k in w'.ledger.replay
    ensures w.captured <= w'.captured
    ensures if k in w.ledger.replay then w'.ledger.replay[k] == w.ledger.replay[k] else s.DoCapture?
  {
    var t := StepShape(env, w, s, w'.ledger);
  }

  lemma StepKeepsWritten(env: Env, w: World, s: Step, w': World)
    requires Written(env, w) && w' == Apply(env, w, s)
    ensures Written(env, w')
  {
    forall k | k in w'.ledger.replay
      ensures exists x :: x in w'.captured && env.digest(x.replayId) == k && x.fence == w'.ledger.replay[k]
    {
      FencesEffect(env, w, s, w', k);
      if k !in w.ledger.replay { CaptureWrites(env, w, s.capture, w', k); }
    }
  }

  /** What the first transaction of Complete changes, and that it was in time. */
  lemma BurnEffect(env: Env, w: World, c: CompleteCall) returns (x: Origin)
    requires Covered(w) && Timely(w) && Plausible(env, w, DoBurn(c)) && Apply(env, w, DoBurn(c)) != w
    ensures c.id in w.source && x == w.source[c.id] && x in w.captured && x.id == c.id && x.born < x.end
    ensures c.id in w.ledger.requests && !w.ledger.requests[c.id].request.consumed
    ensures var w' := Apply(env, w, DoBurn(c));
            var r := w.ledger.requests[c.id];
            var spent := r.(request := r.request.(consumed := true));
            && w' == w.(ledger := w'.ledger, inFlight := w.inFlight + multiset{InFlight(c, spent, x)})
            && w'.ledger.requests == w.ledger.requests[c.id := spent]
            && w'.ledger.captures == w.ledger.captures && w'.ledger.verified == w.ledger.verified
  {
    x := w.source[c.id];
    assert w.ledger.captures[c.id] == x.capture;
  }

  /** What the second transaction of Complete changes. */
  lemma CommitEffect(env: Env, w: World, p: InFlight, a: Answers) returns (e: StoredEvent)
    requires Apply(env, w, DoCommit(p, a)) != w
    ensures p in w.inFlight && p.call.id !in w.ledger.verified && !e.consumed
    ensures Verified(env, p.call, p.request, p.origin.capture, a) == Some(e)
    ensures var w' := Apply(env, w, DoCommit(p, a));
            && w' == w.(ledger := w'.ledger, inFlight := w.inFlight - multiset{p},
                        commits := w.commits + [Committed(p.origin, e)])
            && w'.ledger.requests == w.ledger.requests && w'.ledger.captures == w.ledger.captures
            && w'.ledger.verified == w.ledger.verified[p.call.id := e]
  {
    e := Verified(env, p.call, p.request, p.origin.capture, a).value;
  }

  lemma CaptureKeepsTimely(env: Env, w: World, k: CaptureCall)
    requires Timely(w)
    ensures Timely(Apply(env, w, DoCapture(k)))
  {
  }

  lemma BurnKeepsTimely(w: World, w': World, n: InFlight)
    requires Timely(w) && n.origin in w.captured && n.origin.id == n.call.id && n.origin.born < n.origin.end
    requires w' == w.(ledger := w'.ledger, inFlight := w.inFlight + multiset{n})
             && w'.ledger.captures == w.ledger.captures
    ensures Timely(w')
  {
    forall p | p in w'.inFlight ensures p in w.inFlight || p == n { }
  }

  lemma CommitKeepsTimely(w: World, w': World, p: InFlight, e: StoredEvent)
    requires Timely(w) && p in w.inFlight && w'.ledger.captures == w.ledger.captures
    requires w' == w.(ledger := w'.ledger, inFlight := w.inFlight - multiset{p},
                      commits := w.commits + [Committed(p.origin, e)])
    ensures Timely(w')
  {
    forall q | q in w'.inFlight ensures q in w.inFlight { }
  }

  /** Steps that leave the calls in flight, the captures' provenance and the commits alone. */
  lemma QuietEffect(env: Env, w: World, s: Step)
    requires s.DoBegin? || s.DoLookup? || s.DoVerify? || s.DoPrune?
    ensures var w' := Apply(env, w, s);
            && w' == w.(ledger := w'.ledger, issued := w'.issued, found := w'.found, releases := w'.releases)
            && (forall id :: id in w'.ledger.captures ==>
                  id in w.ledger.captures && w'.ledger.captures[id] == w.ledger.captures[id])
  {
  }

  lemma StepKeepsTimely(env: Env, w: World, s: Step, w': World)
    requires Covered(w) && Timely(w) && Plausible(env, w, s) && w' == Apply(env, w, s)
    ensures Timely(w')
  {
    if w' != w {
      match s
      case DoCapture(k) => CaptureKeepsTimely(env, w, k);
      case DoBurn(c) =>
        var x := BurnEffect(env, w, c);
        BurnKeepsTimely(w, w', InFlight(c, w'.ledger.requests[c.id], x));
      case DoCommit(p, a) =>
        var e := CommitEffect(env, w, p, a);
        CommitKeepsTimely(w, w', p, e);
      case _ => QuietEffect(env, w, s);
    }
  }

  /* ---- One event per request ---- */

  ghost predicate Spent(w: World, id: Key)
  {
    id in w.issued && (id in w.ledger.requests ==> w.ledger.requests[id].request.consumed)
  }

  /** At most one call in flight holds an ID, and it has been spent. */
  ghost predicate CallsDistinct(w: World)
  {
    && (forall p :: p in w.inFlight ==> w.inFlight[p] == 1 && Spent(w, p.call.id) && p.origin.id == p.call.id)
    && (forall p, q :: p in w.inFlight && q in w.inFlight && p.call.id == q.call.id ==> p == q)
  }

  /** Each commit spent its own ID, and no call in flight holds it. */
  ghost predicate CommitsDistinct(w: World)
  {
    && (forall i :: 0 <= i < |w.commits| ==> Spent(w, w.commits[i].origin.id))
    && (forall i, p :: 0 <= i < |w.commits| && p in w.inFlight ==> w.commits[i].origin.id != p.call.id)
    && (forall i, j :: 0 <= i < j < |w.commits| ==> w.commits[i].origin.id != w.commits[j].origin.id)
  }

  ghost predicate CallsHoldTheirIds(w: World)
  {
    (forall id :: id in w.ledger.requests ==> id in w.issued) && CallsDistinct(w) && CommitsDistinct(w)
  }

  lemma CommitRemovesCall(w: World, w': World, p: InFlight)
    requires CallsDistinct(w) && p in w.inFlight && w'.inFlight == w.inFlight - multiset{p}
    ensures forall q :: q in w'.inFlight ==> q in w.inFlight && w'.inFlight[q] == 1 && q.call.id != p.call.id
  {
    forall q | q in w'.inFlight ensures q in w.inFlight && w'.inFlight[q] == 1 && q.call.id != p.call.id {
      assert q in w.inFlight && w.inFlight[p] == 1;
    }
  }

  lemma CommitKeepsCalls(w: World, w': World, p: InFlight)
    requires CallsDistinct(w) && p in w.inFlight && w'.inFlight == w.inFlight - multiset{p}
    requires forall id :: Spent(w, id) ==> Spent(w', id)
    ensures CallsDistinct(w')
  {
    CommitRemovesCall(w, w', p);
  }

  lemma CommitKeepsCommits(w: World, w': World, p: InFlight, c: Committed)
    requires CommitsDistinct(w) && p in w.inFlight && c.origin.id == p.call.id && w'.commits == w.commits + [c]
    requires forall q :: q in w'.inFlight ==> q in w.inFlight && q.call.id != p.call.id
    requires Spent(w, p.call.id) && forall id :: Spent(w, id) ==> Spent(w', id)
    ensures CommitsDistinct(w')
  {
  }

  lemma CommitKeepsIds(w: World, w': World, p: InFlight, e: StoredEvent)
    requires CallsHoldTheirIds(w) && p in w.inFlight
    requires w'.inFlight == w.inFlight - multiset{p} && w'.issued == w.issued && w'.ledger.requests == w.ledger.requests
    requires w'.commits == w.commits + [Committed(p.origin, e)]
    ensures CallsHoldTheirIds(w')
  {
    forall id | Spent(w, id) ensures Spent(w', id) { }
    CommitKeepsCalls(w, w', p);
    CommitRemovesCall(w, w', p);
    CommitKeepsCommits(w, w', p, Committed(p.origin, e));
  }

  lemma BurnKeepsIds(w: World, w': World, n: InFlight, r: BrokerRequest)
    requires CallsHoldTheirIds(w) && n.call.id in w.ledger.requests && !w.ledger.requests[n.call.id].request.consumed
    requires n.origin.id == n.call.id && r.request.consumed
    requires w'.inFlight == w.inFlight + multiset{n} && w'.issued == w.issued && w'.commits == w.commits
    requires w'.ledger.requests == w.ledger.requests[n.call.id := r]
    ensures CallsHoldTheirIds(w')
  {
    forall p | p in w.inFlight ensures p.call.id != n.call.id && Spent(w', p.call.id) { assert Spent(w, p.call.id); }
    forall i | 0 <= i < |w.commits| ensures w.commits[i].origin.id != n.call.id && Spent(w', w.commits[i].origin.id) {
      assert Spent(w, w.commits[i].origin.id);
    }
    forall p | p in w'.inFlight ensures p == n || p in w.inFlight { }
    assert n !in w.inFlight;
  }

  lemma OtherStepsKeepIds(w: World, w': World)
    requires CallsHoldTheirIds(w)
    requires w'.inFlight == w.inFlight && w'.commits == w.commits && w.issued <= w'.issued
    requires forall id :: id in w'.ledger.requests ==> id in w'.issued
    requires forall id :: id in w'.ledger.requests && id in w.issued ==>
               id in w.ledger.requests && w'.ledger.requests[id] == w.ledger.requests[id]
    ensures CallsHoldTheirIds(w')
  {
    forall id | Spent(w, id) ensures Spent(w', id) { }
  }

  /** Steps other than Complete add requests only under fresh IDs, and change none. */
  lemma RequestsEffect(env: Env, w: World, s: Step)
    requires Plausible(env, w, s) && !s.DoBurn? && !s.DoCommit?
    requires forall id :: id in w.ledger.requests ==> id in w.issued
    ensures var w' := Apply(env, w, s);
            && w'.inFlight == w.inFlight && w'.commits == w.commits && w.issued <= w'.issued
            && (forall id :: id in w'.ledger.requests ==> id in w'.issued)
            && (forall id :: id in w'.ledger.requests && id in w.issued ==>
                  id in w.ledger.requests && w'.ledger.requests[id] == w.ledger.requests[id])
  {
  }

  lemma StepKeepsIds(env: Env, w: World, s: Step, w': World)
    requires Covered(w) && Timely(w) && CallsHoldTheirIds(w) && Plausible(env, w, s) && w' == Apply(env, w, s)
    ensures CallsHoldTheirIds(w')
  {
    if w' != w {
      match s
      case DoBurn(c) =>
        var x := BurnEffect(env, w, c);
        BurnKeepsIds(w, w', InFlight(c, w'.ledger.requests[c.id], x), w'.ledger.requests[c.id]);
      case DoCommit(p, a) =>
        var e := CommitEffect(env, w, p, a);
        CommitKeepsIds(w, w', p, e);
      case _ =>
        RequestsEffect(env, w, s);
        OtherStepsKeepIds(w, w');
    }
  }

  /* ---- Evidence ---- */

  /** `e` is, up to its consumed mark, the event committed under `id`. */
  ghost predicate CommittedAs(commits: seq<Committed>, id: Key, e: StoredEvent)
  {
    exists i :: 0 <= i < |commits| && commits[i].origin.id == id && commits[i].event.(consumed := e.consumed) == e
  }

  ghost predicate ReleasedFrom(commits: seq<Committed>, r: Released)
  {
    exists i :: 0 <= i < |commits| && commits[i].origin.id == r.id
      && commits[i].event.bundle.principal == r.principal && commits[i].event.bundle.assurance == r.assurance
  }

  ghost predicate EvidenceTraced(w: World)
  {
    && (forall id :: id in w.ledger.verified ==> CommittedAs(w.commits, id, w.ledger.verified[id]))
    && (forall r :: 0 <= r < |w.releases| ==> ReleasedFrom(w.commits, w.releases[r]))
    && (forall r :: 0 <= r < |w.releases| && w.releases[r].id in w.ledger.verified ==>
          w.ledger.verified[w.releases[r].id].consumed)
    && (forall r, q :: 0 <= r < q < |w.releases| ==> w.releases[r].id != w.releases[q].id)
  }

  lemma TracesExtend(commits: seq<Committed>, c: Committed)
    ensures forall id, e :: CommittedAs(commits, id, e) ==> CommittedAs(commits + [c], id, e)
    ensures forall r :: ReleasedFrom(commits, r) ==> ReleasedFrom(commits + [c], r)
  {
    var more := commits + [c];
    forall id, e | CommittedAs(commits, id, e) ensures CommittedAs(more, id, e) {
      var i :| 0 <= i < |commits| && commits[i].origin.id == id && commits[i].event.(consumed := e.consumed) == e;
      assert more[i] == commits[i];
    }
    forall r | ReleasedFrom(commits, r) ensures ReleasedFrom(more, r) {
      var i :| 0 <= i < |commits| && commits[i].origin.id == r.id
        && commits[i].event.bundle.principal == r.principal && commits[i].event.bundle.assurance == r.assurance;
      assert more[i] == commits[i];
    }
  }

  lemma CommitKeepsEvidence(w: World, w': World, p: InFlight, e: StoredEvent)
    requires CallsHoldTheirIds(w) && EvidenceTraced(w) && p in w.inFlight && p.call.id !in w.ledger.verified
    requires w'.releases == w.releases && w'.ledger.verified == w.ledger.verified[p.call.id := e]
    requires w'.commits == w.commits + [Committed(p.origin, e)]
    ensures EvidenceTraced(w')
  {
    TracesExtend(w.commits, Committed(p.origin, e));
    assert w'.commits[|w.commits|].event.(consumed := e.consumed) == e;
    assert CommittedAs(w'.commits, p.call.id, e);
    forall r | 0 <= r < |w.releases| ensures w.releases[r].id != p.call.id {
      assert ReleasedFrom(w.commits, w.releases[r]);
    }
  }

  /** What a successful Verify call changes. */
  lemma VerifyEffect(env: Env, w: World, id: Key, s: TrustSnapshot, o: Time, c: Time) returns (e: StoredEvent)
    requires Apply(env, w, DoVerify(id, s, o, c)) != w
    ensures id in w.ledger.verified && e == w.ledger.verified[id] && !e.consumed
    ensures var w' := Apply(env, w, DoVerify(id, s, o, c));
            && w'.ledger.verified == w.ledger.verified[id := e.(consumed := true)] && w'.commits == w.commits
            && w'.releases == w.releases + [Released(id, e.bundle.principal, e.bundle.assurance)]
  {
    e := w.ledger.verified[id];
  }

  /** The mark does not matter to where an event came from, and releasing it hands out what was committed. */
  lemma ConsumedTraces(commits: seq<Committed>, id: Key, e: StoredEvent)
    requires CommittedAs(commits, id, e)
    ensures CommittedAs(commits, id, e.(consumed := true))
    ensures ReleasedFrom(commits, Released(id, e.bundle.principal, e.bundle.assurance))
  {
    var i :| 0 <= i < |commits| && commits[i].origin.id == id && commits[i].event.(consumed := e.consumed) == e;
    assert commits[i].event.(consumed := true) == e.(consumed := true);
    assert commits[i].event.bundle == e.bundle;
  }

  lemma ReleaseKeepsEvidence(w: World, w': World, id: Key, e: StoredEvent)
    requires EvidenceTraced(w) && id in w.ledger.verified && e == w.ledger.verified[id] && !e.consumed
    requires w'.ledger.verified == w.ledger.verified[id := e.(consumed := true)] && w'.commits == w.commits
    requires w'.releases == w.releases + [Released(id, e.bundle.principal, e.bundle.assurance)]
    ensures EvidenceTraced(w')
  {
    ConsumedTraces(w.commits, id, e);
  }

  /** Steps other than Complete's commit and Verify keep every stored event or remove it. */
  lemma EventsEffect(env: Env, w: World, s: Step)
    requires !s.DoCommit? && !s.DoVerify?
    ensures var w' := Apply(env, w, s);
            && w'.commits == w.commits && w'.releases == w.releases
            && (forall id :: id in w'.ledger.verified ==>
                  id in w.ledger.verified && w'.ledger.verified[id] == w.ledger.verified[id])
  {
  }

  lemma EvidenceThins(w: World, w': World)
    requires EvidenceTraced(w) && w'.commits == w.commits && w'.releases == w.releases
    requires forall id :: id in w'.ledger.verified ==>
               id in w.ledger.verified && w'.ledger.verified[id] == w.ledger.verified[id]
    ensures EvidenceTraced(w')
  {
  }

  lemma StepKeepsEvidence(env: Env, w: World, s: Step, w': World)
    requires CallsHoldTheirIds(w) && EvidenceTraced(w) && w' == Apply(env, w, s)
    ensures EvidenceTraced(w')
  {
    if w' != w {
      if s.DoCommit? {
        var e := CommitEffect(env, w, s.pending, s.answers);
        CommitKeepsEvidence(w, w', s.pending, e);
      } else if s.DoVerify? {
        var e := VerifyEffect(env, w, s.id, s.snapshot, s.observed, s.checked);
        ReleaseKeepsEvidence(w, w', s.id, e);
      } else {
        EventsEffect(env, w, s);
        EvidenceThins(w, w');
      }
    }
  }

  /* ---- What an assertion determines ---- */

  function IssuedReplayId(env: Env, p: Protocol, assertion: string): string
  {
    if p == Oidc then env.decodeToken(assertion).token.issuer + "\0" + env.digest(assertion)
    else env.decodeSaml(assertion).issuer + "\0" + env.decodeSaml(assertion).id
  }

  /** The assertion and its protocol fix the replay ID and the end of every capture made from it. */
  ghost predicate Named(env: Env, captured: set<Origin>)
  {
    forall x :: x in captured ==>
      && x.replayId == IssuedReplayId(env, x.capture.principal.protocol, x.assertion)
      && x.end == AssertionEnd(env, x.capture.principal.protocol, x.assertion)
  }

  lemma StepKeepsNames(env: Env, w: World, s: Step)
    requires Named(env, w.captured)
    ensures Named(env, Apply(env, w, s).captured)
  {
    match s
    case DoCapture(k) =>
      if Captures(env, w, k) {
        var x := OriginOf(env, k);
        assert x.replayId == IssuedReplayId(env, k.snapshot.trust.protocol, x.assertion);
      }
    case _ =>
  }

  /* ---- Whole runs ---- */

  /** Each event belongs to one request, its evidence to one release. */
  ghost predicate Orderly(env: Env, w: World)
  {
    Covered(w) && Named(env, w.captured) && Timely(w) && CallsHoldTheirIds(w) && EvidenceTraced(w)
  }

  lemma {:induction false} RunIsOrderly(env: Env, steps: seq<Step>, ws: seq<World>, n: nat)
    requires Run(env, steps, ws) && n < |ws|
    ensures Orderly(env, ws[n])
  {
    if n > 0 {
      var w, s := ws[n - 1], steps[n - 1];
      RunIsOrderly(env, steps, ws, n - 1);
      assert Follows(env, steps, ws, n - 1);
      StepKeepsCover(env, w, s, ws[n]);
      StepKeepsNames(env, w, s);
      StepKeepsTimely(env, w, s, ws[n]);
      StepKeepsIds(env, w, s, ws[n]);
      StepKeepsEvidence(env, w, s, ws[n]);
    }
  }

  /** Every maintenance step before position `n` finds no fence between its two readings. */
  ghost predicate ClearBefore(steps: seq<Step>, ws: seq<World>, n: nat)
    requires n <= |steps| < |ws|
  {
    forall i :: 0 <= i < n && steps[i].DoPrune? ==> NoFenceBetween(ws[i].ledger, steps[i].observedAt, steps[i].now)
  }

  lemma {:induction false} RunIsFenced(env: Env, steps: seq<Step>, ws: seq<World>, n: nat)
    requires Run(env, steps, ws) && n < |ws| && ClearBefore(steps, ws, n)
    ensures Fenced(env, ws[n]) && Spaced(ws[n].captured) && Written(env, ws[n])
  {
    if n > 0 {
      RunIsFenced(env, steps, ws, n - 1);
      assert Follows(env, steps, ws, n - 1);
      StepKeepsFences(env, ws[n - 1], steps[n - 1], ws[n]);
      StepKeepsWritten(env, ws[n - 1], steps[n - 1], ws[n]);
    }
  }

  /** Maintenance that drops a fence ending after its durable reading leaves that fence's capture unprotected. */
  lemma LostFence(env: Env, w: World, observed: Time, now: Time, d: Drops, k: Key)
    requires Written(env, w) && PruneTx(w.ledger, observed, now, d).Some? && k in d.replay
             && observed < w.ledger.replay[k]
    ensures !Fenced(env, Apply(env, w, DoPrune(observed, now, d)))
  {
    var x :| x in w.captured && env.digest(x.replayId) == k && x.fence == w.ledger.replay[k];
    var v := Apply(env, w, DoPrune(observed, now, d));
    assert x in v.captured && v.ledger.clock == Some(observed) && k !in v.ledger.replay;
  }

  /** In a reachable world maintenance keeps every capture fenced if and only if the fences it drops had ended. */
  lemma DropsSafeIff(env: Env, steps: seq<Step>, ws: seq<World>, i: nat, observed: Time, now: Time, d: Drops)
    requires Run(env, steps, ws) && i < |ws| && ClearBefore(steps, ws, i)
    requires PruneTx(ws[i].ledger, observed, now, d).Some?
    ensures Fenced(env, Apply(env, ws[i], DoPrune(observed, now, d)))
       <==> forall k :: k in d.replay ==> ws[i].ledger.replay[k] <= observed
  {
    var w := ws[i];
    RunIsFenced(env, steps, ws, i);
    if forall k :: k in d.replay ==> w.ledger.replay[k] <= observed {
      forall x | x in w.captured && env.digest(x.replayId) in d.replay ensures x.fence <= observed { }
      PruneKeepsFencesIff(env, w, observed, now, d);
    } else {
      var k :| k in d.replay && observed < w.ledger.replay[k];
      LostFence(env, w, observed, now, d, k);
    }
  }

  /**
   * The exact condition, read off the state before the call: in a reachable world a batch that takes everything
   * expired keeps every capture fenced if and only if no fence lies between its two readings, and then so does
   * every smaller batch.
   */
  lemma MaintenanceSafeIff(env: Env, steps: seq<Step>, ws: seq<World>, i: nat, observed: Time, now: Time)
    requires Run(env, steps, ws) && i < |ws| && ClearBefore(steps, ws, i)
    requires !Behind(ws[i].ledger, observed)
    ensures Fenced(env, Apply(env, ws[i], DoPrune(observed, now, AllExpired(ws[i].ledger, now))))
       <==> NoFenceBetween(ws[i].ledger, observed, now)
    ensures (forall d: Drops :: Fenced(env, Apply(env, ws[i], DoPrune(observed, now, d))))
       <==> NoFenceBetween(ws[i].ledger, observed, now)
  {
    var w := ws[i];
    var all := AllExpired(w.ledger, now);
    DropsSafeIff(env, steps, ws, i, observed, now, all);
    assert forall k :: k in w.ledger.replay && w.ledger.replay[k] <= now ==> k in all.replay;
    if NoFenceBetween(w.ledger, observed, now) {
      RunIsFenced(env, steps, ws, i);
      forall d: Drops ensures Fenced(env, Apply(env, w, DoPrune(observed, now, d))) {
        PruneKeepsFences(env, w, observed, now, d);
      }
    }
  }

  /** Two events with one replay ID come from assertions that end at different times. */
  lemma ReplayIdVerifiedOnce(env: Env, steps: seq<Step>, ws: seq<World>, n: nat, i: nat, j: nat)
    requires Run(env, steps, ws) && n < |ws| && ClearBefore(steps, ws, n) && i < j < |ws[n].commits|
    requires ws[n].commits[i].origin.replayId == ws[n].commits[j].origin.replayId
    ensures ws[n].commits[i].origin.end != ws[n].commits[j].origin.end
  {
    RunIsOrderly(env, steps, ws, n);
    RunIsFenced(env, steps, ws, n);
    var x, y := ws[n].commits[i].origin, ws[n].commits[j].origin;
    assert x.id != y.id;
    assert x.fence <= y.born || y.fence <= x.born;
  }

  /** One upstream assertion never yields two verified events. */
  lemma AssertionVerifiedOnce(env: Env, steps: seq<Step>, ws: seq<World>, n: nat, i: nat, j: nat)
    requires Run(env, steps, ws) && n < |ws| && ClearBefore(steps, ws, n) && i < j < |ws[n].commits|
    ensures var x, y := ws[n].commits[i].origin, ws[n].commits[j].origin;
            x.capture.principal.protocol != y.capture.principal.protocol || x.assertion != y.assertion
  {
    RunIsOrderly(env, steps, ws, n);
    var x, y := ws[n].commits[i].origin, ws[n].commits[j].origin;
    if x.replayId == y.replayId { ReplayIdVerifiedOnce(env, steps, ws, n, i, j); }
    assert x in ws[n].captured && y in ws[n].captured;
  }

  /** Each event ID's evidence is released at most once, and it is the evidence that was committed. */
  lemma EvidenceReleasedOnce(env: Env, steps: seq<Step>, ws: seq<World>)
    requires Run(env, steps, ws)
    ensures var w := ws[|steps|];
            && (forall i, j :: 0 <= i < j < |w.releases| ==> w.releases[i].id != w.releases[j].id)
            && (forall i :: 0 <= i < |w.releases| ==> ReleasedFrom(w.commits, w.releases[i]))
  {
    RunIsOrderly(env, steps, ws, |steps|);
  }
}
