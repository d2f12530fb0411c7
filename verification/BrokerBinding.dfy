/** Every verified broker event answers one login: its nonce found the request, its session completed it. */
module BrokerBinding {
  import opened KeyOrder
  import opened BrokerEvents
  import opened BrokerRuns

  /** Step `a` is a Begin that committed and so issued `id`. */
  ghost predicate Opened(env: Env, steps: seq<Step>, ws: seq<World>, a: nat, id: Key)
  {
    a < |steps| && a + 1 < |ws| && steps[a].DoBegin? && steps[a].begin.id == id && id !in ws[a].issued
    && id in ws[a + 1].issued
  }

  /** Step `a` stored the request that is, up to its consumed mark, `r` under `id`. */
  ghost predicate Began(env: Env, steps: seq<Step>, ws: seq<World>, a: nat, id: Key, r: BrokerRequest)
  {
    Opened(env, steps, ws, a, id) && Request(env, steps[a].begin) == r.(request := r.request.(consumed := false))
  }

  ghost predicate BegunAs(env: Env, steps: seq<Step>, ws: seq<World>, n: nat, id: Key, r: BrokerRequest)
  {
    exists a: nat :: a < n && Began(env, steps, ws, a, id, r)
  }

  /** The request was found through the nonce that its login began with. */
  ghost predicate FoundBound(env: Env, steps: seq<Step>, ws: seq<World>, n: nat, f: Found)
  {
    BegunAs(env, steps, ws, n, f.id, f.request) && f.request.request.nonceDigest == env.digest(f.nonce)
  }

  /** The capture was made by a call whose evidence named that login's nonce. */
  ghost predicate CaptureBound(env: Env, steps: seq<Step>, ws: seq<World>, n: nat, x: Origin)
  {
    exists k: CaptureCall :: OriginOf(env, k) == x && FoundBound(env, steps, ws, n, FoundBy(k))
  }

  /** The completing call knew the login's state, session secret and proof key. */
  predicate Knows(env: Env, r: BrokerRequest, c: CompleteCall)
  {
    env.digest(c.state) == r.request.stateDigest && env.digest(c.browserSecret) == r.request.sessionDigest
    && env.digest(c.pkceVerifier) == r.pkceDigest
  }

  ghost predicate CallBound(env: Env, steps: seq<Step>, ws: seq<World>, n: nat, p: InFlight)
  {
    BegunAs(env, steps, ws, n, p.call.id, p.request) && Knows(env, p.request, p.call) && p.origin.id == p.call.id
  }

  /** The broker's own token carries the login's nonce and names the captured assertion. */
  predicate Answered(env: Env, r: BrokerRequest, x: Origin, raw: string)
  {
    env.digest(env.decodeToken(raw).token.nonce) == r.request.nonceDigest
    && env.decodeToken(raw).evidenceDigest == x.capture.digest
  }

  ghost predicate CommitBound(env: Env, steps: seq<Step>, ws: seq<World>, n: nat, c: Committed)
  {
    exists p: InFlight, raw: string ::
      CallBound(env, steps, ws, n, p) && p.origin == c.origin && Answered(env, p.request, p.origin, raw)
  }

  ghost predicate RequestsBound(env: Env, steps: seq<Step>, ws: seq<World>, n: nat, requests: map<Key, BrokerRequest>)
  {
    forall id :: id in requests ==> BegunAs(env, steps, ws, n, id, requests[id])
  }

  ghost predicate AllFoundBound(env: Env, steps: seq<Step>, ws: seq<World>, n: nat, found: set<Found>)
  {
    forall f :: f in found ==> FoundBound(env, steps, ws, n, f)
  }

  ghost predicate CapturesBound(env: Env, steps: seq<Step>, ws: seq<World>, n: nat, captured: set<Origin>)
  {
    forall x :: x in captured ==> CaptureBound(env, steps, ws, n, x)
  }

  ghost predicate CallsBound(env: Env, steps: seq<Step>, ws: seq<World>, n: nat, calls: multiset<InFlight>)
  {
    forall p :: p in calls ==> CallBound(env, steps, ws, n, p)
  }

  ghost predicate CommitsBound(env: Env, steps: seq<Step>, ws: seq<World>, n: nat, commits: seq<Committed>)
  {
    forall i :: 0 <= i < |commits| ==> CommitBound(env, steps, ws, n, commits[i])
  }

  ghost predicate Bound(env: Env, steps: seq<Step>, ws: seq<World>, n: nat, w: World)
  {
    RequestsBound(env, steps, ws, n, w.ledger.requests) && AllFoundBound(env, steps, ws, n, w.found)
    && CapturesBound(env, steps, ws, n, w.captured) && CallsBound(env, steps, ws, n, w.inFlight)
    && CommitsBound(env, steps, ws, n, w.commits)
  }

  /* ---- Facts stay facts ---- */

  lemma BegunLater(env: Env, steps: seq<Step>, ws: seq<World>, n: nat, id: Key, r: BrokerRequest)
    requires BegunAs(env, steps, ws, n, id, r)
    ensures BegunAs(env, steps, ws, n + 1, id, r)
  {
    var a: nat :| a < n && Began(env, steps, ws, a, id, r);
  }

  lemma CaptureLater(env: Env, steps: seq<Step>, ws: seq<World>, n: nat, x: Origin)
    requires CaptureBound(env, steps, ws, n, x)
    ensures CaptureBound(env, steps, ws, n + 1, x)
  {
    var k: CaptureCall :| OriginOf(env, k) == x && FoundBound(env, steps, ws, n, FoundBy(k));
    BegunLater(env, steps, ws, n, k.id, k.read);
    assert FoundBound(env, steps, ws, n + 1, FoundBy(k));
  }

  lemma CommitLater(env: Env, steps: seq<Step>, ws: seq<World>, n: nat, c: Committed)
    requires CommitBound(env, steps, ws, n, c)
    ensures CommitBound(env, steps, ws, n + 1, c)
  {
    var p: InFlight, raw: string :|
      CallBound(env, steps, ws, n, p) && p.origin == c.origin && Answered(env, p.request, p.origin, raw);
    BegunLater(env, steps, ws, n, p.call.id, p.request);
    assert CallBound(env, steps, ws, n + 1, p);
  }

  lemma BoundLater(env: Env, steps: seq<Step>, ws: seq<World>, n: nat, w: World)
    requires Bound(env, steps, ws, n, w)
    ensures Bound(env, steps, ws, n + 1, w)
  {
    forall id | id in w.ledger.requests ensures BegunAs(env, steps, ws, n + 1, id, w.ledger.requests[id]) {
      BegunLater(env, steps, ws, n, id, w.ledger.requests[id]);
    }
    forall f | f in w.found ensures FoundBound(env, steps, ws, n + 1, f) {
      assert FoundBound(env, steps, ws, n, f);
      BegunLater(env, steps, ws, n, f.id, f.request);
    }
    forall x | x in w.captured ensures CaptureBound(env, steps, ws, n + 1, x) { CaptureLater(env, steps, ws, n, x); }
    forall p | p in w.inFlight ensures CallBound(env, steps, ws, n + 1, p) {
      assert CallBound(env, steps, ws, n, p);
      BegunLater(env, steps, ws, n, p.call.id, p.request);
    }
    forall i | 0 <= i < |w.commits| ensures CommitBound(env, steps, ws, n + 1, w.commits[i]) {
      CommitLater(env, steps, ws, n, w.commits[i]);
    }
  }

  /* ---- One step ---- */

  lemma BeginBinds(env: Env, steps: seq<Step>, ws: seq<World>, n: nat, w: World, w': World)
    requires Bound(env, steps, ws, n + 1, w) && n < |steps| && n + 1 < |ws| && ws[n] == w && ws[n + 1] == w'
    requires steps[n].DoBegin? && Plausible(env, w, steps[n]) && w' == Apply(env, w, steps[n])
    ensures Bound(env, steps, ws, n + 1, w')
  {
    var c := steps[n].begin;
    if BeginTx(env, w.ledger, c).Some? {
      BeginEffect(env, w.ledger, c);
      assert Began(env, steps, ws, n, c.id, Request(env, c));
      assert BegunAs(env, steps, ws, n + 1, c.id, Request(env, c));
    }
  }

  lemma LookupBinds(env: Env, steps: seq<Step>, ws: seq<World>, n: nat, w: World, s: Step)
    requires Bound(env, steps, ws, n, w) && Indexed(w.ledger) && s.DoLookup?
    ensures Bound(env, steps, ws, n, Apply(env, w, s))
  {
    var f := Lookup(env, w.ledger, s.lookup, s.config, s.nonce, s.at);
    if f.Some? {
      assert w.ledger.nonces[env.digest(s.nonce)] in w.ledger.requests;
      assert FoundBound(env, steps, ws, n, f.value);
    }
  }

  lemma CaptureAdded(env: Env, steps: seq<Step>, ws: seq<World>, n: nat, w: World, w': World, k: CaptureCall)
    requires Bound(env, steps, ws, n, w) && FoundBy(k) in w.found && w'.ledger.requests == w.ledger.requests
    requires w'.found == w.found && w'.captured == w.captured + {OriginOf(env, k)}
    requires w'.inFlight == w.inFlight && w'.commits == w.commits
    ensures Bound(env, steps, ws, n, w')
  {
    var x := OriginOf(env, k);
    assert FoundBound(env, steps, ws, n, FoundBy(k));
    assert CaptureBound(env, steps, ws, n, x);
    forall y | y in w'.captured ensures CaptureBound(env, steps, ws, n, y) { assert y == x || y in w.captured; }
  }

  lemma CaptureWorld(env: Env, w: World, k: CaptureCall)
    requires Captures(env, w, k)
    ensures var w' := Apply(env, w, DoCapture(k));
            && w' == w.(ledger := w'.ledger, captured := w.captured + {OriginOf(env, k)}, source := w'.source)
            && w'.ledger.requests == w.ledger.requests
  {
    CaptureShape(env, w, k);
  }

  lemma CaptureBinds(env: Env, steps: seq<Step>, ws: seq<World>, n: nat, w: World, k: CaptureCall, w': World)
    requires Bound(env, steps, ws, n, w) && w' == Apply(env, w, DoCapture(k)) && Captures(env, w, k)
    ensures Bound(env, steps, ws, n, w')
  {
    CaptureWorld(env, w, k);
    CaptureAdded(env, steps, ws, n, w, w', k);
  }

  lemma ConsumedBegun(env: Env, steps: seq<Step>, ws: seq<World>, n: nat, id: Key, r: BrokerRequest)
    requires BegunAs(env, steps, ws, n, id, r)
    ensures BegunAs(env, steps, ws, n, id, r.(request := r.request.(consumed := true)))
  {
    var a: nat :| a < n && Began(env, steps, ws, a, id, r);
    assert Began(env, steps, ws, a, id, r.(request := r.request.(consumed := true)));
  }

  lemma BurnKnows(env: Env, w: World, c: CompleteCall)
    requires BurnTx(env, w.ledger, c).Some?
    ensures c.id in w.ledger.requests && Knows(env, w.ledger.requests[c.id], c)
  {
  }

  lemma CallAdded(env: Env, steps: seq<Step>, ws: seq<World>, n: nat, w: World, w': World, p: InFlight)
    requires Bound(env, steps, ws, n, w) && CallBound(env, steps, ws, n, p)
    requires w' == w.(ledger := w'.ledger, inFlight := w.inFlight + multiset{p})
    requires w'.ledger.requests == w.ledger.requests[p.call.id := p.request]
    ensures Bound(env, steps, ws, n, w')
  {
    forall q | q in w'.inFlight ensures q in w.inFlight || q == p { }
  }

  lemma BurnBinds(env: Env, steps: seq<Step>, ws: seq<World>, n: nat, w: World, c: CompleteCall, w': World)
    requires Bound(env, steps, ws, n, w) && Covered(w) && Timely(w) && Plausible(env, w, DoBurn(c))
    requires w' == Apply(env, w, DoBurn(c)) && w' != w
    ensures Bound(env, steps, ws, n, w')
  {
    var x := BurnEffect(env, w, c);
    BurnKnows(env, w, c);
    var r := w.ledger.requests[c.id];
    assert BegunAs(env, steps, ws, n, c.id, r);
    ConsumedBegun(env, steps, ws, n, c.id, r);
    CallAdded(env, steps, ws, n, w, w', InFlight(c, r.(request := r.request.(consumed := true)), x));
  }

  lemma CommitAnswers(env: Env, w: World, p: InFlight, a: Answers)
    requires Apply(env, w, DoCommit(p, a)) != w
    ensures a.rawToken.Some? && Answered(env, p.request, p.origin, a.rawToken.value)
  {
  }

  lemma FewerCalls(env: Env, steps: seq<Step>, ws: seq<World>, n: nat, calls: multiset<InFlight>, p: InFlight)
    requires CallsBound(env, steps, ws, n, calls)
    ensures CallsBound(env, steps, ws, n, calls - multiset{p})
  {
    forall q | q in calls - multiset{p} ensures q in calls { }
  }

  lemma MoreCommits(env: Env, steps: seq<Step>, ws: seq<World>, n: nat, commits: seq<Committed>, c: Committed)
    requires CommitsBound(env, steps, ws, n, commits) && CommitBound(env, steps, ws, n, c)
    ensures CommitsBound(env, steps, ws, n, commits + [c])
  {
  }

  lemma CommitBinds(env: Env, steps: seq<Step>, ws: seq<World>, n: nat, w: World, p: InFlight, a: Answers, w': World)
    requires Bound(env, steps, ws, n, w) && w' == Apply(env, w, DoCommit(p, a))
    ensures Bound(env, steps, ws, n, w')
  {
    if w' != w {
      var e := CommitEffect(env, w, p, a);
      CommitAnswers(env, w, p, a);
      assert CallBound(env, steps, ws, n, p);
      FewerCalls(env, steps, ws, n, w.inFlight, p);
      MoreCommits(env, steps, ws, n, w.commits, Committed(p.origin, e));
    }
  }

  /** Verification and maintenance add nothing. */
  lemma OthersAddNothing(env: Env, w: World, s: Step)
    requires s.DoVerify? || s.DoPrune?
    ensures var w' := Apply(env, w, s);
            && w' == w.(ledger := w'.ledger, releases := w'.releases)
            && (forall id :: id in w'.ledger.requests ==>
                id in w.ledger.requests && w'.ledger.requests[id] == w.ledger.requests[id])
  {
  }

  lemma StepBinds(env: Env, steps: seq<Step>, ws: seq<World>, n: nat, w: World, w': World)
    requires n < |steps| && n + 1 < |ws| && w == ws[n] && w' == ws[n + 1] && Bound(env, steps, ws, n + 1, w)
    requires Plausible(env, w, steps[n]) && w' == Apply(env, w, steps[n]) && Indexed(w.ledger) && Covered(w)
             && Timely(w)
    ensures Bound(env, steps, ws, n + 1, w')
  {
    var s := steps[n];
    match s
    case DoBegin(_) => BeginBinds(env, steps, ws, n, w, w');
    case DoLookup(_, _, _, _) => LookupBinds(env, steps, ws, n + 1, w, s);
    case DoCapture(k) => if Captures(env, w, k) { CaptureBinds(env, steps, ws, n + 1, w, k, w'); }
    case DoBurn(c) => if w' != w { BurnBinds(env, steps, ws, n + 1, w, c, w'); }
    case DoCommit(p, a) => CommitBinds(env, steps, ws, n + 1, w, p, a, w');
    case _ => OthersAddNothing(env, w, s);
  }

  lemma {:induction false} RunBinds(env: Env, steps: seq<Step>, ws: seq<World>, n: nat)
    requires Run(env, steps, ws) && n < |ws|
    ensures Bound(env, steps, ws, n, ws[n])
  {
    if n > 0 {
      RunBinds(env, steps, ws, n - 1);
      BoundLater(env, steps, ws, n - 1, ws[n - 1]);
      RunKeepsIndex(env, steps, ws, n - 1);
      RunIsOrderly(env, steps, ws, n - 1);
      assert Follows(env, steps, ws, n - 1);
      StepBinds(env, steps, ws, n - 1, ws[n - 1], ws[n]);
    }
  }

  /* ---- One login per ID ---- */

  lemma IssuedEffect(env: Env, w: World, s: Step)
    ensures w.issued <= Apply(env, w, s).issued
  {
  }

  lemma {:induction false} IssuedStays(env: Env, steps: seq<Step>, ws: seq<World>, i: nat, n: nat, id: Key)
    requires Run(env, steps, ws) && i <= n < |ws| && id in ws[i].issued
    ensures id in ws[n].issued
  {
    if i < n {
      IssuedStays(env, steps, ws, i, n - 1, id);
      assert Follows(env, steps, ws, n - 1);
      IssuedEffect(env, ws[n - 1], steps[n - 1]);
    }
  }

  /** No two Begins under one ID commit. */
  lemma OneBegin(env: Env, steps: seq<Step>, ws: seq<World>, a: nat, b: nat, id: Key)
    requires Run(env, steps, ws) && Opened(env, steps, ws, a, id) && Opened(env, steps, ws, b, id)
    ensures a >= b
  {
    if a < b {
      IssuedStays(env, steps, ws, a + 1, b, id);
      assert false;
    }
  }

  /** What binds a verified event to the login `b`: `k` captured its evidence, `c` completed it with the token `raw`. */
  predicate BoundTo(env: Env, b: BeginCall, k: CaptureCall, c: CompleteCall, raw: string)
  {
    && b.id == k.id == c.id && env.digest(k.input.nonce) == env.digest(b.nonce)
    && env.digest(c.state) == env.digest(b.state) && env.digest(c.browserSecret) == b.sessionDigest
    && env.digest(c.pkceVerifier) == env.digest(b.pkceVerifier)
    && env.digest(env.decodeToken(raw).token.nonce) == env.digest(b.nonce)
    && env.decodeToken(raw).evidenceDigest == env.digest(k.input.assertion)
  }

  lemma CommittedCall(env: Env, steps: seq<Step>, ws: seq<World>, n: nat, i: nat)
    returns (p: InFlight, raw: string, x: nat)
    requires Run(env, steps, ws) && n < |ws| && i < |ws[n].commits|
    ensures p.origin == ws[n].commits[i].origin && p.call.id == p.origin.id && Knows(env, p.request, p.call)
    ensures Answered(env, p.request, p.origin, raw) && x < n && Began(env, steps, ws, x, p.call.id, p.request)
  {
    RunBinds(env, steps, ws, n);
    assert CommitBound(env, steps, ws, n, ws[n].commits[i]);
    p, raw :| CallBound(env, steps, ws, n, p) && p.origin == ws[n].commits[i].origin
      && Answered(env, p.request, p.origin, raw);
    x :| x < n && Began(env, steps, ws, x, p.call.id, p.request);
  }

  lemma CommittedCapture(env: Env, steps: seq<Step>, ws: seq<World>, n: nat, i: nat) returns (k: CaptureCall, y: nat)
    requires Run(env, steps, ws) && n < |ws| && i < |ws[n].commits|
    ensures OriginOf(env, k) == ws[n].commits[i].origin && k.read.request.nonceDigest == env.digest(k.input.nonce)
    ensures y < n && Began(env, steps, ws, y, k.id, k.read)
  {
    RunBinds(env, steps, ws, n);
    RunIsOrderly(env, steps, ws, n);
    var x := ws[n].commits[i].origin;
    assert x in ws[n].captured && CaptureBound(env, steps, ws, n, x);
    k :| OriginOf(env, k) == x && FoundBound(env, steps, ws, n, FoundBy(k));
    y :| y < n && Began(env, steps, ws, y, k.id, k.read);
  }

  /**
   * Every verified event goes back to the one Begin that committed under its ID: the captured evidence named that
   * login's nonce, the completing call presented its state, session secret and proof key, and the broker's token
   * carries its nonce and names the captured assertion.
   */
  lemma CommitAnswersItsLogin(env: Env, steps: seq<Step>, ws: seq<World>, n: nat, i: nat)
    returns (a: nat, b: BeginCall, k: CaptureCall, c: CompleteCall, raw: string)
    requires Run(env, steps, ws) && n < |ws| && i < |ws[n].commits|
    ensures b.id == ws[n].commits[i].origin.id && OriginOf(env, k) == ws[n].commits[i].origin
    ensures a < n && steps[a] == DoBegin(b) && Opened(env, steps, ws, a, b.id)
    ensures forall x: nat :: Opened(env, steps, ws, x, b.id) ==> x == a
    ensures BoundTo(env, b, k, c, raw)
  {
    var p, y;
    p, raw, a := CommittedCall(env, steps, ws, n, i);
    k, y := CommittedCapture(env, steps, ws, n, i);
    b, c := steps[a].begin, p.call;
    forall x: nat | Opened(env, steps, ws, x, b.id) ensures x == a {
      OneBegin(env, steps, ws, x, a, b.id);
      OneBegin(env, steps, ws, a, x, b.id);
    }
  }
}
