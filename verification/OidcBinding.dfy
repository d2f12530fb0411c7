/** Every committed OIDC event answers one login: the request that was begun, by the session that began it. */
module OidcBinding {
  import opened KeyOrder
  import opened Models
  import opened OidcEvents

  /** Step `a` is a Begin that committed and so issued `id`. */
  ghost predicate Opened(steps: seq<Step>, ws: seq<World>, a: nat, id: Key)
  {
    && a < |steps| && a + 1 < |ws| && steps[a].DoBegin? && steps[a].begin.id == id
    && id !in ws[a].issued && id in ws[a + 1].issued
  }

  /** Step `a` stored the request that is, up to its consumed mark, `r` under `id`. */
  ghost predicate Began(env: Env, steps: seq<Step>, ws: seq<World>, a: nat, id: Key, r: StoredRequest)
  {
    Opened(steps, ws, a, id) && Request(env, steps[a].begin).(consumed := r.consumed) == r
  }

  /** A Begin among the first `n` steps stored it. */
  ghost predicate BegunAs(env: Env, steps: seq<Step>, ws: seq<World>, n: nat, id: Key, r: StoredRequest)
  {
    exists a: nat :: a < n && Began(env, steps, ws, a, id, r)
  }

  /** The call that burned the request knew its state and its session secret. */
  predicate Knows(env: Env, r: StoredRequest, c: CompleteCall)
  {
    env.digest(c.state) == r.stateDigest && env.digest(c.sessionSecret) == r.sessionDigest
    && r.trustId == c.snapshot.trust.id && r.snapshotId == c.snapshot.snapshotId
    && r.revision == c.snapshot.approvedRevision
  }

  predicate Answered(env: Env, r: StoredRequest, token: IdToken)
  {
    env.digest(token.nonce) == r.nonceDigest && r.createdAt - SECOND <= token.issuedAt && token.issuedAt < token.expiry
  }

  ghost predicate CallBound(env: Env, steps: seq<Step>, ws: seq<World>, n: nat, p: InFlight)
  {
    BegunAs(env, steps, ws, n, p.call.id, p.request) && Knows(env, p.request, p.call)
  }

  /** The request and the completing call behind a commit. */
  ghost predicate CommitBound(env: Env, steps: seq<Step>, ws: seq<World>, n: nat, c: Committed)
  {
    exists p: InFlight :: CallBound(env, steps, ws, n, p) && p.call.id == c.id && p.call.rawToken == c.rawToken
      && Answered(env, p.request, env.decode(c.rawToken))
  }

  ghost predicate RequestsTraced(env: Env, steps: seq<Step>, ws: seq<World>, n: nat, requests: map<Key, StoredRequest>)
  {
    forall id :: id in requests ==> BegunAs(env, steps, ws, n, id, requests[id])
  }

  ghost predicate CallsTraced(env: Env, steps: seq<Step>, ws: seq<World>, n: nat, calls: multiset<InFlight>)
  {
    forall p :: p in calls ==> CallBound(env, steps, ws, n, p)
  }

  ghost predicate CommitsTraced(env: Env, steps: seq<Step>, ws: seq<World>, n: nat, commits: seq<Committed>)
  {
    forall i :: 0 <= i < |commits| ==> CommitBound(env, steps, ws, n, commits[i])
  }

  ghost predicate Traced(env: Env, steps: seq<Step>, ws: seq<World>, n: nat, w: World)
  {
    RequestsTraced(env, steps, ws, n, w.ledger.requests) && CallsTraced(env, steps, ws, n, w.inFlight)
    && CommitsTraced(env, steps, ws, n, w.commits)
  }

  lemma BegunLater(env: Env, steps: seq<Step>, ws: seq<World>, n: nat, id: Key, r: StoredRequest)
    requires BegunAs(env, steps, ws, n, id, r)
    ensures BegunAs(env, steps, ws, n + 1, id, r)
  {
    var a: nat :| a < n && Began(env, steps, ws, a, id, r);
  }

  lemma CommitLater(env: Env, steps: seq<Step>, ws: seq<World>, n: nat, c: Committed)
    requires CommitBound(env, steps, ws, n, c)
    ensures CommitBound(env, steps, ws, n + 1, c)
  {
    var p: InFlight :| CallBound(env, steps, ws, n, p) && p.call.id == c.id && p.call.rawToken == c.rawToken
      && Answered(env, p.request, env.decode(c.rawToken));
    BegunLater(env, steps, ws, n, p.call.id, p.request);
    assert CallBound(env, steps, ws, n + 1, p);
  }

  lemma TracedLater(env: Env, steps: seq<Step>, ws: seq<World>, n: nat, w: World)
    requires Traced(env, steps, ws, n, w)
    ensures Traced(env, steps, ws, n + 1, w)
  {
    forall id | id in w.ledger.requests ensures BegunAs(env, steps, ws, n + 1, id, w.ledger.requests[id]) {
      BegunLater(env, steps, ws, n, id, w.ledger.requests[id]);
    }
    forall p | p in w.inFlight ensures CallBound(env, steps, ws, n + 1, p) {
      assert CallBound(env, steps, ws, n, p);
      BegunLater(env, steps, ws, n, p.call.id, p.request);
    }
    forall i | 0 <= i < |w.commits| ensures CommitBound(env, steps, ws, n + 1, w.commits[i]) {
      CommitLater(env, steps, ws, n, w.commits[i]);
    }
  }

  /** What a burn adds: the call with the request it consumed. */
  lemma BurnEffect(env: Env, w: World, c: CompleteCall)
    requires Apply(env, w, DoBurn(c)) != w
    ensures c.id in w.ledger.requests
    ensures var w' := Apply(env, w, DoBurn(c));
            var r := w.ledger.requests[c.id].(consumed := true);
            && w'.ledger.requests == w.ledger.requests[c.id := r]
            && w'.inFlight == w.inFlight + multiset{InFlight(c, r)}
            && w'.commits == w.commits && Knows(env, r, c)
  {
  }

  lemma CommitAnswers(env: Env, w: World, p: InFlight, a: Answers)
    requires Apply(env, w, DoCommit(p, a)) != w
    ensures Answered(env, p.request, env.decode(p.call.rawToken))
  {
  }

  /** Steps other than Complete leave the calls and commits alone; only a committing Begin adds a request. */
  lemma OtherEffect(env: Env, w: World, s: Step)
    requires !s.DoBurn? && !s.DoCommit?
    ensures var w' := Apply(env, w, s);
            && w'.inFlight == w.inFlight && w'.commits == w.commits
            && (forall id :: id in w'.ledger.requests ==>
                  (id in w.ledger.requests && w'.ledger.requests[id] == w.ledger.requests[id])
                  || (s.DoBegin? && s.begin.id == id && id in w'.issued
                      && Request(env, s.begin) == w'.ledger.requests[id]))
  {
  }

  lemma ConsumedBegun(env: Env, steps: seq<Step>, ws: seq<World>, n: nat, id: Key, r: StoredRequest)
    requires BegunAs(env, steps, ws, n, id, r)
    ensures BegunAs(env, steps, ws, n, id, r.(consumed := true))
  {
    var a: nat :| a < n && Began(env, steps, ws, a, id, r);
    assert Began(env, steps, ws, a, id, r.(consumed := true));
  }

  lemma BurnTraced(env: Env, steps: seq<Step>, ws: seq<World>, n: nat, w: World, c: CompleteCall, w': World)
    requires Traced(env, steps, ws, n, w) && w' == Apply(env, w, DoBurn(c)) && w' != w
    ensures Traced(env, steps, ws, n, w')
  {
    BurnEffect(env, w, c);
    var q := w.ledger.requests[c.id];
    ConsumedBegun(env, steps, ws, n, c.id, q);
    assert CallBound(env, steps, ws, n, InFlight(c, q.(consumed := true)));
    forall p | p in w'.inFlight ensures p in w.inFlight || p == InFlight(c, q.(consumed := true)) { }
  }

  lemma CommitAdded(env: Env, steps: seq<Step>, ws: seq<World>, n: nat, w: World, w': World, p: InFlight, c: Committed)
    requires Traced(env, steps, ws, n, w) && CommitBound(env, steps, ws, n, c)
    requires w'.ledger.requests == w.ledger.requests && w'.inFlight == w.inFlight - multiset{p}
             && w'.commits == w.commits + [c]
    ensures Traced(env, steps, ws, n, w')
  {
    forall q | q in w'.inFlight ensures q in w.inFlight { }
  }

  lemma CommitTraced(env: Env, steps: seq<Step>, ws: seq<World>, n: nat, w: World, p: InFlight, a: Answers, w': World)
    requires Traced(env, steps, ws, n, w) && w' == Apply(env, w, DoCommit(p, a)) && w' != w
    ensures Traced(env, steps, ws, n, w')
  {
    var e := CommitEffect(env, w, p, a);
    CommitAnswers(env, w, p, a);
    assert CallBound(env, steps, ws, n, p);
    CommitAdded(env, steps, ws, n, w, w', p, Committed(p.call.id, p.call.rawToken, e));
  }

  lemma StepTraced(env: Env, steps: seq<Step>, ws: seq<World>, n: nat, w: World, w': World)
    requires n < |steps| && n + 1 < |ws| && w == ws[n] && w' == ws[n + 1] && Plausible(w, steps[n])
    requires Traced(env, steps, ws, n, w) && w' == Apply(env, w, steps[n])
    ensures Traced(env, steps, ws, n + 1, w')
  {
    var s := steps[n];
    TracedLater(env, steps, ws, n, w);
    if s.DoBurn? {
      if w' != w { BurnTraced(env, steps, ws, n + 1, w, s.complete, w'); }
    } else if s.DoCommit? {
      if w' != w { CommitTraced(env, steps, ws, n + 1, w, s.pending, s.answers, w'); }
    } else {
      OtherEffect(env, w, s);
      forall id | id in w'.ledger.requests ensures BegunAs(env, steps, ws, n + 1, id, w'.ledger.requests[id]) {
        if !(id in w.ledger.requests && w'.ledger.requests[id] == w.ledger.requests[id]) {
          assert Began(env, steps, ws, n, id, w'.ledger.requests[id]);
        }
      }
    }
  }

  lemma {:induction false} RunTraced(env: Env, steps: seq<Step>, ws: seq<World>, n: nat)
    requires Run(env, steps, ws) && n < |ws|
    ensures Traced(env, steps, ws, n, ws[n])
  {
    if n > 0 {
      RunTraced(env, steps, ws, n - 1);
      assert Follows(env, steps, ws, n - 1);
      StepTraced(env, steps, ws, n - 1, ws[n - 1], ws[n]);
    }
  }

  lemma {:induction false} IssuedStays(env: Env, steps: seq<Step>, ws: seq<World>, i: nat, n: nat, id: Key)
    requires Run(env, steps, ws) && i <= n < |ws| && id in ws[i].issued
    ensures id in ws[n].issued
  {
    if i < n {
      IssuedStays(env, steps, ws, i, n - 1, id);
      assert Follows(env, steps, ws, n - 1);
    }
  }

  /** No two Begins under one ID commit. */
  lemma OneBegin(env: Env, steps: seq<Step>, ws: seq<World>, a: nat, b: nat, id: Key)
    requires Run(env, steps, ws) && Opened(steps, ws, a, id) && Opened(steps, ws, b, id)
    ensures a >= b
  {
    if a < b {
      IssuedStays(env, steps, ws, a + 1, b, id);
      assert false;
    }
  }

  /**
   * Every committed event goes back to the one Begin that committed under its ID: the completing call presented that
   * login's state and the secret of that login's session, and the token carries that login's nonce and was issued no
   * earlier.
   */
  lemma CommitAnswersItsLogin(env: Env, steps: seq<Step>, ws: seq<World>, n: nat, i: nat)
    returns (a: nat, b: BeginCall, c: CompleteCall)
    requires Run(env, steps, ws) && n < |ws| && i < |ws[n].commits|
    ensures b.id == ws[n].commits[i].id == c.id && c.rawToken == ws[n].commits[i].rawToken
    ensures a < n && steps[a] == DoBegin(b) && Opened(steps, ws, a, b.id)
    ensures forall x: nat :: Opened(steps, ws, x, b.id) ==> x == a
    ensures env.digest(c.state) == env.digest(b.state) && env.digest(c.sessionSecret) == b.sessionDigest
    ensures env.digest(env.decode(c.rawToken).nonce) == env.digest(b.nonce)
    ensures b.now - SECOND <= env.decode(c.rawToken).issuedAt
  {
    RunTraced(env, steps, ws, n);
    var k := ws[n].commits[i];
    assert CommitBound(env, steps, ws, n, k);
    var p: InFlight :| CallBound(env, steps, ws, n, p) && p.call.id == k.id && p.call.rawToken == k.rawToken
      && Answered(env, p.request, env.decode(k.rawToken));
    a :| a < n && Began(env, steps, ws, a, p.call.id, p.request);
    b, c := steps[a].begin, p.call;
    forall x: nat | Opened(steps, ws, x, b.id) ensures x == a {
      OneBegin(env, steps, ws, x, a, b.id);
      OneBegin(env, steps, ws, a, x, b.id);
    }
  }
}
