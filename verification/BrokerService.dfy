/** The broker event service over its buckets; each method is one storage transaction. */
module BrokerService {
  import opened KeyOrder
  import opened Storage
  import opened Models
  import opened BrokerEvents
  import M = OidcMaintenance
  import R = BrokerMaintenance
  import Runs = BrokerRuns

  ghost function DropsBetween(l: Ledger, after: Ledger): Drops
  {
    Drops(M.Gone(l.requests, after.requests), M.Gone(l.captures, after.captures),
          M.Gone(l.verified, after.verified), M.Gone(l.replay, after.replay))
  }

  lemma ReapsArePrune(l: Ledger, after: Ledger, observed: Time, now: Time)
    requires !Behind(l, observed) && after.clock == Some(observed)
    requires M.OnlyExpiredGone(l.requests, after.requests, now, RequestExpiry)
    requires M.OnlyExpiredGone(l.captures, after.captures, now, CaptureExpiry)
    requires M.OnlyExpiredGone(l.verified, after.verified, now, EventExpiry)
    requires M.OnlyExpiredGone(l.replay, after.replay, now, FenceExpiry)
    requires after.nonces == l.nonces - NoncesOf(l.requests, M.Gone(l.requests, after.requests))
    ensures PruneTx(l, observed, now, DropsBetween(l, after)) == Some(after)
  {
  }

  function NonceOf(r: BrokerRequest): Option<Key> { Some(r.request.nonceDigest) }

  function Unnamed<V>(v: V): Option<Key> { None }

  /** Records expired at `now` in one bucket. */
  ghost function Overdue<V>(rows: seq<Entry<V>>, now: Time, expiry: V -> Time): nat { |R.StaleRows(rows, now, expiry)| }

  lemma RequestNames(rows: seq<Entry<BrokerRequest>>, budget: nat, now: Time)
    requires Ascending(rows)
    ensures var m, r := MapOf(rows), MapOf(R.Reap(rows, budget, now, RequestExpiry));
            R.NamesOf(R.Reaped(rows, budget, now, RequestExpiry), NonceOf) == NoncesOf(m, M.Gone(m, r))
  {
    R.ReapMap(rows, budget, now, RequestExpiry, NonceOf);
  }

  /** A bucket's key count is its row count. */
  lemma {:induction false} MapOfSize<V>(rows: seq<Entry<V>>)
    requires Ascending(rows)
    ensures |MapOf(rows)| == |rows|
  {
    if rows != [] {
      var m, k := MapOf(rows[1..]), rows[0].key;
      MapOfSize(rows[1..]);
      MapOfKeys(rows[1..], k);
      LessIrreflexive(k);
      assert MapOf(rows).Keys == m.Keys + {k};
    }
  }

  /** A budget spent bucket by bucket removes the least of the budget and all that is overdue. */
  lemma BudgetSpends(limit: nat, s1: nat, s2: nat, s3: nat, s4: nat)
    ensures var r1 := R.Least(limit, s1);
            var r2 := R.Least(limit - r1, s2);
            var r3 := R.Least(limit - r1 - r2, s3);
            var r4 := R.Least(limit - r1 - r2 - r3, s4);
            r1 + r2 + r3 + r4 == R.Least(limit, s1 + s2 + s3 + s4)
  {
  }

  /* ---- One batch over the four buckets ---- */

  datatype Tables = Tables(requests: seq<Entry<BrokerRequest>>, captures: seq<Entry<Capture>>,
                           verified: seq<Entry<StoredEvent>>, replay: seq<Entry<Time>>)

  ghost predicate Sorted(t: Tables)
  {
    Ascending(t.requests) && Ascending(t.captures) && Ascending(t.verified) && Ascending(t.replay)
  }

  function Size(t: Tables): nat { |t.requests| + |t.captures| + |t.verified| + |t.replay| }

  /** All records that have expired at `now`. */
  ghost function TotalOverdue(t: Tables, now: Time): nat
  {
    Overdue(t.requests, now, RequestExpiry) + Overdue(t.captures, now, CaptureExpiry)
    + Overdue(t.verified, now, EventExpiry) + Overdue(t.replay, now, FenceExpiry)
  }

  /** What one bucket leaves of the budget. */
  ghost function Left<V>(budget: nat, rows: seq<Entry<V>>, now: Time, expiry: V -> Time): nat
  {
    budget - R.Least(budget, Overdue(rows, now, expiry))
  }

  /** The budget when the walk comes to the captures, the verified events and the fences. */
  ghost function Budgets(t: Tables, limit: nat, now: Time): (nat, nat, nat)
  {
    var b2 := Left(limit, t.requests, now, RequestExpiry);
    var b3 := Left(b2, t.captures, now, CaptureExpiry);
    (b2, b3, Left(b3, t.verified, now, EventExpiry))
  }

  /** Each bucket in turn loses its first expired rows, within what is left of the limit. */
  ghost function Batch(t: Tables, limit: nat, now: Time): Tables
  {
    var (b2, b3, b4) := Budgets(t, limit, now);
    Tables(R.Reap(t.requests, limit, now, RequestExpiry), R.Reap(t.captures, b2, now, CaptureExpiry),
           R.Reap(t.verified, b3, now, EventExpiry), R.Reap(t.replay, b4, now, FenceExpiry))
  }

  /** A batch removes exactly the least of its limit and everything overdue. */
  lemma BatchRemoves(t: Tables, limit: nat, now: Time)
    ensures Size(t) - Size(Batch(t, limit, now)) == R.Least(limit, TotalOverdue(t, now))
  {
    var (b2, b3, b4) := Budgets(t, limit, now);
    R.ReapedArePrefix(t.requests, limit, now, RequestExpiry);
    R.ReapedArePrefix(t.captures, b2, now, CaptureExpiry);
    R.ReapedArePrefix(t.verified, b3, now, EventExpiry);
    R.ReapedArePrefix(t.replay, b4, now, FenceExpiry);
    BudgetSpends(limit, Overdue(t.requests, now, RequestExpiry), Overdue(t.captures, now, CaptureExpiry),
                 Overdue(t.verified, now, EventExpiry), Overdue(t.replay, now, FenceExpiry));
  }

  ghost function LostKeys<V>(before: seq<Entry<V>>, after: seq<Entry<V>>): set<Key>
  {
    M.Gone(MapOf(before), MapOf(after))
  }

  /** The records a batch drops. */
  ghost function Dropped(t: Tables, after: Tables): Drops
  {
    Drops(LostKeys(t.requests, after.requests), LostKeys(t.captures, after.captures),
          LostKeys(t.verified, after.verified), LostKeys(t.replay, after.replay))
  }

  /** `t` holds the records of the ledger. */
  ghost predicate Holds(t: Tables, l: Ledger)
  {
    && Sorted(t) && MapOf(t.requests) == l.requests && MapOf(t.captures) == l.captures
    && MapOf(t.verified) == l.verified && MapOf(t.replay) == l.replay
  }

  /** A batch whose limit covers everything overdue drops everything expired. */
  lemma BatchTakesAll(t: Tables, l: Ledger, limit: nat, now: Time)
    requires Holds(t, l) && TotalOverdue(t, now) <= limit
    ensures Dropped(t, Batch(t, limit, now)) == AllExpired(l, now)
  {
    var (b2, b3, b4) := Budgets(t, limit, now);
    R.ReapAllMap(t.requests, limit, now, RequestExpiry);
    R.ReapAllMap(t.captures, b2, now, CaptureExpiry);
    R.ReapAllMap(t.verified, b3, now, EventExpiry);
    R.ReapAllMap(t.replay, b4, now, FenceExpiry);
  }

  lemma {:induction false} OverdueAtMost<V>(rows: seq<Entry<V>>, now: Time, expiry: V -> Time)
    ensures Overdue(rows, now, expiry) <= |rows|
  {
    if rows != [] { OverdueAtMost(rows[1..], now, expiry); }
  }

  /** In particular one whose limit covers the whole ledger. */
  lemma CoveredBatch(t: Tables, l: Ledger, limit: nat, now: Time)
    requires Holds(t, l) && Records(l) <= limit
    ensures Dropped(t, Batch(t, limit, now)) == AllExpired(l, now)
  {
    MapOfSize(t.requests);
    MapOfSize(t.captures);
    MapOfSize(t.verified);
    MapOfSize(t.replay);
    OverdueAtMost(t.requests, now, RequestExpiry);
    OverdueAtMost(t.captures, now, CaptureExpiry);
    OverdueAtMost(t.verified, now, EventExpiry);
    OverdueAtMost(t.replay, now, FenceExpiry);
    BatchTakesAll(t, l, limit, now);
  }

  /** The fences a batch takes, read off the buckets before it. */
  ghost function FencesTaken(t: Tables, limit: nat, now: Time): seq<Entry<Time>>
  {
    R.Reaped(t.replay, Budgets(t, limit, now).2, now, FenceExpiry)
  }

  lemma BatchCommits(t: Tables, l: Ledger, limit: nat, observed: Time, now: Time)
    requires Holds(t, l) && !Behind(l, observed)
    ensures PruneTx(l, observed, now, Dropped(t, Batch(t, limit, now))).Some?
  {
    var (b2, b3, b4) := Budgets(t, limit, now);
    R.ReapMap(t.requests, limit, now, RequestExpiry, Unnamed);
    R.ReapMap(t.captures, b2, now, CaptureExpiry, Unnamed);
    R.ReapMap(t.verified, b3, now, EventExpiry, Unnamed);
    R.ReapMap(t.replay, b4, now, FenceExpiry, Unnamed);
  }

  /**
   * The exact condition for a batch of any limit: from every reachable ledger it keeps each capture fenced if and
   * only if the fences it comes to within its limit had ended at the reading it makes durable.
   */
  lemma BatchSafeIff(env: Env, steps: seq<Runs.Step>, ws: seq<Runs.World>, i: nat, t: Tables, limit: nat,
                     observed: Time, now: Time)
    requires Runs.Run(env, steps, ws) && i < |ws| && Runs.ClearBefore(steps, ws, i)
    requires Holds(t, ws[i].ledger) && !Behind(ws[i].ledger, observed)
    ensures Runs.Fenced(env, Runs.Apply(env, ws[i], Runs.DoPrune(observed, now, Dropped(t, Batch(t, limit, now)))))
       <==> forall e :: e in FencesTaken(t, limit, now) ==> e.value <= observed
  {
    var l, d, taken := ws[i].ledger, Dropped(t, Batch(t, limit, now)), FencesTaken(t, limit, now);
    BatchCommits(t, l, limit, observed, now);
    Runs.DropsSafeIff(env, steps, ws, i, observed, now, d);
    R.ReapedKeys(t.replay, Budgets(t, limit, now).2, now, FenceExpiry);
    assert forall e :: e in taken ==> e.key in d.replay && l.replay[e.key] == e.value;
    assert forall k :: k in d.replay ==> Entry(k, l.replay[k]) in taken;
  }

  /** A batch is one maintenance transaction, which drops everything expired when its limit covers it. */
  lemma BatchIsPrune(t: Tables, l: Ledger, after: Ledger, limit: nat, observed: Time, now: Time)
    requires Holds(t, l) && Holds(Batch(t, limit, now), after) && !Behind(l, observed) && after.clock == Some(observed)
    requires after.nonces == l.nonces - NoncesOf(l.requests, M.Gone(l.requests, after.requests))
    ensures PruneTx(l, observed, now, DropsBetween(l, after)) == Some(after)
    ensures TotalOverdue(t, now) <= limit ==> DropsBetween(l, after) == AllExpired(l, now)
  {
    var (b2, b3, b4) := Budgets(t, limit, now);
    R.ReapMap(t.requests, limit, now, RequestExpiry, Unnamed);
    R.ReapMap(t.captures, b2, now, CaptureExpiry, Unnamed);
    R.ReapMap(t.verified, b3, now, EventExpiry, Unnamed);
    R.ReapMap(t.replay, b4, now, FenceExpiry, Unnamed);
    ReapsArePrune(l, after, observed, now);
    if TotalOverdue(t, now) <= limit { BatchTakesAll(t, l, limit, now); }
  }

  class Events {
    const env: Env
    const requests: Bucket<BrokerRequest>
    const nonces: Bucket<Key>
    const captures: Bucket<Capture>
    const verified: Bucket<StoredEvent>
    const replay: Bucket<Time>
    var clock: Option<Time>

    ghost predicate Valid()
      reads requests, nonces, captures, verified, replay
    {
      && requests.Valid() && nonces.Valid() && captures.Valid() && verified.Valid() && replay.Valid()
      && requests as object != nonces && requests as object != captures && requests as object != verified
      && requests as object != replay && nonces as object != captures && nonces as object != verified
      && nonces as object != replay && captures as object != verified && captures as object != replay
      && verified as object != replay
    }

    ghost function View(): Ledger
      reads this, requests, nonces, captures, verified, replay
    {
      Ledger(requests.Contents(), nonces.Contents(), captures.Contents(), replay.Contents(), verified.Contents(), clock)
    }

    constructor (e: Env)
      ensures Valid() && env == e && View() == Ledger(map[], map[], map[], map[], map[], None)
      ensures fresh(requests) && fresh(nonces) && fresh(captures) && fresh(verified) && fresh(replay)
    {
      env := e;
      requests := new Bucket();
      nonces := new Bucket();
      captures := new Bucket();
      verified := new Bucket();
      replay := new Bucket();
      clock := None;
    }

    /** Reap one bucket that has no index. */
    method ReapPlain<V>(b: Bucket<V>, budget: nat, now: Time, expiry: V -> Time) returns (removed: nat)
      requires b.Valid()
      modifies b
      ensures b.Valid() && b.rows == R.Reap(old(b.rows), budget, now, expiry)
      ensures removed == R.Least(budget, Overdue(old(b.rows), now, expiry))
    {
      R.ReapedArePrefix(b.rows, budget, now, expiry);
      var index := new Bucket<Key>();
      removed := R.ReapBucket(b, index, Unnamed, budget, now, expiry);
    }

    /** Reap the requests together with their nonce entries. */
    method ReapRequests(budget: nat, now: Time) returns (removed: nat)
      requires Valid()
      modifies requests, nonces
      ensures Valid() && requests.rows == R.Reap(old(requests.rows), budget, now, RequestExpiry)
      ensures removed == R.Least(budget, Overdue(old(requests.rows), now, RequestExpiry))
      ensures nonces.Contents() == old(nonces.Contents())
                - NoncesOf(old(requests.Contents()), M.Gone(old(requests.Contents()), requests.Contents()))
    {
      R.ReapedArePrefix(requests.rows, budget, now, RequestExpiry);
      R.ReapMap(requests.rows, budget, now, RequestExpiry, NonceOf);
      RequestNames(requests.rows, budget, now);
      R.UnindexMap(nonces.rows, R.Reaped(requests.rows, budget, now, RequestExpiry), NonceOf);
      removed := R.ReapBucket(requests, nonces, NonceOf, budget, now, RequestExpiry);
    }

    ghost function State(): Tables
      reads requests, captures, verified, replay
    {
      Tables(requests.rows, captures.rows, verified.rows, replay.rows)
    }

    /** The walk over the four buckets under one budget. */
    method SweepBuckets(limit: nat, now: Time) returns (removed: nat)
      requires Valid()
      modifies requests, nonces, captures, verified, replay
      ensures Valid() && State() == Batch(old(State()), limit, now)
      ensures removed == old(Size(State())) - Size(State()) == R.Least(limit, TotalOverdue(old(State()), now))
      ensures nonces.Contents() == old(nonces.Contents())
                - NoncesOf(old(requests.Contents()), M.Gone(old(requests.Contents()), requests.Contents()))
    {
      ghost var t := State();
      BatchRemoves(t, limit, now);
      var budget := limit;
      var n := ReapRequests(budget, now);
      budget := budget - n;
      assert budget == Budgets(t, limit, now).0 && captures.rows == t.captures;
      n := ReapPlain(captures, budget, now, CaptureExpiry);
      budget := budget - n;
      assert budget == Budgets(t, limit, now).1 && verified.rows == t.verified;
      n := ReapPlain(verified, budget, now, EventExpiry);
      budget := budget - n;
      assert budget == Budgets(t, limit, now).2 && replay.rows == t.replay;
      n := ReapPlain(replay, budget, now, FenceExpiry);
      assert State() == Batch(t, limit, now);
      removed := limit - budget + n;
    }

    /** A bounded batch: it removes exactly the least of the limit and everything overdue, bucket by bucket. */
    method Prune(limit: nat, observed: Time, now: Time) returns (removed: Option<nat>)
      requires Valid()
      modifies this, requests, nonces, captures, verified, replay
      ensures Valid()
      ensures removed.Some? <==> 1 <= limit <= 1024 && !Behind(old(View()), observed)
      ensures removed.None? ==> View() == old(View()) && State() == old(State())
      ensures removed.Some? ==> State() == Batch(old(State()), limit, now)
      ensures removed.Some? ==>
                removed.value == old(Size(State())) - Size(State()) == R.Least(limit, TotalOverdue(old(State()), now))
      ensures removed.Some? ==> PruneTx(old(View()), observed, now, DropsBetween(old(View()), View())) == Some(View())
      ensures removed.Some? && TotalOverdue(old(State()), now) <= limit ==>
                DropsBetween(old(View()), View()) == AllExpired(old(View()), now)
    {
      if limit < 1 || limit > 1024 || (clock.Some? && observed < clock.value) { return None; }
      ghost var l, t := View(), State();
      var n := SweepBuckets(limit, now);
      clock := Some(observed);
      BatchIsPrune(t, l, View(), limit, observed, now);
      removed := Some(n);
    }

    /** The storing transaction of Begin. */
    method StoreRequest(c: BeginCall) returns (ok: bool)
      requires Valid()
      modifies this, requests, nonces
      ensures Valid() && (ok <==> old(BeginTx(env, View(), c)).Some?)
      ensures View() == if ok then old(BeginTx(env, View(), c)).value else old(View())
    {
      var r := Request(env, c);
      if !BeginAdmitted(env, c) || !CanonicalRequest(c) || (clock.Some? && c.observed < clock.value)
         || !(c.checked < r.request.expiresAt) { return false; }
      MapOfSize(requests.rows);
      var prior := requests.Get(c.id);
      if |requests.rows| >= CAPACITY || prior.Some? || c.id == "" || r.request.nonceDigest == "" { return false; }
      var _ := requests.Put(c.id, r);
      var _ := nonces.Put(r.request.nonceDigest, c.id);
      clock := Some(c.observed);
      ok := true;
    }

    /** A login starts with one small maintenance batch, which stays even if the login is then refused. */
    method Begin(c: BeginCall, pruneObserved: Time, pruneNow: Time) returns (ok: bool, ghost pruned: Ledger)
      requires Valid()
      modifies this, requests, nonces, captures, verified, replay
      ensures Valid()
      ensures pruned == old(View())
           || PruneTx(old(View()), pruneObserved, pruneNow, DropsBetween(old(View()), pruned)) == Some(pruned)
      ensures if ok then BeginTx(env, pruned, c) == Some(View()) else View() == pruned
    {
      pruned := View();
      if !BeginAdmitted(env, c) { return false, pruned; }
      var n := Prune(128, pruneObserved, pruneNow);
      pruned := View();
      if n.None? { return false, pruned; }
      ok := StoreRequest(c);
    }

    /** Whether a live exchange may use the stored request. */
    method RequestUsable(id: Key, s: TrustSnapshot, c: Configuration, now: Time) returns (ok: bool)
      requires Valid()
      ensures ok <==> Usable(env, View(), id, s, c, now)
    {
      var r := requests.Get(id);
      ok := r.Some? && UsableRequest(env, r.value, s, c, now);
    }

    /** The read transaction of Capture: through a kept index, the one usable request that was begun with this nonce. */
    method FindByNonce(s: TrustSnapshot, c: Configuration, nonce: string, now: Time) returns (f: Option<Found>)
      requires Valid()
      ensures f == Lookup(env, View(), s, c, nonce, now)
      ensures Runs.Indexed(View()) && f.Some? ==> f.value.request.request.nonceDigest == env.digest(nonce)
      ensures Runs.Indexed(View()) && f.None? ==>
                forall id :: id in View().requests && View().requests[id].request.nonceDigest == env.digest(nonce) ==>
                  !UsableRequest(env, View().requests[id], s, c, now)
    {
      var id := nonces.Get(env.digest(nonce));
      if id.None? { return None; }
      var r := requests.Get(id.value);
      if r.None? || !UsableRequest(env, r.value, s, c, now) { return None; }
      f := Some(Found(s, c, nonce, id.value, r.value));
    }

    /** Write a capture and its fence, unless either is already there. */
    method StoreFenced(id: Key, cap: Capture, key: Key, fence: Time, observed: Time) returns (ok: bool)
      requires Valid()
      modifies this, replay, captures
      ensures Valid() && (ok <==> old(StoreTx(View(), id, cap, key, fence, observed)).Some?)
      ensures View() == if ok then old(StoreTx(View(), id, cap, key, fence, observed)).value else old(View())
    {
      var prior := captures.Get(id);
      var fenced := replay.Get(key);
      if prior.Some? || fenced.Some? || key == "" || id == "" { return false; }
      var _ := replay.Put(key, fence);
      var _ := captures.Put(id, cap);
      clock := Some(observed);
      ok := true;
    }

    /** The storing transaction of Capture, once the assertion has been verified. */
    method CommitCapture(k: CaptureCall, cap: Capture) returns (ok: bool)
      requires Valid()
      modifies this, replay, captures
      ensures Valid() && (ok <==> old(CaptureCommitTx(env, View(), k, cap)).Some?)
      ensures View() == if ok then old(CaptureCommitTx(env, View(), k, cap)).value else old(View())
    {
      ok := !(clock.Some? && k.observed < clock.value);
      if ok { ok := RequestUsable(k.id, k.snapshot, k.asked.config, k.checked); }
      if ok { ok := StoreFenced(k.id, cap, env.digest(cap.replayId), k.fencedAt + env.maxLifetime, k.observed); }
    }

    method StoreCapture(k: CaptureCall) returns (ok: bool)
      requires Valid()
      modifies this, replay, captures
      ensures Valid() && (ok <==> old(CaptureTx(env, View(), k)).Some?)
      ensures View() == if ok then old(CaptureTx(env, View(), k)).value else old(View())
    {
      ok := CaptureVerified(env, k);
      if ok { ok := CommitCapture(k, Captured(env, k)); }
    }

    /** First transaction of Complete. */
    method Burn(c: CompleteCall) returns (burned: Option<(BrokerRequest, Capture)>)
      requires Valid()
      modifies this, requests
      ensures Valid() && (burned.Some? <==> old(BurnTx(env, View(), c)).Some?)
      ensures View() == if burned.Some? then old(BurnTx(env, View(), c)).value else old(View())
      ensures burned.Some? ==>
                && c.id in View().requests && c.id in View().captures
                && burned.value == (View().requests[c.id], View().captures[c.id])
    {
      if !CompleteAdmitted(env, c) || (clock.Some? && c.observed < clock.value) { return None; }
      var r := requests.Get(c.id);
      if r.None? || !UsableRequest(env, r.value, c.snapshot, c.asked.config, c.checked) || c.id == "" { return None; }
      if env.digest(c.state) != r.value.request.stateDigest
         || env.digest(c.browserSecret) != r.value.request.sessionDigest
         || env.digest(c.pkceVerifier) != r.value.pkceDigest { return None; }
      var cap := captures.Get(c.id);
      if cap.None? || !(c.captureChecked < cap.value.assurance.expiresAt) { return None; }
      var spent := r.value.(request := r.value.request.(consumed := true));
      var _ := requests.Put(c.id, spent);
      clock := Some(c.observed);
      burned := Some((spent, cap.value));
    }

    /** The verification and the second transaction of Complete. */
    method Commit(c: CompleteCall, r: BrokerRequest, cap: Capture, a: Answers) returns (ok: bool)
      requires Valid()
      modifies this, verified
      ensures Valid()
      ensures var e := Verified(env, c, r, cap, a);
              var l := if e.None? then None else old(CommitTx(View(), c.id, e.value, a.observed, a.checked));
              (ok <==> l.Some?) && View() == if ok then l.value else old(View())
    {
      var e := Verified(env, c, r, cap, a);
      if e.None? || (clock.Some? && a.observed < clock.value)
         || !(a.checked < e.value.bundle.assurance.expiresAt) { return false; }
      var prior := verified.Get(c.id);
      if prior.Some? { return false; }
      ok := verified.Put(c.id, e.value);
      if ok { clock := Some(a.observed); }
    }

    method Verify(id: Key, s: TrustSnapshot, observed: Time, checked: Time)
      returns (evidence: Option<(Principal, Assurance)>)
      requires Valid()
      modifies this, verified
      ensures Valid() && (evidence.Some? <==> old(VerifyTx(env, View(), id, s, observed, checked)).Some?)
      ensures View() == if evidence.Some? then old(VerifyTx(env, View(), id, s, observed, checked)).value
                        else old(View())
      ensures evidence.Some? ==>
                && id in old(View()).verified
                && var b := old(View()).verified[id].bundle; evidence.value == (b.principal, b.assurance)
    {
      if !env.grammar.uuid(id) || id == "" || (clock.Some? && observed < clock.value) { return None; }
      var e := verified.Get(id);
      if e.None? || e.value.consumed || e.value.snapshotId != s.snapshotId || e.value.revision != s.approvedRevision
         || e.value.bundle.trust != s.trust || !ActiveSnapshot(env.grammar, s, checked)
         || !(checked < e.value.bundle.assurance.expiresAt) { return None; }
      var _ := verified.Put(id, e.value.(consumed := true));
      clock := Some(observed);
      evidence := Some((e.value.bundle.principal, e.value.bundle.assurance));
    }
  }
}
