/** The OIDC event service over its buckets; each method is one storage transaction. */
module OidcService {
  import opened KeyOrder
  import opened Storage
  import opened Models
  import opened OidcEvents
  import M = OidcMaintenance
  import F = OidcFairness

  ghost function DropsBetween(l: Ledger, after: Ledger): Drops
  {
    Drops(M.Gone(l.requests, after.requests), M.Gone(l.events, after.events), M.Gone(l.replay, after.replay))
  }

  lemma SweepsArePrune(l: Ledger, after: Ledger, now: Time)
    requires ObserveClock(l, now).Some? && after.clock == Some(now)
    requires M.OnlyExpiredGone(l.requests, after.requests, now, RequestExpiry)
    requires M.OnlyExpiredGone(l.events, after.events, now, EventExpiry)
    requires M.OnlyExpiredGone(l.replay, after.replay, now, FenceExpiry)
    ensures PruneTx(l, now, DropsBetween(l, after)) == Some(after)
  {
  }

  class Events {
    const env: Env
    const requests: Bucket<StoredRequest>
    const events: Bucket<StoredEvent>
    const replay: Bucket<Time>
    var clock: Option<Time>
    var resumeRequests: Option<Key>
    var resumeEvents: Option<Key>
    var resumeReplay: Option<Key>

    ghost predicate Valid()
      reads this, requests, events, replay
    {
      && requests.Valid() && events.Valid() && replay.Valid()
      && requests as object != events && requests as object != replay && events as object != replay
    }

    ghost function View(): Ledger
      reads this, requests, events, replay
    {
      Ledger(requests.Contents(), events.Contents(), replay.Contents(), clock)
    }

    constructor (e: Env)
      ensures Valid() && env == e && View() == Initial.ledger && fresh(requests) && fresh(events) && fresh(replay)
    {
      env := e;
      requests := new Bucket();
      events := new Bucket();
      replay := new Bucket();
      clock, resumeRequests, resumeEvents, resumeReplay := None, None, None, None;
    }

    ghost function State(): F.Tables
      reads this, requests, events, replay
    {
      F.Tables(M.Swept(requests.rows, resumeRequests), M.Swept(events.rows, resumeEvents),
               M.Swept(replay.rows, resumeReplay), clock)
    }

    /** The watermark test every transaction starts with. */
    method Behind(now: Time) returns (behind: bool)
      ensures behind <==> ObserveClock(View(), now).None?
    {
      behind := clock.Some? && now < clock.value;
    }

    /** Every record the next batch looks at carries an expiry. */
    ghost predicate Dated(limit: nat)
      reads this, requests, events, replay
    {
      && M.AllDated(M.Scanned(requests.rows, resumeRequests, limit), RequestExpiry)
      && M.AllDated(M.Scanned(events.rows, resumeEvents, limit), EventExpiry)
      && M.AllDated(M.Scanned(replay.rows, resumeReplay, limit), FenceExpiry)
    }

    ghost function Records(): int
      reads requests, events, replay
    {
      |requests.rows| + |events.rows| + |replay.rows|
    }

    /** The loop over the three buckets; a failing one undoes those before it. */
    method SweepBuckets(limit: nat, now: Time) returns (ok: bool, deleted: nat)
      requires Valid() && limit > 0
      modifies requests, events, replay, this`resumeRequests, this`resumeEvents, this`resumeReplay
      ensures Valid()
      ensures ok <==> old(Dated(limit))
      ensures !ok ==>
                requests.rows == old(requests.rows) && events.rows == old(events.rows)
                && replay.rows == old(replay.rows)
      ensures !ok ==>
                resumeRequests == old(resumeRequests) && resumeEvents == old(resumeEvents)
                && resumeReplay == old(resumeReplay)
      ensures ok ==> M.Swept(requests.rows, resumeRequests)
                     == M.Sweep(old(requests.rows), old(resumeRequests), limit, now, RequestExpiry)
      ensures ok ==> M.Swept(events.rows, resumeEvents)
                     == M.Sweep(old(events.rows), old(resumeEvents), limit, now, EventExpiry)
      ensures ok ==> M.Swept(replay.rows, resumeReplay)
                     == M.Sweep(old(replay.rows), old(resumeReplay), limit, now, FenceExpiry)
      ensures ok ==> deleted == old(Records()) - Records()
    {
      var r0, e0 := requests.rows, events.rows;
      var next1, next2, next3, n1, n2, n3 := None, None, None, 0, 0, 0;
      ok, next1, n1 := M.PruneBucket(requests, resumeRequests, limit, now, RequestExpiry);
      if ok { ok, next2, n2 := M.PruneBucket(events, resumeEvents, limit, now, EventExpiry); }
      if ok { ok, next3, n3 := M.PruneBucket(replay, resumeReplay, limit, now, FenceExpiry); }
      if ok {
        resumeRequests, resumeEvents, resumeReplay := next1, next2, next3;
      } else {
        requests.rows, events.rows := r0, e0;
      }
      deleted := n1 + n2 + n3;
    }

    /** One bounded maintenance batch: raise the watermark, drop expired records, remember where to resume. */
    method Prune(limit: nat, now: Time) returns (deleted: Option<nat>)
      requires Valid()
      modifies this, requests, events, replay
      ensures Valid()
      ensures deleted.Some? <==> 1 <= limit <= 4096 && old(ObserveClock(View(), now)).Some? && old(Dated(limit))
      ensures deleted.None? ==>
                View() == old(View()) && State() == old(State())
                && F.Batch(old(State()), limit, now).None?
      ensures deleted.Some? ==> deleted.value == old(Records()) - Records()
      ensures deleted.Some? ==> PruneTx(old(View()), now, DropsBetween(old(View()), View())) == Some(View())
      ensures deleted.Some? ==> F.Batch(old(State()), limit, now) == Some(State())
    {
      var behind := Behind(now);
      if limit < 1 || limit > 4096 || behind { return None; }
      var ok, n := SweepBuckets(limit, now);
      if !ok { return None; }
      clock := Some(now);
      M.SweepMap(old(requests.rows), old(resumeRequests), limit, now, RequestExpiry);
      M.SweepMap(old(events.rows), old(resumeEvents), limit, now, EventExpiry);
      M.SweepMap(old(replay.rows), old(resumeReplay), limit, now, FenceExpiry);
      SweepsArePrune(old(View()), View(), now);
      deleted := Some(n);
    }

    /** The storing transaction of Begin. */
    method StoreRequest(c: BeginCall) returns (ok: bool)
      requires Valid()
      modifies this, requests
      ensures Valid() && (ok <==> old(BeginTx(env, View(), c)).Some?)
      ensures View() == if ok then old(BeginTx(env, View(), c)).value else old(View())
    {
      var behind := Behind(c.observed);
      var r := Request(env, c);
      if !env.grammar.digest(c.sessionDigest) || !ActiveSnapshot(env.grammar, c.snapshot, c.entered)
         || c.snapshot.trust.protocol != Oidc || behind || !(c.checked < r.expiresAt) { return false; }
      ok := requests.Put(c.id, r);
      if ok { clock := Some(c.observed); }
    }

    /** A login starts with one small maintenance batch, which stays even if the login is then refused. */
    method Begin(c: BeginCall, prunedAt: Time) returns (ok: bool, ghost pruned: Ledger)
      requires Valid()
      modifies this, requests, events, replay
      ensures Valid()
      ensures pruned == old(View()) || PruneTx(old(View()), prunedAt, DropsBetween(old(View()), pruned)) == Some(pruned)
      ensures if ok then BeginTx(env, pruned, c) == Some(View()) else View() == pruned
    {
      pruned := View();
      if !env.grammar.digest(c.sessionDigest) || !ActiveSnapshot(env.grammar, c.snapshot, c.entered)
         || c.snapshot.trust.protocol != Oidc { return false, pruned; }
      var n := Prune(128, prunedAt);
      pruned := View();
      if n.None? { return false, pruned; }
      ok := StoreRequest(c);
    }

    /** First transaction of Complete. */
    method Burn(c: CompleteCall) returns (burned: Option<StoredRequest>)
      requires Valid()
      modifies this, requests
      ensures Valid() && (burned.Some? <==> old(BurnTx(env, View(), c)).Some?)
      ensures View() == if burned.Some? then old(BurnTx(env, View(), c)).value else old(View())
      ensures burned.Some? ==> c.id in View().requests && burned.value == View().requests[c.id]
    {
      if !CompleteAdmitted(env, c) { return None; }
      var behind := Behind(c.observed);
      var r := requests.Get(c.id);
      if behind || r.None? || !Correlated(env, r.value, c) { return None; }
      var _ := requests.Put(c.id, r.value.(consumed := true));
      clock := Some(c.observed);
      burned := Some(r.value.(consumed := true));
    }

    /** The verification and the second transaction of Complete. */
    method Commit(call: CompleteCall, r: StoredRequest, a: Answers) returns (ok: bool)
      requires Valid() && call.id != ""
      modifies this, events, replay
      ensures Valid()
      ensures var e := Verified(env, call, r, a);
              var l := if e.None? then None else old(CommitTx(env, View(), call, e.value, a.observed, a.checked));
              (ok <==> l.Some?) && View() == if ok then l.value else old(View())
    {
      var e := Verified(env, call, r, a);
      if e.None? { return false; }
      var behind := Behind(a.observed);
      var key := env.digest(call.rawToken);
      var fence := replay.Get(key);
      var prior := events.Get(call.id);
      if behind || !(a.checked < e.value.bundle.assurance.expiresAt) || fence.Some? || prior.Some? { return false; }
      ok := replay.Put(key, env.decode(call.rawToken).expiry);
      if ok {
        var _ := events.Put(call.id, e.value);
        clock := Some(a.observed);
      }
    }

    method Verify(c: VerifyCall) returns (evidence: Option<(Principal, Assurance)>)
      requires Valid()
      modifies this, events
      ensures Valid() && (evidence.Some? <==> old(VerifyTx(env, View(), c)).Some?)
      ensures View() == if evidence.Some? then old(VerifyTx(env, View(), c)).value else old(View())
      ensures evidence.Some? ==>
                && c.id in old(View()).events
                && var b := old(View()).events[c.id].bundle; evidence.value == (b.principal, b.assurance)
    {
      if !env.grammar.uuid(c.id) || c.snapshot.trust.protocol != Oidc || c.id == "" { return None; }
      var behind := Behind(c.observed);
      var e := events.Get(c.id);
      if behind || e.None? || !Releasable(env, e.value, c) { return None; }
      var _ := events.Put(c.id, e.value.(consumed := true));
      clock := Some(c.observed);
      evidence := Some((e.value.bundle.principal, e.value.bundle.assurance));
    }
  }
}
