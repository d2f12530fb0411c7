/** Repeated maintenance over the three OIDC buckets: every batch succeeds, and nothing expired is left behind. */
module OidcFairness {
  import opened KeyOrder
  import opened Storage
  import opened Models
  import opened OidcEvents
  import opened OidcMaintenance

  /** The three buckets with their resume keys, and the watermark. */
  datatype Tables = Tables(requests: Swept<StoredRequest>, events: Swept<StoredEvent>, replay: Swept<Time>,
                           clock: Option<Time>)

  ghost predicate ScanDated<V>(s: Swept<V>, limit: nat, expiry: V -> Time)
  {
    AllDated(Scanned(s.rows, s.resume, limit), expiry)
  }

  /** One batch: the same limit for each bucket in turn, all of them or none. */
  ghost function Batch(t: Tables, limit: nat, now: Time): Option<Tables>
  {
    if !(1 <= limit <= 4096) || (t.clock.Some? && now < t.clock.value) || !ScanDated(t.requests, limit, RequestExpiry)
       || !ScanDated(t.events, limit, EventExpiry) || !ScanDated(t.replay, limit, FenceExpiry) then None
    else Some(Tables(Sweep(t.requests.rows, t.requests.resume, limit, now, RequestExpiry),
                     Sweep(t.events.rows, t.events.resume, limit, now, EventExpiry),
                     Sweep(t.replay.rows, t.replay.resume, limit, now, FenceExpiry), Some(now)))
  }

  /** Batches one after the other, with no other writer between them; the first refusal ends them. */
  ghost function Batches(t: Tables, limit: nat, nows: seq<Time>): Option<Tables>
    decreases |nows|
  {
    if nows == [] then Some(t)
    else
      var next := Batch(t, limit, nows[0]);
      if next.None? then None else Batches(next.value, limit, nows[1..])
  }

  /* ---- Every reachable record is dated ---- */

  ghost predicate DatedMap<V>(m: map<Key, V>, expiry: V -> Time) { forall k :: k in m ==> expiry(m[k]) != 0 }

  ghost predicate DatedLedger(l: Ledger)
  {
    DatedMap(l.requests, RequestExpiry) && DatedMap(l.events, EventExpiry) && DatedMap(l.replay, FenceExpiry)
  }

  /** The readings that decide whether a record is stored do not lie before the zero time. */
  predicate AfterZero(s: Step)
  {
    match s
    case DoBegin(c) => 0 <= c.checked
    case DoCommit(_, a) => 0 <= a.checked
    case _ => true
  }

  lemma CommitDated(env: Env, w: World, p: InFlight, a: Answers)
    requires DatedLedger(w.ledger) && 0 <= a.checked
    ensures DatedLedger(Apply(env, w, DoCommit(p, a)).ledger)
  {
    if Verified(env, p.call, p.request, a).Some? { EventWithinToken(env, p.call, p.request, a); }
  }

  lemma StepDated(env: Env, w: World, s: Step)
    requires DatedLedger(w.ledger) && AfterZero(s)
    ensures DatedLedger(Apply(env, w, s).ledger)
  {
    match s
    case DoCommit(p, a) => CommitDated(env, w, p, a);
    case _ =>
  }

  /** Every record of every reachable ledger carries an expiry. */
  lemma {:induction false} RunIsDated(env: Env, steps: seq<Step>, ws: seq<World>, n: nat)
    requires Run(env, steps, ws) && n < |ws| && forall i :: 0 <= i < |steps| ==> AfterZero(steps[i])
    ensures DatedLedger(ws[n].ledger)
  {
    if n > 0 {
      RunIsDated(env, steps, ws, n - 1);
      assert Follows(env, steps, ws, n - 1);
      StepDated(env, ws[n - 1], steps[n - 1]);
    }
  }

  lemma DatedRows<V>(rows: seq<Entry<V>>, expiry: V -> Time)
    requires Ascending(rows) && DatedMap(MapOf(rows), expiry)
    ensures AllDated(rows, expiry)
  {
    forall i | 0 <= i < |rows| ensures expiry(rows[i].value) != 0 { MapOfAt(rows, i); }
  }

  /* ---- Batches keep going ---- */

  ghost predicate Orderly<V>(s: Swept<V>, expiry: V -> Time) { Ascending(s.rows) && AllDated(s.rows, expiry) }

  ghost predicate Healthy(t: Tables)
  {
    Orderly(t.requests, RequestExpiry) && Orderly(t.events, EventExpiry) && Orderly(t.replay, FenceExpiry)
  }

  lemma SweepOrderly<V>(s: Swept<V>, limit: nat, now: Time, expiry: V -> Time)
    requires Orderly(s, expiry) && limit > 0
    ensures ScanDated(s, limit, expiry) && Orderly(Sweep(s.rows, s.resume, limit, now, expiry), expiry)
  {
    var r := Sweep(s.rows, s.resume, limit, now, expiry).rows;
    SweepAscending(s.rows, s.resume, limit, now, expiry);
    SweepDropsOnlyExpired(s.rows, s.resume, limit, now, expiry);
    forall i | 0 <= i < |r| ensures expiry(r[i].value) != 0 { assert r[i] in s.rows; }
  }

  lemma BatchHealthy(t: Tables, limit: nat, now: Time)
    requires Healthy(t) && 1 <= limit <= 4096 && (t.clock.None? || t.clock.value <= now)
    ensures Batch(t, limit, now).Some? && Healthy(Batch(t, limit, now).value)
  {
    SweepOrderly(t.requests, limit, now, RequestExpiry);
    SweepOrderly(t.events, limit, now, EventExpiry);
    SweepOrderly(t.replay, limit, now, FenceExpiry);
  }

  /** Readings that start no earlier than the watermark and never run back. */
  predicate Ascends(clock: Option<Time>, nows: seq<Time>)
  {
    && (nows != [] && clock.Some? ==> clock.value <= nows[0])
    && forall i :: 0 < i < |nows| ==> nows[i - 1] <= nows[i]
  }

  /** Batch by batch, each bucket goes through its own sequence of sweeps. */
  lemma {:induction false} BatchesAreCalls(t: Tables, limit: nat, nows: seq<Time>)
    requires Healthy(t) && 1 <= limit <= 4096 && Ascends(t.clock, nows)
    ensures Batches(t, limit, nows).Some?
    ensures var r := Batches(t, limit, nows).value;
            && r.requests == Calls(t.requests, limit, nows, RequestExpiry)
            && r.events == Calls(t.events, limit, nows, EventExpiry)
            && r.replay == Calls(t.replay, limit, nows, FenceExpiry)
    decreases |nows|
  {
    if nows != [] {
      BatchHealthy(t, limit, nows[0]);
      BatchesAreCalls(Batch(t, limit, nows[0]).value, limit, nows[1..]);
    }
  }

  ghost predicate AllClean(t: Tables, until: Time)
  {
    Clean(t.requests.rows, until, RequestExpiry) && Clean(t.events.rows, until, EventExpiry)
    && Clean(t.replay.rows, until, FenceExpiry)
  }

  function Largest(t: Tables): nat { Max(Max(|t.requests.rows|, |t.events.rows|), |t.replay.rows|) }

  function Max(a: nat, b: nat): nat { if a < b then b else a }

  /**
   * From any resume keys, 2*ceil(n/limit) batches over buckets of at most n rows all succeed and leave no record
   * that expires by `until` in any bucket.
   */
  lemma BatchesAreFair(t: Tables, limit: nat, nows: seq<Time>, until: Time)
    requires Healthy(t) && 1 <= limit <= 4096 && Ascends(t.clock, nows)
    requires forall i :: 0 <= i < |nows| ==> until <= nows[i]
    requires 2 * CeilDiv(Largest(t), limit) <= |nows|
    ensures Batches(t, limit, nows).Some? && AllClean(Batches(t, limit, nows).value, until)
  {
    BatchesAreCalls(t, limit, nows);
    var c := CeilDiv(Largest(t), limit);
    CeilDivCovers(Largest(t), limit);
    CallsClean(t.requests.rows, t.requests.resume, limit, c, nows, until, RequestExpiry);
    CallsClean(t.events.rows, t.events.resume, limit, c, nows, until, EventExpiry);
    CallsClean(t.replay.rows, t.replay.resume, limit, c, nows, until, FenceExpiry);
  }

  /** `t` holds the ledger `l`, whatever its resume keys are. */
  ghost predicate Holds(t: Tables, l: Ledger)
  {
    && Ascending(t.requests.rows) && Ascending(t.events.rows) && Ascending(t.replay.rows)
    && l == Ledger(MapOf(t.requests.rows), MapOf(t.events.rows), MapOf(t.replay.rows), t.clock)
  }

  /** From every reachable ledger maintenance gets rid of everything expired. */
  lemma ReachableMaintenanceIsFair(env: Env, steps: seq<Step>, ws: seq<World>, t: Tables, limit: nat, nows: seq<Time>,
                                   until: Time)
    requires Run(env, steps, ws) && (forall i :: 0 <= i < |steps| ==> AfterZero(steps[i]))
             && Holds(t, ws[|steps|].ledger)
    requires 1 <= limit <= 4096 && Ascends(t.clock, nows) && forall i :: 0 <= i < |nows| ==> until <= nows[i]
    requires 2 * CeilDiv(Largest(t), limit) <= |nows|
    ensures Batches(t, limit, nows).Some? && AllClean(Batches(t, limit, nows).value, until)
  {
    RunIsDated(env, steps, ws, |steps|);
    DatedRows(t.requests.rows, RequestExpiry);
    DatedRows(t.events.rows, EventExpiry);
    DatedRows(t.replay.rows, FenceExpiry);
    BatchesAreFair(t, limit, nows, until);
  }
}
