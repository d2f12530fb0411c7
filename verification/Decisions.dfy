/**
 * From login to decision: an event decides once, and what it decides was said by one token or assertion that
 * supports no other decision.
 */
module Decisions {
  import opened Storage
  import opened Models
  import opened Consume
  import O = OidcEvents
  import B = BrokerEvents
  import R = BrokerRuns

  /** One Consume call, and the position of the Verify step of the event ledger that answered it with evidence. */
  datatype Consumption = Consumption(at: nat, policy: Policy, trustId: string, eventId: string, answers: Answers)

  predicate Decides(env: Env, x: Consumption) { Decided(env, x.policy, x.trustId, x.eventId, x.answers) }

  function ReliedOn(env: Env, x: Consumption): seq<Time>
    requires Decides(env, x)
  {
    Relied(env, x.policy, x.trustId, x.eventId, x.answers)
  }

  function Made(env: Env, x: Consumption): Decision
    requires Decides(env, x)
  {
    DecisionOf(env, x.policy, x.trustId, x.eventId, x.answers)
  }

  /** The expiry of a decision is the least of all it relied on, among them the expiries of its evidence. */
  lemma MadeBounded(env: Env, x: Consumption)
    requires Decides(env, x)
    ensures IsLeast(Made(env, x).expiresAt, ReliedOn(env, x))
    ensures Made(env, x).expiresAt <= x.answers.evidence.value.1.expiresAt && Made(env, x).eventId == x.eventId
  {
    var trust, later := TrustExpiries(x.policy, x.answers), LaterExpiries(x.policy, x.answers);
    assert later[6] == x.answers.evidence.value.1.expiresAt;
    assert ReliedOn(env, x)[|trust| + 6] == later[6];
  }

  /** The canonical identity decided for is the one of this upstream issuer and subject. */
  predicate Names(x: Consumption, issuer: string, subject: string)
  {
    x.answers.canonical.Some? && x.answers.canonical.value.issuer == issuer
    && x.answers.canonical.value.subject == subject
  }

  lemma EvidenceNames(env: Env, x: Consumption)
    requires Decides(env, x)
    ensures var p := x.answers.evidence.value.0; Names(x, p.issuer, p.subject)
  {
  }

  /* ---- The OIDC event ledger ---- */

  /** The evidence answered to `x` is what the Verify step at its position released, for its event and snapshot. */
  ghost predicate OidcAnswered(steps: seq<O.Step>, ws: seq<O.World>, x: Consumption)
    requires |ws| == |steps| + 1
  {
    && x.at < |steps| && steps[x.at].DoVerify? && steps[x.at].verify.id == x.eventId
    && x.answers.snapshot == Some(steps[x.at].verify.snapshot) && x.answers.evidence.Some?
    && ws[x.at + 1].releases == ws[x.at].releases + [OidcRelease(x)]
  }

  ghost function OidcRelease(x: Consumption): O.Released
    requires x.answers.evidence.Some?
  {
    O.Released(x.eventId, x.answers.evidence.value.0, x.answers.evidence.value.1)
  }

  /** A commit speaks for its token: the same issuer and subject, and no longer than the token lasts. */
  predicate OidcVouched(ledger: O.Env, c: O.Committed)
  {
    var t := ledger.decode(c.rawToken);
    && c.event.bundle.principal.issuer == t.issuer && c.event.bundle.principal.subject == t.subject
    && c.event.bundle.assurance.expiresAt <= t.expiry
  }

  lemma OidcCommitVouched(ledger: O.Env, w: O.World, p: O.InFlight, a: O.Answers)
    requires O.Apply(ledger, w, O.DoCommit(p, a)) != w
    ensures O.Verified(ledger, p.call, p.request, a).Some?
    ensures var e := O.Verified(ledger, p.call, p.request, a).value;
            var c := O.Committed(p.call.id, p.call.rawToken, e);
            O.Apply(ledger, w, O.DoCommit(p, a)).commits == w.commits + [c] && OidcVouched(ledger, c)
  {
  }

  lemma OidcCommitsStay(ledger: O.Env, w: O.World, s: O.Step, w': O.World)
    requires w' == O.Apply(ledger, w, s) && forall i :: 0 <= i < |w.commits| ==> OidcVouched(ledger, w.commits[i])
    ensures w.releases <= w'.releases && forall i :: 0 <= i < |w'.commits| ==> OidcVouched(ledger, w'.commits[i])
  {
    match s
    case DoCommit(p, a) => if w' != w { OidcCommitVouched(ledger, w, p, a); }
    case _ =>
  }

  lemma {:induction false} OidcRunVouched(ledger: O.Env, steps: seq<O.Step>, ws: seq<O.World>, n: nat)
    requires O.Run(ledger, steps, ws) && n < |ws|
    ensures forall i :: 0 <= i < |ws[n].commits| ==> OidcVouched(ledger, ws[n].commits[i])
  {
    if n > 0 {
      OidcRunVouched(ledger, steps, ws, n - 1);
      assert O.Follows(ledger, steps, ws, n - 1);
      OidcCommitsStay(ledger, ws[n - 1], steps[n - 1], ws[n]);
    }
  }

  lemma {:induction false} OidcReleasesStay(ledger: O.Env, steps: seq<O.Step>, ws: seq<O.World>, i: nat, n: nat)
    requires O.Run(ledger, steps, ws) && i <= n < |ws|
    ensures ws[i].releases <= ws[n].releases
  {
    if i < n {
      OidcReleasesStay(ledger, steps, ws, i, n - 1);
      OidcRunVouched(ledger, steps, ws, n - 1);
      assert O.Follows(ledger, steps, ws, n - 1);
      OidcCommitsStay(ledger, ws[n - 1], steps[n - 1], ws[n]);
    }
  }

  /** Two answers at different positions are two entries of the releases at the end. */
  lemma OidcReleasesApart(ledger: O.Env, steps: seq<O.Step>, ws: seq<O.World>, x: Consumption, y: Consumption)
    requires O.Run(ledger, steps, ws) && OidcAnswered(steps, ws, x) && OidcAnswered(steps, ws, y) && x.at < y.at
    ensures x.eventId != y.eventId
  {
    OidcReleasesStay(ledger, steps, ws, x.at + 1, y.at);
    OidcReleasesStay(ledger, steps, ws, y.at + 1, |steps|);
    O.EvidenceReleasedOnce(ledger, steps, ws);
    var i, j, end := |ws[x.at].releases|, |ws[y.at].releases|, ws[|steps|].releases;
    assert ws[x.at + 1].releases[i] == OidcRelease(x);
    assert i < j && end[i] == OidcRelease(x) && end[j] == OidcRelease(y);
  }

  /** Consume makes at most one decision per OIDC event, and each expires with the first of all it relied on. */
  lemma OneDecisionPerOidcEvent(env: Env, ledger: O.Env, steps: seq<O.Step>, ws: seq<O.World>, x: Consumption,
                                y: Consumption)
    requires O.Run(ledger, steps, ws) && OidcAnswered(steps, ws, x) && OidcAnswered(steps, ws, y)
    requires Decides(env, x) && Decides(env, y) && x.at != y.at
    ensures Made(env, x).eventId != Made(env, y).eventId
    ensures IsLeast(Made(env, x).expiresAt, ReliedOn(env, x)) && IsLeast(Made(env, y).expiresAt, ReliedOn(env, y))
  {
    MadeBounded(env, x);
    MadeBounded(env, y);
    if x.at < y.at { OidcReleasesApart(ledger, steps, ws, x, y); } else { OidcReleasesApart(ledger, steps, ws, y, x); }
  }

  /** What a decision rests on: the commit of its event, whose token named the identity decided for and outlasts it. */
  lemma RestsOnToken(env: Env, ledger: O.Env, steps: seq<O.Step>, ws: seq<O.World>, x: Consumption) returns (i: nat)
    requires O.Run(ledger, steps, ws) && OidcAnswered(steps, ws, x) && Decides(env, x)
    ensures var cs := ws[|steps|].commits;
            && i < |cs| && cs[i].id == Made(env, x).eventId
            && var t := ledger.decode(cs[i].rawToken);
               Names(x, t.issuer, t.subject) && Made(env, x).expiresAt <= t.expiry
  {
    OidcReleasesStay(ledger, steps, ws, x.at + 1, |steps|);
    OidcRunVouched(ledger, steps, ws, |steps|);
    O.EvidenceReleasedOnce(ledger, steps, ws);
    var w, r := ws[|steps|], |ws[x.at].releases|;
    assert ws[x.at + 1].releases[r] == OidcRelease(x);
    assert O.ReleasedFrom(w.commits, w.releases[r]);
    i :| i < |w.commits| && w.commits[i].id == x.eventId
      && w.commits[i].event.bundle.principal == x.answers.evidence.value.0
      && w.commits[i].event.bundle.assurance == x.answers.evidence.value.1;
    assert OidcVouched(ledger, w.commits[i]);
    MadeBounded(env, x);
    EvidenceNames(env, x);
  }

  /** No raw ID token supports two decisions. */
  lemma OneDecisionPerToken(env: Env, ledger: O.Env, steps: seq<O.Step>, ws: seq<O.World>, x: Consumption,
                            y: Consumption)
    returns (i: nat, j: nat)
    requires O.Run(ledger, steps, ws) && OidcAnswered(steps, ws, x) && OidcAnswered(steps, ws, y)
    requires Decides(env, x) && Decides(env, y) && x.at != y.at
    ensures var cs := ws[|steps|].commits;
            && i < |cs| && cs[i].id == Made(env, x).eventId
            && Made(env, x).expiresAt <= ledger.decode(cs[i].rawToken).expiry
            && j < |cs| && cs[j].id == Made(env, y).eventId
            && Made(env, y).expiresAt <= ledger.decode(cs[j].rawToken).expiry
            && cs[i].rawToken != cs[j].rawToken
  {
    OneDecisionPerOidcEvent(env, ledger, steps, ws, x, y);
    i := RestsOnToken(env, ledger, steps, ws, x);
    j := RestsOnToken(env, ledger, steps, ws, y);
    O.ReplaySafety(ledger, steps, ws);
    assert i < j || j < i;
  }

  /* ---- The broker event ledger ---- */

  /** The evidence answered to `x` is what the broker ledger's Verify step at its position released. */
  ghost predicate BrokerAnswered(steps: seq<R.Step>, ws: seq<R.World>, x: Consumption)
    requires |ws| == |steps| + 1
  {
    && x.at < |steps| && steps[x.at].DoVerify? && steps[x.at].id == x.eventId
    && x.answers.snapshot == Some(steps[x.at].snapshot) && x.answers.evidence.Some?
    && ws[x.at + 1].releases == ws[x.at].releases + [BrokerRelease(x)]
  }

  ghost function BrokerRelease(x: Consumption): R.Released
    requires x.answers.evidence.Some?
  {
    R.Released(x.eventId, x.answers.evidence.value.0, x.answers.evidence.value.1)
  }

  /** A commit speaks for its capture: the same principal, and no longer than the captured assurance. */
  predicate BrokerVouched(c: R.Committed)
  {
    && c.event.bundle.principal == c.origin.capture.principal
    && c.event.bundle.assurance.expiresAt <= c.origin.capture.assurance.expiresAt
  }

  lemma BrokerVerified(ledger: B.Env, p: R.InFlight, a: B.Answers)
    requires B.Verified(ledger, p.call, p.request, p.origin.capture, a).Some?
    ensures BrokerVouched(R.Committed(p.origin, B.Verified(ledger, p.call, p.request, p.origin.capture, a).value))
  {
  }

  lemma BrokerCommitVouched(ledger: B.Env, w: R.World, p: R.InFlight, a: B.Answers) returns (e: StoredEvent)
    requires R.Apply(ledger, w, R.DoCommit(p, a)) != w
    ensures R.Apply(ledger, w, R.DoCommit(p, a)).commits == w.commits + [R.Committed(p.origin, e)]
    ensures R.Apply(ledger, w, R.DoCommit(p, a)).releases == w.releases && BrokerVouched(R.Committed(p.origin, e))
  {
    e := R.CommitEffect(ledger, w, p, a);
    BrokerVerified(ledger, p, a);
  }

  lemma BrokerCommitsStay(ledger: B.Env, w: R.World, s: R.Step, w': R.World)
    requires w' == R.Apply(ledger, w, s) && forall i :: 0 <= i < |w.commits| ==> BrokerVouched(w.commits[i])
    ensures w.releases <= w'.releases && forall i :: 0 <= i < |w'.commits| ==> BrokerVouched(w'.commits[i])
  {
    if w' != w {
      match s
      case DoCommit(p, a) => var e := BrokerCommitVouched(ledger, w, p, a);
      case DoVerify(id, t, o, c) => var e := R.VerifyEffect(ledger, w, id, t, o, c);
      case _ => R.EventsEffect(ledger, w, s);
    }
  }

  lemma {:induction false} BrokerRunVouched(ledger: B.Env, steps: seq<R.Step>, ws: seq<R.World>, n: nat)
    requires R.Run(ledger, steps, ws) && n < |ws|
    ensures forall i :: 0 <= i < |ws[n].commits| ==> BrokerVouched(ws[n].commits[i])
  {
    if n > 0 {
      BrokerRunVouched(ledger, steps, ws, n - 1);
      assert R.Follows(ledger, steps, ws, n - 1);
      BrokerCommitsStay(ledger, ws[n - 1], steps[n - 1], ws[n]);
    }
  }

  lemma {:induction false} BrokerReleasesStay(ledger: B.Env, steps: seq<R.Step>, ws: seq<R.World>, i: nat, n: nat)
    requires R.Run(ledger, steps, ws) && i <= n < |ws|
    ensures ws[i].releases <= ws[n].releases
  {
    if i < n {
      BrokerReleasesStay(ledger, steps, ws, i, n - 1);
      BrokerRunVouched(ledger, steps, ws, n - 1);
      assert R.Follows(ledger, steps, ws, n - 1);
      BrokerCommitsStay(ledger, ws[n - 1], steps[n - 1], ws[n]);
    }
  }

  lemma BrokerReleasesApart(ledger: B.Env, steps: seq<R.Step>, ws: seq<R.World>, x: Consumption, y: Consumption)
    requires R.Run(ledger, steps, ws) && BrokerAnswered(steps, ws, x) && BrokerAnswered(steps, ws, y) && x.at < y.at
    ensures x.eventId != y.eventId
  {
    BrokerReleasesStay(ledger, steps, ws, x.at + 1, y.at);
    BrokerReleasesStay(ledger, steps, ws, y.at + 1, |steps|);
    R.EvidenceReleasedOnce(ledger, steps, ws);
    var i, j, end := |ws[x.at].releases|, |ws[y.at].releases|, ws[|steps|].releases;
    assert ws[x.at + 1].releases[i] == BrokerRelease(x);
    assert i < j && end[i] == BrokerRelease(x) && end[j] == BrokerRelease(y);
  }

  /** Consume makes at most one decision per broker event, and each expires with the first of all it relied on. */
  lemma OneDecisionPerBrokerEvent(env: Env, ledger: B.Env, steps: seq<R.Step>, ws: seq<R.World>, x: Consumption,
                                  y: Consumption)
    requires R.Run(ledger, steps, ws) && BrokerAnswered(steps, ws, x) && BrokerAnswered(steps, ws, y)
    requires Decides(env, x) && Decides(env, y) && x.at != y.at
    ensures Made(env, x).eventId != Made(env, y).eventId
    ensures IsLeast(Made(env, x).expiresAt, ReliedOn(env, x)) && IsLeast(Made(env, y).expiresAt, ReliedOn(env, y))
  {
    MadeBounded(env, x);
    MadeBounded(env, y);
    if x.at < y.at {
      BrokerReleasesApart(ledger, steps, ws, x, y);
    } else {
      BrokerReleasesApart(ledger, steps, ws, y, x);
    }
  }

  /**
   * What a decision rests on: the capture of its event, whose assertion named the identity decided for and outlasts it.
   */
  lemma RestsOnAssertion(env: Env, ledger: B.Env, steps: seq<R.Step>, ws: seq<R.World>, x: Consumption) returns (i: nat)
    requires R.Run(ledger, steps, ws) && BrokerAnswered(steps, ws, x) && Decides(env, x)
    ensures var cs := ws[|steps|].commits;
            && i < |cs| && cs[i].origin.id == Made(env, x).eventId
            && Names(x, cs[i].origin.capture.principal.issuer, cs[i].origin.capture.principal.subject)
            && Made(env, x).expiresAt <= cs[i].origin.end
  {
    BrokerReleasesStay(ledger, steps, ws, x.at + 1, |steps|);
    BrokerRunVouched(ledger, steps, ws, |steps|);
    R.EvidenceReleasedOnce(ledger, steps, ws);
    R.RunIsOrderly(ledger, steps, ws, |steps|);
    var w, r := ws[|steps|], |ws[x.at].releases|;
    assert ws[x.at + 1].releases[r] == BrokerRelease(x);
    assert R.ReleasedFrom(w.commits, w.releases[r]);
    i :| i < |w.commits| && w.commits[i].origin.id == x.eventId
      && w.commits[i].event.bundle.principal == x.answers.evidence.value.0
      && w.commits[i].event.bundle.assurance == x.answers.evidence.value.1;
    assert BrokerVouched(w.commits[i]) && w.commits[i].origin in w.captured;
    MadeBounded(env, x);
    EvidenceNames(env, x);
  }

  /** While maintenance is clear, no upstream assertion supports two decisions. */
  lemma OneDecisionPerAssertion(env: Env, ledger: B.Env, steps: seq<R.Step>, ws: seq<R.World>, x: Consumption,
                                y: Consumption)
    returns (i: nat, j: nat)
    requires R.Run(ledger, steps, ws) && BrokerAnswered(steps, ws, x) && BrokerAnswered(steps, ws, y)
    requires Decides(env, x) && Decides(env, y) && x.at != y.at && R.ClearBefore(steps, ws, |steps|)
    ensures var cs := ws[|steps|].commits;
            && i < |cs| && cs[i].origin.id == Made(env, x).eventId && Made(env, x).expiresAt <= cs[i].origin.end
            && j < |cs| && cs[j].origin.id == Made(env, y).eventId && Made(env, y).expiresAt <= cs[j].origin.end
            && var p, q := cs[i].origin, cs[j].origin;
               p.capture.principal.protocol != q.capture.principal.protocol || p.assertion != q.assertion
  {
    OneDecisionPerBrokerEvent(env, ledger, steps, ws, x, y);
    i := RestsOnAssertion(env, ledger, steps, ws, x);
    j := RestsOnAssertion(env, ledger, steps, ws, y);
    if i < j { R.AssertionVerifiedOnce(ledger, steps, ws, |steps|, i, j); }
    else { R.AssertionVerifiedOnce(ledger, steps, ws, |steps|, j, i); }
  }
}
