/**
 * Interleaved runs of the approval and trust ledgers. Every call reads at earlier points of the run,
 * asks remote authorities that may answer anything, and then tries to commit.
 */
module Governance {
  import opened Storage
  import opened Models
  import A = Approvals
  import T = Trusts

  datatype World = World(approvals: A.Ledger, trusts: T.Ledger)

  const Empty := World(A.Ledger(map[], map[]), T.Ledger(map[], map[], map[], None))

  /** One use of a receipt: the run positions of its three reads and the answers it got. */
  datatype Lookup = Lookup(keyAt: nat, firstAt: nat, secondAt: nat, use: A.Use, checkedAt: Time)

  datatype Step =
    | ApprovalPropose(propose: A.ProposeCall)
    | ApprovalDecide(readAt: nat, decide: A.DecideCall)
    | ApprovalRevoke(revoke: A.RevokeCall)
    | TrustPropose(readAt: nat, tpropose: T.ProposeCall)
    | TrustDecide(readAt: nat, lookups: seq<Lookup>, tdecide: T.DecideCall)
    | TrustContain(readAt: nat, contain: T.ContainCall)
    | TrustFence(now: Time)

  function Expect(s: TrustSnapshot, scope: Scope, id: string, kind: A.Kind): A.Expectation
  {
    A.Expectation(id, kind, s.trust.id, s.snapshotId, s.approvedRevision, s.trust.binding.providerId,
                  s.trust.binding.engineInstanceId, scope, "", "", "", "", "", "", "")
  }

  /** The six receipts an ACTIVE revision stands on. */
  function Expectations(s: TrustSnapshot, scope: Scope): seq<A.Expectation>
  {
    [Expect(s, scope, s.trust.binding.configurationReference, A.FederationConfiguration),
     Expect(s, scope, s.trust.binding.trustMaterialReference, A.FederationTrustMaterial),
     Expect(s, scope, s.trust.assurancePolicyReference, A.AssurancePolicy),
     Expect(s, scope, s.trust.attributeMappingReference, A.AttributeMapping),
     Expect(s, scope, s.trust.provisioningPolicyReference, A.ProvisioningPolicy),
     Expect(s, scope, s.trust.activationEvidenceReference, A.FederationActivation)]
  }

  predicate Within(k: Lookup, from: nat, to: nat)
  {
    from <= k.keyAt <= k.firstAt <= k.secondAt <= to
  }

  /** One receipt stands, is fresh and outlasts the snapshot. */
  predicate Stands(g: Grammar, ws: seq<World>, want: A.Expectation, s: TrustSnapshot, k: Lookup)
    requires k.keyAt <= k.firstAt <= k.secondAt < |ws|
  {
    var r := A.Reference(g, ws[k.keyAt].approvals, ws[k.firstAt].approvals, ws[k.secondAt].approvals, want, k.use);
    r.Some? && r.value.expectation == want && r.value.approved && r.value.nonSecret
    && Fresh(r.value.validFrom, r.value.expiresAt, k.checkedAt) && s.validUntil <= r.value.expiresAt
  }

  /** The activation check made by Decide and again by every Trust call, reading between two run positions. */
  predicate Activation(g: Grammar, ws: seq<World>, s: TrustSnapshot, scope: Scope, ks: seq<Lookup>, from: nat, to: nat)
    requires to < |ws|
  {
    s.trust.status == Active ==>
      |ks| == 6 && forall i :: 0 <= i < 6 ==>
        Within(ks[i], from, to) && Stands(g, ws, Expectations(s, scope)[i], s, ks[i])
  }

  /** The world after one more step of a run that has passed through `ws`; a refused call changes nothing. */
  function Apply(env: T.Env, ws: seq<World>, s: Step): World
    requires ws != []
  {
    var w, now := ws[|ws| - 1], |ws| - 1;
    match s
    case ApprovalPropose(c) =>
      (match A.Propose(env.grammar, w.approvals, c) case None => w case Some(l) => w.(approvals := l))
    case ApprovalDecide(r, c) =>
      if r > now || c.id !in ws[r].approvals.proposals then w
      else (match A.Decide(env.grammar, w.approvals, ws[r].approvals.proposals[c.id], c)
            case None => w case Some(l) => w.(approvals := l))
    case ApprovalRevoke(c) =>
      (match A.Revoke(env.grammar, w.approvals, c) case None => w case Some(l) => w.(approvals := l))
    case TrustPropose(r, c) =>
      if r > now then w
      else (match T.Propose(env, w.trusts, Find(ws[r].trusts.trusts, c.candidate.trust.id), c)
            case None => w case Some(l) => w.(trusts := l))
    case TrustDecide(r, ks, c) =>
      if r > now || c.id !in ws[r].trusts.proposals then w
      else
        var p := ws[r].trusts.proposals[c.id];
        if c.activated && !Activation(env.grammar, ws, p.snapshot, p.target.scope, ks, r, now) then w
        else (match T.Decide(env, w.trusts, p, c) case None => w case Some(l) => w.(trusts := l))
    case TrustContain(r, c) =>
      if r > now || c.id !in ws[r].trusts.trusts then w
      else (match T.Contain(env, w.trusts, ws[r].trusts.trusts[c.id], c) case None => w case Some(l) => w.(trusts := l))
    case TrustFence(t) =>
      (match T.Fence(w.trusts, t) case None => w case Some(l) => w.(trusts := l))
  }

  ghost predicate Follows(env: T.Env, steps: seq<Step>, ws: seq<World>, i: nat)
    requires i < |steps| < |ws|
  {
    ws[i + 1] == Apply(env, ws[..i + 1], steps[i])
  }

  ghost predicate Run(env: T.Env, steps: seq<Step>, ws: seq<World>)
  {
    && |ws| == |steps| + 1 && ws[0] == Empty
    && forall i: nat {:trigger Follows(env, steps, ws, i)} :: i < |steps| ==> Follows(env, steps, ws, i)
  }

  ghost predicate Sound(w: World) { A.Sound(w.approvals) && T.Sound(w.trusts) }

  ghost predicate Extends(v: World, w: World) { A.Extends(v.approvals, w.approvals) && T.Extends(v.trusts, w.trusts) }

  lemma ExtendsReflexive(w: World)
    ensures Extends(w, w)
  {
    T.Unchanged(w.trusts);
  }

  ghost predicate Stable(ws: seq<World>, i: nat)
    requires i < |ws|
  {
    Sound(ws[i]) && Extends(ws[i], ws[|ws| - 1])
  }

  /** Every world so far is sound and the last one extends them all. */
  ghost predicate Consistent(ws: seq<World>)
  {
    ws != [] && forall i: nat {:trigger Stable(ws, i)} :: i < |ws| ==> Stable(ws, i)
  }

  /** The run position a call read at, 0 if it reads nothing beforehand. */
  function ReadAt(s: Step): nat
  {
    match s
    case ApprovalDecide(r, _) => r
    case TrustPropose(r, _) => r
    case TrustDecide(r, _, _) => r
    case TrustContain(r, _) => r
    case _ => 0
  }

  lemma StepKeeps(env: T.Env, ws: seq<World>, s: Step, w': World)
    requires Consistent(ws) && w' == Apply(env, ws, s)
    ensures Sound(w') && Extends(ws[|ws| - 1], w')
  {
    var w := ws[|ws| - 1];
    ExtendsReflexive(w);
    assert Stable(ws, |ws| - 1);
    if w' != w {
      assert ReadAt(s) < |ws| ==> Stable(ws, ReadAt(s));
      match s
      case ApprovalPropose(c) => A.ProposeKeeps(env.grammar, w.approvals, c);
      case ApprovalDecide(r, c) => A.DecideKeeps(env.grammar, ws[r].approvals, w.approvals, c);
      case ApprovalRevoke(c) => A.RevokeKeeps(env.grammar, w.approvals, c);
      case TrustPropose(r, c) => T.ProposeKeeps(env, w.trusts, Find(ws[r].trusts.trusts, c.candidate.trust.id), c);
      case TrustDecide(r, ks, c) => T.DecideKeeps(env, ws[r].trusts, w.trusts, c);
      case TrustContain(r, c) => T.ContainKeeps(env, ws[r].trusts, w.trusts, c);
      case TrustFence(t) => T.Unchanged(w.trusts);
    }
  }

  lemma ConsistentGrows(ws: seq<World>, w: World)
    requires Consistent(ws) && Sound(w) && Extends(ws[|ws| - 1], w)
    ensures Consistent(ws + [w])
  {
    var last, more := ws[|ws| - 1], ws + [w];
    forall i: nat | i < |more| ensures Stable(more, i) {
      if i == |ws| {
        ExtendsReflexive(w);
      } else {
        assert Stable(ws, i);
        A.ExtendsTransitive(ws[i].approvals, last.approvals, w.approvals);
        T.ExtendsTransitive(ws[i].trusts, last.trusts, w.trusts);
      }
    }
  }

  lemma RunStepKeeps(env: T.Env, steps: seq<Step>, ws: seq<World>, past: seq<World>, n: nat)
    requires Run(env, steps, ws) && 0 < n < |ws| && past == ws[..n] && Consistent(past)
    ensures Sound(ws[n]) && Extends(past[n - 1], ws[n])
  {
    assert Follows(env, steps, ws, n - 1);
    StepKeeps(env, past, steps[n - 1], ws[n]);
  }

  lemma {:induction false} RunIsConsistent(env: T.Env, steps: seq<Step>, ws: seq<World>, n: nat)
    requires Run(env, steps, ws) && n < |ws|
    ensures Consistent(ws[..n + 1])
  {
    if n == 0 {
      ExtendsReflexive(Empty);
      assert ws[..1] == [Empty];
    } else {
      var past := ws[..n];
      RunIsConsistent(env, steps, ws, n - 1);
      RunStepKeeps(env, steps, ws, past, n);
      ConsistentGrows(past, ws[n]);
      assert ws[..n + 1] == past + [ws[n]];
    }
  }

  /** Every world of a run is sound, and extends every world before it. */
  lemma RunIsSound(env: T.Env, steps: seq<Step>, ws: seq<World>, i: nat, n: nat)
    requires Run(env, steps, ws) && i <= n < |ws|
    ensures Sound(ws[i]) && Sound(ws[n]) && Extends(ws[i], ws[n])
  {
    RunIsConsistent(env, steps, ws, n);
    var past := ws[..n + 1];
    assert Stable(past, i) && Stable(past, n);
    assert past[i] == ws[i] && past[n] == ws[n];
  }

  /**
   * In every reachable world a trust's history is exactly revisions 1..n: it starts REQUESTED, entry n is the
   * current one, each entry follows the one before by an allowed transition, and nothing is beyond n.
   */
  lemma TrustHistoryIsChain(env: T.Env, steps: seq<Step>, ws: seq<World>, n: nat, id: string)
    requires Run(env, steps, ws) && n < |ws| && id in ws[n].trusts.trusts
    ensures var l := ws[n].trusts;
            var last := l.trusts[id].snapshot.trust.revision;
            && last >= 1
            && (forall k: nat :: T.Slot(id, k) in l.history <==> 1 <= k <= last)
            && l.history[T.Slot(id, 1)].snapshot.trust.status == Requested
            && l.history[T.Slot(id, last)] == l.trusts[id]
            && (forall k :: 1 < k <= last ==>
                  T.TrustTransition(l.history[T.Slot(id, k - 1)].snapshot.trust,
                                    l.history[T.Slot(id, k)].snapshot.trust))
  {
    RunIsSound(env, steps, ws, n, n);
    var l := ws[n].trusts;
    var last := l.trusts[id].snapshot.trust.revision;
    assert T.IsHead(l.trusts[id], l.history, id);
    assert T.Linked(l.history, T.Slot(id, 1));
    forall k | 1 < k <= last
      ensures T.TrustTransition(l.history[T.Slot(id, k - 1)].snapshot.trust, l.history[T.Slot(id, k)].snapshot.trust)
    {
      assert T.Linked(l.history, T.Slot(id, k));
    }
  }

  /** In every reachable world entries are approvals plus containments, and receipt keys are proposals ever approved. */
  lemma RunConserves(env: T.Env, steps: seq<Step>, ws: seq<World>, n: nat)
    requires Run(env, steps, ws) && n < |ws|
    ensures var l := ws[n].trusts; |l.history| == |T.ApprovedIds(l)| + |T.ContainedSlots(l)|
    ensures var l := ws[n].approvals; |l.receipts| == |set id | id in l.proposals && A.EverApproved(l.proposals[id])|
  {
    RunIsSound(env, steps, ws, n, n);
    T.HistoryIsApprovalsPlusContainments(ws[n].trusts);
    A.ReceiptCount(ws[n].approvals);
  }

  /* ---- The Trust query ---- */

  /**
   * A Trust call: it reads the revision, raises the watermark and reads the clock, checks the activation, raises
   * the watermark again, reads the revision again and the clock once more. Positions are those of the run.
   */
  datatype TrustCall = TrustCall(id: string, firstAt: nat, fenceAt: nat, before: Time, lookups: seq<Lookup>,
                                 againAt: nat, secondAt: nat, after: Time)

  /** The step at `i` raised the watermark to `t`. */
  predicate FencedAt(steps: seq<Step>, ws: seq<World>, i: nat, t: Time)
  {
    i < |steps| && i < |ws| && steps[i] == TrustFence(t) && !T.Behind(ws[i].trusts, t)
  }

  /** The call's reads and fences follow each other in the run. */
  predicate InOrder(steps: seq<Step>, c: TrustCall)
  {
    c.firstAt <= c.fenceAt < c.againAt < c.secondAt <= |steps| && steps[c.fenceAt].TrustFence?
    && steps[c.againAt].TrustFence?
  }

  /** The clock does not run back inside the call. */
  predicate Steady(steps: seq<Step>, c: TrustCall)
    requires InOrder(steps, c)
  {
    steps[c.fenceAt].now <= c.before <= steps[c.againAt].now <= c.after
  }

  function TrustQuery(g: Grammar, steps: seq<Step>, ws: seq<World>, c: TrustCall): Option<TrustSnapshot>
  {
    if !InOrder(steps, c) || |ws| != |steps| + 1 || !g.uuid(c.id) || c.id !in ws[c.firstAt].trusts.trusts
       || c.id !in ws[c.secondAt].trusts.trusts then None
    else
      var v, again := ws[c.firstAt].trusts.trusts[c.id], ws[c.secondAt].trusts.trusts[c.id];
      if !T.Readable(g, c.id, v) || !T.Readable(g, c.id, again)
         || !FencedAt(steps, ws, c.fenceAt, steps[c.fenceAt].now)
         || !FencedAt(steps, ws, c.againAt, steps[c.againAt].now)
         || !(c.before < v.snapshot.validUntil)
         || !Activation(g, ws, v.snapshot, v.scope, c.lookups, c.fenceAt + 1, c.againAt)
         || !(c.after < v.snapshot.validUntil) || v.snapshot != again.snapshot
      then None
      else Some(v.snapshot)
  }

  /**
   * Expiry cannot reopen: once the watermark has reached a snapshot's end of validity, no Trust call that still
   * has to raise the watermark returns that snapshot, whatever its clock reads.
   */
  lemma ExpiryIsFinal(env: T.Env, steps: seq<Step>, ws: seq<World>, i: nat, c: TrustCall, s: TrustSnapshot)
    requires Run(env, steps, ws) && i < |ws| && ws[i].trusts.clock.Some? && s.validUntil <= ws[i].trusts.clock.value
    requires InOrder(steps, c) && Steady(steps, c) && i <= c.againAt
    ensures TrustQuery(env.grammar, steps, ws, c) != Some(s)
  {
    RunIsSound(env, steps, ws, i, c.againAt);
    assert T.ClockRuns(ws[i].trusts.clock, ws[c.againAt].trusts.clock);
  }

  /** The revision returned was the current one at every moment of the call. */
  lemma TrustWasCurrentThroughout(env: T.Env, steps: seq<Step>, ws: seq<World>, c: TrustCall, j: nat)
    requires Run(env, steps, ws) && TrustQuery(env.grammar, steps, ws, c).Some? && c.firstAt <= j <= c.secondAt
    ensures c.id in ws[j].trusts.trusts
    ensures ws[j].trusts.trusts[c.id].snapshot == TrustQuery(env.grammar, steps, ws, c).value
  {
    RunIsSound(env, steps, ws, c.firstAt, j);
    RunIsSound(env, steps, ws, j, c.secondAt);
    T.HeadRevision(ws[j].trusts, c.id);
    T.SameRevisionSameValue(ws[c.firstAt].trusts, ws[j].trusts, c.id);
  }

  /** After a committed revocation the receipt key still points at the revoked proposal. */
  lemma RevokeCommits(env: T.Env, steps: seq<Step>, ws: seq<World>, i: nat, c: A.RevokeCall, want: A.Expectation)
    requires Run(env, steps, ws) && i < |steps| && steps[i] == ApprovalRevoke(c) && ws[i + 1] != ws[i]
    requires c.id in ws[i].approvals.proposals && ws[i].approvals.proposals[c.id].receipt.expectation == want
    ensures var l := ws[i + 1].approvals;
            want in l.receipts && l.receipts[want] in l.proposals
            && l.proposals[l.receipts[want]].status == A.ProposalStatus.Revoked
  {
    RunIsSound(env, steps, ws, i, i);
    assert Follows(env, steps, ws, i);
    assert ws[..i + 1][|ws[..i + 1]| - 1] == ws[i];
  }

  /**
   * Once the revocation of one of the six receipts of an ACTIVE revision has committed, no Trust call
   * that starts later returns that revision, whatever proposals, decisions or containments follow.
   */
  lemma RevocationIsFinal(env: T.Env, steps: seq<Step>, ws: seq<World>, i: nat, r: A.RevokeCall,
                          want: A.Expectation, c: TrustCall, s: TrustSnapshot, scope: Scope)
    requires Run(env, steps, ws) && i < |steps| && steps[i] == ApprovalRevoke(r) && ws[i + 1] != ws[i]
    requires r.id in ws[i].approvals.proposals && ws[i].approvals.proposals[r.id].receipt.expectation == want
    requires s.trust.status == Active && want in Expectations(s, scope)
    requires i < c.firstAt < |ws| && c.id in ws[c.firstAt].trusts.trusts
             && ws[c.firstAt].trusts.trusts[c.id].scope == scope
    ensures TrustQuery(env.grammar, steps, ws, c) != Some(s)
  {
    if TrustQuery(env.grammar, steps, ws, c) == Some(s) {
      RevokeCommits(env, steps, ws, i, r, want);
      var j :| 0 <= j < 6 && Expectations(s, scope)[j] == want;
      var k := c.lookups[j];
      assert Within(k, c.fenceAt + 1, c.againAt) && Stands(env.grammar, ws, want, s, k);
      RunIsSound(env, steps, ws, i + 1, k.keyAt);
      RunIsSound(env, steps, ws, i + 1, k.firstAt);
      A.RevokedReceiptIsDead(env.grammar, ws[i + 1].approvals, ws[k.keyAt].approvals, ws[k.firstAt].approvals,
                             ws[k.secondAt].approvals, want, k.use);
      assert false;
    }
  }

  /* ---- Activation rests on six receipts ---- */

  /** The receipt has been approved at some time, by two people. */
  ghost predicate BackedBy(l: A.Ledger, want: A.Expectation)
  {
    && want in l.receipts && l.receipts[want] in l.proposals
    && A.EverApproved(l.proposals[l.receipts[want]])
    && l.proposals[l.receipts[want]].maker != l.proposals[l.receipts[want]].checker
  }

  ghost predicate Backed(l: A.Ledger, v: T.Committed)
  {
    forall want :: want in Expectations(v.snapshot, v.scope) ==> BackedBy(l, want)
  }

  ghost predicate ActiveIsBacked(w: World)
  {
    forall s :: s in w.trusts.history && w.trusts.history[s].snapshot.trust.status == Active ==>
      Backed(w.approvals, w.trusts.history[s])
  }

  lemma BackedStays(l: A.Ledger, m: A.Ledger, v: T.Committed)
    requires Backed(l, v) && A.Extends(l, m)
    ensures Backed(m, v)
  {
    forall want | want in Expectations(v.snapshot, v.scope) ensures BackedBy(m, want) {
      assert BackedBy(l, want);
      assert A.Later(l.proposals[l.receipts[want]], m.proposals[m.receipts[want]]);
    }
  }

  /** A receipt that stood when it was looked up has been approved by two people. */
  lemma StandingReceipt(g: Grammar, ws: seq<World>, want: A.Expectation, s: TrustSnapshot, k: Lookup)
    requires Consistent(ws) && k.keyAt <= k.firstAt <= k.secondAt < |ws| && Stands(g, ws, want, s, k)
    ensures BackedBy(ws[|ws| - 1].approvals, want)
  {
    assert Stable(ws, k.keyAt) && Stable(ws, k.firstAt) && Stable(ws, |ws| - 1);
  }

  lemma ActivationBacks(g: Grammar, ws: seq<World>, v: T.Committed, ks: seq<Lookup>, from: nat)
    requires Consistent(ws)
    requires v.snapshot.trust.status == Active && Activation(g, ws, v.snapshot, v.scope, ks, from, |ws| - 1)
    ensures Backed(ws[|ws| - 1].approvals, v)
  {
    forall want | want in Expectations(v.snapshot, v.scope) ensures BackedBy(ws[|ws| - 1].approvals, want) {
      var j :| 0 <= j < 6 && Expectations(v.snapshot, v.scope)[j] == want;
      assert Within(ks[j], from, |ws| - 1);
      StandingReceipt(g, ws, want, v.snapshot, ks[j]);
    }
  }

  lemma StepKeepsBacking(env: T.Env, ws: seq<World>, s: Step, w: World, w': World)
    requires Consistent(ws) && w == ws[|ws| - 1] && w' == Apply(env, ws, s)
    requires ActiveIsBacked(w)
    ensures ActiveIsBacked(w')
  {
    StepKeeps(env, ws, s, w');
    forall x | x in w'.trusts.history && w'.trusts.history[x].snapshot.trust.status == Active
      ensures Backed(w'.approvals, w'.trusts.history[x])
    {
      if x in w.trusts.history {
        BackedStays(w.approvals, w'.approvals, w.trusts.history[x]);
      } else if s.TrustDecide? {
        NewActiveWasChecked(env, ws, s, x);
        ActivationBacks(env.grammar, ws, w'.trusts.history[x], s.lookups, s.readAt);
      } else {
        NoOtherNewActive(env, ws, s, x);
      }
    }
  }

  lemma NewActiveWasChecked(env: T.Env, ws: seq<World>, s: Step, x: T.Slot)
    requires ws != [] && s.TrustDecide? && x !in ws[|ws| - 1].trusts.history
    requires var h := Apply(env, ws, s).trusts.history; x in h && h[x].snapshot.trust.status == Active
    ensures var v := Apply(env, ws, s).trusts.history[x];
            Activation(env.grammar, ws, v.snapshot, v.scope, s.lookups, s.readAt, |ws| - 1)
  {
  }

  lemma NoOtherNewActive(env: T.Env, ws: seq<World>, s: Step, x: T.Slot)
    requires ws != [] && !s.TrustDecide? && x !in ws[|ws| - 1].trusts.history && x in Apply(env, ws, s).trusts.history
    ensures Apply(env, ws, s).trusts.history[x].snapshot.trust.status != Active
  {
  }

  /** In every reachable world each ACTIVE revision rests on six receipts, each approved by two people. */
  lemma {:induction false} ActiveRestsOnSixReceipts(env: T.Env, steps: seq<Step>, ws: seq<World>, n: nat)
    requires Run(env, steps, ws) && n < |ws|
    ensures ActiveIsBacked(ws[n])
  {
    if n > 0 {
      ActiveRestsOnSixReceipts(env, steps, ws, n - 1);
      RunIsConsistent(env, steps, ws, n - 1);
      assert Follows(env, steps, ws, n - 1);
      StepKeepsBacking(env, ws[..n], steps[n - 1], ws[n - 1], ws[n]);
    }
  }
}
