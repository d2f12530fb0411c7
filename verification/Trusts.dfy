/** The trust ledger: an append-only chain of revisions per trust, moved on by two people or by containment. */
module Trusts {
  import opened Storage
  import opened Models
  import A = Approvals

  /** Hashing a snapshot is an arbitrary function. */
  datatype Env = Env(grammar: Grammar, digest: TrustSnapshot -> string)

  datatype ProposalStatus = Pending | Approved | Rejected

  datatype Proposal = Proposal(
    id: string, snapshot: TrustSnapshot, target: A.Expectation, targetDigest: string, previousRevision: nat,
    previousSnapshotId: string, maker: string, checker: string, status: ProposalStatus, proposedAt: Time,
    decidedAt: Time)

  datatype Committed = Committed(snapshot: TrustSnapshot, scope: Scope, proposalId: string, maker: string,
                                 checker: string, decidedAt: Time, containedBy: Option<string>,
                                 containedAt: Option<Time>)

  /** A history key: trust ID and revision. */
  datatype Slot = Slot(id: string, revision: nat)

  datatype Ledger = Ledger(trusts: map<string, Committed>, proposals: map<string, Proposal>,
                           history: map<Slot, Committed>, clock: Option<Time>)

  predicate AllowedNext(from: Status, to: Status)
  {
    match from
    case Requested => to == Configuring || to == Revoked
    case Configuring => to == Verifying || to == Revoked
    case Verifying => to == Configuring || to == Active || to == Revoked
    case Active => to == Suspended || to == Rotating || to == Revoked
    case Suspended => to == Verifying || to == Revoked
    case Rotating => to == Verifying || to == Revoked
    case _ => false
  }

  predicate TrustTransition(previous: Trust, current: Trust)
  {
    && current.organisationIds == previous.organisationIds && current.estateIds == previous.estateIds
    && current.binding.providerId == previous.binding.providerId
    && current.binding.engineInstanceId == previous.binding.engineInstanceId
    && current.id == previous.id && previous.revision != MAX_REVISION && current.revision == previous.revision + 1
    && current.protocol == previous.protocol && current.upstreamIssuer == previous.upstreamIssuer
    && current.createdAt == previous.createdAt && previous.updatedAt <= current.updatedAt
    && previous.status != Revoked
    && (if previous.status == current.status then previous.status != Active
        else AllowedNext(previous.status, current.status))
  }

  /** The checks every read of a committed revision makes. */
  predicate Readable(g: Grammar, id: string, v: Committed)
  {
    && v.snapshot.trust.id == id && v.snapshot.approvedRevision == v.snapshot.trust.revision
    && g.exact(v.snapshot.snapshotId) && ValidateTrust(g, v.snapshot.trust)
    && g.organisation(v.scope.organisationId) && g.estate(v.scope.estateId)
    && g.uuid(v.maker) && g.uuid(v.checker) && v.maker != v.checker
  }

  predicate Behind(l: Ledger, now: Time) { l.clock.Some? && now < l.clock.value }

  /** The revision and snapshot a compare-and-swap expects; a missing trust reads as revision 0. */
  function CurrentRevision(l: Ledger, id: string): nat { RevisionOf(Find(l.trusts, id)) }

  function CurrentSnapshot(l: Ledger, id: string): string { SnapshotOf(Find(l.trusts, id)) }

  datatype ProposeCall = ProposeCall(
    id: string, candidate: TrustSnapshot, want: A.Expectation, first: Option<A.Actor>, now: Time,
    digest: Option<string>, second: Option<A.Actor>, observed: Time, checked: Time)

  predicate CandidateFits(env: Env, c: ProposeCall)
  {
    var g, t, w := env.grammar, c.candidate.trust, c.want;
    && g.uuid(c.id) && ValidateTrust(g, t) && A.ValidExpectation(g, w) && w.kind == A.FederationActivation
    && w.trustId == t.id && w.trustRevision == t.revision && w.snapshotId == c.candidate.snapshotId
    && w.providerId == t.binding.providerId && w.engineInstanceId == t.binding.engineInstanceId
    && g.exact(c.candidate.snapshotId) && c.candidate.approvedRevision == t.revision
    && t.organisationIds == [w.scope.organisationId] && t.estateIds == [w.scope.estateId]
    && A.SameActor(g, c.first, c.second)
    && t.updatedAt <= c.now && c.now < c.candidate.validUntil
    && c.digest == Some(env.digest(c.candidate))
  }

  function RevisionOf(v: Option<Committed>): nat { if v.Some? then v.value.snapshot.approvedRevision else 0 }

  function SnapshotOf(v: Option<Committed>): string { if v.Some? then v.value.snapshot.snapshotId else "" }

  /** The candidate is a first revision, or an allowed successor of what the call read. */
  predicate Follows(env: Env, previous: Option<Committed>, c: ProposeCall)
  {
    match previous
    case None => c.candidate.trust.status == Requested && c.candidate.trust.revision == 1
    case Some(v) =>
      Readable(env.grammar, c.candidate.trust.id, v) && TrustTransition(v.snapshot.trust, c.candidate.trust)
  }

  function Proposed(env: Env, previous: Option<Committed>, c: ProposeCall): Proposal
    requires c.first.Some?
  {
    Proposal(c.id, c.candidate, c.want, env.digest(c.candidate), RevisionOf(previous), SnapshotOf(previous),
             c.first.value.principalId, "", Pending, c.now, 0)
  }

  /** The proposing transaction: a fresh proposal against the revision that is still current. */
  function ProposeCommit(l: Ledger, p: Proposal, until: Time, observed: Time, checked: Time): Option<Ledger>
  {
    if Behind(l, observed) || !(checked < until) || !(checked < p.snapshot.validUntil) || p.id in l.proposals
       || CurrentRevision(l, p.snapshot.trust.id) != p.previousRevision
       || CurrentSnapshot(l, p.snapshot.trust.id) != p.previousSnapshotId then None
    else Some(l.(clock := Some(observed), proposals := l.proposals[p.id := p]))
  }

  /** `previous` is what the call read before asking its authorities. */
  function Propose(env: Env, l: Ledger, previous: Option<Committed>, c: ProposeCall): Option<Ledger>
  {
    if !CandidateFits(env, c) || !Follows(env, previous, c) then None
    else ProposeCommit(l, Proposed(env, previous, c), c.second.value.validUntil, c.observed, c.checked)
  }

  datatype DecideCall = DecideCall(
    id: string, digest: string, approve: bool, first: Option<A.Actor>, target: Option<string>, activated: bool,
    second: Option<A.Actor>, now: Time, observed: Time, checked: Time)

  function Decided(p: Proposal, c: DecideCall): Proposal
    requires c.first.Some?
  {
    p.(checker := c.first.value.principalId, decidedAt := c.now, status := if c.approve then Approved else Rejected)
  }

  function CommittedBy(p: Proposal): Committed
  {
    Committed(p.snapshot, p.target.scope, p.id, p.maker, p.checker, p.decidedAt, None, None)
  }

  /** The revision and the history entry are written together, and history is never overwritten. */
  function PutRevision(l: Ledger, v: Committed): Option<Ledger>
  {
    var s := Slot(v.snapshot.trust.id, v.snapshot.approvedRevision);
    if s in l.history then None
    else Some(l.(history := l.history[s := v], trusts := l.trusts[s.id := v]))
  }

  /** The checks before the deciding transaction; an ACTIVE candidate needs its six receipts. */
  predicate DecisionAllowed(env: Env, p: Proposal, c: DecideCall)
  {
    && p.status == Pending && p.targetDigest == c.digest && A.Accepted(env.grammar, c.first)
    && c.first.value.principalId != p.maker && c.target == Some(c.digest) && c.digest == env.digest(p.snapshot)
    && (c.approve && p.snapshot.trust.status == Active ==> c.activated)
    && A.SameActor(env.grammar, c.first, c.second)
  }

  /** Commit an approved proposal as the next revision, if its predecessor is still current. */
  function AdvanceTo(l: Ledger, q: Proposal): Option<Ledger>
  {
    var t := q.snapshot.trust;
    if CurrentRevision(l, t.id) != q.previousRevision || CurrentSnapshot(l, t.id) != q.previousSnapshotId
       || (t.id in l.trusts && !TrustTransition(l.trusts[t.id].snapshot.trust, t)) then None
    else PutRevision(l, CommittedBy(q))
  }

  /** The deciding transaction: `q` replaces its pending proposal and, if approved, becomes the next revision. */
  function DecideCommit(l: Ledger, id: string, q: Proposal, until: Time, observed: Time, checked: Time): Option<Ledger>
  {
    if Behind(l, observed) || !(checked < until) || !(checked < q.snapshot.validUntil) || id !in l.proposals
       || l.proposals[id].status != Pending then None
    else if q.status != Approved then Some(l.(clock := Some(observed), proposals := l.proposals[id := q]))
    else
      match AdvanceTo(l, q)
      case None => None
      case Some(n) => Some(n.(clock := Some(observed), proposals := n.proposals[id := q]))
  }

  /** `p` is the proposal the call read before asking its authorities. */
  function Decide(env: Env, l: Ledger, p: Proposal, c: DecideCall): Option<Ledger>
  {
    if !DecisionAllowed(env, p, c) then None
    else DecideCommit(l, c.id, Decided(p, c), c.second.value.validUntil, c.observed, c.checked)
  }

  datatype ContainCall = ContainCall(id: string, revision: nat, status: Status, actor: Option<A.Actor>,
                                     now: Time, snapshotId: string, observed: Time, checked: Time)

  /** The contained revision built from what the call read; the counter is a 64-bit one. */
  function Contained(v: Committed, c: ContainCall): Committed
    requires c.actor.Some?
  {
    var revision := (v.snapshot.trust.revision + 1) % (MAX_REVISION + 1);
    var t := v.snapshot.trust.(revision := revision, status := c.status, updatedAt := c.now,
                               revokedAt := if c.status == Revoked then Some(c.now) else v.snapshot.trust.revokedAt);
    v.(snapshot := v.snapshot.(trust := t, approvedRevision := revision, snapshotId := c.snapshotId),
       containedBy := Some(c.actor.value.principalId), containedAt := Some(c.now))
  }

  predicate ContainmentAllowed(env: Env, v: Committed, c: ContainCall)
  {
    && (c.status == Suspended || c.status == Revoked) && Readable(env.grammar, c.id, v)
    && v.snapshot.approvedRevision == c.revision && v.snapshot.trust.status != Revoked
    && (c.status == Suspended ==> v.snapshot.trust.status == Active) && A.Accepted(env.grammar, c.actor)
    && TrustTransition(v.snapshot.trust, Contained(v, c).snapshot.trust)
    && ValidateTrust(env.grammar, Contained(v, c).snapshot.trust)
  }

  /** The containing transaction: `n` follows the revision and snapshot that were read, if still current. */
  function ContainCommit(l: Ledger, n: Committed, revision: nat, snapshotId: string, until: Time, observed: Time,
                         checked: Time): Option<Ledger>
  {
    var id := n.snapshot.trust.id;
    if Behind(l, observed) || !(checked < until) || id !in l.trusts
       || l.trusts[id].snapshot.approvedRevision != revision || l.trusts[id].snapshot.snapshotId != snapshotId then None
    else PutRevision(l.(clock := Some(observed)), n)
  }

  /** `v` is the committed revision the call read before asking its authority. */
  function Contain(env: Env, l: Ledger, v: Committed, c: ContainCall): Option<Ledger>
  {
    if !ContainmentAllowed(env, v, c) then None
    else ContainCommit(l, Contained(v, c), c.revision, v.snapshot.snapshotId, c.actor.value.validUntil, c.observed,
                       c.checked)
  }

  /** Reads raise the watermark too. */
  function Fence(l: Ledger, now: Time): Option<Ledger>
  {
    if Behind(l, now) then None else Some(l.(clock := Some(now)))
  }

  /* ---- What every transaction keeps ---- */

  type History = map<Slot, Committed>

  /** One history entry stands where its own snapshot says, was approved by two people, and follows its predecessor. */
  ghost predicate Linked(h: History, s: Slot)
    requires s in h
  {
    var v := h[s];
    && v.snapshot.trust.id == s.id && v.snapshot.trust.revision == s.revision == v.snapshot.approvedRevision
    && v.maker != v.checker
    && (if s.revision <= 1 then v.snapshot.trust.status == Requested && v.containedBy.None?
        else Slot(s.id, s.revision - 1) in h
             && TrustTransition(h[Slot(s.id, s.revision - 1)].snapshot.trust, v.snapshot.trust))
  }

  ghost predicate InRange(trusts: map<string, Committed>, h: History)
  {
    forall s :: s in h ==> s.id in trusts && 1 <= s.revision <= trusts[s.id].snapshot.trust.revision
  }

  ghost predicate AllLinked(h: History)
  {
    forall s {:trigger Linked(h, s)} :: s in h ==> Linked(h, s)
  }

  ghost predicate Heads(trusts: map<string, Committed>, h: History)
  {
    forall id :: id in trusts ==> IsHead(trusts[id], h, id)
  }

  ghost predicate Gapless(trusts: map<string, Committed>, h: History)
  {
    forall id, k :: id in trusts && 1 <= k <= trusts[id].snapshot.trust.revision ==> Slot(id, k) in h
  }

  /** Each trust's history is exactly revisions 1..n and the current pointer is entry n. */
  ghost predicate Chained(trusts: map<string, Committed>, h: History)
  {
    InRange(trusts, h) && AllLinked(h) && Heads(trusts, h) && Gapless(trusts, h)
  }

  ghost predicate IsHead(v: Committed, h: History, id: string)
  {
    var n := v.snapshot.trust.revision;
    n >= 1 && Slot(id, n) in h && h[Slot(id, n)] == v
  }

  function SlotOf(p: Proposal): Slot { Slot(p.snapshot.trust.id, p.snapshot.approvedRevision) }

  /** A proposal names its successor revision; a first proposal asks for REQUESTED revision 1. */
  predicate WellProposed(p: Proposal)
  {
    && p.snapshot.approvedRevision == p.snapshot.trust.revision == p.previousRevision + 1
    && (p.previousRevision == 0 ==> p.snapshot.trust.status == Requested)
  }

  /** `p` has its own entry in the history. */
  ghost predicate Entered(p: Proposal, h: History)
  {
    SlotOf(p) in h && h[SlotOf(p)] == CommittedBy(p)
  }

  /** A decided entry comes from an approved proposal for its slot; a containment only suspends or revokes. */
  ghost predicate Explained(s: Slot, v: Committed, proposals: map<string, Proposal>)
  {
    if v.containedBy.None? then
      v.proposalId in proposals && proposals[v.proposalId].status == Approved && SlotOf(proposals[v.proposalId]) == s
    else v.snapshot.trust.status == Suspended || v.snapshot.trust.status == Revoked
  }

  /** Approved proposals and uncontained history entries determine each other. */
  ghost predicate Accounted(proposals: map<string, Proposal>, h: History)
  {
    && (forall id :: id in proposals ==> proposals[id].id == id && WellProposed(proposals[id]))
    && (forall id :: id in proposals && proposals[id].status == Approved ==> Entered(proposals[id], h))
    && (forall s :: s in h ==> Explained(s, h[s], proposals))
  }

  ghost predicate Sound(l: Ledger) { Chained(l.trusts, l.history) && Accounted(l.proposals, l.history) }

  predicate Later(p: Proposal, q: Proposal)
  {
    && (q.status == p.status ==> q == p) && (p.status != Pending ==> q == p)
    && q == p.(checker := q.checker, decidedAt := q.decidedAt, status := q.status)
  }

  ghost predicate Grows(h: History, h': History)
  {
    forall s :: s in h ==> s in h' && h'[s] == h[s]
  }

  ghost predicate Advances(trusts: map<string, Committed>, ts: map<string, Committed>)
  {
    forall id :: id in trusts ==> id in ts && trusts[id].snapshot.trust.revision <= ts[id].snapshot.trust.revision
  }

  ghost predicate AllLater(proposals: map<string, Proposal>, ps: map<string, Proposal>)
  {
    forall id :: id in proposals ==> id in ps && Later(proposals[id], ps[id])
  }

  predicate ClockRuns(a: Option<Time>, b: Option<Time>) { a.Some? ==> b.Some? && a.value <= b.value }

  /** History and proposals only grow, a current revision and the watermark never go back, and a decision is final. */
  ghost predicate Extends(l: Ledger, m: Ledger)
  {
    Grows(l.history, m.history) && Advances(l.trusts, m.trusts) && AllLater(l.proposals, m.proposals)
    && ClockRuns(l.clock, m.clock)
  }

  lemma Unchanged(l: Ledger)
    ensures Grows(l.history, l.history) && Advances(l.trusts, l.trusts) && AllLater(l.proposals, l.proposals)
  {
  }

  lemma ExtendsTransitive(k: Ledger, l: Ledger, m: Ledger)
    requires Extends(k, l) && Extends(l, m)
    ensures Extends(k, m)
  {
    forall id | id in k.proposals ensures id in m.proposals && Later(k.proposals[id], m.proposals[id]) {
      assert Later(k.proposals[id], l.proposals[id]) && Later(l.proposals[id], m.proposals[id]);
    }
  }

  /** No ABA: a revision read in an earlier state and current again has been current all along. */
  lemma SameRevisionSameValue(l0: Ledger, l: Ledger, id: string)
    requires Sound(l0) && Sound(l) && Extends(l0, l) && id in l0.trusts && id in l.trusts
    requires l0.trusts[id].snapshot.approvedRevision == l.trusts[id].snapshot.approvedRevision
    ensures l0.trusts[id] == l.trusts[id]
  {
    var s0 := Slot(id, l0.trusts[id].snapshot.trust.revision);
    var s := Slot(id, l.trusts[id].snapshot.trust.revision);
    assert IsHead(l0.trusts[id], l0.history, id) && IsHead(l.trusts[id], l.history, id);
    assert Linked(l0.history, s0) && Linked(l.history, s);
  }

  lemma HeadRevision(l: Ledger, id: string)
    requires Sound(l) && id in l.trusts
    ensures l.trusts[id].snapshot.approvedRevision == l.trusts[id].snapshot.trust.revision
  {
    assert IsHead(l.trusts[id], l.history, id);
    assert Linked(l.history, Slot(id, l.trusts[id].snapshot.trust.revision));
  }

  /** `v` may follow whatever is current for its trust. */
  predicate Successor(trusts: map<string, Committed>, v: Committed)
  {
    var t := v.snapshot.trust;
    && v.snapshot.approvedRevision == t.revision && v.maker != v.checker
    && (if t.id in trusts then TrustTransition(trusts[t.id].snapshot.trust, t)
        else t.revision == 1 && t.status == Requested && v.containedBy.None?)
  }

  lemma SuccessorIsNew(trusts: map<string, Committed>, h: History, v: Committed)
    requires Chained(trusts, h) && Successor(trusts, v)
    ensures Slot(v.snapshot.trust.id, v.snapshot.trust.revision) !in h
  {
  }

  lemma AppendKeepsLinks(trusts: map<string, Committed>, h: History, v: Committed, s: Slot)
    requires Chained(trusts, h) && Successor(trusts, v) && s == Slot(v.snapshot.trust.id, v.snapshot.trust.revision)
    ensures AllLinked(h[s := v])
  {
    var h' := h[s := v];
    SuccessorIsNew(trusts, h, v);
    if s.id in trusts { assert IsHead(trusts[s.id], h, s.id); }
    forall x | x in h' ensures Linked(h', x) {
      if x != s { assert Linked(h, x); }
    }
  }

  lemma AppendKeepsRange(trusts: map<string, Committed>, h: History, v: Committed, s: Slot)
    requires Chained(trusts, h) && Successor(trusts, v) && s == Slot(v.snapshot.trust.id, v.snapshot.trust.revision)
    ensures InRange(trusts[s.id := v], h[s := v]) && Heads(trusts[s.id := v], h[s := v])
    ensures Gapless(trusts[s.id := v], h[s := v])
  {
    SuccessorIsNew(trusts, h, v);
    var ts, h' := trusts[s.id := v], h[s := v];
    forall i | i in ts ensures IsHead(ts[i], h', i) {
      if i != s.id { assert IsHead(trusts[i], h, i); }
    }
    forall i, k | i in ts && 1 <= k <= ts[i].snapshot.trust.revision ensures Slot(i, k) in h' {
      if Slot(i, k) != s { assert i in trusts && k <= trusts[i].snapshot.trust.revision; }
    }
  }

  /** Appending the successor of the current revision keeps the chain. */
  lemma AppendKeepsChain(trusts: map<string, Committed>, h: History, v: Committed)
    requires Chained(trusts, h) && Successor(trusts, v)
    ensures var s := Slot(v.snapshot.trust.id, v.snapshot.trust.revision);
            s !in h && Chained(trusts[s.id := v], h[s := v])
  {
    var s := Slot(v.snapshot.trust.id, v.snapshot.trust.revision);
    SuccessorIsNew(trusts, h, v);
    AppendKeepsLinks(trusts, h, v, s);
    AppendKeepsRange(trusts, h, v, s);
  }

  lemma ProposeKeeps(env: Env, l: Ledger, previous: Option<Committed>, c: ProposeCall)
    requires Sound(l) && Propose(env, l, previous, c).Some?
    ensures Sound(Propose(env, l, previous, c).value) && Extends(l, Propose(env, l, previous, c).value)
  {
    var m := Propose(env, l, previous, c).value;
    NewProposalAccounted(l.proposals, l.history, m.proposals[c.id]);
    Unchanged(l);
  }

  lemma NewProposalAccounted(proposals: map<string, Proposal>, h: History, p: Proposal)
    requires Accounted(proposals, h) && p.id !in proposals && WellProposed(p) && p.status == Pending
    ensures Accounted(proposals[p.id := p], h)
  {
    forall s | s in h ensures Explained(s, h[s], proposals[p.id := p]) { assert Explained(s, h[s], proposals); }
  }

  /** Writing a first decision `q`; an approval also enters it in the history. */
  lemma DecisionAccounted(proposals: map<string, Proposal>, h: History, p: Proposal, q: Proposal)
    requires Accounted(proposals, h) && p.id in proposals && proposals[p.id] == p && p.status == Pending
    requires Later(p, q) && q.status != Pending
    requires q.status == Approved ==> SlotOf(q) !in h
    ensures Accounted(proposals[p.id := q], if q.status == Approved then h[SlotOf(q) := CommittedBy(q)] else h)
  {
    var ps := proposals[p.id := q];
    var h' := if q.status == Approved then h[SlotOf(q) := CommittedBy(q)] else h;
    forall s | s in h' ensures Explained(s, h'[s], ps) {
      if s in h { assert Explained(s, h[s], proposals); }
    }
    forall id | id in ps && ps[id].status == Approved ensures Entered(ps[id], h') {
      if id != p.id { assert Entered(proposals[id], h); }
    }
  }

  /** What a decision changes. */
  lemma DecideEffect(env: Env, l: Ledger, p: Proposal, c: DecideCall, q: Proposal, m: Ledger)
    requires Decide(env, l, p, c) == Some(m) && q == Decided(p, c)
    ensures p.status == Pending && c.id in l.proposals && l.proposals[c.id].status == Pending
    ensures Later(p, q) && q.maker != q.checker && q.status == (if c.approve then Approved else Rejected)
    ensures m.proposals == l.proposals[c.id := q] && ClockRuns(l.clock, m.clock)
    ensures !c.approve ==> m.trusts == l.trusts && m.history == l.history
    ensures c.approve ==>
              && CurrentRevision(l, p.snapshot.trust.id) == p.previousRevision
              && (p.snapshot.trust.id in l.trusts ==>
                    TrustTransition(l.trusts[p.snapshot.trust.id].snapshot.trust, p.snapshot.trust))
              && m.trusts == l.trusts[p.snapshot.trust.id := CommittedBy(q)]
              && m.history == l.history[SlotOf(p) := CommittedBy(q)]
  {
  }

  lemma ApprovalKeeps(l: Ledger, p: Proposal, q: Proposal, m: Ledger)
    requires Sound(l) && p.id in l.proposals && l.proposals[p.id] == p && p.status == Pending
    requires Later(p, q) && q.maker != q.checker && q.status == Approved
    requires CurrentRevision(l, p.snapshot.trust.id) == p.previousRevision
    requires p.snapshot.trust.id in l.trusts ==>
               TrustTransition(l.trusts[p.snapshot.trust.id].snapshot.trust, p.snapshot.trust)
    requires m.trusts == l.trusts[p.snapshot.trust.id := CommittedBy(q)]
    requires m.history == l.history[SlotOf(p) := CommittedBy(q)] && m.proposals == l.proposals[p.id := q]
    requires ClockRuns(l.clock, m.clock)
    ensures Sound(m) && Extends(l, m)
  {
    assert WellProposed(p);
    assert Successor(l.trusts, CommittedBy(q));
    AppendKeepsChain(l.trusts, l.history, CommittedBy(q));
    AppendExtends(l, CommittedBy(q), m);
    DecisionAccounted(l.proposals, l.history, p, q);
    Unchanged(l);
  }

  /** A decision on a proposal read in an earlier state acts on exactly what it read. */
  lemma DecideKeeps(env: Env, l0: Ledger, l: Ledger, c: DecideCall)
    requires Sound(l) && Extends(l0, l) && c.id in l0.proposals && Decide(env, l, l0.proposals[c.id], c).Some?
    ensures l.proposals[c.id] == l0.proposals[c.id]
    ensures Sound(Decide(env, l, l0.proposals[c.id], c).value)
            && Extends(l, Decide(env, l, l0.proposals[c.id], c).value)
  {
    var p := l0.proposals[c.id];
    var q, m := Decided(p, c), Decide(env, l, p, c).value;
    DecideEffect(env, l, p, c, q, m);
    assert Later(p, l.proposals[c.id]);
    if c.approve {
      ApprovalKeeps(l, p, q, m);
    } else {
      DecisionAccounted(l.proposals, l.history, p, q);
      Unchanged(l);
    }
  }

  lemma AppendExtends(l: Ledger, v: Committed, m: Ledger)
    requires Chained(l.trusts, l.history) && Successor(l.trusts, v)
    requires m.trusts == l.trusts[v.snapshot.trust.id := v]
    requires m.history == l.history[Slot(v.snapshot.trust.id, v.snapshot.trust.revision) := v]
    ensures Grows(l.history, m.history) && Advances(l.trusts, m.trusts)
  {
    SuccessorIsNew(l.trusts, l.history, v);
  }

  /** What a containment changes. */
  lemma ContainEffect(env: Env, l: Ledger, v: Committed, c: ContainCall, n: Committed, m: Ledger)
    requires Contain(env, l, v, c) == Some(m) && n == Contained(v, c)
    ensures c.id in l.trusts && l.trusts[c.id].snapshot.approvedRevision == v.snapshot.approvedRevision
    ensures v.snapshot.trust.id == c.id && TrustTransition(v.snapshot.trust, n.snapshot.trust)
    ensures n.maker == v.maker && n.checker == v.checker && v.maker != v.checker && n.containedBy.Some?
    ensures n.snapshot.approvedRevision == n.snapshot.trust.revision
    ensures n.snapshot.trust.status == Suspended || n.snapshot.trust.status == Revoked
    ensures m.trusts == l.trusts[c.id := n] && m.proposals == l.proposals && ClockRuns(l.clock, m.clock)
    ensures m.history == l.history[Slot(c.id, n.snapshot.trust.revision) := n]
  {
  }

  lemma ContainmentKeeps(l: Ledger, n: Committed, m: Ledger)
    requires Sound(l) && Successor(l.trusts, n) && n.containedBy.Some?
    requires n.snapshot.trust.status == Suspended || n.snapshot.trust.status == Revoked
    requires m.trusts == l.trusts[n.snapshot.trust.id := n] && m.proposals == l.proposals && ClockRuns(l.clock, m.clock)
    requires m.history == l.history[Slot(n.snapshot.trust.id, n.snapshot.trust.revision) := n]
    ensures Sound(m) && Extends(l, m)
  {
    AppendKeepsChain(l.trusts, l.history, n);
    AppendExtends(l, n, m);
    ContainmentAccounted(l.proposals, l.history, n);
    Unchanged(l);
  }

  /** Containment appends to the very revision it read, whatever happened in between. */
  lemma ContainKeeps(env: Env, l0: Ledger, l: Ledger, c: ContainCall)
    requires Sound(l0) && Sound(l) && Extends(l0, l) && c.id in l0.trusts && Contain(env, l, l0.trusts[c.id], c).Some?
    ensures l.trusts[c.id] == l0.trusts[c.id]
    ensures Sound(Contain(env, l, l0.trusts[c.id], c).value) && Extends(l, Contain(env, l, l0.trusts[c.id], c).value)
  {
    var v := l0.trusts[c.id];
    var n, m := Contained(v, c), Contain(env, l, v, c).value;
    ContainEffect(env, l, v, c, n, m);
    SameRevisionSameValue(l0, l, c.id);
    ContainmentKeeps(l, n, m);
  }

  lemma ContainmentAccounted(proposals: map<string, Proposal>, h: History, n: Committed)
    requires Accounted(proposals, h) && n.containedBy.Some?
    requires n.snapshot.trust.status == Suspended || n.snapshot.trust.status == Revoked
    requires Slot(n.snapshot.trust.id, n.snapshot.approvedRevision) !in h
    ensures Accounted(proposals, h[Slot(n.snapshot.trust.id, n.snapshot.approvedRevision) := n])
  {
    forall id | id in proposals && proposals[id].status == Approved
      ensures Entered(proposals[id], h[Slot(n.snapshot.trust.id, n.snapshot.approvedRevision) := n])
    {
      assert Entered(proposals[id], h);
    }
  }

  /* ---- Consequences ---- */

  /** An ACTIVE entry directly follows a VERIFYING one and was committed by an approved two-person proposal. */
  lemma ActiveFollowsVerifying(l: Ledger, s: Slot)
    requires Sound(l) && s in l.history && l.history[s].snapshot.trust.status == Active
    ensures s.revision > 1 && Slot(s.id, s.revision - 1) in l.history
    ensures l.history[Slot(s.id, s.revision - 1)].snapshot.trust.status == Verifying
    ensures l.history[s].proposalId in l.proposals
    ensures var p := l.proposals[l.history[s].proposalId];
            p.status == Approved && p.maker != p.checker && p.snapshot == l.history[s].snapshot
  {
    assert Linked(l.history, s) && Explained(s, l.history[s], l.proposals);
    assert Entered(l.proposals[l.history[s].proposalId], l.history);
  }

  /** The facts fixed at creation are the same in every revision of a trust. */
  predicate SameIdentity(a: Trust, b: Trust)
  {
    && a.organisationIds == b.organisationIds && a.estateIds == b.estateIds
    && a.binding.providerId == b.binding.providerId && a.binding.engineInstanceId == b.binding.engineInstanceId
    && a.id == b.id && a.protocol == b.protocol && a.upstreamIssuer == b.upstreamIssuer && a.createdAt == b.createdAt
  }

  lemma {:induction false} IdentityNeverChanges(l: Ledger, id: string, j: nat, k: nat)
    requires Sound(l) && 1 <= j <= k && Slot(id, k) in l.history
    ensures Slot(id, j) in l.history
    ensures SameIdentity(l.history[Slot(id, j)].snapshot.trust, l.history[Slot(id, k)].snapshot.trust)
    ensures j < k ==> l.history[Slot(id, j)].snapshot.trust.status != Revoked
    ensures l.history[Slot(id, j)].snapshot.trust.updatedAt <= l.history[Slot(id, k)].snapshot.trust.updatedAt
    decreases k - j
  {
    if j < k {
      assert Linked(l.history, Slot(id, k));
      IdentityNeverChanges(l, id, j, k - 1);
    }
  }

  /** Of all proposals made against the same predecessor at most one is ever approved. */
  lemma OneApprovalPerPredecessor(l: Ledger, a: string, b: string)
    requires Sound(l) && a in l.proposals && b in l.proposals
    requires l.proposals[a].status == Approved && l.proposals[b].status == Approved
    requires l.proposals[a].snapshot.trust.id == l.proposals[b].snapshot.trust.id
    requires l.proposals[a].previousRevision == l.proposals[b].previousRevision
    ensures a == b
  {
    assert WellProposed(l.proposals[a]) && WellProposed(l.proposals[b]);
    assert Entered(l.proposals[a], l.history) && Entered(l.proposals[b], l.history);
  }

  ghost function ApprovedIds(l: Ledger): set<string>
  {
    set id | id in l.proposals && l.proposals[id].status == Approved
  }

  ghost function ContainedSlots(l: Ledger): set<Slot>
  {
    set s | s in l.history && l.history[s].containedBy.Some?
  }

  lemma DecidedSlotCount(l: Ledger, decided: set<Slot>)
    requires Accounted(l.proposals, l.history) && decided == l.history.Keys - ContainedSlots(l)
    ensures |decided| == |ApprovedIds(l)|
  {
    var f := map s | s in decided :: l.history[s].proposalId;
    forall s | s in decided ensures f[s] in ApprovedIds(l) && SlotOf(l.proposals[f[s]]) == s {
      assert Explained(s, l.history[s], l.proposals);
    }
    forall id | id in ApprovedIds(l) ensures id in f.Values {
      assert Entered(l.proposals[id], l.history);
      assert f[SlotOf(l.proposals[id])] == id;
    }
    A.SameSize(decided, ApprovedIds(l), f);
  }

  /** Conservation: every history entry is one approved proposal or one containment, and nothing else. */
  lemma HistoryIsApprovalsPlusContainments(l: Ledger)
    requires Sound(l)
    ensures |l.history| == |ApprovedIds(l)| + |ContainedSlots(l)|
  {
    DecidedSlotCount(l, l.history.Keys - ContainedSlots(l));
    SplitSize(l.history.Keys, ContainedSlots(l));
  }

  lemma SplitSize<T>(all: set<T>, part: set<T>)
    requires part <= all
    ensures |all| == |all - part| + |part|
  {
    assert all == (all - part) + part;
  }
}
