/** The four-eyes approval ledger: write-once receipts and terminal revocation. */
module Approvals {
  import opened Storage
  import opened Models

  datatype Kind = FederationConfiguration | FederationTrustMaterial | AssurancePolicy | AttributeMapping
    | ProvisioningPolicy | FederationActivation | RuntimeProfile | RuntimeSupport | SecurityDomain
    | AssuranceMappingDecision | CanonicalIdentityMapping | UnknownKind

  datatype Expectation = Expectation(
    id: string, kind: Kind, trustId: string, snapshotId: string, trustRevision: nat, providerId: string,
    engineInstanceId: string, scope: Scope, eventId: string, issuer: string, subject: string, level: string,
    evidenceDigest: string, principalId: string, externalIdentityId: string)

  datatype Receipt = Receipt(expectation: Expectation, approved: bool, nonSecret: bool, validFrom: Time,
                             expiresAt: Time)

  datatype ProposalStatus = Pending | Approved | Rejected | Revoked

  datatype Proposal = Proposal(
    id: string, receipt: Receipt, targetDigest: string, maker: string, checker: string, status: ProposalStatus,
    proposedAt: Time, decidedAt: Time, revoker: string, revokedAt: Option<Time>)

  /** One bucket holds the proposals and, under the hash of its expectation, each receipt's proposal ID. */
  datatype Ledger = Ledger(proposals: map<string, Proposal>, receipts: map<Expectation, string>)

  /** An answer of the approval authority, and when it was checked. */
  datatype Actor = Actor(principalId: string, validUntil: Time, checkedAt: Time)

  predicate Accepted(g: Grammar, a: Option<Actor>)
  {
    a.Some? && g.uuid(a.value.principalId) && a.value.checkedAt < a.value.validUntil
  }

  /** The same principal is authorised before and after the target was resolved. */
  predicate SameActor(g: Grammar, first: Option<Actor>, second: Option<Actor>)
  {
    Accepted(g, first) && Accepted(g, second) && first.value.principalId == second.value.principalId
  }

  predicate NoEventFields(w: Expectation)
  {
    w.eventId == "" && w.issuer == "" && w.subject == "" && w.level == "" && w.evidenceDigest == ""
    && w.principalId == "" && w.externalIdentityId == ""
  }

  predicate ValidExpectation(g: Grammar, w: Expectation)
  {
    && g.reference(w.id) && g.uuid(w.trustId) && g.snapshotId(w.snapshotId) && w.trustRevision >= 1
    && g.organisation(w.scope.organisationId) && g.estate(w.scope.estateId)
    && g.provider(w.providerId) && g.engine(w.engineInstanceId)
    && match w.kind
       case AssuranceMappingDecision =>
         w.issuer != "" && |w.issuer| <= 2048 && g.uuid(w.eventId) && g.exact(w.subject)
         && (w.level == "BAOBAB-A1" || w.level == "BAOBAB-A2" || w.level == "BAOBAB-A3")
         && g.digest(w.evidenceDigest) && w.principalId == "" && w.externalIdentityId == ""
       case CanonicalIdentityMapping =>
         w.issuer != "" && |w.issuer| <= 2048 && g.exact(w.subject) && g.uuid(w.principalId)
         && g.uuid(w.externalIdentityId) && w.eventId == "" && w.level == "" && w.evidenceDigest == ""
       case UnknownKind => false
       case _ => NoEventFields(w)
  }

  datatype ProposeCall = ProposeCall(id: string, receipt: Receipt, first: Option<Actor>, digest: Option<string>,
                                     second: Option<Actor>, now: Time, checked: Time)

  function Propose(g: Grammar, l: Ledger, c: ProposeCall): Option<Ledger>
  {
    if !g.uuid(c.id) || !ValidExpectation(g, c.receipt.expectation) || !c.receipt.approved || !c.receipt.nonSecret
       || !SameActor(g, c.first, c.second) || c.digest.None? || !g.digest(c.digest.value)
       || !Fresh(c.receipt.validFrom, c.receipt.expiresAt, c.now) || !(c.now < c.second.value.validUntil)
       || !(c.checked < c.second.value.validUntil) || !(c.checked < c.receipt.expiresAt)
       || c.id in l.proposals
    then None
    else
      Some(l.(proposals := l.proposals[c.id :=
        Proposal(c.id, c.receipt, c.digest.value, c.second.value.principalId, "", Pending, c.now, 0, "", None)]))
  }

  datatype DecideCall = DecideCall(id: string, digest: string, approve: bool, first: Option<Actor>,
                                   target: Option<string>, second: Option<Actor>, now: Time, checked: Time)

  function Decided(p: Proposal, c: DecideCall): Proposal
    requires c.second.Some?
  {
    p.(checker := c.second.value.principalId, decidedAt := c.now, status := if c.approve then Approved else Rejected)
  }

  /** Compare-and-swap of the proposal `p` that the call read earlier. */
  function Decide(g: Grammar, l: Ledger, p: Proposal, c: DecideCall): Option<Ledger>
  {
    if p.status != Pending || c.digest != p.targetDigest || !Accepted(g, c.first)
       || c.first.value.principalId == p.maker
       || c.target.None? || !g.digest(c.target.value) || c.target.value != c.digest || !SameActor(g, c.first, c.second)
       || !(c.checked < c.second.value.validUntil) || !Fresh(p.receipt.validFrom, p.receipt.expiresAt, c.checked)
       || c.id !in l.proposals || l.proposals[c.id].status != Pending || l.proposals[c.id].targetDigest != c.digest
       || (c.approve && p.receipt.expectation in l.receipts)
    then None
    else
      Some(Ledger(l.proposals[c.id := Decided(p, c)],
                  if c.approve then l.receipts[p.receipt.expectation := c.id] else l.receipts))
  }

  datatype RevokeCall = RevokeCall(id: string, actor: Option<Actor>, checked: Time, now: Time)

  function Revoke(g: Grammar, l: Ledger, c: RevokeCall): Option<Ledger>
  {
    if !Accepted(g, c.actor) || !(c.checked < c.actor.value.validUntil)
       || c.id !in l.proposals || l.proposals[c.id].status != Approved
    then None
    else Some(l.(proposals := l.proposals[c.id :=
           l.proposals[c.id].(status := ProposalStatus.Revoked, revokedAt := Some(c.now),
                              revoker := c.actor.value.principalId)]))
  }

  /** What the live target authority answers a use of a receipt, and the two clock readings. */
  datatype Use = Use(now: Time, digest: Option<string>, again: Time)

  /** Reference reads the receipt key, then the proposal, asks the target, and reads the proposal again. */
  function Reference(g: Grammar, keyRead: Ledger, firstRead: Ledger, secondRead: Ledger, want: Expectation,
                     u: Use): Option<Receipt>
  {
    if !ValidExpectation(g, want) || want !in keyRead.receipts then None
    else
      var id := keyRead.receipts[want];
      if !g.uuid(id) || id !in firstRead.proposals || id !in secondRead.proposals then None
      else
        var p := firstRead.proposals[id];
        if p.status != Approved || p.maker == p.checker || p.receipt.expectation != want
           || !Fresh(p.receipt.validFrom, p.receipt.expiresAt, u.now)
           || u.digest.None? || !g.digest(u.digest.value) || u.digest.value != p.targetDigest
           || secondRead.proposals[id].status != Approved || !Fresh(p.receipt.validFrom, p.receipt.expiresAt, u.again)
        then None
        else Some(p.receipt)
  }

  /* ---- What every transaction keeps ---- */

  predicate EverApproved(p: Proposal) { p.status == Approved || p.status == ProposalStatus.Revoked }

  /** Receipt keys and ever-approved proposals point at each other; no proposal was decided by its maker. */
  ghost predicate Sound(l: Ledger)
  {
    && (forall id :: id in l.proposals ==> l.proposals[id].id == id)
    && (forall w :: w in l.receipts ==>
          && l.receipts[w] in l.proposals && EverApproved(l.proposals[l.receipts[w]])
          && l.proposals[l.receipts[w]].receipt.expectation == w)
    && (forall id :: id in l.proposals && EverApproved(l.proposals[id]) ==>
          && l.proposals[id].receipt.expectation in l.receipts
          && l.receipts[l.proposals[id].receipt.expectation] == id)
    && (forall id :: id in l.proposals && l.proposals[id].status != Pending ==>
          l.proposals[id].maker != l.proposals[id].checker)
  }

  /** The life of one proposal: decided once, revoked once, and otherwise unchanged. */
  predicate Later(p: Proposal, q: Proposal)
  {
    && (q.status == p.status || (p.status == Pending && q.status != Pending)
        || (p.status == Approved && q.status == ProposalStatus.Revoked))
    && (q.status == p.status ==> q == p)
    && q.id == p.id && q.receipt == p.receipt && q.targetDigest == p.targetDigest && q.maker == p.maker
    && (p.status != Pending ==> q.checker == p.checker && q.decidedAt == p.decidedAt)
  }

  ghost predicate Extends(l: Ledger, m: Ledger)
  {
    && (forall id :: id in l.proposals ==> id in m.proposals && Later(l.proposals[id], m.proposals[id]))
    && (forall w :: w in l.receipts ==> w in m.receipts && m.receipts[w] == l.receipts[w])
  }

  lemma ExtendsTransitive(k: Ledger, l: Ledger, m: Ledger)
    requires Extends(k, l) && Extends(l, m)
    ensures Extends(k, m)
  {
    forall id | id in k.proposals ensures id in m.proposals && Later(k.proposals[id], m.proposals[id]) {
      assert Later(k.proposals[id], l.proposals[id]) && Later(l.proposals[id], m.proposals[id]);
    }
  }

  lemma ProposeKeeps(g: Grammar, l: Ledger, c: ProposeCall)
    requires Sound(l) && Propose(g, l, c).Some?
    ensures Sound(Propose(g, l, c).value) && Extends(l, Propose(g, l, c).value)
  {
  }

  /** Writing a first decision `q` over a pending proposal, with its receipt key if approved. */
  lemma DecisionKeeps(l: Ledger, q: Proposal, m: Ledger)
    requires Sound(l) && q.id in l.proposals && l.proposals[q.id].status == Pending
    requires Later(l.proposals[q.id], q) && (q.status == Approved || q.status == Rejected) && q.maker != q.checker
    requires q.status == Approved ==> q.receipt.expectation !in l.receipts
    requires m.proposals == l.proposals[q.id := q]
    requires m.receipts == if q.status == Approved then l.receipts[q.receipt.expectation := q.id] else l.receipts
    ensures Sound(m) && Extends(l, m)
  {
    forall w | w in m.receipts
      ensures m.receipts[w] in m.proposals && EverApproved(m.proposals[m.receipts[w]])
           && m.proposals[m.receipts[w]].receipt.expectation == w
    {
      if w in l.receipts { assert l.receipts[w] != q.id; }
    }
    forall id | id in m.proposals && EverApproved(m.proposals[id])
      ensures m.proposals[id].receipt.expectation in m.receipts && m.receipts[m.proposals[id].receipt.expectation] == id
    {
    }
  }

  /** A decision on a proposal read in an earlier state overwrites exactly what it read. */
  lemma DecideKeeps(g: Grammar, l0: Ledger, l: Ledger, c: DecideCall)
    requires Sound(l) && Extends(l0, l) && c.id in l0.proposals
    requires Decide(g, l, l0.proposals[c.id], c).Some?
    ensures l.proposals[c.id] == l0.proposals[c.id]
    ensures Sound(Decide(g, l, l0.proposals[c.id], c).value) && Extends(l, Decide(g, l, l0.proposals[c.id], c).value)
  {
    var p := l0.proposals[c.id];
    assert Later(p, l.proposals[c.id]);
    assert p.id == c.id;
    DecisionKeeps(l, Decided(p, c), Decide(g, l, p, c).value);
  }

  lemma RevokeKeeps(g: Grammar, l: Ledger, c: RevokeCall)
    requires Sound(l) && Revoke(g, l, c).Some?
    ensures Sound(Revoke(g, l, c).value) && Extends(l, Revoke(g, l, c).value)
  {
  }

  lemma {:induction false} SameSize<X, Y>(a: set<X>, b: set<Y>, f: map<X, Y>)
    requires f.Keys == a && f.Values == b
    requires forall x, y :: x in a && y in a && f[x] == f[y] ==> x == y
    ensures |a| == |b|
    decreases |a|
  {
    if a != {} {
      var x :| x in a;
      var rest := f - {x};
      assert rest.Values == b - {f[x]} by {
        forall y | y in b - {f[x]} ensures y in rest.Values {
          var z :| z in f && f[z] == y;
          assert rest[z] == y;
        }
        forall y | y in rest.Values ensures y in b - {f[x]} { }
      }
      SameSize(a - {x}, b - {f[x]}, rest);
    } else {
      assert b == {};
    }
  }

  /** Receipts are write-once: there are exactly as many keys as proposals that were ever approved. */
  lemma ReceiptCount(l: Ledger)
    requires Sound(l)
    ensures |l.receipts| == |set id | id in l.proposals && EverApproved(l.proposals[id])|
  {
    var approved := set id | id in l.proposals && EverApproved(l.proposals[id]);
    assert l.receipts.Values == approved by {
      forall id | id in approved ensures id in l.receipts.Values {
        assert l.receipts[l.proposals[id].receipt.expectation] == id;
      }
    }
    SameSize(l.receipts.Keys, approved, l.receipts);
  }

  /** A receipt handed out was approved by two people and still stood at the second read. */
  lemma ReferenceWasApproved(g: Grammar, k: Ledger, l: Ledger, m: Ledger, want: Expectation, u: Use)
    requires Sound(k) && Sound(m) && Extends(k, l) && Extends(l, m)
    requires Reference(g, k, l, m, want, u).Some?
    ensures want in m.receipts && m.receipts[want] in m.proposals
    ensures var p := m.proposals[m.receipts[want]];
            && p.status == Approved && p.maker != p.checker && p.receipt.expectation == want
            && Reference(g, k, l, m, want, u).value == p.receipt
  {
    var id := k.receipts[want];
    assert Later(k.proposals[id], l.proposals[id]) && Later(l.proposals[id], m.proposals[id]);
  }

  /** Once the proposal behind a receipt is revoked, no later use of that receipt succeeds. */
  lemma RevokedReceiptIsDead(g: Grammar, l: Ledger, k: Ledger, m: Ledger, n: Ledger, want: Expectation, u: Use)
    requires Sound(l) && want in l.receipts && l.proposals[l.receipts[want]].status == ProposalStatus.Revoked
    requires Extends(l, k) && Extends(l, m)
    ensures Reference(g, k, m, n, want, u).None?
  {
    var id := l.receipts[want];
    assert Later(l.proposals[id], m.proposals[id]);
  }
}
