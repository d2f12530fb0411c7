/**
 * The two governance ledgers over their storage buckets; each method is one call's committing transaction.
 * A ghost ledger says what the buckets mean, and every method keeps it sound.
 */
module GovernanceService {
  import opened KeyOrder
  import opened Storage
  import opened Models
  import opened GovernanceKeys

  /** The approvals bucket holds two kinds of records. */
  datatype Row = ProposalRow(proposal: A.Proposal) | ReceiptRow(id: string)

  ghost predicate HoldsProposals(rows: map<Key, Row>, proposals: map<string, A.Proposal>)
  {
    && (forall id :: ProposalKey(id) in rows <==> id in proposals)
    && (forall id :: id in proposals ==> rows[ProposalKey(id)] == ProposalRow(proposals[id]))
  }

  ghost predicate HoldsReceipts(rows: map<Key, Row>, hash: A.Expectation -> string,
                                receipts: map<A.Expectation, string>)
  {
    && (forall w :: ReceiptKey(hash, w) in rows <==> w in receipts)
    && (forall w :: w in receipts ==> rows[ReceiptKey(hash, w)] == ReceiptRow(receipts[w]))
  }

  /** The rows are exactly the ledger's proposals and receipts, under their keys. */
  ghost predicate Holds(rows: map<Key, Row>, hash: A.Expectation -> string, l: A.Ledger)
  {
    HoldsProposals(rows, l.proposals) && HoldsReceipts(rows, hash, l.receipts)
  }

  lemma ProposalStored(rows: map<Key, Row>, hash: A.Expectation -> string, l: A.Ledger, id: string, p: A.Proposal)
    requires Holds(rows, hash, l)
    ensures Holds(rows[ProposalKey(id) := ProposalRow(p)], hash, l.(proposals := l.proposals[id := p]))
  {
    forall x ensures ProposalKey(x) == ProposalKey(id) ==> x == id { SameProposal(x, id); }
    forall w ensures ReceiptKey(hash, w) != ProposalKey(id) { KindsApart(hash, id, w); }
  }

  lemma ReceiptsGrow(rows: map<Key, Row>, hash: A.Expectation -> string, receipts: map<A.Expectation, string>,
                     want: A.Expectation, id: string)
    requires HoldsReceipts(rows, hash, receipts) && Injective(hash)
    ensures HoldsReceipts(rows[ReceiptKey(hash, want) := ReceiptRow(id)], hash, receipts[want := id])
  {
    forall w ensures ReceiptKey(hash, w) == ReceiptKey(hash, want) ==> w == want { SameReceipt(hash, w, want); }
  }

  lemma ReceiptStored(rows: map<Key, Row>, hash: A.Expectation -> string, l: A.Ledger, want: A.Expectation, id: string)
    requires Holds(rows, hash, l) && Injective(hash)
    ensures Holds(rows[ReceiptKey(hash, want) := ReceiptRow(id)], hash, l.(receipts := l.receipts[want := id]))
  {
    ReceiptsGrow(rows, hash, l.receipts, want, id);
    forall x ensures ReceiptKey(hash, want) != ProposalKey(x) { KindsApart(hash, x, want); }
  }

  class ApprovalLedger {
    const grammar: Grammar
    const hash: A.Expectation -> string
    const bucket: Bucket<Row>
    ghost var ledger: A.Ledger

    ghost predicate Stored()
      reads this, bucket
    {
      bucket.Valid() && Injective(hash) && Holds(bucket.Contents(), hash, ledger)
    }

    /** The bucket holds a sound ledger: write-once receipts of proposals approved by two people. */
    ghost predicate Valid()
      reads this, bucket
    {
      Stored() && A.Sound(ledger)
    }

    constructor (g: Grammar, h: A.Expectation -> string)
      requires Injective(h)
      ensures Valid() && grammar == g && hash == h && fresh(bucket) && ledger == A.Ledger(map[], map[])
    {
      grammar, hash := g, h;
      bucket := new Bucket();
      ledger := A.Ledger(map[], map[]);
    }

    /** The read before a decision or a revocation. */
    method Proposal(id: string) returns (p: Option<A.Proposal>)
      requires Stored()
      ensures p == Find(ledger.proposals, id)
    {
      var row := bucket.Get(ProposalKey(id));
      if row.None? { return None; }
      match row.value
      case ProposalRow(q) => p := Some(q);
      case ReceiptRow(_) => assert false;
    }

    method PutProposal(id: string, p: A.Proposal)
      requires Stored()
      modifies this, bucket
      ensures Stored() && ledger == old(ledger).(proposals := old(ledger).proposals[id := p])
    {
      ProposalStored(bucket.Contents(), hash, ledger, id, p);
      var _ := bucket.Put(ProposalKey(id), ProposalRow(p));
      ledger := ledger.(proposals := ledger.proposals[id := p]);
    }

    /** Claims the receipt key of an expectation, unless it has been claimed before. */
    method ClaimReceipt(want: A.Expectation, id: string) returns (ok: bool)
      requires Stored()
      modifies this, bucket
      ensures Stored() && (ok <==> want !in old(ledger).receipts)
      ensures ledger == if ok then old(ledger).(receipts := old(ledger).receipts[want := id]) else old(ledger)
    {
      var row := bucket.Get(ReceiptKey(hash, want));
      ok := row.None?;
      if ok {
        ReceiptStored(bucket.Contents(), hash, ledger, want, id);
        var _ := bucket.Put(ReceiptKey(hash, want), ReceiptRow(id));
        ledger := ledger.(receipts := ledger.receipts[want := id]);
      }
    }

    method Propose(c: A.ProposeCall) returns (ok: bool)
      requires Valid()
      modifies this, bucket
      ensures Valid() && A.Extends(old(ledger), ledger) && (!ok ==> ledger == old(ledger))
      ensures ok <==> A.Propose(grammar, old(ledger), c).Some?
      ensures ok ==> Some(ledger) == A.Propose(grammar, old(ledger), c)
    {
      if !grammar.uuid(c.id) || !A.ValidExpectation(grammar, c.receipt.expectation) || !c.receipt.approved
         || !c.receipt.nonSecret { return false; }
      if !A.SameActor(grammar, c.first, c.second) || c.digest.None? || !grammar.digest(c.digest.value) { return false; }
      if !Fresh(c.receipt.validFrom, c.receipt.expiresAt, c.now) || !(c.now < c.second.value.validUntil) {
        return false;
      }
      var prior := Proposal(c.id);
      if !(c.checked < c.second.value.validUntil) || !(c.checked < c.receipt.expiresAt) || prior.Some? { return false; }
      A.ProposeKeeps(grammar, ledger, c);
      PutProposal(c.id, A.Proposal(c.id, c.receipt, c.digest.value, c.second.value.principalId, "",
                                   A.Pending, c.now, 0, "", None));
      ok := true;
    }

    /** `p` is the proposal read from an earlier state `seen`, before the authorities were asked. */
    method Decide(p: A.Proposal, c: A.DecideCall, ghost seen: A.Ledger) returns (ok: bool)
      requires Valid() && A.Extends(seen, ledger) && c.id in seen.proposals && seen.proposals[c.id] == p
      modifies this, bucket
      ensures Valid() && A.Extends(old(ledger), ledger) && (!ok ==> ledger == old(ledger))
      ensures ok <==> A.Decide(grammar, old(ledger), p, c).Some?
      ensures ok ==> Some(ledger) == A.Decide(grammar, old(ledger), p, c)
    {
      if p.status != A.Pending || c.digest != p.targetDigest || !A.Accepted(grammar, c.first)
         || c.first.value.principalId == p.maker { return false; }
      if c.target.None? || !grammar.digest(c.target.value) || c.target.value != c.digest
         || !A.SameActor(grammar, c.first, c.second) { return false; }
      if !(c.checked < c.second.value.validUntil) || !Fresh(p.receipt.validFrom, p.receipt.expiresAt, c.checked) {
        return false;
      }
      var current := Proposal(c.id);
      if current.None? || current.value.status != A.Pending || current.value.targetDigest != c.digest { return false; }
      if c.approve {
        var claimed := ClaimReceipt(p.receipt.expectation, c.id);
        if !claimed { return false; }
      }
      A.DecideKeeps(grammar, seen, old(ledger), c);
      PutProposal(c.id, A.Decided(p, c));
      ok := true;
    }

    method Revoke(c: A.RevokeCall) returns (ok: bool)
      requires Valid()
      modifies this, bucket
      ensures Valid() && A.Extends(old(ledger), ledger) && (!ok ==> ledger == old(ledger))
      ensures ok <==> A.Revoke(grammar, old(ledger), c).Some?
      ensures ok ==> Some(ledger) == A.Revoke(grammar, old(ledger), c)
    {
      if !A.Accepted(grammar, c.actor) || !(c.checked < c.actor.value.validUntil) { return false; }
      var current := Proposal(c.id);
      if current.None? || current.value.status != A.Approved { return false; }
      A.RevokeKeeps(grammar, ledger, c);
      PutProposal(c.id, current.value.(status := A.ProposalStatus.Revoked, revokedAt := Some(c.now),
                                       revoker := c.actor.value.principalId));
      ok := true;
    }
  }

  /** The history rows are exactly the ledger's entries, under their keys. */
  ghost predicate HoldsHistory(rows: map<Key, T.Committed>, h: T.History)
  {
    && (forall s :: HistoryKey(s) in rows <==> s in h)
    && (forall s :: s in h ==> rows[HistoryKey(s)] == h[s])
  }

  lemma EntryStored(rows: map<Key, T.Committed>, h: T.History, s: T.Slot, v: T.Committed)
    requires HoldsHistory(rows, h)
    ensures HoldsHistory(rows[HistoryKey(s) := v], h[s := v])
  {
    forall t ensures HistoryKey(t) == HistoryKey(s) ==> t == s { HistoryKeyInjective(t, s); }
  }

  /** Identifiers passed a grammar that refuses the empty string, which storage would refuse as a key. */
  ghost predicate Named(proposals: map<string, T.Proposal>)
  {
    forall id :: id in proposals ==> id != "" && proposals[id].snapshot.trust.id != ""
  }

  lemma ContainmentSound(env: T.Env, seen: T.Ledger, l: T.Ledger, v: T.Committed, c: T.ContainCall)
    requires T.Sound(seen) && T.Sound(l) && T.Extends(seen, l) && c.id in seen.trusts && seen.trusts[c.id] == v
    ensures T.Extends(l, l)
    ensures T.Contain(env, l, v, c).Some? ==>
              T.Sound(T.Contain(env, l, v, c).value) && T.Extends(l, T.Contain(env, l, v, c).value)
  {
    T.Unchanged(l);
    if T.Contain(env, l, v, c).Some? { T.ContainKeeps(env, seen, l, c); }
  }

  class TrustLedger {
    const env: T.Env
    const trusts: Bucket<T.Committed>
    const proposals: Bucket<T.Proposal>
    const history: Bucket<T.Committed>
    var clock: Option<Time>
    ghost var ledger: T.Ledger

    ghost predicate Stored()
      reads this, trusts, proposals, history
    {
      && trusts.Valid() && proposals.Valid() && history.Valid() && !env.grammar.uuid("")
      && trusts != history && trusts as object != proposals && history as object != proposals
      && trusts.Contents() == ledger.trusts && proposals.Contents() == ledger.proposals
      && HoldsHistory(history.Contents(), ledger.history) && clock == ledger.clock && Named(ledger.proposals)
    }

    /** The buckets hold a sound ledger: gap-free chains, accounted for entry by entry. */
    ghost predicate Valid()
      reads this, trusts, proposals, history
    {
      Stored() && T.Sound(ledger)
    }

    constructor (e: T.Env)
      requires !e.grammar.uuid("")
      ensures Valid() && env == e && ledger == T.Ledger(map[], map[], map[], None)
      ensures fresh(trusts) && fresh(proposals) && fresh(history)
    {
      env := e;
      trusts := new Bucket();
      proposals := new Bucket();
      history := new Bucket();
      clock, ledger := None, T.Ledger(map[], map[], map[], None);
    }

    /** Both writes or neither; an existing history entry is never replaced. */
    method PutRevision(v: T.Committed) returns (ok: bool)
      requires Stored() && v.snapshot.trust.id != ""
      modifies this, trusts, history
      ensures Stored() && T.Grows(old(ledger).history, ledger.history)
      ensures ok <==> T.PutRevision(old(ledger), v).Some?
      ensures ledger == if ok then T.PutRevision(old(ledger), v).value else old(ledger)
    {
      var s := T.Slot(v.snapshot.trust.id, v.snapshot.approvedRevision);
      var prior := history.Get(HistoryKey(s));
      ok := prior.None?;
      if ok {
        EntryStored(history.Contents(), ledger.history, s, v);
        var _ := history.Put(HistoryKey(s), v);
        var _ := trusts.Put(s.id, v);
        ledger := ledger.(history := ledger.history[s := v], trusts := ledger.trusts[s.id := v]);
      }
    }

    method SetClock(now: Time)
      requires Stored()
      modifies this
      ensures Stored() && ledger == old(ledger).(clock := Some(now))
    {
      clock := Some(now);
      ledger := ledger.(clock := Some(now));
    }

    /** A read raises the watermark, which never goes back. */
    method Fence(now: Time) returns (ok: bool)
      requires Valid()
      modifies this
      ensures Valid() && T.Extends(old(ledger), ledger) && (!ok ==> ledger == old(ledger))
      ensures ok <==> T.ClockRuns(old(ledger).clock, Some(now))
      ensures ok ==> ledger == old(ledger).(clock := Some(now))
    {
      T.Unchanged(ledger);
      ok := !(clock.Some? && now < clock.value);
      if ok { SetClock(now); }
    }

    /** The revision and snapshot a compare-and-swap finds; nothing stored reads as revision 0. */
    method Current(id: string) returns (v: Option<T.Committed>)
      requires Stored()
      ensures v == Find(ledger.trusts, id)
      ensures T.CurrentRevision(ledger, id) == (if v.Some? then v.value.snapshot.approvedRevision else 0)
      ensures T.CurrentSnapshot(ledger, id) == (if v.Some? then v.value.snapshot.snapshotId else "")
    {
      v := trusts.Get(id);
    }

    method StoreProposal(id: string, p: T.Proposal, observed: Time)
      requires Stored() && id != "" && p.snapshot.trust.id != ""
      modifies this, proposals
      ensures Stored() && ledger == old(ledger).(clock := Some(observed), proposals := old(ledger).proposals[id := p])
    {
      SetClock(observed);
      var _ := proposals.Put(id, p);
      ledger := ledger.(proposals := ledger.proposals[id := p]);
    }

    method CommitProposal(p: T.Proposal, until: Time, observed: Time, checked: Time) returns (ok: bool)
      requires Stored() && p.id != "" && p.snapshot.trust.id != ""
      modifies this, proposals
      ensures Stored() && (ok <==> T.ProposeCommit(old(ledger), p, until, observed, checked).Some?)
      ensures ledger == if ok then T.ProposeCommit(old(ledger), p, until, observed, checked).value else old(ledger)
    {
      var prior := proposals.Get(p.id);
      var current := Current(p.snapshot.trust.id);
      ok := !(clock.Some? && observed < clock.value) && checked < until && checked < p.snapshot.validUntil
            && prior.None?
            && T.RevisionOf(current) == p.previousRevision && T.SnapshotOf(current) == p.previousSnapshotId;
      if ok { StoreProposal(p.id, p, observed); }
    }

    /** `previous` is the trust read before the authorities were asked. */
    method Propose(previous: Option<T.Committed>, c: T.ProposeCall) returns (ok: bool)
      requires Valid()
      modifies this, proposals
      ensures Valid() && T.Extends(old(ledger), ledger) && (!ok ==> ledger == old(ledger))
      ensures ok <==> T.Propose(env, old(ledger), previous, c).Some?
      ensures ok ==> Some(ledger) == T.Propose(env, old(ledger), previous, c)
    {
      T.Unchanged(ledger);
      ok := T.CandidateFits(env, c) && T.Follows(env, previous, c);
      if ok {
        ok := CommitProposal(T.Proposed(env, previous, c), c.second.value.validUntil, c.observed, c.checked);
        if ok { T.ProposeKeeps(env, old(ledger), previous, c); }
      }
    }

    /** Commit an approved proposal as the next revision, if its predecessor is still current. */
    method Advance(q: T.Proposal) returns (ok: bool)
      requires Stored() && q.snapshot.trust.id != ""
      modifies this, trusts, history
      ensures Stored() && (ok <==> T.AdvanceTo(old(ledger), q).Some?)
      ensures ledger == if ok then T.AdvanceTo(old(ledger), q).value else old(ledger)
    {
      var current := Current(q.snapshot.trust.id);
      ok := T.RevisionOf(current) == q.previousRevision && T.SnapshotOf(current) == q.previousSnapshotId
            && (current.Some? ==> T.TrustTransition(current.value.snapshot.trust, q.snapshot.trust));
      if ok { ok := PutRevision(T.CommittedBy(q)); }
    }

    method CommitDecision(id: string, q: T.Proposal, until: Time, observed: Time, checked: Time) returns (ok: bool)
      requires Stored() && id != "" && q.snapshot.trust.id != ""
      modifies this, trusts, proposals, history
      ensures Stored() && (ok <==> T.DecideCommit(old(ledger), id, q, until, observed, checked).Some?)
      ensures ledger == if ok then T.DecideCommit(old(ledger), id, q, until, observed, checked).value else old(ledger)
    {
      var pending := proposals.Get(id);
      ok := !(clock.Some? && observed < clock.value) && checked < until && checked < q.snapshot.validUntil
            && pending.Some? && pending.value.status == T.Pending;
      if ok && q.status == T.Approved { ok := Advance(q); }
      if ok { StoreProposal(id, q, observed); }
    }

    /** `p` is the proposal read from an earlier state `seen`, before the authorities were asked. */
    method Decide(p: T.Proposal, c: T.DecideCall, ghost seen: T.Ledger) returns (ok: bool)
      requires Valid() && T.Extends(seen, ledger) && c.id in seen.proposals && seen.proposals[c.id] == p
      modifies this, trusts, proposals, history
      ensures Valid() && T.Extends(old(ledger), ledger) && (!ok ==> ledger == old(ledger))
      ensures ok <==> T.Decide(env, old(ledger), p, c).Some?
      ensures ok ==> Some(ledger) == T.Decide(env, old(ledger), p, c)
    {
      T.Unchanged(ledger);
      assert T.Later(p, ledger.proposals[c.id]);
      ok := T.DecisionAllowed(env, p, c);
      if ok {
        ok := CommitDecision(c.id, T.Decided(p, c), c.second.value.validUntil, c.observed, c.checked);
        if ok { T.DecideKeeps(env, seen, old(ledger), c); }
      }
    }

    method CommitContainment(n: T.Committed, revision: nat, snapshotId: string, until: Time, observed: Time,
                             checked: Time)
      returns (ok: bool)
      requires Stored() && n.snapshot.trust.id != ""
      modifies this, trusts, history
      ensures Stored()
      ensures ok <==> T.ContainCommit(old(ledger), n, revision, snapshotId, until, observed, checked).Some?
      ensures ledger == if ok then T.ContainCommit(old(ledger), n, revision, snapshotId, until, observed, checked).value
                        else old(ledger)
    {
      var current := Current(n.snapshot.trust.id);
      ok := !(clock.Some? && observed < clock.value) && checked < until && current.Some?
            && current.value.snapshot.approvedRevision == revision && current.value.snapshot.snapshotId == snapshotId;
      if ok { ok := PutRevision(n); }
      if ok { SetClock(observed); }
    }

    /** `v` is the revision read from an earlier state `seen`, before the authority was asked. */
    method Contain(v: T.Committed, c: T.ContainCall, ghost seen: T.Ledger) returns (ok: bool)
      requires Valid() && T.Sound(seen) && T.Extends(seen, ledger) && c.id in seen.trusts && seen.trusts[c.id] == v
      modifies this, trusts, history
      ensures Valid() && T.Extends(old(ledger), ledger) && (!ok ==> ledger == old(ledger))
      ensures ok <==> T.Contain(env, old(ledger), v, c).Some?
      ensures ok ==> Some(ledger) == T.Contain(env, old(ledger), v, c)
    {
      ok := T.ContainmentAllowed(env, v, c);
      if ok {
        ok := CommitContainment(T.Contained(v, c), c.revision, v.snapshot.snapshotId, c.actor.value.validUntil,
                                c.observed, c.checked);
      }
      ContainmentSound(env, seen, old(ledger), v, c);
    }
  }
}
