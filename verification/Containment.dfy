/** The deny fence: what provider calls follow, what the journal proves, and how it stands against rollbacks. */
module Containment {
  import opened Storage
  import opened MigrationLedger
  import opened MigrationRuns

  ghost predicate Fenced(l: Ledger, id: string) { id in l.fences && id in l.rows && l.rows[id].state == Quarantined }

  /* ---- Provider calls follow the fence ---- */

  /** The row is fenced and quarantined, and the operation is journalled for it. */
  ghost predicate Contained(l: Ledger, op: string, id: string)
  {
    Fenced(l, id) && op in l.operations && l.operations[op].id == id
  }

  /** Each call in flight, and each provider call it made, goes back to the world its own containment committed. */
  ghost predicate CallsFenced(ws: seq<World>, n: nat)
    requires n < |ws|
  {
    && (forall p :: p in ws[n].contains ==> p.begun <= n && Contained(ws[p.begun].ledger, p.op, p.id))
    && (forall i :: 0 <= i < |ws[n].effects| ==>
          var e := ws[n].effects[i]; e.begun < n && Contained(ws[e.begun].ledger, e.op, e.id))
  }

  /** `v` differs from `w` only by what a step of call `p` may do: move the call and log its own provider calls. */
  ghost predicate Ours(w: World, v: World, p: ContainCall)
  {
    && (forall q :: q in v.contains ==> q in w.contains || q == p.(stage := q.stage))
    && w.effects <= v.effects && v.rollbacks == w.rollbacks
    && (forall i :: |w.effects| <= i < |v.effects| ==>
          v.effects[i].op == p.op && v.effects[i].id == p.id && v.effects[i].begun == p.begun)
  }

  lemma MovedIsOurs(w: World, v: World, p: ContainCall, stage: Stage)
    requires Ours(w, v, p) && v.contains == w.contains
    ensures Ours(w, Moved(v, p, stage), p) && Ours(w, Ended(v, p), p)
  {
    forall q | q in Moved(v, p, stage).contains ensures q in w.contains || q == p.(stage := stage) { }
  }

  lemma CalledIsOurs(w: World, v: World, p: ContainCall, kind: Kind, ok: bool)
    requires Ours(w, v, p)
    ensures Ours(w, Called(v, p, kind, ok), p)
  {
  }

  lemma ActIsOurs(w: World, p: ContainCall, kind: Kind, next: Stage, called: bool, ok: bool)
    ensures Ours(w, Act(w, p, kind, next, called, ok), p)
  {
    var v := Called(w, p, kind, ok);
    CalledIsOurs(w, w, p, kind, ok);
    MovedIsOurs(w, w, p, Fail);
    MovedIsOurs(w, v, p, if ok then next else Fail);
  }

  lemma RecheckIsOurs(w: World, p: ContainCall, called: bool, ok: bool)
    requires p.stage == Recheck
    ensures Ours(w, Advance(w, p, called, ok), p)
  {
    var a := Called(w, p, IdentityRead, ok);
    var b := Called(a, p, SessionCount, ok);
    var v := Called(b, p, DenialWitness, ok);
    CalledIsOurs(w, w, p, IdentityRead, ok);
    CalledIsOurs(w, a, p, SessionCount, ok);
    CalledIsOurs(w, b, p, DenialWitness, ok);
    MovedIsOurs(w, w, p, Fail);
    MovedIsOurs(w, v, p, Fail);
  }

  lemma JournalIsOurs(w: World, p: ContainCall, phase: Phase, stage: Stage)
    ensures Ours(w, Moved(w, p, stage), p) && Ours(w, Moved(Mark(w, p, phase), p, stage), p)
    ensures Ours(w, Ended(w, p), p) && Ours(w, Ended(Mark(w, p, phase), p), p)
  {
    MovedIsOurs(w, w, p, stage);
    MovedIsOurs(w, Mark(w, p, phase), p, stage);
  }

  /** A containment step keeps its call's identity and logs only its own provider calls. */
  lemma AdvanceEffect(w: World, p: ContainCall, called: bool, ok: bool)
    ensures Ours(w, Advance(w, p, called, ok), p)
  {
    match p.stage
    case Disable => ActIsOurs(w, p, IdentityDisable, ReadBack, called, ok);
    case ReadBack => ActIsOurs(w, p, IdentityRead, MarkDisabled, called, ok);
    case MarkDisabled =>
      JournalIsOurs(w, p, IdentityDisabled, Stage.Revoke);
      MovedIsOurs(w, w, p, Fail);
    case Revoke => ActIsOurs(w, p, SessionRevoke, Count, called, ok);
    case Count => ActIsOurs(w, p, SessionCount, MarkRevoked, called, ok);
    case MarkRevoked =>
      JournalIsOurs(w, p, SessionsRevoked, Witness);
      MovedIsOurs(w, w, p, Fail);
    case Witness => ActIsOurs(w, p, DenialWitness, MarkDenied, called, ok);
    case MarkDenied =>
      JournalIsOurs(w, p, TokensDenied, MarkVerified);
      MovedIsOurs(w, w, p, Fail);
    case MarkVerified => JournalIsOurs(w, p, PhaseVerified, Fail);
    case Fail => JournalIsOurs(w, p, PhaseUnknown, Fail);
    case Recheck => RecheckIsOurs(w, p, called, ok);
  }

  /** Only containment steps move calls and make provider calls, apart from the begin that starts one. */
  lemma OtherStepsEffect(rules: Rules, w: World, at: nat, s: Step)
    requires !s.DoContain?
    ensures var v := Apply(rules, w, at, s);
            && v.effects == w.effects
            && (forall q :: q in v.contains ==>
                  q in w.contains || (s.DoBegin? && v != w && q.id == s.id && q.op == s.op && q.begun == at + 1))
  {
  }

  lemma BeginFences(rules: Rules, w: World, at: nat, s: Step)
    requires s.DoBegin? && Sound(w.ledger) && Plausible(w, s) && Apply(rules, w, at, s) != w
    ensures Contained(Apply(rules, w, at, s).ledger, s.op, s.id)
  {
    BeginKeeps(rules, w.ledger, s.id, s.op, s.prior);
  }

  lemma OursStayFenced(ws: seq<World>, n: nat, p: ContainCall)
    requires n + 1 < |ws| && CallsFenced(ws, n) && p in ws[n].contains && Ours(ws[n], ws[n + 1], p)
    ensures CallsFenced(ws, n + 1)
  {
    var w, v := ws[n], ws[n + 1];
    forall i | 0 <= i < |v.effects|
      ensures var e := v.effects[i]; e.begun < n + 1 && Contained(ws[e.begun].ledger, e.op, e.id)
    {
      if i < |w.effects| { assert v.effects[i] == w.effects[i]; }
    }
  }

  lemma BegunStayFenced(ws: seq<World>, n: nat)
    requires n + 1 < |ws| && CallsFenced(ws, n) && ws[n + 1].effects == ws[n].effects
    requires forall q :: q in ws[n + 1].contains ==>
               q in ws[n].contains || (q.begun == n + 1 && Contained(ws[n + 1].ledger, q.op, q.id))
    ensures CallsFenced(ws, n + 1)
  {
  }

  lemma StepKeepsCallsFenced(rules: Rules, steps: seq<Step>, ws: seq<World>, n: nat)
    requires Run(rules, steps, ws) && n < |steps| && CallsFenced(ws, n)
    ensures CallsFenced(ws, n + 1)
  {
    var w, s := ws[n], steps[n];
    var v := NextWorld(rules, steps, ws, n);
    RunIsSound(rules, steps, ws, n);
    if s.DoContain? && s.contain in w.contains {
      AdvanceEffect(w, s.contain, s.called, s.ok);
      OursStayFenced(ws, n, s.contain);
    } else {
      if !s.DoContain? { OtherStepsEffect(rules, w, n, s); }
      if s.DoBegin? && v != w { BeginFences(rules, w, n, s); }
      BegunStayFenced(ws, n);
    }
  }

  lemma {:induction false} RunKeepsCallsFenced(rules: Rules, steps: seq<Step>, ws: seq<World>, n: nat)
    requires Run(rules, steps, ws) && n < |ws|
    ensures CallsFenced(ws, n)
  {
    if n > 0 {
      RunKeepsCallsFenced(rules, steps, ws, n - 1);
      StepKeepsCallsFenced(rules, steps, ws, n - 1);
    }
  }

  /**
   * No provider call happens before the deny fence and the quarantine are committed: a call logged by world `n`
   * goes back to an earlier world that was fenced and quarantined, and the fence has stood ever since.
   */
  lemma ProviderCallsFollowFence(rules: Rules, steps: seq<Step>, ws: seq<World>, n: nat, i: nat)
    requires Run(rules, steps, ws) && n < |ws| && i < |ws[n].effects|
    ensures var e := ws[n].effects[i];
            && e.begun < n && Fenced(ws[e.begun].ledger, e.id)
            && (forall k :: e.begun <= k < |ws| ==> e.id in ws[k].ledger.fences)
  {
    RunKeepsCallsFenced(rules, steps, ws, n);
    var e := ws[n].effects[i];
    forall k | e.begun <= k < |ws| ensures e.id in ws[k].ledger.fences {
      RunExtends(rules, steps, ws, e.begun, k);
    }
  }

  /* ---- What a verified journal proves ---- */

  predicate MadeBy(e: Effect, p: ContainCall) { e.op == p.op && e.id == p.id && e.begun == p.begun }

  /** The kinds of provider calls one containment call has had confirmed, whatever stage it is in. */
  ghost function Confirmed(effects: seq<Effect>, p: ContainCall): set<Kind>
  {
    set e | e in effects && MadeBy(e, p) && e.ok :: e.kind
  }

  /** One containment call of the operation has had everything confirmed. */
  ghost predicate InFull(effects: seq<Effect>, op: string)
  {
    exists p: ContainCall :: p.op == op && ALL <= Confirmed(effects, p)
  }

  const ALL := {IdentityDisable, IdentityRead, SessionRevoke, SessionCount, DenialWitness}

  function Needs(s: Stage): set<Kind>
  {
    match s
    case ReadBack => {IdentityDisable}
    case MarkDisabled => {IdentityDisable, IdentityRead}
    case Revoke => {IdentityDisable, IdentityRead}
    case Count => {IdentityDisable, IdentityRead, SessionRevoke}
    case MarkRevoked => {IdentityDisable, IdentityRead, SessionRevoke, SessionCount}
    case Witness => {IdentityDisable, IdentityRead, SessionRevoke, SessionCount}
    case MarkDenied => ALL
    case MarkVerified => ALL
    case _ => {}
  }

  ghost predicate Journalled(w: World)
  {
    && (forall p :: p in w.contains ==> Needs(p.stage) <= Confirmed(w.effects, p))
    && (forall op :: op in w.ledger.operations && w.ledger.operations[op].phase == PhaseVerified ==>
          InFull(w.effects, op))
  }

  lemma ConfirmedGrows(a: seq<Effect>, b: seq<Effect>, p: ContainCall)
    requires a <= b
    ensures Confirmed(a, p) <= Confirmed(b, p)
  {
    forall e | e in a ensures e in b {
      var i :| 0 <= i < |a| && a[i] == e;
      assert b[i] == e;
    }
  }

  lemma StageAside(effects: seq<Effect>, p: ContainCall, stage: Stage)
    ensures Confirmed(effects, p.(stage := stage)) == Confirmed(effects, p)
  {
    assert forall e :: MadeBy(e, p.(stage := stage)) <==> MadeBy(e, p);
  }

  ghost function CallInFull(effects: seq<Effect>, op: string): (p: ContainCall)
    requires InFull(effects, op)
    ensures p.op == op && ALL <= Confirmed(effects, p)
  {
    var p: ContainCall :| p.op == op && ALL <= Confirmed(effects, p);
    p
  }

  ghost predicate Backed(w: World, v: World, p: ContainCall)
  {
    forall q :: q in v.contains && q !in w.contains ==>
      q == p.(stage := q.stage) && Needs(q.stage) <= Confirmed(v.effects, p)
  }

  lemma MovedBacked(w: World, v: World, p: ContainCall, stage: Stage)
    requires v.contains == w.contains && Needs(stage) <= Confirmed(v.effects, p)
    ensures Backed(w, Moved(v, p, stage), p) && Backed(w, Ended(v, p), p)
  {
    forall q | q in Moved(v, p, stage).contains && q !in w.contains ensures q == p.(stage := stage) { }
  }

  lemma ActBacked(w: World, p: ContainCall, kind: Kind, next: Stage, called: bool, ok: bool)
    requires Needs(p.stage) <= Confirmed(w.effects, p) && Needs(next) <= Needs(p.stage) + {kind}
    ensures Backed(w, Act(w, p, kind, next, called, ok), p)
  {
    var v := Called(w, p, kind, ok);
    ConfirmedGrows(w.effects, v.effects, p);
    var e := v.effects[|w.effects|];
    assert e in v.effects && (ok ==> kind in Confirmed(v.effects, p));
    MovedBacked(w, w, p, Fail);
    MovedBacked(w, v, p, if ok then next else Fail);
  }

  lemma JournalBacked(w: World, p: ContainCall, phase: Phase, next: Stage, ok: bool)
    requires Needs(p.stage) <= Confirmed(w.effects, p) && Needs(next) <= Needs(p.stage)
    ensures Backed(w, Journal(w, p, phase, next, ok), p) && Backed(w, Ended(Mark(w, p, phase), p), p)
  {
    MovedBacked(w, w, p, Fail);
    MovedBacked(w, Mark(w, p, phase), p, next);
  }

  lemma RecheckBacked(w: World, p: ContainCall, called: bool, ok: bool)
    requires p.stage == Recheck
    ensures Backed(w, Advance(w, p, called, ok), p)
  {
    MovedBacked(w, w, p, Fail);
    MovedBacked(w, Called(Called(Called(w, p, IdentityRead, ok), p, SessionCount, ok), p, DenialWitness, ok), p, Fail);
  }

  /** A containment call's next stage needs only what has been confirmed. */
  lemma AdvanceConfirms(w: World, p: ContainCall, called: bool, ok: bool)
    requires Needs(p.stage) <= Confirmed(w.effects, p)
    ensures Backed(w, Advance(w, p, called, ok), p)
  {
    match p.stage
    case Disable => ActBacked(w, p, IdentityDisable, ReadBack, called, ok);
    case ReadBack => ActBacked(w, p, IdentityRead, MarkDisabled, called, ok);
    case MarkDisabled => JournalBacked(w, p, IdentityDisabled, Stage.Revoke, ok);
    case Revoke => ActBacked(w, p, SessionRevoke, Count, called, ok);
    case Count => ActBacked(w, p, SessionCount, MarkRevoked, called, ok);
    case MarkRevoked => JournalBacked(w, p, SessionsRevoked, Witness, ok);
    case Witness => ActBacked(w, p, DenialWitness, MarkDenied, called, ok);
    case MarkDenied => JournalBacked(w, p, TokensDenied, MarkVerified, ok);
    case MarkVerified =>
      JournalBacked(w, p, PhaseVerified, Fail, ok);
      MovedBacked(w, w, p, Fail);
    case Fail =>
      JournalBacked(w, p, PhaseUnknown, Fail, ok);
      MovedBacked(w, w, p, Fail);
    case Recheck => RecheckBacked(w, p, called, ok);
  }

  /** An operation becomes verified only by the last stage of a containment call. */
  lemma AdvancePhases(w: World, p: ContainCall, called: bool, ok: bool, op: string)
    requires p in w.contains
    ensures var v := Advance(w, p, called, ok);
            op in v.ledger.operations && v.ledger.operations[op].phase == PhaseVerified ==>
              op in w.ledger.operations && (w.ledger.operations[op].phase == PhaseVerified
                                            || (op == p.op && p.stage == MarkVerified))
  {
    AdvanceLedger(w, p, called, ok);
    if Journals(p, ok).Some? { MarkEffect(w.ledger, p.op, Journals(p, ok).value); }
  }

  lemma BeginPhases(rules: Rules, w: World, at: nat, s: Step)
    requires s.DoBegin?
    ensures var v := Apply(rules, w, at, s);
            && (forall op :: op in v.ledger.operations && v.ledger.operations[op].phase == PhaseVerified ==>
                  op in w.ledger.operations && w.ledger.operations[op].phase == PhaseVerified)
            && v.effects == w.effects && (forall q :: q in v.contains && q !in w.contains ==> Needs(q.stage) == {})
  {
  }

  lemma PutLeavesJournal(rules: Rules, l: Ledger, r: Record, identical: bool)
    requires PutTx(rules, l, r, identical).Some?
    ensures PutTx(rules, l, r, identical).value.operations == l.operations
    ensures PutTx(rules, l, r, identical).value.fences == l.fences
  {
    PutEffect(rules, l, r, identical);
  }

  /** Puts and rollbacks leave the journal and the calls alone. */
  lemma WritesLeaveJournal(rules: Rules, w: World, at: nat, s: Step, v: World)
    requires !s.DoContain? && !s.DoBegin? && v == Apply(rules, w, at, s)
    ensures v.ledger.operations == w.ledger.operations && v.effects == w.effects && v.contains == w.contains
  {
    if v.ledger != w.ledger {
      match s
      case DoPut(r, identical, _) => PutLeavesJournal(rules, w.ledger, r, identical);
      case DoRestore(p, identical, _) => PutLeavesJournal(rules, w.ledger, p.progress.next, identical);
    }
  }

  /** A containment step keeps what its next stage and every verified operation need. */
  lemma AdvanceKeepsJournal(w: World, p: ContainCall, called: bool, ok: bool, v: World)
    requires Journalled(w) && p in w.contains && v == Advance(w, p, called, ok)
    ensures Journalled(v)
  {
    AdvanceEffect(w, p, called, ok);
    AdvanceConfirms(w, p, called, ok);
    forall q | q in v.contains ensures Needs(q.stage) <= Confirmed(v.effects, q) {
      if q in w.contains {
        ConfirmedGrows(w.effects, v.effects, q);
      } else {
        StageAside(v.effects, p, q.stage);
      }
    }
    forall op | op in v.ledger.operations && v.ledger.operations[op].phase == PhaseVerified
      ensures InFull(v.effects, op)
    {
      AdvancePhases(w, p, called, ok, op);
      var q: ContainCall := if w.ledger.operations[op].phase == PhaseVerified then CallInFull(w.effects, op) else p;
      ConfirmedGrows(w.effects, v.effects, q);
    }
  }

  lemma StepKeepsJournal(rules: Rules, w: World, at: nat, s: Step, v: World)
    requires Journalled(w) && v == Apply(rules, w, at, s)
    ensures Journalled(v)
  {
    if s.DoContain? {
      if s.contain in w.contains { AdvanceKeepsJournal(w, s.contain, s.called, s.ok, v); }
    } else if s.DoBegin? {
      BeginPhases(rules, w, at, s);
    } else {
      WritesLeaveJournal(rules, w, at, s, v);
    }
  }

  lemma NextWorld(rules: Rules, steps: seq<Step>, ws: seq<World>, i: nat) returns (v: World)
    requires Run(rules, steps, ws) && i < |steps|
    ensures v == ws[i + 1] == Apply(rules, ws[i], i, steps[i]) && Plausible(ws[i], steps[i])
  {
    assert Follows(rules, steps, ws, i);
    v := ws[i + 1];
  }

  lemma {:induction false} RunKeepsJournal(rules: Rules, steps: seq<Step>, ws: seq<World>, n: nat)
    requires Run(rules, steps, ws) && n < |ws|
    ensures Journalled(ws[n])
  {
    if n > 0 {
      RunKeepsJournal(rules, steps, ws, n - 1);
      var v := NextWorld(rules, steps, ws, n - 1);
      StepKeepsJournal(rules, ws[n - 1], n - 1, steps[n - 1], ws[n]);
    }
  }

  /** Provider calls confirmed for a containment call go back to the world in which that call committed its fence. */
  lemma ConfirmedAfterFence(rules: Rules, steps: seq<Step>, ws: seq<World>, n: nat, p: ContainCall)
    requires Run(rules, steps, ws) && n < |ws| && Confirmed(ws[n].effects, p) != {}
    ensures p.begun < n && Contained(ws[p.begun].ledger, p.op, p.id)
    ensures p.op in ws[n].ledger.operations && ws[n].ledger.operations[p.op].id == p.id
  {
    RunKeepsCallsFenced(rules, steps, ws, n);
    var e :| e in ws[n].effects && MadeBy(e, p);
    var i :| 0 <= i < |ws[n].effects| && ws[n].effects[i] == e;
    RunExtends(rules, steps, ws, p.begun, n);
  }

  /**
   * Behind a verified operation stands one containment call of its migration that had, after its own fence, the
   * identity disabled and read back, the sessions revoked and counted and the denial witnessed, each confirmed. And
   * a migration has one operation.
   */
  lemma VerifiedMeansConfirmed(rules: Rules, steps: seq<Step>, ws: seq<World>, n: nat, op: string)
    returns (p: ContainCall)
    requires Run(rules, steps, ws) && n < |ws| && op in ws[n].ledger.operations
    ensures IsVerified(ws[n].ledger, op) ==>
              && p.op == op && p.id == ws[n].ledger.operations[op].id && ALL <= Confirmed(ws[n].effects, p)
              && p.begun < n && Contained(ws[p.begun].ledger, p.op, p.id)
    ensures var ops := ws[n].ledger.operations; forall q :: q in ops && ops[q].id == ops[op].id ==> q == op
  {
    p := ContainCall("", op, 0, Fail);
    RunKeepsJournal(rules, steps, ws, n);
    RunIsSound(rules, steps, ws, n);
    if IsVerified(ws[n].ledger, op) {
      p := CallInFull(ws[n].effects, op);
      assert IdentityRead in Confirmed(ws[n].effects, p);
      ConfirmedAfterFence(rules, steps, ws, n, p);
    }
  }

  predicate IsVerified(l: Ledger, op: string) { op in l.operations && l.operations[op].phase == PhaseVerified }

  /** The one way a step takes a verified operation back: the last stage of a failed containment call. */
  lemma VerifiedStep(rules: Rules, w: World, at: nat, s: Step, op: string)
    requires Plausible(w, s) && IsVerified(w.ledger, op) && !IsVerified(Apply(rules, w, at, s).ledger, op)
    ensures s.DoContain? && s.contain.op == op && s.contain.stage == Fail
    ensures var l := Apply(rules, w, at, s).ledger; op in l.operations && l.operations[op].phase == PhaseUnknown
  {
    if s.DoContain? {
      if s.contain in w.contains {
        AdvanceLedger(w, s.contain, s.called, s.ok);
      }
    } else if !s.DoBegin? {
      WritesLeaveJournal(rules, w, at, s, Apply(rules, w, at, s));
      assert false;
    }
  }

  /** A verified operation is only ever lost to unknown, by a failed containment call of its own. */
  lemma {:induction false} VerifiedLeavesOnlyToUnknown(rules: Rules, steps: seq<Step>, ws: seq<World>, i: nat, n: nat,
                                                       op: string)
    returns (j: nat)
    requires Run(rules, steps, ws) && i < n < |ws| && IsVerified(ws[i].ledger, op) && !IsVerified(ws[n].ledger, op)
    ensures i <= j < n && steps[j].DoContain? && steps[j].contain.op == op && steps[j].contain.stage == Fail
    ensures forall k :: i <= k <= j ==> IsVerified(ws[k].ledger, op)
    ensures op in ws[j + 1].ledger.operations && ws[j + 1].ledger.operations[op].phase == PhaseUnknown
    decreases n - i
  {
    var v := NextWorld(rules, steps, ws, i);
    if IsVerified(v.ledger, op) {
      j := VerifiedLeavesOnlyToUnknown(rules, steps, ws, i + 1, n, op);
    } else {
      VerifiedStep(rules, ws[i], i, steps[i], op);
      j := i;
    }
  }

  /* ---- The fence against rollbacks ---- */

  ghost predicate LoadSound(rules: Rules, ws: seq<World>, n: nat, p: Rollback)
    requires n < |ws|
  {
    && p.checkedAt <= n && p.id !in ws[p.checkedAt].ledger.fences
    && (p.progress.Loaded? ==>
          var at := p.progress.at;
          && p.checkedAt <= at <= n && p.id in ws[at].ledger.rows && p.progress.base == ws[at].ledger.rows[p.id]
          && Structural(rules, p.progress.base)
          && Transition(rules, p.progress.base, RolledBack) == Some(p.progress.next))
  }

  /** Every rollback in flight passed its fence check, and carries the row it read. */
  ghost predicate RollbacksSound(rules: Rules, ws: seq<World>, n: nat)
    requires n < |ws|
  {
    forall p :: p in ws[n].rollbacks ==> LoadSound(rules, ws, n, p)
  }

  lemma StepRollbacks(rules: Rules, w: World, at: nat, s: Step, q: Rollback)
    requires q in Apply(rules, w, at, s).rollbacks && q !in w.rollbacks
    ensures (s.DoCheck? && q == Rollback(s.target, at, Passed) && s.target !in w.ledger.fences)
         || (s.DoReview? && s.rollback in w.rollbacks && q == s.rollback.(progress := Reviewed))
         || (s.DoLoad? && s.rollback in w.rollbacks && q.progress.Loaded? && q == s.rollback.(progress := q.progress)
             && Load(rules, w.ledger, q.id, at) == Some(q.progress))
  {
    if s.DoContain? && s.contain in w.contains { AdvanceEffect(w, s.contain, s.called, s.ok); }
  }

  lemma StepKeepsRollbacks(rules: Rules, steps: seq<Step>, ws: seq<World>, n: nat)
    requires Run(rules, steps, ws) && n < |steps| && RollbacksSound(rules, ws, n)
    ensures RollbacksSound(rules, ws, n + 1)
  {
    assert Follows(rules, steps, ws, n);
    var v := ws[n + 1];
    forall q | q in v.rollbacks ensures LoadSound(rules, ws, n + 1, q) {
      if q in ws[n].rollbacks {
        assert LoadSound(rules, ws, n, q);
      } else {
        StepRollbacks(rules, ws[n], n, steps[n], q);
        if !steps[n].DoCheck? { assert LoadSound(rules, ws, n, steps[n].rollback); }
      }
    }
  }

  lemma {:induction false} RunKeepsRollbacks(rules: Rules, steps: seq<Step>, ws: seq<World>, n: nat)
    requires Run(rules, steps, ws) && n < |ws|
    ensures RollbacksSound(rules, ws, n)
  {
    if n > 0 {
      RunKeepsRollbacks(rules, steps, ws, n - 1);
      StepKeepsRollbacks(rules, steps, ws, n - 1);
    }
  }

  /** The row a rollback loaded and the current row: equal revisions mean the same row. */
  lemma LoadedRow(rules: Rules, steps: seq<Step>, ws: seq<World>, n: nat, p: Rollback)
    requires Run(rules, steps, ws) && n < |ws| && p in ws[n].rollbacks && p.progress.Loaded?
    ensures LoadSound(rules, ws, n, p) && p.progress.base.id == p.id && Bounded(p.progress.base)
    ensures p.id in ws[n].ledger.rows && ws[n].ledger.rows[p.id].id == p.id
    ensures ws[n].ledger.rows[p.id].revision == p.progress.base.revision ==> ws[n].ledger.rows[p.id] == p.progress.base
  {
    RunKeepsRollbacks(rules, steps, ws, n);
    assert LoadSound(rules, ws, n, p);
    RunIsSound(rules, steps, ws, p.progress.at);
    RunIsSound(rules, steps, ws, n);
    RunExtends(rules, steps, ws, p.progress.at, n);
    assert Later(p.progress.base, ws[n].ledger.rows[p.id]);
  }

  /**
   * Whether a rollback's write goes through, when the database accepts it, depends only on the row's revision:
   * it does exactly when nothing has written the row since it was loaded.
   */
  lemma RestoreCommitsIff(rules: Rules, steps: seq<Step>, ws: seq<World>, n: nat, p: Rollback, identical: bool)
    requires Run(rules, steps, ws) && n < |ws| && p in ws[n].rollbacks && p.progress.Loaded?
    ensures p.id in ws[n].ledger.rows
    ensures PutTx(rules, ws[n].ledger, p.progress.next, identical).Some?
       <==> ws[n].ledger.rows[p.id].revision == p.progress.base.revision
  {
    LoadedRow(rules, steps, ws, n, p);
  }

  /** While the row is quarantined no rollback can write it. */
  lemma QuarantineBlocksRestore(rules: Rules, steps: seq<Step>, ws: seq<World>, n: nat, id: string)
    requires Run(rules, steps, ws) && n < |steps| && steps[n].DoRestore? && steps[n].rollback.id == id
    requires id in ws[n].ledger.rows && ws[n].ledger.rows[id].state == Quarantined
    ensures ws[n + 1].ledger == ws[n].ledger
  {
    assert Follows(rules, steps, ws, n);
    var p := steps[n].rollback;
    if p in ws[n].rollbacks && p.progress.Loaded? {
      LoadedRow(rules, steps, ws, n, p);
      assert p.progress.base.state != Quarantined;
      RestoreCommitsIff(rules, steps, ws, n, p, steps[n].identical);
    }
  }

  /** The step from `i` does not take the row out of quarantine. */
  ghost predicate Stays(ws: seq<World>, i: nat, id: string)
    requires i + 1 < |ws|
  {
    Fenced(ws[i].ledger, id) ==> Fenced(ws[i + 1].ledger, id)
  }

  /** The commit of a fence quarantines its row. */
  lemma FenceCommitQuarantines(rules: Rules, steps: seq<Step>, ws: seq<World>, k: nat, id: string)
    requires Run(rules, steps, ws) && k < |steps| && id !in ws[k].ledger.fences && id in ws[k + 1].ledger.fences
    ensures Fenced(ws[k + 1].ledger, id)
  {
    assert Follows(rules, steps, ws, k);
    RunIsSound(rules, steps, ws, k);
    OnlyBeginFences(rules, ws[k], k, steps[k], id);
    BeginFences(rules, ws[k], k, steps[k]);
  }

  lemma OnlyBeginFences(rules: Rules, w: World, at: nat, s: Step, id: string)
    requires id !in w.ledger.fences && id in Apply(rules, w, at, s).ledger.fences
    ensures s.DoBegin? && s.id == id && Apply(rules, w, at, s) != w
  {
    if s.DoContain? && s.contain in w.contains { AdvanceLedger(w, s.contain, s.called, s.ok); }
  }

  /**
   * In any interleaving in which no other step takes the row out of quarantine, no rollback moves it once its
   * fence has been committed by step `k`.
   */
  lemma {:induction false} FenceHoldsAgainstRollback(rules: Rules, steps: seq<Step>, ws: seq<World>, id: string, k: nat,
                                                     n: nat)
    requires Run(rules, steps, ws) && k < n < |ws| && id !in ws[k].ledger.fences && id in ws[k + 1].ledger.fences
    requires forall i: nat :: k < i < n && !(steps[i].DoRestore? && steps[i].rollback.id == id) ==> Stays(ws, i, id)
    ensures Fenced(ws[n].ledger, id)
  {
    FenceCommitQuarantines(rules, steps, ws, k, id);
    if n > k + 1 {
      var s := steps[n - 1];
      FenceHoldsAgainstRollback(rules, steps, ws, id, k, n - 1);
      if s.DoRestore? && s.rollback.id == id {
        QuarantineBlocksRestore(rules, steps, ws, n - 1, id);
      } else {
        assert Stays(ws, n - 1, id);
      }
    }
  }

  lemma {:induction false} FenceCommit(rules: Rules, steps: seq<Step>, ws: seq<World>, id: string, n: nat)
    returns (k: nat)
    requires Run(rules, steps, ws) && n < |ws| && id in ws[n].ledger.fences
    ensures k < n && id !in ws[k].ledger.fences && id in ws[k + 1].ledger.fences
  {
    if id in ws[n - 1].ledger.fences {
      k := FenceCommit(rules, steps, ws, id, n - 1);
    } else {
      k := n - 1;
    }
  }

  /** A rollback that writes a fenced row needs another writer that took it out of quarantine after the fence. */
  lemma RollbackAfterFenceNeedsRelease(rules: Rules, steps: seq<Step>, ws: seq<World>, n: nat) returns (i: nat)
    requires Run(rules, steps, ws) && n < |steps| && steps[n].DoRestore? && ws[n + 1].ledger != ws[n].ledger
    requires steps[n].rollback.id in ws[n].ledger.fences
    ensures var id := steps[n].rollback.id;
            && i < n && !(steps[i].DoRestore? && steps[i].rollback.id == id)
            && Fenced(ws[i].ledger, id) && !Fenced(ws[i + 1].ledger, id)
  {
    var id := steps[n].rollback.id;
    var k := FenceCommit(rules, steps, ws, id, n);
    if forall i: nat :: k < i < n && !(steps[i].DoRestore? && steps[i].rollback.id == id) ==> Stays(ws, i, id) {
      FenceHoldsAgainstRollback(rules, steps, ws, id, k, n);
      QuarantineBlocksRestore(rules, steps, ws, n, id);
      assert false;
    }
    i :| k < i < n && !(steps[i].DoRestore? && steps[i].rollback.id == id) && !Stays(ws, i, id);
  }
}
