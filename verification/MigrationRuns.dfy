/** Interleaved migration writers, containment calls and rollbacks over one durable ledger. */
module MigrationRuns {
  import opened Storage
  import opened MigrationLedger

  /* ---- Calls in flight ---- */

  datatype Stage = Disable | ReadBack | MarkDisabled | Revoke | Count | MarkRevoked | Witness | MarkDenied
    | MarkVerified | Fail | Recheck

  datatype ContainCall = ContainCall(id: string, op: string, begun: nat, stage: Stage)

  datatype Kind = IdentityDisable | IdentityRead | SessionRevoke | SessionCount | DenialWitness

  /** One call to the identity provider or to the denial witness. */
  datatype Effect = Effect(kind: Kind, op: string, id: string, ok: bool, begun: nat)

  /** A rollback past its fence check at run position `checkedAt`. */
  datatype Rollback = Rollback(id: string, checkedAt: nat, progress: Progress)

  datatype Progress = Passed | Reviewed | Loaded(at: nat, base: Record, next: Record)

  datatype World = World(ledger: Ledger, contains: multiset<ContainCall>, rollbacks: multiset<Rollback>,
                         effects: seq<Effect>)

  datatype Step =
    | DoPut(record: Record, identical: bool, accepted: bool)
    | DoBegin(id: string, op: string, prior: Option<string>, accepted: bool)
    | DoContain(contain: ContainCall, called: bool, ok: bool)
    | DoCheck(target: string)
    | DoReview(rollback: Rollback, confirmed: bool)
    | DoLoad(rollback: Rollback)
    | DoRestore(rollback: Rollback, identical: bool, accepted: bool)

  function Moved(w: World, p: ContainCall, stage: Stage): World
  {
    w.(contains := w.contains - multiset{p} + multiset{p.(stage := stage)})
  }

  function Ended(w: World, p: ContainCall): World { w.(contains := w.contains - multiset{p}) }

  function Called(w: World, p: ContainCall, kind: Kind, ok: bool): World
  {
    w.(effects := w.effects + [Effect(kind, p.op, p.id, ok, p.begun)])
  }

  /** A call to the provider or witness: not made at all, failed, or confirmed. */
  function Act(w: World, p: ContainCall, kind: Kind, next: Stage, called: bool, ok: bool): World
  {
    if !called then Moved(w, p, Fail) else Moved(Called(w, p, kind, ok), p, if ok then next else Fail)
  }

  function Mark(w: World, p: ContainCall, phase: Phase): World { w.(ledger := MarkTx(w.ledger, p.op, phase)) }

  function Journal(w: World, p: ContainCall, phase: Phase, next: Stage, ok: bool): World
  {
    if ok then Moved(Mark(w, p, phase), p, next) else Moved(w, p, Fail)
  }

  /** One step of a containment call after its fence. */
  function Advance(w: World, p: ContainCall, called: bool, ok: bool): World
  {
    match p.stage
    case Disable => Act(w, p, IdentityDisable, ReadBack, called, ok)
    case ReadBack => Act(w, p, IdentityRead, MarkDisabled, called, ok)
    case MarkDisabled => Journal(w, p, IdentityDisabled, Revoke, ok)
    case Revoke => Act(w, p, SessionRevoke, Count, called, ok)
    case Count => Act(w, p, SessionCount, MarkRevoked, called, ok)
    case MarkRevoked => Journal(w, p, SessionsRevoked, Witness, ok)
    case Witness => Act(w, p, DenialWitness, MarkDenied, called, ok)
    case MarkDenied => Journal(w, p, TokensDenied, MarkVerified, ok)
    case MarkVerified => if ok then Ended(Mark(w, p, PhaseVerified), p) else Moved(w, p, Fail)
    case Fail => if ok then Ended(Mark(w, p, PhaseUnknown), p) else Ended(w, p)
    case Recheck =>
      if !called then Ended(w, p)
      else
        var v := Called(Called(Called(w, p, IdentityRead, ok), p, SessionCount, ok), p, DenialWitness, ok);
        if ok then Ended(v, p) else Moved(v, p, Fail)
  }

  function Replaced(w: World, p: Rollback, next: Option<Progress>): World
  {
    var rest := w.rollbacks - multiset{p};
    w.(rollbacks := if next.None? then rest else rest + multiset{p.(progress := next.value)})
  }

  predicate Rollbackable(rules: Rules, l: Ledger, id: string)
  {
    id in l.rows && Structural(rules, l.rows[id]) && !Protected(l.rows[id].state)
    && CanTransition(l.rows[id].state, RolledBack)
  }

  function Load(rules: Rules, l: Ledger, id: string, at: nat): Option<Progress>
  {
    if id !in l.rows || !Structural(rules, l.rows[id]) then None
    else
      var next := Transition(rules, l.rows[id], RolledBack);
      if next.None? then None else Some(Loaded(at, l.rows[id], next.value))
  }

  function Stored(w: World, l: Option<Ledger>): World { if l.None? then w else w.(ledger := l.value) }

  /** The world after one step from the world at run position `at`; the database may refuse any write. */
  function Apply(rules: Rules, w: World, at: nat, s: Step): World
  {
    match s
    case DoPut(r, identical, accepted) => if accepted then Stored(w, PutTx(rules, w.ledger, r, identical)) else w
    case DoBegin(id, op, prior, accepted) =>
      var l := BeginTx(rules, w.ledger, id, op, prior);
      if !accepted || l.None? then w
      else
        var verified := op in l.value.operations && l.value.operations[op].phase == PhaseVerified;
        w.(ledger := l.value,
           contains := w.contains + multiset{ContainCall(id, op, at + 1, if verified then Recheck else Disable)})
    case DoContain(p, called, ok) => if p in w.contains then Advance(w, p, called, ok) else w
    case DoCheck(id) =>
      if id in w.ledger.fences then w else w.(rollbacks := w.rollbacks + multiset{Rollback(id, at, Passed)})
    case DoReview(p, confirmed) =>
      if p !in w.rollbacks || p.progress != Passed then w
      else Replaced(w, p, if confirmed && Rollbackable(rules, w.ledger, p.id) then Some(Reviewed) else None)
    case DoLoad(p) =>
      if p !in w.rollbacks || p.progress != Reviewed then w else Replaced(w, p, Load(rules, w.ledger, p.id, at))
    case DoRestore(p, identical, accepted) =>
      if p !in w.rollbacks || !p.progress.Loaded? then w
      else
        var v := Replaced(w, p, None);
        if accepted then Stored(v, PutTx(rules, w.ledger, p.progress.next, identical)) else v
  }

  ghost predicate Plausible(w: World, s: Step)
  {
    s.DoBegin? ==> PriorAnswer(w.ledger, s.id, s.prior)
  }

  const Initial := World(EMPTY, multiset{}, multiset{}, [])

  ghost predicate Follows(rules: Rules, steps: seq<Step>, ws: seq<World>, i: nat)
    requires i < |steps| < |ws|
  {
    Plausible(ws[i], steps[i]) && ws[i + 1] == Apply(rules, ws[i], i, steps[i])
  }

  ghost predicate Run(rules: Rules, steps: seq<Step>, ws: seq<World>)
  {
    && |ws| == |steps| + 1 && ws[0] == Initial
    && forall i: nat {:trigger Follows(rules, steps, ws, i)} :: i < |steps| ==> Follows(rules, steps, ws, i)
  }

  /* ---- The ledger along a run ---- */

  /** The phase a containment step journals, if it journals one. */
  function Journals(p: ContainCall, ok: bool): Option<Phase>
  {
    if !ok then None
    else
      match p.stage
      case MarkDisabled => Some(IdentityDisabled)
      case MarkRevoked => Some(SessionsRevoked)
      case MarkDenied => Some(TokensDenied)
      case MarkVerified => Some(PhaseVerified)
      case Fail => Some(PhaseUnknown)
      case _ => None
  }

  /** Containment steps touch the ledger only through the journal. */
  lemma AdvanceLedger(w: World, p: ContainCall, called: bool, ok: bool)
    ensures var j := Journals(p, ok);
            Advance(w, p, called, ok).ledger == if j.Some? then MarkTx(w.ledger, p.op, j.value) else w.ledger
  {
  }

  lemma StepKeeps(rules: Rules, w: World, at: nat, s: Step)
    requires Sound(w.ledger) && Plausible(w, s)
    ensures Sound(Apply(rules, w, at, s).ledger) && Extends(w.ledger, Apply(rules, w, at, s).ledger)
  {
    var l, m := w.ledger, Apply(rules, w, at, s).ledger;
    Unchanged(l);
    if m != l {
      match s
      case DoPut(r, identical, _) => PutKeeps(rules, l, r, identical);
      case DoBegin(id, op, prior, _) => BeginKeeps(rules, l, id, op, prior);
      case DoContain(p, called, ok) =>
        AdvanceLedger(w, p, called, ok);
        MarkKeeps(l, p.op, Journals(p, ok).value);
      case DoRestore(p, identical, _) => PutKeeps(rules, l, p.progress.next, identical);
    }
  }

  lemma {:induction false} RunIsSound(rules: Rules, steps: seq<Step>, ws: seq<World>, n: nat)
    requires Run(rules, steps, ws) && n < |ws|
    ensures Sound(ws[n].ledger)
  {
    if n > 0 {
      RunIsSound(rules, steps, ws, n - 1);
      assert Follows(rules, steps, ws, n - 1);
      StepKeeps(rules, ws[n - 1], n - 1, steps[n - 1]);
    }
  }

  lemma StepExtends(rules: Rules, steps: seq<Step>, ws: seq<World>, i: nat, l: Ledger)
    requires Run(rules, steps, ws) && i < |steps| && l == ws[i + 1].ledger
    ensures Extends(ws[i].ledger, l)
  {
    RunIsSound(rules, steps, ws, i);
    assert Follows(rules, steps, ws, i);
    StepKeeps(rules, ws[i], i, steps[i]);
  }

  /** Rows, histories, fences and operations are never taken back, and an equal revision means an equal row. */
  lemma {:induction false} RunExtends(rules: Rules, steps: seq<Step>, ws: seq<World>, i: nat, n: nat)
    requires Run(rules, steps, ws) && i <= n < |ws|
    ensures Extends(ws[i].ledger, ws[n].ledger)
  {
    if i == n {
      Unchanged(ws[n].ledger);
    } else {
      var l := ws[n].ledger;
      RunExtends(rules, steps, ws, i, n - 1);
      StepExtends(rules, steps, ws, n - 1, l);
      ExtendsTransitive(ws[i].ledger, ws[n - 1].ledger, l);
    }
  }

  /** The persisted states of a row form a path of allowed transitions from DISCOVERED, one per revision. */
  lemma RowIsPath(rules: Rules, steps: seq<Step>, ws: seq<World>, n: nat, id: string)
    requires Run(rules, steps, ws) && n < |ws| && id in ws[n].ledger.rows
    ensures var r := ws[n].ledger.rows[id];
            && id in ws[n].ledger.history
            && var h := ws[n].ledger.history[id];
            && |h| == r.revision > 0 && h[0].to == Discovered && h[|h| - 1].to == r.state && !Protected(r.state)
            && (forall i :: 0 <= i < |h| ==> h[i].revision == i + 1 && !Protected(h[i].to))
            && (forall i :: 0 <= i < |h| - 1 ==> Edge(h[i].to, h[i + 1].to))
  {
    RunIsSound(rules, steps, ws, n);
    var r, h := ws[n].ledger.rows[id], ws[n].ledger.history[id];
    assert RowSound(r, h) && Linked(h, 0) && Linked(h, |h| - 1);
    forall i | 0 <= i < |h| ensures h[i].revision == i + 1 && !Protected(h[i].to) { assert Linked(h, i); }
    forall i | 0 <= i < |h| - 1 ensures Edge(h[i].to, h[i + 1].to) { assert Linked(h, i + 1); }
  }

  /** The record a step may write. */
  function Written(s: Step): Option<Record>
  {
    match s
    case DoPut(r, _, _) => Some(r)
    case DoRestore(p, _, _) => if p.progress.Loaded? then Some(p.progress.next) else None
    case _ => None
  }

  /** Between two tables a row stays, moves one revision on under the write rules, or appears as DISCOVERED. */
  ghost predicate RowMoved(a: map<string, Record>, b: map<string, Record>, id: string)
  {
    && (id in a ==> id in b && (b[id] == a[id] || Steps(a[id], b[id])))
    && (id !in a && id in b ==> b[id].revision == 1 && b[id].state == Discovered)
  }

  lemma WriteMovesRow(rules: Rules, l: Ledger, r: Record, identical: bool, id: string)
    requires PutTx(rules, l, r, identical).Some?
    ensures RowMoved(l.rows, PutTx(rules, l, r, identical).value.rows, id)
  {
    PutEffect(rules, l, r, identical);
  }

  lemma BeginMovesRow(rules: Rules, l: Ledger, x: string, op: string, prior: Option<string>, id: string)
    requires Sound(l) && BeginTx(rules, l, x, op, prior).Some?
    ensures RowMoved(l.rows, BeginTx(rules, l, x, op, prior).value.rows, id)
  {
    SecludeMovesRow(l, x, id);
    assert BeginTx(rules, l, x, op, prior).value.rows == Seclude(l, x).rows;
  }

  lemma SecludeMovesRow(l: Ledger, x: string, id: string)
    requires x in l.rows && l.rows[x].id == x && Containable(l.rows[x])
    ensures RowMoved(l.rows, Seclude(l, x).rows, id)
  {
    assert l.rows[x].state != Quarantined ==> Steps(l.rows[x], Quarantine(l.rows[x]));
  }

  /** A step leaves a row alone, inserts it as DISCOVERED, or rewrites it one revision later under the write rules. */
  lemma StepMovesRow(rules: Rules, w: World, at: nat, s: Step, m: Ledger, id: string)
    requires Sound(w.ledger) && m == Apply(rules, w, at, s).ledger
    ensures RowMoved(w.ledger.rows, m.rows, id)
  {
    var l := w.ledger;
    if m != l {
      match s
      case DoPut(r, identical, _) => WriteMovesRow(rules, l, r, identical, id);
      case DoRestore(p, identical, _) => WriteMovesRow(rules, l, p.progress.next, identical, id);
      case DoBegin(x, op, prior, _) => BeginMovesRow(rules, l, x, op, prior, id);
      case DoContain(p, called, ok) =>
        AdvanceLedger(w, p, called, ok);
        assert m.rows == l.rows;
    }
  }

  /** After insertion a target is bound at most once, and only from PROVISIONING to PROVISIONING. */
  lemma TargetBoundOnce(rules: Rules, steps: seq<Step>, ws: seq<World>, i: nat, n: nat, id: string)
    requires Run(rules, steps, ws) && i < n < |ws| && id in ws[i].ledger.rows
    ensures id in ws[n].ledger.rows && SameIdentity(ws[i].ledger.rows[id], ws[n].ledger.rows[id])
    ensures ws[i].ledger.rows[id].target != NO_ACCOUNT ==> ws[n].ledger.rows[id].target == ws[i].ledger.rows[id].target
    ensures id in ws[i + 1].ledger.rows
         && (ws[i + 1].ledger.rows[id].target != ws[i].ledger.rows[id].target ==>
               ws[i].ledger.rows[id].state == Provisioning && ws[i + 1].ledger.rows[id].state == Provisioning)
  {
    RunExtends(rules, steps, ws, i, n);
    RunIsSound(rules, steps, ws, i);
    assert Follows(rules, steps, ws, i);
    StepMovesRow(rules, ws[i], i, steps[i], ws[i + 1].ledger, id);
  }

  lemma WriterBumps(rules: Rules, w: World, at: nat, s: Step, r: Record)
    requires Written(s) == Some(r) && Apply(rules, w, at, s).ledger != w.ledger
    ensures var m := Apply(rules, w, at, s).ledger; r.id in m.rows && m.rows[r.id].revision == r.revision + 1
  {
    PutEffect(rules, w.ledger, r, s.identical);
  }

  lemma StaleWriteRefused(rules: Rules, w: World, at: nat, s: Step, q: Record)
    requires Written(s) == Some(q) && q.id in w.ledger.rows && q.revision != w.ledger.rows[q.id].revision
    ensures Apply(rules, w, at, s).ledger == w.ledger
  {
  }

  /** Two writers that started from one revision of a row cannot both change it. */
  lemma OneWriterPerRevision(rules: Rules, steps: seq<Step>, ws: seq<World>, i: nat, j: nat, r: Record, q: Record)
    requires Run(rules, steps, ws) && i < j < |steps|
    requires Written(steps[i]) == Some(r) && Written(steps[j]) == Some(q) && r.id == q.id && r.revision == q.revision
    requires ws[i + 1].ledger != ws[i].ledger
    ensures ws[j + 1].ledger == ws[j].ledger
  {
    var l := ws[i + 1].ledger;
    assert Follows(rules, steps, ws, i) && Follows(rules, steps, ws, j);
    WriterBumps(rules, ws[i], i, steps[i], r);
    RunExtends(rules, steps, ws, i + 1, j);
    assert Later(l.rows[r.id], ws[j].ledger.rows[r.id]);
    StaleWriteRefused(rules, ws[j], j, steps[j], q);
  }
}
