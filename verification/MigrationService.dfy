/** The migration store and service as objects: a record being edited, the durable tables, and the calls on them. */
module MigrationService {
  import opened Storage
  import opened Models
  import opened Text
  import opened MigrationLedger

  /** A record in the hands of a caller, edited in place. */
  class Draft {
    var r: Record

    constructor (record: Record)
      ensures r == record
    {
      r := record;
    }

    /** Moves the record if the edge is allowed; a refused move leaves it as it was. */
    method Move(rules: Rules, to: State) returns (ok: bool)
      modifies this
      ensures ok <==> Transition(rules, old(r), to).Some?
      ensures r == if ok then Transition(rules, old(r), to).value else old(r)
    {
      if !CanTransition(r.state, to) || !MayAdvance(r, to) { return false; }
      var previous := r.state;
      r := r.(state := to);
      if !Structural(rules, r) {
        r := r.(state := previous);
        return false;
      }
      if Counted(to) { r := r.(attempts := r.attempts + 1); }
      ok := Structural(rules, r);
    }
  }

  /** The service's policy gate; without one the default denies every production cutover. */
  datatype Gate = DefaultGate | Gate(allows: (string, State, State) -> bool)

  predicate Permits(gate: Gate, id: string, from: State, to: State)
  {
    if gate.DefaultGate? then !Protected(to) else gate.allows(id, from, to)
  }

  /** The record a transition of the stored row produces, if policy and graph allow it. */
  function Moving(rules: Rules, gate: Gate, l: Ledger, id: string, to: State, now: Time): Option<Record>
  {
    if id !in l.rows || !Structural(rules, l.rows[id]) || !Permits(gate, id, l.rows[id].state, to) then None
    else
      var t := Transition(rules, l.rows[id], to);
      if t.None? then None else Some(Stamped(t.value, to, now))
  }

  /** The record a target binding of the stored row produces. */
  function BindingOf(rules: Rules, l: Ledger, id: string, target: Account): Option<Record>
  {
    var t := Account(Trim(target.provider), Trim(target.issuer), Trim(target.subject));
    if t.provider == "" || t.issuer == "" || t.subject == "" || id !in l.rows || !Structural(rules, l.rows[id])
       || !Structural(rules, l.rows[id].(target := t)) then None
    else Some(l.rows[id].(target := t))
  }

  /** The ledger after an attempted write, which the database may refuse. */
  function Attempt(rules: Rules, l: Ledger, r: Option<Record>, identical: bool, accepted: bool): Option<Ledger>
  {
    if r.None? || !accepted then None else PutTx(rules, l, r.value, identical)
  }

  function Settle(l: Ledger, after: Option<Ledger>): Ledger { if after.Some? then after.value else l }

  /** A write, accepted or not, keeps the ledger sound and takes nothing back. */
  lemma AttemptKeeps(rules: Rules, l: Ledger, r: Option<Record>, identical: bool, accepted: bool)
    ensures var m := Settle(l, Attempt(rules, l, r, identical, accepted)); Sound(l) ==> Sound(m) && Extends(l, m)
  {
    Unchanged(l);
    if Sound(l) && Attempt(rules, l, r, identical, accepted).Some? { PutKeeps(rules, l, r.value, identical); }
  }

  /** So does a containment, whichever earlier operation its query finds. */
  lemma BeginSettles(rules: Rules, l: Ledger, id: string, op: string)
    ensures Extends(l, l)
    ensures Sound(l) ==>
              forall prior :: PriorAnswer(l, id, prior) && BeginTx(rules, l, id, op, prior).Some? ==>
                var m := BeginTx(rules, l, id, op, prior).value; Sound(m) && Extends(l, m)
  {
    Unchanged(l);
    if Sound(l) {
      forall prior | PriorAnswer(l, id, prior) && BeginTx(rules, l, id, op, prior).Some?
        ensures var m := BeginTx(rules, l, id, op, prior).value; Sound(m) && Extends(l, m)
      {
        BeginKeeps(rules, l, id, op, prior);
      }
    }
  }

  class Store {
    const rules: Rules
    var rows: map<string, Record>
    var history: map<string, seq<Event>>
    var operations: map<string, Operation>
    var fences: map<string, Fence>

    function View(): Ledger
      reads this
    {
      Ledger(rows, history, operations, fences)
    }

    constructor (r: Rules)
      ensures rules == r && View() == EMPTY
    {
      rules := r;
      rows, history, operations, fences := map[], map[], map[], map[];
    }

    /** What is handed out is the head of the row's history. */
    method Get(id: string) returns (r: Option<Record>)
      ensures r.Some? <==> id in rows && Structural(rules, rows[id])
      ensures r.Some? ==> r.value == rows[id]
      ensures r.Some? && RowsSound(rows, history) ==>
                var h := history[id]; r.value.id == id && r.value.revision == |h| > 0 && r.value.state == h[|h| - 1].to
    {
      r := if id in rows && Structural(rules, rows[id]) then Some(rows[id]) else None;
    }

    /** Writes a row together with the history entry its trigger appends. */
    method WriteRow(r: Record)
      modifies this
      ensures View() == Write(old(View()), r)
    {
      var event := Logged(Find(rows, r.id), r);
      history := history[r.id := (if r.id in history then history[r.id] else []) + [event]];
      rows := rows[r.id := r];
    }

    /** Writes a caller's record under a new revision, which the caller's record takes too. */
    method WriteDraft(d: Draft, revision: int)
      modifies this, d
      ensures d.r == old(d.r).(revision := revision) && View() == Write(old(View()), d.r)
    {
      d.r := d.r.(revision := revision);
      WriteRow(d.r);
    }

    /** The checks of a write against the stored row, and the write. */
    method CheckAndWrite(d: Draft, identical: bool, accepted: bool) returns (ok: bool)
      modifies this, d
      ensures var after := Attempt(rules, old(View()), Some(old(d.r)), identical, accepted);
              (ok <==> after.Some?) && View() == Settle(old(View()), after)
      ensures !ok ==> d.r == old(d.r)
      ensures ok ==>
                d.r.id in rows && rows[d.r.id].revision == d.r.revision
                && d.r == old(d.r).(revision := d.r.revision)
    {
      var r := d.r;
      if !Structural(rules, r) || !Bounded(r) || Protected(r.state) || !accepted { return false; }
      if r.id !in rows {
        if r.revision != 0 || r.state != Discovered { return false; }
        WriteDraft(d, 1);
        return true;
      }
      var a := rows[r.id];
      if !Structural(rules, a) || a.revision != r.revision || !SameIdentity(a, r) || !TargetAllowed(a, r) {
        return false;
      }
      if a.state != r.state && !CanTransition(a.state, r.state) { return false; }
      if a == r && identical { return true; }
      WriteDraft(d, a.revision + 1);
      ok := true;
    }

    /** The revision-checked write; the caller's record takes the new revision. */
    method Put(d: Draft, identical: bool, accepted: bool) returns (ok: bool)
      modifies this, d
      ensures var after := Attempt(rules, old(View()), Some(old(d.r)), identical, accepted);
              (ok <==> after.Some?) && View() == Settle(old(View()), after)
      ensures !ok ==> d.r == old(d.r)
      ensures ok ==>
                d.r.id in rows && rows[d.r.id].revision == d.r.revision
                && d.r == old(d.r).(revision := d.r.revision)
      ensures old(Sound(View())) ==> Sound(View()) && Extends(old(View()), View())
    {
      AttemptKeeps(rules, View(), Some(d.r), identical, accepted);
      ok := CheckAndWrite(d, identical, accepted);
    }

    /** Loads a row, moves it past the policy gate and stores it. */
    method ApplyTransition(gate: Gate, id: string, to: State, now: Time, identical: bool, accepted: bool)
      returns (ok: bool)
      modifies this
      ensures var after := Attempt(rules, old(View()), Moving(rules, gate, old(View()), id, to, now), identical,
                                   accepted);
              (ok <==> after.Some?) && View() == Settle(old(View()), after)
      ensures old(Sound(View())) ==> Sound(View()) && Extends(old(View()), View())
    {
      AttemptKeeps(rules, View(), Moving(rules, gate, View(), id, to, now), identical, accepted);
      var r := Get(id);
      if r.None? || !Permits(gate, id, r.value.state, to) { return false; }
      var d := new Draft(r.value);
      ok := d.Move(rules, to);
      if ok {
        d.r := Stamped(d.r, to, now);
        ok := Put(d, identical, accepted);
      }
    }

    /** Loads a row, attaches its target and stores it. */
    method SetTargetBinding(id: string, target: Account, identical: bool, accepted: bool) returns (ok: bool)
      modifies this
      ensures var after := Attempt(rules, old(View()), BindingOf(rules, old(View()), id, target), identical, accepted);
              (ok <==> after.Some?) && View() == Settle(old(View()), after)
      ensures old(Sound(View())) ==> Sound(View()) && Extends(old(View()), View())
    {
      AttemptKeeps(rules, View(), BindingOf(rules, View(), id, target), identical, accepted);
      var t := Account(Trim(target.provider), Trim(target.issuer), Trim(target.subject));
      if t.issuer == "" || t.subject == "" || t.provider == "" { return false; }
      var r := Get(id);
      if r.None? { return false; }
      var d := new Draft(r.value.(target := t));
      if !Structural(rules, d.r) { return false; }
      ok := Put(d, identical, accepted);
    }

    /** Some operation journalled for the migration, if there is one. */
    method Prior(id: string) returns (prior: Option<string>)
      ensures PriorAnswer(View(), id, prior)
    {
      if op :| op in operations && operations[op].id == id { prior := Some(op); } else { prior := None; }
    }

    /** Journal entry, fence and quarantine. */
    method FenceAndJournal(id: string, op: string) returns (phase: Option<Phase>, ghost prior: Option<string>)
      modifies this
      ensures PriorAnswer(old(View()), id, prior)
      ensures var after := BeginTx(rules, old(View()), id, op, prior);
              (phase.Some? <==> after.Some?) && View() == if phase.Some? then after.value else old(View())
      ensures phase.Some? ==> op in operations && phase.value == operations[op].phase
    {
      var found := Prior(id);
      prior := found;
      if !rules.operationId(op) || id == "" || id !in rows || !Containable(rows[id]) { return None, prior; }
      var r := rows[id];
      if found.Some? && found.value != op { return None, prior; }
      if found.None? && op in operations { return None, prior; }
      if id in fences && fences[id] != FenceOf(r) { return None, prior; }
      if found.None? { operations := operations[op := Operation(id, r.target.issuer, r.target.subject, Pending)]; }
      fences := fences[id := FenceOf(r)];
      if r.state != Quarantined { WriteRow(Quarantine(r)); }
      phase := Some(operations[op].phase);
    }

    /** The containment transaction before any provider call. */
    method Begin(id: string, op: string) returns (phase: Option<Phase>, ghost prior: Option<string>)
      modifies this
      ensures PriorAnswer(old(View()), id, prior)
      ensures var after := BeginTx(rules, old(View()), id, op, prior);
              (phase.Some? <==> after.Some?) && View() == if phase.Some? then after.value else old(View())
      ensures phase.Some? ==> op in operations && phase.value == operations[op].phase
      ensures old(Sound(View())) ==> Sound(View()) && Extends(old(View()), View())
    {
      BeginSettles(rules, View(), id, op);
      phase, prior := FenceAndJournal(id, op);
    }

    /** Moves one operation's phase; a verified one only to unknown. Rows, fences and other operations stay. */
    method MarkPhase(op: string, phase: Phase)
      modifies this
      ensures View() == MarkTx(old(View()), op, phase)
      ensures rows == old(rows) && history == old(history) && fences == old(fences)
              && operations.Keys == old(operations).Keys
      ensures forall o :: o in operations && o != op ==> operations[o] == old(operations)[o]
      ensures op in operations ==>
                var was, now := old(operations)[op], operations[op];
                && now == was.(phase := now.phase) && (now.phase == phase || was.phase == now.phase == PhaseVerified)
                && (was.phase == PhaseVerified ==> now.phase == PhaseVerified || now.phase == PhaseUnknown)
      ensures old(Sound(View())) ==> Sound(View()) && Extends(old(View()), View())
    {
      ghost var before := View();
      if op in operations && (operations[op].phase != PhaseVerified || phase == PhaseUnknown) {
        operations := operations[op := operations[op].(phase := phase)];
      }
      if Sound(before) { MarkKeeps(before, op, phase); }
    }

    /** A rollback that nothing interleaves with: never of a fenced row, and only along an allowed edge. */
    method RollbackPreCutover(gate: Gate, id: string, confirmed: bool, now: Time, identical: bool, accepted: bool)
      returns (ok: bool)
      modifies this
      ensures var after := Attempt(rules, old(View()), Moving(rules, gate, old(View()), id, RolledBack, now), identical,
                                   accepted);
              && (ok <==>
                    id !in old(fences) && confirmed && id in old(rows) && !Protected(old(rows)[id].state)
                    && after.Some?)
              && View() == if ok then after.value else old(View())
      ensures old(Sound(View())) ==> Sound(View()) && Extends(old(View()), View())
    {
      Unchanged(View());
      if id in fences { return false; }
      var r := Get(id);
      if r.None? || Protected(r.value.state) || !CanTransition(r.value.state, RolledBack) || !confirmed {
        return false;
      }
      ok := ApplyTransition(gate, id, RolledBack, now, identical, accepted);
    }
  }

  lemma MovedRecord(rules: Rules, gate: Gate, l: Ledger, id: string, to: State, now: Time)
    requires Moving(rules, gate, l, id, to, now).Some?
    ensures var r := Moving(rules, gate, l, id, to, now).value;
            && id in l.rows && r.id == l.rows[id].id && r.state == to && r.revision == l.rows[id].revision
            && CanTransition(l.rows[id].state, to) && r.state != l.rows[id].state
  {
    NoSelfEdge(l.rows[id].state, to);
  }

  lemma WrittenRow(rules: Rules, l: Ledger, r: Record, identical: bool)
    requires r.id in l.rows && r.state != l.rows[r.id].state && PutTx(rules, l, r, identical).Some?
    ensures PutTx(rules, l, r, identical).value == Write(l, r.(revision := r.revision + 1))
  {
  }

  /** A transition that was stored moved exactly its row, by one revision, to the state asked for. */
  lemma TransitionStored(rules: Rules, gate: Gate, l: Ledger, id: string, to: State, now: Time, identical: bool)
    requires Sound(l) && Attempt(rules, l, Moving(rules, gate, l, id, to, now), identical, true).Some?
    ensures var m := Attempt(rules, l, Moving(rules, gate, l, id, to, now), identical, true).value;
            && m.rows.Keys == l.rows.Keys && id in m.rows && CanTransition(l.rows[id].state, to)
            && m.rows[id].state == to && m.rows[id].revision == l.rows[id].revision + 1
            && (forall x :: x in l.rows && x != id ==> m.rows[x] == l.rows[x])
  {
    assert l.rows[id].id == id;
    MovedRecord(rules, gate, l, id, to, now);
    WrittenRow(rules, l, Moving(rules, gate, l, id, to, now).value, identical);
  }

  /** Whatever the gate allows, no row is ever stored in a cutover or retired state. */
  lemma NoGateStoresCutover(rules: Rules, gate: Gate, l: Ledger, id: string, to: State, now: Time, identical: bool,
                            accepted: bool)
    requires Protected(to)
    ensures Attempt(rules, l, Moving(rules, gate, l, id, to, now), identical, accepted).None?
  {
    if Moving(rules, gate, l, id, to, now).Some? { MovedRecord(rules, gate, l, id, to, now); }
  }

  lemma NoSelfEdge(s: State, t: State)
    requires CanTransition(s, t)
    ensures s != t
  {
  }
}
