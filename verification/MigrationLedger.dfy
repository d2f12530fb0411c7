/** The durable migration ledger: its state graph, revision-checked writes, deny fences and containment journal. */
module MigrationLedger {
  import opened Storage
  import opened Models
  import opened Text

  datatype State =
    | Discovered | Validated | Ready | Provisioning | Provisioned | CredentialPending | CredentialReady
    | VerificationPending | VerifiedState | CutoverReady | Cutover | LegacyRetired
    | Blocked | FailedRetryable | FailedManualReview | RolledBack | Quarantined | UnknownState

  datatype Class = HumanClass | WorkloadClass | PrivilegedHuman | BreakGlass | FederatedHuman
    | ServiceIntegration | TestOrNonProduction | OrphanCandidate | UnknownClass

  datatype Strategy = DirectImport | FirstLogin | ReEnrolment | FederatedRebind | PasskeyReEnrolment
    | MfaReEnrolment | NoCredential | UnknownStrategy

  datatype Account = Account(provider: string, issuer: string, subject: string)

  const NO_ACCOUNT := Account("", "", "")

  datatype Record = Record(
    revision: int, id: string, batchId: string, canonicalId: string, source: Account, target: Account,
    class_: Class, strategy: Strategy, state: State, verificationState: string, cutoverState: string,
    snapshotReference: string, attempts: int, lastError: string, createdAt: Time,
    startedAt: Option<Time>, verifiedAt: Option<Time>, cutoverAt: Option<Time>, retiredAt: Option<Time>)

  /** Markers of secret material, and the operation ID grammar, left arbitrary. */
  datatype Rules = Rules(sensitive: string -> bool, operationId: string -> bool)

  /* ---- The state graph ---- */

  function Allowed(s: State): set<State>
  {
    match s
    case Discovered => {Validated, Blocked, FailedManualReview, Quarantined}
    case Validated => {Ready, Blocked, FailedManualReview, Quarantined}
    case Ready => {Provisioning, Blocked, FailedRetryable, FailedManualReview, Quarantined}
    case Provisioning => {Provisioned, FailedRetryable, FailedManualReview, RolledBack, Quarantined}
    case Provisioned => {CredentialPending, CredentialReady, FailedRetryable, FailedManualReview, RolledBack,
                         Quarantined}
    case CredentialPending => {CredentialReady, FailedRetryable, FailedManualReview, Quarantined}
    case CredentialReady => {VerificationPending, FailedRetryable, FailedManualReview, Quarantined}
    case VerificationPending => {VerifiedState, FailedRetryable, FailedManualReview, Quarantined}
    case VerifiedState => {CutoverReady, FailedManualReview, Quarantined}
    case CutoverReady => {Cutover, FailedManualReview, RolledBack, Quarantined}
    case Cutover => {LegacyRetired, RolledBack, Quarantined}
    case LegacyRetired => {}
    case Blocked => {Validated, Ready, FailedManualReview, Quarantined}
    case FailedRetryable => {Ready, Provisioning, CredentialPending, VerificationPending, FailedManualReview,
                             Quarantined, RolledBack}
    case FailedManualReview => {Ready, Quarantined, RolledBack}
    case RolledBack => {Ready, Quarantined}
    case Quarantined => {FailedManualReview}
    case UnknownState => {}
  }

  predicate CanTransition(from: State, to: State) { to in Allowed(from) }

  predicate TargetOptional(s: State)
  {
    s in {Discovered, Validated, Ready, Provisioning, Blocked, FailedRetryable, FailedManualReview, RolledBack,
          Quarantined}
  }

  predicate Protected(s: State) { s == Cutover || s == LegacyRetired }

  predicate Structural(rules: Rules, r: Record)
  {
    && !Blank(r.id) && r.revision >= 0 && (Blank(r.canonicalId) ==> r.class_ == OrphanCandidate)
    && !Blank(r.source.issuer) && !Blank(r.source.subject) && !Blank(r.source.provider)
    && (!TargetOptional(r.state) ==> !Blank(r.target.issuer) && !Blank(r.target.subject))
    && r.class_ != UnknownClass && r.strategy != UnknownStrategy && r.state != UnknownState
    && !rules.sensitive(r.snapshotReference) && !rules.sensitive(r.lastError) && !rules.sensitive(r.id)
  }

  predicate Bounded(r: Record)
  {
    |r.id| <= 160 && |r.canonicalId| <= 160 && |r.batchId| <= 160 && |r.source.issuer| <= 2048
    && |r.source.subject| <= 512 && |r.source.provider| <= 40
  }

  /** An orphan may only be set aside, never executed. */
  predicate MayAdvance(r: Record, to: State)
  {
    r.class_ == OrphanCandidate || r.canonicalId == "" ==>
      to == Blocked || to == FailedManualReview || to == Quarantined
  }

  predicate Counted(to: State)
  {
    to == Provisioning || to == CredentialPending || to == VerificationPending || to == Cutover
  }

  function Transition(rules: Rules, r: Record, to: State): Option<Record>
  {
    var moved := r.(state := to, attempts := if Counted(to) then r.attempts + 1 else r.attempts);
    if CanTransition(r.state, to) && MayAdvance(r, to) && Structural(rules, moved) then Some(moved) else None
  }

  /** The time stamps the service writes on entering a state. */
  function Stamped(r: Record, to: State, now: Time): Record
  {
    match to
    case Provisioning => if r.startedAt.None? then r.(startedAt := Some(now)) else r
    case Ready => if r.startedAt.None? then r.(startedAt := Some(now)) else r
    case VerifiedState => r.(verifiedAt := Some(now))
    case Cutover => r.(cutoverAt := Some(now))
    case LegacyRetired => r.(retiredAt := Some(now))
    case _ => r
  }

  /* ---- The ledger ---- */

  datatype EventKind = RowDiscovered | StateChanged | TargetBound | Reconciled

  datatype Event = Event(revision: int, from: Option<State>, to: State, kind: EventKind)

  datatype Phase = Pending | IdentityDisabled | SessionsRevoked | TokensDenied | PhaseVerified | PhaseUnknown

  datatype Operation = Operation(id: string, issuer: string, subject: string, phase: Phase)

  datatype Fence = Fence(sourceIssuer: string, sourceSubject: string, targetIssuer: string, targetSubject: string)

  datatype Ledger = Ledger(rows: map<string, Record>, history: map<string, seq<Event>>,
                           operations: map<string, Operation>, fences: map<string, Fence>)

  const EMPTY := Ledger(map[], map[], map[], map[])

  function PastOf(l: Ledger, id: string): seq<Event> { if id in l.history then l.history[id] else [] }

  /** The history row a write appends in the same transaction. */
  function Logged(before: Option<Record>, r: Record): Event
  {
    match before
    case None => Event(r.revision, None, r.state, RowDiscovered)
    case Some(b) =>
      Event(r.revision, Some(b.state), r.state,
            if r.state != b.state then StateChanged else if r.target != b.target then TargetBound else Reconciled)
  }

  function Write(l: Ledger, r: Record): Ledger
  {
    l.(rows := l.rows[r.id := r], history := l.history[r.id := PastOf(l, r.id) + [Logged(Find(l.rows, r.id), r)]])
  }

  predicate SameIdentity(a: Record, b: Record)
  {
    a.id == b.id && a.batchId == b.batchId && a.canonicalId == b.canonicalId && a.source == b.source
    && a.class_ == b.class_ && a.strategy == b.strategy && a.createdAt == b.createdAt
  }

  predicate TargetAllowed(a: Record, b: Record)
  {
    && (a.target != NO_ACCOUNT ==> a.target == b.target)
    && (a.target != b.target ==> a.state == Provisioning && b.state == Provisioning && b.target != NO_ACCOUNT)
  }

  /**
   * The revision-checked write. `identical` says whether the two in-memory records also agree in
   * representation, which is when a repeated write is recognised and skipped.
   */
  function PutTx(rules: Rules, l: Ledger, r: Record, identical: bool): Option<Ledger>
  {
    if !Structural(rules, r) || !Bounded(r) || Protected(r.state) then None
    else if r.id !in l.rows then
      if r.revision != 0 || r.state != Discovered then None else Some(Write(l, r.(revision := 1)))
    else
      var a := l.rows[r.id];
      if !Structural(rules, a) || a.revision != r.revision || !SameIdentity(a, r) || !TargetAllowed(a, r)
         || (a.state != r.state && !CanTransition(a.state, r.state)) then None
      else if a == r && identical then Some(l)
      else Some(Write(l, r.(revision := a.revision + 1)))
  }

  /** Whether `prior` may answer the query for an operation journalled for this migration. */
  ghost predicate PriorAnswer(l: Ledger, id: string, prior: Option<string>)
  {
    match prior
    case Some(op) => op in l.operations && l.operations[op].id == id
    case None => forall op :: op in l.operations ==> l.operations[op].id != id
  }

  predicate Containable(r: Record)
  {
    && r.class_ in {HumanClass, PrivilegedHuman, FederatedHuman, TestOrNonProduction}
    && r.target.issuer != "" && r.target.subject != "" && r.canonicalId != ""
    && r.state != LegacyRetired && r.state != Discovered
    && (r.state == Quarantined || CanTransition(r.state, Quarantined))
  }

  function FenceOf(r: Record): Fence { Fence(r.source.issuer, r.source.subject, r.target.issuer, r.target.subject) }

  function Quarantine(r: Record): Record { r.(state := Quarantined, revision := r.revision + 1) }

  /** Journal the operation, persist the deny fence and quarantine the row, all before any provider call. */
  function BeginTx(rules: Rules, l: Ledger, id: string, op: string, prior: Option<string>): Option<Ledger>
  {
    if !rules.operationId(op) || id == "" || id !in l.rows || !Containable(l.rows[id])
       || (prior.Some? && prior.value != op) || (prior.None? && op in l.operations)
       || (id in l.fences && l.fences[id] != FenceOf(l.rows[id])) then None
    else
      var r := l.rows[id];
      var q := if r.state == Quarantined then l else Write(l, Quarantine(r));
      Some(q.(fences := l.fences[id := FenceOf(r)],
              operations := if prior.None?
                            then l.operations[op := Operation(id, r.target.issuer, r.target.subject, Pending)]
                            else l.operations))
  }

  /** A verified operation only ever turns unknown. */
  function MarkTx(l: Ledger, op: string, phase: Phase): Ledger
  {
    if op in l.operations && (l.operations[op].phase != PhaseVerified || phase == PhaseUnknown)
    then l.(operations := l.operations[op := l.operations[op].(phase := phase)])
    else l
  }

  /* ---- What every write keeps ---- */

  predicate Edge(from: State, to: State) { from == to || CanTransition(from, to) }

  predicate Linked(h: seq<Event>, i: nat)
    requires i < |h|
  {
    && h[i].revision == i + 1 && !Protected(h[i].to)
    && if i == 0 then h[0].from.None? && h[0].to == Discovered
       else h[i].from == Some(h[i - 1].to) && Edge(h[i - 1].to, h[i].to)
  }

  /** The history of a row: revisions 1..n, a path of allowed transitions with stutters from DISCOVERED. */
  ghost predicate Path(h: seq<Event>)
  {
    forall i: nat {:trigger Linked(h, i)} :: i < |h| ==> Linked(h, i)
  }

  ghost predicate RowSound(r: Record, h: seq<Event>)
  {
    Path(h) && 0 < |h| == r.revision && h[|h| - 1].to == r.state
  }

  ghost predicate RowsSound(rows: map<string, Record>, history: map<string, seq<Event>>)
  {
    && history.Keys == rows.Keys
    && forall id :: id in rows ==> rows[id].id == id && Bounded(rows[id]) && RowSound(rows[id], history[id])
  }

  /** Every fence still names the row's own source and target. */
  ghost predicate FencesSound(rows: map<string, Record>, fences: map<string, Fence>)
  {
    forall id :: id in fences ==> id in rows && fences[id] == FenceOf(rows[id]) && rows[id].target.issuer != ""
  }

  /** One operation per migration, which is fenced. */
  ghost predicate JournalSound(operations: map<string, Operation>, fences: map<string, Fence>)
  {
    && (forall op :: op in operations ==> operations[op].id in fences)
    && (forall p, q :: p in operations && q in operations && operations[p].id == operations[q].id ==> p == q)
  }

  ghost predicate Sound(l: Ledger)
  {
    RowsSound(l.rows, l.history) && FencesSound(l.rows, l.fences) && JournalSound(l.operations, l.fences)
  }

  /** How one write changes a row. */
  predicate Steps(a: Record, b: Record)
  {
    b.revision == a.revision + 1 && SameIdentity(a, b) && TargetAllowed(a, b) && Edge(a.state, b.state)
    && !Protected(b.state)
  }

  /** How a row may look any number of writes later; equal revisions mean equal rows. */
  predicate Later(a: Record, b: Record)
  {
    && SameIdentity(a, b) && a.revision <= b.revision && (a.revision == b.revision ==> a == b)
    && (a.target != NO_ACCOUNT ==> a.target == b.target)
  }

  ghost predicate RowsLater(a: map<string, Record>, b: map<string, Record>)
  {
    forall id :: id in a ==> id in b && Later(a[id], b[id])
  }

  /** History is only appended to. */
  predicate Continues(a: seq<Event>, b: seq<Event>) { a <= b }

  ghost predicate HistoryLater(a: map<string, seq<Event>>, b: map<string, seq<Event>>)
  {
    forall id :: id in a ==> id in b && Continues(a[id], b[id])
  }

  ghost predicate FencesLater(a: map<string, Fence>, b: map<string, Fence>)
  {
    forall id :: id in a ==> id in b && b[id] == a[id]
  }

  ghost predicate JournalLater(a: map<string, Operation>, b: map<string, Operation>)
  {
    forall op :: op in a ==> op in b && b[op].id == a[op].id
  }

  /** Nothing is ever taken back. */
  ghost predicate Extends(l: Ledger, m: Ledger)
  {
    RowsLater(l.rows, m.rows) && HistoryLater(l.history, m.history) && FencesLater(l.fences, m.fences)
    && JournalLater(l.operations, m.operations)
  }

  lemma ExtendsTransitive(l: Ledger, m: Ledger, n: Ledger)
    requires Extends(l, m) && Extends(m, n)
    ensures Extends(l, n)
  {
  }

  lemma Unchanged(l: Ledger)
    ensures Extends(l, l)
  {
  }

  lemma PathGrows(h: seq<Event>, e: Event)
    requires Path(h) && h != [] && !Protected(e.to)
    requires e.revision == |h| + 1 && e.from == Some(h[|h| - 1].to) && Edge(h[|h| - 1].to, e.to)
    ensures Path(h + [e])
  {
    forall i: nat | i < |h + [e]| ensures Linked(h + [e], i) {
      if i < |h| { assert Linked(h, i); }
    }
  }

  lemma InsertExtends(l: Ledger, r: Record)
    requires r.id !in l.rows && r.id !in l.history
    ensures Extends(l, Write(l, r))
  {
    var m := Write(l, r);
    Unchanged(l);
    assert HistoryLater(l.history, m.history);
  }

  lemma InsertKeeps(l: Ledger, r: Record)
    requires Sound(l) && r.id !in l.rows && r.revision == 1 && r.state == Discovered && Bounded(r)
    ensures Sound(Write(l, r))
  {
    var m := Write(l, r);
    assert m.history[r.id] == [Logged(None, r)];
    assert Linked(m.history[r.id], 0);
    assert RowSound(r, m.history[r.id]);
    assert RowsSound(m.rows, m.history);
  }

  lemma UpdateExtends(l: Ledger, r: Record)
    requires r.id in l.rows && r.id in l.history && Steps(l.rows[r.id], r)
    ensures Extends(l, Write(l, r))
  {
    var m := Write(l, r);
    Unchanged(l);
    assert RowsLater(l.rows, m.rows);
    assert HistoryLater(l.history, m.history);
  }

  lemma UpdateKeeps(l: Ledger, r: Record)
    requires Sound(l) && r.id in l.rows && Steps(l.rows[r.id], r)
    ensures Sound(Write(l, r)) && Extends(l, Write(l, r))
  {
    var m, a := Write(l, r), l.rows[r.id];
    assert RowSound(a, l.history[r.id]);
    PathGrows(l.history[r.id], Logged(Some(a), r));
    assert RowSound(r, m.history[r.id]);
    assert RowsSound(m.rows, m.history);
    assert FencesSound(m.rows, m.fences);
    UpdateExtends(l, r);
  }

  /** What a successful write does to the row it names. */
  lemma PutEffect(rules: Rules, l: Ledger, r: Record, identical: bool)
    requires PutTx(rules, l, r, identical).Some?
    ensures var m := PutTx(rules, l, r, identical).value;
            if r.id !in l.rows
            then r.revision == 0 && r.state == Discovered && Bounded(r) && m == Write(l, r.(revision := 1))
            else if m == l then l.rows[r.id].revision == r.revision
            else
              var n := r.(revision := r.revision + 1);
              l.rows[r.id].revision == r.revision && Steps(l.rows[r.id], n) && m == Write(l, n)
  {
  }

  lemma PutKeeps(rules: Rules, l: Ledger, r: Record, identical: bool)
    requires Sound(l) && PutTx(rules, l, r, identical).Some?
    ensures var m := PutTx(rules, l, r, identical).value; Sound(m) && Extends(l, m)
  {
    var m := PutTx(rules, l, r, identical).value;
    PutEffect(rules, l, r, identical);
    if r.id !in l.rows {
      InsertKeeps(l, r.(revision := 1));
      InsertExtends(l, r.(revision := 1));
    } else if m != l {
      UpdateKeeps(l, r.(revision := r.revision + 1));
    }
  }

  /** Quarantining a row that is not quarantined yet is one ordinary write. */
  function Seclude(l: Ledger, id: string): Ledger
    requires id in l.rows
  {
    if l.rows[id].state == Quarantined then l else Write(l, Quarantine(l.rows[id]))
  }

  lemma SecludeKeeps(l: Ledger, id: string)
    requires Sound(l) && id in l.rows && Containable(l.rows[id])
    ensures var m := Seclude(l, id);
            && Sound(m) && Extends(l, m) && id in m.rows && m.rows[id].state == Quarantined
            && FenceOf(m.rows[id]) == FenceOf(l.rows[id]) && m.fences == l.fences && m.operations == l.operations
  {
    assert l.rows[id].id == id;
    if l.rows[id].state != Quarantined { UpdateKeeps(l, Quarantine(l.rows[id])); }
  }

  lemma FencingKeeps(m: Ledger, id: string, op: string, prior: Option<string>)
    requires Sound(m) && id in m.rows && m.rows[id].target.issuer != ""
             && (id in m.fences ==> m.fences[id] == FenceOf(m.rows[id]))
    requires PriorAnswer(m, id, prior) && (prior.None? ==> op !in m.operations)
    ensures var r := m.rows[id];
            var fences := m.fences[id := FenceOf(r)];
            var journal := if prior.Some? then m.operations
                           else m.operations[op := Operation(id, r.target.issuer, r.target.subject, Pending)];
            && FencesSound(m.rows, fences) && JournalSound(journal, fences)
            && FencesLater(m.fences, fences) && JournalLater(m.operations, journal)
  {
  }

  /** Begin commits the fence, the journal entry and the quarantine together. */
  lemma BeginKeeps(rules: Rules, l: Ledger, id: string, op: string, prior: Option<string>)
    requires Sound(l) && PriorAnswer(l, id, prior) && BeginTx(rules, l, id, op, prior).Some?
    ensures var m := BeginTx(rules, l, id, op, prior).value;
            && Sound(m) && Extends(l, m) && id in m.rows && m.rows[id].state == Quarantined
            && id in m.fences && op in m.operations && m.operations[op].id == id
  {
    var m := BeginTx(rules, l, id, op, prior).value;
    var q := Seclude(l, id);
    SecludeKeeps(l, id);
    assert l.rows[id].target == q.rows[id].target;
    FencingKeeps(q, id, op, prior);
    assert m == q.(fences := m.fences, operations := m.operations);
    assert m.fences == q.fences[id := FenceOf(q.rows[id])];
  }

  /** Marking changes one operation's phase, and nothing else. */
  lemma MarkEffect(l: Ledger, op: string, phase: Phase)
    ensures var m := MarkTx(l, op, phase);
            && m == l.(operations := m.operations) && m.operations.Keys == l.operations.Keys
            && (forall o :: o in m.operations ==>
                  m.operations[o] == l.operations[o]
                  || (o == op && m.operations[o] == l.operations[o].(phase := phase)))
  {
  }

  lemma JournalByIds(a: map<string, Operation>, b: map<string, Operation>, fences: map<string, Fence>)
    requires JournalSound(a, fences) && a.Keys == b.Keys && forall o :: o in b ==> b[o].id == a[o].id
    ensures JournalSound(b, fences) && JournalLater(a, b)
  {
  }

  lemma MarkKeeps(l: Ledger, op: string, phase: Phase)
    requires Sound(l)
    ensures Sound(MarkTx(l, op, phase)) && Extends(l, MarkTx(l, op, phase))
  {
    Unchanged(l);
    MarkEffect(l, op, phase);
    JournalByIds(l.operations, MarkTx(l, op, phase).operations, l.fences);
  }

  lemma TransitionKeeps(rules: Rules, a: Record, to: State, now: Time)
    requires Transition(rules, a, to).Some?
    ensures var r := Stamped(Transition(rules, a, to).value, to, now);
            Structural(rules, r) && r.revision == a.revision && SameIdentity(a, r) && r.target == a.target
            && r.state == to
            && CanTransition(a.state, to) && (Bounded(a) ==> Bounded(r))
  {
  }

  /** A transition the service makes from the stored row is one the store accepts while the row is unchanged. */
  lemma TransitionIsStorable(rules: Rules, l: Ledger, id: string, to: State, now: Time, identical: bool)
    requires id in l.rows && l.rows[id].id == id && Structural(rules, l.rows[id]) && Bounded(l.rows[id])
    requires Transition(rules, l.rows[id], to).Some?
    ensures PutTx(rules, l, Stamped(Transition(rules, l.rows[id], to).value, to, now), identical).Some?
            <==> !Protected(to)
  {
    TransitionKeeps(rules, l.rows[id], to, now);
  }
}
