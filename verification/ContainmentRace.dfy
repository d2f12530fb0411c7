/**
 * A run in which a rollback wins against the fence, for every admitted row and operation: it passes its check, the
 * row is fenced and quarantined, an operator releases the row for review, and the rollback then loads and writes it.
 */
module ContainmentRace {
  import opened Storage
  import opened Text
  import opened MigrationLedger
  import opened MigrationRuns
  import opened Containment

  /** A human row with its target bound, as a caller first registers it, and an operation ID the rules accept. */
  datatype Race = Race(rules: Rules, row: Record, op: string)

  predicate Admitted(z: Race)
  {
    && Structural(z.rules, z.row) && Bounded(z.row) && z.row.revision == 0 && z.row.state == Discovered
    && z.row.class_ in {HumanClass, PrivilegedHuman, FederatedHuman, TestOrNonProduction} && z.row.id != ""
    && z.row.target.issuer != "" && z.row.target.subject != "" && z.row.canonicalId != "" && z.rules.operationId(z.op)
  }

  function RowAt(z: Race, revision: int, state: State): Record { z.row.(revision := revision, state := state) }

  function Change(revision: int, from: State, to: State): Event { Event(revision, Some(from), to, StateChanged) }

  const H1 := [Event(1, None, Discovered, RowDiscovered)]
  const H2 := H1 + [Change(2, Discovered, FailedManualReview)]
  const H3 := H2 + [Change(3, FailedManualReview, Quarantined)]
  const H4 := H3 + [Change(4, Quarantined, FailedManualReview)]
  const H5 := H4 + [Change(5, FailedManualReview, RolledBack)]

  /** The ledger that holds just this row. */
  function Only(r: Record, h: seq<Event>, operations: map<string, Operation>, fences: map<string, Fence>): Ledger
  {
    Ledger(map[r.id := r], map[r.id := h], operations, fences)
  }

  function Journal(z: Race): map<string, Operation>
  {
    map[z.op := Operation(z.row.id, z.row.target.issuer, z.row.target.subject, Pending)]
  }

  function Fences(z: Race): map<string, Fence> { map[z.row.id := FenceOf(z.row)] }

  function L1(z: Race): Ledger { Only(RowAt(z, 1, Discovered), H1, map[], map[]) }

  function L2(z: Race): Ledger { Only(RowAt(z, 2, FailedManualReview), H2, map[], map[]) }

  function L3(z: Race): Ledger { Only(RowAt(z, 3, Quarantined), H3, Journal(z), Fences(z)) }

  function L4(z: Race): Ledger { Only(RowAt(z, 4, FailedManualReview), H4, Journal(z), Fences(z)) }

  function L5(z: Race): Ledger { Only(RowAt(z, 5, RolledBack), H5, Journal(z), Fences(z)) }

  function Waiting(z: Race, p: Progress): Rollback { Rollback(z.row.id, 2, p) }

  function Call(z: Race): ContainCall { ContainCall(z.row.id, z.op, 5, Disable) }

  function LoadedRow(z: Race): Progress { Loaded(6, RowAt(z, 4, FailedManualReview), RowAt(z, 4, RolledBack)) }

  function RaceStep(z: Race, i: nat): Step
  {
    match i
    case 0 => DoPut(z.row, false, true)
    case 1 => DoPut(RowAt(z, 1, FailedManualReview), false, true)
    case 2 => DoCheck(z.row.id)
    case 3 => DoReview(Waiting(z, Passed), true)
    case 4 => DoBegin(z.row.id, z.op, None, true)
    case 5 => DoPut(RowAt(z, 3, FailedManualReview), false, true)
    case 6 => DoLoad(Waiting(z, Reviewed))
    case _ => DoRestore(Waiting(z, LoadedRow(z)), false, true)
  }

  function W1(z: Race): World { World(L1(z), multiset{}, multiset{}, []) }

  function W2(z: Race): World { World(L2(z), multiset{}, multiset{}, []) }

  function W3(z: Race): World { World(L2(z), multiset{}, multiset{Waiting(z, Passed)}, []) }

  function W4(z: Race): World { World(L2(z), multiset{}, multiset{Waiting(z, Reviewed)}, []) }

  function W5(z: Race): World { World(L3(z), multiset{Call(z)}, multiset{Waiting(z, Reviewed)}, []) }

  function W6(z: Race): World { World(L4(z), multiset{Call(z)}, multiset{Waiting(z, Reviewed)}, []) }

  function W7(z: Race): World { World(L4(z), multiset{Call(z)}, multiset{Waiting(z, LoadedRow(z))}, []) }

  function W8(z: Race): World { World(L5(z), multiset{Call(z)}, multiset{}, []) }

  lemma RowValid(z: Race, revision: nat, state: State)
    requires Admitted(z) && TargetOptional(state)
    ensures Structural(z.rules, RowAt(z, revision, state)) && Bounded(RowAt(z, revision, state))
  {
  }

  lemma WriteImage(l: Ledger, a: Record, h: seq<Event>, r: Record)
    requires l == Only(a, h, l.operations, l.fences) && r.id == a.id && r.state != a.state
    ensures Write(l, r) == Only(r, h + [Change(r.revision, a.state, r.state)], l.operations, l.fences)
  {
    assert Find(l.rows, r.id) == Some(a) && PastOf(l, r.id) == h;
    assert l.rows[r.id := r] == map[r.id := r];
  }

  /** One write of the row: its ledger image is the next revision. */
  lemma RowWritten(z: Race, l: Ledger, h: seq<Event>, revision: nat, from: State, to: State)
    requires Admitted(z) && revision > 0 && l == Only(RowAt(z, revision, from), h, l.operations, l.fences)
    requires from != to && CanTransition(from, to) && TargetOptional(from) && TargetOptional(to)
    ensures PutTx(z.rules, l, RowAt(z, revision, to), false)
         == Some(Only(RowAt(z, revision + 1, to), h + [Change(revision + 1, from, to)], l.operations, l.fences))
  {
    var a, r := RowAt(z, revision, from), RowAt(z, revision, to);
    RowValid(z, revision, from);
    RowValid(z, revision, to);
    assert r.id in l.rows && l.rows[r.id] == a;
    assert PutTx(z.rules, l, r, false) == Some(Write(l, r.(revision := revision + 1)));
    WriteImage(l, a, h, RowAt(z, revision + 1, to));
  }

  lemma RowInserted(z: Race)
    requires Admitted(z)
    ensures PutTx(z.rules, EMPTY, z.row, false) == Some(L1(z))
  {
    assert PutTx(z.rules, EMPTY, z.row, false) == Some(Write(EMPTY, RowAt(z, 1, Discovered)));
    assert Find(EMPTY.rows, z.row.id) == None && PastOf(EMPTY, z.row.id) == [];
    assert [] + H1 == H1;
  }

  lemma FenceCommitted(z: Race)
    requires Admitted(z)
    ensures BeginTx(z.rules, L2(z), z.row.id, z.op, None) == Some(L3(z))
  {
    WriteImage(L2(z), RowAt(z, 2, FailedManualReview), H2, RowAt(z, 3, Quarantined));
    assert z.row.id in L2(z).rows && L2(z).rows[z.row.id] == RowAt(z, 2, FailedManualReview);
    assert FenceOf(L2(z).rows[z.row.id]) == FenceOf(z.row);
  }

  lemma RollbackLoaded(z: Race)
    requires Admitted(z)
    ensures Load(z.rules, L4(z), z.row.id, 6) == Some(LoadedRow(z))
  {
    RowValid(z, 4, FailedManualReview);
    RowValid(z, 4, RolledBack);
    assert z.row.id in L4(z).rows && L4(z).rows[z.row.id] == RowAt(z, 4, FailedManualReview);
  }

  lemma FirstSteps(z: Race)
    requires Admitted(z)
    ensures Apply(z.rules, Initial, 0, RaceStep(z, 0)) == W1(z) && Apply(z.rules, W1(z), 1, RaceStep(z, 1)) == W2(z)
  {
    RowInserted(z);
    RowWritten(z, L1(z), H1, 1, Discovered, FailedManualReview);
  }

  lemma RollbackStarts(z: Race)
    requires Admitted(z)
    ensures Apply(z.rules, W2(z), 2, RaceStep(z, 2)) == W3(z) && Apply(z.rules, W3(z), 3, RaceStep(z, 3)) == W4(z)
  {
    RowValid(z, 2, FailedManualReview);
    assert z.row.id in L2(z).rows && L2(z).rows[z.row.id] == RowAt(z, 2, FailedManualReview);
    assert Rollbackable(z.rules, L2(z), z.row.id);
  }

  lemma FenceCommits(z: Race)
    requires Admitted(z)
    ensures Apply(z.rules, W4(z), 4, RaceStep(z, 4)) == W5(z) && Plausible(W4(z), RaceStep(z, 4))
  {
    FenceCommitted(z);
  }

  lemma RowReleased(z: Race)
    requires Admitted(z)
    ensures Apply(z.rules, W5(z), 5, RaceStep(z, 5)) == W6(z)
  {
    RowWritten(z, L3(z), H3, 3, Quarantined, FailedManualReview);
  }

  lemma RollbackFinishes(z: Race)
    requires Admitted(z)
    ensures Apply(z.rules, W6(z), 6, RaceStep(z, 6)) == W7(z) && Apply(z.rules, W7(z), 7, RaceStep(z, 7)) == W8(z)
  {
    RollbackLoaded(z);
    RowWritten(z, L4(z), H4, 4, FailedManualReview, RolledBack);
  }

  /** A run that has reached `w`. */
  ghost predicate Reaches(rules: Rules, steps: seq<Step>, ws: seq<World>, w: World)
  {
    Run(rules, steps, ws) && ws[|steps|] == w
  }

  lemma Extend(rules: Rules, steps: seq<Step>, ws: seq<World>, w: World, s: Step, v: World)
    requires Reaches(rules, steps, ws, w) && Plausible(w, s) && v == Apply(rules, w, |steps|, s)
    ensures Reaches(rules, steps + [s], ws + [v], v)
  {
    var ss, vs := steps + [s], ws + [v];
    forall i: nat | i < |ss| ensures Follows(rules, ss, vs, i) {
      if i < |steps| {
        assert Follows(rules, steps, ws, i);
        assert ss[i] == steps[i] && vs[i] == ws[i] && vs[i + 1] == ws[i + 1];
      } else {
        assert ss[i] == s && vs[i] == w && vs[i + 1] == v;
      }
    }
  }

  lemma ToSecond(z: Race) returns (steps: seq<Step>, ws: seq<World>)
    requires Admitted(z)
    ensures |steps| == 2 && Reaches(z.rules, steps, ws, W2(z))
  {
    FirstSteps(z);
    assert Reaches(z.rules, [], [Initial], Initial);
    Extend(z.rules, [], [Initial], Initial, RaceStep(z, 0), W1(z));
    Extend(z.rules, [] + [RaceStep(z, 0)], [Initial] + [W1(z)], W1(z), RaceStep(z, 1), W2(z));
    steps, ws := [] + [RaceStep(z, 0)] + [RaceStep(z, 1)], [Initial] + [W1(z)] + [W2(z)];
  }

  lemma ToFourth(z: Race, steps: seq<Step>, ws: seq<World>)
    requires Admitted(z) && |steps| == 2 && Reaches(z.rules, steps, ws, W2(z))
    ensures Reaches(z.rules, steps + [RaceStep(z, 2)] + [RaceStep(z, 3)], ws + [W3(z)] + [W4(z)], W4(z))
  {
    RollbackStarts(z);
    Extend(z.rules, steps, ws, W2(z), RaceStep(z, 2), W3(z));
    Extend(z.rules, steps + [RaceStep(z, 2)], ws + [W3(z)], W3(z), RaceStep(z, 3), W4(z));
  }

  lemma ToFifth(z: Race, steps: seq<Step>, ws: seq<World>)
    requires Admitted(z) && |steps| == 4 && Reaches(z.rules, steps, ws, W4(z))
    ensures Reaches(z.rules, steps + [RaceStep(z, 4)], ws + [W5(z)], W5(z))
  {
    FenceCommits(z);
    Extend(z.rules, steps, ws, W4(z), RaceStep(z, 4), W5(z));
  }

  lemma ToSixth(z: Race, steps: seq<Step>, ws: seq<World>)
    requires Admitted(z) && |steps| == 5 && Reaches(z.rules, steps, ws, W5(z))
    ensures Reaches(z.rules, steps + [RaceStep(z, 5)], ws + [W6(z)], W6(z))
  {
    RowReleased(z);
    Extend(z.rules, steps, ws, W5(z), RaceStep(z, 5), W6(z));
  }

  lemma ToEighth(z: Race, steps: seq<Step>, ws: seq<World>)
    requires Admitted(z) && |steps| == 6 && Reaches(z.rules, steps, ws, W6(z))
    ensures Reaches(z.rules, steps + [RaceStep(z, 6)] + [RaceStep(z, 7)], ws + [W7(z)] + [W8(z)], W8(z))
  {
    RollbackFinishes(z);
    Extend(z.rules, steps, ws, W6(z), RaceStep(z, 6), W7(z));
    Extend(z.rules, steps + [RaceStep(z, 6)], ws + [W7(z)], W7(z), RaceStep(z, 7), W8(z));
  }

  /** Releasing a fenced row lets a rollback that was already past its check move it to ROLLED_BACK. */
  lemma ReleaseLetsRollbackThrough(z: Race) returns (steps: seq<Step>, ws: seq<World>)
    requires Admitted(z)
    ensures Run(z.rules, steps, ws) && |steps| == 8 && steps[7].DoRestore? && Fenced(ws[5].ledger, z.row.id)
    ensures var l := ws[8].ledger; z.row.id in l.fences && z.row.id in l.rows && l.rows[z.row.id].state == RolledBack
  {
    var s2, w2 := ToSecond(z);
    ToFourth(z, s2, w2);
    var s4, w4 := s2 + [RaceStep(z, 2)] + [RaceStep(z, 3)], w2 + [W3(z)] + [W4(z)];
    ToFifth(z, s4, w4);
    ToSixth(z, s4 + [RaceStep(z, 4)], w4 + [W5(z)]);
    var s6, w6 := s4 + [RaceStep(z, 4)] + [RaceStep(z, 5)], w4 + [W5(z)] + [W6(z)];
    ToEighth(z, s6, w6);
    steps, ws := s6 + [RaceStep(z, 6)] + [RaceStep(z, 7)], w6 + [W7(z)] + [W8(z)];
    assert ws[5] == W5(z) && ws[8] == W8(z) && steps[7] == RaceStep(z, 7);
  }

  /* ---- With the code's own rules ---- */

  const MARKERS := ["password=", "client_secret=", "totp_secret", "private_key", "-----begin"]

  function LowerCase(s: string): string
  {
    seq(|s|, i requires 0 <= i < |s| => if 'A' <= s[i] <= 'Z' then ((s[i] as int) + 32) as char else s[i])
  }

  predicate OccursAt(needle: string, hay: string, i: nat) { i + |needle| <= |hay| && hay[i..i + |needle|] == needle }

  predicate Occurs(needle: string, hay: string) { exists i :: 0 <= i <= |hay| && OccursAt(needle, hay, i) }

  predicate Sensitive(s: string)
  {
    exists k :: 0 <= k < |MARKERS| && Occurs(MARKERS[k], LowerCase(Trim(s)))
  }

  /** A lower-case letter or digit, then 15 to 159 letters, digits, underscores or hyphens. */
  predicate OperationId(s: string)
  {
    && 16 <= |s| <= 160 && s[0] != '_' && s[0] != '-'
    && forall i :: 0 <= i < |s| ==> 'a' <= s[i] <= 'z' || '0' <= s[i] <= '9' || s[i] == '_' || s[i] == '-'
  }

  const RULES := Rules(Sensitive, OperationId)
  const ROW := Record(0, "m", "", "c", Account("keycloak", "i", "s"), Account("ory", "j", "t"), HumanClass,
                      NoCredential, Discovered, "", "", "", 0, "", 1, None, None, None, None)

  lemma ShortIsHarmless(s: string)
    requires |Trim(s)| < 9
    ensures !Sensitive(s)
  {
    assert forall k :: 0 <= k < |MARKERS| ==> |MARKERS[k]| >= 9;
  }

  lemma Printed(s: string)
    requires s != "" && 'a' <= s[0] <= 'z'
    ensures !Blank(s)
  {
    assert !Space(s[0]);
  }

  const RACE := Race(RULES, ROW, "operation-000001")

  lemma RaceAdmitted()
    ensures Admitted(RACE)
  {
    ShortIsHarmless("m");
    ShortIsHarmless("");
    Printed("m");
    Printed("c");
    Printed("keycloak");
    Printed("i");
    Printed("s");
    assert Structural(RULES, ROW);
  }

  /** The race exists under the real operation grammar and the real markers. */
  lemma RaceHappens() returns (steps: seq<Step>, ws: seq<World>)
    ensures Run(RULES, steps, ws) && |steps| == 8 && steps[7].DoRestore? && Fenced(ws[5].ledger, "m")
    ensures var l := ws[8].ledger; "m" in l.fences && "m" in l.rows && l.rows["m"].state == RolledBack
  {
    RaceAdmitted();
    steps, ws := ReleaseLetsRollbackThrough(RACE);
  }
}
