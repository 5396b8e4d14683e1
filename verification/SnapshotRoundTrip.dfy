/** Taking a snapshot and restoring it are inverse to each other, exactly for the tables in which no
    two steps share both their stage name and their step name. */
module SnapshotRoundTrip {
  import opened Names
  import opened Engine

  ghost predicate AllValid(records: seq<StepRecord>) {
    forall k :: 0 <= k < |records| ==> Valid(records[k].status)
  }

  lemma {:induction false} StatusInAppend(a: seq<StepRecord>, b: seq<StepRecord>, g: StageName, s: StepName)
    requires AllValid(b)
    ensures StatusIn(a + b, g, s) == if Valid(StatusIn(b, g, s)) then StatusIn(b, g, s) else StatusIn(a, g, s)
  {
    if b == [] {
      assert a + b == a;
    } else {
      var n := |b| - 1;
      assert (a + b)[..|a + b| - 1] == a + b[..n];
      StatusInAppend(a, b[..n], g, s);
    }
  }

  lemma {:induction false} RowValid(stage: Stage, row: seq<Status>)
    requires |row| == |stage.steps|
    ensures AllValid(CollectRow(stage, row))
    decreases |row|
  {
    if row != [] {
      RowValid(Stage(stage.name, stage.steps[..|row| - 1]), row[..|row| - 1]);
    }
  }

  predicate Named(stages: seq<Stage>, i: nat, j: nat, g: StageName, s: StepName)
    requires i < |stages| && j < |stages[i].steps|
  {
    stages[i].name == g && stages[i].steps[j].name == s
  }

  /** No two steps of the table share both names. */
  predicate UniquePairs(stages: seq<Stage>) {
    forall i, j, k, l ::
      0 <= i < |stages| && 0 <= j < |stages[i].steps| && 0 <= k < |stages| && 0 <= l < |stages[k].steps| ==>
      Named(stages, k, l, stages[i].name, stages[i].steps[j].name) ==> i == k && j == l
  }

  /** `k` is the only step of the stage with these names, or -1 if it has none. */
  lemma {:induction false} StatusInRow(stage: Stage, row: seq<Status>, g: StageName, s: StepName, k: int)
    requires |row| == |stage.steps| && -1 <= k < |row|
    requires k >= 0 ==> stage.name == g && stage.steps[k].name == s
    requires forall j :: 0 <= j < |row| && j != k ==> !(stage.name == g && stage.steps[j].name == s)
    ensures StatusIn(CollectRow(stage, row), g, s) == if k >= 0 then row[k] else NoStatus
    decreases |row|
  {
    if row != [] {
      var n := |row| - 1;
      var last := if Valid(row[n]) then [StepRecord(stage.name, stage.steps[n].name, row[n])] else [];
      var before := Stage(stage.name, stage.steps[..n]);
      StatusInRow(before, row[..n], g, s, if k < n then k else -1);
      assert StatusIn(last, g, s) == if k == n then row[n] else NoStatus;
      StatusInAppend(CollectRow(before, row[..n]), last, g, s);
    }
  }

  /** Step `k` of stage `i` is the only one with these names; with `k` -1 there is none. */
  predicate Only(stages: seq<Stage>, g: StageName, s: StepName, i: int, k: int) {
    && -1 <= i < |stages| && -1 <= k && (k >= 0 ==> i >= 0 && k < |stages[i].steps| && Named(stages, i, k, g, s))
    && forall a, b :: 0 <= a < |stages| && 0 <= b < |stages[a].steps| && Named(stages, a, b, g, s) ==>
       k >= 0 && a == i && b == k
  }

  lemma {:induction false} StatusInTable(stages: seq<Stage>, rows: seq<seq<Status>>, g: StageName, s: StepName, i: int,
                                         k: int)
    requires Shaped(stages, rows) && Only(stages, g, s, i, k)
    ensures StatusIn(Collect(stages, rows), g, s) == if k >= 0 then rows[i][k] else NoStatus
    decreases |stages|, 1
  {
    if stages != [] {
      var n := |stages| - 1;
      StatusInFirst(stages, rows, g, s, i, k);
      StatusInLast(stages, rows[n], g, s, i, k);
      RowValid(stages[n], rows[n]);
      StatusInAppend(Collect(stages[..n], rows[..n]), CollectRow(stages[n], rows[n]), g, s);
    }
  }

  /** The same for the last stage alone. */
  lemma StatusInLast(stages: seq<Stage>, row: seq<Status>, g: StageName, s: StepName, i: int, k: int)
    requires stages != [] && |row| == |stages[|stages| - 1].steps| && Only(stages, g, s, i, k)
    ensures var n := |stages| - 1;
            StatusIn(CollectRow(stages[n], row), g, s) == if i == n && k >= 0 then row[k] else NoStatus
  {
    var n := |stages| - 1;
    forall b | 0 <= b < |row|
      ensures Named(stages, n, b, g, s) == (stages[n].name == g && stages[n].steps[b].name == s) {
    }
    StatusInRow(stages[n], row, g, s, if i == n then k else -1);
  }

  /** The same for all stages but the last. */
  lemma {:induction false} StatusInFirst(stages: seq<Stage>, rows: seq<seq<Status>>, g: StageName, s: StepName, i: int,
                                         k: int)
    requires stages != [] && Shaped(stages, rows) && Only(stages, g, s, i, k)
    ensures var n := |stages| - 1;
            StatusIn(Collect(stages[..n], rows[..n]), g, s) == if i < n && k >= 0 then rows[i][k] else NoStatus
    decreases |stages|, 0
  {
    var n := |stages| - 1;
    forall a, b | 0 <= a < n && 0 <= b < |stages[a].steps|
      ensures Named(stages[..n], a, b, g, s) == Named(stages, a, b, g, s) {
    }
    StatusInTable(stages[..n], rows[..n], g, s, if i < n then i else -1, if i < n then k else -1);
  }

  /** Restoring the snapshot of a workflow gives back the status of every step. */
  lemma RestoreCollect(stages: seq<Stage>, rows: seq<seq<Status>>)
    requires Shaped(stages, rows) && UniquePairs(stages)
    ensures Restore(stages, Collect(stages, rows)) == rows
  {
    var restored := Restore(stages, Collect(stages, rows));
    forall i | 0 <= i < |stages| ensures restored[i] == rows[i] {
      forall j | 0 <= j < |rows[i]| ensures restored[i][j] == rows[i][j] {
        assert Named(stages, i, j, stages[i].name, stages[i].steps[j].name);
        StatusInTable(stages, rows, stages[i].name, stages[i].steps[j].name, i, j);
      }
    }
  }

  /** A snapshot survives being restored and taken again, and so does the workflow state. */
  lemma RoundTrip<W>(m: Machine<W>, mem: Memory<W>, world: W, log: seq<Call>)
    requires Shaped(m.stages, mem.rows) && UniquePairs(m.stages)
    ensures var again := Load(m, SnapshotOf(m, mem), world, log);
            again.rows == mem.rows && again.state == mem.state && SnapshotOf(m, again) == SnapshotOf(m, mem)
  {
    RestoreCollect(m.stages, mem.rows);
  }

  /** The statuses in which one step alone is completed. */
  function OnlyOne(stages: seq<Stage>, i: nat, j: nat): (rows: seq<seq<Status>>)
    ensures Shaped(stages, rows)
    ensures forall a, b :: 0 <= a < |stages| && 0 <= b < |stages[a].steps| ==>
              rows[a][b] == if a == i && b == j then Completed else NoStatus
  {
    seq(|stages|, a requires 0 <= a < |stages| =>
      seq(|stages[a].steps|, b requires 0 <= b < |stages[a].steps| => if a == i && b == j then Completed else NoStatus))
  }

  ghost predicate AlwaysRestores(stages: seq<Stage>) {
    forall rows :: Shaped(stages, rows) ==> Restore(stages, Collect(stages, rows)) == rows
  }

  /** Every status of every step survives if and only if no two steps share both names. The check a
      workflow makes before it runs is only for steps of one stage. */
  lemma RoundTripIff(stages: seq<Stage>)
    ensures AlwaysRestores(stages) <==> UniquePairs(stages)
  {
    hide Shaped;
    if UniquePairs(stages) {
      forall rows | Shaped(stages, rows) ensures Restore(stages, Collect(stages, rows)) == rows {
        RestoreCollect(stages, rows);
      }
    } else {
      var i, j, k, l :| 0 <= i < |stages| && 0 <= j < |stages[i].steps| && 0 <= k < |stages| &&
        0 <= l < |stages[k].steps| &&
        Named(stages, k, l, stages[i].name, stages[i].steps[j].name) && !(i == k && j == l);
      var rows := OnlyOne(stages, i, j);
      var restored := Restore(stages, Collect(stages, rows));
      assert restored[i][j] == restored[k][l] && rows[i][j] != rows[k][l];
    }
  }

  /** Two stages of one name with a step of one name. */
  const TWINS := [Stage(StageSending, [Step(StepSending, 0, false)]),
    Stage(StageSending, [Step(StepSending, 0, false)])]

  /** A workflow with such a table runs, and completing the first step restores the second as
      completed, so that the next run does not call it. */
  lemma TwinsAreMixedUp()
    ensures UniqueStepNames(TWINS) && !UniquePairs(TWINS)
    ensures Restore(TWINS, Collect(TWINS, [[Completed], [NoStatus]])) == [[Completed], [Completed]]
  {
    hide Restore;
    assert Named(TWINS, 1, 0, TWINS[0].name, TWINS[0].steps[0].name);
    var rows := [[Completed], [NoStatus]];
    assert TWINS[..1] == [TWINS[0]] && rows[..1] == [rows[0]];
    var restored := Restore(TWINS, Collect(TWINS, rows));
    assert Collect([], []) == [];
    assert Collect(TWINS[..1], rows[..1]) == [StepRecord(StageSending, StepSending, Completed)];
    assert restored[0] == [Completed] && restored[1] == [Completed];
  }
}
