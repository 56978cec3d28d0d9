/** Safety of whole plan runs: order of execution, shape of the plan, and no early refetch. */
module PlannerTheorems {
  import opened Text
  import opened ExecutionStates
  import opened Planner
  import opened PlannerRuns

  // ---- reading the history ------------------------------------------------

  ghost function Written(e: Event): seq<Observation> {
    if e.Decided? then [] else [TrimObservation(e.obs, 0)]
  }

  ghost function RanId(e: Event): seq<string> {
    if e.Decided? then [] else [e.step.id]
  }

  ghost function BatchIds(e: Event): seq<string> {
    if e.Decided? then Ids(e.batch) else []
  }

  /** What the events wrote to the log, oldest first. */
  ghost function LogOf(journal: seq<Event>): seq<Observation> { Flat(journal, Written) }

  /** The IDs of the steps that ran, in the order in which they ran. */
  ghost function RanIds(journal: seq<Event>): seq<string> { Flat(journal, RanId) }

  /** The IDs of the steps that were decided on, batch after batch. */
  ghost function PlannedIds(journal: seq<Event>): seq<string> { Flat(journal, BatchIds) }

  lemma LogOfSnoc(journal: seq<Event>, e: Event)
    ensures LogOf(journal + [e]) == LogOf(journal) + Written(e)
  {
    FlatSnoc(journal, e, Written);
  }

  lemma IdsSnoc(journal: seq<Event>, e: Event)
    ensures RanIds(journal + [e]) == RanIds(journal) + RanId(e)
    ensures PlannedIds(journal + [e]) == PlannedIds(journal) + BatchIds(e)
  {
    FlatSnoc(journal, e, RanId);
    FlatSnoc(journal, e, BatchIds);
  }

  // ---- the invariant at every loop head ----------------------------------

  /** A completed prefix, then pending steps; what ran is the completed part, in plan order. */
  ghost predicate AtHead(entry: ExecutionState, m: Memory, c: nat) {
    var sound := LogReady(m.s) && AllNormal(m.s.steps) && Shape(m.s.steps, c);
    var windowed := m.s.log == Last(entry.log + LogOf(m.journal), LOG_MAX);
    var ordered := |entry.steps| <= c <= |m.s.steps|
                   && RanIds(m.journal) == Ids(m.s.steps)[|entry.steps|..c]
                   && PlannedIds(m.journal) == Ids(m.s.steps)[|entry.steps|..];
    sound && windowed && ordered && Recorded(m.journal, m.s.steps, c)
  }

  /** Every run still has its completed step, under the ID its observation carries. */
  ghost predicate Recorded(journal: seq<Event>, steps: seq<PlanStep>, c: nat) {
    forall j :: 0 <= j < |journal| && journal[j].Ran? ==> RecordedOne(journal[j], steps, c)
  }

  ghost predicate RecordedOne(e: Event, steps: seq<PlanStep>, c: nat)
    requires e.Ran?
  {
    && e.obs.stepId == e.step.id && e.step.id != "" && e.obs.kind == TOOL_RESULT && e.obs.createdAt.At?
    && Trimmed(e.step.id)
    && exists k :: 0 <= k < c && k < |steps| && SameCall(steps[k], e.step)
  }

  lemma ReadyAtHead(s: ExecutionState, stored: ExecutionState)
    requires Ready(s)
    ensures AtHead(s, Memory(s, stored, []), |s.steps|)
  {
    assert s.log + LogOf([]) == s.log;
    assert Ids(s.steps)[|s.steps|..] == [];
  }

  lemma RecordedGrows(journal: seq<Event>, before: seq<PlanStep>, after: seq<PlanStep>, c: nat, c': nat)
    requires Recorded(journal, before, c) && c <= c' && c' <= |after| && |before| <= |after|
    requires forall k :: 0 <= k < |before| && k < c ==> SameCall(after[k], before[k])
    ensures Recorded(journal, after, c')
  {
    forall j | 0 <= j < |journal| && journal[j].Ran? ensures RecordedOne(journal[j], after, c') {
      assert RecordedOne(journal[j], before, c);
      var k :| 0 <= k < c && k < |before| && SameCall(before[k], journal[j].step);
      assert SameCall(after[k], journal[j].step);
    }
  }

  /** The log stays the window on everything ever logged. */
  lemma WindowAfterRun(base: seq<Observation>, log: seq<Observation>, journal: seq<Event>, e: Event)
    requires log == Last(base + LogOf(journal), LOG_MAX) && !e.Decided?
    ensures Last(log + [TrimObservation(e.obs, 0)], LOG_MAX) == Last(base + LogOf(journal + [e]), LOG_MAX)
  {
    var o := TrimObservation(e.obs, 0);
    LogOfSnoc(journal, e);
    LastStep(base + LogOf(journal), log, o, LOG_MAX);
    Assoc(base, LogOf(journal), [o]);
  }

  lemma OrderAfterRun(ids: seq<string>, x: nat, c: nat, journal: seq<Event>, e: Event)
    requires x <= c < |ids| && RanIds(journal) == ids[x..c] && !e.Decided? && e.step.id == ids[c]
    ensures RanIds(journal + [e]) == ids[x..c + 1] && PlannedIds(journal + [e]) == PlannedIds(journal)
  {
    IdsSnoc(journal, e);
    SliceSnoc(ids, x, c);
  }

  lemma ShapeAfterRun(before: seq<PlanStep>, after: seq<PlanStep>, c: nat)
    requires c < |before| && Shape(before, c) && OnlyStep(before, after, c) && after[c].status.Done?
    ensures Shape(after, c + 1) && Ids(after) == Ids(before)
  {
    assert SameCall(after[c], before[c]);
  }

  lemma ExecuteKeepsHead(entry: ExecutionState, m: Memory, c: nat, a: Answer)
    requires AtHead(entry, m, c) && c < |m.s.steps| && Execute(m, c, a).Next?
    ensures AtHead(entry, Execute(m, c, a).m, c + 1)
  {
    ExecuteEffect(m, c, a);
    WorkedKeepsHead(entry, m, c, Execute(m, c, a));
  }

  lemma WorkedKeepsHead(entry: ExecutionState, m: Memory, c: nat, t: Turn)
    requires AtHead(entry, m, c) && c < |m.s.steps| && t.Next? && Worked(m, c, t)
    ensures AtHead(entry, t.m, c + 1)
  {
    var e := t.m.journal[|m.journal|];
    assert t.m.journal == m.journal + [e];
    WindowAfterRun(entry.log, m.s.log, m.journal, e);
    ShapeAfterRun(m.s.steps, t.m.s.steps, c);
    OrderAfterRun(Ids(m.s.steps), |entry.steps|, c, m.journal, e);
    RecordedAfterRun(m, c, t.m, e);
  }

  lemma RecordedAfterRun(m: Memory, c: nat, n: Memory, e: Event)
    requires c < |m.s.steps| && AllNormal(m.s.steps) && OnlyStep(m.s.steps, n.s.steps, c)
    requires Recorded(m.journal, m.s.steps, c) && n.journal == m.journal + [e] && Reports(e, m.s.steps[c])
    ensures Recorded(n.journal, n.s.steps, c + 1)
  {
    RecordedGrows(m.journal, m.s.steps, n.s.steps, c, c + 1);
    if e.Ran? {
      assert SameCall(n.s.steps[c], e.step);
      assert StepNormal(m.s.steps[c]);
    }
    forall j | 0 <= j < |n.journal| && n.journal[j].Ran? ensures RecordedOne(n.journal[j], n.s.steps, c + 1) {
      if j < |m.journal| { assert n.journal[j] == m.journal[j]; }
    }
  }

  lemma DecideKeepsHead(entry: ExecutionState, m: Memory, a: Answer)
    requires AtHead(entry, m, |m.s.steps|) && ProposesWork(a) && Decide(m, a).Next?
    ensures AtHead(entry, Decide(m, a).m, |m.s.steps|)
  {
    DecideEffect(m, a);
    PlannedKeepsHead(entry, m, a.now, Decide(m, a));
  }

  lemma PlannedKeepsHead(entry: ExecutionState, m: Memory, now: int, t: Turn)
    requires AtHead(entry, m, |m.s.steps|) && t.Next? && Planned(m, now, t)
    ensures AtHead(entry, t.m, |m.s.steps|)
  {
    var e := t.m.journal[|m.journal|];
    assert t.m.journal == m.journal + [e];
    LogOfSnoc(m.journal, e);
    IdsSnoc(m.journal, e);
    ExtendsShape(m.s.steps, t.m.s.steps, e.batch);
    AppendSlices(Ids(m.s.steps), Ids(e.batch), |entry.steps|);
    RecordedAfterBatch(m, t.m, e);
  }

  lemma RecordedAfterBatch(m: Memory, n: Memory, e: Event)
    requires Recorded(m.journal, m.s.steps, |m.s.steps|) && n.journal == m.journal + [e] && e.Decided?
    requires Extends(m.s.steps, n.s.steps, e.batch)
    ensures Recorded(n.journal, n.s.steps, |m.s.steps|)
  {
    RecordedGrows(m.journal, m.s.steps, n.s.steps, |m.s.steps|, |m.s.steps|);
    forall j | 0 <= j < |n.journal| && n.journal[j].Ran? ensures RecordedOne(n.journal[j], n.s.steps, |m.s.steps|) {
      assert n.journal[j] == m.journal[j];
    }
  }

  lemma ExtendsShape(before: seq<PlanStep>, after: seq<PlanStep>, batch: seq<PlanStep>)
    requires Extends(before, after, batch)
    ensures Shape(before, |before|) ==> Shape(after, |before|)
    ensures Ids(after) == Ids(before) + Ids(batch)
  {
    forall k | 0 <= k < |after| ensures Ids(after)[k] == (Ids(before) + Ids(batch))[k] {
      if k >= |before| { assert SameCall(after[k], batch[k - |before|]); }
    }
  }

  /** One iteration leads from loop head to loop head. */
  lemma IterateKeepsHead(entry: ExecutionState, m: Memory, c: nat, a: Answer)
    requires AtHead(entry, m, c) && ProposesWork(a) && Iterate(m, a).Next?
    ensures AtHead(entry, Iterate(m, a).m, if c < |m.s.steps| then c + 1 else c)
    ensures NextPending(m.s.steps) == c
  {
    ShapeIsNextPending(m.s.steps, c);
    if c < |m.s.steps| { ExecuteKeepsHead(entry, m, c, a); } else { DecideKeepsHead(entry, m, a); }
  }
}
