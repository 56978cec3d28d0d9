/** The results about whole runs of `executePlan`, from any state that preparation can hand over. */
module PlannerSafety {
  import opened Text
  import opened ExecutionStates
  import opened Planner
  import opened PlannerRuns
  import opened PlannerTheorems
  import opened PlannerRefetch

  // ---- entry states -------------------------------------------------------

  lemma {:induction false} DoneStepsNormal(steps: seq<PlanStep>)
    requires AllNormal(steps)
    ensures AllNormal(DoneSteps(steps))
  {
    if steps != [] {
      assert AllNormal(steps[1..]);
      DoneStepsNormal(steps[1..]);
    }
  }

  const USER_REPLY := "user_reply"

  /** `prepareExecutionState` resuming a run that waited for the user, from the stored state. */
  function Resumed(stored: ExecutionState, reply: string, now: int): ExecutionState {
    var s := Appended(Normalize(stored, now), Observation("", USER_REPLY, reply, "", At(now)), now);
    s.(status := Running, waiting := None, finalAnswer := "", lastError := "", steps := DoneSteps(s.steps),
       currentStepId := "", updatedAt := At(now))
  }

  /** `prepareExecutionState` starting anew. */
  function Begun(sessionId: string, planId: string, userId: int, goal: string, now: int): ExecutionState {
    Normalize(NO_STATE.(sessionId := sessionId, planId := planId, userId := userId, goal := goal,
                       status := Planning, updatedAt := At(now)), now).(status := Running)
  }

  /** Whatever was stored, a resumed run starts with completed steps only and a log in order. */
  lemma ResumedIsReady(stored: ExecutionState, reply: string, now: int)
    ensures Ready(Resumed(stored, reply, now))
  {
    var n := Normalize(stored, now);
    var s := Appended(n, Observation("", USER_REPLY, reply, "", At(now)), now);
    NormalStepsNormal(n.steps);
    DoneStepsNormal(s.steps);
  }

  lemma BegunIsReady(sessionId: string, planId: string, userId: int, goal: string, now: int)
    ensures Ready(Begun(sessionId, planId, userId, goal, now))
  {
    assert NormalSteps([]) == [];
  }

  // ---- every loop head ----------------------------------------------------

  /** The memories at the loop heads of a run. */
  ghost function Heads(m: Memory, answers: seq<Answer>): (r: seq<Memory>)
    ensures r != [] && r[0] == m && |r| <= |answers| + 1
    decreases |answers|
  {
    if answers == [] || Iterate(m, answers[0]).Stop? then [m]
    else [m] + Heads(Iterate(m, answers[0]).m, answers[1..])
  }

  ghost function DonePart(m: Memory): seq<PlanStep> { m.s.steps[..NextPending(m.s.steps)] }

  ghost predicate GoodHead(m: Memory) { Shape(m.s.steps, NextPending(m.s.steps)) }

  lemma GrowsDone(before: seq<PlanStep>, after: seq<PlanStep>, c: nat, c': nat)
    requires Shape(before, c) && Shape(after, c') && c <= c'
    requires forall k :: 0 <= k < c ==> after[k] == before[k]
    ensures before[..NextPending(before)] <= after[..NextPending(after)]
  {
    ShapeIsNextPending(before, c);
    ShapeIsNextPending(after, c');
  }

  lemma IterateGrowsDone(entry: ExecutionState, m: Memory, c: nat, a: Answer)
    requires AtHead(entry, m, c) && ProposesWork(a) && Iterate(m, a).Next?
    ensures DonePart(m) <= DonePart(Iterate(m, a).m)
  {
    IterateKeepsHead(entry, m, c, a);
    var n := Iterate(m, a).m;
    if c < |m.s.steps| { ExecuteEffect(m, c, a); } else { DecideEffect(m, a); }
    GrowsDone(m.s.steps, n.s.steps, c, if c < |m.s.steps| then c + 1 else c);
  }

  /** At every loop head: a completed prefix, then pending steps. */
  lemma {:induction false} HeadsWellShaped(entry: ExecutionState, m: Memory, c: nat, answers: seq<Answer>)
    requires AtHead(entry, m, c) && AllProposeWork(answers)
    ensures forall h :: h in Heads(m, answers) ==> GoodHead(h)
    decreases |answers|
  {
    ShapeIsNextPending(m.s.steps, c);
    if answers != [] && Iterate(m, answers[0]).Next? {
      IterateKeepsHead(entry, m, c, answers[0]);
      HeadsWellShaped(entry, Iterate(m, answers[0]).m, if c < |m.s.steps| then c + 1 else c, answers[1..]);
    }
  }

  /** From loop head to loop head the completed prefix only ever grows. */
  ghost predicate Growing(heads: seq<Memory>) {
    forall k :: 0 <= k < |heads| - 1 ==> DonePart(heads[k]) <= DonePart(heads[k + 1])
  }

  lemma GrowingCons(m: Memory, heads: seq<Memory>)
    requires heads != [] && DonePart(m) <= DonePart(heads[0]) && Growing(heads)
    ensures Growing([m] + heads)
  {}

  lemma {:induction false} HeadsGrow(entry: ExecutionState, m: Memory, c: nat, answers: seq<Answer>)
    requires AtHead(entry, m, c) && AllProposeWork(answers)
    ensures Growing(Heads(m, answers))
    decreases |answers|
  {
    if answers != [] && Iterate(m, answers[0]).Next? {
      var n := Iterate(m, answers[0]).m;
      IterateKeepsHead(entry, m, c, answers[0]);
      IterateGrowsDone(entry, m, c, answers[0]);
      HeadsGrow(entry, n, if c < |m.s.steps| then c + 1 else c, answers[1..]);
      GrowingCons(m, Heads(n, answers[1..]));
    }
  }

  // ---- order and number of calls -----------------------------------------

  /** Steps ran at most once each and in plan order; at most one event per iteration. */
  ghost predicate Orderly(entry: ExecutionState, m: Memory) {
    && |entry.steps| <= |m.s.steps|
    && RanIds(m.journal) <= PlannedIds(m.journal)
    && PlannedIds(m.journal) == Ids(m.s.steps)[|entry.steps|..]
  }

  lemma AtHeadOrderly(entry: ExecutionState, m: Memory, c: nat)
    requires AtHead(entry, m, c)
    ensures Orderly(entry, m)
  {
    var ids, x := Ids(m.s.steps), |entry.steps|;
    assert ids[x..c] == ids[x..][..c - x];
  }

  lemma StopOrderly(entry: ExecutionState, m: Memory, c: nat, a: Answer)
    requires AtHead(entry, m, c) && ProposesWork(a) && Iterate(m, a).Stop?
    ensures Orderly(entry, Iterate(m, a).m) && |Iterate(m, a).m.journal| <= |m.journal| + 1
    ensures Ids(m.s.steps) <= Ids(Iterate(m, a).m.s.steps)
  {
    ShapeIsNextPending(m.s.steps, c);
    AtHeadOrderly(entry, m, c);
    var t := Iterate(m, a);
    if c < |m.s.steps| {
      ExecuteEffect(m, c, a);
      WorkedOrderly(entry, m, c, t);
    } else {
      DecideEffect(m, a);
      PlannedOrderly(entry, m, a.now, t);
    }
  }

  lemma WorkedOrderly(entry: ExecutionState, m: Memory, c: nat, t: Turn)
    requires AtHead(entry, m, c) && c < |m.s.steps| && Worked(m, c, t)
    ensures Orderly(entry, t.m) && |t.m.journal| <= |m.journal| + 1 && Ids(t.m.s.steps) == Ids(m.s.steps)
  {
    AtHeadOrderly(entry, m, c);
    OnlyStepIds(m.s.steps, t.m.s.steps, c);
    if t.m.journal != m.journal {
      var e := t.m.journal[|m.journal|];
      assert t.m.journal == m.journal + [e];
      OrderAfterRun(Ids(m.s.steps), |entry.steps|, c, m.journal, e);
      SlicePrefix(Ids(m.s.steps), |entry.steps|, c + 1);
    }
  }

  lemma OnlyStepIds(before: seq<PlanStep>, after: seq<PlanStep>, c: nat)
    requires OnlyStep(before, after, c)
    ensures Ids(after) == Ids(before)
  {
    assert SameCall(after[c], before[c]);
  }

  lemma SlicePrefix<T>(s: seq<T>, x: nat, c: nat)
    requires x <= c <= |s|
    ensures s[x..c] <= s[x..]
  {}

  lemma PlannedOrderly(entry: ExecutionState, m: Memory, now: int, t: Turn)
    requires AtHead(entry, m, |m.s.steps|) && Planned(m, now, t)
    ensures Orderly(entry, t.m) && |t.m.journal| <= |m.journal| + 1 && Ids(m.s.steps) <= Ids(t.m.s.steps)
  {
    AtHeadOrderly(entry, m, |m.s.steps|);
    if |t.m.journal| > |m.journal| {
      var e := t.m.journal[|m.journal|];
      assert t.m.journal == m.journal + [e];
      IdsSnoc(m.journal, e);
      ExtendsShape(m.s.steps, t.m.s.steps, e.batch);
      AppendSlices(Ids(m.s.steps), Ids(e.batch), |entry.steps|);
    }
  }

  lemma NextOrderly(entry: ExecutionState, m: Memory, c: nat, a: Answer)
    requires AtHead(entry, m, c) && ProposesWork(a)
    ensures |Iterate(m, a).m.journal| <= |m.journal| + 1
    ensures Ids(m.s.steps) <= Ids(Iterate(m, a).m.s.steps)
  {
    ShapeIsNextPending(m.s.steps, c);
    if c < |m.s.steps| {
      ExecuteEffect(m, c, a);
      WorkedOrderly(entry, m, c, Iterate(m, a));
    } else {
      DecideEffect(m, a);
      PlannedOrderly(entry, m, a.now, Iterate(m, a));
    }
  }

  lemma {:induction false} RunOrderly(entry: ExecutionState, m: Memory, c: nat, answers: seq<Answer>)
    requires AtHead(entry, m, c) && AllProposeWork(answers)
    ensures Orderly(entry, Run(m, answers).0)
    ensures |Run(m, answers).0.journal| <= |m.journal| + |answers|
    decreases |answers|
  {
    if answers == [] {
      AtHeadOrderly(entry, m, c);
    } else {
      var t := Iterate(m, answers[0]);
      NextOrderly(entry, m, c, answers[0]);
      if t.Next? {
        IterateKeepsHead(entry, m, c, answers[0]);
        RunOrderly(entry, t.m, if c < |m.s.steps| then c + 1 else c, answers[1..]);
      } else {
        StopOrderly(entry, m, c, answers[0]);
      }
    }
  }

  lemma PrefixTrans<T>(a: seq<T>, b: seq<T>, c: seq<T>)
    requires a <= b && b <= c
    ensures a <= c
  {}

  lemma {:induction false} RunIdsGrow(entry: ExecutionState, m: Memory, c: nat, answers: seq<Answer>)
    requires AtHead(entry, m, c) && AllProposeWork(answers)
    ensures Ids(m.s.steps) <= Ids(Run(m, answers).0.s.steps)
    decreases |answers|
  {
    if answers != [] {
      var t := Iterate(m, answers[0]);
      NextOrderly(entry, m, c, answers[0]);
      if t.Next? {
        IterateKeepsHead(entry, m, c, answers[0]);
        RunIdsGrow(entry, t.m, if c < |m.s.steps| then c + 1 else c, answers[1..]);
        PrefixTrans(Ids(m.s.steps), Ids(t.m.s.steps), Ids(Run(t.m, answers[1..]).0.s.steps));
      }
    }
  }

  // ---- no early refetch ---------------------------------------------------

  lemma PrefixDistinct(steps: seq<PlanStep>, final: seq<PlanStep>)
    requires Ids(steps) <= Ids(final) && DistinctIds(final)
    ensures DistinctIds(steps)
  {
    forall i, j | 0 <= i < j < |steps| ensures steps[i].id != steps[j].id {
      assert Ids(steps)[i] == Ids(final)[i] && Ids(steps)[j] == Ids(final)[j];
    }
  }

  lemma {:induction false} RunKeepsApart(entry: ExecutionState, m: Memory, c: nat, answers: seq<Answer>)
    requires AtHead(entry, m, c) && AllProposeWork(answers)
    requires RunsApart(m.journal) && PendingApart(m.journal, m.s.steps, c)
    requires DistinctIds(Run(m, answers).0.s.steps)
    ensures RunsApart(Run(m, answers).0.journal)
    decreases |answers|
  {
    if answers != [] {
      RunIdsGrow(entry, m, c, answers);
      PrefixDistinct(m.s.steps, Run(m, answers).0.s.steps);
      IterateKeepsApart(entry, m, c, answers[0]);
      if Iterate(m, answers[0]).Next? {
        IterateKeepsHead(entry, m, c, answers[0]);
        RunKeepsApart(entry, Iterate(m, answers[0]).m, if c < |m.s.steps| then c + 1 else c, answers[1..]);
      }
    }
  }

  /**
   * A whole run of `executePlan`. The plan keeps its shape, steps run once and in order, no more than twelve
   * things happen, and, when step IDs are distinct, two runs of one call always have a decision between them
   * that was taken more than a minute, or at least eight log entries, after the first.
   */
  lemma ExecutePlanIsSafe(s: ExecutionState, stored: ExecutionState, answers: seq<Answer>)
    requires Ready(s) && |answers| == MAX_ITERATIONS && AllProposeWork(answers)
    ensures var (m, outcome) := Run(Memory(s, stored, []), answers);
            && Orderly(s, m) && |m.journal| <= MAX_ITERATIONS
            && (DistinctIds(m.s.steps) ==> RunsApart(m.journal))
    ensures var heads := Heads(Memory(s, stored, []), answers);
            Growing(heads) && forall h :: h in heads ==> GoodHead(h)
  {
    var m := Memory(s, stored, []);
    ReadyAtHead(s, stored);
    HeadsWellShaped(s, m, |s.steps|, answers);
    HeadsGrow(s, m, |s.steps|, answers);
    RunOrderly(s, m, |s.steps|, answers);
    if DistinctIds(Run(m, answers).0.s.steps) {
      RunKeepsApart(s, m, |s.steps|, answers);
    }
  }

  // ---- how a run ends -----------------------------------------------------

  /** A reply leaves the run waiting with a question, completed, or cleared from the store. */
  ghost predicate Concluded(m: Memory) {
    var inStore := m.stored == NO_STATE
                   || (m.stored.status == m.s.status && m.stored.waiting == m.s.waiting &&
                       m.stored.sessionId == m.s.sessionId);
    var waiting := m.s.status.WaitingUser? && m.s.waiting.Some? && m.s.waiting.value.question != "";
    var completed := m.s.status.Completed? && m.s.waiting.None? && m.s.currentStepId == "";
    inStore && (waiting || completed || m.stored == NO_STATE)
  }

  lemma AskedConcluded(m: Memory, i: nat, a: Answer)
    requires i < |m.s.steps|
    ensures Concluded(Saved(Asked(m, i, a), a.now, true))
  {
    var q := Question(m.s.steps[i]);
    assert Trimmed(DEFAULT_QUESTION);
    assert Trim(q) == q;
    var asked := Asked(m, i, a);
    assert asked.s.waiting.Some? && asked.s.waiting.value.question == q;
  }

  lemma ClosedConcluded(m: Memory, i: nat, a: Answer, text: string)
    requires i < |m.s.steps|
    ensures Concluded(Saved(Closed(m, i, a, text), a.now, true))
  {}

  lemma ExecuteConcludes(m: Memory, i: nat, a: Answer)
    requires i < |m.s.steps|
    requires Execute(m, i, a).Stop? && Execute(m, i, a).outcome.Replied?
    ensures Concluded(Execute(m, i, a).m)
  {
    var n := Started(m, i, a);
    match n.s.steps[i].kind {
      case AskUser => AskedConcluded(n, i, a);
      case Respond =>
        if a.canned != "" { ClosedConcluded(n, i, a, a.canned); } else { ClosedConcluded(n, i, a, a.finalText.value); }
      case _ =>
    }
  }

  lemma AdoptNeverReplies(m: Memory, a: Answer, goal: string, steps: seq<PlanStep>)
    ensures Adopt(m, a, goal, steps).Stop? ==> Adopt(m, a, goal, steps).outcome.Stuck?
  {}

  lemma ConsiderNeverReplies(m: Memory, a: Answer, goal: string, steps: seq<PlanStep>)
    ensures Consider(m, a, goal, steps).Stop? ==> Consider(m, a, goal, steps).outcome.Stuck?
  {
    AdoptNeverReplies(m, a, goal, steps);
  }

  lemma DecideNeverReplies(m: Memory, a: Answer)
    ensures Decide(m, a).Stop? ==> Decide(m, a).outcome.Stuck?
  {
    if a.decision.Some? {
      var d := a.decision.value;
      ConsiderNeverReplies(m, a, Trim(d.goal), FilterFresh(DecidedSteps(d), m.s, a.now));
    }
  }

  lemma IterateConcludes(m: Memory, a: Answer)
    requires Iterate(m, a).Stop? && Iterate(m, a).outcome.Replied?
    ensures Concluded(Iterate(m, a).m)
  {
    var i := NextPending(m.s.steps);
    if i == |m.s.steps| {
      DecideNeverReplies(m, a);
    } else {
      ExecuteConcludes(m, i, a);
    }
  }

  /** However the oracle answers, a run that replies has concluded. */
  lemma {:induction false} RunConcludes(m: Memory, answers: seq<Answer>)
    requires Run(m, answers).1.Replied?
    ensures Concluded(Run(m, answers).0)
    decreases |answers|
  {
    var t := Iterate(m, answers[0]);
    if t.Next? {
      RunConcludes(t.m, answers[1..]);
    } else {
      IterateConcludes(m, answers[0]);
    }
  }

  // ---- what defeats the duplicate filter ---------------------------------

  /** Steps proposed without an ID are numbered afresh in every decision, so successive decisions reuse IDs. */
  lemma BlankIdsCollide(d1: Decision, d2: Decision)
    requires d1.steps != [] && d2.steps != [] && Trim(d1.steps[0].id) == "" && Trim(d2.steps[0].id) == ""
    ensures DecidedSteps(d1)[0].id == DecidedSteps(d2)[0].id == StepId(1)
  {}

  /** No later step carries the identifier of step `j`. */
  ghost predicate LastOfItsId(steps: seq<PlanStep>, j: nat)
    requires j < |steps|
  {
    forall k :: j < k < |steps| ==> steps[k].id != steps[j].id
  }

  /**
   * A logged fetch counts for the call that was made exactly when the last step with the same identifier makes that
   * very call: then, and only then, does the filter see it.
   */
  lemma {:induction false} FetchReadRightIff(steps: seq<PlanStep>, i: nat, obs: Observation)
    requires i < |steps| && obs.stepId == steps[i].id && obs.kind == TOOL_RESULT
    ensures Fetches(steps, obs, Signature(steps[i])) <==>
            forall j :: i <= j < |steps| && steps[j].id == steps[i].id && LastOfItsId(steps, j) ==>
              steps[j].toolName != "" && Signature(steps[j]) == Signature(steps[i])
  {
    hide Signature;
    AttributedIsLast(steps, steps[i].id);
    var p := Attributed(steps, obs.stepId);
    var k :| 0 <= k < |steps| && steps[k] == p.value && LastOfItsId(steps, k) && steps[k].id == steps[i].id;
    assert i <= k;
    forall j | i <= j < |steps| && steps[j].id == steps[i].id && LastOfItsId(steps, j) ensures j == k {}
  }

  lemma {:induction false} AttributedIsLast(steps: seq<PlanStep>, id: string)
    requires exists i :: 0 <= i < |steps| && steps[i].id == id
    ensures Attributed(steps, id).Some?
    ensures exists k ::
              0 <= k < |steps| && steps[k] == Attributed(steps, id).value && LastOfItsId(steps, k) && steps[k].id == id
  {
    var n := |steps| - 1;
    if steps[n].id == id {
      assert LastOfItsId(steps, n);
    } else {
      var i :| 0 <= i < |steps| && steps[i].id == id;
      assert steps[..n][i].id == id;
      AttributedIsLast(steps[..n], id);
      var k :| 0 <= k < n && steps[..n][k] == Attributed(steps[..n], id).value && LastOfItsId(steps[..n], k) &&
          steps[..n][k].id == id;
      assert LastOfItsId(steps, k);
    }
  }

  ghost function SampleStep(name: string): PlanStep {
    PlanStep("s", Tool, "", Done, name, "", "", false, "", "")
  }

  ghost function SampleLog(now: int): seq<Observation> {
    var o := Observation("s", TOOL_RESULT, "", "x", At(now));
    [o, o]
  }

  /** Two calls under one ID: both fetches in the log are attributed to the later step. */
  lemma SampleAttribution(now: int)
    ensures !FreshIn([SampleStep("a"), SampleStep("b")], SampleLog(now), now, Signature(SampleStep("a")))
  {
    var p, q := SampleStep("a"), SampleStep("b");
    assert Trim("a") == "a" && Trim("b") == "b";
    assert Signature(p)[0] == 'a' && Signature(q)[0] == 'b';
    assert Attributed([p, q], "s") == Some(q);
  }

  lemma FilteredOne(p: PlanStep, known: set<string>)
    requires Signature(p) !in known
    ensures Filtered([p], known) == [p]
  {
    assert [p][1..] == [];
  }

  lemma SingleStalePasses(p: PlanStep, s: ExecutionState, now: int)
    requires !Fresh(s, now, Signature(p))
    ensures FilterFresh([p], s, now) == [p]
  {
    FilteredOne(p, FreshSet(s, now));
  }

  lemma SampleNormal(now: int)
    ensures var s := NO_STATE.(steps := [SampleStep("a"), SampleStep("b")], log := SampleLog(now));
            LogReady(s) && AllNormal(s.steps)
  {
    assert Trimmed(TOOL_RESULT);
  }

  /** So with one ID used twice, a call made in this very second is proposed again and passes the filter. */
  lemma RepeatedIdsDefeatFilter(now: int)
    ensures var p := SampleStep("a");
            FilterFresh([p], NO_STATE.(steps := [p, SampleStep("b")], log := SampleLog(now)), now) == [p]
  {
    var p := SampleStep("a");
    var s := NO_STATE.(steps := [p, SampleStep("b")], log := SampleLog(now));
    SampleNormal(now);
    NormalView(s, now);
    SampleAttribution(now);
    SingleStalePasses(p, s, now);
  }
}
