/** Properties of every run of the plan executor, for every behaviour of the language model and the tools. */
module PlannerRuns {
  import opened Text
  import opened ExecutionStates
  import opened Planner

  // ---- the duplicate filter ----------------------------------------------

  /** Which steps the filter is meant to keep, said without running it. */
  ghost predicate Kept(steps: seq<PlanStep>, known: set<string>, i: nat)
    requires i < |steps|
  {
    steps[i].kind.Tool? ==>
      && Signature(steps[i]) !in known
      && forall j :: 0 <= j < i && steps[j].kind.Tool? ==> Signature(steps[j]) != Signature(steps[i])
  }

  /** The kept ones among the first `n` steps, in order. */
  ghost function Selection(steps: seq<PlanStep>, known: set<string>, n: nat): (r: seq<PlanStep>)
    requires n <= |steps|
    ensures forall p :: p in r <==> exists i :: 0 <= i < n && Kept(steps, known, i) && steps[i] == p
  {
    if n == 0 then []
    else
      var rest := Selection(steps, known, n - 1);
      if Kept(steps, known, n - 1) then rest + [steps[n - 1]] else rest
  }

  ghost predicate Passes(earlier: seq<PlanStep>, known: set<string>, p: PlanStep) {
    p.kind.Tool? ==>
      && Signature(p) !in known
      && forall j :: 0 <= j < |earlier| && earlier[j].kind.Tool? ==> Signature(earlier[j]) != Signature(p)
  }

  lemma {:induction false} FilteredSnoc(a: seq<PlanStep>, known: set<string>, p: PlanStep)
    ensures Filtered(a + [p], known) == Filtered(a, known) + if Passes(a, known, p) then [p] else []
    decreases |a|
  {
    if a == [] {
      assert a + [p] == [p] && [p][1..] == [];
    } else {
      var first, rest := a[0], a[1..];
      assert (a + [p])[1..] == rest + [p] && (a + [p])[0] == first;
      var known' := if first.kind.Tool? then known + {Signature(first)} else known;
      PassesShift(a, known, p);
      FilteredSnoc(rest, known', p);
      if first.kind.Tool? && Signature(first) in known {
        assert known' == known;
      }
    }
  }

  lemma PassesShift(a: seq<PlanStep>, known: set<string>, p: PlanStep)
    requires a != []
    ensures Passes(a, known, p) <==>
            Passes(a[1..], if a[0].kind.Tool? then known + {Signature(a[0])} else known, p)
  {
    forall j | 0 < j < |a| ensures a[j] == a[1..][j - 1] {}
  }

  /** The filter keeps exactly the steps of the reference selection, in their order. */
  lemma {:induction false} FilterIsSelection(steps: seq<PlanStep>, known: set<string>, n: nat)
    requires n <= |steps|
    ensures Filtered(steps[..n], known) == Selection(steps, known, n)
  {
    if n > 0 {
      FilterIsSelection(steps, known, n - 1);
      FilteredSnoc(steps[..n - 1], known, steps[n - 1]);
      assert steps[..n] == steps[..n - 1] + [steps[n - 1]];
      assert Passes(steps[..n - 1], known, steps[n - 1]) <==> Kept(steps, known, n - 1);
    }
  }

  /** What a decision may contain after filtering: no fresh signature, none twice, every other step. */
  lemma FilterContract(steps: seq<PlanStep>, s: ExecutionState, now: int)
    ensures FilterFresh(steps, s, now) == Selection(steps, FreshSet(s, now), |steps|)
    ensures forall p :: p in FilterFresh(steps, s, now) && p.kind.Tool? ==> !Fresh(s, now, Signature(p))
    ensures forall p :: p in steps && !p.kind.Tool? ==> p in FilterFresh(steps, s, now)
  {
    assert steps[..|steps|] == steps;
    FilterIsSelection(steps, FreshSet(s, now), |steps|);
    forall p | p in steps && !p.kind.Tool? ensures p in FilterFresh(steps, s, now) {
      var i :| 0 <= i < |steps| && steps[i] == p;
      assert Kept(steps, FreshSet(s, now), i);
    }
  }

  /** The tool steps of a batch have pairwise distinct signatures. */
  ghost predicate DistinctCalls(steps: seq<PlanStep>) {
    forall i, j :: 0 <= i < j < |steps| && steps[i].kind.Tool? && steps[j].kind.Tool? ==>
      Signature(steps[i]) != Signature(steps[j])
  }

  lemma {:induction false} SelectionDistinct(steps: seq<PlanStep>, known: set<string>, n: nat)
    requires n <= |steps|
    ensures DistinctCalls(Selection(steps, known, n))
  {
    if n > 0 {
      SelectionDistinct(steps, known, n - 1);
      var rest := Selection(steps, known, n - 1);
      if Kept(steps, known, n - 1) && steps[n - 1].kind.Tool? {
        forall p | p in rest && p.kind.Tool? ensures Signature(p) != Signature(steps[n - 1]) {
          var i :| 0 <= i < n - 1 && Kept(steps, known, i) && steps[i] == p;
        }
      }
    }
  }

  // ---- shape of the steps -------------------------------------------------

  /** A step that normalisation leaves alone, at whatever position it stands. */
  ghost predicate StepNormal(p: PlanStep) {
    && p.id != "" && Trimmed(p.id) && Trimmed(p.title) && Trimmed(p.toolName) && Trimmed(p.instruction)
    && Trimmed(p.output) && Trimmed(p.error) && !p.status.Blank?
  }

  lemma NormalizedStepIsNormal(p: PlanStep, index: nat)
    ensures StepNormal(NormalStep(p, index))
    ensures StepNormal(p) ==> NormalStep(p, index) == p
  {}

  ghost predicate AllNormal(steps: seq<PlanStep>) {
    forall i :: 0 <= i < |steps| ==> StepNormal(steps[i])
  }

  lemma NormalStepsNormal(steps: seq<PlanStep>)
    ensures AllNormal(NormalSteps(steps))
    ensures AllNormal(steps) ==> NormalSteps(steps) == steps
  {
    forall i | 0 <= i < |steps| ensures StepNormal(NormalSteps(steps)[i]) {
      NormalizedStepIsNormal(steps[i], i);
    }
    if AllNormal(steps) {
      forall i | 0 <= i < |steps| ensures NormalSteps(steps)[i] == steps[i] {
        NormalizedStepIsNormal(steps[i], i);
      }
    }
  }

  /** A completed prefix of length `c`, followed by pending steps only. */
  ghost predicate Shape(steps: seq<PlanStep>, c: nat) {
    && c <= |steps|
    && (forall i :: 0 <= i < c ==> steps[i].status.Done?)
    && (forall i :: c <= i < |steps| ==> steps[i].status.Pending?)
  }

  lemma {:induction false} ShapeIsNextPending(steps: seq<PlanStep>, c: nat)
    requires Shape(steps, c)
    ensures NextPending(steps) == c
  {
    var r := NextPending(steps);
    assert r < |steps| ==> Waits(steps[r]);
    assert c < r ==> !Waits(steps[c]);
  }

  ghost function Ids(steps: seq<PlanStep>): (r: seq<string>)
    ensures |r| == |steps|
    ensures forall i :: 0 <= i < |steps| ==> r[i] == steps[i].id
  {
    seq(|steps|, i requires 0 <= i < |steps| => steps[i].id)
  }

  ghost predicate DistinctIds(steps: seq<PlanStep>) {
    forall i, j :: 0 <= i < j < |steps| ==> steps[i].id != steps[j].id
  }

  /** The log needs no repair on the next normalisation. */
  ghost predicate LogReady(s: ExecutionState) {
    NormalLog(s.log) && |s.log| <= LOG_MAX && s.observations == []
  }

  lemma NormalView(s: ExecutionState, now: int)
    requires LogReady(s) && AllNormal(s.steps)
    ensures Normalize(s, now).steps == s.steps && Normalize(s, now).log == s.log
  {
    assert s.log + s.observations == s.log;
    NormalObservationsFixed(s.log, now);
    NormalStepsNormal(s.steps);
  }

  // ---- the oracle ---------------------------------------------------------

  /** Decisions propose steps that are still to run. */
  ghost predicate ProposesWork(a: Answer) {
    a.decision.Some? ==>
      && Waits(a.decision.value.step)
      && forall i :: 0 <= i < |a.decision.value.steps| ==> Waits(a.decision.value.steps[i])
  }

  ghost predicate AllProposeWork(answers: seq<Answer>) {
    forall i :: 0 <= i < |answers| ==> ProposesWork(answers[i])
  }

  /** Entry states: nothing is waiting to run and the log is in order. */
  ghost predicate Ready(s: ExecutionState) {
    LogReady(s) && AllNormal(s.steps) && Shape(s.steps, |s.steps|)
  }

  // ---- what one iteration does to the steps, the log and the history -----

  ghost predicate SameCall(p: PlanStep, q: PlanStep) {
    p.id == q.id && p.kind == q.kind && p.toolName == q.toolName && p.args == q.args
  }

  /** Step `i` has been worked on, nothing else was touched. */
  ghost predicate OnlyStep(before: seq<PlanStep>, after: seq<PlanStep>, i: nat) {
    && |after| == |before| && i < |before| && AllNormal(after) && SameCall(after[i], before[i])
    && forall k :: 0 <= k < |before| && k != i ==> after[k] == before[k]
  }

  lemma SetStepNormal(steps: seq<PlanStep>, i: nat, p: PlanStep)
    requires AllNormal(steps) && i < |steps| && SameCall(p, steps[i]) && !p.status.Blank?
    ensures OnlyStep(steps, NormalSteps(steps[i := p]), i)
    ensures NormalSteps(steps[i := p])[i].status == p.status
  {
    var set' := steps[i := p];
    NormalStepsNormal(set');
    forall k | 0 <= k < |steps| && k != i ensures NormalSteps(set')[k] == steps[k] {
      NormalizedStepIsNormal(steps[k], k);
    }
    assert StepNormal(steps[i]);
    NormalizedStepIsNormal(p, i);
  }

  /** Event `e` reports that step `p` ran, and what was written to the log. */
  ghost predicate Reports(e: Event, p: PlanStep) {
    && !e.Decided? && SameCall(e.step, p) && e.obs.stepId == p.id && e.obs.createdAt.At?
    && Speaks(e.obs) && (e.Ran? <==> p.kind.Tool?) && (e.Ran? ==> e.obs.kind == TOOL_RESULT)
  }

  lemma StartedEffect(m: Memory, i: nat, a: Answer)
    requires LogReady(m.s) && AllNormal(m.s.steps) && i < |m.s.steps|
    ensures OnlyStep(m.s.steps, Started(m, i, a).s.steps, i)
    ensures Started(m, i, a).s.log == m.s.log && Started(m, i, a).s.observations == []
    ensures Started(m, i, a).journal == m.journal
  {
    SetStepNormal(m.s.steps, i, m.s.steps[i].(status := Active));
  }

  lemma AppendedEffect(s: ExecutionState, i: nat, p: PlanStep, obs: Observation, now: int)
    requires LogReady(s) && AllNormal(s.steps) && i < |s.steps|
    requires SameCall(p, s.steps[i]) && p.status.Done? && Speaks(obs)
    ensures var r := Appended(WithStep(s, i, p), obs, now);
            && OnlyStep(s.steps, r.steps, i) && r.steps[i].status.Done?
            && r.log == Last(s.log + [TrimObservation(obs, now)], LOG_MAX) && LogReady(r)
  {
    var w := WithStep(s, i, p).(log := s.log + [obs]);
    SetStepNormal(s.steps, i, p);
    NormalObservationsFixed(s.log, now);
    NormalObservationsSnoc(s.log, obs, now);
    assert w.log + w.observations == s.log + [obs];
  }

  lemma OnlyStepTrans(a: seq<PlanStep>, b: seq<PlanStep>, c: seq<PlanStep>, i: nat)
    requires OnlyStep(a, b, i) && OnlyStep(b, c, i)
    ensures OnlyStep(a, c, i)
  {}

  /** How a turn that worked on step `i` relates to the memory before it. */
  ghost predicate Worked(m: Memory, i: nat, t: Turn)
    requires i < |m.s.steps|
  {
    var touched := OnlyStep(m.s.steps, t.m.s.steps, i);
    var reported := AddsReport(m.journal, t.m.journal, m.s.steps[i]);
    var silent := t.Stop? && t.m.journal == m.journal;
    var settled := touched && reported && t.m.s.steps[i].status.Done? && LogReady(t.m.s)
                   && t.m.s.log == Last(m.s.log + [TrimObservation(t.m.journal[|m.journal|].obs, 0)], LOG_MAX);
    touched && (silent || reported) && (t.Next? ==> settled)
  }

  ghost predicate AddsReport(before: seq<Event>, after: seq<Event>, p: PlanStep) {
    |after| == |before| + 1 && after[..|before|] == before && Reports(after[|before|], p)
  }

  lemma FinishEffect(m: Memory, a: Answer)
    requires AllNormal(m.s.steps)
    ensures Finish(m, a).m.s.steps == m.s.steps && Finish(m, a).m.s.log == m.s.log
    ensures Finish(m, a).m.s.observations == m.s.observations && Finish(m, a).m.journal == m.journal
  {
    NormalStepsNormal(m.s.steps);
  }

  /** An observation made while working on step `p`. */
  ghost predicate ObservedAt(obs: Observation, p: PlanStep) {
    obs.stepId == p.id && obs.createdAt.At? && obs.kind == if p.kind.Tool? then TOOL_RESULT else REASONING
  }

  lemma ObservedSpeaks(obs: Observation, p: PlanStep)
    requires ObservedAt(obs, p)
    ensures Speaks(obs)
  {
    assert Trimmed(TOOL_RESULT) && Trimmed(REASONING);
  }

  lemma LoggedEffect(m: Memory, i: nat, output: string, obs: Observation, a: Answer)
    requires LogReady(m.s) && AllNormal(m.s.steps) && i < |m.s.steps| && ObservedAt(obs, m.s.steps[i])
    ensures Worked(m, i, Finish(Logged(m, i, output, obs, a.now), a))
  {
    var step := m.s.steps[i];
    ObservedSpeaks(obs, step);
    AppendedEffect(m.s, i, step.(status := Done, output := output), obs, a.now);
    FinishEffect(Logged(m, i, output, obs, a.now), a);
    assert TrimObservation(obs, 0) == TrimObservation(obs, a.now);
    assert Reports(if step.kind.Tool? then Ran(step, obs) else Thought(step, obs), step);
  }

  lemma RunToolEffect(m: Memory, i: nat, a: Answer)
    requires LogReady(m.s) && AllNormal(m.s.steps) && i < |m.s.steps| && m.s.steps[i].kind.Tool?
    ensures Worked(m, i, RunTool(m, i, a))
  {
    var obs := Observation(m.s.steps[i].id, TOOL_RESULT, Brief(a.toolResult), a.toolResult, At(a.now));
    LoggedEffect(m, i, Brief(a.toolResult), obs, a);
  }

  lemma SavedEffect(m: Memory, i: nat, p: PlanStep, n: Memory, now: int, ok: bool)
    requires AllNormal(m.s.steps) && i < |m.s.steps| && SameCall(p, m.s.steps[i]) && !p.status.Blank?
    requires n.s.steps == m.s.steps[i := p] && n.journal == m.journal
    ensures OnlyStep(m.s.steps, Saved(n, now, ok).s.steps, i) && Saved(n, now, ok).journal == m.journal
  {
    SetStepNormal(m.s.steps, i, p);
  }

  lemma ReasonBrokenEffect(m: Memory, i: nat, a: Answer)
    requires LogReady(m.s) && AllNormal(m.s.steps) && i < |m.s.steps|
    ensures Worked(m, i, Stop(Saved(ReasonBroken(m, i, a), a.now, a.saveLast), Stuck(ReasonFailed)))
  {
    SavedEffect(m, i, m.s.steps[i].(status := Broken, error := a.errorText), ReasonBroken(m, i, a), a.now, a.saveLast);
  }

  lemma ReasonedEffect(m: Memory, i: nat, a: Answer, text: string)
    requires LogReady(m.s) && AllNormal(m.s.steps) && i < |m.s.steps| && !m.s.steps[i].kind.Tool?
    ensures Worked(m, i, Reasoned(m, i, a, text))
  {
    LoggedEffect(m, i, text, Observation(m.s.steps[i].id, REASONING, text, "", At(a.now)), a);
  }

  lemma RunAskEffect(m: Memory, i: nat, a: Answer)
    requires AllNormal(m.s.steps) && i < |m.s.steps|
    ensures Worked(m, i, RunAsk(m, i, a))
  {
    var step := m.s.steps[i];
    SavedEffect(m, i, step.(status := Done, output := Question(step)), Asked(m, i, a), a.now, a.saveLast);
  }

  lemma AnsweredEffect(m: Memory, i: nat, a: Answer, text: string)
    requires AllNormal(m.s.steps) && i < |m.s.steps|
    ensures Worked(m, i, Answered(m, i, a, text))
  {
    SavedEffect(m, i, m.s.steps[i].(status := Done, output := text), Closed(m, i, a, text), a.now, a.saveLast);
  }

  lemma RunRespondEffect(m: Memory, i: nat, a: Answer)
    requires AllNormal(m.s.steps) && i < |m.s.steps|
    ensures Worked(m, i, RunRespond(m, i, a))
  {
    AnsweredEffect(m, i, a, a.canned);
    if a.finalText.Some? { AnsweredEffect(m, i, a, a.finalText.value); }
  }

  lemma ExecuteEffect(m: Memory, i: nat, a: Answer)
    requires LogReady(m.s) && AllNormal(m.s.steps) && i < |m.s.steps|
    ensures Worked(m, i, Execute(m, i, a))
  {
    StartedEffect(m, i, a);
    var n := Started(m, i, a);
    if a.saveFirst {
      match n.s.steps[i].kind {
        case Tool => RunToolEffect(n, i, a); WorkedAfter(m, n, i, RunTool(n, i, a));
        case Reason =>
          if a.reasoning.None? { ReasonBrokenEffect(n, i, a); } else { ReasonedEffect(n, i, a, a.reasoning.value); }
          WorkedAfter(m, n, i, RunReason(n, i, a));
        case AskUser => RunAskEffect(n, i, a); WorkedAfter(m, n, i, RunAsk(n, i, a));
        case Respond => RunRespondEffect(n, i, a); WorkedAfter(m, n, i, RunRespond(n, i, a));
        case _ =>
      }
    }
  }

  lemma WorkedAfter(m: Memory, n: Memory, i: nat, t: Turn)
    requires i < |m.s.steps| && OnlyStep(m.s.steps, n.s.steps, i)
    requires n.s.log == m.s.log && n.journal == m.journal
    requires Worked(n, i, t)
    ensures Worked(m, i, t)
  {
    OnlyStepTrans(m.s.steps, n.s.steps, t.m.s.steps, i);
  }

  /** How a turn that took a decision relates to the memory before it. */
  ghost predicate Planned(m: Memory, now: int, t: Turn) {
    var idle := t.Stop? && t.m.journal == m.journal && t.m.s.steps == m.s.steps;
    var decided := |t.m.journal| == |m.journal| + 1 && t.m.journal[..|m.journal|] == m.journal
                   && t.m.journal[|m.journal|].Decided? && t.m.journal[|m.journal|].now == now
                   && t.m.s.log == m.s.log && t.m.s.observations == m.s.observations;
    idle || (decided && AppendsBatch(m, now, t.m.s.steps, t.m.journal[|m.journal|].batch))
  }

  /** `after` is `before` followed by the pending steps of the batch. */
  ghost predicate Extends(before: seq<PlanStep>, after: seq<PlanStep>, batch: seq<PlanStep>) {
    && |after| == |before| + |batch|
    && (forall i :: 0 <= i < |before| ==> after[i] == before[i])
    && (forall i :: |before| <= i < |after| ==> after[i].status.Pending? && SameCall(after[i], batch[i - |before|]))
  }

  ghost predicate AppendsBatch(m: Memory, now: int, steps: seq<PlanStep>, batch: seq<PlanStep>) {
    Extends(m.s.steps, steps, batch) && AllNormal(steps) && Admissible(m.s, now, batch)
  }

  lemma DecidedWait(d: Decision)
    requires Waits(d.step) && forall i :: 0 <= i < |d.steps| ==> Waits(d.steps[i])
    ensures forall p :: p in DecidedSteps(d) ==> p.id != "" && Trimmed(p.id) && Trimmed(p.toolName) && p.status.Pending?
  {
    var raw := if d.steps == [] && !d.step.kind.NoKind? then [d.step] else d.steps;
    forall p | p in DecidedSteps(d)
      ensures p.id != "" && Trimmed(p.id) && Trimmed(p.toolName) && p.status.Pending?
    {
      var i :| 0 <= i < |raw| && DecidedSteps(d)[i] == p;
      assert Waits(raw[i]);
    }
  }

  lemma ConsiderEffect(m: Memory, a: Answer, goal: string, steps: seq<PlanStep>)
    requires AllNormal(m.s.steps) && Shape(m.s.steps, |m.s.steps|) && Admissible(m.s, a.now, steps)
    ensures Planned(m, a.now, Consider(m, a, goal, steps))
  {
    AdoptEffect(m, a, goal, steps);
  }

  lemma DecideEffect(m: Memory, a: Answer)
    requires AllNormal(m.s.steps) && Shape(m.s.steps, |m.s.steps|) && ProposesWork(a)
    ensures Planned(m, a.now, Decide(m, a))
  {
    match a.decision {
      case None =>
      case Some(d) =>
        DecidedWait(d);
        AdmissibleFiltered(m.s, a.now, DecidedSteps(d));
        ConsiderEffect(m, a, Trim(d.goal), FilterFresh(DecidedSteps(d), m.s, a.now));
    }
  }

  lemma AdmissibleFiltered(s: ExecutionState, now: int, proposed: seq<PlanStep>)
    requires forall p :: p in proposed ==> p.id != "" && Trimmed(p.id) && Trimmed(p.toolName) && p.status.Pending?
    ensures Admissible(s, now, FilterFresh(proposed, s, now))
  {
    FilterContract(proposed, s, now);
    SelectionDistinct(proposed, FreshSet(s, now), |proposed|);
    forall p | p in FilterFresh(proposed, s, now) ensures p in proposed {}
  }

  /** Filtered steps, ready to join the plan. */
  ghost predicate Admissible(s: ExecutionState, now: int, steps: seq<PlanStep>) {
    DistinctCalls(steps) && forall p :: p in steps ==> Proposable(s, now, p)
  }

  lemma AdoptEffect(m: Memory, a: Answer, goal: string, steps: seq<PlanStep>)
    requires AllNormal(m.s.steps) && Shape(m.s.steps, |m.s.steps|) && Admissible(m.s, a.now, steps)
    ensures Planned(m, a.now, Adopt(m, a, goal, steps))
  {
    var t := Adopt(m, a, goal, steps);
    var s := if goal == "" then m.s else m.s.(goal := goal);
    if !exists i :: 0 <= i < |steps| && steps[i].kind.NoKind? {
      assert DoneSteps(s.steps) == m.s.steps;
      var batch := FilledAll(steps, |m.s.steps|);
      FilledKeeps(m.s, a.now, steps, batch);
      BatchAppended(m, a.now, batch);
      assert t.m.s.steps == NormalSteps(m.s.steps + batch);
    }
  }

  lemma FilledKeepsCalls(steps: seq<PlanStep>, batch: seq<PlanStep>, base: nat)
    requires DistinctCalls(steps) && batch == FilledAll(steps, base)
    requires forall p :: p in steps ==> p.id != ""
    ensures DistinctCalls(batch)
    ensures forall k :: 0 <= k < |batch| ==> SameCall(batch[k], steps[k])
  {
    forall k | 0 <= k < |steps| ensures SameCall(batch[k], steps[k]) {
      assert steps[k] in steps;
    }
    forall i, j | 0 <= i < j < |batch| && batch[i].kind.Tool? && batch[j].kind.Tool?
      ensures Signature(batch[i]) != Signature(batch[j])
    {
      assert SameCall(batch[i], steps[i]) && SameCall(batch[j], steps[j]);
    }
  }

  ghost predicate Proposable(s: ExecutionState, now: int, p: PlanStep) {
    && p.id != "" && Trimmed(p.id) && Trimmed(p.toolName) && p.status.Pending?
    && (p.kind.Tool? ==> !Fresh(s, now, Signature(p)))
  }

  lemma FilledProposable(s: ExecutionState, now: int, p: PlanStep, number: nat)
    requires Proposable(s, now, p)
    ensures Proposable(s, now, Filled(p, number))
  {
    assert Signature(Filled(p, number)) == Signature(p);
  }

  lemma FilledKeeps(s: ExecutionState, now: int, steps: seq<PlanStep>, batch: seq<PlanStep>)
    requires Admissible(s, now, steps) && batch == FilledAll(steps, |s.steps|)
    ensures Admissible(s, now, batch)
  {
    FilledKeepsCalls(steps, batch, |s.steps|);
    forall p | p in batch ensures Proposable(s, now, p) {
      var k :| 0 <= k < |batch| && batch[k] == p;
      assert steps[k] in steps;
      FilledProposable(s, now, steps[k], |s.steps| + k + 1);
    }
  }

  lemma NormalizedExtends(steps: seq<PlanStep>, batch: seq<PlanStep>)
    requires AllNormal(steps)
    requires forall p :: p in batch ==> p.id != "" && Trimmed(p.id) && Trimmed(p.toolName) && p.status.Pending?
    ensures Extends(steps, NormalSteps(steps + batch), batch)
  {
    var r := NormalSteps(steps + batch);
    forall k | 0 <= k < |steps| ensures r[k] == steps[k] {
      NormalizedStepIsNormal(steps[k], k);
    }
    forall i | |steps| <= i < |r| ensures r[i].status.Pending? && SameCall(r[i], batch[i - |steps|]) {
      AppendIndex(steps, batch, i - |steps|);
      var q := NormalStep(batch[i - |steps|], i);
      assert SameCall(q, batch[i - |steps|]) && q.status.Pending?;
    }
  }

  lemma BatchAppended(m: Memory, now: int, batch: seq<PlanStep>)
    requires AllNormal(m.s.steps) && Admissible(m.s, now, batch)
    ensures AppendsBatch(m, now, NormalSteps(m.s.steps + batch), batch)
  {
    NormalStepsNormal(m.s.steps + batch);
    NormalizedExtends(m.s.steps, batch);
  }
}
