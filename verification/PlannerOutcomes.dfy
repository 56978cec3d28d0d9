/** Why an iteration stops, what one that goes on leaves behind, and what a run never changes. */
module PlannerOutcomes {
  import opened Text
  import opened ExecutionStates
  import opened Planner
  import opened PlannerRuns
  import opened PlannerTheorems
  import opened PlannerSafety
  import opened PlannerReplies

  // ---- why an iteration stops ---------------------------------------------

  /** Whether a proposed step is a call whose data is fresh. */
  ghost predicate Known(m: Memory, a: Answer, p: PlanStep) { p.kind.Tool? && Fresh(m.s, a.now, Signature(p)) }

  ghost function Decided(a: Answer): seq<PlanStep>
    requires a.decision.Some?
  {
    NormalSteps(Proposed(a.decision.value))
  }

  lemma {:induction false} FilteredEmptyIff(steps: seq<PlanStep>, known: set<string>)
    ensures Filtered(steps, known) == [] <==>
            forall i :: 0 <= i < |steps| ==> steps[i].kind.Tool? && Signature(steps[i]) in known
  {
    hide Signature;
    if steps != [] {
      FilteredEmptyIff(steps[1..], known);
      assert forall i :: 0 < i < |steps| ==> steps[i] == steps[1..][i - 1];
      if Filtered(steps, known) == [] {
        forall i | 0 <= i < |steps| ensures steps[i].kind.Tool? && Signature(steps[i]) in known {
          if i > 0 { assert steps[i] == steps[1..][i - 1]; }
        }
      }
    }
  }

  /** The last completed step reasoned, and every step that passed reasons in the same words again. */
  ghost predicate Loops(s: ExecutionState, kept: seq<PlanStep>) {
    kept != [] && exists k :: LastDone(s.steps, k) && Echo(kept, s.steps[k])
  }

  ghost predicate Echo(kept: seq<PlanStep>, last: PlanStep) {
    && last.kind.Reason?
    && forall i :: 0 <= i < |kept| ==> kept[i].kind.Reason? && SemanticKey(kept[i]) == SemanticKey(last)
  }

  ghost predicate LastDone(steps: seq<PlanStep>, k: int) {
    0 <= k < |steps| && steps[k].status.Done? && forall j :: k < j < |steps| ==> !steps[j].status.Done?
  }

  lemma {:induction false} DoneStepsAppend(a: seq<PlanStep>, b: seq<PlanStep>)
    ensures DoneSteps(a + b) == DoneSteps(a) + DoneSteps(b)
  {
    if a == [] {
      assert a + b == b;
    } else {
      assert (a + b)[1..] == a[1..] + b && (a + b)[0] == a[0];
      DoneStepsAppend(a[1..], b);
    }
  }

  /** The completed steps, one by one: each appended step is kept exactly when it is done. */
  lemma DoneStepsSnoc(a: seq<PlanStep>, p: PlanStep)
    ensures DoneSteps(a + [p]) == DoneSteps(a) + if p.status.Done? then [p] else []
  {
    DoneStepsAppend(a, [p]);
    assert [p][1..] == [];
  }

  lemma LastDoneSnoc(a: seq<PlanStep>, p: PlanStep, k: int)
    ensures !p.status.Done? && LastDone(a, k) ==> LastDone(a + [p], k) && (a + [p])[k] == a[k]
    ensures p.status.Done? ==> LastDone(a + [p], |a|)
  {}

  lemma LastCompletedSnoc(a: seq<PlanStep>, p: PlanStep)
    ensures LastCompleted(a + [p]) == if p.status.Done? then Some(p) else LastCompleted(a)
  {
    hide DoneSteps;
    DoneStepsSnoc(a, p);
  }

  lemma {:induction false} LastCompletedIs(steps: seq<PlanStep>)
    ensures LastCompleted(steps).None? <==> forall k :: 0 <= k < |steps| ==> !steps[k].status.Done?
    ensures LastCompleted(steps).Some? ==> exists k :: LastDone(steps, k) && steps[k] == LastCompleted(steps).value
  {
    if steps != [] {
      hide LastCompleted, LastDone;
      var (a, p) := (steps[..|steps| - 1], steps[|steps| - 1]);
      assert steps == a + [p];
      LastCompletedSnoc(a, p);
      LastCompletedIs(a);
      LastDoneSnoc(a, p, 0);
      if !p.status.Done? && LastCompleted(a).Some? {
        var k :| LastDone(a, k) && a[k] == LastCompleted(a).value;
        LastDoneSnoc(a, p, k);
      }
    }
  }

  lemma LoopsIff(s: ExecutionState, kept: seq<PlanStep>)
    ensures RepeatsReasoning(s, kept) <==> Loops(s, kept)
  {
    hide SemanticKey, LastCompleted;
    LastCompletedIs(s.steps);
    if LastCompleted(s.steps).Some? {
      var k :| LastDone(s.steps, k) && s.steps[k] == LastCompleted(s.steps).value;
      if Loops(s, kept) {
        var k' :| LastDone(s.steps, k') && Echo(kept, s.steps[k']);
        assert k == k';
      }
    }
  }

  ghost predicate AllKnown(m: Memory, a: Answer) {
    a.decision.Some? && forall i :: 0 <= i < |Decided(a)| ==> Known(m, a, Decided(a)[i])
  }

  ghost predicate LoopsAgain(m: Memory, a: Answer) {
    a.decision.Some? && Loops(m.s, FilterFresh(Decided(a), m.s, a.now))
  }

  ghost predicate LacksType(a: Answer) {
    a.decision.Some? && exists i :: 0 <= i < |Proposed(a.decision.value)| && Proposed(a.decision.value)[i].kind.NoKind?
  }

  /** The step comes to its last save. */
  ghost predicate Completes(m: Memory, a: Answer)
    requires Working(m)
  {
    match Current(m).kind
    case Tool => !IsRedirected(Current(m), a)
    case Reason => a.reasoning.Some?
    case AskUser => true
    case Respond => a.canned != "" || a.finalText.Some?
    case _ => false
  }

  /** The exact condition of each way to stop without a reply. */
  ghost predicate Because(m: Memory, a: Answer, why: Failure) {
    match why
    case NoDecision => !Working(m) && a.decision.None?
    case AllDuplicates => !Working(m) && AllKnown(m, a)
    case ReasonLoop => !Working(m) && LoopsAgain(m, a)
    case MissingType => !Working(m) && LacksType(a) && !LoopsAgain(m, a)
    case StoreFailed =>
      if Working(m) then !a.saveFirst || (!a.saveLast && Completes(m, a))
      else !a.saveFirst && a.decision.Some? && !AllKnown(m, a) && !LoopsAgain(m, a) && !LacksType(a)
    case ReasonFailed => Working(m) && a.saveFirst && Current(m).kind.Reason? && a.reasoning.None?
    case RespondFailed =>
      Working(m) && a.saveFirst && Current(m).kind.Respond? && a.canned == "" && a.finalText.None?
    case UnknownType => Working(m) && a.saveFirst && (Current(m).kind.NoKind? || Current(m).kind.OtherKind?)
    case TooManyIterations => false
  }

  /** A reply is given exactly when a question, a response or a redirected tool gets through its saves. */
  ghost predicate Replies(m: Memory, a: Answer) {
    Working(m) && a.saveFirst &&
      (IsRedirected(Current(m), a)
       || ((Current(m).kind.AskUser? || Current(m).kind.Respond?) && Completes(m, a) && a.saveLast))
  }

  lemma EmptyIffAllKnown(m: Memory, a: Answer)
    requires a.decision.Some?
    ensures FilterFresh(Decided(a), m.s, a.now) == [] <==> AllKnown(m, a)
  {
    hide Fresh, Signature, NormalSteps, Filtered;
    FilteredEmptyIff(Decided(a), FreshSet(m.s, a.now));
  }

  lemma LacksTypeIff(m: Memory, a: Answer)
    requires a.decision.Some?
    ensures var kept := FilterFresh(Decided(a), m.s, a.now);
            LacksType(a) <==> exists i :: 0 <= i < |kept| && kept[i].kind.NoKind?
  {
    hide Filtered;
    var (raw, kept) := (Proposed(a.decision.value), FilterFresh(Decided(a), m.s, a.now));
    if i :| 0 <= i < |raw| && raw[i].kind.NoKind? {
      FilterContract(Decided(a), m.s, a.now);
      assert Decided(a)[i] in kept;
    }
    if i :| 0 <= i < |kept| && kept[i].kind.NoKind? {
      assert kept[i] in kept;
      FilteredFrom(Decided(a), m.s, a.now, kept[i]);
    }
  }

  lemma DecideStops(m: Memory, a: Answer, why: Failure)
    requires !Working(m)
    ensures Decide(m, a).Stop? ==> Decide(m, a).outcome.Stuck?
    ensures Decide(m, a).Stop? && Decide(m, a).outcome == Stuck(why) <==> Because(m, a, why)
  {
    hide Filtered, FilterFresh, NormalSteps, RepeatsReasoning, Loops, AllKnown, Saved, Adopted, LacksType;
    DecideNeverReplies(m, a);
    if a.decision.Some? {
      var kept := FilterFresh(Decided(a), m.s, a.now);
      assert DecidedSteps(a.decision.value) == Decided(a);
      EmptyIffAllKnown(m, a);
      LoopsIff(m.s, kept);
      LacksTypeIff(m, a);
      if kept == [] { NothingLoops(m.s); }
    } else {
      Undecided(m, a);
    }
  }

  lemma NothingLoops(s: ExecutionState)
    ensures !Loops(s, [])
  {}

  lemma Undecided(m: Memory, a: Answer)
    requires a.decision.None?
    ensures !AllKnown(m, a) && !LacksType(a)
  {}

  ghost predicate Stuck'(t: Turn, why: Failure) { t.Stop? && t.outcome == Stuck(why) }

  ghost predicate Replied'(t: Turn) { t.Stop? && t.outcome.Replied? }

  /** A turn that comes to its last save goes on if that works and stops if it does not. */
  ghost predicate AtLastSave(t: Turn, saved: bool) {
    if saved then t.Next? else Stuck'(t, StoreFailed)
  }

  /** How the work on a step of each kind ends. */
  lemma KindsEnd(n: Memory, i: nat, a: Answer)
    requires i < |n.s.steps|
    ensures var redirected := a.redirect.Some? && Trim(n.s.steps[i].toolName) == "manage_strategy";
            if redirected then Replied'(RunTool(n, i, a)) else AtLastSave(RunTool(n, i, a), a.saveLast)
    ensures if a.reasoning.None? then Stuck'(RunReason(n, i, a), ReasonFailed)
            else AtLastSave(RunReason(n, i, a), a.saveLast)
    ensures if a.saveLast then Replied'(RunAsk(n, i, a)) else Stuck'(RunAsk(n, i, a), StoreFailed)
    ensures if a.canned == "" && a.finalText.None? then Stuck'(RunRespond(n, i, a), RespondFailed)
            else if a.saveLast then Replied'(RunRespond(n, i, a)) else Stuck'(RunRespond(n, i, a), StoreFailed)
  {
    hide Saved, Asked, Closed, Logged, ReasonBroken, Trim, Question, Brief;
  }

  lemma ExecuteStops(m: Memory, a: Answer, why: Failure)
    requires Working(m)
    ensures var t := Execute(m, NextPending(m.s.steps), a);
            && (t.Stop? && t.outcome == Stuck(why) <==> Because(m, a, why))
            && (t.Stop? && t.outcome.Replied? <==> Replies(m, a))
  {
    hide Started, RunTool, RunReason, RunAsk, RunRespond, Trim, AllKnown, LoopsAgain, LacksType, NormalStep;
    var (i, step) := (NextPending(m.s.steps), Current(m));
    StartedStep(m, i, a);
    NormalStepReads(step.(status := Active), i);
    TrimTwice(step.toolName);
    KindsEnd(Started(m, i, a), i, a);
  }

  /**
   * Why an iteration stops, exactly: for each reason not to reply its condition, and the condition under which it
   * replies. In every other case the run goes on.
   */
  lemma IterateStopsIff(m: Memory, a: Answer, why: Failure)
    ensures Iterate(m, a).Stop? && Iterate(m, a).outcome == Stuck(why) <==> Because(m, a, why)
    ensures Iterate(m, a).Stop? && Iterate(m, a).outcome.Replied? <==> Replies(m, a)
  {
    hide Execute, Decide, Because, Replies;
    if Working(m) {
      ExecuteStops(m, a, why);
    } else {
      DecideStops(m, a, why);
      IdleNeverReplies(m, a);
    }
  }

  lemma IdleNeverReplies(m: Memory, a: Answer)
    requires !Working(m)
    ensures !Replies(m, a)
  {}

  /** A run stops for the reason of its last iteration; it runs out exactly when no iteration stops. */
  lemma {:induction false} RunStopsBecause(m: Memory, answers: seq<Answer>)
    ensures var (heads, o) := (Heads(m, answers), Run(m, answers).1);
            if |heads| == |answers| + 1 then o == Stuck(TooManyIterations)
            else
              var (h, a) := (heads[|heads| - 1], answers[|heads| - 1]);
              match o case Replied(_) => Replies(h, a) case Stuck(why) => Because(h, a, why)
    decreases |answers|
  {
    hide Iterate, Because, Replies;
    if answers != [] {
      var t := Iterate(m, answers[0]);
      if t.Next? {
        HeadsNext(m, answers);
        RunStopsBecause(t.m, answers[1..]);
      } else {
        IterateStopsIff(m, answers[0], if t.outcome.Stuck? then t.outcome.why else NoDecision);
      }
    }
  }

  // ---- what an iteration that goes on leaves behind -----------------------

  /** The store holds the state in memory, in normal form, or nothing for a session without identifier. */
  ghost predicate InStore(m: Memory, now: int) {
    m.stored == if m.s.sessionId == "" then NO_STATE else Normalize(m.s, now)
  }

  /** The step is done, is the current one, and its output is what was summed up or reasoned. */
  ghost predicate Worked(m: Memory, a: Answer, n: Memory)
    requires Working(m)
  {
    var (i, step) := (NextPending(m.s.steps), Current(m));
    && |n.s.steps| == |m.s.steps| && n.s.steps[i].status.Done? && n.s.steps[i].title == Trim(step.title)
    && n.s.currentStepId == n.s.steps[i].id && n.s.goal == Trim(m.s.goal)
    && (step.kind.Tool? ==> SumsUp(a.toolResult, n.s.steps[i].output))
    && (step.kind.Reason? ==> a.reasoning.Some? && n.s.steps[i].output == Trim(a.reasoning.value))
  }

  /** The plan is the completed steps and the batch, and its goal is the new one if any was given. */
  ghost predicate Planned(m: Memory, a: Answer, n: Memory) {
    && a.decision.Some?
    && n.s.goal == (if Trim(a.decision.value.goal) != "" then Trim(a.decision.value.goal) else m.s.goal)
    && n.s.currentStepId == m.s.currentStepId
    && |n.s.steps| == |DoneSteps(m.s.steps)| + |FilterFresh(Decided(a), m.s, a.now)|
  }

  /** What holds of every iteration that goes on. */
  ghost predicate GoesOn(m: Memory, a: Answer, n: Memory) {
    && n.s.status == Running && n.s.updatedAt == At(a.now) && InStore(n, a.now)
    && n.s.sessionId == m.s.sessionId && n.s.userId == m.s.userId && n.s.planId == m.s.planId
    && (if Working(m) then Worked(m, a, n) else Planned(m, a, n))
  }

  lemma NormalStepsTwice(steps: seq<PlanStep>)
    ensures NormalSteps(NormalSteps(steps)) == NormalSteps(steps)
  {
    hide StepNormal;
    NormalStepsNormal(steps);
    NormalStepsNormal(NormalSteps(steps));
  }

  lemma SavedInStore(m: Memory, now: int)
    ensures InStore(Saved(m, now, true), now)
  {
    hide NormalSteps, NormalObservations, CompactNotes, NormalWaiting, Trim;
    NormalStepsTwice(m.s.steps);
  }

  lemma BriefTrimmed(result: string)
    ensures Trim(Brief(result)) == Brief(result)
  {
    hide Trim, Brief;
  }

  lemma LoggedGoesOn(n: Memory, i: nat, output: string, obs: Observation, a: Answer)
    requires i < |n.s.steps| && n.s.currentStepId == n.s.steps[i].id && StepNormal(n.s.steps[i])
    requires n.s.status == Running
    ensures var r := Finish(Logged(n, i, output, obs, a.now), a).m;
            && r.s.status == Running && r.s.updatedAt == At(a.now) && (a.saveLast ==> InStore(r, a.now))
            && r.s.sessionId == n.s.sessionId && r.s.userId == n.s.userId && r.s.planId == n.s.planId
            && |r.s.steps| == |n.s.steps| && r.s.steps[i].status.Done? && r.s.steps[i].output == Trim(output)
            && r.s.steps[i].title == n.s.steps[i].title && r.s.currentStepId == r.s.steps[i].id
            && r.s.goal == Trim(n.s.goal)
  {
    hide Trim, NormalObservations, CompactNotes, NormalWaiting, StepId, InStore;
    TrimTwice(output);
    var l := Logged(n, i, output, obs, a.now);
    SavedInStore(l.(s := l.s.(updatedAt := At(a.now))), a.now);
  }

  lemma StartedMarks(m: Memory, i: nat, a: Answer)
    requires i < |m.s.steps| && StepNormal(m.s.steps[i])
    ensures var n := Started(m, i, a);
            && |n.s.steps| == |m.s.steps| && n.s.steps[i] == m.s.steps[i].(status := Active)
            && n.s.currentStepId == n.s.steps[i].id && n.s.status == Running
            && n.s.sessionId == m.s.sessionId && n.s.userId == m.s.userId && n.s.planId == m.s.planId
            && n.s.goal == m.s.goal
  {
    hide Trim, Normalize;
    NormalizedStepIsNormal(m.s.steps[i].(status := Active), i);
  }

  lemma ExecuteGoesOn(m: Memory, a: Answer)
    requires Working(m) && StepNormal(Current(m)) && Execute(m, NextPending(m.s.steps), a).Next?
    ensures GoesOn(m, a, Execute(m, NextPending(m.s.steps), a).m)
  {
    hide Started, Finish, Logged, Trim, InStore, SumsUp, Brief, RunAsk, RunRespond;
    var i := NextPending(m.s.steps);
    var n := Started(m, i, a);
    StartedMarks(m, i, a);
    ClosingTells(n, i, a);
    FinishNext(n, i, a);
    BriefSumsUp(a.toolResult);
    BriefTrimmed(a.toolResult);
    if n.s.steps[i].kind.Tool? {
      var obs := Observation(n.s.steps[i].id, TOOL_RESULT, Brief(a.toolResult), a.toolResult, At(a.now));
      LoggedGoesOn(n, i, Brief(a.toolResult), obs, a);
    } else if a.reasoning.Some? {
      LoggedGoesOn(n, i, a.reasoning.value, Observation(n.s.steps[i].id, REASONING, a.reasoning.value, "", At(a.now)),
                   a);
    }
  }

  lemma FinishNext(n: Memory, i: nat, a: Answer)
    ensures forall m: Memory :: Finish(m, a).Next? ==> a.saveLast
  {}

  lemma DecideGoesOn(m: Memory, a: Answer)
    requires !Working(m) && Decide(m, a).Next?
    ensures GoesOn(m, a, Decide(m, a).m)
  {
    hide FilterFresh, NormalSteps, RepeatsReasoning, InStore, Normalize, Trim, Filled;
    var s := if Trim(a.decision.value.goal) == "" then m.s else m.s.(goal := Trim(a.decision.value.goal));
    assert DecidedSteps(a.decision.value) == Decided(a);
    SavedInStore(Adopted(m, s, FilterFresh(Decided(a), m.s, a.now), a.now), a.now);
  }

  /**
   * An iteration that goes on keeps the identity of the session, is stored at once, and has either completed its step,
   * with the summary or the reasoning as its output, or adopted the batch and the goal that was decided.
   */
  lemma IterateGoesOn(m: Memory, a: Answer)
    requires AllNormal(m.s.steps) && Iterate(m, a).Next?
    ensures GoesOn(m, a, Iterate(m, a).m)
  {
    hide Execute, Decide, GoesOn;
    if Working(m) { ExecuteGoesOn(m, a); } else { DecideGoesOn(m, a); }
  }

  lemma BrokenMarks(n: Memory, i: nat, a: Answer)
    requires i < |n.s.steps|
    ensures var r := Saved(ReasonBroken(n, i, a), a.now, a.saveLast);
            && r.s.status == PlanStatus.Failed && r.s.lastError == a.errorText && i < |r.s.steps|
            && r.s.steps[i].status.Broken? && r.s.steps[i].error == Trim(a.errorText)
            && (a.saveLast ==> InStore(r, a.now))
  {
    hide Trim, Normalize, InStore, StepId;
    SavedInStore(ReasonBroken(n, i, a), a.now);
  }

  /** A reasoning that fails marks its step and the run as failed, with the text of the failure. */
  lemma FailureIsMarked(m: Memory, a: Answer)
    requires Working(m) && a.saveFirst && Current(m).kind.Reason? && a.reasoning.None?
    ensures var (i, r) := (NextPending(m.s.steps), Iterate(m, a).m);
            && r.s.status == PlanStatus.Failed && r.s.lastError == a.errorText && i < |r.s.steps|
            && r.s.steps[i].status.Broken? && r.s.steps[i].error == Trim(a.errorText)
            && (a.saveLast ==> InStore(r, a.now))
  {
    hide Trim, Started, Saved, ReasonBroken, InStore, NormalStep;
    var i := NextPending(m.s.steps);
    var n := Started(m, i, a);
    StartedStep(m, i, a);
    NormalStepReads(Current(m).(status := Active), i);
    BrokenMarks(n, i, a);
  }

  // ---- whole runs ---------------------------------------------------------

  ghost predicate AllGoOn(heads: seq<Memory>, answers: seq<Answer>) {
    |heads| <= |answers| + 1 && forall k :: 0 <= k < |heads| - 1 ==> GoesOn(heads[k], answers[k], heads[k + 1])
  }

  lemma AllGoOnCons(m: Memory, more: seq<Memory>, answers: seq<Answer>)
    requires answers != [] && more != [] && GoesOn(m, answers[0], more[0]) && AllGoOn(more, answers[1..])
    ensures AllGoOn([m] + more, answers)
  {
    hide GoesOn;
    var heads := [m] + more;
    forall k | 0 <= k < |heads| - 1 ensures GoesOn(heads[k], answers[k], heads[k + 1]) {
      if k > 0 { assert GoesOn(more[k - 1], answers[1..][k - 1], more[k]); }
    }
  }

  lemma HeadNormal(entry: ExecutionState, m: Memory, c: nat)
    requires AtHead(entry, m, c)
    ensures AllNormal(m.s.steps)
  {}

  /** From every head of a run to the next one: the step, the store, the goal and the identity are as they should be. */
  lemma {:induction false} RunGoesOn(entry: ExecutionState, m: Memory, c: nat, answers: seq<Answer>)
    requires AtHead(entry, m, c) && AllProposeWork(answers)
    ensures AllGoOn(Heads(m, answers), answers)
    decreases |answers|
  {
    hide Iterate, GoesOn, AtHead, ProposesWork;
    if answers != [] && Iterate(m, answers[0]).Next? {
      var n := Iterate(m, answers[0]).m;
      HeadNormal(entry, m, c);
      IterateGoesOn(m, answers[0]);
      assert ProposesWork(answers[0]);
      IterateKeepsHead(entry, m, c, answers[0]);
      RunGoesOn(entry, n, if c < |m.s.steps| then c + 1 else c, answers[1..]);
      HeadsNext(m, answers);
      AllGoOnCons(m, Heads(n, answers[1..]), answers);
    }
  }

  /**
   * A whole run of `executePlan`, whatever it is answered: what it replies, what it logs, why it stops, and what each
   * iteration leaves behind.
   */
  lemma ExecutePlanTells(s: ExecutionState, stored: ExecutionState, answers: seq<Answer>)
    requires Ready(s) && |answers| == 12 && AllProposeWork(answers)
    ensures MAX_ITERATIONS == 12
    ensures var m := Memory(s, stored, []);
            var (heads, (r, o)) := (Heads(m, answers), Run(m, answers));
            && AllGoOn(heads, answers) && Truthful(heads, answers, r.journal, 0)
            && (o.Replied? ==> |heads| <= |answers| && Says(heads[|heads| - 1], answers[|heads| - 1], r, o.text))
            && (o.Stuck? ==>
                  if |heads| == |answers| + 1 then o.why == TooManyIterations
                  else Because(heads[|heads| - 1], answers[|heads| - 1], o.why))
  {
    hide Run, Heads, Because, Says, PlannerReplies.Truthful, AllGoOn;
    var m := Memory(s, stored, []);
    ReadyAtHead(s, stored);
    RunGoesOn(s, m, |s.steps|, answers);
    RunTells(m, answers);
    RunStopsBecause(m, answers);
    if Run(m, answers).1.Replied? { RunSays(m, answers); }
  }
}
