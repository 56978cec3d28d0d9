/** The plan executor in the source's own form: loops over slices and a state updated in place. */
module PlannerLoop {
  import opened Text
  import opened ExecutionStates
  import opened Planner
  import opened PlannerRuns

  /** `nextPendingStepIndex`: the first step still to run, or -1. */
  method NextPendingStepIndex(steps: seq<PlanStep>) returns (index: int)
    ensures index == if NextPending(steps) < |steps| then NextPending(steps) else -1
  {
    for i := 0 to |steps|
      invariant NextPending(steps) == i + NextPending(steps[i..])
    {
      if steps[i].status.Blank? || steps[i].status.Pending? {
        return i;
      }
    }
    return -1;
  }

  lemma {:induction false} DoneStepsSnoc(a: seq<PlanStep>, p: PlanStep)
    ensures DoneSteps(a + [p]) == DoneSteps(a) + if p.status.Done? then [p] else []
  {
    if a == [] {
      assert a + [p] == [p] && [p][1..] == [];
    } else {
      assert (a + [p])[1..] == a[1..] + [p] && (a + [p])[0] == a[0];
      DoneStepsSnoc(a[1..], p);
      Assoc(if a[0].status.Done? then [a[0]] else [], DoneSteps(a[1..]), if p.status.Done? then [p] else []);
    }
  }

  /** `completedSteps`. */
  method CompletedSteps(steps: seq<PlanStep>) returns (out: seq<PlanStep>)
    ensures out == DoneSteps(steps)
  {
    out := [];
    for i := 0 to |steps|
      invariant out == DoneSteps(steps[..i])
    {
      DoneStepsSnoc(steps[..i], steps[i]);
      assert steps[..i + 1] == steps[..i] + [steps[i]];
      if steps[i].status.Done? {
        out := out + [steps[i]];
      }
    }
    assert steps[..|steps|] == steps;
  }

  // ---- the recently-fetched index ----------------------------------------

  /** Index of the steps by ID; a later step replaces an earlier one. */
  method StepsById(steps: seq<PlanStep>) returns (byId: map<string, PlanStep>)
    ensures forall id :: id in byId <==> Attributed(steps, id).Some?
    ensures forall id :: id in byId ==> Attributed(steps, id) == Some(byId[id])
  {
    byId := map[];
    for i := 0 to |steps|
      invariant forall id :: id in byId <==> Attributed(steps[..i], id).Some?
      invariant forall id :: id in byId ==> Attributed(steps[..i], id) == Some(byId[id])
    {
      assert steps[..i + 1][..i] == steps[..i];
      byId := byId[steps[i].id := steps[i]];
    }
    assert steps[..|steps|] == steps;
  }

  /** A recorded fetch, read off one log entry. */
  datatype Fetch = Fetch(sig: Option<string>, seconds: int)

  ghost function FetchOf(steps: seq<PlanStep>, obs: Observation): Fetch {
    Fetch(Fetched(steps, obs), if obs.createdAt.At? then obs.createdAt.seconds else 0)
  }

  ghost function FetchesOf(steps: seq<PlanStep>, log: seq<Observation>): (r: seq<Fetch>)
    ensures |r| == |log|
    ensures forall i :: 0 <= i < |log| ==> r[i] == FetchOf(steps, log[i])
  {
    seq(|log|, i requires 0 <= i < |log| => FetchOf(steps, log[i]))
  }

  /** `latest` holds, for exactly the fetched signatures, the time of the latest fetch. */
  ghost predicate IndexOf(latest: map<string, int>, fetches: seq<Fetch>) {
    && (forall i :: 0 <= i < |fetches| && fetches[i].sig.Some? ==>
          fetches[i].sig.value in latest && fetches[i].seconds <= latest[fetches[i].sig.value])
    && (forall sig :: sig in latest ==> exists i :: 0 <= i < |fetches| && fetches[i] == Fetch(Some(sig), latest[sig]))
  }

  function Indexed(latest: map<string, int>, f: Fetch): map<string, int> {
    if f.sig.Some? && (f.sig.value !in latest || latest[f.sig.value] < f.seconds) then latest[f.sig.value := f.seconds]
    else latest
  }

  lemma IndexedSnoc(latest: map<string, int>, fetches: seq<Fetch>, f: Fetch)
    requires IndexOf(latest, fetches)
    ensures IndexOf(Indexed(latest, f), fetches + [f])
  {
    var next, all := Indexed(latest, f), fetches + [f];
    forall sig | sig in next ensures exists i :: 0 <= i < |all| && all[i] == Fetch(Some(sig), next[sig]) {
      if sig in latest && next[sig] == latest[sig] {
        var i :| 0 <= i < |fetches| && fetches[i] == Fetch(Some(sig), latest[sig]);
        assert all[i] == fetches[i];
      } else {
        assert all[|fetches|] == f;
      }
    }
  }

  /** `buildRecentlyFetchedData`: per signature, the time of the latest fetch. */
  method LatestFetches(steps: seq<PlanStep>, log: seq<Observation>) returns (latest: map<string, int>)
    requires NormalLog(log)
    ensures IndexOf(latest, FetchesOf(steps, log))
  {
    latest := map[];
    var byId := StepsById(steps);
    ghost var fetches := FetchesOf(steps, log);
    for i := 0 to |log|
      invariant IndexOf(latest, fetches[..i])
    {
      var obs := log[i];
      IndexedSnoc(latest, fetches[..i], fetches[i]);
      assert fetches[..i + 1] == fetches[..i] + [fetches[i]];
      assert obs.createdAt.At?;
      if obs.kind == TOOL_RESULT && obs.stepId in byId && byId[obs.stepId].toolName != "" {
        var sig := Signature(byId[obs.stepId]);
        assert Fetched(steps, obs) == Some(sig);
        if sig !in latest || latest[sig] < obs.createdAt.seconds {
          latest := latest[sig := obs.createdAt.seconds];
        }
      } else {
        assert Fetched(steps, obs) == None;
      }
    }
    assert fetches[..|log|] == fetches;
  }

  function Elapsed(seconds: int, now: int): int {
    if now < seconds then 0 else now - seconds
  }

  lemma FetchAge(steps: seq<PlanStep>, obs: Observation, now: int, sig: string)
    requires obs.createdAt.At?
    ensures Fetches(steps, obs, sig) <==> FetchOf(steps, obs).sig == Some(sig)
    ensures Age(obs, now) == Elapsed(FetchOf(steps, obs).seconds, now)
  {}

  ghost predicate Stamped(log: seq<Observation>) {
    forall i :: 0 <= i < |log| ==> log[i].createdAt.At?
  }

  /** The latest fetch alone decides freshness. */
  lemma LatestDecides(steps: seq<PlanStep>, log: seq<Observation>, now: int, latest: map<string, int>, sig: string)
    requires Stamped(log) && IndexOf(latest, FetchesOf(steps, log))
    ensures FreshIn(steps, log, now, sig) <==> sig in latest && Elapsed(latest[sig], now) <= FRESH_SECONDS
  {
    hide Fetches, Fetched, FetchOf, Age;
    var fetches := FetchesOf(steps, log);
    if FreshIn(steps, log, now, sig) {
      var i :| 0 <= i < |log| && Fetches(steps, log[i], sig) && Age(log[i], now) <= FRESH_SECONDS;
      FetchAge(steps, log[i], now, sig);
      assert fetches[i].sig == Some(sig);
    }
    if sig in latest {
      var i :| 0 <= i < |fetches| && fetches[i] == Fetch(Some(sig), latest[sig]);
      FetchAge(steps, log[i], now, sig);
    }
  }

  /** The set of signatures that are still fresh, built from the index as the filter builds it. */
  method FreshSignatures(s: ExecutionState, now: int) returns (known: set<string>)
    ensures known == FreshSet(s, now)
  {
    var n := Normalize(s, now);
    var latest := LatestFetches(n.steps, n.log);
    known := set sig | sig in latest && Elapsed(latest[sig], now) <= FRESH_SECONDS :: sig;
    FreshSetIs(s, now, latest, known);
  }

  lemma FreshSetIs(s: ExecutionState, now: int, latest: map<string, int>, known: set<string>)
    requires IndexOf(latest, FetchesOf(Normalize(s, now).steps, Normalize(s, now).log))
    requires known == set sig | sig in latest && Elapsed(latest[sig], now) <= FRESH_SECONDS :: sig
    ensures known == FreshSet(s, now)
  {
    assert Stamped(Normalize(s, now).log);
    forall sig ensures sig in known <==> sig in FreshSet(s, now) {
      LatestDecides(Normalize(s, now).steps, Normalize(s, now).log, now, latest, sig);
    }
  }

  /** `filterFreshDuplicateToolSteps`. */
  method FilterFreshDuplicateToolSteps(steps: seq<PlanStep>, s: ExecutionState, now: int) returns (out: seq<PlanStep>)
    ensures out == FilterFresh(steps, s, now)
    ensures forall p :: p in out && p.kind.Tool? ==> !Fresh(s, now, Signature(p))
    ensures DistinctCalls(out)
  {
    var known := FreshSignatures(s, now);
    ghost var start := known;
    out := [];
    for i := 0 to |steps|
      invariant Filtered(steps, start) == out + Filtered(steps[i..], known)
    {
      ghost var rest := steps[i + 1..];
      assert steps[i..][1..] == rest && steps[i..][0] == steps[i];
      if !steps[i].kind.Tool? {
        Assoc(out, [steps[i]], Filtered(rest, known));
        out := out + [steps[i]];
      } else if Signature(steps[i]) !in known {
        known := known + {Signature(steps[i])};
        Assoc(out, [steps[i]], Filtered(rest, known));
        out := out + [steps[i]];
      }
    }
    FilterContract(steps, s, now);
    SelectionDistinct(steps, FreshSet(s, now), |steps|);
  }

  /** `hasRepeatedReasonLoop`. */
  method HasRepeatedReasonLoop(s: ExecutionState, steps: seq<PlanStep>) returns (repeats: bool)
    ensures repeats <==> RepeatsReasoning(s, steps)
  {
    var last := LastCompleted(s.steps);
    if |steps| == 0 || last.None? || !last.value.kind.Reason? {
      return false;
    }
    for i := 0 to |steps|
      invariant forall k :: 0 <= k < i ==> steps[k].kind.Reason? && SemanticKey(steps[k]) == SemanticKey(last.value)
    {
      if !steps[i].kind.Reason? || SemanticKey(steps[i]) != SemanticKey(last.value) {
        return false;
      }
    }
    return true;
  }

  /** The loop that fills in what a decided step leaves blank, and stops at a step without a type. */
  method FillSteps(steps: seq<PlanStep>, base: nat) returns (typed: bool, batch: seq<PlanStep>)
    ensures typed <==> !exists i :: 0 <= i < |steps| && steps[i].kind.NoKind?
    ensures typed ==> batch == FilledAll(steps, base)
  {
    batch := [];
    for idx := 0 to |steps|
      invariant |batch| == idx && forall k :: 0 <= k < idx ==> !steps[k].kind.NoKind?
      invariant forall k :: 0 <= k < idx ==> batch[k] == Filled(steps[k], base + k + 1)
    {
      if steps[idx].kind.NoKind? {
        return false, batch;
      }
      batch := batch + [Filled(steps[idx], base + idx + 1)];
    }
    typed := true;
  }

  // ---- the executor -------------------------------------------------------

  class Executor {
    var s: ExecutionState        // the caller's state
    var stored: ExecutionState   // what the store holds
    ghost var journal: seq<Event>

    constructor (s: ExecutionState, stored: ExecutionState)
      ensures View() == Memory(s, stored, [])
    {
      this.s, this.stored, this.journal := s, stored, [];
    }

    ghost function View(): Memory
      reads this
    {
      Memory(s, stored, journal)
    }

    /** `saveExecutionState`. */
    method Save(now: int, ok: bool)
      modifies this
      ensures View() == Saved(old(View()), now, ok)
    {
      if ok {
        if s.sessionId == "" { stored := NO_STATE; } else { stored := Normalize(s, now); }
      }
      s := s.(steps := NormalSteps(s.steps));
    }

    /** The branch of the loop that has no pending step: ask for the next batch. */
    method DecideNext(a: Answer) returns (outcome: Option<Outcome>)
      modifies this
      ensures Decide(old(View()), a) == if outcome.Some? then Stop(View(), outcome.value) else Next(View())
    {
      if a.decision.None? {
        return Some(Stuck(NoDecision));
      }
      var steps := FilterFreshDuplicateToolSteps(DecidedSteps(a.decision.value), s, a.now);
      if |steps| == 0 {
        return Some(Stuck(AllDuplicates));
      }
      var repeats := HasRepeatedReasonLoop(s, steps);
      if repeats {
        return Some(Stuck(ReasonLoop));
      }
      outcome := AdoptSteps(a, steps);
    }

    method AdoptSteps(a: Answer, steps: seq<PlanStep>) returns (outcome: Option<Outcome>)
      requires a.decision.Some?
      modifies this
      ensures Adopt(old(View()), a, Trim(a.decision.value.goal), steps)
              == if outcome.Some? then Stop(View(), outcome.value) else Next(View())
    {
      var goal := Trim(a.decision.value.goal);
      if goal != "" {
        s := s.(goal := goal);
      }
      var done := CompletedSteps(s.steps);
      var typed, batch := FillSteps(steps, |done|);
      if !typed {
        return Some(Stuck(MissingType));
      }
      s := s.(steps := done + batch, status := Running, updatedAt := At(a.now));
      journal := journal + [Decided(a.now, batch)];
      Save(a.now, a.saveFirst);
      return if a.saveFirst then None else Some(Stuck(StoreFailed));
    }

    /** The common tail of a tool or reasoning step. */
    method FinishStep(a: Answer) returns (outcome: Option<Outcome>)
      modifies this
      ensures Finish(old(View()), a) == if outcome.Some? then Stop(View(), outcome.value) else Next(View())
    {
      s := s.(updatedAt := At(a.now));
      Save(a.now, a.saveLast);
      return if a.saveLast then None else Some(Stuck(StoreFailed));
    }

    method LogStep(i: nat, output: string, obs: Observation, now: int)
      requires i < |s.steps|
      modifies this
      ensures View() == Logged(old(View()), i, output, obs, now)
    {
      journal := journal + [if s.steps[i].kind.Tool? then Ran(s.steps[i], obs) else Thought(s.steps[i], obs)];
      s := WithStep(s, i, s.steps[i].(status := Done, output := output));
      s := Appended(s, obs, now);
    }

    /** Running the step at `i`, which has been marked as running and saved. */
    method RunStep(i: nat, a: Answer) returns (outcome: Option<Outcome>)
      requires i < |s.steps|
      modifies this
      ensures (match old(s.steps[i].kind)
               case Tool => RunTool(old(View()), i, a)
               case Reason => RunReason(old(View()), i, a)
               case AskUser => RunAsk(old(View()), i, a)
               case Respond => RunRespond(old(View()), i, a)
               case _ => Stop(old(View()), Stuck(UnknownType)))
              == if outcome.Some? then Stop(View(), outcome.value) else Next(View())
    {
      var step := s.steps[i];
      match step.kind {
        case Tool =>
          if a.redirect.Some? && Trim(step.toolName) == "manage_strategy" {
            stored := NO_STATE;
            return Some(Replied(a.redirect.value));
          }
          LogStep(i, Brief(a.toolResult),
                  Observation(step.id, TOOL_RESULT, Brief(a.toolResult), a.toolResult, At(a.now)), a.now);
          outcome := FinishStep(a);
        case Reason =>
          if a.reasoning.None? {
            s := WithStep(s, i, step.(status := Broken, error := a.errorText));
            s := s.(status := PlanStatus.Failed, lastError := a.errorText);
            Save(a.now, a.saveLast);
            return Some(Stuck(ReasonFailed));
          }
          LogStep(i, a.reasoning.value, Observation(step.id, REASONING, a.reasoning.value, "", At(a.now)), a.now);
          outcome := FinishStep(a);
        case AskUser =>
          var question := Question(step);
          s := WithStep(s, i, step.(status := Done, output := question));
          s := s.(status := WaitingUser, finalAnswer := question, updatedAt := At(a.now),
                  waiting := NormalWaiting(Some(a.waiting.(question := Trim(question), createdAt := At(a.now))),
                                           a.now));
          Save(a.now, a.saveLast);
          return Some(if a.saveLast then Replied(question) else Stuck(StoreFailed));
        case Respond =>
          var text := a.canned;
          if text == "" {
            if a.finalText.None? {
              return Some(Stuck(RespondFailed));
            }
            text := a.finalText.value;
          }
          s := WithStep(s, i, step.(status := Done, output := text));
          s := s.(status := PlanStatus.Completed, waiting := None, finalAnswer := text,
                  currentStepId := "", updatedAt := At(a.now));
          Save(a.now, a.saveLast);
          return Some(if a.saveLast then Replied(text) else Stuck(StoreFailed));
        case _ =>
          return Some(Stuck(UnknownType));
      }
    }

    /** Marking the step at `i` as running. */
    method StartStep(i: nat, a: Answer)
      requires i < |s.steps|
      modifies this
      ensures View() == Started(old(View()), i, a) && |s.steps| == |old(s.steps)|
    {
      s := WithStep(s, i, s.steps[i].(status := Active))
           .(status := Running, currentStepId := s.steps[i].id, updatedAt := At(a.now));
      Save(a.now, a.saveFirst);
    }

    method ExecuteStep(i: nat, a: Answer) returns (outcome: Option<Outcome>)
      requires i < |s.steps|
      modifies this
      ensures Execute(old(View()), i, a) == if outcome.Some? then Stop(View(), outcome.value) else Next(View())
    {
      StartStep(i, a);
      if !a.saveFirst {
        return Some(Stuck(StoreFailed));
      }
      outcome := RunStep(i, a);
    }

    method OneIteration(a: Answer) returns (outcome: Option<Outcome>)
      modifies this
      ensures Iterate(old(View()), a) == if outcome.Some? then Stop(View(), outcome.value) else Next(View())
    {
      var index := NextPendingStepIndex(s.steps);
      if index < 0 {
        outcome := DecideNext(a);
      } else {
        outcome := ExecuteStep(index, a);
      }
    }

    /** `executePlan`: at most twelve iterations over the pending steps and the decisions in between. */
    method ExecutePlan(answers: seq<Answer>) returns (outcome: Outcome)
      requires |answers| == MAX_ITERATIONS
      modifies this
      ensures (View(), outcome) == Run(old(View()), answers)
    {
      var i := 0;
      while i < MAX_ITERATIONS
        invariant 0 <= i <= MAX_ITERATIONS
        invariant Run(old(View()), answers) == Run(View(), answers[i..])
      {
        assert answers[i..][0] == answers[i] && answers[i..][1..] == answers[i + 1..];
        var stop := OneIteration(answers[i]);
        if stop.Some? {
          return stop.value;
        }
        i := i + 1;
      }
      return Stuck(TooManyIterations);
    }
  }
}
