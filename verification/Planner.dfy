/** The bounded plan executor: what one iteration does, as a function of the oracle's answer. */
module Planner {
  import opened Text
  import opened ExecutionStates

  const MAX_ITERATIONS: nat := 12
  const FRESH_SECONDS: int := 60
  const BRIEF_MAX: nat := 1000
  const TOOL_RESULT := "tool_result"
  const REASONING := "reasoning"

  // ---- steps --------------------------------------------------------------

  function DoneSteps(steps: seq<PlanStep>): (r: seq<PlanStep>)
    ensures forall i :: 0 <= i < |r| ==> r[i].status.Done?
    ensures (forall i :: 0 <= i < |steps| ==> steps[i].status.Done?) ==> r == steps
  {
    if steps == [] then []
    else (if steps[0].status.Done? then [steps[0]] else []) + DoneSteps(steps[1..])
  }

  predicate Waits(step: PlanStep) { step.status.Blank? || step.status.Pending? }

  /** The first step still to run, or the number of steps. */
  function NextPending(steps: seq<PlanStep>): (r: nat)
    ensures r <= |steps|
    ensures r < |steps| ==> Waits(steps[r])
    ensures forall i :: 0 <= i < r ==> !Waits(steps[i])
  {
    if steps == [] || Waits(steps[0]) then 0 else 1 + NextPending(steps[1..])
  }

  function Signature(step: PlanStep): string {
    Trim(step.toolName) + "|" + (if step.args == "" then "{}" else step.args)
  }

  // ---- recently fetched data ---------------------------------------------

  /** The step an observation is attributed to: the last one carrying the ID. */
  function Attributed(steps: seq<PlanStep>, id: string): (r: Option<PlanStep>)
    ensures r.Some? ==> r.value in steps && r.value.id == id
    ensures r.None? <==> forall i :: 0 <= i < |steps| ==> steps[i].id != id
  {
    if steps == [] then None
    else
      var last := steps[|steps| - 1];
      if last.id == id then Some(last) else Attributed(steps[..|steps| - 1], id)
  }

  /** The signature whose fetch `obs` records, as the index reads it. */
  function Fetched(steps: seq<PlanStep>, obs: Observation): Option<string> {
    var step := Attributed(steps, obs.stepId);
    if obs.kind == TOOL_RESULT && step.Some? && step.value.toolName != "" then Some(Signature(step.value)) else None
  }

  predicate Fetches(steps: seq<PlanStep>, obs: Observation, sig: string) {
    Fetched(steps, obs) == Some(sig)
  }

  function Age(obs: Observation, now: int): int {
    match obs.createdAt
    case Unset => 0
    case At(t) => if now < t then 0 else now - t
  }

  /** `sig` has a recorded fetch at most a minute old. */
  predicate FreshIn(steps: seq<PlanStep>, log: seq<Observation>, now: int, sig: string) {
    exists i :: 0 <= i < |log| && Fetches(steps, log[i], sig) && Age(log[i], now) <= FRESH_SECONDS
  }

  predicate Fresh(s: ExecutionState, now: int, sig: string) {
    FreshIn(Normalize(s, now).steps, Normalize(s, now).log, now, sig)
  }

  function FreshSet(s: ExecutionState, now: int): (r: set<string>)
    ensures forall sig :: sig in r <==> Fresh(s, now, sig)
  {
    var n := Normalize(s, now);
    set step | step in n.steps && Fresh(s, now, Signature(step)) :: Signature(step)
  }

  // ---- the duplicate filter ----------------------------------------------

  function Filtered(steps: seq<PlanStep>, known: set<string>): seq<PlanStep> {
    if steps == [] then []
    else if !steps[0].kind.Tool? then [steps[0]] + Filtered(steps[1..], known)
    else if Signature(steps[0]) in known then Filtered(steps[1..], known)
    else [steps[0]] + Filtered(steps[1..], known + {Signature(steps[0])})
  }

  function FilterFresh(steps: seq<PlanStep>, s: ExecutionState, now: int): seq<PlanStep> {
    Filtered(steps, FreshSet(s, now))
  }

  // ---- decisions ----------------------------------------------------------

  datatype Decision = Decision(goal: string, steps: seq<PlanStep>, step: PlanStep)

  /** `normalizeNextStepDecision`: a blank ID becomes step_1, step_2, ... anew in every decision. */
  function DecidedSteps(d: Decision): (r: seq<PlanStep>)
    ensures forall i :: 0 <= i < |r| ==> r[i].id != ""
  {
    NormalSteps(if d.steps == [] && !d.step.kind.NoKind? then [d.step] else d.steps)
  }

  function KindText(kind: StepKind): string {
    match kind
    case NoKind => ""
    case Tool => "tool"
    case Reason => "reason"
    case AskUser => "ask_user"
    case Respond => "respond"
    case OtherKind(text) => text
  }

  function SemanticKey(step: PlanStep): string {
    Lower(Trim(KindText(step.kind) + "|" + step.toolName + "|" + step.title + "|" + step.instruction))
  }

  function LastCompleted(steps: seq<PlanStep>): Option<PlanStep> {
    var done := DoneSteps(steps);
    if done == [] then None else Some(done[|done| - 1])
  }

  predicate RepeatsReasoning(s: ExecutionState, steps: seq<PlanStep>) {
    var last := LastCompleted(s.steps);
    && |steps| > 0 && last.Some? && last.value.kind.Reason?
    && forall i :: 0 <= i < |steps| ==> steps[i].kind.Reason? && SemanticKey(steps[i]) == SemanticKey(last.value)
  }

  function WithSpaces(id: string): string {
    seq(|id|, i requires 0 <= i < |id| => if id[i] == '_' then ' ' else id[i])
  }

  function Filled(step: PlanStep, number: nat): (r: PlanStep)
    ensures step.id != "" ==> r.id == step.id
    ensures r.kind == step.kind && r.toolName == step.toolName && r.args == step.args
    ensures r.status == if step.status.Blank? then Pending else step.status
  {
    var id := if step.id == "" then StepId(number) else step.id;
    step.(id := id, title := if step.title == "" then WithSpaces(id) else step.title,
          status := if step.status.Blank? then Pending else step.status)
  }

  function FilledAll(steps: seq<PlanStep>, base: nat): (r: seq<PlanStep>)
    ensures |r| == |steps|
    ensures forall i :: 0 <= i < |steps| ==> r[i] == Filled(steps[i], base + i + 1)
  {
    seq(|steps|, i requires 0 <= i < |steps| => Filled(steps[i], base + i + 1))
  }

  // ---- what the outside world answers during one iteration ---------------

  datatype Answer = Answer(
    now: int,                     // the clock
    decision: Option<Decision>,   // the step selector; None when the call fails
    redirect: Option<string>,     // reply of the strategy-creation redirect, when it takes the step
    toolResult: string,
    reasoning: Option<string>,    // None when the call fails
    errorText: string,            // the text of that failure
    waiting: Waiting,             // what is inferred about a question: intent, fields and target
    canned: string,               // the deterministic final text, or blank
    finalText: Option<string>,    // None when the call fails
    saveFirst: bool, saveLast: bool)

  datatype Failure = NoDecision | AllDuplicates | ReasonLoop | MissingType | StoreFailed | ReasonFailed
                   | RespondFailed | UnknownType | TooManyIterations

  datatype Outcome = Replied(text: string) | Stuck(why: Failure)

  /** What happened, in order: decisions taken, tools run, reasoning recorded. */
  datatype Event =
    | Decided(now: int, batch: seq<PlanStep>)
    | Ran(step: PlanStep, obs: Observation)
    | Thought(step: PlanStep, obs: Observation)

  /** The state in memory, the state in the store, and the history of the run. */
  datatype Memory = Memory(s: ExecutionState, stored: ExecutionState, journal: seq<Event>)

  datatype Turn = Next(m: Memory) | Stop(m: Memory, outcome: Outcome)

  // ---- one iteration ------------------------------------------------------

  /** Saving stores the normalised state; the steps in memory share its storage and are normalised too. */
  function Saved(m: Memory, now: int, ok: bool): Memory {
    m.(s := m.s.(steps := NormalSteps(m.s.steps)),
       stored := if !ok then m.stored else if m.s.sessionId == "" then NO_STATE else Normalize(m.s, now))
  }

  function Brief(value: string): (r: string)
    ensures Trimmed(r)
    ensures Trim(value) == "" ==> r == ""
  {
    var v := Trim(value);
    if |v| <= BRIEF_MAX then v
    else
      var head := Trim(v[..BRIEF_MAX]);
      assert v[..BRIEF_MAX][0] == v[0];
      var r := head + "...";
      r
  }

  function WithStep(s: ExecutionState, i: nat, step: PlanStep): ExecutionState
    requires i < |s.steps|
  {
    s.(steps := s.steps[i := step])
  }

  /** The decided steps join the completed ones, before saving. */
  function Adopted(m: Memory, s: ExecutionState, steps: seq<PlanStep>, now: int): (r: Memory)
    ensures r.s.steps == DoneSteps(s.steps) + FilledAll(steps, |DoneSteps(s.steps)|)
    ensures r.s.log == s.log && r.s.observations == s.observations
    ensures r.journal == m.journal + [Decided(now, FilledAll(steps, |DoneSteps(s.steps)|))]
  {
    var batch := FilledAll(steps, |DoneSteps(s.steps)|);
    var planned := s.(steps := DoneSteps(s.steps) + batch, status := Running, updatedAt := At(now));
    Memory(planned, m.stored, m.journal + [Decided(now, batch)])
  }

  function Adopt(m: Memory, a: Answer, goal: string, steps: seq<PlanStep>): Turn {
    var s := if goal == "" then m.s else m.s.(goal := goal);
    if exists i :: 0 <= i < |steps| && steps[i].kind.NoKind? then Stop(m.(s := s), Stuck(MissingType))
    else
      var saved := Saved(Adopted(m, s, steps, a.now), a.now, a.saveFirst);
      if a.saveFirst then Next(saved) else Stop(saved, Stuck(StoreFailed))
  }

  function Consider(m: Memory, a: Answer, goal: string, steps: seq<PlanStep>): Turn {
    if steps == [] then Stop(m, Stuck(AllDuplicates))
    else if RepeatsReasoning(m.s, steps) then Stop(m, Stuck(ReasonLoop))
    else Adopt(m, a, goal, steps)
  }

  function Decide(m: Memory, a: Answer): Turn {
    match a.decision
    case None => Stop(m, Stuck(NoDecision))
    case Some(d) => Consider(m, a, Trim(d.goal), FilterFresh(DecidedSteps(d), m.s, a.now))
  }

  function Started(m: Memory, i: nat, a: Answer): Memory
    requires i < |m.s.steps|
  {
    var step := m.s.steps[i];
    var s := WithStep(m.s, i, step.(status := Active)).(status := Running, currentStepId := step.id,
                                                        updatedAt := At(a.now));
    Saved(m.(s := s), a.now, a.saveFirst)
  }

  function Finish(m: Memory, a: Answer): Turn {
    var saved := Saved(m.(s := m.s.(updatedAt := At(a.now))), a.now, a.saveLast);
    if a.saveLast then Next(saved) else Stop(saved, Stuck(StoreFailed))
  }

  /** Step `i` is done with the given output, and `obs` has been logged. */
  function Logged(m: Memory, i: nat, output: string, obs: Observation, now: int): Memory
    requires i < |m.s.steps|
  {
    var step := m.s.steps[i];
    Memory(Appended(WithStep(m.s, i, step.(status := Done, output := output)), obs, now), m.stored,
           m.journal + [if step.kind.Tool? then Ran(step, obs) else Thought(step, obs)])
  }

  function RunTool(m: Memory, i: nat, a: Answer): Turn
    requires i < |m.s.steps|
  {
    var step := m.s.steps[i];
    if a.redirect.Some? && Trim(step.toolName) == "manage_strategy" then
      Stop(m.(stored := NO_STATE), Replied(a.redirect.value))
    else
      var obs := Observation(step.id, TOOL_RESULT, Brief(a.toolResult), a.toolResult, At(a.now));
      Finish(Logged(m, i, Brief(a.toolResult), obs, a.now), a)
  }

  function ReasonBroken(m: Memory, i: nat, a: Answer): (r: Memory)
    requires i < |m.s.steps|
    ensures r.s.steps == m.s.steps[i := m.s.steps[i].(status := Broken, error := a.errorText)]
    ensures r.journal == m.journal
  {
    m.(s := WithStep(m.s, i, m.s.steps[i].(status := Broken, error := a.errorText))
            .(status := PlanStatus.Failed, lastError := a.errorText))
  }

  function Reasoned(m: Memory, i: nat, a: Answer, text: string): Turn
    requires i < |m.s.steps|
  {
    Finish(Logged(m, i, text, Observation(m.s.steps[i].id, REASONING, text, "", At(a.now)), a.now), a)
  }

  function RunReason(m: Memory, i: nat, a: Answer): Turn
    requires i < |m.s.steps|
  {
    match a.reasoning
    case None => Stop(Saved(ReasonBroken(m, i, a), a.now, a.saveLast), Stuck(ReasonFailed))
    case Some(text) => Reasoned(m, i, a, text)
  }

  /** Stands for the fixed text asked when a question step carries none. */
  const DEFAULT_QUESTION := "Details?"

  function Question(step: PlanStep): (r: string)
    ensures r != ""
  {
    if Trim(step.instruction) == "" then DEFAULT_QUESTION else Trim(step.instruction)
  }

  /** The state in which the run waits for the user, before saving. */
  function Asked(m: Memory, i: nat, a: Answer): (r: Memory)
    requires i < |m.s.steps|
    ensures r.s.steps == m.s.steps[i := m.s.steps[i].(status := Done, output := Question(m.s.steps[i]))]
    ensures r.journal == m.journal
  {
    var step := m.s.steps[i];
    var question := Question(step);
    var waiting := NormalWaiting(Some(a.waiting.(question := Trim(question), createdAt := At(a.now))), a.now);
    var s := WithStep(m.s, i, step.(status := Done, output := question));
    m.(s := s.(status := WaitingUser, waiting := waiting, finalAnswer := question, updatedAt := At(a.now)))
  }

  function RunAsk(m: Memory, i: nat, a: Answer): Turn
    requires i < |m.s.steps|
  {
    Stop(Saved(Asked(m, i, a), a.now, a.saveLast),
         if a.saveLast then Replied(Question(m.s.steps[i])) else Stuck(StoreFailed))
  }

  /** The state in which the run has answered, before saving. */
  function Closed(m: Memory, i: nat, a: Answer, text: string): (r: Memory)
    requires i < |m.s.steps|
    ensures r.s.steps == m.s.steps[i := m.s.steps[i].(status := Done, output := text)]
    ensures r.journal == m.journal
  {
    var s := WithStep(m.s, i, m.s.steps[i].(status := Done, output := text));
    m.(s := s.(status := PlanStatus.Completed, waiting := None, finalAnswer := text,
               currentStepId := "", updatedAt := At(a.now)))
  }

  function Answered(m: Memory, i: nat, a: Answer, text: string): Turn
    requires i < |m.s.steps|
  {
    Stop(Saved(Closed(m, i, a, text), a.now, a.saveLast), if a.saveLast then Replied(text) else Stuck(StoreFailed))
  }

  function RunRespond(m: Memory, i: nat, a: Answer): Turn
    requires i < |m.s.steps|
  {
    if a.canned != "" then Answered(m, i, a, a.canned)
    else if a.finalText.None? then Stop(m, Stuck(RespondFailed))
    else Answered(m, i, a, a.finalText.value)
  }

  function Execute(m: Memory, i: nat, a: Answer): Turn
    requires i < |m.s.steps|
  {
    var started := Started(m, i, a);
    if !a.saveFirst then Stop(started, Stuck(StoreFailed))
    else
      match started.s.steps[i].kind
      case Tool => RunTool(started, i, a)
      case Reason => RunReason(started, i, a)
      case AskUser => RunAsk(started, i, a)
      case Respond => RunRespond(started, i, a)
      case _ => Stop(started, Stuck(UnknownType))
  }

  function Iterate(m: Memory, a: Answer): Turn {
    var i := NextPending(m.s.steps);
    if i == |m.s.steps| then Decide(m, a) else Execute(m, i, a)
  }

  /** A run over the given answers; running out of them is the iteration limit. */
  function Run(m: Memory, answers: seq<Answer>): (Memory, Outcome)
    decreases |answers|
  {
    if answers == [] then (m, Stuck(TooManyIterations))
    else
      match Iterate(m, answers[0])
      case Stop(m', outcome) => (m', outcome)
      case Next(m') => Run(m', answers[1..])
  }
}
