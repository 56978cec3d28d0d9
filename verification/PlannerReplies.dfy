/** What a run replies, what it logs and why it stops, in terms of the answers it was given. */
module PlannerReplies {
  import opened Text
  import opened ExecutionStates
  import opened Planner
  import opened PlannerRuns
  import opened PlannerSafety

  // ---- what one iteration replies -----------------------------------------

  /** The step that an iteration works on. */
  ghost predicate Working(m: Memory) { NextPending(m.s.steps) < |m.s.steps| }

  ghost function Current(m: Memory): PlanStep
    requires Working(m)
  {
    m.s.steps[NextPending(m.s.steps)]
  }

  /** Step `i` of `r` is done with output `t`, and `t` is the answer of the run. */
  ghost predicate Delivers(r: Memory, i: nat, t: string) {
    i < |r.s.steps| && r.s.steps[i].status.Done? && r.s.steps[i].output == Trim(t) && r.s.finalAnswer == t
  }

  /** The final text: canned if there is one, else what the model wrote. */
  ghost predicate RespondsWith(a: Answer, t: string) {
    if a.canned != "" then t == a.canned else a.finalText == Some(t)
  }

  /** The question: the step's instruction, or the default when that is blank. */
  ghost predicate AsksFor(step: PlanStep, t: string) {
    if Trim(step.instruction) != "" then t == Trim(step.instruction) else t == DEFAULT_QUESTION
  }

  ghost predicate IsRedirected(step: PlanStep, a: Answer) {
    step.kind.Tool? && a.redirect.Some? && Trim(step.toolName) == "manage_strategy"
  }

  /** What a reply is, for the step that was worked on. */
  ghost predicate Says(m: Memory, a: Answer, r: Memory, t: string) {
    Working(m) &&
      var (i, step) := (NextPending(m.s.steps), Current(m));
      || (step.kind.Respond? && RespondsWith(a, t) && Delivers(r, i, t) && Closes(r))
      || (step.kind.AskUser? && AsksFor(step, t) && Delivers(r, i, t) && WaitsWith(r, a, t))
      || (IsRedirected(step, a) && t == a.redirect.value && r.stored == NO_STATE)
  }

  /** The run is completed: nothing waits and no step is current. */
  ghost predicate Closes(r: Memory) {
                                     r.s.status == PlanStatus.Completed && r.s.waiting.None? &&
                                         r.s.currentStepId == "" }

  /** The run waits with question `t`, and with what was inferred of it. */
  ghost predicate WaitsWith(r: Memory, a: Answer, t: string) {
    && r.s.status == WaitingUser && r.s.waiting.Some? && r.s.waiting.value.question == t
    && r.s.waiting.value.intent == Trim(a.waiting.intent)
    && r.s.waiting.value.target == Trim(a.waiting.target)
    && r.s.waiting.value.pendingFields == Clean(a.waiting.pendingFields, {}) && r.s.waiting.value.createdAt == At(a.now)
  }

  /** A step once it is marked as running. */
  lemma StartedStep(m: Memory, i: nat, a: Answer)
    requires i < |m.s.steps|
    ensures |Started(m, i, a).s.steps| == |m.s.steps|
    ensures Started(m, i, a).s.steps[i] == NormalStep(m.s.steps[i].(status := Active), i)
  {}

  lemma TrimTwice(s: string)
    ensures Trim(Trim(s)) == Trim(s)
  {}

  lemma AskedSays(n: Memory, i: nat, a: Answer, t: string)
    requires i < |n.s.steps| && t == Question(n.s.steps[i])
    ensures var r := Saved(Asked(n, i, a), a.now, true); Delivers(r, i, t) && WaitsWith(r, a, t)
  {
    hide Trim, Clean, StepId;
    TrimTwice(n.s.steps[i].instruction);
    assert Trimmed(DEFAULT_QUESTION);
    assert Trim(t) == t;
  }

  lemma AnsweredSays(n: Memory, i: nat, a: Answer, t: string)
    requires i < |n.s.steps|
    ensures var r := Saved(Closed(n, i, a, t), a.now, true);
            Delivers(r, i, t) && Closes(r)
  {
    hide Trim, Clean, StepId;
  }

  lemma ExecuteSays(m: Memory, a: Answer, t: string)
    requires Working(m) && Execute(m, NextPending(m.s.steps), a).Stop?
    requires Execute(m, NextPending(m.s.steps), a).outcome == Replied(t)
    ensures Says(m, a, Execute(m, NextPending(m.s.steps), a).m, t)
  {
    hide Trim, Started, Saved, Asked, Closed, Logged, NormalSteps, Delivers, Closes, WaitsWith, ReasonBroken;
    var (i, step) := (NextPending(m.s.steps), Current(m));
    var n := Started(m, i, a);
    StartedStep(m, i, a);
    TrimTwice(step.instruction);
    TrimTwice(step.toolName);
    NormalStepReads(step.(status := Active), i);
    match n.s.steps[i].kind
    case AskUser => AskedSays(n, i, a, t);
    case Respond => AnsweredSays(n, i, a, t);
    case _ =>
  }

  lemma NormalStepReads(p: PlanStep, i: nat)
    ensures var q := NormalStep(p, i);
            q.kind == p.kind && q.toolName == Trim(p.toolName) && q.instruction == Trim(p.instruction) &&
                q.args == p.args
  {}

  lemma IterateSays(m: Memory, a: Answer, t: string)
    requires Iterate(m, a).Stop? && Iterate(m, a).outcome == Replied(t)
    ensures Says(m, a, Iterate(m, a).m, t)
  {
    hide Execute, Decide, Says;
    if Working(m) { ExecuteSays(m, a, t); } else { DecideNeverReplies(m, a); }
  }

  lemma HeadsNext(m: Memory, answers: seq<Answer>)
    requires answers != [] && Iterate(m, answers[0]).Next?
    ensures var more := Heads(Iterate(m, answers[0]).m, answers[1..]);
            Heads(m, answers) == [m] + more && forall j :: 0 <= j < |more| ==> Heads(m, answers)[j + 1] == more[j]
  {
    hide Iterate;
  }

  /**
   * What a run replies is said by the answer at which it stopped: the canned text, else the final text, for a step that
   * responds; the instruction, or the default, for a question; and the redirect's text for a tool that was redirected.
   */
  lemma {:induction false} RunSays(m: Memory, answers: seq<Answer>)
    requires Run(m, answers).1.Replied?
    ensures var (heads, (r, outcome)) := (Heads(m, answers), Run(m, answers));
            |heads| <= |answers| && Says(heads[|heads| - 1], answers[|heads| - 1], r, outcome.text)
    decreases |answers|
  {
    hide Iterate, Says;
    var t := Iterate(m, answers[0]);
    if t.Next? {
      HeadsNext(m, answers);
      RunSays(t.m, answers[1..]);
    } else {
      IterateSays(m, answers[0], t.outcome.text);
    }
  }

  // ---- what one iteration writes to the history --------------------------

  /** A result as it is summed up: trimmed, and cut after a thousand characters. */
  ghost predicate SumsUp(result: string, summary: string) {
    if |Trim(result)| <= 1000 then summary == Trim(result) else summary == Trim(Trim(result)[..1000]) + "..."
  }

  /** The steps that a decision proposes: a list, or else a single one. */
  ghost function Proposed(d: Decision): seq<PlanStep> {
    if d.steps == [] && !d.step.kind.NoKind? then [d.step] else d.steps
  }

  /** `p` is step `q`, as it was proposed at position `k`, ready to run. */
  ghost predicate IsProposal(p: PlanStep, q: PlanStep) {
    && SameCall(p, q) && p.instruction == q.instruction && p.confirm == q.confirm
    && p.status == q.status && if q.title == "" then Spaced(q.id, p.title) else p.title == q.title
  }

  /** The text with blanks for underscores. */
  ghost predicate Spaced(id: string, text: string) {
    |text| == |id| && forall i :: 0 <= i < |id| ==> if id[i] == '_' then text[i] == ' ' else text[i] == id[i]
  }

  /** The batch is what passes the filter of what was decided, in order. */
  ghost predicate IsBatch(m: Memory, a: Answer, batch: seq<PlanStep>) {
    a.decision.Some? &&
      var kept := FilterFresh(NormalSteps(Proposed(a.decision.value)), m.s, a.now);
      |batch| == |kept| && forall k :: 0 <= k < |batch| ==> IsProposal(batch[k], kept[k])
  }

  /** The event tells what the answer of its iteration was, of the step that was worked on. */
  ghost predicate Tells(m: Memory, a: Answer, e: Event) {
    match e
    case Decided(now, batch) => !Working(m) && now == a.now && IsBatch(m, a, batch)
    case Ran(step, obs) =>
      && Working(m) && Current(m).kind.Tool? && OfStep(Current(m), step)
      && obs.kind == TOOL_RESULT && obs.raw == a.toolResult && SumsUp(a.toolResult, obs.summary)
      && obs.stepId == step.id && obs.createdAt == At(a.now)
    case Thought(step, obs) =>
      && Working(m) && Current(m).kind.Reason? && OfStep(Current(m), step)
      && obs.kind == REASONING && obs.raw == "" && a.reasoning == Some(obs.summary)
      && obs.stepId == step.id && obs.createdAt == At(a.now)
  }

  ghost predicate OfStep(p: PlanStep, step: PlanStep) {
    && (Trim(p.id) != "" ==> step.id == Trim(p.id)) && step.kind == p.kind
    && step.toolName == Trim(p.toolName) && step.args == p.args
  }

  /** An iteration that goes on adds one event, one that stops at most one, and the event tells the truth. */
  ghost predicate AddsTruth(m: Memory, a: Answer, after: seq<Event>, stop: bool) {
    (stop && after == m.journal) || (exists e :: after == m.journal + [e] && Tells(m, a, e))
  }

  lemma AddsOne(m: Memory, a: Answer, e: Event, stop: bool)
    requires Tells(m, a, e)
    ensures AddsTruth(m, a, m.journal + [e], stop)
  {}

  lemma BriefSumsUp(result: string)
    ensures SumsUp(result, Brief(result))
  {
    hide Trim;
  }

  lemma ToolTells(m: Memory, n: Memory, a: Answer)
    requires Working(m) && n == Started(m, NextPending(m.s.steps), a) && Current(m).kind.Tool?
    ensures var t := RunTool(n, NextPending(m.s.steps), a); AddsTruth(m, a, t.m.journal, t.Stop?)
  {
    hide Trim, Started, Brief, NormalSteps, Normalize, Appended, AddsTruth, SumsUp, StepId;
    var i := NextPending(m.s.steps);
    StartedStep(m, i, a);
    StartedJournal(m, i, a);
    var obs := Observation(n.s.steps[i].id, TOOL_RESULT, Brief(a.toolResult), a.toolResult, At(a.now));
    BriefSumsUp(a.toolResult);
    AddsOne(m, a, Ran(n.s.steps[i], obs), RunTool(n, i, a).Stop?);
    NoTruth(m, a);
  }

  lemma ReasonTells(m: Memory, n: Memory, a: Answer)
    requires Working(m) && n == Started(m, NextPending(m.s.steps), a) && Current(m).kind.Reason?
    ensures var t := RunReason(n, NextPending(m.s.steps), a); AddsTruth(m, a, t.m.journal, t.Stop?)
  {
    hide Trim, Started, NormalSteps, Normalize, Appended, AddsTruth, StepId;
    var i := NextPending(m.s.steps);
    StartedStep(m, i, a);
    StartedJournal(m, i, a);
    NoTruth(m, a);
    if a.reasoning.Some? {
      var obs := Observation(n.s.steps[i].id, REASONING, a.reasoning.value, "", At(a.now));
      AddsOne(m, a, Thought(n.s.steps[i], obs), RunReason(n, i, a).Stop?);
    }
  }

  lemma NoTruth(m: Memory, a: Answer)
    ensures AddsTruth(m, a, m.journal, true)
  {}

  lemma StartedJournal(m: Memory, i: nat, a: Answer)
    requires i < |m.s.steps|
    ensures Started(m, i, a).journal == m.journal
  {
    hide NormalSteps, Normalize;
  }

  /** Asking and answering write nothing, and end the run. */
  lemma ClosingTells(n: Memory, i: nat, a: Answer)
    requires i < |n.s.steps|
    ensures RunAsk(n, i, a).Stop? && RunAsk(n, i, a).m.journal == n.journal
    ensures RunRespond(n, i, a).Stop? && RunRespond(n, i, a).m.journal == n.journal
  {
    hide NormalSteps, Normalize, NormalWaiting, Trim;
  }

  lemma ExecuteTells(m: Memory, a: Answer)
    requires Working(m)
    ensures var t := Execute(m, NextPending(m.s.steps), a); AddsTruth(m, a, t.m.journal, t.Stop?)
  {
    hide Started, RunTool, RunReason, RunAsk, RunRespond, AddsTruth, NormalStep;
    var i := NextPending(m.s.steps);
    var n := Started(m, i, a);
    StartedStep(m, i, a);
    StartedJournal(m, i, a);
    NoTruth(m, a);
    ClosingTells(n, i, a);
    match n.s.steps[i].kind
    case Tool => ToolTells(m, n, a);
    case Reason => ReasonTells(m, n, a);
    case _ =>
  }

  lemma FilledIsProposal(p: PlanStep, number: nat)
    requires p.id != "" && !p.status.Blank?
    ensures IsProposal(Filled(p, number), p)
  {}

  lemma FilteredFrom(proposed: seq<PlanStep>, s: ExecutionState, now: int, p: PlanStep)
    requires p in FilterFresh(proposed, s, now)
    ensures p in proposed
  {
    hide Filtered;
    FilterContract(proposed, s, now);
  }

  lemma FillsProposals(kept: seq<PlanStep>, base: nat)
    requires forall p :: p in kept ==> p.id != "" && !p.status.Blank?
    ensures forall k :: 0 <= k < |kept| ==> IsProposal(FilledAll(kept, base)[k], kept[k])
  {
    hide IsProposal, Filled;
    forall k | 0 <= k < |kept| ensures IsProposal(FilledAll(kept, base)[k], kept[k]) {
      FilledIsProposal(kept[k], base + k + 1);
    }
  }

  lemma BatchIsProposed(m: Memory, a: Answer, base: nat)
    requires a.decision.Some?
    ensures IsBatch(m, a, FilledAll(FilterFresh(DecidedSteps(a.decision.value), m.s, a.now), base))
  {
    hide FilterFresh, NormalSteps, IsProposal, Filled;
    var raw := Proposed(a.decision.value);
    assert DecidedSteps(a.decision.value) == NormalSteps(raw);
    var kept := FilterFresh(NormalSteps(raw), m.s, a.now);
    forall p | p in kept ensures p.id != "" && !p.status.Blank? {
      FilteredFrom(NormalSteps(raw), m.s, a.now, p);
      ProposedReady(raw, p);
    }
    FillsProposals(kept, base);
  }

  lemma ProposedReady(raw: seq<PlanStep>, p: PlanStep)
    requires p in NormalSteps(raw)
    ensures p.id != "" && !p.status.Blank?
  {
    var i :| 0 <= i < |raw| && NormalSteps(raw)[i] == p;
  }

  lemma DecideTells(m: Memory, a: Answer)
    requires !Working(m)
    ensures var t := Decide(m, a); AddsTruth(m, a, t.m.journal, t.Stop?)
  {
    hide DecidedSteps, FilterFresh, RepeatsReasoning, NormalSteps, Normalize, AddsTruth, IsBatch, Filled;
    NoTruth(m, a);
    if a.decision.Some? {
      var s := if Trim(a.decision.value.goal) == "" then m.s else m.s.(goal := Trim(a.decision.value.goal));
      var base := |DoneSteps(s.steps)|;
      var batch := FilledAll(FilterFresh(DecidedSteps(a.decision.value), m.s, a.now), base);
      BatchIsProposed(m, a, base);
      AddsOne(m, a, Decided(a.now, batch), Decide(m, a).Stop?);
    }
  }

  lemma IterateTells(m: Memory, a: Answer)
    ensures AddsTruth(m, a, Iterate(m, a).m.journal, Iterate(m, a).Stop?)
  {
    hide Execute, Decide, AddsTruth;
    if Working(m) { ExecuteTells(m, a); } else { DecideTells(m, a); }
  }

  /** Event by event, the history from `from` on tells the answers of the iterations. */
  ghost predicate Truthful(heads: seq<Memory>, answers: seq<Answer>, journal: seq<Event>, from: nat) {
    && from <= |journal| <= from + |heads| && |journal| <= from + |answers|
    && forall j :: 0 <= j < |journal| - from ==> Tells(heads[j], answers[j], journal[from + j])
  }

  /**
   * The history of a run is told event by event: the event of an iteration says what was decided and passed the filter,
   * or carries the tool's result as it was answered and its summary, or the reasoning as it was written.
   */
  lemma {:induction false} RunTells(m: Memory, answers: seq<Answer>)
    ensures var (heads, r) := (Heads(m, answers), Run(m, answers).0);
            m.journal <= r.journal && Truthful(heads, answers, r.journal, |m.journal|)
    decreases |answers|
  {
    hide Iterate, Tells;
    if answers != [] {
      IterateTells(m, answers[0]);
      var t := Iterate(m, answers[0]);
      if t.Next? {
        HeadsNext(m, answers);
        RunTells(t.m, answers[1..]);
        TruthStep(m, t.m, answers, Run(t.m, answers[1..]).0.journal);
      }
    }
  }

  lemma TruthStep(m: Memory, n: Memory, answers: seq<Answer>, journal: seq<Event>)
    requires answers != [] && Iterate(m, answers[0]).Next? && n == Iterate(m, answers[0]).m
    requires AddsTruth(m, answers[0], n.journal, false) && n.journal <= journal
    requires Truthful(Heads(n, answers[1..]), answers[1..], journal, |n.journal|)
    ensures m.journal <= journal && Truthful(Heads(m, answers), answers, journal, |m.journal|)
  {
    hide Iterate, Tells, Heads;
    HeadsNext(m, answers);
    var e :| n.journal == m.journal + [e] && Tells(m, answers[0], e);
    assert journal[|m.journal|] == n.journal[|m.journal|] == e;
    TruthCons(m, Heads(n, answers[1..]), answers, journal, |m.journal|);
  }

  lemma TruthCons(m: Memory, more: seq<Memory>, answers: seq<Answer>, journal: seq<Event>, from: nat)
    requires answers != [] && from < |journal| && Tells(m, answers[0], journal[from])
    requires Truthful(more, answers[1..], journal, from + 1)
    ensures Truthful([m] + more, answers, journal, from)
  {
    hide Tells;
    forall j | 0 <= j < |journal| - from ensures Tells(([m] + more)[j], answers[j], journal[from + j]) {
      if j > 0 { assert Tells(more[j - 1], answers[1..][j - 1], journal[from + 1 + (j - 1)]); }
    }
  }
}
