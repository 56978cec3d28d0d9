/** Execution states, their observation log and the normalisation applied on every load and save. */
module ExecutionStates {
  import opened Text

  const LOG_MAX: nat := 8
  const NOTES_MAX: nat := 4
  const SUMMARY_MAX: nat := 500

  datatype PlanStatus = NoStatus | Planning | Running | WaitingUser | Completed | Failed | OtherStatus(text: string)
  datatype StepKind = NoKind | Tool | Reason | AskUser | Respond | OtherKind(text: string)
  datatype StepStatus = Blank | Pending | Active | Done | Broken | Odd(text: string)

  /** One step of a plan; `args` is the canonical JSON of the tool arguments. */
  datatype PlanStep = PlanStep(
    id: string, kind: StepKind, title: string, status: StepStatus, toolName: string, args: string,
    instruction: string, confirm: bool, output: string, error: string)

  datatype Observation = Observation(stepId: string, kind: string, summary: string, raw: string, createdAt: Stamp)

  datatype Waiting = Waiting(question: string, intent: string, pendingFields: seq<string>, target: string,
                             createdAt: Stamp)

  datatype ExecutionState = ExecutionState(
    sessionId: string, userId: int, goal: string, status: PlanStatus, planId: string, steps: seq<PlanStep>,
    currentStepId: string, log: seq<Observation>, notes: seq<Observation>, waiting: Option<Waiting>,
    observations: seq<Observation>, finalAnswer: string, lastError: string, updatedAt: Stamp)

  const NO_STATE := ExecutionState("", 0, "", NoStatus, "", [], "", [], [], None, [], "", "", Unset)

  // ---- observations -------------------------------------------------------

  function TrimObservation(o: Observation, now: int): Observation {
    Observation(Trim(o.stepId), Trim(o.kind), Trim(o.summary), Trim(o.raw), Fill(o.createdAt, now))
  }

  /** Whether an observation says anything at all. */
  predicate Speaks(o: Observation) {
    Trim(o.kind) != "" || Trim(o.summary) != "" || Trim(o.raw) != ""
  }

  predicate NormalObservation(o: Observation) {
    && Trimmed(o.stepId) && Trimmed(o.kind) && Trimmed(o.summary) && Trimmed(o.raw)
    && o.createdAt.At? && (o.kind != "" || o.summary != "" || o.raw != "")
  }

  predicate NormalLog(os: seq<Observation>) {
    forall i :: 0 <= i < |os| ==> NormalObservation(os[i])
  }

  function Heard(o: Observation, now: int): (r: seq<Observation>)
    ensures |r| <= 1 && NormalLog(r)
    ensures NormalObservation(o) ==> r == [o]
  {
    if Speaks(o) then [TrimObservation(o, now)] else []
  }

  function Hearing(now: int): Observation -> seq<Observation> {
    o => Heard(o, now)
  }

  function NormalObservations(os: seq<Observation>, now: int): (r: seq<Observation>)
    ensures NormalLog(r)
    ensures |r| <= |os|
  {
    HeardNormal(os, now);
    Flat(os, Hearing(now))
  }

  lemma {:induction false} HeardNormal(os: seq<Observation>, now: int)
    ensures NormalLog(Flat(os, Hearing(now))) && |Flat(os, Hearing(now))| <= |os|
  {
    if os != [] {
      HeardNormal(os[1..], now);
    }
  }

  lemma {:induction false} NormalObservationsFixed(os: seq<Observation>, now: int)
    requires NormalLog(os)
    ensures NormalObservations(os, now) == os
  {
    if os != [] {
      NormalObservationsFixed(os[1..], now);
      assert Hearing(now)(os[0]) == [os[0]];
      assert os == [os[0]] + os[1..];
    }
  }

  lemma NormalObservationsSnoc(a: seq<Observation>, o: Observation, now: int)
    ensures NormalObservations(a + [o], now) == NormalObservations(a, now) + Heard(o, now)
  {
    FlatSnoc(a, o, Hearing(now));
  }

  lemma NothingObserved(now: int)
    ensures NormalObservations([], now) == []
  {}

  /** `normalizeObservationList`. */
  method NormalizeObservationList(values: seq<Observation>, now: int) returns (out: seq<Observation>)
    ensures out == NormalObservations(values, now)
  {
    hide Trim, NormalObservations;
    out := [];
    NothingObserved(now);
    for i := 0 to |values|
      invariant out == NormalObservations(values[..i], now)
    {
      assert values[..i + 1] == values[..i] + [values[i]];
      NormalObservationsSnoc(values[..i], values[i], now);
      var value := values[i].(
        stepId := Trim(values[i].stepId), kind := Trim(values[i].kind),
        summary := Trim(values[i].summary), raw := Trim(values[i].raw));
      if value.kind != "" || value.summary != "" || value.raw != "" {
        out := out + [value.(createdAt := Fill(value.createdAt, now))];
      }
    }
    assert values[..|values|] == values;
  }

  // ---- the overflow summary ----------------------------------------------

  function Labels(os: seq<Observation>): (r: seq<string>)
    ensures NormalLog(os) ==> forall p :: p in r ==> p != "" && Trimmed(p)
  {
    if os == [] then []
    else
      var tag := if os[0].kind == "" then "observation" else os[0].kind;
      var head :=
        if os[0].summary != "" then [tag + ": " + os[0].summary]
        else if os[0].raw != "" then [tag + ": " + os[0].raw]
        else [];
      assert NormalLog(os) ==> forall p :: p in head ==> p != "" && Trimmed(p) by {
        if NormalLog(os) && head != [] {
          var tail := if os[0].summary != "" then os[0].summary else os[0].raw;
          assert head[0][0] == tag[0] && head[0][|head[0]| - 1] == tail[|tail| - 1];
        }
      }
      head + Labels(os[1..])
  }

  function Clip(text: string): string {
    if |text| > SUMMARY_MAX then text[..SUMMARY_MAX] + "..." else text
  }

  /** `summarizeExecutionOverflow`: nothing when no entry carries a summary or a raw result. */
  function OverflowSummary(os: seq<Observation>, now: int): (r: Option<Observation>)
    ensures r.Some? <==> exists i :: 0 <= i < |os| && (os[i].summary != "" || os[i].raw != "")
    ensures NormalLog(os) && r.Some? ==> NormalObservation(r.value)
  {
    var labels := Labels(os);
    LabelsEmpty(os);
    if labels == [] then None
    else
      var text := Clip(Join(labels, " | "));
      assert NormalLog(os) ==> text != "" && Trimmed(text) by {
        if NormalLog(os) { JoinTrimmed(labels, " | "); }
      }
      Some(Observation("", "execution_summary", text, "", At(now)))
  }

  lemma {:induction false} LabelsEmpty(os: seq<Observation>)
    ensures Labels(os) == [] <==> forall i :: 0 <= i < |os| ==> os[i].summary == "" && os[i].raw == ""
  {
    if os != [] {
      LabelsEmpty(os[1..]);
      assert forall i :: 0 < i < |os| ==> os[i] == os[1..][i - 1];
      if Labels(os) == [] {
        forall i | 0 <= i < |os| ensures os[i].summary == "" && os[i].raw == "" {
          if i > 0 { assert os[i] == os[1..][i - 1]; }
        }
      }
    }
  }

  // ---- compaction ---------------------------------------------------------

  /** The part of the log that compaction folds into a note. */
  function Overflow(log: seq<Observation>): seq<Observation> {
    if |log| <= LOG_MAX then [] else log[..|log| - LOG_MAX]
  }

  /** The notes left by compaction: capped, except when an overflow yields no summary. */
  function CompactNotes(log: seq<Observation>, notes: seq<Observation>, now: int): (r: seq<Observation>)
    ensures NormalLog(log) && NormalLog(notes) ==> NormalLog(r)
    ensures |notes| <= NOTES_MAX ==> |r| <= NOTES_MAX
  {
    if |log| <= LOG_MAX then Last(notes, NOTES_MAX)
    else
      match OverflowSummary(Overflow(log), now)
      case None => notes
      case Some(note) => Last(notes + [note], NOTES_MAX)
  }

  /** The guard of the branch in which compaction leaves too many notes behind. */
  predicate SkipsNotesCap(log: seq<Observation>, notes: seq<Observation>, now: int) {
    |log| > LOG_MAX && OverflowSummary(Overflow(log), now).None? && |notes| > NOTES_MAX
  }

  // ---- the other fields ---------------------------------------------------

  function NormalStep(step: PlanStep, index: nat): (r: PlanStep)
    ensures r.id != "" && Trimmed(r.id) && Trimmed(r.toolName)
    ensures Trimmed(step.id) && step.id != "" ==> r.id == step.id
    ensures r.kind == step.kind && r.args == step.args
    ensures r.status == if step.status.Blank? then Pending else step.status
  {
    var id := Trim(step.id);
    StepIdTrimmed(index);
    step.(
      id := if id == "" then StepId(index + 1) else id,
      title := Trim(step.title), toolName := Trim(step.toolName), instruction := Trim(step.instruction),
      output := Trim(step.output), error := Trim(step.error),
      status := if step.status.Blank? then Pending else step.status)
  }

  function Digits(n: nat): (r: string)
    ensures r != "" && Trimmed(r)
  {
    var d := [('0' as int + n % 10) as char];
    if n < 10 then d else
      var r := Digits(n / 10) + d;
      r
  }

  function StepId(n: nat): string { "step_" + Digits(n) }

  lemma StepIdTrimmed(index: nat)
    ensures StepId(index + 1) != "" && Trimmed(StepId(index + 1))
  {
    var d := Digits(index + 1);
    assert StepId(index + 1)[|StepId(index + 1)| - 1] == d[|d| - 1];
  }

  function NormalSteps(steps: seq<PlanStep>): (r: seq<PlanStep>)
    ensures |r| == |steps|
    ensures forall i :: 0 <= i < |steps| ==> r[i] == NormalStep(steps[i], i)
  {
    seq(|steps|, i requires 0 <= i < |steps| => NormalStep(steps[i], i))
  }

  function NormalWaiting(w: Option<Waiting>, now: int): (r: Option<Waiting>)
    ensures NormalWaiting'(r)
    ensures NormalWaiting'(w) ==> r == w
  {
    match w
    case None => None
    case Some(v) =>
      var n := Waiting(Trim(v.question), Trim(v.intent), Clean(v.pendingFields, {}), Trim(v.target), v.createdAt);
      assert CleanList(v.pendingFields, {}) ==> n.pendingFields == v.pendingFields by {
        if CleanList(v.pendingFields, {}) { CleanFixed(v.pendingFields, {}); }
      }
      if n.question == "" && n.intent == "" && n.pendingFields == [] && n.target == "" then None
      else Some(n.(createdAt := Fill(n.createdAt, now)))
  }

  ghost predicate NormalWaiting'(w: Option<Waiting>) {
    w.Some? ==>
      && Trimmed(w.value.question) && Trimmed(w.value.intent) && Trimmed(w.value.target)
      && CleanList(w.value.pendingFields, {}) && w.value.createdAt.At?
      && (w.value.question != "" || w.value.intent != "" || w.value.pendingFields != [] || w.value.target != "")
  }

  // ---- normalisation ------------------------------------------------------

  /** `normalizeExecutionState` at time `now`. */
  function Normalize(s: ExecutionState, now: int): (r: ExecutionState)
    ensures |r.log| <= LOG_MAX && NormalLog(r.log) && NormalLog(r.notes) && r.observations == []
    ensures |s.notes| <= NOTES_MAX ==> |r.notes| <= NOTES_MAX
  {
    var log := NormalObservations(s.log + s.observations, now);
    var notes := NormalObservations(s.notes, now);
    ExecutionState(
      s.sessionId, s.userId, Trim(s.goal),
      if s.status.NoStatus? && s.sessionId != "" then Planning else s.status,
      s.planId, NormalSteps(s.steps), Trim(s.currentStepId),
      Last(log, LOG_MAX), CompactNotes(log, notes, now),
      NormalWaiting(s.waiting, now), [], Trim(s.finalAnswer), Trim(s.lastError),
      if s.sessionId == "" then s.updatedAt else Fill(s.updatedAt, now))
  }

  /** Everything normalisation strives for; the cap on the notes is the part it can miss. */
  ghost predicate Stable(s: ExecutionState) {
    && Trimmed(s.goal) && Trimmed(s.currentStepId) && Trimmed(s.finalAnswer) && Trimmed(s.lastError)
    && (s.sessionId != "" ==> !s.status.NoStatus? && s.updatedAt.At?)
    && (forall i :: 0 <= i < |s.steps| ==> NormalStep(s.steps[i], i) == s.steps[i])
    && NormalWaiting'(s.waiting) && s.observations == []
    && NormalLog(s.log) && |s.log| <= LOG_MAX && NormalLog(s.notes) && |s.notes| <= NOTES_MAX
  }

  lemma StableIsFixed(s: ExecutionState, now: int)
    requires Stable(s)
    ensures Normalize(s, now) == s
  {
    assert s.log + s.observations == s.log;
    NormalObservationsFixed(s.log, now);
    NormalObservationsFixed(s.notes, now);
    assert NormalSteps(s.steps) == s.steps;
  }

  lemma NormalStepTwice(step: PlanStep, index: nat)
    ensures NormalStep(NormalStep(step, index), index) == NormalStep(step, index)
  {}

  /** The result is stable except for a surplus of notes. */
  lemma NormalizeStable(s: ExecutionState, now: int)
    ensures Stable(Normalize(s, now)) <==> |Normalize(s, now).notes| <= NOTES_MAX
  {
    var r := Normalize(s, now);
    forall i | 0 <= i < |r.steps| ensures NormalStep(r.steps[i], i) == r.steps[i] {
      NormalStepTwice(s.steps[i], i);
    }
  }

  lemma ShortLogCapsNotes(s: ExecutionState, now: int)
    requires |s.log| + |s.observations| <= LOG_MAX
    ensures |Normalize(s, now).notes| <= NOTES_MAX
  {}

  /** Normalising twice, at any two times, always reaches a stable state. */
  lemma NormalizeTwiceStable(s: ExecutionState, t1: int, t2: int)
    ensures Stable(Normalize(Normalize(s, t1), t2))
  {
    ShortLogCapsNotes(Normalize(s, t1), t2);
    NormalizeStable(Normalize(s, t1), t2);
  }

  /** Normalisation at one time is idempotent unless compaction skipped the cap on the notes. */
  lemma NormalizeIdempotentIff(s: ExecutionState, now: int)
    ensures Normalize(Normalize(s, now), now) == Normalize(s, now) <==>
            !SkipsNotesCap(NormalObservations(s.log + s.observations, now), NormalObservations(s.notes, now), now)
  {
    var r := Normalize(s, now);
    NormalizeStable(s, now);
    if |r.notes| <= NOTES_MAX {
      StableIsFixed(r, now);
    } else {
      assert r.log + r.observations == r.log;
      NormalObservationsFixed(r.log, now);
      NormalObservationsFixed(r.notes, now);
      assert |Normalize(r, now).notes| == NOTES_MAX;
    }
  }

  /** A state in which the cap is skipped: nine log entries without text and five notes. */
  lemma NotesCapCanBeSkipped(now: int)
    ensures exists s :: |Normalize(s, now).notes| == 5 && Normalize(Normalize(s, now), now) != Normalize(s, now)
  {
    var mute := Observation("", "tool_result", "", "", At(now));
    var note := Observation("", "execution_summary", "x", "", At(now));
    var log, notes := seq(9, _ => mute), seq(5, _ => note);
    var s := NO_STATE.(log := log, notes := notes);
    assert s.log + s.observations == log;
    NormalObservationsFixed(log, now);
    NormalObservationsFixed(notes, now);
    assert OverflowSummary(Overflow(log), now).None?;
    NormalizeIdempotentIff(s, now);
    assert |Normalize(s, now).notes| == 5;
  }

  // ---- appending to the log ----------------------------------------------

  /** `appendExecutionLog` as a function of the state. */
  function Appended(s: ExecutionState, obs: Observation, now: int): ExecutionState {
    Normalize(s.(log := s.log + [obs]), now)
  }

  /** One call of the append, with the clock reading it sees. */
  datatype Append = Append(obs: Observation, now: int)

  function AppendedAll(s: ExecutionState, calls: seq<Append>): ExecutionState
    decreases |calls|
  {
    if calls == [] then s else AppendedAll(Appended(s, calls[0].obs, calls[0].now), calls[1..])
  }

  function Entries(calls: seq<Append>): (r: seq<Observation>)
    ensures |r| == |calls|
  {
    seq(|calls|, i requires 0 <= i < |calls| => TrimObservation(calls[i].obs, calls[i].now))
  }

  /** The log is a window: after any appends it holds exactly the last eight observations, in order. */
  lemma {:induction false} AppendKeepsWindow(s: ExecutionState, calls: seq<Append>)
    requires Stable(s)
    requires forall i :: 0 <= i < |calls| ==> Speaks(calls[i].obs)
    ensures AppendedAll(s, calls).log == Last(s.log + Entries(calls), LOG_MAX)
    ensures Stable(AppendedAll(s, calls))
    decreases |calls|
  {
    if calls == [] {
      assert s.log + Entries(calls) == s.log;
    } else {
      var obs, now := calls[0].obs, calls[0].now;
      AppendOne(s, obs, now);
      var t := Appended(s, obs, now);
      AppendKeepsWindow(t, calls[1..]);
      EntriesStep(calls);
      WindowStep(s.log, TrimObservation(obs, now), Entries(calls[1..]), Entries(calls));
    }
  }

  lemma EntriesStep(calls: seq<Append>)
    requires calls != []
    ensures Entries(calls) == [TrimObservation(calls[0].obs, calls[0].now)] + Entries(calls[1..])
  {}

  lemma WindowStep(log: seq<Observation>, x: Observation, rest: seq<Observation>, all: seq<Observation>)
    requires all == [x] + rest
    ensures Last(Last(log + [x], LOG_MAX) + rest, LOG_MAX) == Last(log + all, LOG_MAX)
  {
    LastOfAppend(log + [x], rest, LOG_MAX);
    assert log + all == log + [x] + rest;
  }

  lemma AppendOne(s: ExecutionState, obs: Observation, now: int)
    requires Stable(s) && Speaks(obs)
    ensures Appended(s, obs, now).log == Last(s.log + [TrimObservation(obs, now)], LOG_MAX)
    ensures Stable(Appended(s, obs, now))
    ensures Appended(s, obs, now).steps == s.steps
  {
    var r := s.(log := s.log + [obs]);
    NormalObservationsFixed(s.log, now);
    NormalObservationsSnoc(s.log, obs, now);
    assert r.log + r.observations == s.log + [obs];
    NormalizeStable(r, now);
    assert NormalSteps(s.steps) == s.steps;
  }

  /** At most four notes are kept by any number of appends, whatever is appended. */
  lemma {:induction false} AppendKeepsNotesCap(s: ExecutionState, calls: seq<Append>)
    requires |s.notes| <= NOTES_MAX
    ensures |AppendedAll(s, calls).notes| <= NOTES_MAX
    decreases |calls|
  {
    if calls != [] {
      AppendKeepsNotesCap(Appended(s, calls[0].obs, calls[0].now), calls[1..]);
    }
  }

  // ---- the source's in-place form ----------------------------------------

  /** The state record the planner works on in place. */
  class StateCell {
    var s: ExecutionState

    constructor (s: ExecutionState)
      ensures this.s == s
    {
      this.s := s;
    }

    /** The steps, one after the other. */
    method NormalizeStepsInPlace()
      modifies this
      ensures s == old(s).(steps := NormalSteps(old(s).steps))
    {
      hide NormalStep;
      var i := 0;
      while i < |s.steps|
        invariant 0 <= i <= |s.steps| == |old(s).steps|
        invariant forall k :: 0 <= k < i ==> s.steps[k] == NormalStep(old(s).steps[k], k)
        invariant forall k :: i <= k < |s.steps| ==> s.steps[k] == old(s).steps[k]
        invariant s.(steps := []) == old(s).(steps := [])
        decreases |s.steps| - i
      {
        s := s.(steps := s.steps[i := NormalStep(s.steps[i], i)]);
        i := i + 1;
      }
      assert s.steps == NormalSteps(old(s).steps);
    }

    /** `normalizeExecutionState`, field by field. */
    method NormalizeInPlace(now: int)
      modifies this
      ensures s == Normalize(old(s), now)
    {
      hide Trim, NormalWaiting, NormalSteps, NormalObservations, CompactNotes, NormalLog, NormalObservation;
      s := s.(goal := Trim(s.goal), currentStepId := Trim(s.currentStepId),
              finalAnswer := Trim(s.finalAnswer), lastError := Trim(s.lastError),
              waiting := NormalWaiting(s.waiting, now));
      if s.status.NoStatus? && s.sessionId != "" {
        s := s.(status := Planning);
      }
      NormalizeStepsInPlace();
      if |s.observations| > 0 {
        s := s.(log := s.log + s.observations, observations := []);
      }
      assert s.log == old(s).log + old(s).observations;
      var log := NormalizeObservationList(s.log, now);
      var notes := NormalizeObservationList(s.notes, now);
      s := s.(log := log, notes := notes);
      Compact(now);
      if s.updatedAt.Unset? && s.sessionId != "" {
        s := s.(updatedAt := At(now));
      }
    }

    /** `compactExecutionLog`. */
    method Compact(now: int)
      modifies this
      ensures s == old(s).(log := Last(old(s).log, LOG_MAX), notes := CompactNotes(old(s).log, old(s).notes, now))
    {
      hide OverflowSummary, NormalLog, NormalObservation;
      var log, notes := s.log, s.notes;
      if |log| <= LOG_MAX {
        notes := Capped(notes);
      } else {
        var overflow := log[..|log| - LOG_MAX];
        log := log[|log| - LOG_MAX..];
        var summary := OverflowSummary(overflow, now);
        if summary.Some? { notes := Capped(notes + [summary.value]); }
      }
      s := s.(log := log, notes := notes);
    }

    static method Capped(notes: seq<Observation>) returns (kept: seq<Observation>)
      ensures kept == Last(notes, NOTES_MAX)
    {
      kept := notes;
      if |kept| > NOTES_MAX { kept := kept[|kept| - NOTES_MAX..]; }
    }

    method AppendLog(obs: Observation, now: int)
      modifies this
      ensures s == Appended(old(s), obs, now)
    {
      s := s.(log := s.log + [obs]);
      NormalizeInPlace(now);
    }
  }
}
