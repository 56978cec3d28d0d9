/** With a clock that never runs backwards: one call is not made twice within a minute. */
module PlannerTimes {
  import opened Text
  import opened ExecutionStates
  import opened Planner
  import opened PlannerRuns
  import opened PlannerTheorems
  import opened PlannerRefetch
  import opened PlannerSafety

  ghost function TimeOf(e: Event): Stamp {
    if e.Decided? then At(e.now) else e.obs.createdAt
  }

  /** The answers' clocks never run backwards, starting at `since`. */
  ghost predicate Forward(answers: seq<Answer>, since: int) {
    && (forall i :: 0 <= i < |answers| ==> since <= answers[i].now)
    && (forall i, j :: 0 <= i < j < |answers| ==> answers[i].now <= answers[j].now)
  }

  /** The events are in the order of their times, and none is later than `until`. */
  ghost predicate Timed(journal: seq<Event>, until: int) {
    && (forall i :: 0 <= i < |journal| ==> TimeOf(journal[i]).At? && TimeOf(journal[i]).seconds <= until)
    && (forall i, j :: 0 <= i < j < |journal| ==> TimeOf(journal[i]).seconds <= TimeOf(journal[j]).seconds)
  }

  /** At most one event is added, at the time of the answer. */
  ghost predicate StampedBy(before: seq<Event>, after: seq<Event>, now: int) {
    after == before || exists e :: after == before + [e] && TimeOf(e) == At(now)
  }

  lemma IterateStamps(m: Memory, a: Answer)
    ensures StampedBy(m.journal, Iterate(m, a).m.journal, a.now)
  {
    var i := NextPending(m.s.steps);
    if i < |m.s.steps| { ExecuteStamps(m, i, a); } else { DecideStamps(m, a); }
  }

  lemma StampedOne(before: seq<Event>, e: Event, now: int)
    requires TimeOf(e) == At(now)
    ensures StampedBy(before, before + [e], now)
  {}

  lemma NoStamp(journal: seq<Event>, now: int)
    ensures StampedBy(journal, journal, now)
  {}

  lemma DecideStamps(m: Memory, a: Answer)
    ensures StampedBy(m.journal, Decide(m, a).m.journal, a.now)
  {
    hide DecidedSteps, FilterFresh, RepeatsReasoning, NormalSteps;
    if Decide(m, a).m.journal != m.journal {
      var e := Decide(m, a).m.journal[|m.journal|];
      StampedOne(m.journal, e, a.now);
    }
  }

  lemma LoggedStamps(m: Memory, i: nat, output: string, obs: Observation, a: Answer)
    requires i < |m.s.steps| && obs.createdAt == At(a.now)
    ensures StampedBy(m.journal, Finish(Logged(m, i, output, obs, a.now), a).m.journal, a.now)
  {
    hide NormalSteps, Normalize, Appended;
    var step := m.s.steps[i];
    StampedOne(m.journal, if step.kind.Tool? then Ran(step, obs) else Thought(step, obs), a.now);
  }

  /** Starting, asking and answering write no event. */
  lemma SilentSteps(m: Memory, i: nat, a: Answer)
    requires i < |m.s.steps|
    ensures Started(m, i, a).journal == m.journal && |Started(m, i, a).s.steps| == |m.s.steps|
    ensures RunAsk(m, i, a).m.journal == m.journal && RunRespond(m, i, a).m.journal == m.journal
  {
    hide NormalSteps, Normalize, NormalWaiting, Trim;
  }

  lemma ToolStamps(m: Memory, i: nat, a: Answer)
    requires i < |m.s.steps|
    ensures StampedBy(m.journal, RunTool(m, i, a).m.journal, a.now)
  {
    hide Finish, Logged, Brief, Trim;
    LoggedStamps(m, i, Brief(a.toolResult),
                 Observation(m.s.steps[i].id, TOOL_RESULT, Brief(a.toolResult), a.toolResult, At(a.now)), a);
  }

  lemma ReasonStamps(m: Memory, i: nat, a: Answer)
    requires i < |m.s.steps|
    ensures StampedBy(m.journal, RunReason(m, i, a).m.journal, a.now)
  {
    hide Finish, Logged, NormalSteps, Normalize;
    if a.reasoning.Some? {
      LoggedStamps(m, i, a.reasoning.value, Observation(m.s.steps[i].id, REASONING, a.reasoning.value, "", At(a.now)),
                   a);
    }
  }

  lemma ExecuteStamps(m: Memory, i: nat, a: Answer)
    requires i < |m.s.steps|
    ensures StampedBy(m.journal, Execute(m, i, a).m.journal, a.now)
  {
    hide RunTool, RunReason, RunAsk, RunRespond, Started, StampedBy;
    SilentSteps(m, i, a);
    NoStamp(m.journal, a.now);
    var n := Started(m, i, a);
    SilentSteps(n, i, a);
    ToolStamps(n, i, a);
    ReasonStamps(n, i, a);
  }

  lemma TimedSnoc(journal: seq<Event>, after: seq<Event>, since: int, now: int)
    requires Timed(journal, since) && since <= now && StampedBy(journal, after, now)
    ensures Timed(after, now)
  {}

  lemma {:induction false} RunTimed(m: Memory, answers: seq<Answer>, since: int) returns (until: int)
    requires Timed(m.journal, since) && Forward(answers, since)
    ensures Timed(Run(m, answers).0.journal, until)
    decreases |answers|
  {
    hide Iterate;
    until := since;
    if answers != [] {
      var t := Iterate(m, answers[0]);
      until := answers[0].now;
      IterateStamps(m, answers[0]);
      TimedSnoc(m.journal, t.m.journal, since, until);
      if t.Next? { until := RunTimed(t.m, answers[1..], until); }
    }
  }

  /** Fewer than eight log entries lie between the two events. */
  ghost predicate Near(journal: seq<Event>, i: nat, j: nat) {
    i < j <= |journal| && |LogOf(journal[i + 1..j])| < LOG_MAX
  }

  lemma LogPrefix(part: seq<Event>, n: nat)
    requires n <= |part|
    ensures |LogOf(part[..n])| <= |LogOf(part)|
  {
    assert part[..n] + part[n..] == part;
    FlatAppend(part[..n], part[n..], Written);
  }

  lemma LogPart(journal: seq<Event>, i: nat, d: nat, j: nat)
    requires i < d < j <= |journal|
    ensures |LogOf(journal[i + 1..d])| <= |LogOf(journal[i + 1..j])|
  {
    hide LogOf;
    assert journal[i + 1..j][..d - i - 1] == journal[i + 1..d];
    LogPrefix(journal[i + 1..j], d - i - 1);
  }

  /** Two runs of one call with fewer than eight log entries between them are more than a minute apart. */
  ghost predicate MinuteApart(journal: seq<Event>) {
    forall i, j ::
      (0 <= i < j < |journal| && journal[i].Ran? && journal[j].Ran? && SameSignature(journal[i].step, journal[j].step)
       && Near(journal, i, j))
      ==> journal[i].obs.createdAt.At? && journal[j].obs.createdAt.At?
          && journal[j].obs.createdAt.seconds - journal[i].obs.createdAt.seconds > FRESH_SECONDS
  }

  lemma ApartInTime(journal: seq<Event>, until: int)
    requires RunsApart(journal) && Timed(journal, until)
    ensures MinuteApart(journal)
  {
    forall i, j | 0 <= i < j < |journal| && journal[i].Ran? && journal[j].Ran?
                  && SameSignature(journal[i].step, journal[j].step) && Near(journal, i, j)
      ensures TimeOf(journal[i]).At? && TimeOf(journal[j]).At?
      ensures TimeOf(journal[j]).seconds - TimeOf(journal[i]).seconds > FRESH_SECONDS
    {
      assert SeparatedBefore(journal, i, j);
      var d :| i < d < j && Apart(journal, i, d);
      LogPart(journal, i, d, j);
      assert TimeOf(journal[d]).seconds <= TimeOf(journal[j]).seconds;
    }
  }

  /**
   * A whole run of `executePlan` with distinct step IDs, under a clock that never runs backwards: whenever a call is
   * made twice with fewer than eight log entries in between, more than a minute has passed. With eight log entries
   * or fewer in all, that holds of any two runs of one call.
   */
  lemma NoCallWithinAMinute(s: ExecutionState, stored: ExecutionState, answers: seq<Answer>, since: int)
    requires Ready(s) && |answers| == MAX_ITERATIONS && AllProposeWork(answers) && Forward(answers, since)
    requires DistinctIds(Run(Memory(s, stored, []), answers).0.s.steps)
    ensures var journal := Run(Memory(s, stored, []), answers).0.journal;
            && MinuteApart(journal)
            && (|LogOf(journal)| <= LOG_MAX ==>
                  forall i, j :: 0 <= i < j < |journal| && journal[i].Ran? && journal[j].Ran? ==> Near(journal, i, j))
  {
    var m := Memory(s, stored, []);
    var journal := Run(m, answers).0.journal;
    ExecutePlanIsSafe(s, stored, answers);
    var until := RunTimed(m, answers, since);
    ApartInTime(journal, until);
    if |LogOf(journal)| <= LOG_MAX {
      forall i, j | 0 <= i < j < |journal| && journal[i].Ran? ensures Near(journal, i, j) {
        ShortIsNear(journal, i, j);
      }
    }
  }

  lemma LogAfterRun(journal: seq<Event>, i: nat)
    requires i < |journal| && journal[i].Ran?
    ensures |LogOf(journal[i + 1..])| < |LogOf(journal)|
  {
    hide TrimObservation;
    FlatSplit(journal, i, Written);
    assert |Written(journal[i])| == 1;
  }

  lemma ShortIsNear(journal: seq<Event>, i: nat, j: nat)
    requires i < j <= |journal| && journal[i].Ran? && |LogOf(journal)| <= LOG_MAX
    ensures Near(journal, i, j)
  {
    hide LogOf;
    LogAfterRun(journal, i);
    assert journal[i + 1..][..j - i - 1] == journal[i + 1..j];
    LogPrefix(journal[i + 1..], j - i - 1);
  }
}
