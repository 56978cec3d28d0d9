/** What normalising and compacting an execution state keeps, in words. */
module Compactions {
  import opened Text
  import opened ExecutionStates

  // ---- numbers ------------------------------------------------------------

  ghost function Value(s: string): int {
    if s == "" then 0 else 10 * Value(s[..|s| - 1]) + (s[|s| - 1] as int - '0' as int)
  }

  /** A number is written in decimal digits, so different positions get different identifiers. */
  lemma {:induction false} DigitsRead(n: nat)
    ensures Value(Digits(n)) == n && forall i :: 0 <= i < |Digits(n)| ==> '0' <= Digits(n)[i] <= '9'
  {
    var d := [('0' as int + n % 10) as char];
    if n < 10 {
      assert Digits(n) == d && d[..0] == "";
    } else {
      DigitsRead(n / 10);
      assert Digits(n) == Digits(n / 10) + d && Digits(n)[..|Digits(n)| - 1] == Digits(n / 10);
    }
  }

  lemma StepIdsDiffer(i: nat, j: nat)
    ensures StepId(i) == StepId(j) <==> i == j
    ensures StepId(i)[..5] == "step_"
  {
    DigitsRead(i);
    DigitsRead(j);
    assert StepId(i)[5..] == Digits(i) && StepId(j)[5..] == Digits(j);
  }

  // ---- the summary of what is folded --------------------------------------

  /** What an entry adds to a summary: its kind and its text, the summary before the raw result. */
  ghost predicate Labelled(o: Observation, out: seq<string>) {
    var tag := if o.kind == "" then "observation" else o.kind;
    if o.summary == "" && o.raw == "" then out == []
    else out == [tag + ": " + if o.summary != "" then o.summary else o.raw]
  }

  lemma {:induction false} LabelsAppend(a: seq<Observation>, o: Observation)
    ensures exists more :: Labels(a + [o]) == Labels(a) + more && Labelled(o, more)
  {
    if a == [] {
      assert a + [o] == [o] && [o][1..] == [];
      assert Labelled(o, Labels([o]));
    } else {
      assert (a + [o])[1..] == a[1..] + [o];
      LabelsAppend(a[1..], o);
      var more :| Labels(a[1..] + [o]) == Labels(a[1..]) + more && Labelled(o, more);
      var head := Labels(a)[..|Labels(a)| - |Labels(a[1..])|];
      assert Labels(a) == head + Labels(a[1..]) && Labels(a + [o]) == head + Labels(a[1..] + [o]);
    }
  }

  /** A summary is a note of its own kind: the labels, joined, and cut after five hundred characters. */
  ghost predicate SummarizedAs(os: seq<Observation>, now: int, note: Observation) {
    var text := Join(Labels(os), " | ");
    && note.stepId == "" && note.kind == "execution_summary" && note.raw == "" && note.createdAt == At(now)
    && (if |text| <= 500 then note.summary == text else note.summary == text[..500] + "...")
  }

  lemma SummaryTells(os: seq<Observation>, now: int)
    ensures OverflowSummary(os, now).Some? <==> exists i :: 0 <= i < |os| && (os[i].summary != "" || os[i].raw != "")
    ensures OverflowSummary(os, now).Some? ==> SummarizedAs(os, now, OverflowSummary(os, now).value)
  {
    LabelsEmpty(os);
  }

  /** What is folded and what is kept are the whole log. */
  lemma NothingLost(log: seq<Observation>)
    ensures Overflow(log) + Last(log, 8) == log && (Overflow(log) == [] <==> |log| <= 8)
  {}

  /** Appending to a full log folds its oldest entry into the newest note, and keeps the last four notes. */
  lemma AppendFolds(s: ExecutionState, obs: Observation, now: int)
    requires Stable(s) && Speaks(obs) && |s.log| == 8
    ensures var r := Appended(s, obs, now);
            && r.log == s.log[1..] + [TrimObservation(obs, now)]
            && (if s.log[0].summary == "" && s.log[0].raw == "" then r.notes == s.notes
                else exists note :: r.notes == Last(s.notes + [note], 4) && SummarizedAs([s.log[0]], now, note))
  {
    hide Trim, Labels, Clip, NormalStep, NormalWaiting;
    var r := s.(log := s.log + [obs]);
    var log := s.log + [TrimObservation(obs, now)];
    AppendOne(s, obs, now);
    NormalObservationsFixed(s.log, now);
    NormalObservationsFixed(s.notes, now);
    NormalObservationsSnoc(s.log, obs, now);
    assert r.log + r.observations == s.log + [obs];
    assert NormalObservations(r.log + r.observations, now) == log;
    assert Overflow(log) == [s.log[0]];
    SummaryTells([s.log[0]], now);
  }

  /** An entry is trimmed in each text and keeps its time if it has one. */
  lemma EntryKeeps(o: Observation, now: int)
    ensures var t := TrimObservation(o, now);
            && t.stepId == Trim(o.stepId) && t.kind == Trim(o.kind) && t.summary == Trim(o.summary) &&
               t.raw == Trim(o.raw)
            && t.createdAt == (if o.createdAt.At? then o.createdAt else At(now))
    ensures Heard(o, now) == if Trim(o.kind + o.summary + o.raw) == "" then [] else [TrimObservation(o, now)]
  {
    SpeaksIff(o);
  }

  lemma SpeaksIff(o: Observation)
    ensures Speaks(o) <==> Trim(o.kind + o.summary + o.raw) != ""
  {
    hide Trim;
    BlankIff(o.kind); BlankIff(o.summary); BlankIff(o.raw); BlankIff(o.kind + o.summary + o.raw);
    var all := o.kind + o.summary + o.raw;
    if Spaces(all) {
      forall i | 0 <= i < |o.kind| ensures IsSpace(o.kind[i]) { assert all[i] == o.kind[i]; }
      forall i | 0 <= i < |o.summary| ensures IsSpace(o.summary[i]) { assert all[|o.kind| + i] == o.summary[i]; }
      forall i | 0 <= i < |o.raw| ensures IsSpace(o.raw[i]) { assert all[|o.kind| + |o.summary| + i] == o.raw[i]; }
    }
  }

  lemma BlankIff(s: string)
    ensures Trim(s) == "" <==> Spaces(s)
  {
    hide IsSpace;
    var a, b := TrimCuts(s);
    if Trim(s) != "" {
      assert Trimmed(Trim(s));
      assert s[|a|] == Trim(s)[0];
    }
  }

  // ---- the other fields ---------------------------------------------------

  /** Normalising changes no text but for white space, no step but for a blank identifier or status, and no number. */
  lemma NormalizeKeeps(s: ExecutionState, now: int)
    ensures var r := Normalize(s, now);
            && r.sessionId == s.sessionId && r.userId == s.userId && r.planId == s.planId
            && r.goal == Trim(s.goal) && r.currentStepId == Trim(s.currentStepId)
            && r.finalAnswer == Trim(s.finalAnswer) && r.lastError == Trim(s.lastError)
            && r.status == (if s.status.NoStatus? && s.sessionId != "" then Planning else s.status)
            && (s.updatedAt.At? ==> r.updatedAt == s.updatedAt)
            && (s.updatedAt.Unset? ==> r.updatedAt == if s.sessionId == "" then Unset else At(now))
            && |r.steps| == |s.steps| && forall i :: 0 <= i < |s.steps| ==> KeepsStep(s.steps[i], r.steps[i], i)
  {
    hide Trim, NormalObservations, CompactNotes, NormalWaiting;
  }

  ghost predicate KeepsStep(p: PlanStep, q: PlanStep, i: nat) {
    && q.id == (if Trim(p.id) == "" then StepId(i + 1) else Trim(p.id))
    && q.kind == p.kind && q.args == p.args && q.confirm == p.confirm
    && q.title == Trim(p.title) && q.toolName == Trim(p.toolName) && q.instruction == Trim(p.instruction)
    && q.output == Trim(p.output) && q.error == Trim(p.error)
    && q.status == (if p.status.Blank? then Pending else p.status)
  }

  /** A question is kept, trimmed, unless nothing at all is asked for. */
  lemma WaitingKeeps(w: Waiting, now: int)
    ensures var r := NormalWaiting(Some(w), now);
            && (r.None? <==> Trim(w.question) == "" && Trim(w.intent) == "" && Clean(w.pendingFields, {}) == []
                             && Trim(w.target) == "")
            && (r.Some? ==>
                  && r.value.question == Trim(w.question) && r.value.intent == Trim(w.intent)
                  && r.value.target == Trim(w.target) && r.value.pendingFields == Clean(w.pendingFields, {})
                  && r.value.createdAt == if w.createdAt.At? then w.createdAt else At(now))
  {
    hide Trim, Clean;
  }
}
