/** No tool call is repeated within a minute of one run, and exactly what can defeat that. */
module PlannerRefetch {
  import opened Text
  import opened ExecutionStates
  import opened Planner
  import opened PlannerRuns
  import opened PlannerTheorems

  // ---- when the duplicate index sees a call -------------------------------

  lemma {:induction false} AttributedUnique(steps: seq<PlanStep>, k: nat)
    requires k < |steps| && DistinctIds(steps)
    ensures Attributed(steps, steps[k].id) == Some(steps[k])
  {
    var last := |steps| - 1;
    if k < last {
      AttributedUnique(steps[..last], k);
    }
  }

  /** `call` comes `d` events after `i`, and more than a minute or at least eight log entries lie between. */
  ghost predicate Apart(journal: seq<Event>, i: nat, d: nat) {
    && i < d < |journal| && journal[i].Ran? && journal[i].obs.createdAt.At? && journal[d].Decided?
    && (journal[d].now - journal[i].obs.createdAt.seconds > FRESH_SECONDS || |LogOf(journal[i + 1..d])| >= LOG_MAX)
  }

  /** An entry with fewer than eight entries after it is still in the log. */
  lemma StillLogged(base: seq<Observation>, journal: seq<Event>, i: nat) returns (x: nat)
    requires i < |journal| && !journal[i].Decided? && |LogOf(journal[i + 1..])| < LOG_MAX
    ensures var log := Last(base + LogOf(journal), LOG_MAX);
            x < |log| && log[x] == TrimObservation(journal[i].obs, 0)
  {
    var before, after := LogOf(journal[..i]), LogOf(journal[i + 1..]);
    var o := TrimObservation(journal[i].obs, 0);
    FlatSplit(journal, i, Written);
    Assoc4(base, before, [o], after);
    x := InWindow(base + before, o, after, LOG_MAX);
  }

  lemma InWindow<T>(a: seq<T>, o: T, b: seq<T>, n: nat) returns (x: nat)
    requires |b| < n
    ensures x < |Last(a + [o] + b, n)| && Last(a + [o] + b, n)[x] == o
  {
    var all := a + [o] + b;
    assert all[|a|] == o;
    x := if |all| <= n then |a| else |a| - (|all| - n);
  }

  /** A call that is not fresh when a decision is taken ran long ago, or left the log. */
  lemma NotFreshIsApart(entry: ExecutionState, m: Memory, c: nat, now: int, i: nat, sig: string)
    requires AtHead(entry, m, c) && DistinctIds(m.s.steps)
    requires i < |m.journal| && m.journal[i].Ran? && m.journal[i].step.toolName != ""
    requires Signature(m.journal[i].step) == sig && !Fresh(m.s, now, sig)
    ensures m.journal[i].obs.createdAt.At?
    ensures now - m.journal[i].obs.createdAt.seconds > FRESH_SECONDS || |LogOf(m.journal[i + 1..])| >= LOG_MAX
  {
    var e := m.journal[i];
    assert RecordedOne(e, m.s.steps, c);
    if |LogOf(m.journal[i + 1..])| < LOG_MAX {
      var x := StillLogged(entry.log, m.journal, i);
      var k :| 0 <= k < c && k < |m.s.steps| && SameCall(m.s.steps[k], e.step);
      AttributedUnique(m.s.steps, k);
      NormalView(m.s, now);
      FreshWitness(m.s.steps, m.s.log, now, x, k, e);
    }
  }

  lemma FreshWitness(steps: seq<PlanStep>, log: seq<Observation>, now: int, x: nat, k: nat, e: Event)
    requires x < |log| && k < |steps| && e.Ran?
    requires SameCall(steps[k], e.step) && Attributed(steps, e.step.id) == Some(steps[k])
    requires log[x] == TrimObservation(e.obs, 0) && e.obs.stepId == e.step.id && Trimmed(e.step.id)
    requires e.obs.kind == TOOL_RESULT && e.obs.createdAt.At? && e.step.toolName != ""
    ensures FreshIn(steps, log, now, Signature(e.step)) || now - e.obs.createdAt.seconds > FRESH_SECONDS
  {
    assert Trimmed(TOOL_RESULT);
    assert log[x].stepId == e.step.id && log[x].kind == TOOL_RESULT && log[x].createdAt == e.obs.createdAt;
    assert Fetches(steps, log[x], Signature(e.step));
  }

  // ---- the invariant ------------------------------------------------------

  ghost predicate SameSignature(p: PlanStep, q: PlanStep) {
    p.toolName != "" && Signature(p) == Signature(q)
  }

  ghost predicate SeparatedBefore(journal: seq<Event>, i: nat, j: nat) {
    exists d :: i < d < j && Apart(journal, i, d)
  }

  /** Any two runs of one call are kept apart by a decision. */
  ghost predicate RunsApart(journal: seq<Event>) {
    forall i, j ::
      (0 <= i < j < |journal| && journal[i].Ran? && journal[j].Ran? && SameSignature(journal[i].step, journal[j].step))
      ==> SeparatedBefore(journal, i, j)
  }

  ghost predicate DistinctFrom(steps: seq<PlanStep>, c: nat) {
    forall x, y :: c <= x < y < |steps| && steps[x].kind.Tool? && steps[y].kind.Tool? ==>
      Signature(steps[x]) != Signature(steps[y])
  }

  /** The pending tool steps are distinct calls, and far from every earlier run of the same call. */
  ghost predicate PendingApart(journal: seq<Event>, steps: seq<PlanStep>, c: nat) {
    var distinct := DistinctFrom(steps, c);
    var apart := forall i, k ::
      (0 <= i < |journal| && journal[i].Ran? && c <= k < |steps| && steps[k].kind.Tool? &&
       SameSignature(journal[i].step, steps[k]))
      ==> SeparatedBefore(journal, i, |journal|);
    distinct && apart
  }

  lemma SeparatedGrows(journal: seq<Event>, e: Event, i: nat, j: nat)
    requires j <= |journal| && SeparatedBefore(journal, i, j)
    ensures SeparatedBefore(journal + [e], i, j)
  {
    var d :| i < d < j && Apart(journal, i, d);
    assert (journal + [e])[i + 1..d] == journal[i + 1..d];
    assert Apart(journal + [e], i, d);
  }

  lemma RunsApartAfterRun(journal: seq<Event>, steps: seq<PlanStep>, c: nat, e: Event)
    requires RunsApart(journal) && c < |steps| && PendingApart(journal, steps, c) && Reports(e, steps[c])
    ensures RunsApart(journal + [e])
  {
    var j' := journal + [e];
    forall i, j | 0 <= i < j < |j'| && j'[i].Ran? && j'[j].Ran? && SameSignature(j'[i].step, j'[j].step)
      ensures SeparatedBefore(j', i, j)
    {
      if j == |journal| {
        assert SameSignature(journal[i].step, steps[c]);
      }
      SeparatedGrows(journal, e, i, j);
    }
  }

  lemma PendingApartAfterRun(journal: seq<Event>, before: seq<PlanStep>, after: seq<PlanStep>, c: nat, e: Event)
    requires c < |before| && PendingApart(journal, before, c) && Reports(e, before[c]) && OnlyStep(before, after, c)
    ensures PendingApart(journal + [e], after, c + 1)
  {
    var j' := journal + [e];
    forall i, k | 0 <= i < |j'| && j'[i].Ran? && c + 1 <= k < |after| && after[k].kind.Tool? &&
        SameSignature(j'[i].step, after[k])
      ensures SeparatedBefore(j', i, |j'|)
    {
      assert after[k] == before[k];
      assert i < |journal|;
      SeparatedGrows(journal, e, i, |journal|);
      var d :| i < d < |journal| && Apart(j', i, d);
    }
  }

  lemma RunsApartAfterBatch(journal: seq<Event>, e: Event)
    requires RunsApart(journal) && e.Decided?
    ensures RunsApart(journal + [e])
  {
    var j' := journal + [e];
    forall i, j | 0 <= i < j < |j'| && j'[i].Ran? && j'[j].Ran? && SameSignature(j'[i].step, j'[j].step)
      ensures SeparatedBefore(j', i, j)
    {
      SeparatedGrows(journal, e, i, j);
    }
  }

  /** Tool calls that were not fresh at decision time are apart from their earlier runs. */
  lemma BatchApart(entry: ExecutionState, m: Memory, e: Event, i: nat, p: PlanStep)
    requires AtHead(entry, m, |m.s.steps|) && DistinctIds(m.s.steps) && e.Decided?
    requires p.kind.Tool? && !Fresh(m.s, e.now, Signature(p))
    requires i < |m.journal| && m.journal[i].Ran? && SameSignature(m.journal[i].step, p)
    ensures SeparatedBefore(m.journal + [e], i, |m.journal| + 1)
  {
    NotFreshIsApart(entry, m, |m.s.steps|, e.now, i, Signature(p));
    assert (m.journal + [e])[i + 1..|m.journal|] == m.journal[i + 1..];
    assert Apart(m.journal + [e], i, |m.journal|);
  }

  lemma BatchApartAt(entry: ExecutionState, m: Memory, e: Event, after: seq<PlanStep>, i: nat, k: nat)
    requires AtHead(entry, m, |m.s.steps|) && DistinctIds(m.s.steps)
    requires e.Decided? && Extends(m.s.steps, after, e.batch) && Admissible(m.s, e.now, e.batch)
    requires |m.s.steps| <= k < |after| && after[k].kind.Tool?
    requires i < |m.journal| && m.journal[i].Ran? && SameSignature(m.journal[i].step, after[k])
    ensures SeparatedBefore(m.journal + [e], i, |m.journal| + 1)
  {
    var p := e.batch[k - |m.s.steps|];
    assert SameCall(after[k], p) && p in e.batch;
    BatchApart(entry, m, e, i, p);
  }

  lemma PendingApartAfterBatch(entry: ExecutionState, m: Memory, e: Event, after: seq<PlanStep>)
    requires AtHead(entry, m, |m.s.steps|) && DistinctIds(m.s.steps)
    requires e.Decided? && Extends(m.s.steps, after, e.batch) && Admissible(m.s, e.now, e.batch)
    ensures PendingApart(m.journal + [e], after, |m.s.steps|)
  {
    var c, j' := |m.s.steps|, m.journal + [e];
    BatchDistinct(m.s.steps, after, e.batch);
    forall i, k | 0 <= i < |j'| && j'[i].Ran? && c <= k < |after| && after[k].kind.Tool? &&
        SameSignature(j'[i].step, after[k])
      ensures SeparatedBefore(j', i, |j'|)
    {
      assert i < |m.journal| && j'[i] == m.journal[i];
      BatchApartAt(entry, m, e, after, i, k);
    }
  }

  lemma BatchDistinct(before: seq<PlanStep>, after: seq<PlanStep>, batch: seq<PlanStep>)
    requires Extends(before, after, batch) && DistinctCalls(batch)
    ensures DistinctFrom(after, |before|)
  {
    forall x, y | |before| <= x < y < |after| && after[x].kind.Tool? && after[y].kind.Tool?
      ensures Signature(after[x]) != Signature(after[y])
    {
      assert SameCall(after[x], batch[x - |before|]) && SameCall(after[y], batch[y - |before|]);
    }
  }

  lemma WorkedKeepsApart(m: Memory, c: nat, t: Turn)
    requires c < |m.s.steps| && Worked(m, c, t) && RunsApart(m.journal) && PendingApart(m.journal, m.s.steps, c)
    ensures RunsApart(t.m.journal)
    ensures t.Next? ==> PendingApart(t.m.journal, t.m.s.steps, c + 1)
  {
    if t.m.journal != m.journal {
      var e := t.m.journal[|m.journal|];
      assert t.m.journal == m.journal + [e];
      RunsApartAfterRun(m.journal, m.s.steps, c, e);
      PendingApartAfterRun(m.journal, m.s.steps, t.m.s.steps, c, e);
    }
  }

  lemma BatchKeepsApart(entry: ExecutionState, m: Memory, e: Event, after: seq<PlanStep>)
    requires AtHead(entry, m, |m.s.steps|) && DistinctIds(m.s.steps) && RunsApart(m.journal)
    requires e.Decided? && AppendsBatch(m, e.now, after, e.batch)
    ensures RunsApart(m.journal + [e]) && PendingApart(m.journal + [e], after, |m.s.steps|)
  {
    RunsApartAfterBatch(m.journal, e);
    PendingApartAfterBatch(entry, m, e, after);
  }

  lemma PlannedKeepsApart(entry: ExecutionState, m: Memory, now: int, t: Turn)
    requires AtHead(entry, m, |m.s.steps|) && DistinctIds(m.s.steps) && Planned(m, now, t) && RunsApart(m.journal)
    ensures RunsApart(t.m.journal)
    ensures t.Next? ==> PendingApart(t.m.journal, t.m.s.steps, |m.s.steps|)
  {
    if t.m.journal != m.journal {
      var e := t.m.journal[|m.journal|];
      assert t.m.journal == m.journal + [e] && e.now == now;
      BatchKeepsApart(entry, m, e, t.m.s.steps);
    }
  }

  /** One iteration keeps repeated calls apart, whether it goes on or stops. */
  lemma IterateKeepsApart(entry: ExecutionState, m: Memory, c: nat, a: Answer)
    requires AtHead(entry, m, c) && DistinctIds(m.s.steps) && ProposesWork(a)
    requires RunsApart(m.journal) && PendingApart(m.journal, m.s.steps, c)
    ensures RunsApart(Iterate(m, a).m.journal)
    ensures Iterate(m, a).Next? ==>
              PendingApart(Iterate(m, a).m.journal, Iterate(m, a).m.s.steps, if c < |m.s.steps| then c + 1 else c)
  {
    ShapeIsNextPending(m.s.steps, c);
    if c < |m.s.steps| {
      ExecuteEffect(m, c, a);
      WorkedKeepsApart(m, c, Execute(m, c, a));
    } else {
      DecideEffect(m, a);
      PlannedKeepsApart(entry, m, a.now, Decide(m, a));
    }
  }
}
