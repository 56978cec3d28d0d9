/** What tells two calls apart, and what the duplicate filter keeps, said of tools and arguments only. */
module PlannerCalls {
  import opened Text
  import opened ExecutionStates
  import opened Planner
  import opened PlannerRuns
  import opened PlannerSafety

  /** The arguments as they are compared; none are an empty object. */
  ghost function Given(args: string): string { if args == "" then "{}" else args }

  /** One tool, with the same arguments. */
  ghost predicate SameTool(p: PlanStep, q: PlanStep) {
    Trim(p.toolName) == Trim(q.toolName) && Given(p.args) == Given(q.args)
  }

  ghost predicate NoBar(p: PlanStep) { '|' !in Trim(p.toolName) }

  ghost function BeforeBar(s: string): string {
    if s == "" || s[0] == '|' then "" else [s[0]] + BeforeBar(s[1..])
  }

  lemma {:induction false} BeforeBarIs(a: string, b: string)
    requires '|' !in a
    ensures BeforeBar(a + "|" + b) == a
  {
    var s := a + "|" + b;
    if a != "" {
      assert s[1..] == a[1..] + "|" + b && s[0] == a[0];
      BeforeBarIs(a[1..], b);
    }
  }

  lemma Cancel(a: string, b: string, c: string)
    ensures a + b == a + c <==> b == c
  {
    assert (a + b)[|a|..] == b && (a + c)[|a|..] == c;
  }

  /** A text with a bar determines both of its parts, when the first one holds no bar. */
  lemma BarSplits(a: string, b: string, c: string, d: string)
    requires '|' !in a && '|' !in c
    ensures a + "|" + b == c + "|" + d <==> a == c && b == d
  {
    BeforeBarIs(a, b);
    BeforeBarIs(c, d);
    if a == c { Cancel(a + "|", b, d); }
  }

  /** Signatures are equal exactly for one tool with the same arguments, as long as no tool name holds a bar. */
  lemma SignatureIff(p: PlanStep, q: PlanStep)
    requires NoBar(p) && NoBar(q)
    ensures Signature(p) == Signature(q) <==> SameTool(p, q)
  {
    hide Trim;
    BarSplits(Trim(p.toolName), Given(p.args), Trim(q.toolName), Given(q.args));
  }

  /**
   * A log entry that was fetched for `p` at most a minute ago: a result, attributed to a step that makes the same
   * call.
   */
  ghost predicate FetchedFor(n: ExecutionState, x: int, now: int, p: PlanStep) {
    && 0 <= x < |n.log| && n.log[x].kind == "tool_result"
    && (n.log[x].createdAt.At? ==> now - n.log[x].createdAt.seconds <= 60)
    && exists k :: LastWithId(n.steps, k, n.log[x].stepId) && n.steps[k].toolName != "" && SameTool(n.steps[k], p)
  }

  /** The last step with that identifier. */
  ghost predicate LastWithId(steps: seq<PlanStep>, k: int, id: string) {
    0 <= k < |steps| && steps[k].id == id && forall j :: k < j < |steps| ==> steps[j].id != id
  }

  lemma AttributedIs(steps: seq<PlanStep>, id: string)
    ensures Attributed(steps, id).None? <==> forall k :: 0 <= k < |steps| ==> steps[k].id != id
    ensures Attributed(steps, id).Some? ==>
              exists k :: LastWithId(steps, k, id) && steps[k] == Attributed(steps, id).value
  {
    hide Attributed;
    if exists k :: 0 <= k < |steps| && steps[k].id == id {
      AttributedIsLast(steps, id);
      var k :| 0 <= k < |steps| && steps[k] == Attributed(steps, id).value && LastOfItsId(steps, k) &&
          steps[k].id == id;
      assert LastWithId(steps, k, id);
    }
  }

  lemma FetchedForIff(n: ExecutionState, x: int, now: int, p: PlanStep)
    requires 0 <= x < |n.log| && NoBar(p) && forall q :: q in n.steps ==> NoBar(q)
    ensures Fetches(n.steps, n.log[x], Signature(p)) && Age(n.log[x], now) <= FRESH_SECONDS <==>
            FetchedFor(n, x, now, p)
  {
    hide Signature, SameTool, NoBar;
    var (id, step) := (n.log[x].stepId, Attributed(n.steps, n.log[x].stepId));
    AttributedIs(n.steps, id);
    if step.Some? {
      var k :| LastWithId(n.steps, k, id) && n.steps[k] == step.value;
      SignatureIff(step.value, p);
      if FetchedFor(n, x, now, p) {
        var j :| LastWithId(n.steps, j, id) && n.steps[j].toolName != "" && SameTool(n.steps[j], p);
        assert j == k;
      }
    }
  }

  lemma FreshIff(s: ExecutionState, now: int, p: PlanStep)
    requires NoBar(p) && forall q :: q in Normalize(s, now).steps ==> NoBar(q)
    ensures Fresh(s, now, Signature(p)) <==> exists x :: FetchedFor(Normalize(s, now), x, now, p)
  {
    hide Signature, NoBar, Normalize, Fetches, Age;
    var n := Normalize(s, now);
    if Fresh(s, now, Signature(p)) {
      var x :| 0 <= x < |n.log| && Fetches(n.steps, n.log[x], Signature(p)) && Age(n.log[x], now) <= FRESH_SECONDS;
      FetchedForIff(n, x, now, p);
    }
    if x :| FetchedFor(n, x, now, p) { FetchedForIff(n, x, now, p); }
  }

  /** What the filter is meant to keep at position `i`, without a word about signatures. */
  ghost predicate KeptByCall(steps: seq<PlanStep>, n: ExecutionState, now: int, i: nat)
    requires i < |steps|
  {
    steps[i].kind.Tool? ==>
      && (forall x :: !FetchedFor(n, x, now, steps[i]))
      && (forall j :: 0 <= j < i && steps[j].kind.Tool? ==> !SameTool(steps[j], steps[i]))
  }

  /** The steps kept among the first `n`, in order. */
  ghost function Chosen(steps: seq<PlanStep>, s: ExecutionState, now: int, n: nat): seq<PlanStep>
    requires n <= |steps|
  {
    if n == 0 then []
    else Chosen(steps, s, now, n - 1) + if KeptByCall(steps, s, now, n - 1) then [steps[n - 1]] else []
  }

  lemma KeptIff(steps: seq<PlanStep>, s: ExecutionState, now: int, i: nat)
    requires i < |steps| && (forall p :: p in steps ==> NoBar(p))
    requires forall q :: q in Normalize(s, now).steps ==> NoBar(q)
    ensures Kept(steps, FreshSet(s, now), i) <==> KeptByCall(steps, Normalize(s, now), now, i)
  {
    hide Signature, SameTool, NoBar, Normalize, FetchedFor, Fresh;
    assert steps[i] in steps;
    FreshIff(s, now, steps[i]);
    forall j | 0 <= j < i ensures Signature(steps[j]) == Signature(steps[i]) <==> SameTool(steps[j], steps[i]) {
      assert steps[j] in steps;
      SignatureIff(steps[j], steps[i]);
    }
  }

  lemma {:induction false} SelectionIsChosen(steps: seq<PlanStep>, s: ExecutionState, now: int, n: nat)
    requires n <= |steps| && (forall p :: p in steps ==> NoBar(p))
    requires forall q :: q in Normalize(s, now).steps ==> NoBar(q)
    ensures Selection(steps, FreshSet(s, now), n) == Chosen(steps, Normalize(s, now), now, n)
  {
    hide Kept, KeptByCall, NoBar, Normalize, FreshSet;
    if n > 0 {
      KeptIff(steps, s, now, n - 1);
      SelectionIsChosen(steps, s, now, n - 1);
    }
  }

  /**
   * The filter keeps, in order, exactly the steps that are no tool step, and the tool steps for which no result of one
   * tool with the same arguments was logged within a minute and that no earlier tool step of the batch repeats.
   */
  lemma FilterByCall(steps: seq<PlanStep>, s: ExecutionState, now: int)
    requires (forall p :: p in steps ==> NoBar(p)) && (forall q :: q in Normalize(s, now).steps ==> NoBar(q))
    ensures FilterFresh(steps, s, now) == Chosen(steps, Normalize(s, now), now, |steps|)
  {
    hide NoBar, Filtered, FreshSet, Normalize;
    FilterContract(steps, s, now);
    SelectionIsChosen(steps, s, now, |steps|);
  }

  // ---- words of a reasoning -----------------------------------------------

  /** Two reasonings in the same words, up to case, repeat each other; with no bar in tool or title only those do. */
  lemma SameWordsIff(p: PlanStep, q: PlanStep)
    requires p.kind.Reason? && q.kind.Reason? && StepNormal(p) && StepNormal(q)
    requires '|' !in p.toolName + p.title && '|' !in q.toolName + q.title
    ensures SemanticKey(p) == SemanticKey(q) <==>
            EqualFold(p.toolName, q.toolName) && EqualFold(p.title, q.title) && EqualFold(p.instruction, q.instruction)
  {
    hide Trim, Lower;
    KeyParts(p);
    KeyParts(q);
    LowerNoBar(p.toolName); LowerNoBar(p.title); LowerNoBar(q.toolName); LowerNoBar(q.title);
    var (x, y) := (Lower(p.title) + "|" + Lower(p.instruction), Lower(q.title) + "|" + Lower(q.instruction));
    BarGroup(Lower(p.toolName), Lower(p.title), Lower(p.instruction));
    BarGroup(Lower(q.toolName), Lower(q.title), Lower(q.instruction));
    Cancel(Lower("reason|"), Lower(p.toolName) + "|" + x, Lower(q.toolName) + "|" + y);
    BarSplits(Lower(p.toolName), x, Lower(q.toolName), y);
    BarSplits(Lower(p.title), Lower(p.instruction), Lower(q.title), Lower(q.instruction));
  }

  lemma BarGroup(t: string, u: string, i: string)
    ensures t + ("|" + (u + ("|" + i))) == t + "|" + (u + "|" + i)
  {}

  lemma LowerNoBar(s: string)
    ensures '|' !in s ==> '|' !in Lower(s)
  {}

  lemma LowerAppend(a: string, b: string)
    ensures Lower(a + b) == Lower(a) + Lower(b)
  {}

  lemma Regroup<T>(k: seq<T>, b: seq<T>, t: seq<T>, u: seq<T>, i: seq<T>)
    ensures k + b + t + b + u + b + i == (k + b) + (t + (b + (u + (b + i))))
  {}

  /** A text of five parts reads as a head and a tail. */
  lemma LowerParts(head: string, t: string, u: string, i: string)
    ensures Lower(head + (t + ("|" + (u + ("|" + i))))) ==
            Lower(head) + (Lower(t) + ("|" + (Lower(u) + ("|" + Lower(i)))))
  {
    hide Lower;
    LowerAppend(head, t + ("|" + (u + ("|" + i))));
    LowerAppend(t, "|" + (u + ("|" + i)));
    LowerAppend("|", u + ("|" + i));
    LowerAppend(u, "|" + i);
    LowerAppend("|", i);
    LowerBar();
  }

  lemma KeyTrimmed(front: string, i: string)
    requires front != "" && !IsSpace(front[0]) && !IsSpace(front[|front| - 1]) && Trimmed(i)
    ensures Trim(front + i) == front + i
  {
    var text := front + i;
    assert text[|text| - 1] == if i == "" then front[|front| - 1] else i[|i| - 1];
  }

  lemma KeyParts(p: PlanStep)
    requires p.kind.Reason? && StepNormal(p)
    ensures SemanticKey(p) ==
            Lower("reason|") + (Lower(p.toolName) + ("|" + (Lower(p.title) + ("|" + Lower(p.instruction)))))
  {
    hide Lower, Trim;
    var front := "reason" + "|" + p.toolName + "|" + p.title + "|";
    assert front[0] == 'r' && front[|front| - 1] == '|';
    KeyTrimmed(front, p.instruction);
    Regroup("reason", "|", p.toolName, p.title, p.instruction);
    assert "reason" + "|" == "reason|";
    LowerParts("reason|", p.toolName, p.title, p.instruction);
  }

  lemma LowerBar()
    ensures Lower("|") == "|"
  {}
}
