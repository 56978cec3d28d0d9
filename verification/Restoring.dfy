/** Which suspended task comes back: by its snapshot identifier, and by what it is about. */
module Restorings {
  import opened Text
  import opened SuspendedTasks
  import opened TaskStacks
  import opened Contexts
  import S = Sessions
  import E = ExecutionStates
  import H = Histories

  /** `i` is the topmost entry that is wanted. */
  ghost predicate IsTopmost(live: seq<Task>, wanted: Task -> bool, i: nat) {
    i < |live| && wanted(live[i]) && forall j :: i < j < |live| ==> !wanted(live[j])
  }

  lemma TopmostIs(live: seq<Task>, wanted: Task -> bool, i: nat)
    requires IsTopmost(live, wanted, i)
    ensures Topmost(live, wanted) == Some(i)
  {}

  lemma MovedIs(c: Context, wanted: Task -> bool, i: nat, e: Env)
    requires StableStack(c.stack, e.atomic) && |c.stack| <= MAX_TASKS && IsTopmost(Live(c.stack, e.now), wanted, i)
    ensures var live := Live(c.stack, e.now);
            Moved(c, wanted, e, e) == Restored(c.(stack := Without(live, i)), live[i], e)
  {
    hide Moved, Restored, Live, Topmost, StableStack;
    MoveEffect(c, wanted, e);
    TopmostIs(Live(c.stack, e.now), wanted, i);
  }

  lemma MovesNothing(c: Context, wanted: Task -> bool, e: Env)
    requires StableStack(c.stack, e.atomic) && |c.stack| <= MAX_TASKS
    requires forall i :: 0 <= i < |Live(c.stack, e.now)| ==> !wanted(Live(c.stack, e.now)[i])
    ensures Moved(c, wanted, e, e) == (c, false)
  {
    hide Moved, Restored, Live, StableStack;
    MoveEffect(c, wanted, e);
  }

  lemma LiveStable(stack: seq<Task>, e: Env, i: nat)
    requires StableStack(stack, e.atomic) && i < |Live(stack, e.now)|
    ensures Stable(Live(stack, e.now)[i], e.atomic)
  {
    hide Live, Stable;
    StableLive(stack, e.now, e.atomic);
  }

  lemma StableId(t: Task, atomic: Atomic)
    requires Stable(t, atomic)
    ensures Trim(t.snapshotId) == t.snapshotId
  {
    hide StableSession, StableKeptWorkflow, StableExecution;
  }

  lemma HasIdIff(t: Task, id: string, e: Env)
    requires Stable(t, e.atomic)
    ensures HasId(id)(t) <==> t.snapshotId == id
  {
    hide Stable, Trim;
    StableId(t, e.atomic);
  }

  // ---- by identifier ------------------------------------------------------

  /** The topmost live entry with the given snapshot identifier is the one that is removed and restored. */
  lemma RestoresById(c: Context, id: string, i: nat, e: Env)
    requires StableStack(c.stack, e.atomic) && |c.stack| <= MAX_TASKS && Trim(id) != ""
    requires i < |Live(c.stack, e.now)| && Live(c.stack, e.now)[i].snapshotId == Trim(id)
    requires forall j :: i < j < |Live(c.stack, e.now)| ==> Live(c.stack, e.now)[j].snapshotId != Trim(id)
    ensures var live := Live(c.stack, e.now);
            RestoredById(c, id, e, e) == Restored(c.(stack := Without(live, i)), live[i], e)
  {
    hide Moved, Restored, Live, Stable, StableStack, HasId, Trim;
    var live := Live(c.stack, e.now);
    forall j | 0 <= j < |live| ensures HasId(Trim(id))(live[j]) <==> live[j].snapshotId == Trim(id) {
      LiveStable(c.stack, e, j);
      HasIdIff(live[j], Trim(id), e);
    }
    MovedIs(c, HasId(Trim(id)), i, e);
  }

  /** Without such an entry, or without an identifier, nothing happens. */
  lemma RestoresNothingById(c: Context, id: string, e: Env)
    requires StableStack(c.stack, e.atomic) && |c.stack| <= MAX_TASKS
    requires forall j :: 0 <= j < |Live(c.stack, e.now)| ==> Live(c.stack, e.now)[j].snapshotId != Trim(id)
    ensures RestoredById(c, id, e, e) == (c, false)
  {
    hide Moved, Restored, Live, Stable, StableStack, HasId, Trim;
    var live := Live(c.stack, e.now);
    forall j | 0 <= j < |live| ensures !HasId(Trim(id))(live[j]) {
      LiveStable(c.stack, e, j);
      HasIdIff(live[j], Trim(id), e);
    }
    MovesNothing(c, HasId(Trim(id)), e);
  }

  // ---- by domain ----------------------------------------------------------

  /** The skill whose name is the given domain. */
  ghost predicate Names(s: S.Skill, domain: string) {
    match s
    case NoSkill => domain == ""
    case Trader => domain == "trader_management"
    case Exchange => domain == "exchange_management"
    case Model => domain == "model_management"
    case Strategy => domain == "strategy_management"
    case OtherSkill(text) => domain == text
  }

  /** What a suspended task is about: its session's skill, else that of the first workflow task that has one. */
  ghost predicate About(t: Task, domain: string) {
    if t.session.Some? then Names(t.session.value.skill, domain)
    else
      && t.workflow.Some?
      && exists k :: FirstWithSkill(t.workflow.value.tasks, k) && t.workflow.value.tasks[k].skill == domain
  }

  ghost predicate FirstWithSkill(tasks: seq<WorkflowTask>, k: int) {
    0 <= k < |tasks| && tasks[k].skill != "" && forall j :: 0 <= j < k ==> tasks[j].skill == ""
  }

  lemma {:induction false} FirstSkillIs(tasks: seq<WorkflowTask>, domain: string)
    requires domain != "" && forall i :: 0 <= i < |tasks| ==> Trimmed(tasks[i].skill)
    ensures FirstSkill(tasks) == domain <==> exists k :: FirstWithSkill(tasks, k) && tasks[k].skill == domain
  {
    hide Trim;
    if tasks != [] {
      assert Trim(tasks[0].skill) == tasks[0].skill;
      if tasks[0].skill != "" {
        assert FirstWithSkill(tasks, 0);
      } else {
        FirstSkillIs(tasks[1..], domain);
        if k :| FirstWithSkill(tasks[1..], k) && tasks[1..][k].skill == domain { assert FirstWithSkill(tasks, k + 1); }
        if k :| FirstWithSkill(tasks, k) && tasks[k].skill == domain { assert FirstWithSkill(tasks[1..], k - 1); }
      }
    }
  }

  lemma StableParts(t: Task, atomic: Atomic)
    requires Stable(t, atomic)
    ensures t.workflow.Some? ==> forall i :: 0 <= i < |t.workflow.value.tasks| ==>
            Trimmed(t.workflow.value.tasks[i].skill)
  {
    hide StableSession, StableExecution, Clean;
  }

  lemma DomainIs(t: Task, domain: string, e: Env)
    requires Stable(t, e.atomic) && domain != ""
    ensures Domain(t, e) == domain <==> About(t, domain)
  {
    hide Normal, Stable, FirstSkill;
    StableIsFixed(t, e, 0);
    StableParts(t, e.atomic);
    if t.session.None? && t.workflow.Some? { FirstSkillIs(t.workflow.value.tasks, domain); }
  }

  /** The topmost live entry that is about the given domain is the one that is removed and restored. */
  lemma RestoresByDomain(c: Context, domain: string, i: nat, e: Env)
    requires StableStack(c.stack, e.atomic) && |c.stack| <= MAX_TASKS && domain != ""
    requires i < |Live(c.stack, e.now)| && About(Live(c.stack, e.now)[i], domain)
    requires forall j :: i < j < |Live(c.stack, e.now)| ==> !About(Live(c.stack, e.now)[j], domain)
    ensures var live := Live(c.stack, e.now);
            RestoredByDomain(c, domain, e, e) == Restored(c.(stack := Without(live, i)), live[i], e)
  {
    hide Moved, Restored, Live, Stable, StableStack, Domain, About;
    var live := Live(c.stack, e.now);
    forall j | 0 <= j < |live| ensures InDomain(domain, e)(live[j]) <==> About(live[j], domain) {
      LiveStable(c.stack, e, j);
      DomainIs(live[j], domain, e);
    }
    MovedIs(c, InDomain(domain, e), i, e);
  }

  lemma RestoresNothingByDomain(c: Context, domain: string, e: Env)
    requires StableStack(c.stack, e.atomic) && |c.stack| <= MAX_TASKS
    requires domain != "" ==>
               forall j :: 0 <= j < |Live(c.stack, e.now)| ==> !About(Live(c.stack, e.now)[j], domain)
    ensures RestoredByDomain(c, domain, e, e) == (c, false)
  {
    hide Moved, Restored, Live, Stable, StableStack, Domain, About;
    var live := Live(c.stack, e.now);
    if domain != "" {
      forall j | 0 <= j < |live| ensures !InDomain(domain, e)(live[j]) {
        LiveStable(c.stack, e, j);
        DomainIs(live[j], domain, e);
      }
      MovesNothing(c, InDomain(domain, e), e);
    }
  }

  /**
   * With two readings of the clock: the entry found first is looked up by its position among those that are live at the
   * second reading; when that many are not left, nothing happens.
   */
  lemma MovesByPosition(c: Context, wanted: Task -> bool, first: Env, second: Env)
    requires StableStack(c.stack, first.atomic) && |c.stack| <= MAX_TASKS && first.atomic == second.atomic
    ensures var (live, later) := (Live(c.stack, first.now), Live(c.stack, second.now));
            match Topmost(live, wanted)
            case None => Moved(c, wanted, first, second) == (c, false)
            case Some(i) =>
              Moved(c, wanted, first, second) ==
              if i < |later| then Restored(c.(stack := Without(later, i)), later[i], second) else (c, false)
  {
    hide Restored, Live, Stable, NormalStack, Removed;
    NormalStackStable(c.stack, first);
    var top := Topmost(Live(c.stack, first.now), wanted);
    if top.Some? { RemovedStable(c.stack, top.value, second); }
  }

  // ---- what is live at all ------------------------------------------------

  lemma {:induction false} LiveIsYoung(stack: seq<Task>, now: int, t: Task)
    ensures t in Live(stack, now) <==>
            t in stack && !(t.suspendedAt.At? && now - t.suspendedAt.seconds > 24 * 60 * 60)
  {
    if stack != [] { LiveIsYoung(stack[..|stack| - 1], now, t); }
  }

  /** Reading a stored stack gives exactly the entries that were suspended no more than a day ago, in order. */
  lemma ReadsTheYoung(stack: seq<Task>, e: Env, t: Task)
    requires StableStack(stack, e.atomic) && |stack| <= MAX_TASKS
    ensures t in NormalStack(stack, e) <==> t in stack && e.now - t.suspendedAt.seconds <= 24 * 60 * 60
  {
    hide NormalStack, Live, Expired;
    NormalStackStable(stack, e);
    LiveIsYoung(stack, e.now, t);
    if t in stack {
      var i :| 0 <= i < |stack| && stack[i] == t;
      StableTime(stack[i], e.atomic);
    }
  }

  /** No more than the last five of them are read. */
  lemma ReadsFive(stack: seq<Task>, e: Env)
    requires StableStack(stack, e.atomic)
    ensures NormalStack(stack, e) == Last(Live(stack, e.now), 5)
  {
    hide NormalStack, Live, StableStack;
    NormalStackStable(stack, e);
  }

  lemma StableTime(t: Task, atomic: Atomic)
    requires Stable(t, atomic)
    ensures t.suspendedAt.At?
  {}

  // ---- what is going on ---------------------------------------------------

  ghost predicate Ongoing(t: WorkflowTask) { t.status == E.Pending || t.status == E.Active }

  /** For contexts as they are stored: something goes on exactly in these three cases. */
  lemma BusyIff(c: Context, e: Env)
    requires S.Stable(c.session) && StableWorkflow(c.workflow, e.atomic) && E.Stable(c.execution)
    ensures Busy(c, e) <==>
            || !c.session.skill.NoSkill?
            || (exists i :: 0 <= i < |c.workflow.tasks| && Ongoing(c.workflow.tasks[i]))
            || (Trim(c.execution.sessionId) != ""
                && (c.execution.status == E.Planning || c.execution.status == E.Running
                    || c.execution.status == E.WaitingUser))
  {
    hide S.Normalize, E.Normalize, NormalWorkflow, S.Stable, E.Stable, StableWorkflow, Trim;
    S.StableIsFixed(c.session, e.now, e.aliasWins);
    StableWorkflowFixed(c.workflow, e.now, e.atomic);
    E.StableIsFixed(c.execution, e.now);
    if i :| 0 <= i < |c.workflow.tasks| && Ongoing(c.workflow.tasks[i]) { assert ActiveWorkflow(c.workflow); }
  }

  /**
   * Resuming by word: a cancellation of the parents forgets the stack, and a wish to resume brings the top entry back,
   * both only while nothing is going on; in every other case nothing happens.
   */
  lemma ResumeDecides(c: Context, reply: Reply, e: Env)
    requires StableStack(c.stack, e.atomic) && |c.stack| <= MAX_TASKS
    ensures var live := Live(c.stack, e.now);
            Resumed(c, reply, e) ==
            if Busy(c, e) || reply.OtherReply? then (c, false)
            else if reply.CancelParents? then (c.(stack := []), true)
            else if live == [] then (c, false)
            else Restored(c.(stack := live[..|live| - 1]), live[|live| - 1], e)
  {
    hide Busy, Restored, Live, Popped, StableStack;
    PoppedStable(c.stack, e);
  }

  /** A snapshot is copied back exactly when it is the only live one, the reply answers, and its session waits. */
  lemma CopyRestoresIff(c: Context, answers: bool, e: Env)
    requires StableStack(c.stack, e.atomic) && |c.stack| <= MAX_TASKS
    ensures var live := Live(c.stack, e.now);
            if answers && |live| == 1 && live[0].kind.SkillKind? && live[0].session.Some?
               && (live[0].session.value.phase == S.AwaitConfirmation || live[0].session.value.phase == S.AwaitCreate
                   || live[0].session.value.phase == S.AwaitStart)
            then RestoredByCopy(c, answers, e) == Restored(c, live[0], e)
            else RestoredByCopy(c, answers, e) == (c, false)
  {
    hide Restored, Live, StableStack, NormalStack;
    NormalStackStable(c.stack, e);
  }

  // ---- what a snapshot says -----------------------------------------------

  /** The first of the active parts words the hint: the session, the workflow, the execution state. */
  ghost function HintOf(p: (Option<S.Session>, Option<Workflow>, Option<E.ExecutionState>), words: Wording): string {
    if p.0.Some? && words.session(p.0.value) != "" then words.session(p.0.value)
    else if p.1.Some? && words.workflow(p.1.value) != "" then words.workflow(p.1.value)
    else if p.2.Some? then words.execution(p.2.value)
    else ""
  }

  lemma DraftSays(c: Context, e: Env, words: Wording)
    ensures var (d, p) := (Draft(c, e, words), ActiveParts(c, e));
            && d.hint == HintOf(p, words)
            && d.triggers == (if p.0.Some? && p.0.value.skill.Trader? && p.0.value.action == "create"
                              then ["exchange_management", "model_management", "strategy_management"] else [])
            && d.snapshotId == "" && d.intentId == "" && d.parentIntentId == ""
  {
    hide S.Normalize, E.Normalize, NormalWorkflow, ActiveSession, ActiveWorkflow, ActiveExecution;
  }

  lemma ParentsClean()
    ensures Clean(PARENTS, {}) == PARENTS
  {
    assert CleanList(PARENTS, {}) by {
      assert |Lower(PARENTS[0])| == 19 && |Lower(PARENTS[1])| == 16 && |Lower(PARENTS[2])| == 19;
      assert Lower(PARENTS[0])[0] == 'e' && Lower(PARENTS[2])[0] == 's';
    }
    CleanFixed(PARENTS, {});
  }

  /**
   * A snapshot is named anew, words its hint after what was active, and a draft of a trader waits for its sub-tasks.
   */
  lemma BuiltSays(c: Context, e: Env, words: Wording)
    requires GoodEnv(e) && Busy(c, e)
    ensures var (t, p) := (Built(c, e, words), ActiveParts(c, e));
            && t.history == Last(c.history, 24)
            && t.snapshotId == e.snapshot(0) && t.intentId == e.intent(0) && t.parentIntentId == ""
            && t.hint == Trim(HintOf(p, words))
            && t.triggers == (if p.0.Some? && p.0.value.skill.Trader? && p.0.value.action == "create"
                              then ["exchange_management", "model_management", "strategy_management"] else [])
  {
    hide KeptSession, KeptWorkflow, KeptExecution, Draft, Busy, ActiveParts, HintOf, Clean, Trim;
    var d := Draft(c, e, words);
    DraftSays(c, e, words);
    PartsOfDraft(c, e, words);
    TaskKeeps(d, e, 0);
    ParentsClean();
    NoTriggers();
  }

  lemma NoTriggers()
    ensures Clean([], {}) == [] && Trim("") == "" && OrElse("", "") == ""
  {}
}
