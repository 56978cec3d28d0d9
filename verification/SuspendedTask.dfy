/** Workflow sessions and suspended tasks, with the normalisation applied on every load and save. */
module SuspendedTasks {
  import opened Text
  import E = ExecutionStates
  import H = Histories
  import S = Sessions

  // ---- workflow sessions --------------------------------------------------

  datatype WorkflowTask = WorkflowTask(id: string, skill: string, action: string, request: string,
                                       dependsOn: seq<string>, status: E.StepStatus, error: string)

  datatype Workflow = Workflow(userId: int, request: string, tasks: seq<WorkflowTask>, updatedAt: Stamp)

  const NO_WORKFLOW := Workflow(0, "", [], Unset)

  /** The clean-up of action names, as a parameter. */
  type Atomic = (string, string) -> string

  /** Cleaning an action name twice is cleaning it once. */
  ghost predicate Settles(atomic: Atomic) {
    forall skill, action :: atomic(skill, atomic(skill, action)) == atomic(skill, action)
  }

  function TaskId(n: nat): string { "task_" + E.Digits(n) }

  function NormalWorkflowTask(t: WorkflowTask, index: nat, atomic: Atomic): WorkflowTask {
    var skill := Trim(t.skill);
    WorkflowTask(if Trim(t.id) == "" then TaskId(index + 1) else Trim(t.id), skill, atomic(skill, t.action),
                 Trim(t.request), Clean(t.dependsOn, {}),
                 if t.status.Blank? then E.Pending else t.status, Trim(t.error))
  }

  predicate Workable(t: WorkflowTask) { t.skill != "" && t.action != "" && t.request != "" }

  function NormalWorkflowTasks(tasks: seq<WorkflowTask>, atomic: Atomic): seq<WorkflowTask> {
    if tasks == [] then []
    else
      var last := NormalWorkflowTask(tasks[|tasks| - 1], |tasks| - 1, atomic);
      NormalWorkflowTasks(tasks[..|tasks| - 1], atomic) + if Workable(last) then [last] else []
  }

  /** `normalizeWorkflowSession`. */
  function NormalWorkflow(w: Workflow, now: int, atomic: Atomic): Workflow {
    var tasks := NormalWorkflowTasks(w.tasks, atomic);
    if tasks == [] then NO_WORKFLOW
    else Workflow(w.userId, Trim(w.request), tasks, Fill(w.updatedAt, now))
  }

  ghost predicate StableWorkflowTask(t: WorkflowTask, atomic: Atomic) {
    && Trimmed(t.id) && t.id != "" && Trimmed(t.skill) && atomic(t.skill, t.action) == t.action && Trimmed(t.request)
    && CleanList(t.dependsOn, {}) && !t.status.Blank? && Trimmed(t.error) && Workable(t)
  }

  ghost predicate StableWorkflowTasks(tasks: seq<WorkflowTask>, atomic: Atomic) {
    forall i :: 0 <= i < |tasks| ==> StableWorkflowTask(tasks[i], atomic)
  }

  ghost predicate StableWorkflow(w: Workflow, atomic: Atomic) {
    w == NO_WORKFLOW || (w.tasks != [] && Trimmed(w.request) && w.updatedAt.At? && StableWorkflowTasks(w.tasks, atomic))
  }

  lemma {:induction false} NormalWorkflowTasksStable(tasks: seq<WorkflowTask>, atomic: Atomic)
    requires Settles(atomic)
    ensures StableWorkflowTasks(NormalWorkflowTasks(tasks, atomic), atomic)
  {
    hide Trim, Workable;
    if tasks != [] {
      NormalWorkflowTasksStable(tasks[..|tasks| - 1], atomic);
      var n := |tasks| - 1;
      TaskIdTrimmed(n + 1);
      assert Workable(NormalWorkflowTask(tasks[n], n, atomic)) ==>
        StableWorkflowTask(NormalWorkflowTask(tasks[n], n, atomic), atomic);
    }
  }

  lemma TaskIdTrimmed(n: nat)
    ensures TaskId(n) != "" && Trimmed(TaskId(n))
  {
    assert TaskId(n)[|TaskId(n)| - 1] == E.Digits(n)[|E.Digits(n)| - 1];
  }

  lemma {:induction false} StableWorkflowTasksFixed(tasks: seq<WorkflowTask>, atomic: Atomic)
    requires StableWorkflowTasks(tasks, atomic)
    ensures NormalWorkflowTasks(tasks, atomic) == tasks
  {
    hide Trim;
    if tasks != [] {
      var n := |tasks| - 1;
      StableWorkflowTasksFixed(tasks[..n], atomic);
      CleanFixed(tasks[n].dependsOn, {});
      assert StableWorkflowTask(tasks[n], atomic);
      assert tasks == tasks[..n] + [tasks[n]];
    }
  }

  /** Normalising a workflow reaches a stable one, and stable ones are left alone: it is idempotent. */
  lemma NormalWorkflowStable(w: Workflow, now: int, atomic: Atomic)
    requires Settles(atomic)
    ensures StableWorkflow(NormalWorkflow(w, now, atomic), atomic)
  {
    NormalWorkflowTasksStable(w.tasks, atomic);
  }

  lemma StableWorkflowFixed(w: Workflow, now: int, atomic: Atomic)
    requires StableWorkflow(w, atomic)
    ensures NormalWorkflow(w, now, atomic) == w
  {
    if w.tasks != [] { StableWorkflowTasksFixed(w.tasks, atomic); }
  }

  /** The loop of `normalizeWorkflowSession`. */
  method NormalizeWorkflowTasks(tasks: seq<WorkflowTask>, atomic: Atomic) returns (normalized: seq<WorkflowTask>)
    ensures normalized == NormalWorkflowTasks(tasks, atomic)
  {
    hide NormalWorkflowTask;
    normalized := [];
    for i := 0 to |tasks|
      invariant normalized == NormalWorkflowTasks(tasks[..i], atomic)
    {
      assert tasks[..i + 1][..i] == tasks[..i];
      var task := NormalWorkflowTask(tasks[i], i, atomic);
      if task.skill == "" || task.action == "" || task.request == "" { continue; }
      normalized := normalized + [task];
    }
    assert tasks[..|tasks|] == tasks;
  }

  /**
   * A task of a workflow as it is kept: trimmed, with an identifier by its position, pending unless it says
   * otherwise.
   */
  ghost predicate KeepsTask(t: WorkflowTask, n: WorkflowTask, position: nat, atomic: Atomic) {
    && n.id == (if Trim(t.id) == "" then "task_" + E.Digits(position + 1) else Trim(t.id))
    && n.skill == Trim(t.skill) && n.action == atomic(Trim(t.skill), t.action) && n.request == Trim(t.request)
    && n.dependsOn == Clean(t.dependsOn, {}) && n.error == Trim(t.error)
    && (if t.status.Blank? then n.status.Pending? else n.status == t.status)
  }

  /** One task after the others is kept exactly when it has a skill, an action and a request. */
  lemma KeepsWorkable(tasks: seq<WorkflowTask>, t: WorkflowTask, atomic: Atomic)
    ensures var (before, after) := (NormalWorkflowTasks(tasks, atomic), NormalWorkflowTasks(tasks + [t], atomic));
            if Trim(t.skill) == "" || atomic(Trim(t.skill), t.action) == "" || Trim(t.request) == "" then
              after == before
            else
              && |after| == |before| + 1 && after[..|before|] == before
              && KeepsTask(t, after[|before|], |tasks|, atomic)
  {
    hide Trim, Clean, E.Digits;
    assert (tasks + [t])[..|tasks|] == tasks;
  }

  /** A workflow is kept exactly when some task of it is, with its user, its request and its time. */
  lemma KeepsWorkflow(w: Workflow, now: int, atomic: Atomic)
    ensures var n := NormalWorkflow(w, now, atomic);
            if NormalWorkflowTasks(w.tasks, atomic) == [] then n == NO_WORKFLOW
            else n.userId == w.userId && n.request == Trim(w.request) && n.tasks == NormalWorkflowTasks(w.tasks, atomic)
                 && n.updatedAt == if w.updatedAt.At? then w.updatedAt else At(now)
  {
    hide Trim, NormalWorkflowTasks;
  }

  // ---- suspended tasks ----------------------------------------------------

  datatype Kind = NoKind | SkillKind | WorkflowKind | ExecutionKind | OtherKind(text: string)

  datatype Task = Task(snapshotId: string, intentId: string, parentIntentId: string, kind: Kind, hint: string,
                       resumeOnSuccess: bool, triggers: seq<string>, session: Option<S.Session>,
                       workflow: Option<Workflow>, execution: Option<E.ExecutionState>,
                       history: seq<H.Message>, suspendedAt: Stamp)

  const NO_TASK := Task("", "", "", NoKind, "", false, [], None, None, None, [], Unset)

  /**
   * What a normalisation takes from outside: the clock, the fresh identifiers drawn for each entry,
   * the order in which a field map is met, and the clean-up of action names.
   */
  datatype Env = Env(now: int, snapshot: nat -> string, intent: nat -> string, aliasWins: bool, atomic: Atomic)

  ghost predicate GoodEnv(e: Env) {
    && Settles(e.atomic)
    && (forall i :: e.snapshot(i) != "" && Trimmed(e.snapshot(i)))
    && (forall i :: e.intent(i) != "" && Trimmed(e.intent(i)))
  }

  function KeptSession(s: Option<S.Session>, e: Env): Option<S.Session> {
    if s.None? then None
    else
      var n := S.Normalize(s.value, e.now, e.aliasWins);
      if n.skill.NoSkill? then None else Some(n)
  }

  function KeptWorkflow(w: Option<Workflow>, e: Env): Option<Workflow> {
    if w.None? then None
    else
      var n := NormalWorkflow(w.value, e.now, e.atomic);
      if n.tasks == [] then None else Some(n)
  }

  function KeptExecution(x: Option<E.ExecutionState>, e: Env): Option<E.ExecutionState> {
    if x.None? then None
    else
      var n := E.Normalize(x.value, e.now);
      if Trim(n.sessionId) == "" then None else Some(n)
  }

  function FillKind(kind: Kind, session: bool, workflow: bool, execution: bool): Kind {
    if !kind.NoKind? then kind
    else if session then SkillKind else if workflow then WorkflowKind else if execution then ExecutionKind else NoKind
  }

  /** `normalizeSuspendedTask`; `index` says which of the fresh identifiers it draws. */
  function Normal(t: Task, e: Env, index: nat): Task {
    var session, workflow, execution := KeptSession(t.session, e), KeptWorkflow(t.workflow, e),
        KeptExecution(t.execution, e);
    var kind := FillKind(t.kind, session.Some?, workflow.Some?, execution.Some?);
    if kind.NoKind? then NO_TASK
    else Task(if Trim(t.snapshotId) == "" then e.snapshot(index) else Trim(t.snapshotId),
              if Trim(t.intentId) == "" then e.intent(index) else Trim(t.intentId),
              Trim(t.parentIntentId), kind, Trim(t.hint), t.resumeOnSuccess, Clean(t.triggers, {}),
              session, workflow, execution, t.history, Fill(t.suspendedAt, e.now))
  }

  ghost predicate StableSession(s: Option<S.Session>) {
    s.Some? ==> S.Stable(s.value) && !s.value.skill.NoSkill?
  }

  ghost predicate StableExecution(x: Option<E.ExecutionState>) {
    x.Some? ==> E.Stable(x.value) && Trim(x.value.sessionId) != ""
  }

  ghost predicate StableKeptWorkflow(w: Option<Workflow>, atomic: Atomic) {
    w.Some? ==> StableWorkflow(w.value, atomic) && w.value.tasks != []
  }

  /** Tasks that normalisation leaves alone. */
  ghost predicate Stable(t: Task, atomic: Atomic) {
    var texts := Trimmed(t.snapshotId) && Trimmed(t.intentId) && Trimmed(t.parentIntentId) && Trimmed(t.hint)
      && t.snapshotId != "" && t.intentId != "" && CleanList(t.triggers, {}) && t.suspendedAt.At?;
    !t.kind.NoKind? && texts && StableSession(t.session) && StableKeptWorkflow(t.workflow, atomic) &&
        StableExecution(t.execution)
  }

  lemma StableIsFixed(t: Task, e: Env, index: nat)
    requires Stable(t, e.atomic)
    ensures Normal(t, e, index) == t
  {
    hide Trim, S.Normalize, S.Stable, E.Normalize, E.Stable, NormalWorkflow, StableWorkflow;
    if t.session.Some? { S.StableIsFixed(t.session.value, e.now, e.aliasWins); }
    if t.workflow.Some? { StableWorkflowFixed(t.workflow.value, e.now, e.atomic); }
    if t.execution.Some? { E.StableIsFixed(t.execution.value, e.now); }
    CleanFixed(t.triggers, {});
  }

  lemma KeptSessionTwice(s: Option<S.Session>, a: Env, b: Env)
    ensures StableSession(KeptSession(KeptSession(s, a), b))
  {
    hide S.Normalize, S.Stable;
    if s.Some? { S.NormalizeTwiceStable(s.value, a.now, a.aliasWins, b.now, b.aliasWins); }
  }

  lemma KeptExecutionTwice(x: Option<E.ExecutionState>, a: Env, b: Env)
    ensures StableExecution(KeptExecution(KeptExecution(x, a), b))
  {
    hide E.Stable, Trim;
    if x.Some? { E.NormalizeTwiceStable(x.value, a.now, b.now); }
  }

  lemma KeptWorkflowStable(w: Option<Workflow>, e: Env)
    requires Settles(e.atomic)
    ensures StableKeptWorkflow(KeptWorkflow(w, e), e.atomic)
  {
    if w.Some? { NormalWorkflowStable(w.value, e.now, e.atomic); }
  }

  /** Two normalisations, at any two times, always reach a stable task, or nothing at all. */
  lemma NormalTwiceStable(t: Task, a: Env, i: nat, b: Env, j: nat)
    requires GoodEnv(a) && GoodEnv(b)
    ensures var r := Normal(Normal(t, a, i), b, j); r == NO_TASK || Stable(r, b.atomic)
    ensures Normal(t, a, i) == NO_TASK <==> Normal(t, a, i).kind.NoKind?
  {
    hide Trim, KeptSession, KeptExecution, KeptWorkflow, StableSession, StableExecution, StableKeptWorkflow;
    KeptSessionTwice(t.session, a, b);
    KeptExecutionTwice(t.execution, a, b);
    var n := Normal(t, a, i);
    KeptWorkflowStable(n.workflow, b);
    NothingKept(b);
  }

  lemma NothingKept(e: Env)
    ensures KeptSession(None, e).None? && KeptWorkflow(None, e).None? && KeptExecution(None, e).None?
  {}

  /**
   * A suspended task loses a part exactly when nothing of it is left, and is dropped when it has neither part nor
   * kind.
   */
  lemma TaskKeeps(t: Task, e: Env, index: nat)
    ensures var n := Normal(t, e, index);
            var (s, w, x) := (KeptSession(t.session, e), KeptWorkflow(t.workflow, e), KeptExecution(t.execution, e));
            if t.kind.NoKind? && s.None? && w.None? && x.None? then n == NO_TASK
            else
              && n.session == s && n.workflow == w && n.execution == x && n.history == t.history
              && n.snapshotId == OrElse(t.snapshotId, "") + (if Trim(t.snapshotId) == "" then e.snapshot(index) else "")
              && n.intentId == OrElse(t.intentId, "") + (if Trim(t.intentId) == "" then e.intent(index) else "")
              && n.parentIntentId == Trim(t.parentIntentId) && n.hint == Trim(t.hint)
              && n.resumeOnSuccess == t.resumeOnSuccess && n.triggers == Clean(t.triggers, {})
              && n.suspendedAt == (if t.suspendedAt.At? then t.suspendedAt else At(e.now))
              && (!t.kind.NoKind? ==> n.kind == t.kind)
              && (t.kind.NoKind? ==>
                    n.kind == if s.Some? then SkillKind else if w.Some? then WorkflowKind else ExecutionKind)
  {
    hide Trim, KeptSession, KeptWorkflow, KeptExecution, Clean;
    BlankTrims();
  }

  lemma BlankTrims()
    ensures Trim("") == ""
  {}

  /** Which parts are left: a session of some skill, a workflow with tasks, an execution state with an identifier. */
  lemma PartsLeft(t: Task, e: Env)
    ensures KeptSession(t.session, e).Some? <==> t.session.Some? && !t.session.value.skill.NoSkill?
    ensures KeptWorkflow(t.workflow, e).Some? <==>
              t.workflow.Some? && NormalWorkflowTasks(t.workflow.value.tasks, e.atomic) != []
    ensures KeptExecution(t.execution, e).Some? <==> t.execution.Some? && Trim(t.execution.value.sessionId) != ""
    ensures KeptSession(t.session, e).Some? ==>
              KeptSession(t.session, e).value == S.Normalize(t.session.value, e.now, e.aliasWins)
    ensures KeptWorkflow(t.workflow, e).Some? ==>
              KeptWorkflow(t.workflow, e).value == NormalWorkflow(t.workflow.value, e.now, e.atomic)
    ensures KeptExecution(t.execution, e).Some? ==>
              KeptExecution(t.execution, e).value == E.Normalize(t.execution.value, e.now)
  {
    hide Trim, NormalWorkflowTasks, E.NormalSteps, E.NormalObservations, E.CompactNotes, E.NormalWaiting;
    hide S.Tidied, S.Merged, S.AnySlotFilled;
    if t.session.Some? { SessionSkill(t.session.value, e); }
  }

  lemma SessionSkill(s: S.Session, e: Env)
    ensures S.Normalize(s, e.now, e.aliasWins).skill.NoSkill? <==> s.skill.NoSkill?
  {
    hide S.Mirror, S.WithSlots, S.TrimSlots, S.NormalFields, S.FieldValue;
  }
}
