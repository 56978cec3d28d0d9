/** Suspending the active contexts of a user onto a stack, and bringing them back. */
module Contexts {
  import opened Text
  import opened SuspendedTasks
  import opened TaskStacks
  import E = ExecutionStates
  import H = Histories
  import S = Sessions

  /** Everything that is stored for one user, and the cap of the chat history. */
  datatype Context = Context(user: int, session: S.Session, workflow: Workflow, execution: E.ExecutionState,
                             stack: seq<Task>, history: seq<H.Message>, maxTurns: nat)

  /** The wording of the question that offers to resume, never blank. */
  datatype Wording = Wording(session: S.Session -> string, workflow: Workflow -> string,
                             execution: E.ExecutionState -> string)

  const CREATE := "create"
  const PARENTS := ["exchange_management", "model_management", "strategy_management"]

  // ---- reading and writing the live contexts -----------------------------

  function GetSession(c: Context, e: Env): S.Session { S.Normalize(c.session, e.now, e.aliasWins) }

  function GetWorkflow(c: Context, e: Env): Workflow { NormalWorkflow(c.workflow, e.now, e.atomic) }

  function GetExecution(c: Context, e: Env): E.ExecutionState { E.Normalize(c.execution, e.now) }

  predicate ActiveSession(s: S.Session) { !s.skill.NoSkill? }

  predicate ActiveWorkflow(w: Workflow) {
    exists i :: 0 <= i < |w.tasks| && (w.tasks[i].status.Pending? || w.tasks[i].status.Active?)
  }

  predicate ActiveExecution(x: E.ExecutionState) {
    Trim(x.sessionId) != "" && (x.status.Planning? || x.status.Running? || x.status.WaitingUser?)
  }

  /** Whether anything is going on for the user. */
  predicate Busy(c: Context, e: Env) {
    ActiveSession(GetSession(c, e)) || ActiveWorkflow(GetWorkflow(c, e)) || ActiveExecution(GetExecution(c, e))
  }

  function Cleared(c: Context): Context {
    c.(session := S.NO_SESSION, workflow := NO_WORKFLOW, execution := E.NO_STATE)
  }

  function SavedSession(s: S.Session, e: Env): S.Session { S.Normalize(s, e.now, e.aliasWins) }

  function SavedWorkflow(w: Workflow, user: int, e: Env): Workflow {
    var n := NormalWorkflow(w, e.now, e.atomic);
    if n.tasks == [] then NO_WORKFLOW else n.(userId := user, updatedAt := At(e.now))
  }

  /** An execution state is stored under the user it names; a blank session identifier clears the entry. */
  function WithExecution(c: Context, x: E.ExecutionState, e: Env): Context {
    var n := E.Normalize(x, e.now);
    if n.userId != c.user then c
    else c.(execution := if n.sessionId == "" then E.NO_STATE else n)
  }

  // ---- suspending ---------------------------------------------------------

  function DraftSession(d: Task, session: S.Session, e: Env, words: Wording): Task {
    if !ActiveSession(session) then d
    else
      var copy := S.Normalize(session, e.now, e.aliasWins);
      var parent := copy.skill.Trader? && copy.action == CREATE;
      d.(kind := SkillKind, session := Some(copy), hint := words.session(copy), resumeOnSuccess := parent,
         triggers := if parent then PARENTS else [])
  }

  function DraftWorkflow(d: Task, workflow: Workflow, e: Env, words: Wording): Task {
    if !ActiveWorkflow(workflow) then d
    else
      var copy := NormalWorkflow(workflow, e.now, e.atomic);
      d.(kind := WorkflowKind, workflow := Some(copy), hint := if d.hint == "" then words.workflow(copy) else d.hint)
  }

  function DraftExecution(d: Task, execution: E.ExecutionState, e: Env, words: Wording): Task {
    if !ActiveExecution(execution) then d
    else
      var copy := E.Normalize(execution, e.now);
      d.(kind := if d.kind.NoKind? then ExecutionKind else d.kind, execution := Some(copy),
         hint := if d.hint == "" then words.execution(copy) else d.hint)
  }

  /** The snapshot of whatever is active. */
  function Draft(c: Context, e: Env, words: Wording): Task {
    var d1 := DraftSession(NO_TASK, GetSession(c, e), e, words);
    var d2 := DraftWorkflow(d1, GetWorkflow(c, e), e, words);
    DraftExecution(d2, GetExecution(c, e), e, words).(history := Last(c.history, H.MAX_TURNS))
  }

  /** `buildSuspendedTask`. */
  function Built(c: Context, e: Env, words: Wording): Task {
    Normal(Draft(c, e, words), e, 0)
  }

  /** `suspendActiveContexts`. */
  function Suspended(c: Context, e: Env, words: Wording): (Context, bool) {
    var task := Built(c, e, words);
    if task.kind.NoKind? then (c, false)
    else (Cleared(c).(stack := Pushed(c.stack, task, e)), true)
  }

  // ---- bringing back ------------------------------------------------------

  /** `restoreSuspendedTask`. */
  function Restored(c: Context, task: Task, e: Env): (Context, bool) {
    var t := Normal(task, e, 0);
    if t.kind.NoKind? then (c, false)
    else
      var c1 := Cleared(c);
      var c2 := if t.history == [] then c1 else c1.(history := Last(t.history, c.maxTurns));
      var c3 := if t.execution.None? then c2 else WithExecution(c2, t.execution.value, e);
      var c4 := if t.workflow.None? then c3 else c3.(workflow := SavedWorkflow(t.workflow.value, c.user, e));
      (if t.session.None? then c4 else c4.(session := SavedSession(t.session.value, e)), true)
  }

  /** What the reply was taken to be. */
  datatype Reply = CancelParents | ResumeFlow | OtherReply

  /** `tryResumeSuspendedTask`; the flag says that the turn was handled. */
  function Resumed(c: Context, reply: Reply, e: Env): (Context, bool) {
    if reply.CancelParents? && !Busy(c, e) then (c.(stack := []), true)
    else if !reply.ResumeFlow? || Busy(c, e) then (c, false)
    else
      var (stack, task) := Popped(c.stack, e);
      match task
      case None => (c, false)
      case Some(t) => Restored(c.(stack := stack), t, e)
  }

  /** The topmost entry that is wanted. */
  function Topmost(stack: seq<Task>, wanted: Task -> bool): (r: Option<nat>)
    ensures r.Some? ==> r.value < |stack| && wanted(stack[r.value])
    ensures r.Some? ==> forall i :: r.value < i < |stack| ==> !wanted(stack[i])
    ensures r.None? ==> forall i :: 0 <= i < |stack| ==> !wanted(stack[i])
  {
    if stack == [] then None
    else if wanted(stack[|stack| - 1]) then Some(|stack| - 1)
    else Topmost(stack[..|stack| - 1], wanted)
  }

  function HasId(id: string): Task -> bool {
    (t: Task) => Trim(t.snapshotId) == id
  }

  /** The skill that a suspended task is about. */
  function Domain(t: Task, e: Env): string
  {
    var n := Normal(t, e, 0);
    if n.session.Some? then SkillName(n.session.value.skill)
    else if n.workflow.Some? then FirstSkill(n.workflow.value.tasks)
    else ""
  }

  function SkillName(s: S.Skill): string {
    match s
    case NoSkill => ""
    case Trader => "trader_management"
    case Exchange => "exchange_management"
    case Model => "model_management"
    case Strategy => "strategy_management"
    case OtherSkill(text) => text
  }

  function FirstSkill(tasks: seq<WorkflowTask>): string {
    if tasks == [] then "" else if Trim(tasks[0].skill) != "" then Trim(tasks[0].skill) else FirstSkill(tasks[1..])
  }

  function InDomain(domain: string, e: Env): Task -> bool {
    (t: Task) => Domain(t, e) == domain
  }

  /** The topmost wanted entry is moved back; the stack is read at `first` and read again, to remove it, at `second`. */
  function Moved(c: Context, wanted: Task -> bool, first: Env, second: Env): (Context, bool) {
    match Topmost(NormalStack(c.stack, first), wanted)
    case None => (c, false)
    case Some(index) =>
      var (stack, task) := Removed(c.stack, index, second);
      match task
      case None => (c, false)
      case Some(t) => Restored(c.(stack := stack), t, second)
  }

  /** `restoreSuspendedTaskByID`. */
  function RestoredById(c: Context, id: string, first: Env, second: Env): (Context, bool) {
    if Trim(id) == "" then (c, false) else Moved(c, HasId(Trim(id)), first, second)
  }

  /** `restoreMatchingSuspendedTask`; `domain` is what the text was found to mention, blank for nothing. */
  function RestoredByDomain(c: Context, domain: string, first: Env, second: Env): (Context, bool) {
    if domain == "" then (c, false) else Moved(c, InDomain(domain, first), first, second)
  }

  predicate Awaiting(p: S.Phase) { p.AwaitConfirmation? || p.AwaitCreate? || p.AwaitStart? }

  /**
   * `tryRestoreAwaitingConfirmationSnapshot`: a lone snapshot that waits for a confirmation is brought back, but not
   * removed.
   */
  function RestoredByCopy(c: Context, answers: bool, e: Env): (Context, bool) {
    var stack := NormalStack(c.stack, e);
    if !answers || |stack| != 1 then (c, false)
    else
      var t := stack[0];
      if t.kind.SkillKind? && t.session.Some? && Awaiting(t.session.value.phase) then Restored(c, t, e) else (c, false)
  }

  // ---- what suspending does ----------------------------------------------

  /** What of the live contexts is worth keeping: each normalised twice, and only if it is active. */
  function ActiveParts(c: Context, e: Env): (r: (Option<S.Session>, Option<Workflow>, Option<E.ExecutionState>)) {
    var session, workflow, execution := GetSession(c, e), GetWorkflow(c, e), GetExecution(c, e);
    (if ActiveSession(session) then Some(S.Normalize(session, e.now, e.aliasWins)) else None,
     if ActiveWorkflow(workflow) then Some(NormalWorkflow(workflow, e.now, e.atomic)) else None,
     if ActiveExecution(execution) then Some(E.Normalize(execution, e.now)) else None)
  }

  /** A workflow names the snapshot, then a session, then an execution state. */
  function KindOf(s: Option<S.Session>, w: Option<Workflow>, x: Option<E.ExecutionState>): Kind {
    if w.Some? then WorkflowKind else if s.Some? then SkillKind else if x.Some? then ExecutionKind else NoKind
  }

  /** Only the creation of a trader waits for its sub-tasks to succeed. */
  predicate IsParent(s: Option<S.Session>) {
    s.Some? && s.value.skill.Trader? && s.value.action == CREATE
  }

  lemma PartsStable(c: Context, e: Env)
    requires Settles(e.atomic)
    ensures var p := ActiveParts(c, e);
            && StableSession(p.0) && StableKeptWorkflow(p.1, e.atomic) && StableExecution(p.2)
  {
    hide S.Normalize, S.Stable, E.Stable, Trim, ActiveSession;
    SessionPartStable(c, e);
    ExecutionPartStable(c, e);
    NormalWorkflowStable(GetWorkflow(c, e), e.now, e.atomic);
    WorkflowPartActive(c, e);
  }

  lemma SessionPartStable(c: Context, e: Env)
    ensures var p := ActiveParts(c, e); StableSession(p.0)
  {
    hide S.Stable, E.Normalize, NormalWorkflow, ActiveExecution, ActiveWorkflow;
    S.NormalizeTwiceStable(c.session, e.now, e.aliasWins, e.now, e.aliasWins);
  }

  lemma ExecutionPartStable(c: Context, e: Env)
    ensures var p := ActiveParts(c, e); StableExecution(p.2)
  {
    hide E.Stable, S.Normalize, NormalWorkflow, ActiveWorkflow, Trim;
    E.NormalizeTwiceStable(c.execution, e.now, e.now);
  }

  lemma WorkflowPartActive(c: Context, e: Env)
    requires Settles(e.atomic)
    ensures var p := ActiveParts(c, e); p.1.Some? ==> p.1.value == GetWorkflow(c, e) && p.1.value.tasks != []
  {
    hide S.Normalize, E.Normalize;
    NormalWorkflowStable(c.workflow, e.now, e.atomic);
    StableWorkflowFixed(GetWorkflow(c, e), e.now, e.atomic);
  }

  lemma PartsOfDraft(c: Context, e: Env, words: Wording)
    ensures var d, p := Draft(c, e, words), ActiveParts(c, e);
            && (d.session, d.workflow, d.execution) == p
            && (d.kind.NoKind? <==> !Busy(c, e)) && (d.kind.NoKind? ==> p == (None, None, None))
            && d.kind == KindOf(p.0, p.1, p.2) && d.resumeOnSuccess == IsParent(p.0)
            && d.history == Last(c.history, H.MAX_TURNS) && d.suspendedAt.Unset?
  {
    hide S.Normalize, E.Normalize, NormalWorkflow, ActiveSession, ActiveWorkflow, ActiveExecution;
  }

  lemma KeptParts(t: Task, e: Env)
    requires StableSession(t.session) && StableKeptWorkflow(t.workflow, e.atomic) && StableExecution(t.execution)
    ensures KeptSession(t.session, e) == t.session && KeptWorkflow(t.workflow, e) == t.workflow
    ensures KeptExecution(t.execution, e) == t.execution
  {
    hide Trim, S.Normalize, S.Stable, E.Normalize, E.Stable, NormalWorkflow, StableWorkflow;
    if t.session.Some? { S.StableIsFixed(t.session.value, e.now, e.aliasWins); }
    if t.workflow.Some? { StableWorkflowFixed(t.workflow.value, e.now, e.atomic); }
    if t.execution.Some? { E.StableIsFixed(t.execution.value, e.now); }
  }

  lemma NormalKeeps(t: Task, e: Env, index: nat)
    requires StableSession(t.session) && StableKeptWorkflow(t.workflow, e.atomic) && StableExecution(t.execution)
    requires !t.kind.NoKind?
    ensures var n := Normal(t, e, index);
            && n.kind == t.kind && (n.session, n.workflow, n.execution) == (t.session, t.workflow, t.execution)
            && n.resumeOnSuccess == t.resumeOnSuccess && n.history == t.history
            && n.suspendedAt == Fill(t.suspendedAt, e.now)
  {
    hide Trim, KeptSession, KeptWorkflow, KeptExecution;
    KeptParts(t, e);
  }

  /** The snapshot is stable as soon as it is built, and holds exactly the active parts. */
  lemma BuiltIsStable(c: Context, e: Env, words: Wording)
    requires GoodEnv(e)
    ensures var t := Built(c, e, words);
            && (t.kind.NoKind? <==> !Busy(c, e))
            && (Busy(c, e) ==>
                  && Stable(t, e.atomic) && (t.session, t.workflow, t.execution) == ActiveParts(c, e)
                  && t.kind == KindOf(t.session, t.workflow, t.execution) && t.resumeOnSuccess == IsParent(t.session)
                  && t.history == Last(c.history, H.MAX_TURNS) && t.suspendedAt == At(e.now))
  {
    hide Trim, KeptSession, KeptWorkflow, KeptExecution, StableSession, StableKeptWorkflow, StableExecution, Draft,
         Busy, ActiveParts, KindOf, IsParent;
    var d := Draft(c, e, words);
    PartsOfDraft(c, e, words);
    PartsStable(c, e);
    NothingKept(e);
    if Busy(c, e) {
      NormalKeeps(d, e, 0);
      BuiltTexts(d, e);
    }
  }

  lemma BuiltTexts(d: Task, e: Env)
    requires GoodEnv(e)
    ensures var n := Normal(d, e, 0);
            n == NO_TASK || (Trimmed(n.snapshotId) && Trimmed(n.intentId) && Trimmed(n.parentIntentId) &&
                             Trimmed(n.hint)
                            && n.snapshotId != "" && n.intentId != "" && CleanList(n.triggers, {}) && n.suspendedAt.At?)
  {
    hide Trim, KeptSession, KeptWorkflow, KeptExecution, CleanList;
    assert e.snapshot(0) != "" && Trimmed(e.snapshot(0)) && e.intent(0) != "" && Trimmed(e.intent(0));
  }

  /** When nothing is active, suspending changes nothing; otherwise the contexts are cleared and one task is pushed. */
  lemma SuspendEffect(c: Context, e: Env, words: Wording)
    requires GoodEnv(e) && StableStack(c.stack, e.atomic) && |c.stack| <= MAX_TASKS
    ensures Suspended(c, e, words).1 <==> Busy(c, e)
    ensures !Busy(c, e) ==> Suspended(c, e, words).0 == c
    ensures Busy(c, e) ==>
              var t := Built(c, e, words);
              Suspended(c, e, words).0 == Cleared(c).(stack := Last(Live(c.stack, e.now) + [t], MAX_TASKS))
  {
    hide Built, Busy, Pushed, Stable, Normal, Live, Canonical;
    BuiltIsStable(c, e, words);
    var t := Built(c, e, words);
    if Busy(c, e) {
      PushedStable(c.stack, t, e);
      CanonicalOfStable(t, e);
      LiveOne(t, e.now);
      JustSuspended(t, e);
    }
  }

  lemma CanonicalOfStable(t: Task, e: Env)
    requires Stable(t, e.atomic)
    ensures Canonical(t, e, 0) == t && t != NO_TASK
  {
    hide Normal;
    StableIsFixed(t, e, 0);
  }

  lemma JustSuspended(t: Task, e: Env)
    requires t.suspendedAt == At(e.now)
    ensures !Expired(t, e.now)
  {}

  // ---- what restoring does -----------------------------------------------

  /** What comes back of an execution state: one that names another user is stored under that user instead. */
  function Own(x: Option<E.ExecutionState>, user: int): E.ExecutionState {
    if x.Some? && x.value.userId == user then x.value else E.NO_STATE
  }

  /** Restoring a stable task replaces all three live contexts by its parts, and the history if it kept one. */
  lemma RestoreEffect(c: Context, t: Task, e: Env)
    requires Stable(t, e.atomic)
    ensures Restored(c, t, e) ==
            (c.(session := t.session.GetOr(S.NO_SESSION),
                workflow := if t.workflow.None? then NO_WORKFLOW
                            else t.workflow.value.(userId := c.user, updatedAt := At(e.now)),
                execution := Own(t.execution, c.user),
                history := if t.history == [] then c.history else Last(t.history, c.maxTurns)), true)
  {
    hide Normal, S.Normalize, S.Stable, E.Normalize, E.Stable, NormalWorkflow, StableWorkflow, Trim;
    StableIsFixed(t, e, 0);
    if t.session.Some? { S.StableIsFixed(t.session.value, e.now, e.aliasWins); }
    if t.workflow.Some? { StableWorkflowFixed(t.workflow.value, e.now, e.atomic); }
    if t.execution.Some? {
      E.StableIsFixed(t.execution.value, e.now);
      TrimNothing();
    }
  }

  lemma TrimNothing()
    ensures Trim("") == ""
  {}

  // ---- the round trip -----------------------------------------------------

  /** The context in which everything that was active is back, in normal form; an execution state only to its user. */
  function Back(c: Context, p: (Option<S.Session>, Option<Workflow>, Option<E.ExecutionState>), stack: seq<Task>,
                now: int): Context {
    c.(session := p.0.GetOr(S.NO_SESSION),
       workflow := if p.1.None? then NO_WORKFLOW else p.1.value.(userId := c.user, updatedAt := At(now)),
       execution := Own(p.2, c.user),
       history := if c.history == [] then [] else Last(Last(c.history, H.MAX_TURNS), c.maxTurns),
       stack := stack)
  }

  lemma ClearedIsIdle(c: Context, e: Env)
    ensures !Busy(Cleared(c), e)
  {}

  lemma IdleByContexts(c: Context, d: Context, e: Env)
    requires (c.session, c.workflow, c.execution) == (d.session, d.workflow, d.execution)
    ensures Busy(c, e) == Busy(d, e)
  {
    hide S.Normalize, E.Normalize, NormalWorkflow;
  }

  /**
   * Suspending and then resuming brings back exactly what was active, in normal form; what was stored but not active
   * is gone, and so is an execution state that names another user. The stack is left as it was but for the oldest of
   * five entries and those that expired.
   */
  lemma SuspendThenResume(c: Context, e1: Env, words: Wording, e2: Env)
    requires GoodEnv(e1) && GoodEnv(e2) && e1.atomic == e2.atomic && e1.now <= e2.now <= e1.now + LIFETIME
    requires StableStack(c.stack, e1.atomic) && |c.stack| <= MAX_TASKS && Busy(c, e1)
    ensures var suspended := Suspended(c, e1, words).0;
            Resumed(suspended, ResumeFlow, e2) ==
            (Back(c, ActiveParts(c, e1), Live(Last(Live(c.stack, e1.now), MAX_TASKS - 1), e2.now), e2.now), true)
  {
    hide Built, Busy, Suspended, Restored, Popped, Pushed, Stable, Live, Expired, ActiveParts, GoodEnv;
    var t, c1, kept := Built(c, e1, words), Suspended(c, e1, words).0, Last(Live(c.stack, e1.now), MAX_TASKS - 1);
    BuiltIsStable(c, e1, words);
    SuspendEffect(c, e1, words);
    KeptUnderTop(Live(c.stack, e1.now), t);
    assert c1.stack == kept + [t];
    ClearedIsIdle(c, e2);
    IdleByContexts(c1, Cleared(c), e2);
    StableLive(c.stack, e1.now, e1.atomic);
    PoppedStable(c1.stack, e2);
    LiveAppend(kept, [t], e2.now);
    LiveOne(t, e2.now);
    NotYetExpired(t, e1.now, e2.now);
    var rest := c1.(stack := Live(kept, e2.now));
    assert Popped(c1.stack, e2) == (rest.stack, Some(t));
    assert Resumed(c1, ResumeFlow, e2) == Restored(rest, t, e2);
    RestoreEffect(rest, t, e2);
  }

  lemma KeptUnderTop<T>(live: seq<T>, t: T)
    ensures Last(live + [t], MAX_TASKS) == Last(live, MAX_TASKS - 1) + [t]
  {}

  lemma NotYetExpired(t: Task, t1: int, t2: int)
    requires t.suspendedAt == At(t1) && t2 <= t1 + LIFETIME
    ensures !Expired(t, t2)
  {}

  lemma StableLive(stack: seq<Task>, now: int, atomic: Atomic)
    requires StableStack(stack, atomic)
    ensures StableStack(Live(stack, now), atomic)
  {
    hide Stable, Expired;
    var live := Live(stack, now);
    forall i | 0 <= i < |live| ensures Stable(live[i], atomic) {
      var k :| 0 <= k < |stack| && stack[k] == live[i];
    }
  }

  /** The stack is exactly what it was when it had room for one more and nothing on it has expired since. */
  lemma StackSurvivesIff(stack: seq<Task>, t1: int, t2: int)
    requires t1 <= t2 && |stack| <= MAX_TASKS
    ensures Live(Last(Live(stack, t1), MAX_TASKS - 1), t2) == stack <==>
            |stack| < MAX_TASKS && forall i :: 0 <= i < |stack| ==> !Expired(stack[i], t2)
  {
    hide Live;
    var r := Live(Last(Live(stack, t1), MAX_TASKS - 1), t2);
    if r == stack {
      forall i | 0 <= i < |stack| ensures !Expired(stack[i], t2) {
        assert stack[i] == r[i];
      }
    }
    if |stack| < MAX_TASKS && forall i :: 0 <= i < |stack| ==> !Expired(stack[i], t2) {
      LiveFixed(stack, t1);
      LiveFixed(stack, t2);
    }
  }

  /** Contexts as they lie in the store: saved in stable form, and active or not there. */
  ghost predicate Settled(c: Context, e: Env) {
    && S.Stable(c.session) && StableWorkflow(c.workflow, e.atomic) && E.Stable(c.execution)
    && (c.workflow == NO_WORKFLOW || ActiveWorkflow(c.workflow))
    && c.workflow.userId == (if c.workflow == NO_WORKFLOW then 0 else c.user)
    && (c.execution == E.NO_STATE || (ActiveExecution(c.execution) && c.execution.userId == c.user))
  }

  lemma SettledParts(c: Context, e: Env)
    requires Settled(c, e)
    ensures var p := ActiveParts(c, e);
            && p.0.GetOr(S.NO_SESSION) == c.session && p.1.GetOr(NO_WORKFLOW) == c.workflow
            && p.2.GetOr(E.NO_STATE) == c.execution
            && (p.2.Some? ==> p.2.value.userId == c.user)
  {
    hide S.Normalize, E.Normalize, NormalWorkflow, StableWorkflow;
    S.StableIsFixed(c.session, e.now, e.aliasWins);
    StableWorkflowFixed(c.workflow, e.now, e.atomic);
    E.StableIsFixed(c.execution, e.now);
  }

  /**
   * For stored contexts the round trip is exact: session, execution state and history are what they were, the
   * workflow too but for its time stamp, and the stack if it had room and nothing expired.
   */
  lemma RoundTripIsExact(c: Context, e1: Env, words: Wording, e2: Env)
    requires GoodEnv(e1) && GoodEnv(e2) && e1.atomic == e2.atomic && e1.now <= e2.now <= e1.now + LIFETIME
    requires StableStack(c.stack, e1.atomic) && |c.stack| <= MAX_TASKS && Busy(c, e1) && Settled(c, e1)
    requires |c.history| <= H.MAX_TURNS <= c.maxTurns
    ensures var (r, ok) := Resumed(Suspended(c, e1, words).0, ResumeFlow, e2);
            && ok && r.session == c.session && r.execution == c.execution && r.history == c.history
            && r.workflow == (if c.workflow == NO_WORKFLOW then NO_WORKFLOW else c.workflow.(updatedAt := At(e2.now)))
            && (r.stack == c.stack <==>
                  |c.stack| < MAX_TASKS && forall i :: 0 <= i < |c.stack| ==> !Expired(c.stack[i], e2.now))
  {
    hide Busy, Suspended, Resumed, Stable, Live, Expired, ActiveParts, GoodEnv, StableWorkflow, E.Stable, S.Stable;
    SettledParts(c, e1);
    SuspendThenResume(c, e1, words, e2);
    StackSurvivesIff(c.stack, e1.now, e2.now);
    WorkflowPart(c, e1);
  }

  lemma WorkflowPart(c: Context, e: Env)
    ensures ActiveParts(c, e).1.Some? ==> ActiveWorkflow(GetWorkflow(c, e))
    ensures Settled(c, e) && ActiveParts(c, e).1.Some? ==> c.workflow != NO_WORKFLOW
  {
    hide S.Normalize, E.Normalize, S.Stable, E.Stable;
  }

  // ---- moving one entry ---------------------------------------------------

  /** With one reading of the clock the topmost wanted entry is moved: it comes back and the others stay, in order. */
  lemma MoveEffect(c: Context, wanted: Task -> bool, e: Env)
    requires StableStack(c.stack, e.atomic) && |c.stack| <= MAX_TASKS
    ensures var live := Live(c.stack, e.now);
            match Topmost(live, wanted)
            case None => Moved(c, wanted, e, e) == (c, false)
            case Some(i) => Moved(c, wanted, e, e) == Restored(c.(stack := Without(live, i)), live[i], e)
  {
    hide Restored, Removed, Stable, Live, NormalStack;
    NormalStackStable(c.stack, e);
    var live := Live(c.stack, e.now);
    var top := Topmost(live, wanted);
    if top.Some? { RemovedStable(c.stack, top.value, e); }
  }

  /** Nothing on the stack is lost or doubled by a move. */
  lemma MoveConserves(c: Context, wanted: Task -> bool, e: Env)
    requires StableStack(c.stack, e.atomic) && |c.stack| <= MAX_TASKS
    ensures var live := Live(c.stack, e.now);
            match Topmost(live, wanted)
            case None => true
            case Some(i) => multiset(Moved(c, wanted, e, e).0.stack) + multiset{live[i]} == multiset(live)
  {
    hide Restored, Stable, Live, Moved;
    MoveEffect(c, wanted, e);
    var live := Live(c.stack, e.now);
    var top := Topmost(live, wanted);
    if top.Some? {
      RestoredStack(c.(stack := Without(live, top.value)), live[top.value], e);
      WithoutConserves(live, top.value);
    }
  }

  lemma RestoredStack(c: Context, t: Task, e: Env)
    ensures Restored(c, t, e).0.stack == c.stack
  {
    hide Normal, S.Normalize, E.Normalize, NormalWorkflow;
  }

  lemma WithoutConserves<T>(a: seq<T>, i: nat)
    requires i < |a|
    ensures multiset(Without(a, i)) + multiset{a[i]} == multiset(a)
  {
    assert a == a[..i] + [a[i]] + a[i + 1..];
  }

  lemma StackPlus(live: seq<Task>, t: Task, e: Env)
    requires StableStack(live, e.atomic) && Stable(t, e.atomic) && !Expired(t, e.now)
    requires forall i :: 0 <= i < |live| ==> !Expired(live[i], e.now)
    ensures var all := Last(live, MAX_TASKS - 1) + [t];
            StableStack(all, e.atomic) && |all| <= MAX_TASKS && Live(all, e.now) == all
  {
    hide Stable, Expired, Live;
    LiveFixed(Last(live, MAX_TASKS - 1) + [t], e.now);
  }

  lemma SuspendedStack(c: Context, words: Wording, e: Env)
    requires GoodEnv(e) && StableStack(c.stack, e.atomic) && |c.stack| <= MAX_TASKS && Busy(c, e)
    ensures var all := Last(Live(c.stack, e.now), MAX_TASKS - 1) + [Built(c, e, words)];
            && Suspended(c, e, words).0.stack == all && Live(all, e.now) == all
            && StableStack(all, e.atomic) && |all| <= MAX_TASKS
  {
    hide Built, Busy, Suspended, Stable, StableStack, Live, Expired, GoodEnv, Last, ActiveParts, Cleared;
    var t := Built(c, e, words);
    BuiltIsStable(c, e, words);
    SuspendEffect(c, e, words);
    KeptUnderTop(Live(c.stack, e.now), t);
    StableLive(c.stack, e.now, e.atomic);
    NotYetExpired(t, e.now, e.now);
    StackPlus(Live(c.stack, e.now), t, e);
  }

  /**
   * Switching: what was active is suspended and the wanted entry comes back. The suspended task and the stacked
   * ones are conserved, but for the oldest entry when there were five.
   */
  lemma SwitchConserves(c: Context, words: Wording, wanted: Task -> bool, e: Env)
    requires GoodEnv(e) && StableStack(c.stack, e.atomic) && |c.stack| <= MAX_TASKS && Busy(c, e)
    ensures var t, c1 := Built(c, e, words), Suspended(c, e, words).0;
            var all := Last(Live(c.stack, e.now), MAX_TASKS - 1) + [t];
            match Topmost(all, wanted)
            case None => Moved(c1, wanted, e, e) == (c1, false) && c1.stack == all
            case Some(i) =>
              && multiset(Moved(c1, wanted, e, e).0.stack) + multiset{all[i]} == multiset(all)
              && Moved(c1, wanted, e, e) == Restored(c1.(stack := Without(all, i)), all[i], e)
  {
    hide Built, Busy, Suspended, Restored, Moved, StableStack, Live, GoodEnv, Topmost, Without, Last;
    SuspendedStack(c, words, e);
    var c1 := Suspended(c, e, words).0;
    MoveFrom(c1, c1.stack, wanted, e);
  }

  lemma MoveFrom(c: Context, all: seq<Task>, wanted: Task -> bool, e: Env)
    requires c.stack == all && Live(all, e.now) == all && StableStack(all, e.atomic) && |all| <= MAX_TASKS
    ensures match Topmost(all, wanted)
            case None => Moved(c, wanted, e, e) == (c, false)
            case Some(i) =>
              && multiset(Moved(c, wanted, e, e).0.stack) + multiset{all[i]} == multiset(all)
              && Moved(c, wanted, e, e) == Restored(c.(stack := Without(all, i)), all[i], e)
  {
    hide Stable, Live, Moved, Restored, Without;
    MoveEffect(c, wanted, e);
    MoveConserves(c, wanted, e);
  }

  // ---- two readings of the clock -----------------------------------------

  ghost predicate DistinctIds(stack: seq<Task>) {
    forall i, j :: 0 <= i < j < |stack| ==> stack[i].snapshotId != stack[j].snapshotId
  }

  ghost predicate AllAlive(stack: seq<Task>, now: int) {
    forall i :: 0 <= i < |stack| ==> !Expired(stack[i], now)
  }

  lemma AllAliveSnoc(front: seq<Task>, last: Task, now: int)
    ensures AllAlive(front + [last], now) <==> AllAlive(front, now) && !Expired(last, now)
  {
    hide Expired;
    var all := front + [last];
    assert all[|front|] == last;
    forall i | 0 <= i < |front| ensures all[i] == front[i] {}
  }

  lemma {:induction false} LiveFull(stack: seq<Task>, now: int)
    ensures |Live(stack, now)| == |stack| <==> AllAlive(stack, now)
  {
    hide Expired, Live;
    if stack != [] {
      var n := |stack| - 1;
      var front, last := stack[..n], stack[n];
      assert stack == front + [last];
      LiveFull(front, now);
      LiveAppend(front, [last], now);
      LiveOne(last, now);
      AllAliveSnoc(front, last, now);
    }
  }

  lemma NotAbove(stack: seq<Task>, index: nat, now: int)
    requires index < |stack| && DistinctIds(stack)
    ensures stack[index] !in Live(stack[index + 1..], now)
  {
    hide Live, Expired;
    var above := Live(stack[index + 1..], now);
    forall i | 0 <= i < |above| ensures above[i] != stack[index] {
      var k :| 0 <= k < |stack[index + 1..]| && stack[index + 1..][k] == above[i];
      assert above[i] == stack[index + 1 + k];
    }
  }

  lemma LowAlive(stack: seq<Task>, index: nat, now: int)
    requires index < |stack|
    ensures var low := Live(stack[..index + 1], now);
            && (|low| == index + 1 <==> forall i :: 0 <= i <= index ==> !Expired(stack[i], now))
            && |low| <= index + 1 && (|low| == index + 1 ==> low[index] == stack[index])
  {
    hide Expired, Live;
    var low := stack[..index + 1];
    LiveFull(low, now);
    assert forall i :: 0 <= i <= index ==> low[i] == stack[i];
    if |Live(low, now)| == |low| { LiveFixed(low, now); }
  }

  /**
   * The stack is read twice. The entry that was found is the one removed exactly when neither it nor any
   * entry below it expires in between.
   */
  lemma RightEntryIff(stack: seq<Task>, index: nat, second: Env)
    requires StableStack(stack, second.atomic) && |stack| <= MAX_TASKS && index < |stack| && DistinctIds(stack)
    ensures Removed(stack, index, second).1 == Some(stack[index]) <==>
            forall i :: 0 <= i <= index ==> !Expired(stack[i], second.now)
  {
    hide Expired, StableStack, Removed, Live, DistinctIds;
    RemovedStable(stack, index, second);
    var low, high := stack[..index + 1], stack[index + 1..];
    LowAlive(stack, index, second.now);
    NotAbove(stack, index, second.now);
    assert stack == low + high;
    LiveAppend(low, high, second.now);
    AtIndex(Live(low, second.now), Live(high, second.now), index);
  }

  lemma AtIndex<T>(a: seq<T>, b: seq<T>, index: nat)
    ensures index < |a| ==> (a + b)[index] == a[index]
    ensures |a| <= index < |a + b| ==> (a + b)[index] in b
  {}

  /** So restoring by identifier removes the entry it found exactly under that condition. */
  lemma RestoreFindsItsEntryIff(c: Context, id: string, first: Env, second: Env)
    requires StableStack(c.stack, first.atomic) && |c.stack| <= MAX_TASKS && first.atomic == second.atomic
    requires first.now <= second.now && DistinctIds(Live(c.stack, first.now))
    requires Topmost(Live(c.stack, first.now), HasId(Trim(id))).Some?
    ensures var live := Live(c.stack, first.now);
            var i := Topmost(live, HasId(Trim(id))).value;
            && Topmost(NormalStack(c.stack, first), HasId(Trim(id))) == Some(i)
            && (Removed(c.stack, i, second).1 == Some(live[i]) <==>
                  forall k :: 0 <= k <= i ==> !Expired(live[k], second.now))
  {
    hide Expired, Stable, Removed, Live, NormalStack, Trim;
    NormalStackStable(c.stack, first);
    StableLive(c.stack, first.now, first.atomic);
    var live := Live(c.stack, first.now);
    var i := Topmost(live, HasId(Trim(id))).value;
    RightEntryIff(live, i, second);
    LiveLater(c.stack, first.now, second.now);
    RemovedStable(c.stack, i, second);
    RemovedStable(live, i, second);
  }

  // ---- the snapshot that is copied ---------------------------------------

  /**
   * Restoring a waiting snapshot leaves it on the stack: once the session is over, the same reply brings it back
   * again.
   */
  lemma CopyCanRepeat(c: Context, e: Env, later: Env)
    requires StableStack(c.stack, e.atomic) && |c.stack| <= MAX_TASKS && e.atomic == later.atomic && e.now <= later.now
    requires RestoredByCopy(c, true, e).1 && (forall i :: 0 <= i < |c.stack| ==> !Expired(c.stack[i], later.now))
    ensures var once := RestoredByCopy(c, true, e).0;
            var twice := RestoredByCopy(Cleared(once), true, later);
            && once.stack == c.stack && twice.1 && twice.0.session == once.session && Awaiting(once.session.phase)
  {
    hide Normal, Stable, Live, Expired, NormalStack, Restored, S.Normalize;
    EarlierAlive(c.stack, e.now, later.now);
    NormalStackFixed(c.stack, e);
    NormalStackFixed(c.stack, later);
    var t := c.stack[0];
    assert Stable(t, e.atomic);
    var once := RestoredByCopy(c, true, e).0;
    RestoredSession(c, t, e);
    RestoredSession(Cleared(once), t, later);
  }

  lemma EarlierAlive(stack: seq<Task>, t1: int, t2: int)
    requires t1 <= t2 && forall i :: 0 <= i < |stack| ==> !Expired(stack[i], t2)
    ensures forall i :: 0 <= i < |stack| ==> !Expired(stack[i], t1)
  {}

  lemma RestoredSession(c: Context, t: Task, e: Env)
    requires Stable(t, e.atomic) && t.session.Some?
    ensures Restored(c, t, e).1 && Restored(c, t, e).0.session == t.session.value &&
            Restored(c, t, e).0.stack == c.stack
  {
    hide Normal, S.Normalize, S.Stable, E.Normalize, E.Stable, NormalWorkflow, StableWorkflow;
    StableIsFixed(t, e, 0);
    StableKind(t, e.atomic);
    S.StableIsFixed(t.session.value, e.now, e.aliasWins);
  }

  lemma StableKind(t: Task, atomic: Atomic)
    requires Stable(t, atomic)
    ensures !t.kind.NoKind? && StableSession(t.session)
  {}

  // ---- the source's form --------------------------------------------------

  /** The stored contexts of one user, the stack of suspended tasks and the chat history, all changed in place. */
  class Store {
    const user: int
    const chat: H.ChatHistory
    const tasks: TaskStore
    var session: S.Session
    var workflow: Workflow
    var execution: E.ExecutionState

    constructor (user: int, chat: H.ChatHistory, tasks: TaskStore)
      ensures this.user == user && this.chat == chat && this.tasks == tasks
      ensures session == S.NO_SESSION && workflow == NO_WORKFLOW && execution == E.NO_STATE
    {
      this.user, this.chat, this.tasks := user, chat, tasks;
      session, workflow, execution := S.NO_SESSION, NO_WORKFLOW, E.NO_STATE;
    }

    ghost function View(): Context
      reads this, chat, tasks
    {
      Context(user, session, workflow, execution, tasks.stored, H.Of(chat.sessions, H.User(user)), chat.maxTurns)
    }

    method ClearContexts()
      modifies this
      ensures View() == Cleared(old(View()))
    {
      session := S.NO_SESSION;
      workflow := NO_WORKFLOW;
      execution := E.NO_STATE;
    }

    method AddSession(draft: Task, e: Env, words: Wording) returns (more: Task)
      requires !draft.resumeOnSuccess && draft.triggers == []
      ensures more == DraftSession(draft, GetSession(View(), e), e, words)
    {
      hide S.Normalize;
      more := draft;
      var s := S.Normalize(session, e.now, e.aliasWins);
      if s.skill.NoSkill? { return; }
      var copied := S.Normalize(s, e.now, e.aliasWins);
      more := more.(kind := SkillKind, session := Some(copied), hint := words.session(copied));
      if copied.skill.Trader? && copied.action == CREATE {
        more := more.(resumeOnSuccess := true, triggers := PARENTS);
      }
    }

    method AddWorkflow(draft: Task, e: Env, words: Wording) returns (more: Task)
      ensures more == DraftWorkflow(draft, GetWorkflow(View(), e), e, words)
    {
      hide NormalWorkflow;
      more := draft;
      var w := NormalWorkflow(workflow, e.now, e.atomic);
      if !ActiveWorkflow(w) { return; }
      var copied := NormalWorkflow(w, e.now, e.atomic);
      more := more.(kind := WorkflowKind, workflow := Some(copied));
      if more.hint == "" { more := more.(hint := words.workflow(copied)); }
    }

    method AddExecution(draft: Task, e: Env, words: Wording) returns (more: Task)
      ensures more == DraftExecution(draft, GetExecution(View(), e), e, words)
    {
      hide E.Normalize;
      more := draft;
      var x := E.Normalize(execution, e.now);
      if !ActiveExecution(x) { return; }
      var copied := E.Normalize(x, e.now);
      if more.kind.NoKind? { more := more.(kind := ExecutionKind); }
      more := more.(execution := Some(copied));
      if more.hint == "" { more := more.(hint := words.execution(copied)); }
    }

    method BuildSuspendedTask(e: Env, words: Wording) returns (task: Task)
      ensures task == Built(View(), e, words)
    {
      hide Normal, DraftSession, DraftWorkflow, DraftExecution, GetSession, GetWorkflow, GetExecution;
      var draft := AddSession(NO_TASK, e, words);
      draft := AddWorkflow(draft, e, words);
      draft := AddExecution(draft, e, words);
      var msgs := chat.Get(H.User(user));
      if |msgs| > H.MAX_TURNS { msgs := msgs[|msgs| - H.MAX_TURNS..]; }
      draft := draft.(history := msgs);
      task := Normal(draft, e, 0);
    }

    method SuspendActiveContexts(e: Env, words: Wording) returns (ok: bool)
      modifies this, tasks
      ensures (View(), ok) == Suspended(old(View()), e, words)
    {
      hide Built, Pushed;
      var task := BuildSuspendedTask(e, words);
      if task.kind.NoKind? { return false; }
      tasks.Push(task, e);
      ClearContexts();
      return true;
    }

    method SaveExecution(x: E.ExecutionState, e: Env)
      modifies this
      ensures View() == WithExecution(old(View()), x, e)
    {
      hide E.Normalize;
      var n := E.Normalize(x, e.now);
      if n.userId == user {
        execution := if n.sessionId == "" then E.NO_STATE else n;
      }
    }

    method SaveWorkflow(w: Workflow, e: Env)
      modifies this
      ensures View() == old(View()).(workflow := SavedWorkflow(w, user, e))
    {
      hide NormalWorkflow;
      var n := NormalWorkflow(w, e.now, e.atomic);
      workflow := if |n.tasks| == 0 then NO_WORKFLOW else n.(userId := user, updatedAt := At(e.now));
    }

    method RestoreSuspendedTask(task: Task, e: Env) returns (ok: bool)
      modifies this, chat
      ensures (View(), ok) == Restored(old(View()), task, e)
    {
      hide Normal, WithExecution, SavedWorkflow, SavedSession;
      var t := Normal(task, e, 0);
      if t.kind.NoKind? { return false; }
      ClearContexts();
      if |t.history| > 0 { chat.Replace(H.User(user), t.history); }
      if t.execution.Some? { SaveExecution(t.execution.value, e); }
      if t.workflow.Some? { SaveWorkflow(t.workflow.value, e); }
      if t.session.Some? { session := SavedSession(t.session.value, e); }
      return true;
    }

    method IsBusy(e: Env) returns (busy: bool)
      ensures busy == Busy(View(), e)
    {
      busy := ActiveSession(S.Normalize(session, e.now, e.aliasWins)) ||
              ActiveWorkflow(NormalWorkflow(workflow, e.now, e.atomic)) ||
                  ActiveExecution(E.Normalize(execution, e.now));
    }

    method TryResumeSuspendedTask(reply: Reply, e: Env) returns (ok: bool)
      modifies this, chat, tasks
      ensures (View(), ok) == Resumed(old(View()), reply, e)
    {
      hide Busy, Popped, Restored;
      var busy := IsBusy(e);
      if reply.CancelParents? && !busy {
        tasks.Clear();
        return true;
      }
      if !reply.ResumeFlow? || busy { return false; }
      var task := tasks.Pop(e);
      PopNothing(old(tasks.stored), e);
      if task.None? { return false; }
      ok := RestoreSuspendedTask(task.value, e);
    }

    /** The search from the top of the stack, then the removal, which reads the stack again. */
    method RestoreTopmost(wanted: Task -> bool, first: Env, second: Env) returns (ok: bool)
      modifies this, chat, tasks
      ensures (View(), ok) == Moved(old(View()), wanted, first, second)
    {
      hide NormalStack, Removed, Restored;
      var stack := tasks.Get(first);
      var i := |stack|;
      while i > 0 && !wanted(stack[i - 1])
        invariant 0 <= i <= |stack|
        invariant Topmost(stack, wanted) == Topmost(stack[..i], wanted)
      {
        assert stack[..i][..i - 1] == stack[..i - 1];
        i := i - 1;
      }
      assert stack[..|stack|] == stack;
      if i == 0 { return false; }
      var task := tasks.RemoveAt(i - 1, second);
      RemoveNothing(old(tasks.stored), i - 1, second);
      if task.None? { return false; }
      ok := RestoreSuspendedTask(task.value, second);
    }

    method RestoreById(id: string, first: Env, second: Env) returns (ok: bool)
      modifies this, chat, tasks
      ensures (View(), ok) == RestoredById(old(View()), id, first, second)
    {
      hide Moved, Trim;
      if Trim(id) == "" { return false; }
      ok := RestoreTopmost(HasId(Trim(id)), first, second);
    }

    method RestoreMatching(domain: string, first: Env, second: Env) returns (ok: bool)
      modifies this, chat, tasks
      ensures (View(), ok) == RestoredByDomain(old(View()), domain, first, second)
    {
      hide Moved;
      if domain == "" { return false; }
      ok := RestoreTopmost(InDomain(domain, first), first, second);
    }

    method TryRestoreAwaitingConfirmation(answers: bool, e: Env) returns (ok: bool)
      modifies this, chat
      ensures (View(), ok) == RestoredByCopy(old(View()), answers, e)
    {
      hide NormalStack, Restored;
      if !answers { return false; }
      var stack := tasks.Get(e);
      if |stack| != 1 { return false; }
      var task := stack[0];
      if !task.kind.SkillKind? || task.session.None? || !Awaiting(task.session.value.phase) { return false; }
      ok := RestoreSuspendedTask(task, e);
    }
  }

  lemma PopNothing(stored: seq<Task>, e: Env)
    ensures Popped(stored, e).1.None? ==> Popped(stored, e).0 == stored
  {}

  lemma RemoveNothing(stored: seq<Task>, index: int, e: Env)
    ensures Removed(stored, index, e).1.None? ==> Removed(stored, index, e).0 == stored
  {}
}
