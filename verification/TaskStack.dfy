/** The persisted stack of suspended tasks: entries expire, at most five are kept, and any index can be removed. */
module TaskStacks {
  import opened Text
  import opened SuspendedTasks

  const MAX_TASKS: nat := 5
  const LIFETIME: int := 86400

  predicate Expired(t: Task, now: int) {
    t.suspendedAt.At? && now - t.suspendedAt.seconds > LIFETIME
  }

  // ---- the stored stack ---------------------------------------------------

  /** What remains of one entry. */
  function Kept(t: Task, e: Env, index: nat): (r: seq<Task>)
    ensures |r| <= 1
  {
    var n := Normal(t, e, index);
    if n.kind.NoKind? || Expired(n, e.now) then [] else [n]
  }

  function AllKept(stack: seq<Task>, e: Env): (r: seq<Task>)
    ensures |r| <= |stack|
  {
    if stack == [] then []
    else AllKept(stack[..|stack| - 1], e) + Kept(stack[|stack| - 1], e, |stack| - 1)
  }

  /** `normalizeTaskStack`. */
  function NormalStack(stack: seq<Task>, e: Env): (r: seq<Task>)
    ensures |r| <= MAX_TASKS
  {
    Last(AllKept(stack, e), MAX_TASKS)
  }

  /** `pushTaskStack`: normalised when built, when appended and once more when saved. */
  function Pushed(stored: seq<Task>, t: Task, e: Env): seq<Task> {
    var n := Normal(t, e, 0);
    if n.kind.NoKind? then stored
    else NormalStack(NormalStack(NormalStack(stored, e) + [n], e), e)
  }

  /** `popTaskStack`. */
  function Popped(stored: seq<Task>, e: Env): (seq<Task>, Option<Task>) {
    var stack := NormalStack(stored, e);
    if stack == [] then (stored, None)
    else (NormalStack(stack[..|stack| - 1], e), Some(stack[|stack| - 1]))
  }

  function Without<T>(s: seq<T>, index: nat): (r: seq<T>)
    requires index < |s|
    ensures |r| == |s| - 1
  {
    s[..index] + s[index + 1..]
  }

  /** `RemoveAt`. */
  function Removed(stored: seq<Task>, index: int, e: Env): (seq<Task>, Option<Task>) {
    var stack := NormalStack(stored, e);
    if index < 0 || index >= |stack| then (stored, None)
    else (NormalStack(Without(stack, index), e), Some(stack[index]))
  }

  // ---- stable stacks ------------------------------------------------------

  ghost predicate StableStack(stack: seq<Task>, atomic: Atomic) {
    forall i :: 0 <= i < |stack| ==> Stable(stack[i], atomic)
  }

  /** The entries that have not expired. */
  function Live(stack: seq<Task>, now: int): (r: seq<Task>)
    ensures |r| <= |stack|
    ensures forall i :: 0 <= i < |r| ==> r[i] in stack && !Expired(r[i], now)
  {
    if stack == [] then []
    else
      var t := stack[|stack| - 1];
      Live(stack[..|stack| - 1], now) + if Expired(t, now) then [] else [t]
  }

  lemma {:induction false} LiveAppend(a: seq<Task>, b: seq<Task>, now: int)
    ensures Live(a + b, now) == Live(a, now) + Live(b, now)
  {
    hide Expired;
    if b == [] {
      assert a + b == a;
    } else {
      var n := |b| - 1;
      assert (a + b)[..|a + b| - 1] == a + b[..n] && (a + b)[|a + b| - 1] == b[n];
      LiveAppend(a, b[..n], now);
    }
  }

  lemma {:induction false} LiveFixed(stack: seq<Task>, now: int)
    requires forall i :: 0 <= i < |stack| ==> !Expired(stack[i], now)
    ensures Live(stack, now) == stack
  {
    hide Expired;
    if stack != [] {
      var n := |stack| - 1;
      LiveFixed(stack[..n], now);
      assert stack == stack[..n] + [stack[n]];
    }
  }

  /** Expiring in two stages at growing times is expiring at the later one. */
  lemma {:induction false} LiveLater(stack: seq<Task>, t1: int, t2: int)
    requires t1 <= t2
    ensures Live(Live(stack, t1), t2) == Live(stack, t2)
  {
    if stack != [] {
      var n := |stack| - 1;
      LiveLater(stack[..n], t1, t2);
      LiveAppend(Live(stack[..n], t1), if Expired(stack[n], t1) then [] else [stack[n]], t2);
      assert [stack[n]][..0] == [];
    }
  }

  lemma {:induction false} AllKeptStable(stack: seq<Task>, e: Env)
    requires StableStack(stack, e.atomic)
    ensures AllKept(stack, e) == Live(stack, e.now)
  {
    hide Normal, Stable, Expired;
    if stack != [] {
      var n := |stack| - 1;
      AllKeptStable(stack[..n], e);
      assert Stable(stack[n], e.atomic);
      StableIsFixed(stack[n], e, n);
      StableHasKind(stack[n], e.atomic);
    }
  }

  lemma StableHasKind(t: Task, atomic: Atomic)
    requires Stable(t, atomic)
    ensures !t.kind.NoKind?
  {}

  /** On stable entries normalising is expiring and capping; below the cap, saving again changes nothing. */
  lemma NormalStackStable(stack: seq<Task>, e: Env)
    requires StableStack(stack, e.atomic)
    ensures NormalStack(stack, e) == Last(Live(stack, e.now), MAX_TASKS)
    ensures StableStack(NormalStack(stack, e), e.atomic)
    ensures forall i :: 0 <= i < |NormalStack(stack, e)| ==> !Expired(NormalStack(stack, e)[i], e.now)
  {
    hide Stable, Expired, AllKept, Live;
    AllKeptStable(stack, e);
    var live := Live(stack, e.now);
    forall i | 0 <= i < |live| ensures Stable(live[i], e.atomic) {
      var k :| 0 <= k < |stack| && stack[k] == live[i];
    }
  }

  lemma NormalStackFixed(stack: seq<Task>, e: Env)
    requires StableStack(stack, e.atomic) && |stack| <= MAX_TASKS
    requires forall i :: 0 <= i < |stack| ==> !Expired(stack[i], e.now)
    ensures NormalStack(stack, e) == stack
  {
    hide Stable, Expired, NormalStack, Live;
    NormalStackStable(stack, e);
    LiveFixed(stack, e.now);
  }

  // ---- one operation on a stable stack -----------------------------------

  /** The form in which a pushed task is stored. */
  function Canonical(t: Task, e: Env, slot: nat): Task {
    Normal(Normal(t, e, 0), e, slot)
  }

  lemma CanonicalSlot(t: Task, e: Env, i: nat, j: nat)
    requires GoodEnv(e)
    ensures Canonical(t, e, i) == Canonical(t, e, j)
    ensures Normal(t, e, 0).kind.NoKind? <==> Canonical(t, e, i) == NO_TASK
    ensures Canonical(t, e, i) == NO_TASK || Stable(Canonical(t, e, i), e.atomic)
  {
    hide Stable, Normal, GoodEnv;
    NormalNamed(t, e);
    NormalTwiceStable(t, e, 0, e, i);
    KindSurvives(t, e, i);
    SecondPass(Normal(t, e, 0), e, i, j);
  }

  lemma NormalNamed(t: Task, e: Env)
    requires GoodEnv(e)
    ensures var n := Normal(t, e, 0); n == NO_TASK || (Trim(n.snapshotId) != "" && Trim(n.intentId) != "")
  {
    hide Trim, KeptSession, KeptExecution, KeptWorkflow;
    assert e.snapshot(0) != "" && Trimmed(e.snapshot(0)) && e.intent(0) != "" && Trimmed(e.intent(0));
  }

  lemma SecondPass(n: Task, e: Env, i: nat, j: nat)
    requires n == NO_TASK || (Trim(n.snapshotId) != "" && Trim(n.intentId) != "")
    ensures Normal(n, e, i) == Normal(n, e, j)
  {
    hide Trim, KeptSession, KeptExecution, KeptWorkflow;
    NothingKept(e);
  }

  lemma KindSurvives(t: Task, e: Env, i: nat)
    ensures Normal(t, e, 0).kind.NoKind? <==> Canonical(t, e, i) == NO_TASK
  {
    hide Trim, KeptSession, KeptExecution, KeptWorkflow;
    NothingKept(e);
  }

  /** A push appends the stored form of what is pushed, unless that has expired already, and keeps the last five. */
  lemma PushedStable(stored: seq<Task>, t: Task, e: Env)
    requires GoodEnv(e) && StableStack(stored, e.atomic) && |stored| <= MAX_TASKS
    ensures StableStack(Pushed(stored, t, e), e.atomic) && |Pushed(stored, t, e)| <= MAX_TASKS
    ensures var c := Canonical(t, e, 0);
            Pushed(stored, t, e) ==
            if c == NO_TASK then stored
            else Last(Live(stored, e.now) + Live([c], e.now), MAX_TASKS)
  {
    hide Stable, Expired, Normal, NormalStack, GoodEnv, Canonical;
    var n, c, stack := Normal(t, e, 0), Canonical(t, e, 0), NormalStack(stored, e);
    CanonicalSlot(t, e, 0, |stack|);
    if !n.kind.NoKind? {
      NormalStackStable(stored, e);
      LiveFixed(stack, e.now);
      StableAfterPush(stack, t, e);
      var once := NormalStack(stack + [n], e);
      assert Last(stack, MAX_TASKS) == stack == Live(stored, e.now);
      NormalStackFixed(once, e);
    }
  }

  lemma AllKeptSnoc(stack: seq<Task>, n: Task, e: Env)
    ensures AllKept(stack + [n], e) == AllKept(stack, e) + Kept(n, e, |stack|)
  {
    hide Kept;
    assert (stack + [n])[..|stack|] == stack;
  }

  lemma LiveOne(t: Task, now: int)
    ensures Live([t], now) == if Expired(t, now) then [] else [t]
  {
    hide Expired;
    assert [t][..0] == [];
  }

  lemma StableAfterPush(stack: seq<Task>, t: Task, e: Env)
    requires GoodEnv(e) && StableStack(stack, e.atomic) && Canonical(t, e, 0) != NO_TASK
    requires forall i :: 0 <= i < |stack| ==> !Expired(stack[i], e.now)
    ensures NormalStack(stack + [Normal(t, e, 0)], e) == Last(stack + Live([Canonical(t, e, 0)], e.now), MAX_TASKS)
    ensures StableStack(NormalStack(stack + [Normal(t, e, 0)], e), e.atomic)
    ensures var r := NormalStack(stack + [Normal(t, e, 0)], e); forall i :: 0 <= i < |r| ==> !Expired(r[i], e.now)
  {
    hide Stable, Expired, GoodEnv, Normal, AllKept, Live;
    var n, c, k := Normal(t, e, 0), Canonical(t, e, 0), |stack|;
    CanonicalSlot(t, e, k, 0);
    StableHasKind(c, e.atomic);
    AllKeptSnoc(stack, n, e);
    AllKeptStable(stack, e);
    LiveFixed(stack, e.now);
    LiveOne(c, e.now);
  }

  /** A pop gives the last entry that has not expired and keeps the others. */
  lemma PoppedStable(stored: seq<Task>, e: Env)
    requires StableStack(stored, e.atomic) && |stored| <= MAX_TASKS
    ensures StableStack(Popped(stored, e).0, e.atomic) && |Popped(stored, e).0| <= MAX_TASKS
    ensures var live := Live(stored, e.now);
            Popped(stored, e) ==
            if live == [] then (stored, None) else (live[..|live| - 1], Some(live[|live| - 1]))
  {
    hide Stable, Expired, NormalStack, Live;
    NormalStackStable(stored, e);
    var stack := NormalStack(stored, e);
    if stack != [] { NormalStackFixed(stack[..|stack| - 1], e); }
  }

  lemma RemovedStable(stored: seq<Task>, index: int, e: Env)
    requires StableStack(stored, e.atomic) && |stored| <= MAX_TASKS
    ensures StableStack(Removed(stored, index, e).0, e.atomic) && |Removed(stored, index, e).0| <= MAX_TASKS
    ensures var live := Live(stored, e.now);
            Removed(stored, index, e) ==
            if 0 <= index < |live| then (Without(live, index), Some(live[index])) else (stored, None)
  {
    hide Stable, Expired, NormalStack, Live;
    NormalStackStable(stored, e);
    var stack := NormalStack(stored, e);
    if 0 <= index < |stack| { NormalStackFixed(Without(stack, index), e); }
  }

  // ---- the ideal stack ----------------------------------------------------

  datatype Op = Push(task: Task, env: Env) | Pop(env: Env) | RemoveAt(index: int, env: Env) | Clear(env: Env)

  function Step(stored: seq<Task>, op: Op): (seq<Task>, Option<Task>) {
    match op
    case Push(t, e) => (Pushed(stored, t, e), None)
    case Pop(e) => Popped(stored, e)
    case RemoveAt(i, e) => Removed(stored, i, e)
    case Clear(_) => ([], None)
  }

  /**
   * The same operation on an unbounded stack. Indices are those of a window of `width` entries at its
   * top, which is all that a caller of the bounded stack can see.
   */
  function IdealStep(ideal: seq<Task>, op: Op, width: nat): (seq<Task>, Option<Task>) {
    var live := Live(ideal, op.env.now);
    match op
    case Push(t, e) => (if Canonical(t, e, 0) == NO_TASK then live else live + [Canonical(t, e, 0)], None)
    case Pop(e) => if live == [] then (live, None) else (live[..|live| - 1], Some(live[|live| - 1]))
    case RemoveAt(i, e) =>
      if 0 <= i < width <= |live| then (Without(live, |live| - width + i), Some(live[|live| - width + i]))
      else (live, None)
    case Clear(_) => ([], None)
  }

  /** `s` is the upper part of `whole`. */
  ghost predicate TopOf<T>(s: seq<T>, whole: seq<T>) {
    |s| <= |whole| && s == whole[|whole| - |s|..]
  }

  lemma TopOfPop<T>(s: seq<T>, whole: seq<T>)
    requires TopOf(s, whole) && s != []
    ensures whole != [] && s[|s| - 1] == whole[|whole| - 1] && TopOf(s[..|s| - 1], whole[..|whole| - 1])
  {}

  lemma TopOfAll<T>(whole: seq<T>)
    ensures TopOf(whole, whole) && TopOf([], whole)
  {}

  lemma TopOfPush<T>(s: seq<T>, whole: seq<T>, more: seq<T>, n: nat)
    requires TopOf(s, whole)
    ensures TopOf(Last(s + more, n), whole + more)
  {
    assert s + more == (whole + more)[|whole| - |s|..];
  }

  lemma TopOfWithout<T>(s: seq<T>, whole: seq<T>, index: nat)
    requires TopOf(s, whole) && index < |s|
    ensures s[index] == whole[|whole| - |s| + index]
    ensures TopOf(Without(s, index), Without(whole, |whole| - |s| + index))
  {}

  /** The bounded stack shows a top part of the ideal one. */
  ghost predicate Shows(stored: seq<Task>, ideal: seq<Task>, now: int) {
    TopOf(Live(stored, now), Live(ideal, now))
  }

  ghost predicate Refines(stored: seq<Task>, ideal: seq<Task>, now: int, atomic: Atomic) {
    StableStack(stored, atomic) && |stored| <= MAX_TASKS && Shows(stored, ideal, now)
  }

  lemma {:induction false} LiveSuffix(a: seq<Task>, k: nat, t: int)
    requires k <= |a|
    ensures TopOf(Live(a[k..], t), Live(a, t))
  {
    assert a == a[..k] + a[k..];
    LiveAppend(a[..k], a[k..], t);
  }

  lemma ShowsLater(stored: seq<Task>, ideal: seq<Task>, t1: int, t2: int)
    requires Shows(stored, ideal, t1) && t1 <= t2
    ensures Shows(stored, ideal, t2)
  {
    hide Live;
    LiveLater(stored, t1, t2);
    LiveLater(ideal, t1, t2);
    var i := Live(ideal, t1);
    LiveSuffix(i, |i| - |Live(stored, t1)|, t2);
  }

  lemma LiveWithout(a: seq<Task>, index: nat, now: int)
    requires index < |a| && forall i :: 0 <= i < |a| ==> !Expired(a[i], now)
    ensures Live(Without(a, index), now) == Without(a, index)
  {
    LiveFixed(Without(a, index), now);
  }

  lemma LiveTwice(a: seq<Task>, now: int)
    ensures Live(Live(a, now), now) == Live(a, now)
  {
    LiveFixed(Live(a, now), now);
  }

  lemma PushRefines(stored: seq<Task>, ideal: seq<Task>, t: Task, e: Env)
    requires GoodEnv(e) && Refines(stored, ideal, e.now, e.atomic)
    ensures Refines(Pushed(stored, t, e), IdealStep(ideal, Push(t, e), 0).0, e.now, e.atomic)
  {
    hide Live, Expired, Stable, GoodEnv, Pushed, Canonical, TopOf;
    PushedStable(stored, t, e);
    var c, s, i := Canonical(t, e, 0), Live(stored, e.now), Live(ideal, e.now);
    LiveTwice(ideal, e.now);
    if c != NO_TASK {
      LiveAppend(i, [c], e.now);
      var added := Live([c], e.now);
      LiveFixed(Last(s + added, MAX_TASKS), e.now);
      TopOfPush(s, i, added, MAX_TASKS);
    }
  }

  lemma PopRefines(stored: seq<Task>, ideal: seq<Task>, e: Env)
    requires Refines(stored, ideal, e.now, e.atomic)
    ensures var (s, i) := (Popped(stored, e), IdealStep(ideal, Pop(e), 0));
            && Refines(s.0, i.0, e.now, e.atomic)
            && (s.1.Some? ==> i.1 == s.1)
            && (s.1.None? ==> Live(stored, e.now) == [])
  {
    hide Live, Expired, Stable, Popped, TopOf, StableStack;
    PoppedStable(stored, e);
    var s, i := Live(stored, e.now), Live(ideal, e.now);
    LiveTwice(ideal, e.now);
    if i != [] { LiveFixed(i[..|i| - 1], e.now); }
    if s != [] {
      LiveFixed(s[..|s| - 1], e.now);
      TopOfPop(s, i);
    } else {
      TopOfAll(IdealStep(ideal, Pop(e), 0).0);
    }
  }

  lemma RemoveRefines(stored: seq<Task>, ideal: seq<Task>, index: int, e: Env)
    requires Refines(stored, ideal, e.now, e.atomic)
    ensures var width := |Live(stored, e.now)|;
            var (s, i) := (Removed(stored, index, e), IdealStep(ideal, RemoveAt(index, e), width));
            Refines(s.0, i.0, e.now, e.atomic) && s.1 == i.1
  {
    hide Live, Expired, Stable, Removed, TopOf, StableStack, Without;
    RemovedStable(stored, index, e);
    var s, i := Live(stored, e.now), Live(ideal, e.now);
    TopOfLength(s, i);
    LiveTwice(ideal, e.now);
    if 0 <= index < |s| {
      LiveWithout(s, index, e.now);
      LiveWithout(i, |i| - |s| + index, e.now);
      TopOfWithout(s, i, index);
    }
  }

  lemma TopOfLength<T>(s: seq<T>, whole: seq<T>)
    requires TopOf(s, whole)
    ensures |s| <= |whole|
  {}

  lemma ClearRefines(stored: seq<Task>, ideal: seq<Task>, e: Env)
    ensures Refines([], [], e.now, e.atomic)
  {}

  /** One operation keeps the refinement, and whatever it returns is what the ideal stack returns. */
  lemma StepRefines(stored: seq<Task>, ideal: seq<Task>, op: Op)
    requires GoodEnv(op.env) && Refines(stored, ideal, op.env.now, op.env.atomic)
    ensures var width := |Live(stored, op.env.now)|;
            var (s, i) := (Step(stored, op), IdealStep(ideal, op, width));
            && Refines(s.0, i.0, op.env.now, op.env.atomic)
            && (s.1.Some? ==> i.1 == s.1)
            && (s.1.None? && i.1.Some? ==> op.Pop? && width == 0)
  {
    hide Refines, Live, Pushed, Popped, Removed, Canonical, GoodEnv, Without;
    match op
    case Push(t, e) => PushRefines(stored, ideal, t, e);
    case Pop(e) => PopRefines(stored, ideal, e);
    case RemoveAt(i, e) => RemoveRefines(stored, ideal, i, e);
    case Clear(e) => ClearRefines(stored, ideal, e);
  }

  // ---- whole runs ---------------------------------------------------------

  /** The readings of a clock that never goes back, starting at `now`, with one clean-up of action names. */
  ghost predicate Timely(ops: seq<Op>, now: int, atomic: Atomic) {
    && (forall i :: 0 <= i < |ops| ==> GoodEnv(ops[i].env) && ops[i].env.atomic == atomic && now <= ops[i].env.now)
    && (forall i, j :: 0 <= i < j < |ops| ==> ops[i].env.now <= ops[j].env.now)
  }

  datatype Trace = Trace(stored: seq<Task>, ideal: seq<Task>, returned: seq<Option<Task>>, wanted: seq<Option<Task>>)

  function Run(stored: seq<Task>, ideal: seq<Task>, ops: seq<Op>): (r: Trace)
    ensures |r.returned| == |r.wanted| == |ops|
    decreases |ops|
  {
    if ops == [] then Trace(stored, ideal, [], [])
    else
      var s := Step(stored, ops[0]);
      var i := IdealStep(ideal, ops[0], |Live(stored, ops[0].env.now)|);
      var rest := Run(s.0, i.0, ops[1..]);
      rest.(returned := [s.1] + rest.returned, wanted := [i.1] + rest.wanted)
  }

  /** The latest reading of the clock. */
  function Latest(now: int, ops: seq<Op>): int {
    if ops == [] then now else ops[|ops| - 1].env.now
  }

  lemma TimelyStep(ops: seq<Op>, now: int, atomic: Atomic)
    requires Timely(ops, now, atomic) && ops != []
    ensures Timely(ops[1..], ops[0].env.now, atomic)
    ensures Latest(ops[0].env.now, ops[1..]) == Latest(now, ops)
  {
    hide GoodEnv;
    forall i, j | 0 <= i < j < |ops[1..]| ensures ops[1..][i].env.now <= ops[1..][j].env.now {
      assert ops[i + 1].env.now <= ops[j + 1].env.now;
    }
    forall i | 0 <= i < |ops[1..]|
      ensures GoodEnv(ops[1..][i].env) && ops[1..][i].env.atomic == atomic && ops[0].env.now <= ops[1..][i].env.now
    {
      assert ops[0].env.now <= ops[i + 1].env.now;
    }
  }

  /**
   * Over any operations the stored stack holds at most five entries, the unexpired ones are a top part of
   * an ideal unbounded stack, and every task that is returned is the one the ideal stack returns.
   */
  lemma {:induction false} RunRefines(stored: seq<Task>, ideal: seq<Task>, ops: seq<Op>, now: int, atomic: Atomic)
    requires Refines(stored, ideal, now, atomic) && Timely(ops, now, atomic)
    ensures var r := Run(stored, ideal, ops);
            && Refines(r.stored, r.ideal, Latest(now, ops), atomic)
            && forall k :: 0 <= k < |ops| && r.returned[k].Some? ==> r.wanted[k] == r.returned[k]
    decreases |ops|
  {
    hide Step, IdealStep, GoodEnv, Live, Shows, StableStack;
    if ops != [] {
      var op := ops[0];
      ShowsLater(stored, ideal, now, op.env.now);
      StepRefines(stored, ideal, op);
      TimelyStep(ops, now, atomic);
      RunRefines(Step(stored, op).0, IdealStep(ideal, op, |Live(stored, op.env.now)|).0, ops[1..], op.env.now, atomic);
    }
  }

  // ---- when the bound is never felt --------------------------------------

  ghost predicate Equals(stored: seq<Task>, ideal: seq<Task>, now: int) {
    Live(stored, now) == Live(ideal, now)
  }

  /** At no step does the ideal stack hold more than five unexpired entries. */
  ghost predicate NeverOverfull(stored: seq<Task>, ideal: seq<Task>, ops: seq<Op>)
    decreases |ops|
  {
    ops != [] ==>
      var op := ops[0];
      var s, i := Step(stored, op).0, IdealStep(ideal, op, |Live(stored, op.env.now)|).0;
      |Live(i, op.env.now)| <= MAX_TASKS && NeverOverfull(s, i, ops[1..])
  }

  lemma StepEquals(stored: seq<Task>, ideal: seq<Task>, op: Op)
    requires GoodEnv(op.env) && Refines(stored, ideal, op.env.now, op.env.atomic)
    requires Equals(stored, ideal, op.env.now)
    requires |Live(IdealStep(ideal, op, |Live(stored, op.env.now)|).0, op.env.now)| <= MAX_TASKS
    ensures var (s, i) := (Step(stored, op), IdealStep(ideal, op, |Live(stored, op.env.now)|));
            Equals(s.0, i.0, op.env.now) && s.1 == i.1
  {
    hide Live, Expired, Stable, GoodEnv, Pushed, Popped, Removed, Canonical, Refines, StableStack;
    var e := op.env;
    StepRefines(stored, ideal, op);
    StableOf(stored, ideal, e);
    LiveTwice(ideal, e.now);
    LiveTwice(stored, e.now);
    var live := Live(ideal, e.now);
    match op {
      case Push(t, _) =>
        PushedStable(stored, t, e);
        var c := Canonical(t, e, 0);
        if c != NO_TASK {
          LiveAppend(live, [c], e.now);
          LiveTwice(live + [c], e.now);
        }
      case Pop(_) => PoppedStable(stored, e);
      case RemoveAt(index, _) => RemovedStable(stored, index, e);
      case Clear(_) =>
    }
  }

  lemma StableOf(stored: seq<Task>, ideal: seq<Task>, e: Env)
    requires Refines(stored, ideal, e.now, e.atomic)
    ensures StableStack(stored, e.atomic) && |stored| <= MAX_TASKS
  {}

  lemma EqualsLater(stored: seq<Task>, ideal: seq<Task>, t1: int, t2: int)
    requires Equals(stored, ideal, t1) && t1 <= t2
    ensures Equals(stored, ideal, t2)
  {
    LiveLater(stored, t1, t2);
    LiveLater(ideal, t1, t2);
  }

  /** While no more than five are unexpired at once, the stored stack is the ideal one, and so are all answers. */
  lemma {:induction false} RunEquals(stored: seq<Task>, ideal: seq<Task>, ops: seq<Op>, now: int, atomic: Atomic)
    requires Refines(stored, ideal, now, atomic) && Timely(ops, now, atomic)
    requires Equals(stored, ideal, now) && NeverOverfull(stored, ideal, ops)
    ensures var r := Run(stored, ideal, ops);
            Equals(r.stored, r.ideal, Latest(now, ops)) && r.returned == r.wanted
    decreases |ops|
  {
    hide Step, IdealStep, GoodEnv, Live, Shows, StableStack, Equals;
    if ops != [] {
      var op := ops[0];
      ShowsLater(stored, ideal, now, op.env.now);
      EqualsLater(stored, ideal, now, op.env.now);
      StepRefines(stored, ideal, op);
      StepEquals(stored, ideal, op);
      TimelyStep(ops, now, atomic);
      RunEquals(Step(stored, op).0, IdealStep(ideal, op, |Live(stored, op.env.now)|).0, ops[1..], op.env.now, atomic);
    }
  }

  // ---- the source's in-place form ----------------------------------------

  /** The stack as it lies in the key-value store: read, changed and written back by every operation. */
  class TaskStore {
    var stored: seq<Task>

    constructor ()
      ensures stored == []
    {
      stored := [];
    }

    /** The loop of `normalizeTaskStack`. */
    static method Normalize(stack: seq<Task>, e: Env) returns (out: seq<Task>)
      ensures out == NormalStack(stack, e)
    {
      hide Normal, Expired;
      out := [];
      for i := 0 to |stack|
        invariant out == AllKept(stack[..i], e)
      {
        assert stack[..i + 1][..i] == stack[..i];
        var item := Normal(stack[i], e, i);
        if item.kind.NoKind? { continue; }
        if Expired(item, e.now) { continue; }
        out := out + [item];
      }
      assert stack[..|stack|] == stack;
      if |out| > MAX_TASKS {
        out := out[|out| - MAX_TASKS..];
      }
    }

    method Get(e: Env) returns (stack: seq<Task>)
      ensures stack == NormalStack(stored, e)
    {
      stack := Normalize(stored, e);
    }

    method Save(stack: seq<Task>, e: Env)
      modifies this
      ensures stored == NormalStack(stack, e)
    {
      stored := Normalize(stack, e);
    }

    method Push(task: Task, e: Env)
      modifies this
      ensures stored == Pushed(old(stored), task, e)
    {
      var t := Normal(task, e, 0);
      if t.kind.NoKind? { return; }
      var stack := Get(e);
      stack := Normalize(stack + [t], e);
      Save(stack, e);
    }

    method Pop(e: Env) returns (task: Option<Task>)
      modifies this
      ensures (stored, task) == Popped(old(stored), e)
    {
      var stack := Get(e);
      if |stack| == 0 { return None; }
      task := Some(stack[|stack| - 1]);
      Save(stack[..|stack| - 1], e);
    }

    method RemoveAt(index: int, e: Env) returns (task: Option<Task>)
      modifies this
      ensures (stored, task) == Removed(old(stored), index, e)
    {
      var stack := Get(e);
      if index < 0 || index >= |stack| { return None; }
      task := Some(stack[index]);
      Save(stack[..index] + stack[index + 1..], e);
    }

    method Clear()
      modifies this
      ensures stored == []
    {
      stored := [];
    }
  }
}
