/** One user turn through the native tool-calling loop, for every behaviour of the model and the tools. */
module AgenticTurns {
  import opened Text
  import H = Histories

  const MAX_ROUNDS: nat := 12
  const REPLAYED: nat := 12

  datatype ToolCall = ToolCall(id: string, name: string, args: string)

  /** What one call of the model yields. */
  datatype Reply = Failed | Said(content: string, reasoning: string, calls: seq<ToolCall>)

  datatype Msg = System(text: string) | User(text: string) | ToolResult(content: string, callId: string)
               | Assistant(content: string, reasoning: string, calls: seq<ToolCall>)

  /** The answers of the model round by round, its wrap-up, and the result of each tool run. */
  datatype World = World(llm: nat -> Reply, wrapUp: Option<string>, result: nat -> string)

  /** The reply for an interrupted turn, and the guard that replaces unkeepable promises. */
  datatype Wording = Wording(interrupted: seq<ToolCall> -> string, guard: string -> Option<string>, instruction: string)

  ghost predicate NeverBlank(w: Wording) {
    (forall ts :: Trim(w.interrupted(ts)) != "") && (forall r :: w.guard(r).Some? ==> Trim(w.guard(r).value) != "")
  }

  // ---- the turn as a function --------------------------------------------

  datatype Progress = Progress(messages: seq<Msg>, executed: seq<ToolCall>)

  /** The results of `calls`, the first of which is the `n`-th tool run of the turn. */
  function Results(calls: seq<ToolCall>, n: nat, world: World): (r: seq<Msg>)
    ensures |r| == |calls|
    ensures forall k :: 0 <= k < |calls| ==> r[k] == ToolResult(world.result(n + k), calls[k].id)
  {
    seq(|calls|, k requires 0 <= k < |calls| => ToolResult(world.result(n + k), calls[k].id))
  }

  function AfterRound(p: Progress, r: Reply, world: World): Progress
    requires r.Said?
  {
    Progress(p.messages + [Assistant(r.content, r.reasoning, r.calls)] + Results(r.calls, |p.executed|, world),
             p.executed + r.calls)
  }

  /** How a turn ends: the reply before the guard, or none; what was run; and the transcript of each call made. */
  datatype Outcome = Outcome(reply: Option<string>, executed: seq<ToolCall>, sent: seq<seq<Msg>>)

  /** `round` and later rounds, then the wrap-up. */
  function Rounds(p: Progress, round: nat, sent: seq<seq<Msg>>, world: World, words: Wording): Outcome
    decreases MAX_ROUNDS - round
  {
    if round >= MAX_ROUNDS then
      var messages := p.messages + [System(words.instruction)];
      var final := if world.wrapUp.None? || Trim(world.wrapUp.value) == "" then words.interrupted(p.executed)
          else world.wrapUp.value;
      Outcome(Some(final), p.executed, sent + [messages])
    else
      var asked := sent + [p.messages];
      match world.llm(round)
      case Failed =>
        Outcome(if p.executed == [] then None else Some(words.interrupted(p.executed)), p.executed, asked)
      case Said(content, reasoning, calls) =>
        if calls != [] then Rounds(AfterRound(p, world.llm(round), world), round + 1, asked, world, words)
        else if Trim(content) != "" then Outcome(Some(Trim(content)), p.executed, asked)
        else Outcome(if p.executed == [] then None else Some(words.interrupted(p.executed)), p.executed, asked)
  }

  function Turn(start: seq<Msg>, world: World, words: Wording): Outcome {
    Rounds(Progress(start, []), 0, [], world, words)
  }

  function Guarded(reply: string, words: Wording): string {
    words.guard(reply).GetOr(reply)
  }

  /** `recentHistoryMessages`. */
  function Replay(history: seq<H.Message>, text: string): seq<Msg> {
    var n := |history|;
    var past := if n > 0 && history[n - 1].role == USER && Trim(history[n - 1].content) == Trim(text)
                then history[..n - 1] else history;
    Turns(Last(past, REPLAYED))
  }

  const USER := "user"
  const ASSISTANT := "assistant"

  /** How one entry of the history is shown to the model. */
  function Shown(m: H.Message): (r: seq<Msg>)
    ensures Plain(r) && |r| <= 1
  {
    var content := Trim(m.content);
    if content == "" then []
    else if m.role == USER then [User(content)]
    else if m.role == ASSISTANT then [Assistant(content, "", [])]
    else []
  }

  function Turns(history: seq<H.Message>): (r: seq<Msg>)
    ensures Plain(r) && |r| <= |history|
  {
    if history == [] then []
    else Turns(history[..|history| - 1]) + Shown(history[|history| - 1])
  }

  // ---- transcripts --------------------------------------------------------

  /** No tool call and no tool result. */
  predicate Plain(ms: seq<Msg>) {
    forall i :: 0 <= i < |ms| ==> !ms[i].ToolResult? && (ms[i].Assistant? ==> ms[i].calls == [])
  }

  /** The message at `i` asks for tools, and one result for each call follows it, in order and under its identifier. */
  predicate Answered(ms: seq<Msg>, i: nat)
    requires i < |ms| && ms[i].Assistant?
  {
    && |ms| - i - 1 >= |ms[i].calls|
    && forall j :: i < j <= i + |ms[i].calls| ==>
         ms[j].ToolResult? && ms[j].callId == ms[i].calls[j - i - 1].id
  }

  /** The result at `j` belongs to a call of the message at `i`. */
  predicate Belongs(ms: seq<Msg>, j: nat, i: nat)
    requires j < |ms| && i < |ms|
  {
    i < j && ms[i].Assistant? && j - i <= |ms[i].calls|
  }

  /** Every call is answered once, in order, and every result belongs to a call. */
  ghost predicate WellFormed(ms: seq<Msg>) {
    && (forall i :: 0 <= i < |ms| && ms[i].Assistant? ==> Answered(ms, i))
    && (forall j :: 0 <= j < |ms| && ms[j].ToolResult? ==> exists i :: 0 <= i < j && Belongs(ms, j, i))
  }

  lemma PlainWellFormed(ms: seq<Msg>)
    requires Plain(ms)
    ensures WellFormed(ms)
  {}

  lemma StillAnswered(ms: seq<Msg>, more: seq<Msg>, i: nat)
    requires i < |ms| && ms[i].Assistant? && Answered(ms, i)
    ensures Answered(ms + more, i)
  {
    var all := ms + more;
    forall j | i < j <= i + |ms[i].calls|
      ensures all[j].ToolResult? && all[j].callId == all[i].calls[j - i - 1].id
    {
      assert all[j] == ms[j];
    }
  }

  lemma StillOwned(ms: seq<Msg>, more: seq<Msg>, j: nat)
    requires WellFormed(ms) && j < |ms| && ms[j].ToolResult?
    ensures exists i :: 0 <= i < j && Belongs(ms + more, j, i)
  {
    var i :| 0 <= i < j && Belongs(ms, j, i);
    assert Belongs(ms + more, j, i);
  }

  /** A message with its results, at the end, breaks nothing. */
  lemma WellFormedBlock(ms: seq<Msg>, m: Msg, results: seq<Msg>)
    requires WellFormed(ms) && !m.ToolResult? && |results| == if m.Assistant? then |m.calls| else 0
    requires forall k :: 0 <= k < |results| ==> results[k].ToolResult? && results[k].callId == m.calls[k].id
    ensures WellFormed(ms + [m] + results)
  {
    hide Answered, Belongs;
    var all, n := ms + [m] + results, |ms|;
    assert all == ms + ([m] + results);
    forall i | 0 <= i < |all| && all[i].Assistant? ensures Answered(all, i) {
      if i < n { StillAnswered(ms, [m] + results, i); } else { NewBlock(ms, m, results); }
    }
    forall j | 0 <= j < |all| && all[j].ToolResult? ensures exists i :: 0 <= i < j && Belongs(all, j, i) {
      if j < n { StillOwned(ms, [m] + results, j); } else { NewBlock(ms, m, results); }
    }
  }

  lemma NewBlock(ms: seq<Msg>, m: Msg, results: seq<Msg>)
    requires !m.ToolResult? && |results| == if m.Assistant? then |m.calls| else 0
    requires forall k :: 0 <= k < |results| ==> results[k].ToolResult? && results[k].callId == m.calls[k].id
    ensures var all, n := ms + [m] + results, |ms|;
            && (m.Assistant? ==> Answered(all, n))
            && forall j :: n < j < |all| ==> all[j].ToolResult? && Belongs(all, j, n)
  {
    var all, n := ms + [m] + results, |ms|;
    forall j | n < j < |all| ensures all[j] == results[j - n - 1] {}
  }

  lemma WellFormedSnoc(ms: seq<Msg>, m: Msg)
    requires WellFormed(ms) && !m.ToolResult? && (m.Assistant? ==> m.calls == [])
    ensures WellFormed(ms + [m])
  {
    hide WellFormed;
    WellFormedBlock(ms, m, []);
    assert ms + [m] + [] == ms + [m];
  }

  lemma WellFormedRound(p: Progress, r: Reply, world: World)
    requires WellFormed(p.messages) && r.Said?
    ensures WellFormed(AfterRound(p, r, world).messages)
  {
    hide WellFormed;
    WellFormedBlock(p.messages, Assistant(r.content, r.reasoning, r.calls), Results(r.calls, |p.executed|, world));
  }

  // ---- what a transcript tells -------------------------------------------

  /** The calls that a transcript asks for, in order. */
  function Asked(ms: seq<Msg>): seq<ToolCall> {
    if ms == [] then []
    else Asked(ms[..|ms| - 1]) + if ms[|ms| - 1].Assistant? then ms[|ms| - 1].calls else []
  }

  /** The results that a transcript reports, in order. */
  function Reported(ms: seq<Msg>): seq<string> {
    if ms == [] then []
    else Reported(ms[..|ms| - 1]) + if ms[|ms| - 1].ToolResult? then [ms[|ms| - 1].content] else []
  }

  /** The results of the first `n` tool runs. */
  function Yielded(world: World, n: nat): (r: seq<string>)
    ensures |r| == n
  {
    if n == 0 then [] else Yielded(world, n - 1) + [world.result(n - 1)]
  }

  /** The transcript asks for exactly the calls that were run and reports exactly what they yielded. */
  ghost predicate Truthful(ms: seq<Msg>, executed: seq<ToolCall>, world: World) {
    Asked(ms) == executed && Reported(ms) == Yielded(world, |executed|)
  }

  lemma {:induction false} PlainIsSilent(ms: seq<Msg>)
    requires Plain(ms)
    ensures Asked(ms) == [] && Reported(ms) == []
  {
    if ms != [] {
      assert Plain(ms[..|ms| - 1]);
      PlainIsSilent(ms[..|ms| - 1]);
    }
  }

  lemma AskedSnoc(ms: seq<Msg>, m: Msg)
    ensures Asked(ms + [m]) == Asked(ms) + if m.Assistant? then m.calls else []
    ensures Reported(ms + [m]) == Reported(ms) + if m.ToolResult? then [m.content] else []
  {
    assert (ms + [m])[..|ms|] == ms;
  }

  /** Reporting the first `k` results of a round. */
  lemma {:induction false} ReportsRound(ms: seq<Msg>, calls: seq<ToolCall>, n: nat, world: World, k: nat)
    requires k <= |calls| && Reported(ms) == Yielded(world, n)
    ensures Reported(ms + Results(calls, n, world)[..k]) == Yielded(world, n + k)
    ensures Asked(ms + Results(calls, n, world)[..k]) == Asked(ms)
  {
    hide Asked, Reported;
    var rs := Results(calls, n, world);
    if k == 0 {
      assert ms + rs[..0] == ms;
    } else {
      ReportsRound(ms, calls, n, world, k - 1);
      AskedSnoc(ms + rs[..k - 1], rs[k - 1]);
      assert ms + rs[..k] == ms + rs[..k - 1] + [rs[k - 1]];
    }
  }

  lemma TruthfulRound(p: Progress, r: Reply, world: World)
    requires r.Said? && Truthful(p.messages, p.executed, world)
    ensures Truthful(AfterRound(p, r, world).messages, p.executed + r.calls, world)
  {
    hide Asked, Reported, Yielded;
    var ms := p.messages + [Assistant(r.content, r.reasoning, r.calls)];
    AskedSnoc(p.messages, Assistant(r.content, r.reasoning, r.calls));
    var rs := Results(r.calls, |p.executed|, world);
    assert Reported(ms) == Yielded(world, |p.executed|);
    ReportsRound(ms, r.calls, |p.executed|, world, |r.calls|);
    assert rs[..|r.calls|] == rs;
  }

  // ---- the theorems -------------------------------------------------------

  /** The calls the model makes in its first `n` rounds. */
  function Called(world: World, n: nat): seq<ToolCall> {
    if n == 0 then [] else Called(world, n - 1) + (if world.llm(n - 1).Said? then world.llm(n - 1).calls else [])
  }

  /** The first round, at or after `round`, in which the model asks for no tool. */
  function Stop(world: World, round: nat): (r: nat)
    ensures round <= MAX_ROUNDS ==> round <= r <= MAX_ROUNDS
    decreases MAX_ROUNDS - round
  {
    if round >= MAX_ROUNDS || world.llm(round).Failed? || world.llm(round).calls == [] then round
    else Stop(world, round + 1)
  }

  /** What is sent in round `i`: a well-formed transcript of exactly the calls made before, and of their results. */
  ghost predicate Sent(ms: seq<Msg>, world: World, i: nat) {
    WellFormed(ms) && Truthful(ms, Called(world, i), world)
  }

  /** What the turn replies before the guard, given the round in which the model stopped asking for tools. */
  ghost predicate RepliesWith(reply: Option<string>, world: World, words: Wording, stop: nat) {
    var ran := Called(world, stop);
    if stop == 12 then
      if world.wrapUp.Some? && Trim(world.wrapUp.value) != "" then reply == world.wrapUp
      else reply == Some(words.interrupted(ran))
    else if world.llm(stop).Said? && Trim(world.llm(stop).content) != ""
        then reply == Some(Trim(world.llm(stop).content))
    else reply == if ran == [] then None else Some(words.interrupted(ran))
  }

  /** `after` is `before`, then what the model said, the results of its calls, and `more` messages. */
  ghost predicate Continues(before: seq<Msg>, after: seq<Msg>, r: Reply, more: nat) {
    && r.Said? && |after| == |before| + 1 + |r.calls| + more && after[..|before|] == before
    && after[|before|] == Assistant(r.content, r.reasoning, r.calls)
  }

  /** Each transcript continues the one before with the model's own words; the wrap-up adds one instruction. */
  ghost predicate Linked(sent: seq<seq<Msg>>, world: World, words: Wording, from: nat) {
    && (forall i :: from <= i < |sent| - 1 ==>
          Continues(sent[i], sent[i + 1], world.llm(i), if i == 11 then 1 else 0))
    && (|sent| == 13 ==> sent[12] != [] && sent[12][|sent[12]| - 1] == System(words.instruction))
  }

  /** The model has asked for tools in every round so far, and each call was run once, in order. */
  ghost predicate AtRound(p: Progress, round: nat, sent: seq<seq<Msg>>, world: World) {
    && round <= MAX_ROUNDS && p.executed == Called(world, round) && (round > 0 ==> p.executed != [])
    && WellFormed(p.messages) && Truthful(p.messages, p.executed, world)
    && |sent| == round && forall i :: 0 <= i < |sent| ==> Sent(sent[i], world, i)
  }

  /**
   * From any round on: the tools run are exactly those the model calls before it stops, every transcript sent
   * is well formed and truthful, and without a reply nothing was run.
   */
  lemma {:induction false} RoundsOutcome(p: Progress, round: nat, sent: seq<seq<Msg>>, world: World, words: Wording)
    requires AtRound(p, round, sent, world) && NeverBlank(words)
    ensures var o, stop := Rounds(p, round, sent, world, words), Stop(world, round);
            && o.executed == Called(world, stop) && |o.sent| == stop + 1
            && (forall i :: 0 <= i < |o.sent| ==> Sent(o.sent[i], world, i))
            && (o.reply.None? <==> o.executed == [] && Mute(world.llm(stop)))
            && (o.reply.Some? ==> Trim(o.reply.value) != "") && RepliesWith(o.reply, world, words, stop)
    decreases MAX_ROUNDS - round
  {
    hide WellFormed, Trim, Asked, Reported, Yielded;
    TrimAgain();
    if round == MAX_ROUNDS {
      WellFormedSnoc(p.messages, System(words.instruction));
      AskedSnoc(p.messages, System(words.instruction));
    } else if world.llm(round).Said? && world.llm(round).calls != [] {
      WellFormedRound(p, world.llm(round), world);
      TruthfulRound(p, world.llm(round), world);
      RoundsOutcome(AfterRound(p, world.llm(round), world), round + 1, sent + [p.messages], world, words);
    }
  }

  lemma {:induction false} RoundsLinked(p: Progress, round: nat, sent: seq<seq<Msg>>, world: World, words: Wording)
    requires round <= MAX_ROUNDS && |sent| == round
    ensures var o := Rounds(p, round, sent, world, words);
            && |sent| < |o.sent| <= 13 && sent <= o.sent
            && (round < 12 ==> o.sent[round] == p.messages)
            && (round == 12 ==> o.sent == sent + [p.messages + [System(words.instruction)]])
            && Linked(o.sent, world, words, round)
    decreases MAX_ROUNDS - round
  {
    hide Trim, Results, AfterRound, Continues;
    if round < MAX_ROUNDS && world.llm(round).Said? && world.llm(round).calls != [] {
      var q := AfterRound(p, world.llm(round), world);
      var o := Rounds(q, round + 1, sent + [p.messages], world, words);
      RoundsLinked(q, round + 1, sent + [p.messages], world, words);
      RoundContinues(p, world.llm(round), world, System(words.instruction));
      PrefixSnoc(sent, p.messages, o.sent);
      LinkedFrom(o.sent, world, words, round);
    }
  }

  lemma PrefixSnoc<T>(s: seq<T>, x: T, t: seq<T>)
    requires s + [x] <= t
    ensures s <= t && |s| < |t| && t[|s|] == x
  {
    assert (s + [x])[|s|] == x;
  }

  lemma RoundContinues(p: Progress, r: Reply, world: World, m: Msg)
    requires r.Said?
    ensures var q := AfterRound(p, r, world).messages;
            Continues(p.messages, q, r, 0) && Continues(p.messages, q + [m], r, 1)
  {}

  lemma LinkedFrom(sent: seq<seq<Msg>>, world: World, words: Wording, round: nat)
    requires round + 1 < |sent| && Linked(sent, world, words, round + 1)
    requires Continues(sent[round], sent[round + 1], world.llm(round), if round == 11 then 1 else 0)
    ensures Linked(sent, world, words, round)
  {
    hide Continues;
  }

  lemma TrimAgain()
    ensures forall s :: Trim(Trim(s)) == Trim(s)
  {}

  /** A failed call, or an answer with neither tools nor text. */
  predicate Mute(r: Reply) {
    r.Failed? || (r.calls == [] && Trim(r.content) == "")
  }

  /**
   * A turn is left to the fallback path exactly when the very first call fails or says nothing; then no tool has
   * run. In any other case it is handled with a reply that is not blank.
   */
  lemma FallbackIff(start: seq<Msg>, world: World, words: Wording)
    requires Plain(start) && NeverBlank(words)
    ensures var o := Turn(start, world, words);
            && (o.reply.None? <==> Mute(world.llm(0))) && (o.reply.None? ==> o.executed == [])
            && (o.reply.Some? ==> Trim(o.reply.value) != "" && Trim(Guarded(o.reply.value, words)) != "")
  {
    hide Trim, WellFormed, Asked, Reported;
    PlainWellFormed(start);
    PlainIsSilent(start);
    RoundsOutcome(Progress(start, []), 0, [], world, words);
    var stop := Stop(world, 0);
    if stop > 0 { CalledSome(world, stop); }
  }

  lemma {:induction false} CalledSome(world: World, n: nat)
    requires 0 < n <= Stop(world, 0)
    ensures Called(world, n) != []
  {
    StopCovers(world, 0, n - 1);
  }

  lemma {:induction false} StopCovers(world: World, from: nat, i: nat)
    requires from <= i < Stop(world, from) && from <= MAX_ROUNDS
    ensures world.llm(i).Said? && world.llm(i).calls != []
    decreases i - from
  {
    if from < i { StopCovers(world, from + 1, i); }
  }

  /**
   * At most twelve rounds and one wrap-up; each call is run once, in order; every transcript sent is well formed and
   * tells exactly what was run before and what it yielded.
   */
  lemma TurnIsOrderly(start: seq<Msg>, world: World, words: Wording)
    requires Plain(start) && NeverBlank(words)
    ensures var o, stop := Turn(start, world, words), Stop(world, 0);
            && stop <= MAX_ROUNDS && |o.sent| == stop + 1 && o.executed == Called(world, stop)
            && (forall i :: 0 <= i < |o.sent| ==> Sent(o.sent[i], world, i))
            && o.sent[0] == start && Linked(o.sent, world, words, 0)
  {
    hide WellFormed, Trim, Asked, Reported;
    PlainWellFormed(start);
    PlainIsSilent(start);
    RoundsOutcome(Progress(start, []), 0, [], world, words);
    RoundsLinked(Progress(start, []), 0, [], world, words);
  }

  /**
   * What a turn replies: what the model says in the first round in which it asks for no tool; the wrap-up after twelve
   * rounds; and the word about the interruption when something was run and the model then fails or says nothing. The
   * guard replaces the reply exactly where it has something to put in its place.
   */
  lemma TurnReplies(start: seq<Msg>, world: World, words: Wording)
    requires Plain(start) && NeverBlank(words)
    ensures var (o, stop) := (Turn(start, world, words), Stop(world, 0));
            && RepliesWith(o.reply, world, words, stop)
            && (forall i :: 0 <= i < stop ==> world.llm(i).Said? && world.llm(i).calls != [])
            && (stop < 12 ==> world.llm(stop).Failed? || world.llm(stop).calls == [])
            && (o.reply.Some? ==>
                  match words.guard(o.reply.value)
                  case None => Guarded(o.reply.value, words) == o.reply.value
                  case Some(text) => Guarded(o.reply.value, words) == text)
  {
    hide WellFormed, Trim, Asked, Reported, RepliesWith, Sent;
    PlainWellFormed(start);
    PlainIsSilent(start);
    RoundsOutcome(Progress(start, []), 0, [], world, words);
    StopStops(world, 0);
    forall i | 0 <= i < Stop(world, 0) ensures world.llm(i).Said? && world.llm(i).calls != [] {
        StopCovers(world, 0, i); }
  }

  lemma {:induction false} StopStops(world: World, from: nat)
    requires from <= MAX_ROUNDS
    ensures Stop(world, from) < 12 ==> world.llm(Stop(world, from)).Failed? || world.llm(Stop(world, from)).calls == []
    decreases MAX_ROUNDS - from
  {
    if from < MAX_ROUNDS && world.llm(from).Said? && world.llm(from).calls != [] { StopStops(world, from + 1); }
  }

  // ---- what is replayed ---------------------------------------------------

  /** An entry is shown as what it says, to the side that said it; a blank one or one of another role is not shown. */
  ghost predicate ShownAs(m: H.Message, out: seq<Msg>) {
    if Trim(m.content) == "" || (m.role != "user" && m.role != "assistant") then out == []
    else |out| == 1 && out[0] == if m.role == "user" then User(Trim(m.content)) else Assistant(Trim(m.content), "", [])
  }

  lemma TurnsAppend(a: seq<H.Message>, m: H.Message)
    ensures Turns(a + [m]) == Turns(a) + Shown(m) && ShownAs(m, Shown(m))
  {
    hide Trim;
    assert (a + [m])[..|a|] == a;
  }

  /**
   * What is replayed are the last twelve entries, one by one; and the entry that is just being answered is not among
   * them, when it was already recorded.
   */
  lemma ReplayIs(past: seq<H.Message>, m: H.Message, text: string)
    ensures Replay(past + [m], text) ==
            if m.role == "user" && Trim(m.content) == Trim(text) then Turns(Last(past, 12))
                else Turns(Last(past + [m], 12))
    ensures Replay([], text) == []
  {
    hide Trim;
    assert (past + [m])[..|past|] == past;
  }


  // ---- the source's form --------------------------------------------------

  /** The tools: each run is recorded and has whatever effect it has. */
  class Toolbox {
    var ran: seq<ToolCall>
    const result: nat -> string

    constructor (result: nat -> string)
      ensures ran == [] && this.result == result
    {
      ran, this.result := [], result;
    }

    method Handle(call: ToolCall) returns (text: string)
      modifies this
      ensures ran == old(ran) + [call] && text == result(|old(ran)|)
    {
      text := result(|ran|);
      ran := ran + [call];
    }
  }

  class Agent {
    const user: H.User
    const history: H.ChatHistory
    const tools: Toolbox

    constructor (user: H.User, history: H.ChatHistory, tools: Toolbox)
      ensures this.user == user && this.history == history && this.tools == tools
    {
      this.user, this.history, this.tools := user, history, tools;
    }

    static method Show(m: H.Message) returns (out: seq<Msg>)
      ensures out == Shown(m)
    {
      hide Trim;
      var content := Trim(m.content);
      if content == "" { return []; }
      if m.role == USER { return [User(content)]; }
      if m.role == ASSISTANT { return [Assistant(content, "", [])]; }
      return [];
    }

    /** The loop of `recentHistoryMessages`. */
    static method ShowAll(msgs: seq<H.Message>) returns (out: seq<Msg>)
      ensures out == Turns(msgs)
    {
      hide Shown;
      out := [];
      for i := 0 to |msgs|
        invariant out == Turns(msgs[..i])
      {
        assert msgs[..i + 1][..i] == msgs[..i];
        var shown := Show(msgs[i]);
        out := out + shown;
      }
      assert msgs[..|msgs|] == msgs;
    }

    method RecentHistoryMessages(text: string) returns (out: seq<Msg>)
      ensures out == Replay(H.Of(history.sessions, user), text)
    {
      hide Trim, Turns;
      var msgs := history.Get(user);
      var n := |msgs|;
      if n > 0 && msgs[n - 1].role == USER && Trim(msgs[n - 1].content) == Trim(text) {
        msgs := msgs[..n - 1];
      }
      if |msgs| > REPLAYED { msgs := msgs[|msgs| - REPLAYED..]; }
      out := ShowAll(msgs);
    }

    /** `finishAgenticTurn`: the guarded reply, and one user and one assistant entry in the history. */
    method Finish(text: string, reply: string, words: Wording, now: int) returns (said: string)
      modifies history
      ensures said == Guarded(reply, words)
      ensures history.sessions ==
              H.Added(H.Added(old(history.sessions), user, H.Message(USER, text, now), history.maxTurns),
                      user, H.Message(ASSISTANT, said, now), history.maxTurns)
    {
      said := reply;
      var guarded := words.guard(reply);
      if guarded.Some? { said := guarded.value; }
      history.Add(user, USER, text, now);
      history.Add(user, ASSISTANT, said, now);
    }

    /** The tool calls of one round. */
    method RunTools(p: Progress, r: Reply, world: World) returns (q: Progress)
      requires r.Said? && tools.ran == p.executed && tools.result == world.result
      modifies tools
      ensures q == AfterRound(p, r, world) && tools.ran == q.executed
    {
      var messages := p.messages + [Assistant(r.content, r.reasoning, r.calls)];
      ghost var head := messages;
      for k := 0 to |r.calls|
        invariant tools.ran == p.executed + r.calls[..k]
        invariant messages == head + Results(r.calls, |p.executed|, world)[..k]
      {
        var result := tools.Handle(r.calls[k]);
        messages := messages + [ToolResult(result, r.calls[k].id)];
        assert r.calls[..k + 1] == r.calls[..k] + [r.calls[k]];
      }
      assert r.calls[..|r.calls|] == r.calls;
      q := Progress(messages, tools.ran);
    }

    /** `runAgenticTurn`, with the system messages already built; no reply means that the turn was not handled. */
    method RunAgenticTurn(system: seq<Msg>, text: string, world: World, words: Wording, now: int)
      returns (said: Option<string>, ghost sent: seq<seq<Msg>>)
      requires tools.ran == [] && tools.result == world.result
      modifies history, tools
      ensures var start := system + Replay(H.Of(old(history.sessions), user), text) + [User(text)];
              var o := Turn(start, world, words);
              && tools.ran == o.executed && sent == o.sent
              && (o.reply.None? ==> said.None? && history.sessions == old(history.sessions))
              && (o.reply.Some? ==>
                    && said == Some(Guarded(o.reply.value, words))
                    && history.sessions ==
                       H.Added(H.Added(old(history.sessions), user, H.Message(USER, text, now), history.maxTurns),
                               user, H.Message(ASSISTANT, said.value, now), history.maxTurns))
    {
      hide Trim, Replay;
      var past := RecentHistoryMessages(text);
      var messages := system + past + [User(text)];
      var p := Progress(messages, []);
      ghost var whole := Turn(messages, world, words);
      sent := [];
      var round := 0;
      while round < MAX_ROUNDS
        invariant 0 <= round <= MAX_ROUNDS
        invariant tools.ran == p.executed && history.sessions == old(history.sessions)
        invariant whole == Rounds(p, round, sent, world, words)
      {
        var r := world.llm(round);
        sent := sent + [p.messages];
        if r.Failed? {
          if |p.executed| == 0 { return None, sent; }
          var reply := Finish(text, words.interrupted(p.executed), words, now);
          return Some(reply), sent;
        }
        if |r.calls| == 0 {
          var reply := Trim(r.content);
          if reply == "" {
            if |p.executed| == 0 { return None, sent; }
            reply := words.interrupted(p.executed);
          }
          reply := Finish(text, reply, words, now);
          return Some(reply), sent;
        }
        p := RunTools(p, r, world);
        round := round + 1;
      }
      sent := sent + [p.messages + [System(words.instruction)]];
      var final := words.interrupted(p.executed);
      if world.wrapUp.Some? && Trim(world.wrapUp.value) != "" { final := world.wrapUp.value; }
      final := Finish(text, final, words, now);
      return Some(final), sent;
    }
  }
}
