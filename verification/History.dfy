/** The in-memory chat history: one bounded list of messages for each user. */
module Histories {
  import opened Text

  const RECENT: nat := 12
  const MAX_TURNS: nat := 24
  const DEFAULT_MAX: nat := 100

  datatype Message = Message(role: string, content: string, at: int)

  datatype User = User(id: int)

  type Sessions = map<User, seq<Message>>

  // ---- the operations -----------------------------------------------------

  function Of(sessions: Sessions, user: User): seq<Message> {
    if user in sessions then sessions[user] else []
  }

  function Added(sessions: Sessions, user: User, m: Message, cap: nat): Sessions {
    sessions[user := Last(Of(sessions, user) + [m], cap)]
  }

  function Replaced(sessions: Sessions, user: User, msgs: seq<Message>, cap: nat): Sessions {
    if msgs == [] then sessions - {user} else sessions[user := Last(msgs, cap)]
  }

  /** Users whose last message is older than `maxAge` are dropped. */
  function Cleaned(sessions: Sessions, now: int, maxAge: int): Sessions {
    map u | u in sessions && !Stale(sessions[u], now, maxAge) :: sessions[u]
  }

  predicate Stale(msgs: seq<Message>, now: int, maxAge: int) {
    msgs != [] && now - msgs[|msgs| - 1].at > maxAge
  }

  /** Two entries more, and nothing else changes but for the cap; the other users are not touched. */
  lemma AddedTwice(sessions: Sessions, user: User, a: Message, b: Message, cap: nat)
    ensures var r := Added(Added(sessions, user, a, cap), user, b, cap);
            && Of(r, user) == Last(Of(sessions, user) + [a, b], cap)
            && forall u :: u != user ==> Of(r, u) == Of(sessions, u)
  {
    LastOfAppend(Of(sessions, user) + [a], [b], cap);
    assert Of(sessions, user) + [a] + [b] == Of(sessions, user) + [a, b];
  }

  // ---- one user's history over time --------------------------------------

  /**
   * What can happen to a user's history: a message is added, the old part is summarised away and only the
   * recent part kept (or the attempt gives up), or the clean-up of old histories passes over it.
   */
  datatype Event = Add(m: Message) | Compress(tokensOver: bool, saved: bool) | Clean(now: int, maxAge: int)

  /** `maybeCompressHistory`, taken as one atomic step. */
  function Compressed(msgs: seq<Message>, tokensOver: bool, saved: bool, cap: nat): seq<Message> {
    if |msgs| <= RECENT || !tokensOver || !saved then msgs else Last(Last(msgs, RECENT), cap)
  }

  function Happen(h: seq<Message>, e: Event, cap: nat): seq<Message> {
    match e
    case Add(m) => Last(h + [m], cap)
    case Compress(over, saved) => Compressed(h, over, saved, cap)
    case Clean(now, maxAge) => if Stale(h, now, maxAge) then [] else h
  }

  function HappenAll(h: seq<Message>, es: seq<Event>, cap: nat): seq<Message>
    decreases |es|
  {
    if es == [] then h else HappenAll(Happen(h, es[0], cap), es[1..], cap)
  }

  /** The reference: every message since the history was last cleaned, and whether it was cleaned now. */
  function Log(log: seq<Message>, e: Event): seq<Message> {
    match e
    case Add(m) => log + [m]
    case Compress(_, _) => log
    case Clean(now, maxAge) => if Stale(log, now, maxAge) then [] else log
  }

  function LogAll(log: seq<Message>, es: seq<Event>): seq<Message>
    decreases |es|
  {
    if es == [] then log else LogAll(Log(log, es[0]), es[1..])
  }

  /** The history is a recent part of the log that never misses one of the last twelve messages. */
  ghost predicate Recalls(h: seq<Message>, log: seq<Message>, cap: nat) {
    |h| <= cap && h == Last(log, |h|) && (|h| >= RECENT || h == log)
  }

  lemma LastOfLast<T>(log: seq<T>, m: nat, n: nat)
    requires n <= m <= |log|
    ensures Last(Last(log, m), n) == Last(log, n)
  {}

  lemma LastPlus<T>(log: seq<T>, n: nat, x: T)
    requires n <= |log|
    ensures Last(log, n) + [x] == Last(log + [x], n + 1)
  {}

  lemma HappenRecalls(h: seq<Message>, log: seq<Message>, e: Event, cap: nat)
    requires Recalls(h, log, cap) && cap >= RECENT
    ensures Recalls(Happen(h, e, cap), Log(log, e), cap)
  {
    match e
    case Add(m) =>
      LastPlus(log, |h|, m);
      LastOfLast(log + [m], |h| + 1, if |h| + 1 <= cap then |h| + 1 else cap);
    case Compress(over, saved) =>
      if |h| > RECENT { LastOfLast(log, |h|, RECENT); }
    case Clean(now, maxAge) =>
      if h != [] { assert h[|h| - 1] == log[|log| - 1]; }
  }

  /** Over any additions, compressions and clean-ups the last twelve messages are always there, in order. */
  lemma {:induction false} HistoryRecalls(h: seq<Message>, log: seq<Message>, es: seq<Event>, cap: nat)
    requires Recalls(h, log, cap) && cap >= RECENT
    ensures Recalls(HappenAll(h, es, cap), LogAll(log, es), cap)
    ensures Last(HappenAll(h, es, cap), RECENT) == Last(LogAll(log, es), RECENT)
    decreases |es|
  {
    if es == [] {
      if |h| >= RECENT { LastOfLast(log, |h|, RECENT); }
    } else {
      HappenRecalls(h, log, es[0], cap);
      HistoryRecalls(Happen(h, es[0], cap), Log(log, es[0]), es[1..], cap);
    }
  }

  /**
   * Messages that arrive between the read and the write of a compression are lost, and only those: what is kept are the
   * last twelve of the messages read, which is all that would be kept of the whole but for the late ones.
   */
  lemma LateCompressionLosesIff(read: seq<Message>, between: seq<Message>, cap: nat)
    requires |read| > RECENT && cap >= RECENT
    ensures var kept := Compressed(read, true, true, cap);
            && kept == Last(read, 12)
            && kept + between == Last(read + between, RECENT + |between|)
            && (kept == Last(read + between, RECENT + |between|) <==> between == [])
  {
    assert (read + between)[|read| - RECENT..] == read[|read| - RECENT..] + between;
    var kept := Compressed(read, true, true, cap);
    if between != [] { assert |kept + between| != |kept|; }
  }

  // ---- all users at once --------------------------------------------------

  /** Each operation is, for the user that it names, the event of that user's history, and nothing for the others. */
  lemma OperationsAreEvents(sessions: Sessions, user: User, u: User, m: Message, msgs: seq<Message>, cap: nat)
    ensures Of(Added(sessions, user, m, cap), u) ==
            if u == user then Happen(Of(sessions, u), Add(m), cap) else Of(sessions, u)
    ensures Of(Replaced(sessions, user, msgs, cap), u) ==
            if u != user then Of(sessions, u) else if |msgs| <= cap then msgs else msgs[|msgs| - cap..]
    ensures u in Replaced(sessions, user, msgs, cap) <==> if u == user then msgs != [] else u in sessions
  {}

  /** The clean-up keeps, as they are, exactly the histories without messages and those whose last message is recent. */
  lemma CleanKeepsIff(sessions: Sessions, u: User, now: int, maxAge: int, cap: nat)
    ensures u in Cleaned(sessions, now, maxAge) <==>
            u in sessions && (sessions[u] == [] || now <= sessions[u][|sessions[u]| - 1].at + maxAge)
    ensures u in Cleaned(sessions, now, maxAge) ==> Of(Cleaned(sessions, now, maxAge), u) == Of(sessions, u)
    ensures Of(Cleaned(sessions, now, maxAge), u) == Happen(Of(sessions, u), Clean(now, maxAge), cap)
  {}

  // ---- the source's form --------------------------------------------------

  class ChatHistory {
    var sessions: Sessions
    const maxTurns: nat

    constructor (maxTurns: int)
      ensures sessions == map[]
      ensures this.maxTurns == if maxTurns <= 0 then 100 else maxTurns
    {
      sessions := map[];
      this.maxTurns := if maxTurns <= 0 then DEFAULT_MAX else maxTurns;
    }

    method Add(user: User, role: string, content: string, now: int)
      modifies this
      ensures sessions == Added(old(sessions), user, Message(role, content, now), maxTurns)
    {
      sessions := sessions[user := Of(sessions, user) + [Message(role, content, now)]];
      var msgs := sessions[user];
      if |msgs| > maxTurns {
        sessions := sessions[user := msgs[|msgs| - maxTurns..]];
      }
    }

    method Get(user: User) returns (msgs: seq<Message>)
      ensures msgs == Of(sessions, user)
    {
      msgs := if user in sessions then sessions[user] else [];
    }

    method Replace(user: User, msgs: seq<Message>)
      modifies this
      ensures sessions == Replaced(old(sessions), user, msgs, maxTurns)
    {
      if |msgs| == 0 {
        sessions := sessions - {user};
        return;
      }
      var kept := msgs;
      if |kept| > maxTurns { kept := kept[|kept| - maxTurns..]; }
      sessions := sessions[user := kept];
    }

    method Clear(user: User)
      modifies this
      ensures sessions == old(sessions) - {user}
    {
      sessions := sessions - {user};
    }

    method CleanOld(now: int, maxAge: int)
      modifies this
      ensures sessions == Cleaned(old(sessions), now, maxAge)
    {
      var todo := sessions.Keys;
      while todo != {}
        invariant todo <= old(sessions).Keys
        invariant forall u :: u in sessions <==>
                    u in old(sessions) && (u in todo || !Stale(old(sessions)[u], now, maxAge))
        invariant forall u :: u in sessions ==> sessions[u] == old(sessions)[u]
        decreases |todo|
      {
        var u := Pick(todo);
        var msgs := sessions[u];
        if |msgs| > 0 && now - msgs[|msgs| - 1].at > maxAge {
          sessions := sessions - {u};
        }
        todo := todo - {u};
      }
    }

    /** `maybeCompressHistory`; summarising and saving the old part succeeds or not. */
    method MaybeCompress(user: User, tokensOver: bool, saved: bool)
      modifies this
      ensures Of(sessions, user) == Compressed(Of(old(sessions), user), tokensOver, saved, maxTurns)
      ensures forall u :: u != user ==> Of(sessions, u) == Of(old(sessions), u)
    {
      var msgs := Get(user);
      if |msgs| <= RECENT { return; }
      if !tokensOver { return; }
      var splitAt := |msgs| - RECENT;
      if !saved { return; }
      Replace(user, msgs[splitAt..]);
    }
  }
}
