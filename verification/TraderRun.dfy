/**
 * Whole runs of trader drafts: turns, extractions, turns of the brain, and all that suspending and restoring can do.
 */
module TraderRuns {
  import opened Text
  import opened Sessions
  import opened TraderCreates
  import opened BrainDrafts

  // ---- what can happen ----------------------------------------------------

  /**
   * What happens within the live session: a turn, of a session begun anew or the stored one; or a turn after fields
   * were extracted into it, on the bridge from the planner into a new one if there is none.
   */
  datatype Act = Turn(anew: bool, reply: Reply, w: World)
               | Extract(bridged: bool, writes: seq<(Key, string)>, reply: Reply, w: World)

  /**
   * What can happen to a user's drafts. A live draft is suspended; a suspended one is moved back, moved back when a
   * sub-task succeeds, or copied back because it waits; one is dropped, by its age, the cap or a cancellation. Where no
   * session is live, an answer that is raw JSON is recovered into a new draft or a copy of the last one suspended. The
   * brain drives a draft of its own, which is given up when the conversation turns elsewhere.
   */
  datatype Event = Live(act: Act) | Cancel | Suspend(w: World) | Move(index: nat, w: World)
                 | Resume(index: nat, w: World)
                 | Copy(index: nat, w: World) | Drop(index: nat)
                 | Recover(copied: bool, writes: seq<(Key, string)>, reply: Reply, w: World)
                 | Brain(turn: BrainTurn) | Forget

  function Wrote(s: Session, writes: seq<(Key, string)>, clean: string -> string): Session
    decreases |writes|
  {
    if writes == [] then s else Wrote(SetField(s, writes[0].0, writes[0].1, clean), writes[1..], clean)
  }

  /** The session that extracted fields are written to. */
  function Base(stored: Session, bridged: bool, w: World): Session {
    if stored.skill.NoSkill? && bridged then FRESH_SESSION else Saved(stored, w)
  }

  function Extracted(stored: Session, bridged: bool, writes: seq<(Key, string)>, w: World): Session {
    var s := Wrote(Base(stored, bridged, w), writes, w.clean);
    if bridged then Hydrated(s, w) else s
  }

  /** The session that an act hands to the skill, if any; stored sessions are normalised when they are loaded. */
  function Given(stored: Session, a: Act): Option<Session> {
    match a
    case Turn(anew, _, w) => Some(if anew then FRESH_SESSION else Saved(stored, w))
    case Extract(bridged, writes, _, w) =>
      if stored.skill.NoSkill? && !bridged then None else Some(Extracted(stored, bridged, writes, w))
  }

  function Acted(stored: Session, a: Act): Outcome {
    match Given(stored, a)
    case None => Outcome(stored, [])
    case Some(s) => Handled(s, a.reply, a.w)
  }

  /** `tryRecoverFromInternalAgentJSON` without a live session: a complete draft waits at once, without validation. */
  function Recovered(base: Session, writes: seq<(Key, string)>, reply: Reply, w: World): Outcome {
    var h := Hydrated(Saved(Wrote(base, writes, w.clean), w), w);
    if Missing(h) then Handled(h, reply, w)
    else Outcome(Saved(h.(phase := if FieldValue(h, AutoStart) == TRUE then AwaitStart else AwaitCreate), w), [])
  }

  /**
   * The live draft, the brain's and the suspended ones, the tools called, and the prompts, attempts and copies so
   * far.
   */
  datatype Run = Run(live: Session, active: Option<Active>, stack: seq<Session>, calls: seq<Call>,
                     prompts: nat, attempts: nat, copies: nat)

  const NEW_RUN := Run(NO_SESSION, None, [], [], 0, 0, 0)

  /** A draft as it lies on the stack: two normalisations reach the form that further ones keep. */
  function Parked(s: Session, w: World): Session { Saved(Saved(s, w), w) }

  predicate IsCreate(calls: seq<Call>) { calls != [] && calls[0].Create? }

  function Without<T>(s: seq<T>, i: nat): seq<T>
    requires i < |s|
  {
    s[..i] + s[i + 1..]
  }

  predicate WaitsBrain(active: Option<Active>) { active.Some? && WaitsActive(active.value) }

  /** The run after tools were called and a session came to wait, or did not. */
  function Counted(r: Run, calls: seq<Call>, prompted: bool, copied: bool): Run {
    r.(calls := r.calls + calls, prompts := r.prompts + (if prompted then 1 else 0),
       attempts := r.attempts + (if IsCreate(calls) then 1 else 0), copies := r.copies + (if copied then 1 else 0))
  }

  function RecoveryBase(r: Run, copied: bool): Session {
    if copied && r.stack != [] then r.stack[|r.stack| - 1] else FRESH_SESSION
  }

  function Happen(r: Run, e: Event): Run {
    match e
    case Live(a) =>
      var o := Acted(r.live, a);
      Counted(r.(live := o.stored), o.calls, !Waits(r.live) && Waits(o.stored), false)
    case Cancel => r.(live := NO_SESSION)
    case Suspend(w) =>
      if r.live.skill.NoSkill? then r else r.(live := NO_SESSION, stack := r.stack + [Parked(r.live, w)])
    case Move(i, w) => if i < |r.stack| then r.(live := Saved(r.stack[i], w), stack := Without(r.stack, i)) else r
    case Resume(i, w) =>
      if i < |r.stack| then r.(live := Saved(Hydrated(r.stack[i], w), w), stack := Without(r.stack, i)) else r
    case Copy(i, w) =>
      if i < |r.stack| && Waits(r.stack[i]) then r.(live := Saved(r.stack[i], w), copies := r.copies + 1) else r
    case Drop(i) => if i < |r.stack| then r.(stack := Without(r.stack, i)) else r
    case Recover(copied, writes, reply, w) =>
      if !r.live.skill.NoSkill? then r
      else
        var o := Recovered(RecoveryBase(r, copied), writes, reply, w);
        Counted(r.(live := o.stored), o.calls, Waits(o.stored), copied && r.stack != [])
    case Brain(t) =>
      var o := Drive(r.active, t);
      Counted(r.(live := if Executes(r.active, t) then NO_SESSION else r.live, active := o.active), o.calls,
              !(!t.anew && WaitsBrain(r.active)) && WaitsBrain(o.active), false)
    case Forget => r.(active := None)
  }

  function HappenAll(r: Run, es: seq<Event>): Run
    decreases |es|
  {
    if es == [] then r else HappenAll(Happen(r, es[0]), es[1..])
  }

  // ---- drafts stay sound, wherever they are ------------------------------

  /** Writes keep a draft sound, and its phase. */
  lemma {:induction false} WroteSound(s: Session, writes: seq<(Key, string)>, clean: string -> string)
    requires s.skill.Trader? && Sound(s)
    ensures var r := Wrote(s, writes, clean); Sound(r) && r.skill.Trader? && r.phase == s.phase
    decreases |writes|
  {
    hide SetField, Complete, Backed;
    if writes != [] {
      var (k, v) := writes[0];
      WriteBacked(s, k, v, clean);
      WroteSound(SetField(s, k, v, clean), writes[1..], clean);
    }
  }

  lemma HydratedSound(s: Session, w: World)
    requires s.skill.Trader? && Sound(s)
    ensures Sound(Hydrated(s, w)) && Hydrated(s, w).skill.Trader? && Hydrated(s, w).phase == s.phase
  {
    hide Hydrated, Complete, Backed;
    HydratedBacked(s, w);
    BackedIsTrader(Hydrated(s, w));
  }

  lemma SavedSound(s: Session, w: World)
    requires Sound(s)
    ensures Sound(Saved(s, w)) && (s.skill.Trader? ==> Saved(s, w).phase == s.phase && Saved(s, w).skill.Trader?)
    ensures s.skill.NoSkill? ==> Saved(s, w) == NO_SESSION
    ensures Waits(Saved(s, w)) <==> Waits(s)
    ensures s.skill.NoSkill? || s.skill.Trader?
  {
    hide Complete, Backed;
    NothingSound();
    if !s.skill.NoSkill? { BackedIsTrader(s); SavedBacked(s, w); }
  }

  lemma FreshSound()
    ensures Sound(FRESH_SESSION) && !Waits(FRESH_SESSION) && FRESH_SESSION.skill.Trader?
  {}

  lemma GivenSound(stored: Session, a: Act)
    requires Sound(stored) && Given(stored, a).Some?
    ensures var s := Given(stored, a).value;
            Sound(s) && (s.skill.NoSkill? || s.skill.Trader?) && (Waits(s) ==> s.skill.Trader? && Waits(stored))
  {
    hide Saved, Hydrated, Wrote, Sound;
    SavedSound(stored, a.w);
    SoundWaits(stored);
    FreshSound();
    if a.Extract? {
      var base := Base(stored, a.bridged, a.w);
      WroteSound(base, a.writes, a.w.clean);
      HydratedSound(Wrote(base, a.writes, a.w.clean), a.w);
      SamePhase(Wrote(base, a.writes, a.w.clean), base);
      SamePhase(Extracted(stored, a.bridged, a.writes, a.w), base);
    }
  }

  lemma SamePhase(a: Session, b: Session)
    ensures a.phase == b.phase ==> Waits(a) == Waits(b)
  {}

  lemma SoundWaits(s: Session)
    requires Sound(s)
    ensures Waits(s) ==> s.skill.Trader?
  {}

  /**
   * An act keeps the live draft sound; tools are called only for a draft that waited, with all four fields, and then it
   * waits no more.
   */
  lemma ActedSound(stored: Session, a: Act)
    requires Sound(stored)
    ensures var o := Acted(stored, a);
            && Sound(o.stored) && (forall i :: 0 <= i < |o.calls| ==> Whole(o.calls[i]))
            && (o.calls != [] ==> Waits(stored) && !Waits(o.stored))
  {
    hide Handled, Given, Sound, Ready, Waits;
    if Given(stored, a).Some? {
      var s := Given(stored, a).value;
      GivenSound(stored, a);
      HandedOver(s, a.reply, a.w);
    }
  }

  /** A sound session that is handed to the skill creates only when it waits, and then with all four fields. */
  lemma HandedOver(s: Session, reply: Reply, w: World)
    requires Sound(s) && (s.skill.NoSkill? || s.skill.Trader?)
    ensures var o := Handled(s, reply, w);
            && Sound(o.stored) && (forall i :: 0 <= i < |o.calls| ==> Whole(o.calls[i]))
            && (o.calls != [] ==> Waits(s) && !Waits(o.stored))
  {
    hide Handled, Sound, Ready, MadeFor;
    TurnSound(s, reply, w);
    var calls := Handled(s, reply, w).calls;
    if |calls| > 1 { assert calls[1] == calls[1..][0]; }
  }

  /** A recovered draft is sound, and calls no tool. */
  lemma RecoveredSound(base: Session, writes: seq<(Key, string)>, reply: Reply, w: World)
    requires Sound(base) && base.skill.Trader?
    ensures Sound(Recovered(base, writes, reply, w).stored) && Recovered(base, writes, reply, w).calls == []
  {
    hide Handled, Saved, Hydrated, Wrote, Backed, Complete, Missing, FieldValue;
    WroteSound(base, writes, w.clean);
    SavedSound(Wrote(base, writes, w.clean), w);
    HydratedSound(Saved(Wrote(base, writes, w.clean), w), w);
    var h := Hydrated(Saved(Wrote(base, writes, w.clean), w), w);
    if Missing(h) {
      HandedOver(h, reply, w);
      if Waits(h) { CompleteReads(h); }
    } else {
      var q := h.(phase := if FieldValue(h, AutoStart) == TRUE then AwaitStart else AwaitCreate);
      BackedComplete(h);
      Rephased(h, q.phase);
      SavedSound(q, w);
    }
  }

  ghost predicate AllSound(stack: seq<Session>) {
    forall i :: 0 <= i < |stack| ==> stack[i].skill.Trader? && Sound(stack[i])
  }

  ghost predicate AllWhole(calls: seq<Call>) {
    forall i :: 0 <= i < |calls| ==> Whole(calls[i])
  }

  function Weight(s: Session): nat { if Waits(s) then 1 else 0 }

  function BrainWeight(active: Option<Active>): nat { if WaitsBrain(active) then 1 else 0 }

  function Waiting(stack: seq<Session>): nat {
    if stack == [] then 0 else Weight(stack[0]) + Waiting(stack[1..])
  }

  lemma {:induction false} WaitingAppend(a: seq<Session>, b: seq<Session>)
    ensures Waiting(a + b) == Waiting(a) + Waiting(b)
  {
    if a == [] {
      assert a + b == b;
    } else {
      assert (a + b)[1..] == a[1..] + b;
      WaitingAppend(a[1..], b);
    }
  }

  lemma WaitingSnoc(a: seq<Session>, s: Session)
    ensures Waiting(a + [s]) == Waiting(a) + Weight(s)
  {
    WaitingAppend(a, [s]);
    assert [s][1..] == [];
  }

  lemma WaitingWithout(stack: seq<Session>, i: nat)
    requires i < |stack|
    ensures Waiting(stack) == Waiting(Without(stack, i)) + Weight(stack[i])
  {
    WaitingSnoc(stack[..i], stack[i]);
    WaitingAppend(stack[..i] + [stack[i]], stack[i + 1..]);
    WaitingAppend(stack[..i], stack[i + 1..]);
    assert stack == stack[..i] + [stack[i]] + stack[i + 1..];
  }

  /** Every attempt so far and every draft that waits, wherever it is, is paid for by a prompt or a copy. */
  predicate Paid(r: Run) {
    r.attempts + Weight(r.live) + BrainWeight(r.active) + Waiting(r.stack) <= r.prompts + r.copies
  }

  /** All drafts are sound, and all attempts are paid for. */
  ghost predicate InOrder(r: Run) {
    Sound(r.live) && AllSound(r.stack) && Paid(r)
  }

  lemma LiveInOrder(r: Run, a: Act)
    requires InOrder(r)
    ensures InOrder(Happen(r, Live(a)))
  {
    hide Acted, Sound, Whole, Waits;
    ActedSound(r.live, a);
  }

  lemma RecoverInOrder(r: Run, copied: bool, writes: seq<(Key, string)>, reply: Reply, w: World)
    requires InOrder(r)
    ensures InOrder(Happen(r, Recover(copied, writes, reply, w)))
  {
    hide Recovered, Sound, Waits, Waiting;
    var base := RecoveryBase(r, copied);
    FreshSound();
    if r.live.skill.NoSkill? {
      NotLive(r.live);
      RecoveredSound(base, writes, reply, w);
    }
  }

  lemma NotLive(s: Session)
    requires Sound(s) && s.skill.NoSkill?
    ensures !Waits(s)
  {}

  lemma BrainInOrder(r: Run, t: BrainTurn)
    requires InOrder(r)
    ensures InOrder(Happen(r, Brain(t)))
  {
    hide Sound, Waits, Waiting, Drive, Executes, ConfirmsActive, Enough, Whole, WaitsActive;
    NothingSound();
    DriveCreatesIff(r.active, t);
    if Drive(r.active, t).calls != [] { ConfirmedWaits(r.active, t); }
    if !(!t.anew && WaitsBrain(r.active)) {} else { BrainGone(r.active, t); }
  }

  /** A turn that confirms the brain's draft found it waiting. */
  lemma ConfirmedWaits(active: Option<Active>, t: BrainTurn)
    requires Executes(active, t) && ConfirmsActive(Driven(active, t).value, t.reply)
    ensures !t.anew && WaitsBrain(active)
  {
    hide Gathered;
  }

  lemma BrainGone(active: Option<Active>, t: BrainTurn)
    ensures !t.anew && WaitsBrain(active) ==> BrainWeight(active) == 1
  {}

  lemma SoundWithout(stack: seq<Session>, i: nat)
    requires i < |stack| && AllSound(stack)
    ensures AllSound(Without(stack, i)) && Sound(stack[i]) && stack[i].skill.Trader?
  {
    hide Sound;
  }

  lemma SoundSnoc(stack: seq<Session>, s: Session)
    requires AllSound(stack) && Sound(s) && s.skill.Trader?
    ensures AllSound(stack + [s])
  {
    hide Sound;
  }

  lemma ParkedSound(s: Session, w: World)
    requires Sound(s)
    ensures Sound(Parked(s, w)) && Weight(Parked(s, w)) == Weight(s)
    ensures !s.skill.NoSkill? ==> Parked(s, w).skill.Trader?
  {
    hide Saved, Sound, Waits;
    SavedSound(s, w);
    SavedSound(Saved(s, w), w);
  }

  /** Nothing that happens puts a draft out of order. */
  lemma HappenInOrder(r: Run, e: Event)
    requires InOrder(r)
    ensures InOrder(Happen(r, e))
  {
    hide Acted, Drive, Recovered, Saved, Hydrated, Parked, Sound, AllSound, Waiting, Waits, Without, Executes,
         WaitsBrain;
    NothingSound();
    match e
    case Live(a) => LiveInOrder(r, a);
    case Cancel =>
    case Suspend(w) =>
      if !r.live.skill.NoSkill? {
        ParkedSound(r.live, w);
        WaitingSnoc(r.stack, Parked(r.live, w));
        SoundSnoc(r.stack, Parked(r.live, w));
      }
    case Move(i, w) =>
      if i < |r.stack| {
        SoundWithout(r.stack, i);
        WaitingWithout(r.stack, i);
        SavedSound(r.stack[i], w);
      }
    case Resume(i, w) =>
      if i < |r.stack| {
        SoundWithout(r.stack, i);
        WaitingWithout(r.stack, i);
        HydratedSound(r.stack[i], w);
        SavedSound(Hydrated(r.stack[i], w), w);
        SamePhase(Hydrated(r.stack[i], w), r.stack[i]);
      }
    case Copy(i, w) =>
      if i < |r.stack| {
        SoundWithout(r.stack, i);
        SavedSound(r.stack[i], w);
      }
    case Drop(i) =>
      if i < |r.stack| {
        SoundWithout(r.stack, i);
        WaitingWithout(r.stack, i);
      }
    case Recover(copied, writes, reply, w) => RecoverInOrder(r, copied, writes, reply, w);
    case Brain(t) => BrainInOrder(r, t);
    case Forget => ForgetInOrder(r);
  }

  lemma ForgetInOrder(r: Run)
    requires InOrder(r)
    ensures InOrder(Happen(r, Forget))
  {
    hide Sound, Waits, Waiting;
  }

  /**
   * Over any run, whatever is suspended, moved, copied, recovered or driven by the brain: every waiting session, live
   * or suspended, is complete; and the attempts, together with the drafts that still wait, never outnumber the
   * prompts and the copies.
   */
  lemma {:induction false} RunSound(r: Run, es: seq<Event>)
    requires InOrder(r)
    ensures InOrder(HappenAll(r, es))
    ensures HappenAll(r, es).attempts <= HappenAll(r, es).prompts + HappenAll(r, es).copies
    decreases |es|
  {
    hide InOrder, Happen;
    if es == [] {
      PaidMeans(r);
    } else {
      HappenInOrder(r, es[0]);
      RunSound(Happen(r, es[0]), es[1..]);
    }
  }

  lemma PaidMeans(r: Run)
    requires InOrder(r)
    ensures r.attempts <= r.prompts + r.copies
  {}

  // ---- which calls have all four fields -----------------------------------

  /** A turn of the brain that confirms a draft whose required fields are not all there any more. */
  predicate Spoils(r: Run, e: Event) {
    && e.Brain? && Executes(r.active, e.turn) && ConfirmsActive(Driven(r.active, e.turn).value, e.turn.reply)
    && !Enough(Driven(r.active, e.turn).value.collected, e.turn.w)
  }

  predicate NeverSpoils(r: Run, es: seq<Event>)
    decreases |es|
  {
    es == [] || (!Spoils(r, es[0]) && NeverSpoils(Happen(r, es[0]), es[1..]))
  }

  lemma WholeAppend(a: seq<Call>, b: seq<Call>)
    ensures AllWhole(a + b) <==> AllWhole(a) && AllWhole(b)
  {
    hide Whole;
    if AllWhole(a + b) {
      assert forall i :: 0 <= i < |a| ==> (a + b)[i] == a[i];
      assert forall i :: 0 <= i < |b| ==> (a + b)[|a| + i] == b[i];
    }
  }

  lemma WholeHead(calls: seq<Call>)
    requires |calls| >= 1 && (calls[1..] == [] || exists id :: calls[1..] == [Start(id)])
    ensures AllWhole(calls) <==> Whole(calls[0])
  {
    assert calls == [calls[0]] + calls[1..];
    WholeAppend([calls[0]], calls[1..]);
  }

  /** What one event adds to the calls. */
  lemma HappenWholeIff(r: Run, e: Event)
    requires InOrder(r)
    ensures AllWhole(Happen(r, e).calls) <==> AllWhole(r.calls) && !Spoils(r, e)
  {
    hide Acted, Drive, Recovered, Saved, Hydrated, Parked, Sound, Whole, Waits, Without, Enough, Executes, WaitsBrain;
    match e
    case Live(a) =>
      ActedSound(r.live, a);
      WholeAppend(r.calls, Acted(r.live, a).calls);
    case Recover(copied, writes, reply, w) =>
      FreshSound();
      if r.live.skill.NoSkill? {
        RecoveredSound(RecoveryBase(r, copied), writes, reply, w);
        WholeAppend(r.calls, []);
      }
    case Brain(t) =>
      DriveCreatesIff(r.active, t);
      WholeAppend(r.calls, Drive(r.active, t).calls);
      if Drive(r.active, t).calls != [] { WholeHead(Drive(r.active, t).calls); }
    case _ =>
  }

  /**
   * Over any run, every create call has all four fields if and only if the brain never confirms a draft when, after its
   * merge, the name is not said, or an identifier is neither said nor found by the name said for it.
   */
  lemma {:induction false} RunWholeIff(r: Run, es: seq<Event>)
    requires InOrder(r)
    ensures AllWhole(HappenAll(r, es).calls) <==> AllWhole(r.calls) && NeverSpoils(r, es)
    decreases |es|
  {
    hide InOrder, Happen, Spoils, AllWhole;
    if es != [] {
      HappenInOrder(r, es[0]);
      HappenWholeIff(r, es[0]);
      RunWholeIff(Happen(r, es[0]), es[1..]);
    }
  }

  /** From nothing at all: every attempt is paid for, and every call is whole unless the brain spoils one. */
  lemma FromNothing(es: seq<Event>)
    ensures InOrder(NEW_RUN)
    ensures var t := HappenAll(NEW_RUN, es);
            t.attempts <= t.prompts + t.copies && (AllWhole(t.calls) <==> NeverSpoils(NEW_RUN, es))
  {
    hide HappenAll, NeverSpoils;
    NothingSound();
    RunSound(NEW_RUN, es);
    RunWholeIff(NEW_RUN, es);
  }

  /** What the brain's turns extract never takes a required field away, and no live entity is called absent. */
  ghost predicate Careful(es: seq<Event>) {
    forall i :: 0 <= i < |es| && es[i].Brain? ==> Harmless(es[i].turn.data) && Ordinary(es[i].turn.w)
  }

  lemma SaidIsEnough(collected: Collected, w: World)
    requires forall k :: Required(k) ==> Said(collected, k) != ""
    ensures Enough(collected, w)
  {
    hide Said;
    assert Required(Name) && Required(ExchangeId) && Required(ModelId) && Required(StrategyId);
  }

  lemma DrivenSound(active: Option<Active>, t: BrainTurn)
    requires active.Some? ==> SoundActive(active.value)
    requires Harmless(t.data) && Driven(active, t).Some?
    ensures SoundActive(Driven(active, t).value)
  {
    hide Said, Gathered, Harmless, Required;
    var d := Driven(active, t).value;
    if WaitsActive(d) {
      forall k | Required(k) ensures Said(d.collected, k) != "" { GatheredSays(active.value.collected, t.data, k); }
    }
  }

  lemma DriveSound(active: Option<Active>, t: BrainTurn)
    requires active.Some? ==> SoundActive(active.value)
    requires Harmless(t.data) && Ordinary(t.w)
    ensures Drive(active, t).active.Some? ==> SoundActive(Drive(active, t).active.value)
  {
    hide SoundActive, Harmless, Ordinary, Driven, Executing, AllGiven;
    if Driven(active, t).Some? {
      DrivenSound(active, t);
      ExecutingSound(Driven(active, t).value, t.reply, t.w);
    }
  }

  /** Then no turn spoils anything: every create call of the run has all four fields. */
  lemma {:induction false} CarefulRunIsWhole(r: Run, es: seq<Event>)
    requires InOrder(r) && AllWhole(r.calls) && (r.active.Some? ==> SoundActive(r.active.value)) && Careful(es)
    ensures AllWhole(HappenAll(r, es).calls)
    decreases |es|
  {
    hide InOrder, AllWhole, SoundActive, Harmless, Ordinary, Happen, Spoils;
    if es != [] {
      HappenInOrder(r, es[0]);
      HappenWholeIff(r, es[0]);
      CarefulEvent(r, es[0]);
      CarefulRunIsWhole(Happen(r, es[0]), es[1..]);
    }
  }

  lemma CarefulEvent(r: Run, e: Event)
    requires r.active.Some? ==> SoundActive(r.active.value)
    requires e.Brain? ==> Harmless(e.turn.data) && Ordinary(e.turn.w)
    ensures !Spoils(r, e)
    ensures Happen(r, e).active.Some? ==> SoundActive(Happen(r, e).active.value)
  {
    hide SoundActive, Harmless, Ordinary, Acted, Drive, Recovered, Driven, Enough, ConfirmsActive;
    if e.Brain? {
      DriveSound(r.active, e.turn);
      if Spoils(r, e) { CarefulTurn(r.active, e.turn); }
    }
  }

  lemma CarefulTurn(active: Option<Active>, t: BrainTurn)
    requires active.Some? ==> SoundActive(active.value)
    requires Harmless(t.data) && Driven(active, t).Some? && ConfirmsActive(Driven(active, t).value, t.reply)
    ensures Enough(Driven(active, t).value.collected, t.w)
  {
    hide Driven, Harmless, Enough, Required, Said;
    DrivenSound(active, t);
    SaidIsEnough(Driven(active, t).value.collected, t.w);
  }

  // ---- for whom the tools are called --------------------------------------

  /** The session that an event hands to the skill while a reply may confirm it, and the world it meets. */
  ghost function HandedIn(r: Run, e: Event): Option<(Session, World)> {
    match e
    case Live(a) => if Given(r.live, a).Some? then Some((Given(r.live, a).value, a.w)) else None
    case Brain(t) => if Executes(r.active, t) then Some((Handed(Driven(r.active, t).value), t.w)) else None
    case _ => None
  }

  /**
   * The tools that are called are one creation, made for the session handed over, and at most the start of its
   * result.
   */
  ghost predicate CallsFor(calls: seq<Call>, handed: Option<(Session, World)>) {
    calls == [] || (handed.Some? && MadeFor(calls[0], handed.value.0, handed.value.1)
                    && (calls[1..] == [] || (handed.value.1.created.Made?
                                             && calls[1..] == [Start(handed.value.1.created.id)])))
  }

  lemma TurnCallsFor(s: Session, reply: Reply, w: World)
    requires s.skill.NoSkill? || s.skill.Trader?
    ensures CallsFor(Handled(s, reply, w).calls, Some((s, w)))
  {
    hide Handled, Sound, Ready, MadeFor, Whole;
    TurnSound(s, reply, w);
  }

  lemma DriveCallsFor(active: Option<Active>, t: BrainTurn)
    ensures Drive(active, t).calls != [] ==>
              Executes(active, t) && CallsFor(Drive(active, t).calls, Some((Handed(Driven(active, t).value), t.w)))
  {
    hide Handled, Handed, Saved, Driven, AllGiven, TakenBack, CallsFor;
    if Executes(active, t) {
      HandedIsTrader(Driven(active, t).value);
      TurnCallsFor(Handed(Driven(active, t).value), t.reply, t.w);
    }
  }

  lemma HappenCallsFor(r: Run, e: Event)
    requires InOrder(r)
    ensures r.calls <= Happen(r, e).calls && CallsFor(Happen(r, e).calls[|r.calls|..], HandedIn(r, e))
  {
    hide Drive, Recovered, Saved, Hydrated, Parked, Sound, Waits, Without, Executes, WaitsBrain, Handled, MadeFor,
         Given;
    match e
    case Live(a) =>
      if Given(r.live, a).Some? {
        GivenSound(r.live, a);
        TurnCallsFor(Given(r.live, a).value, a.reply, a.w);
      }
    case Recover(copied, writes, reply, w) =>
      FreshSound();
      if r.live.skill.NoSkill? { RecoveredSound(RecoveryBase(r, copied), writes, reply, w); }
    case Brain(t) => DriveCallsFor(r.active, t);
    case _ =>
  }

  lemma {:induction false} HappenAllSplit(r: Run, es: seq<Event>, k: nat)
    requires k <= |es|
    ensures HappenAll(r, es) == HappenAll(HappenAll(r, es[..k]), es[k..])
    decreases |es|
  {
    hide Happen;
    if k == 0 {
      assert es[..0] == [] && es[0..] == es;
    } else {
      HappenAllSplit(Happen(r, es[0]), es[1..], k - 1);
      assert es[..k][1..] == es[1..][..k - 1] && es[1..][k - 1..] == es[k..];
    }
  }

  /**
   * Over any run, each event adds its calls to those before, and these are made for the very session that the event
   * handed over: with its exchange, its model and its strategy.
   */
  lemma RunCallsFor(r: Run, es: seq<Event>, k: nat)
    requires InOrder(r) && k < |es|
    ensures var before := HappenAll(r, es[..k]);
            var after := HappenAll(r, es[..k + 1]);
            before.calls <= after.calls && CallsFor(after.calls[|before.calls|..], HandedIn(before, es[k]))
  {
    hide InOrder, Happen, CallsFor, HandedIn;
    var before := HappenAll(r, es[..k]);
    RunSound(r, es[..k]);
    HappenCallsFor(before, es[k]);
    HappenAllSplit(r, es[..k + 1], k);
    assert es[..k + 1][..k] == es[..k] && es[..k + 1][k..] == [es[k]];
    assert [es[k]][1..] == [];
    assert HappenAll(before, [es[k]]) == HappenAll(Happen(before, es[k]), []);
  }

  // ---- a name that is taken away before the yes ---------------------------

  /** All that a draft needs, said at once. */
  const DRAFT: Collected := map[Name := "n", ExchangeId := "e", ModelId := "m", StrategyId := "s"]

  const SILENCE := Reply(false, false, false)
  const YES := Reply(true, false, false)

  lemma DraftSays()
    ensures Said(Filtered(DRAFT), Name) == "n" && Said(Filtered(DRAFT), ExchangeId) == "e"
    ensures Said(Filtered(DRAFT), ModelId) == "m" && Said(Filtered(DRAFT), StrategyId) == "s"
  {
    assert Trim("n") == "n" && Trim("e") == "e" && Trim("m") == "m" && Trim("s") == "s";
  }

  /** A draft that has enough and is accepted waits after a turn that does not confirm. */
  lemma DraftWaits(a: Active, w: World)
    requires Enough(a.collected, w) && w.valid && !WaitsActive(a)
    ensures var o := Executing(a, SILENCE, w); o.calls == [] && o.active.Some? && WaitsActive(o.active.value)
  {
    hide Handled, Handed, Saved, Enough, Synced, Hydrated, FieldValue, Sound, Ready, TakenBack, Findable, Refers,
         InStep;
    HandedIsTrader(a);
    HandedReady(a, w);
    SyncedReady(Handed(a), w);
    SyncedPhase(Handed(a));
    HydratedEffect(Synced(Handed(a)), w);
    ReadyFinds(Synced(Handed(a)), w);
    TurnSound(Handed(a), SILENCE, w);
    WaitsIff(Handed(a), SILENCE, w);
    StoredWaits(Handled(Handed(a), SILENCE, w).stored, w);
    NothingSound();
    SoundWaits(Saved(Handled(Handed(a), SILENCE, w).stored, w));
    TakenBackPhase(a, Saved(Handled(Handed(a), SILENCE, w).stored, w));
  }

  lemma ReadyFinds(s: Session, w: World)
    requires Ready(s, w)
    ensures FieldValue(s, Name) != "" && Findable(s, ExchangeId, ExchangeName, w.exchanges)
    ensures Findable(s, ModelId, ModelName, w.models) && Findable(s, StrategyId, StrategyName, w.strategies)
  {
    hide FieldValue, Findable;
  }

  /**
   * The condition is no mere caution. A draft is said and prompted for; then the reply is a yes, and the model
   * extracts a blank name with it: the create tool is called without a name.
   */
  lemma BlankNameCreates(w: World)
    requires w.valid
    ensures var full := Brain(BrainTurn(true, [DRAFT], Execute, SILENCE, w));
            var yes := Brain(BrainTurn(false, [map[Name := ""]], Execute, YES, w));
            var t := HappenAll(NEW_RUN, [full, yes]);
            t.prompts == 1 && t.attempts == 1 && |t.calls| >= 1 && t.calls[0].Create? && t.calls[0].name == ""
  {
    hide Said, Filtered, Executing, Enough, Whole, Handed;
    var full := BrainTurn(true, [DRAFT], Execute, SILENCE, w);
    var yes := BrainTurn(false, [map[Name := ""]], Execute, YES, w);
    GatheredOne(map[], DRAFT);
    DraftSays();
    DraftEnough(w);
    var a := Active(Collecting, map[] + Filtered(DRAFT));
    assert Driven(None, full) == Some(a);
    DraftWaits(a, w);
    DriveCreatesIff(None, full);
    var r1 := Happen(NEW_RUN, Brain(full));
    var active := r1.active;
    GatheredOne(active.value.collected, map[Name := ""]);
    BlankSaysNothing(active.value.collected);
    DriveCreatesIff(active, yes);
    TwoEvents(NEW_RUN, Brain(full), Brain(yes));
  }

  lemma TwoEvents(r: Run, a: Event, b: Event)
    ensures HappenAll(r, [a, b]) == Happen(Happen(r, a), b)
  {
    hide Happen;
    assert [a, b][1..] == [b] && [b][1..] == [];
    var next := Happen(r, a);
    assert HappenAll(next, [b]) == HappenAll(Happen(next, b), []);
  }

  lemma GatheredOne(collected: Collected, data: Collected)
    ensures Gathered(collected, [data]) == collected + Filtered(data)
  {
    hide Filtered;
    assert [data][1..] == [];
  }

  lemma DraftEnough(w: World)
    ensures Enough(map[] + Filtered(DRAFT), w)
  {
    hide Said, Filtered;
    DraftSays();
    assert map[] + Filtered(DRAFT) == Filtered(DRAFT);
  }

  lemma BlankSaysNothing(collected: Collected)
    ensures Said(collected + Filtered(map[Name := ""]), Name) == ""
  {}

  // ---- what the events do -------------------------------------------------

  function Writes(writes: seq<(Key, string)>): seq<Change> {
    seq(|writes|, i requires 0 <= i < |writes| => Write(writes[i].0, writes[i].1))
  }

  /** Extracted fields are written one after the other, so each key reads as the last one written to it. */
  lemma {:induction false} WroteIsApplied(s: Session, writes: seq<(Key, string)>, clean: string -> string)
    ensures Wrote(s, writes, clean) == ApplyAll(s, Writes(writes), clean)
    decreases |writes|
  {
    hide SetField;
    if writes != [] {
      assert Writes(writes)[1..] == Writes(writes[1..]);
      WroteIsApplied(SetField(s, writes[0].0, writes[0].1, clean), writes[1..], clean);
    }
  }

  /**
   * What is handed to the skill: a new session for a turn begun anew, the stored one otherwise; and after an extraction
   * the stored one, or on the bridge a new one if there is none, with what was extracted written to it.
   */
  lemma GivenIs(stored: Session, a: Act)
    requires Sound(stored)
    ensures a.Turn? ==> Given(stored, a) == Some(if a.anew then FRESH_SESSION else Saved(stored, a.w))
    ensures a.Extract? && stored.skill.NoSkill? ==>
              (Given(stored, a).Some? <==> a.bridged)
              && (a.bridged ==> Given(stored, a) ==
                                Some(Hydrated(ApplyAll(FRESH_SESSION, Writes(a.writes), a.w.clean), a.w)))
    ensures a.Extract? && stored.skill.Trader? ==>
              var s := ApplyAll(Saved(stored, a.w), Writes(a.writes), a.w.clean);
              Given(stored, a) == Some(if a.bridged then Hydrated(s, a.w) else s)
  {
    hide Saved, Hydrated, Wrote, ApplyAll, Backed, Complete;
    if a.Extract? { WroteIsApplied(Base(stored, a.bridged, a.w), a.writes, a.w.clean); }
  }

  /** An event that brings a snapshot back without removing it. */
  ghost predicate BringsCopy(r: Run, e: Event) {
    || (e.Copy? && e.index < |r.stack| && Waits(r.stack[e.index]))
    || (e.Recover? && e.copied && r.stack != [] && r.live.skill.NoSkill?)
  }

  /**
   * What is counted: an attempt for each create call, a copy for each snapshot that comes back without being removed,
   * and a prompt exactly when a session comes to wait that did not.
   */
  lemma HappenCounts(r: Run, e: Event)
    requires InOrder(r)
    ensures var n := Happen(r, e);
            && n.attempts == r.attempts + (if IsCreate(n.calls[|r.calls|..]) then 1 else 0)
            && n.copies == r.copies + (if BringsCopy(r, e) then 1 else 0)
            && n.prompts ==
               r.prompts + (if e.Live? && !Waits(r.live) && Waits(n.live) then 1
                            else if e.Recover? && r.live.skill.NoSkill? && Waits(n.live) then 1
                            else if e.Brain? && !(!e.turn.anew && WaitsBrain(r.active)) && WaitsBrain(n.active) then 1
                            else 0)
  {
    hide Acted, Drive, Recovered, Saved, Hydrated, Parked, Sound, Waits, Without, Executes, WaitsBrain, Whole;
  }

  /** What a recovery leaves when nothing is missing: the draft as it was written and looked up, waiting at once. */
  lemma RecoveryWaits(base: Session, writes: seq<(Key, string)>, reply: Reply, w: World)
    requires Sound(base) && base.skill.Trader?
    ensures var h := Hydrated(Saved(ApplyAll(base, Writes(writes), w.clean), w), w);
            if Missing(h) then Recovered(base, writes, reply, w) == Handled(h, reply, w)
            else
              var o := Recovered(base, writes, reply, w);
              o.calls == [] && o.stored == Saved(h.(phase := o.stored.phase), w)
              && o.stored.phase == if FieldValue(h, AutoStart) == "true" then AwaitStart else AwaitCreate
  {
    hide Saved, Hydrated, Wrote, ApplyAll, Backed, Complete, Missing, FieldValue, Handled;
    WroteIsApplied(base, writes, w.clean);
    WroteSound(base, writes, w.clean);
    SavedSound(Wrote(base, writes, w.clean), w);
    HydratedSound(Saved(Wrote(base, writes, w.clean), w), w);
    var h := Hydrated(Saved(Wrote(base, writes, w.clean), w), w);
    if !Missing(h) {
      BackedComplete(h);
      var p := if FieldValue(h, AutoStart) == TRUE then AwaitStart else AwaitCreate;
      Rephased(h, p);
      SavedSound(h.(phase := p), w);
    }
  }

  /** A turn of the brain changes its own draft, gives up the live session when it executes, and adds its calls. */
  lemma BrainTurnDoes(r: Run, t: BrainTurn)
    ensures var (n, o) := (Happen(r, Brain(t)), Drive(r.active, t));
            && n.active == o.active && n.stack == r.stack && n.calls == r.calls + o.calls
            && n.live == if Executes(r.active, t) then NO_SESSION else r.live
  {
    hide Drive, Executes;
  }

  /** Suspending, moving, resuming, copying and dropping: where the drafts go. */
  lemma WhereDraftsGo(r: Run, i: nat, w: World)
    requires i < |r.stack|
    ensures Happen(r, Suspend(w)) ==
            if r.live.skill.NoSkill? then r
            else r.(live := NO_SESSION, stack := r.stack + [Saved(Saved(r.live, w), w)])
    ensures Happen(r, Cancel) == r.(live := NO_SESSION) && Happen(r, Forget) == r.(active := None)
    ensures var rest := r.stack[..i] + r.stack[i + 1..];
            && Happen(r, Drop(i)) == r.(stack := rest)
            && Happen(r, Move(i, w)) == r.(live := Saved(r.stack[i], w), stack := rest)
            && Happen(r, Resume(i, w)) == r.(live := Saved(Hydrated(r.stack[i], w), w), stack := rest)
            && Happen(r, Copy(i, w)).live == (if Waits(r.stack[i]) then Saved(r.stack[i], w) else r.live)
            && Happen(r, Copy(i, w)).stack == r.stack
  {
    hide Saved, Hydrated;
  }

  // ---- copies ------------------------------------------------------------

  predicate Copies(e: Event) { e.Copy? || (e.Recover? && e.copied) }

  lemma {:induction false} CopiesCount(r: Run, es: seq<Event>)
    requires forall i :: 0 <= i < |es| ==> !Copies(es[i])
    ensures HappenAll(r, es).copies == r.copies
    decreases |es|
  {
    hide Acted, Drive, Recovered, Saved, Hydrated, Parked, Waits, Executes, WaitsBrain;
    if es != [] {
      assert !Copies(es[0]);
      CopiesCount(Happen(r, es[0]), es[1..]);
    }
  }

  /** Where nothing is copied back, every attempt uses up a prompt of its own. */
  lemma NoCopiesNoMore(r: Run, es: seq<Event>)
    requires InOrder(r) && r.copies == 0 && forall i :: 0 <= i < |es| ==> !Copies(es[i])
    ensures HappenAll(r, es).attempts <= HappenAll(r, es).prompts
  {
    hide InOrder;
    RunSound(r, es);
    CopiesCount(r, es);
  }

  function Repeated<T>(s: seq<T>, times: nat): seq<T> {
    if times == 0 then [] else s + Repeated(s, times - 1)
  }

  /** Copying a waiting draft back and confirming it: one more attempt, no prompt, and the draft still on the stack. */
  lemma CopyCreates(r: Run, copied: World, reply: Reply, w: World)
    requires |r.stack| == 1 && Sound(r.stack[0]) && r.stack[0].skill.Trader? && Waits(r.stack[0]) &&
             Confirms(r.stack[0], reply)
    ensures var t := Happen(Happen(r, Copy(0, copied)), Live(Turn(false, reply, w)));
            && t.stack == r.stack && t.prompts == r.prompts
            && t.attempts == r.attempts + 1 && t.copies == r.copies + 1
            && |t.calls| > |r.calls| && t.calls[|r.calls|].Create? && Whole(t.calls[|r.calls|])
  {
    hide Handled, Saved, Sound, MadeFor, Ready;
    var q := r.stack[0];
    SavedSound(q, copied);
    SavedSound(Saved(q, copied), w);
    TurnSound(Saved(Saved(q, copied), w), reply, w);
  }

  /**
   * So the copies are no mere slack: every copy of a lone waiting draft that is confirmed creates again, and a single
   * prompt pays for any number of attempts.
   */
  lemma {:induction false} CopyCreatesAgain(r: Run, copied: World, reply: Reply, w: World, times: nat)
    requires |r.stack| == 1 && Sound(r.stack[0]) && r.stack[0].skill.Trader? && Waits(r.stack[0]) &&
             Confirms(r.stack[0], reply)
    ensures var t := HappenAll(r, Repeated([Copy(0, copied), Live(Turn(false, reply, w))], times));
            && t.attempts == r.attempts + times && t.copies == r.copies + times && t.prompts == r.prompts
            && t.stack == r.stack
    decreases times
  {
    hide Happen, Sound;
    if times > 0 {
      var pair := [Copy(0, copied), Live(Turn(false, reply, w))];
      var es := Repeated(pair, times);
      CopyCreates(r, copied, reply, w);
      var t := Happen(Happen(r, es[0]), es[1]);
      assert es[1..][0] == es[1] && es[1..][1..] == Repeated(pair, times - 1);
      CopyCreatesAgain(t, copied, reply, w, times - 1);
    }
  }

  /** From any draft that waits alone: one prompt is enough for as many attempts as there are copies. */
  lemma OnePromptManyAttempts(r: Run, w: World, reply: Reply, times: nat)
    requires InOrder(r) && r.stack == [] && r.live.skill.Trader? && Waits(r.live) && reply.yes
    ensures var es := [Suspend(w)] + Repeated([Copy(0, w), Live(Turn(false, reply, w))], times);
            HappenAll(r, es).attempts == r.attempts + times && HappenAll(r, es).prompts == r.prompts
  {
    hide Sound, Saved, HappenAll, Complete;
    SavedSound(r.live, w);
    SavedSound(Saved(r.live, w), w);
    var rest := Repeated([Copy(0, w), Live(Turn(false, reply, w))], times);
    var es := [Suspend(w)] + rest;
    assert es[0] == Suspend(w) && es[1..] == rest;
    Unroll(r, es);
    CopyCreatesAgain(Happen(r, es[0]), w, reply, w, times);
  }

  lemma Unroll(r: Run, es: seq<Event>)
    requires es != []
    ensures HappenAll(r, es) == HappenAll(Happen(r, es[0]), es[1..])
  {}
}
