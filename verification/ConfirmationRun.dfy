/** Whole runs of prompts and confirmations: turns, extractions, turns of the brain, and suspending and restoring. */
module ConfirmationRuns {
  import opened Text
  import opened Confirmations

  // ---- what is extracted --------------------------------------------------

  /** What a model's answer writes into a session: the target's identifier or name, its scope, its step. */
  datatype Edit = Edit(id: Option<string>, name: Option<string>, bulk: Option<bool>, step: Option<Step>)

  const NO_EDIT := Edit(None, None, None, None)

  function Named(id: string, name: string): Option<Target> {
    if Trim(id) == "" && Trim(name) == "" then None else Some(Target(Trim(id), Trim(name)))
  }

  function Edited(p: Pending, e: Edit): Pending {
    var was := if p.target.None? then Target("", "") else p.target.value;
    p.(target := if e.id.None? && e.name.None? then p.target else Named(e.id.GetOr(was.id), e.name.GetOr(was.name)),
       bulk := e.bulk.GetOr(p.bulk), step := e.step.GetOr(p.step))
  }

  /** `activeSessionFromLegacy`: what the skill left is laid over what the brain collected. */
  function Overlaid(p: Pending, stored: Pending): Pending {
    var was := if p.target.None? then Target("", "") else p.target.value;
    var now := if stored.target.None? then Target("", "") else stored.target.value;
    stored.(target := Named(OrElse(now.id, was.id), OrElse(now.name, was.name)), bulk := p.bulk || stored.bulk,
            step := if stored.step.NoStep? then p.step else stored.step)
  }

  // ---- one prompt, one action --------------------------------------------

  /** Where the model sends a turn of the brain; it asks for a confirmation once the required fields are there. */
  datatype Route = Ask(complete: bool) | Act | Leave(kept: bool)

  /**
   * What can happen to a user's sessions and to the snapshots of suspended ones. An answer that is raw JSON is
   * recovered into the live session, or else into a new one or a copy of the last one suspended. The brain drives a
   * session of its own, begun anew or not, and forgets it when the conversation turns elsewhere.
   */
  datatype Event = Fresh(p: Pending, turn: Turn) | Continue(turn: Turn) | Cancel | Suspend | Move(index: nat)
                 | Copy(index: nat) | Recover(copied: bool, p: Pending, edit: Edit, turn: Turn)
                 | Brain(begun: Option<Pending>, edit: Edit, route: Route, turn: Turn) | Forget

  /** The live session, the brain's, the suspended ones, and how often was prompted, acted and copied so far. */
  datatype World = World(live: Option<Pending>, active: Option<Pending>, stack: seq<Pending>,
                         prompts: nat, actions: nat, copies: nat)

  function Counted(w: World, s: Said): World {
    w.(prompts := w.prompts + (if IsPrompt(s) then 1 else 0), actions := w.actions + (if IsAction(s) then 1 else 0))
  }

  function After(w: World, o: Outcome): World {
    Counted(w.(live := Leaves(w.live, o.storing)), o.said)
  }

  predicate Waits(p: Pending) { p.phase.AwaitConfirmation? }

  function Begun(p: Pending): Pending { p.(phase := Collecting) }

  /** The session that a recovery without a live one starts from, and whether it is a copy. */
  predicate IsCopied(w: World, copied: bool) { copied && w.stack != [] }

  function RecoveryBase(w: World, copied: bool, p: Pending): Pending {
    if IsCopied(w, copied) then w.stack[|w.stack| - 1] else Begun(p)
  }

  /** The session that a turn of the brain starts from. */
  function BrainBase(w: World, begun: Option<Pending>): Option<Pending> {
    if begun.Some? then Some(Begun(begun.value)) else w.active
  }

  /** A turn of the brain on session `p`, the extracted fields in it. */
  function Driven(w: World, p: Pending, route: Route, turn: Turn): World {
    match route
    case Ask(complete) =>
      w.(active := Some(if complete then p.(phase := AwaitConfirmation) else p),
         prompts := w.prompts + if complete && !Waits(p) then 1 else 0)
    case Leave(kept) => w.(active := if kept then Some(p) else None)
    case Act =>
      var o := Handled(p, turn, true);
      var left := Leaves(Some(Stored(p)), o.storing);
      Counted(w.(live := None, active := if left.None? then None else Some(Overlaid(p, left.value))), o.said)
  }

  function Happen(w: World, e: Event): World {
    match e
    case Fresh(p, turn) => After(w, Handled(Begun(p), turn, true))
    case Continue(turn) => if w.live.None? then w else After(w, Handled(w.live.value, turn, true))
    case Cancel => w.(live := None)
    case Suspend => if w.live.None? then w else w.(live := None, stack := w.stack + [w.live.value])
    case Move(i) =>
      if i < |w.stack| then w.(live := Some(w.stack[i]), stack := w.stack[..i] + w.stack[i + 1..]) else w
    case Copy(i) => if i < |w.stack| then w.(live := Some(w.stack[i]), copies := w.copies + 1) else w
    case Recover(copied, p, edit, turn) =>
      if w.live.Some? then
        var q := Edited(w.live.value, edit);
        After(w.(live := Some(Stored(q))), Handled(q, turn, true))
      else
        var q := Edited(RecoveryBase(w, copied, p), edit);
        After(w.(live := Some(Stored(q)), copies := w.copies + if IsCopied(w, copied) then 1 else 0),
              Handled(q, turn, true))
    case Brain(begun, edit, route, turn) =>
      var base := BrainBase(w, begun);
      if base.None? then w else Driven(w, Edited(base.value, edit), route, turn)
    case Forget => w.(active := None)
  }

  function HappenAll(w: World, es: seq<Event>): World
    decreases |es|
  {
    if es == [] then w else HappenAll(Happen(w, es[0]), es[1..])
  }

  function Waiting(p: Pending): nat { if Waits(p) then 1 else 0 }

  function OneWaiting(p: Option<Pending>): nat { if p.Some? then Waiting(p.value) else 0 }

  function AllWaiting(stack: seq<Pending>): nat {
    if stack == [] then 0 else Waiting(stack[0]) + AllWaiting(stack[1..])
  }

  lemma {:induction false} AllWaitingAppend(a: seq<Pending>, b: seq<Pending>)
    ensures AllWaiting(a + b) == AllWaiting(a) + AllWaiting(b)
  {
    if a == [] {
      assert a + b == b;
    } else {
      assert (a + b)[1..] == a[1..] + b;
      AllWaitingAppend(a[1..], b);
    }
  }

  /** Every action so far and every session still waiting is paid for by a prompt, or by a copy of a snapshot. */
  ghost predicate PaidFor(w: World) {
    w.actions + OneWaiting(w.live) + OneWaiting(w.active) + AllWaiting(w.stack) <= w.prompts + w.copies
  }

  lemma TurnPays(p: Pending, turn: Turn)
    ensures var o := Handled(p, turn, true);
            && (IsAction(o.said) ==> p.phase.AwaitConfirmation? && turn.reply.yes && o.storing.Clear?)
            && (o.storing.Save? && o.storing.session.phase.AwaitConfirmation? ==>
                  p.phase.AwaitConfirmation? || IsPrompt(o.said))
            && (IsPrompt(o.said) ==> !p.phase.AwaitConfirmation? && o.storing.Save?)
  {
    hide Resolved, Alive, HasId, Trim;
  }

  /** A turn on a session that waited or not, wherever it lies, is paid for. */
  lemma TurnCounts(w: World, p: Pending, turn: Turn)
    ensures var (o, r) := (Handled(p, turn, true), After(w, Handled(p, turn, true)));
            && (o.storing.Keep? ==> r == w.(live := w.live))
            && (!o.storing.Keep? ==>
                  r.actions + OneWaiting(r.live) <= w.actions + Waiting(p) + (r.prompts - w.prompts))
            && r.prompts >= w.prompts && r.stack == w.stack && r.active == w.active && r.copies == w.copies
  {
    hide Handled, IsPrompt, IsAction;
    TurnPays(p, turn);
    KeepSays(p, turn);
    ActionIsNoPrompt(Handled(p, turn, true).said);
  }

  lemma KeepSays(p: Pending, turn: Turn)
    ensures var o := Handled(p, turn, true); o.storing.Keep? ==> !IsPrompt(o.said) && !IsAction(o.said)
  {
    hide Resolved, Alive, HasId, Trim;
  }

  lemma StoredWaits(p: Pending)
    ensures Waits(Stored(p)) == Waits(p) && Bulky(Stored(p)) == Bulky(p)
  {
    hide Trim;
  }

  lemma EditedWaits(p: Pending, e: Edit)
    ensures Waits(Edited(p, e)) == Waits(p)
  {}

  lemma OverlaidWaits(p: Pending, stored: Pending)
    ensures Waits(Overlaid(p, stored)) == Waits(stored)
  {}

  lemma DrivenPays(w: World, p: Pending, route: Route, turn: Turn)
    ensures var r := Driven(w, p, route, turn);
            && r.actions + OneWaiting(r.active) <= w.actions + Waiting(p) + (r.prompts - w.prompts)
            && OneWaiting(r.live) <= OneWaiting(w.live) && r.stack == w.stack && r.copies == w.copies
  {
    hide Handled, IsPrompt, IsAction, Stored, Overlaid;
    if route.Act? {
      TurnPays(p, turn);
      KeepSays(p, turn);
      ActionIsNoPrompt(Handled(p, turn, true).said);
      StoredWaits(p);
      var left := Leaves(Some(Stored(p)), Handled(p, turn, true).storing);
      if left.Some? { OverlaidWaits(p, left.value); }
    }
  }

  lemma HappenPays(w: World, e: Event)
    requires PaidFor(w)
    ensures PaidFor(Happen(w, e))
  {
    hide Handled, IsPrompt, IsAction, After, Stored, Edited, Driven, Waits;
    match e
    case Fresh(p, turn) => BegunWaits(p); TurnCounts(w, Begun(p), turn);
    case Continue(turn) => if w.live.Some? { TurnCounts(w, w.live.value, turn); }
    case Cancel =>
    case Suspend =>
      if w.live.Some? {
        AllWaitingAppend(w.stack, [w.live.value]);
        assert [w.live.value][1..] == [];
      }
    case Move(i) => if i < |w.stack| { TakeOut(w.stack, i); }
    case Copy(i) => if i < |w.stack| { TakeOut(w.stack, i); }
    case Recover(copied, p, edit, turn) => RecoverPays(w, copied, p, edit, turn);
    case Brain(begun, edit, route, turn) =>
      var base := BrainBase(w, begun);
      if base.Some? {
        if begun.Some? { BegunWaits(begun.value); }
        EditedWaits(base.value, edit);
        DrivenPays(w, Edited(base.value, edit), route, turn);
      }
    case Forget =>
  }

  lemma BegunWaits(p: Pending)
    ensures !Waits(Begun(p))
  {}

  lemma RecoverPays(w: World, copied: bool, p: Pending, edit: Edit, turn: Turn)
    requires PaidFor(w)
    ensures PaidFor(Happen(w, Recover(copied, p, edit, turn)))
  {
    hide Handled, IsPrompt, IsAction, After, Stored, Edited, Waits;
    var base := if w.live.Some? then w.live.value else RecoveryBase(w, copied, p);
    var q := Edited(base, edit);
    BegunWaits(p);
    EditedWaits(base, edit);
    StoredWaits(q);
    if IsCopied(w, copied) { TakeOut(w.stack, |w.stack| - 1); }
    TurnCounts(w.(live := Some(Stored(q))), q, turn);
    TurnCounts(w.(live := Some(Stored(q)), copies := w.copies + 1), q, turn);
  }

  lemma TakeOut(stack: seq<Pending>, i: nat)
    requires i < |stack|
    ensures AllWaiting(stack) == AllWaiting(stack[..i] + stack[i + 1..]) + Waiting(stack[i])
  {
    var a, x, b := stack[..i], stack[i], stack[i + 1..];
    AllWaitingAppend(a, [x] + b);
    AllWaitingAppend(a, b);
    assert stack == a + ([x] + b) && ([x] + b)[1..] == b;
  }

  /** Over any events the actions never outnumber the prompts and the snapshots brought back by copying. */
  lemma {:induction false} ActionsArePaidFor(w: World, es: seq<Event>)
    requires PaidFor(w)
    ensures PaidFor(HappenAll(w, es))
    ensures HappenAll(w, es).actions <= HappenAll(w, es).prompts + HappenAll(w, es).copies
    decreases |es|
  {
    hide PaidFor, Happen;
    if es == [] {
      assert w.actions <= w.prompts + w.copies by { PaidMeans(w); }
    } else {
      HappenPays(w, es[0]);
      ActionsArePaidFor(Happen(w, es[0]), es[1..]);
    }
  }

  lemma PaidMeans(w: World)
    requires PaidFor(w)
    ensures w.actions <= w.prompts + w.copies
  {}

  predicate Copies(e: Event) { e.Copy? || (e.Recover? && e.copied) }

  /** Without copying, each action has a prompt of its own. */
  lemma {:induction false} NoCopiesNoMore(w: World, es: seq<Event>)
    requires PaidFor(w) && w.copies == 0 && forall i :: 0 <= i < |es| ==> !Copies(es[i])
    ensures HappenAll(w, es).actions <= HappenAll(w, es).prompts
    decreases |es|
  {
    CopiesStay(w, es);
    ActionsArePaidFor(w, es);
  }

  lemma {:induction false} CopiesStay(w: World, es: seq<Event>)
    requires forall i :: 0 <= i < |es| ==> !Copies(es[i])
    ensures HappenAll(w, es).copies == w.copies
    decreases |es|
  {
    hide Handled, Stored, Edited, Overlaid;
    if es != [] {
      assert !Copies(es[0]);
      CopiesStay(Happen(w, es[0]), es[1..]);
    }
  }

  /**
   * The copies are no mere slack: whenever a waiting snapshot is brought back by copying and confirmed, doing the same
   * again acts once more, so a single prompt pays for any number of actions.
   */
  lemma {:induction false} CopyActsAgain(w: World, q: Pending, yes: Turn, times: nat)
    requires w.live.None? && w.stack == [q] && q.phase.AwaitConfirmation? && IsAction(Handled(q, yes, true).said)
    ensures var r := HappenAll(w, Repeated([Copy(0), Continue(yes)], times));
            r == w.(actions := w.actions + times, copies := w.copies + times)
    decreases times
  {
    hide Handled, IsPrompt, IsAction;
    if times > 0 {
      var es := Repeated([Copy(0), Continue(yes)], times);
      TurnPays(q, yes);
      ActionIsNoPrompt(Handled(q, yes, true).said);
      var w1 := Happen(w, Copy(0));
      var w2 := Happen(w1, Continue(yes));
      assert w2 == w.(actions := w.actions + 1, copies := w.copies + 1);
      assert es[0] == Copy(0) && es[1..][0] == Continue(yes) &&
          es[1..][1..] == Repeated([Copy(0), Continue(yes)], times - 1);
      CopyActsAgain(w2, q, yes, times - 1);
    }
  }

  lemma ActionIsNoPrompt(s: Said)
    ensures IsAction(s) ==> !IsPrompt(s)
  {}

  function Repeated<T>(s: seq<T>, times: nat): seq<T> {
    if times == 0 then [] else s + Repeated(s, times - 1)
  }

  /**
   * From the prompt to the action: a session that is prompted for a target is stored, waiting, and a yes to it, while
   * the identifier still answers, acts on that target once and leaves nothing stored.
   */
  lemma PromptThenYes(w: World, p: Pending, ask: Turn, yes: Turn, id: string)
    requires Handled(Begun(p), ask, true).said == Prompt(id) && !p.step.OtherStep? && Trimmed(id) && id != ""
    requires yes.reply.yes && Answers(yes.choices, id) && (Bulkable(p) ==> !yes.reply.all)
    ensures var w1 := Happen(w, Fresh(p, ask));
            && w1 == w.(live := w1.live, prompts := w.prompts + 1) && w1.live.Some? && Prompted(w1.live.value, id)
            && Handled(w1.live.value, yes, true) == Outcome(Ran(id), Clear)
            && Happen(w1, Continue(yes)) == w1.(live := None, actions := w.actions + 1)
  {
    hide Trim, Resolved, Alive, HasId, Answers, Aimed, Handled, Aim;
    PromptEffect(Begun(p), ask);
    SameFlow(Begun(p), ask);
    ConfirmedTurn(Handled(Begun(p), ask, true).storing.session, id, yes);
  }

  /** A session keeps its domain and action. */
  lemma SameFlow(p: Pending, turn: Turn)
    ensures var o := Handled(p, turn, true);
            o.storing.Save? ==> o.storing.session.domain == p.domain && o.storing.session.action == p.action
  {
    hide Resolved, Alive, HasId, Trim;
  }

  // ---- what the events do -------------------------------------------------

  /** The identifier and the name that a target has, blank without one. */
  ghost function IdOf(p: Pending): string { if p.target.Some? then p.target.value.id else "" }
  ghost function NameOf(p: Pending): string { if p.target.Some? then p.target.value.name else "" }

  /**
   * An extraction replaces, trimmed, what it names, and leaves the rest; without identifier and name no target is
   * left.
   */
  lemma EditedIs(p: Pending, e: Edit)
    ensures var q := Edited(p, e);
            && q.domain == p.domain && q.action == p.action && q.phase == p.phase
            && q.bulk == (if e.bulk.Some? then e.bulk.value else p.bulk)
            && q.step == (if e.step.Some? then e.step.value else p.step)
            && (e.id.None? && e.name.None? ==> q.target == p.target)
            && (e.id.Some? || e.name.Some? ==>
                  && IdOf(q) == Trim(if e.id.Some? then e.id.value else IdOf(p))
                  && NameOf(q) == Trim(if e.name.Some? then e.name.value else NameOf(p))
                  && (q.target.Some? <==> IdOf(q) != "" || NameOf(q) != ""))
  {
    hide Trim;
  }

  /** Laid over what was collected, a session keeps what it says, and for the rest what was collected. */
  lemma OverlaidIs(p: Pending, stored: Pending)
    ensures var q := Overlaid(p, stored);
            && q.domain == stored.domain && q.action == stored.action && q.phase == stored.phase
            && q.step == (if stored.step.NoStep? then p.step else stored.step) && (q.bulk <==> p.bulk || stored.bulk)
            && IdOf(q) == Trim(if Trim(IdOf(stored)) != "" then IdOf(stored) else IdOf(p))
            && NameOf(q) == Trim(if Trim(NameOf(stored)) != "" then NameOf(stored) else NameOf(p))
            && (q.target.Some? <==> IdOf(q) != "" || NameOf(q) != "")
  {
    TrimIsTrimmed();
    hide Trim, OrElse;
    OrElseIs(IdOf(stored), IdOf(p));
    OrElseIs(NameOf(stored), NameOf(p));
  }

  lemma TrimIsTrimmed()
    ensures forall s :: Trim(Trim(s)) == Trim(s)
  {
    hide TrimLeft, TrimRight;
  }

  /** The session that a turn leaves: what it saves, what there was if it keeps, none if it clears. */
  ghost predicate LeavesOf(before: Option<Pending>, s: Storing, after: Option<Pending>) {
    match s
    case Keep => after == before
    case Save(p) => after == Some(p)
    case Clear => after == None
  }

  /** How a turn counts: one prompt when it prompts, one action when it acts. */
  ghost predicate CountsAs(w: World, r: World, said: Said) {
    && r.prompts == w.prompts + (if said.Prompt? || said.PromptBulk? then 1 else 0)
    && r.actions == w.actions + (if said.Ran? || said.RanBulk? then 1 else 0)
  }

  /** Turns of the live session: of one begun anew, or of the one there is. */
  lemma TurnsDo(w: World, p: Pending, turn: Turn)
    ensures var (r, o) := (Happen(w, Fresh(p, turn)), Handled(p.(phase := Collecting), turn, true));
            && LeavesOf(w.live, o.storing, r.live) && CountsAs(w, r, o.said)
            && r.active == w.active && r.stack == w.stack && r.copies == w.copies
    ensures var r := Happen(w, Continue(turn));
            if w.live.None? then r == w
            else
              var o := Handled(w.live.value, turn, true);
              && LeavesOf(w.live, o.storing, r.live) && CountsAs(w, r, o.said)
              && r.active == w.active && r.stack == w.stack && r.copies == w.copies
  {
    hide Handled;
  }

  /** A recovery: into the live session, else into a new one or a copy of the last one suspended. */
  lemma RecoveryDoes(w: World, copied: bool, p: Pending, edit: Edit, turn: Turn)
    ensures var r := Happen(w, Recover(copied, p, edit, turn));
            var copies := w.live.None? && copied && w.stack != [];
            var base := if w.live.Some? then w.live.value
                        else if copies then w.stack[|w.stack| - 1] else p.(phase := Collecting);
            var o := Handled(Edited(base, edit), turn, true);
            && LeavesOf(Some(Stored(Edited(base, edit))), o.storing, r.live) && CountsAs(w, r, o.said)
            && r.active == w.active && r.stack == w.stack && r.copies == w.copies + if copies then 1 else 0
  {
    hide Handled, Stored, Edited;
  }

  /** A turn of the brain: it asks, leaves, or hands its session to the skill and takes it back or gives it up. */
  lemma BrainDoes(w: World, begun: Option<Pending>, edit: Edit, route: Route, turn: Turn)
    ensures var r := Happen(w, Brain(begun, edit, route, turn));
            var base := if begun.Some? then Some(begun.value.(phase := Collecting)) else w.active;
            if base.None? then r == w
            else
              var q := Edited(base.value, edit);
              && r.stack == w.stack && r.copies == w.copies
              && match route
                 case Ask(complete) =>
                   && r.live == w.live && r.actions == w.actions
                   && r.active == Some(if complete then q.(phase := AwaitConfirmation) else q)
                   && r.prompts == w.prompts + if complete && !q.phase.AwaitConfirmation? then 1 else 0
                 case Leave(kept) => r == w.(active := if kept then Some(q) else None)
                 case Act =>
                   var o := Handled(q, turn, true);
                   && r.live == None && CountsAs(w, r, o.said)
                   && (o.storing.Keep? ==> r.active == Some(Overlaid(q, Stored(q))))
                   && (o.storing.Save? ==> r.active == Some(Overlaid(q, o.storing.session)))
                   && (o.storing.Clear? ==> r.active == None)
  {
    hide Handled, Stored, Edited, Overlaid;
  }

  /** Where suspending, moving, copying, cancelling and forgetting take the sessions. */
  lemma WhereSessionsGo(w: World, i: nat)
    requires i < |w.stack|
    ensures Happen(w, Cancel) == w.(live := None) && Happen(w, Forget) == w.(active := None)
    ensures Happen(w, Suspend) ==
            if w.live.None? then w else w.(live := None, stack := w.stack + [w.live.value])
    ensures Happen(w, Move(i)) == w.(live := Some(w.stack[i]), stack := w.stack[..i] + w.stack[i + 1..])
    ensures Happen(w, Copy(i)) == w.(live := Some(w.stack[i]), copies := w.copies + 1)
  {}

  // ---- what an action rests on --------------------------------------------

  /**
   * What a waiting session rests on: a prompt for one target, one for all of them, or a reply that widened the
   * former. A session is loose when the brain asked for the confirmation in its own words, or when something was
   * extracted into it while it waited.
   */
  datatype Basis = Nothing | One | All | WidenedOne | Loose

  function Based(b: Basis, p: Pending, turn: Turn, said: Said): Basis {
    if said.Prompt? then One
    else if said.PromptBulk? then All
    else if b.One? && Bulkable(p) && turn.reply.all then WidenedOne
    else b
  }

  function Touched(b: Basis, p: Pending, q: Pending): Basis {
    if Waits(p) && q != p then Loose else b
  }

  /** The bases of the live, the brain's and the suspended sessions, and every action so far with what it rested on. */
  datatype Trail = Trail(live: Basis, active: Basis, stack: seq<Basis>, acts: seq<(Said, Basis)>)

  function Left(kept: Basis, after: Basis, s: Storing): Basis {
    match s case Keep => kept case Save(_) => after case Clear => Nothing
  }

  function Acts(t: Trail, said: Said, b: Basis): seq<(Said, Basis)> {
    if IsAction(said) then t.acts + [(said, b)] else t.acts
  }

  /** A turn on `p`, which rests on `b`; a session that is kept rests on `kept`. */
  function TurnTrail(t: Trail, p: Pending, b: Basis, kept: Basis, turn: Turn): Trail {
    var o := Handled(p, turn, true);
    var after := Based(b, p, turn, o.said);
    t.(live := Left(kept, after, o.storing), acts := Acts(t, o.said, after))
  }

  function DrivenTrail(t: Trail, p: Pending, b: Basis, route: Route, turn: Turn): Trail {
    match route
    case Ask(complete) => t.(active := if complete && !Waits(p) then Loose else b)
    case Leave(kept) => t.(active := if kept then b else Nothing)
    case Act =>
      var o := Handled(p, turn, true);
      var after := Based(b, p, turn, o.said);
      t.(live := Nothing, active := Left(b, after, o.storing), acts := Acts(t, o.said, after))
  }

  function RecoveryBasis(t: Trail, w: World, copied: bool): Basis
    requires |t.stack| == |w.stack|
  {
    if IsCopied(w, copied) then t.stack[|t.stack| - 1] else Nothing
  }

  /** The trail over the events of a run, read off what is said, replied and extracted only. */
  function Follow(t: Trail, w: World, e: Event): (r: Trail)
    requires |t.stack| == |w.stack|
    ensures |r.stack| == |Happen(w, e).stack|
  {
    match e
    case Fresh(p, turn) => TurnTrail(t, Begun(p), Nothing, t.live, turn)
    case Continue(turn) => if w.live.None? then t else TurnTrail(t, w.live.value, t.live, t.live, turn)
    case Cancel => t.(live := Nothing)
    case Suspend => if w.live.None? then t else t.(live := Nothing, stack := t.stack + [t.live])
    case Move(i) =>
      if i < |t.stack| then t.(live := t.stack[i], stack := t.stack[..i] + t.stack[i + 1..]) else t
    case Copy(i) => if i < |t.stack| then t.(live := t.stack[i]) else t
    case Recover(copied, p, edit, turn) =>
      var base := if w.live.Some? then w.live.value else RecoveryBase(w, copied, p);
      var b := Touched(if w.live.Some? then t.live else RecoveryBasis(t, w, copied), base, Edited(base, edit));
      TurnTrail(t, Edited(base, edit), b, b, turn)
    case Brain(begun, edit, route, turn) =>
      var base := BrainBase(w, begun);
      if base.None? then t
      else
        var q := Edited(base.value, edit);
        DrivenTrail(t, q, Touched(if begun.Some? then Nothing else t.active, base.value, q), route, turn)
    case Forget => t.(active := Nothing)
  }

  /**
   * A waiting session means all targets exactly when it rests on a prompt for all or on a widening reply, or is
   * loose.
   */
  predicate Honest(p: Pending, b: Basis) {
    Waits(p) ==> !b.Nothing? && (b.Loose? || (Bulky(p) <==> b.All? || b.WidenedOne?))
  }

  predicate HonestAct(act: (Said, Basis)) {
    act.1.Loose? || (act.0.Ran? && act.1.One?) || (act.0.RanBulk? && (act.1.All? || act.1.WidenedOne?))
  }

  ghost predicate HonestAll(stack: seq<Pending>, bases: seq<Basis>) {
    |bases| == |stack| && forall i :: 0 <= i < |stack| ==> Honest(stack[i], bases[i])
  }

  ghost predicate Traced(w: World, t: Trail) {
    && (w.live.Some? ==> Honest(w.live.value, t.live)) && (w.active.Some? ==> Honest(w.active.value, t.active))
    && HonestAll(w.stack, t.stack) && (forall act :: act in t.acts ==> HonestAct(act))
  }

  lemma TurnHonest(p: Pending, b: Basis, turn: Turn)
    requires Honest(p, b)
    ensures var o := Handled(p, turn, true);
            && (o.storing.Save? ==> Honest(o.storing.session, Based(b, p, turn, o.said)))
            && (IsAction(o.said) ==> HonestAct((o.said, Based(b, p, turn, o.said))))
  {
    hide Resolved, Alive, HasId, Trim;
  }

  lemma TouchedHonest(p: Pending, b: Basis, e: Edit)
    requires Honest(p, b)
    ensures Honest(Edited(p, e), Touched(b, p, Edited(p, e)))
  {
    hide Edited, Bulky;
    EditedWaits(p, e);
  }

  lemma UnpromptedHonest(p: Pending)
    ensures Honest(Begun(p), Nothing)
  {}

  /** What the skill leaves of a session means all targets if the session did, and still does when laid over it. */
  lemma OverlaidHonest(p: Pending, turn: Turn, b: Basis)
    ensures var o := Handled(p, turn, true);
            o.storing.Save? && Honest(o.storing.session, b) ==> Honest(Overlaid(p, o.storing.session), b)
    ensures Honest(p, b) ==> Honest(Overlaid(p, Stored(p)), b)
  {
    hide Resolved, Alive, HasId, Trim, Named;
  }

  lemma StoredHonest(p: Pending, b: Basis)
    ensures Honest(p, b) == Honest(Stored(p), b)
  {
    hide Stored, Bulky;
    StoredWaits(p);
  }

  lemma TurnTraced(w: World, t: Trail, p: Pending, b: Basis, kept: Basis, turn: Turn)
    requires Traced(w, t) && Honest(p, b) && (w.live.Some? ==> Honest(w.live.value, kept))
    ensures Traced(After(w, Handled(p, turn, true)), TurnTrail(t, p, b, kept, turn))
  {
    hide Handled, Based, Honest, HonestAct, HonestAll, IsPrompt;
    TurnHonest(p, b, turn);
  }

  lemma DrivenTraced(w: World, t: Trail, p: Pending, b: Basis, route: Route, turn: Turn)
    requires Traced(w, t) && Honest(p, b)
    ensures Traced(Driven(w, p, route, turn), DrivenTrail(t, p, b, route, turn))
  {
    hide Handled, Based, Honest, HonestAct, HonestAll, IsPrompt, Stored, Overlaid;
    match route
    case Ask(complete) => AskedHonest(p, b);
    case Leave(kept) =>
    case Act =>
      TurnHonest(p, b, turn);
      OverlaidHonest(p, turn, b);
      OverlaidHonest(p, turn, Based(b, p, turn, Handled(p, turn, true).said));
  }

  lemma AskedHonest(p: Pending, b: Basis)
    requires Honest(p, b)
    ensures Honest(p.(phase := AwaitConfirmation), if !Waits(p) then Loose else b)
  {}

  lemma StackHonest(stack: seq<Pending>, bases: seq<Basis>, i: nat)
    requires HonestAll(stack, bases) && i < |stack|
    ensures Honest(stack[i], bases[i]) && HonestAll(stack[..i] + stack[i + 1..], bases[..i] + bases[i + 1..])
  {
    hide Honest;
  }

  lemma StackSnoc(stack: seq<Pending>, bases: seq<Basis>, p: Pending, b: Basis)
    requires HonestAll(stack, bases) && Honest(p, b)
    ensures HonestAll(stack + [p], bases + [b])
  {
    hide Honest;
  }

  lemma RecoverTraced(w: World, t: Trail, copied: bool, p: Pending, edit: Edit, turn: Turn)
    requires Traced(w, t)
    ensures Traced(Happen(w, Recover(copied, p, edit, turn)), Follow(t, w, Recover(copied, p, edit, turn)))
  {
    hide Handled, Based, Honest, HonestAct, HonestAll, IsPrompt, IsAction, Stored, Edited, Touched;
    var base := if w.live.Some? then w.live.value else RecoveryBase(w, copied, p);
    SameLength(w, t);
    var b0 := if w.live.Some? then t.live else RecoveryBasis(t, w, copied);
    UnpromptedHonest(p);
    if IsCopied(w, copied) { StackHonest(w.stack, t.stack, |w.stack| - 1); }
    var q := Edited(base, edit);
    var b := Touched(b0, base, q);
    TouchedHonest(base, b0, edit);
    StoredHonest(q, b);
    var more := if w.live.None? && IsCopied(w, copied) then 1 else 0;
    TurnTraced(w.(live := Some(Stored(q)), copies := w.copies + more), t.(live := b), q, b, b, turn);
  }

  lemma SameLength(w: World, t: Trail)
    requires Traced(w, t)
    ensures |t.stack| == |w.stack|
  {}

  lemma FollowTraced(w: World, t: Trail, e: Event)
    requires Traced(w, t)
    ensures Traced(Happen(w, e), Follow(t, w, e))
  {
    hide Handled, IsAction, IsPrompt, Based, Honest, HonestAct, HonestAll, After, TurnTrail, Driven, DrivenTrail,
         Edited, Touched;
    SameLength(w, t);
    match e
    case Fresh(p, turn) => UnpromptedHonest(p); TurnTraced(w, t, Begun(p), Nothing, t.live, turn);
    case Continue(turn) => if w.live.Some? { TurnTraced(w, t, w.live.value, t.live, t.live, turn); }
    case Cancel =>
    case Suspend => if w.live.Some? { StackSnoc(w.stack, t.stack, w.live.value, t.live); }
    case Move(i) => if i < |w.stack| { StackHonest(w.stack, t.stack, i); }
    case Copy(i) => if i < |w.stack| { StackHonest(w.stack, t.stack, i); }
    case Recover(copied, p, edit, turn) => RecoverTraced(w, t, copied, p, edit, turn);
    case Brain(begun, edit, route, turn) =>
      var base := BrainBase(w, begun);
      if base.Some? {
        if begun.Some? { UnpromptedHonest(begun.value); }
        var b := if begun.Some? then Nothing else t.active;
        TouchedHonest(base.value, b, edit);
        var q := Edited(base.value, edit);
        DrivenTraced(w, t, q, Touched(b, base.value, q), route, turn);
      }
    case Forget =>
  }

  function FollowAll(t: Trail, w: World, es: seq<Event>): Trail
    requires |t.stack| == |w.stack|
    decreases |es|
  {
    if es == [] then t else FollowAll(Follow(t, w, es[0]), Happen(w, es[0]), es[1..])
  }

  /**
   * Over any events, switches, copies, recoveries and turns of the brain included: unless the session was loose, a bulk
   * deletion that runs was prompted for as such, or a reply that means all targets came while the session was waiting;
   * and an action on a single target was prompted for as such.
   */
  lemma {:induction false} ActsOnItsBasis(w: World, t: Trail, es: seq<Event>)
    requires Traced(w, t)
    ensures |t.stack| == |w.stack| && Traced(HappenAll(w, es), FollowAll(t, w, es))
    ensures forall act :: act in FollowAll(t, w, es).acts ==> HonestAct(act)
    decreases |es|
  {
    hide Happen, Follow, HonestAct, Honest;
    SameLength(w, t);
    if es != [] {
      FollowTraced(w, t, es[0]);
      ActsOnItsBasis(Happen(w, es[0]), Follow(t, w, es[0]), es[1..]);
    }
  }

  /** The trail forgets nothing: it grows by one entry for every action, which says what was done. */
  lemma FollowCounts(w: World, t: Trail, e: Event)
    requires |t.stack| == |w.stack|
    ensures var (r, n) := (Follow(t, w, e), Happen(w, e));
            t.acts <= r.acts && |r.acts| - |t.acts| == n.actions - w.actions
            && forall act :: act in r.acts[|t.acts|..] ==> act.0.Ran? || act.0.RanBulk?
  {
    hide Handled, IsPrompt, Based, Edited, Stored, Overlaid, Touched;
  }

  lemma {:induction false} TrailIsComplete(w: World, t: Trail, es: seq<Event>)
    requires |t.stack| == |w.stack|
    ensures t.acts <= FollowAll(t, w, es).acts
    ensures |FollowAll(t, w, es).acts| - |t.acts| == HappenAll(w, es).actions - w.actions
    decreases |es|
  {
    hide Happen, Follow;
    if es != [] {
      FollowCounts(w, t, es[0]);
      TrailIsComplete(Happen(w, es[0]), Follow(t, w, es[0]), es[1..]);
    }
  }

  // ---- when a session is loose --------------------------------------------

  /** Nothing is extracted, and the brain does not ask for a confirmation itself. */
  predicate Tight(e: Event) {
    (e.Recover? ==> e.edit == NO_EDIT) && (e.Brain? ==> e.edit == NO_EDIT && !(e.route.Ask? && e.route.complete))
  }

  ghost predicate Firm(t: Trail) {
    && !t.live.Loose? && !t.active.Loose? && (forall i :: 0 <= i < |t.stack| ==> !t.stack[i].Loose?)
    && (forall act :: act in t.acts ==> !act.1.Loose?)
  }

  lemma NothingEdited(p: Pending)
    ensures Edited(p, NO_EDIT) == p
  {}

  lemma BasedFirm(b: Basis, p: Pending, turn: Turn, said: Said)
    requires !b.Loose?
    ensures !Based(b, p, turn, said).Loose?
  {}

  lemma FollowFirm(w: World, t: Trail, e: Event)
    requires |t.stack| == |w.stack| && Firm(t) && Tight(e)
    ensures Firm(Follow(t, w, e))
  {
    hide Handled, IsAction, Based, Edited, After, Driven;
    match e
    case Fresh(p, turn) => BasedFirm(Nothing, Begun(p), turn, Handled(Begun(p), turn, true).said);
    case Continue(turn) =>
      if w.live.Some? { BasedFirm(t.live, w.live.value, turn, Handled(w.live.value, turn, true).said); }
    case Recover(copied, p, edit, turn) =>
      var base := if w.live.Some? then w.live.value else RecoveryBase(w, copied, p);
      NothingEdited(base);
      var b := if w.live.Some? then t.live else RecoveryBasis(t, w, copied);
      BasedFirm(b, base, turn, Handled(base, turn, true).said);
    case Brain(begun, edit, route, turn) =>
      var base := BrainBase(w, begun);
      if base.Some? {
        NothingEdited(base.value);
        BasedFirm(if begun.Some? then Nothing else t.active, base.value, turn, Handled(base.value, turn, true).said);
      }
    case _ =>
  }

  /**
   * Where nothing is extracted into sessions and the brain leaves asking to the skill, no session is ever loose: then a
   * bulk deletion always rests on a bulk prompt or a widening reply, and a single action on a prompt for one target.
   */
  lemma {:induction false} TightRunsActAsPrompted(w: World, t: Trail, es: seq<Event>)
    requires Traced(w, t) && Firm(t) && forall i :: 0 <= i < |es| ==> Tight(es[i])
    ensures |t.stack| == |w.stack| && Firm(FollowAll(t, w, es))
    ensures forall act :: act in FollowAll(t, w, es).acts ==>
              (act.0.Ran? && act.1.One?) || (act.0.RanBulk? && (act.1.All? || act.1.WidenedOne?))
    decreases |es|
  {
    hide Happen, Follow, Honest, Tight, HonestAll;
    SameLength(w, t);
    if es != [] {
      assert Tight(es[0]);
      FollowTraced(w, t, es[0]);
      FollowFirm(w, t, es[0]);
      TightRunsActAsPrompted(Happen(w, es[0]), Follow(t, w, es[0]), es[1..]);
    }
  }

  /**
   * A loose session can act on what was never prompted for. A snapshot that waits for one target is copied back by a
   * recovery whose fields name all targets, on a reply that is a yes: everything that can be deleted is.
   */
  lemma ExtractedScopeDeletes(w: World, id: string, p: Pending, yes: Turn)
    requires w.live.None? && w.stack != [] && Prompted(w.stack[|w.stack| - 1], id) && Bulkable(w.stack[|w.stack| - 1])
    requires yes.reply.yes && yes.listing.Listed? && yes.listing.deletable != []
    requires yes.reply.all || Answers(yes.choices, id)
    requires Trimmed(id) && id != ""
    ensures var q := Edited(w.stack[|w.stack| - 1], NO_EDIT.(bulk := Some(true)));
            var r := Happen(w, Recover(true, p, NO_EDIT.(bulk := Some(true)), yes));
            && Handled(q, yes, true).said == RanBulk(yes.listing.deletable)
            && r.actions == w.actions + 1 && r.prompts == w.prompts && r.stack == w.stack
  {
    hide Trim, Resolved, Alive, Answers;
    var last := w.stack[|w.stack| - 1];
    AliveKeepsIdIff(last.target.value, yes.choices);
  }

  /** And what is extracted into a live session that waits for one target redirects its action to another. */
  lemma ExtractedTargetRedirects(p: Pending, id: string, other: string, turn: Turn)
    requires Prompted(p, id) && Trimmed(other) && other != "" && Answers(turn.choices, other)
    requires turn.reply.yes && (Bulkable(p) ==> !turn.reply.all)
    ensures Handled(Edited(p, NO_EDIT.(id := Some(other))), turn, true) == Outcome(Ran(other), Clear)
  {
    hide Trim, Handled, Answers;
    ConfirmedTurn(Edited(p, NO_EDIT.(id := Some(other))), other, turn);
  }
}
