/** Destructive actions on one entity: finding the target, prompting for a confirmation, and acting on it. */
module Confirmations {
  import opened Text

  datatype Domain = TraderDomain | ExchangeDomain | ModelDomain | StrategyDomain
  datatype Action = Start | Stop | Delete
  datatype Phase = Collecting | AwaitConfirmation | OtherPhase(text: string)

  /** The steps all these flows share; a blank or unknown one counts as the first. */
  datatype Step = NoStep | Resolve | Confirm | Execute | OtherStep(text: string)

  datatype Target = Target(id: string, name: string)

  /** The parts of a skill session that such a flow uses; `bulk` says that all targets are meant. */
  datatype Pending = Pending(domain: Domain, action: Action, phase: Phase, target: Option<Target>, step: Step,
                             bulk: bool)

  /** An entity that can be chosen. */
  datatype Choice = Choice(id: string, name: string, hint: string)

  /** A user's reply: its text, whether it is a yes, and whether it means all targets. */
  datatype Reply = Reply(text: string, yes: bool, all: bool)

  /** What listing the entities for a bulk deletion yields: how many there are and which can be deleted. */
  datatype Listing = Unreadable | Listed(total: nat, deletable: seq<string>)

  datatype Said = AskTarget | TargetLost | SpecifyTarget | Prompt(id: string) | PromptBulk | StillWaiting
                | CannotList | NothingToDelete | Ran(id: string) | RanBulk(ids: seq<string>)

  /** What happens to the stored session. */
  datatype Storing = Keep | Save(session: Pending) | Clear

  datatype Outcome = Outcome(said: Said, storing: Storing)

  /** What a turn sees: the reply, the live entities, and the listing should it come to a bulk deletion. */
  datatype Turn = Turn(reply: Reply, choices: seq<Choice>, listing: Listing)

  // ---- finding a target ---------------------------------------------------

  predicate Contains(s: string, part: string) {
    |part| <= |s| && (s[..|part|] == part || (s != "" && Contains(s[1..], part)))
  }

  predicate Matches(c: Choice, query: string) {
    c.id == query || EqualFold(c.name, query) || EqualFold(c.hint, query)
  }

  function First(choices: seq<Choice>, wanted: Choice -> bool): (r: Option<nat>)
    ensures r.Some? ==> r.value < |choices| && wanted(choices[r.value]) && forall i :: 0 <= i < r.value ==>
            !wanted(choices[i])
    ensures r.None? ==> forall i :: 0 <= i < |choices| ==> !wanted(choices[i])
  {
    if choices == [] then None
    else if wanted(choices[0]) then Some(0)
    else
      match First(choices[1..], wanted)
      case None => assert forall i :: 0 < i < |choices| ==> choices[i] == choices[1..][i - 1]; None
      case Some(i) => assert forall k :: 0 < k < |choices| ==> choices[k] == choices[1..][k - 1]; Some(i + 1)
  }

  function MatchesQuery(query: string): Choice -> bool {
    (c: Choice) => Matches(c, query)
  }

  function At(choices: seq<Choice>, i: Option<nat>): (r: Option<Choice>)
    requires i.Some? ==> i.value < |choices|
    ensures r.Some? ==> r.value in choices
  {
    if i.None? then None else Some(choices[i.value])
  }

  /** `findOptionByIDOrName`. */
  function Find(choices: seq<Choice>, query: string): (r: Option<Choice>)
    ensures r.Some? ==> r.value in choices
  {
    if Trim(query) == "" then None else At(choices, First(choices, MatchesQuery(Trim(query))))
  }

  predicate Overlaps(text: string, query: string) {
    var t := Lower(Trim(text));
    t != "" && (Contains(t, query) || Contains(query, t))
  }

  predicate Near(c: Choice, query: string) {
    Overlaps(c.name, query) || Overlaps(c.hint, query) || Overlaps(c.id, query)
  }

  function NearOnes(choices: seq<Choice>, query: string): (r: seq<Choice>)
    ensures forall c :: c in r ==> c in choices
  {
    if choices == [] then []
    else
      var last := choices[|choices| - 1];
      NearOnes(choices[..|choices| - 1], query) + if Near(last, query) then [last] else []
  }

  /** `findUniqueContainingOption`. */
  function FindUnique(choices: seq<Choice>, query: string): (r: Option<Choice>)
    ensures r.Some? ==> r.value in choices
  {
    var q := Lower(Trim(query));
    if q == "" then None
    else
      var near := NearOnes(choices, q);
      if |near| == 1 then Some(near[0]) else None
  }

  function FindEither(choices: seq<Choice>, query: string): (r: Option<Choice>)
    ensures r.Some? ==> r.value in choices
  {
    var found := Find(choices, query);
    if found.Some? then found else FindUnique(choices, query)
  }

  predicate HasId(choices: seq<Choice>, id: string) {
    exists i :: 0 <= i < |choices| && choices[i].id == id
  }

  function WithId(id: string): Choice -> bool {
    (c: Choice) => c.id == id
  }

  /** `resolveTargetSelection`. */
  function Resolved(text: string, choices: seq<Choice>, existing: Option<Target>): (r: Option<Target>)
    ensures r.Some? ==> HasId(choices, r.value.id)
  {
    var byId := if existing.Some? && Trim(existing.value.id) != ""
        then At(choices, First(choices, WithId(existing.value.id))) else None;
    if byId.Some? then Some(Target(byId.value.id, OrElse(byId.value.name, existing.value.name)))
    else
      var byName := if existing.Some? && Trim(existing.value.name) != "" then FindEither(choices, existing.value.name)
          else None;
      var found := if byName.Some? then byName else FindEither(choices, text);
      if found.Some? then Some(Target(found.value.id, found.value.name)) else None
  }

  /** `ensureLiveTargetReference`: the target as it is now, or nothing when it is gone. */
  function Alive(target: Target, choices: seq<Choice>): (r: Option<Target>)
    ensures r.Some? ==> HasId(choices, r.value.id)
  {
    var byId := Find(choices, target.id);
    var found := if byId.Some? || Trim(target.name) == "" then byId else FindEither(choices, target.name);
    if found.None? then None else Some(Target(found.value.id, OrElse(found.value.name, target.name)))
  }

  /** A remembered target that is live is kept, whatever the text mentions; without one the text alone decides. */
  lemma ResolvedKeepsLive(text: string, choices: seq<Choice>, existing: Option<Target>)
    ensures existing.Some? && Trim(existing.value.id) != "" && HasId(choices, existing.value.id) ==>
              Resolved(text, choices, existing).Some? && Resolved(text, choices, existing).value.id == existing.value.id
    ensures existing.None? ==>
              var found := FindEither(choices, text);
              Resolved(text, choices, existing) ==
              if found.None? then None else Some(Target(found.value.id, found.value.name))
  {
    hide Trim, FindEither;
    if existing.Some? && HasId(choices, existing.value.id) {
      var i :| 0 <= i < |choices| && choices[i].id == existing.value.id;
      assert WithId(existing.value.id)(choices[i]);
    }
  }

  /** The only choice near the query. */
  ghost predicate OnlyNear(choices: seq<Choice>, query: string, i: nat) {
    i < |choices| && Near(choices[i], query) && forall j :: 0 <= j < |choices| && j != i ==> !Near(choices[j], query)
  }

  lemma {:induction false} NearCount(choices: seq<Choice>, query: string, i: nat)
    ensures NearOnes(choices, query) == [] <==> forall j :: 0 <= j < |choices| ==> !Near(choices[j], query)
    ensures OnlyNear(choices, query, i) ==> NearOnes(choices, query) == [choices[i]]
    ensures |NearOnes(choices, query)| == 1 ==>
              var k := NearIndex(choices, query);
              OnlyNear(choices, query, k) && NearOnes(choices, query) == [choices[k]]
  {
    hide Near;
    if choices != [] {
      var n := |choices| - 1;
      var front := choices[..n];
      NearCount(front, query, if i < n then i else 0);
      assert forall j :: 0 <= j < n ==> front[j] == choices[j];
    }
  }

  /** Where the last choice near the query lies, if there is one. */
  function NearIndex(choices: seq<Choice>, query: string): nat {
    if choices == [] then 0
    else if Near(choices[|choices| - 1], query) then |choices| - 1
    else NearIndex(choices[..|choices| - 1], query)
  }

  /** A choice is found by overlap exactly when it is the only one that overlaps with the query. */
  lemma UniqueIsOnly(choices: seq<Choice>, query: string, i: nat)
    requires i < |choices| && Lower(Trim(query)) != ""
    ensures OnlyNear(choices, Lower(Trim(query)), i) ==> FindUnique(choices, query) == Some(choices[i])
    ensures FindUnique(choices, query).Some? ==>
              var k := NearIndex(choices, Lower(Trim(query)));
              OnlyNear(choices, Lower(Trim(query)), k) && FindUnique(choices, query) == Some(choices[k])
  {
    hide Near, Trim, Lower;
    NearCount(choices, Lower(Trim(query)), i);
  }

  // ---- one turn -----------------------------------------------------------

  /** `supportsBulkTargetSelection`. */
  predicate Bulkable(p: Pending) {
    (p.domain.TraderDomain? || p.domain.StrategyDomain?) && p.action.Delete?
  }

  predicate Bulky(p: Pending) { Bulkable(p) && p.bulk }

  function Current(step: Step): Step {
    if step.Confirm? || step.Execute? then step else Resolve
  }

  /** A session as it is read back after a save. */
  function Stored(p: Pending): Pending {
    match p.target
    case None => p
    case Some(t) =>
      p.(target := if Trim(t.id) == "" && Trim(t.name) == "" then None else Some(Target(Trim(t.id), Trim(t.name))))
  }

  function Saving(said: Said, p: Pending): Outcome {
    Outcome(said, Save(Stored(p)))
  }

  /** A reply that means all targets turns the flow into a bulk one and drops the target. */
  function Widened(p: Pending, reply: Reply): Pending {
    if Bulkable(p) && reply.all then p.(bulk := true, target := None) else p
  }

  /** The target step: asked for by name until it is known. */
  function Aimed(p: Pending, turn: Turn): Pending {
    if !Current(p.step).Resolve? then p
    else
      var found := Resolved(turn.reply.text, turn.choices, p.target);
      var q := if found.Some? then p.(target := found) else p;
      if q.target.None? && !Bulky(q) then q.(step := Resolve)
      else if q.step.Resolve? then q.(step := Confirm) else q
  }

  /** `beginConfirmationIfNeeded` and `awaitingConfirmationButNotApproved`, then the action itself. */
  function Gated(p: Pending, reply: Reply, needs: bool, prompt: Said, act: Said): Outcome {
    if needs && !p.phase.AwaitConfirmation? then Saving(prompt, p.(phase := AwaitConfirmation))
    else if needs && !reply.yes then Saving(StillWaiting, p)
    else Outcome(act, Clear)
  }

  function Acted(p: Pending, turn: Turn, needs: bool): Outcome {
    var q := if p.step.NoStep? then p.(step := Confirm) else p;
    if Bulky(q) then
      match turn.listing
      case Unreadable => Outcome(CannotList, Keep)
      case Listed(_, ids) =>
        if ids == [] then Outcome(NothingToDelete, Clear)
        else Gated(q, turn.reply, needs, PromptBulk, RanBulk(ids))
    else if p.target.None? then Outcome(SpecifyTarget, Keep)
    else Gated(q, turn.reply, needs, Prompt(p.target.value.id), Ran(p.target.value.id))
  }

  /** `handleSimpleEntitySkill` with the branch for the action; `needs` is the registry's flag for a confirmation. */
  function Handled(p: Pending, turn: Turn, needs: bool): Outcome {
    var q := Aimed(Widened(p, turn.reply), turn);
    if Current(p.step).Resolve? && q.target.None? && !Bulky(q) then Saving(AskTarget, q)
    else if q.target.None? then Acted(q, turn, needs)
    else
      match Alive(q.target.value, turn.choices)
      case None => Saving(TargetLost, q.(target := None))
      case Some(t) => Acted(q.(target := Some(t)), turn, needs)
  }

  // ---- when an action runs -----------------------------------------------

  /** The live target that a turn arrives at, if any. */
  function Aim(p: Pending, turn: Turn): (r: Option<Target>)
    ensures r.Some? ==> HasId(turn.choices, r.value.id)
  {
    var q := Aimed(Widened(p, turn.reply), turn);
    if q.target.None? then None else Alive(q.target.value, turn.choices)
  }

  /**
   * An action on a single target runs exactly when the flow is not a bulk one, a live target is found, and, where
   * a confirmation is needed, the session was waiting for it when the turn began and the reply is a yes. It then
   * runs on that target and the session is cleared.
   */
  lemma RanIff(p: Pending, turn: Turn, needs: bool)
    ensures var o := Handled(p, turn, needs);
            && (o.said.Ran? <==>
                  && !Bulky(Widened(p, turn.reply)) && Aim(p, turn).Some?
                  && (needs ==> p.phase.AwaitConfirmation? && turn.reply.yes))
            && (o.said.Ran? ==>
                  o.said.id == Aim(p, turn).value.id && HasId(turn.choices, o.said.id) && o.storing.Clear?)
  {
    hide Resolved, Alive, HasId;
  }

  /** Where a confirmation is needed: which of prompting, waiting and acting a turn with a live target does. */
  lemma GateIff(p: Pending, turn: Turn)
    requires !Bulky(Widened(p, turn.reply))
    ensures var (o, aim) := (Handled(p, turn, true), Aim(p, turn));
            && (o.said.Prompt? <==> aim.Some? && !p.phase.AwaitConfirmation?)
            && (o.said.StillWaiting? <==> aim.Some? && p.phase.AwaitConfirmation? && !turn.reply.yes)
            && (o.said.Ran? <==> aim.Some? && p.phase.AwaitConfirmation? && turn.reply.yes)
            && (aim.None? <==> o.said.AskTarget? || o.said.TargetLost? || o.said.SpecifyTarget?)
            && (o.storing.Keep? <==> o.said.SpecifyTarget?)
  {
    hide Resolved, Alive, HasId;
  }

  /** The same for a bulk flow, which acts on exactly what the listing says can be deleted. */
  lemma BulkGateIff(p: Pending, turn: Turn)
    requires Bulky(Widened(p, turn.reply)) && Aimed(Widened(p, turn.reply), turn).target.None?
    ensures var o := Handled(p, turn, true);
            var some := turn.listing.Listed? && turn.listing.deletable != [];
            && (o.said.PromptBulk? <==> some && !p.phase.AwaitConfirmation?)
            && (o.said.StillWaiting? <==> some && p.phase.AwaitConfirmation? && !turn.reply.yes)
            && (o.said.RanBulk? <==> some && p.phase.AwaitConfirmation? && turn.reply.yes)
            && (o.said.RanBulk? ==> o.said.ids == turn.listing.deletable && o.storing.Clear?)
            && (o.said.NothingToDelete? <==> turn.listing.Listed? && turn.listing.deletable == [])
  {
    hide Resolved, Alive, HasId;
  }

  /** A prompt names the live target of its turn and leaves the session waiting for that very target. */
  lemma PromptEffect(p: Pending, turn: Turn)
    requires !p.step.OtherStep?
    ensures var o := Handled(p, turn, true);
            o.said.Prompt? ==>
              && !p.phase.AwaitConfirmation? && Aim(p, turn).Some? && o.said.id == Aim(p, turn).value.id
              && o.storing.Save? && o.storing.session.phase.AwaitConfirmation?
              && !Current(o.storing.session.step).Resolve? && !Bulky(o.storing.session)
              && (Trimmed(o.said.id) && o.said.id != "" ==>
                    o.storing.session.target.Some? && o.storing.session.target.value.id == o.said.id)
  {
    hide Resolved, Alive, HasId, Trim;
  }

  predicate IsPrompt(s: Said) { s.Prompt? || s.PromptBulk? }

  predicate IsAction(s: Said) { s.Ran? || s.RanBulk? }

  // ---- the target that was confirmed -------------------------------------

  /** The first choice that answers to the identifier, by its identifier, name or hint, is the one that has it. */
  predicate Answers(choices: seq<Choice>, id: string) {
    var i := First(choices, MatchesQuery(Trim(id)));
    Trim(id) != "" && i.Some? && choices[i.value].id == id
  }

  /** A look-up of the target keeps its identifier exactly when that identifier answers. */
  lemma AliveKeepsIdIff(target: Target, choices: seq<Choice>)
    requires Trimmed(target.id) && target.id != ""
    ensures Alive(target, choices).Some? && Alive(target, choices).value.id == target.id <==>
            Answers(choices, target.id)
  {
    hide Trim, EqualFold, FindUnique;
    var i := First(choices, MatchesQuery(target.id));
    if i.None? {
      forall c | c in choices ensures c.id != target.id {
        var k :| 0 <= k < |choices| && choices[k] == c;
        assert !MatchesQuery(target.id)(choices[k]);
      }
    }
  }

  /** A session that was prompted for the single target `id`. */
  predicate Prompted(p: Pending, id: string) {
    && p.phase.AwaitConfirmation? && p.target.Some? && p.target.value.id == id && !Bulky(p) && !Current(p.step).Resolve?
  }

  /** Turns in which the identifier always answers and, where that matters, no reply means all targets. */
  ghost predicate Steady(turns: seq<Turn>, p: Pending, id: string) {
    forall i :: 0 <= i < |turns| ==> Answers(turns[i].choices, id) && (Bulkable(p) ==> !turns[i].reply.all)
  }

  /** While the identifier answers, a waiting session stays as it is until a yes acts on exactly what was prompted. */
  lemma ConfirmedTurn(p: Pending, id: string, turn: Turn)
    requires Prompted(p, id) && Trimmed(id) && id != ""
    requires Answers(turn.choices, id) && (Bulkable(p) ==> !turn.reply.all)
    ensures var o := Handled(p, turn, true);
            if turn.reply.yes then o == Outcome(Ran(id), Clear)
            else o.said == StillWaiting && o.storing.Save? && Prompted(o.storing.session, id)
                 && Bulkable(o.storing.session) == Bulkable(p)
  {
    hide Trim, Resolved, Alive, HasId, Answers;
    AliveKeepsIdIff(p.target.value, turn.choices);
    RanIff(p, turn, true);
  }

  /** The first action in a list of turns, taken one after the other from a stored session. */
  function FirstAction(p: Pending, turns: seq<Turn>): Option<Said>
    decreases |turns|
  {
    if turns == [] then None
    else
      var o := Handled(p, turns[0], true);
      if IsAction(o.said) then Some(o.said)
      else
        match o.storing
        case Keep => FirstAction(p, turns[1..])
        case Save(q) => FirstAction(q, turns[1..])
        case Clear => None
  }

  /** Over any such turns the first action, if any, is on the target that was prompted. */
  lemma {:induction false} ActsOnWhatWasPrompted(p: Pending, id: string, turns: seq<Turn>)
    requires Prompted(p, id) && Trimmed(id) && id != "" && Steady(turns, p, id)
    ensures FirstAction(p, turns).Some? ==> FirstAction(p, turns) == Some(Ran(id))
    ensures FirstAction(p, turns).Some? <==> exists i :: 0 <= i < |turns| && turns[i].reply.yes
    decreases |turns|
  {
    hide Handled, Prompted, Bulkable, Answers, Trim;
    if turns != [] {
      ConfirmedTurn(p, id, turns[0]);
      var o := Handled(p, turns[0], true);
      if !turns[0].reply.yes {
        ActsOnWhatWasPrompted(o.storing.session, id, turns[1..]);
        if exists i :: 0 <= i < |turns| && turns[i].reply.yes {
          var i :| 0 <= i < |turns| && turns[i].reply.yes;
          assert turns[1..][i - 1].reply.yes;
        }
      }
    }
  }

  /** Where the identifier does not answer, a yes acts on something else, or on nothing. */
  lemma ElseActsElsewhere(p: Pending, id: string, turn: Turn)
    requires Prompted(p, id) && Trimmed(id) && id != "" && !Answers(turn.choices, id) &&
             (Bulkable(p) ==> !turn.reply.all)
    ensures Handled(p, turn, true).said != Ran(id)
  {
    hide Trim, Resolved, Alive, HasId, Answers;
    AliveKeepsIdIff(p.target.value, turn.choices);
    RanIff(p, turn, true);
  }

  /**
   * It takes a choice whose name or hint is another one's identifier, up to case, for that to happen while both live.
   */
  lemma OnlyByNameClash(choices: seq<Choice>, id: string)
    requires Trimmed(id) && id != "" && HasId(choices, id)
    requires forall c :: c in choices && c.id != id ==> !EqualFold(c.name, id) && !EqualFold(c.hint, id)
    ensures Answers(choices, id)
  {
    hide EqualFold, Trim;
    var k :| 0 <= k < |choices| && choices[k].id == id;
    var i := First(choices, MatchesQuery(id));
    assert MatchesQuery(id)(choices[k]);
    assert choices[i.value] in choices;
  }

  // ---- all targets --------------------------------------------------------

  /**
   * A prompt for one target can end in a bulk deletion that was never prompted for: a reply that means all targets
   * widens the waiting session without a word, and the next yes deletes everything that can be deleted.
   */
  lemma WideningIsNotPrompted(p: Pending, id: string, all: Turn, yes: Turn)
    requires Prompted(p, id) && Bulkable(p) && all.reply.all && !all.reply.yes && yes.reply.yes
    requires all.listing.Listed? && all.listing.deletable != [] && yes.listing.Listed? && yes.listing.deletable != []
    ensures var o := Handled(p, all, true);
            && o.said == StillWaiting && o.storing.Save?
            && Handled(o.storing.session, yes, true) == Outcome(RanBulk(yes.listing.deletable), Clear)
  {
    hide Resolved, Alive;
  }

  /** Only such a reply does that: otherwise a session prompted for one target never deletes in bulk. */
  lemma BulkNeedsWidening(p: Pending, id: string, turn: Turn)
    requires Prompted(p, id) && !(Bulkable(p) && turn.reply.all)
    ensures var o := Handled(p, turn, true);
            !o.said.RanBulk? && (o.storing.Save? ==> !Bulky(o.storing.session))
  {
    hide Resolved, Alive, Trim;
  }

  // ---- a target that is gone ----------------------------------------------

  /** Past the target step, without a target, and not a bulk flow. */
  predicate Wedged(p: Pending) {
    !Current(p.step).Resolve? && p.target.None? && !Bulky(p)
  }

  /** When the target of a prompted session cannot be found any more, the session that is stored is wedged. */
  lemma LostTargetWedges(p: Pending, id: string, turn: Turn)
    requires Prompted(p, id) && Alive(p.target.value, turn.choices).None? && !(Bulkable(p) && turn.reply.all)
    ensures var o := Handled(p, turn, true);
            o.said == TargetLost && o.storing.Save? && Wedged(o.storing.session) &&
                o.storing.session.phase.AwaitConfirmation?
  {
    hide Resolved, Alive;
  }

  /** A wedged session answers every reply in the same way and never moves, whatever is named in the reply. */
  lemma {:induction false} WedgedForever(p: Pending, turns: seq<Turn>, needs: bool)
    requires Wedged(p) && (Bulkable(p) ==> forall i :: 0 <= i < |turns| ==> !turns[i].reply.all)
    ensures forall i :: 0 <= i < |turns| ==> Handled(p, turns[i], needs) == Outcome(SpecifyTarget, Keep)
  {
    hide Resolved, Alive;
    forall i | 0 <= i < |turns| ensures Handled(p, turns[i], needs) == Outcome(SpecifyTarget, Keep) {
      assert Bulkable(p) ==> !turns[i].reply.all;
      var q := Aimed(Widened(p, turns[i].reply), turns[i]);
      assert q == p;
    }
  }

  // ---- the source's form --------------------------------------------------

  lemma {:induction false} FirstFrom(choices: seq<Choice>, i: nat, wanted: Choice -> bool)
    requires i < |choices| && wanted(choices[i]) && forall k :: 0 <= k < i ==> !wanted(choices[k])
    ensures First(choices, wanted) == Some(i)
  {}

  method FindOptionByIdOrName(choices: seq<Choice>, query: string) returns (found: Option<Choice>)
    ensures found == Find(choices, query)
  {
    hide Matches, Trim;
    var q := Trim(query);
    if q == "" { return None; }
    for i := 0 to |choices|
      invariant forall k :: 0 <= k < i ==> !MatchesQuery(q)(choices[k])
    {
      if Matches(choices[i], q) {
        FirstFrom(choices, i, MatchesQuery(q));
        return Some(choices[i]);
      }
    }
    return None;
  }

  method FindUniqueContainingOption(choices: seq<Choice>, query: string) returns (found: Option<Choice>)
    ensures found == FindUnique(choices, query)
  {
    hide Near, Trim, Lower;
    var q := Lower(Trim(query));
    if q == "" { return None; }
    var matches := [];
    for i := 0 to |choices|
      invariant matches == NearOnes(choices[..i], q)
    {
      assert choices[..i + 1][..i] == choices[..i];
      if Near(choices[i], q) { matches := matches + [choices[i]]; }
    }
    assert choices[..|choices|] == choices;
    if |matches| != 1 { return None; }
    return Some(matches[0]);
  }

  method FindEitherOption(choices: seq<Choice>, query: string) returns (found: Option<Choice>)
    ensures found == FindEither(choices, query)
  {
    hide Find, FindUnique;
    found := FindOptionByIdOrName(choices, query);
    if found.None? { found := FindUniqueContainingOption(choices, query); }
  }

  method ResolveTargetSelection(text: string, choices: seq<Choice>, existing: Option<Target>)
                                returns (r: Option<Target>)
    ensures r == Resolved(text, choices, existing)
  {
    hide FindEither, Trim;
    if existing.Some? && Trim(existing.value.id) != "" {
      for i := 0 to |choices|
        invariant forall k :: 0 <= k < i ==> !WithId(existing.value.id)(choices[k])
      {
        if choices[i].id == existing.value.id {
          FirstFrom(choices, i, WithId(existing.value.id));
          return Some(Target(choices[i].id, OrElse(choices[i].name, existing.value.name)));
        }
      }
      assert First(choices, WithId(existing.value.id)).None?;
    }
    var found := None;
    if existing.Some? && Trim(existing.value.name) != "" {
      found := FindEitherOption(choices, existing.value.name);
    }
    if found.None? { found := FindEitherOption(choices, text); }
    if found.None? { return None; }
    return Some(Target(found.value.id, found.value.name));
  }

  method EnsureLiveTargetReference(target: Target, choices: seq<Choice>) returns (r: Option<Target>)
    ensures r == Alive(target, choices)
  {
    hide Find, FindEither, Trim;
    FindBlank(choices, target.id);
    var found := FindOptionByIdOrName(choices, target.id);
    if found.None? && Trim(target.name) != "" {
      found := FindEitherOption(choices, target.name);
    }
    if found.None? { return None; }
    return Some(Target(found.value.id, OrElse(found.value.name, target.name)));
  }

  lemma FindBlank(choices: seq<Choice>, query: string)
    ensures Trim(query) == "" ==> Find(choices, query).None?
  {}

  /** The user's stored session; a turn works on a copy of it and saves, clears or leaves it. */
  class SkillStore {
    var live: Option<Pending>

    constructor ()
      ensures live == None
    {
      live := None;
    }

    method SaveSession(p: Pending)
      modifies this
      ensures live == Some(Stored(p))
    {
      live := Some(Stored(p));
    }

    method ClearSession()
      modifies this
      ensures live == None
    {
      live := None;
    }

    /** Prompt first; then wait for a yes; then say that the action may go ahead. */
    method Gate(session: Pending, reply: Reply, needs: bool, prompt: Said, act: Said) returns (said: Said)
      modifies this
      ensures said == Gated(session, reply, needs, prompt, act).said
      ensures live == Leaves(old(live), Gated(session, reply, needs, prompt, act).storing)
    {
      hide Stored;
      if needs && !session.phase.AwaitConfirmation? {
        SaveSession(session.(phase := AwaitConfirmation));
        return prompt;
      }
      if needs && !reply.yes {
        SaveSession(session);
        return StillWaiting;
      }
      ClearSession();
      return act;
    }

    method Act(session: Pending, turn: Turn, needs: bool) returns (said: Said)
      modifies this
      ensures said == Acted(session, turn, needs).said
      ensures live == Leaves(old(live), Acted(session, turn, needs).storing)
    {
      hide Gated;
      if session.target.None? && !Bulky(session) { return SpecifyTarget; }
      var p := session;
      if p.step.NoStep? { p := p.(step := Confirm); }
      if Bulky(p) {
        if turn.listing.Unreadable? { return CannotList; }
        if |turn.listing.deletable| == 0 {
          ClearSession();
          return NothingToDelete;
        }
        said := Gate(p, turn.reply, needs, PromptBulk, RanBulk(turn.listing.deletable));
        return;
      }
      said := Gate(p, turn.reply, needs, Prompt(p.target.value.id), Ran(p.target.value.id));
    }

    /** `handleSimpleEntitySkill` for the actions that may need a confirmation. */
    method HandleTurn(session: Pending, turn: Turn, needs: bool) returns (said: Said)
      modifies this
      ensures said == Handled(session, turn, needs).said
      ensures live == Leaves(old(live), Handled(session, turn, needs).storing)
    {
      hide Resolved, Alive, Acted, HasId, Stored;
      var p := session;
      if Bulkable(p) && turn.reply.all { p := p.(bulk := true, target := None); }
      if Current(p.step).Resolve? {
        var found := ResolveTargetSelection(turn.reply.text, turn.choices, p.target);
        if found.Some? { p := p.(target := found); }
        if p.target.None? && !Bulky(p) {
          SaveSession(p.(step := Resolve));
          return AskTarget;
        }
        if p.step.Resolve? { p := p.(step := Confirm); }
      }
      if p.target.Some? {
        var alive := EnsureLiveTargetReference(p.target.value, turn.choices);
        p := p.(target := alive);
        if alive.None? {
          SaveSession(p);
          return TargetLost;
        }
      }
      said := Act(p, turn, needs);
    }
  }

  function Leaves(live: Option<Pending>, s: Storing): Option<Pending> {
    match s case Keep => live case Save(p) => Some(p) case Clear => None
  }
}
