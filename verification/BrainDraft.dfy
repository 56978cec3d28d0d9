/** Trader drafts that the central brain drives: fields collected from what the model extracts, then one turn. */
module BrainDrafts {
  import opened Text
  import opened Sessions
  import opened TraderCreates

  /** What was collected, as text; a value that prints as `<nil>` stands for one that is absent. */
  type Collected = map<Key, string>

  /** The parts of an active session that such a draft uses. */
  datatype Active = Active(phase: Phase, collected: Collected)

  const NEW_ACTIVE := Active(Collecting, map[])

  const NIL := "<nil>"

  const EXECUTING := OtherPhase("executing")

  /** Settings of a trader that a draft may carry beside its slots. */
  const SETTINGS: set<Key> := {Other("scan_interval_minutes"), Other("is_cross_margin"), Other("show_in_competition")}

  /** `filterExtractedDataForActiveSession` while a trader is created. */
  function Filtered(data: Collected): (r: Collected)
    ensures forall k :: IsSlot(k) ==> (k in r <==> k in data) && (k in r ==> r[k] == data[k])
  {
    hide SETTINGS;
    map k | k in data && (IsSlot(k) || k in SETTINGS) :: data[k]
  }

  /** `mergeExtractedData`, once for each decision: what is extracted replaces what was collected, blank or not. */
  function Gathered(collected: Collected, data: seq<Collected>): Collected
    decreases |data|
  {
    if data == [] then collected else Gathered(collected + Filtered(data[0]), data[1..])
  }

  /** `activeFieldString`: what is said of a key, or nothing. */
  function Said(collected: Collected, k: Key): (r: string)
    ensures Trimmed(r) && r != NIL
  {
    if k in collected && Trim(collected[k]) != NIL then Trim(collected[k]) else ""
  }

  /** `activeToLegacySkillSession`: a session without slots; keys outside the filter are never collected. */
  function Handed(a: Active): Session {
    var fields := map k | k in a.collected && Said(a.collected, k) != "" :: Said(a.collected, k);
    Session(Trader, CREATE, if a.phase.NoPhase? then EXECUTING else a.phase, None, fields, None, Unset)
  }

  /** The fields of a session that say something, trimmed. */
  function Sayings(fields: map<Key, string>): map<Key, string> {
    map k | k in fields && Trim(fields[k]) != "" :: Trim(fields[k])
  }

  /** `activeSessionFromLegacy`: what the session says is laid over what was collected. */
  function TakenBack(a: Active, stored: Session): Active {
    Active(stored.phase, a.collected + Sayings(stored.fields))
  }

  // ---- one turn -----------------------------------------------------------

  /** Where the model sends the turn; without a route the missing fields decide. */
  datatype Route = Ask | Execute | Unsaid | Finish(kept: bool) | Abandon

  /** A turn of a draft begun anew or the active one: what each decision extracted, the route, and the user's reply. */
  datatype BrainTurn = BrainTurn(anew: bool, data: seq<Collected>, route: Route, reply: Reply, w: World)

  predicate Given(collected: Collected, k: Key) { k in collected && Trim(collected[k]) != "" }

  /** `missingRequiredFields` has nothing to name. */
  predicate AllGiven(collected: Collected) {
    && Given(collected, Name) && Given(collected, ExchangeId)
    && (Given(collected, ModelId) || Given(collected, AiModelId))
    && Given(collected, StrategyId)
  }

  function Decided(route: Route, collected: Collected): Route {
    if !route.Unsaid? then route else if AllGiven(collected) then Execute else Ask
  }

  /** The draft that a turn works on, with what was extracted. */
  function Driven(active: Option<Active>, t: BrainTurn): Option<Active> {
    match if t.anew then Some(NEW_ACTIVE) else active
    case None => None
    case Some(a) => Some(a.(collected := Gathered(a.collected, t.data)))
  }

  /** The turn is handed to the skill. */
  predicate Executes(active: Option<Active>, t: BrainTurn) {
    var a := Driven(active, t);
    a.Some? && Decided(t.route, a.value.collected).Execute?
  }

  /** The active session after a turn, and the tools that were called. */
  datatype Effect = Effect(active: Option<Active>, calls: seq<Call>)

  /** `executeActiveSkillSession`: the stored session is read back and given up, whatever it was. */
  function Executing(a: Active, reply: Reply, w: World): Effect {
    var o := Handled(Handed(a), reply, w);
    var stored := Saved(o.stored, w);
    Effect(if stored.skill.NoSkill? then None else Some(TakenBack(a, stored)), o.calls)
  }

  /** `driveActiveSession`. */
  function Drive(active: Option<Active>, t: BrainTurn): Effect {
    match Driven(active, t)
    case None => Effect(active, [])
    case Some(a) =>
      match Decided(t.route, a.collected)
      case Ask => Effect(Some(a), [])
      case Finish(kept) => Effect(if kept then Some(a) else None, [])
      case Abandon => Effect(None, [])
      case _ => Executing(a, t.reply, t.w)
  }

  // ---- when such a turn creates with all four fields ----------------------

  lemma HandedReads(a: Active, k: Key)
    requires IsSlot(k)
    ensures FieldValue(Handed(a), k) == Said(a.collected, k)
  {
    hide Trim;
  }

  /** The name is said, and each identifier is said or the name said for it leads to one. */
  predicate Enough(collected: Collected, w: World) {
    && Said(collected, Name) != ""
    && (Said(collected, ExchangeId) != "" || Leads(w.exchanges, Said(collected, ExchangeName)))
    && (Said(collected, ModelId) != "" || Leads(w.models, Said(collected, ModelName)))
    && (Said(collected, StrategyId) != "" || Leads(w.strategies, Said(collected, StrategyName)))
  }

  lemma HandedReady(a: Active, w: World)
    ensures Ready(Handed(a), w) <==> Enough(a.collected, w)
  {
    hide Handed, Said, FieldValue, Leads;
    HandedReads(a, Name);
    HandedReads(a, ExchangeId); HandedReads(a, ModelId); HandedReads(a, StrategyId);
    HandedReads(a, ExchangeName); HandedReads(a, ModelName); HandedReads(a, StrategyName);
    assert Handed(a).skill.Trader? by { HandedIsTrader(a); }
  }

  lemma HandedIsTrader(a: Active)
    ensures Handed(a).skill.Trader? && Handed(a).slots.None? && (Waits(Handed(a)) <==> WaitsActive(a))
    ensures forall reply :: Confirms(Handed(a), reply) <==> ConfirmsActive(a, reply)
  {}

  predicate WaitsActive(a: Active) { a.phase.AwaitCreate? || a.phase.AwaitStart? }

  predicate ConfirmsActive(a: Active, reply: Reply) {
    (a.phase.AwaitStart? && (reply.yes || reply.no)) || (a.phase.AwaitCreate? && reply.yes)
  }

  /**
   * A turn of the brain calls the create tool exactly when it is handed to the skill and confirms a waiting draft; the
   * call has all four fields exactly when, once everything is merged, the name is said and each identifier is said or
   * its name leads to one. The draft then waits no more.
   */
  lemma DriveCreatesIff(active: Option<Active>, t: BrainTurn)
    ensures var o := Drive(active, t);
            && (o.calls != [] <==> Executes(active, t) && ConfirmsActive(Driven(active, t).value, t.reply))
            && (o.calls != [] ==>
                  && o.calls[0].Create? && o.calls[0].name == Said(Driven(active, t).value.collected, Name)
                  && (Whole(o.calls[0]) <==> Enough(Driven(active, t).value.collected, t.w))
                  && (o.active.Some? ==> !WaitsActive(o.active.value))
                  && o.calls[1..] == (if Driven(active, t).value.phase.AwaitStart? && t.reply.yes && t.w.created.Made?
                                      then [Start(t.w.created.id)] else []))
  {
    hide Handled, Handed, Saved, Enough, Ready, Driven, AllGiven, Whole, TakenBack, Sound, FieldValue, Said;
    var d := Driven(active, t);
    if Executes(active, t) {
      HandedIsTrader(d.value);
      HandedReady(d.value, t.w);
      HandedPhase(d.value);
      HandedReads(d.value, Name);
      TurnSound(Handed(d.value), t.reply, t.w);
      StoredWaits(Handled(Handed(d.value), t.reply, t.w).stored, t.w);
      TakenBackPhase(d.value, Saved(Handled(Handed(d.value), t.reply, t.w).stored, t.w));
    }
  }

  lemma HandedPhase(a: Active)
    ensures Handed(a).phase.AwaitStart? <==> a.phase.AwaitStart?
  {}

  lemma TakenBackPhase(a: Active, stored: Session)
    ensures WaitsActive(TakenBack(a, stored)) <==> Waits(stored)
  {}

  lemma StoredWaits(s: Session, w: World)
    requires Sound(s)
    ensures Sound(Saved(s, w)) && (Waits(Saved(s, w)) <==> Waits(s))
    ensures Saved(s, w).skill == s.skill
  {
    hide Backed, Complete;
    NothingSound();
    if !s.skill.NoSkill? {
      BackedIsTrader(s);
      SavedBacked(s, w);
    }
  }

  // ---- what is collected of a draft that waits ----------------------------

  /** A draft that waits says all four required fields. */
  ghost predicate SoundActive(a: Active) {
    WaitsActive(a) ==> forall k :: Required(k) ==> Said(a.collected, k) != ""
  }

  /** No live entity has an identifier that reads as an absent value. */
  ghost predicate Ordinary(w: World) {
    !Refers(w.exchanges, NIL) && !Refers(w.models, NIL) && !Refers(w.strategies, NIL)
  }

  /** What a slot holds is still held, and said by its field, after a save and a load. */
  lemma HoldsSaved(s: Session, k: Key, v: string, w: World)
    requires s.skill.Trader? && Required(k) && Holds(s, k, v)
    ensures Holds(Saved(s, w), k, v) && Get(Saved(s, w).fields, k) == v && Saved(s, w).skill.Trader?
  {
    hide Trim, SlotText, TrimSlots, WithSlots, Mirror, NormalFields, EqualFold, Get;
    RequiredIsSlot(k);
    ReloadKeepsFilled(s, w.now, w.aliasWins, k);
    NormalizedFields(s, w.now, w.aliasWins);
    MergedFieldsNormal(s, w.aliasWins);
    MirrorTexts(TrimSlots(s.slots.value), MergedFields(s, w.aliasWins), k);
  }

  /** Every required value of a draft looked up is one that was said or the identifier of a live entity. */
  lemma DraftedSays(a: Active, w: World, k: Key)
    requires Required(k) && Ordinary(w)
    ensures FieldValue(Drafted(Synced(Handed(a)), w), k) != NIL
  {
    hide Said, Handed, Hydrated, Synced, FieldValue, Refers, Findable, InStep;
    HandedIsTrader(a);
    RequiredIsSlot(k);
    HandedReads(a, k);
    SyncedReads(Handed(a), k);
    SyncedPhase(Handed(a));
    var s := Synced(Handed(a));
    var h := Hydrated(s, w);
    HydratedEffect(s, w);
    SamePhaseReads(h, Drafted(s, w).phase, k);
  }

  lemma SamePhaseReads(s: Session, p: Phase, k: Key)
    ensures FieldValue(s.(phase := p), k) == FieldValue(s, k)
  {}

  lemma TakenBackSays(a: Active, stored: Session, k: Key)
    ensures Get(stored.fields, k) != "" && Get(stored.fields, k) != NIL ==>
              Said(TakenBack(a, stored).collected, k) == Get(stored.fields, k)
  {
    hide Trim;
  }

  /** A draft that waits after a turn says all four required fields. */
  lemma ExecutingSound(a: Active, reply: Reply, w: World)
    requires Ordinary(w)
    ensures Executing(a, reply, w).active.Some? ==> SoundActive(Executing(a, reply, w).active.value)
  {
    hide Handed, Synced, Drafted, Executed, Saved, TakenBack, Required, Said, Ordinary, Sound, Ready, Backed;
    HandedIsTrader(a);
    var o := Handled(Handed(a), reply, w);
    var stored := Saved(o.stored, w);
    TurnSound(Handed(a), reply, w);
    StoredWaits(o.stored, w);
    TakenBackPhase(a, stored);
    if Executing(a, reply, w).active.Some? && Waits(stored) {
      WaitingDrafted(a, reply, w);
      forall k | Required(k) ensures Said(TakenBack(a, stored).collected, k) != "" { DraftSaid(a, w, k); }
    }
  }

  /** A turn leaves a waiting draft only by drafting it. */
  lemma WaitingDrafted(a: Active, reply: Reply, w: World)
    requires Waits(Handled(Handed(a), reply, w).stored)
    ensures Handled(Handed(a), reply, w).stored == Saved(Drafted(Synced(Handed(a)), w), w)
    ensures Backed(Drafted(Synced(Handed(a)), w)) && Complete(Drafted(Synced(Handed(a)), w))
  {
    hide Handed, Synced, Drafted, Executed, Saved, Ready, Backed, Complete, Sound;
    HandedIsTrader(a);
    var s := Synced(Handed(a));
    SyncedBacked(Handed(a));
    SyncedPhase(Handed(a));
    TurnSound(Handed(a), reply, w);
    DraftedComplete(s, w);
    SavedBacked(Drafted(s, w), w);
    Rephased(s, Collecting);
    SavedBacked(s.(phase := Collecting), w);
  }

  lemma DraftSaid(a: Active, w: World, k: Key)
    requires Required(k) && Ordinary(w)
    requires Backed(Drafted(Synced(Handed(a)), w)) && Complete(Drafted(Synced(Handed(a)), w))
    ensures Said(TakenBack(a, Saved(Saved(Drafted(Synced(Handed(a)), w), w), w)).collected, k) != ""
  {
    hide Handed, Synced, Drafted, Saved, Said, Ordinary, TakenBack, Required;
    var d := Drafted(Synced(Handed(a)), w);
    var v := FieldValue(d, k);
    BackedIsTrader(d);
    RequiredIsSlot(k);
    FilledValue(d, k);
    DraftedSays(a, w, k);
    HoldsSaved(d, k, v, w);
    HoldsSaved(Saved(d, w), k, v, w);
    TakenBackSays(a, Saved(Saved(d, w), w), k);
  }

  /** What is extracted never takes a required field away: it leaves it alone or says something. */
  ghost predicate Harmless(data: seq<Collected>) {
    forall i, k :: 0 <= i < |data| && Required(k) && k in data[i] ==> Said(data[i], k) != ""
  }

  lemma {:induction false} GatheredSays(collected: Collected, data: seq<Collected>, k: Key)
    requires Harmless(data) && Required(k) && Said(collected, k) != ""
    ensures Said(Gathered(collected, data), k) != ""
    decreases |data|
  {
    hide Filtered, Trim, Required;
    if data != [] {
      RequiredIsSlot(k);
      var next := collected + Filtered(data[0]);
      assert Said(next, k) == if k in data[0] then Said(data[0], k) else Said(collected, k);
      assert k in data[0] ==> Said(data[0], k) != "";
      assert Harmless(data[1..]);
      GatheredSays(next, data[1..], k);
    }
  }

  // ---- what a turn keeps --------------------------------------------------

  /** A key says what was extracted last for it, and otherwise what it said before. */
  lemma {:induction false} GatheredIs(collected: Collected, data: seq<Collected>, more: Collected, k: Key)
    requires IsSlot(k)
    ensures Said(Gathered(collected, data + [more]), k) ==
            if k in more then Said(more, k) else Said(Gathered(collected, data), k)
    decreases |data|
  {
    hide Filtered, Trim;
    if data == [] {
      assert data + [more] == [more] && [more][1..] == [];
      assert Gathered(collected, [more]) == collected + Filtered(more);
    } else {
      assert (data + [more])[1..] == data[1..] + [more] && (data + [more])[0] == data[0];
      GatheredIs(collected + Filtered(data[0]), data[1..], more, k);
    }
  }

  /** Taken back, a draft says what the session says, and otherwise what it said before. */
  lemma TakenBackIs(a: Active, stored: Session, k: Key)
    ensures Said(TakenBack(a, stored).collected, k) ==
            if Get(stored.fields, k) == NIL then "" else if Get(stored.fields, k) != "" then Get(stored.fields, k)
            else Said(a.collected, k)
    ensures TakenBack(a, stored).phase == stored.phase
  {
    TrimmedTwice();
    hide Trim;
  }

  lemma TrimmedTwice()
    ensures forall s :: Trim(Trim(s)) == Trim(s)
  {
    hide TrimLeft, TrimRight;
  }

  ghost predicate HasText(collected: Collected, k: Key) {
    k in collected && exists i :: 0 <= i < |collected[k]| && !IsSpace(collected[k][i])
  }

  lemma GivenIff(collected: Collected, k: Key)
    ensures Given(collected, k) <==> HasText(collected, k)
  {
    hide IsSpace;
    if k in collected {
      var s := collected[k];
      var a, b := TrimCuts(s);
      if Trim(s) != "" {
        assert !IsSpace(Trim(s)[0]) by { assert Trimmed(Trim(s)); }
        assert s[|a|] == Trim(s)[0];
      } else {
        assert s == a + b;
      }
    }
  }

  /**
   * What a turn of the brain does by its route: without one it executes exactly when a name and three identifiers were
   * collected, and asks otherwise; what it asks about, or finishes and keeps, holds all that was extracted.
   */
  lemma DriveByRoute(active: Option<Active>, t: BrainTurn)
    requires Driven(active, t).Some?
    ensures var (a, o) := (Driven(active, t).value, Drive(active, t));
            && (t.route.Unsaid? ==>
                  (Executes(active, t) <==>
                     && HasText(a.collected, Name) && HasText(a.collected, ExchangeId)
                     && (HasText(a.collected, ModelId) || HasText(a.collected, AiModelId))
                     && HasText(a.collected, StrategyId)))
            && (t.route.Execute? ==> Executes(active, t))
            && (t.route == Ask || (t.route.Unsaid? && !Executes(active, t)) ==> o == Effect(Some(a), []))
            && (t.route == Finish(true) ==> o == Effect(Some(a), []))
            && (t.route == Finish(false) || t.route == Abandon ==> o == Effect(None, []))
  {
    hide Executing, HasText, Given, Gathered;
    var c := Driven(active, t).value.collected;
    GivenIff(c, Name); GivenIff(c, ExchangeId); GivenIff(c, ModelId); GivenIff(c, AiModelId); GivenIff(c, StrategyId);
  }

  /** A turn works on a new draft or on the one there is; without either it does nothing. */
  lemma DrivenFrom(active: Option<Active>, t: BrainTurn)
    ensures t.anew ==> Driven(active, t) == Some(Active(Collecting, Gathered(map[], t.data)))
    ensures !t.anew && active.Some? ==>
              Driven(active, t) == Some(Active(active.value.phase, Gathered(active.value.collected, t.data)))
    ensures !t.anew && active.None? ==> Drive(active, t) == Effect(None, [])
  {}

  // ---- the source's form --------------------------------------------------

  /** `missingRequiredFields` is empty, slot by slot. */
  method HasAll(collected: Collected) returns (all: bool)
    ensures all == AllGiven(collected)
  {
    hide Trim;
    all := Given(collected, Name) && Given(collected, ExchangeId);
    if all && !Given(collected, ModelId) { all := Given(collected, AiModelId); }
    if all { all := Given(collected, StrategyId); }
  }

  lemma OverlayStep<K, V>(base: map<K, V>, part: map<K, V>, k: K, v: V)
    ensures (base + part)[k := v] == base + part[k := v]
  {}

  /** The active session, worked on in place, and the store in which the skill keeps its own. */
  class Driver {
    var active: Option<Active>
    const creator: Creator

    constructor (creator: Creator)
      ensures active == None && this.creator == creator
    {
      active := None;
      this.creator := creator;
    }

    /** `mergeExtractedData` of what passes the filter. */
    method MergeExtracted(data: Collected)
      requires active.Some?
      modifies this
      ensures active == Some(old(active).value.(collected := old(active).value.collected + Filtered(data)))
    {
      hide SETTINGS;
      ghost var was := active.value.collected;
      var todo: set<Key>, part: Collected := data.Keys, map[];
      assert was + part == was;
      while todo != {}
        invariant todo <= data.Keys && active == Some(old(active).value.(collected := was + part))
        invariant forall k :: k in part <==> k in data && k !in todo && (IsSlot(k) || k in SETTINGS)
        invariant forall k :: k in part ==> part[k] == data[k]
        decreases |todo|
      {
        var k := Pick(todo);
        if IsSlot(k) || k in SETTINGS {
          OverlayStep(was, part, k, data[k]);
          active := Some(active.value.(collected := active.value.collected[k := data[k]]));
          part := part[k := data[k]];
        }
        todo := todo - {k};
      }
      assert part == Filtered(data);
    }

    /** `activeToLegacySkillSession`. */
    method ToSession() returns (s: Session)
      requires active.Some?
      ensures s == Handed(active.value)
    {
      hide Said;
      var collected := active.value.collected;
      var todo: set<Key>, fields: map<Key, string> := collected.Keys, map[];
      while todo != {}
        invariant todo <= collected.Keys
        invariant forall k :: k in fields <==> k in collected && k !in todo && Said(collected, k) != ""
        invariant forall k :: k in fields ==> fields[k] == Said(collected, k)
        decreases |todo|
      {
        var k := Pick(todo);
        if Said(collected, k) != "" { fields := fields[k := Said(collected, k)]; }
        todo := todo - {k};
      }
      assert fields == Handed(active.value).fields;
      var phase := if active.value.phase.NoPhase? then EXECUTING else active.value.phase;
      s := Session(Trader, CREATE, phase, None, fields, None, Unset);
    }

    /** `activeSessionFromLegacy`. */
    method TakeBack(stored: Session)
      requires active.Some?
      modifies this
      ensures active == Some(TakenBack(old(active).value, stored))
    {
      hide Trim;
      ghost var was := active.value.collected;
      active := Some(active.value.(phase := stored.phase));
      var todo: set<Key>, part: Collected := stored.fields.Keys, map[];
      assert was + part == was;
      while todo != {}
        invariant todo <= stored.fields.Keys && active == Some(Active(stored.phase, was + part))
        invariant forall k :: k in part <==> k in stored.fields && k !in todo && Trim(stored.fields[k]) != ""
        invariant forall k :: k in part ==> part[k] == Trim(stored.fields[k])
        decreases |todo|
      {
        var k := Pick(todo);
        var v := Trim(stored.fields[k]);
        if v != "" {
          OverlayStep(was, part, k, v);
          active := Some(active.value.(collected := active.value.collected[k := v]));
          part := part[k := v];
        }
        todo := todo - {k};
      }
      assert part == Sayings(stored.fields);
    }

    /** `executeActiveSkillSession`. */
    method ExecuteActive(reply: Reply, w: World)
      requires active.Some?
      modifies this, creator
      ensures var o := Executing(old(active).value, reply, w);
              active == o.active && creator.calls == old(creator.calls) + o.calls && creator.stored == NO_SESSION
    {
      hide Handed, Handled, Saved, TakenBack;
      var legacy := ToSession();
      creator.SaveSession(legacy, w);
      creator.HandleCreateTrader(legacy, reply, w);
      var updated := creator.Loaded(w);
      creator.ClearSession();
      if updated.skill.NoSkill? { active := None; } else { TakeBack(updated); }
    }

    /** `driveActiveSession`, after the decisions that brought it here. */
    method DriveActive(t: BrainTurn)
      modifies this, creator
      ensures var o := Drive(old(active), t);
              active == o.active && creator.calls == old(creator.calls) + o.calls
      ensures creator.stored == if Executes(old(active), t) then NO_SESSION else old(creator.stored)
    {
      hide Executing, AllGiven, Filtered;
      if t.anew { active := Some(NEW_ACTIVE); }
      if active.None? { return; }
      ghost var base := active.value;
      for i := 0 to |t.data|
        invariant active.Some? && active.value.phase == base.phase
        invariant Gathered(base.collected, t.data) == Gathered(active.value.collected, t.data[i..])
        invariant creator.calls == old(creator.calls) && creator.stored == old(creator.stored)
      {
        MergeExtracted(t.data[i]);
        assert t.data[i..][1..] == t.data[i + 1..];
      }
      assert t.data[|t.data|..] == [];
      var route := t.route;
      if route.Unsaid? {
        var all := HasAll(active.value.collected);
        route := if all then Execute else Ask;
      }
      match route {
        case Ask =>
        case Execute => ExecuteActive(t.reply, t.w);
        case Finish(kept) => if !kept { active := None; }
        case Abandon => active := None;
      }
    }
  }
}
