/** Creating a trader over several turns: a draft is filled, confirmed, and then created and perhaps started. */
module TraderCreates {
  import opened Text
  import opened Sessions
  import C = Confirmations

  /** How the reply is taken. */
  datatype Reply = Reply(yes: bool, no: bool, cancel: bool)

  datatype Created = Refused(preserve: bool) | Garbled | Made(id: string)

  /** What a turn meets: the live entities, the verdict on the draft, the result of the create tool, and the clock. */
  datatype World = World(exchanges: seq<C.Choice>, models: seq<C.Choice>, strategies: seq<C.Choice>, valid: bool,
                         created: Created, now: int, aliasWins: bool, clean: string -> string)

  datatype Call = Create(name: string, exchange: string, model: string, strategy: string) | Start(id: string)

  /** The session that a turn leaves behind, and the tools it called. */
  datatype Outcome = Outcome(stored: Session, calls: seq<Call>)

  const CREATE := "create"

  const FRESH_SESSION := Session(Trader, CREATE, Collecting, None, map[], None, Unset)

  /** The four fields without which nothing is created. */
  predicate Required(k: Key) { k.Name? || k.ExchangeId? || k.ModelId? || k.StrategyId? }

  // ---- filling in references ---------------------------------------------

  /** The identifier behind a name, when only the name is known. */
  function Identified(s: Session, idKey: Key, nameKey: Key, choices: seq<C.Choice>, clean: string -> string): Session {
    if FieldValue(s, idKey) != "" || FieldValue(s, nameKey) == "" then s
    else
      match C.FindEither(choices, FieldValue(s, nameKey))
      case None => s
      case Some(c) => SetField(s, idKey, c.id, clean)
  }

  /** The identifier as it is now, and its name when that is not known. */
  function Named(s: Session, idKey: Key, nameKey: Key, choices: seq<C.Choice>, clean: string -> string): Session {
    if FieldValue(s, idKey) == "" then s
    else
      match C.Find(choices, FieldValue(s, idKey))
      case None => s
      case Some(c) =>
        var t := SetField(s, idKey, c.id, clean);
        if FieldValue(t, nameKey) == "" then SetField(t, nameKey, c.name, clean) else t
  }

  function Looked(s: Session, idKey: Key, nameKey: Key, choices: seq<C.Choice>, clean: string -> string): Session {
    Named(Identified(s, idKey, nameKey, choices, clean), idKey, nameKey, choices, clean)
  }

  /** `hydrateCreateTraderSlotReferences`. */
  function Hydrated(s: Session, w: World): Session {
    var s1 := Looked(s, ExchangeId, ExchangeName, w.exchanges, w.clean);
    var s2 := Looked(s1, ModelId, ModelName, w.models, w.clean);
    Looked(s2, StrategyId, StrategyName, w.strategies, w.clean)
  }

  // ---- one turn -----------------------------------------------------------

  function Saved(s: Session, w: World): Session {
    Normalize(s, w.now, w.aliasWins)
  }

  predicate Missing(s: Session) {
    FieldValue(s, Name) == "" || FieldValue(s, ExchangeId) == "" || FieldValue(s, ModelId) == "" ||
        FieldValue(s, StrategyId) == ""
  }

  /** `executeCreateTraderSkill`. */
  function Executed(s: Session, start: bool, w: World): Outcome {
    var h := Hydrated(s, w);
    var create := Create(FieldValue(h, Name), FieldValue(h, ExchangeId), FieldValue(h, ModelId),
                         FieldValue(h, StrategyId));
    match w.created
    case Refused(preserve) =>
      Outcome(if preserve then Saved(h.(phase := Collecting), w) else NO_SESSION, [create])
    case Garbled => Outcome(NO_SESSION, [create])
    case Made(id) => Outcome(NO_SESSION, if start then [create, Start(id)] else [create])
  }

  /** The draft is looked up, checked, and the next question decided. */
  function Drafted(s: Session, w: World): Session {
    var h := Hydrated(s, w);
    var ids := FieldValue(h, ExchangeId) != "" && FieldValue(h, ModelId) != "" && FieldValue(h, StrategyId) != "";
    h.(phase :=
      if (ids && !w.valid) || Missing(h) then Collecting
      else if FieldValue(h, AutoStart) == TRUE then AwaitStart
      else AwaitCreate)
  }

  /** `handleCreateTraderSkill`. */
  function Handled(session: Session, reply: Reply, w: World): Outcome {
    var s := Synced(if session.skill.NoSkill? then FRESH_SESSION else session);
    if s.phase.AwaitStart? && (reply.yes || reply.no) then Executed(s, reply.yes, w)
    else if s.phase.AwaitCreate? && reply.yes then Executed(s, false, w)
    else if s.phase.AwaitCreate? && (reply.no || reply.cancel) then Outcome(Saved(s.(phase := Collecting), w), [])
    else Outcome(Saved(Drafted(s, w), w), [])
  }

  // ---- drafts that wait are complete -------------------------------------

  /** Every required field that can be read is held, as it is read, by a slot. */
  ghost predicate Backed(s: Session) {
    s.skill.Trader? && forall k :: Required(k) && FieldValue(s, k) != "" ==> Holds(s, k, FieldValue(s, k))
  }

  predicate Holds(s: Session, k: Key, v: string) {
    Filled(s, k) && SlotText(s.slots.value, k) == v
  }

  /** All four required fields are held by slots. */
  ghost predicate Complete(s: Session) {
    forall k :: Required(k) ==> Filled(s, k)
  }

  predicate Waits(s: Session) { s.phase.AwaitCreate? || s.phase.AwaitStart? }

  /** What holds of the stored session at all times. */
  ghost predicate Sound(s: Session) {
    if s.skill.NoSkill? then !Waits(s) else Backed(s) && AiModelId !in s.fields && (Waits(s) ==> Complete(s))
  }

  lemma RequiredIsSlot(k: Key)
    ensures Required(k) ==> IsSlot(k) && !k.AutoStart?
  {}

  lemma SyncedBacked(s: Session)
    requires s.skill.Trader?
    ensures Backed(Synced(s)) && Synced(s).slots.Some?
  {
    hide Trim, EqualFold, Mirror, SlotText, Get, Required;
    forall k | Required(k) && FieldValue(Synced(s), k) != ""
      ensures Holds(Synced(s), k, FieldValue(Synced(s), k))
    {
      RequiredIsSlot(k);
      MirrorTexts(if s.slots.None? then NO_SLOTS else s.slots.value, s.fields, k);
    }
  }

  /** Synchronising changes no value that is read. */
  lemma SyncedReads(s: Session, k: Key)
    requires s.skill.Trader?
    ensures FieldValue(Synced(s), k) == FieldValue(s, k)
  {
    hide Trim, EqualFold, Mirror, SlotText, Get;
    var (t, key) := (if s.slots.None? then NO_SLOTS else s.slots.value, NormKey(s.skill, k));
    if IsSlot(key) { MirrorTexts(t, s.fields, key); }
    NoSlotText(Mirror(t, s.fields), key);
    NoSlotText(t, key);
    NoSlotsText(key);
  }

  lemma WriteBacked(s: Session, k: Key, value: string, clean: string -> string)
    requires Backed(s)
    ensures var r := SetField(s, k, value, clean);
            && Backed(r) && r.skill == s.skill && r.phase == s.phase && (Complete(s) ==> Complete(r))
            && (s.slots.Some? ==> r.slots.Some?) && (AiModelId !in s.fields ==> AiModelId !in r.fields)
  {
    hide Trim, EqualFold, Mirror, SlotText, Get, Backed, FieldValue, Filled, Required;
    var key, r := NormKey(s.skill, k), SetField(s, k, value, clean);
    BackedIsTrader(s);
    if r != s {
      var v := if s.skill.Trader? && key.Name? && Trim(value) != "" then clean(Trim(value)) else Trim(value);
      SyncedBacked(s.(fields := s.fields[key := v]));
    }
    if Complete(s) {
      forall x | Required(x) ensures Filled(r, x) {
        RequiredIsSlot(x);
        WriteKeepsFilled(s, k, value, clean, x);
      }
    }
  }

  lemma BackedIsTrader(s: Session)
    requires Backed(s)
    ensures s.skill.Trader?
  {}

  /** Writes to a draft that is backed leave it so, with its skill and phase, and complete if it was. */
  ghost predicate Kept(before: Session, after: Session) {
    && Backed(after) && after.phase == before.phase && (Complete(before) ==> Complete(after))
    && (before.slots.Some? ==> after.slots.Some?) && (AiModelId !in before.fields ==> AiModelId !in after.fields)
  }

  lemma KeptTrans(a: Session, b: Session, c: Session)
    requires Kept(a, b) && Kept(b, c)
    ensures Kept(a, c)
  {
    hide Backed, Complete;
  }

  lemma WriteKept(s: Session, k: Key, value: string, clean: string -> string)
    requires Backed(s)
    ensures Kept(s, s) && Kept(s, SetField(s, k, value, clean)) && Backed(SetField(s, k, value, clean))
  {
    hide SetField, Backed, Complete;
    WriteBacked(s, k, value, clean);
  }

  lemma IdentifiedBacked(s: Session, idKey: Key, nameKey: Key, choices: seq<C.Choice>, clean: string -> string)
    requires Backed(s)
    ensures Kept(s, Identified(s, idKey, nameKey, choices, clean)) &&
            Backed(Identified(s, idKey, nameKey, choices, clean))
  {
    hide SetField, FieldValue, Backed, Kept, C.FindEither;
    var found := C.FindEither(choices, FieldValue(s, nameKey));
    WriteKept(s, idKey, if found.Some? then found.value.id else "", clean);
  }

  lemma NamedBacked(s: Session, idKey: Key, nameKey: Key, choices: seq<C.Choice>, clean: string -> string)
    requires Backed(s)
    ensures Kept(s, Named(s, idKey, nameKey, choices, clean))
  {
    hide SetField, FieldValue, Backed, Kept, C.Find;
    var now := C.Find(choices, FieldValue(s, idKey));
    var (id, name) := if now.Some? then (now.value.id, now.value.name) else ("", "");
    var t := SetField(s, idKey, id, clean);
    WriteKept(s, idKey, id, clean);
    WriteKept(t, nameKey, name, clean);
    KeptTrans(s, t, SetField(t, nameKey, name, clean));
  }

  lemma LookedBacked(s: Session, idKey: Key, nameKey: Key, choices: seq<C.Choice>, clean: string -> string)
    requires Backed(s)
    ensures Kept(s, Looked(s, idKey, nameKey, choices, clean)) && Backed(Looked(s, idKey, nameKey, choices, clean))
  {
    hide Identified, Named, Backed, Complete;
    var t := Identified(s, idKey, nameKey, choices, clean);
    IdentifiedBacked(s, idKey, nameKey, choices, clean);
    NamedBacked(t, idKey, nameKey, choices, clean);
    KeptTrans(s, t, Named(t, idKey, nameKey, choices, clean));
  }

  lemma HydratedBacked(s: Session, w: World)
    requires Backed(s)
    ensures Kept(s, Hydrated(s, w))
  {
    hide Looked, Backed, Complete;
    LookedBacked(s, ExchangeId, ExchangeName, w.exchanges, w.clean);
    var s1 := Looked(s, ExchangeId, ExchangeName, w.exchanges, w.clean);
    LookedBacked(s1, ModelId, ModelName, w.models, w.clean);
    LookedBacked(Looked(s1, ModelId, ModelName, w.models, w.clean), StrategyId, StrategyName, w.strategies, w.clean);
  }

  // ---- what looking up references changes --------------------------------

  predicate Refers(choices: seq<C.Choice>, id: string) {
    exists i :: 0 <= i < |choices| && Trim(choices[i].id) == id
  }

  /** The identifier is known, or its name leads to a live entity that has one. */
  predicate Findable(s: Session, idKey: Key, nameKey: Key, choices: seq<C.Choice>) {
    FieldValue(s, idKey) != "" || Leads(choices, FieldValue(s, nameKey))
  }

  predicate Leads(choices: seq<C.Choice>, name: string) {
    var found := C.FindEither(choices, name);
    name != "" && found.Some? && Trim(found.value.id) != ""
  }

  /** The identifier as it is known, or as the name leads to it. */
  ghost function KnownId(s: Session, idKey: Key, nameKey: Key, choices: seq<C.Choice>): string {
    if FieldValue(s, idKey) != "" then FieldValue(s, idKey)
    else if Leads(choices, FieldValue(s, nameKey)) then Trim(C.FindEither(choices, FieldValue(s, nameKey)).value.id)
    else ""
  }

  /** The first entity that answers to `v`, by its identifier, name or hint. */
  ghost predicate FirstAnswers(choices: seq<C.Choice>, i: int, v: string) {
    0 <= i < |choices| && C.Matches(choices[i], v) && forall j :: 0 <= j < i ==> !C.Matches(choices[j], v)
  }

  /** What `v` is refreshed to: the identifier of the first entity that answers to it, or itself if none does. */
  ghost predicate Refreshes(choices: seq<C.Choice>, v: string, r: string) {
    && (v == "" ==> r == "")
    && (v != "" && (forall i :: 0 <= i < |choices| ==> !C.Matches(choices[i], v)) ==> r == v)
    && (v != "" ==> forall i :: FirstAnswers(choices, i, v) ==> r == if Trim(choices[i].id) != ""
        then Trim(choices[i].id) else v)
  }

  lemma FoundRefreshes(choices: seq<C.Choice>, v: string)
    requires Trimmed(v)
    ensures var c := C.Find(choices, v);
            Refreshes(choices, v, if v != "" && c.Some? && Trim(c.value.id) != "" then Trim(c.value.id) else v)
  {
    hide C.Matches;
    if v != "" {
      var k := C.First(choices, C.MatchesQuery(v));
      forall i ensures 0 <= i < |choices| ==> (C.MatchesQuery(v)(choices[i]) <==> C.Matches(choices[i], v)) {}
      if k.Some? {
        assert FirstAnswers(choices, k.value, v);
        forall i | FirstAnswers(choices, i, v) ensures i == k.value {}
      }
    }
  }

  /** The identifier and the name of one kind of entity. */
  predicate Couple(idKey: Key, nameKey: Key) {
    (idKey.ExchangeId? && nameKey.ExchangeName?) || (idKey.ModelId? && nameKey.ModelName?) ||
        (idKey.StrategyId? && nameKey.StrategyName?)
  }

  lemma WriteChoice(s: Session, k: Key, value: string, clean: string -> string, x: Key)
    requires s.skill.Trader? && IsSlot(k) && !k.Name? && !k.AutoStart?
    ensures var r := SetField(s, k, value, clean);
            && r.skill.Trader? && (InStep(s) ==> InStep(r))
            && FieldValue(r, k) == (if Trim(value) != "" then Trim(value) else FieldValue(s, k))
            && (NormKey(Trader, x) != k ==> FieldValue(r, x) == FieldValue(s, x))
  {
    hide Trim, SetField, FieldValue, InStep;
    if InStep(s) { WriteInStep(s, k, value, clean, k); }
    WriteReads(s, k, value, clean, k);
    WriteReads(s, k, value, clean, x);
  }

  /** A write to a key other than the name is read back, and changes no other value. */
  lemma WriteReads(s: Session, k: Key, value: string, clean: string -> string, x: Key)
    requires s.skill.Trader? && IsSlot(k) && !k.Name?
    ensures SetField(s, k, value, clean).skill.Trader?
    ensures FieldValue(SetField(s, k, value, clean), x) ==
            if NormKey(Trader, x) == k && Trim(value) != "" then Trim(value) else FieldValue(s, x)
  {
    hide Trim, EqualFold, Mirror, SlotText;
    if Trim(value) != "" {
      var t := s.(fields := s.fields[k := Trim(value)]);
      assert SetField(s, k, value, clean) == Synced(t);
      SyncedReads(t, x);
    }
  }

  lemma ChoiceRefers(choices: seq<C.Choice>, c: C.Choice)
    requires c in choices
    ensures Refers(choices, Trim(c.id))
  {}

  lemma IdentifiedEffect(s: Session, idKey: Key, nameKey: Key, choices: seq<C.Choice>, clean: string -> string, x: Key)
    requires s.skill.Trader? && Couple(idKey, nameKey)
    ensures var r := Identified(s, idKey, nameKey, choices, clean);
            && r.skill.Trader? && (InStep(s) ==> InStep(r))
            && (NormKey(Trader, x) != idKey ==> FieldValue(r, x) == FieldValue(s, x))
            && (FieldValue(r, idKey) == FieldValue(s, idKey) || Refers(choices, FieldValue(r, idKey)))
            && (FieldValue(s, idKey) != "" ==> r == s)
            && (FieldValue(r, idKey) != "" <==> Findable(s, idKey, nameKey, choices))
            && FieldValue(r, idKey) == KnownId(s, idKey, nameKey, choices)
  {
    hide Trim, SetField, FieldValue, InStep, C.FindEither, Refers, NormKey;
    var found := C.FindEither(choices, FieldValue(s, nameKey));
    if found.Some? {
      WriteChoice(s, idKey, found.value.id, clean, x);
      ChoiceRefers(choices, found.value);
    }
  }

  lemma NamedEffect(s: Session, idKey: Key, nameKey: Key, choices: seq<C.Choice>, clean: string -> string, x: Key)
    requires s.skill.Trader? && Couple(idKey, nameKey)
    ensures var (r, c) := (Named(s, idKey, nameKey, choices, clean), C.Find(choices, FieldValue(s, idKey)));
            && r.skill.Trader? && (InStep(s) ==> InStep(r))
            && (NormKey(Trader, x) != idKey && NormKey(Trader, x) != nameKey ==> FieldValue(r, x) == FieldValue(s, x))
            && FieldValue(r, idKey) ==
               (if FieldValue(s, idKey) != "" && c.Some? && Trim(c.value.id) != "" then Trim(c.value.id)
                                        else FieldValue(s, idKey))
            && Refreshes(choices, FieldValue(s, idKey), FieldValue(r, idKey))
            && FieldValue(r, nameKey) ==
               (if FieldValue(s, idKey) != "" && c.Some? && FieldValue(s, nameKey) == "" then Trim(c.value.name)
                else FieldValue(s, nameKey))
  {
    hide Trim, SetField, FieldValue, InStep, C.Find, Refreshes;
    var now := C.Find(choices, FieldValue(s, idKey));
    ValueTrimmed(s, idKey);
    FoundRefreshes(choices, FieldValue(s, idKey));
    if now.Some? {
      var s2 := SetField(s, idKey, now.value.id, clean);
      WriteChoice(s, idKey, now.value.id, clean, x);
      WriteChoice(s2, nameKey, now.value.name, clean, x);
      WriteChoice(s2, nameKey, now.value.name, clean, idKey);
      WriteChoice(s, idKey, now.value.id, clean, nameKey);
    }
  }

  lemma ValueTrimmed(s: Session, k: Key)
    ensures Trimmed(FieldValue(s, k))
  {
    hide Trim;
    if s.slots.Some? { SlotTextTrimmed(s.slots.value, NormKey(s.skill, k)); }
  }

  /**
   * Only the couple of keys changes; an identifier that changes is that of a live entity, and a known one is
   * refreshed.
   */
  lemma LookedEffect(s: Session, idKey: Key, nameKey: Key, choices: seq<C.Choice>, clean: string -> string, x: Key)
    requires s.skill.Trader? && Couple(idKey, nameKey)
    ensures var r := Looked(s, idKey, nameKey, choices, clean);
            && r.skill.Trader? && (InStep(s) ==> InStep(r))
            && (NormKey(Trader, x) != idKey && NormKey(Trader, x) != nameKey ==> FieldValue(r, x) == FieldValue(s, x))
            && (FieldValue(r, idKey) == FieldValue(s, idKey) || Refers(choices, FieldValue(r, idKey)))
            && (FieldValue(r, idKey) != "" <==> Findable(s, idKey, nameKey, choices))
            && Refreshes(choices, KnownId(s, idKey, nameKey, choices), FieldValue(r, idKey))
            && (FieldValue(s, nameKey) != "" ==> FieldValue(r, nameKey) == FieldValue(s, nameKey))
            && (FieldValue(s, idKey) != "" ==>
                  var c := C.Find(choices, FieldValue(s, idKey));
                  FieldValue(r, idKey) == if c.Some? && Trim(c.value.id) != "" then Trim(c.value.id)
                      else FieldValue(s, idKey))
  {
    hide Trim, FieldValue, InStep, C.Find, Refers, Findable, Identified, Named, NormKey, Refreshes, KnownId;
    CoupleKeys(idKey, nameKey);
    IdentifiedEffect(s, idKey, nameKey, choices, clean, nameKey);
    IdentifiedEffect(s, idKey, nameKey, choices, clean, x);
    var s1 := Identified(s, idKey, nameKey, choices, clean);
    NamedEffect(s1, idKey, nameKey, choices, clean, x);
    var c := C.Find(choices, FieldValue(s1, idKey));
    if c.Some? { ChoiceRefers(choices, c.value); }
  }

  lemma CoupleKeys(idKey: Key, nameKey: Key)
    requires Couple(idKey, nameKey)
    ensures NormKey(Trader, nameKey) == nameKey != idKey
  {}

  lemma LookedKeys(s: Session, idKey: Key, nameKey: Key, choices: seq<C.Choice>, clean: string -> string)
    requires s.skill.Trader? && Couple(idKey, nameKey)
    ensures var r := Looked(s, idKey, nameKey, choices, clean);
            && r.skill.Trader? && (InStep(s) ==> InStep(r))
            && (FieldValue(r, idKey) == FieldValue(s, idKey) || Refers(choices, FieldValue(r, idKey)))
            && (FieldValue(r, idKey) != "" <==> Findable(s, idKey, nameKey, choices))
            && Refreshes(choices, KnownId(s, idKey, nameKey, choices), FieldValue(r, idKey))
            && forall x :: NormKey(Trader, x) != idKey && NormKey(Trader, x) != nameKey ==>
               FieldValue(r, x) == FieldValue(s, x)
  {
    hide Looked, FieldValue, InStep, Refers, Findable, C.Find, Trim, Refreshes, KnownId;
    LookedEffect(s, idKey, nameKey, choices, clean, idKey);
    forall x | NormKey(Trader, x) != idKey && NormKey(Trader, x) != nameKey
      ensures FieldValue(Looked(s, idKey, nameKey, choices, clean), x) == FieldValue(s, x)
    {
      LookedEffect(s, idKey, nameKey, choices, clean, x);
    }
  }

  /**
   * Looking up the references of a draft changes nothing but the three couples; every identifier that it changes is
   * one of the live exchanges, models or strategies respectively; and an identifier is known afterwards exactly when
   * it was, or its name leads to one.
   */
  lemma HydratedEffect(s: Session, w: World)
    requires s.skill.Trader?
    ensures var h := Hydrated(s, w);
            && h.skill.Trader? && (InStep(s) ==> InStep(h))
            && FieldValue(h, Name) == FieldValue(s, Name) && FieldValue(h, AutoStart) == FieldValue(s, AutoStart)
            && Settles(s, h, ExchangeId, ExchangeName, w.exchanges)
            && Settles(s, h, ModelId, ModelName, w.models)
            && Settles(s, h, StrategyId, StrategyName, w.strategies)
  {
    hide Looked, FieldValue, InStep, Refers, Leads, C.Find, C.FindEither, Trim, Refreshes;
    var s1 := Looked(s, ExchangeId, ExchangeName, w.exchanges, w.clean);
    var s2 := Looked(s1, ModelId, ModelName, w.models, w.clean);
    LookedKeys(s, ExchangeId, ExchangeName, w.exchanges, w.clean);
    LookedKeys(s1, ModelId, ModelName, w.models, w.clean);
    LookedKeys(s2, StrategyId, StrategyName, w.strategies, w.clean);
  }

  ghost predicate Settles(s: Session, h: Session, idKey: Key, nameKey: Key, choices: seq<C.Choice>) {
    && (FieldValue(h, idKey) == FieldValue(s, idKey) || Refers(choices, FieldValue(h, idKey)))
    && (FieldValue(h, idKey) != "" <==> Findable(s, idKey, nameKey, choices))
    && Refreshes(choices, KnownId(s, idKey, nameKey, choices), FieldValue(h, idKey))
  }

  /**
   * The create call is made for this session: its name, and for each identifier what is known, or what its name leads
   * to, refreshed among the live entities of its kind; so that it is the session's own or that of such an entity.
   */
  ghost predicate MadeFor(c: Call, s: Session, w: World) {
    && c.Create? && c.name == FieldValue(s, Name)
    && Refreshes(w.exchanges, KnownId(s, ExchangeId, ExchangeName, w.exchanges), c.exchange)
    && Refreshes(w.models, KnownId(s, ModelId, ModelName, w.models), c.model)
    && Refreshes(w.strategies, KnownId(s, StrategyId, StrategyName, w.strategies), c.strategy)
    && (c.exchange == FieldValue(s, ExchangeId) || Refers(w.exchanges, c.exchange))
    && (c.model == FieldValue(s, ModelId) || Refers(w.models, c.model))
    && (c.strategy == FieldValue(s, StrategyId) || Refers(w.strategies, c.strategy))
  }

  /** Saving keeps a draft backed, and complete if it was, with its phase. */
  lemma SavedBacked(s: Session, w: World)
    requires Backed(s) && (s.slots.Some? || AiModelId !in s.fields)
    ensures var r := Saved(s, w);
            && Backed(r) && r.phase == s.phase && r.skill == s.skill && AiModelId !in r.fields
            && (Complete(s) ==> Complete(r))
  {
    hide Normalize, Filled, Required, Backed;
    BackedIsTrader(s);
    NormalizeKeepsPhase(s, w.now, w.aliasWins);
    if s.slots.Some? { SlottedBacked(s, w); } else { UnslottedBacked(s, w); }
    if Complete(s) {
      forall k | Required(k) ensures Filled(Saved(s, w), k) {
        RequiredIsSlot(k);
        ReloadKeepsFilled(s, w.now, w.aliasWins, k);
      }
    }
  }

  lemma SlottedBacked(s: Session, w: World)
    requires s.skill.Trader? && s.slots.Some?
    ensures Backed(Saved(s, w)) && AiModelId !in Saved(s, w).fields
  {
    hide Trim, Get, SlotText, FieldValue, NormalFields, WithSlots, TrimSlots, Mirror;
    MergedFieldsNormal(s, w.aliasWins);
    NormalizedFields(s, w.now, w.aliasWins);
    var tidied := Tidied(s, w.now, w.aliasWins);
    var slots := TrimSlots(s.slots.value);
    var t := tidied.(fields := WithSlots(tidied.fields, slots), slots := Some(slots));
    SyncedBacked(t);
    if !AnySlotFilled(Synced(t)) {
      forall k | Required(k) ensures FieldValue(Saved(s, w), k) == "" {
        assert k in SLOT_KEYS && FieldValue(Synced(t), k) == "";
        Unslotting(Synced(t), k);
      }
    }
  }

  lemma Unslotting(s: Session, k: Key)
    ensures FieldValue(s, k) == "" ==> FieldValue(s.(slots := None), k) == ""
  {
    hide Trim;
  }

  lemma UnslottedBacked(s: Session, w: World)
    requires Backed(s) && s.slots.None? && AiModelId !in s.fields
    ensures Backed(Saved(s, w)) && AiModelId !in Saved(s, w).fields
  {
    hide Trim;
    var r := Saved(s, w);
    NormalFieldsNormal(s.fields, s.skill, w.aliasWins);
    forall k | Required(k) ensures FieldValue(r, k) == "" {
      assert FieldValue(s, k) == "";
      assert Get(r.fields, k) == FieldAfter(s.fields, s.skill, w.aliasWins, k);
    }
  }

  lemma NormalizeKeepsPhase(s: Session, now: int, aliasWins: bool)
    requires s.skill.Trader?
    ensures Normalize(s, now, aliasWins).phase == s.phase && Normalize(s, now, aliasWins).skill == s.skill
  {
    hide Trim, Get, SlotText, FieldValue, NormalFields, WithSlots, TrimSlots, Mirror;
  }

  lemma Rephased(s: Session, p: Phase)
    ensures Complete(s.(phase := p)) == Complete(s) && Backed(s.(phase := p)) == Backed(s)
  {
    hide SlotText, Get;
    forall k ensures Filled(s.(phase := p), k) == Filled(s, k) && FieldValue(s.(phase := p), k) == FieldValue(s, k) {}
  }

  lemma CompleteReads(s: Session)
    requires Complete(s)
    ensures !Missing(s)
  {
    hide Filled, FieldValue;
    assert Required(Name) && Required(ExchangeId) && Required(ModelId) && Required(StrategyId);
    FilledValue(s, Name); FilledValue(s, ExchangeId); FilledValue(s, ModelId); FilledValue(s, StrategyId);
  }

  lemma BackedComplete(s: Session)
    requires Backed(s) && !Missing(s)
    ensures Complete(s)
  {
    hide Filled, FieldValue;
  }

  /** A draft that is to wait for a confirmation is complete. */
  lemma DraftedComplete(s: Session, w: World)
    requires Backed(s)
    ensures Drafted(s, w).skill.Trader? && (Waits(Drafted(s, w)) ==> Complete(Drafted(s, w)))
    ensures Backed(Drafted(s, w)) && (s.slots.Some? ==> Drafted(s, w).slots.Some?)
  {
    hide Hydrated, Backed, Complete, Missing, FieldValue;
    HydratedBacked(s, w);
    var h := Hydrated(s, w);
    BackedIsTrader(h);
    if !Missing(h) { BackedComplete(h); }
    Rephased(h, Drafted(s, w).phase);
  }

  // ---- one turn keeps it, and calls the tools only with complete drafts --

  predicate Whole(c: Call) {
    c.Create? ==> c.name != "" && c.exchange != "" && c.model != "" && c.strategy != ""
  }

  /** What it takes for a draft to be created with all four fields. */
  predicate Ready(s: Session, w: World) {
    && FieldValue(s, Name) != "" && Findable(s, ExchangeId, ExchangeName, w.exchanges)
    && Findable(s, ModelId, ModelName, w.models) && Findable(s, StrategyId, StrategyName, w.strategies)
  }

  lemma ExecutedSound(s: Session, start: bool, w: World)
    requires Backed(s) && s.slots.Some?
    ensures var o := Executed(s, start, w);
            && Sound(o.stored) && !Waits(o.stored) && |o.calls| >= 1 && o.calls[0].Create?
            && MadeFor(o.calls[0], s, w) && (Whole(o.calls[0]) <==> Ready(s, w))
            && (o.calls[1..] == if start && w.created.Made? then [Start(w.created.id)] else [])
  {
    hide Hydrated, Backed, Complete, Missing, FieldValue, Normalize, Findable, Refers, Refreshes, KnownId;
    BackedIsTrader(s);
    HydratedBacked(s, w);
    HydratedEffect(s, w);
    var h := Hydrated(s, w);
    BackedIsTrader(h);
    Rephased(h, Collecting);
    SavedBacked(h.(phase := Collecting), w);
    NothingSound();
  }

  lemma NothingSound()
    ensures Sound(NO_SESSION) && !Waits(NO_SESSION)
  {}

  /** A draft that waits, in the form in which drafts are stored, is ready whatever is live. */
  lemma WaitingIsReady(s: Session, w: World)
    requires s.skill.Trader? && Complete(s)
    ensures Ready(s, w)
  {
    hide Missing, FieldValue, Complete, C.FindEither;
    CompleteReads(s);
    CompleteMeans(s);
  }

  lemma CompleteMeans(s: Session)
    requires !Missing(s)
    ensures FieldValue(s, Name) != "" && FieldValue(s, ExchangeId) != "" && FieldValue(s, ModelId) != "" &&
            FieldValue(s, StrategyId) != ""
  {}

  /** Whether the reply confirms what the session waits for; while it waits to start, a no still creates. */
  predicate Confirms(s: Session, reply: Reply) {
    (s.phase.AwaitStart? && (reply.yes || reply.no)) || (s.phase.AwaitCreate? && reply.yes)
  }

  /**
   * Whatever session a turn is given, it leaves a sound one. The create tool is called exactly when a waiting session
   * is confirmed, which then no longer waits, and for the very identifiers of that session; all four fields are
   * filled in the call exactly when the name is not blank and each identifier is known or its name leads to one; and
   * the trader is started exactly when it was made, the session waited to start and the reply is a yes. A stored
   * session that waits is always ready.
   */
  lemma TurnSound(session: Session, reply: Reply, w: World)
    requires session.skill.NoSkill? || session.skill.Trader?
    ensures var o := Handled(session, reply, w);
            && Sound(o.stored)
            && (if session.skill.Trader? && Confirms(session, reply)
                then |o.calls| >= 1 && o.calls[0].Create? && !Waits(o.stored)
                     && MadeFor(o.calls[0], session, w) && o.calls[0].name == FieldValue(session, Name)
                     && (Whole(o.calls[0]) <==> Ready(session, w))
                     && o.calls[1..] == (if session.phase.AwaitStart? && reply.yes && w.created.Made?
                                         then [Start(w.created.id)] else [])
                else o.calls == [])
    ensures session.skill.Trader? && Sound(session) && Waits(session) ==> Ready(session, w)
  {
    hide Synced, Executed, Drafted, Backed, Complete, Normalize, Saved, Ready, Refreshes, KnownId, Refers, FieldValue;
    var begun := if session.skill.NoSkill? then FRESH_SESSION else session;
    var s := Synced(begun);
    SyncedBacked(begun);
    SyncedPhase(begun);
    SyncedReady(begun, w);
    SyncedReads(begun, Name);
    if Confirms(s, reply) {
      ExecutedSound(s, s.phase.AwaitStart? && reply.yes, w);
    } else {
      Rephased(s, Collecting);
      SavedBacked(s.(phase := Collecting), w);
      DraftedComplete(s, w);
      SavedBacked(Drafted(s, w), w);
    }
    if session.skill.Trader? && Sound(session) && Waits(session) { WaitingIsReady(session, w); }
  }

  lemma SyncedReady(s: Session, w: World)
    requires s.skill.Trader?
    ensures Ready(Synced(s), w) == Ready(s, w)
    ensures forall c :: MadeFor(c, Synced(s), w) == MadeFor(c, s, w)
  {
    hide Synced, FieldValue, Leads, Refreshes, Refers, C.FindEither;
    SyncedReads(s, Name);
    SyncedReads(s, ExchangeId); SyncedReads(s, ModelId); SyncedReads(s, StrategyId);
    SyncedReads(s, ExchangeName); SyncedReads(s, ModelName); SyncedReads(s, StrategyName);
  }

  lemma SyncedPhase(s: Session)
    ensures Synced(s).phase == s.phase && Synced(s).skill == s.skill
  {}

  /** A turn that neither confirms nor declines prompts exactly when the draft, looked up, is complete and accepted. */
  lemma WaitsIff(session: Session, reply: Reply, w: World)
    requires session.skill.Trader? && !Confirms(session, reply)
    requires session.phase.AwaitCreate? ==> !reply.no && !reply.cancel
    ensures var h := Hydrated(Synced(session), w);
            Waits(Handled(session, reply, w).stored) <==> !Missing(h) && w.valid
  {
    hide Synced, Hydrated, Backed, Complete, Normalize, Saved;
    SyncedBacked(session);
    SyncedPhase(session);
    DraftedComplete(Synced(session), w);
    SavedBacked(Drafted(Synced(session), w), w);
  }

  /** What is left of a session when it is saved with another phase: every value that is read, and that phase. */
  lemma SavedReads(s: Session, p: Phase, w: World, x: Key)
    requires InStep(s) && x != Other("")
    ensures var r := Saved(s.(phase := p), w);
            r.phase == p && r.skill.Trader? && FieldValue(r, x) == FieldValue(s, x)
  {
    hide Normalize, FieldValue;
    var t := s.(phase := p);
    ReloadInStep(t, w.now, w.aliasWins, x);
    NormalizeKeepsPhase(t, w.now, w.aliasWins);
    PhaseUnread(s, p, x);
  }

  lemma PhaseUnread(s: Session, p: Phase, x: Key)
    ensures FieldValue(s.(phase := p), x) == FieldValue(s, x)
  {}

  /**
   * What a turn leaves of a session in step: nothing once the trader is made or the creation failed for good; else
   * every value, as it was after a refusal of the draft and as it was looked up otherwise; and the phase that says
   * what is awaited: nothing while something is missing or the draft is not accepted, else the start if that is
   * wanted.
   */
  lemma TurnLeaves(session: Session, reply: Reply, w: World, x: Key)
    requires session.skill.Trader? && InStep(Synced(session)) && x != Other("")
    ensures var (r, h) := (Handled(session, reply, w).stored, Hydrated(Synced(session), w));
            if Confirms(session, reply) then
              if w.created == Refused(true) then r.phase == Collecting && FieldValue(r, x) == FieldValue(h, x)
              else r == NO_SESSION
            else if session.phase.AwaitCreate? && (reply.no || reply.cancel) then
              r.phase == Collecting && FieldValue(r, x) == FieldValue(session, x)
            else
              && FieldValue(r, x) == FieldValue(h, x)
              && r.phase == (if !w.valid || FieldValue(h, Name) == "" || FieldValue(h, ExchangeId) == ""
                                || FieldValue(h, ModelId) == "" || FieldValue(h, StrategyId) == "" then Collecting
                             else if FieldValue(h, AutoStart) == "true" then AwaitStart else AwaitCreate)
  {
    hide Normalize, Saved, Hydrated, FieldValue, InStep, Synced, Refers, KnownId, Refreshes, Findable;
    var s := Synced(session);
    SyncedPhase(session);
    SyncedReads(session, x);
    HydratedEffect(s, w);
    var h := Hydrated(s, w);
    SavedReads(s, Collecting, w, x);
    SavedReads(h, Collecting, w, x);
    SavedReads(h, Drafted(s, w).phase, w, x);
  }

  // ---- the source's form --------------------------------------------------

  /** One kind of reference, looked up in place. */
  method Identify(cell: SessionCell, idKey: Key, nameKey: Key, choices: seq<C.Choice>, clean: string -> string)
    modifies cell
    ensures cell.s == Identified(old(cell.s), idKey, nameKey, choices, clean)
  {
    hide FieldValue, SetField, C.Find, C.FindEither;
    if FieldValue(cell.s, idKey) == "" && FieldValue(cell.s, nameKey) != "" {
      var found := C.FindEitherOption(choices, FieldValue(cell.s, nameKey));
      if found.Some? { cell.Write(idKey, found.value.id, clean); }
    }
  }

  method Refresh(cell: SessionCell, idKey: Key, nameKey: Key, choices: seq<C.Choice>, clean: string -> string)
    modifies cell
    ensures cell.s == Named(old(cell.s), idKey, nameKey, choices, clean)
  {
    hide FieldValue, SetField, C.Find, C.FindEither;
    if FieldValue(cell.s, idKey) == "" { return; }
    var found := C.FindOptionByIdOrName(choices, FieldValue(cell.s, idKey));
    if found.None? { return; }
    cell.Write(idKey, found.value.id, clean);
    if FieldValue(cell.s, nameKey) == "" { cell.Write(nameKey, found.value.name, clean); }
  }

  method LookUp(cell: SessionCell, idKey: Key, nameKey: Key, choices: seq<C.Choice>, clean: string -> string)
    modifies cell
    ensures cell.s == Looked(old(cell.s), idKey, nameKey, choices, clean)
  {
    hide Identified, Named;
    Identify(cell, idKey, nameKey, choices, clean);
    Refresh(cell, idKey, nameKey, choices, clean);
  }

  method HydrateReferences(cell: SessionCell, w: World)
    modifies cell
    ensures cell.s == Hydrated(old(cell.s), w)
  {
    hide Looked;
    LookUp(cell, ExchangeId, ExchangeName, w.exchanges, w.clean);
    LookUp(cell, ModelId, ModelName, w.models, w.clean);
    LookUp(cell, StrategyId, StrategyName, w.strategies, w.clean);
  }

  /** The stored session and the tools that were called. */
  class Creator {
    var stored: Session
    var calls: seq<Call>

    constructor ()
      ensures stored == NO_SESSION && calls == []
    {
      stored, calls := NO_SESSION, [];
    }

    method SaveSession(s: Session, w: World)
      modifies this
      ensures stored == Saved(s, w) && calls == old(calls)
    {
      stored := Normalize(s, w.now, w.aliasWins);
    }

    method Loaded(w: World) returns (s: Session)
      ensures s == Saved(stored, w)
    {
      s := Normalize(stored, w.now, w.aliasWins);
    }

    method ClearSession()
      modifies this
      ensures stored == NO_SESSION && calls == old(calls)
    {
      stored := NO_SESSION;
    }

    method ExecuteCreate(cell: SessionCell, start: bool, w: World)
      modifies this, cell
      ensures var o := Executed(old(cell.s), start, w); stored == o.stored && calls == old(calls) + o.calls
    {
      hide Hydrated, FieldValue, Saved;
      HydrateReferences(cell, w);
      var s := cell.s;
      calls := calls + [Create(FieldValue(s, Name), FieldValue(s, ExchangeId), FieldValue(s, ModelId),
                               FieldValue(s, StrategyId))];
      match w.created {
        case Refused(preserve) =>
          if preserve { SaveSession(s.(phase := Collecting), w); } else { stored := NO_SESSION; }
        case Garbled =>
          stored := NO_SESSION;
        case Made(id) =>
          if start { calls := calls + [Start(id)]; }
          stored := NO_SESSION;
      }
    }

    method HandleCreateTrader(session: Session, reply: Reply, w: World)
      modifies this
      ensures var o := Handled(session, reply, w); stored == o.stored && calls == old(calls) + o.calls
    {
      hide Hydrated, FieldValue, Saved, Synced, Executed;
      var cell := new SessionCell(if session.skill.NoSkill? then FRESH_SESSION else session);
      cell.SyncMirror();
      if cell.s.phase.AwaitStart? {
        if reply.yes { ExecuteCreate(cell, true, w); return; }
        if reply.no { ExecuteCreate(cell, false, w); return; }
      }
      if cell.s.phase.AwaitCreate? {
        if reply.yes { ExecuteCreate(cell, false, w); return; }
        if reply.no || reply.cancel { SaveSession(cell.s.(phase := Collecting), w); return; }
      }
      HydrateReferences(cell, w);
      var h := cell.s;
      if FieldValue(h, ExchangeId) != "" && FieldValue(h, ModelId) != "" && FieldValue(h, StrategyId) != "" &&
          !w.valid {
        SaveSession(h.(phase := Collecting), w);
        return;
      }
      if Missing(h) {
        SaveSession(h.(phase := Collecting), w);
        return;
      }
      if FieldValue(h, AutoStart) == TRUE {
        SaveSession(h.(phase := AwaitStart), w);
        return;
      }
      SaveSession(h.(phase := AwaitCreate), w);
    }
  }
}
