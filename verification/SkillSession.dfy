/** Skill sessions: a field map, and for traders a struct of slots that mirrors eight of its keys. */
module Sessions {
  import opened Text

  datatype Skill = NoSkill | Trader | Exchange | Model | Strategy | OtherSkill(text: string)
  datatype Phase = NoPhase | Collecting | AwaitConfirmation | AwaitCreate | AwaitStart | OtherPhase(text: string)

  /** Field keys; `AiModelId` is the alias that a trader session reads as `ModelId`. */
  datatype Key = Name | ExchangeId | ExchangeName | ModelId | ModelName | StrategyId | StrategyName | AutoStart
               | AiModelId | Other(text: string)

  datatype EntityReference = EntityReference(id: string, name: string, source: string, updatedAt: Stamp)

  datatype Slots = Slots(name: string, exchangeId: string, exchangeName: string, modelId: string, modelName: string,
                         strategyId: string, strategyName: string, autoStart: Option<bool>)

  const NO_SLOTS := Slots("", "", "", "", "", "", "", None)

  datatype Session = Session(skill: Skill, action: string, phase: Phase, target: Option<EntityReference>,
                             fields: map<Key, string>, slots: Option<Slots>, updatedAt: Stamp)

  const NO_SESSION := Session(NoSkill, "", NoPhase, None, map[], None, Unset)

  /** The eight keys that have a slot. */
  predicate IsSlot(k: Key) { !k.AiModelId? && !k.Other? }

  const SLOT_KEYS: set<Key> := {Name, ExchangeId, ExchangeName, ModelId, ModelName, StrategyId, StrategyName, AutoStart}

  const TRUE := "true"
  const FALSE := "false"

  // ---- reading ------------------------------------------------------------

  function Get(fields: map<Key, string>, k: Key): (r: string)
    ensures Trimmed(r)
  {
    if k in fields then Trim(fields[k]) else ""
  }

  function FlagText(flag: Option<bool>): string {
    match flag
    case None => ""
    case Some(b) => if b then TRUE else FALSE
  }

  function SlotText(slots: Slots, k: Key): string {
    match k
    case Name => Trim(slots.name)
    case ExchangeId => Trim(slots.exchangeId)
    case ExchangeName => Trim(slots.exchangeName)
    case ModelId => Trim(slots.modelId)
    case ModelName => Trim(slots.modelName)
    case StrategyId => Trim(slots.strategyId)
    case StrategyName => Trim(slots.strategyName)
    case AutoStart => FlagText(slots.autoStart)
    case _ => ""
  }

  /** `normalizeFieldKey`. */
  function NormKey(skill: Skill, k: Key): Key {
    if skill.Trader? && k.AiModelId? then ModelId else k
  }

  /** `fieldValue`: the field, or for a trader the slot behind it. */
  function FieldValue(s: Session, k: Key): (r: string) {
    var key := NormKey(s.skill, k);
    if Get(s.fields, key) != "" then Get(s.fields, key)
    else if s.skill.Trader? && s.slots.Some? then SlotText(s.slots.value, key)
    else ""
  }

  // ---- writing ------------------------------------------------------------

  function Mirrored1(value: string, slot: string): string {
    if value == "" then slot else value
  }

  /** The slots after every non-blank field has been copied over them. */
  function Mirror(slots: Slots, fields: map<Key, string>): Slots {
    Slots(Mirrored1(Get(fields, Name), slots.name),
          Mirrored1(Get(fields, ExchangeId), slots.exchangeId),
          Mirrored1(Get(fields, ExchangeName), slots.exchangeName),
          Mirrored1(Get(fields, ModelId), slots.modelId), Mirrored1(Get(fields, ModelName), slots.modelName),
          Mirrored1(Get(fields, StrategyId), slots.strategyId),
          Mirrored1(Get(fields, StrategyName), slots.strategyName),
          if Get(fields, AutoStart) == "" then slots.autoStart else Some(EqualFold(Get(fields, AutoStart), TRUE)))
  }

  lemma MirrorTexts(slots: Slots, fields: map<Key, string>, k: Key)
    requires IsSlot(k)
    ensures Get(fields, k) == "" ==> SlotText(Mirror(slots, fields), k) == SlotText(slots, k)
    ensures Get(fields, k) != "" && !k.AutoStart? ==> SlotText(Mirror(slots, fields), k) == Get(fields, k)
    ensures Get(fields, k) != "" && k.AutoStart? ==>
              SlotText(Mirror(slots, fields), k) == FlagText(Some(EqualFold(Get(fields, k), TRUE)))
  {
    hide Trim, EqualFold;
  }

  /** `syncTraderCreateSlotMirror`. */
  function Synced(s: Session): Session {
    if !s.skill.Trader? then s
    else s.(slots := Some(Mirror(if s.slots.None? then NO_SLOTS else s.slots.value, s.fields)))
  }

  /** `setField`; `clean` is the clean-up applied to a trader's draft name. */
  function SetField(s: Session, k: Key, value: string, clean: string -> string): Session {
    var key := NormKey(s.skill, k);
    var v := if s.skill.Trader? && key.Name? && Trim(value) != "" then clean(Trim(value)) else Trim(value);
    if v == "" then s else Synced(s.(fields := s.fields[key := v]))
  }

  // ---- normalisation ------------------------------------------------------

  /** The value that ends up under `k`; `aliasWins` is the map order when both model keys are filled. */
  function FieldAfter(fields: map<Key, string>, skill: Skill, aliasWins: bool, k: Key): (r: string)
    ensures Trimmed(r)
  {
    if k == Other("") || (skill.Trader? && k.AiModelId?) then ""
    else if skill.Trader? && k.ModelId? && Get(fields, AiModelId) != "" && (aliasWins || Get(fields, ModelId) == "")
    then Get(fields, AiModelId)
    else Get(fields, k)
  }

  function NormalFields(fields: map<Key, string>, skill: Skill, aliasWins: bool): (r: map<Key, string>)
    ensures forall k :: Get(r, k) == FieldAfter(fields, skill, aliasWins, k)
    ensures forall k :: k in r ==> r[k] != "" && Trimmed(r[k])
  {
    map k | k in fields.Keys + {ModelId} && FieldAfter(fields, skill, aliasWins, k) != ""
      :: FieldAfter(fields, skill, aliasWins, k)
  }

  function TrimSlots(t: Slots): (r: Slots)
    ensures forall k :: SlotText(r, k) == SlotText(t, k)
  {
    hide Trim;
    Slots(Trim(t.name), Trim(t.exchangeId), Trim(t.exchangeName), Trim(t.modelId), Trim(t.modelName),
          Trim(t.strategyId), Trim(t.strategyName), t.autoStart)
  }

  /** The fields once the filled slots among `keys` are copied over them. */
  function Copied(fields: map<Key, string>, slots: Slots, keys: set<Key>): (r: map<Key, string>)
    requires forall k :: k in fields ==> fields[k] != ""
    ensures forall k :: k in r ==> r[k] != ""
  {
    map k | k in fields.Keys + keys && ((k in keys && SlotText(slots, k) != "") || k in fields)
      :: if k in keys && SlotText(slots, k) != "" then SlotText(slots, k) else fields[k]
  }

  /** Every filled slot is copied into the fields. */
  function WithSlots(fields: map<Key, string>, slots: Slots): (r: map<Key, string>)
    requires forall k :: k in fields ==> fields[k] != ""
    ensures forall k :: k in r ==> r[k] != ""
  {
    Copied(fields, slots, SLOT_KEYS)
  }

  lemma SlotTextTrimmed(slots: Slots, k: Key)
    ensures Trimmed(SlotText(slots, k))
  {
    hide Trim;
  }

  lemma WithSlotsGet(fields: map<Key, string>, slots: Slots, k: Key)
    requires forall x :: x in fields ==> fields[x] != "" && Trimmed(fields[x])
    ensures var r := WithSlots(fields, slots);
            && Get(r, k) == (if SlotText(slots, k) != "" then SlotText(slots, k) else Get(fields, k))
            && (k in r ==> Trimmed(r[k]))
  {
    hide Trim;
    SlotTextTrimmed(slots, k);
  }

  function NormalTarget(target: Option<EntityReference>, now: int): (r: Option<EntityReference>)
    ensures r.Some? ==> NormalRef(r.value)
    ensures target.Some? && NormalRef(target.value) ==> r == target
  {
    match target
    case None => None
    case Some(t) =>
      if Trim(t.id) == "" && Trim(t.name) == "" then None
      else Some(EntityReference(Trim(t.id), Trim(t.name), Trim(t.source), Fill(t.updatedAt, now)))
  }

  predicate NormalRef(t: EntityReference) {
    Trimmed(t.id) && Trimmed(t.name) && Trimmed(t.source) && t.updatedAt.At? && (t.id != "" || t.name != "")
  }

  predicate AnySlotFilled(s: Session) {
    exists k :: k in SLOT_KEYS && FieldValue(s, k) != ""
  }

  function Tidied(s: Session, now: int, aliasWins: bool): Session {
    s.(action := Trim(s.action), target := NormalTarget(s.target, now),
       fields := NormalFields(s.fields, s.skill, aliasWins), updatedAt := Fill(s.updatedAt, now))
  }

  /** Slots copied into the fields, then the fields back into the slots. */
  function Merged(s: Session, slots: Slots): Session
    requires forall k :: k in s.fields ==> s.fields[k] != ""
  {
    Synced(s.(fields := WithSlots(s.fields, TrimSlots(slots)), slots := Some(TrimSlots(slots))))
  }

  /** `normalizeSkillSession`. */
  function Normalize(s: Session, now: int, aliasWins: bool): Session {
    if s.skill.NoSkill? then NO_SESSION
    else
      var tidied := Tidied(s, now, aliasWins);
      match s.slots
      case None => tidied
      case Some(slots) =>
        var merged := Merged(tidied, slots);
        if AnySlotFilled(merged) then merged else merged.(slots := None)
  }

  // ---- what normalisation achieves ---------------------------------------

  predicate Flag(v: string) { v == "" || v == TRUE || v == FALSE }

  /** Fields in order: trimmed, not blank, no blank key, and no alias in a trader session. */
  ghost predicate NormalMap(fields: map<Key, string>, skill: Skill) {
    && (forall k :: k in fields ==> fields[k] != "" && Trimmed(fields[k]))
    && Other("") !in fields && (skill.Trader? ==> AiModelId !in fields)
  }

  /** Slots and fields say the same about all eight keys. */
  ghost predicate Agree(slots: Slots, fields: map<Key, string>) {
    forall k :: IsSlot(k) ==> SlotText(slots, k) == Get(fields, k)
  }

  /** The sessions that normalisation leaves alone. */
  ghost predicate Stable(s: Session) {
    var plain := Trimmed(s.action) && (s.target.Some? ==> NormalRef(s.target.value)) && s.updatedAt.At?;
    var agree := s.slots.Some? ==>
      && TrimSlots(s.slots.value) == s.slots.value && AnySlotFilled(s)
      && (forall k :: IsSlot(k) && SlotText(s.slots.value, k) != "" ==> SlotText(s.slots.value, k) == Get(s.fields, k))
      && (s.skill.Trader? ==> Agree(s.slots.value, s.fields));
    s == NO_SESSION || (!s.skill.NoSkill? && plain && NormalMap(s.fields, s.skill) && agree)
  }

  lemma NormalMapFixed(fields: map<Key, string>, skill: Skill, aliasWins: bool)
    requires NormalMap(fields, skill)
    ensures NormalFields(fields, skill, aliasWins) == fields
  {
    hide Trim;
    var r := NormalFields(fields, skill, aliasWins);
    forall k ensures (k in r <==> k in fields) && (k in r ==> r[k] == fields[k]) {
      assert FieldAfter(fields, skill, aliasWins, k) == Get(fields, k);
    }
  }

  lemma NoSlotText(slots: Slots, k: Key)
    ensures !IsSlot(k) ==> SlotText(slots, k) == ""
  {}

  lemma WithSlotsFixed(fields: map<Key, string>, slots: Slots)
    requires forall k :: k in fields ==> fields[k] != "" && Trimmed(fields[k])
    requires forall k :: IsSlot(k) && SlotText(slots, k) != "" ==> SlotText(slots, k) == Get(fields, k)
    ensures WithSlots(fields, slots) == fields
  {
    hide Trim, SlotText;
    var r := WithSlots(fields, slots);
    forall k ensures (k in r <==> k in fields) && (k in r ==> r[k] == fields[k]) {
      WithSlotsGet(fields, slots, k);
      NoSlotText(slots, k);
    }
  }

  lemma MirrorFixed(slots: Slots, fields: map<Key, string>)
    requires TrimSlots(slots) == slots && Agree(slots, fields)
    ensures Mirror(slots, fields) == slots
  {
    hide Trim, Get, EqualFold;
    FlagFold();
    var m := TrimSlots(slots);
    assert SlotText(slots, Name) == Get(fields, Name) && SlotText(slots, AutoStart) == Get(fields, AutoStart);
    assert SlotText(slots, ExchangeId) == Get(fields, ExchangeId) &&
        SlotText(slots, ExchangeName) == Get(fields, ExchangeName);
    assert SlotText(slots, ModelId) == Get(fields, ModelId) && SlotText(slots, ModelName) == Get(fields, ModelName);
    assert SlotText(slots, StrategyId) == Get(fields, StrategyId) &&
        SlotText(slots, StrategyName) == Get(fields, StrategyName);
  }

  lemma FlagFold()
    ensures EqualFold(TRUE, TRUE) && !EqualFold(FALSE, TRUE)
  {
    assert |Lower(FALSE)| != |Lower(TRUE)|;
  }

  lemma StableIsFixed(s: Session, now: int, aliasWins: bool)
    requires Stable(s)
    ensures Normalize(s, now, aliasWins) == s
  {
    hide Trim, Get, SlotText, FieldValue, NormalFields, WithSlots, TrimSlots, Mirror;
    if s != NO_SESSION {
      NormalMapFixed(s.fields, s.skill, aliasWins);
      if s.slots.Some? {
        WithSlotsFixed(s.fields, s.slots.value);
        if s.skill.Trader? { MirrorFixed(s.slots.value, s.fields); }
      }
    }
  }

  /** The fields and slots that normalisation gives a session with slots. */
  ghost function MergedFields(s: Session, aliasWins: bool): map<Key, string>
    requires s.slots.Some?
  {
    WithSlots(NormalFields(s.fields, s.skill, aliasWins), TrimSlots(s.slots.value))
  }

  lemma MergedFieldsNormal(s: Session, aliasWins: bool)
    requires s.slots.Some?
    ensures NormalMap(MergedFields(s, aliasWins), s.skill)
    ensures forall k :: IsSlot(k) && SlotText(s.slots.value, k) != "" ==>
              Get(MergedFields(s, aliasWins), k) == SlotText(s.slots.value, k)
  {
    hide Trim, SlotText, WithSlots, TrimSlots, NormalFields;
    var f, t := NormalFields(s.fields, s.skill, aliasWins), TrimSlots(s.slots.value);
    forall k
      ensures k in MergedFields(s, aliasWins) ==>
                Trimmed(MergedFields(s, aliasWins)[k]) && k != Other("") && (s.skill.Trader? ==> !k.AiModelId?)
      ensures IsSlot(k) && SlotText(s.slots.value, k) != "" ==>
                Get(MergedFields(s, aliasWins), k) == SlotText(s.slots.value, k)
    {
      WithSlotsGet(f, t, k);
      NoSlotText(t, k);
      assert Get(f, k) == FieldAfter(s.fields, s.skill, aliasWins, k);
    }
  }

  lemma FlagFixed(v: string)
    requires v != ""
    ensures FlagText(Some(EqualFold(v, TRUE))) == v <==> Flag(v)
  {
    hide EqualFold;
    FlagFold();
  }

  /** Synchronising fills the slots from the fields; they then agree unless a flag is not spelt true or false. */
  lemma MirrorAgrees(slots: Slots, fields: map<Key, string>)
    requires forall k :: IsSlot(k) && SlotText(slots, k) != "" ==> Get(fields, k) == SlotText(slots, k)
    ensures Agree(Mirror(slots, fields), fields) <==> Flag(Get(fields, AutoStart))
  {
    hide Trim, SlotText, Mirror, Flag, FlagText, EqualFold, Get;
    forall k | IsSlot(k) && !k.AutoStart? ensures SlotText(Mirror(slots, fields), k) == Get(fields, k) {
      MirrorTexts(slots, fields, k);
    }
    MirrorTexts(slots, fields, AutoStart);
    FlagAgreement(Get(fields, AutoStart), SlotText(Mirror(slots, fields), AutoStart), SlotText(slots, AutoStart));
  }

  lemma FlagAgreement(v: string, mirrored: string, slot: string)
    requires v == "" ==> mirrored == slot && slot == ""
    requires v != "" ==> mirrored == FlagText(Some(EqualFold(v, TRUE)))
    ensures mirrored == v <==> Flag(v)
  {
    hide EqualFold;
    if v != "" { FlagFixed(v); }
  }

  lemma MirrorTrimmed(slots: Slots, fields: map<Key, string>)
    requires TrimSlots(slots) == slots
    ensures TrimSlots(Mirror(slots, fields)) == Mirror(slots, fields)
  {
    hide Trim, EqualFold;
  }

  lemma TrimSlotsTwice(t: Slots)
    ensures TrimSlots(TrimSlots(t)) == TrimSlots(t)
  {
    hide Trim;
  }

  /** A trader session whose start flag is in the fields only, and not spelt true or false. */
  predicate OddFlag(s: Session) {
    s.skill.Trader? && s.slots.Some? && s.slots.value.autoStart.None? && !Flag(Get(s.fields, AutoStart))
  }

  lemma MergedFlag(s: Session, aliasWins: bool)
    requires s.skill.Trader? && s.slots.Some?
    ensures Flag(Get(MergedFields(s, aliasWins), AutoStart)) <==> !OddFlag(s)
  {
    hide Trim;
    var f := NormalFields(s.fields, s.skill, aliasWins);
    WithSlotsGet(f, TrimSlots(s.slots.value), AutoStart);
    assert Get(f, AutoStart) == FieldAfter(s.fields, s.skill, aliasWins, AutoStart) == Get(s.fields, AutoStart);
  }

  lemma NormalFieldsNormal(fields: map<Key, string>, skill: Skill, aliasWins: bool)
    ensures NormalMap(NormalFields(fields, skill, aliasWins), skill)
  {
    hide Trim;
  }

  lemma FlagIsNotBlank(v: string)
    requires !Flag(v)
    ensures v != ""
  {}

  lemma FlagFilled(s: Session)
    requires Get(s.fields, AutoStart) != ""
    ensures AnySlotFilled(s)
  {
    assert AutoStart in SLOT_KEYS && FieldValue(s, AutoStart) != "";
  }

  /** One normalisation reaches a stable session unless the start flag is odd. */
  lemma NormalizeStableIff(s: Session, now: int, aliasWins: bool)
    ensures Stable(Normalize(s, now, aliasWins)) <==> !OddFlag(s)
  {
    hide Trim, Get, SlotText, FieldValue, NormalFields, WithSlots, TrimSlots, Mirror, Flag;
    NormalFieldsNormal(s.fields, s.skill, aliasWins);
    if !s.skill.NoSkill? && s.slots.Some? {
      var t := TrimSlots(s.slots.value);
      MergedFieldsNormal(s, aliasWins);
      TrimSlotsTwice(s.slots.value);
      if s.skill.Trader? {
        MirrorAgrees(t, MergedFields(s, aliasWins));
        MirrorTrimmed(t, MergedFields(s, aliasWins));
        MergedFlag(s, aliasWins);
        if OddFlag(s) {
          FlagIsNotBlank(Get(MergedFields(s, aliasWins), AutoStart));
          FlagFilled(Merged(Tidied(s, now, aliasWins), s.slots.value));
        }
      }
    }
  }

  lemma NormalizedFlagIsEven(s: Session, now: int, aliasWins: bool)
    ensures !OddFlag(Normalize(s, now, aliasWins))
  {
    hide Trim, SlotText, FieldValue, NormalFields, WithSlots, TrimSlots, Flag, EqualFold;
    FlagBlank();
  }

  lemma FlagBlank()
    ensures Flag("")
  {}

  /** At one time, normalisation is idempotent exactly when the start flag is not odd. */
  lemma NormalizeIdempotentIff(s: Session, now: int, aliasWins: bool)
    ensures Normalize(Normalize(s, now, aliasWins), now, aliasWins) == Normalize(s, now, aliasWins) <==> !OddFlag(s)
  {
    hide Normalize, OddFlag, Stable;
    var r := Normalize(s, now, aliasWins);
    NormalizeStableIff(s, now, aliasWins);
    NormalizedFlagIsEven(s, now, aliasWins);
    NormalizeStableIff(r, now, aliasWins);
    if Stable(r) { StableIsFixed(r, now, aliasWins); }
  }

  /** Loading what was saved always yields a session that further loads and saves keep. */
  lemma NormalizeTwiceStable(s: Session, t1: int, a1: bool, t2: int, a2: bool)
    ensures Stable(Normalize(Normalize(s, t1, a1), t2, a2))
  {
    hide Normalize, OddFlag, Stable;
    NormalizedFlagIsEven(s, t1, a1);
    NormalizeStableIff(Normalize(s, t1, a1), t2, a2);
  }

  // ---- fields and slots over time ----------------------------------------

  /** A trader session whose slots and fields say the same. */
  ghost predicate Mirrored(s: Session) {
    s.skill.Trader? && s.slots.Some? && Agree(s.slots.value, s.fields) && AiModelId !in s.fields
  }

  /** A draft name that is cleaned up to mere white space, which is stored all the same. */
  predicate Smudged(skill: Skill, k: Key, value: string, clean: string -> string) {
    && skill.Trader? && k.Name? && Trim(value) != ""
    && clean(Trim(value)) != "" && Trim(clean(Trim(value))) == ""
  }

  lemma SlotFlag(slots: Slots)
    ensures Flag(SlotText(slots, AutoStart))
  {}

  lemma AgreeAfterSync(slots: Slots, before: map<Key, string>, after: map<Key, string>, key: Key)
    requires Agree(slots, before) && (Get(after, key) != "" || key.Name?)
    requires forall k :: k != key ==> Get(after, k) == Get(before, k)
    ensures Agree(Mirror(slots, after), after) <==>
            && (key.AutoStart? ==> Flag(Get(after, AutoStart)))
            && (Get(after, key) == "" ==> SlotText(slots, Name) == "")
  {
    hide Trim, Get, SlotText, Mirror, Flag, FlagText, EqualFold;
    forall k | IsSlot(k) && !k.AutoStart?
      ensures SlotText(Mirror(slots, after), k) == if Get(after, k) == "" then SlotText(slots, k) else Get(after, k)
    {
      MirrorTexts(slots, after, k);
    }
    MirrorTexts(slots, after, AutoStart);
    if Get(after, AutoStart) != "" {
      FlagFixed(Get(after, AutoStart));
      if !key.AutoStart? {
        assert SlotText(slots, AutoStart) == Get(before, AutoStart);
        SlotFlag(slots);
      }
    }
    assert forall k :: IsSlot(k) && k != key ==> SlotText(slots, k) == Get(before, k);
  }

  /**
   * Writing a field keeps slots and fields in step, unless it writes a start flag other than true or false, or a
   * smudged name over a proper one.
   */
  lemma SetFieldMirroredIff(s: Session, k: Key, value: string, clean: string -> string)
    requires Mirrored(s)
    ensures Mirrored(SetField(s, k, value, clean)) <==>
            && (k.AutoStart? ==> Flag(Trim(value)))
            && (Smudged(s.skill, k, value, clean) ==> SlotText(s.slots.value, Name) == "")
  {
    hide Mirror, SlotText, Flag, EqualFold, Trim;
    var key := NormKey(s.skill, k);
    var v := if key.Name? && Trim(value) != "" then clean(Trim(value)) else Trim(value);
    FlagBlank();
    if v != "" {
      var after := s.fields[key := v];
      assert Get(after, key) == Trim(v);
      AgreeAfterSync(s.slots.value, s.fields, after, key);
      assert SetField(s, k, value, clean) == s.(fields := after, slots := Some(Mirror(s.slots.value, after)));
    }
  }

  /** A filled field is emptied by a write only when that is a smudged name and no slot holds the name. */
  lemma SetFieldEmptiesIff(s: Session, k: Key, value: string, clean: string -> string, x: Key)
    requires FieldValue(s, x) != ""
    ensures FieldValue(SetField(s, k, value, clean), x) == "" <==>
            && Smudged(s.skill, k, value, clean) && x.Name?
            && (s.slots.None? || SlotText(s.slots.value, Name) == "")
  {
    hide Trim, EqualFold, Flag, SlotText, Mirror;
    var r, key, written := SetField(s, k, value, clean), NormKey(s.skill, x), NormKey(s.skill, k);
    var v := if s.skill.Trader? && written.Name? && Trim(value) != "" then clean(Trim(value)) else Trim(value);
    if v != "" {
      assert r.fields == s.fields[written := v] && r.skill == s.skill;
      assert s.skill.Trader? ==> r.slots == Some(Mirror(if s.slots.None? then NO_SLOTS else s.slots.value, r.fields));
      if key == written {
        assert Get(r.fields, key) == Trim(v);
        if Trim(v) == "" {
          MirrorTexts(if s.slots.None? then NO_SLOTS else s.slots.value, r.fields, Name);
          NoSlotsText(Name);
        }
      } else if Get(s.fields, key) == "" {
        NoSlotText(s.slots.value, key);
        MirrorTexts(s.slots.value, r.fields, key);
      }
    }
  }

  lemma NoSlotsText(k: Key)
    ensures SlotText(NO_SLOTS, k) == ""
  {}

  lemma NormalizedFields(s: Session, now: int, aliasWins: bool)
    requires s.skill.Trader? && s.slots.Some?
    ensures Normalize(s, now, aliasWins).fields == MergedFields(s, aliasWins)
    ensures Normalize(s, now, aliasWins).skill == s.skill
  {
    hide Trim, Get, SlotText, FieldValue, NormalFields, WithSlots, TrimSlots, Mirror;
  }

  lemma NormalMapAlias(s: Session)
    requires NormalMap(s.fields, s.skill) && s.skill.Trader?
    ensures AiModelId !in s.fields
  {}

  lemma MergedValue(s: Session, aliasWins: bool, k: Key)
    requires s.skill.Trader? && s.slots.Some? && AiModelId !in s.fields && k != Other("") && !k.AiModelId?
    ensures Get(MergedFields(s, aliasWins), k) ==
            if SlotText(s.slots.value, k) != "" then SlotText(s.slots.value, k) else Get(s.fields, k)
  {
    hide Trim, SlotText, WithSlots, TrimSlots;
    var f := NormalFields(s.fields, s.skill, aliasWins);
    WithSlotsGet(f, TrimSlots(s.slots.value), k);
    assert Get(f, k) == FieldAfter(s.fields, s.skill, aliasWins, k);
    assert Get(s.fields, AiModelId) == "";
  }

  // ---- slots stay filled --------------------------------------------------

  /** A slot of a trader session that holds something. */
  predicate Filled(s: Session, k: Key) {
    s.skill.Trader? && s.slots.Some? && SlotText(s.slots.value, k) != ""
  }

  lemma FilledValue(s: Session, k: Key)
    requires Filled(s, k) && IsSlot(k)
    ensures FieldValue(s, k) != ""
  {}

  /** No write empties a filled slot, whatever is written where. */
  lemma WriteKeepsFilled(s: Session, k: Key, value: string, clean: string -> string, x: Key)
    requires Filled(s, x) && IsSlot(x)
    ensures Filled(SetField(s, k, value, clean), x)
  {
    hide Trim, EqualFold, Mirror, SlotText, Get;
    var r := SetField(s, k, value, clean);
    if r != s { MirrorTexts(s.slots.value, r.fields, x); }
  }

  /** Nor does saving and loading. */
  lemma ReloadKeepsFilled(s: Session, now: int, aliasWins: bool, x: Key)
    requires Filled(s, x) && IsSlot(x)
    ensures Filled(Normalize(s, now, aliasWins), x)
  {
    hide Trim, SlotText, TrimSlots, WithSlots, Mirror, NormalFields, EqualFold, Get;
    var merged := Merged(Tidied(s, now, aliasWins), s.slots.value);
    MirrorTexts(TrimSlots(s.slots.value), merged.fields, x);
    assert Filled(merged, x);
    FilledValue(merged, x);
    assert x in SLOT_KEYS;
  }

  // ---- a trader session over time -----------------------------------------

  /** A write through `setField`, or a save followed by a load. */
  datatype Change = Write(key: Key, value: string) | Reload(now: int, aliasWins: bool)

  function Apply(s: Session, c: Change, clean: string -> string): Session {
    match c
    case Write(k, value) => SetField(s, k, value, clean)
    case Reload(now, aliasWins) => Normalize(s, now, aliasWins)
  }

  function ApplyAll(s: Session, changes: seq<Change>, clean: string -> string): Session
    decreases |changes|
  {
    if changes == [] then s else ApplyAll(Apply(s, changes[0], clean), changes[1..], clean)
  }

  /** What a write to `k` leaves behind, and nothing when it is ignored or smudged. */
  function Written(k: Key, value: string, clean: string -> string): string {
    if k.Name? && Trim(value) != "" then Trim(clean(Trim(value))) else Trim(value)
  }

  /** The reference: one register per key, holding the last non-blank value written to it. */
  function Register(v: string, changes: seq<Change>, x: Key, clean: string -> string): string
    decreases |changes|
  {
    if changes == [] then v
    else
      var c := changes[0];
      var hit := c.Write? && NormKey(Trader, c.key) == NormKey(Trader, x) && Written(c.key, c.value, clean) != "";
      Register(if hit then Written(c.key, c.value, clean) else v, changes[1..], x, clean)
  }

  /** No field of a mirrored key is filled without its slot holding the same. */
  ghost predicate Covered(slots: Slots, fields: map<Key, string>) {
    forall k :: IsSlot(k) && Get(fields, k) != "" ==> SlotText(slots, k) == Get(fields, k)
  }

  /** A trader session in step: no alias key, and the slots cover the fields. */
  ghost predicate InStep(s: Session) {
    s.skill.Trader? && AiModelId !in s.fields && Covered(if s.slots.None? then NO_SLOTS else s.slots.value, s.fields)
  }

  /** The start flag is only ever written as true or false. */
  ghost predicate ProperFlags(changes: seq<Change>) {
    forall i :: 0 <= i < |changes| && changes[i].Write? && changes[i].key.AutoStart? ==> Flag(Trim(changes[i].value))
  }

  /** In step, a mirrored key reads as its slot and any other key as its field. */
  lemma InStepValue(s: Session, x: Key)
    requires InStep(s)
    ensures var key := NormKey(s.skill, x);
            FieldValue(s, x) ==
            if IsSlot(key) then SlotText(if s.slots.None? then NO_SLOTS else s.slots.value, key) else Get(s.fields, key)
  {
    hide Trim, Flag;
    var key := NormKey(s.skill, x);
    NoSlotText(if s.slots.None? then NO_SLOTS else s.slots.value, key);
    NoSlotsText(key);
  }

  lemma CoveredAfterSync(slots: Slots, before: map<Key, string>, after: map<Key, string>, key: Key)
    requires Covered(slots, before) && (key.AutoStart? ==> Flag(Get(after, key)))
    requires forall k :: k != key ==> Get(after, k) == Get(before, k)
    ensures Covered(Mirror(slots, after), after)
    ensures forall k :: IsSlot(k) ==>
              SlotText(Mirror(slots, after), k) == if k == key && Get(after, k) != "" then Get(after, k)
                  else SlotText(slots, k)
  {
    hide Trim, Get, SlotText, Mirror, Flag, FlagText, EqualFold;
    forall k | IsSlot(k)
      ensures Get(after, k) != "" ==> SlotText(Mirror(slots, after), k) == Get(after, k)
      ensures Get(after, k) == "" ==> SlotText(Mirror(slots, after), k) == SlotText(slots, k)
    {
      MirrorTexts(slots, after, k);
      if k.AutoStart? && Get(after, k) != "" {
        FlagFixed(Get(after, k));
        if k != key { SlotFlag(slots); }
      }
    }
  }

  lemma WriteInStep(s: Session, k: Key, value: string, clean: string -> string, x: Key)
    requires InStep(s) && (k.AutoStart? ==> Flag(Trim(value)))
    ensures InStep(SetField(s, k, value, clean))
    ensures FieldValue(SetField(s, k, value, clean), x) ==
            if NormKey(Trader, k) == NormKey(Trader, x) && Written(k, value, clean) != "" then Written(k, value, clean)
            else FieldValue(s, x)
  {
    hide Mirror, SlotText, Flag, EqualFold, Trim, Covered, FieldValue;
    var key := NormKey(s.skill, k);
    var v := if key.Name? && Trim(value) != "" then clean(Trim(value)) else Trim(value);
    InStepValue(s, x);
    TrimBlank();
    if v != "" {
      var after := s.fields[key := v];
      var slots := if s.slots.None? then NO_SLOTS else s.slots.value;
      assert Get(after, key) == Trim(v);
      CoveredAfterSync(slots, s.fields, after, key);
      var r := SetField(s, k, value, clean);
      assert r == s.(fields := after, slots := Some(Mirror(slots, after)));
      InStepValue(r, x);
    }
  }

  lemma TrimBlank()
    ensures Trim("") == ""
  {}

  lemma InStepEven(s: Session)
    requires InStep(s)
    ensures !OddFlag(s)
  {
    if s.slots.Some? { SlotFlag(s.slots.value); }
  }

  lemma ReloadInStep(s: Session, now: int, aliasWins: bool, x: Key)
    requires InStep(s) && x != Other("")
    ensures InStep(Normalize(s, now, aliasWins))
    ensures FieldValue(Normalize(s, now, aliasWins), x) == FieldValue(s, x)
  {
    hide Normalize, Trim, Get, SlotText, FieldValue, MergedFields, Covered, NormalFields;
    if s.slots.None? {
      ReloadUnslotted(s, now, aliasWins, x);
    } else {
      ReloadSlotted(s, now, aliasWins, x);
    }
  }

  lemma ReloadUnslotted(s: Session, now: int, aliasWins: bool, x: Key)
    requires InStep(s) && x != Other("") && s.slots.None?
    ensures InStep(Normalize(s, now, aliasWins))
    ensures FieldValue(Normalize(s, now, aliasWins), x) == FieldValue(s, x)
  {
    hide Trim, NormalFields, SlotText;
    var r := Normalize(s, now, aliasWins);
    NormalFieldsNormal(s.fields, s.skill, aliasWins);
    forall k | IsSlot(k) ensures Get(r.fields, k) == Get(s.fields, k) {
      assert Get(r.fields, k) == FieldAfter(s.fields, s.skill, aliasWins, k);
    }
    assert Get(r.fields, NormKey(Trader, x)) == FieldAfter(s.fields, s.skill, aliasWins, NormKey(Trader, x));
    InStepValue(s, x);
    InStepValue(r, x);
  }

  lemma ReloadSlotted(s: Session, now: int, aliasWins: bool, x: Key)
    requires InStep(s) && x != Other("") && s.slots.Some?
    ensures InStep(Normalize(s, now, aliasWins))
    ensures FieldValue(Normalize(s, now, aliasWins), x) == FieldValue(s, x)
    ensures Normalize(s, now, aliasWins).slots.Some? ==> Mirrored(Normalize(s, now, aliasWins))
  {
    hide Normalize, Trim, SlotText, FieldValue, MergedFields, Agree, Flag, Get, OddFlag, AnySlotFilled;
    var r, key := Normalize(s, now, aliasWins), NormKey(Trader, x);
    InStepEven(s);
    NormalizeStableIff(s, now, aliasWins);
    NormalizedFields(s, now, aliasWins);
    MergedFieldsNormal(s, aliasWins);
    NormalMapAlias(r);
    MergedValue(s, aliasWins, key);
    NoSlotText(s.slots.value, key);
    InStepValue(s, x);
    if r.slots.Some? { AgreeCovers(r.slots.value, r.fields, key); } else { UnslottedCovered(s, now, aliasWins, key); }
    InStepValue(r, x);
  }

  lemma AgreeCovers(slots: Slots, fields: map<Key, string>, key: Key)
    requires Agree(slots, fields)
    ensures Covered(slots, fields)
    ensures IsSlot(key) ==> SlotText(slots, key) == Get(fields, key)
  {}

  /** Slots are only dropped when no mirrored key is filled any more. */
  lemma UnslottedCovered(s: Session, now: int, aliasWins: bool, key: Key)
    requires s.skill.Trader? && s.slots.Some? && Normalize(s, now, aliasWins).slots.None?
    ensures Covered(NO_SLOTS, Normalize(s, now, aliasWins).fields)
    ensures IsSlot(key) ==> Get(Normalize(s, now, aliasWins).fields, key) == SlotText(NO_SLOTS, key) == ""
  {
    hide Trim, SlotText, TrimSlots, WithSlots, Mirror, NormalFields, Get;
    var merged := Merged(Tidied(s, now, aliasWins), s.slots.value);
    forall k | IsSlot(k) ensures Get(merged.fields, k) == "" {
      assert k in SLOT_KEYS && FieldValue(merged, k) == "";
    }
    NoSlotsText(key);
  }

  /**
   * Over any writes, saves and loads a trader session stays in step, and each key reads as the last
   * non-blank value written to it.
   */
  lemma {:induction false} SessionIsRegisters(s: Session, changes: seq<Change>, clean: string -> string, x: Key)
    requires InStep(s) && ProperFlags(changes) && x != Other("")
    ensures InStep(ApplyAll(s, changes, clean))
    ensures FieldValue(ApplyAll(s, changes, clean), x) == Register(FieldValue(s, x), changes, x, clean)
    decreases |changes|
  {
    hide InStep, Normalize, SetField, FieldValue, Written, Trim, Flag;
    if changes != [] {
      match changes[0] {
        case Write(k, value) => WriteInStep(s, k, value, clean, x);
        case Reload(now, aliasWins) => ReloadInStep(s, now, aliasWins, x);
      }
      assert ProperFlags(changes[1..]);
      SessionIsRegisters(Apply(s, changes[0], clean), changes[1..], clean, x);
    }
  }

  // ---- the two keys of the model ------------------------------------------

  /** The alias is folded into the model's key: it fills a blank one, and wins over a filled one if it is met later. */
  lemma AliasFolds(fields: map<Key, string>, aliasWins: bool)
    ensures var (r, alias, own) :=
            (NormalFields(fields, Trader, aliasWins), Get(fields, AiModelId), Get(fields, ModelId));
            && AiModelId !in r
            && Get(r, ModelId) == (if alias == "" then own else if own == "" || aliasWins then alias else own)
            && forall k :: k != ModelId && k != AiModelId && k != Other("") ==> Get(r, k) == Get(fields, k)
  {
    hide Trim;
    NormalFieldsNormal(fields, Trader, aliasWins);
  }

  /** A session of another skill keeps both keys as they are. */
  lemma NoAliasElsewhere(fields: map<Key, string>, skill: Skill, aliasWins: bool)
    requires !skill.Trader?
    ensures forall k :: k != Other("") ==> Get(NormalFields(fields, skill, aliasWins), k) == Get(fields, k)
  {
    hide Trim;
  }

  // ---- no odd flag arises -------------------------------------------------

  lemma WriteStaysEven(s: Session, k: Key, value: string, clean: string -> string)
    requires !OddFlag(s)
    ensures !OddFlag(SetField(s, k, value, clean))
  {
    hide Trim, EqualFold, Flag, Get;
    FlagBlank();
  }

  /**
   * Whatever is written, saved and loaded, no odd flag arises, as every write copies the flag into its slot: so from
   * a session without slots, the only kind that is ever made, saving twice is saving once.
   */
  lemma {:induction false} FlagStaysEven(s: Session, changes: seq<Change>, clean: string -> string, now: int, a: bool)
    requires !OddFlag(s)
    ensures !OddFlag(ApplyAll(s, changes, clean))
    ensures var r := ApplyAll(s, changes, clean); Normalize(Normalize(r, now, a), now, a) == Normalize(r, now, a)
    decreases |changes|
  {
    hide OddFlag, Normalize, SetField;
    if changes == [] {
      NormalizeIdempotentIff(s, now, a);
    } else {
      match changes[0] {
        case Write(k, value) => WriteStaysEven(s, k, value, clean);
        case Reload(t, aliasWins) => NormalizedFlagIsEven(s, t, aliasWins);
      }
      FlagStaysEven(Apply(s, changes[0], clean), changes[1..], clean, now, a);
    }
  }

  /**
   * A record that is odd: its flag was put into the fields alone. Only a stored text that no write of the program
   * made reads so; loading it spells the flag out in the slot, and loading again rewrites the field.
   */
  lemma OddRecord(now: int, a: bool)
    ensures var s := Session(Trader, "create", Collecting, None, map[AutoStart := "1"], Some(NO_SLOTS), Unset);
            OddFlag(s) && Normalize(Normalize(s, now, a), now, a) != Normalize(s, now, a)
  {
    hide Normalize;
    var s := Session(Trader, "create", Collecting, None, map[AutoStart := "1"], Some(NO_SLOTS), Unset);
    assert Trim("1") == "1";
    assert !Flag("1") by { assert |"1"| != |TRUE| && |"1"| != |FALSE|; }
    assert OddFlag(s);
    NormalizeIdempotentIff(s, now, a);
  }

  // ---- the source's in-place form ----------------------------------------

  /** Two maps without blank entries are equal when they answer every lookup alike. */
  lemma SameLookups(a: map<Key, string>, b: map<Key, string>)
    requires forall k :: k in a ==> a[k] != "" && Trimmed(a[k])
    requires forall k :: k in b ==> b[k] != "" && Trimmed(b[k])
    requires forall k :: Get(a, k) == Get(b, k)
    ensures a == b
  {
    hide Trim;
    forall k ensures (k in a <==> k in b) && (k in a ==> a[k] == b[k]) {
      assert Get(a, k) == Get(b, k);
    }
  }

  /** Which model key was met last once `k` is processed too. */
  predicate Wins(k: Key, value: string, was: bool) {
    if Trim(value) != "" && k.AiModelId? then true else if Trim(value) != "" && k.ModelId? then false else was
  }

  lemma FieldAfterStep(part: map<Key, string>, k: Key, value: string, skill: Skill, was: bool, x: Key)
    requires k !in part
    ensures FieldAfter(part[k := value], skill, Wins(k, value, was), x) ==
            if x == NormKey(skill, k) && x != Other("") && Trim(value) != "" then Trim(value)
            else FieldAfter(part, skill, was, x)
  {
    hide Trim;
  }

  lemma NormalFieldsStep(part: map<Key, string>, k: Key, value: string, skill: Skill, was: bool)
    requires k !in part
    ensures var key, before := NormKey(skill, k), NormalFields(part, skill, was);
            NormalFields(part[k := value], skill, Wins(k, value, was)) ==
            if key == Other("") || Trim(value) == "" then before else before[key := Trim(value)]
  {
    hide Trim, NormalFields, FieldAfter, Wins, NormKey;
    var key, before := NormKey(skill, k), NormalFields(part, skill, was);
    var after := if key == Other("") || Trim(value) == "" then before else before[key := Trim(value)];
    var more := NormalFields(part[k := value], skill, Wins(k, value, was));
    forall x ensures Get(more, x) == Get(after, x) {
      assert Get(before, x) == FieldAfter(part, skill, was, x);
      assert Get(more, x) == FieldAfter(part[k := value], skill, Wins(k, value, was), x);
      FieldAfterStep(part, k, value, skill, was, x);
    }
    SameLookups(more, after);
  }

  lemma NoFields(skill: Skill)
    ensures NormalFields(map[], skill, false) == map[]
  {
    hide Trim;
    forall k ensures FieldAfter(map[], skill, false, k) == "" {}
  }

  /** The loop over the field map; which of two model keys wins depends on the order of the keys. */
  method NormalizeFields(fields: map<Key, string>, skill: Skill)
    returns (normalized: map<Key, string>, ghost aliasWins: bool)
    ensures normalized == NormalFields(fields, skill, aliasWins)
  {
    hide Trim, FieldAfter, NormKey, Wins, NormalFields;
    normalized, aliasWins := map[], false;
    NoFields(skill);
    assert fields - fields.Keys == map[];
    var todo := fields.Keys;
    while todo != {}
      invariant todo <= fields.Keys
      invariant normalized == NormalFields(fields - todo, skill, aliasWins)
      decreases |todo|
    {
      var k :| k in todo;
      var key, value := NormKey(skill, k), Trim(fields[k]);
      ghost var part, was := fields - todo, aliasWins;
      if key != Other("") && value != "" {
        normalized := normalized[key := value];
      }
      aliasWins := Wins(k, fields[k], was);
      NormalFieldsStep(part, k, fields[k], skill, was);
      todo := todo - {k};
      assert part[k := fields[k]] == fields - todo;
    }
    assert fields - todo == fields;
  }

  lemma NothingCopied(fields: map<Key, string>, slots: Slots)
    requires forall k :: k in fields ==> fields[k] != ""
    ensures Copied(fields, slots, {}) == fields
  {}

  lemma SyncStamped(s: Session, at: Stamp)
    ensures Synced(s.(updatedAt := at)) == Synced(s).(updatedAt := at)
    ensures Synced(s).updatedAt == s.updatedAt && Synced(s).skill == s.skill
    ensures AnySlotFilled(Synced(s.(updatedAt := at))) == AnySlotFilled(Synced(s))
  {
    hide Mirror, SlotText, Get;
    forall k ensures FieldValue(Synced(s.(updatedAt := at)), k) == FieldValue(Synced(s), k) {}
  }

  /** A session that the handlers work on in place. */
  class SessionCell {
    var s: Session

    constructor (s: Session)
      ensures this.s == s
    {
      this.s := s;
    }

    /** `syncTraderCreateSlotMirror`, slot by slot. */
    method SyncMirror()
      modifies this
      ensures s == Synced(old(s))
    {
      hide Trim, Get, EqualFold;
      if !s.skill.Trader? { return; }
      if s.slots.None? { s := s.(slots := Some(NO_SLOTS)); }
      SyncNames();
      SyncStrategy();
    }

    method SyncNames()
      requires s.slots.Some?
      modifies this
      ensures var t, f := old(s).slots.value, old(s).fields;
              s == old(s).(slots := Some(t.(
                name := Mirrored1(Get(f, Name), t.name),
                exchangeId := Mirrored1(Get(f, ExchangeId), t.exchangeId),
                exchangeName := Mirrored1(Get(f, ExchangeName), t.exchangeName),
                modelId := Mirrored1(Get(f, ModelId), t.modelId))))
    {
      hide Trim, Get;
      var t := s.slots.value;
      if Get(s.fields, Name) != "" { t := t.(name := Get(s.fields, Name)); }
      if Get(s.fields, ExchangeId) != "" { t := t.(exchangeId := Get(s.fields, ExchangeId)); }
      if Get(s.fields, ExchangeName) != "" { t := t.(exchangeName := Get(s.fields, ExchangeName)); }
      if Get(s.fields, ModelId) != "" { t := t.(modelId := Get(s.fields, ModelId)); }
      s := s.(slots := Some(t));
    }

    method SyncStrategy()
      requires s.slots.Some?
      modifies this
      ensures var t, f := old(s).slots.value, old(s).fields;
              s == old(s).(slots := Some(t.(
                modelName := Mirrored1(Get(f, ModelName), t.modelName),
                strategyId := Mirrored1(Get(f, StrategyId), t.strategyId),
                strategyName := Mirrored1(Get(f, StrategyName), t.strategyName),
                autoStart := if Get(f, AutoStart) == "" then t.autoStart
                    else Some(EqualFold(Get(f, AutoStart), TRUE)))))
    {
      hide Trim, Get, EqualFold;
      var t := s.slots.value;
      if Get(s.fields, ModelName) != "" { t := t.(modelName := Get(s.fields, ModelName)); }
      if Get(s.fields, StrategyId) != "" { t := t.(strategyId := Get(s.fields, StrategyId)); }
      if Get(s.fields, StrategyName) != "" { t := t.(strategyName := Get(s.fields, StrategyName)); }
      if Get(s.fields, AutoStart) != "" { t := t.(autoStart := Some(EqualFold(Get(s.fields, AutoStart), TRUE))); }
      s := s.(slots := Some(t));
    }

    /** `setField`. */
    method Write(k: Key, value: string, clean: string -> string)
      modifies this
      ensures s == SetField(old(s), k, value, clean)
    {
      var key, v := NormKey(s.skill, k), Trim(value);
      if v == "" { return; }
      if s.skill.Trader? && key.Name? {
        v := clean(v);
        if v == "" { return; }
      }
      s := s.(fields := s.fields[key := v]);
      SyncMirror();
    }

    /** One slot, written over its field when it is filled; the slots in `done` were written before. */
    method CopySlot(k: Key, ghost was: map<Key, string>, ghost done: set<Key>) returns (ghost more: set<Key>)
      requires s.slots.Some? && forall x :: x in was ==> was[x] != ""
      requires s.fields == Copied(was, s.slots.value, done)
      modifies this
      ensures more == done + {k} && s == old(s).(fields := Copied(was, old(s).slots.value, more))
    {
      hide SlotText;
      more := done + {k};
      var text := SlotText(s.slots.value, k);
      if text != "" { s := s.(fields := s.fields[k := text]); }
      assert s.fields == Copied(was, s.slots.value, more);
    }

    /** The filled slots, written over the fields one after the other. */
    method CopySlots()
      requires s.slots.Some? && forall k :: k in s.fields ==> s.fields[k] != ""
      modifies this
      ensures s == old(s).(fields := WithSlots(old(s).fields, old(s).slots.value))
    {
      hide SlotText, Copied;
      ghost var was := s.fields;
      NothingCopied(was, s.slots.value);
      ghost var done := CopySlot(Name, was, {});
      done := CopySlot(ExchangeId, was, done);
      done := CopySlot(ExchangeName, was, done);
      done := CopySlot(ModelId, was, done);
      done := CopySlot(ModelName, was, done);
      done := CopySlot(StrategyId, was, done);
      done := CopySlot(StrategyName, was, done);
      done := CopySlot(AutoStart, was, done);
      assert done == SLOT_KEYS;
    }

    /** `normalizeSkillSession`. */
    method NormalizeInPlace(now: int) returns (ghost aliasWins: bool)
      modifies this
      ensures s == Normalize(old(s), now, aliasWins)
    {
      hide Trim, SlotText, NormalFields, WithSlots, TrimSlots, Mirror, NormalTarget, FieldValue, Synced, AnySlotFilled;
      var fields;
      fields, aliasWins := NormalizeFields(s.fields, s.skill);
      s := s.(action := Trim(s.action), target := NormalTarget(s.target, now), fields := fields);
      if s.slots.Some? {
        s := s.(slots := Some(TrimSlots(s.slots.value)));
        CopySlots();
        SyncStamped(s, Fill(s.updatedAt, now));
        SyncMirror();
        if !AnySlotFilled(s) {
          s := s.(slots := None);
        }
      }
      if s.skill.NoSkill? {
        s := NO_SESSION;
      } else {
        s := s.(updatedAt := Fill(s.updatedAt, now));
      }
    }
  }
}
