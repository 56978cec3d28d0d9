/** The draft of a strategy that is created over several turns: filtering, merging, switching type, cleaning patches. */
module StrategyDrafts {
  import opened Text

  /** The names of fields and of the keys of configuration objects. */
  datatype Key = Name | Description | IsPublic | ConfigVisible | Lang | StrategyType | ConfigPatch | AwaitingFinal
               | DraftConfig | DagStep
               | PublishConfig | GridConfig | AiConfig
               | CoinSource | Indicators | RiskControl | PromptSections | CustomPrompt | Klines
               | SourceType | StaticCoins | UseAi500 | UseOiTop | UseOiLow | PrimaryTimeframe | SelectedTimeframes
               | BtcEthMaxLeverage | BtcethMaxLeverage | AltcoinMaxLeverage | MinConfidence | MinRiskReward
               | TradingFrequency | EntryStandards
               | Symbol | GridCount | TotalInvestment | Leverage | Distribution | MaxDrawdown | StopLoss
               | DailyLossLimit
               | UseMakerOnly | UseAtrBounds | UpperPrice | LowerPrice
               | Other(text: string)

  /** JSON values; numbers, flags and lists are opaque. */
  datatype Value = Null | Str(text: string) | Obj(fields: map<Key, Value>) | Opaque(id: int)

  type Fields = map<Key, Value>

  const GRID := "grid_trading"
  const AI := "ai_trading"

  /** How texts are read: JSON objects in strings, and the strategy type that a value names (blank for none). */
  datatype Reader = Reader(json: string -> Option<Fields>, typeOf: Value -> string)

  ghost predicate Canonical(r: Reader) {
    && r.typeOf(Str(GRID)) == GRID && r.typeOf(Str(AI)) == AI && r.typeOf(Null) == ""
    && forall v :: r.typeOf(v) in ["", GRID, AI]
  }

  // ---- looking things up --------------------------------------------------

  function At(m: Fields, k: Key): Value {
    if k in m then m[k] else Null
  }

  /** `mapFromAny`; an absent object is an empty one. */
  function MapOf(v: Value, r: Reader): Fields {
    match v
    case Obj(m) => m
    case Str(s) => r.json(s).GetOr(map[])
    case _ => map[]
  }

  /** `strategyTypeFromConfigPatchAny`. */
  function TypeOfPatch(v: Value, r: Reader): string {
    var patch := MapOf(v, r);
    if patch == map[] then ""
    else if r.typeOf(At(patch, StrategyType)) != "" then r.typeOf(At(patch, StrategyType))
    else if GridConfig in patch then GRID
    else if AiConfig in patch then AI
    else ""
  }

  /** `strategyTypeFromExtractedData` and `strategyTypeFromCollectedFields`. */
  function TypeOf(m: Fields, r: Reader): string {
    if StrategyType in m && r.typeOf(m[StrategyType]) != "" then r.typeOf(m[StrategyType])
    else if ConfigPatch in m then TypeOfPatch(m[ConfigPatch], r)
    else ""
  }

  // ---- cleaning a patch ---------------------------------------------------

  const SECTIONS := [CoinSource, Indicators, RiskControl, PromptSections, CustomPrompt]

  predicate IsSection(k: Key) {
    k.CoinSource? || k.Indicators? || k.RiskControl? || k.PromptSections? || k.CustomPrompt?
  }

  /** The sections among `keys` given at top level, put over those of the AI branch. */
  function Hoisted(ai: Fields, patch: Fields, keys: seq<Key>): Fields {
    map k | k in ai.Keys + (set x | x in keys && x in patch) :: if k in keys && k in patch then patch[k] else ai[k]
  }

  function Branch(patch: Fields, kind: string, r: Reader): Fields {
    if kind == GRID then MapOf(At(patch, GridConfig), r)
    else if kind == AI then Hoisted(MapOf(At(patch, AiConfig), r), patch, SECTIONS)
    else map[]
  }

  function BranchKey(kind: string): Key {
    if kind == GRID then GridConfig else AiConfig
  }

  function Assembled(kind: string, publish: Fields, branch: Fields): Fields {
    var out := map[StrategyType := Str(kind)];
    var out := if publish == map[] then out else out[PublishConfig := Obj(publish)];
    if branch == map[] then out else out[BranchKey(kind) := Obj(branch)]
  }

  /** `sanitizeStrategyCreateConfigPatchForType`. */
  function Sanitized(v: Value, kind: string, r: Reader): Option<Fields> {
    var patch := MapOf(v, r);
    if patch == map[] then None
    else
      var publish, branch := MapOf(At(patch, PublishConfig), r), Branch(patch, kind, r);
      if publish == map[] && branch == map[] then None else Some(Assembled(kind, publish, branch))
  }

  predicate Known(kind: string) { kind == GRID || kind == AI }

  /** A cleaned patch: the type, and non-empty objects for what is published and for the branch of that type only. */
  ghost predicate Clean(patch: Fields, kind: string) {
    && StrategyType in patch && patch[StrategyType] == Str(kind)
    && (exists k :: k in patch && !k.StrategyType?)
    && (forall k :: k in patch && !k.StrategyType? ==>
          && (k.PublishConfig? || (Known(kind) && k == BranchKey(kind)))
          && patch[k].Obj? && patch[k].fields != map[])
  }

  lemma AssembledIsClean(kind: string, publish: Fields, branch: Fields)
    requires publish != map[] || branch != map[]
    requires branch != map[] ==> Known(kind)
    ensures Clean(Assembled(kind, publish, branch), kind)
  {
    hide Known;
    var out := Assembled(kind, publish, branch);
    assert if publish != map[] then PublishConfig in out else BranchKey(kind) in out;
  }

  lemma SanitizedIsClean(v: Value, kind: string, r: Reader)
    ensures var s := Sanitized(v, kind, r); s.Some? ==> Clean(s.value, kind)
  {
    hide Assembled, Clean, MapOf, Hoisted;
    var patch := MapOf(v, r);
    var publish, branch := MapOf(At(patch, PublishConfig), r), Branch(patch, kind, r);
    if Sanitized(v, kind, r).Some? { AssembledIsClean(kind, publish, branch); }
  }

  lemma HoistNothing(ai: Fields, patch: Fields, keys: seq<Key>)
    requires forall k :: k in keys ==> k !in patch
    ensures Hoisted(ai, patch, keys) == ai
  {}

  lemma SectionKeys(k: Key)
    ensures k in SECTIONS <==> IsSection(k)
  {}

  /** The parts of a clean patch are read back as they are. */
  lemma CleanParts(patch: Fields, kind: string, r: Reader)
    requires Clean(patch, kind)
    ensures MapOf(At(patch, PublishConfig), r) == if PublishConfig in patch then patch[PublishConfig].fields else map[]
    ensures Branch(patch, kind, r) ==
            if Known(kind) && BranchKey(kind) in patch then patch[BranchKey(kind)].fields else map[]
  {
    hide Hoisted;
    forall k | k in SECTIONS ensures k !in patch { SectionKeys(k); }
    HoistNothing(MapOf(At(patch, AiConfig), r), patch, SECTIONS);
  }

  lemma Reassembled(patch: Fields, kind: string, publish: Fields, branch: Fields)
    requires Clean(patch, kind)
    requires publish == if PublishConfig in patch then patch[PublishConfig].fields else map[]
    requires branch == if Known(kind) && BranchKey(kind) in patch then patch[BranchKey(kind)].fields else map[]
    ensures (publish != map[] || branch != map[]) && Assembled(kind, publish, branch) == patch
  {
    hide Known;
    var k :| k in patch && !k.StrategyType?;
  }

  /** A clean patch is left alone; so cleaning twice is cleaning once. */
  lemma CleanIsFixed(patch: Fields, kind: string, r: Reader)
    requires Clean(patch, kind)
    ensures Sanitized(Obj(patch), kind, r) == Some(patch)
  {
    hide Assembled, Clean, Branch, Known;
    CleanParts(patch, kind, r);
    Reassembled(patch, kind, MapOf(At(patch, PublishConfig), r), Branch(patch, kind, r));
    CleanFilled(patch, kind);
  }

  lemma CleanFilled(patch: Fields, kind: string)
    requires Clean(patch, kind)
    ensures patch != map[] && StrategyType in patch && patch[StrategyType] == Str(kind)
  {}

  lemma SanitizeIdempotent(v: Value, kind: string, r: Reader)
    ensures var s := Sanitized(v, kind, r); s.Some? ==> Sanitized(Obj(s.value), kind, r) == s
  {
    hide Sanitized, Clean;
    SanitizedIsClean(v, kind, r);
    var s := Sanitized(v, kind, r);
    if s.Some? { CleanIsFixed(s.value, kind, r); }
  }

  // ---- one turn -----------------------------------------------------------

  /** The fields that a turn may fill at all while a strategy is created. */
  const CREATE_FIELDS: set<Key> := {Name, StrategyType, ConfigPatch, AwaitingFinal}

  /** `manualStrategyEditableFieldKeysForType`: the fields that belong to each strategy type. */
  type Editable = string -> set<Key>

  /** Every type's fields include the common ones. */
  ghost predicate HasCommon(editable: Editable) {
    forall kind :: {Name, Description, IsPublic, ConfigVisible, StrategyType} <= editable(kind)
  }

  /** `filterStrategyCreateExtractedDataByTemplate`. */
  function ByTemplate(fields: Fields, data: Fields, editable: Editable, r: Reader): Fields {
    var kind := if TypeOf(data, r) != "" then TypeOf(data, r) else TypeOf(fields, r);
    if kind == "" then data else ForKind(data, kind, editable, r)
  }

  function ForKind(data: Fields, kind: string, editable: Editable, r: Reader): Fields {
    map k | k in data && (if k.ConfigPatch? then Sanitized(data[k], kind, r).Some?
                          else k.AwaitingFinal? || k in editable(kind))
      :: if k.ConfigPatch? then Obj(Sanitized(data[k], kind, r).value) else data[k]
  }

  /** `filterExtractedDataForActiveSession` while a strategy is created. */
  function Filtered(fields: Fields, data: Fields, editable: Editable, r: Reader): Fields {
    ByTemplate(fields, Allowed(data, CREATE_FIELDS), editable, r)
  }

  function Allowed(data: Fields, keys: set<Key>): Fields {
    map k | k in data && k in keys :: data[k]
  }

  predicate Survives(k: Key) {
    k.Name? || k.Description? || k.IsPublic? || k.ConfigVisible? || k.Lang?
  }

  /** `resetActiveStrategyCreateFieldsForType`. */
  function Reset(fields: Fields, kind: string): Fields {
    (map k | k in fields && Survives(k) :: fields[k])[StrategyType := Str(kind)]
  }

  /** Whether merging `data` switches the draft to another type. */
  predicate Switches(fields: Fields, data: Fields, r: Reader) {
    TypeOf(data, r) != "" && TypeOf(fields, r) != "" && TypeOf(fields, r) != TypeOf(data, r)
  }

  /** `mergeExtractedData`. */
  function Merged(fields: Fields, data: Fields, r: Reader): Fields {
    (if Switches(fields, data, r) then Reset(fields, TypeOf(data, r)) else fields) + data
  }

  function Turned(fields: Fields, data: Fields, editable: Editable, r: Reader): Fields {
    Merged(fields, Filtered(fields, data, editable, r), r)
  }

  // ---- no draft mixes two types ------------------------------------------

  /** The patch says nothing about a branch, or it is a clean patch of the type that the draft has. */
  ghost predicate Unmixed(fields: Fields, r: Reader) {
    var patch := MapOf(At(fields, ConfigPatch), r);
    (GridConfig !in patch && AiConfig !in patch)
    || exists kind :: PureOf(fields, patch, kind, r)
  }

  ghost predicate PureOf(fields: Fields, patch: Fields, kind: string, r: Reader) {
    && Known(kind) && Clean(patch, kind)
    && (StrategyType in fields ==> r.typeOf(fields[StrategyType]) in ["", kind])
  }

  /** A draft that is not mixed has at most the branch of its own type in its patch. */
  lemma UnmixedMeans(fields: Fields, r: Reader)
    requires Canonical(r) && Unmixed(fields, r)
    ensures var patch := MapOf(At(fields, ConfigPatch), r);
            && (GridConfig in patch ==> TypeOf(fields, r) == GRID && AiConfig !in patch)
            && (AiConfig in patch ==> TypeOf(fields, r) == AI && GridConfig !in patch)
  {
    var patch := MapOf(At(fields, ConfigPatch), r);
    if GridConfig in patch || AiConfig in patch {
      var kind :| PureOf(fields, patch, kind, r);
      PureType(fields, kind, r);
    }
  }

  lemma CleanType(patch: Fields, kind: string, r: Reader)
    requires Canonical(r) && Known(kind) && Clean(patch, kind)
    ensures TypeOfPatch(Obj(patch), r) == kind
  {
    CleanFilled(patch, kind);
  }

  lemma PureType(fields: Fields, kind: string, r: Reader)
    requires Canonical(r) && PureOf(fields, MapOf(At(fields, ConfigPatch), r), kind, r)
    ensures TypeOf(fields, r) == kind
  {
    hide Clean, Known;
    var patch := MapOf(At(fields, ConfigPatch), r);
    CleanFilled(patch, kind);
    KnownKind(kind);
    assert r.typeOf(Str(kind)) == kind;
    assert ConfigPatch in fields;
  }

  lemma KnownKind(kind: string)
    ensures Known(kind) <==> kind == GRID || kind == AI
    ensures Known(kind) ==> kind != ""
  {}

  lemma KnownTypes(m: Fields, r: Reader)
    requires Canonical(r)
    ensures TypeOf(m, r) == "" || Known(TypeOf(m, r))
  {
    hide MapOf;
  }

  /** What filtering leaves: a patch without branches in a draft without type, or a clean patch of the turn's type. */
  ghost predicate Fit(fields: Fields, d: Fields, kind: string, r: Reader) {
    && (StrategyType in d ==> r.typeOf(d[StrategyType]) in ["", kind])
    && (ConfigPatch in d ==>
          if kind == "" then
            var p := MapOf(d[ConfigPatch], r);
            GridConfig !in p && AiConfig !in p && TypeOfPatch(d[ConfigPatch], r) == ""
          else exists patch :: d[ConfigPatch] == Obj(patch) && Clean(patch, kind))
    && (kind == "" ==> TypeOf(fields, r) == "")
    && (kind == "" || Known(kind))
    && (TypeOf(d, r) in ["", kind])
    && (TypeOf(fields, r) != kind && kind != "" && ConfigPatch in d ==> TypeOf(d, r) == kind)
  }

  lemma FilteredFits(fields: Fields, data: Fields, editable: Editable, r: Reader)
    requires Canonical(r)
    ensures exists kind :: Fit(fields, Filtered(fields, data, editable, r), kind, r)
  {
    hide Fit, ForKind, Canonical;
    var d := Allowed(data, CREATE_FIELDS);
    var kind := if TypeOf(d, r) != "" then TypeOf(d, r) else TypeOf(fields, r);
    if kind == "" {
      FitRaw(fields, d, r);
      assert Filtered(fields, data, editable, r) == d;
      assert Fit(fields, Filtered(fields, data, editable, r), "", r);
    } else {
      FitKind(fields, d, kind, editable, r);
      assert Filtered(fields, data, editable, r) == ForKind(d, kind, editable, r);
      assert Fit(fields, Filtered(fields, data, editable, r), kind, r);
    }
  }

  lemma FitRaw(fields: Fields, d: Fields, r: Reader)
    requires Canonical(r) && TypeOf(d, r) == "" && TypeOf(fields, r) == ""
    ensures Fit(fields, d, "", r)
  {}

  lemma FitKind(fields: Fields, data: Fields, kind: string, editable: Editable, r: Reader)
    requires Canonical(r) && kind != "" &&
             kind == (if TypeOf(data, r) != "" then TypeOf(data, r) else TypeOf(fields, r))
    ensures Fit(fields, ForKind(data, kind, editable, r), kind, r)
  {
    hide Sanitized, Clean, MapOf, Known;
    var d := ForKind(data, kind, editable, r);
    KnownTypes(data, r);
    KnownTypes(fields, r);
    if ConfigPatch in d {
      SanitizedIsClean(data[ConfigPatch], kind, r);
      var patch := Sanitized(data[ConfigPatch], kind, r).value;
      assert d[ConfigPatch] == Obj(patch) && Clean(patch, kind);
      CleanType(patch, kind, r);
    }
  }

  lemma SwitchUnmixed(fields: Fields, d: Fields, kind: string, r: Reader)
    requires Canonical(r) && Fit(fields, d, kind, r) && Switches(fields, d, r)
    ensures Unmixed(Merged(fields, d, r), r)
  {
    hide Clean, Known;
    var f := Merged(fields, d, r);
    var p := MapOf(At(f, ConfigPatch), r);
    assert kind == TypeOf(d, r) != "";
    KnownKind(kind);
    if ConfigPatch in d {
      var patch :| d[ConfigPatch] == Obj(patch) && Clean(patch, kind);
      assert PureOf(f, p, kind, r);
    } else {
      assert p == map[];
    }
  }

  lemma StayUnmixed(fields: Fields, d: Fields, kind: string, r: Reader)
    requires Canonical(r) && Unmixed(fields, r) && Fit(fields, d, kind, r) && !Switches(fields, d, r)
    ensures Unmixed(fields + d, r)
  {
    hide Clean, Known, TypeOfPatch;
    var f := fields + d;
    var p := MapOf(At(f, ConfigPatch), r);
    if ConfigPatch in d {
      if kind != "" {
        KnownKind(kind);
        var patch :| d[ConfigPatch] == Obj(patch) && Clean(patch, kind);
        assert PureOf(f, p, kind, r);
      }
    } else if GridConfig in p || AiConfig in p {
      var k :| PureOf(fields, p, k, r);
      PureType(fields, k, r);
      KnownKind(k);
      assert PureOf(f, p, k, r);
    }
  }

  lemma TurnUnmixed(fields: Fields, data: Fields, editable: Editable, r: Reader)
    requires Canonical(r) && Unmixed(fields, r)
    ensures Unmixed(Turned(fields, data, editable, r), r)
  {
    hide Unmixed, Fit, Canonical, Filtered;
    FilteredFits(fields, data, editable, r);
    var d := Filtered(fields, data, editable, r);
    var kind :| Fit(fields, d, kind, r);
    if Switches(fields, d, r) { SwitchUnmixed(fields, d, kind, r); } else { StayUnmixed(fields, d, kind, r); }
  }

  // ---- whole runs ---------------------------------------------------------

  function TurnedAll(fields: Fields, turns: seq<Fields>, editable: Editable, r: Reader): Fields
    decreases |turns|
  {
    if turns == [] then fields else TurnedAll(Turned(fields, turns[0], editable, r), turns[1..], editable, r)
  }

  /** Over any turns the draft never holds the branch of a type other than its own. */
  lemma {:induction false} RunUnmixed(fields: Fields, turns: seq<Fields>, editable: Editable, r: Reader)
    requires Canonical(r) && Unmixed(fields, r)
    ensures Unmixed(TurnedAll(fields, turns, editable, r), r)
    decreases |turns|
  {
    hide Unmixed, Canonical, Turned;
    if turns != [] {
      TurnUnmixed(fields, turns[0], editable, r);
      RunUnmixed(Turned(fields, turns[0], editable, r), turns[1..], editable, r);
    }
  }

  // ---- when the patch is clean for the draft's type -----------------------

  ghost predicate CleanObj(v: Value, kind: string) { v.Obj? && Clean(v.fields, kind) }

  /** A patch that names a type is clean for it, and it is the draft's. */
  ghost predicate Settled(fields: Fields, r: Reader) {
    ConfigPatch in fields && TypeOfPatch(fields[ConfigPatch], r) != "" ==>
      var kind := TypeOfPatch(fields[ConfigPatch], r);
      Known(kind) && CleanObj(fields[ConfigPatch], kind) && TypeOf(fields, r) == kind
  }

  /** A clean patch names its type, so only one that names none can fail to be clean for the draft's. */
  lemma PatchCleanIff(fields: Fields, r: Reader)
    requires Canonical(r) && Settled(fields, r) && ConfigPatch in fields && TypeOf(fields, r) != ""
    ensures CleanObj(fields[ConfigPatch], TypeOf(fields, r)) <==> TypeOfPatch(fields[ConfigPatch], r) != ""
  {
    hide Clean, Known;
    KnownTypes(fields, r);
    if CleanObj(fields[ConfigPatch], TypeOf(fields, r)) {
      KnownKind(TypeOf(fields, r));
      CleanType(fields[ConfigPatch].fields, TypeOf(fields, r), r);
    }
  }

  /** A turn leaves a patch that names no type exactly when neither the turn nor the draft names one. */
  lemma AcceptedRawIff(fields: Fields, data: Fields, editable: Editable, r: Reader)
    requires Canonical(r) && ConfigPatch in Filtered(fields, data, editable, r)
    ensures TypeOfPatch(Filtered(fields, data, editable, r)[ConfigPatch], r) == "" <==>
            TypeOf(Allowed(data, CREATE_FIELDS), r) == "" && TypeOf(fields, r) == ""
  {
    hide Clean, Known, Sanitized;
    var raw := Allowed(data, CREATE_FIELDS);
    var kind := if TypeOf(raw, r) != "" then TypeOf(raw, r) else TypeOf(fields, r);
    if kind != "" {
      KnownTypes(raw, r);
      KnownTypes(fields, r);
      SanitizedIsClean(raw[ConfigPatch], kind, r);
      KnownKind(kind);
      CleanType(Sanitized(raw[ConfigPatch], kind, r).value, kind, r);
    }
  }

  lemma TurnSettled(fields: Fields, data: Fields, editable: Editable, r: Reader)
    requires Canonical(r) && Settled(fields, r)
    ensures Settled(Turned(fields, data, editable, r), r)
  {
    hide Fit, Canonical, Filtered, Settled;
    FilteredFits(fields, data, editable, r);
    var d := Filtered(fields, data, editable, r);
    var kind :| Fit(fields, d, kind, r);
    if Switches(fields, d, r) { SwitchSettled(fields, d, kind, r); } else { StaySettled(fields, d, kind, r); }
  }

  lemma SwitchSettled(fields: Fields, d: Fields, kind: string, r: Reader)
    requires Canonical(r) && Fit(fields, d, kind, r) && Switches(fields, d, r)
    ensures Settled(Merged(fields, d, r), r)
  {
    hide Clean, Known;
    KnownKind(kind);
    if ConfigPatch in d {
      var patch :| d[ConfigPatch] == Obj(patch) && Clean(patch, kind);
      CleanType(patch, kind, r);
    }
  }

  lemma StaySettled(fields: Fields, d: Fields, kind: string, r: Reader)
    requires Canonical(r) && Settled(fields, r) && Fit(fields, d, kind, r) && !Switches(fields, d, r)
    ensures Settled(fields + d, r)
  {
    hide Clean, Known, TypeOfPatch;
    var f := fields + d;
    KnownKind(kind);
    if ConfigPatch in d {
      if kind != "" {
        var patch :| d[ConfigPatch] == Obj(patch) && Clean(patch, kind);
        CleanType(patch, kind, r);
      }
    } else if ConfigPatch in fields {
      assert f[ConfigPatch] == fields[ConfigPatch];
      KnownKind(TypeOf(fields, r));
    }
  }

  /**
   * Over any turns: a patch that names a type is clean for it, and it is the draft's type. So the patch of a draft of
   * some type is clean for that type exactly when it names one itself: when it was not accepted before any type was
   * known.
   */
  lemma {:induction false} RunSettled(fields: Fields, turns: seq<Fields>, editable: Editable, r: Reader)
    requires Canonical(r) && Settled(fields, r)
    ensures var f := TurnedAll(fields, turns, editable, r);
            && Settled(f, r)
            && (ConfigPatch in f && TypeOf(f, r) != "" ==>
                  (CleanObj(f[ConfigPatch], TypeOf(f, r)) <==> TypeOfPatch(f[ConfigPatch], r) != ""))
    decreases |turns|
  {
    hide Settled, Canonical, Turned, CleanObj, TypeOf, TypeOfPatch;
    if turns == [] {
      if ConfigPatch in fields && TypeOf(fields, r) != "" { PatchCleanIff(fields, r); }
    } else {
      TurnSettled(fields, turns[0], editable, r);
      RunSettled(Turned(fields, turns[0], editable, r), turns[1..], editable, r);
    }
  }

  /** A coin source given before any type stays at top level in a grid draft, where no such section belongs. */
  lemma CoinSourceStays(coins: Value, editable: Editable, r: Reader)
    requires Canonical(r) && HasCommon(editable)
    ensures var patch := Obj(map[CoinSource := coins]);
            var f := TurnedAll(map[], [map[ConfigPatch := patch], map[StrategyType := Str(GRID)]], editable, r);
            && TypeOf(f, r) == GRID && ConfigPatch in f && f[ConfigPatch] == patch && !CleanObj(patch, GRID)
  {
    hide Sanitized;
    var patch := Obj(map[CoinSource := coins]);
    var d1: Fields, d2: Fields := map[ConfigPatch := patch], map[StrategyType := Str(GRID)];
    assert Allowed(d1, CREATE_FIELDS) == d1 && Allowed(d2, CREATE_FIELDS) == d2;
    assert TypeOf(d1, r) == "" && TypeOf(map[], r) == "";
    assert Turned(map[], d1, editable, r) == d1;
    TypeGiven(d1, d2, editable, r);
    assert [d1, d2][1..] == [d2] && [d2][1..] == [];
    assert TurnedAll(d1, [d2], editable, r) == TurnedAll(d1 + d2, [], editable, r) == d1 + d2;
  }

  lemma TypeGiven(fields: Fields, d: Fields, editable: Editable, r: Reader)
    requires Canonical(r) && HasCommon(editable) && d == map[StrategyType := Str(GRID)] && TypeOf(fields, r) == ""
    ensures Turned(fields, d, editable, r) == fields + d && TypeOf(fields + d, r) == GRID
  {
    hide Sanitized;
    assert Allowed(d, CREATE_FIELDS) == d && StrategyType in editable(GRID);
    assert ForKind(d, GRID, editable, r) == d;
  }

  /** A switch keeps only the five shared fields of earlier turns; everything else is what this turn says. */
  lemma SwitchKeepsOnly(fields: Fields, data: Fields, editable: Editable, r: Reader, k: Key)
    requires Switches(fields, Filtered(fields, data, editable, r), r) && !k.StrategyType?
    ensures var (d, f) := (Filtered(fields, data, editable, r), Turned(fields, data, editable, r));
            && (k in f <==> k in d || (Survives(k) && k in fields))
            && (k in f ==> f[k] == if k in d then d[k] else fields[k])
  {
    hide TypeOf, Filtered;
  }

  /** Some turn wrote `v` under `k`, and no later turn switches the type. */
  ghost predicate SaidSince(fields: Fields, turns: seq<Fields>, k: Key, v: Value, editable: Editable, r: Reader)
    decreases |turns|
  {
    turns != [] &&
      var d, next := Filtered(fields, turns[0], editable, r), Turned(fields, turns[0], editable, r);
      || (k in d && d[k] == v && NeverSwitches(next, turns[1..], editable, r))
      || SaidSince(next, turns[1..], k, v, editable, r)
  }

  ghost predicate NeverSwitches(fields: Fields, turns: seq<Fields>, editable: Editable, r: Reader)
    decreases |turns|
  {
    turns != [] ==>
      && !Switches(fields, Filtered(fields, turns[0], editable, r), r)
      && NeverSwitches(Turned(fields, turns[0], editable, r), turns[1..], editable, r)
  }

  /**
   * Whatever the draft holds beyond the shared fields and the type was said since the last switch: a draft or a
   * pending confirmation from before never survives one.
   */
  lemma {:induction false} RunHoldsRecent(fields: Fields, turns: seq<Fields>, editable: Editable, r: Reader, k: Key,
                                          v: Value)
    requires !Survives(k) && !k.StrategyType?
    requires k in TurnedAll(fields, turns, editable, r) && TurnedAll(fields, turns, editable, r)[k] == v
    ensures || (k in fields && fields[k] == v && NeverSwitches(fields, turns, editable, r))
            || SaidSince(fields, turns, k, v, editable, r)
    decreases |turns|
  {
    hide TypeOf, Filtered, Switches, Turned;
    if turns != [] {
      var next, d := Turned(fields, turns[0], editable, r), Filtered(fields, turns[0], editable, r);
      RunHoldsRecent(next, turns[1..], editable, r, k, v);
      OneTurn(fields, turns[0], editable, r, k);
    }
  }

  lemma OneTurn(fields: Fields, data: Fields, editable: Editable, r: Reader, k: Key)
    requires !Survives(k) && !k.StrategyType?
    ensures var (d, f) := (Filtered(fields, data, editable, r), Turned(fields, data, editable, r));
            k in f ==>
              if k in d then f[k] == d[k]
              else k in fields && f[k] == fields[k] && !Switches(fields, d, r)
  {
    hide TypeOf, Filtered;
  }

  /**
   * A turn that names the other type switches to it, unless it names it only in a patch that cleans to nothing: then
   * the turn leaves the type, and nothing but a name and a pending confirmation can come of it.
   */
  lemma SwitchHappensIff(fields: Fields, data: Fields, editable: Editable, r: Reader)
    requires Canonical(r) && HasCommon(editable)
    requires TypeOf(Allowed(data, CREATE_FIELDS), r) != "" && TypeOf(fields, r) != ""
    requires TypeOf(Allowed(data, CREATE_FIELDS), r) != TypeOf(fields, r)
    ensures var raw := Allowed(data, CREATE_FIELDS);
            var (kind, d) := (TypeOf(raw, r), Filtered(fields, data, editable, r));
            && (Switches(fields, d, r) <==>
                 || (StrategyType in raw && r.typeOf(raw[StrategyType]) != "")
                 || (ConfigPatch in raw && Sanitized(raw[ConfigPatch], kind, r).Some?))
            && (!Switches(fields, d, r) ==> d.Keys <= {Name, AwaitingFinal, StrategyType})
  {
    hide Sanitized, Clean, MapOf, Known, Allowed;
    var raw := Allowed(data, CREATE_FIELDS);
    var kind := TypeOf(raw, r);
    KnownTypes(raw, r);
    AllowedKeys(data, CREATE_FIELDS);
    assert StrategyType in editable(kind);
    if ConfigPatch in raw && Sanitized(raw[ConfigPatch], kind, r).Some? {
      SanitizedIsClean(raw[ConfigPatch], kind, r);
      CleanType(Sanitized(raw[ConfigPatch], kind, r).value, kind, r);
    }
  }

  lemma AllowedKeys(data: Fields, keys: set<Key>)
    ensures Allowed(data, keys).Keys <= keys
  {}

  lemma FilteredKeys(fields: Fields, data: Fields, editable: Editable, r: Reader)
    ensures Filtered(fields, data, editable, r).Keys <= CREATE_FIELDS
  {
    hide Sanitized, TypeOf, Allowed;
    AllowedKeys(data, CREATE_FIELDS);
  }

  /**
   * Over any turns nothing enters the draft but its name, its type, the patch and the pending confirmation: no field of
   * either type's template ever stands outside the patch, unless it was there from the start and no turn switched.
   */
  lemma {:induction false} RunStaysInTemplate(fields: Fields, turns: seq<Fields>, editable: Editable, r: Reader, k: Key)
    requires k in TurnedAll(fields, turns, editable, r)
    ensures k in CREATE_FIELDS || (k in fields && (Survives(k) || NeverSwitches(fields, turns, editable, r)))
    decreases |turns|
  {
    hide TypeOf, Filtered, Switches;
    if turns != [] {
      FilteredKeys(fields, turns[0], editable, r);
      RunStaysInTemplate(Turned(fields, turns[0], editable, r), turns[1..], editable, r, k);
    }
  }

  /** So a draft begun by the turns holds no field of a template outside its patch at all. */
  lemma NoTemplateFieldOutside(turns: seq<Fields>, editable: Editable, r: Reader, k: Key)
    requires AiField(k) || GridField(k)
    ensures k !in TurnedAll(map[], turns, editable, r)
  {
    hide TurnedAll;
    if k in TurnedAll(map[], turns, editable, r) { RunStaysInTemplate(map[], turns, editable, r, k); }
  }

  // ---- the fields that are still missing ---------------------------------

  /** `strategyCreatePatchHasPath`: an object at every step but the last. */
  function HasPath(v: Value, path: seq<Key>): bool {
    path == [] || (v.Obj? && path[0] in v.fields && HasPath(v.fields[path[0]], path[1..]))
  }

  /** Where a field of the AI template lies: in one section, at any of some paths. */
  datatype Place = Place(section: Key, paths: seq<seq<Key>>)

  predicate AiField(f: Key) {
    f.SourceType? || f.StaticCoins? || f.PrimaryTimeframe? || f.SelectedTimeframes? || f.BtcethMaxLeverage? ||
    f.AltcoinMaxLeverage? || f.MinConfidence? || f.MinRiskReward? || f.TradingFrequency? || f.EntryStandards?
  }

  predicate GridField(f: Key) {
    f.Symbol? || f.GridCount? || f.TotalInvestment? || f.Leverage? || f.Distribution? || f.MaxDrawdown? ||
        f.StopLoss? ||
    f.DailyLossLimit? || f.UseMakerOnly? || f.UseAtrBounds? || f.UpperPrice? || f.LowerPrice?
  }

  function PlaceOf(f: Key): (p: Place)
    requires AiField(f)
    ensures IsSection(p.section)
  {
    match f
    case SourceType => Place(CoinSource, [[SourceType], [StaticCoins], [UseAi500], [UseOiTop], [UseOiLow]])
    case StaticCoins => Place(CoinSource, [[StaticCoins]])
    case PrimaryTimeframe => Place(Indicators, [[Klines, PrimaryTimeframe]])
    case SelectedTimeframes => Place(Indicators, [[Klines, SelectedTimeframes]])
    case BtcethMaxLeverage => Place(RiskControl, [[BtcEthMaxLeverage], [BtcethMaxLeverage]])
    case AltcoinMaxLeverage => Place(RiskControl, [[AltcoinMaxLeverage]])
    case MinConfidence => Place(RiskControl, [[MinConfidence]])
    case MinRiskReward => Place(RiskControl, [[MinRiskReward]])
    case TradingFrequency => Place(PromptSections, [[TradingFrequency]])
    case EntryStandards => Place(PromptSections, [[EntryStandards]])
  }

  /** `strategyCreatePatchPaths`: for the AI template each path once under the AI branch and once at top level. */
  function Paths(f: Key): seq<seq<Key>> {
    if AiField(f) then Doubled(PlaceOf(f).section, PlaceOf(f).paths)
    else if GridField(f) then [[GridConfig, f]]
    else [[f]]
  }

  function Doubled(section: Key, paths: seq<seq<Key>>): seq<seq<Key>> {
    if paths == [] then []
    else [[AiConfig, section] + paths[0], [section] + paths[0]] + Doubled(section, paths[1..])
  }

  /** Some path leads somewhere. */
  ghost predicate Reaches(v: Value, paths: seq<seq<Key>>) {
    exists i :: 0 <= i < |paths| && HasPath(v, paths[i])
  }

  ghost predicate InPatch(patch: Fields, f: Key) {
    Reaches(Obj(patch), Paths(f))
  }

  /** Whether the section of `m`, if there, holds one of the paths. */
  ghost predicate Holds(m: Fields, section: Key, paths: seq<seq<Key>>) {
    section in m && Reaches(m[section], paths)
  }

  lemma {:induction false} DoubledMeans(patch: Fields, section: Key, paths: seq<seq<Key>>)
    ensures Reaches(Obj(patch), Doubled(section, paths)) <==>
            || Holds(patch, section, paths)
            || (AiConfig in patch && patch[AiConfig].Obj? && Holds(patch[AiConfig].fields, section, paths))
  {
    var ds := Doubled(section, paths);
    if paths != [] {
      var a, b, rest := [AiConfig, section] + paths[0], [section] + paths[0], Doubled(section, paths[1..]);
      DoubledMeans(patch, section, paths[1..]);
      ReachesMore([a, b], rest, Obj(patch));
      ReachesTwo(a, b, Obj(patch));
      OnePath(patch, section, paths[0]);
      HoldsMore(patch, section, paths);
      if AiConfig in patch && patch[AiConfig].Obj? { HoldsMore(patch[AiConfig].fields, section, paths); }
    }
  }

  lemma ReachesMore(a: seq<seq<Key>>, b: seq<seq<Key>>, v: Value)
    ensures Reaches(v, a + b) <==> Reaches(v, a) || Reaches(v, b)
  {
    hide HasPath;
    if i :| 0 <= i < |a| && HasPath(v, a[i]) { assert HasPath(v, (a + b)[i]); }
    if i :| 0 <= i < |b| && HasPath(v, b[i]) { assert HasPath(v, (a + b)[|a| + i]); }
  }

  lemma ReachesTwo(a: seq<Key>, b: seq<Key>, v: Value)
    ensures Reaches(v, [a, b]) <==> HasPath(v, a) || HasPath(v, b)
  {
    hide HasPath;
    assert [a, b][0] == a && [a, b][1] == b;
  }

  lemma OnePath(patch: Fields, section: Key, path: seq<Key>)
    ensures HasPath(Obj(patch), [section] + path) <==> section in patch && HasPath(patch[section], path)
    ensures HasPath(Obj(patch), [AiConfig, section] + path) <==>
            AiConfig in patch && patch[AiConfig].Obj? && section in patch[AiConfig].fields &&
            HasPath(patch[AiConfig].fields[section], path)
  {
    assert ([section] + path)[1..] == path;
    assert ([AiConfig, section] + path)[1..] == [section] + path;
  }

  lemma HoldsMore(m: Fields, section: Key, paths: seq<seq<Key>>)
    requires paths != []
    ensures Holds(m, section, paths) <==>
            section in m && (HasPath(m[section], paths[0]) || Reaches(m[section], paths[1..]))
  {
    hide HasPath;
    if section in m {
      ReachesMore([paths[0]], paths[1..], m[section]);
      assert [paths[0]] + paths[1..] == paths;
      assert [paths[0]][0] == paths[0];
    }
  }

  /** The section that cleaning keeps: the one at top level if there, else that of the AI branch. */
  ghost predicate KeptHolds(patch: Fields, section: Key, paths: seq<seq<Key>>, r: Reader) {
    if section in patch then Reaches(patch[section], paths)
    else Holds(MapOf(At(patch, AiConfig), r), section, paths)
  }

  lemma HoistedSection(ai: Fields, patch: Fields, section: Key)
    requires IsSection(section)
    ensures var h := Hoisted(ai, patch, SECTIONS);
            && (section in h <==> section in patch || section in ai)
            && (section in h ==> h[section] == if section in patch then patch[section] else ai[section])
  {
    SectionKeys(section);
  }

  /** A template field of the AI type is found after cleaning exactly when the section that is kept has it. */
  lemma AiFieldAfter(patch: Fields, f: Key, r: Reader)
    requires AiField(f)
    ensures var s := Sanitized(Obj(patch), AI, r);
            (s.Some? && InPatch(s.value, f)) <==> KeptHolds(patch, PlaceOf(f).section, PlaceOf(f).paths, r)
  {
    hide Hoisted, MapOf, HasPath, Reaches, PlaceOf, AiField;
    var section, paths := PlaceOf(f).section, PlaceOf(f).paths;
    var ai := MapOf(At(patch, AiConfig), r);
    var s := Sanitized(Obj(patch), AI, r);
    HoistedSection(ai, patch, section);
    ObjIsMap(patch, r);
    var h := Hoisted(ai, patch, SECTIONS);
    if s.Some? {
      DoubledMeans(s.value, section, paths);
      AssembledAi(MapOf(At(patch, PublishConfig), r), h, section);
    }
    NothingIn(r);
  }

  lemma NothingIn(r: Reader)
    ensures MapOf(Null, r) == map[]
  {}

  lemma ObjIsMap(patch: Fields, r: Reader)
    ensures MapOf(Obj(patch), r) == patch
  {}

  lemma AssembledAi(publish: Fields, branch: Fields, section: Key)
    requires IsSection(section)
    ensures var out := Assembled(AI, publish, branch);
            && section !in out
            && (AiConfig in out <==> branch != map[]) && (AiConfig in out ==> out[AiConfig] == Obj(branch))
  {}

  /** The section is given twice, and only the copy that is overwritten has the field. */
  ghost predicate GivenTwice(patch: Fields, f: Key)
    requires AiField(f)
  {
    var (section, paths) := (PlaceOf(f).section, PlaceOf(f).paths);
    && section in patch && !Reaches(patch[section], paths)
    && AiConfig in patch && patch[AiConfig].Obj? && Holds(patch[AiConfig].fields, section, paths)
  }

  /** Cleaning loses an explicit field of the AI template exactly when its section is given twice. */
  lemma AiFieldLostIff(patch: Fields, f: Key, r: Reader)
    requires AiField(f)
    ensures var s := Sanitized(Obj(patch), AI, r);
            InPatch(patch, f) && !(s.Some? && InPatch(s.value, f)) <==> GivenTwice(patch, f)
  {
    hide HasPath, Reaches, PlaceOf, AiField, Sanitized;
    AiFieldAfter(patch, f, r);
    DoubledMeans(patch, PlaceOf(f).section, PlaceOf(f).paths);
  }

  /** A patch that loses a field: risk control is given at top level with one limit and in the branch with another. */
  function RiskTwice(): Fields {
    map[RiskControl := Obj(map[MinConfidence := Opaque(70)]),
        AiConfig := Obj(map[RiskControl := Obj(map[AltcoinMaxLeverage := Opaque(5)])])]
  }

  lemma RiskTwiceLosesLeverage(direct: set<Key>, staticSource: bool, r: Reader)
    requires AltcoinMaxLeverage !in direct
    ensures AltcoinMaxLeverage !in MissingAi(direct, Some(RiskTwice()), staticSource)
    ensures AltcoinMaxLeverage in MissingAi(direct, Sanitized(Obj(RiskTwice()), AI, r), staticSource)
  {
    hide Sanitized, InPatch, MissingAi;
    var (patch, paths) := (RiskTwice(), PlaceOf(AltcoinMaxLeverage).paths);
    OnlyPath(patch[RiskControl], AltcoinMaxLeverage);
    OnlyPath(patch[AiConfig].fields[RiskControl], AltcoinMaxLeverage);
    assert GivenTwice(patch, AltcoinMaxLeverage);
    AiGrowsIff(direct, patch, staticSource, AltcoinMaxLeverage, r);
  }

  lemma OnlyPath(v: Value, f: Key)
    requires v.Obj?
    ensures Reaches(v, [[f]]) <==> f in v.fields
  {
    assert [f][1..] == [] && [[f]][0] == [f];
    assert f in v.fields ==> HasPath(v, [[f]][0]);
  }

  /** Cleaning never loses a field of the grid template. */
  lemma GridFieldKept(patch: Fields, f: Key, r: Reader)
    requires GridField(f) && InPatch(patch, f)
    ensures var s := Sanitized(Obj(patch), GRID, r); s.Some? && InPatch(s.value, f)
  {
    var s := Sanitized(Obj(patch), GRID, r);
    GridPath(patch, f);
    var grid := patch[GridConfig].fields;
    assert f in grid && grid != map[];
    assert s.value[GridConfig] == Obj(grid);
    GridPath(s.value, f);
  }

  lemma GridPath(patch: Fields, f: Key)
    requires GridField(f)
    ensures InPatch(patch, f) <==> GridConfig in patch && patch[GridConfig].Obj? && f in patch[GridConfig].fields
  {
    var path := [GridConfig, f];
    assert Paths(f) == [path] && Paths(f)[0] == path && path[1..] == [f] && [f][1..] == [];
    assert InPatch(patch, f) <==> HasPath(Obj(patch), path);
    if GridConfig in patch {
      assert HasPath(patch[GridConfig], [f]) <==> patch[GridConfig].Obj? && f in patch[GridConfig].fields;
    }
  }

  // ---- the list of missing fields ----------------------------------------

  const AI_REQUIRED := [SourceType, PrimaryTimeframe, SelectedTimeframes, BtcethMaxLeverage, AltcoinMaxLeverage,
                        MinConfidence, MinRiskReward, TradingFrequency, EntryStandards]

  const GRID_REQUIRED := [Symbol, GridCount, TotalInvestment, Leverage, Distribution, MaxDrawdown, StopLoss,
                          DailyLossLimit, UseMakerOnly]

  /** A field is explicit when it has a value of its own or the patch holds it. */
  ghost predicate Explicit(direct: set<Key>, patch: Option<Fields>, f: Key) {
    f in direct || (patch.Some? && InPatch(patch.value, f))
  }

  ghost function MissingAi(direct: set<Key>, patch: Option<Fields>, staticSource: bool): set<Key> {
    (set f | f in AI_REQUIRED && !Explicit(direct, patch, f)) +
    if staticSource && !Explicit(direct, patch, StaticCoins) then {StaticCoins} else {}
  }

  /** The price range is missing unless it follows the volatility or both bounds are there. */
  ghost function MissingGrid(direct: set<Key>, patch: Option<Fields>): set<Key> {
    (set f | f in GRID_REQUIRED && !Explicit(direct, patch, f)) +
    if Explicit(direct, patch, UseAtrBounds) ||
        (Explicit(direct, patch, UpperPrice) && Explicit(direct, patch, LowerPrice))
    then {} else {UseAtrBounds}
  }

  /** Cleaning a grid patch never adds to what is missing. */
  lemma GridNeverGrows(direct: set<Key>, patch: Fields, r: Reader)
    ensures MissingGrid(direct, Sanitized(Obj(patch), GRID, r)) <= MissingGrid(direct, Some(patch))
  {
    hide Sanitized, InPatch;
    forall f | GridField(f) && InPatch(patch, f)
      ensures Explicit(direct, Sanitized(Obj(patch), GRID, r), f)
    {
      GridFieldKept(patch, f, r);
    }
    forall f | f in GRID_REQUIRED ensures GridField(f) {}
  }

  /** Cleaning an AI patch adds a field to what is missing exactly when it had no other value and was given twice. */
  lemma AiGrowsIff(direct: set<Key>, patch: Fields, staticSource: bool, f: Key, r: Reader)
    requires AiField(f)
    ensures f in MissingAi(direct, Sanitized(Obj(patch), AI, r), staticSource) &&
            f !in MissingAi(direct, Some(patch), staticSource) <==>
            (f in AI_REQUIRED || (f.StaticCoins? && staticSource)) && f !in direct && GivenTwice(patch, f)
  {
    hide Sanitized, InPatch, GivenTwice;
    AiFieldLostIff(patch, f, r);
  }

  // ---- the older kind of session -----------------------------------------

  /** There the fields are texts, and the patch is the JSON text of an object. */
  type Texts = map<Key, string>

  function TextAt(m: Texts, k: Key): (t: string)
    ensures Trimmed(t)
  {
    if k in m then Trim(m[k]) else ""
  }

  /** `explicitStrategyCreateType`; an unknown type is taken as it stands. */
  function LegacyType(m: Texts, r: Reader): (t: string)
    ensures Trimmed(t)
  {
    if TextAt(m, StrategyType) != "" then TextAt(m, StrategyType)
    else if TextAt(m, ConfigPatch) == "" then ""
    else
      match r.json(TextAt(m, ConfigPatch))
      case None => ""
      case Some(patch) =>
        if StrategyType in patch && patch[StrategyType].Str? then Trim(patch[StrategyType].text)
        else if GridConfig in patch && !patch[GridConfig].Null? then GRID
        else if AiConfig in patch && !patch[AiConfig].Null? then AI
        else ""
  }

  predicate LegacyKeeps(k: Key) {
    Survives(k) || k.StrategyType? || k.DraftConfig? || k.ConfigPatch? || k.DagStep? || k.AwaitingFinal?
  }

  /** `normalizeLegacyStrategyCreateSession`; `show` writes an object as JSON. */
  function LegacyNormal(m: Texts, r: Reader, show: Fields -> string): Texts {
    var kind := LegacyType(m, r);
    if kind == "" then m
    else
      var kept := map k | k in m && LegacyKeeps(k) :: m[k];
      if TextAt(m, ConfigPatch) == "" then kept
      else
        match Sanitized(Str(TextAt(m, ConfigPatch)), kind, r)
        case None => kept - {ConfigPatch}
        case Some(patch) => kept[ConfigPatch := show(patch)]
  }

  ghost predicate ReadsBack(r: Reader, show: Fields -> string) {
    forall m :: r.json(show(m)) == Some(m) && show(m) != "" && Trimmed(show(m))
  }

  /**
   * What the older session takes for its type: what its own field says; else what its patch names as text, or the
   * branch that the patch has, the grid before the AI one; and nothing when the patch cannot be read or has none of
   * these.
   */
  lemma LegacyTypeReads(m: Texts, patch: Fields, r: Reader, show: Fields -> string)
    requires ReadsBack(r, show)
    ensures TextAt(m, StrategyType) != "" ==> LegacyType(m, r) == TextAt(m, StrategyType)
    ensures TextAt(m, StrategyType) == "" && (TextAt(m, ConfigPatch) == "" || r.json(TextAt(m, ConfigPatch)).None?) ==>
              LegacyType(m, r) == ""
    ensures var n := m - {StrategyType};
            var t := LegacyType(n[ConfigPatch := show(patch)], r);
            match At(patch, StrategyType)
            case Str(text) => t == Trim(text)
            case _ =>
              if At(patch, GridConfig) != Null then t == "grid_trading"
              else if At(patch, AiConfig) != Null then t == "ai_trading"
              else t == ""
  {
    hide Trim;
    var n := m - {StrategyType};
    assert TextAt(n[ConfigPatch := show(patch)], StrategyType) == "";
    assert TextAt(n[ConfigPatch := show(patch)], ConfigPatch) == show(patch) by { assert Trimmed(show(patch)); }
    assert r.json(show(patch)) == Some(patch);
  }

  /** The type is forgotten exactly when only the patch names it and the patch cleans to nothing; else it stays. */
  lemma LegacyTypeForgottenIff(m: Texts, r: Reader, show: Fields -> string)
    requires ReadsBack(r, show) && LegacyType(m, r) != ""
    ensures var kind, after := LegacyType(m, r), LegacyType(LegacyNormal(m, r, show), r);
            && (after == "" <==>
                  TextAt(m, StrategyType) == "" && Sanitized(Str(TextAt(m, ConfigPatch)), kind, r).None?)
            && (after == "" || after == kind)
  {
    hide Trim, Sanitized, Clean;
    var kind := LegacyType(m, r);
    var raw := TextAt(m, ConfigPatch);
    var s := Sanitized(Str(raw), kind, r);
    var n := LegacyNormal(m, r, show);
    assert TextAt(n, StrategyType) == TextAt(m, StrategyType);
    if s.Some? {
      SanitizedIsClean(Str(raw), kind, r);
      CleanFilled(s.value, kind);
      assert r.json(show(s.value)) == Some(s.value);
    }
  }

  /** A patch that names nothing but a type that is no type. */
  const MOMENTUM: Fields := map[StrategyType := Str("momentum")]

  /**
   * A run to a forgotten type: the first turn extracts that patch, which passes the filter unclean because no type is
   * known; as text it names a type to the older session, and normalising that session forgets it.
   */
  lemma MomentumIsForgotten(editable: Editable, r: Reader, show: Fields -> string)
    requires Canonical(r) && ReadsBack(r, show) && r.typeOf(Str("momentum")) == ""
    ensures var data := map[ConfigPatch := Obj(MOMENTUM)];
            var m := map[ConfigPatch := show(MOMENTUM)];
            && Turned(map[], data, editable, r) == data
            && LegacyType(m, r) == "momentum" && LegacyType(LegacyNormal(m, r, show), r) == ""
  {
    var data: Fields := map[ConfigPatch := Obj(MOMENTUM)];
    var m: Texts := map[ConfigPatch := show(MOMENTUM)];
    MomentumTurn(data, editable, r);
    assert r.json(show(MOMENTUM)) == Some(MOMENTUM);
    assert TextAt(m, ConfigPatch) == show(MOMENTUM) && TextAt(m, StrategyType) == "";
    assert LegacyType(m, r) == "momentum" by { assert Trim("momentum") == "momentum"; }
    assert Sanitized(Str(show(MOMENTUM)), "momentum", r).None?;
    LegacyTypeForgottenIff(m, r, show);
  }

  lemma MomentumTurn(data: Fields, editable: Editable, r: Reader)
    requires Canonical(r) && r.typeOf(Str("momentum")) == "" && data == map[ConfigPatch := Obj(MOMENTUM)]
    ensures Turned(map[], data, editable, r) == data
  {
    assert Allowed(data, CREATE_FIELDS) == data;
    assert TypeOf(data, r) == "" && TypeOf(map[], r) == "";
  }

  lemma LegacyIdempotent(m: Texts, r: Reader, show: Fields -> string)
    requires ReadsBack(r, show)
    ensures LegacyNormal(LegacyNormal(m, r, show), r, show) == LegacyNormal(m, r, show)
  {
    hide Trim, Sanitized, Clean;
    var kind, n := LegacyType(m, r), LegacyNormal(m, r, show);
    if kind != "" {
      LegacyTypeForgottenIff(m, r, show);
      var s := Sanitized(Str(TextAt(m, ConfigPatch)), kind, r);
      if TextAt(m, ConfigPatch) != "" && s.Some? {
        SanitizedIsClean(Str(TextAt(m, ConfigPatch)), kind, r);
        CleanIsFixed(s.value, kind, r);
        assert r.json(show(s.value)) == Some(s.value);
        SameReading(show(s.value), s.value, kind, r);
      }
    }
  }

  lemma SameReading(text: string, m: Fields, kind: string, r: Reader)
    requires r.json(text) == Some(m)
    ensures Sanitized(Str(text), kind, r) == Sanitized(Obj(m), kind, r)
  {}

  // ---- the source's form --------------------------------------------------

  /** `sanitizeStrategyCreateConfigPatchForType`, section by section. */
  method Sanitize(v: Value, kind: string, r: Reader) returns (clean: Option<Fields>)
    ensures clean == Sanitized(v, kind, r)
  {
    var patch := MapOf(v, r);
    if patch == map[] { return None; }
    var publish := MapOf(At(patch, PublishConfig), r);
    var branch := map[];
    if kind == GRID {
      branch := MapOf(At(patch, GridConfig), r);
    } else if kind == AI {
      branch := Hoist(MapOf(At(patch, AiConfig), r), patch);
    }
    if publish == map[] && branch == map[] { return None; }
    return Some(Assembled(kind, publish, branch));
  }

  method Hoist(ai: Fields, patch: Fields) returns (branch: Fields)
    ensures branch == Hoisted(ai, patch, SECTIONS)
  {
    branch := ai;
    HoistNothing(ai, patch, []);
    for i := 0 to |SECTIONS|
      invariant branch == Hoisted(ai, patch, SECTIONS[..i])
    {
      var key := SECTIONS[i];
      HoistOne(ai, patch, SECTIONS[..i], key);
      assert SECTIONS[..i + 1] == SECTIONS[..i] + [key];
      if key in patch {
        branch := branch[key := patch[key]];
      }
    }
    assert SECTIONS[..|SECTIONS|] == SECTIONS;
  }

  lemma HoistOne(ai: Fields, patch: Fields, keys: seq<Key>, key: Key)
    ensures Hoisted(ai, patch, keys + [key]) ==
            if key in patch then Hoisted(ai, patch, keys)[key := patch[key]] else Hoisted(ai, patch, keys)
  {}

  /** The loop of `filterStrategyCreateExtractedDataByTemplate`. */
  method FilterForKind(data: Fields, kind: string, editable: Editable, r: Reader) returns (out: Fields)
    ensures out == ForKind(data, kind, editable, r)
  {
    hide Sanitized;
    out := map[];
    var todo := data.Keys;
    while todo != {}
      invariant todo <= data.Keys && out == ForKind(data - todo, kind, editable, r)
      decreases |todo|
    {
      var key := Pick(todo);
      ghost var done := data - todo;
      if key.ConfigPatch? {
        var patch := Sanitize(data[key], kind, r);
        if patch.Some? { out := out[key := Obj(patch.value)]; }
      } else if key.AwaitingFinal? {
        out := out[key := data[key]];
      } else if key in editable(kind) {
        out := out[key := data[key]];
      }
      ForKindStep(done, key, data[key], kind, editable, r);
      todo := todo - {key};
      assert data - todo == done[key := data[key]];
    }
    assert data - todo == data;
  }

  lemma ForKindStep(done: Fields, key: Key, v: Value, kind: string, editable: Editable, r: Reader)
    requires key !in done
    ensures var was := ForKind(done, kind, editable, r);
            ForKind(done[key := v], kind, editable, r) ==
            if key.ConfigPatch? then
              if Sanitized(v, kind, r).Some? then was[key := Obj(Sanitized(v, kind, r).value)] else was
            else if key.AwaitingFinal? || key in editable(kind) then was[key := v] else was
  {
    hide Sanitized;
  }

  const SHARED := [Name, Description, IsPublic, ConfigVisible, Lang]

  lemma SharedKeys(k: Key)
    ensures k in SHARED <==> Survives(k)
  {}

  lemma Overlay<K, V>(base: map<K, V>, data: map<K, V>, todo: set<K>, k: K)
    requires k in todo && todo <= data.Keys
    ensures (base + (data - todo))[k := data[k]] == base + (data - (todo - {k}))
  {}

  /** The session whose collected fields the turns change. */
  class ActiveSession {
    var fields: Fields

    constructor ()
      ensures fields == map[]
    {
      fields := map[];
    }

    method FilterByTemplate(data: Fields, editable: Editable, r: Reader) returns (out: Fields)
      ensures out == ByTemplate(fields, data, editable, r)
    {
      hide ForKind, TypeOf;
      var kind := TypeOf(data, r);
      if kind == "" { kind := TypeOf(fields, r); }
      if kind == "" { return data; }
      out := FilterForKind(data, kind, editable, r);
    }

    method ResetForType(kind: string)
      modifies this
      ensures fields == Reset(old(fields), kind)
    {
      var keep: Fields := map[];
      for i := 0 to |SHARED|
        invariant fields == old(fields) && keep == map k | k in fields && k in SHARED[..i] :: fields[k]
      {
        var key := SHARED[i];
        assert SHARED[..i + 1] == SHARED[..i] + [key];
        if key in fields { keep := keep[key := fields[key]]; }
      }
      assert SHARED[..|SHARED|] == SHARED;
      forall k ensures k in SHARED <==> Survives(k) { SharedKeys(k); }
      fields := keep[StrategyType := Str(kind)];
    }

    /** `mergeExtractedData`. */
    method Merge(data: Fields, r: Reader)
      modifies this
      ensures fields == Merged(old(fields), data, r)
    {
      hide TypeOf, Reset, Survives;
      var incoming := TypeOf(data, r);
      if incoming != "" {
        var current := TypeOf(fields, r);
        if current != "" && current != incoming { ResetForType(incoming); }
      }
      ghost var base := fields;
      var todo := data.Keys;
      while todo != {}
        invariant todo <= data.Keys && fields == base + (data - todo)
        decreases |todo|
      {
        var key := Pick(todo);
        Overlay(base, data, todo, key);
        fields := fields[key := data[key]];
        todo := todo - {key};
      }
      assert data - todo == data;
    }

    /** One turn: what was extracted is filtered and merged. */
    method Turn(data: Fields, editable: Editable, r: Reader)
      modifies this
      ensures fields == Turned(old(fields), data, editable, r)
    {
      hide ByTemplate, Merged;
      var out := FilterByTemplate(Allowed(data, CREATE_FIELDS), editable, r);
      Merge(out, r);
    }
  }
}
