/** Setting up the first trader by chat: a conversation in steps, with a cached state written through to stored keys. */
module Onboardings {
  import opened Text

  datatype Step = Idle | AwaitExchange | AwaitKey | AwaitSecret | AwaitPassphrase | AwaitModel | AwaitAiKey

  datatype Venue = NoVenue | Binance | Okx | Bybit | Bitget | Gate | Kucoin | Hyperliquid

  predicate NeedsPassphrase(v: Venue) { v.Okx? || v.Bitget? || v.Kucoin? }

  /** The state of the conversation. */
  datatype Setup = Setup(step: Step, exchange: Venue, exchangeId: string, apiKey: string, apiSecret: string,
                         passphrase: string,
                         provider: string, model: string, modelId: string, aiKey: string, baseUrl: string)

  const NO_SETUP := Setup(Idle, NoVenue, "", "", "", "", "", "", "", "", "")

  /** The part of it that is stored: no credentials. */
  datatype Keys = Keys(step: Step, exchange: Venue, exchangeId: string, provider: string, model: string,
                       modelId: string,
                       baseUrl: string)

  const NO_KEYS := Keys(Idle, NoVenue, "", "", "", "", "")

  function Persisted(s: Setup): Keys {
    Keys(s.step, s.exchange, s.exchangeId, s.provider, s.model, s.modelId, s.baseUrl)
  }

  /** A stored exchange account; `ours` marks those that setup made. */
  datatype Row = Row(id: string, venue: Venue, ours: bool, apiKey: string, apiSecret: string, passphrase: string,
                     wallet: string)

  datatype Pair = Pair(exchangeId: string, modelId: string)

  datatype World = World(cache: Option<Setup>, keys: Keys, exchanges: seq<Row>, traders: seq<Pair>)

  datatype AiChoice = Unknown | Skip | Chosen(provider: string, model: string, url: string)

  /** A message, and how it can be read. */
  datatype Input = Input(cancel: bool, text: string, venue: Option<Venue>, ai: AiChoice, start: bool)

  /** The size of a text in bytes. */
  function Size(s: string): nat {
    if s == "" then 0
    else
      (if s[0] < '\U{80}' then 1 else if s[0] < '\U{800}' then 2 else if s[0] < '\U{10000}' then 3 else 4) +
      Size(s[1..])
  }

  /** Whether a message can be a credential: no Han characters, no blanks unless it starts like a key, eight bytes. */
  predicate KeyLike(text: string) {
    var t := Trim(text);
    && (forall i :: 0 <= i < |t| ==> !('\U{4E00}' <= t[i] <= '\U{9FFF}'))
    && (' ' in t ==> "sk-" <= t)
    && Size(t) >= 8
  }

  lemma KeyLikeIsSolid(text: string)
    requires KeyLike(text)
    ensures Trim(text) != ""
  {
    hide Trim;
  }

  /** How the store behaves during a turn, the identifier of a new account, and the prefix of model identifiers. */
  datatype Env = Env(exchangesFail: bool, writeFails: bool, newId: string, aiFails: bool, tradersFail: bool,
                     createFails: bool, prefix: string)

  // ---- the state, cached and stored --------------------------------------

  /** `getSetupState`. */
  function Loaded(w: World): Setup {
    if w.cache.Some? then w.cache.value
    else if w.keys.step.Idle? then NO_SETUP
    else Setup(w.keys.step, w.keys.exchange, w.keys.exchangeId, "", "", "", w.keys.provider, w.keys.model,
               w.keys.modelId,
               "", w.keys.baseUrl)
  }

  /** `saveSetupState`. */
  function Saved(w: World, s: Setup): World { w.(cache := Some(s), keys := Persisted(s)) }

  /** `clearSetupState`. */
  function Cleared(w: World): World { w.(cache := None, keys := NO_KEYS) }

  // ---- exchanges, models and traders -------------------------------------

  /** What setup hands to the store; for Hyperliquid the key goes where the secret is and the secret is the wallet. */
  datatype Creds = Creds(apiKey: string, apiSecret: string, passphrase: string, wallet: string)

  function Handed(s: Setup): Creds {
    if s.exchange.Hyperliquid? then Creds("", s.apiKey, s.passphrase, s.apiSecret)
    else Creds(s.apiKey, s.apiSecret, s.passphrase, "")
  }

  predicate Blank(text: string) { Trim(text) == "" }

  /** `MissingRequiredExchangeCredentialFields`: whether a new account of the venue would lack a credential. */
  predicate Lacks(v: Venue, c: Creds) {
    match v
    case NoVenue => true
    case Hyperliquid => Blank(c.apiKey) || Blank(c.wallet)
    case _ => Blank(c.apiKey) || Blank(c.apiSecret) || (NeedsPassphrase(v) && Blank(c.passphrase))
  }

  function Over(value: string, before: string): string {
    if value == "" then before else value
  }

  /** What updating an account leaves: blank credentials do not overwrite, the wallet always does. */
  function Updated(row: Row, c: Creds): Row {
    row.(apiKey := Over(c.apiKey, row.apiKey), apiSecret := Over(c.apiSecret, row.apiSecret),
         passphrase := Over(c.passphrase, row.passphrase), wallet := c.wallet)
  }

  function Opened(v: Venue, c: Creds, id: string): Row {
    Row(id, v, true, c.apiKey, c.apiSecret, c.passphrase, c.wallet)
  }

  function Find(rows: seq<Row>, v: Venue): (r: Option<nat>)
    ensures r.Some? ==> r.value < |rows| && rows[r.value].venue == v && rows[r.value].ours
    ensures r.Some? ==> forall i :: 0 <= i < r.value ==> !(rows[i].venue == v && rows[i].ours)
    ensures r.None? ==> forall i :: 0 <= i < |rows| ==> !(rows[i].venue == v && rows[i].ours)
  {
    if rows == [] then None
    else if rows[0].venue == v && rows[0].ours then Some(0)
    else
      match Find(rows[1..], v)
      case None => assert forall i :: 0 < i < |rows| ==> rows[i] == rows[1..][i - 1]; None
      case Some(i) => assert forall k :: 0 < k < |rows| ==> rows[k] == rows[1..][k - 1]; Some(i + 1)
  }

  /** `saveSetupExchange`: the account of that venue is updated, or a new one made unless a credential is missing. */
  function WithExchange(rows: seq<Row>, s: Setup, e: Env): (seq<Row>, Option<string>) {
    if e.exchangesFail then (rows, None)
    else
      match Find(rows, s.exchange)
      case Some(i) =>
        if e.writeFails then (rows, None) else (rows[i := Updated(rows[i], Handed(s))], Some(rows[i].id))
      case None =>
        if Lacks(s.exchange, Handed(s)) || e.writeFails then (rows, None)
        else (rows + [Opened(s.exchange, Handed(s), e.newId)], Some(e.newId))
  }

  /** `saveSetupAIModel`. */
  function ModelId(s: Setup, e: Env): Option<string> {
    if s.provider == "" then Some("")
    else if e.aiFails then None
    else Some(e.prefix + "_" + s.provider)
  }

  /** `createTraderFromSetupForStoreUser`: a pair that exists is used again. */
  function WithTrader(w: World, s: Setup, e: Env): World {
    var (rows, id) := if s.exchangeId == "" then WithExchange(w.exchanges, s, e) else (w.exchanges, Some(s.exchangeId));
    var w1 := w.(exchanges := rows);
    if id.None? then w1
    else
      var model := if s.model != "" && s.aiKey != "" && s.modelId == "" then ModelId(s, e).GetOr("") else s.modelId;
      if e.tradersFail || Pair(id.value, model) in w.traders || e.createFails then w1
      else w1.(traders := w.traders + [Pair(id.value, model)])
  }

  function Finished(w: World, s: Setup, e: Env): World {
    WithTrader(Cleared(w), s, e)
  }

  /** The exchange is saved and the model asked for; on failure nothing is written. */
  function Connected(w: World, s: Setup, e: Env): World {
    var (rows, id) := WithExchange(w.exchanges, s, e);
    var w1 := w.(exchanges := rows);
    if id.None? then w1 else Saved(w1, s.(exchangeId := id.value, step := AwaitModel))
  }

  // ---- one turn -----------------------------------------------------------

  predicate WantsKey(step: Step) { step.AwaitKey? || step.AwaitSecret? || step.AwaitPassphrase? || step.AwaitAiKey? }

  /** `handleSetupFlowForStoreUser`. */
  function Turn(w: World, i: Input, e: Env): World {
    var s := Loaded(w);
    if i.cancel || (WantsKey(s.step) && !KeyLike(i.text)) then Cleared(w)
    else
      match s.step
      case AwaitExchange => if i.venue.None? then w else Saved(w, s.(exchange := i.venue.value, step := AwaitKey))
      case AwaitKey => Saved(w, s.(apiKey := Trim(i.text), step := AwaitSecret))
      case AwaitSecret =>
        var t := s.(apiSecret := Trim(i.text));
        if NeedsPassphrase(s.exchange) then Saved(w, t.(step := AwaitPassphrase)) else Connected(w, t, e)
      case AwaitPassphrase => Connected(w, s.(passphrase := Trim(i.text)), e)
      case AwaitModel =>
        (match i.ai
         case Unknown => w
         case Skip => Finished(w, s.(provider := "", model := "", modelId := "", aiKey := ""), e)
         case Chosen(p, m, u) => Saved(w, s.(provider := p, model := m, baseUrl := u, step := AwaitAiKey)))
      case AwaitAiKey =>
        var t := s.(aiKey := Trim(i.text));
        (match ModelId(t, e)
         case None => w
         case Some(id) => Finished(w, t.(modelId := id), e))
      case Idle => if i.start then Saved(w, s.(step := AwaitExchange)) else w
  }

  /** A message arrives, or the process restarts and the cache is lost. */
  datatype Event = Message(i: Input, e: Env) | Restart

  function Happen(w: World, ev: Event): World {
    match ev
    case Message(i, e) => Turn(w, i, e)
    case Restart => w.(cache := None)
  }

  /** New accounts get an identifier, and only real venues can be chosen. */
  ghost predicate Sensible(ev: Event) {
    ev.Message? ==> ev.e.newId != "" && (ev.i.venue.Some? ==> !ev.i.venue.value.NoVenue?)
  }

  // ---- what holds at all times -------------------------------------------

  /** The cache, if there, says what is stored. */
  predicate InStep(w: World) {
    && (w.cache.Some? ==> Persisted(w.cache.value) == w.keys)
    && (w.keys.step.Idle? ==> w.keys == NO_KEYS && w.cache.None?)
  }

  predicate Placed(k: Keys) {
    && (k.step.AwaitKey? || k.step.AwaitSecret? || k.step.AwaitPassphrase? || k.step.AwaitModel? ||
        k.step.AwaitAiKey? ==>
          !k.exchange.NoVenue?)
    && (k.step.AwaitPassphrase? ==> NeedsPassphrase(k.exchange))
    && (k.step.AwaitModel? || k.step.AwaitAiKey? ==> k.exchangeId != "")
  }

  ghost predicate UniqueRows(rows: seq<Row>) {
    && (forall i, j :: 0 <= i < j < |rows| && rows[i].ours && rows[j].ours ==> rows[i].venue != rows[j].venue)
    && (forall i :: 0 <= i < |rows| ==> rows[i].id != "")
  }

  ghost predicate UniqueTraders(traders: seq<Pair>) {
    forall i, j :: 0 <= i < j < |traders| ==> traders[i] != traders[j]
  }

  ghost predicate Sound(w: World) {
    InStep(w) && Placed(w.keys) && UniqueRows(w.exchanges) && UniqueTraders(w.traders)
  }

  lemma WithExchangeUnique(rows: seq<Row>, s: Setup, e: Env)
    requires UniqueRows(rows) && e.newId != ""
    ensures var r := WithExchange(rows, s, e);
            && UniqueRows(r.0) && (r.1.Some? ==> r.1.value != "")
            && (r.1.None? ==> r.0 == rows)
  {}

  lemma UniqueSnoc(traders: seq<Pair>, p: Pair)
    requires UniqueTraders(traders) && p !in traders
    ensures UniqueTraders(traders + [p])
  {}

  lemma FinishedSound(w: World, s: Setup, e: Env)
    requires Sound(w) && e.newId != ""
    ensures Sound(Finished(w, s, e)) && Finished(w, s, e).keys == NO_KEYS
  {
    hide UniqueRows, UniqueTraders, WithExchange, ModelId;
    if s.exchangeId == "" { WithExchangeUnique(w.exchanges, s, e); }
    var r := Finished(w, s, e);
    if r.traders != w.traders { UniqueSnoc(w.traders, r.traders[|w.traders|]); }
  }

  lemma LoadedKeys(w: World)
    requires InStep(w)
    ensures Persisted(Loaded(w)) == w.keys
  {}

  lemma ConnectedSound(w: World, s: Setup, e: Env)
    requires Sound(w) && e.newId != "" && !s.exchange.NoVenue?
    ensures Sound(Connected(w, s, e))
    ensures var k := Connected(w, s, e).keys;
            k == w.keys || (k.step.AwaitModel? && k.exchange == s.exchange)
  {
    hide UniqueRows, UniqueTraders, WithExchange;
    WithExchangeUnique(w.exchanges, s, e);
  }

  /** One event keeps all of it. */
  lemma HappenSound(w: World, ev: Event)
    requires Sound(w) && Sensible(ev)
    ensures Sound(Happen(w, ev))
  {
    hide UniqueRows, UniqueTraders, Connected, Finished, ModelId, Trim, KeyLike;
    LoadedKeys(w);
    match ev
    case Restart =>
    case Message(i, e) =>
      var s := Loaded(w);
      match s.step {
        case AwaitSecret => if !NeedsPassphrase(s.exchange) { ConnectedSound(w, s.(apiSecret := Trim(i.text)), e); }
        case AwaitPassphrase => ConnectedSound(w, s.(passphrase := Trim(i.text)), e);
        case AwaitModel => FinishedSound(w, s.(provider := "", model := "", modelId := "", aiKey := ""), e);
        case AwaitAiKey =>
          var t := s.(aiKey := Trim(i.text));
          if ModelId(t, e).Some? { FinishedSound(w, t.(modelId := ModelId(t, e).value), e); }
        case _ =>
      }
  }

  // ---- the order of the steps --------------------------------------------

  /** The way through the conversation for one venue. */
  function Path(v: Venue): seq<Step> {
    [AwaitExchange, AwaitKey, AwaitSecret] + (if NeedsPassphrase(v) then [AwaitPassphrase] else []) +
        [AwaitModel, AwaitAiKey]
  }

  /** The steps taken since the conversation began; staying at a step adds nothing. */
  function Trail(trail: seq<Step>, before: Step, after: Step): seq<Step> {
    if after.Idle? then [] else if after == before then trail else trail + [after]
  }

  /** The trail is the way for the venue, up to the present step. */
  predicate OnPath(trail: seq<Step>, k: Keys) {
    if k.step.Idle? then trail == []
    else
      && trail != [] && trail[|trail| - 1] == k.step
      && |trail| <= |Path(k.exchange)| && trail == Path(k.exchange)[..|trail|]
  }

  /** The one way on from a step; at a fork the venue decides. */
  predicate Onward(a: Step, b: Step, v: Venue) {
    || (a.AwaitKey? && b.AwaitSecret?)
    || (a.AwaitSecret? && b == (if NeedsPassphrase(v) then AwaitPassphrase else AwaitModel))
    || (a.AwaitPassphrase? && b.AwaitModel? && NeedsPassphrase(v))
    || (a.AwaitModel? && b.AwaitAiKey?)
  }

  /** From each step there is one way on, or back to the start, or none. */
  predicate Moves(a: Keys, b: Keys) {
    || b.step.Idle? || (b.step == a.step && b.exchange == a.exchange)
    || (a.step.Idle? && b.step.AwaitExchange?)
    || (a.step.AwaitExchange? && b.step.AwaitKey?)
    || (b.exchange == a.exchange && Onward(a.step, b.step, a.exchange))
  }

  lemma StepsOn(w: World, ev: Event)
    requires Sound(w) && Sensible(ev)
    ensures Moves(w.keys, Happen(w, ev).keys)
  {
    hide UniqueRows, UniqueTraders, WithExchange, WithTrader, ModelId, Trim, KeyLike;
    LoadedKeys(w);
    if ev.Message? { FinishedKeys(w, Loaded(w), ev.e); }
  }

  lemma FinishedKeys(w: World, s: Setup, e: Env)
    ensures forall t :: Finished(w, t, e).keys == NO_KEYS
  {
    hide WithExchange, ModelId;
  }

  lemma TrailStep(trail: seq<Step>, a: Keys, b: Keys)
    requires OnPath(trail, a) && (a.step.AwaitPassphrase? ==> NeedsPassphrase(a.exchange))
    requires Moves(a, b)
    ensures OnPath(Trail(trail, a.step, b.step), b)
  {
    var p, q := Path(a.exchange), Path(b.exchange);
    if !a.step.Idle? && !b.step.Idle? && b.step != a.step {
      var n := |trail|;
      assert p[n - 1] == a.step;
      assert n < |q| && q[n] == b.step;
      assert q[..n + 1] == q[..n] + [q[n]];
      if a.step.AwaitExchange? { assert q[..1] == p[..1]; }
    }
  }

  // ---- what the user sent -------------------------------------------------

  /** The credentials as the user sent them, and whether the process restarted since the key and since the secret. */
  datatype Sent = Sent(key: string, secret: string, passphrase: string, keyLost: bool, secretLost: bool)

  const NOTHING_SENT := Sent("", "", "", false, false)

  function Told(sent: Sent, w: World, ev: Event): Sent {
    match ev
    case Restart => sent.(keyLost := true, secretLost := true)
    case Message(i, _) =>
      if i.cancel || (WantsKey(w.keys.step) && !KeyLike(i.text)) then sent
      else
        match w.keys.step
        case AwaitKey => Sent(Trim(i.text), "", "", false, false)
        case AwaitSecret => sent.(secret := Trim(i.text), secretLost := false)
        case AwaitPassphrase => sent.(passphrase := Trim(i.text))
        case _ => sent
  }

  /** The state in hand holds what was sent, except what a restart has taken. */
  predicate Knows(w: World, sent: Sent) {
    var (s, step) := (Loaded(w), w.keys.step);
    && (step.AwaitExchange? || step.AwaitKey? || step.AwaitSecret? ==> s.apiSecret == "" && s.passphrase == "")
    && (step.AwaitSecret? || step.AwaitPassphrase? ==>
          sent.key != "" && s.apiKey == (if sent.keyLost then "" else sent.key) && !Blank(sent.key))
    && (step.AwaitPassphrase? ==>
          && s.passphrase == "" && sent.secret != "" && !Blank(sent.secret)
          && s.apiSecret == (if sent.secretLost then "" else sent.secret))
  }

  lemma SolidTrim(text: string)
    requires KeyLike(text)
    ensures Trim(text) != "" && !Blank(Trim(text))
  {
    hide Trim, KeyLike;
    KeyLikeIsSolid(text);
  }

  lemma KnowsStep(w: World, sent: Sent, ev: Event)
    requires Sound(w) && Sensible(ev) && Knows(w, sent)
    ensures Knows(Happen(w, ev), Told(sent, w, ev))
  {
    hide UniqueRows, UniqueTraders, WithExchange, WithTrader, ModelId, Trim, KeyLike, Blank;
    LoadedKeys(w);
    if ev.Message? {
      FinishedKeys(w, Loaded(w), ev.e);
      if KeyLike(ev.i.text) { SolidTrim(ev.i.text); }
    }
  }

  datatype Journey = Journey(w: World, trail: seq<Step>, sent: Sent)

  function Next(j: Journey, ev: Event): Journey {
    var next := Happen(j.w, ev);
    Journey(next, Trail(j.trail, j.w.keys.step, next.keys.step), Told(j.sent, j.w, ev))
  }

  function Travel(j: Journey, evs: seq<Event>): Journey
    decreases |evs|
  {
    if evs == [] then j else Travel(Next(j, evs[0]), evs[1..])
  }

  /**
   * Over any messages, store failures and restarts: the steps are taken in order, with the passphrase exactly for the
   * venues that need one; the model is only asked for once an exchange is saved; the cache agrees with what is stored;
   * and setup never makes a second account for a venue or a second trader for a pair.
   */
  lemma {:induction false} SetupIsOrderly(j: Journey, evs: seq<Event>)
    requires Sound(j.w) && OnPath(j.trail, j.w.keys) && Knows(j.w, j.sent)
    requires forall i :: 0 <= i < |evs| ==> Sensible(evs[i])
    ensures var r := Travel(j, evs); Sound(r.w) && OnPath(r.trail, r.w.keys) && Knows(r.w, r.sent)
    decreases |evs|
  {
    hide Happen, OnPath, Sensible, UniqueRows, UniqueTraders, InStep, Knows, Told;
    if evs != [] {
      HappenSound(j.w, evs[0]);
      StepsOn(j.w, evs[0]);
      KnowsStep(j.w, j.sent, evs[0]);
      TrailStep(j.trail, j.w.keys, Happen(j.w, evs[0]).keys);
      SetupIsOrderly(Next(j, evs[0]), evs[1..]);
    }
  }

  // ---- which credentials are saved ---------------------------------------

  /** The message after which the exchange is saved. */
  predicate Saves(w: World, i: Input) {
    && !i.cancel && KeyLike(i.text)
    && (w.keys.step.AwaitPassphrase? || (w.keys.step.AwaitSecret? && !NeedsPassphrase(w.keys.exchange)))
  }

  /** No credential that the venue needs was lost by a restart. */
  predicate Intact(sent: Sent, v: Venue) {
    !sent.keyLost && (NeedsPassphrase(v) ==> !sent.secretLost)
  }

  /** The account holds exactly what the user sent. */
  predicate HoldsSent(row: Row, v: Venue, sent: Sent) {
    if v.Hyperliquid? then row.apiSecret == sent.key && row.wallet == sent.secret
    else
      && row.apiKey == sent.key && row.apiSecret == sent.secret
      && (NeedsPassphrase(v) ==> row.passphrase == sent.passphrase)
  }

  /** An old account that happens to hold already what was lost. */
  predicate Recovers(row: Row, v: Venue, sent: Sent) {
    && (sent.keyLost ==> (if v.Hyperliquid? then row.apiSecret else row.apiKey) == sent.key)
    && (NeedsPassphrase(v) && sent.secretLost ==> row.apiSecret == sent.secret)
  }

  /** The state with which the exchange is saved. */
  function Ready(w: World, i: Input): Setup {
    if w.keys.step.AwaitPassphrase? then Loaded(w).(passphrase := Trim(i.text))
    else Loaded(w).(apiSecret := Trim(i.text))
  }

  lemma SavingTurn(w: World, i: Input, e: Env)
    requires Sound(w) && Saves(w, i)
    ensures Turn(w, i, e) == Connected(w, Ready(w, i), e) && Ready(w, i).exchange == w.keys.exchange
  {
    hide UniqueRows, UniqueTraders, Connected, Trim, KeyLike;
    LoadedKeys(w);
  }

  lemma ReadyLacks(w: World, i: Input, sent: Sent)
    requires Sound(w) && Saves(w, i) && Knows(w, sent)
    ensures var (v, told) := (w.keys.exchange, Told(sent, w, Message(i, NO_ENV)));
            Lacks(v, Handed(Ready(w, i))) <==> v.Hyperliquid? || !Intact(told, v)
  {
    hide UniqueRows, UniqueTraders, Trim, KeyLike;
    LoadedKeys(w);
    SolidTrim(i.text);
    BlankNothing();
  }

  const NO_ENV := Env(false, false, "", false, false, false, "")

  lemma BlankNothing()
    ensures Blank("")
  {}

  /**
   * The model is asked for exactly when the store works and either there is an account of ours to update or a new one
   * lacks nothing: the venue is not Hyperliquid, and no restart has taken a credential. Else nothing changes at all,
   * and the conversation stays where it is.
   */
  lemma ConnectsIff(w: World, i: Input, e: Env, sent: Sent)
    requires Sound(w) && Saves(w, i) && Knows(w, sent)
    ensures var (v, told, r) := (w.keys.exchange, Told(sent, w, Message(i, e)), Turn(w, i, e));
            && (r.keys.step.AwaitModel? <==>
                  && !e.exchangesFail && !e.writeFails
                  && (Find(w.exchanges, v).Some? || (!v.Hyperliquid? && Intact(told, v))))
            && (r.keys.step.AwaitModel? || r == w)
  {
    hide UniqueRows, UniqueTraders, Trim, KeyLike, Lacks, Handed, Ready, Updated, Opened, Knows, Find;
    SavingTurn(w, i, e);
    ReadyLacks(w, i, sent);
    ToldAlike(sent, w, i, e);
  }

  lemma ToldAlike(sent: Sent, w: World, i: Input, e: Env)
    ensures Told(sent, w, Message(i, e)) == Told(sent, w, Message(i, NO_ENV))
  {
    hide Trim, KeyLike;
  }

  /** The account that a successful save leaves. */
  lemma SavedRow(rows: seq<Row>, s: Setup, e: Env)
    requires WithExchange(rows, s, e).1.Some?
    ensures var (r, was) := (WithExchange(rows, s, e).0, Find(rows, s.exchange));
            var at := Find(r, s.exchange);
            && at.Some?
            && r[at.value] == if was.Some? then Updated(rows[was.value], Handed(s))
               else Opened(s.exchange, Handed(s), e.newId)
  {
    hide Lacks, Handed;
    var (r, was) := (WithExchange(rows, s, e).0, Find(rows, s.exchange));
    FindFirst(r, if was.Some? then was.value else |rows|, s.exchange);
  }

  /**
   * Once it is saved, the account holds exactly what the user sent if and only if no restart has taken a needed
   * credential since it was sent, or the account held that very credential before: an update keeps what it is not
   * given.
   */
  lemma SavedIsSentIff(w: World, i: Input, e: Env, sent: Sent)
    requires Sound(w) && Saves(w, i) && Knows(w, sent) && Turn(w, i, e).keys.step.AwaitModel?
    ensures var (v, told, r) := (w.keys.exchange, Told(sent, w, Message(i, e)), Turn(w, i, e));
            var (was, at) := (Find(w.exchanges, v), Find(r.exchanges, v));
            && at.Some?
            && (HoldsSent(r.exchanges[at.value], v, told) <==>
                  Intact(told, v) || (was.Some? && Recovers(w.exchanges[was.value], v, told)))
  {
    hide UniqueRows, UniqueTraders, Trim, KeyLike, Lacks, WithExchange, Knows;
    SavingTurn(w, i, e);
    ConnectsIff(w, i, e, sent);
    SavedRow(w.exchanges, Ready(w, i), e);
    ReadyCreds(w, i, e, sent);
  }

  lemma ReadyCreds(w: World, i: Input, e: Env, sent: Sent)
    requires Sound(w) && Saves(w, i) && Knows(w, sent)
    ensures var (told, s) := (Told(sent, w, Message(i, e)), Ready(w, i));
            && told.key != "" && told.secret != "" && s.apiKey == (if told.keyLost then "" else told.key)
            && s.apiSecret == (if w.keys.step.AwaitPassphrase? && told.secretLost then "" else told.secret)
            && (w.keys.step.AwaitPassphrase? ==> s.passphrase == told.passphrase && told.passphrase != "")
            && (w.keys.step.AwaitPassphrase? <==> NeedsPassphrase(w.keys.exchange))
  {
    hide UniqueRows, UniqueTraders, Trim, KeyLike;
    LoadedKeys(w);
    SolidTrim(i.text);
  }

  /** The same at the end of any run: whatever was sent, lost and refused before. */
  lemma CredentialsArriveIff(j: Journey, evs: seq<Event>, i: Input, e: Env)
    requires Sound(j.w) && OnPath(j.trail, j.w.keys) && Knows(j.w, j.sent)
    requires forall k :: 0 <= k < |evs| ==> Sensible(evs[k])
    requires Saves(Travel(j, evs).w, i)
    ensures var t := Travel(j, evs);
            var (v, told, r) := (t.w.keys.exchange, Told(t.sent, t.w, Message(i, e)), Turn(t.w, i, e));
            var (was, at) := (Find(t.w.exchanges, v), Find(r.exchanges, v));
            && (r.keys.step.AwaitModel? <==>
                  !e.exchangesFail && !e.writeFails && (was.Some? || (!v.Hyperliquid? && Intact(told, v))))
            && (r.keys.step.AwaitModel? ==>
                  at.Some? && (HoldsSent(r.exchanges[at.value], v, told) <==>
                                 Intact(told, v) || (was.Some? && Recovers(t.w.exchanges[was.value], v, told))))
  {
    hide Sound, OnPath, Sensible, Knows, Turn, Told, Saves, Intact, HoldsSent, Recovers;
    SetupIsOrderly(j, evs);
    var t := Travel(j, evs);
    ConnectsIff(t.w, i, e, t.sent);
    if Turn(t.w, i, e).keys.step.AwaitModel? { SavedIsSentIff(t.w, i, e, t.sent); }
  }

  // ---- which venues can be set up ----------------------------------------

  /** No account of ours at Hyperliquid, and no conversation past its credentials. */
  predicate NoHyperliquid(w: World) {
    && Find(w.exchanges, Hyperliquid).None?
    && (w.keys.step.AwaitModel? || w.keys.step.AwaitAiKey? ==> !w.keys.exchange.Hyperliquid?)
  }

  lemma FindNone(rows: seq<Row>, v: Venue)
    ensures Find(rows, v).None? <==> forall k :: 0 <= k < |rows| ==> !(rows[k].venue == v && rows[k].ours)
  {}

  lemma RefusesHyperliquid(rows: seq<Row>, s: Setup, e: Env)
    requires Find(rows, Hyperliquid).None?
    ensures Find(WithExchange(rows, s, e).0, Hyperliquid).None?
    ensures s.exchange.Hyperliquid? ==> WithExchange(rows, s, e).1.None?
  {
    BlankNothing();
    FindNone(rows, Hyperliquid);
    FindNone(WithExchange(rows, s, e).0, Hyperliquid);
  }

  lemma HyperliquidStep(w: World, ev: Event)
    requires Sound(w) && NoHyperliquid(w)
    ensures NoHyperliquid(Happen(w, ev))
  {
    hide UniqueRows, UniqueTraders, WithExchange, ModelId, Trim, KeyLike, Find;
    LoadedKeys(w);
    if ev.Message? {
      var (s, i) := (Loaded(w), ev.i);
      RefusesHyperliquid(w.exchanges, s.(apiSecret := Trim(i.text)), ev.e);
      RefusesHyperliquid(w.exchanges, s.(passphrase := Trim(i.text)), ev.e);
      RefusesHyperliquid(w.exchanges, s.(provider := "", model := "", modelId := "", aiKey := ""), ev.e);
      var t := s.(aiKey := Trim(i.text));
      if ModelId(t, ev.e).Some? { RefusesHyperliquid(w.exchanges, t.(modelId := ModelId(t, ev.e).value), ev.e); }
    }
  }

  /**
   * Setup alone never makes an account at Hyperliquid: whatever is sent, the store refuses it, because the key it is
   * given is always blank, and the model is never asked for.
   */
  lemma {:induction false} HyperliquidNeverConnects(j: Journey, evs: seq<Event>)
    requires Sound(j.w) && NoHyperliquid(j.w) && forall k :: 0 <= k < |evs| ==> Sensible(evs[k])
    ensures NoHyperliquid(Travel(j, evs).w)
    decreases |evs|
  {
    hide Happen, Sound, NoHyperliquid, Sensible, Told, Trail;
    if evs != [] {
      HappenSound(j.w, evs[0]);
      HyperliquidStep(j.w, evs[0]);
      HyperliquidNeverConnects(Next(j, evs[0]), evs[1..]);
    }
  }

  function Say(text: string): Input { Input(false, text, None, Unknown, false) }

  /**
   * The messages that set up an account: the command, the venue, the key, the secret and, if needed, the passphrase.
   */
  function Script(v: Venue, key: string, secret: string, passphrase: string, e: Env): seq<Event> {
    [Message(Say("").(start := true), e), Message(Say("").(venue := Some(v)), e), Message(Say(key), e),
     Message(Say(secret), e)] +
    if NeedsPassphrase(v) then [Message(Say(passphrase), e)] else []
  }

  lemma TravelOne(j: Journey, evs: seq<Event>)
    requires evs != []
    ensures Travel(j, evs) == Travel(Next(j, evs[0]), evs[1..])
  {}

  /** The state that saves the exchange after the script, the last message aside. */
  lemma ScriptedState(w: World, v: Venue, key: string, secret: string, passphrase: string, e: Env)
    requires Sound(w) && w.keys.step.Idle? && KeyLike(key) && KeyLike(secret)
    ensures var start := Happen(w, Message(Say("").(start := true), e));
            var chosen := Happen(start, Message(Say("").(venue := Some(v)), e));
            var keyed := Happen(chosen, Message(Say(key), e));
            && keyed == Saved(w, NO_SETUP.(step := AwaitSecret, exchange := v, apiKey := Trim(key)))
            && (NeedsPassphrase(v) ==>
                  Happen(keyed, Message(Say(secret), e)) ==
                  Saved(w, NO_SETUP.(step := AwaitPassphrase, exchange := v, apiKey := Trim(key),
                                     apiSecret := Trim(secret))))
            && (!NeedsPassphrase(v) ==>
                  Happen(keyed, Message(Say(secret), e)) ==
                  Connected(Saved(w, NO_SETUP.(step := AwaitSecret, exchange := v, apiKey := Trim(key))),
                            NO_SETUP.(step := AwaitSecret, exchange := v, apiKey := Trim(key),
                                      apiSecret := Trim(secret)), e))
  {
    hide Trim, KeyLike, UniqueRows, UniqueTraders, Connected;
  }

  /** Every other venue can be set up from nothing, and the account then holds exactly what was sent. */
  lemma OthersConnect(w: World, v: Venue, key: string, secret: string, passphrase: string, e: Env)
    requires Sound(w) && w.keys.step.Idle? && Find(w.exchanges, v).None? && !v.NoVenue? && !v.Hyperliquid?
    requires KeyLike(key) && KeyLike(secret) && KeyLike(passphrase) && !e.exchangesFail && !e.writeFails
    ensures var r := Travel(Journey(w, [], NOTHING_SENT), Script(v, key, secret, passphrase, e)).w;
            var at := Find(r.exchanges, v);
            && r.keys.step.AwaitModel? && r.keys.exchange == v && at.Some?
            && HoldsSent(r.exchanges[at.value], v, Sent(Trim(key), Trim(secret), Trim(passphrase), false, false))
  {
    hide Trim, KeyLike, Happen, UniqueRows, UniqueTraders, WithExchange, Find, Told, Trail, Lacks, Travel, Blank;
    SolidTrim(key); SolidTrim(secret); SolidTrim(passphrase);
    var s := NO_SETUP.(exchange := v, apiKey := Trim(key), apiSecret := Trim(secret),
                      step := if NeedsPassphrase(v) then AwaitPassphrase else AwaitSecret,
                      passphrase := if NeedsPassphrase(v) then Trim(passphrase) else "");
    var w0 := if NeedsPassphrase(v) then Saved(w, s.(passphrase := "")) else Saved(w, s.(apiSecret := ""));
    ScriptedState(w, v, key, secret, passphrase, e);
    Scripted(w, v, key, secret, passphrase, e);
    if NeedsPassphrase(v) { LastWord(w, s.(passphrase := ""), passphrase, e); }
    Suffices(v, s);
    OpensAccount(w.exchanges, s, e);
    SavedRow(w.exchanges, s, e);
  }

  lemma LastWord(w: World, s: Setup, passphrase: string, e: Env)
    requires s.step.AwaitPassphrase? && KeyLike(passphrase)
    ensures Happen(Saved(w, s), Message(Say(passphrase), e)) ==
            Connected(Saved(w, s), s.(passphrase := Trim(passphrase)), e)
  {
    hide Trim, KeyLike, Connected;
  }

  lemma Suffices(v: Venue, s: Setup)
    requires s.exchange == v && !v.NoVenue? && !v.Hyperliquid? && !Blank(s.apiKey) && !Blank(s.apiSecret)
    requires NeedsPassphrase(v) ==> !Blank(s.passphrase)
    ensures !Lacks(v, Handed(s))
  {}

  lemma OpensAccount(rows: seq<Row>, s: Setup, e: Env)
    requires Find(rows, s.exchange).None? && !Lacks(s.exchange, Handed(s)) && !e.exchangesFail && !e.writeFails
    ensures WithExchange(rows, s, e) == (rows + [Opened(s.exchange, Handed(s), e.newId)], Some(e.newId))
  {}

  /** The script, message by message. */
  lemma Scripted(w: World, v: Venue, key: string, secret: string, passphrase: string, e: Env)
    ensures var r := Travel(Journey(w, [], NOTHING_SENT), Script(v, key, secret, passphrase, e)).w;
            var start := Happen(w, Message(Say("").(start := true), e));
            var chosen := Happen(start, Message(Say("").(venue := Some(v)), e));
            var keyed := Happen(chosen, Message(Say(key), e));
            var told := Happen(keyed, Message(Say(secret), e));
            r == if NeedsPassphrase(v) then Happen(told, Message(Say(passphrase), e)) else told
  {
    hide Happen, Told, Trail, Travel;
    var evs := Script(v, key, secret, passphrase, e);
    var j0 := Journey(w, [], NOTHING_SENT);
    var j1 := Next(j0, evs[0]);
    var j2 := Next(j1, evs[1]);
    var j3 := Next(j2, evs[2]);
    var j4 := Next(j3, evs[3]);
    TravelOne(j0, evs);
    TravelOne(j1, evs[1..]);
    TravelOne(j2, evs[2..]);
    TravelOne(j3, evs[3..]);
    assert evs[1..][1..] == evs[2..] && evs[2..][1..] == evs[3..] && evs[3..][1..] == evs[4..];
    if NeedsPassphrase(v) {
      TravelOne(j4, evs[4..]);
      TravelNone(Next(j4, evs[4]));
      assert evs[4..][1..] == [];
    } else {
      TravelNone(j4);
      assert evs[4..] == [];
    }
  }

  lemma TravelNone(j: Journey)
    ensures Travel(j, []) == j
  {}

  // ---- what else a message does -------------------------------------------

  /** The venues that need a passphrase. */
  lemma PassphraseIff(v: Venue)
    ensures NeedsPassphrase(v) <==> v in {Okx, Bitget, Kucoin}
  {}

  ghost predicate Ascii(s: string) { forall i :: 0 <= i < |s| ==> s[i] < '\U{80}' }

  lemma {:induction false} AsciiSize(s: string)
    requires Ascii(s)
    ensures Size(s) == |s|
  {
    if s != "" { AsciiSize(s[1..]); }
  }

  /**
   * A text in plain letters can be a credential exactly when, trimmed, it has eight of them and no blank in between.
   */
  lemma KeyLikeIff(text: string)
    requires Ascii(Trim(text))
    ensures KeyLike(text) <==>
              |Trim(text)| >= 8 && (' ' !in Trim(text) || (|Trim(text)| > 3 && Trim(text)[..3] == "sk-"))
  {
    hide Trim;
    AsciiSize(Trim(text));
  }

  /** Han characters are never part of one. */
  lemma HanIsNoKey(text: string, i: nat)
    requires i < |Trim(text)| && '\U{4E00}' <= Trim(text)[i] <= '\U{9FFF}'
    ensures !KeyLike(text)
  {
    hide Trim;
  }

  /** Runes beyond the plain letters count as two, three or four. */
  lemma SizeCons(c: char, s: string)
    ensures Size([c] + s) == Size(s) + if c < '\U{80}' then 1 else if c < '\U{800}' then 2 else if c < '\U{10000}'
            then 3 else 4
  {
    assert ([c] + s)[1..] == s;
  }

  /** A cancellation, or a text that cannot be a credential where one is asked for, ends the conversation. */
  lemma EndsEarly(w: World, i: Input, e: Env)
    requires i.cancel || (WantsKey(Loaded(w).step) && !KeyLike(i.text))
    ensures Turn(w, i, e) == World(None, NO_KEYS, w.exchanges, w.traders)
  {
    hide KeyLike, Trim;
  }

  /** A message that cannot be read as an answer changes nothing. */
  lemma UnreadStays(w: World, i: Input, e: Env)
    requires !i.cancel
    requires (Loaded(w).step == AwaitExchange && i.venue.None?) || (Loaded(w).step == AwaitModel && i.ai.Unknown?)
             || (Loaded(w).step == Idle && !i.start)
    ensures Turn(w, i, e) == w
  {
    hide KeyLike, Trim;
  }

  /** What is handed to the store: the passphrase as it is, and key and secret in the places that the venue wants. */
  lemma HandsOver(s: Setup)
    ensures var c := Handed(s);
            && c.passphrase == s.passphrase
            && (if s.exchange == Hyperliquid then c.apiKey == "" && c.apiSecret == s.apiKey && c.wallet == s.apiSecret
                else c.apiKey == s.apiKey && c.apiSecret == s.apiSecret && c.wallet == "")
  {}

  /** An update keeps the account and every credential that it is not given; the wallet is always that of the update. */
  lemma UpdateKeeps(row: Row, c: Creds)
    ensures var r := Updated(row, c);
            && r.id == row.id && r.venue == row.venue && r.ours == row.ours && r.wallet == c.wallet
            && r.apiKey == (if c.apiKey != "" then c.apiKey else row.apiKey)
            && r.apiSecret == (if c.apiSecret != "" then c.apiSecret else row.apiSecret)
            && r.passphrase == (if c.passphrase != "" then c.passphrase else row.passphrase)
  {}

  /** A new account is ours, of that venue, and holds what was handed over. */
  lemma OpensAs(v: Venue, c: Creds, id: string)
    ensures var r := Opened(v, c, id);
            && r.id == id && r.venue == v && r.ours && Creds(r.apiKey, r.apiSecret, r.passphrase, r.wallet) == c
  {}

  /** What a new account must be given: a key, and the wallet at Hyperliquid, else the secret and maybe a passphrase. */
  lemma LacksIff(v: Venue, c: Creds)
    requires v != NoVenue
    ensures !Lacks(v, c) <==>
              && Trim(c.apiKey) != ""
              && (if v == Hyperliquid then Trim(c.wallet) != "" else Trim(c.apiSecret) != "")
              && (v in {Okx, Bitget, Kucoin} ==> Trim(c.passphrase) != "")
  {
    hide Trim;
  }

  /** After a restart the conversation goes on where it was, without any of the credentials. */
  lemma RestartForgets(w: World)
    requires Sound(w)
    ensures var s := Loaded(Happen(w, Restart));
            Persisted(s) == w.keys && s.apiKey == "" && s.apiSecret == "" && s.passphrase == "" && s.aiKey == ""
  {
    hide UniqueRows, UniqueTraders;
  }

  /** A venue or a model that is chosen is kept, and the next step asks for its key. */
  lemma ChoiceIsKept(w: World, i: Input, e: Env)
    requires Sound(w) && !i.cancel
    ensures w.keys.step.AwaitExchange? && i.venue.Some? ==>
              Turn(w, i, e) == w.(cache := Some(Loaded(w).(exchange := i.venue.value, step := AwaitKey)),
                                  keys := w.keys.(exchange := i.venue.value, step := AwaitKey))
    ensures w.keys.step.AwaitModel? && i.ai.Chosen? ==>
              var keys := w.keys.(provider := i.ai.provider, model := i.ai.model, baseUrl := i.ai.url,
                                  step := AwaitAiKey);
              Turn(w, i, e).keys == keys && Turn(w, i, e).exchanges == w.exchanges && Turn(w, i, e).traders == w.traders
  {
    hide KeyLike, Trim, UniqueRows, UniqueTraders;
    LoadedKeys(w);
  }

  /** The traders once a pair is wanted: it is added at the end, unless it is there already. */
  ghost function Wanted(traders: seq<Pair>, p: Pair): seq<Pair> { if p in traders then traders else traders + [p] }

  /**
   * The last message makes the trader: of the account that was saved, and of the model that was chosen, or of none
   * when it is skipped. It ends the conversation, touches no account, and does nothing at all when the model cannot
   * be saved.
   */
  lemma SetupMakesTrader(w: World, i: Input, e: Env)
    requires Sound(w) && !i.cancel && e.newId != ""
    requires (w.keys.step.AwaitAiKey? && KeyLike(i.text)) || (w.keys.step.AwaitModel? && i.ai.Skip?)
    ensures var (r, skip) := (Turn(w, i, e), w.keys.step.AwaitModel?);
            var model := if skip || w.keys.provider == "" then "" else e.prefix + "_" + w.keys.provider;
            if !skip && w.keys.provider != "" && e.aiFails then r == w
            else
              && r.keys == NO_KEYS && r.cache.None? && r.exchanges == w.exchanges
              && r.traders == if e.tradersFail || e.createFails then w.traders
                              else Wanted(w.traders, Pair(w.keys.exchangeId, model))
  {
    hide KeyLike, Trim, UniqueRows, UniqueTraders, WithExchange;
    LoadedKeys(w);
  }

  // ---- the source's form --------------------------------------------------

  class Onboarder {
    var cache: Option<Setup>
    var keys: Keys
    var exchanges: seq<Row>
    var traders: seq<Pair>

    ghost function View(): World
      reads this
    {
      World(cache, keys, exchanges, traders)
    }

    constructor ()
      ensures View() == World(None, NO_KEYS, [], [])
    {
      cache, keys, exchanges, traders := None, NO_KEYS, [], [];
    }

    method GetState() returns (s: Setup)
      ensures s == Loaded(View())
    {
      if cache.Some? { return cache.value; }
      if keys.step.Idle? { return NO_SETUP; }
      return NO_SETUP.(step := keys.step, exchange := keys.exchange, exchangeId := keys.exchangeId,
                      provider := keys.provider, model := keys.model, modelId := keys.modelId, baseUrl := keys.baseUrl);
    }

    method SaveState(s: Setup)
      modifies this
      ensures View() == Saved(old(View()), s)
    {
      cache := Some(s);
      keys := Persisted(s);
    }

    method ClearState()
      modifies this
      ensures View() == Cleared(old(View()))
    {
      cache := None;
      keys := NO_KEYS;
    }

    method SaveExchange(s: Setup, e: Env) returns (id: Option<string>)
      modifies this
      ensures var r := WithExchange(old(exchanges), s, e);
              View() == old(View()).(exchanges := r.0) && id == r.1
    {
      hide Trim, Lacks, Updated, Opened, Handed;
      if e.exchangesFail { return None; }
      for i := 0 to |exchanges|
        invariant View() == old(View())
        invariant forall k :: 0 <= k < i ==> !(exchanges[k].venue == s.exchange && exchanges[k].ours)
      {
        if exchanges[i].venue == s.exchange && exchanges[i].ours {
          FindFirst(exchanges, i, s.exchange);
          if e.writeFails { return None; }
          id := Some(exchanges[i].id);
          exchanges := exchanges[i := Updated(exchanges[i], Handed(s))];
          return;
        }
      }
      if Lacks(s.exchange, Handed(s)) || e.writeFails { return None; }
      exchanges := exchanges + [Opened(s.exchange, Handed(s), e.newId)];
      return Some(e.newId);
    }

    method CreateTrader(s: Setup, e: Env)
      modifies this
      ensures View() == WithTrader(old(View()), s, e)
    {
      hide WithExchange, ModelId;
      var id := Some(s.exchangeId);
      if s.exchangeId == "" { id := SaveExchange(s, e); }
      if id.None? { return; }
      var model := s.modelId;
      if s.model != "" && s.aiKey != "" && model == "" { model := ModelId(s, e).GetOr(""); }
      if e.tradersFail { return; }
      if Pair(id.value, model) in traders { return; }
      if e.createFails { return; }
      traders := traders + [Pair(id.value, model)];
    }

    method Finish(s: Setup, e: Env)
      modifies this
      ensures View() == Finished(old(View()), s, e)
    {
      hide WithTrader;
      ClearState();
      CreateTrader(s, e);
    }

    method Connect(s: Setup, e: Env)
      modifies this
      ensures View() == Connected(old(View()), s, e)
    {
      hide WithExchange;
      var id := SaveExchange(s, e);
      WithExchangeFails(old(exchanges), s, e);
      if id.None? { return; }
      SaveState(s.(exchangeId := id.value, step := AwaitModel));
    }

    /** `handleSetupFlowForStoreUser`. */
    method HandleMessage(i: Input, e: Env)
      modifies this
      ensures View() == Turn(old(View()), i, e)
    {
      hide Trim, KeyLike, Connected, Finished, Saved, Cleared, Loaded, ModelId;
      var s := GetState();
      if i.cancel || (WantsKey(s.step) && !KeyLike(i.text)) {
        ClearState();
        return;
      }
      match s.step {
        case AwaitExchange =>
          if i.venue.Some? { SaveState(s.(exchange := i.venue.value, step := AwaitKey)); }
        case AwaitKey => SaveState(s.(apiKey := Trim(i.text), step := AwaitSecret));
        case AwaitSecret =>
          s := s.(apiSecret := Trim(i.text));
          if NeedsPassphrase(s.exchange) { SaveState(s.(step := AwaitPassphrase)); } else { Connect(s, e); }
        case AwaitPassphrase => Connect(s.(passphrase := Trim(i.text)), e);
        case AwaitModel =>
          match i.ai {
            case Unknown =>
            case Skip => Finish(s.(provider := "", model := "", modelId := "", aiKey := ""), e);
            case Chosen(p, m, u) => SaveState(s.(provider := p, model := m, baseUrl := u, step := AwaitAiKey));
          }
        case AwaitAiKey =>
          s := s.(aiKey := Trim(i.text));
          var id := ModelId(s, e);
          if id.Some? { Finish(s.(modelId := id.value), e); }
        case Idle =>
          if i.start { SaveState(s.(step := AwaitExchange)); }
      }
    }
  }

  lemma {:induction false} FindFirst(rows: seq<Row>, i: nat, v: Venue)
    requires i < |rows| && rows[i].venue == v && rows[i].ours
    requires forall k :: 0 <= k < i ==> !(rows[k].venue == v && rows[k].ours)
    ensures Find(rows, v) == Some(i)
  {}

  lemma WithExchangeFails(rows: seq<Row>, s: Setup, e: Env)
    ensures WithExchange(rows, s, e).1.None? ==> WithExchange(rows, s, e).0 == rows
  {}
}
