/** News that is announced once and signals that are debounced. */
module Brains {
  import opened Text

  // ---- news ---------------------------------------------------------------

  const SEEN_MAX: nat := 1000
  const ALWAYS_KEPT: nat := 501

  datatype Url = Url(text: string)

  /** One article: whether it is recent, and whether its words carry a sentiment. */
  datatype Item = Item(url: Url, recent: bool, toned: bool)

  /** The addresses remembered, oldest first; every address ever taken in, with repeats; and those announced. */
  datatype News = News(order: seq<Url>, log: seq<Url>, announced: seq<nat>)

  /** Announcements are recorded as positions in the log. */
  function TakeIn(n: News, item: Item): News {
    if item.url in n.order then n
    else News(n.order + [item.url], n.log + [item.url],
              if item.recent && item.toned then n.announced + [|n.log|] else n.announced)
  }

  function TakeAll(n: News, items: seq<Item>): News
    decreases |items|
  {
    if items == [] then n else TakeIn(TakeAll(n, items[..|items| - 1]), items[|items| - 1])
  }

  function Evicted(order: seq<Url>): seq<Url> {
    if |order| > SEEN_MAX then order[|order| / 2..] else order
  }

  /** `scanNews`. */
  function Scanned(n: News, items: seq<Item>): News {
    var m := TakeAll(n, items);
    m.(order := Evicted(m.order))
  }

  ghost predicate Distinct<T>(s: seq<T>) {
    forall i, j :: 0 <= i < j < |s| ==> s[i] != s[j]
  }

  /** Two entries for one address have at least 501 others between them. */
  ghost predicate Spaced(log: seq<Url>) {
    forall i, j :: 0 <= i < j < |log| && log[i] == log[j] ==> j - i > ALWAYS_KEPT
  }

  /** What is remembered is a recent part of the log, without repeats, and never misses one of the last 501. */
  ghost predicate Remembers(n: News) {
    && |n.order| <= |n.log| && n.order == Last(n.log, |n.order|) && Distinct(n.order)
    && (|n.order| >= ALWAYS_KEPT || n.order == n.log) && Spaced(n.log)
  }

  /** Announcements are made at different positions of the log, in order. */
  ghost predicate InOrder(n: News) {
    && (forall i :: 0 <= i < |n.announced| ==> n.announced[i] < |n.log|)
    && (forall i, j :: 0 <= i < j < |n.announced| ==> n.announced[i] < n.announced[j])
  }

  lemma LastPlusOne<T>(log: seq<T>, n: nat, x: T)
    requires n <= |log|
    ensures Last(log, n) + [x] == Last(log + [x], n + 1)
  {}

  lemma DistinctSnoc<T>(s: seq<T>, x: T)
    requires Distinct(s) && x !in s
    ensures Distinct(s + [x])
  {}

  lemma InLast<T>(log: seq<T>, n: nat, i: nat)
    requires n <= |log| && i < |log|
    ensures i >= |log| - n ==> log[i] in Last(log, n)
  {
    if i >= |log| - n { assert Last(log, n)[i - (|log| - n)] == log[i]; }
  }

  lemma SpacedSnoc(n: News, u: Url)
    requires Remembers(n) && u !in n.order
    ensures Spaced(n.log + [u])
  {
    var log, all := n.log, n.log + [u];
    forall i, j | 0 <= i < j < |all| && all[i] == all[j] ensures j - i > ALWAYS_KEPT {
      InLast(log, |n.order|, i);
      if j < |log| { assert log[i] == log[j]; }
    }
  }

  lemma TakeInRemembers(n: News, item: Item)
    requires Remembers(n) && InOrder(n)
    ensures Remembers(TakeIn(n, item)) && InOrder(TakeIn(n, item))
  {
    hide Spaced, Distinct;
    if item.url !in n.order {
      LastPlusOne(n.log, |n.order|, item.url);
      DistinctSnoc(n.order, item.url);
      SpacedSnoc(n, item.url);
    }
  }

  lemma {:induction false} TakeAllRemembers(n: News, items: seq<Item>)
    requires Remembers(n) && InOrder(n)
    ensures Remembers(TakeAll(n, items)) && InOrder(TakeAll(n, items))
    decreases |items|
  {
    hide Remembers, InOrder, TakeIn;
    if items != [] {
      TakeAllRemembers(n, items[..|items| - 1]);
      TakeInRemembers(TakeAll(n, items[..|items| - 1]), items[|items| - 1]);
    }
  }

  lemma EvictedRemembers(n: News)
    requires Remembers(n)
    ensures Remembers(n.(order := Evicted(n.order)))
  {
    hide Spaced;
    var e := Evicted(n.order);
    if |n.order| > SEEN_MAX {
      assert e == Last(n.log, |e|);
      assert forall i :: 0 <= i < |e| ==> e[i] == n.order[i + |n.order| / 2];
    }
  }

  function ScanAll(n: News, scans: seq<seq<Item>>): News
    decreases |scans|
  {
    if scans == [] then n else ScanAll(Scanned(n, scans[0]), scans[1..])
  }

  /**
   * Over any scans the last 501 addresses taken in are always remembered, and two entries for one address, hence two
   * announcements, have at least 501 others between them.
   */
  lemma {:induction false} ScansRemember(n: News, scans: seq<seq<Item>>)
    requires Remembers(n) && InOrder(n)
    ensures var r := ScanAll(n, scans); Remembers(r) && InOrder(r)
    decreases |scans|
  {
    hide Remembers, InOrder, TakeAll, Evicted;
    if scans != [] {
      TakeAllRemembers(n, scans[0]);
      EvictedRemembers(TakeAll(n, scans[0]));
      OrderOnly(TakeAll(n, scans[0]), Evicted(TakeAll(n, scans[0]).order));
      ScansRemember(Scanned(n, scans[0]), scans[1..]);
    }
  }

  lemma OrderOnly(n: News, order: seq<Url>)
    requires InOrder(n)
    ensures InOrder(n.(order := order))
  {}

  lemma AnnouncementsAreSpaced(n: News, a: nat, b: nat)
    requires Remembers(n) && InOrder(n) && a < b < |n.announced|
    requires n.log[n.announced[a]] == n.log[n.announced[b]]
    ensures n.announced[b] - n.announced[a] > ALWAYS_KEPT
  {}

  /** An address that is neither remembered nor met earlier in the scan. */
  ghost predicate IsNew(n: News, items: seq<Item>, i: nat)
    requires i < |items|
  {
    items[i].url !in n.order && forall j :: 0 <= j < i ==> items[j].url != items[i].url
  }

  lemma {:induction false} TakenIn(n: News, items: seq<Item>, u: Url)
    ensures u in TakeAll(n, items).order <==> u in n.order || exists j :: 0 <= j < |items| && items[j].url == u
    decreases |items|
  {
    if items != [] {
      var front := items[..|items| - 1];
      TakenIn(n, front, u);
      assert forall j :: 0 <= j < |front| ==> front[j] == items[j];
    }
  }

  /**
   * What a scan does with its article `i`: a new address is taken in, at the end of what is remembered and of the log,
   * and announced exactly when the article is recent and carries a sentiment; a known one changes nothing.
   */
  lemma ScanTells(n: News, items: seq<Item>, i: nat)
    requires i < |items|
    ensures var (before, after, item) := (TakeAll(n, items[..i]), TakeAll(n, items[..i + 1]), items[i]);
            if IsNew(n, items, i) then
              && after.order == before.order + [item.url] && after.log == before.log + [item.url]
              && after.announced == before.announced + if item.recent && item.toned then [|before.log|] else []
            else after == before
  {
    TakenIn(n, items[..i], items[i].url);
    assert items[..i + 1][..i] == items[..i] && items[..i + 1][i] == items[i];
    assert forall j :: 0 <= j < i ==> items[..i][j] == items[j];
  }

  /** After a scan no more is forgotten than the older half, and only when more than a thousand addresses are held. */
  lemma ScanForgets(n: News, items: seq<Item>)
    ensures var (all, kept) := (TakeAll(n, items).order, Scanned(n, items).order);
            && kept == Last(all, |kept|) && |kept| == (if |all| <= 1000 then |all| else |all| - |all| / 2)
            && Scanned(n, items).log == TakeAll(n, items).log &&
               Scanned(n, items).announced == TakeAll(n, items).announced
  {}

  /** The state of the scan: a set for the look-up and a list for the order, changed in place. */
  class Scanner {
    var seen: set<Url>
    var order: seq<Url>
    ghost var log: seq<Url>
    ghost var announced: seq<nat>

    ghost predicate Valid()
      reads this
    {
      Distinct(order) && forall u :: u in seen <==> u in order
    }

    ghost function View(): News
      reads this
    {
      News(order, log, announced)
    }

    constructor ()
      ensures Valid() && View() == News([], [], [])
    {
      seen, order, log, announced := {}, [], [], [];
    }

    method Take(item: Item)
      requires Valid()
      modifies this
      ensures Valid() && View() == TakeIn(old(View()), item)
    {
      if item.url in seen { return; }
      DistinctSnoc(order, item.url);
      seen := seen + {item.url};
      order := order + [item.url];
      if item.recent && item.toned { announced := announced + [|log|]; }
      log := log + [item.url];
    }

    /** The oldest half is forgotten: each deleted from the set, then the list moved down. */
    method Evict()
      requires Valid()
      modifies this
      ensures Valid() && View() == old(View()).(order := Evicted(old(order)))
    {
      hide Distinct;
      SetSize(order, seen);
      if |seen| <= SEEN_MAX { return; }
      var half := |seen| / 2;
      for i := 0 to half
        invariant View() == old(View())
        invariant forall u :: u in seen <==> u in order[i..]
      {
        DropOne(order, i);
        seen := seen - {order[i]};
      }
      DistinctTail(order, half);
      order := order[half..];
    }

    method ScanNews(items: seq<Item>)
      requires Valid()
      modifies this
      ensures Valid() && View() == Scanned(old(View()), items)
    {
      hide TakeIn, Distinct;
      for i := 0 to |items|
        invariant Valid() && View() == TakeAll(old(View()), items[..i])
      {
        assert items[..i + 1][..i] == items[..i];
        Take(items[i]);
      }
      assert items[..|items|] == items;
      Evict();
    }
  }

  lemma DropOne<T>(s: seq<T>, i: nat)
    requires Distinct(s) && i < |s|
    ensures forall u :: u in s[i + 1..] <==> u in s[i..] && u != s[i]
  {
    assert s[i..] == [s[i]] + s[i + 1..];
  }

  lemma DistinctTail<T>(s: seq<T>, i: nat)
    requires Distinct(s) && i <= |s|
    ensures Distinct(s[i..])
  {}

  lemma {:induction false} SetSize(s: seq<Url>, elements: set<Url>)
    requires Distinct(s) && forall u :: u in elements <==> u in s
    ensures |elements| == |s|
  {
    if s == [] {
      assert elements == {};
    } else {
      var last := s[|s| - 1];
      var front := s[..|s| - 1];
      forall u ensures u in elements - {last} <==> u in front {
        if u in front { var k :| 0 <= k < |front| && front[k] == u; assert s[k] != last; }
      }
      SetSize(front, elements - {last});
    }
  }

  // ---- signals ------------------------------------------------------------

  const DEBOUNCE: int := 600
  const STALE: int := 1800

  datatype Kind = Kind(signal: string, symbol: string)

  datatype Event = Signal(kind: Kind, now: int) | Sweep(now: int)

  datatype Note = Note(kind: Kind, at: int)

  /** `HandleSignal` and `cleanStaleSignals` on the table of the last notifications; the flag says: notified. */
  function React(table: map<Kind, int>, e: Event): (map<Kind, int>, bool) {
    match e
    case Signal(k, now) =>
      if k in table && now - table[k] < DEBOUNCE then (table, false) else (table[k := now], true)
    case Sweep(now) => (map k | k in table && table[k] >= now - STALE :: table[k], false)
  }

  /** When `k` was last notified, according to the full record. */
  function LastNote(notes: seq<Note>, k: Kind): Option<int> {
    if notes == [] then None
    else if notes[|notes| - 1].kind == k then Some(notes[|notes| - 1].at)
    else LastNote(notes[..|notes| - 1], k)
  }

  /** The reference: notify unless the last notification of that kind is less than ten minutes old. */
  predicate Due(notes: seq<Note>, k: Kind, now: int) {
    LastNote(notes, k).None? || now - LastNote(notes, k).value >= DEBOUNCE
  }

  /** The table holds the last notification of each kind, and misses only those that are long past. */
  ghost predicate Tracks(table: map<Kind, int>, notes: seq<Note>, now: int) {
    && (forall k :: k in table ==> LastNote(notes, k) == Some(table[k]) && table[k] <= now)
    && (forall k :: k !in table && LastNote(notes, k).Some? ==> LastNote(notes, k).value < now - STALE)
  }

  function Recorded(notes: seq<Note>, e: Event, notified: bool): seq<Note> {
    if notified && e.Signal? then notes + [Note(e.kind, e.now)] else notes
  }

  lemma LastNoteSnoc(notes: seq<Note>, n: Note, k: Kind)
    ensures LastNote(notes + [n], k) == if n.kind == k then Some(n.at) else LastNote(notes, k)
  {
    assert (notes + [n])[..|notes|] == notes;
  }

  /** Each event is handled as the full record demands: forgetting old entries never shows. */
  lemma ReactIsDue(table: map<Kind, int>, notes: seq<Note>, before: int, e: Event)
    requires Tracks(table, notes, before) && before <= e.now
    ensures var (t, notified) := React(table, e);
            && Tracks(t, Recorded(notes, e, notified), e.now)
            && (e.Signal? ==> (notified <==> Due(notes, e.kind, e.now)))
  {
    hide LastNote;
    if e.Signal? {
      forall k ensures LastNote(notes + [Note(e.kind, e.now)], k) == if e.kind == k then Some(e.now)
          else LastNote(notes, k) {
        LastNoteSnoc(notes, Note(e.kind, e.now), k);
      }
    }
  }

  /** A signal notifies exactly when its kind was not notified in the last ten minutes, and then its time is noted. */
  lemma SignalNotifiesIff(table: map<Kind, int>, k: Kind, now: int)
    ensures var (t, notified) := React(table, Signal(k, now));
            && (notified <==> !(k in table && now - table[k] < 10 * 60))
            && t == if notified then table[k := now] else table
  {}

  /** A sweep forgets exactly the kinds whose last notification is more than half an hour old, and notifies nobody. */
  lemma SweepForgetsIff(table: map<Kind, int>, k: Kind, now: int)
    ensures var (t, notified) := React(table, Sweep(now));
            && !notified && (k in t <==> k in table && now - table[k] <= 30 * 60) && (k in t ==> t[k] == table[k])
  {}

  datatype Desk = Desk(table: map<Kind, int>, notes: seq<Note>)

  function ReactAll(d: Desk, es: seq<Event>): Desk
    decreases |es|
  {
    if es == [] then d
    else
      var (t, notified) := React(d.table, es[0]);
      ReactAll(Desk(t, Recorded(d.notes, es[0], notified)), es[1..])
  }

  ghost predicate Monotone(es: seq<Event>, now: int) {
    (forall i :: 0 <= i < |es| ==> now <= es[i].now) && (forall i, j :: 0 <= i < j < |es| ==> es[i].now <= es[j].now)
  }

  function Latest(es: seq<Event>, now: int): int {
    if es == [] then now else es[|es| - 1].now
  }

  /** Two notes of one kind are at least ten minutes apart. */
  ghost predicate WellApart(notes: seq<Note>, now: int) {
    && (forall i :: 0 <= i < |notes| ==> notes[i].at <= now)
    && (forall i, j :: 0 <= i < j < |notes| ==> notes[i].at <= notes[j].at)
    && (forall i, j :: 0 <= i < j < |notes| && notes[i].kind == notes[j].kind ==> notes[j].at - notes[i].at >= DEBOUNCE)
  }

  lemma {:induction false} LastNoteIsLatest(notes: seq<Note>, i: nat, now: int)
    requires i < |notes| && WellApart(notes, now)
    ensures LastNote(notes, notes[i].kind).Some? && LastNote(notes, notes[i].kind).value >= notes[i].at
  {
    var n := |notes| - 1;
    if notes[n].kind != notes[i].kind {
      assert WellApart(notes[..n], now);
      LastNoteIsLatest(notes[..n], i, now);
    }
  }

  lemma DueKeepsApart(notes: seq<Note>, k: Kind, before: int, now: int)
    requires WellApart(notes, before) && before <= now && Due(notes, k, now)
    ensures WellApart(notes + [Note(k, now)], now)
  {
    hide LastNote;
    forall i | 0 <= i < |notes| && notes[i].kind == k ensures now - notes[i].at >= DEBOUNCE {
      LastNoteIsLatest(notes, i, before);
    }
  }

  /**
   * However signals and sweeps interleave under a clock that never goes back, two notifications of one kind are at
   * least ten minutes apart; and, by `ReactIsDue`, a signal is only swallowed when one was sent less than ten minutes
   * before.
   */
  lemma {:induction false} NotesWellApart(d: Desk, es: seq<Event>, now: int)
    requires Tracks(d.table, d.notes, now) && WellApart(d.notes, now) && Monotone(es, now)
    ensures var r, end := ReactAll(d, es), Latest(es, now); Tracks(r.table, r.notes, end) && WellApart(r.notes, end)
    decreases |es|
  {
    hide React, Tracks, WellApart, Due;
    if es != [] {
      var e := es[0];
      var (t, notified) := React(d.table, e);
      ReactIsDue(d.table, d.notes, now, e);
      SweepIsSilent(d.table, e);
      if notified { DueKeepsApart(d.notes, e.kind, now, e.now); } else { ApartLater(d.notes, now, e.now); }
      assert Monotone(es[1..], e.now) by {
        forall i | 0 <= i < |es[1..]| ensures e.now <= es[1..][i].now { assert es[0].now <= es[i + 1].now; }
      }
      NotesWellApart(Desk(t, Recorded(d.notes, e, notified)), es[1..], e.now);
    }
  }

  lemma SweepIsSilent(table: map<Kind, int>, e: Event)
    ensures React(table, e).1 ==> e.Signal?
  {}

  lemma ApartLater(notes: seq<Note>, t1: int, t2: int)
    requires WellApart(notes, t1) && t1 <= t2
    ensures WellApart(notes, t2)
  {}

  class Debouncer {
    var table: map<Kind, int>

    constructor ()
      ensures table == map[]
    {
      table := map[];
    }

    method HandleSignal(kind: Kind, now: int) returns (notified: bool)
      modifies this
      ensures (table, notified) == React(old(table), Signal(kind, now))
    {
      if kind in table {
        if now - table[kind] < DEBOUNCE { return false; }
      }
      table := table[kind := now];
      return true;
    }

    method CleanStaleSignals(now: int)
      modifies this
      ensures table == React(old(table), Sweep(now)).0
    {
      var cutoff := now - STALE;
      var todo := table.Keys;
      while todo != {}
        invariant todo <= old(table).Keys
        invariant forall k :: k in table <==> k in old(table) && (k in todo || old(table)[k] >= cutoff)
        invariant forall k :: k in table ==> table[k] == old(table)[k]
        decreases |todo|
      {
        var k := Pick(todo);
        if table[k] < cutoff { table := table - {k}; }
        todo := todo - {k};
      }
    }
  }
}
