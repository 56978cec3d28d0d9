/** How the target of an action is found, said without the functions that find it. */
module Targets {
  import opened Text
  import opened Confirmations

  // ---- texts --------------------------------------------------------------

  /** `part` stands somewhere in `s`. */
  ghost predicate Occurs(s: string, part: string) {
    exists k :: IsAt(s, part, k)
  }

  ghost predicate IsAt(s: string, part: string, k: int) {
    0 <= k <= |s| - |part| && s[k..k + |part|] == part
  }

  lemma IsAtLater(s: string, part: string, k: int)
    requires s != "" && k >= 1
    ensures IsAt(s, part, k) <==> IsAt(s[1..], part, k - 1)
  {
    if k + |part| <= |s| { SliceLater(s, k, k + |part|); }
  }

  lemma SliceLater<T>(s: seq<T>, i: nat, j: nat)
    requires 1 <= i <= j <= |s|
    ensures s[1..][i - 1..j - 1] == s[i..j]
  {}

  lemma IsAtStart(s: string, part: string)
    ensures IsAt(s, part, 0) <==> |part| <= |s| && s[..|part|] == part
  {
    if |part| <= |s| { assert s[0..|part|] == s[..|part|]; }
  }

  lemma {:induction false} ContainsIff(s: string, part: string)
    ensures Contains(s, part) <==> Occurs(s, part)
  {
    hide IsAt;
    IsAtStart(s, part);
    if s != "" {
      ContainsIff(s[1..], part);
      if k :| IsAt(s[1..], part, k) { NotBefore(s[1..], part, k); IsAtLater(s, part, k + 1); }
      if k :| IsAt(s, part, k) {
        NotBefore(s, part, k);
        if k >= 1 { IsAtLater(s, part, k); }
      }
    } else if k :| IsAt(s, part, k) {
      NotBefore(s, part, k);
    }
  }

  lemma NotBefore(s: string, part: string, k: int)
    requires IsAt(s, part, k)
    ensures 0 <= k <= |s| && |part| <= |s|
  {}

  /** One letter up to case, for the letters A to Z. */
  ghost predicate SameLetter(a: char, b: char) {
    || a == b
    || ('A' <= a <= 'Z' && b as int == a as int + 32) || ('A' <= b <= 'Z' && a as int == b as int + 32)
  }

  ghost predicate SameText(a: string, b: string) {
    |a| == |b| && forall i :: 0 <= i < |a| ==> SameLetter(a[i], b[i])
  }

  lemma SameLetterIff(a: char, b: char)
    ensures LowerChar(a) == LowerChar(b) <==> SameLetter(a, b)
  {}

  lemma EqualFoldIff(a: string, b: string)
    ensures EqualFold(a, b) <==> SameText(a, b)
  {
    hide LowerChar, SameLetter;
    forall i | 0 <= i < |a| && i < |b| ensures Lower(a)[i] == Lower(b)[i] <==> SameLetter(a[i], b[i]) {
      SameLetterIff(a[i], b[i]);
    }
    if EqualFold(a, b) { assert forall i :: 0 <= i < |a| ==> Lower(a)[i] == Lower(b)[i]; }
    if SameText(a, b) { assert Lower(a) == Lower(b); }
  }

  // ---- the first option that answers --------------------------------------

  /** The option has that identifier, or its name or hint reads so, up to case. */
  ghost predicate AnswersTo(c: Choice, text: string) {
    c.id == text || SameText(c.name, text) || SameText(c.hint, text)
  }

  ghost predicate FirstToAnswer(choices: seq<Choice>, text: string, i: int) {
    0 <= i < |choices| && AnswersTo(choices[i], text) && forall j :: 0 <= j < i ==> !AnswersTo(choices[j], text)
  }

  lemma MatchesIff(c: Choice, text: string)
    ensures Matches(c, text) <==> AnswersTo(c, text)
  {
    hide EqualFold, SameText;
    EqualFoldIff(c.name, text);
    EqualFoldIff(c.hint, text);
  }

  /** A text that is not blank finds the first option that answers to it, trimmed, and nothing if there is none. */
  lemma FindsTheFirst(choices: seq<Choice>, query: string)
    ensures Find(choices, query).Some? <==>
              Trim(query) != "" && exists i :: FirstToAnswer(choices, Trim(query), i)
    ensures forall i :: FirstToAnswer(choices, Trim(query), i) && Trim(query) != "" ==>
                          Find(choices, query) == Some(choices[i])
  {
    hide Matches, AnswersTo, Trim;
    var text := Trim(query);
    forall i | 0 <= i < |choices| ensures MatchesQuery(text)(choices[i]) <==> AnswersTo(choices[i], text) {
      MatchesIff(choices[i], text);
    }
    var k := First(choices, MatchesQuery(text));
    if k.Some? {
      assert FirstToAnswer(choices, text, k.value);
      forall i | FirstToAnswer(choices, text, i) ensures i == k.value {}
    }
  }

  // ---- the only option that overlaps --------------------------------------

  /** One of the texts stands in the other, up to case, once trimmed; a blank one overlaps with nothing. */
  ghost predicate OverlapsWith(text: string, query: string) {
    Trim(text) != "" && (Occurs(Lower(Trim(text)), query) || Occurs(query, Lower(Trim(text))))
  }

  ghost predicate IsNear(c: Choice, query: string) {
    OverlapsWith(c.name, query) || OverlapsWith(c.hint, query) || OverlapsWith(c.id, query)
  }

  lemma OverlapsIff(text: string, query: string)
    ensures Overlaps(text, query) <==> OverlapsWith(text, query)
  {
    hide Trim, Contains, Occurs;
    ContainsIff(Lower(Trim(text)), query);
    ContainsIff(query, Lower(Trim(text)));
    assert |Lower(Trim(text))| == |Trim(text)|;
  }

  lemma NearIff(c: Choice, query: string)
    ensures Near(c, query) <==> IsNear(c, query)
  {
    hide Overlaps, OverlapsWith;
    OverlapsIff(c.name, query); OverlapsIff(c.hint, query); OverlapsIff(c.id, query);
  }

  ghost predicate OnlyOneNear(choices: seq<Choice>, query: string, i: int) {
    && 0 <= i < |choices| && IsNear(choices[i], query)
    && forall j :: 0 <= j < |choices| && j != i ==> !IsNear(choices[j], query)
  }

  /** An option is found by overlap exactly when it is the only one that overlaps with a text that is not blank. */
  lemma FindsTheOnlyNear(choices: seq<Choice>, query: string)
    ensures FindUnique(choices, query).Some? <==>
              Trim(query) != "" && exists i :: OnlyOneNear(choices, Lower(Trim(query)), i)
    ensures forall i :: OnlyOneNear(choices, Lower(Trim(query)), i) && Trim(query) != "" ==>
                          FindUnique(choices, query) == Some(choices[i])
  {
    hide Near, IsNear, Trim, Lower, NearOnes, NearIndex, FindUnique;
    var q := Lower(Trim(query));
    assert q == "" <==> Trim(query) == "" by { LowerBlank(Trim(query)); }
    forall i | 0 <= i < |choices| ensures Near(choices[i], q) <==> IsNear(choices[i], q) { NearIff(choices[i], q); }
    if q == "" {
      BlankFindsNothing(choices, query);
    } else {
      forall i | OnlyOneNear(choices, q, i) ensures FindUnique(choices, query) == Some(choices[i]) {
        UniqueIsOnly(choices, query, i);
      }
      if FindUnique(choices, query).Some? {
        var k := NearIndex(choices, q);
        NonEmpty(choices, query);
        UniqueIsOnly(choices, query, 0);
        assert OnlyOneNear(choices, q, k);
      }
    }
  }

  lemma LowerBlank(s: string)
    ensures Lower(s) == "" <==> s == ""
  {}

  lemma BlankFindsNothing(choices: seq<Choice>, query: string)
    ensures Lower(Trim(query)) == "" ==> FindUnique(choices, query).None?
  {
    hide Trim, Lower;
  }

  lemma NonEmpty(choices: seq<Choice>, query: string)
    ensures FindUnique(choices, query).Some? ==> choices != []
  {
    hide Trim, Lower;
  }

  /** The first option that answers goes before the only one that overlaps. */
  lemma FindsEither(choices: seq<Choice>, query: string)
    ensures Find(choices, query).Some? ==> FindEither(choices, query) == Find(choices, query)
    ensures Find(choices, query).None? ==> FindEither(choices, query) == FindUnique(choices, query)
  {
    hide Find, FindUnique;
  }

  // ---- the target of a turn -----------------------------------------------

  ghost predicate FirstWithId(choices: seq<Choice>, id: string, i: int) {
    0 <= i < |choices| && choices[i].id == id && forall j :: 0 <= j < i ==> choices[j].id != id
  }

  /** What a remembered target names: its identifier first, then its name; and failing both, what the text names. */
  ghost predicate ResolvesTo(text: string, choices: seq<Choice>, existing: Option<Target>, r: Option<Target>) {
    if existing.Some? && Trim(existing.value.id) != "" && HasId(choices, existing.value.id) then
      exists i ::
        FirstWithId(choices, existing.value.id, i)
        && r == Some(Target(choices[i].id, OrElse(choices[i].name, existing.value.name)))
    else
      var byName := if existing.Some? && Trim(existing.value.name) != "" then FindEither(choices, existing.value.name)
                    else None;
      var found := if byName.Some? then byName else FindEither(choices, text);
      r == if found.None? then None else Some(Target(found.value.id, found.value.name))
  }

  lemma ResolvedIs(text: string, choices: seq<Choice>, existing: Option<Target>)
    ensures ResolvesTo(text, choices, existing, Resolved(text, choices, existing))
  {
    hide Trim, FindEither, OrElse;
    if existing.Some? && Trim(existing.value.id) != "" {
      var id := existing.value.id;
      var k := First(choices, WithId(id));
      if i :| 0 <= i < |choices| && choices[i].id == id { assert WithId(id)(choices[i]); }
      if k.Some? {
        assert WithId(id)(choices[k.value]);
        forall j | 0 <= j < k.value ensures choices[j].id != id { assert !WithId(id)(choices[j]); }
        assert FirstWithId(choices, id, k.value);
      }
    }
  }

  /** What a target is now: the option its identifier finds, else the one its name finds; named as it is named now. */
  lemma AliveIs(target: Target, choices: seq<Choice>)
    ensures var byId := Find(choices, target.id);
            var byName := if Trim(target.name) == "" then None else FindEither(choices, target.name);
            Alive(target, choices) ==
            if byId.Some? then Some(Target(byId.value.id, OrElse(byId.value.name, target.name)))
            else if byName.Some? then Some(Target(byName.value.id, OrElse(byName.value.name, target.name)))
            else None
  {
    hide Trim, Find, FindEither, OrElse;
  }

  /** The target that a turn arrives at, in terms of what is remembered and what the text names. */
  lemma AimIs(p: Pending, turn: Turn)
    ensures var was := Widened(p, turn.reply).target;
            var found := Resolved(turn.reply.text, turn.choices, was);
            var target := if (p.step.Confirm? || p.step.Execute? || found.None?) then was else found;
            Aim(p, turn) == if target.None? then None else Alive(target.value, turn.choices)
  {
    hide Resolved, Alive, HasId, Bulky;
  }

  // ---- all targets --------------------------------------------------------

  /** Only traders and strategies are ever deleted all at once. */
  ghost predicate CanBeAll(p: Pending) {
    p.action == Delete && (p.domain == TraderDomain || p.domain == StrategyDomain)
  }

  /** Nothing but a deletion of traders or strategies is prompted for, or done, in bulk. */
  lemma BulkOnlyDeletes(p: Pending, turn: Turn)
    ensures var o := Handled(p, turn, true); o.said.PromptBulk? || o.said.RanBulk? ==> CanBeAll(p)
    ensures Bulky(p) <==> CanBeAll(p) && p.bulk
  {
    hide Resolved, Alive, HasId, Trim;
  }

  /** And for those a reply that means all targets prompts at once, or acts once that is confirmed. */
  lemma AllMeansAll(p: Pending, turn: Turn)
    requires CanBeAll(p) && turn.reply.all && turn.listing.Listed? && turn.listing.deletable != []
    requires p.step.Confirm? || p.step.Execute? || Resolved(turn.reply.text, turn.choices, None).None?
    ensures var o := Handled(p, turn, true);
            if !p.phase.AwaitConfirmation? then o.said.PromptBulk?
            else if turn.reply.yes then o == Outcome(RanBulk(turn.listing.deletable), Clear)
            else o.said.StillWaiting?
    ensures Handled(p, turn, true).storing.Save? ==>
              var q := Handled(p, turn, true).storing.session;
              q.phase.AwaitConfirmation? && q.bulk && q.target.None? && q.domain == p.domain && q.action == p.action
  {
    hide Resolved, Alive, HasId, Trim;
  }

  /** A session is stored with its target trimmed, or without one when that is blank, and otherwise as it is. */
  lemma StoredIs(p: Pending)
    ensures Stored(p) == p.(target := Stored(p).target)
    ensures Stored(p).target.Some? <==>
              p.target.Some? && (Trim(p.target.value.id) != "" || Trim(p.target.value.name) != "")
    ensures Stored(p).target.Some? ==>
              Stored(p).target == Some(Target(Trim(p.target.value.id), Trim(p.target.value.name)))
  {
    hide Trim;
  }
}
