/** How the name of a trader draft is cleaned up, and the names that come out as mere white space. */
module DraftNames {
  import opened Text
  import opened Sessions

  const PREFIXES: seq<string> := ["名称：", "名称:", "名字：", "名字:", "name:", "name："]

  const LABELS: seq<string> :=
    ["交易所：", "交易所:", "模型：", "模型:", "策略：", "策略:", "exchange:", "model:", "strategy:"]

  const STOPS: seq<string> := ["，", ",", "。", "；", ";", "\n"]

  /** Quotation marks, colons and blanks, which are stripped at both ends. */
  predicate IsMark(c: char) {
    c == '“' || c == '”' || c == '"' || c == '\'' || c == '：' || c == ':' || c == ' '
  }

  predicate StartsWith(s: string, prefix: string) {
    |prefix| <= |s| && s[..|prefix|] == prefix
  }

  /** Where `part` first occurs in `s`, if it does. */
  function IndexOf(s: string, part: string): (r: Option<nat>)
    ensures r.Some? ==> r.value <= |s| && StartsWith(s[r.value..], part)
    ensures part != "" && part[0] !in s ==> r.None?
  {
    if StartsWith(s, part) then Some(0)
    else if s == "" then None
    else
      match IndexOf(s[1..], part)
      case None => None
      case Some(i) => Some(i + 1)
  }

  /** Without the first of `prefixes` that it starts with. */
  function Unlabelled(s: string, prefixes: seq<string>): string {
    if prefixes == [] then s
    else if StartsWith(Lower(s), Lower(prefixes[0])) then Trim(s[|prefixes[0]|..])
    else Unlabelled(s, prefixes[1..])
  }

  /** Cut at each label in turn, whatever its case. */
  function CutAtLabels(s: string, labels: seq<string>): string
    decreases |labels|
  {
    if labels == [] then s
    else
      match IndexOf(Lower(s), Lower(labels[0]))
      case None => CutAtLabels(s, labels[1..])
      case Some(i) => CutAtLabels(Trim(s[..i]), labels[1..])
  }

  /** Cut at each stop in turn. */
  function CutAtStops(s: string, stops: seq<string>): string
    decreases |stops|
  {
    if stops == [] then s
    else
      match IndexOf(s, stops[0])
      case None => CutAtStops(s, stops[1..])
      case Some(i) => CutAtStops(Trim(s[..i]), stops[1..])
  }

  function StripLeft(s: string): string {
    if s != "" && IsMark(s[0]) then StripLeft(s[1..]) else s
  }

  function StripRight(s: string): string {
    if s != "" && IsMark(s[|s| - 1]) then StripRight(s[..|s| - 1]) else s
  }

  /** What is left of a name before the marks at its ends are stripped. */
  function Core(value: string): string {
    CutAtStops(CutAtLabels(Unlabelled(Trim(value), PREFIXES), LABELS), STOPS)
  }

  /** `normalizeTraderDraftName`. */
  function DraftName(value: string): string {
    if Trim(value) == "" then "" else StripRight(StripLeft(Core(value)))
  }

  // ---- where a name is cut -------------------------------------------------

  ghost predicate PartAt(s: string, part: string, i: int) {
    0 <= i <= |s| - |part| && s[i..i + |part|] == part
  }

  /** What is found is the first place where the part stands. */
  lemma {:induction false} IndexOfFirst(s: string, part: string)
    ensures var r := IndexOf(s, part);
            && (r.Some? ==> PartAt(s, part, r.value) && forall j :: 0 <= j < r.value ==> !PartAt(s, part, j))
            && (r.None? ==> forall j :: !PartAt(s, part, j))
  {
    if StartsWith(s, part) {
      assert s[0..|part|] == part;
    } else if s != "" {
      IndexOfFirst(s[1..], part);
      forall j | PartAt(s, part, j) ensures j > 0 && PartAt(s[1..], part, j - 1) {
        assert j > 0;
        assert s[1..][j - 1..j - 1 + |part|] == s[j..j + |part|];
      }
      if IndexOf(s[1..], part).Some? {
        var i := IndexOf(s[1..], part).value;
        assert s[1..][i..i + |part|] == s[i + 1..i + 1 + |part|];
      }
    }
  }

  /** Everything from place `i` on is cut off, and what is left is trimmed. */
  ghost predicate CutBefore(s: string, i: int, r: string) { 0 <= i <= |s| && r == Trim(s[..i]) }

  /** One label cuts at its first place, whatever its case; and several cut one after the other. */
  lemma LabelCuts(s: string, tag: string, more: seq<string>)
    ensures forall i :: PartAt(Lower(s), Lower(tag), i) && (forall j :: 0 <= j < i ==> !PartAt(Lower(s), Lower(tag), j))
                        ==> CutBefore(s, i, CutAtLabels(s, [tag]))
    ensures (forall i :: !PartAt(Lower(s), Lower(tag), i)) ==> CutAtLabels(s, [tag]) == s
    ensures CutAtLabels(s, [tag] + more) == CutAtLabels(CutAtLabels(s, [tag]), more) && CutAtLabels(s, []) == s
  {
    hide Trim, IndexOf, Lower, PartAt;
    IndexOfFirst(Lower(s), Lower(tag));
    assert [tag][1..] == [] && ([tag] + more)[1..] == more;
    var found := IndexOf(Lower(s), Lower(tag));
    if found.Some? {
      forall i | PartAt(Lower(s), Lower(tag), i) && (forall j :: 0 <= j < i ==> !PartAt(Lower(s), Lower(tag), j))
        ensures i == found.value
      {
        FirstPlace(Lower(s), Lower(tag), i, found.value);
      }
    }
  }

  lemma FirstPlace(s: string, part: string, i: int, k: nat)
    requires PartAt(s, part, i) && (forall j :: 0 <= j < i ==> !PartAt(s, part, j))
    requires PartAt(s, part, k) && (forall j :: 0 <= j < k ==> !PartAt(s, part, j))
    ensures i == k
  {}

  /** The same for the stops, as they are written. */
  lemma StopCuts(s: string, stop: string, more: seq<string>)
    ensures forall i :: PartAt(s, stop, i) && (forall j :: 0 <= j < i ==> !PartAt(s, stop, j)) ==>
                          CutBefore(s, i, CutAtStops(s, [stop]))
    ensures (forall i :: !PartAt(s, stop, i)) ==> CutAtStops(s, [stop]) == s
    ensures CutAtStops(s, [stop] + more) == CutAtStops(CutAtStops(s, [stop]), more) && CutAtStops(s, []) == s
  {
    hide Trim, IndexOf, PartAt;
    IndexOfFirst(s, stop);
    assert [stop][1..] == [] && ([stop] + more)[1..] == more;
    var found := IndexOf(s, stop);
    if found.Some? {
      forall i | PartAt(s, stop, i) && (forall j :: 0 <= j < i ==> !PartAt(s, stop, j)) ensures i == found.value {
        FirstPlace(s, stop, i, found.value);
      }
    }
  }

  /** The first prefix that the name starts with, whatever its case, is taken off. */
  lemma {:induction false} PrefixComesOff(s: string, prefixes: seq<string>, i: nat)
    requires i <= |prefixes|
    requires forall j :: 0 <= j < i ==> !PartAt(Lower(s), Lower(prefixes[j]), 0)
    requires i < |prefixes| ==> PartAt(Lower(s), Lower(prefixes[i]), 0)
    ensures Unlabelled(s, prefixes) == if i < |prefixes| then Trim(s[|prefixes[i]|..]) else s
  {
    hide Trim, Lower;
    if prefixes != [] {
      assert PartAt(Lower(s), Lower(prefixes[0]), 0) <==> StartsWith(Lower(s), Lower(prefixes[0])) by {
        if |prefixes[0]| <= |s| { assert Lower(s)[0..|prefixes[0]|] == Lower(s)[..|prefixes[0]|]; }
      }
      if i > 0 { PrefixComesOff(s, prefixes[1..], i - 1); }
    }
  }

  /** White space around a name never matters, and a blank one stays blank. */
  lemma DraftNameTrims(value: string)
    ensures DraftName(value) == DraftName(Trim(value)) && (Trim(value) == "" ==> DraftName(value) == "")
  {
    TrimAgain(value);
    hide Trim, CutAtLabels, CutAtStops, Unlabelled;
  }

  lemma TrimAgain(value: string)
    ensures Trim(Trim(value)) == Trim(value)
  {
    hide TrimLeft, TrimRight;
  }

  /** In order: the prefix comes off, the labels cut, the stops cut, and the marks at the ends are stripped. */
  lemma DraftNameInOrder(value: string) returns (a: nat, b: nat)
    requires Trim(value) != ""
    ensures var cut := CutAtStops(CutAtLabels(Unlabelled(Trim(value), PREFIXES), LABELS), STOPS);
            Between(cut, a, b) && DraftName(value) == cut[a..b]
  {
    hide Trim, CutAtLabels, CutAtStops, Unlabelled, StripLeft, StripRight, IsMark, Between;
    a, b := StrippedSlice(Core(value));
  }

  // ---- names that become white space --------------------------------------

  predicate AllSpace(s: string) { forall i :: 0 <= i < |s| ==> IsSpace(s[i]) }

  lemma {:induction false} TrimLeftBlank(s: string)
    ensures TrimLeft(s) == "" <==> AllSpace(s)
  {
    if s != "" && IsSpace(s[0]) {
      TrimLeftBlank(s[1..]);
      if AllSpace(s[1..]) {
        forall i | 0 <= i < |s| ensures IsSpace(s[i]) { assert i > 0 ==> s[i] == s[1..][i - 1]; }
      }
    }
  }

  lemma TrimBlankIff(s: string)
    ensures Trim(s) == "" <==> AllSpace(s)
  {
    TrimLeftBlank(s);
    var t := TrimLeft(s);
    if t != "" { TrimRightKeeps(t); }
  }

  lemma {:induction false} TrimRightKeeps(s: string)
    requires s != "" && !IsSpace(s[0])
    ensures TrimRight(s) != ""
  {
    if IsSpace(s[|s| - 1]) { TrimRightKeeps(s[..|s| - 1]); }
  }

  /** There is a rune that is no mark, every such rune is white space, and so is what stands between two of them. */
  ghost predicate Hollow(s: string) {
    && (exists i :: 0 <= i < |s| && !IsMark(s[i]))
    && (forall i :: 0 <= i < |s| && !IsMark(s[i]) ==> IsSpace(s[i]))
    && (forall i, k, j :: 0 <= i < k < j < |s| && !IsMark(s[i]) && !IsMark(s[j]) ==> IsSpace(s[k]))
  }

  /** Only marks are stripped, and only at the ends. */
  ghost predicate Between(s: string, a: nat, b: nat) {
    && a <= b <= |s|
    && (forall i :: 0 <= i < |s| && !IsMark(s[i]) ==> a <= i < b)
    && (a < b ==> !IsMark(s[a]) && !IsMark(s[b - 1]))
  }

  lemma {:induction false} LeftSlice(s: string) returns (a: nat)
    ensures a <= |s| && StripLeft(s) == s[a..]
    ensures forall i :: 0 <= i < a ==> IsMark(s[i])
    ensures a < |s| ==> !IsMark(s[a])
  {
    hide IsMark;
    if s != "" && IsMark(s[0]) {
      var t := s[1..];
      a := LeftSlice(t);
      a := a + 1;
      assert t[a - 1..] == s[a..];
      assert forall i :: 0 < i < |s| ==> t[i - 1] == s[i];
    } else {
      a := 0;
    }
  }

  lemma {:induction false} RightSlice(s: string) returns (b: nat)
    ensures b <= |s| && StripRight(s) == s[..b]
    ensures forall i :: b <= i < |s| ==> IsMark(s[i])
    ensures 0 < b ==> !IsMark(s[b - 1])
  {
    hide IsMark;
    if s != "" && IsMark(s[|s| - 1]) {
      b := RightSlice(s[..|s| - 1]);
      assert s[..|s| - 1][..b] == s[..b];
    } else {
      b := |s|;
    }
  }

  lemma StrippedSlice(s: string) returns (a: nat, b: nat)
    ensures Between(s, a, b) && StripRight(StripLeft(s)) == s[a..b]
  {
    hide IsMark, StripLeft, StripRight;
    a := LeftSlice(s);
    var left := s[a..];
    var n := RightSlice(left);
    b := a + n;
    assert left[..n] == s[a..b];
    assert forall i :: a <= i < |s| ==> left[i - a] == s[i];
  }

  lemma HollowIff(s: string, a: nat, b: nat)
    requires Between(s, a, b)
    ensures a < b && AllSpace(s[a..b]) <==> Hollow(s)
  {
    hide IsMark, IsSpace;
    var r := s[a..b];
    if a < b && AllSpace(r) {
      forall i | a <= i < b ensures IsSpace(s[i]) { assert r[i - a] == s[i]; }
    }
    if Hollow(s) {
      forall i | 0 <= i < |r| ensures IsSpace(r[i]) { assert r[i] == s[a + i]; }
    }
  }

  lemma StripBlankIff(s: string)
    ensures (StripRight(StripLeft(s)) != "" && Trim(StripRight(StripLeft(s))) == "") <==> Hollow(s)
  {
    hide StripLeft, StripRight, Trim, Hollow, AllSpace;
    var a, b := StrippedSlice(s);
    TrimBlankIff(s[a..b]);
    HollowIff(s, a, b);
  }

  /** A written draft name is smudged exactly when what the cuts leave of it is hollow. */
  lemma SmudgedIff(skill: Skill, k: Key, value: string)
    ensures Smudged(skill, k, value, DraftName) <==>
            skill.Trader? && k.Name? && Trim(value) != "" && Hollow(Core(Trim(value)))
  {
    hide Trim, Core, StripLeft, StripRight, Hollow;
    StripBlankIff(Core(Trim(value)));
  }

  lemma {:induction false} NothingToCut(s: string, parts: seq<string>)
    requires Lower(s) == s && Trim(s) == s
    requires forall p :: p in parts ==> p != "" && Lower(p) == p && p[0] !in s
    ensures s != "" ==> Unlabelled(s, parts) == s
    ensures CutAtLabels(s, parts) == s && CutAtStops(s, parts) == s
  {
    hide Trim, Lower;
    if parts != [] {
      assert parts[0] in parts;
      assert forall p :: p in parts[1..] ==> p in parts;
      NothingToCut(s, parts[1..]);
    }
  }

  /** A tab between quotation marks: not blank when it is cleaned up, and blank when it is read. */
  const TAB_NAME := "\"\t\""

  lemma TabNameUncut()
    ensures Trim(TAB_NAME) == TAB_NAME && Core(TAB_NAME) == TAB_NAME
  {
    hide Unlabelled, CutAtLabels, CutAtStops;
    assert Lower(TAB_NAME) == TAB_NAME;
    PrefixesPlain();
    LabelsPlain();
    StopsPlain();
    NothingToCut(TAB_NAME, PREFIXES);
    NothingToCut(TAB_NAME, LABELS);
    NothingToCut(TAB_NAME, STOPS);
  }

  predicate Plain(p: string) { p != "" && Lower(p) == p && p[0] != '"' && p[0] != '\t' }

  lemma PrefixesPlain()
    ensures forall p :: p in PREFIXES ==> Plain(p)
  {}

  lemma LabelsPlain()
    ensures forall p :: p in LABELS ==> Plain(p)
  {}

  lemma StopsPlain()
    ensures forall p :: p in STOPS ==> Plain(p)
  {}

  lemma TabNameStripped()
    ensures StripRight(StripLeft(TAB_NAME)) == "\t"
  {
    assert TAB_NAME[1..] == "\t\"" && StripLeft(TAB_NAME) == StripLeft("\t\"") == "\t\"";
    assert "\t\""[..1] == "\t" && StripRight("\t\"") == StripRight("\t") == "\t";
  }

  lemma TabBlank()
    ensures Trim("\t") == ""
  {
    TrimBlankIff("\t");
  }

  lemma TabName()
    ensures DraftName(TAB_NAME) == "\t" && Trim("\t") == ""
    ensures Smudged(Trader, Name, TAB_NAME, DraftName)
  {
    hide Core, Trim, StripLeft, StripRight;
    TabNameUncut();
    TabNameStripped();
    TabBlank();
  }

  /** A trader draft that is called A, and the same draft as the brain hands it over, without slots. */
  const MIRRORED := Session(Trader, "create", Collecting, None, map[Name := "A"], Some(NO_SLOTS.(name := "A")), Unset)
  const HANDED := MIRRORED.(slots := None)

  /** Written over a proper name, such a name leaves field and slot apart; without slots it empties the name. */
  lemma TabNameSmudges()
    ensures Mirrored(MIRRORED) && !Mirrored(SetField(MIRRORED, Name, TAB_NAME, DraftName))
    ensures FieldValue(HANDED, Name) == "A" && FieldValue(SetField(HANDED, Name, TAB_NAME, DraftName), Name) == ""
  {
    hide DraftName, Smudged;
    TabName();
    assert Trim("A") == "A";
    SetFieldMirroredIff(MIRRORED, Name, TAB_NAME, DraftName);
    SetFieldEmptiesIff(HANDED, Name, TAB_NAME, DraftName, Name);
  }
}
