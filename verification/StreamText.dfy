/** Splitting a reply into the chunks in which it is streamed. */
module StreamTexts {
  import opened Text

  /** The runes that end a chunk. */
  predicate IsCut(c: char) {
    c == '.' || c == '!' || c == '?' || c == ';' || c == ':' || c == ',' ||
    c == '\U{3002}' || c == '\U{FF01}' || c == '\U{FF1F}' || c == '\U{FF1B}' || c == '\U{FF1A}' || c == '\U{FF0C}'
  }

  // ---- the splitting as a function ---------------------------------------

  /** A piece, trimmed, unless it is blank. */
  function Part(s: string): (r: seq<string>)
    ensures |r| <= 1 && forall p :: p in r ==> p != "" && Trimmed(p)
  {
    if Trim(s) == "" then [] else [Trim(s)]
  }

  /** The pieces of a line from `start` on, when it has been looked at up to `i`. */
  function Parts(line: string, start: nat, i: nat): seq<string>
    requires start <= i <= |line|
    decreases |line| - i
  {
    if i == |line| then (if start < |line| then Part(line[start..]) else [])
    else if IsCut(line[i]) then Part(line[start..i + 1]) + Parts(line, i + 1, i + 1)
    else Parts(line, start, i + 1)
  }

  function Line(line: string): seq<string> {
    Parts(Trim(line), 0, 0)
  }

  /** `strings.Split` at line ends. */
  function Lines(s: string): (r: seq<string>)
    ensures |r| > 0
  {
    if s == "" then [""]
    else if s[0] == '\n' then [""] + Lines(s[1..])
    else var rest := Lines(s[1..]); [[s[0]] + rest[0]] + rest[1..]
  }

  function AllLines(lines: seq<string>): seq<string> {
    if lines == [] then [] else AllLines(lines[..|lines| - 1]) + Line(lines[|lines| - 1])
  }

  /** `splitStreamText`. */
  function Chunks(text: string): seq<string> {
    if Trim(text) == "" then []
    else
      var chunks := AllLines(Lines(Trim(text)));
      if chunks == [] then [Trim(text)] else chunks
  }

  // ---- text is conserved --------------------------------------------------

  /** The text without white space. */
  function Ink(s: string): string {
    if s == "" then "" else (if IsSpace(s[0]) then "" else [s[0]]) + Ink(s[1..])
  }

  function InkOf(parts: seq<string>): string {
    if parts == [] then "" else Ink(parts[0]) + InkOf(parts[1..])
  }

  lemma {:induction false} InkAppend(a: string, b: string)
    ensures Ink(a + b) == Ink(a) + Ink(b)
  {
    if a == "" {
      assert a + b == b;
    } else {
      assert (a + b)[1..] == a[1..] + b;
      InkAppend(a[1..], b);
    }
  }

  lemma {:induction false} InkOfAppend(a: seq<string>, b: seq<string>)
    ensures InkOf(a + b) == InkOf(a) + InkOf(b)
  {
    if a == [] {
      assert a + b == b;
    } else {
      assert (a + b)[1..] == a[1..] + b;
      InkOfAppend(a[1..], b);
      Assoc(Ink(a[0]), InkOf(a[1..]), InkOf(b));
    }
  }

  lemma {:induction false} InkTrimLeft(s: string)
    ensures Ink(TrimLeft(s)) == Ink(s)
  {
    if s != "" && IsSpace(s[0]) { InkTrimLeft(s[1..]); }
  }

  lemma {:induction false} InkTrimRight(s: string)
    ensures Ink(TrimRight(s)) == Ink(s)
  {
    if s != "" && IsSpace(s[|s| - 1]) {
      var n := |s| - 1;
      InkTrimRight(s[..n]);
      InkAppend(s[..n], [s[n]]);
      assert s == s[..n] + [s[n]] && [s[n]][1..] == "";
    }
  }

  lemma InkTrim(s: string)
    ensures Ink(Trim(s)) == Ink(s)
  {
    InkTrimLeft(s);
    InkTrimRight(TrimLeft(s));
  }

  lemma InkPart(s: string)
    ensures InkOf(Part(s)) == Ink(s)
  {
    hide Trim;
    InkTrim(s);
    if Trim(s) != "" { assert [Trim(s)][1..] == []; }
  }

  lemma {:induction false} InkParts(line: string, start: nat, i: nat)
    requires start <= i <= |line|
    ensures InkOf(Parts(line, start, i)) == Ink(line[start..])
    decreases |line| - i
  {
    hide Part, IsCut, InkOf, Ink, IsSpace;
    NoInk();
    if i == |line| {
      InkPart(line[start..]);
    } else if IsCut(line[i]) {
      var piece, rest := line[start..i + 1], line[i + 1..];
      InkPart(piece);
      InkParts(line, i + 1, i + 1);
      InkOfAppend(Part(piece), Parts(line, i + 1, i + 1));
      InkAppend(piece, rest);
      assert line[start..] == piece + rest;
    } else {
      InkParts(line, start, i + 1);
    }
  }

  lemma InkLine(line: string)
    ensures InkOf(Line(line)) == Ink(line)
  {
    hide Trim, Parts;
    InkTrim(line);
    InkParts(Trim(line), 0, 0);
    assert Trim(line)[0..] == Trim(line);
  }

  lemma InkOfCons(a: string, rest: seq<string>)
    ensures InkOf([a] + rest) == Ink(a) + InkOf(rest)
  {
    hide Ink;
    assert ([a] + rest)[1..] == rest;
  }

  lemma InkCons(c: char, s: string)
    ensures Ink([c] + s) == (if IsSpace(c) then "" else [c]) + Ink(s)
  {
    hide IsSpace;
    assert ([c] + s)[1..] == s;
  }

  lemma {:induction false} InkLines(s: string)
    ensures InkOf(Lines(s)) == Ink(s)
  {
    hide InkOf, Ink, IsSpace;
    if s == "" {
      InkOfCons("", []);
      NoInk();
      assert [""] + [] == [""];
    } else {
      var rest := Lines(s[1..]);
      InkLines(s[1..]);
      InkCons(s[0], s[1..]);
      assert s == [s[0]] + s[1..];
      if s[0] == '\n' {
        InkOfCons("", rest);
        NoInk();
      } else {
        var tail := rest[1..];
        InkCons(s[0], rest[0]);
        InkOfCons([s[0]] + rest[0], tail);
        InkOfCons(rest[0], tail);
        assert rest == [rest[0]] + tail;
        Assoc(if IsSpace(s[0]) then "" else [s[0]], Ink(rest[0]), InkOf(tail));
      }
    }
  }

  lemma NoInk()
    ensures Ink("") == "" && InkOf([]) == "" && IsSpace('\n')
  {}

  lemma {:induction false} InkAllLines(lines: seq<string>)
    ensures InkOf(AllLines(lines)) == InkOf(lines)
  {
    hide Line;
    if lines != [] {
      var n := |lines| - 1;
      InkAllLines(lines[..n]);
      InkLine(lines[n]);
      InkOfAppend(AllLines(lines[..n]), Line(lines[n]));
      InkOfAppend(lines[..n], [lines[n]]);
      assert lines == lines[..n] + [lines[n]] && [lines[n]][1..] == [];
    }
  }

  /** No text is lost, doubled or moved: but for white space the chunks, put together, are the text. */
  lemma ChunksConserve(text: string)
    ensures InkOf(Chunks(text)) == Ink(text)
  {
    hide Trim, AllLines, Lines;
    InkTrim(text);
    InkLines(Trim(text));
    InkAllLines(Lines(Trim(text)));
    NoInk();
    assert [Trim(text)][1..] == [];
  }

  // ---- the shape of the chunks -------------------------------------------

  /** A chunk is trimmed and not blank, and only its last rune may be a cut. */
  predicate Neat(p: string) {
    p != "" && Trimmed(p) && forall k :: 0 <= k < |p| - 1 ==> !IsCut(p[k])
  }

  /** Cuts are no white space, so trimming moves none and a piece that ends in one keeps it. */
  predicate Ended(s: string) {
    forall k :: 0 <= k < |s| - 1 ==> !IsCut(s[k])
  }

  lemma {:induction false} EndedLeft(s: string)
    requires Ended(s)
    ensures Ended(TrimLeft(s))
  {
    if s != "" && IsSpace(s[0]) {
      assert Ended(s[1..]);
      EndedLeft(s[1..]);
    }
  }

  lemma {:induction false} EndedRight(s: string)
    requires Ended(s)
    ensures Ended(TrimRight(s))
  {
    if s != "" && IsSpace(s[|s| - 1]) {
      assert Ended(s[..|s| - 1]);
      EndedRight(s[..|s| - 1]);
    }
  }

  lemma PartNeat(s: string)
    requires Ended(s)
    ensures forall p :: p in Part(s) ==> Neat(p)
  {
    EndedLeft(s);
    EndedRight(TrimLeft(s));
  }

  lemma {:induction false} PartsNeat(line: string, start: nat, i: nat)
    requires start <= i <= |line| && forall k :: start <= k < i ==> !IsCut(line[k])
    ensures forall p :: p in Parts(line, start, i) ==> Neat(p)
    decreases |line| - i
  {
    hide Part, IsCut, Neat;
    if i == |line| {
      PartNeat(line[start..]);
    } else if IsCut(line[i]) {
      assert Ended(line[start..i + 1]);
      PartNeat(line[start..i + 1]);
      PartsNeat(line, i + 1, i + 1);
    } else {
      PartsNeat(line, start, i + 1);
    }
  }

  lemma {:induction false} AllLinesNeat(lines: seq<string>)
    ensures forall p :: p in AllLines(lines) ==> Neat(p)
  {
    hide Parts, Neat, Trim;
    if lines != [] {
      AllLinesNeat(lines[..|lines| - 1]);
      PartsNeat(Trim(lines[|lines| - 1]), 0, 0);
    }
  }

  lemma {:induction false} InkOfSolid(s: string)
    requires s != "" && Trimmed(s)
    ensures Ink(s) != ""
  {}

  /** Every chunk is neat; the fallback to the whole text is never taken, and a text has chunks unless it is blank. */
  lemma ChunksNeat(text: string)
    ensures forall p :: p in Chunks(text) ==> Neat(p)
    ensures Chunks(text) == (if Trim(text) == "" then [] else AllLines(Lines(Trim(text))))
    ensures Chunks(text) == [] <==> Trim(text) == ""
  {
    hide Trim, AllLines, Lines, Neat;
    if Trim(text) != "" {
      var lines := Lines(Trim(text));
      AllLinesNeat(lines);
      InkLines(Trim(text));
      InkAllLines(lines);
      InkOfSolid(Trim(text));
    }
  }

  // ---- where the text is cut ----------------------------------------------

  /** The end of a sentence or a clause, in Latin or in full-width punctuation. */
  lemma CutsIff(c: char)
    ensures IsCut(c) <==> c in ".!?;:," || c in "\U{3002}\U{FF01}\U{FF1F}\U{FF1B}\U{FF1A}\U{FF0C}"
  {}

  ghost predicate Uncut(s: string) { forall k :: 0 <= k < |s| ==> !IsCut(s[k]) }

  lemma {:induction false} PartsUncut(line: string, start: nat, i: nat)
    requires start <= i <= |line| && forall k :: i <= k < |line| ==> !IsCut(line[k])
    ensures Parts(line, start, i) == if start < |line| then Part(line[start..]) else []
    decreases |line| - i
  {
    hide IsCut, Part;
    if i < |line| { PartsUncut(line, start, i + 1); }
  }

  lemma {:induction false} PartsUpTo(line: string, start: nat, i: nat, n: nat)
    requires start <= i <= n < |line| && IsCut(line[n]) && forall k :: i <= k < n ==> !IsCut(line[k])
    ensures Parts(line, start, i) == Part(line[start..n + 1]) + Parts(line, n + 1, n + 1)
    decreases n - i
  {
    hide IsCut, Part;
    if i < n { PartsUpTo(line, start, i + 1, n); }
  }

  lemma {:induction false} PartsShift(a: string, b: string, start: nat, i: nat)
    requires start <= i <= |b|
    ensures Parts(a + b, |a| + start, |a| + i) == Parts(b, start, i)
    decreases |b| - i
  {
    hide IsCut, Part;
    var line := a + b;
    assert line[|a| + start..] == b[start..];
    if i < |b| {
      assert line[|a| + i] == b[i] && line[|a| + start..|a| + i + 1] == b[start..i + 1];
      if IsCut(b[i]) { PartsShift(a, b, i + 1, i + 1); } else { PartsShift(a, b, start, i + 1); }
    }
  }

  /** A line is cut after each rune that cuts, and nowhere else. */
  lemma LineIsCut(a: string, c: char, b: string)
    requires Uncut(a)
    ensures Parts(a, 0, 0) == Part(a)
    ensures IsCut(c) ==> Parts(a + [c] + b, 0, 0) == Part(a + [c]) + Parts(b, 0, 0)
  {
    hide IsCut, Part;
    PartsUncut(a, 0, 0);
    assert a[0..] == a;
    NoPart();
    if IsCut(c) {
      var line := a + [c] + b;
      assert forall k :: 0 <= k < |a| ==> line[k] == a[k];
      PartsUpTo(line, 0, 0, |a|);
      assert line[0..|a| + 1] == a + [c];
      PartsShift(a + [c], b, 0, 0);
    }
  }

  lemma NoPart()
    ensures Part("") == []
  {}

  /** A text is divided at each line end, and nowhere else; and the lines are cut one after the other. */
  lemma {:induction false} TextIsDivided(a: string, b: string)
    requires '\n' !in a
    ensures Lines(a) == [a] && Lines(a + "\n" + b) == [a] + Lines(b)
  {
    if a == "" {
      assert a + "\n" + b == "\n" + b && ("\n" + b)[1..] == b;
    } else {
      var t := a + "\n" + b;
      assert t[1..] == a[1..] + "\n" + b && t[0] == a[0] && [a[0]] + a[1..] == a;
      TextIsDivided(a[1..], b);
    }
  }

  lemma LinesInOrder(lines: seq<string>, line: string)
    ensures AllLines(lines + [line]) == AllLines(lines) + Parts(Trim(line), 0, 0)
  {
    hide Trim, Parts;
    assert (lines + [line])[..|lines|] == lines;
  }

  // ---- the source's form --------------------------------------------------

  /** The inner loop: a moving start and the chunks so far. */
  method SplitLine(line: string) returns (chunks: seq<string>)
    ensures chunks == Parts(line, 0, 0)
  {
    hide IsCut, Trim;
    chunks := [];
    var start := 0;
    for i := 0 to |line|
      invariant 0 <= start <= i
      invariant chunks + Parts(line, start, i) == Parts(line, 0, 0)
    {
      if IsCut(line[i]) {
        var part := Trim(line[start..i + 1]);
        Assoc(chunks, Part(line[start..i + 1]), Parts(line, i + 1, i + 1));
        if part != "" { chunks := chunks + [part]; }
        start := i + 1;
      }
    }
    if start < |line| {
      var part := Trim(line[start..]);
      if part != "" { chunks := chunks + [part]; }
    }
  }

  method SplitStreamText(text: string) returns (chunks: seq<string>)
    ensures chunks == Chunks(text)
  {
    hide Trim, Parts, Lines;
    var t := Trim(text);
    if t == "" { return []; }
    var lines := Lines(t);
    chunks := [];
    for i := 0 to |lines|
      invariant chunks == AllLines(lines[..i])
    {
      assert lines[..i + 1][..i] == lines[..i];
      var line := Trim(lines[i]);
      BlankLine();
      if line == "" { continue; }
      var parts := SplitLine(line);
      chunks := chunks + parts;
    }
    assert lines[..|lines|] == lines;
    if |chunks| == 0 { return [t]; }
  }

  lemma BlankLine()
    ensures Parts("", 0, 0) == []
  {}
}
