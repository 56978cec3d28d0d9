/** Strings, optional values and timestamps shared by every part of the model. */
module Text {

  datatype Option<+T> = None | Some(value: T) {
    function GetOr(default: T): T {
      if None? then default else value
    }
  }

  /** A timestamp in whole seconds; the blank string of the source is `Unset`. */
  datatype Stamp = Unset | At(seconds: int)

  function Fill(s: Stamp, now: int): (r: Stamp)
    ensures r.At?
    ensures s.At? ==> r == s
  {
    if s.Unset? then At(now) else s
  }

  /** The white space that the source's trimming removes. */
  predicate IsSpace(c: char) {
    c == ' ' || '\t' <= c <= '\r' || c == '\U{85}' || c == '\U{A0}' || c == '\U{1680}' ||
    '\U{2000}' <= c <= '\U{200A}' || c == '\U{2028}' || c == '\U{2029}' || c == '\U{202F}' ||
    c == '\U{205F}' || c == '\U{3000}'
  }

  predicate Trimmed(s: string) {
    s == "" || (!IsSpace(s[0]) && !IsSpace(s[|s| - 1]))
  }

  function TrimLeft(s: string): (r: string)
    ensures r == "" || !IsSpace(r[0])
    ensures s == "" || !IsSpace(s[0]) ==> r == s
    ensures |r| <= |s|
  {
    if s != "" && IsSpace(s[0]) then TrimLeft(s[1..]) else s
  }

  function TrimRight(s: string): (r: string)
    ensures r == "" || !IsSpace(r[|r| - 1])
    ensures s == "" || !IsSpace(s[|s| - 1]) ==> r == s
    ensures |r| <= |s|
    ensures r != "" ==> r[0] == s[0]
  {
    if s != "" && IsSpace(s[|s| - 1]) then TrimRight(s[..|s| - 1]) else s
  }

  function Trim(s: string): (r: string)
    ensures Trimmed(r)
    ensures Trimmed(s) ==> r == s
    ensures |r| <= |s|
  {
    TrimRight(TrimLeft(s))
  }

  predicate Spaces(s: string) { forall i :: 0 <= i < |s| ==> IsSpace(s[i]) }

  lemma {:induction false} TrimLeftCuts(s: string) returns (a: string)
    ensures s == a + TrimLeft(s) && Spaces(a)
  {
    hide IsSpace;
    a := "";
    if s != "" && IsSpace(s[0]) {
      var b := TrimLeftCuts(s[1..]);
      a := [s[0]] + b;
      assert s == a + TrimLeft(s);
    }
  }

  lemma {:induction false} TrimRightCuts(s: string) returns (b: string)
    ensures s == TrimRight(s) + b && Spaces(b)
  {
    hide IsSpace;
    b := "";
    if s != "" && IsSpace(s[|s| - 1]) {
      var a := TrimRightCuts(s[..|s| - 1]);
      b := a + [s[|s| - 1]];
      assert s == TrimRight(s) + b;
    }
  }

  /** Trimming cuts white space at both ends, and nothing else. */
  lemma TrimCuts(s: string) returns (a: string, b: string)
    ensures s == a + Trim(s) + b && Spaces(a) && Spaces(b)
  {
    hide TrimLeft, TrimRight, IsSpace;
    a := TrimLeftCuts(s);
    b := TrimRightCuts(TrimLeft(s));
    assert s == a + (Trim(s) + b);
  }

  /** `value` trimmed, or `fallback` trimmed when that is blank. */
  function OrElse(value: string, fallback: string): (r: string)
    ensures Trimmed(r)
    ensures Trim(value) != "" ==> r == Trim(value)
  {
    if Trim(value) == "" then Trim(fallback) else Trim(value)
  }

  function LowerChar(c: char): char {
    if 'A' <= c <= 'Z' then (c as int + 32) as char else c
  }

  /** Lower-casing, for the letters A to Z. */
  function Lower(s: string): (r: string)
    ensures |r| == |s|
  {
    seq(|s|, i requires 0 <= i < |s| => LowerChar(s[i]))
  }

  /** The runes that count as white space. */
  lemma SpaceIff(c: char)
    ensures IsSpace(c) <==>
              || c as int in {9, 10, 11, 12, 13, 32, 0x85, 0xA0, 0x1680, 0x2028, 0x2029, 0x202F, 0x205F, 0x3000}
              || 0x2000 <= c as int <= 0x200A
  {}

  /** The first text counts unless it is all white space. */
  lemma OrElseIs(value: string, fallback: string)
    ensures OrElse(value, fallback) == Trim(if Trim(value) == "" then fallback else value)
  {}

  predicate EqualFold(a: string, b: string) {
    Lower(a) == Lower(b)
  }

  function Join(parts: seq<string>, sep: string): string {
    if |parts| == 0 then ""
    else if |parts| == 1 then parts[0]
    else parts[0] + sep + Join(parts[1..], sep)
  }

  /** Joining non-blank trimmed pieces gives a non-blank trimmed text. */
  lemma {:induction false} JoinTrimmed(parts: seq<string>, sep: string)
    requires |parts| > 0
    requires forall p :: p in parts ==> p != "" && Trimmed(p)
    ensures Join(parts, sep) != "" && Trimmed(Join(parts, sep))
  {
    assert parts[0] in parts;
    if |parts| > 1 {
      forall p | p in parts[1..] ensures p in parts {}
      JoinTrimmed(parts[1..], sep);
      var j := Join(parts, sep);
      var tail := Join(parts[1..], sep);
      assert j[|j| - 1] == tail[|tail| - 1];
      assert j[0] == parts[0][0];
    }
  }

  /** Joining two lists puts one separator between them. */
  lemma {:induction false} JoinAppend(a: seq<string>, b: seq<string>, sep: string)
    requires a != [] && b != []
    ensures Join(a + b, sep) == Join(a, sep) + sep + Join(b, sep)
  {
    assert (a + b)[1..] == a[1..] + b;
    if |a| > 1 { JoinAppend(a[1..], b, sep); }
  }

  /** Some element of a set: the keys of a map are met in no particular order. */
  method Pick<T(==)>(s: set<T>) returns (x: T)
    requires s != {}
    ensures x in s
  {
    x :| x in s;
  }

  // ---- last elements of a sequence --------------------------------------

  /** The last `n` elements of `s`, or all of them when there are fewer. */
  function Last<T>(s: seq<T>, n: nat): (r: seq<T>)
    ensures |r| == if |s| <= n then |s| else n
    ensures |s| <= n ==> r == s
  {
    if |s| <= n then s else s[|s| - n..]
  }

  lemma AppendIndex<T>(a: seq<T>, b: seq<T>, k: nat)
    requires k < |b|
    ensures (a + b)[|a| + k] == b[k] && b[k] in b
  {}

  /** The pieces that `f` makes of each element, one after the other. */
  function Flat<T, U>(s: seq<T>, f: T -> seq<U>): seq<U> {
    if s == [] then [] else f(s[0]) + Flat(s[1..], f)
  }

  lemma {:induction false} FlatAppend<T, U>(a: seq<T>, b: seq<T>, f: T -> seq<U>)
    ensures Flat(a + b, f) == Flat(a, f) + Flat(b, f)
  {
    if a == [] {
      assert a + b == b;
    } else {
      assert (a + b)[1..] == a[1..] + b && (a + b)[0] == a[0];
      FlatAppend(a[1..], b, f);
    }
  }

  lemma FlatSnoc<T, U>(a: seq<T>, x: T, f: T -> seq<U>)
    ensures Flat(a + [x], f) == Flat(a, f) + f(x)
  {
    FlatAppend(a, [x], f);
    assert [x][1..] == [];
  }

  lemma FlatSplit<T, U>(s: seq<T>, i: nat, f: T -> seq<U>)
    requires i < |s|
    ensures Flat(s, f) == Flat(s[..i], f) + f(s[i]) + Flat(s[i + 1..], f)
  {
    hide Flat;
    var a, x, b := s[..i], s[i], s[i + 1..];
    SplitAt(s, i);
    FlatSnoc(a, x, f);
    FlatAppend(a + [x], b, f);
  }

  lemma SplitAt<T>(s: seq<T>, i: nat)
    requires i < |s|
    ensures s == s[..i] + [s[i]] + s[i + 1..]
  {}

  lemma Assoc<T>(a: seq<T>, b: seq<T>, c: seq<T>)
    ensures a + b + c == a + (b + c)
  {}

  lemma Assoc4<T>(a: seq<T>, b: seq<T>, c: seq<T>, d: seq<T>)
    ensures a + (b + c + d) == a + b + c + d
  {}

  lemma SliceSnoc<T>(s: seq<T>, x: nat, c: nat)
    requires x <= c < |s|
    ensures s[x..c + 1] == s[x..c] + [s[c]]
  {}

  lemma AppendSlices<T>(s: seq<T>, more: seq<T>, x: nat)
    requires x <= |s|
    ensures (s + more)[x..] == s[x..] + more && (s + more)[x..|s|] == s[x..]
  {}

  /** Appending one element to a sequence whose last `n` elements are kept. */
  lemma LastStep<T>(all: seq<T>, kept: seq<T>, x: T, n: nat)
    requires kept == Last(all, n)
    ensures Last(kept + [x], n) == Last(all + [x], n)
  {
    LastOfAppend(all, [x], n);
  }

  lemma LastOfAppend<T>(a: seq<T>, b: seq<T>, n: nat)
    ensures Last(Last(a, n) + b, n) == Last(a + b, n)
  {
    if |a| > n && |Last(a, n) + b| > n {
      assert Last(a, n) + b == (a + b)[|a| - n..];
    }
  }

  // ---- cleaned lists -----------------------------------------------------

  /** Every entry is trimmed, not blank, and no two agree up to case or lie in `seen`. */
  ghost predicate CleanList(values: seq<string>, seen: set<string>) {
    forall i :: 0 <= i < |values| ==>
      && Trimmed(values[i]) && values[i] != "" && Lower(values[i]) !in seen
      && forall j :: 0 <= j < i ==> Lower(values[j]) != Lower(values[i])
  }

  function Clean(values: seq<string>, seen: set<string>): (r: seq<string>)
    ensures CleanList(r, seen)
  {
    if values == [] then []
    else
      var v := Trim(values[0]);
      if v == "" || Lower(v) in seen then Clean(values[1..], seen)
      else
        var rest := Clean(values[1..], seen + {Lower(v)});
        assert forall i :: 0 <= i < |rest| ==> Lower(rest[i]) !in seen + {Lower(v)};
        [v] + rest
  }

  lemma {:induction false} CleanFixed(values: seq<string>, seen: set<string>)
    requires CleanList(values, seen)
    ensures Clean(values, seen) == values
  {
    if values != [] {
      assert Trim(values[0]) == values[0];
      forall i | 0 <= i < |values[1..]|
        ensures Lower(values[1..][i]) !in seen + {Lower(values[0])}
      {
        assert Lower(values[i + 1]) != Lower(values[0]);
      }
      CleanFixed(values[1..], seen + {Lower(values[0])});
    }
  }

  /** Nothing is lost: every non-blank entry survives up to case. */
  lemma {:induction false} CleanCovers(values: seq<string>, seen: set<string>, v: string)
    requires v in values && Trim(v) != "" && Lower(Trim(v)) !in seen
    ensures exists w :: w in Clean(values, seen) && EqualFold(w, Trim(v))
  {
    var t := Trim(values[0]);
    if t == "" || Lower(t) in seen {
      CleanCovers(values[1..], seen, v);
    } else if Lower(t) == Lower(Trim(v)) {
      assert t in Clean(values, seen);
    } else {
      CleanCovers(values[1..], seen + {Lower(t)}, v);
    }
  }

  /** `cleanStringList`: one pass with a set of the lower-cased entries seen. */
  method CleanStringList(values: seq<string>) returns (out: seq<string>)
    ensures out == Clean(values, {})
  {
    out := [];
    var seen := {};
    for i := 0 to |values|
      invariant Clean(values, {}) == out + Clean(values[i..], seen)
    {
      var v := Trim(values[i]);
      ghost var rest := values[i + 1..];
      assert values[i..][0] == values[i] && values[i..][1..] == rest;
      if v != "" && Lower(v) !in seen {
        assert out + ([v] + Clean(rest, seen + {Lower(v)})) == out + [v] + Clean(rest, seen + {Lower(v)});
        seen := seen + {Lower(v)};
        out := out + [v];
      }
    }
    assert values[|values|..] == [];
  }
}
