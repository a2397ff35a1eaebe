/** The string helpers of Go's `strings` package that the gateway relies on:
    `TrimSpace`, `TrimRight`, `FieldsFunc`, `Join`, `ToLower`, `HasPrefix`,
    `Contains`. A Go string is modelled as its sequence of runes. */
module Text {

  /** Go's `unicode.IsSpace`: the ASCII white space plus the Unicode
      space separators and line/paragraph separators. */
  predicate IsSpace(c: char) {
    || c == ' ' || c == '\t' || c == '\n' || c == '\U{B}' || c == '\U{C}' || c == '\r'
    || c == '\U{85}' || c == '\U{A0}' || c == '\U{1680}'
    || ('\U{2000}' <= c <= '\U{200A}')
    || c == '\U{2028}' || c == '\U{2029}' || c == '\U{202F}' || c == '\U{205F}' || c == '\U{3000}'
  }

  predicate AllSpace(s: string) {
    forall i :: 0 <= i < |s| ==> IsSpace(s[i])
  }

  /** Neither end of `s` is white space. */
  predicate IsTrimmed(s: string) {
    |s| == 0 || (!IsSpace(s[0]) && !IsSpace(s[|s| - 1]))
  }

  /** `s` without its leading white space. */
  function TrimLeftSpace(s: string): (r: string)
    ensures |r| <= |s| && r == s[|s| - |r|..]
    ensures AllSpace(s[..|s| - |r|])
    ensures |r| == 0 || !IsSpace(r[0])
  {
    if |s| > 0 && IsSpace(s[0]) then
      var r := TrimLeftSpace(s[1..]);
      TrimLeftStep(s, r);
      r
    else
      s
  }

  /** One leading space more in front of an already trimmed tail. */
  lemma TrimLeftStep(s: string, r: string)
    requires |s| > 0 && IsSpace(s[0]) && |r| <= |s| - 1
    requires r == s[1..][|s| - 1 - |r|..] && AllSpace(s[1..][..|s| - 1 - |r|])
    ensures r == s[|s| - |r|..] && AllSpace(s[..|s| - |r|])
  {
    var k := |s| - 1 - |r|;
    assert s[1..][k..] == s[k + 1..];
    var p := s[..k + 1];
    forall i | 0 <= i < |p|
      ensures IsSpace(p[i])
    {
      if i > 0 { assert p[i] == s[1..][..k][i - 1]; }
    }
  }

  /** `s` without its trailing white space. */
  function TrimRightSpace(s: string): (r: string)
    ensures |r| <= |s| && r == s[..|r|]
    ensures AllSpace(s[|r|..])
    ensures |r| == 0 || !IsSpace(r[|r| - 1])
  {
    if |s| > 0 && IsSpace(s[|s| - 1]) then
      var r := TrimRightSpace(s[..|s| - 1]);
      assert s[|r|..] == s[..|s| - 1][|r|..] + [s[|s| - 1]];
      r
    else
      s
  }

  /** Go's `strings.TrimSpace`. */
  function TrimSpace(s: string): (r: string)
    ensures IsTrimmed(r)
    ensures |r| <= |s|
    ensures |r| == 0 <==> AllSpace(s)
    ensures IsTrimmed(s) ==> r == s
  {
    var t := TrimLeftSpace(s);
    var r := TrimRightSpace(t);
    assert |t| > 0 ==> !AllSpace(s) by {
      if |t| > 0 {
        assert s[|s| - |t|] == t[0];
      }
    }
    assert |t| == 0 ==> s[..|s|] == s;
    r
  }

  /** Trimming removes exactly the white space around a trimmed core. */
  lemma TrimSpaceOfPadded(a: string, t: string, b: string)
    requires AllSpace(a) && AllSpace(b) && IsTrimmed(t)
    ensures TrimSpace(a + t + b) == t
  {
    if |t| == 0 {
      AllSpaceConcat(a, b);
      assert a + t + b == a + b;
    } else {
      assert a + t + b == a + (t + b);
      TrimLeftOfPadded(a, t + b);
      assert TrimLeftSpace(a + t + b) == t + b;
      TrimRightOfPadded(t, b);
    }
  }

  lemma AllSpaceConcat(a: string, b: string)
    requires AllSpace(a) && AllSpace(b)
    ensures AllSpace(a + b)
  {
    forall i | 0 <= i < |a + b|
      ensures IsSpace((a + b)[i])
    {
      if i < |a| { assert (a + b)[i] == a[i]; } else { assert (a + b)[i] == b[i - |a|]; }
    }
  }

  lemma TrimLeftOfPadded(a: string, u: string)
    requires AllSpace(a) && |u| > 0 && !IsSpace(u[0])
    ensures TrimLeftSpace(a + u) == u
    decreases |a|
  {
    if |a| > 0 {
      assert (a + u)[1..] == a[1..] + u;
      TrimLeftOfPadded(a[1..], u);
    } else {
      assert a + u == u;
    }
  }

  lemma TrimRightOfPadded(t: string, b: string)
    requires AllSpace(b) && |t| > 0 && !IsSpace(t[|t| - 1])
    ensures TrimRightSpace(t + b) == t
    decreases |b|
  {
    if |b| > 0 {
      assert (t + b)[..|t + b| - 1] == t + b[..|b| - 1];
      TrimRightOfPadded(t, b[..|b| - 1]);
    } else {
      assert t + b == t;
    }
  }

  /** The value trimmed, or `fallback` when nothing but white space is
      left; the shape of every "use the override, else the default" rule. */
  function TrimmedOr(value: string, fallback: string): (r: string)
    ensures r == fallback || (r == TrimSpace(value) && |r| > 0)
    ensures |TrimSpace(value)| > 0 ==> r == TrimSpace(value)
    ensures AllSpace(value) ==> r == fallback
  {
    var t := TrimSpace(value);
    if t == "" then fallback else t
  }

  /** Go's `strings.TrimRight(s, cut)` for a one-character cut set:
      every trailing `c` is removed. */
  function TrimRightChar(s: string, c: char): (r: string)
    ensures |r| <= |s| && r == s[..|r|]
    ensures forall i :: |r| <= i < |s| ==> s[i] == c
    ensures |r| == 0 || r[|r| - 1] != c
  {
    if |s| > 0 && s[|s| - 1] == c then TrimRightChar(s[..|s| - 1], c) else s
  }

  predicate HasPrefix(s: string, prefix: string) {
    |prefix| <= |s| && s[..|prefix|] == prefix
  }

  /** A string is a prefix of itself followed by anything, and what follows
      it is the rest. */
  lemma PrefixOfConcat(a: string, b: string)
    ensures HasPrefix(a + b, a) && (a + b)[|a|..] == b
  {
    assert (a + b)[..|a|] == a;
  }

  /** Go's `strings.Contains`. */
  predicate Contains(s: string, sub: string)
    decreases |s|
  {
    HasPrefix(s, sub) || (|s| > 0 && Contains(s[1..], sub))
  }

  /** ASCII upper case to lower case; every other rune is kept. */
  function LowerChar(c: char): char {
    if 'A' <= c <= 'Z' then (c as int + 32) as char else c
  }

  /** Go's `strings.ToLower` on ASCII letters. */
  function ToLower(s: string): (r: string)
    ensures |r| == |s|
  {
    if |s| == 0 then "" else [LowerChar(s[0])] + ToLower(s[1..])
  }

  /** Lower-casing works rune by rune, so it distributes over
      concatenation. */
  lemma {:induction false} ToLowerConcat(a: string, b: string)
    ensures ToLower(a + b) == ToLower(a) + ToLower(b)
    decreases |a|
  {
    if |a| > 0 {
      assert (a + b)[1..] == a[1..] + b;
      ToLowerConcat(a[1..], b);
    } else {
      assert a + b == b;
    }
  }

  /** No rune of `s` belongs to `cs`. */
  predicate Avoids(s: string, cs: set<char>) {
    forall i :: 0 <= i < |s| ==> s[i] !in cs
  }

  /** `s` cut at every rune of `seps`, empty pieces included
      (the pieces of Go's `strings.Split`, generalised to a set). */
  function Segments(s: string, seps: set<char>): (r: seq<string>)
    ensures |r| >= 1
    ensures forall i :: 0 <= i < |r| ==> Avoids(r[i], seps)
  {
    if |s| == 0 then [""]
    else
      var rest := Segments(s[1..], seps);
      if s[0] in seps then [""] + rest
      else [[s[0]] + rest[0]] + rest[1..]
  }

  /** The non-empty strings of `xs`, in order. */
  function NonEmpty(xs: seq<string>): (r: seq<string>)
    ensures |r| <= |xs|
    ensures forall i :: 0 <= i < |r| ==> |r[i]| > 0
    ensures forall i :: 0 <= i < |r| ==> r[i] in xs
  {
    if |xs| == 0 then []
    else if |xs[0]| == 0 then NonEmpty(xs[1..])
    else [xs[0]] + NonEmpty(xs[1..])
  }

  /** Go's `strings.FieldsFunc(s, f)` where `f` holds exactly on `seps`:
      the maximal non-empty runs of runes outside `seps`. */
  function Fields(s: string, seps: set<char>): (r: seq<string>)
    ensures forall i :: 0 <= i < |r| ==> |r[i]| > 0 && Avoids(r[i], seps)
  {
    var segs := Segments(s, seps);
    var r := NonEmpty(segs);
    assert forall i :: 0 <= i < |r| ==> Avoids(r[i], seps) by {
      forall i | 0 <= i < |r|
        ensures Avoids(r[i], seps)
      {
        var k :| 0 <= k < |segs| && segs[k] == r[i];
      }
    }
    r
  }

  /** A non-empty string free of separators is its own single field. */
  lemma {:induction false} FieldsOfPlain(s: string, seps: set<char>)
    requires |s| > 0 && Avoids(s, seps)
    ensures Fields(s, seps) == [s]
  {
    SegmentsOfPlain(s, seps);
  }

  lemma {:induction false} SegmentsOfPlain(s: string, seps: set<char>)
    requires Avoids(s, seps)
    ensures Segments(s, seps) == [s]
  {
    if |s| > 0 {
      SegmentsOfPlain(s[1..], seps);
      assert [s[0]] + s[1..] == s;
    }
  }

  /** A separator ends the first segment. */
  lemma {:induction false} SegmentsAtSeparator(a: string, c: char, b: string, seps: set<char>)
    requires Avoids(a, seps) && c in seps
    ensures Segments(a + [c] + b, seps) == [a] + Segments(b, seps)
  {
    var s := a + [c] + b;
    if |a| == 0 {
      assert s[1..] == b;
    } else {
      assert s[1..] == a[1..] + [c] + b;
      SegmentsAtSeparator(a[1..], c, b, seps);
      assert [a[0]] + a[1..] == a;
    }
  }

  /** A separator ends the first field, and the fields of the rest follow. */
  lemma FieldsAtSeparator(a: string, c: char, b: string, seps: set<char>)
    requires |a| > 0 && Avoids(a, seps) && c in seps
    ensures Fields(a + [c] + b, seps) == [a] + Fields(b, seps)
  {
    SegmentsAtSeparator(a, c, b, seps);
    var segs := [a] + Segments(b, seps);
    assert segs[1..] == Segments(b, seps);
  }

  /** Non-empty parts free of separators, joined by one separator, split
      back into exactly those parts. */
  lemma {:induction false} FieldsOfJoin(parts: seq<string>, c: char, seps: set<char>)
    requires c in seps
    requires forall i :: 0 <= i < |parts| ==> |parts[i]| > 0 && Avoids(parts[i], seps)
    ensures Fields(Join(parts, [c]), seps) == parts
  {
    if |parts| == 0 {
      assert Segments("", seps) == [""];
    } else if |parts| == 1 {
      FieldsOfPlain(parts[0], seps);
    } else {
      FieldsOfJoin(parts[1..], c, seps);
      FieldsAtSeparator(parts[0], c, Join(parts[1..], [c]), seps);
      assert [parts[0]] + parts[1..] == parts;
    }
  }

  /** Trimming only removes runes, so it brings in none of `cs`. */
  lemma TrimSpaceKeepsAvoiding(s: string, cs: set<char>)
    requires Avoids(s, cs)
    ensures Avoids(TrimSpace(s), cs)
  {
    var t := TrimLeftSpace(s);
    SliceAvoids(s, cs, |s| - |t|, |s|);
    SliceAvoids(t, cs, 0, |TrimRightSpace(t)|);
  }

  /** A slice of a string avoids whatever the string avoids. */
  lemma SliceAvoids(s: string, cs: set<char>, i: nat, j: nat)
    requires Avoids(s, cs) && i <= j <= |s|
    ensures Avoids(s[i..j], cs)
  {
    forall k | 0 <= k < j - i
      ensures s[i..j][k] !in cs
    {
      assert s[i..j][k] == s[i + k];
    }
  }

  /** `t` occurs in any text built around it. */
  lemma {:induction false} ContainsInfix(x: string, t: string, y: string)
    ensures Contains(x + t + y, t)
    decreases |x|
  {
    if |x| == 0 {
      assert (x + t + y)[..|t|] == t;
    } else {
      ContainsInfix(x[1..], t, y);
      assert (x + t + y)[1..] == x[1..] + t + y;
    }
  }

  /** Go's `strings.Join`. */
  function Join(parts: seq<string>, sep: string): string {
    if |parts| == 0 then ""
    else if |parts| == 1 then parts[0]
    else parts[0] + sep + Join(parts[1..], sep)
  }

  /** Joining brings in no rune that neither the parts nor the separator
      had. */
  lemma {:induction false} JoinAvoids(parts: seq<string>, sep: string, cs: set<char>)
    requires Avoids(sep, cs)
    requires forall i :: 0 <= i < |parts| ==> Avoids(parts[i], cs)
    ensures Avoids(Join(parts, sep), cs)
  {
    if |parts| > 1 {
      JoinAvoids(parts[1..], sep, cs);
      var tail := Join(parts[1..], sep);
      var r := parts[0] + sep + tail;
      forall i | 0 <= i < |r|
        ensures r[i] !in cs
      {
        if i < |parts[0]| {
          assert r[i] == parts[0][i];
        } else if i < |parts[0]| + |sep| {
          assert r[i] == sep[i - |parts[0]|];
        } else {
          assert r[i] == tail[i - |parts[0]| - |sep|];
        }
      }
    }
  }

  /** Text put in front keeps every occurrence. */
  lemma {:induction false} ContainsAfter(prefix: string, s: string, sub: string)
    requires Contains(s, sub)
    ensures Contains(prefix + s, sub)
    decreases |prefix|
  {
    if |prefix| > 0 {
      ContainsAfter(prefix[1..], s, sub);
      assert (prefix + s)[1..] == prefix[1..] + s;
    } else {
      assert prefix + s == s;
    }
  }

  /** Every part can be found in the joined text. */
  lemma JoinContains(parts: seq<string>, sep: string, i: nat)
    requires i < |parts|
    ensures Contains(Join(parts, sep), parts[i])
  {
    var x, y := JoinAround(parts, sep, i);
    ContainsInfix(x, parts[i], y);
  }

  lemma {:induction false} JoinAround(parts: seq<string>, sep: string, i: nat) returns (x: string, y: string)
    requires i < |parts|
    ensures Join(parts, sep) == x + parts[i] + y
  {
    if |parts| == 1 {
      x, y := "", "";
    } else if i == 0 {
      x, y := "", sep + Join(parts[1..], sep);
    } else {
      var x', y' := JoinAround(parts[1..], sep, i - 1);
      x, y := parts[0] + sep + x', y';
    }
  }

  /** Joining non-empty parts is empty exactly when there are no parts. */
  lemma {:induction false} JoinEmptyIff(parts: seq<string>, sep: string)
    requires forall i :: 0 <= i < |parts| ==> |parts[i]| > 0
    ensures |Join(parts, sep)| == 0 <==> |parts| == 0
  {
  }
}
