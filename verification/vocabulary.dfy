/** The custom vocabulary of a post-processing request
    (`mergedVocabularyTerms` and `normalizedVocabularyText`): the raw text
    is cut at line breaks, commas and semicolons, each piece is trimmed,
    blank pieces are dropped, and of the pieces that agree up to case only
    the first is kept, in its own casing and position. */
module Vocabulary {
  import Text

  /** The runes that separate vocabulary terms. */
  const Separators: set<char> := {'\n', ',', ';'}

  /** What two terms must share to count as the same term: their
      lower-case spelling. */
  function Key(term: string): string {
    Text.ToLower(term)
  }

  /** Every field of the raw vocabulary, trimmed; a blank field stays, as
      the empty string. */
  function Candidates(raw: string): (r: seq<string>)
    ensures |r| == |Text.Fields(raw, Separators)|
    ensures forall i :: 0 <= i < |r| ==> r[i] == Text.TrimSpace(Text.Fields(raw, Separators)[i])
    ensures forall i :: 0 <= i < |r| ==>
      Text.IsTrimmed(r[i]) && Text.Avoids(r[i], Separators)
  {
    var fields := Text.Fields(raw, Separators);
    TrimEachAvoids(fields, Separators);
    TrimEach(fields)
  }

  /** Each string of `xs` trimmed. */
  function TrimEach(xs: seq<string>): (r: seq<string>)
    ensures |r| == |xs|
    ensures forall i :: 0 <= i < |xs| ==> r[i] == Text.TrimSpace(xs[i])
  {
    seq(|xs|, i requires 0 <= i < |xs| => Text.TrimSpace(xs[i]))
  }

  /** Trimming keeps strings free of the runes they avoided. */
  lemma TrimEachAvoids(xs: seq<string>, cs: set<char>)
    requires forall i :: 0 <= i < |xs| ==> Text.Avoids(xs[i], cs)
    ensures forall i :: 0 <= i < |xs| ==> Text.IsTrimmed(TrimEach(xs)[i]) && Text.Avoids(TrimEach(xs)[i], cs)
  {
    forall i | 0 <= i < |xs|
      ensures Text.Avoids(TrimEach(xs)[i], cs)
    {
      Text.TrimSpaceKeepsAvoiding(xs[i], cs);
    }
  }

  /** `ts[k]` is a term, and no term before it has the same key. */
  predicate IsFirst(ts: seq<string>, k: nat)
    requires k < |ts|
  {
    ts[k] != "" && forall m :: 0 <= m < k && ts[m] != "" ==> Key(ts[m]) != Key(ts[k])
  }

  /** The reference definition: the terms of `ts` that come first with
      their key, in the order of `ts`. */
  function Firsts(ts: seq<string>): (r: seq<string>)
    ensures forall i :: 0 <= i < |r| ==> r[i] in ts && r[i] != ""
  {
    if |ts| == 0 then []
    else
      var init := ts[..|ts| - 1];
      var r := Firsts(init) + (if IsFirst(ts, |ts| - 1) then [ts[|ts| - 1]] else []);
      assert forall x :: x in init ==> x in ts;
      r
  }

  /** The keys of the terms among `ts`. */
  function SeenKeys(ts: seq<string>): set<string> {
    set m | 0 <= m < |ts| && ts[m] != "" :: Key(ts[m])
  }

  /** Some string of `r` has the key `key`. */
  predicate HasKey(r: seq<string>, key: string) {
    exists i :: 0 <= i < |r| && Key(r[i]) == key
  }

  /** Completeness: every term of `ts` is represented, by key, among the
      first occurrences. */
  lemma {:induction false} FirstsComplete(ts: seq<string>)
    ensures forall k :: 0 <= k < |ts| && ts[k] != "" ==> HasKey(Firsts(ts), Key(ts[k]))
  {
    if |ts| > 0 {
      var n := |ts| - 1;
      var init := ts[..n];
      FirstsComplete(init);
      var p := Firsts(init);
      var r := Firsts(ts);
      assert r[..|p|] == p;
      forall k | 0 <= k < |ts| && ts[k] != ""
        ensures HasKey(r, Key(ts[k]))
      {
        var k' := k;
        if k == n && !IsFirst(ts, n) {
          k' :| 0 <= k' < n && ts[k'] != "" && Key(ts[k']) == Key(ts[n]);
        }
        if k' < n {
          assert init[k'] == ts[k'];
          assert HasKey(p, Key(init[k']));
          var i :| 0 <= i < |p| && Key(p[i]) == Key(init[k']);
          assert r[i] == p[i];
        } else {
          assert r[|r| - 1] == ts[n];
        }
      }
    }
  }

  /** No two of the first occurrences share a key. */
  lemma {:induction false} FirstsDistinct(ts: seq<string>)
    ensures forall i, j :: 0 <= i < j < |Firsts(ts)| ==> Key(Firsts(ts)[i]) != Key(Firsts(ts)[j])
  {
    if |ts| > 0 {
      var n := |ts| - 1;
      var init := ts[..n];
      FirstsDistinct(init);
      var r := Firsts(ts);
      var p := Firsts(init);
      if IsFirst(ts, n) {
        assert r == p + [ts[n]];
        forall i | 0 <= i < |p|
          ensures Key(p[i]) != Key(ts[n])
        {
          assert p[i] in init;
          var m :| 0 <= m < n && init[m] == p[i];
          assert ts[m] == init[m];
        }
        forall i, j | 0 <= i < j < |r|
          ensures Key(r[i]) != Key(r[j])
        {
          assert r[i] == p[i];
          if j < |p| { assert r[j] == p[j]; } else { assert r[j] == ts[n]; }
        }
      } else {
        assert r == p;
      }
    }
  }

  /** One more candidate extends the first occurrences exactly when it is
      a term whose key has not been seen. */
  lemma FirstsSnoc(ts: seq<string>, i: nat)
    requires i < |ts|
    ensures Firsts(ts[..i + 1]) ==
      Firsts(ts[..i]) + (if ts[i] != "" && Key(ts[i]) !in SeenKeys(ts[..i]) then [ts[i]] else [])
    ensures SeenKeys(ts[..i + 1]) ==
      SeenKeys(ts[..i]) + (if ts[i] != "" then {Key(ts[i])} else {})
  {
    var u := ts[..i + 1];
    assert u[..i] == ts[..i];
    assert IsFirst(u, i) <==> ts[i] != "" && Key(ts[i]) !in SeenKeys(ts[..i]) by {
      if ts[i] != "" && Key(ts[i]) in SeenKeys(ts[..i]) {
        var m :| 0 <= m < i && ts[..i][m] != "" && Key(ts[..i][m]) == Key(ts[i]);
        assert u[m] == ts[..i][m];
      }
    }
    var before := SeenKeys(ts[..i]);
    var after := SeenKeys(u);
    forall x | x in after
      ensures x in before || (ts[i] != "" && x == Key(ts[i]))
    {
      var m :| 0 <= m <= i && u[m] != "" && Key(u[m]) == x;
      if m < i { assert ts[..i][m] == u[m]; }
    }
    forall x | x in before
      ensures x in after
    {
      var m :| 0 <= m < i && ts[..i][m] != "" && Key(ts[..i][m]) == x;
      assert u[m] == ts[..i][m];
    }
    if ts[i] != "" {
      assert Key(u[i]) in after;
    }
  }

  /** The vocabulary terms in the reference sense: each first occurrence
      of a key among the trimmed fields. Every term is trimmed, non-empty
      and free of separators; no two share a key; and every non-blank
      field is represented by the term with its key. */
  function Terms(raw: string): (terms: seq<string>)
    ensures forall i :: 0 <= i < |terms| ==>
      terms[i] != "" && Text.IsTrimmed(terms[i]) && Text.Avoids(terms[i], Separators)
    ensures forall i, j :: 0 <= i < j < |terms| ==> Key(terms[i]) != Key(terms[j])
    ensures forall k :: 0 <= k < |Candidates(raw)| && Candidates(raw)[k] != "" ==>
      HasKey(terms, Key(Candidates(raw)[k]))
  {
    var cands := Candidates(raw);
    FirstsComplete(cands);
    FirstsDistinct(cands);
    Firsts(cands)
  }

  /** `mergedVocabularyTerms`: one pass over the fields with the set of
      keys seen so far, computing exactly the reference terms. */
  method MergedVocabularyTerms(raw: string) returns (terms: seq<string>)
    ensures terms == Terms(raw)
  {
    var fields := Text.Fields(raw, Separators);
    ghost var cands := Candidates(raw);
    var seen: set<string> := {};
    terms := [];
    var i := 0;
    while i < |fields|
      invariant 0 <= i <= |fields|
      invariant terms == Firsts(cands[..i])
      invariant seen == SeenKeys(cands[..i])
    {
      FirstsSnoc(cands, i);
      var term := Text.TrimSpace(fields[i]);
      assert term == cands[i];
      if term != "" {
        var key := Key(term);
        if key !in seen {
          seen := seen + {key};
          terms := terms + [term];
        }
      }
      i := i + 1;
    }
    assert cands[..i] == cands;
  }

  /** `normalizedVocabularyText`: the non-blank terms, trimmed, joined by
      ", ". */
  function NormalizedText(terms: seq<string>): (r: string)
    ensures r == "" <==> forall i :: 0 <= i < |terms| ==> Text.AllSpace(terms[i])
  {
    var trimmed := seq(|terms|, i requires 0 <= i < |terms| => Text.TrimSpace(terms[i]));
    var kept := Text.NonEmpty(trimmed);
    Text.JoinEmptyIff(kept, ", ");
    NonEmptyIsEmptyIff(trimmed);
    assert forall i :: 0 <= i < |terms| ==> (Text.AllSpace(terms[i]) <==> trimmed[i] == "") by {
      forall i | 0 <= i < |terms|
        ensures Text.AllSpace(terms[i]) <==> trimmed[i] == ""
      {
        assert trimmed[i] == Text.TrimSpace(terms[i]);
      }
    }
    Text.Join(kept, ", ")
  }

  lemma {:induction false} NonEmptyIsEmptyIff(xs: seq<string>)
    ensures Text.NonEmpty(xs) == [] <==> forall i :: 0 <= i < |xs| ==> xs[i] == ""
  {
    if |xs| > 0 {
      NonEmptyIsEmptyIff(xs[1..]);
      assert forall i :: 1 <= i < |xs| ==> xs[i] == xs[1..][i - 1];
    }
  }

  /** Terms that are already clean are joined as they are. */
  lemma NormalizedTextOfClean(terms: seq<string>)
    requires forall i :: 0 <= i < |terms| ==> terms[i] != "" && Text.IsTrimmed(terms[i])
    ensures NormalizedText(terms) == Text.Join(terms, ", ")
  {
    var trimmed := seq(|terms|, i requires 0 <= i < |terms| => Text.TrimSpace(terms[i]));
    assert trimmed == terms;
    NonEmptyOfFull(terms);
  }

  lemma {:induction false} NonEmptyOfFull(xs: seq<string>)
    requires forall i :: 0 <= i < |xs| ==> xs[i] != ""
    ensures Text.NonEmpty(xs) == xs
  {
    if |xs| > 0 {
      NonEmptyOfFull(xs[1..]);
      assert [xs[0]] + xs[1..] == xs;
    }
  }

  /** A field that holds a term: no separator, and not blank. */
  predicate Filled(f: string) {
    Plain(f) && Text.TrimSpace(f) != ""
  }

  /** A non-empty field: no separator in it. */
  predicate Plain(f: string) {
    Text.Avoids(f, Separators) && |f| > 0
  }

  /** Duplicates that differ only in case collapse onto the first
      spelling, in order of first appearance, whichever separators and
      padding surround them: with fields `Alice`, ` bob`, `ALICE`, ` Bob`,
      ` Carol` this is `[Alice, bob, Carol]`. */
  lemma MergeCaseDuplicates(f1: string, f2: string, f3: string, f4: string, f5: string)
    requires Filled(f1) && Filled(f2) && Filled(f3) && Filled(f4) && Filled(f5)
    requires Key(Text.TrimSpace(f3)) == Key(Text.TrimSpace(f1))
    requires Key(Text.TrimSpace(f4)) == Key(Text.TrimSpace(f2))
    requires Key(Text.TrimSpace(f1)) != Key(Text.TrimSpace(f2))
    requires Key(Text.TrimSpace(f5)) != Key(Text.TrimSpace(f1))
    requires Key(Text.TrimSpace(f5)) != Key(Text.TrimSpace(f2))
    ensures Terms(f1 + [','] + (f2 + ['\n'] + (f3 + [';'] + (f4 + [';'] + f5))))
         == [Text.TrimSpace(f1), Text.TrimSpace(f2), Text.TrimSpace(f5)]
  {
    var raw := f1 + [','] + (f2 + ['\n'] + (f3 + [';'] + (f4 + [';'] + f5)));
    FiveFields(f1, f2, f3, f4, f5);
    MergeOfFive(raw, f1, f2, f3, f4, f5);
  }

  /** Five fields whose terms repeat the first two keys and then bring a
      third keep the first, second and fifth terms. */
  lemma MergeOfFive(raw: string, f1: string, f2: string, f3: string, f4: string, f5: string)
    requires Text.Fields(raw, Separators) == [f1, f2, f3, f4, f5]
    requires Text.TrimSpace(f1) != "" && Text.TrimSpace(f2) != "" && Text.TrimSpace(f3) != ""
    requires Text.TrimSpace(f4) != "" && Text.TrimSpace(f5) != ""
    requires Key(Text.TrimSpace(f3)) == Key(Text.TrimSpace(f1))
    requires Key(Text.TrimSpace(f4)) == Key(Text.TrimSpace(f2))
    requires Key(Text.TrimSpace(f1)) != Key(Text.TrimSpace(f2))
    requires Key(Text.TrimSpace(f5)) != Key(Text.TrimSpace(f1))
    requires Key(Text.TrimSpace(f5)) != Key(Text.TrimSpace(f2))
    ensures Terms(raw) == [Text.TrimSpace(f1), Text.TrimSpace(f2), Text.TrimSpace(f5)]
  {
    var fs := Text.Fields(raw, Separators);
    var c := Candidates(raw);
    assert |c| == 5;
    assert fs[0] == f1 && fs[1] == f2 && fs[2] == f3 && fs[3] == f4 && fs[4] == f5;
    assert c[0] == Text.TrimSpace(f1) && c[1] == Text.TrimSpace(f2) && c[2] == Text.TrimSpace(f3);
    assert c[3] == Text.TrimSpace(f4) && c[4] == Text.TrimSpace(f5);
    FirstsOfFive(c);
  }

  /** A term whose key is new joins the terms and its key the seen keys. */
  lemma FirstsFresh(ts: seq<string>, i: nat)
    requires i < |ts| && ts[i] != "" && Key(ts[i]) !in SeenKeys(ts[..i])
    ensures Firsts(ts[..i + 1]) == Firsts(ts[..i]) + [ts[i]]
    ensures SeenKeys(ts[..i + 1]) == SeenKeys(ts[..i]) + {Key(ts[i])}
  {
    FirstsSnoc(ts, i);
  }

  /** A term whose key was seen changes nothing. */
  lemma FirstsRepeat(ts: seq<string>, i: nat)
    requires i < |ts| && ts[i] != "" && Key(ts[i]) in SeenKeys(ts[..i])
    ensures Firsts(ts[..i + 1]) == Firsts(ts[..i])
    ensures SeenKeys(ts[..i + 1]) == SeenKeys(ts[..i])
  {
    FirstsSnoc(ts, i);
  }

  /** Two terms with different keys are both kept. */
  lemma FirstsOfTwo(ts: seq<string>)
    requires |ts| >= 2 && ts[0] != "" && ts[1] != "" && Key(ts[0]) != Key(ts[1])
    ensures Firsts(ts[..2]) == [ts[0], ts[1]]
    ensures SeenKeys(ts[..2]) == {Key(ts[0]), Key(ts[1])}
  {
    assert ts[..0] == [];
    assert SeenKeys(ts[..0]) == {};
    FirstsFresh(ts, 0);
    FirstsFresh(ts, 1);
  }

  /** Terms repeating the keys of the first two change nothing. */
  lemma FirstsOfFour(ts: seq<string>)
    requires |ts| >= 4 && ts[0] != "" && ts[1] != "" && ts[2] != "" && ts[3] != ""
    requires Key(ts[0]) != Key(ts[1]) && Key(ts[2]) == Key(ts[0]) && Key(ts[3]) == Key(ts[1])
    ensures Firsts(ts[..4]) == [ts[0], ts[1]]
    ensures SeenKeys(ts[..4]) == {Key(ts[0]), Key(ts[1])}
  {
    FirstsOfTwo(ts);
    FirstsRepeat(ts, 2);
    FirstsRepeat(ts, 3);
  }

  lemma FirstsOfFive(ts: seq<string>)
    requires |ts| == 5 && ts[0] != "" && ts[1] != "" && ts[2] != "" && ts[3] != "" && ts[4] != ""
    requires Key(ts[2]) == Key(ts[0]) && Key(ts[3]) == Key(ts[1])
    requires Key(ts[0]) != Key(ts[1]) && Key(ts[4]) != Key(ts[0]) && Key(ts[4]) != Key(ts[1])
    ensures Firsts(ts) == [ts[0], ts[1], ts[4]]
  {
    FirstsOfFour(ts);
    FirstsFresh(ts, 4);
    assert ts[..5] == ts;
  }

  lemma FieldsCons(a: string, c: char, rest: string, tail: seq<string>)
    requires Plain(a) && c in Separators && Text.Fields(rest, Separators) == tail
    ensures Text.Fields(a + [c] + rest, Separators) == [a] + tail
  {
    Text.FieldsAtSeparator(a, c, rest, Separators);
  }

  lemma FiveFields(f1: string, f2: string, f3: string, f4: string, f5: string)
    requires Plain(f1) && Plain(f2) && Plain(f3) && Plain(f4) && Plain(f5)
    ensures Text.Fields(f1 + [','] + (f2 + ['\n'] + (f3 + [';'] + (f4 + [';'] + f5))), Separators)
         == [f1, f2, f3, f4, f5]
  {
    Text.FieldsOfPlain(f5, Separators);
    FieldsCons(f4, ';', f5, [f5]);
    FieldsCons(f3, ';', f4 + [';'] + f5, [f4, f5]);
    FieldsCons(f2, '\n', f3 + [';'] + (f4 + [';'] + f5), [f3, f4, f5]);
    FieldsCons(f1, ',', f2 + ['\n'] + (f3 + [';'] + (f4 + [';'] + f5)), [f2, f3, f4, f5]);
  }
}
